# Block breaker: a verified model of the game core

The game (`script.js`) is a canvas block breaker. The player picks a preset
(easy, normal or hard) and a three-second countdown runs. Then, once per
animation frame, the game:

1. moves the ball, reflecting it off the side and top walls and losing a life
   when it drops past the bottom;
2. moves the paddle with the arrow keys;
3. resolves collisions with the paddle (re-angling the ball) and with the
   block grid (destroying blocks and scoring points).

The session stops when the last life is lost or the last block is destroyed.

This project models that core in Dafny. It has two layers.

- **Pure layer.** Module `Config` holds the constants and the difficulty
  table. Module `Grid` holds the block grid: construction, hit counting and
  the effect of a ball position. Module `Physics` holds the ball and paddle
  step functions. Module `Rules` holds the session `State` and one function
  per phase of a frame, plus the session invariant `Inv` and its
  preservation lemmas.
- **Imperative layer.** Module `Game` holds two classes.
  - `Session` keeps the script's global variables (`ball`, `paddle`,
    `blocks`, `score`, `lives`, `isRunning`) as fields, with the global ball
    speed as a constant. Its methods update those fields in place, in the
    same order and under the same guards as the script. `MoveBall`,
    `MovePaddle`, `CheckCollision` and `Tick` are each proved to leave the
    state that the matching `Rules` function describes. `ResetBall` is tied
    to `Physics.Reset`. The remaining methods (`Start`, `KeyDown`, `KeyUp`,
    `GameOver`, `GameClear`) state their new field values directly.
  - `Countdown` is the timer that starts a session.

The grid is a `seq<seq<Block>>` field that is reassigned. Ball and paddle
are records reassigned field by field. Positions and velocities are `real`,
so the values are exact: there is no floating-point rounding.

Properties proved:

- Grid and presets:
  - the difficulty table;
  - the grid is centred, and its layout is unique;
  - `checkAllBlocksDestroyed` answers exactly "every block is hit".
- Ball, paddle and frame:
  - the wall-reflection rules and that they keep the ball's speed;
  - the bottom-loss rule;
  - the paddle stays within one step of the field;
  - a paddle hit's contact point lies strictly between −1 and 1;
  - the block loop destroys exactly the intact blocks that contain the ball
    centre, adds one point per block and flips `dy` once per block;
  - a stopped frame changes nothing.
- Across a session:
  - the invariant is kept by every frame: the score equals the number of
    destroyed blocks, lives stay in range, and a running session has lives
    and blocks left;
  - lives never rise, hit flags never revert, and the score never falls;
  - a frame destroys at most one block, because the layout's blocks do not
    overlap;
  - a clearing frame scores exactly one point and leaves the score at
    rows × columns;
  - a life-losing frame destroys no block;
  - the countdown starts a session on exactly its third tick.

`initGame` and `resetBall` serve the ball with velocity (s, −s), whose
magnitude is s·√2, while a paddle bounce gives magnitude s (for exact sin
and cos). `Physics.InitialBall` and `Physics.Reset` state the squared
speed 2·s². The script's comment on the paddle bounce speaks of
a 75-degree maximum angle, but the code uses π/3 (60 degrees). The model
follows the code: the oracle receives the contact point, which the code
multiplies by π/3.

## Model

| member | source | states |
|---|---|---|
| Config.ParseDifficulty | script.js:41-50 | a recognised string is exactly the name of the preset it yields |
| Config.ParseName | script.js:77-79 | each button value parses to its preset; every other string yields no preset |
| Config.SelectedBallSpeed | script.js:77-79 | the click handler sets the ball speed to 3 for every preset |
| Config.PaddleWidth | script.js:41-50 | the preset's paddle width is positive and narrower than the field |
| Config.StartingLives | script.js:41-50 | every preset starts with at least one life |
| Config.Rows | script.js:214-223 | every preset has between 1 and 7 block rows |
| Config.Columns | script.js:214-223 | every preset has at least one block column |
| Config.DifficultyTable | script.js:41-61 | easy: 120 / 5 lives / 3×5; normal: 100 / 3 / 5×8; hard: 80 / 1 / 7×10; ball speed 3 everywhere |
| Grid.OffsetLeft | script.js:225 | twice the left offset plus the grid's width is the field width, so the margins are equal |
| Grid.Centred | script.js:225-230 | the first block's left margin equals the last block's right margin; the offsets are 130, −5 and −95 |
| Grid.FreshGrid | script.js:227-234 | the grid has rows × columns blocks, each at (c·90 + offset, r·30 + 50) and intact |
| Grid.CreateBlocks | script.js:211-235 | the nested loops build exactly that layout with no block hit |
| Grid.FreshGridUnique | script.js:227-234 | any grid with that layout and no block hit is that one grid, so construction is deterministic |
| Grid.FreshGridStart | script.js:232 | a fresh grid has hit count 0 and is not cleared |
| Grid.AllHit | script.js:291-300 | every block of the grid is hit: the answer checkAllBlocksDestroyed computes |
| Grid.HitsBound | script.js:291-300 | the hit count is at most rows × columns, and equals it exactly when every block is hit |
| Grid.LayoutCellsDisjoint | script.js:225-232 | two blocks of the layout that contain the same point are the same block (rows 30 apart with height 20, columns 90 apart with width 80) |
| Grid.LayoutStrikesAtMostOne | script.js:258-267 | in the layout one ball position strikes at most one block |
| Grid.HitsMark | script.js:269-270 | marking one intact block raises the hit count by exactly one |
| Grid.Contains | script.js:263-266 | the ball centre lies strictly inside the block's rectangle |
| Grid.Struck | script.js:261-267 | the block is intact and contains the ball centre |
| Grid.Strike | script.js:268-269 | one visit: position kept, and the block is hit afterwards iff it was hit or contains the ball centre |
| Grid.NoneStruck | script.js:261-267 | the struck count is zero exactly when no block of the grid is struck |
| Grid.StruckCountZero | script.js:258-280 | when no block is struck the grid is unchanged |
| Grid.StrikeAll | script.js:258-269 | after the loop a block is hit iff it was hit before or it contains the ball centre; nothing else changes and no flag reverts |
| Grid.HitsStrikeAll | script.js:258-270 | the loop raises the hit count by exactly the number of blocks struck |
| Grid.StruckBelowGrid | script.js:262-267 | a ball centre below the lowest row strikes no block and leaves the grid unchanged |
| Grid.PartlyStruck | script.js:258-259 | the grid partway through the block loop keeps the grid's shape |
| Grid.PartlyStruckStep | script.js:260-269 | visiting block (r, c) marks it exactly when the ball strikes it |
| Grid.PartlyStruckBounds | script.js:258-259 | the loop starts at the grid itself, ends at StrikeAll, and finishing a row starts the next |
| Physics.InitialBall | script.js:32-38 | the ball starts at (350, 370) with radius 10 and velocity (s, −s), inside the field, with squared speed 2·s² |
| Physics.InitialPaddle | script.js:52-59 | the paddle has the preset width, height 10 and speed 7, is centred, and is not moving |
| Physics.CrossesSide | script.js:165 | the ball's edge is past the left or right wall |
| Physics.CrossesTop | script.js:168 | the ball's top edge is above the field |
| Physics.Dropped | script.js:173 | the ball's bottom edge is below the field: a life is lost |
| Physics.Advance | script.js:160-170 | position moves by the velocity without clamping; dx flips iff a side wall is crossed, dy iff the top is; the speed is kept |
| Physics.LeftWallReflects | script.js:165-167 | a ball crossing the left wall comes back moving right |
| Physics.RightWallReflects | script.js:165-167 | a ball crossing the right wall comes back moving left |
| Physics.Reset | script.js:185-190 | the ball returns to (350, 370) with velocity (s, −s), radius kept; squared speed 2·s² |
| Physics.AfterMovePaddle | script.js:201-208 | only x changes, by −speed, 0 or +speed; with no key held nothing changes; the left key alone moves left iff x > 0; the right key alone moves right iff x + width < 700; with both keys held, for x > 0 the left step is taken and the right step is tested on the moved x (so they cancel unless that moved paddle reaches the right edge), and for x ≤ 0 only the right step can fire; with positive speed a net move left needs the left key and x > 0, and a net move right needs the right key and x + width < 700 |
| Physics.PaddleStaysInBand | script.js:201-208 | once −speed < x and x + width < 700 + speed hold, they keep holding |
| Physics.PaddleHit | script.js:240-244 | the ball's bottom is past the paddle band's top and its centre strictly over the paddle, which needs a positive paddle width |
| Physics.CollidePoint | script.js:246-248 | the contact point times half the paddle width is the ball's offset from the paddle centre |
| Physics.CollidePointRange | script.js:240-248 | the normalised contact point of a paddle hit is strictly between −1 and 1, and 0 exactly at the paddle centre |
| Physics.Bounce | script.js:240-255 | a paddle hit changes only dx and dy, to speed·sin and −speed·cos of the contact angle, so the squared speed is speed²·(sin² + cos²) |
| Physics.CentreHitGoesStraightUp | script.js:246-254 | a hit at the paddle centre sends the ball straight up at the selected speed |
| Physics.FlipMagnitude | script.js:268 | flipping dy k times gives dy for even k and −dy for odd k |
| Rules.InitialState | script.js:31-65 | the initGame state: the serving ball, the centred paddle, a fresh grid for the preset, score 0, the preset's lives, not running |
| Rules.Inv | script.js:61-63 | the session invariant; it implies 0 ≤ score ≤ rows × columns, and score < rows × columns while running |
| Rules.AfterMovePaddleState | script.js:201-208 | movePaddle changes only the paddle, to AfterMovePaddle of it, and never touches the key flags |
| Rules.AfterMoveBall | script.js:160-182 | moveBall keeps paddle, grid and score; lives drop by one exactly on a drop; the session stops exactly on a drop with one life left |
| Rules.AfterCollision | script.js:238-281 | checkCollision keeps paddle, lives and the ball's position; hit flags only grow; the score never falls; the session stops exactly when the score rose and every block is hit |
| Rules.AfterTick | script.js:135-149 | a stopped frame changes nothing; lives never rise; the score never falls; hit flags only grow; a frame can only stop the session |
| Rules.PaddleBounced | script.js:240-255 | the paddle test never moves the ball |
| Rules.InitialStateValid | script.js:31-65 | the state initGame leaves satisfies the session invariant and can be started |
| Rules.BottomLoss | script.js:173-190 | a drop costs exactly one life; with none left the session stops, otherwise the ball is re-served; score, grid and paddle are kept |
| Rules.NoBottomLoss | script.js:160-170 | without a drop only the ball changes, keeping its speed |
| Rules.CollisionEffect | script.js:238-281 | the score rises by the number k of blocks struck, dy is flipped k times, exactly those blocks become hit, the session stops exactly when a hit leaves no intact block, and paddle and lives are kept |
| Rules.MoveBallKeepsInv | script.js:160-182 | moveBall keeps the session invariant |
| Rules.MovePaddleKeepsInv | script.js:201-208 | movePaddle keeps the session invariant |
| Rules.LayoutKept | script.js:269 | marking blocks hit never moves a block |
| Rules.CollisionKeepsInv | script.js:238-281 | checkCollision keeps the session invariant; in particular the score still equals the hit count |
| Rules.TickKeepsInv | script.js:135-149 | a whole frame keeps the session invariant |
| Rules.TickMonotone | script.js:135-149 | a stopped frame changes nothing; lives fall by at most one and never rise; hit flags never revert; the score never falls; no lives or no blocks means stopped, and a running session stays running exactly when it ends the frame with lives and intact blocks left |
| Rules.AtMostOneBlockPerFrame | script.js:258-270 | a frame raises the score by at most one |
| Rules.ClearingFrame | script.js:274-275 | a frame that destroys the last block stops the session with score rows × columns, and raises the score by exactly one |
| Rules.DropFrameScoresNothing | script.js:144-146 | a frame that loses a life destroys no block and still moves the paddle, so game over and clearing never coincide |
| Rules.SpeedKept | script.js:160-170 | a frame with no drop and no paddle hit keeps the ball's speed |
| Rules.LoopStep | script.js:260-276 | one visit of the block loop advances its progress by one block |
| Game.Session.constructor | script.js:31-65 | the session starts in the initGame state for the preset, satisfying the invariant |
| Game.Session.Start | script.js:129-132 | startGame sets the run flag and keeps the invariant |
| Game.Session.KeyDown | script.js:311-314 | an arrow key raises its movement flag and nothing else changes |
| Game.Session.KeyUp | script.js:316-319 | an arrow key lowers its movement flag and nothing else changes |
| Game.Session.ResetBall | script.js:185-190 | the ball becomes the re-served ball |
| Game.Session.GameOver | script.js:284-285 | the session stops |
| Game.Session.GameClear | script.js:302-303 | the session stops |
| Game.Session.MoveBall | script.js:160-182 | the new state is AfterMoveBall of the old, and the invariant holds |
| Game.Session.MovePaddle | script.js:201-208 | the new paddle is AfterMovePaddle of the old, and the invariant holds |
| Game.Session.CheckAllBlocksDestroyed | script.js:291-300 | answers true exactly when every block is hit |
| Game.Session.VisitBlock | script.js:260-277 | one visit: a struck block flips dy, is marked, scores one, and stops the session if it was the last |
| Game.Session.StrikeRow | script.js:259-279 | after one row every block of the row has been visited |
| Game.Session.StrikeBlocks | script.js:258-280 | the block loop leaves StrikeAll of the grid, score = hit count, dy flipped once per hit, and the session stopped iff a hit cleared the grid |
| Game.Session.CheckCollision | script.js:238-281 | the new state is AfterCollision of the old, and the invariant holds |
| Game.Session.Tick | script.js:135-149 | the new state is AfterTick of the old, and the invariant holds |
| Game.Countdown.constructor | script.js:75-84 | a preset button sets the ball speed and starts the count at 3 |
| Game.Countdown.Tick | script.js:99-108 | the count drops by one; at zero the timer stops and a running session in the initGame state is returned |
| Game.CountdownStartsOnThirdTick | script.js:94-110 | the first two ticks start nothing; the third starts a running session with score 0, the preset's lives and speed 3 |

## Left out

- Drawing (`drawBall`, `drawPaddle`, `drawBlocks`, every `ctx` call) is rendering only and is not modelled.
- DOM work is presentation and is not modelled. This covers element lookup, screen visibility, `updateUI`, the final-score and congratulation texts, the countdown element and the restart button.
- Scheduling is not modelled. `requestAnimationFrame` and `setInterval` become methods (`Session.Tick`, `Countdown.Tick`) that an external driver calls once per frame or once per second. Real time and interleaving are not represented.
- `Math.sin` and `Math.cos` become a parameter `trig` that maps the normalised contact point to (sin, cos) of that point times π/3. Their floating-point values are not modelled.
- Positions are exact reals, so floating-point rounding of the paddle-bounce velocity and of later positions is not represented.
- A difficulty value other than the three preset names cannot reach `initGame`. Presets are a datatype, so the script's behaviour with an unknown name (undefined paddle width, rows and columns) is not modelled. `Config.ParseDifficulty` shows that only the three button values are recognised.
- The global `blockOffsetLeft = 50` (script.js:28) is not modelled because `createBlocks` shadows it with a local and never uses it.
- The key handlers before the first `initGame` (when `paddle` is still undefined) are not modelled. `Session` exists only from `initGame` on.
- The initial values `score = 0`, `lives = 3`, `ballSpeed = 5` before any selection are not modelled, because `initGame` and the click handler overwrite them before use.
- Game.Session.constructor: sets `isRunning` to false, which `initGame` itself never assigns. The flag is always false when `initGame` runs, because the title screen is shown only at load and after `gameOver` or `gameClear`, both of which clear it.
- Game.Session.Start: requires lives left and blocks left, which always hold at its only call site (right after `initGame`). The script itself does not check this.
- Game.Session.VisitBlock, Game.Session.StrikeRow and Game.Session.StrikeBlocks: these split the single `checkCollision` loop into its body, its inner loop and its outer loop so that each part is proved separately. The script has the three together in one function.
- The model does not include the script's own identity of block objects. `block.isHit = true` mutates a shared object, while the model writes a new grid value into the `blocks` field. No other reference to a block exists in the script, so no other observable effect is lost.
