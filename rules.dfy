/**
 * The per-frame update of a session as functions on a snapshot of its state,
 * and the invariants every update keeps.
 */
module Rules {
  import opened Config
  import opened Grid
  import opened Physics

  /** Everything one frame reads and writes. */
  datatype State = State(ball: Ball, paddle: Paddle, blocks: Blocks, score: int, lives: int, isRunning: bool)

  /** The state initGame leaves behind (before startGame sets the run flag). */
  function InitialState(d: Difficulty, speed: real): (s: State)
    ensures s.ball == InitialBall(speed) && s.paddle == InitialPaddle(d)
    ensures IsFreshGrid(s.blocks, Rows(d), Columns(d))
    ensures s.score == 0 && s.lives == StartingLives(d) && !s.isRunning
  {
    State(InitialBall(speed), InitialPaddle(d), FreshGrid(Rows(d), Columns(d)), 0, StartingLives(d), false)
  }

  /**
   * Session invariant: the grid keeps its layout, the score is the number of
   * destroyed blocks, lives stay between 0 and the starting count, the paddle
   * keeps its preset and stays within one step of the field, and a running
   * session has lives left and blocks left.
   */
  ghost predicate Inv(s: State, d: Difficulty)
    ensures Inv(s, d) ==> 0 <= s.score <= Rows(d) * Columns(d)
    ensures Inv(s, d) && s.isRunning ==> s.score < Rows(d) * Columns(d)
  {
    IsLayout(s.blocks, Rows(d), Columns(d)) &&
    (HitsBound(s.blocks, Rows(d), Columns(d));
     s.score == Hits(s.blocks)) &&
    0 <= s.lives <= StartingLives(d) &&
    s.paddle.width == PaddleWidth(d) && s.paddle.height == PaddleHeight && s.paddle.speed == PaddleSpeed &&
    InBand(s.paddle) &&
    s.ball.radius == BallRadius &&
    (s.isRunning ==> s.lives > 0 && !AllHit(s.blocks))
  }

  /** A freshly initialised session satisfies the invariant and may be started. */
  lemma InitialStateValid(d: Difficulty, speed: real)
    ensures Inv(InitialState(d, speed), d)
    ensures InitialState(d, speed).lives > 0 && !AllHit(InitialState(d, speed).blocks)
  {
    FreshGridStart(Rows(d), Columns(d));
  }

  /** moveBall: advance and reflect, then on a bottom loss lose a life and either stop or re-serve. */
  function AfterMoveBall(s: State, speed: real): (t: State)
    ensures t.paddle == s.paddle && t.blocks == s.blocks && t.score == s.score
    ensures t.lives == (if Dropped(Advance(s.ball)) then s.lives - 1 else s.lives)
    ensures t.isRunning == (s.isRunning && !(Dropped(Advance(s.ball)) && s.lives <= 1))
  {
    var b := Advance(s.ball);
    if !Dropped(b) then s.(ball := b)
    else if s.lives - 1 <= 0 then s.(ball := b, lives := s.lives - 1, isRunning := false)
    else s.(ball := Reset(b, speed), lives := s.lives - 1)
  }

  /** movePaddle lifted to the whole state. */
  function AfterMovePaddleState(s: State): (t: State)
    ensures t == s.(paddle := AfterMovePaddle(s.paddle))
    ensures t.paddle.isMovingLeft == s.paddle.isMovingLeft && t.paddle.isMovingRight == s.paddle.isMovingRight
  {
    s.(paddle := AfterMovePaddle(s.paddle))
  }

  /** The ball as the block loop starts: re-angled if it is over the paddle. */
  function PaddleBounced(s: State, speed: real, trig: Trig): (b: Ball)
    ensures b.x == s.ball.x && b.y == s.ball.y && b.radius == s.ball.radius
  {
    if PaddleHit(s.ball, s.paddle) then Bounce(s.ball, s.paddle, speed, trig) else s.ball
  }

  /**
   * checkCollision: the paddle test, then every intact block containing the
   * ball centre is destroyed, each one flipping dy and scoring a point; the
   * session stops if a hit leaves no intact block.
   */
  function AfterCollision(s: State, speed: real, trig: Trig): (t: State)
    ensures t.paddle == s.paddle && t.lives == s.lives
    ensures t.ball.x == s.ball.x && t.ball.y == s.ball.y && t.ball.radius == s.ball.radius
    ensures HitsOnlyGrow(s.blocks, t.blocks) && t.score >= s.score
    ensures t.isRunning == (s.isRunning && !(t.score > s.score && AllHit(t.blocks)))
  {
    var b := PaddleBounced(s, speed, trig);
    var k := StruckCount(s.blocks, b.x, b.y);
    var g := StrikeAll(s.blocks, b.x, b.y);
    s.(ball := b.(dy := Flip(b.dy, k)), blocks := g, score := s.score + k,
       isRunning := s.isRunning && !(k > 0 && AllHit(g)))
  }

  /** gameLoop: nothing when stopped, otherwise moveBall, movePaddle, checkCollision in that order. */
  function AfterTick(s: State, speed: real, trig: Trig): (t: State)
    ensures !s.isRunning ==> t == s
    ensures t.lives <= s.lives && t.score >= s.score && HitsOnlyGrow(s.blocks, t.blocks)
    ensures t.isRunning ==> s.isRunning
  {
    if !s.isRunning then s
    else AfterCollision(AfterMovePaddleState(AfterMoveBall(s, speed)), speed, trig)
  }

  // ----- what one step does -----

  /** Bottom loss: exactly one life goes; with none left the session stops, otherwise the ball is re-served. */
  lemma BottomLoss(s: State, speed: real)
    requires Dropped(Advance(s.ball))
    ensures AfterMoveBall(s, speed).lives == s.lives - 1
    ensures AfterMoveBall(s, speed).score == s.score && AfterMoveBall(s, speed).blocks == s.blocks
    ensures AfterMoveBall(s, speed).paddle == s.paddle
    ensures s.lives - 1 <= 0 ==> !AfterMoveBall(s, speed).isRunning && AfterMoveBall(s, speed).ball == Advance(s.ball)
    ensures s.lives - 1 > 0 ==> AfterMoveBall(s, speed).isRunning == s.isRunning &&
                                AfterMoveBall(s, speed).ball == InitialBall(speed).(radius := s.ball.radius)
  {
  }

  /** Without a bottom loss only the ball changes, and its speed is kept. */
  lemma NoBottomLoss(s: State, speed: real)
    requires !Dropped(Advance(s.ball))
    ensures AfterMoveBall(s, speed) == s.(ball := Advance(s.ball))
    ensures SquaredSpeed(AfterMoveBall(s, speed).ball) == SquaredSpeed(s.ball)
  {
  }

  /**
   * The block loop's outcome: with k the number of intact blocks containing the
   * ball centre, the score rises by k, dy is flipped k times, exactly those
   * blocks become hit, the session stops exactly when a hit leaves no intact
   * block, and nothing else changes.
   */
  lemma {:induction false} CollisionEffect(s: State, speed: real, trig: Trig)
    ensures var t := AfterCollision(s, speed, trig);
            var b := PaddleBounced(s, speed, trig);
            var k := StruckCount(s.blocks, s.ball.x, s.ball.y);
            t.score == s.score + k &&
            t.ball == b.(dy := if k % 2 == 0 then b.dy else -b.dy) &&
            t.paddle == s.paddle && t.lives == s.lives &&
            HitsOnlyGrow(s.blocks, t.blocks) &&
            Hits(t.blocks) == Hits(s.blocks) + k &&
            t.isRunning == (s.isRunning && !(k > 0 && AllHit(t.blocks))) &&
            (forall r, c :: 0 <= r < |s.blocks| && 0 <= c < |s.blocks[r]| ==>
               (t.blocks[r][c].isHit <==> s.blocks[r][c].isHit || Contains(s.blocks[r][c], s.ball.x, s.ball.y)))
  {
    var b := PaddleBounced(s, speed, trig);
    FlipMagnitude(b.dy, StruckCount(s.blocks, b.x, b.y));
    HitsStrikeAll(s.blocks, b.x, b.y);
  }

  // ----- invariant preservation -----

  lemma MoveBallKeepsInv(s: State, d: Difficulty, speed: real)
    requires Inv(s, d) && s.isRunning
    ensures Inv(AfterMoveBall(s, speed), d)
  {
  }

  lemma MovePaddleKeepsInv(s: State, d: Difficulty)
    requires Inv(s, d)
    ensures Inv(AfterMovePaddleState(s), d)
  {
    PaddleStaysInBand(s.paddle);
  }

  /** A layout grid whose flags only grew still has the layout. */
  lemma LayoutKept(g: Blocks, g': Blocks, rows: nat, columns: nat)
    requires IsLayout(g, rows, columns) && HitsOnlyGrow(g, g')
    ensures IsLayout(g', rows, columns)
  {
    forall r, c | 0 <= r < |g'| && 0 <= c < |g'[r]|
      ensures g'[r][c].x == BlockX(c, columns) && g'[r][c].y == BlockY(r)
    {
      assert g[r][c].x == BlockX(c, columns) && g[r][c].y == BlockY(r);
    }
  }

  lemma CollisionKeepsInv(s: State, d: Difficulty, speed: real, trig: Trig)
    requires Inv(s, d)
    ensures Inv(AfterCollision(s, speed, trig), d)
  {
    var t := AfterCollision(s, speed, trig);
    var b := PaddleBounced(s, speed, trig);
    var k := StruckCount(s.blocks, b.x, b.y);
    HitsStrikeAll(s.blocks, b.x, b.y);
    LayoutKept(s.blocks, t.blocks, Rows(d), Columns(d));
    if k == 0 {
      StruckCountZero(s.blocks, b.x, b.y);
    }
  }

  /** Every frame keeps the session invariant. */
  lemma TickKeepsInv(s: State, d: Difficulty, speed: real, trig: Trig)
    requires Inv(s, d)
    ensures Inv(AfterTick(s, speed, trig), d)
  {
    if s.isRunning {
      MoveBallKeepsInv(s, d, speed);
      var s1 := AfterMoveBall(s, speed);
      MovePaddleKeepsInv(s1, d);
      CollisionKeepsInv(AfterMovePaddleState(s1), d, speed, trig);
    }
  }

  // ----- properties of a whole frame -----

  /**
   * Within a session: a stopped session does not change, lives never rise and
   * fall by at most one per frame, destroyed blocks stay destroyed, the score
   * never falls, and a running session stops in a frame exactly when it ends
   * with no lives or no intact blocks left.
   */
  lemma {:induction false} TickMonotone(s: State, d: Difficulty, speed: real, trig: Trig)
    requires Inv(s, d)
    ensures var t := AfterTick(s, speed, trig);
            (!s.isRunning ==> t == s) &&
            s.lives - 1 <= t.lives <= s.lives &&
            HitsOnlyGrow(s.blocks, t.blocks) &&
            t.score >= s.score &&
            t.score == Hits(t.blocks) &&
            (t.lives <= 0 || AllHit(t.blocks) ==> !t.isRunning) &&
            (s.isRunning ==> (t.isRunning <==> t.lives > 0 && !AllHit(t.blocks)))
  {
    TickKeepsInv(s, d, speed, trig);
    if s.isRunning {
      var s2 := AfterMovePaddleState(AfterMoveBall(s, speed));
      CollisionEffect(s2, speed, trig);
    }
  }

  /** Blocks of the layout do not overlap, so a frame destroys at most one block and scores at most one point. */
  lemma AtMostOneBlockPerFrame(s: State, d: Difficulty, speed: real, trig: Trig)
    requires Inv(s, d)
    ensures AfterTick(s, speed, trig).score <= s.score + 1
  {
    if s.isRunning {
      var s2 := AfterMovePaddleState(AfterMoveBall(s, speed));
      var b := PaddleBounced(s2, speed, trig);
      LayoutStrikesAtMostOne(s2.blocks, Rows(d), Columns(d), b.x, b.y);
    }
  }

  /**
   * A frame that destroys the last block stops the session with one point per
   * block, and that frame scores exactly one point.
   */
  lemma ClearingFrame(s: State, d: Difficulty, speed: real, trig: Trig)
    requires Inv(s, d) && s.isRunning
    requires AllHit(AfterTick(s, speed, trig).blocks)
    ensures !AfterTick(s, speed, trig).isRunning
    ensures AfterTick(s, speed, trig).score == Rows(d) * Columns(d)
    ensures AfterTick(s, speed, trig).score == s.score + 1
  {
    var t := AfterTick(s, speed, trig);
    TickKeepsInv(s, d, speed, trig);
    HitsBound(t.blocks, Rows(d), Columns(d));
    AtMostOneBlockPerFrame(s, d, speed, trig);
  }

  /**
   * A frame that loses a life never destroys a block: the ball centre is then
   * either below the field or back at the serving point, both under the grid.
   * So game over and clearing never happen in the same frame; the paddle still
   * moves in that frame, since the frame does not stop after moveBall.
   */
  lemma DropFrameScoresNothing(s: State, d: Difficulty, speed: real, trig: Trig)
    requires Inv(s, d) && s.isRunning
    requires Dropped(Advance(s.ball))
    ensures AfterTick(s, speed, trig).blocks == s.blocks
    ensures AfterTick(s, speed, trig).score == s.score
    ensures AfterTick(s, speed, trig).lives == s.lives - 1
    ensures AfterTick(s, speed, trig).paddle == AfterMovePaddle(s.paddle)
    ensures !AllHit(AfterTick(s, speed, trig).blocks)
  {
    var s2 := AfterMovePaddleState(AfterMoveBall(s, speed));
    assert BlockY(Rows(d)) <= 260.0;
    StruckBelowGrid(s.blocks, Rows(d), Columns(d), s2.ball.x, s2.ball.y);
  }

  /**
   * Without a bottom loss and a paddle bounce, a frame keeps the ball's speed:
   * wall reflections and block hits only flip signs.
   */
  lemma SpeedKept(s: State, speed: real, trig: Trig)
    requires s.isRunning
    requires !Dropped(Advance(s.ball))
    requires !PaddleHit(Advance(s.ball), AfterMovePaddle(s.paddle))
    ensures SquaredSpeed(AfterTick(s, speed, trig).ball) == SquaredSpeed(s.ball)
  {
    var s2 := AfterMovePaddleState(AfterMoveBall(s, speed));
    CollisionEffect(s2, speed, trig);
  }

  // ----- the block loop of checkCollision, one block at a time -----

  /**
   * The loop has visited every block before row r, column c of the grid g0 it
   * started from (with the ball as b0, the score as score0 and the run flag as
   * running0), and the current values are blocks, score, ball and running.
   */
  ghost predicate LoopProgress(g0: Blocks, b0: Ball, score0: int, running0: bool, r: nat, c: nat,
                               blocks: Blocks, score: int, ball: Ball, running: bool)
  {
    blocks == PartlyStruck(g0, r, c, b0.x, b0.y) &&
    score == Hits(blocks) && score >= score0 &&
    ball == b0.(dy := Flip(b0.dy, score - score0)) &&
    running == (running0 && !(score > score0 && AllHit(blocks)))
  }

  /**
   * The effect of the loop body on the block at (r, c): if the ball strikes it,
   * dy flips, the block is marked, the score rises by one, and the session stops
   * if no intact block is left; otherwise nothing changes.
   */
  ghost predicate VisitEffect(r: nat, c: nat, blocks: Blocks, score: int, ball: Ball, running: bool,
                              blocks': Blocks, score': int, ball': Ball, running': bool)
    requires r < |blocks| && c < |blocks[r]|
  {
    if Struck(blocks[r][c], ball.x, ball.y) then
      blocks' == blocks[r := blocks[r][c := blocks[r][c].(isHit := true)]] &&
      score' == score + 1 && ball' == ball.(dy := -ball.dy) && running' == (running && !AllHit(blocks'))
    else
      blocks' == blocks && score' == score && ball' == ball && running' == running
  }

  /** One loop iteration moves the progress from column c to column c + 1. */
  lemma LoopStep(g0: Blocks, b0: Ball, score0: int, running0: bool, r: nat, c: nat,
                 blocks: Blocks, score: int, ball: Ball, running: bool,
                 blocks': Blocks, score': int, ball': Ball, running': bool)
    requires r < |g0| && c < |g0[r]|
    requires LoopProgress(g0, b0, score0, running0, r, c, blocks, score, ball, running)
    requires VisitEffect(r, c, blocks, score, ball, running, blocks', score', ball', running')
    ensures LoopProgress(g0, b0, score0, running0, r, c + 1, blocks', score', ball', running')
  {
    PartlyStruckStep(g0, r, c, b0.x, b0.y);
    if Struck(blocks[r][c], ball.x, ball.y) {
      HitsMark(blocks, r, c);
      var k: nat := score - score0;
      assert Flip(b0.dy, k + 1) == -Flip(b0.dy, k);
    }
  }
}
