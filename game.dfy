/**
 * The running game: the session state the script keeps in globals, updated in
 * place one frame at a time, and the countdown that starts a session.
 */
module Game {
  import opened Config
  import opened Grid
  import opened Physics
  import opened Rules

  /** One play-through, from initGame until the session stops. */
  class Session {
    var ball: Ball
    var paddle: Paddle
    var blocks: Blocks
    var score: int
    var lives: int
    var isRunning: bool
    /** The global ball speed, set on the title screen and read by initGame and resetBall. */
    const ballSpeed: real
    /** The preset the session was initialised with; the script does not keep it. */
    ghost const difficulty: Difficulty

    function Snapshot(): State
      reads this
    {
      State(ball, paddle, blocks, score, lives, isRunning)
    }

    ghost predicate Valid()
      reads this
    {
      Inv(Snapshot(), difficulty)
    }

    /** initGame: a fresh ball, paddle and grid for the preset, score 0, the preset's lives. */
    constructor (d: Difficulty, speed: real)
      ensures difficulty == d && ballSpeed == speed
      ensures Snapshot() == InitialState(d, speed)
      ensures Valid()
    {
      difficulty := d;
      ballSpeed := speed;
      ball := Ball(CanvasWidth / 2.0, CanvasHeight - 30.0, BallRadius, speed, -speed);
      var paddleWidth := PaddleWidth(d);
      lives := StartingLives(d);
      paddle := Paddle(paddleWidth, PaddleHeight, (CanvasWidth - paddleWidth) / 2.0, PaddleSpeed, false, false);
      score := 0;
      var grid := CreateBlocks(d);
      blocks := grid;
      isRunning := false;
      new;
      FreshGridUnique(blocks, Rows(d), Columns(d));
      InitialStateValid(d, speed);
    }

    /** startGame: set the run flag; the frame driver then calls Tick once per frame. */
    method Start()
      requires Valid() && lives > 0 && !AllHit(blocks)
      modifies this`isRunning
      ensures isRunning
      ensures Valid()
    {
      isRunning := true;
    }

    /** keydown: an arrow key raises its movement flag. */
    method KeyDown(key: string)
      requires Valid()
      modifies this`paddle
      ensures paddle == old(paddle).(isMovingLeft := old(paddle).isMovingLeft || key == "ArrowLeft",
                                     isMovingRight := old(paddle).isMovingRight || key == "ArrowRight")
      ensures Valid()
    {
      if key == "ArrowLeft" {
        paddle := paddle.(isMovingLeft := true);
      }
      if key == "ArrowRight" {
        paddle := paddle.(isMovingRight := true);
      }
    }

    /** keyup: an arrow key lowers its movement flag. */
    method KeyUp(key: string)
      requires Valid()
      modifies this`paddle
      ensures paddle == old(paddle).(isMovingLeft := old(paddle).isMovingLeft && key != "ArrowLeft",
                                     isMovingRight := old(paddle).isMovingRight && key != "ArrowRight")
      ensures Valid()
    {
      if key == "ArrowLeft" {
        paddle := paddle.(isMovingLeft := false);
      }
      if key == "ArrowRight" {
        paddle := paddle.(isMovingRight := false);
      }
    }

    /** resetBall: serve again from the starting point. */
    method ResetBall()
      modifies this`ball
      ensures ball == Reset(old(ball), ballSpeed)
    {
      ball := ball.(x := CanvasWidth / 2.0, y := CanvasHeight - 30.0, dx := ballSpeed, dy := -ballSpeed);
    }

    /** gameOver: stop the frame driver. */
    method GameOver()
      modifies this`isRunning
      ensures !isRunning
    {
      isRunning := false;
    }

    /** gameClear: stop the frame driver. */
    method GameClear()
      modifies this`isRunning
      ensures !isRunning
    {
      isRunning := false;
    }

    /** moveBall: advance, reflect off the side and top walls, and handle a bottom loss. */
    method MoveBall()
      requires Valid() && isRunning
      modifies this
      ensures Snapshot() == AfterMoveBall(old(Snapshot()), ballSpeed)
      ensures Valid()
    {
      ball := ball.(x := ball.x + ball.dx, y := ball.y + ball.dy);
      if ball.x + ball.radius > CanvasWidth || ball.x - ball.radius < 0.0 {
        ball := ball.(dx := -ball.dx);
      }
      if ball.y - ball.radius < 0.0 {
        ball := ball.(dy := -ball.dy);
      }
      if ball.y + ball.radius > CanvasHeight {
        lives := lives - 1;
        if lives <= 0 {
          GameOver();
        } else {
          ResetBall();
        }
      }
      MoveBallKeepsInv(old(Snapshot()), difficulty, ballSpeed);
    }

    /** movePaddle: the left step, then the right step tested against the updated x. */
    method MovePaddle()
      requires Valid()
      modifies this`paddle
      ensures paddle == AfterMovePaddle(old(paddle))
      ensures Valid()
    {
      if paddle.isMovingLeft && paddle.x > 0.0 {
        paddle := paddle.(x := paddle.x - paddle.speed);
      }
      if paddle.isMovingRight && paddle.x + paddle.width < CanvasWidth {
        paddle := paddle.(x := paddle.x + paddle.speed);
      }
      MovePaddleKeepsInv(old(Snapshot()), difficulty);
    }

    /** checkAllBlocksDestroyed: scan rows then columns, answering false at the first intact block. */
    method CheckAllBlocksDestroyed() returns (allHit: bool)
      ensures allHit == AllHit(blocks)
    {
      var r := 0;
      while r < |blocks|
        invariant 0 <= r <= |blocks|
        invariant forall i, j :: 0 <= i < r && 0 <= j < |blocks[i]| ==> blocks[i][j].isHit
      {
        var c := 0;
        while c < |blocks[r]|
          invariant 0 <= c <= |blocks[r]|
          invariant forall j :: 0 <= j < c ==> blocks[r][j].isHit
        {
          if !blocks[r][c].isHit {
            return false;
          }
          c := c + 1;
        }
        r := r + 1;
      }
      return true;
    }

    /** The block loop's body for the block at row r, column c. */
    method VisitBlock(r: nat, c: nat)
      requires r < |blocks| && c < |blocks[r]|
      modifies this`ball, this`blocks, this`score, this`isRunning
      ensures VisitEffect(r, c, old(blocks), old(score), old(ball), old(isRunning), blocks, score, ball, isRunning)
    {
      var block := blocks[r][c];
      if !block.isHit {
        if ball.x > block.x && ball.x < block.x + BlockWidth && ball.y > block.y && ball.y < block.y + BlockHeight {
          ball := ball.(dy := -ball.dy);
          blocks := blocks[r := blocks[r][c := block.(isHit := true)]];
          score := score + 1;
          var allHit := CheckAllBlocksDestroyed();
          if allHit {
            GameClear();
          }
        }
      }
    }

    ghost predicate Progress(g0: Blocks, b0: Ball, score0: int, running0: bool, r: nat, c: nat)
      reads this
    {
      LoopProgress(g0, b0, score0, running0, r, c, blocks, score, ball, isRunning)
    }

    /** The inner loop of the block loop: every column of row r. */
    method StrikeRow(r: nat, ghost g0: Blocks, ghost b0: Ball, ghost score0: int, ghost running0: bool)
      requires r < |g0| && Progress(g0, b0, score0, running0, r, 0)
      modifies this`ball, this`blocks, this`score, this`isRunning
      ensures Progress(g0, b0, score0, running0, r, |g0[r]|)
    {
      var c := 0;
      while c < |blocks[r]|
        invariant 0 <= c <= |g0[r]|
        invariant Progress(g0, b0, score0, running0, r, c)
      {
        ghost var blocks1, score1, ball1, running1 := blocks, score, ball, isRunning;
        VisitBlock(r, c);
        LoopStep(g0, b0, score0, running0, r, c, blocks1, score1, ball1, running1, blocks, score, ball, isRunning);
        c := c + 1;
      }
    }

    /**
     * The block half of checkCollision: visit every block in row-major order;
     * each intact block containing the ball centre flips dy, is marked hit and
     * scores a point, and the session stops if that left no intact block. The
     * loop never exits early.
     */
    method StrikeBlocks()
      requires score == Hits(blocks)
      modifies this`ball, this`blocks, this`score, this`isRunning
      ensures blocks == StrikeAll(old(blocks), old(ball.x), old(ball.y))
      ensures score == Hits(blocks) && score >= old(score)
      ensures ball == old(ball).(dy := Flip(old(ball.dy), score - old(score)))
      ensures isRunning == (old(isRunning) && !(score > old(score) && AllHit(blocks)))
    {
      ghost var b0, g0, score0, running0 := ball, blocks, score, isRunning;
      PartlyStruckBounds(g0, 0, b0.x, b0.y);
      var r := 0;
      while r < |blocks|
        invariant 0 <= r <= |g0|
        invariant Progress(g0, b0, score0, running0, r, 0)
      {
        StrikeRow(r, g0, b0, score0, running0);
        PartlyStruckBounds(g0, r, b0.x, b0.y);
        r := r + 1;
      }
      PartlyStruckBounds(g0, r, b0.x, b0.y);
    }

    /** checkCollision: re-angle the ball if it is over the paddle, then the block loop. */
    method CheckCollision(trig: Trig)
      requires Valid()
      modifies this
      ensures Snapshot() == AfterCollision(old(Snapshot()), ballSpeed, trig)
      ensures Valid()
    {
      if ball.y + ball.radius > CanvasHeight - paddle.height - 10.0 && ball.x > paddle.x && ball.x < paddle.x + paddle.width {
        var collidePoint := ball.x - (paddle.x + paddle.width / 2.0);
        collidePoint := collidePoint / (paddle.width / 2.0);
        var (sin, cos) := trig(collidePoint);
        ball := ball.(dx := ballSpeed * sin, dy := -ballSpeed * cos);
      }
      ghost var s0 := old(Snapshot());
      ghost var b0 := ball;
      assert b0 == PaddleBounced(s0, ballSpeed, trig);
      StrikeBlocks();
      HitsStrikeAll(s0.blocks, b0.x, b0.y);
      CollisionKeepsInv(s0, difficulty, ballSpeed, trig);
    }

    /** gameLoop: a stopped session is left alone; otherwise move the ball, move the paddle, resolve collisions. */
    method Tick(trig: Trig)
      requires Valid()
      modifies this
      ensures Snapshot() == AfterTick(old(Snapshot()), ballSpeed, trig)
      ensures Valid()
    {
      if !isRunning {
        return;
      }
      MoveBall();
      MovePaddle();
      CheckCollision(trig);
    }
  }

  /** startCountdown: a once-per-second timer counting 3, 2, 1 and then starting the session. */
  class Countdown {
    var count: int
    /** The interval is still scheduled (not yet cleared). */
    var active: bool
    const difficulty: Difficulty
    const ballSpeed: real

    /** A difficulty button: set the ball speed for the preset, then start counting from 3. */
    constructor (d: Difficulty)
      ensures difficulty == d && ballSpeed == SelectedBallSpeed(d)
      ensures count == 3 && active
    {
      difficulty := d;
      ballSpeed := SelectedBallSpeed(d);
      count := 3;
      active := true;
    }

    /** One timer tick: count down; on reaching 0 clear the timer, initGame and startGame. */
    method Tick() returns (session: Session?)
      requires active
      modifies this
      ensures count == old(count) - 1 && active == (count > 0)
      ensures count > 0 ==> session == null
      ensures count <= 0 ==> session != null && fresh(session) && session.Valid() &&
                             session.difficulty == difficulty && session.ballSpeed == ballSpeed &&
                             session.Snapshot() == InitialState(difficulty, ballSpeed).(isRunning := true)
    {
      count := count - 1;
      if count > 0 {
        session := null;
      } else {
        active := false;
        session := new Session(difficulty, ballSpeed);
        session.Start();
      }
    }
  }

  /** The countdown starts nothing on its first two ticks and a running session on the third. */
  method CountdownStartsOnThirdTick(d: Difficulty) returns (first: Session?, second: Session?, third: Session?)
    ensures first == null && second == null
    ensures third != null && third.isRunning && third.score == 0 && third.lives == StartingLives(d)
    ensures third != null ==> third.ballSpeed == 3.0 && third.Valid()
  {
    var countdown := new Countdown(d);
    first := countdown.Tick();
    second := countdown.Tick();
    third := countdown.Tick();
  }
}
