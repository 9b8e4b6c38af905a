/** Fixed constants of the play field and the three difficulty presets. */
module Config {

  datatype Option<T> = None | Some(value: T)

  /** The three presets offered on the title screen. */
  datatype Difficulty = Easy | Normal | Hard

  // The canvas is 700 x 400.
  const CanvasWidth: real := 700.0
  const CanvasHeight: real := 400.0

  // Block geometry shared by every block.
  const BlockWidth: real := 80.0
  const BlockHeight: real := 20.0
  const BlockPadding: real := 10.0
  const BlockOffsetTop: real := 50.0

  // Paddle and ball constants set by initGame.
  const PaddleHeight: real := 10.0
  const PaddleSpeed: real := 7.0
  const BallRadius: real := 10.0

  /** The `data-difficulty` value carried by each title-screen button. */
  function Name(d: Difficulty): string
  {
    match d
    case Easy => "easy"
    case Normal => "normal"
    case Hard => "hard"
  }

  /** The chain of `===` comparisons: a string names a preset or none. */
  function ParseDifficulty(s: string): (r: Option<Difficulty>)
    ensures r.Some? ==> Name(r.value) == s
  {
    if s == "easy" then Some(Easy)
    else if s == "normal" then Some(Normal)
    else if s == "hard" then Some(Hard)
    else None
  }

  /** Ball speed chosen by the click handler: the same value in all three branches. */
  function SelectedBallSpeed(d: Difficulty): (speed: real)
    ensures speed == 3.0
  {
    match d
    case Easy => 3.0
    case Normal => 3.0
    case Hard => 3.0
  }

  /** Paddle width chosen by initGame. */
  function PaddleWidth(d: Difficulty): (w: real)
    ensures 0.0 < w < CanvasWidth
  {
    match d
    case Easy => 120.0
    case Normal => 100.0
    case Hard => 80.0
  }

  /** Lives granted by initGame. */
  function StartingLives(d: Difficulty): (n: int)
    ensures n >= 1
  {
    match d
    case Easy => 5
    case Normal => 3
    case Hard => 1
  }

  /** Number of block rows chosen by createBlocks. */
  function Rows(d: Difficulty): (n: nat)
    ensures 1 <= n <= 7
  {
    match d
    case Easy => 3
    case Normal => 5
    case Hard => 7
  }

  /** Number of block columns chosen by createBlocks. */
  function Columns(d: Difficulty): (n: nat)
    ensures n >= 1
  {
    match d
    case Easy => 5
    case Normal => 8
    case Hard => 10
  }

  /** Every button value is recognised, and only those three strings are. */
  lemma ParseName(d: Difficulty, s: string)
    ensures ParseDifficulty(Name(d)) == Some(d)
    ensures ParseDifficulty(s) == None <==> s !in {"easy", "normal", "hard"}
  {
  }

  /** The whole difficulty table in one place. */
  lemma DifficultyTable()
    ensures PaddleWidth(Easy) == 120.0 && StartingLives(Easy) == 5 && Rows(Easy) == 3 && Columns(Easy) == 5
    ensures PaddleWidth(Normal) == 100.0 && StartingLives(Normal) == 3 && Rows(Normal) == 5 && Columns(Normal) == 8
    ensures PaddleWidth(Hard) == 80.0 && StartingLives(Hard) == 1 && Rows(Hard) == 7 && Columns(Hard) == 10
    ensures forall d: Difficulty :: SelectedBallSpeed(d) == 3.0
  {
  }
}
