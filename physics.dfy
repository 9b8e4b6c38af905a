/** Ball and paddle records and their motion rules. */
module Physics {
  import opened Config

  datatype Ball = Ball(x: real, y: real, radius: real, dx: real, dy: real)

  datatype Paddle = Paddle(width: real, height: real, x: real, speed: real, isMovingLeft: bool, isMovingRight: bool)

  /**
   * The host's trigonometry: maps the normalised contact point `p` on the paddle
   * to (sin(p * pi / 3), cos(p * pi / 3)).
   */
  type Trig = real -> (real, real)

  /** The ball initGame creates: centred, 30 above the bottom, moving up and right. */
  function InitialBall(speed: real): (b: Ball)
    ensures b.x == CanvasWidth / 2.0 && b.y == CanvasHeight - 30.0
    ensures b.radius == BallRadius && b.dx == speed && b.dy == -speed
    ensures !CrossesSide(b) && !CrossesTop(b) && !Dropped(b)
    ensures SquaredSpeed(b) == 2.0 * speed * speed
  {
    Ball(CanvasWidth / 2.0, CanvasHeight - 30.0, BallRadius, speed, -speed)
  }

  /** The paddle initGame creates: centred horizontally, not moving. */
  function InitialPaddle(d: Difficulty): (p: Paddle)
    ensures p.width == PaddleWidth(d) && p.height == PaddleHeight && p.speed == PaddleSpeed
    ensures p.x + p.width / 2.0 == CanvasWidth / 2.0
    ensures !p.isMovingLeft && !p.isMovingRight
  {
    Paddle(PaddleWidth(d), PaddleHeight, (CanvasWidth - PaddleWidth(d)) / 2.0, PaddleSpeed, false, false)
  }

  function SquaredSpeed(b: Ball): real
  {
    b.dx * b.dx + b.dy * b.dy
  }

  predicate CrossesSide(b: Ball)
  {
    b.x + b.radius > CanvasWidth || b.x - b.radius < 0.0
  }

  predicate CrossesTop(b: Ball)
  {
    b.y - b.radius < 0.0
  }

  /** The ball's bottom edge is below the field: a life is lost. */
  predicate Dropped(b: Ball)
  {
    b.y + b.radius > CanvasHeight
  }

  /**
   * First half of moveBall: advance by the velocity, then reflect off the side
   * and top walls. The position is never clamped back into the field.
   */
  function Advance(b: Ball): (r: Ball)
    ensures r.x == b.x + b.dx && r.y == b.y + b.dy && r.radius == b.radius
    ensures r.dx == (if CrossesSide(r) then -b.dx else b.dx)
    ensures r.dy == (if CrossesTop(r) then -b.dy else b.dy)
    ensures SquaredSpeed(r) == SquaredSpeed(b)
  {
    var moved := b.(x := b.x + b.dx, y := b.y + b.dy);
    var sides := if CrossesSide(moved) then moved.(dx := -moved.dx) else moved;
    if CrossesTop(sides) then sides.(dy := -sides.dy) else sides
  }

  /** resetBall: back to the serving position and velocity; the radius is kept. */
  function Reset(b: Ball, speed: real): (r: Ball)
    ensures r == InitialBall(speed).(radius := b.radius)
    ensures SquaredSpeed(r) == 2.0 * speed * speed
  {
    b.(x := CanvasWidth / 2.0, y := CanvasHeight - 30.0, dx := speed, dy := -speed)
  }

  /** A ball that moves left across the left wall comes back moving right. */
  lemma LeftWallReflects(b: Ball)
    requires b.dx < 0.0 && b.x + b.dx - b.radius < 0.0
    ensures Advance(b).dx > 0.0 && Advance(b).dx == -b.dx
  {
  }

  /** A ball that moves right across the right wall comes back moving left. */
  lemma RightWallReflects(b: Ball)
    requires b.dx > 0.0 && b.x + b.dx + b.radius > CanvasWidth
    ensures Advance(b).dx < 0.0 && Advance(b).dx == -b.dx
  {
  }

  /** movePaddle: the left step, then the right step tested on the updated x. */
  function AfterMovePaddle(p: Paddle): (q: Paddle)
    ensures q == p.(x := q.x)
    ensures q.x == p.x - p.speed || q.x == p.x || q.x == p.x + p.speed
    ensures !p.isMovingLeft && !p.isMovingRight ==> q == p
    ensures p.isMovingLeft && !p.isMovingRight ==> q.x == (if p.x > 0.0 then p.x - p.speed else p.x)
    ensures !p.isMovingLeft && p.isMovingRight ==> q.x == (if p.x + p.width < CanvasWidth then p.x + p.speed else p.x)
    ensures p.isMovingLeft && p.isMovingRight ==>
              q.x == (if p.x > 0.0 then (if p.x - p.speed + p.width < CanvasWidth then p.x else p.x - p.speed)
                      else (if p.x + p.width < CanvasWidth then p.x + p.speed else p.x))
    ensures p.speed > 0.0 && q.x < p.x ==> p.isMovingLeft && p.x > 0.0
    ensures p.speed > 0.0 && q.x > p.x ==> p.isMovingRight && p.x + p.width < CanvasWidth
  {
    var left := if p.isMovingLeft && p.x > 0.0 then p.(x := p.x - p.speed) else p;
    if left.isMovingRight && left.x + left.width < CanvasWidth then left.(x := left.x + left.speed) else left
  }

  /** The paddle is at most one step outside the field on either side. */
  predicate InBand(p: Paddle)
  {
    -p.speed < p.x && p.x + p.width < CanvasWidth + p.speed
  }

  /** Once the paddle is within one step of the field it stays there. */
  lemma PaddleStaysInBand(p: Paddle)
    requires p.speed >= 0.0 && InBand(p)
    ensures InBand(AfterMovePaddle(p))
  {
  }

  /** The ball's bottom has reached the paddle band and its centre is strictly over the paddle. */
  predicate PaddleHit(b: Ball, p: Paddle)
    ensures PaddleHit(b, p) ==> p.width > 0.0
  {
    b.y + b.radius > CanvasHeight - p.height - 10.0 &&
    b.x > p.x && b.x < p.x + p.width
  }

  /** Contact point: the ball's offset from the paddle centre, in half paddle widths. */
  function CollidePoint(b: Ball, p: Paddle): (cp: real)
    requires PaddleHit(b, p)
    ensures cp * (p.width / 2.0) == b.x - (p.x + p.width / 2.0)
  {
    (b.x - (p.x + p.width / 2.0)) / (p.width / 2.0)
  }

  /** The contact point of a paddle hit is strictly between -1 and 1, and 0 exactly at the centre. */
  lemma CollidePointRange(b: Ball, p: Paddle)
    requires PaddleHit(b, p)
    ensures -1.0 < CollidePoint(b, p) < 1.0
    ensures CollidePoint(b, p) == 0.0 <==> b.x == p.x + p.width / 2.0
  {
    var half := p.width / 2.0;
    var offset := b.x - (p.x + half);
    var cp := CollidePoint(b, p);
    assert half > 0.0;
    assert cp * half == offset;
    assert -half < offset < half;
    if cp >= 1.0 {
      assert false;
    }
    if cp <= -1.0 {
      assert false;
    }
  }

  /** The paddle re-angles the ball: only dx and dy change, to the host's sin and cos scaled by the speed. */
  function Bounce(b: Ball, p: Paddle, speed: real, trig: Trig): (r: Ball)
    requires PaddleHit(b, p)
    ensures r == b.(dx := r.dx, dy := r.dy)
    ensures r.dx == speed * trig(CollidePoint(b, p)).0 && r.dy == -speed * trig(CollidePoint(b, p)).1
    ensures SquaredSpeed(r) == speed * speed * (trig(CollidePoint(b, p)).0 * trig(CollidePoint(b, p)).0
                                              + trig(CollidePoint(b, p)).1 * trig(CollidePoint(b, p)).1)
  {
    var (s, c) := trig(CollidePoint(b, p));
    b.(dx := speed * s, dy := -speed * c)
  }

  /** A hit at the paddle centre sends the ball straight up when sin 0 = 0 and cos 0 = 1. */
  lemma CentreHitGoesStraightUp(b: Ball, p: Paddle, speed: real, trig: Trig)
    requires PaddleHit(b, p) && b.x == p.x + p.width / 2.0
    requires trig(0.0) == (0.0, 1.0)
    ensures Bounce(b, p, speed, trig).dx == 0.0 && Bounce(b, p, speed, trig).dy == -speed
  {
    CollidePointRange(b, p);
  }

  /** `v` with its sign flipped `k` times. */
  function Flip(v: real, k: nat): real
  {
    if k == 0 then v else -Flip(v, k - 1)
  }

  /** An even number of flips is no flip, an odd number one flip. */
  lemma {:induction false} FlipMagnitude(v: real, k: nat)
    ensures Flip(v, k) == (if k % 2 == 0 then v else -v)
  {
    if k > 0 {
      FlipMagnitude(v, k - 1);
    }
  }
}
