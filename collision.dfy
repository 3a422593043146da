/** The pieces of ball-paddle collision resolution that compute values:
 *  the overlap of two boxes, the shot/redirect velocity (calc_ball_vel),
 *  the least-penetration bounce shared by both teams, aiming a held ball
 *  and the directions the AI redirects aim at. */
module Collision {
  import opened Geometry

  /** The tags the source gives the four rows ("ld", "ls", "rd", "rs"). */
  datatype Kind = LD | LS | RD | RS

  /** The intersection of a paddle's and the ball's bounding boxes. */
  datatype Box = Box(lo: Vec, hi: Vec)
  {
    /** The boxes do overlap (the source returns early on the negation). */
    predicate Hit() { !(lo.x > hi.x || lo.y > hi.y) }
    function Width(): real { hi.x - lo.x }
    function Height(): real { hi.y - lo.y }
  }

  /** The ball and its velocity, the part of the state a bounce rewrites. */
  datatype Motion = Motion(ball: Vec, vel: Vec)

  /** `min = max(paddle - pr, ball - br)`, `max = min(paddle + pr, ball + br)`:
   *  the boxes overlap exactly when the centres are no further apart, on
   *  each axis, than the sum of the half extents. */
  function Overlap(paddle: Vec, ball: Vec): (o: Box)
    ensures o.Hit() <==>
      Abs(ball.x - paddle.x) <= PaddleRadius.x + BallRadius.x &&
      Abs(ball.y - paddle.y) <= PaddleRadius.y + BallRadius.y
    ensures o.Hit() ==> 0.0 <= o.Width() <= 2.0 * BallRadius.x && 0.0 <= o.Height() <= 2.0 * BallRadius.y
  {
    Box(Vec(Max(paddle.x - PaddleRadius.x, ball.x - BallRadius.x), Max(paddle.y - PaddleRadius.y, ball.y - BallRadius.y)),
        Vec(Min(paddle.x + PaddleRadius.x, ball.x + BallRadius.x), Min(paddle.y + PaddleRadius.y, ball.y + BallRadius.y)))
  }

  /** sqrt is the non-negative square root on the non-negative reals. */
  ghost predicate IsSqrt(sqrt: real -> real) {
    forall t :: 0.0 <= t ==> 0.0 <= sqrt(t) && Sq(sqrt(t)) == t
  }

  /** The product of two positive reals is positive. */
  lemma ProductPositive(a: real, b: real)
    requires a > 0.0 && b > 0.0
    ensures Product(a, b) > 0.0
  {
  }

  /** Scaling by a positive factor keeps the sign. */
  lemma ScaleKeepsSign(k: real, a: real)
    requires k > 0.0
    ensures (a > 0.0 ==> k * a > 0.0) && (a < 0.0 ==> k * a < 0.0) && (a == 0.0 ==> k * a == 0.0)
  {
    if a > 0.0 {
      ProductPositive(k, a);
    } else if a < 0.0 {
      ProductPositive(k, -a);
      assert Product(k, -a) == -(k * a);
    }
  }

  /** A square is non-negative, and positive unless its root is zero. */
  lemma SquarePositive(a: real)
    ensures Sq(a) >= 0.0
    ensures a != 0.0 ==> Sq(a) > 0.0
  {
    if a > 0.0 {
      ProductPositive(a, a);
    } else if a < 0.0 {
      ProductPositive(-a, -a);
      assert Product(-a, -a) == Sq(a);
    }
  }

  /** The root of a positive number is positive. */
  lemma RootPositive(sqrt: real -> real, t: real)
    requires IsSqrt(sqrt) && t > 0.0
    ensures sqrt(t) > 0.0 && Sq(sqrt(t)) == t
  {
  }

  /** (x, y) scaled by ShotSpeed / norm, where norm is its length: a vector
   *  of length ShotSpeed parallel to (x, y) and pointing the same way. */
  function ScaleToSpeed(x: real, y: real, norm: real): (v: Vec)
    requires norm > 0.0 && Sq(norm) == Sq(x) + Sq(y)
    ensures Sq(v.x) + Sq(v.y) == Sq(ShotSpeed)
    ensures v.x * y == v.y * x
    ensures (x > 0.0 ==> v.x > 0.0) && (x < 0.0 ==> v.x < 0.0) && (x == 0.0 ==> v.x == 0.0)
    ensures (y > 0.0 ==> v.y > 0.0) && (y < 0.0 ==> v.y < 0.0) && (y == 0.0 ==> v.y == 0.0)
  {
    var k := ShotSpeed / norm;
    assert k * norm == ShotSpeed;
    assert k > 0.0;
    calc {
      Sq(k * x) + Sq(k * y);
      k * k * (Sq(x) + Sq(y));
      k * k * Sq(norm);
      Sq(k * norm);
    }
    ScaleKeepsSign(k, x);
    ScaleKeepsSign(k, y);
    Vec(k * x, k * y)
  }

  /** calc_ball_vel: the velocity of length ShotSpeed in the direction of
   *  (x, y). The source divides by the length unguarded; every call site
   *  passes a non-zero vector. */
  function CalcBallVel(sqrt: real -> real, x: real, y: real): (v: Vec)
    requires IsSqrt(sqrt)
    requires x != 0.0 || y != 0.0
    ensures Sq(v.x) + Sq(v.y) == Sq(ShotSpeed)
    ensures v.x * y == v.y * x
    ensures (x > 0.0 ==> v.x > 0.0) && (x < 0.0 ==> v.x < 0.0) && (x == 0.0 ==> v.x == 0.0)
    ensures (y > 0.0 ==> v.y > 0.0) && (y < 0.0 ==> v.y < 0.0) && (y == 0.0 ==> v.y == 0.0)
  {
    SquarePositive(x);
    SquarePositive(y);
    RootPositive(sqrt, Sq(x) + Sq(y));
    ScaleToSpeed(x, y, sqrt(Sq(x) + Sq(y)))
  }

  /** The least-penetration bounce: when the boxes overlap more horizontally
   *  than vertically the ball is put against the paddle's top or bottom
   *  face and its vertical velocity points away; otherwise it is put
   *  against the left or right face, its horizontal velocity points away
   *  and its vertical velocity is blended three quarters of the way
   *  towards the offset of the hit from the paddle's centre. */
  function Bounce(paddle: Vec, ball: Vec, vel: Vec, o: Box): (r: Motion)
    ensures o.Width() > o.Height() ==>
      Abs(r.ball.y - paddle.y) == PaddleRadius.y + BallRadius.y && r.ball.x == ball.x &&
      r.vel.x == vel.x && Abs(r.vel.y) == Abs(vel.y) &&
      (r.ball.y > paddle.y <==> ball.y > paddle.y) &&
      (r.ball.y > paddle.y ==> r.vel.y >= 0.0) && (r.ball.y < paddle.y ==> r.vel.y <= 0.0)
    ensures o.Width() <= o.Height() ==>
      Abs(r.ball.x - paddle.x) == PaddleRadius.x + BallRadius.x && r.ball.y == ball.y &&
      Abs(r.vel.x) == Abs(vel.x) &&
      (r.ball.x > paddle.x <==> ball.x > paddle.x) &&
      (r.ball.x > paddle.x ==> r.vel.x >= 0.0) && (r.ball.x < paddle.x ==> r.vel.x <= 0.0) &&
      r.vel.y == 0.25 * vel.y + 0.75 * (ball.y - paddle.y) / (PaddleRadius.y + BallRadius.y)
  {
    if o.Width() > o.Height() then
      if ball.y > paddle.y then
        Motion(ball.(y := paddle.y + PaddleRadius.y + BallRadius.y), vel.(y := Abs(vel.y)))
      else
        Motion(ball.(y := paddle.y - PaddleRadius.y - BallRadius.y), vel.(y := -Abs(vel.y)))
    else
      var b := if ball.x > paddle.x then ball.(x := paddle.x + PaddleRadius.x + BallRadius.x)
               else ball.(x := paddle.x - PaddleRadius.x - BallRadius.x);
      var vx := if ball.x > paddle.x then Abs(vel.x) else -Abs(vel.x);
      var hit := (b.y - paddle.y) / (PaddleRadius.y + BallRadius.y);
      Motion(b, Vec(vx, Mix(vel.y, hit, 0.75)))
  }

  /** Sliding a held ball along the paddle face by delta: the result is
   *  capped at the top of the court, and only there (the source clamps
   *  both directions with `min`). */
  function Aim(y: real, delta: real): (r: real)
    ensures r <= CourtRadius.y - BallRadius.y
    ensures r == y + delta || r == CourtRadius.y - BallRadius.y
    ensures y + delta <= CourtRadius.y - BallRadius.y ==> r == y + delta
  {
    Min(CourtRadius.y - BallRadius.y, y + delta)
  }

  /** The aim of a held ball while boost is held: up or down by twice the
   *  court's half height per second, `up` taking precedence. Holding
   *  either key never lifts the ball above the top of the court; a ball
   *  aimed from inside the court moves up without passing the top, and
   *  one aimed downwards is never clamped, so it can leave the court at
   *  the bottom (the walls put it back later in the same tick). */
  function AimedY(y: real, up: bool, down: bool, elapsed: real): (r: real)
    ensures !up && !down ==> r == y
    ensures up || down ==> r <= CourtRadius.y - BallRadius.y
    ensures up && elapsed >= 0.0 && y <= CourtRadius.y - BallRadius.y ==> y <= r
    ensures up && y + 2.0 * CourtRadius.y * elapsed <= CourtRadius.y - BallRadius.y ==>
      r == y + 2.0 * CourtRadius.y * elapsed
    ensures up && y + 2.0 * CourtRadius.y * elapsed > CourtRadius.y - BallRadius.y ==>
      r == CourtRadius.y - BallRadius.y
    ensures !up && down && elapsed >= 0.0 && y <= CourtRadius.y - BallRadius.y ==>
      r == y - 2.0 * CourtRadius.y * elapsed
  {
    if up then Aim(y, 2.0 * CourtRadius.y * elapsed)
    else if down then Aim(y, -2.0 * CourtRadius.y * elapsed)
    else y
  }

  /** A held ball at the bottom wall aimed down for a tenth of a second
   *  ends up below the court. */
  lemma AimDownLeavesCourt()
    ensures AimedY(-CourtRadius.y + BallRadius.y, false, true, 0.1) < -CourtRadius.y + BallRadius.y
  {
  }

  /** Free space between the two top paddles of a row, and between the
   *  court's walls and the nearest of those paddles. */
  function GapBetween(row: seq<Vec>): real requires |row| >= 2 {
    row[0].y - 2.0 * PaddleRadius.y - row[1].y
  }
  function SpaceBelow(row: seq<Vec>): real requires |row| >= 2 {
    row[1].y - (-CourtRadius.y) - PaddleRadius.y
  }
  function SpaceAbove(row: seq<Vec>): real requires |row| >= 1 {
    CourtRadius.y - row[0].y - PaddleRadius.y
  }
  function Midpoint(row: seq<Vec>): real requires |row| >= 2 {
    (row[0].y + row[1].y) / 2.0
  }

  /** The (x, y) handed to calc_ball_vel when paddle i of an unblocked
   *  defender row meets the ball: always back across the court towards the
   *  human strikers' line; the top paddle aims at the upper wall when the
   *  gap between the top two paddles is no wider than the space above them,
   *  the bottom paddle aims downwards (at 2·ball.y − cy, as written) when
   *  that gap is no wider than the space below the middle paddle, and
   *  otherwise, like the middle paddle, at the midpoint of the top two. */
  function DefenderRedirectAim(row: seq<Vec>, i: int, ball: Vec, strikersX: real): (aim: Vec)
    requires |row| >= 2 && 0 <= i < |row|
    ensures aim.x == strikersX - row[i].x
    ensures i == 0 && GapBetween(row) <= SpaceAbove(row) ==> ball.y + aim.y == CourtRadius.y
    ensures i == 2 && GapBetween(row) <= SpaceBelow(row) ==> aim.y == ball.y - CourtRadius.y
    ensures i != 0 && i != 2 ==> ball.y + aim.y == Midpoint(row)
    ensures i == 0 && GapBetween(row) > SpaceAbove(row) ==> ball.y + aim.y == Midpoint(row)
    ensures i == 2 && GapBetween(row) > SpaceBelow(row) ==> ball.y + aim.y == Midpoint(row)
  {
    var x := -(row[i].x - strikersX);
    if i == 2 then
      if GapBetween(row) <= SpaceBelow(row) then Vec(x, -CourtRadius.y + ball.y)
      else Vec(x, Midpoint(row) - ball.y)
    else if i == 0 then
      if GapBetween(row) <= SpaceAbove(row) then Vec(x, CourtRadius.y - ball.y)
      else Vec(x, Midpoint(row) - ball.y)
    else Vec(x, Midpoint(row) - ball.y)
  }

  /** The (x, y) handed to calc_ball_vel when an unblocked AI striker meets
   *  the ball: from the ball straight at the centre of the left goal. */
  function StrikerRedirectAim(ball: Vec): (aim: Vec)
    ensures ball.Plus(aim) == Vec(-CourtRadius.x, 0.0)
  {
    Vec(-(ball.x + CourtRadius.x), -ball.y)
  }
}
