/** Plane vectors, the court's fixed dimensions and the scalar helpers the
 *  tick uses (glm::min, glm::max, glm::mix, std::abs). Floats are modelled
 *  as exact reals. */
module Geometry {

  /** A glm::vec2. */
  datatype Vec = Vec(x: real, y: real)
  {
    function Plus(v: Vec): Vec { Vec(x + v.x, y + v.y) }
    function Scale(k: real): Vec { Vec(k * x, k * y) }
  }

  const Zero := Vec(0.0, 0.0)

  /** Half extents of the court, of every paddle and of the ball. */
  const CourtRadius := Vec(15.0, 12.0)
  const PaddleRadius := Vec(0.3, 0.5)
  const BallRadius := Vec(0.2, 0.2)

  /** Half height of each goal mouth. */
  const NetRadius := 2.0

  /** Speed of every shot and every AI redirect (`velocity`). */
  const ShotSpeed := 3.0

  /** The band a paddle centre may occupy. */
  const PaddleTop := CourtRadius.y - PaddleRadius.y
  const PaddleBottom := -CourtRadius.y + PaddleRadius.y

  /** The fixed x of each row, as laid out by the header. */
  const LeftDefendersX := -2.0 * CourtRadius.x / 3.0
  const LeftStrikersX := CourtRadius.x / 5.0
  const RightDefendersX := 2.0 * CourtRadius.x / 3.0
  const RightStrikersX := -CourtRadius.x / 5.0

  /** Vertical distance between neighbouring paddles of a row. */
  const DefenderGap := CourtRadius.y / 4.0
  const StrikerGap := CourtRadius.y / 2.0

  /** The `uint32_t` of the score counters. */
  newtype u32 = n: int | 0 <= n < 0x1_0000_0000

  /** `x += 1` on a uint32_t: the successor, wrapping to 0 past the top. */
  function Succ(n: u32): (r: u32)
    ensures n as int < 0xFFFF_FFFF ==> r as int == n as int + 1
    ensures n as int == 0xFFFF_FFFF ==> r == 0
    ensures r != n
  {
    ((n as int + 1) % 0x1_0000_0000) as u32
  }

  function Abs(a: real): real { if a < 0.0 then -a else a }

  function Min(a: real, b: real): real { if b < a then b else a }

  function Max(a: real, b: real): real { if a < b then b else a }

  /** The square of a, and the product of a and b. */
  function Sq(a: real): real { a * a }
  function Product(a: real, b: real): real { a * b }

  /** glm::mix: linear interpolation from a towards b by t. */
  function Mix(a: real, b: real, t: real): real { a * (1.0 - t) + b * t }

  /** The ball lies wholly inside the court. */
  predicate InCourt(b: Vec) {
    -CourtRadius.x + BallRadius.x <= b.x <= CourtRadius.x - BallRadius.x &&
    -CourtRadius.y + BallRadius.y <= b.y <= CourtRadius.y - BallRadius.y
  }

  /** The ball's vertical extent lies strictly inside the goal mouth. */
  predicate InMouth(b: Vec) {
    b.y + BallRadius.y < NetRadius && b.y - BallRadius.y > -NetRadius
  }

  /** The ball is past the left edge inside the mouth: a goal for the right team. */
  predicate InLeftGoal(b: Vec) {
    b.x < -CourtRadius.x + BallRadius.x && InMouth(b)
  }

  /** The ball is past the right edge inside the mouth: a goal for the left team. */
  predicate InRightGoal(b: Vec) {
    b.x > CourtRadius.x - BallRadius.x && InMouth(b)
  }
}
