/** The ball's side of a tick as values: the integration step, one call of
 *  paddle_vs_ball or ai_vs_ball, the loops over the rows, and the wall
 *  reflection. The methods of the mode are proved equal to these. */
module Physics {
  import opened Geometry
  import opened Rows
  import opened Collision

  /** Floor of the speed multiplier, and its value after a shot or redirect. */
  const MinMultiplier := 2.5
  const BoostMultiplier := 4.0
  /** A held ball stays captured while the multiplier is at most this. */
  const HoldThreshold := 3.2

  /** The multiplier after one tick's decay by the factor decay, floored. */
  function Decayed(multiplier: real, decay: real): real {
    Max(multiplier * decay, MinMultiplier)
  }

  /** The floor holds whatever the decay, a product above the floor is
   *  kept, and a decay factor in (0, 1] never raises the multiplier. */
  lemma DecayedFloor(multiplier: real, decay: real)
    ensures Decayed(multiplier, decay) >= MinMultiplier
    ensures multiplier * decay >= MinMultiplier ==> Decayed(multiplier, decay) == multiplier * decay
    ensures 0.0 < decay <= 1.0 && multiplier >= MinMultiplier ==> Decayed(multiplier, decay) <= multiplier
  {
    if 0.0 < decay < 1.0 && multiplier >= MinMultiplier {
      ProductPositive(multiplier, 1.0 - decay);
      assert multiplier - multiplier * decay == Product(multiplier, 1.0 - decay);
    }
  }

  /** The capture test of paddle_vs_ball: a fresh capture, or a held ball
   *  whose multiplier has decayed to the threshold. */
  predicate Captures(space: int, multiplier: real) {
    space == 1 || (space == 2 && multiplier <= HoldThreshold)
  }

  /** What the collision step rewrites: the ball, its velocity, the
   *  multiplier and the left rows' unblock flags (q for the defenders, e
   *  for the strikers). */
  datatype BallState = BallState(ball: Vec, vel: Vec, multiplier: real, q: bool, e: bool)

  /** The keys paddle_vs_ball reads for one human row: the capture counter,
   *  return (shoot), shift, and the row's own aiming keys (w and s for the
   *  defenders, the arrows for the strikers). */
  datatype RowKeys = RowKeys(space: int, shoot: bool, shift: bool, up: bool, down: bool)

  /** The ball update: the multiplier decays and is floored, then the ball
   *  moves by elapsed · multiplier · velocity. */
  function Advanced(b: BallState, elapsed: real, decay: real): BallState {
    var m := Decayed(b.multiplier, decay);
    b.(ball := b.ball.Plus(b.vel.Scale(elapsed * m)), multiplier := m)
  }

  /** The ball update leaves the velocity and the flags alone and never
   *  takes the multiplier below its floor. */
  lemma AdvancedKeepsFloor(b: BallState, elapsed: real, decay: real)
    ensures Advanced(b, elapsed, decay).multiplier >= MinMultiplier
    ensures Advanced(b, elapsed, decay).vel == b.vel
    ensures Advanced(b, elapsed, decay).q == b.q && Advanced(b, elapsed, decay).e == b.e
  {
    DecayedFloor(b.multiplier, decay);
  }

  /** The return-key block of paddle_vs_ball: a shot launches the ball
   *  away from the paddle centre at ShotSpeed, sets the multiplier to 4 and
   *  makes the row block. */
  function Shot(b: BallState, paddle: Vec, kind: Kind, shoot: bool, sqrt: real -> real): BallState
    requires IsSqrt(sqrt)
  {
    if shoot then
      BallState(b.ball, CalcBallVel(sqrt, PaddleRadius.y + BallRadius.y, b.ball.y - paddle.y), BoostMultiplier,
                if kind == LD then false else b.q, if kind == LD then b.e else false)
    else b
  }

  /** The aiming blocks: a stopped ball is slid along the face while shift
   *  is held. */
  function HeldAim(b: BallState, g: RowKeys, elapsed: real): BallState {
    if b.vel == Zero && g.shift then b.(ball := b.ball.(y := AimedY(b.ball.y, g.up, g.down, elapsed))) else b
  }

  /** The end of paddle_vs_ball: an unblocked row lets the ball through, a
   *  blocking one bounces it. */
  function Blocked(b: BallState, paddle: Vec, kind: Kind, o: Box): BallState {
    if (kind == LD && b.q) || (kind != LD && b.e) then b
    else
      var r := Bounce(paddle, b.ball, b.vel, o);
      b.(ball := r.ball, vel := r.vel)
  }

  /** paddle_vs_ball for one human paddle, in the source's order: no
   *  overlap, capture, then shot, aim and block. */
  function PaddleHit(b: BallState, paddle: Vec, kind: Kind, g: RowKeys, elapsed: real, sqrt: real -> real): BallState
    requires IsSqrt(sqrt)
    requires kind == LD || kind == LS
  {
    var o := Overlap(paddle, b.ball);
    if !o.Hit() then b
    else if Captures(g.space, b.multiplier) then
      b.(ball := b.ball.(x := paddle.x + PaddleRadius.x + BallRadius.x), vel := Zero)
    else Blocked(HeldAim(Shot(b, paddle, kind, g.shoot, sqrt), g, elapsed), paddle, kind, o)
  }

  /** What one human paddle does to the ball. Without overlap nothing
   *  changes. A capture stops the ball against the paddle's right face,
   *  whether or not the row is unblocked. A shot does not return: it sets
   *  the multiplier to 4, makes the row block, and so bounces the launched
   *  ball off the paddle at once. Otherwise a stopped ball is aimed while
   *  shift is held, an unblocked row lets the ball through and a blocking
   *  one bounces it. */
  lemma PaddleHitCases(b: BallState, paddle: Vec, kind: Kind, g: RowKeys, elapsed: real, sqrt: real -> real)
    requires IsSqrt(sqrt)
    requires kind == LD || kind == LS
    ensures var r := PaddleHit(b, paddle, kind, g, elapsed, sqrt);
      r.multiplier == b.multiplier || r.multiplier == BoostMultiplier
    ensures !Overlap(paddle, b.ball).Hit() ==> PaddleHit(b, paddle, kind, g, elapsed, sqrt) == b
    ensures Overlap(paddle, b.ball).Hit() && Captures(g.space, b.multiplier) ==>
      var r := PaddleHit(b, paddle, kind, g, elapsed, sqrt);
      r.vel == Zero && r.ball == b.ball.(x := paddle.x + PaddleRadius.x + BallRadius.x) &&
      r.multiplier == b.multiplier && r.q == b.q && r.e == b.e
    ensures Overlap(paddle, b.ball).Hit() && !Captures(g.space, b.multiplier) && g.shoot ==>
      var r := PaddleHit(b, paddle, kind, g, elapsed, sqrt);
      var v := CalcBallVel(sqrt, PaddleRadius.y + BallRadius.y, b.ball.y - paddle.y);
      r.multiplier == BoostMultiplier &&
      (kind == LD ==> !r.q && r.e == b.e) && (kind == LS ==> r.q == b.q && !r.e) &&
      Motion(r.ball, r.vel) == Bounce(paddle, b.ball, v, Overlap(paddle, b.ball))
    ensures Overlap(paddle, b.ball).Hit() && !Captures(g.space, b.multiplier) && !g.shoot ==>
      var r := PaddleHit(b, paddle, kind, g, elapsed, sqrt);
      var aimed := if b.vel == Zero && g.shift then b.ball.(y := AimedY(b.ball.y, g.up, g.down, elapsed)) else b.ball;
      r.multiplier == b.multiplier && r.q == b.q && r.e == b.e &&
      if (kind == LD && b.q) || (kind == LS && b.e) then r.ball == aimed && r.vel == b.vel
      else Motion(r.ball, r.vel) == Bounce(paddle, aimed, b.vel, Overlap(paddle, b.ball))
  {
    if Overlap(paddle, b.ball).Hit() && !Captures(g.space, b.multiplier) && g.shoot {
      var v := CalcBallVel(sqrt, PaddleRadius.y + BallRadius.y, b.ball.y - paddle.y);
      assert v.x > 0.0;
    }
  }

  /** The loop over a human row: paddle_vs_ball for its first n paddles,
   *  top to bottom. */
  function HumanRowHits(b: BallState, paddles: seq<Vec>, kind: Kind, n: nat, g: RowKeys, elapsed: real, sqrt: real -> real): BallState
    requires IsSqrt(sqrt)
    requires kind == LD || kind == LS
    requires n <= |paddles|
    decreases n
  {
    if n == 0 then b
    else PaddleHit(HumanRowHits(b, paddles, kind, n - 1, g, elapsed, sqrt), paddles[n - 1], kind, g, elapsed, sqrt)
  }

  /** Across a human row the multiplier is unchanged or 4, and a ball that
   *  overlaps none of the paddles is left exactly as it was. */
  lemma {:induction false} HumanRowHitsBounds(b: BallState, paddles: seq<Vec>, kind: Kind, n: nat, g: RowKeys, elapsed: real, sqrt: real -> real)
    requires IsSqrt(sqrt)
    requires kind == LD || kind == LS
    requires n <= |paddles|
    ensures var r := HumanRowHits(b, paddles, kind, n, g, elapsed, sqrt);
      r.multiplier == b.multiplier || r.multiplier == BoostMultiplier
    ensures (forall k :: 0 <= k < n ==> !Overlap(paddles[k], b.ball).Hit()) ==>
      HumanRowHits(b, paddles, kind, n, g, elapsed, sqrt) == b
    decreases n
  {
    if n > 0 {
      HumanRowHitsBounds(b, paddles, kind, n - 1, g, elapsed, sqrt);
      PaddleHitCases(HumanRowHits(b, paddles, kind, n - 1, g, elapsed, sqrt), paddles[n - 1], kind, g, elapsed, sqrt);
    }
  }

  /** The two human loops: the defenders, then the strikers. */
  function HumanHits(b: BallState, defenders: seq<Vec>, strikers: seq<Vec>, gd: RowKeys, gs: RowKeys, elapsed: real, sqrt: real -> real): BallState
    requires IsSqrt(sqrt)
  {
    HumanRowHits(HumanRowHits(b, defenders, LD, |defenders|, gd, elapsed, sqrt), strikers, LS, |strikers|, gs, elapsed, sqrt)
  }

  lemma HumanHitsBounds(b: BallState, defenders: seq<Vec>, strikers: seq<Vec>, gd: RowKeys, gs: RowKeys, elapsed: real, sqrt: real -> real)
    requires IsSqrt(sqrt)
    ensures var r := HumanHits(b, defenders, strikers, gd, gs, elapsed, sqrt);
      r.multiplier == b.multiplier || r.multiplier == BoostMultiplier
    ensures (forall k :: 0 <= k < |defenders| ==> !Overlap(defenders[k], b.ball).Hit()) &&
            (forall k :: 0 <= k < |strikers| ==> !Overlap(strikers[k], b.ball).Hit()) ==>
      HumanHits(b, defenders, strikers, gd, gs, elapsed, sqrt) == b
  {
    var d := HumanRowHits(b, defenders, LD, |defenders|, gd, elapsed, sqrt);
    HumanRowHitsBounds(b, defenders, LD, |defenders|, gd, elapsed, sqrt);
    HumanRowHitsBounds(d, strikers, LS, |strikers|, gs, elapsed, sqrt);
  }

  /** The x of the line an AI row stands on. */
  function AiLine(kind: Kind): real {
    if kind == RD then RightDefendersX else RightStrikersX
  }

  /** ai_vs_ball for paddle i of an AI row. Without overlap nothing
   *  changes; an unblocked defender row, or any defender row meeting a ball
   *  with no horizontal velocity, redirects the ball in place (boosting
   *  the multiplier except for the middle paddle); unblocked strikers
   *  redirect it at the left goal and boost; otherwise the shared bounce. */
  function AiHit(b: BallState, paddles: seq<Vec>, i: int, kind: Kind, unblockD: bool, unblockS: bool, sqrt: real -> real): BallState
    requires IsSqrt(sqrt)
    requires kind == RD || kind == RS
    requires 2 <= |paddles| && 0 <= i < |paddles|
    requires OnLine(paddles, AiLine(kind))
  {
    var o := Overlap(paddles[i], b.ball);
    if !o.Hit() then b
    else if kind == RD && (unblockD || b.vel.x == 0.0) then
      assert paddles[i].x == RightDefendersX;
      var aim := DefenderRedirectAim(paddles, i, b.ball, LeftStrikersX);
      b.(vel := CalcBallVel(sqrt, aim.x, aim.y), multiplier := if i == 0 || i == 2 then BoostMultiplier else b.multiplier)
    else if kind == RS && unblockS then
      assert paddles[i].x == RightStrikersX;
      var aim := StrikerRedirectAim(b.ball);
      b.(vel := CalcBallVel(sqrt, aim.x, aim.y), multiplier := BoostMultiplier)
    else
      var r := Bounce(paddles[i], b.ball, b.vel, o);
      b.(ball := r.ball, vel := r.vel)
  }

  /** What one AI paddle does to the ball: the human flags are never
   *  touched, the redirect aims are never zero, the middle defender leaves
   *  the multiplier alone, and a redirect keeps the ball where it is. */
  lemma AiHitCases(b: BallState, paddles: seq<Vec>, i: int, kind: Kind, unblockD: bool, unblockS: bool, sqrt: real -> real)
    requires IsSqrt(sqrt)
    requires kind == RD || kind == RS
    requires 2 <= |paddles| && 0 <= i < |paddles|
    requires OnLine(paddles, AiLine(kind))
    ensures var r := AiHit(b, paddles, i, kind, unblockD, unblockS, sqrt);
      r.q == b.q && r.e == b.e && (r.multiplier == b.multiplier || r.multiplier == BoostMultiplier)
    ensures !Overlap(paddles[i], b.ball).Hit() ==> AiHit(b, paddles, i, kind, unblockD, unblockS, sqrt) == b
    ensures Overlap(paddles[i], b.ball).Hit() && kind == RD && (unblockD || b.vel.x == 0.0) ==>
      var r := AiHit(b, paddles, i, kind, unblockD, unblockS, sqrt);
      var aim := DefenderRedirectAim(paddles, i, b.ball, LeftStrikersX);
      aim.x != 0.0 && r.ball == b.ball && r.vel == CalcBallVel(sqrt, aim.x, aim.y) &&
      r.multiplier == (if i == 0 || i == 2 then BoostMultiplier else b.multiplier)
    ensures Overlap(paddles[i], b.ball).Hit() && kind == RS && unblockS ==>
      var r := AiHit(b, paddles, i, kind, unblockD, unblockS, sqrt);
      var aim := StrikerRedirectAim(b.ball);
      aim.x != 0.0 && r.ball == b.ball && r.vel == CalcBallVel(sqrt, aim.x, aim.y) &&
      r.multiplier == BoostMultiplier
    ensures (Overlap(paddles[i], b.ball).Hit() &&
             !(kind == RD && (unblockD || b.vel.x == 0.0)) && !(kind == RS && unblockS)) ==>
      var r := AiHit(b, paddles, i, kind, unblockD, unblockS, sqrt);
      Motion(r.ball, r.vel) == Bounce(paddles[i], b.ball, b.vel, Overlap(paddles[i], b.ball)) &&
      r.multiplier == b.multiplier
  {
    assert paddles[i].x == AiLine(kind);
  }

  /** The loop over an AI row: ai_vs_ball for indices 0 to n - 1. */
  function AiRowHits(b: BallState, paddles: seq<Vec>, kind: Kind, n: nat, unblockD: bool, unblockS: bool, sqrt: real -> real): BallState
    requires IsSqrt(sqrt)
    requires kind == RD || kind == RS
    requires 2 <= |paddles| && n <= |paddles|
    requires OnLine(paddles, AiLine(kind))
    decreases n
  {
    if n == 0 then b
    else AiHit(AiRowHits(b, paddles, kind, n - 1, unblockD, unblockS, sqrt), paddles, n - 1, kind, unblockD, unblockS, sqrt)
  }

  /** Across an AI row the human flags are unchanged, the multiplier is
   *  unchanged or 4, and a ball that overlaps none of the paddles is left
   *  exactly as it was. */
  lemma {:induction false} AiRowHitsBounds(b: BallState, paddles: seq<Vec>, kind: Kind, n: nat, unblockD: bool, unblockS: bool, sqrt: real -> real)
    requires IsSqrt(sqrt)
    requires kind == RD || kind == RS
    requires 2 <= |paddles| && n <= |paddles|
    requires OnLine(paddles, AiLine(kind))
    ensures var r := AiRowHits(b, paddles, kind, n, unblockD, unblockS, sqrt);
      r.q == b.q && r.e == b.e && (r.multiplier == b.multiplier || r.multiplier == BoostMultiplier)
    ensures (forall k :: 0 <= k < n ==> !Overlap(paddles[k], b.ball).Hit()) ==>
      AiRowHits(b, paddles, kind, n, unblockD, unblockS, sqrt) == b
    decreases n
  {
    if n > 0 {
      AiRowHitsBounds(b, paddles, kind, n - 1, unblockD, unblockS, sqrt);
      AiHitCases(AiRowHits(b, paddles, kind, n - 1, unblockD, unblockS, sqrt), paddles, n - 1, kind, unblockD, unblockS, sqrt);
    }
  }

  /** The two AI loops: the defenders, then the strikers. */
  function AiHits(b: BallState, defenders: seq<Vec>, strikers: seq<Vec>, unblockD: bool, unblockS: bool, sqrt: real -> real): BallState
    requires IsSqrt(sqrt)
    requires 2 <= |defenders| && OnLine(defenders, RightDefendersX)
    requires 2 <= |strikers| && OnLine(strikers, RightStrikersX)
  {
    AiRowHits(AiRowHits(b, defenders, RD, |defenders|, unblockD, unblockS, sqrt), strikers, RS, |strikers|, unblockD, unblockS, sqrt)
  }

  lemma AiHitsBounds(b: BallState, defenders: seq<Vec>, strikers: seq<Vec>, unblockD: bool, unblockS: bool, sqrt: real -> real)
    requires IsSqrt(sqrt)
    requires 2 <= |defenders| && OnLine(defenders, RightDefendersX)
    requires 2 <= |strikers| && OnLine(strikers, RightStrikersX)
    ensures var r := AiHits(b, defenders, strikers, unblockD, unblockS, sqrt);
      r.q == b.q && r.e == b.e && (r.multiplier == b.multiplier || r.multiplier == BoostMultiplier)
    ensures (forall k :: 0 <= k < |defenders| ==> !Overlap(defenders[k], b.ball).Hit()) &&
            (forall k :: 0 <= k < |strikers| ==> !Overlap(strikers[k], b.ball).Hit()) ==>
      AiHits(b, defenders, strikers, unblockD, unblockS, sqrt) == b
  {
    var d := AiRowHits(b, defenders, RD, |defenders|, unblockD, unblockS, sqrt);
    AiRowHitsBounds(b, defenders, RD, |defenders|, unblockD, unblockS, sqrt);
    AiRowHitsBounds(d, strikers, RS, |strikers|, unblockD, unblockS, sqrt);
  }

  /** Integration and the four collision loops of a tick, in the source's
   *  order: the human defenders, the human strikers, the AI defenders and
   *  the AI strikers. */
  function Collided(b: BallState, ld: seq<Vec>, ls: seq<Vec>, rd: seq<Vec>, rs: seq<Vec>, gd: RowKeys, gs: RowKeys,
                    unblockD: bool, unblockS: bool, elapsed: real, decay: real, sqrt: real -> real): BallState
    requires IsSqrt(sqrt)
    requires 2 <= |rd| && OnLine(rd, RightDefendersX)
    requires 2 <= |rs| && OnLine(rs, RightStrikersX)
  {
    AiHits(HumanHits(Advanced(b, elapsed, decay), ld, ls, gd, gs, elapsed, sqrt), rd, rs, unblockD, unblockS, sqrt)
  }

  /** After the collisions the multiplier is the decayed one or 4, so never
   *  below its floor; and a ball that, once advanced, overlaps no paddle
   *  has only advanced. */
  lemma CollidedBounds(b: BallState, ld: seq<Vec>, ls: seq<Vec>, rd: seq<Vec>, rs: seq<Vec>, gd: RowKeys, gs: RowKeys,
                       unblockD: bool, unblockS: bool, elapsed: real, decay: real, sqrt: real -> real)
    requires IsSqrt(sqrt)
    requires 2 <= |rd| && OnLine(rd, RightDefendersX)
    requires 2 <= |rs| && OnLine(rs, RightStrikersX)
    ensures var r := Collided(b, ld, ls, rd, rs, gd, gs, unblockD, unblockS, elapsed, decay, sqrt);
      (r.multiplier == Decayed(b.multiplier, decay) || r.multiplier == BoostMultiplier) &&
      r.multiplier >= MinMultiplier
    ensures var a := Advanced(b, elapsed, decay);
      (forall k :: 0 <= k < |ld| ==> !Overlap(ld[k], a.ball).Hit()) &&
      (forall k :: 0 <= k < |ls| ==> !Overlap(ls[k], a.ball).Hit()) &&
      (forall k :: 0 <= k < |rd| ==> !Overlap(rd[k], a.ball).Hit()) &&
      (forall k :: 0 <= k < |rs| ==> !Overlap(rs[k], a.ball).Hit()) ==>
      Collided(b, ld, ls, rd, rs, gd, gs, unblockD, unblockS, elapsed, decay, sqrt) == a
  {
    var a := Advanced(b, elapsed, decay);
    AdvancedKeepsFloor(b, elapsed, decay);
    HumanHitsBounds(a, ld, ls, gd, gs, elapsed, sqrt);
    AiHitsBounds(HumanHits(a, ld, ls, gd, gs, elapsed, sqrt), rd, rs, unblockD, unblockS, sqrt);
  }

  /** One axis of the court walls: a position beyond a wall is put back on
   *  it, and a velocity pointing further out is reversed. */
  function Bounded(p: real, lo: real, hi: real): real {
    if p > hi then hi else if p < lo then lo else p
  }

  function Rebound(p: real, v: real, lo: real, hi: real): real {
    if p > hi then (if v > 0.0 then -v else v)
    else if p < lo then (if v < 0.0 then -v else v)
    else v
  }

  /** The wall step on both axes, y first as in the source. */
  function Walls(m: Motion): Motion {
    var lx, hx := -CourtRadius.x + BallRadius.x, CourtRadius.x - BallRadius.x;
    var ly, hy := -CourtRadius.y + BallRadius.y, CourtRadius.y - BallRadius.y;
    Motion(Vec(Bounded(m.ball.x, lx, hx), Bounded(m.ball.y, ly, hy)),
           Vec(Rebound(m.ball.x, m.vel.x, lx, hx), Rebound(m.ball.y, m.vel.y, ly, hy)))
  }

  /** After the wall step the ball is inside the court, the speed on each
   *  axis is unchanged, a clamped axis points inward or is zero, and an
   *  axis already inside is untouched. */
  lemma WallsContain(m: Motion)
    ensures InCourt(Walls(m).ball)
    ensures Abs(Walls(m).vel.x) == Abs(m.vel.x) && Abs(Walls(m).vel.y) == Abs(m.vel.y)
    ensures m.ball.y > CourtRadius.y - BallRadius.y ==>
      Walls(m).ball.y == CourtRadius.y - BallRadius.y && Walls(m).vel.y <= 0.0
    ensures m.ball.y < -CourtRadius.y + BallRadius.y ==>
      Walls(m).ball.y == -CourtRadius.y + BallRadius.y && Walls(m).vel.y >= 0.0
    ensures -CourtRadius.y + BallRadius.y <= m.ball.y <= CourtRadius.y - BallRadius.y ==>
      Walls(m).ball.y == m.ball.y && Walls(m).vel.y == m.vel.y
    ensures m.ball.x > CourtRadius.x - BallRadius.x ==>
      Walls(m).ball.x == CourtRadius.x - BallRadius.x && Walls(m).vel.x <= 0.0
    ensures m.ball.x < -CourtRadius.x + BallRadius.x ==>
      Walls(m).ball.x == -CourtRadius.x + BallRadius.x && Walls(m).vel.x >= 0.0
    ensures -CourtRadius.x + BallRadius.x <= m.ball.x <= CourtRadius.x - BallRadius.x ==>
      Walls(m).ball.x == m.ball.x && Walls(m).vel.x == m.vel.x
  {
  }
}
