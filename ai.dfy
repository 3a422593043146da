/** The right team's controller: where the ball will cross a row's line,
 *  and which way each row steps to meet it. */
module Ai {
  import opened Geometry
  import opened Rows

  /** Vertical speed of an AI row (`ai_speed`). */
  const AiSpeed := 2.0

  datatype Dir = Up | Down | Stay

  /** The ball's y where its straight-line path reaches x = rowX (the
   *  `stball_y` and `dfball_y` expressions); a ball with no horizontal
   *  velocity is predicted to stay at its own y. */
  function PredictY(rowX: real, ball: Vec, vel: Vec): real {
    if vel.x == 0.0 then ball.y else (rowX - ball.x) * vel.y / vel.x + ball.y
  }

  /** The predicted point lies on the ball's line of motion: its offset
   *  from the ball is parallel to the velocity. */
  lemma PredictYOnPath(rowX: real, ball: Vec, vel: Vec)
    ensures vel.x == 0.0 ==> PredictY(rowX, ball, vel) == ball.y
    ensures vel.x != 0.0 ==> (PredictY(rowX, ball, vel) - ball.y) * vel.x == (rowX - ball.x) * vel.y
  {
    if vel.x != 0.0 {
      var y := PredictY(rowX, ball, vel);
      assert y - ball.y == (rowX - ball.x) * vel.y / vel.x;
    }
  }

  /** The direction a two-paddle row steps towards target: up when the
   *  target is above the top paddle, down when it is below the bottom one,
   *  and, when it falls in the open gap between the paddles' faces, down
   *  for a target in the upper half and up otherwise. */
  function StrikerDir(top: real, bottom: real, target: real): Dir {
    if top < target then Up
    else if bottom > target then Down
    else if target < top - PaddleRadius.y && target > bottom + PaddleRadius.y then
      (if target > 0.0 then Down else Up)
    else Stay
  }

  /** A row follows the target and holds still only when the target lies
   *  between its outer paddles; a target in the open gap moves the row so
   *  that a paddle covers it. */
  lemma StrikerDirTracks(top: real, bottom: real, target: real)
    ensures top < target ==> StrikerDir(top, bottom, target) == Up
    ensures target <= top && target < bottom ==> StrikerDir(top, bottom, target) == Down
    ensures StrikerDir(top, bottom, target) == Stay ==> bottom <= target <= top
    ensures bottom + PaddleRadius.y < target < top - PaddleRadius.y ==>
      StrikerDir(top, bottom, target) == (if target > 0.0 then Down else Up)
  {
  }

  /** The same rule for a three-paddle row, where probe is the y tested
   *  against the two gaps (the prediction, or the ball's own y in the
   *  zone behind the defenders' line when the prediction is positive). */
  function DefenderDir(top: real, middle: real, bottom: real, target: real, probe: real): Dir {
    if top < target then Up
    else if bottom > target then Down
    else if InGap(top, middle, bottom, probe) then (if target > 0.0 then Down else Up)
    else Stay
  }

  lemma DefenderDirTracks(top: real, middle: real, bottom: real, target: real, probe: real)
    ensures top < target ==> DefenderDir(top, middle, bottom, target, probe) == Up
    ensures target <= top && target < bottom ==> DefenderDir(top, middle, bottom, target, probe) == Down
    ensures DefenderDir(top, middle, bottom, target, probe) == Stay <==>
      bottom <= target <= top && !InGap(top, middle, bottom, probe)
    ensures bottom <= target <= top && InGap(top, middle, bottom, probe) ==>
      DefenderDir(top, middle, bottom, target, probe) == (if target > 0.0 then Down else Up)
  {
  }

  /** probe lies in the open space between the faces of two neighbouring
   *  paddles of a three-paddle row. */
  predicate InGap(top: real, middle: real, bottom: real, probe: real) {
    (middle + PaddleRadius.y < probe < top - PaddleRadius.y) ||
    (bottom + PaddleRadius.y < probe < middle - PaddleRadius.y)
  }

  /** A row after stepping in direction d at the given per-tick speed. */
  function Steered(s: seq<Vec>, d: Dir, step: real): seq<Vec> {
    match d
    case Up => Moved(s, step)
    case Down => Moved(s, -step)
    case Stay => s
  }

  lemma SteeredKeepsFormation(s: seq<Vec>, x: real, gap: real, d: Dir, step: real)
    requires Formation(s, x, gap)
    ensures Formation(Steered(s, d, step), x, gap)
  {
    match d
    case Up => MovedKeepsFormation(s, x, gap, step);
    case Down => MovedKeepsFormation(s, x, gap, -step);
    case Stay =>
  }

  /** One branch of the controller's if-chain: move_players with +step,
   *  with -step, or no call at all. */
  method Steer(row: array<Vec>, d: Dir, step: real)
    modifies row
    ensures row[..] == Steered(old(row[..]), d, step)
  {
    match d
    case Up => MovePlayers(row, step);
    case Down => MovePlayers(row, -step);
    case Stay =>
  }
}
