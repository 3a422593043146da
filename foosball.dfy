/** FoosballMode: the match state and the two entry points that change it,
 *  handle_event (keyboard flags) and update (one simulation tick). */
module Foosball {
  import opened Geometry
  import opened Rows
  import opened Ai
  import opened Collision
  import opened Physics
  import opened Controls

  /** Seconds of play frozen after a goal. */
  const CelebrationTime := 2.0
  /** How far a held key moves a human row in one tick: the court's half
   *  height per second, doubled while shift is held. */
  function HumanSpeed(shift: bool, elapsed: real): real {
    (if shift then 2.0 * CourtRadius.y else CourtRadius.y) * elapsed
  }

  /** Where the ball is put when a celebration ends. */
  function RespawnPoint(scored: int): Vec {
    if scored == 0 then Vec(-2.0 * CourtRadius.x / 3.0 + BallRadius.x, 0.0)
    else Vec(2.0 * CourtRadius.x / 3.0 - BallRadius.x, 0.0)
  }

  /** The countdown is running and outlasts this tick. */
  predicate Frozen(celebration: real, elapsed: real) {
    celebration > 0.0 && celebration - elapsed > 0.0
  }

  /** Every field of the mode, as a value. */
  datatype State = State(
    leftDefenders: seq<Vec>, leftStrikers: seq<Vec>, rightDefenders: seq<Vec>, rightStrikers: seq<Vec>,
    ball: Vec, ballVelocity: Vec, leftScore: u32, rightScore: u32, celebration: real,
    aiOffset: real, aiOffsetUpdate: real,
    wPressed: bool, sPressed: bool, spacePressed: int, shiftPressed: bool, qPressed: bool, ePressed: bool,
    upPressed: bool, downPressed: bool, returnPressed: bool, autosPressed: bool, autodPressed: bool,
    unblockRightStrikers: bool, unblockRightDefenders: bool, speedMultiplier: real, scored: int)

  /** The field initialisers of the header. */
  function InitialState(): State {
    State(
      [Vec(LeftDefendersX, CourtRadius.y / 4.0), Vec(LeftDefendersX, 0.0), Vec(LeftDefendersX, -CourtRadius.y / 4.0)],
      [Vec(LeftStrikersX, CourtRadius.y / 4.0), Vec(LeftStrikersX, -CourtRadius.y / 4.0)],
      [Vec(RightDefendersX, CourtRadius.y / 4.0), Vec(RightDefendersX, 0.0), Vec(RightDefendersX, -CourtRadius.y / 4.0)],
      [Vec(RightStrikersX, CourtRadius.y / 4.0), Vec(RightStrikersX, -CourtRadius.y / 4.0)],
      Vec(-2.0 * CourtRadius.x / 3.0 + BallRadius.x, 0.0), Zero, 0, 0, 0.0,
      0.0, 0.0,
      false, false, 0, false, true, true,
      false, false, false, false, true,
      false, false, 5.0, 0)
  }

  /** A tick leaves the scores alone, or records exactly one goal: one
   *  counter goes up by one, play freezes for the celebration, the ball
   *  stops and the scoring side is remembered. */
  predicate ScoreStep(left0: u32, right0: u32, left: u32, right: u32, scored: int, celebration: real, vel: Vec) {
    (left == left0 && right == right0) ||
    (left == left0 && right == Succ(right0) && scored == 1 && celebration == CelebrationTime && vel == Zero) ||
    (right == right0 && left == Succ(left0) && scored == 0 && celebration == CelebrationTime && vel == Zero)
  }

  /** At most one score rises in a tick, by one, and scored names the side
   *  whose counter rose. */
  lemma ScoreStepOneGoal(left0: u32, right0: u32, left: u32, right: u32, scored: int, celebration: real, vel: Vec)
    requires ScoreStep(left0, right0, left, right, scored, celebration, vel)
    ensures left == left0 || right == right0
    ensures left != left0 ==> left == Succ(left0) && scored == 0 && celebration == CelebrationTime
    ensures right != right0 ==> right == Succ(right0) && scored == 1 && celebration == CelebrationTime
  {
  }

  /** The scores, the side that scored last and the countdown. */
  datatype Score = Score(left: u32, right: u32, scored: int, celebration: real)

  /** The end of a tick once integration and the collisions have left the
   *  ball state hit: a ball in a goal mouth scores for the side attacking
   *  that goal, stays where it is, stops and starts the celebration; any
   *  other ball meets the walls and the score stands. The unblock flags
   *  and the multiplier are those the collisions left. */
  predicate Finishes(hit: BallState, b: BallState, s0: Score, s: Score) {
    b.q == hit.q && b.e == hit.e && b.multiplier == hit.multiplier &&
    if InLeftGoal(hit.ball) then
      b.ball == hit.ball && b.vel == Zero && s == Score(s0.left, Succ(s0.right), 1, CelebrationTime)
    else if InRightGoal(hit.ball) then
      b.ball == hit.ball && b.vel == Zero && s == Score(Succ(s0.left), s0.right, 0, CelebrationTime)
    else
      Motion(b.ball, b.vel) == Walls(Motion(hit.ball, hit.vel)) && s == s0
  }

  /** Such an ending records at most one goal, and unless a celebration
   *  follows, the ball is inside the court. */
  lemma FinishesScoreStep(hit: BallState, b: BallState, s0: Score, s: Score)
    requires Finishes(hit, b, s0, s)
    ensures ScoreStep(s0.left, s0.right, s.left, s.right, s.scored, s.celebration, b.vel)
    ensures s.celebration == 0.0 ==> InCourt(b.ball)
    ensures !InLeftGoal(hit.ball) && !InRightGoal(hit.ball) ==> InCourt(b.ball)
  {
    WallsContain(Motion(hit.ball, hit.vel));
  }

  /** Automatic blocking for the left defenders (key 1) as the value q
   *  takes: while the ball moves horizontally, the defenders block (q
   *  false) when the ball is to their right and coming back or already
   *  clear of them, and let it through otherwise. */
  function AutoBlocked(q: bool, auto: bool, ball: Vec, vel: Vec): bool {
    if vel.x != 0.0 && auto then
      !(ball.x > LeftDefendersX - PaddleRadius.x && (vel.x < 0.0 || ball.x > LeftDefendersX + PaddleRadius.x))
    else q
  }

  /** With key 1 off, or a ball not moving horizontally, q is left alone; a
   *  ball clear to the defenders' right, or coming back towards them, is
   *  blocked; a ball behind them, or one moving away past them, is let
   *  through. */
  lemma AutoBlockedCases(q: bool, auto: bool, ball: Vec, vel: Vec)
    ensures !auto || vel.x == 0.0 ==> AutoBlocked(q, auto, ball, vel) == q
    ensures auto && vel.x != 0.0 && ball.x > LeftDefendersX + PaddleRadius.x ==> !AutoBlocked(q, auto, ball, vel)
    ensures auto && vel.x < 0.0 && ball.x > LeftDefendersX - PaddleRadius.x ==> !AutoBlocked(q, auto, ball, vel)
    ensures auto && vel.x != 0.0 && ball.x <= LeftDefendersX - PaddleRadius.x ==> AutoBlocked(q, auto, ball, vel)
    ensures auto && vel.x > 0.0 && ball.x <= LeftDefendersX + PaddleRadius.x ==> AutoBlocked(q, auto, ball, vel)
  {
  }

  /** The header's layout: every row in formation inside the band, with
   *  neighbouring paddles clear of each other, index 0 on top, and the
   *  multiplier starting above its floor. */
  lemma InitialLayout()
    ensures var s := InitialState();
      Formation(s.leftDefenders, LeftDefendersX, DefenderGap) &&
      Formation(s.leftStrikers, LeftStrikersX, StrikerGap) &&
      Formation(s.rightDefenders, RightDefendersX, DefenderGap) &&
      Formation(s.rightStrikers, RightStrikersX, StrikerGap)
    ensures DefenderGap - 2.0 * PaddleRadius.y > 0.0 && StrikerGap - 2.0 * PaddleRadius.y > 0.0
    ensures InitialState().speedMultiplier > MinMultiplier
    ensures InitialState().ball == RespawnPoint(0) && InitialState().ballVelocity == Zero
  {
    var s := InitialState();
    assert Spaced(s.leftDefenders, 1, DefenderGap) && Spaced(s.leftDefenders, 2, DefenderGap);
    assert Spaced(s.rightDefenders, 1, DefenderGap) && Spaced(s.rightDefenders, 2, DefenderGap);
    assert Spaced(s.leftStrikers, 1, StrikerGap) && Spaced(s.rightStrikers, 1, StrikerGap);
  }

  /** The strikers after one controller step towards the ball's predicted
   *  crossing of their line. */
  function TrackedStrikers(s: seq<Vec>, ball: Vec, vel: Vec, step: real): seq<Vec>
    requires |s| == 2
  {
    Steered(s, StrikerDir(s[0].y, s[1].y, PredictY(RightStrikersX, ball, vel)), step)
  }

  /** The defenders after one controller step towards the ball's predicted
   *  crossing of their line; behind that line (`behind`) a positive
   *  prediction is tested against the gaps with the ball's own y. */
  function TrackedDefenders(s: seq<Vec>, ball: Vec, vel: Vec, behind: bool, step: real): seq<Vec>
    requires |s| == 3
  {
    var target := PredictY(RightDefendersX, ball, vel);
    var probe := if behind && target > 0.0 then ball.y else target;
    Steered(s, DefenderDir(s[0].y, s[1].y, s[2].y, target, probe), step)
  }

  /** The AI's rows after one controller step of the given size, by the
   *  zone the ball is in: left of the strikers' line only the strikers
   *  track, between the lines both rows track, and beyond the defenders'
   *  line only the defenders track, testing the gaps with the ball's y. */
  predicate AiMoved(rd0: seq<Vec>, rs0: seq<Vec>, rd: seq<Vec>, rs: seq<Vec>, ball: Vec, vel: Vec, step: real)
    requires |rd0| == 3 && |rs0| == 2
  {
    (ball.x < RightStrikersX ==>
      rd == rd0 && rs == TrackedStrikers(rs0, ball, vel, step)) &&
    (RightStrikersX <= ball.x < RightDefendersX ==>
      rd == TrackedDefenders(rd0, ball, vel, false, step) && rs == TrackedStrikers(rs0, ball, vel, step)) &&
    (RightDefendersX <= ball.x ==>
      rd == TrackedDefenders(rd0, ball, vel, true, step) && rs == rs0)
  }

  /** The human rows after their four held-key tests: w then s move the
   *  defenders, up then down the strikers, by speed. */
  predicate HumanMoved(ld0: seq<Vec>, ls0: seq<Vec>, ld: seq<Vec>, ls: seq<Vec>,
                       w: bool, s: bool, up: bool, down: bool, speed: real)
  {
    ld == Pushed(Pushed(ld0, w, speed), s, -speed) && ls == Pushed(Pushed(ls0, up, speed), down, -speed)
  }

  /** The part of a state the collisions rewrite, its scores, and the keys
   *  paddle_vs_ball reads for a human row. */
  function BallOf(s: State): BallState {
    BallState(s.ball, s.ballVelocity, s.speedMultiplier, s.qPressed, s.ePressed)
  }

  function ScoreOf(s: State): Score {
    Score(s.leftScore, s.rightScore, s.scored, s.celebration)
  }

  function KeysIn(s: State, kind: Kind): RowKeys {
    if kind == LD then RowKeys(s.spacePressed, s.returnPressed, s.shiftPressed, s.wPressed, s.sPressed)
    else RowKeys(s.spacePressed, s.returnPressed, s.shiftPressed, s.upPressed, s.downPressed)
  }

  /** The state a tick plays from once no countdown holds it: the countdown
   *  is zeroed and, if one was running, the ball is at its respawn point. */
  function Resumed(s: State): State {
    s.(celebration := 0.0, ball := if s.celebration > 0.0 then RespawnPoint(s.scored) else s.ball)
  }

  /** The first half of a played tick, from s to t: the AI timer runs out
   *  or counts down, the unblock flags follow the ball's x, the AI's rows
   *  take one controller step, q follows automatic blocking and the human
   *  rows follow the held keys; every other field of t is s's. */
  predicate PaddlesMoved(s: State, t: State, elapsed: real, nextUpdate: real, nextOffset: real) {
    var resample := s.aiOffsetUpdate - elapsed < elapsed;
    |s.rightDefenders| == 3 && |s.rightStrikers| == 2 &&
    AiMoved(s.rightDefenders, s.rightStrikers, t.rightDefenders, t.rightStrikers,
            s.ball, s.ballVelocity, AiSpeed * elapsed) &&
    HumanMoved(s.leftDefenders, s.leftStrikers, t.leftDefenders, t.leftStrikers,
               s.wPressed, s.sPressed, s.upPressed, s.downPressed, HumanSpeed(s.shiftPressed, elapsed)) &&
    t.aiOffsetUpdate == (if resample then nextUpdate else s.aiOffsetUpdate - elapsed) &&
    t.aiOffset == (if resample then nextOffset else s.aiOffset) &&
    t.unblockRightStrikers == (s.ball.x >= RightStrikersX) &&
    t.unblockRightDefenders == (s.ball.x >= RightDefendersX) &&
    t.qPressed == AutoBlocked(s.qPressed, s.autodPressed, s.ball, s.ballVelocity) &&
    t.ball == s.ball && t.ballVelocity == s.ballVelocity && t.speedMultiplier == s.speedMultiplier &&
    t.ePressed == s.ePressed && t.leftScore == s.leftScore && t.rightScore == s.rightScore &&
    t.scored == s.scored && t.celebration == s.celebration &&
    t.wPressed == s.wPressed && t.sPressed == s.sPressed && t.spacePressed == s.spacePressed &&
    t.shiftPressed == s.shiftPressed && t.upPressed == s.upPressed && t.downPressed == s.downPressed &&
    t.returnPressed == s.returnPressed && t.autosPressed == s.autosPressed && t.autodPressed == s.autodPressed
  }

  /** The fields the second half of a played tick writes, from s to t: the
   *  ball state is integrated and meets s's rows, then Finishes settles
   *  goal or walls and leaves ball state b and scores score; a requested
   *  capture becomes held, leaving space. */
  ghost predicate BallMoved(s: State, b: BallState, score: Score, space: int,
                            elapsed: real, decay: real, sqrt: real -> real) {
    IsSqrt(sqrt) &&
    2 <= |s.rightDefenders| && OnLine(s.rightDefenders, RightDefendersX) &&
    2 <= |s.rightStrikers| && OnLine(s.rightStrikers, RightStrikersX) &&
    space == (if s.spacePressed == 1 then 2 else s.spacePressed) &&
    Finishes(Collided(BallOf(s), s.leftDefenders, s.leftStrikers, s.rightDefenders, s.rightStrikers,
                      KeysIn(s, LD), KeysIn(s, LS), s.unblockRightDefenders, s.unblockRightStrikers,
                      elapsed, decay, sqrt),
             b, ScoreOf(s), score)
  }

  /** What a played tick promises about the ball state b and the scores
   *  score it ends with, from the state s it resumed: the multiplier decays
   *  or is boosted and stays at or above its floor, at most one goal is
   *  recorded, and unless a celebration starts the ball is inside the
   *  court. */
  predicate PlayedOutcome(s: State, b: BallState, score: Score, decay: real) {
    (b.multiplier == Decayed(s.speedMultiplier, decay) || b.multiplier == BoostMultiplier) &&
    b.multiplier >= MinMultiplier &&
    ScoreStep(s.leftScore, s.rightScore, score.left, score.right, score.scored, score.celebration, b.vel) &&
    (score.celebration == 0.0 ==> InCourt(b.ball))
  }

  /** A played tick, s to mid to its end, has the outcome PlayedOutcome. */
  lemma PlayedTick(s: State, mid: State, b: BallState, score: Score, space: int, elapsed: real, decay: real,
                   nextUpdate: real, nextOffset: real, sqrt: real -> real)
    requires PaddlesMoved(s, mid, elapsed, nextUpdate, nextOffset)
    requires BallMoved(mid, b, score, space, elapsed, decay, sqrt)
    ensures PlayedOutcome(s, b, score, decay)
  {
    var hit := Collided(BallOf(mid), mid.leftDefenders, mid.leftStrikers, mid.rightDefenders, mid.rightStrikers,
                        KeysIn(mid, LD), KeysIn(mid, LS), mid.unblockRightDefenders, mid.unblockRightStrikers,
                        elapsed, decay, sqrt);
    CollidedBounds(BallOf(mid), mid.leftDefenders, mid.leftStrikers, mid.rightDefenders, mid.rightStrikers,
                   KeysIn(mid, LD), KeysIn(mid, LS), mid.unblockRightDefenders, mid.unblockRightStrikers,
                   elapsed, decay, sqrt);
    FinishesScoreStep(hit, b, ScoreOf(mid), score);
  }

  class FoosballMode {
    const leftDefenders: array<Vec>
    const leftStrikers: array<Vec>
    const rightDefenders: array<Vec>
    const rightStrikers: array<Vec>

    var ball: Vec
    var ballVelocity: Vec
    var leftScore: u32
    var rightScore: u32
    var celebration: real

    /** Resampled by the AI timer and never read. */
    var aiOffset: real
    var aiOffsetUpdate: real

    var wPressed: bool
    var sPressed: bool
    /** 0: idle, 1: capture requested, 2: held. */
    var spacePressed: int
    var shiftPressed: bool
    /** True when the left defenders (q) or strikers (e) let the ball through. */
    var qPressed: bool
    var ePressed: bool
    var upPressed: bool
    var downPressed: bool
    var returnPressed: bool
    /** Toggled by key 3 and never read. */
    var autosPressed: bool
    var autodPressed: bool

    var unblockRightStrikers: bool
    var unblockRightDefenders: bool

    var speedMultiplier: real

    /** 1 when the right team scored last, 0 otherwise. */
    var scored: int

    /** The invariant every tick keeps: four distinct rows of 3, 2, 3 and 2
     *  paddles, each on its own vertical line with its own fixed spacing
     *  and inside the band; a capture counter in {0, 1, 2}; the right
     *  defenders unblocked only together with the right strikers; the
     *  multiplier at or above its floor; a non-negative countdown. */
    ghost predicate Valid()
      reads this, leftDefenders, leftStrikers, rightDefenders, rightStrikers
    {
      RowsValid() &&
      0 <= spacePressed <= 2 &&
      (unblockRightDefenders ==> unblockRightStrikers) &&
      speedMultiplier >= MinMultiplier &&
      celebration >= 0.0 &&
      (scored == 0 || scored == 1)
    }

    /** The rows' part of the invariant, which depends on the arrays only. */
    ghost predicate RowsValid()
      reads leftDefenders, leftStrikers, rightDefenders, rightStrikers
    {
      leftDefenders.Length == 3 && leftStrikers.Length == 2 &&
      rightDefenders.Length == 3 && rightStrikers.Length == 2 &&
      leftDefenders != leftStrikers && leftDefenders != rightDefenders && leftDefenders != rightStrikers &&
      leftStrikers != rightDefenders && leftStrikers != rightStrikers && rightDefenders != rightStrikers &&
      Formation(leftDefenders[..], LeftDefendersX, DefenderGap) &&
      Formation(leftStrikers[..], LeftStrikersX, StrikerGap) &&
      Formation(rightDefenders[..], RightDefendersX, DefenderGap) &&
      Formation(rightStrikers[..], RightStrikersX, StrikerGap)
    }

    function Snapshot(): State
      reads this, leftDefenders, leftStrikers, rightDefenders, rightStrikers
    {
      State(leftDefenders[..], leftStrikers[..], rightDefenders[..], rightStrikers[..],
        ball, ballVelocity, leftScore, rightScore, celebration, aiOffset, aiOffsetUpdate,
        wPressed, sPressed, spacePressed, shiftPressed, qPressed, ePressed,
        upPressed, downPressed, returnPressed, autosPressed, autodPressed,
        unblockRightStrikers, unblockRightDefenders, speedMultiplier, scored)
    }

    /** The row a collision tag refers to. */
    function RowOf(kind: Kind): array<Vec> {
      match kind
      case LD => leftDefenders
      case LS => leftStrikers
      case RD => rightDefenders
      case RS => rightStrikers
    }

    /** The part of the mode the collisions rewrite. */
    function Ball(): BallState
      reads this
    {
      BallState(ball, ballVelocity, speedMultiplier, qPressed, ePressed)
    }

    function Scores(): Score
      reads this
    {
      Score(leftScore, rightScore, scored, celebration)
    }

    /** The keys paddle_vs_ball reads for a human row. */
    function KeysOf(kind: Kind): RowKeys
      reads this
    {
      if kind == LD then RowKeys(spacePressed, returnPressed, shiftPressed, wPressed, sPressed)
      else RowKeys(spacePressed, returnPressed, shiftPressed, upPressed, downPressed)
    }

    /** The header's field initialisers. */
    constructor ()
      ensures Valid()
      ensures fresh(leftDefenders) && fresh(leftStrikers) && fresh(rightDefenders) && fresh(rightStrikers)
      ensures Snapshot() == InitialState()
    {
      leftDefenders := new Vec[3] [Vec(LeftDefendersX, CourtRadius.y / 4.0), Vec(LeftDefendersX, 0.0), Vec(LeftDefendersX, -CourtRadius.y / 4.0)];
      leftStrikers := new Vec[2] [Vec(LeftStrikersX, CourtRadius.y / 4.0), Vec(LeftStrikersX, -CourtRadius.y / 4.0)];
      rightDefenders := new Vec[3] [Vec(RightDefendersX, CourtRadius.y / 4.0), Vec(RightDefendersX, 0.0), Vec(RightDefendersX, -CourtRadius.y / 4.0)];
      rightStrikers := new Vec[2] [Vec(RightStrikersX, CourtRadius.y / 4.0), Vec(RightStrikersX, -CourtRadius.y / 4.0)];
      ball := Vec(-2.0 * CourtRadius.x / 3.0 + BallRadius.x, 0.0);
      ballVelocity := Zero;
      leftScore, rightScore, celebration := 0, 0, 0.0;
      aiOffset, aiOffsetUpdate := 0.0, 0.0;
      wPressed, sPressed, spacePressed, shiftPressed := false, false, 0, false;
      qPressed, ePressed := true, true;
      upPressed, downPressed, returnPressed := false, false, false;
      autosPressed, autodPressed := false, true;
      unblockRightStrikers, unblockRightDefenders := false, false;
      speedMultiplier := 5.0;
      scored := 0;
      new;
      InitialLayout();
      assert leftDefenders[..] == InitialState().leftDefenders && leftStrikers[..] == InitialState().leftStrikers;
      assert rightDefenders[..] == InitialState().rightDefenders && rightStrikers[..] == InitialState().rightStrikers;
    }

    /** handle_event: key releases clear their flag, toggle q, e, 1 and 3,
     *  and reset the capture counter; key presses set their flag, and a
     *  space press starts a capture only from idle. No event is reported
     *  as consumed. */
    method HandleEvent(evt: Event) returns (handled: bool)
      requires Valid()
      modifies this`shiftPressed, this`wPressed, this`sPressed, this`spacePressed, this`qPressed,
        this`ePressed, this`upPressed, this`downPressed, this`returnPressed, this`autodPressed, this`autosPressed
      ensures Valid()
      ensures !handled
      ensures shiftPressed == HoldAfter(LeftShift, evt, old(shiftPressed))
      ensures wPressed == HoldAfter(KeyW, evt, old(wPressed))
      ensures sPressed == HoldAfter(KeyS, evt, old(sPressed))
      ensures upPressed == HoldAfter(ArrowUp, evt, old(upPressed))
      ensures downPressed == HoldAfter(ArrowDown, evt, old(downPressed))
      ensures returnPressed == HoldAfter(Return, evt, old(returnPressed))
      ensures qPressed == ToggleAfter(KeyQ, evt, old(qPressed))
      ensures ePressed == ToggleAfter(KeyE, evt, old(ePressed))
      ensures autodPressed == ToggleAfter(Digit1, evt, old(autodPressed))
      ensures autosPressed == ToggleAfter(Digit3, evt, old(autosPressed))
      ensures spacePressed == CaptureAfter(evt, old(spacePressed))
    {
      if evt.KeyUp? {
        KeyReleased(evt.key);
      }
      if evt.KeyDown? {
        KeyPressed(evt.key);
      }
      handled := false;
    }

    /** The key-up block of handle_event. */
    method KeyReleased(k: Key)
      modifies this`shiftPressed, this`wPressed, this`sPressed, this`spacePressed, this`qPressed,
        this`ePressed, this`upPressed, this`downPressed, this`returnPressed, this`autodPressed, this`autosPressed
      ensures shiftPressed == HoldAfter(LeftShift, KeyUp(k), old(shiftPressed))
      ensures wPressed == HoldAfter(KeyW, KeyUp(k), old(wPressed))
      ensures sPressed == HoldAfter(KeyS, KeyUp(k), old(sPressed))
      ensures upPressed == HoldAfter(ArrowUp, KeyUp(k), old(upPressed))
      ensures downPressed == HoldAfter(ArrowDown, KeyUp(k), old(downPressed))
      ensures returnPressed == HoldAfter(Return, KeyUp(k), old(returnPressed))
      ensures qPressed == ToggleAfter(KeyQ, KeyUp(k), old(qPressed))
      ensures ePressed == ToggleAfter(KeyE, KeyUp(k), old(ePressed))
      ensures autodPressed == ToggleAfter(Digit1, KeyUp(k), old(autodPressed))
      ensures autosPressed == ToggleAfter(Digit3, KeyUp(k), old(autosPressed))
      ensures spacePressed == CaptureAfter(KeyUp(k), old(spacePressed))
    {
      // each test of the source compares the key with a different constant,
      // so at most one branch fires
      match k {
        case LeftShift => shiftPressed := false;
        case KeyW => wPressed := false;
        case KeyS => sPressed := false;
        case Space => spacePressed := 0;
        case KeyQ => qPressed := !qPressed;
        case KeyE => ePressed := !ePressed;
        case ArrowUp => upPressed := false;
        case ArrowDown => downPressed := false;
        case Return => returnPressed := false;
        case Digit1 => autodPressed := !autodPressed;
        case Digit3 => autosPressed := !autosPressed;
        case OtherKey =>
      }
    }

    /** The key-down block of handle_event. */
    method KeyPressed(k: Key)
      modifies this`shiftPressed, this`wPressed, this`sPressed, this`spacePressed, this`qPressed,
        this`ePressed, this`upPressed, this`downPressed, this`returnPressed, this`autodPressed, this`autosPressed
      ensures shiftPressed == HoldAfter(LeftShift, KeyDown(k), old(shiftPressed))
      ensures wPressed == HoldAfter(KeyW, KeyDown(k), old(wPressed))
      ensures sPressed == HoldAfter(KeyS, KeyDown(k), old(sPressed))
      ensures upPressed == HoldAfter(ArrowUp, KeyDown(k), old(upPressed))
      ensures downPressed == HoldAfter(ArrowDown, KeyDown(k), old(downPressed))
      ensures returnPressed == HoldAfter(Return, KeyDown(k), old(returnPressed))
      ensures qPressed == ToggleAfter(KeyQ, KeyDown(k), old(qPressed))
      ensures ePressed == ToggleAfter(KeyE, KeyDown(k), old(ePressed))
      ensures autodPressed == ToggleAfter(Digit1, KeyDown(k), old(autodPressed))
      ensures autosPressed == ToggleAfter(Digit3, KeyDown(k), old(autosPressed))
      ensures spacePressed == CaptureAfter(KeyDown(k), old(spacePressed))
    {
      match k {
        case LeftShift => shiftPressed := true;
        case KeyW => wPressed := true;
        case KeyS => sPressed := true;
        case Space => if spacePressed == 0 { spacePressed := 1; }
        case ArrowUp => upPressed := true;
        case ArrowDown => downPressed := true;
        case Return => returnPressed := true;
        case KeyQ =>
        case KeyE =>
        case Digit1 =>
        case Digit3 =>
        case OtherKey =>
      }
    }

    /** The countdown at the top of update: a running countdown that
     *  outlasts the tick is decreased and the tick stops; one that runs out
     *  is zeroed and the ball respawns. */
    method Celebrate(elapsed: real) returns (frozen: bool)
      requires Valid()
      modifies this`celebration, this`ball
      ensures Valid()
      ensures frozen == Frozen(old(celebration), elapsed)
      ensures frozen ==> Snapshot() == old(Snapshot()).(celebration := old(celebration) - elapsed)
      ensures !frozen ==> celebration == 0.0
      ensures !frozen ==> ball == if old(celebration) > 0.0 then RespawnPoint(scored) else old(ball)
    {
      frozen := false;
      if celebration > 0.0 {
        if celebration - elapsed > 0.0 {
          celebration := celebration - elapsed;
          frozen := true;
          return;
        } else {
          celebration := 0.0;
          if scored == 0 {
            ball := Vec(-2.0 * CourtRadius.x / 3.0 + BallRadius.x, 0.0);
          } else {
            ball := Vec(2.0 * CourtRadius.x / 3.0 - BallRadius.x, 0.0);
          }
        }
      }
    }

    /** The countdown step on whole states: a frozen tick only counts
     *  down, any other tick continues from the resumed state. */
    method Resume(elapsed: real) returns (frozen: bool)
      requires Valid()
      modifies this`celebration, this`ball
      ensures Valid()
      ensures frozen == Frozen(old(celebration), elapsed)
      ensures frozen ==> Snapshot() == old(Snapshot()).(celebration := old(celebration) - elapsed)
      ensures !frozen ==> Snapshot() == Resumed(old(Snapshot()))
    {
      frozen := Celebrate(elapsed);
    }

    /** The right player's AI after its timer: the predicted crossings of
     *  both rows, and the three zones. Left of the strikers' line only the
     *  strikers track and nothing is unblocked; between the lines both rows
     *  track and the strikers are unblocked; beyond the defenders' line
     *  only the defenders track and both rows are unblocked. */
    method AiStep(elapsed: real)
      requires Valid()
      modifies this`unblockRightStrikers, this`unblockRightDefenders, rightDefenders, rightStrikers
      ensures Valid()
      ensures unblockRightStrikers == (ball.x >= RightStrikersX)
      ensures unblockRightDefenders == (ball.x >= RightDefendersX)
      ensures AiMoved(old(rightDefenders[..]), old(rightStrikers[..]), rightDefenders[..], rightStrikers[..],
                      ball, ballVelocity, AiSpeed * elapsed)
    {
      assert rightStrikers[..][0] == rightStrikers[0] && rightDefenders[..][0] == rightDefenders[0];
      if ball.x < rightStrikers[0].x {
        AiFrontZone(elapsed);
      } else if ball.x < rightDefenders[0].x {
        AiMiddleZone(elapsed);
      } else {
        AiBackZone(elapsed);
      }
    }

    /** The ball left of the AI strikers' line: only the strikers track. */
    method AiFrontZone(elapsed: real)
      requires Valid()
      modifies this`unblockRightStrikers, this`unblockRightDefenders, rightStrikers
      ensures Valid()
      ensures !unblockRightStrikers && !unblockRightDefenders
      ensures rightStrikers[..] == TrackedStrikers(old(rightStrikers[..]), ball, ballVelocity, AiSpeed * elapsed)
    {
      var aiSpeed := AiSpeed;
      TrackStrikers(aiSpeed * elapsed);
      unblockRightDefenders := false;
      unblockRightStrikers := false;
    }

    /** The ball between the two AI lines: both rows track and the strikers
     *  let the ball through. */
    method AiMiddleZone(elapsed: real)
      requires Valid()
      modifies this`unblockRightStrikers, this`unblockRightDefenders, rightStrikers, rightDefenders
      ensures Valid()
      ensures unblockRightStrikers && !unblockRightDefenders
      ensures rightDefenders[..] == TrackedDefenders(old(rightDefenders[..]), ball, ballVelocity, false, AiSpeed * elapsed)
      ensures rightStrikers[..] == TrackedStrikers(old(rightStrikers[..]), ball, ballVelocity, AiSpeed * elapsed)
    {
      var aiSpeed := AiSpeed;
      ghost var s0 := rightStrikers[..];
      TrackDefenders(false, aiSpeed * elapsed);
      ghost var d1 := rightDefenders[..];
      assert rightStrikers[..] == s0;
      TrackStrikers(aiSpeed * elapsed);
      assert rightDefenders[..] == d1;
      unblockRightDefenders := false;
      unblockRightStrikers := true;
    }

    /** The ball behind the AI defenders' line: only the defenders track and
     *  both rows let the ball through. */
    method AiBackZone(elapsed: real)
      requires Valid()
      modifies this`unblockRightStrikers, this`unblockRightDefenders, rightDefenders
      ensures Valid()
      ensures unblockRightStrikers && unblockRightDefenders
      ensures rightDefenders[..] == TrackedDefenders(old(rightDefenders[..]), ball, ballVelocity, true, AiSpeed * elapsed)
    {
      var aiSpeed := AiSpeed;
      TrackDefenders(true, aiSpeed * elapsed);
      ghost var d1 := rightDefenders[..];
      assert d1 == TrackedDefenders(old(rightDefenders[..]), ball, ballVelocity, true, AiSpeed * elapsed);
      unblockRightDefenders := true;
      unblockRightStrikers := true;
      assert rightDefenders[..] == d1;
    }

    /** The AI's offset timer, resampled from the random draws when it
     *  would run out within the next tick. */
    method AiTimer(elapsed: real, nextUpdate: real, nextOffset: real)
      requires Valid()
      modifies this`aiOffset, this`aiOffsetUpdate
      ensures Valid()
      ensures var resample := old(aiOffsetUpdate) - elapsed < elapsed;
        aiOffsetUpdate == (if resample then nextUpdate else old(aiOffsetUpdate) - elapsed) &&
        aiOffset == (if resample then nextOffset else old(aiOffset))
    {
      aiOffsetUpdate := aiOffsetUpdate - elapsed;
      if aiOffsetUpdate < elapsed {
        aiOffsetUpdate := nextUpdate;
        aiOffset := nextOffset;
      }
    }

    /** The right strikers' if-chain: one step towards the predicted
     *  crossing of their line (`stball_y`). */
    method TrackStrikers(step: real)
      requires RowsValid()
      modifies rightStrikers
      ensures RowsValid()
      ensures rightStrikers[..] == TrackedStrikers(old(rightStrikers[..]), ball, ballVelocity, step)
    {
      ghost var s0 := rightStrikers[..];
      assert s0[0] == rightStrikers[0] && s0[1] == rightStrikers[1];
      var stballY := PredictY(rightStrikers[0].x, ball, ballVelocity);
      var d := StrikerDir(rightStrikers[0].y, rightStrikers[1].y, stballY);
      Steer(rightStrikers, d, step);
      SteeredKeepsFormation(s0, RightStrikersX, StrikerGap, d, step);
    }

    /** The right defenders' if-chain: one step towards the predicted
     *  crossing of their line (`dfball_y`); behind that line a positive
     *  prediction tests the gaps with the ball's own y. */
    method TrackDefenders(behind: bool, step: real)
      requires RowsValid()
      modifies rightDefenders
      ensures RowsValid()
      ensures rightDefenders[..] == TrackedDefenders(old(rightDefenders[..]), ball, ballVelocity, behind, step)
    {
      ghost var d0 := rightDefenders[..];
      assert d0[0] == rightDefenders[0] && d0[1] == rightDefenders[1] && d0[2] == rightDefenders[2];
      var dfballY := PredictY(rightDefenders[0].x, ball, ballVelocity);
      var probe := if behind && dfballY > 0.0 then ball.y else dfballY;
      var d := DefenderDir(rightDefenders[0].y, rightDefenders[1].y, rightDefenders[2].y, dfballY, probe);
      Steer(rightDefenders, d, step);
      SteeredKeepsFormation(d0, RightDefendersX, DefenderGap, d, step);
    }

    /** Automatic blocking for the left defenders (key 1). */
    method AutoBlock()
      requires Valid()
      modifies this`qPressed
      ensures Valid()
      ensures qPressed == AutoBlocked(old(qPressed), autodPressed, ball, ballVelocity)
    {
      if ballVelocity.x != 0.0 {
        if ball.x > leftDefenders[0].x - PaddleRadius.x && (ballVelocity.x < 0.0 || ball.x > leftDefenders[0].x + PaddleRadius.x) {
          if autodPressed { qPressed := false; }
        } else {
          if autodPressed { qPressed := true; }
        }
      }
    }

    /** The human rows: w/s drive the defenders and up/down the strikers, at
     *  the court's half height per second, doubled by shift. */
    method HumanMove(elapsed: real)
      requires Valid()
      modifies leftDefenders, leftStrikers
      ensures Valid()
      ensures HumanMoved(old(leftDefenders[..]), old(leftStrikers[..]), leftDefenders[..], leftStrikers[..],
                         wPressed, sPressed, upPressed, downPressed, HumanSpeed(shiftPressed, elapsed))
    {
      var speed := HumanSpeed(shiftPressed, elapsed);
      ghost var s0 := leftStrikers[..];
      PushDefenders(wPressed, speed);
      assert leftStrikers[..] == s0;
      ghost var d1 := leftDefenders[..];
      PushStrikers(upPressed, speed);
      assert leftDefenders[..] == d1;
      ghost var s1 := leftStrikers[..];
      PushDefenders(sPressed, -speed);
      assert leftStrikers[..] == s1;
      ghost var d2 := leftDefenders[..];
      PushStrikers(downPressed, -speed);
      assert leftDefenders[..] == d2;
    }

    /** One held-key test of the left defenders. */
    method PushDefenders(on: bool, move: real)
      requires RowsValid()
      modifies leftDefenders
      ensures RowsValid()
      ensures leftDefenders[..] == Pushed(old(leftDefenders[..]), on, move)
    {
      PushedKeepsFormation(leftDefenders[..], LeftDefendersX, DefenderGap, on, move);
      PushRow(leftDefenders, on, move);
    }

    /** One held-key test of the left strikers. */
    method PushStrikers(on: bool, move: real)
      requires RowsValid()
      modifies leftStrikers
      ensures RowsValid()
      ensures leftStrikers[..] == Pushed(old(leftStrikers[..]), on, move)
    {
      PushedKeepsFormation(leftStrikers[..], LeftStrikersX, StrikerGap, on, move);
      PushRow(leftStrikers, on, move);
    }

    /** The ball update: the multiplier decays by the factor standing for
     *  0.95^elapsed, is floored at 2.5, and the ball advances. */
    method Integrate(elapsed: real, decay: real)
      requires Valid()
      modifies this`speedMultiplier, this`ball
      ensures Valid()
      ensures unchanged(this`aiOffset, this`aiOffsetUpdate, this`unblockRightStrikers, this`unblockRightDefenders)
      ensures Ball() == Advanced(old(Ball()), elapsed, decay)
    {
      DecayedFloor(speedMultiplier, decay);
      speedMultiplier := speedMultiplier * decay;
      speedMultiplier := Max(speedMultiplier, MinMultiplier);
      ball := ball.Plus(ballVelocity.Scale(elapsed * speedMultiplier));
    }

    /** paddle_vs_ball for one human paddle (PaddleHitCases says what it
     *  does). */
    method PaddleVsBall(paddle: Vec, kind: Kind, elapsed: real, sqrt: real -> real)
      requires kind == LD || kind == LS
      requires IsSqrt(sqrt)
      modifies this`ball, this`ballVelocity, this`speedMultiplier, this`qPressed, this`ePressed
      ensures Ball() == PaddleHit(old(Ball()), paddle, kind, old(KeysOf(kind)), elapsed, sqrt)
      ensures speedMultiplier == old(speedMultiplier) || speedMultiplier == BoostMultiplier
    {
      var o := Overlap(paddle, ball);
      if o.lo.x > o.hi.x || o.lo.y > o.hi.y {
        return;
      }
      if spacePressed == 1 || (spacePressed == 2 && speedMultiplier <= HoldThreshold) {
        ballVelocity := ballVelocity.(x := 0.0);
        ballVelocity := ballVelocity.(y := 0.0);
        ball := ball.(x := paddle.x + PaddleRadius.x + BallRadius.x);
        return;
      }
      ghost var b0, g := Ball(), KeysOf(kind);
      if returnPressed {
        ballVelocity := CalcBallVel(sqrt, PaddleRadius.y + BallRadius.y, ball.y - paddle.y);
        speedMultiplier := BoostMultiplier;
        if kind == LD { qPressed := false; } else { ePressed := false; }
      }
      ghost var b1 := Ball();
      assert b1 == Shot(b0, paddle, kind, g.shoot, sqrt);
      if ballVelocity.x == 0.0 && ballVelocity.y == 0.0 && shiftPressed {
        if kind == LD && wPressed {
          ball := ball.(y := Min(CourtRadius.y - BallRadius.y, ball.y + 2.0 * CourtRadius.y * elapsed));
        } else if kind == LD && sPressed {
          ball := ball.(y := Min(CourtRadius.y - BallRadius.y, ball.y - 2.0 * CourtRadius.y * elapsed));
        }
      }
      if ballVelocity.x == 0.0 && ballVelocity.y == 0.0 && shiftPressed {
        if kind == LS && upPressed {
          ball := ball.(y := Min(CourtRadius.y - BallRadius.y, ball.y + 2.0 * CourtRadius.y * elapsed));
        } else if kind == LS && downPressed {
          ball := ball.(y := Min(CourtRadius.y - BallRadius.y, ball.y - 2.0 * CourtRadius.y * elapsed));
        }
      }
      ghost var b2 := Ball();
      assert b2 == HeldAim(b1, g, elapsed);
      if kind == LD && qPressed { return; }
      if kind == LS && ePressed { return; }
      var r := Bounce(paddle, ball, ballVelocity, o);
      ball, ballVelocity := r.ball, r.vel;
      assert Ball() == Blocked(b2, paddle, kind, o);
    }

    /** The two loops over the human rows, defenders first. */
    method HumanCollisions(elapsed: real, sqrt: real -> real)
      requires Valid() && IsSqrt(sqrt)
      modifies this`ball, this`ballVelocity, this`speedMultiplier, this`qPressed, this`ePressed
      ensures Valid()
      ensures unchanged(this`aiOffset, this`aiOffsetUpdate, this`unblockRightStrikers, this`unblockRightDefenders)
      ensures Ball() == HumanHits(old(Ball()), leftDefenders[..], leftStrikers[..], old(KeysOf(LD)), old(KeysOf(LS)), elapsed, sqrt)
    {
      HumanRowCollisions(LD, elapsed, sqrt);
      HumanRowCollisions(LS, elapsed, sqrt);
    }

    /** One of the two loops: paddle_vs_ball for every paddle of a human
     *  row, top to bottom. */
    method HumanRowCollisions(kind: Kind, elapsed: real, sqrt: real -> real)
      requires Valid() && IsSqrt(sqrt)
      requires kind == LD || kind == LS
      modifies this`ball, this`ballVelocity, this`speedMultiplier, this`qPressed, this`ePressed
      ensures Valid()
      ensures unchanged(this`aiOffset, this`aiOffsetUpdate, this`unblockRightStrikers, this`unblockRightDefenders)
      ensures Ball() == HumanRowHits(old(Ball()), RowOf(kind)[..], kind, RowOf(kind).Length, old(KeysOf(kind)), elapsed, sqrt)
    {
      var paddles := RowOf(kind);
      ghost var keys := KeysOf(kind);
      for i := 0 to paddles.Length
        invariant Valid()
        invariant KeysOf(kind) == keys
        invariant Ball() == HumanRowHits(old(Ball()), paddles[..], kind, i, keys, elapsed, sqrt)
        invariant unchanged(this`aiOffset, this`aiOffsetUpdate, this`unblockRightStrikers, this`unblockRightDefenders)
      {
        ghost var cur := Ball();
        PaddleVsBall(paddles[i], kind, elapsed, sqrt);
        assert Ball() == PaddleHit(cur, paddles[..][i], kind, keys, elapsed, sqrt);
      }
    }

    /** ai_vs_ball for paddle i of a right row (AiHitCases says what it
     *  does). */
    method AiVsBall(kind: Kind, i: int, sqrt: real -> real)
      requires Valid() && IsSqrt(sqrt)
      requires kind == RD || kind == RS
      requires 0 <= i < RowOf(kind).Length
      modifies this`ball, this`ballVelocity, this`speedMultiplier
      ensures RowsValid()
      ensures unchanged(this`aiOffset, this`aiOffsetUpdate, this`unblockRightStrikers, this`unblockRightDefenders)
      ensures Ball() == AiHit(old(Ball()), RowOf(kind)[..], i, kind, unblockRightDefenders, unblockRightStrikers, sqrt)
    {
      var paddles := RowOf(kind);
      var o := Overlap(paddles[i], ball);
      if o.lo.x > o.hi.x || o.lo.y > o.hi.y {
        return;
      }
      if kind == RD && (unblockRightDefenders || ballVelocity.x == 0.0) {
        assert paddles[..][i].x == RightDefendersX && leftStrikers[..][0].x == LeftStrikersX;
        if i == 0 {
          // overwritten by the redirect below
          ballVelocity := ballVelocity.(x := -1.0);
        }
        var aim := DefenderRedirectAim(paddles[..], i, ball, leftStrikers[0].x);
        ballVelocity := CalcBallVel(sqrt, aim.x, aim.y);
        if i != 1 {
          speedMultiplier := BoostMultiplier;
        }
        return;
      }
      if kind == RS && unblockRightStrikers {
        assert paddles[..][i].x == RightStrikersX;
        var aim := StrikerRedirectAim(ball);
        ballVelocity := CalcBallVel(sqrt, aim.x, aim.y);
        speedMultiplier := BoostMultiplier;
        return;
      }
      var r := Bounce(paddles[i], ball, ballVelocity, o);
      ball, ballVelocity := r.ball, r.vel;
    }

    /** The two loops over the AI rows, defenders first. */
    method AiCollisions(sqrt: real -> real)
      requires Valid() && IsSqrt(sqrt)
      modifies this`ball, this`ballVelocity, this`speedMultiplier
      ensures Valid()
      ensures unchanged(this`aiOffset, this`aiOffsetUpdate, this`unblockRightStrikers, this`unblockRightDefenders)
      ensures Ball() == AiHits(old(Ball()), rightDefenders[..], rightStrikers[..], unblockRightDefenders, unblockRightStrikers, sqrt)
    {
      AiRowCollisions(RD, sqrt);
      AiRowCollisions(RS, sqrt);
    }

    /** One of the two loops: ai_vs_ball for every paddle of an AI row. */
    method AiRowCollisions(kind: Kind, sqrt: real -> real)
      requires Valid() && IsSqrt(sqrt)
      requires kind == RD || kind == RS
      modifies this`ball, this`ballVelocity, this`speedMultiplier
      ensures Valid()
      ensures unchanged(this`aiOffset, this`aiOffsetUpdate, this`unblockRightStrikers, this`unblockRightDefenders)
      ensures Ball() == AiRowHits(old(Ball()), RowOf(kind)[..], kind, RowOf(kind).Length, unblockRightDefenders, unblockRightStrikers, sqrt)
    {
      var paddles := RowOf(kind);
      for i := 0 to paddles.Length
        invariant Valid()
        invariant Ball() == AiRowHits(old(Ball()), paddles[..], kind, i, unblockRightDefenders, unblockRightStrikers, sqrt)
        invariant unchanged(this`aiOffset, this`aiOffsetUpdate, this`unblockRightStrikers, this`unblockRightDefenders)
      {
        ghost var cur := Ball();
        AiVsBall(kind, i, sqrt);
        assert Ball() == AiHit(cur, paddles[..], i, kind, unblockRightDefenders, unblockRightStrikers, sqrt);
      }
    }

    /** A capture requested this tick is held from now on. */
    method AdvanceCapture()
      requires Valid()
      modifies this`spacePressed
      ensures Valid()
      ensures spacePressed == if old(spacePressed) == 1 then 2 else old(spacePressed)
    {
      if spacePressed == 1 {
        spacePressed := 2;
      }
    }

    /** The goal test: past the left edge inside the mouth scores for the
     *  right team, past the right edge for the left team. */
    method CheckGoal() returns (goal: bool)
      requires Valid()
      modifies this`leftScore, this`rightScore, this`celebration, this`ballVelocity, this`scored
      ensures Valid()
      ensures goal == (InLeftGoal(ball) || InRightGoal(ball))
      ensures InLeftGoal(ball) ==>
        rightScore == Succ(old(rightScore)) && leftScore == old(leftScore) && scored == 1 &&
        celebration == CelebrationTime && ballVelocity == Zero
      ensures InRightGoal(ball) ==>
        leftScore == Succ(old(leftScore)) && rightScore == old(rightScore) && scored == 0 &&
        celebration == CelebrationTime && ballVelocity == Zero
      ensures !goal ==>
        leftScore == old(leftScore) && rightScore == old(rightScore) && scored == old(scored) &&
        celebration == old(celebration) && ballVelocity == old(ballVelocity)
    {
      if ball.x < -CourtRadius.x + BallRadius.x && ball.y + BallRadius.y < NetRadius && ball.y - BallRadius.y > -NetRadius {
        rightScore := Succ(rightScore);
        celebration := CelebrationTime;
        ballVelocity := ballVelocity.(x := 0.0);
        ballVelocity := ballVelocity.(y := 0.0);
        scored := 1;
        return true;
      }
      if ball.x > CourtRadius.x - BallRadius.x && ball.y + BallRadius.y < NetRadius && ball.y - BallRadius.y > -NetRadius {
        leftScore := Succ(leftScore);
        celebration := CelebrationTime;
        ballVelocity := ballVelocity.(x := 0.0);
        ballVelocity := ballVelocity.(y := 0.0);
        scored := 0;
        return true;
      }
      return false;
    }

    /** The court walls (WallsContain says what they do). */
    method BounceOffWalls()
      modifies this`ball, this`ballVelocity
      ensures Motion(ball, ballVelocity) == Walls(Motion(old(ball), old(ballVelocity)))
      ensures InCourt(ball)
    {
      WallsContain(Motion(ball, ballVelocity));
      if ball.y > CourtRadius.y - BallRadius.y {
        ball := ball.(y := CourtRadius.y - BallRadius.y);
        if ballVelocity.y > 0.0 {
          ballVelocity := ballVelocity.(y := -ballVelocity.y);
        }
      }
      if ball.y < -CourtRadius.y + BallRadius.y {
        ball := ball.(y := -CourtRadius.y + BallRadius.y);
        if ballVelocity.y < 0.0 {
          ballVelocity := ballVelocity.(y := -ballVelocity.y);
        }
      }
      if ball.x > CourtRadius.x - BallRadius.x {
        ball := ball.(x := CourtRadius.x - BallRadius.x);
        if ballVelocity.x > 0.0 {
          ballVelocity := ballVelocity.(x := -ballVelocity.x);
        }
      }
      if ball.x < -CourtRadius.x + BallRadius.x {
        ball := ball.(x := -CourtRadius.x + BallRadius.x);
        if ballVelocity.x < 0.0 {
          ballVelocity := ballVelocity.(x := -ballVelocity.x);
        }
      }
    }

    /** The part of update after the countdown: the paddles move, then the
     *  ball, which meets the rows where they now stand. */
    method Play(elapsed: real, decay: real, nextUpdate: real, nextOffset: real, sqrt: real -> real)
      returns (ghost mid: State)
      requires Valid()
      requires IsSqrt(sqrt)
      modifies this`aiOffset, this`aiOffsetUpdate, this`unblockRightStrikers, this`unblockRightDefenders,
        this`qPressed, this`ePressed, this`ball, this`ballVelocity, this`speedMultiplier, this`spacePressed,
        this`leftScore, this`rightScore, this`celebration, this`scored,
        leftDefenders, leftStrikers, rightDefenders, rightStrikers
      ensures Valid()
      ensures PaddlesMoved(old(Snapshot()), mid, elapsed, nextUpdate, nextOffset)
      ensures BallMoved(mid, Ball(), Scores(), spacePressed, elapsed, decay, sqrt)
      ensures leftDefenders[..] == mid.leftDefenders && leftStrikers[..] == mid.leftStrikers
      ensures rightDefenders[..] == mid.rightDefenders && rightStrikers[..] == mid.rightStrikers
      ensures aiOffset == mid.aiOffset && aiOffsetUpdate == mid.aiOffsetUpdate
      ensures unblockRightStrikers == mid.unblockRightStrikers && unblockRightDefenders == mid.unblockRightDefenders
    {
      PaddlePhase(elapsed, nextUpdate, nextOffset);
      mid := Snapshot();
      ghost var ld, ls, rd, rs := leftDefenders[..], leftStrikers[..], rightDefenders[..], rightStrikers[..];
      assert ld == mid.leftDefenders && ls == mid.leftStrikers && rd == mid.rightDefenders && rs == mid.rightStrikers;
      MoveBall(elapsed, decay, sqrt, mid);
      assert leftDefenders[..] == ld && leftStrikers[..] == ls && rightDefenders[..] == rd && rightStrikers[..] == rs;
    }

    /** The paddle phase of a tick, stated on whole states. */
    method PaddlePhase(elapsed: real, nextUpdate: real, nextOffset: real)
      requires Valid()
      modifies this`aiOffset, this`aiOffsetUpdate, this`unblockRightStrikers, this`unblockRightDefenders,
        this`qPressed, leftDefenders, leftStrikers, rightDefenders, rightStrikers
      ensures Valid()
      ensures PaddlesMoved(old(Snapshot()), Snapshot(), elapsed, nextUpdate, nextOffset)
    {
      MovePaddles(elapsed, nextUpdate, nextOffset);
    }

    /** The AI timer, the AI's rows, automatic blocking and the human rows;
     *  the ball is not touched. */
    method MovePaddles(elapsed: real, nextUpdate: real, nextOffset: real)
      requires Valid()
      modifies this`aiOffset, this`aiOffsetUpdate, this`unblockRightStrikers, this`unblockRightDefenders,
        this`qPressed, leftDefenders, leftStrikers, rightDefenders, rightStrikers
      ensures Valid()
      ensures var resample := old(aiOffsetUpdate) - elapsed < elapsed;
        aiOffsetUpdate == (if resample then nextUpdate else old(aiOffsetUpdate) - elapsed) &&
        aiOffset == (if resample then nextOffset else old(aiOffset))
      ensures unblockRightStrikers == (ball.x >= RightStrikersX)
      ensures unblockRightDefenders == (ball.x >= RightDefendersX)
      ensures qPressed == AutoBlocked(old(qPressed), autodPressed, ball, ballVelocity)
      ensures AiMoved(old(rightDefenders[..]), old(rightStrikers[..]), rightDefenders[..], rightStrikers[..],
                      ball, ballVelocity, AiSpeed * elapsed)
      ensures HumanMoved(old(leftDefenders[..]), old(leftStrikers[..]), leftDefenders[..], leftStrikers[..],
                         wPressed, sPressed, upPressed, downPressed, HumanSpeed(shiftPressed, elapsed))
    {
      AiTimer(elapsed, nextUpdate, nextOffset);
      ghost var l0, m0 := leftDefenders[..], leftStrikers[..];
      AiStep(elapsed);
      assert leftDefenders[..] == l0 && leftStrikers[..] == m0;
      ghost var d1, s1 := rightDefenders[..], rightStrikers[..];
      AutoBlock();
      HumanMove(elapsed);
      assert rightDefenders[..] == d1 && rightStrikers[..] == s1;
    }

    /** Integration, the collisions, capture bookkeeping, goals and walls;
     *  the paddles are not touched. */
    method MoveBall(elapsed: real, decay: real, sqrt: real -> real, ghost s: State)
      requires Valid()
      requires s == Snapshot()
      requires IsSqrt(sqrt)
      modifies this`qPressed, this`ePressed, this`ball, this`ballVelocity, this`speedMultiplier, this`spacePressed,
        this`leftScore, this`rightScore, this`celebration, this`scored
      ensures Valid()
      ensures BallMoved(s, Ball(), Scores(), spacePressed, elapsed, decay, sqrt)
      ensures unchanged(this`aiOffset, this`aiOffsetUpdate, this`unblockRightStrikers, this`unblockRightDefenders)
    {
      Collide(elapsed, decay, sqrt, s);
      Settle();
    }

    /** Integration and the four collision loops, for a mode whose ball
     *  state, rows, row keys and unblock flags are those of s. */
    method Collide(elapsed: real, decay: real, sqrt: real -> real, ghost s: State)
      requires Valid()
      requires BallOf(s) == Ball() && KeysIn(s, LD) == KeysOf(LD) && KeysIn(s, LS) == KeysOf(LS)
      requires s.leftDefenders == leftDefenders[..] && s.leftStrikers == leftStrikers[..]
      requires s.rightDefenders == rightDefenders[..] && s.rightStrikers == rightStrikers[..]
      requires s.unblockRightDefenders == unblockRightDefenders && s.unblockRightStrikers == unblockRightStrikers
      requires IsSqrt(sqrt)
      modifies this`qPressed, this`ePressed, this`ball, this`ballVelocity, this`speedMultiplier
      ensures Valid()
      ensures unchanged(this`aiOffset, this`aiOffsetUpdate, this`unblockRightStrikers, this`unblockRightDefenders)
      ensures Ball() == Collided(BallOf(s), s.leftDefenders, s.leftStrikers, s.rightDefenders, s.rightStrikers,
                                 KeysIn(s, LD), KeysIn(s, LS), s.unblockRightDefenders, s.unblockRightStrikers,
                                 elapsed, decay, sqrt)
    {
      Integrate(elapsed, decay);
      ghost var b1 := Ball();
      assert b1 == Advanced(BallOf(s), elapsed, decay);
      HumanCollisions(elapsed, sqrt);
      ghost var b2 := Ball();
      assert b2 == HumanHits(b1, s.leftDefenders, s.leftStrikers, KeysIn(s, LD), KeysIn(s, LS), elapsed, sqrt);
      AiCollisions(sqrt);
    }

    /** Capture bookkeeping, the goal test and, without a goal, the walls. */
    method Settle()
      requires Valid()
      modifies this`ball, this`ballVelocity, this`spacePressed,
        this`leftScore, this`rightScore, this`celebration, this`scored
      ensures Valid()
      ensures unchanged(this`aiOffset, this`aiOffsetUpdate, this`unblockRightStrikers, this`unblockRightDefenders)
      ensures spacePressed == if old(spacePressed) == 1 then 2 else old(spacePressed)
      ensures Finishes(old(Ball()), Ball(), old(Scores()), Scores())
    {
      AdvanceCapture();
      var goal := CheckGoal();
      if goal {
        return;
      }
      BounceOffWalls();
    }

    /** update: one tick of elapsed seconds. The decay factor stands for
     *  0.95^elapsed, nextUpdate and nextOffset for the two random draws of
     *  the AI timer, sqrt for std::sqrt. A frozen tick only counts down;
     *  any other tick respawns a ball whose celebration ended and plays
     *  from there. */
    method Update(elapsed: real, decay: real, nextUpdate: real, nextOffset: real, sqrt: real -> real)
      returns (ghost mid: State)
      requires Valid()
      requires decay > 0.0
      requires 0.5 <= nextUpdate <= 1.0 && -1.25 <= nextOffset <= 1.25
      requires IsSqrt(sqrt)
      modifies this`aiOffset, this`aiOffsetUpdate, this`unblockRightStrikers, this`unblockRightDefenders,
        this`qPressed, this`ePressed, this`ball, this`ballVelocity, this`speedMultiplier, this`spacePressed,
        this`leftScore, this`rightScore, this`celebration, this`scored,
        leftDefenders, leftStrikers, rightDefenders, rightStrikers
      ensures Valid()
      ensures Frozen(old(celebration), elapsed) ==>
        Snapshot() == old(Snapshot()).(celebration := old(celebration) - elapsed)
      ensures !Frozen(old(celebration), elapsed) ==>
        PaddlesMoved(Resumed(old(Snapshot())), mid, elapsed, nextUpdate, nextOffset) &&
        BallMoved(mid, Ball(), Scores(), spacePressed, elapsed, decay, sqrt)
      ensures !Frozen(old(celebration), elapsed) ==>
        leftDefenders[..] == mid.leftDefenders && leftStrikers[..] == mid.leftStrikers &&
        rightDefenders[..] == mid.rightDefenders && rightStrikers[..] == mid.rightStrikers &&
        aiOffset == mid.aiOffset && aiOffsetUpdate == mid.aiOffsetUpdate &&
        unblockRightStrikers == mid.unblockRightStrikers && unblockRightDefenders == mid.unblockRightDefenders
      ensures !Frozen(old(celebration), elapsed) ==> PlayedOutcome(Resumed(old(Snapshot())), Ball(), Scores(), decay)
    {
      var frozen := Resume(elapsed);
      if frozen {
        mid := Snapshot();
        return;
      }
      mid := Play(elapsed, decay, nextUpdate, nextOffset, sqrt);
      PlayedTick(Resumed(old(Snapshot())), mid, Ball(), Scores(), spacePressed, elapsed, decay, nextUpdate, nextOffset, sqrt);
    }
  }
}
