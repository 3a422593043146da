# Foosball: a verified model of one match tick

This project models the simulation core of `FoosballMode`, a two-team
foosball game. The left team is driven by the keyboard and the right team by
a reactive AI. The model covers the two entry points that change the match
state:

- `handle_event` sets, clears and toggles the control flags and drives the
  three-valued capture counter;
- `update(elapsed)` advances one tick: the celebration countdown, the AI
  controller and its three zones, automatic blocking, human row movement,
  ball integration with the decaying speed multiplier, paddle-ball
  collisions (capture, shot, aim, unblock, bounce), the AI's redirects, the
  goal test and the wall reflection.

The state is the class `Foosball.FoosballMode`. Its four paddle rows are
`array<Vec>` fields, updated in place as the source's vectors are, and the
rest are scalar fields. Floats are exact `real`s, and the `uint32_t` scores
wrap at 2³². Each `update` step is a method proved against a function or a
predicate of the old state, and the two halves of a played tick are stated
on whole states: `PaddlesMoved` from the state the tick starts from to the
state after the paddles move, and `BallMoved` from there to the final ball
state, scores and capture counter. The invariant `Valid()` is kept by every
tick. It says:

- 3, 2, 3 and 2 paddles, each row on its fixed line with its fixed spacing
  and inside the band;
- the capture counter is in {0, 1, 2};
- the right defenders are unblocked only together with the right strikers;
- the multiplier is at or above its 2.5 floor;
- the celebration countdown is never negative;
- `scored` is 0 or 1.

Modules:

- `Geometry` (geometry.dfy): vectors, the header's radii and row positions,
  the `u32` successor, the court and goal-mouth tests, and small scalar
  helpers.
- `Rows` (rows.dfy): `move_players` as the loop method `MovePlayers`,
  specified by `Moved` (one common clamped shift), with the lemmas about
  rigidity and bounds.
- `Ai` (ai.dfy): the predicted crossings, the step direction of each
  if-chain, and `Steer`.
- `Collision` (collision.dfy): the overlap box, `calc_ball_vel`, the shared
  bounce, aiming a held ball, and the two redirect aims.
- `Physics` (physics.dfy): the ball's side of a tick as values: the decay
  and integration step, one `paddle_vs_ball` or `ai_vs_ball` call, the
  loops over the rows, and the walls.
- `Controls` (controls.dfy): key events and each flag's transition.
- `Foosball` (foosball.dfy): the class, `HandleEvent`, `Update` and the
  steps `Update` is made of.

The model keeps these behaviours of FoosballMode.cpp as written:

- After a goal the ball respawns in front of the defenders of the team that
  scored: at (2·cx/3 − brx, 0), just inside the right defenders, after a
  right-team goal (`scored == 1`), and at (−2·cx/3 + brx, 0) after a
  left-team goal (FoosballMode.cpp:202-206).
- The goal test runs after all collisions and skips only the wall step
  (FoosballMode.cpp:507-522).
- The goal-mouth test needs the ball's whole vertical extent strictly
  inside (−net_radius, net_radius); a ball whose centre is inside but whose
  edge is not does not score (FoosballMode.cpp:507, 515).

## Model

| member | source | states |
|---|---|---|
| Geometry.Succ | FoosballMode.cpp:508 | `+= 1` on a uint32 score: the successor below 2³² − 1, 0 at the top, and never the same value |
| Rows.FinalMoveBounds | FoosballMode.cpp:183-190 | the clamping loop never reverses the requested move or enlarges it, and the final move keeps every paddle of an in-band row inside [−cy + pry, cy − pry] |
| Rows.MovedIsRigid | FoosballMode.cpp:191-193 | every paddle moves by the same amount: x values and all pairwise y differences are unchanged |
| Rows.MovedKeepsFormation | FoosballMode.cpp:182-194 | a row on its line with its spacing and inside the band stays so after any move |
| Rows.PushedKeepsFormation | FoosballMode.cpp:317-323 | the same for a move guarded by a held key |
| Rows.FormationDescends | FoosballMode.hpp:30-33 | in a row in formation index 0 is the topmost paddle and any two paddles are at least one gap apart, so y strictly decreases along the row |
| Rows.MovePlayers | FoosballMode.cpp:182-194 | the two loops leave the row equal to `Moved` of the old row: one common shift, clamped so that no paddle leaves the band |
| Rows.PushRow | FoosballMode.cpp:317-323 | move_players behind a key test: the row is moved when the key is held and unchanged otherwise |
| Ai.PredictYOnPath | FoosballMode.cpp:218-219 | the predicted y lies on the ball's line of motion at the row's x; with no horizontal velocity it is the ball's own y |
| Ai.StrikerDirTracks | FoosballMode.cpp:220-237 | the strikers' if-chain steps up when the target is above the top paddle and down when it is below the bottom one; they hold still only when the target lies between them; a target in the open gap moves them down when the target is positive and up otherwise |
| Ai.DefenderDirTracks | FoosballMode.cpp:241-261 | the same for the three-paddle defenders: they hold still exactly when the target lies between the outer paddles and the probe is in neither gap |
| Ai.SteeredKeepsFormation | FoosballMode.cpp:220-305 | an AI step keeps the row in formation |
| Ai.Steer | FoosballMode.cpp:221-228 | one branch of an if-chain: move_players by +step, by −step, or no call |
| Collision.Overlap | FoosballMode.cpp:362-366 | the boxes overlap exactly when the centres are within the summed half extents on both axes, and then the overlap is no larger than the ball |
| Collision.ScaleToSpeed | FoosballMode.cpp:357-361 | scaling by velocity / length gives a vector of length velocity, parallel to (x, y) and with the same sign on each axis |
| Collision.CalcBallVel | FoosballMode.cpp:357-361 | calc_ball_vel for a non-zero (x, y) and any square root: length velocity, parallel to (x, y), same signs |
| Collision.Bounce | FoosballMode.cpp:399-417 | a vertical bounce puts the ball against the face on the side its centre came from, with vy pointing away and vx kept; a horizontal bounce puts it against the left or right face on its centre's side, with vx pointing away and vy = 0.25·vy + 0.75·(ball.y − paddle.y)/(pr.y + br.y) |
| Collision.Aim | FoosballMode.cpp:384-386 | aiming clamps only at the top of the court, with `min`, and only when the sum passes it |
| Collision.AimedY | FoosballMode.cpp:382-395 | the held ball's y: unchanged without a key; with a key never above the top of the court; the first key moves it up by the full step, or onto the top of the court when the step would pass it, so it never lowers a ball inside the court; the second alone moves it down by the full step, unclamped |
| Collision.AimDownLeavesCourt | FoosballMode.cpp:385-386 | a held ball at the bottom wall aimed down ends up below the court, because `min` does not clamp downwards |
| Collision.DefenderRedirectAim | FoosballMode.cpp:442-464 | the AI defenders' redirect aims back across at the human strikers' line: the top paddle at the upper wall when the gap is no wider than the space above, the bottom paddle downwards when the gap is no wider than the space below, otherwise at the midpoint of the top two |
| Collision.StrikerRedirectAim | FoosballMode.cpp:469 | the AI strikers' redirect points from the ball at the centre of the left goal |
| Controls.HoldRepeat | FoosballMode.cpp:116-125 | a hold key's flag is idempotent under repeated events, and a release after a press clears it |
| Controls.ToggleTwice | FoosballMode.cpp:129-134 | a toggle key's release flips its flag, two releases restore it, and its press leaves it alone |
| Controls.CaptureInRange | FoosballMode.cpp:161-163 | the capture counter stays in {0, 1, 2}; a held capture (2) survives everything but a space release; 1 is reached only from 1 or by a space press |
| Physics.DecayedFloor | FoosballMode.cpp:348-349 | after the decay step the multiplier is at least 2.5, a product above the floor is kept, and a decay factor in (0, 1] never raises it |
| Physics.AdvancedKeepsFloor | FoosballMode.cpp:348-350 | the ball update keeps the velocity and the unblock flags and never takes the multiplier below its floor |
| Physics.PaddleHitCases | FoosballMode.cpp:356-418 | no overlap changes nothing; a capture stops the ball against the right face even when the row is unblocked; a shot does not return: it launches at velocity away from the paddle centre, sets the multiplier to 4, makes the row block and so bounces the launched ball; a stopped ball is aimed while shift is held; an unblocked row lets the ball through, and a blocking one bounces it |
| Physics.HumanRowHitsBounds | FoosballMode.cpp:420-425 | across a human row the multiplier is unchanged or 4, and a ball touching none of its paddles is left exactly as it was |
| Physics.HumanHitsBounds | FoosballMode.cpp:420-425 | the same for the two human loops together |
| Physics.AiHitCases | FoosballMode.cpp:428-493 | no overlap changes nothing; an unblocked defender row, or a ball with no horizontal speed, is redirected in place by the index rule, with the multiplier set to 4 except by the middle paddle; unblocked strikers redirect at the left goal and set 4; otherwise the shared bounce; q and e are never touched and the redirect aims are never zero |
| Physics.AiRowHitsBounds | FoosballMode.cpp:495-500 | across an AI row q and e are unchanged, the multiplier is unchanged or 4, and a ball touching none of its paddles is left alone |
| Physics.AiHitsBounds | FoosballMode.cpp:495-500 | the same for the two AI loops together |
| Physics.CollidedBounds | FoosballMode.cpp:348-500 | after integration and the four loops the multiplier is the decayed value or 4, so at or above 2.5, and a ball that, once advanced, touches no paddle has only advanced |
| Physics.WallsContain | FoosballMode.cpp:524-548 | the ball ends inside the court; a clamped axis has its velocity pointing inward or zero, an axis already inside is untouched, and the speed on each axis is unchanged |
| Foosball.ScoreStepOneGoal | FoosballMode.cpp:507-522 | at most one score rises in a tick, by one, and `scored` names the side whose counter rose, with the celebration set |
| Foosball.FinishesScoreStep | FoosballMode.cpp:507-548 | the end of a tick records at most one goal, and unless a celebration starts the ball is inside the court |
| Foosball.AutoBlockedCases | FoosballMode.cpp:309-315 | with auto-defence off or no horizontal velocity q is unchanged; otherwise the left defenders block exactly when the ball is right of them and coming back or clear of them |
| Foosball.InitialLayout | FoosballMode.hpp:26-62 | the header's rows are in formation inside the band, neighbouring paddles are clear of each other (gap − 2·pry > 0), the multiplier starts above its floor, and the ball starts at rest at the left respawn point |
| Foosball.PlayedTick | FoosballMode.cpp:210-548 | from a resumed state, a played tick ends with the multiplier decayed or 4 and at or above 2.5, at most one score risen by one, and the ball inside the court unless a celebration started |
| Foosball.FoosballMode.constructor | FoosballMode.hpp:26-64 | the initial state is the header's field initialisers and satisfies the invariant |
| Foosball.FoosballMode.HandleEvent | FoosballMode.cpp:115-176 | every flag after an event is its hold, toggle or capture transition; nothing is reported handled; the invariant is kept |
| Foosball.FoosballMode.KeyReleased | FoosballMode.cpp:116-150 | a key release clears its hold flag, flips its toggle flag or resets the capture counter, and leaves every other flag alone |
| Foosball.FoosballMode.KeyPressed | FoosballMode.cpp:151-174 | a key press sets its hold flag, starts a capture only from 0, and leaves every other flag alone |
| Foosball.FoosballMode.Celebrate | FoosballMode.cpp:196-208 | a running countdown that outlasts the tick decreases by elapsed and nothing else changes; otherwise the countdown is 0 and the ball is at the respawn point of the side that scored, if a countdown was running |
| Foosball.FoosballMode.Resume | FoosballMode.cpp:196-208 | the same on whole states: a frozen tick changes only the countdown, any other tick continues from `Resumed` of the old state |
| Foosball.FoosballMode.AiTimer | FoosballMode.cpp:211-216 | the timer counts down by elapsed and both values are resampled when it would run out within the next tick |
| Foosball.FoosballMode.AiStep | FoosballMode.cpp:217-305 | the three-zone rule: the unblock flags as functions of the ball's x against the two AI lines, and the AI rows as `AiMoved`: which rows take one controller step and which stay |
| Foosball.FoosballMode.AiFrontZone | FoosballMode.cpp:220-239 | left of the strikers' line: nothing unblocked and only the strikers track |
| Foosball.FoosballMode.AiMiddleZone | FoosballMode.cpp:240-280 | between the lines: the strikers unblocked, the defenders blocking, and both rows track |
| Foosball.FoosballMode.AiBackZone | FoosballMode.cpp:281-305 | behind the defenders' line: both unblocked, only the defenders track, testing the gaps with the ball's own y when the prediction is positive |
| Foosball.FoosballMode.TrackStrikers | FoosballMode.cpp:221-237 | the strikers take one step in the direction of their if-chain and stay in formation |
| Foosball.FoosballMode.TrackDefenders | FoosballMode.cpp:241-261 | the defenders take one step in the direction of their if-chain and stay in formation |
| Foosball.FoosballMode.AutoBlock | FoosballMode.cpp:309-315 | q becomes `AutoBlocked` of its old value, auto-defence and the ball |
| Foosball.FoosballMode.HumanMove | FoosballMode.cpp:317-344 | the human rows become `HumanMoved`: w then s push the defenders, up then down the strikers, by half the court height per second, doubled by shift; the rows stay in formation |
| Foosball.FoosballMode.PushDefenders | FoosballMode.cpp:317-323 | one key test of the left defenders: the row is `Pushed` and keeps its formation |
| Foosball.FoosballMode.PushStrikers | FoosballMode.cpp:324-330 | one key test of the left strikers: the row is `Pushed` and keeps its formation |
| Foosball.FoosballMode.MovePaddles | FoosballMode.cpp:210-344 | the paddle half of a tick: the AI timer, the unblock flags from the ball's x, the AI rows as `AiMoved`, q as `AutoBlocked` and the human rows as `HumanMoved`; the invariant is kept |
| Foosball.FoosballMode.PaddlePhase | FoosballMode.cpp:210-344 | the same on whole states: `PaddlesMoved` from the old state to the new one, every field the paddle half does not write being unchanged |
| Foosball.FoosballMode.Integrate | FoosballMode.cpp:348-350 | the ball state becomes `Advanced`: the multiplier decays and is floored at 2.5, and the ball advances by elapsed · multiplier · velocity |
| Foosball.FoosballMode.PaddleVsBall | FoosballMode.cpp:356-418 | the ball state becomes `PaddleHit` of the old one (PaddleHitCases says what that is), and the multiplier is kept or set to 4 |
| Foosball.FoosballMode.HumanRowCollisions | FoosballMode.cpp:420-425 | the loop over one human row leaves the ball state equal to `HumanRowHits`: paddle_vs_ball for each paddle, top to bottom |
| Foosball.FoosballMode.HumanCollisions | FoosballMode.cpp:420-425 | the defenders, then the strikers: the ball state becomes `HumanHits` |
| Foosball.FoosballMode.AiVsBall | FoosballMode.cpp:428-493 | the ball state becomes `AiHit` of the old one (AiHitCases says what that is) |
| Foosball.FoosballMode.AiRowCollisions | FoosballMode.cpp:495-500 | the loop over one AI row leaves the ball state equal to `AiRowHits` |
| Foosball.FoosballMode.AiCollisions | FoosballMode.cpp:495-500 | the AI defenders, then strikers: the ball state becomes `AiHits` |
| Foosball.FoosballMode.Collide | FoosballMode.cpp:348-500 | integration and the four loops: the ball state becomes `Collided` of the old one, with the rows, row keys and unblock flags of the tick |
| Foosball.FoosballMode.AdvanceCapture | FoosballMode.cpp:502-504 | a capture requested this tick (1) becomes held (2) after all collisions |
| Foosball.FoosballMode.CheckGoal | FoosballMode.cpp:507-522 | past the left edge inside the mouth the right score rises, past the right edge the left score rises; each sets the celebration to 2, stops the ball and records the side; otherwise nothing changes |
| Foosball.FoosballMode.BounceOffWalls | FoosballMode.cpp:524-548 | the ball and its velocity become `Walls` of the old ones, so the ball ends inside the court |
| Foosball.FoosballMode.Settle | FoosballMode.cpp:502-548 | the capture counter advances, and the ball state and scores are those `Finishes` describes: a goal stops the ball and counts, anything else meets the walls |
| Foosball.FoosballMode.MoveBall | FoosballMode.cpp:346-548 | the ball half of a tick as `BallMoved`: the collisions against the rows as they stand, then goal or walls, and the capture counter advanced |
| Foosball.FoosballMode.Play | FoosballMode.cpp:210-548 | a tick after the countdown: `PaddlesMoved` from the old state to the intermediate state `mid`, then `BallMoved` from `mid` to the final ball state, scores and capture counter; the rows, the AI timer and the unblock flags end as in `mid` |
| Foosball.FoosballMode.Update | FoosballMode.cpp:178-550 | one tick keeps the invariant (rows never separate, paddles in bounds, counter in range, multiplier floored); a frozen tick changes only the countdown; any other tick plays from the resumed state, with the rows, the AI timer and the unblock flags ending as `PaddlesMoved` left them, and ends with at most one goal, the multiplier decayed or 4, and the ball in the court unless a goal was scored; the held-key flags are never written |

## Left out

- The constructor's and destructor's OpenGL setup and teardown, and all of `draw` (FoosballMode.cpp:11-113, 552-734): rendering only.
- `std::mt19937` (FoosballMode.cpp:180, 214-215): the two draws are the parameters `nextUpdate` and `nextOffset` of `Update`, whose preconditions give the range of `(mt() / max) * 0.5 + 0.5` and `(mt() / max) * 2.5 - 1.25`. `ai_offset` is never read.
- `std::pow(0.95, elapsed)` (FoosballMode.cpp:348): the positive parameter `decay`.
- `std::sqrt` in `calc_ball_vel`: the parameter `sqrt`. The model assumes it is the exact square root on non-negative reals. `CalcBallVel` requires (x, y) ≠ (0, 0), and every call discharges this:
  - the human shot (FoosballMode.cpp:376) has x = pry + bry > 0; `Shot` proves it, and `PaddleVsBall` follows `Shot`;
  - a defender redirect has x = left_strikers[0].x − paddle.x ≠ 0; `AiHit` proves it, and `AiVsBall` follows `AiHit`;
  - a striker redirect (FoosballMode.cpp:469) happens only for a ball that overlaps a paddle on the line x = −cx/5, so ball.x + cx ≠ 0.
- Floating-point rounding: all arithmetic is exact over the reals.
- SDL events: they are reduced to `Controls.Event` over the keys the mode reacts to, plus one other-key constant. The window size argument is ignored, as in the source.
- `autos_pressed` and `ai_offset`: kept as inert state, since the tick never reads either.
