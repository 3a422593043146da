/** The keyboard side of the mode: the events handle_event receives and, per
 *  flag, what a sequence of presses and releases makes of it. */
module Controls {

  /** The keys handle_event reacts to, and any other key. */
  datatype Key = LeftShift | KeyW | KeyS | Space | KeyQ | KeyE | ArrowUp | ArrowDown | Return | Digit1 | Digit3 | OtherKey

  /** The part of an SDL event the mode looks at. */
  datatype Event = KeyUp(key: Key) | KeyDown(key: Key) | OtherEvent

  /** A hold key's flag: set by its press, cleared by its release, kept by
   *  every other event. */
  function HoldAfter(k: Key, evt: Event, held: bool): bool {
    if evt == KeyDown(k) then true
    else if evt == KeyUp(k) then false
    else held
  }

  /** A toggle key's flag: flipped by its release, kept by every other
   *  event, its own press included. */
  function ToggleAfter(k: Key, evt: Event, on: bool): bool {
    if evt == KeyUp(k) then !on else on
  }

  /** The capture counter: a space release resets it, a space press starts
   *  a capture only when none is under way. */
  function CaptureAfter(evt: Event, space: int): int {
    if evt == KeyUp(Space) then 0
    else if evt == KeyDown(Space) && space == 0 then 1
    else space
  }

  /** Key repeat is harmless: the same event twice leaves a hold flag where
   *  the first left it. */
  lemma HoldRepeat(k: Key, evt: Event, held: bool)
    ensures HoldAfter(k, evt, HoldAfter(k, evt, held)) == HoldAfter(k, evt, held)
    ensures HoldAfter(k, KeyUp(k), HoldAfter(k, KeyDown(k), held)) == false
  {
  }

  /** Two releases of a toggle key restore its flag; one flips it. */
  lemma ToggleTwice(k: Key, on: bool)
    ensures ToggleAfter(k, KeyUp(k), on) == !on
    ensures ToggleAfter(k, KeyUp(k), ToggleAfter(k, KeyUp(k), on)) == on
    ensures ToggleAfter(k, KeyDown(k), on) == on
  {
  }

  /** The counter stays in {0, 1, 2} and a held capture (2) is never
   *  restarted by another space press. */
  lemma CaptureInRange(evt: Event, space: int)
    requires 0 <= space <= 2
    ensures 0 <= CaptureAfter(evt, space) <= 2
    ensures space == 2 && evt != KeyUp(Space) ==> CaptureAfter(evt, space) == 2
    ensures CaptureAfter(evt, space) == 1 ==> space == 1 || evt == KeyDown(Space)
  {
  }
}
