/**
  The fullscreen hook: a fullscreen flag kept in step with the document body's
  `overflow` style, which is "hidden" while fullscreen so the page behind cannot
  scroll. The body style belongs to the document and outlives the component;
  the flag belongs to the component, and React drops state updates made after
  unmount.
 */
module Fullscreen {

  /** Body overflow while fullscreen. */
  const Hidden: string := "hidden"

  /** Body overflow with the style removed. */
  const Unset: string := ""

  const EscapeKey: string := "Escape"

  datatype State = State(isFullscreen: bool, overflow: string, mounted: bool)

  datatype Event = EnterCall | ExitCall | ToggleCall | KeyDown(key: string) | Unmount

  /** Mounting sets the flag to false and leaves the body's overflow as it found it. */
  function Init(bodyOverflow: string): State {
    State(false, bodyOverflow, true)
  }

  /** The body is locked exactly while the component is fullscreen. */
  predicate Consistent(s: State) {
    s.overflow == Hidden <==> s.isFullscreen
  }

  /** `enterFullscreen`. */
  function Enter(s: State): (s': State)
    ensures s'.overflow == Hidden
    ensures s.mounted ==> s'.isFullscreen
    ensures !s.mounted ==> s'.isFullscreen == s.isFullscreen
    ensures s'.mounted == s.mounted
  {
    State(if s.mounted then true else s.isFullscreen, Hidden, s.mounted)
  }

  /** `exitFullscreen`. */
  function Exit(s: State): (s': State)
    ensures s'.overflow == Unset
    ensures s.mounted ==> !s'.isFullscreen
    ensures !s.mounted ==> s'.isFullscreen == s.isFullscreen
    ensures s'.mounted == s.mounted
  {
    State(if s.mounted then false else s.isFullscreen, Unset, s.mounted)
  }

  /** `toggleFullscreen`: exit when fullscreen, enter otherwise. */
  function Toggle(s: State): (s': State)
    ensures s.mounted ==> s'.isFullscreen == !s.isFullscreen
    ensures s.mounted ==> Consistent(s')
    ensures s'.overflow == (if s.isFullscreen then Unset else Hidden)
    ensures s'.mounted == s.mounted
  {
    if s.isFullscreen then Exit(s) else Enter(s)
  }

  /** The `keydown` listener, registered while mounted: Escape in fullscreen exits. */
  function KeyDown(s: State, key: string): (s': State)
    ensures key == EscapeKey && s.isFullscreen && s.mounted ==> !s'.isFullscreen && s'.overflow == Unset
    ensures key != EscapeKey || !s.isFullscreen || !s.mounted ==> s' == s
  {
    if s.mounted && key == EscapeKey && s.isFullscreen then Exit(s) else s
  }

  /** Unmount: the listener is removed and the cleanup effect clears the body's overflow. */
  function Teardown(s: State): (s': State)
    ensures s'.overflow == Unset && !s'.mounted
    ensures s'.isFullscreen == s.isFullscreen
  {
    s.(overflow := Unset, mounted := false)
  }

  function Step(s: State, e: Event): State {
    match e
    case EnterCall => Enter(s)
    case ExitCall => Exit(s)
    case ToggleCall => Toggle(s)
    case KeyDown(key) => KeyDown(s, key)
    case Unmount => Teardown(s)
  }

  function Run(s: State, events: seq<Event>): State
    decreases |events|
  {
    if |events| == 0 then s else Run(Step(s, events[0]), events[1..])
  }

  /** The component starts outside fullscreen; it starts consistent exactly when the body was
      not already locked by someone else. */
  lemma InitialState(bodyOverflow: string)
    ensures !Init(bodyOverflow).isFullscreen
    ensures Consistent(Init(bodyOverflow)) <==> bodyOverflow != Hidden
  {
  }

  /** Every call made while mounted leaves the body locked exactly when fullscreen. */
  lemma CallsRestoreConsistency(s: State)
    requires s.mounted
    ensures Consistent(Enter(s)) && Consistent(Exit(s)) && Consistent(Toggle(s))
  {
  }

  /** Toggling is `exitFullscreen` when fullscreen and `enterFullscreen` otherwise. */
  lemma ToggleIsEnterOrExit(s: State)
    ensures s.isFullscreen ==> Toggle(s) == Exit(s)
    ensures !s.isFullscreen ==> Toggle(s) == Enter(s)
  {
  }

  /** Two toggles while mounted restore the flag, and the body style agrees with it. */
  lemma ToggleTwice(s: State)
    requires s.mounted
    ensures Toggle(Toggle(s)).isFullscreen == s.isFullscreen
    ensures Consistent(Toggle(Toggle(s)))
  {
  }

  /** Escape in fullscreen behaves as `exitFullscreen`; any other key, or Escape outside
      fullscreen, changes nothing. */
  lemma EscapeIsExit(s: State, key: string)
    requires s.mounted
    ensures s.isFullscreen && key == EscapeKey ==> KeyDown(s, key) == Exit(s)
    ensures !s.isFullscreen || key != EscapeKey ==> KeyDown(s, key) == s
  {
  }

  /** Consistency, once reached, survives every run of events while mounted. */
  lemma {:induction false} RunKeepsConsistency(s: State, events: seq<Event>)
    requires s.mounted ==> Consistent(s)
    ensures Run(s, events).mounted ==> Consistent(Run(s, events))
    decreases |events|
  {
    if |events| > 0 {
      var next := Step(s, events[0]);
      assert next.mounted ==> s.mounted;
      assert next.mounted ==> Consistent(next);
      RunKeepsConsistency(next, events[1..]);
    }
  }

  /** After unmount the listener is gone and the body is unlocked: key presses and repeated
      unmounts change nothing. Only a retained callback invoked late can touch the body. */
  lemma {:induction false} QuietAfterUnmount(s: State, events: seq<Event>)
    requires !s.mounted && s.overflow == Unset
    requires forall i :: 0 <= i < |events| ==> events[i].KeyDown? || events[i].Unmount?
    ensures Run(s, events) == s
    decreases |events|
  {
    if |events| > 0 {
      assert Step(s, events[0]) == s;
      QuietAfterUnmount(s, events[1..]);
    }
  }

  /** A retained `enterFullscreen` called after unmount still locks the body, while the
      dropped state update leaves the flag as it was: the body stays locked with no mounted
      component left to unlock it. */
  lemma LateEnterLocksBody(s: State)
    requires !s.isFullscreen
    ensures var late := Enter(Teardown(s));
            late.overflow == Hidden && !late.isFullscreen && !late.mounted && !Consistent(late)
  {
  }
}
