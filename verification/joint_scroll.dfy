/**
  The joint-scroll hook: it mirrors the vertical offset of one region into the
  other, drops the echo events its own writes cause through a re-entrancy flag,
  stops propagating while the scrolled region sits at its end, and clears the
  flag from a debounce timer that every accepted event restarts.

  The host (the browser) owns the regions' geometry and the timer service; the
  hook owns the flag and the handle of the timer it last scheduled. Time is not
  modelled: the timer's expiry is the event `TimerFire(id)`.
 */
module JointScroll {
  import opened Options
  import opened Sides

  /** Slack, in pixels, within which a region counts as scrolled to its end. */
  const EndTolerance: int := 5

  /** Id the host's timer service hands out first. */
  const FirstTimerId: nat := 1

  /** Vertical scroll geometry of one mounted region. */
  datatype Region = Region(scrollTop: int, scrollHeight: int, clientHeight: int)

  /** Largest offset the region's content allows. */
  function MaxScrollTop(r: Region): int {
    r.scrollHeight - r.clientHeight
  }

  /** `checkScrollEnd`: what is left to scroll is within the tolerance. */
  function AtEnd(r: Region): (atEnd: bool)
    ensures atEnd <==> MaxScrollTop(r) - r.scrollTop <= EndTolerance
  {
    r.scrollTop + r.clientHeight >= r.scrollHeight - EndTolerance
  }

  /** Whether a region is at its end depends only on how far it is scrolled: it holds from
      the threshold `MaxScrollTop(r) - EndTolerance` down to the bottom and nowhere above. */
  lemma AtEndThreshold(r: Region, top: int, lower: int)
    requires lower <= top
    ensures AtEnd(MovedTo(r, top)) <==> top >= MaxScrollTop(r) - EndTolerance
    ensures AtEnd(MovedTo(r, lower)) ==> AtEnd(MovedTo(r, top))
  {
  }

  /** The region after the host has moved it to `top`. */
  function MovedTo(r: Region, top: int): Region {
    r.(scrollTop := top)
  }

  datatype State = State(
    left: Option<Region>,   // leftRef.current
    right: Option<Region>,  // rightRef.current
    syncing: bool,          // isScrolling.current
    current: Option<nat>,   // scrollTimeout.current
    timers: set<nat>,       // timers scheduled with the host and not yet fired or cleared
    nextTimer: nat,         // id the host hands out for the next setTimeout
    mounted: bool)

  /** Host and hook events, in the order the single event loop delivers them. */
  datatype Event =
    | Move(side: Side, top: int)      // the user moves a region; no handler runs
    | Scroll(source: Side, top: int)  // handleLeftScroll / handleRightScroll
    | TimerFire(id: nat)              // the host runs the callback of timer `id`
    | Unmount

  /** State right after mounting: nothing in flight, no timer. */
  function Init(left: Option<Region>, right: Option<Region>): State {
    State(left, right, false, None, {}, FirstTimerId, true)
  }

  function Ref(s: State, side: Side): Option<Region> {
    match side
    case Left => s.left
    case Right => s.right
  }

  function WithRef(s: State, side: Side, r: Option<Region>): State {
    match side
    case Left => s.(left := r)
    case Right => s.(right := r)
  }

  /** The timers the hook still holds a handle to (at most the current one). */
  function Held(s: State): set<nat> {
    match s.current
    case None => {}
    case Some(id) => {id}
  }

  /** Invariant: every pending timer is the one `scrollTimeout.current` names. */
  predicate OneTimer(s: State) {
    s.timers <= Held(s)
  }

  /** `clearTimeout(scrollTimeout.current)`; clearing a fired timer or `undefined` does nothing. */
  function ClearTimer(s: State): (s': State)
    ensures s'.timers == s.timers - Held(s)
    ensures s' == s.(timers := s'.timers)
  {
    match s.current
    case None => s
    case Some(id) => s.(timers := s.timers - {id})
  }

  /** `scrollTimeout.current = setTimeout(...)`: a fresh id from the host, now pending. */
  function SetTimer(s: State): State {
    s.(current := Some(s.nextTimer), timers := s.timers + {s.nextTimer}, nextTimer := s.nextTimer + 1)
  }

  /** The source ref is null while the target ref is set: `checkScrollEnd(leftRef.current!)`
      (or the right-hand twin) reads the fields of null and throws after the flag was set and
      before the timer is restarted. */
  predicate Throws(s: State, source: Side) {
    !s.syncing && Ref(s, Other(source)).Some? && Ref(s, source).None?
  }

  /** The event is accepted: the flag was clear. */
  predicate Accepted(s: State) {
    !s.syncing
  }

  /** The event's offset reaches the other region. */
  predicate Propagates(s: State, source: Side) {
    && Accepted(s)
    && Ref(s, source).Some?
    && Ref(s, Other(source)).Some?
    && !AtEnd(Ref(s, source).value)
  }

  /** `syncScroll(source, top)`. */
  function SyncScroll(s: State, source: Side, top: int): (s': State)
    // an echo arriving while the flag is set changes nothing, timers included
    ensures !Accepted(s) ==> s' == s
    // the flag is set afterwards in every case
    ensures s'.syncing
    // the source region is never written and nothing is attached or detached
    ensures Ref(s', source) == Ref(s, source)
    ensures Ref(s', Other(source)).Some? <==> Ref(s, Other(source)).Some?
    ensures s'.mounted == s.mounted
    // the target gets exactly the event's offset, and only when propagation happens
    ensures Propagates(s, source) ==>
              Ref(s', Other(source)) == Some(MovedTo(Ref(s, Other(source)).value, top))
    ensures !Propagates(s, source) ==> Ref(s', Other(source)) == Ref(s, Other(source))
    // an accepted event that does not throw leaves exactly one pending timer, a fresh one
    ensures Accepted(s) && !Throws(s, source) ==>
              s'.current == Some(s.nextTimer) && s'.nextTimer == s.nextTimer + 1
    ensures Accepted(s) && !Throws(s, source) && OneTimer(s) ==> s'.timers == {s.nextTimer}
    // a throwing call leaves the timers as they were
    ensures Throws(s, source) ==>
              s'.timers == s.timers && s'.current == s.current && s'.nextTimer == s.nextTimer
  {
    if s.syncing then s
    else
      var flagged := s.(syncing := true);
      var target := Other(source);
      match Ref(s, target)
      case None => SetTimer(ClearTimer(flagged))
      case Some(t) =>
        match Ref(s, source)
        case None => flagged
        case Some(src) =>
          if AtEnd(src) then SetTimer(ClearTimer(flagged))
          else SetTimer(ClearTimer(WithRef(flagged, target, Some(MovedTo(t, top)))))
  }

  /** The timer callback: clear the flag. A timer that is not pending cannot fire. */
  function FireTimer(s: State, id: nat): (s': State)
    ensures id in s.timers ==> !s'.syncing && id !in s'.timers
    ensures id !in s.timers ==> s' == s
    ensures id in s.timers ==> s'.timers == s.timers - {id}
    ensures s'.left == s.left && s'.right == s.right && s'.current == s.current
    ensures s'.mounted == s.mounted && s'.nextTimer == s.nextTimer
    ensures s'.timers <= s.timers
  {
    if id in s.timers then s.(syncing := false, timers := s.timers - {id}) else s
  }

  /** Unmount: React detaches both refs, and the cleanup effect clears the pending timer. */
  function Teardown(s: State): (s': State)
    ensures s'.left.None? && s'.right.None? && !s'.mounted
    ensures OneTimer(s) ==> s'.timers == {}
    ensures s'.timers == s.timers - Held(s)
    ensures s'.syncing == s.syncing && s'.current == s.current && s'.nextTimer == s.nextTimer
  {
    // the truthiness test on `scrollTimeout.current`; ClearTimer on no handle is the identity too
    var cleared := if s.current.Some? then ClearTimer(s) else s;
    cleared.(left := None, right := None, mounted := false)
  }

  /** The user moves a mounted region; an unattached one has nothing to move. */
  function MoveRegion(s: State, side: Side, top: int): State {
    match Ref(s, side)
    case None => s
    case Some(r) => WithRef(s, side, Some(MovedTo(r, top)))
  }

  function Step(s: State, e: Event): State {
    match e
    case Move(side, top) => MoveRegion(s, side, top)
    case Scroll(source, top) => SyncScroll(s, source, top)
    case TimerFire(id) => FireTimer(s, id)
    case Unmount => Teardown(s)
  }

  function Run(s: State, events: seq<Event>): State
    decreases |events|
  {
    if |events| == 0 then s else Run(Step(s, events[0]), events[1..])
  }
}
