/** Properties of the joint-scroll hook over single events and event sequences. */
module JointScrollRuns {
  import opened Options
  import opened Sides
  import opened JointScroll

  lemma {:induction false} RunAppend(s: State, a: seq<Event>, b: seq<Event>)
    ensures Run(s, a + b) == Run(Run(s, a), b)
    decreases |a|
  {
    if |a| == 0 {
      assert a + b == b;
    } else {
      assert (a + b)[1..] == a[1..] + b;
      RunAppend(Step(s, a[0]), a[1..], b);
    }
  }

  predicate AllScrolls(events: seq<Event>) {
    forall i :: 0 <= i < |events| ==> events[i].Scroll?
  }

  /** While the flag is set, any burst of scroll notifications on either region, echoes of
      the hook's own writes included, is dropped: no region, flag or timer changes. */
  lemma {:induction false} ScrollsWhileSyncingDropped(s: State, events: seq<Event>)
    requires s.syncing
    requires AllScrolls(events)
    ensures Run(s, events) == s
    decreases |events|
  {
    if |events| > 0 {
      assert events[0].Scroll?;
      assert Step(s, events[0]) == s;
      ScrollsWhileSyncingDropped(s, events[1..]);
    }
  }

  /** The pending timer's expiry clears the flag without touching the regions, and the next
      notification on either side is accepted again. */
  lemma TimerReopens(s: State, source: Side, top: int)
    requires OneTimer(s) && s.timers != {}
    ensures var fired := Step(s, TimerFire(s.current.value));
            && !fired.syncing && fired.timers == {}
            && fired.left == s.left && fired.right == s.right
            && Accepted(fired)
            && (Ref(fired, source).Some? && Ref(fired, Other(source)).Some? &&
                !AtEnd(Ref(fired, source).value) ==>
                  Ref(Step(fired, Scroll(source, top)), Other(source)).value.scrollTop == top)
  {
  }

  /** The hook never strands its flag while mounted: a pending timer exists exactly when the
      flag is set, and it is the only pending timer. */
  predicate Live(s: State) {
    && OneTimer(s)
    && (s.timers != {} ==> s.syncing)
    && (s.mounted && s.syncing ==> s.timers != {})
  }

  /** A notification from `side` cannot hit the null-source path. */
  predicate CannotThrow(s: State, side: Side) {
    Ref(s, side).Some? || Ref(s, Other(side)).None?
  }

  /** Every scroll notification in `events` comes from a side that cannot throw in `s`. This
      holds assuming a caller binds each handler to the element its own ref names. */
  predicate Wired(s: State, events: seq<Event>) {
    forall i :: 0 <= i < |events| ==> events[i].Scroll? ==> CannotThrow(s, events[i].source)
  }

  lemma StepKeepsCannotThrow(s: State, e: Event, side: Side)
    requires CannotThrow(s, side)
    ensures CannotThrow(Step(s, e), side)
  {
  }

  lemma StepKeepsLive(s: State, e: Event)
    requires Live(s)
    requires e.Scroll? ==> CannotThrow(s, e.source)
    ensures Live(Step(s, e))
  {
  }

  /** Live holds along every run whose notifications come from wired sides. */
  lemma {:induction false} RunKeepsLive(s: State, events: seq<Event>)
    requires Live(s)
    requires Wired(s, events)
    ensures Live(Run(s, events))
    decreases |events|
  {
    if |events| > 0 {
      var next := Step(s, events[0]);
      StepKeepsLive(s, events[0]);
      forall i | 0 <= i < |events[1..]| && events[1..][i].Scroll?
        ensures CannotThrow(next, events[1..][i].source)
      {
        assert events[i + 1].Scroll?;
        StepKeepsCannotThrow(s, events[0], events[1..][i].source);
      }
      RunKeepsLive(next, events[1..]);
    }
  }

  lemma InitIsLive(left: Option<Region>, right: Option<Region>)
    ensures Live(Init(left, right)) && !Init(left, right).syncing
  {
  }

  /** The null-source path leaves the flag set with no timer to clear it. */
  lemma ThrowStrandsFlag(s: State, source: Side, top: int)
    requires Live(s)
    requires Throws(s, source)
    ensures var s' := SyncScroll(s, source, top);
            s'.syncing && s'.timers == {} && s'.left == s.left && s'.right == s.right
  {
  }

  /** Once stranded, the flag stays set for good: every later notification is dropped and
      no timer ever fires. */
  lemma {:induction false} StrandedStaysStranded(s: State, events: seq<Event>)
    requires s.syncing && s.timers == {}
    ensures Run(s, events).syncing && Run(s, events).timers == {}
    decreases |events|
  {
    if |events| > 0 {
      var next := Step(s, events[0]);
      match events[0] {
        case Move(side, top) =>
          assert next.syncing == s.syncing && next.timers == s.timers by {
            if Ref(s, side).Some? {
              assert next == WithRef(s, side, Some(MovedTo(Ref(s, side).value, top)));
            }
          }
        case Scroll(source, top) =>
        case TimerFire(id) =>
        case Unmount =>
          assert next.timers <= s.timers;
      }
      StrandedStaysStranded(next, events[1..]);
    }
  }

  /** Unmounting twice has no effect beyond the first unmount. */
  lemma UnmountIdempotent(s: State)
    ensures Teardown(Teardown(s)) == Teardown(s)
  {
  }

  predicate NoScrolls(events: seq<Event>) {
    forall i :: 0 <= i < |events| ==> !events[i].Scroll?
  }

  /** After unmount nothing can write a region again: both refs stay detached whatever
      arrives, and unless a retained handler is called late, no timer fires and the flag
      is never reset. */
  lemma {:induction false} NothingAfterUnmount(s: State, events: seq<Event>)
    requires s.left.None? && s.right.None? && !s.mounted
    ensures Run(s, events).left.None? && Run(s, events).right.None?
    ensures NoScrolls(events) && OneTimer(s) && s.timers == {} ==> Run(s, events) == s
    decreases |events|
  {
    if |events| > 0 {
      var next := Step(s, events[0]);
      assert next.left.None? && next.right.None? && !next.mounted;
      if NoScrolls(events) && OneTimer(s) && s.timers == {} {
        assert !events[0].Scroll?;
        assert next == s;
        assert NoScrolls(events[1..]) by {
          forall i | 0 <= i < |events[1..]| ensures !events[1..][i].Scroll? {
            assert events[1..][i] == events[i + 1];
          }
        }
      }
      NothingAfterUnmount(next, events[1..]);
    }
  }

  lemma UnmountThenNothing(s: State, events: seq<Event>)
    requires OneTimer(s)
    ensures Run(Teardown(s), events).left.None? && Run(Teardown(s), events).right.None?
    ensures NoScrolls(events) ==> Run(Teardown(s), events) == Teardown(s)
  {
    NothingAfterUnmount(Teardown(s), events);
  }

  /** A user scroll gesture: the host moves the region, its handler runs, and the timer the
      handler scheduled (id `id`) expires before the next gesture. */
  function Gesture(side: Side, top: int, id: nat): seq<Event> {
    [Move(side, top), Scroll(side, top), TimerFire(id)]
  }

  /** Gestures on one side; the host hands out consecutive timer ids from `firstId`. */
  function Gestures(side: Side, tops: seq<int>, firstId: nat): seq<Event>
    decreases |tops|
  {
    if |tops| == 0 then [] else Gesture(side, tops[0], firstId) + Gestures(side, tops[1..], firstId + 1)
  }

  /** Both regions mounted and nothing in flight. */
  predicate Idle(s: State) {
    s.mounted && !s.syncing && s.timers == {} && s.left.Some? && s.right.Some?
  }

  /** One gesture from an idle state: the source lands on `top`, the other region follows
      unless the source is at its end, and the hook is idle again. */
  lemma GestureEffect(s: State, side: Side, top: int)
    requires Idle(s)
    ensures var r := Run(s, Gesture(side, top, s.nextTimer));
            var moved := MovedTo(Ref(s, side).value, top);
            && Idle(r) && r.nextTimer == s.nextTimer + 1
            && Ref(r, side) == Some(moved)
            && Ref(r, Other(side)) == (if AtEnd(moved) then Ref(s, Other(side))
                                        else Some(MovedTo(Ref(s, Other(side)).value, top)))
  {
    var g := Gesture(side, top, s.nextTimer);
    var s1 := Step(s, g[0]);
    assert s1 == WithRef(s, side, Some(MovedTo(Ref(s, side).value, top)));
    assert Ref(s1, Other(side)) == Ref(s, Other(side));
    var s2 := Step(s1, g[1]);
    var s3 := Step(s2, g[2]);
    assert s3.timers == {};
    assert Run(s, g) == Run(s1, g[1..]);
    assert Run(s1, g[1..]) == Run(s2, g[1..][1..]);
    assert Run(s2, g[1..][1..]) == Run(s3, g[1..][1..][1..]);
    assert g[1..][1..][1..] == [];
  }

  /** With end suppression out of play, the other region ends on the offset of the last
      gesture: perfect mirroring. */
  lemma {:induction false} GesturesMirror(s: State, side: Side, tops: seq<int>)
    requires Idle(s)
    requires |tops| > 0
    requires forall i :: 0 <= i < |tops| ==> !AtEnd(MovedTo(Ref(s, side).value, tops[i]))
    ensures var r := Run(s, Gestures(side, tops, s.nextTimer));
            && Idle(r)
            && Ref(r, side).value.scrollTop == tops[|tops| - 1]
            && Ref(r, Other(side)).value.scrollTop == tops[|tops| - 1]
    decreases |tops|
  {
    var g := Gesture(side, tops[0], s.nextTimer);
    var rest := Gestures(side, tops[1..], s.nextTimer + 1);
    GestureEffect(s, side, tops[0]);
    var mid := Run(s, g);
    RunAppend(s, g, rest);
    if |tops| > 1 {
      forall i | 0 <= i < |tops[1..]|
        ensures !AtEnd(MovedTo(Ref(mid, side).value, tops[1..][i]))
      {
        assert MovedTo(Ref(mid, side).value, tops[1..][i]) == MovedTo(Ref(s, side).value, tops[i + 1]);
      }
      GesturesMirror(mid, side, tops[1..]);
    }
  }

  /** While every gesture leaves the source at its end, the other region is never written,
      however far the source keeps moving. */
  lemma {:induction false} GesturesAtEndSuppressed(s: State, side: Side, tops: seq<int>)
    requires Idle(s)
    requires forall i :: 0 <= i < |tops| ==> AtEnd(MovedTo(Ref(s, side).value, tops[i]))
    ensures var r := Run(s, Gestures(side, tops, s.nextTimer));
            Idle(r) && Ref(r, Other(side)) == Ref(s, Other(side))
    decreases |tops|
  {
    if |tops| > 0 {
      var g := Gesture(side, tops[0], s.nextTimer);
      var rest := Gestures(side, tops[1..], s.nextTimer + 1);
      GestureEffect(s, side, tops[0]);
      var mid := Run(s, g);
      RunAppend(s, g, rest);
      forall i | 0 <= i < |tops[1..]|
        ensures AtEnd(MovedTo(Ref(mid, side).value, tops[1..][i]))
      {
        assert MovedTo(Ref(mid, side).value, tops[1..][i]) == MovedTo(Ref(s, side).value, tops[i + 1]);
      }
      GesturesAtEndSuppressed(mid, side, tops[1..]);
    }
  }

  /** Scroll notifications with no timer expiry in between: for each offset the host moves
      the region and its handler runs. */
  function Strokes(side: Side, tops: seq<int>): seq<Event>
    decreases |tops|
  {
    if |tops| == 0 then [] else [Move(side, tops[0]), Scroll(side, tops[0])] + Strokes(side, tops[1..])
  }

  /** While the flag is set, strokes only move the source: every handler call is dropped. */
  lemma {:induction false} StrokesWhileSyncing(s: State, side: Side, tops: seq<int>)
    requires s.syncing && Ref(s, side).Some?
    requires |tops| > 0
    ensures Run(s, Strokes(side, tops)) == WithRef(s, side, Some(MovedTo(Ref(s, side).value, tops[|tops| - 1])))
    decreases |tops|
  {
    var pair := [Move(side, tops[0]), Scroll(side, tops[0])];
    var moved := WithRef(s, side, Some(MovedTo(Ref(s, side).value, tops[0])));
    assert Step(s, pair[0]) == moved;
    assert Step(moved, pair[1]) == moved;
    assert Run(s, pair) == moved by {
      assert Run(s, pair) == Run(moved, pair[1..]);
      assert Run(moved, pair[1..]) == Run(moved, pair[1..][1..]);
      assert pair[1..][1..] == [];
    }
    RunAppend(s, pair, Strokes(side, tops[1..]));
    if |tops| > 1 {
      StrokesWhileSyncing(moved, side, tops[1..]);
      assert Ref(moved, side).Some?;
      assert WithRef(moved, side, Some(MovedTo(Ref(moved, side).value, tops[|tops| - 1])))
          == WithRef(s, side, Some(MovedTo(Ref(s, side).value, tops[|tops| - 1])));
    } else {
      assert Strokes(side, tops[1..]) == [];
    }
  }

  /** A burst of scrolls inside one debounce window: only the first is propagated. The other
      region stays on the first offset while the source ends on the last, and the flag stays
      set with the first stroke's timer as the only pending one. */
  lemma BurstKeepsFirstOffset(s: State, side: Side, tops: seq<int>)
    requires Idle(s)
    requires |tops| > 0
    requires !AtEnd(MovedTo(Ref(s, side).value, tops[0]))
    ensures var r := Run(s, Strokes(side, tops));
            && Ref(r, side) == Some(MovedTo(Ref(s, side).value, tops[|tops| - 1]))
            && Ref(r, Other(side)) == Some(MovedTo(Ref(s, Other(side)).value, tops[0]))
            && r.syncing && r.timers == {s.nextTimer}
  {
    var pair := [Move(side, tops[0]), Scroll(side, tops[0])];
    var moved := WithRef(s, side, Some(MovedTo(Ref(s, side).value, tops[0])));
    assert Step(s, pair[0]) == moved;
    assert Ref(moved, Other(side)) == Ref(s, Other(side));
    var written := Step(moved, pair[1]);
    assert Propagates(moved, side);
    assert Run(s, pair) == written by {
      assert Run(s, pair) == Run(moved, pair[1..]);
      assert Run(moved, pair[1..]) == Run(written, pair[1..][1..]);
      assert pair[1..][1..] == [];
    }
    RunAppend(s, pair, Strokes(side, tops[1..]));
    if |tops| > 1 {
      StrokesWhileSyncing(written, side, tops[1..]);
      var r := WithRef(written, side, Some(MovedTo(Ref(written, side).value, tops[|tops| - 1])));
      assert Ref(r, Other(side)) == Ref(written, Other(side));
    } else {
      assert Strokes(side, tops[1..]) == [];
    }
  }

  /** Two quick scrolls of the left region, to 100 and then to 200, inside one debounce
      window: the right region stays on 100 even after the timer fires. */
  lemma BurstScenario()
    ensures var s0 := Init(Some(Region(0, 1000, 400)), Some(Region(0, 1000, 400)));
            var r := Run(s0, Strokes(Left, [100, 200]) + [TimerFire(1)]);
            && r.left == Some(Region(200, 1000, 400))
            && r.right == Some(Region(100, 1000, 400))
            && !r.syncing && r.timers == {}
  {
    var s0 := Init(Some(Region(0, 1000, 400)), Some(Region(0, 1000, 400)));
    BurstKeepsFirstOffset(s0, Left, [100, 200]);
    RunAppend(s0, Strokes(Left, [100, 200]), [TimerFire(1)]);
  }

  /** Two regions of content height 1000 and viewport 400: scrolling the left one to 550
      (550 + 400 < 995) carries the right one to 550; scrolling it on to 601
      (601 + 400 >= 995) is at the end, and the right one stays at 550. */
  lemma EndSuppressionScenario()
    ensures var s0 := Init(Some(Region(0, 1000, 400)), Some(Region(0, 1000, 400)));
            var s1 := Run(s0, Gesture(Left, 550, 1));
            var s2 := Run(s1, Gesture(Left, 601, 2));
            && s1.right == Some(Region(550, 1000, 400))
            && s2.left == Some(Region(601, 1000, 400))
            && s2.right == Some(Region(550, 1000, 400))
  {
  }

  /** Debounce window: after the left region propagates, a notification on the right region
      before the timer expires is ignored; the same notification after expiry is honoured. */
  lemma DebounceScenario()
    ensures var s0 := Init(Some(Region(0, 1000, 400)), Some(Region(0, 1000, 400)));
            var written := Run(s0, [Move(Left, 200), Scroll(Left, 200)]);
            var early := Run(written, [Move(Right, 300), Scroll(Right, 300)]);
            var late := Run(early, [TimerFire(1), Scroll(Right, 300)]);
            && written.right == Some(Region(200, 1000, 400))
            && early.left == Some(Region(200, 1000, 400))
            && late.left == Some(Region(300, 1000, 400))
  {
  }
}
