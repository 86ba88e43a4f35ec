# Scroll synchronisation and fullscreen state of the product page

This project models the three pieces of behaviour in the product-detail page UI
that are more than markup, each as an event-driven state machine with pure
transition functions.

- **Joint-scroll hook** (`useJointScroll`), modules `JointScroll` and
  `JointScrollRuns`. Two scrollable regions, left and right, have their
  vertical offsets mirrored. A scroll on one region copies the event's offset
  into the other region. The re-entrancy flag `isScrolling` drops the echo
  events that these writes cause. While the scrolled region is within 5 px of
  its end, nothing is propagated. A 100 ms timer clears the flag, and every
  accepted event restarts it. Unmounting clears the pending timer.
  - The state holds both refs (`Option<Region>`, since a ref may be null), the
    flag, and `scrollTimeout.current`. It also holds the host's pending timers
    and the id the host hands out next.
  - Time is replaced by an explicit `TimerFire(id)` event.
  - Timers are tracked by id, not by a single boolean, so "clear, then set,
    leaves exactly one pending timer" is proved (`OneTimer`, `Live`). It is not
    true merely by construction.
- **Plain mirroring on the page** (`handleScroll` and `toggleFullscreen` in
  `Index.tsx`), module `IndexPage`. This variant has no flag, no end check and
  no timer. A scroll copies the offset into the other column and into that
  column's position state. Because there is no guard, the echo writes back.
- **Fullscreen hook** (`useFullscreen`), module `Fullscreen`. It has a
  component flag `isFullscreen`, the document body's `overflow` style, and
  whether the component is still mounted. The operations are enter, exit,
  toggle, the Escape `keydown` listener and unmount.

Behaviours of the code that the model keeps, and proves:

- In `syncScroll`, the source region is checked with a non-null assertion. If
  the source ref is null while the target ref is set, `checkScrollEnd` reads
  the fields of null and throws. The flag is already set at that point, and no
  timer has been restarted.
  - The model keeps this path as the predicate `Throws`.
  - `ThrowStrandsFlag` and `StrandedStaysStranded` show that from then on the
    flag stays set, so every later scroll is dropped.
  - The path cannot be reached if a caller binds each handler to the
    `onScroll` of the element its own ref names. No caller of the hook is part
    of this model, so this is an assumption about callers, not a fact about
    the page. The run invariant `RunKeepsLive` states it as `Wired`.
- The fullscreen hook's cleanup sets the body's `overflow` to the empty string.
  A retained `enterFullscreen` called after unmount still writes `hidden` to
  the body, while React drops its state update (`LateEnterLocksBody`).

Behaviours of the code worth noting:

- `Scroll(source, top)` generalises the two handlers by leaving `top` free.
  The handlers themselves pass `e.currentTarget.scrollTop`, the source's
  current offset, which the gesture lemmas reproduce by moving the source to
  `top` first.
- Scrolls inside one debounce window are dropped, not queued. A quick burst
  leaves the other region on the FIRST offset of the window while the source
  ends on the last (`BurstKeepsFirstOffset`, `BurstScenario`).
- The page's plain variant has no suppression flag at all. Its echo runs the
  handler back and writes the source's position state too.
- A null source ref with a mounted target throws. It is not a silent no-op.
- Unmounting the hook clears only the timer whose handle it holds. Listeners
  are React props and are not removed explicitly.

## Model

| member | source | states |
|---|---|---|
| JointScroll.AtEnd | client/hooks/useJointScroll.ts:14-17 | a region is at its end exactly when what is left to scroll (content height minus viewport minus offset) is at most the 5 px tolerance |
| JointScroll.AtEndThreshold | client/hooks/useJointScroll.ts:14-17 | at-end depends only on the offset: it holds exactly from the threshold (largest offset minus 5) downward, so a region that is at its end stays so when scrolled further down |
| JointScroll.SyncScroll | client/hooks/useJointScroll.ts:19-41 | an event arriving while the flag is set changes nothing, timers included; afterwards the flag is always set; the source region is never written; the target takes exactly the event's offset when the event is accepted, both refs are set and the source is not at its end, and is untouched otherwise; an accepted event that does not throw leaves exactly one pending timer, a fresh one, replacing the earlier one, even when the target is null or propagation was suppressed; the throwing path leaves the timers untouched |
| JointScroll.FireTimer | client/hooks/useJointScroll.ts:38-40 | the callback of a pending timer clears the flag and retires exactly that timer; the regions, the held handle, the other pending timers, the host's next id and the mounted state are untouched; a timer that is not pending cannot fire |
| JointScroll.Teardown | client/hooks/useJointScroll.ts:51-57 | unmount detaches both refs and removes exactly the held timer from the pending ones, so with only the held timer pending none is left; the flag, the held handle and the host's next id are left as they were |
| JointScrollRuns.ScrollsWhileSyncingDropped | client/hooks/useJointScroll.ts:20 | while the flag is set, any burst of scroll notifications on either side, echoes included, leaves the whole state unchanged: no write, no timer cancelled or rescheduled |
| JointScrollRuns.TimerReopens | client/hooks/useJointScroll.ts:36-40 | when the only pending timer fires, the flag clears with the regions untouched, and the next notification on either side is accepted and propagates its offset |
| JointScrollRuns.InitIsLive | client/hooks/useJointScroll.ts:11-12 | after mounting the flag is clear, no timer is pending, and the liveness invariant holds |
| JointScrollRuns.StepKeepsLive | client/hooks/useJointScroll.ts:19-57 | every event that cannot take the null-source path preserves the invariant: the only pending timer is the held one, and while mounted a timer is pending exactly when the flag is set |
| JointScrollRuns.RunKeepsLive | client/hooks/useJointScroll.ts:19-57 | the invariant holds along every run whose notifications come from wired sides, so the flag is never stranded while mounted |
| JointScrollRuns.StepKeepsCannotThrow | client/hooks/useJointScroll.ts:24-31 | no event lets a side that could not take the null-source path start taking it |
| JointScrollRuns.ThrowStrandsFlag | client/hooks/useJointScroll.ts:22-37 | the null-source path leaves the flag set with no pending timer and both regions unwritten |
| JointScrollRuns.StrandedStaysStranded | client/hooks/useJointScroll.ts:20-40 | once the flag is set with no timer pending, it stays so through every later run of events |
| JointScrollRuns.UnmountIdempotent | client/hooks/useJointScroll.ts:51-57 | unmounting a second time has no effect beyond the first |
| JointScrollRuns.NothingAfterUnmount | client/hooks/useJointScroll.ts:51-57 | once unmounted, no run of events attaches or writes a region again; with no timer pending and no handler called late, nothing changes at all |
| JointScrollRuns.UnmountThenNothing | client/hooks/useJointScroll.ts:51-57 | after unmount no later event writes either region, and without late handler calls no timer fires, so the flag is never reset |
| JointScrollRuns.GestureEffect | client/hooks/useJointScroll.ts:19-49 | one user gesture (host move, handler, timer expiry) from an idle state puts the source on the offset, moves the other region to the same offset unless the source is now at its end, and leaves the hook idle |
| JointScrollRuns.GesturesMirror | client/hooks/useJointScroll.ts:24-28 | after any non-empty run of gestures on one side that never reaches the end, each followed by the timer's expiry, both regions sit on the last gesture's offset |
| JointScrollRuns.GesturesAtEndSuppressed | client/hooks/useJointScroll.ts:24-34 | while every gesture leaves the source at its end, the other region is never written, however the source keeps moving |
| JointScrollRuns.StrokesWhileSyncing | client/hooks/useJointScroll.ts:20 | while the flag is set, any run of host moves and handler calls on one side only moves that side to its last offset; nothing else changes |
| JointScrollRuns.BurstKeepsFirstOffset | client/hooks/useJointScroll.ts:19-44 | a non-empty burst of scrolls on one side inside one debounce window propagates only the first offset: the other region stays on it, the source ends on the last, and the first stroke's timer is the only pending one |
| JointScrollRuns.BurstScenario | client/hooks/useJointScroll.ts:19-44 | scrolling left to 100 and then 200 before the timer fires leaves the right region on 100, and the hook is idle again after the timer fires |
| JointScrollRuns.EndSuppressionScenario | client/hooks/useJointScroll.ts:14-34 | with content 1000 and viewport 400, scrolling left to 550 carries the right to 550, and scrolling left on to 601 is at the end and leaves the right at 550 |
| JointScrollRuns.DebounceScenario | client/hooks/useJointScroll.ts:20-40 | a notification on the target before the timer expires is ignored; the same notification after expiry is honoured |
| IndexPage.HandleScroll | client/pages/Index.tsx:12-20 | a present target column and its position state both take the event's offset; with no target column nothing changes; the source column, its position state and the fullscreen flag are never written |
| IndexPage.ToggleFullscreen | client/pages/Index.tsx:22-24 | the flag is negated and nothing else changes |
| IndexPage.ToggleTwice | client/pages/Index.tsx:22-24 | two toggles restore the page exactly |
| IndexPage.EchoWritesBack | client/pages/Index.tsx:12-20 | with no guard, the echo of a propagated write runs the handler on the target and writes the same offset back into the source column and the source's position state |
| IndexPage.GestureEffect | client/pages/Index.tsx:12-20 | one gesture with both columns present (host move, handler, and the handler run back by the echo on the moved target) leaves both columns and both position states on the offset, and the fullscreen flag alone |
| IndexPage.GesturesMirror | client/pages/Index.tsx:12-20 | after any non-empty run of gestures on one column, echoes included, both columns and both position states hold the last offset |
| Fullscreen.Enter | client/hooks/useFullscreen.ts:6-10 | the body's overflow becomes "hidden"; a mounted component becomes fullscreen; after unmount the state update is dropped |
| Fullscreen.Exit | client/hooks/useFullscreen.ts:12-16 | the body's overflow becomes ""; a mounted component leaves fullscreen; after unmount the state update is dropped |
| Fullscreen.Toggle | client/hooks/useFullscreen.ts:18-24 | the body's overflow becomes "" when leaving fullscreen and "hidden" when entering; while mounted, the flag flips and the body is locked exactly when fullscreen |
| Fullscreen.ToggleIsEnterOrExit | client/hooks/useFullscreen.ts:18-24 | toggling is exactly exit when fullscreen and exactly enter otherwise |
| Fullscreen.KeyDown | client/hooks/useFullscreen.ts:26-36 | Escape while mounted and fullscreen leaves fullscreen and unlocks the body; any other key, Escape outside fullscreen, or any key after the listener is removed changes nothing |
| Fullscreen.Teardown | client/hooks/useFullscreen.ts:38-43 | unmount sets the body's overflow to "" and removes the listener, leaving the flag as it was |
| Fullscreen.InitialState | client/hooks/useFullscreen.ts:4 | the component starts outside fullscreen, and starts consistent exactly when the body was not already locked |
| Fullscreen.CallsRestoreConsistency | client/hooks/useFullscreen.ts:6-24 | after any enter, exit or toggle while mounted, the body is locked exactly when fullscreen |
| Fullscreen.ToggleTwice | client/hooks/useFullscreen.ts:18-24 | two toggles while mounted restore the flag, with the body style agreeing |
| Fullscreen.EscapeIsExit | client/hooks/useFullscreen.ts:28-32 | Escape in fullscreen is exactly exit; Escape outside fullscreen, or any other key, is the identity |
| Fullscreen.RunKeepsConsistency | client/hooks/useFullscreen.ts:6-43 | once the body agrees with the flag, it agrees after every run of events for as long as the component is mounted |
| Fullscreen.QuietAfterUnmount | client/hooks/useFullscreen.ts:26-43 | after unmount, key presses and repeated unmounts change nothing |
| Fullscreen.LateEnterLocksBody | client/hooks/useFullscreen.ts:6-10 | a retained enter called after unmount locks the body while the flag stays false, leaving body and flag out of step |

## Left out

- All JSX markup, layout and styling in `Index.tsx` and the other components
  are presentational and not modelled. This includes the recommendation
  drawer's colour lookups and static product list, the styled button, and the
  expandable section's open/closed toggle, which only selects CSS classes.
- React hook machinery is not modelled. This covers `useCallback`
  memoisation, stale closures, re-render timing and batched state updates.
  State setters are immediate assignments, and callbacks read the current
  state.
- Real time is not modelled. The 100 ms delay never appears, and a timer's
  expiry is the explicit `TimerFire(id)` event. The host's timer ids are
  consecutive naturals starting at 1.
- Scroll offsets and heights are integers. The host's fractional offsets and
  its clamping of a written `scrollTop` into `[0, scrollHeight - clientHeight]`
  are not modelled: a write is a plain assignment.
- The browser does not dispatch scroll events by itself in this model.
  - The echo of a write is an explicit `Scroll` event on the target.
  - The browser's rule that an unchanged offset fires no event is not
    modelled. That rule is what stops the page variant's write-back from
    repeating.
- Adding and removing the `keydown` listener on the document is reduced to
  the fullscreen state's `mounted` flag.
- After the null-source `TypeError` in `syncScroll`, only the state at the
  throw point is modelled. How the error is reported is not.
- JointScrollRuns.GesturesMirror: mirroring to the last offset needs the timer
  to expire between gestures. Within one debounce window only the first offset
  propagates (`BurstKeepsFirstOffset`).
- IndexPage.GestureEffect: the gesture always includes the echo. When the
  other column already sits on the offset, the browser dispatches no echo, and
  the source's position state keeps its earlier value. That case is not
  modelled.
- IndexPage.GesturesMirror: the same assumption about the echo as
  `IndexPage.GestureEffect`.
