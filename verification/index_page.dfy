/**
  The product page's own scroll mirroring and fullscreen flag. Unlike the
  joint-scroll hook it has no re-entrancy flag, no end check and no timer: a
  scroll on one column copies the offset into the other column and into that
  column's position state. React state updates are modelled as immediate
  assignments.
 */
module IndexPage {
  import opened Options
  import opened Sides

  datatype Page = Page(
    leftColumn: Option<int>,   // leftColumnRef.current, by its scrollTop
    rightColumn: Option<int>,  // rightColumnRef.current, by its scrollTop
    leftPosition: int,         // leftScrollPosition
    rightPosition: int,        // rightScrollPosition
    isFullscreen: bool)

  /** First render: positions 0, not fullscreen. */
  function Init(leftColumn: Option<int>, rightColumn: Option<int>): Page {
    Page(leftColumn, rightColumn, 0, 0, false)
  }

  function Column(p: Page, side: Side): Option<int> {
    match side
    case Left => p.leftColumn
    case Right => p.rightColumn
  }

  function Position(p: Page, side: Side): int {
    match side
    case Left => p.leftPosition
    case Right => p.rightPosition
  }

  /** `handleScroll(source, top)`. */
  function HandleScroll(p: Page, source: Side, top: int): (p': Page)
    // a present target column and its position state both take the event's offset
    ensures Column(p, Other(source)).Some? ==>
              Column(p', Other(source)) == Some(top) && Position(p', Other(source)) == top
    // with no target column, nothing happens at all
    ensures Column(p, Other(source)).None? ==> p' == p
    // the source column and its position state are never written
    ensures Column(p', source) == Column(p, source) && Position(p', source) == Position(p, source)
    ensures p'.isFullscreen == p.isFullscreen
  {
    if source == Left && p.rightColumn.Some? then
      p.(rightColumn := Some(top), rightPosition := top)
    else if source == Right && p.leftColumn.Some? then
      p.(leftColumn := Some(top), leftPosition := top)
    else
      p
  }

  /** `toggleFullscreen`. */
  function ToggleFullscreen(p: Page): (p': Page)
    ensures p'.isFullscreen != p.isFullscreen
    ensures p' == p.(isFullscreen := p'.isFullscreen)
  {
    p.(isFullscreen := !p.isFullscreen)
  }

  datatype PageEvent =
    | Moved(side: Side, top: int)       // the user moves a column; no handler runs
    | Scrolled(source: Side, top: int)  // the column's onScroll calls handleScroll
    | FullscreenClicked

  function MoveColumn(p: Page, side: Side, top: int): Page {
    match side
    case Left => if p.leftColumn.Some? then p.(leftColumn := Some(top)) else p
    case Right => if p.rightColumn.Some? then p.(rightColumn := Some(top)) else p
  }

  function Step(p: Page, e: PageEvent): Page {
    match e
    case Moved(side, top) => MoveColumn(p, side, top)
    case Scrolled(source, top) => HandleScroll(p, source, top)
    case FullscreenClicked => ToggleFullscreen(p)
  }

  function Run(p: Page, events: seq<PageEvent>): Page
    decreases |events|
  {
    if |events| == 0 then p else Run(Step(p, events[0]), events[1..])
  }

  lemma {:induction false} RunAppend(p: Page, a: seq<PageEvent>, b: seq<PageEvent>)
    ensures Run(p, a + b) == Run(Run(p, a), b)
    decreases |a|
  {
    if |a| == 0 {
      assert a + b == b;
    } else {
      assert (a + b)[1..] == a[1..] + b;
      RunAppend(Step(p, a[0]), a[1..], b);
    }
  }

  /** Two clicks restore the page exactly. */
  lemma ToggleTwice(p: Page)
    ensures ToggleFullscreen(ToggleFullscreen(p)) == p
  {
  }

  /** There is no guard: the scroll event the propagated write causes on the target runs the
      handler again, which writes the same offset back into the source column and sets the
      source's position state too. */
  lemma EchoWritesBack(p: Page, source: Side, top: int)
    requires p.leftColumn.Some? && p.rightColumn.Some?
    ensures var written := HandleScroll(p, source, top);
            var echoed := HandleScroll(written, Other(source), top);
            && Column(echoed, source) == Some(top) && Position(echoed, source) == top
            && Column(echoed, Other(source)) == Some(top) && Position(echoed, Other(source)) == top
  {
  }

  /** A user gesture: the host moves the column and its onScroll runs the handler; the
      handler's write moves the other column, whose onScroll then runs the handler back. */
  function Gesture(side: Side, top: int): seq<PageEvent> {
    [Moved(side, top), Scrolled(side, top), Scrolled(Other(side), top)]
  }

  function Gestures(side: Side, tops: seq<int>): seq<PageEvent>
    decreases |tops|
  {
    if |tops| == 0 then [] else Gesture(side, tops[0]) + Gestures(side, tops[1..])
  }

  /** One gesture with both columns present, echo included, leaves both columns and both
      position states on the gesture's offset. */
  lemma GestureEffect(p: Page, side: Side, top: int)
    requires p.leftColumn.Some? && p.rightColumn.Some?
    ensures var r := Run(p, Gesture(side, top));
            && Column(r, side) == Some(top) && Column(r, Other(side)) == Some(top)
            && Position(r, side) == top && Position(r, Other(side)) == top
            && r.isFullscreen == p.isFullscreen
  {
    var g := Gesture(side, top);
    var moved := Step(p, g[0]);
    assert Column(moved, side) == Some(top);
    assert Column(moved, Other(side)) == Column(p, Other(side));
    assert moved.isFullscreen == p.isFullscreen;
    var written := Step(moved, g[1]);
    var echoed := Step(written, g[2]);
    assert Other(Other(side)) == side;
    assert Run(p, g) == Run(moved, g[1..]);
    assert Run(moved, g[1..]) == Run(written, g[1..][1..]);
    assert Run(written, g[1..][1..]) == Run(echoed, g[1..][1..][1..]);
    assert g[1..][1..][1..] == [];
  }

  /** Mirroring: after any non-empty run of gestures on one column, both columns and both
      position states hold the last offset. */
  lemma {:induction false} GesturesMirror(p: Page, side: Side, tops: seq<int>)
    requires p.leftColumn.Some? && p.rightColumn.Some?
    requires |tops| > 0
    ensures var r := Run(p, Gestures(side, tops));
            && Column(r, side) == Some(tops[|tops| - 1])
            && Column(r, Other(side)) == Some(tops[|tops| - 1])
            && Position(r, side) == tops[|tops| - 1]
            && Position(r, Other(side)) == tops[|tops| - 1]
            && r.isFullscreen == p.isFullscreen
    decreases |tops|
  {
    var g := Gesture(side, tops[0]);
    GestureEffect(p, side, tops[0]);
    var mid := Run(p, g);
    RunAppend(p, g, Gestures(side, tops[1..]));
    if |tops| > 1 {
      assert mid.leftColumn.Some? && mid.rightColumn.Some? by {
        assert Column(mid, Left).Some? && Column(mid, Right).Some?;
      }
      GesturesMirror(mid, side, tops[1..]);
    } else {
      assert Gestures(side, tops[1..]) == [];
    }
  }
}
