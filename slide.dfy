/** The drag-movement state machine of the Slide component.

    A `Slide` keeps a `movement` record of three horizontal offsets in pixels:
    `currentX`, the offset committed by the last finished drag; `clickX`, the
    pointer X where the current drag started; and `finalX`, the offset the
    track shows now. A mouse-down on the wrapper starts a drag and attaches a
    mousemove listener, every mousemove while it is attached moves the track by
    the pointer's travel times an acceleration factor, and a mouse-up detaches
    the listener and commits the shown offset.

    The module first describes the behaviour on values (`DragState`, `Step`,
    `Run`) and proves the properties of drag sessions about those, then gives
    the class whose handlers update their fields in place and are proved to do
    exactly what `Step` says. */
module SlideDrag {

  datatype Option<T> = None | Some(value: T)

  /** How much faster the track moves than the pointer (exactly 8/5). */
  const Accel: real := 1.6

  /** The `movement` record of a slide. */
  datatype Movement = Movement(currentX: real, clickX: real, finalX: real)

  /** Everything a slide's handlers read or write: the movement record,
      whether the mousemove listener is attached (`dragging`), and the offset
      last written to the track's `translate3d` transform (`None` until the
      first write). */
  datatype DragState = DragState(movement: Movement, dragging: bool, transform: Option<real>)

  /** The wrapper's mouse events that reach the slide. */
  datatype Event = MouseDown(clientX: real) | MouseMove(clientX: real) | MouseUp

  /** A freshly constructed slide: all offsets zero, no listener, nothing drawn. */
  function Initial(): DragState
  {
    DragState(Movement(0.0, 0.0, 0.0), false, None)
  }

  /** The live offset for pointer X `clientX` during a drag anchored at
      `m.clickX` on top of the committed offset `m.currentX`. */
  function Position(m: Movement, clientX: real): (r: real)
    // the pointer position can be recovered from the offset
    ensures (r - m.currentX) / Accel + m.clickX == clientX
    // no pointer travel, no movement
    ensures clientX == m.clickX ==> r == m.currentX
    // the track moves the same way as the pointer
    ensures r > m.currentX <==> clientX > m.clickX
    ensures r < m.currentX <==> clientX < m.clickX
  {
    (clientX - m.clickX) * Accel + m.currentX
  }

  /** `moveSlide(v)`: draw the track at `v` and remember `v` as `finalX`. */
  function Placed(s: DragState, v: real): DragState
  {
    s.(movement := s.movement.(finalX := v), transform := Some(v))
  }

  /** `updatePosition(clientX)`: store the live offset in `finalX` (nothing drawn). */
  function Updated(s: DragState, clientX: real): DragState
  {
    s.(movement := s.movement.(finalX := Position(s.movement, clientX)))
  }

  /** `onStart`: record where the drag began and attach the move listener. */
  function Started(s: DragState, clientX: real): DragState
  {
    s.(movement := s.movement.(clickX := clientX), dragging := true)
  }

  /** `onMove`: `updatePosition`, then `moveSlide` with the value it returned. */
  function Moved(s: DragState, clientX: real): DragState
  {
    Placed(Updated(s, clientX), Position(s.movement, clientX))
  }

  /** `onEnd`: detach the move listener and commit the shown offset. */
  function Ended(s: DragState): DragState
  {
    s.(movement := s.movement.(currentX := s.movement.finalX), dragging := false)
  }

  /** One wrapper event: mouse-down and mouse-up always reach their handlers;
      a mousemove reaches `onMove` only while its listener is attached. */
  function Step(s: DragState, e: Event): DragState
  {
    match e
    case MouseDown(x) => Started(s, x)
    case MouseMove(x) => if s.dragging then Moved(s, x) else s
    case MouseUp => Ended(s)
  }

  /** A sequence of events, in order. */
  function Run(s: DragState, es: seq<Event>): DragState
    decreases |es|
  {
    if es == [] then s else Run(Step(s, es[0]), es[1..])
  }

  /** One mousemove event per pointer X, in order. */
  function Moves(xs: seq<real>): seq<Event>
  {
    seq(|xs|, i requires 0 <= i < |xs| => MouseMove(xs[i]))
  }

  /** The offset the track is shown at: the last one drawn, or 0 while its
      transform has never been written. */
  function Shown(s: DragState): real
  {
    match s.transform
    case None => 0.0
    case Some(v) => v
  }

  /** The track is shown at `finalX`. */
  predicate Rendered(s: DragState)
  {
    Shown(s) == s.movement.finalX
  }

  /** Outside a drag, what is shown is what was committed. */
  predicate Settled(s: DragState)
  {
    !s.dragging ==> s.movement.currentX == s.movement.finalX
  }

  // ---------------------------------------------------------------------
  // Properties of single handlers

  /** A fresh slide shows what it has committed. */
  lemma InitialRendered()
    ensures Rendered(Initial()) && Settled(Initial())
    ensures !Initial().dragging
    ensures Initial().movement.currentX == Initial().movement.clickX == Initial().movement.finalX == 0.0
  {
  }

  /** Only mouse-up changes the committed offset, and it commits what is shown. */
  lemma CommitOnlyAtEnd(s: DragState, e: Event)
    ensures Step(s, e).movement.currentX == if e == MouseUp then s.movement.finalX else s.movement.currentX
    ensures !e.MouseDown? ==> Step(s, e).movement.clickX == s.movement.clickX
    ensures e.MouseDown? ==> Step(s, e).movement.clickX == e.clientX
    ensures Step(s, e).dragging <==> e.MouseDown? || (e.MouseMove? && s.dragging)
  {
  }

  /** Every handler keeps the track shown at `finalX`, and outside a drag
      keeps `finalX` equal to the committed offset. */
  lemma StepKeepsRendered(s: DragState, e: Event)
    requires Rendered(s) && Settled(s)
    ensures Rendered(Step(s, e)) && Settled(Step(s, e))
  {
  }

  /** `updatePosition` on its own does not draw: it can leave the transform
      behind `finalX`, which is why `onMove` follows it with `moveSlide`. */
  lemma UpdateAloneLeavesStaleTransform()
    ensures var s := Run(Initial(), [MouseDown(0.0), MouseMove(10.0)]);
            Rendered(s) && !Rendered(Updated(s, 20.0))
  {
    var s1 := Step(Initial(), MouseDown(0.0));
    var s2 := Step(s1, MouseMove(10.0));
    assert Run(Initial(), [MouseDown(0.0), MouseMove(10.0)]) == s2 by {
      assert [MouseDown(0.0), MouseMove(10.0)][1..] == [MouseMove(10.0)];
    }
    assert s2.transform == Some(16.0);
    assert Updated(s2, 20.0).movement.finalX == 32.0;
  }

  /** A second mouse-up has no further effect. */
  lemma EndIdempotent(s: DragState)
    ensures Step(Step(s, MouseUp), MouseUp) == Step(s, MouseUp)
  {
  }

  // ---------------------------------------------------------------------
  // Properties of event sequences

  lemma {:induction false} RunAppend(s: DragState, a: seq<Event>, b: seq<Event>)
    ensures Run(s, a + b) == Run(Run(s, a), b)
    decreases |a|
  {
    if a == [] {
      assert a + b == b;
    } else {
      assert (a + b)[0] == a[0];
      assert (a + b)[1..] == a[1..] + b;
      RunAppend(Step(s, a[0]), a[1..], b);
    }
  }

  lemma MovesTail(xs: seq<real>)
    requires xs != []
    ensures Moves(xs)[0] == MouseMove(xs[0])
    ensures Moves(xs)[1..] == Moves(xs[1..])
  {
  }

  /** While the move listener is attached, moves leave the committed offset,
      the drag anchor and the listener alone, and the track shows the offset
      for the last pointer X. */
  lemma {:induction false} MovesKeepAnchor(s: DragState, xs: seq<real>)
    requires s.dragging
    ensures Run(s, Moves(xs)).dragging
    ensures Run(s, Moves(xs)).movement.currentX == s.movement.currentX
    ensures Run(s, Moves(xs)).movement.clickX == s.movement.clickX
    ensures xs == [] ==> Run(s, Moves(xs)) == s
    ensures xs != [] ==> Run(s, Moves(xs)).movement.finalX == Position(s.movement, xs[|xs| - 1])
    ensures xs != [] ==> Run(s, Moves(xs)).transform == Some(Position(s.movement, xs[|xs| - 1]))
    decreases |xs|
  {
    if xs != [] {
      MovesTail(xs);
      var s' := Moved(s, xs[0]);
      MovesKeepAnchor(s', xs[1..]);
      if xs[1..] != [] {
        assert xs[1..][|xs[1..]| - 1] == xs[|xs| - 1];
      }
    }
  }

  /** Without the move listener, mousemoves change nothing. */
  lemma {:induction false} IgnoredMoves(s: DragState, xs: seq<real>)
    requires !s.dragging
    ensures Run(s, Moves(xs)) == s
    decreases |xs|
  {
    if xs != [] {
      MovesTail(xs);
      IgnoredMoves(s, xs[1..]);
    }
  }

  /** Where the track ends up after a run of moves depends only on the last
      pointer X, not on the path the pointer took to get there. */
  lemma LastMoveWins(s: DragState, xs: seq<real>, ys: seq<real>, x: real)
    ensures Run(s, Moves(xs + [x])) == Run(s, Moves(ys + [x]))
  {
    if s.dragging {
      MovesKeepAnchor(s, xs + [x]);
      MovesKeepAnchor(s, ys + [x]);
    } else {
      IgnoredMoves(s, xs + [x]);
      IgnoredMoves(s, ys + [x]);
    }
  }

  /** A whole drag session: press at `x0`, move one or more times ending at
      `x1`, release. The committed offset advances by the pointer's travel
      times `Accel`, the listener is detached and the track shows the new
      committed offset. */
  lemma Session(s: DragState, x0: real, xs: seq<real>, x1: real)
    ensures var r := Run(s, [MouseDown(x0)] + Moves(xs + [x1]) + [MouseUp]);
            && r.movement.currentX == s.movement.currentX + (x1 - x0) * Accel
            && r.movement.finalX == r.movement.currentX
            && r.movement.clickX == x0
            && !r.dragging
            && r.transform == Some(r.movement.currentX)
  {
    var started := Step(s, MouseDown(x0));
    assert Run(s, [MouseDown(x0)]) == started;
    RunAppend(s, [MouseDown(x0)], Moves(xs + [x1]));
    MovesKeepAnchor(started, xs + [x1]);
    var moved := Run(started, Moves(xs + [x1]));
    RunAppend(s, [MouseDown(x0)] + Moves(xs + [x1]), [MouseUp]);
    assert Run(moved, [MouseUp]) == Ended(moved);
  }

  /** A press and release with no move in between commits whatever offset was
      shown before, and leaves it shown. */
  lemma EmptySession(s: DragState, x0: real)
    ensures Run(s, [MouseDown(x0), MouseUp]).movement.currentX == s.movement.finalX
    ensures Run(s, [MouseDown(x0), MouseUp]).movement.finalX == s.movement.finalX
    ensures Run(s, [MouseDown(x0), MouseUp]).transform == s.transform
    ensures !Run(s, [MouseDown(x0), MouseUp]).dragging
  {
    var started := Step(s, MouseDown(x0));
    assert [MouseDown(x0), MouseUp][1..] == [MouseUp];
    assert Run(s, [MouseDown(x0), MouseUp]) == Run(started, [MouseUp]);
    assert Run(started, [MouseUp]) == Ended(started);
  }

  /** Any run of events keeps both invariants; with `InitialRendered`, every
      state a slide reaches satisfies them. */
  lemma {:induction false} RunKeepsRendered(s: DragState, es: seq<Event>)
    requires Rendered(s) && Settled(s)
    ensures Rendered(Run(s, es)) && Settled(Run(s, es))
    decreases |es|
  {
    if es != [] {
      StepKeepsRendered(s, es[0]);
      RunKeepsRendered(Step(s, es[0]), es[1..]);
    }
  }

  /** A mouse-up that never arrives: the listener stays attached and
      `currentX` is never committed, so the next press and move place the
      track relative to the stale `currentX` and it jumps back from where it
      was shown. Here the track is shown at 160, and after a second press and
      a move with no pointer travel it is shown at 0. */
  lemma MissedReleaseSnapsBack()
    ensures var dragged := Run(Initial(), [MouseDown(0.0), MouseMove(100.0)]);
            && dragged.dragging && Shown(dragged) == 160.0
            && Run(dragged, [MouseDown(100.0), MouseMove(100.0)]).movement.finalX == 0.0
            && Shown(Run(dragged, [MouseDown(100.0), MouseMove(100.0)])) == 0.0
  {
    var dragged := Step(Step(Initial(), MouseDown(0.0)), MouseMove(100.0));
    assert [MouseDown(0.0), MouseMove(100.0)][1..] == [MouseMove(100.0)];
    assert Run(Initial(), [MouseDown(0.0), MouseMove(100.0)]) == dragged;
    var again := Step(dragged, MouseDown(100.0));
    assert [MouseDown(100.0), MouseMove(100.0)][1..] == [MouseMove(100.0)];
    assert Run(dragged, [MouseDown(100.0), MouseMove(100.0)]) == Step(again, MouseMove(100.0));
  }

  // ---------------------------------------------------------------------
  // The class, whose handlers update the movement record in place

  class Slide {
    var currentX: real
    var clickX: real
    var finalX: real
    /** Whether the wrapper's mousemove listener is attached. */
    var dragging: bool
    /** The offset last written to the track's transform. */
    ghost var transform: Option<real>

    ghost function State(): DragState
      reads this
    {
      DragState(Movement(currentX, clickX, finalX), dragging, transform)
    }

    constructor ()
      ensures State() == Initial()
      ensures currentX == 0.0 && clickX == 0.0 && finalX == 0.0 && !dragging
    {
      currentX, clickX, finalX := 0.0, 0.0, 0.0;
      dragging := false;
      transform := None;
    }

    method MoveSlide(x: real)
      modifies this
      ensures State() == Placed(old(State()), x)
      ensures finalX == x && transform == Some(x)
      ensures currentX == old(currentX) && clickX == old(clickX) && dragging == old(dragging)
    {
      transform := Some(x);
      finalX := x;
    }

    method UpdatePosition(clientX: real) returns (x: real)
      modifies this
      ensures x == Position(old(State()).movement, clientX)
      ensures State() == Updated(old(State()), clientX)
      ensures finalX == x
      ensures currentX == old(currentX) && clickX == old(clickX)
      ensures dragging == old(dragging) && transform == old(transform)
    {
      x := (clientX - clickX) * Accel + currentX;
      finalX := x;
    }

    method OnStart(clientX: real)
      modifies this
      ensures State() == Step(old(State()), MouseDown(clientX))
      ensures clickX == clientX && dragging
      ensures currentX == old(currentX) && finalX == old(finalX) && transform == old(transform)
    {
      clickX := clientX;
      dragging := true;
    }

    method OnMove(clientX: real)
      modifies this
      ensures State() == Moved(old(State()), clientX)
      ensures finalX == Position(old(State()).movement, clientX) && transform == Some(finalX)
      ensures currentX == old(currentX) && clickX == old(clickX) && dragging == old(dragging)
    {
      var x := UpdatePosition(clientX);
      MoveSlide(x);
    }

    method OnEnd()
      modifies this
      ensures State() == Step(old(State()), MouseUp)
      ensures !dragging && currentX == old(finalX)
      ensures clickX == old(clickX) && finalX == old(finalX) && transform == old(transform)
    {
      dragging := false;
      currentX := finalX;
    }

    /** The wrapper's listeners: mousedown and mouseup call `OnStart` and
        `OnEnd`; mousemove calls `OnMove` only while its listener is attached. */
    method Dispatch(e: Event)
      modifies this
      ensures State() == Step(old(State()), e)
    {
      match e {
        case MouseDown(x) => OnStart(x);
        case MouseMove(x) =>
          if dragging {
            OnMove(x);
          }
        case MouseUp => OnEnd();
      }
    }
  }
}
