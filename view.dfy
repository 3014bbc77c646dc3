/** The view state that the canvas's mouse handlers mutate, as a pure state
    machine: one function per handler and `Replay` for a sequence of events. */
module View {

  /** An event's pointer position `event.offsetX`/`event.offsetY` together
      with `left`/`top` of the canvas's bounding rectangle at that moment. */
  datatype Pointer = Pointer(x: real, y: real, left: real, top: real)

  datatype Event =
    | Down(p: Pointer)      // 'mousedown'
    | Up(p: Pointer)        // 'mouseup'
    | Leave                 // 'mouseleave'
    | Move(p: Pointer)      // 'mousemove'
    | Wheel(deltaY: real)   // 'mousewheel'

  /** `_isDragging`, the handlers' shared `startX`/`startY`, `_view.xOffset`,
      `_view.yOffset`, `_scaleX` and `_scaleY`. */
  datatype ViewState = ViewState(
    dragging: bool,
    startX: real, startY: real,
    xOffset: real, yOffset: real,
    scaleX: real, scaleY: real)

  /** The floor of `Math.max(self._scaleX, 0.1)`. */
  const MinScale: real := 0.1

  /** The factor in `self._scaleX += event.deltaY * -0.01`. */
  const WheelFactor: real := -0.01

  function Max(a: real, b: real): real
  {
    if a >= b then a else b
  }

  /** `event.offsetX - rect.left - self._view.xOffset`: the pointer relative to
      the current pan offset; likewise for y. */
  function CanvasX(v: ViewState, p: Pointer): real { p.x - p.left - v.xOffset }
  function CanvasY(v: ViewState, p: Pointer): real { p.y - p.top - v.yOffset }

  /** The state after one handler runs. */
  function Handle(v: ViewState, e: Event): ViewState
  {
    match e
    case Down(p) => v.(dragging := true, startX := CanvasX(v, p), startY := CanvasY(v, p))
    case Up(p) => v.(dragging := false, startX := CanvasX(v, p), startY := CanvasY(v, p))
    case Leave => v.(dragging := false)
    case Move(p) =>
      if v.dragging then
        v.(xOffset := v.xOffset + (CanvasX(v, p) - v.startX),
           yOffset := v.yOffset + (CanvasY(v, p) - v.startY))
      else v
    case Wheel(d) => v.(scaleX := Max(v.scaleX + d * WheelFactor, MinScale))
  }

  /** The state after the handlers run for `es`, first to last. */
  function Replay(v: ViewState, es: seq<Event>): ViewState
    decreases |es|
  {
    if es == [] then v else Replay(Handle(v, es[0]), es[1..])
  }

  /** A wheel event moves `_scaleX` by `-0.01 * deltaY`, clamped at 0.1, and
      touches nothing else. */
  lemma WheelZoom(v: ViewState, d: real)
    ensures var w := Handle(v, Wheel(d));
            && w.scaleX >= MinScale
            && (v.scaleX - d / 100.0 >= MinScale ==> w.scaleX == v.scaleX - d / 100.0)
            && (v.scaleX - d / 100.0 < MinScale ==> w.scaleX == MinScale)
            && w == v.(scaleX := w.scaleX)
  {
  }

  /** Whatever the events, `_scaleX` never falls below 0.1 once it is at least
      0.1, and `_scaleY` never changes. */
  lemma {:induction false} ZoomFloor(v: ViewState, es: seq<Event>)
    requires v.scaleX >= MinScale
    ensures Replay(v, es).scaleX >= MinScale
    ensures Replay(v, es).scaleY == v.scaleY
    decreases |es|
  {
    if es != [] {
      ZoomFloor(Handle(v, es[0]), es[1..]);
    }
  }

  /** Events that neither press nor release the button. */
  ghost predicate WithoutButtons(es: seq<Event>)
  {
    forall i :: 0 <= i < |es| ==> es[i].Move? || es[i].Wheel?
  }

  /** While dragging, a move sets the offset to the pointer position minus the
      drag anchor, whatever the offset was before. */
  lemma MoveIsAbsolute(v: ViewState, p: Pointer)
    requires v.dragging
    ensures Handle(v, Move(p)).xOffset == p.x - p.left - v.startX
    ensures Handle(v, Move(p)).yOffset == p.y - p.top - v.startY
  {
  }

  /** While dragging, moves and wheel events keep the drag anchor, and the
      offset is set by the last move alone. */
  lemma {:induction false} DragFollowsLastMove(v: ViewState, es: seq<Event>)
    requires v.dragging && WithoutButtons(es)
    ensures var w := Replay(v, es);
            && w.dragging && w.startX == v.startX && w.startY == v.startY
            && ((forall i :: 0 <= i < |es| ==> es[i].Wheel?) ==> w.xOffset == v.xOffset && w.yOffset == v.yOffset)
    ensures forall j :: 0 <= j < |es| && es[j].Move? && (forall i :: j < i < |es| ==> es[i].Wheel?) ==>
              Replay(v, es).xOffset == es[j].p.x - es[j].p.left - v.startX &&
              Replay(v, es).yOffset == es[j].p.y - es[j].p.top - v.startY
    decreases |es|
  {
    if es != [] {
      var u := Handle(v, es[0]);
      assert WithoutButtons(es[1..]) by {
        forall i | 0 <= i < |es[1..]| ensures es[1..][i].Move? || es[1..][i].Wheel? {
          assert es[1..][i] == es[i + 1];
        }
      }
      DragFollowsLastMove(u, es[1..]);
      forall j | 0 <= j < |es| && es[j].Move? && (forall i :: j < i < |es| ==> es[i].Wheel?)
        ensures Replay(v, es).xOffset == es[j].p.x - es[j].p.left - v.startX
        ensures Replay(v, es).yOffset == es[j].p.y - es[j].p.top - v.startY
      {
        if j > 0 {
          assert es[1..][j - 1] == es[j];
          assert forall i :: j - 1 < i < |es[1..]| ==> es[1..][i] == es[i + 1];
        } else {
          assert forall i :: 0 <= i < |es[1..]| ==> es[1..][i] == es[i + 1];
        }
      }
    }
  }

  /** The pan closed form: after a mouse-down at `p0` and any moves and wheel
      events that end with a move at `p`, the offset is the offset at mouse-down
      plus the pointer's total displacement, whatever moves came between. */
  lemma PanClosedForm(v: ViewState, p0: Pointer, es: seq<Event>, p: Pointer)
    requires WithoutButtons(es)
    ensures var w := Replay(v, [Down(p0)] + es + [Move(p)]);
            && w.dragging
            && w.xOffset == v.xOffset + ((p.x - p.left) - (p0.x - p0.left))
            && w.yOffset == v.yOffset + ((p.y - p.top) - (p0.y - p0.top))
  {
    var all := [Down(p0)] + es + [Move(p)];
    var rest := es + [Move(p)];
    assert all[1..] == rest;
    var u := Handle(v, Down(p0));
    assert WithoutButtons(rest) by {
      forall i | 0 <= i < |rest| ensures rest[i].Move? || rest[i].Wheel? {
        if i < |es| { assert rest[i] == es[i]; }
      }
    }
    assert u.dragging;
    DragFollowsLastMove(u, rest);
    assert rest[|rest| - 1] == Move(p);
    assert Replay(v, all) == Replay(u, rest);
  }

  /** When not dragging, moves and wheel events never change the offsets. */
  lemma {:induction false} IdleMovesInert(v: ViewState, es: seq<Event>)
    requires !v.dragging && WithoutButtons(es)
    ensures var w := Replay(v, es);
            !w.dragging && w.xOffset == v.xOffset && w.yOffset == v.yOffset
    decreases |es|
  {
    if es != [] {
      assert WithoutButtons(es[1..]) by {
        forall i | 0 <= i < |es[1..]| ensures es[1..][i].Move? || es[1..][i].Wheel? {
          assert es[1..][i] == es[i + 1];
        }
      }
      IdleMovesInert(Handle(v, es[0]), es[1..]);
    }
  }

  /** `mouseup` and `mouseleave` end the drag and leave the offsets and the
      zoom as they were. */
  lemma ReleaseKeepsView(v: ViewState, p: Pointer)
    ensures forall e :: e == Up(p) || e == Leave ==>
              var w := Handle(v, e);
              !w.dragging && w.xOffset == v.xOffset && w.yOffset == v.yOffset &&
              w.scaleX == v.scaleX && w.scaleY == v.scaleY
  {
  }
}
