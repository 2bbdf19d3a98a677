/** The fallback map of `FallbackMapComponent.jsx`: drag, wheel zoom and the
    zoom-in, zoom-out and reset buttons. */
module FallbackJsx {
  import opened Viewport

  /** The factor one button press multiplies or divides the scale by. */
  const ButtonFactor: real := 1.2

  /** `zoomIn`: the scale grows by 1.2, capped at 5; nothing else changes. */
  function ZoomIn(v: View): (r: View)
    ensures r.(scale := v.scale) == v
    ensures r.scale <= MaxScale && r.scale <= v.scale * ButtonFactor
    ensures r.scale == MaxScale || r.scale == v.scale * ButtonFactor
  {
    v.(scale := ScaledUp(v.scale, ButtonFactor))
  }

  /** `zoomOut`: the scale shrinks by 1.2, floored at 0.5; nothing else changes. */
  function ZoomOut(v: View): (r: View)
    ensures r.(scale := v.scale) == v
    ensures r.scale >= MinScale && r.scale >= v.scale / ButtonFactor
    ensures r.scale == MinScale || r.scale == v.scale / ButtonFactor
  {
    v.(scale := ScaledDown(v.scale, ButtonFactor))
  }

  /** `resetView`: scale 1 and offset (0, 0) whatever the prior state; the
      drag flag and anchor are left alone. */
  function ResetView(v: View): (r: View)
    ensures r.scale == 1.0 && r.position == Origin
    ensures r.isDragging == v.isDragging && r.startPosition == v.startPosition
  {
    v.(scale := 1.0, position := Origin)
  }

  /** One user input the component reacts to. */
  datatype Gesture =
    | Press(at: Point)
    | Drag(to: Point)
    | Release
    | WheelTurn(deltaY: real)
    | ZoomInButton
    | ZoomOutButton
    | ResetButton

  predicate IsZoom(g: Gesture)
  {
    g.WheelTurn? || g.ZoomInButton? || g.ZoomOutButton?
  }

  function Step(v: View, g: Gesture): View
  {
    match g
    case Press(p) => MouseDown(v, p)
    case Drag(p) => MouseMove(v, p)
    case Release => MouseUp(v)
    case WheelTurn(dy) => Wheel(v, dy)
    case ZoomInButton => ZoomIn(v)
    case ZoomOutButton => ZoomOut(v)
    case ResetButton => ResetView(v)
  }

  /** The state after handling `gs` in order. */
  function Run(v: View, gs: seq<Gesture>): View
    decreases |gs|
  {
    if gs == [] then v else Run(Step(v, gs[0]), gs[1..])
  }

  lemma StepKeepsScaleInRange(v: View, g: Gesture)
    requires InRange(v.scale)
    ensures InRange(Step(v, g).scale)
  {
  }

  /** Every sequence of inputs keeps an in-range scale in [0.5, 5]. */
  lemma {:induction false} RunKeepsScaleInRange(v: View, gs: seq<Gesture>)
    requires InRange(v.scale)
    ensures InRange(Run(v, gs).scale)
    decreases |gs|
  {
    if gs != [] {
      StepKeepsScaleInRange(v, gs[0]);
      RunKeepsScaleInRange(Step(v, gs[0]), gs[1..]);
    }
  }

  /** From the initial state no input sequence takes the scale out of [0.5, 5]. */
  lemma ReachableScaleInRange(gs: seq<Gesture>)
    ensures InRange(Run(Initial, gs).scale)
  {
    RunKeepsScaleInRange(Initial, gs);
  }

  /** Zoom inputs (wheel and buttons) never pan and never touch the drag state. */
  lemma {:induction false} ZoomsKeepOffsetAndDrag(v: View, gs: seq<Gesture>)
    requires forall i | 0 <= i < |gs| :: IsZoom(gs[i])
    ensures Run(v, gs).(scale := v.scale) == v
    decreases |gs|
  {
    if gs != [] {
      ZoomsKeepOffsetAndDrag(Step(v, gs[0]), gs[1..]);
    }
  }

  /** The wheel and the buttons clamp on one side only: a scale above 5 can stay
      above 5 after zooming out, and one below 0.5 can stay below after zooming in. */
  lemma ButtonClampIsOneSided()
    ensures ZoomOut(View(10.0, Origin, false, Origin)).scale > MaxScale
    ensures ZoomIn(View(0.1, Origin, false, Origin)).scale < MinScale
    ensures Wheel(View(10.0, Origin, false, Origin), 1.0).scale > MaxScale
  {
  }

  /** The component's state, updated in place by its handlers. */
  class FallbackMap {
    var scale: real
    var position: Point
    var isDragging: bool
    var startPosition: Point

    function Snapshot(): View
      reads this
    {
      View(scale, position, isDragging, startPosition)
    }

    /** The scale stays in [0.5, 5] across every handler. */
    ghost predicate Valid()
      reads this
    {
      InRange(scale)
    }

    constructor ()
      ensures Valid() && Snapshot() == Initial
    {
      scale := 1.0;
      position := Origin;
      isDragging := false;
      startPosition := Origin;
    }

    method HandleMouseDown(p: Point)
      requires Valid()
      modifies this
      ensures Valid() && Snapshot() == MouseDown(old(Snapshot()), p)
    {
      isDragging := true;
      startPosition := Point(p.x - position.x, p.y - position.y);
    }

    method HandleMouseMove(p: Point)
      requires Valid()
      modifies this
      ensures Valid() && Snapshot() == MouseMove(old(Snapshot()), p)
    {
      if !isDragging {
        return;
      }
      position := Point(p.x - startPosition.x, p.y - startPosition.y);
    }

    method HandleMouseUp()
      requires Valid()
      modifies this
      ensures Valid() && Snapshot() == MouseUp(old(Snapshot()))
    {
      isDragging := false;
    }

    method HandleWheel(deltaY: real)
      requires Valid()
      modifies this
      ensures Valid() && Snapshot() == Wheel(old(Snapshot()), deltaY)
    {
      scale := WheelScale(scale, deltaY);
    }

    method ZoomInClicked()
      requires Valid()
      modifies this
      ensures Valid() && Snapshot() == ZoomIn(old(Snapshot()))
    {
      scale := ScaledUp(scale, ButtonFactor);
    }

    method ZoomOutClicked()
      requires Valid()
      modifies this
      ensures Valid() && Snapshot() == ZoomOut(old(Snapshot()))
    {
      scale := ScaledDown(scale, ButtonFactor);
    }

    method ResetViewClicked()
      requires Valid()
      modifies this
      ensures Valid() && Snapshot() == ResetView(old(Snapshot()))
    {
      scale := 1.0;
      position := Origin;
    }
  }
}
