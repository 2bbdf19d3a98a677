/** The fallback map of `FallbackMapComponent.tsx`: drag, wheel zoom and
    two-finger pinch zoom. The previous pinch distance, which the component
    stores on the touched element, is explicit state here (`touchDistance`).
    Pinch distances are inputs (`Math.hypot` of the first two touches is not
    computed). */
module FallbackTsx {
  import opened Seqs
  import opened Viewport

  /** The shared viewport state plus the stored previous pinch distance. */
  datatype TouchView = TouchView(view: View, touchDistance: Option<real>)

  const InitialTouch: TouchView := TouchView(Initial, None)

  /** `handleTouchStart`: with two or more touches, records their distance. */
  function TouchStart(t: TouchView, touchCount: nat, distance: real): (r: TouchView)
    ensures r.view == t.view
    ensures touchCount >= 2 ==> r.touchDistance == Some(distance)
    ensures touchCount < 2 ==> r == t
  {
    if touchCount >= 2 then t.(touchDistance := Some(distance)) else t
  }

  /** The element's `onTouchStart`: `handleMouseDown` at the first touch, then
      `handleTouchStart`. */
  function OnTouchStart(t: TouchView, firstTouch: Point, touchCount: nat, distance: real): (r: TouchView)
    ensures r.view == MouseDown(t.view, firstTouch)
    ensures r.view.isDragging && Plus(r.view.startPosition, t.view.position) == firstTouch
    ensures touchCount >= 2 ==> r.touchDistance == Some(distance)
    ensures touchCount < 2 ==> r.touchDistance == t.touchDistance
  {
    TouchStart(t.(view := MouseDown(t.view, firstTouch)), touchCount, distance)
  }

  /** `touchDistance || newTouchDistance`: a stored distance that is absent or
      zero (falsy) is replaced by the current one. */
  function PreviousDistance(stored: Option<real>, current: real): (r: real)
    ensures stored.Some? && stored.value != 0.0 ==> r == stored.value
    ensures stored.None? || stored.value == 0.0 ==> r == current
  {
    if stored.Some? && stored.value != 0.0 then stored.value else current
  }

  /** `handleTouchMove`: with two or more touches the scale is multiplied by
      the ratio of the new distance to the previous one and clamped to
      [0.5, 5] on both sides, and the new distance becomes the stored one;
      with fewer touches nothing changes. The one case the source cannot
      compute, `0 / 0` (no usable stored distance and a new distance of 0),
      is excluded. */
  function TouchMove(t: TouchView, touchCount: nat, distance: real): (r: TouchView)
    requires touchCount >= 2 ==> PreviousDistance(t.touchDistance, distance) != 0.0
    ensures touchCount < 2 ==> r == t
    ensures touchCount >= 2 ==> InRange(r.view.scale) && r.touchDistance == Some(distance)
    ensures touchCount >= 2 && t.touchDistance.Some? && t.touchDistance.value != 0.0 ==>
              r.view.scale == Clamp(t.view.scale * (distance / t.touchDistance.value))
    ensures touchCount >= 2 && (t.touchDistance == None || t.touchDistance == Some(0.0)) ==>
              r.view.scale == Clamp(t.view.scale)
    ensures r.view.(scale := t.view.scale) == t.view
  {
    if touchCount >= 2 then
      var previous := PreviousDistance(t.touchDistance, distance);
      assert previous == distance ==> t.view.scale * (distance / previous) == t.view.scale;
      TouchView(t.view.(scale := Clamp(t.view.scale * (distance / previous))), Some(distance))
    else t
  }

  /** With a stored distance `d0`, a pinch to distance `d` scales by `d / d0`
      and clamps the product into [0.5, 5]; when the product is already in
      range it is taken as is. */
  lemma PinchScalesByRatio(t: TouchView, d0: real, d: real)
    requires d0 != 0.0
    requires t.touchDistance == Some(d0)
    ensures TouchMove(t, 2, d).view.scale == Clamp(t.view.scale * (d / d0))
    ensures InRange(t.view.scale * (d / d0)) ==> TouchMove(t, 2, d).view.scale == t.view.scale * (d / d0)
    ensures t.view.scale * (d / d0) < MinScale ==> TouchMove(t, 2, d).view.scale == MinScale
    ensures t.view.scale * (d / d0) > MaxScale ==> TouchMove(t, 2, d).view.scale == MaxScale
  {
  }

  /** Without a usable stored distance (absent or zero) the ratio is 1: the
      pinch only clamps the current scale into range. */
  lemma PinchWithoutBaselineOnlyClamps(t: TouchView, touchCount: nat, d: real)
    requires touchCount >= 2 && d != 0.0
    requires t.touchDistance == None || t.touchDistance == Some(0.0)
    ensures TouchMove(t, touchCount, d).view.scale == Clamp(t.view.scale)
  {
  }

  /** Fingers brought together (distance 0) after a stored distance send the
      scale to 0.5 and store the 0, which the next move treats as no baseline:
      that move only clamps. */
  lemma PinchToZeroBottomsOut(t: TouchView, d0: real, d: real)
    requires d0 > 0.0 && d > 0.0
    requires t.touchDistance == Some(d0) && t.view.scale >= 0.0
    ensures TouchMove(t, 2, 0.0).view.scale == MinScale
    ensures TouchMove(t, 2, 0.0).touchDistance == Some(0.0)
    ensures TouchMove(TouchMove(t, 2, 0.0), 2, d).view.scale == MinScale
    ensures TouchMove(TouchMove(t, 2, 0.0), 2, d).touchDistance == Some(d)
  {
  }

  /** Ratios chain from sample to sample: two unclamped pinch moves from a
      stored `d0` through `d1` to `d2` scale by `d2 / d0` in all. */
  lemma PinchRatiosChain(t: TouchView, d0: real, d1: real, d2: real)
    requires d0 > 0.0 && d1 > 0.0 && d2 > 0.0
    requires t.touchDistance == Some(d0)
    requires InRange(t.view.scale * (d1 / d0))
    requires InRange(t.view.scale * (d1 / d0) * (d2 / d1))
    ensures TouchMove(TouchMove(t, 2, d1), 2, d2).view.scale == t.view.scale * (d2 / d0)
    ensures TouchMove(TouchMove(t, 2, d1), 2, d2).touchDistance == Some(d2)
  {
  }

  /** Because each sample is compared with the previous one, a clamp along the
      way is not undone: from scale 4 and stored distance 1, pinching out to 2
      (clamped at 5) and back to 1 ends at 2.5, not at the starting 4. */
  lemma PinchDriftsAfterClamp()
    ensures var t := TouchView(View(4.0, Origin, false, Origin), Some(1.0));
            TouchMove(TouchMove(t, 2, 2.0), 2, 1.0).view.scale == 2.5
  {
  }

  /** The pinch clamp is two-sided: one pinch move brings any scale, however far
      out of range, into [0.5, 5]. */
  lemma PinchRestoresRange(t: TouchView, touchCount: nat, d: real)
    requires touchCount >= 2 && PreviousDistance(t.touchDistance, d) != 0.0
    ensures InRange(TouchMove(t, touchCount, d).view.scale)
  {
  }

  /** One input the component reacts to. The window-level touch-move listener
      drags with the first touch (`Drag`); the element's own touch-move
      listener pinches (`Pinch`). */
  datatype Gesture =
    | Press(at: Point)
    | Drag(to: Point)
    | Release
    | WheelTurn(deltaY: real)
    | TouchBegin(first: Point, touchCount: nat, distance: real)
    | Pinch(touchCount: nat, distance: real)

  /** The input can be handled from state `t`: a pinch does not hit the
      `0 / 0` case of `TouchMove`. */
  predicate Handled(t: TouchView, g: Gesture)
  {
    match g
    case Pinch(n, d) => n >= 2 ==> PreviousDistance(t.touchDistance, d) != 0.0
    case _ => true
  }

  function Step(t: TouchView, g: Gesture): TouchView
    requires Handled(t, g)
  {
    match g
    case Press(p) => t.(view := MouseDown(t.view, p))
    case Drag(p) => t.(view := MouseMove(t.view, p))
    case Release => t.(view := MouseUp(t.view))
    case WheelTurn(dy) => t.(view := Wheel(t.view, dy))
    case TouchBegin(p, n, d) => OnTouchStart(t, p, n, d)
    case Pinch(n, d) => TouchMove(t, n, d)
  }

  /** Every input of `gs` can be handled in the state the earlier ones lead to. */
  predicate AllHandled(t: TouchView, gs: seq<Gesture>)
    decreases |gs|
  {
    gs == [] || (Handled(t, gs[0]) && AllHandled(Step(t, gs[0]), gs[1..]))
  }

  function Run(t: TouchView, gs: seq<Gesture>): TouchView
    requires AllHandled(t, gs)
    decreases |gs|
  {
    if gs == [] then t else Run(Step(t, gs[0]), gs[1..])
  }

  /** Every sequence of inputs keeps an in-range scale in [0.5, 5]. */
  lemma {:induction false} RunKeepsScaleInRange(t: TouchView, gs: seq<Gesture>)
    requires AllHandled(t, gs)
    requires InRange(t.view.scale)
    ensures InRange(Run(t, gs).view.scale)
    decreases |gs|
  {
    if gs != [] {
      var next := Step(t, gs[0]);
      assert InRange(next.view.scale);
      RunKeepsScaleInRange(next, gs[1..]);
    }
  }

  /** The component's state, updated in place by its handlers. */
  class FallbackMap {
    var scale: real
    var position: Point
    var isDragging: bool
    var startPosition: Point
    /** The previous pinch distance, kept on the touched element. */
    var touchDistance: Option<real>

    function Snapshot(): TouchView
      reads this
    {
      TouchView(View(scale, position, isDragging, startPosition), touchDistance)
    }

    /** The scale stays in [0.5, 5] across every handler. */
    ghost predicate Valid()
      reads this
    {
      InRange(scale)
    }

    constructor ()
      ensures Valid() && Snapshot() == InitialTouch
    {
      scale := 1.0;
      position := Origin;
      isDragging := false;
      startPosition := Origin;
      touchDistance := None;
    }

    method HandleMouseDown(p: Point)
      requires Valid()
      modifies this
      ensures Valid() && Snapshot() == old(Snapshot()).(view := MouseDown(old(Snapshot()).view, p))
    {
      isDragging := true;
      startPosition := Point(p.x - position.x, p.y - position.y);
    }

    method HandleMouseMove(p: Point)
      requires Valid()
      modifies this
      ensures Valid() && Snapshot() == old(Snapshot()).(view := MouseMove(old(Snapshot()).view, p))
    {
      if !isDragging {
        return;
      }
      position := Point(p.x - startPosition.x, p.y - startPosition.y);
    }

    method HandleMouseUp()
      requires Valid()
      modifies this
      ensures Valid() && Snapshot() == old(Snapshot()).(view := MouseUp(old(Snapshot()).view))
    {
      isDragging := false;
    }

    method HandleWheel(deltaY: real)
      requires Valid()
      modifies this
      ensures Valid() && Snapshot() == old(Snapshot()).(view := Wheel(old(Snapshot()).view, deltaY))
    {
      scale := WheelScale(scale, deltaY);
    }

    method HandleTouchStart(touchCount: nat, distance: real)
      requires Valid()
      modifies this
      ensures Valid() && Snapshot() == TouchStart(old(Snapshot()), touchCount, distance)
    {
      if touchCount >= 2 {
        touchDistance := Some(distance);
      }
    }

    method HandleTouchMove(touchCount: nat, distance: real)
      requires Valid()
      requires touchCount >= 2 ==> PreviousDistance(touchDistance, distance) != 0.0
      modifies this
      ensures Valid() && Snapshot() == TouchMove(old(Snapshot()), touchCount, distance)
    {
      if touchCount >= 2 {
        var previous := PreviousDistance(touchDistance, distance);
        var delta := distance / previous;
        var newScale := Clamp(scale * delta);
        scale := newScale;
        touchDistance := Some(distance);
      }
    }

    /** The element's `onTouchStart`: start a drag, then record the pinch distance. */
    method OnTouchStartEvent(firstTouch: Point, touchCount: nat, distance: real)
      requires Valid()
      modifies this
      ensures Valid() && Snapshot() == OnTouchStart(old(Snapshot()), firstTouch, touchCount, distance)
    {
      HandleMouseDown(firstTouch);
      HandleTouchStart(touchCount, distance);
    }
  }
}
