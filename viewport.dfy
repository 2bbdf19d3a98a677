/** The pan/zoom viewport of the fallback map, as both fallback components
    implement it: a scale, a screen-space offset (`position`), a dragging flag
    and the drag anchor (`startPosition`). This module holds the rules the two
    components share (the mouse/touch drag handlers and wheel zoom) as pure
    transitions on a `View`; the components' classes are proved against them. */
module Viewport {

  /** A screen-space point or offset, in pixels. */
  datatype Point = Point(x: real, y: real)

  const Origin: Point := Point(0.0, 0.0)

  function Plus(p: Point, d: Point): Point
  {
    Point(p.x + d.x, p.y + d.y)
  }

  function Minus(p: Point, q: Point): Point
  {
    Point(p.x - q.x, p.y - q.y)
  }

  const MinScale: real := 0.5
  const MaxScale: real := 5.0
  /** The factor one wheel notch multiplies or divides the scale by. */
  const WheelFactor: real := 1.1

  predicate InRange(s: real)
  {
    MinScale <= s <= MaxScale
  }

  /** `Math.min(s * factor, 5)`: the least of the two. */
  function ScaledUp(s: real, factor: real): (r: real)
    ensures r <= MaxScale && r <= s * factor
    ensures r == MaxScale || r == s * factor
  {
    if s * factor < MaxScale then s * factor else MaxScale
  }

  /** `Math.max(s / factor, 0.5)`: the greatest of the two. */
  function ScaledDown(s: real, factor: real): (r: real)
    requires factor != 0.0
    ensures r >= MinScale && r >= s / factor
    ensures r == MinScale || r == s / factor
  {
    if s / factor > MinScale then s / factor else MinScale
  }

  /** `Math.min(Math.max(x, 0.5), 5)`: the point of [0.5, 5] nearest to `x`. */
  function Clamp(x: real): (r: real)
    ensures InRange(r)
    ensures InRange(x) ==> r == x
    ensures x < MinScale ==> r == MinScale
    ensures x > MaxScale ==> r == MaxScale
  {
    var lower := if x > MinScale then x else MinScale;
    if lower < MaxScale then lower else MaxScale
  }

  /** The scale after `handleWheel`: a negative `deltaY` zooms in by 1.1,
      capped at 5; every other value (0 included) zooms out by 1.1, floored at
      0.5. From an in-range scale the result is in range, and it moves in the
      wheel's direction. */
  function WheelScale(s: real, deltaY: real): (r: real)
    ensures deltaY < 0.0 ==> r <= MaxScale && r <= s * WheelFactor
    ensures deltaY < 0.0 ==> r == MaxScale || r == s * WheelFactor
    ensures deltaY >= 0.0 ==> r >= MinScale && r >= s / WheelFactor
    ensures deltaY >= 0.0 ==> r == MinScale || r == s / WheelFactor
    ensures InRange(s) ==> InRange(r)
    ensures InRange(s) && deltaY < 0.0 ==> s <= r
    ensures InRange(s) && deltaY >= 0.0 ==> r <= s
  {
    if deltaY < 0.0 then ScaledUp(s, WheelFactor) else ScaledDown(s, WheelFactor)
  }

  /** The state both fallback components keep. */
  datatype View = View(scale: real, position: Point, isDragging: bool, startPosition: Point)

  /** The `useState` initial values. */
  const Initial: View := View(1.0, Origin, false, Origin)

  /** `handleMouseDown` at pointer `p` (the mouse position, or the first touch). */
  function MouseDown(v: View, p: Point): (r: View)
    ensures r.isDragging
    ensures Plus(r.startPosition, v.position) == p
    ensures r.scale == v.scale && r.position == v.position
  {
    v.(isDragging := true, startPosition := Minus(p, v.position))
  }

  /** `handleMouseMove` to pointer `p`: only effective while dragging. */
  function MouseMove(v: View, p: Point): (r: View)
    ensures !v.isDragging ==> r == v
    ensures v.isDragging ==> Plus(r.position, v.startPosition) == p
    ensures r.(position := v.position) == v
  {
    if !v.isDragging then v else v.(position := Minus(p, v.startPosition))
  }

  /** `handleMouseUp`. */
  function MouseUp(v: View): (r: View)
    ensures !r.isDragging
    ensures r.(isDragging := v.isDragging) == v
  {
    v.(isDragging := false)
  }

  /** `handleWheel`. */
  function Wheel(v: View, deltaY: real): (r: View)
    ensures r.scale == WheelScale(v.scale, deltaY)
    ensures r.(scale := v.scale) == v
  {
    v.(scale := WheelScale(v.scale, deltaY))
  }

  /** A drag moves the content with the pointer 1:1: after a press at `p` the
      move to `q` shifts the offset by exactly `q - p`, whatever the scale; a
      move back to `p` restores the offset held before the press. */
  lemma DragFollowsPointer(v: View, p: Point, q: Point)
    ensures MouseMove(MouseDown(v, p), q).position == Plus(v.position, Minus(q, p))
    ensures MouseMove(MouseDown(v, p), p).position == v.position
    ensures MouseMove(MouseDown(v, p), q).scale == v.scale
  {
  }

  /** Moves are measured from the press, not from the previous move. */
  lemma DragIsRelativeToPress(v: View, p: Point, q1: Point, q2: Point)
    ensures MouseMove(MouseMove(MouseDown(v, p), q1), q2).position == Plus(v.position, Minus(q2, p))
  {
  }

  /** A move while not dragging changes nothing. */
  lemma MoveWhileIdleIsNoop(v: View, p: Point)
    requires !v.isDragging
    ensures MouseMove(v, p) == v
  {
  }

  /** Mouse-up ends the drag, touches nothing else and is idempotent. */
  lemma MouseUpIdempotent(v: View)
    ensures !MouseUp(v).isDragging
    ensures MouseUp(MouseUp(v)) == MouseUp(v)
    ensures MouseUp(v).(isDragging := v.isDragging) == v
  {
  }

  /** Once the drag has ended, further moves are ignored. */
  lemma MoveAfterReleaseIsNoop(v: View, p0: Point, p1: Point, p2: Point)
    ensures var released := MouseUp(MouseMove(MouseDown(v, p0), p1));
            MouseMove(released, p2) == released
  {
  }

  /** A wheel turn changes only the scale. */
  lemma WheelChangesOnlyScale(v: View, deltaY: real)
    ensures Wheel(v, deltaY).(scale := v.scale) == v
    ensures InRange(v.scale) ==> InRange(Wheel(v, deltaY).scale)
  {
  }
}
