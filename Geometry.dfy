// The drawing records the chart lays out: Android's `RectF` and the parts of
// `Paint` the layout sets, and the chart's `Primitive` slot (a rectangle, a
// paint, and the start and sweep of a pie arc).

module Geometry {
  import Palette

  /** A view's laid-out size and its paddings. */
  datatype Frame = Frame(width: nat, height: nat,
                         paddingLeft: int, paddingTop: int, paddingRight: int, paddingBottom: int)

  /** `RectF`. */
  datatype Rect = Rect(left: real, top: real, right: real, bottom: real)

  /** The rectangle `RectF.setEmpty()` leaves. */
  const EMPTY: Rect := Rect(0.0, 0.0, 0.0, 0.0)

  /** `RectF.isEmpty`. */
  predicate IsEmpty(r: Rect)
  {
    r.left >= r.right || r.top >= r.bottom
  }

  /** `RectF.contains(x, y)`: left and top edges inside, right and bottom
      edges outside, and never a point of an empty rectangle. */
  predicate Contains(r: Rect, x: real, y: real)
  {
    r.left < r.right && r.top < r.bottom && r.left <= x < r.right && r.top <= y < r.bottom
  }

  datatype Style = Fill | Stroke

  /** The parts of `Paint` the chart sets. */
  datatype Paint = Paint(strokeWidth: real, style: Style, color: int)

  /** A fresh `Paint()`: hairline width, filled, black. */
  const DEFAULT_PAINT: Paint := Paint(0.0, Fill, Palette.BLACK)

  /** One chart slot: its rectangle (a bar, or the square a pie ring is drawn
      in), its paint, and for a pie wedge its start angle and sweep. */
  datatype Primitive = Primitive(rect: Rect, paint: Paint, start: real, end: real)

  /** A fresh `Primitive()`. */
  const DEFAULT_PRIMITIVE: Primitive := Primitive(EMPTY, DEFAULT_PAINT, 0.0, 0.0)

  /** What a touch is tested against: a point for the bar chart, an angle
      for the pie chart. */
  datatype Probe = Point(x: real, y: real) | Angle(degrees: real)

  /** Whether a slot answers a touch: rectangle containment for a point;
      `angle >= start && angle <= start + end` for an angle. */
  predicate Hits(p: Primitive, probe: Probe)
  {
    match probe
    case Point(x, y) => Contains(p.rect, x, y)
    case Angle(a) => p.start <= a <= p.start + p.end
  }
}
