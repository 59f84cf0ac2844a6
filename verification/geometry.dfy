/**
 The value types of lyon's `math` vocabulary that the adapter forwards to the
 tessellator. Coordinates are `real`: the adapter only copies them (and uses
 the constants 0 and 1), so no floating-point reasoning is modelled.
 */
module Geometry {

  /** lyon's `math::Point`; its `Default` is the origin. */
  datatype Point = Point(x: real, y: real)

  const Origin: Point := Point(0.0, 0.0)

  /** lyon's `math::Vector` (used for the ellipse radii). */
  datatype Vector = Vector(x: real, y: real)

  /** lyon's `math::Angle`; its `Default` is zero radians. */
  datatype Angle = Angle(radians: real)

  const ZeroAngle: Angle := Angle(0.0)

  /** lyon's `math::Size` and `math::Rect`; the default rectangle is the empty one at the origin. */
  datatype Size = Size(width: real, height: real)

  datatype Rect = Rect(origin: Point, size: Size)

  const EmptyRect: Rect := Rect(Origin, Size(0.0, 0.0))

  /** lyon's `basic_shapes::BorderRadii`: one radius per corner of a rounded rectangle. */
  datatype BorderRadii = BorderRadii(topLeft: real, topRight: real, bottomLeft: real, bottomRight: real)
  {
    /** True when the four corners share one radius. */
    predicate Uniform() {
      topLeft == topRight == bottomLeft == bottomRight
    }
  }

  /** `BorderRadii::new_all_same(radius)`. */
  function AllSame(radius: real): (r: BorderRadii)
    ensures r.Uniform()
    ensures r.topLeft == radius
  {
    BorderRadii(radius, radius, radius, radius)
  }

  /** Squared Euclidean distance, used only to state facts about default shapes. */
  function DistanceSquared(p: Point, q: Point): real {
    (p.x - q.x) * (p.x - q.x) + (p.y - q.y) * (p.y - q.y)
  }
}
