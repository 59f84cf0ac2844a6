/**
 The shape-builder capability. A shape is either an arbitrary closure
 writing into the sink or one of the named shape structs; building a named
 shape forwards its fields to one of lyon's `basic_shapes` routines and throws
 the routine's result away. lyon itself is not modelled: it is the parameter
 `tess`, a function from a request (which routine, which arguments) and the
 current buffers to the writes it makes into the sink plus the result it
 reports. Closures and lyon alike can only write through the sink.
 */
module Shapes {
  import opened Geometry
  import opened Vertices

  /**
   lyon's `FillOptions` and `StrokeOptions`, opaque here because the adapter
   only forwards them; `id` 0 stands for the library's `DEFAULT`.
   */
  datatype FillOptions = FillOptions(id: nat)

  datatype StrokeOptions = StrokeOptions(id: nat)

  const DefaultFillOptions: FillOptions := FillOptions(0)

  const DefaultStrokeOptions: StrokeOptions := StrokeOptions(0)

  /** lyon's `FillTessellator`, opaque here; `id` 0 stands for a fresh `FillTessellator::new()`. */
  datatype FillTessellator = FillTessellator(id: nat)

  const FreshFillTessellator: FillTessellator := FillTessellator(0)

  /** `[Point; 4]` and `[Point; 3]`. */
  type Quad = s: seq<Point> | |s| == 4 witness [Origin, Origin, Origin, Origin]

  type Triangle = s: seq<Point> | |s| == 3 witness [Origin, Origin, Origin]

  /** One value per shape struct, with that struct's fields. Point collections are modelled as sequences. */
  datatype NamedShape =
    | FillCircle(center: Point, radius: real, fillOptions: FillOptions)
    | FillConvexPolyline(points: seq<Point>, fillOptions: FillOptions)
    | FillPolyline(points: seq<Point>, tessellator: FillTessellator, fillOptions: FillOptions)
    | FillQuad(quad: Quad, fillOptions: FillOptions)
    | FillRect(rect: Rect, fillOptions: FillOptions)
    | FillRoundedRect(rect: Rect, radii: BorderRadii, fillOptions: FillOptions)
    | StrokeCircle(center: Point, radius: real, strokeOptions: StrokeOptions)
    | StrokeEllipse(center: Point, ellipseRadii: Vector, xRotation: Angle, strokeOptions: StrokeOptions)
    | StrokePolyline(points: seq<Point>, isClosed: bool, strokeOptions: StrokeOptions)
    | StrokeQuad(quad: Quad, strokeOptions: StrokeOptions)
    | StrokeRect(rect: Rect, strokeOptions: StrokeOptions)
    | StrokeRoundedRect(rect: Rect, radii: BorderRadii, strokeOptions: StrokeOptions)
    | StrokeTriangle(triangle: Triangle, strokeOptions: StrokeOptions)
  {
    predicate IsFill() {
      FillCircle? || FillConvexPolyline? || FillPolyline? || FillQuad? || FillRect? || FillRoundedRect?
    }
  }

  /**
   Anything that implements `LyonShapeBuilder`: a closure, which may look at
   the buffers but can only change them by writing into the sink, or a named shape.
   */
  datatype Shape =
    | Closure(f: VertexBuffers -> seq<SinkOp>)
    | Named(shape: NamedShape)

  /** A call into one of lyon's `basic_shapes` routines, with its arguments in the order they are passed. */
  datatype TessCall =
    | FillCircleCall(center: Point, radius: real, fillOptions: FillOptions)
    | FillConvexPolylineCall(points: seq<Point>, fillOptions: FillOptions)
    | FillPolylineCall(points: seq<Point>, tessellator: FillTessellator, fillOptions: FillOptions)
    | FillQuadCall(a: Point, b: Point, c: Point, d: Point, fillOptions: FillOptions)
    | FillRectangleCall(rect: Rect, fillOptions: FillOptions)
    | FillRoundedRectangleCall(rect: Rect, radii: BorderRadii, fillOptions: FillOptions)
    | StrokeCircleCall(center: Point, radius: real, strokeOptions: StrokeOptions)
    | StrokeEllipseCall(center: Point, ellipseRadii: Vector, xRotation: Angle, strokeOptions: StrokeOptions)
    | StrokePolylineCall(points: seq<Point>, isClosed: bool, strokeOptions: StrokeOptions)
    | StrokeQuadCall(a: Point, b: Point, c: Point, d: Point, strokeOptions: StrokeOptions)
    | StrokeRectangleCall(rect: Rect, strokeOptions: StrokeOptions)
    | StrokeRoundedRectangleCall(rect: Rect, radii: BorderRadii, strokeOptions: StrokeOptions)
    | StrokeTriangleCall(a: Point, b: Point, c: Point, strokeOptions: StrokeOptions)
  {
    /** The call goes to a fill routine (as opposed to a stroke routine). */
    predicate IsFill() {
      || FillCircleCall? || FillConvexPolylineCall? || FillPolylineCall? || FillQuadCall?
      || FillRectangleCall? || FillRoundedRectangleCall?
    }
  }

  /** lyon's `Count` and `TessellationError`; the error's kind is opaque. */
  datatype Count = Count(vertices: nat, indices: nat)

  datatype TessellationError = TessellationError(kind: nat)

  /** lyon's `TessellationResult`. */
  datatype TessResult = Done(count: Count) | Failed(error: TessellationError)

  /** What a tessellation routine does: the writes it makes into the sink, and the result it returns. */
  datatype TessOutput = TessOutput(writes: seq<SinkOp>, result: TessResult)

  /** lyon's `basic_shapes`, as one function over requests. */
  type Tessellator = (TessCall, VertexBuffers) -> TessOutput

  /** The call each named shape's `build` makes: every field forwarded, points in index order. */
  function Call(s: NamedShape): (c: TessCall)
    ensures ShapeOf(c) == s
    ensures c.IsFill() <==> s.IsFill()
    ensures s.FillQuad? ==> c == FillQuadCall(s.quad[0], s.quad[1], s.quad[2], s.quad[3], s.fillOptions)
    ensures s.StrokeQuad? ==> c == StrokeQuadCall(s.quad[0], s.quad[1], s.quad[2], s.quad[3], s.strokeOptions)
    ensures s.StrokeTriangle? ==> c == StrokeTriangleCall(s.triangle[0], s.triangle[1], s.triangle[2], s.strokeOptions)
  {
    match s
    case FillCircle(center, radius, o) => FillCircleCall(center, radius, o)
    case FillConvexPolyline(points, o) => FillConvexPolylineCall(points, o)
    case FillPolyline(points, t, o) => FillPolylineCall(points, t, o)
    case FillQuad(q, o) =>
      assert [q[0], q[1], q[2], q[3]] == q;
      FillQuadCall(q[0], q[1], q[2], q[3], o)
    case FillRect(rect, o) => FillRectangleCall(rect, o)
    case FillRoundedRect(rect, radii, o) => FillRoundedRectangleCall(rect, radii, o)
    case StrokeCircle(center, radius, o) => StrokeCircleCall(center, radius, o)
    case StrokeEllipse(center, radii, rotation, o) => StrokeEllipseCall(center, radii, rotation, o)
    case StrokePolyline(points, closed, o) => StrokePolylineCall(points, closed, o)
    case StrokeQuad(q, o) =>
      assert [q[0], q[1], q[2], q[3]] == q;
      StrokeQuadCall(q[0], q[1], q[2], q[3], o)
    case StrokeRect(rect, o) => StrokeRectangleCall(rect, o)
    case StrokeRoundedRect(rect, radii, o) => StrokeRoundedRectangleCall(rect, radii, o)
    case StrokeTriangle(t, o) =>
      assert [t[0], t[1], t[2]] == t;
      StrokeTriangleCall(t[0], t[1], t[2], o)
  }

  /** Reads a shape back from the call it makes, taking the routine's arguments in order. */
  function ShapeOf(c: TessCall): NamedShape {
    match c
    case FillCircleCall(center, radius, o) => FillCircle(center, radius, o)
    case FillConvexPolylineCall(points, o) => FillConvexPolyline(points, o)
    case FillPolylineCall(points, t, o) => FillPolyline(points, t, o)
    case FillQuadCall(a, b, c, d, o) => FillQuad([a, b, c, d], o)
    case FillRectangleCall(rect, o) => FillRect(rect, o)
    case FillRoundedRectangleCall(rect, radii, o) => FillRoundedRect(rect, radii, o)
    case StrokeCircleCall(center, radius, o) => StrokeCircle(center, radius, o)
    case StrokeEllipseCall(center, radii, rotation, o) => StrokeEllipse(center, radii, rotation, o)
    case StrokePolylineCall(points, closed, o) => StrokePolyline(points, closed, o)
    case StrokeQuadCall(a, b, c, d, o) => StrokeQuad([a, b, c, d], o)
    case StrokeRectangleCall(rect, o) => StrokeRect(rect, o)
    case StrokeRoundedRectangleCall(rect, radii, o) => StrokeRoundedRect(rect, radii, o)
    case StrokeTriangleCall(a, b, c, o) => StrokeTriangle([a, b, c], o)
  }

  /** Every request lyon can be sent comes from exactly one shape: the forwarding is a bijection. */
  lemma CallIsBijective(s: NamedShape, t: NamedShape, c: TessCall)
    ensures Call(s) == Call(t) <==> s == t
    ensures Call(ShapeOf(c)) == c
  {
  }

  /** The writes a shape makes into the sink when built on buffers `b`. */
  function Writes(s: Shape, tess: Tessellator, b: VertexBuffers): seq<SinkOp> {
    match s
    case Closure(f) => f(b)
    case Named(n) => tess(Call(n), b).writes
  }

  /**
   `LyonShapeBuilder::build`. A closure is simply invoked on the sink. A
   named shape sends its call to lyon, whose writes into the sink stay; the
   routine's result, success or failure, is dropped. Either way the buffers
   only grow, and only by vertices that went through the vertex constructor.
   */
  function Build(s: Shape, tess: Tessellator, b: VertexBuffers): (r: VertexBuffers)
    ensures s.Closure? ==> r == Apply(b, s.f(b))
    ensures s.Named? ==> r == Apply(b, tess(Call(s.shape), b).writes)
    ensures Extends(b, r)
    ensures AllPlanar(b) ==> AllPlanar(r)
  {
    ApplyAppendsPlanar(b, Writes(s, tess, b));
    Apply(b, Writes(s, tess, b))
  }

  /** The result lyon reported for a named shape, which `Build` discards. */
  function Reported(n: NamedShape, tess: Tessellator, b: VertexBuffers): TessResult {
    tess(Call(n), b).result
  }

  /** `tess`, except that every routine reports a failure after making the same writes. */
  function AlwaysFailing(tess: Tessellator, e: TessellationError): (t: Tessellator)
    ensures forall c, b :: t(c, b).writes == tess(c, b).writes && t(c, b).result.Failed?
  {
    (c, b) => TessOutput(tess(c, b).writes, Failed(e))
  }

  /**
   Building never depends on what lyon reports: two tessellators that make
   the same writes give the same build, so a failure never reaches the caller.
   */
  lemma BuildIgnoresResult(s: Shape, tess: Tessellator, other: Tessellator, b: VertexBuffers)
    requires forall c :: other(c, b).writes == tess(c, b).writes
    ensures Build(s, other, b) == Build(s, tess, b)
  {
  }

  /** In particular a build whose routine fails gives the same buffers as one that succeeds, though the failure is reported. */
  lemma FailureIsSwallowed(n: NamedShape, tess: Tessellator, e: TessellationError, b: VertexBuffers)
    ensures Build(Named(n), AlwaysFailing(tess, e), b) == Build(Named(n), tess, b)
    ensures Reported(n, AlwaysFailing(tess, e), b) == Failed(e)
  {
  }

  // The `Default` of each shape struct.

  function DefaultFillCircle(): (s: NamedShape)
    ensures s.FillCircle? && s.center == Origin && s.radius == 25.0 && s.fillOptions == DefaultFillOptions
  {
    FillCircle(Origin, 25.0, DefaultFillOptions)
  }

  function DefaultFillConvexPolyline(): (s: NamedShape)
    ensures s.FillConvexPolyline? && s.points == [] && s.fillOptions == DefaultFillOptions
  {
    FillConvexPolyline([], DefaultFillOptions)
  }

  function DefaultFillPolyline(): (s: NamedShape)
    ensures s.FillPolyline? && s.points == [] && s.tessellator == FreshFillTessellator && s.fillOptions == DefaultFillOptions
  {
    FillPolyline([], FreshFillTessellator, DefaultFillOptions)
  }

  /** The corners both default quads start from. */
  const DefaultQuadCorners: Quad := [Point(0.0, 0.0), Point(0.0, 25.0), Point(25.0, 25.0), Point(25.0, 0.0)]

  function DefaultFillQuad(): (s: NamedShape)
    ensures s.FillQuad? && s.quad == DefaultQuadCorners && s.fillOptions == DefaultFillOptions
  {
    FillQuad(DefaultQuadCorners, DefaultFillOptions)
  }

  function DefaultFillRect(): (s: NamedShape)
    ensures s.FillRect? && s.rect == EmptyRect && s.fillOptions == DefaultFillOptions
  {
    FillRect(EmptyRect, DefaultFillOptions)
  }

  function DefaultFillRoundedRect(): (s: NamedShape)
    ensures s.FillRoundedRect? && s.rect == EmptyRect && s.fillOptions == DefaultFillOptions
    ensures s.radii.Uniform() && s.radii.topLeft == 10.0
  {
    FillRoundedRect(EmptyRect, AllSame(10.0), DefaultFillOptions)
  }

  function DefaultStrokeCircle(): (s: NamedShape)
    ensures s.StrokeCircle? && s.center == Origin && s.radius == 25.0 && s.strokeOptions == DefaultStrokeOptions
  {
    StrokeCircle(Origin, 25.0, DefaultStrokeOptions)
  }

  function DefaultStrokeEllipse(): (s: NamedShape)
    ensures s.StrokeEllipse? && s.center == Origin && s.strokeOptions == DefaultStrokeOptions
    ensures s.ellipseRadii == Vector(40.0, 25.0) && s.xRotation == ZeroAngle
  {
    StrokeEllipse(Origin, Vector(40.0, 25.0), ZeroAngle, DefaultStrokeOptions)
  }

  function DefaultStrokePolyline(): (s: NamedShape)
    ensures s.StrokePolyline? && s.points == [] && s.isClosed && s.strokeOptions == DefaultStrokeOptions
  {
    StrokePolyline([], true, DefaultStrokeOptions)
  }

  function DefaultStrokeQuad(): (s: NamedShape)
    ensures s.StrokeQuad? && s.quad == DefaultQuadCorners && s.strokeOptions == DefaultStrokeOptions
  {
    StrokeQuad(DefaultQuadCorners, DefaultStrokeOptions)
  }

  function DefaultStrokeRect(): (s: NamedShape)
    ensures s.StrokeRect? && s.rect == EmptyRect && s.strokeOptions == DefaultStrokeOptions
  {
    StrokeRect(EmptyRect, DefaultStrokeOptions)
  }

  function DefaultStrokeRoundedRect(): (s: NamedShape)
    ensures s.StrokeRoundedRect? && s.rect == EmptyRect && s.strokeOptions == DefaultStrokeOptions
    ensures s.radii.Uniform() && s.radii.topLeft == 10.0
  {
    StrokeRoundedRect(EmptyRect, AllSame(10.0), DefaultStrokeOptions)
  }

  /** The corners of the default triangle; the apex sits at `25.0 / 2.0`. */
  const DefaultTriangleCorners: Triangle := [Point(0.0, 0.0), Point(25.0 / 2.0, 25.0), Point(25.0, 0.0)]

  function DefaultStrokeTriangle(): (s: NamedShape)
    ensures s.StrokeTriangle? && s.triangle == DefaultTriangleCorners && s.strokeOptions == DefaultStrokeOptions
  {
    StrokeTriangle(DefaultTriangleCorners, DefaultStrokeOptions)
  }

  /** Side `k` of a quad, from corner `k` to the next corner around, is axis-aligned and has squared length `lengthSquared`. */
  predicate AxisAlignedSide(q: Quad, k: int, lengthSquared: real)
    requires 0 <= k < 4
  {
    var p, n := q[k], q[(k + 1) % 4];
    DistanceSquared(p, n) == lengthSquared && (p.x == n.x || p.y == n.y)
  }

  /**
   The default quad is the 25-by-25 axis-aligned square with a corner at the
   origin, its corners visited in turn around the boundary; both quad shapes
   hand them to lyon in that order.
   */
  lemma DefaultQuadIsSquare()
    ensures forall k :: 0 <= k < 4 ==> AxisAlignedSide(DefaultQuadCorners, k, 625.0)
    ensures DefaultQuadCorners[0] == Origin
    ensures Call(DefaultFillQuad()) == FillQuadCall(Origin, Point(0.0, 25.0), Point(25.0, 25.0), Point(25.0, 0.0), DefaultFillOptions)
    ensures Call(DefaultStrokeQuad()) == StrokeQuadCall(Origin, Point(0.0, 25.0), Point(25.0, 25.0), Point(25.0, 0.0), DefaultStrokeOptions)
  {
  }

  /**
   The default triangle is isosceles with a base of 25 on the x axis and its
   apex at height 25 above the base's midpoint; it is forwarded corner by corner.
   */
  lemma DefaultTriangleIsIsosceles()
    ensures DefaultTriangleCorners[0].y == DefaultTriangleCorners[2].y == 0.0
    ensures DefaultTriangleCorners[1].x == (DefaultTriangleCorners[0].x + DefaultTriangleCorners[2].x) / 2.0
    ensures DefaultTriangleCorners[1].y == 25.0
    ensures DistanceSquared(DefaultTriangleCorners[0], DefaultTriangleCorners[1])
         == DistanceSquared(DefaultTriangleCorners[2], DefaultTriangleCorners[1])
    ensures Call(DefaultStrokeTriangle()) == StrokeTriangleCall(Origin, Point(12.5, 25.0), Point(25.0, 0.0), DefaultStrokeOptions)
  {
  }

  /** A stroked polyline is sent to lyon closed by default, and a caller's choice is forwarded unchanged. */
  lemma PolylineClosedness(points: seq<Point>, closed: bool, o: StrokeOptions)
    ensures Call(DefaultStrokePolyline()).isClosed
    ensures Call(StrokePolyline(points, closed, o)).isClosed == closed
  {
  }
}
