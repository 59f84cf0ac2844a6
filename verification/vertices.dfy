/**
 The vertex side of the mesh builder: `BevyVertex`, the conversion of a lyon
 point into it, the three vertex-constructor entry points lyon calls back
 into, and the vertex/index buffers the tessellator appends to.
 */
module Vertices {
  import opened Geometry

  /** `[f32; 3]` and `[f32; 2]` attribute values. */
  datatype Vec3 = Vec3(x: real, y: real, z: real)

  datatype Vec2 = Vec2(x: real, y: real)

  /** The planar normal every vertex carries: +Z. */
  const UpNormal: Vec3 := Vec3(0.0, 0.0, 1.0)

  /** Everything the renderer needs of one vertex. */
  datatype BevyVertex = BevyVertex(pos: Vec3, norm: Vec3, uv: Vec2)

  /** A vertex of planar geometry: it lies in z = 0, faces +Z, and its uv repeats its (x, y). */
  predicate IsPlanar(v: BevyVertex) {
    && v.pos.z == 0.0
    && v.norm == UpNormal
    && v.uv == Vec2(v.pos.x, v.pos.y)
  }

  /** The point a vertex was made from: its position without the z coordinate. */
  function ToPoint(v: BevyVertex): Point {
    Point(v.pos.x, v.pos.y)
  }

  /** `From<Point> for BevyVertex`: the one conversion every constructor uses. */
  function FromPoint(p: Point): (v: BevyVertex)
    ensures IsPlanar(v)
    ensures ToPoint(v) == p
  {
    BevyVertex(Vec3(p.x, p.y, 0.0), UpNormal, Vec2(p.x, p.y))
  }

  /** The planar vertices are exactly the images of points, and `ToPoint` undoes `FromPoint` on them. */
  lemma PlanarIffConverted(v: BevyVertex)
    ensures IsPlanar(v) <==> exists p :: FromPoint(p) == v
    ensures IsPlanar(v) ==> FromPoint(ToPoint(v)) == v
  {
    if IsPlanar(v) {
      assert FromPoint(ToPoint(v)) == v;
    }
  }

  /** Two points give the same vertex only when they are the same point. */
  lemma FromPointInjective(p: Point, q: Point)
    ensures FromPoint(p) == FromPoint(q) <==> p == q
  {
  }

  /**
   The per-vertex attributes lyon hands to the fill and stroke callbacks.
   The adapter never looks inside them, so their contents are kept opaque.
   */
  datatype FillAttributes = FillAttributes(payload: seq<real>)

  datatype StrokeAttributes = StrokeAttributes(payload: seq<real>)

  /** `BasicVertexConstructor::new_vertex`. */
  function NewVertex(p: Point): (v: BevyVertex)
    ensures v == FromPoint(p)
  {
    FromPoint(p)
  }

  /** `FillVertexConstructor::new_vertex`: the fill attributes are discarded. */
  function NewFillVertex(p: Point, attributes: FillAttributes): (v: BevyVertex)
    ensures v == FromPoint(p)
  {
    FromPoint(p)
  }

  /** `StrokeVertexConstructor::new_vertex`: the stroke attributes are discarded. */
  function NewStrokeVertex(p: Point, attributes: StrokeAttributes): (v: BevyVertex)
    ensures v == FromPoint(p)
  {
    FromPoint(p)
  }

  /** Whichever callback lyon uses, and whatever attributes it passes, a point yields one and the same vertex. */
  lemma ConstructorsAgree(p: Point, fa: FillAttributes, fb: FillAttributes, sa: StrokeAttributes, sb: StrokeAttributes)
    ensures NewFillVertex(p, fa) == NewFillVertex(p, fb) == NewVertex(p)
    ensures NewStrokeVertex(p, sa) == NewStrokeVertex(p, sb) == NewVertex(p)
    ensures IsPlanar(NewVertex(p)) && NewVertex(p).pos == Vec3(p.x, p.y, 0.0)
  {
  }

  /** `BevyIndex`: indices are 32-bit unsigned integers. */
  newtype BevyIndex = x: int | 0 <= x < 0x1_0000_0000

  /** `BevyVertexBuffers`: the vertex list and index list a tessellation pass appends to. */
  datatype VertexBuffers = VertexBuffers(vertices: seq<BevyVertex>, indices: seq<BevyIndex>)

  /** `VertexBuffers::new()`. */
  const EmptyBuffers: VertexBuffers := VertexBuffers([], [])

  /** Every index names an existing vertex. */
  predicate WellFormed(b: VertexBuffers) {
    forall k :: 0 <= k < |b.indices| ==> b.indices[k] as int < |b.vertices|
  }

  /** `after` only appended to `before`: both of its lists start with the lists of `before`. */
  predicate Extends(before: VertexBuffers, after: VertexBuffers) {
    && before.vertices <= after.vertices
    && before.indices <= after.indices
  }

  /** Every vertex in the buffer went through the vertex constructor. */
  predicate AllPlanar(b: VertexBuffers) {
    forall k :: 0 <= k < |b.vertices| ==> IsPlanar(b.vertices[k])
  }

  /** What lyon hands the vertex constructor: a point, with fill or stroke attributes for those callbacks. */
  datatype VertexInput =
    | BasicInput(point: Point)
    | FillInput(point: Point, fillAttributes: FillAttributes)
    | StrokeInput(point: Point, strokeAttributes: StrokeAttributes)

  /** `BevyVertexConstructor` as the sink invokes it: the entry point matching the input. */
  function Construct(input: VertexInput): (v: BevyVertex)
    ensures v == FromPoint(input.point)
  {
    match input
    case BasicInput(p) => NewVertex(p)
    case FillInput(p, a) => NewFillVertex(p, a)
    case StrokeInput(p, a) => NewStrokeVertex(p, a)
  }

  /**
   One write into `BevyBuffersBuilder`, the sink every shape is given: a new
   vertex, which goes through the vertex constructor, or an index, already
   translated to the shared vertex list by lyon.
   */
  datatype SinkOp = PushVertex(input: VertexInput) | PushIndex(index: BevyIndex)

  /** The vertices a series of writes adds, in order. */
  function EmittedVertices(ops: seq<SinkOp>): (vs: seq<BevyVertex>)
    ensures |vs| <= |ops|
    ensures forall k :: 0 <= k < |vs| ==> IsPlanar(vs[k])
  {
    if ops == [] then []
    else (if ops[0].PushVertex? then [Construct(ops[0].input)] else []) + EmittedVertices(ops[1..])
  }

  /** The indices a series of writes adds, in order. */
  function EmittedIndices(ops: seq<SinkOp>): (ixs: seq<BevyIndex>)
    ensures |ixs| <= |ops|
  {
    if ops == [] then []
    else (if ops[0].PushIndex? then [ops[0].index] else []) + EmittedIndices(ops[1..])
  }

  /** One write: a vertex is constructed and pushed, an index is pushed. */
  function Write(b: VertexBuffers, op: SinkOp): VertexBuffers {
    match op
    case PushVertex(input) => b.(vertices := b.vertices + [Construct(input)])
    case PushIndex(index) => b.(indices := b.indices + [index])
  }

  /**
   The buffers after a series of writes, made one at a time: exactly the
   emitted vertices and indices are appended, so nothing already there moves
   or changes, and every new vertex is planar.
   */
  function Apply(b: VertexBuffers, ops: seq<SinkOp>): (r: VertexBuffers)
    ensures r.vertices == b.vertices + EmittedVertices(ops)
    ensures r.indices == b.indices + EmittedIndices(ops)
    decreases |ops|
  {
    if ops == [] then b
    else
      var w := Write(b, ops[0]);
      var r := Apply(w, ops[1..]);
      var vs := if ops[0].PushVertex? then [Construct(ops[0].input)] else [];
      var ixs := if ops[0].PushIndex? then [ops[0].index] else [];
      assert w.vertices == b.vertices + vs && w.indices == b.indices + ixs;
      assert r.vertices == b.vertices + EmittedVertices(ops) by {
        calc {
          r.vertices;
          (b.vertices + vs) + EmittedVertices(ops[1..]);
          b.vertices + (vs + EmittedVertices(ops[1..]));
        }
      }
      assert r.indices == b.indices + EmittedIndices(ops) by {
        calc {
          r.indices;
          (b.indices + ixs) + EmittedIndices(ops[1..]);
          b.indices + (ixs + EmittedIndices(ops[1..]));
        }
      }
      r
  }

  /** Writing through the sink only appends, and keeps every vertex planar. */
  lemma ApplyAppendsPlanar(b: VertexBuffers, ops: seq<SinkOp>)
    ensures Extends(b, Apply(b, ops))
    ensures AllPlanar(b) ==> AllPlanar(Apply(b, ops))
  {
  }
}
