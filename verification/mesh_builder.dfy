/**
 `LyonMeshBuilder`: owns one pair of vertex/index buffers, lets shapes write
 into it one after another, and finally splits the vertex list into the three
 parallel attribute arrays of a renderable mesh.
 */
module MeshBuilder {
  import opened Vertices
  import Shapes

  /** The primitive topologies a mesh can be tagged with. */
  datatype PrimitiveTopology = PointList | LineList | LineStrip | TriangleList | TriangleStrip

  /** A finished mesh: position, normal and uv arrays keyed by vertex number, the index array, and the topology. */
  datatype Mesh = Mesh(
    topology: PrimitiveTopology,
    positions: seq<Vec3>,
    normals: seq<Vec3>,
    uvs: seq<Vec2>,
    indices: seq<BevyIndex>)
  {
    /** The three attribute arrays describe the same number of vertices. */
    predicate Parallel() {
      |positions| == |normals| == |uvs|
    }
  }

  /** Reads the vertex list back out of a mesh's parallel attribute arrays. */
  function Zip(m: Mesh): (vs: seq<BevyVertex>)
    requires m.Parallel()
    ensures |vs| == |m.positions|
  {
    seq(|m.positions|, k requires 0 <= k < |m.positions| => BevyVertex(m.positions[k], m.normals[k], m.uvs[k]))
  }

  /** The three attribute arrays being filled in while the vertex list is walked. */
  datatype Attributes = Attributes(positions: seq<Vec3>, normals: seq<Vec3>, uvs: seq<Vec2>)

  /**
   The loop of `build_with_topology`: for each vertex in order, push its
   position, normal and uv onto the three arrays.
   */
  function Project(vs: seq<BevyVertex>): (a: Attributes)
    ensures |a.positions| == |vs| && |a.normals| == |vs| && |a.uvs| == |vs|
    ensures forall k :: 0 <= k < |vs| ==> a.positions[k] == vs[k].pos
    ensures forall k :: 0 <= k < |vs| ==> a.normals[k] == vs[k].norm
    ensures forall k :: 0 <= k < |vs| ==> a.uvs[k] == vs[k].uv
  {
    if vs == [] then Attributes([], [], [])
    else
      var a := Project(vs[..|vs| - 1]);
      var v := vs[|vs| - 1];
      Attributes(a.positions + [v.pos], a.normals + [v.norm], a.uvs + [v.uv])
  }

  /** Projecting a concatenation projects each part and concatenates the arrays. */
  lemma ProjectAppend(xs: seq<BevyVertex>, ys: seq<BevyVertex>)
    ensures Project(xs + ys).positions == Project(xs).positions + Project(ys).positions
    ensures Project(xs + ys).normals == Project(xs).normals + Project(ys).normals
    ensures Project(xs + ys).uvs == Project(xs).uvs + Project(ys).uvs
  {
  }

  /** The builder: just the geometry accumulated so far. */
  datatype LyonMeshBuilder = LyonMeshBuilder(geometry: VertexBuffers)

  /** `LyonMeshBuilder::new`: nothing accumulated yet. */
  function New(): (mb: LyonMeshBuilder)
    ensures |mb.geometry.vertices| == 0 && |mb.geometry.indices| == 0
    ensures WellFormed(mb.geometry) && AllPlanar(mb.geometry)
  {
    LyonMeshBuilder(EmptyBuffers)
  }

  /**
   `build_with_topology`: the mesh carries the requested topology, one
   position, normal and uv per accumulated vertex in the same order, and the
   accumulated index list untouched.
   */
  function BuildWithTopology(mb: LyonMeshBuilder, topology: PrimitiveTopology): (m: Mesh)
    ensures m.topology == topology
    ensures m.Parallel() && |m.positions| == |mb.geometry.vertices|
    ensures forall k :: 0 <= k < |m.positions| ==>
      && m.positions[k] == mb.geometry.vertices[k].pos
      && m.normals[k] == mb.geometry.vertices[k].norm
      && m.uvs[k] == mb.geometry.vertices[k].uv
    ensures Zip(m) == mb.geometry.vertices
    ensures m.indices == mb.geometry.indices
  {
    var a := Project(mb.geometry.vertices);
    var m := Mesh(topology, a.positions, a.normals, a.uvs, mb.geometry.indices);
    assert Zip(m) == mb.geometry.vertices;
    m
  }

  /** `build`: finishing with the default topology, a triangle strip. */
  function Build(mb: LyonMeshBuilder): (m: Mesh)
    ensures m.topology == TriangleStrip
    ensures m.Parallel() && Zip(m) == mb.geometry.vertices
    ensures m.indices == mb.geometry.indices
  {
    BuildWithTopology(mb, TriangleStrip)
  }

  /** Finishing under two topologies gives meshes that differ in the topology tag only. */
  lemma TopologyIsOnlyTag(mb: LyonMeshBuilder, t: PrimitiveTopology, u: PrimitiveTopology)
    ensures BuildWithTopology(mb, t).(topology := u) == BuildWithTopology(mb, u)
    ensures Build(mb) == BuildWithTopology(mb, TriangleStrip)
  {
  }

  /**
   `with`: the shape builds itself into the builder's buffers through the
   sink; for a closure that means the closure's writes are applied and nothing
   else happens. The buffers only grow, and only by constructed vertices.
   */
  function With(mb: LyonMeshBuilder, s: Shapes.Shape, tess: Shapes.Tessellator): (r: LyonMeshBuilder)
    ensures s.Closure? ==> r.geometry == Apply(mb.geometry, s.f(mb.geometry))
    ensures s.Named? ==> r.geometry == Apply(mb.geometry, tess(Shapes.Call(s.shape), mb.geometry).writes)
    ensures Extends(mb.geometry, r.geometry)
    ensures AllPlanar(mb.geometry) ==> AllPlanar(r.geometry)
  {
    LyonMeshBuilder(Shapes.Build(s, tess, mb.geometry))
  }

  /** `with_only`: the finished mesh of exactly one shape built into empty buffers. */
  function WithOnly(s: Shapes.Shape, tess: Shapes.Tessellator): (m: Mesh)
    ensures m.topology == TriangleStrip
    ensures m.Parallel() && Zip(m) == Shapes.Build(s, tess, EmptyBuffers).vertices
    ensures m.indices == Shapes.Build(s, tess, EmptyBuffers).indices
  {
    Build(With(New(), s, tess))
  }

  /** `with_only(s)` is `new().with(s).build()`. */
  lemma WithOnlyIsChain(s: Shapes.Shape, tess: Shapes.Tessellator)
    ensures WithOnly(s, tess) == Build(With(New(), s, tess))
  {
  }

  /**
   Chained `with` calls, one per shape, left to right. Whatever the shapes,
   the chain only appends to the buffers and keeps every vertex planar.
   */
  function WithAll(mb: LyonMeshBuilder, shapes: seq<Shapes.Shape>, tess: Shapes.Tessellator): (r: LyonMeshBuilder)
    ensures Extends(mb.geometry, r.geometry)
    ensures AllPlanar(mb.geometry) ==> AllPlanar(r.geometry)
    decreases |shapes|
  {
    if shapes == [] then mb else WithAll(With(mb, shapes[0], tess), shapes[1..], tess)
  }

  /**
   Index validity is lyon's offsetting, not this code's: assuming every shape
   keeps the buffers well formed, a chain of `with` calls does too, and every
   index of the finished mesh names one of its vertices.
   */
  lemma {:induction false} WithAllWellFormed(mb: LyonMeshBuilder, shapes: seq<Shapes.Shape>, tess: Shapes.Tessellator)
    requires WellFormed(mb.geometry)
    requires forall i, b :: 0 <= i < |shapes| && WellFormed(b) ==> WellFormed(Shapes.Build(shapes[i], tess, b))
    ensures WellFormed(WithAll(mb, shapes, tess).geometry)
    ensures forall k :: 0 <= k < |Build(WithAll(mb, shapes, tess)).indices| ==>
      Build(WithAll(mb, shapes, tess)).indices[k] as int < |Build(WithAll(mb, shapes, tess)).positions|
    decreases |shapes|
  {
    if shapes != [] {
      var next := With(mb, shapes[0], tess);
      assert WellFormed(next.geometry);
      forall i, b | 0 <= i < |shapes[1..]| && WellFormed(b)
        ensures WellFormed(Shapes.Build(shapes[1..][i], tess, b))
      {
        assert shapes[1..][i] == shapes[i + 1];
      }
      WithAllWellFormed(next, shapes[1..], tess);
    }
  }

  /**
   A chain of `with` calls never disturbs what the mesh already holds: the
   earlier mesh's three attribute arrays and its index list are prefixes of
   the later mesh's.
   */
  lemma WithAllExtends(mb: LyonMeshBuilder, shapes: seq<Shapes.Shape>, tess: Shapes.Tessellator)
    ensures var before, after := Build(mb), Build(WithAll(mb, shapes, tess));
      && before.positions <= after.positions
      && before.normals <= after.normals
      && before.uvs <= after.uvs
      && before.indices <= after.indices
  {
  }

  /**
   Adding one shape: the new mesh's arrays are the old mesh's followed by the
   projection of exactly the vertices the shape wrote, and its index list is
   the old one followed by exactly the indices the shape wrote.
   */
  lemma AppendedShapeExtendsMesh(mb: LyonMeshBuilder, s: Shapes.Shape, tess: Shapes.Tessellator)
    ensures var before, after := Build(mb), Build(With(mb, s, tess));
      var writes := Shapes.Writes(s, tess, mb.geometry);
      var added := Project(EmittedVertices(writes));
      && after.positions == before.positions + added.positions
      && after.normals == before.normals + added.normals
      && after.uvs == before.uvs + added.uvs
      && after.indices == before.indices + EmittedIndices(writes)
  {
    ProjectAppend(mb.geometry.vertices, EmittedVertices(Shapes.Writes(s, tess, mb.geometry)));
  }

  /**
   A closure shape that writes K vertices and `3 * triangles` indices grows
   the finished mesh by exactly K positions and `3 * triangles` indices.
   */
  lemma ClosureGrowsMesh(mb: LyonMeshBuilder, f: VertexBuffers -> seq<SinkOp>, triangles: nat, tess: Shapes.Tessellator)
    requires |EmittedIndices(f(mb.geometry))| == 3 * triangles
    ensures var before, after := Build(mb), Build(With(mb, Shapes.Closure(f), tess));
      && |after.positions| == |before.positions| + |EmittedVertices(f(mb.geometry))|
      && |after.indices| == |before.indices| + 3 * triangles
  {
  }

  /**
   Every vertex reaches the buffers through the vertex constructor, so a mesh
   built from any chain of shapes lies in z = 0, every normal is +Z, and every
   uv repeats its position's (x, y).
   */
  lemma PlanarMesh(shapes: seq<Shapes.Shape>, tess: Shapes.Tessellator, topology: PrimitiveTopology)
    ensures var m := BuildWithTopology(WithAll(New(), shapes, tess), topology);
      forall k :: 0 <= k < |m.positions| ==>
        && m.positions[k].z == 0.0
        && m.normals[k] == UpNormal
        && m.uvs[k] == Vec2(m.positions[k].x, m.positions[k].y)
  {
  }
}
