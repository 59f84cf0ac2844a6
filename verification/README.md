# bevy_lyon: mesh builder and shape builders in Dafny

bevy_lyon connects the lyon tessellator to the bevy engine. `LyonMeshBuilder` owns one pair of
vertex/index buffers. Shapes write into those buffers one after another through `with`. `build`
then splits the vertex list into three parallel attribute arrays (position, normal, uv) of a bevy
`Mesh`, and adds the index list and a primitive topology.

The Dafny project has four modules:

- `Geometry` (`geometry.dfy`): lyon's point, vector, angle, rectangle and border-radii values.
  Coordinates are `real`.
- `Vertices` (`vertices.dfy`): `BevyVertex` and the conversion from a lyon point. It also holds the
  three vertex-constructor entry points lyon calls (basic, fill, stroke) and the vertex/index buffers.
  Indices are 32-bit unsigned values.
- The sink, also in `Vertices`: `BevyBuffersBuilder` is the only way a shape can write. The model
  gives it two writes. A vertex write goes through the vertex constructor. An index write appends an
  index that lyon has already made global. `Vertices.Apply` performs a series of writes.
- `Shapes` (`shapes.dfy`): the `LyonShapeBuilder` capability. A shape is either a closure that
  writes into the sink or one of the thirteen shape structs with their default values.
  `Shapes.Call` forwards a struct's fields to a lyon `basic_shapes` routine. lyon is not modelled:
  it is a parameter `tess: (TessCall, VertexBuffers) -> TessOutput`. That parameter returns the
  writes the routine makes into the sink and the result it reports. `Build` applies the writes and
  drops the result, as the `let _ =` in every struct's `build` does.
- `MeshBuilder` (`mesh_builder.dfy`): `new`, `with`, `build_with_topology`, `build`, `with_only`,
  and chained `with` calls.

lyon's routines return a `TessellationResult`. Every struct's `build` discards it with `let _ =`
(src/shapes.rs:51, 79, 107, 129, 151, 174, 195, 218, 246, 269, 291, 314, 335). So `with` cannot
fail, and `Shapes.BuildIgnoresResult` and `Shapes.FailureIsSwallowed` state this.

In `FillQuad`, `FillRect` and `StrokeRect` the fields are not `pub`. Outside the crate, these
structs can therefore only be built with their `Default`. The model lets every field be set, like
in the other structs.

## Model

| member | source | states |
|---|---|---|
| Vertices.FromPoint | src/mesh_builder.rs:145-153 | a point becomes a planar vertex (z = 0, normal +Z, uv = (x, y)) from which the point can be read back |
| Vertices.PlanarIffConverted | src/mesh_builder.rs:145-153 | the vertices the conversion can produce are exactly the planar ones, and for them reading back the point and converting it again gives the same vertex |
| Vertices.FromPointInjective | src/mesh_builder.rs:145-153 | distinct points give distinct vertices: the conversion loses no coordinate |
| Vertices.NewVertex | src/mesh_builder.rs:116-120 | the basic constructor gives the vertex of the point conversion |
| Vertices.NewFillVertex | src/mesh_builder.rs:123-127 | the fill constructor ignores the fill attributes and gives the vertex of the point conversion |
| Vertices.NewStrokeVertex | src/mesh_builder.rs:130-134 | the stroke constructor ignores the stroke attributes and gives the vertex of the point conversion |
| Vertices.ConstructorsAgree | src/mesh_builder.rs:116-134 | all three constructors give the same vertex for a point, whatever attributes are passed; that vertex is planar with position (x, y, 0) |
| Vertices.Construct | src/mesh_builder.rs:112-134 | whichever of the three entry points the sink calls, the stored vertex is the conversion of the point |
| Vertices.Apply | src/mesh_builder.rs:104-109 | writing through the sink appends exactly the constructed vertices and the given indices, in write order, after the existing contents |
| Vertices.ApplyAppendsPlanar | src/mesh_builder.rs:104-109 | writing through the sink never removes or changes existing contents, and keeps every vertex planar |
| Geometry.AllSame | src/shapes.rs:164 | `BorderRadii::new_all_same(r)` gives the same radius r on all four corners |
| Shapes.Call | src/shapes.rs:48-343 | each struct's build calls the matching lyon routine: fill structs call fill routines and stroke structs call stroke routines; every field is passed on; quad and triangle corners are passed in index order |
| Shapes.CallIsBijective | src/shapes.rs:48-343 | different structs give different lyon calls, and every lyon call comes from some struct, so forwarding neither merges nor drops anything |
| Shapes.Build | src/shapes.rs:30-37 | building a closure shape just applies the closure's writes; a named shape applies exactly its lyon routine's writes; either way the buffers only grow, and only by planar vertices |
| Shapes.BuildIgnoresResult | src/shapes.rs:48-343 | `let _ =`: if two tessellators make the same writes, the build comes out the same whatever results they report |
| Shapes.FailureIsSwallowed | src/shapes.rs:48-343 | when lyon reports a failure, the failure is dropped and the build gives the same buffers as after a success |
| Shapes.DefaultFillCircle | src/shapes.rs:39-46 | default FillCircle: radius 25, centred at the origin, default fill options |
| Shapes.DefaultFillConvexPolyline | src/shapes.rs:61-70 | default FillConvexPolyline: no points, default fill options |
| Shapes.DefaultFillPolyline | src/shapes.rs:89-99 | default FillPolyline: no points, a fresh `FillTessellator::new()`, default fill options |
| Shapes.DefaultFillQuad | src/shapes.rs:117-123 | default FillQuad: corners (0,0), (0,25), (25,25), (25,0) |
| Shapes.DefaultFillRect | src/shapes.rs:140-145 | default FillRect: the empty rectangle at the origin |
| Shapes.DefaultFillRoundedRect | src/shapes.rs:161-168 | default FillRoundedRect: corner radius 10 on all four corners |
| Shapes.DefaultStrokeCircle | src/shapes.rs:183-190 | default StrokeCircle: radius 25, centred at the origin, default stroke options |
| Shapes.DefaultStrokeEllipse | src/shapes.rs:204-212 | default StrokeEllipse: radii (40, 25), zero rotation |
| Shapes.DefaultStrokePolyline | src/shapes.rs:228-238 | default StrokePolyline: no points and closed |
| Shapes.DefaultStrokeQuad | src/shapes.rs:256-263 | default StrokeQuad: corners (0,0), (0,25), (25,25), (25,0) |
| Shapes.DefaultStrokeRect | src/shapes.rs:280-285 | default StrokeRect: the empty rectangle at the origin |
| Shapes.DefaultStrokeRoundedRect | src/shapes.rs:301-308 | default StrokeRoundedRect: corner radius 10 on all four corners |
| Shapes.DefaultStrokeTriangle | src/shapes.rs:323-329 | default StrokeTriangle: corners (0,0), (12.5,25), (25,0) |
| Shapes.DefaultQuadIsSquare | src/shapes.rs:117-137 | the default quad is the axis-aligned 25-by-25 square with a corner at the origin, its corners taken in turn around it; both quad shapes pass them to lyon in that order |
| Shapes.DefaultTriangleIsIsosceles | src/shapes.rs:323-343 | the default triangle has a base of 25 on the x axis and its apex 25 above the base's midpoint (so it is isosceles); its corners are passed to lyon in order |
| Shapes.PolylineClosedness | src/shapes.rs:228-253 | a stroked polyline reaches lyon closed by default, and a caller's `is_closed` is passed on unchanged |
| MeshBuilder.Project | src/mesh_builder.rs:55-63 | the finishing loop gives three arrays as long as the vertex list, whose k-th entries are the k-th vertex's position, normal and uv |
| MeshBuilder.ProjectAppend | src/mesh_builder.rs:59-63 | projecting a concatenation of vertex lists concatenates the projections, so the order is kept |
| MeshBuilder.New | src/mesh_builder.rs:37-41 | a new builder has no vertices and no indices |
| MeshBuilder.BuildWithTopology | src/mesh_builder.rs:53-76 | the mesh carries the given topology; its parallel arrays read back to exactly the accumulated vertex list; its indices are the accumulated index list, unchanged and in order |
| MeshBuilder.Build | src/mesh_builder.rs:46-48 | `build` gives a triangle-strip mesh of the accumulated vertices and indices |
| MeshBuilder.TopologyIsOnlyTag | src/mesh_builder.rs:46-54 | meshes finished with two topologies differ only in the topology tag; `build` is `build_with_topology(TriangleStrip)` |
| MeshBuilder.With | src/mesh_builder.rs:79-82 | `with` changes the builder's buffers only through the shape's writes: a closure's writes, or its lyon routine's writes for a named shape; the buffers only grow and stay planar |
| MeshBuilder.WithOnly | src/mesh_builder.rs:100-102 | `with_only(s)` is a triangle-strip mesh of exactly what `s` writes into empty buffers |
| MeshBuilder.WithOnlyIsChain | src/mesh_builder.rs:84-102 | `with_only(s)` equals `new().with(s).build()` |
| MeshBuilder.WithAll | src/mesh_builder.rs:79-82 | a chain of `with` calls, for any shapes, only appends to the buffers and keeps every vertex planar |
| MeshBuilder.WithAllWellFormed | src/mesh_builder.rs:104-109 | if every shape keeps indices below the vertex count (an assumption about lyon's offsetting), a chain of `with` calls does too, and every index of the finished mesh names one of its vertices |
| MeshBuilder.WithAllExtends | src/mesh_builder.rs:53-82 | after any chain of `with` calls, the earlier mesh's position, normal and uv arrays and its index list are prefixes of the later mesh's |
| MeshBuilder.AppendedShapeExtendsMesh | src/mesh_builder.rs:55-82 | after one `with`, the mesh arrays are the old arrays followed by the projection of exactly the vertices the shape wrote, and the indices are the old ones followed by exactly the indices it wrote |
| MeshBuilder.ClosureGrowsMesh | src/shapes.rs:30-37 | a closure that writes K vertices and 3M indices makes the finished mesh exactly K positions and 3M indices larger |
| MeshBuilder.PlanarMesh | src/mesh_builder.rs:145-153 | a mesh built from any chain of shapes has z = 0 in every position, +Z as every normal, and every uv equal to its position's (x, y) |

## Left out

- lyon's tessellation routines (`basic_shapes::fill_circle` and the rest) are foreign code. They are the uninterpreted parameter `tess`. So nothing is stated about the geometry they produce, for example that a circle's vertices lie within its radius.
- lyon's `BuffersBuilder` adds the pre-pass vertex count to each index as it is stored (src/mesh_builder.rs:108). That is lyon code, so index writes carry indices that are already global. Index validity appears only as an explicit assumption in `MeshBuilder.WithAllWellFormed`.
- The rest of lyon's `BuffersBuilder` is also lyon code: its begin/end/abort-geometry calls and its vertex-count limit. The sink is modelled with its two writes only, both of which append.
- Closures are modelled as functions from the current buffers to their writes. This is more general than the Rust closure, which sees only the sink.
- Order independence of accumulation (same vertex/index sets up to relabelling, whatever the order of shapes) depends on lyon's index offsetting. It is not stated.
- Convexity of `FillConvexPolyline` input is the caller's responsibility. The source does not check it, and neither does the model.
- f32 arithmetic and rounding: coordinates are `real`. The only arithmetic in the source is the constant `25.0/2.0`.
- bevy's `Mesh`, `VertexAttributeValues`, `Indices` and attribute-name keys: the mesh is a plain record with one field per attribute. `PrimitiveTopology` is a five-value enum.
- `FillOptions`, `StrokeOptions`, `FillTessellator`, `FillAttributes` and `StrokeAttributes` are opaque. The adapter only forwards or ignores them. The options' `DEFAULT` and a fresh `FillTessellator::new()` are id 0.
- The state `fill_polyline` leaves in its `FillTessellator` is dropped together with the consumed struct. It is not modelled.
- Generic point iterators (`IntoIterator`) are modelled as finite sequences, with the default being empty, as for a `Vec`.
- Lifetimes, borrowing, `Debug`/`Clone`/`SmartDefault` derives: no behaviour to model.
- Field visibility (`pub` or not) of the shape structs is not modelled.
- src/lib.rs (module declarations and re-exports) and examples/basic_usage.rs (application setup and rendering) are not part of this model.
