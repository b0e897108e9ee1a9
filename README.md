# Prism extrusion of a DXF outline, in Dafny

This project models the mesh builder of the CAD_Processor DXF extruder. An
outline read from a drawing (a circle sampled into points or a lightweight
polyline) is a ring of bottom vertices. `generateExtrudedMesh` turns it into a
prism of the given height. The result is a flat triangle list: each
consecutive triple of vertices is one triangle, ready for `GL_TRIANGLES` or for
the OBJ writer.

The layout of that list is fixed by index arithmetic. For a ring
b[0..n) with n ≥ 3, top vertices t[i] = b[i] lifted by the height, and
next = (i+1) mod n:

- slots 6i..6i+5 are the side wall of edge i: (b[i], t[i], t[next]) and (b[i], t[next], b[next]);
- slots 6n+6i..6n+6i+5 are the cap fans of edge i: the bottom triangle (b[i], b[next], cB) and the top triangle (t[i], cT, t[next]). Here cB is the component-wise mean of the ring and cT is cB lifted.

Files:

- `geometry.dfy` (module `Geometry`): the `Vertex` and `Face` value types of `include/utils.h`, lifting by a height, and the ring centroid, with lemmas about lifted and flat rings.
- `extrusion.dfy` (module `Extrusion`): the layout as functions (`TopRing`, `SideWalls`, `CapFans`, `ExtrudedMesh`). It holds the imperative `GenerateExtrudedMesh`, which is proved to build exactly `ExtrudedMesh`. Each of the source's four loops is its own method (`LiftRing`, `PushSideWalls`, `RingCenters`, `PushCapFans`), called in the source's order, and each appends to or accumulates into sequences and vertices as the source does. It also holds the layout lemmas.
- `obj_faces.dfy` (module `ObjFaces`): the face records `exportToOBJ` writes, as a stepping loop.
- `circle.dfy` (module `Circle`): `makeCircle`, with cosine and sine as parameters.

Coordinates are `real`. The source uses `float`, and the model makes no claim about rounding.

`generateExtrudedMesh` does no ring nesting, hole grouping or ear
clipping. Its caps are a triangle fan around the centroid with no hole
support. A ring of fewer than 3 vertices produces no geometry at all, side
walls included.

## Model

| member | source | states |
|---|---|---|
| `Geometry.Lift` | src/utils.cpp:24-25 | a top vertex keeps the bottom vertex's x and y, and its z exceeds the bottom z by exactly the height |
| `Geometry.Total` | src/utils.cpp:47-52 | the running sum starts at the origin and adds each vertex in turn: an empty ring sums to the origin and a one-vertex ring to that vertex |
| `Geometry.TotalFromFront` | src/utils.cpp:48-52 | the order of accumulation does not matter: the sum of a non-empty ring is also its first vertex plus the sum of the rest |
| `Geometry.Centroid` | src/utils.cpp:47-55 | the bottom centre times the vertex count equals the component-wise sum of the ring, so it is the mean of the ring |
| `Geometry.TotalOfLifted` | src/utils.cpp:24-25 | lifting every vertex by h leaves the x and y sums unchanged and adds n·h to the z sum |
| `Geometry.CentroidOfLifted` | src/utils.cpp:56-58 | the centroid of a lifted ring is the lifted centroid |
| `Geometry.CentroidInPlane` | src/utils.cpp:47-55 | when every vertex of the ring lies at z = z0, so does the bottom centre, so the bottom fan of a flat outline is flat |
| `Extrusion.Next` | src/utils.cpp:29 | the successor index stays inside the ring; it is i+1, except that the last vertex wraps to 0 |
| `Extrusion.TopRing` | src/utils.cpp:22-25 | the top ring has one vertex per bottom vertex, and top vertex i is bottom vertex i lifted by the height |
| `Extrusion.WallQuad` | src/utils.cpp:29-43 | one edge's six pushes: b[i], t[i], t[next], then b[i], t[next], b[next], so the two triangles share the diagonal from b[i] to t[next] |
| `Extrusion.SideWalls` | src/utils.cpp:28-44 | the walls of k edges take exactly 6·k slots |
| `Extrusion.CapPair` | src/utils.cpp:61-70 | one edge's six pushes: the bottom triangle runs b[i], b[next] then the hub cB; the top triangle runs t[i], the hub cT, then t[next], so it traverses the rim edge in the opposite direction |
| `Extrusion.CapFans` | src/utils.cpp:60-71 | the cap triangles of k edges take exactly 6·k slots |
| `Extrusion.ExtrudedMesh` | src/utils.cpp:15-74 | fewer than 3 input vertices give the empty mesh; otherwise the mesh has 12·n vertices, a multiple of 3, forming 4·n triangles |
| `Extrusion.GenerateExtrudedMesh` | src/utils.cpp:15-74 | the builder returns exactly `ExtrudedMesh` of its input: the empty list below 3 vertices, else 12·n vertices laid out as the lemmas below state |
| `Extrusion.LiftRing` | src/utils.cpp:23-25 | the top-ring loop produces exactly `TopRing`: one lifted copy per bottom vertex, in order |
| `Extrusion.PushSideWalls` | src/utils.cpp:28-44 | the side-wall loop appends exactly the n wall quads, in edge order, after what was already in the list |
| `Extrusion.RingCenters` | src/utils.cpp:47-58 | the summing loop and the divisions give the centroid as bottom centre, and the top centre is that centroid lifted by the height |
| `Extrusion.PushCapFans` | src/utils.cpp:60-71 | the cap loop appends exactly the n cap pairs, in edge order, after the side walls |
| `Extrusion.SideWallsAt` | src/utils.cpp:28-44 | slot 6i+j of the wall strip is slot j of edge i's quad, for every edge i already emitted |
| `Extrusion.CapFansAt` | src/utils.cpp:60-71 | slot 6i+j of the fan strip is slot j of edge i's cap pair, for every edge i already emitted |
| `Extrusion.SideWallLayout` | src/utils.cpp:28-43 | output slots 6i..6i+5 are b[i], t[i], t[next], b[i], t[next], b[next], with t the lifted copy and next = (i+1) mod n |
| `Extrusion.LastWallWraps` | src/utils.cpp:29-33 | the wall of the last edge closes the ring: its far vertices are t[0] and b[0] |
| `Extrusion.CapLayout` | src/utils.cpp:60-70 | output slots 6n+6i..6n+6i+5 are b[i], b[next], cB, t[i], cT, t[next], with cB the centroid and cT the lifted centroid |
| `Extrusion.TopCenterIsTopCentroid` | src/utils.cpp:47-58 | the top centre (the bottom centre lifted, its initial z overwritten) is the centroid of the top ring |
| `Extrusion.TopCapMirrorsBottom` | src/utils.cpp:62-70 | each top-cap triangle is its bottom-cap triangle lifted by the height with the second and third vertices swapped, so its winding is reversed |
| `Extrusion.MeshVerticesFromRing` | src/utils.cpp:28-71 | every output vertex is a bottom vertex, a top vertex, the bottom centre or the top centre |
| `ObjFaces.FaceRecords` | src/utils.cpp:90-92 | for L vertices there are ceil(L/3) faces, face k names vertices 3k+1, 3k+2 and 3k+3 (1-based), and every index stays within 1..L exactly when L is a multiple of 3 |
| `Circle.SampleAngle` | src/utils.cpp:8 | sample 0 is at angle 0 and sample i is at angle 2πi/segments |
| `Circle.CirclePoint` | src/utils.cpp:8-9 | sample i lies at z = 0 and is offset from the centre by r·(cos θi, sin θi) |
| `Circle.MakeCircle` | src/utils.cpp:4-12 | a positive `segments` gives exactly that many points and any other count gives none; point i is the centre plus r·(cos θi, sin θi) with θi = 2πi/segments, at z = 0 |
| `Circle.OnCircle` | src/utils.cpp:8-9 | when the supplied cosine and sine satisfy cos² + sin² = 1, each sample lies at distance abs(r) from the centre |

## Left out

- Floating point: coordinates and the height are `real`. The model does not capture the `float` rounding of the additions and of the centroid division. It also omits the `double` to `float` casts in `makeCircle` and in the polyline callback.
- Circle.MakeCircle: cosine, sine and the other trigonometry are parameters rather than computed. The model states only where each sample comes from, not what its value is. The source's default argument `segments = 64` is not modelled: the count is always passed explicitly, and every call in the source passes 64.
- `exportToOBJ` file output (src/utils.cpp:76-97): opening the file, the `false` result and the message on open failure, the header line, the vertex lines and the console message are I/O. Only the face numbering is modelled.
- `MyDXFReader` (include/MyDxf_reader.hpp): a libdxfrw callback adapter that prints, calls the extruder and the exporter, and bumps two file counters. The DXF library is not part of this model.
- `main.cpp`: the GLFW/GLAD window, render loop, shaders, matrices and the display-only bounding-box normalisation.
- `src/main.cpp`: `groupOuterWithHoles`, `triangulateRingsToTris`, `generateSideTriangles`, `appendVerts` and `exportGroupToOBJ` are not part of this model. Ring nesting, hole groups and ear-clipping caps therefore are not modelled either.
