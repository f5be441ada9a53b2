# Mesh generators and view table of the reflective-sphere renderer

This project models the data-producing core of the `gloom` reflective-sphere
renderer. It covers:

- **Cube generator** (`createCubeObject`). It fills 24 vertices (four per face,
  so each face keeps a flat normal) and 36 indices (two triangles per face).
  The same loop appears in `gloom/src_dirty/program.cpp` and
  `gloom/backup_program.cpp`. `Cube.CreateCubeGeometry` models both.
- **UV-sphere generator** (`createSphereObject`) at resolution `r`. Its vertices
  are `r - 1` rings of `r + 1` columns, where the last column repeats the
  first as the texture seam, followed by the south and north poles. Its index
  buffer holds a grid of `r - 2` rows of quads and two pole fans of `r`
  triangles each.
- **Tangent-space pass** (`computeTangentAndBitangent`). It scatter-adds each
  triangle's tangent and bitangent into the three vertices the triangle names.
  It then scales each vertex's sums to unit length. Sums whose squared
  length lies below `0.00001` are scaled by one.
- **Cube-face view table** (`rotArray` in `runProgram`). It holds six 4x4
  matrices, each starting from the identity, with a few entries overwritten.

The modules follow the program:

- `Arith` holds three facts about integer multiplication and
  division used by the slot
  decoding.
- `Geometry` holds vectors and the mesh and render-object records.
- `Cube` is the cube generator.
- `SphereLayout`, `SphereIndices` and `SphereVertices` hold the sphere's vertex
  slot layout, index buffer and vertex attributes.
- `Tangents` is the tangent pass.
- `Objects` holds the two object constructors.
- `ViewTable` is the rotation table.

Each generator is written twice:

- as a function that gives the value expected at every slot;
- as a method that performs the generator's stores in its loop order.

The cube methods state, face by face, which slots the face's stores write
and that every other slot is left as it was. At the end every slot holds its
expected value. The sphere methods also count the writes to each slot. Their
contracts say that every slot is written exactly once, with its expected
value.

Floating point is modelled by `real`. The cube's and the view table's values
are small integers, so they are exact. The sphere's sines and cosines come in
as a table of functions (`SphereVertices.Trig`). The per-triangle tangent
frames are a parameter of the tangent pass. So is the inverse square root,
as a function defined on the positive reals only. The floor on the squared
length is then what makes the final scaling well defined.

`createSphereObject` (`gloom/src_dirty/program.cpp:67-70`) has no check on
its resolution, and the sphere members require `r >= 2`:

- Resolution 2 works as written. It has no grid rows, only the two fans.
- At `r = 1` the fan loop stores at negative index offsets.
- At `r = 0` the fan loop does not run, but the pole stores land at offset
  -3.
- For `r < 0` only the pole stores run, and they stay inside the vertex
  buffers. The index buffer is left unwritten and is then read by the tangent
  pass.

The only caller passes the constant resolution 50
(`gloom/src_dirty/program.cpp:568`).

## Model

| member | source | states |
|---|---|---|
| Cube.FaceIndex | gloom/src_dirty/program.cpp:38-43 | Entry `c` of face `i` is a corner of that face: the triangles are `(a, 1, 2)` and `(1, b, 2)` over local corners, with `a = 3, b = 0` on even faces and `a = 0, b = 3` on odd ones. |
| Cube.CornerCoord | gloom/src_dirty/program.cpp:50-52 | Corner `j` of face `i` has `(j%2)*2-1` on the first free axis `i/2`, `(j/2)*2-1` on the second, and the side `(i%2)*2-1` on the remaining axis. |
| Cube.NormalCoord | gloom/src_dirty/program.cpp:54-56 | The normal of face `i` is 0 on both free axes and the side `(i%2)*2-1` on the fixed axis. |
| Cube.CornerUv | gloom/src_dirty/program.cpp:57-58 | Corner `j` has texture coordinate `(j%2, j/2)`. |
| Cube.IsCubeMesh | gloom/src_dirty/program.cpp:26-60 | The reference layout of the cube: 24 vertex slots and 36 index slots, index slot `6i+c` holding `FaceIndex(i, c)` and vertex slot `4i+j` holding corner `j` of face `i`, its face normal and uv. |
| Cube.CreateCubeGeometry | gloom/src_dirty/program.cpp:26-60 | Running the face loop leaves every one of the 36 index slots and 24 vertex slots holding the value the reference layout `IsCubeMesh` gives that slot. |
| Cube.WriteFaceIndices | gloom/backup_program.cpp:32-39 | The six index stores of face `i` write exactly slots `6i..6i+5`, each with a vertex of face `i` (`4i..4i+3`). Every other slot is left as it was. |
| Cube.WriteFaceCorners | gloom/src_dirty/program.cpp:49-59 | The corner loop of face `i` writes exactly vertex slots `4i..4i+3` with that corner's position, the face normal and the uv. Every other vertex slot is left as it was. |
| Cube.WriteCorner | gloom/src_dirty/program.cpp:50-58 | One pass of the corner loop changes only vertex slot `4i+j`. That slot then holds corner `j` of face `i`, the face normal and the uv `(j%2, j/2)`. |
| Cube.StoredCorner | gloom/backup_program.cpp:44-55 | The three component stores to axes `f`, `s`, `t` fix the whole position and normal, whatever the slot held before. The result is corner `j` of face `i`. |
| Cube.AxesCyclic | gloom/src_dirty/program.cpp:46-48 | The axes `f = i/2`, `s = (f+1)%3` and `t = (s+1)%3` are the three distinct coordinate axes in cyclic order, so a face is never mirrored. |
| Cube.FaceEntries | gloom/src_dirty/program.cpp:37-44 | All six entries of face `i` lie in `4i..4i+3`. Both triangles share `4i+1` and `4i+2`. Local corners 0 and 3 trade places between even and odd faces. |
| Cube.TriangleVertex | gloom/src_dirty/program.cpp:38-44 | Entry `c` of triangle `2i+half` names a vertex of face `i`. That vertex is the face corner the entry picks and carries the face normal. |
| Cube.CubeMeshValid | gloom/src_dirty/program.cpp:27-28 | The cube has 24 vertices and 36 indices, which is 12 whole triangles, and every index is below 24. |
| Cube.AllTrianglesFaceOutward | gloom/src_dirty/program.cpp:38-44 | Every one of the 12 triangles winds counter-clockwise seen from outside. The cross product of its edges has positive dot with the face normal, which back-face culling (line 549) relies on. |
| Cube.TriangleFacesOutward | gloom/backup_program.cpp:33-38 | Each single triangle of the backup file's identical index layout faces outward, as culling there (line 256) needs. |
| Cube.CornerWinding | gloom/src_dirty/program.cpp:50-56 | Three corners of face `i` turn counter-clockwise about the face normal exactly when their turn in the free coordinates, times the face's side `(i%2)*2-1`, is positive. The fixed axis follows the free axes cyclically, so no face is mirrored. |
| Cube.FaceAttributes | gloom/backup_program.cpp:41-51 | On face `i` the fixed axis is `(i/2+2)%3`. Every corner and the normal have coordinate `(i%2)*2-1` there. The normal's other two components are 0, so it has unit length. The uv is `(j%2, j/2)`. |
| Cube.FaceCorners | gloom/backup_program.cpp:45-54 | The free coordinates are ±1 and the uv components are 0 or 1. Two different corners of a face differ in position and in uv. |
| SphereLayout.NumVertices | gloom/src_dirty/program.cpp:69 | The sphere has `(r+1)(r-1)+2` vertices: `r-1` rings of `r+1` columns plus the two poles. |
| SphereLayout.SlotOfRef | gloom/src_dirty/program.cpp:122-166 | Column `j` of ring `i` is stored at slot `i(r+1)+j`, the south pole at `(r+1)(r-1)` and the north pole right after it. |
| SphereLayout.RefAt | gloom/src_dirty/program.cpp:122-166 | Every vertex slot below the vertex count belongs to exactly one vertex: a ring vertex or one of the poles. |
| SphereLayout.RefSlotRoundTrip | gloom/src_dirty/program.cpp:122-166 | The slot numbering `i(r+1)+j`, then south, then north, is a bijection between the sphere's vertices and the slots below the vertex count. |
| SphereIndices.NumIndices | gloom/src_dirty/program.cpp:70 | The sphere has `3(2r + 2r(r-2))` index slots: two triangles per grid cell plus `2r` fan triangles. |
| SphereIndices.FanStart | gloom/src_dirty/program.cpp:105-117 | The fans start at slot `3*2*r*(r-2)`, right after the `r-2` rows of `r` grid cells. |
| SphereIndices.Counts | gloom/src_dirty/program.cpp:69-70 | The index count equals the grid plus two fans of `3r` entries. In closed form it is `6r(r-1)`, and the vertex count is `r*r + 1`. |
| SphereIndices.SlotOf | gloom/src_dirty/program.cpp:95-117 | The buffer offset of each index store: `6ri + 6j + c` for entry `c` of grid cell (`i`, `j`), and after the grid `3i + c` for the south fan and `3(r+i) + c` for the north fan. Its properties are stated by `SlotRegion` and `WriteSlotRoundTrip`. |
| SphereIndices.ValueOf | gloom/src_dirty/program.cpp:95-117 | The vertex number each index store writes, as the generator computes it. `ValueNamesTarget` relates it to the independently described vertex `TargetOf`. |
| SphereIndices.SlotRegion | gloom/src_dirty/program.cpp:92-117 | Grid stores land in `[0, 6r(r-2))`. The south fan lands in the next `3r` slots and the north fan in the last `3r`. |
| SphereIndices.WriteAt | gloom/src_dirty/program.cpp:92-118 | Every slot below the index count is the target of some store of the two loops. |
| SphereIndices.WriteSlotRoundTrip | gloom/src_dirty/program.cpp:92-118 | Every store targets a slot below the index count. Decoding that slot gives back the same store. |
| SphereIndices.WritesDisjoint | gloom/src_dirty/program.cpp:95-117 | Two stores hit the same slot if and only if they are the same store, so no slot is written twice. |
| SphereIndices.ValueNamesTarget | gloom/src_dirty/program.cpp:95-117 | Each stored index is the slot of the intended vertex (grid cell corner, fan ring vertex or pole), so it is below the vertex count. |
| SphereIndices.IndexAt | gloom/src_dirty/program.cpp:92-118 | Every entry of the finished index buffer names an existing vertex. |
| SphereIndices.FanRings | gloom/src_dirty/program.cpp:105-117 | South-fan entries name ring 0 or the south pole. North-fan entries name ring `r-2` or the north pole. |
| SphereIndices.FanWrite | gloom/src_dirty/program.cpp:105-117 | Every slot from the end of the grid on is written by a fan store: the south fan below `FanStart + 3r`, the north fan from there to the end. |
| SphereIndices.IndexNamesTarget | gloom/src_dirty/program.cpp:92-117 | Every index slot names the vertex its store is meant to name: the cell corner or the pole that triangle needs. |
| SphereIndices.Store | gloom/src_dirty/program.cpp:95-117 | One index store lands inside the buffer. It puts the finished buffer's value in its slot, adds one to that slot's write count and changes nothing else. |
| SphereIndices.StoreCell | gloom/src_dirty/program.cpp:95-101 | The six stores of grid cell (`i`, `j`) extend the written prefix by exactly the cell's six slots, each written once with its final value. Every later slot stays unwritten. |
| SphereIndices.StoreSouth | gloom/src_dirty/program.cpp:107-109 | The three stores of south-fan triangle `i` extend the written part of the south fan by its three slots, each written once with its final value. The rest of the south fan stays unwritten. |
| SphereIndices.StoreNorth | gloom/src_dirty/program.cpp:112-117 | The three stores of north-fan triangle `i` extend the written part of the north fan by its three slots, each written once with its final value. The rest of the north fan stays unwritten. |
| SphereIndices.FillGrid | gloom/src_dirty/program.cpp:92-103 | The grid loop fills every slot below the fan start exactly once and leaves the fan region unwritten. |
| SphereIndices.FillFans | gloom/src_dirty/program.cpp:105-118 | After the grid, the fan loop fills the remaining `6r` slots exactly once, interleaving south and north, so the whole buffer is filled. |
| SphereIndices.CreateSphereIndices | gloom/src_dirty/program.cpp:67-118 | The whole index buffer: every slot is written exactly once, with the vertex its decoded store names. |
| SphereVertices.CreateSphereVertices | gloom/src_dirty/program.cpp:79-166 | After the zero fill, the ring loop and the pole stores, every vertex slot has been written exactly once by the attribute stores. It holds the position, normal and uv of the vertex the layout assigns it. |
| SphereVertices.StoreRing | gloom/src_dirty/program.cpp:125-141 | One pass of the column loop writes exactly the `r+1` slots of ring `i`, each once, with that ring vertex's attributes. |
| SphereVertices.Store | gloom/src_dirty/program.cpp:127-166 | One vertex's attribute stores land inside the buffers. They put the attributes of the vertex that the slot decodes to into that slot, count one write, and change no other slot. |
| SphereVertices.StoreNext | gloom/src_dirty/program.cpp:127-166 | Storing the vertex of the first unwritten slot extends the fully written prefix by that slot, and the rest stays unwritten. |
| SphereVertices.NormalOf | gloom/src_dirty/program.cpp:123-160 | The normal stored for each vertex: `(cos lat sin lon, sin lat, cos lat cos lon)` on a ring, and `(0, -1, 0)` and `(0, 1, 0)` at the poles. Its properties are stated by `UnitNormal` and `SeamDuplicatesFirstColumn`. |
| SphereVertices.PositionOf | gloom/src_dirty/program.cpp:131-152 | The position stored for each vertex: `size` times the ring normal, and the constants `(0, -size, 0)` and `(0, size, 0)` at the poles. `PositionIsScaledNormal` relates the two. |
| SphereVertices.UvOf | gloom/src_dirty/program.cpp:139-166 | The texture coordinate stored for each vertex: `(j/r, (i+1)/r)` on a ring, and `(0.5, 0)` and `(0.5, 1)` at the poles. Its properties are stated by `UvInUnitSquare`, `UvHeightMonotone` and `UvsDistinct`. |
| SphereVertices.PositionIsScaledNormal | gloom/src_dirty/program.cpp:131-160 | Every position is `size` times its normal. This includes the poles, whose constants agree with the ring formula. |
| SphereVertices.UnitNormal | gloom/src_dirty/program.cpp:123-129 | Wherever `sin^2 + cos^2 = 1` holds, every normal has unit length and every position lies at distance `size` from the centre. |
| SphereVertices.SeamDuplicatesFirstColumn | gloom/src_dirty/program.cpp:125-140 | When column `r` is a full turn, it repeats column 0's normal and position. Their uvs differ only in `u`, which is 0 for column 0 and 1 for column `r`. |
| SphereVertices.UvInUnitSquare | gloom/src_dirty/program.cpp:139-166 | Every uv lies in the unit square. Ring vertices are exactly those strictly between the bottom and top edges, and the south pole is the only vertex on the bottom edge. |
| SphereVertices.UvHeightMonotone | gloom/src_dirty/program.cpp:140 | Higher rings get strictly larger `v`. |
| SphereVertices.UvsDistinct | gloom/src_dirty/program.cpp:139-166 | No two vertices share a uv, so the seam column is a separate texture vertex. |
| Tangents.Hits | gloom/src_dirty/program.cpp:267-269 | The count of a triangle's first `k` corners that name vertex `v` is at most `k`. It is zero exactly when none of them does. |
| Tangents.Accumulated | gloom/src_dirty/program.cpp:266-280 | The reference sum a vertex holds after the first `T` triangles: each triangle's frame, counted once per corner that names the vertex. `Scatter` is proved to compute it. |
| Tangents.CornerStep | gloom/src_dirty/program.cpp:267-269 | Adding a triangle's contribution at one corner advances only that corner's vertex by one share of the contribution. |
| Tangents.AddTriangle | gloom/src_dirty/program.cpp:266-280 | After triangle `t`'s three adds, each vertex's sum is the sum over triangles `0..t`, counting a triangle once per corner that names the vertex. |
| Tangents.Scatter | gloom/src_dirty/program.cpp:221-281 | Starting from zero, the triangle loop leaves each vertex with the sum of the contributions of all triangles that name it, once per naming corner. |
| Tangents.UnreferencedStaysZero | gloom/src_dirty/program.cpp:221-281 | A vertex that no corner names keeps its zero sum. |
| Tangents.SingleCornerAccumulates | gloom/src_dirty/program.cpp:267-280 | A vertex named by exactly one corner ends with exactly that triangle's contribution. |
| Tangents.SquaredSum | gloom/src_dirty/program.cpp:286-290 | The component loop computes the squared length of the sum, which is never negative. |
| Tangents.ScaleFactor | gloom/src_dirty/program.cpp:291-298 | The factor a vertex's sum is scaled by: `1/sqrt(1)` below the floor and `1/sqrt(sq)` otherwise. The inverse square root is defined on positive reals only, so this function is well defined only because of the floor. |
| Tangents.Normalized | gloom/src_dirty/program.cpp:291-303 | A vertex's final tangent: its sum times the floor-guarded inverse length. Its properties are stated by `NormalizedIsUnit` and `BelowFloorUnchanged`. |
| Tangents.NormalizedIsUnit | gloom/src_dirty/program.cpp:291-303 | A sum at or above the floor is scaled to unit length by a positive factor, so its direction is kept. |
| Tangents.BelowFloorUnchanged | gloom/src_dirty/program.cpp:291-298 | A sum below the floor is scaled by `1/sqrt(1) = 1` and comes out unchanged. |
| Tangents.IsolatedVertexZero | gloom/src_dirty/program.cpp:221-303 | A vertex that appears in no triangle ends with a zero tangent and bitangent. |
| Tangents.NormalizeAll | gloom/src_dirty/program.cpp:285-306 | The vertex loop scales every vertex's sum, and only that sum, by the floor-guarded inverse length. |
| Tangents.ComputeTangentFrames | gloom/src_dirty/program.cpp:220-309 | Each vertex's tangent and bitangent is the scaled sum of the frames of the triangles that name it. |
| Objects.WithTangents | gloom/src_dirty/program.cpp:62 | Running the tangent pass keeps the mesh and attaches tangent arrays of one entry per vertex, equal to the scaled per-vertex sums. |
| Objects.CreateCubeObject | gloom/src_dirty/program.cpp:26-65 | The cube object is the cube mesh: 12 triangles, all outward-facing and all naming existing vertices, with its tangent frames. |
| Objects.CreateSphereObject | gloom/src_dirty/program.cpp:67-175 | The sphere object has `2r(r-1)` triangles, all naming existing vertices. Every slot holds its layout vertex, and the object carries its tangent frames. |
| Objects.IsSphereMesh | gloom/src_dirty/program.cpp:67-166 | The sphere of resolution `r`: every index slot holds the vertex its store names, and every vertex slot holds the position, normal and uv of the vertex the layout puts there. |
| Objects.SphereMeshValid | gloom/src_dirty/program.cpp:67-118 | A mesh holding the sphere layout has `2r(r-1)` whole triangles, and every index names one of its vertices. |
| ViewTable.Identity | gloom/src_dirty/program.cpp:618-620 | The starting matrix has ones on the diagonal and zeros elsewhere. |
| ViewTable.SetEntry | gloom/src_dirty/program.cpp:624-640 | A single entry store changes that entry and leaves the other fifteen alone. |
| ViewTable.ViewMatrix | gloom/src_dirty/program.cpp:624-640 | The six view matrices written out entry by entry. It is the independent reference that `WriteView` is proved to produce from the identity. |
| ViewTable.WriteView | gloom/src_dirty/program.cpp:624-640 | The stores for view `i` leave a rotation (a signed permutation of determinant +1) with no translation, looking along direction `i`. |
| ViewTable.ViewIsRotation | gloom/src_dirty/program.cpp:622-640 | Each view's 3x3 block is a signed permutation with determinant +1: a proper rotation, not a mirror. |
| ViewTable.ViewLooksAlong | gloom/src_dirty/program.cpp:622-640 | Each view keeps the identity's last row and column, so it has no translation. Its look direction (minus the third row) is the `i`-th of -X, +X, +Y, -Y, -Z, +Z. |
| ViewTable.SignedPermutationFacts | gloom/src_dirty/program.cpp:622-640 | A signed permutation has orthonormal rows, and it looks along a coordinate axis. |
| ViewTable.FacingsCoverAxes | gloom/src_dirty/program.cpp:622 | The six look directions are pairwise distinct. A direction is one of them if and only if it is a signed coordinate axis. |
| ViewTable.CreateViewTable | gloom/src_dirty/program.cpp:617-640 | View `i` is `ViewMatrix(i)` and looks along the `i`-th of -X, +X, +Y, -Y, -Z, +Z. The render loop draws view `i` into face `GL_TEXTURE_CUBE_MAP_POSITIVE_X + i` (+X, -X, +Y, -Y, +Z, -Z), so views 0, 1, 4 and 5 look opposite to their face's axis. All six are translation-free rotations, and their look directions are distinct and cover exactly the six axis directions. |

## Left out

- **Trigonometry.** The sine and cosine of each ring's latitude and each column's longitude are inputs, not computed. Only `sin^2 + cos^2 = 1` is assumed, and only by `SphereVertices.UnitNormal`. That column `r` is a full turn is assumed only by `SphereVertices.SeamDuplicatesFirstColumn`.
- **Per-triangle tangent formula.** The frame computed from a triangle's edges and uv deltas is an input to the tangent pass. So are its unguarded `1/(...)` and its per-triangle `glm::normalize`. The model only sums and scales these frames.
- **Square root.** `1/sqrt(x)` is the parameter `invSqrt`, defined on the positive reals. Unit length is stated for inputs where it really is an inverse square root. The infinity and NaN that `1/sqrt(0)` would produce in floats are not modelled; the model instead proves that the argument is always positive.
- **Float rounding and summation order.** Sums are exact over reals, and the floor test compares reals. A float sum can differ in its last bits, and a value close to the floor can fall on the other side.
- **Integer widths.** The model does not encode the 32-bit `uint32_t` indices and the `int` and `unsigned` loop counters. The cube's values are tiny. For the sphere, the `int` index count at line 70 and the index offsets at lines 107-117 overflow from `r = 18920`, where `6r(r-1)` exceeds `2^31 - 1`. At that resolution the buffers total about 29 GB. The model's integers do not wrap.
- **Zero-filled index buffer.** The index buffer is allocated uninitialised. The model starts from zeros, and every slot is proved to be overwritten.
- **Resolution below 2.** The sphere members require `r >= 2`. They do not model the out-of-bounds stores at `r = 1` and `r = 0`, or the unwritten index buffer for `r < 0`.
- **GPU objects.** These are vertex array objects, textures, framebuffers and `createVAO`'s attribute-count exit. They hold no data the model could state anything about.
- **Other code in the same files.** Out of scope are ray-sphere picking (`shoot`), `changeNormals`, the render loop, the camera, and `destroyRenderObject`. So is the rest of `gloom/backup_program.cpp` outside its cube generator.
