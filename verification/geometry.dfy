/** Vectors, meshes and render objects shared by the generators.

    The renderer keeps every per-vertex attribute in a flat float array
    (three floats per position, normal, tangent; two per texture coordinate).
    Here such an array is a sequence of vectors: the float at 3 * v + c is
    coordinate `c` of entry `v`. Floats are modelled as reals; the generators
    only ever store exact values (integers, ratios) or values left abstract.
 */
module Geometry {

  datatype Vec3 = Vec3(x: real, y: real, z: real)

  datatype Vec2 = Vec2(u: real, v: real)

  const Zero3: Vec3 := Vec3(0.0, 0.0, 0.0)

  /** Coordinate `axis` (0 = x, 1 = y, 2 = z) of `a`. */
  function Coord(a: Vec3, axis: int): real
    requires 0 <= axis < 3
  {
    if axis == 0 then a.x else if axis == 1 then a.y else a.z
  }

  /** `a` with coordinate `axis` replaced by `value`: one component store. */
  function SetCoord(a: Vec3, axis: int, value: real): (r: Vec3)
    requires 0 <= axis < 3
    ensures Coord(r, axis) == value
    ensures forall other :: 0 <= other < 3 && other != axis ==> Coord(r, other) == Coord(a, other)
  {
    if axis == 0 then a.(x := value) else if axis == 1 then a.(y := value) else a.(z := value)
  }

  /** A vector is determined by its three coordinates. */
  lemma CoordsDetermine(a: Vec3, b: Vec3)
    requires forall axis :: 0 <= axis < 3 ==> Coord(a, axis) == Coord(b, axis)
    ensures a == b
  {
    assert Coord(a, 0) == Coord(b, 0) && Coord(a, 1) == Coord(b, 1) && Coord(a, 2) == Coord(b, 2);
  }

  function Add(a: Vec3, b: Vec3): Vec3 {
    Vec3(a.x + b.x, a.y + b.y, a.z + b.z)
  }

  function Sub(a: Vec3, b: Vec3): Vec3 {
    Vec3(a.x - b.x, a.y - b.y, a.z - b.z)
  }

  function Scale(a: Vec3, k: real): Vec3 {
    Vec3(k * a.x, k * a.y, k * a.z)
  }

  function Dot(a: Vec3, b: Vec3): real {
    a.x * b.x + a.y * b.y + a.z * b.z
  }

  function Cross(a: Vec3, b: Vec3): Vec3 {
    Vec3(a.y * b.z - a.z * b.y, a.z * b.x - a.x * b.z, a.x * b.y - a.y * b.x)
  }

  function SqLen(a: Vec3): real {
    Dot(a, a)
  }

  /** A triangle mesh as the renderer stores it: parallel attribute arrays and
      an index list read three at a time. */
  datatype Mesh = Mesh(vertices: seq<Vec3>, normals: seq<Vec3>, uvs: seq<Vec2>, indices: seq<int>)

  /** The mesh invariant every generator must establish: parallel attribute
      arrays, whole triangles, and every index naming an existing vertex. */
  predicate ValidMesh(m: Mesh) {
    && |m.normals| == |m.vertices|
    && |m.uvs| == |m.vertices|
    && |m.indices| % 3 == 0
    && forall k :: 0 <= k < |m.indices| ==> 0 <= m.indices[k] < |m.vertices|
  }

  function NumTriangles(m: Mesh): nat {
    |m.indices| / 3
  }

  /** Triangle `t` of `m` is counter-clockwise when seen from the side its first
      corner's normal points to: the cross product of its two edges from the
      first corner has positive dot product with that normal. This is the
      front-facing test of back-face culling with counter-clockwise front faces. */
  predicate FacesOutward(m: Mesh, t: int)
    requires ValidMesh(m)
    requires 0 <= t < NumTriangles(m)
  {
    CounterClockwise(TriangleCorner(m, t, 0), TriangleCorner(m, t, 1), TriangleCorner(m, t, 2),
                     m.normals[m.indices[3 * t]])
  }

  /** Corner `k` (0..2) of triangle `t`: the vertex its `3 * t + k`-th index names. */
  function TriangleCorner(m: Mesh, t: int, k: int): Vec3
    requires ValidMesh(m)
    requires 0 <= t < NumTriangles(m) && 0 <= k < 3
  {
    m.vertices[m.indices[3 * t + k]]
  }

  /** The triangle `p1 p2 p3` turns counter-clockwise seen from the side `n` points to. */
  predicate CounterClockwise(p1: Vec3, p2: Vec3, p3: Vec3, n: Vec3) {
    Dot(Cross(Sub(p2, p1), Sub(p3, p1)), n) > 0.0
  }

  /** A mesh together with its derived tangent-space arrays. */
  datatype RenderObject = RenderObject(mesh: Mesh, tangents: seq<Vec3>, bitangents: seq<Vec3>)

  predicate ValidObject(o: RenderObject) {
    && ValidMesh(o.mesh)
    && |o.tangents| == |o.mesh.vertices|
    && |o.bitangents| == |o.mesh.vertices|
  }
}
