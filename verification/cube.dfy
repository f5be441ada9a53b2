/** The cube generator: four vertices of its own per face (so each face keeps a
    flat normal), two triangles per face. Every coordinate, normal component
    and texture coordinate it stores is a small integer converted to float, so
    the cube is described here by integer coordinates, converted once. */
module Cube {
  import opened Geometry

  const VertexCount: int := 4 * 6
  const IndexCount: int := 3 * 2 * 6

  /** The axes of face `i`: the two free axes the face spans, and the fixed
      axis it is perpendicular to. */
  function FirstAxis(i: int): int
    requires 0 <= i < 6
  {
    i / 2
  }

  function SecondAxis(i: int): int
    requires 0 <= i < 6
  {
    if FirstAxis(i) == 2 then 0 else FirstAxis(i) + 1
  }

  function FixedAxis(i: int): int
    requires 0 <= i < 6
  {
    if FirstAxis(i) == 0 then 2 else FirstAxis(i) - 1
  }

  /** The three axes of a face are distinct and follow each other cyclically:
      second = (first + 1) % 3 and fixed = (second + 1) % 3, so every face
      is seen through a rotation of the (x, y, z) frame, never a mirror. */
  lemma AxesCyclic(i: int)
    requires 0 <= i < 6
    ensures SecondAxis(i) == (FirstAxis(i) + 1) % 3 && FixedAxis(i) == (SecondAxis(i) + 1) % 3
    ensures {FirstAxis(i), SecondAxis(i), FixedAxis(i)} == {0, 1, 2}
  {
  }

  /** -1 for even faces, +1 for odd faces: where the face sits on its fixed axis. */
  function Side(i: int): int
    requires 0 <= i < 6
  {
    (i % 2) * 2 - 1
  }

  /** Corner `j` (0..3) of a face sits at -1 or +1 along each free axis: bit 0
      of `j` picks the first, bit 1 the second. */
  function FreeFirst(j: int): int
    requires 0 <= j < 4
  {
    (j % 2) * 2 - 1
  }

  function FreeSecond(j: int): int
    requires 0 <= j < 4
  {
    (j / 2) * 2 - 1
  }

  /** Coordinate `axis` of corner `j` of face `i`. */
  function CornerCoord(i: int, j: int, axis: int): int
    requires 0 <= i < 6 && 0 <= j < 4 && 0 <= axis < 3
  {
    if axis == FirstAxis(i) then FreeFirst(j)
    else if axis == SecondAxis(i) then FreeSecond(j)
    else Side(i)
  }

  /** Coordinate `axis` of the normal of face `i`. */
  function NormalCoord(i: int, axis: int): int
    requires 0 <= i < 6 && 0 <= axis < 3
  {
    if axis == FirstAxis(i) || axis == SecondAxis(i) then 0 else Side(i)
  }

  function IntVec(x: int, y: int, z: int): Vec3 {
    Vec3(x as real, y as real, z as real)
  }

  function CornerPoint(i: int, j: int): Vec3
    requires 0 <= i < 6 && 0 <= j < 4
  {
    IntVec(CornerCoord(i, j, 0), CornerCoord(i, j, 1), CornerCoord(i, j, 2))
  }

  function FaceNormal(i: int): Vec3
    requires 0 <= i < 6
  {
    IntVec(NormalCoord(i, 0), NormalCoord(i, 1), NormalCoord(i, 2))
  }

  function CornerUv(j: int): Vec2
    requires 0 <= j < 4
  {
    Vec2((j % 2) as real, (j / 2) as real)
  }

  /** Index entry `c` (0..5) of face `i`: the triangles (a, 1, 2) and (1, b, 2)
      over the face's corners, where corners 0 and 3 trade places between odd
      and even faces. */
  function FaceIndex(i: int, c: int): int
    requires 0 <= i < 6 && 0 <= c < 6
  {
    if c == 0 then 4 * i + (if i % 2 != 0 then 0 else 3)
    else if c == 1 || c == 3 then 4 * i + 1
    else if c == 2 || c == 5 then 4 * i + 2
    else 4 * i + (if i % 2 != 0 then 3 else 0)
  }

  /** Index slot `6 * i + c` and vertex slot `4 * i + j` belong to face `i`. */
  function IndexAt(k: int): int
    requires 0 <= k < IndexCount
  {
    FaceIndex(k / 6, k % 6)
  }

  function VertexAt(v: int): Vec3
    requires 0 <= v < VertexCount
  {
    CornerPoint(v / 4, v % 4)
  }

  function NormalAt(v: int): Vec3
    requires 0 <= v < VertexCount
  {
    FaceNormal(v / 4)
  }

  function UvAt(v: int): Vec2
    requires 0 <= v < VertexCount
  {
    CornerUv(v % 4)
  }

  /** The whole cube, slot by slot: the arrays the generator fills. */
  predicate IsCubeMesh(m: Mesh) {
    && |m.vertices| == VertexCount && |m.normals| == VertexCount && |m.uvs| == VertexCount
    && |m.indices| == IndexCount
    && (forall k :: 0 <= k < IndexCount ==> m.indices[k] == IndexAt(k))
    && (forall v :: 0 <= v < VertexCount ==> m.vertices[v] == VertexAt(v))
    && (forall v :: 0 <= v < VertexCount ==> m.normals[v] == NormalAt(v))
    && (forall v :: 0 <= v < VertexCount ==> m.uvs[v] == UvAt(v))
  }

  /** The fill loop of the cube generator: face by face, its six index
      entries, then its four corners. */
  method CreateCubeGeometry() returns (m: Mesh)
    ensures IsCubeMesh(m)
  {
    var vertices := seq(VertexCount, _ => Zero3);
    var normals := seq(VertexCount, _ => Zero3);
    var uvs := seq(VertexCount, _ => Vec2(0.0, 0.0));
    var indices := seq(IndexCount, _ => 0);
    for i := 0 to 6
      invariant |vertices| == |normals| == |uvs| == VertexCount && |indices| == IndexCount
      invariant forall k :: 0 <= k < 6 * i ==> indices[k] == IndexAt(k)
      invariant forall v :: 0 <= v < 4 * i ==> vertices[v] == VertexAt(v)
      invariant forall v :: 0 <= v < 4 * i ==> normals[v] == NormalAt(v)
      invariant forall v :: 0 <= v < 4 * i ==> uvs[v] == UvAt(v)
    {
      indices := WriteFaceIndices(indices, i);
      vertices, normals, uvs := WriteFaceCorners(vertices, normals, uvs, i);
    }
    m := Mesh(vertices, normals, uvs, indices);
  }

  /** The six index writes of face `i`: two triangles over the face's own four
      vertices, every other slot untouched. */
  method WriteFaceIndices(indices: seq<int>, i: int) returns (r: seq<int>)
    requires 0 <= i < 6 && |indices| == IndexCount
    ensures |r| == IndexCount
    ensures forall k :: 0 <= k < IndexCount && !(6 * i <= k < 6 * i + 6) ==> r[k] == indices[k]
    ensures forall k :: 6 * i <= k < 6 * i + 6 ==> r[k] == IndexAt(k) && 4 * i <= r[k] < 4 * i + 4
  {
    r := indices;
    r := r[3 * 2 * i + 0 := 4 * i + (if i % 2 != 0 then 0 else 3)];
    r := r[3 * 2 * i + 1 := 4 * i + 1];
    r := r[3 * 2 * i + 2 := 4 * i + 2];
    r := r[3 * 2 * i + 3 := 4 * i + 1];
    r := r[3 * 2 * i + 4 := 4 * i + (if i % 2 != 0 then 3 else 0)];
    r := r[3 * 2 * i + 5 := 4 * i + 2];
    forall k | 6 * i <= k < 6 * i + 6
      ensures IndexAt(k) == FaceIndex(i, k - 6 * i)
    {
      IndexSlot(k, i, k - 6 * i);
    }
  }

  /** The four corners of face `i`, one component store at a time: corner `j`
      gets `(j % 2) * 2 - 1` on the first free axis, `(j / 2) * 2 - 1` on the
      second and the face's side on the fixed axis; the normal gets 0, 0 and the
      side; every other vertex slot is untouched. */
  method WriteFaceCorners(vertices: seq<Vec3>, normals: seq<Vec3>, uvs: seq<Vec2>, i: int)
    returns (vertices': seq<Vec3>, normals': seq<Vec3>, uvs': seq<Vec2>)
    requires 0 <= i < 6
    requires |vertices| == |normals| == |uvs| == VertexCount
    ensures |vertices'| == |normals'| == |uvs'| == VertexCount
    ensures forall v :: 0 <= v < VertexCount && !(4 * i <= v < 4 * i + 4) ==>
              vertices'[v] == vertices[v] && normals'[v] == normals[v] && uvs'[v] == uvs[v]
    ensures forall v :: 4 * i <= v < 4 * i + 4 ==>
              vertices'[v] == VertexAt(v) && normals'[v] == NormalAt(v) && uvs'[v] == UvAt(v)
  {
    vertices', normals', uvs' := vertices, normals, uvs;
    for j := 0 to 4
      invariant |vertices'| == |normals'| == |uvs'| == VertexCount
      invariant forall v :: 0 <= v < VertexCount && !(4 * i <= v < 4 * i + j) ==>
                  vertices'[v] == vertices[v] && normals'[v] == normals[v] && uvs'[v] == uvs[v]
      invariant forall v :: 4 * i <= v < 4 * i + j ==>
                  vertices'[v] == VertexAt(v) && normals'[v] == NormalAt(v) && uvs'[v] == UvAt(v)
    {
      vertices', normals', uvs' := WriteCorner(vertices', normals', uvs', i, j);
    }
  }

  /** Corner `j` of face `i`: three component stores into the position, three
      into the normal and one texture coordinate; only slot `4 i + j` changes. */
  method WriteCorner(vertices: seq<Vec3>, normals: seq<Vec3>, uvs: seq<Vec2>, i: int, j: int)
    returns (vertices': seq<Vec3>, normals': seq<Vec3>, uvs': seq<Vec2>)
    requires 0 <= i < 6 && 0 <= j < 4
    requires |vertices| == |normals| == |uvs| == VertexCount
    ensures vertices' == vertices[4 * i + j := VertexAt(4 * i + j)]
    ensures normals' == normals[4 * i + j := NormalAt(4 * i + j)]
    ensures uvs' == uvs[4 * i + j := UvAt(4 * i + j)]
  {
    AxesCyclic(i);
    var f := i / 2;
    var s := (f + 1) % 3;
    var t := (s + 1) % 3;
    var k := i * 4 + j;
    var p := SetCoord(SetCoord(SetCoord(vertices[k], f, ((j % 2) * 2 - 1) as real),
                               s, ((j / 2) * 2 - 1) as real),
                      t, ((i % 2) * 2 - 1) as real);
    var n := SetCoord(SetCoord(SetCoord(normals[k], f, 0.0), s, 0.0), t, ((i % 2) * 2 - 1) as real);
    StoredCorner(i, j, p, n);
    vertices' := vertices[k := p];
    normals' := normals[k := n];
    uvs' := uvs[k := Vec2((j % 2) as real, (j / 2) as real)];
  }

  /** Whatever a vertex slot held before, the three component stores of the
      fill loop leave exactly corner `j` of face `i` and the face normal in it. */
  lemma StoredCorner(i: int, j: int, p: Vec3, n: Vec3)
    requires 0 <= i < 6 && 0 <= j < 4
    requires Coord(p, FirstAxis(i)) == ((j % 2) * 2 - 1) as real
    requires Coord(p, SecondAxis(i)) == ((j / 2) * 2 - 1) as real
    requires Coord(p, FixedAxis(i)) == ((i % 2) * 2 - 1) as real
    requires Coord(n, FirstAxis(i)) == 0.0 && Coord(n, SecondAxis(i)) == 0.0
    requires Coord(n, FixedAxis(i)) == ((i % 2) * 2 - 1) as real
    ensures p == VertexAt(4 * i + j) && n == NormalAt(4 * i + j)
    ensures Vec2((j % 2) as real, (j / 2) as real) == UvAt(4 * i + j)
  {
    VertexSlot(4 * i + j, i, j);
    AxesCyclic(i);
    StoredPoint(i, j, p);
    StoredNormal(i, n);
  }

  /** A vector with the corner's value on each of the three axes is the corner. */
  lemma StoredPoint(i: int, j: int, p: Vec3)
    requires 0 <= i < 6 && 0 <= j < 4
    requires {FirstAxis(i), SecondAxis(i), FixedAxis(i)} == {0, 1, 2}
    requires Coord(p, FirstAxis(i)) == FreeFirst(j) as real
    requires Coord(p, SecondAxis(i)) == FreeSecond(j) as real
    requires Coord(p, FixedAxis(i)) == Side(i) as real
    ensures p == CornerPoint(i, j)
  {
    forall axis | 0 <= axis < 3
      ensures Coord(p, axis) == Coord(CornerPoint(i, j), axis)
    {
      assert axis in {FirstAxis(i), SecondAxis(i), FixedAxis(i)};
      assert Coord(CornerPoint(i, j), axis) == CornerCoord(i, j, axis) as real;
    }
    CoordsDetermine(p, CornerPoint(i, j));
  }

  /** A vector with the normal's value on each of the three axes is the normal. */
  lemma StoredNormal(i: int, n: Vec3)
    requires 0 <= i < 6
    requires {FirstAxis(i), SecondAxis(i), FixedAxis(i)} == {0, 1, 2}
    requires Coord(n, FirstAxis(i)) == 0.0 && Coord(n, SecondAxis(i)) == 0.0
    requires Coord(n, FixedAxis(i)) == Side(i) as real
    ensures n == FaceNormal(i)
  {
    forall axis | 0 <= axis < 3
      ensures Coord(n, axis) == Coord(FaceNormal(i), axis)
    {
      assert axis in {FirstAxis(i), SecondAxis(i), FixedAxis(i)};
      assert Coord(FaceNormal(i), axis) == NormalCoord(i, axis) as real;
    }
    CoordsDetermine(n, FaceNormal(i));
  }

  /** On a face whose free axes are x and y (the normal on z), the winding
      test reduces to the turn of the three corners in the plane, scaled by the
      normal's component. */
  lemma PlanarZ(p1: Vec3, p2: Vec3, p3: Vec3, n: Vec3,
                a1: real, b1: real, a2: real, b2: real, a3: real, b3: real, c: real)
    requires p1 == Vec3(a1, b1, c) && p2 == Vec3(a2, b2, c) && p3 == Vec3(a3, b3, c)
    requires n == Vec3(0.0, 0.0, c)
    ensures CounterClockwise(p1, p2, p3, n) <==> c * ((a2 - a1) * (b3 - b1) - (b2 - b1) * (a3 - a1)) > 0.0
  {
    assert Dot(Cross(Sub(p2, p1), Sub(p3, p1)), n) == c * ((a2 - a1) * (b3 - b1) - (b2 - b1) * (a3 - a1));
  }

  /** The same on a face spanning y and z (normal on x). */
  lemma PlanarX(p1: Vec3, p2: Vec3, p3: Vec3, n: Vec3,
                a1: real, b1: real, a2: real, b2: real, a3: real, b3: real, c: real)
    requires p1 == Vec3(c, a1, b1) && p2 == Vec3(c, a2, b2) && p3 == Vec3(c, a3, b3)
    requires n == Vec3(c, 0.0, 0.0)
    ensures CounterClockwise(p1, p2, p3, n) <==> c * ((a2 - a1) * (b3 - b1) - (b2 - b1) * (a3 - a1)) > 0.0
  {
    assert Dot(Cross(Sub(p2, p1), Sub(p3, p1)), n) == c * ((a2 - a1) * (b3 - b1) - (b2 - b1) * (a3 - a1));
  }

  /** The same on a face spanning z and x (normal on y). */
  lemma PlanarY(p1: Vec3, p2: Vec3, p3: Vec3, n: Vec3,
                a1: real, b1: real, a2: real, b2: real, a3: real, b3: real, c: real)
    requires p1 == Vec3(b1, c, a1) && p2 == Vec3(b2, c, a2) && p3 == Vec3(b3, c, a3)
    requires n == Vec3(0.0, c, 0.0)
    ensures CounterClockwise(p1, p2, p3, n) <==> c * ((a2 - a1) * (b3 - b1) - (b2 - b1) * (a3 - a1)) > 0.0
  {
    assert Dot(Cross(Sub(p2, p1), Sub(p3, p1)), n) == c * ((a2 - a1) * (b3 - b1) - (b2 - b1) * (a3 - a1));
  }

  /** Corners `j1 j2 j3` of face `i`, with free-axis coordinates `(a, b)`, pass
      the front-face test against the face normal exactly when their turn in
      the face plane, times the face's side, is positive. Since the fixed axis
      follows the two free axes cyclically, no face is seen mirrored. */
  lemma CornerWinding(i: int, j1: int, j2: int, j3: int,
                      a1: real, b1: real, a2: real, b2: real, a3: real, b3: real)
    requires 0 <= i < 6 && 0 <= j1 < 4 && 0 <= j2 < 4 && 0 <= j3 < 4
    requires a1 == FreeFirst(j1) as real && b1 == FreeSecond(j1) as real
    requires a2 == FreeFirst(j2) as real && b2 == FreeSecond(j2) as real
    requires a3 == FreeFirst(j3) as real && b3 == FreeSecond(j3) as real
    ensures CounterClockwise(CornerPoint(i, j1), CornerPoint(i, j2), CornerPoint(i, j3), FaceNormal(i))
            <==> (Side(i) as real) * ((a2 - a1) * (b3 - b1) - (b2 - b1) * (a3 - a1)) > 0.0
  {
    var p1, p2, p3, n := CornerPoint(i, j1), CornerPoint(i, j2), CornerPoint(i, j3), FaceNormal(i);
    if FirstAxis(i) == 0 {
      PlanarZ(p1, p2, p3, n, a1, b1, a2, b2, a3, b3, Side(i) as real);
    } else if FirstAxis(i) == 1 {
      PlanarX(p1, p2, p3, n, a1, b1, a2, b2, a3, b3, Side(i) as real);
    } else {
      PlanarY(p1, p2, p3, n, a1, b1, a2, b2, a3, b3, Side(i) as real);
    }
  }

  /** Face `i` holds six index entries, all among its own four vertices; both
      triangles share the face's corners 1 and 2, and corners 0 and 3 trade
      places between even and odd faces. */
  lemma FaceEntries(i: int)
    requires 0 <= i < 6
    ensures forall c :: 0 <= c < 6 ==> 4 * i <= FaceIndex(i, c) < 4 * i + 4
    ensures FaceIndex(i, 1) == FaceIndex(i, 3) == 4 * i + 1
    ensures FaceIndex(i, 2) == FaceIndex(i, 5) == 4 * i + 2
    ensures i % 2 == 0 ==> FaceIndex(i, 0) == 4 * i + 3 && FaceIndex(i, 4) == 4 * i
    ensures i % 2 == 1 ==> FaceIndex(i, 0) == 4 * i && FaceIndex(i, 4) == 4 * i + 3
  {
  }

  /** Index slot `k = 6 * i + c` holds entry `c` of face `i`. */
  lemma IndexSlot(k: int, i: int, c: int)
    requires 0 <= i < 6 && 0 <= c < 6 && k == 6 * i + c
    ensures 0 <= k < IndexCount && IndexAt(k) == FaceIndex(i, c)
  {
    assert k / 6 == i && k % 6 == c;
  }

  /** Vertex slot `v = 4 * i + j` holds corner `j` of face `i`. */
  lemma VertexSlot(v: int, i: int, j: int)
    requires 0 <= i < 6 && 0 <= j < 4 && v == 4 * i + j
    ensures 0 <= v < VertexCount
    ensures VertexAt(v) == CornerPoint(i, j) && NormalAt(v) == FaceNormal(i) && UvAt(v) == CornerUv(j)
  {
    assert v / 4 == i && v % 4 == j;
  }

  /** Every index names one of the 24 vertices, and each of the twelve
      triangles passes the front-face test, so none is discarded when culling
      is enabled. */
  lemma AllTrianglesFaceOutward(m: Mesh)
    requires IsCubeMesh(m)
    ensures ValidMesh(m) && NumTriangles(m) == 12
    ensures forall t :: 0 <= t < NumTriangles(m) ==> FacesOutward(m, t)
  {
    CubeMeshValid(m);
    forall t | 0 <= t < 12
      ensures FacesOutward(m, t)
    {
      TriangleFacesOutward(m, t);
    }
  }

  lemma CubeMeshValid(m: Mesh)
    requires IsCubeMesh(m)
    ensures ValidMesh(m) && NumTriangles(m) == 12
  {
    forall k | 0 <= k < IndexCount
      ensures 0 <= m.indices[k] < VertexCount
    {
      FaceEntries(k / 6);
      IndexSlot(k, k / 6, k % 6);
    }
  }

  /** Triangle `t` is the first or second triangle of face `t / 2`; on even
      faces its corners are (3, 1, 2) and (1, 0, 2), on odd faces (0, 1, 2)
      and (1, 3, 2), each turning against or with the face plane's axes as the
      face's side requires. */
  lemma TriangleFacesOutward(m: Mesh, t: int)
    requires IsCubeMesh(m) && 0 <= t < 12
    ensures ValidMesh(m) && NumTriangles(m) == 12 && FacesOutward(m, t)
  {
    var i, half := t / 2, t % 2;
    FaceEntries(i);
    if i % 2 == 0 {
      if half == 0 {
        TriangleOutward(m, t, i, half, 3, 1, 2, 1.0, 1.0, 1.0, -1.0, -1.0, 1.0);
      } else {
        TriangleOutward(m, t, i, half, 1, 0, 2, 1.0, -1.0, -1.0, -1.0, -1.0, 1.0);
      }
    } else {
      if half == 0 {
        TriangleOutward(m, t, i, half, 0, 1, 2, -1.0, -1.0, 1.0, -1.0, -1.0, 1.0);
      } else {
        TriangleOutward(m, t, i, half, 1, 3, 2, 1.0, -1.0, 1.0, 1.0, -1.0, 1.0);
      }
    }
  }

  /** Triangle `t = 2 * i + half` over corners `j1 j2 j3` of face `i` passes
      the front-face test when the corners turn in the face plane the way the
      face's side asks for. */
  lemma TriangleOutward(m: Mesh, t: int, i: int, half: int, j1: int, j2: int, j3: int,
                        a1: real, b1: real, a2: real, b2: real, a3: real, b3: real)
    requires IsCubeMesh(m)
    requires 0 <= i < 6 && 0 <= half < 2 && t == 2 * i + half
    requires 0 <= j1 < 4 && 0 <= j2 < 4 && 0 <= j3 < 4
    requires FaceIndex(i, 3 * half) == 4 * i + j1 && FaceIndex(i, 3 * half + 1) == 4 * i + j2
    requires FaceIndex(i, 3 * half + 2) == 4 * i + j3
    requires a1 == FreeFirst(j1) as real && b1 == FreeSecond(j1) as real
    requires a2 == FreeFirst(j2) as real && b2 == FreeSecond(j2) as real
    requires a3 == FreeFirst(j3) as real && b3 == FreeSecond(j3) as real
    requires (Side(i) as real) * ((a2 - a1) * (b3 - b1) - (b2 - b1) * (a3 - a1)) > 0.0
    ensures ValidMesh(m) && NumTriangles(m) == 12 && FacesOutward(m, t)
  {
    CornerWinding(i, j1, j2, j3, a1, b1, a2, b2, a3, b3);
    TriangleCorners(m, t, i, half, j1, j2, j3);
  }

  /** Triangle `t = 2 * i + half`, stored at index slots `6 * i + 3 * half`
      .. `+ 2` as corners `j1 j2 j3` of face `i`, has exactly those corners
      and the face normal. */
  lemma TriangleCorners(m: Mesh, t: int, i: int, half: int, j1: int, j2: int, j3: int)
    requires IsCubeMesh(m)
    requires 0 <= i < 6 && 0 <= half < 2 && t == 2 * i + half
    requires 0 <= j1 < 4 && 0 <= j2 < 4 && 0 <= j3 < 4
    requires FaceIndex(i, 3 * half) == 4 * i + j1 && FaceIndex(i, 3 * half + 1) == 4 * i + j2
    requires FaceIndex(i, 3 * half + 2) == 4 * i + j3
    ensures ValidMesh(m) && NumTriangles(m) == 12
    ensures TriangleCorner(m, t, 0) == CornerPoint(i, j1)
    ensures TriangleCorner(m, t, 1) == CornerPoint(i, j2)
    ensures TriangleCorner(m, t, 2) == CornerPoint(i, j3)
    ensures m.normals[m.indices[3 * t]] == FaceNormal(i)
  {
    CubeMeshValid(m);
    TriangleVertex(m, t, 0, 3 * t, i, half, j1);
    TriangleVertex(m, t, 1, 3 * t + 1, i, half, j2);
    TriangleVertex(m, t, 2, 3 * t + 2, i, half, j3);
  }

  /** Corner `c` of triangle `t = 2 * i + half`, stored at index slot
      `k = 6 * i + 3 * half + c` as corner `j` of face `i`, is that corner,
      and its normal is the face normal. */
  lemma TriangleVertex(m: Mesh, t: int, c: int, k: int, i: int, half: int, j: int)
    requires IsCubeMesh(m) && ValidMesh(m) && NumTriangles(m) == 12
    requires 0 <= i < 6 && 0 <= half < 2 && t == 2 * i + half && 0 <= c < 3 && 0 <= j < 4
    requires k == 3 * t + c && FaceIndex(i, 3 * half + c) == 4 * i + j
    ensures 0 <= k < IndexCount
    ensures TriangleCorner(m, t, c) == CornerPoint(i, j)
    ensures m.normals[m.indices[k]] == FaceNormal(i)
  {
    var v := 4 * i + j;
    IndexSlot(k, i, 3 * half + c);
    assert m.indices[k] == IndexAt(k) == v;
    VertexSlot(v, i, j);
    assert m.vertices[v] == VertexAt(v) && m.normals[v] == NormalAt(v);
    assert TriangleCorner(m, t, c) == m.vertices[m.indices[k]];
  }

  /** The square of a sign is one. */
  lemma SignSquare(s: real)
    requires s == 1.0 || s == -1.0
    ensures s * s == 1.0
  {
  }

  /** Corner `j` of face `i` lies in the plane where the fixed axis
      `(i / 2 + 2) % 3` equals `(i % 2) * 2 - 1`; the face normal is the unit vector along that
      axis with that sign, and the texture square is mapped identically onto
      every face. */
  lemma FaceAttributes(i: int, j: int)
    requires 0 <= i < 6 && 0 <= j < 4
    ensures FixedAxis(i) == (i / 2 + 2) % 3
    ensures CornerCoord(i, j, FixedAxis(i)) == NormalCoord(i, FixedAxis(i)) == (i % 2) * 2 - 1
    ensures NormalCoord(i, FirstAxis(i)) == 0 && NormalCoord(i, SecondAxis(i)) == 0
    ensures SqLen(FaceNormal(i)) == 1.0
    ensures CornerUv(j) == Vec2((j % 2) as real, (j / 2) as real)
  {
    var s := Side(i) as real;
    SignSquare(s);
    if FixedAxis(i) == 0 {
      assert FaceNormal(i) == Vec3(s, 0.0, 0.0);
    } else if FixedAxis(i) == 1 {
      assert FaceNormal(i) == Vec3(0.0, s, 0.0);
    } else {
      assert FaceNormal(i) == Vec3(0.0, 0.0, s);
    }
  }

  /** The corners of face `i` take only the values -1 and +1 on the face's free
      axes and only 0 and 1 as texture coordinates, and two different corners
      differ in both: the four corners are the four distinct combinations. */
  lemma FaceCorners(i: int, j: int, j': int)
    requires 0 <= i < 6 && 0 <= j < 4 && 0 <= j' < 4
    ensures CornerCoord(i, j, FirstAxis(i)) in {-1, 1} && CornerCoord(i, j, SecondAxis(i)) in {-1, 1}
    ensures CornerUv(j).u in {0.0, 1.0} && CornerUv(j).v in {0.0, 1.0}
    ensures j != j' ==>
              && (CornerCoord(i, j, FirstAxis(i)), CornerCoord(i, j, SecondAxis(i)))
                 != (CornerCoord(i, j', FirstAxis(i)), CornerCoord(i, j', SecondAxis(i)))
              && CornerUv(j) != CornerUv(j')
  {
  }
}
