/** The vertex half of the UV sphere generator: positions, normals and texture
    coordinates of every slot of the layout in `SphereLayout`.

    Ring `i` lies at latitude `pi * (i + 1) / r - pi / 2` and column `j` at
    longitude `2 * pi * j / r`. Their sines and cosines are not computed here:
    they arrive as a `Trig` table, and the properties that depend on them
    (seam, unit normals) assume only the trigonometric identities they need.
 */
module SphereVertices {
  import opened Geometry
  import opened SphereLayout

  /** Sine and cosine of the latitude of each ring and of the longitude of each column. */
  datatype Trig = Trig(sinLat: int -> real, cosLat: int -> real, sinLon: int -> real, cosLon: int -> real)

  /** The longitude of column `r` is a full turn, so it has the sine and cosine
      of column 0. */
  predicate FullTurn(trig: Trig, r: int) {
    trig.sinLon(r) == trig.sinLon(0) && trig.cosLon(r) == trig.cosLon(0)
  }

  /** Sine and cosine of ring `i` and column `j` satisfy `sin^2 + cos^2 = 1`. */
  predicate Pythagorean(trig: Trig, i: int, j: int) {
    && trig.sinLat(i) * trig.sinLat(i) + trig.cosLat(i) * trig.cosLat(i) == 1.0
    && trig.sinLon(j) * trig.sinLon(j) + trig.cosLon(j) * trig.cosLon(j) == 1.0
  }

  /** The normal the generator stores for vertex `x`: the direction of the
      latitude/longitude pair on a ring, straight down or up at the poles. */
  function NormalOf(trig: Trig, x: VertexRef): Vec3 {
    match x
    case Ring(i, j) => Vec3(trig.cosLat(i) * trig.sinLon(j), trig.sinLat(i), trig.cosLat(i) * trig.cosLon(j))
    case South => Vec3(0.0, -1.0, 0.0)
    case North => Vec3(0.0, 1.0, 0.0)
  }

  /** The position the generator stores for vertex `x`: ring vertices are the
      normal scaled by `size`; the poles are written as constants. */
  function PositionOf(size: real, trig: Trig, x: VertexRef): Vec3 {
    match x
    case Ring(_, _) => Scale(NormalOf(trig, x), size)
    case South => Vec3(0.0, -size, 0.0)
    case North => Vec3(0.0, size, 0.0)
  }

  /** The texture coordinate of vertex `x`: column over resolution across,
      ring plus one over resolution up; the poles sit mid-width on the bottom
      and top edges. */
  function UvOf(r: int, x: VertexRef): Vec2
    requires r >= 2
  {
    match x
    case Ring(i, j) => Vec2(j as real / r as real, (i + 1) as real / r as real)
    case South => Vec2(0.5, 0.0)
    case North => Vec2(0.5, 1.0)
  }

  /** Every vertex, the poles included, is its normal scaled by `size`: the
      pole constants agree with the ring formula. */
  lemma PositionIsScaledNormal(size: real, trig: Trig, x: VertexRef)
    ensures PositionOf(size, trig, x) == Scale(NormalOf(trig, x), size)
  {
  }

  /** Normals have unit length wherever sine and cosine do, so every vertex
      lies at distance `size` from the centre. */
  lemma UnitNormal(size: real, trig: Trig, x: VertexRef)
    requires x.Ring? ==> Pythagorean(trig, x.ring, x.col)
    ensures SqLen(NormalOf(trig, x)) == 1.0
    ensures SqLen(PositionOf(size, trig, x)) == size * size
  {
    match x
    case Ring(i, j) =>
      var n, p := NormalOf(trig, x), PositionOf(size, trig, x);
      UnitDirection(trig.sinLat(i), trig.cosLat(i), trig.sinLon(j), trig.cosLon(j), n);
      ScaledUnitLength(n, size, p);
      assert SqLen(p) == size * size;
    case South =>
      assert SqLen(PositionOf(size, trig, x)) == (-size) * (-size);
    case North =>
      assert SqLen(PositionOf(size, trig, x)) == size * size;
  }

  /** `(c * s', s, c * c')` is a unit vector when `(s, c)` and `(s', c')` are. */
  lemma UnitDirection(s: real, c: real, s': real, c': real, n: Vec3)
    requires s * s + c * c == 1.0 && s' * s' + c' * c' == 1.0
    requires n == Vec3(c * s', s, c * c')
    ensures SqLen(n) == 1.0
  {
    calc {
      SqLen(n);
      (c * s') * (c * s') + s * s + (c * c') * (c * c');
      { assert (c * s') * (c * s') + (c * c') * (c * c') == (c * c) * (s' * s' + c' * c'); }
      c * c + s * s;
    }
  }

  /** A unit vector scaled by `k` has squared length `k * k`. */
  lemma ScaledUnitLength(n: Vec3, k: real, p: Vec3)
    requires SqLen(n) == 1.0 && p == Scale(n, k)
    ensures SqLen(p) == k * k
  {
    assert SqLen(p) == k * k * (n.x * n.x + n.y * n.y + n.z * n.z);
  }

  /** The seam: column `r` repeats the position and normal of column 0 of the
      same ring, with the same height in the texture but at its right edge
      instead of its left edge. */
  lemma SeamDuplicatesFirstColumn(r: int, size: real, trig: Trig, i: int)
    requires r >= 2 && 0 <= i < r - 1 && FullTurn(trig, r)
    ensures NormalOf(trig, Ring(i, r)) == NormalOf(trig, Ring(i, 0))
    ensures PositionOf(size, trig, Ring(i, r)) == PositionOf(size, trig, Ring(i, 0))
    ensures UvOf(r, Ring(i, 0)) == Vec2(0.0, UvOf(r, Ring(i, r)).v)
    ensures UvOf(r, Ring(i, r)).u == 1.0
  {
    assert trig.sinLon(r) == trig.sinLon(0) && trig.cosLon(r) == trig.cosLon(0);
    assert NormalOf(trig, Ring(i, r)) == NormalOf(trig, Ring(i, 0));
    assert (r as real) / (r as real) == 1.0;
    assert (0 as real) / (r as real) == 0.0;
  }

  /** Texture coordinates lie in the unit square; a ring vertex is strictly
      between the bottom and top edges, and the poles are on them. */
  lemma UvInUnitSquare(r: int, x: VertexRef)
    requires r >= 2 && IsVertexRef(r, x)
    ensures 0.0 <= UvOf(r, x).u <= 1.0
    ensures 0.0 <= UvOf(r, x).v <= 1.0
    ensures x.Ring? <==> 0.0 < UvOf(r, x).v < 1.0
    ensures x.South? <==> UvOf(r, x).v == 0.0
  {
    match x
    case Ring(i, j) =>
      assert j as real <= r as real;
      assert (i + 1) as real < r as real;
    case South =>
    case North =>
  }

  /** The texture height grows with the ring: south pole, ring 0, ..., ring
      `r - 2`, north pole, in that order. */
  lemma UvHeightMonotone(r: int, x: VertexRef, y: VertexRef)
    requires r >= 2 && IsVertexRef(r, x) && IsVertexRef(r, y)
    requires x.Ring? && y.Ring? && x.ring < y.ring
    ensures UvOf(r, x).v < UvOf(r, y).v
  {
    assert (x.ring + 1) as real < (y.ring + 1) as real;
  }

  /** No two vertices share a texture coordinate: the seam column is
      distinguished from column 0 only by its texture coordinate, and that
      is what lets the texture wrap without a visible stretch. */
  lemma UvsDistinct(r: int, x: VertexRef, y: VertexRef)
    requires r >= 2 && IsVertexRef(r, x) && IsVertexRef(r, y)
    requires UvOf(r, x) == UvOf(r, y)
    ensures x == y
  {
    UvInUnitSquare(r, x);
    UvInUnitSquare(r, y);
    if x.Ring? && y.Ring? {
      RatioInjective(x.col, y.col, r);
      RatioInjective(x.ring + 1, y.ring + 1, r);
    }
  }

  /** `a / r == b / r` only when `a == b`. */
  lemma RatioInjective(a: int, b: int, r: int)
    requires r > 0 && a as real / r as real == b as real / r as real
    ensures a == b
  {
    assert a as real == (a as real / r as real) * r as real;
    assert b as real == (b as real / r as real) * r as real;
  }

  /** Slots `lo .. hi` have been written exactly once, each with the position,
      normal and texture coordinate of the vertex the layout puts there. */
  predicate Filled(r: int, size: real, trig: Trig, vertices: seq<Vec3>, normals: seq<Vec3>, uvs: seq<Vec2>,
                   writes: seq<int>, lo: int, hi: int)
  {
    && r >= 2
    && |vertices| == |normals| == |uvs| == |writes| == NumVertices(r)
    && 0 <= lo <= hi <= NumVertices(r)
    && forall v :: lo <= v < hi ==>
         && writes[v] == 1
         && vertices[v] == PositionOf(size, trig, RefAt(r, v))
         && normals[v] == NormalOf(trig, RefAt(r, v))
         && uvs[v] == UvOf(r, RefAt(r, v))
  }

  /** Slots `lo .. hi` have not been written yet. */
  predicate Untouched(writes: seq<int>, lo: int, hi: int) {
    && 0 <= lo <= hi <= |writes|
    && forall v :: lo <= v < hi ==> writes[v] == 0
  }

  /** One vertex store of the generator (its normal, position and texture
      coordinate), counted in `writes`. */
  method Store(r: int, size: real, trig: Trig, vertices: seq<Vec3>, normals: seq<Vec3>, uvs: seq<Vec2>,
               writes: seq<int>, x: VertexRef)
    returns (vertices': seq<Vec3>, normals': seq<Vec3>, uvs': seq<Vec2>, writes': seq<int>)
    requires r >= 2 && IsVertexRef(r, x)
    requires |vertices| == |normals| == |uvs| == |writes| == NumVertices(r)
    ensures 0 <= SlotOfRef(r, x) < NumVertices(r)
    ensures vertices' == vertices[SlotOfRef(r, x) := PositionOf(size, trig, RefAt(r, SlotOfRef(r, x)))]
    ensures normals' == normals[SlotOfRef(r, x) := NormalOf(trig, RefAt(r, SlotOfRef(r, x)))]
    ensures uvs' == uvs[SlotOfRef(r, x) := UvOf(r, RefAt(r, SlotOfRef(r, x)))]
    ensures writes' == writes[SlotOfRef(r, x) := writes[SlotOfRef(r, x)] + 1]
  {
    RefSlotRoundTrip(r, x);
    var v := SlotOfRef(r, x);
    normals' := normals[v := NormalOf(trig, x)];
    vertices' := vertices[v := PositionOf(size, trig, x)];
    uvs' := uvs[v := UvOf(r, x)];
    writes' := writes[v := writes[v] + 1];
  }

  /** The store of vertex `x` when its slot is the next unwritten one: the
      written prefix grows by one and the rest stays unwritten. */
  method StoreNext(r: int, size: real, trig: Trig, vertices: seq<Vec3>, normals: seq<Vec3>, uvs: seq<Vec2>,
                   writes: seq<int>, x: VertexRef)
    returns (vertices': seq<Vec3>, normals': seq<Vec3>, uvs': seq<Vec2>, writes': seq<int>)
    requires IsVertexRef(r, x)
    requires Filled(r, size, trig, vertices, normals, uvs, writes, 0, SlotOfRef(r, x))
    requires Untouched(writes, SlotOfRef(r, x), NumVertices(r))
    ensures Filled(r, size, trig, vertices', normals', uvs', writes', 0, SlotOfRef(r, x) + 1)
    ensures Untouched(writes', SlotOfRef(r, x) + 1, NumVertices(r))
  {
    RefSlotRoundTrip(r, x);
    var v := SlotOfRef(r, x);
    vertices', normals', uvs', writes' := Store(r, size, trig, vertices, normals, uvs, writes, x);
    assert writes'[v] == 1;
  }

  /** Ring `i`: its `r + 1` columns, the last one the seam. */
  method StoreRing(r: int, size: real, trig: Trig, vertices: seq<Vec3>, normals: seq<Vec3>, uvs: seq<Vec2>,
                   writes: seq<int>, i: int)
    returns (vertices': seq<Vec3>, normals': seq<Vec3>, uvs': seq<Vec2>, writes': seq<int>)
    requires 0 <= i < r - 1
    requires Filled(r, size, trig, vertices, normals, uvs, writes, 0, i * (r + 1))
    requires Untouched(writes, i * (r + 1), NumVertices(r))
    ensures Filled(r, size, trig, vertices', normals', uvs', writes', 0, (i + 1) * (r + 1))
    ensures Untouched(writes', (i + 1) * (r + 1), NumVertices(r))
  {
    RefSlotRoundTrip(r, Ring(i, r));
    vertices', normals', uvs', writes' := vertices, normals, uvs, writes;
    for j := 0 to r + 1
      invariant Filled(r, size, trig, vertices', normals', uvs', writes', 0, i * (r + 1) + j)
      invariant Untouched(writes', i * (r + 1) + j, NumVertices(r))
    {
      vertices', normals', uvs', writes' :=
        StoreNext(r, size, trig, vertices', normals', uvs', writes', Ring(i, j));
    }
    assert i * (r + 1) + r + 1 == (i + 1) * (r + 1);
  }

  /** The vertex half of the sphere generator: a zeroed buffer, then ring by
      ring, column by column, then the two poles. Every slot below the vertex
      count is written exactly once, with the attributes of the vertex the
      layout puts there. */
  method CreateSphereVertices(r: int, size: real, trig: Trig)
    returns (vertices: seq<Vec3>, normals: seq<Vec3>, uvs: seq<Vec2>, writes: seq<int>)
    requires r >= 2
    ensures |vertices| == |normals| == |uvs| == |writes| == NumVertices(r)
    ensures forall v :: 0 <= v < NumVertices(r) ==>
      && writes[v] == 1
      && vertices[v] == PositionOf(size, trig, RefAt(r, v))
      && normals[v] == NormalOf(trig, RefAt(r, v))
      && uvs[v] == UvOf(r, RefAt(r, v))
  {
    vertices := seq(NumVertices(r), _ => Zero3);
    normals := seq(NumVertices(r), _ => Zero3);
    uvs := seq(NumVertices(r), _ => Vec2(0.0, 0.0));
    writes := seq(NumVertices(r), _ => 0);
    for i := 0 to r - 1
      invariant Filled(r, size, trig, vertices, normals, uvs, writes, 0, i * (r + 1))
      invariant Untouched(writes, i * (r + 1), NumVertices(r))
    {
      vertices, normals, uvs, writes := StoreRing(r, size, trig, vertices, normals, uvs, writes, i);
    }
    var south := (r + 1) * (r - 1);
    assert (r - 1) * (r + 1) == south;
    vertices, normals, uvs, writes := StoreNext(r, size, trig, vertices, normals, uvs, writes, South);
    vertices, normals, uvs, writes := StoreNext(r, size, trig, vertices, normals, uvs, writes, North);
  }
}
