/** The vertex layout of the UV sphere of resolution `r`: `r - 1` rings of
    latitude between the poles, each with `r + 1` columns (the last column
    repeats the first at longitude 2 pi, so the texture can wrap), followed
    by the south and the north pole. */
module SphereLayout {
  import opened Arith

  /** The vertex count the generator allocates: a cylindrical grid plus two poles. */
  function NumVertices(r: int): int {
    (r + 1) * (r - 1) + 2
  }

  /** A vertex of the sphere: column `col` of ring `ring`, or a pole. */
  datatype VertexRef = Ring(ring: int, col: int) | South | North

  predicate IsVertexRef(r: int, x: VertexRef) {
    match x
    case Ring(ring, col) => 0 <= ring < r - 1 && 0 <= col < r + 1
    case South => true
    case North => true
  }

  /** The vertex slot of `x`: rings are stored row by row, the south pole
      right after the grid and the north pole last. */
  function SlotOfRef(r: int, x: VertexRef): int {
    match x
    case Ring(ring, col) => ring * (r + 1) + col
    case South => (r + 1) * (r - 1)
    case North => (r + 1) * (r - 1) + 1
  }

  /** `q * d + m` over `d` is `q` with remainder `m`, named by the dividend `k`. */
  lemma DivModOf(k: int, q: int, d: int, m: int)
    requires d > 0 && 0 <= m < d && k == q * d + m
    ensures k / d == q && k % d == m
  {
    DivModUnique(q, d, m);
  }

  /** The vertex stored in slot `v`: every slot below the vertex count holds
      exactly one vertex. */
  function RefAt(r: int, v: int): (x: VertexRef)
    requires r >= 2 && 0 <= v < NumVertices(r)
    ensures IsVertexRef(r, x) && SlotOfRef(r, x) == v
  {
    if v < (r + 1) * (r - 1) then
      DivBelow(v, r + 1, r - 1);
      Ring(v / (r + 1), v % (r + 1))
    else if v == (r + 1) * (r - 1) then South
    else North
  }

  /** Slot and vertex determine each other: the layout is a bijection between
      the vertices of the sphere and the slots below the vertex count. */
  lemma RefSlotRoundTrip(r: int, x: VertexRef)
    requires r >= 2 && IsVertexRef(r, x)
    ensures 0 <= SlotOfRef(r, x) < NumVertices(r)
    ensures RefAt(r, SlotOfRef(r, x)) == x
  {
    match x
    case Ring(ring, col) =>
      MulLessEq(ring, r - 2, r + 1);
      assert (r - 2) * (r + 1) + r + 1 == (r + 1) * (r - 1);
      DivModOf(SlotOfRef(r, x), ring, r + 1, col);
    case South =>
    case North =>
  }
}
