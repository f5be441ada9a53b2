/** The index buffer of the UV sphere of resolution `r`: two triangles per
    cell of the ring grid, then a fan of `r` triangles from ring 0 to the
    south pole and a fan of `r` triangles from the last ring to the north
    pole. The generator has no resolution check. At `r = 1` its fan loop
    stores at negative offsets; at `r = 0` its pole stores do; for `r < 0`
    this buffer is left unwritten. So `r >= 2` is what its callers must
    ensure. */
module SphereIndices {
  import opened Arith
  import opened SphereLayout

  /** The index count the generator allocates. */
  function NumIndices(r: int): int {
    3 * (r * 2 + (r - 2) * r * 2)
  }

  /** The first slot after the grid: where the two pole fans begin. */
  function FanStart(r: int): int {
    3 * 2 * r * (r - 2)
  }

  /** One index store of the generator: entry `c` of grid cell (row `i`,
      column `j`), or entry `c` of triangle `i` of the south or north fan. */
  datatype IndexWrite = Grid(i: int, j: int, c: int) | SouthFan(i: int, c: int) | NorthFan(i: int, c: int)

  /** The stores the generator's loops perform. */
  predicate IsWrite(r: int, w: IndexWrite) {
    match w
    case Grid(i, j, c) => 0 <= i < r - 2 && 0 <= j < r && 0 <= c < 6
    case SouthFan(i, c) => 0 <= i < r && 0 <= c < 3
    case NorthFan(i, c) => 0 <= i < r && 0 <= c < 3
  }

  /** The buffer offset a store writes to. */
  function SlotOf(r: int, w: IndexWrite): int {
    match w
    case Grid(i, j, c) => 3 * 2 * r * i + 3 * 2 * j + c
    case SouthFan(i, c) => 3 * 2 * r * (r - 2) + 3 * i + c
    case NorthFan(i, c) => 3 * 2 * r * (r - 2) + 3 * (r + i) + c
  }

  /** The vertex index a store writes. */
  function ValueOf(r: int, w: IndexWrite): int {
    match w
    case Grid(i, j, c) =>
      if c == 0 then (i + 0) * (r + 1) + j + 0
      else if c == 1 then (i + 0) * (r + 1) + j + 1
      else if c == 2 then (i + 1) * (r + 1) + j + 0
      else if c == 3 then (i + 0) * (r + 1) + j + 1
      else if c == 4 then (i + 1) * (r + 1) + j + 1
      else (i + 1) * (r + 1) + j + 0
    case SouthFan(i, c) =>
      if c == 0 then i + 1 else if c == 1 then i else (r + 1) * (r - 1)
    case NorthFan(i, c) =>
      if c == 0 then (r + 1) * (r - 2) + i
      else if c == 1 then (r + 1) * (r - 2) + i + 1
      else (r + 1) * (r - 1) + 1
  }

  /** The vertex each store is meant to name: a grid cell spans rings `i`
      and `i + 1` and columns `j` and `j + 1`; the south fan joins two
      neighbouring columns of ring 0 to the south pole, the north fan two
      neighbouring columns of the last ring to the north pole. */
  function TargetOf(r: int, w: IndexWrite): VertexRef {
    match w
    case Grid(i, j, c) =>
      if c == 0 then Ring(i, j)
      else if c == 1 || c == 3 then Ring(i, j + 1)
      else if c == 2 || c == 5 then Ring(i + 1, j)
      else Ring(i + 1, j + 1)
    case SouthFan(i, c) =>
      if c == 0 then Ring(0, i + 1) else if c == 1 then Ring(0, i) else South
    case NorthFan(i, c) =>
      if c == 0 then Ring(r - 2, i) else if c == 1 then Ring(r - 2, i + 1) else North
  }

  /** The counts are a grid of `r - 2` rows of `r` cells, two triangles each,
      plus two fans of `r` triangles: `6 r (r - 1)` indices over
      `r * r + 1` vertices. */
  lemma Counts(r: int)
    ensures NumIndices(r) == FanStart(r) + 3 * r + 3 * r
    ensures NumIndices(r) == 6 * r * (r - 1)
    ensures NumVertices(r) == r * r + 1
  {
  }

  /** The slot a store writes lies in its own region of the buffer: the grid
      below `FanStart`, the south fan in the next `3 r` slots, the north fan
      in the last `3 r`. */
  lemma SlotRegion(r: int, w: IndexWrite)
    requires r >= 2 && IsWrite(r, w)
    ensures w.Grid? ==> 0 <= SlotOf(r, w) < FanStart(r)
    ensures w.SouthFan? ==> FanStart(r) <= SlotOf(r, w) < FanStart(r) + 3 * r
    ensures w.NorthFan? ==> FanStart(r) + 3 * r <= SlotOf(r, w) < FanStart(r) + 6 * r
  {
    if w.Grid? {
      MulLessEq(w.i, r - 3, 6 * r);
      assert 3 * 2 * r * w.i == w.i * (6 * r);
      assert (r - 3) * (6 * r) + 6 * r == FanStart(r);
    }
  }

  /** A grid slot splits into row `k / 6r`, column `(k % 6r) / 6` and entry
      `k % 6`, all in range. */
  lemma GridDecode(r: int, k: int)
    requires r >= 2 && 0 <= k < FanStart(r)
    ensures 0 <= k / (6 * r) < r - 2 && 0 <= k % (6 * r) / 6 < r && 0 <= k % (6 * r) % 6 < 6
    ensures 3 * 2 * r * (k / (6 * r)) + 3 * 2 * (k % (6 * r) / 6) + k % (6 * r) % 6 == k
  {
    var d := 6 * r;
    assert FanStart(r) == d * (r - 2);
    DivBelow(k, d, r - 2);
    var q, m := k / d, k % d;
    assert k == q * d + m;
    DivBelow(m, 6, r);
    assert m == 6 * (m / 6) + m % 6;
    assert 3 * 2 * r * q == q * d;
  }

  /** The grid and the two fans fill the buffer exactly. */
  lemma FanEnd(r: int)
    requires r >= 2
    ensures 0 <= FanStart(r) && NumIndices(r) == FanStart(r) + 6 * r
  {
    MulLessEq(0, r - 2, 6 * r);
    assert FanStart(r) == (r - 2) * (6 * r);
  }

  /** The store that writes slot `k`: every slot of the buffer is written by
      some store of the generator. */
  function WriteAt(r: int, k: int): (w: IndexWrite)
    requires r >= 2 && 0 <= k < NumIndices(r)
    ensures IsWrite(r, w) && SlotOf(r, w) == k
  {
    FanEnd(r);
    if k < FanStart(r) then GridWriteAt(r, k) else FanWriteAt(r, k)
  }

  /** The grid store that writes slot `k` below `FanStart`. */
  function GridWriteAt(r: int, k: int): (w: IndexWrite)
    requires r >= 2 && 0 <= k < FanStart(r)
    ensures IsWrite(r, w) && w.Grid? && SlotOf(r, w) == k
  {
    GridDecode(r, k);
    Grid(k / (6 * r), k % (6 * r) / 6, k % (6 * r) % 6)
  }

  /** The fan store that writes slot `k` at or above `FanStart`. */
  function FanWriteAt(r: int, k: int): (w: IndexWrite)
    requires r >= 2 && FanStart(r) <= k < FanStart(r) + 6 * r
    ensures IsWrite(r, w) && !w.Grid? && SlotOf(r, w) == k
    ensures w.SouthFan? <==> k < FanStart(r) + 3 * r
  {
    if k < FanStart(r) + 3 * r then
      SouthFan((k - FanStart(r)) / 3, (k - FanStart(r)) % 3)
    else
      NorthFan((k - FanStart(r) - 3 * r) / 3, (k - FanStart(r) - 3 * r) % 3)
  }

  /** ... and no slot is written by two stores: decoding the slot a store
      writes gives back that store. */
  lemma WriteSlotRoundTrip(r: int, w: IndexWrite)
    requires r >= 2 && IsWrite(r, w)
    ensures 0 <= SlotOf(r, w) < NumIndices(r)
    ensures WriteAt(r, SlotOf(r, w)) == w
  {
    var k := SlotOf(r, w);
    SlotRegion(r, w);
    assert 0 <= k < FanStart(r) + 6 * r;
    FanEnd(r);
    match w
    case Grid(_, _, _) =>
      GridRoundTrip(r, w, k);
      assert WriteAt(r, k) == GridWriteAt(r, k);
    case SouthFan(_, _) =>
      FanRoundTrip(r, w, k);
      assert WriteAt(r, k) == FanWriteAt(r, k);
    case NorthFan(_, _) =>
      FanRoundTrip(r, w, k);
      assert WriteAt(r, k) == FanWriteAt(r, k);
  }

  lemma GridRoundTrip(r: int, w: IndexWrite, k: int)
    requires r >= 2 && IsWrite(r, w) && w.Grid? && k == SlotOf(r, w) && 0 <= k < FanStart(r)
    ensures GridWriteAt(r, k) == w
  {
    GridRow(r, w.i, w.j, w.c, k);
    DivModOf(k % (6 * r), w.j, 6, w.c);
  }

  /** Grid slot `k` of cell (`i`, `j`) lies in row `i` of `6 r` slots. */
  lemma GridRow(r: int, i: int, j: int, c: int, k: int)
    requires r >= 2 && 0 <= j < r && 0 <= c < 6 && k == 3 * 2 * r * i + 3 * 2 * j + c
    ensures k / (6 * r) == i && k % (6 * r) == 6 * j + c
  {
    DivModOf(k, i, 6 * r, 6 * j + c);
  }

  lemma FanRoundTrip(r: int, w: IndexWrite, k: int)
    requires r >= 2 && IsWrite(r, w) && !w.Grid? && k == SlotOf(r, w)
    requires w.SouthFan? ==> FanStart(r) <= k < FanStart(r) + 3 * r
    requires w.NorthFan? ==> FanStart(r) + 3 * r <= k < FanStart(r) + 6 * r
    ensures FanWriteAt(r, k) == w
  {
    if w.SouthFan? {
      DivModOf(k - FanStart(r), w.i, 3, w.c);
    } else {
      DivModOf(k - FanStart(r) - 3 * r, w.i, 3, w.c);
    }
  }

  /** Two different stores write different slots. */
  lemma WritesDisjoint(r: int, w1: IndexWrite, w2: IndexWrite)
    requires r >= 2 && IsWrite(r, w1) && IsWrite(r, w2)
    ensures SlotOf(r, w1) == SlotOf(r, w2) <==> w1 == w2
  {
    WriteSlotRoundTrip(r, w1);
    WriteSlotRoundTrip(r, w2);
  }

  /** Each store writes the slot of the vertex it is meant to name, and that
      vertex exists: so every index is below the vertex count. */
  lemma ValueNamesTarget(r: int, w: IndexWrite)
    requires r >= 2 && IsWrite(r, w)
    ensures IsVertexRef(r, TargetOf(r, w))
    ensures ValueOf(r, w) == SlotOfRef(r, TargetOf(r, w))
    ensures 0 <= ValueOf(r, w) < NumVertices(r)
    ensures RefAt(r, ValueOf(r, w)) == TargetOf(r, w)
  {
    ValueIsTargetSlot(r, w);
    RefSlotRoundTrip(r, TargetOf(r, w));
  }

  lemma ValueIsTargetSlot(r: int, w: IndexWrite)
    requires IsWrite(r, w)
    ensures ValueOf(r, w) == SlotOfRef(r, TargetOf(r, w))
  {
    match w
    case Grid(i, j, c) =>
    case SouthFan(i, c) =>
    case NorthFan(i, c) =>
      assert (r + 1) * (r - 2) == (r - 2) * (r + 1);
  }

  /** The finished buffer: slot `k` holds what the store writing it wrote. */
  function IndexAt(r: int, k: int): (v: int)
    requires r >= 2 && 0 <= k < NumIndices(r)
    ensures 0 <= v < NumVertices(r)
  {
    ValueNamesTarget(r, WriteAt(r, k));
    ValueOf(r, WriteAt(r, k))
  }

  /** The south fan joins ring 0 to the south pole and the north fan the last
      ring to the north pole. */
  lemma FanRings(r: int, k: int)
    requires r >= 2 && FanStart(r) <= k < NumIndices(r)
    ensures var x := RefAt(r, IndexAt(r, k));
            if k < FanStart(r) + 3 * r then x == South || (x.Ring? && x.ring == 0)
            else x == North || (x.Ring? && x.ring == r - 2)
  {
    FanWrite(r, k);
    IndexNamesTarget(r, k);
    FanTarget(r, k, WriteAt(r, k), RefAt(r, IndexAt(r, k)));
  }

  /** A south-fan store names ring 0 or the south pole, a north-fan store the
      last ring or the north pole. */
  lemma FanTarget(r: int, k: int, w: IndexWrite, x: VertexRef)
    requires !w.Grid? && (w.SouthFan? <==> k < FanStart(r) + 3 * r) && x == TargetOf(r, w)
    ensures if k < FanStart(r) + 3 * r then x == South || (x.Ring? && x.ring == 0)
            else x == North || (x.Ring? && x.ring == r - 2)
  {
  }

  /** Slots from `FanStart` on are written by the fans, the south fan first. */
  lemma FanWrite(r: int, k: int)
    requires r >= 2 && FanStart(r) <= k < NumIndices(r)
    ensures !WriteAt(r, k).Grid?
    ensures WriteAt(r, k).SouthFan? <==> k < FanStart(r) + 3 * r
    ensures 0 <= k
  {
    FanEnd(r);
  }

  /** Slot `k` names the vertex its store is meant to name. */
  lemma IndexNamesTarget(r: int, k: int)
    requires r >= 2 && 0 <= k < NumIndices(r)
    ensures RefAt(r, IndexAt(r, k)) == TargetOf(r, WriteAt(r, k))
  {
    ValueNamesTarget(r, WriteAt(r, k));
  }

  /** Slots `lo` .. `hi` hold their final index and were written exactly once. */
  predicate Filled(r: int, indices: seq<int>, writes: seq<int>, lo: int, hi: int) {
    && r >= 2 && |indices| == |writes| == NumIndices(r) && 0 <= lo <= hi <= NumIndices(r)
    && forall k :: lo <= k < hi ==> writes[k] == 1 && indices[k] == IndexAt(r, k)
  }

  /** Slots `lo` .. `hi` have not been written yet. */
  predicate Untouched(writes: seq<int>, lo: int, hi: int) {
    && 0 <= lo <= hi <= |writes|
    && forall k :: lo <= k < hi ==> writes[k] == 0
  }

  /** One store of the generator, counted: `writes[k]` is how often slot `k`
      has been written. */
  method Store(r: int, indices: seq<int>, writes: seq<int>, w: IndexWrite)
    returns (indices': seq<int>, writes': seq<int>)
    requires r >= 2 && IsWrite(r, w) && |indices| == |writes| == NumIndices(r)
    ensures 0 <= SlotOf(r, w) < NumIndices(r)
    ensures indices' == indices[SlotOf(r, w) := IndexAt(r, SlotOf(r, w))]
    ensures writes' == writes[SlotOf(r, w) := writes[SlotOf(r, w)] + 1]
  {
    WriteSlotRoundTrip(r, w);
    var k := SlotOf(r, w);
    indices' := indices[k := ValueOf(r, w)];
    writes' := writes[k := writes[k] + 1];
  }

  /** The six stores of grid cell (`i`, `j`): two triangles over the quad
      between rings `i`, `i + 1` and columns `j`, `j + 1`. */
  method StoreCell(r: int, indices: seq<int>, writes: seq<int>, i: int, j: int)
    returns (indices': seq<int>, writes': seq<int>)
    requires 0 <= i < r - 2 && 0 <= j < r
    requires Filled(r, indices, writes, 0, 3 * 2 * r * i + 3 * 2 * j)
    requires Untouched(writes, 3 * 2 * r * i + 3 * 2 * j, NumIndices(r))
    ensures Filled(r, indices', writes', 0, 3 * 2 * r * i + 3 * 2 * j + 6)
    ensures Untouched(writes', 3 * 2 * r * i + 3 * 2 * j + 6, NumIndices(r))
  {
    SlotRegion(r, Grid(i, j, 5));
    indices', writes' := indices, writes;
    for c := 0 to 6
      invariant Filled(r, indices', writes', 0, 3 * 2 * r * i + 3 * 2 * j + c)
      invariant Untouched(writes', 3 * 2 * r * i + 3 * 2 * j + c, NumIndices(r))
    {
      indices', writes' := Store(r, indices', writes', Grid(i, j, c));
    }
  }

  /** Triangle `i` of the south fan: two neighbouring columns of ring 0 and
      the south pole. */
  method StoreSouth(r: int, indices: seq<int>, writes: seq<int>, i: int)
    returns (indices': seq<int>, writes': seq<int>)
    requires 0 <= i < r
    requires Filled(r, indices, writes, 0, FanStart(r) + 3 * i)
    requires Untouched(writes, FanStart(r) + 3 * i, FanStart(r) + 3 * r)
    ensures Filled(r, indices', writes', 0, FanStart(r) + 3 * i + 3)
    ensures Untouched(writes', FanStart(r) + 3 * i + 3, FanStart(r) + 3 * r)
    ensures forall k :: FanStart(r) + 3 * r <= k < NumIndices(r) ==> indices'[k] == indices[k] && writes'[k] == writes[k]
  {
    FanEnd(r);
    indices', writes' := indices, writes;
    for c := 0 to 3
      invariant Filled(r, indices', writes', 0, FanStart(r) + 3 * i + c)
      invariant Untouched(writes', FanStart(r) + 3 * i + c, FanStart(r) + 3 * r)
      invariant forall k :: FanStart(r) + 3 * r <= k < NumIndices(r) ==> indices'[k] == indices[k] && writes'[k] == writes[k]
    {
      SlotRegion(r, SouthFan(i, c));
      indices', writes' := Store(r, indices', writes', SouthFan(i, c));
    }
  }

  /** Triangle `i` of the north fan: two neighbouring columns of the last ring
      and the north pole. */
  method StoreNorth(r: int, indices: seq<int>, writes: seq<int>, i: int)
    returns (indices': seq<int>, writes': seq<int>)
    requires 0 <= i < r
    requires Filled(r, indices, writes, FanStart(r) + 3 * r, FanStart(r) + 3 * r + 3 * i)
    requires Untouched(writes, FanStart(r) + 3 * r + 3 * i, NumIndices(r))
    ensures Filled(r, indices', writes', FanStart(r) + 3 * r, FanStart(r) + 3 * r + 3 * i + 3)
    ensures Untouched(writes', FanStart(r) + 3 * r + 3 * i + 3, NumIndices(r))
    ensures forall k :: 0 <= k < FanStart(r) + 3 * r ==> indices'[k] == indices[k] && writes'[k] == writes[k]
  {
    FanEnd(r);
    indices', writes' := indices, writes;
    for c := 0 to 3
      invariant Filled(r, indices', writes', FanStart(r) + 3 * r, FanStart(r) + 3 * r + 3 * i + c)
      invariant Untouched(writes', FanStart(r) + 3 * r + 3 * i + c, NumIndices(r))
      invariant forall k :: 0 <= k < FanStart(r) + 3 * r ==> indices'[k] == indices[k] && writes'[k] == writes[k]
    {
      SlotRegion(r, NorthFan(i, c));
      indices', writes' := Store(r, indices', writes', NorthFan(i, c));
    }
  }

  /** The grid loop: rows `0 .. r - 2`, cells `0 .. r` in each. */
  method FillGrid(r: int, indices: seq<int>, writes: seq<int>) returns (indices': seq<int>, writes': seq<int>)
    requires r >= 2 && |indices| == |writes| == NumIndices(r)
    requires Untouched(writes, 0, NumIndices(r))
    ensures Filled(r, indices', writes', 0, FanStart(r))
    ensures Untouched(writes', FanStart(r), NumIndices(r))
  {
    FanEnd(r);
    indices', writes' := indices, writes;
    for i := 0 to r - 2
      invariant Filled(r, indices', writes', 0, 3 * 2 * r * i)
      invariant Untouched(writes', 3 * 2 * r * i, NumIndices(r))
    {
      for j := 0 to r
        invariant Filled(r, indices', writes', 0, 3 * 2 * r * i + 3 * 2 * j)
        invariant Untouched(writes', 3 * 2 * r * i + 3 * 2 * j, NumIndices(r))
      {
        indices', writes' := StoreCell(r, indices', writes', i, j);
      }
      assert 3 * 2 * r * i + 3 * 2 * r == 3 * 2 * r * (i + 1);
    }
  }

  /** The fan loop: triangle `i` of the south fan, then triangle `i` of the
      north fan. */
  method FillFans(r: int, indices: seq<int>, writes: seq<int>) returns (indices': seq<int>, writes': seq<int>)
    requires Filled(r, indices, writes, 0, FanStart(r))
    requires Untouched(writes, FanStart(r), NumIndices(r))
    ensures Filled(r, indices', writes', 0, NumIndices(r))
  {
    FanEnd(r);
    indices', writes' := indices, writes;
    for i := 0 to r
      invariant Filled(r, indices', writes', 0, FanStart(r) + 3 * i)
      invariant Untouched(writes', FanStart(r) + 3 * i, FanStart(r) + 3 * r)
      invariant Filled(r, indices', writes', FanStart(r) + 3 * r, FanStart(r) + 3 * r + 3 * i)
      invariant Untouched(writes', FanStart(r) + 3 * r + 3 * i, NumIndices(r))
    {
      indices', writes' := StoreSouth(r, indices', writes', i);
      indices', writes' := StoreNorth(r, indices', writes', i);
    }
  }

  /** The index half of the sphere generator: the grid loop, then the fan
      loop. Every slot ends up written exactly once, with the index the
      decoding of its slot names. */
  method CreateSphereIndices(r: int) returns (indices: seq<int>, writes: seq<int>)
    requires r >= 2
    ensures |indices| == |writes| == NumIndices(r)
    ensures forall k :: 0 <= k < NumIndices(r) ==> writes[k] == 1 && indices[k] == IndexAt(r, k)
  {
    indices := seq(NumIndices(r), _ => 0);
    writes := seq(NumIndices(r), _ => 0);
    indices, writes := FillGrid(r, indices, writes);
    indices, writes := FillFans(r, indices, writes);
  }
}
