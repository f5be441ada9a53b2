/** The table of six view matrices the renderer uses to draw the scene into
    the six faces of a cube map, one per axis direction.

    Matrices follow the layout of the GL maths library the renderer uses:
    `m[col][row]`, column-major. Each matrix starts as the identity and has
    a few entries of its upper 3x3 block overwritten. Every value stored is
    -1, 0 or 1, so the matrices are exact integer matrices here.

    A view matrix maps world space to camera space, and the camera looks
    down its own -z axis. For a rotation `R` the world direction it looks
    along is therefore `R^T (0, 0, -1)`, the negated third row of `R`.
 */
module ViewTable {

  /** One column of a matrix. */
  datatype Vec4 = Vec4(x: int, y: int, z: int, w: int)

  /** Four columns, as the library stores a 4x4 matrix. */
  datatype Mat4 = Mat4(c0: Vec4, c1: Vec4, c2: Vec4, c3: Vec4)

  function Component(v: Vec4, row: int): int
    requires 0 <= row < 4
  {
    if row == 0 then v.x else if row == 1 then v.y else if row == 2 then v.z else v.w
  }

  function SetComponent(v: Vec4, row: int, value: int): Vec4
    requires 0 <= row < 4
  {
    if row == 0 then v.(x := value) else if row == 1 then v.(y := value)
    else if row == 2 then v.(z := value) else v.(w := value)
  }

  function Column(m: Mat4, col: int): Vec4
    requires 0 <= col < 4
  {
    if col == 0 then m.c0 else if col == 1 then m.c1 else if col == 2 then m.c2 else m.c3
  }

  /** The entry in column `col`, row `row`: glm's `m[col][row]`. */
  function Entry(m: Mat4, col: int, row: int): int
    requires 0 <= col < 4 && 0 <= row < 4
  {
    Component(Column(m, col), row)
  }

  function Identity(): (m: Mat4)
    ensures forall col, row :: 0 <= col < 4 && 0 <= row < 4 ==> Entry(m, col, row) == if col == row then 1 else 0
  {
    Mat4(Vec4(1, 0, 0, 0), Vec4(0, 1, 0, 0), Vec4(0, 0, 1, 0), Vec4(0, 0, 0, 1))
  }

  /** `m` with the entry in column `col`, row `row` replaced: glm's
      `m[col][row] = value`. */
  function SetEntry(m: Mat4, col: int, row: int, value: int): (m': Mat4)
    requires 0 <= col < 4 && 0 <= row < 4
    ensures Entry(m', col, row) == value
    ensures forall c, r :: 0 <= c < 4 && 0 <= r < 4 && (c, r) != (col, row) ==> Entry(m', c, r) == Entry(m, c, r)
  {
    var v := SetComponent(Column(m, col), row, value);
    if col == 0 then m.(c0 := v) else if col == 1 then m.(c1 := v)
    else if col == 2 then m.(c2 := v) else m.(c3 := v)
  }

  /** Outside its upper 3x3 block `m` is the identity: the fourth column is
      (0, 0, 0, 1), so there is no translation, and the fourth row is
      (0, 0, 0, 1), so there is no projective part. */
  predicate NoTranslation(m: Mat4) {
    m.c3 == Vec4(0, 0, 0, 1) && m.c0.w == 0 && m.c1.w == 0 && m.c2.w == 0
  }

  /** Every entry of the 3x3 block is -1, 0 or 1, and every row and every
      column of it has exactly one non-zero entry. */
  predicate SignedPermutation(m: Mat4)
  {
    && (forall col, row :: 0 <= col < 3 && 0 <= row < 3 ==> -1 <= Entry(m, col, row) <= 1)
    && (forall row :: 0 <= row < 3 ==>
          NonZero(Entry(m, 0, row)) + NonZero(Entry(m, 1, row)) + NonZero(Entry(m, 2, row)) == 1)
    && (forall col :: 0 <= col < 3 ==>
          NonZero(Entry(m, col, 0)) + NonZero(Entry(m, col, 1)) + NonZero(Entry(m, col, 2)) == 1)
  }

  function NonZero(x: int): int {
    if x == 0 then 0 else 1
  }

  /** The determinant of the 3x3 block, expanded along its first row
      (`m.cK.x` is the entry in column K, row 0). */
  function Det3(m: Mat4): int
  {
    m.c0.x * (m.c1.y * m.c2.z - m.c2.y * m.c1.z)
    - m.c1.x * (m.c0.y * m.c2.z - m.c2.y * m.c0.z)
    + m.c2.x * (m.c0.y * m.c1.z - m.c1.y * m.c0.z)
  }

  /** The dot product of rows `r1` and `r2` of the 3x3 block. */
  function RowDot(m: Mat4, r1: int, r2: int): int
    requires 0 <= r1 < 3 && 0 <= r2 < 3
  {
    Entry(m, 0, r1) * Entry(m, 0, r2) + Entry(m, 1, r1) * Entry(m, 1, r2) + Entry(m, 2, r1) * Entry(m, 2, r2)
  }

  /** An integer direction in world space. */
  datatype Dir = Dir(x: int, y: int, z: int)

  function Abs(x: int): int {
    if x < 0 then -x else x
  }

  /** One of the six directions along a coordinate axis: +X, -X, +Y, -Y, +Z, -Z. */
  predicate IsAxisDirection(d: Dir) {
    Abs(d.x) + Abs(d.y) + Abs(d.z) == 1
  }

  /** The world direction a view matrix looks along: its negated third row. */
  function Look(m: Mat4): Dir
  {
    Dir(-m.c0.z, -m.c1.z, -m.c2.z)
  }

  /** A signed permutation block looks along a coordinate axis, and its rows
      are orthonormal: the block is a rotation when its determinant is one. */
  lemma SignedPermutationFacts(m: Mat4)
    requires SignedPermutation(m)
    ensures IsAxisDirection(Look(m))
    ensures forall r1, r2 :: 0 <= r1 < 3 && 0 <= r2 < 3 ==> RowDot(m, r1, r2) == (if r1 == r2 then 1 else 0)
  {
    forall r1, r2 | 0 <= r1 < 3 && 0 <= r2 < 3
      ensures RowDot(m, r1, r2) == (if r1 == r2 then 1 else 0)
    {
      UnitEntries(m);
      if r1 != r2 {
        assert NonZero(Entry(m, 0, r1)) + NonZero(Entry(m, 0, r2)) <= 1;
        assert NonZero(Entry(m, 1, r1)) + NonZero(Entry(m, 1, r2)) <= 1;
        assert NonZero(Entry(m, 2, r1)) + NonZero(Entry(m, 2, r2)) <= 1;
      }
    }
    UnitEntries(m);
    assert Look(m) == Dir(-Entry(m, 0, 2), -Entry(m, 1, 2), -Entry(m, 2, 2));
    assert NonZero(Entry(m, 0, 2)) + NonZero(Entry(m, 1, 2)) + NonZero(Entry(m, 2, 2)) == 1;
  }

  /** A non-zero entry of a signed permutation block is -1 or 1, and so
      squares to one. */
  lemma UnitEntries(m: Mat4)
    requires SignedPermutation(m)
    ensures forall col, row :: 0 <= col < 3 && 0 <= row < 3 ==>
      Entry(m, col, row) * Entry(m, col, row) == NonZero(Entry(m, col, row))
    ensures forall col :: 0 <= col < 3 ==> NonZero(Entry(m, col, 0)) + NonZero(Entry(m, col, 1)) + NonZero(Entry(m, col, 2)) == 1
  {
  }

  /** The direction view `i` looks along: -X, +X, +Y, -Y, -Z, +Z. */
  function Facing(i: int): Dir
    requires 0 <= i < 6
  {
    if i == 0 then Dir(-1, 0, 0) else if i == 1 then Dir(1, 0, 0)
    else if i == 2 then Dir(0, 1, 0) else if i == 3 then Dir(0, -1, 0)
    else if i == 4 then Dir(0, 0, -1) else Dir(0, 0, 1)
  }

  /** The six facings are pairwise distinct and are exactly the six axis
      directions. */
  lemma FacingsCoverAxes()
    ensures forall i, j :: 0 <= i < j < 6 ==> Facing(i) != Facing(j)
    ensures forall d :: IsAxisDirection(d) <==> exists i :: 0 <= i < 6 && Facing(i) == d
  {
    forall d | IsAxisDirection(d)
      ensures exists i :: 0 <= i < 6 && Facing(i) == d
    {
      var i := if d.x == -1 then 0 else if d.x == 1 then 1 else if d.y == 1 then 2
               else if d.y == -1 then 3 else if d.z == -1 then 4 else 5;
      assert Facing(i) == d;
    }
  }

  /** View `i` as a whole matrix, column by column. */
  function ViewMatrix(i: int): Mat4
    requires 0 <= i < 6
  {
    if i == 0 then Mat4(Vec4(0, 0, 1, 0), Vec4(0, 1, 0, 0), Vec4(-1, 0, 0, 0), Vec4(0, 0, 0, 1))
    else if i == 1 then Mat4(Vec4(0, 0, -1, 0), Vec4(0, 1, 0, 0), Vec4(1, 0, 0, 0), Vec4(0, 0, 0, 1))
    else if i == 2 then Mat4(Vec4(1, 0, 0, 0), Vec4(0, 0, -1, 0), Vec4(0, 1, 0, 0), Vec4(0, 0, 0, 1))
    else if i == 3 then Mat4(Vec4(1, 0, 0, 0), Vec4(0, 0, 1, 0), Vec4(0, -1, 0, 0), Vec4(0, 0, 0, 1))
    else if i == 4 then Mat4(Vec4(1, 0, 0, 0), Vec4(0, 1, 0, 0), Vec4(0, 0, 1, 0), Vec4(0, 0, 0, 1))
    else Mat4(Vec4(-1, 0, 0, 0), Vec4(0, 1, 0, 0), Vec4(0, 0, -1, 0), Vec4(0, 0, 0, 1))
  }

  /** Each view is a rotation: a signed permutation with determinant one. */
  lemma ViewIsRotation(i: int)
    requires 0 <= i < 6
    ensures SignedPermutation(ViewMatrix(i)) && Det3(ViewMatrix(i)) == 1
  {
    // Splitting the six views into two halves lets the solver unfold each
    // `ViewMatrix(i)` case by case.
    if i < 3 {
    } else {
    }
  }

  /** Each view has no translation and looks along its facing. */
  lemma ViewLooksAlong(i: int)
    requires 0 <= i < 6
    ensures NoTranslation(ViewMatrix(i)) && Look(ViewMatrix(i)) == Facing(i)
  {
    // As in ViewIsRotation: the split is a case hint for the solver.
    if i < 3 {
    } else {
    }
  }

  /** The entry stores of view `i`, applied to the identity it starts as. The
      result is a rotation with no translation that looks along `Facing(i)`. */
  method WriteView(m: Mat4, i: int) returns (m': Mat4)
    requires m == Identity() && 0 <= i < 6
    ensures m' == ViewMatrix(i)
    ensures NoTranslation(m') && SignedPermutation(m') && Det3(m') == 1
    ensures Look(m') == Facing(i)
  {
    m' := m;
    if i == 0 {
      m' := SetEntry(m', 2, 0, -1); m' := SetEntry(m', 0, 0, 0);
      m' := SetEntry(m', 0, 2, 1); m' := SetEntry(m', 2, 2, 0);
    } else if i == 1 {
      m' := SetEntry(m', 2, 0, 1); m' := SetEntry(m', 0, 0, 0);
      m' := SetEntry(m', 0, 2, -1); m' := SetEntry(m', 2, 2, 0);
    } else if i == 2 {
      m' := SetEntry(m', 2, 1, 1); m' := SetEntry(m', 1, 1, 0);
      m' := SetEntry(m', 1, 2, -1); m' := SetEntry(m', 2, 2, 0);
    } else if i == 3 {
      m' := SetEntry(m', 2, 1, -1); m' := SetEntry(m', 1, 1, 0);
      m' := SetEntry(m', 1, 2, 1); m' := SetEntry(m', 2, 2, 0);
    } else if i == 4 {
      m' := SetEntry(m', 2, 2, 1);
      m' := SetEntry(m', 0, 0, 1);
    } else {
      m' := SetEntry(m', 2, 2, -1);
      m' := SetEntry(m', 0, 0, -1);
    }
    assert m'.c0 == ViewMatrix(i).c0 && m'.c1 == ViewMatrix(i).c1;
    assert m'.c2 == ViewMatrix(i).c2 && m'.c3 == ViewMatrix(i).c3;
    ViewIsRotation(i);
    ViewLooksAlong(i);
  }

  /** The six views of the renderer, built as it builds them: six identities,
      then a few entries of each overwritten. Each is a rotation with no
      translation, and between them they look along all six axis directions. */
  method CreateViewTable() returns (views: seq<Mat4>)
    ensures |views| == 6
    ensures forall i :: 0 <= i < 6 ==> views[i] == ViewMatrix(i) && Look(views[i]) == Facing(i)
    ensures forall i :: 0 <= i < 6 ==>
      && NoTranslation(views[i])
      && SignedPermutation(views[i])
      && Det3(views[i]) == 1
    ensures forall i, j :: 0 <= i < j < 6 ==> Look(views[i]) != Look(views[j])
    ensures forall d :: IsAxisDirection(d) <==> exists i :: 0 <= i < 6 && Look(views[i]) == d
  {
    // Six identity matrices, as the initialisation loop leaves them.
    views := seq(6, _ => Identity());
    for i := 0 to 6
      invariant |views| == 6
      invariant forall k :: 0 <= k < i ==>
        views[k] == ViewMatrix(k)
        && NoTranslation(views[k]) && SignedPermutation(views[k]) && Det3(views[k]) == 1
        && Look(views[k]) == Facing(k)
      invariant forall k :: i <= k < 6 ==> views[k] == Identity()
    {
      var m := WriteView(views[i], i);
      views := views[i := m];
    }
    FacingsCoverAxes();
  }
}
