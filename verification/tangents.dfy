/** The tangent-space pass run on every generated mesh.

    For each triangle the renderer derives a tangent and a bitangent from its
    positions and texture coordinates and normalizes them. It adds both to
    accumulators of the triangle's three corner vertices. At the end it scales
    every accumulator to unit length. An accumulator whose squared length is
    below a small threshold is scaled by one, i.e. left as it is.

    The per-triangle frame (a float formula with an unguarded division) is
    not modelled: each triangle's already normalized contribution is an input
    here. So is the inverse square root, an `invSqrt` function defined on
    the positive reals only, about which the lemmas assume only what they
    need: `1/sqrt(0)` is not a number the renderer can use, and the floor is
    what keeps the argument positive. The tangent and bitangent arrays
    go through the same scatter and the same scaling, so one definition
    serves both.
 */
module Tangents {
  import opened Geometry

  /** Below this squared length an accumulator is scaled by one. */
  const Floor: real := 0.00001

  /** The vertex named by corner `c` (0..2) of triangle `t`. */
  function CornerVertex(indices: seq<int>, t: int, c: int): int
    requires 0 <= t && 3 * t + 3 <= |indices| && 0 <= c < 3
  {
    indices[3 * t + c]
  }

  /** How many of the first `k` corners of triangle `t` name vertex `v`. A
      degenerate triangle may name a vertex more than once, and then its
      contribution is added that many times. */
  function Hits(indices: seq<int>, t: int, v: int, k: int): (h: nat)
    requires 0 <= t && 3 * t + 3 <= |indices| && 0 <= k <= 3
    ensures h <= k
    ensures h == 0 <==> forall c :: 0 <= c < k ==> CornerVertex(indices, t, c) != v
    decreases k
  {
    if k == 0 then 0 else Hits(indices, t, v, k - 1) + (if CornerVertex(indices, t, k - 1) == v then 1 else 0)
  }

  /** The accumulator of vertex `v` after the first `T` triangles: every
      triangle's contribution once per corner that names `v`. */
  function Accumulated(indices: seq<int>, contrib: seq<Vec3>, v: int, T: int): Vec3
    requires 0 <= T <= |contrib| && 3 * |contrib| <= |indices|
    decreases T
  {
    if T == 0 then Zero3
    else Add(Accumulated(indices, contrib, v, T - 1), Scale(contrib[T - 1], Hits(indices, T - 1, v, 3) as real))
  }

  /** The accumulator of vertex `v` after the first `k` corners of triangle `t`. */
  function Partial(indices: seq<int>, contrib: seq<Vec3>, v: int, t: int, k: int): Vec3
    requires 0 <= t < |contrib| && 3 * |contrib| <= |indices| && 0 <= k <= 3
  {
    Add(Accumulated(indices, contrib, v, t), Scale(contrib[t], Hits(indices, t, v, k) as real))
  }

  /** Corner `k` of triangle `t` adds the triangle's contribution to the vertex
      it names and to no other. */
  lemma CornerStep(indices: seq<int>, contrib: seq<Vec3>, t: int, k: int, v: int)
    requires 0 <= t < |contrib| && 3 * |contrib| <= |indices| && 0 <= k < 3
    ensures Partial(indices, contrib, v, t, k + 1) ==
      if CornerVertex(indices, t, k) == v then Add(Partial(indices, contrib, v, t, k), contrib[t])
      else Partial(indices, contrib, v, t, k)
  {
    AddOnceMore(Accumulated(indices, contrib, v, t), contrib[t], Hits(indices, t, v, k) as real);
  }

  /** Before its first corner a triangle has added nothing; after its last
      the accumulator is that of the next triangle count. */
  lemma TriangleEnds(indices: seq<int>, contrib: seq<Vec3>, t: int, v: int)
    requires 0 <= t < |contrib| && 3 * |contrib| <= |indices|
    ensures Partial(indices, contrib, v, t, 0) == Accumulated(indices, contrib, v, t)
    ensures Partial(indices, contrib, v, t, 3) == Accumulated(indices, contrib, v, t + 1)
  {
  }

  /** Adding `c` once more to `s + h * c`. */
  lemma AddOnceMore(s: Vec3, c: Vec3, h: real)
    ensures Add(Add(s, Scale(c, h)), c) == Add(s, Scale(c, h + 1.0))
  {
  }

  /** The corner loop of triangle `t`: its contribution is added to each of
      its three listed vertices, and to no other. */
  method AddTriangle(n: int, indices: seq<int>, contrib: seq<Vec3>, acc: seq<Vec3>, t: int)
    returns (acc': seq<Vec3>)
    requires 0 <= t < |contrib| && |contrib| == |indices| / 3
    requires forall k :: 0 <= k < |indices| ==> 0 <= indices[k] < n
    requires |acc| == n
    requires forall v :: 0 <= v < n ==> acc[v] == Accumulated(indices, contrib, v, t)
    ensures |acc'| == n
    ensures forall v :: 0 <= v < n ==> acc'[v] == Accumulated(indices, contrib, v, t + 1)
  {
    acc' := acc;
    forall v | 0 <= v < n
      ensures acc'[v] == Partial(indices, contrib, v, t, 0)
    {
      TriangleEnds(indices, contrib, t, v);
    }
    for k := 0 to 3
      invariant |acc'| == n
      invariant forall v :: 0 <= v < n ==> acc'[v] == Partial(indices, contrib, v, t, k)
    {
      var vert := indices[3 * t + k];
      acc' := acc'[vert := Add(acc'[vert], contrib[t])];
      forall v | 0 <= v < n
        ensures acc'[v] == Partial(indices, contrib, v, t, k + 1)
      {
        CornerStep(indices, contrib, t, k, v);
      }
    }
    forall v | 0 <= v < n
      ensures acc'[v] == Accumulated(indices, contrib, v, t + 1)
    {
      TriangleEnds(indices, contrib, t, v);
    }
  }

  /** The triangle loop: starting from zeroed accumulators, every triangle
      scatters its contribution into its corners. */
  method Scatter(n: int, indices: seq<int>, contrib: seq<Vec3>) returns (acc: seq<Vec3>)
    requires n >= 0 && |contrib| == |indices| / 3
    requires forall k :: 0 <= k < |indices| ==> 0 <= indices[k] < n
    ensures |acc| == n
    ensures forall v :: 0 <= v < n ==> acc[v] == Accumulated(indices, contrib, v, |contrib|)
  {
    acc := seq(n, _ => Zero3);
    for t := 0 to |contrib|
      invariant |acc| == n
      invariant forall v :: 0 <= v < n ==> acc[v] == Accumulated(indices, contrib, v, t)
    {
      acc := AddTriangle(n, indices, contrib, acc, t);
    }
  }

  /** The squared length the scaling loop sums up, coordinate by coordinate. */
  method SquaredSum(a: Vec3) returns (sq: real)
    ensures sq == SqLen(a)
    ensures sq >= 0.0
  {
    sq := 0.0;
    for j := 0 to 3
      invariant sq == PartialSqLen(a, j)
    {
      sq := sq + Coord(a, j) * Coord(a, j);
    }
    assert PartialSqLen(a, 1) == a.x * a.x;
    assert PartialSqLen(a, 2) == a.x * a.x + a.y * a.y;
  }

  /** The sum of the squares of the first `j` coordinates of `a`. */
  function PartialSqLen(a: Vec3, j: int): real
    requires 0 <= j <= 3
  {
    if j == 0 then 0.0 else PartialSqLen(a, j - 1) + Coord(a, j - 1) * Coord(a, j - 1)
  }

  /** `f` can be applied to every positive real (and perhaps nowhere else). */
  ghost predicate DefinedOnPositives(f: real --> real) {
    forall x :: x > 0.0 ==> f.requires(x)
  }

  /** The scale factor applied to an accumulator of squared length `sq`: the
      floor replaces a squared length too small to invert by one. */
  function ScaleFactor(sq: real, invSqrt: real --> real): real
    requires DefinedOnPositives(invSqrt)
  {
    invSqrt(if sq < Floor then 1.0 else sq)
  }

  /** The final scaling of one accumulator. */
  function Normalized(a: Vec3, invSqrt: real --> real): Vec3
    requires DefinedOnPositives(invSqrt)
  {
    Scale(a, ScaleFactor(SqLen(a), invSqrt))
  }

  /** `f` is an inverse square root at `x`: a positive number whose square
      times `x` is one. */
  ghost predicate InverseSqrtAt(f: real --> real, x: real) {
    f.requires(x) && f(x) > 0.0 && f(x) * f(x) * x == 1.0
  }

  /** An accumulator at or above the floor comes out of the scaling with
      unit length, pointing the same way. */
  lemma NormalizedIsUnit(a: Vec3, invSqrt: real --> real)
    requires DefinedOnPositives(invSqrt)
    requires SqLen(a) >= Floor && InverseSqrtAt(invSqrt, SqLen(a))
    ensures SqLen(Normalized(a, invSqrt)) == 1.0
    ensures exists k :: k > 0.0 && Normalized(a, invSqrt) == Scale(a, k)
  {
    var k := invSqrt(SqLen(a));
    var p := Normalized(a, invSqrt);
    assert p == Scale(a, k);
    assert SqLen(p) == k * k * SqLen(a);
  }

  /** An accumulator below the floor is scaled by one, so it comes out
      unchanged, whatever its direction. */
  lemma BelowFloorUnchanged(a: Vec3, invSqrt: real --> real)
    requires DefinedOnPositives(invSqrt)
    requires SqLen(a) < Floor && invSqrt.requires(1.0) && invSqrt(1.0) == 1.0
    ensures Normalized(a, invSqrt) == a
  {
  }

  /** A vertex that no corner of the first `T` triangles names gets no
      contribution. */
  lemma {:induction false} UnreferencedStaysZero(indices: seq<int>, contrib: seq<Vec3>, v: int, T: int)
    requires 0 <= T <= |contrib| && 3 * |contrib| <= |indices|
    requires forall t, c :: 0 <= t < T && 0 <= c < 3 ==> CornerVertex(indices, t, c) != v
    ensures Accumulated(indices, contrib, v, T) == Zero3
  {
    if T > 0 {
      UnreferencedStaysZero(indices, contrib, v, T - 1);
      assert Hits(indices, T - 1, v, 3) == 0;
    }
  }

  /** A vertex that no index names ends with a zero tangent (and bitangent),
      whatever the contributions and the inverse square root. */
  lemma IsolatedVertexZero(indices: seq<int>, contrib: seq<Vec3>, v: int, invSqrt: real --> real)
    requires DefinedOnPositives(invSqrt)
    requires |contrib| == |indices| / 3
    requires forall k :: 0 <= k < |indices| ==> indices[k] != v
    ensures Normalized(Accumulated(indices, contrib, v, |contrib|), invSqrt) == Zero3
  {
    UnreferencedStaysZero(indices, contrib, v, |contrib|);
  }

  /** A vertex named by exactly one corner `c0` of one triangle `t0`, and by no
      other corner, ends with exactly that triangle's contribution. */
  lemma {:induction false} SingleCornerAccumulates(indices: seq<int>, contrib: seq<Vec3>, v: int, T: int,
                                                   t0: int, c0: int)
    requires 0 <= T <= |contrib| && 3 * |contrib| <= |indices|
    requires 0 <= t0 < T && 0 <= c0 < 3 && CornerVertex(indices, t0, c0) == v
    requires forall t, c :: 0 <= t < T && 0 <= c < 3 && (t, c) != (t0, c0) ==> CornerVertex(indices, t, c) != v
    ensures Accumulated(indices, contrib, v, T) == contrib[t0]
  {
    var t := T - 1;
    if t0 < t {
      SingleCornerAccumulates(indices, contrib, v, t, t0, c0);
      assert Hits(indices, t, v, 3) == 0;
    } else {
      UnreferencedStaysZero(indices, contrib, v, t);
      OneHit(indices, t, v, c0);
    }
  }

  /** Exactly one corner `c` of triangle `t` names `v`. */
  lemma OneHit(indices: seq<int>, t: int, v: int, c: int)
    requires 0 <= t && 3 * t + 3 <= |indices| && 0 <= c < 3
    requires CornerVertex(indices, t, c) == v
    requires forall c' :: 0 <= c' < 3 && c' != c ==> CornerVertex(indices, t, c') != v
    ensures Hits(indices, t, v, 3) == 1
  {
    assert Hits(indices, t, v, 1) == (if c == 0 then 1 else 0);
    assert Hits(indices, t, v, 2) == (if c <= 1 then 1 else 0);
  }

  /** The scaling loop over all vertices. */
  method NormalizeAll(acc: seq<Vec3>, invSqrt: real --> real) returns (out: seq<Vec3>)
    requires DefinedOnPositives(invSqrt)
    ensures |out| == |acc|
    ensures forall v :: 0 <= v < |acc| ==> out[v] == Normalized(acc[v], invSqrt)
  {
    out := acc;
    for v := 0 to |acc|
      invariant |out| == |acc|
      invariant forall u :: 0 <= u < v ==> out[u] == Normalized(acc[u], invSqrt)
      invariant forall u :: v <= u < |acc| ==> out[u] == acc[u]
    {
      var sq := SquaredSum(out[v]);
      if sq < Floor {
        sq := 1.0;
      }
      var il := invSqrt(sq);
      out := out[v := Scale(out[v], il)];
    }
  }

  /** The whole pass: scatter, then scale, for tangents and bitangents alike.
      Every vertex ends with the scaled sum of the contributions of the
      triangles that name it. */
  method ComputeTangentFrames(n: int, indices: seq<int>, tangent: seq<Vec3>, bitangent: seq<Vec3>,
                              invSqrt: real --> real)
    returns (tangents: seq<Vec3>, bitangents: seq<Vec3>)
    requires DefinedOnPositives(invSqrt)
    requires n >= 0 && |tangent| == |bitangent| == |indices| / 3
    requires forall k :: 0 <= k < |indices| ==> 0 <= indices[k] < n
    ensures |tangents| == |bitangents| == n
    ensures forall v :: 0 <= v < n ==>
      && tangents[v] == Normalized(Accumulated(indices, tangent, v, |tangent|), invSqrt)
      && bitangents[v] == Normalized(Accumulated(indices, bitangent, v, |bitangent|), invSqrt)
  {
    var t := Scatter(n, indices, tangent);
    var b := Scatter(n, indices, bitangent);
    tangents := NormalizeAll(t, invSqrt);
    bitangents := NormalizeAll(b, invSqrt);
  }
}
