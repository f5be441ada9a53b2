/** Integer division facts used to decode buffer offsets back into loop counters. */
module Arith {

  lemma MulLessEq(a: int, b: int, d: int)
    requires d > 0
    requires a <= b
    ensures a * d <= b * d
  {
    assert b * d - a * d == (b - a) * d;
  }

  /** Dividing `q * d + m` by `d` gives back `q` and `m` when `0 <= m < d`. */
  lemma DivModUnique(q: int, d: int, m: int)
    requires d > 0
    requires 0 <= m < d
    ensures (q * d + m) / d == q
    ensures (q * d + m) % d == m
  {
    var k := q * d + m;
    var q', m' := k / d, k % d;
    assert k == q' * d + m';
    if q' < q {
      MulLessEq(q' + 1, q, d);
      assert false;
    } else if q < q' {
      MulLessEq(q + 1, q', d);
      assert false;
    }
  }

  /** A value below `d * n` has quotient below `n`. */
  lemma DivBelow(k: int, d: int, n: int)
    requires d > 0
    requires 0 <= k < d * n
    ensures 0 <= k / d < n
  {
    var q := k / d;
    assert k == q * d + k % d;
    if n <= q {
      MulLessEq(n, q, d);
      assert false;
    }
  }
}
