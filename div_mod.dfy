/** Facts about Euclidean division by a positive divisor, used to read a
    flat row-major index back as a (row, column) pair. */
module DivMod {

  /** One more multiple of a positive `d` is at least `d` more. */
  lemma MulStep(a: int, b: int, d: int)
    requires a < b && d > 0
    ensures a * d + d <= b * d
  {
    var k := b - a;
    assert b * d == a * d + k * d;
    assert (k - 1) * d >= 0;
    assert k * d == (k - 1) * d + d;
  }

  /** A number is its quotient times the divisor plus its remainder. */
  lemma Decompose(t: int, d: int)
    requires d > 0
    ensures t == (t / d) * d + t % d && 0 <= t % d < d
  {
  }

  /** Division by a positive `d` recovers the quotient and remainder. */
  lemma DivModUnique(q: int, c: int, d: int)
    requires d > 0 && 0 <= c < d
    ensures (q * d + c) / d == q
    ensures (q * d + c) % d == c
  {
    var t := q * d + c;
    var q', c' := t / d, t % d;
    assert q' * d + c' == t;
    if q' < q {
      MulStep(q', q, d);
    } else if q' > q {
      MulStep(q, q', d);
    }
  }

  /** `t / cs < rs` whenever `t < rs * cs`. */
  lemma QuotientBound(t: int, rs: nat, cs: nat)
    requires 0 <= t < rs * cs
    ensures cs > 0 && 0 <= t / cs < rs
  {
    var q := t / cs;
    assert q * cs + t % cs == t;
    if q > rs {
      MulStep(rs, q, cs);
    }
  }

  /** Stepping a flat index by one moves one column right, or to the start
      of the next row after the last column. */
  lemma NextIndex(t: int, d: int)
    requires d > 0 && t >= 0
    ensures t % d + 1 < d ==> (t + 1) / d == t / d && (t + 1) % d == t % d + 1
    ensures t % d + 1 == d ==> (t + 1) / d == t / d + 1 && (t + 1) % d == 0
  {
    var q, c := t / d, t % d;
    assert t == q * d + c;
    if c + 1 < d {
      DivModUnique(q, c + 1, d);
    } else {
      assert t + 1 == (q + 1) * d;
      DivModUnique(q + 1, 0, d);
    }
  }
}
