/** Finite sums over an integer range, the accumulation pattern of the block
    products: `acc += f(k)` for `k` in `range(lo, hi)`. */
module BlockSums {

  /** `f(lo) + ... + f(hi - 1)`; empty when `hi <= lo`. The last term is
      added last, as a loop accumulating in increasing `k` does. */
  function Sum(lo: int, hi: int, f: int -> int): int
    decreases hi - lo
  {
    if hi <= lo then 0 else Sum(lo, hi - 1, f) + f(hi - 1)
  }

  /** A sum over `[lo, hi)` splits at any point in between. */
  lemma {:induction false} SumSplit(lo: int, mid: int, hi: int, f: int -> int)
    requires lo <= mid <= hi
    ensures Sum(lo, hi, f) == Sum(lo, mid, f) + Sum(mid, hi, f)
    decreases hi - mid
  {
    if hi > mid {
      SumSplit(lo, mid, hi - 1, f);
    }
  }

  /** The first term can be taken off the front. */
  lemma SumFront(lo: int, hi: int, f: int -> int)
    requires lo < hi
    ensures Sum(lo, hi, f) == f(lo) + Sum(lo + 1, hi, f)
  {
    SumSplit(lo, lo + 1, hi, f);
  }

  /** A sum of terms that are all zero is zero. */
  lemma {:induction false} SumOfZeros(lo: int, hi: int, f: int -> int)
    requires forall k :: lo <= k < hi ==> f(k) == 0
    ensures Sum(lo, hi, f) == 0
    decreases hi - lo
  {
    if hi > lo {
      SumOfZeros(lo, hi - 1, f);
    }
  }

  /** Two sums agree when their terms agree on the range. */
  lemma {:induction false} SumCongruent(lo: int, hi: int, f: int -> int, g: int -> int)
    requires forall k :: lo <= k < hi ==> f(k) == g(k)
    ensures Sum(lo, hi, f) == Sum(lo, hi, g)
    decreases hi - lo
  {
    if hi > lo {
      SumCongruent(lo, hi - 1, f, g);
    }
  }

  /** Widening the range by terms that are zero does not change the sum. */
  lemma {:induction false} SumRestrict(lo: int, lo': int, hi': int, hi: int, f: int -> int)
    requires lo <= lo' <= hi' <= hi
    requires forall k :: lo <= k < lo' ==> f(k) == 0
    requires forall k :: hi' <= k < hi ==> f(k) == 0
    ensures Sum(lo, hi, f) == Sum(lo', hi', f)
  {
    SumSplit(lo, lo', hi, f);
    SumSplit(lo', hi', hi, f);
    SumOfZeros(lo, lo', f);
    SumOfZeros(hi', hi, f);
  }

  /** A sum with a single non-zero term is that term. */
  lemma {:induction false} SumSingle(lo: int, hi: int, f: int -> int, k0: int)
    requires lo <= k0 < hi
    requires forall k :: lo <= k < hi && k != k0 ==> f(k) == 0
    ensures Sum(lo, hi, f) == f(k0)
  {
    SumRestrict(lo, k0, k0 + 1, hi, f);
    assert Sum(k0, k0 + 1, f) == Sum(k0, k0, f) + f(k0);
  }

  /** A sum of termwise sums is the sum of the separate sums. */
  lemma {:induction false} SumOfSums(lo: int, hi: int, f: int -> int, g: int -> int, h: int -> int, e: int -> int)
    requires forall k :: lo <= k < hi ==> f(k) == g(k) + h(k) + e(k)
    ensures Sum(lo, hi, f) == Sum(lo, hi, g) + Sum(lo, hi, h) + Sum(lo, hi, e)
    decreases hi - lo
  {
    if hi > lo {
      SumOfSums(lo, hi - 1, f, g, h, e);
    }
  }
}
