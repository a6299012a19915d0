/** Block-index arithmetic used by the banded block products: a block index
    that falls outside the matrix is moved back inside along its own block
    diagonal, which is how an open-ended (semi-infinite) matrix repeats its
    boundary blocks. */
module BlockIndex {

  /** `min(max(x, lo), hi)`, in the order the routine applies them. */
  function Clamp(x: int, lo: int, hi: int): (r: int)
    ensures lo <= hi ==> lo <= r <= hi
    ensures lo <= x <= hi ==> r == x
  {
    var m := if x > lo then x else lo;
    if m < hi then m else hi
  }

  /** `correct_out_range_index(i, k, num_blocks)`: first clamp the column,
      move the row so that the diagonal `k - i` is kept, then clamp the row
      and move the column back onto the same diagonal. */
  function CorrectOutRangeIndex(i: int, k: int, numBlocks: int): (r: (int, int))
    // the block diagonal is never changed
    ensures r.1 - r.0 == k - i
    // the row always lands inside the matrix
    ensures numBlocks >= 1 ==> 0 <= r.0 < numBlocks
    // and so does the column, whenever the diagonal exists in the matrix
    ensures -numBlocks < k - i < numBlocks ==> 0 <= r.1 < numBlocks
    // an index already inside the matrix is returned unchanged
    ensures 0 <= i < numBlocks && 0 <= k < numBlocks ==> r == (i, k)
  {
    var diag := k - i;
    var k1 := Clamp(k, 0, numBlocks - 1);
    var i1 := k1 - diag;
    var i2 := Clamp(i1, 0, numBlocks - 1);
    var k2 := i2 + diag;
    (i2, k2)
  }

  /** Correcting an index twice is the same as correcting it once. */
  lemma CorrectOutRangeIndexIdempotent(i: int, k: int, numBlocks: int)
    requires -numBlocks < k - i < numBlocks
    ensures var (i1, k1) := CorrectOutRangeIndex(i, k, numBlocks);
            CorrectOutRangeIndex(i1, k1, numBlocks) == (i1, k1)
  {
    var (i1, k1) := CorrectOutRangeIndex(i, k, numBlocks);
    assert 0 <= i1 < numBlocks && 0 <= k1 < numBlocks;
  }

  /** The four out-of-range neighbours of the corner blocks used by the
      spillover corrections of the block-tridiagonal routines. */
  lemma CornerNeighbours(n: int)
    requires n >= 2
    ensures CorrectOutRangeIndex(0, -1, n) == (1, 0)
    ensures CorrectOutRangeIndex(-1, 0, n) == (0, 1)
    ensures CorrectOutRangeIndex(-1, -1, n) == (0, 0)
    ensures CorrectOutRangeIndex(n - 1, n, n) == (n - 2, n - 1)
    ensures CorrectOutRangeIndex(n, n - 1, n) == (n - 1, n - 2)
    ensures CorrectOutRangeIndex(n, n, n) == (n - 1, n - 1)
  {
  }
}
