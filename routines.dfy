/** The banded block products of `qttools.datastructures.routines`:
    `btd_matmul`, `bd_matmul` and `btd_sandwich`. A distributed block-sparse
    matrix is seen through its `n x n` grid of blocks; each block is a single
    integer, so a block product `x @ y` is `x * y` (factors kept in the
    source's order). The output matrix is a grid updated in place. */
module Routines {
  import opened BlockIndex
  import opened BlockSums

  /** The two distribution states of a block-sparse matrix; the products
      work only on the "stack" state. */
  datatype DistributionState = Stack | Nnz

  /** An input operand: its distribution state and its grid of blocks. */
  datatype BlockMatrix = BlockMatrix(state: DistributionState, blocks: seq<seq<int>>)

  /** The `ValueError` raised for an operand in the "nnz" state. */
  datatype MatmulError = NnzStateNotSupported

  datatype Outcome = Pass | Fail(error: MatmulError)

  ghost predicate IsGrid(m: seq<seq<int>>, n: int)
  {
    |m| == n && forall r :: 0 <= r < n ==> |m[r]| == n
  }

  /** Every block more than one diagonal away from the main one is zero. */
  ghost predicate IsBlockTridiagonal(m: seq<seq<int>>, n: int)
  {
    IsGrid(m, n) &&
    forall r, c :: 0 <= r < n && 0 <= c < n && (r - c > 1 || c - r > 1) ==> m[r][c] == 0
  }

  function Max(x: int, y: int): int { if x < y then y else x }

  function Min(x: int, y: int): int { if x < y then x else y }

  /** Block `(r, c)` of a grid; zero outside it (only used where the
      routines never read outside). */
  function Block(m: seq<seq<int>>, r: int, c: int): int
  {
    if 0 <= r < |m| && 0 <= c < |m[r]| then m[r][c] else 0
  }

  function BlockAt(m: seq<seq<int>>, rc: (int, int)): int
  {
    Block(m, rc.0, rc.1)
  }

  /** The terms `a[i][k] * b[k][j]` of block `(i, j)` of `a @ b`. */
  function ProductTerms(a: seq<seq<int>>, b: seq<seq<int>>, i: int, j: int): int -> int
  {
    k => Block(a, i, k) * Block(b, k, j)
  }

  /** The terms `a[i][m] * b[m][k] * a[k][j]` of `a @ b @ a`, summed over `m`. */
  function SandwichTerms(a: seq<seq<int>>, b: seq<seq<int>>, i: int, k: int, j: int): int -> int
  {
    m => Block(a, i, m) * Block(b, m, k) * Block(a, k, j)
  }

  /** For each `k`, the inner sum over `m` in `[mlo, mhi)`. */
  function SandwichRow(a: seq<seq<int>>, b: seq<seq<int>>, i: int, j: int, mlo: int, mhi: int): int -> int
  {
    k => Sum(mlo, mhi, SandwichTerms(a, b, i, k, j))
  }

  // ---------------------------------------------------------------------
  // btd_matmul

  /** Block `(i, j)` produced by the main loops of `btd_matmul`: for `j`
      within two blocks of `i`, the sum over `k` within one block of `i`,
      both clipped to the matrix. */
  function BtdMatmulCore(a: seq<seq<int>>, b: seq<seq<int>>, n: int, i: int, j: int): int
  {
    if Max(0, i - 2) <= j < Min(n, i + 3)
    then Sum(Max(0, i - 1), Min(n, i + 2), ProductTerms(a, b, i, j))
    else 0
  }

  /** The open-end corrections of `btd_matmul`. */
  function BtdMatmulSpillover(a: seq<seq<int>>, b: seq<seq<int>>, n: int, i: int, j: int): int
  {
    (if i == 0 && j == 0 then Block(a, 1, 0) * Block(b, 0, 1) else 0) +
    (if i == n - 1 && j == n - 1 then Block(a, n - 2, n - 1) * Block(b, n - 1, n - 2) else 0)
  }

  function BtdMatmulBlock(a: seq<seq<int>>, b: seq<seq<int>>, n: int, spillover: bool, i: int, j: int): int
  {
    BtdMatmulCore(a, b, n, i, j) + (if spillover then BtdMatmulSpillover(a, b, n, i, j) else 0)
  }

  /** The innermost loop of `btd_matmul`: `out[i, j] += a[i, k] @ b[k, j]`
      for `k` in `[lo, hi)`; no other block changes. */
  method AddProducts(a: seq<seq<int>>, b: seq<seq<int>>, out: array2<int>, i: int, j: int, lo: int, hi: int)
    requires IsGrid(a, |a|) && IsGrid(b, |a|)
    requires out.Length0 == |a| && out.Length1 == |a|
    requires 0 <= i < |a| && 0 <= j < |a| && 0 <= lo <= hi <= |a|
    modifies out
    ensures out[i, j] == old(out[i, j]) + Sum(lo, hi, ProductTerms(a, b, i, j))
    ensures forall r, c :: 0 <= r < out.Length0 && 0 <= c < out.Length1 && (r != i || c != j) ==>
      out[r, c] == old(out[r, c])
  {
    for k := lo to hi
      invariant out[i, j] == old(out[i, j]) + Sum(lo, k, ProductTerms(a, b, i, j))
      invariant forall r, c :: 0 <= r < out.Length0 && 0 <= c < out.Length1 && (r != i || c != j) ==>
        out[r, c] == old(out[r, c])
    {
      ghost var terms := ProductTerms(a, b, i, j);
      assert Sum(lo, k + 1, terms) == Sum(lo, k, terms) + a[i][k] * b[k][j];
      out[i, j] := out[i, j] + a[i][k] * b[k][j];
    }
  }

  /** `btd_matmul(a, b, out, spillover_correction)`. */
  method BtdMatmul(a: BlockMatrix, b: BlockMatrix, out: array2<int>, spilloverCorrection: bool)
    returns (r: Outcome)
    requires IsGrid(a.blocks, |a.blocks|) && IsGrid(b.blocks, |a.blocks|)
    requires out.Length0 == |a.blocks| && out.Length1 == |a.blocks|
    requires spilloverCorrection ==> |a.blocks| >= 2
    modifies out
    ensures r.Fail? <==> a.state == Nnz || b.state == Nnz
    ensures r.Fail? ==> unchanged(out)
    ensures r.Pass? ==>
      forall i, j :: 0 <= i < out.Length0 && 0 <= j < out.Length1 ==>
        out[i, j] == BtdMatmulBlock(a.blocks, b.blocks, |a.blocks|, spilloverCorrection, i, j)
  {
    if a.state == Nnz || b.state == Nnz {
      return Fail(NnzStateNotSupported);
    }
    var n := |a.blocks|;
    forall r, c | 0 <= r < n && 0 <= c < n {
      out[r, c] := 0;
    }
    for i := 0 to n
      invariant forall r, c :: 0 <= r < n && 0 <= c < n ==>
        out[r, c] == if r < i then BtdMatmulCore(a.blocks, b.blocks, n, r, c) else 0
    {
      for j := Max(0, i - 2) to Min(n, i + 3)
        invariant forall r, c :: 0 <= r < n && 0 <= c < n ==>
          out[r, c] == if r < i || (r == i && c < j) then BtdMatmulCore(a.blocks, b.blocks, n, r, c) else 0
      {
        AddProducts(a.blocks, b.blocks, out, i, j, Max(0, i - 1), Min(n, i + 2));
      }
    }
    if spilloverCorrection {
      out[0, 0] := out[0, 0] + a.blocks[1][0] * b.blocks[0][1];
      out[n - 1, n - 1] := out[n - 1, n - 1] + a.blocks[n - 2][n - 1] * b.blocks[n - 1][n - 2];
    }
    r := Pass;
  }

  // ---------------------------------------------------------------------
  // bd_matmul

  /** The term that `bd_matmul` adds to block `(i, j)` for a given `k`:
      the plain product when `k` is inside the matrix; with spillover, the
      product of the blocks that `correct_out_range_index` maps to; nothing
      otherwise. */
  function BdTerms(a: seq<seq<int>>, b: seq<seq<int>>, n: int, spillover: bool, i: int, j: int): int -> int
  {
    k => if 0 <= k < n then Block(a, i, k) * Block(b, k, j)
         else if spillover then BlockAt(a, CorrectOutRangeIndex(i, k, n)) * BlockAt(b, CorrectOutRangeIndex(k, j, n))
         else 0
  }

  /** Block `(i, j)` (inside the matrix) produced by `bd_matmul`. */
  function BdMatmulBlock(a: seq<seq<int>>, b: seq<seq<int>>, n: int, inNumDiag: nat, outNumDiag: nat,
                         spillover: bool, i: int, j: int): int
  {
    if i - outNumDiag / 2 <= j <= i + outNumDiag / 2
    then Sum(i - inNumDiag / 2, i + inNumDiag / 2 + 1, BdTerms(a, b, n, spillover, i, j))
    else 0
  }

  /** The innermost loop of `bd_matmul` for a target block inside the
      matrix: for each `k` in `[lo, hi)`, the product of the blocks in
      range, or with spillover the product of the blocks that
      `correct_out_range_index` picks; no other block changes. */
  method AddBdProducts(a: seq<seq<int>>, b: seq<seq<int>>, out: array2<int>, spilloverCorrection: bool,
                       i: int, j: int, lo: int, hi: int)
    requires IsGrid(a, |a|) && IsGrid(b, |a|)
    requires out.Length0 == |a| && out.Length1 == |a|
    requires 0 <= i < |a| && 0 <= j < |a| && lo <= hi
    requires spilloverCorrection ==> i - |a| < lo && j - |a| < lo && hi <= i + |a| && hi <= j + |a|
    modifies out
    ensures out[i, j] == old(out[i, j]) + Sum(lo, hi, BdTerms(a, b, |a|, spilloverCorrection, i, j))
    ensures forall r, c :: 0 <= r < out.Length0 && 0 <= c < out.Length1 && (r != i || c != j) ==>
      out[r, c] == old(out[r, c])
  {
    var n := |a|;
    for k := lo to hi
      invariant out[i, j] == old(out[i, j]) + Sum(lo, k, BdTerms(a, b, n, spilloverCorrection, i, j))
      invariant forall r, c :: 0 <= r < out.Length0 && 0 <= c < out.Length1 && (r != i || c != j) ==>
        out[r, c] == old(out[r, c])
    {
      ghost var terms := BdTerms(a, b, n, spilloverCorrection, i, j);
      assert Sum(lo, k + 1, terms) == Sum(lo, k, terms) + terms(k);
      var term := BdProduct(a, b, spilloverCorrection, i, j, k);
      out[i, j] := out[i, j] + term;
    }
  }

  /** What one step of the innermost loop of `bd_matmul` adds to block
      `(i, j)`: nothing when an index is out of range and spillover is off. */
  method BdProduct(a: seq<seq<int>>, b: seq<seq<int>>, spilloverCorrection: bool, i: int, j: int, k: int)
    returns (term: int)
    requires IsGrid(a, |a|) && IsGrid(b, |a|)
    requires 0 <= i < |a| && 0 <= j < |a|
    requires spilloverCorrection ==> -|a| < k - i < |a| && -|a| < j - k < |a|
    ensures term == BdTerms(a, b, |a|, spilloverCorrection, i, j)(k)
  {
    var n := |a|;
    term := 0;
    var outRange := j < 0 || j >= n || k < 0 || k >= n;
    if !outRange || spilloverCorrection {
      if outRange {
        var (ia, ka) := CorrectOutRangeIndex(i, k, n);
        var (kb, jb) := CorrectOutRangeIndex(k, j, n);
        term := a[ia][ka] * b[kb][jb];
      } else {
        term := a[i][k] * b[k][j];
      }
    }
  }

  /** `bd_matmul(a, b, out, in_num_diag, out_num_diag, spillover_correction)`,
      for the output blocks inside the matrix. */
  method BdMatmul(a: BlockMatrix, b: BlockMatrix, out: array2<int>, inNumDiag: nat, outNumDiag: nat,
                  spilloverCorrection: bool)
    returns (r: Outcome)
    requires IsGrid(a.blocks, |a.blocks|) && IsGrid(b.blocks, |a.blocks|)
    requires out.Length0 == |a.blocks| && out.Length1 == |a.blocks|
    requires spilloverCorrection ==> inNumDiag / 2 + outNumDiag / 2 < |a.blocks|
    modifies out
    ensures r.Fail? <==> a.state == Nnz || b.state == Nnz
    ensures r.Fail? ==> unchanged(out)
    ensures r.Pass? ==>
      forall i, j :: 0 <= i < out.Length0 && 0 <= j < out.Length1 ==>
        out[i, j] == BdMatmulBlock(a.blocks, b.blocks, |a.blocks|, inNumDiag, outNumDiag, spilloverCorrection, i, j)
  {
    if a.state == Nnz || b.state == Nnz {
      return Fail(NnzStateNotSupported);
    }
    var n := |a.blocks|;
    forall r, c | 0 <= r < n && 0 <= c < n {
      out[r, c] := 0;
    }
    for i := 0 to n
      invariant forall r, c :: 0 <= r < n && 0 <= c < n ==>
        out[r, c] == if r < i then BdMatmulBlock(a.blocks, b.blocks, n, inNumDiag, outNumDiag, spilloverCorrection, r, c) else 0
    {
      for j := i - outNumDiag / 2 to i + outNumDiag / 2 + 1
        invariant forall r, c :: 0 <= r < n && 0 <= c < n ==>
          out[r, c] == if r < i || (r == i && c < j)
                       then BdMatmulBlock(a.blocks, b.blocks, n, inNumDiag, outNumDiag, spilloverCorrection, r, c)
                       else 0
      {
        if 0 <= j < n {
          ghost var block := BdMatmulBlock(a.blocks, b.blocks, n, inNumDiag, outNumDiag, spilloverCorrection, i, j);
          assert block == Sum(i - inNumDiag / 2, i + inNumDiag / 2 + 1, BdTerms(a.blocks, b.blocks, n, spilloverCorrection, i, j));
          AddBdProducts(a.blocks, b.blocks, out, spilloverCorrection, i, j, i - inNumDiag / 2, i + inNumDiag / 2 + 1);
          assert out[i, j] == block;
        }
      }
    }
    r := Pass;
  }

  // ---------------------------------------------------------------------
  // btd_sandwich

  /** Block `(i, j)` produced by the main loops of `btd_sandwich`: `j`
      within three blocks of `i`, `k` within two and `m` within one, all
      clipped to the matrix. */
  function BtdSandwichCore(a: seq<seq<int>>, b: seq<seq<int>>, n: int, i: int, j: int): int
  {
    if Max(0, i - 3) <= j < Min(n, i + 4)
    then Sum(Max(0, i - 2), Min(n, i + 3), SandwichRow(a, b, i, j, Max(0, i - 1), Min(n, i + 2)))
    else 0
  }

  /** The open-end corrections of `btd_sandwich`. */
  function BtdSandwichSpillover(a: seq<seq<int>>, b: seq<seq<int>>, n: int, i: int, j: int): int
  {
    (if i == 0 && j == 0 then
       Block(a, 1, 0) * Block(b, 0, 1) * Block(a, 0, 0)
       + Block(a, 0, 0) * Block(b, 1, 0) * Block(a, 0, 1)
       + Block(a, 1, 0) * Block(b, 0, 0) * Block(a, 0, 1)
     else 0) +
    (if i == 0 && j == 1 then Block(a, 1, 0) * Block(b, 0, 1) * Block(a, 0, 1) else 0) +
    (if i == 1 && j == 0 then Block(a, 1, 0) * Block(b, 1, 0) * Block(a, 0, 1) else 0) +
    (if i == n - 1 && j == n - 1 then
       Block(a, n - 2, n - 1) * Block(b, n - 1, n - 2) * Block(a, n - 1, n - 1)
       + Block(a, n - 1, n - 1) * Block(b, n - 2, n - 1) * Block(a, n - 1, n - 2)
       + Block(a, n - 2, n - 1) * Block(b, n - 1, n - 1) * Block(a, n - 1, n - 2)
     else 0) +
    (if i == n - 1 && j == n - 2 then Block(a, n - 2, n - 1) * Block(b, n - 1, n - 2) * Block(a, n - 1, n - 2) else 0) +
    (if i == n - 2 && j == n - 1 then Block(a, n - 2, n - 1) * Block(b, n - 2, n - 1) * Block(a, n - 1, n - 2) else 0)
  }

  function BtdSandwichBlock(a: seq<seq<int>>, b: seq<seq<int>>, n: int, spillover: bool, i: int, j: int): int
  {
    BtdSandwichCore(a, b, n, i, j) + (if spillover then BtdSandwichSpillover(a, b, n, i, j) else 0)
  }

  /** The in-place open-end corrections at the end of `btd_sandwich`. */
  method AddSandwichSpillover(a: seq<seq<int>>, b: seq<seq<int>>, out: array2<int>)
    requires IsGrid(a, |a|) && IsGrid(b, |a|) && |a| >= 2
    requires out.Length0 == |a| && out.Length1 == |a|
    modifies out
    ensures forall i, j :: 0 <= i < out.Length0 && 0 <= j < out.Length1 ==>
      out[i, j] == old(out[i, j]) + BtdSandwichSpillover(a, b, |a|, i, j)
  {
    var n := |a|;
    out[0, 0] := out[0, 0] + (
      a[1][0] * b[0][1] * a[0][0]
      + a[0][0] * b[1][0] * a[0][1]
      + a[1][0] * b[0][0] * a[0][1]);
    out[0, 1] := out[0, 1] + a[1][0] * b[0][1] * a[0][1];
    out[1, 0] := out[1, 0] + a[1][0] * b[1][0] * a[0][1];
    out[n - 1, n - 1] := out[n - 1, n - 1] + (
      a[n - 2][n - 1] * b[n - 1][n - 2] * a[n - 1][n - 1]
      + a[n - 1][n - 1] * b[n - 2][n - 1] * a[n - 1][n - 2]
      + a[n - 2][n - 1] * b[n - 1][n - 1] * a[n - 1][n - 2]);
    out[n - 1, n - 2] := out[n - 1, n - 2] + a[n - 2][n - 1] * b[n - 1][n - 2] * a[n - 1][n - 2];
    out[n - 2, n - 1] := out[n - 2, n - 1] + a[n - 2][n - 1] * b[n - 2][n - 1] * a[n - 1][n - 2];
  }

  /** The innermost loop of `btd_sandwich`:
      `out[i, j] += a[i, m] @ b[m, k] @ a[k, j]` for `m` in `[lo, hi)`; no
      other block changes. */
  method AddSandwichTerms(a: seq<seq<int>>, b: seq<seq<int>>, out: array2<int>, i: int, k: int, j: int,
                          lo: int, hi: int)
    requires IsGrid(a, |a|) && IsGrid(b, |a|)
    requires out.Length0 == |a| && out.Length1 == |a|
    requires 0 <= i < |a| && 0 <= j < |a| && 0 <= k < |a| && 0 <= lo <= hi <= |a|
    modifies out
    ensures out[i, j] == old(out[i, j]) + Sum(lo, hi, SandwichTerms(a, b, i, k, j))
    ensures forall r, c :: 0 <= r < out.Length0 && 0 <= c < out.Length1 && (r != i || c != j) ==>
      out[r, c] == old(out[r, c])
  {
    for m := lo to hi
      invariant out[i, j] == old(out[i, j]) + Sum(lo, m, SandwichTerms(a, b, i, k, j))
      invariant forall r, c :: 0 <= r < out.Length0 && 0 <= c < out.Length1 && (r != i || c != j) ==>
        out[r, c] == old(out[r, c])
    {
      ghost var terms := SandwichTerms(a, b, i, k, j);
      assert Sum(lo, m + 1, terms) == Sum(lo, m, terms) + a[i][m] * b[m][k] * a[k][j];
      out[i, j] := out[i, j] + a[i][m] * b[m][k] * a[k][j];
    }
  }

  /** The two inner loops of `btd_sandwich` for one target block: over `k`
      in `[klo, khi)`, the loop over `m` in `[mlo, mhi)`; no other block
      changes. */
  method AddSandwichRows(a: seq<seq<int>>, b: seq<seq<int>>, out: array2<int>, i: int, j: int,
                         klo: int, khi: int, mlo: int, mhi: int)
    requires IsGrid(a, |a|) && IsGrid(b, |a|)
    requires out.Length0 == |a| && out.Length1 == |a|
    requires 0 <= i < |a| && 0 <= j < |a| && 0 <= klo <= khi <= |a| && 0 <= mlo <= mhi <= |a|
    modifies out
    ensures out[i, j] == old(out[i, j]) + Sum(klo, khi, SandwichRow(a, b, i, j, mlo, mhi))
    ensures forall r, c :: 0 <= r < out.Length0 && 0 <= c < out.Length1 && (r != i || c != j) ==>
      out[r, c] == old(out[r, c])
  {
    for k := klo to khi
      invariant out[i, j] == old(out[i, j]) + Sum(klo, k, SandwichRow(a, b, i, j, mlo, mhi))
      invariant forall r, c :: 0 <= r < out.Length0 && 0 <= c < out.Length1 && (r != i || c != j) ==>
        out[r, c] == old(out[r, c])
    {
      ghost var row := SandwichRow(a, b, i, j, mlo, mhi);
      assert Sum(klo, k + 1, row) == Sum(klo, k, row) + Sum(mlo, mhi, SandwichTerms(a, b, i, k, j));
      AddSandwichTerms(a, b, out, i, k, j, mlo, mhi);
    }
  }

  /** `btd_sandwich(a, b, out, spillover_correction)`: `a @ b @ a`. */
  method BtdSandwich(a: BlockMatrix, b: BlockMatrix, out: array2<int>, spilloverCorrection: bool)
    returns (r: Outcome)
    requires IsGrid(a.blocks, |a.blocks|) && IsGrid(b.blocks, |a.blocks|)
    requires out.Length0 == |a.blocks| && out.Length1 == |a.blocks|
    requires spilloverCorrection ==> |a.blocks| >= 2
    modifies out
    ensures r.Fail? <==> a.state == Nnz || b.state == Nnz
    ensures r.Fail? ==> unchanged(out)
    ensures r.Pass? ==>
      forall i, j :: 0 <= i < out.Length0 && 0 <= j < out.Length1 ==>
        out[i, j] == BtdSandwichBlock(a.blocks, b.blocks, |a.blocks|, spilloverCorrection, i, j)
  {
    if a.state == Nnz || b.state == Nnz {
      return Fail(NnzStateNotSupported);
    }
    var n := |a.blocks|;
    forall r, c | 0 <= r < n && 0 <= c < n {
      out[r, c] := 0;
    }
    for i := 0 to n
      invariant forall r, c :: 0 <= r < n && 0 <= c < n ==>
        out[r, c] == if r < i then BtdSandwichCore(a.blocks, b.blocks, n, r, c) else 0
    {
      var mlo, mhi := Max(0, i - 1), Min(n, i + 2);
      for j := Max(0, i - 3) to Min(n, i + 4)
        invariant forall r, c :: 0 <= r < n && 0 <= c < n ==>
          out[r, c] == if r < i || (r == i && c < j) then BtdSandwichCore(a.blocks, b.blocks, n, r, c) else 0
      {
        AddSandwichRows(a.blocks, b.blocks, out, i, j, Max(0, i - 2), Min(n, i + 3), mlo, mhi);
      }
    }
    if spilloverCorrection {
      AddSandwichSpillover(a.blocks, b.blocks, out);
    }
    r := Pass;
  }
}
