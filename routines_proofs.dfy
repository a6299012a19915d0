/** What the banded block products compute: the dense product for
    block-tridiagonal operands, and, with the spillover corrections, the
    product of the operands continued by one block past each open end. */
module RoutinesProofs {
  import opened BlockIndex
  import opened BlockSums
  import opened Routines

  /** Block `(i, j)` of the dense product `a @ b`. */
  function DenseProduct(a: seq<seq<int>>, b: seq<seq<int>>, n: int, i: int, j: int): int
  {
    Sum(0, n, ProductTerms(a, b, i, j))
  }

  /** Block `(i, j)` of the dense product `a @ b @ a`. */
  function DenseSandwich(a: seq<seq<int>>, b: seq<seq<int>>, n: int, i: int, j: int): int
  {
    Sum(0, n, SandwichRow(a, b, i, j, 0, n))
  }

  /** The matrix `m` grown by one block row and column at each open end,
      block `(r, c)` for `-1 <= r, c <= n`: the grid itself inside, the
      border row and column `-1` copied from the first block row and column
      shifted one place along the diagonal, and the border row and column
      `n` copied from the last ones in the same way. */
  function Extended(m: seq<seq<int>>, n: int, r: int, c: int): (x: int)
    // inside, the grid itself
    ensures 0 <= r < n && 0 <= c < n ==> x == Block(m, r, c)
    // every block is a block of the same diagonal, at most one place away
    ensures x == Block(m, r, c) || x == Block(m, r + 1, c + 1) || x == Block(m, r - 1, c - 1)
  {
    if r == -1 || c == -1 then Block(m, r + 1, c + 1)
    else if r == n || c == n then Block(m, r - 1, c - 1)
    else Block(m, r, c)
  }

  function ExtendedProductTerms(a: seq<seq<int>>, b: seq<seq<int>>, n: int, i: int, j: int): int -> int
  {
    k => Extended(a, n, i, k) * Extended(b, n, k, j)
  }

  /** Block `(i, j)` of the product of the two continued matrices, over
      the block range `[-1, n]` (one extra block at each end). */
  function ExtendedProduct(a: seq<seq<int>>, b: seq<seq<int>>, n: int, i: int, j: int): int
  {
    Sum(-1, n + 1, ExtendedProductTerms(a, b, n, i, j))
  }

  function ExtendedSandwichTerms(a: seq<seq<int>>, b: seq<seq<int>>, n: int, i: int, k: int, j: int): int -> int
  {
    m => Extended(a, n, i, m) * Extended(b, n, m, k) * Extended(a, n, k, j)
  }

  function ExtendedSandwichRow(a: seq<seq<int>>, b: seq<seq<int>>, n: int, i: int, j: int): int -> int
  {
    k => Sum(-1, n + 1, ExtendedSandwichTerms(a, b, n, i, k, j))
  }

  /** Block `(i, j)` of `a @ b @ a` for the continued matrices. */
  function ExtendedSandwich(a: seq<seq<int>>, b: seq<seq<int>>, n: int, i: int, j: int): int
  {
    Sum(-1, n + 1, ExtendedSandwichRow(a, b, n, i, j))
  }

  // ---------------------------------------------------------------------
  // Facts about single blocks

  /** Outside the three central diagonals a block-tridiagonal grid is zero
      (also outside the grid, where `Block` is zero). */
  lemma OffBandIsZero(m: seq<seq<int>>, n: int, r: int, c: int)
    requires IsBlockTridiagonal(m, n)
    requires r - c > 1 || c - r > 1
    ensures Block(m, r, c) == 0
  {
  }

  /** Inside the matrix the continued matrix is the matrix itself. */
  lemma ExtendedInside(m: seq<seq<int>>, n: int, r: int, c: int)
    requires IsBlockTridiagonal(m, n)
    requires 0 <= r < n && 0 <= c < n
    ensures Extended(m, n, r, c) == Block(m, r, c)
  {
  }

  /** Off the three central diagonals the continued grid of a
      block-tridiagonal matrix is zero as well. */
  lemma ExtendedOffBand(m: seq<seq<int>>, n: int, r: int, c: int)
    requires IsBlockTridiagonal(m, n)
    requires r - c > 1 || c - r > 1
    ensures Extended(m, n, r, c) == 0
  {
    if r == -1 || c == -1 {
      OffBandIsZero(m, n, r + 1, c + 1);
    } else if r == n || c == n {
      OffBandIsZero(m, n, r - 1, c - 1);
    } else {
      OffBandIsZero(m, n, r, c);
    }
  }

  /** For a block-tridiagonal grid, the block that `correct_out_range_index`
      picks is the block of the grown matrix, for every index pair of the
      grown matrix. */
  lemma CorrectedBlockIsExtended(m: seq<seq<int>>, n: int, r: int, c: int)
    requires IsBlockTridiagonal(m, n) && n >= 1
    requires -1 <= r <= n && -1 <= c <= n
    ensures BlockAt(m, CorrectOutRangeIndex(r, c, n)) == Extended(m, n, r, c)
  {
    var rc := CorrectOutRangeIndex(r, c, n);
    if !(-1 <= r - c <= 1) {
      OffBandIsZero(m, n, rc.0, rc.1);
      ExtendedOffBand(m, n, r, c);
    }
  }

  // ---------------------------------------------------------------------
  // btd_matmul

  /** Without spillover, `btd_matmul` of two block-tridiagonal matrices is
      their dense product, on every block. */
  lemma BtdMatmulIsDenseProduct(a: seq<seq<int>>, b: seq<seq<int>>, n: int, i: int, j: int)
    requires IsBlockTridiagonal(a, n) && IsBlockTridiagonal(b, n)
    requires 0 <= i < n && 0 <= j < n
    ensures BtdMatmulBlock(a, b, n, false, i, j) == DenseProduct(a, b, n, i, j)
  {
    var f := ProductTerms(a, b, i, j);
    if Max(0, i - 2) <= j < Min(n, i + 3) {
      forall k | 0 <= k < Max(0, i - 1) ensures f(k) == 0 {
        OffBandIsZero(a, n, i, k);
      }
      forall k | Min(n, i + 2) <= k < n ensures f(k) == 0 {
        OffBandIsZero(a, n, i, k);
      }
      SumRestrict(0, Max(0, i - 1), Min(n, i + 2), n, f);
    } else {
      forall k | 0 <= k < n ensures f(k) == 0 {
        if i - k > 1 || k - i > 1 {
          OffBandIsZero(a, n, i, k);
        } else {
          OffBandIsZero(b, n, k, j);
        }
      }
      SumOfZeros(0, n, f);
    }
  }

  /** With the spillover corrections, `btd_matmul` of two block-tridiagonal
      matrices is the product of the matrices continued by one block past
      each open end, restricted to the original blocks. */
  lemma BtdMatmulSpilloverIsExtendedProduct(a: seq<seq<int>>, b: seq<seq<int>>, n: int, i: int, j: int)
    requires IsBlockTridiagonal(a, n) && IsBlockTridiagonal(b, n) && n >= 2
    requires 0 <= i < n && 0 <= j < n
    ensures BtdMatmulBlock(a, b, n, true, i, j) == ExtendedProduct(a, b, n, i, j)
  {
    var f := ExtendedProductTerms(a, b, n, i, j);
    SumFront(-1, n + 1, f);
    SumSplit(0, n, n + 1, f);
    forall k | 0 <= k < n ensures f(k) == ProductTerms(a, b, i, j)(k) {
      ExtendedInside(a, n, i, k);
      ExtendedInside(b, n, k, j);
    }
    SumCongruent(0, n, f, ProductTerms(a, b, i, j));
    BtdMatmulIsDenseProduct(a, b, n, i, j);
    LeftBorderTerm(a, b, n, i, j);
    RightBorderTerm(a, b, n, i, j);
  }

  /** The extra term of the continued product through block column `-1`. */
  lemma LeftBorderTerm(a: seq<seq<int>>, b: seq<seq<int>>, n: int, i: int, j: int)
    requires IsBlockTridiagonal(a, n) && IsBlockTridiagonal(b, n)
    requires n >= 2 && 0 <= i < n && 0 <= j < n
    ensures ExtendedProductTerms(a, b, n, i, j)(-1) ==
            if i == 0 && j == 0 then Block(a, 1, 0) * Block(b, 0, 1) else 0
  {
    CornerNeighbours(n);
    if i != 0 {
      ExtendedOffBand(a, n, i, -1);
    } else if j != 0 {
      ExtendedOffBand(b, n, -1, j);
    }
  }

  /** The extra term of the continued product through block column `n`. */
  lemma RightBorderTerm(a: seq<seq<int>>, b: seq<seq<int>>, n: int, i: int, j: int)
    requires IsBlockTridiagonal(a, n) && IsBlockTridiagonal(b, n)
    requires n >= 2 && 0 <= i < n && 0 <= j < n
    ensures ExtendedProductTerms(a, b, n, i, j)(n) ==
            if i == n - 1 && j == n - 1 then Block(a, n - 2, n - 1) * Block(b, n - 1, n - 2) else 0
  {
    CornerNeighbours(n);
    if i != n - 1 {
      ExtendedOffBand(a, n, i, n);
    } else if j != n - 1 {
      ExtendedOffBand(b, n, n, j);
    }
  }

  // ---------------------------------------------------------------------
  // bd_matmul

  /** With the default three input and five output diagonals and without
      spillover, `bd_matmul` computes exactly what `btd_matmul` computes,
      for any operands. */
  lemma BdMatmulMatchesBtdMatmul(a: seq<seq<int>>, b: seq<seq<int>>, n: int, i: int, j: int)
    requires 0 <= i < n && 0 <= j < n
    ensures BdMatmulBlock(a, b, n, 3, 5, false, i, j) == BtdMatmulBlock(a, b, n, false, i, j)
  {
    var f := BdTerms(a, b, n, false, i, j);
    if i - 2 <= j <= i + 2 {
      SumRestrict(i - 1, Max(0, i - 1), Min(n, i + 2), i + 2, f);
      SumCongruent(Max(0, i - 1), Min(n, i + 2), f, ProductTerms(a, b, i, j));
    }
  }

  /** With the default diagonal counts and spillover, `bd_matmul` of two
      block-tridiagonal matrices is the product of the continued matrices
      (the property its spillover test checks). */
  lemma BdMatmulSpilloverIsExtendedProduct(a: seq<seq<int>>, b: seq<seq<int>>, n: int, i: int, j: int)
    requires IsBlockTridiagonal(a, n) && IsBlockTridiagonal(b, n) && n >= 2
    requires 0 <= i < n && 0 <= j < n
    ensures BdMatmulBlock(a, b, n, 3, 5, true, i, j) == ExtendedProduct(a, b, n, i, j)
  {
    var f := BdTerms(a, b, n, true, i, j);
    var g := ExtendedProductTerms(a, b, n, i, j);
    assert ExtendedProduct(a, b, n, i, j) == Sum(-1, n + 1, g);
    if i - 2 <= j <= i + 2 {
      assert BdMatmulBlock(a, b, n, 3, 5, true, i, j) == Sum(i - 1, i + 2, f);
      BdSpilloverInBand(a, b, n, i, j);
    } else {
      assert BdMatmulBlock(a, b, n, 3, 5, true, i, j) == 0;
      ExtendedProductOffBand(a, b, n, i, j);
    }
  }

  /** Within the band, the three terms `bd_matmul` adds with spillover
      make up the whole continued product. */
  lemma BdSpilloverInBand(a: seq<seq<int>>, b: seq<seq<int>>, n: int, i: int, j: int)
    requires IsBlockTridiagonal(a, n) && IsBlockTridiagonal(b, n) && n >= 2
    requires 0 <= i < n && 0 <= j < n
    ensures Sum(i - 1, i + 2, BdTerms(a, b, n, true, i, j)) == Sum(-1, n + 1, ExtendedProductTerms(a, b, n, i, j))
  {
    var f := BdTerms(a, b, n, true, i, j);
    var g := ExtendedProductTerms(a, b, n, i, j);
    forall k | i - 1 <= k < i + 2 ensures f(k) == g(k) {
      BdTermIsExtendedTerm(a, b, n, i, j, k);
    }
    SumCongruent(i - 1, i + 2, f, g);
    ExtendedTermsOutsideBand(a, b, n, i, j);
    SumRestrict(-1, i - 1, i + 2, n + 1, g);
  }

  /** More than two blocks off the diagonal the continued product is zero. */
  lemma ExtendedProductOffBand(a: seq<seq<int>>, b: seq<seq<int>>, n: int, i: int, j: int)
    requires IsBlockTridiagonal(a, n) && IsBlockTridiagonal(b, n)
    requires !(i - 2 <= j <= i + 2)
    ensures Sum(-1, n + 1, ExtendedProductTerms(a, b, n, i, j)) == 0
  {
    var g := ExtendedProductTerms(a, b, n, i, j);
    forall k | -1 <= k < n + 1 ensures g(k) == 0 {
      ExtendedTermOffBand(a, b, n, i, j, k);
    }
    SumOfZeros(-1, n + 1, g);
  }

  /** A term of the continued product is zero unless `k` is within one
      block of both `i` and `j`. */
  lemma ExtendedTermOffBand(a: seq<seq<int>>, b: seq<seq<int>>, n: int, i: int, j: int, k: int)
    requires IsBlockTridiagonal(a, n) && IsBlockTridiagonal(b, n)
    requires !(-1 <= i - k <= 1) || !(-1 <= k - j <= 1)
    ensures ExtendedProductTerms(a, b, n, i, j)(k) == 0
  {
    if -1 <= i - k <= 1 {
      ExtendedOffBand(b, n, k, j);
    } else {
      ExtendedOffBand(a, n, i, k);
    }
  }

  /** Outside `[i - 1, i + 2)` the terms of the continued product vanish. */
  lemma ExtendedTermsOutsideBand(a: seq<seq<int>>, b: seq<seq<int>>, n: int, i: int, j: int)
    requires IsBlockTridiagonal(a, n) && IsBlockTridiagonal(b, n)
    ensures forall k :: -1 <= k < i - 1 ==> ExtendedProductTerms(a, b, n, i, j)(k) == 0
    ensures forall k :: i + 2 <= k < n + 1 ==> ExtendedProductTerms(a, b, n, i, j)(k) == 0
  {
    forall k | k < i - 1 || i + 2 <= k ensures ExtendedProductTerms(a, b, n, i, j)(k) == 0 {
      ExtendedTermOffBand(a, b, n, i, j, k);
    }
  }

  /** Each term `bd_matmul` adds, in range or corrected, is the matching
      term of the continued product. */
  lemma BdTermIsExtendedTerm(a: seq<seq<int>>, b: seq<seq<int>>, n: int, i: int, j: int, k: int)
    requires IsBlockTridiagonal(a, n) && IsBlockTridiagonal(b, n) && n >= 2
    requires 0 <= i < n && 0 <= j < n && i - 1 <= k <= i + 1
    ensures BdTerms(a, b, n, true, i, j)(k) == ExtendedProductTerms(a, b, n, i, j)(k)
  {
    if 0 <= k < n {
      ExtendedInside(a, n, i, k);
      ExtendedInside(b, n, k, j);
    } else {
      CorrectedBlockIsExtended(a, n, i, k);
      CorrectedBlockIsExtended(b, n, k, j);
    }
  }

  /** Hence, for block-tridiagonal operands, `bd_matmul` and `btd_matmul`
      agree with spillover as well. */
  lemma BdMatmulSpilloverMatchesBtdMatmul(a: seq<seq<int>>, b: seq<seq<int>>, n: int, i: int, j: int)
    requires IsBlockTridiagonal(a, n) && IsBlockTridiagonal(b, n) && n >= 2
    requires 0 <= i < n && 0 <= j < n
    ensures BdMatmulBlock(a, b, n, 3, 5, true, i, j) == BtdMatmulBlock(a, b, n, true, i, j)
  {
    BdMatmulSpilloverIsExtendedProduct(a, b, n, i, j);
    BtdMatmulSpilloverIsExtendedProduct(a, b, n, i, j);
  }

  // ---------------------------------------------------------------------
  // btd_sandwich

  /** Without spillover, `btd_sandwich` of block-tridiagonal matrices is
      the dense product `a @ b @ a`. */
  lemma BtdSandwichIsDenseProduct(a: seq<seq<int>>, b: seq<seq<int>>, n: int, i: int, j: int)
    requires IsBlockTridiagonal(a, n) && IsBlockTridiagonal(b, n)
    requires 0 <= i < n && 0 <= j < n
    ensures BtdSandwichBlock(a, b, n, false, i, j) == DenseSandwich(a, b, n, i, j)
  {
    var mlo, mhi := Max(0, i - 1), Min(n, i + 2);
    var klo, khi := Max(0, i - 2), Min(n, i + 3);
    var full := SandwichRow(a, b, i, j, 0, n);
    var band := SandwichRow(a, b, i, j, mlo, mhi);
    // Only m within one block of i contributes.
    forall k ensures full(k) == band(k) {
      var t := SandwichTerms(a, b, i, k, j);
      forall m | 0 <= m < mlo ensures t(m) == 0 {
        OffBandIsZero(a, n, i, m);
      }
      forall m | mhi <= m < n ensures t(m) == 0 {
        OffBandIsZero(a, n, i, m);
      }
      SumRestrict(0, mlo, mhi, n, t);
    }
    SumCongruent(0, n, full, band);
    // Then only k within two blocks of i contributes, and nothing at all
    // when j is more than three blocks away from i.
    forall k | 0 <= k < n && (k < klo || khi <= k || !(Max(0, i - 3) <= j < Min(n, i + 4)))
      ensures band(k) == 0
    {
      var t := SandwichTerms(a, b, i, k, j);
      forall m | mlo <= m < mhi ensures t(m) == 0 {
        if m - k > 1 || k - m > 1 {
          OffBandIsZero(b, n, m, k);
        } else {
          OffBandIsZero(a, n, k, j);
        }
      }
      SumOfZeros(mlo, mhi, t);
    }
    if Max(0, i - 3) <= j < Min(n, i + 4) {
      SumRestrict(0, klo, khi, n, band);
    } else {
      SumOfZeros(0, n, band);
    }
  }

  /** The spillover corrections of `btd_sandwich` touch only the three
      blocks at each corner. */
  lemma BtdSandwichSpilloverIsLocal(a: seq<seq<int>>, b: seq<seq<int>>, n: int, i: int, j: int)
    requires (i, j) !in {(0, 0), (0, 1), (1, 0), (n - 1, n - 1), (n - 1, n - 2), (n - 2, n - 1)}
    ensures BtdSandwichBlock(a, b, n, true, i, j) == BtdSandwichBlock(a, b, n, false, i, j)
  {
  }

  /** With the spillover corrections, `btd_sandwich` of block-tridiagonal
      matrices is `a @ b @ a` for the matrices continued by one block past
      each open end, restricted to the original blocks. */
  lemma BtdSandwichSpilloverIsExtendedProduct(a: seq<seq<int>>, b: seq<seq<int>>, n: int, i: int, j: int)
    requires IsBlockTridiagonal(a, n) && IsBlockTridiagonal(b, n) && n >= 2
    requires 0 <= i < n && 0 <= j < n
    ensures BtdSandwichBlock(a, b, n, true, i, j) == ExtendedSandwich(a, b, n, i, j)
  {
    var row := ExtendedSandwichRow(a, b, n, i, j);
    var through0 := SandwichThrough(a, b, n, i, j, -1);
    var throughN := SandwichThrough(a, b, n, i, j, n);
    SumFront(-1, n + 1, row);
    SumSplit(0, n, n + 1, row);
    assert ExtendedSandwich(a, b, n, i, j) == row(-1) + Sum(0, n, row) + row(n);
    forall k | 0 <= k < n
      ensures row(k) == SandwichRow(a, b, i, j, 0, n)(k) + through0(k) + throughN(k)
    {
      InteriorExtendedRow(a, b, n, i, j, k);
    }
    SumOfSums(0, n, row, SandwichRow(a, b, i, j, 0, n), through0, throughN);
    BtdSandwichIsDenseProduct(a, b, n, i, j);
    assert Sum(0, n, row) == BtdSandwichCore(a, b, n, i, j) + Sum(0, n, through0) + Sum(0, n, throughN);
    ThroughLeftBorder(a, b, n, i, j);
    ThroughRightBorder(a, b, n, i, j);
    LeftBorderRow(a, b, n, i, j);
    RightBorderRow(a, b, n, i, j);
    SandwichSpilloverSplits(a, b, n, i, j);
  }

  /** The six corrections of `btd_sandwich`, regrouped by which border
      index the continued product runs through. */
  lemma SandwichSpilloverSplits(a: seq<seq<int>>, b: seq<seq<int>>, n: int, i: int, j: int)
    requires n >= 2 && 0 <= i < n && 0 <= j < n
    requires IsBlockTridiagonal(a, n)
    ensures BtdSandwichSpillover(a, b, n, i, j) ==
      (if i == 0 then Block(a, 1, 0) * Block(b, 0, 1) * Block(a, 0, j) else 0)
      + (if i == n - 1 then Block(a, n - 2, n - 1) * Block(b, n - 1, n - 2) * Block(a, n - 1, j) else 0)
      + (if j == 0 then
           (if i == 0 then Block(a, 1, 0) * Block(b, 0, 0) * Block(a, 0, 1) else 0)
           + Block(a, i, 0) * Block(b, 1, 0) * Block(a, 0, 1)
         else 0)
      + (if j == n - 1 then
           Block(a, i, n - 1) * Block(b, n - 2, n - 1) * Block(a, n - 1, n - 2)
           + (if i == n - 1 then Block(a, n - 2, n - 1) * Block(b, n - 1, n - 1) * Block(a, n - 1, n - 2) else 0)
         else 0)
  {
    if i > 1 { OffBandIsZero(a, n, i, 0); }
    if i < n - 2 { OffBandIsZero(a, n, i, n - 1); }
    if j > 1 { OffBandIsZero(a, n, 0, j); }
    if j < n - 2 { OffBandIsZero(a, n, n - 1, j); }
  }

  /** For each `k`, the term of the continued sandwich whose middle index
      `m` is the border index `m0`. */
  function SandwichThrough(a: seq<seq<int>>, b: seq<seq<int>>, n: int, i: int, j: int, m0: int): int -> int
  {
    k => Extended(a, n, i, m0) * Extended(b, n, m0, k) * Extended(a, n, k, j)
  }

  /** An inner row of the continued sandwich is the dense row plus its two
      border terms. */
  lemma InteriorExtendedRow(a: seq<seq<int>>, b: seq<seq<int>>, n: int, i: int, j: int, k: int)
    requires IsBlockTridiagonal(a, n) && IsBlockTridiagonal(b, n)
    requires 0 <= i < n && 0 <= j < n && 0 <= k < n
    ensures ExtendedSandwichRow(a, b, n, i, j)(k) == SandwichRow(a, b, i, j, 0, n)(k)
              + SandwichThrough(a, b, n, i, j, -1)(k) + SandwichThrough(a, b, n, i, j, n)(k)
  {
    var t := ExtendedSandwichTerms(a, b, n, i, k, j);
    SumFront(-1, n + 1, t);
    SumSplit(0, n, n + 1, t);
    forall m | 0 <= m < n ensures t(m) == SandwichTerms(a, b, i, k, j)(m) {
      ExtendedInside(a, n, i, m);
      ExtendedInside(b, n, m, k);
      ExtendedInside(a, n, k, j);
    }
    SumCongruent(0, n, t, SandwichTerms(a, b, i, k, j));
    assert t(-1) == SandwichThrough(a, b, n, i, j, -1)(k);
    assert t(n) == SandwichThrough(a, b, n, i, j, n)(k);
  }

  lemma {:induction false} ThroughLeftBorder(a: seq<seq<int>>, b: seq<seq<int>>, n: int, i: int, j: int)
    requires IsBlockTridiagonal(a, n) && IsBlockTridiagonal(b, n) && n >= 2
    requires 0 <= i < n && 0 <= j < n
    ensures Sum(0, n, SandwichThrough(a, b, n, i, j, -1)) ==
            if i == 0 then Block(a, 1, 0) * Block(b, 0, 1) * Block(a, 0, j) else 0
  {
    var g := SandwichThrough(a, b, n, i, j, -1);
    CornerNeighbours(n);
    forall k | 0 <= k < n && k != 0 ensures g(k) == 0 {
      assert g(k) == Extended(a, n, i, -1) * Extended(b, n, -1, k) * Extended(a, n, k, j);
      ExtendedOffBand(b, n, -1, k);
    }
    SumSingle(0, n, g, 0);
    ExtendedInside(a, n, 0, j);
    assert g(0) == Extended(a, n, i, -1) * Block(b, 0, 1) * Block(a, 0, j);
    if i != 0 {
      assert Extended(a, n, i, -1) == 0;
    }
  }

  lemma {:induction false} ThroughRightBorder(a: seq<seq<int>>, b: seq<seq<int>>, n: int, i: int, j: int)
    requires IsBlockTridiagonal(a, n) && IsBlockTridiagonal(b, n) && n >= 2
    requires 0 <= i < n && 0 <= j < n
    ensures Sum(0, n, SandwichThrough(a, b, n, i, j, n)) ==
            if i == n - 1 then Block(a, n - 2, n - 1) * Block(b, n - 1, n - 2) * Block(a, n - 1, j) else 0
  {
    var g := SandwichThrough(a, b, n, i, j, n);
    CornerNeighbours(n);
    forall k | 0 <= k < n && k != n - 1 ensures g(k) == 0 {
      assert g(k) == Extended(a, n, i, n) * Extended(b, n, n, k) * Extended(a, n, k, j);
      ExtendedOffBand(b, n, n, k);
    }
    SumSingle(0, n, g, n - 1);
    ExtendedInside(a, n, n - 1, j);
    assert g(n - 1) == Extended(a, n, i, n) * Block(b, n - 1, n - 2) * Block(a, n - 1, j);
    if i != n - 1 {
      assert Extended(a, n, i, n) == 0;
    }
  }

  /** The row of the continued sandwich through border column `k = -1`. */
  lemma LeftBorderRow(a: seq<seq<int>>, b: seq<seq<int>>, n: int, i: int, j: int)
    requires IsBlockTridiagonal(a, n) && IsBlockTridiagonal(b, n) && n >= 2
    requires 0 <= i < n && 0 <= j < n
    ensures ExtendedSandwichRow(a, b, n, i, j)(-1) ==
            if j == 0 then
              (if i == 0 then Block(a, 1, 0) * Block(b, 0, 0) * Block(a, 0, 1) else 0)
              + Block(a, i, 0) * Block(b, 1, 0) * Block(a, 0, 1)
            else 0
  {
    var t := ExtendedSandwichTerms(a, b, n, i, -1, j);
    CornerNeighbours(n);
    if j != 0 {
      assert Extended(a, n, -1, j) == 0;
      SumOfZeros(-1, n + 1, t);
    } else {
      SumFront(-1, n + 1, t);
      forall m | 0 <= m < n + 1 && m != 0 ensures t(m) == 0 {
        assert Extended(b, n, m, -1) == 0;
      }
      SumSingle(0, n + 1, t, 0);
      ExtendedInside(a, n, i, 0);
      if i != 0 {
        assert Extended(a, n, i, -1) == 0;
      }
    }
  }

  /** The row of the continued sandwich through border column `k = n`. */
  lemma RightBorderRow(a: seq<seq<int>>, b: seq<seq<int>>, n: int, i: int, j: int)
    requires IsBlockTridiagonal(a, n) && IsBlockTridiagonal(b, n) && n >= 2
    requires 0 <= i < n && 0 <= j < n
    ensures ExtendedSandwichRow(a, b, n, i, j)(n) ==
            if j == n - 1 then
              Block(a, i, n - 1) * Block(b, n - 2, n - 1) * Block(a, n - 1, n - 2)
              + (if i == n - 1 then Block(a, n - 2, n - 1) * Block(b, n - 1, n - 1) * Block(a, n - 1, n - 2) else 0)
            else 0
  {
    var t := ExtendedSandwichTerms(a, b, n, i, n, j);
    CornerNeighbours(n);
    if j != n - 1 {
      assert Extended(a, n, n, j) == 0;
      SumOfZeros(-1, n + 1, t);
    } else {
      SumSplit(-1, n, n + 1, t);
      forall m | -1 <= m < n && m != n - 1 ensures t(m) == 0 {
        assert Extended(b, n, m, n) == 0;
      }
      SumSingle(-1, n, t, n - 1);
      ExtendedInside(a, n, i, n - 1);
      if i != n - 1 {
        assert Extended(a, n, i, n) == 0;
      }
    }
  }
}
