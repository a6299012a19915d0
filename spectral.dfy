/** The discrete skeleton of the spectral open-boundary solver: how the
    periodic layer of a semi-infinite lead is cut into sections, which
    eigenmodes are kept, how reduced eigenvectors are spread back over the
    full layer, which reconstruction formula is chosen, how often the
    surface Green's function is refined and how it is handed back.

    Matrices are an abstract type `M`; the numerical steps (the non-linear
    eigenvalue solve, group velocities, logarithms, inverses) are values or
    functions the caller supplies. */
module Spectral {
  import opened DivMod
  import opened Wrappers

  /** A sectioning that is not periodic, or an unrecognised reconstruction
      formula (carrying its name). */
  datatype SpectralError = NotPeriodic | UnknownFormula(name: string)

  /** The solver's configuration, fixed at construction. Any formula name
      is accepted here; it is checked only when the solver is called. */
  datatype Config = Config(
    blockSections: nat,
    minDecay: real,
    maxDecay: real,
    numRefIterations: nat,
    xiiFormula: string)

  // ---------------------------------------------------------------------
  // Block sectioning

  /** `roll(row, -shift)`: the row rotated left by `shift` places. */
  function RollLeft<B>(row: seq<B>, shift: int): (r: seq<B>)
    requires |row| > 0
    ensures |r| == |row|
  {
    seq(|row|, c requires 0 <= c < |row| => row[(c + shift) % |row|])
  }

  /** The `k × 3k` grid of sub-blocks of the layer `a_ji | a_ii | a_ij`. */
  predicate IsSectionGrid<B>(view: seq<seq<B>>, k: nat)
  {
    |view| == k && forall i :: 0 <= i < k ==> |view[i]| == 3 * k
  }

  /** Every row, rotated left by its own index, equals the first row. */
  predicate Periodic<B(==)>(view: seq<seq<B>>, k: nat)
    requires k >= 1 && IsSectionGrid(view, k)
  {
    forall i :: 0 <= i < k ==> view[0] == RollLeft(view[i], i)
  }

  /** The blocks of `s` that are not all zero, in their order. */
  function NonZero<B>(s: seq<B>, isZero: B -> bool): (r: seq<B>)
    ensures |r| <= |s|
    ensures forall t :: 0 <= t < |r| ==> !isZero(r[t])
  {
    if |s| == 0 then []
    else (if isZero(s[0]) then [] else [s[0]]) + NonZero(s[1..], isZero)
  }

  /** Filtering distributes over concatenation. */
  lemma {:induction false} NonZeroAppend<B>(a: seq<B>, b: seq<B>, isZero: B -> bool)
    ensures NonZero(a + b, isZero) == NonZero(a, isZero) + NonZero(b, isZero)
  {
    if |a| > 0 {
      assert (a + b)[1..] == a[1..] + b;
      NonZeroAppend(a[1..], b, isZero);
    } else {
      assert a + b == b;
    }
  }

  lemma PrefixStep<T>(s: seq<T>, n: nat)
    requires 0 < n <= |s|
    ensures s[..n] == s[..n - 1] + [s[n - 1]]
  {
  }

  /** The positions below `n` of the blocks of `s` that are not all zero,
      in increasing order. */
  function NonZeroPositions<B>(s: seq<B>, n: nat, isZero: B -> bool): (idx: seq<nat>)
    requires n <= |s|
    ensures forall t :: 0 <= t < |idx| ==> idx[t] < n && !isZero(s[idx[t]])
    ensures forall t, u :: 0 <= t < u < |idx| ==> idx[t] < idx[u]
    ensures forall c :: 0 <= c < n && !isZero(s[c]) ==> c in idx
  {
    if n == 0 then []
    else NonZeroPositions(s, n - 1, isZero) + (if isZero(s[n - 1]) then [] else [n - 1])
  }

  /** `NonZero` keeps exactly the blocks at those positions and in their
      order: block `t` of the result is block `idx[t]` of the input. */
  lemma {:induction false} NonZeroKeepsOrder<B>(s: seq<B>, n: nat, isZero: B -> bool)
    requires n <= |s|
    ensures var r, idx := NonZero(s[..n], isZero), NonZeroPositions(s, n, isZero);
            |r| == |idx| && forall t :: 0 <= t < |r| ==> r[t] == s[idx[t]]
  {
    if n > 0 {
      NonZeroKeepsOrder(s, n - 1, isZero);
      var front, idx := NonZero(s[..n - 1], isZero), NonZeroPositions(s, n - 1, isZero);
      var last := if isZero(s[n - 1]) then [] else [s[n - 1]];
      assert NonZero([s[n - 1]], isZero) == last + NonZero([s[n - 1]][1..], isZero);
      PrefixStep(s, n);
      NonZeroAppend(s[..n - 1], [s[n - 1]], isZero);
      assert NonZero(s[..n], isZero) == front + last;
      assert NonZeroPositions(s, n, isZero) == idx + (if isZero(s[n - 1]) then [] else [n - 1]);
    }
  }

  /** Each non-zero block occurs in the result as often as in the input,
      and no zero block occurs at all. */
  lemma {:induction false} NonZeroMultiplicity<B>(s: seq<B>, isZero: B -> bool)
    ensures forall x :: multiset(NonZero(s, isZero))[x] == if isZero(x) then 0 else multiset(s)[x]
  {
    if |s| > 0 {
      NonZeroMultiplicity(s[1..], isZero);
      assert s == [s[0]] + s[1..];
    }
  }

  /** `NonZero` is exactly the filter of the comprehension: the blocks at
      the non-zero positions, in order, each as often as in the input. */
  lemma NonZeroIsExactFilter<B>(s: seq<B>, isZero: B -> bool)
    ensures var r, idx := NonZero(s, isZero), NonZeroPositions(s, |s|, isZero);
            && |r| == |idx|
            && (forall t :: 0 <= t < |r| ==> r[t] == s[idx[t]])
            && (forall x :: multiset(r)[x] == if isZero(x) then 0 else multiset(s)[x])
  {
    NonZeroKeepsOrder(s, |s|, isZero);
    assert s[..|s|] == s;
    NonZeroMultiplicity(s, isZero);
  }

  /** What `_extract_subblocks` returns: the layer itself without
      sectioning; otherwise, for a periodic grid, the non-zero blocks among
      the first `3k - (k - 1)` of row 0. */
  function Sections<B(==)>(k: nat, aji: B, aii: B, aij: B, view: seq<seq<B>>, isZero: B -> bool)
    : (r: Result<seq<B>, SpectralError>)
    requires k >= 1
    requires k > 1 ==> IsSectionGrid(view, k)
    ensures r.Err? ==> k > 1 && r.error == NotPeriodic
    ensures r.Ok? && k > 1 ==> |r.value| <= 2 * k + 1 && forall t :: 0 <= t < |r.value| ==> !isZero(r.value[t])
  {
    if k == 1 then Ok([aji, aii, aij])
    else if !Periodic(view, k) then Err(NotPeriodic)
    else Ok(NonZero(view[0][..3 * k - (k - 1)], isZero))
  }

  /** `_extract_subblocks`: checks the rows one by one and stops at the
      first one that is not a rotation of row 0. */
  method ExtractSubblocks<B(==)>(k: nat, aji: B, aii: B, aij: B, view: seq<seq<B>>, isZero: B -> bool)
    returns (r: Result<seq<B>, SpectralError>)
    requires k >= 1
    requires k > 1 ==> IsSectionGrid(view, k)
    ensures r == Sections(k, aji, aii, aij, view, isZero)
  {
    if k == 1 {
      return Ok([aji, aii, aij]);
    }
    for i := 0 to k
      invariant forall i' :: 0 <= i' < i ==> view[0] == RollLeft(view[i'], i')
    {
      if view[0] != RollLeft(view[i], i) {
        return Err(NotPeriodic);
      }
    }
    var blocks := view[0][..3 * k - (k - 1)];
    return Ok(NonZero(blocks, isZero));
  }

  /** Without sectioning the three blocks come back unchanged when
      `k == 1`; otherwise the call fails exactly when some row is not a
      rotation of row 0. */
  lemma SectionsContract<B>(k: nat, aji: B, aii: B, aij: B, view: seq<seq<B>>, isZero: B -> bool)
    requires k >= 1
    requires k > 1 ==> IsSectionGrid(view, k)
    ensures k == 1 ==> Sections(k, aji, aii, aij, view, isZero) == Ok([aji, aii, aij])
    ensures k > 1 ==> (Sections(k, aji, aii, aij, view, isZero).Err? <==>
                       exists i :: 0 <= i < k && view[0] != RollLeft(view[i], i))
  {
  }

  /** On success with sectioning, the call returns the non-zero blocks
      among the first `2k + 1` of row 0, in their order and with their
      repetitions: block `t` of the result is block `idx[t]` of row 0,
      where `idx` lists the non-zero positions below `2k + 1` in
      increasing order. */
  lemma SectionsAreNonZeroBlocks<B>(k: nat, aji: B, aii: B, aij: B, view: seq<seq<B>>, isZero: B -> bool)
    requires k > 1 && IsSectionGrid(view, k)
    requires Sections(k, aji, aii, aij, view, isZero).Ok?
    ensures var blocks := Sections(k, aji, aii, aij, view, isZero).value;
            var head := view[0][..2 * k + 1];
            var idx := NonZeroPositions(head, 2 * k + 1, isZero);
            && |blocks| == |idx|
            && (forall t :: 0 <= t < |blocks| ==> blocks[t] == view[0][idx[t]])
            && (forall x :: multiset(blocks)[x] == if isZero(x) then 0 else multiset(head)[x])
  {
    var head := view[0][..2 * k + 1];
    assert 3 * k - (k - 1) == 2 * k + 1;
    assert Sections(k, aji, aii, aij, view, isZero).value == NonZero(head, isZero);
    NonZeroIsExactFilter(head, isZero);
  }

  /** Row 0 always passes its own check. */
  lemma RowZeroIsPeriodic<B>(view: seq<seq<B>>, k: nat)
    requires k >= 1 && IsSectionGrid(view, k)
    ensures view[0] == RollLeft(view[0], 0)
  {
    forall c | 0 <= c < 3 * k
      ensures RollLeft(view[0], 0)[c] == view[0][c]
    {
      DivModUnique(0, c, 3 * k);
    }
  }

  /** The row rotated right by `shift` places. */
  function RollRight<B>(row: seq<B>, shift: int): (r: seq<B>)
    requires |row| > 0
    ensures |r| == |row|
  {
    seq(|row|, d requires 0 <= d < |row| => row[(d - shift) % |row|])
  }

  /** Rotating forwards and back by the same amount is the identity. */
  lemma ShiftBack(c: int, i: int, len: int)
    requires 0 <= c < len
    ensures ((c + i) % len - i) % len == c
    ensures ((c - i) % len + i) % len == c
  {
    var q := (c + i) / len;
    assert (c + i) % len - i == (-q) * len + c;
    DivModUnique(-q, c, len);
    var q' := (c - i) / len;
    assert (c - i) % len + i == (-q') * len + c;
    DivModUnique(-q', c, len);
  }

  /** Rotating a row left by `i` gives `target` exactly when the row is
      `target` rotated right by `i`. */
  lemma RollLeftRight<B>(row: seq<B>, target: seq<B>, i: int)
    requires |row| == |target| > 0
    ensures target == RollLeft(row, i) <==> row == RollRight(target, i)
  {
    if target == RollLeft(row, i) {
      UndoRollLeft(row, i);
    }
    if row == RollRight(target, i) {
      UndoRollRight(target, i);
    }
  }

  /** Rotating left and then right by `i` gives the row back. */
  lemma UndoRollLeft<B>(row: seq<B>, i: int)
    requires |row| > 0
    ensures row == RollRight(RollLeft(row, i), i)
  {
    var len := |row|;
    var target := RollLeft(row, i);
    forall d | 0 <= d < len
      ensures row[d] == RollRight(target, i)[d]
    {
      var e := (d - i) % len;
      ShiftBack(d, i, len);
      assert RollRight(target, i)[d] == target[e] == row[(e + i) % len];
    }
  }

  /** Rotating right and then left by `i` gives the row back. */
  lemma UndoRollRight<B>(target: seq<B>, i: int)
    requires |target| > 0
    ensures target == RollLeft(RollRight(target, i), i)
  {
    var len := |target|;
    var row := RollRight(target, i);
    forall c | 0 <= c < len
      ensures target[c] == RollLeft(row, i)[c]
    {
      var e := (c + i) % len;
      ShiftBack(c, i, len);
      assert RollLeft(row, i)[c] == row[e] == target[(e - i) % len];
    }
  }

  /** The periodicity check says that row `i` of the grid is row 0 rotated
      RIGHT by `i` places: the grid is block-circulant and determined by
      its first row. */
  lemma PeriodicMeansShiftedRows<B>(view: seq<seq<B>>, k: nat)
    requires k >= 1 && IsSectionGrid(view, k)
    ensures Periodic(view, k) <==> forall i :: 0 <= i < k ==> view[i] == RollRight(view[0], i)
  {
    forall i | 0 <= i < k
      ensures view[0] == RollLeft(view[i], i) <==> view[i] == RollRight(view[0], i)
    {
      RollLeftRight(view[i], view[0], i);
    }
  }

  // ---------------------------------------------------------------------
  // Mode selection

  /** What the mask needs of one eigenmode: the real part of its group
      velocity `dE/dk` and the imaginary part of its wavevector
      `k = -i log w`, that is `-ln |w|`. */
  datatype Mode = Mode(groupVelocity: real, decay: real)

  function Abs(x: real): real
  {
    if x < 0.0 then -x else x
  }

  /** A propagating mode travelling into the lead. */
  predicate PropagatesIntoLead(m: Mode, minDecay: real)
  {
    m.groupVelocity < 0.0 && Abs(m.decay) < minDecay
  }

  /** An evanescent mode decaying away from the device, within the window. */
  predicate DecaysAway(m: Mode, minDecay: real, maxDecay: real)
  {
    m.decay < -minDecay && m.decay > -maxDecay
  }

  /** The mask entry of one mode: true for the modes that are kept. */
  predicate Retained(m: Mode, minDecay: real, maxDecay: real)
  {
    PropagatesIntoLead(m, minDecay) || DecaysAway(m, minDecay, maxDecay)
  }

  /** The mask of `_find_reflected_modes`, one entry per batch element and
      mode, each computed from that mode alone. */
  function ReflectedModeMask(modes: seq<seq<Mode>>, minDecay: real, maxDecay: real): (mask: seq<seq<bool>>)
    ensures |mask| == |modes|
    ensures forall i :: 0 <= i < |modes| ==> |mask[i]| == |modes[i]|
  {
    seq(|modes|, i requires 0 <= i < |modes| =>
      seq(|modes[i]|, j requires 0 <= j < |modes[i]| => Retained(modes[i][j], minDecay, maxDecay)))
  }

  /** A mode is kept exactly when it propagates into the lead or decays away
      from the device, and never for both reasons at once: a propagating
      mode has `|Im k| < min_decay`, a decaying one `Im k < -min_decay`. */
  lemma MaskClassifiesModes(modes: seq<seq<Mode>>, minDecay: real, maxDecay: real, i: int, j: int)
    requires 0 <= i < |modes| && 0 <= j < |modes[i]|
    ensures ReflectedModeMask(modes, minDecay, maxDecay)[i][j] <==>
            PropagatesIntoLead(modes[i][j], minDecay) || DecaysAway(modes[i][j], minDecay, maxDecay)
    ensures !(PropagatesIntoLead(modes[i][j], minDecay) && DecaysAway(modes[i][j], minDecay, maxDecay))
  {
  }

  /** Widening the decay window never drops a mode. */
  lemma WiderWindowKeepsMore(m: Mode, minDecay: real, maxDecay: real, maxDecay': real)
    requires maxDecay <= maxDecay'
    ensures Retained(m, minDecay, maxDecay) ==> Retained(m, minDecay, maxDecay')
  {
  }

  /** With an empty decay window (`max_decay <= min_decay`) only
      propagating modes are kept. */
  lemma EmptyWindowKeepsOnlyPropagating(m: Mode, minDecay: real, maxDecay: real)
    requires maxDecay <= minDecay
    ensures Retained(m, minDecay, maxDecay) <==> PropagatesIntoLead(m, minDecay)
  {
  }

  // ---------------------------------------------------------------------
  // Eigenvector upscaling

  datatype Complex = Complex(re: real, im: real)

  function Mul(a: Complex, b: Complex): Complex
  {
    Complex(a.re * b.re - a.im * b.im, a.re * b.im + a.im * b.re)
  }

  /** `w ** n`, by repeated multiplication. */
  function Pow(w: Complex, n: nat): Complex
  {
    if n == 0 then Complex(1.0, 0.0) else Mul(Pow(w, n - 1), w)
  }

  /** `[w ** n for n in range(k)]`. */
  function Powers(w: Complex, k: nat): seq<Complex>
  {
    seq(k, n requires 0 <= n < k => Pow(w, n))
  }

  function Scale(a: Complex, v: seq<Complex>): seq<Complex>
  {
    seq(|v|, t requires 0 <= t < |v| => Mul(a, v[t]))
  }

  /** Kronecker product of two vectors: `p[0]·v`, then `p[1]·v`, and so on. */
  function Kron(p: seq<Complex>, v: seq<Complex>): (r: seq<Complex>)
    ensures |r| == |p| * |v|
  {
    if |p| == 0 then []
    else
      assert |p| * |v| == (|p| - 1) * |v| + |v|;
      Kron(p[..|p| - 1], v) + Scale(p[|p| - 1], v)
  }

  /** Entry `r` of the Kronecker product is `p[r / |v|] · v[r % |v|]`. */
  lemma {:induction false} KronIndex(p: seq<Complex>, v: seq<Complex>, r: int)
    requires 0 <= r < |p| * |v|
    ensures Kron(p, v)[r] == Mul(p[r / |v|], v[r % |v|])
  {
    var m := |v|;
    assert m > 0 && 0 <= r / m < |p| by { QuotientBound(r, |p|, m); }
    var q, c := r / m, r % m;
    Decompose(r, m);
    KronBlock(p, v, q, c);
  }

  /** Block `n` of the Kronecker product is `p[n] · v`. */
  lemma {:induction false} KronBlock(p: seq<Complex>, v: seq<Complex>, n: int, t: int)
    requires 0 <= n < |p| && 0 <= t < |v|
    ensures n * |v| + t < |p| * |v|
    ensures Kron(p, v)[n * |v| + t] == Mul(p[n], v[t])
    decreases |p|
  {
    var last := |p| - 1;
    var front, back := Kron(p[..last], v), Scale(p[last], v);
    assert Kron(p, v) == front + back;
    if n == last {
      assert Kron(p, v)[n * |v| + t] == back[t];
    } else {
      KronBlock(p[..last], v, n, t);
      assert p[..last][n] == p[n];
      assert Kron(p, v)[n * |v| + t] == front[n * |v| + t];
    }
  }

  /** `(a·b)·c == b·(a·c)` for complex numbers. */
  lemma MulRotate(a: Complex, b: Complex, c: Complex)
    ensures Mul(Mul(a, b), c) == Mul(b, Mul(a, c))
  {
    var ab, ac := Mul(a, b), Mul(a, c);
    assert Mul(ab, c).re == Mul(b, ac).re by {
      RotateRe(a.re, a.im, b.re, b.im, c.re, c.im);
    }
    assert Mul(ab, c).im == Mul(b, ac).im by {
      RotateIm(a.re, a.im, b.re, b.im, c.re, c.im);
    }
  }

  /** The real part of `MulRotate`, written out on the components. */
  lemma RotateRe(ar: real, ai: real, br: real, bi: real, cr: real, ci: real)
    ensures (ar * br - ai * bi) * cr - (ar * bi + ai * br) * ci
         == br * (ar * cr - ai * ci) - bi * (ar * ci + ai * cr)
  {
    assert (ar * br - ai * bi) * cr == ar * br * cr - ai * bi * cr;
    assert (ar * bi + ai * br) * ci == ar * bi * ci + ai * br * ci;
    assert br * (ar * cr - ai * ci) == ar * br * cr - ai * br * ci;
    assert bi * (ar * ci + ai * cr) == ar * bi * ci + ai * bi * cr;
  }

  /** The imaginary part of `MulRotate`, written out on the components. */
  lemma RotateIm(ar: real, ai: real, br: real, bi: real, cr: real, ci: real)
    ensures (ar * br - ai * bi) * ci + (ar * bi + ai * br) * cr
         == br * (ar * ci + ai * cr) + bi * (ar * cr - ai * ci)
  {
    assert (ar * br - ai * bi) * ci == ar * br * ci - ai * bi * ci;
    assert (ar * bi + ai * br) * cr == ar * bi * cr + ai * br * cr;
    assert br * (ar * ci + ai * cr) == ar * br * ci + ai * br * cr;
    assert bi * (ar * cr - ai * ci) == ar * bi * cr - ai * bi * ci;
  }

  /** The first section of an upscaled eigenvector is the reduced
      eigenvector itself. */
  lemma {:induction false} UpscaledModeStartsWithReduced(w: Complex, v: seq<Complex>, k: nat, t: int)
    requires 0 <= t < |v|
    requires k >= 1
    ensures t < k * |v|
    ensures Kron(Powers(w, k), v)[t] == v[t]
  {
    KronBlock(Powers(w, k), v, 0, t);
    assert 0 * |v| + t == t;
  }

  /** An upscaled eigenvector is Bloch-periodic: past the first section,
      each entry is the eigenvalue times the entry one section earlier. */
  lemma {:induction false} UpscaledModeIsBlochPeriodic(w: Complex, v: seq<Complex>, k: nat, r: int)
    requires |v| <= r < k * |v|
    ensures Kron(Powers(w, k), v)[r] == Mul(w, Kron(Powers(w, k), v)[r - |v|])
  {
    var p, m := Powers(w, k), |v|;
    QuotientBound(r, k, m);
    var q, c := r / m, r % m;
    assert r == q * m + c;
    assert q >= 1;
    assert r - m == (q - 1) * m + c;
    DivModUnique(q - 1, c, m);
    KronIndex(p, v, r);
    KronIndex(p, v, r - m);
    assert p[q] == Pow(w, q) == Mul(Pow(w, q - 1), w);
    MulRotate(Pow(w, q - 1), w, v[c]);
  }

  /** Column `(i, ·, j)` of a three-dimensional array. */
  function Column<T>(a: array3<T>, i: int, j: int): (r: seq<T>)
    requires 0 <= i < a.Length0 && 0 <= j < a.Length2
    reads a
    ensures |r| == a.Length1
  {
    seq(a.Length1, row requires 0 <= row < a.Length1 reads a => a[i, row, j])
  }

  /** A column filled entry by entry with `w ** (row / m) · v[row % m]`, as
      `kron` lays it out, is the Kronecker product of the powers of `w`
      with `v`. */
  lemma {:induction false} UpscaledColumnIsKron(r: array3<Complex>, w: Complex, vs: array3<Complex>, i: int, j: int, k: nat)
    requires 0 <= i < r.Length0 == vs.Length0 && 0 <= j < r.Length2 == vs.Length2
    requires r.Length1 == vs.Length1 * k
    requires forall row :: 0 <= row < r.Length1 ==>
               r[i, row, j] == Mul(Pow(w, row / vs.Length1), vs[i, row % vs.Length1, j])
    ensures Column(r, i, j) == Kron(Powers(w, k), Column(vs, i, j))
  {
    forall row | 0 <= row < r.Length1
      ensures Column(r, i, j)[row] == Kron(Powers(w, k), Column(vs, i, j))[row]
    {
      UpscaledEntryIsKron(r, w, vs, i, j, k, row);
    }
  }

  /** One entry of such a column is the matching entry of the Kronecker
      product. */
  lemma {:induction false} UpscaledEntryIsKron(r: array3<Complex>, w: Complex, vs: array3<Complex>, i: int, j: int, k: nat, row: int)
    requires 0 <= i < r.Length0 == vs.Length0 && 0 <= j < r.Length2 == vs.Length2
    requires r.Length1 == vs.Length1 * k && 0 <= row < r.Length1
    requires r[i, row, j] == Mul(Pow(w, row / vs.Length1), vs[i, row % vs.Length1, j])
    ensures row < |Kron(Powers(w, k), Column(vs, i, j))|
    ensures Column(r, i, j)[row] == Kron(Powers(w, k), Column(vs, i, j))[row]
  {
    var p, v, m := Powers(w, k), Column(vs, i, j), vs.Length1;
    assert m > 0 && row / m < k by { QuotientBound(row, k, m); }
    var q, c := row / m, row % m;
    assert 0 <= c < m;
    KronIndex(p, v, row);
    assert p[q] == Pow(w, q) && v[c] == vs[i, c, j];
  }

  /** `vs_upscaled[i, :, j] = kron(...)`: fills one column, entry `row`
      being `w ** (row / m) · vs[i, row % m, j]`, and nothing else. */
  method UpscaleMode(r: array3<Complex>, vs: array3<Complex>, i: int, j: int, w: Complex)
    requires r != vs
    requires 0 <= i < r.Length0 == vs.Length0 && 0 <= j < r.Length2 == vs.Length2
    requires vs.Length1 == 0 ==> r.Length1 == 0
    modifies r
    ensures forall i', row, j' ::
              0 <= i' < r.Length0 && 0 <= row < r.Length1 && 0 <= j' < r.Length2 && (i' != i || j' != j) ==>
              r[i', row, j'] == old(r[i', row, j'])
    ensures forall row :: 0 <= row < r.Length1 ==>
              r[i, row, j] == Mul(Pow(w, row / vs.Length1), vs[i, row % vs.Length1, j])
  {
    var subblockSize := vs.Length1;
    forall row | 0 <= row < r.Length1 {
      r[i, row, j] := Mul(Pow(w, row / subblockSize), vs[i, row % subblockSize, j]);
    }
  }

  /** Every column of an array filled by `UpscaleMode` is the Kronecker
      product of the powers of its eigenvalue with its reduced eigenvector. */
  lemma UpscaledArrayIsKron(r: array3<Complex>, ws: array2<Complex>, vs: array3<Complex>, k: nat)
    requires r.Length0 == vs.Length0 == ws.Length0 && r.Length2 == vs.Length2 == ws.Length1
    requires r.Length1 == vs.Length1 * k
    requires forall i, row, j :: 0 <= i < r.Length0 && 0 <= row < r.Length1 && 0 <= j < r.Length2 ==>
               r[i, row, j] == Mul(Pow(ws[i, j], row / vs.Length1), vs[i, row % vs.Length1, j])
    ensures forall i, j :: 0 <= i < r.Length0 && 0 <= j < r.Length2 ==>
              Column(r, i, j) == Kron(Powers(ws[i, j], k), Column(vs, i, j))
  {
    forall i, j | 0 <= i < r.Length0 && 0 <= j < r.Length2
      ensures Column(r, i, j) == Kron(Powers(ws[i, j], k), Column(vs, i, j))
    {
      UpscaledColumnIsKron(r, ws[i, j], vs, i, j, k);
    }
  }

  /** `_upscale_eigenmodes` before normalisation: without sectioning the
      eigenvectors themselves come back; otherwise a new array whose mode
      `j` of batch element `i` is `kron([w**0, ..., w**(k-1)], v)` for the
      eigenvalue `w` and reduced eigenvector `v` of that mode. */
  method UpscaleEigenmodes(blockSections: nat, ws: array2<Complex>, vs: array3<Complex>)
    returns (r: array3<Complex>)
    requires blockSections >= 1
    requires ws.Length0 == vs.Length0 && ws.Length1 == vs.Length2
    ensures blockSections == 1 ==> r == vs
    ensures blockSections > 1 ==>
              && fresh(r)
              && r.Length0 == vs.Length0
              && r.Length1 == vs.Length1 * blockSections
              && r.Length2 == vs.Length2
              && forall i, j :: 0 <= i < r.Length0 && 0 <= j < r.Length2 ==>
                   Column(r, i, j) == Kron(Powers(ws[i, j], blockSections), Column(vs, i, j))
  {
    if blockSections == 1 {
      return vs;
    }
    var batchsize, subblockSize, numModes := vs.Length0, vs.Length1, vs.Length2;
    var blockSize := subblockSize * blockSections;
    r := new Complex[batchsize, blockSize, numModes];
    for i := 0 to batchsize
      invariant forall i', row, j' :: 0 <= i' < i && 0 <= row < blockSize && 0 <= j' < numModes ==>
                  r[i', row, j'] == Mul(Pow(ws[i', j'], row / subblockSize), vs[i', row % subblockSize, j'])
    {
      for j := 0 to numModes
        invariant forall i', row, j' ::
                    0 <= row < blockSize && 0 <= j' < numModes && (0 <= i' < i || (i' == i && j' < j)) ==>
                    r[i', row, j'] == Mul(Pow(ws[i', j'], row / subblockSize), vs[i', row % subblockSize, j'])
      {
        UpscaleMode(r, vs, i, j, ws[i, j]);
      }
    }
    UpscaledArrayIsKron(r, ws, vs, blockSections);
  }

  // ---------------------------------------------------------------------
  // Reconstruction formula, refinement and the solver call

  /** `_compute_x_ii`: the formula is chosen by name when the solver runs;
      `selfEnergy` and `direct` stand for what the two formulas compute. */
  function ComputeXii<X>(formula: string, selfEnergy: X, direct: X): (r: Result<X, SpectralError>)
    ensures formula == "self-energy" ==> r == Ok(selfEnergy)
    ensures formula == "direct" ==> r == Ok(direct)
    ensures formula != "self-energy" && formula != "direct" ==> r == Err(UnknownFormula(formula))
  {
    if formula == "self-energy" then Ok(selfEnergy)
    else if formula == "direct" then Ok(direct)
    else Err(UnknownFormula(formula))
  }

  /** The three blocks of the periodic layer, each a stack over the batch. */
  datatype Operands<M> = Operands(aii: seq<M>, aij: seq<M>, aji: seq<M>)

  /** The blocks as the caller passes them: single matrices (rank 2) or
      stacks of matrices (rank 3). */
  datatype Input<M> = Matrices(ii: M, ij: M, ji: M) | Stacks(operands: Operands<M>)

  /** A single matrix is promoted to a stack of one. */
  function Promote<M>(input: Input<M>): (ops: Operands<M>)
    ensures input.Matrices? ==> |ops.aii| == |ops.aij| == |ops.aji| == 1
    ensures input.Matrices? ==> ops.aii[0] == input.ii && ops.aij[0] == input.ij && ops.aji[0] == input.ji
    ensures input.Stacks? ==> ops == input.operands
  {
    match input
    case Matrices(ii, ij, ji) => Operands([ii], [ij], [ji])
    case Stacks(ops) => ops
  }

  predicate SameBatch<M>(ops: Operands<M>)
  {
    |ops.aii| == |ops.aij| == |ops.aji|
  }

  /** One refinement `x ← inv(a_ii − a_ji·x·a_ij)`, batch element by batch
      element; `update` stands for the per-element expression. */
  function RefineStep<M>(update: (M, M, M, M) -> M, ops: Operands<M>, x: seq<M>): (r: seq<M>)
    requires SameBatch(ops) && |x| == |ops.aii|
    ensures |r| == |x|
  {
    seq(|x|, b requires 0 <= b < |x| => update(ops.aii[b], ops.aij[b], ops.aji[b], x[b]))
  }

  /** `n` refinements in a row. */
  function Refined<M>(update: (M, M, M, M) -> M, ops: Operands<M>, x: seq<M>, n: nat): (r: seq<M>)
    requires SameBatch(ops) && |x| == |ops.aii|
    ensures |r| == |x|
  {
    if n == 0 then x else RefineStep(update, ops, Refined(update, ops, x, n - 1))
  }

  /** `n` refinements of a single batch element on its own. */
  function RefinedAt<M>(update: (M, M, M, M) -> M, ops: Operands<M>, b: int, y: M, n: nat): M
    requires SameBatch(ops) && 0 <= b < |ops.aii|
  {
    if n == 0 then y else update(ops.aii[b], ops.aij[b], ops.aji[b], RefinedAt(update, ops, b, y, n - 1))
  }

  /** Batch elements are refined independently of each other. */
  lemma {:induction false} RefinedPerBatch<M>(update: (M, M, M, M) -> M, ops: Operands<M>, x: seq<M>, n: nat, b: int)
    requires SameBatch(ops) && |x| == |ops.aii|
    requires 0 <= b < |x|
    ensures Refined(update, ops, x, n)[b] == RefinedAt(update, ops, b, x[b], n)
  {
    if n > 0 {
      RefinedPerBatch(update, ops, x, n - 1, b);
    }
  }

  /** A fixed point of the update stays put however many refinements run. */
  lemma {:induction false} FixedPointIsStable<M>(update: (M, M, M, M) -> M, ops: Operands<M>, x: seq<M>, n: nat)
    requires SameBatch(ops) && |x| == |ops.aii|
    requires RefineStep(update, ops, x) == x
    ensures Refined(update, ops, x, n) == x
  {
    if n > 0 {
      FixedPointIsStable(update, ops, x, n - 1);
    }
  }

  /** Refining `m` times and then `n` times is refining `m + n` times. */
  lemma {:induction false} RefinedAdds<M>(update: (M, M, M, M) -> M, ops: Operands<M>, x: seq<M>, m: nat, n: nat)
    requires SameBatch(ops) && |x| == |ops.aii|
    ensures Refined(update, ops, Refined(update, ops, x, m), n) == Refined(update, ops, x, m + n)
  {
    if n > 0 {
      RefinedAdds(update, ops, x, m, n - 1);
    }
  }

  /** The numerical steps of the solver, which this model does not compute. */
  datatype Numerics<!M> = Numerics(
    // `_block_view` twice: the k × 3k grid of sub-block stacks of the layer
    blockView: (Operands<M>, nat) -> seq<seq<seq<M>>>,
    // `not xp.any(block)` for a stack of sub-blocks
    isZero: seq<M> -> bool,
    // the NEVP solve followed by the group velocity and wavevector of every mode
    modes: seq<seq<M>> -> seq<seq<Mode>>,
    // equation (13.1) and equation (15) for batch element `b`, given the
    // promoted blocks, the extracted blocks and the mode mask
    selfEnergy: (Operands<M>, seq<seq<M>>, seq<seq<bool>>, nat) -> M,
    direct: (Operands<M>, seq<seq<M>>, seq<seq<bool>>, nat) -> M,
    // `inv(a_ii - a_ji @ x @ a_ij)` for one batch element
    update: (M, M, M, M) -> M)

  /** What the solver computes needs of its inputs: a positive section
      count, stacks of equal batch size and, with sectioning, a grid of the
      right shape. */
  predicate CallableWith<M>(cfg: Config, input: Input<M>, num: Numerics<M>)
  {
    && cfg.blockSections >= 1
    && SameBatch(Promote(input))
    && (cfg.blockSections > 1 ==> IsSectionGrid(num.blockView(Promote(input), cfg.blockSections), cfg.blockSections))
  }

  /** The surface Green's function `__call__` produces, or the error it raises. */
  function SurfaceGreensFunction<M(==)>(cfg: Config, input: Input<M>, num: Numerics<M>)
    : (r: Result<seq<M>, SpectralError>)
    requires CallableWith(cfg, input, num)
    // one surface Green's function per batch element
    ensures r.Ok? ==> |r.value| == |Promote(input).aii|
    // the only errors the core itself raises (the supplied numerical steps are total)
    ensures r.Err? ==> r.error == NotPeriodic || r.error == UnknownFormula(cfg.xiiFormula)
  {
    var ops := Promote(input);
    var batch := |ops.aii|;
    var view := num.blockView(ops, cfg.blockSections);
    match Sections(cfg.blockSections, ops.aji, ops.aii, ops.aij, view, num.isZero)
    case Err(e) => Err(e)
    case Ok(blocks) =>
      var mask := ReflectedModeMask(num.modes(blocks), cfg.minDecay, cfg.maxDecay);
      var selfEnergy := seq(batch, b requires 0 <= b < batch => num.selfEnergy(ops, blocks, mask, b));
      var direct := seq(batch, b requires 0 <= b < batch => num.direct(ops, blocks, mask, b));
      match ComputeXii(cfg.xiiFormula, selfEnergy, direct)
      case Err(e) => Err(e)
      case Ok(x) => Ok(Refined(num.update, ops, x, cfg.numRefIterations))
  }

  /** `Spectral.__call__`: promotes single matrices to a batch of one,
      extracts the blocks, reconstructs and refines the surface Green's
      function; writes it into `out` and returns nothing when `out` is
      given, returns it otherwise. A failing call leaves `out` untouched. */
  method Solve<M(==)>(cfg: Config, input: Input<M>, num: Numerics<M>, out: array?<M>)
    returns (r: Result<Option<seq<M>>, SpectralError>)
    requires CallableWith(cfg, input, num)
    requires out != null ==> out.Length == |Promote(input).aii|
    modifies out
    ensures r.Err? ==> SurfaceGreensFunction(cfg, input, num) == Err(r.error)
    ensures r.Err? && out != null ==> unchanged(out)
    ensures r.Ok? ==> SurfaceGreensFunction(cfg, input, num).Ok?
    ensures r.Ok? && out == null ==> r.value == Some(SurfaceGreensFunction(cfg, input, num).value)
    ensures r.Ok? && out != null ==> r.value == None && out[..] == SurfaceGreensFunction(cfg, input, num).value
  {
    var ops := Promote(input);
    var batch := |ops.aii|;
    var view := num.blockView(ops, cfg.blockSections);
    var extracted := ExtractSubblocks(cfg.blockSections, ops.aji, ops.aii, ops.aij, view, num.isZero);
    if extracted.Err? {
      return Err(extracted.error);
    }
    var blocks := extracted.value;
    var mask := ReflectedModeMask(num.modes(blocks), cfg.minDecay, cfg.maxDecay);
    var selfEnergy := seq(batch, b requires 0 <= b < batch => num.selfEnergy(ops, blocks, mask, b));
    var direct := seq(batch, b requires 0 <= b < batch => num.direct(ops, blocks, mask, b));
    var computed := ComputeXii(cfg.xiiFormula, selfEnergy, direct);
    if computed.Err? {
      return Err(computed.error);
    }
    var x0 := computed.value;
    var x := x0;
    for iteration := 0 to cfg.numRefIterations
      invariant x == Refined(num.update, ops, x0, iteration)
    {
      x := RefineStep(num.update, ops, x);
    }
    if out != null {
      forall b | 0 <= b < out.Length {
        out[b] := x[b];
      }
      return Ok(None);
    }
    return Ok(Some(x));
  }

  /** Unbatched input comes back as a stack of one: the promoted batch
      axis is not removed again. */
  lemma UnbatchedInputGivesBatchOfOne<M>(cfg: Config, input: Input<M>, num: Numerics<M>)
    requires CallableWith(cfg, input, num)
    requires input.Matrices?
    ensures SurfaceGreensFunction(cfg, input, num).Ok? ==> |SurfaceGreensFunction(cfg, input, num).value| == 1
  {
  }

  /** The error the core raises (the supplied numerical steps never fail
      here): a non-periodic sectioning is reported first,
      before the formula name is looked at; the formula name is checked on
      every call, whatever the configuration was built with. */
  lemma CallErrors<M>(cfg: Config, input: Input<M>, num: Numerics<M>)
    requires CallableWith(cfg, input, num)
    ensures var ops := Promote(input);
            var view := num.blockView(ops, cfg.blockSections);
            var known := cfg.xiiFormula == "self-energy" || cfg.xiiFormula == "direct";
            && (cfg.blockSections > 1 && !Periodic(view, cfg.blockSections) ==>
                  SurfaceGreensFunction(cfg, input, num) == Err(NotPeriodic))
            && ((cfg.blockSections == 1 || Periodic(view, cfg.blockSections)) ==>
                  (SurfaceGreensFunction(cfg, input, num).Err? <==> !known))
            && (!known && SurfaceGreensFunction(cfg, input, num).Err? ==>
                  SurfaceGreensFunction(cfg, input, num).error in {NotPeriodic, UnknownFormula(cfg.xiiFormula)})
  {
  }

  /** Each further refinement applies one more update to the result. */
  lemma RefinementCount<M>(cfg: Config, input: Input<M>, num: Numerics<M>)
    requires CallableWith(cfg, input, num)
    requires SurfaceGreensFunction(cfg, input, num).Ok?
    ensures var more := cfg.(numRefIterations := cfg.numRefIterations + 1);
            && CallableWith(more, input, num)
            && SurfaceGreensFunction(more, input, num).Ok?
            && SurfaceGreensFunction(more, input, num).value
               == RefineStep(num.update, Promote(input), SurfaceGreensFunction(cfg, input, num).value)
  {
  }

  /** Without refinement the reconstruction is returned as computed: each
      batch element is what the chosen formula gives for it. */
  lemma UnrefinedIsReconstruction<M>(cfg: Config, input: Input<M>, num: Numerics<M>)
    requires CallableWith(cfg, input, num) && cfg.numRefIterations == 0
    requires var ops := Promote(input);
             Sections(cfg.blockSections, ops.aji, ops.aii, ops.aij, num.blockView(ops, cfg.blockSections), num.isZero).Ok?
    ensures var ops := Promote(input);
            var blocks := Sections(cfg.blockSections, ops.aji, ops.aii, ops.aij,
                                   num.blockView(ops, cfg.blockSections), num.isZero).value;
            var mask := ReflectedModeMask(num.modes(blocks), cfg.minDecay, cfg.maxDecay);
            var x := SurfaceGreensFunction(cfg, input, num);
            && (cfg.xiiFormula == "self-energy" ==>
                  x.Ok? && |x.value| == |ops.aii| &&
                  forall b :: 0 <= b < |ops.aii| ==> x.value[b] == num.selfEnergy(ops, blocks, mask, b))
            && (cfg.xiiFormula == "direct" ==>
                  x.Ok? && |x.value| == |ops.aii| &&
                  forall b :: 0 <= b < |ops.aii| ==> x.value[b] == num.direct(ops, blocks, mask, b))
  {
  }

  /** The call applies exactly `num_ref_iterations` updates to the result
      it would return without refinement, and succeeds or fails with it. */
  lemma {:induction false} RefinedFromUnrefined<M>(cfg: Config, input: Input<M>, num: Numerics<M>)
    requires CallableWith(cfg, input, num)
    ensures var base := cfg.(numRefIterations := 0);
            && CallableWith(base, input, num)
            && (SurfaceGreensFunction(cfg, input, num).Ok? <==> SurfaceGreensFunction(base, input, num).Ok?)
            && (SurfaceGreensFunction(cfg, input, num).Ok? ==>
                  |SurfaceGreensFunction(base, input, num).value| == |Promote(input).aii| &&
                  SurfaceGreensFunction(cfg, input, num).value
                  == Refined(num.update, Promote(input), SurfaceGreensFunction(base, input, num).value, cfg.numRefIterations))
    decreases cfg.numRefIterations
  {
    if cfg.numRefIterations > 0 {
      var fewer := cfg.(numRefIterations := cfg.numRefIterations - 1);
      RefinedFromUnrefined(fewer, input, num);
      assert fewer.(numRefIterations := 0) == cfg.(numRefIterations := 0);
      if SurfaceGreensFunction(fewer, input, num).Ok? {
        RefinementCount(fewer, input, num);
        assert fewer.(numRefIterations := fewer.numRefIterations + 1) == cfg;
      } else {
        assert SurfaceGreensFunction(cfg, input, num).Err?;
      }
    }
  }
}
