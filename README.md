# qttools core, modelled in Dafny

This project models three parts of the `qttools` quantum-transport toolbox and proves properties of the model.

- **Banded block products** (`qttools.datastructures.routines`):
  - `correct_out_range_index`, `btd_matmul`, `bd_matmul` and `btd_sandwich`.
  - A distributed block-sparse matrix is seen as its `n x n` grid of blocks.
  - A block is a single integer, so a block product `x @ y` becomes `x * y`. The factors stay in the source's order.
  - The output matrix is an `array2<int>` that the methods update in place, as the routines update `out.blocks`.
  - Each routine is proved block by block against a specification function.
  - For block-tridiagonal operands, the specification functions are shown to compute:
    - the dense product without spillover;
    - with spillover, the product of the operands grown by one block row and column at each open end, built as the spillover tests build their `dense_exp` reference.
- **Selected-block densification** (`qttools.utils.sparse_utils.densify_selected_blocks`):
  - The COO matrix is a class whose row, column and value lists the method extends.
  - The preallocated coordinate arrays are filled block by block at a running offset.
  - Duplicate summation is modelled by `StoredValue`, the value a coordinate holds once duplicates are summed. The model shows:
    - every value already stored is kept;
    - every point of every listed block becomes stored.
- **The discrete skeleton of the spectral open-boundary solver** (`qttools.obc.spectral.Spectral`):
  - the block sectioning and periodicity check of `_extract_subblocks`;
  - the mode mask of `_find_reflected_modes`;
  - the Kronecker layout of `_upscale_eigenmodes`;
  - the formula dispatch of `_compute_x_ii`;
  - batch promotion, the refinement loop and the `out` contract of `__call__`.

  Matrices are an abstract type. The numerical steps are values or functions the caller supplies:
  - the non-linear eigenvalue solve;
  - group velocities and logarithms;
  - inverses;
  - the block view.

Three details of the code that the model states outright:
- `_extract_subblocks` keeps the first `3k - (k - 1) = 2k + 1` blocks of row 0: the slice is `[: -k + 1]`.
- The periodicity check `view[0] == roll(view[i], -i)` holds exactly when row `i` is row 0 rotated right by `i` places (`Spectral.PeriodicMeansShiftedRows`).
- After promoting single matrices to a batch of one, `__call__` never removes that axis again, so unbatched input yields a stack of one (`Spectral.UnbatchedInputGivesBatchOfOne`).

## Model

| member | source | states |
|---|---|---|
| BlockIndex.Clamp | src/qttools/datastructures/routines.py:8-10 | `min(max(x, lo), hi)` lies in `[lo, hi]` and leaves a value already in range unchanged |
| BlockIndex.CorrectOutRangeIndex | src/qttools/datastructures/routines.py:4-12 | the corrected pair keeps the block diagonal `k - i`; its row is always inside the matrix; its column is inside whenever the diagonal exists in the matrix; a pair already inside comes back unchanged |
| BlockIndex.CorrectOutRangeIndexIdempotent | src/qttools/datastructures/routines.py:4-12 | correcting a corrected pair changes nothing |
| BlockIndex.CornerNeighbours | src/qttools/datastructures/routines.py:4-12 | the out-of-range neighbours of the corner blocks map to the blocks that the hand-written corrections of `btd_matmul`/`btd_sandwich` use: `(1,0)`, `(0,1)`, `(0,0)` and their mirror images at the far end |
| Routines.AddProducts | src/qttools/datastructures/routines.py:164-165 | the `k` loop adds `sum a[i,k]*b[k,j]` over its range to block `(i, j)` and changes no other block |
| Routines.BtdMatmul | src/qttools/datastructures/routines.py:130-173 | fails exactly when an operand is in the "nnz" state, leaving `out` untouched; otherwise every block of `out` is `BtdMatmulBlock`: the clipped band sum plus, with spillover, the two corner corrections |
| Routines.BdProduct | src/qttools/datastructures/routines.py:56-63 | one step adds the in-range product; with spillover an out-of-range step adds the product of the corrected blocks; without it adds nothing |
| Routines.AddBdProducts | src/qttools/datastructures/routines.py:55-63 | the `k` loop adds the sum of those terms to block `(i, j)` and changes no other block |
| Routines.BdMatmul | src/qttools/datastructures/routines.py:15-65 | fails exactly on an "nnz" operand, with `out` untouched; otherwise every block of `out` is `BdMatmulBlock` for the given diagonal counts and spillover flag |
| Routines.AddSandwichTerms | src/qttools/datastructures/routines.py:211-212 | the `m` loop adds `sum a[i,m]*b[m,k]*a[k,j]` to block `(i, j)` only |
| Routines.AddSandwichRows | src/qttools/datastructures/routines.py:210-212 | the `k` loop adds the double sum over `k` and `m` to block `(i, j)` only |
| Routines.AddSandwichSpillover | src/qttools/datastructures/routines.py:214-233 | the open-end corrections add `BtdSandwichSpillover` to each block; only the six corner blocks can change |
| Routines.BtdSandwich | src/qttools/datastructures/routines.py:176-233 | fails exactly on an "nnz" operand, with `out` untouched; otherwise every block of `out` is `BtdSandwichBlock` |
| RoutinesProofs.Extended | tests/datastructures/test_routines.py:128-146 | the grown matrix of the spillover test, on whole blocks: inside it is the grid itself, and every block is a block of the same diagonal of the grid at most one place away |
| RoutinesProofs.ExtendedOffBand | tests/datastructures/test_routines.py:128-146 | the grown matrix of a block-tridiagonal grid, copied from the first and last block rows and columns one place along the diagonal, is zero off the three central diagonals |
| RoutinesProofs.CorrectedBlockIsExtended | src/qttools/datastructures/routines.py:4-12 | for a block-tridiagonal grid with at least one block, the block that `correct_out_range_index` picks for any index pair in `[-1, n]` is the block of the grown matrix the spillover test builds: border row or column `-1` copied from block `(r + 1, c + 1)`, border row or column `n` from block `(r - 1, c - 1)` |
| RoutinesProofs.BtdMatmulIsDenseProduct | tests/datastructures/test_routines.py:38-54 | without spillover, `btd_matmul` of block-tridiagonal operands equals the dense product on every block |
| RoutinesProofs.BtdMatmulSpilloverIsExtendedProduct | src/qttools/datastructures/routines.py:162-173 | with spillover, `btd_matmul` equals the product of the operands continued by one block past each open end |
| RoutinesProofs.BdMatmulMatchesBtdMatmul | src/qttools/datastructures/routines.py:53-63 | with the default 3 and 5 diagonals and no spillover, `bd_matmul` and `btd_matmul` agree on every block for any operands |
| RoutinesProofs.BdMatmulSpilloverIsExtendedProduct | tests/datastructures/test_routines.py:112-163 | with spillover, `bd_matmul` of block-tridiagonal operands equals the continued product, which is the reference the spillover test builds |
| RoutinesProofs.BdMatmulSpilloverMatchesBtdMatmul | src/qttools/datastructures/routines.py:53-63 | with spillover, `bd_matmul` and `btd_matmul` agree on block-tridiagonal operands |
| RoutinesProofs.BtdSandwichIsDenseProduct | tests/datastructures/test_routines.py:57-72 | without spillover, `btd_sandwich` of block-tridiagonal operands equals the dense `a @ b @ a` |
| RoutinesProofs.BtdSandwichSpilloverIsLocal | src/qttools/datastructures/routines.py:214-233 | the corrections change no block outside the three at each corner |
| RoutinesProofs.SandwichSpilloverSplits | src/qttools/datastructures/routines.py:219-233 | the six corrections regroup by the border index the continued product runs through |
| RoutinesProofs.BtdSandwichSpilloverIsExtendedProduct | tests/datastructures/test_routines.py:166-216 | with spillover, `btd_sandwich` of block-tridiagonal operands equals `a @ b @ a` of the grown operands. The reference is the one the `bd_sandwich` spillover test builds; no test exercises `btd_sandwich` with spillover |
| SparseUtils.Unsign | src/qttools/utils/sparse_utils.py:42-43 | a negative block index counts from the end; in-range indices land in `[0, num_blocks)`; non-negative ones are unchanged |
| SparseUtils.BlockOffsets | src/qttools/utils/sparse_utils.py:33 | one more offset than blocks; the first is 0 and each next offset adds that block's size |
| SparseUtils.BlockOffsetsArePrefixSums | src/qttools/utils/sparse_utils.py:33 | offset `i` is the total size of the blocks before `i` |
| SparseUtils.BlockOffsetsMonotone | src/qttools/utils/sparse_utils.py:33 | offsets never decrease |
| SparseUtils.FirstNnzMonotone | src/qttools/utils/sparse_utils.py:35 | the running count of added entries never decreases along the block list |
| SparseUtils.BlockCoordsCover | src/qttools/utils/sparse_utils.py:48-53 | the `repeat`/`tile` coordinates of a block hold exactly the points of that block |
| SparseUtils.BlockCoordsRowMajor | src/qttools/utils/sparse_utils.py:48-53 | those coordinates come in strictly increasing row-major order, so no point appears twice |
| SparseUtils.ListedBlockCoords | src/qttools/utils/sparse_utils.py:40-53 | the coordinates appended for one listed block are as many as the product of its two block sizes |
| SparseUtils.FirstCoords | src/qttools/utils/sparse_utils.py:39-54 | the coordinates for the first `p` blocks are as many as the running count |
| SparseUtils.FirstCoordsPrefix | src/qttools/utils/sparse_utils.py:39-54 | the coordinates for the first `p` blocks are a prefix of those for the first `q >= p` blocks |
| SparseUtils.AddedBlockIsRowMajor | src/qttools/utils/sparse_utils.py:39-54 | the `p`-th listed block's coordinates sit in the added arrays at the running offset reached after the blocks before it |
| SparseUtils.ListedBlockInside | src/qttools/utils/sparse_utils.py:40-53 | every coordinate of a listed block lies inside the matrix |
| SparseUtils.AddedCoordsInside | src/qttools/utils/sparse_utils.py:39-54 | every appended coordinate lies inside the matrix |
| SparseUtils.FillBlock | src/qttools/utils/sparse_utils.py:47-53 | writes one block's row and column indices at the offset and keeps everything before it |
| SparseUtils.FillListedBlock | src/qttools/utils/sparse_utils.py:40-54 | one loop iteration extends the filled prefix by the next block's coordinates and advances the offset by its entry count |
| SparseUtils.AddedCoordinates | src/qttools/utils/sparse_utils.py:35-54 | the arrays of length `added_nnz` hold exactly the coordinates of all listed blocks, block after block |
| SparseUtils.DensifySelectedBlocks | src/qttools/utils/sparse_utils.py:8-62 | rejects an empty block list and out-of-range indices without touching `coo`; succeeds exactly when the list is non-empty and every index is in range, and then appends every listed block's coordinates with value zero, keeps the three lists of equal length and returns the same object |
| SparseUtils.ZeroEntriesStoreNothing | src/qttools/utils/sparse_utils.py:58-60 | zero-valued entries add nothing to any coordinate after duplicate summation |
| SparseUtils.StoredValueAppend | src/qttools/utils/sparse_utils.py:56-60 | summing duplicates over two appended lists adds their two sums |
| SparseUtils.DensifyKeepsStoredValues | src/qttools/utils/sparse_utils.py:56-60 | after densification every coordinate holds the value it held before |
| SparseUtils.DensifiedBlockIsStored | src/qttools/utils/sparse_utils.py:39-60 | after densification every point of every listed block is stored |
| Spectral.NonZero | src/qttools/obc/spectral.py:116 | no more blocks come back than went in, and none of them is all zero |
| Spectral.NonZeroAppend | src/qttools/obc/spectral.py:116 | filtering a concatenation filters each part |
| Spectral.NonZeroPositions | src/qttools/obc/spectral.py:116 | the positions listed are strictly increasing, hold non-zero blocks, and include every non-zero position below the bound |
| Spectral.NonZeroKeepsOrder | src/qttools/obc/spectral.py:116 | result block `t` is input block `idx[t]`, where `idx` lists the non-zero positions in increasing order, so order is kept and nothing is added or dropped |
| Spectral.NonZeroMultiplicity | src/qttools/obc/spectral.py:116 | each non-zero block occurs in the result exactly as often as in the input; zero blocks do not occur |
| Spectral.NonZeroIsExactFilter | src/qttools/obc/spectral.py:116 | the result is exactly the in-order comprehension: positions, order and multiplicities together |
| Spectral.Sections | src/qttools/obc/spectral.py:99-118 | the only error is `NotPeriodic`, with sectioning; with sectioning a result holds at most `2k + 1` blocks, none of them all zero |
| Spectral.ExtractSubblocks | src/qttools/obc/spectral.py:99-118 | returns the layer unchanged when `k == 1`; otherwise fails if some row is not row 0 rotated by its index, and else returns the non-zero blocks of the first `2k + 1` of row 0 |
| Spectral.SectionsContract | src/qttools/obc/spectral.py:100-112 | `k == 1` gives back the three blocks; with sectioning the call fails exactly when some row is not a rotation of row 0 |
| Spectral.SectionsAreNonZeroBlocks | src/qttools/obc/spectral.py:114-118 | on success, block `t` of the result is block `idx[t]` of row 0, where `idx` lists the non-zero positions below `2k + 1` in increasing order; each non-zero block occurs as often as among those first `2k + 1` |
| Spectral.RowZeroIsPeriodic | src/qttools/obc/spectral.py:110-111 | row 0 always passes its own check |
| Spectral.RollLeftRight | src/qttools/obc/spectral.py:111 | rotating left by `i` gives the target exactly when the row is the target rotated right by `i` |
| Spectral.PeriodicMeansShiftedRows | src/qttools/obc/spectral.py:108-112 | the check passes exactly when row `i` is row 0 rotated right by `i` for every `i` |
| Spectral.ReflectedModeMask | src/qttools/obc/spectral.py:176-178 | one mask entry per batch element and mode; `Spectral.MaskClassifiesModes` states what each entry is |
| Spectral.MaskClassifiesModes | src/qttools/obc/spectral.py:173-178 | a mode is kept exactly when it propagates into the lead or decays away within the window, and never for both reasons |
| Spectral.WiderWindowKeepsMore | src/qttools/obc/spectral.py:176-178 | raising `max_decay` never drops a mode |
| Spectral.EmptyWindowKeepsOnlyPropagating | src/qttools/obc/spectral.py:176-178 | when `max_decay <= min_decay` only propagating modes are kept |
| Spectral.KronIndex | src/qttools/obc/spectral.py:214-216 | entry `r` of `kron(p, v)` is `p[r / |v|] * v[r % |v|]` |
| Spectral.KronBlock | src/qttools/obc/spectral.py:214-216 | block `n` of `kron(p, v)` is `p[n] * v` |
| Spectral.UpscaledModeStartsWithReduced | src/qttools/obc/spectral.py:214-216 | the first section of an upscaled eigenvector is the reduced eigenvector |
| Spectral.UpscaledModeIsBlochPeriodic | src/qttools/obc/spectral.py:214-216 | each later section is `w` times the section before it |
| Spectral.UpscaledColumnIsKron | src/qttools/obc/spectral.py:212-216 | a column filled entry by entry with `w**(row / m) * v[row % m]` is `kron([w**0 .. w**(k-1)], v)` |
| Spectral.UpscaleMode | src/qttools/obc/spectral.py:214-216 | fills exactly column `(i, :, j)` with that layout and no other entry |
| Spectral.UpscaledArrayIsKron | src/qttools/obc/spectral.py:211-216 | an array filled that way holds the Kronecker layout in every column |
| Spectral.UpscaleEigenmodes | src/qttools/obc/spectral.py:205-219 | returns `vs` itself when `k == 1`; otherwise a fresh array `k` times taller whose every mode is `kron(powers of w, v)` |
| Spectral.ComputeXii | src/qttools/obc/spectral.py:254-283 | "self-energy" selects equation (13.1), "direct" selects equation (15), any other name is an error naming it |
| Spectral.Promote | src/qttools/obc/spectral.py:294-297 | single matrices become stacks of one, `a_ii`, `a_ij` and `a_ji` each in its own place; stacks pass through unchanged |
| Spectral.RefineStep | src/qttools/obc/spectral.py:306-307 | one refinement gives one matrix per batch element, each from that element's own blocks (`Spectral.RefinedPerBatch`) |
| Spectral.Refined | src/qttools/obc/spectral.py:305-307 | `n` refinements keep the batch size; `Spectral.RefinedAdds` and `Spectral.FixedPointIsStable` state how they compose |
| Spectral.RefinedPerBatch | src/qttools/obc/spectral.py:306-307 | refinement treats each batch element on its own |
| Spectral.FixedPointIsStable | src/qttools/obc/spectral.py:306-307 | a fixed point of the update is returned unchanged however many refinements run |
| Spectral.RefinedAdds | src/qttools/obc/spectral.py:306-307 | refining `m` and then `n` times is refining `m + n` times |
| Spectral.SurfaceGreensFunction | src/qttools/obc/spectral.py:285-314 | on success, one surface Green's function per batch element; the only errors the core itself raises are a non-periodic sectioning and an unknown formula name (numerical failures of the supplied steps are not modelled) |
| Spectral.Solve | src/qttools/obc/spectral.py:285-314 | an error leaves `out` untouched; with `out` the result is written into it and nothing is returned; without `out` the result is returned; in every case the result is `SurfaceGreensFunction` |
| Spectral.UnbatchedInputGivesBatchOfOne | src/qttools/obc/spectral.py:294-297 | single-matrix input yields a batch of one |
| Spectral.CallErrors | src/qttools/obc/spectral.py:299-303 | a non-periodic sectioning is reported first; otherwise, of the errors the core itself raises, the call fails exactly for an unknown formula name, whatever the configuration was built with |
| Spectral.RefinementCount | src/qttools/obc/spectral.py:305-307 | one more refinement iteration applies exactly one more update to the result |
| Spectral.UnrefinedIsReconstruction | src/qttools/obc/spectral.py:299-307 | with `num_ref_iterations = 0` the call returns, for each batch element, what the chosen formula (`self-energy` or `direct`) computes for it |
| Spectral.RefinedFromUnrefined | src/qttools/obc/spectral.py:299-307 | with the refinement update total, the call succeeds exactly when the unrefined call does, and then applies exactly `num_ref_iterations` refinement updates to the unrefined result |

## Left out

- Blocks are integers. The model does not capture matrix blocks, complex arithmetic or the non-commutativity of block products, though factors are kept in order. `allclose` comparisons in the tests are taken as exact equality.
- The DSBSparse storage itself is not part of this model: the block view, the stack dimension, distribution and communication, and the sparsity pattern of `out`. `out.data = 0` is modelled as zeroing every block of the grid.
- Routines.BdMatmul: only output blocks inside the matrix are modelled. The model assumes that the spillover writes to target blocks `j < 0` or `j >= num_blocks` never land on an in-range block. DSBSparse indexing, which is not part of this model, accepts negative block indices, so `out.blocks[0, -1]` could address block `(0, num_blocks - 1)`. The statement that every in-range block is `BdMatmulBlock` rests on this assumption.
- Routines.BdMatmul: with spillover it requires `in_num_diag // 2 + out_num_diag // 2 < num_blocks`. For smaller matrices the corrected indices can leave the matrix, and what happens then depends on DSBSparse indexing.
- Routines.BtdMatmul: with spillover it requires at least two blocks. The corrections read `a.blocks[1, 0]`, which does not exist for a single block.
- Routines.BtdSandwich: with spillover it requires at least two blocks, for the same reason: its corrections read `a.blocks[1, 0]` and `a.blocks[n - 2, n - 1]`.
- Routines: `out` is assumed not to alias `a` or `b`. The operands are values separate from the output array. In the code, `out.data` is zeroed before any block is read, so a call such as `btd_matmul(a, b, a)` would wipe an operand, which the model cannot express.
- The spillover lemmas require `n >= 2` and block-tridiagonal operands, the setting of the spillover tests.
- RoutinesProofs.Extended: the tests grow the dense matrix by `left_obc` and `right_obc` rows and columns, the sizes of the first and last blocks. The model works on whole blocks, so it grows the grid by one block at each end and does not capture the element-level shifts when block sizes differ.
- `bd_sandwich` is not part of this model. Its out-of-range indices `a_i, a_m, ...` are assigned only inside `if out_range`, so an in-range term reads unbound or stale indices.
- `product_sparsity_pattern` is not part of this model.
- SparseUtils.DensifySelectedBlocks: the `int32` dtype of the index arrays is not modelled, so indices are unbounded integers.
- SparseUtils.DensifySelectedBlocks: `sum_duplicates` is not carried out on the lists. Its effect is stated through `StoredValue` in the lemmas beside the method.
- Spectral.ExtractSubblocks: the periodicity check uses `xp.allclose`, which tolerates rounding. The model compares blocks with exact equality, so it reports `NotPeriodic` for grids whose rows agree only up to rounding, which the code accepts.
- Spectral.ReflectedModeMask: modes hold real numbers. The NaN and infinite values that the suppressed division by zero in the group-velocity loop can produce are not represented. In the code every comparison with NaN is false, so such a mode is dropped unless its `Im k` alone places it in the decay window.
- Spectral.Solve: it does not call `UpscaleEigenmodes`. The upscaling of the eigenvectors before `_compute_x_ii` is folded into the supplied per-batch `selfEnergy` and `direct` functions. The upscaling layout is modelled and proved on its own.
- Spectral.UpscaleEigenmodes: the layout is modelled before the normalisation by `xp.linalg.norm`. Floating-point square roots and division are left out.
- Spectral: the following are parameters of the model, not computed by it:
  - the NEVP solve;
  - the group-velocity loop and `-1j * log(w)` of `_find_reflected_modes`;
  - the matrix inverses and pseudoinverse of `_compute_x_ii` and of the refinement;
  - `_block_view`.
- Spectral: the per-batch fills of `x_ii` are also supplied per batch element. Each mode is reduced to its group velocity and `Im k = -ln |w|`, as the caller computes them.
- Spectral: the default `max_decay` is `log(r_o)`, or `log(10)` when the NEVP has no `r_o` attribute. It is a floating-point logarithm, so the configuration takes `max_decay` as given.
- Spectral: the `contact` argument of `__call__` is not used by the code and is not modelled.
- Spectral.CallableWith: it requires `block_sections >= 1`, stacks of equal batch size and a section grid of the right shape. A section count of zero, broadcasting of unequal batch sizes and malformed block views are not modelled.
- Spectral.Solve: it requires `out` to hold one matrix per batch element. The code also accepts a rank-2 `out` for an unbatched call, where numpy broadcasting writes the `(1, n, n)` result into it; the model does not capture that case.
- Spectral.SurfaceGreensFunction: the NEVP solve, the matrix inverses and the pseudoinverse are total functions in the model. The `LinAlgError` that `xp.linalg.inv` raises on a singular matrix, and any failure of the NEVP, are not modelled. The code lets them propagate to the caller, so a real call can fail where the model succeeds.
- Spectral.CallErrors: for the same reason, a periodic call with a known formula name always succeeds in the model. In the code it can still fail with a numerical error from the NEVP or an inverse.
- Spectral.RefinedFromUnrefined: the refinement update is total in the model. In the code the inverse of each refinement step can raise `LinAlgError`, so a refined call can fail where the unrefined call succeeds.
