/** Selected-block densification of a sparse matrix in coordinate (COO)
    format: every coordinate of each listed block is appended with the value
    zero, so that once duplicates are summed the block is stored densely and
    every value already stored is kept. */
module SparseUtils {
  import opened DivMod
  import opened Wrappers

  /** The two ways the block list can be rejected: an empty list has no
      second axis to take the product over, and a block index outside
      `[-num_blocks, num_blocks)` cannot index the block sizes. Both are
      raised before the matrix is touched. */
  datatype DensifyError = AxisError | IndexError

  /** A COO matrix: parallel row, column and value lists. */
  class CooMatrix {
    var row: seq<int>
    var col: seq<int>
    var data: seq<int>

    ghost predicate Valid()
      reads this
    {
      |row| == |col| == |data|
    }
  }

  /** Sum of a list of block sizes. */
  function SizeSum(sizes: seq<nat>): nat
  {
    if |sizes| == 0 then 0 else SizeSum(sizes[..|sizes| - 1]) + sizes[|sizes| - 1]
  }

  /** `hstack(([0], cumsum(block_sizes)))`: where each block starts. */
  function BlockOffsets(sizes: seq<nat>): (r: seq<nat>)
    ensures |r| == |sizes| + 1
    ensures r[0] == 0
    ensures forall i {:trigger sizes[i]} :: 0 <= i < |sizes| ==> r[i + 1] == r[i] + sizes[i]
  {
    if |sizes| == 0 then [0]
    else
      var prev := BlockOffsets(sizes[..|sizes| - 1]);
      prev + [prev[|sizes| - 1] + sizes[|sizes| - 1]]
  }

  /** The offset of block `i` is the total size of the blocks before it. */
  lemma {:induction false} BlockOffsetsArePrefixSums(sizes: seq<nat>, i: int)
    requires 0 <= i <= |sizes|
    ensures BlockOffsets(sizes)[i] == SizeSum(sizes[..i])
  {
    if i > 0 {
      BlockOffsetsArePrefixSums(sizes, i - 1);
      assert sizes[..i][..i - 1] == sizes[..i - 1];
    }
  }

  /** Offsets never decrease, so block `i` ends inside the matrix. */
  lemma {:induction false} BlockOffsetsMonotone(sizes: seq<nat>, i: int, j: int)
    requires 0 <= i <= j <= |sizes|
    ensures BlockOffsets(sizes)[i] <= BlockOffsets(sizes)[j]
    decreases j - i
  {
    if i < j {
      BlockOffsetsMonotone(sizes, i, j - 1);
      assert BlockOffsets(sizes)[j] == BlockOffsets(sizes)[j - 1] + sizes[j - 1];
    }
  }

  /** A negative block index counts from the end. */
  function Unsign(i: int, numBlocks: int): (r: int)
    ensures -numBlocks <= i < numBlocks ==> 0 <= r < numBlocks
    ensures 0 <= i ==> r == i
    // the same block, counted from the start
    ensures r == i || r == i + numBlocks
  {
    if i < 0 then numBlocks + i else i
  }

  /** Both indices of block `b` can index the block sizes. */
  predicate InRange(b: (int, int), numBlocks: int)
  {
    -numBlocks <= b.0 < numBlocks && -numBlocks <= b.1 < numBlocks
  }

  /** Every listed block can index the block sizes. */
  predicate IndicesInRange(blocks: seq<(int, int)>, numBlocks: int)
  {
    forall p :: 0 <= p < |blocks| ==> InRange(blocks[p], numBlocks)
  }

  /** Number of entries in the listed block `b`. */
  function BlockNnz(sizes: seq<nat>, b: (int, int)): nat
    requires InRange(b, |sizes|)
  {
    sizes[Unsign(b.0, |sizes|)] * sizes[Unsign(b.1, |sizes|)]
  }

  /** Number of entries appended for the first `p` listed blocks. */
  function FirstNnz(sizes: seq<nat>, blocks: seq<(int, int)>, p: nat): nat
    requires IndicesInRange(blocks, |sizes|) && p <= |blocks|
  {
    if p == 0 then 0 else FirstNnz(sizes, blocks, p - 1) + BlockNnz(sizes, blocks[p - 1])
  }

  /** `sum(prod(block_sizes[blocks], axis=1))`. */
  function AddedNnz(sizes: seq<nat>, blocks: seq<(int, int)>): nat
    requires IndicesInRange(blocks, |sizes|)
  {
    FirstNnz(sizes, blocks, |blocks|)
  }

  /** The running count never decreases along the block list. */
  lemma {:induction false} FirstNnzMonotone(sizes: seq<nat>, blocks: seq<(int, int)>, p: nat, q: nat)
    requires IndicesInRange(blocks, |sizes|)
    requires p <= q <= |blocks|
    ensures FirstNnz(sizes, blocks, p) <= FirstNnz(sizes, blocks, q)
    decreases q - p
  {
    if p < q {
      FirstNnzMonotone(sizes, blocks, p, q - 1);
    }
  }

  /** The coordinates of one block as the routine produces them:
      `repeat(arange(rs), cs) + ro` paired with `tile(arange(cs), rs) + co`. */
  function BlockCoords(ro: int, co: int, rs: nat, cs: nat): (r: seq<(int, int)>)
    ensures |r| == rs * cs
  {
    seq(rs * cs, t requires 0 <= t < rs * cs => (ro + t / cs, co + t % cs))
  }

  /** A block's coordinate list holds exactly the points of the block. */
  lemma BlockCoordsCover(ro: int, co: int, rs: nat, cs: nat, x: int, y: int)
    ensures (x, y) in BlockCoords(ro, co, rs, cs) <==> ro <= x < ro + rs && co <= y < co + cs
  {
    var s := BlockCoords(ro, co, rs, cs);
    if (x, y) in s {
      var t :| 0 <= t < |s| && s[t] == (x, y);
      QuotientBound(t, rs, cs);
    }
    if ro <= x < ro + rs && co <= y < co + cs {
      var t := (x - ro) * cs + (y - co);
      MulStep(x - ro, rs, cs);
      DivModUnique(x - ro, y - co, cs);
      assert s[t] == (x, y);
    }
  }

  /** Row-major lexicographic order on coordinates. */
  predicate Before(p: (int, int), q: (int, int))
  {
    p.0 < q.0 || (p.0 == q.0 && p.1 < q.1)
  }

  /** A block's coordinates come in strictly increasing row-major order, so
      each of them appears exactly once. */
  lemma BlockCoordsRowMajor(ro: int, co: int, rs: nat, cs: nat)
    ensures forall t :: 0 <= t < rs * cs - 1 ==>
      Before(BlockCoords(ro, co, rs, cs)[t], BlockCoords(ro, co, rs, cs)[t + 1])
  {
    var s := BlockCoords(ro, co, rs, cs);
    forall t | 0 <= t < rs * cs - 1
      ensures Before(s[t], s[t + 1])
    {
      NextIndex(t, cs);
    }
  }

  /** The coordinates appended for the `p`-th listed block: its rows and
      columns start at the offsets of its (unsigned) block indices. */
  function ListedBlockCoords(sizes: seq<nat>, blocks: seq<(int, int)>, p: nat): (r: seq<(int, int)>)
    requires IndicesInRange(blocks, |sizes|) && p < |blocks|
    ensures |r| == BlockNnz(sizes, blocks[p])
  {
    assert InRange(blocks[p], |sizes|);
    var i, j := Unsign(blocks[p].0, |sizes|), Unsign(blocks[p].1, |sizes|);
    var offsets := BlockOffsets(sizes);
    BlockCoords(offsets[i], offsets[j], sizes[i], sizes[j])
  }

  /** The coordinates appended for the first `p` listed blocks, block after
      block. */
  function FirstCoords(sizes: seq<nat>, blocks: seq<(int, int)>, p: nat): (r: seq<(int, int)>)
    requires IndicesInRange(blocks, |sizes|) && p <= |blocks|
    ensures |r| == FirstNnz(sizes, blocks, p)
  {
    if p == 0 then [] else FirstCoords(sizes, blocks, p - 1) + ListedBlockCoords(sizes, blocks, p - 1)
  }

  /** The coordinates appended for the whole block list. */
  function AddedCoords(sizes: seq<nat>, blocks: seq<(int, int)>): (r: seq<(int, int)>)
    requires IndicesInRange(blocks, |sizes|)
    ensures |r| == AddedNnz(sizes, blocks)
  {
    FirstCoords(sizes, blocks, |blocks|)
  }

  /** The coordinates for the first `p` blocks begin those for the first
      `q >= p`. */
  lemma {:induction false} FirstCoordsPrefix(sizes: seq<nat>, blocks: seq<(int, int)>, p: nat, q: nat)
    requires IndicesInRange(blocks, |sizes|)
    requires p <= q <= |blocks|
    ensures FirstNnz(sizes, blocks, p) <= FirstNnz(sizes, blocks, q)
    ensures FirstCoords(sizes, blocks, q)[..FirstNnz(sizes, blocks, p)] == FirstCoords(sizes, blocks, p)
    decreases q - p
  {
    if p < q {
      FirstCoordsPrefix(sizes, blocks, p, q - 1);
      var front, back := FirstCoords(sizes, blocks, q - 1), ListedBlockCoords(sizes, blocks, q - 1);
      assert FirstCoords(sizes, blocks, q) == front + back;
      PrefixOfAppend(front, back, FirstNnz(sizes, blocks, p));
      assert FirstCoords(sizes, blocks, q)[..FirstNnz(sizes, blocks, p)] == FirstCoords(sizes, blocks, p);
    } else {
      WholePrefix(FirstCoords(sizes, blocks, q));
      assert FirstCoords(sizes, blocks, q)[..FirstNnz(sizes, blocks, p)] == FirstCoords(sizes, blocks, p);
    }
  }

  /** The prefix of a sequence as long as the sequence is the sequence. */
  lemma WholePrefix<T>(a: seq<T>)
    ensures a[..|a|] == a
  {
  }

  /** Appending leaves a prefix of the front part as it was. */
  lemma PrefixOfAppend<T>(a: seq<T>, b: seq<T>, n: nat)
    requires n <= |a|
    ensures (a + b)[..n] == a[..n]
  {
  }

  /** The entries appended for the `p`-th listed block are exactly the
      points of that block in row-major order, at the position where the
      running offset stood. */
  lemma {:induction false} AddedBlockIsRowMajor(sizes: seq<nat>, blocks: seq<(int, int)>, p: nat)
    requires IndicesInRange(blocks, |sizes|)
    requires p < |blocks|
    ensures FirstNnz(sizes, blocks, p) + |ListedBlockCoords(sizes, blocks, p)| <= AddedNnz(sizes, blocks)
    ensures AddedCoords(sizes, blocks)[FirstNnz(sizes, blocks, p)..FirstNnz(sizes, blocks, p) + |ListedBlockCoords(sizes, blocks, p)|]
         == ListedBlockCoords(sizes, blocks, p)
  {
    FirstCoordsPrefix(sizes, blocks, p + 1, |blocks|);
    SliceOfPrefix(AddedCoords(sizes, blocks), FirstCoords(sizes, blocks, p), ListedBlockCoords(sizes, blocks, p));
  }

  /** If `prefix + block` begins `whole`, then `block` sits in `whole`
      right after `prefix`. */
  lemma SliceOfPrefix<T>(whole: seq<T>, prefix: seq<T>, block: seq<T>)
    requires |prefix + block| <= |whole| && whole[..|prefix + block|] == prefix + block
    ensures whole[|prefix|..|prefix| + |block|] == block
  {
    forall t | 0 <= t < |block| ensures whole[|prefix| + t] == block[t] {
      assert whole[|prefix| + t] == whole[..|prefix + block|][|prefix| + t];
    }
  }

  /** Every coordinate of a listed block lies inside the matrix, whose
      side is the sum of the block sizes. */
  lemma {:induction false} ListedBlockInside(sizes: seq<nat>, blocks: seq<(int, int)>, p: nat)
    requires IndicesInRange(blocks, |sizes|) && p < |blocks|
    ensures forall t :: 0 <= t < |ListedBlockCoords(sizes, blocks, p)| ==>
      0 <= ListedBlockCoords(sizes, blocks, p)[t].0 < SizeSum(sizes) &&
      0 <= ListedBlockCoords(sizes, blocks, p)[t].1 < SizeSum(sizes)
  {
    assert InRange(blocks[p], |sizes|);
    var i, j := Unsign(blocks[p].0, |sizes|), Unsign(blocks[p].1, |sizes|);
    var offsets := BlockOffsets(sizes);
    var s := ListedBlockCoords(sizes, blocks, p);
    BlockOffsetsMonotone(sizes, i + 1, |sizes|);
    BlockOffsetsMonotone(sizes, j + 1, |sizes|);
    BlockOffsetsArePrefixSums(sizes, |sizes|);
    assert sizes[..|sizes|] == sizes;
    forall t | 0 <= t < |s|
      ensures 0 <= s[t].0 < SizeSum(sizes) && 0 <= s[t].1 < SizeSum(sizes)
    {
      BlockCoordsCover(offsets[i], offsets[j], sizes[i], sizes[j], s[t].0, s[t].1);
    }
  }

  /** Every coordinate appended for the first `p` listed blocks lies inside
      the matrix. */
  lemma {:induction false} AddedCoordsInside(sizes: seq<nat>, blocks: seq<(int, int)>, p: nat)
    requires IndicesInRange(blocks, |sizes|) && p <= |blocks|
    ensures forall k :: 0 <= k < |FirstCoords(sizes, blocks, p)| ==>
      0 <= FirstCoords(sizes, blocks, p)[k].0 < SizeSum(sizes) &&
      0 <= FirstCoords(sizes, blocks, p)[k].1 < SizeSum(sizes)
  {
    if p > 0 {
      AddedCoordsInside(sizes, blocks, p - 1);
      ListedBlockInside(sizes, blocks, p - 1);
    }
  }

  /** The first and second components of a coordinate list. */
  function Rows(s: seq<(int, int)>): (r: seq<int>)
    ensures |r| == |s| && forall k :: 0 <= k < |s| ==> r[k] == s[k].0
  {
    seq(|s|, k requires 0 <= k < |s| => s[k].0)
  }

  function Cols(s: seq<(int, int)>): (r: seq<int>)
    ensures |r| == |s| && forall k :: 0 <= k < |s| ==> r[k] == s[k].1
  {
    seq(|s|, k requires 0 <= k < |s| => s[k].1)
  }

  lemma RowsColsAppend(a: seq<(int, int)>, b: seq<(int, int)>)
    ensures Rows(a + b) == Rows(a) + Rows(b)
    ensures Cols(a + b) == Cols(a) + Cols(b)
  {
  }

  function Zeros(n: nat): (r: seq<int>)
    ensures |r| == n && forall k :: 0 <= k < n ==> r[k] == 0
  {
    seq(n, _ => 0)
  }

  /** Writes the coordinates of one block at `offset` in the preallocated
      row and column arrays, leaving the entries before it as they were. */
  method FillBlock(addedRows: array<int>, addedCols: array<int>, offset: nat,
                   rowOffset: int, colOffset: int, rowSize: nat, colSize: nat)
    requires addedRows != addedCols
    requires offset + rowSize * colSize <= addedRows.Length == addedCols.Length
    modifies addedRows, addedCols
    ensures addedRows[..offset + rowSize * colSize]
         == old(addedRows[..offset]) + Rows(BlockCoords(rowOffset, colOffset, rowSize, colSize))
    ensures addedCols[..offset + rowSize * colSize]
         == old(addedCols[..offset]) + Cols(BlockCoords(rowOffset, colOffset, rowSize, colSize))
  {
    var nnz := rowSize * colSize;
    forall t | 0 <= t < nnz {
      addedRows[offset + t] := t / colSize + rowOffset;
    }
    forall t | 0 <= t < nnz {
      addedCols[offset + t] := t % colSize + colOffset;
    }
  }

  /** One iteration of the loop over the block list: writes the
      coordinates of the `p`-th listed block at the running offset and
      returns the offset after it. */
  method FillListedBlock(blockSizes: seq<nat>, blockOffsets: seq<nat>, blocks: seq<(int, int)>, p: nat,
                         addedRows: array<int>, addedCols: array<int>, offset: nat)
    returns (next: nat)
    requires IndicesInRange(blocks, |blockSizes|) && p < |blocks|
    requires blockOffsets == BlockOffsets(blockSizes)
    requires addedRows != addedCols
    requires addedRows.Length == addedCols.Length == AddedNnz(blockSizes, blocks)
    requires offset == FirstNnz(blockSizes, blocks, p) <= AddedNnz(blockSizes, blocks)
    requires addedRows[..offset] == Rows(FirstCoords(blockSizes, blocks, p))
    requires addedCols[..offset] == Cols(FirstCoords(blockSizes, blocks, p))
    modifies addedRows, addedCols
    ensures next == FirstNnz(blockSizes, blocks, p + 1) <= AddedNnz(blockSizes, blocks)
    ensures addedRows[..next] == Rows(FirstCoords(blockSizes, blocks, p + 1))
    ensures addedCols[..next] == Cols(FirstCoords(blockSizes, blocks, p + 1))
  {
    var numBlocks := |blockSizes|;
    assert InRange(blocks[p], numBlocks);
    var i := Unsign(blocks[p].0, numBlocks);
    var j := Unsign(blocks[p].1, numBlocks);
    var rowSize := blockSizes[i];
    var colSize := blockSizes[j];
    FirstNnzMonotone(blockSizes, blocks, p + 1, |blocks|);
    RowsColsAppend(FirstCoords(blockSizes, blocks, p), ListedBlockCoords(blockSizes, blocks, p));
    FillBlock(addedRows, addedCols, offset, blockOffsets[i], blockOffsets[j], rowSize, colSize);
    next := offset + rowSize * colSize;
  }

  /** The preallocated row and column arrays of the appended entries,
      filled block after block from a running write offset that ends
      exactly at the number of added entries. */
  method AddedCoordinates(blockSizes: seq<nat>, blocks: seq<(int, int)>)
    returns (addedRows: array<int>, addedCols: array<int>)
    requires IndicesInRange(blocks, |blockSizes|)
    ensures fresh(addedRows) && fresh(addedCols)
    ensures addedRows[..] == Rows(AddedCoords(blockSizes, blocks))
    ensures addedCols[..] == Cols(AddedCoords(blockSizes, blocks))
  {
    var blockOffsets := BlockOffsets(blockSizes);
    var addedNnz := AddedNnz(blockSizes, blocks);
    addedRows := new int[addedNnz];
    addedCols := new int[addedNnz];

    var offset := 0;
    for p := 0 to |blocks|
      invariant offset == FirstNnz(blockSizes, blocks, p) <= addedNnz
      invariant addedRows[..offset] == Rows(FirstCoords(blockSizes, blocks, p))
      invariant addedCols[..offset] == Cols(FirstCoords(blockSizes, blocks, p))
    {
      offset := FillListedBlock(blockSizes, blockOffsets, blocks, p, addedRows, addedCols, offset);
    }
    assert addedRows[..] == addedRows[..offset];
    assert addedCols[..] == addedCols[..offset];
  }

  /** `densify_selected_blocks`: rejects an empty block list or an index out
      of range before touching `coo`; otherwise appends the coordinates of
      every listed block, with value zero, after the stored entries, and
      returns the same matrix. */
  method DensifySelectedBlocks(coo: CooMatrix, blockSizes: seq<nat>, blocks: seq<(int, int)>)
    returns (r: Result<CooMatrix, DensifyError>)
    modifies coo
    ensures |blocks| == 0 ==> r == Err(AxisError)
    ensures |blocks| > 0 && !IndicesInRange(blocks, |blockSizes|) ==> r == Err(IndexError)
    ensures r.Err? ==> unchanged(coo)
    ensures old(coo.Valid()) ==> coo.Valid()
    ensures r.Ok? <==> |blocks| > 0 && IndicesInRange(blocks, |blockSizes|)
    ensures r.Ok? ==> r.value == coo
    ensures r.Ok? ==> coo.row == old(coo.row) + Rows(AddedCoords(blockSizes, blocks))
    ensures r.Ok? ==> coo.col == old(coo.col) + Cols(AddedCoords(blockSizes, blocks))
    ensures r.Ok? ==> coo.data == old(coo.data) + Zeros(AddedNnz(blockSizes, blocks))
  {
    var numBlocks := |blockSizes|;
    if |blocks| == 0 {
      return Err(AxisError);
    }
    if !IndicesInRange(blocks, numBlocks) {
      return Err(IndexError);
    }
    var addedNnz := AddedNnz(blockSizes, blocks);
    var addedRows, addedCols := AddedCoordinates(blockSizes, blocks);

    coo.row := coo.row + addedRows[..];
    coo.col := coo.col + addedCols[..];
    coo.data := coo.data + Zeros(addedNnz);
    return Ok(coo);
  }

  /** The value a coordinate holds once duplicates are summed: the sum of
      the values stored under that coordinate. */
  function StoredValue(rows: seq<int>, cols: seq<int>, data: seq<int>, x: int, y: int): int
    requires |rows| == |cols| == |data|
  {
    if |rows| == 0 then 0
    else
      var n := |rows| - 1;
      StoredValue(rows[..n], cols[..n], data[..n], x, y)
        + (if rows[n] == x && cols[n] == y then data[n] else 0)
  }

  /** Entries with value zero add nothing to any coordinate. */
  lemma {:induction false} ZeroEntriesStoreNothing(rows: seq<int>, cols: seq<int>, x: int, y: int)
    requires |rows| == |cols|
    ensures StoredValue(rows, cols, Zeros(|rows|), x, y) == 0
  {
    if |rows| > 0 {
      var n := |rows| - 1;
      assert Zeros(|rows|)[..n] == Zeros(n);
      ZeroEntriesStoreNothing(rows[..n], cols[..n], x, y);
    }
  }

  /** Summing duplicates over two appended lists adds their sums. */
  lemma {:induction false} StoredValueAppend(rows: seq<int>, cols: seq<int>, data: seq<int>,
                                             rows': seq<int>, cols': seq<int>, data': seq<int>, x: int, y: int)
    requires |rows| == |cols| == |data|
    requires |rows'| == |cols'| == |data'|
    ensures StoredValue(rows + rows', cols + cols', data + data', x, y)
         == StoredValue(rows, cols, data, x, y) + StoredValue(rows', cols', data', x, y)
    decreases |rows'|
  {
    if |rows'| == 0 {
      assert rows + rows' == rows && cols + cols' == cols && data + data' == data;
    } else {
      var n := |rows'| - 1;
      StoredValueAppend(rows, cols, data, rows'[..n], cols'[..n], data'[..n], x, y);
      assert (rows + rows')[..|rows| + n] == rows + rows'[..n];
      assert (cols + cols')[..|rows| + n] == cols + cols'[..n];
      assert (data + data')[..|rows| + n] == data + data'[..n];
    }
  }

  /** Densification only adds zeros, so after duplicates are summed every
      coordinate holds the value it held before. */
  lemma {:induction false} DensifyKeepsStoredValues(rows: seq<int>, cols: seq<int>, data: seq<int>,
                                 added: seq<(int, int)>, x: int, y: int)
    requires |rows| == |cols| == |data|
    ensures StoredValue(rows + Rows(added), cols + Cols(added), data + Zeros(|added|), x, y)
         == StoredValue(rows, cols, data, x, y)
  {
    StoredValueAppend(rows, cols, data, Rows(added), Cols(added), Zeros(|added|), x, y);
    ZeroEntriesStoreNothing(Rows(added), Cols(added), x, y);
  }

  /** After densification every point of every listed block is stored. */
  lemma {:induction false} DensifiedBlockIsStored(rows: seq<int>, cols: seq<int>, sizes: seq<nat>, blocks: seq<(int, int)>,
                               p: int, x: int, y: int)
    requires |rows| == |cols|
    requires IndicesInRange(blocks, |sizes|)
    requires 0 <= p < |blocks|
    requires var i, j := Unsign(blocks[p].0, |sizes|), Unsign(blocks[p].1, |sizes|);
             BlockOffsets(sizes)[i] <= x < BlockOffsets(sizes)[i + 1] &&
             BlockOffsets(sizes)[j] <= y < BlockOffsets(sizes)[j + 1]
    ensures exists k :: 0 <= k < |rows| + AddedNnz(sizes, blocks) &&
                        (rows + Rows(AddedCoords(sizes, blocks)))[k] == x &&
                        (cols + Cols(AddedCoords(sizes, blocks)))[k] == y
  {
    var t := ListedBlockPoint(sizes, blocks, p, x, y);
    var s := ListedBlockCoords(sizes, blocks, p);
    var added := AddedCoords(sizes, blocks);
    var start := FirstNnz(sizes, blocks, p);
    AddedBlockIsRowMajor(sizes, blocks, p);
    AddedEntryIsStored(rows, cols, added, start, s, t, x, y);
  }

  /** The position of a point of the `p`-th listed block among the
      coordinates appended for it. */
  lemma ListedBlockPoint(sizes: seq<nat>, blocks: seq<(int, int)>, p: int, x: int, y: int) returns (t: nat)
    requires IndicesInRange(blocks, |sizes|)
    requires 0 <= p < |blocks|
    requires var i, j := Unsign(blocks[p].0, |sizes|), Unsign(blocks[p].1, |sizes|);
             BlockOffsets(sizes)[i] <= x < BlockOffsets(sizes)[i + 1] &&
             BlockOffsets(sizes)[j] <= y < BlockOffsets(sizes)[j + 1]
    ensures t < |ListedBlockCoords(sizes, blocks, p)| && ListedBlockCoords(sizes, blocks, p)[t] == (x, y)
  {
    assert InRange(blocks[p], |sizes|);
    var i, j := Unsign(blocks[p].0, |sizes|), Unsign(blocks[p].1, |sizes|);
    var offsets := BlockOffsets(sizes);
    assert offsets[i + 1] == offsets[i] + sizes[i];
    assert offsets[j + 1] == offsets[j] + sizes[j];
    t := BlockPointIndex(offsets[i], offsets[j], sizes[i], sizes[j], x, y);
  }

  /** The position of a point of a block in its row-major coordinates. */
  lemma BlockPointIndex(ro: int, co: int, rs: nat, cs: nat, x: int, y: int) returns (t: nat)
    requires ro <= x < ro + rs && co <= y < co + cs
    ensures t < |BlockCoords(ro, co, rs, cs)| && BlockCoords(ro, co, rs, cs)[t] == (x, y)
  {
    BlockCoordsCover(ro, co, rs, cs, x, y);
    var s := BlockCoords(ro, co, rs, cs);
    t :| 0 <= t < |s| && s[t] == (x, y);
  }

  /** An entry of a block laid out at `start` in the appended coordinates
      is stored: it sits at `|rows| + start + t` of the new index arrays. */
  lemma AddedEntryIsStored(rows: seq<int>, cols: seq<int>, added: seq<(int, int)>, start: nat,
                           s: seq<(int, int)>, t: nat, x: int, y: int)
    requires |rows| == |cols|
    requires start + |s| <= |added| && added[start..start + |s|] == s && t < |s| && s[t] == (x, y)
    ensures exists k :: 0 <= k < |rows| + |added| && (rows + Rows(added))[k] == x && (cols + Cols(added))[k] == y
  {
    var k := |rows| + start + t;
    assert added[start + t] == s[t];
    assert (rows + Rows(added))[k] == x && (cols + Cols(added))[k] == y;
  }
}
