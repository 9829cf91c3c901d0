/**
 * `VocabParallelEmbedding`: the embedding table cut by rows over the
 * tensor-parallel ranks. Each rank computes the contiguous range of
 * vocabulary ids it holds, looks up the ids of that range in its own shard
 * (shifted to local row numbers), zeroes the rows of every other id, and
 * `mpu.reduce` sums the outputs of all ranks.
 *
 * Rows hold integers here, so the sum over ranks is exact; the collective
 * is the function `Reduce` over the per-rank outputs.
 */
module Vocab {
  import opened Slices
  import opened Results
  import opened Tensors

  // ---------------------------------------------------------------------
  // `_get_partitioned_vocab_range`
  // ---------------------------------------------------------------------

  /**
   * Boundary k of the partition of v vocabulary ids over w ranks: k ranges
   * of ⌈v/w⌉ ids each, and v itself after the last range.
   */
  function Boundary(v: nat, w: nat, k: nat): int
    requires 1 <= w && k <= w
  {
    if k == w then v else k * CeilDiv(v, w)
  }

  /** Python's `sum` over a list of integers. */
  function Sum(xs: seq<int>): int {
    if xs == [] then 0 else Sum(xs[..|xs| - 1]) + xs[|xs| - 1]
  }

  lemma {:induction false} SumConstant(xs: seq<int>, c: int)
    requires forall i :: 0 <= i < |xs| ==> xs[i] == c
    ensures Sum(xs) == |xs| * c
  {
    if xs != [] {
      SumConstant(xs[..|xs| - 1], c);
      assert (|xs| - 1) * c + c == |xs| * c;
    }
  }

  /**
   * The range [start, end) of vocabulary ids that rank `rank` of w holds
   * when the table has v rows: the widths are built as a list, the last
   * one taking what the others leave, a 0 is put in front and the list is
   * summed up cumulatively in place.
   */
  method PartitionedVocabRange(v: nat, w: nat, rank: nat) returns (start: int, end: int)
    requires 1 <= w && rank < w
    ensures start == Boundary(v, w, rank) && end == Boundary(v, w, rank + 1)
    ensures rank == 0 ==> start == 0
    ensures rank == w - 1 ==> end == v
    ensures rank + 1 < w ==> end - start == CeilDiv(v, w)
    ensures rank + 1 == w ==> end - start == v - (w - 1) * CeilDiv(v, w)
  {
    var c := CeilDiv(v, w);
    var indices := seq(w, _ => c);
    SumConstant(indices[..w - 1], c);
    indices := indices[w - 1 := v - Sum(indices[..w - 1])];
    indices := [0] + indices;
    var i := 1;
    while i < |indices|
      invariant 1 <= i <= |indices| == w + 1
      invariant forall k :: 0 <= k < i ==> indices[k] == Boundary(v, w, k)
      invariant forall k :: i <= k < w ==> indices[k] == c
      invariant i <= w ==> indices[w] == v - (w - 1) * c
    {
      assert indices[i - 1] == (i - 1) * c by {
        if i - 1 == w { assert false; }
      }
      assert (i - 1) * c + c == i * c;
      indices := indices[i := indices[i] + indices[i - 1]];
      i := i + 1;
    }
    start, end := indices[rank], indices[rank + 1];
    assert rank + 1 < w ==> end - start == (rank + 1) * c - rank * c;
  }

  /** With a table of 5 rows over 4 ranks the last range has a negative width. */
  lemma LastWidthNegative()
    ensures Boundary(5, 4, 4) - Boundary(5, 4, 3) == -1
  {
    assert CeilDiv(5, 4) == 2;
  }

  /** Every rank holds a chunk of a non-empty table exactly when w - 1 ceiling-sized ranges fall short of v. */
  lemma FullCount(v: nat, w: nat)
    requires 1 <= w && 0 < v && ChunkCount(v, w) == w
    ensures CeilDiv(v, w) >= 1
    ensures (w - 1) * CeilDiv(v, w) < v <= w * CeilDiv(v, w)
  {
    var c := CeilDiv(v, w);
    assert CeilDiv(v, c) == w;
    MulSucc(w - 1, c);
  }

  /** When every rank holds a chunk of the table, the boundaries never go down. */
  lemma BoundariesMonotone(v: nat, w: nat, k: nat)
    requires 1 <= w && k < w && ChunkCount(v, w) == w
    ensures Boundary(v, w, k) <= Boundary(v, w, k + 1)
  {
    var c := CeilDiv(v, w);
    if k + 1 < w {
      MulSucc(k, c);
    } else if v > 0 {
      FullCount(v, w);
    }
  }

  /** Boundary k below the last is k ceiling widths, and never past the end of the table. */
  lemma InnerBoundary(v: nat, w: nat, k: nat)
    requires 1 <= w && k < w && ChunkCount(v, w) == w
    ensures Boundary(v, w, k) == k * CeilDiv(v, w) <= v
    ensures Boundary(v, w, k) + CeilDiv(v, w) == (k + 1) * CeilDiv(v, w)
  {
    var c := CeilDiv(v, w);
    MulSucc(k, c);
    if v > 0 {
      FullCount(v, w);
      MulMono(k, w - 1, c);
    } else {
      assert c == 0;
    }
  }

  /**
   * The chunk of rank r that `torch.chunk` cuts from the rows of a table,
   * as `_parallelize_embedding` does, is exactly the rows of the range
   * `_get_partitioned_vocab_range` gives rank r, whenever every rank gets
   * a chunk.
   */
  lemma ChunkIsRange<S>(rows: seq<S>, w: nat, r: nat)
    requires 1 <= w && r < w && ChunkCount(|rows|, w) == w
    ensures 0 <= Boundary(|rows|, w, r) <= Boundary(|rows|, w, r + 1) <= |rows|
    ensures Chunk(rows, w)[r] == rows[Boundary(|rows|, w, r)..Boundary(|rows|, w, r + 1)]
  {
    var v := |rows|;
    var c := ChunkSize(v, w);
    var lo := Boundary(v, w, r);
    assert Chunk(rows, w)[r] == Window(rows, r * c, c);
    InnerBoundary(v, w, r);
    if r + 1 < w {
      InnerBoundary(v, w, r + 1);
    } else if v > 0 {
      FullCount(v, w);
    }
  }

  // ---------------------------------------------------------------------
  // `VocabParallelEmbedding.forward`
  // ---------------------------------------------------------------------

  /** The error `F.embedding` raises for an index outside the table. */
  datatype LookupError = IndexOutOfRange

  /** `F.embedding(ids, table)`: row ids[i] of the table at every position i. */
  function Embed(ids: seq<int>, table: seq<seq<Elem>>): (r: Result<seq<seq<Elem>>, LookupError>)
    ensures r.Ok? <==> forall i :: 0 <= i < |ids| ==> 0 <= ids[i] < |table|
    ensures r.Ok? ==> |r.value| == |ids| && forall i :: 0 <= i < |ids| ==> r.value[i] == table[ids[i]]
  {
    if forall i :: 0 <= i < |ids| ==> 0 <= ids[i] < |table| then
      Ok(seq(|ids|, i requires 0 <= i < |ids| => table[ids[i]]))
    else Err(IndexOutOfRange)
  }

  function Zeros(d: nat): (z: seq<Elem>)
    ensures |z| == d && forall j :: 0 <= j < d ==> z[j] == 0
  {
    seq(d, _ => 0)
  }

  /** The input mask of a rank: the id lies outside the range [start, end). */
  predicate Outside(id: int, start: int, end: int) {
    id < start || id >= end
  }

  /** The ids of [start, end) shifted to local rows, and 0 in place of every other id. */
  function Shifted(ids: seq<int>, start: int, end: int): (m: seq<int>)
    ensures |m| == |ids|
  {
    seq(|ids|, i requires 0 <= i < |ids| => if Outside(ids[i], start, end) then 0 else ids[i] - start)
  }

  /**
   * `output_parallel` on rank `rank` of w holding the rows `shard` of a
   * table of v rows: with one rank the ids are looked up as they are;
   * otherwise the ids of the rank's range are looked up shifted to local
   * rows, every other id looks up local row 0 and its row is zeroed.
   */
  function LocalOutput(ids: seq<int>, shard: Tensor, v: nat, w: nat, rank: nat): Result<seq<seq<Elem>>, LookupError>
    requires shard.Mat? && 1 <= w && rank < w
  {
    if w == 1 then Embed(ids, shard.rows)
    else
      var start, end := Boundary(v, w, rank), Boundary(v, w, rank + 1);
      match Embed(Shifted(ids, start, end), shard.rows)
      case Err(e) => Err(e)
      case Ok(rows) =>
        Ok(seq(|ids|, i requires 0 <= i < |ids| => if Outside(ids[i], start, end) then Zeros(shard.width) else rows[i]))
  }

  /** `masked_input = inputs.clone() - start` then `masked_input[input_mask] = 0`, in place. */
  method MaskInputs(ids: seq<int>, start: int, end: int) returns (mask: seq<bool>, masked: seq<int>)
    ensures |mask| == |ids| && forall i :: 0 <= i < |ids| ==> mask[i] == Outside(ids[i], start, end)
    ensures masked == Shifted(ids, start, end)
  {
    mask := seq(|ids|, i requires 0 <= i < |ids| => Outside(ids[i], start, end));
    masked := seq(|ids|, i requires 0 <= i < |ids| => ids[i] - start);
    var i := 0;
    while i < |ids|
      invariant 0 <= i <= |ids| == |masked|
      invariant forall k :: 0 <= k < i ==> masked[k] == if mask[k] then 0 else ids[k] - start
      invariant forall k :: i <= k < |ids| ==> masked[k] == ids[k] - start
    {
      if mask[i] {
        masked := masked[i := 0];
      }
      i := i + 1;
    }
  }

  /** `output_parallel[input_mask, :] = 0.0`, in place: every masked row becomes d zeros. */
  method ZeroMasked(output: seq<seq<Elem>>, mask: seq<bool>, d: nat) returns (r: seq<seq<Elem>>)
    requires |mask| == |output|
    ensures |r| == |output|
    ensures forall i :: 0 <= i < |output| ==> r[i] == if mask[i] then Zeros(d) else output[i]
  {
    r := output;
    var i := 0;
    while i < |r|
      invariant 0 <= i <= |r| == |output|
      invariant forall k :: 0 <= k < i ==> r[k] == if mask[k] then Zeros(d) else output[k]
      invariant forall k :: i <= k < |r| ==> r[k] == output[k]
    {
      if mask[i] {
        r := r[i := Zeros(d)];
      }
      i := i + 1;
    }
  }

  /** The forward pass of one rank up to the collective. */
  method VocabParallelEmbeddingForward(ids: seq<int>, weight: Tensor, v: nat, w: nat, rank: nat)
    returns (out: Result<seq<seq<Elem>>, LookupError>)
    requires weight.Mat? && 1 <= w && rank < w
    ensures out == LocalOutput(ids, weight, v, w, rank)
    ensures w == 1 ==> out == Embed(ids, weight.rows)
  {
    if w == 1 {
      out := Embed(ids, weight.rows);
      return;
    }
    var start, end := PartitionedVocabRange(v, w, rank);
    var mask, masked := MaskInputs(ids, start, end);
    var rows :- Embed(masked, weight.rows);
    var output := ZeroMasked(rows, mask, weight.width);
    assert output == seq(|ids|, i requires 0 <= i < |ids| => if Outside(ids[i], start, end) then Zeros(weight.width) else rows[i]);
    out := Ok(output);
  }

  // ---------------------------------------------------------------------
  // `mpu.reduce` over the ranks
  // ---------------------------------------------------------------------

  /** Entry (i, j) of one rank's output; 0 where it has none. */
  function Cell(o: seq<seq<Elem>>, i: nat, j: nat): Elem {
    if i < |o| then At(o[i], j) else 0
  }

  /** The sum over ranks of entry (i, j). */
  function SumCells(outs: seq<seq<seq<Elem>>>, i: nat, j: nat): Elem {
    if outs == [] then 0 else SumCells(outs[..|outs| - 1], i, j) + Cell(outs[|outs| - 1], i, j)
  }

  /** `mpu.reduce`: the elementwise sum of the outputs of every rank, n rows of d entries. */
  function Reduce(outs: seq<seq<seq<Elem>>>, n: nat, d: nat): (r: seq<seq<Elem>>)
    ensures |r| == n && forall i :: 0 <= i < n ==> |r[i]| == d
  {
    seq(n, i requires 0 <= i < n => seq(d, j requires 0 <= j < d => SumCells(outs, i, j)))
  }

  /**
   * `forward` on all ranks, rank r holding `shards[r]`, then `mpu.reduce`;
   * a lookup error on any rank is an error of the whole.
   */
  function ParallelLookup(ids: seq<int>, shards: seq<Tensor>, v: nat): Result<seq<seq<Elem>>, LookupError>
    requires 1 <= |shards| && forall r :: 0 <= r < |shards| ==> shards[r].Mat?
  {
    var w := |shards|;
    var outs := seq(w, r requires 0 <= r < w => LocalOutput(ids, shards[r], v, w, r));
    if forall r :: 0 <= r < w ==> outs[r].Ok? then
      Ok(Reduce(seq(w, r requires 0 <= r < w => outs[r].value), |ids|, shards[0].width))
    else Err(IndexOutOfRange)
  }

  /** The row that the reduced output has for id: its table row inside the vocabulary, zeros outside. */
  function Expected(id: int, table: Tensor): (e: seq<Elem>)
    requires table.Mat?
    ensures Wf(table) ==> |e| == table.width
  {
    if 0 <= id < |table.rows| then table.rows[id] else Zeros(table.width)
  }

  /** The output of rank r with more than one rank, when rank r holds its chunk of the table. */
  lemma RankOutput(ids: seq<int>, table: Tensor, w: nat, r: nat)
    requires table.Mat? && 1 < w && r < w && ChunkCount(|table.rows|, w) == w
    requires |table.rows| > 0 || ids == []
    ensures var v := |table.rows|;
      var start, end := Boundary(v, w, r), Boundary(v, w, r + 1);
      LocalOutput(ids, ChunkT(table, w, 0).value[r], v, w, r)
        == Ok(seq(|ids|, i requires 0 <= i < |ids| => if Outside(ids[i], start, end) then Zeros(table.width) else Expected(ids[i], table)))
  {
    var v := |table.rows|;
    var start, end := Boundary(v, w, r), Boundary(v, w, r + 1);
    assert ChunkT(table, w, 0) == Ok(RowChunks(table.rows, table.width, w));
    var shard := ChunkT(table, w, 0).value[r];
    ChunkIsRange(table.rows, w, r);
    assert shard.rows == table.rows[start..end] && shard.width == table.width;
    if ids != [] {
      FullCount(v, w);
      InnerBoundary(v, w, r);
      assert start < end;
    }
    var shifted := Shifted(ids, start, end);
    assert forall i :: 0 <= i < |ids| ==> 0 <= shifted[i] < |shard.rows|;
    var rows := Embed(shifted, shard.rows).value;
    forall i | 0 <= i < |ids| && !Outside(ids[i], start, end) ensures rows[i] == Expected(ids[i], table) {
      assert rows[i] == shard.rows[ids[i] - start];
    }
    var got := seq(|ids|, i requires 0 <= i < |ids| => if Outside(ids[i], start, end) then Zeros(shard.width) else rows[i]);
    var want := seq(|ids|, i requires 0 <= i < |ids| => if Outside(ids[i], start, end) then Zeros(table.width) else Expected(ids[i], table));
    assert LocalOutput(ids, shard, v, w, r) == Ok(got);
    assert got == want;
  }

  /** The sum over the first k ranks at the position of an id in [0, v) is its row entry once it lies below boundary k. */
  lemma {:induction false} PrefixSum(outs: seq<seq<seq<Elem>>>, ids: seq<int>, table: Tensor, w: nat, i: nat, j: nat, k: nat)
    requires table.Mat? && Wf(table) && 1 < w && |outs| == w && k <= w && ChunkCount(|table.rows|, w) == w
    requires i < |ids| && j < table.width
    requires forall r :: 0 <= r < w ==>
      && |outs[r]| == |ids|
      && outs[r][i] == if Outside(ids[i], Boundary(|table.rows|, w, r), Boundary(|table.rows|, w, r + 1)) then Zeros(table.width) else Expected(ids[i], table)
    ensures SumCells(outs[..k], i, j) == if 0 <= ids[i] < Boundary(|table.rows|, w, k) then Expected(ids[i], table)[j] else 0
  {
    var v := |table.rows|;
    if k > 0 {
      assert outs[..k][..k - 1] == outs[..k - 1];
      PrefixSum(outs, ids, table, w, i, j, k - 1);
      BoundariesMonotone(v, w, k - 1);
      PrefixLow(v, w, k - 1);
    }
  }

  lemma {:induction false} PrefixLow(v: nat, w: nat, k: nat)
    requires 1 <= w && k <= w && ChunkCount(v, w) == w
    ensures 0 <= Boundary(v, w, k)
  {
    if k > 0 {
      PrefixLow(v, w, k - 1);
      BoundariesMonotone(v, w, k - 1);
    }
  }

  /**
   * Over more than one rank, each holding its chunk of the table, the
   * reduced output has the table row of every id in [0, v) and a row of
   * zeros for every id outside the vocabulary.
   */
  lemma ShardedLookup(ids: seq<int>, table: Tensor, w: nat)
    requires table.Mat? && Wf(table) && 1 < w && ChunkCount(|table.rows|, w) == w
    requires |table.rows| > 0 || ids == []
    ensures var shards := ChunkT(table, w, 0).value;
      ParallelLookup(ids, shards, |table.rows|) == Ok(seq(|ids|, i requires 0 <= i < |ids| => Expected(ids[i], table)))
  {
    var v := |table.rows|;
    var shards := ChunkT(table, w, 0).value;
    var outs := seq(w, r requires 0 <= r < w => LocalOutput(ids, shards[r], v, w, r));
    forall r | 0 <= r < w
      ensures outs[r] == Ok(seq(|ids|, i requires 0 <= i < |ids| =>
        if Outside(ids[i], Boundary(v, w, r), Boundary(v, w, r + 1)) then Zeros(table.width) else Expected(ids[i], table)))
    {
      RankOutput(ids, table, w, r);
    }
    var vals := seq(w, r requires 0 <= r < w => outs[r].value);
    assert ChunkT(table, w, 0) == Ok(RowChunks(table.rows, table.width, w));
    assert shards[0].width == table.width;
    ReducedRows(vals, ids, table, w);
  }

  /** Reducing outputs that are each zero outside their rank's range gives every id its expected row. */
  lemma ReducedRows(vals: seq<seq<seq<Elem>>>, ids: seq<int>, table: Tensor, w: nat)
    requires table.Mat? && Wf(table) && 1 < w && |vals| == w && ChunkCount(|table.rows|, w) == w
    requires forall r :: 0 <= r < w ==>
      vals[r] == seq(|ids|, i requires 0 <= i < |ids| =>
        if Outside(ids[i], Boundary(|table.rows|, w, r), Boundary(|table.rows|, w, r + 1)) then Zeros(table.width) else Expected(ids[i], table))
    ensures Reduce(vals, |ids|, table.width) == seq(|ids|, i requires 0 <= i < |ids| => Expected(ids[i], table))
  {
    var red := Reduce(vals, |ids|, table.width);
    var v := |table.rows|;
    forall i | 0 <= i < |ids| ensures red[i] == Expected(ids[i], table) {
      forall r | 0 <= r < w
        ensures |vals[r]| == |ids|
        ensures vals[r][i] == if Outside(ids[i], Boundary(v, w, r), Boundary(v, w, r + 1)) then Zeros(table.width) else Expected(ids[i], table)
      {
        assert vals[r] == seq(|ids|, i requires 0 <= i < |ids| =>
          if Outside(ids[i], Boundary(v, w, r), Boundary(v, w, r + 1)) then Zeros(table.width) else Expected(ids[i], table));
      }
      forall j | 0 <= j < table.width ensures red[i][j] == Expected(ids[i], table)[j] {
        PrefixSum(vals, ids, table, w, i, j, w);
        assert vals[..w] == vals;
      }
    }
  }

  /**
   * Every id in [0, v): summing the per-rank outputs of the sharded table
   * gives exactly the lookup in the whole table, for any number of ranks
   * that each hold a chunk (with one rank, the ids pass through unshifted).
   */
  lemma ShardedLookupSums(ids: seq<int>, table: Tensor, w: nat)
    requires table.Mat? && Wf(table) && 1 <= w && ChunkCount(|table.rows|, w) == w
    requires forall i :: 0 <= i < |ids| ==> 0 <= ids[i] < |table.rows|
    ensures ParallelLookup(ids, ChunkT(table, w, 0).value, |table.rows|) == Embed(ids, table.rows)
  {
    if w == 1 {
      SingleRank(ids, table);
    } else {
      if ids != [] {
        assert 0 <= ids[0] < |table.rows|;
      }
      ShardedLookup(ids, table, w);
      var want := seq(|ids|, i requires 0 <= i < |ids| => Expected(ids[i], table));
      assert want == Embed(ids, table.rows).value;
    }
  }

  /** With a single rank the table is whole and the reduce of one output is that output. */
  lemma SingleRank(ids: seq<int>, table: Tensor)
    requires table.Mat? && Wf(table)
    ensures ParallelLookup(ids, ChunkT(table, 1, 0).value, |table.rows|) == Embed(ids, table.rows)
  {
    var v := |table.rows|;
    var shards := ChunkT(table, 1, 0).value;
    assert ChunkT(table, 1, 0) == Ok(RowChunks(table.rows, table.width, 1));
    ChunkIsRange(table.rows, 1, 0);
    assert table.rows[0..v] == table.rows;
    assert shards == [table];
    var e := Embed(ids, table.rows);
    assert LocalOutput(ids, table, v, 1, 0) == e;
    if e.Ok? {
      var o := e.value;
      var outs := [o];
      var red := Reduce(outs, |ids|, table.width);
      forall i | 0 <= i < |ids| ensures red[i] == o[i] {
        assert outs[..0] == [];
        forall j | 0 <= j < table.width ensures red[i][j] == o[i][j] {
          assert SumCells(outs, i, j) == SumCells(outs[..0], i, j) + Cell(o, i, j);
        }
      }
      assert red == o;
      var results := seq(1, r requires 0 <= r < 1 => LocalOutput(ids, shards[r], v, 1, r));
      assert results == [e];
      assert seq(1, r requires 0 <= r < 1 => results[r].value) == outs;
    } else {
      var results := seq(1, r requires 0 <= r < 1 => LocalOutput(ids, shards[r], v, 1, r));
      assert results[0].Err?;
    }
  }
}
