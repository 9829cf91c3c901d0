/**
 * The forward passes of `ColumnParallelLinear` and `RowParallelLinear` for
 * one input row, over integer weights, with the collectives as functions
 * of the per-rank values: `mpu.broadcast` hands every rank the input of
 * rank 0, `mpu.gather` concatenates the outputs of all ranks in rank order
 * and `mpu.reduce` sums them elementwise.
 *
 * A weight is seen through the weight vector of each output feature: the
 * rows of an `nn.Linear` weight [out, in], the columns of a `Conv1D`
 * weight [in, out] (`reversed`). Column slicing cuts the list of those
 * vectors; row slicing cuts every vector.
 */
module Linear {
  import opened Slices
  import opened Results
  import opened Tensors

  /** Shape errors that `torch.matmul`, the collectives and the in-place bias add raise. */
  datatype ForwardError = MatMulShape | ReduceShape | AddShape

  function Dot(a: seq<Elem>, b: seq<Elem>): Elem
    requires |a| == |b|
  {
    if a == [] then 0 else Dot(a[..|a| - 1], b[..|b| - 1]) + a[|a| - 1] * b[|b| - 1]
  }

  lemma {:induction false} DotAppend(a: seq<Elem>, b: seq<Elem>, c: seq<Elem>, d: seq<Elem>)
    requires |a| == |c| && |b| == |d|
    ensures Dot(a + b, c + d) == Dot(a, c) + Dot(b, d)
  {
    if b != [] {
      assert (a + b)[..|a + b| - 1] == a + b[..|b| - 1];
      assert (c + d)[..|c + d| - 1] == c + d[..|d| - 1];
      DotAppend(a, b[..|b| - 1], c, d[..|d| - 1]);
    } else {
      assert a + b == a && c + d == c;
    }
  }

  /** The weight vector of every output feature. */
  function Features(w: Tensor, reversed: bool): seq<seq<Elem>>
    requires w.Mat?
  {
    if reversed then Cols(w.rows, w.width) else w.rows
  }

  /** The number of input features the weight takes. */
  function InFeatures(w: Tensor, reversed: bool): nat
    requires w.Mat?
  {
    if reversed then |w.rows| else w.width
  }

  /** `torch.matmul(x, weight)` when reversed, `torch.matmul(x, weight.t())` otherwise. */
  function MatMul(x: seq<Elem>, w: Tensor, reversed: bool): (r: Result<seq<Elem>, ForwardError>)
    requires w.Mat? && Wf(w)
    ensures r.Ok? <==> |x| == InFeatures(w, reversed)
    ensures r.Ok? ==> |r.value| == |Features(w, reversed)|
    ensures r.Ok? ==> forall j :: 0 <= j < |r.value| ==> |Features(w, reversed)[j]| == |x| && r.value[j] == Dot(x, Features(w, reversed)[j])
  {
    var fs := Features(w, reversed);
    if |x| == InFeatures(w, reversed) then
      Ok(seq(|fs|, j requires 0 <= j < |fs| => Dot(x, fs[j])))
    else Err(MatMulShape)
  }

  /** `outputs += bias`: elementwise, or one value broadcast over the row; any other length does not fit. */
  function AddBias(y: seq<Elem>, b: seq<Elem>): (r: Result<seq<Elem>, ForwardError>)
    ensures r.Ok? <==> |b| == |y| || |b| == 1
    ensures r.Ok? ==> |r.value| == |y|
    ensures |b| == |y| ==> r == Ok(seq(|y|, j requires 0 <= j < |y| => y[j] + b[j]))
  {
    if |b| == |y| then Ok(seq(|y|, j requires 0 <= j < |y| => y[j] + b[j]))
    else if |b| == 1 then Ok(seq(|y|, j requires 0 <= j < |y| => y[j] + b[0]))
    else Err(AddShape)
  }

  function WithBias(y: seq<Elem>, bias: Option<seq<Elem>>): Result<seq<Elem>, ForwardError> {
    if bias.None? then Ok(y) else AddBias(y, bias.value)
  }

  /** Every rank multiplies its input by its own shard; a rank whose shapes do not fit fails. */
  function MatMulEach(xs: seq<seq<Elem>>, shards: seq<Tensor>, reversed: bool): (r: Result<seq<seq<Elem>>, ForwardError>)
    requires |xs| == |shards| && forall q :: 0 <= q < |shards| ==> shards[q].Mat? && Wf(shards[q])
    ensures r.Ok? ==> |r.value| == |shards|
  {
    if forall q :: 0 <= q < |shards| ==> MatMul(xs[q], shards[q], reversed).Ok? then
      Ok(seq(|shards|, q requires 0 <= q < |shards| => MatMul(xs[q], shards[q], reversed).value))
    else Err(MatMulShape)
  }

  /** The sum over ranks of entry j. */
  function SumAt(ys: seq<seq<Elem>>, j: nat): Elem {
    if ys == [] then 0 else SumAt(ys[..|ys| - 1], j) + At(ys[|ys| - 1], j)
  }

  /** `mpu.reduce`: the elementwise sum of the outputs of all ranks, which must have one length. */
  function Reduce(ys: seq<seq<Elem>>): (r: Result<seq<Elem>, ForwardError>)
    requires |ys| > 0
  {
    if forall q :: 0 <= q < |ys| ==> |ys[q]| == |ys[0]| then
      Ok(seq(|ys[0]|, j requires 0 <= j < |ys[0]| => SumAt(ys, j)))
    else Err(ReduceShape)
  }

  // ---------------------------------------------------------------------
  // The two forward passes
  // ---------------------------------------------------------------------

  /**
   * `ColumnParallelLinear.forward` on rank `rank`, rank q holding `shards[q]`
   * and `biases[q]`: broadcast the input of rank 0, multiply, gather the
   * outputs of all ranks when `gather_output` is set, then add the bias.
   */
  function ColumnParallelForward(inputs: seq<seq<Elem>>, shards: seq<Tensor>, biases: seq<Option<seq<Elem>>>,
                                 reversed: bool, gatherOutput: bool, rank: nat): Result<seq<Elem>, ForwardError>
    requires 0 < |inputs| == |shards| == |biases| && rank < |shards|
    requires forall q :: 0 <= q < |shards| ==> shards[q].Mat? && Wf(shards[q])
  {
    var x := inputs[0];
    var outs :- if gatherOutput then
        match MatMulEach(seq(|shards|, _ => x), shards, reversed)
        case Err(e) => Err(e)
        case Ok(ys) => Ok(Flatten(ys))
      else MatMul(x, shards[rank], reversed);
    WithBias(outs, biases[rank])
  }

  /**
   * `RowParallelLinear.forward` on rank `rank`: every rank multiplies its own
   * input by its shard, the products are reduced, and the bias is added to
   * the sum.
   */
  function RowParallelForward(inputs: seq<seq<Elem>>, shards: seq<Tensor>, biases: seq<Option<seq<Elem>>>,
                              reversed: bool, rank: nat): Result<seq<Elem>, ForwardError>
    requires 0 < |inputs| == |shards| == |biases| && rank < |shards|
    requires forall q :: 0 <= q < |shards| ==> shards[q].Mat? && Wf(shards[q])
  {
    var ys :- MatMulEach(inputs, shards, reversed);
    var total :- Reduce(ys);
    WithBias(total, biases[rank])
  }

  // ---------------------------------------------------------------------
  // The shards the engine cuts, seen through the feature vectors
  // ---------------------------------------------------------------------

  /** The axis `_column_slice` cuts: 0, or 1 when reversed. */
  function ColumnAxis(reversed: bool): nat {
    if reversed then 1 else 0
  }

  /** The axis `_row_slice` cuts: 1, or 0 when reversed. */
  function RowAxis(reversed: bool): nat {
    if reversed then 0 else 1
  }

  /** Chunk q of s holds the slices [Lo, Hi) of s. */
  function Lo(len: nat, n: nat, q: nat): nat
    requires n > 0
  {
    Min(q * ChunkSize(len, n), len)
  }

  function Hi(len: nat, n: nat, q: nat): nat
    requires n > 0
  {
    Min(q * ChunkSize(len, n) + ChunkSize(len, n), len)
  }

  lemma ChunkAt<S>(s: seq<S>, n: nat, q: nat)
    requires n > 0 && q < ChunkCount(|s|, n)
    ensures Lo(|s|, n, q) <= Hi(|s|, n, q) <= |s|
    ensures Chunk(s, n)[q] == s[Lo(|s|, n, q)..Hi(|s|, n, q)]
  {
  }

  /** Cutting a weight for column parallelism cuts its list of feature vectors; the input width stays. */
  lemma ColumnShard(w: Tensor, reversed: bool, n: nat, q: nat)
    requires w.Mat? && Wf(w) && n > 0
    requires q < |ChunkT(w, n, ColumnAxis(reversed)).value|
    ensures var shard := ChunkT(w, n, ColumnAxis(reversed)).value[q];
      && shard.Mat? && Wf(shard)
      && InFeatures(shard, reversed) == InFeatures(w, reversed)
      && Features(shard, reversed) == Chunk(Features(w, reversed), n)[q]
  {
    if reversed {
      var cs := Chunk(Cols(w.rows, w.width), n);
      assert ChunkT(w, n, 1) == Ok(ColChunks(w.rows, w.width, n));
      ChunkAt(Cols(w.rows, w.width), n, q);
      ColsOfFromCols(cs[q], |w.rows|);
    } else {
      assert ChunkT(w, n, 0) == Ok(RowChunks(w.rows, w.width, n));
      ChunkAt(w.rows, n, q);
    }
  }

  /** Cutting a weight for row parallelism cuts every feature vector at the same place. */
  lemma RowShard(w: Tensor, reversed: bool, n: nat, q: nat)
    requires w.Mat? && Wf(w) && n > 0
    requires q < |ChunkT(w, n, RowAxis(reversed)).value|
    ensures var shard := ChunkT(w, n, RowAxis(reversed)).value[q];
      && shard.Mat? && Wf(shard)
      && InFeatures(shard, reversed) == Hi(InFeatures(w, reversed), n, q) - Lo(InFeatures(w, reversed), n, q)
      && |Features(shard, reversed)| == |Features(w, reversed)|
      && forall j :: 0 <= j < |Features(w, reversed)| ==>
           Features(shard, reversed)[j] == Features(w, reversed)[j][Lo(InFeatures(w, reversed), n, q)..Hi(InFeatures(w, reversed), n, q)]
  {
    if reversed {
      assert ChunkT(w, n, 0) == Ok(RowChunks(w.rows, w.width, n));
      ChunkAt(w.rows, n, q);
      RowShardOfConv(w, Lo(|w.rows|, n, q), Hi(|w.rows|, n, q));
    } else {
      assert ChunkT(w, n, 1) == Ok(ColChunks(w.rows, w.width, n));
      ChunkAt(Cols(w.rows, w.width), n, q);
      RowShardOfLinear(w, Lo(w.width, n, q), Hi(w.width, n, q));
    }
  }

  /** The rows lo..hi of a `Conv1D` weight: every column cut to lo..hi. */
  lemma RowShardOfConv(w: Tensor, lo: nat, hi: nat)
    requires w.Mat? && Wf(w) && lo <= hi <= |w.rows|
    ensures var shard := Mat(w.rows[lo..hi], w.width);
      && Wf(shard)
      && |Features(shard, true)| == |Features(w, true)|
      && forall j :: 0 <= j < w.width ==> Features(shard, true)[j] == Features(w, true)[j][lo..hi]
  {
    var shard := Mat(w.rows[lo..hi], w.width);
    forall j | 0 <= j < w.width ensures Features(shard, true)[j] == Features(w, true)[j][lo..hi] {
      var mine := Cols(shard.rows, shard.width)[j];
      var whole := Cols(w.rows, w.width)[j];
      forall k | 0 <= k < hi - lo ensures mine[k] == whole[lo + k] {
        assert mine[k] == At(w.rows[lo + k], j);
      }
    }
  }

  /** The columns lo..hi of an `nn.Linear` weight: every row cut to lo..hi. */
  lemma RowShardOfLinear(w: Tensor, lo: nat, hi: nat)
    requires w.Mat? && Wf(w) && lo <= hi <= w.width
    ensures var shard := FromCols(Cols(w.rows, w.width)[lo..hi], |w.rows|);
      && |Features(shard, false)| == |Features(w, false)|
      && forall j :: 0 <= j < |w.rows| ==> Features(shard, false)[j] == Features(w, false)[j][lo..hi]
  {
    var cols := Cols(w.rows, w.width);
    var shard := FromCols(cols[lo..hi], |w.rows|);
    forall j | 0 <= j < |w.rows| ensures shard.rows[j] == w.rows[j][lo..hi] {
      forall k | 0 <= k < hi - lo ensures shard.rows[j][k] == w.rows[j][lo + k] {
        assert shard.rows[j][k] == At(cols[lo + k], j);
      }
    }
  }

  // ---------------------------------------------------------------------
  // What the forward passes compute over the shards
  // ---------------------------------------------------------------------

  /** The unsharded layer: x times the whole weight, plus the whole bias. */
  function Full(x: seq<Elem>, w: Tensor, reversed: bool, bias: Option<seq<Elem>>): Result<seq<Elem>, ForwardError>
    requires w.Mat? && Wf(w)
  {
    var y :- MatMul(x, w, reversed);
    WithBias(y, bias)
  }

  /** The column shards of w, one per rank. */
  predicate ColumnShards(shards: seq<Tensor>, w: Tensor, reversed: bool)
    requires w.Mat? && Wf(w)
  {
    && |shards| > 0
    && |ChunkT(w, |shards|, ColumnAxis(reversed)).value| == |shards|
    && forall q :: 0 <= q < |shards| ==> shards[q] == ChunkT(w, |shards|, ColumnAxis(reversed)).value[q]
  }

  /** The row shards of w, one per rank. */
  predicate RowShards(shards: seq<Tensor>, w: Tensor, reversed: bool)
    requires w.Mat? && Wf(w)
  {
    && |shards| > 0
    && |ChunkT(w, |shards|, RowAxis(reversed)).value| == |shards|
    && forall q :: 0 <= q < |shards| ==> shards[q] == ChunkT(w, |shards|, RowAxis(reversed)).value[q]
  }

  /** Rank q's product with its column shard is chunk q of the whole product. */
  lemma ColumnProduct(x: seq<Elem>, w: Tensor, reversed: bool, shards: seq<Tensor>, q: nat)
    requires w.Mat? && Wf(w) && ColumnShards(shards, w, reversed) && q < |shards|
    requires |x| == InFeatures(w, reversed)
    ensures shards[q].Mat? && Wf(shards[q])
    ensures q < |Chunk(MatMul(x, w, reversed).value, |shards|)|
    ensures MatMul(x, shards[q], reversed) == Ok(Chunk(MatMul(x, w, reversed).value, |shards|)[q])
  {
    var n := |shards|;
    var fs := Features(w, reversed);
    var y := MatMul(x, w, reversed).value;
    ColumnShard(w, reversed, n, q);
    ChunkAt(fs, n, q);
    ChunkAt(y, n, q);
    assert |y| == |fs|;
    var lo, hi := Lo(|fs|, n, q), Hi(|fs|, n, q);
    var r := MatMul(x, shards[q], reversed);
    assert r.Ok?;
    var mine := r.value;
    assert |mine| == hi - lo;
    forall j | 0 <= j < hi - lo ensures mine[j] == y[lo + j] {
    }
    assert mine == y[lo..hi];
  }

  /**
   * Column parallelism without `gather_output`: the weight and the bias cut
   * into the same chunks, rank q ends with chunk q of the unsharded output.
   */
  lemma ColumnForwardShard(inputs: seq<seq<Elem>>, w: Tensor, reversed: bool, shards: seq<Tensor>,
                           b: seq<Elem>, biases: seq<Option<seq<Elem>>>, q: nat)
    requires w.Mat? && Wf(w) && ColumnShards(shards, w, reversed) && q < |shards|
    requires |inputs| == |biases| == |shards| && |inputs[0]| == InFeatures(w, reversed)
    requires |b| == |Features(w, reversed)|
    requires forall p :: 0 <= p < |biases| ==> biases[p] == Some(Chunk(b, |shards|)[p])
    ensures forall p :: 0 <= p < |shards| ==> shards[p].Mat? && Wf(shards[p])
    ensures Full(inputs[0], w, reversed, Some(b)).Ok?
    ensures q < |Chunk(Full(inputs[0], w, reversed, Some(b)).value, |shards|)|
    ensures ColumnParallelForward(inputs, shards, biases, reversed, false, q)
         == Ok(Chunk(Full(inputs[0], w, reversed, Some(b)).value, |shards|)[q])
  {
    var n := |shards|;
    var x := inputs[0];
    forall p | 0 <= p < n ensures shards[p].Mat? && Wf(shards[p]) {
      ColumnShard(w, reversed, n, p);
    }
    ColumnProduct(x, w, reversed, shards, q);
    var y := MatMul(x, w, reversed).value;
    assert ColumnParallelForward(inputs, shards, biases, reversed, false, q) == AddBias(Chunk(y, n)[q], Chunk(b, n)[q]);
    AddBiasChunk(y, b, n, q);
  }

  /** Adding chunk q of the bias to chunk q of the output gives chunk q of the biased output. */
  lemma AddBiasChunk(y: seq<Elem>, b: seq<Elem>, n: nat, q: nat)
    requires n > 0 && |y| == |b| && q < ChunkCount(|y|, n)
    ensures AddBias(Chunk(y, n)[q], Chunk(b, n)[q]) == Ok(Chunk(AddBias(y, b).value, n)[q])
  {
    var full := AddBias(y, b).value;
    ChunkAt(y, n, q);
    ChunkAt(b, n, q);
    ChunkAt(full, n, q);
    var lo, hi := Lo(|y|, n, q), Hi(|y|, n, q);
    assert AddBias(y[lo..hi], b[lo..hi]).value == full[lo..hi];
  }

  /** Joining the chunks of every rank in rank order gives back the whole sequence. */
  lemma GatherChunks(y: seq<Elem>, n: nat, ys: seq<seq<Elem>>)
    requires n > 0 && |ys| == n == ChunkCount(|y|, n)
    requires forall q :: 0 <= q < n ==> ys[q] == Chunk(y, n)[q]
    ensures Flatten(ys) == y
  {
    assert ys == Chunk(y, n);
    ChunkCovers(y, n);
  }

  /**
   * Column parallelism with `gather_output`, as for a module tied to the
   * input embedding: the bias is left whole, so adding it to the gathered
   * output gives the unsharded layer.
   */
  lemma ColumnForwardGathered(inputs: seq<seq<Elem>>, w: Tensor, reversed: bool, shards: seq<Tensor>,
                              biases: seq<Option<seq<Elem>>>, q: nat)
    requires w.Mat? && Wf(w) && ColumnShards(shards, w, reversed) && q < |shards|
    requires |inputs| == |biases| == |shards| && |inputs[0]| == InFeatures(w, reversed)
    ensures forall p :: 0 <= p < |shards| ==> shards[p].Mat? && Wf(shards[p])
    ensures ColumnParallelForward(inputs, shards, biases, reversed, true, q) == Full(inputs[0], w, reversed, biases[q])
  {
    var n := |shards|;
    var x := inputs[0];
    var y := MatMul(x, w, reversed).value;
    var xs := seq(n, _ => x);
    forall p | 0 <= p < n
      ensures shards[p].Mat? && Wf(shards[p])
      ensures MatMul(xs[p], shards[p], reversed) == Ok(Chunk(y, n)[p])
    {
      ColumnProduct(x, w, reversed, shards, p);
    }
    var ys := MatMulEach(xs, shards, reversed).value;
    assert |Chunk(y, n)| == n by {
      ColumnProduct(x, w, reversed, shards, 0);
    }
    GatherChunks(y, n, ys);
  }

  /** The products of matching pieces, summed, are the product of the joined pieces. */
  lemma {:induction false} DotOfPieces(xs: seq<seq<Elem>>, vs: seq<seq<Elem>>, k: nat)
    requires k <= |xs| == |vs| && forall q :: 0 <= q < |xs| ==> |xs[q]| == |vs[q]|
    ensures |Flatten(xs[..k])| == |Flatten(vs[..k])|
    ensures SumDots(xs, vs, k) == Dot(Flatten(xs[..k]), Flatten(vs[..k]))
  {
    if k > 0 {
      DotOfPieces(xs, vs, k - 1);
      assert xs[..k][..k - 1] == xs[..k - 1] && vs[..k][..k - 1] == vs[..k - 1];
      DotAppend(Flatten(xs[..k - 1]), xs[k - 1], Flatten(vs[..k - 1]), vs[k - 1]);
    }
  }

  /** Σ over the first k ranks of xs[q] · vs[q]. */
  function SumDots(xs: seq<seq<Elem>>, vs: seq<seq<Elem>>, k: nat): Elem
    requires k <= |xs| == |vs| && forall q :: 0 <= q < |xs| ==> |xs[q]| == |vs[q]|
  {
    if k == 0 then 0 else SumDots(xs, vs, k - 1) + Dot(xs[k - 1], vs[k - 1])
  }

  /** SumAt over the first k outputs is the sum of the first k products. */
  lemma {:induction false} SumAtDots(ys: seq<seq<Elem>>, xs: seq<seq<Elem>>, vs: seq<seq<Elem>>, j: nat, k: nat)
    requires k <= |ys| == |xs| == |vs| && forall q :: 0 <= q < |xs| ==> |xs[q]| == |vs[q]|
    requires forall q :: 0 <= q < |ys| ==> j < |ys[q]| && ys[q][j] == Dot(xs[q], vs[q])
    ensures SumAt(ys[..k], j) == SumDots(xs, vs, k)
  {
    if k > 0 {
      assert ys[..k][..k - 1] == ys[..k - 1];
      SumAtDots(ys, xs, vs, j, k - 1);
    }
  }

  /**
   * Row parallelism: rank q holds chunk q of the input and row shard q of
   * the weight, and every rank the whole bias. The reduced products are the
   * whole product and the bias is added once, after the reduce, so every
   * rank ends with the unsharded output.
   */
  lemma RowForwardSums(x: seq<Elem>, w: Tensor, reversed: bool, shards: seq<Tensor>, inputs: seq<seq<Elem>>,
                       bias: Option<seq<Elem>>, biases: seq<Option<seq<Elem>>>, q: nat)
    requires w.Mat? && Wf(w) && RowShards(shards, w, reversed) && q < |shards|
    requires |x| == InFeatures(w, reversed)
    requires |inputs| == |biases| == |shards| && forall p :: 0 <= p < |shards| ==> inputs[p] == Chunk(x, |shards|)[p]
    requires forall p :: 0 <= p < |biases| ==> biases[p] == bias
    ensures forall p :: 0 <= p < |shards| ==> shards[p].Mat? && Wf(shards[p])
    ensures RowParallelForward(inputs, shards, biases, reversed, q) == Full(x, w, reversed, bias)
  {
    var n := |shards|;
    var fs := Features(w, reversed);
    RowShardsFit(x, w, reversed, shards, inputs);
    var ys := MatMulEach(inputs, shards, reversed).value;
    forall p | 0 <= p < n ensures |ys[p]| == |fs| {
      assert ys[p] == MatMul(inputs[p], shards[p], reversed).value;
    }
    forall p, j | 0 <= p < n && 0 <= j < |fs|
      ensures |Chunk(x, n)[p]| == |Chunk(fs[j], n)[p]| && ys[p][j] == Dot(Chunk(x, n)[p], Chunk(fs[j], n)[p])
    {
      assert ys[p] == MatMul(inputs[p], shards[p], reversed).value;
    }
    ReducedProducts(ys, x, fs, n);
  }

  /** Every rank's input fits its row shard, whose feature vectors are the chunks of the whole weight's. */
  lemma RowShardsFit(x: seq<Elem>, w: Tensor, reversed: bool, shards: seq<Tensor>, inputs: seq<seq<Elem>>)
    requires w.Mat? && Wf(w) && RowShards(shards, w, reversed)
    requires |x| == InFeatures(w, reversed)
    requires |inputs| == |shards| && forall p :: 0 <= p < |shards| ==> inputs[p] == Chunk(x, |shards|)[p]
    ensures ChunkCount(|x|, |shards|) == |shards|
    ensures forall p :: 0 <= p < |shards| ==>
      && shards[p].Mat? && Wf(shards[p])
      && InFeatures(shards[p], reversed) == |inputs[p]|
      && |Features(shards[p], reversed)| == |Features(w, reversed)|
      && forall j :: 0 <= j < |Features(w, reversed)| ==> Features(shards[p], reversed)[j] == Chunk(Features(w, reversed)[j], |shards|)[p]
  {
    var n := |shards|;
    var fs := Features(w, reversed);
    assert |ChunkT(w, n, RowAxis(reversed)).value| == ChunkCount(|x|, n);
    forall p | 0 <= p < n
      ensures shards[p].Mat? && Wf(shards[p])
      ensures InFeatures(shards[p], reversed) == |inputs[p]|
      ensures |Features(shards[p], reversed)| == |fs|
      ensures forall j :: 0 <= j < |fs| ==> Features(shards[p], reversed)[j] == Chunk(fs[j], n)[p]
    {
      RowShard(w, reversed, n, p);
      ChunkAt(x, n, p);
      forall j | 0 <= j < |fs| ensures Features(shards[p], reversed)[j] == Chunk(fs[j], n)[p] {
        ChunkAt(fs[j], n, p);
      }
    }
  }

  /** Summing over ranks the products of matching chunks gives the whole products. */
  lemma ReducedProducts(ys: seq<seq<Elem>>, x: seq<Elem>, fs: seq<seq<Elem>>, n: nat)
    requires n > 0 && |ys| == n
    requires ChunkCount(|x|, n) == n && forall j :: 0 <= j < |fs| ==> |fs[j]| == |x|
    requires forall p :: 0 <= p < n ==> |ys[p]| == |fs|
    requires forall p, j :: 0 <= p < n && 0 <= j < |fs| ==>
      && |Chunk(x, n)[p]| == |Chunk(fs[j], n)[p]|
      && ys[p][j] == Dot(Chunk(x, n)[p], Chunk(fs[j], n)[p])
    ensures Reduce(ys) == Ok(seq(|fs|, j requires 0 <= j < |fs| => Dot(x, fs[j])))
  {
    var want := seq(|fs|, j requires 0 <= j < |fs| => Dot(x, fs[j]));
    assert forall q :: 0 <= q < |ys| ==> |ys[q]| == |ys[0]|;
    var total := seq(|ys[0]|, j requires 0 <= j < |ys[0]| => SumAt(ys, j));
    assert Reduce(ys) == Ok(total);
    forall j | 0 <= j < |fs| ensures total[j] == want[j] {
      OneFeature(ys, x, fs[j], n, j);
    }
    assert total == want;
  }

  /** Entry j of the reduce: the chunk products of input and feature vector j add up to their whole product. */
  lemma OneFeature(ys: seq<seq<Elem>>, x: seq<Elem>, v: seq<Elem>, n: nat, j: nat)
    requires n > 0 && |ys| == n && |v| == |x| && ChunkCount(|x|, n) == n
    requires forall p :: 0 <= p < n ==>
      && j < |ys[p]|
      && |Chunk(x, n)[p]| == |Chunk(v, n)[p]|
      && ys[p][j] == Dot(Chunk(x, n)[p], Chunk(v, n)[p])
    ensures SumAt(ys, j) == Dot(x, v)
  {
    var xs := Chunk(x, n);
    var vs := Chunk(v, n);
    SumAtDots(ys, xs, vs, j, n);
    DotOfPieces(xs, vs, n);
    assert xs[..n] == xs && vs[..n] == vs && ys[..n] == ys;
    ChunkCovers(x, n);
    ChunkCovers(v, n);
  }
}
