/**
 * The tensor arithmetic of the 1-D tensor-parallel engine: how one weight is
 * cut into per-rank shards (`_slice`, `_deconstruct_combined_qkv`) and how
 * the shards gathered from every rank are joined back (`_merge`,
 * `_reconstruct_combined_qkv`).
 *
 * A weight whose sliced axis holds F fused projections (a combined
 * query-key-value matrix has F = 3) is cut into F*W chunks for W ranks;
 * rank r keeps chunks r, W + r, ..., (F - 1)W + r, that is, its share of
 * every projection. Merging cuts each shard back into its F parts, joins
 * part j of every rank, and joins the F results.
 */
module Regroup {
  import opened Slices
  import opened Tensors
  import opened Results

  /** Why slicing a weight fails: a library error, or `pieces[rank]` past the end of the list. */
  datatype ShardError = Torch(err: TorchError) | NoChunkForRank

  // ---------------------------------------------------------------------
  // Slicing
  // ---------------------------------------------------------------------

  /**
   * `_deconstruct_combined_qkv(chunks, w)` as written: the chunks are grouped
   * w at a time, the groups are zipped, and each tuple is joined along the
   * LAST axis (dim = -1), whatever axis the chunks were cut along.
   */
  function DeconstructCombinedQkv(chunks: seq<Tensor>, w: nat): Result<seq<Tensor>, TorchError>
    requires w > 0
  {
    CatEach(Zip(Group(chunks, w)), -1)
  }

  /** The same regrouping with each tuple joined along axis d, the axis the chunks were cut along. */
  function DeconstructAlong(chunks: seq<Tensor>, w: nat, d: int): Result<seq<Tensor>, TorchError>
    requires w > 0
  {
    CatEach(Zip(Group(chunks, w)), d)
  }

  /** The items rank r receives out of f*w items: r, w + r, ..., (f - 1)w + r. */
  function RankItems<T>(xs: seq<T>, f: nat, w: nat, r: nat): (ys: seq<T>)
    requires |xs| == f * w && r < w
    ensures |ys| == f
  {
    seq(f, j requires 0 <= j < f => xs[SlotPos(j, r, f, w)])
  }

  /**
   * The regrouping hands rank r exactly its items r, w + r, ..., joined:
   * `zip(*groups)` over f groups of w chunks is the transpose of the groups.
   */
  lemma DeconstructByRank(chunks: seq<Tensor>, f: nat, w: nat, d: int)
    requires f > 0 && w > 0 && |chunks| == f * w
    ensures DeconstructAlong(chunks, w, d) ==
      CatEach(seq(w, r requires 0 <= r < w => RankItems(chunks, f, w, r)), d)
  {
    GroupZip(chunks, f, w);
    assert Zip(Group(chunks, w)) == seq(w, r requires 0 <= r < w => RankItems(chunks, f, w, r));
  }

  /**
   * The new value of a weight on rank `rank` after `_slice`: cut into f*w
   * chunks along d; when f > 1, regroup them with each rank's chunks joined
   * along `joinDim`; keep the piece at index `rank`. A 0-dimensional weight
   * is left as it is.
   */
  function SliceJoining(t: Tensor, f: int, w: nat, d: int, rank: nat, joinDim: int): Result<Tensor, ShardError>
    requires w > 0
  {
    if Rank(t) == 0 then Ok(t)
    else
      var chunks :- ChunkT(t, f * w, d).MapError(e => Torch(e));
      var pieces :- (if f > 1 then CatEach(Zip(Group(chunks, w)), joinDim) else Ok(chunks)).MapError(e => Torch(e));
      if rank < |pieces| then Ok(pieces[rank]) else Err(NoChunkForRank)
  }

  /** `_slice` as written: the fused pieces are joined along the last axis. */
  function SliceTensorAsWritten(t: Tensor, f: int, w: nat, d: int, rank: nat): Result<Tensor, ShardError>
    requires w > 0
  {
    SliceJoining(t, f, w, d, rank, -1)
  }

  /**
   * `_slice` with the fused pieces joined along the slicing axis d: the
   * evidently intended shard, which `_merge` can undo for every f. It
   * differs from the code as written only when f > 1 and d is not the last
   * axis (see AsWrittenAgreesOnLastAxis and AsWrittenRoundTripFails).
   */
  function SliceTensor(t: Tensor, f: int, w: nat, d: int, rank: nat): Result<Tensor, ShardError>
    requires w > 0
  {
    SliceJoining(t, f, w, d, rank, d)
  }

  // ---------------------------------------------------------------------
  // Merging
  // ---------------------------------------------------------------------

  /** `tensor.chunk(f, dim=d)` of every tensor in turn; the first failure is the result. */
  function ChunkEach(tensors: seq<Tensor>, f: nat, d: int): (r: Result<seq<seq<Tensor>>, TorchError>)
    ensures r.Ok? ==> |r.value| == |tensors|
    ensures r.Ok? <==> forall i :: 0 <= i < |tensors| ==> ChunkT(tensors[i], f, d).Ok?
    ensures r.Ok? ==> forall i :: 0 <= i < |tensors| ==> r.value[i] == ChunkT(tensors[i], f, d).value
  {
    if tensors == [] then Ok([])
    else
      match ChunkT(tensors[0], f, d)
      case Err(e) => Err(e)
      case Ok(first) =>
        match ChunkEach(tensors[1..], f, d)
        case Err(e) =>
          assert forall i :: 1 <= i < |tensors| ==> tensors[i] == tensors[1..][i - 1];
          Err(e)
        case Ok(rest) =>
          assert forall i :: 1 <= i < |tensors| ==> tensors[i] == tensors[1..][i - 1];
          Ok([first] + rest)
  }

  /** When every tensor can be cut, ChunkEach yields exactly their chunks. */
  lemma ChunkEachOk(tensors: seq<Tensor>, f: nat, d: int, parts: seq<seq<Tensor>>)
    requires |parts| == |tensors|
    requires forall i :: 0 <= i < |tensors| ==> ChunkT(tensors[i], f, d) == Ok(parts[i])
    ensures ChunkEach(tensors, f, d) == Ok(parts)
  {
    var r := ChunkEach(tensors, f, d);
    assert r.Ok?;
    assert r.value == parts;
  }

  /** When the tensors before i can all be cut and tensor i cannot, ChunkEach fails with tensor i's error. */
  lemma {:induction false} ChunkEachFails(tensors: seq<Tensor>, f: nat, d: int, i: nat)
    requires i < |tensors| && ChunkT(tensors[i], f, d).Err?
    requires forall k :: 0 <= k < i ==> ChunkT(tensors[k], f, d).Ok?
    ensures ChunkEach(tensors, f, d) == Err(ChunkT(tensors[i], f, d).error)
    decreases i
  {
    if i > 0 {
      assert tensors[1..][i - 1] == tensors[i];
      ChunkEachFails(tensors[1..], f, d, i - 1);
    }
  }

  /** Slot i receives cs[i] when there is one. */
  function AppendChunks(slots: seq<seq<Tensor>>, cs: seq<Tensor>): (r: seq<seq<Tensor>>)
    ensures |r| == |slots|
  {
    seq(|slots|, i requires 0 <= i < |slots| => if i < |cs| then slots[i] + [cs[i]] else slots[i])
  }

  /**
   * The f slots of `_reconstruct_combined_qkv` after the chunks of every
   * gathered tensor have been handed out, chunk i going to slot i.
   */
  function Distribute(parts: seq<seq<Tensor>>, f: nat): (slots: seq<seq<Tensor>>)
    ensures |slots| == f
  {
    if parts == [] then seq(f, _ => [])
    else AppendChunks(Distribute(parts[..|parts| - 1], f), parts[|parts| - 1])
  }

  /** Distributing one more tensor's chunks appends them to the slots. */
  lemma DistributeSnoc(parts: seq<seq<Tensor>>, cs: seq<Tensor>, f: nat)
    ensures Distribute(parts + [cs], f) == AppendChunks(Distribute(parts, f), cs)
  {
    assert (parts + [cs])[..|parts|] == parts;
  }

  /** `_reconstruct_combined_qkv(tensors, f, d)`: join every slot along d, then join the slots in order. */
  function Reassembled(tensors: seq<Tensor>, f: nat, d: int): Result<Tensor, TorchError>
  {
    var parts :- ChunkEach(tensors, f, d);
    var joined :- CatEach(Distribute(parts, f), d);
    CatT(joined, d)
  }

  /** The merged weight `_merge` computes from the shards gathered from every rank. */
  function MergeTensor(gathered: seq<Tensor>, f: int, d: int): Result<Tensor, TorchError>
  {
    if f > 1 then Reassembled(gathered, f, d) else CatT(gathered, d)
  }

  /** Slot j holds item j of every part, in order. */
  function Transpose(parts: seq<seq<Tensor>>, f: nat): (slots: seq<seq<Tensor>>)
    requires forall i :: 0 <= i < |parts| ==> |parts[i]| == f
    ensures |slots| == f
    ensures forall j :: 0 <= j < f ==> |slots[j]| == |parts|
    ensures forall j, i :: 0 <= j < f && 0 <= i < |parts| ==> slots[j][i] == parts[i][j]
  {
    seq(f, j requires 0 <= j < f => seq(|parts|, i requires 0 <= i < |parts| => parts[i][j]))
  }

  /** When every tensor was cut into exactly f chunks, slot j holds chunk j of every tensor, in order. */
  lemma {:induction false} DistributeTransposes(parts: seq<seq<Tensor>>, f: nat)
    requires forall i :: 0 <= i < |parts| ==> |parts[i]| == f
    ensures Distribute(parts, f) == Transpose(parts, f)
  {
    var all := Transpose(parts, f);
    if parts == [] {
      assert all == seq(f, _ => []);
    } else {
      var m := |parts| - 1;
      var init := parts[..m];
      DistributeTransposes(init, f);
      var slots := Transpose(init, f);
      assert AppendChunks(slots, parts[m]) == all by {
        forall j | 0 <= j < f ensures slots[j] + [parts[m][j]] == all[j] {
        }
      }
    }
  }

  // ---------------------------------------------------------------------
  // The round trip on slices
  // ---------------------------------------------------------------------

  /** Rank r's share of the slices: its chunks r, w + r, ... joined in order. */
  function Share<S>(cs: seq<seq<S>>, f: nat, w: nat, r: nat): seq<S>
    requires |cs| == f * w && r < w
  {
    Flatten(RankItems(cs, f, w, r))
  }

  /** With f*w*k slices, every one of the f*w chunks has exactly k slices. */
  lemma EvenChunkLengths<S>(x: seq<S>, n: nat, k: nat)
    requires n > 0 && |x| == n * k
    ensures |Chunk(x, n)| == n
    ensures forall q :: 0 <= q < n ==> Chunk(x, n)[q] == Window(x, q * k, k) && |Chunk(x, n)[q]| == k
  {
    EvenChunks(x, n, k);
    forall q | 0 <= q < n ensures |Window(x, q * k, k)| == k {
      MulMono(q + 1, n, k);
      MulSucc(q, k);
    }
  }

  /** Cutting rank r's share into f chunks gives back its f chunks, each of k slices. */
  lemma ShareChunks<S>(x: seq<S>, f: nat, w: nat, k: nat, r: nat)
    requires f > 0 && w > 0 && |x| == (f * w) * k && r < w
    ensures |Chunk(x, f * w)| == f * w
    ensures |Share(Chunk(x, f * w), f, w, r)| == f * k
    ensures Chunk(Share(Chunk(x, f * w), f, w, r), f) == RankItems(Chunk(x, f * w), f, w, r)
  {
    var cs := Chunk(x, f * w);
    EvenChunkLengths(x, f * w, k);
    var items := RankItems(cs, f, w, r);
    var share := Flatten(items);
    FlattenLength(items, k);
    EvenChunks(share, f, k);
    forall j | 0 <= j < f ensures Window(share, j * k, k) == items[j] {
      WindowOfFlatten(items, k, j);
    }
  }

  /** Joining slot j (items j*w .. j*w + w - 1) for j = 0 .. f-1 joins all the items. */
  lemma RegatherItems<S>(cs: seq<seq<S>>, f: nat, w: nat)
    requires f > 0 && w > 0 && |cs| == f * w
    ensures Flatten(seq(f, j requires 0 <= j < f =>
      Flatten(seq(w, r requires 0 <= r < w => cs[SlotPos(j, r, f, w)])))) == Flatten(cs)
  {
    var g := Group(cs, w);
    GroupSlots(cs, f, w);
    forall j | 0 <= j < f ensures Flatten(seq(w, r requires 0 <= r < w => cs[SlotPos(j, r, f, w)])) == Flatten(g[j]) {
      assert g[j] == seq(w, r requires 0 <= r < w => cs[SlotPos(j, r, f, w)]);
    }
    assert seq(f, j requires 0 <= j < f => Flatten(seq(w, r requires 0 <= r < w => cs[SlotPos(j, r, f, w)]))) ==
      seq(|g|, j requires 0 <= j < |g| => Flatten(g[j]));
    FlattenFlatten(g);
    GroupCovers(cs, f, w);
  }

  /** Joining slot j (chunk j of every share) for j = 0 .. f-1 gives back all the slices. */
  lemma RegatherSlices<S>(x: seq<S>, f: nat, w: nat, k: nat)
    requires f > 0 && w > 0 && |x| == (f * w) * k
    ensures |Chunk(x, f * w)| == f * w
    ensures Flatten(seq(f, j requires 0 <= j < f =>
      Flatten(seq(w, r requires 0 <= r < w => Chunk(x, f * w)[SlotPos(j, r, f, w)])))) == x
  {
    EvenChunkCount(|x|, f * w, k);
    RegatherItems(Chunk(x, f * w), f, w);
    ChunkCovers(x, f * w);
  }

  // ---------------------------------------------------------------------
  // The round trip on tensors
  // ---------------------------------------------------------------------

  /** The tensors built from each list of slices. */
  function Build<S>(build: seq<S> -> Tensor, ys: seq<seq<S>>): (ts: seq<Tensor>)
    ensures |ts| == |ys|
    ensures forall i :: 0 <= i < |ys| ==> ts[i] == build(ys[i])
  {
    seq(|ys|, i requires 0 <= i < |ys| => build(ys[i]))
  }

  /** Every slice of y has the shape a tensor built from slices needs. */
  predicate AllFit<S>(fits: S -> bool, y: seq<S>) {
    forall i :: 0 <= i < |y| ==> fits(y[i])
  }

  /** Cutting a tensor built from slices along d builds the chunks of its slices. */
  ghost predicate ChunksAlong<S(!new)>(build: seq<S> -> Tensor, fits: S -> bool, d: int) {
    forall y: seq<S>, n: nat {:trigger ChunkT(build(y), n, d)} :: n > 0 && AllFit(fits, y) ==> ChunkT(build(y), n, d) == Ok(Build(build, Chunk(y, n)))
  }

  /** Joining tensors built from slices along d builds the joined slices. */
  ghost predicate JoinsAlong<S(!new)>(build: seq<S> -> Tensor, fits: S -> bool, d: int) {
    forall ys: seq<seq<S>> {:trigger CatT(Build(build, ys), d)} :: |ys| > 0 && (forall i :: 0 <= i < |ys| ==> AllFit(fits, ys[i])) ==>
      CatT(Build(build, ys), d) == Ok(build(Flatten(ys)))
  }

  lemma UseChunks<S(!new)>(build: seq<S> -> Tensor, fits: S -> bool, d: int, y: seq<S>, n: nat)
    requires ChunksAlong(build, fits, d) && n > 0 && AllFit(fits, y)
    ensures ChunkT(build(y), n, d) == Ok(Build(build, Chunk(y, n)))
  {
  }

  lemma UseJoins<S(!new)>(build: seq<S> -> Tensor, fits: S -> bool, d: int, ys: seq<seq<S>>)
    requires JoinsAlong(build, fits, d) && |ys| > 0
    requires forall i :: 0 <= i < |ys| ==> AllFit(fits, ys[i])
    ensures CatT(Build(build, ys), d) == Ok(build(Flatten(ys)))
  {
  }

  lemma ChunkFits<S>(fits: S -> bool, y: seq<S>, n: nat)
    requires n > 0 && AllFit(fits, y)
    ensures forall i :: 0 <= i < |Chunk(y, n)| ==> AllFit(fits, Chunk(y, n)[i])
  {
    var c := ChunkSize(|y|, n);
    forall i | 0 <= i < |Chunk(y, n)| ensures AllFit(fits, Chunk(y, n)[i]) {
      var lo := Min(i * c, |y|);
      var hi := Min(i * c + c, |y|);
      assert Chunk(y, n)[i] == y[lo..hi];
      assert forall m :: 0 <= m < hi - lo ==> y[lo..hi][m] == y[lo + m];
    }
  }

  lemma {:induction false} FlattenFits<S>(fits: S -> bool, ys: seq<seq<S>>)
    requires forall i :: 0 <= i < |ys| ==> AllFit(fits, ys[i])
    ensures AllFit(fits, Flatten(ys))
  {
    if ys != [] {
      FlattenFits(fits, ys[..|ys| - 1]);
    }
  }

  /** Tuple r of the regrouped built chunks is built from rank r's items. */
  lemma RankTuple<S>(build: seq<S> -> Tensor, cs: seq<seq<S>>, f: nat, w: nat)
    requires f > 0 && w > 0 && |cs| == f * w
    ensures |Zip(Group(Build(build, cs), w))| == w
    ensures forall r :: 0 <= r < w ==> Zip(Group(Build(build, cs), w))[r] == Build(build, RankItems(cs, f, w, r))
  {
    var chunks := Build(build, cs);
    GroupZip(chunks, f, w);
    forall r | 0 <= r < w ensures Zip(Group(chunks, w))[r] == Build(build, RankItems(cs, f, w, r)) {
    }
  }

  /** With f > 1 and f*w*k slices, rank r's piece is built from its share: its chunks r, w + r, ... joined. */
  lemma FusedPieces<S(!new)>(build: seq<S> -> Tensor, fits: S -> bool, joinDim: int, cs: seq<seq<S>>, f: nat, w: nat)
    requires JoinsAlong(build, fits, joinDim)
    requires forall q :: 0 <= q < |cs| ==> AllFit(fits, cs[q])
    requires f > 0 && w > 0 && |cs| == f * w
    ensures CatEach(Zip(Group(Build(build, cs), w)), joinDim) ==
      Ok(seq(w, r requires 0 <= r < w => build(Share(cs, f, w, r))))
  {
    var z := Zip(Group(Build(build, cs), w));
    RankTuple(build, cs, f, w);
    var pieces := seq(w, r requires 0 <= r < w => build(Share(cs, f, w, r)));
    forall r | 0 <= r < w ensures CatT(z[r], joinDim) == Ok(pieces[r]) {
      var items := RankItems(cs, f, w, r);
      assert forall i :: 0 <= i < |items| ==> AllFit(fits, items[i]);
      UseJoins(build, fits, joinDim, items);
      assert z[r] == Build(build, items);
      assert Share(cs, f, w, r) == Flatten(items);
      assert pieces[r] == build(Flatten(items));
    }
    CatEachOk(z, joinDim, pieces);
  }

  /** Slot j joins into the tensor built from the joined slices of its chunks. */
  lemma SlotJoins<S(!new)>(build: seq<S> -> Tensor, fits: S -> bool, d: int, cs: seq<seq<S>>, f: nat, w: nat, j: nat)
    requires JoinsAlong(build, fits, d)
    requires forall q :: 0 <= q < |cs| ==> AllFit(fits, cs[q])
    requires w > 0 && |cs| == f * w && j < f
    ensures var column := seq(w, r requires 0 <= r < w => cs[SlotPos(j, r, f, w)]);
      CatT(Build(build, column), d) == Ok(build(Flatten(column))) && AllFit(fits, Flatten(column))
  {
    var column := seq(w, r requires 0 <= r < w => cs[SlotPos(j, r, f, w)]);
    assert forall i :: 0 <= i < |column| ==> AllFit(fits, column[i]);
    UseJoins(build, fits, d, column);
    FlattenFits(fits, column);
  }

  /** With f > 1 and f*w*k slices along d, rank r keeps the tensor built from its share of the slices. */
  lemma FusedSlices<S(!new)>(build: seq<S> -> Tensor, fits: S -> bool, d: int, joinDim: int, x: seq<S>, f: nat, w: nat, k: nat)
    requires ChunksAlong(build, fits, d) && JoinsAlong(build, fits, joinDim) && AllFit(fits, x)
    requires f > 1 && w > 0 && |x| == (f * w) * k
    ensures |Chunk(x, f * w)| == f * w
    ensures forall r :: 0 <= r < w ==>
      SliceJoining(build(x), f, w, d, r, joinDim) == Ok(build(Share(Chunk(x, f * w), f, w, r)))
  {
    var n := f * w;
    var cs := Chunk(x, n);
    EvenChunkCount(|x|, n, k);
    ChunkFits(fits, x, n);
    UseChunks(build, fits, d, x, n);
    var chunks := Build(build, cs);
    FusedPieces(build, fits, joinDim, cs, f, w);
    var pieces := seq(w, r requires 0 <= r < w => build(Share(cs, f, w, r)));
    forall r | 0 <= r < w ensures SliceJoining(build(x), f, w, d, r, joinDim) == Ok(pieces[r]) {
      assert Rank(build(x)) >= 1;
      assert ChunkT(build(x), f * w, d).MapError(e => Torch(e)) == Ok(chunks);
      assert CatEach(Zip(Group(chunks, w)), joinDim).MapError(e => Torch(e)) == Ok(pieces);
    }
  }

  /** The chunking half of FusedMerge: the shard of rank r cuts into the f items of rank r. */
  lemma FusedChunks<S(!new)>(build: seq<S> -> Tensor, fits: S -> bool, d: int, x: seq<S>, f: nat, w: nat, k: nat)
    returns (parts: seq<seq<Tensor>>)
    requires ChunksAlong(build, fits, d) && AllFit(fits, x)
    requires f > 1 && w > 0 && |x| == (f * w) * k
    ensures |Chunk(x, f * w)| == f * w && |parts| == w
    ensures forall r :: 0 <= r < w ==> parts[r] == Build(build, RankItems(Chunk(x, f * w), f, w, r))
    ensures ChunkEach(seq(w, r requires 0 <= r < w => build(Share(Chunk(x, f * w), f, w, r))), f, d) == Ok(parts)
  {
    var n := f * w;
    var cs := Chunk(x, n);
    EvenChunkCount(|x|, n, k);
    ChunkFits(fits, x, n);
    var shares := seq(w, r requires 0 <= r < w => build(Share(cs, f, w, r)));
    parts := seq(w, r requires 0 <= r < w => Build(build, RankItems(cs, f, w, r)));
    forall r | 0 <= r < w ensures ChunkT(shares[r], f, d) == Ok(parts[r]) {
      var items := RankItems(cs, f, w, r);
      ShareChunks(x, f, w, k, r);
      FlattenFits(fits, items);
      UseChunks(build, fits, d, Share(cs, f, w, r), f);
    }
    ChunkEachOk(shares, f, d, parts);
  }

  /** The joining half of FusedMerge: slot j joins into column j, and the columns join into the whole. */
  lemma FusedJoins<S(!new)>(build: seq<S> -> Tensor, fits: S -> bool, d: int, x: seq<S>, f: nat, w: nat, k: nat, parts: seq<seq<Tensor>>)
    requires JoinsAlong(build, fits, d) && AllFit(fits, x)
    requires f > 1 && w > 0 && |x| == (f * w) * k
    requires |Chunk(x, f * w)| == f * w && |parts| == w
    requires forall r :: 0 <= r < w ==> parts[r] == Build(build, RankItems(Chunk(x, f * w), f, w, r))
    ensures CatEach(Distribute(parts, f), d).Ok?
    ensures CatT(CatEach(Distribute(parts, f), d).value, d) == Ok(build(x))
  {
    var n := f * w;
    var cs := Chunk(x, n);
    ChunkFits(fits, x, n);
    DistributeTransposes(parts, f);
    var slots := Transpose(parts, f);
    var inner := seq(f, j requires 0 <= j < f => Flatten(seq(w, r requires 0 <= r < w => cs[SlotPos(j, r, f, w)])));
    forall j | 0 <= j < f ensures CatT(slots[j], d) == Ok(build(inner[j])) && AllFit(fits, inner[j]) {
      var column := seq(w, r requires 0 <= r < w => cs[SlotPos(j, r, f, w)]);
      assert slots[j] == Build(build, column);
      SlotJoins(build, fits, d, cs, f, w, j);
    }
    var joined := Build(build, inner);
    CatEachOk(slots, d, joined);
    UseJoins(build, fits, d, inner);
    RegatherSlices(x, f, w, k);
  }

  /** Merging the w fused shards restores the tensor they were cut from. */
  lemma FusedMerge<S(!new)>(build: seq<S> -> Tensor, fits: S -> bool, d: int, x: seq<S>, f: nat, w: nat, k: nat)
    requires ChunksAlong(build, fits, d) && JoinsAlong(build, fits, d) && AllFit(fits, x)
    requires f > 1 && w > 0 && |x| == (f * w) * k
    ensures |Chunk(x, f * w)| == f * w
    ensures MergeTensor(seq(w, r requires 0 <= r < w => build(Share(Chunk(x, f * w), f, w, r))), f, d) == Ok(build(x))
  {
    var parts := FusedChunks(build, fits, d, x, f, w, k);
    FusedJoins(build, fits, d, x, f, w, k, parts);
  }

  /**
   * Without fusion, rank r keeps chunk r of `torch.chunk(w)` (an index error
   * when the chunks run out first), and joining w chunks restores the tensor.
   */
  lemma UnfusedRoundTrip<S(!new)>(build: seq<S> -> Tensor, fits: S -> bool, d: int, x: seq<S>, w: nat)
    requires ChunksAlong(build, fits, d) && JoinsAlong(build, fits, d) && AllFit(fits, x) && w > 0
    ensures forall r :: 0 <= r < w ==>
      SliceTensor(build(x), 1, w, d, r) == (if r < |Chunk(x, w)| then Ok(build(Chunk(x, w)[r])) else Err(NoChunkForRank))
    ensures |Chunk(x, w)| == w ==> MergeTensor(Build(build, Chunk(x, w)), 1, d) == Ok(build(x))
  {
    var cs := Chunk(x, w);
    assert ChunkT(build(x), 1 * w, d) == Ok(Build(build, cs));
    if |cs| == w {
      ChunkFits(fits, x, w);
      ChunkCovers(x, w);
    }
  }

  // ---------------------------------------------------------------------
  // The three ways a tensor is seen as slices
  // ---------------------------------------------------------------------

  /** A vector from its elements. */
  const VecOf: seq<Elem> -> Tensor := v => Vec(v)

  /** Any element is a valid slice of a vector. */
  const AnyElem: Elem -> bool := e => true

  /** A matrix of the given width from its rows. */
  function RowsOfWidth(width: nat): seq<seq<Elem>> -> Tensor {
    rows => Mat(rows, width)
  }

  /** A matrix of the given height from its columns. */
  function ColsOfHeight(height: nat): seq<seq<Elem>> -> Tensor {
    cols => FromCols(cols, height)
  }

  /** A row or column of the given length. */
  function HasLength(n: nat): seq<Elem> -> bool {
    s => |s| == n
  }

  lemma VecLayout(d: int)
    requires d == 0 || d == -1
    ensures ChunksAlong(VecOf, AnyElem, d) && JoinsAlong(VecOf, AnyElem, d)
  {
    forall y: seq<Elem>, n: nat | n > 0 && AllFit(AnyElem, y)
      ensures ChunkT(VecOf(y), n, d) == Ok(Build(VecOf, Chunk(y, n)))
    {
      assert VecChunks(y, n) == Build(VecOf, Chunk(y, n));
    }
    forall ys: seq<seq<Elem>> | |ys| > 0 && (forall i :: 0 <= i < |ys| ==> AllFit(AnyElem, ys[i]))
      ensures CatT(Build(VecOf, ys), d) == Ok(VecOf(Flatten(ys)))
    {
      CatVecs(ys, d);
      assert Build(VecOf, ys) == seq(|ys|, i requires 0 <= i < |ys| => Vec(ys[i]));
    }
  }

  lemma RowLayout(width: nat, d: int)
    requires d == 0 || d == -2
    ensures ChunksAlong(RowsOfWidth(width), HasLength(width), d)
    ensures JoinsAlong(RowsOfWidth(width), HasLength(width), d)
  {
    var build := RowsOfWidth(width);
    forall y: seq<seq<Elem>>, n: nat | n > 0 && AllFit(HasLength(width), y)
      ensures ChunkT(build(y), n, d) == Ok(Build(build, Chunk(y, n)))
    {
      assert RowChunks(y, width, n) == Build(build, Chunk(y, n));
    }
    forall ys: seq<seq<seq<Elem>>> | |ys| > 0 && (forall i :: 0 <= i < |ys| ==> AllFit(HasLength(width), ys[i]))
      ensures CatT(Build(build, ys), d) == Ok(build(Flatten(ys)))
    {
      CatRowBlocks(ys, width, d);
      assert Build(build, ys) == seq(|ys|, i requires 0 <= i < |ys| => Mat(ys[i], width));
    }
  }

  lemma ColLayout(height: nat, d: int)
    requires d == 1 || d == -1
    ensures ChunksAlong(ColsOfHeight(height), HasLength(height), d)
    ensures JoinsAlong(ColsOfHeight(height), HasLength(height), d)
  {
    var build := ColsOfHeight(height);
    forall y: seq<seq<Elem>>, n: nat | n > 0 && AllFit(HasLength(height), y)
      ensures ChunkT(build(y), n, d) == Ok(Build(build, Chunk(y, n)))
    {
      var m := FromCols(y, height);
      ColsOfFromCols(y, height);
      assert ColChunks(m.rows, m.width, n) == Build(build, Chunk(y, n));
    }
    forall ys: seq<seq<seq<Elem>>> | |ys| > 0 && (forall i :: 0 <= i < |ys| ==> AllFit(HasLength(height), ys[i]))
      ensures CatT(Build(build, ys), d) == Ok(build(Flatten(ys)))
    {
      assert forall i, j :: 0 <= i < |ys| && 0 <= j < |ys[i]| ==> HasLength(height)(ys[i][j]);
      CatColBlocks(ys, height, d);
      assert Build(build, ys) == seq(|ys|, i requires 0 <= i < |ys| => FromCols(ys[i], height));
    }
  }

  /** The round trip without fusion, for a tensor built from slices x along d. */
  lemma UnfusedVia<S(!new)>(build: seq<S> -> Tensor, fits: S -> bool, d: int, x: seq<S>, t: Tensor, w: nat, k: nat)
    requires ChunksAlong(build, fits, d) && JoinsAlong(build, fits, d) && AllFit(fits, x) && t == build(x)
    requires forall y {:trigger build(y)} :: Rank(build(y)) == Rank(t)
    requires w > 0 && |x| == (1 * w) * k
    ensures forall r :: 0 <= r < w ==> SliceTensor(t, 1, w, d, r).Ok? && Rank(SliceTensor(t, 1, w, d, r).value) == Rank(t)
    ensures MergeTensor(seq(w, r requires 0 <= r < w => SliceTensor(t, 1, w, d, r).value), 1, d) == Ok(t)
  {
    EvenChunkCount(|x|, w, k);
    UnfusedRoundTrip(build, fits, d, x, w);
    assert seq(w, r requires 0 <= r < w => SliceTensor(t, 1, w, d, r).value) == Build(build, Chunk(x, w));
  }

  /** The round trip with fusion degree f > 1, for a tensor built from slices x along d. */
  lemma FusedVia<S(!new)>(build: seq<S> -> Tensor, fits: S -> bool, d: int, x: seq<S>, t: Tensor, f: nat, w: nat, k: nat)
    requires ChunksAlong(build, fits, d) && JoinsAlong(build, fits, d) && AllFit(fits, x) && t == build(x)
    requires forall y {:trigger build(y)} :: Rank(build(y)) == Rank(t)
    requires f > 1 && w > 0 && |x| == (f * w) * k
    ensures forall r :: 0 <= r < w ==> SliceTensor(t, f, w, d, r).Ok? && Rank(SliceTensor(t, f, w, d, r).value) == Rank(t)
    ensures MergeTensor(seq(w, r requires 0 <= r < w => SliceTensor(t, f, w, d, r).value), f, d) == Ok(t)
  {
    FusedSlices(build, fits, d, d, x, f, w, k);
    FusedMerge(build, fits, d, x, f, w, k);
    var shares := seq(w, r requires 0 <= r < w => build(Share(Chunk(x, f * w), f, w, r)));
    forall r | 0 <= r < w ensures SliceTensor(t, f, w, d, r) == Ok(shares[r]) {
    }
    assert seq(w, r requires 0 <= r < w => SliceTensor(t, f, w, d, r).value) == shares;
  }

  /** The round trip for a tensor built from slices x along d. */
  lemma RoundTripVia<S(!new)>(build: seq<S> -> Tensor, fits: S -> bool, d: int, x: seq<S>, t: Tensor, f: nat, w: nat, k: nat)
    requires ChunksAlong(build, fits, d) && JoinsAlong(build, fits, d) && AllFit(fits, x) && t == build(x)
    requires forall y {:trigger build(y)} :: Rank(build(y)) == Rank(t)
    requires f > 0 && w > 0 && |x| == (f * w) * k
    ensures forall r :: 0 <= r < w ==> SliceTensor(t, f, w, d, r).Ok? && Rank(SliceTensor(t, f, w, d, r).value) == Rank(t)
    ensures MergeTensor(seq(w, r requires 0 <= r < w => SliceTensor(t, f, w, d, r).value), f, d) == Ok(t)
  {
    if f == 1 {
      UnfusedVia(build, fits, d, x, t, w, k);
    } else {
      FusedVia(build, fits, d, x, t, f, w, k);
    }
  }

  /**
   * Slicing a weight for w ranks along a non-negative axis d whose length is
   * a multiple of f*w, then merging the shards gathered from every rank in
   * rank order, gives the weight back.
   */
  lemma ShardThenMerge(t: Tensor, f: nat, w: nat, d: nat, k: nat)
    requires Wf(t) && f > 0 && w > 0 && d < Rank(t)
    requires AxisLength(t, d) == (f * w) * k
    ensures forall r :: 0 <= r < w ==> SliceTensor(t, f, w, d, r).Ok? && Rank(SliceTensor(t, f, w, d, r).value) == Rank(t)
    ensures MergeTensor(seq(w, r requires 0 <= r < w => SliceTensor(t, f, w, d, r).value), f, d) == Ok(t)
  {
    match t
    case Vec(v) =>
      VecLayout(d);
      RoundTripVia(VecOf, AnyElem, d, v, t, f, w, k);
    case Mat(rows, width) =>
      if d == 0 {
        RowLayout(width, d);
        RoundTripVia(RowsOfWidth(width), HasLength(width), d, rows, t, f, w, k);
      } else {
        var cols := Cols(rows, width);
        ColLayout(|rows|, d);
        FromColsOfCols(t);
        RoundTripVia(ColsOfHeight(|rows|), HasLength(|rows|), d, cols, t, f, w, k);
      }
  }

  // ---------------------------------------------------------------------
  // Joining fused pieces along the last axis
  // ---------------------------------------------------------------------

  /**
   * When the weight is cut along its last axis (a bias, or a matrix cut
   * into column blocks), joining along dim = -1 is joining along the cut
   * axis, so the code as written computes the intended shards.
   */
  lemma AsWrittenAgreesOnLastAxis(t: Tensor, f: nat, w: nat, d: nat, k: nat)
    requires Wf(t) && Rank(t) >= 1 && d == Rank(t) - 1 && f > 1 && w > 0
    requires AxisLength(t, d) == (f * w) * k
    ensures forall r :: 0 <= r < w ==> SliceTensorAsWritten(t, f, w, d, r) == SliceTensor(t, f, w, d, r)
  {
    match t
    case Vec(v) =>
      VecLayout(0);
      VecLayout(-1);
      AgreeVia(VecOf, AnyElem, 0, v, t, f, w, k);
    case Mat(rows, width) =>
      var h := |rows|;
      ColLayout(h, 1);
      ColLayout(h, -1);
      FromColsOfCols(t);
      AgreeVia(ColsOfHeight(h), HasLength(h), 1, Cols(rows, width), t, f, w, k);
  }

  /** Joining along d and along -1 give the same shards when both join the slices. */
  lemma AgreeVia<S(!new)>(build: seq<S> -> Tensor, fits: S -> bool, d: int, x: seq<S>, t: Tensor, f: nat, w: nat, k: nat)
    requires ChunksAlong(build, fits, d) && JoinsAlong(build, fits, d) && JoinsAlong(build, fits, -1)
    requires AllFit(fits, x) && t == build(x)
    requires f > 1 && w > 0 && |x| == (f * w) * k
    ensures forall r :: 0 <= r < w ==> SliceTensorAsWritten(t, f, w, d, r) == SliceTensor(t, f, w, d, r)
  {
    FusedSlices(build, fits, d, d, x, f, w, k);
    FusedSlices(build, fits, d, -1, x, f, w, k);
  }

  /**
   * The round trip of the code as written: when the weight is not fused
   * (f = 1) or is cut along its last axis, the shards `_slice` keeps, merged
   * in rank order, give the weight back.
   */
  lemma AsWrittenShardThenMerge(t: Tensor, f: nat, w: nat, d: nat, k: nat)
    requires Wf(t) && f > 0 && w > 0 && d < Rank(t)
    requires f == 1 || d == Rank(t) - 1
    requires AxisLength(t, d) == (f * w) * k
    ensures forall r :: 0 <= r < w ==>
      SliceTensorAsWritten(t, f, w, d, r).Ok? && Rank(SliceTensorAsWritten(t, f, w, d, r).value) == Rank(t)
    ensures MergeTensor(seq(w, r requires 0 <= r < w => SliceTensorAsWritten(t, f, w, d, r).value), f, d) == Ok(t)
  {
    ShardThenMerge(t, f, w, d, k);
    if f > 1 {
      AsWrittenAgreesOnLastAxis(t, f, w, d, k);
    } else {
      forall r | 0 <= r < w ensures SliceTensorAsWritten(t, f, w, d, r) == SliceTensor(t, f, w, d, r) {
        UnfusedJoinUnused(t, w, d, r);
      }
    }
    assert seq(w, r requires 0 <= r < w => SliceTensorAsWritten(t, f, w, d, r).value)
        == seq(w, r requires 0 <= r < w => SliceTensor(t, f, w, d, r).value);
  }

  /** With one projection nothing is joined, so the join axis does not matter. */
  lemma UnfusedJoinUnused(t: Tensor, w: nat, d: int, r: nat)
    requires w > 0
    ensures SliceTensorAsWritten(t, 1, w, d, r) == SliceTensor(t, 1, w, d, r)
  {
  }

  /**
   * The slice succeeded and is a matrix of rowBlocks*height rows and
   * colBlocks*width columns.
   */
  predicate HasBlockShape(res: Result<Tensor, ShardError>, rowBlocks: nat, height: nat, colBlocks: nat, width: nat) {
    res.Ok? && res.value.Mat? && |res.value.rows| == rowBlocks * height && res.value.width == colBlocks * width
  }

  /** Joining matrices of k rows and width c along the last axis puts them side by side. */
  lemma CatSideBySide(ts: seq<Tensor>, k: nat, c: nat)
    requires |ts| > 0
    requires forall i :: 0 <= i < |ts| ==> ts[i].Mat? && |ts[i].rows| == k && ts[i].width == c
    ensures CatT(ts, -1).Ok? && CatT(ts, -1).value.Mat?
    ensures |CatT(ts, -1).value.rows| == k && CatT(ts, -1).value.width == |ts| * c
  {
    FlattenLength(ColsOf(ts), c);
  }

  /**
   * A fused weight cut along its rows (axis 0) into f*w blocks of k rows:
   * as written, each rank's f blocks are joined side by side into a k-row
   * matrix f times as wide as the weight.
   */
  lemma AsWrittenRowShards(t: Tensor, f: nat, w: nat, k: nat)
    requires t.Mat? && Wf(t) && f > 1 && w > 0 && |t.rows| == (f * w) * k
    ensures forall r :: 0 <= r < w ==> HasBlockShape(SliceTensorAsWritten(t, f, w, 0, r), 1, k, f, t.width)
  {
    forall r | 0 <= r < w ensures HasBlockShape(SliceTensorAsWritten(t, f, w, 0, r), 1, k, f, t.width) {
      AsWrittenRowShard(t, f, w, k, r);
    }
  }

  lemma AsWrittenRowShard(t: Tensor, f: nat, w: nat, k: nat, r: nat)
    requires t.Mat? && Wf(t) && f > 1 && r < w && |t.rows| == (f * w) * k
    ensures HasBlockShape(SliceTensorAsWritten(t, f, w, 0, r), 1, k, f, t.width)
  {
    var c := t.width;
    var build := RowsOfWidth(c);
    RowLayout(c, 0);
    var cs := Chunk(t.rows, f * w);
    EvenChunkLengths(t.rows, f * w, k);
    UseChunks(build, HasLength(c), 0, t.rows, f * w);
    var chunks := Build(build, cs);
    RankTuple(build, cs, f, w);
    var z := Zip(Group(chunks, w));
    forall q | 0 <= q < w ensures CatT(z[q], -1).Ok? && HasBlockShape(Ok(CatT(z[q], -1).value), 1, k, f, c) {
      SideBySideTuple(cs, f, w, k, c, q);
    }
    var pieces := seq(w, q requires 0 <= q < w => CatT(z[q], -1).value);
    CatEachOk(z, -1, pieces);
    assert ChunkT(t, f * w, 0).MapError(e => Torch(e)) == Ok(chunks);
    assert CatEach(Zip(Group(chunks, w)), -1).MapError(e => Torch(e)) == Ok(pieces);
    assert SliceTensorAsWritten(t, f, w, 0, r) == Ok(pieces[r]);
  }

  /** Rank r's f blocks of k rows, joined along the last axis: k rows, f times the width. */
  lemma SideBySideTuple(cs: seq<seq<seq<Elem>>>, f: nat, w: nat, k: nat, c: nat, r: nat)
    requires |cs| == f * w && r < w && f > 0
    requires forall q :: 0 <= q < |cs| ==> |cs[q]| == k
    ensures var ts := Build(RowsOfWidth(c), RankItems(cs, f, w, r));
      CatT(ts, -1).Ok? && HasBlockShape(Ok(CatT(ts, -1).value), 1, k, f, c)
  {
    var ts := Build(RowsOfWidth(c), RankItems(cs, f, w, r));
    assert forall i :: 0 <= i < f ==> ts[i].Mat? && |ts[i].rows| == k && ts[i].width == c;
    CatSideBySide(ts, k, c);
  }

  /** The corrected slicing stacks each rank's f blocks: f*k rows of the weight's width. */
  lemma AlongRowShards(t: Tensor, f: nat, w: nat, k: nat)
    requires t.Mat? && Wf(t) && f > 1 && w > 0 && |t.rows| == (f * w) * k
    ensures forall r :: 0 <= r < w ==> HasBlockShape(SliceTensor(t, f, w, 0, r), f, k, 1, t.width)
  {
    var c := t.width;
    RowLayout(c, 0);
    FusedSlices(RowsOfWidth(c), HasLength(c), 0, 0, t.rows, f, w, k);
    forall r | 0 <= r < w ensures HasBlockShape(SliceTensor(t, f, w, 0, r), f, k, 1, c) {
      ShareChunks(t.rows, f, w, k, r);
      assert SliceTensor(t, f, w, 0, r) == Ok(Mat(Share(Chunk(t.rows, f * w), f, w, r), c));
    }
  }

  /** Slot j receives nothing from parts that have no item j. */
  lemma {:induction false} DistributeShort(parts: seq<seq<Tensor>>, f: nat, j: nat)
    requires j < f
    requires forall i :: 0 <= i < |parts| ==> |parts[i]| <= j
    ensures Distribute(parts, f)[j] == []
  {
    if parts != [] {
      DistributeShort(parts[..|parts| - 1], f, j);
    }
  }

  /**
   * Shards of a single row each cannot be merged with f > 1: cutting a row
   * into f chunks along the rows gives one chunk, so slot 1 of
   * `_reconstruct_combined_qkv` stays empty and joining it raises.
   */
  lemma OneRowShardsDoNotMerge(shards: seq<Tensor>, f: nat)
    requires f > 1
    requires forall i :: 0 <= i < |shards| ==> shards[i].Mat? && |shards[i].rows| == 1
    ensures MergeTensor(shards, f, 0).Err?
  {
    var parts := seq(|shards|, i requires 0 <= i < |shards| => [shards[i]]);
    forall i | 0 <= i < |shards| ensures ChunkT(shards[i], f, 0) == Ok(parts[i]) {
      OneRowChunk(shards[i], f);
    }
    ChunkEachOk(shards, f, 0, parts);
    DistributeShort(parts, f, 1);
    var slots := Distribute(parts, f);
    assert CatT(slots[1], 0).Err?;
  }

  /** A one-row matrix cut along its rows is a single chunk. */
  lemma OneRowChunk(m: Tensor, f: nat)
    requires m.Mat? && |m.rows| == 1 && f > 0
    ensures ChunkT(m, f, 0) == Ok([m])
  {
    OneChunk(m.rows, f);
    assert RowChunks(m.rows, m.width, f) == [Mat(m.rows, m.width)];
  }

  /**
   * As written, a fused weight of f*w rows cut along its rows cannot be
   * merged back: every rank holds a single row, f blocks wide.
   */
  lemma AsWrittenRoundTripFails(t: Tensor, f: nat, w: nat)
    requires t.Mat? && Wf(t) && f > 1 && w > 0 && |t.rows| == f * w
    ensures forall r :: 0 <= r < w ==> SliceTensorAsWritten(t, f, w, 0, r).Ok?
    ensures MergeTensor(seq(w, r requires 0 <= r < w => SliceTensorAsWritten(t, f, w, 0, r).value), f, 0).Err?
  {
    AsWrittenRowShards(t, f, w, 1);
    OneRowShardsDoNotMerge(seq(w, r requires 0 <= r < w => SliceTensorAsWritten(t, f, w, 0, r).value), f);
  }

  /** A single slice cut into n chunks gives one chunk. */
  lemma OneChunk<S>(s: seq<S>, n: nat)
    requires |s| == 1 && n > 0
    ensures Chunk(s, n) == [s]
  {
    assert ChunkSize(1, n) == 1 by {
      DivUnique(n, n, 1);
    }
    assert ChunkCount(1, n) == 1;
    assert Chunk(s, n)[0] == Window(s, 0, 1) == s;
  }
}
