/**
 * The tensors the engine shards, and the two library operations it builds
 * on: `torch.chunk` and `torch.cat`. Elements are opaque integers: the
 * bookkeeping never looks at them, it only moves them.
 *
 * Tensors of rank 0, 1 and 2 are modelled (scalars, biases and vectors,
 * weight matrices). A matrix keeps its width so that a matrix without rows
 * still has a shape.
 */
module Tensors {
  import opened Slices
  import opened Results

  type Elem = int

  datatype Tensor =
    | Scalar(x: Elem)
    | Vec(v: seq<Elem>)
    | Mat(rows: seq<seq<Elem>>, width: nat)

  /** The errors `torch.chunk`, `torch.cat` and `Tensor.size()[i]` raise. */
  datatype TorchError =
    | ChunkOfScalar        // chunk expects at least a 1-dimensional tensor
    | NonPositiveChunks    // chunk expects `chunks` to be greater than 0
    | DimOutOfRange        // dimension out of range
    | EmptyCat             // cat expects a non-empty list of tensors
    | CatOfScalar          // zero-dimensional tensors cannot be concatenated
    | CatRankMismatch      // tensors must have the same number of dimensions
    | CatSizeMismatch      // sizes must match except in the concatenation dimension
    | SizeIndexOutOfRange  // tuple index out of range on Tensor.size()

  /** Every row of a matrix has the matrix's width. */
  predicate Wf(t: Tensor) {
    t.Mat? ==> forall i :: 0 <= i < |t.rows| ==> |t.rows[i]| == t.width
  }

  function Rank(t: Tensor): nat {
    match t
    case Scalar(_) => 0
    case Vec(_) => 1
    case Mat(_, _) => 2
  }

  /** Tensor.size() */
  function Shape(t: Tensor): (s: seq<nat>)
    ensures |s| == Rank(t)
  {
    match t
    case Scalar(_) => []
    case Vec(v) => [|v|]
    case Mat(rows, width) => [|rows|, width]
  }

  /** Tensor.size()[i] for a non-negative index i. */
  function SizeAt(t: Tensor, i: nat): (r: Result<nat, TorchError>)
    ensures r.Ok? <==> i < Rank(t)
    ensures r.Ok? ==> r.value == Shape(t)[i]
  {
    if i < |Shape(t)| then Ok(Shape(t)[i]) else Err(SizeIndexOutOfRange)
  }

  /** Dimension wrapping: d in [-rank, rank) names axis d (or rank + d when negative). */
  function WrapDim(rank: nat, d: int): (r: Result<nat, TorchError>)
    ensures r.Ok? <==> -(rank as int) <= d < rank
    ensures r.Ok? ==> r.value < rank && (r.value == d || r.value == rank + d)
  {
    if -(rank as int) <= d < rank then Ok(if d < 0 then rank + d else d) else Err(DimOutOfRange)
  }

  function At(s: seq<Elem>, i: nat): Elem {
    if i < |s| then s[i] else 0
  }

  /** The columns of a matrix, each as a sequence of length |rows|. */
  function Cols(rows: seq<seq<Elem>>, width: nat): (cs: seq<seq<Elem>>)
    ensures |cs| == width
    ensures forall j :: 0 <= j < width ==> |cs[j]| == |rows|
  {
    seq(width, j requires 0 <= j < width => seq(|rows|, i requires 0 <= i < |rows| => At(rows[i], j)))
  }

  /** The matrix of the given height whose columns are cs. */
  function FromCols(cs: seq<seq<Elem>>, height: nat): (t: Tensor)
    ensures t.Mat? && Wf(t) && |t.rows| == height && t.width == |cs|
  {
    Mat(seq(height, i requires 0 <= i < height => seq(|cs|, j requires 0 <= j < |cs| => At(cs[j], i))), |cs|)
  }

  /** Length of t along one of its axes. */
  function AxisLength(t: Tensor, axis: nat): nat
    requires axis < Rank(t)
  {
    Shape(t)[axis]
  }

  // ---------------------------------------------------------------------
  // torch.chunk
  // ---------------------------------------------------------------------

  function VecChunks(v: seq<Elem>, n: nat): (r: seq<Tensor>)
    requires n > 0
    ensures |r| == ChunkCount(|v|, n)
  {
    var cs := Chunk(v, n);
    seq(|cs|, i requires 0 <= i < |cs| => Vec(cs[i]))
  }

  function RowChunks(rows: seq<seq<Elem>>, width: nat, n: nat): (r: seq<Tensor>)
    requires n > 0
    ensures |r| == ChunkCount(|rows|, n)
  {
    var cs := Chunk(rows, n);
    seq(|cs|, i requires 0 <= i < |cs| => Mat(cs[i], width))
  }

  function ColChunks(rows: seq<seq<Elem>>, width: nat, n: nat): (r: seq<Tensor>)
    requires n > 0
    ensures |r| == ChunkCount(width, n)
  {
    var cs := Chunk(Cols(rows, width), n);
    seq(|cs|, i requires 0 <= i < |cs| => FromCols(cs[i], |rows|))
  }

  /**
   * `t.chunk(n, dim=d)`: the tensor cut into contiguous ceiling-sized
   * chunks along axis d; fewer than n chunks when they run out early.
   */
  function ChunkT(t: Tensor, n: int, d: int): (r: Result<seq<Tensor>, TorchError>)
    ensures r.Ok? <==> Rank(t) >= 1 && n > 0 && WrapDim(Rank(t), d).Ok?
    ensures r.Ok? ==> |r.value| == ChunkCount(AxisLength(t, WrapDim(Rank(t), d).value), n)
  {
    if Rank(t) == 0 then Err(ChunkOfScalar)
    else if n <= 0 then Err(NonPositiveChunks)
    else
      var axis :- WrapDim(Rank(t), d);
      match t
      case Vec(v) => Ok(VecChunks(v, n))
      case Mat(rows, width) =>
        if axis == 0 then Ok(RowChunks(rows, width, n)) else Ok(ColChunks(rows, width, n))
  }

  // ---------------------------------------------------------------------
  // torch.cat
  // ---------------------------------------------------------------------

  function Elems(ts: seq<Tensor>): seq<seq<Elem>>
    requires forall i :: 0 <= i < |ts| ==> ts[i].Vec?
  {
    seq(|ts|, i requires 0 <= i < |ts| => ts[i].v)
  }

  function RowsOf(ts: seq<Tensor>): seq<seq<seq<Elem>>>
    requires forall i :: 0 <= i < |ts| ==> ts[i].Mat?
  {
    seq(|ts|, i requires 0 <= i < |ts| => ts[i].rows)
  }

  function ColsOf(ts: seq<Tensor>): seq<seq<seq<Elem>>>
    requires forall i :: 0 <= i < |ts| ==> ts[i].Mat?
  {
    seq(|ts|, i requires 0 <= i < |ts| => Cols(ts[i].rows, ts[i].width))
  }

  /**
   * `torch.cat(ts, dim=d)`: the tensors joined along axis d. All must have
   * the same rank and agree on every other axis.
   */
  function CatT(ts: seq<Tensor>, d: int): (r: Result<Tensor, TorchError>)
  {
    if ts == [] then Err(EmptyCat)
    else if exists i :: 0 <= i < |ts| && ts[i].Scalar? then Err(CatOfScalar)
    else if exists i :: 0 <= i < |ts| && Rank(ts[i]) != Rank(ts[0]) then Err(CatRankMismatch)
    else
      var axis :- WrapDim(Rank(ts[0]), d);
      if ts[0].Vec? then
        Ok(Vec(Flatten(Elems(ts))))
      else if axis == 0 then
        if forall i :: 0 <= i < |ts| ==> ts[i].width == ts[0].width then
          Ok(Mat(Flatten(RowsOf(ts)), ts[0].width))
        else Err(CatSizeMismatch)
      else
        if forall i :: 0 <= i < |ts| ==> |ts[i].rows| == |ts[0].rows| then
          Ok(FromCols(Flatten(ColsOf(ts)), |ts[0].rows|))
        else Err(CatSizeMismatch)
  }

  /** torch.cat applied to each list in turn; the first failure is the result. */
  function CatEach(tss: seq<seq<Tensor>>, d: int): (r: Result<seq<Tensor>, TorchError>)
    ensures r.Ok? ==> |r.value| == |tss|
    ensures r.Ok? <==> forall i :: 0 <= i < |tss| ==> CatT(tss[i], d).Ok?
    ensures r.Ok? ==> forall i :: 0 <= i < |tss| ==> r.value[i] == CatT(tss[i], d).value
  {
    if tss == [] then Ok([])
    else
      match CatT(tss[0], d)
      case Err(e) => Err(e)
      case Ok(first) =>
        match CatEach(tss[1..], d)
        case Err(e) =>
          assert forall i :: 1 <= i < |tss| ==> tss[i] == tss[1..][i - 1];
          Err(e)
        case Ok(rest) =>
          assert forall i :: 1 <= i < |tss| ==> tss[i] == tss[1..][i - 1];
          Ok([first] + rest)
  }

  /** When every list joins, CatEach yields exactly the joined tensors. */
  lemma CatEachOk(tss: seq<seq<Tensor>>, d: int, vs: seq<Tensor>)
    requires |vs| == |tss|
    requires forall i :: 0 <= i < |tss| ==> CatT(tss[i], d) == Ok(vs[i])
    ensures CatEach(tss, d) == Ok(vs)
  {
    var r := CatEach(tss, d);
    assert r.Ok?;
    assert r.value == vs;
  }

  /** When the lists before i all join and list i does not, CatEach fails with list i's error. */
  lemma {:induction false} CatEachFails(tss: seq<seq<Tensor>>, d: int, i: nat)
    requires i < |tss| && CatT(tss[i], d).Err?
    requires forall k :: 0 <= k < i ==> CatT(tss[k], d).Ok?
    ensures CatEach(tss, d) == Err(CatT(tss[i], d).error)
    decreases i
  {
    if i > 0 {
      assert tss[1..][i - 1] == tss[i];
      CatEachFails(tss[1..], d, i - 1);
    }
  }

  // ---------------------------------------------------------------------
  // Views: chunk and cat act on the slices along the chosen axis
  // ---------------------------------------------------------------------

  lemma {:induction false} ColsOfFromCols(cs: seq<seq<Elem>>, h: nat)
    requires forall j :: 0 <= j < |cs| ==> |cs[j]| == h
    ensures var m := FromCols(cs, h); Cols(m.rows, m.width) == cs
  {
    var m := FromCols(cs, h);
    var back := Cols(m.rows, m.width);
    forall j | 0 <= j < |cs| ensures back[j] == cs[j] {
      forall i | 0 <= i < h ensures back[j][i] == cs[j][i] {
        assert back[j][i] == At(m.rows[i], j);
      }
    }
  }

  lemma {:induction false} FromColsOfCols(t: Tensor)
    requires t.Mat? && Wf(t)
    ensures FromCols(Cols(t.rows, t.width), |t.rows|) == t
  {
    var back := FromCols(Cols(t.rows, t.width), |t.rows|);
    forall i | 0 <= i < |t.rows| ensures back.rows[i] == t.rows[i] {
      forall j | 0 <= j < t.width ensures back.rows[i][j] == t.rows[i][j] {
      }
    }
  }

  /** Joining vectors joins their elements. */
  lemma CatVecs(xs: seq<seq<Elem>>, d: int)
    requires |xs| > 0 && (d == 0 || d == -1)
    ensures CatT(seq(|xs|, i requires 0 <= i < |xs| => Vec(xs[i])), d) == Ok(Vec(Flatten(xs)))
  {
    var ts := seq(|xs|, i requires 0 <= i < |xs| => Vec(xs[i]));
    assert Elems(ts) == xs;
  }

  /** Joining matrices of one width along axis 0 joins their rows. */
  lemma CatRowBlocks(xs: seq<seq<seq<Elem>>>, width: nat, d: int)
    requires |xs| > 0 && (d == 0 || d == -2)
    ensures CatT(seq(|xs|, i requires 0 <= i < |xs| => Mat(xs[i], width)), d) == Ok(Mat(Flatten(xs), width))
  {
    var ts := seq(|xs|, i requires 0 <= i < |xs| => Mat(xs[i], width));
    assert RowsOf(ts) == xs;
  }

  /** Joining matrices of one height along axis 1 joins their columns. */
  lemma CatColBlocks(xs: seq<seq<seq<Elem>>>, h: nat, d: int)
    requires |xs| > 0 && (d == 1 || d == -1)
    requires forall i, j :: 0 <= i < |xs| && 0 <= j < |xs[i]| ==> |xs[i][j]| == h
    ensures CatT(seq(|xs|, i requires 0 <= i < |xs| => FromCols(xs[i], h)), d) == Ok(FromCols(Flatten(xs), h))
  {
    var ts := seq(|xs|, i requires 0 <= i < |xs| => FromCols(xs[i], h));
    forall i | 0 <= i < |xs| ensures ColsOf(ts)[i] == xs[i] {
      ColsOfFromCols(xs[i], h);
    }
    assert ColsOf(ts) == xs;
  }
}
