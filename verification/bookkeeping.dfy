/**
 * What the 1-D tensor-parallel engine reads and rewrites, as values: the
 * model's modules in `named_modules()` order (the model itself first), its
 * parameters and buffers, and which module `get_input_embeddings()` returns.
 * A module names its weight and bias by their index among the parameters,
 * so two modules holding the same parameter object (a language-model head
 * tied to the input embedding) hold the same index.
 *
 * Every pass of the engine is a function from the state before it to an
 * Outcome: the state after it, and the error it raised, if any. When a pass
 * raises part-way, the state is the one reached at that point, as in the
 * original, which has already rewritten the modules it visited.
 */
module Bookkeeping {
  import opened Slices
  import opened Tensors
  import opened Results
  import opened Regroup

  // ---------------------------------------------------------------------
  // The data model
  // ---------------------------------------------------------------------

  /**
   * The classes the engine tells apart. `Embedding` stands for nn.Embedding
   * and every subclass of it, so `isinstance(m, Embedding)` holds for the
   * first two; `OtherClass` is never taken for an embedding.
   */
  datatype ModuleClass =
    | Embedding
    | VocabParallelEmbedding
    | ColumnParallelLinear
    | RowParallelLinear
    | OtherClass(name: string)

  predicate IsEmbedding(c: ModuleClass) {
    c.Embedding? || c.VocabParallelEmbedding?
  }

  /** The tensor-parallel group of the calling process: its size W and this process's rank. */
  datatype Mpu = Mpu(worldSize: nat, rank: nat) {
    predicate Valid() {
      0 < worldSize && rank < worldSize
    }
  }

  /** A parameter or buffer: its data, its `tp_rank` tag (None while unset) and whether it is on a GPU. */
  datatype Param = Param(data: Tensor, tpRank: Option<nat>, onCuda: bool)

  /**
   * One module. `attrs` holds its integer attributes (configuration values
   * such as a head count, and `in_features`, `out_features`, `nx`, `nf`,
   * `num_embeddings`); the Option fields are the attributes the engine sets,
   * None while the module does not have them.
   */
  datatype Module = Module(
    name: string,
    cls: ModuleClass,
    weight: Option<nat>,
    bias: Option<nat>,
    attrs: map<string, int>,
    mpu: Option<Mpu>,
    reversed: Option<bool>,
    fusionDegree: Option<int>,
    gatherOutput: Option<bool>,
    origModule: Option<ModuleClass>)

  datatype State = State(modules: seq<Module>, params: seq<Param>, buffers: seq<Param>, inputEmbeddings: Option<nat>)

  /** A module's weight and bias are parameters of the model. */
  predicate PointsInto(m: Module, n: nat) {
    (m.weight.Some? ==> m.weight.value < n) && (m.bias.Some? ==> m.bias.value < n)
  }

  /** The model itself is always the first module, and every reference is in range. */
  predicate ValidState(s: State) {
    && |s.modules| > 0
    && (forall j :: 0 <= j < |s.modules| ==> PointsInto(s.modules[j], |s.params|))
    && (s.inputEmbeddings.Some? ==> s.inputEmbeddings.value < |s.modules|)
  }

  /** t has the modules, parameters and buffers of s, each module holding the same weight and bias. */
  predicate SameLayout(s: State, t: State) {
    && |t.modules| == |s.modules| && |t.params| == |s.params| && |t.buffers| == |s.buffers|
    && t.inputEmbeddings == s.inputEmbeddings
    && forall j :: 0 <= j < |s.modules| ==>
         t.modules[j].name == s.modules[j].name && t.modules[j].weight == s.modules[j].weight && t.modules[j].bias == s.modules[j].bias
  }

  /** Only module i and the parameters w and b can differ between s and t. */
  predicate Frame(s: State, t: State, i: nat, w: Option<nat>, b: Option<nat>)
    requires SameLayout(s, t)
  {
    && (forall k :: 0 <= k < |s.modules| && k != i ==> t.modules[k] == s.modules[k])
    && (forall p :: 0 <= p < |s.params| && Some(p) != w && Some(p) != b ==> t.params[p] == s.params[p])
    && t.buffers == s.buffers
  }

  /** Only module i, its weight and its bias can differ between s and t. */
  predicate OnlyModule(s: State, t: State, i: nat)
    requires SameLayout(s, t) && i < |s.modules|
  {
    Frame(s, t, i, s.modules[i].weight, s.modules[i].bias)
  }

  /**
   * The answers of `TensorParallelMapping`: which module names are column- or
   * row-parallel, which hold reversed (Conv1D-style) weights, the fused
   * projection count of a module (1 when not listed), and the names of the
   * attributes to rescale.
   */
  datatype Mapping = Mapping(column: set<string>, row: set<string>, reversedParams: set<string>, fusion: map<string, int>, updateAttrs: seq<string>)

  function FusionDegree(mapping: Mapping, name: string): int {
    if name in mapping.fusion then mapping.fusion[name] else 1
  }

  datatype EngineError =
    | NoInputEmbeddings   // the model has no `get_input_embeddings`
    | NoneWeight          // the input embedding's weight is None
    | MissingAttribute    // a module being merged was never given `fusion_degree` or `reversed`
    | Sharding(ShardError)  // slicing a weight failed
    | Library(TorchError)  // a torch call raised

  datatype Outcome = Outcome(state: State, error: Option<EngineError>)

  function SetModule(s: State, i: nat, m: Module): State
    requires i < |s.modules|
  {
    s.(modules := s.modules[i := m])
  }

  function SetParam(s: State, p: nat, q: Param): State
    requires p < |s.params|
  {
    s.(params := s.params[p := q])
  }

  /** The module's `__class__` swapped for c. */
  function SetClass(s: State, i: nat, c: ModuleClass): State
    requires i < |s.modules|
  {
    SetModule(s, i, s.modules[i].(cls := c))
  }

  // ---------------------------------------------------------------------
  // Rescaling attributes (`_update_mp_arguments` of both engines)
  // ---------------------------------------------------------------------

  predicate Distinct(names: seq<string>) {
    forall i, j :: 0 <= i < j < |names| ==> names[i] != names[j]
  }

  /** `value // w`: Python floor division, which for a positive w is Dafny's division. */
  function FloorDivBy(w: nat): int -> int
    requires w > 0
  {
    x => x / w
  }

  function TimesBy(w: nat): int -> int {
    x => x * w
  }

  /** Each listed attribute the module has, in list order, replaced by op of its value. */
  function ScaleAttrs(attrs: map<string, int>, names: seq<string>, op: int -> int): (r: map<string, int>)
    ensures r.Keys == attrs.Keys
    ensures forall n :: n in attrs && n !in names ==> r[n] == attrs[n]
    decreases |names|
  {
    if names == [] then attrs
    else
      var a := ScaleAttrs(attrs, names[..|names| - 1], op);
      var n := names[|names| - 1];
      if n in a then a[n := op(a[n])] else a
  }

  /** With no name listed twice, every listed attribute is scaled exactly once. */
  lemma {:induction false} ScaleAttrsListed(attrs: map<string, int>, names: seq<string>, op: int -> int)
    requires Distinct(names)
    ensures forall n :: n in attrs && n in names ==> ScaleAttrs(attrs, names, op)[n] == op(attrs[n])
    decreases |names|
  {
    if names != [] {
      var init := names[..|names| - 1];
      assert Distinct(init);
      ScaleAttrsListed(attrs, init, op);
      forall n | n in attrs && n in names
        ensures ScaleAttrs(attrs, names, op)[n] == op(attrs[n])
      {
        if n == names[|names| - 1] {
          assert n !in init;
        } else {
          assert n in init;
        }
      }
    }
  }

  /**
   * Dividing the listed attributes by W and multiplying them back by W
   * restores them exactly when every listed value the module has is a
   * multiple of W.
   */
  lemma RescaleRoundTrip(attrs: map<string, int>, names: seq<string>, w: nat)
    requires w > 0 && Distinct(names)
    ensures ScaleAttrs(ScaleAttrs(attrs, names, FloorDivBy(w)), names, TimesBy(w)) == attrs
      <==> forall n :: n in attrs && n in names ==> attrs[n] % w == 0
  {
    var down := ScaleAttrs(attrs, names, FloorDivBy(w));
    var up := ScaleAttrs(down, names, TimesBy(w));
    ScaleAttrsListed(attrs, names, FloorDivBy(w));
    ScaleAttrsListed(down, names, TimesBy(w));
    forall n | n in attrs && n in names
      ensures up[n] == attrs[n] <==> attrs[n] % w == 0
    {
      DivMulBack(attrs[n], w);
    }
    if forall n :: n in attrs && n in names ==> attrs[n] % w == 0 {
      assert up == attrs;
    }
  }

  lemma DivMulBack(x: int, w: nat)
    requires w > 0
    ensures (x / w) * w == x <==> x % w == 0
  {
    assert x == (x / w) * w + x % w;
  }

  /** Every module's attributes rescaled by op. */
  function Rescaled(s: State, names: seq<string>, op: int -> int): (t: State)
    ensures SameLayout(s, t) && (ValidState(s) ==> ValidState(t))
    ensures t.params == s.params && t.buffers == s.buffers
  {
    s.(modules := seq(|s.modules|, j requires 0 <= j < |s.modules| => s.modules[j].(attrs := ScaleAttrs(s.modules[j].attrs, names, op))))
  }

  // ---------------------------------------------------------------------
  // Slicing one module (`_slice`, `_column_slice`, `_row_slice`)
  // ---------------------------------------------------------------------

  /** The axis `_slice` and `_merge` use: dim itself, or |dim - 1| for a reversed (Conv1D-style) weight. */
  function EffectiveDim(reversed: bool, dim: int): (d: int)
    ensures !reversed ==> d == dim
    ensures reversed ==> d >= 0 && (dim == 0 || dim == 1 ==> d == 1 - dim)
  {
    if !reversed then dim else if dim >= 1 then dim - 1 else 1 - dim
  }

  /** The attributes `_slice` records before touching the weight. */
  function Configured(m: Module, mpu: Mpu, reversed: bool, f: int): Module {
    m.(mpu := Some(mpu), reversed := Some(reversed), fusionDegree := Some(f), origModule := Some(m.cls), gatherOutput := Some(false))
  }

  /** `in_features` and `out_features` set to size()[0] and size()[1] of t; an index error below rank 2. */
  function WithFeatures(s: State, i: nat, t: Tensor): (o: Outcome)
    requires i < |s.modules|
    ensures SameLayout(s, o.state) && Frame(s, o.state, i, None, None)
    ensures o.state.modules[i] == s.modules[i].(attrs := o.state.modules[i].attrs)
  {
    var rows := SizeAt(t, 0);
    var cols := SizeAt(t, 1);
    if rows.Err? then Outcome(s, Some(Library(rows.error)))
    else if cols.Err? then Outcome(s, Some(Library(cols.error)))
    else
      var m := s.modules[i];
      Outcome(SetModule(s, i, m.(attrs := m.attrs["in_features" := rows.value]["out_features" := cols.value])), None)
  }

  /**
   * The weight step of `_slice`: keep this rank's shard, tag it, record the
   * shard's sizes. The fused pieces are joined along the last axis, as the
   * code does.
   */
  function SliceWeight(s: State, i: nat, p: nat, f: int, d: int, mpu: Mpu): (o: Outcome)
    requires i < |s.modules| && p < |s.params| && mpu.Valid()
    ensures SameLayout(s, o.state) && Frame(s, o.state, i, Some(p), None)
    ensures o.state.modules[i] == s.modules[i].(attrs := o.state.modules[i].attrs)
  {
    var w := s.params[p];
    match SliceTensorAsWritten(w.data, f, mpu.worldSize, d, mpu.rank)
    case Err(e) => Outcome(s, Some(Sharding(e)))
    case Ok(t) => WithFeatures(SetParam(s, p, w.(data := t, tpRank := Some(mpu.rank))), i, t)
  }

  /** The cut of bias b `_slice` makes: along axis 0 when asked to and b is not a scalar; otherwise b itself. */
  function BiasCut(b: Tensor, f: int, sliceBias: bool, mpu: Mpu): Result<Tensor, ShardError>
    requires mpu.Valid()
  {
    if sliceBias && Rank(b) >= 1 then SliceTensorAsWritten(b, f, mpu.worldSize, 0, mpu.rank) else Ok(b)
  }

  /** The bias step of `_slice`: cut along axis 0 only when asked to, tag it in any case. */
  function SliceBias(s: State, q: nat, f: int, sliceBias: bool, mpu: Mpu): (o: Outcome)
    requires q < |s.params| && mpu.Valid()
    ensures SameLayout(s, o.state) && o.state.modules == s.modules && Frame(s, o.state, 0, None, Some(q))
  {
    var b := s.params[q];
    match BiasCut(b.data, f, sliceBias, mpu)
    case Err(e) => Outcome(s, Some(Sharding(e)))
    case Ok(t) => Outcome(SetParam(s, q, b.(data := t, tpRank := Some(mpu.rank))), None)
  }

  /** `_slice(module i, reversed, fusion_degree f, slice_bias, dim)` on the rank of mpu. */
  function SliceModule(s: State, i: nat, reversed: bool, f: int, sliceBias: bool, dim: int, mpu: Mpu): (o: Outcome)
    requires ValidState(s) && i < |s.modules| && mpu.Valid()
    ensures SameLayout(s, o.state) && ValidState(o.state) && OnlyModule(s, o.state, i)
    ensures o.state.modules[i] == Configured(s.modules[i], mpu, reversed, f).(attrs := o.state.modules[i].attrs)
  {
    var m := s.modules[i];
    var s1 := SetModule(s, i, Configured(m, mpu, reversed, f));
    var o := if m.weight.Some? then SliceWeight(s1, i, m.weight.value, f, EffectiveDim(reversed, dim), mpu) else Outcome(s1, None);
    if o.error.Some? || m.bias.None? then o
    else SliceBias(o.state, m.bias.value, f, sliceBias, mpu)
  }

  // ---------------------------------------------------------------------
  // `_parallelize_modules`
  // ---------------------------------------------------------------------

  /** What `_parallelize_modules` leaves in the record of a module, given its record before. */
  predicate Dispatched(before: Module, after: Module, mapping: Mapping, mpu: Mpu) {
    var name := before.name;
    if name in mapping.column then
      && after.cls == ColumnParallelLinear && after.origModule == Some(before.cls)
      && after.fusionDegree == Some(FusionDegree(mapping, name)) && after.reversed == Some(name in mapping.reversedParams)
      && after.mpu == Some(mpu) && after.gatherOutput == Some(false)
    else if name in mapping.row then
      && after.cls == RowParallelLinear && after.origModule == Some(before.cls)
      && after.fusionDegree == Some(1) && after.reversed == Some(name in mapping.reversedParams)
      && after.mpu == Some(mpu) && after.gatherOutput == Some(false)
    else
      after == before
  }

  /** `_column_slice` or `_row_slice` of module j, then its `__class__` swapped for c. */
  function SliceAndSwap(s: State, j: nat, reversed: bool, f: int, sliceBias: bool, dim: int, mpu: Mpu, c: ModuleClass): (o: Outcome)
    requires ValidState(s) && j < |s.modules| && mpu.Valid()
    ensures SameLayout(s, o.state) && ValidState(o.state) && OnlyModule(s, o.state, j)
    ensures o.error.None? ==> o.state.modules[j] == Configured(s.modules[j], mpu, reversed, f).(attrs := o.state.modules[j].attrs, cls := c)
  {
    var o := SliceModule(s, j, reversed, f, sliceBias, dim, mpu);
    if o.error.Some? then o else Outcome(SetClass(o.state, j, c), None)
  }

  /** What `_parallelize_modules` does to module j. */
  function ParallelizeStep(s: State, j: nat, mapping: Mapping, mpu: Mpu): (o: Outcome)
    requires ValidState(s) && j < |s.modules| && mpu.Valid()
    ensures SameLayout(s, o.state) && ValidState(o.state) && OnlyModule(s, o.state, j)
    ensures o.error.None? ==> Dispatched(s.modules[j], o.state.modules[j], mapping, mpu)
  {
    var name := s.modules[j].name;
    var reversed := name in mapping.reversedParams;
    if name in mapping.column then
      SliceAndSwap(s, j, reversed, FusionDegree(mapping, name), true, 0, mpu, ColumnParallelLinear)
    else if name in mapping.row then
      SliceAndSwap(s, j, reversed, 1, false, 1, mpu, RowParallelLinear)
    else
      Outcome(s, None)
  }

  /** `_parallelize_modules` from module j on; it stops at the first error. */
  function ParallelizeFrom(s: State, j: nat, mapping: Mapping, mpu: Mpu): (o: Outcome)
    requires ValidState(s) && j <= |s.modules| && mpu.Valid()
    ensures SameLayout(s, o.state) && ValidState(o.state)
    ensures forall k :: 0 <= k < j ==> o.state.modules[k] == s.modules[k]
    ensures o.error.None? ==> forall k :: j <= k < |s.modules| ==> Dispatched(s.modules[k], o.state.modules[k], mapping, mpu)
    decreases |s.modules| - j
  {
    if j == |s.modules| then Outcome(s, None)
    else
      var o := ParallelizeStep(s, j, mapping, mpu);
      if o.error.Some? then o else ParallelizeFrom(o.state, j + 1, mapping, mpu)
  }

  // ---------------------------------------------------------------------
  // `_parallelize_embedding`, `_postprocess`, `parallelize`
  // ---------------------------------------------------------------------

  /**
   * A module holding the embedding's weight p that is not itself an
   * embedding (a tied language-model head) becomes a column-parallel layer
   * that gathers its output.
   */
  function TiedToEmbedding(m: Module, p: nat, mpu: Mpu, mapping: Mapping): (r: Module)
    ensures r.name == m.name && r.weight == m.weight && r.bias == m.bias
  {
    if m.weight == Some(p) && !IsEmbedding(m.cls) then
      m.(mpu := Some(mpu), reversed := Some(m.name in mapping.reversedParams), fusionDegree := Some(1),
         origModule := Some(m.cls), gatherOutput := Some(true), cls := ColumnParallelLinear)
    else m
  }

  /**
   * `_parallelize_embedding`: the rank keeps chunk `rank` of the embedding
   * weight cut into W chunks along axis 0, the embedding becomes a
   * VocabParallelEmbedding, and the modules tied to it column-parallel.
   */
  function ParallelizeEmbedding(s: State, mpu: Mpu, mapping: Mapping): (o: Outcome)
    requires ValidState(s) && mpu.Valid()
    ensures SameLayout(s, o.state) && ValidState(o.state)
  {
    if s.inputEmbeddings.None? then Outcome(s, Some(NoInputEmbeddings))
    else
      var e := s.inputEmbeddings.value;
      var m := s.modules[e];
      if m.weight.None? then Outcome(s, Some(NoneWeight))
      else
        var p := m.weight.value;
        match ChunkT(s.params[p].data, mpu.worldSize, 0)
        case Err(err) => Outcome(s, Some(Library(err)))
        case Ok(chunks) =>
          if mpu.rank >= |chunks| then Outcome(s, Some(Sharding(NoChunkForRank)))
          else
            var s1 := SetParam(s, p, s.params[p].(data := chunks[mpu.rank], tpRank := Some(mpu.rank)));
            var s2 := SetModule(s1, e, m.(mpu := Some(mpu), origModule := Some(m.cls), cls := VocabParallelEmbedding));
            Outcome(s2.(modules := seq(|s2.modules|, j requires 0 <= j < |s2.modules| => TiedToEmbedding(s2.modules[j], p, mpu, mapping))), None)
  }

  /** `_postprocess` on one list: every tensor not on a GPU is tagged with this rank; nothing else changes. */
  function Tagged(ps: seq<Param>, rank: nat): (r: seq<Param>)
    ensures |r| == |ps|
    ensures forall i :: 0 <= i < |ps| ==> r[i].data == ps[i].data && r[i].onCuda == ps[i].onCuda
    ensures forall i :: 0 <= i < |ps| ==> !ps[i].onCuda ==> r[i].tpRank == Some(rank)
    ensures forall i :: 0 <= i < |ps| ==> ps[i].onCuda ==> r[i] == ps[i]
  {
    seq(|ps|, i requires 0 <= i < |ps| => if ps[i].onCuda then ps[i] else ps[i].(tpRank := Some(rank)))
  }

  function Postprocessed(s: State, rank: nat): (t: State)
    ensures SameLayout(s, t) && (ValidState(s) ==> ValidState(t)) && t.modules == s.modules
  {
    s.(params := Tagged(s.params, rank), buffers := Tagged(s.buffers, rank))
  }

  /** `update_module_arguments(model, mpu=...)` on the model itself. */
  function SetRootMpu(s: State, mpu: Option<Mpu>): (t: State)
    requires |s.modules| > 0
    ensures SameLayout(s, t) && (ValidState(s) ==> ValidState(t))
  {
    SetModule(s, 0, s.modules[0].(mpu := mpu))
  }

  /** `parallelize()`: rescale, embedding, modules, tagging, then the model's own mpu, stopping at the first error. */
  function Parallelized(s: State, mpu: Mpu, mapping: Mapping): (o: Outcome)
    requires ValidState(s) && mpu.Valid()
    ensures SameLayout(s, o.state) && ValidState(o.state)
  {
    var s1 := Rescaled(s, mapping.updateAttrs, FloorDivBy(mpu.worldSize));
    var o2 := ParallelizeEmbedding(s1, mpu, mapping);
    if o2.error.Some? then o2
    else
      var o3 := ParallelizeFrom(o2.state, 0, mapping, mpu);
      if o3.error.Some? then o3
      else Outcome(SetRootMpu(Postprocessed(o3.state, mpu.rank), Some(mpu)), None)
  }

  // ---------------------------------------------------------------------
  // Merging one module (`_merge`, `_column_merge`, `_row_merge`)
  // ---------------------------------------------------------------------

  /**
   * The all-gather: for a parameter index, the W tensors it holds on ranks
   * 0 .. W - 1, in rank order.
   */
  type Gather = nat -> seq<Tensor>

  /** in_features, out_features, nx and nf set to size()[0], size()[1], size()[0], size()[1] of t. */
  function WithMergedSizes(s: State, i: nat, t: Tensor): (o: Outcome)
    requires i < |s.modules|
    ensures SameLayout(s, o.state) && Frame(s, o.state, i, None, None)
    ensures o.state.modules[i] == s.modules[i].(attrs := o.state.modules[i].attrs)
  {
    var rows := SizeAt(t, 0);
    var cols := SizeAt(t, 1);
    if rows.Err? then Outcome(s, Some(Library(rows.error)))
    else if cols.Err? then Outcome(s, Some(Library(cols.error)))
    else
      var m := s.modules[i];
      var a := m.attrs["in_features" := rows.value]["out_features" := cols.value]["nx" := rows.value]["nf" := cols.value];
      Outcome(SetModule(s, i, m.(attrs := a)), None)
  }

  /** The weight step of `_merge`: move to the GPU, gather, join, record the joined sizes. */
  function MergeWeight(s: State, i: nat, p: nat, f: int, d: int, gathered: Gather): (o: Outcome)
    requires i < |s.modules| && p < |s.params|
    ensures SameLayout(s, o.state) && Frame(s, o.state, i, Some(p), None)
    ensures o.state.modules[i] == s.modules[i].(attrs := o.state.modules[i].attrs)
  {
    var w := s.params[p];
    if Rank(w.data) == 0 then Outcome(s, None)
    else
      var s1 := SetParam(s, p, w.(onCuda := true));
      match MergeTensor(gathered(p), f, d)
      case Err(e) => Outcome(s1, Some(Library(e)))
      case Ok(t) => WithMergedSizes(SetParam(s1, p, w.(onCuda := true, data := t)), i, t)
  }

  /** The bias step of `_merge`: only when asked to, and always along axis 0. */
  function MergeBias(s: State, q: nat, f: int, mergeBias: bool, gathered: Gather): (o: Outcome)
    requires q < |s.params|
    ensures SameLayout(s, o.state) && o.state.modules == s.modules && Frame(s, o.state, 0, None, Some(q))
  {
    var b := s.params[q];
    if !mergeBias || Rank(b.data) == 0 then Outcome(s, None)
    else
      var s1 := SetParam(s, q, b.(onCuda := true));
      match MergeTensor(gathered(q), f, 0)
      case Err(e) => Outcome(s1, Some(Library(e)))
      case Ok(t) => Outcome(SetParam(s1, q, b.(onCuda := true, data := t)), None)
  }

  /** `_merge(module i, reversed, fusion_degree f, merge_bias, dim)`. */
  function MergeModule(s: State, i: nat, reversed: bool, f: int, mergeBias: bool, dim: int, gathered: Gather): (o: Outcome)
    requires ValidState(s) && i < |s.modules|
    ensures SameLayout(s, o.state) && ValidState(o.state) && OnlyModule(s, o.state, i)
    ensures o.state.modules[i] == s.modules[i].(mpu := None, attrs := o.state.modules[i].attrs)
  {
    var m := s.modules[i];
    var s1 := SetModule(s, i, m.(mpu := None));
    var o := if m.weight.Some? then MergeWeight(s1, i, m.weight.value, f, EffectiveDim(reversed, dim), gathered) else Outcome(s1, None);
    if o.error.Some? || m.bias.None? then o
    else MergeBias(o.state, m.bias.value, f, mergeBias, gathered)
  }

  /** The class recorded in `orig_module`, when there is one. */
  function Restored(m: Module): (r: Module)
    ensures r.name == m.name && r.weight == m.weight && r.bias == m.bias
  {
    if m.origModule.Some? then m.(cls := m.origModule.value) else m
  }

  /**
   * `_column_merge` (column: merge the bias too, along dim 0) or
   * `_row_merge` (leave the bias, dim 1), then restore the original class.
   */
  function MergeAndRestore(s: State, i: nat, reversed: bool, f: int, column: bool, gathered: Gather): (o: Outcome)
    requires ValidState(s) && i < |s.modules|
    ensures SameLayout(s, o.state) && ValidState(o.state) && OnlyModule(s, o.state, i)
  {
    var o := MergeModule(s, i, reversed, f, column, if column then 0 else 1, gathered);
    if o.error.Some? then o else Outcome(SetModule(o.state, i, Restored(o.state.modules[i])), None)
  }

  // ---------------------------------------------------------------------
  // `_deparallelize_modules`, `_deparallelize_embedding`, `deparallelize`
  // ---------------------------------------------------------------------

  /**
   * What `_deparallelize_modules` leaves in the record of a module, given
   * its record before: a column- or row-parallel module gets its original
   * class back and loses its mpu, and keeps the fusion degree, reversal,
   * gather flag and original class it recorded. The joined weight and the
   * sizes read off it are stated by StepMerges.
   */
  predicate Undispatched(before: Module, after: Module, mapping: Mapping) {
    if before.name in mapping.column || before.name in mapping.row then
      && after.cls == Restored(before).cls && after.mpu.None?
      && after.fusionDegree == before.fusionDegree && after.reversed == before.reversed
      && after.gatherOutput == before.gatherOutput && after.origModule == before.origModule
    else
      after == before
  }

  /** What `_deparallelize_modules` does to module j: merge it with the fusion degree and flag it recorded. */
  function DeparallelizeStep(s: State, j: nat, mapping: Mapping, gathered: Gather): (o: Outcome)
    requires ValidState(s) && j < |s.modules|
    ensures SameLayout(s, o.state) && ValidState(o.state) && OnlyModule(s, o.state, j)
    ensures o.error.None? ==> Undispatched(s.modules[j], o.state.modules[j], mapping)
  {
    var m := s.modules[j];
    var column := m.name in mapping.column;
    if column || m.name in mapping.row then
      if m.fusionDegree.None? || m.reversed.None? then Outcome(s, Some(MissingAttribute))
      else MergeAndRestore(s, j, m.reversed.value, m.fusionDegree.value, column, gathered)
    else
      Outcome(s, None)
  }

  /** `_deparallelize_modules` from module j on; it stops at the first error. */
  function DeparallelizeFrom(s: State, j: nat, mapping: Mapping, gathered: Gather): (o: Outcome)
    requires ValidState(s) && j <= |s.modules|
    ensures SameLayout(s, o.state) && ValidState(o.state)
    ensures forall k :: 0 <= k < j ==> o.state.modules[k] == s.modules[k]
    ensures o.error.None? ==> forall k :: j <= k < |s.modules| ==> Undispatched(s.modules[k], o.state.modules[k], mapping)
    decreases |s.modules| - j
  {
    if j == |s.modules| then Outcome(s, None)
    else
      var o := DeparallelizeStep(s, j, mapping, gathered);
      if o.error.Some? then o else DeparallelizeFrom(o.state, j + 1, mapping, gathered)
  }

  /** A module tied to the embedding's weight p that is not an embedding gets out_features = n and its class back. */
  function Untied(m: Module, p: nat, n: int): (r: Module)
    ensures r.name == m.name && r.weight == m.weight && r.bias == m.bias
  {
    if m.weight == Some(p) && !IsEmbedding(m.cls) then
      Restored(m.(mpu := None, attrs := m.attrs["out_features" := n]))
    else m
  }

  /**
   * `_deparallelize_embedding`: the embedding weight becomes the gathered
   * shards joined along axis 0, `num_embeddings` its row count, and the
   * embedding and the modules tied to it get their classes back.
   */
  function DeparallelizeEmbedding(s: State, gathered: Gather): (o: Outcome)
    requires ValidState(s)
    ensures SameLayout(s, o.state) && ValidState(o.state)
  {
    if s.inputEmbeddings.None? then Outcome(s, Some(NoInputEmbeddings))
    else
      var e := s.inputEmbeddings.value;
      var m := s.modules[e];
      if m.weight.None? then Outcome(s, Some(NoneWeight))
      else
        var p := m.weight.value;
        var s1 := SetParam(s, p, s.params[p].(onCuda := true));
        match CatT(gathered(p), 0)
        case Err(err) => Outcome(s1, Some(Library(err)))
        case Ok(t) =>
          var s2 := SetParam(s1, p, s1.params[p].(data := t));
          match SizeAt(t, 0)
          case Err(err) => Outcome(s2, Some(Library(err)))
          case Ok(n) =>
            var s3 := SetModule(s2, e, Restored(m.(mpu := None, attrs := m.attrs["num_embeddings" := n])));
            Outcome(s3.(modules := seq(|s3.modules|, j requires 0 <= j < |s3.modules| => Untied(s3.modules[j], p, n))), None)
  }

  /** `deparallelize()`: rescale back, embedding, modules, then the model's own mpu, stopping at the first error. */
  function Deparallelized(s: State, mpu: Mpu, mapping: Mapping, gathered: Gather): (o: Outcome)
    requires ValidState(s) && mpu.Valid()
    ensures SameLayout(s, o.state) && ValidState(o.state)
  {
    var s1 := Rescaled(s, mapping.updateAttrs, TimesBy(mpu.worldSize));
    var o2 := DeparallelizeEmbedding(s1, gathered);
    if o2.error.Some? then o2
    else
      var o3 := DeparallelizeFrom(o2.state, 0, mapping, gathered);
      if o3.error.Some? then o3
      else Outcome(SetRootMpu(o3.state, None), None)
  }

  // ---------------------------------------------------------------------
  // What the passes promise
  // ---------------------------------------------------------------------

  /**
   * Deparallelize's rescaling undoes parallelize's exactly when every listed
   * attribute of every module is a multiple of W.
   */
  lemma RescaledRoundTrip(s: State, names: seq<string>, w: nat)
    requires w > 0 && Distinct(names)
    ensures Rescaled(Rescaled(s, names, FloorDivBy(w)), names, TimesBy(w)) == s
      <==> forall j, n :: 0 <= j < |s.modules| && n in s.modules[j].attrs && n in names ==> s.modules[j].attrs[n] % w == 0
  {
    var back := Rescaled(Rescaled(s, names, FloorDivBy(w)), names, TimesBy(w));
    forall j | 0 <= j < |s.modules|
      ensures back.modules[j] == s.modules[j]
        <==> forall n :: n in s.modules[j].attrs && n in names ==> s.modules[j].attrs[n] % w == 0
    {
      var a := s.modules[j].attrs;
      RescaleRoundTrip(a, names, w);
      assert back.modules[j] == s.modules[j].(attrs := ScaleAttrs(ScaleAttrs(a, names, FloorDivBy(w)), names, TimesBy(w)));
    }
    if forall j, n :: 0 <= j < |s.modules| && n in s.modules[j].attrs && n in names ==> s.modules[j].attrs[n] % w == 0 {
      assert back.modules == s.modules;
    }
  }

  /** When both cuts succeed and the weight's shard is a matrix, `_slice` completes with those shards. */
  lemma SliceModuleOk(s: State, i: nat, reversed: bool, f: int, sliceBias: bool, dim: int, mpu: Mpu, p: nat, tw: Tensor, tb: Tensor)
    requires ValidState(s) && i < |s.modules| && mpu.Valid()
    requires s.modules[i].weight == Some(p) && s.modules[i].bias != Some(p)
    requires SliceTensorAsWritten(s.params[p].data, f, mpu.worldSize, EffectiveDim(reversed, dim), mpu.rank) == Ok(tw) && Rank(tw) == 2
    requires s.modules[i].bias.Some? ==> BiasCut(s.params[s.modules[i].bias.value].data, f, sliceBias, mpu) == Ok(tb)
    ensures var o := SliceModule(s, i, reversed, f, sliceBias, dim, mpu);
      && o.error.None?
      && o.state.params[p].data == tw
      && (s.modules[i].bias.Some? ==> o.state.params[s.modules[i].bias.value].data == tb)
      && o.state.modules[i] == Configured(s.modules[i], mpu, reversed, f).(attrs := s.modules[i].attrs["in_features" := Shape(tw)[0]]["out_features" := Shape(tw)[1]])
  {
  }

  /** When both joins succeed and the joined weight is a matrix, `_merge` completes with them. */
  lemma MergeModuleOk(s: State, i: nat, reversed: bool, f: int, mergeBias: bool, dim: int, gathered: Gather, p: nat, tw: Tensor, tb: Tensor)
    requires ValidState(s) && i < |s.modules|
    requires s.modules[i].weight == Some(p) && s.modules[i].bias != Some(p)
    requires Rank(s.params[p].data) >= 1
    requires MergeTensor(gathered(p), f, EffectiveDim(reversed, dim)) == Ok(tw) && Rank(tw) == 2
    requires s.modules[i].bias.Some? ==>
      var b := s.params[s.modules[i].bias.value].data;
      (if mergeBias && Rank(b) >= 1 then MergeTensor(gathered(s.modules[i].bias.value), f, 0) else Ok(b)) == Ok(tb)
    ensures var o := MergeModule(s, i, reversed, f, mergeBias, dim, gathered);
      && o.error.None?
      && o.state.params[p].data == tw
      && (s.modules[i].bias.Some? ==> o.state.params[s.modules[i].bias.value].data == tb)
      && o.state.modules[i] == s.modules[i].(mpu := None, attrs := s.modules[i].attrs
           ["in_features" := Shape(tw)[0]]["out_features" := Shape(tw)[1]]["nx" := Shape(tw)[0]]["nf" := Shape(tw)[1]])
  {
  }

  /** For every rank r < w, the all-gather's tensor r for parameter p is rank r's slice of t along d. */
  predicate Gathers(gathered: Gather, p: nat, t: Tensor, f: int, w: nat, d: int)
    requires w > 0
  {
    |gathered(p)| == w && forall r :: 0 <= r < w ==> SliceTensorAsWritten(t, f, w, d, r) == Ok(gathered(p)[r])
  }

  /** The fusion degree and axis `_parallelize_modules` slices a module with, by its kind. */
  predicate SliceArgs(mapping: Mapping, name: string, column: bool, f: int, dim: int) {
    && (column ==> name in mapping.column && f == FusionDegree(mapping, name) && dim == 0)
    && (!column ==> name !in mapping.column && name in mapping.row && f == 1 && dim == 1)
  }

  /** One step of `_parallelize_modules` on a column- or row-parallel module whose cuts succeed. */
  lemma StepSlices(s: State, i: nat, mapping: Mapping, mpu: Mpu, column: bool, f: int, dim: int, p: nat, tw: Tensor, tb: Tensor)
    requires ValidState(s) && i < |s.modules| && mpu.Valid()
    requires SliceArgs(mapping, s.modules[i].name, column, f, dim)
    requires s.modules[i].weight == Some(p) && s.modules[i].bias != Some(p)
    requires SliceTensorAsWritten(s.params[p].data, f, mpu.worldSize, EffectiveDim(s.modules[i].name in mapping.reversedParams, dim), mpu.rank) == Ok(tw)
    requires Rank(tw) == 2
    requires s.modules[i].bias.Some? ==> BiasCut(s.params[s.modules[i].bias.value].data, f, column, mpu) == Ok(tb)
    ensures var o := ParallelizeStep(s, i, mapping, mpu);
      && o.error.None?
      && o.state.params[p].data == tw
      && (s.modules[i].bias.Some? ==> o.state.params[s.modules[i].bias.value].data == tb)
      && o.state.modules[i].fusionDegree == Some(f)
      && o.state.modules[i].reversed == Some(s.modules[i].name in mapping.reversedParams)
      && o.state.modules[i].origModule == Some(s.modules[i].cls)
      && o.state.modules[i].attrs == s.modules[i].attrs["in_features" := Shape(tw)[0]]["out_features" := Shape(tw)[1]]
  {
    var reversed := s.modules[i].name in mapping.reversedParams;
    SliceModuleOk(s, i, reversed, f, column, dim, mpu, p, tw, tb);
  }

  /** One step of `_deparallelize_modules` on a sliced module whose joins succeed. */
  lemma StepMerges(s: State, i: nat, mapping: Mapping, gathered: Gather, column: bool, f: int, dim: int, p: nat, tw: Tensor, tb: Tensor)
    requires ValidState(s) && i < |s.modules|
    requires SliceArgs(mapping, s.modules[i].name, column, f, dim)
    requires s.modules[i].fusionDegree == Some(f) && s.modules[i].reversed.Some? && s.modules[i].origModule.Some?
    requires s.modules[i].weight == Some(p) && s.modules[i].bias != Some(p)
    requires Rank(s.params[p].data) >= 1
    requires MergeTensor(gathered(p), f, EffectiveDim(s.modules[i].reversed.value, dim)) == Ok(tw) && Rank(tw) == 2
    requires s.modules[i].bias.Some? ==>
      var b := s.params[s.modules[i].bias.value].data;
      (if column && Rank(b) >= 1 then MergeTensor(gathered(s.modules[i].bias.value), f, 0) else Ok(b)) == Ok(tb)
    ensures var o := DeparallelizeStep(s, i, mapping, gathered);
      && o.error.None?
      && o.state.params[p].data == tw
      && (s.modules[i].bias.Some? ==> o.state.params[s.modules[i].bias.value].data == tb)
      && o.state.modules[i].cls == s.modules[i].origModule.value
      && o.state.modules[i].attrs == s.modules[i].attrs
           ["in_features" := Shape(tw)[0]]["out_features" := Shape(tw)[1]]["nx" := Shape(tw)[0]]["nf" := Shape(tw)[1]]
  {
    var reversed := s.modules[i].reversed.value;
    MergeModuleOk(s, i, reversed, f, column, dim, gathered, p, tw, tb);
    var o := MergeModule(s, i, reversed, f, column, dim, gathered);
    assert DeparallelizeStep(s, i, mapping, gathered) == MergeAndRestore(s, i, reversed, f, column, gathered);
    assert MergeAndRestore(s, i, reversed, f, column, gathered) == Outcome(SetModule(o.state, i, Restored(o.state.modules[i])), None);
  }

  /**
   * A column-parallel linear layer (weight matrix and bias vector) whose
   * weight has f*W*k positions along the cut axis and whose bias has
   * f*W*kb elements, and which is either not fused or reversed (cut along
   * its last axis; a non-reversed fused column does not come back, see
   * FusedColumnDoesNotMerge): `_parallelize_modules` slices it on this rank, and
   * `_deparallelize_modules`, given the shards of every rank, gives back
   * its weight, its bias and its class, with in_features/nx and
   * out_features/nf read off the whole weight.
   */
  lemma ColumnRoundTrip(s: State, i: nat, mapping: Mapping, mpu: Mpu, gathered: Gather, p: nat, q: nat, f: nat, d: nat, k: nat, kb: nat)
    requires ValidState(s) && i < |s.modules| && mpu.Valid()
    requires s.modules[i].name in mapping.column
    requires s.modules[i].weight == Some(p) && s.modules[i].bias == Some(q) && p != q
    requires f == FusionDegree(mapping, s.modules[i].name) && f > 0
    requires d == EffectiveDim(s.modules[i].name in mapping.reversedParams, 0)
    requires f == 1 || d == 1
    requires s.params[p].data.Mat? && Wf(s.params[p].data) && s.params[q].data.Vec?
    requires AxisLength(s.params[p].data, d) == (f * mpu.worldSize) * k
    requires |s.params[q].data.v| == (f * mpu.worldSize) * kb
    requires Gathers(gathered, p, s.params[p].data, f, mpu.worldSize, d)
    requires Gathers(gathered, q, s.params[q].data, f, mpu.worldSize, 0)
    ensures ParallelizeStep(s, i, mapping, mpu).error.None?
    ensures var back := DeparallelizeStep(ParallelizeStep(s, i, mapping, mpu).state, i, mapping, gathered);
      var t := s.params[p].data;
      && back.error.None?
      && back.state.params[p].data == t
      && back.state.params[q].data == s.params[q].data
      && back.state.modules[i].cls == s.modules[i].cls
      && back.state.modules[i].attrs == s.modules[i].attrs
           ["in_features" := |t.rows|]["out_features" := t.width]["nx" := |t.rows|]["nf" := t.width]
  {
    var m := s.modules[i];
    var reversed := m.name in mapping.reversedParams;
    var w := mpu.worldSize;
    var t, b := s.params[p].data, s.params[q].data;
    AsWrittenShardThenMerge(t, f, w, d, k);
    AsWrittenShardThenMerge(b, f, w, 0, kb);
    assert gathered(p) == seq(w, r requires 0 <= r < w => SliceTensorAsWritten(t, f, w, d, r).value);
    assert gathered(q) == seq(w, r requires 0 <= r < w => SliceTensorAsWritten(b, f, w, 0, r).value);
    var tw, tb := gathered(p)[mpu.rank], gathered(q)[mpu.rank];
    StepSlices(s, i, mapping, mpu, true, f, 0, p, tw, tb);
    var s1 := ParallelizeStep(s, i, mapping, mpu).state;
    StepMerges(s1, i, mapping, gathered, true, f, 0, p, t, b);
    MergedSizesOverride(m.attrs, Shape(tw)[0], Shape(tw)[1], |t.rows|, t.width);
  }

  /**
   * A fused column-parallel layer that is not reversed, its weight cut
   * along its f*W*k rows: the shard `_parallelize_modules` keeps lays the
   * rank's f row blocks side by side, so the layer records k input features
   * and f times as many output features as the weight has columns.
   */
  lemma FusedColumnShard(s: State, i: nat, mapping: Mapping, mpu: Mpu, p: nat, q: nat, f: nat, k: nat, kb: nat)
    requires ValidState(s) && i < |s.modules| && mpu.Valid()
    requires s.modules[i].name in mapping.column && s.modules[i].name !in mapping.reversedParams
    requires s.modules[i].weight == Some(p) && s.modules[i].bias == Some(q) && p != q
    requires f == FusionDegree(mapping, s.modules[i].name) && f > 1
    requires s.params[p].data.Mat? && Wf(s.params[p].data) && |s.params[p].data.rows| == (f * mpu.worldSize) * k
    requires s.params[q].data.Vec? && |s.params[q].data.v| == (f * mpu.worldSize) * kb
    ensures var o := ParallelizeStep(s, i, mapping, mpu);
      && o.error.None?
      && o.state.modules[i].fusionDegree == Some(f) && o.state.modules[i].reversed == Some(false)
      && o.state.params[p].data.Mat? && |o.state.params[p].data.rows| == k
      && o.state.modules[i].attrs == s.modules[i].attrs["in_features" := k]["out_features" := f * s.params[p].data.width]
  {
    var w := mpu.worldSize;
    var t, b := s.params[p].data, s.params[q].data;
    AsWrittenRowShard(t, f, w, k, mpu.rank);
    AsWrittenShardThenMerge(b, f, w, 0, kb);
    var tw := SliceTensorAsWritten(t, f, w, 0, mpu.rank).value;
    var tb := SliceTensorAsWritten(b, f, w, 0, mpu.rank).value;
    StepSlices(s, i, mapping, mpu, true, f, 0, p, tw, tb);
  }

  /**
   * The same layer with one row per block cannot be deparallelized: the
   * merge cuts every gathered one-row shard into f pieces and finds too few
   * to join. Together with FusedColumnShard this is the round trip
   * ColumnRoundTrip leaves out.
   */
  lemma FusedColumnDoesNotMerge(s: State, i: nat, mapping: Mapping, mpu: Mpu, gathered: Gather, p: nat, q: nat, f: nat, kb: nat)
    requires ValidState(s) && i < |s.modules| && mpu.Valid()
    requires s.modules[i].name in mapping.column && s.modules[i].name !in mapping.reversedParams
    requires s.modules[i].weight == Some(p) && s.modules[i].bias == Some(q) && p != q
    requires f == FusionDegree(mapping, s.modules[i].name) && f > 1
    requires s.params[p].data.Mat? && Wf(s.params[p].data) && |s.params[p].data.rows| == f * mpu.worldSize
    requires s.params[q].data.Vec? && |s.params[q].data.v| == (f * mpu.worldSize) * kb
    requires Gathers(gathered, p, s.params[p].data, f, mpu.worldSize, 0)
    ensures ParallelizeStep(s, i, mapping, mpu).error.None?
    ensures DeparallelizeStep(ParallelizeStep(s, i, mapping, mpu).state, i, mapping, gathered).error.Some?
  {
    var w := mpu.worldSize;
    var t := s.params[p].data;
    assert |t.rows| == (f * w) * 1;
    FusedColumnShard(s, i, mapping, mpu, p, q, f, 1, kb);
    var s1 := ParallelizeStep(s, i, mapping, mpu).state;
    assert s1.modules[i].name == s.modules[i].name && s1.modules[i].weight == Some(p);
    AsWrittenShardsDoNotMerge(gathered(p), t, f, w);
    StepMergeFails(s1, i, mapping, gathered, p);
  }

  /** The all-gather of the as-written one-row shards of a fused weight does not merge. */
  lemma AsWrittenShardsDoNotMerge(shards: seq<Tensor>, t: Tensor, f: nat, w: nat)
    requires t.Mat? && Wf(t) && f > 1 && w > 0 && |t.rows| == f * w
    requires |shards| == w && forall r :: 0 <= r < w ==> SliceTensorAsWritten(t, f, w, 0, r) == Ok(shards[r])
    ensures MergeTensor(shards, f, 0).Err?
  {
    AsWrittenRoundTripFails(t, f, w);
    assert shards == seq(w, r requires 0 <= r < w => SliceTensorAsWritten(t, f, w, 0, r).value);
  }

  /** A recorded column- or row-parallel module whose weight's shards do not join cannot be merged. */
  lemma StepMergeFails(s: State, i: nat, mapping: Mapping, gathered: Gather, p: nat)
    requires ValidState(s) && i < |s.modules|
    requires s.modules[i].name in mapping.column || s.modules[i].name in mapping.row
    requires s.modules[i].fusionDegree.Some? && s.modules[i].reversed.Some?
    requires s.modules[i].weight == Some(p) && Rank(s.params[p].data) >= 1
    requires var column := s.modules[i].name in mapping.column;
      MergeTensor(gathered(p), s.modules[i].fusionDegree.value, EffectiveDim(s.modules[i].reversed.value, if column then 0 else 1)).Err?
    ensures DeparallelizeStep(s, i, mapping, gathered).error.Some?
  {
    var m := s.modules[i];
    var column := m.name in mapping.column;
    var s1 := SetModule(s, i, m.(mpu := None));
    assert s1.params == s.params;
    var d := EffectiveDim(m.reversed.value, if column then 0 else 1);
    assert MergeWeight(s1, i, p, m.fusionDegree.value, d, gathered).error.Some?;
  }

  /**
   * A row-parallel linear layer whose weight has W*k positions along the
   * cut axis: it is sliced with fusion degree 1, its bias (if any) is only
   * tagged, and merging the shards of every rank gives back its weight, its
   * untouched bias and its class.
   */
  lemma RowRoundTrip(s: State, i: nat, mapping: Mapping, mpu: Mpu, gathered: Gather, p: nat, d: nat, k: nat)
    requires ValidState(s) && i < |s.modules| && mpu.Valid()
    requires s.modules[i].name !in mapping.column && s.modules[i].name in mapping.row
    requires s.modules[i].weight == Some(p) && s.modules[i].bias != Some(p)
    requires d == EffectiveDim(s.modules[i].name in mapping.reversedParams, 1)
    requires s.params[p].data.Mat? && Wf(s.params[p].data)
    requires AxisLength(s.params[p].data, d) == (1 * mpu.worldSize) * k
    requires Gathers(gathered, p, s.params[p].data, 1, mpu.worldSize, d)
    ensures ParallelizeStep(s, i, mapping, mpu).error.None?
    ensures var back := DeparallelizeStep(ParallelizeStep(s, i, mapping, mpu).state, i, mapping, gathered);
      var t := s.params[p].data;
      && back.error.None?
      && back.state.params[p].data == t
      && (s.modules[i].bias.Some? ==> back.state.params[s.modules[i].bias.value].data == s.params[s.modules[i].bias.value].data)
      && back.state.modules[i].cls == s.modules[i].cls
      && back.state.modules[i].attrs == s.modules[i].attrs
           ["in_features" := |t.rows|]["out_features" := t.width]["nx" := |t.rows|]["nf" := t.width]
  {
    var m := s.modules[i];
    var w := mpu.worldSize;
    var t := s.params[p].data;
    var b := if m.bias.Some? then s.params[m.bias.value].data else t;
    AsWrittenShardThenMerge(t, 1, w, d, k);
    assert gathered(p) == seq(w, r requires 0 <= r < w => SliceTensorAsWritten(t, 1, w, d, r).value);
    var tw := gathered(p)[mpu.rank];
    StepSlices(s, i, mapping, mpu, false, 1, 1, p, tw, b);
    var s1 := ParallelizeStep(s, i, mapping, mpu).state;
    StepMerges(s1, i, mapping, gathered, false, 1, 1, p, t, b);
    MergedSizesOverride(m.attrs, Shape(tw)[0], Shape(tw)[1], |t.rows|, t.width);
  }

  /**
   * The input embedding, a table of W*k rows, cut by
   * `_parallelize_embedding` and joined by `_deparallelize_embedding` from
   * the chunks of every rank: the table comes back, `num_embeddings` is its
   * row count, and the embedding gets its class back.
   */
  lemma EmbeddingRoundTrip(s: State, mpu: Mpu, mapping: Mapping, gathered: Gather, e: nat, p: nat, k: nat)
    requires ValidState(s) && mpu.Valid()
    requires s.inputEmbeddings == Some(e) && s.modules[e].weight == Some(p)
    requires s.params[p].data.Mat? && Wf(s.params[p].data) && |s.params[p].data.rows| == (1 * mpu.worldSize) * k
    requires Gathers(gathered, p, s.params[p].data, 1, mpu.worldSize, 0)
    ensures ParallelizeEmbedding(s, mpu, mapping).error.None?
    ensures var back := DeparallelizeEmbedding(ParallelizeEmbedding(s, mpu, mapping).state, gathered);
      && back.error.None?
      && back.state.params[p].data == s.params[p].data
      && back.state.modules[e].cls == s.modules[e].cls
      && "num_embeddings" in back.state.modules[e].attrs
      && back.state.modules[e].attrs["num_embeddings"] == |s.params[p].data.rows|
  {
    var t := s.params[p].data;
    var w := mpu.worldSize;
    AsWrittenShardThenMerge(t, 1, w, 0, k);
    assert gathered(p) == seq(w, r requires 0 <= r < w => SliceTensorAsWritten(t, 1, w, 0, r).value);
    assert ChunkT(t, w, 0) == ChunkT(t, 1 * w, 0);
    var chunks := ChunkT(t, w, 0).value;
    assert mpu.rank < |chunks| && chunks[mpu.rank] == gathered(p)[mpu.rank];
    var o := ParallelizeEmbedding(s, mpu, mapping);
    assert o.error.None?;
    assert CatT(gathered(p), 0) == Ok(t);
  }

  /** The modules tied to the embedding weight get their class and attributes back, with the
      full vocabulary size as `out_features`. */
  lemma TiedRoundTrip(s: State, mpu: Mpu, mapping: Mapping, gathered: Gather, e: nat, p: nat, k: nat)
    requires ValidState(s) && mpu.Valid()
    requires s.inputEmbeddings == Some(e) && s.modules[e].weight == Some(p)
    requires s.params[p].data.Mat? && Wf(s.params[p].data) && |s.params[p].data.rows| == (1 * mpu.worldSize) * k
    requires Gathers(gathered, p, s.params[p].data, 1, mpu.worldSize, 0)
    ensures var back := DeparallelizeEmbedding(ParallelizeEmbedding(s, mpu, mapping).state, gathered);
      forall j :: 0 <= j < |s.modules| && j != e && s.modules[j].weight == Some(p) && !IsEmbedding(s.modules[j].cls) ==>
        back.state.modules[j].cls == s.modules[j].cls && back.state.modules[j].attrs == s.modules[j].attrs["out_features" := |s.params[p].data.rows|]
  {
    EmbeddingRoundTrip(s, mpu, mapping, gathered, e, p, k);
    var t := s.params[p].data;
    var o := ParallelizeEmbedding(s, mpu, mapping);
    var back := DeparallelizeEmbedding(o.state, gathered);
    assert o.state.params[p].data.Mat?;
    forall j | 0 <= j < |s.modules| && j != e && s.modules[j].weight == Some(p) && !IsEmbedding(s.modules[j].cls)
      ensures back.state.modules[j].cls == s.modules[j].cls
      ensures back.state.modules[j].attrs == s.modules[j].attrs["out_features" := |t.rows|]
    {
      var tied := TiedToEmbedding(s.modules[j], p, mpu, mapping);
      assert o.state.modules[j] == tied;
      assert back.state.modules[j] == Untied(tied, p, |t.rows|);
    }
  }

  /** The sizes `_merge` records replace the ones `_slice` recorded. */
  lemma MergedSizesOverride(a: map<string, int>, x0: int, y0: int, x: int, y: int)
    ensures a["in_features" := x0]["out_features" := y0]["in_features" := x]["out_features" := y]["nx" := x]["nf" := y]
         == a["in_features" := x]["out_features" := y]["nx" := x]["nf" := y]
  {
  }
}
