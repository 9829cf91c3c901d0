/**
 * `TensorParallelEngine1D` and `TensorDeparallelEngine1D`: the two engines
 * as classes over a model object whose module, parameter and buffer lists
 * they rewrite in place, pass by pass, as the original does. Each method
 * is proved to leave the model in the state, and to raise the error, that
 * the matching function of Bookkeeping gives for the state it started from.
 */
module Engine {
  import opened Tensors
  import opened Results
  import opened Regroup
  import opened Bookkeeping

  /** The model: its modules in `named_modules()` order, its parameters and its buffers. */
  class Model {
    var modules: seq<Module>
    var params: seq<Param>
    var buffers: seq<Param>
    const inputEmbeddings: Option<nat>

    constructor (modules: seq<Module>, params: seq<Param>, buffers: seq<Param>, inputEmbeddings: Option<nat>)
      ensures Snapshot() == State(modules, params, buffers, inputEmbeddings)
    {
      this.modules := modules;
      this.params := params;
      this.buffers := buffers;
      this.inputEmbeddings := inputEmbeddings;
    }

    /** The model as a value. */
    function Snapshot(): State
      reads this
    {
      State(modules, params, buffers, inputEmbeddings)
    }

    predicate Valid()
      reads this
    {
      ValidState(Snapshot())
    }
  }

  /** The attribute loop of `_update_mp_arguments`: for every module, every listed attribute it has, replaced by op of it. */
  method RescaleAttributes(model: Model, names: seq<string>, op: int -> int)
    modifies model
    ensures model.Snapshot() == Rescaled(old(model.Snapshot()), names, op)
  {
    ghost var start := model.modules;
    var j := 0;
    while j < |model.modules|
      invariant 0 <= j <= |model.modules| == |start|
      invariant model.params == old(model.params) && model.buffers == old(model.buffers)
      invariant forall k :: 0 <= k < j ==> model.modules[k] == start[k].(attrs := ScaleAttrs(start[k].attrs, names, op))
      invariant forall k :: j <= k < |start| ==> model.modules[k] == start[k]
    {
      ghost var before := model.modules;
      var n := 0;
      while n < |names|
        invariant 0 <= n <= |names|
        invariant |model.modules| == |start| && model.params == old(model.params) && model.buffers == old(model.buffers)
        invariant model.modules[j] == start[j].(attrs := ScaleAttrs(start[j].attrs, names[..n], op))
        invariant forall k :: 0 <= k < |start| && k != j ==> model.modules[k] == before[k]
      {
        var m := model.modules[j];
        var name := names[n];
        if name in m.attrs {
          model.modules := model.modules[j := m.(attrs := m.attrs[name := op(m.attrs[name])])];
        }
        assert names[..n + 1][..n] == names[..n];
        n := n + 1;
      }
      assert names[..n] == names;
      j := j + 1;
    }
  }

  class TensorParallelEngine1D {
    const model: Model
    const mpu: Mpu
    const mapping: Mapping

    constructor (model: Model, mpu: Mpu, mapping: Mapping)
      ensures this.model == model && this.mpu == mpu && this.mapping == mapping
    {
      this.model := model;
      this.mpu := mpu;
      this.mapping := mapping;
    }

    /** `_update_mp_arguments`: every listed attribute floor-divided by W. */
    method UpdateMpArguments()
      requires mpu.Valid()
      modifies model
      ensures model.Snapshot() == Rescaled(old(model.Snapshot()), mapping.updateAttrs, FloorDivBy(mpu.worldSize))
    {
      RescaleAttributes(model, mapping.updateAttrs, FloorDivBy(mpu.worldSize));
    }

    /** `_slice`: record the arguments, keep this rank's shard of the weight and (when asked) of the bias. */
    method Slice(i: nat, reversed: bool, f: int, sliceBias: bool, dim: int) returns (err: Option<EngineError>)
      requires model.Valid() && mpu.Valid() && i < |model.modules|
      modifies model
      ensures Outcome(model.Snapshot(), err) == SliceModule(old(model.Snapshot()), i, reversed, f, sliceBias, dim, mpu)
    {
      var d := EffectiveDim(reversed, dim);
      var m := model.modules[i];
      model.modules := model.modules[i := Configured(m, mpu, reversed, f)];
      if m.weight.Some? {
        var p := m.weight.value;
        var w := model.params[p];
        var cut := SliceTensorAsWritten(w.data, f, mpu.worldSize, d, mpu.rank);
        if cut.Err? {
          return Some(Sharding(cut.error));
        }
        model.params := model.params[p := w.(data := cut.value, tpRank := Some(mpu.rank))];
        var rows, cols := SizeAt(cut.value, 0), SizeAt(cut.value, 1);
        if rows.Err? {
          return Some(Library(rows.error));
        }
        if cols.Err? {
          return Some(Library(cols.error));
        }
        var mi := model.modules[i];
        model.modules := model.modules[i := mi.(attrs := mi.attrs["in_features" := rows.value]["out_features" := cols.value])];
      }
      if m.bias.Some? {
        var q := m.bias.value;
        var b := model.params[q];
        var cut := BiasCut(b.data, f, sliceBias, mpu);
        if cut.Err? {
          return Some(Sharding(cut.error));
        }
        model.params := model.params[q := b.(data := cut.value, tpRank := Some(mpu.rank))];
      }
      return None;
    }

    /** `_column_slice`: cut along dim 0 (1 when reversed), bias included. */
    method ColumnSlice(i: nat, f: int, reversed: bool) returns (err: Option<EngineError>)
      requires model.Valid() && mpu.Valid() && i < |model.modules|
      modifies model
      ensures Outcome(model.Snapshot(), err) == SliceModule(old(model.Snapshot()), i, reversed, f, true, 0, mpu)
    {
      err := Slice(i, reversed, f, true, 0);
    }

    /** `_row_slice`: cut along dim 1 (0 when reversed), bias left whole. */
    method RowSlice(i: nat, f: int, reversed: bool) returns (err: Option<EngineError>)
      requires model.Valid() && mpu.Valid() && i < |model.modules|
      modifies model
      ensures Outcome(model.Snapshot(), err) == SliceModule(old(model.Snapshot()), i, reversed, f, false, 1, mpu)
    {
      err := Slice(i, reversed, f, false, 1);
    }

    /** `_parallelize_embedding`. */
    method ParallelizeEmbedding() returns (err: Option<EngineError>)
      requires model.Valid() && mpu.Valid()
      modifies model
      ensures Outcome(model.Snapshot(), err) == Bookkeeping.ParallelizeEmbedding(old(model.Snapshot()), mpu, mapping)
    {
      if model.inputEmbeddings.None? {
        return Some(NoInputEmbeddings);
      }
      var e := model.inputEmbeddings.value;
      var m := model.modules[e];
      if m.weight.None? {
        return Some(NoneWeight);
      }
      var p := m.weight.value;
      var chunks := ChunkT(model.params[p].data, mpu.worldSize, 0);
      if chunks.Err? {
        return Some(Library(chunks.error));
      }
      if mpu.rank >= |chunks.value| {
        return Some(Sharding(NoChunkForRank));
      }
      model.params := model.params[p := model.params[p].(data := chunks.value[mpu.rank], tpRank := Some(mpu.rank))];
      model.modules := model.modules[e := m.(mpu := Some(mpu), origModule := Some(m.cls), cls := VocabParallelEmbedding)];
      ghost var before := model.modules;
      ghost var params := model.params;
      var j := 0;
      while j < |model.modules|
        invariant 0 <= j <= |model.modules| == |before|
        invariant model.params == params && model.buffers == old(model.buffers)
        invariant forall k :: 0 <= k < j ==> model.modules[k] == TiedToEmbedding(before[k], p, mpu, mapping)
        invariant forall k :: j <= k < |before| ==> model.modules[k] == before[k]
      {
        var mj := model.modules[j];
        if mj.weight == Some(p) && !IsEmbedding(mj.cls) {
          var tied := mj.(mpu := Some(mpu), reversed := Some(mj.name in mapping.reversedParams), fusionDegree := Some(1),
                          origModule := Some(mj.cls), gatherOutput := Some(true));
          model.modules := model.modules[j := tied.(cls := ColumnParallelLinear)];
        }
        j := j + 1;
      }
      assert model.modules == seq(|before|, k requires 0 <= k < |before| => TiedToEmbedding(before[k], p, mpu, mapping));
      return None;
    }

    /** The body of the `_parallelize_modules` loop for module j. */
    method ParallelizeModule(j: nat) returns (err: Option<EngineError>)
      requires model.Valid() && mpu.Valid() && j < |model.modules|
      modifies model
      ensures Outcome(model.Snapshot(), err) == ParallelizeStep(old(model.Snapshot()), j, mapping, mpu)
    {
      var name := model.modules[j].name;
      var reversed := name in mapping.reversedParams;
      if name in mapping.column {
        err := ColumnSlice(j, FusionDegree(mapping, name), reversed);
        if err.None? {
          model.modules := model.modules[j := model.modules[j].(cls := ColumnParallelLinear)];
        }
      } else if name in mapping.row {
        err := RowSlice(j, 1, reversed);
        if err.None? {
          model.modules := model.modules[j := model.modules[j].(cls := RowParallelLinear)];
        }
      } else {
        err := None;
      }
    }

    /** `_parallelize_modules`: slice every column- or row-parallel module and swap its class. */
    method ParallelizeModules() returns (err: Option<EngineError>)
      requires model.Valid() && mpu.Valid()
      modifies model
      ensures Outcome(model.Snapshot(), err) == ParallelizeFrom(old(model.Snapshot()), 0, mapping, mpu)
    {
      ghost var start := model.Snapshot();
      ghost var cur := start;
      var n := |model.modules|;
      var j := 0;
      while j < n
        invariant 0 <= j <= n == |cur.modules| && ValidState(cur) && model.Snapshot() == cur
        invariant ParallelizeFrom(cur, j, mapping, mpu) == ParallelizeFrom(start, 0, mapping, mpu)
      {
        err := ParallelizeModule(j);
        cur := model.Snapshot();
        if err.Some? {
          return;
        }
        j := j + 1;
      }
      return None;
    }

    /** `_postprocess`: tag every parameter and buffer not on a GPU with this rank. */
    method Postprocess()
      modifies model
      ensures model.Snapshot() == Postprocessed(old(model.Snapshot()), mpu.rank)
    {
      var i := 0;
      while i < |model.params|
        invariant 0 <= i <= |model.params| == |old(model.params)|
        invariant model.modules == old(model.modules) && model.buffers == old(model.buffers)
        invariant forall k :: 0 <= k < i ==> model.params[k] == Tagged(old(model.params), mpu.rank)[k]
        invariant forall k :: i <= k < |model.params| ==> model.params[k] == old(model.params)[k]
      {
        if !model.params[i].onCuda {
          model.params := model.params[i := model.params[i].(tpRank := Some(mpu.rank))];
        }
        i := i + 1;
      }
      i := 0;
      while i < |model.buffers|
        invariant 0 <= i <= |model.buffers| == |old(model.buffers)|
        invariant model.modules == old(model.modules) && model.params == Tagged(old(model.params), mpu.rank)
        invariant forall k :: 0 <= k < i ==> model.buffers[k] == Tagged(old(model.buffers), mpu.rank)[k]
        invariant forall k :: i <= k < |model.buffers| ==> model.buffers[k] == old(model.buffers)[k]
      {
        if !model.buffers[i].onCuda {
          model.buffers := model.buffers[i := model.buffers[i].(tpRank := Some(mpu.rank))];
        }
        i := i + 1;
      }
    }

    /** `parallelize()`. */
    method Parallelize() returns (err: Option<EngineError>)
      requires model.Valid() && mpu.Valid()
      modifies model
      ensures Outcome(model.Snapshot(), err) == Parallelized(old(model.Snapshot()), mpu, mapping)
    {
      UpdateMpArguments();
      err := ParallelizeEmbedding();
      if err.Some? {
        return;
      }
      err := ParallelizeModules();
      if err.Some? {
        return;
      }
      Postprocess();
      model.modules := model.modules[0 := model.modules[0].(mpu := Some(mpu))];
    }
  }

  class TensorDeparallelEngine1D {
    const model: Model
    const mpu: Mpu
    const mapping: Mapping

    constructor (model: Model, mpu: Mpu, mapping: Mapping)
      ensures this.model == model && this.mpu == mpu && this.mapping == mapping
    {
      this.model := model;
      this.mpu := mpu;
      this.mapping := mapping;
    }

    /** `_update_mp_arguments`: every listed attribute multiplied by W. */
    method UpdateMpArguments()
      modifies model
      ensures model.Snapshot() == Rescaled(old(model.Snapshot()), mapping.updateAttrs, TimesBy(mpu.worldSize))
    {
      RescaleAttributes(model, mapping.updateAttrs, TimesBy(mpu.worldSize));
    }

    /**
     * `_reconstruct_combined_qkv`: chunk i of every gathered tensor is
     * appended to slot i, each slot is joined along d, and the slots are
     * joined along d.
     */
    method ReconstructCombinedQkv(tensors: seq<Tensor>, f: nat, d: int) returns (r: Result<Tensor, TorchError>)
      ensures r == Reassembled(tensors, f, d)
    {
      var slots := DistributeChunks(tensors, f, d);
      if slots.Err? {
        return Err(slots.error);
      }
      var joined := JoinSlots(slots.value, d);
      if joined.Err? {
        return Err(joined.error);
      }
      r := CatT(joined.value, d);
    }

    /** The first loop of `_reconstruct_combined_qkv`: every tensor cut into f chunks, chunk j appended to slot j. */
    method DistributeChunks(tensors: seq<Tensor>, f: nat, d: int) returns (r: Result<seq<seq<Tensor>>, TorchError>)
      ensures ChunkEach(tensors, f, d).Err? ==> r == Err(ChunkEach(tensors, f, d).error)
      ensures ChunkEach(tensors, f, d).Ok? ==> r == Ok(Distribute(ChunkEach(tensors, f, d).value, f))
    {
      var slots: seq<seq<Tensor>> := seq(f, _ => []);
      ghost var parts: seq<seq<Tensor>> := [];
      var i := 0;
      while i < |tensors|
        invariant 0 <= i <= |tensors| && |parts| == i
        invariant forall k :: 0 <= k < i ==> ChunkT(tensors[k], f, d) == Ok(parts[k])
        invariant slots == Distribute(parts, f)
      {
        var chunks := ChunkT(tensors[i], f, d);
        if chunks.Err? {
          ChunkEachFails(tensors, f, d, i);
          return Err(chunks.error);
        }
        var cs := chunks.value;
        slots := AppendEach(slots, cs);
        DistributeSnoc(parts, cs, f);
        parts := parts + [cs];
        i := i + 1;
      }
      ChunkEachOk(tensors, f, d, parts);
      return Ok(slots);
    }

    /** The inner loop of `_reconstruct_combined_qkv`: chunk j appended to slot j. */
    method AppendEach(slots: seq<seq<Tensor>>, cs: seq<Tensor>) returns (r: seq<seq<Tensor>>)
      requires |cs| <= |slots|
      ensures r == AppendChunks(slots, cs)
    {
      r := slots;
      var j := 0;
      while j < |cs|
        invariant 0 <= j <= |cs| && |r| == |slots|
        invariant forall s :: 0 <= s < |slots| ==> r[s] == if s < j then slots[s] + [cs[s]] else slots[s]
      {
        r := r[j := r[j] + [cs[j]]];
        j := j + 1;
      }
    }

    /** The slot loop of `_reconstruct_combined_qkv`: each slot joined along d, stopping at the first failure. */
    method JoinSlots(slots: seq<seq<Tensor>>, d: int) returns (r: Result<seq<Tensor>, TorchError>)
      ensures r == CatEach(slots, d)
    {
      var joined: seq<Tensor> := [];
      var j := 0;
      while j < |slots|
        invariant 0 <= j <= |slots|
        invariant |joined| == j
        invariant forall k :: 0 <= k < j ==> CatT(slots[k], d) == Ok(joined[k])
      {
        var c := CatT(slots[j], d);
        if c.Err? {
          CatEachFails(slots, d, j);
          return Err(c.error);
        }
        joined := joined + [c.value];
        j := j + 1;
      }
      CatEachOk(slots, d, joined);
      return Ok(joined);
    }

    /** The join `_merge` makes of the gathered shards: reassembled when fused, one cat otherwise. */
    method Join(gathered: seq<Tensor>, f: int, d: int) returns (r: Result<Tensor, TorchError>)
      ensures r == MergeTensor(gathered, f, d)
    {
      if f > 1 {
        r := ReconstructCombinedQkv(gathered, f as nat, d);
      } else {
        r := CatT(gathered, d);
      }
    }

    /** The weight step of `_merge`. */
    method MergeWeightOf(i: nat, p: nat, f: int, d: int, gathered: Gather) returns (err: Option<EngineError>)
      requires i < |model.modules| && p < |model.params|
      modifies model
      ensures Outcome(model.Snapshot(), err) == MergeWeight(old(model.Snapshot()), i, p, f, d, gathered)
    {
      var w := model.params[p];
      if Rank(w.data) == 0 {
        return None;
      }
      model.params := model.params[p := w.(onCuda := true)];
      var out := Join(gathered(p), f, d);
      if out.Err? {
        return Some(Library(out.error));
      }
      model.params := model.params[p := w.(onCuda := true, data := out.value)];
      var rows, cols := SizeAt(out.value, 0), SizeAt(out.value, 1);
      if rows.Err? {
        return Some(Library(rows.error));
      }
      if cols.Err? {
        return Some(Library(cols.error));
      }
      var m := model.modules[i];
      var a := m.attrs["in_features" := rows.value]["out_features" := cols.value]["nx" := rows.value]["nf" := cols.value];
      model.modules := model.modules[i := m.(attrs := a)];
      return None;
    }

    /** The bias step of `_merge`. */
    method MergeBiasOf(q: nat, f: int, mergeBias: bool, gathered: Gather) returns (err: Option<EngineError>)
      requires q < |model.params|
      modifies model
      ensures Outcome(model.Snapshot(), err) == MergeBias(old(model.Snapshot()), q, f, mergeBias, gathered)
    {
      var b := model.params[q];
      if !mergeBias || Rank(b.data) == 0 {
        return None;
      }
      model.params := model.params[q := b.(onCuda := true)];
      var out := Join(gathered(q), f, 0);
      if out.Err? {
        return Some(Library(out.error));
      }
      model.params := model.params[q := b.(onCuda := true, data := out.value)];
      return None;
    }

    /** `_merge`: gather the shards of every rank and join them, for the weight and (when asked) the bias. */
    method Merge(i: nat, reversed: bool, f: int, mergeBias: bool, dim: int, gathered: Gather) returns (err: Option<EngineError>)
      requires model.Valid() && i < |model.modules|
      modifies model
      ensures Outcome(model.Snapshot(), err) == MergeModule(old(model.Snapshot()), i, reversed, f, mergeBias, dim, gathered)
    {
      var m := model.modules[i];
      model.modules := model.modules[i := m.(mpu := None)];
      err := None;
      if m.weight.Some? {
        err := MergeWeightOf(i, m.weight.value, f, EffectiveDim(reversed, dim), gathered);
      }
      if err.None? && m.bias.Some? {
        err := MergeBiasOf(m.bias.value, f, mergeBias, gathered);
      }
    }

    /** Put back the class recorded in `orig_module`, if any. */
    method RestoreClass(i: nat)
      requires i < |model.modules|
      modifies model
      ensures model.modules == old(model.modules)[i := Restored(old(model.modules)[i])]
      ensures model.params == old(model.params) && model.buffers == old(model.buffers)
    {
      var m := model.modules[i];
      if m.origModule.Some? {
        model.modules := model.modules[i := m.(cls := m.origModule.value)];
      }
    }

    /** `_column_merge`: merge along dim 0 (1 when reversed), bias included, then restore the class. */
    method ColumnMerge(i: nat, f: int, reversed: bool, gathered: Gather) returns (err: Option<EngineError>)
      requires model.Valid() && i < |model.modules|
      modifies model
      ensures Outcome(model.Snapshot(), err) == MergeAndRestore(old(model.Snapshot()), i, reversed, f, true, gathered)
    {
      err := Merge(i, reversed, f, true, 0, gathered);
      if err.None? {
        RestoreClass(i);
      }
    }

    /** `_row_merge`: merge along dim 1 (0 when reversed), bias left alone, then restore the class. */
    method RowMerge(i: nat, f: int, reversed: bool, gathered: Gather) returns (err: Option<EngineError>)
      requires model.Valid() && i < |model.modules|
      modifies model
      ensures Outcome(model.Snapshot(), err) == MergeAndRestore(old(model.Snapshot()), i, reversed, f, false, gathered)
    {
      err := Merge(i, reversed, f, false, 1, gathered);
      if err.None? {
        RestoreClass(i);
      }
    }

    /** `_deparallelize_embedding`. */
    method DeparallelizeEmbedding(gathered: Gather) returns (err: Option<EngineError>)
      requires model.Valid()
      modifies model
      ensures Outcome(model.Snapshot(), err) == Bookkeeping.DeparallelizeEmbedding(old(model.Snapshot()), gathered)
    {
      if model.inputEmbeddings.None? {
        return Some(NoInputEmbeddings);
      }
      var e := model.inputEmbeddings.value;
      var m := model.modules[e];
      if m.weight.None? {
        return Some(NoneWeight);
      }
      var p := m.weight.value;
      model.params := model.params[p := model.params[p].(onCuda := true)];
      var joined := CatT(gathered(p), 0);
      if joined.Err? {
        return Some(Library(joined.error));
      }
      model.params := model.params[p := model.params[p].(data := joined.value)];
      var rows := SizeAt(joined.value, 0);
      if rows.Err? {
        return Some(Library(rows.error));
      }
      var n := rows.value;
      model.modules := model.modules[e := m.(mpu := None, attrs := m.attrs["num_embeddings" := n])];
      RestoreClass(e);
      ghost var before := model.modules;
      ghost var params := model.params;
      var j := 0;
      while j < |model.modules|
        invariant 0 <= j <= |model.modules| == |before|
        invariant model.params == params && model.buffers == old(model.buffers)
        invariant forall k :: 0 <= k < j ==> model.modules[k] == Untied(before[k], p, n)
        invariant forall k :: j <= k < |before| ==> model.modules[k] == before[k]
      {
        var mj := model.modules[j];
        if mj.weight == Some(p) && !IsEmbedding(mj.cls) {
          model.modules := model.modules[j := mj.(mpu := None, attrs := mj.attrs["out_features" := n])];
          RestoreClass(j);
        }
        j := j + 1;
      }
      assert model.modules == seq(|before|, k requires 0 <= k < |before| => Untied(before[k], p, n));
      return None;
    }

    /** `_deparallelize_modules`: merge every column- or row-parallel module with the arguments it recorded. */
    method DeparallelizeModules(gathered: Gather) returns (err: Option<EngineError>)
      requires model.Valid()
      modifies model
      ensures Outcome(model.Snapshot(), err) == DeparallelizeFrom(old(model.Snapshot()), 0, mapping, gathered)
    {
      ghost var start := model.Snapshot();
      ghost var cur := start;
      var n := |model.modules|;
      var j := 0;
      while j < n
        invariant 0 <= j <= n == |cur.modules| && ValidState(cur) && model.Snapshot() == cur
        invariant DeparallelizeFrom(cur, j, mapping, gathered) == DeparallelizeFrom(start, 0, mapping, gathered)
      {
        var m := model.modules[j];
        if m.name in mapping.column || m.name in mapping.row {
          if m.fusionDegree.None? || m.reversed.None? {
            return Some(MissingAttribute);
          }
          if m.name in mapping.column {
            err := ColumnMerge(j, m.fusionDegree.value, m.reversed.value, gathered);
          } else {
            err := RowMerge(j, m.fusionDegree.value, m.reversed.value, gathered);
          }
          if err.Some? {
            return;
          }
        }
        cur := model.Snapshot();
        j := j + 1;
      }
      return None;
    }

    /** `deparallelize()`. */
    method Deparallelize(gathered: Gather) returns (err: Option<EngineError>)
      requires model.Valid() && mpu.Valid()
      modifies model
      ensures Outcome(model.Snapshot(), err) == Deparallelized(old(model.Snapshot()), mpu, mapping, gathered)
    {
      UpdateMpArguments();
      err := DeparallelizeEmbedding(gathered);
      if err.Some? {
        return;
      }
      err := DeparallelizeModules(gathered);
      if err.Some? {
        return;
      }
      model.modules := model.modules[0 := model.modules[0].(mpu := None)];
    }
  }
}
