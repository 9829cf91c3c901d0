# oslo 1-D tensor parallelism, modelled in Dafny

This project models the core of oslo's 1-D tensor parallelism.

**The engine pair.** `TensorParallelEngine1D.parallelize` does four things:
- it shrinks the configuration integers named by the mapping table;
- it cuts the input embedding and every column- or row-parallel module into per-rank shards, handling fused query-key-value projections;
- it swaps each module's class for its parallel variant;
- it tags every tensor with its rank.

`TensorDeparallelEngine1D.deparallelize` is its inverse. It grows the integers back, joins the gathered shards, restores the original classes and recomputes the feature counts.

**The parallel layers.** Around the engine are the layers it installs:
- `VocabParallelEmbedding`: a vocabulary range per rank, masked lookup, then a sum over ranks;
- `ColumnParallelLinear` and `RowParallelLinear`: the order of broadcast, gather, reduce and bias;
- `allocate`: which ranks a parameter's device is looked up by.

**The fused-norm bindings.** The argument checks of the layer-norm and RMS-norm CUDA bindings are modelled up to the kernel call. This covers:
- the shape validation that computes n1 and n2 in C `int`;
- the gamma and beta checks;
- the dtype and sizes of the tensors each binding allocates;
- the asserts of the n-gram repeat blocker.

**The files.**
- `results.dfy`: the `Result` and `Option` values for operations that raise.
- `slices.dfy`: the sequence algebra of `torch.chunk`. A length is cut into pieces of ceil(len / n), so there may be fewer than n pieces.
- `tensors.dfy`: tensors of rank 0 to 2 over integer elements, with `torch.chunk` and `torch.cat` and the errors they raise.
- `regroup.dfy`: how one weight is cut into shards and joined back (`_slice`, `_deconstruct_combined_qkv`, `_merge`, `_reconstruct_combined_qkv`). As written, slicing and then merging gives back the original weight when the weight is not fused or is cut along its last axis. A fused weight cut along its rows does not come back (see Findings). The slice with the evidently intended join comes back for every fusion degree.
- `bookkeeping.dfy`: the engines as functions on a value snapshot of the model. A snapshot holds modules, parameters and buffers addressed by index. Each step is a function, and the round trips are stated module by module.
- `engine.dfy`: the two engines as classes over a mutable `Model`. Each method is proved to leave the model in the state its `bookkeeping.dfy` function computes.
- `vocab.dfy`: the vocabulary range and the masked lookup. The per-rank lookups, summed, are the unsharded lookup.
- `linear.dfy`: the two forward passes over integer weights, for one input row. Column shards reproduce chunks of the full output; row shards, reduced, reproduce all of it, with the bias added once.
- `allocate.dfy`: `allocate`, as written and corrected.
- `layernorm.dfy`: the `CUDABinder.cpp` checks.

**Collectives.** Collectives are functions of the per-rank values:
- `broadcast` hands every rank rank 0's input;
- `gather` and `all_gather` concatenate in rank order, given as an oracle per parameter;
- `reduce` sums elementwise.

The mapping table is an oracle input. It supplies the column, row and reversed name sets, the fusion degree per name, and the attributes to rescale.

**Two facts about the code the model keeps:**
- `_deconstruct_combined_qkv` joins each rank's fused pieces along the last axis (`dim=-1`), not along the sliced axis. The engine model (`Bookkeeping.SliceWeight`, `Bookkeeping.BiasCut`, `Engine.TensorParallelEngine1D.Slice`) slices with this join, `Regroup.SliceTensorAsWritten`. The slice with the join along the sliced axis, `Regroup.SliceTensor`, appears only as the corrected half of the first finding; see Findings.
- `_parallelize_embedding` cuts the embedding weight with `torch.chunk`, while `VocabParallelEmbedding` masks ids by the ranges of `_get_partitioned_vocab_range`. The model uses `torch.chunk` for the cut and proves (`Vocab.ChunkIsRange`) that chunk r is exactly rank r's range whenever the chunk count equals the world size.

## Model

| member | source | states |
|---|---|---|
| Slices.ChunkCovers | oslo/pytorch/model_parallelism/tensor_parallelism/tensor_parallel_engine_1d.py:255 | joining all chunks `torch.chunk` makes of a sequence, in order, gives the sequence back |
| Slices.EvenChunks | oslo/pytorch/model_parallelism/tensor_parallelism/tensor_parallel_engine_1d.py:63 | when the length is n·k, `chunk(n)` makes exactly n pieces, piece i being the window [i·k, (i+1)·k) |
| Tensors.ChunkT | oslo/pytorch/model_parallelism/tensor_parallelism/tensor_parallel_engine_1d.py:63 | `tensor.chunk(n, dim)` succeeds exactly for a tensor of rank ≥ 1, n > 0 and a dim in range, and yields ChunkCount(axis length, n) pieces |
| Tensors.CatEach | oslo/pytorch/model_parallelism/tensor_parallelism/tensor_parallel_engine_1d.py:217-218 | joining every list succeeds exactly when each join does, and the i-th result is the i-th join |
| Tensors.CatRowBlocks | oslo/pytorch/model_parallelism/tensor_parallelism/tensor_parallel_engine_1d.py:255 | joining matrices of one width along axis 0 is the matrix of all their rows |
| Tensors.CatColBlocks | oslo/pytorch/model_parallelism/tensor_parallelism/tensor_parallel_engine_1d.py:255 | joining matrices of one height along axis 1 is the matrix of all their columns |
| Regroup.DeconstructByRank | oslo/pytorch/model_parallelism/tensor_parallelism/tensor_parallel_engine_1d.py:34-38 | grouping the F·W chunks W at a time and zipping the groups hands rank r the chunks r, W + r, …, (F−1)W + r |
| Regroup.ChunkEach | oslo/pytorch/model_parallelism/tensor_parallelism/tensor_parallel_engine_1d.py:213-214 | cutting each gathered tensor into F parts succeeds exactly when every cut does, and the i-th result is tensor i's parts |
| Regroup.DistributeTransposes | oslo/pytorch/model_parallelism/tensor_parallelism/tensor_parallel_engine_1d.py:212-216 | appending part i of every rank to slot i builds the transpose: slot j holds part j of every rank, in rank order |
| Regroup.ShareChunks | oslo/pytorch/model_parallelism/tensor_parallelism/tensor_parallel_engine_1d.py:63-66 | rank r's share of an evenly divisible axis, cut into F parts, is its chunks r, W + r, … of the F·W chunks |
| Regroup.FusedSlices | oslo/pytorch/model_parallelism/tensor_parallelism/tensor_parallel_engine_1d.py:63-66 | with F > 1, each rank's shard is its share of every fused projection, joined along the join axis (the last axis as written), whenever that axis joins the slices |
| Regroup.FusedMerge | oslo/pytorch/model_parallelism/tensor_parallelism/tensor_parallel_engine_1d.py:250-253 | reconstructing the fused shards of all ranks gives back the whole weight |
| Regroup.UnfusedRoundTrip | oslo/pytorch/model_parallelism/tensor_parallelism/tensor_parallel_engine_1d.py:63-66 | with F = 1, rank r keeps chunk r (an error past the last chunk), and joining all chunks gives back the weight |
| Regroup.ShardThenMerge | oslo/pytorch/model_parallelism/tensor_parallelism/tensor_parallel_engine_1d.py:250-255 | for any fusion degree and any axis whose length is a multiple of F·W, every rank's slice exists, keeps the rank of the tensor, and merging all slices gives back the tensor |
| Regroup.AsWrittenAgreesOnLastAxis | oslo/pytorch/model_parallelism/tensor_parallelism/tensor_parallel_engine_1d.py:37 | joining along dim = -1 is harmless when the sliced axis is the last one |
| Regroup.AsWrittenShardThenMerge | oslo/pytorch/model_parallelism/tensor_parallelism/tensor_parallel_engine_1d.py:34-38 | as written, when F = 1 or the sliced axis is the last one, every rank's slice exists, keeps the rank of the tensor, and merging all slices gives back the tensor |
| Regroup.AsWrittenRowShards | oslo/pytorch/model_parallelism/tensor_parallelism/tensor_parallel_engine_1d.py:37 | slicing a matrix along axis 0 with F > 1 as written lays rank r's F blocks side by side: k rows, F times the width |
| Regroup.AlongRowShards | oslo/pytorch/model_parallelism/tensor_parallelism/tensor_parallel_engine_1d.py:63-65 | joined along the sliced axis, rank r's F blocks are stacked: F·k rows of the original width |
| Regroup.OneRowShardsDoNotMerge | oslo/pytorch/model_parallelism/tensor_parallelism/tensor_parallel_engine_1d.py:211-219 | shards of one row cannot be reconstructed with F > 1 |
| Regroup.AsWrittenRoundTripFails | oslo/pytorch/model_parallelism/tensor_parallelism/tensor_parallel_engine_1d.py:34-38 | for an F·W-row matrix sliced along axis 0 with F > 1, every rank's slice as written exists, but merging them fails |
| Bookkeeping.ScaleAttrs | oslo/pytorch/model_parallelism/tensor_parallelism/tensor_parallel_engine_1d.py:26-31 | rescaling keeps the attribute names and leaves every attribute not in the list unchanged |
| Bookkeeping.ScaleAttrsListed | oslo/pytorch/model_parallelism/tensor_parallelism/tensor_parallel_engine_1d.py:28-31 | every listed attribute a module has becomes op of its value |
| Bookkeeping.RescaleRoundTrip | oslo/pytorch/model_parallelism/tensor_parallelism/tensor_parallel_engine_1d.py:202-208 | multiplying back by W restores the attributes divided by W exactly when every listed attribute is a multiple of W |
| Bookkeeping.RescaledRoundTrip | oslo/pytorch/model_parallelism/tensor_parallelism/tensor_parallel_engine_1d.py:25-31 | the same over the whole model: the two `_update_mp_arguments` cancel exactly when every listed attribute of every module is a multiple of W |
| Bookkeeping.EffectiveDim | oslo/pytorch/model_parallelism/tensor_parallelism/tensor_parallel_engine_1d.py:48 | the sliced axis is dim, or 1 − dim for dim 0 or 1 when the weight is stored reversed |
| Bookkeeping.SliceWeight | oslo/pytorch/model_parallelism/tensor_parallelism/tensor_parallel_engine_1d.py:61-73 | slicing the weight, with the fused pieces joined along the last axis as the code does, changes only the weight and the module's attributes |
| Bookkeeping.SliceBias | oslo/pytorch/model_parallelism/tensor_parallelism/tensor_parallel_engine_1d.py:75-83 | slicing the bias changes only the bias and no module |
| Bookkeeping.SliceModule | oslo/pytorch/model_parallelism/tensor_parallelism/tensor_parallel_engine_1d.py:40-85 | `_slice` changes only module i and its tensors, and records mpu, reversed, the fusion degree and the original class, even when it then fails |
| Bookkeeping.SliceModuleOk | oslo/pytorch/model_parallelism/tensor_parallelism/tensor_parallel_engine_1d.py:40-85 | when the as-written weight slice (fused pieces joined along the last axis) succeeds, the weight becomes this rank's slice, the bias its cut, and `in_features`/`out_features` the sizes of the new weight |
| Bookkeeping.SliceAndSwap | oslo/pytorch/model_parallelism/tensor_parallelism/tensor_parallel_engine_1d.py:157-165 | a successful slice leaves the module configured and of the new class |
| Bookkeeping.ParallelizeStep | oslo/pytorch/model_parallelism/tensor_parallelism/tensor_parallel_engine_1d.py:156-173 | a module is column-sliced (fused pieces joined along the last axis, as written) if listed as column-parallel, else row-sliced if row-parallel, else untouched; nothing else changes |
| Bookkeeping.ParallelizeFrom | oslo/pytorch/model_parallelism/tensor_parallelism/tensor_parallel_engine_1d.py:155-173 | the modules before j are untouched and, without error, every module from j on is dispatched as the mapping says |
| Bookkeeping.StepSlices | oslo/pytorch/model_parallelism/tensor_parallelism/tensor_parallel_engine_1d.py:156-173 | a listed module gets this rank's as-written weight and bias slices, its fusion degree, reversed flag, original class and new feature counts |
| Bookkeeping.Tagged | oslo/pytorch/model_parallelism/tensor_parallelism/tensor_parallel_engine_1d.py:175-186 | every tensor not on a GPU is tagged with the rank; data, device and GPU tensors are unchanged |
| Bookkeeping.MergeWeight | oslo/pytorch/model_parallelism/tensor_parallelism/tensor_parallel_engine_1d.py:233-264 | merging the weight changes only the weight and the module's attributes |
| Bookkeeping.MergeBias | oslo/pytorch/model_parallelism/tensor_parallelism/tensor_parallel_engine_1d.py:266-288 | merging the bias changes only the bias and no module |
| Bookkeeping.MergeModule | oslo/pytorch/model_parallelism/tensor_parallelism/tensor_parallel_engine_1d.py:221-290 | `_merge` clears the module's mpu and changes nothing outside module i and its tensors |
| Bookkeeping.MergeModuleOk | oslo/pytorch/model_parallelism/tensor_parallelism/tensor_parallel_engine_1d.py:221-290 | when the joins succeed, the weight and bias become the joined tensors and in/out features, nx and nf the sizes of the new weight |
| Bookkeeping.DeparallelizeStep | oslo/pytorch/model_parallelism/tensor_parallelism/tensor_parallel_engine_1d.py:367-379 | a column-parallel module is column-merged, else a row-parallel one row-merged, else untouched; a merged module gets its original class back, loses its mpu and keeps its recorded fusion degree and reversal; nothing else changes |
| Bookkeeping.DeparallelizeFrom | oslo/pytorch/model_parallelism/tensor_parallelism/tensor_parallel_engine_1d.py:366-379 | the modules before j are untouched and, without error, every module from j on is merged as the mapping says |
| Bookkeeping.StepMerges | oslo/pytorch/model_parallelism/tensor_parallelism/tensor_parallel_engine_1d.py:366-379 | a listed module gets the joined weight and bias, its original class back, and the four sizes of the joined weight |
| Bookkeeping.ColumnRoundTrip | oslo/pytorch/model_parallelism/tensor_parallelism/tensor_parallel_engine_1d.py:292-310 | a column-parallel module that is not fused or is reversed (cut along its last axis), parallelized and then deparallelized, gets back its weight, its bias, its class, and feature counts equal to the weight's sizes |
| Bookkeeping.FusedColumnShard | oslo/pytorch/model_parallelism/tensor_parallelism/tensor_parallel_engine_1d.py:34-38 | as written, a non-reversed fused column with f·W·k weight rows is sliced without error into a k-row shard, and records k input features and f times the weight's width as output features |
| Bookkeeping.FusedColumnDoesNotMerge | oslo/pytorch/model_parallelism/tensor_parallelism/tensor_parallel_engine_1d.py:211-219 | with one row per block the same layer parallelizes without error but deparallelizing it fails |
| Bookkeeping.AsWrittenShardsDoNotMerge | oslo/pytorch/model_parallelism/tensor_parallelism/tensor_parallel_engine_1d.py:250-253 | the gathered as-written one-row shards of a fused weight cannot be reconstructed |
| Bookkeeping.StepMergeFails | oslo/pytorch/model_parallelism/tensor_parallelism/tensor_parallel_engine_1d.py:233-264 | a listed module whose gathered weight shards do not join makes `_deparallelize_modules` raise |
| Bookkeeping.RowRoundTrip | oslo/pytorch/model_parallelism/tensor_parallelism/tensor_parallel_engine_1d.py:312-329 | the same for a row-parallel module, whose bias is never cut |
| Bookkeeping.EmbeddingRoundTrip | oslo/pytorch/model_parallelism/tensor_parallelism/tensor_parallel_engine_1d.py:331-346 | the input embedding gets back its weight and class, with `num_embeddings` the vocabulary size |
| Bookkeeping.TiedRoundTrip | oslo/pytorch/model_parallelism/tensor_parallelism/tensor_parallel_engine_1d.py:348-362 | every non-embedding module sharing the embedding weight gets its class back, and `out_features` becomes the vocabulary size |
| Engine.RescaleAttributes | oslo/pytorch/model_parallelism/tensor_parallelism/tensor_parallel_engine_1d.py:26-31 | the loop over modules leaves the model as `Rescaled` describes |
| Engine.TensorParallelEngine1D.UpdateMpArguments | oslo/pytorch/model_parallelism/tensor_parallelism/tensor_parallel_engine_1d.py:25-31 | every listed attribute is floor-divided by the world size |
| Engine.TensorParallelEngine1D.Slice | oslo/pytorch/model_parallelism/tensor_parallelism/tensor_parallel_engine_1d.py:40-85 | the in-place slice, with the fused pieces joined along the last axis, leaves the model and the error as `SliceModule` computes |
| Engine.TensorParallelEngine1D.ColumnSlice | oslo/pytorch/model_parallelism/tensor_parallelism/tensor_parallel_engine_1d.py:87-99 | the as-written `_slice` with the bias cut, along dim 0 |
| Engine.TensorParallelEngine1D.RowSlice | oslo/pytorch/model_parallelism/tensor_parallelism/tensor_parallel_engine_1d.py:101-113 | the as-written `_slice` with the bias kept, along dim 1 |
| Engine.TensorParallelEngine1D.ParallelizeEmbedding | oslo/pytorch/model_parallelism/tensor_parallelism/tensor_parallel_engine_1d.py:115-153 | the model ends as `Bookkeeping.ParallelizeEmbedding` computes: the embedding keeps its chunk and becomes vocabulary-parallel, tied modules become column-parallel with gathered output |
| Engine.TensorParallelEngine1D.ParallelizeModule | oslo/pytorch/model_parallelism/tensor_parallelism/tensor_parallel_engine_1d.py:157-173 | one module is dispatched as `ParallelizeStep` computes |
| Engine.TensorParallelEngine1D.ParallelizeModules | oslo/pytorch/model_parallelism/tensor_parallelism/tensor_parallel_engine_1d.py:155-173 | the walk over all modules ends as `ParallelizeFrom` from the first module, stopping at the first error |
| Engine.TensorParallelEngine1D.Postprocess | oslo/pytorch/model_parallelism/tensor_parallelism/tensor_parallel_engine_1d.py:175-186 | parameters and buffers end tagged as `Postprocessed` computes |
| Engine.TensorParallelEngine1D.Parallelize | oslo/pytorch/model_parallelism/tensor_parallelism/tensor_parallel_engine_1d.py:188-193 | the four passes and the model's mpu, in order, as `Parallelized` computes |
| Engine.TensorDeparallelEngine1D.UpdateMpArguments | oslo/pytorch/model_parallelism/tensor_parallelism/tensor_parallel_engine_1d.py:202-208 | every listed attribute is multiplied by the world size |
| Engine.TensorDeparallelEngine1D.ReconstructCombinedQkv | oslo/pytorch/model_parallelism/tensor_parallelism/tensor_parallel_engine_1d.py:211-219 | the dictionary-of-lists loop computes `Reassembled`: cut each tensor into F parts, join slot by slot, join the slots |
| Engine.TensorDeparallelEngine1D.DistributeChunks | oslo/pytorch/model_parallelism/tensor_parallelism/tensor_parallel_engine_1d.py:212-216 | the slots are the transpose of the per-tensor parts, or the first cut's error |
| Engine.TensorDeparallelEngine1D.AppendEach | oslo/pytorch/model_parallelism/tensor_parallelism/tensor_parallel_engine_1d.py:215-216 | part i is appended to slot i |
| Engine.TensorDeparallelEngine1D.JoinSlots | oslo/pytorch/model_parallelism/tensor_parallelism/tensor_parallel_engine_1d.py:217-218 | every slot is joined, stopping at the first error |
| Engine.TensorDeparallelEngine1D.Join | oslo/pytorch/model_parallelism/tensor_parallelism/tensor_parallel_engine_1d.py:250-255 | the fused reconstruction when F > 1, else the plain join |
| Engine.TensorDeparallelEngine1D.MergeWeightOf | oslo/pytorch/model_parallelism/tensor_parallelism/tensor_parallel_engine_1d.py:233-264 | the weight is replaced by the join and the four sizes recorded, as `MergeWeight` computes |
| Engine.TensorDeparallelEngine1D.MergeBiasOf | oslo/pytorch/model_parallelism/tensor_parallelism/tensor_parallel_engine_1d.py:266-288 | the bias is replaced by its join along dim 0 when merged, as `MergeBias` computes |
| Engine.TensorDeparallelEngine1D.Merge | oslo/pytorch/model_parallelism/tensor_parallelism/tensor_parallel_engine_1d.py:221-290 | the in-place merge ends as `MergeModule` computes |
| Engine.TensorDeparallelEngine1D.RestoreClass | oslo/pytorch/model_parallelism/tensor_parallelism/tensor_parallel_engine_1d.py:307-308 | only module i changes, to its original class when it has one |
| Engine.TensorDeparallelEngine1D.ColumnMerge | oslo/pytorch/model_parallelism/tensor_parallelism/tensor_parallel_engine_1d.py:292-310 | merge with the bias, along dim 0, then restore the class |
| Engine.TensorDeparallelEngine1D.RowMerge | oslo/pytorch/model_parallelism/tensor_parallelism/tensor_parallel_engine_1d.py:312-329 | merge without the bias, along dim 1, then restore the class |
| Engine.TensorDeparallelEngine1D.DeparallelizeEmbedding | oslo/pytorch/model_parallelism/tensor_parallelism/tensor_parallel_engine_1d.py:331-364 | the model ends as `Bookkeeping.DeparallelizeEmbedding` computes |
| Engine.TensorDeparallelEngine1D.DeparallelizeModules | oslo/pytorch/model_parallelism/tensor_parallelism/tensor_parallel_engine_1d.py:366-379 | the walk over all modules ends as `DeparallelizeFrom` from the first module |
| Engine.TensorDeparallelEngine1D.Deparallelize | oslo/pytorch/model_parallelism/tensor_parallelism/tensor_parallel_engine_1d.py:381-385 | the three passes and the model's mpu, in order, as `Deparallelized` computes |
| Vocab.PartitionedVocabRange | oslo/pytorch/model_parallelism/utils/distributed.py:12-26 | rank r's range is [r·⌈V/W⌉, (r+1)·⌈V/W⌉), except that the last range ends at V; the first range starts at 0 |
| Vocab.LastWidthNegative | oslo/pytorch/model_parallelism/utils/distributed.py:14-17 | with V = 5 and W = 4, the last width V − 3·⌈V/W⌉ is −1 |
| Vocab.ChunkIsRange | oslo/pytorch/model_parallelism/tensor_parallelism/tensor_parallel_engine_1d.py:122-125 | when `torch.chunk` makes W pieces, rank r's embedding chunk is exactly the rows of its vocabulary range |
| Vocab.Embed | oslo/pytorch/model_parallelism/utils/distributed.py:44-52 | `F.embedding` succeeds exactly when every id indexes the table, and row i is the table row of id i |
| Vocab.MaskInputs | oslo/pytorch/model_parallelism/utils/distributed.py:37-40 | the mask marks the ids outside [start, end); the masked ids are shifted by −start, and the masked-out ones are 0 |
| Vocab.ZeroMasked | oslo/pytorch/model_parallelism/utils/distributed.py:54-55 | masked rows become zero rows; the others are unchanged |
| Vocab.VocabParallelEmbeddingForward | oslo/pytorch/model_parallelism/utils/distributed.py:28-55 | a rank's output is its shifted lookup with out-of-range rows zeroed; with W = 1 it is the plain lookup |
| Vocab.RankOutput | oslo/pytorch/model_parallelism/utils/distributed.py:31-55 | on its own chunk, a rank outputs the table row for ids in its range and zeros for every other id |
| Vocab.ShardedLookup | oslo/pytorch/model_parallelism/utils/distributed.py:28-58 | with W > 1 shards, the reduced outputs hold the table row for ids in the vocabulary and zeros for ids outside it |
| Vocab.ShardedLookupSums | oslo/pytorch/model_parallelism/utils/distributed.py:28-58 | for ids in the vocabulary, the sum over ranks of the masked lookups equals the unsharded `F.embedding` |
| Vocab.SingleRank | oslo/pytorch/model_parallelism/utils/distributed.py:41-42 | with one rank, the lookup is the unsharded one |
| Linear.MatMul | oslo/pytorch/model_parallelism/utils/distributed.py:67-70 | the product succeeds exactly when the input width matches, and entry j is the input's dot product with feature vector j |
| Linear.AddBias | oslo/pytorch/model_parallelism/utils/distributed.py:75-76 | adding a bias of the output's length is elementwise; any length other than that or 1 is an error |
| Linear.ColumnShard | oslo/pytorch/model_parallelism/tensor_parallelism/tensor_parallel_engine_1d.py:87-99 | a column shard's feature vectors are chunk q of the weight's, and its input width is unchanged |
| Linear.RowShard | oslo/pytorch/model_parallelism/tensor_parallelism/tensor_parallel_engine_1d.py:101-113 | a row shard keeps every feature but cuts each feature vector to the same window |
| Linear.ColumnProduct | oslo/pytorch/model_parallelism/utils/distributed.py:65-70 | rank q's product with its column shard is chunk q of the full product |
| Linear.ColumnForwardShard | oslo/pytorch/model_parallelism/utils/distributed.py:64-78 | without `gather_output`, and with the bias cut like the weight, rank q ends with chunk q of the unsharded layer's output |
| Linear.ColumnForwardGathered | oslo/pytorch/model_parallelism/utils/distributed.py:72-76 | with `gather_output`, every rank ends with the unsharded product plus its bias |
| Linear.GatherChunks | oslo/pytorch/model_parallelism/utils/distributed.py:73 | gathering the chunks of all ranks in rank order gives the whole output |
| Linear.RowForwardSums | oslo/pytorch/model_parallelism/utils/distributed.py:84-95 | with input chunk q and row shard q on rank q, every rank ends with the unsharded output; the bias is added once, after the reduce |
| Linear.ReducedProducts | oslo/pytorch/model_parallelism/utils/distributed.py:90 | reducing the partial products gives the whole product |
| Linear.OneFeature | oslo/pytorch/model_parallelism/utils/distributed.py:90 | for one feature, the partial dot products of matching chunks sum to the whole dot product |
| Allocation.AsWrittenRanks | oslo/pytorch/model_parallelism/utils/distributed.py:99-106 | as written, pp and dp are always 0 and the tp slot holds the last present tag (dp, else pp, else tp, else 0) |
| Allocation.IntendedRanks | oslo/pytorch/model_parallelism/utils/distributed.py:99-106 | each present tag goes into its own slot, and a missing one counts as 0 |
| Allocation.Allocate | oslo/pytorch/model_parallelism/utils/distributed.py:98-108 | the step-by-step reassignment sends the parameter to the device of `AsWrittenRanks` |
| Allocation.AllocateIntended | oslo/pytorch/model_parallelism/utils/distributed.py:98-108 | the corrected reassignment sends it to the device of `IntendedRanks` |
| Allocation.AgreeExactly | oslo/pytorch/model_parallelism/utils/distributed.py:101-106 | the two rank triples agree exactly when no pp or dp rank other than 0 is tagged and, if either is tagged, the tp rank is 0 |
| Allocation.AgreeOnTensorRankOnly | oslo/pytorch/model_parallelism/utils/distributed.py:101-102 | a parameter tagged only with `tp_rank` goes to the intended device |
| Allocation.AsWrittenDropsTensorRank | oslo/pytorch/model_parallelism/utils/distributed.py:103-104 | with tp_rank 1 and pp_rank 0, the lookup is (0, 0, 0) instead of (1, 0, 0) |
| LayerNorm.ToInt32 | oslo/pytorch/_C/csrc/CUDABinder.cpp:49 | a value stored in a C `int` lies in [−2³¹, 2³¹) and is unchanged when it already does |
| LayerNorm.WrapMul | oslo/pytorch/_C/csrc/CUDABinder.cpp:54 | wrapping the running product before the multiplication gives the same `int` as wrapping after it |
| LayerNorm.ProductSplit | oslo/pytorch/_C/csrc/CUDABinder.cpp:43-60 | the product of all dimensions is the product of the leading ones times the product of the trailing ones |
| LayerNorm.WrappedProductWrapsOnce | oslo/pytorch/_C/csrc/CUDABinder.cpp:51-55 | wrapping at every step of the loop gives the whole product wrapped once |
| LayerNorm.N2Wraps | oslo/pytorch/_C/csrc/CUDABinder.cpp:54 | a normalised shape 65536 × 32768 makes n2 equal −2³¹ |
| LayerNorm.ComputeN1N2 | oslo/pytorch/_C/csrc/CUDABinder.cpp:43-60 | n2 is the product of the normalised shape and n1 that of the leading dimensions, both as C `int`; when neither reaches 2³¹, n1·n2 is the product of all input dimensions |
| LayerNorm.CheckGammaBeta | oslo/pytorch/_C/csrc/CUDABinder.cpp:62-71 | passes exactly when gamma and beta are each undefined or of the normalised shape; gamma is checked first |
| LayerNorm.CheckGamma | oslo/pytorch/_C/csrc/CUDABinder.cpp:73-81 | passes exactly when gamma is undefined or of the normalised shape |
| LayerNorm.CheckArgs | oslo/pytorch/_C/csrc/CUDABinder.cpp:83-117 | an empty normalised shape, and then an input whose trailing dimensions are not the normalised shape, are rejected in that order; otherwise the result is (n1, n2) |
| LayerNorm.CheckArgsAffine | oslo/pytorch/_C/csrc/CUDABinder.cpp:119-128 | the input checks come first, then gamma and beta; (n1, n2) on success |
| LayerNorm.CheckArgsGamma | oslo/pytorch/_C/csrc/CUDABinder.cpp:130-139 | the input checks come first, then gamma; (n1, n2) on success |
| LayerNorm.StatsDtype | oslo/pytorch/_C/csrc/CUDABinder.cpp:196-199 | statistics are never half precision: Half and BFloat16 inputs get Float, and every other dtype is kept |
| LayerNorm.NormForward | oslo/pytorch/_C/csrc/CUDABinder.cpp:159-376 | each forward binding runs its checks (the mixed-dtype ones check only the input); on success the output is shaped like the input (gamma's dtype when mixed) and the statistics are n1 long in the stats dtype: two for layer norm, one for RMS norm |
| LayerNorm.NormBackward | oslo/pytorch/_C/csrc/CUDABinder.cpp:245-426 | each backward binding runs the checks of its forward; the gradients are shaped like the input, gamma and beta |
| LayerNorm.NgramRepeatBlockArgs | oslo/pytorch/_C/csrc/CUDABinder.cpp:28-31 | the arguments pass exactly when bsz > 0, step ≥ 0, beam_size > 0 and no_repeat_ngram_size > 0; the first failing assert is reported |

## Left out

**Scope**
- Modules, parameters and buffers are values addressed by index. Tied weights are the same parameter index. Python object identity, `copy.deepcopy` of classes and runtime `__class__` assignment become an index, a class tag and a field update.
- `update_module_arguments` is a record update. `TensorParallelMapping` is an oracle record: its name matching, `update_attrs` list and fusion degrees are inputs.
- The gathered shards of `dist.all_gather` and `mpu._gather` are an oracle input, keyed by parameter. The round-trip lemmas assume the other ranks hold the slices that `_slice` gives them.
- Collectives are pure functions of per-rank values. Process groups, ordering across processes and deadlock are not modelled.
- The device moves are not modelled: `.cuda()`, `.contiguous()` and `parameter.to(...)` in `allocate`. `rank2device` is a function parameter.
- `mpu` set to None and `mpu` absent are the same state.
- The walk over `named_modules()` is one pass over the module list in order. Nesting of modules is not represented.
- Round trips are proved per module (column, row, embedding, tied modules) and for the attribute rescaling. No single lemma chains them over a whole model.
- Tensor elements are integers. Floating-point rounding in `torch.matmul` and in the bias add is not modelled.
- The linear forward passes take one input row, not a batch. Only 2-D weights are covered.
- `F.embedding`'s `padding_idx`, `max_norm`, `norm_type`, `scale_grad_by_freq` and `sparse` are ignored.
- `math.ceil(num_embeddings / world_size)` is taken as exact integer ceiling division. Float precision for very large vocabularies is not modelled.
- The CUDA kernels are not part of this model (`cuda_layer_norm`, `cuda_rms_norm`, their gradients, `ngram_repeat_block_cuda_forward`).
- `CHECK_CUDA`/`CHECK_CONTIGUOUS` and the pybind registration are not modelled.
- A failing `assert` in `ngram_repeat_block_forward` aborts the process when the extension is built without `NDEBUG`; with `NDEBUG` the asserts compile to nothing. The model assumes the asserts are compiled in and reports which one fails.
- `LayerNorm.ComputeN1N2`: each step is `int * int64_t`, stored into `int`. The model wraps the exact product, so an overflow of the 64-bit intermediate is not modelled. That needs a running product near 2⁶³.
- `LayerNorm.NormForward`: a negative wrapped n1 makes `at::empty` throw. The model reports this as `NegativeSize`, not as the library's own error.

**Weaker contracts**
- Bookkeeping.ColumnRoundTrip: stated only for a column that is not fused (F = 1) or is reversed. As written, a non-reversed fused column does not round-trip (first finding); `Bookkeeping.FusedColumnShard` and `Bookkeeping.FusedColumnDoesNotMerge` state what happens to it instead.
- Bookkeeping.TiedRoundTrip: states class and attributes of the tied modules, not their tensors. Their weight is the embedding's, whose round trip is `EmbeddingRoundTrip`.
- Vocab.ShardedLookupSums: stated only when `torch.chunk` makes W pieces. For other sizes `_parallelize_embedding` fails earlier with no chunk for some rank; see `Vocab.LastWidthNegative`.
- Linear.RowForwardSums: requires each rank's input to be chunk q of one input row, which the caller's layout provides. A rank-local input from elsewhere is not covered.

## Findings

| source | as written | input that shows it | evidently intended | confidence | as-written member | corrected member |
|---|---|---|---|---|---|---|
| oslo/pytorch/model_parallelism/tensor_parallelism/tensor_parallel_engine_1d.py:37 | each rank's F fused pieces are joined with `torch.cat(..., dim=-1)`, along the last axis, whatever axis was sliced | a 4 × 1 weight `[[a],[b],[c],[d]]` column-sliced along dim 0 with F = 2, W = 2: rank 0 keeps `[[a, c]]` (1 × 2) instead of `[[a],[c]]` (2 × 1), and `_merge` cannot rebuild the weight | join along the sliced axis, so that `_merge` undoes `_slice` | not executed; follows from the shapes `torch.cat` produces | Regroup.AsWrittenRoundTripFails | Regroup.ShardThenMerge |
| oslo/pytorch/model_parallelism/utils/distributed.py:103-106 | the `pp_rank` and `dp_rank` attributes are stored into `tp_rank`; `pp_rank` and `dp_rank` stay 0 | a parameter with `tp_rank = 1` and `pp_rank = 0` is placed on the device for (0, 0, 0) instead of (1, 0, 0) | each attribute fills its own rank | not executed; copy-paste pattern | Allocation.AsWrittenDropsTensorRank | Allocation.AllocateIntended |
