# Verified models of verl's weight transfer, offloading and balancing

verl trains language models with reinforcement learning. This project models the parts of it that move data under
concurrency, or that divide work by arithmetic, and proves what they are for:

- **Weight transfer.** The trainer packs named weights into fixed-size buckets (`Weights`, `Packing`, `Buckets`). Three
  engines carry them to the rollout ranks through double buffers: the NIXL chain (`Relay`, `RelayInvariant`,
  `RelayTheorems`), the NCCL broadcast with executor threads (`Broadcast`, `BroadcastInvariant`, `BroadcastTheorems`),
  and the Kimi schedule (`KimiBuckets`, `KimiSchedule`, `KimiReceive`, `KimiTheorems`). Each is a step relation over any
  number of ranks and buckets; one step is the code between two suspension points of one participant, or one byte of a
  transfer, so the theorems cover every interleaving.
- **Activation offloading** (`Offload`, `OffloadHandler`, `OffloadRuns`, `OffloadMemory`). The handler is a class whose
  methods are tied to functions on its state; the theorems are about any number of training rounds. A stream is the set
  of its copies that have not been waited for. Hypothesis on the tensors, part of what a legal push is: two tensors of a
  group with the same key have the same elements in row-major order.
- **Length balancing** (`Partitions`, `KarmarkarKarp`, `Differencing`, `BalancedPartitions`, `GreedyPartition`) and
  **dynamic micro-batches** (`DynamicBatch`, `MicroBatching`, `TokenLimit`, `GroupBalance`).
- **Padding-free log-probabilities** (`Matrices`, `Unpadding`, `LogProbs`), **fused QKV weights** (`Qkv`) and the
  **pipeline plan** (`PipelinePlan`). `Arithmetic`, `Ranges`, `Seqs` and `Options` hold shared lemmas and types.

Where the program raises, a model method returns `None` or `ok == false`, and its contract says exactly when. A method
that updates fields or loops is proved against a function; the theorems are about that function.

What the code does, where that differs from what it says:

- `get_dynamic_pipeline_shards` rejects only fewer layers than stages, yet some other inputs have no plan and end in an
  `IndexError` (five layers on four stages). `PlanExists` gives the condition, which a caller can compute beforehand.
- "At most two activation groups in GPU memory" holds exactly when `num_offload_group == layers - 1`, as the caller
  chooses, or `num_offload_group == layers <= 3` (`AtMostTwoGroups`). The exact maximum (`PeakIsExact`) is
  `layers - num_offload_group + 1` with fewer offload groups than layers, and `layers - 1`, but at least one, with as
  many.
- The packing loops accept duplicate names but keep one entry per name: a bucket is complete exactly when its names are
  distinct (`DictionaryKeepsAll`).
- `get_group_balanced_partitions` promises that samples with the same uid share a partition. For given uids and number
  of partitions this holds, whatever the lengths, exactly when there is one partition or equal uids are contiguous
  (`TogetherIffContiguous`); uids 0, 1, 0, 2 with lengths 1, 5, 1, 5 break it on two (`InterleavedUidsSeparated`).
- `max_token_len` is documented as the maximum number of tokens of a micro-batch, but only sets their number. With no
  other request, batches of `n` samples keep within it for all lengths and limits exactly when `n <= 2`
  (`LimitHoldsIffTwo`); from three samples on, three of length `n + 1` and `n - 3` of length 1 break the limit `2 * n`
  (`LimitExceeded`).
- A weight larger than a bucket is rejected after the bucket before it was announced, be it empty (`SendWeights`).
- The padding-free log-probability of a row's last kept token uses the next kept token of the batch, cyclically, as its
  label: a token of another row whenever another row keeps one (`RmpadRefinesDense`).

## Model

| member | source | states |
|---|---|---|
| Weights.DictionaryKeepsAll | verl/checkpoint_engine/nixl_checkpoint_engine.py:414-419 | the bucket dictionary has one entry per packed weight exactly when the names are distinct |
| Weights.EntriesTile | verl/checkpoint_engine/nixl_checkpoint_engine.py:414-421 | entries tile the bucket: the first starts at 0, each ends where the next starts, the last ends at the packed length |
| Weights.CutGivesWeight | verl/checkpoint_engine/nixl_checkpoint_engine.py:475-479 | a receiver that slices any buffer starting with the packed bytes gets each weight back |
| Packing.GroupsAreASplit | verl/checkpoint_engine/nixl_checkpoint_engine.py:385-421 | the buckets are consecutive groups of the weight sequence, nothing lost or reordered, none above the bucket size |
| Packing.GreedyStaysAhead | verl/checkpoint_engine/nixl_checkpoint_engine.py:385-421 | compared with any split into fitting groups, the loop has fewer buckets, or as many with a last one no heavier |
| Packing.FewestBuckets | verl/checkpoint_engine/nixl_checkpoint_engine.py:385-431 | for a non-empty sequence the number of buckets is the minimum over all splits into consecutive groups that fit |
| Packing.Sender.PackWeight | verl/checkpoint_engine/nixl_checkpoint_engine.py:414-421 | one weight: the buffer still starts with the packed bytes, now followed by the new ones, with entry and offset to match |
| Packing.Sender.SendWeights | verl/checkpoint_engine/nixl_checkpoint_engine.py:385-431 | the announcements in order: alternating buffers, content, metadata, only the last one marked; or the stop at an oversize weight |
| Packing.AnnouncedBucketRoundTrips | verl/checkpoint_engine/nixl_checkpoint_engine.py:475-479 | every weight of an announced bucket is cut back out of the announced bytes |
| Buckets.PackedConfigIsValid | verl/checkpoint_engine/nixl_checkpoint_engine.py:385-431 | distinct names and fitting weights give buckets that the engines can transfer, and that concatenate to the weight list |
| RelayInvariant.StepKeepsInv | verl/checkpoint_engine/nixl_checkpoint_engine.py:387-513 | every fill, announcement, acknowledgement, read byte, completion, yield and swap keeps the per-rank and per-link invariant |
| RelayTheorems.Fidelity | verl/checkpoint_engine/nixl_checkpoint_engine.py:435-513 | in every interleaving a rank has yielded a prefix of the sent (name, tensor) sequence, and all of it once it returned |
| RelayTheorems.WeightsReachEveryRank | verl/checkpoint_engine/nixl_checkpoint_engine.py:385-513 | the same end to end, from the trainer's weight list through the packing loop |
| RelayTheorems.BufferSafety | verl/checkpoint_engine/nixl_checkpoint_engine.py:389-492 | no step writes a buffer that is announced and unacknowledged, source of an unfinished read, or yielded from; only writes change buffers |
| RelayTheorems.NotifyKeysMatch | verl/checkpoint_engine/nixl_checkpoint_engine.py:164-168 | a waiting operation only ever finds its own notify key; message and notification queues stay short |
| RelayTheorems.QueuesEndEmpty | verl/checkpoint_engine/nixl_checkpoint_engine.py:122-134 | when all ranks have returned, no message, notification, read or announcement is left |
| RelayTheorems.SkewAtMostTwo | verl/checkpoint_engine/nixl_checkpoint_engine.py:458-492 | completed reads of neighbouring rollout ranks differ by 0, 1 or 2, the earlier rank being ahead |
| RelayTheorems.NoDeadlock | verl/checkpoint_engine/nixl_checkpoint_engine.py:387-513 | every reachable state in which some rank has not returned has an enabled step |
| RelayTheorems.RunsAreBounded | verl/checkpoint_engine/nixl_checkpoint_engine.py:387-513 | no run is longer than a bound fixed by buckets, bucket size and ranks |
| RelayTheorems.EveryRunCompletes | verl/checkpoint_engine/nixl_checkpoint_engine.py:387-513 | every run, however interleaved so far, extends to one in which all ranks have returned |
| BroadcastInvariant.StepKeepsInv | verl/checkpoint_engine/nccl_checkpoint_engine.py:73-93 | every step of the sender, a receiver or one of their executor threads keeps the invariant between sender and receiver |
| BroadcastTheorems.MetadataMatchBytes | verl/checkpoint_engine/nccl_checkpoint_engine.py:73-93 | metadata and bytes travel separately, yet a receiver that has the bytes of a call holds the metadata of the same bucket |
| BroadcastTheorems.Fidelity | verl/checkpoint_engine/nccl_checkpoint_engine.py:238-353 | every receiver yields a prefix of the packed weight list, and the whole list once it has returned |
| BroadcastTheorems.BufferSafety | verl/checkpoint_engine/nccl_checkpoint_engine.py:244-346 | a half that is broadcast, still missing at a receiver, arrived but not awaited, or yielded from keeps its bytes in every step |
| BroadcastTheorems.SkewAtMostOne | verl/checkpoint_engine/nccl_checkpoint_engine.py:248-346 | the sender is never more than one collective ahead of a receiver, and metadata queues hold at most one message and end empty |
| BroadcastTheorems.NoDeadlock | verl/checkpoint_engine/nccl_checkpoint_engine.py:238-353 | every reachable unfinished state has an enabled step |
| BroadcastTheorems.RunsAreBounded | verl/checkpoint_engine/nccl_checkpoint_engine.py:238-353 | no run is longer than a bound fixed by the configuration |
| BroadcastTheorems.EveryRunCompletes | verl/checkpoint_engine/nccl_checkpoint_engine.py:238-353 | every run extends to one in which sender and receivers have returned |
| KimiBuckets.SharesPartition | verl/checkpoint_engine/kimi_checkpoint_engine.py:47-49 | across the trainer ranks every weight is taken exactly once |
| KimiBuckets.NamedTensorBuckets | verl/checkpoint_engine/kimi_checkpoint_engine.py:37-63 | a rank's buckets are the dictionaries of consecutive groups of its share; a group exceeds the limit only as a singleton, and none could have taken the next one's first weight; it raises exactly for a non-positive limit |
| KimiBuckets.BucketsHoldShare | verl/checkpoint_engine/kimi_checkpoint_engine.py:45-63 | under distinct names the buckets hold all weights of the share, in order |
| KimiSchedule.ScheduleKeepsOrder | verl/checkpoint_engine/kimi_checkpoint_engine.py:96-119 | in the common schedule every rank's buckets come in the order of its own list |
| KimiSchedule.ScheduleIsPermutation | verl/checkpoint_engine/kimi_checkpoint_engine.py:96-119 | every bucket is broadcast exactly once |
| KimiSchedule.Turns | verl/checkpoint_engine/kimi_checkpoint_engine.py:91-131 | whatever its rank, the loop takes the turns of the common schedule in alternating halves, and a sender's staging buffer holds the bucket of its turn |
| KimiReceive.StepKeepsInv | verl/checkpoint_engine/kimi_checkpoint_engine.py:106-160 | every launch, copied byte, return of a call, await and yield keeps the invariant of all ranks |
| KimiTheorems.Fidelity | verl/checkpoint_engine/kimi_checkpoint_engine.py:106-160 | every rank yields every bucket of the schedule once and in order: a prefix at any time, all of it once it has ended |
| KimiTheorems.EveryBucketReachesEveryRank | verl/checkpoint_engine/kimi_checkpoint_engine.py:75-160 | on the schedule computed from any list of buckets, every rank that has ended has yielded every tensor of every bucket of the list exactly once |
| KimiTheorems.BufferSafety | verl/checkpoint_engine/kimi_checkpoint_engine.py:120-149 | no step writes a byte of a half that is yielded from, that the source sends, or that has arrived for a bucket not yet awaited |
| KimiTheorems.SourceKeepsBytes | verl/checkpoint_engine/kimi_checkpoint_engine.py:116-149 | as long as a rank lacks bytes of a bucket, the source stays in the call and keeps the bytes in its half |
| KimiTheorems.NoDeadlock | verl/checkpoint_engine/kimi_checkpoint_engine.py:106-160 | every reachable state in which some rank has not ended has an enabled step |
| KimiTheorems.RunsAreBounded | verl/checkpoint_engine/kimi_checkpoint_engine.py:106-160 | no run is longer than a bound fixed by schedule and number of ranks |
| KimiTheorems.EveryRunCompletes | verl/checkpoint_engine/kimi_checkpoint_engine.py:106-160 | every run, however interleaved so far, extends to one in which all ranks have ended |
| OffloadHandler.AsyncDoubleBufferGroupOffloadHandler.SpreadWindows | verl/utils/activation_offload.py:250-257 | the loop with its running constant computes the closed form of the window map |
| OffloadRuns.WindowIsGood | verl/utils/activation_offload.py:250-257 | the window map is strictly increasing, ends at the last layer, and leaves at least one commit per group when fewer groups than layers are offloaded |
| OffloadHandler.AsyncDoubleBufferGroupOffloadHandler.TensorPush | verl/utils/activation_offload.py:263-283 | new handler state and ticket; fails exactly when the tag is taken; other tensors pass through untouched |
| OffloadHandler.AsyncDoubleBufferGroupOffloadHandler.TensorPop | verl/utils/activation_offload.py:285-296 | returns the tensor under the tag and forgets it; fails exactly when the tag is unknown or still on the host |
| OffloadHandler.AsyncDoubleBufferGroupOffloadHandler.BulkOffloadGroup | verl/utils/activation_offload.py:298-317 | one host copy per key, every tensor of the group replaced by key and shape, nothing else changed |
| OffloadHandler.AsyncDoubleBufferGroupOffloadHandler.OnGroupCommitForward | verl/utils/activation_offload.py:319-352 | succeeds exactly when no assertion or lookup fails, and then makes the forward transition with its waits, drops and offloads |
| OffloadHandler.AsyncDoubleBufferGroupOffloadHandler.BulkReloadGroup | verl/utils/activation_offload.py:355-371 | every tuple of the group becomes a view of the reloaded copy of its key; fails exactly when the mapping, a key or the size is missing |
| OffloadHandler.AsyncDoubleBufferGroupOffloadHandler.OnGroupCommitBackward | verl/utils/activation_offload.py:373-395 | succeeds exactly when no assertion or lookup fails, and then makes the backward transition |
| OffloadRuns.StepKeepsInv | verl/utils/activation_offload.py:263-395 | each legal push, pop and commit succeeds and keeps the invariant of its half of the round |
| OffloadRuns.Transparency | verl/utils/activation_offload.py:263-395 | over any number of rounds no assertion or lookup fails, every pop returns the pushed value, and a finished round restores the initial state |
| OffloadRuns.StreamOrdering | verl/utils/activation_offload.py:319-395 | no tensor loses its last reference before its pending copy was waited for, not even inside a commit; nothing is popped before its reload was waited for |
| OffloadMemory.MemoryBound | verl/utils/activation_offload.py:298-395 | at no time of any run are more activation groups on the device than the peak |
| OffloadMemory.CommitMemoryBound | verl/utils/activation_offload.py:319-345 | the bound also holds between the statements of a forward commit |
| OffloadMemory.RunContinues | verl/utils/activation_offload.py:263-395 | every run can be continued by every event that the caller's order allows |
| OffloadMemory.PeakReached | verl/utils/activation_offload.py:298-352 | for every number of layers and offload groups some run has as many groups on the device as the peak |
| OffloadMemory.PeakIsExact | verl/utils/activation_offload.py:298-395 | a number bounds the groups on the device in all runs exactly when it is at least the peak |
| OffloadMemory.AtMostTwoGroups | verl/utils/activation_offload.py:500-543 | at most two groups in all runs, exactly when layers - 1 groups are offloaded, or all of at most three |
| KarmarkarKarp.MergeConserves | verl/utils/seqlen_balancing.py:113-116 | merging two states keeps every index as often as it was |
| KarmarkarKarp.MergeSpread | verl/utils/seqlen_balancing.py:113-120 | the spread of a merged state is at most the larger of the two spreads |
| KarmarkarKarp.MergeShape | verl/utils/seqlen_balancing.py:87-116 | for non-negative values a merged state again has no empty set, or only singletons and empty sets |
| KarmarkarKarp.MergeApart | verl/utils/seqlen_balancing.py:113-116 | merging a state that keeps two items apart with one that holds neither keeps them apart |
| Differencing.InitialSpreadAtMost | verl/utils/seqlen_balancing.py:144-156 | no initial state has a larger spread than the values allow |
| Differencing.HeadFirst | verl/utils/seqlen_balancing.py:122-128 | no state precedes the head of the queue, so none has a larger spread |
| Differencing.PopSoonest | verl/utils/seqlen_balancing.py:159-161 | the popped state is the head, and the queue keeps the others |
| Differencing.DifferencesAre | verl/utils/seqlen_balancing.py:144-172 | the result is a partition of the indices in falling load order, whose loads differ by at most the largest initial spread, of equal sizes if asked |
| Differencing.BlocksAreSpread | verl/utils/seqlen_balancing.py:146-164 | with equal sizes, the k items of one block of the sorted list go to k different parts |
| Differencing.LightestSeparated | verl/utils/seqlen_balancing.py:144-164 | with equal sizes and more than one part, the two items that weigh less than all others are separated |
| Differencing.Partition | verl/utils/seqlen_balancing.py:144-172 | the loops return that result, and raise exactly for no items, no parts or an indivisible size |
| BalancedPartitions.HeaviestBound | verl/utils/seqlen_balancing.py:144-172 | where no two loads are further apart than the largest value, k times any load is at most the total plus k - 1 times that value |
| BalancedPartitions.WidestNatural | verl/utils/seqlen_balancing.py:144-156 | for non-negative values the bound on the initial spreads, and so on the loads of the result, is at most the largest value |
| BalancedPartitions.NearOptimal | verl/utils/seqlen_balancing.py:144-172 | against every other partition into k parts with all loads at most L, k times any such load is at most (2k - 1) L |
| BalancedPartitions.BalancedNearOptimal | verl/utils/seqlen_balancing.py:213-254 | the same for every result of the checked wrapper on non-negative values |
| BalancedPartitions.CheckAndSort | verl/utils/seqlen_balancing.py:241-251 | for any lists the checks pass exactly when there are k lists, none empty, that together hold the indices below n and no others; then they come back sorted |
| BalancedPartitions.GetSeqlenBalancedPartitions | verl/utils/seqlen_balancing.py:213-254 | for non-negative values it raises exactly on its argument checks, never for an empty part or a missing index; the result is the differencing result, sorted |
| GreedyPartition.BiasComparesCounts | verl/utils/seqlen_balancing.py:194-204 | with the bias, running sums compare by (count, sum) |
| GreedyPartition.EqualSizes | verl/utils/seqlen_balancing.py:205-209 | parts whose sizes differ by at most one pass the equal-size check exactly when k divides n |
| GreedyPartition.Partition | verl/utils/seqlen_balancing.py:175-210 | a partition of equal sizes when asked; otherwise all loads differ by at most the largest value; raises exactly when k does not divide n |
| Arithmetic.CeildivIsLeast | verl/utils/seqlen_balancing.py:305-324 | the result is the least integer that is at least the quotient, for negative numbers as well |
| DynamicBatch.RoundupIsLeast | verl/utils/seqlen_balancing.py:327-345 | the result is the least multiple of b that is at least a, for negative a as well |
| MicroBatching.BatchCountIsLeast | verl/utils/seqlen_balancing.py:395-407 | the number of micro-batches is the least one that meets the token limit (or one per group), the minimum, the other ranks and the divisor |
| TokenLimit.LimitExceeded | verl/utils/seqlen_balancing.py:362-407 | for every n from 3 on, lengths and a limit with two micro-batches, of which every split breaks the limit |
| TokenLimit.LimitHoldsIffTwo | verl/utils/seqlen_balancing.py:362-407 | for all lengths and limits every micro-batch keeps within the limit, exactly for batches of at most two samples |
| DynamicBatch.ExpandedPartition | verl/utils/seqlen_balancing.py:424-431 | expanding a partition of the groups gives a partition of the samples |
| DynamicBatch.GroupedLoad | verl/utils/seqlen_balancing.py:415-419 | the workload of a list of groups is that of its samples |
| MicroBatching.LeadersOfExpand | verl/utils/seqlen_balancing.py:444-450 | striding through an expanded list and dividing recovers its groups, so the grouped sort key is right |
| MicroBatching.SortDownFalls | verl/utils/seqlen_balancing.py:440-458 | the sort permutes the lists into falling (workload, first index) order |
| MicroBatching.EndsLightRises | verl/utils/seqlen_balancing.py:459-460 | the reorder of a falling list makes workloads rise to the heaviest and then fall |
| MicroBatching.EndsLightPermutes | verl/utils/seqlen_balancing.py:459-460 | the reorder loses and repeats nothing |
| MicroBatching.SplitKeepsGroups | verl/utils/seqlen_balancing.py:415-450 | no micro-batch is empty, forced groups stay whole and consecutive, and the sort key is the workload of the samples |
| MicroBatching.RearrangeMicroBatches | verl/utils/seqlen_balancing.py:348-468 | index lists form a partition of the batch made of whole balanced groups, rows are selected accordingly, workloads rise then fall when balanced; raises exactly for bad arguments or too few groups |
| DynamicBatch.GetReverseIdx | verl/utils/seqlen_balancing.py:471-486 | for distinct indices the result is the inverse; it raises exactly for an index out of range |
| DynamicBatch.RestoreDynamicBatch | verl/utils/seqlen_balancing.py:528-551 | for every batch and partition, the concatenated micro-batches are turned back into the original rows |
| GroupBalance.CollectRuns | verl/utils/seqlen_balancing.py:576-594 | the loop collects the maximal runs of equal uids |
| GroupBalance.RunsInOrder | verl/utils/seqlen_balancing.py:576-594 | the runs list every sample once, in order |
| GroupBalance.SamplesPartition | verl/utils/seqlen_balancing.py:618-626 | every sample is in exactly one of the sorted partitions |
| GroupBalance.RunsStayWhole | verl/utils/seqlen_balancing.py:574-626 | samples with nothing but their uid between them are always in the same partition |
| GroupBalance.Separated | verl/utils/seqlen_balancing.py:574-626 | with more than one partition, samples of different runs are separated when their runs are the lightest |
| GroupBalance.TogetherIffContiguous | verl/utils/seqlen_balancing.py:554-626 | for given uids and any admissible number of partitions, equal uids share a partition for all lengths exactly when there is one partition or they are contiguous |
| GroupBalance.InterleavedUidsSeparated | verl/utils/seqlen_balancing.py:554-626 | uids 0, 1, 0, 2 with lengths 1, 5, 1, 5 on two partitions separate the samples of uid 0 |
| GroupBalance.GetGroupBalancedPartitions | verl/utils/seqlen_balancing.py:554-626 | raises exactly for unequal lengths, too few runs or an indivisible number of runs; otherwise the samples of the balanced parts of the runs, which partition the batch |
| Unpadding.NonzeroAt | verl/utils/npu_flash_attn_utils.py:115 | a kept position is the entry whose number is the count of kept positions before it |
| Unpadding.IndexPutFirstAxis | verl/utils/npu_flash_attn_utils.py:58-67 | writing the values one by one into a fresh buffer computes the scatter |
| Unpadding.ScatterAt | verl/utils/npu_flash_attn_utils.py:62-66 | after scattering to kept positions each holds the value of its rank, and every other position is zero |
| Unpadding.PadUndoesUnpad | verl/utils/npu_flash_attn_utils.py:81-129 | padding what was unpadded keeps unmasked entries and zeroes the others |
| Unpadding.UnpadUndoesPad | verl/utils/npu_flash_attn_utils.py:81-129 | unpadding what was padded returns the list |
| Unpadding.UnpaddedRow | verl/utils/torch_functional.py:837-846 | the cumulative lengths delimit exactly the kept tokens of each row |
| LogProbs.DenseExists | verl/utils/torch_functional.py:598-611 | the dense form exists exactly for 0 < response length < row length, and pairs each response token with the logits before it |
| LogProbs.RolledLabel | verl/utils/torch_functional.py:632-633 | after the roll, the label of a kept token is the next kept token of the batch, cyclically |
| LogProbs.RmpadRefinesDense | verl/utils/torch_functional.py:614-638 | the padding-free output is 0 where masked, the dense value where own and next token are kept, and otherwise the log-probability of the next kept token of the batch |
| Qkv.SplitAt | verl/model_merger/megatron_model_merger.py:338-352 | closed-form index map: where every row of every group goes among queries, keys and values |
| Qkv.SplitSizes | verl/model_merger/megatron_model_merger.py:338-352 | how many rows queries, keys and values have |
| Qkv.SplitPermutes | verl/model_merger/megatron_model_merger.py:338-354 | queries, keys and values together are a permutation of the rows |
| Qkv.SplitPlus | verl/utils/megatron_utils.py:919-934 | splitting concatenated shards is concatenating their splits |
| Qkv.SplitTensors | verl/model_merger/megatron_model_merger.py:330-354 | on every fused weight it gives the grouped split; it raises exactly when heads or rows do not divide |
| Qkv.DefaultTpConcat | verl/utils/megatron_utils.py:902-935 | on the shards of a fused weight it gives the grouped split of the whole; it raises exactly when heads, shard rows or groups do not divide |
| Qkv.ConvertQkvShard | verl/utils/megatron_utils.py:689-714 | on a fused weight with key/value heads spread evenly it gives the same grouped split; it raises exactly for fewer query groups than parts |
| PipelinePlan.PlanIsAdmissible | verl/model_merger/megatron_model_merger.py:80-92 | every plan with equal middle stages and balanced ends is one that the loop considers |
| PipelinePlan.PlanExists | verl/model_merger/megatron_model_merger.py:80-95 | for three or more stages a plan exists exactly when (stages - 2) * ceil(layers / stages) + 2 <= layers |
| PipelinePlan.NoPlanForFiveOnFour | verl/model_merger/megatron_model_merger.py:67-95 | five layers on four stages pass the argument check but have no plan |
| PipelinePlan.GetDynamicPipelineShards | verl/model_merger/megatron_model_merger.py:57-98 | returns exactly when a plan exists; the result sums to the layers, is positive, and minimises the distance of first and middle stage over all plans |
| PipelinePlan.OffsetsAreStarts | verl/utils/megatron_utils.py:1133-1208 | for the configuration the merger builds, the layer offset of a stage is the sum of the stages before it |
| PipelinePlan.StageOfLayer | verl/model_merger/megatron_model_merger.py:360-363 | every layer lies in exactly one stage |
| PipelinePlan.RenumberLayers | verl/model_merger/megatron_model_merger.py:358-418 | for any dictionaries of one rank, each gets a block of global layer numbers as long as its largest local number plus one, from the rank's start on |
| PipelinePlan.BlocksAreApart | verl/model_merger/megatron_model_merger.py:358-418 | layers of different dictionaries never get the same number |
| PipelinePlan.BlocksFillStage | verl/model_merger/megatron_model_merger.py:358-418 | dictionaries whose blocks have as many numbers as the rank has layers stay within the rank's stage |

## Left out

- Sockets, ZeroMQ, CUDA, Ray, NIXL and collective libraries: queues are FIFO and lose nothing after the start barrier; a
  one-sided read copies its bytes in any order at any time before it is done; collective calls are matched by number.
- `NIXLCheckpointEngine.build_topology`, `prepare`, `finalize`: the chain and the buffers are given. `get_notification`
  reuses its parameter as a loop variable, so the relay assumes that only the next rank notifies an agent.
- Weights above the bucket size and duplicate names in the transfer theorems: `ValidConfig` asks for fitting, distinctly
  named weights; what happens otherwise is in `SendWeights` and `DictionaryKeepsAll`.
- The view of a yielded tensor: a consumer has taken its bytes when the generator is resumed, as the caller's
  synchronisation before the buffer swap arranges.
- `mooncake_checkpoint_engine.py` (completion is signalled through the peer's data buffer) and `hccl_checkpoint_engine.py`
  (the NCCL loop with synchronous operations).
- KimiBuckets.NamedTensorBuckets: the weights are given in the rollout type; the cast to it is not modelled.
- `_gen_h2d_buckets`, `_to_named_tensor` and `_copy_to_buffer` of the Kimi engine come from a library: the buckets, their
  bytes and their item offsets are given. With no bucket at all the original fails on an unbound name; a schedule is
  assumed non-empty.
- Offloading with more groups than layers, tensors popped twice or never, fake tensors, device and pinned-memory
  allocation, and tensors that share a key but not their row-major elements.
- KarmarkarKarp.Merge: `Set` and `State` objects are values; an item is its index, its value being looked up. The heap is
  a list from which the state that the heap order puts first is removed; of states that compare equal, which takes
  negative values, the one added first. Built-in sorts are insertion sorts with the same order.
- MicroBatching.RearrangeMicroBatches: the count of the other data-parallel ranks is a parameter, and nested input (whose
  `max_seq_len` is the longest sequence) is covered by choosing `width`.
- `prepare_dynamic_batch`'s copying of non-tensor fields, and `log_seqlen_unbalance`.
- Floating point: the per-token log-probability is an uninterpreted function of logits and label; `unused_mask` and the
  gradients of the gather and scatter are not modelled.
- `convert_qkv_shard` with fewer key/value heads than parts, gate/up weights and parameter names.
- Pipeline layouts, virtual stages, and embedding or loss layers counted in the split.
- Batch padding, chunking and concatenation in `protocol.py`: they would add only easy members.
