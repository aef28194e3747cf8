# Verified model of verl's transfer, offload, balancing and re-sharding cores

This project models the parts of verl whose correctness rests on an argument rather than on reading one function, and
proves that argument. `dafny verify dfyconfig.toml` checks everything. Source paths below are relative to the
repository root.

## What is modelled

**Weight transfer over NIXL** (`Buckets`, `BucketCount`, `BucketViews`, `NixlChain`, `NixlMessages`, `NixlSafety`,
`NixlTheorems`). Rank 0 packs named weights into buckets of a fixed size and posts each to rank 1, which posts it on,
down to the last rank. Every rank has two buffers and overlaps three things: being read from, reading, and yielding
tensors. The chain is a step relation over any number of ranks: each link is a FIFO of posted messages and a FIFO of
read notifications, and a started read copies its bytes one at a time, in any order, out of a buffer that its owner
might be writing. Program points follow the coroutines, and the message dicts that a forwarder takes apart and posts
again are modelled as maps. Proved over all interleavings: what has been yielded is always a prefix of the list handed
in and all of it at the end, no exposed or viewed buffer is ever written, the notify-key assertion holds, the chain
never deadlocks, and every run is finite.

**Weight transfer over NCCL** (`NcclBroadcast`, `NcclSafety`, `NcclTheorems`). The broadcast version of the same
double buffering. The k-th broadcast of every rank is one collective; its bytes leave rank 0's buffer and land in each
receiver's buffer independently, and rank 0 may run ahead of any receiver. The same guarantees are proved.

**Activation offload** (`WindowMap`, `OffloadModel`, `OffloadHandler`, `OffloadRuns`, `OffloadSteps`,
`OffloadForward`, `OffloadBackward`, `OffloadTheorems`, `OffloadContents`). The handler is a class whose methods are
proved equal to functions on its state; runs are sequences of legal calls over any number of passes. CUDA streams are
counters of issued operations plus what each stream has waited for. Saved tensors are also modelled as strided views
of storages.

**Sequence-length balancing** (`Sums`, `KarmarkarKarp`, `VectorDifferencing`, `Partitioning`, `Balancing`,
`BalanceExists`, `GreedyPartition`, `MicroBatches`, `TokenLimit`, `MicroBatchOrder`, `GroupBalance`, `GroupTogether`).
k-way Karmarkar-Karp differencing over a heap of states, proved to compute k-way differencing of the plain sums, the
greedy alternative, the choice of the number of micro-batches, when they keep the token limit, their reordering, the
restoring of the row order, and the balancing of groups.

**Sequence parallelism** (`Tensors`, `Ulysses`). Tensors of any rank as shape and elements, one per rank of the group.
All-to-all, gathers, slicing and padding, and that each undoes the other.

**Packed log-probabilities** (`PackedLogProbs`), **fused QKV weights** (`QkvSplit`, `QkvGroups`) and **pipeline
stages** (`PipelineSplit`) are three smaller cores. `Wrappers`, `Arithmetic` and `Shapes` hold shared helpers.

## Findings

- A bucket's metadata is keyed by name, so a name repeated within one bucket loses an entry. Delivery of the whole list
  holds if and only if no bucket repeats a name (`Buckets.PackRoundTrip`).
- The comment on `num_offload_group` allows as many groups as layers. The values that come back are then still right,
  but each group after the first is offloaded before it has been pushed, so when the forward pass is over everything but
  group 0 is still on the device (`OffloadTheorems.ResidentAfterForward`). The only caller uses one group fewer than
  layers.
- Deduplication by storage address and dtype returns the pushed contents if and only if they equal those of the first
  tensor with the same key (`OffloadTheorems.PopReturns`). Contiguous views always come back as pushed
  (`OffloadContents.ContiguousReturns`); a matrix saved together with its transpose does not
  (`OffloadContents.TransposeDiffers`).
- `max_token_len` is documented as a maximum per micro-batch, but it is not one: rows of 6, 6, 6 tokens with a limit of
  9 give a micro-batch of 12 (`MicroBatches.LimitCanBeExceeded`). A batch with room to spare keeps the limit, as do one
  micro-batch and one row each (`TokenLimit.LimitKept`); a batch with too many long rows breaks it
  (`TokenLimit.LimitBroken`); and for rows of similar length the limit is kept if and only if the rows that fit one
  micro-batch, times their number, reach the batch size (`TokenLimit.SimilarExactly`). For any other batch there is the
  bound `MicroBatches.TokenBound`.
- Samples of one uid stay together, whatever their lengths, if and only if each uid is contiguous or there is one list
  (`GroupTogether.UidsKeptExactly`); the documentation promises it without that condition.
- Position ids of shape (k, 1, n) are sliced along the dimension of size 1, which leaves every rank with none
  (`Ulysses.ThreeDimPositionsLost`).
- The pipeline split can fail although there are at least as many layers as stages: 5 layers over 4 stages leaves no
  strategy and raises an index error (`PipelineSplit.FiveOverFour`); `PipelineSplit.SplitsExactly` says when.
- The packed log-probability at an unmasked token scores the next unmasked token of the batch in row order, wrapping from
  the last one to the first, so at the last unmasked token of a row it scores a token of another row
  (`PackedLogProbs.PackedAgrees`). Within the response this is only visible where the successor is masked.
- `convert_qkv_shard` divides the query groups, not the key/value heads, by the number of shards. For rows that all
  differ the result is right if and only if that gives the key/value heads per shard (`QkvGroups.GroupsExactly`).

## Model

| member | source | states |
|---|---|---|
| Buckets.FillBuckets | verl/checkpoint_engine/nixl_checkpoint_engine.py:352-400 | the fill loop on two physical buffers posts exactly the specified buckets and flag, and the buffer of the last post holds its bytes |
| Buckets.PackIsGrouped | verl/checkpoint_engine/nccl_checkpoint_engine.py:224-262 | the loop cuts the list into consecutive groups and fills one bucket per group; it gets to its last bucket if and only if every weight fits one |
| Buckets.GroupsFlatten | verl/checkpoint_engine/nixl_checkpoint_engine.py:361-400 | the groups are a prefix of the list in order, and all of it when every weight fits |
| Buckets.UnpackDistinct | verl/checkpoint_engine/nixl_checkpoint_engine.py:454-458 | a bucket filled with distinctly named weights unpacks to exactly those weights, its entries back to back from offset 0 |
| Buckets.UnpackRepeated | verl/checkpoint_engine/nixl_checkpoint_engine.py:392-399 | a repeated name loses an entry of its bucket |
| Buckets.PackRoundTrip | verl/checkpoint_engine/nixl_checkpoint_engine.py:360-410 | packing then unpacking gives the list back exactly when each weight fits a bucket and no bucket repeats a name; every entry lies within the bucket size |
| BucketCount.SentCutLate | verl/checkpoint_engine/nixl_checkpoint_engine.py:367-393 | a bucket is closed only where the next weight would not have fitted |
| BucketCount.FewestPosted | verl/checkpoint_engine/nixl_checkpoint_engine.py:360-410 | no way to cut the list into consecutive groups that fit has fewer groups than buckets are posted |
| Buckets.OffsetsAligned | verl/checkpoint_engine/nixl_checkpoint_engine.py:361-400 | after the cast to one dtype every offset is a multiple of the item size |
| BucketViews.ExtractHeld | verl/checkpoint_engine/nixl_checkpoint_engine.py:454-458 | a tensor viewed in a buffer that holds a bucket is the tensor of that bucket |
| NixlSafety.RemoteHolds | verl/checkpoint_engine/nixl_checkpoint_engine.py:202-226 | the buffer a read in flight takes its bytes from still holds the bucket that was posted from it |
| NixlSafety.StepInv | verl/checkpoint_engine/nixl_checkpoint_engine.py:341-498 | every step of every rank keeps the invariant over buffers, queues and yields |
| NixlSafety.ReachableInv | verl/checkpoint_engine/nixl_checkpoint_engine.py:341-498 | the invariant holds in every state of every interleaving |
| NixlTheorems.Delivery | verl/checkpoint_engine/nixl_checkpoint_engine.py:360-410 | a receiver has always yielded a prefix of the list handed to rank 0, and a finished one all of it in order if and only if no bucket repeats a name; it finishes only when every weight fits |
| NixlTheorems.OnlyWritesChange | verl/checkpoint_engine/nixl_checkpoint_engine.py:368-400 | a step changes no buffer but the one rank 0 fills or a landing byte goes to |
| NixlTheorems.NoClobber | verl/checkpoint_engine/nixl_checkpoint_engine.py:434-471 | no rank writes a buffer that a readable operation exposes or that is being yielded |
| NixlTheorems.Overlaps | verl/checkpoint_engine/nixl_checkpoint_engine.py:434-471 | a rank that yields a bucket has posted it from the same buffer and has begun to read the next one, and rank 0 fills while the bucket before may still be read |
| NixlTheorems.ReadsExposed | verl/checkpoint_engine/nixl_checkpoint_engine.py:147-165 | a read in flight reads only a buffer exposed for exactly that read |
| NixlTheorems.OneOutstanding | verl/checkpoint_engine/nixl_checkpoint_engine.py:119-165 | a link has at most one outstanding bucket, the notification that arrives is the open operation's, and no notify-key assertion fails |
| NixlTheorems.NoDeadlock | verl/checkpoint_engine/nixl_checkpoint_engine.py:402-492 | where nothing can move every rank has finished, or some weight does not fit and rank 0 alone has stopped at its size assertion |
| NixlTheorems.StepWork | verl/checkpoint_engine/nixl_checkpoint_engine.py:437-492 | a measure over ranks, buckets and program points falls with every step |
| NixlTheorems.Terminates | verl/checkpoint_engine/nixl_checkpoint_engine.py:402-492 | the measure of the first state bounds the length of every run |
| NixlTheorems.CompleteRunsDeliver | verl/checkpoint_engine/nixl_checkpoint_engine.py:341-498 | a run that cannot be continued has given every receiver the whole list if and only if every weight fits a bucket and no bucket repeats a name |
| NixlMessages.ReadsPosted | verl/checkpoint_engine/nixl_checkpoint_engine.py:147-200 | a reader gets the key, descriptors and metadata that were posted if and only if the metadata brings no key or descriptors of its own; what it hands on never does |
| NixlMessages.Relayed | verl/checkpoint_engine/nixl_checkpoint_engine.py:147-200 | over any number of forwarders each rank reads its own predecessor's key and descriptors and the metadata of rank 0 |
| NixlMessages.PopsNeeded | verl/checkpoint_engine/nixl_checkpoint_engine.py:147-200 | without taking the two entries out a forwarder would post its predecessor's key and descriptors |
| NixlMessages.WireReads | verl/checkpoint_engine/nixl_checkpoint_engine.py:147-200 | reading the dict of any message of the chain gives its key, descriptors and bucket fields back |
| NixlMessages.RepostedAs | verl/checkpoint_engine/nixl_checkpoint_engine.py:190-200 | the post of a receiver in the chain is the message with the metadata it read, under its own key and descriptors |
| NcclSafety.LandedByte | verl/checkpoint_engine/nccl_checkpoint_engine.py:71-81 | a byte that lands in a receiver's k-th broadcast is the byte of rank 0's k-th bucket |
| NcclSafety.StepInv | verl/checkpoint_engine/nccl_checkpoint_engine.py:219-339 | every step keeps the invariant over buffers, published metadata and bytes on the way |
| NcclTheorems.Delivery | verl/checkpoint_engine/nccl_checkpoint_engine.py:291-339 | a receiver has always yielded a prefix of the list, and a finished one all of it if and only if no bucket repeats a name |
| NcclTheorems.NoClobber | verl/checkpoint_engine/nccl_checkpoint_engine.py:228-262 | no rank fills or yields from the buffer of a broadcast in flight |
| NcclTheorems.Overlaps | verl/checkpoint_engine/nccl_checkpoint_engine.py:298-332 | a rank that yields a bucket has begun the broadcast of the next one, and rank 0 fills while the bucket before is on its way |
| NcclTheorems.OnlyBroadcastsChange | verl/checkpoint_engine/nccl_checkpoint_engine.py:298-332 | apart from rank 0's own fill only the buffer given to a receiver's broadcast changes |
| NcclTheorems.NoDeadlock | verl/checkpoint_engine/nccl_checkpoint_engine.py:219-339 | where nothing can move every rank has finished, or some weight does not fit |
| NcclTheorems.Terminates | verl/checkpoint_engine/nccl_checkpoint_engine.py:219-339 | every run is finite |
| NcclTheorems.CompleteRunsDeliver | verl/checkpoint_engine/nccl_checkpoint_engine.py:219-339 | a run that cannot be continued has given every receiver the whole list if and only if every weight fits a bucket and no bucket repeats a name |
| WindowMap.BuildWindowMap | verl/utils/activation_offload.py:248-257 | the loop with its running constant computes the closed form of every window |
| WindowMap.WindowShape | verl/utils/activation_offload.py:248-257 | windows rise strictly, end at the last layer and never come before their own group |
| WindowMap.WindowsEven | verl/utils/activation_offload.py:246-257 | the windows cut the layers as evenly as possible, longer stretches first, and the last one is the last layer |
| WindowMap.WindowAfterGroup | verl/utils/activation_offload.py:248-257 | every window lies after its group if and only if there are fewer groups than layers |
| OffloadHandler.AsyncDoubleBufferGroupOffloadHandler.constructor | verl/utils/activation_offload.py:228-261 | the fields are the initial state of the model's runs, windows included |
| OffloadHandler.AsyncDoubleBufferGroupOffloadHandler.TensorPush | verl/utils/activation_offload.py:263-283 | does to the fields what the model's push says, error included |
| OffloadHandler.AsyncDoubleBufferGroupOffloadHandler.TensorPop | verl/utils/activation_offload.py:285-296 | does to the fields what the model's pop says |
| OffloadHandler.AsyncDoubleBufferGroupOffloadHandler.BulkOffloadGroup | verl/utils/activation_offload.py:298-317 | collects one copy per key and replaces the group's tensors by key and shape |
| OffloadHandler.AsyncDoubleBufferGroupOffloadHandler.SynchronizeOnGroupCommitForward | verl/utils/activation_offload.py:319-345 | kicks off group 0, and at a window drops the copied group and offloads the next |
| OffloadHandler.AsyncDoubleBufferGroupOffloadHandler.OnGroupCommitForward | verl/utils/activation_offload.py:347-352 | the forward commit |
| OffloadHandler.AsyncDoubleBufferGroupOffloadHandler.BulkReloadGroup | verl/utils/activation_offload.py:354-371 | takes the group's mapping out and puts views of its copies back under the pushed shapes |
| OffloadHandler.AsyncDoubleBufferGroupOffloadHandler.OnGroupCommitBackward | verl/utils/activation_offload.py:373-395 | the backward commit with its prefetch and final wait |
| OffloadForward.CommitForwardInv | verl/utils/activation_offload.py:319-352 | a forward commit of a legal run succeeds and keeps the invariant |
| OffloadBackward.CommitBackwardInv | verl/utils/activation_offload.py:373-395 | a backward commit of a legal run succeeds and keeps the invariant |
| OffloadTheorems.NothingFails | verl/utils/activation_offload.py:263-395 | in a legal run no assertion, missing window, missing mapping or failing view is ever hit, over any number of passes |
| OffloadTheorems.PopReturns | verl/utils/activation_offload.py:285-296 | a pop returns the pushed shape with the contents of the first tensor of its key, hence the pushed tensor exactly when those agree |
| OffloadContents.ContiguousAgree | verl/utils/activation_offload.py:35-37 | contiguous views of one place with equally many elements have one key and the same contents whatever their shapes |
| OffloadContents.KeyIsPlace | verl/utils/activation_offload.py:35-37 | although an offset in elements is added to an address in bytes, one key means one element of one live storage |
| OffloadContents.ContiguousReturns | verl/utils/activation_offload.py:285-371 | in every state of every run a pop gives back the contents pushed, when the layer's tensors are contiguous views of live storages |
| OffloadContents.TransposeDiffers | verl/utils/activation_offload.py:35-37 | a run in which a matrix and its transpose are pushed and the transpose comes back with the matrix's contents |
| OffloadContents.ReloadNeedsEqualSizes | verl/utils/activation_offload.py:298-371 | offloading and reloading a group succeeds if and only if any two of its tensors that share a key have equally many elements |
| OffloadTheorems.OffloadAfterPush | verl/utils/activation_offload.py:319-341 | the copies of a group are issued on a stream that has waited for every push so far, a group that is really offloaded has had its last push, and except for group 0 the compute stream goes on without waiting for them |
| OffloadTheorems.DropAfterCopy | verl/utils/activation_offload.py:330-345 | the device tensor of an offloaded tag is kept until the compute stream has waited for its copy |
| OffloadTheorems.ReloadAfterCopy | verl/utils/activation_offload.py:380-395 | whatever a backward commit takes out of the mapping is reloaded on a stream that had by then waited for the copies it reads, and except in the last commit the compute stream does not wait for it |
| OffloadTheorems.UseAfterReload | verl/utils/activation_offload.py:380-395 | a reloaded tensor is handed out, in its group's turn or later, only after the compute stream has waited for its reload |
| OffloadTheorems.TwoGroupsResident | verl/utils/activation_offload.py:500-543 | with one group fewer than layers only the current group and the one before it are on the device, once the tensors of groups already used in the backward pass have been taken back |
| OffloadTheorems.ResidentAfterForward | verl/utils/activation_offload.py:319-345 | what is on the device after the forward pass: with fewer groups than layers only the layers in no group, with as many everything but group 0 |
| OffloadTheorems.OncePerPass | verl/utils/activation_offload.py:319-395 | in every state each group enters the mapping at exactly one forward commit and leaves it at exactly one backward commit |
| OffloadTheorems.MappingKeys | verl/utils/activation_offload.py:298-371 | the mapping holds exactly the groups offloaded and not yet reloaded |
| OffloadTheorems.PassRestores | verl/utils/activation_offload.py:373-395 | after a full pass the handler is in its initial state |
| KarmarkarKarp.MergeSpread | verl/utils/seqlen_balancing.py:113-120 | a merge never raises the spread above the larger of the two |
| KarmarkarKarp.MergeTwo | verl/utils/seqlen_balancing.py:113-120 | with two sets a merge subtracts the spreads |
| KarmarkarKarp.MergeHeld | verl/utils/seqlen_balancing.py:113-116 | a merge loses and repeats no item |
| KarmarkarKarp.ItemsLessExactly | verl/utils/seqlen_balancing.py:87-92 | the last tie-break is list order: a proper prefix first, else the first items that differ decide |
| KarmarkarKarp.FilledFirst | verl/utils/seqlen_balancing.py:87-92 | the item-count tie-break sorts empty sets last even when all sums are zero |
| KarmarkarKarp.MergeFilled | verl/utils/seqlen_balancing.py:113-116 | merging p and q non-empty sets leaves min(k, p + q) |
| Partitioning.DifferencingStep | verl/utils/seqlen_balancing.py:154-160 | for k = 2 a round of the heap is a step of plain number differencing on the multiset of spreads |
| Partitioning.HeapPop | verl/utils/seqlen_balancing.py:122-128 | the popped state has the largest spread and, of those, the largest first set |
| Partitioning.VectorRound | verl/utils/seqlen_balancing.py:154-160 | for every k a round of the heap takes the two sum vectors of largest spread, then of largest first sum, and adds them crosswise |
| BalanceExists.TopUnique | verl/utils/seqlen_balancing.py:122-128 | no two states of the heap are equal, so which one is popped is never left to the heap |
| BalanceExists.LoopDetermined | verl/utils/seqlen_balancing.py:141-160 | from a heap that holds every index once the loop can end with one state only, so the partitions are a function of the arguments |
| Partitioning.PushSingles | verl/utils/seqlen_balancing.py:150-152 | one sound state per item, together holding every index once, its sum vector the item and zeros |
| Partitioning.PushChunks | verl/utils/seqlen_balancing.py:141-149 | one level state per k consecutive sorted items, its sum vector those items from the largest down |
| Partitioning.MergeStates | verl/utils/seqlen_balancing.py:154-162 | the loop ends with one state that holds every item, keeps the spread bound and has a result of k-way differencing of the start vectors as its sums; for k = 2 the differencing value is its spread |
| Balancing.KarmarkarKarpPartitions | verl/utils/seqlen_balancing.py:130-172 | succeeds exactly for k > 0, a non-empty list and, with equal sizes, divisibility, and which error otherwise; the result is balanced: every index once, the sums those of k-way differencing, spread bounded, none empty when k <= n, equal counts |
| Balancing.CheckAndSortPartitions | verl/utils/seqlen_balancing.py:238-251 | the checks pass exactly for k non-empty lists that together hold the indices, and sort each list |
| Balancing.GetSeqlenBalancedPartitions | verl/utils/seqlen_balancing.py:213-254 | succeeds exactly for 0 < k <= n (and divisibility), and which error otherwise; sorted balanced lists, and none of the checks on the result fails |
| BalanceExists.SomeBalanced | verl/utils/seqlen_balancing.py:130-172 | a balanced partition of equal sizes exists whenever k divides the number of items, so nothing said of every result is empty |
| Balancing.LoadBound | verl/utils/seqlen_balancing.py:144-172 | k times any load is at most the total plus k - 1 times the largest item |
| Balancing.Approximation | verl/utils/seqlen_balancing.py:144-172 | k times any load is at most 2k - 1 times the largest load of any other way to cut the items into k lists |
| GreedyPartition.SmallestSum | verl/utils/seqlen_balancing.py:198-201 | the inner loop finds the first smallest sum |
| GreedyPartition.GreedyPartition | verl/utils/seqlen_balancing.py:194-210 | every index once, each item in the first of the lightest lists at its turn, with the bias the first of the lightest with fewest items; with the bias the counts are equal exactly when the number of items is divisible, else the list-scheduling bound holds; which error otherwise |
| GreedyPartition.LevelCounts | verl/utils/seqlen_balancing.py:194-209 | level counts are equal counts exactly when divisible |
| MicroBatches.CeilDivLeast | verl/utils/seqlen_balancing.py:305-324 | the smallest number of batches that hold a |
| MicroBatches.RoundupLeast | verl/utils/seqlen_balancing.py:327-345 | the smallest multiple of b that is at least a |
| MicroBatches.CountSuffices | verl/utils/seqlen_balancing.py:382-398 | capping by the batch size never lowers the count below what the tokens need and later steps only raise it |
| MicroBatches.CountIsLeast | verl/utils/seqlen_balancing.py:380-398 | the chosen count is the least that fits the tokens or reaches the batch size, is at least the minimum and the other ranks' counts and is a multiple of the divisor; it is chosen if and only if the limit covers the longest row, nothing divides by zero and the batch is large enough, and which error otherwise |
| MicroBatches.TokenBound | verl/utils/seqlen_balancing.py:382-402 | 24576 k T <= (2k - 1)(24576 + M) M for the tokens T of every micro-batch |
| MicroBatches.LimitCanBeExceeded | verl/utils/seqlen_balancing.py:382-402 | three rows of 6 tokens with limit 9 give a micro-batch of at least 12 |
| TokenLimit.LimitKept | verl/utils/seqlen_balancing.py:362-402 | the limit is kept with one micro-batch, with one row each, and when total workload plus k - 1 times the heaviest is at most 24576 k times the limit |
| TokenLimit.LimitBroken | verl/utils/seqlen_balancing.py:362-402 | with more rows of which j + 1 never fit together than k micro-batches can take j of, every way to cut the batch breaks the limit |
| TokenLimit.SimilarExactly | verl/utils/seqlen_balancing.py:362-402 | for rows of which j always fit together and j + 1 never do, and no heavier than that, the limit is kept if and only if k j rows cover the batch |
| TokenLimit.UniformExactly | verl/utils/seqlen_balancing.py:362-402 | for rows of one length c the limit is kept if and only if k micro-batches of floor(limit / c) rows hold the batch |
| TokenLimit.FitMissed | verl/utils/seqlen_balancing.py:362-402 | rows of 3, 3, 2, 2, 2 tokens fit two micro-batches of 6, yet every result of the balancing exceeds 6 |
| MicroBatchOrder.ReorderedShape | verl/utils/seqlen_balancing.py:404-414 | counted outwards from the heaviest in the middle the micro-batches get lighter, ties by first row, so the lightest are at both ends; it is a rearrangement |
| MicroBatchOrder.RearrangeMicroBatches | verl/utils/seqlen_balancing.py:382-422 | succeeds exactly when a positive count is chosen; the micro-batches are a balancing of the workloads, every row once, none empty, each within the token bound, the limit kept or broken as the three conditions say, in the balancing's order or with the lightest at both ends |
| MicroBatchOrder.GetReverseIdx | verl/utils/seqlen_balancing.py:425-440 | the loop on a copy computes the specification function |
| MicroBatchOrder.ReverseInverts | verl/utils/seqlen_balancing.py:425-440 | on a permutation that function is the inverse both ways |
| MicroBatchOrder.RoundTrip | verl/utils/seqlen_balancing.py:482-505 | splitting, mapping any per-row function, concatenating and restoring equals mapping it over the batch |
| GroupBalance.BuildGroups | verl/utils/seqlen_balancing.py:530-550 | the loop builds the maximal runs of equal uids |
| GroupBalance.GetGroupBalancedPartitions | verl/utils/seqlen_balancing.py:526-580 | succeeds exactly when lengths agree and k divides the number of groups; each list is the sorted union of one part of a balanced partition of the groups |
| GroupBalance.EachSampleOnce | verl/utils/seqlen_balancing.py:571-580 | every sample is in exactly one of k lists |
| GroupBalance.KeptTogether | verl/utils/seqlen_balancing.py:508-525 | contiguous samples of one uid end up in one list |
| GroupBalance.WorkBalanced | verl/utils/seqlen_balancing.py:553-569 | the lists' workloads differ by no more than the group balancing allows |
| GroupBalance.EqualCounts | verl/utils/seqlen_balancing.py:562-569 | groups of one size give lists of one size |
| GroupTogether.TogetherExactly | verl/utils/seqlen_balancing.py:508-546 | two samples are in one list for all lengths if and only if there is one list or the uid does not change between them |
| GroupTogether.UidsKeptExactly | verl/utils/seqlen_balancing.py:508-525 | samples of one uid end up in one list for all lengths if and only if there is one list or each uid is contiguous |
| GroupTogether.ForcedApart | verl/utils/seqlen_balancing.py:530-569 | with one token at each of two samples of different groups every result puts them into different lists |
| Tensors.CatOfChunks | verl/utils/ulysses.py:141-152 | chunks put back together along the dimension they were split along give the tensor back |
| Ulysses.MatchedExactly | verl/utils/ulysses.py:133-152 | the exchange is matched exactly when all ranks hold one shape and the scattered dimension divides evenly |
| Ulysses.AllToAllAt | verl/utils/ulysses.py:133-152 | which rank and index every element of every rank comes from |
| Ulysses.ExchangeIsSlice | verl/utils/ulysses.py:133-191 | along two different dimensions rank r receives the r-th slice of all tensors put together |
| Ulysses.AllToAllUndone | verl/utils/ulysses.py:133-191 | with scatter and gather dimensions swapped the exchange undoes itself on every rank |
| Ulysses.SeqGathered | verl/utils/ulysses.py:62-83 | rank r holds the real rows of the whole sequence for its own slice of the heads |
| Ulysses.HeadsGathered | verl/utils/ulysses.py:86-101 | rank r holds its own slice of the padded rows for all heads |
| Ulysses.SeqGatherUndone | verl/utils/ulysses.py:62-101 | gathering the sequence, cutting it, padding it and scattering it returns every shard with real rows unchanged and padding rows zero |
| Ulysses.HeadsGatherUndone | verl/utils/ulysses.py:62-101 | scattering a sequence of any length and gathering it again is the identity |
| Ulysses.GatheredIsCat | verl/utils/ulysses.py:155-222 | stacking, splitting and concatenating is concatenation in rank order |
| Ulysses.SliceGatherUndone | verl/utils/ulysses.py:117-275 | pad, slice, any per-element function, gather, unpad equals that function on the whole |
| Ulysses.UnpadExactly | verl/utils/ulysses.py:104-114 | unpadding undoes padding exactly when there was padding (or nothing at all), which is why callers guard it |
| Ulysses.PadSliceGatherUndone | verl/utils/ulysses.py:243-330 | the same for token ids padded and sliced by the input helper |
| Ulysses.IdsJoin | verl/utils/ulysses.py:278-295 | the ranks' token ids join to the originals followed by the pad value, up to the next multiple of the group size |
| Ulysses.PositionsRestart | verl/utils/ulysses.py:286-294 | padded position ids of two or three dimensions restart at 0 along the last one |
| Ulysses.PositionsJoin | verl/utils/ulysses.py:278-295 | the ranks' position ids join to the originals followed by a sequence restarting at 0 |
| Ulysses.ThreeDimPositionsLost | verl/utils/ulysses.py:298-330 | three-dimensional position ids come out empty on every rank |
| PackedLogProbs.IndexPut | verl/utils/npu_flash_attn_utils.py:56-66 | the in-place index assignment on a zero array computes the specification function |
| PackedLogProbs.UnpadPad | verl/utils/npu_flash_attn_utils.py:81-129 | unpad then pad keeps unmasked entries and zeroes the others |
| PackedLogProbs.PadUnpad | verl/utils/npu_flash_attn_utils.py:81-129 | pad then unpad is the identity |
| PackedLogProbs.PaddedDefined | verl/utils/torch_functional.py:598-611 | the padded form accepts exactly response lengths from 1 to the sequence length minus 1 |
| PackedLogProbs.RolledLabel | verl/utils/torch_functional.py:631-634 | after the roll the label beside a token is the next unmasked token's id |
| PackedLogProbs.PackedAgrees | verl/utils/torch_functional.py:614-668 | packed equals padded where a token and its successor are unmasked, is zero where the token is masked, and otherwise scores the next unmasked token of the batch |
| QkvSplit.SplitTensors | verl/model_merger/megatron_model_merger.py:330-354 | succeeds exactly when the sizes divide; splits the tensor into its groups |
| QkvSplit.ConcatAcrossTp | verl/utils/megatron_utils.py:848-881 | succeeds exactly when the sizes divide; the result is the split of the concatenated shards |
| QkvSplit.ConvertQkvShard | verl/utils/megatron_utils.py:645-660 | fails exactly when a chunk number is zero; with as many query groups per shard as key/value heads, and shards of whole groups, the result is the split of the full tensor |
| QkvGroups.GroupsExactly | verl/utils/megatron_utils.py:645-660 | on rows that all differ the result is right if and only if the query groups per shard are the key/value heads per shard |
| QkvSplit.ShardsAgree | verl/utils/megatron_utils.py:866-881 | splitting shard by shard is splitting the whole, however many shards there are |
| QkvSplit.SizesFit | verl/utils/megatron_utils.py:862-878 | the sizes given to split fit every chunk exactly when the groups divide the k rows |
| QkvSplit.EachRowOnce | verl/utils/megatron_utils.py:649-660 | every row of the fused weight lands in exactly one of q, k and v |
| QkvSplit.HeadOrder | verl/utils/megatron_utils.py:649-660 | where row r of every q, k and v head comes from: heads keep their order |
| QkvSplit.AllAgree | verl/model_merger/megatron_model_merger.py:330-354 | two results for the same weight, groups and heads per group are equal |
| PipelineSplit.FitsExactly | verl/model_merger/megatron_model_merger.py:85-90 | a middle size m fits if and only if m(p - 2) + 2 <= layers <= m p |
| PipelineSplit.FramedExactly | verl/model_merger/megatron_model_merger.py:83-93 | the strategies that fit are exactly the shardings with middle stages of one size, no larger ends and the odd layer at the last stage |
| PipelineSplit.GetDynamicPipelineShards | verl/model_merger/megatron_model_merger.py:57-98 | which error in which case; any result is positive and sums to the layers, the last stage holds the odd layer, and for three or more stages no other such sharding has a first stage closer to its middle ones |
| PipelineSplit.SplitsExactly | verl/model_merger/megatron_model_merger.py:80-97 | for three or more stages the search succeeds if and only if layers <= ((layers - 2) div (p - 2)) p |
| PipelineSplit.EnoughLayers | verl/model_merger/megatron_model_merger.py:80-97 | ceil((p - 1) / 2)(p - 2) + 2 layers are always enough |
| PipelineSplit.FiveOverFour | verl/model_merger/megatron_model_merger.py:80-97 | five layers do not split over four stages |
| PipelineSplit.SaveRank | verl/model_merger/megatron_model_merger.py:436-457 | every key of a rank is indexed under the file of its part and counted once |
| PipelineSplit.FilesApart | verl/model_merger/megatron_model_merger.py:450-455 | file numbers rise with the rank and the part, so no two ranks write a file of one number, nor one rank twice |
| PipelineSplit.PartsEven | verl/model_merger/megatron_model_merger.py:440-441 | the parts of a rank's keys are as even as possible, longer ones first |
| PipelineSplit.FilesTile | verl/model_merger/megatron_model_merger.py:430-457 | every number from 1 to the total is written by exactly one rank at one position |

## Left out

- ZeroMQ, NIXL, NCCL and CUDA themselves: links are FIFO queues, reads are asynchronous copies, a broadcast is matched by its number on each rank, and socket set-up, slow subscribers and bandwidth logging are absent.
- Notify keys: random identifiers become the running number of the post, so two keys of one rank are always different.
- Routing by rank: each receiver has one upstream rank, so the rebinding of `remote_name` while polling notifications has no counterpart.
- Trainer ranks below 0, which only drain their weights, and the cast to the rollout dtype; a weight is its bytes after the cast.
- Sharing of the GPU buffers between a yielded tensor and its consumer: a consumer is done with a view before it resumes the generator.
- `Set` and `State` of the differencing are values: their in-place `add` and `merge`, and aliasing of the item lists, are not captured.
- Partitioning.HeapPop: the heap is the sequence of its states, and the array layout of `heapq` is absent.
- Rounding and overflow: workloads, token counts and sizes are unbounded integers, and log-probability is any function of a logits row and a label.
- TokenLimit.LimitKept: with LimitBroken this leaves batches undecided. Whether rows fit k lists at all is bin packing and the balancing can miss a fit (FitMissed); the loads it ends with are determined by the differencing, and no condition simpler than carrying that out is given for the batches in between.
- OffloadHandler: fields after a failed assertion are not described, and fake or functional tensors, which are handed back as their own tag, are not pushed.
- Autograd, parameter filtering, activation checkpointing and module wrapping in the offload file: only the order of the handler's calls is kept.
- The `skip_position_ids_rmpad` switch, with which only the token ids are sliced.
- Ulysses without a process group, where tensors are returned unchanged, gradient scaling, and asynchronous exchanges.
- Ulysses.GatherOutputsAndUnpad: an empty leading dimension with a gather along another one is excluded, because splitting into pieces of size zero is not defined there.
- Ulysses.AllToAll: an exchange whose chunks differ in shape from the receive buffers is an error; a backend that compares element counts only might let it pass.
- QkvSplit.ConcatAcrossTp: takes shards of one size, as an all-gather delivers them.
- QkvSplit.ConvertQkvShard: the branch with at least as many key/value heads as shards; with fewer heads the source divides by a quotient that can be zero. Layer-norm, gate-up and expert weights are absent.
- PipelineSplit.SaveRank: file contents are the keys; names of weights that two ranks both hold are not merged.
- Batch selection, nested tensors, data-parallel sampling, `prepare_dynamic_batch` and unbalance logging.
- `memory_buffer.py`, the `DataProto` helpers, FLOPs estimates, tools, agents and configuration checks, which would only add easy members.
