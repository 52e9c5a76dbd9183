# verl: verified models of its algorithms

A Dafny model of the parts of verl (reinforcement-learning training for language models) that hold
real algorithms, with proofs of what those algorithms promise. `dafny verify dfyconfig.toml` checks
everything.

| component | files | main results |
|---|---|---|
| weight transfer | `BucketPacking`, `BucketSender`, `TransferPlan`, `NixlChain`, `NcclBroadcast` | both pipelined engines deliver the stream of the plain `yield from` engine under every interleaving, never deadlock, never reuse a buffer too early; greedy packing is optimal |
| activation offload | `ActivationOffload`, `ActivationStreams`, `ActivationHandler`, `ActivationPasses` | over any number of passes every pop equals its push, no assertion or lookup fails, no copy is used before the stream waits have ordered it, and the handler returns to rest |
| sequence-length balancing | `BalancedSets`, `Differencing`, `StartingTuples`, `KarmarkarKarp`, `PartitionRun`, `BalancedPartitions`, `GreedyPartition`, `Partitions` | Karmarkar-Karp as it runs on mutable sets and a heap; every index once, no empty part, no assertion fires, a bound against every assignment |
| micro-batches | `MicroBatches`, `BatchRestore` | counts, reordering, and the round trip through `restore_dynamic_batch` |
| packed loss | `Unpadding`, `SequenceParallel`, `PackedLoss` | the sequence-parallel packed loss equals the padded loss exactly under a condition on the masks |
| pipeline layout | `PipelineShards`, `LayerLayout`, `LayerOffset`, `QkvLayout` | closed form and exact success condition of the stage search, layer numbering as a bijection, agreement of three query-key-value splits |
| bounding boxes | `BoundingBox` | containment, minimum size and aspect ratio of every returned box |

`Lists`, `Shapes`, `IntSeqs` and `Options` are shared helpers; `Runs` holds what is true of the runs of any
transition system, and `Sorting` the insertion sort by any order.

How things are modelled:

- The transfer engines are transition systems over all ranks. A rank's step runs from one await (or
  yield) to the next; bytes of a transfer are copied one at a time, in any order, at any moment
  between its start and its completion; in the broadcast engine background threads run
  independently of the coroutines. Theorems about runs hold for every interleaving. The sending
  loop itself, over two byte arrays, is the class `BucketSender.Sender`.
- The offload handler is a class with the program's counters and dictionaries. Its methods are tied
  to functions on a snapshot of the fields, and the invariant is proved about those functions. Its
  copies run on streams of their own; which of them still lack a wait is tracked beside the fields,
  and every place that reads a copy or gives up memory requires that none is missing.
- Karmarkar-Karp's sets and states are classes merged in place. The heap is a sequence whose least
  element is popped; `Differencing.PopIsForced`, `NextUnrepeated` and
  `KarmarkarKarp.StartUnrepeated` show that the popped state never depends on the heap's layout.
- Exceptions are result values: `Partitions.Outcome`, `PipelineShards.Shards`, or `None`.
- Logits, tensor elements and rows are abstract values; token losses and coordinates are reals.

Where code and documentation disagree, the model follows the code:

- A bucket's metadata is a dictionary keyed by name, so a name that occurs twice in one bucket loses
  a weight (`BucketPacking.DeliveredExactly`, `RepeatedNameIsLost`, and the conditions of the two refinement
  theorems).
- `rearrange_micro_batches` documents `max_token_len` as a cap on each micro-batch; it only
  determines how many there are (`MicroBatches.TokenCapCanFail`). The count alone guarantees the cap
  exactly when it is one, or one per row (`TokenCapExactly`); for a given batch `TokenCapFromBalance`
  has a test that a caller can make.
- `get_dynamic_pipeline_shards` can raise IndexError on a valid request
  (`PipelineShards.SearchCanFail`; `SearchFinds` has the exact condition).
- With interleaving and only a last-stage size given, `get_transformer_layer_offset` gives ranks 0
  and 1 the same layers (`LayerOffset.StagesCollide`; `OffsetIsPlace` has the exact condition).
- The offload handler keeps one host copy per storage address and element type, ignoring strides;
  tensors come back right exactly when those sharing a key agree element by element
  (`ActivationOffload.RoundTripExact`). The pass theorems assume that they do.
- With as many offload groups as layers, and more than one, the copies of groups after the first are
  issued before those groups have been saved (`ActivationOffload.OffloadsAfterSaving`), so that none of
  their tensors ever leaves the device (`ActivationHandler.OffDeviceExactly`); the pass theorems hold
  all the same.

## Model

| member | source | states |
|---|---|---|
| `BucketPacking.MetasInRange` | sdpo_verl/verl/checkpoint_engine/nccl_checkpoint_engine.py:255-261 | every offset in a bucket's metadata dictionary, with its size, lies inside the filled part of the bucket |
| `BucketPacking.PayloadSlice` | sdpo_verl/verl/checkpoint_engine/nccl_checkpoint_engine.py:251-262 | the bytes of the weight put in i-th are found at the offset recorded for it, so weights are contiguous and do not overlap |
| `BucketPacking.DeliveredExactly` | sdpo_verl/verl/checkpoint_engine/nixl_checkpoint_engine.py:393-399 | what a receiver reads through the dictionary is exactly what was put in, if and only if no name repeats; a repeated name costs one weight |
| `BucketPacking.ViewOfPrefix` | sdpo_verl/verl/checkpoint_engine/nixl_checkpoint_engine.py:454-458 | a receiver whose buffer starts with the bucket's bytes reads the same weights whatever the rest of its buffer holds |
| `BucketPacking.PackingSound` | sdpo_verl/verl/checkpoint_engine/nccl_checkpoint_engine.py:223-276 | greedy filling keeps every weight in order, never overfills a bucket, and any two neighbouring buckets together exceed the bucket size |
| `BucketPacking.PackingOptimal` | sdpo_verl/verl/checkpoint_engine/nccl_checkpoint_engine.py:229-249 | no order-preserving split into buckets of that size uses fewer buckets |
| `BucketPacking.BucketCountBound` | sdpo_verl/verl/checkpoint_engine/nccl_checkpoint_engine.py:229-249 | the number of buckets is at most twice the total size over the bucket size, plus one |
| `BucketPacking.StreamDeliveredExactly` | sdpo_verl/verl/checkpoint_engine/nccl_checkpoint_engine.py:223-276 | the whole stream is read back unchanged if and only if no bucket repeats a name; distinct names are enough |
| `BucketPacking.RepeatedNameIsLost` | sdpo_verl/verl/checkpoint_engine/nccl_checkpoint_engine.py:251-261 | any two weights of one name that fit into a bucket together do not both come back |
| `TransferPlan.PlanOfBucketsOk` | sdpo_verl/verl/checkpoint_engine/nixl_checkpoint_engine.py:363-409 | the payloads, metadata and expected yields of all buckets together form a plan whose last entry is the delivered stream |
| `TransferPlan.FillTakes` | sdpo_verl/verl/checkpoint_engine/nixl_checkpoint_engine.py:393-400 | putting a weight into the send buffer keeps buffer, dictionary and offset in step with the packing |
| `TransferPlan.FillFlushes` | sdpo_verl/verl/checkpoint_engine/nixl_checkpoint_engine.py:368-387 | what is in the buffer when the next weight does not fit is exactly bucket k of the packing, marked not last |
| `TransferPlan.FillEnds` | sdpo_verl/verl/checkpoint_engine/nixl_checkpoint_engine.py:402-409 | what is in the buffer after the last weight is exactly the last bucket of the packing, marked last |
| `TransferPlan.YieldAdvances` | sdpo_verl/verl/checkpoint_engine/nixl_checkpoint_engine.py:454-458 | each yield from a buffer that holds bucket k hands out the next weight of that bucket |
| `TransferPlan.AllArrived` | sdpo_verl/verl/checkpoint_engine/nixl_checkpoint_engine.py:202-223 | once every byte of a bucket has been copied, in whatever order, the receiving buffer starts with the payload |
| `NixlChain.RunsExist` | sdpo_verl/verl/checkpoint_engine/nixl_checkpoint_engine.py:254-275 | the chain has an initial state, so the theorems about runs speak of something |
| `NixlChain.InitInv` | sdpo_verl/verl/checkpoint_engine/nixl_checkpoint_engine.py:254-275 | the initial state of the chain satisfies the invariant |
| `NixlChain.SenderStepOk` | sdpo_verl/verl/checkpoint_engine/nixl_checkpoint_engine.py:341-410 | every step of rank 0 between two awaits keeps its part of the invariant |
| `NixlChain.ReceiverStepOk` | sdpo_verl/verl/checkpoint_engine/nixl_checkpoint_engine.py:414-492 | every step of a later rank between two awaits or yields keeps its part of the invariant |
| `NixlChain.SourceIntact` | sdpo_verl/verl/checkpoint_engine/nixl_checkpoint_engine.py:202-223 | while a transfer runs, the source rank has exactly that bucket outstanding and its buffer still holds it |
| `NixlChain.StepKeepsInv` | sdpo_verl/verl/checkpoint_engine/nixl_checkpoint_engine.py:341-492 | every step of every rank, every byte copied and every completed read keeps the invariant of the whole chain |
| `NixlChain.ChainSafety` | sdpo_verl/verl/checkpoint_engine/nixl_checkpoint_engine.py:161-164 | in every state of every run no assertion has failed (the notify key matches), adjacent ranks are at most one bucket apart with at most one message or notification in flight, and every receiver has yielded a prefix of the stream |
| `NixlChain.NoBufferReuse` | sdpo_verl/verl/checkpoint_engine/nixl_checkpoint_engine.py:368-400 | no step of any rank writes a buffer that is on offer to its successor or that is being yielded from |
| `NixlChain.NoWriteWhileRead` | sdpo_verl/verl/checkpoint_engine/nixl_checkpoint_engine.py:202-223 | as long as a successor is reading from a buffer, or holds a message that lets it begin, no step of any rank writes that buffer, and it holds the bytes of the bucket it was offered with |
| `NixlChain.UpstreamCanStep` | sdpo_verl/verl/checkpoint_engine/nixl_checkpoint_engine.py:427-451 | a rank waiting for a message waits on a predecessor that can itself make a step |
| `NixlChain.DownstreamCanStep` | sdpo_verl/verl/checkpoint_engine/nixl_checkpoint_engine.py:371-373 | a rank waiting for a notification waits on a successor that can itself make a step |
| `NixlChain.NeverStuck` | sdpo_verl/verl/checkpoint_engine/nixl_checkpoint_engine.py:363-492 | in every reachable state that is not finished some step is possible |
| `NixlChain.StepShrinksWork` | sdpo_verl/verl/checkpoint_engine/nixl_checkpoint_engine.py:363-492 | a global measure of remaining work falls with every step |
| `NixlChain.RunsAreBounded` | sdpo_verl/verl/checkpoint_engine/nixl_checkpoint_engine.py:363-492 | every run under every interleaving has at most a number of steps fixed by the configuration |
| `NixlChain.RunsDeliver` | sdpo_verl/verl/checkpoint_engine/nixl_checkpoint_engine.py:414-492 | a run that can go no further has finished at every rank and every receiver has yielded the buckets' contents in order |
| `NixlChain.RunsCanFinish` | sdpo_verl/verl/checkpoint_engine/nixl_checkpoint_engine.py:363-492 | every run, wherever its interleaving has taken it, can be continued to its end |
| `NixlChain.ChainRefinesYieldFrom` | sdpo_verl/verl/checkpoint_engine/base.py:133-140 | for any chain length, weights and interleaving, every receiver yields exactly the sent sequence, as `yield from` does, if and only if no bucket repeats a name; distinct names are enough |
| `NcclBroadcast.RunsExist` | sdpo_verl/verl/checkpoint_engine/nccl_checkpoint_engine.py:125-136 | the group has an initial state, so the theorems about runs speak of something |
| `NcclBroadcast.InitInv` | sdpo_verl/verl/checkpoint_engine/nccl_checkpoint_engine.py:125-136 | the initial state of the broadcast group satisfies the invariant |
| `NcclBroadcast.StepKeepsInv` | sdpo_verl/verl/checkpoint_engine/nccl_checkpoint_engine.py:71-90 | every step of every coroutine and every background thread keeps the invariant |
| `NcclBroadcast.BroadcastSafety` | sdpo_verl/verl/checkpoint_engine/nccl_checkpoint_engine.py:205-339 | in every state of every run no assertion has failed, rank 0 and each receiver are at most one collective call apart, and each receiver has yielded a prefix of the stream |
| `NcclBroadcast.MetadataPairsWithPayload` | sdpo_verl/verl/checkpoint_engine/nccl_checkpoint_engine.py:71-90 | when a receiver's j-th broadcast completes, its metadata is that of bucket j and its buffer holds the bytes of bucket j |
| `NcclBroadcast.NoBufferReuse` | sdpo_verl/verl/checkpoint_engine/nccl_checkpoint_engine.py:229-261 | no step writes rank 0's buffer while it is being broadcast, or a buffer that a receiver is yielding from |
| `NcclBroadcast.BuffersApart` | sdpo_verl/verl/checkpoint_engine/nccl_checkpoint_engine.py:229-261 | in every state of every run the buffer a coroutine fills or yields from is a different one from the buffer its background thread sends from or receives into |
| `NcclBroadcast.NeverStuck` | sdpo_verl/verl/checkpoint_engine/nccl_checkpoint_engine.py:219-339 | in every reachable state that is not finished some step is possible |
| `NcclBroadcast.StepShrinksWork` | sdpo_verl/verl/checkpoint_engine/nccl_checkpoint_engine.py:219-339 | a global measure of remaining work falls with every step |
| `NcclBroadcast.RunsAreBounded` | sdpo_verl/verl/checkpoint_engine/nccl_checkpoint_engine.py:219-339 | every run under every interleaving of threads and coroutines is bounded |
| `NcclBroadcast.RunsDeliver` | sdpo_verl/verl/checkpoint_engine/nccl_checkpoint_engine.py:288-339 | a run that can go no further has finished everywhere and each receiver has yielded the buckets' contents in order |
| `NcclBroadcast.RunsCanFinish` | sdpo_verl/verl/checkpoint_engine/nccl_checkpoint_engine.py:219-339 | every run, wherever its interleaving has taken it, can be continued to its end |
| `NcclBroadcast.BroadcastRefinesYieldFrom` | sdpo_verl/verl/checkpoint_engine/base.py:133-140 | every receiver yields exactly the sent sequence if and only if no bucket repeats a name; distinct names are enough |
| `BucketSender.PackSnoc` | sdpo_verl/verl/checkpoint_engine/nixl_checkpoint_engine.py:363-400 | packing one more weight changes only the last bucket or opens a new one |
| `BucketSender.Sender.Flush` | sdpo_verl/verl/checkpoint_engine/nixl_checkpoint_engine.py:375-387 | offers the filled array with its metadata, swaps the two arrays and starts an empty bucket |
| `BucketSender.Sender.Add` | sdpo_verl/verl/checkpoint_engine/nixl_checkpoint_engine.py:363-400 | one turn of the loop adds one weight to the packing, or reports that it is larger than a bucket; a full bucket is offered first either way |
| `BucketSender.Sender.SendWeights` | sdpo_verl/verl/checkpoint_engine/nixl_checkpoint_engine.py:361-411 | succeeds exactly when every weight fits a bucket, and then the offers are the packing, bucket by bucket; otherwise stops at the first weight that is too large |
| `ActivationOffload.WindowGap` | sdpo_verl/verl/utils/activation_offload.py:250-257 | consecutive windows are q or q + 1 layers apart, q + 1 for the first r of them, and strictly increasing |
| `ActivationOffload.WindowBounds` | sdpo_verl/verl/utils/activation_offload.py:250-257 | every window lies in range and the last one is the last layer |
| `ActivationOffload.WindowIncreases` | sdpo_verl/verl/utils/activation_offload.py:250-257 | windows strictly increase |
| `ActivationOffload.OffloadsAfterSaving` | sdpo_verl/verl/utils/activation_offload.py:319-345 | every group whose copy is issued at the end of the window before it has been saved by then if and only if there are fewer groups than layers or only one group |
| `ActivationOffload.CallerWindow` | sdpo_verl/verl/utils/activation_offload.py:543 | with one group fewer than layers, as the caller sets it, group i's window is layer i + 1 |
| `ActivationOffload.RoundTripExact` | sdpo_verl/verl/utils/activation_offload.py:298-371 | offloading a group and reloading it from the mapping the handler kept, whichever tensor it kept for a key, restores shape and elements of every tensor of the group if and only if tensors sharing a key have the same elements in row-major order |
| `ActivationOffload.TransposeIsLost` | sdpo_verl/verl/utils/activation_offload.py:309-311 | a matrix and its transpose saved as views of the same storage do not both come back |
| `ActivationHandler.PushOk` | sdpo_verl/verl/utils/activation_offload.py:263-283 | a push gets a tag not in use and keeps the three dictionaries and the counters in agreement |
| `ActivationHandler.PopFindsTensor` | sdpo_verl/verl/utils/activation_offload.py:285-296 | the tag of a layer running backward is in the dictionary, holds a tensor and not a host reference, and that tensor equals the one pushed |
| `ActivationHandler.PopOk` | sdpo_verl/verl/utils/activation_offload.py:285-296 | a pop keeps the dictionaries in agreement, and the last pop of a pass returns to the initial state |
| `ActivationHandler.OffloadRecoverable` | sdpo_verl/verl/utils/activation_offload.py:298-317 | moving a group to the host keeps every pushed tensor recoverable |
| `ActivationHandler.CommitForwardOk` | sdpo_verl/verl/utils/activation_offload.py:319-352 | a forward commit keeps the whole invariant |
| `ActivationHandler.DroppedOnlyWhenIssued` | sdpo_verl/verl/utils/activation_offload.py:335-338 | a buffer reference is dropped only when its group's copy has been issued, and with fewer groups than layers every such tensor is then a host reference |
| `ActivationHandler.OffDeviceExactly` | sdpo_verl/verl/utils/activation_offload.py:319-345 | at any moment of any pass a saved tensor is off the device exactly when its group lies between the issue of its copy and its reload and, with as many groups as layers, its group is the first |
| `ActivationHandler.ReloadRecoverable` | sdpo_verl/verl/utils/activation_offload.py:354-371 | bringing a group back keeps every pushed tensor recoverable |
| `ActivationHandler.ReloadPossible` | sdpo_verl/verl/utils/activation_offload.py:373-387 | at a backward commit the window lookup succeeds, it fires exactly when a reload is due, and then the group's mapping is present |
| `ActivationHandler.CommitBackwardOk` | sdpo_verl/verl/utils/activation_offload.py:373-395 | a backward commit keeps the whole invariant and, once nothing is left, ends in the initial state |
| `ActivationHandler.AtMostTwoResident` | sdpo_verl/verl/utils/activation_offload.py:500-504 | with one group fewer than layers, only the current group and the one before it can be on the device |
| `ActivationHandler.KeptAlive` | sdpo_verl/verl/utils/activation_offload.py:276-277 | a tensor whose copy to the host the compute stream has not waited for still has its buffer reference |
| `ActivationHandler.PopSettled` | sdpo_verl/verl/utils/activation_offload.py:294-296 | a tensor whose layer runs backward is not one the compute stream still has to wait for on its way back |
| `ActivationHandler.CommitForwardSynced` | sdpo_verl/verl/utils/activation_offload.py:319-345 | with its three waits a forward commit keeps the order of the streams: at most the group of the next window is on its way out, and after the last commit none |
| `ActivationHandler.CommitBackwardSynced` | sdpo_verl/verl/utils/activation_offload.py:373-395 | with its three waits a backward commit keeps the order of the streams: only the group brought back last can be on its way in, its layer has not been reached, and at the first layer nothing is outstanding |
| `ActivationHandler.Handler.constructor` | sdpo_verl/verl/utils/activation_offload.py:228-257 | the window table is the closed form and the handler starts at rest |
| `ActivationHandler.Handler.BulkOffloadGroup` | sdpo_verl/verl/utils/activation_offload.py:298-317 | every tensor of the group becomes a host reference and the mapping kept holds one copy per storage key; nothing else changes; the tensors copied must have been computed before |
| `ActivationHandler.Handler.BulkReloadGroup` | sdpo_verl/verl/utils/activation_offload.py:354-371 | every host reference of the group becomes a tensor with the copied elements in its own shape, and the mapping is removed; the host copies read must be complete |
| `ActivationHandler.Handler.TensorPush` | sdpo_verl/verl/utils/activation_offload.py:263-283 | the new state of a push, and the handle it returns |
| `ActivationHandler.Handler.TensorPop` | sdpo_verl/verl/utils/activation_offload.py:285-296 | returns a tensor equal to the one pushed under the handle, whose copy is complete, and removes it |
| `ActivationHandler.Handler.SlideWindow` | sdpo_verl/verl/utils/activation_offload.py:328-345 | at the end of a window: the streams wait for each other, references are dropped once no copy reads them, the next group's copy is issued, the counter advances |
| `ActivationHandler.Handler.OnGroupCommitForward` | sdpo_verl/verl/utils/activation_offload.py:319-352 | the new state of a forward commit, waits included; no assertion or lookup fails, and no copy is issued or reference dropped before the waits allow it |
| `ActivationHandler.Handler.OnGroupCommitBackward` | sdpo_verl/verl/utils/activation_offload.py:373-395 | the new state of a backward commit, waits included; no assertion or lookup fails, and only complete host copies are read |
| `ActivationPasses.ForwardLayer` | sdpo_verl/verl/utils/activation_offload.py:263-283 | all pushes of one layer, offloaded or not, in order |
| `ActivationPasses.BackwardLayer` | sdpo_verl/verl/utils/activation_offload.py:285-296 | the pops of one layer, in any order, return tensors equal to those pushed |
| `ActivationPasses.RunPass` | sdpo_verl/verl/utils/activation_offload.py:111-131 | a full forward and backward pass returns every pushed tensor, whatever the order of the pops within each layer, and ends in the initial state with no copy outstanding |
| `ActivationPasses.Train` | sdpo_verl/verl/utils/activation_offload.py:221-395 | for any number of groups up to the number of layers, any pushes per layer, any order of the pops within a layer and any number of passes, every pop equals its push, its copy is complete by then, and no assertion or lookup fails |
| `BalancedSets.SetLessTotal` | sdpo_verl/verl/utils/seqlen_balancing.py:87-92 | the order on sets is total, so sorting sets has one result |
| `BalancedSets.SortDescSorts` | sdpo_verl/verl/utils/seqlen_balancing.py:102 | sorting gives a permutation in descending order |
| `BalancedSets.MergeOk` | sdpo_verl/verl/utils/seqlen_balancing.py:113-116 | a merged tuple is again k well-formed sets in descending order |
| `BalancedSets.MergeSpread` | sdpo_verl/verl/utils/seqlen_balancing.py:113-120 | merging largest with smallest never spreads wider than the wider of the two tuples |
| `BalancedSets.MergeBag` | sdpo_verl/verl/utils/seqlen_balancing.py:113-116 | a merge neither loses nor duplicates an item |
| `BalancedSets.EmptyLast` | sdpo_verl/verl/utils/seqlen_balancing.py:87-92 | ties on the sum are broken by size, so empty sets come last even among zero-valued items |
| `BalancedSets.MergeFilled` | sdpo_verl/verl/utils/seqlen_balancing.py:113-116 | tuples with p and q non-empty sets merge into one with min(k, p + q) |
| `BalancedSets.MergeAllSize` | sdpo_verl/verl/utils/seqlen_balancing.py:113-116 | tuples whose sets have m and n items each merge into one whose sets have m + n each |
| `Differencing.LeastIsLeast` | sdpo_verl/verl/utils/seqlen_balancing.py:122-128 | the popped tuple is a least one in the heap's order |
| `Differencing.NoTies` | sdpo_verl/verl/utils/seqlen_balancing.py:122-128 | tuples over different items never tie, so the pop does not depend on the heap's layout |
| `Differencing.PopIsForced` | sdpo_verl/verl/utils/seqlen_balancing.py:158-160 | in a queue without repeated items and empty tuples, the popped tuple is the only one no other precedes |
| `Differencing.NextUnrepeated` | sdpo_verl/verl/utils/seqlen_balancing.py:158-163 | a round keeps the queue free of repeated items and empty tuples |
| `Differencing.DifferenceOk` | sdpo_verl/verl/utils/seqlen_balancing.py:158-165 | the last tuple's spread is at most the widest spread in the queue |
| `Differencing.DifferenceCounts` | sdpo_verl/verl/utils/seqlen_balancing.py:158-165 | the last tuple holds every item as often as the queue did |
| `Differencing.DifferenceFilled` | sdpo_verl/verl/utils/seqlen_balancing.py:158-165 | with at least k non-empty sets in the queue, no set of the last tuple is empty |
| `Differencing.DifferenceEven` | sdpo_verl/verl/utils/seqlen_balancing.py:158-165 | if every tuple's sets have equal sizes, so do those of the last tuple |
| `StartingTuples.SortItemsSorts` | sdpo_verl/verl/utils/seqlen_balancing.py:144 | items are sorted by value, ties by index |
| `StartingTuples.SinglesAre` | sdpo_verl/verl/utils/seqlen_balancing.py:155-156 | one tuple per item, holding exactly the items |
| `StartingTuples.BlocksAre` | sdpo_verl/verl/utils/seqlen_balancing.py:146-153 | one tuple per run of k items, holding exactly the items |
| `StartingTuples.BlocksOk` | sdpo_verl/verl/utils/seqlen_balancing.py:146-153 | each such tuple spreads no wider than its run of sorted values |
| `KarmarkarKarp.StartUnrepeated` | sdpo_verl/verl/utils/seqlen_balancing.py:144-156 | the starting queue repeats no item and has no empty tuple, so every pop of the run is forced |
| `KarmarkarKarp.Succeeds` | sdpo_verl/verl/utils/seqlen_balancing.py:144-172 | partitioning succeeds exactly on a non-empty list, a positive k and, for equal sizes, a length that k divides |
| `KarmarkarKarp.EqualSizes` | sdpo_verl/verl/utils/seqlen_balancing.py:167-171 | with equal sizes every part has n / k items, so the final assertion never fires |
| `KarmarkarKarp.CoversOnce` | sdpo_verl/verl/utils/seqlen_balancing.py:104-111 | there are k parts and they contain each index exactly once |
| `KarmarkarKarp.NoneEmpty` | sdpo_verl/verl/utils/seqlen_balancing.py:144-172 | with at least k items no part is empty, zero-valued items included |
| `KarmarkarKarp.LoadsClose` | sdpo_verl/verl/utils/seqlen_balancing.py:144-172 | no two loads differ by more than the largest item, or with equal sizes by more than the widest sorted run of k items |
| `KarmarkarKarp.NearAverage` | sdpo_verl/verl/utils/seqlen_balancing.py:144-172 | k times any load is at most the total plus (k - 1) times that width |
| `KarmarkarKarp.NearOptimal` | sdpo_verl/verl/utils/seqlen_balancing.py:52-57 | against every assignment of the items to k parts: k times any load is at most 2k - 1 times its largest load |
| `PartitionRun.ItemSet.Add` | sdpo_verl/verl/utils/seqlen_balancing.py:78-80 | the set's new items and sum |
| `PartitionRun.ItemSet.Merge` | sdpo_verl/verl/utils/seqlen_balancing.py:82-85 | the other set's items are appended and its values added |
| `PartitionRun.SortSets` | sdpo_verl/verl/utils/seqlen_balancing.py:102 | sorts the same set objects into the one descending order |
| `PartitionRun.State.constructor` | sdpo_verl/verl/utils/seqlen_balancing.py:95-102 | a state seats its items, one per set, and sorts |
| `PartitionRun.State.Merge` | sdpo_verl/verl/utils/seqlen_balancing.py:113-116 | merges in place, largest with smallest, and sorts again |
| `PartitionRun.PopLeast` | sdpo_verl/verl/utils/seqlen_balancing.py:159-160 | pops the least state and leaves the others |
| `PartitionRun.MergeTwo` | sdpo_verl/verl/utils/seqlen_balancing.py:158-163 | one round of the loop: two pops, a merge, a push |
| `PartitionRun.GetPartitions` | sdpo_verl/verl/utils/seqlen_balancing.py:104-111 | reads the indices out of the sets |
| `PartitionRun.Run` | sdpo_verl/verl/utils/seqlen_balancing.py:144-172 | `karmarkar_karp` with its mutable sets and states computes the partition function, exceptions included |
| `BalancedPartitions.BalancedSucceeds` | sdpo_verl/verl/utils/seqlen_balancing.py:239-254 | a call succeeds exactly when 1 <= k <= n and, for equal sizes, k divides n: past the entry checks no assertion fires |
| `BalancedPartitions.BalancedParts` | sdpo_verl/verl/utils/seqlen_balancing.py:222-233 | the parts returned are k, non-empty, each index once, ascending, and n / k each when asked for |
| `BalancedPartitions.BalancedNearOptimal` | sdpo_verl/verl/utils/seqlen_balancing.py:213-220 | the returned loads are within 2 - 1/k of every assignment's largest load |
| `BalancedPartitions.CheckAndSort` | sdpo_verl/verl/utils/seqlen_balancing.py:241-251 | the checking loop with its set of seen indices |
| `BalancedPartitions.GetBalanced` | sdpo_verl/verl/utils/seqlen_balancing.py:239-254 | `get_seqlen_balanced_partitions` itself |
| `Partitions.LoadsTotal` | sdpo_verl/verl/utils/seqlen_balancing.py:104-111 | any partition that holds each index once conserves the total |
| `Partitions.EveryAssignment` | sdpo_verl/verl/utils/seqlen_balancing.py:52-57 | the largest load of any assignment is at least the average and at least every item |
| `GreedyPartition.GivenOnce` | sdpo_verl/verl/utils/seqlen_balancing.py:198-204 | each item is given to exactly one part |
| `GreedyPartition.SumIsLoad` | sdpo_verl/verl/utils/seqlen_balancing.py:194-204 | a running sum is the part's load plus one bias for each of its items |
| `GreedyPartition.PicksFewest` | sdpo_verl/verl/utils/seqlen_balancing.py:194-204 | with the bias, the part picked has the fewest items |
| `GreedyPartition.GreedyNearAverage` | sdpo_verl/verl/utils/seqlen_balancing.py:194-204 | without the bias no two loads differ by more than the largest item, and k times any load is at most the total plus (k - 1) times it |
| `GreedyPartition.GreedyNearOptimal` | sdpo_verl/verl/utils/seqlen_balancing.py:194-204 | without the bias, k times any load is at most (2k - 1) times the largest load of any assignment whatever |
| `GreedyPartition.GreedySucceeds` | sdpo_verl/verl/utils/seqlen_balancing.py:205-209 | the equal-size assertion fires exactly when k does not divide the number of items |
| `GreedyPartition.GiveOne` | sdpo_verl/verl/utils/seqlen_balancing.py:199-204 | one item appended to the part with the least sum, in place |
| `GreedyPartition.Run` | sdpo_verl/verl/utils/seqlen_balancing.py:194-210 | `greedy_partition` over its two lists |
| `MicroBatches.CeilDivIsLeast` | sdpo_verl/verl/utils/seqlen_balancing.py:305-324 | the least count whose b-fold covers a |
| `MicroBatches.RoundUpIsLeastMultiple` | sdpo_verl/verl/utils/seqlen_balancing.py:327-345 | the least multiple of b not below a |
| `MicroBatches.MicroCountEnough` | sdpo_verl/verl/utils/seqlen_balancing.py:385-396 | the count covers all tokens and meets every option: minimum, other ranks, divisibility |
| `MicroBatches.PeakedRises` | sdpo_verl/verl/utils/seqlen_balancing.py:404-414 | reordering puts the heaviest in the middle: workloads rise to one peak and then fall |
| `MicroBatches.PeakedFlatten` | sdpo_verl/verl/utils/seqlen_balancing.py:414 | reordering keeps every row |
| `MicroBatches.RearrangeSucceeds` | sdpo_verl/verl/utils/seqlen_balancing.py:382-402 | succeeds exactly when the widest row fits, nothing divides by zero and the count lies between one and the number of rows |
| `MicroBatches.RearrangeCovers` | sdpo_verl/verl/utils/seqlen_balancing.py:401-422 | the micro-batches hold every row once, are as many as counted, and when balanced their workloads rise and then fall |
| `MicroBatches.RearrangeBounds` | sdpo_verl/verl/utils/seqlen_balancing.py:401-422 | no micro-batch is empty, and its tokens are bounded through the balance of workloads |
| `MicroBatches.TokenCapCanFail` | sdpo_verl/verl/utils/seqlen_balancing.py:362 | the documented cap on a micro-batch's tokens does not hold in general: three rows of three tokens under a cap of five |
| `MicroBatches.TokenCapAtTheEnds` | sdpo_verl/verl/utils/seqlen_balancing.py:362 | it does hold for every batch whose count comes out as a single micro-batch or as one per row |
| `MicroBatches.TokenCapExactly` | sdpo_verl/verl/utils/seqlen_balancing.py:362-422 | the cap holds for all batches of n rows whose count comes out as k if and only if k is 1 or n; for every k in between a batch of multiples of k breaks it |
| `MicroBatches.TokenCapFromBalance` | sdpo_verl/verl/utils/seqlen_balancing.py:362-422 | for a single batch the cap holds when the total workload and the widest row, all known before the call, leave no room for one token more |
| `BatchRestore.ReverseInverts` | sdpo_verl/verl/utils/seqlen_balancing.py:425-440 | the result sends every idx[i] back to i if and only if the map repeats no index |
| `BatchRestore.GetReverseIdx` | sdpo_verl/verl/utils/seqlen_balancing.py:425-440 | the copy written in place, and the failure on an index past the end |
| `BatchRestore.PermutationIs` | sdpo_verl/verl/utils/seqlen_balancing.py:425-440 | a permutation of 0 .. n-1 is in range, injective and onto |
| `BatchRestore.RestoreUndoesSplit` | sdpo_verl/verl/utils/seqlen_balancing.py:482-505 | for any split that holds every row once, restoring the concatenated per-row results is the per-row function on the whole batch |
| `BatchRestore.DynamicBatchRoundTrip` | sdpo_verl/verl/utils/seqlen_balancing.py:443-505 | dynamic micro-batching followed by restoring is invisible, whatever the lengths, options and order |
| `BatchRestore.RearrangeMicroBatches` | sdpo_verl/verl/utils/seqlen_balancing.py:348-422 | `rearrange_micro_batches` itself, with every error branch |
| `BatchRestore.RestoreDynamicBatch` | sdpo_verl/verl/utils/seqlen_balancing.py:482-505 | `restore_dynamic_batch` itself |
| `Unpadding.NonZeroIs` | sdpo_verl/verl/utils/npu_flash_attn_utils.py:115 | the kept positions are exactly the valid ones, in order |
| `Unpadding.NextKept` | sdpo_verl/verl/utils/npu_flash_attn_utils.py:115 | neighbouring valid positions are neighbours among the kept tokens |
| `Unpadding.PadBackUnpad` | sdpo_verl/verl/utils/npu_flash_attn_utils.py:81-129 | padding back restores every valid token and leaves zeros elsewhere |
| `Unpadding.IndexPutFirstAxis` | sdpo_verl/verl/utils/npu_flash_attn_utils.py:58-66 | the in-place write of values at indices into zeros |
| `SequenceParallel.PadSizeDivides` | sdpo_verl/verl/utils/ulysses.py:278-295 | the padded length is a multiple of the number of ranks |
| `SequenceParallel.GatherSlices` | sdpo_verl/verl/utils/ulysses.py:117-130 | every token reaches exactly one rank: gathering the slices gives the row back |
| `SequenceParallel.PadSliceGatherUnpad` | sdpo_verl/verl/utils/ulysses.py:243-330 | pad, slice, gather and unpad is the identity for any length and number of ranks |
| `PackedLoss.RanksTogether` | sdpo_verl/verl/trainer/fsdp_sft_trainer.py:441-446 | the losses the ranks compute on their slices, gathered and unpadded, are the losses of the whole packed row |
| `PackedLoss.LabelOf` | sdpo_verl/verl/trainer/fsdp_sft_trainer.py:426-431 | after the roll, a kept token's label is the id of its neighbour when that is valid, and otherwise the id of some valid token |
| `PackedLoss.LossPutBack` | sdpo_verl/verl/trainer/fsdp_sft_trainer.py:448-452 | the loss put back for a token: zero if invalid, else against that label |
| `PackedLoss.PackedIsPlain` | sdpo_verl/verl/trainer/fsdp_sft_trainer.py:386-455 | the sequence-parallel packed loss equals the plain padded loss at every position, for any criterion, mask, number of ranks and model whose logits agree on valid tokens |
| `PackedLoss.MaskNeeded` | sdpo_verl/verl/trainer/fsdp_sft_trainer.py:386-455 | where a counted token or its predecessor is invalid, some ids and criterion make the two paths differ |
| `PackedLoss.PathsAgreeExactly` | sdpo_verl/verl/trainer/fsdp_sft_trainer.py:386-455 | the two paths agree on all ids, logits and criteria if and only if every counted token and its predecessor are valid |
| `PackedLoss.RanksRunModel` | sdpo_verl/verl/trainer/fsdp_sft_trainer.py:422-439 | a model that works token by token, run on every rank's slice, is that model run on the packed row |
| `PackedLoss.PerTokenModel` | sdpo_verl/verl/trainer/fsdp_sft_trainer.py:386-455 | with such a model the packed loss is the padded loss, whatever the padding |
| `PackedLoss.RmpadAgrees` | sdpo_verl/verl/utils/torch_functional.py:598-638 | packed and padded response log-probabilities agree on every valid token after a valid token; after an invalid one the packed value is zero |
| `LayerLayout.PlaceInRange` | sdpo_verl/verl/model_merger/megatron_model_merger.py:358-386 | every stage-local layer gets a number in range |
| `LayerLayout.LayerHasPlace` | sdpo_verl/verl/model_merger/megatron_model_merger.py:358-386 | every number belongs to some stage-local layer |
| `LayerLayout.PlacesDiffer` | sdpo_verl/verl/model_merger/megatron_model_merger.py:358-386 | no two stage-local layers share a number |
| `PipelineShards.FitsExactly` | sdpo_verl/verl/model_merger/megatron_model_merger.py:83-87 | a middle size is accepted exactly when it is at least the rounded-up average and leaves the ends two layers |
| `PipelineShards.CandidatesAre` | sdpo_verl/verl/model_merger/megatron_model_merger.py:82-93 | what the search has collected after any number of sizes: nothing, or the rounded-up average first and only worse ones after it |
| `PipelineShards.SearchFinds` | sdpo_verl/verl/model_merger/megatron_model_merger.py:81-96 | for three stages or more a layout is found exactly when layers - ceil(layers / pp) * (pp - 2) >= 2, and it is the closed form |
| `PipelineShards.SearchCanFail` | sdpo_verl/verl/model_merger/megatron_model_merger.py:65 | the promise of a layout as uniform as possible can end in an IndexError: five layers on four ranks |
| `PipelineShards.ShardsAreValid` | sdpo_verl/verl/model_merger/megatron_model_merger.py:57-97 | whatever is returned has one positive size per rank, adds up to all layers, and has ends no larger than the middle |
| `PipelineShards.GetDynamicPipelineShards` | sdpo_verl/verl/model_merger/megatron_model_merger.py:57-97 | `get_dynamic_pipeline_shards` itself |
| `LayerOffset.OffsetIsPlace` | sdpo_verl/verl/utils/megatron_utils.py:1054-1196 | on a configuration that divides, the offset is where the layout puts the stage, if and only if it is not the interleaved uneven branch past rank 0 without a first stage size or a middle stage |
| `LayerOffset.StagesCollide` | sdpo_verl/verl/utils/megatron_utils.py:1131-1146 | in that branch, with only a last stage size given, ranks 0 and 1 start at the same layer, from two stages on |
| `LayerOffset.LayersInRange` | sdpo_verl/verl/utils/megatron_utils.py:1054-1196 | offset plus local layer is a layer number in range |
| `LayerOffset.LayersOnto` | sdpo_verl/verl/utils/megatron_utils.py:1054-1196 | every layer number is the offset of some stage plus a local layer of it |
| `LayerOffset.LayersOneToOne` | sdpo_verl/verl/utils/megatron_utils.py:1054-1196 | (stage, rank, local layer) to offset plus local is one to one |
| `LayerOffset.MergerOffset` | sdpo_verl/verl/model_merger/megatron_model_merger.py:232-240 | for every layout the search returns, a rank's offset is the sum of the sizes of the ranks before it |
| `LayerOffset.MergedLayers` | sdpo_verl/verl/model_merger/megatron_model_merger.py:358-386 | renumbered by those sums, every layer comes from exactly one rank and local number |
| `QkvLayout.InterleaveRegroup` | sdpo_verl/verl/model_merger/megatron_model_merger.py:330-354 | interleaving queries, keys and values again gives the fused weight back |
| `QkvLayout.InterleaveTaken` | sdpo_verl/verl/model_merger/megatron_model_merger.py:330-354 | for every weight of m groups, interleaving what was taken apart gives the weight back |
| `QkvLayout.RegroupConcat` | sdpo_verl/verl/utils/megatron_utils.py:866-880 | taking shards apart one after the other is taking their concatenation apart |
| `QkvLayout.GroupsOfShards` | sdpo_verl/verl/utils/megatron_utils.py:866-880 | cutting every shard into its groups and cutting the full weight give the same groups in the same order |
| `QkvLayout.DerivedSizes` | sdpo_verl/verl/model_merger/megatron_model_merger.py:333-343 | the sizes derived from the row count are the head sizes, and the divisibility assertion holds |
| `QkvLayout.SplitTensors` | sdpo_verl/verl/model_merger/megatron_model_merger.py:330-354 | the merger's split of a weight of the right number of rows is the reference split |
| `QkvLayout.TpConcat` | sdpo_verl/verl/utils/megatron_utils.py:848-881 | the split of every tensor-parallel shard followed by concatenation is the reference split of the full weight |
| `QkvLayout.ConvertQkvShard` | sdpo_verl/verl/utils/megatron_utils.py:635-660 | the conversion of the full weight, shard by shard, when there are at least tp key-value heads, is the reference split of it into the given number of query groups, whether or not that is the number of key-value heads |
| `QkvLayout.TakeApartThreeWays` | sdpo_verl/verl/utils/megatron_utils.py:848-881 | the three agree on every weight, and the result interleaves back to the full weight |
| `BoundingBox.FitCovers` | sdpo_verl/verl/tools/image_zoom_in_tool.py:249-257 | each scale-down keeps the shape and still covers the clamped box |
| `BoundingBox.ShiftCovers` | sdpo_verl/verl/tools/image_zoom_in_tool.py:259-276 | the shifts keep the enlarged side in the image and over the clamped side |
| `BoundingBox.ResizeIsSafe` | sdpo_verl/verl/tools/image_zoom_in_tool.py:205-297 | every returned box lies in the image, contains the clamped request, has both sides at least 28 on the pixel grid and an aspect ratio of at most 100 |
| `BoundingBox.LargeBoxKept` | sdpo_verl/verl/tools/image_zoom_in_tool.py:233-297 | a clamped request that is valid and large enough is returned unchanged |
| `BoundingBox.SmallBoxEnlarged` | sdpo_verl/verl/tools/image_zoom_in_tool.py:233-297 | a valid request that is too small is enlarged and returned if the image has room and one side is at most 99 times the other |
| `BoundingBox.TinyImage` | sdpo_verl/verl/tools/image_zoom_in_tool.py:287-295 | an image with a side below 28 never yields a box |
| `BoundingBox.MaybeResizeBbox` | sdpo_verl/verl/tools/image_zoom_in_tool.py:205-297 | `_maybe_resize_bbox` itself, step by step |

## Left out

- Sockets, NIXL, NCCL, CUDA streams and Ray: reliable FIFO messages, a rendezvous broadcast, and copies that finish at a later step. Failures of the transport are not modelled.
- Trainer ranks below 0, which only drain the generator.
- Consumers that keep a yielded view after asking for the next one: the model copies at the yield.
- `get_notification` reuses its parameter name as a loop variable; with the one successor a rank has, this makes no difference and the model has one notification queue per rank.
- Timing, logging, bandwidth figures, dtype conversion and pinned memory.
- `SynchronizedGroupOffloadHandler`'s own push and pop, which the asynchronous handler overrides, and the checkpointing wrapper around it: only the order of pushes, commits and pops it produces is modelled.
- Copies of the offload handler take their values where they are issued. That the stream waits put every use after the copy it needs is proved on sets of tags (`ActivationStreams`), on the assumption that a saved tensor is not overwritten; the allocator's own care for memory released while another stream uses it is not modelled.
- Fake and functional tensors and the parameter filter: they are the `offload` flag of an activation.
- Sequence lengths and workloads below zero: the balancing theorems assume none.
- Strings of `log_seqlen_unbalance` and `get_group_balanced_partitions`: reports and a variant over groups that adds no new argument.
- The all-reduce over data-parallel ranks in `rearrange_micro_batches`: the largest count of the other ranks is a parameter.
- PackedLoss.RmpadAgrees: response lengths 0 and above seqlen - 1, where the padded function's slices have different lengths and its call fails.
- Averaging of the loss over valid tokens, micro-batches and ranks, and the backward pass of the collectives.
- Attention: the padded and packed logits are only assumed to agree on valid tokens; a model that works token by token is the instance proved.
- Custom pipeline layouts and the embedding and loss options of the layer offset, which need libraries that are not part of the repository.
- LayerOffset.OffsetIsPlace: configurations whose layers do not divide evenly over stages and rounds; the program itself gives them no layout.
- QkvLayout.ConvertQkvShard: weights that do not divide evenly into tensor-parallel ranks and query groups.
- The branch of `convert_qkv_shard` for fewer key-value heads than tensor-parallel ranks.
- Renaming of keys in `_merge_state_dicts` other than the layer number, and the gate and up projections.
- Rounding of floating-point coordinates in the bounding box; coordinates that are not numbers.
- BoundingBox.SmallBoxEnlarged: says nothing when the image forces the box to be scaled down or the ratio is between 99 and 100, where rounding to pixels decides.
- Schedulers, trackers, tools that call services, configuration, tokenizers, file systems and flop counts.
