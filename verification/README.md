# Sandook in Dafny

Sandook aggregates SSDs into one log-structured, replicated virtual disk. This project models
the parts of it that carry unbounded guarantees and proves those guarantees for every input,
every run or every reachable state:

- the Greenwald-Khanna quantile summary (`GkSummary`) and the t-digest (`TDigest`);
- the slab allocator: the intrusive free list inside raw memory (`RawMemory`, `FreePtrsList`), the
  allocator as a state machine over cores (`SlabModel`) and the allocator object that works on the
  bytes and refines it (`SlabMemory`, in `SlabAllocator.dfy`);
- the virtual disk: a state machine over all volumes, sectors, replicas and servers (`VirtualDisk`),
  the objects that supply its blocks (`BlockSupply`), the resolver, the collector and the sharding of
  requests (`DiskRequests`), and the resolvers of all volumes beside the running disk (`VolumeRuns`);
- one RPC flow with its credit window and its park/wake protocol (`RpcFlow`);
- the SSD latency model and the script that generates it (`DiskModel`, `ModelGenerator`), the
  profile-guided weights (`ProfileGuided`) and the read/write mode rotation (`RwIsolation`);
- client congestion control (`CongestionControl`) and full vectored transfers (`VectorIO`).

`Wrappers`, `Numbers`, `RealArithmetic` and `Sequences` hold shared result types and facts.

Conventions. Objects whose methods update fields are classes, with a `Valid()` invariant and
ghost histories (values observed, mappings discarded, windows installed, bytes transferred).
Concurrent protocols are state machines: one step per critical section, a `Next` relation, and a
`RunKeepsInv` lemma over every finite run. `double` is `real`; 64-bit totals are unbounded
integers; the two 32-bit RPC counters wrap. The network, the clock, devices, replies and random
choices are parameters or free choices of the step relation.

## Main results

- **Quantile summary.** After any inserts, `quantile` answers every phi in (0, 1] with an inserted value whose
  rank is within epsilon times n of the requested one (`SummarizeAndQuery`). It needs epsilon at most 1/4: above 1/2
  the first insert divides by zero, and between 1/4 and 1/2 the second steps before the first tuple
  (`FirstInsertsDefinedIff`); up to 1/4 every insert is defined (`EveryInsertDefined`).
- **Slab allocator.** Under any interleaving of cores each carved block is in exactly one place, caches stay bounded,
  live payloads are aligned, disjoint and large enough, and a valid request fails exactly when the core cache, the
  global list and the uncarved space cannot serve it. The object doing this inside raw memory never touches a live
  payload: what an owner wrote last is read back, and reallocation keeps the common prefix, whatever other cores
  allocate, free, reallocate or write meanwhile.
- **Virtual disk.** It refines an array of sectors: a returning read yields the last written data, for every pattern of
  refusals, retries, replica choices, garbage collection and trimming. No block is handed out twice over all volumes and
  cores, every replaced dirty mapping is discarded, and the collectors send no block twice and none that is in use; each
  discarded block is sent exactly once if and only if no round lacked a client it needed. The resolver objects of all
  volumes are proved to follow the state machine (`VolumeRuns`).
- **RPC flow.** No lost wakeup, call order, a window of 128 with wrapping counters, each call completed at most once
  and with its own answer; once the callers pause, every schedule comes to rest within a bound fixed by the state, and
  a flow at rest has completed every call. Closing can lose calls (`ClosingLosesACall` is such a run); it does if and
  only if requests are queued at the moment of closing (`ClosingLosesCallsIff`).
- **Scheduling.** Returned weights are a probability distribution that balances modelled latencies within
  a stated bound or follows modelled peaks; mode windows assign each server once, cover the write load and
  tile the ring.
- **Latency model.** Generated curves rise; on any rising curve the latency is monotone, at most 1050, and below
  1000 up to the peak exactly when the first point is below 1000, which a positive peak implies.
- **Congestion control, t-digest, vectored I/O.** Rate limits, spacing of decreases and recovery over whole runs;
  conservation, range and monotonicity of quantiles, and when they exceed the largest value; exactly-once in-order transfer.

## Where comments and code differ

The model follows the code.

- `sandook/scheduler/control_plane/rw_isolation_base.h:75-86` treats (0, 0) as "all mixed"; with traffic the counts
  always total the number of servers, so the branch is dead (asserted in `RwIsolation.RWIsolationBase.ComputeModes`).
- `scripts/generate_ssd_models.py:186` says "strictly below saturation"; the loop keeps points at saturation.
- `scripts/generate_ssd_models.py:245-246` describes an extrapolation by ten; `GetLatency` clamps to 1050 instead.
- `sandook/disk_model/disk_model.h:312` says "never above saturation"; the clamp is 5% above it.
- `sandook/scheduler/control_plane/profile_guided.h:75-79` says mixed mode; the code asks for the write-mode peak.
- `lib/tdigest/TDigest.h:315` speaks of returning min or max at the boundaries; the tail branch (lines 329-331)
  always returns max (`TDigest.TailIsMax`).
- `lib/tdigest/TDigest.h:371` starts max at the smallest positive double, so max is an upper bound for
  the means but not their maximum when all means are below it (`TDigest.NeverExceedsIff`, `TDigest.ZeroIsExceeded`).

## Model

| member | source | states |
|---|---|---|
| `GkSummary.DeltaFillsBudget` | lib/stmpct/gk.h:50-59 | the delta given to an interior tuple is always one less than the error budget, in both branches of the code |
| `GkSummary.InsertKeepsSummary` | lib/stmpct/gk.h:61-72 | inserting at the found index keeps the summary invariant: sorted, g sums to n, true ranks inside [rmin, rmax], g + delta within max(1, floor(2 epsilon n)), exact first and last tuples |
| `GkSummary.BandRange` | lib/stmpct/gk.h:109-114 | the computed limits are in range and are those of consecutive band tops |
| `GkSummary.ConstructBandLookup` | lib/stmpct/gk.h:102-121 | every index is in range and every delta gets the band whose closed-form interval contains it |
| `GkSummary.CompressThins` | lib/stmpct/gk.h:74-99 | compress only removes tuples, leaves rmin and rmax of every survivor unchanged, keeps first and last, and merges only below the budget |
| `GkSummary.ThinningKeepsSummary` | lib/stmpct/gk.h:74-99 | such a thinning still summarises the same observations |
| `GkSummary.SomeTupleAnswers` | lib/stmpct/gk.h:27-37 | for every rank within epsilon n of [1, n] some tuple passes the test of line 34 |
| `GkSummary.AnswerIsAccurate` | lib/stmpct/gk.h:27-37 | any tuple passing the test has at least r - en values at or below it and fewer than r + en below it; ranks far outside [1, n] are never answered |
| `GkSummary.FirstAnswer` | lib/stmpct/gk.h:30-35 | the scan returns the first tuple that passes, or the end |
| `GkSummary.SecondInsertSkipsCompress` | lib/stmpct/gk.h:15-22 | for every positive epsilon: the divisor of line 22 is zero exactly above 1/2, and it is non-zero and skips compress on the second insert exactly up to 1/4 |
| `GkSummary.FirstInsertsDefinedIff` | lib/stmpct/gk.h:21-25 | for every positive epsilon and every value: the first insert is defined exactly up to 1/2 (above, line 22 divides by zero), and the first two are defined exactly up to 1/4 (above, line 79 steps before the first tuple) |
| `GkSummary.EveryInsertDefined` | lib/stmpct/gk.h:21-25 | up to 1/4 every insert into every summary is defined |
| `GkSummary.Gk.constructor` | lib/stmpct/gk.h:15-19 | any positive epsilon gives an empty summary and the truncated 1 / (2 epsilon); the invariant the other operations rely on holds exactly for epsilon at most 1/4 |
| `GkSummary.Gk.Insert` | lib/stmpct/gk.h:21-25 | keeps the summary invariant over the values observed plus v; compresses exactly every floor(1/(2 epsilon)) inserts |
| `GkSummary.Gk.DoInsert` | lib/stmpct/gk.h:68-72 | places one tuple of weight 1 before the first value not below v |
| `GkSummary.Gk.Compress` | lib/stmpct/gk.h:74-99 | keeps the summary invariant; the new tuples are the banded merge of the old ones |
| `GkSummary.Gk.FindGroup` | lib/stmpct/gk.h:83-89 | the inner loop finds the run of strictly smaller bands and its weight |
| `GkSummary.Gk.CompressLoop` | lib/stmpct/gk.h:79-98 | the in-place nested loops compute the recursive banded merge |
| `GkSummary.Gk.Quantile` | lib/stmpct/gk.h:27-37 | answers exactly when data exists and the rank is near [1, n], with an observed value of accurate rank |
| `GkSummary.SummarizeAndQuery` | lib/stmpct/gk.h:21-37 | every sequence of at least one insert and every phi in (0, 1]: an inserted value within epsilon n of rank ceil(phi n) |
| `RawMemory.LoadStored` | sandook/mem/slab.cc:112-116 | a stored word reads back, and only its eight bytes change |
| `RawMemory.LoadFrame` | sandook/mem/slab.cc:21-25 | a write elsewhere does not change a word |
| `FreePtrsList.Push` | sandook/mem/slab.cc:32-53 | the list in memory represents the old stack plus the block; only one block of the list is written |
| `FreePtrsList.Pop` | sandook/mem/slab.cc:14-30 | returns the top of the stack and represents the rest, whose representation does not depend on the popped block |
| `FreePtrsList.RepFrame` | sandook/mem/slab.cc:14-53 | the representation lives only inside blocks the list holds |
| `FreePtrsList.FirstEmptySlot` | sandook/mem/slab.cc:42-47 | the slots in use are a prefix, so the first null slot is where the stack ends |
| `FreePtrsList.FillBatch` | sandook/mem/slab.cc:36-53 | a new head batch holds its link and otherwise null slots |
| `SlabModel.SlabShiftIsTight` | sandook/mem/slab.h:91-94 | the class is the smallest one whose payload fits |
| `SlabModel.MaxCacheEntriesIsQuotient` | sandook/mem/slab.h:100-103 | the cache bound is min(64, 32768 / 2^shift) |
| `SlabModel.InitialInv` | sandook/mem/slab.cc:58-61 | the fresh allocator satisfies the invariant |
| `SlabModel.RefilledCounts` | sandook/mem/slab.cc:83-105 | a refill leaves the core list empty exactly when the global list is empty and the uncarved space too small; other cores are untouched |
| `SlabModel.AllocateCorrect` | sandook/mem/slab.cc:63-124 | allocate keeps every block in exactly one place; it returns null exactly for size 0, oversize, or exhaustion; otherwise a block that was free becomes live with an aligned payload in range |
| `SlabModel.AllocateBounded` | sandook/mem/slab.cc:84-105 | core caches stay within their bound |
| `SlabModel.FreeCorrect` | sandook/mem/slab.cc:126-165 | free takes exactly that block out of the live set and loses none |
| `SlabModel.FreeBounded` | sandook/mem/slab.cc:212-228 | core caches stay within their bound |
| `SlabModel.StepKeepsInv` | sandook/mem/slab.cc:63-165 | every legal step of any core keeps the invariant |
| `SlabModel.StepKeepsLive` | sandook/mem/slab.cc:63-165 | a live block that an operation does not free stays live with its size |
| `SlabModel.RunKeepsInv` | sandook/mem/slab.cc:63-228 | in every state of every interleaving each carved block is live, in one core list or in its global list, exactly once |
| `SlabModel.LivePayloads` | sandook/mem/slab.cc:112-121 | live payloads are 16-aligned, inside the carved range, as long as requested and pairwise disjoint |
| `SlabMemory.RefillList` | sandook/mem/slab.cc:84-105 | the in-memory lists represent the refilled state and no live block changes |
| `SlabMemory.SpillList` | sandook/mem/slab.cc:219-227 | the in-memory lists represent the spilled state and no live block changes |
| `SlabMemory.AllocateBlock` | sandook/mem/slab.cc:63-124 | allocate on bytes refines the abstract allocate |
| `SlabMemory.FreeBlock` | sandook/mem/slab.cc:148-165 | do_free on bytes refines the abstract free and touches no other live block |
| `SlabMemory.CopyBytes` | sandook/mem/slab.cc:181 | memcpy of disjoint ranges |
| `SlabMemory.SlabAllocator.constructor` | sandook/mem/slab.cc:58-61 | all lists empty, nothing carved |
| `SlabMemory.SlabAllocator.Allocate` | sandook/mem/slab.cc:63-124 | returned pointer and new state are those of the abstract allocate; the bytes of all live blocks, headers included, are unchanged |
| `SlabMemory.SlabAllocator.Free` | sandook/mem/slab.cc:126-146 | exactly the freed block leaves the live set; all remaining live blocks keep their bytes |
| `SlabMemory.SlabAllocator.Perform` | sandook/mem/slab.cc:63-165 | each operation of any core is a step of memory and state that leaves every other live block unchanged |
| `SlabMemory.SlabAllocator.WriteBytes` | sandook/mem/slab.cc:112-121 | a write of a block's owner into its payload is a step that keeps the allocator's own data |
| `SlabMemory.SlabAllocator.Reallocate` | sandook/mem/slab.cc:167-189 | uninterrupted: null leaves everything as it was; otherwise the common prefix of the payload is at the new address and every other live block is unchanged |
| `SlabMemory.RunKeepsBytes` | sandook/mem/slab.cc:63-165 | whatever the cores allocate, free, reallocate or write elsewhere, a range of a live payload keeps its bytes and the block its size |
| `SlabMemory.WrittenIsReadBack` | sandook/mem/slab.cc:63-189 | what the owner of a block wrote last is read back after any events of any cores |
| `SlabMemory.ReallocateAmongOthers` | sandook/mem/slab.cc:167-189 | with any operations and writes of other threads between the allocation, the copy and the free, the common prefix ends up in the new block, live with the requested size |
| `VirtualDisk.StepKeepsInv` | sandook/virtual_disk/virtual_disk_remote.cc:47-100 | every step keeps block ownership exclusive and every operation in a consistent phase |
| `VirtualDisk.ReturningWriteIsStored` | sandook/virtual_disk/virtual_disk_remote.cc:393-476 | when a write returns, both replica blocks of the current mapping hold its data, whichever attempts were refused |
| `VirtualDisk.SingleRetryChain` | sandook/virtual_disk/virtual_disk_remote.cc:398-466 | each attempt spawns at most one retry, and only the last attempt can be about to retry |
| `VirtualDisk.StepImplements` | sandook/virtual_disk/virtual_disk_remote.cc:47-100 | every step preserves the relation to the array of sectors defined by the visible events |
| `VirtualDisk.RunKeepsInv` | sandook/virtual_disk/virtual_disk_remote.cc:296-476 | invariant and refinement relation hold in every state of every run |
| `VirtualDisk.ReadReturnsLastWrite` | sandook/virtual_disk/virtual_disk_remote.cc:296-382 | a read that returns yields the last written data of the sector, unless a write or an Allocate intervened |
| `VirtualDisk.WrittenSectorIsFound` | sandook/virtual_disk/virtual_disk_remote.cc:53-58 | a written sector is never reported as unmapped |
| `VirtualDisk.RetriedWriteIsReadBack` | sandook/virtual_disk/virtual_disk_remote.cc:393-476 | runs with a refusal exist: a refused replica write, its retry on new blocks and a read of the data from either replica are reachable |
| `VirtualDisk.RunAges` | sandook/virtual_disk/block_resolver.h:72-89 | blocks only move forward through fresh, cached, mapped, given up |
| `VirtualDisk.BlocksHandedOutOnce` | sandook/controller/block_allocator.h:45-59 | no two steps of a run take the same (server, address) block |
| `VirtualDisk.TrashIsDiscardedOnce` | sandook/virtual_disk/block_resolver.h:29-89 | discarded mappings have pairwise different blocks and share none with any live mapping |
| `VirtualDisk.ReplacedMappingIsDiscarded` | sandook/virtual_disk/block_resolver.h:29-89 | over every run a dirty mapping a sector once had is still its mapping or is on the discard list |
| `BlockSupply.BlockAllocator.constructor` | sandook/controller/block_allocator.h:34 | nothing issued, all counters zero |
| `BlockSupply.BlockAllocator.AddServer` | sandook/controller/block_allocator.h:36-43 | the server's counter starts over; blocks stay unique if and only if none of its blocks was issued |
| `BlockSupply.BlockAllocator.AllocateBlocks` | sandook/controller/block_allocator.h:45-59 | n consecutive distinct blocks, never returned before as long as no counter started over |
| `BlockSupply.BlockAllocator.AllocateAfterAdd` | sandook/controller/block_allocator.h:36-59 | after a server is added, the next batch repeats an issued block if and only if the server had issued any |
| `BlockSupply.CoreLocalCache.constructor` | sandook/base/core_local_cache.h:45-51 | an empty cache in front of a controller |
| `BlockSupply.CoreLocalCache.HeldOnce` | sandook/base/core_local_cache.h:68-156 | cached blocks, handed-out blocks and those a thread is about to push are the blocks received, each exactly once |
| `BlockSupply.CoreLocalCache.PopLocal` | sandook/base/core_local_cache.h:74-81 | moves the top of the core's stack to the caller, or finds it empty |
| `BlockSupply.CoreLocalCache.Refill` | sandook/base/core_local_cache.h:96-103 | moves items from the global stack without losing or duplicating any; the core stays empty only if the global stack is empty |
| `BlockSupply.CoreLocalCache.TrySlow` | sandook/base/core_local_cache.h:88-110 | one pass of the slow path fails only when the global stack is empty too |
| `BlockSupply.CoreLocalCache.Fetch` | sandook/base/core_local_cache.h:144-147 | one batch from the controller, new to everyone, kept by the calling thread |
| `BlockSupply.CoreLocalCache.PushFetched` | sandook/base/core_local_cache.h:149-155 | everything the thread fetched goes to the global stack, once |
| `BlockSupply.CoreLocalCache.Put` | sandook/base/core_local_cache.h:116-138 | takes one item back; an overfull core stack spills to the global one |
| `BlockSupply.CoreLocalCache.Spill` | sandook/base/core_local_cache.h:130-138 | conserves the items and leaves at most the kept number on the core |
| `BlockSupply.BlockPool.NoBlockTwice` | sandook/controller/block_allocator.h:45-59 | over all caches of all volumes on one controller a block is cached, handed out or on its way at most once |
| `BlockSupply.BlockPool.Pop` | sandook/base/core_local_cache.h:68-110 | what a cache hands out was never handed out before, by any cache |
| `BlockSupply.BlockPool.Reserve` | sandook/base/core_local_cache.h:140-156 | with other threads acting between the batches, ends with new blocks on the global stack and nothing lost or shared |
| `BlockSupply.BlockPool.Run` | sandook/base/core_local_cache.h:68-156 | in any interleaving of sections by any threads on any caches no block is handed out twice, and a thread keeps what it fetched |
| `BlockSupply.BlockPool.Get` | sandook/base/core_local_cache.h:68-114 | get ends with a block never handed out before, whatever other threads do between any two of its sections |
| `DiskRequests.BlockResolver.constructor` | sandook/virtual_disk/block_resolver.h:20-27 | every sector unmapped |
| `DiskRequests.BlockResolver.AddMapping` | sandook/virtual_disk/block_resolver.h:29-37 | records the mapping and discards exactly the dirty one added last for the sector, so that all discards are a function of the additions |
| `DiskRequests.BlockResolver.DiscardExistingBlocks` | sandook/virtual_disk/block_resolver.h:72-89 | discards the mapping added last exactly if it is dirty |
| `DiskRequests.BlockResolver.ResolveBlock` | sandook/virtual_disk/block_resolver.h:39-49 | the mapping added last for the sector, by the sequence of additions alone; ENOENT exactly when there is none |
| `DiskRequests.BlockResolver.GetAndResetDiscardedBlocks` | sandook/virtual_disk/block_resolver.h:51-62 | successive calls return consecutive slices of everything ever discarded |
| `DiskRequests.NoAddressTwice` | sandook/virtual_disk/virtual_disk_remote.cc:609-615 | mappings with distinct blocks yield no address twice for a server |
| `DiskRequests.GroupByServer` | sandook/virtual_disk/virtual_disk_remote.cc:609-615 | each server gets exactly its replica addresses in discard order |
| `DiskRequests.SendBatches` | sandook/virtual_disk/virtual_disk_remote.cc:626-645 | a server receives its addresses once and in order, in non-empty batches of at most 2048, and other servers receive nothing |
| `DiskRequests.SendAll` | sandook/virtual_disk/virtual_disk_remote.cc:609-646 | every server receives all of its addresses, once and in order, or none; all servers receive theirs if and only if each has a client |
| `DiskRequests.RunGarbageCollector` | sandook/virtual_disk/virtual_disk_remote.cc:599-649 | a round sends nothing twice; it leaves nothing out if and only if every server on the discard list has a client |
| `DiskRequests.RunResolver` | sandook/virtual_disk/virtual_disk_remote.cc:585-649 | over any number of rounds between any additions no discarded block is sent twice, and each is sent exactly once if and only if no round lacked a client it needed |
| `VolumeRuns.ResolverTracksDisk` | sandook/virtual_disk/block_resolver.h:29-49 | in every reachable state the mapping of a sector is the one added last by the AddMapping calls of its volume |
| `VolumeRuns.ResolverDiscards` | sandook/virtual_disk/block_resolver.h:72-89 | what the resolver of a volume discarded is the volume's part of the disk's discard list, in order |
| `VolumeRuns.DiscardedDistinct` | sandook/virtual_disk/block_resolver.h:72-89 | in every reachable state of the disk the discarded mappings have pairwise different blocks |
| `VolumeRuns.TrimmedOnce` | sandook/virtual_disk/virtual_disk_remote.cc:609-646 | in every reachable state no address goes twice to a server, whichever of the discarded mappings a collector takes and in whatever order |
| `VolumeRuns.RunVolume` | sandook/virtual_disk/virtual_disk_remote.cc:585-649 | resolver and collector beside a running disk: the resolver holds the disk's mappings, no address is sent twice to a server, and no block in use or in a cache is sent |
| `VolumeRuns.VolumesTrimApart` | sandook/virtual_disk/virtual_disk_remote.cc:599-649 | the collectors of two volumes never send the same block |
| `DiskRequests.ShardsPartition` | sandook/virtual_disk/virtual_disk_base.cc:179-198 | a sector belongs to a thread's shard if and only if it is in the request and the thread owns it |
| `DiskRequests.ShardAdvances` | sandook/virtual_disk/virtual_disk_base.cc:189-205 | the next sector of any thread is inside the request and new |
| `DiskRequests.ProcessShardedRequests` | sandook/virtual_disk/virtual_disk_base.cc:172-229 | in every interleaving of the threads each sector is processed once at its own buffer offset; results add up; the request fails exactly when some sector fails, with the last error |
| `RpcFlow.WrappedDifference` | sandook/rpc/rpc.cc:257 | the wrapped difference of two counters is the true one while it is below 2^32 |
| `RpcFlow.InflightIsOutstanding` | sandook/rpc/rpc.cc:257-262 | the 32-bit in-flight value equals the requests outstanding and is at most 128 |
| `RpcFlow.StepConserves` | sandook/rpc/rpc.cc:94-147 | every step keeps each transmitted token in exactly one place |
| `RpcFlow.StepWakes` | sandook/rpc/rpc.cc:225-274 | every step keeps the no-lost-wakeup condition |
| `RpcFlow.StepKeepsInv` | sandook/rpc/rpc.cc:235-358 | every step of callers, sender, receiver and server keeps the invariant |
| `RpcFlow.RunKeepsInv` | sandook/rpc/rpc.cc:225-358 | in every reachable state a parked sender has an empty queue or a full window and is not needed for closing; order, window, token and answer conditions hold |
| `RpcFlow.OpenFlowLosesNothing` | sandook/rpc/rpc.cc:235-305 | while open, calls are the transmitted requests, the batch being sent and the queue, in call order, and the in-flight difference is exact |
| `RpcFlow.CompletedAtMostOnce` | sandook/rpc/rpc.cc:313-358 | a completed call was made, completes once, and carries its own handler's answer |
| `RpcFlow.QuiescentFlowIsDone` | sandook/rpc/rpc.cc:244-358 | a flow in which nobody can act has an empty queue and has completed every call |
| `RpcFlow.StepWorks` | sandook/rpc/rpc.cc:94-358 | every step of a thread of the flow lowers the weighted work left |
| `RpcFlow.BoundedSteps` | sandook/rpc/rpc.cc:94-358 | over every run the threads take at most that many steps between two actions of the callers |
| `RpcFlow.EveryCallCompletes` | sandook/rpc/rpc.cc:94-358 | once the callers pause any schedule comes to rest within the work left; at rest every transmitted call has completed exactly once, a closed flow has no sender left, and an open one has completed every call |
| `RpcFlow.ClosingLosesCallsIff` | sandook/rpc/rpc.cc:225-278 | over every run, the sender that exits after a close still holds calls if and only if requests were queued when the flow was closed; what it holds are exactly the calls never transmitted |
| `RpcFlow.ClosingLosesACall` | sandook/rpc/rpc.cc:265-278 | call, close, sender: a run whose call is never transmitted |
| `DiskModel.GetLatency` | sandook/disk_model/disk_model.h:273-315 | the search and interpolation compute the curve's latency without dividing by zero |
| `DiskModel.LatencyBracket` | sandook/disk_model/disk_model.h:298-314 | between two points the latency lies between theirs |
| `DiskModel.LatencyMonotone` | sandook/disk_model/disk_model.h:273-315 | latency is monotone over all loads and at most 1050 |
| `DiskModel.GetPeakIOPS` | sandook/disk_model/disk_model.h:254-271 | the dampened load before the first saturated point |
| `DiskModel.BelowSaturationUpToPeak` | sandook/disk_model/disk_model.h:254-315 | latency is below 1000 at every load up to the peak if and only if the first point is, which a positive peak implies |
| `DiskModel.SelectMixModel` | sandook/disk_model/disk_model.h:131-152 | the first bucket at or above the clamped ratio, else the last |
| `DiskModel.SelectedMixMonotone` | sandook/disk_model/disk_model.h:131-152 | a heavier write mix never selects a lighter model |
| `DiskModel.GetDiskLatency` | sandook/disk_model/disk_model.h:72-93 | the latency of the curve chosen by operation, mode and ratio |
| `DiskModel.GetDiskPeak` | sandook/disk_model/disk_model.h:95-114 | the curve chosen by mode and ratio stays below 1000 at every load up to a positive result |
| `ModelGenerator.PointsRise` | scripts/generate_ssd_models.py:131-165 | the filtered points rise in load and latency and never fall below the start of the filter |
| `ModelGenerator.IterMonotonicProfilePoints` | scripts/generate_ssd_models.py:131-165 | the loop yields exactly the greedily filtered points of the usable rows |
| `ModelGenerator.DampenProfile` | scripts/generate_ssd_models.py:168-234 | the result rises, is empty only for an empty profile and ends at or above saturation; in each branch it is exactly the first point, the points up to saturation, or the prefix and the ramp |
| `ModelGenerator.CloseAtSaturation` | scripts/generate_ssd_models.py:202-207 | keeps the points, adding a saturation point exactly if the last one is below it |
| `ModelGenerator.RampToSaturation` | scripts/generate_ssd_models.py:209-234 | the points before the start load, then the ramp to the last load at saturation latency; still rising |
| `ModelGenerator.AppendRamp` | scripts/generate_ssd_models.py:227-231 | appends the interpolated points, still rising |
| `ModelGenerator.ExtendProfileTail` | scripts/generate_ssd_models.py:237-283 | keeps the curve; adds loads that rise strictly exactly when the guards allow, and then reaches the target load and latency |
| `ModelGenerator.AppendTail` | scripts/generate_ssd_models.py:269-283 | the tail rises strictly in load, including where truncated loads collide, and reaches the target |
| `ModelGenerator.RisingIsValidCurve` | scripts/generate_ssd_models.py:286-298 | a rising list with loads from 0 and latencies above -1 is a curve the latency model accepts |
| `ModelGenerator.GenerateProfile` | scripts/generate_ssd_models.py:308-330 | for every profile the written points rise, and reach saturation unless no row is usable |
| `ModelGenerator.GenerateModel` | scripts/generate_ssd_models.py:308-330 | every profile without a usable row at load -1 or latency -1 yields a curve the latency model accepts; None exactly when no row is usable |
| `ProfileGuided.ResetWeights` | sandook/scheduler/control_plane/profile_guided.h:114-121 | equal weights, which are a distribution |
| `ProfileGuided.ResidualLoad` | sandook/scheduler/control_plane/profile_guided.h:123-137 | never negative |
| `ProfileGuided.MeasureSignals` | sandook/scheduler/control_plane/profile_guided.h:167-189 | the modelled latencies in server order, their sum and the chosen server |
| `ProfileGuided.SmallestIsFirstMinimum` | sandook/scheduler/control_plane/profile_guided.h:182-185 | the chosen server is the first with the least latency |
| `ProfileGuided.ShiftWeight` | sandook/scheduler/control_plane/profile_guided.h:207-233 | one iteration keeps a distribution, raises the best weight and raises no other; it gives up exactly at best weight 1 or 1 - bias |
| `ProfileGuided.ApplyShift` | sandook/scheduler/control_plane/profile_guided.h:222-233 | each given server gets its clamped new weight, other entries stay |
| `ProfileGuided.ShiftKeepsDistribution` | sandook/scheduler/control_plane/profile_guided.h:207-233 | the sum stays exactly 1 also when the best weight is clamped and the scale is negative |
| `ProfileGuided.StableIsBalanced` | sandook/scheduler/control_plane/profile_guided.h:191-205 | a minimum within b of the mean puts every latency between (1 - b) mean and (1 + (n - 1) b) mean |
| `ProfileGuided.ComputeWeightsIterative` | sandook/scheduler/control_plane/profile_guided.h:139-241 | success means a distribution whose latencies are balanced around a positive mean; already stable equal weights are returned as they are; every error is EAGAIN |
| `ProfileGuided.SortLoads` | sandook/scheduler/control_plane/profile_guided.h:280 | an ascending permutation |
| `ProfileGuided.CollectPeaks` | sandook/scheduler/control_plane/profile_guided.h:267-275 | the modelled peaks and their sum |
| `ProfileGuided.AssignShares` | sandook/scheduler/control_plane/profile_guided.h:283-298 | each server gets its biased, clamped share, and the sum of all is tracked |
| `ProfileGuided.MedianHasWeight` | sandook/scheduler/control_plane/profile_guided.h:300-303 | the sum is always positive, so the reset branch is never taken |
| `ProfileGuided.Normalize` | sandook/scheduler/control_plane/profile_guided.h:304-307 | division by the sum yields a distribution |
| `ProfileGuided.ComputeWeightsFromPeak` | sandook/scheduler/control_plane/profile_guided.h:243-310 | fails exactly with fewer than two servers or no load; otherwise a distribution in which a larger peak never gets a smaller weight |
| `ProfileGuided.UseIterativeMethod` | sandook/scheduler/control_plane/profile_guided.h:69-91 | true exactly when the load of the operation is below 95% of the summed peaks |
| `ProfileGuided.SearchBound` | sandook/scheduler/control_plane/profile_guided.h:96-103 | terminates; success is balanced with one of the bounds 0.05, 0.10, ... below 1 |
| `ProfileGuided.ComputeWeights` | sandook/scheduler/control_plane/profile_guided.h:93-107 | fails exactly with fewer than two servers or no load; otherwise a distribution that is balanced or follows the peaks; above the threshold it follows them, below it equal weights that are already stable stay |
| `ProfileGuided.ComputeReadWeights` | sandook/scheduler/control_plane/profile_guided_rw_isolation.h:78-82 | all of this for reads over all servers |
| `ProfileGuided.ComputeWriteWeights` | sandook/scheduler/control_plane/profile_guided_rw_isolation.h:84-92 | all of this for writes over the servers not in read mode; it is a distribution over all servers and zero on every read-mode server |
| `RwIsolation.WriteDemand` | sandook/scheduler/control_plane/rw_isolation_base.h:233-246 | the least number of servers from the start whose peak covers the writes, or all |
| `RwIsolation.DemandIsTight` | sandook/scheduler/control_plane/rw_isolation_base.h:247-254 | the write count is at least two, is everyone or has a spare beyond a covering window, and is the least such |
| `RwIsolation.TightWriteCountUnique` | sandook/scheduler/control_plane/rw_isolation_base.h:229-257 | these conditions determine the write count |
| `RwIsolation.AssignNext` | sandook/scheduler/control_plane/rw_isolation_base.h:101-112 | each assignment goes to a server that has no mode yet |
| `RwIsolation.AssignModes` | sandook/scheduler/control_plane/rw_isolation_base.h:98-112 | servers 1..n all get a mode, the write mode exactly in the window |
| `RwIsolation.AllMix` | sandook/scheduler/control_plane/rw_isolation_base.h:51-57 | every entry is mixed |
| `RwIsolation.WindowsTile` | sandook/scheduler/control_plane/rw_isolation_base.h:99-115 | chained windows totalling at least n contain every ring position |
| `RwIsolation.RWIsolationBase.constructor` | sandook/scheduler/control_plane/rw_isolation_base.h:25-26 | no servers, nothing installed |
| `RwIsolation.RWIsolationBase.AddServer` | sandook/scheduler/control_plane/rw_isolation_base.h:37-44 | one more server, rotation restarts |
| `RwIsolation.RWIsolationBase.GetAllocation` | sandook/scheduler/control_plane/rw_isolation_base.h:194-265 | read-only, write-only and mixed traffic get (n, 0), (0, n) and the tight write count |
| `RwIsolation.RWIsolationBase.UnchangedIsInstalled` | sandook/scheduler/control_plane/rw_isolation_base.h:163-176 | testing for increases only detects every difference from the installed allocation |
| `RwIsolation.RWIsolationBase.Install` | sandook/scheduler/control_plane/rw_isolation_base.h:96-120 | installs the window and starts the next one where it ends |
| `RwIsolation.RWIsolationBase.ComputeModes` | sandook/scheduler/control_plane/rw_isolation_base.h:46-123 | after every call with traffic on more than two servers the installed allocation is the fresh one; EAGAIN exactly without traffic, or with an unchanged allocation inside 300 ms; installed modes cover servers 1..n |
| `RwIsolation.RWIsolationBase.EveryServerWrites` | sandook/scheduler/control_plane/rw_isolation_base.h:88-115 | over any run with a fixed server count, consecutive windows totalling n put every server in write mode |
| `CongestionControl.RunKeepsRange` | sandook/scheduler/data_plane/congestion_control.h:133-189 | over every run the rate limit stays in [0.001, 1] |
| `CongestionControl.DecreaseAnswersSignal` | sandook/scheduler/data_plane/congestion_control.h:157-179 | a decrease happens at least 50 ms after the previous reaction and records its time |
| `CongestionControl.DecreasesAreSpaced` | sandook/scheduler/data_plane/congestion_control.h:85-198 | two decreases of a server are at least 50 ms apart |
| `CongestionControl.SignalSurvivesPulls` | sandook/scheduler/data_plane/congestion_control.h:85-113 | after a signal the server stays congested through every pull until the next tick |
| `CongestionControl.NotCongestedBefore` | sandook/scheduler/data_plane/congestion_control.h:191-198 | congestion inside a stretch would be seen by one of its ticks |
| `CongestionControl.RateRecovers` | sandook/scheduler/data_plane/congestion_control.h:138-155 | in a stretch of uncongested ticks the rate is exactly min(1, start + 0.05 per tick) |
| `CongestionControl.TwentyTicksRestore` | sandook/scheduler/data_plane/congestion_control.h:138-155 | twenty uncongested ticks restore the rate to 1 from anywhere |
| `CongestionControl.NineteenTicksDoNot` | sandook/scheduler/data_plane/congestion_control.h:138-155 | nineteen do not from the lowest rate |
| `CongestionControl.CongestionControl.constructor` | sandook/scheduler/data_plane/congestion_control.h:38-52 | every server uncongested at rate 1 |
| `CongestionControl.CongestionControl.AddServer` | sandook/scheduler/data_plane/congestion_control.h:67-83 | registers the server, EALREADY exactly on a repeat |
| `CongestionControl.CongestionControl.SignalCongested` | sandook/scheduler/data_plane/congestion_control.h:85-105 | the signal step on one server, no other changes |
| `CongestionControl.CongestionControl.SetCongestionState` | sandook/scheduler/data_plane/congestion_control.h:107-113 | the pull step on one server |
| `CongestionControl.CongestionControl.UpdateServerRateLimit` | sandook/scheduler/data_plane/congestion_control.h:133-189 | the reaction on one server |
| `CongestionControl.CongestionControl.UpdateAllServers` | sandook/scheduler/data_plane/congestion_control.h:191-198 | every registered server ticks once with its own clock reading, the others keep their state |
| `TDigest.CombineConserves` | lib/tdigest/TDigest.h:47-55 | adding a centroid conserves weight and weighted mean |
| `TDigest.CombineBetween` | lib/tdigest/TDigest.h:47-55 | the combined mean lies between the two |
| `TDigest.SumOfPermutation` | lib/tdigest/TDigest.h:471-474 | reordering centroids conserves weight and weighted sum |
| `TDigest.SortByMean` | lib/tdigest/TDigest.h:471 | a sorted permutation |
| `TDigest.MergeSorted` | lib/tdigest/TDigest.h:473-474 | a sorted merge of both lists |
| `TDigest.Compact` | lib/tdigest/TDigest.h:480-497 | for any limit function: sorted, conserving, inside the input range, and cut greedily where the next centroid would exceed the limit |
| `TDigest.CondensedInHull` | lib/tdigest/TDigest.h:469-502 | compaction leaves no mean outside the range of the inputs |
| `TDigest.Condense` | lib/tdigest/TDigest.h:469-497 | sort, merge and compact conserve weight and weighted sum, and the result is the greedy clustering of all centroids in order of their means |
| `TDigest.Cumulative` | lib/tdigest/TDigest.h:453-465 | the weight up to the middle of every centroid, then the total |
| `TDigest.CumulativeIncreases` | lib/tdigest/TDigest.h:453-465 | cumulative weights are strictly increasing |
| `TDigest.PieceFacts` | lib/tdigest/TDigest.h:316-322 | the search lands between the neighbours that bracket the index |
| `TDigest.HeadMonotone` | lib/tdigest/TDigest.h:316-318 | the head interpolation rises from min to the first mean |
| `TDigest.MiddleMonotone` | lib/tdigest/TDigest.h:557-572 | the clamped weighted average rises with the index |
| `TDigest.TailIsMax` | lib/tdigest/TDigest.h:329-331 | the tail branch always yields max |
| `TDigest.QuantileInRange` | lib/tdigest/TDigest.h:295-332 | a quantile exists exactly for q in [0, 1] on data, and lies in [min, max] |
| `TDigest.QuantileMonotone` | lib/tdigest/TDigest.h:295-332 | quantiles are monotone in q |
| `TDigest.QuantileAtOne` | lib/tdigest/TDigest.h:316-331 | the quantile at 1 is max as soon as there are two centroids |
| `TDigest.NeverExceedsIff` | lib/tdigest/TDigest.h:295-332 | no quantile exceeds the largest value if and only if that value reaches what max starts from or one centroid is left |
| `TDigest.TDigest.constructor` | lib/tdigest/TDigest.h:102-108 | an empty digest |
| `TDigest.TDigest.Add` | lib/tdigest/TDigest.h:336-352 | total weight grows by one and the weighted sum by the value; bounds containing it still hold |
| `TDigest.TDigest.Process` | lib/tdigest/TDigest.h:469-502 | conserves total weight and weighted sum, empties the buffer, keeps the digest invariant; the centroids are the greedy clustering of all held ones; max becomes the larger of itself and the last mean, min the smaller of itself and the first |
| `TDigest.TDigest.Quantile` | lib/tdigest/TDigest.h:288-291 | the quantile of everything added, inside any bounds that contain it |
| `TDigest.AddAndQuery` | lib/tdigest/TDigest.h:282-352 | any adds, then a query: quantiles exist on [0, 1] and stay between the smallest value and the larger of the largest value and what max starts from; none exceeds the largest value if and only if that value reaches what max starts from or one centroid is left; truncated quantiles of natural numbers never exceed it |
| `TDigest.TwoStay` | lib/tdigest/TDigest.h:480-497 | two centroids of weight one are not joined while the first limit is below their weight |
| `TDigest.ZeroIsExceeded` | lib/tdigest/TDigest.h:368-371 | after adding 0 twice the quantile at 1 is the positive value max starts from |
| `VectorIO.SumIOV` | sandook/base/io.cc:19-25 | the number of bytes |
| `VectorIO.PullIOV` | sandook/base/io.cc:27-39 | drops exactly the first n bytes in place; a remaining span starts with a non-empty entry |
| `VectorIO.FinishPartial` | sandook/base/io.cc:54-75 | the retry loop completes the transfer or reports the failing call, within as many calls as bytes |
| `VectorIO.DoFull` | sandook/base/io.cc:41-76 | success transfers the concatenation of all entries once and in order; an error leaves a proper prefix and is the transport's last answer |

## Left out

- Caladan, SPDK, ublk and TCP bindings, configuration, telemetry, logging, signal handling and message formats.
- Load generator, experiment scripts, plotting, benchmarks.
- The transfer cache of the slab allocator, switched off by the constant at `sandook/mem/slab.h:51`.
- `rw_isolation.h`, `rw_isolation_weak.h`, `rw_isolation_strict.h` and `adaptive_rw_isolation_weak.h`, whose weight arrays have unassigned entries or which the scheduler does not include.
- `DiskMonitor::UpdateCongestionState`, a small finite table.
- Data races inside a method: every critical section or call is one atomic step.
- Space bounds of the two quantile summaries and the arcsine scale function of the t-digest.
- Floating-point rounding, including the number of rounds of the bound search, and 64-bit overflow of totals.
- VirtualDisk.RunKeepsInv: operations on the same sector do not overlap, getting blocks and installing the mapping is one step, block acquisition succeeds, every RPC is answered, and no server is added a second time (`BlockSupply.BlockAllocator.AllocateAfterAdd` shows what that would do); liveness is not claimed because retries are unbounded.
- BlockSupply.BlockAllocator.AllocateBlocks: does not bound addresses by the device size, because the code does not.
- BlockSupply.CoreLocalCache.Fetch: the cache template is modelled for blocks, its only use in the virtual disk, and an empty reply of the controller is not modelled.
- DiskRequests.ProcessShardedRequests: what each sector request returns is a parameter.
- DiskRequests.RunGarbageCollector: the constant interval that disables the collector by default is ignored.
- SlabModel.AllocateCorrect: shifts are mathematical powers of two; the C++ int shift at `sandook/mem/slab.h:102` is meaningful only below 31.
- SlabMemory.SlabAllocator.Free: callers free only live pointers; the ownership assertions of the code are this precondition.
- GkSummary.Gk.Insert: counters are unbounded integers, and epsilon is at most 1/4, because above it the first or the second insert is undefined.
- RpcFlow.RunKeepsInv: payload bytes, the demand field, I/O errors and thread detach are not modelled; the server's own shutdown is not either.
- RwIsolation.RWIsolationBase.ComputeModes: requires as many statistics as registered servers; telemetry is omitted.
- ProfileGuided.ComputeWeights: requires distinct server ids and loaded, valid models.
- ModelGenerator.GenerateModel: excludes load -1 and latency -1, because the latency model reads unsigned integers; `GenerateProfile` does not.
- TDigest.TDigest.AddWeighted: positive weights only, because others make the divisions meaningless; not-a-number values, merging whole digests (`lib/tdigest/TDigest.h:178-204`) and `cdf` are not modelled.
- VectorIO.DoFull: the transport makes progress on every successful call that is offered at least one byte.
- `std::sort`, `std::inplace_merge` and `std::lower_bound` are stood in for by an insertion sort, a merge and a linear search with the same results.
