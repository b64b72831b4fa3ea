# Queues and socket buffering of the gNB, modelled and proved

This project models five vendored components of srsRAN Project, and proves what they are relied on for. Each
shared-memory component is a state machine in which every access to a shared word is one step of one thread. The
theorems are about every run, for any number of threads and any interleaving. Each component is also a class whose
methods update its fields in place, one access at a time. Each method is tied to the step it stands for.

| files | component |
|---|---|
| `FreeList*.dfy` | the block pool of `ConcurrentQueue`: initial pool, reference-counted lock-free list, heap |
| `DequeueCounters.dfy`, `DequeueCalls.dfy` | the optimistic dequeue protocol of both kinds of producer, single and bulk |
| `Implicit*.dfy` | the implicit producer: bulk and single enqueue and dequeue, the block index growing under its readers |
| `Explicit*.dfy` | the explicit producer: single enqueue, the ring of blocks and its index, single and bulk dequeue |
| `Claims.dfy`, `Deliveries.dfy`, `Blocks.dfy`, `Common.dfy` | what the two producers share, and index arithmetic |
| `ProducerHash.dfy` | the map from threads to implicit producers, with its preallocated capacity |
| `Words.dfy` | machine words: where wrapped index arithmetic agrees with the unbounded indices used elsewhere |
| `Mpmc*.dfy` | rigtorp's `MPMCQueue`: tickets, turns, the waiting and the try forms, the destructor |
| `Spsc.dfy` | rigtorp's `SPSCQueue`: the ring with stale cached indices |
| `BackPressure.dfy`, `AsyncSocket.dfy` | uWebSockets: the lazily erased byte queue, and corking over it |

`dafny verify dfyconfig.toml` checks everything.

## How to read it

- Modules end in `...Queue` for the state and its step functions, `...Invariant` for the invariant, `...Steps`,
  `...Frames` and `...Reads` for the proof that each step keeps it, `...Runs`, `...Guarantees`, `...Progress`,
  `...Limit`, `...Enqueue` and `...Calls` for the theorems, and `...Producer` for the class.
- The theorems on how a call ends or what it enqueues follow the call by the events of the run: it begins when its
  thread is idle and ends when it is idle again. They hold whatever places the steps in between go through.
- `Step`, `ProdStep` and `ConsStep` are the specification. A class method equates its new state with one of them. The
  theorems are about runs of the same functions. Methods that perform a single branch of one, and that `Advance`,
  `Produce`, `Consume` or the call they are part of dispatch to, have no row below.
- State components named as records (`fate`, `owner`, `enq`, `out`, `phase`, `finIn`, `blockOf`, `log` and the like) are
  history: no branch of a step depends on them, except where one that a step needs is missing. Such a step does nothing,
  or in the reuse of a block takes a new one. The `...Ready` lemmas and `ConsumersGoOn` show that it never happens in a
  reachable state, except to requests for no elements. In the classes these records are ghost fields. The release of a
  block one does not have is not a call, and does nothing.
- A producer's enqueue of one element is the bulk enqueue of one, and a single dequeue is the bulk dequeue of at most
  one: both forms access the same words in the same order.

## What the code does not do

Each is a lemma, or a method with a concrete input, and the exact condition under which the promise holds.

- A bulk dequeue of at most 0 elements is not a dequeue of none. With an element present it passes every check, claims
  nothing, and enters the block loop all the same, at an index that is not its own. From an implicit producer it can
  free a block that another consumer frees too (`FreesAgain`), or come to a null block (`MeetsNull`); from an explicit
  one it takes and marks nothing, and can come to an entry that was never set (`MeetsUnset`). Requests for something
  never do (`AskingIsSound`, `SoundIffAsking`). The theorems on implicit producers are therefore about runs whose
  requests ask for something, those on explicit producers about all runs, with progress for consumers that claimed
  something.
- `MAX_SUBQUEUE_SIZE` is documented as the maximum number of elements that can be enqueued to a sub-queue, at the level
  of blocks. Implicit producers keep to it (`SizeWithinLimit`). Explicit ones do not: the check is made when a block is
  taken from the pool, and not when an empty block of the ring is reused. Elements claimed and not yet moved out do not
  count at the check but keep their block in use, so the ring can outgrow the limit, and later be filled unchecked. A
  run ends with twice the limit enqueued (`LimitIsExceeded`). The limit is kept exactly as long as each block reused
  would have passed the check (`ReuseKeepsLimitIffFits`, `FittingReusesKeepLimit`), and never exceeded by more than the
  ring allows (`SizeWithinLimitOrRing`).
- The constructor of `SPSCQueue` means to prevent overflow, but a request of `SIZE_MAX` wraps to capacity 0 before the
  clamp is reached. Every other request is usable (`CapacityIsUsable`).
- The comment on the preallocated hash capacity says doubling the power of two avoids allocation. It does, except for
  exactly the powers of two from 16 on: there the last of the announced threads needs another table
  (`PreallocationSuffices`).
- `BackPressure::erase` keeps its count in 32 bits. It is exact if and only if the pending count and the length do not
  wrap; otherwise consumed bytes come back (`EraseIsExact`, `EraseWraps`).
- `BackPressure::resize` to a shorter length can break the 1/32 bound on waste, exactly if 31 times the waste exceeds
  the new length (`ResizeIsExact`, `ShrinkingWastes`).
- `AsyncSocket::write` promises that a write that is not optional is buffered. One that needs a flush which falls short
  is dropped whole, with 0 returned, and only that one (`Write`, `FlushFailureDropsWrite`).
- The size of `MPMCQueue` stays between zero and the capacity under the try forms (`TryFormsStayBounded`). A waiting
  `pop` can make it negative, as its comment says (`WaitingPopGoesNegative`), and a waiting `emplace` can drive it above
  the capacity (`WaitingEmplaceExceeds`). It is out of range exactly while a thread waits with a ticket that far ahead
  (`NegativeIffPopAhead`, `ExcessIffPushAhead`), stays in range through a run exactly if no waiting form takes its
  ticket without an element, or without room (`StaysBoundedIffRoom`, `SizeBoundedIffRoom`), and is never out of it by
  more than the number of threads (`SizeWithinThreads`).
- `circular_less_than` agrees with the order of the true indices exactly when they are within half a lap
  (`CircularLessIsLess`).

## Model

| member | source | states |
|---|---|---|
| `FreeList.StepKeepsInv` | srsRAN_Project/external/cameron314/concurrentqueue.h:1488-1589 | every atomic access of any thread, in any state, keeps the invariant that ties reference counts, the flag bit, the links and who has each block |
| `FreeList.NoDoubleHandOut` | srsRAN_Project/external/cameron314/concurrentqueue.h:1498-1549 | over every interleaving, between two hand-outs of one block there is a return of it |
| `FreeList.ListIsAcyclic` | srsRAN_Project/external/cameron314/concurrentqueue.h:1554-1577 | over every interleaving the next pointers from the head visit distinct blocks and end |
| `FreeList.NextIsFrozen` | srsRAN_Project/external/cameron314/concurrentqueue.h:1526-1529 | a step changes a block's next pointer only when no thread holds a reference to the block, and only if that thread alone may link it |
| `FreeList.UnlinkedBlockIsUnflagged` | srsRAN_Project/external/cameron314/concurrentqueue.h:1529-1532 | the assertion after the unlinking compare-exchange always holds: the should-be-on-list flag is clear |
| `FreeList.OneHome` | srsRAN_Project/external/cameron314/concurrentqueue.h:3104-3162 | ownership is conserved: in every reachable state each block is in exactly one of the initial pool, a producer, the list, an add under way, a take under way, flagged for a reader that will add it, or the heap |
| `FreeList.FreedIsUntouched` | srsRAN_Project/external/cameron314/concurrentqueue.h:3115-3126 | a block given back to the heap is on no list and in no thread's hands |
| `FreeList.QuietList` | srsRAN_Project/external/cameron314/concurrentqueue.h:1498-1577 | no lost blocks: with no call under way, just the returned blocks are on the list, each with the list's one reference, all others with none |
| `FreeList.UndisturbedRequisition` | srsRAN_Project/external/cameron314/concurrentqueue.h:3142-3162 | with nothing else in flight a requisition is served from the initial pool while it lasts, then from the front of the list, then from the heap if allowed, and changes the list by nothing else |
| `FreeList.UndisturbedRelease` | srsRAN_Project/external/cameron314/concurrentqueue.h:3115-3126 | with nothing else in flight a returned block is put at the front of the list |
| `FreeListCalls.RequisitionEnds` | srsRAN_Project/external/cameron314/concurrentqueue.h:3143-3162 | how a requisition may end, under any contention, recognised by its thread being idle again: with the next block of the initial pool; with a block off the list once the pool is exhausted; or with a new block, or none if there may be none, once an access of its own found the pool exhausted and a later one the list empty |
| `FreeListCalls.PoolIndexBounded` | srsRAN_Project/external/cameron314/concurrentqueue.h:3104-3112 | over every run the pool index, however often the pool is asked, passes its size by at most one for each thread |
| `FreeList.BlockPool.constructor` | srsRAN_Project/external/cameron314/concurrentqueue.h:3087-3102 | an empty list and an unissued initial pool satisfy the invariant |
| `FreeList.BlockPool.Advance` | srsRAN_Project/external/cameron314/concurrentqueue.h:3115-3162 | any atomic access in place, of whichever call the thread is in (the pool index, `try_get`, `add`, or freeing a block allocated singly), is the step the theorems speak of, and keeps the invariant |
| `DequeueCounters.StepKeepsInv` | srsRAN_Project/external/cameron314/concurrentqueue.h:2289-2309 | every access of a dequeuer, single or bulk, keeps the invariant on the four counters and on what became of each unit of the optimistic count |
| `DequeueCounters.PublishKeepsInv` | srsRAN_Project/external/cameron314/concurrentqueue.h:2818-2819 | publishing elements keeps it |
| `DequeueCounters.ClaimsFit` | srsRAN_Project/external/cameron314/concurrentqueue.h:2289-2309 | over every run, the head index with all claims that passed the check and have yet to advance it is at most the tail index; the optimistic count is head index, overcommit and in-flight claims together |
| `DequeueCounters.ClaimsApart` | srsRAN_Project/external/cameron314/concurrentqueue.h:2307-2309 | the indices two threads have claimed are different, and below the head index; a claim can be of none |
| `DequeueCounters.ClaimIsNew` | srsRAN_Project/external/cameron314/concurrentqueue.h:2307-2309 | a claim takes the indices from the head index on, none past the tail and none claimed before |
| `DequeueCounters.UndisturbedTakesAll` | srsRAN_Project/external/cameron314/concurrentqueue.h:2289-2309 | with no other dequeue in flight, one for up to max elements claims exactly as many as there are, up to max, from the head on; it comes away empty only if there are none |
| `DequeueCounters.DequeueIsWaitFree` | srsRAN_Project/external/cameron314/concurrentqueue.h:2289-2309 | no access is ever retried: a dequeue has claimed or given up after at most seven of its own |
| `DequeueCalls.DequeueEnds` | srsRAN_Project/external/cameron314/concurrentqueue.h:2825-2849 | what a dequeue comes to by the values its accesses loaded, under any interleaving: if the first three leave nothing it changes nothing; else it adds what they leave, up to max, to the optimistic count, claims from the head on exactly as much of that as its recheck leaves, and adds just the rest to the overcommit |
| `DequeueCounters.Counters.constructor` | srsRAN_Project/external/cameron314/concurrentqueue.h:1739-1748 | all counters start at zero, which satisfies the invariant |
| `DequeueCounters.Counters.Advance` | srsRAN_Project/external/cameron314/concurrentqueue.h:2594-2662 | one atomic access of a dequeuer in place is the step the theorems speak of; with one element asked for it is the single `dequeue`, with none asked for it claims none |
| `DequeueCounters.Counters.FinishClaim` | srsRAN_Project/external/cameron314/concurrentqueue.h:2919-2919 | a dequeuer that has taken all it claimed is idle again, and the invariant stays |
| `DequeueCounters.Counters.StoreTail` | srsRAN_Project/external/cameron314/concurrentqueue.h:2818-2818 | the store of the tail index is the publishing the theorems speak of |
| `ImplicitFillSteps.ProdStepKeepsInv` | srsRAN_Project/external/cameron314/concurrentqueue.h:2671-2820 | every step of a bulk enqueue, with any consumers anywhere, keeps the invariant on index, entries, blocks and elements |
| `ImplicitConsumerSteps.ConsStepKeepsInv` | srsRAN_Project/external/cameron314/concurrentqueue.h:2825-2927 | every step of any consumer keeps it, unless it begins a request for no elements |
| `ImplicitLimit.SizeWithinLimit` | srsRAN_Project/external/cameron314/concurrentqueue.h:2703-2707 | over every run, whatever is asked for, the elements from head to tail never exceed `MAX_SUBQUEUE_SIZE`, for single and bulk enqueues |
| `ImplicitLimit.RefusedIffOver` | srsRAN_Project/external/cameron314/concurrentqueue.h:2705-2707 | a block a bulk enqueue needs is refused at the check exactly if its end would be past the limit; the leeway test never refuses more |
| `ImplicitInvariant.LookupIsPos` | srsRAN_Project/external/cameron314/concurrentqueue.h:2996-3012 | from any slot that holds a fitting key, the offset arithmetic leads to the slot of the index's block |
| `ImplicitInvariant.CarryOver` | srsRAN_Project/external/cameron314/concurrentqueue.h:3030-3049 | an entry shared by an older and a newer index stands for the same block number in both, so a consumer may go on with the older one |
| `ImplicitRuns.Fifo` | srsRAN_Project/external/cameron314/concurrentqueue.h:2527-2927 | over every interleaving of the producer and any consumers whose requests ask for something, what is delivered at index i is element number i of the successful enqueues, no index is delivered twice, and each consumer sees enqueue order |
| `ImplicitRuns.RunAccepts` | srsRAN_Project/external/cameron314/concurrentqueue.h:2671-2820 | by the events of a run alone: the values enqueued after it are those before it and then, for each call in which the tail moved, exactly the values the call was given when it began, in order |
| `ImplicitRuns.CountersRefine` | srsRAN_Project/external/cameron314/concurrentqueue.h:2289-2309 | what the producer and consumers of a run do to the four counters is a run of `DequeueCounters`, so its theorems, `DequeueEnds` among them, are about them |
| `ImplicitRuns.RunDelivers` | srsRAN_Project/external/cameron314/concurrentqueue.h:2825-2927 | the deliveries of a run are distinct, hold the values enqueued at their indices, go in order to each consumer, and are just what the record of deliveries gains |
| `ImplicitRuns.TakeReads` | srsRAN_Project/external/cameron314/concurrentqueue.h:2858-2867 | the element a consumer is about to move out is in its slot, is the one enqueued at that index, and was claimed by that consumer and not taken |
| `ImplicitGuarantees.LookupIsRight` | srsRAN_Project/external/cameron314/concurrentqueue.h:2996-3012 | after every run whose requests ask for something, the entry a consumer is about to read has the key of its index's block base and points to the block entered for it, whatever was inserted, rewound or regrown between its loads |
| `ImplicitGuarantees.ConsumersGoOn` | srsRAN_Project/external/cameron314/concurrentqueue.h:3004-3010 | in every state such a run can reach, a consumer never meets an unset key, a null block or an empty slot: each of its steps lowers a bound on how many it has left |
| `ImplicitGuarantees.DequeueIsWaitFree` | srsRAN_Project/external/cameron314/concurrentqueue.h:2849-2919 | over every such run, a consumer that has claimed delivers all it claimed within a number of its own steps fixed by the claim, whatever the producer and the others do between them |
| `ImplicitGuarantees.GrowthMakesRoom` | srsRAN_Project/external/cameron314/concurrentqueue.h:2965-2980 | after growing, the slot behind the index tail has an unused entry, so the insertion goes through |
| `ImplicitGuarantees.OneOwner` | srsRAN_Project/external/cameron314/concurrentqueue.h:2707-2725 | after every such run each block is free, or just requisitioned, or the block of exactly one block number of this producer |
| `ImplicitGuarantees.FreedOnce` | srsRAN_Project/external/cameron314/concurrentqueue.h:2905-2915 | after every such run: the consumer that frees a block is the only one to, all its elements have been delivered, nobody still reads it, and it is not free already |
| `ImplicitGuarantees.UntakenIsPlaced` | srsRAN_Project/external/cameron314/concurrentqueue.h:2989-3012 | every published element not taken is in the block the producer's own lookup finds, in its slot |
| `ImplicitGuarantees.QuietRemains` | srsRAN_Project/external/cameron314/concurrentqueue.h:2825-2927 | after every such run with no operation under way, exactly the indices below the head were delivered, with the values enqueued, and exactly the elements from head to tail remain, in place |
| `ImplicitGuarantees.BulkPlacesAll` | srsRAN_Project/external/cameron314/concurrentqueue.h:2688-2819 | all: over every such run, an access that moves the tail moves it by the number of elements its call was given, with each of them, in order, in its place, and one block taken for each block boundary in [tail, tail + count) |
| `ImplicitGuarantees.FailedBulkUndoes` | srsRAN_Project/external/cameron314/concurrentqueue.h:2707-2725 | or nothing: from one idle state to any later one of such a run with the same tail, the tail block, entries, blocks and values are the same, every free block is free again, and every element not taken is in place |
| `ImplicitGuarantees.QuietFree` | srsRAN_Project/external/cameron314/concurrentqueue.h:2905-2915 | no block is lost: with no operation under way every block is free except those with an element not dequeued and the one being filled |
| `ImplicitEnqueue.FailsOnlyIf` | srsRAN_Project/external/cameron314/concurrentqueue.h:2697-2733 | over every run, whatever the producer was at: a bulk enqueue of some elements that ends without the tail having moved met, at an access of its own, elements from the head to the end of its last new block past the limit, or no memory for an index or a block it asked for |
| `ImplicitEnqueue.EnqueueEnds` | srsRAN_Project/external/cameron314/concurrentqueue.h:2671-2820 | a bulk enqueue is wait-free: it ends within eleven accesses for each block to start, one for each element and ten more, whatever consumers do between them |
| `ImplicitEnqueue.EnqueueSucceeds` | srsRAN_Project/external/cameron314/concurrentqueue.h:2671-2820 | from an idle producer of any run, with memory and those elements within the limit at first, it has by then published exactly the values given |
| `ImplicitEnqueue.BlocksWithinPeak` | srsRAN_Project/external/cameron314/concurrentqueue.h:2548-2548 | blocks are reused before new ones are made: there are never more than the most in use at one time |
| `ImplicitEnqueue.GrowsOnlyIfUsed` | srsRAN_Project/external/cameron314/concurrentqueue.h:2949-2980 | the index grows, to twice its size, only when the producer found the entry behind the index tail in use at its access before |
| `ImplicitZeroRequests.FreesAgain` | srsRAN_Project/external/cameron314/concurrentqueue.h:2853-2917 | a run with a request for no elements: it looks up an index it did not claim, loads the block, finds it completely dequeued by another consumer, and goes on to free it a second time |
| `ImplicitZeroRequests.MeetsNull` | srsRAN_Project/external/cameron314/concurrentqueue.h:2853-2858 | the same run with the other consumer a little earlier: the block loaded is null |
| `ImplicitZeroRequests.AskingIsSound` | srsRAN_Project/external/cameron314/concurrentqueue.h:2825-2927 | for all sizes: in no run whose requests ask for something does a consumer come to a null block, or to freeing a block that is free |
| `ImplicitZeroRequests.SoundIffAsking` | srsRAN_Project/external/cameron314/concurrentqueue.h:2825-2927 | that every request is for at least m elements keeps all runs from both if and only if m is not zero |
| `ImplicitProducer.Producer.constructor` | srsRAN_Project/external/cameron314/concurrentqueue.h:2463-2469 | a new producer has the smallest index, no blocks and no elements, and satisfies the invariant |
| `ImplicitProducer.Producer.NewBlockIndex` | srsRAN_Project/external/cameron314/concurrentqueue.h:3014-3056 | the copying loop yields the old slots oldest first, then as many unused entries, with the tail on the newest old slot |
| `ImplicitProducer.Producer.Produce` | srsRAN_Project/external/cameron314/concurrentqueue.h:2671-2820 | any access of the producer in place (the limit check, the index insertion, growth, requisition and rewinding, the undo loop, construction, publication) is the step the theorems speak of, and keeps the invariant |
| `ImplicitProducer.Producer.Consume` | srsRAN_Project/external/cameron314/concurrentqueue.h:2825-2927 | any access of any consumer likewise (the counters, the lookup, moving out, counting, clearing the entry, freeing the block); it keeps the invariant unless it begins a request for no elements |
| `ExplicitSteps.ProdStepKeepsInv` | srsRAN_Project/external/cameron314/concurrentqueue.h:1887-1991 | every step of an enqueue, with any consumers anywhere, keeps the invariant on ring, index, entries and elements |
| `ExplicitReads.ConsStepKeepsInv` | srsRAN_Project/external/cameron314/concurrentqueue.h:2288-2378 | every step of any consumer keeps it, also of one that asked for no elements |
| `ExplicitRuns.Fifo` | srsRAN_Project/external/cameron314/concurrentqueue.h:1887-2092 | over every interleaving, whatever is asked for, what is delivered at index i is element number i of the successful enqueues, no index is delivered twice, and each consumer sees enqueue order |
| `ExplicitRuns.RunAccepts` | srsRAN_Project/external/cameron314/concurrentqueue.h:1887-1991 | by the events of a run alone: the values enqueued after it are those before it and then, for each call in which the tail moved, the value the call was given when it began, in order |
| `ExplicitRuns.CountersRefine` | srsRAN_Project/external/cameron314/concurrentqueue.h:2288-2309 | what the producer and consumers of a run do to the four counters is a run of `DequeueCounters` |
| `ExplicitRuns.RunDelivers` | srsRAN_Project/external/cameron314/concurrentqueue.h:2288-2378 | the deliveries of a run are distinct, hold the values enqueued at their indices, go in order to each consumer, and are just what the record of deliveries gains |
| `ExplicitRuns.RingAndIndexAgree` | srsRAN_Project/external/cameron314/concurrentqueue.h:1896-1978 | the last slots used before the front list the blocks of the ring, oldest first, with consecutive bases; the ring is linked in that order and closes at the tail block |
| `ExplicitRuns.LookupIsRight` | srsRAN_Project/external/cameron314/concurrentqueue.h:2047-2056 | the entry a consumer that claimed something is about to read lists its index's block at that block's base, and the block holds the element enqueued, whatever was reused or grown between its loads |
| `ExplicitRuns.NeededEntriesStay` | srsRAN_Project/external/cameron314/concurrentqueue.h:1974-1978 | no step of the producer changes, in the index a consumer holds, the entry of a claimed and untaken element |
| `ExplicitRuns.OneOwner` | srsRAN_Project/external/cameron314/concurrentqueue.h:1934-1952 | each block is in the pool or in the ring exactly once |
| `ExplicitRuns.QuietRemains` | srsRAN_Project/external/cameron314/concurrentqueue.h:2288-2378 | with no operation under way, exactly the indices below the head were delivered, and exactly the elements from head to tail remain, in place |
| `ExplicitProgress.ConsumersGoOn` | srsRAN_Project/external/cameron314/concurrentqueue.h:2311-2369 | a consumer that claimed something never meets an unset entry, a null block or an empty slot: each of its steps lowers a bound on how many it has left |
| `ExplicitProgress.DequeueIsWaitFree` | srsRAN_Project/external/cameron314/concurrentqueue.h:2311-2369 | over every run, a consumer that has claimed something delivers all it claimed within a number of its own steps fixed by the claim, whatever the producer and the others do between them |
| `ExplicitEnqueue.FailsOnlyIf` | srsRAN_Project/external/cameron314/concurrentqueue.h:1905-1937 | over every run, whatever the producer was at: a step that makes it idle has published, or a block was to be started with the elements from the head to its end past the limit, or memory asked for was not there |
| `ExplicitEnqueue.EnqueueEnds` | srsRAN_Project/external/cameron314/concurrentqueue.h:1887-1991 | an enqueue is wait-free: it ends within eight accesses after the one that begins it, whatever consumers do between them |
| `ExplicitEnqueue.EnqueueSucceeds` | srsRAN_Project/external/cameron314/concurrentqueue.h:1887-1991 | from an idle producer of any run, with memory and the block it may start within the limit at first, it has by then published the value given |
| `ExplicitEnqueue.BlocksWithinPeak` | srsRAN_Project/external/cameron314/concurrentqueue.h:1934-1952 | blocks are reused before new ones are made: there are never more than the most in use at one time |
| `ExplicitEnqueue.IndexWithinRing` | srsRAN_Project/external/cameron314/concurrentqueue.h:1919-1931 | over every run the index is of its initial size or at most twice as large as the ring |
| `ExplicitZeroRequests.MeetsUnset` | srsRAN_Project/external/cameron314/concurrentqueue.h:2308-2318 | a run with a request for no elements that looks up an index past the last block, and comes to an entry that was never set |
| `ExplicitZeroRequests.AskingIsSound` | srsRAN_Project/external/cameron314/concurrentqueue.h:2288-2378 | for all sizes: in no run whose requests ask for something does a consumer come to such an entry |
| `ExplicitZeroRequests.SoundIffAsking` | srsRAN_Project/external/cameron314/concurrentqueue.h:2288-2378 | that every request is for at least m elements keeps all runs from it if and only if m is not zero |
| `ExplicitLimit.SizeWithinLimitOrRing` | srsRAN_Project/external/cameron314/concurrentqueue.h:1892-1952 | over every run the elements from head to tail are at most `MAX_SUBQUEUE_SIZE` or what the blocks of the ring hold |
| `ExplicitLimit.FittingReusesKeepLimit` | srsRAN_Project/external/cameron314/concurrentqueue.h:1896-1918 | a run in which every block reused would have passed the check keeps to `MAX_SUBQUEUE_SIZE` |
| `ExplicitLimit.ReuseKeepsLimitIffFits` | srsRAN_Project/external/cameron314/concurrentqueue.h:1896-1905 | an empty block is reused and filled unchecked: from the moment before, the producer alone keeps to the limit if and only if the block would have passed the check |
| `ExplicitLimit.HeadPastOldest` | srsRAN_Project/external/cameron314/concurrentqueue.h:1896-1899 | when a block is found empty the head is past all its indices |
| `ExplicitOverflow.LimitIsExceeded` | srsRAN_Project/external/cameron314/concurrentqueue.h:1892-1918 | a run with blocks of two, a limit of two and one of two consumers idle, after which four elements lie between head and tail |
| `ExplicitProducer.Producer.constructor` | srsRAN_Project/external/cameron314/concurrentqueue.h:1810-1825 | a new producer has an empty index and no blocks, and satisfies the invariant |
| `ExplicitProducer.Producer.NewBlockIndex` | srsRAN_Project/external/cameron314/concurrentqueue.h:2396-2433 | the copying loop yields an index of twice the size that lists the slots used, oldest first |
| `ExplicitProducer.Producer.Produce` | srsRAN_Project/external/cameron314/concurrentqueue.h:1887-1991 | any access of the producer in place (reusing the oldest block, the limit check, growth, requisition and linking, listing, construction, publication) is the step the theorems speak of, and keeps the invariant |
| `ExplicitProducer.Producer.Consume` | srsRAN_Project/external/cameron314/concurrentqueue.h:2288-2378 | any access of any consumer likewise (the counters, the lookup, moving out, marking slots empty), whatever it asked for |
| `ProducerHash.FindIsRight` | srsRAN_Project/external/cameron314/concurrentqueue.h:3476-3513 | in a table with an empty slot, probing finds a thread's id exactly if it is there |
| `ProducerHash.FreeIsRight` | srsRAN_Project/external/cameron314/concurrentqueue.h:3572-3589 | the slot an insertion takes belongs to no thread, and every slot probed before it does |
| `ProducerHash.GetOrAddServes` | srsRAN_Project/external/cameron314/concurrentqueue.h:3453-3598 | one lookup-or-insert keeps the invariant, serves a known thread its own producer, and a new one a producer no thread has |
| `ProducerHash.FindsOwn` | srsRAN_Project/external/cameron314/concurrentqueue.h:3474-3508 | a known thread gets its producer back; if it was in older tables only the main table gains it, and nothing else changes |
| `ProducerHash.AddsOwn` | srsRAN_Project/external/cameron314/concurrentqueue.h:3516-3591 | a new thread gets none exactly if a needed table, or a needed producer, finds no memory |
| `ProducerHash.AddsToMain` | srsRAN_Project/external/cameron314/concurrentqueue.h:3527-3589 | a new thread that gets a producer is in the main table, beside those there before, and in a new table only if its count is not under half of the old one |
| `ProducerHash.RecyclesNewest` | srsRAN_Project/external/cameron314/concurrentqueue.h:3275-3305 | which producer it gets: the newest inactive one, or, exactly if none is inactive, one more; no other changes |
| `ProducerHash.CountsSlots` | srsRAN_Project/external/cameron314/concurrentqueue.h:3518-3588 | its call changes the count by just what it changes the number of slots in use in the main table, so a tombstone reused is not counted twice |
| `ProducerHash.ExitOk` | srsRAN_Project/external/cameron314/concurrentqueue.h:3601-3629 | an exit leaves the id in no table, its producer recyclable, and every other thread its producer |
| `ProducerHash.SameProducer` | srsRAN_Project/external/cameron314/concurrentqueue.h:3474-3508 | over every run, a thread that has not exited gets the same producer whatever the others do |
| `ProducerHash.NeverShared` | srsRAN_Project/external/cameron314/concurrentqueue.h:3275-3305 | over every run, two live threads never have one producer |
| `ProducerHash.ExitedIsGone` | srsRAN_Project/external/cameron314/concurrentqueue.h:3613-3625 | after an exit the id is in no table |
| `ProducerHash.ProbesEnd` | srsRAN_Project/external/cameron314/concurrentqueue.h:3477-3477 | in every reachable state every table has an empty slot, because used slots with threads known only to older tables stay within the count, and the count under half the main capacity |
| `ProducerHash.ProducersWithinPeak` | srsRAN_Project/external/cameron314/concurrentqueue.h:3275-3305 | over every run there are never more implicit producers than threads have had one at one time: producers of exited threads are recycled before new ones are made |
| `ProducerHash.PreallocationSuffices` | srsRAN_Project/external/cameron314/concurrentqueue.h:846-855 | the constructor's capacity serves all `maxImplicitProducers` threads without another table if and only if that number is not a power of two of 16 or more |
| `ProducerHash.GrownIsLeast` | srsRAN_Project/external/cameron314/concurrentqueue.h:3527-3530 | no doubling of the old capacity smaller than the new one has the count under its half |
| `ProducerHash.PreallocatedIsLeast` | srsRAN_Project/external/cameron314/concurrentqueue.h:849-853 | no smaller power of two from 16 on would hold the request |
| `ProducerHash.ProducerMap.constructor` | srsRAN_Project/external/cameron314/concurrentqueue.h:3393-3412 | one empty table satisfies the invariant |
| `ProducerHash.ProducerMap.Probe` | srsRAN_Project/external/cameron314/concurrentqueue.h:3476-3513 | the probing loop of lookup and exit finds what the specification's probing finds |
| `ProducerHash.ProducerMap.ProbeFree` | srsRAN_Project/external/cameron314/concurrentqueue.h:3572-3589 | the probing loop of an insertion stops at the first slot that is empty or a tombstone |
| `ProducerHash.ProducerMap.GetOrAddProducer` | srsRAN_Project/external/cameron314/concurrentqueue.h:3453-3598 | the whole call in place (search from the newest table on, lazy copy, growth, recycling, insertion) is the step the theorems speak of, and serves the thread as they say |
| `ProducerHash.ProducerMap.NewCapacity` | srsRAN_Project/external/cameron314/concurrentqueue.h:3527-3530 | the capacity is a doubling of the old one, its half exceeds the count, and no smaller doubling will do |
| `ProducerHash.ProducerMap.ThreadExited` | srsRAN_Project/external/cameron314/concurrentqueue.h:3601-3629 | the id becomes a tombstone in every table that has it and the producer recyclable |
| `ProducerHash.PreallocateCapacity` | srsRAN_Project/external/cameron314/concurrentqueue.h:849-853 | half of the capacity is the least power of two from 16 on that is not below the request |
| `Words.CircularLessIsLess` | srsRAN_Project/external/cameron314/concurrentqueue.h:480-486 | of two indices less than a lap apart, the comparison of their words is right exactly if they are within half a lap; it then agrees with ordinary order |
| `Words.WordLookupIsLookup` | srsRAN_Project/external/cameron314/concurrentqueue.h:3001-3009 | the wrapped subtraction, signed division and mask give the slot of the unbounded arithmetic, across wrap-around and for blocks behind the tail, for power-of-two sizes and bases less than half a word apart |
| `Tickets.OfTicket` | srsRAN_Project/external/rigtorp/MPMCQueue.h:271-273 | a ticket is given back by its slot and its lap |
| `Tickets.Same` | srsRAN_Project/external/rigtorp/MPMCQueue.h:271-273 | tickets of one slot and one lap are one ticket |
| `Tickets.PreviousLap` | srsRAN_Project/external/rigtorp/MPMCQueue.h:271-273 | the ticket a capacity earlier has the same slot, one lap before |
| `MpmcQueue.StepKeepsInv` | srsRAN_Project/external/rigtorp/MPMCQueue.h:163-251 | every atomic access of any thread, in any call, keeps the invariant that ties turns, storage, tickets and threads |
| `MpmcQueue.TicketMatching` | srsRAN_Project/external/rigtorp/MPMCQueue.h:222-230 | over every interleaving the pop with ticket t returns exactly the value of the push with ticket t, and a thread about to move it out finds that none has |
| `MpmcQueue.SlotExclusion` | srsRAN_Project/external/rigtorp/MPMCQueue.h:163-172 | two threads are never between wait and hand-over in one slot |
| `MpmcQueue.StaleCheckIsSafe` | srsRAN_Project/external/rigtorp/MPMCQueue.h:180-184 | where the compare-exchange succeeds the turn is still the one read, so no wait is needed and the slot is empty for a push and holds the ticket's value for a pop |
| `MpmcQueue.FailedTryIsJustified` | srsRAN_Project/external/rigtorp/MPMCQueue.h:186-192 | a try about to return false: at its last turn load the counter was its ticket and the pop one lap before, or the push of its ticket, had not finished; that it returns false from nowhere else is `CallEnds` |
| `MpmcCalls.TicketIsTheCalls` | srsRAN_Project/external/rigtorp/MPMCQueue.h:163-251 | over every run: a push ticket goes to a call that pushes and has none, and the value recorded for it is the one the call was given when it began; a pop ticket to a call that pops and has none |
| `MpmcCalls.CallEnds` | srsRAN_Project/external/rigtorp/MPMCQueue.h:163-251 | how a call may end, recognised by its thread being idle again: an `emplace` has handed on its value, a `pop` has moved out the value of its ticket; a try form as well, or it took no ticket, changed nothing, and one of its own accesses found the queue full, or empty, with the counter as it still is |
| `MpmcCalls.AccessGoesOn` | srsRAN_Project/external/rigtorp/MPMCQueue.h:163-251 | no access is in vain: unless its turn has not come each brings a call nearer to its end, and a try form is sent back only by another thread that moved the counter |
| `MpmcQueue.Progress` | srsRAN_Project/external/rigtorp/MPMCQueue.h:166-171 | while any issued ticket whose partner is issued is unfinished, some thread that holds a ticket can step |
| `MpmcQueue.LeastTicketMoves` | srsRAN_Project/external/rigtorp/MPMCQueue.h:166-171 | namely the holder of the least unfinished one or one before it |
| `MpmcQueue.UndisturbedTryEmplace` | srsRAN_Project/external/rigtorp/MPMCQueue.h:174-194 | with nothing else in flight `try_emplace` fails exactly if the queue is full, and otherwise wins the next ticket and its slot |
| `MpmcQueue.UndisturbedTryPop` | srsRAN_Project/external/rigtorp/MPMCQueue.h:232-251 | with nothing else in flight `try_pop` fails exactly if the queue is empty, and otherwise wins the oldest element |
| `MpmcQueue.QuietSize` | srsRAN_Project/external/rigtorp/MPMCQueue.h:257-261 | with nothing in flight, `size` is between zero and the capacity |
| `MpmcQueue.QuietSlot` | srsRAN_Project/external/rigtorp/MPMCQueue.h:81-85 | with nothing in flight a slot holds an object exactly if its turn is odd, and that object is the unpopped push of its ticket |
| `MpmcQueue.NegativeIffPopAhead` | srsRAN_Project/external/rigtorp/MPMCQueue.h:253-261 | over every run: `size` is below zero exactly while some thread waits to pop a ticket no push has taken |
| `MpmcQueue.ExcessIffPushAhead` | srsRAN_Project/external/rigtorp/MPMCQueue.h:253-261 | over every run: `size` is above the capacity exactly while some thread waits to push a ticket a lap or more ahead of the pops |
| `MpmcQueue.StaysBoundedIffRoom` | srsRAN_Project/external/rigtorp/MPMCQueue.h:163-251 | from a size between zero and the capacity, the next access keeps it there if and only if it is not a `pop` taking its ticket with no element, or an `emplace` with no room |
| `MpmcQueue.SizeBoundedIffRoom` | srsRAN_Project/external/rigtorp/MPMCQueue.h:163-261 | and so throughout a run, if and only if no waiting form takes its ticket ahead like that |
| `MpmcQueue.TryFormsStayBounded` | srsRAN_Project/external/rigtorp/MPMCQueue.h:174-194 | if only the try forms are called, `size` is always between zero and the capacity |
| `MpmcQueue.WaitingPopGoesNegative` | srsRAN_Project/external/rigtorp/MPMCQueue.h:253-261 | one waiting pop on an empty queue drives it to -1 |
| `MpmcQueue.WaitingEmplaceExceeds` | srsRAN_Project/external/rigtorp/MPMCQueue.h:163-172 | for every capacity, one waiting emplace more than there are slots drives it above the capacity |
| `MpmcQueue.SizeWithinThreads` | srsRAN_Project/external/rigtorp/MPMCQueue.h:253-261 | over every run it leaves that range by at most the number of threads |
| `MpmcQueue.Queue.constructor` | srsRAN_Project/external/rigtorp/MPMCQueue.h:119-150 | all turns zero and all slots empty satisfies the invariant |
| `MpmcQueue.Queue.Advance` | srsRAN_Project/external/rigtorp/MPMCQueue.h:163-251 | any atomic access in place, of `emplace`, `try_emplace`, `pop` or `try_pop`, is the step the theorems speak of, and keeps the invariant |
| `MpmcQueue.Queue.Destroy` | srsRAN_Project/external/rigtorp/MPMCQueue.h:152-157 | with nothing in flight exactly the unpopped elements are destroyed, and every slot is empty after |
| `SpscQueue.CapacityIsUsable` | srsRAN_Project/external/rigtorp/SPSCQueue.h:58-69 | the ring has the two slots it needs if and only if the request is not `SIZE_MAX`, which wraps to no slots past the clamp; any other request in range is met exactly |
| `SpscQueue.CachesLag` | srsRAN_Project/external/rigtorp/SPSCQueue.h:104-139 | over every interleaving: known reads <= reads <= known writes <= writes <= known reads + capacity - 1, and all four indices are these counts around the ring |
| `SpscQueue.Fifo` | srsRAN_Project/external/rigtorp/SPSCQueue.h:104-190 | over every interleaving what was popped is a prefix of what was pushed, the ring never holds more than its capacity, a non-null `front` shows the oldest element, and a write finds an empty slot |
| `SpscQueue.StepRefines` | srsRAN_Project/external/rigtorp/SPSCQueue.h:104-190 | each access is a push onto a bounded queue with room, a pop of its oldest element, or nothing |
| `SpscQueue.FalseTryMeansFull` | srsRAN_Project/external/rigtorp/SPSCQueue.h:130-135 | at its refreshing load `try_emplace` returns false, and `emplace` waits, exactly if the ring is then full; that it returns false nowhere else is `EmplaceEnds` |
| `SpscQueue.NullFrontMeansEmpty` | srsRAN_Project/external/rigtorp/SPSCQueue.h:169-174 | at its refreshing load `front` returns null exactly if the ring is then empty |
| `SpscQueue.PushedIsEmplaced` | srsRAN_Project/external/rigtorp/SPSCQueue.h:104-139 | by the schedule alone: what was pushed in a run is, for each call in which the write index moved, the value the call was given when it began, in order |
| `SpscQueue.EmplaceEnds` | srsRAN_Project/external/rigtorp/SPSCQueue.h:104-139 | how a call of the writer may end, whatever it was at: its value is pushed, or it is a `try_emplace` and the ring is full |
| `SpscQueue.EmplaceGoesThrough` | srsRAN_Project/external/rigtorp/SPSCQueue.h:104-139 | from an idle writer with room the value is pushed within four accesses of the writer, whatever the reader does between them |
| `SpscQueue.FrontEnds` | srsRAN_Project/external/rigtorp/SPSCQueue.h:167-175 | `front` ends with an element to show, or the ring is empty |
| `SpscQueue.FrontPopGoThrough` | srsRAN_Project/external/rigtorp/SPSCQueue.h:167-190 | with an element there, `front` and `pop` take the oldest within four accesses of the reader |
| `SpscQueue.CachesSpareLoads` | srsRAN_Project/external/rigtorp/SPSCQueue.h:112-114 | the other side's index is loaded only when the cached one shows a full, or an empty, ring |
| `SpscQueue.OwnerSizeIsExact` | srsRAN_Project/external/rigtorp/SPSCQueue.h:192-199 | called by either owner, `size` is the number of elements at its load of the other side's index |
| `SpscQueue.OwnerEmptyIsExact` | srsRAN_Project/external/rigtorp/SPSCQueue.h:201-204 | and `empty` is true exactly if there are none |
| `SpscQueue.Queue.constructor` | srsRAN_Project/external/rigtorp/SPSCQueue.h:58-89 | the ring of the clamped capacity, empty, satisfies the invariant |
| `SpscQueue.Queue.Write` | srsRAN_Project/external/rigtorp/SPSCQueue.h:104-139 | one access of `emplace`, `try_emplace` or the writer's `size` in place is the step the theorems speak of |
| `SpscQueue.Queue.Read` | srsRAN_Project/external/rigtorp/SPSCQueue.h:167-199 | one access of `front`, `pop` or the reader's `size` likewise |
| `SpscQueue.Queue.DestroyFront` | srsRAN_Project/external/rigtorp/SPSCQueue.h:92-94 | one turn of the destructor's loop destroys the oldest element, or finds none |
| `SpscQueue.Queue.Destroy` | srsRAN_Project/external/rigtorp/SPSCQueue.h:91-97 | the destructor destroys exactly the elements still in the ring, oldest first |
| `BackPressure.EraseIsExact` | srsRAN_Project/external/uWebSockets/AsyncSocketData.h:36-43 | an erase drops exactly that many bytes from the front if and only if the 32-bit `pendingRemoval` does not wrap; afterwards at most 1/32 of the bytes stored are waste |
| `BackPressure.EraseIsAmortized` | srsRAN_Project/external/uWebSockets/AsyncSocketData.h:36-43 | bytes are moved only to drop more than one in 32 of those stored |
| `BackPressure.EraseWraps` | srsRAN_Project/external/uWebSockets/AsyncSocketData.h:37-37 | an input where it wraps: erasing more than there is brings a consumed byte back |
| `BackPressure.ResizeIsExact` | srsRAN_Project/external/uWebSockets/AsyncSocketData.h:55-57 | a resize keeps the prefix or pads with zeros, and keeps the waste bound exactly if 31 times the waste is at most the new length |
| `BackPressure.ShrinkingWastes` | srsRAN_Project/external/uWebSockets/AsyncSocketData.h:55-57 | an input where it does not: sixty-four bytes, two of them waste, resized to ten |
| `BackPressure.StepRefines` | srsRAN_Project/external/uWebSockets/AsyncSocketData.h:33-57 | append, erase of bytes that are there, growing and clear are those of a plain byte queue, and keep the waste bound |
| `BackPressure.RunRefines` | srsRAN_Project/external/uWebSockets/AsyncSocketData.h:33-67 | over every run of them the buffer is the plain queue and at most 1/32 of the bytes stored are waste |
| `BackPressure.BackPressure.constructor` | srsRAN_Project/external/uWebSockets/AsyncSocketData.h:32-32 | a new buffer is empty |
| `BackPressure.BackPressure.Append` | srsRAN_Project/external/uWebSockets/AsyncSocketData.h:33-35 | the bytes join the contents at the end |
| `BackPressure.BackPressure.Erase` | srsRAN_Project/external/uWebSockets/AsyncSocketData.h:36-43 | exact if and only if the word does not wrap |
| `BackPressure.BackPressure.Clear` | srsRAN_Project/external/uWebSockets/AsyncSocketData.h:47-51 | no contents and no waste |
| `BackPressure.BackPressure.Resize` | srsRAN_Project/external/uWebSockets/AsyncSocketData.h:55-57 | a prefix of the contents, or the contents and zeros |
| `BackPressure.BackPressure.Overwrite` | srsRAN_Project/external/uWebSockets/AsyncSocketData.h:58-60 | writing through `data()` replaces just those bytes of the contents |
| `AsyncSocket.Drive` | srsRAN_Project/external/uWebSockets/AsyncSocket.h:155-350 | for any calls on any sockets of a loop and any answers of the kernel: the kernel's bytes, the backpressure and the corked bytes of each socket, in that order, are exactly the bytes it accepted, and corked bytes mean no backpressure; each call counts what it must and tells its caller if that is not all; the run stops early only at a refused cork or a length past the `int` |
| `AsyncSocket.Perform` | srsRAN_Project/external/uWebSockets/AsyncSocket.h:155-350 | one call adds the accepted part of its bytes to the end of its own socket's stream and changes no other; it is made just if it is possible, and counts exactly what it must |
| `AsyncSocket.FlushFailureDropsWrite` | srsRAN_Project/external/uWebSockets/AsyncSocket.h:333-342 | a write that is not optional is dropped whole, returning 0, when the flush it needs falls short |
| `AsyncSocket.LoopData.constructor` | srsRAN_Project/external/uWebSockets/LoopData.h:96-101 | a loop starts with no socket corked and nothing in the cork buffer |
| `AsyncSocket.Socket.constructor` | srsRAN_Project/external/uWebSockets/AsyncSocket.h:242-243 | a socket starts with nothing sent and no backpressure |
| `AsyncSocket.Socket.UsSocketWrite` | srsRAN_Project/external/uWebSockets/AsyncSocket.h:296-296 | the kernel takes any number of the bytes, from the front |
| `AsyncSocket.Socket.Cork` | srsRAN_Project/external/uWebSockets/AsyncSocket.h:133-142 | refused exactly if another socket has bytes in the cork buffer; else the loop is corked by this one, and no stream changes |
| `AsyncSocket.Socket.Drain` | srsRAN_Project/external/uWebSockets/AsyncSocket.h:246-269 | backpressure is offered to the kernel once and leaves as far as it takes it; the stream does not change |
| `AsyncSocket.Socket.Write` | srsRAN_Project/external/uWebSockets/AsyncSocket.h:236-323 | exactly the bytes counted join the end of the stream; how many the kernel gains, which answers it has left, how many are counted and whether it fails is that of `WriteResult`, for every state: backpressure, corked bytes to be flushed and the new bytes are offered in turn, up to an offer not taken whole; whether the socket stays corked; the recursion with `uncork` ends |
| `AsyncSocket.Socket.Uncork` | srsRAN_Project/external/uWebSockets/AsyncSocket.h:327-350 | the corked bytes and then the new ones are offered likewise, whatever falls short becomes backpressure, the loop is free, and exactly the new bytes counted join the stream; on a socket not corked nothing happens |
| `AsyncSocket.Socket.GetSendBuffer` | srsRAN_Project/external/uWebSockets/AsyncSocket.h:155-190 | room at the end of the stream, in the cork buffer exactly if there is no backpressure, it is ours or free, and the bytes fit; else behind the backpressure, which takes our corked bytes over; no byte already accepted moves |
| `AsyncSocket.Socket.Fill` | srsRAN_Project/external/uWebSockets/AsyncSocket.h:155-155 | what the caller writes through the pointer it was given is the end of the stream |
| `AsyncSocket.Socket.Send` | srsRAN_Project/external/uWebSockets/AsyncSocket.h:154-190 | buffer and bytes together: all of them join the end of the stream |
| `AsyncSocket.PerformOne` | srsRAN_Project/external/uWebSockets/AsyncSocket.h:132-350 | one call on one socket, made exactly if it is possible: the bytes counted join its stream; for each kind of call and every state, how many are counted, whether it fails and how many bytes the kernel gains is exact; a cork buffer another socket holds stays its own |
| `AsyncSocket.DrainedWrite` | srsRAN_Project/external/uWebSockets/AsyncSocket.h:246-323 | a write on a socket not corked whose backpressure goes out whole offers its bytes at once: the kernel gains both, it fails exactly if the new bytes are not all taken, and an optional one counts just those taken |
| `AsyncSocket.FlushedWrite` | srsRAN_Project/external/uWebSockets/AsyncSocket.h:287-350 | the same for corked bytes that go out whole ahead of bytes that do not fit behind them, and for an uncork |
| `AsyncSocket.OfferIsGreedy` | srsRAN_Project/external/uWebSockets/AsyncSocket.h:236-323 | the kernel gets all that is offered, or, exactly if some offer is not taken whole, less |

## Left out

- Memory orders, fences and TSAN annotations: every atomic access is sequentially consistent.
- Exceptions: element construction, moves and destruction do not throw, so the `MOODYCAMEL_CATCH` paths and the order of
  construction for throwing types are not modelled.
- The bulk enqueue of the explicit producer, and the destructors of the two kinds of producer.
- Allocation of the first block index failing in a producer's constructor.
- Consumer tokens and their rotation, moving and swapping of queues, `MemStats`, `ThreadExitNotifier`.
- Concurrent resizing of the thread map: each lookup-or-insert and each exit is one step, so the three-quarters rule
  that lets threads add to a table while another thread grows it is not exercised.
- The preallocated list of implicit producers is one of the two places a new producer can come from; both are answered
  by the environment, as is every allocation.
- Machine words: indices, tickets and counters are unbounded except in `Words.dfy`, in the reference counts of
  `FreeList.dfy` (32 bits), in the constructor of `SPSCQueue` (64 bits) and in `BackPressure::erase` (32 bits). The mask
  of a power-of-two ring is a remainder.
- The two producers take blocks from a set of free blocks, any of which may be handed out; how the pool keeps that set
  is `FreeList.dfy`.
- Plain data a single step touches: an explicit index entry is written as one step, the flags of an explicit block are
  marked, read and reset each as one step, and an entry's fields not yet written are null.
- Blocks, block indices, entries and hash tables are sequences that the methods reassign, so aliasing between them is by
  number and not by reference.
- FreeList.OneHome: for fewer than 2^31 - 1 threads, as the count shares a 32-bit word with the flag.
- MpmcQueue.Queue.constructor: a capacity of 0 is refused by the source with an exception; allocation and alignment
  checks are not modelled.
- SpscQueue.OwnerSizeIsExact: a third thread calling `size` sees two loads at different times and is not modelled.
- SpscQueue.Queue.constructor: the request is not `SIZE_MAX`, which leaves no ring to model (`CapacityIsUsable`); the
  `allocate_at_least` path, where the allocator may give more, is not modelled.
- AsyncSocket.Socket.Write: for an open socket without TLS, and backpressure and bytes each below 2^31, the range of the
  `int` lengths the kernel interface takes; past it the cast makes a length negative. `nextLength` only reserves memory
  and is not modelled.
- AsyncSocket.Socket.Uncork: the same.
- AsyncSocket.PerformOne: a call whose lengths are past that range is not made.
- AsyncSocket.Drive: of an optional write it says only that the caller is told if not all is counted; how much exactly
  is in `PerformOne`.
- Closed sockets, `corkUnchecked`, `uncorkWithoutSending`, pausing and resuming, timeouts and addresses.
- The move constructor and `reserve` of `BackPressure`, and `size_t` overflow in its lengths.
- The rest of `LoopData`, uSockets and the event loop: the kernel is a script of answers, and every script is allowed.
- All other files of the repository: applications, scripts, HTTP and WebSocket wiring, and the other vendored headers.
