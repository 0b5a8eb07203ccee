# A verified model of the network library's concurrent core

This project models the parts of the muduo-style C++ library whose correctness depends on all
interleavings, all runs, or all sequences of calls, and proves what they promise. It is written in
Dafny; `dafny verify dfyconfig.toml` checks all of it.

Each component is modelled twice where both views matter. A *step machine* describes one atomic action
at a time (a load, a compare-and-swap, a data move, one slot of a scan, one critical section, one queued
functor), for any number of threads, timers, connections or blocks, and the theorems quantify over all its
runs. A *class* keeps the fields of the C++ class, updates them in place with the source's loops and
branches, and each method is proved to be a step, or a run, of the machine.

| files | component |
|---|---|
| `Ring`, `RingInvariant`, `RingTheorems`, `RingProgress`, `RingObject` | the bounded lock-free queue `MPMCQueue` |
| `RingV2`, `RingV2Progress` | `MPMCQueueV2`, whose positions carry tags |
| `LockFreePool`, `LockFreePoolTheorems`, `LockFreePoolTasks`, `LockFreePoolFailures` | semaphores around the queue, `LockFreeThreadPool` |
| `FreeList`, `FreeListTheorems`, `FreeListProgress` | the tagged free list of `LFMemoryPool` |
| `SlabPool`, `SlabOverFreeList` | size classes and thread caches of `LFMemoryPool`, over its free lists |
| `HazardPointer`, `HazardRuns` | `HazardPointerDomain` |
| `TimerQueue`, `TimerReaders`, `TimerTheorems`, `TimerSchedule`, `TimerFailures`, `TimerQueueObject` | timers |
| `Buffer`, `TcpStream` | the byte buffer, and sending over a connection |
| `TcpLifecycle`, `TcpLifecycleTheorems`, `TcpLifecycleClosing`, `TcpLifecycleFailures` | connections across the base loop and the io loops |
| `BatchPool` | the batching `ThreadPool` |
| `ChunkAllocator`, `ChunkAllocatorObject` | `MemPool` |
| `Slots`, `Descent`, `Wrappers` | masks and powers of two; runs that come nearer to their end with every step; an optional value |

Common assumptions. Atomic operations are sequentially consistent, and a weak compare-and-swap may fail
spuriously. Queue positions do not wrap around, as the code documents. Results of the kernel, the clock,
the allocator and the choice made by `notify_one` are parameters.

Where the code and its own comments or assertions disagree, the model follows the code, and the
disagreement is a theorem:

- The queue's `static_assert` admits a capacity of 1, with which a full queue accepts another item and loses one;
  the bounds hold if and only if the capacity is at least 2 (`BoundedIffCapacityAtLeastTwo`).
- "A free slot means `enqueue` succeeds" (base/LockFreeThreadPool.h line 87) is true, for each capacity from 2 on, exactly
  with at most one worker (`AssertionHoldsIffOneWorker`).
- A failed `dequeue` in a worker (line 113) is not harmless: it uses up an announcement, and an item stays in the
  queue unannounced. For each capacity from 2 on it cannot happen exactly when there is at most one producer
  (`NothingStrandedIffOneProducer`).
- The tags of `MPMCQueueV2` positions never change, so they add no protection (`TagsNeverMove`).
- The 16-bit tag of the free list protects it except when a multiple of 65536 pops falls between a load and its
  compare-and-swap (`TagFailsExactlyAtWraps`).
- A repeating timer whose next expiration is not after the epoch is put back without arming the kernel timer. Some timer
  can be lost exactly when one such timer is among those added; then any timer added later can be lost with it, also
  a well-formed one, because the invalid head keeps the kernel timer from being armed (`TimerLostIffOneUnrenewable`,
  `UnrenewableTimerLost`, `LaterTimerLostToo`).
- `addTimer` reads the sequence number of the new timer after handing it to the loop. On the loop thread, and for a
  repeating timer, the timer is always still alive; for every other call the loop can free it first, from any
  state and for any time stamp (`PosterReadSafeIff`).
- `shutdown`, `forceClose` and `forceCloseWithDelay` test and set the connection state in two steps. A set leads to a failed
  assertion exactly when the connection was closed since the test (`SetCanFailIffClosed`), which can happen exactly
  for calls on another thread than the connection's own loop (`CallCanFailIffForeign`); theorems about all
  interleavings are therefore about runs in which such calls set the state in time.
- A `shutdownInLoop` that runs after the connection was closed shuts the socket down with bytes unsent, and no other step
  ever does (`BytesDroppedIffClosed`, `LateShutdownDropsBytes`).
- `totalAllocated_` misses exactly the requests that refill (`MemPool.Allocate`), and `allocate(0)` indexes far outside the
  table (`IndexIsClassIff`).

The inline `allocate`, `deallocate`, `roundUp` and `freeListIndex` of pool/MemPool.h are modelled with pool/MemPool.cpp.
Beyond the rows below, `ChunkAllocatorObject.MemPool.Deallocate` gives a held block back, `ChunkAllocator.FreedIsReused` shows that the
next request of its class gets it again, `ChunkAllocator.DeallocatedInv` keeps tiling and ownership, and
`ChunkAllocatorObject.MemPool.UserWrite` shows that a word written anywhere in a held block changes no free list.

## Model

| member | source | states |
|---|---|---|
| `RingTheorems.RefinesFifo` | base/MPMCQueue.h:49-112 | every step of any number of producers and consumers, from any reachable state, is a step of a sequential FIFO queue: an enqueue's successful CAS appends its item, a dequeue's takes the front, every other step changes nothing; the queue never holds more than the capacity |
| `RingTheorems.DequeueReturnsItsItem` | base/MPMCQueue.h:82-112 | the value a dequeue returns is the item handed in by the enqueue that claimed the same position, and the values come out in the order of the claims |
| `RingTheorems.ItemMovedOutOnce` | base/MPMCQueue.h:108-111 | a data move out of a cell takes the item of the claimed position, which no earlier move has taken |
| `RingTheorems.ItemInOnePlace` | base/MPMCQueue.h:73-111 | the item of each claimed position is in its cell if and only if it is neither in its producer's hand nor moved out to its consumer, and never both of these; where it is, it is that position's item |
| `RingTheorems.CellHasOneOwner` | base/MPMCQueue.h:73-77 | two threads never access one cell's data at the same time |
| `RingTheorems.EnqueueFailsExactly` | base/MPMCQueue.h:53-71 | at its sequence load an enqueue decides to fail if and only if position pos - Capacity has not been released by its consumer |
| `RingTheorems.DequeueFailsExactly` | base/MPMCQueue.h:86-106 | at its sequence load a dequeue decides to fail if and only if position pos has not been published by its producer |
| `RingTheorems.CurrentSequence` | base/MPMCQueue.h:73-77 | the sequence number in the cell of any position, from the two counters and the claims in progress alone |
| `RingTheorems.StaleTestValidIffCasSucceeds` | base/MPMCQueue.h:55-64 | an enqueue's remembered sequence test is still true of the cell when its CAS can succeed, and otherwise the CAS fails |
| `RingTheorems.StaleReadTestValidIffCasSucceeds` | base/MPMCQueue.h:88-98 | the same for a dequeue |
| `RingProgress.EnqueueFinishesAlone` | base/MPMCQueue.h:49-79 | from every reachable state and from wherever a thread is inside `enqueue`, also with a stale position or sequence number, at most seven steps of it alone without a spurious failure finish the call: one that holds a position completes it, one that has loaded "full" answers so, and any other succeeds, with its item last in claim order, if and only if position `enqueuePos_` - Capacity has been released, which the state decides |
| `RingProgress.DequeueFinishesAlone` | base/MPMCQueue.h:82-112 | the same for `dequeue`: it succeeds if and only if position `dequeuePos_` has been published, and takes that position's item |
| `RingProgress.StepKeepsOutcome` | base/MPMCQueue.h:53-111 | every step of a call, also a spuriously failing compare-and-swap, keeps how the call ends if left alone, and every other step brings that end nearer |
| `RingTheorems.IdleRingIsSettled` | base/MPMCQueue.h:127-131 | when no operation is running, the cells hold exactly the queue's contents and the sequence numbers of a quiet ring |
| `RingTheorems.BoundedIffCapacityAtLeastTwo` | base/MPMCQueue.h:17-18 | over all runs the number of items stays within the capacity if and only if the capacity is at least 2 |
| `RingTheorems.CapacityOneLosesItem` | base/MPMCQueue.h:17-18 | with one cell, two enqueues in a row both succeed and the first item is overwritten |
| `RingInvariant.StepInv` | base/MPMCQueue.h:49-112 | the ring's invariant (bounds, ownership, sequence numbers, linearisation) is kept by every step of every thread |
| `RingInvariant.WritableAtClaim` | base/MPMCQueue.h:58-62 | when the CAS on `enqueuePos_` succeeds, the cell is released and may be written |
| `RingInvariant.ReadableAtClaim` | base/MPMCQueue.h:91-96 | when the CAS on `dequeuePos_` succeeds, the cell is published and may be read |
| `RingObject.MPMCQueue.constructor` | base/MPMCQueue.h:31-38 | an empty ring whose cell i has sequence i |
| `RingObject.MPMCQueue.StepEnqueue` | base/MPMCQueue.h:49-79 | one atomic step of `enqueue`, in place, is the machine's step |
| `RingObject.MPMCQueue.StepDequeue` | base/MPMCQueue.h:82-112 | one atomic step of `dequeue`, in place, is the machine's step |
| `RingObject.MPMCQueue.EnqueueAlone` | base/MPMCQueue.h:49-79 | run alone, `enqueue` appends the item, and fails exactly when the queue is full |
| `RingObject.MPMCQueue.DequeueAlone` | base/MPMCQueue.h:82-112 | run alone, `dequeue` removes the front item, and fails exactly when the queue is empty |
| `RingObject.MPMCQueue.ApproximateSize` | base/MPMCQueue.h:115-119 | of a quiet ring, the number of items |
| `Slots.MaskIsRemainder` | base/MPMCQueue.h:23-54 | `pos & kMask` is the remainder modulo the capacity |
| `RingV2.TagsNeverMove` | base/MPMCQueueV2.h:103-209 | in every run both position tags stay 0 and every cell tag is 0 or 1 |
| `RingV2.SameCas` | base/MPMCQueueV2.h:133-146 | a double-word CAS succeeds exactly when a CAS on the position alone would |
| `RingV2.Simulates` | base/MPMCQueueV2.h:124-209 | every run is matched step by step by a run of `MPMCQueue` with the same contents and results |
| `RingV2.ReachesOnlyRingStates` | base/MPMCQueueV2.h:124-209 | so every reachable state is a reachable state of `MPMCQueue` with tags added, and its theorems carry over |
| `RingV2Progress.EnqueueFinishesAlone` | base/MPMCQueueV2.h:124-167 | seven steps alone suffice here too, the reload after a failed compare-and-swap included; a call that neither holds a position nor has loaded "full" succeeds if and only if the sequence number in the cell of `enqueuePos_` is that position |
| `RingV2Progress.DequeueFinishesAlone` | base/MPMCQueueV2.h:172-209 | the same for `dequeue`: it succeeds if and only if the cell of `dequeuePos_` has the next sequence number, with the item in that cell |
| `RingV2.MPMCQueueV2.StepEnqueue` | base/MPMCQueueV2.h:124-167 | one atomic step of `enqueue`, in place |
| `RingV2.MPMCQueueV2.StepDequeue` | base/MPMCQueueV2.h:172-209 | one atomic step of `dequeue`, in place |
| `LockFreePool.StepInv` | base/LockFreeThreadPool.h:72-115 | every step keeps the token equations: free slots, tokens held, items in the ring and slots being returned add up to the capacity, and announcements add up to the items; where the tasks themselves are is `LockFreePoolTasks.TaskInOnePlace` |
| `LockFreePoolTheorems.OneWorkerAssertionHolds` | base/LockFreeThreadPool.h:80-91 | with one worker and any number of producers, a producer holding a slot token never sees `enqueue` fail |
| `LockFreePoolTheorems.OneProducerStrandsNothing` | base/LockFreeThreadPool.h:99-115 | with one producer no announcement is lost, and when nobody is on the move the announcements equal the items |
| `LockFreePoolTheorems.SemaphoresBounded` | base/LockFreeThreadPool.h:121-123 | for any numbers of producers and workers both semaphores stay within the capacity |
| `LockFreePoolTasks.TaskInOnePlace` | base/LockFreeThreadPool.h:72-115 | for any numbers of producers and workers and every task: as often as it was submitted it is in a producer's hands, in the ring, in a worker's hands, failed at the assertion, or started, counted over all five; so it starts no more often than it was submitted |
| `LockFreePoolTasks.EntersInOrder` | base/LockFreeThreadPool.h:72-92 | with one producer and any number of workers the tasks enter the ring in the order of submission, and what is missing is at most the last one: failed, or still in the producer's hands |
| `LockFreePoolTasks.StartsInRingOrder` | base/LockFreeThreadPool.h:98-115 | with one worker and any number of producers the tasks start in the order in which they entered the ring; all it has taken have started but the one in its hands |
| `LockFreePoolTasks.StartsInOrder` | base/LockFreeThreadPool.h:72-115 | with one of each, the started tasks, the worker's, those in the ring and the producer's, in this order, are the tasks submitted |
| `LockFreePoolFailures.TwoWorkersFail` | base/LockFreeThreadPool.h:86-87 | for every capacity from 2 on and any two workers, a run in which a producer with a token sees `enqueue` fail |
| `LockFreePoolFailures.AssertionHoldsIffOneWorker` | base/LockFreeThreadPool.h:86-87 | for each capacity from 2 on, the assertion holds in all runs if and only if there is at most one worker |
| `LockFreePoolFailures.TwoProducersStrand` | base/LockFreeThreadPool.h:101-113 | for every capacity from 2 on and any two producers, a run that ends at rest with an item published and not announced |
| `LockFreePoolFailures.NothingStrandedIffOneProducer` | base/LockFreeThreadPool.h:101-113 | for each capacity from 2 on, no announcement is ever lost if and only if there is at most one producer |
| `FreeListTheorems.RefinesStack` | base/LFMemoryPool.h:52-115 | while fewer than 65536 pops fall between a pop's load and its CAS, push and pop are those of a stack, whatever users write into popped blocks |
| `FreeList.CasMeansUnchanged` | base/LFMemoryPool.h:99-110 | a successful CAS then means the stack is as it was at the load, so the `next` that was read is the true second block |
| `FreeListTheorems.NullMeansWasEmpty` | base/LFMemoryPool.h:77-114 | wherever a `pop` is after its first load, its next step answers null if and only if the stack was empty at its last load of the head, and no step of another kind ends a `pop` |
| `FreeListProgress.PopFinishesAlone` | base/LFMemoryPool.h:74-115 | from every reachable state, at most eight steps of a thread inside `pop` alone finish it, however stale the head word it holds: it answers null if it has loaded a null head or the stack is empty now, and otherwise takes the top of the present stack; with a fresh tag the list in memory is then that stack |
| `FreeListProgress.PushFinishesAlone` | base/LFMemoryPool.h:52-71 | and at most four steps finish a `push`, with its block on top of the present stack |
| `FreeListTheorems.GapIsWraps` | base/LFMemoryPool.h:100-107 | a step's pop succeeds on a stale tag only if the pops in between are a multiple of 65536 |
| `FreeListTheorems.TagFailsExactlyAtWraps` | base/LFMemoryPool.h:100-107 | a gap of g pops can break the list if and only if g is a positive multiple of 65536 |
| `FreeList.PackedEqual` | base/LFMemoryPool.h:64-65 | packed words are equal exactly when pointer and tag are, for 48-bit pointers and 16-bit tags |
| `FreeList.List.StepPush` | base/LFMemoryPool.h:52-71 | one atomic step of `push`, in place |
| `FreeList.List.StepPop` | base/LFMemoryPool.h:74-115 | one atomic step of `pop`, in place |
| `HazardPointer.NoScanDeletesGuarded` | base/HazardPointer.h:147-174 | a node that a thread protected and afterwards saw still linked is deleted by no scan while the slot is not cleared, however registration, protection and the slot-by-slot scan interleave |
| `HazardRuns.ProtectedUntilCleared` | base/HazardPointer.h:89-174 | told by the actions alone: after a thread stores p in a slot and then sees p still linked, the slot holds p, p is alive and no step of any scan deletes it, until that thread's next `protect` or `clear` of the slot, whatever all threads do in between |
| `HazardRuns.UnprotectedIsDeleted` | base/HazardPointer.h:147-174 | a retired node that no slot holds at any moment of its owner's scan is deleted by that scan |
| `HazardRuns.ScanFreesUnprotected` | base/HazardPointer.h:147-174 | so when the scan ends the node is not in the retire list |
| `HazardRuns.ScanIsWaitFree` | base/HazardPointer.h:147-174 | each step of a scan brings its end nearer, from at most 514 steps plus the length of the list, and no step of another thread makes it longer |
| `HazardRuns.LivesUntilDeleted` | base/HazardPointer.h:106-174 | a node's life ends with its deletion and in no other way; `retire` appends it to the list and scans exactly from 64 entries on |
| `HazardRuns.RegistersIffRoom` | base/HazardPointer.h:134-142 | a thread gets a record, the next one, if and only if fewer than 128 threads came before it, and otherwise aborts |
| `HazardPointer.DeletedAtMostOnce` | base/HazardPointer.h:163-173 | a deleted node is then in no retire list and not linked, so each retirement deletes once |
| `HazardPointer.RetireListBounded` | base/HazardPointer.h:106-113 | after `retire` a retire list holds at most 256 nodes |
| `HazardPointer.Pigeonhole` | base/HazardPointer.h:147-162 | distinct nodes that are all hazardous are no more than the pointers collected |
| `HazardPointer.StepInv` | base/HazardPointer.h:89-182 | the reclamation invariant is kept by every step of every thread |
| `HazardPointer.Domain.Collect` | base/HazardPointer.h:149-162 | the pointers collected are exactly the non-null slots of active records |
| `HazardPointer.Domain.Sweep` | base/HazardPointer.h:164-173 | the loop erases exactly the entries that are not hazardous and deletes each of them |
| `HazardPointer.Domain.Retire` | base/HazardPointer.h:106-113 | below the threshold the node is appended; at the threshold the list is scanned |
| `SlabPool.SizeClass` | base/LFMemoryPool.h:212-228 | the loop finds the smallest class whose block is large enough, within the clamps |
| `SlabPool.ClassIsUnique` | base/LFMemoryPool.h:215-227 | a size belongs to one class |
| `SlabPool.BlockFits` | base/LFMemoryPool.h:231-233 | a block is at least as large as asked, and less than twice as large between 64 and 4096 bytes |
| `SlabPool.BlockInOnePlace` | base/LFMemoryPool.h:139-198 | a block of a class is on its free list, in one thread's cache, in flight, or handed out, in exactly one of these |
| `SlabPool.AllocateReturnsFreeBlock` | base/LFMemoryPool.h:145-171 | `allocate` never returns a block that is handed out |
| `SlabPool.CachesStaySmall` | base/LFMemoryPool.h:186-197 | between calls every cache holds fewer than 32 blocks |
| `SlabPool.CallsMoveOn` | base/LFMemoryPool.h:149-197 | a call with a stocked cache does not refill; a refill ends exactly after 16 blocks or at an empty list; a cache is drained exactly from 32 blocks on, down to 16 |
| `SlabPool.CallsEnd` | base/LFMemoryPool.h:145-198 | every step of a call brings its end nearer: `allocate` takes at most 18 steps on lists and caches, `deallocate` at most 33, whatever other threads do |
| `SlabPool.SystemIsLastResort` | base/LFMemoryPool.h:157-171 | a thread asks the system for a block only after it has found its class's list empty in the same call, with its own cache empty |
| `SlabOverFreeList.ListStepIsPoolStep` | base/LFMemoryPool.h:157-196 | while the list in memory is the class's list, a step on it completes a push or a pop exactly as the pool's own step does, and otherwise leaves it alone |
| `SlabPool.SizeClassPool.Allocate` | base/LFMemoryPool.h:149-170 | one class, one thread: the cache, then up to 16 blocks from the list, then the system, losing no block |
| `SlabPool.SizeClassPool.Deallocate` | base/LFMemoryPool.h:184-197 | the block is cached, and at 32 half of the cache is drained to the list in order |
| `TimerTheorems.NoDanglingTimer` | net/TimerQueue.cpp:72-186 | in every reachable state, with callbacks adding and cancelling timers and other threads posting, every step dereferences, runs and deletes live timers only, except the read of line 77 on another thread than the loop's for a timer that does not repeat |
| `TimerTheorems.IndicesAgree` | net/TimerQueue.cpp:173-186 | `timers_` and `activeTimers_` list the same timers, in order, each once, with the expirations the timers store |
| `TimerTheorems.OwnedOnceFreedOnce` | net/TimerQueue.cpp:147-160 | a live timer is waiting, in the batch, or posted, in exactly one of these; every timer created is live or was freed once |
| `TimerTheorems.BatchIsExactlyDue` | net/TimerQueue.cpp:129-145 | a batch is exactly the timers due, in non-decreasing order |
| `TimerTheorems.KthStart` | net/TimerQueue.cpp:119-160 | the k-th start of a timer was scheduled for its first expiration plus k intervals however late it ran, is never early, and happens once for a one-shot timer |
| `TimerTheorems.OriginIsFirstExpiration` | net/TimerQueue.cpp:72-78 | the schedule counts from the time stamp given to `addTimer` |
| `TimerQueue.RestartedTimer` | net/Timer.cpp:9-16 | restarting moves the schedule on by one round exactly |
| `TimerTheorems.CancelTakesEffect` | net/TimerQueue.cpp:95-108 | a cancel frees the timer or bars it from the next schedule if and only if its `addTimerInLoop` has run |
| `TimerTheorems.CancelBound` | net/TimerQueue.cpp:95-108 | after a cancel the timer starts at most once more over the whole run, and only if it was in the running batch and not started |
| `TimerTheorems.NoTimerLost` | net/TimerQueue.cpp:86-171 | if all timers added are renewable, then whenever `handleRead` is not running the kernel timer has fired or fires by the earliest expiration or 100 microseconds after arming, whichever is later |
| `TimerSchedule.ArmedExactly` | net/TimerQueue.cpp:39-171 | the kernel timer is set exactly when a timer earlier than all others is added and when `reset` ends with a valid earliest time stamp, and then for the earliest expiration, or for 100 microseconds from now if that is later |
| `TimerSchedule.ArmedForLater` | net/TimerQueue.cpp:18-47 | `resetTimerfd` sets it for exactly the later of the two |
| `TimerSchedule.UncancelledRepeats` | net/TimerQueue.cpp:147-160 | over runs: a repeating timer that no step cancels stays alive, with its interval, and is waiting, in the running batch or posted, in every later state |
| `TimerSchedule.UncancelledRunsOnce` | net/TimerQueue.cpp:147-160 | over runs: a one-shot timer that no step cancels is freed only after it has started, and has then started once |
| `TimerSchedule.FreedExactly` | net/TimerQueue.cpp:95-160 | a step frees a timer if and only if it cancels it while it waits, or `reset` lets it go because it is one-shot or was cancelled during the batch |
| `TimerSchedule.Rescheduled` | net/TimerQueue.cpp:151-156 | a repeating timer of the batch that was not cancelled is put back, one period after its last expiration |
| `TimerSchedule.PostedCancelRuns` | net/TimerQueue.cpp:80-84 | a cancel posted by another thread is carried out once the loop has run the functors queued before it and one more |
| `TimerSchedule.PostedTimerAdded` | net/TimerQueue.cpp:72-93 | and a timer posted by another thread is then among the waiting ones |
| `TimerFailures.UnrenewableTimerLost` | net/TimerQueue.cpp:162-170 | any single timer that is not renewable ends up waiting with the kernel timer disarmed |
| `TimerFailures.LaterTimerLostToo` | net/TimerQueue.cpp:162-179 | and any timer with a valid time stamp added after it is lost with it |
| `TimerFailures.TimerLostIffOneUnrenewable` | net/TimerQueue.cpp:86-179 | among runs that add timers from a given set, some timer can be lost if and only if one of the set is not renewable |
| `TimerFailures.PosterReadSafeIff` | net/TimerQueue.cpp:72-78 | from every reachable state: the second half of `addTimer` always reads the live timer it made, whatever happens in between, if and only if the caller is the loop thread or the timer repeats |
| `TimerReaders.StepReads` | net/TimerQueue.cpp:72-186 | every step keeps what is known of unread timers: nobody holds their ids, and repeating ones and the loop's own are alive |
| `TimerQueue.InsertedOk` | net/TimerQueue.cpp:177-183 | inserting keeps the set ordered, adds exactly the entry, and changes the first entry exactly when the new one is earlier |
| `TimerQueue.DueIsPrefix` | net/TimerQueue.cpp:132-136 | the lower bound of (now, the largest pointer) separates the timers due from the rest |
| `TimerQueue.HowMuchTimeFromNow` | net/TimerQueue.cpp:18-32 | seconds and nanoseconds together are the delay, and at least 100 microseconds |
| `TimerQueue.StepInv` | net/TimerQueue.cpp:86-186 | the indices, ownership and schedule invariant is kept by every step |
| `TimerQueueObject.TimerQueue.Insert` | net/TimerQueue.cpp:173-186 | both indices gain the timer, and the answer says whether it is the earliest |
| `TimerQueueObject.TimerQueue.MakeTimer` | net/TimerQueue.cpp:72-76 | the first half of `addTimer`, adding at once or posting, is the machine's step |
| `TimerQueueObject.TimerQueue.ReadTimerId` | net/TimerQueue.cpp:77-77 | the second half, when safe, is the machine's step and returns the timer's id |
| `TimerQueueObject.TimerQueue.AddTimer` | net/TimerQueue.cpp:72-78 | both halves with nothing in between: the id names the new, live timer |
| `TimerQueueObject.TimerQueue.CancelInLoop` | net/TimerQueue.cpp:95-108 | cancelling in place is the machine's step |
| `TimerQueueObject.TimerQueue.GetExpired` | net/TimerQueue.cpp:129-145 | the due prefix leaves `timers_`, and the loop removes exactly its timers from `activeTimers_` |
| `TimerQueueObject.TimerQueue.Reset` | net/TimerQueue.cpp:147-171 | the loop is a run of reset steps, and the kernel timer is armed for the first valid expiration |
| `TimerQueueObject.TimerQueue.HandleRead` | net/TimerQueue.cpp:110-127 | whatever the callbacks do, the call is a run of the machine that starts exactly the timers due, once each, in order |
| `Buffers.Buffer.Append` | net/Buffer.h:103-107 | the contents gain the data at the end, with the exact sizes |
| `Buffers.Buffer.Prepend` | net/Buffer.h:137-142 | the contents gain the data in front |
| `Buffers.Buffer.Retrieve` | net/Buffer.h:66-74 | the contents lose the first bytes, and the indices are reset when nothing is left |
| `Buffers.Buffer.RetrieveAsString` | net/Buffer.h:96-101 | the result followed by the new contents is the old contents |
| `Buffers.Buffer.Unwrite` | net/Buffer.h:132-135 | the contents lose the last bytes |
| `Buffers.Buffer.MakeSpace` | net/Buffer.h:173-187 | growing and compacting keep the contents, and the compaction assertion holds |
| `Buffers.Buffer.EnsureWritableBytes` | net/Buffer.h:117-122 | room is made and the contents kept |
| `Buffers.Buffer.Shrink` | net/Buffer.h:158-163 | the contents are kept in a new vector of the exact size |
| `Buffers.Buffer.Swap` | net/Buffer.h:30-34 | contents and sizes are exchanged, also with itself |
| `Buffers.Buffer.ReadFd` | net/Buffer.cpp:10-32 | what the two-part read received is appended whole and in order; an error changes nothing |
| `Buffers.EnsuredGivesRoom` | net/Buffer.h:117-187 | making room gives what was asked and never shrinks; the vector grows exactly when the room in front beyond 8 bytes does not suffice, and by what is missing; otherwise the bytes move towards the front and exactly 8 bytes stay free before them |
| `Buffers.RoomToPrepend` | net/Buffer.h:66-187 | over any run without `prepend` at least 8 bytes are free in front in every state |
| `Buffers.GrowthIsBounded` | net/Buffer.h:173-176 | the storage grows only when content and data fill all but 8 bytes of it |
| `Buffers.StorageBounded` | net/Buffer.h:66-187 | over any run of append, retrieve, prepend, unwrite and readFd (not of ensureWritableBytes, hasWritten or shrink called by users) the storage is at most the initial size plus 8, or less than peak content plus largest append plus 8 |
| `TcpStream.StreamPreserved` | net/TcpConnection.cpp:81-146 | for all messages and socket answers, bytes on the wire followed by the output buffer are the accepted messages in order, and write interest is on exactly when bytes wait, until disconnection |
| `TcpStream.StepKeepsStream` | net/TcpConnection.cpp:81-128 | every step moves bytes in order, adds exactly the message taken on (none for a faulted one), and never takes back what was written |
| `TcpStream.WireGrowsByAnswer` | net/TcpConnection.cpp:81-256 | in every step the wire grows by exactly the bytes the socket answered, from the front of the message when nothing was waiting or from the front of the buffer when the loop writes, and by nothing otherwise |
| `TcpStream.LastWriteDrains` | net/TcpConnection.cpp:229-256 | a write that takes all that waits empties the buffer, turns write interest off, and half-closes exactly when the connection is disconnecting |
| `TcpStream.AcceptingSocketDrains` | net/TcpConnection.cpp:229-256 | over runs: while the loop only writes and the socket takes at least one byte each time, after as many steps as bytes waited all accepted bytes are on the wire, write interest is off, and the half-close has happened exactly when a shutdown was waiting |
| `TcpStream.HalfCloseIsLast` | net/TcpConnection.cpp:229-256 | at a half-close all accepted bytes are on the wire; nothing is written or accepted after it |
| `TcpStream.ShutdownCompletes` | net/TcpConnection.cpp:134-146 | after `shutdownInLoop` the socket is half-closed exactly when the buffer is empty, and otherwise write interest is on |
| `TcpStream.ShutdownTakesEffect` | net/TcpConnection.cpp:134-146 | over runs: `shutdown` of a connected connection turns it to disconnecting, and its `shutdownInLoop` before the close half-closes at once exactly when nothing waits, and otherwise leaves write interest on |
| `TcpStream.HighWaterOnCrossing` | net/TcpConnection.cpp:114-122 | the high-water notice is queued exactly when the buffered length crosses the mark upwards |
| `TcpStream.CompleteWhenDrained` | net/TcpConnection.cpp:94-100 | the write-complete notice is queued exactly when a write leaves nothing waiting, and every accepted byte is then on the wire |
| `TcpStream.BytesDroppedIffClosed` | net/TcpConnection.cpp:141-146 | a step newly half-closes with bytes waiting if and only if it is `shutdownInLoop` on a closed connection whose buffer is not empty |
| `TcpStream.HalfCloseCompleteIffOpen` | net/TcpConnection.cpp:134-256 | over runs: at a half-close every accepted byte is on the wire if and only if it did not come from such a step |
| `TcpStream.LateShutdownDropsBytes` | net/TcpConnection.cpp:134-146 | such a run exists |
| `TcpStream.TcpConnection.SendInLoop` | net/TcpConnection.cpp:81-128 | in place, over the buffer, the machine's step; the wire grows by exactly the bytes the socket took of the message |
| `TcpStream.TcpConnection.HandleWrite` | net/TcpConnection.cpp:229-256 | in place, the machine's step: the wire grows by exactly the bytes the socket took of the buffer, wire and buffer together are unchanged, and a write that takes all leaves the buffer empty, write interest off, and the socket half-closed exactly when disconnecting |
| `TcpStream.TcpConnection.ShutdownHere` | net/TcpConnection.cpp:134-146 | on the loop thread, a connection with an empty buffer is half-closed at once |
| `TcpStream.TcpConnection.HandleClose` | net/TcpConnection.cpp:258-262 | the state is disconnected and write interest off |
| `TcpLifecycleTheorems.NoAssertionFails` | net/TcpServer.cpp:155-194 | in every interleaving of the loops in which calls from other threads set the state before the connection closes: `connectEstablished` finds the connection connecting, `handleClose` finds it open, the erase finds one entry, `Channel::remove` finds no interest, the destructor finds it disconnected |
| `TcpLifecycleTheorems.OneUpOneDown` | net/TcpConnection.cpp:195-211 | in the same runs: the user sees one "up", at most one "down" after it; destruction happens at most once, after both the "down" and the erase |
| `TcpLifecycleTheorems.EraseFindsOne` | net/TcpServer.cpp:184-194 | the erase removes exactly one entry, the connection's own |
| `TcpLifecycleTheorems.DestroyedLast` | net/TcpConnection.cpp:204-211 | `connectDestroyed` runs once, on the connection's own loop, when it is down and forgotten |
| `TcpLifecycleTheorems.NothingLeftBehind` | net/TcpServer.cpp:180-194 | with no functor queued, the map holds exactly the open connections and all others have been destroyed |
| `TcpLifecycleTheorems.DealtInTurn` | net/TcpServer.cpp:105-117 | connection c lives on io loop c modulo their number |
| `TcpLifecycleClosing.ForceCloseTakesEffect` | net/TcpConnection.cpp:148-171 | over runs: once the loop of the connection has run the functors queued before that of `forceClose` and one more, the connection is down, with one "down"; until then the functor waits exactly behind those |
| `TcpLifecycleClosing.DelayedCloseTakesEffect` | net/TcpConnection.cpp:157-171 | over runs: the timer of `forceCloseWithDelay` is set until it fires, and once one of the connection's timers has fired the connection is down |
| `TcpLifecycleClosing.CloseEnds` | net/TcpConnection.cpp:166-267 | a forced close, a delayed one or the peer's leaves the connection down, with one "down" more exactly if it was open |
| `TcpLifecycleClosing.CallTakesEffect` | net/TcpConnection.cpp:134-164 | `shutdown` goes past its test exactly on a connected connection, a forced close exactly on an open one; what goes on marks the connection, and a forced close is queued last on its loop, or timed |
| `TcpLifecycleFailures.SetCanFailIffClosed` | net/TcpConnection.cpp:134-171 | in every reachable state, some continuation of the set that ends a call runs into a failed assertion if and only if the connection has been closed since the call's test |
| `TcpLifecycleFailures.CallCanFailIffForeign` | net/TcpConnection.cpp:134-164 | from every reachable state, a `shutdown`, `forceClose` or `forceCloseWithDelay` whose test passes can end so if and only if it is made on another thread than the connection's own loop |
| `TcpLifecycleFailures.ForeignCallMayFail` | net/TcpConnection.cpp:134-164 | for every number of loops, already the first connection can be hit by such a call |
| `TcpLifecycleFailures.LateSetClosesTwice` | net/TcpConnection.cpp:148-171 | from any state at rest, a late set by `forceClose` leads on an io loop to a second "down" and then a failing erase, and on the base loop to the failing erase at once |
| `TcpLifecycleFailures.LateSetFailsDestructor` | net/TcpConnection.cpp:44-49 | from any state at rest, a late set by `shutdown` makes the assertion of the destructor fail |
| `TcpLifecycleFailures.ForeignForceCloseMayCloseTwice` | net/TcpConnection.cpp:148-171 | a state at rest with such a late `forceClose` is reachable |
| `TcpLifecycle.NamesAreUnique` | net/TcpServer.cpp:157-160 | the names given to two connections differ |
| `TcpLifecycle.StepInv` | net/TcpServer.cpp:155-194 | the exact stage of each connection, with what is queued for it, is kept by every step of every loop whose sets are in time |
| `TcpLifecycle.OwnCallIsFresh` | net/TcpConnection.cpp:134-164 | a call on the connection's own loop always sets the state in time |
| `TcpLifecycleTheorems.TcpServer.GetNextLoop` | net/TcpServer.cpp:105-117 | round robin over the io loops |
| `TcpLifecycleTheorems.TcpServer.NewConnection` | net/TcpServer.cpp:155-178 | a new name, a new entry, the next loop, and the connection established or its functor queued |
| `TcpLifecycleTheorems.TcpServer.HandleClose` | net/TcpConnection.cpp:258-267 | the connection goes down and its removal runs or is queued on the base loop |
| `TcpLifecycleTheorems.TcpServer.RemoveConnectionInLoop` | net/TcpServer.cpp:184-194 | the entry goes, and the destruction is queued on the connection's loop |
| `TcpLifecycleTheorems.TcpServer.ConnectDestroyed` | net/TcpConnection.cpp:204-211 | the channel is removed with no interest left |
| `TcpLifecycleTheorems.TcpServer.ForceClose` | net/TcpConnection.cpp:148-155 | on its own loop, an open connection is marked and its close queued, and any other is left alone |
| `TcpLifecycleTheorems.TcpServer.RunTask` | net/TcpServer.cpp:180-194 | running the oldest functor of a loop keeps the whole protocol |
| `BatchPool.TaskInOnePlace` | base/ThreadPool.cc:65-143 | every accepted task is in the queue, in the unread part of one cache, or started, in exactly one of these, and is started at most once |
| `BatchPool.BatchIsOldest` | base/ThreadPool.cc:115-141 | a worker that finds tasks takes the oldest, at least one and at most the batch size, which is 4, 8, 16, 32 or 64 |
| `BatchPool.AdaptedOk` | base/ThreadPool.cc:115-120 | the batch size stays among 4, 8, 16, 32, 64, doubles exactly when the backlog exceeds two batches and it is below 64, and halves exactly when the backlog is under half of one and it is above 4 |
| `BatchPool.NoLostWakeup` | base/ThreadPool.cc:133-139 | tasks waiting and a worker parked un-notified imply another notified worker; a producer parked un-notified implies at least 7500 tasks queued |
| `BatchPool.NoStall` | base/ThreadPool.cc:88-143 | while a task is queued some worker can take or start one |
| `BatchPool.BackPressure` | base/ThreadPool.cc:69-141 | a task is taken on exactly while fewer than 10000 wait, or without workers, and its producer waits otherwise; a batch rouses all waiting producers exactly when it leaves fewer than 7500 |
| `BatchPool.NotifiesOne` | base/ThreadPool.cc:77-135 | each queued task, and each batch that leaves tasks behind, notifies exactly one parked worker if there is one; exactly a worker that finds no task parks |
| `BatchPool.OneWorkerStartsInOrder` | base/ThreadPool.cc:65-191 | with one worker the started tasks, its cache and the queue, in this order, are all tasks accepted, in the order of acceptance |
| `BatchPool.StepInv` | base/ThreadPool.cc:65-191 | conservation and the wakeup invariant are kept by every critical section, start and spurious wakeup |
| `BatchPool.ThreadPool.Submit` | base/ThreadPool.cc:65-82 | under the lock, a task is queued and a worker notified, or, exactly when 10000 wait, the producer waits |
| `BatchPool.ThreadPool.FillLocalCache` | base/ThreadPool.cc:88-143 | under the lock, the oldest batch moves to the cache and the right waiters are notified; it answers at least 1 unless it waits |
| `BatchPool.ThreadPool.Consume` | base/ThreadPool.cc:185-189 | the loop starts exactly the unread tasks, in order |
| `ChunkAllocator.AlwaysTiled` | pool/MemPool.cpp:25-76 | after any sequence of calls, in which callers ask for 1 to 256 bytes and give back what they hold, and nothing is assumed of the states passed but what `AlwaysInBounds` shows, blocks and remainder are aligned, pairwise apart, and add up to `heapSize_`; each block is handed out or on one free list, of its size |
| `ChunkAllocator.AlwaysInBounds` | pool/MemPool.cpp:34-68 | in every reachable state the next call indexes the table of free lists within its bounds |
| `ChunkAllocator.FittingIsQuotient` | pool/MemPool.cpp:55-60 | the division of line 56 is the number of blocks that fit |
| `ChunkAllocator.AllocateReturnsOwnBlock` | pool/MemPool.cpp:25-76 | `allocate` returns a block nobody holds, apart from all held ones, aligned, and less than 8 bytes larger than asked |
| `ChunkAllocator.DonationIsSmallerClass` | pool/MemPool.cpp:64-69 | a remainder too small for the class asked for is a block of a strictly smaller class |
| `ChunkAllocator.GrownSuffices` | pool/MemPool.cpp:63-75 | after a system grant the remainder covers the whole request, so the recursion is one level deep |
| `ChunkAllocator.GrowsByTwiceAndSixteenth` | pool/MemPool.cpp:62-73 | the system is asked exactly when the free list is empty and the remainder is smaller than a block, for twice 20 blocks and a sixteenth of the heap, rounded up to 8 bytes |
| `ChunkAllocator.MissStocksList` | pool/MemPool.cpp:25-60 | a miss cuts 20 blocks, or as many as fit into a remainder that holds at least one, and puts all but one on its list; a hit takes one off |
| `ChunkAllocator.RefilledInv` | pool/MemPool.cpp:25-43 | overwriting the free list in `refill` drops no block |
| `ChunkAllocator.IndexIsClassIff` | pool/MemPool.cpp:34-66 | `freeListIndex`: the index is in the table if and only if at least one byte is asked for, and then it is the class of the rounded size |
| `ChunkAllocatorObject.MemPool.ChunkAlloc` | pool/MemPool.cpp:45-76 | the recursive method delivers the chunk and the count of the specification, with all free lists intact |
| `ChunkAllocatorObject.MemPool.Refill` | pool/MemPool.cpp:25-43 | the chunk is divided, its rest linked through memory into the class's list |
| `ChunkAllocatorObject.MemPool.Thread` | pool/MemPool.cpp:37-41 | the loop links the blocks into one chain and touches no other word |
| `ChunkAllocatorObject.MemPool.Allocate` | pool/MemPool.cpp:25-43 | a listed block, or what `refill` returns when the list is empty, as the specification says; the counter grows except on a refill |

## Left out

- Weak memory orders: all atomic operations are sequentially consistent, and torn data races do not arise.
- Wrap-around of 64-bit queue positions, timer sequence numbers and connection numbers.
- Fairness: a call of the lock-free structures is shown to finish when its thread steps alone; while other threads keep succeeding it can retry for as long as they do.
- Capacity 0 of the queues, which the `static_assert` also admits, and destruction of queues in use.
- `LFStack` and `TaggedPointer` in base/TaggedPointer.h: the packing is modelled inside the free list.
- Pointers wider than 48 bits, and a `next` word read from an overwritten block being OR-ed with a tag: such a CAS is proved to fail while the tag is fresh.
- `HazardPointerDomain::reclaimAll` and `LFMemoryPool::cleanup`, which assume that all other threads have stopped.
- One instance of `LFMemoryPool` is modelled; thread caches shared between instances are not.
- base/DynamicThreadPool.h: its counter does not track live workers.
- `ThreadPool` in CACHE mode, `maybeAdjust` and `stop`; and tasks that submit tasks while their worker waits for room, which could make all workers wait.
- `LockFreeThreadPool::stop`, and `run` before `start` or without workers.
- net/EventLoop.cpp is not part of this model: a loop is a first-in first-out queue of functors, `runInLoop` runs at once on its own loop, `queueInLoop` always queues.
- Channel dispatch: one event takes at most one path to `handleClose`, and none arrives after `disableAll`; net/Channel.cpp is not modelled.
- `startRead` after disconnection, and functors that hold a bare `this` after the connection is gone.
- `TcpServer` destruction, starting and stopping of loop threads, `forceCloseWithDelay` beyond its timer firing at some later time.
- A call that a loop thread makes on a connection of another loop counts as a call of another thread, and does not hold up the loop that makes it.
- `Buffers.StorageBounded`: its runs do not include `ensureWritableBytes`, `hasWritten` and `shrink` called by users, because room reserved and never written is not content, and shrinking starts a new vector.
- `findCRLF`, `findEOL` and the fixed-width integer helpers of net/Buffer.h, which only add easy members.
- Rounding of the floating-point interval of a timer: it is a real number, truncated to microseconds.
- Jumps of the wall clock against the monotonic timer: both are one clock.
- `TimerQueue` destruction.
- `ChunkAllocator.IndexIsClassIff`: `allocate(0)` is described only up to the index, because what follows is undefined behaviour.
- Failure of the system allocator, sockets, epoll, readv, write, logging, addresses, the io_uring and coroutine directories.
