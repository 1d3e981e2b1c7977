# dtact: a verified model of the runtime's concurrent core

This project models the heart of the `dtact` fiber runtime in Dafny and proves, for every input, every
run and every reachable state, what its documentation promises, or exactly when that promise holds.

Concurrent code is a state machine: a program counter per thread, one shared access of the source per
step, and theorems over every interleaving (`Valid` schedules, `Run`/`Execute` their result). Components
of a state that are called *history* are written and never read by a step; theorems are stated with them.
Code that one thread runs over its own data is a class with fields, arrays and loops, proved against
the plain sequence it represents.

* **Lock-free structures** (`dtact-util/src/lockfree.rs`): the Vyukov ring (`MpmcRing`, `MpmcSafety`,
  `MpmcTheorems`, what its callers are told in `MpmcCalls`; with the backlog counter and the refusals
  of the warehouse in `MpmcBacklog`, `MpmcFull`), the tagged free list (`FreeList*`), the single-producer ring as two threads (`SpscRing`)
  and as an object (`SpscQueue`), the waker slot (`WakerSlot`, `WakerDelivery`) and the once-slot.
* **The mesh scheduler** (`src/dta_scheduler.rs`): queues and mailboxes as in-place rings
  (`WorkerQueues`), the mailbox as two threads (`MailboxRing`), the mesh as a value (`Mesh`), target
  selection, hopping and routing (`Routing`, `RoutingSpread`), and the scheduler object, which owns its
  rings and runs its loops on them (`Scheduler`).
* **The fiber lifecycle on that mesh** (`Lifecycle`): spawners, wakers, dispatching workers and the
  fibers they run, with every state transition, queue push and routing step interleaved. On it:
  single ownership (`LifecycleOwner`), order (`LifecycleFifo`), the wait loop (`LifecycleLoop`), which
  wakes are lost (`LifecycleWake`, `LifecycleTheorems`, `LifecycleNesting`), when an ended fiber is
  resumed (`LifecycleEnd`, `LifecyclePressure`), bounded routing (`LifecycleJourneys`), the capacity
  theorem and its exact bound (`LifecycleCapacity`, `LifecycleBounds`), when a pinned fiber leaves its
  worker (`LifecyclePinning`, `LifecycleStray`, `LifecyclePinBound`), no stranding
  (`LifecycleStranding`), and the proof that its steps compose to the scheduler's calls
  (`LifecycleCalls`). Safety is proved for all its runs. Every run that shows
  something failing is *admissible* (`LifecycleScenes.Real`): a push in a worker's name is made by a
  fiber that is running on that worker, and a wake carries a core that a handle or waiter entry of the
  context was given, in this use of the context or an earlier one.
* **Joining** (`Join`, `JoinTheorems`, `JoinChecks`, `JoinStray`, `HandleWord`): `dtact_await` against a
  context slot that is finished, freed and recycled under it.
* **The context arena** (`Tiling`, `Arena`, `ContextPool`): slots, guard pages, buffers, futures and
  stack tops.

Where the code and its documentation disagree the model follows the code, and says with a run that
fails, and with an if-and-only-if, what holds:

* `TreiberStack::new` is documented as holding all slots and starts empty; both starting states are
  modelled (`FreeList.Linked`, `FreeList.Empty`).
* A `BoundedMpmcQueue` of capacity 1 is accepted and overwrites values (`NeverOverwritesIff`).
* `AtomicWakerSlot` alone can lose a wake for good (`LostIffMissed`, `SlotAloneCanLoseWake`), and
  otherwise delivers it (`TakeDelivers`).
* The warehouse-overflow panic speaks of a backlog beyond 32768 chunks and can strike below
  (`RefusedIffFullOrHeldBack`, `WarehouseRefusesEarly`).
* `dispatch_loop` asserts that re-enqueueing a notified fiber cannot fail since a slot was just freed;
  the fiber may have filled the queue while it ran (`ReenqueueSucceedsIff`).
* "Pinned chunks never enter the warehouse", and pinned fibers stay on their worker, up to the
  watermark only: beyond it the router can send one to another worker's mailbox, or, when there is
  just one worker, to the warehouse (`PinnedStaysHomeIff`). Up to the watermark exactly one thing moves
  a pinned fiber: a wake that finds it parked and carries another worker's core
  (`PinnedLeavesHomeIff`), as a handle kept from an earlier fiber of the context does
  (`StaleHandleLeavesHome`). Both together: `AlwaysHomeIff`.
* The wait loop's comment argues that no wake is lost. That holds for a poll in which no other wait
  begins (`NoLostWake`); a wait nested in the poll can erase the wake, and nothing else can
  (`WakeLostIffErased`, `ErasedIff`, `NestedWaitLosesWake`).
* The stride of the hops is called coprime to small worker counts; it is unless 7 divides the count,
  and then the targets repeat after a seventh of the workers (`TargetsAgreeIff`).
* With a single worker an overflowing local queue spills into a mailbox that nobody polls
  (`SingleWorkerStrands`).
* A wake that lands on a fiber after its end, and before its dispatcher reads its state, resumes it
  past its end (`EndedFiberRequeuedIff`, `LateWakeReachable`); so does the fiber's own yield when it
  finds its joiner's mailbox full, with no wake at all (`BackPressureResumesEnded`).
* A single joiner can wait for a wake that never comes (`StrandedIffFooled`, `StrayWakeStrands`).

## Model

| member | source | states |
|---|---|---|
| `MpmcSafety.FreshInv` | dtact-util/src/lockfree.rs:963-988 | a new ring satisfies the invariant that ties every cell's sequence number to the stage of the position it serves |
| `MpmcSafety.StepKeepsInv` | dtact-util/src/lockfree.rs:995-1067 | every step of every push and pop, with spurious exchange failures and stale reloads, keeps that invariant, for any number of threads |
| `MpmcSafety.RunKeepsInv` | src/dta_scheduler.rs:464-592 | so does every run, of the queue and of the warehouse ring |
| `MpmcTheorems.StepRefinesFifo` | dtact-util/src/lockfree.rs:995-1067 | refinement: each step appends one value at the back, removes the front one, or leaves the abstract bounded queue alone |
| `MpmcTheorems.QueueBounded` | dtact-util/src/lockfree.rs:995-1029 | never more values than cells |
| `MpmcTheorems.EveryValueExactlyOnce` | dtact-util/src/lockfree.rs:995-1067 | over any run the value moved out of a position is the one pushed there, and a position is read at most once, exactly once when its consumer got that far |
| `MpmcTheorems.PopReturnsWhatWasPushed` | dtact-util/src/lockfree.rs:1034-1067 | a pop hands its caller the value pushed at the position it claimed |
| `MpmcTheorems.PushRefusedIff` | dtact-util/src/lockfree.rs:995-1029 | a push is refused if and only if, at that instant, its position is the next one and the position one lap before is unreleased |
| `MpmcTheorems.PopEmptyIff` | dtact-util/src/lockfree.rs:1034-1067 | a pop finds nothing if and only if, at that instant, the front position is unpublished |
| `MpmcCalls.CallsAnswer` | dtact-util/src/lockfree.rs:995-1067 | what callers are told, over every run of queue and warehouse: a push returns nothing if and only if it won a position, where its own value is then published, and otherwise its own value; a pop returns None if and only if it won no position, and otherwise the value pushed at the one it won |
| `MpmcCalls.RefusedOnlyForCause` | dtact-util/src/lockfree.rs:995-1067 | no step refuses a push unless the next cell has not been given back, or a pop unless the front position is unpublished: a lost race or a spurious failure is no refusal |
| `MpmcCalls.PushAlone` | dtact-util/src/lockfree.rs:995-1029 | whatever the others are stuck in, a push on its own goes through if the next cell has been given back, and is refused otherwise |
| `MpmcCalls.PopAlone` | dtact-util/src/lockfree.rs:1034-1067 | and a pop on its own returns the front value if that is published, and None otherwise |
| `MpmcTheorems.UnpublishedHasProducer` | dtact-util/src/lockfree.rs:1080-1106 | a claimed and unpublished position has a producer that is about to publish it, so waiting for it ends |
| `MpmcTheorems.DrainComplete` | dtact-util/src/lockfree.rs:1076-1106 | when the drain returns, every position below its snapshot has been claimed by a consumer, published at the snapshot or not |
| `MpmcCalls.DrainStopsIff` | dtact-util/src/lockfree.rs:1080-1106 | the loop test of the drain stops it if and only if every position below its target has been taken |
| `MpmcCalls.DrainTakesAllThatWasThere` | dtact-util/src/lockfree.rs:1076-1106 | over every run, a drain that has returned leaves none of the positions that had been claimed when it began |
| `MpmcTheorems.FirstNoneMissesClaimedPush` | dtact-util/src/lockfree.rs:1085-1096 | a loop that stops at the first None does skip a claimed push: the run |
| `MpmcTheorems.CapacityTwoNeverOverwrites` | dtact-util/src/lockfree.rs:963-1029 | with two cells or more no run overwrites an unread value |
| `MpmcTheorems.CapacityOneOverwrites` | dtact-util/src/lockfree.rs:963-1029 | with one cell some run does: published and free-for-the-next-lap coincide |
| `MpmcTheorems.NeverOverwritesIff` | dtact-util/src/lockfree.rs:963-1029 | the two together: no overwriting exactly from capacity 2 on |
| `MpmcBacklog.StepKeepsBacklog` | src/dta_scheduler.rs:464-592 | every step keeps: counter = tail - head, corrected by what calls in flight have yet to report, modulo 2^32 |
| `MpmcBacklog.BacklogAccounts` | src/dta_scheduler.rs:499-505 | so does every run of the warehouse |
| `MpmcBacklog.QuiescentBacklogExact` | src/dta_scheduler.rs:594-599 | with no call in flight the counter is tail - head, and is_busy holds exactly when a published chunk waits at the front |
| `MpmcBacklog.BacklogCanUnderflow` | src/dta_scheduler.rs:567-572 | in flight it can read 2^32 - 1 on an empty ring: the run |
| `MpmcFull.RefusedIffFullOrHeldBack` | src/dta_scheduler.rs:464-530 | the warehouse refuses a chunk if and only if it holds as many as it has cells, or the consumer of the cell it needs has claimed it and not given it back |
| `MpmcFull.WarehouseRefusesEarly` | src/dta_scheduler.rs:1280-1293 | so the overflow panic can strike with 32767 chunks queued, though its text says the backlog exceeds 32768: the run |
| `FreeListSafety.LinkedInv` | dtact-util/src/lockfree.rs:168-196 | a pool that starts with all chunks linked satisfies the list invariant |
| `FreeListSafety.EmptyInv` | dtact-util/src/lockfree.rs:33-60 | so does a stack that starts empty, with all indices held by its creator |
| `FreeListSafety.StepKeepsInv` | dtact-util/src/lockfree.rs:69-113 | every step of push and pop, with stale successor reads, keeps it, as long as no thread sleeps through 2^32 exchanges between its load and its exchange |
| `FreeListSafety.RunKeepsInv` | src/memory_management.rs:571-647 | so does every such run, also of alloc_context and free_context |
| `FreeListTheorems.AlwaysPartitioned` | dtact-util/src/lockfree.rs:69-113 | the list from the head is acyclic and duplicate-free, and free, held and in-transit indices partition the pool |
| `FreeListTheorems.PopHandsOutFront` | dtact-util/src/lockfree.rs:92-113 | a pop whose exchange wins returns the front index, which nobody held, takes it off the list and changes nothing else |
| `FreeListTheorems.PopEmptyIff` | dtact-util/src/lockfree.rs:91-113 | whenever a pop looks, at its start or after a failed exchange, it reports exhaustion if and only if the list is empty at that instant |
| `FreeListCalls.NoneIffUntouched` | dtact-util/src/lockfree.rs:91-113 | in every run, prompt or not, a pop returns None if and only if its call left the head word and all links as they were, and an index if and only if it changed them |
| `FreeListCalls.NothingLeaks` | src/memory_management.rs:577-647 | in every prompt run from either constructor each index of the pool is on the list, or was returned by a pop (or held by the creator) and not pushed back, or is being pushed back: exactly one of them, judged by what callers see |
| `FreeListTheorems.HeldChunksDisjoint` | dtact-util/src/lockfree.rs:196-231 | chunks held at the same time are disjoint byte ranges inside the buffer |
| `FreeListTheorems.TagWrapBreaksTheList` | dtact-util/src/lockfree.rs:92-113 | a run in which a thread sleeps through precisely 2^32 updates and puts a held index back on the list |
| `FreeListTheorems.SafeWithinIff` | dtact-util/src/lockfree.rs:91-113 | the delay the tag absorbs, exactly: all runs whose threads are overtaken by fewer than K updates are sound if and only if K <= 2^32 |
| `SpscRing.RunKeepsInv` | dtact-util/src/lockfree.rs:655-691 | every interleaving of one producer and one consumer with stale index reads keeps the ring invariant, with counters modulo 2^64 |
| `SpscRing.SlotIsPosition` | dtact-util/src/lockfree.rs:738-769 | the two-run copy, computed from a wrapped counter, writes the cell of the unbounded position |
| `SpscRing.PoppedIsPrefixOfPushed` | dtact-util/src/lockfree.rs:655-800 | what has come out is a prefix of what has gone in, at most one buffer behind, across any number of counter wraps |
| `SpscRing.NoDataRace` | dtact-util/src/lockfree.rs:738-800 | producer and consumer never touch the same cell at the same time |
| `SpscRing.RefusalsAreReal` | dtact-util/src/lockfree.rs:655-691 | a call moves nothing if and only if the ring was full (empty) when it looked, or it asked for nothing; otherwise it sets out to move as much as fits and is there |
| `SpscRing.CallsAnswer` | dtact-util/src/lockfree.rs:640-760 | in every run a push returns the number of elements it appended, the first ones it was given, and a pop returns exactly what it took off the stream |
| `SpscQueueObject.SpscQueue.constructor` | dtact-util/src/lockfree.rs:626-643 | an empty queue |
| `SpscQueueObject.SpscQueue.Push` | dtact-util/src/lockfree.rs:655-671 | appends unless the queue holds its capacity |
| `SpscQueueObject.SpscQueue.Pop` | dtact-util/src/lockfree.rs:675-691 | removes the front, or reports empty |
| `SpscQueueObject.SpscQueue.PushSlice` | dtact-util/src/lockfree.rs:738-769 | in place and with the split copy, stores what that many single pushes would store |
| `SpscQueueObject.SpscQueue.PopSlice` | dtact-util/src/lockfree.rs:773-800 | fills the front of the destination with what that many single pops would return, and leaves the rest of it alone |
| `SpscQueueObject.PushAllStoresPrefix` | dtact-util/src/lockfree.rs:726-738 | repeated single pushes store as long a prefix as fits |
| `SpscQueueObject.PopAllTakesPrefix` | dtact-util/src/lockfree.rs:767-773 | repeated single pops take as long a prefix as there is |
| `WakerSlot.RunKeepsInv` | dtact-util/src/lockfree.rs:307-392 | every mix of register and take_and_wake steps, with the exchange and the fetch_or apart, keeps state word and critical section in step |
| `WakerSlot.MutualExclusion` | dtact-util/src/lockfree.rs:307-392 | at most one thread is ever in the waker cell's critical section |
| `WakerSlot.CallsAreWaitFree` | dtact-util/src/lockfree.rs:307-392 | every step of its own brings a register or take_and_wake closer to its end, which it reaches in at most six |
| `WakerSlot.StrandedIffLate` | dtact-util/src/lockfree.rs:365-389 | the state word is taken with nobody inside if and only if some take_and_wake set its bit after the registration it had seen was over |
| `WakerSlot.StrandedForGood` | dtact-util/src/lockfree.rs:307-392 | and from then on no stored waker is ever taken out |
| `WakerSlot.LostIffMissed` | dtact-util/src/lockfree.rs:365-389 | a waker is lost, stored in a slot that nobody will empty, if and only if such a bit was set with a waker stored |
| `WakerDelivery.RunKeepsOwed` | dtact-util/src/lockfree.rs:307-392 | every step without such a bit passes on the debt a take_and_wake has to the waker it found |
| `WakerDelivery.TakeDelivers` | dtact-util/src/lockfree.rs:307-392 | the for-all half: in every run without one, a waker stored or being stored when a take_and_wake begins has, once all calls have returned, been woken or been replaced by a later registration |
| `WakerDelivery.RegistrationsAreHeard` | dtact-util/src/lockfree.rs:307-362 | in every run a register that has returned has stored its waker or called it since it began, whatever the contention |
| `WakerSlot.SlotAloneCanLoseWake` | dtact-util/src/lockfree.rs:365-389 | a run of one register and one take_and_wake that loses the wake |
| `OnceSlot.RunKeepsInv` | dtact-util/src/lockfree.rs:851-891 | one set and any number of polls, every step of the waker slot included, keep the completion invariant |
| `OnceSlot.CompletionNeitherLostNorDuplicated` | dtact-util/src/lockfree.rs:851-891 | the value is delivered at most once; after set returns it has been delivered, or is there and the waker of a pending poll has been called since that poll began |
| `OnceSlot.PollTakesValue` | dtact-util/src/lockfree.rs:870-891 | a poll in progress when the value is there returns it, never Pending, within a bounded number of its own steps, whatever the setter does; a poll that begins then needs two |
| `WorkerQueues.LocalQueue.constructor` | src/dta_scheduler.rs:772-786 | an empty queue |
| `WorkerQueues.LocalQueue.PushLocal` | src/dta_scheduler.rs:827-841 | appends; refuses exactly a queue of 131071 |
| `WorkerQueues.LocalQueue.PushBatch` | src/dta_scheduler.rs:850-880 | appends the batch in order, also when the copy splits at the end of the buffer |
| `WorkerQueues.LocalQueue.PopFront` | src/dta_scheduler.rs:895-915 | removes the front, or reports empty |
| `WorkerQueues.Mailbox.FullTest` | src/dta_scheduler.rs:313-319 | the full test fires exactly at 65535 chunks |
| `WorkerQueues.Mailbox.Push` | src/dta_scheduler.rs:313-347 | the code on its ring, in place: appends unless full (two threads: `MailboxRing`) |
| `WorkerQueues.Mailbox.Pop` | src/dta_scheduler.rs:349-366 | the code on its ring, in place: removes the front, or reports empty (two threads: `MailboxRing`) |
| `MailboxRing.RunKeepsInv` | src/dta_scheduler.rs:313-366 | every interleaving of a producer and a consumer, with masked indices and one slot kept empty, keeps the ring invariant |
| `MailboxRing.MailIsFifo` | src/dta_scheduler.rs:313-366 | what has come out is, in order, what has gone in, and at most 65535 chunks are in between |
| `MailboxRing.NoDataRace` | src/dta_scheduler.rs:313-366 | the slot being written and the slot being read differ |
| `MailboxRing.RefusalsAreReal` | src/dta_scheduler.rs:313-357 | a push is refused if and only if 65535 chunks are queued when it looks, a pop finds nothing if and only if none is |
| `MailboxRing.CallsAnswer` | src/dta_scheduler.rs:313-357 | in every run a push reports success if and only if its own chunk was appended, and a pop returns exactly what it took out |
| `WorkerQueues.PollingOrder` | src/dta_scheduler.rs:755-770 | a duplicate-free list of exactly the other workers: those of the same core complex first, upwards, then the rest in the order in which they follow the own core, wrapping around |
| `Routing.OffOwnColumn` | src/dta_scheduler.rs:1225-1228 | the target is in range and, with several workers, never the pusher's own column; unchanged otherwise |
| `Routing.HopTarget` | src/dta_scheduler.rs:1250-1261 | a hop never leaves the range of workers and, with two workers or more, never returns to the own column, including the wrapping addition for host threads |
| `RoutingSpread.TargetsAgreeIff` | src/dta_scheduler.rs:1250-1261 | two hop counts give a host thread the same target if and only if they differ by a multiple of the period, n, or n/7 when 7 divides n; from a worker they otherwise agree only where one was bumped off its own column |
| `RoutingSpread.HopsSpread` | src/dta_scheduler.rs:1250-1261 | within a period, successive hops reach as many different workers as there are hops, less one for the bump |
| `RoutingSpread.ParkedMeansManyFull` | src/dta_scheduler.rs:1218-1265 | a chunk that the hop loop leaves out of all mailboxes was refused by its target and by that many different full ones |
| `Routing.DeflectStaysInGroup` | src/dta_scheduler.rs:1158-1187 | below its threshold a worker keeps its work; above it deflection stays inside a complete core complex or NUMA node, at the hashed offset |
| `Routing.GlobalDeflects` | src/dta_scheduler.rs:1158-1187 | without locality the target follows the source at the hashed distance: with more than 14 workers never the source itself, and with 8 or more a different one for each of eight neighbouring flows |
| `Routing.FlowsSpread` | src/dta_scheduler.rs:1158-1170 | that distance is between 1 and 14, the part from the higher bits odd, and differs between neighbouring flows as their low bits do |
| `Routing.HopsAreFirstFit` | src/dta_scheduler.rs:1218-1265 | the hop loop puts the chunk, with its hop count, into the first mailbox with room along the probe sequence, and parks it only when all up to the hop limit are full |
| `Routing.PushChunkConserves` | src/dta_scheduler.rs:1218-1265 | it adds the chunk's tasks once, or fails and adds nothing |
| `Routing.FailedPushChangesNothing` | src/dta_scheduler.rs:1278-1293 | it fails only on a full warehouse and then nothing has changed |
| `Routing.EnqueueAddsOnce` | src/dta_scheduler.rs:1104-1203 | both enqueues add their one task exactly once, or report failure and change nothing |
| `Routing.PollConserves` | src/dta_scheduler.rs:1337-1391 | taking a chunk from a mailbox and routing it leaves the multiset of tasks in the mesh alone |
| `Routing.RouteAdds` | src/dta_scheduler.rs:1399-1454 | the router puts all of a chunk's tasks somewhere, once |
| `Routing.DrainConserves` | src/dta_scheduler.rs:1305-1324 | so does a drain step |
| `Routing.RouterMoves` | src/dta_scheduler.rs:1399-1454 | the router moves a chunk to the worker's own queue if and only if it fits under the watermark, else on by one hop, else to the warehouse |
| `Routing.MovesApproachLocal` | src/dta_scheduler.rs:1399-1454 | each such move strictly decreases a measure that is 0 in a local queue |
| `LifecycleJourneys.RunKeepsTrip` | src/dta_scheduler.rs:1218-1454 | every run keeps: a chunk that has made h hops has been deposited in mailboxes at most h + 1 times, and never in the warehouse before |
| `LifecycleJourneys.JourneysAreShort` | src/dta_scheduler.rs:1218-1454 | bounded routing: in every run, from one dispatch of a fiber to the next, it is put into mailboxes at most max_hops + 1 times and into the warehouse at most once |
| `Routing.NothingStranded` | src/dta_scheduler.rs:1208-1261 | with two workers or more no enqueue and no routing puts a chunk where nobody polls |
| `Routing.SingleWorkerStrands` | src/dta_scheduler.rs:1225-1228 | with one worker an enqueue does so if and only if the local queue is full |
| `Scheduler.DtaScheduler.constructor` | src/dta_scheduler.rs:1020-1059 | all rings allocated, pairwise apart and empty; every worker polls exactly the others, each once, those of its own core complex first |
| `Scheduler.DtaScheduler.EnqueuePinned` | src/dta_scheduler.rs:1104-1134 | on the rings, computes the pinned enqueue and adds the one task exactly once, or nothing |
| `Scheduler.DtaScheduler.PushChunkWithHop` | src/dta_scheduler.rs:1218-1265 | the hop loop computes the recursive first-fit push |
| `Scheduler.DtaScheduler.EnqueueDeflect` | src/dta_scheduler.rs:1142-1203 | computes the deflecting enqueue for the chosen target and adds the one task exactly once, or nothing |
| `Scheduler.DtaScheduler.PushBatchOnce` | src/dta_scheduler.rs:843-880 | the in-place batch copy appends to the one queue and leaves every other ring alone; its callers all have the headroom that push_batch asks for |
| `Scheduler.DtaScheduler.DrainWarehouse` | src/dta_scheduler.rs:1305-1324 | moves k <= 64 chunks in order, conserving all tasks; stops early only on an empty warehouse or a queue near the watermark, which it never exceeds |
| `Scheduler.DtaScheduler.RouteChunk` | src/dta_scheduler.rs:1399-1454 | on the rings, computes the four-way routing and meets the headroom contract of push_batch |
| `Scheduler.DtaScheduler.PollInbox` | src/dta_scheduler.rs:1345-1368 | conserves all tasks and leaves the mailbox empty unless the queue has no room for a full chunk; other mailboxes of this worker are untouched; it reports having received something if and only if there was a chunk and room for it, and otherwise changes nothing |
| `Scheduler.DtaScheduler.PollWorkers` | src/dta_scheduler.rs:1345-1369 | a pass over the given workers conserves all tasks and, unless the queue runs out of guaranteed room, leaves their mailboxes empty; it reports having received something if and only if there was a chunk and room for it, and otherwise changes nothing |
| `Scheduler.DtaScheduler.PollMailboxes` | src/dta_scheduler.rs:1337-1391 | one sweep conserves all tasks and, unless the queue runs out of guaranteed room, leaves every incoming mailbox empty; it reports having received something if and only if there was a chunk and room for it, and otherwise changes nothing |
| `Scheduler.DrainedWare` | src/dta_scheduler.rs:1305-1324 | draining k chunks removes the first k of the warehouse and conserves the tasks |
| `LifecycleOwner.StepKeepsOwned` | src/dta_scheduler.rs:895-983 | every step of spawn, dispatch, suspend, wake, enqueue, route, drain and free keeps each context index in exactly one place |
| `LifecycleOwner.RunKeepsOwned` | src/lib.rs:323-337 | so does every run |
| `LifecycleOwner.SingleOwner` | src/lib.rs:295-337 | single owner: in every run each index is counted exactly once over free list, mesh, workers' hands, spawners and wakers, parked fibers and failed re-enqueues |
| `LifecycleOwner.NoDoubleDispatch` | src/lib.rs:305-312 | no two workers ever run one fiber, and a running fiber is in no queue and not free |
| `LifecycleFifo.QueueIsFifo` | src/dta_scheduler.rs:895-915 | over every run a fiber in place k of a worker's queue stays in it, nearer by the number of that worker's dispatches, up to k of them |
| `LifecycleFifo.DispatchedInTurn` | src/dta_scheduler.rs:895-940 | and the next dispatch runs it: no queued fiber is overtaken |
| `LifecycleFifo.MailboxIsFifo` | src/dta_scheduler.rs:1345-1387 | the same for a chunk in a mailbox and the polls of its owner |
| `LifecycleFifo.WarehouseIsFifo` | src/dta_scheduler.rs:1305-1324 | and for a chunk in the warehouse and the drains of all workers |
| `LifecycleOwner.ActNeverParks` | src/future_bridge.rs:178-189 | no action of a running fiber makes it Yielded: only its dispatcher does |
| `LifecycleWake.WakeIsSafe` | src/future_bridge.rs:30-44 | the unconditional swap to Notified preserves what every holder of the fiber relies on, wherever the fiber is |
| `LifecycleWake.ActOk` | src/future_bridge.rs:126-192 | every action of the wait loop keeps the state word in step with where the fiber is |
| `LifecycleWake.ActWaitsOk` | src/future_bridge.rs:126-192 | and the flags of every open wait in step with both, with waits nested to any depth |
| `LifecycleLoop.NotifiedIffRang` | src/future_bridge.rs:141-145 | in every run the state word of a polling fiber, and of one about to suspend, is Notified if a wake has landed or the fiber has yielded since the top of its loop, and Running otherwise |
| `LifecycleLoop.PendingLoopParks` | src/future_bridge.rs:126-192 | a fiber at the top of its loop, resumed or new, whose poll is pending is parked by its own steps and its dispatcher's when no wake lands, on both wait paths |
| `LifecycleLoop.WokenLoopPollsAgain` | src/future_bridge.rs:178-192 | a fiber on which a wake landed during its pending poll polls again by its own steps, the word Running, without leaving its worker |
| `LifecycleWake.StepKeepsWakeInv` | src/dta_scheduler.rs:895-983 | every step keeps: the state word of each fiber fits the place its index is in |
| `LifecycleWake.RunKeepsWakeInv` | src/future_bridge.rs:126-192 | so does every run |
| `LifecycleTheorems.WakeLostIffErased` | src/future_bridge.rs:126-192 | in every run a parked fiber is inside a wait, in no queue and in nobody's hands, and a wake has landed since that wait's latest poll began if and only if a wait nested in that poll erased it |
| `LifecycleTheorems.ErasedIff` | src/c_ffi.rs:740-745 | a wake is erased by a step if and only if the step stores Running over Notified, as an inner wait, while an outer one still has the wake to answer |
| `LifecycleTheorems.NoLostWake` | src/future_bridge.rs:141-145 | so a poll that begins no other wait never ends with the fiber parked and a wake outstanding, whether it landed during the poll, while suspending, or racing the dispatcher's exchange |
| `LifecycleNesting.ParkedUntilWoken` | src/lib.rs:323-337 | a parked fiber stays exactly as it is in every run that does not wake it |
| `LifecycleNesting.NestedWaitLosesWake` | src/future_bridge.rs:141-189 | an admissible run from the initial state in which a nested wait erases a wake, no push fails, and the fiber stays parked in every continuation that does not wake it again |
| `LifecycleTheorems.WakeBeforeParkingRequeues` | src/dta_scheduler.rs:943-979 | a wake that no nested wait erased is acted on: the dispatcher's own next two steps put the fiber back in its queue |
| `LifecycleTheorems.DispatcherNeverForgets` | src/dta_scheduler.rs:943-979 | the dispatcher only ever meets Finished or Notified, so a fiber drops out only through a push that failed |
| `LifecycleTheorems.OnlyEndedFibersAreFreed` | src/memory_management.rs:610-619 | a context is reset only after its fiber has run to its end, and a free one belongs to no fiber |
| `LifecycleEnd.RunKeepsEndInv` | src/dta_scheduler.rs:943-979 | every run keeps in step where an ended fiber is and what its dispatcher has read of it |
| `LifecycleEnd.LookDecides` | src/dta_scheduler.rs:943-966 | after a fiber's end its dispatcher reads Finished or Notified, and which one decides |
| `LifecycleEnd.EndedFiberRequeuedIff` | src/dta_scheduler.rs:943-979 | in every run an ended fiber has been resumed, is queued again or on its way there (or its re-enqueue failed) if and only if its dispatcher read Notified after its end |
| `LifecycleEnd.DispatchResumesIff` | src/dta_scheduler.rs:899-940 | a dispatch resumes a fiber past its end if and only if it was so misread |
| `LifecycleEnd.ReadFinishedIsFreed` | src/dta_scheduler.rs:961-965 | read as Finished, it stays with its dispatcher until that one resets the context, in every continuation |
| `LifecycleEnd.MisreadIsNeverFreed` | src/dta_scheduler.rs:966-979 | read as Notified, its context is never freed, in every continuation |
| `LifecycleEnd.MisreadRequeues` | src/dta_scheduler.rs:966-979 | the dispatcher's own next steps queue it again |
| `LifecycleEnd.InTimeFrees` | src/memory_management.rs:610-647 | the dispatcher's own next steps free it |
| `LifecycleBounds.LateWakeReachable` | src/future_bridge.rs:33-35 | an admissible run from the initial state that resumes an ended fiber, for any number of workers |
| `LifecyclePressure.BackPressureResumesEnded` | src/lib.rs:357-377 | with two workers and more than MAILBOX_CAPACITY contexts, an admissible run that resumes an ended fiber although nobody wakes it: it yields while waking its joiner, over a full mailbox |
| `LifecycleCapacity.RunStaysAtEase` | src/dta_scheduler.rs:313-319 | in a small pool every run keeps all queues below their limits, by counting over the single-owner invariant |
| `LifecycleCapacity.SmallPoolNeverOverflows` | src/lib.rs:247-274 | capacity: with at most MAILBOX_CAPACITY - 1 contexts no push ever fails, no wake retries, no re-enqueue is dropped and the warehouse stays empty |
| `LifecycleBounds.LargerPoolOverflows` | src/dta_scheduler.rs:313-319 | with one context more, an admissible run in which a push fails |
| `LifecycleBounds.NoPushFailsIff` | src/dta_scheduler.rs:313-319 | the two together: no push fails in any run of the code if and only if the pool holds at most MAILBOX_CAPACITY - 1 contexts |
| `LifecycleCapacity.RunDropsNothing` | src/dta_scheduler.rs:966-979 | with at most LOCAL_QUEUE_CAPACITY - 1 contexts every run re-enqueues every notified fiber |
| `LifecycleBounds.LargerPoolDrops` | src/dta_scheduler.rs:966-979 | with one more, an admissible run in which a fiber fills its own queue and its re-enqueue fails |
| `LifecycleBounds.ReenqueueSucceedsIff` | src/dta_scheduler.rs:966-979 | the asserted re-enqueue succeeds in every run of the code if and only if the pool holds at most LOCAL_QUEUE_CAPACITY - 1 contexts |
| `LifecyclePinning.RouterHasRoom` | src/dta_scheduler.rs:1399-1418 | up to the watermark the router always takes its local branch, though it does not look at a fiber's mode |
| `LifecyclePinning.StepKeepsPinInv` | src/dta_scheduler.rs:1095-1134 | up to the watermark every step keeps on its origin worker each pinned fiber that no wake has sent elsewhere |
| `LifecycleStray.StrayedIff` | src/lib.rs:323-337 | a pinned fiber is sent elsewhere by a step if and only if the step is a wake that finds it Yielded and carries a core other than its origin modulo the number of workers |
| `LifecycleStray.StepKeepsAway` | src/dta_scheduler.rs:1095-1134 | such a fiber stays away through every step: enqueued, mailed, taken out, queued or run for another worker, until its context is used again |
| `LifecycleStray.PinnedAtHomeIff` | src/lib.rs:238-257 | in every run up to LOCAL_QUEUE_HIGH_WATERMARK contexts, a pinned fiber has been queued for, held by and run by its origin worker alone, and kept out of the warehouse, if and only if no such wake has hit it |
| `LifecycleStray.PinnedLeavesHomeIff` | src/api.rs:896-904 | the same over a whole run: it takes the fiber away from its origin at some point if and only if one of its wakes found the fiber Yielded and carried another worker's core |
| `LifecycleStray.PinnedStaysHome` | src/lib.rs:238-257 | so with well-directed wakes every pinned fiber is home |
| `LifecyclePinBound.LargerPoolLeavesHome` | src/dta_scheduler.rs:1399-1454 | with one context more, an admissible run in which the router sends a pinned fiber to another worker, or with one worker to the warehouse |
| `LifecyclePinBound.PinnedStaysHomeIff` | src/dta_scheduler.rs:1095-1103 | in every run of the code every pinned fiber that no wake has sent elsewhere is home, if and only if the pool holds at most LOCAL_QUEUE_HIGH_WATERMARK contexts |
| `LifecyclePinBound.StaleHandleLeavesHome` | src/api.rs:896-904 | with two workers, an admissible run in which a wake through the handle of an earlier fiber of the context makes another worker run a pinned fiber |
| `LifecyclePinBound.AlwaysHomeIff` | src/lib.rs:238-257 | pinning in full: every pinned fiber stays home in every run of the code if and only if there is no context, or one worker and a pool up to the watermark |
| `LifecycleStranding.RunStaysSwept` | src/dta_scheduler.rs:1208-1261 | with two workers or more every run keeps the unpolled mailboxes empty and aims no push at them |
| `LifecycleStranding.NothingEverStranded` | src/dta_scheduler.rs:1337-1391 | so a mailbox that holds a chunk is one its owner polls, and that poll can be taken |
| `LifecycleCalls.SoloHops` | src/dta_scheduler.rs:1229-1264 | the machine's hop steps, uninterrupted, compute push_chunk_with_hop |
| `LifecycleCalls.SoloEnqueue` | src/lib.rs:247-274 | its enqueue steps, uninterrupted, compute enqueue_pinned or enqueue_deflect |
| `LifecycleCalls.SoloRoute` | src/dta_scheduler.rs:1399-1454 | its routing steps, uninterrupted, compute route_chunk |
| `HandleWord.HandleRoundTrip` | src/api.rs:433-447 | a packed handle gives back its context, its core and the 15-bit tag of its generation, and is never zero |
| `HandleWord.HandlesRepeatIff` | src/c_ffi.rs:684-685 | two handles of a context coincide exactly when their generations agree in the low 15 bits |
| `HandleWord.WaiterRoundTrip` | src/lib.rs:344-352 | a waiter handle gives back its fiber and is never the empty slot; the worker comes back exactly when it fits 31 bits |
| `JoinTheorems.CheckIsSound` | src/c_ffi.rs:745-765 | a differing tag, or a Finished or Initial state, implies that the generation of the handle is over, across tag wrap and recycling |
| `JoinTheorems.RunKeepsSafe` | src/c_ffi.rs:682-829 | every step of the slot, of joining fibers and of joining host threads keeps the safety invariant |
| `JoinTheorems.JoinReturnsOnlyAfterFinish` | src/c_ffi.rs:682-829 | join safety: on both paths the call returns only after the generation its handle was issued for has stored Finished |
| `JoinChecks.WaitsOnlyOnOwnTag` | src/c_ffi.rs:747-798 | in every run a joiner registers only after reading its own tag and then an unfinished word, and suspends only after reading both once more |
| `JoinChecks.RegistrationEndsIff` | src/c_ffi.rs:773-805 | a registration ends if and only if the slot's fiber takes it out, its own joiner withdraws it, or another registers over it |
| `JoinChecks.OverJoinerReturns` | src/c_ffi.rs:737-805 | a joiner at the top of its loop whose generation is over, short of a tag wrap, returns within six steps of its own whatever else happens, and always has a next one |
| `JoinChecks.OverHostReturns` | src/c_ffi.rs:690-735 | so does a host thread, in exactly three |
| `JoinTheorems.RunKeepsLive` | src/c_ffi.rs:737-829 | with one joiner at a time and no stray wakes every run keeps the liveness invariant |
| `JoinTheorems.SuspendedJoinerWillBeWoken` | src/c_ffi.rs:766-828 | join liveness: a suspended joiner is notified, in the finisher's hands, or recorded with a live fiber that has yet to take its waiter, also when the target is recycled between the two re-check loads |
| `JoinTheorems.FinisherDelivers` | src/api.rs:471-489 | from any such state the target's own steps notify it |
| `JoinTheorems.SecondJoinerStrandsFirst` | src/c_ffi.rs:773-782 | with two joiners or more, the second overwrites the first, which stays parked although its target is over: the run |
| `JoinTheorems.AlwaysWokenIff` | src/c_ffi.rs:737-829 | without stray wakes, every suspended joiner is sure to be woken in all runs if and only if there is at most one joining fiber |
| `JoinTheorems.StrayWakeStrands` | src/c_ffi.rs:784-798 | so does a wake that lands on the freed slot: the run |
| `JoinStray.StrandedIffFooled` | src/c_ffi.rs:784-798 | with one joiner and stray wakes wherever they land, a suspended joiner will not be woken if and only if its second check read a stray wake's word after the waiter had been taken, no fiber was spawned in the slot since, and it is not notified |
| `Arena.RegionsTile` | src/memory_management.rs:294-329 | for all three safety levels every offset of the arena is in exactly one slot or guard page, the one computed from the offset |
| `Arena.RegionsFit` | src/memory_management.rs:304-314 | and none reaches beyond total_size |
| `Arena.SlotsArePageAligned` | src/memory_management.rs:552-566 | every slot starts on a page boundary |
| `Arena.ContextInOwnSlot` | src/memory_management.rs:294-353 | the context is 64-byte aligned and ends its slot, its 8 KB buffer lies directly below it, and at least the requested stack below that |
| `Arena.InlineIff` | src/api.rs:301-312 | for every alignment: a future is placed inline exactly when its size, rounded up from the last aligned address below the buffer's end, fits the buffer; up to an alignment of 64 size and alignment alone decide |
| `Arena.PlacementIsDisjoint` | src/api.rs:301-369 | the future is put at the highest aligned address that holds it, future, poison word and context never overlap, and the stack top is 8 modulo 16 as section 3.2.2 of the System V AMD64 ABI requires |
| `Arena.PoisonInOwnSlotIff` | src/api.rs:354-369 | the poison word is inside its own slot if and only if some stack was asked for, or the rest does not fill whole pages, or the future leaves 16 bytes of the buffer |
| `Arena.LaunchStackTop` | src/c_ffi.rs:615-625 | the C entry point's stack top is 8 modulo 16 and lies, with its poison word, in the buffer |
| `ContextPoolObject.ContextPool.constructor` | src/memory_management.rs:343-356 | the initialisation loop links all contexts in order, numbers them and records the buffer in each one's own slot |

## Left out

- Assembly context switchers (`src/context_switch.rs`): a switch is one atomic transfer of control.
- Memory orderings, padding, prefetch, back-off and wait tiers: interleavings are sequentially consistent.
- Adaptive spin budgets, load levels and deflection thresholds: their outcomes are free choices of the schedule.
- OS allocation and protection, `HugeBuffer`, NUMA and topology discovery: page size, base alignment and core numbers are parameters.
- `MpmcStack`: untagged addresses with node reuse make its correctness a matter of the allocator.
- `fiber::yield_to` and `spawn_with_stack`: they store Suspending unconditionally and carry no generation, so the lifecycle invariants do not cover them.
- C wrappers, fs, io, process, signal and tokio backends, `io/combinators.rs`, macros, benches: plumbing or easy members.
- Panicked: no code stores it; the dispatcher's branch for it is modelled.
- MPMC positions are unbounded naturals, not 64-bit words; masking with a power of two is a remainder, and `x & !(a - 1)` is `x` minus its remainder.
- Lifecycle: a caller's worker id and the warehouse's busy test are free choices, the latter only once the warehouse has been used, and a wake may carry any core; this allows more runs than the code has. A push into a mailbox, a local queue or the warehouse is one step there; the rings behind them are proved apart (`MailboxRing`, `LocalQueue`, `MpmcRing`).
- Lifecycle: the free list is a set of indices; its lock-free form is `FreeList`.
- Lifecycle: a fiber that waits on a full warehouse stops, where the code panics.
- DtaScheduler: its methods are run to completion by one thread, and it holds the warehouse by contents; the concurrent forms are `MailboxRing`, `MpmcRing` and `Lifecycle`. At most 65536 workers, the range of the 16-bit core numbers.
- FreeListSafety.StepKeepsInv: assumes that fewer than 2^32 exchanges fall between a thread's load and its exchange; `SafeWithinIff` shows the bound is exact.
- SuspendedJoinerWillBeWoken: assumes one joiner per slot at a time and no stray wake on a slot without a live fiber; `AlwaysWokenIff` and `StrandedIffFooled` say exactly what happens without the one or the other.
- NoLostWake: speaks of polls in which no other wait begins; the statement for all polls is `WakeLostIffErased`.
- PinnedStaysHome: assumes that no wake carries a wrong core to a parked pinned fiber; the statement for all runs is `PinnedLeavesHomeIff`.
- FailedPushChangesNothing: takes the warehouse as full at 32768 chunks; that it can refuse a little earlier is `RefusedIffFullOrHeldBack`.
- PlacementIsDisjoint: takes a future no larger than the address of its buffer's end, below which the subtraction in the code underflows.
- Join: the joiner's own dispatch is reduced to parking and resuming, and a waiter entry names the joiner without its worker; the full dispatch protocol is `Lifecycle`, the full entry `HandleWord`.
