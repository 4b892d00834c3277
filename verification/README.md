# A verified model of the Grappa runtime

Grappa runs cooperative tasks on every core of a cluster and lets cores talk by
active messages.  This project models the parts of it whose correctness is least
obvious, and proves what they promise.

* **Termination detection** (`Gce*.dfy`, `Flattened*.dfy`): the
  GlobalCompletionEvent, with its cancellable barrier, its two-phase reset and wake,
  and completions flattened into fewer messages.
* **The global heap** (`Bits.dfy`, `Allocator*.dfy`): the buddy allocator, from the bit
  smearing that rounds sizes to the shape of the heap after any run.
* **Block-cyclic addresses and parallel loops** (`Addressing.dfy`, `ParallelLoop.dfy`,
  `Forall*.dfy`): the localized `forall` visits every element once, at home and with its
  index, returns only when it has, and does return.
* **Incoherent caches** (`CachePieces.dfy`, `IncoherentAcquire.dfy`,
  `IncoherentRelease.dfy`): requests split by block and reassembled in any order.
* **Combining** (`FetchAdd*.dfy`, `FlatCombiner.dfy`, `FlatProofs.dfy`,
  `FlatProgress.dfy`, `GlobalCounter.dfy`): combined operations look like single ones, in
  an order that agrees with real time, and all of them return.
* **Buffers, rings and collectives** (`NTBuffer.dfy`, `LRQueue.dfy`, `Aggregator*.dfy`,
  `CommunicatorRings.dfy`, `AllReduce.dfy`, `InplaceReduction.dfy`).

`dafny verify dfyconfig.toml` checks everything.

## How the models are built

Handlers, and task code between two suspension points, are atomic in Grappa.  So a
protocol is a state machine whose step runs one task segment or delivers one message.
Messages in flight form a bag and are delivered in any order, unless a statement says
otherwise.  What a segment does to the fields of an object is a function on values.
The class beside it has the source's fields and loops, and its methods are proved to
compute that function.  The state machine uses the same functions, so the theorems
over all runs are about what the methods do.

Ghost history (who holds which enrollment, when a core got its first work, which
sends were retired) is part of the state where a property needs it.  No branch of a
step depends on it, except for the rules that callers have to respect.

Clocks, MPI's answers and uninitialised header words are parameters.  A C++ `CHECK`
is an explicit outcome where it guards the protocol (`failed`, `ok`), and a
precondition where it guards against misuse by the caller.

## Where the code and its documentation differ

* The GlobalCompletionEvent header (system/GlobalCompletionEvent.hpp:81-83) asks that
  every enroll is followed by a complete in the same task or a descendant.  That is not
  what safety depends on.  An enroll is safe if it opens a phase, or its task holds an
  uncompleted enrollment, or `cores_out` is positive and the core has work already or is
  the master (`MayEnroll` in `GceProtocol.dfy`).  Any other enroll can end in a failed
  CHECK, unless a task that holds work waits for the phase, which then never ends
  (`GceCausality.EnrollSafeIff`; `GceCausality.UncausalEnrollFails` is an input).
* `wait` is said to be woken when all work is complete.  When phases overlap, and the
  network reorders messages between two cores, a reset can overtake the wake of the phase
  before it, and a waiter is lost (`GceTwoCores.LostWakeup`) or a wake comes before the
  other cores are reset (`GceTwoCores.EarlyWake`); `GceWake.NobodyLostIff` and
  `GceWake.WakeSafety` say exactly when.  A core's messages to itself are delivered batch by batch
  (system/RDMAAggregator.hpp:514-553), so this does not happen to the master's own waiters.
* A task whose question `wait` has been answered while a phase is open may run only when
  the phase is over and its core has been reset.  It is then suspended with nothing in
  flight to wake it (`GceLateAnswer.LateAnswer`).  `GceProgress.WaitReturnsIff` says exactly
  which calls to `wait` come back.
* `send_completion(owner, dec)` adds 1, not `dec`, behind a waiting message
  (`FlattenedCompletions.SendConservesIff`, `FlattenedCompletions.LostCompletion`).
* The allocator's constructor misaligns heaps of odd size of at least 3, and then
  freeing everything need not restore the heap (`AllocatorRuns.RestoresIff`).
* The end-of-round CHECK of FetchAddCombiner assumes `initVal` 0, although the
  constructor takes any value (`FetchAddProofs.CheckIff`).
* `LRQueue::update_or_insert` does not update.  This is modelled as it is.
* `malloc(0)` is not rejected.  Unless nothing is free it trips the assert on insertion
  into the chunk map (`AllocatorProofs.MallocZero`).
* `update_target_for_node` accepts any route, but flushing a node goes through the route
  map again.  The idle flush ends if and only if every queued node is its own target
  (`AggregatorLoops.IdleEndsIff`).  The flush loop of `poll` ends if and only if it has a
  cap or this holds of the nodes before the first unexpired one
  (`AggregatorLoops.PollEndsIff`).  An insertion passes the end of the buffer if and only
  if the message does not fit and its target is routed elsewhere
  (`AggregatorLoops.InsertFitsIff`).  `AggregatorRoutes.EndlessFlush` and
  `AggregatorRoutes.OverrunBuffer` are inputs, and
  `AggregatorRoutes.CarefulRunsAreSafe` is the discipline that avoids both.

## Model

| member | source | states |
|---|---|---|
| `GceTheorems.DetectionSafety` | system/GlobalCompletionEvent.hpp:234-303 | In every reachable state none of the CHECKs of enroll, of the barrier handler and of the reset handler has failed, and the entry that takes `cores_out` to 0 is delivered only when no enrollment is outstanding on any core; the same holds until every reset is acknowledged |
| `GceCausality.EnrollSafeIff` | system/GlobalCompletionEvent.hpp:234-303 | In every reachable state, for any running task, any core and any count: some run after the enroll fails a CHECK if and only if the enroll breaks the rule `MayEnroll` and no task that holds work is itself waiting for the phase to end |
| `GceCausality.UncausalEnrollFails` | system/GlobalCompletionEvent.hpp:81-83 | A concrete state, reached on two cores, and an enroll in it that breaks the rule, after which a run fails a CHECK |
| `GceOverrun.Overrun` | system/GlobalCompletionEvent.hpp:242-300 | The failing half in a running phase: all other work can be completed and all entries delivered while the request of a rule-breaking first enroll is in flight, and the reset then finds its core with work |
| `GceCausality.StalledNeverFails` | system/GlobalCompletionEvent.hpp:242-300 | The other half: while a task that holds work waits for the phase to end, no run fails a CHECK, rule-breaking enroll or not |
| `GceRogue.OpeningFails` | system/GlobalCompletionEvent.hpp:245-262 | Before the opener's request has reached the master, every other enroll, on any core, can lead to a failed CHECK |
| `GceRogue.ResettingFails` | system/GlobalCompletionEvent.hpp:293-335 | Between detection and the last acknowledgement every enroll can lead to a failed CHECK: on a core not yet reset at once, on one already reset through a second detection that overwrites the acknowledgement counter |
| `GceTheorems.CounterCounts` | system/GlobalCompletionEvent.hpp:242-289 | In every reachable state `cores_out` is the number of cores with work whose increment has reached the master plus the decrements in flight, so it is never negative; only the task opening the phase is ever answered 1; while an open phase has counter 0 only its opener holds work |
| `GceSafety.ChainToCounted` | system/GlobalCompletionEvent.hpp:234-263 | The core of the safety argument: following, from a core with work, the core where the enroller already held work leads back in time to a core that the master has counted, also when a second enroll returns before the first one's increment has arrived, unless a core on the way got its work by breaking the rule |
| `GceTheorems.DetectionNotMissed` | system/GlobalCompletionEvent.hpp:277-295 | When every enrollment of an open phase is completed, `cores_out` equals the number of entries in flight, and delivering them reaches the reset broadcast |
| `GceTheorems.WaitSuspends` | system/GlobalCompletionEvent.hpp:378-391 | From the return of the opening enroll to detection, `wait` suspends its caller on every core |
| `GceProgress.WaitSuspendsAtWork` | system/GlobalCompletionEvent.hpp:240-243 | In every reachable state wait suspends its caller on a core that has work, from the moment the first enroll there starts |
| `GceProgress.WaitFallsThrough` | system/GlobalCompletionEvent.hpp:378-391 | In every reachable state between phases a call to wait on any core comes back, after its question to the master, and leaves everything as it was |
| `GceProgress.AnsweredIff` | system/GlobalCompletionEvent.hpp:384-390 | In every reachable state: a task whose question the master answers now will be suspended by the answer if and only if a phase is open whose opener's request has reached the master |
| `GceProgress.PhaseEnds` | system/GlobalCompletionEvent.hpp:277-335 | From every reachable state in which no task holds work, delivering what is in flight puts the event to rest, and wakes every waiter that is captured, or is listed on a core whose reset is still to come |
| `GceProgress.BackToStart` | system/GlobalCompletionEvent.hpp:85-88 | At rest every core is back in the state in which the event starts, but for tasks that were suspended too late |
| `GceProgress.WaitReturnsIff` | system/GlobalCompletionEvent.hpp:296-391 | In every reachable state in which no task holds work: deliveries can bring a task back from wait if and only if its question is unanswered, or its answer lets it go or finds a reset of its core still to come, or it is on a list that a reset or a wake will find |
| `GceProgress.AskedWillReturn` | system/GlobalCompletionEvent.hpp:378-391 | Every call to wait, made in any reachable state, starts out as one that comes back |
| `GceLateAnswer.LateAnswer` | system/GlobalCompletionEvent.hpp:384-390 | A run on two cores in which the answer to wait is acted on after the phase it tells of is over, and leaves the task suspended between phases with nothing in flight to wake it |
| `GceReturns.EnrollReturns` | system/GlobalCompletionEvent.hpp:234-263 | In every state of the invariant, delivering its own messages brings a task back from enroll |
| `GceReturns.OpenPhaseWillReturn` | system/GlobalCompletionEvent.hpp:296-391 | In every reachable state a task in wait for the phase that is open is one that its end brings back, so it has not been lost |
| `GceSafety.LastEntryMeansDone` | system/GlobalCompletionEvent.hpp:282-300 | A counter about to reach 0 means that nothing is held, nothing is being completed and every count is 0 |
| `GceTheorems.StepInv` | system/GlobalCompletionEvent.hpp:221-391 | Every step of enroll, complete, wait and their handlers, in any interleaving and with messages delivered in any order, keeps the protocol invariant |
| `GceWake.WakeSafety` | system/GlobalCompletionEvent.hpp:312-335 | In every run a wake makes exactly the captured tasks runnable, each once and for good, and only when the phase they waited for has been detected; it comes after a core has been reset for that phase if and only if that core has no reset in flight or the captured tasks waited for earlier phases |
| `GceWake.NobodyLostIff` | system/GlobalCompletionEvent.hpp:296-330 | Over every run, messages in any order: everybody suspended on a core is on one of its lists if and only if every reset of that core along the run found its last captured waiters woken |
| `GceWake.LostForever` | system/GlobalCompletionEvent.hpp:301-330 | A task that is suspended and on no list stays so along every run |
| `GceWake.ResetCapturesWaiters` | system/GlobalCompletionEvent.hpp:296-303 | After a run without such a loss, a reset that finds no captured waiters moves exactly the tasks suspended on its core to the waking list, each once |
| `GceWake.WakesDrain` | system/GlobalCompletionEvent.hpp:293-335 | In every run, once the resets and wakes to a core are delivered nobody is left on its waking list |
| `GceWake.OrderLosesNobody` | system/GlobalCompletionEvent.hpp:293-335 | If no reset overtakes an earlier wake to the same core, nobody is lost and no wake comes too early |
| `GceWake.WakeReachableInv` | system/GlobalCompletionEvent.hpp:293-391 | The bookkeeping of resets, wakes and waiters that holds in every reachable state |
| `GceTwoCores.LostWakeup` | system/GlobalCompletionEvent.hpp:301-330 | A run on two cores in which the reset of a second phase overtakes the wake of the first on a core other than the master, and leaves a task suspended on no list |
| `GceTwoCores.EarlyWake` | system/GlobalCompletionEvent.hpp:293-330 | A run on two cores after which the wake of the first phase wakes a task that waits for the second, while the master's reset for the second is still in flight |
| `GceTheorems.ReachableInv` | system/GlobalCompletionEvent.hpp:221-391 | The invariant holds in every state of every run on any number of cores |
| `GceCore.GlobalCompletionEvent.constructor` | system/GlobalCompletionEvent.hpp:203-227 | The initial state lets `wait` fall through |
| `GceCore.GlobalCompletionEvent.Enroll` | system/GlobalCompletionEvent.hpp:234-243 | The new state up to the blocking call, and exactly when the master has to be asked |
| `GceCore.GlobalCompletionEvent.CancelBarrier` | system/GlobalCompletionEvent.hpp:245-248 | The counter goes up by one and the reply is its new value |
| `GceCore.GlobalCompletionEvent.Complete` | system/GlobalCompletionEvent.hpp:277-284 | The new count, and that an entry is sent exactly when it is 0 |
| `GceCore.GlobalCompletionEvent.EnterBarrier` | system/GlobalCompletionEvent.hpp:284-295 | The new counter, that resets go out exactly when it is 0, and the outcome of the CHECK |
| `GceCore.GlobalCompletionEvent.HandleReset` | system/GlobalCompletionEvent.hpp:296-303 | Waiters captured, instance reset, and the outcome of the CHECK |
| `GceCore.GlobalCompletionEvent.HandleResetAck` | system/GlobalCompletionEvent.hpp:312-314 | The new acknowledgement counter, and that wakes go out exactly when it is 0 |
| `GceCore.GlobalCompletionEvent.HandleWake` | system/GlobalCompletionEvent.hpp:326-330 | Wakes all captured waiters in list order and leaves none |
| `GceCore.GlobalCompletionEvent.Wait` | system/GlobalCompletionEvent.hpp:378-384 | Suspends exactly when an event is in progress here; otherwise asks the master |
| `GceCore.GlobalCompletionEvent.WaitProbed` | system/GlobalCompletionEvent.hpp:384-390 | Suspends exactly when the master answered more than 0 |
| `FlattenedCompletions.FlatteningConserves` | system/GlobalCompletionEvent.hpp:133-150 | Over every run of unit completions, those applied, those in serialized copies and those recorded in messages add up to those issued, and the CHECK of `send_completion` never fails |
| `FlattenedCompletions.SendConservesIff` | system/GlobalCompletionEvent.hpp:183-201 | A send of `dec` completions conserves the total if and only if `dec` is 1 or the message is idle |
| `FlattenedCompletions.LostCompletion` | system/GlobalCompletionEvent.hpp:190-191 | From an idle start, two completions sent in one call behind a waiting message count as one |
| `FlattenedProtocol.FlatteningRefines` | system/GlobalCompletionEvent.hpp:133-201 | Every run of the protocol with completion messages, counters and serialized copies is a run of the protocol, in which the completions on their way to each core are those recorded in messages and copies |
| `FlattenedProtocol.ArrivalIsCompletion` | system/GlobalCompletionEvent.hpp:111-120 | A copy that arrives is always a step of the protocol: it carries at least one completion and no more than are outstanding |
| `FlattenedProtocol.FlattenedDetection` | system/GlobalCompletionEvent.hpp:133-300 | With flattening no CHECK fails, and when the last entry arrives no message or copy carries a completion |
| `FlattenedProgress.MovesApplyAll` | system/GlobalCompletionEvent.hpp:111-150 | In every run, whatever the network does next: after finitely many moves none is left, and then every completion that was issued has been applied |
| `FlattenedProgress.CompletionsArrive` | system/GlobalCompletionEvent.hpp:133-150 | From every state some run of copying, freeing and delivering applies every completion that was issued |
| `FlattenedProgress.EveryCompletionArrives` | system/GlobalCompletionEvent.hpp:111-201 | The same with the whole protocol: everything under way to any core can arrive without any task taking part |
| `FlattenedProgress.FlattenedDetected` | system/GlobalCompletionEvent.hpp:133-295 | With flattening a phase in which no task holds work any more can be brought to its detection |
| `FlattenedCompletions.CompletionMessage.constructor` | system/GlobalCompletionEvent.hpp:127-131 | A new message is idle and holds nothing |
| `FlattenedCompletions.CompletionMessage.SendCompletion` | system/GlobalCompletionEvent.hpp:188-199 | The new state of the message, and the outcome of the CHECK |
| `FlattenedCompletions.CompletionMessage.Serialize` | system/GlobalCompletionEvent.hpp:111-120 | The copy carries the recorded `dec` |
| `FlattenedCompletions.CompletionMessage.MarkSent` | system/GlobalCompletionEvent.hpp:133-150 | The message is freed, or reused for everything that has accumulated |
| `Bits.NextLargestIsLeast` | system/Allocator.hpp:108-118 | For 1 <= v <= 2^62 the bit smearing yields the least power of two that is at least v |
| `Bits.SmearedAgrees` | system/Allocator.hpp:108-118 | In two's complement, as the source computes it, the smearing of a positive v is the one on naturals that the other results are about |
| `Bits.ZeroSmearsToZero` | system/Allocator.hpp:108-118 | The smearing of 0 is 0: it goes through -1, whose bits are all set already |
| `AllocatorProofs.MallocContract` | system/Allocator.hpp:220-264 | In a valid heap malloc throws exactly when no free chunk is as large as the rounded size; otherwise it adds exactly one live block of that size inside a best-fitting free chunk, touches no other chunk and leaves the heap valid |
| `AllocatorProofs.MallocZero` | system/Allocator.hpp:220-258 | malloc(0) throws exactly when nothing is free; otherwise it splits the best-fitting chunk down to a free chunk of size 1 and then goes on to split that, so the insertion of its upper half finds its offset taken |
| `AllocatorProofs.SplitDownValid` | system/Allocator.hpp:241-258 | Splitting ends, reaches a free chunk of the wanted size inside the chunk it started from, keeps the heap valid and changes no other chunk |
| `AllocatorProofs.FreeContract` | system/Allocator.hpp:209-217 | Freeing a live block removes exactly that block from the live ones and leaves the heap valid |
| `AllocatorProofs.FreedIsReused` | system/Allocator.hpp:128-132 | Freeing a block whose buddy is not free and asking for its size again gives the same block and the same heap: the block freed last is handed out first |
| `AllocatorProofs.MergeUpValid` | system/Allocator.hpp:142-170 | Merging ends, keeps the heap valid and changes no live block |
| `AllocatorProofs.LiveDisjoint` | system/Allocator.hpp:220-264 | Live blocks lie within the heap and do not overlap |
| `AllocatorRuns.InitialValid` | system/Allocator.hpp:176-206 | The constructor tiles a heap of any size with power-of-two chunks, all free and on their lists |
| `AllocatorRuns.RunValid` | system/Allocator.hpp:176-264 | Every run of mallocs and frees keeps the chunks tiling the heap, the sizes powers of two, and each free list exactly the free chunks of its size |
| `AllocatorCanonical.MallocCanonical` | system/Allocator.hpp:220-264 | malloc keeps every chunk aligned to its size and no two buddies both free |
| `AllocatorCanonical.FreeCanonical` | system/Allocator.hpp:142-217 | free with its recursive merge restores that no two buddies are both free |
| `AllocatorCanonical.LiveDetermines` | system/Allocator.hpp:142-264 | Canonical chunk maps of the same heap with the same live blocks are equal |
| `AllocatorCanonical.FreeRestores` | system/Allocator.hpp:209-217 | Freeing a block from a canonical heap yields whichever canonical map has the remaining live blocks |
| `AllocatorCanonical.MallocFreeRestores` | system/Allocator.hpp:209-264 | Freeing what malloc has just returned restores the chunk map exactly |
| `AllocatorRuns.RunCanonical` | system/Allocator.hpp:209-264 | Every run keeps a canonical heap canonical |
| `AllocatorRuns.HistoryIndependent` | system/Allocator.hpp:176-264 | On a heap of even size, runs that leave the same live blocks leave the same chunk map |
| `AllocatorRuns.FreeingAllRestores` | system/Allocator.hpp:176-264 | On a heap of even size, a run that has freed everything has restored the constructor's chunk map |
| `AllocatorRuns.InitialCanonical` | system/Allocator.hpp:187-205 | The constructor builds a canonical map on heaps of even size or size 1 |
| `AllocatorRuns.InitialOdd` | system/Allocator.hpp:195-197 | On an odd size of at least 3 the constructor ends with a chunk of 1 byte and then one of 2 bytes at an odd offset |
| `AllocatorRuns.InitialAlignedIff` | system/Allocator.hpp:187-205 | The constructor aligns every chunk to its size if and only if the heap size is even or 1 |
| `AllocatorRuns.OddRun` | system/Allocator.hpp:142-264 | For every odd size of at least 3 some run frees everything and does not restore the map |
| `AllocatorRuns.RestoresIff` | system/Allocator.hpp:142-264 | Every run that frees everything restores the map if and only if the heap size is even or 1 |
| `AllocatorBytes.ByteHeldOnce` | system/Allocator.hpp:176-264 | Every byte of a valid heap is in exactly one chunk |
| `AllocatorBytes.TotalsAgree` | system/Allocator.hpp:276-302 | The chunk sizes add up to the heap size, and so do the bytes in use and free |
| `AllocatorBytes.MallocBytes` | system/Allocator.hpp:220-264 | malloc moves exactly its block's bytes from free to in use |
| `AllocatorBytes.FreeBytes` | system/Allocator.hpp:209-217 | free moves exactly its block's bytes back |
| `AllocatorClass.BuddyAllocator.constructor` | system/Allocator.hpp:176-206 | The loop builds the initial heap: valid, nothing live |
| `AllocatorClass.BuddyAllocator.RemoveFromFreeList` | system/Allocator.hpp:120-126 | The chunk leaves its list, an empty list disappears, nothing else changes |
| `AllocatorClass.BuddyAllocator.AddToFreeList` | system/Allocator.hpp:128-132 | The chunk becomes the first of its size's list, nothing else changes |
| `AllocatorClass.BuddyAllocator.AddChunk` | system/Allocator.hpp:200-201 | A chunk is inserted and listed |
| `AllocatorClass.BuddyAllocator.LowerBoundKey` | system/Allocator.hpp:224-230 | The least free-list key that is large enough, or none exactly when there is none |
| `AllocatorClass.BuddyAllocator.Split` | system/Allocator.hpp:243-256 | One halving: both halves free and listed |
| `AllocatorClass.BuddyAllocator.SplitTo` | system/Allocator.hpp:241-258 | The loop ends in the heap and chunk that repeated halving gives |
| `AllocatorClass.BuddyAllocator.TryMergeBuddyRecursive` | system/Allocator.hpp:142-170 | The mutating recursion ends in the heap that repeated merging gives |
| `AllocatorClass.BuddyAllocator.Malloc` | system/Allocator.hpp:220-264 | Throws exactly when nothing fits and then changes nothing; otherwise exactly one new live block of the rounded size |
| `AllocatorClass.BuddyAllocator.Free` | system/Allocator.hpp:209-217 | Exactly one live block fewer, heap valid |
| `AllocatorClass.BuddyAllocator.TotalBytes` | system/Allocator.hpp:276-282 | In a valid heap the sum is the heap size |
| `AllocatorClass.BuddyAllocator.TotalBytesInUse` | system/Allocator.hpp:284-292 | The bytes of the live blocks |
| `AllocatorClass.BuddyAllocator.TotalBytesFree` | system/Allocator.hpp:294-302 | In a valid heap, the heap size less the bytes of the live blocks |
| `Addressing.LinearRoundTrip` | system/Addressing.hpp:168-191 | A local pointer made linear has its own core and pointer back, so the two CHECKs never fail |
| `Addressing.PointerRoundTrip` | system/Addressing.hpp:208-249 | Every linear address is the address of its pointer on its core |
| `Addressing.LocalizeOrder` | system/Addressing.hpp:253-276 | On every core a pointer is at or above the localization of an address exactly when its linear address is at or above that address |
| `Addressing.LocalRangeExact` | system/Addressing.hpp:253-276 | The localized range on a core is exactly that core's bytes of the global range |
| `Addressing.LocalizeStep` | system/Addressing.hpp:253-305 | Moving an address by one element moves its localization by one element on the owner and not at all elsewhere |
| `Addressing.LocalSizeIsOwned` | system/Addressing.hpp:521-529 | The localized range of n elements is as long as the core's share of them |
| `Addressing.LocalSizeCounts` | system/Addressing.hpp:521-529 | `LocalIterator::size` is the number of elements the core owns |
| `Addressing.LocalSizesSum` | system/Addressing.hpp:521-529 | The local sizes over all cores sum to n |
| `ParallelLoop.Forall` | system/ParallelLoop.hpp:374-440 | Every index in [0, n) is visited exactly once, on the home core of its element and with that element, and nothing else is visited |
| `ForallPhase.ForallReturnsDone` | system/ParallelLoop.hpp:374-440 | In every interleaving with other tasks, and from every reachable state of the completion event: when a blocking forall returns to its caller, every index has been visited exactly once, on its home core and with its element |
| `ForallReturns.ForallCanReturn` | system/ParallelLoop.hpp:374-440 | From every state of every run in which nobody else holds work of the event, the tasks of a blocking forall can be run and its messages delivered until it returns to its caller; once its phase is over, provided that the caller's wait is one that comes back |
| `ForallReturns.ForallRuns` | system/ParallelLoop.hpp:374-440 | A forall called between phases, by any task on any core, can run from its call to its return, and then every index has been visited |
| `ForallPhase.ForallDetected` | system/ParallelLoop.hpp:374-440 | The event is not detected complete before every index has been visited |
| `ForallPhase.LoopObeysTheRule` | system/ParallelLoop.hpp:92-119 | Whatever a task of the loop does next is allowed by the protocol; in particular every enroll before a spawn respects the rule |
| `ForallPhase.StepConserves` | system/ParallelLoop.hpp:92-119 | Every step of the loop keeps the visits done and the visits owed by tasks and unsent shares adding up to the whole |
| `ForallShares.SharesAreExpected` | system/ParallelLoop.hpp:385-392 | The shares of the visited cores are together one visit for every index, and no other |
| `ParallelLoop.LeavesTile` | system/ParallelLoop.hpp:92-119 | The decomposition's leaves tile the iteration range in order and each is within the threshold |
| `ParallelLoop.LeavesAreLarge` | system/ParallelLoop.hpp:92-119 | A range that may be run serially is not split, and every leaf of a larger one is at least half of what may be run serially |
| `ParallelLoop.Pack48Keeps` | system/ParallelLoop.hpp:106-112 | A 48-bit field keeps a value if and only if it is in range |
| `ParallelLoop.CoresWithElements` | system/ParallelLoop.hpp:340-365 | The start core is the home of the base, and the count is the number of blocks spanned, at most the number of cores |
| `ParallelLoop.VisitedIffOwner` | system/ParallelLoop.hpp:340-396 | The cores visited are exactly those that own elements |
| `ParallelLoop.IndexNext` | system/ParallelLoop.hpp:431-437 | The global index of the next local element is one more, or a whole round of blocks further |
| `ParallelLoop.IndexLoop` | system/ParallelLoop.hpp:425-438 | The incremental index is the true global index of every element visited |
| `ParallelLoop.LocalVisitsCount` | system/ParallelLoop.hpp:425-438 | A core's visits are distinct |
| `ParallelLoop.ForallOnCore` | system/ParallelLoop.hpp:408-414 | Decomposed and run leaf by leaf, a core visits its local range once |
| `ParallelLoop.LocalIsExpected` | system/ParallelLoop.hpp:386-392 | A core's local range is exactly its part of the global index range |
| `CachePieces.SendsWhatItExpects` | system/IncoherentAcquirer.hpp:126-229 | The send loop issues exactly as many requests as the block-difference formula expects replies |
| `CachePieces.PiecesChained` | system/IncoherentAcquirer.hpp:171-227 | The pieces follow one another from the start of the range to its end |
| `CachePieces.PieceWithin` | system/IncoherentAcquirer.hpp:175-180 | Every piece is non-empty, within one block and within the range, at its own offset |
| `CachePieces.PiecesApart` | system/IncoherentAcquirer.hpp:171-227 | Pieces do not overlap |
| `CachePieces.PieceOf` | system/IncoherentAcquirer.hpp:171-227 | Every byte of the range is in some piece |
| `CachePieces.PieceBytesRead` | system/IncoherentAcquirer.hpp:206-215 | A piece read from its core's memory is that part of the global range |
| `CachePieces.WrittenAt` | system/IncoherentReleaser.hpp:178-178 | A payload copied to a core changes exactly the places it covers |
| `CachePieces.ReachedIsInPiece` | system/IncoherentReleaser.hpp:172-190 | The places a piece covers are the places of its global bytes |
| `IncoherentAcquire.AcquireCorrect` | system/IncoherentAcquirer.hpp:144-283 | In every interleaving and reply order the acquire is complete exactly when every reply has arrived; then the buffer holds the global bytes, the DCHECK on the payload holds and the worker is not left suspended |
| `IncoherentAcquire.AcquireNotStuck` | system/IncoherentAcquirer.hpp:144-283 | Until it is complete some request, service or reply can go on |
| `IncoherentAcquire.AcquireFinishes` | system/IncoherentAcquirer.hpp:144-283 | From every state of every interleaving the acquire can be brought to its end, with the global bytes in the buffer and the worker running |
| `IncoherentAcquire.WokenByTheLastReply` | system/IncoherentAcquirer.hpp:231-283 | In every interleaving a suspended worker is woken by the last reply and by nothing else |
| `IncoherentAcquire.AcquireAnew` | system/Cache.hpp:181-204 | An acquirer that is reset and blocked on asks for every piece of its request, expects exactly that many replies, and has its worker suspended unless there are none |
| `IncoherentAcquire.IncoherentAcquirer.constructor` | system/IncoherentAcquirer.hpp:73-88 | The state reset establishes |
| `IncoherentAcquire.IncoherentAcquirer.Reset` | system/IncoherentAcquirer.hpp:90-142 | Ready for a new request: not started and expecting as many replies as it has pieces, unless there are none |
| `IncoherentAcquire.IncoherentAcquirer.StartAcquire` | system/IncoherentAcquirer.hpp:144-161 | Sends the pieces once |
| `IncoherentAcquire.IncoherentAcquirer.BlockUntilAcquired` | system/IncoherentAcquirer.hpp:231-259 | Sends the pieces if they were not, and suspends the worker exactly when the acquire is not complete |
| `IncoherentAcquire.IncoherentAcquirer.DoAcquire` | system/IncoherentAcquirer.hpp:163-229 | The loop sends exactly the pieces of the request |
| `IncoherentAcquire.IncoherentAcquirer.AcquireReply` | system/IncoherentAcquirer.hpp:262-283 | Copies the payload at its offset and nothing else, counts it, and wakes the worker exactly on the last reply |
| `IncoherentRelease.ReleaseCorrect` | system/IncoherentReleaser.hpp:129-237 | In every interleaving the release is complete exactly when every acknowledgement has arrived; then the range holds the buffer; places outside the range never change |
| `IncoherentRelease.ReleaseNotStuck` | system/IncoherentReleaser.hpp:129-237 | Until it is complete some piece can be sent, served or acknowledged |
| `IncoherentRelease.ReleaseFinishes` | system/IncoherentReleaser.hpp:129-237 | From every state of every interleaving the release can be brought to its end, with the buffer in the global range and the worker running |
| `IncoherentRelease.WokenByTheLastReply` | system/IncoherentReleaser.hpp:200-237 | In every interleaving a suspended worker is woken by the last acknowledgement and by nothing else |
| `IncoherentRelease.ReleaseAnew` | system/Cache.hpp:192-204 | A releaser that is reset and blocked on sends every piece of its request and expects exactly that many acknowledgements |
| `IncoherentRelease.RoundTrip` | system/IncoherentReleaser.hpp:129-237 | Data released and then acquired is the same |
| `IncoherentRelease.IncoherentReleaser.constructor` | system/IncoherentReleaser.hpp:67-78 | The state reset establishes |
| `IncoherentRelease.IncoherentReleaser.Reset` | system/IncoherentReleaser.hpp:80-127 | Ready for a new request: not started and expecting as many acknowledgements as it has pieces, unless there are none |
| `IncoherentRelease.IncoherentReleaser.StartRelease` | system/IncoherentReleaser.hpp:129-146 | Sends the pieces once |
| `IncoherentRelease.IncoherentReleaser.BlockUntilReleased` | system/IncoherentReleaser.hpp:200-223 | Sends the pieces if they were not, and suspends the worker exactly when the release is not complete |
| `IncoherentRelease.IncoherentReleaser.DoRelease` | system/IncoherentReleaser.hpp:148-198 | The loop sends exactly the pieces of the request |
| `IncoherentRelease.IncoherentReleaser.ReleaseReply` | system/IncoherentReleaser.hpp:225-237 | Counts the acknowledgement and wakes the worker exactly on the last one |
| `FetchAddProofs.CombiningIsAtomic` | system/Delegate.hpp:369-409 | With `initVal` 0, between rounds the history of the target is one of atomic fetch-and-adds by the individual callers, and its value has grown by exactly the sum of their increments |
| `FetchAddProofs.RoundsArePrefixSums` | system/Delegate.hpp:369-409 | In every interleaving the starts returned in a round are the successive prefix sums from the fetched value; at most one round is open; everyone who returned got exactly one share |
| `FetchAddProofs.RoundsDoNotMix` | system/Delegate.hpp:321-336 | Nobody joins while a round is being handed out, and those who wait for the unit wait only then |
| `FetchAddProofs.RetryJoins` | system/Delegate.hpp:321-327 | In every run a woken waiter finds the unit aggregating and becomes a participant; it never waits for the unit again |
| `FetchAddProgress.RoundStartsIff` | system/Delegate.hpp:373-391 | In every run a task that comes to an aggregating unit starts a round if and only if nobody is waiting to get in, and the threshold is reached or nobody else has promised to come |
| `FetchAddProgress.EverybodyReturns` | system/Delegate.hpp:353-409 | From every state of every run, whatever the arguments, everybody who has promised to call or has called can return without any new caller |
| `FetchAddProofs.NobodyStranded` | system/Delegate.hpp:353-409 | A caller is stuck only while a promised caller is still to come |
| `FetchAddProofs.LoneRound` | system/Delegate.hpp:369-409 | For every `initVal` a run of one caller ends a round with the unit holding `initVal`, so the CHECK fails whenever that is not 0 |
| `FetchAddOrder.RealTimeOrder` | system/Delegate.hpp:369-409 | In every interleaving the history agrees with real time: a caller that returned before another called comes before it |
| `FetchAddOrder.ReturnedEarly` | system/Delegate.hpp:395-409 | The share of a caller that has returned is in the history already written |
| `FetchAddOrder.CalledLate` | system/Delegate.hpp:369-391 | The share of a caller that has not called yet will be in the history still to be written |
| `FetchAddProofs.CheckIff` | system/Delegate.hpp:403-406 | In every run, at the step that ends a round, the CHECK holds if and only if `initVal` is 0 |
| `FetchAddCombiner.Combiner.constructor` | system/Delegate.hpp:339-351 | The initial unit |
| `FetchAddCombiner.Combiner.Promise` | system/Delegate.hpp:364-366 | One more committed caller |
| `FetchAddCombiner.Combiner.TryReady` | system/Delegate.hpp:321-327 | Registers as waiting exactly when a round is outstanding |
| `FetchAddCombiner.Combiner.Join` | system/Delegate.hpp:373-391 | Adds the increment, and starts the call with the total exactly when the flush condition holds |
| `FetchAddCombiner.Combiner.Finish` | system/Delegate.hpp:399-408 | Returns the next share, and frees the unit exactly after the last participant |
| `FlatProofs.CarriedExactlyOnce` | system/FlatCombiner.hpp:160-236 | In every run the operation of a call that has returned was carried by exactly one sync |
| `FlatProofs.WaitersAreServed` | system/FlatCombiner.hpp:186-236 | A waiting call is on a flusher with a sender, or on the current one while something is in flight |
| `FlatProofs.NobodyStranded` | system/FlatCombiner.hpp:160-236 | While a call has not returned, the combiner can go on without any new call |
| `FlatProgress.EverybodyReturns` | system/FlatCombiner.hpp:160-236 | From every state of every run every call can return without any new call, and then the sum of all operations has been added |
| `FlatProgress.FullIsReplaced` | system/FlatCombiner.hpp:174-181 | After an operation that fills its collection the current collection is another, and empty |
| `FlatProgress.FlushersAreReused` | system/FlatCombiner.hpp:122-132 | In every run no step makes a new flusher while one is free |
| `FlatProofs.AddedIsSum` | system/FlatCombiner.hpp:160-236 | What has been added is the sum of the synced operations; when all calls have returned, of all of them |
| `FlatProofs.RunInv` | system/FlatCombiner.hpp:160-236 | The combiner's invariant holds after every run |
| `FlatCombiner.Combiner.constructor` | system/FlatCombiner.hpp:140-140 | One empty flusher, nothing in flight |
| `FlatCombiner.Combiner.GetFlusher` | system/FlatCombiner.hpp:122-132 | A cleared flusher from the free list, or a new one |
| `FlatCombiner.Combiner.FreeFlusher` | system/FlatCombiner.hpp:114-121 | The flusher heads the free list |
| `FlatCombiner.Combiner.Combine` | system/FlatCombiner.hpp:160-199 | The operation is on the proxy, and the call flushes or waits as the source's branches say |
| `FlatCombiner.Combiner.Flush` | system/FlatCombiner.hpp:213-217 | The flusher is claimed and its delta synced |
| `FlatCombiner.Combiner.FlushDone` | system/FlatCombiner.hpp:220-236 | Wakes the flusher's waiters, hands over to a waiter of the current one or counts down, frees the flusher |
| `FlatCombiner.Combiner.Resume` | system/FlatCombiner.hpp:201-210 | A woken call flushes exactly when it was made the sender |
| `GlobalCounter.CounterIsSum` | system/GlobalCounter.hpp:55-83 | When no call is under way on any core, the count is the initial value plus all increments |
| `GlobalCounter.ReturnedIsCounted` | system/GlobalCounter.hpp:62-88 | At any time the increment of a returned call is in the count, and the count is the initial value plus the synced increments of every core |
| `NTBuffer.RoundTrip` | system/NTBuffer.hpp:89-158 | For any interleaving of whole messages and flushes, parsing the taken buffer after the header space yields exactly the messages in order, whatever words their bodies hold |
| `NTBuffer.FlushFillsTheLine` | system/NTBuffer.hpp:101-131 | A flush writes out everything, padded to the end of its line and no further |
| `NTBuffer.StreamParses` | system/NTMessage.cpp:14-34 | Parsing messages with zero words between them yields exactly the messages |
| `NTBuffer.Deaggregate` | system/NTMessage.cpp:14-34 | The loop handles exactly the messages that parsing yields |
| `NTBuffer.Buffer.constructor` | system/NTBuffer.hpp:69-74 | An empty buffer |
| `NTBuffer.Buffer.IsEmpty` | system/NTBuffer.hpp:76-76 | Nothing is buffered |
| `NTBuffer.Buffer.FlushLine` | system/NTBuffer.hpp:103-129 | The partial line is padded with zeros and written out; an empty one is not |
| `NTBuffer.Buffer.Flush` | system/NTBuffer.hpp:101-131 | The same, from any state of the buffer |
| `NTBuffer.Buffer.ActualEnqueue` | system/NTBuffer.hpp:133-147 | The words are appended one by one, with full lines written out |
| `NTBuffer.Buffer.Enqueue` | system/NTBuffer.hpp:149-158 | A message is appended, after the header space if the buffer is empty |
| `NTBuffer.Buffer.TakeBuffer` | system/NTBuffer.hpp:89-99 | What was written, padded; the buffer is empty again |
| `CommunicatorRings.ContextsAreReusedAfterSending` | system/Communicator.cpp:304-372 | For any completion pattern at most 2^k - 1 contexts are out, one is refused exactly then, and a context is handed out only after its previous send was posted and reported done |
| `CommunicatorRings.FinishedSendsAreRetired` | system/Communicator.cpp:355-372 | In every run a collection retires exactly the contexts, from the oldest on, that were posted and that MPI reports done, and as many more can be handed out |
| `CommunicatorRings.ReceivedOnceInOrder` | system/Communicator.cpp:394-456 | For any completion pattern tail, dispatch and head stay in cyclic order, every received buffer is dispatched once and in posting order, and it is reposted only after being retired at reference count 0 |
| `CommunicatorRings.OnlyReceivedAreDispatched` | system/Communicator.cpp:394-456 | In every run only buffers that MPI reported received are dispatched, and only buffers whose delivery is finished are posted again |
| `CommunicatorRings.ReceivedAreDispatched` | system/Communicator.cpp:394-456 | In every run a call dispatches every buffer in line, from the first on, that MPI reports received, and no other; then the oldest buffer not retired is still being delivered, and every free context is posted |
| `CommunicatorRings.AndMask` | system/Communicator.cpp:307-310 | Masking with 2^k - 1 is the remainder modulo 2^k |
| `CommunicatorRings.SendRing.constructor` | system/Communicator.cpp:221-240 | An empty ring |
| `CommunicatorRings.SendRing.TryGetSendContext` | system/Communicator.cpp:304-314 | The next context, or none exactly when the ring is full |
| `CommunicatorRings.SendRing.PostSend` | system/Communicator.cpp:316-321 | The context is marked as active |
| `CommunicatorRings.SendRing.GarbageCollect` | system/Communicator.cpp:355-372 | Retires sends in order up to the first that is not posted or not done |
| `CommunicatorRings.ReceiveRing.constructor` | system/Communicator.cpp:221-248 | An empty ring |
| `CommunicatorRings.ReceiveRing.RetireDelivered` | system/Communicator.cpp:396-404 | Retires buffers in order up to the first that is still in use |
| `CommunicatorRings.ReceiveRing.PostFreeBuffers` | system/Communicator.cpp:406-411 | Posts every free context |
| `CommunicatorRings.ReceiveRing.RepostReceiveBuffers` | system/Communicator.cpp:394-413 | Retires, then posts |
| `CommunicatorRings.ReceiveRing.Receive` | system/Communicator.cpp:440-446 | Dispatches the next buffer |
| `CommunicatorRings.ReceiveRing.ProcessReceivedBuffers` | system/Communicator.cpp:427-456 | Dispatches in order up to the first buffer that has not been received, reposting after each |
| `AllReduce.ResultsAreReductions` | system/Collective.hpp:212-342 | For an associative and commutative operator and any message order, the k-th result on every core is the reduction of all k-th contributions |
| `AllReduce.NobodyWaitsForNothing` | system/Collective.hpp:212-342 | A waiting core has a message to take, or waits for a core that has not made the same call |
| `AllReduce.EverybodyGetsTheResult` | system/Collective.hpp:212-342 | When every core has made the same number of calls, delivering what is in flight brings all of them back with the reductions |
| `AllReduce.HomeCore.constructor` | system/Collective.hpp:214-215 | Nobody in |
| `AllReduce.HomeCore.CollectReduction` | system/Collective.hpp:212-237 | The new total, and a result exactly on the last contribution of a round |
| `InplaceReduction.EveryArrayIsReduced` | system/Collective.hpp:249-315 | For any message order, when a core's count reaches 0 its array is the elementwise reduction over all cores |
| `InplaceReduction.NobodyWaitsForNothing` | system/Collective.hpp:249-315 | While a core waits, a message is on its way or the home core is about to send the totals |
| `InplaceReduction.EverybodyGetsTheTotals` | system/Collective.hpp:249-315 | From every state of every run every core's array can be brought to the elementwise reduction over all cores |
| `InplaceReduction.SendChunks` | system/Collective.hpp:254-265 | The send loop sends exactly the number of messages that were enrolled, and they are the consecutive chunks of the array |
| `InplaceReduction.Reduce` | system/Collective.hpp:268-280 | The payload is reduced into its part of the array and nothing else changes |
| `InplaceReduction.CopyTotals` | system/Collective.hpp:301-307 | The payload replaces its part of the array and nothing else changes |
| `AggregatorRuns.BundlesCarryTheMessages` | system/Aggregator.hpp:384-580 | For each target, the messages unpacked from the bundles sent and then from its buffer are those asked for, in order |
| `AggregatorRuns.QueueIsTheWaitingTargets` | system/Aggregator.hpp:137-177 | The queue holds exactly the targets with buffered messages, each once, in order of first insertion since the last flush |
| `AggregatorRuns.PollLeavesNothingExpired` | system/Aggregator.hpp:433-472 | A poll without a cap leaves no buffer whose first message is older than the limit at its timestamp, also when messages have come in since the timestamp was taken |
| `AggregatorRuns.SentOnlyWhenDue` | system/Aggregator.hpp:400-580 | In every run what is buffered for a target is sent only if a message does not fit, a flush is asked for, somebody routed to it has waited longer than the limit, or the core is idle; a poll sends at most its cap |
| `AggregatorRuns.IdleFlushSendsEverything` | system/Aggregator.hpp:400-416 | An idle flush leaves nothing buffered |
| `Aggregator.UnpackAll` | system/Aggregator.cpp:164-231 | Unpacking packed messages yields exactly those messages in order |
| `Aggregator.Deaggregate` | system/Aggregator.cpp:184-229 | The loop splits a bundle into the messages for this core and those to forward, in order |
| `Aggregator.MessageAggregator.constructor` | system/Aggregator.cpp:138-152 | Empty buffers, an empty queue, and every node its own target |
| `Aggregator.MessageAggregator.UpdateTarget` | system/Aggregator.hpp:379-381 | The route map is updated and nothing else, whatever the target |
| `Aggregator.RouteUpdateIff` | system/Aggregator.hpp:374-381 | From a map in which they are, exactly which updates of the route map keep all targets and queued nodes their own targets |
| `AggregatorLoops.IdleEndsIff` | system/Aggregator.hpp:400-412 | For any route map, the idle flush ends if and only if every queued node is its own target, and then it has sent everything, in as many flushes as nodes were queued |
| `AggregatorLoops.PollEndsIff` | system/Aggregator.hpp:453-466 | For any route map, the flush loop of poll ends if and only if there is a cap or every node before the first unexpired one is its own target |
| `AggregatorLoops.InsertFitsIff` | system/Aggregator.hpp:526-543 | For any route map, the DCHECK after the capacity flush holds, and the message stays within the buffer, if and only if it fitted before or the target is its own target |
| `AggregatorRoutes.CarefulRunsAreSafe` | system/Aggregator.hpp:374-580 | In every run whose route updates send a node that is neither queued nor anyone's target to a node that is its own target, both flush loops end and no message passes the end of a buffer |
| `AggregatorRoutes.EndlessFlush` | system/Aggregator.hpp:379-412 | A run on two nodes, one message and one route update, after which neither flush loop ends |
| `AggregatorRoutes.OverrunBuffer` | system/Aggregator.hpp:526-543 | A run on two nodes routed to each other in which the second of two messages of more than half a buffer passes the end of the buffer |
| `Aggregator.MessageAggregator.Flush` | system/Aggregator.hpp:384-397 | The buffer of the node's target goes out as one bundle, it is emptied and the target leaves the queue |
| `Aggregator.MessageAggregator.Aggregate` | system/Aggregator.hpp:492-580 | For any route map: flushes first exactly when the message does not fit; then the message is at the end of the target's buffer and the target is queued; the DCHECK holds exactly when the message fitted or the target is its own target |
| `Aggregator.MessageAggregator.Enqueue` | system/Aggregator.hpp:573-574 | A target that is not queued goes to the newer end with its time |
| `Aggregator.MessageAggregator.Insert` | system/Aggregator.hpp:540-543 | Header, arguments and payload are appended |
| `Aggregator.MessageAggregator.IdleFlush` | system/Aggregator.hpp:406-412 | Whenever the loop ends: every queued target is flushed, oldest first |
| `Aggregator.MessageAggregator.PollFlush` | system/Aggregator.hpp:453-466 | Whenever the loop ends: expired nodes are flushed by their routes, oldest first, up to the cap |
| `LRQueue.Queue.constructor` | system/Aggregator.hpp:107-135 | An empty queue |
| `LRQueue.Queue.Empty` | system/Aggregator.hpp:179-181 | Whether the queue is empty |
| `LRQueue.Queue.Top` | system/Aggregator.hpp:160-166 | Key and priority of the oldest entry |
| `LRQueue.Queue.UpdateOrInsert` | system/Aggregator.hpp:137-158 | A new key goes to the newer end; a queued one keeps place and priority |
| `LRQueue.Queue.RemoveKey` | system/Aggregator.hpp:168-177 | The key is unlinked, the others keep their order |

## Left out

- Enrollment that recurs over phases (`enroll_recurring`).
- ForallPhase.ForallReturnsDone: a task's leaf is one step, and a message that starts a task on another core is the moment the task exists; the loop body itself does not use the event.
- AggregatorRuns.PollLeavesNothingExpired: timestamps are unbounded; the source's are 64 bits and ignore overflow.
- Aggregator.MessageAggregator.Aggregate: what an insertion past the end of the buffer overwrites is not modelled; the buffer just grows.
- IncoherentAcquire.IncoherentAcquirer.Reset: the branch for two-dimensional addresses is not modelled.
- IncoherentRelease.IncoherentReleaser.Reset: nor is it here.
- GceTheorems.DetectionNotMissed: shows a run that reaches detection; that the network delivers every message eventually is not modelled.
- IncoherentAcquire.AcquireFinishes: shows a run that finishes, not that a fair scheduler takes it; the same goes for the other statements that something can be brought to its end.
- ForallReturns.ForallCanReturn: for loops beside which nobody else holds work of the event; others who do can keep any phase open.
- Bits.NextLargestIsLeast: sizes over 2^62 overflow the 64-bit arithmetic of the source.
- AllocatorProofs.MallocContract: for sizes of at least 1; AllocatorProofs.MallocZero says what happens for 0, up to the assert that stops it (system/Allocator.hpp:138).
- AllocatorRuns.InitialValid: heaps of more than 2^63 bytes do not fit the source's type.
- Two-dimensional addresses, and the local short cut they give the caches.
- ParallelLoop.CoresWithElements: the result for no elements is uninitialised in the source, so that case is excluded; the same goes for ParallelLoop.Forall.
- ParallelLoop.LeavesTile: for ranges within the 48-bit packing, and a threshold of at least 1; beyond that `ParallelLoop.Pack48Keeps` says what a field keeps.
- Addressing.LocalRangeExact: for element sizes that divide the block size; an element that crosses blocks has no single home.
- IncoherentAcquire.AcquireCorrect: the memory does not change while an acquire is under way, which is the data-race freedom that the source assumes too.
- FetchAddProofs.CombiningIsAtomic: arithmetic is unbounded; the wrap-around of 64-bit counters is not modelled.
- GlobalCounter.CounterIsSum: unbounded arithmetic, as above.
- FlatProofs.CarriedExactlyOnce: for operations that block; the MATCHED and SATISFIED outcomes of `combine` are not modelled.
- NTBuffer.Buffer.Enqueue: the buffer's capacity is the caller's duty, as in the source, where overrunning it is unchecked; non-temporal stores and fences are plain stores.
- Callbacks of send contexts and the list of external sends (system/Communicator.cpp:374-391).
- CommunicatorRings.SendRing.TryGetSendContext: the CHECK that the context is idle is a precondition of the method; CommunicatorRings.ContextsAreReusedAfterSending proves that it holds in every run.
- InplaceReduction.EveryArrayIsReduced: the barrier before the messages is part of the initial state.
- AggregatorRuns.BundlesCarryTheMessages: per target; a message that is forwarded starts again as a message asked for on the forwarding core.
- The aggregator's disabled mode, its queue of received bundles, and statistics.
- GlobalVector, `memcpy` on global ranges, the chunk and pool allocators, mutexes, full/empty words, semaphores: smaller, or without the property one would state.
- MPI, shared memory, files, signals, metrics, tracing, startup and teardown.
