# The concurrency kernel of mco, modelled and proved in Dafny

This project models the parts of the mco coroutine runtime on which everything else rests, and proves what they
promise. `dafny verify dfyconfig.toml` checks all of it.

Each concurrent component is a state machine: one step per atomic operation of the code, any number of calls at work,
any interleaving, sequentially consistent memory, weak compare-and-swaps that may fail for no reason. A step is a
function from state to state; a run is a sequence of states joined by enabled steps. What is written under "history"
in a state is never read by a step; it names tickets, owners and outcomes so that properties can be stated. Code that
one caller owns (drops, iterators, the timer list used by one thread, context links, calendar loops) is written as
classes and methods with loops.

| files | component |
|---|---|
| SegQueueSteps, SegQueueInvariant, SegQueueProof, SegQueueTheorems, SegQueueOwned, SegQueueWitness | unbounded queue of linked 31-slot blocks |
| ArrayQueueWords, ArrayQueueSteps, ArrayQueueProof, ArrayQueueTheorems, ArrayQueueOwned, ArrayQueueWitness | bounded ring queue with lap and index stamps |
| MpscListSteps, MpscListProof, MpscListHead | doubly linked queue with removal and counted nodes |
| TimerSteps, TimerProof | the timer list under concurrent `add_timer` and one timer thread |
| TimerList | the timer list against a flat set of deadlines; durations |
| MutexSteps, MutexProof | mutex with the unparked/release handshake of `SyncBlocker` |
| SemphoreSteps, SemphoreProof | semaphore with the same handshake |
| RwLock | reader-writer lock, over two runs of the mutex machine |
| Channel, ChannelWitness | channel buffer, over a run of the semaphore machine |
| Park, ParkWitness | token and parity bits of a coroutine's park, its drop, and cancellation |
| OnceCell | once-initialisation with a waiter stack in one word, and cancelled waiters |
| ContextStack | generator context rings of a thread |
| Calendar | seconds to date and back |

Six promises turned out to hold only under a condition. Each condition is proved exact, and a run or an input shows
that it can fail.

- `SegQueue::is_empty` answers no for an empty queue while a pop stands between winning the last slot of a block and
  moving the head to the next block (`SegQueueOwned.IsEmptyExact`, `BlockEndMeansLeaving`, `IsEmptyForCallers`;
  reached in `SegQueueWitness.IsEmptyCanDeny`).
- `ArrayQueue` compares words whose laps wrap. A compare tells tickets apart up to whole periods, which are the capacity
  times the laps of a 64-bit word. A step keeps the queue intact if and only if a compare-and-swap that it wins finds
  its slot as the call had seen it (`ArrayQueueProof.StepKeepsInv`, `RunInvExactly`). A call that is not overtaken by a
  period always does (`TimelyStands`). At every capacity a run leads each of the four compares of an overtaken call
  into its wrong answer (`ArrayQueueWitness`).
- The flag of `mpsc_list_v1` that tells a push that it is first stays off if the predecessor was removed through its
  handle meanwhile (`MpscListHead.IsHeadExactly`; reached in `RemovalHidesHead`).
- `OnceCell` signals waiters through nodes on their stacks. A walk touches only nodes that are there if and only if no
  waiter it comes to was cancelled before it was signalled (`OnceCell.NodesAreSafe`; a cancelled one is touched in
  `CancelledWaiterIsTouched`).
- A `Park` waits for its last `subscribe` at the gate of the next park and in its drop. A cancelled coroutine panics out
  of both waits. The drop passes exactly when no subscribe is in flight or a cancel left the gate since the last one
  set its flag (`Park.DropAfterSubscribe`, `DroppedAfterSubscribe`; reached in `ParkWitness.GateCanBeLeft` and
  `DropCanBeLeft`). If the coroutine then parks with cancellation disabled before that subscribe is done, bit 1 is off
  by one until a gate clears it again (`Park.TornExactly`): drops pass too early or wait for good
  (`ParkWitness.DropCanBeWrongBothWays`, `StuckStays`).
- `time_to_tm` casts day numbers to i32. The way back works exactly from the least i32 day to the last i32 year
  (`Calendar.TimeToTm`, `RoundTripBeforeEpoch`, `FarPastIsLost`, `DayBeforeLeastOverflows`).

## Model

| member | source | states |
|---|---|---|
| SegQueueProof.StepKeepsInv | src/std/queue/seg_queue.rs:200-380 | every push, pop and destroy step keeps one inductive invariant over indices, block links, slot bits, calls at work and freed blocks |
| SegQueueTheorems.StepRefinesFifo | src/std/queue/seg_queue.rs:200-380 | every step is an enqueue, a dequeue or a stutter of a plain sequence; a won tail CAS gives a slot nobody had, a won head CAS only ever claims a claimed slot, HAS_NEXT or not |
| SegQueueTheorems.RunIsFifo | src/std/queue/seg_queue.rs:295-380 | over every run, the n-th pop to win the head returns the value of the n-th push to win the tail |
| SegQueueTheorems.NoneOnlyWhenEmpty | src/std/queue/seg_queue.rs:305-325 | a pop gives up only when the queue is empty at its load of the tail |
| SegQueueTheorems.ReadsAreSound | src/std/queue/seg_queue.rs:345-371 | a cell is read after it was written, once, and holds the value of its ticket |
| SegQueueTheorems.NextBlockAllocated | src/std/queue/seg_queue.rs:252-272 | the call that installs a block has one at hand, so the unwrap never fails |
| SegQueueTheorems.NoUseAfterFree | src/std/queue/seg_queue.rs:97-114 | in no state of any run is a call about to touch a freed or unpublished block |
| SegQueueTheorems.FreedOnceAndDrained | src/std/queue/seg_queue.rs:97-114 | a block is freed once, when all its 31 slots were written and read |
| SegQueueTheorems.ParkedSlotUndelivered | src/std/queue/seg_queue.rs:97-114 | destruction that waits is waited for by a reader still at work in that block |
| SegQueueTheorems.QuiescentState | src/std/queue/seg_queue.rs:200-380 | with no call at work exactly the blocks behind the head are freed, popped values were returned, the others sit in linked blocks |
| SegQueueOwned.WordParts | src/std/queue/seg_queue.rs:18-26 | what shifting and masking an index word yields, in terms of the position it packs |
| SegQueueOwned.WordsEqual | src/std/queue/seg_queue.rs:18-26 | comparing index words is comparing positions and metadata bits |
| SegQueueOwned.Len | src/std/queue/seg_queue.rs:417-450 | the fix-ups, the rotation and the closed form give the difference of the tickets |
| SegQueueOwned.LenIsExact | src/std/queue/seg_queue.rs:417-450 | when the tail reads the same twice, the answer was the length at the load of the head |
| SegQueueOwned.IsEmptyExact | src/std/queue/seg_queue.rs:395-399 | over the two loads: yes exactly when no more was pushed by the second than was popped at the first and the head is not at a block's end before an unused block |
| SegQueueOwned.BlockEndMeansLeaving | src/std/queue/seg_queue.rs:347-356 | the head stands at a block's end exactly while a pop is leaving that block |
| SegQueueOwned.SomeValueWaited | src/std/queue/seg_queue.rs:395-399 | more pushed by the second load than popped at the first means that a value waited in between |
| SegQueueOwned.IsEmptyForCallers | src/std/queue/seg_queue.rs:395-399 | with no pop leaving a block, yes means empty at the second load and no means that a value waited between the loads |
| SegQueueOwned.IsEmptySound | src/std/queue/seg_queue.rs:395-399 | a yes is right at the load of the tail |
| SegQueueWitness.IsEmptyCanDeny | src/std/queue/seg_queue.rs:395-399 | a run of 31 pushes and 31 pops ends with nothing waiting and the two indices different |
| SegQueueOwned.LiveIsQueue | src/std/queue/seg_queue.rs:453-489 | what walking the blocks from head to tail visits is the abstract queue, in order |
| SegQueueOwned.OwnedQueue.Drop | src/std/queue/seg_queue.rs:453-489 | every live value is dropped once in order, every block freed once |
| SegQueueOwned.OwnedQueue.Next | src/std/queue/seg_queue.rs:518-559 | yields the front value and frees the block whose last value it took |
| ArrayQueueWords.NextStampOk | src/std/queue/array_queue.rs:169-177 | the word an end moves to is the stamp of the next ticket, with laps wrapping at the word |
| ArrayQueueWords.StampParts | src/std/queue/array_queue.rs:160-166 | index and lap can be read back, the index is below the capacity, and adding one never overflows |
| ArrayQueueWords.StampOfNextLap | src/std/queue/array_queue.rs:269-270 | adding one lap with wrap-around gives the stamp of the ticket a capacity later |
| ArrayQueueWords.StampsEqual | src/std/queue/array_queue.rs:180-186 | stamps repeat exactly at the period |
| ArrayQueueWords.FullDiffersFromFree | src/std/queue/array_queue.rs:168-199 | the stamps of a free and a full slot never coincide |
| ArrayQueueWords.MasksAreRemainders | src/std/queue/array_queue.rs:160-161 | masking with one lap less one, and with its complement in a word, gives the remainder and what is left of the word |
| ArrayQueueProof.StepKeepsInv | src/std/queue/array_queue.rs:154-295 | a step keeps the invariant that ties stamps, turns, calls and values if and only if a CAS it wins finds the stamp the call had seen |
| ArrayQueueProof.TimelyStands | src/std/queue/array_queue.rs:180-186 | a call not overtaken by a period finds that stamp |
| ArrayQueueProof.RunInvExactly | src/std/queue/array_queue.rs:154-295 | over every run, the invariant holds up to a state if and only if every CAS won before it found its stamp |
| ArrayQueueProof.TimelyRunStands | src/std/queue/array_queue.rs:154-295 | in a run of calls not overtaken every CAS finds its stamp |
| ArrayQueueTheorems.StepRefinesBoundedFifo | src/std/queue/array_queue.rs:154-295 | a step whose CAS finds its stamp is an enqueue to a queue below capacity, a dequeue from a non-empty one, or a stutter; timely steps are such steps, and no others keep the invariant |
| ArrayQueueTheorems.RunIsBoundedFifo | src/std/queue/array_queue.rs:154-295 | the same over every run up to the first CAS that misses its stamp, with never more than the capacity claimed |
| ArrayQueueTheorems.PushFailsExactlyWhenFull | src/std/queue/array_queue.rs:199-210 | a push gives its value back exactly at whole periods before the ticket a lap after the head; for a call not overtaken, exactly when the queue is full at its load of the head and its tail was current |
| ArrayQueueTheorems.PopFailsExactlyWhenEmpty | src/std/queue/array_queue.rs:277-288 | a pop answers nothing exactly at whole periods before the tail; for a call not overtaken, exactly when the queue is empty at its load of the tail and its head was current |
| ArrayQueueTheorems.CellsAreExclusive | src/std/queue/array_queue.rs:186-192 | no two calls are at work on one cell, none both writes and reads |
| ArrayQueueTheorems.WordsInBounds | src/std/queue/array_queue.rs:160-166 | words held by calls index inside the buffer and survive the plain additions |
| ArrayQueueTheorems.DeliveredOnce | src/std/queue/array_queue.rs:268-275 | each popped ticket is with one reader or was returned with the value pushed for it |
| ArrayQueueTheorems.DeliveredStays | src/std/queue/array_queue.rs:268-275 | a returned value is never changed, by any step |
| ArrayQueueTheorems.IdleRingHoldsQueue | src/std/queue/array_queue.rs:403-425 | with no call at work the slots hold the abstract queue |
| ArrayQueueTheorems.TailCasSucceedsByPeriods | src/std/queue/array_queue.rs:180-186 | a tail CAS succeeds exactly at whole periods, and then overfills a full queue |
| ArrayQueueTheorems.HeadCasSucceedsByPeriods | src/std/queue/array_queue.rs:259-266 | a head CAS succeeds exactly at whole periods, and then takes a ticket from an empty queue that no push has won |
| ArrayQueueTheorems.WrongRefusalIsStale | src/std/queue/array_queue.rs:199-210 | a push refused with room left and a pop refused with values waiting were overtaken by a period |
| ArrayQueueWitness.StaleTailOverfills | src/std/queue/array_queue.rs:180-186 | at every capacity a run of timely steps ends in a full queue whose next tail CAS succeeds |
| ArrayQueueWitness.StaleHeadUnderflows | src/std/queue/array_queue.rs:259-266 | at every capacity such a run ends in an empty queue whose next head CAS succeeds |
| ArrayQueueWitness.StaleRefusalWithRoom | src/std/queue/array_queue.rs:199-210 | at every capacity such a run ends in an empty queue that refuses the next push |
| ArrayQueueWitness.StaleAnswerMissesValues | src/std/queue/array_queue.rs:277-288 | at every capacity such a run ends in a full queue whose next pop answers nothing |
| ArrayQueueTheorems.LenOfTickets | src/std/queue/array_queue.rs:385-396 | the four cases count pushes minus pops |
| ArrayQueueTheorems.LenIsExact | src/std/queue/array_queue.rs:377-399 | the tail reads the same twice exactly at whole periods of pushes in between; within a period the answer was exact at the load of the head |
| ArrayQueueTheorems.IsEmptyIsExact | src/std/queue/array_queue.rs:325-335 | yes exactly at whole periods between the two tickets read; within a period, exactly when the queue is empty at the second load and the head had not moved |
| ArrayQueueTheorems.IsFullIsExact | src/std/queue/array_queue.rs:350-358 | yes exactly at a capacity up to whole periods; within a period, exactly when the queue is full at the second load and the tail had not moved |
| ArrayQueueOwned.NextPowerOfTwo | src/std/queue/array_queue.rs:127-128 | the least power of two that is at least the argument |
| ArrayQueueOwned.OwnedRing.constructor | src/std/queue/array_queue.rs:94-138 | an empty queue with stamps 0, 1, ...; one lap is the least power of two above the capacity |
| ArrayQueueOwned.OwnedRing.Len | src/std/queue/array_queue.rs:377-399 | the number of waiting values |
| ArrayQueueOwned.OwnedRing.Drop | src/std/queue/array_queue.rs:402-425 | every waiting value is dropped once in order, no other slot is touched |
| ArrayQueueOwned.OwnedRing.Next | src/std/queue/array_queue.rs:442-471 | yields the front value across the end of the buffer and of a lap |
| MpscListProof.StepKeepsInv | src/std/queue/mpsc_list_v1.rs:73-331 | every step of push, pop, pop_if, peek, remove and handle drop keeps the invariant |
| MpscListProof.StepsAreSafe | src/std/queue/mpsc_list_v1.rs:73-331 | no step dereferences a node that was freed |
| MpscListProof.ChainIsQueue | src/std/queue/mpsc_list_v1.rs:171-181 | the chain behind the tail is the pushed values in order less those that left, prev and next mutually inverse except where a push has still to store them |
| MpscListProof.PopIsFifo | src/std/queue/mpsc_list_v1.rs:226-330 | a pop delivers the oldest value that has not left |
| MpscListProof.EmptyAnswerIsExact | src/std/queue/mpsc_list_v1.rs:185-199 | head equals tail exactly when nothing waits |
| MpscListProof.RemovableExactly | src/std/queue/mpsc_list_v1.rs:73-123 | remove acts exactly on nodes between the tail and the last whose successor is linked |
| MpscListProof.DeliveredOnce | src/std/queue/mpsc_list_v1.rs:226-330 | a value leaves at most once, by pop or remove, unchanged |
| MpscListProof.FreedOnce | src/std/queue/mpsc_list_v1.rs:126-139 | a node is freed once, when list and handle have let go of it, never while it is linked behind the tail |
| MpscListProof.NothingLeaks | src/std/queue/mpsc_list_v1.rs:126-139 | with no handle and nothing waiting only the tail node is allocated |
| MpscListHead.StepKeepsHead | src/std/queue/mpsc_list_v1.rs:171-181 | every step keeps a pushed node right behind its predecessor while that one is in the chain |
| MpscListHead.IsHeadExactly | src/std/queue/mpsc_list_v1.rs:171-181 | over every run, a push is told that it is first exactly when its value is the oldest waiting and its predecessor was not removed |
| MpscListHead.RemovalHidesHead | src/std/queue/mpsc_list_v1.rs:171-181 | a run in which a push makes its value the oldest waiting one and is not told so |
| TimerProof.StepKeepsInv | src/timeout_list.rs:135-261 | every step of add_timer, schedule_timer and remove keeps the invariant |
| TimerProof.NoTimerLost | src/timeout_list.rs:135-261 | a list with timers, in the map or dropped from it, has its heap entry, an installer, the scheduler at it, or the pusher of its first node still due to install it |
| TimerProof.OneEntryPerList | src/timeout_list.rs:135-139 | `in_use` admits one heap entry per list, and no installer beside it |
| TimerProof.OneInstaller | src/timeout_list.rs:135-139 | two installers of one list never coexist |
| TimerProof.PeekNeverFails | src/timeout_list.rs:250-256 | the unwrap after the recheck never fails; a first node is always on its way to being reachable |
| TimerProof.TimersConserved | src/timeout_list.rs:144-261 | every timer added is being added, waits in one list, fired when due, or was removed |
| TimerProof.FateIsFinal | src/timeout_list.rs:87-96 | a timer fires or is removed once |
| TimerProof.QuietListsOnHeap | src/timeout_list.rs:208-261 | at rest each list that holds timers has a heap entry |
| TimerProof.ListsAreThere | src/timeout_list.rs:144-202 | a call's list exists, even if dropped from the map |
| TimerList.NsRoundTrip | src/timeout_list.rs:22-32 | every u64 of nanoseconds survives the trip through a duration |
| TimerList.DurRoundTrip | src/timeout_list.rs:22-32 | a duration survives the other way exactly when it fits, else it saturates |
| TimerList.GreatestIsEarliest | src/timeout_list.rs:113-117 | the greatest entry in the reversed order of entries is one of least time, and conversely |
| TimerList.Peek | src/timeout_list.rs:211-222 | the heap yields an entry of least time, nothing exactly when it is empty |
| TimerList.PopTimeout | src/timeout_list.rs:87-96 | fires the due front of a list and tells the next deadline |
| TimerList.TimeOutList.AddTimer | src/timeout_list.rs:144-202 | the timer joins the pending set; a recalculation is asked for exactly when no earlier timer of its interval is pending; a deadline past the word overflows and changes nothing |
| TimerList.TimeOutList.ScheduleTimer | src/timeout_list.rs:208-261 | fires exactly the pending timers with time at most now, once each, and returns a delay that ends no later than the earliest other one |
| TimerList.TimeOutList.Serve | src/timeout_list.rs:229-259 | one round of the loop reduces the number of due entries, so it ends |
| TimerList.TimeOutList.Remove | src/std/queue/mpsc_list_v1.rs:73-123 | takes out exactly a pending timer that is not the last of its list |
| MutexProof.StepKeepsInv | src/std/sync/mutex.rs:61-150 | every step of lock, try_lock, unlock and cancel keeps the invariant |
| MutexProof.MutualExclusion | src/std/sync/mutex.rs:61-150 | at most one call owns the lock, has it in hand or pops a waiter for it |
| MutexProof.SingleConsumer | src/std/sync/mutex.rs:138-150 | one call at a time is inside the list's pop, and never finds it empty |
| MutexProof.CountTellsHeld | src/std/sync/mutex.rs:124-150 | the count is positive exactly while the lock is with someone and never goes below zero |
| MutexProof.LockIsNeverLost | src/std/sync/blocking.rs:139-182 | someone still running answers for the lock, through the unparked/release handshake if its waiter is gone |
| MutexProof.HandOffSettled | src/std/sync/mutex.rs:80-113 | a hand-off ends with the waiter owning the lock or with one unlock on its behalf |
| MutexProof.SettledOnce | src/std/sync/mutex.rs:80-113 | that end is reached once |
| MutexProof.QuietLock | src/std/sync/mutex.rs:146-150 | with no call left the lock is free and the list empty, whatever was cancelled |
| MutexProof.BlockersAreThere | src/std/sync/blocking.rs:139-182 | blockers exist as long as a call uses them, and "got null blocker!" is not reached |
| MutexProof.RunExcludes | src/std/sync/mutex.rs:61-150 | the above over every run |
| SemphoreProof.StepKeepsInv | src/std/sync/semphore.rs:61-153 | every step of wait, timed wait, try_wait and post keeps the invariant |
| SemphoreProof.PermitsConserved | src/std/sync/semphore.rs:61-153 | initial value plus posts is successes plus the value plus permits in hand and handed over unsettled; the list holds uncounted waiters, pending wake-ups and what is owed; which calls and blockers these are |
| SemphoreProof.WakeupFindsBlocker | src/std/sync/semphore.rs:61-71 | wakeup_one never finds the list empty |
| SemphoreProof.GrantedIsAnswered | src/std/sync/semphore.rs:88-110 | a permit handed to a waiter is with a running call or a waker that will find the release flag |
| SemphoreProof.SettledOnce | src/std/sync/semphore.rs:88-110 | such a permit is used or posted again, once |
| SemphoreProof.RecursionEnds | src/std/sync/semphore.rs:61-71 | the recursion of post and wakeup_one uses up an abandoned wait each time round |
| SemphoreProof.RepostsAreBounded | src/std/sync/semphore.rs:88-110 | re-posts are made for distinct blockers |
| SemphoreProof.QuietSemaphore | src/std/sync/semphore.rs:145-163 | with no call left the value is what was posted less what was taken |
| SemphoreProof.BlockersAreThere | src/std/sync/blocking.rs:139-182 | blockers exist as long as a call uses them |
| RwLock.StepKeepsInv | src/std/sync/rwlock.rs:73-215 | every step of readers, writers and both locks keeps the invariant |
| RwLock.WritersExclude | src/std/sync/rwlock.rs:150-215 | no run has a writer beside a reader or a second writer |
| RwLock.GroupOwnsLock | src/std/sync/rwlock.rs:150-204 | the readers own the global lock exactly while any is counted or the first or last is at it inside rlock |
| RwLock.QuietLocks | src/std/sync/rwlock.rs:150-165 | with no call left both locks are free, whatever reader or writer was cancelled |
| RwLock.ListsSingleConsumer | src/std/sync/rwlock.rs:132-148 | both wait lists have one consumer at a time and are never found empty |
| Park.StepKeepsInv | src/park.rs:92-283 | every step of the coroutine, its subscribes, unparks, timers, cancels and the drop keeps the invariant, with the cancel panics at the gate, after the yield and in the drop |
| Park.LeftExactly | src/park.rs:184-188 | the history flag says exactly that a cancel left the gate since a subscribe last set the kernel flag |
| Park.TornExactly | src/park.rs:183-196 | a suspension is first torn exactly by a coroutine not cancelled at its yield whose gate cleared bit 1 beside a subscribe in flight, and only after a cancel left the gate |
| Park.NeverLeftIsSettled | src/park.rs:183-196 | a run in which no cancel leaves the gate has no torn suspension |
| Park.ResumedOnce | src/park.rs:162-170 | every suspension is ended by exactly one resumer |
| Park.CoroutineIsKept | src/park.rs:244-272 | a suspended coroutine is with subscribe or in wait_co, and storing it overwrites none |
| Park.UnparkNotLost | src/park.rs:118-141 | with the token set a stored coroutine is about to be taken by subscribe's re-check or an unpark |
| Park.YieldAfterSubscribe | src/park.rs:175-197 | a coroutine yields beside an unfinished subscribe only if its gate cleared bit 1 beside it, after a cancel left the gate; without such a cancel never |
| Park.GateWaitsForSubscribe | src/park.rs:184-188 | bit 1 is set at the gate exactly while a subscribe runs, until a suspension is torn; then exactly by the parity of those in flight and the stray half |
| Park.DropAfterSubscribe | src/park.rs:228-240 | the drop's wait passes exactly when no subscribe is in flight or a cancel left the gate, until a suspension is torn; then exactly by the flag, the parity and the stray half |
| Park.DroppedAfterSubscribe | src/park.rs:228-240 | a finished drop is beside a subscribe only by a cancel, at the gate before or in its own wait |
| ParkWitness.GateCanBeLeft | src/park.rs:184-188 | a run in which a cancel leaves the gate, and the drop then returns beside a subscribe in flight |
| ParkWitness.DropCanBeLeft | src/park.rs:235-237 | a run in which a cancelled coroutine leaves the wait of the drop beside a subscribe in flight |
| ParkWitness.SubscribesCanOverlap | src/park.rs:188-195 | a run with two subscribes of one park in flight |
| ParkWitness.DropCanBeWrongBothWays | src/park.rs:228-240 | runs in which the drop passes beside a subscribe, and in which it waits with none in flight |
| ParkWitness.StuckStays | src/park.rs:235-237 | such a wait is ended by no step but a cancel |
| OnceCell.EncodingIsFaithful | src/std/lazy/imp_std.rs:39-55 | the word tells states and queues apart |
| OnceCell.StepKeepsInv | src/std/lazy/imp_std.rs:152-244 | every step of initialize, wait, the drop of the queue and the cancel of a waiter keeps the invariant |
| OnceCell.InitialisersExclude | src/std/lazy/imp_std.rs:152-186 | initialisers never overlap |
| OnceCell.ValueWrittenOnce | src/std/lazy/imp_std.rs:88-109 | COMPLETE is terminal and the value is written at most once |
| OnceCell.OkMeansComplete | src/std/lazy/imp_std.rs:88-109 | Ok means a complete cell, even after other initialisers failed |
| OnceCell.NodesAreSafe | src/std/lazy/imp_std.rs:221-244 | the drop finds RUNNING; a step touches only nodes that are there and unsignalled if and only if the waiter it stands at was not cancelled before it was signalled |
| OnceCell.UncancelledIsSafe | src/std/lazy/imp_std.rs:221-244 | with no such cancel every step is safe |
| OnceCell.AbandonedExactly | src/std/lazy/imp_std.rs:213-215 | abandoned nodes are exactly those of waiters cancelled before they were signalled |
| OnceCell.CancelledWaiterIsTouched | src/std/lazy/imp_std.rs:213-244 | a run in which a walk starts at the node of a cancelled waiter |
| OnceCell.WaitersAreListed | src/std/lazy/imp_std.rs:189-218 | an unsignalled waiter is in the queue or on the list of one walker, and so is an abandoned node |
| OnceCell.SignalledOnce | src/std/lazy/imp_std.rs:229-242 | a walker can signal exactly a waiter that was not abandoned, and signals each waiter of its list once |
| Channel.StepKeepsInv | src/std/sync/channel.rs:96-212 | every step of both ends and of the semaphore keeps the invariant |
| Channel.PermitMeansValue | src/std/sync/channel.rs:133-178 | while a sender lives a receiver with a permit finds a value; both unreachable arms are dead |
| Channel.ValuesConserved | src/std/sync/channel.rs:96-212 | received and discarded values, then the buffer, are the sent values in order |
| Channel.RecvIsFifo | src/std/sync/channel.rs:133-178 | a receive takes the oldest value |
| Channel.BufferIsBounded | src/std/sync/channel.rs:96-124 | the buffer stays within the limit plus the senders at work less one, and is empty at limit zero |
| ChannelWitness.BoundIsReached | src/std/sync/channel.rs:96-124 | for every positive limit and number of senders a run reaches that bound |
| Channel.PeakBounds | src/std/sync/channel.rs:96-124 | the bound on senders at work, from the senders in each state |
| ContextStack.PushContext | mco-gen/src/rt.rs:232-244 | splices a suspended ring on top of a thread's ring |
| ContextStack.PopContext | mco-gen/src/rt.rs:248-262 | cuts the ring of a context and all above it out again |
| ContextStack.SuspendResume | mco-gen/src/rt.rs:232-262 | one after the other restores every link |
| ContextStack.Migrate | mco-gen/src/rt.rs:232-262 | resuming on another thread takes the nested generators along, links untouched |
| ContextStack.CoCtx | mco-gen/src/rt.rs:215-228 | ends, and returns the innermost coroutine |
| ContextStack.GetLocalData | mco-gen/src/rt.rs:282-296 | ends, and returns the data of that coroutine |
| ContextStack.Top | mco-gen/src/rt.rs:208-211 | the top of the ring |
| ContextStack.IsGenerator | mco-gen/src/rt.rs:273-277 | whether anything runs above the root |
| ContextStack.InnermostIsInnermost | mco-gen/src/rt.rs:215-228 | the coroutine found has data, and nothing above it has |
| ContextStack.InnermostBelow | mco-gen/src/rt.rs:232-262 | what is innermost below a segment does not depend on the segment |
| ContextStack.NewRoot | mco-gen/src/rt.rs:13-18 | a thread's root starts as a ring of its own |
| Calendar.TimeToTm | src/std/time/sys/stub.rs:13-49 | for every time, in a build that checks arithmetic: the closed form takes the result back exactly from the least i32 day to the last i32 year; from the epoch on it is the one valid date with these seconds and agrees with POSIX |
| Calendar.CountYears | src/std/time/sys/stub.rs:30-38 | the year loop ends in the year of the day, and overflows exactly past the last i32 year |
| Calendar.CountMonths | src/std/time/sys/stub.rs:41-45 | the month loop never indexes past December |
| Calendar.DaysBeforeClosed | src/std/time/sys/stub.rs:30-38 | the sum of the year sizes in closed form |
| Calendar.TmToTimeCounts | src/std/time/sys/stub.rs:51-66 | the closed form counts the seconds of every valid date |
| Calendar.PosixCounts | src/std/time/sys/stub.rs:13-66 | so does the POSIX.1-2017 expression over year and day of the year |
| Calendar.SecondsUnique | src/std/time/sys/stub.rs:13-66 | seconds determine the date |
| Calendar.DateRoundTrip | src/std/time/sys/stub.rs:13-66 | every valid date from 1970 to the last i32 year is recovered |
| Calendar.RoundTripBeforeEpoch | src/std/time/sys/stub.rs:23-48 | before the epoch the round trip holds exactly when the day number fits an i32, and the fields are then no date; the sum after the cast overflows exactly when the cast gives the greatest i32 |
| Calendar.WrappingBeforeEpoch | src/std/time/sys/stub.rs:23-48 | where that sum wraps instead, the round trip holds exactly one day further back |
| Calendar.FarPastIsLost | src/std/time/sys/stub.rs:23-48 | a time whose day number the cast changes, so that it does not come back |
| Calendar.DayBeforeLeastOverflows | src/std/time/sys/stub.rs:23-48 | the time of the first overflow |

## Left out

- Weak memory orderings: all steps are sequentially consistent.
- Reuse of addresses: blocks of `SegQueue` and nodes of `mpsc_list_v1` have names that are never used again, and so have abandoned nodes of `OnceCell`.
- Overflow of the 64-bit index words of `SegQueue`, after about 2^63 operations.
- Calendar.TimeToTm: a build that does not check arithmetic, where the year of a time past the last i32 year wraps, is modelled only before the epoch.
- TimerList.TimeOutList.AddTimer: a build that does not check arithmetic, where a deadline past the word wraps.
- A second panic while a coroutine unwinds, which aborts the process: the drop of a park is left by a cancel as if there were no first panic.
- The locks and the semaphore end a call when its park has returned: a cancel that panics out of the drop of the call's own blocker after that is shown for `Park` only.
- The mutex branch that goes on waiting after an ignored cancel: cancellation is not disabled.
- Poisoning of `Mutex` and `RwLock`, and cancels that hit a reader's release of `RwLock`.
- TimerList.TimeOutList.ScheduleTimer: sequential; stamping and pushing a timer are one step, because a stamp taken before another push would put a list out of order.
- A timer that fires before `subscribe` has stored the coroutine finds nothing to resume: `Park` says who resumes, not that a timeout always does.
- Wake-up of blocked `OnceCell` waiters, of several receivers after the last sender's drop, and of senders that wait for space: safety only.
- Dropping an `mpsc_list_v1` queue while handles are out; handle drops that race with the consumer.
- Concurrent components are modelled on values as state machines, not as objects updated in place by threads.
- `mpsc_list.rs`: the list of `mpsc_list_v1` without removal; the locks see it as a sequence with one consumer.
- `ThreadPark`, `SyncFlag`, `Condvar`, `WaitGroup`, `Join`, `Scope`, `Pool`, `atomic_option`, the unsynchronised lazy cell: easier members of the same kind.
- `SyncHashMap`, `SyncBtreeMap`, `SyncVec` and `once.rs`: they keep no agreement that could be proved.
- Scheduler masks and stealing, `cqueue`: hints over queues of other crates.
- Stack memory, signal handlers, register switching, sockets, selectors and the wrappers over clocks of the system.
