# Verified models of the async runtime's cores

Dafny models of the protocols this crate rests on, with proofs: the static
work-stealing queue and its executor, the cooperative mutex, the dynamic
executor with its registry, the nano executor, the multi-core signal, and the
join and select trees with the macros that build them.

`dafny verify dfyconfig.toml` checks everything.

Each core comes in two forms. Code that changes its fields in place is an
imperative class (or method) proved against a function of the old state.
Behaviour that cores interleave is a step machine, and the theorems are about
all its runs, for any number of cores or callers.

| modules | what they model |
|---|---|
| `Words`, `Ring` | 32- and 64-bit counters, packing, masks; a ring addressed by unbounded counts |
| `LifoMachine`, `LifoInvariant`, `LifoSafety`, `LifoRefinement`, `LifoConservation`, `LifoRuns`, `LifoRefusals`, `LifoCounts`, `LifoProgress` | the queue, one step per atomic load, store or CAS (`async/src/no_alloc/lifo.rs:60-227`) |
| `LifoQueue` | the queue, call by call, on words and an array |
| `StaticExecutor`, `StaticInvariant`, `StaticSafety`, `StaticRuns`, `StaticAdds`, `StaticDuplicates`, `StaticHistory`, `StaticProgress` | `add`, `run`, `try_steal`, `run_task` over the queue machine (`async/src/no_alloc/executor.rs:208-294`) |
| `StaticCore` | one core's turn and `TaskPool::init`, in place |
| `WaitList`, `MutexProtocol`, `MutexRuns` | the mutex: heap list and calls; polls, unlocks, their parts and drops as steps; their runs (`async/src/common/mutex.rs`) |
| `Registry`, `DynamicMachine`, `DynamicRuns`, `DynamicTimes`, `DynamicExecutor` | the registry as a map; the executor, one step per queue operation, registry section or poll; its runs; its calls (`async/src/dynamic/executor.rs`) |
| `NanoPass`, `NanoRuns`, `NanoExecutor` | a pass on lists; many passes; the linked list (`async/src/nano_alloc/executor.rs`) |
| `Mailbox` | the multi-core signal (`async/src/common/signal.rs:199-250`) |
| `Combinators`, `Scan`, `JoinTrees`, `JoinAllTrees`, `SelectTrees`, `TreeMacros` | combinators, flat scans, trees, macros |
| `Options`, `Clock`, `RateBound`, `BagSums` | shared notions: optional values, ticks, rate bounds, sums of bags |

## Assumptions

- Queue: N is at most 2^31 (and, where positions are masked, a power of two);
  source and destination of a steal differ; steps are sequentially consistent;
  each queue has one owner. From the word load of a booking to its CAS fewer
  than 2^32 pops and fewer than 2^32 booked entries pass, and fewer than 2^32
  booked entries from its one load of the released head, over all retries of
  the call (`LifoMachine.Timely`).
- Queue calls: a subtraction that leaves the word is an error of the call, as in
  a build with overflow checks (`LifoQueue.StealError`). A ring of 2^31 slots
  that is wholly booked and wholly refilled measures as empty, and a steal into
  it writes over what it holds (`LifoQueue.Queue.Free`, `LifoQueue.Written`).
- Queue runs also assume of `push` that the tail is short of a ring past the
  released head (`LifoMachine.Disciplined`). `StaticRuns.QueuesAreDisciplined`
  proves it for the executor (its adds: see below), and `LifoRuns.PushKeepsExactlyWhenDisciplined` and
  `LifoRuns.UndisciplinedPushOverwrites` show that it is needed.
- Static executor: a core adds before it runs, nothing is woken, N >= 2. Adds and
  steals of other cores interleave, provided that each write of an add finds the
  tail less than a ring past the released head (`StaticExecutor.AddFindsRoom`).
  That is exactly when an add keeps the queues in order
  (`StaticAdds.AddKeepsExactly`), and it holds without more if all adds come
  before all steals (`StaticAdds.AddsFirstFindRoom`).
- Mutex: a poll of the locked mutex is one step or four (attempt, link, look at
  the mark, store of the waker), an unlock is two (the flag, then the pop with its
  wake), and a poll that takes the mutex, a try-lock and a drop are one each. A
  future that returned its guard is not polled again, and one in the middle of a
  poll is neither dropped nor polled.
- Dynamic executor: fewer than 2^64 spawns; queues are atomic bounded deques of
  64; a core spawns between its passes, not from inside a poll. Theorems that
  require `DynamicMachine.Inv` hold in every reachable state
  (`DynamicMachine.InitInv`, `DynamicRuns.RunKeeps`).
- Nano executor: nodes are distinct; an overflowing next time wraps, as in a
  release build; the rate bounds assume that none overflows.
- Trees: in every round each leaf has an answer it would give if polled then.

## Where code and comments differ

- `async/src/no_alloc/executor.rs:206-207,210-211,260-261` say that duplicate entries
  collapse in `run_task`. They do only while their task is not ready
  (`StaticRuns.DroppedExactlyWhenNotReady`); a pending poll leaves all of them
  (`StaticRuns.APendingPollKeepsItsDuplicates`), and both of two can be polled
  (`StaticDuplicates.BothEntriesArePolled`).
- `async/src/common/mutex.rs:99-101,254-258` say that a future which finds the
  mutex free between linking and parking checks again. It does not look at the
  flag again, only at its node's mark, and may wait in front of a free mutex for
  good (`MutexRuns.ParkingLateStrandsTheFuture`).
- `async/src/common/mutex.rs:128-129` say that a node without a waker belongs to a
  forgotten future and is safe to skip. Between link (line 251) and the store of
  the waker (line 269) every newly linked node is one: a pop in between skips it,
  and its future then waits off the list for good
  (`MutexRuns.AnUnlockBeforeTheStoreForgetsTheFuture`,
  `MutexRuns.ForgottenNodesAreBeingPolled`).
- `async/src/common/mutex.rs:221-229`: a drop between wake and poll passes the
  wake to nobody (`MutexRuns.DroppingAWokenFutureStrandsTheNext`).
- In the steps modelled these three are the only ways to lose a wake
  (`MutexRuns.RunsAreAwakeExactly`).
- `async/src/dynamic/executor.rs:175-177` promise one drain of the local queue
  per step. A requeued node is the next one popped, so a back node that does not
  leave takes the whole budget (`DynamicExecutor.PassGetsPastItsBackNodeExactly`,
  `DynamicExecutor.TheNewerTaskTakesEveryPass`).
- `async/src/dynamic/executor.rs:191-192` say that a node which does not fit
  rides the next step. It would be dropped, with its slot live for ever
  (`DynamicMachine.PushBackKeepsExactly`); it always fits
  (`DynamicRuns.RequeueNeverFails`).

## Model

| member | source | states |
|---|---|---|
| `Words.PackRoundTrip` | async/src/no_alloc/lifo.rs:12-13 | packing two 32-bit halves and unpacking gives them back, and two packed words are equal exactly when both halves are: comparing the packed word in a CAS compares both counts |
| `Words.UnpackRoundTrip` | async/src/no_alloc/lifo.rs:12-13 | unpacking any 64-bit word and packing the halves gives the word back |
| `Words.SubExact` | async/src/no_alloc/lifo.rs:122-123 | `wrapping_sub` of the low words of two counts less than 2^32 apart is their true difference, across the wrap |
| `Words.AddExact` | async/src/no_alloc/lifo.rs:80-81 | `wrapping_add` on low words is the low word of the true sum |
| `Words.LowExact` | async/src/no_alloc/lifo.rs:152-152 | low words of two counts less than 2^32 apart are equal exactly when the counts are |
| `Words.MaskIsMod` | async/src/no_alloc/lifo.rs:37-38 | `and` with 2^k - 1 is the remainder by 2^k, proved on the bits |
| `Words.MaskedSlot` | async/src/no_alloc/lifo.rs:50-58 | for a power of two N up to 2^31, `position & MASK` of a wrapped position is the unbounded position mod N |
| `Words.MaskedSlotsDiffer` | async/src/no_alloc/lifo.rs:50-58 | two positions less than N apart are masked to different slots, across the 2^32 wrap |
| `LifoQueue.Queue.constructor` | async/src/no_alloc/lifo.rs:39-48 | a new queue is empty, with no window booked |
| `LifoQueue.Queue.ReadAt` | async/src/no_alloc/lifo.rs:50-53 | reads the entry of the unbounded position behind the word |
| `LifoQueue.Queue.WriteAt` | async/src/no_alloc/lifo.rs:55-58 | replaces the entry of that position and no other |
| `LifoQueue.Queue.BookItems` | async/src/no_alloc/lifo.rs:60-92 | busy exactly when a window is open, empty exactly when nothing was asked for, allowed or published; otherwise books the oldest entries, as many as the least of these three, and leaves the rest |
| `LifoQueue.Queue.Push` | async/src/no_alloc/lifo.rs:118-129 | refuses exactly when a whole ring is published; appends otherwise; keeps the booked window when the tail was short of a ring past the released head, and overwrites its oldest entry when not |
| `LifoQueue.Queue.Extend` | async/src/no_alloc/lifo.rs:130-143 | writes and publishes items until the tail word meets the limit word; with room below the released head that is the longest prefix that fits, and the window is kept |
| `LifoQueue.Queue.Pop` | async/src/no_alloc/lifo.rs:144-165 | takes the newest entry, nothing exactly on the empty queue, keeps the window, whatever number of CAS failures |
| `LifoQueue.Queue.Steal` | async/src/no_alloc/lifo.rs:178-196 | moves the oldest entries in order to the back of the destination, as many as the least of what was asked for, the room and what is published, and closes the window; busy, empty and overflow exactly when the source says, and then neither queue changes; into a ring that cannot be measured the entries are written all the same |
| `LifoQueue.Queue.StealAndPop` | async/src/no_alloc/lifo.rs:197-217 | the same with one entry more than the room, the newest booked one, which is handed to the caller |
| `LifoQueue.Queue.MakeDrain` | async/src/no_alloc/lifo.rs:166-170 | books the oldest entries, as many as were asked for or are published; the drain is to hand out exactly those |
| `LifoQueue.Drain.Next` | async/src/no_alloc/lifo.rs:219-227 | hands out the window in order and closes it with its last entry, leaving the published entries alone |
| `LifoSafety.StepKeeps` | async/src/no_alloc/lifo.rs:60-92 | every atomic step of every core and drain keeps the invariant of all rings: register values, counts, windows and copied entries |
| `LifoSafety.BookSwapsExact` | async/src/no_alloc/lifo.rs:60-92 | a booking CAS succeeds only with no window open, on a push count no greater than the current one, and takes the entries published at that moment, although the head was loaded before the loop |
| `LifoSafety.PopSwapsExact` | async/src/no_alloc/lifo.rs:144-165 | the pop CAS takes the newest published entry although the push count was loaded before the loop |
| `LifoRuns.CountsInOrder` | async/src/no_alloc/lifo.rs:118-217 | in every reachable state released head <= booked head <= tail <= released head + N |
| `LifoRuns.NoWriteHitsABookedSlot` | async/src/no_alloc/lifo.rs:55-58 | no `write_at` of any run hits the slot of a booked, unreleased or published entry |
| `LifoRuns.PushKeepsExactlyWhenDisciplined` | async/src/no_alloc/lifo.rs:118-129 | `push` keeps the invariant if and only if the tail is less than a ring past the released head; otherwise it overwrites the oldest booked entry |
| `LifoRuns.UndisciplinedPushOverwrites` | async/src/no_alloc/lifo.rs:118-129 | a run by calls alone in which a thief takes an entry it did not book, because `push` checks the booked head only |
| `LifoRuns.OneBookingAtATime` | async/src/no_alloc/lifo.rs:60-92 | a window is open exactly while some thief or drain is between its booking and its release; never two; and its bounds are those of the ring, until the release |
| `LifoRuns.BookingCoversPublishedItems` | async/src/no_alloc/lifo.rs:60-92 | in every run a successful booking covers only entries published at that moment |
| `LifoRefusals.ARejectedPushSawAFullDeque` | async/src/no_alloc/lifo.rs:118-125 | in every run a push is rejected only if its deque held N entries when the same call loaded the packed word |
| `LifoRefusals.ABookingOfNothingSawAnEmptyDeque` | async/src/no_alloc/lifo.rs:69-79 | a booking that may take an entry and takes none saw an empty deque when the same call loaded the push count, or 2^32 entries have gone by since its word load |
| `LifoRefusals.ABusyBookingMetAnOpenWindow` | async/src/no_alloc/lifo.rs:62-68 | a booking is busy only if the window of its ring was open at some moment of the same call |
| `LifoCounts.ABookingTakesExactly` | async/src/no_alloc/lifo.rs:69-92 | every booking of a run takes the least of what was asked for, its limit and those entries, published when the same call loaded the push count, that are still there |
| `LifoCounts.ALimitIsTheRoomOnce` | async/src/no_alloc/lifo.rs:181-201 | the limit of a steal is the room below the released head of its own ring at one moment of the same call, and one more for the entry handed out |
| `LifoCounts.AnExtendStopsEarlyOnAFullRing` | async/src/no_alloc/lifo.rs:130-143 | an `extend` drops items only if what it wrote fills the ring up to the released head that the same call loaded |
| `LifoProgress.NoCallIsStuck` | async/src/no_alloc/lifo.rs:60-217 | in the middle of a call a core always has a step that brings it nearer to the end, and its swaps fail only if somebody else's did not |
| `LifoProgress.ACallLeftAloneEnds` | async/src/no_alloc/lifo.rs:60-217 | from any state with the invariant, a core that runs alone ends the call it is in, within a bound linear in N and in its items |
| `LifoProgress.NoDrainIsStuck` | async/src/no_alloc/lifo.rs:219-227 | a live drain can hand out its next entry, or release its window after the last |
| `LifoRuns.RunRefines` | async/src/no_alloc/lifo.rs:118-217 | every run of the rings is, step by step, a run of deques: push and extend at the push-count store, pop at its CAS, a steal moves a prefix in order at the booking CAS and the push-count store |
| `LifoRuns.RunConserves` | async/src/no_alloc/lifo.rs:118-217 | the multiset of entries in all deques, copies, drains, hands and drops is the same in every state of a run |
| `LifoRefinement.StepRefines` | async/src/no_alloc/lifo.rs:118-217 | each atomic step is the deque step it should be, or changes no deque |
| `LifoConservation.StepConserves` | async/src/no_alloc/lifo.rs:118-217 | no atomic step creates, loses or duplicates an entry |
| `StaticCore.TaskPool.Init` | async/src/no_alloc/task.rs:155-169 | claims the first free slot for the future and changes nothing else; `None` (the panic) exactly when none is free |
| `StaticCore.Core.Add` | async/src/no_alloc/executor.rs:208-222 | initialized becomes ready, any other state stays, and the entry is queued in either case; fails exactly on a full ring |
| `StaticCore.Core.RunTask` | async/src/no_alloc/executor.rs:255-294 | polls exactly the ready entries; afterwards the state is unreachable or ready, and a pending entry is back at the end if there is room |
| `StaticCore.Core.TrySteal` | async/src/no_alloc/executor.rs:243-253 | takes the oldest entry of the first sibling that is neither empty nor booked, and leaves every other queue as it was |
| `StaticCore.Core.Turn` | async/src/no_alloc/executor.rs:224-241 | one turn of the loop runs the newest own entry, else the oldest of the first willing sibling; a pending entry always fits back; nothing else moves, and the next turn can be taken |
| `StaticCore.Core.ANewestPendingEntryTakesEveryTurn` | async/src/no_alloc/executor.rs:224-241 | a newest own entry whose polls are pending takes any number of turns in a row, and no entry of any queue moves: there is no round-robin |
| `StaticRuns.RequeueNeverFails` | async/src/no_alloc/executor.rs:286-293 | in every run the requeue push, whose result is ignored, neither is refused nor reaches a whole ring past the released head |
| `StaticRuns.QueuesAreDisciplined` | async/src/no_alloc/executor.rs:224-294 | every queue step of an executor run satisfies the room condition that `push` does not check, and keeps the queue invariant |
| `StaticRuns.NoWriteHitsABookedSlot` | async/src/no_alloc/lifo.rs:55-58 | no `write_at` of an executor run hits the slot of a booked, unreleased or published entry |
| `StaticRuns.AtMostOnePoller` | async/src/no_alloc/executor.rs:255-278 | at most one core polls any one pool slot, which is then marked running |
| `StaticRuns.ReadyHasAnEntry` | async/src/no_alloc/executor.rs:208-222 | a ready slot has an entry in a queue, in transit or in a hand; no entry is ever lost |
| `StaticRuns.FinishedIsNeverPolledAgain` | async/src/no_alloc/executor.rs:255-284 | once unreachable a slot stays unreachable and is never polled, however many entries of it are left |
| `StaticHistory.AReadyPollIsTheLast` | async/src/no_alloc/executor.rs:274-284 | after a ready poll of a task no core ever polls it again, and its slot is running until that poll is stored and unreachable from then on |
| `StaticHistory.FinishedForGood` | async/src/no_alloc/executor.rs:276-284 | the store at the end of a ready poll makes the slot unreachable in every later state |
| `StaticHistory.SlotsFollowTheirHistory` | async/src/no_alloc/executor.rs:208-293 | in every reachable state a slot is free exactly if never claimed, initialized exactly if claimed and not added since, running exactly if some core polls it, unreachable exactly if a ready poll of it was stored, and ready otherwise |
| `StaticHistory.AnEmptyCoreAsksEverySibling` | async/src/no_alloc/executor.rs:224-253 | between two pops of its own queue a core has got a task or has tried to steal from every sibling |
| `StaticHistory.AStealOfNothingSawAnEmptySibling` | async/src/no_alloc/executor.rs:243-253 | a steal of the run loop takes nothing from an unbooked sibling only if that queue was empty at the load of its push count in the same call, or 2^32 entries have gone by |
| `StaticProgress.NoCoreIsStuck` | async/src/no_alloc/executor.rs:208-294 | in every reachable state each core that has not panicked has a step of its own to make |
| `StaticRuns.SlotsAreHandedOutOnce` | async/src/no_alloc/task.rs:155-169 | in every run of any number of cores no pool slot is handed out twice |
| `StaticRuns.EntriesMove` | async/src/no_alloc/executor.rs:208-294 | entries are made by `add` and consumed by `run_task` only; no queue step, call or return loses or copies one |
| `StaticRuns.EntriesAreAddsLessEnds` | async/src/no_alloc/executor.rs:208-294 | in every state of a run the entries of a slot number its adds less the entries dropped unpolled or ended by a ready poll |
| `StaticRuns.DroppedExactlyWhenNotReady` | async/src/no_alloc/executor.rs:260-273 | a popped entry is dropped unpolled if and only if its task is not ready at the swap; otherwise it is polled, and a pending poll changes no task and no queue (`StaticRuns.APendingPollKeepsItsDuplicates`) |
| `StaticDuplicates.BothEntriesArePolled` | async/src/no_alloc/executor.rs:206-222 | a run of two cores with two adds of one task, in which both entries are polled |
| `StaticRuns.RunOk` | async/src/no_alloc/executor.rs:208-294 | every reachable state satisfies the invariants of queues, slots, claims and entries |
| `StaticSafety.QueuesKeep` | async/src/no_alloc/executor.rs:224-294 | pop before requeue and a steal of one only on an empty queue keep tail + (entry in hand) <= released head + N |
| `StaticAdds.AddKeepsExactly` | async/src/no_alloc/executor.rs:218-221 | a step of an add, with steals under way, keeps the queues in order if and only if its write finds the tail less than a ring past the released head |
| `StaticAdds.AClosedWindowIsRoom` | async/src/no_alloc/executor.rs:218-221 | it does while no thief has booked an entry of that core |
| `StaticAdds.AddsFirstFindRoom` | async/src/no_alloc/executor.rs:208-253 | in a run in which every add precedes every steal every add finds room, so that all theorems about runs hold of it |
| `WaitList.AsyncMutex.TryLock` | async/src/common/mutex.rs:72-82 | succeeds exactly on the free mutex |
| `WaitList.AsyncMutex.Link` | async/src/common/mutex.rs:139-152 | the doubly linked list stays well formed and gains the node at its end |
| `WaitList.AsyncMutex.Unlink` | async/src/common/mutex.rs:156-180 | the walk ends, the list stays well formed and loses the node if it is there; if not, nothing changes |
| `WaitList.AsyncMutex.PopParked` | async/src/common/mutex.rs:104-131 | the pop loop takes the waiters up to the first that has a waker |
| `WaitList.AsyncMutex.Unlock` | async/src/common/mutex.rs:102-135 | frees the flag, pops and marks that waiter, takes its waker, and changes nobody else |
| `WaitList.LockFuture.Poll` | async/src/common/mutex.rs:233-271 | a poll does to flag, list, node and future what the value spec says, on all four paths |
| `WaitList.LockFuture.Drop` | async/src/common/mutex.rs:221-229 | a linked future leaves the list, and only that node does |
| `MutexProtocol.StepKeeps` | async/src/common/mutex.rs:72-271 | polls, the steps of polls and of unlocks, try-locks and drops, in any order, keep the invariant of flag, list, futures, wakes and link times |
| `MutexProtocol.PollIsItsSteps` | async/src/common/mutex.rs:249-270 | a whole poll of the locked mutex is attempt, link, look and store with nothing in between |
| `MutexRuns.EveryRun` | async/src/common/mutex.rs:99-135 | in every run: the flag is set exactly while one guard lives, never two; nodes in the list belong to live futures and hold their latest waker, except between link and store; pops have woken in the order of linking; every other future that has stored a waker has a wake on its way, is being polled, or was forgotten by a pop |
| `MutexRuns.NobodyIsForgotten` | async/src/common/mutex.rs:254-258 | while no pop has forgotten a node, every future that has stored a waker is in the list, has a wake on its way or is being polled |
| `MutexRuns.ForgottenNodesAreBeingPolled` | async/src/common/mutex.rs:124-129 | the branch of `unlock` for a node without a waker is taken only for a future between link and store |
| `MutexProtocol.PopWakesTheOldest` | async/src/common/mutex.rs:104-135 | a pop skips the nodes at the front without a waker, and marks and wakes the one linked longest ago of the others and nobody else |
| `MutexProtocol.PopStrandsExactly` | async/src/common/mutex.rs:104-135 | a pop leaves a linked, unmarked future off the list if and only if the oldest node has no waker |
| `MutexRuns.NoRunLosesAWake` | async/src/common/mutex.rs:99-101 | no wake is lost in a run that drops no popped future before its next poll, takes no further step of a poll in front of a free mutex and pops no node without a waker |
| `MutexProtocol.StepKeepsWakesExactly` | async/src/common/mutex.rs:102-271 | every step keeps a wake on its way to a free mutex with waiters, and every waiter within reach of the next pop, except exactly these: the drop of a future that carries the last wake, the link of the first waiter of a free mutex with no wake on its way, and a pop that meets a node without a waker |
| `MutexProtocol.TheWokenTakeIt` | async/src/common/mutex.rs:237-247 | a woken future takes the mutex if it is still free when polled, and takes no waiter out of the list |
| `MutexRuns.WaitersAreServedInOrder` | async/src/common/mutex.rs:1-9 | from any such state, polling the woken future and dropping its guard serves every waiter, in list order |
| `MutexRuns.DroppingAWokenFutureStrandsTheNext` | async/src/common/mutex.rs:221-229 | a run from the start in which the next waiter is stranded before a free mutex |
| `MutexRuns.RunsAreAwakeExactly` | async/src/common/mutex.rs:99-101 | a run, with polls whole or in steps, always has a wake on its way to a free mutex with waiters and every waiter within reach if and only if it takes none of those three steps |
| `MutexRuns.ParkingLateStrandsTheFuture` | async/src/common/mutex.rs:249-269 | a run from the start in which a future links and parks in front of a free mutex with no wake on its way |
| `MutexRuns.AnUnlockBeforeTheStoreForgetsTheFuture` | async/src/common/mutex.rs:111-131 | a run from the start in which a pop between link and store leaves the future linked, off the list, and with no wake on its way |
| `MutexProtocol.LinkKeepsExactly` | async/src/common/mutex.rs:249-253 | a link keeps the wakes exactly if the mutex is locked, somebody else waits, a wake is on its way or an unlock is yet to pop |
| `Registry.FindIs` | async/src/dynamic/executor.rs:48-53 | the search finds the first match and nothing else |
| `Registry.InsertAddsOne` | async/src/dynamic/executor.rs:101-116 | a fresh id joins the map of live ids, whether a dead slot is reused or the vector grows; no other lookup changes |
| `Registry.RetireRemovesOne` | async/src/dynamic/executor.rs:224-230 | retiring removes exactly one id from the map |
| `Registry.CancelMarksOne` | async/src/dynamic/executor.rs:136-144 | cancelling marks exactly one live id |
| `Registry.SetFreqRetunesOne` | async/src/dynamic/executor.rs:147-155 | retuning changes exactly one live id |
| `Registry.SyncReapsTheCancelled` | async/src/dynamic/executor.rs:202-215 | the check before a poll removes the id exactly if it was cancelled |
| `Registry.Store.Insert` | async/src/dynamic/executor.rs:101-116 | the search and the reuse or growth in place |
| `Registry.Store.Retire` | async/src/dynamic/executor.rs:123-126 | the search and the mark in place |
| `Registry.Store.Cancel` | async/src/dynamic/executor.rs:136-144 | true exactly for a live id, and then only its mark changes |
| `Registry.Store.SetFreq` | async/src/dynamic/executor.rs:147-155 | true exactly for a live id, and then only its rate changes |
| `Registry.Store.IsAlive` | async/src/dynamic/executor.rs:158-160 | true exactly for a live id |
| `Registry.Store.Sync` | async/src/dynamic/executor.rs:202-215 | what a poller learns of its slot, which is reaped if cancelled |
| `DynamicMachine.StepKeeps` | async/src/dynamic/executor.rs:94-237 | every step of every core keeps: ids distinct, live ids and nodes agree, room for the node in hand |
| `DynamicMachine.PushBackKeepsExactly` | async/src/dynamic/executor.rs:190-194 | the requeue keeps live ids and nodes in agreement if and only if there is room; otherwise the node is dropped with its slot live |
| `DynamicRuns.LiveIdsAreThePlacedNodes` | async/src/dynamic/executor.rs:94-237 | in every run an id is live exactly if one node carries it: queued, in a hand, or between the two ends of a spawn; and never two |
| `DynamicRuns.SlotIsNeverGone` | async/src/dynamic/executor.rs:204-205 | the branch for a popped node without a slot is never taken |
| `DynamicRuns.RequeueNeverFails` | async/src/dynamic/executor.rs:184-195 | the requeue push, whose result is ignored, always has room, if no poll spawns on its own executor |
| `DynamicRuns.RegistryLengthIsThePeak` | async/src/dynamic/executor.rs:99-130 | the registry is as long as the most ids that were ever live at once, failed spawns included |
| `DynamicRuns.GoneStaysGone` | async/src/dynamic/executor.rs:157-160 | `is_alive`, once false for an issued id, stays false |
| `DynamicRuns.AtMostOneMorePoll` | async/src/dynamic/executor.rs:132-144 | after `cancel` returned true the future is polled at most once more, and only if that poll had passed its check |
| `DynamicRuns.NextPopReaps` | async/src/dynamic/executor.rs:199-218 | the next time a cancelled node is popped it is dropped, due or not, and its id is gone |
| `DynamicRuns.RetuneTakesEffect` | async/src/dynamic/executor.rs:146-155 | after `set_freq` returned true, with no poll past its check, every poll up to the next `set_freq` uses the new rate, on whatever core |
| `DynamicRuns.RateIsBounded` | async/src/dynamic/executor.rs:219-235 | a window [a, b] holds at most floor((b - a) / d) + 1 polls of one id, wherever its node is stolen to |
| `DynamicRuns.PollsKeepTheirDistance` | async/src/dynamic/executor.rs:219-235 | consecutive polls of one id are at least the interval apart |
| `DynamicTimes.PolledAgainWhenDue` | async/src/dynamic/executor.rs:219-235 | after a pending poll at `time` with interval `d`, the next time its node is popped, on whatever core, polls it exactly if that is at `time` + `d` or later, in a 64-bit word, and it was not cancelled |
| `DynamicTimes.ASpawnIsDueAtOnce` | async/src/dynamic/executor.rs:118-121 | the first pop of a spawned node polls it, unless it was cancelled by then |
| `DynamicTimes.ReadyIsNeverPolledAgain` | async/src/dynamic/executor.rs:223-231 | a future that was ready is not polled in any later state of the run |
| `Clock.TicksIsTheInterval` | async/src/dynamic/task.rs:50-56 | the interval is the largest that still gives the rate, and is 0 exactly at rate 0 or above the clock rate |
| `RateBound.AtMostRate` | async/src/nano_alloc/executor.rs:59-67 | polls that each set the next one at least d ticks later: at most floor((b - a) / d) + 1 of them in [a, b] |
| `DynamicExecutor.Executor.Spawn` | async/src/dynamic/executor.rs:94-130 | returns an id exactly if the queue had room; the node is at the back and its slot live, or the slot is dead again; and the call is a run of the machine |
| `DynamicExecutor.Executor.PollOne` | async/src/dynamic/executor.rs:199-237 | the result, node and registry for all five outcomes; and the call is a run of the machine |
| `DynamicExecutor.Executor.StealFrom` | async/src/dynamic/executor.rs:180-182 | four nodes, or all the sibling has, or all that fit leave the front of the sibling for the back of the own queue, in order |
| `DynamicExecutor.Executor.RunStep` | async/src/dynamic/executor.rs:178-196 | a batch from each sibling, the first four or all it has if there is room for four of each, then at most as many turns as the capacity; whose futures were polled, in order; and the call is a run of the machine |
| `DynamicExecutor.PassGetsPastItsBackNodeExactly` | async/src/dynamic/executor.rs:175-196 | a pass gets past its back node exactly if the slot is gone or cancelled, or the node is due and finishes, at its one poll or, if due again at once, at any; otherwise that node takes every turn and the nodes below are left as they were and not polled |
| `DynamicExecutor.TheBackNodeIsPolledExactly` | async/src/dynamic/executor.rs:184-222 | a pass polls its back node exactly if its slot is live and not cancelled and the node is due |
| `DynamicExecutor.APassGoesOn` | async/src/dynamic/executor.rs:184-195 | behind nodes that all leave at once, and with turns enough, a pass comes to every node and polls it exactly if it runs and is due |
| `DynamicExecutor.APassEmptiesTheQueue` | async/src/dynamic/executor.rs:184-195 | a pass over nodes that all leave at once empties the queue |
| `DynamicExecutor.ANodeNotDueTakesThePass` | async/src/dynamic/executor.rs:184-195 | a back node that is not due takes every turn, and the pass changes nothing |
| `DynamicExecutor.APendingBackNodeTakesAllPasses` | async/src/dynamic/executor.rs:175-196 | any number of passes at any times over any queue, with the back node's future pending: no other node is polled or moved |
| `DynamicExecutor.TheNewerTaskTakesEveryPass` | async/src/dynamic/executor.rs:175-196 | two spawns and any number of passes, with the newer task pending: the older one, due from the start, is in none of the polls made |
| `NanoExecutor.Executor.Add` | async/src/nano_alloc/executor.rs:26-33 | the node goes in front; its interval is the longest that still gives its rate, and 0 at rate 0 |
| `NanoExecutor.Executor.RunStep` | async/src/nano_alloc/executor.rs:54-75 | the cursor loop leaves exactly the list, and makes exactly the polls, of the recursive pass |
| `NanoPass.PassDropsExactly` | async/src/nano_alloc/executor.rs:61-63 | exactly the tasks polled to completion leave the list |
| `NanoPass.NotPolledTwice` | async/src/nano_alloc/executor.rs:57-74 | a pass polls no task twice |
| `NanoPass.OnePass` | async/src/nano_alloc/executor.rs:57-74 | a task that stays: polled at `time`, it is next due at `time` plus its interval, in a 64-bit word; not polled, it is unchanged, and moves forward if it was due; it never moves back |
| `NanoPass.PolledExactly` | async/src/nano_alloc/executor.rs:57-74 | a pass polls exactly the due tasks, but those right behind a task that it completes |
| `NanoRuns.MissesAreBounded` | async/src/nano_alloc/executor.rs:54-75 | a task at index i, due in each of k passes and never completed, is polled in at least k - i - m of them, where m tasks are added |
| `NanoRuns.EmptiedInLogPasses` | async/src/nano_alloc/executor.rs:61-63 | n >= 1 always-due, at once ready tasks are gone after exactly floor(log2 n) + 1 passes, not before |
| `NanoRuns.RateIsBounded` | async/src/nano_alloc/executor.rs:59-67 | a window [a, b] holds at most floor((b - a) / d) + 1 polls of a task of interval d |
| `NanoRuns.RateInHz` | async/src/nano_alloc/executor.rs:26-33 | a task added at f Hz is polled at most 2f times in any second, and at most f times if f divides the clock's rate |
| `NanoRuns.PolledAgainWhenDue` | async/src/nano_alloc/executor.rs:57-67 | a task polled pending at `time` is not polled before `time` plus its interval, and the first pass from then on polls it exactly if it does not pass over it |
| `NanoRuns.PolledFirstWhenDue` | async/src/nano_alloc/executor.rs:26-67 | the same of the first poll of an added task |
| `Mailbox.MultiCoreSignal.Signal` | async/src/common/signal.rs:219-222 | one after the other, the last write wins |
| `Mailbox.MultiCoreSignal.Reset` | async/src/common/signal.rs:226-229 | empties slot and flag from any state |
| `Mailbox.MultiCoreSignal.Poll` | async/src/common/signal.rs:238-249 | delivers what is in the slot, once |
| `Mailbox.StepKeeps` | async/src/common/signal.rs:219-249 | every interleaved step keeps: nothing hidden, each deposit in one place, order kept |
| `Mailbox.EveryRun` | async/src/common/signal.rs:219-249 | in every run each deposit is delivered, overwritten, reset, in the slot or in a hand, exactly one of them; deliveries keep the order of the deposits; a filled slot has its flag set unless a signal or a reset is half way |
| `Mailbox.QuietPollDelivers` | async/src/common/signal.rs:238-249 | with neither under way, an uninterrupted poll delivers the newest deposit |
| `Mailbox.AResetCanHideADeposit` | async/src/common/signal.rs:226-229 | both exceptions happen |
| `Combinators.Join.Poll` | async/src/common/control.rs:95-114 | the new flags, the answer and which children were asked |
| `Combinators.TryJoin.Poll` | async/src/common/control.rs:130-158 | the same; an error ends the poll at once and leaves the other flag |
| `Combinators.JoinAll.Poll` | async/src/common/control.rs:185-210 | the same with results kept, and moved out together |
| `Combinators.SelectPoll` | async/src/common/control.rs:274-287 | the head first, the tail only if the head is pending |
| `JoinTrees.JoinRound` | async/src/common/control.rs:95-114 | a poll of any tree of `Join` is one scan of its unfinished leaves |
| `JoinTrees.JoinIsReadyWithItsLastLeaf` | async/src/common/control.rs:95-114 | any tree of `Join` is ready in the round of its last leaf |
| `JoinTrees.JoinPollsNoLeafAfterReady` | async/src/common/control.rs:103-108 | each leaf is polled in every round up to the one in which it is ready, and in none after |
| `JoinTrees.TryRound` | async/src/common/control.rs:130-158 | a poll of any tree of `TryJoin` is one scan that stops at the first failing leaf |
| `JoinTrees.TryIsFlat` | async/src/common/control.rs:130-158 | any tree of `TryJoin` ends when and as the flat list of its leaves does |
| `JoinTrees.TryGivesTheFirstError` | async/src/common/control.rs:130-158 | the error is that of the leaf that fails first, the leftmost in its round; if none fails, it is `Ok` in the round of the last leaf |
| `JoinTrees.TryPollsNoLeafAfterReady` | async/src/common/control.rs:130-158 | no leaf is polled after the round in which it was ready |
| `JoinAllTrees.AllAnswersAreKept` | async/src/common/control.rs:185-210 | any tree of `JoinAll` is ready with its last leaf, and holds for each leaf the answer it gave when first ready |
| `JoinAllTrees.AllPollsNoLeafAfterReady` | async/src/common/control.rs:191-200 | no leaf is polled after the round in which it was ready |
| `SelectTrees.SelectGivesTheFirst` | async/src/common/control.rs:274-287 | any tree of `Select` is ready in the first round in which a leaf is, with the leftmost of them, wrapped along its path |
| `SelectTrees.SomebodyWins` | async/src/common/control.rs:274-287 | there is always exactly one such leaf |
| `TreeMacros.BuildJoinTree` | macros/src/nano.rs:176-191 | the builder empties its list and nests all expressions, in order |
| `TreeMacros.JoinMacro` | macros/src/nano.rs:157-191 | `join!` is ready with the last of its expressions |
| `TreeMacros.TryJoinMacro` | macros/src/nano.rs:157-191 | `try_join!` gives the first error in time, then in the order written, else `Ok` with the last |
| `TreeMacros.JoinAllPattern` | macros/src/nano.rs:232-245 | the loop builds the nested pattern of all identifiers |
| `TreeMacros.PatternBinds` | macros/src/nano.rs:206-248 | matching binds identifier k to the value of leaf k, for every k and nothing else |
| `TreeMacros.JoinAllMacro` | macros/src/nano.rs:215-268 | `join_all!` is ready with its last expression and returns what each answered, in the order written |
| `TreeMacros.SelectArms` | macros/src/nano.rs:314-336 | the loops build one arm per branch |
| `TreeMacros.ArmMatchesItsLeaf` | macros/src/nano.rs:314-336 | arm i matches the value of leaf k exactly if i = k, and binds it: the arms are disjoint and leave nothing out |
| `TreeMacros.SelectMacro` | macros/src/nano.rs:298-354 | when `select!` is ready, exactly the arm of the branch that was ready first, and first in the order written, fires with its value |

## Left out

- Wakes in the static executor: a waker stores ready and pushes from whatever core it runs on, which breaks the single-owner assumption of the queue (`async/src/no_alloc/waker.rs:57-72`).
- Memory orderings weaker than sequential consistency, pinning, lifetimes, raw future storage.
- Round-robin fairness of the static and dynamic executors: both requeue at the end they pop from, so it does not hold (`StaticCore.Core.ANewestPendingEntryTakesEveryTurn`, `DynamicExecutor.APendingBackNodeTakesAllPasses`).
- Mutex steps finer than those listed: the compare-exchange and the unlink of a poll that takes the mutex are one step, and so are a pop and its wake.
- StaticExecutor: a task that calls `add` on its own executor from inside its poll.
- `Worker::spare_capacity`, `is_empty`, `clear`, `Drain::size_hint` and the drop of a drain: one-liners over what is modelled.
- LifoQueue.Queue.Extend: the iterator is a sequence; entries that do not fit are counted as dropped (the machine's `lost`).
- LifoMachine slots are addressed by the unbounded position mod N; `Words.MaskedSlot` and the class `LifoQueue.Queue` connect this to the mask.
- StaticCore.Core.Turn: one core at a time; interleavings are those of `StaticExecutor`.
- DynamicExecutor.Executor.RunStep: the siblings stand still during the call, and a steal takes as much as it may; interleavings and smaller steals are those of `DynamicMachine`.
- DynamicRuns.RequeueNeverFails: a future that spawns on its own executor from inside its poll is not modelled; the exact condition is `DynamicMachine.PushBackKeepsExactly`.
- Progress against interference: that a call ends although others keep swapping is not stated; `LifoProgress.ACallLeftAloneEnds` is about a core that runs alone.
- The inside of `st3`: a steal moves a prefix in order in one step. The crate is not part of this model.
- `run` and `run_forever` as endless loops: `StaticCore.Core.Turn`, `DynamicExecutor.Executor.RunStep` and `NanoExecutor.Executor.RunStep` are their bodies.
- Trees are values built from the in-place combinator classes' step functions, so that nested fields are not updated in place.
- `select!` with one branch: the builder has no case for it (`macros/src/nano.rs:341-354`); token parsing; `join!` and `join_all!` of nothing; `join_all!` of one expression.
- Channels, `Oneshot`, `Signal`, `UnsafeSignal`, `Yield`, `Skip`, `Pacer`, timers, unit conversions: thin or external.
- TSC, UEFI input, allocator, pool macros, demos and runner: hardware, I/O or foreign code.
