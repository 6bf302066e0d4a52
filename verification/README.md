# Verified model of the Pth thread runtime

Pth runs many cooperative threads on several OS threads. Each OS thread hosts a *scheduler* with its own
queues. A thread stays with its home scheduler. Schedulers talk to each other through a lock-free inbox and
a pipe that serves as a doorbell. This project models the parts of the runtime where correctness depends on
how those pieces interact, and proves what they promise over every input, every run or every reachable state.

`dafny verify dfyconfig.toml` checks everything. The model is of the C sources by path and line; nothing in
it executes them.

## How the model is built

- An operation that updates a structure in place is a `class` method. Its `ensures` ties the new state to a
  function of the old one. The lemmas are about those functions.
- A protocol is a transition system: `Enabled` and `Apply` give the steps, `IsRun` the runs, `Inv` what every
  step keeps. One step is one critical section under a spinlock, one atomic access, one inbox push, one pipe
  write, one drained message or one resumption. Any number of threads and schedulers take part.
- Each protocol shares its critical sections with the class that implements them: `MutexSections.Enter` is
  what `Mutex.TryAcquire` computes and what the protocol's `Acquire` step does.
- The priority queue, the wait queue, the inbox chain, the mutex's queue and the scheduler's five queues are
  linked structures over the control blocks' own links.

| file | what it models |
|---|---|
| `PriorityOrder.dfy`, `PriorityQueue.dfy` | the delta-encoded ring, and the stable sorted sequence it stands for |
| `WaitQueue.dfy`, `SharedWaiter.dfy` | the intrusive wait queue with one link per thread, and a thread parked on two of them |
| `Wakeup.dfy`, `Directed.dfy` | directed wakeups from the dequeue to the resumption, and whom they reach |
| `Mutex.dfy`, `MutexRuns.dfy`, `RwLock.dfy`, `Barrier.dfy` | the locks, the condition variable and the barrier, over every run |
| `Scheduler.dfy`, `LinkedScheduler.dfy`, `SchedulerResults.dfy` | the operations on the five queues, the five rings that share the threads' links, and what callers can rely on |
| `Partition.dfy`, `BoundedWaiting.dfy` | where each thread is, and how long it waits |
| `Inbox.dfy`, `Doorbell.dfy` | the inbox, the signal pipe and the decision to sleep |
| `RemoteJoin.dfy`, `ReapSafety.dfy` | joining across schedulers, alone and together with the queues |
| `Once.dfy` | one-time initialization |
| `EventPort.dfy`, `SelectEvent.dfy` | the epoll registration cache against the kernel and against poll(2), and SELECT events on both |
| `VectorWrite.dfy` | the partial-write loop and its cursor |

## Promises the code does not keep everywhere

Each is stated as the exact condition under which the code keeps it, with an input outside that condition.

- **Stranded waiters.** A waiter that was already dequeued and leaves with EINTR, or is cancelled, takes its
  wakeup with it. `MutexStranding.NeverStrandsExactlyWhen`: no run of a mutex strands its queue exactly if the
  mutex is fair or waits have no extra events and are not cancelled. `RwLockProtocol.NeverStrandsExactlyWhen`
  says the same of the read-write lock, which has no fair mode. Each has a run by timeout and one by
  cancellation.
- **Order of a fair mutex.** A waiter resumed without the lock parks again at the end of the queue, and fair
  mode may be switched on while the queue is already out of order. `InOrderExactlyWhen`: hand-offs follow the
  order of arrival in every run exactly if every wait is ended by its wakeup and fair mode is switched on only
  while nobody waits; `LateComerOvertakes` and `LateSwitchOvertakes` are runs in which they do not.
- **Fair mode switched on too early.** `FairExactlyWhen`: a fair mutex never passes a waiter over, in any run,
  exactly if fair mode is switched on only while every waiter is queued or owns the lock and an open lock has no
  queue. `SwitchKeepsPromiseExactlyWhen` says of one switch that the next step keeps the promise exactly if the
  lock is held or nobody waits. `SwitchThenBarge` is a run in which it does not.
- **Stray release of a read lock.** The code lets a thread that holds no read lock release one.
  `WritersExcludeReaders`: a writer shares the lock with exactly as many readers as there were such releases;
  `StrayReleaseLetsAWriterIn` is a run with one.
- **Cancelled condition wait.** The handler queues for the mutex before it leaves the condition's queue, and a
  thread has a single link. `Play`: over every sequence of appends and shifts while the thread is on both, a queue
  is intact exactly if the last one to come directly behind the thread, in either queue, came in this one. So both
  are intact exactly while the thread is the last of both, and the condition's queue, with the thread its last,
  exactly while no one stands behind the thread for the mutex. Whoever waited for the condition behind the thread
  when it parked is cut off for good. Once the mutex was handed to the thread, `CallFromSecond`: the condition's
  queue is intact exactly if the thread is its last. The two inputs are `SomeoneWaitsBehind` and
  `SomeoneQueuesBehind`; after the second, `NotifyMovesThem` queues a thread that waits for the mutex on the
  condition.
- **Late read of the wait event.** A releaser reads the waiter's event after unlocking, so a waiter that has
  timed out and parked elsewhere can be woken for the wrong wait. `ParkIsSafeExactlyWhen`: beginning a wait is
  safe, whatever the other threads do, exactly if no waker owes the thread a wakeup and none of that kind is in
  its inbox. `StaleWakeupEndsAJoin` reaches an unsafe join from the start.
- **Bounded waiting.** `BoundedExactlyWhen`: there is a bound on the dispatches a ready thread waits for, given its
  effective priority and the length of the ready queue, exactly if new threads are not favoured, which is the
  default, and nobody yields to a given thread. `FavouringStarves` and `YieldingStarves` are runs from a new
  scheduler with either; `WaitingIsBounded` is the bound without both.
- **Reopened descriptor.** A descriptor that was closed and reopened stays unwatched in every later pass that
  is not forced and wants the same mask, not only in the next one: `ReopenedStaysMissed`. The condition that
  works is "not closed since the last forced commit", and `CommitIsExact` is the if and only if.
- **Count of a vectored write.** An extra event that ends a later wait makes the call return -1 although bytes
  were written. `CountIsRightExactlyWhen`: the count is right for every behaviour of the kernel exactly if
  there is no extra event or at most one byte.
- **Scratch vector of a vectored write.** The code compares a number of entries with a size in bytes.
  `ScratchSufficesExactlyWhen`: its scratch vector has room exactly for up to 32 entries, and for more than 32
  times the size of an entry.
- **Failed SELECT event.** `SelectFindsExactly`: with nothing ready, the event fails exactly if a descriptor below
  its limit is closed that any event of the pass asks for; `FailsForAnother` is one it did not ask for itself.

## Model

| member | source | states |
|---|---|---|
| PriorityOrder.InsertIsStable | pth_pqueue.c:52-94 | insertion keeps the order non-increasing, puts the thread behind every entry of at least its priority and before every smaller one, and moves nobody else |
| PriorityOrder.StableInsertIsUnique | pth_pqueue.c:52-94 | any stable sorted insertion gives the same sequence |
| PriorityOrder.WithoutKeepsOrder | pth_pqueue.c:128-162 | deletion keeps the order |
| PriorityOrder.InsertThenWithout | pth_pqueue.c:52-162 | deleting a thread just inserted gives back the queue |
| PriorityOrder.FavoriteIsFirst | pth_pqueue.c:166-184 | the favoured thread comes first, the others keep their order, and the queue stays sorted |
| PriorityOrder.FavoredStaysFirst | pth_pqueue.c:166-168 | nobody who comes later at a regular priority gets before a thread favoured into an empty queue |
| PriorityOrder.RaiseKeepsOrder | pth_pqueue.c:187-196 | raising everyone by one keeps the order |
| PriorityQueue.RingSorted | pth_pqueue.c:52-94 | stored differences that are never negative make the absolute priorities non-increasing |
| PriorityQueue.PQueue.constructor | pth_pqueue.c:42-49 | an empty ring stands for the empty sequence |
| PriorityQueue.PQueue.Insert | pth_pqueue.c:52-94 | the ring stands for the stable sorted insertion, links, differences and count included |
| PriorityQueue.PQueue.DelMax | pth_pqueue.c:97-125 | returns the first thread, or none on an empty queue, and leaves the rest |
| PriorityQueue.PQueue.Delete | pth_pqueue.c:128-162 | removes exactly the given thread |
| PriorityQueue.PQueue.Favorite | pth_pqueue.c:171-184 | fails on an empty queue, and otherwise makes the thread the first |
| PriorityQueue.PQueue.FavoritePrio | pth_pqueue.c:166-168 | one more than the first priority, or the maximum on an empty queue |
| PriorityQueue.PQueue.Increase | pth_pqueue.c:187-196 | one addition to the head raises every absolute priority by one |
| PriorityQueue.PQueue.Tail | pth_pqueue.c:211-218 | the last thread of the order, if any |
| PriorityQueue.PQueue.Walk | pth_pqueue.c:221-238 | the neighbour in the order, and none past either end |
| PriorityQueue.PQueue.Contains | pth_pqueue.c:241-255 | decides membership |
| WaitQueue.Queue.Append | pth_sync.c:49-58 | adds the thread at the end |
| WaitQueue.Queue.Shift | pth_sync.c:60-72 | takes the first thread, or none |
| WaitQueue.Queue.Delete | pth_sync.c:74-92 | removes the thread wherever it is, and tells whether it was there |
| WaitQueue.Queue.Link | pth_sync.c:49-58 | what an append does to head, tail and links, of a queue in order or not |
| WaitQueue.Queue.Unlink | pth_sync.c:60-72 | the same of a shift |
| SharedWaiter.SharedIsLast | pth_sync.c:49-92 | two queues in order that share exactly one thread both end in it |
| SharedWaiter.Park | pth_sync.c:522-529 | a thread on the condition's queue queues for the mutex: the condition's queue stays intact for the moment if and only if the thread was its last |
| SharedWaiter.SharedIntactExactlyWhen | pth_sync.c:522-538 | while a thread is on both, both queues are intact if and only if it is the last of both, and the first, with the thread its last, if and only if no one is behind the thread in the second |
| SharedWaiter.Play | pth_sync.c:522-538 | the same after every sequence of appends and shifts on the two queues; each queue is intact if and only if the last one to come directly behind the thread came in it, and someone cut off at the start stays so |
| SharedWaiter.CallFromSecond | pth_sync.c:260-306 | the mutex is handed to the thread: the second queue is as intact as before, the first if and only if the thread is its last |
| SharedWaiter.AppendLater | pth_sync.c:49-58 | from then on an append changes nothing about whether the first queue is intact |
| SharedWaiter.ShiftLater | pth_sync.c:60-72 | nor does a shift |
| SharedWaiter.CallFromFirst | pth_sync.c:604-611 | a notification calls the thread while someone is behind it for the mutex: that one becomes the head of the condition's queue and the mutex's queue is cut |
| SharedWaiter.SomeoneWaitsBehind | pth_sync.c:522-538 | first input: with a second waiter on the condition its queue is broken as soon as the handler parks |
| SharedWaiter.SomeoneQueuesBehind | pth_sync.c:522-538 | second input: the last waiter's handler parks, another thread queues for the mutex, and the condition's queue is broken |
| SharedWaiter.NotifyMovesThem | pth_sync.c:590-612 | the next notification puts that thread on the condition's queue and cuts the mutex's |
| Wakeup.StepKeepsInv | pth_sync.c:209-223 | every step keeps: a sleeping waiter that is no longer queued has its wakeup owed, in its inbox or delivered |
| Wakeup.RunLosesNoWakeup | pth_sched.c:295-392 | the same at every point of every run |
| Wakeup.ResetErasesNoWakeup | pth_event.c:395-441 | the reset to pending at the start of a wait finds nothing to erase |
| Wakeup.QuietWorldHasWoken | pth_sched.c:368-392 | when nothing is owed or in an inbox, every dequeued waiter has been woken |
| Wakeup.ProcessorIsHeldExactly | pth_event.c:395-441 | a thread has the processor from its dispatch until it blocks, yields or ends |
| DirectedWakeup.StepKeepsAddressed | pth_sync.c:260-307 | for any set of kinds of waits: if such waits are begun with nothing left over that could end them and are ended by their wakeup, every wakeup under way that could mark such a wait is meant for it |
| DirectedWakeup.PathsKeepThread | pth_sync.c:260-307 | the same for one thread along every path from any state, if that thread's own waits are begun and ended so, whatever the others do |
| DirectedWakeup.DirectedIsCareful | pth_event.c:395-441 | if every wait is ended by its wakeup, waits are begun with nothing left over, and whoever leaves one has nothing on its way |
| DirectedWakeup.DirectedWaitsLeaveNothingBehind | pth_event.c:395-441 | the same at every point of every such run |
| DirectedWakeup.WakeupsReachTheirWait | pth_sched.c:368-392 | a wait of a kind that its thread uses with care is marked, and ended, only after its thread was taken off the queue of the very primitive it waits on |
| DirectedWakeup.LeftoverMisleads | pth_sync.c:300-306 | from any state, whatever could mark the event of a wait that begins now goes on to do so while its thread is still queued |
| DirectedWakeup.ParkIsSafeExactlyWhen | pth_sync.c:209-217 | no continuation marks the event of a wait that begins now before its thread is dequeued, if and only if no waker owes the thread a wakeup and none of that kind is in its inbox |
| DirectedWakeup.LeaveIsSafeExactlyWhen | pth_sync.c:237-243 | after a wait is left, woken or timed out, every later wait is safe to begin if and only if nothing is on its way to the thread |
| DirectedWakeup.StaleWakeupEndsAJoin | pth_sync.c:300-306 | from the start, a thread times out of a mutex wait while its waker has still to post, and a join it begins then is marked as finished while it is queued |
| MutexSections.Mutex.constructor | pth_sync.c:98-108 | a new mutex is open, barging and without waiters |
| MutexSections.Mutex.SetFair | pth_sync.c:115-130 | changes the mode of an initialized mutex and nothing else, and refuses one that is not initialized |
| MutexSections.Mutex.TryAcquire | pth_sync.c:178-217 | takes a free mutex, counts a recursive acquisition, refuses a try, or parks |
| MutexSections.Mutex.AfterWait | pth_sync.c:223-257 | what a woken waiter does: take over, time out, or try again |
| MutexSections.Mutex.Unlock | pth_sync.c:260-307 | refuses a stranger, counts down, hands over to the first waiter or opens and wakes it |
| MutexSections.Mutex.WaitCleanup | pth_sync.c:135-163 | a cancelled waiter leaves the queue, or passes on the lock it was handed |
| MutexProtocol.StepKeepsGood | pth_sync.c:135-307 | every step keeps exclusion and, without interrupts, the guarantee against stranding, whenever the mode is changed |
| MutexProtocol.RunsAreGood | pth_sync.c:135-307 | the same at every point of every run |
| MutexProtocol.MutualExclusion | pth_sync.c:165-258 | at most one thread has taken the mutex, it is the recorded owner, and the node is in exactly its ring |
| MutexProtocol.CountIsTheDepth | pth_sync.c:191-199 | in every run the count is the number of acquisitions the holder was granted and has not released, and whoever has such acquisitions is the holder |
| MutexProtocol.OpensAtTheMatchingRelease | pth_sync.c:260-307 | the mutex opens or is handed on at the release that matches the first acquisition; an earlier one keeps it and wakes nobody, and a stranger's is refused and changes nothing |
| MutexProtocol.AcquireAnswers | pth_sync.c:178-217 | a call is granted at once if and only if the mutex is open or the caller's own; else a try answers EBUSY and changes nothing, and another call queues the caller last |
| MutexProtocol.ResumeAnswers | pth_sync.c:223-257 | a resumed waiter gets the mutex if and only if it was handed it, or it is open and the wait was not timed out; it parks again, last, if another thread holds it, and answers EINTR otherwise |
| MutexProtocol.ReleaseWakesWhomItDequeues | pth_sync.c:276-306 | whoever a release takes off the queue is exactly whom its caller goes on to wake |
| MutexProtocol.CancellationWakesWhomItDequeues | pth_sync.c:135-163 | the same of the cleanup handler |
| MutexProtocol.StepKeepsHandsOff | pth_sync.c:110-307 | every step, a switch to fair mode made with care included, keeps: while the mutex is fair or being handed over, whoever waits is queued or owns the lock, and an open lock has no queue |
| MutexProtocol.FairOwnerPasses | pth_sync.c:178-307 | fair mode, switched on with care: a newcomer takes the mutex only when nobody waits, and otherwise it goes to the head of the queue |
| MutexProtocol.FairAndOpenIsIdle | pth_sync.c:275-306 | an open fair mutex has no queue and nobody waiting, if fair mode is switched on with care |
| MutexProtocol.SwitchKeepsPromiseExactlyWhen | pth_sync.c:115-130 | after fair mode is switched on, no next step gives the lock away past a waiter if and only if the lock was held or nobody waited |
| MutexProtocol.CancelledOwnerPassesOn | pth_sync.c:135-163 | a mutex handed to a thread that is cancelled goes to the next waiter, who is on the way, or opens, whatever the mode is by then |
| MutexProtocol.OwnerIsComing | pth_sync.c:209-223 | an owner that has not taken the mutex yet is ready to run or has its wakeup on the way |
| MutexProtocol.NoRunStrandsTheQueue | pth_sync.c:178-306 | without interrupts, an open mutex with a queue has a dequeued waiter on the way |
| MutexStranding.TimeoutStrands | pth_sync.c:237-243 | a run from the start that ends with an open mutex, a queue, and nobody else on the way, after the woken waiter left with EINTR |
| MutexStranding.CancellationStrands | pth_sync.c:135-163 | such a run by cancellation of the woken waiter |
| MutexStranding.NeverStrandsExactlyWhen | pth_sync.c:135-307 | no run strands the queue if and only if the mutex is fair or there are no extra events and cancellations |
| MutexOrder.ResumeKeepsOrderExactlyWhen | pth_sync.c:223-257 | fair mode: a resumed waiter keeps the queue in order of first arrival if and only if it was dequeued, is interrupted, or was last |
| MutexOrder.FairHandOffsInOrder | pth_sync.c:275-306 | if every wait is ended by its wakeup and fair mode is switched on only while nobody waits, hand-offs follow the order in which the calls of pth_mutex_acquire first parked |
| MutexOrder.LateComerOvertakes | pth_sync.c:213-257 | a run in which a waiter resumed for nothing is overtaken |
| MutexOrder.SwitchThenBarge | pth_sync.c:115-130 | a run in which fair mode is switched on while a dequeued waiter is on its way, and the lock then taken past it |
| MutexOrder.FairExactlyWhen | pth_sync.c:110-307 | a fair mutex never passes a waiter over in any run if and only if fair mode is switched on with care |
| MutexOrder.LateSwitchOvertakes | pth_sync.c:115-257 | a run with every wait ended by its wakeup in which fair mode is switched on too late and hand-offs are out of order |
| MutexOrder.InOrderExactlyWhen | pth_sync.c:110-307 | hand-offs are in order of arrival in every run if and only if every wait is ended by its wakeup and fair mode is switched on only while nobody waits |
| RwLockSections.RwLock.constructor | pth_sync.c:340-353 | a new lock is free, with both queues empty |
| RwLockSections.RwLock.TryOnce | pth_sync.c:382-406 | readers enter only without a writer inside or parked, a writer only alone |
| RwLockSections.RwLock.Acquire | pth_sync.c:368-424 | a refused caller is parked on its queue, and a writer counted |
| RwLockSections.RwLock.AfterWait | pth_sync.c:430-446 | a woken waiter leaves its queue and tries again, or times out |
| RwLockSections.RwLock.Unlock | pth_sync.c:449-505 | refuses a stranger, and the last one out wakes the first writer, or else every parked reader, the latest first |
| RwLockSections.ReleaseWakesWhomItDequeues | pth_sync.c:482-502 | the threads parked before a release are those parked after it and those it wakes, each once |
| RwLockSections.ReleaseWakesExactly | pth_sync.c:482-502 | a release that frees the lock wakes the first writer, or with no writer parked every reader, the latest first; any other wakes nobody |
| RwLockSections.RwLock.WaitCleanup | pth_sync.c:356-366 | a cancelled waiter leaves its queue and the writer count |
| RwLockProtocol.StepKeepsGood | pth_sync.c:356-505 | every step keeps exclusion, the two counts and, without interrupts, the guarantee against stranding |
| RwLockProtocol.RunsAreGood | pth_sync.c:356-505 | the same at every point of every run |
| RwLockProtocol.ReleasePostsTheWoken | pth_sync.c:482-502 | in the protocol, the threads a release has still to wake are exactly those it returned |
| RwLockProtocol.AcquireAnswers | pth_sync.c:380-424 | granted at once if and only if a writer finds the lock free, or a reader no writer inside or parked; else a try answers EBUSY and changes nothing, and another call queues the caller last |
| RwLockProtocol.ResumeAnswers | pth_sync.c:430-446 | a resumed waiter is off its queue, is granted the lock by the same rule unless it timed out, and parks again otherwise |
| RwLockProtocol.ReleaseAnswers | pth_sync.c:458-480 | refused if and only if another thread has the lock for writing, or nobody has it; else it takes back one hold |
| RwLockProtocol.WritersExcludeReaders | pth_sync.c:368-505 | both counters are exact up to stray releases; a writer shares the lock with as many readers as there were strays, so with none if and only if there were none |
| RwLockProtocol.StrayReleaseLetsAWriterIn | pth_sync.c:470-481 | a run in which a thread that holds nothing releases and a writer joins a reader |
| RwLockProtocol.ReadersYieldToParkedWriters | pth_sync.c:391-399 | a read lock is granted only while no writer is inside or parked |
| RwLockProtocol.NoRunStrandsTheQueues | pth_sync.c:449-505 | without interrupts, a free lock with anybody queued has a woken writer on the way |
| RwLockProtocol.TimeoutStrands | pth_sync.c:438-444 | a run from the start that ends with a free lock and a queued writer, after the woken writer left with EINTR |
| RwLockProtocol.CancellationStrands | pth_sync.c:356-366 | such a run by cancellation of the woken writer |
| RwLockProtocol.NeverStrandsExactlyWhen | pth_sync.c:356-505 | no run strands the queues if and only if there are no extra events and cancellations |
| Condition.Cond.Park | pth_sync.c:559-563 | the waiter is last in the queue |
| Condition.Cond.Unpark | pth_sync.c:578-583 | a returning waiter is no longer queued |
| Condition.Cond.Notify | pth_sync.c:590-633 | a signal takes the first waiter, a broadcast all of them in order |
| BarrierSections.Barrier.Arrive | pth_sync.c:654-689 | counts down, and the last arrival restores the count and flips the cycle bit |
| BarrierProtocol.StepKeepsInv | pth_sync.c:540-689 | every step keeps the counts, the phases, the queue and who was told it is last |
| BarrierProtocol.RunsKeepInv | pth_sync.c:540-689 | the same at every point of every run |
| BarrierProtocol.NobodyLeavesEarly | pth_sync.c:654-689 | nobody leaves a round before all have arrived in it |
| BarrierProtocol.WithinOneRound | pth_sync.c:654-689 | two participants are never more than one round apart |
| BarrierProtocol.CycleBitIsThePhase | pth_sync.c:672-687 | the one-bit comparison in the wait loop tells whether the caller's own round is complete |
| BarrierProtocol.BroadcastEmptiesTheQueue | pth_sync.c:590-633 | after the broadcast the queue is empty while the mutex is still held, and later sleepers are of the new round |
| BarrierProtocol.ExactlyOneTailLight | pth_sync.c:654-689 | in every completed round exactly one caller returns TAILLIGHT |
| SchedulerOps.OpConserves | pth_sched.c:393-752 | every operation keeps each thread in one place that agrees with its state; whoever was held is still held or was freed once |
| SchedulerOps.ResumeFindsAQueue | pth_lib.c:715-733 | a suspended thread is NEW, READY or WAITING, so a resume finds its queue |
| SchedulerOps.FavouredNewComeFirst | pth_sched.c:516-524 | with favouring, the ready order becomes the new queue's order followed by the old ready order |
| SchedulerOps.PlainNewComeReversed | pth_sched.c:516-524 | without it, new threads enter in reverse behind everything of standard priority or more |
| SchedulerResults.PromotionIsExact | pth_sched.c:2083-2110 | a promotion makes ready exactly the waiting threads whose event occurred or that are to be cancelled |
| SchedulerResults.CancelIsRecorded | pth_cancel.c:57-87 | accepted if and only if the thread lives and, if it is cancelled at once, is not suspended; the request is recorded of every living thread, and no other block is touched |
| SchedulerResults.AsynchronousCancelEnds | pth_cancel.c:73-112 | carried out at once, a cancellation leaves the thread dead in the dead queue if it can be joined, and freed otherwise |
| SchedulerResults.CancelledWaiterIsWoken | pth_sched.c:2087-2107 | a thread that waits after an accepted cancellation, at once or after any further operations, is ready after the next promotion, whatever has occurred |
| SchedulerResults.AbortEnds | pth_cancel.c:150-167 | an abort frees every thread that is not suspended, and detaches and flags one that is |
| SchedulerResults.SuspendAnswers | pth_lib.c:668-693 | granted if and only if the thread is new, ready or waiting in its queue; else nothing changes |
| SchedulerResults.ResumeAnswers | pth_lib.c:715-733 | granted if and only if the thread is suspended, and then it is in the queue of its state |
| SchedulerResults.SuspendThenResume | pth_lib.c:668-733 | a suspension followed by a resume leaves everything as it was but the thread's place in its queue, now that of the standard priority |
| SchedulerResults.AdoptOrders | pth_lib.c:333-376 | a new thread takes its place among the new ones by its priority |
| SchedulerResults.SettleOrders | pth_sched.c:713-752 | the ready ones age first; a thread that goes on comes in behind those of at least its priority, one that waits takes its place among the waiting ones |
| SchedulerResults.ResumeOrders | pth_lib.c:715-733 | a resumed thread comes in at the standard priority |
| SchedulerResults.FavorPutsFirst | pth_lib.c:751-765 | a favoured new or ready thread is first in its queue, the others keep their order, and nothing else changes |
| SchedulerResults.WokenGoesFirst | pth_sched.c:2095-2107 | a thread whose event occurs goes before the one that ran last, unless it is of lower priority |
| SchedulerResults.WokenKeepTheirOrder | pth_sched.c:2083-2110 | of two waiting threads that are due, the one in front becomes ready in front, unless it is of lower priority |
| LinkedScheduler.Rings.Take | pth_pqueue.c:128-162 | taking a block off its ring leaves the other four rings, which share no block with it, as they were, and the block in none |
| LinkedScheduler.Rings.Put | pth_pqueue.c:52-94 | a block in no ring is inserted into one, and the rings stay apart |
| LinkedScheduler.Scheduler.Adopt | pth_lib.c:333-376 | a new thread enters the new queue at its priority |
| LinkedScheduler.Scheduler.MoveNewThreads | pth_sched.c:516-524 | the tail-first loop over the rings empties the new queue as specified |
| LinkedScheduler.Scheduler.DispatchOne | pth_sched.c:534-535 | the first ready thread becomes current |
| LinkedScheduler.Scheduler.SettleCurrent | pth_sched.c:687-752 | a dead thread is freed or kept, a waiting one is queued, the others age by one, and a ready one goes back |
| LinkedScheduler.Scheduler.PromoteOccurred | pth_sched.c:2085-2110 | the walk, which steps on before it moves a thread, makes every due thread ready in the order of the waiting queue |
| LinkedScheduler.Scheduler.Has | pth_lib.c:437-446 | finds a thread if and only if one of the five queue counts is positive; in a sound scheduler, if and only if it is held and not running |
| LinkedScheduler.Scheduler.SuspendLocal | pth_lib.c:668-693 | moves a live thread to the suspended queue, or refuses |
| LinkedScheduler.Scheduler.ResumeLocal | pth_lib.c:715-733 | moves a suspended thread back to the queue of its state, or refuses |
| LinkedScheduler.Scheduler.FavorLocal | pth_lib.c:751-765 | puts a thread of the new or ready queue first there, and leaves everything alone otherwise |
| LinkedScheduler.Scheduler.CancelLocal | pth_cancel.c:57-115 | flags a live thread, and with asynchronous cancellation takes it off its queue to keep it dead if joinable or free it; refuses unknown, dead and unqueued threads |
| LinkedScheduler.Scheduler.AbortLocal | pth_cancel.c:150-167 | frees a dead joinable thread, detaches and asynchronously cancels a live one, and ignores an unknown one |
| LinkedScheduler.Scheduler.Reap | pth_sched.c:412-419 | takes a thread off the dead queue and frees it |
| LinkedScheduler.RunOneOfTwo | pth_sched.c:511-535 | a client of the methods: two threads are spawned, one is dispatched and the other suspended, as the specification says |
| ThreadPartition.StepKeepsInv | pth_sched.c:393-443 | every local step, message sent and message delivered keeps every scheduler in order |
| ThreadPartition.RunsKeepInv | pth_sched.c:393-443 | the same at every point of every run of any number of schedulers |
| ThreadPartition.EveryThreadHasOnePlace | pth_sched.c:511-752 | an unfreed thread is in exactly one place of one scheduler, its spawn message included; births equal places plus frees |
| ThreadPartition.QueueAgreesWithState | pth_lib.c:668-733 | the queue agrees with the state, and a suspended thread can always be resumed |
| ThreadPartition.ReapFindsItsThread | pth_sched.c:412-419 | a REAP finds its thread in the dead queue, given that it was sent for one that is there |
| ThreadPartition.DeliveryIsTheOperation | pth_sched.c:385-445 | a delivered request does exactly what the local call does, is the oldest of its inbox, and no other scheduler notices |
| BoundedWaiting.OpDelays | pth_sched.c:516-752 | every operation keeps the ranking of a ready thread from growing, and each dispatch of another thread lowers it |
| BoundedWaiting.DispatchesFitTheWait | pth_sched.c:511-752 | a run in which the thread stays ready has fewer dispatches than its ranking |
| BoundedWaiting.WaitingIsBounded | pth_sched.c:713-752 | a ready thread of effective priority e among n threads is dispatched within max(0, 6-e)+n dispatches, if new threads are not favoured and nobody yields to a given thread |
| BoundedWaiting.FavouringStarves | pth_sched.c:516-524 | with favoured new threads, from a new scheduler a ready thread is passed over in any number of dispatches, the ready queue never longer than two, spawning at unused addresses only |
| BoundedWaiting.YieldingStarves | pth_lib.c:751-765 | with yield-to, from a new scheduler two threads that yield to each other pass a ready one over in any number of dispatches, the ready queue never longer than three |
| BoundedWaiting.BoundedExactlyWhen | pth_sched.c:511-752 | a bound in terms of priority and queue length exists for every run if and only if new threads are not favoured and nobody yields to a given thread |
| InboxDrain.ReverseChain | pth_sched.c:368-384 | the reversed chain holds the same messages, oldest first |
| InboxDrain.Drain | pth_sched.c:368-450 | applies every message taken, oldest first, and tells whether there was any |
| InboxProtocol.RunsKeepInv | pth_sched.c:295-313 | in every run, reused addresses included, applied, taken and stacked messages together are what was pushed |
| InboxProtocol.AppliedInPushOrder | pth_sched.c:295-450 | messages are applied exactly once, in the order of their pushes |
| InboxProtocol.SenderOrderKept | pth_sched.c:368-450 | each sender's messages are applied in the order in which it set out to send them, failed compare-and-swaps included, and all of them once it is idle and the inbox empty |
| SignalPipe.Pipe.Ring | pth_sched.c:310-313 | a write leaves a byte in the pipe, full or not |
| SignalPipe.Pipe.Clear | pth_sched.c:840-845 | reading until nothing is left empties the pipe |
| Doorbell.StepKeepsInv | pth_sched.c:1723-1730 | every step keeps: since the drain, a message in the inbox means a byte, a poster about to write one, or a pass that does not block; likewise for ports since the scan |
| Doorbell.RunsKeepInv | pth_sched.c:1723-1730 | the same at every point of every run |
| Doorbell.DrainsTakeAll | pth_sched.c:1723-1730 | in every run every message posted is taken out once, in order, and both drains of a pass take all there is |
| Doorbell.PollingPassNeverBlocks | pth_sched.c:1879-1940 | a pass entered to poll does not block before it is left, however often it goes round |
| Doorbell.BusyPassNeverBlocks | pth_sched.c:1723-1730 | nor does one that has found messages, or an occurred event |
| Doorbell.IdlePassBlocks | pth_sched.c:1879-1940 | a pass entered to wait that finds nothing blocks |
| Doorbell.ScanFindsTheMessage | pth_sched.c:1723-1880 | a scan ends the wait of a thread whose port holds a message, and of no other |
| Doorbell.SleepIsSafe | pth_sched.c:295-361 | a blocked scheduler with work has a byte in its pipe or a poster about to write one, for inbox messages and for message ports |
| Doorbell.WorkEndsTheSleep | pth_msg.c:134-159 | once the posters are done, pending work ends the sleep |
| JoinSections.JoinPoint.Enter | pth_lib.c:586-592 | a joiner parks exactly if the death is not published |
| JoinSections.JoinPoint.Publish | pth_sched.c:700-705 | publishes the death and dequeues every joiner in order |
| JoinSections.JoinPoint.Leave | pth_lib.c:596-601 | the joiner leaves the queue, if still there, and reads the result |
| RemoteJoin.StepKeepsInv | pth_lib.c:577-605 | every step keeps life, publication, queue, result and REAP of every target in agreement |
| RemoteJoin.RunsKeepInv | pth_lib.c:577-605 | the same at every point of every run |
| RemoteJoin.ReturnFindsTheDead | pth_lib.c:593-603 | a joiner that returns from its wait finds the death published |
| RemoteJoin.ReapFindsTheDead | pth_sched.c:412-419 | the REAP finds a dead, unfreed block at its home |
| RemoteJoin.ResultIsFinal | pth_sched.c:687-707 | a published result never changes |
| RemoteJoin.JoinerGetsTheFinalResult | pth_cancel.c:98-112 | the joiner's value is the final one, after a normal death and after a cancellation |
| RemoteJoin.JoinerGetsTheValue | pth_lib.c:536-601 | after a thread died with a value, that is its result and the value of whoever has it |
| RemoteJoin.JoinerGetsWhatItDiedWith | pth_lib.c:536-601 | whoever has a result has the value of the step in which the thread died: what it passed to pth_exit, or PTH_CANCELED if it was cancelled while it did not run |
| RemoteJoin.JoinerIsTheCaller | pth_lib.c:577-605 | from its call on, the caller of pth_join is the one who gets the result and asks for the block to be freed |
| RemoteJoin.FreedOnceAfterTheJoin | pth_sched.c:412-419 | a block is freed at most once, and only after its joiner has read the result |
| ReapSafety.DeathReachesTheDeadQueue | pth_sched.c:687-707 | a joinable thread that exits, or is cancelled asynchronously, is in the dead queue afterwards |
| ReapSafety.PostIsAllowed | pth_lib.c:596-605 | a joiner's REAP is for a thread in the dead queue, is the only one for it and meets no abort |
| ReapSafety.SchedulerStepsAreAllowed | pth_sched.c:393-443 | with joins and queues together, every scheduler step is one that the partition results allow |
| ReapSafety.StepKeepsInv | pth_sched.c:393-443 | every step of the two together keeps both invariants and their agreement on who is dead and which REAPs are under way |
| ReapSafety.ReapAlwaysFindsItsThread | pth_sched.c:412-419 | in every run a REAP about to be applied finds its thread in the dead queue of its home, joined and not freed |
| ReapSafety.DrainFrees | pth_sched.c:412-419 | a drained REAP frees its thread in the scheduler's books and in the joiner's, and no queue holds it any more |
| Readiness.OrderListsEachOnce | pth_sched.c:772-793 | the wanted descriptors are listed once each, and exactly those requested |
| Readiness.PollSet.Add | pth_sched.c:772-793 | the linear-scan set holds each requested descriptor once, in order, with the union of its requests |
| Readiness.VerdictsAgree | pth_sched.c:1118-1135 | an event ends the same way from poll(2) answers and from the readiness cache |
| Readiness.VerdictIsExact | pth_sched.c:1118-1135 | an event occurs if and only if its descriptor is open and in a state it waits for, and fails if and only if it is closed |
| Readiness.AskableKeepsRequests | pth_sched.c:1331-1346 | ignoring negative descriptors loses no request of another one |
| SelectEvents.RequestsAreExact | pth_sched.c:895-908 | a SELECT event asks the kernel for exactly what its sets hold below the limit |
| SelectEvents.Ask | pth_sched.c:895-908 | the loop over the sets adds exactly those requests |
| SelectEvents.Gather | pth_sched.c:1137-1153 | the answers are sorted back into three sets, and a closed descriptor is noted |
| SelectEvents.Test | pth_util.c:148-167 | tells whether anything asked for was found |
| SelectEvents.Select | pth_util.c:174-204 | clears what was not found, leaves everything above the limit, and counts what is left per set |
| SelectEvents.Finish | pth_sched.c:1137-1173 | the sets and the count if anything was found, a failure only if nothing was, and otherwise still pending |
| SelectEvents.SelectsAgree | pth_sched.c:2022-2058 | the event ends the same way on both backends, sets and count included, wherever single descriptors do |
| SelectEvents.SelectFindsExactly | pth_sched.c:1137-1173 | what is found is exactly what is open and in the condition asked for, whatever else the pass asks; it fails if and only if that is nothing and a requested descriptor below the limit is closed |
| SelectEvents.SelectReturnsExactly | pth_util.c:174-204 | the caller gets back what is in the condition asked for, everything above the limit, and how many of the former, a descriptor counted once per set |
| SelectEvents.FailsForAnother | pth_sched.c:1142-1147 | an event that fails for a closed descriptor that only another event asked for |
| EpollCache.CommitIsExact | pth_sched.c:1376-1448 | what a commit does to any descriptor: watched only if wanted and open, with the wanted mask; missed if and only if stale and unchecked; failed if and only if closed and checked |
| EpollCache.ForcedCommitIsComplete | pth_sched.c:1376-1448 | a forced commit watches exactly the wanted open descriptors, drops and fails the wanted closed ones |
| EpollCache.PassesStillMiss | pth_sched.c:1404-1426 | a descriptor the kernel misses stays missed over any number of passes that are not forced and want the same of it |
| EpollCache.ReopenedStaysMissed | pth_sched.c:1404-1448 | watched once, closed and reopened: the descriptor is wanted and open in any number of further passes and watched in none |
| EpollCache.EvPort.constructor | pth_sched.c:1658-1679 | an empty cache agrees with a kernel that watches nothing |
| EpollCache.EvPort.Begin | pth_sched.c:1316-1329 | nothing is wanted or answered in the new pass, across the 32-bit wrap, and registrations stay |
| EpollCache.EvPort.Grow | pth_sched.c:1281-1301 | the cache covers the descriptor and keeps its entries |
| EpollCache.EvPort.Want | pth_sched.c:1331-1346 | wanted masks are the union of the requests, the list names each once, and negative descriptors are refused |
| EpollCache.EvPort.Ctl | pth_sched.c:1376-1426 | one descriptor's registration is brought up to date, through every errno |
| EpollCache.EvPort.CtlAll | pth_sched.c:1428-1435 | exactly the wanted descriptors went through it |
| EpollCache.EvPort.Sweep | pth_sched.c:1436-1447 | the swap-removal loop drops exactly what is unwanted or unregistered |
| EpollCache.EvPort.Commit | pth_sched.c:1428-1448 | list, cache and kernel agree; interest is within the wanted set with the wanted masks, and complete where the commit is forced or the descriptor was not closed since |
| EpollCache.EvPort.Wait | pth_sched.c:1450-1477 | every reported descriptor is answered in this pass, the others keep their answer |
| EpollCache.EvPort.Ready | pth_sched.c:1348-1353 | readiness is read from this pass or not at all |
| EpollCache.EvPort.Pass | pth_sched.c:1723-2020 | with descriptors closed and opened before the commit and before the wait, every descriptor wanted gets the answer poll(2) would have given, unless it was closed since the last forced commit or opened after this one; nothing is answered that was not asked for |
| IoVectors.CountBytes | pth_high.c:1177-1189 | the number of bytes of the vector |
| IoVectors.AdvancedDenotesTheRest | pth_high.c:1192-1227 | an advanced vector denotes the bytes without the first n |
| IoVectors.Cursor.Advance | pth_high.c:1192-1227 | the cursor is advanced by n bytes, editing only the scratch copy |
| VectorWrite.Write | pth_high.c:1035-1152 | for every kernel and every extra event, what is delivered is a prefix of the caller's bytes, as long as the loop says, and the caller's vector is untouched |
| VectorWrite.ScratchSufficesExactlyWhen | pth_high.c:1068-1076 | the scratch vector the code provides has room if and only if there are at most 32 entries, or more than 32 times the size of an entry |
| VectorWrite.WriteWithOwnScratch | pth_high.c:1035-1152 | the same as Write with that scratch vector, whenever it has room |
| VectorWrite.WriteAnswers | pth_high.c:1106-1152 | the outcome is that of the first attempt that is cut off, fails, makes no progress or writes the rest, given by the kernel's replies alone |
| VectorWrite.ErrorIsReportedExactlyWhen | pth_high.c:1147-1148 | -1 is returned if and only if the extra event ended the last wait, or nothing was written and the last attempt failed; a failure after some bytes returns their number |
| VectorWrite.CountIsLostOnlyByAnInterruption | pth_high.c:1106-1152 | the bytes delivered are the first rv bytes if and only if no interruption follows a partial write |
| VectorWrite.CountIsRightExactlyWhen | pth_high.c:1106-1152 | that holds for every kernel if and only if there is no extra event or at most one byte |
| VectorWrite.ProgressWritesAll | pth_high.c:1136-1144 | with progress and no error everything is written, as by a blocking writev(2) |
| Once.StepKeepsInv | pth_lib.c:824-851 | every step keeps: the word is 1 exactly while one caller initializes, and the counts of runs agree with it |
| Once.RunsKeepInv | pth_lib.c:824-851 | the same at every point of every run |
| Once.OneInitializer | pth_lib.c:830-851 | never two initializers at once, at most one completes, and none runs after it |
| Once.DoneIsPermanent | pth_lib.c:830-851 | done stays done, and no constructor run starts any more |
| Once.DoneCallReturns | pth_lib.c:830-851 | once the word is 2, a caller has returned after at most two steps of its own, whatever the others do |
| Once.LoadAfterDoneReturns | pth_lib.c:834-836 | in every run, a load after that returns |
| Once.CompletedRunPublishes | pth_lib.c:838-845 | a constructor run that returns is published by its caller, who returns |
| Once.ReturnFollowsCompletion | pth_lib.c:830-851 | no caller returns before a constructor run has completed |
| Once.CutShortIsRetryable | pth_lib.c:824-828 | a constructor run cut short leaves the word 0, nobody initializing and nothing completed, and any caller that comes then and is not interrupted runs the constructor |
| Once.WaitersAreWaitedFor | pth_lib.c:824-851 | while the word is 1 some caller is still to publish or to reset it |

## Left out

- SharedWaiter.Play: other threads append and shift; one that takes itself off the middle of a queue while another thread is on both is not among the steps, nor is a second thread on both.
- EpollCache.EvPort.Pass: describes level-triggered descriptors that epoll(7) accepts; descriptors epoll refuses with EPERM count as closed, duplicated descriptors that keep a registration alive after a close are not modelled, and a commit sees each descriptor in one state.
- VectorWrite.Write: is given a scratch vector with room for the caller's entries, as `WriteWithOwnScratch` provides it; vectors of more bytes than `ssize_t` holds are not modelled, nor is what happens beyond a scratch vector that is too short.
- VectorWrite.WriteWithOwnScratch: leaves out the numbers of entries for which the code's own scratch vector is too short; `ScratchSufficesExactlyWhen` says which they are.
- InboxDrain.Drain: messages carry a number instead of a kind; what each kind does to the queues is in `Scheduler.dfy` and `Partition.dfy`.
- WaitingIsBounded: assumes priorities -5 to 5 as documented (pth.h.in:146-148), which the attribute setter does not enforce, and no suspension of the thread; `BoundedExactlyWhen` says that favoured new threads and yield-to have to be excluded.
- SleepIsSafe: leaves out a thread resumed from the suspended queue whose event has already occurred.
- JoinerGetsTheFinalResult: assumes one joiner per thread, a target that is not aborted, joins resumed by their directed wakeup only, and a joiner that no waker of an earlier wait still owes a wakeup when it parks. `ParkIsSafeExactlyWhen` shows that the last is needed, and `DirectedWaitsLeaveNothingBehind` that it holds if every wait is ended by its wakeup; other threads' waits may end at any time.
- RemoteJoin.StepKeepsInv: the same assumptions on the steps.
- RemoteJoin.RunsKeepInv: the same assumptions on the steps.
- ThreadPartition.ReapFindsItsThread: takes for granted that a REAP is sent for a thread in the dead queue; `ReapSafety.ReapAlwaysFindsItsThread` proves it with the join protocol.
- FairOwnerPasses: fair mode is switched on with care, which the code does not check; `FairExactlyWhen` says that it has to be.
- FairAndOpenIsIdle: the same.
- LinkedScheduler.Scheduler.AbortLocal: given a scheduler in order, which `ThreadPartition.RunsKeepInv` says it always is, so that a dead thread is found in the dead queue.
- LinkedScheduler.Scheduler.Reap: given that the thread is in the dead queue, as the source takes for granted; `ReapSafety.ReapAlwaysFindsItsThread` proves it.
- NoRunStrandsTheQueue: excludes extra events and cancellation; `MutexStranding.NeverStrandsExactlyWhen` says that it has to.
- NoRunStrandsTheQueues: excludes extra events and cancellation; `RwLockProtocol.NeverStrandsExactlyWhen` says that it has to.
- NobodyLeavesEarly: the participants are exactly `threshold` threads that are not cancelled; the barrier's mutex is represented by its holder.
- LinkedScheduler.Scheduler.SettleCurrent: publishing the death to joiners at the same place is in `RemoteJoin.dfy`.
- LinkedScheduler.Scheduler.CancelLocal: the cleanup handlers it runs, the result it stores and the publication of the death are not in it; the last two are in `RemoteJoin.dfy`.
- The scheduler's classes keep a thread's state and flags in a map from addresses, and a block freed and allocated again is the same node.
- RwLock, Cond and JoinPoint: their wait queues are sequences with the behaviour proved in `WaitQueue.dfy`; the mutex has the linked queue.
- Effects of cleanup handlers and of user code run by the scheduler are not modelled.
- `pth_mutex_releaseall`, and `PTH_BARRIER_HEADLIGHT`.
- The kqueue backend of the event port.
- Event functions, signals and their masks, and real clocks: what they decide is a parameter or an arbitrary choice.
- Allocation failure, weak memory ordering, and the lifetime of static events after a thread's death.
- Context switching, system call interposition, the pthread facade, attributes, debugging, fork and Sfio.
- Local pth_join and join-any, pth_yield to a given thread beyond its queue effect, and the emulated readv and writev.
