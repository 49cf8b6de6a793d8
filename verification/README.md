# A verified model of the cyros kernel

cyros is a real-time kernel for several cores. This project models its blocking and
scheduling core in Dafny 4.11 and proves what that core promises: priority inheritance
computed as a bounded fold, the mutex and its hand-over, the two-phase block and the wakes
that race with it, the lock-free intake that carries wakes between cores, the semaphores
and the condition variable, the per-core scheduler, the owed switch of the ARMv7-M/v8-M
port, the trace ring and the tickless timers.

`dafny verify dfyconfig.toml` checks the whole project.

## How it is built

- **Concurrent protocols** are step machines. A state holds the shared memory and the place
  of every context in its code; `Enabled` and `Step` give one atomic, or one hold of a
  spinlock, at a time; `IsRun` is any sequence of steps from the initial state, with any
  number of contexts. The theorems quantify over every run and every state in it.
- **Structures changed in place** are classes: `Scheduler.CoreScheduler` (ready queues linked
  through the thread control blocks, bitmap, holder list), `WaitQueue.Queue` and
  `TicklessTimers.Timetable`. Each method is proved equal to a function on plain sequences,
  and the theorems are proved of those functions.
- **The urgency fold** is functions over a wait-for graph, with the source's loops as methods
  proved to compute them.

Fields described as history in a state are written by the steps and read by none; they say
what happened, so that a property can speak of it. A pointer is the index of what it points
to, a null pointer is `None`, a bit mask is the set of its set bits.

| File | What it models |
|---|---|
| `Wrappers.dfy` | options, thread indices and priorities |
| `WaitGraph.dfy` | the wait-for graph, the urgency fold, and effective priority defined on its own |
| `BlockedChain.dfy` | the blocked-on chain: urgency prompts and the deadlock query |
| `WaitOrder.dfy`, `WaitQueue.dfy` | the order of a wait queue, and the linked queue itself |
| `MutexProtocol.dfy`, `MutexSteps.dfy`, `MutexSafety.dfy`, `MutexReturns.dfy` | `base_mutex`: its steps, what each keeps, the theorems over runs, and what each call returns with |
| `DonationPrompts.dfy` | whom an arming boosts and whom its prompt reaches, over runs |
| `WakeDelivery.dfy` | the two-phase block against local and remote wakes, and late ownership |
| `Intake.dfy` | one core's intake |
| `Waiters.dfy`, `Semaphore.dfy`, `HandoffSemaphore.dfy`, `ConditionVariable.dfy` | the waitables built on the wait engine |
| `Switching.dfy`, `SwitchingSafety.dfy`, `SwitchingOrder.dfy`, `SwitchingOutcomes.dfy`, `EagerDecisions.dfy` | what a core's scheduler does on values, and its theorems |
| `IntrusiveList.dfy`, `Scheduler.dfy` | the scheduler on linked lists |
| `OwedSwitch.dfy` | owed switches and PendSV |
| `WrappingCounters.dfy`, `TraceRing.dfy` | wrapping counters and the trace ring |
| `GridLoop.dfy`, `TicklessTimers.dfy`, `TimerPromises.dfy` | the loop that advances a recurring deadline; the timer table and the compare interrupt; what it does with what it was asked for |

## Where the code and its comments part

Each item names a lemma that builds a run or a concrete input showing it, and the lemma that
says exactly when it happens.

- **A wake can ready the thread that is running.** `global_ready_thread` looks whether the thread
  runs before it takes the mask, and `make_ready` does not look again. A handler that nests in
  between can wake the same thread and switch to it; the outer wake then files the current
  thread as ready, and nobody is running until the next pick (`SwitchingOrder.ANestedWakeUnseats`),
  though `reschedule` asserts that the current thread is not enqueued. In every run that is the only
  way (`SwitchingSafety.OneRunningIff`). A thread so filed that takes a mutex before it is
  switched away is left in the matrix as a holder, with nothing on its way to file it again
  (`WakeDelivery.AHolderCanBeLeftInTheMatrix`, `WakeDelivery.MisfiledIffStrays`).
- **A late wake costs a preempted thread its turn.** `scheduler.hpp` lines 302-310 keep a preempted
  thread first among its equals. If a late remote wake of it is on the intake, the drain
  readies it at the back first (`SwitchingOrder.ALateWakeCostsTheTurn`). It keeps its turn if and
  only if no wake of its own is taken in, or it is exiting (`SwitchingOrder.PreemptedStaysAhead`).
- **An exiting thread can run on.** `threading_subsystem.cpp` lines 197-200 say that a preemption
  after the wish to exit retires the thread. A decision made in an interrupt does not: the thread
  is filed as ready, and once picked runs on past a yield the port has absorbed
  (`SwitchingOrder.AnExitCanRunOn`); only the handler's road retires it
  (`SwitchingOrder.RetiredByTheHandlerOnly`).
- **A notify after the release can miss a waiter.** `condition_variable.hpp` lines 49-51 say
  that a notify issued after the mutex is released is guaranteed to find the waiter. A remote wake
  of an earlier wait can land late, in a later wait, and end one of its passes, which disarms the
  waiter and arms it again, and a notify in between finds nobody
  (`ConditionVariable.ANotifyCanBeMissed`). So can a resume, even between the prepare and the arming
  (`ConditionVariable.AResumeBeforeTheArmingWillDo`). A waiter whose deadline has not passed leaves
  the queue if and only if such a delivery has reached the pass it is in
  (`ConditionVariable.LeavesTheQueueIff`, `ConditionVariable.MissedOnlyAfterAForeignDelivery`), and
  every such delivery can bring it about (`ConditionVariable.AForeignDeliveryOpensTheWindow`).
- **A port yield can be absorbed.** `port_core_armv7m_armv8m.cpp` lines 900-902 say a full
  reschedule has completed when the port's yield returns. An interrupt taken before PendSV
  whose wake owes a switch makes PendSV carry out that switch and return without calling the
  kernel (`OwedSwitch.AnEarlyAskCanBeAbsorbed`). PendSV calls the kernel if and only if nothing
  was owed when it looked, or a reschedule was asked for while a switch was owed, before it looks
  again (`OwedSwitch.EarlyAskServedIff`). One asked for while a switch is owed is never lost.
- **A timer due as its core starts can be lost.** A compare interrupt between `start`'s
  re-arm and its enabling of delivery clears the armed deadline and calls nobody
  (`TicklessTimers.AStartCanLoseADeadline`); that is the only way
  (`TicklessTimers.LostOnlyBeforeEnable`).
- **The idle thread does not give way to a thread at the lowest priority**, which a thread may
  have (`SwitchingOrder.AThreadCanWaitBehindIdle`), though `kernel.cpp` lines 192-195 say that
  whatever an interrupt readied has been switched to by the time the idle thread runs on. It gives
  way if and only if the thread is more urgent than that (`SwitchingOrder.IdleGivesWayIff`).
- **A recurring timer can leave its grid, and its loop can fail to end.** Sums of ticks wrap at
  64 bits (`GridLoop.AGridCanWrap`, `GridLoop.AGridCanSpin`). The loop ends on the next point of
  the grid if and only if that point fits 64 bits (`GridLoop.GridExactlyWhenItFits`), and it ends
  at all if and only if the last tick congruent to the deadline modulo the largest power of two in
  the period is after now (`GridLoop.EndsIff`).

## Model

| member | source | states |
|---|---|---|
| `WaitGraph.DonatedFloor` | src/kernel/waitable.cpp:52-71 | the loop over the occupied slots computes the fold of the base priority and every held mutex's contribution |
| `WaitGraph.UrgencyContribution` | src/kernel/base_mutex.cpp:29-34 | the queue's top, and the ceiling where the mutex has one, computed as the fold defines it |
| `WaitGraph.TopOf` | src/kernel/waitable.cpp:147-196 | the cached top alone without the hint, 0 at depth 0 or past four bridges, else the least of the top and the bridges' urgencies |
| `WaitGraph.Snapshot` | src/kernel/waitable.cpp:163-189 | the walk collects exactly the queue's bridges in order, or reports that there are more than four |
| `WaitGraph.BestOf` | src/kernel/waitable.cpp:191-195 | the loop over the snapshot computes the least urgency among the bridges |
| `WaitGraph.FoldIsEffectiveOrCut` | src/kernel/waitable.cpp:52-196 | at any depth the fold is the effective priority, or 0 when the recursion is cut |
| `WaitGraph.UrgencyExactly` | src/kernel/scheduler.hpp:690-696 | urgency is never less urgent than effective priority, and equals it if and only if that is 0 or no queue within eight bridge hops is crowded or too deep |
| `WaitGraph.ShortChainsAreExact` | src/kernel/waitable.cpp:147-196 | with bridge paths of at most seven hops and queues of at most four bridges, urgency is effective priority |
| `WaitGraph.CycleFoldsToZero` | src/kernel/scheduler.hpp:637-644 | a thread on a cycle of bridges has urgency 0 |
| `WaitGraph.EffectiveExists` | src/kernel/scheduler.hpp:668-689 | every thread of every graph, cyclic or not, has an effective priority |
| `BlockedChain.RequestRepick` | src/kernel/waitable.cpp:543-590 | the walk prompts the core of each of the first eight threads of the blocked-on chain, and ends, cycles included |
| `BlockedChain.PromptsReachTheBoosted` | src/kernel/waitable.cpp:543-590 | arming a waiter changes effective priorities only for the more urgent, and only of threads the chain from the mutex's owner reaches, or would but for a waiter on it whose edge is not up; what the chain reaches within eight is on the walk |
| `DonationPrompts.ArmingPromptsTheBoosted` | src/kernel/base_mutex.cpp:125-150 | the same of every arming in every run of the mutex protocol, where the chain breaks off only at another waiter between its arming and its publishing, whose own prompt is still to come |
| `DonationPrompts.PublishedUnlessArming` | src/kernel/base_mutex.cpp:184-255 | in every reachable state a waiter's blocked-on edge is up, unless it is between its arming and its publishing |
| `BlockedChain.ConfirmCycle` | src/kernel/diagnostics.cpp:72-86 | true if and only if every member of the loop is blocked and the links still close it |
| `BlockedChain.BlockingChainOf` | src/kernel/diagnostics.cpp:90-123 | the holders are the chain, distinct and at most eight, and deadlocked if and only if the chain closes a cycle of blocked threads within that |
| `WaitOrder.InsertKeepsOrder` | src/kernel/waitable.cpp:106-123 | inserting the latest arrival keeps a queue in the order of priority, then arrival |
| `WaitOrder.RemoveKeepsOrder` | src/kernel/waitable.cpp:129-145 | taking a waiter out keeps that order |
| `WaitQueue.Queue.Link` | src/kernel/waitable.cpp:106-123 | the links spell the queue with the node behind everyone as urgent or more |
| `WaitQueue.Queue.UnlinkNode` | src/kernel/waitable.cpp:129-145 | the links spell the queue without the node, and the answer is whether it was there |
| `WaitQueue.Queue.Arm` | src/kernel/waitable.cpp:198-212 | the waiter is in its place, the cached top is the head's priority and the hint is set for a bridge and kept otherwise |
| `WaitQueue.Queue.Disarm` | src/kernel/waitable.cpp:227-234 | the waiter is out, false if and only if a wake had taken it, and the cache agrees |
| `WaitQueue.Queue.TakeHead` | src/kernel/waitable.cpp:253-265 | a wake takes the head and nobody else, and the cache agrees |
| `WaitQueue.Queue.RefreshTop` | src/kernel/waitable.cpp:236-251 | the cached top is the head's priority, or that of no waiter, and an empty queue has no hint |
| `WaitQueue.Queue.WakeAll` | src/kernel/waitable.cpp:271-302 | whatever others arm and disarm between two takes, the woken are those that walks of one take, and the queue is left empty |
| `WaitQueue.Queue.WakeAllWhere` | src/kernel/waitable.cpp:341-389 | whatever others arm and disarm between two walks, the woken and the queue left are those of walks of eight |
| `WaitQueue.WakesAreConserved` | src/kernel/waitable.cpp:271-389 | whoever was queued or armed meanwhile is woken exactly once, disarmed itself, or is still queued |
| `WaitQueue.WakesTheWanted` | src/kernel/waitable.cpp:341-389 | only the wanted are woken, and none of them is queued at the last look |
| `WaitQueue.EveryoneWantedIsWoken` | src/kernel/waitable.cpp:341-389 | everyone wanted who was queued as it began is woken, or disarmed itself in between |
| `WaitQueue.Undisturbed` | src/kernel/waitable.cpp:341-389 | with nothing in between, exactly the wanted are woken, in order, and the rest keep their places |
| `WaitQueue.BatchTakes` | src/kernel/waitable.cpp:356-384 | a walk takes the first of those wanted in order, and one that is not full leaves none |
| `MutexSafety.StepKeeps` | src/kernel/base_mutex.cpp:66-315 | every step of lock, try_lock, unlock and hand-over keeps the protocol's invariant |
| `MutexReturns.LockReturnsOwning` | src/kernel/base_mutex.cpp:191-255 | in every run a lock() that returns has the mutex: it is its caller's, owner word and all, and the caller's other locks are as they were |
| `MutexReturns.TryLockReturnsOwningIff` | src/kernel/base_mutex.cpp:174-189 | a try_lock() that returns has the mutex if and only if the owner word was free at its CAS |
| `MutexReturns.UnlockReturnsWithout` | src/kernel/base_mutex.cpp:257-315 | an unlock() that returns has given up the mutex and nothing else, and its caller is not the owner |
| `MutexSafety.MutualExclusion` | src/kernel/base_mutex.cpp:174-255 | no two callers have one mutex locked |
| `MutexSafety.NobodyParksOnFree` | src/kernel/base_mutex.cpp:209-254 | past a failed poll the mutex has an owner, and the waiter is queued or is that owner |
| `MutexSafety.OwnerChanges` | src/kernel/base_mutex.cpp:125-182 | the owner word changes only by a hand-over to the head of the queue, most urgent and first come, by a release with nobody queued, or by a CAS while nobody has polled in vain |
| `MutexSafety.LockedIsFiled` | src/kernel/base_mutex.cpp:66-117 | what a caller has locked is filed in exactly one slot, of it alone, with index and mask bit in agreement |
| `MutexSafety.AtRestFilingAgrees` | src/kernel/base_mutex.cpp:257-315 | with no call on a mutex under way it is filed nowhere if free and exactly once, with its owner, if not |
| `MutexSafety.MaskBitsLeadToOwned` | src/kernel/threading_subsystem.hpp:127-147 | at every step a set mask bit leads to a mutex its thread owns |
| `MutexSafety.ClaimFindsASlot` | src/kernel/base_mutex.cpp:66-91 | a claim of a slot, made by the owner or for it, never runs past the last one |
| `MutexSafety.FoldSoundInEveryState` | src/kernel/waitable.cpp:147-251 | in every reachable state the queues, tops and hints are such that the fold is no less urgent than effective priority, and exact under the same condition |
| `WakeDelivery.NoWakeIsDropped` | src/kernel/waitable.cpp:524-541 | a blocked thread whose node a wake took, or whose token is up in suspend, has a delivery in flight |
| `WakeDelivery.ParksOnlyPrepared` | src/kernel/scheduler.hpp:483-494 | a thread that blocks still intends to: the assertion on its disposition holds |
| `WakeDelivery.SuspendReturnsOnAToken` | src/kernel/threading_subsystem.cpp:206-232 | in every run a suspend that returns has found its token up, and lowered it |
| `WakeDelivery.ResumesAreRemembered` | src/kernel/threading_subsystem.cpp:83-92 | a resume's token stays up until a suspend settles on it |
| `WakeDelivery.WaitReturnsWhenMet` | src/kernel/waitable.cpp:651-709 | a wait returns only from its unarmed look, what it waits for met, and on no queue |
| `WakeDelivery.LateOwnershipIsRerouted` | src/kernel/scheduler.hpp:153-195 | a ready thread that holds a mutex is on the holder list, or in the matrix with a delivery in flight, and nobody on that list holds nothing, unless the thread has strayed: taken its first mutex or given back its last while it ran though filed as ready |
| `WakeDelivery.MisfiledIffStrays` | src/kernel/scheduler.hpp:153-195 | a step takes a thread from where it should be filed if and only if it strays |
| `WakeDelivery.AHolderCanBeLeftInTheMatrix` | src/kernel/kernel.cpp:149-160 | a run that leaves a holder in the matrix with nothing in flight |
| `WakeDelivery.AtRestDelivered` | src/kernel/kernel.cpp:129-160 | with nothing in flight no blocked thread has been woken, and every ready one that has not strayed is filed by what it holds |
| `WakeDelivery.DeliveryCanStep` | src/kernel/scheduler.cpp:126-154 | while a blocked thread has a delivery in flight, some step of one is possible |
| `WakeDelivery.DeliveriesReady` | src/kernel/kernel.cpp:129-160 | every such step readies the thread, or leaves it with fewer to go and one still in flight |
| `Intake.StepKeeps` | src/kernel/scheduler.cpp:139-270 | every step of a push and of the drain keeps the chain, the reversed batch, the claims and the doorbell in agreement |
| `Intake.ServicedInOrder` | src/kernel/scheduler.cpp:242-270 | threads are serviced in the order of the exchanges, each exchange at most once |
| `Intake.OnceOnTheChain` | src/kernel/scheduler.cpp:139-154 | a thread is exchanged onto the chain only when no earlier push of it is unreleased |
| `Intake.NoLinkIsStranded` | src/kernel/scheduler.cpp:202-240 | a core waiting for a link waits for a producer whose next step publishes it |
| `Intake.NonEmptyHasABell` | src/kernel/scheduler.cpp:150-153 | a non-empty intake has a doorbell rung, one owed, or a core about to look |
| `Intake.AtRestAllServiced` | src/kernel/scheduler.cpp:242-270 | at rest everything exchanged has been serviced and nobody asked for is waiting |
| `Intake.EveryPostIsServiced` | src/kernel/scheduler.cpp:258-269 | a post, merged or not, is followed by a service of its thread that begins after it |
| `Semaphore.FreeTokensAreOwedWakes` | src/userlib/sync/semaphore.cpp:14-57 | while a thread whose armed poll failed is queued, the counter is at most the wakes still to be made, used or passed on |
| `Semaphore.NobodyParkedBesideAToken` | src/kernel/waitable.cpp:638-709 | at rest a parked waiter means no free token |
| `Semaphore.TokensAreConserved` | src/userlib/sync/semaphore.cpp:14-57 | the initial tokens and those of every release made are the counter plus those acquired, and a word of them for each time the counter passed it |
| `Semaphore.WaitReturnsATokenOrGaveUp` | src/userlib/sync/semaphore.cpp:26-37 | in every run a wait that returns has taken exactly one token; or none, if and only if it is cancellable and its last poll found no token and the cancel raised, and then it does return |
| `Semaphore.TryAcquireTakesIff` | src/userlib/sync/semaphore.cpp:39-52 | try_acquire takes a token if and only if there is one, and touches no waiter |
| `HandoffSemaphore.TokensAreConserved` | src/userlib/sync/handoff_semaphore.cpp:45-125 | the initial tokens and those of every release made are the counter, those acquired, those in the hands of releases and of waiters not returned, and a word of them for each time the counter passed it |
| `HandoffSemaphore.WaitSettlesTrueUnlessCancelled` | src/userlib/sync/handoff_semaphore.cpp:78-125 | in every run a wait settles with a token; or with none, if and only if it is cancellable and its last poll found neither a token nor a hand-over but the cancel raised |
| `HandoffSemaphore.TryAcquireTakesIff` | src/userlib/sync/handoff_semaphore.cpp:90-101 | try_acquire takes a counted token if and only if there is one, and touches no waiter |
| `HandoffSemaphore.NeverOvertaken` | src/userlib/sync/public_headers/handoff_semaphore.hpp:35-38 | while a waiter queued before a release began stays queued, the release counts nothing and hands each of its tokens to a waiter that was queued too |
| `HandoffSemaphore.CountedTokensAreReclaimed` | src/userlib/sync/handoff_semaphore.cpp:45-69 | while a committed waiter is queued, the counter is covered by reclaims still to run |
| `HandoffSemaphore.NobodyParkedBesideAToken` | src/userlib/sync/handoff_semaphore.cpp:45-69 | with no reclaim to run, a committed waiter means an empty counter |
| `HandoffSemaphore.WaitReturnsWhatItTook` | src/userlib/sync/handoff_semaphore.cpp:105-125 | a wait returns false if and only if it took nothing and was handed nothing, and gives back the second of two tokens |
| `ConditionVariable.NotifiedIffTaken` | src/userlib/sync/condition_variable.cpp:27-55 | a wait ends as notified if and only if a notify took its node |
| `ConditionVariable.NotifiesAreConserved` | src/userlib/sync/condition_variable.cpp:9-25 | every node a notify took is one notified return, made or still to come |
| `ConditionVariable.TimesOutOnlyPastItsDeadline` | src/userlib/sync/condition_variable.cpp:27-55 | in every run a wait ends as timed out only if it has a deadline and that has passed |
| `ConditionVariable.PassEndsTheWaitIff` | src/kernel/waitable.cpp:690-708 | after a pass a wait ends as notified if a notify took it, else as timed out if its deadline has passed, and else goes on |
| `ConditionVariable.NotifyAllLeavesNobody` | src/userlib/sync/condition_variable.cpp:16-25 | a notify_all that returns has left nobody queued |
| `ConditionVariable.MissedOnlyAfterAForeignDelivery` | src/userlib/sync/public_headers/condition_variable.hpp:49-51 | in every run, no notify can take a waiter that has released its mutex only if its deadline has passed or a delivery not of its pass has reached one of its passes, from the prepare on |
| `ConditionVariable.LeavesTheQueueIff` | src/kernel/waitable.cpp:651-682 | a waiter that polled in vain, taken by no notify and before its deadline, leaves the queue if and only if such a delivery has reached this pass since its prepare |
| `ConditionVariable.AForeignDeliveryOpensTheWindow` | src/kernel/waitable.cpp:651-708 | any such delivery on its way to any wait that no notify has taken, before its deadline, leads by the waiter's own steps to a state in which it has released its mutex and no notify can take it |
| `ConditionVariable.ANotifyCanBeMissed` | src/kernel/waitable.cpp:651-708 | a run in which the late wake of a notify made on another core lands in the next wait, and a notify misses it |
| `ConditionVariable.AResumeBeforeTheArmingWillDo` | src/kernel/waitable.cpp:651-674 | a run in which a resume between the prepare and the arming has the same effect |
| `SwitchingSafety.MakeReadyKeeps` | src/kernel/scheduler.hpp:153-195 | readying keeps every thread in one place, re-routes a holder out of the matrix and changes nobody else's state |
| `SwitchingSafety.RunNextKeeps` | src/kernel/scheduler.hpp:353-361 | the pick leaves exactly one thread running and every other in one place |
| `SwitchingSafety.DecideKeeps` | src/kernel/scheduler.hpp:220-235 | a switch on the thread's road or in an interrupt keeps that |
| `SwitchingSafety.RescheduleKeeps` | src/kernel/scheduler.cpp:362-410 | a switch on the handler's road keeps that |
| `SwitchingOutcomes.DecisionLeaves` | src/kernel/scheduler.hpp:220-235 | a decision leaves its pick running, those whose wakes it takes in ready, the running thread as its departure says, and everyone else as they were |
| `SwitchingOutcomes.HandlerLeaves` | src/kernel/scheduler.cpp:362-410 | the same for the handler's road, where an exiting thread is terminated and its joiners readied |
| `SwitchingOutcomes.ParkBlocksIff` | src/kernel/scheduler.hpp:483-494 | a thread that parks is blocked if and only if no wake of it is taken in, or it is exiting; otherwise it is ready or runs on |
| `SwitchingOutcomes.WakeReadies` | src/kernel/scheduler.cpp:57-89 | a wake of a blocked thread that is not exiting leaves it ready or running, whoever runs and whatever the intake holds |
| `SwitchingOutcomes.HolderIsMoved` | src/kernel/scheduler.hpp:153-195 | a holder found in the matrix is taken out of it and put at the end of the holder list |
| `SwitchingOutcomes.HoldersQueueUp` | src/kernel/scheduler.cpp:156-171 | a holder that becomes ready, or departs ready, goes to the end of that list |
| `SwitchingOutcomes.WakePreemptsIff` | src/kernel/scheduler.hpp:187-194 | a wake that may decide takes the core from whoever runs if and only if the thread woken is more urgent |
| `SwitchingOutcomes.NobodyMoreUrgentWaits` | src/kernel/scheduler.hpp:498-517 | in every run, from any pick on, while urgencies stand and every wake may decide, no ready thread is more urgent than the current one |
| `SwitchingSafety.SetReadyKeeps` | src/kernel/scheduler.cpp:57-89 | the masked half of a wake keeps every thread in one place, and leaves the current one running unless it readies it |
| `SwitchingSafety.OnePlaceInEveryRun` | src/kernel/scheduler.cpp:57-89 | in every run of looks, readyings, switches and handler passes, nested as they may be, each thread is in exactly one place and nobody runs but the current one |
| `SwitchingSafety.OneRunningIff` | src/kernel/kernel.cpp:149-160 | in every run exactly one thread is running if and only if no wake has readied the running thread since the last pick |
| `SwitchingOrder.ANestedWakeUnseats` | src/kernel/kernel.cpp:149-160 | a run of two nested wakes of one thread that leaves the current thread in the matrix and nobody running |
| `SwitchingSafety.PickIsMostUrgent` | src/kernel/scheduler.cpp:412-451 | the pick is a ready thread no less urgent than any other, by folded urgency unless ownership is late |
| `SwitchingSafety.PickFollowsTheFold` | src/kernel/scheduler.hpp:498-517 | on any wait-for graph, with nobody's ownership late, no ready thread has a folded urgency below the pick's |
| `SwitchingOrder.TiesTakeTurns` | src/kernel/scheduler.cpp:436-447 | in every run, of two ties at a level with none between them one goes to the matrix and one to the holders, whatever else happens |
| `SwitchingOrder.YieldedGoesBehind` | src/kernel/scheduler.hpp:302-310 | whatever the intake holds, a thread that yields and holds nothing has its turn after each of its equals |
| `SwitchingOrder.PreemptedStaysAhead` | src/kernel/scheduler.hpp:302-310 | whatever the intake holds, a preempted thread that holds nothing has its turn before each of its equals if and only if no wake of it is there or it is exiting, and after them otherwise |
| `SwitchingOrder.ALateWakeCostsTheTurn` | src/kernel/scheduler.hpp:222-235 | a core on which a preempted thread goes behind its equal for a late wake of it, and before it without |
| `SwitchingOrder.HandlerPreemptsOrRotates` | src/kernel/scheduler.hpp:327-347 | on the handler's road a thread that holds nothing has its turn before each of its equals if and only if it is outranked with no holder ready and no wake of it is on the intake, and after them otherwise |
| `SwitchingSafety.FirstOfTheBest` | src/kernel/scheduler.cpp:418-426 | among equally urgent holders the one listed first is picked |
| `SwitchingOrder.IdleGivesWayIff` | src/kernel/scheduler.hpp:187-194 | a whole wake made while the idle thread runs takes the core from it if and only if the thread is more urgent than the lowest priority, and otherwise leaves idle running and the thread ready behind it |
| `SwitchingOrder.AThreadCanWaitBehindIdle` | src/kernel/kernel.cpp:191-195 | a core on which a thread woken at the lowest priority stays ready while idle runs |
| `SwitchingOrder.RetiredByTheHandlerOnly` | src/kernel/threading_subsystem.cpp:186-204 | a thread that asked to exit is terminated by the handler's road, and is ready or running after a decision made in an interrupt |
| `SwitchingOrder.AnExitCanRunOn` | src/kernel/threading_subsystem.cpp:186-204 | a run in which a thread that asked to exit is preempted and is running again |
| `EagerDecisions.EagerIsOnce` | src/kernel/scheduler.hpp:272-296 | with no holders and an empty intake, deciding at each warranted wake leaves the state one decision at the end would |
| `EagerDecisions.DecisionThenWake` | src/kernel/scheduler.cpp:57-89 | a wake after a decision is a decision after the wake |
| `IntrusiveList.Unlink` | src/kernel/threading_subsystem.cpp:140-151 | the walk finds the thread or that it is not there, and the links spell the list without it, its own naming itself |
| `Scheduler.CoreScheduler.PushBack` | src/kernel/threading_subsystem.hpp:373-379 | the level's links spell it with the thread at the back, every other level untouched |
| `Scheduler.CoreScheduler.PushFront` | src/kernel/threading_subsystem.hpp:381-387 | the same with the thread at the front |
| `Scheduler.CoreScheduler.PopFront` | src/kernel/threading_subsystem.hpp:389-398 | the head of the level is taken off, its link naming itself again |
| `Scheduler.CoreScheduler.RemoveFrom` | src/kernel/threading_subsystem.cpp:140-151 | the thread is taken out of its level, if there |
| `Scheduler.CoreScheduler.Enqueue` | src/kernel/threading_subsystem.hpp:400-418 | the thread is filed at its base priority and the bitmap agrees |
| `Scheduler.CoreScheduler.BestPriority` | src/kernel/threading_subsystem.hpp:345-348 | the lowest bit set is the most urgent level with a thread in it |
| `Scheduler.CoreScheduler.PopBestThread` | src/kernel/threading_subsystem.hpp:420-431 | the head of the most urgent level is taken and the bitmap agrees |
| `Scheduler.CoreScheduler.RemoveThread` | src/kernel/threading_subsystem.cpp:154-165 | an enqueued thread is unfiled and the bitmap agrees |
| `Scheduler.CoreScheduler.LinkHolder` | src/kernel/scheduler.cpp:156-171 | the holder list's links spell it with the thread at the back, once |
| `Scheduler.CoreScheduler.UnlinkHolder` | src/kernel/scheduler.cpp:173-200 | the links spell the list without the thread |
| `Scheduler.CoreScheduler.AdmitThread` | src/kernel/scheduler.hpp:124-149 | the lists and the bitmap become what filing on values gives |
| `Scheduler.CoreScheduler.MakeThreadReady` | src/kernel/scheduler.hpp:153-195 | the same for readying, and the hint is right |
| `Scheduler.CoreScheduler.MostUrgentHolder` | src/kernel/scheduler.cpp:418-426 | the fold over the list finds the first of the most urgent holders |
| `Scheduler.CoreScheduler.PickNext` | src/kernel/scheduler.hpp:505-517 | the lists, the bitmap and the rotor become what the pick on values gives |
| `Scheduler.CoreScheduler.SettleTie` | src/kernel/scheduler.cpp:428-447 | which side goes first, and the rotor after |
| `Scheduler.CoreScheduler.DecideSwitch` | src/kernel/scheduler.hpp:220-235 | the whole core becomes what deciding on values gives, so each thread stays in one place |
| `Scheduler.CoreScheduler.HandlerSwitch` | src/kernel/scheduler.cpp:362-410 | the same for the handler's road, with the departure worked out from the bitmap |
| `Scheduler.CoreScheduler.SetThreadReady` | src/kernel/scheduler.cpp:57-89 | the same for the masked half of a wake, which leaves one thread running exactly when it decides, or there was one and it does not ready it |
| `OwedSwitch.SavedContextsAreRight` | src/port/arm/armv7m_armv8m/port_core_armv7m_armv8m.cpp:662-676 | every thread is saved as itself, as far as it ran, but the one whose frame PSP holds, which is the one executing |
| `OwedSwitch.PendSvReturnsToTheRunning` | src/port/arm/armv7m_armv8m/port_core_armv7m_armv8m.cpp:693-736 | PendSV returns to the kernel's running thread, and outside it the two differ only while a switch from the one to the other is owed and pended |
| `OwedSwitch.NoAskWhileOwedIsLost` | src/port/arm/armv7m_armv8m/port_core_armv7m_armv8m.cpp:800-820 | a reschedule asked for while a switch is owed is served before PendSV returns with nothing owed |
| `OwedSwitch.EarlyAskServedIff` | src/port/arm/armv7m_armv8m/port_core_armv7m_armv8m.cpp:800-820 | in every run, a dispatch that looks for an owed switch ends in the kernel's handler if and only if nothing was owed then, or a reschedule has been asked for while a switch was owed by the time it looks for that |
| `OwedSwitch.EveryAskReachesPendSv` | src/port/arm/armv7m_armv8m/port_core_armv7m_armv8m.cpp:905-922 | in every run, what asks for a reschedule or owes a switch leaves PendSV pended until it is taken |
| `OwedSwitch.AskIsPendedThenServedIff` | src/port/arm/armv7m_armv8m/port_core_armv7m_armv8m.cpp:800-820 | and the PendSV then taken calls the kernel's handler if and only if it finds nothing owed, or a reschedule asked for while a switch is |
| `OwedSwitch.RunsTheLastDecided` | src/port/arm/armv7m_armv8m/port_core_armv7m_armv8m.cpp:693-736 | the kernel's running thread is the last one decided, on whichever road, and PendSV returns to that one |
| `OwedSwitch.AnEarlyAskCanBeAbsorbed` | src/port/arm/armv7m_armv8m/port_core_armv7m_armv8m.cpp:888-903 | a run in which a yield ends without the kernel's handler |
| `WrappingCounters.MaskIsModulo` | src/kernel/trace.cpp:70 | and-ing with a power of two less one is the remainder |
| `WrappingCounters.SlotOfCounter` | src/kernel/trace.cpp:125 | the slot of a counter is the same before and after it wraps |
| `TraceRing.RefinesABoundedQueue` | src/kernel/trace.cpp:54-80 | what was read is a prefix of what was appended, what is left fits the ring, and every attempt was read, is buffered, was dropped or is under way |
| `TraceRing.ReadReturnsTheOldest` | src/kernel/trace.cpp:112-130 | a read, from call to return, takes the oldest records buffered, whole and in order, as many as it has room for or all that were buffered when it loaded head |
| `TraceRing.AppendLogsOrDrops` | src/kernel/trace.cpp:54-80 | an append, from call to return, leaves its record at the end of the log, or drops it, if and only if the ring was full as it began |
| `TraceRing.DropsIffFull` | src/kernel/trace.cpp:63-68 | a record is dropped if and only if the ring was full when the append loaded the tail |
| `TicklessTimers.ArmedAtOrBeforeEveryDeadline` | src/time/tickless/time_driver_tickless.cpp:133-190 | on a started core the armed deadline is at or before every live slot's, unless a deadline was lost and a slot is waiting |
| `TicklessTimers.LostOnlyBeforeEnable` | src/time/tickless/time_driver_tickless.cpp:353-375 | a deadline is lost only by a compare interrupt on a started core before delivery is enabled |
| `TicklessTimers.AStartCanLoseADeadline` | src/port/common/port_time_mtime.cpp:292-302 | a run that ends started, with delivery on, a slot waiting and nothing armed |
| `TicklessTimers.FiresOnTimeAndOnce` | src/time/tickless/time_driver_tickless.cpp:161-179 | no slot fires before its deadline, and a one-shot schedule has no second firing |
| `TimerPromises.DeliveredInterruptFiresTheDue` | src/time/tickless/time_driver_tickless.cpp:161-190 | in every run a delivered compare interrupt fires each slot due at its time exactly once, or never, if and only if a callback before the slot's turn cancels it |
| `TimerPromises.CancelledNeverFires` | src/time/tickless/time_driver_tickless.cpp:305-329 | in every run a cancelled timer is in no slot from then on, and never fires again |
| `TimerPromises.CancelUndoesSchedule` | src/time/tickless/time_driver_tickless.cpp:305-329 | cancelling the handle a schedule returned frees its slot and no other, if and only if no earlier slot has that handle |
| `TimerPromises.SameHandleIff` | src/time/tickless/time_driver_tickless.cpp:96-103 | in every run two timers share a handle if and only if the schedules from the one to the other are a multiple of 2^32 - 1 |
| `TimerPromises.AcceptedIff` | src/time/tickless/time_driver_tickless.cpp:238-303 | a schedule is accepted, into the first free slot, if and only if it has a callback, an interval if it recurs, and a slot is free |
| `TimerPromises.FiringsAreAsAsked` | src/time/tickless/time_driver_tickless.cpp:238-303 | in every run what a schedule fires is its callback, once at the deadline given, or every interval counted from an interval past now or past the start |
| `TimerPromises.StaysUntilFiredOrCancelled` | src/time/tickless/time_driver_tickless.cpp:161-329 | an accepted schedule stays in its slot until it is cancelled there or, a one-shot, has fired |
| `TimerPromises.StoppedFiresNothing` | src/time/tickless/time_driver_tickless.cpp:377-387 | from a stop until the next start nothing is armed and nothing fires |
| `TimerPromises.InterruptArmsTheEarliest` | src/time/tickless/time_driver_tickless.cpp:133-190 | an interrupt whose callbacks leave the table alone arms the earliest deadline there is, or none |
| `TicklessTimers.RecurringStaysOnGrid` | src/time/tickless/time_driver_tickless.cpp:168-174 | in 64-bit arithmetic each firing leaves a recurring slot due after now; on its grid and at most one period ahead if and only if the next point of the grid fits; and on the grid it was anchored to while all have |
| `GridLoop.GridExactlyWhenItFits` | src/time/tickless/time_driver_tickless.cpp:171-173 | the loop, in 64-bit arithmetic, ends on the next point of the grid if and only if that point fits 64 bits |
| `GridLoop.EndsIff` | src/time/tickless/time_driver_tickless.cpp:171-173 | the loop ends if and only if the last tick congruent to the deadline, modulo the largest power of two that divides the period, is after now |
| `GridLoop.AGridCanWrap` | src/time/tickless/time_driver_tickless.cpp:171-173 | a deadline, period and time for which the loop ends off the grid |
| `GridLoop.AGridCanSpin` | src/time/tickless/time_driver_tickless.cpp:171-173 | a deadline, period and time for which it never ends |
| `GridLoop.Advance` | src/time/tickless/time_driver_tickless.cpp:171-173 | where it ends, the loop's result is the first of the wrapped sums after now |
| `TicklessTimers.Timetable.Rearm` | src/time/tickless/time_driver_tickless.cpp:133-150 | the scan finds the earliest live deadline and arms it, never later than before, or disarms |
| `TicklessTimers.Timetable.Schedule` | src/time/tickless/time_driver_tickless.cpp:248-269 | the first free slot is filled and armed on a started core, or the answer is no handle |
| `TicklessTimers.Timetable.ScheduleAt` | src/time/tickless/time_driver_tickless.cpp:238-270 | no handle if and only if there is no callback or no free slot |
| `TicklessTimers.Timetable.ScheduleRecurring` | src/time/tickless/time_driver_tickless.cpp:272-303 | no handle also for a zero interval, and the first deadline an interval from now or pended |
| `TicklessTimers.Timetable.CancelHandle` | src/time/tickless/time_driver_tickless.cpp:305-329 | the slot of the handle is freed and the table re-armed, and the answer is whether there was one |
| `TicklessTimers.Timetable.FireDue` | src/time/tickless/time_driver_tickless.cpp:161-179 | every due slot fires in order, deadlines wrapping at 64 bits, with callbacks that schedule and cancel in between |
| `TicklessTimers.Timetable.Interrupt` | src/port/common/port_time_mtime.cpp:292-302 | a reached deadline is cleared, and delivered it fires and re-arms |
| `TicklessTimers.Timetable.StartArm` | src/time/tickless/time_driver_tickless.cpp:353-372 | pended recurring slots are anchored at now, and the earliest deadline is armed |

## Left out

- TicklessTimers.Timetable.FireDue: asks that the grid loop of each recurring slot it fires ends, as the source does not return otherwise; `GridLoop.EndsIff` says when that is.
- TicklessTimers.Timetable.Interrupt: the same, when it fires.
- GridLoop.Advance: the same, for its one loop.
- WakeDelivery.NoWakeIsDropped: a terminating thread, which refuses wakes, is not in this machine; the scheduler's own treatment of exit is in `Switching.dfy`.
- DonationPrompts.ArmingPromptsTheBoosted: the walk is on the graph the arming leaves; the source walks it a little later, without a lock, and what others change meanwhile is theirs to prompt for.
- A deadline's wake may be late in `ConditionVariable.dfy`, as under simulated time; on the tickless driver it is delivered at once, and the run of `ANotifyCanBeMissed` delivers it so.
- Semaphore counters are 32-bit words, as on the ARM ports.
- Weak memory and spinlocks: every atomic is sequentially consistent and every hold of a spinlock is one step, except the hand-over, whose slot claim is step by step.
- The compare-and-swap loop of `try_acquire` is one step: it ends on a successful exchange or on a counter seen at zero.
- Wait queues of the semaphores and the condition variable are sets of queued nodes from which a wake takes any; what is proved holds for every order, and the order itself is in `WaitQueue.dfy` and `MutexSafety.dfy`.
- `wait_queue::raise_all` and `wake_one_and_commit` as code; their effect is in `WakeDelivery.dfy` and `MutexProtocol.dfy`.
- `event_flags`, channels, round robin, alarms and the timed wrappers: the cancel signal of the wait engine stands for any deadline.
- Ports other than ARMv7-M/v8-M, register save and restore, stack guards, boot, the SysTick and simulated time sources, and the periodic half of the compare port.
- Thread creation, core pinning, shutdown, and the lifetime of a thread control block after termination.
- Reschedule policies, except that a wake may or may not decide at once.
