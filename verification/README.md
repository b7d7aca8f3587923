# The FreeRTOS kernel and its PTP daemon, verified

A Dafny model of the FreeRTOS V10.2.1 kernel, in this application's configuration, and of the PTP ordinary clock that
runs on it, with proofs of what they promise over whole runs. `dafny verify dfyconfig.toml` checks everything.

Most components come twice. A value-level specification (datatypes, pure functions) is where runs are defined and the
theorems are proved. A class holds the same fields the C code updates, with its loops and assignments; its methods keep
the invariant, state what the call promises, and tie the whole new state to the specification.

| files | what they model |
|---|---|
| `Rings`, `Lists` | list.c: the circular doubly linked list with end marker and walking index, on the heap |
| `ReadyLists`, `DelayedLists`, `Kernel`, `KernelSteps`, `KernelRuns`, `KernelTime`, `Tasks` | tasks.c: ready lists, the two delayed lists of a wrapping 32-bit tick, suspension, priorities, creation and deletion |
| `Schedule`, `ScheduleRuns` | the scheduler as sets of tasks in time that does not wrap, and that every run of tasks.c is a run of it |
| `TimeOut` | tasks.c: timeouts measured over repeated checks |
| `Mutexes`, `MutexPriority`, `MutexScenes`, `InversionRun`, `AssertionRun`, `MutexCalls`, `RecursiveMutex` | queue.c with tasks.c: mutexes, priority inheritance, nesting |
| `QueueRing`, `QueueLock` | queue.c: the byte ring as a deque, and the queue lock as a protocol between tasks and interrupts |
| `Timers`, `TimerCommands`, `TimerProgress`, `TimerTask` | timers.c: the timer daemon, its two lists and late commands, what each command does, and that it catches up |
| `EventGroups` | event_groups.c |
| `StreamBuffer`, `StreamProtocol` | stream_buffer.c: the ring, message framing, and the lock-free writer and reader |
| `PtpTime`, `Bmc`, `ForeignMasters`, `PtpPort`, `PtpTransitions`, `PtpDaemon`, `PtpProtocol` | arith.c, bmc.c, protocol.c and the loop of ptpd.c of the PTP daemon |

`Config` holds the constants of app/inc/FreeRTOSConfig.h: 32-bit ticks, 7 priorities, and `INCLUDE_vTaskSuspend` 0, so
every wait is finite. `Numbers` and `Circular` hold what several files share.

## Where the code differs from what it says

Each is a theorem below, with the exact condition where one was found.

- vListInsertEnd says the new item is the last to be returned by listGET_OWNER_OF_NEXT_ENTRY. It is last only when the
  index stands on the end marker; otherwise the item the index stands on comes after it (`Rings.VisitInsertEnd`).
- A delay of zero ticks at the last tick count would break the kernel's assertion that the current list is empty at
  the wrap (`DelayedLists.SleepShapeExactly`). The public delay calls never ask for it.
- xTaskCheckForTimeOut is exact for checks up to 2^32 ticks apart and not one tick more (`TimeOuts.OneTickTooFar`);
  `TimeOuts.MissesExactly` says at which readings, however far apart, it misses an expiry.
- xQueueGenericSend forgets that the giver lost its inherited priority when somebody waits for the mutex. A giver that
  goes on running can then take another mutex while a task waits for that one above the giver's priority
  (`InversionRun.HolderBelowWaiter` is such a run). `MutexPriority.TakeInvertsExactly` says which give and take do it;
  in runs without such a give no holder is below a waiter (`MutexPriority.InversionIsBounded`).
- The 8-bit queue lock count wraps at the 128th interrupt post in one lock period, and reads as unlocked from the
  255th on. For a receiver that blocks while posts arrive, `QueueLock.WakeUpLostExactly` says when a message is left
  with nobody woken for it: with no other receiver, from the 128th post on (`QueueLock.LoneReceiver`); for a sender
  `QueueLock.SenderLostExactly` says the same of free places. With fewer than 128 operations in every lock period
  none is, for any number of tasks in any order (`QueueLock.NoWakeUpIsLost`).
- bmc moves `best` on a negative result, and the comparison names a negative result "B better": so it keeps the worst
  record. Section 9.3.3 of IEEE 1588-2008 wants master exactly when the local clock is better than all foreign
  masters; where no record is misread the code agrees exactly when the local clock is better than all or than none
  (`Bmc.AllOrNone`).
- offsetScaledLogVariance and stepsRemoved are sent unsigned and held in int16_t, so from 0x8000 on they read as
  negative. `Bmc.MisreadExactly` says which comparisons that turns around, `Bmc.DecisionMeetsStandardExactly` when the
  recommended state still agrees, and `Bmc.LargestVarianceWins` is an input for which it does not.
- The announce receipt timeout empties the foreign master table but keeps `best`. Where bmc does not run before the
  next announcement, one master can be listed twice. That takes a fault after an announcement has been handled, which
  only a master can have, on a peer delay request: so a P2P port that may be master, with two slots or more.
  `PtpDaemon.ListedTwiceExactly` says that exactly these configurations can do it, `PtpDaemon.OneMasterTwice` is a
  run of each, and `PtpDaemon.NobodyListedTwice` holds over every run of the others. The build sets E2E (ptpd.c:41,
  constants.h:34) and nothing changes it, so the shipped configuration cannot.
- xQueueSemaphoreTake asserts that a task whose last test fails made nobody inherit, since a wait that is over would
  have left. A task that times out while the mutex is free for a moment goes back to test it instead, still with
  inheritance: the assertion fails if another task takes the mutex first (`Mutexes.LastTestFailsExactly`;
  `AssertionRun.InheritanceOutlivesTimeout` is such a run).
- A FAULTY port is meant to initialise again. It does so only if nothing has been recommended since it last did
  (`PtpPort.FaultRestartsExactly`), and entering LISTENING already sets a recommendation: so after one successful
  initialisation no port ever initialises again (`PtpPort.NeverInitialisesAgain`).

## Assumptions

- A critical section, an interrupt and a call made with the scheduler suspended are atomic steps; stream buffers are
  split further, byte by byte.
- Bounded priority inversion is stated for runs in which no task blocks on a mutex while it holds one, and in which no
  give is of the kind above; base priorities do not change.
- Some task is always ready as long as the idle task is never put to sleep or deleted
  (`KernelTime.SomebodyAlwaysReady`).
- Timer commands find room in the timer queue, and are processed within 2^32 ticks of being issued; the time is
  sampled at least once in 2^32 ticks. A timer left alone receives no user command in the run.
- The PTP network, servo, timer back end and message contents are arbitrary inputs to each doState. A timer that was
  not started does not expire. The sign of memcmp is assumed to survive its conversion to a shorter integer.

## Model

| member | source | states |
|---|---|---|
| `Lists.List.constructor` | Middlewares/FreeRTOS/Source/list.c:37-59 | a new list is valid: the end marker alone, value portMAX_DELAY, index on it |
| `Lists.List.InsertEnd` | Middlewares/FreeRTOS/Source/list.c:74-100 | the pointer ring stays well linked with right containers and count, and represents the old sequence with the item just before the index |
| `Lists.List.FindPlace` | Middlewares/FreeRTOS/Source/list.c:122-155 | the search stops for every value, also portMAX_DELAY, at the node after which the value belongs |
| `Lists.List.Insert` | Middlewares/FreeRTOS/Source/list.c:103-167 | the ring stays well linked and the entries become the old ones with the new one in value order, after its equals |
| `Lists.List.Remove` | Middlewares/FreeRTOS/Source/list.c:170-196 | the ring stays well linked, represents the old sequence without the item, the index falls back if it stood on the item, and the answer is the number left |
| `Lists.List.NextEntry` | Middlewares/FreeRTOS/Source/tasks.c:139-148 | listGET_OWNER_OF_NEXT_ENTRY, from its use: the index moves to the next item, skipping the end marker, and that is the first in visiting order |
| `Lists.Splice` | Middlewares/FreeRTOS/Source/list.c:87-94 | four pointer writes turn one ring into the ring with a node spliced in |
| `Lists.Bypass` | Middlewares/FreeRTOS/Source/list.c:176-177 | two pointer writes turn one ring into the ring without a node |
| `Rings.InsertKeepsSorted` | Middlewares/FreeRTOS/Source/list.c:103-167 | insertion by value keeps a sorted list sorted |
| `Rings.PlaceSeparates` | Middlewares/FreeRTOS/Source/list.c:150-155 | on a sorted list the place found is after every smaller or equal value and before every larger one, so equal values keep their order of arrival |
| `Rings.VisitRemove` | Middlewares/FreeRTOS/Source/list.c:170-196 | removal keeps the relative order in which the other items will be visited from the index |
| `Rings.VisitInsertEnd` | Middlewares/FreeRTOS/Source/list.c:87-95 | an item inserted at the end is visited last if the index is on the end marker and last but one otherwise; the others keep their visiting order |
| `Rings.SelectedIsVisitPrefix` | Middlewares/FreeRTOS/Source/tasks.c:139-148 | n selections are the first n items in visiting order |
| `Rings.EqualShare` | Middlewares/FreeRTOS/Source/tasks.c:139-148 | n selections of an unchanged n-item list visit every item exactly once per time it is listed |
| `ReadyLists.Highest` | Middlewares/FreeRTOS/Source/tasks.c:133-144 | the downward search finds the highest non-empty priority at or below the recorded top |
| `ReadyLists.SelectIsHighest` | Middlewares/FreeRTOS/Source/tasks.c:133-148 | the selected task is ready and no ready task has a higher priority |
| `ReadyLists.SelectShape` | Middlewares/FreeRTOS/Source/tasks.c:133-148 | selection keeps which task is on which list, each once |
| `ReadyLists.SelectTakesTurn` | Middlewares/FreeRTOS/Source/tasks.c:133-148 | the selected task is the next in turn of the highest non-empty list, where it goes to the end of the turns; no other list changes |
| `ReadyLists.EqualTurns` | Middlewares/FreeRTOS/Source/tasks.c:133-148 | as long as the ready lists do not change otherwise, as many selections as the highest list holds tasks choose each of them once |
| `ReadyLists.AddShape` | Middlewares/FreeRTOS/Source/tasks.c:218-222 | adding a task keeps every list at its own priority and the recorded top above all, and adds exactly that task |
| `DelayedLists.EmptyAtWrap` | Middlewares/FreeRTOS/Source/tasks.c:198-210 | the current delayed list is empty at every wrap, as the kernel asserts before switching the lists |
| `DelayedLists.TickShape` | Middlewares/FreeRTOS/Source/tasks.c:2683-2774 | a tick keeps: current values not passed, overflow values below the tick, next unblock time no later than any current value |
| `DelayedLists.SleepShapeExactly` | Middlewares/FreeRTOS/Source/tasks.c:5153-5185 | delaying keeps that invariant if and only if the delay is not zero at the very last tick count |
| `DelayedLists.CountRefines` | Middlewares/FreeRTOS/Source/tasks.c:198-210 | counting, with or without a switch of the lists, moves no deadline of the unbounded-time model |
| `DelayedLists.WakeRefines` | Middlewares/FreeRTOS/Source/tasks.c:2698-2774 | waking removes exactly the entries whose unbounded deadline has come |
| `DelayedLists.TickRefines` | Middlewares/FreeRTOS/Source/tasks.c:2683-2774 | one tick wakes exactly the tasks whose deadline has come and leaves every other deadline as it was |
| `DelayedLists.SleepRefines` | Middlewares/FreeRTOS/Source/tasks.c:5153-5185 | delaying by d at time n records the deadline n + d, on whichever list |
| `DelayedLists.TickBag` | Middlewares/FreeRTOS/Source/tasks.c:2683-2774 | a tick loses no item: what leaves the lists is what is woken |
| `Kernel.TickPartition` | Middlewares/FreeRTOS/Source/tasks.c:2665-2773 | a tick keeps every live task on exactly one state list |
| `Kernel.SwitchRunsHighest` | Middlewares/FreeRTOS/Source/tasks.c:2947-3017 | a switch outside a suspension keeps the invariant and ends on a ready task of maximal priority |
| `Kernel.ResumeAll` | Middlewares/FreeRTOS/Source/tasks.c:2174-2281 | resuming keeps the invariant and turns every pended tick into a processed one |
| `Kernel.BlockInv` | Middlewares/FreeRTOS/Source/tasks.c:3020-3058 | blocking on an event list with a timeout keeps the invariant |
| `Kernel.UnblockInv` | Middlewares/FreeRTOS/Source/tasks.c:3094-3159 | unblocking a waiter, at once or parked while the scheduler is suspended, keeps the invariant |
| `Kernel.UnblockTakesOff` | Middlewares/FreeRTOS/Source/tasks.c:3094-3159 | a task taken off its event list waits no longer; with the scheduler running it is ready and not asleep, otherwise it is parked; nobody else becomes ready, wakes, stops waiting or is parked, or the reverse |
| `Kernel.ReleaseInv` | Middlewares/FreeRTOS/Source/tasks.c:3162-3193 | releasing a waiter from an unordered event list keeps the invariant |
| `Kernel.ReleaseWakes` | Middlewares/FreeRTOS/Source/tasks.c:3162-3193 | a task released from an unordered event list is ready, neither asleep nor waiting nor parked, and nobody else is touched |
| `KernelSteps.PrioritySetInv` | Middlewares/FreeRTOS/Source/tasks.c:1532-1691 | vTaskPrioritySet keeps every task on the list of its own priority, also with an inherited priority |
| `KernelSteps.RequeuePartition` | Middlewares/FreeRTOS/Source/tasks.c:1651-1672 | a priority change moves a ready task between ready lists and leaves any other where it is, each live task staying on one list |
| `KernelSteps.InheritInv` | Middlewares/FreeRTOS/Source/tasks.c:3951-4031 | inheriting a priority keeps the scheduler invariant |
| `KernelSteps.DisinheritInv` | Middlewares/FreeRTOS/Source/tasks.c:4038-4111 | disinheriting keeps the scheduler invariant |
| `KernelSteps.DisinheritAfterTimeoutInv` | Middlewares/FreeRTOS/Source/tasks.c:4118-4213 | disinheriting after a timeout keeps the scheduler invariant |
| `KernelSteps.CreateInv` | Middlewares/FreeRTOS/Source/tasks.c:1072-1152 | a new task joins exactly one list |
| `KernelSteps.DeleteInv` | Middlewares/FreeRTOS/Source/tasks.c:1157-1242 | a deleted task leaves every list, or waits on the termination list if it is running |
| `KernelSteps.ReapInv` | Middlewares/FreeRTOS/Source/tasks.c:3578-3604 | freeing a terminated task keeps the invariant |
| `Schedule.TickAnswers` | Middlewares/FreeRTOS/Source/tasks.c:2683-2834 | with the scheduler running the tick asks for a switch if and only if one is pending, or a task whose time has come has at least the running task's priority, or two ready tasks have the running task's priority |
| `Schedule.TickManyMeans` | Middlewares/FreeRTOS/Source/tasks.c:2233-2255 | n pended ticks made up for one at a time come to what n ticks at once mean: exactly the sleepers due by then are ready, and a yield is due if one was, if they woke a rival, or if time is shared at the end |
| `Schedule.MovePendingWakes` | Middlewares/FreeRTOS/Source/tasks.c:2198-2203 | every task an interrupt parked is ready, and neither asleep nor waiting |
| `Schedule.ResumeWakes` | Middlewares/FreeRTOS/Source/tasks.c:2174-2281 | so it is when xTaskResumeAll has ended the last suspension, whatever ticks were pended |
| `Schedule.ResumeLosesNoYield` | Middlewares/FreeRTOS/Source/tasks.c:2204-2272 | if no ready task outranked the running one when the last suspension ends, or a yield was pending, the same holds of all the tasks readied since |
| `ScheduleRuns.StepRefines` | Middlewares/FreeRTOS/Source/tasks.c:123-148 | every kernel step, on its lists, does what it does to the described scheduler: sets of ready, sleeping, waiting, parked and terminated tasks in time that does not wrap, with priorities |
| `ScheduleRuns.EveryRunRefines` | Middlewares/FreeRTOS/Source/tasks.c:123-148 | so every run of the kernel from boot is a run of that scheduler, which ends in what the kernel's lists then mean |
| `ScheduleRuns.PrioritySetDoes` | Middlewares/FreeRTOS/Source/tasks.c:1532-1691 | the base priority becomes the one asked for, at most the highest, and so does the priority unless one is inherited; who is ready stays |
| `ScheduleRuns.NoWakeUpDropped` | Middlewares/FreeRTOS/Source/tasks.c:3094-3159 | over every run, a task taken off its event list is ready whenever the scheduler runs, and until then ready or parked, until a step is aimed at it |
| `ScheduleRuns.DeferredSwitchIsKept` | Middlewares/FreeRTOS/Source/tasks.c:2947-2955 | a switch asked for during a suspension leaves the running task, and a yield is pending over every run until the scheduler, running, switches |
| `KernelRuns.EffectInv` | Middlewares/FreeRTOS/Source/tasks.c:123-148 | every kernel step keeps the scheduler invariant |
| `KernelRuns.AlwaysPartitioned` | Middlewares/FreeRTOS/Source/tasks.c:123-148 | in every reachable state each live task is on exactly one state list once, ready lists hold their own priority, and none above the recorded top is used |
| `KernelRuns.AlwaysRunsHighest` | Middlewares/FreeRTOS/Source/tasks.c:2947-3017 | after any run, a switch ends on a ready task of maximal priority |
| `KernelRuns.NoSwitchMissed` | Middlewares/FreeRTOS/Source/tasks.c:2754-2834 | a tick that asks for no switch leaves nobody ready above the running task, nor an equal to share time with |
| `KernelRuns.NoTickLost` | Middlewares/FreeRTOS/Source/tasks.c:2204-2262 | over any run processed plus pended ticks are exactly the ticks that came, none pended while the scheduler runs |
| `KernelTime.FallsAsleep` | Middlewares/FreeRTOS/Source/tasks.c:5081-5190 | the running task that delays or blocks for d ticks sleeps until d ticks from now, and no time passes meanwhile |
| `KernelTime.WakesOnTime` | Middlewares/FreeRTOS/Source/tasks.c:2665-2773 | over any run not aimed at it, a task that sleeps until w is asleep before processed tick w and ready from w on, across wraps and suspensions |
| `KernelTime.SomebodyAlwaysReady` | Middlewares/FreeRTOS/Source/tasks.c:133-148 | unless the idle task is put to sleep or deleted, after any run some task is ready, so the search that asserts it ends, and a switch ends on a ready task of maximal priority |
| `Tasks.Scheduler.Count` | Middlewares/FreeRTOS/Source/tasks.c:198-210 | the tick is counted and at a wrap the two lists swap roles, as the specification says |
| `Tasks.Scheduler.ResetNextTaskUnblockTime` | Middlewares/FreeRTOS/Source/tasks.c:3880-3901 | the next unblock time becomes the first time of the current list, or portMAX_DELAY |
| `Tasks.Scheduler.SelectHighestPriorityTask` | Middlewares/FreeRTOS/Source/tasks.c:133-148 | the search loop and the advance compute the specified selection |
| `Tasks.Scheduler.WakeDue` | Middlewares/FreeRTOS/Source/tasks.c:2698-2774 | the waking loop readies exactly the due tasks, in order, and records the next time |
| `Tasks.Scheduler.IncrementTick` | Middlewares/FreeRTOS/Source/tasks.c:2665-2834 | the whole new scheduler state and the answer are those of the specified tick |
| `Tasks.Scheduler.SwitchContext` | Middlewares/FreeRTOS/Source/tasks.c:2947-3017 | the new state is that of the specified switch; during a suspension the task stays and a yield is pending |
| `Tasks.Scheduler.RemoveFromEventList` | Middlewares/FreeRTOS/Source/tasks.c:3094-3159 | the new state is that of the specified unblocking; the task waits no longer and is ready, or parked during a suspension, and nobody else is touched; the answer is whether it outranks the running task |
| `Tasks.Scheduler.AddCurrentTaskToDelayedList` | Middlewares/FreeRTOS/Source/tasks.c:5153-5185 | the running task moves to the list its wake time belongs to, and the next unblock time follows |
| `Tasks.Scheduler.MovePendingReady` | Middlewares/FreeRTOS/Source/tasks.c:2198-2215 | the first loop of xTaskResumeAll leaves nobody parked, and everybody who was is ready and not asleep |
| `Tasks.Scheduler.ReplayPendedTicks` | Middlewares/FreeRTOS/Source/tasks.c:2232-2256 | the second loop replays every pended tick |
| `Tasks.Scheduler.ResumeAll` | Middlewares/FreeRTOS/Source/tasks.c:2174-2281 | the whole new state is that of the specified resume; once the scheduler runs every task that was parked is ready and not asleep, and the answer is whether it runs with a yield pending |
| `Tasks.Scheduler.PriorityInherit` | Middlewares/FreeRTOS/Source/tasks.c:3951-4031 | the new state and the answer are those of the specified inheritance |
| `Tasks.Scheduler.PriorityDisinherit` | Middlewares/FreeRTOS/Source/tasks.c:4038-4111 | the new state and the answer are those of the specified disinheritance |
| `TimeOuts.CheckIsExact` | Middlewares/FreeRTOS/Source/tasks.c:3216-3276 | a check at most 2^32 ticks after entry reads the true elapsed time |
| `TimeOuts.TimeOutIsExact` | Middlewares/FreeRTOS/Source/tasks.c:3208-3276 | over repeated checks paced by at most 2^32 ticks, expiry is reported at exactly the first check with the whole wait elapsed, and until then remaining plus elapsed is the original wait |
| `TimeOuts.MissesExactly` | Middlewares/FreeRTOS/Source/tasks.c:3216-3276 | an expiry is missed if and only if the elapsed time less whole turns is below the wait again and the tick reads lower than at entry or the count of turns has itself come around |
| `TimeOuts.OneTickTooFar` | Middlewares/FreeRTOS/Source/tasks.c:3216-3276 | 2^32 + 1 ticks between checks is already too many: a concrete miss |
| `TimeOuts.TimeOut.CheckForTimeOut` | Middlewares/FreeRTOS/Source/tasks.c:3216-3276 | the method answers and updates as the specified check; on a timeout the stamp stays, and what is left is zero unless the clock has passed the entry tick again |
| `Mutexes.Conservation` | Middlewares/FreeRTOS/Source/queue.c:473-496 | in every reachable state messages plus holder is one for every mutex, a task counts exactly the mutexes naming it, and priority is at least the base, equal to it when none is held |
| `Mutexes.ForgottenOutside` | Middlewares/FreeRTOS/Source/queue.c:1421-1621 | over every run, only a task still inside its xQueueSemaphoreTake remembers that it made somebody inherit |
| `Mutexes.NextCons` | Middlewares/FreeRTOS/Source/queue.c:1442-1628 | every take, block, give, timeout, test after a timeout, give-up and return keeps the ledger and that waiting lists hold exactly the waiting tasks |
| `Mutexes.LetGoKeeps` | Middlewares/FreeRTOS/Source/queue.c:2079-2095 | the disinheriting part of a give keeps the ledger |
| `Mutexes.LastTestFailsExactly` | Middlewares/FreeRTOS/Source/queue.c:1486-1514 | a task that timed out, found the mutex available and tests it again comes to an assertion that nobody inherited from it: for any steps of the others in between, that fails if and only if somebody did and the mutex is held by then, and never unless another task took it meanwhile |
| `AssertionRun.InheritanceOutlivesTimeout` | Middlewares/FreeRTOS/Source/queue.c:1486-1514 | a run of 19 steps, from tasks that have used no mutex, after which that assertion fails |
| `MutexPriority.InversionIsBounded` | Middlewares/FreeRTOS/Source/queue.c:1442-1628 | in every state of a run without a give of the kind below the holder has at least the priority of every task waiting for its mutex |
| `MutexPriority.TakeInvertsExactly` | Middlewares/FreeRTOS/Source/queue.c:842-870 | after a give and a take the new holder is below a task waiting for its mutex if and only if, before the give, the giver was about to lose its inherited priority while waking somebody no higher than its base and while somebody above its base waited for the mutex then taken, which was available |
| `MutexPriority.GiveStaysAheadExactly` | Middlewares/FreeRTOS/Source/queue.c:842-870 | a give leaves the running task at or above the first waiter of every available mutex, or a yield asked for, if and only if it is not such a give |
| `InversionRun.HolderBelowWaiter` | Middlewares/FreeRTOS/Source/queue.c:838-872 | a run of 19 steps, from tasks that have used no mutex, after which task 0 of priority 1 holds a mutex that task 2 of priority 3 waits for |
| `MutexPriority.UnusedInv` | Middlewares/FreeRTOS/Source/queue.c:473-496 | tasks that have used no mutex yet satisfy the invariant those runs start from |
| `MutexPriority.NextBounded` | Middlewares/FreeRTOS/Source/tasks.c:3951-4213 | every step keeps the holder at or above the first waiter |
| `MutexCalls.InheritAgrees` | Middlewares/FreeRTOS/Source/tasks.c:3951-4031 | the scheduler and the mutex model inherit the same priority, and answer alike whether somebody inherited |
| `MutexCalls.DisinheritAgrees` | Middlewares/FreeRTOS/Source/tasks.c:4038-4111 | the scheduler and the mutex model disinherit the same priority, and ask for a yield in the same cases |
| `MutexCalls.DropAgrees` | Middlewares/FreeRTOS/Source/tasks.c:4118-4213 | the scheduler and the mutex model drop to the same priority after a timeout |
| `MutexCalls.BlockJoins` | Middlewares/FreeRTOS/Source/queue.c:1535-1560 | after blocking the holder has at least the caller's priority, no other priority changed, and the caller is in line, in priority order |
| `MutexCalls.GiveGives` | Middlewares/FreeRTOS/Source/queue.c:838-872 | after a give the mutex is free, its first waiter is on its way to it, and the giver has what it held besides or its base; with no yield asked for it is no less urgent than that waiter |
| `MutexCalls.GiveUpLeaves` | Middlewares/FreeRTOS/Source/queue.c:1596-1616 | after a timeout that found the mutex held, whoever holds it by then: if the caller made somebody inherit, a holder of one mutex has the larger of its base and the first waiter's priority; one of several keeps its own, and so does everybody else, and everybody if the mutex is free or nobody inherited |
| `MutexCalls.MutexQueues.TryTake` | Middlewares/FreeRTOS/Source/queue.c:1442-1514 | keeps the ledger, succeeds exactly when nobody holds the mutex, otherwise changes nothing or, once the wait is over, leaves; answers whether the assertion made then holds |
| `MutexCalls.MutexQueues.WaitForMutex` | Middlewares/FreeRTOS/Source/queue.c:1535-1560 | keeps the ledger and the waiting lines; the holder is no less urgent than the caller, who has joined the line |
| `MutexCalls.MutexQueues.GiveMutex` | Middlewares/FreeRTOS/Source/queue.c:838-872 | keeps the ledger and the waiting lines; the mutex is free and the giver outranked by the task it woke only if a yield is asked for |
| `MutexCalls.MutexQueues.TestAfterTimeout` | Middlewares/FreeRTOS/Source/queue.c:1584-1594 | finds the mutex empty exactly when somebody holds it, keeps the ledger and changes nothing but where the caller goes next |
| `MutexCalls.MutexQueues.LeaveAfterTimeout` | Middlewares/FreeRTOS/Source/queue.c:1596-1616 | keeps the ledger and the waiting lines, whoever holds the mutex by then; only the holder's priority may change, and never below its base |
| `RecursiveMutexes.NestingIsExclusive` | Middlewares/FreeRTOS/Source/queue.c:596-686 | however calls interleave around the unprotected count, only the holder has takes outstanding, the count is their number and never goes below 0, and the mutex is available exactly when nobody holds it |
| `RecursiveMutexes.RecursiveMutex.TakeMutexRecursive` | Middlewares/FreeRTOS/Source/queue.c:651-686 | succeeds exactly for the holder or on a free mutex, and nests one deeper |
| `RecursiveMutexes.RecursiveMutex.GiveMutexRecursive` | Middlewares/FreeRTOS/Source/queue.c:596-644 | succeeds exactly for the holder, and releases the mutex exactly with the last nested take |
| `QueueLock.NoWakeUpIsLost` | Middlewares/FreeRTOS/Source/queue.c:1297-1410 | in every reachable unlocked state, while a receiver waits there are at most as many messages as receivers woken and not yet back, and dually for senders, for any interleaving with interrupts |
| `QueueLock.BlocksExactly` | Middlewares/FreeRTOS/Source/queue.c:1368-1387 | a task that has locked the queue goes on to block if and only if it is still empty, or full for a sender; it is then in line at the place given to it, with nobody else moved |
| `QueueLock.TimeOutLeaves` | Middlewares/FreeRTOS/Source/tasks.c:2724-2748 | a task whose wait times out leaves its line, and nobody else does |
| `QueueLock.NextKeeps` | Middlewares/FreeRTOS/Source/queue.c:2167-2284 | every critical section of tasks, the lock holder and interrupts keeps the debt: messages at most woken receivers plus counted posts |
| `QueueLock.WakeReceiversEffect` | Middlewares/FreeRTOS/Source/queue.c:2180-2249 | the unlock loop wakes one receiver per counted post or leaves none waiting |
| `QueueLock.FirstReceiversWoken` | Middlewares/FreeRTOS/Source/queue.c:2180-2249 | those the unlock loop wakes are the first in line, as many as posts were counted, and they alone |
| `QueueLock.FirstSendersWoken` | Middlewares/FreeRTOS/Source/queue.c:2255-2284 | the same for senders and counted receives |
| `QueueLock.MessagesBalance` | Middlewares/FreeRTOS/Source/queue.c:780-876 | over every run of tasks and interrupts the messages in the queue are those put in less those taken out, and never more than it holds |
| `QueueLock.WakeUpLostExactly` | Middlewares/FreeRTOS/Source/queue.c:1087-1092 | for a receiver that blocks with n posts by interrupts after it found the queue empty: a message is left with somebody waiting and nobody woken for it if and only if more wait than the wrapped count wakes and fewer were woken than there are messages |
| `QueueLock.LoneReceiver` | Middlewares/FreeRTOS/Source/queue.c:1087-1092 | so a lone receiver on an empty queue loses its wake-up if and only if n exceeds 127 |
| `QueueLock.SenderLostExactly` | Middlewares/FreeRTOS/Source/queue.c:1854-1862 | the mirror image for a sender that blocks with n receives by interrupts after it found the queue full: a free place is left with somebody waiting and nobody woken for it if and only if more wait than the wrapped count wakes and fewer were woken than there are places |
| `QueueLock.Queue.LockQueue` | Middlewares/FreeRTOS/Source/queue.c:240-252 | keeps the invariant; both counts are at zero, so that interrupts count from here on |
| `QueueLock.Queue.UnlockTxHalf` | Middlewares/FreeRTOS/Source/queue.c:2175-2253 | keeps the invariant; wakes the first in line, one for every counted post; while a receiver still waits, somebody is awake for every message |
| `QueueLock.Queue.UnlockRxHalf` | Middlewares/FreeRTOS/Source/queue.c:2255-2284 | keeps the invariant; wakes the first senders in line, one for every counted receive; no wake-up is owed to anybody |
| `QueueLock.Queue.SendFromIsr` | Middlewares/FreeRTOS/Source/queue.c:990-1092 | accepts unless full or overwriting; unlocked it wakes the first receiver in line, locked it wakes nobody and is counted; keeps the invariant while the count is below 127 |
| `QueueLock.Queue.ReceiveFromIsr` | Middlewares/FreeRTOS/Source/queue.c:1814-1862 | takes one unless empty; unlocked it wakes the first sender in line, locked it wakes nobody and is counted; keeps the invariant while the count is below 127 |
| `QueueRing.Queue.constructor` | Middlewares/FreeRTOS/Source/queue.c:255-268 | a new queue is empty and the write index is the read index plus one |
| `QueueRing.Queue.CopyToBack` | Middlewares/FreeRTOS/Source/queue.c:2096-2108 | the item is appended, and write index = read index + 1 + messages, around the ring, still holds |
| `QueueRing.Queue.CopyToFront` | Middlewares/FreeRTOS/Source/queue.c:2109-2143 | the item comes first, or replaces the only one |
| `QueueRing.Queue.Send` | Middlewares/FreeRTOS/Source/queue.c:780-876 | accepts unless full or overwriting; the contents become the deque with the item at the back, at the front, or alone |
| `QueueRing.Queue.Receive` | Middlewares/FreeRTOS/Source/queue.c:1297-1313 | takes exactly the first item, or answers that there is none |
| `QueueRing.Queue.Peek` | Middlewares/FreeRTOS/Source/queue.c:1667-1676 | answers the first item and leaves contents and positions unchanged |
| `QueueRing.BackItem` | Middlewares/FreeRTOS/Source/queue.c:2098-2103 | writing the slot after the last item appends to the sequence read around the ring |
| `QueueRing.FrontItem` | Middlewares/FreeRTOS/Source/queue.c:2111-2116 | writing the slot last read from prepends to it |
| `QueueRing.WriteSlot` | Middlewares/FreeRTOS/Source/queue.c:2098-2111 | copying a slot-sized run of bytes changes that slot and no other |
| `Timers.InsertIsExact` | Middlewares/FreeRTOS/Source/timers.c:668-706 | for a command issued less than one turn ago, "process now" exactly when the expiry has come; otherwise the current list for an expiry in this turn and the overflow list for one in the next |
| `Timers.WithinIsLessThanATurn` | Middlewares/FreeRTOS/Source/timers.c:645-665 | clock readings whose turns differ by at most one lie within one turn exactly when the later reads as the daemon assumes |
| `Timers.ExpireAtSwitchBase` | Middlewares/FreeRTOS/Source/timers.c:857-907 | every turn of the switching loop shrinks the sum of 2^32 less the item values, so the loop ends |
| `Timers.Drain` | Middlewares/FreeRTOS/Source/timers.c:857-907 | after the switching loop the list is empty and the daemon still in order |
| `Timers.ProcessExpiredKeeps` | Middlewares/FreeRTOS/Source/timers.c:482-520 | an expired auto-reload timer is called once and pending once, at the next expiry |
| `Timers.ExpireAtSwitchKeeps` | Middlewares/FreeRTOS/Source/timers.c:868-907 | the same for expiries caught up with while the lists switch |
| `Timers.ProcessCommandKeeps` | Middlewares/FreeRTOS/Source/timers.c:709-854 | a command processed late, for this timer or another, keeps a timer on its schedule |
| `Timers.SampleKeeps` | Middlewares/FreeRTOS/Source/timers.c:645-665 | sampling the time, with or without a switch of the lists, keeps a timer on its schedule |
| `Timers.StartSchedules` | Middlewares/FreeRTOS/Source/timers.c:381-421 | a start command puts an idle auto-reload timer on schedule from its time of issue |
| `Timers.NoExpiryLostOrDuplicated` | Middlewares/FreeRTOS/Source/timers.c:482-520 | over any run without commands for it, the k-th callback of a timer of period p started at s lies between s + k p and now, and a settled daemon has made as many as there are expiries up to now, neither more nor fewer |
| `TimerCommands.CommandExactly` | Middlewares/FreeRTOS/Source/timers.c:709-854 | one command, in unbounded time: a start lists its timer once, for its due time, or calls it now if that has come, with the next start queued if it reloads; a stop leaves it on no list; a change of period lists it once, one new period from now; and no call or command for it besides |
| `TimerCommands.ExpiredExactly` | Middlewares/FreeRTOS/Source/timers.c:482-520 | the timer at the head is called once, now, and is then pending once, one period later, if it reloads, and nowhere if not |
| `TimerCommands.SwitchedExactly` | Middlewares/FreeRTOS/Source/timers.c:857-907 | the same for a timer caught up with while the lists switch |
| `TimerCommands.StopIsFinal` | Middlewares/FreeRTOS/Source/timers.c:801-805 | over every run after a stop was carried out, with no later command for it, a timer is on no list and is never called |
| `TimerCommands.OneShotCalledOnce` | Middlewares/FreeRTOS/Source/timers.c:482-520 | over every run without commands for it a one-shot timer pending once is called at most once, at its due time or after, and is then pending nowhere; a settled daemon has called it if its time has come |
| `TimerProgress.PollExactly` | Middlewares/FreeRTOS/Source/timers.c:559-584 | unless the tick has wrapped, a poll expires the head of the list if and only if it has come due, and otherwise only notes the time |
| `TimerProgress.CatchesUp` | Middlewares/FreeRTOS/Source/timers.c:482-854 | left to itself at any time the daemon has nothing due and no command queued after a bounded number of turns, late timers and the starts they post included |
| `TimerProgress.CalledExactlyWhenDue` | Middlewares/FreeRTOS/Source/timers.c:482-854 | and it has then called an auto-reload timer exactly as often as it has expired by now |
| `TimerProgress.OneShotCalledWhenDue` | Middlewares/FreeRTOS/Source/timers.c:482-854 | and a one-shot timer if and only if its time has come |
| `TimerTask.TimerDaemon.InsertTimerInActiveList` | Middlewares/FreeRTOS/Source/timers.c:668-706 | less than a turn late, the answer is whether the expiry has come in unbounded time, and if not the timer is put in order into the list of the turn it expires in and into no other |
| `TimerTask.TimerDaemon.ProcessExpiredTimer` | Middlewares/FreeRTOS/Source/timers.c:482-520 | the head timer is called once, now, leaves the list, and is pending one period later if and only if it reloads |
| `TimerTask.TimerDaemon.SwitchTimerLists` | Middlewares/FreeRTOS/Source/timers.c:857-913 | the loop drains the current list as specified and swaps the lists |
| `TimerTask.TimerDaemon.SampleTimeNow` | Middlewares/FreeRTOS/Source/timers.c:645-665 | the lists are switched exactly when the tick reads lower than last time |
| `TimerTask.TimerDaemon.ProcessTimerOrBlockTask` | Middlewares/FreeRTOS/Source/timers.c:559-584 | the head timer is expired unless the lists were switched |
| `TimerTask.TimerDaemon.ProcessReceivedCommand` | Middlewares/FreeRTOS/Source/timers.c:709-854 | one command is carried out as specified: a start lists or calls its timer, a stop leaves it on no list, a change of period lists it one new period from now |
| `TimerTask.TimerDaemon.ProcessReceivedCommands` | Middlewares/FreeRTOS/Source/timers.c:716-854 | with no time passing the loop ends, with the queue empty, though late starts post further ones |
| `EventGroups.PackRoundTrip` | Middlewares/FreeRTOS/Source/event_groups.c:361-397 | the bits waited for, clear-on-exit and wait-for-all survive packing into the item value |
| `EventGroups.NoSatisfiedWaiter` | Middlewares/FreeRTOS/Source/event_groups.c:519-610 | after any sets, clears, waits, meetings and timeouts no waiter's condition is met by the bits |
| `EventGroups.WalkIgnoresOrder` | Middlewares/FreeRTOS/Source/event_groups.c:546-600 | whom a set releases and which bits it clears do not depend on list order |
| `EventGroups.ReleasedAreSatisfied` | Middlewares/FreeRTOS/Source/event_groups.c:552-591 | every released waiter is told bits that meet its condition |
| `EventGroups.TestIsMonotone` | Middlewares/FreeRTOS/Source/event_groups.c:671-703 | clearing bits never meets a condition |
| `EventGroups.TestExactly` | Middlewares/FreeRTOS/Source/event_groups.c:671-703 | the condition for all bits holds if and only if no part of them is missing altogether, and the one for any bit if and only if some part of them is there |
| `EventGroups.ToClearExactly` | Middlewares/FreeRTOS/Source/event_groups.c:552-605 | the bits the walk collects are exactly those that released waiters with clear-on-exit waited for: all of them, and none outside |
| `EventGroups.SetsExactly` | Middlewares/FreeRTOS/Source/event_groups.c:519-610 | from the waiters alone: the bits such a waiter waited for are gone afterwards, every other bit that was or is set stays, exactly the waiters whose condition is met are released and the others stay |
| `EventGroups.NobodyAsks` | Middlewares/FreeRTOS/Source/event_groups.c:580-605 | with no released waiter that asked to clear, every bit stays |
| `EventGroups.NextExactly` | Middlewares/FreeRTOS/Source/event_groups.c:191-610 | every step changes bits and list as described and in no other way: a set, a clear, a wait that clears exactly when met and asked to and otherwise joins the list as asked, a rendezvous, a timeout, and the test after it |
| `EventGroups.MeetKeeps` | Middlewares/FreeRTOS/Source/event_groups.c:191-249 | a synchronisation leaves no satisfied waiter |
| `EventGroups.EventGroup.WalkList` | Middlewares/FreeRTOS/Source/event_groups.c:546-605 | the loop unlinks the waiters whose condition is met, and collects exactly the bits that those with clear-on-exit waited for |
| `EventGroups.EventGroup.SetEventBits` | Middlewares/FreeRTOS/Source/event_groups.c:519-610 | no satisfied waiter is left, exactly the satisfied ones are released and told bits that meet their condition; exactly the bits they asked to clear are gone, and the answer is what is left |
| `EventGroups.EventGroup.WaitForBits` | Middlewares/FreeRTOS/Source/event_groups.c:329-397 | a wait that is met clears exactly its bits if and only if asked to; one that is not joins the list as asked if it may block; no satisfied waiter is left, and the answer is the bits as they were |
| `EventGroups.EventGroup.ClearEventBits` | Middlewares/FreeRTOS/Source/event_groups.c:461-485 | answers the bits as they were; exactly the given bits go, the others stay, and no waiter is satisfied |
| `EventGroups.EventGroup.Synchronise` | Middlewares/FreeRTOS/Source/event_groups.c:191-249 | sets as a set does, then clears exactly its bits if all were there, and otherwise waits for all of them with clear-on-exit; no satisfied waiter is left, and the answer holds the bits exactly when all were set |
| `StreamBuffers.BytesIn` | Middlewares/FreeRTOS/Source/stream_buffer.c:1189-1206 | the count leads from the tail to the head around the ring |
| `StreamBuffers.Spaces` | Middlewares/FreeRTOS/Source/stream_buffer.c:470-491 | one place is always kept free |
| `StreamBuffers.StreamBuffer.WriteBytes` | Middlewares/FreeRTOS/Source/stream_buffer.c:1088-1131 | one or two copies append exactly the data to the unread bytes |
| `StreamBuffers.StreamBuffer.ReadBytes` | Middlewares/FreeRTOS/Source/stream_buffer.c:1134-1186 | takes exactly the first bytes, as many as wanted and available |
| `StreamBuffers.StreamBuffer.SendStream` | Middlewares/FreeRTOS/Source/stream_buffer.c:661-710 | a stream send appends the longest prefix that fits |
| `StreamBuffers.StreamBuffer.SendMessage` | Middlewares/FreeRTOS/Source/stream_buffer.c:661-710 | a message is appended whole, or nothing changes |
| `StreamBuffers.StreamBuffer.ReceiveMessage` | Middlewares/FreeRTOS/Source/stream_buffer.c:918-967 | the first message comes out whole, or it does not fit the caller and the messages stay as they were |
| `StreamBuffers.FrameAppend` | Middlewares/FreeRTOS/Source/stream_buffer.c:684-702 | framing a longer sequence appends one length and one message |
| `StreamBuffers.LengthRoundTrip` | Middlewares/FreeRTOS/Source/stream_buffer.c:926-933 | a message length survives its four bytes |
| `StreamProtocol.EveryInterleaving` | Middlewares/FreeRTOS/Source/stream_buffer.c:1088-1186 | under every interleaving of one writer and one reader what is received is a prefix of what is sent, and the rest lies unread in the ring, at most its length less one |
| `StreamProtocol.BeginsExactly` | Middlewares/FreeRTOS/Source/stream_buffer.c:661-710 | a send begins with as much of its data, from the front, as there is room for, and a receive with as many bytes as are wanted and unread; nothing else changes |
| `StreamProtocol.SentAsOffered` | Middlewares/FreeRTOS/Source/stream_buffer.c:661-710 | from an empty buffer, under every interleaving, what is sent is one piece from the front of each offer, in the order of the offers, and what is received is a prefix of it |
| `StreamProtocol.NoUnreadByteOverwritten` | Middlewares/FreeRTOS/Source/stream_buffer.c:1088-1131 | no byte stored by the writer falls on an unread byte |
| `StreamProtocol.StartKeeps` | Middlewares/FreeRTOS/Source/stream_buffer.c:1209-1233 | an empty buffer satisfies the invariant those runs start from |
| `StreamProtocol.StoreKeeps` | Middlewares/FreeRTOS/Source/stream_buffer.c:1101-1112 | storing ahead of the head disturbs neither unread bytes nor what the reader has loaded |
| `StreamProtocol.PublishTailKeeps` | Middlewares/FreeRTOS/Source/stream_buffer.c:1169-1178 | publishing the tail keeps the invariant |
| `PtpTime.NormalFormIsUnique` | Middlewares/ptpd-v2.0.0/src/arith.c:61-76 | a number of nanoseconds has one sign-consistent normal form |
| `PtpTime.ModerateTimesFit` | Middlewares/ptpd-v2.0.0/src/arith.c:61-92 | normal times below 2^30 seconds keep every intermediate within 32 bits |
| `PtpTime.TimeInternal.Normalize` | Middlewares/ptpd-v2.0.0/src/arith.c:61-76 | the result is the normal form of the same number of nanoseconds, without overflow |
| `PtpTime.TimeInternal.Add` | Middlewares/ptpd-v2.0.0/src/arith.c:78-84 | the normal form of the exact sum, also when the result is an operand |
| `PtpTime.TimeInternal.Subtract` | Middlewares/ptpd-v2.0.0/src/arith.c:86-92 | the normal form of the exact difference, also when the result is an operand |
| `PtpTime.TimeInternal.Halve` | Middlewares/ptpd-v2.0.0/src/arith.c:94-101 | the normal form of half, truncated toward zero |
| `PtpTime.TimeInternal.FromScaled` | Middlewares/ptpd-v2.0.0/src/arith.c:5-25 | the normal form of x / 2^16 truncated toward zero, for every int64 but the least |
| `Bmc.CompareReverse` | Middlewares/ptpd-v2.0.0/src/bmc.c:241-360 | swapping the records changes the sign, for all inputs |
| `Bmc.CompareIsKeyOrder` | Middlewares/ptpd-v2.0.0/src/bmc.c:241-360 | for records consistent about their grandmaster the comparison is the reversed byte order of one key, except that an echo of the own clock ties |
| `Bmc.CompareIsAnOrder` | Middlewares/ptpd-v2.0.0/src/bmc.c:241-360 | without echoes it is transitive and ties exactly on equal grandmaster, distance and sender |
| `Bmc.ScanIsExtremal` | Middlewares/ptpd-v2.0.0/src/bmc.c:408-423 | the scan ends at the first record against which none compares negative |
| `Bmc.ScanPicksLargestKey` | Middlewares/ptpd-v2.0.0/src/bmc.c:408-423 | so the chosen record has the largest key |
| `Bmc.ScanFindsBestExactlyOnTies` | Middlewares/ptpd-v2.0.0/src/bmc.c:408-423 | it is the best master, as the code reads the records, if and only if all records tie |
| `Bmc.ScanPicksTheWorse` | Middlewares/ptpd-v2.0.0/src/bmc.c:408-423 | of two masters of priority 1 and 2 it chooses the second: a concrete input |
| `Bmc.DecisionBeatsSome` | Middlewares/ptpd-v2.0.0/src/bmc.c:363-404 | master is recommended exactly when the local clock reads before some foreign master; else passive or slave by clock class |
| `Bmc.ListensExactly` | Middlewares/ptpd-v2.0.0/src/bmc.c:367-370 | the port is told to listen if and only if it does and has heard of nobody |
| `Bmc.MisreadExactly` | Middlewares/ptpd-v2.0.0/src/bmc.c:251-312 | the code's order of two records is the standard's, which reads both 16-bit fields unsigned, if and only if they do not first differ in such a field with opposite signs |
| `Bmc.DecisionMeetsStandardExactly` | Middlewares/ptpd-v2.0.0/src/bmc.c:363-426 | "master exactly when better than every foreign master" holds if and only if: better than all, and not all misread; or not better than all, and misread are exactly those it is better than |
| `Bmc.AllOrNone` | Middlewares/ptpd-v2.0.0/src/bmc.c:363-426 | with nothing misread, if and only if the local clock is better than all or than none |
| `Bmc.LargestVarianceWins` | Middlewares/ptpd-v2.0.0/src/bmc.c:251-312 | a foreign master alike but for the variance 0xFFFF, the worst there is, makes the local clock slave: a concrete input |
| `Bmc.SamePort` | Middlewares/ptpd-v2.0.0/src/bmc.c:88-91 | equality of clock and port identity |
| `Bmc.ChosenBeatenExactly` | Middlewares/ptpd-v2.0.0/src/bmc.c:408-423 | the local clock precedes the chosen record exactly when it precedes some record |
| `ForeignMasters.SearchFindsExactly` | Middlewares/ptpd-v2.0.0/src/bmc.c:98-115 | the search looks at the best slot and at every listed slot but the one the best wraps to, and finds a port there exactly when one of these holds it |
| `ForeignMasters.ListedOnceExactly` | Middlewares/ptpd-v2.0.0/src/bmc.c:93-139 | an announcement lists a port twice if and only if the best is stale, wraps to that port's own slot and is not itself a record of it |
| `ForeignMasters.ListedExactly` | Middlewares/ptpd-v2.0.0/src/bmc.c:93-139 | an announcement leaves its port unlisted if and only if the best is stale and a record of that port and the port was not listed |
| `ForeignMasters.AnnouncedIsListed` | Middlewares/ptpd-v2.0.0/src/bmc.c:93-139 | unless the best is stale the port is listed with this announcement, nobody twice, and only the slot whose turn it is in a full table gives anybody up |
| `ForeignMasters.ForeignMasterDS.Find` | Middlewares/ptpd-v2.0.0/src/bmc.c:98-115 | the loop ends where the specified search does |
| `ForeignMasters.ForeignMasterDS.AddForeign` | Middlewares/ptpd-v2.0.0/src/bmc.c:93-139 | the new table is the specified one |
| `ForeignMasters.ForeignMasterDS.ExpireAll` | Middlewares/ptpd-v2.0.0/src/protocol.c:402-403 | nobody is listed any more, and unless the first slot was the best the next port to announce itself finds the choice of best stale |
| `ForeignMasters.ForeignMasterDS.RunBmc` | Middlewares/ptpd-v2.0.0/src/bmc.c:408-426 | the loop computes the specified scan, and the answer is the state decision about its result |
| `PtpPort.EveryRun` | Middlewares/ptpd-v2.0.0/src/protocol.c:51-447 | over every run of doState the state alone fixes which protocol timers run, and a slave-only or class 255 port is never MASTER or PASSIVE |
| `PtpPort.ToStateKeeps` | Middlewares/ptpd-v2.0.0/src/protocol.c:51-214 | every state change the code makes keeps that |
| `PtpPort.ActKeeps` | Middlewares/ptpd-v2.0.0/src/protocol.c:368-446 | the actions of a state keep that |
| `PtpPort.HandleIsQuiet` | Middlewares/ptpd-v2.0.0/src/protocol.c:451-586 | no message moves the port anywhere but to FAULTY, or otherwise starts or stops a timer |
| `PtpTransitions.ArrivesExactly` | Middlewares/ptpd-v2.0.0/src/protocol.c:246-366 | the state in which doState comes to act, by a table of the state it found, the recommendation, and whether the servo selected a clock or the slave was disturbed; with the events that are spent |
| `PtpTransitions.HandleExactly` | Middlewares/ptpd-v2.0.0/src/protocol.c:451-1372 | which messages make the port FAULTY: one too short for its type, or one whose response or delay request cannot be sent; all others leave its state; which ask for a state decision and which hand the events to the servo |
| `PtpTransitions.DoStateExactly` | Middlewares/ptpd-v2.0.0/src/protocol.c:242-447 | the state, recommendation and events every doState ends with, by what it found and what the environment does |
| `PtpTransitions.SilenceMakesMaster` | Middlewares/ptpd-v2.0.0/src/protocol.c:399-415 | a port in LISTENING, UNCALIBRATED, SLAVE or PASSIVE whose announce receipt timer runs out is MASTER, or LISTENING if it is slave-only or of class 255 |
| `PtpTransitions.DecisionLeads` | Middlewares/ptpd-v2.0.0/src/protocol.c:246-366 | with nothing else happening a pending decision leads to the state bmc recommends: LISTENING instead of MASTER or PASSIVE for a port that may not be master, and SLAVE only by way of UNCALIBRATED |
| `PtpPort.FaultRestartsExactly` | Middlewares/ptpd-v2.0.0/src/protocol.c:284-388 | a FAULTY port initialises again if and only if nothing was recommended since it last did |
| `PtpPort.NeverInitialisesAgain` | Middlewares/ptpd-v2.0.0/src/protocol.c:51-447 | over every run, a port that has once been initialised and advised never initialises again, whatever faults follow |
| `PtpPort.SendFailureSkipsRestart` | Middlewares/ptpd-v2.0.0/src/protocol.c:1345-1372 | a slave whose delay request cannot be sent leaves FAULTY without initialising: a run from power-on |
| `PtpPort.DecisionStaysPendingExactly` | Middlewares/ptpd-v2.0.0/src/protocol.c:246-282 | messages are handled with a state decision still pending if and only if doState found the port initialising or faulty |
| `PtpPort.FaultSkipsDecision` | Middlewares/ptpd-v2.0.0/src/protocol.c:246-282 | a master that measures peer delay (P2P, not the build's default) hears two announcements with no run of bmc between: a run from power-on |
| `PtpDaemon.NobodyListedTwice` | Middlewares/ptpd-v2.0.0/src/protocol.c:242-447 | over every run of doState with its foreign master table, from power-on and whatever fails on the way: if the delay mechanism is not P2P, or the port is slave-only or of class 255, or the table has one slot, nobody is listed twice and every Announce passed on is listed |
| `PtpDaemon.OneMasterTwice` | Middlewares/ptpd-v2.0.0/src/protocol.c:242-447 | in a P2P port that may be master with two slots or more, whatever its local clock, one master can be listed twice: a run from power-on |
| `PtpDaemon.ListedTwiceExactly` | Middlewares/ptpd-v2.0.0/src/protocol.c:242-447 | so no run lists a master twice if and only if the configuration is one of those |
| `PtpDaemon.DoStateListsTwiceExactly` | Middlewares/ptpd-v2.0.0/src/protocol.c:242-282 | a doState lists a master twice if and only if it does not run bmc first and passes on an announcement that lists its port twice |
| `PtpDaemon.PromptRunsListOnce` | Middlewares/ptpd-v2.0.0/src/protocol.c:242-282 | in any configuration, as long as no doState finds the port FAULTY with a state decision pending, nobody is listed twice and the choice of best is listed or about to be made again |
| `PtpDaemon.CoreKeeps` | Middlewares/ptpd-v2.0.0/src/protocol.c:242-447 | every doState keeps the table well formed, though initData leaves the turn where it was: until the port is first advised the table is untouched |
| `PtpProtocol.PtpClock.ToState` | Middlewares/ptpd-v2.0.0/src/protocol.c:51-214 | the new timers, state and recommendation are the specified ones |
| `PtpProtocol.PtpClock.Handle` | Middlewares/ptpd-v2.0.0/src/protocol.c:451-586 | keeps the invariant; the port is FAULTY exactly in the cases of the table and otherwise stays in its state with its timers and recommendation, and its events are those of the table |
| `PtpProtocol.PtpClock.HandleAnnounce` | Middlewares/ptpd-v2.0.0/src/protocol.c:589-657 | keeps the invariant; another clock's Announce asks for a state decision, a short one makes the port FAULTY, and neither starts or stops a timer otherwise |
| `PtpProtocol.PtpClock.IssueDelayReqTimerExpired` | Middlewares/ptpd-v2.0.0/src/protocol.c:1237-1270 | keeps the invariant; the port changes if and only if a request is due and cannot be sent, and then only to FAULTY |
| `PtpProtocol.PtpClock.DoState` | Middlewares/ptpd-v2.0.0/src/protocol.c:242-447 | keeps the invariant and with it the rules for timers and for ports that may not be master; state, recommendation and events are those of the table |
| `PtpProtocol.PtpClock.Serve` | Middlewares/ptpd-v2.0.0/src/ptpd.c:61-78 | the daemon loop: after any number of doState calls the rules hold, and the state is that of the specified run |

## Left out

- KernelRuns.EffectInv: event lists are modelled as the set of tasks on them; their order by item value is not, and
  vTaskPrioritySet does not restore it, so no claim is made that they stay sorted.
- MutexPriority.InversionIsBounded: excludes vTaskPrioritySet, deletion, and blocking on a mutex while holding
  another, since inheritance is not transitive.
- Mutexes.NextCons: a take or give made while the scheduler is suspended is not a step.
- Timers.NoExpiryLostOrDuplicated: the timer's status byte is not modelled, so xTimerIsTimerActive is not; commands
  are assumed to find room in the timer queue.
- QueueLock.WakeUpLostExactly: for one lock period and posts by interrupts; `QueueLock.SenderLostExactly` likewise.
- QueueLock.NoWakeUpIsLost: for runs of fewer than 128 interrupt operations per lock period, which is where the code
  itself stops keeping it; a woken task is not deleted before it looks at the queue again.
- StreamProtocol.EveryInterleaving: plain streams only; a message read moves the tail twice and may roll it back, so
  message operations are modelled as atomic. Trigger levels and the notifications that wake the other side are left
  out.
- ForeignMasters.AnnouncedIsListed: foreignMasterAnnounceMessages is never read by the code and is not modelled.
- Tasks.Scheduler: task control blocks are maps from handles to fields, and lists of tasks are sequences; the heap
  form of a list is proved once, in `Lists`.
- PtpTime.TimeInternal.FromScaled: the least int64, whose negation overflows in C, is excluded.
- StreamBuffers.StreamBuffer.SendMessage: messages are not empty; a zero-length send stores a length that the receiver
  does not take for a message.
- QueueRing.Queue.constructor: item size zero (semaphores) is modelled in `Mutexes` and `QueueLock`, where no bytes
  move.
- xQueueGenericReset while tasks wait, queue sets, the queue registry and vQueueDelete.
- Task notifications, vTaskSuspend and vTaskResume (disabled here), vTaskDelayUntil, tickless idle, run-time
  statistics, tracing, MPU wrappers, thread-local storage, stack set-up and memory allocation.
- list.h, queue.h and the PTP headers are not part of this model: their macros and types are modelled from their use.
- The port layer: how a requested yield becomes a context switch; the model ends where the code asks for one.
- xTimerPendFunctionCall and the timer calls that only read; vEventGroupDelete; the callbacks from interrupts, which
  post to the timer daemon what the modelled calls then do.
- floorLog2, fromInternalTime and toInternalTime of arith.c; m1, p1, s1 and the data sets they fill.
- The PTP servo, message packing, network and timer back end, which are not part of this model.
- croutine.c (compiled out), the LwIP and CMSIS-RTOS files, and app/src.
