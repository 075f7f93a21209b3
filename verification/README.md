# FreeRTOS kernel model

A Dafny model of the FreeRTOS V10.5.1 kernel in this repository, with proofs of its central promises. Every statement
is for all runs, all inputs and, where time is involved, across the wrap of the 32-bit tick counter.

## How it is built

- **Lists.** `KernelList.dfy` rewires the pointers of `list.c` and `list.h` as the code does, and proves each operation
  against the abstract ring of `Rings.dfy`. `RoundRobin.dfy` is about fairness of the walking index.
- **Scheduler.** `Kernel.dfy`, `KernelOps.dfy`, `KernelApi.dfy`, `KernelCalls.dfy` and `KernelTasks.dfy` are a
  specification of `tasks.c` with an unbounded clock, one list of timed waits and no cached values; `KernelRuns.dfy`
  proves its theorems over whole runs, each step one critical section or one call with the scheduler suspended, and
  interrupts anywhere in between. The class in `Scheduler.dfy` is the code: a tick that wraps, two delayed lists that
  are switched, the cached next unblock time and the cached top priority. Each of its methods ensures that the abstract
  state `Abs()` changes exactly as the specification's operation says and that `Valid()` is kept, so the theorems hold of
  it too. `DelayLists.dfy` joins the two delayed lists into one list of absolute times. `TimeBudget.dfy` has the
  arithmetic of timeouts and periodic delays. `KernelFairness.dfy` carries the bound of `RoundRobin.dfy` over to whole
  runs of the kernel, and `KernelWaking.dfy` says which waiting task is woken when.
- **Objects.** `Queue.dfy` (byte storage of a queue), `QueueLock.dfy` (blocking protocol between tasks and
  interrupts), `StreamBuffer.dfy` (stream and message buffers), `StreamRace.dfy` (their lock-free writer and reader),
  `MessageRace.dfy` (the same for whole messages), `StreamAlone.dfy` (what either side gets done undisturbed), `StreamWait.dfy` (how they wait for each other), `EventGroup.dfy` with
  `EventBits.dfy`, `TimerDaemon.dfy` (specification of the timer daemon and its runs) with the class in `TimerTask.dfy`,
  `Mutexes.dfy` (the same for mutexes) with the class in `MutexKernel.dfy`, `MutexRanks.dfy` (what priority inheritance
  achieves over whole runs). `Words.dfy`, `Slots.dfy` and `EventItems.dfy`
  hold 32-bit and modular arithmetic and the values of event list items.

Configuration as in `FreeRTOS-Kernel/include/FreeRTOSConfig.h`: preemption and time slicing on, generic task selection,
32-bit ticks, `INCLUDE_vTaskSuspend` on, tickless idle and queue sets off. Mutexes and timers are modelled as the code
compiled when their options are 1; the scheduler part is the code with mutexes off. The number of priorities is any
positive number. `configASSERT` only prints in this configuration, so an assertion is a precondition or is proved.
I/O, callbacks of the application, memory allocation and the contents of task functions are not part of the model;
handles of new tasks and the moments of interrupts are parameters.

## What the proofs found

Where a promise does not hold of the code as it stands, the model keeps the code, shows a case, and states exactly when
the promise holds.

- The comment on insert-end promises that every other item is visited before the new one. An item that the index
  comes to rest on because the running item was removed is overtaken by later insertions (`OvertakenWhileAtIndex`);
  `RankStep` says exactly when a waiting item falls back, and `BoundedWait` gives the bound that does hold.
- A queue reset wakes one sender although all places become free (`ResetStrandsSender`, `SendersCoveredExactly`).
- Overwriting a full queue of length one without an item size makes its count two (`OverwriteKeepsLength`).
- `xTaskCheckForTimeOut` can miss a timeout after 2^32 or more ticks (`LateCheckMissed`, `CheckRight`).
- `xTaskDelayUntil` called before the previous wake time takes the counter to have wrapped and may not delay
  (`EarlyCallSkipsDelay`, `EarlyCall`).
- `vTaskPrioritySet` on a task with an inherited priority can leave it running below its base priority
  (`RunsBelowBase`, `SetStaysAboveBase`).
- A reader that waits for the trigger level of a stream buffer and a writer that waits for space can wait for each
  other (`AsleepHappens`), exactly when the buffer is too small for both (`AsleepMeans`); with trigger level 1, as every
  message buffer is created with, they never do (`NeverBothAtOne`).
- The head of an event list is said to be its waiter of highest priority. A waiting task whose priority is changed
  stays where it stands, so it need not be (`RaisedWaiterStaysBehind`); `WaiterKeepsPlace` says exactly when it still
  is, and `HighestIsWoken` and `FirstComeFirstServed` what holds over the other runs.
- An inherited priority is not passed on to the holder a raised task waits for itself (`ChainInverts`), and setting the
  priority of a holder or of a waiting task can invert the two; `StepRanked` has the exact condition of every step, and
  `HoldersOutrankWaiters` what holds over the runs that keep to it.

## Model

| member | source | states |
|---|---|---|
| KernelList.List.constructor | FreeRTOS-Kernel/list.c:50-83 | an initialised list holds no item and its index rests on the end marker |
| KernelList.List.InsertEnd | FreeRTOS-Kernel/list.c:98-125 | the pointer writes put the item directly in front of the index and leave all other items in order |
| KernelList.List.Insert | FreeRTOS-Kernel/list.c:128-196 | the walk from the end marker ends, also for the greatest value, and the item lands behind every value not above its own |
| KernelList.List.Hook | FreeRTOS-Kernel/list.c:186-195 | the four pointer writes splice an item in behind the cursor and keep the whole ring linked both ways |
| KernelList.List.Adopt | FreeRTOS-Kernel/list.c:121-124 | remembering the container and counting completes the insertion on the abstract list |
| KernelList.List.OwnerOfNextEntry | FreeRTOS-Kernel/include/list.h:285-296 | one step round the ring, the end marker skipped; the owner of the item reached |
| KernelList.List.Bypass | FreeRTOS-Kernel/list.c:205-206 | the two pointer writes of a removal bypass the item and touch no other link |
| KernelList.List.Release | FreeRTOS-Kernel/list.c:221-222 | forgetting the container and counting completes the removal |
| KernelList.List.RemoveItem | FreeRTOS-Kernel/list.c:199-225 | the item leaves, the others keep their order, the index steps back if it stood on the item, and the count is returned |
| KernelList.Remove | FreeRTOS-Kernel/include/list.h:314-330 | an item finds its list through its container and leaves it, with the same effect as uxListRemove |
| KernelList.Spliced | FreeRTOS-Kernel/list.c:112-119 | a ring whose link behind one place runs through a new item is a ring with that item in that place |
| KernelList.Unspliced | FreeRTOS-Kernel/list.c:205-206 | a ring with one item bypassed is a ring without it |
| Rings.SortedInsert | FreeRTOS-Kernel/list.c:148-189 | a sorted insert keeps the order and goes behind exactly the values not above its own |
| Rings.RestingIndexIsQueue | FreeRTOS-Kernel/list.c:98-125 | a list that is never walked is a first-in first-out queue under insert-end |
| RoundRobin.RankStep | FreeRTOS-Kernel/include/list.h:285-296 | exactly when a waiting item's distance ahead of the index falls, stays or rises |
| RoundRobin.BoundedWait | FreeRTOS-Kernel/include/list.h:285-296 | over any mix of insertions, removals and next-entry steps an item that stays is selected within twice as many next-entry steps as the list ever holds items |
| RoundRobin.WaitStep | FreeRTOS-Kernel/include/list.h:354-377 | the measure behind the bound: no insertion or removal raises it, every next-entry step that does not select the item lowers it |
| RoundRobin.OvertakenWhileAtIndex | FreeRTOS-Kernel/list.c:212-215 | an item the index comes to rest on when the running item leaves is overtaken by later insertions, so the distance alone is no bound |
| Words.AddCrossesEpoch | FreeRTOS-Kernel/tasks.c:5339-5343 | a 32-bit wake time is below the tick exactly when it belongs to the next wrap |
| Words.SubIsElapsed | FreeRTOS-Kernel/tasks.c:3318 | the 32-bit difference of two ticks is the elapsed time modulo 2^32 |
| KernelOps.ExpireExact | FreeRTOS-Kernel/tasks.c:2754-2834 | the scan removes exactly the waits whose time has come |
| KernelOps.ExpireReadies | FreeRTOS-Kernel/tasks.c:2793-2808 | every task whose time has come is ready afterwards and off any event list |
| KernelOps.ExpireOthers | FreeRTOS-Kernel/tasks.c:2754-2834 | the scan changes no task that was not waiting for a time |
| KernelOps.ExpireTop | FreeRTOS-Kernel/tasks.c:2822-2830 | if the scan asks for no switch, no ready task is above the running one |
| KernelOps.TickOnceKeeps | FreeRTOS-Kernel/tasks.c:2731-2877 | one tick: the invariant, the waits that end are those for this very tick, a switch is due whenever a yield is pending, and without one no ready task is above the running one |
| KernelOps.TickAsks | FreeRTOS-Kernel/tasks.c:2809-2873 | a tick asks for a switch if and only if a yield is pending, a task whose wait ends with it is above the running one, or two tasks of the running one's priority are ready |
| KernelOps.SwitchContextKeeps | FreeRTOS-Kernel/tasks.c:3009-3080 | the task selected is ready and of maximum priority; while the scheduler is suspended the switch is only noted |
| KernelOps.WakeKeeps | FreeRTOS-Kernel/tasks.c:2199-2204 | waking a blocked task takes it off its state and event lists, touches no other task, and keeps the invariant |
| KernelApi.DrainKeeps | FreeRTOS-Kernel/tasks.c:2198-2217 | emptying the pending-ready list keeps the invariant and leaves it empty; a ready task above the running one is flagged |
| KernelApi.DrainWakes | FreeRTOS-Kernel/tasks.c:2194-2217 | every pending-ready task is woken and nobody else, and a switch is asked for exactly if one of them is at or above the running task |
| KernelApi.UnwindKeeps | FreeRTOS-Kernel/tasks.c:2233-2258 | the pended ticks are counted one by one: the tick rises by their number and exactly the waits it passes end |
| KernelApi.ResumeAllKeeps | FreeRTOS-Kernel/tasks.c:2174-2283 | tick plus pended ticks is unchanged; at nesting zero nothing is pending, nothing pended and every remaining wait is in the future, every task readied meanwhile is ready, the yield that was due has been made, no ready task is above the running one, and without a switch the same task runs on |
| KernelApi.CatchSwitches | FreeRTOS-Kernel/tasks.c:2201-2271 | the switch is made if and only if a yield was pending, a task readied meanwhile is at or above the running one, or one of the pended ticks asks for it |
| KernelApi.ResumeAllSpares | FreeRTOS-Kernel/tasks.c:2174-2283 | resuming keeps a wait exactly while its time is ahead of the tick |
| KernelApi.ResumeAllReadies | FreeRTOS-Kernel/tasks.c:2239-2252 | a wait whose time passes during the unwinding ends with its task ready |
| KernelApi.BlockKeeps | FreeRTOS-Kernel/tasks.c:5297-5369 | the running task, and nobody else, moves to the delayed list with wake time tick + n, or to the suspended list for an indefinite wait |
| KernelCalls.PlaceKeeps | FreeRTOS-Kernel/tasks.c:3083-3105 | the running task joins the event list behind exactly those of no lower priority, as their event values show it, and the list stays in order; its state item goes to the delayed list with wake time tick + n or, for ever, to the suspended list; the invariant is kept exactly if the wait is not of zero ticks |
| KernelCalls.PlaceUnorderedKeeps | FreeRTOS-Kernel/tasks.c:3108-3131 | the same for the unordered event list: the task is its last, with the value it was given |
| KernelCalls.SignalKeeps | FreeRTOS-Kernel/tasks.c:3169-3234 | the head of the event list leaves it and is ready or, while the scheduler is suspended, last of the pending-ready list; nobody else is touched, and a yield is asked for exactly if it is above the running task |
| KernelCalls.SignalUnorderedKeeps | FreeRTOS-Kernel/tasks.c:3237-3283 | the same for a given task on the unordered list, which is ready at once with the value it was given |
| KernelCalls.RestoreKeeps | FreeRTOS-Kernel/tasks.c:4658-4669 | the event value of the running task shows its priority again, and nothing else changes |
| KernelTasks.CreateKeeps | FreeRTOS-Kernel/tasks.c:1026-1107 | a new task is admitted, a switch made if it is above the running one, and no other task or wait changes |
| KernelTasks.CreateReadies | FreeRTOS-Kernel/tasks.c:816-1107 | the whole record of the new task, and exactly when the running task gives way to it |
| KernelTasks.CreatedCore | FreeRTOS-Kernel/tasks.c:816-1018 | the new task is ready at its priority, cut to the greatest one |
| KernelTasks.DeleteKeeps | FreeRTOS-Kernel/tasks.c:1112-1172 | another task disappears from every list and from the count |
| KernelTasks.DeleteRemoves | FreeRTOS-Kernel/tasks.c:1112-1172 | the control block is gone and with it the place in an event list, and the running task goes on |
| KernelTasks.DeleteSelfKeeps | FreeRTOS-Kernel/tasks.c:1148-1160 | the running task moves to the termination list, still counted |
| KernelTasks.DeleteSelfLeaves | FreeRTOS-Kernel/tasks.c:1121-1160 | the running task is off its event list and on the termination list, and changes in nothing else |
| KernelTasks.SuspendTaskKeeps | FreeRTOS-Kernel/tasks.c:1673-1706 | a task leaves its state and event lists for the suspended list, nothing else changes and the running task goes on |
| KernelTasks.ResumeTaskKeeps | FreeRTOS-Kernel/tasks.c:1825-1871 | only a suspended task that waits for no event is resumed; preemption safety is kept |
| KernelTasks.ResumeTaskReadies | FreeRTOS-Kernel/tasks.c:1825-1871 | a suspended task is ready and the running task gives way exactly if that is not below it; for any other task nothing happens |
| KernelTasks.ResumeFromIsrKeeps | FreeRTOS-Kernel/tasks.c:1879-1949 | from an interrupt the task becomes ready, or pending while the scheduler is suspended, with a pending yield if it is at or above the running one |
| KernelTasks.ResumeFromIsrReadies | FreeRTOS-Kernel/tasks.c:1879-1949 | the whole effect: ready at once or last of the pending-ready list, and the result and the pending yield exactly when the task is not below the running one |
| KernelTasks.SetPriorityKeeps | FreeRTOS-Kernel/tasks.c:1507-1654 | after a change of priority, with the yield the code makes or omits, no ready task is above the running one without a pending yield |
| KernelTasks.SetPrioritySets | FreeRTOS-Kernel/tasks.c:1507-1654 | the new priority and event value, and exactly when the running task gives way |
| KernelTasks.QuietKeeps | FreeRTOS-Kernel/tasks.c:1546-1583 | the cases in which vTaskPrioritySet omits the yield are safe |
| KernelTasks.SetPrioritySpares | FreeRTOS-Kernel/tasks.c:1622-1649 | a change of priority moves no timed wait and no event item |
| KernelRuns.StepKeeps | FreeRTOS-Kernel/tasks.c:2174-2283 | every step of the scheduler keeps the whole invariant and accounts for its ticks |
| KernelRuns.TickConservation | FreeRTOS-Kernel/tasks.c:2880-2882 | in every run tick + pended ticks counts tick interrupts plus caught-up ticks; while not suspended nothing is pended or pending and all waits are in the future |
| KernelRuns.PreemptionSafety | FreeRTOS-Kernel/tasks.c:3009-3080 | in every run a ready task above the running one is accompanied by a pending yield |
| KernelRuns.TickSettles | FreeRTOS-Kernel/portable/GCC/ARM9_s3c2440/portISR.c:121-135 | the tick interrupt leaves no yield pending and no ready task above the running one, and the running task goes on unless a switch is asked for |
| KernelRuns.ResumeSettles | FreeRTOS-Kernel/tasks.c:2174-2283 | in every run, when the scheduler is resumed for good every task readied meanwhile is ready, no yield is left pending and no ready task is above the running one |
| KernelRuns.NestingBalance | FreeRTOS-Kernel/tasks.c:2090-2192 | in every run the scheduler is suspended exactly as often as it was suspended and not yet resumed |
| KernelRuns.Partition | FreeRTOS-Kernel/tasks.c:3169-3215 | in every run each task's state item is in exactly one list, the one of its priority when ready, and its event item in at most one |
| KernelRuns.ListLengths | FreeRTOS-Kernel/tasks.c:1026-1107 | in every run the state list lengths sum to the number of tasks and no list holds a task twice |
| KernelRuns.ExactWake | FreeRTOS-Kernel/tasks.c:2754-2834 | a task that blocks for n ticks at t and is not unblocked otherwise waits while the clock is below t + n and is readied by the very step that reaches it |
| KernelWaking.StepKept | FreeRTOS-Kernel/tasks.c:3169-3283 | no step but those that place a task on an event list or change the priority of a waiter changes the order of that list or the values in it; tasks only leave it |
| KernelWaking.RunInLine | FreeRTOS-Kernel/tasks.c:3092-3098 | over every run in which tasks join an event list with a value that shows their priority, and no waiter's priority changes, the list is in order of priority |
| KernelWaking.HighestIsWoken | FreeRTOS-Kernel/tasks.c:3175-3215 | over such runs a signal wakes a waiter of greatest priority, and it is off the list and ready, or pending while the scheduler is suspended |
| KernelWaking.FirstComeFirstServed | FreeRTOS-Kernel/tasks.c:3102 | over such runs no signal wakes a task that joined the list behind one still waiting and is not above it |
| KernelWaking.WaiterKeepsPlace | FreeRTOS-Kernel/tasks.c:1619-1649 | a change of the priority of a waiting task leaves the event list as it stands, which is in order of priority afterwards if and only if the new priority fits in where the task stands |
| KernelWaking.RaisedWaiterStaysBehind | FreeRTOS-Kernel/tasks.c:1619-1649 | a run from the started scheduler in which a waiting task is raised above the head of its event list and stays behind it |
| KernelWaking.PendingIsDelivered | FreeRTOS-Kernel/tasks.c:3211-3215 | over every run a task on the pending-ready list, unless deleted or suspended, is ready when the scheduler has been resumed |
| KernelFairness.NoStarvation | FreeRTOS-Kernel/tasks.c:137-151 | over every run a task that stays ready, with at most n tasks ready at its priority, runs at the latest at the 2n-th turn its priority gets, by a yield or the end of another task's time slice |
| KernelFairness.StepLine | FreeRTOS-Kernel/tasks.c:2836-2850 | the step behind it: no step of the kernel sets a ready task back, and each turn for its priority selects it or brings it nearer |
| KernelRuns.StartedInv | FreeRTOS-Kernel/tasks.c:1954-2075 | the scheduler as started with only the idle task satisfies the invariant |
| DelayLists.InsertLeft | FreeRTOS-Kernel/tasks.c:5352-5355 | inserting by 32-bit value into the current delayed list is inserting by absolute time into the whole |
| DelayLists.InsertRight | FreeRTOS-Kernel/tasks.c:5345-5349 | inserting into the overflow list likewise |
| DelayLists.Switched | FreeRTOS-Kernel/tasks.c:201-213 | switching the lists at a wrap changes no absolute wake time |
| Scheduler.NoneLeft | FreeRTOS-Kernel/tasks.c:205-206 | when the counter is about to wrap the current delayed list is empty |
| Scheduler.NothingDue | FreeRTOS-Kernel/tasks.c:2754 | below the first wake time the scan would change nothing |
| Scheduler.Scheduler.constructor | FreeRTOS-Kernel/tasks.c:3657-3686 | the initial lists and cached values stand for the started scheduler |
| Scheduler.Scheduler.RemoveStateItem | FreeRTOS-Kernel/list.c:199-225 | removing a state item from whichever list holds it keeps the cached values valid |
| Scheduler.Scheduler.RemoveEventItem | FreeRTOS-Kernel/list.c:199-225 | removing an event item acts as on the specification state |
| Scheduler.Scheduler.AddTaskToReadyList | FreeRTOS-Kernel/tasks.c:221-225 | the task goes to the end of its ready list and the cached top priority stays an upper bound |
| Scheduler.Scheduler.ResetNextTaskUnblockTime | FreeRTOS-Kernel/tasks.c:3999-4017 | the cached unblock time becomes the head value of the current delayed list, or the maximum |
| Scheduler.Scheduler.InsertByTime | FreeRTOS-Kernel/tasks.c:5336-5367 | the 32-bit choice between the two delayed lists files the task under tick + n in absolute time, and the cached unblock time stays a lower bound |
| Scheduler.Scheduler.AddCurrentTaskToDelayedList | FreeRTOS-Kernel/tasks.c:5297-5369 | the running task blocks as on the specification state |
| Scheduler.Scheduler.SwitchDelayedLists | FreeRTOS-Kernel/tasks.c:201-213 | the switch needs an empty current list and changes no absolute wake time |
| Scheduler.Scheduler.AdvanceTick | FreeRTOS-Kernel/tasks.c:2735-2744 | the wrapping counter moves the absolute clock by one; at the wrap the current list is proved empty, not assumed |
| Scheduler.Scheduler.UnblockDue | FreeRTOS-Kernel/tasks.c:2756-2834 | the loop over the current list wakes exactly what a scan of both lists in absolute time would wake, and renews the cached unblock time |
| Scheduler.Scheduler.IncrementTick | FreeRTOS-Kernel/tasks.c:2720-2894 | with the scan skipped below the cached unblock time the result is that of a full scan on every tick |
| Scheduler.Scheduler.HighestReady | FreeRTOS-Kernel/tasks.c:138-145 | the search down from the cached top priority finds the highest priority with a ready task |
| Scheduler.Scheduler.SelectHighestPriorityTask | FreeRTOS-Kernel/tasks.c:136-151 | the next task of the highest priority that has a ready one becomes the running task, and the cached top priority is that priority |
| Scheduler.Scheduler.SwitchContext | FreeRTOS-Kernel/tasks.c:3009-3080 | the switch is that of the specification, which keeps no cache |
| Scheduler.Scheduler.TickInterrupt | FreeRTOS-Kernel/portable/GCC/ARM9_s3c2440/portISR.c:121-135 | the tick interrupt counts the tick and switches when that is due |
| Scheduler.Scheduler.SuspendAll | FreeRTOS-Kernel/tasks.c:2090-2108 | the nesting count rises, nothing else changes |
| Scheduler.Scheduler.DrainPending | FreeRTOS-Kernel/tasks.c:2194-2226 | the pending-ready loop is the drain of the specification |
| Scheduler.Scheduler.UnwindPended | FreeRTOS-Kernel/tasks.c:2232-2258 | the pended-tick loop is the unwinding of the specification |
| Scheduler.Scheduler.ResumeAll | FreeRTOS-Kernel/tasks.c:2174-2283 | state and result are those of the specification |
| Scheduler.Scheduler.PlaceOnEventList | FreeRTOS-Kernel/tasks.c:3083-3105 | refines the specification, event list in order of the event values |
| Scheduler.Scheduler.PlaceOnUnorderedEventList | FreeRTOS-Kernel/tasks.c:3108-3131 | refines the specification, event value replaced by the caller's |
| Scheduler.Scheduler.RemoveFromEventList | FreeRTOS-Kernel/tasks.c:3169-3234 | refines the specification, result included |
| Scheduler.Scheduler.RemoveFromUnorderedEventList | FreeRTOS-Kernel/tasks.c:3237-3283 | refines the specification |
| Scheduler.Scheduler.ResetEventItemValue | FreeRTOS-Kernel/tasks.c:4658-4669 | refines the specification and returns the value before |
| Scheduler.Scheduler.Create | FreeRTOS-Kernel/tasks.c:1026-1107 | refines the specification |
| Scheduler.Scheduler.Delete | FreeRTOS-Kernel/tasks.c:1112-1172 | refines the specification, the cached unblock time reset |
| Scheduler.Scheduler.DeleteSelf | FreeRTOS-Kernel/tasks.c:1148-1201 | refines the specification followed by a switch |
| Scheduler.Scheduler.ReapFirst | FreeRTOS-Kernel/tasks.c:3699-3709 | the head of the termination list leaves it, and with it its control block; nothing else changes |
| KernelTasks.ReapIsDelete | FreeRTOS-Kernel/tasks.c:3699-3709 | freeing a task that deleted itself leaves what deleting it from another task would have left |
| Scheduler.Scheduler.CheckTasksWaitingTermination | FreeRTOS-Kernel/tasks.c:3689-3712 | the idle task's loop empties the termination list |
| Scheduler.Scheduler.Suspend | FreeRTOS-Kernel/tasks.c:1673-1748 | refines the specification, with the switch when the running task suspends itself |
| Scheduler.Scheduler.Resume | FreeRTOS-Kernel/tasks.c:1825-1871 | refines the specification |
| Scheduler.Scheduler.ResumeFromIsr | FreeRTOS-Kernel/tasks.c:1879-1949 | refines the specification, result included |
| Scheduler.Scheduler.PrioritySet | FreeRTOS-Kernel/tasks.c:1507-1654 | refines the specification with its decision to yield |
| Scheduler.Scheduler.Delay | FreeRTOS-Kernel/tasks.c:1301-1339 | a delay of n is suspend, block, resume and give way; zero only gives way |
| Scheduler.PausedIsRun | FreeRTOS-Kernel/tasks.c:1301-1339 | a delay is a run of suspend, block, resume and, if need be, yield, so the run theorems hold of it |
| Scheduler.Scheduler.DelayUntil | FreeRTOS-Kernel/tasks.c:1214-1279 | the wake time advances by the increment whether or not the task delays, and the delay is to that wake time |
| Scheduler.Scheduler.CatchUpTicks | FreeRTOS-Kernel/tasks.c:2616-2637 | the ticks pass as if they had been pended |
| Scheduler.CaughtUpTicks | FreeRTOS-Kernel/tasks.c:2616-2637 | catching up moves the clock by exactly the ticks asked for |
| Scheduler.Scheduler.SetTimeOutState | FreeRTOS-Kernel/tasks.c:3286-3303 | the stamp taken stands for the absolute time of the call |
| Scheduler.Scheduler.CheckForTimeOut | FreeRTOS-Kernel/tasks.c:3306-3368 | the branches compute the verdict the timeout lemmas are about |
| TimeBudget.CheckRight | FreeRTOS-Kernel/tasks.c:3342-3363 | for all gaps, exactly when xTaskCheckForTimeOut answers rightly |
| TimeBudget.LateCheckMissed | FreeRTOS-Kernel/tasks.c:3342-3358 | a gap of 2^33 - 4 ticks that goes unnoticed |
| TimeBudget.Budget | FreeRTOS-Kernel/tasks.c:3306-3368 | over any number of calls less than 2^32 ticks apart the remaining wait is the original one less all elapsed time, and the timeout comes exactly when that is used up |
| TimeBudget.EndlessWait | FreeRTOS-Kernel/tasks.c:3331-3338 | a wait of portMAX_DELAY never times out |
| TimeBudget.ShouldDelayMeans | FreeRTOS-Kernel/tasks.c:1230-1262 | both branches of xTaskDelayUntil ask whether the elapsed time modulo 2^32 is below the increment |
| TimeBudget.DelayRight | FreeRTOS-Kernel/tasks.c:1230-1274 | exactly when a call at or after the last wake time is answered rightly, and the delay handed on is deadline minus now |
| TimeBudget.EarlyCall | FreeRTOS-Kernel/tasks.c:1233-1246 | exactly when a call before the last wake time delays as it should |
| TimeBudget.EarlyCallSkipsDelay | FreeRTOS-Kernel/tasks.c:1233-1246 | a call before the last wake time that does not delay although the deadline is ahead |
| TimeBudget.PeriodicDeadline | FreeRTOS-Kernel/tasks.c:1224-1279 | over any number of calls the k-th deadline is start + k * increment; the call delays exactly when it is ahead, for exactly the time left |
| Queue.Queue.constructor | FreeRTOS-Kernel/queue.c:309-316 | a new queue is empty |
| Queue.Queue.Reset | FreeRTOS-Kernel/queue.c:296-316 | a reset queue is empty |
| Queue.Queue.CopyToBack | FreeRTOS-Kernel/queue.c:2203-2216 | the bytes written and the pointer moved append one item |
| Queue.Queue.CopyToFront | FreeRTOS-Kernel/queue.c:2217-2229 | the bytes written and the pointer moved back prepend one item |
| Queue.Queue.CopyDataToQueue | FreeRTOS-Kernel/queue.c:2175-2255 | back appends, front prepends, overwrite replaces, without an item size only the count moves |
| Queue.Queue.CopyDataFromQueue | FreeRTOS-Kernel/queue.c:2258-2276 | the item copied out is the first one stored |
| Queue.Queue.TakeFirst | FreeRTOS-Kernel/queue.c:1413-1416 | copying out and counting down takes the first item off |
| Queue.Queue.Send | FreeRTOS-Kernel/queue.c:835-925 | a send succeeds exactly when there is room or it overwrites, with that effect on the contents |
| Queue.Queue.Receive | FreeRTOS-Kernel/queue.c:1378-1420 | a receive delivers the first item, or fails on an empty queue |
| Queue.Queue.Peek | FreeRTOS-Kernel/queue.c:1760-1776 | a peek delivers the first item and leaves the contents as they were |
| Queue.FirstInFirstOut | FreeRTOS-Kernel/queue.c:2175-2276 | over any run of back sends and receives what was delivered, then what is stored, is what was stored, then what was accepted |
| Queue.FrontIsNext | FreeRTOS-Kernel/queue.c:2217-2229 | an item sent to the front is the next to be received, and the others are left as they were |
| Queue.OverwriteIsNext | FreeRTOS-Kernel/queue.c:2231-2249 | after an overwrite the one receive that succeeds delivers the new item |
| Queue.ServedInOrder | FreeRTOS-Kernel/queue.c:2175-2276 | over any run of sends to either end, overwrites and receives the items delivered are those a stack for the front and a line for the back would serve, in their order |
| Queue.NothingLost | FreeRTOS-Kernel/queue.c:2175-2276 | over any run of sends to either end and receives nothing is lost and nothing comes twice |
| Queue.OverwriteKeepsLength | FreeRTOS-Kernel/queue.c:2184-2252 | exactly when overwriting keeps a queue of length one within its length |
| Queue.WriteBack | FreeRTOS-Kernel/queue.c:2203-2216 | writing the slot behind the last item appends and disturbs no stored item |
| Queue.WriteFront | FreeRTOS-Kernel/queue.c:2217-2229 | writing the read slot and stepping it back prepends and disturbs no stored item |
| QueueLock.NoLostReceiver | FreeRTOS-Kernel/queue.c:2279-2396 | in every interleaving, with the queue unlocked and a receiver waiting, stored items are at most the receivers woken and not yet back |
| QueueLock.SendersCoveredExactly | FreeRTOS-Kernel/queue.c:309-338 | senders are covered at every moment of a run if and only if at each reset at most one waits or enough have been woken |
| QueueLock.NoLostSender | FreeRTOS-Kernel/queue.c:2279-2396 | the same for senders and free places, in runs each of whose resets finds at most one sender waiting or enough woken |
| QueueLock.LockDiscipline | FreeRTOS-Kernel/queue.c:251-293 | the lock counts never exceed the number of tasks, so never overflow an int8_t, and the queue is unlocked whenever the scheduler is not suspended |
| QueueLock.ItemsCounted | FreeRTOS-Kernel/queue.c:835-1518 | in every interleaving without a reset the items put in are those taken out and those still counted, every try succeeding that can |
| QueueLock.TryEnds | FreeRTOS-Kernel/queue.c:860-966 | a try that succeeds returns, having woken a task that waited for it, and one that fails returns or goes on to block |
| QueueLock.ResetCoversSenders | FreeRTOS-Kernel/queue.c:309-338 | exactly when a reset leaves no sender asleep in front of a free place |
| QueueLock.ResetStrandsSender | FreeRTOS-Kernel/queue.c:318-338 | a run from a fresh queue: two senders block on a full queue of two, and a reset leaves one asleep with two places free |
| QueueLock.SafeStep | FreeRTOS-Kernel/queue.c:1378-1518 | every step of every task and interrupt keeps stored items covered by woken receivers and the lock count |
| QueueLock.SendersStep | FreeRTOS-Kernel/queue.c:835-1044 | every step but a reset keeps free places covered by woken senders and the lock count |
| QueueLock.EventLists.UnlockTx | FreeRTOS-Kernel/queue.c:2287-2365 | the loop wakes the first waiting receivers, as many as the lock counted or all, and unlocks |
| QueueLock.EventLists.UnlockRx | FreeRTOS-Kernel/queue.c:2368-2395 | the same for senders |
| QueueLock.LoopIsStep | FreeRTOS-Kernel/queue.c:2279-2396 | the loop makes exactly the unlocking step of the protocol |
| StreamBuffer.BytesAndSpaces | FreeRTOS-Kernel/stream_buffer.c:597-627 | bytes available and spaces available always add up to the length less one |
| StreamBuffer.EncodeInjective | FreeRTOS-Kernel/stream_buffer.c:824-871 | the stored bytes determine the messages |
| StreamBuffer.FieldRoundTrip | FreeRTOS-Kernel/stream_buffer.c:837-851 | a stored length is read back as it was written |
| StreamBuffer.MessagesInOrder | FreeRTOS-Kernel/stream_buffer.c:824-1124 | over any run of sends and receives messages come out whole, in order and none lost, and one byte of the ring stays free |
| StreamBuffer.SentIsReceived | FreeRTOS-Kernel/stream_buffer.c:824-1124 | a message that fits is taken and comes out whole behind those stored; one that does not fit changes nothing |
| StreamBuffer.StreamBuffer.WriteBytesToBuffer | FreeRTOS-Kernel/stream_buffer.c:1248-1291 | both parts of the copy together write exactly the bytes ahead of the position, wrapping at the end |
| StreamBuffer.StreamBuffer.ReadBytesFromBuffer | FreeRTOS-Kernel/stream_buffer.c:1294-1335 | both parts of the copy together read exactly the bytes ahead of the position |
| StreamBuffer.StreamBuffer.WriteMessageToBuffer | FreeRTOS-Kernel/stream_buffer.c:824-871 | a message goes in whole or not at all, a stream as far as there is space; a message without payload changes nothing stored |
| StreamBuffer.StreamBuffer.Send | FreeRTOS-Kernel/stream_buffer.c:773-821 | the send of the specification, for the space there is |
| StreamBuffer.StreamBuffer.ReadMessageFromBuffer | FreeRTOS-Kernel/stream_buffer.c:1075-1124 | a message comes out whole, or stays when the receive buffer is too small |
| StreamBuffer.StreamBuffer.Receive | FreeRTOS-Kernel/stream_buffer.c:1018-1072 | the receive of the specification |
| StreamBuffer.StreamBuffer.NextMessageLengthBytes | FreeRTOS-Kernel/stream_buffer.c:978-1015 | the length of the next message, or 0 |
| StreamBuffer.StreamBuffer.SpacesAvailable | FreeRTOS-Kernel/stream_buffer.c:597-627 | the length less one less the bytes stored |
| StreamRace.PrefixReceived | FreeRTOS-Kernel/stream_buffer.c:1248-1356 | in every interleaving of a writer and a reader the bytes received are a prefix of those sent, less than the ring length behind |
| StreamRace.NeverOverwritesUnread | FreeRTOS-Kernel/stream_buffer.c:1248-1291 | no byte still to be consumed lies in the slot about to be written |
| StreamRace.NeverReadsUnpublished | FreeRTOS-Kernel/stream_buffer.c:1294-1335 | the slot about to be read holds the next byte published |
| StreamRace.PublishedIsCopied | FreeRTOS-Kernel/stream_buffer.c:864-868 | publishing the head appends exactly the bytes copied in |
| StreamRace.StepKeeps | FreeRTOS-Kernel/stream_buffer.c:597-627 | each single read, copy and publication keeps the invariant, with however old a value of the other side's index |
| MessageRace.MessagesReceived | FreeRTOS-Kernel/stream_buffer.c:824-1124 | in every interleaving of a message writer and a message reader the messages delivered are a prefix of those published, each whole, and the bytes in the ring are exactly theirs |
| StreamAlone.SendAlone | FreeRTOS-Kernel/stream_buffer.c:608-868 | a send during which the reader stands still publishes as many bytes as there is space for, or the whole message, or nothing |
| StreamAlone.ReceiveAlone | FreeRTOS-Kernel/stream_buffer.c:900-1124 | a receive during which the writer stands still takes out as many bytes as were published and fit the room, or the next message if it fits, or nothing |
| MessageRace.StepFrames | FreeRTOS-Kernel/stream_buffer.c:1075-1124 | no single step of either side, a length read without being consumed included, breaks a message in two |
| MessageRace.LengthRead | FreeRTOS-Kernel/stream_buffer.c:1083-1105 | the length read is that of the next message, and the message is taken out if and only if the receive buffer has room for it |
| MessageRace.PublishFrames | FreeRTOS-Kernel/stream_buffer.c:834-868 | publishing adds exactly the message given, and an empty message publishes nothing |
| MessageRace.ReaderLooksFrames | FreeRTOS-Kernel/stream_buffer.c:990-1006 | the reader never finds part of a message: no byte, or more than a length field |
| StreamWait.NoLostReader | FreeRTOS-Kernel/stream_buffer.c:900-945 | in every interleaving a reader that sleeps without a notification, while the writer is not on its way to make one, sleeps in front of less than the trigger level |
| StreamWait.NoLostWriter | FreeRTOS-Kernel/stream_buffer.c:696-745 | a writer that sleeps without a notification, while the reader is not on its way to make one, has not the space it needs |
| StreamWait.InOrder | FreeRTOS-Kernel/stream_buffer.c:680-945 | in every interleaving what is consumed and what is stored is what was published, in this order |
| StreamWait.AsleepMeans | FreeRTOS-Kernel/stream_buffer.c:700-728 | reader and writer sleep at the same time only if trigger level and space needed together are more than the capacity by two |
| StreamWait.NeverBothAtOne | FreeRTOS-Kernel/stream_buffer.c:671-698 | with trigger level 1 reader and writer never sleep at the same time, in any interleaving and for any size |
| StreamWait.AsleepHappens | FreeRTOS-Kernel/stream_buffer.c:700-728 | for every such trigger level and needed space within the capacity a run of a stream buffer in which both fall asleep |
| StreamWait.StepKeeps | FreeRTOS-Kernel/stream_buffer.c:60-75 | every check, record, notification, publication and wake-up keeps both sides covered |
| EventGroup.SetKeeps | FreeRTOS-Kernel/event_groups.c:533-626 | a bit is set afterwards exactly if it was set or is asked to be and no woken waiter wants it cleared; a set wakes exactly the waiters its bits satisfy and leaves no satisfied waiter, before or after clearing |
| EventGroup.ToClearIsUnion | FreeRTOS-Kernel/event_groups.c:593-621 | the bits cleared are exactly the union over woken waiters that asked for it |
| EventGroup.StepBit | FreeRTOS-Kernel/event_groups.c:194-626 | every bit after every set, clear, wait, rendezvous, time-out and return, exactly |
| EventGroup.SetDelivers | FreeRTOS-Kernel/event_groups.c:593-609 | a woken task is given the bits as they were set, with the mark; the others wait on with their wish |
| EventGroup.WaitMeans | FreeRTOS-Kernel/event_groups.c:339-395 | a task goes on at once exactly if its condition is met or it would not block, told the bits as they were; otherwise it waits last in the list with a wish that can be read back |
| EventGroup.SyncMeans | FreeRTOS-Kernel/event_groups.c:212-253 | the same for a rendezvous, whose own bits may complete it |
| EventGroup.ReturnMeans | FreeRTOS-Kernel/event_groups.c:409-469 | with the mark a task is told the bits it was given and changes none; after a time-out it is told the bits as they are |
| EventGroup.TimeOutLeaves | FreeRTOS-Kernel/tasks.c:2793-2808 | a task that times out leaves the list, and nothing else changes |
| EventGroup.OrderIndependent | FreeRTOS-Kernel/event_groups.c:558-621 | the outcome of a set does not depend on the order of the list |
| EventGroup.NoSatisfiedWaiter | FreeRTOS-Kernel/event_groups.c:317-470 | in no reachable state does a task wait whose condition is met |
| EventGroup.SetReleases | FreeRTOS-Kernel/event_groups.c:551-623 | a task taken off the list by a set finds the mark and bits that meet its condition, and the same set has cleared its bits if it asked for that |
| EventGroup.WaitIsMet | FreeRTOS-Kernel/event_groups.c:317-470 | over whole runs, a task that returns from a wait with the mark was released by a set and returns bits that meet its condition |
| EventGroup.Rendezvous | FreeRTOS-Kernel/event_groups.c:194-314 | over whole runs, a task that returns from xEventGroupSync by a set gets all bits it waited for, cleared by the set that released it |
| EventGroup.SyncUnmet | FreeRTOS-Kernel/event_groups.c:214-238 | a rendezvous that is not complete stays unmet by what is left of the bits, so blocking is safe |
| EventGroup.EventGroup.Look | FreeRTOS-Kernel/event_groups.c:561-617 | one item of the walk: a task whose condition is met gets the bits and leaves the list, and the bits it wants cleared are collected |
| EventGroup.EventGroup.Set | FreeRTOS-Kernel/event_groups.c:551-622 | the section with the scheduler suspended: the loop over the list is the set of the specification |
| EventGroup.EventGroup.Clear | FreeRTOS-Kernel/event_groups.c:473-498 | clears the bits and returns the value before |
| EventGroup.EventGroup.Wait | FreeRTOS-Kernel/event_groups.c:339-407 | the part before blocking, and whether the call blocks |
| EventGroup.EventGroup.Sync | FreeRTOS-Kernel/event_groups.c:212-262 | the part before blocking, and whether the call blocks |
| EventGroup.EventGroup.Return | FreeRTOS-Kernel/event_groups.c:409-469 | the part after blocking: the value delivered, or the current bits after a time-out |
| TimerDaemon.ChooseRight | FreeRTOS-Kernel/timers.c:716-757 | for every command less than 2^32 ticks late the timer is processed at once exactly when it has expired, and otherwise listed under the wrap of its expiry |
| TimerDaemon.CallsAfterStart | FreeRTOS-Kernel/timers.c:568-601 | over any run of daemon turns and commands to other timers after a start issued at time C, handled at any later time: whenever time T is handled an auto-reload timer has been called exactly floor((T - C) / p) times and waits for the first C + k * p above T, a one-shot timer has been called once if C + p <= T and otherwise not yet |
| TimerDaemon.CallsAfterPeriod | FreeRTOS-Kernel/timers.c:858-871 | the same after a change of period, counted with the new period from the time the command was handled, whether or not the timer was active |
| TimerDaemon.StoppedStaysSilent | FreeRTOS-Kernel/timers.c:852-856 | over any run without a command to it a stopped timer is never called and on no list |
| TimerDaemon.FreedStaysAway | FreeRTOS-Kernel/timers.c:873-895 | over any run a timer that has been freed is gone until one of its name is created |
| TimerDaemon.StepTimers | FreeRTOS-Kernel/timers.c:760-906 | only a creation adds a timer and only a deletion removes one |
| TimerDaemon.CreateLeaves | FreeRTOS-Kernel/timers.c:355-392 | a new timer has the period and mode asked for, is not active and on no list, and no other timer changes |
| TimerDaemon.ModeLeaves | FreeRTOS-Kernel/timers.c:451-469 | a change of mode changes the mode and nothing else |
| TimerDaemon.CallbackCount | FreeRTOS-Kernel/timers.c:522-565 | the state behind it: once a time is handled, any active timer has been called floor((now - start) / period) times and is listed for the first expiry after now |
| TimerDaemon.StepKeeps | FreeRTOS-Kernel/timers.c:760-906 | every turn and every command leaves each active timer on exactly one list, under the wrap of start + (calls + 1) * period, and every other timer on none |
| TimerDaemon.StepFrame | FreeRTOS-Kernel/timers.c:760-906 | a turn, or a command to another timer, keeps a timer's start, period and mode and an auto-reload timer active; a timer that is not active is not called; a one-shot timer stays or expires once |
| TimerDaemon.NeverTooOften | FreeRTOS-Kernel/timers.c:522-538 | at no time has a timer been called more often than its periods have elapsed |
| TimerDaemon.NoneAheadAtWrap | FreeRTOS-Kernel/timers.c:631-645 | when the counter stands at zero no timer waits for the wrap after this one, so the daemon then waits without a limit |
| TimerDaemon.ProcessedAtWrap | FreeRTOS-Kernel/timers.c:908-930 | processing at the last instant of a wrap puts nothing back on the current list, so the switch ends |
| TimerTask.TimerTask.CreateTimer | FreeRTOS-Kernel/timers.c:355-392 | a new timer is in the record and on no list |
| TimerTask.TimerTask.SetReloadMode | FreeRTOS-Kernel/timers.c:451-469 | a change of mode at any moment keeps the daemon's invariant |
| TimerTask.TimerTask.InsertTimerInActiveList | FreeRTOS-Kernel/timers.c:716-757 | the branches make the choice that is right in absolute time |
| TimerTask.TimerTask.ReloadTimer | FreeRTOS-Kernel/timers.c:522-538 | the loop makes one callback per expiry passed but the first and lists the next one |
| TimerTask.TimerTask.ProcessExpiredTimer | FreeRTOS-Kernel/timers.c:541-565 | the head of the current list is handled and caught up |
| TimerTask.TimerTask.SwitchTimerLists | FreeRTOS-Kernel/timers.c:908-930 | the loop processes what is left of the old wrap, and the lists are switched |
| TimerTask.TimerTask.SampleTimeNow | FreeRTOS-Kernel/timers.c:693-713 | the lists are switched exactly when the counter has wrapped since the last sample |
| TimerTask.TimerTask.GetNextExpireTime | FreeRTOS-Kernel/timers.c:666-690 | the head of the current list, or 0 |
| TimerTask.TimerTask.ProcessTimerOrBlockTask | FreeRTOS-Kernel/timers.c:604-663 | the daemon blocks exactly when the counter has not wrapped and nothing is due, and then until the next expiry or the wrap, for more than zero ticks unless the wait is indefinite |
| TimerTask.TimerTask.HandleTime | FreeRTOS-Kernel/timers.c:568-601 | turns at one tick count with no command arriving are a run that ends with nothing due |
| TimerTask.TimerTask.TaskTurn | FreeRTOS-Kernel/timers.c:587-600 | one pass of the daemon's loop is a turn followed by the commands found in the queue |
| TimerTask.TimerTask.ProcessReceivedCommands | FreeRTOS-Kernel/timers.c:760-906 | the messages in the queue, each with the tick count read for it, are handled as the run of steps they stand for |
| TimerTask.TimerTask.Dispatch | FreeRTOS-Kernel/timers.c:812-901 | each kind of message makes its step |
| TimerTask.TimerTask.Receive | FreeRTOS-Kernel/timers.c:790-810 | every command first takes the timer off its list and then samples the time |
| TimerTask.TimerTask.Unlist | FreeRTOS-Kernel/timers.c:792-800 | the timer leaves whichever list holds it |
| TimerTask.TimerTask.Start | FreeRTOS-Kernel/timers.c:814-850 | the whole new state of a start handled late: called and listed as if it had been handled at once, and no other timer changed |
| TimerTask.TimerTask.Begin | FreeRTOS-Kernel/timers.c:821-850 | the same for a timer that is on no list |
| TimerTask.TimerTask.Stop | FreeRTOS-Kernel/timers.c:852-856 | the timer is inactive and on no list, and no other timer changed |
| TimerTask.TimerTask.ChangePeriod | FreeRTOS-Kernel/timers.c:858-871 | the timer starts afresh with the new period at the time the command is handled |
| TimerTask.TimerTask.Delete | FreeRTOS-Kernel/timers.c:873-895 | the timer is gone from the lists and the record |
| Mutexes.Accounting | FreeRTOS-Kernel/queue.c:1551-1720 | in every reachable state each task's count is the number of mutexes it holds, a mutex can be taken exactly when nobody holds it, and a task that holds none runs at its base priority |
| Mutexes.ReadyLists | FreeRTOS-Kernel/tasks.c:4093-4110 | in every reachable state, whatever was inherited and given back, a ready task is in the ready list of its present priority and no other, and a waiting task is in no ready list and waits for one mutex |
| Mutexes.StepKeeps | FreeRTOS-Kernel/tasks.c:4067-4336 | every take, wait, give, time-out and change of priority keeps the accounting, the ready lists and the waiting lists in order |
| Mutexes.RefiledMoves | FreeRTOS-Kernel/tasks.c:1622-1649 | a change of priority takes a ready task to the list of its new priority and makes nobody ready or not ready |
| Mutexes.HolderIsRaised | FreeRTOS-Kernel/tasks.c:4067-4150 | blocking on a mutex leaves its holder at no lower a priority than the waiter |
| Mutexes.SetPriorityAboveBase | FreeRTOS-Kernel/tasks.c:1590-1605 | exactly when setting a priority keeps the priority in use at or above the base priority |
| Mutexes.SetStaysAboveBase | FreeRTOS-Kernel/tasks.c:1590-1605 | the same for all tasks at once: the condition a caller can check is exact |
| Mutexes.RunsAboveBase | FreeRTOS-Kernel/tasks.c:4067-4336 | over whole runs that set priorities only under that condition no task runs below its base priority |
| Mutexes.RunsBelowBase | FreeRTOS-Kernel/tasks.c:1590-1605 | a run from the initial state in which a holder inherits priority 3, is set to 5, and goes on at 3 |
| Mutexes.StaysAboveBase | FreeRTOS-Kernel/tasks.c:4157-4336 | no other step takes a task below its base priority |
| Mutexes.NestedGives | FreeRTOS-Kernel/queue.c:668-759 | a recursive mutex is free again after exactly as many gives as takes |
| Mutexes.NestedRoundTrip | FreeRTOS-Kernel/queue.c:668-759 | a task that takes a free recursive mutex n times and gives it n times leaves it free, and after fewer gives it still holds it |
| MutexRanks.HoldersOutrankWaiters | FreeRTOS-Kernel/tasks.c:4067-4336 | no priority inversion: over whole runs that change the priority of no waiting task, set no holder below its waiters and let no task obtain a mutex somebody above it waits for, every holder runs at or above every task that waits for it |
| MutexRanks.RankedExactly | FreeRTOS-Kernel/tasks.c:4067-4336 | whatever the run, holders outrank their waiters at every moment if and only if each step meets its condition |
| MutexRanks.StepRanked | FreeRTOS-Kernel/tasks.c:4067-4336 | the condition of one step: a task that obtains a mutex is not below those left waiting, and a new priority fits in between those who wait for the task and those it waits for |
| MutexRanks.AfterTimeOutFits | FreeRTOS-Kernel/tasks.c:4237-4336 | giving up after a time-out never takes the holder below a task that still waits, the waiting lists being in order |
| MutexRanks.GiveWakes | FreeRTOS-Kernel/queue.c:1047-1200 | a mutex given up is free, and its first waiter, if there is one, is ready and nobody else becomes so |
| MutexRanks.TimeOutWakes | FreeRTOS-Kernel/tasks.c:2793-2808 | a task whose wait for a mutex times out is ready and waits no longer |
| MutexRanks.WaitRaises | FreeRTOS-Kernel/tasks.c:4067-4150 | a task that waits for a mutex is not ready, and the holder is raised to its priority, if it was below, and no further |
| MutexRanks.TimeOutDrops | FreeRTOS-Kernel/tasks.c:4237-4336 | after a time-out the holder of this one mutex runs at its base priority or at the highest priority still waiting, whichever is greater |
| MutexRanks.ChainInverts | FreeRTOS-Kernel/tasks.c:4078-4112 | a run from the initial state: a task inherits while it waits itself, and the holder it waits for goes on below it |
| Mutexes.QuietSetIsSafe | FreeRTOS-Kernel/tasks.c:1546-1583 | the yields vTaskPrioritySet omits are safe also with inherited priorities, although it compares base priorities |
| Mutexes.UnlockedValid | FreeRTOS-Kernel/queue.c:542-565 | freshly created mutexes satisfy the invariant |
| MutexKernel.MutexKernel.PriorityInherit | FreeRTOS-Kernel/tasks.c:4067-4150 | state and result of the inheritance, the holder moving to its new ready list if it is ready |
| MutexKernel.MutexKernel.PriorityDisinherit | FreeRTOS-Kernel/tasks.c:4157-4232 | state and result of giving one mutex up, the last one taking the task back to the ready list of its base priority |
| MutexKernel.MutexKernel.TryTake | FreeRTOS-Kernel/queue.c:1551-1627 | the take of the specification |
| MutexKernel.MutexKernel.Block | FreeRTOS-Kernel/queue.c:1642-1663 | the wait of the specification |
| MutexKernel.MutexKernel.GiveBack | FreeRTOS-Kernel/queue.c:2186-2202 | the give of the specification, which fails when nobody holds the mutex |
| MutexKernel.MutexKernel.DisinheritAfterTimeout | FreeRTOS-Kernel/tasks.c:4237-4336 | the disinheritance of the specification, down to the highest priority still waiting, with the move between ready lists |
| MutexKernel.MutexKernel.HandBack | FreeRTOS-Kernel/queue.c:2186-2202 | the mutex is free, its holder disinherited and the first waiter ready |
| MutexKernel.MutexKernel.TakeMutexRecursive | FreeRTOS-Kernel/queue.c:717-759 | a take by the holder only counts; otherwise one try of the ordinary take |
| MutexKernel.MutexKernel.GiveMutexRecursive | FreeRTOS-Kernel/queue.c:668-712 | a give by the holder counts down and hands the mutex back at zero; anybody else fails |
| MutexKernel.MutexKernel.PrioritySet | FreeRTOS-Kernel/tasks.c:1507-1654 | base priority, priority in use and event value as the code sets them, the move to the end of the ready list, and whether the call yields |

## Left out

- Board support, lwIP and the port layer: register access; a context switch is a call of `SwitchContext` and a critical section one atomic step.
- Heap, static creation, deletion of queues and event groups: thin layers over allocation.
- Co-routines, queue sets, queue registry, trace, run-time statistics, tickless idle and xTaskAbortDelay: configured off.
- Task notifications but for the flag `StreamWait` needs, thread-local storage, MPU and hooks.
- Calls made before vTaskStartScheduler: runs start with the scheduler running and the idle task current.
- The idle task is never blocked, suspended or deleted, a deleted task is not deleted again, and a task woken from a queue is not suspended or deleted before it tries again: callers are required to keep to this.
- Above `KernelList`, lists are sequences and the container pointer of an item is a place tag; the pointer-level lists are proved once and not carried along.
- vTaskPlaceOnEventListRestricted, by which the timer daemon waits at the end of its queue's event list and for ever only if told so, is no step of the kernel; `TimerTask.ProcessTimerOrBlockTask` says what it is called with.
- KernelFairness.NoStarvation: turns made inside other calls, which can only bring a task nearer, are not counted.
- KernelWaking.RunInLine: runs in which the priority of a task that waits on the list is changed are excluded, for the reason `WaiterKeepsPlace` makes exact; so are tasks placed on it in no order, which the source does only with the lists of event groups.
- KernelRuns.ExactWake: a task counts as left alone when no step unblocks, suspends or deletes it; what a woken task does next is not followed.
- QueueLock.NoLostReceiver: which waiting task is the head of an event list is left open, so the result holds for any order; priorities decide only who runs and play no part.
- QueueLock.SafeStep: overwriting is that of a queue with an item size; without one it makes the count two (`Queue.OverwriteKeepsLength`).
- StreamAlone.SendAlone: the other side stands still; with both moving a send may find less space than there is by then, which `StreamRace` allows for.
- StreamBuffer.MessagesInOrder: sends and receives that do not wait; waiting is the subject of `StreamWait`. A size_t is 32 bits, stored least significant byte first; buffers are small enough that length + index does not wrap.
- StreamRace.PrefixReceived: one writer and one reader and no reset during the run, as the code requires.
- StreamWait.NoLostReader: one buffer, whose reader and writer use their task notification for nothing else; a side's look at the indices is one step, the other side being the only one that could change what it sees.
- EventGroup.EventGroup.Set: the result of xEventGroupSetBits, the bits read again behind xTaskResumeAll when other tasks may have run, can be any later value of the bits and is not part of the method.
- EventGroup.Rendezvous: the group is not deleted while tasks wait; waking through the scheduler is the subject of `KernelCalls.SignalUnorderedKeeps`.
- TimerDaemon.CallsAfterStart: each command is handled, and the tick sampled, less than 2^32 ticks after it was issued or last sampled; commands sent by callbacks go through the queue like any others, and pended function calls are left out.
- MutexKernel.MutexKernel.TakeMutexRecursive: one try; a wait and the tries behind it are steps of their own, `Block` and this method again.
- MutexRanks.HoldersOutrankWaiters: that a running task is at or above those left waiting when it takes a free mutex is a condition here, because when the scheduler switches is left open; a chain of holders is excluded because inheritance is not passed on.
- Mutexes.Accounting: only the holder gives a mutex, holders are not deleted, and a mutex is used either recursively or not; when the scheduler switches is left open.
- Scheduler.Scheduler.CheckTasksWaitingTermination: uxDeletedTasksWaitingCleanUp and uxCurrentNumberOfTasks are the lengths they count and not variables of their own.
- Whether the number of wraps exceeds 2^32: xNumOfOverflows is compared modulo 2^32, which `TimeBudget.CheckRight` takes into account.
