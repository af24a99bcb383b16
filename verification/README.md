# A verified model of the kernel and the trace buffers

This project models the FreeRTOS V10.2.0 kernel and the SEGGER RTT buffers that the repository
carries, and proves what they are for. An operation is a pure function on a value that holds
the variables it touches, and a method of a class that changes those variables step by step, proved
to leave exactly the state the function gives. The theorems are about the functions, over every run
of them. The blocking loops of queue.c are a state machine with one step per critical section; the
sections that change the queue are the methods of `Queues.QueueObject`.

- **Scheduler and clock** (`Sched*.dfy`, `Kernel.dfy`, `TimeOuts.dfy`). Ready lists, the two delayed
  lists, pended ticks, pending-ready list, suspension, creation and deletion. An unbounded clock
  beside the 32-bit tick count says when a task is really due.
- **Timer daemon** (`Timer*.dfy`). Two lists by epoch and the command queue it also posts to itself.
  Every item and message carries the unbounded time it stands for, and every followed timer the start
  of its schedule and the number of its runs since. A schedule begins when a start, a reset or a period
  change is handled.
- **Queues** (`Queue*.dfy`). The ring of slots; the blocking
  protocol with every critical section as one atomic step and interrupts, other tasks and the tick
  between them.
- **Mutexes** (`Mutex*.dfy`). Priority inheritance, disinheritance and timeouts over several mutexes,
  recursive ones included.
- **Lists** (`IntrusiveLists.dfy`, `Rings.dfy`, `Arenas.dfy`). The linked list refines a sequence with
  a walking index; an arena is a family of such lists with the items' container fields.
- **Stream and message buffers** (`StreamBuffers.dfy`, `StreamRuns.dfy`, `PlainStreams.dfy`), **event groups**
  (`EventGroup*.dfy`), **RTT rings** (`ByteRings.dfy`, `Rtt*.dfy`) and **RTT number printing**
  (`PrintText.dfy`, `RttPrintf.dfy`).

The configuration is the repository's own (`User/FreeRTOS/include/FreeRTOSConfig.h`): five
priorities, 32-bit ticks, preemption, mutexes and recursive mutexes, software timers with a queue of
five, suspension of tasks. It differs in two points: the generic task selection of
`User/FreeRTOS/tasks.c:115-148` stands for the port-optimised one, and queues belong to no queue set.
The list macros are those of `User/FreeRTOS/include/list.h`.

Where the code does not do what its comments or its plain reading promise, the model follows the
code and says exactly when the promise holds:

- `prvAddCurrentTaskToDelayedList` demands a block time above zero on the last tick of an epoch, or the
  assertion of the list switch fails (`SchedTheorems.ZeroDelayTrips`); the callers in the repository
  meet that demand, so this is no reachable failure;
- the lock counts of a queue are eight bits wide (`QueueLimits.LockCountExact`), and a reset wakes
  one sender only (`QueueLimits.ResetExact`);
- priority inheritance does not follow chains of mutexes (`MutexLimits.NestedBlocking`), changing the
  priority of a holder or of a waiter can put the waiter above the holder
  (`MutexSafety.SetPriorityExact`), and the assertion on outstanding inheritance in
  `xQueueSemaphoreTake` can fail (`MutexLimits.StaleExact`); `MutexWitnesses` holds a run for each;
- a timer command older than one turn of the clock can be misjudged (`TimerSteps.PlaceRightIff`);
- a reset or period change can be overruled by restarts that the daemon has posted behind it
  (`TimerSettles.CommandSettles` says exactly when, `TimerLimits.ResetOverruled` is a run), and a stop is
  undone by any restart behind it (`TimerHistories.StopSettles`, `TimerLimits.StopUndone`);
- a one-shot timer that is run while the timer lists are switched still counts as active afterwards
  (`TimerActive.OneShotDormant`, `TimerLimits.OneShotStaysActive`);
- a timeout or a periodic delay checked too late can be misjudged (`TimeOuts.DecideExact`,
  `TimeOuts.DelayUntilExact`);
- overwriting an RTT ring twice round in one write corrupts it (`RttOverwrite.OverwriteExact`).

## Model

| member | source | states |
|---|---|---|
| `SchedTheorems.ExactWake` | User/FreeRTOS/tasks.c:5080-5189 | a task that blocks for d ticks at unbounded tick N is on a delayed list before N + d and on the ready list of its priority from N + d on, in every run that does not touch it otherwise: across clock wraps, list switches, pended ticks and the next-unblock shortcut |
| `SchedTheorems.BlockInv` | User/FreeRTOS/tasks.c:3019-3033 | blocking keeps the whole scheduler invariant, so the runs of ExactWake exist |
| `SchedTheorems.StepInv` | User/FreeRTOS/tasks.c:2664-2833 | every kernel operation keeps the invariant, and ticks processed plus ticks pended grow by exactly the ticks delivered |
| `SchedTheorems.RunInv` | User/FreeRTOS/tasks.c:2173-2280 | the invariant holds in every reachable state, xPendingReadyList is empty whenever the scheduler runs, and no delivered tick is lost |
| `SchedTheorems.OnePlaceEach` | User/FreeRTOS/tasks.c:1072-1152 | in every reachable state each live task stands on exactly one state list, the one of its own priority if that is a ready list, its event item on at most one list, the list lengths add up to uxCurrentNumberOfTasks, and the termination list is as long as uxDeletedTasksWaitingCleanUp |
| `SchedTheorems.ZeroDelayTrips` | User/FreeRTOS/tasks.c:198-210 | on the last tick of an epoch the delayed list is empty; after a block it still is, as the switch assertion demands, exactly when the block time is not zero |
| `SchedTick.AdvancedMoved` | User/FreeRTOS/tasks.c:2680-2691 | the assertion that the delayed list is empty at the switch never fails |
| `SchedTick.AdvancedDue` | User/FreeRTOS/tasks.c:2697-2773 | after the clock has moved, a delayed task counts as expired exactly when its unbounded due time has come |
| `SchedTick.DrainExact` | User/FreeRTOS/tasks.c:2697-2773 | the expiry loop readies exactly the expired tasks of the delayed list and leaves the others and the clock as they were |
| `SchedTick.TickExact` | User/FreeRTOS/tasks.c:2664-2833 | one tick keeps the two-list clock invariant and moves exactly the tasks due at it |
| `SchedTick.TickSwitch` | User/FreeRTOS/tasks.c:2664-2833 | the tick asks for a switch exactly when it wakes a task that is not below the running one, when another task shares the running one's priority, or when a yield is pending; while the scheduler is suspended only the last counts |
| `SchedSteps.AddTimed` | User/FreeRTOS/tasks.c:5117-5148 | a timed block puts the task in wake order on the list of the epoch it wakes in and lowers the next-unblock time if need be |
| `SchedSteps.TimedClock` | User/FreeRTOS/tasks.c:5117-5148 | a timed block keeps both delayed lists sorted and on their side of the tick count |
| `SchedSteps.BlockKeeps` | User/FreeRTOS/tasks.c:3019-3033 | blocking, on an event list or not, keeps places and clock |
| `SchedSteps.WakeKeeps` | User/FreeRTOS/tasks.c:3093-3158 | xTaskRemoveFromEventList with the scheduler running keeps places and clock |
| `SchedOps.ResumeKeeps` | User/FreeRTOS/tasks.c:1843-1889 | vTaskResume keeps places and clock and moves a suspended task only |
| `SchedOps.ResumeISRKeeps` | User/FreeRTOS/tasks.c:1897-1962 | xTaskResumeFromISR does so too, by way of the pending-ready list while the scheduler is suspended |
| `SchedOps.NotifyKeeps` | User/FreeRTOS/tasks.c:4775-4811 | a notification, from a task or an interrupt, to a task still blocked or already timed out, readies or pends it and keeps places and clock |
| `SchedOps.SuspendKeeps` | User/FreeRTOS/tasks.c:1696-1790 | vTaskSuspend keeps places and clock and takes the task off every other list |
| `SchedOps.RepriKeeps` | User/FreeRTOS/tasks.c:1609-1672 | a priority change keeps the ready lists by priority and no list above uxTopReadyPriority in use |
| `SchedOps.CreateKeeps` | User/FreeRTOS/tasks.c:1072-1152 | a new task keeps places, counters and clock |
| `SchedOps.DeleteKeeps` | User/FreeRTOS/tasks.c:1157-1242 | deleting the running task or another keeps places, counters and clock |
| `SchedOps.CleanupKeeps` | User/FreeRTOS/tasks.c:3577-3603 | the idle task frees exactly the tasks waiting for it |
| `SchedRuns.LateTickKeeps` | User/FreeRTOS/tasks.c:2231-2255 | a pended tick replayed later keeps the invariant and every wake-up date |
| `SchedRuns.ReplayKeeps` | User/FreeRTOS/tasks.c:2231-2255 | replaying k pended ticks advances the clock by exactly k |
| `SchedRuns.ResumeAllKeeps` | User/FreeRTOS/tasks.c:2173-2280 | xTaskResumeAll keeps the invariant, the sum of processed and pended ticks, and every wake-up date |
| `SchedRuns.SwitchKeeps` | User/FreeRTOS/tasks.c:2946-3016 | a context switch keeps the invariant |
| `SchedRuns.SwitchBest` | User/FreeRTOS/tasks.c:133-148 | the selected task is ready and no ready task has a higher priority |
| `SchedSuspend.InsideWindow` | User/FreeRTOS/tasks.c:2100-2107 | while the scheduler is suspended at any depth, ticks are only counted |
| `SchedSuspend.SuspensionTransparent` | User/FreeRTOS/tasks.c:2173-2280 | k ticks delivered while the scheduler is suspended at any nesting, then drained by the outermost xTaskResumeAll, leave the state that k ordinary tick calls leave, with a yield pending exactly when one was before or one of those ticks asks for a switch |
| `SchedSuspend.TimeSliceFair` | User/FreeRTOS/tasks.c:133-148 | over as many switches as there are tasks at the highest ready priority, each of them is selected exactly once |
| `SchedEffects.EventWakes` | User/FreeRTOS/tasks.c:3093-3158 | the first waiter of an event list, and it alone, is put at the end of its ready list and off the event list, or while the scheduler is suspended is moved to the pending-ready list with its state item left; the rest of the event list stays; a yield becomes pending exactly for a higher priority |
| `SchedEffects.NotifyWakes` | User/FreeRTOS/tasks.c:4907-4939 | a notified task is put at the end of its ready list, or from an interrupt while the scheduler is suspended onto the pending-ready list; the interrupt form leaves a yield pending exactly for a higher priority |
| `SchedEffects.ResumeWakes` | User/FreeRTOS/tasks.c:1843-1889 | a task that is really suspended is put at the end of its ready list, and nothing happens to any other |
| `SchedEffects.ResumeISRWakes` | User/FreeRTOS/tasks.c:1897-1962 | likewise from an interrupt, or onto the pending-ready list while the scheduler is suspended |
| `SchedEffects.SuspendMoves` | User/FreeRTOS/tasks.c:1696-1790 | the task goes to the suspended list from whatever list it is on, and off its event list |
| `SchedEffects.DeleteMoves` | User/FreeRTOS/tasks.c:1157-1242 | the running task goes to the termination list, any other leaves its list and loses its TCB, either off its event list; the counters follow |
| `SchedEffects.CreateJoins` | User/FreeRTOS/tasks.c:1072-1152 | a new task is put at the end of the ready list of its priority, and its event item shows that priority |
| `SchedEffects.PriorityMoves` | User/FreeRTOS/tasks.c:1609-1672 | a ready task goes to the end of its new ready list, any other stays; the event item shows the new priority |
| `SchedEffects.BlockMoves` | User/FreeRTOS/tasks.c:3019-3033 | the running task leaves for the suspended list or for its wake-up date, and its event item goes onto the event list behind all of no lower priority and before all of lower priority |
| `SchedEffects.SwitchMoves` | User/FreeRTOS/tasks.c:2946-3016 | with the scheduler running, the next item of the highest ready list in use is selected and the yield no longer pending; with it suspended, nothing but a yield is left pending |
| `SchedEffects.CleanupFrees` | User/FreeRTOS/tasks.c:3577-3603 | exactly the deleted tasks lose their TCBs and are counted off |
| `SchedEffects.DrainPendingDelivers` | User/FreeRTOS/tasks.c:2197-2225 | every task on the pending-ready list comes to its ready list, and a yield becomes pending exactly when one of them is not below the running task |
| `SchedEffects.ResumeAllYields` | User/FreeRTOS/tasks.c:2173-2280 | after the outermost xTaskResumeAll a yield is pending exactly when one was before, a task readied is not below the running one, or a replayed tick asks for a switch |
| `SchedEffects.WakeNotLost` | User/FreeRTOS/tasks.c:3093-3158 | a task woken by an event, a notification or a resumption, by a task or an interrupt, with the scheduler running or suspended at any depth, is ready at its priority whenever the scheduler runs, over every legal run that leaves the task alone |
| `SchedEffects.WokenChosen` | User/FreeRTOS/tasks.c:2946-3016 | and the next switch selects it when it is above every other ready task |
| `Rings.RemoveWalksOn` | User/FreeRTOS/list.c:170-196 | taking an item off the list leaves the round-robin walk as it would have been without the item |
| `Rings.InsertKeepsIndex` | User/FreeRTOS/list.c:74-167 | putting an item on the list leaves the walking index on the item it is on |
| `Rings.FairWalk` | User/FreeRTOS/include/list.h:277-288 | from any index, as many steps as there are items select each item exactly once |
| `Rings.FreshIsLast` | User/FreeRTOS/list.c:74-100 | an item inserted at the end is reached only after all the others |
| `Rings.InsertPosSorted` | User/FreeRTOS/list.c:103-167 | insertion keeps the list sorted and puts the new item after every equal key, portMAX_DELAY included |
| `Arenas.Conserved` | User/FreeRTOS/list.c:74-196 | the list lengths add up to the number of items that say they are on a list |
| `Kernels.Kernel.constructor` | User/FreeRTOS/tasks.c:3545-3574 | the initial lists satisfy the invariant |
| `Kernels.Kernel.ResetNextTaskUnblockTime` | User/FreeRTOS/tasks.c:3879-3900 | the next-unblock time is the head of the delayed list, or portMAX_DELAY |
| `Kernels.Kernel.SwitchDelayedLists` | User/FreeRTOS/tasks.c:198-210 | the lists change roles, one overflow is counted, the next-unblock time is reset |
| `Kernels.Kernel.IncrementTick` | User/FreeRTOS/tasks.c:2664-2833 | leaves exactly the specified state, and reports the specified switch request |
| `Kernels.Kernel.WakeExpired` | User/FreeRTOS/tasks.c:2697-2773 | the expiry loop leaves exactly the specified state |
| `Kernels.Kernel.AddCurrentTaskToDelayedList` | User/FreeRTOS/tasks.c:5080-5189 | leaves exactly the specified state |
| `Kernels.Kernel.PlaceOnEventList` | User/FreeRTOS/tasks.c:3019-3033 | inserts the running task by priority and blocks it |
| `Kernels.Kernel.RemoveFromEventList` | User/FreeRTOS/tasks.c:3093-3158 | readies or pends the first waiter and asks for a yield when it has the higher priority |
| `Kernels.Kernel.DeliverPending` | User/FreeRTOS/tasks.c:2197-2225 | the pending-ready loop leaves exactly the specified state |
| `Kernels.Kernel.ReplayTicks` | User/FreeRTOS/tasks.c:2231-2255 | the pended-tick loop leaves exactly the specified state |
| `Kernels.Kernel.ResumeScheduler` | User/FreeRTOS/tasks.c:2173-2280 | leaves exactly the specified state and reports a pending yield |
| `Kernels.Kernel.FindHighestReady` | User/FreeRTOS/tasks.c:133-148 | the downward search finds the specified priority, whose list is not empty |
| `Kernels.Kernel.SwitchContext` | User/FreeRTOS/tasks.c:2946-3016 | leaves exactly the specified state |
| `Kernels.Kernel.TaskSuspend` | User/FreeRTOS/tasks.c:1696-1790 | leaves exactly the specified state |
| `Kernels.Kernel.TaskResume` | User/FreeRTOS/tasks.c:1843-1889 | leaves exactly the specified state |
| `Kernels.Kernel.TaskResumeFromISR` | User/FreeRTOS/tasks.c:1897-1962 | leaves exactly the specified state and asks for a yield exactly when it readies a task that is not below the running one |
| `Kernels.Kernel.GenericNotify` | User/FreeRTOS/tasks.c:4775-4811 | leaves exactly the specified lists and asks for a yield when the notified task has the higher priority |
| `Kernels.Kernel.GenericNotifyFromISR` | User/FreeRTOS/tasks.c:4907-4939 | leaves exactly the specified state and reports a higher-priority wake-up |
| `Kernels.Kernel.ChangePriority` | User/FreeRTOS/tasks.c:1609-1672 | leaves exactly the specified state |
| `Kernels.Kernel.AddNewTask` | User/FreeRTOS/tasks.c:1072-1152 | leaves exactly the specified state |
| `Kernels.Kernel.TaskDelete` | User/FreeRTOS/tasks.c:1157-1242 | leaves exactly the specified state |
| `Kernels.Kernel.CheckTasksWaitingTermination` | User/FreeRTOS/tasks.c:3577-3603 | the clean-up loop leaves exactly the specified state |
| `TimeOuts.DecideExact` | User/FreeRTOS/tasks.c:3215-3275 | the verdict is a timeout exactly from the unbounded deadline on if and only if less than a full turn of the clock has passed since the stamp, or the overflow count differs and the tick is not below the entry tick, or the wrapped elapsed time is at least the wait |
| `TimeOuts.DeadlineConstant` | User/FreeRTOS/tasks.c:3215-3275 | over repeated checks, entry time plus remaining ticks is the same deadline until it passes |
| `TimeOuts.TimeOut.CheckForTimeOut` | User/FreeRTOS/tasks.c:3215-3275 | before the deadline it re-stamps and reduces the wait to what is left; from the deadline on it reports a timeout and sets the wait to 0, unless a full turn has passed since the stamp, when the wait stays as it was |
| `TimeOuts.DelayUntilExact` | User/FreeRTOS/tasks.c:1249-1326 | the delay decision is right about the unbounded wake time exactly while the caller is less than one turn late or the wrapped lateness is past the increment |
| `TimeOuts.DelayUntil` | User/FreeRTOS/tasks.c:1249-1326 | wakes at the previous wake time plus the increment and delays by exactly the difference |
| `TimeOuts.NoDrift` | User/FreeRTOS/tasks.c:1249-1326 | the k-th wake time is the start plus k increments |
| `TimerSteps.PlaceExact` | User/FreeRTOS/timers.c:668-706 | process now exactly when the period has elapsed; otherwise the current list exactly when the expiry lies in the epoch of now, else the overflow list |
| `TimerSteps.PlaceRightIff` | User/FreeRTOS/timers.c:668-706 | for a command of any age the decision is right exactly when it is less than one turn old or enough of the current turn has gone by |
| `Timers.SwitchProgress` | User/FreeRTOS/timers.c:857-914 | each pass of the switch loop drops a timer or moves an expiry strictly towards the end of the epoch |
| `TimerSteps.SwitchLoopKeeps` | User/FreeRTOS/timers.c:857-914 | the switch loop gives every timer of the ending epoch exactly its runs in it and empties the list |
| `TimerSteps.WrapShows` | User/FreeRTOS/timers.c:645-666 | sampled at least once a turn, the clock shows a smaller tick exactly when it has wrapped |
| `TimerSteps.SampleKeeps` | User/FreeRTOS/timers.c:645-666 | sampling the time keeps every timer on schedule and switches the lists exactly at a wrap |
| `TimerSteps.ProcessTimerKeeps` | User/FreeRTOS/timers.c:559-616 | processing the head timer keeps every timer on schedule |
| `TimerSteps.StartKeeps` | User/FreeRTOS/timers.c:770-799 | a start or restart less than a turn old puts its timer on schedule on each of the three paths, unless a restart of the timer is still behind it |
| `TimerSteps.PeriodKeeps` | User/FreeRTOS/timers.c:807-820 | so does a period change, counting from when it is handled |
| `TimerDates.InsertTimerDated` | User/FreeRTOS/timers.c:668-706 | a timer whose command is less than a turn old goes to the list of the epoch it is due in, or is due already |
| `TimerDates.SwitchLoopDated` | User/FreeRTOS/timers.c:857-914 | the switch loop leaves every item in the list of its epoch and every restart it posts stamped with the time it was due |
| `TimerSteps.CommandKeeps` | User/FreeRTOS/timers.c:709-852 | any command, start, reset, restart, stop, period change or delete, leaves every followed timer on schedule and every listed timer followed unless a restart of it is under way |
| `TimerRuns.RunOnTime` | User/FreeRTOS/timers.c:523-556 | in every reachable state of daemon and users each listed timer is in the right list and each followed one on its schedule |
| `TimerRuns.RightEpoch` | User/FreeRTOS/timers.c:645-706 | in every reachable state each listed timer, whatever was commanded, sits in the list of the epoch it is due in, its item shows that time, and comparing ticks on the current list compares times |
| `TimerRuns.CommandDecides` | User/FreeRTOS/timers.c:709-852 | a start, reset or period change of any timer, listed or not, handled with no restart of that timer behind it in the queue, begins the schedule it asks for: from when it was sent, or, for a period change, from when it is handled |
| `TimerSettles.SameSchedule` | User/FreeRTOS/timers.c:668-706 | two starts of a timer lead to the same next expiry exactly when they are a whole number of periods apart |
| `TimerSettles.WinnerIs` | User/FreeRTOS/timers.c:770-799 | the start that has the last word is late by at least as many periods as any of those under way, and by more than all behind it |
| `TimerSettles.CommandSettles` | User/FreeRTOS/timers.c:709-852 | once the daemon has caught up after a start, reset or period change of an auto-reload timer, that timer is listed on the schedule of the start that has the last word among the command and the restarts behind it; so it is listed as the command asks exactly when that start is a whole number of periods away from the command |
| `TimerSettles.HarmlessRestarts` | User/FreeRTOS/timers.c:709-852 | the command takes effect when each restart behind it is late by fewer periods than the command or a whole number of periods away from it; with at most one restart behind it, only then |
| `TimerSettles.SecondOverrulesFirst` | User/FreeRTOS/timers.c:770-799 | with two restarts behind it a reset can take effect although the first of them alone would have overruled it |
| `TimerSettles.LateResetWins` | User/FreeRTOS/timers.c:770-799 | a reset that is a period late itself takes effect although a restart is behind it |
| `TimerLimits.ResetOverruled` | User/FreeRTOS/timers.c:857-914 | a legal run in which the wrap posts a restart behind a pending reset, and the timer is left listed for one period after its last run and not after the reset |
| `TimerHistories.StopTakes` | User/FreeRTOS/timers.c:801-805 | a stop or delete, handled in any reachable state, leaves the timer on neither list and without a further run, though the lists may be switched while it is handled |
| `TimerHistories.StopLasts` | User/FreeRTOS/timers.c:709-852 | from then on the timer is on neither list and does not run, over any legal run, until a start, reset, restart or period change of it is handled; with none behind the stop in the queue, none is handled unless a user sends one |
| `TimerHistories.StopSettles` | User/FreeRTOS/timers.c:709-852 | once the daemon has caught up, the stop of an auto-reload timer has taken effect exactly when no restart of it was behind the stop; otherwise the restart with the last word has listed it again |
| `TimerLimits.StopUndone` | User/FreeRTOS/timers.c:857-914 | a legal run in which the wrap posts a restart behind a pending stop, and the timer is left listed and active |
| `TimerActive.ActiveMeans` | User/FreeRTOS/timers.c:967-989 | in every reachable state a listed timer is active, and an active one is listed, about to be restarted, or a one-shot timer that has run |
| `TimerActive.OneShotDormant` | User/FreeRTOS/timers.c:482-520 | a one-shot timer that a timer turn runs becomes dormant exactly when the clock has not wrapped since the last sample |
| `TimerLimits.OneShotStaysActive` | User/FreeRTOS/timers.c:857-914 | a legal run in which the list switch runs a one-shot timer: it is on no list, nothing is under way, and it still counts as active |
| `TimerRuns.NeverEarly` | User/FreeRTOS/timers.c:482-520 | the k-th run of a timer is never before the start of its schedule plus k periods, and a one-shot timer runs at most once |
| `TimerRuns.TimerTurnWork` | User/FreeRTOS/timers.c:482-520 | with the clock standing still, processing a due timer leaves strictly less to do |
| `TimerRuns.CommandTurnWork` | User/FreeRTOS/timers.c:709-852 | and so does handling a command, self-addressed restarts included |
| `TimerRuns.DrainOnTime` | User/FreeRTOS/timers.c:523-556 | the daemon loop comes to rest with an empty queue, nothing due, and every timer on schedule |
| `TimerRuns.ExactRuns` | User/FreeRTOS/timers.c:857-914 | after draining, every listed timer is followed, and the callback of each followed timer has run exactly once for each k >= 1 with C + kP <= now, C being when its schedule began: by a start, a reset, a period change or a restart, on the normal, late and wrap paths |
| `TimerHistories.ScheduleStays` | User/FreeRTOS/timers.c:523-556 | over any legal run in which no user says anything about a timer, the start of its schedule and its period stay, none of its runs is undone, and nothing but restarts of it is under way |
| `TimerHistories.ExactFromCommand` | User/FreeRTOS/timers.c:482-520 | from a start sent at C, or a period change handled at C, with nothing else about the timer under way, through any later run in which no user mentions the timer: whenever the daemon has caught up, the callback has run exactly once for each k >= 1 with C + kP <= now, P being the period then in force; that of a one-shot timer once, if it was due |
| `TimerDaemons.TimerDaemon.constructor` | User/FreeRTOS/timers.c:916-943 | the initial daemon state |
| `TimerDaemons.TimerDaemon.InsertByExpiry` | User/FreeRTOS/list.c:103-167 | the insertion scan finds the specified place |
| `TimerDaemons.TimerDaemon.InsertTimerInActiveList` | User/FreeRTOS/timers.c:668-706 | leaves exactly the specified lists and answer |
| `TimerDaemons.TimerDaemon.SwitchTimerLists` | User/FreeRTOS/timers.c:857-914 | leaves exactly the specified state, and ends |
| `TimerDaemons.TimerDaemon.SampleTimeNow` | User/FreeRTOS/timers.c:645-666 | leaves exactly the specified state |
| `TimerDaemons.TimerDaemon.ProcessExpiredTimer` | User/FreeRTOS/timers.c:482-520 | leaves exactly the specified state |
| `TimerDaemons.TimerDaemon.ProcessTimerOrBlockTask` | User/FreeRTOS/timers.c:559-616 | leaves exactly the specified state |
| `TimerDaemons.TimerDaemon.StartTimer` | User/FreeRTOS/timers.c:770-799 | the start case leaves exactly the specified state |
| `TimerDaemons.TimerDaemon.ChangeTimerPeriod` | User/FreeRTOS/timers.c:807-820 | the change-period case leaves exactly the specified state |
| `TimerDaemons.TimerDaemon.ProcessNextCommand` | User/FreeRTOS/timers.c:709-852 | leaves exactly the specified state |
| `TimerDaemons.TimerDaemon.RunUntilIdle` | User/FreeRTOS/timers.c:523-556 | the loop with a standing clock computes the drained state, and ends |
| `Queues.SlotIsModulo` | User/FreeRTOS/queue.c:2096-2143 | the write slot is (read slot + 1 + count) modulo the length |
| `Queues.QueueObject.constructor` | User/FreeRTOS/queue.c:429-460 | an empty queue with both lists empty and unlocked |
| `Queues.QueueObject.GenericReset` | User/FreeRTOS/queue.c:255-305 | empties the queue and wakes one sender |
| `Queues.QueueObject.CopyToBack` | User/FreeRTOS/queue.c:2096-2108 | appends to the contents |
| `Queues.QueueObject.CopyToFront` | User/FreeRTOS/queue.c:2109-2120 | prepends to the contents |
| `Queues.QueueObject.CopyOver` | User/FreeRTOS/queue.c:2109-2143 | on a queue of length 1, replaces the contents |
| `Queues.QueueObject.CopyDataToQueue` | User/FreeRTOS/queue.c:2070-2146 | the three positions on the abstract contents |
| `Queues.QueueObject.CopyDataFromQueue` | User/FreeRTOS/queue.c:2149-2164 | reads the oldest item |
| `Queues.QueueObject.TrySend` | User/FreeRTOS/queue.c:766-876 | sends exactly when there is room or the item is to be overwritten, and wakes one receiver |
| `Queues.QueueObject.TryReceive` | User/FreeRTOS/queue.c:1297-1333 | takes the oldest item exactly when there is one, and wakes one sender |
| `Queues.QueueObject.TryPeek` | User/FreeRTOS/queue.c:1657-1699 | hands out the oldest item, leaves the contents as they were and wakes one receiver |
| `Queues.QueueObject.GenericSendFromISR` | User/FreeRTOS/queue.c:957-1105 | wakes a receiver when unlocked, otherwise counts in an int8_t |
| `Queues.QueueObject.TakeFromISR` | User/FreeRTOS/queue.c:1781-1869 | wakes a sender when unlocked, otherwise counts in an int8_t |
| `Queues.QueueObject.LockQueue` | User/FreeRTOS/queue.c:240-252 | unlocked counts become locked ones, others stay |
| `Queues.QueueObject.UnlockTransmit` | User/FreeRTOS/queue.c:2167-2253 | wakes as many receivers as the count says or as there are |
| `Queues.QueueObject.UnlockReceive` | User/FreeRTOS/queue.c:2255-2284 | wakes as many senders as the count says or as there are |
| `QueueProtocol.StepKeeps` | User/FreeRTOS/queue.c:747-954 | every critical section of send, receive and peek, every interrupt and every timeout keeps the protocol invariant |
| `QueueProtocol.NeverLost` | User/FreeRTOS/queue.c:1273-1411 | in every interleaving with fewer than 128 interrupts of a kind in a lock window: a sleeping receiver means at most as many items as woken receivers yet to retry plus the lock count; and the same for senders and slots |
| `QueueProtocol.NobodySleepsInVain` | User/FreeRTOS/queue.c:2167-2284 | once the queue is unlocked and the woken tasks have retried, no receiver sleeps on data and no sender on space |
| `QueueProtocol.WaitsOnce` | User/FreeRTOS/queue.c:1632-1778 | no task is on both event lists or counted twice |
| `QueueTheorems.FirstInFirstOut` | User/FreeRTOS/queue.c:2070-2164 | over every run with sends to the back, the items received are exactly the first items sent, in order |
| `QueueDeque.ComesOutAsFromADeque` | User/FreeRTOS/queue.c:2070-2143 | over every run with sends to the back and to the front and overwrites, by tasks and interrupts in any interleaving, the queue holds what a deque holds after the same operations and has handed out what the deque has |
| `QueueDeque.FrontComesNext` | User/FreeRTOS/queue.c:2109-2143 | in every reachable state an item sent to the front is the next one received, and leaves the earlier contents |
| `QueueCalls.SleepsWhenItMust` | User/FreeRTOS/queue.c:747-985 | a call that finds the queue full, or empty, and still does with the queue locked, leaves its task on the event list at its place, the queue unlocked and the scheduler running |
| `QueueCalls.RetriesWhenItNeedNot` | User/FreeRTOS/queue.c:1273-1411 | a call that finds, with the queue locked, that it need not wait, comes back to the top of the loop with nothing else changed |
| `QueueCalls.GivesUpInTime` | User/FreeRTOS/queue.c:1273-1411 | a call whose block time is up unlocks the queue and returns; a receiver first looks once more and starts again if there is an item |
| `QueueCalls.WokenReceives` | User/FreeRTOS/queue.c:1273-1411 | a receiver that has been woken returns with the oldest item in two turns; one still on the event list sleeps on |
| `QueueCalls.TimedOutLeaves` | User/FreeRTOS/queue.c:1273-1411 | the tick at which a block time is up takes its task alone off the event lists, and the task goes back to the top of the loop |
| `QueueLimits.ResetExact` | User/FreeRTOS/queue.c:277-287 | after a reset no sender is lost exactly when at most one was waiting or the woken ones can fill the queue but for one slot |
| `QueueLimits.ResetLosesOne` | User/FreeRTOS/queue.c:277-287 | a legal run in which two senders come to sleep on a full queue of two, after which a reset leaves one asleep on free space |
| `QueueLimits.PostsCount` | User/FreeRTOS/queue.c:1089-1092 | up to 255 posts to a locked queue are counted, wrapped to int8_t, and wake nobody |
| `QueueLimits.LockCountExact` | User/FreeRTOS/queue.c:957-1105 | for any number of posts in one lock window, posts and unlock together wake as many receivers as they ought to exactly when at most 127 items came in, nobody waits, or the posts after the 255th, which brings the count to queueUNLOCKED, are enough for all that wait |
| `QueueLimits.LockCountOverflow` | User/FreeRTOS/queue.c:1089-1092 | 128 items posted while the only receiver goes to sleep leave it asleep on all of them |
| `MutexRuns.BooksBalance` | User/FreeRTOS/queue.c:1452-1473 | in every run uxMutexesHeld counts the mutexes held, a mutex is free exactly when it has no holder, a task holding none runs at its base priority, and a recursive count is positive exactly while held |
| `MutexRuns.StepBooks` | User/FreeRTOS/tasks.c:4037-4110 | every mutex operation keeps those books |
| `MutexSafety.HolderNeverBelow` | User/FreeRTOS/tasks.c:3950-4030 | when no task blocks while holding another mutex: from the moment a task blocks until it leaves the list or that mutex is given, the holder priority is at least the task priority, through timeouts, other mutexes and gives in any order; and no task disinherits from itself |
| `MutexSafety.HighestCovers` | User/FreeRTOS/queue.c:2045-2065 | the priority a holder falls back to covers every task still waiting |
| `MutexSafety.LateSafe` | User/FreeRTOS/tasks.c:4117-4212 | disinheriting after a timeout leaves every other waiter covered |
| `MutexSafety.BlockSafe` | User/FreeRTOS/tasks.c:3950-4030 | blocking with inheritance keeps the guarantee |
| `MutexSafety.GiveSafe` | User/FreeRTOS/tasks.c:4037-4110 | giving a mutex back in any order keeps the guarantee for the others |
| `MutexSafety.SetPriorityExact` | User/FreeRTOS/tasks.c:1609-1629 | from any state in which it holds, reachable or not, for every task, waiting or not: a priority change keeps holders at or above their waiters exactly when it changes nothing in use, or the new priority is no lower than those the task keeps waiting and no higher than those of the holders it waits for |
| `MutexWitnesses.RaisedWaiter` | User/FreeRTOS/tasks.c:1609-1629 | a legal run in which raising a waiting task puts it above the holder it waits for |
| `MutexLimits.NestedBlocking` | User/FreeRTOS/tasks.c:3950-4030 | from any state in which it holds, reachable or not, blocking on a mutex keeps holders at or above their waiters exactly when its holder need not be raised, or waits for no mutex whose holder is below the new waiter |
| `MutexWitnesses.NestedWaiter` | User/FreeRTOS/tasks.c:3950-4030 | a legal run in which blocking on a mutex of a waiting task leaves the outer holder below it |
| `MutexLimits.StaleExact` | User/FreeRTOS/queue.c:1498-1507 | in every run the assertion that no inheritance is outstanding has failed exactly when some task came to its last try with nothing left to wait, after somebody had inherited on its behalf, and found the mutex it had seen free taken; and then somebody took it in between |
| `MutexWitnesses.StaleInheritance` | User/FreeRTOS/queue.c:1498-1507 | a legal run from the initial state in which that assertion fails |
| `MutexEffects.InheritExact` | User/FreeRTOS/tasks.c:3950-4034 | the holder goes to the larger of its own priority and that of the task about to block, its event item shows it, nobody else changes, and the answer tells whether anything is or was inherited |
| `MutexEffects.DisinheritExact` | User/FreeRTOS/tasks.c:4037-4114 | with its last mutex a task goes back to its base priority, shown in its event item; with others left it keeps its priority |
| `MutexEffects.FallbackExact` | User/FreeRTOS/tasks.c:4117-4211 | the holder of this mutex alone goes to the larger of its base priority and that of the first remaining waiter, shown in its event item if it changes; the holder of several changes in nothing |
| `MutexEffects.TimeoutSettles` | User/FreeRTOS/tasks.c:4143-4161 | over every disciplined run, when a task gives up waiting and the holder holds no other mutex, the holder ends at exactly the maximum of its base priority and those of the tasks still waiting |
| `MutexEffects.SetPriorityResult` | User/FreeRTOS/tasks.c:1609-1629 | the base priority is the one asked for, the priority in use follows unless it is inherited, and the event item shows the new base priority |
| `MutexEffects.BlockExact` | User/FreeRTOS/queue.c:1538-1570 | a task that blocks waits behind all of no lower priority, with inheritance seen to first and remembered |
| `MutexEffects.GiveExact` | User/FreeRTOS/queue.c:2070-2092 | the mutex is free and the first waiter, and it alone, is woken; the giver goes back to its base priority with its last mutex |
| `MutexEffects.NobodyForgotten` | User/FreeRTOS/queue.c:1414-1630 | over every run, tasks never wait for a free mutex without a woken one that is about to take it |
| `MutexEffects.WokenTakes` | User/FreeRTOS/queue.c:1414-1596 | a woken task takes a mutex that is still free in two turns |
| `MutexEffects.TakenBlocks` | User/FreeRTOS/queue.c:1414-1596 | a task that finds the mutex taken is on its list after two turns |
| `MutexEffects.GivesUp` | User/FreeRTOS/queue.c:1538-1630 | a task whose block time is up while the mutex is taken returns, and if somebody inherited on its behalf only after the holder has been settled |
| `MutexEffects.LastTryTakes` | User/FreeRTOS/queue.c:1414-1596 | a task whose block time is up but that finds the mutex free takes it |
| `MutexEffects.LastTryMisses` | User/FreeRTOS/queue.c:1498-1520 | if somebody has been quicker it returns, or with time left asks once more |
| `MutexKernels.MutexKernel.constructor` | User/FreeRTOS/queue.c:466-498 | free mutexes, every task at its own priority |
| `MutexKernels.MutexKernel.PriorityInherit` | User/FreeRTOS/tasks.c:3950-4030 | leaves exactly the specified state and answer |
| `MutexKernels.MutexKernel.PriorityDisinherit` | User/FreeRTOS/tasks.c:4037-4110 | leaves exactly the specified state and answer |
| `MutexKernels.MutexKernel.GetDisinheritPriority` | User/FreeRTOS/queue.c:2045-2065 | the priority of the first waiter, or idle |
| `MutexKernels.MutexKernel.PriorityDisinheritAfterTimeout` | User/FreeRTOS/tasks.c:4117-4212 | leaves exactly the specified state |
| `MutexKernels.MutexKernel.TaskPrioritySet` | User/FreeRTOS/tasks.c:1532-1688 | leaves exactly the specified priorities and event item value |
| `MutexKernels.MutexKernel.TakeFree` | User/FreeRTOS/queue.c:1452-1473 | leaves exactly the specified state |
| `MutexKernels.MutexKernel.InsertByKey` | User/FreeRTOS/list.c:103-167 | the waiter is placed by its event item value |
| `MutexKernels.MutexKernel.BlockOnMutex` | User/FreeRTOS/queue.c:1544-1568 | leaves exactly the specified state |
| `MutexKernels.MutexKernel.GiveMutex` | User/FreeRTOS/queue.c:2079-2095 | leaves exactly the specified state |
| `MutexKernels.MutexKernel.GiveMutexRecursive` | User/FreeRTOS/queue.c:596-644 | gives the mutex back exactly at the last level, and only for the holder |
| `MutexKernels.MutexKernel.GiveUpLate` | User/FreeRTOS/queue.c:1594-1617 | leaves exactly the specified state |
| `IntrusiveLists.List.constructor` | User/FreeRTOS/list.c:37-59 | an empty list |
| `IntrusiveLists.ListItem.constructor` | User/FreeRTOS/list.c:62-71 | an item on no list |
| `IntrusiveLists.List.FindPlace` | User/FreeRTOS/list.c:121-155 | the scan ends at the end marker and finds the place after every value not larger |
| `IntrusiveLists.List.Surgery` | User/FreeRTOS/list.c:157-160 | next and previous pointers stay inverse of each other after an insertion |
| `IntrusiveLists.List.Insert` | User/FreeRTOS/list.c:103-167 | the linked list stays well formed and means the ring with the item at its sorted place |
| `IntrusiveLists.List.InsertEnd` | User/FreeRTOS/list.c:74-100 | the linked list means the ring with the item just before the index |
| `IntrusiveLists.List.Remove` | User/FreeRTOS/list.c:170-196 | removal by the item alone; the index steps back if it was on the item; the count is returned |
| `IntrusiveLists.List.NextEntry` | User/FreeRTOS/include/list.h:277-288 | the index moves to the next item, past the end marker |
| `StreamBuffers.HeaderRoundTrip` | User/FreeRTOS/stream_buffer.c:684-691 | a length written as a header reads back |
| `StreamBuffers.StreamBuffer.BytesInBuffer` | User/FreeRTOS/stream_buffer.c:1189-1206 | the distance from tail to head, going round |
| `StreamBuffers.StreamBuffer.SpacesAvailable` | User/FreeRTOS/stream_buffer.c:470-492 | bytes and spaces add up to the length less one |
| `StreamBuffers.StreamBuffer.WriteBytes` | User/FreeRTOS/stream_buffer.c:1088-1131 | appends to the contents, going round the end |
| `StreamBuffers.StreamBuffer.ReadBytes` | User/FreeRTOS/stream_buffer.c:1134-1186 | takes the oldest bytes |
| `StreamBuffers.StreamBuffer.WriteMessageToBuffer` | User/FreeRTOS/stream_buffer.c:661-711 | a whole message with its header, as many bytes as fit of a stream, or nothing |
| `StreamBuffers.StreamBuffer.ReadMessageFromBuffer` | User/FreeRTOS/stream_buffer.c:918-967 | a whole message, or, when the room is too small, nothing and the contents unchanged |
| `StreamBuffers.StreamBuffer.Send` | User/FreeRTOS/stream_buffer.c:506-607 | the send without waiting |
| `StreamBuffers.StreamBuffer.Receive` | User/FreeRTOS/stream_buffer.c:713-814 | the receive without waiting |
| `StreamBuffers.StreamBuffer.NextMessageLength` | User/FreeRTOS/stream_buffer.c:817-858 | the length of the next message, contents unchanged |
| `StreamBuffers.WriteAccepts` | User/FreeRTOS/stream_buffer.c:661-711 | a stream takes as many of the bytes as there is space for; a message goes in as a whole behind its length, or not at all |
| `StreamBuffers.ReadHandsOut` | User/FreeRTOS/stream_buffer.c:918-967 | a stream hands out the oldest bytes, as many as there are and as fit; a message buffer the message in front if it fits |
| `PlainStreams.BytesInOrder` | User/FreeRTOS/stream_buffer.c:506-606 | over every run of a plain stream with the reader running also between the look at the space and the write, the bytes read followed by those in the ring are those accepted, reads hand out all they can, and the ring is never overfull |
| `StreamRuns.MessagesWholeInOrder` | User/FreeRTOS/stream_buffer.c:661-711 | over every run with a reader between header and payload, the messages received are a prefix of the messages sent, and the ring never holds more than it can |
| `StreamRuns.NextMessageExactly` | User/FreeRTOS/stream_buffer.c:918-967 | in every reachable state a reader with room gets exactly the next message; one without changes nothing |
| `StreamRuns.SecondWriteFits` | User/FreeRTOS/stream_buffer.c:661-711 | whatever the reader does between the two writes, there is room for the second |
| `StreamRuns.TwoWritesAreOne` | User/FreeRTOS/stream_buffer.c:661-711 | without a reader in between the two steps are the one message write |
| `EventGroups.EncodeDecodes` | User/FreeRTOS/event_groups.c:57-60 | 24 event bits and the control bits in one word come apart again |
| `EventGroups.HandedDecodes` | User/FreeRTOS/event_groups.c:589-594 | an unblocked task can tell it was not a timeout and reads back the event bits |
| `EventGroups.ClearMaskExact` | User/FreeRTOS/event_groups.c:577-587 | a bit is cleared exactly when some met waiter that clears on exit waits for it |
| `EventGroups.SetBitsExact` | User/FreeRTOS/event_groups.c:519-610 | exactly the waiters whose condition holds for old or-ed with set are unblocked, each with that same value |
| `EventGroups.OrderIrrelevant` | User/FreeRTOS/event_groups.c:519-610 | neither the bits left nor who waits depends on the order of the list |
| `EventGroupRuns.NobodyLeftWaiting` | User/FreeRTOS/event_groups.c:191-308 | under set, clear, wait, sync and timeouts no waiter whose condition holds is ever on the list |
| `EventGroupRuns.WaiterGetsBits` | User/FreeRTOS/event_groups.c:519-610 | a waiter that a set satisfies gets those very bits |
| `EventGroupBits.ConditionExact` | User/FreeRTOS/event_groups.c:671-711 | the wait condition holds exactly when every bit waited for is in, or any one of them is |
| `EventGroupBits.SetBitsLeaves` | User/FreeRTOS/event_groups.c:519-610 | after a set a bit is in exactly when it was in or set and no met clear-on-exit waiter waited for it |
| `EventGroupBits.StepBit` | User/FreeRTOS/event_groups.c:191-610 | after any operation a bit is in exactly when it was in or was put in, and was not taken out by a waiter unblocked, by the caller on exit or by request |
| `EventGroupBits.BitHistory` | User/FreeRTOS/event_groups.c:191-610 | over any run a bit is in at the end exactly when it was in at the start or some step put it in, and no step from there on took it out |
| `EventGroupBits.TakenOnExit` | User/FreeRTOS/event_groups.c:519-610 | in every reachable state a bit that a met clear-on-exit waiter waits for is gone after the set, so that the next task to wait for it blocks |
| `EventGroupBits.WaitJoins` | User/FreeRTOS/event_groups.c:311-458 | a caller joins the waiting list, with what it waits for in its event item, exactly when its condition does not hold and it may block |
| `EventGroupBits.SyncJoins` | User/FreeRTOS/event_groups.c:191-308 | so does a task at a rendezvous that is not complete |
| `EventGroupBits.OthersLeave` | User/FreeRTOS/event_groups.c:461-500 | a clear and a late exit leave the waiting list alone, and a timeout takes exactly its task off it |
| `EventGroupObjects.EventGroupObject.constructor` | User/FreeRTOS/event_groups.c:146-186 | an empty group |
| `EventGroupObjects.EventGroupObject.Matches` | User/FreeRTOS/event_groups.c:551-575 | the match in the loop is the wait condition |
| `EventGroupObjects.EventGroupObject.ReleaseMatching` | User/FreeRTOS/event_groups.c:544-601 | the loop leaves exactly the specified list, woken values and mask |
| `EventGroupObjects.EventGroupObject.Set` | User/FreeRTOS/event_groups.c:519-610 | leaves exactly the specified state |
| `EventGroupObjects.EventGroupObject.Clear` | User/FreeRTOS/event_groups.c:461-485 | clears the bits and returns the value before |
| `EventGroupObjects.EventGroupObject.Wait` | User/FreeRTOS/event_groups.c:311-396 | leaves exactly the specified state; returns the bits when it does not block |
| `EventGroupObjects.EventGroupObject.Sync` | User/FreeRTOS/event_groups.c:206-248 | leaves exactly the specified state; returns old or-ed with set when the rendezvous is complete, and the bits left after setting when it is not and the call does not block |
| `EventGroupObjects.EventGroupObject.AfterTimeout` | User/FreeRTOS/event_groups.c:416-450 | clears the wanted bits if the condition has come to hold, and returns the bits |
| `RttTheorems.BlockingDelivers` | User/segger_rtt/SEGGER_RTT.c:335-379 | whatever the host reads in between, the bytes it has read followed by the bytes in the ring are the old contents followed by what was written |
| `RttTheorems.TwoPassesSuffice` | User/segger_rtt/SEGGER_RTT.c:335-379 | when the data fits at the start, two passes are enough for any host |
| `RttTheorems.FrozenHost` | User/segger_rtt/SEGGER_RTT.c:399-448 | with a frozen host the blocking writer does what the unchecked writer does |
| `RttTheorems.TerminalOut` | User/segger_rtt/SEGGER_RTT.c:1628-1701 | in skip and trim mode the text and both terminal switches go out whole, trimmed to what fits, or nothing does; and the call ends |
| `RttRings.Ring.GetAvailWriteSpace` | User/segger_rtt/SEGGER_RTT.c:485-501 | the free space |
| `RttRings.Ring.WritePass` | User/segger_rtt/SEGGER_RTT.c:349-375 | one pass writes up to the reader, the end of the buffer or all |
| `RttRings.Ring.WriteBlocking` | User/segger_rtt/SEGGER_RTT.c:335-379 | computes the specified passes |
| `RttRings.Ring.WriteNoCheck` | User/segger_rtt/SEGGER_RTT.c:399-448 | appends behind the unread bytes |
| `RttRings.Ring.WriteSkip` | User/segger_rtt/SEGGER_RTT.c:755-808 | for every length, a space check followed by the unchecked write, or nothing |
| `RttRings.Ring.ReadNoLock` | User/segger_rtt/SEGGER_RTT.c:526-598 | the oldest min(size, used) bytes |
| `RttRings.PutAppends` | User/segger_rtt/SEGGER_RTT.c:399-448 | a write that fits appends to the contents and touches no unread byte |
| `RttOverwrite.WriteWithOverwrite` | User/segger_rtt/SEGGER_RTT.c:655-725 | leaves exactly the specified ring |
| `RttOverwrite.OverwriteExact` | User/segger_rtt/SEGGER_RTT.c:655-725 | leaves the last SizeOfBuffer - 1 bytes of old contents and data, for every data of a length, exactly when the write offset plus the length is below 2 * SizeOfBuffer - 1 |
| `RttOverwrite.ShortWritesAlways` | User/segger_rtt/SEGGER_RTT.c:655-725 | in particular for every write of at most SizeOfBuffer - 1 bytes |
| `RttOverwrite.TooLong` | User/segger_rtt/SEGGER_RTT.c:715-722 | from there on, data exists for which a stale byte or a wrong offset shows |
| `RttPrintf.Descriptor.StoreChar` | User/segger_rtt/SEGGER_RTT_printf.c:121-140 | unless the write fails, flushed blocks and residue grow by the character and the return value by one |
| `RttPrintf.WidthOf` | User/segger_rtt/SEGGER_RTT_printf.c:159-166 | the number of digits to print |
| `RttPrintf.FirstWeight` | User/segger_rtt/SEGGER_RTT_printf.c:187-202 | the weight of the first digit, within 32 bits |
| `RttPrintf.OutputDigits` | User/segger_rtt/SEGGER_RTT_printf.c:206-214 | the digits, most significant first |
| `RttPrintf.PrintUnsigned` | User/segger_rtt/SEGGER_RTT_printf.c:146-230 | unless a write fails, exactly the text of the number, counted in the return value |
| `RttPrintf.PrintInt` | User/segger_rtt/SEGGER_RTT_printf.c:236-306 | the same for an int above INT_MIN |
| `RttPrintf.WeightsFit` | User/segger_rtt/SEGGER_RTT_printf.c:192-202 | base 10 up to precision 10 and base 16 up to 8 never overflow the weight |
| `PrintText.MinDigitsExact` | User/segger_rtt/SEGGER_RTT_printf.c:159-166 | the digit count is the least that holds the value |
| `PrintText.DigitsHead` | User/segger_rtt/SEGGER_RTT_printf.c:206-214 | dividing by the weight splits off exactly the first digit |
| `PrintText.TextWidth` | User/segger_rtt/SEGGER_RTT_printf.c:167-228 | the text is as wide as the field, or as sign and digits if that is more, for every flag |
| `PrintText.IntLaidOut` | User/segger_rtt/SEGGER_RTT_printf.c:236-306 | blanks stand behind the number, zeros behind the sign or blanks before it, as the flags and the precision say, and the sign shows a negative number, or any other if asked for |
| `PrintText.UnsignedLaidOut` | User/segger_rtt/SEGGER_RTT_printf.c:146-230 | the same without a sign |
| `PrintText.IntReadsBack` | User/segger_rtt/SEGGER_RTT_printf.c:236-306 | whatever flags, precision and width, the text of an int reads back as the int |
| `PrintText.UnsignedReadsBack` | User/segger_rtt/SEGGER_RTT_printf.c:146-230 | and the text of an unsigned as the unsigned |

## Left out

- SchedTheorems.ExactWake: the run must not wake, suspend, resume or delete the task itself before its time; the zero block time counts as one tick, as in the code.
- TimerRuns.ExactRuns: counts from the start of the schedule in force, which TimerHistories.ExactFromCommand ties to the command that began it; assumes that the daemon samples the clock at least once a turn, handles every start within a turn, and that its own queue never overflows; otherwise an assertion of the code fails or a run is lost.
- TimerSettles.CommandSettles: the clock stands still while the daemon catches up; one-shot timers, which get no restarts, are left to TimerRuns.CommandDecides.
- TimerHistories.StopSettles: a deleted timer is taken to be statically allocated; freeing its memory is not part of the model.
- QueueProtocol.NeverLost: queues are not reset or deleted and a blocked task is not aborted during the run.
- MutexSafety.HolderNeverBelow: no task blocks on a mutex while it holds one, and the priority of a waiting task is left alone; MutexLimits.NestedBlocking and MutexSafety.SetPriorityExact say exactly when the claim survives each, and MutexWitnesses.NestedWaiter and MutexWitnesses.RaisedWaiter are runs in which it does not.
- RttPrintf.PrintInt: INT_MIN is excluded, because its negation overflows.
- RttOverwrite.WriteWithOverwrite: buffers of one byte are excluded, because the write loop then never ends.
- SchedOps.NotifyKeeps: the notification values and states are not modelled; the task is one that is waiting for a notification.
- Kernels.Kernel.TaskSuspend: the scheduler has been started; the task's notification state is not modelled.
- Kernels.Kernel.AddNewTask: the scheduler has been started, so the running task stays the running task.
- Kernels.Kernel.ChangePriority: whether the priority in use or only the base priority changes is decided in MutexKernels.MutexKernel.TaskPrioritySet.
- MutexKernels.MutexKernel.PriorityInherit: the bit that marks an event item value as in use by an event group is not modelled; a holder blocked on an event group while it holds a mutex is left out.
- MutexKernels.MutexKernel.PriorityDisinheritAfterTimeout: nor here.
- MutexKernels.MutexKernel.TaskPrioritySet: nor here; the request for a context switch is left out.
- Delay abort, event lists of event groups inside the scheduler state, tick hooks and tickless idle.
- Port-optimised task selection: only the generic search is modelled.
- Queue sets, the queue registry, and the copying of an item byte by byte: a slot holds one whole item, and a semaphore is a queue whose items carry nothing.
- uxPendedTicks and uxSchedulerSuspended are unbounded counters in the model; all tick values and the overflow count wrap at 32 bits.
- The kernel lists inside the scheduler, timer and mutex models are values (rings and sequences); that the linked lists of list.c are such rings is proved in IntrusiveLists, but the TCBs do not hold those objects.
- Which ready list an inheriting task is moved to is part of the scheduler model (the list move of a priority change), not of the mutex model.
- Calls of the kernel from within timer callbacks appear as later steps of the run.
- The waiting loops of stream buffers (task notifications) and of xEventGroupWaitBits after the block: only the parts before the block and after a timeout are modelled.
- Interleaving a reader inside the message rollback of a too-small receive buffer; the reader is atomic.
- SEGGER_RTT_TerminalOut in blocking mode, and an invalid terminal number or mode, which return without touching the ring or by the blocking writer.
- SEGGER_RTT_vprintf, whose return value counts the residue twice; buffer allocation and configuration; croutine.c, which repeats the two-list scheme; memory allocation, hardware and port code.
