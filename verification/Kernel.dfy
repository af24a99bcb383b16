/** The kernel object of tasks.c: file-scope variables changed step by step. Each method leaves
    exactly the state the specification in Sched says. */
module Kernels {
  import opened Words
  import opened Rings
  import opened Arenas
  import opened Sched
  import opened SchedInv
  import opened SchedTick
  import opened SchedSteps
  import opened SchedRuns
  import opened SchedTheorems

  class Kernel {
    var items: Arena            // ready, delayed, suspended and termination lists
    var events: Arena           // xPendingReadyList and the event lists
    var wake: map<Task, word>
    var key: map<Task, word>
    var prio: map<Task, nat>
    var current: Task
    var tickCount: word
    var overflows: word
    var pendedTicks: nat
    var suspended: nat
    var nextUnblock: word
    var yieldPending: bool
    var topReady: nat
    var delayed: nat
    var taskCount: nat
    var deletedWaiting: nat
    ghost var now: nat

    ghost function View(): State
      reads this
    {
      State(items, events, wake, key, prio, current, tickCount, overflows, pendedTicks, suspended,
            nextUnblock, yieldPending, topReady, delayed, taskCount, deletedWaiting, now)
    }

    /** prvInitialiseTaskLists and the first task, the idle task. */
    constructor (eventLists: nat, idle: Task)
      ensures Inv(View()) && fresh(this)
      ensures current == idle && tickCount == 0 && prio == map[idle := 0] && |events.lists| == eventLists + 1
    {
      items := Arena([Ring([idle], 0)] + seq(STATE_LISTS - 1, _ => Ring([], 0)), map[idle := 0]);
      events := Arena(seq(eventLists + 1, _ => Ring([], 0)), map[]);
      wake, key, prio := map[], map[idle := MAX_PRIORITIES], map[idle := 0];
      current, tickCount, overflows, pendedTicks, suspended := idle, 0, 0, 0, 0;
      nextUnblock, yieldPending, topReady, delayed := MAX, false, 0, DELAYED_1;
      taskCount, deletedWaiting, now := 1, 0, 0;
    }

    method ResetNextTaskUnblockTime()
      requires Shape(View())
      modifies this`nextUnblock
      ensures View() == ResetNext(old(View()))
    {
      if |items.lists[delayed].items| == 0 {
        nextUnblock := MAX;
      } else {
        var head := items.lists[delayed].items[0];
        nextUnblock := Sched.Key(wake, head);
      }
    }

    /** uxListRemove on the state item, then prvAddTaskToReadyList. */
    method MoveToReadyList(t: Task)
      requires Shape(View()) && t in items.at
      modifies this`items, this`topReady
      ensures View() == MakeReady(old(View()), t)
    {
      RemoveWf(items, t);
      items := items.Remove(t);
      if prio[t] > topReady {
        topReady := prio[t];
      }
      items := items.PutEnd(prio[t], t);
    }

    method RemoveEventItem(t: Task)
      requires events.Wf()
      modifies this`events
      ensures events == DropEvent(old(events), t)
    {
      if t in events.at {
        events := events.Remove(t);
      }
    }

    /** Wake one blocked task: both of its items move. */
    method UnblockTask(t: Task)
      requires Shape(View()) && t in items.at
      modifies this`items, this`events, this`topReady
      ensures View() == Unblock(old(View()), t)
    {
      hide Arena.Wf;
      MoveToReadyList(t);
      RemoveEventItem(t);
    }

    /** taskSWITCH_DELAYED_LISTS; the requirement is its assertion. */
    method SwitchDelayedLists()
      requires Shape(View()) && items.lists[delayed].items == []
      modifies this
      ensures View() == SwitchLists(old(View()))
    {
      hide Arena.Wf;
      delayed := DELAYED_1 + DELAYED_2 - delayed;
      overflows := Add(overflows, 1);
      ResetNextTaskUnblockTime();
    }

    /** The clock of xTaskIncrementTick. */
    method AdvanceClock()
      requires Places(View()) && Clock(View())
      modifies this
      ensures View() == Advanced(old(View()))
    {
      hide Arena.Wf;
      hide Places;
      hide Clock;
      hide Shape;
      hide SwitchLists;
      ghost var s := View();
      SwitchReady(s);
      ghost var moved := s.(tick := Add(s.tick, 1), now := s.now + 1);
      tickCount := Add(tickCount, 1);
      now := now + 1;
      assert View() == moved;
      if tickCount == 0 {
        SwitchDelayedLists();
      }
    }

    /** The expiry loop of xTaskIncrementTick. */
    method WakeExpired() returns (switchRequired: bool)
      requires Shape(View())
      modifies this`items, this`events, this`topReady, this`nextUnblock
      ensures (View(), switchRequired) == Drain(old(View()), false)
    {
      switchRequired := false;
      ghost var s := View();
      hide Arena.Wf;
      while true
        invariant Shape(View())
        invariant Drain(View(), switchRequired) == Drain(s, false)
        decreases |items.lists[delayed].items|
      {
        ghost var b := View();
        DrainOne(b, switchRequired);
        hide Drain;
        hide Shape;
        if |items.lists[delayed].items| == 0 {
          nextUnblock := MAX;
          break;
        }
        var t := items.lists[delayed].items[0];
        var itemValue := Sched.Key(wake, t);
        if tickCount < itemValue {
          nextUnblock := itemValue;
          break;
        }
        UnblockTask(t);
        if prio[t] >= prio[current] {
          switchRequired := true;
        }
      }
    }

    /** xTaskIncrementTick. */
    method IncrementTick() returns (switchRequired: bool)
      requires Places(View()) && Clock(View())
      modifies this
      ensures (View(), switchRequired) == Tick(old(View()))
    {
      ghost var s := View();
      hide Arena.Wf;
      hide Clock;
      switchRequired := false;
      if suspended == 0 {
        AdvanceClock();
        TickParts(s);
        hide Advanced;
        hide Drain;
        hide Places;
        hide Shape;
        if tickCount >= nextUnblock {
          switchRequired := WakeExpired();
        }
        if |items.lists[prio[current]].items| > 1 {
          switchRequired := true;
        }
      } else {
        pendedTicks := pendedTicks + 1;
      }
      if yieldPending {
        switchRequired := true;
      }
    }

    /** The timed branch of prvAddCurrentTaskToDelayedList; the item is already off its ready list. */
    method InsertInWakeOrder(timeToWake: word)
      requires |items.lists| == STATE_LISTS && (delayed == DELAYED_1 || delayed == DELAYED_2)
      modifies this`items, this`wake, this`nextUnblock
      ensures View() == InsertTimed(old(View()), timeToWake)
    {
      wake := wake[current := timeToWake];
      if timeToWake < tickCount {
        var over := DELAYED_1 + DELAYED_2 - delayed;
        items := items.Put(over, InsertPos(Keys(wake, items.lists[over].items), timeToWake), current);
      } else {
        items := items.Put(delayed, InsertPos(Keys(wake, items.lists[delayed].items), timeToWake), current);
        if timeToWake < nextUnblock {
          nextUnblock := timeToWake;
        }
      }
    }

    /** prvAddCurrentTaskToDelayedList. */
    method AddCurrentTaskToDelayedList(ticksToWait: word, canBlockIndefinitely: bool)
      requires Shape(View()) && items.at[current] < MAX_PRIORITIES
      modifies this`items, this`wake, this`nextUnblock
      ensures View() == AddToDelayed(old(View()), ticksToWait, canBlockIndefinitely)
    {
      ghost var s := View();
      AddParts(s, ticksToWait, canBlockIndefinitely);
      hide Arena.Wf;
      hide Shape;
      hide AddToDelayed;
      hide InsertTimed;
      items := items.Remove(current);
      assert View() == s.(st := s.st.Remove(s.cur));
      if ticksToWait == MAX && canBlockIndefinitely {
        items := items.PutEnd(SUSPENDED, current);
      } else {
        InsertInWakeOrder(Add(tickCount, ticksToWait));
      }
    }

    /** vTaskPlaceOnEventList. */
    method PlaceOnEventList(l: nat, ticksToWait: word)
      requires Shape(View()) && items.at[current] < MAX_PRIORITIES && 0 < l < |events.lists|
      modifies this`events, this`items, this`wake, this`nextUnblock
      ensures View() == Block(old(View()), Event(l), ticksToWait, true)
    {
      hide Arena.Wf;
      ghost var s := View();
      var pos := InsertPos(Keys(key, events.lists[l].items), Sched.Key(key, current));
      AddCurrentTaskToDelayedList(ticksToWait, true);
      events := events.Put(l, pos, current);
    }

    /** xTaskRemoveFromEventList. */
    method RemoveFromEventList(l: nat) returns (higher: bool)
      requires Shape(View()) && 0 < l < |events.lists| && events.lists[l].items != []
      modifies this`events, this`items, this`topReady, this`yieldPending
      ensures View() == EventWake(old(View()), l)
      ensures higher <==> old(prio[events.lists[l].items[0]] > prio[current])
    {
      hide Arena.Wf;
      ghost var s := View();
      Listed(events, l, 0);
      var t := events.lists[l].items[0];
      EventHead(s, l, t);
      hide Shape;
      events := events.Remove(t);
      if suspended == 0 {
        MoveToReadyList(t);
      } else {
        events := events.PutEnd(PENDING, t);
      }
      higher := prio[t] > prio[current];
      if higher {
        yieldPending := true;
      }
    }

    /** vTaskSuspendAll: the invariant holds on, and no tick is lost. */
    method SuspendAll()
      modifies this`suspended
      ensures View() == old(View()).(suspended := old(suspended) + 1)
      ensures old(Inv(View())) ==> Inv(View()) && Delivers(old(View()), View(), 0)
    {
      hide Inv;
      if Inv(View()) { SuspendAllInv(View()); }
      suspended := suspended + 1;
    }

    /** Move one task from xPendingReadyList to its ready list. */
    method DeliverTask(t: Task)
      requires Shape(View()) && t in items.at
      modifies this`items, this`events, this`topReady, this`yieldPending
      ensures View() == Deliver(old(View()), t)
    {
      hide Arena.Wf;
      UnblockTask(t);
      if prio[t] >= prio[current] {
        yieldPending := true;
      }
    }

    /** The pending-ready loop of xTaskResumeAll. */
    method DeliverPending()
      requires Shape(View())
      modifies this`items, this`events, this`topReady, this`yieldPending
      ensures View() == DrainPending(old(View()))
    {
      ghost var s := View();
      PendingOne(s);
      hide Arena.Wf;
      hide DrainPending;
      hide Deliver;
      hide Shape;
      while |events.lists[PENDING].items| > 0
        invariant Shape(View()) && |events.lists| > 0
        invariant DrainPending(View()) == DrainPending(s)
        decreases |events.lists[PENDING].items|
      {
        PendingOne(View());
        DeliverTask(events.lists[PENDING].items[0]);
        PendingOne(View());
      }
      PendingOne(View());
    }

    /** One pended tick: a requested switch becomes a pending yield. */
    method ReplayTick()
      requires Places(View()) && Clock(View()) && View().suspended == 0
      modifies this
      ensures View() == LateTick(old(View()))
    {
      hide Arena.Wf;
      hide Clock;
      var switchRequired := IncrementTick();
      if switchRequired {
        yieldPending := true;
      }
    }

    /** The pended-tick loop of xTaskResumeAll. */
    method ReplayTicks(pendedCounts: nat)
      requires Places(View()) && Clock(View()) && Shape(View()) && View().suspended == 0
      modifies this
      ensures View() == Replay(old(View()), pendedCounts)
    {
      ghost var s := View();
      hide View;
      hide Arena.Wf;
      hide Clock;
      hide Places;
      hide Shape;
      hide Replay;
      hide LateTick;
      var left := pendedCounts;
      while left > 0
        invariant Places(View()) && Clock(View()) && Shape(View()) && View().suspended == 0
        invariant Replay(View(), left) == Replay(s, pendedCounts)
      {
        ReplayTurn(View(), left);
        ReplayTick();
        left := left - 1;
      }
      ReplayEnds(View());
    }

    /** Everything up to the pended ticks, at the outermost level. */
    method DeliverAndReset()
      requires Shape(View())
      modifies this`items, this`events, this`topReady, this`yieldPending, this`nextUnblock
      ensures View() == Delivered(old(View()))
    {
      ghost var s := View();
      PendingOne(s);
      DrainPendingShape(s);
      hide Arena.Wf;
      hide DrainPending;
      hide Shape;
      var some := |events.lists[PENDING].items| > 0;
      DeliverPending();
      if some {
        ResetNextTaskUnblockTime();
      }
    }

    /** xTaskResumeAll once the nesting count has reached zero. */
    method ResumeOutermost()
      requires Shape(View())
      requires Replayable(Delivered(View()))
      modifies this
      ensures View() == Replay(Delivered(old(View())), Delivered(old(View())).pended).(pended := 0)
    {
      ghost var d := Delivered(View());
      hide Arena.Wf;
      hide Delivered;
      hide Replay;
      hide Shape;
      hide Places;
      hide Clock;
      DeliverAndReset();
      assert View() == d;
      ReplayAll();
    }

    /** The pended-tick loop, and the count it leaves. */
    method ReplayAll()
      requires Replayable(View()) && Shape(View())
      modifies this
      ensures View() == Replay(old(View()), old(View()).pended).(pended := 0)
    {
      hide Arena.Wf, Replay, Shape, Places, Clock;
      ReplayTicks(pendedTicks);
      ghost var e := View();
      pendedTicks := 0;
      assert View() == e.(pended := 0);
    }

    /** xTaskResumeAll. */
    method ResumeScheduler() returns (alreadyYielded: bool)
      requires Inv(View()) && View().suspended > 0
      modifies this
      ensures View() == ResumeAll(old(View()))
      ensures alreadyYielded <==> suspended == 0 && yieldPending
    {
      ghost var s := View();
      hide Inv;
      hide Shape;
      hide Replayable;
      hide ResumeAll;
      hide Delivered;
      hide Replay;
      suspended := suspended - 1;
      assert View() == s.(suspended := s.suspended - 1);
      ResumeParts(s);
      if suspended > 0 {
        assert View() == ResumeAll(s);
        return false;
      }
      ResumeOutermost();
      assert View() == ResumeAll(s);
      return yieldPending;
    }

    /** The search of taskSELECT_HIGHEST_PRIORITY_TASK. */
    method FindHighestReady() returns (top: nat)
      requires Shape(View()) && topReady < MAX_PRIORITIES && items.lists[0].items != []
      ensures top == FindTop(View(), topReady) && items.lists[top].items != []
    {
      hide Arena.Wf;
      top := topReady;
      while |items.lists[top].items| == 0
        invariant top <= topReady && FindTop(View(), top) == FindTop(View(), topReady)
        decreases top
      {
        assert top > 0;
        top := top - 1;
      }
    }

    /** taskSELECT_HIGHEST_PRIORITY_TASK, generic task selection. */
    method SelectHighestPriorityTask()
      requires Shape(View()) && topReady < MAX_PRIORITIES && items.lists[0].items != []
      modifies this`items, this`current, this`topReady
      ensures View() == Select(old(View()))
    {
      ghost var s := View();
      SelectParts(s);
      hide Arena.Wf;
      hide FindTop;
      hide Select;
      var top := FindHighestReady();
      hide Shape;
      items := items.Advance(top);
      assert View() == s.(st := s.st.Advance(top));
      current := items.lists[top].Selected();
      topReady := top;
    }

    /** vTaskSwitchContext. */
    method SwitchContext()
      requires Shape(View()) && topReady < MAX_PRIORITIES && items.lists[0].items != []
      modifies this`items, this`current, this`topReady, this`yieldPending
      ensures View() == Sched.SwitchContext(old(View()))
    {
      ghost var s := View();
      SwitchParts(s);
      hide Arena.Wf;
      hide Select;
      hide Sched.SwitchContext;
      if suspended > 0 {
        yieldPending := true;
      } else {
        SelectHighestPriorityTask();
        yieldPending := false;
        assert View() == Select(s).(yielding := false);
      }
    }

    /** Both items off their lists, the state item onto the end of list l. */
    method MoveItems(l: nat, t: Task)
      requires items.Wf() && events.Wf() && t in items.at && l < |items.lists|
      modifies this`items, this`events
      ensures items == MoveEnd(old(items), l, t) && events == DropEvent(old(events), t)
    {
      RemoveWf(items, t);
      hide Arena.Wf, DropEvent;
      items := items.Remove(t);
      RemoveEventItem(t);
      items := items.PutEnd(l, t);
    }

    /** The same, on whole states. */
    method MoveOut(l: nat, t: Task)
      requires Movable(View(), l, t)
      modifies this`items, this`events
      ensures View() == MovedOut(old(View()), l, t)
    {
      ghost var s := View();
      hide Arena.Wf, DropEvent, MoveEnd, MovedOut;
      MoveItems(l, t);
      MovedOutIs(s, View(), l, t);
    }

    /** vTaskSuspend. */
    method TaskSuspend(t: Task)
      requires Shape(View()) && t in View().st.at
      modifies this`items, this`events, this`nextUnblock
      ensures View() == Suspend(old(View()), t)
    {
      SuspendIs(View(), t);
      hide View, Suspend, ResetNext, Shape, Movable, MovedOut;
      MoveOut(SUSPENDED, t);
      ResetNextTaskUnblockTime();
    }

    /** vTaskResume. */
    method TaskResume(t: Task)
      requires Shape(View()) && t in View().st.at
      modifies this`items, this`topReady
      ensures View() == Resume(old(View()), t)
    {
      hide Arena.Wf, MakeReady;
      if t != current {
        if t in items.at && items.at[t] == SUSPENDED && t !in events.at {
          MoveToReadyList(t);
        }
      }
    }

    /** xTaskResumeFromISR: with the scheduler suspended the task goes to the pending-ready list. */
    method TaskResumeFromISR(t: Task) returns (yieldRequired: bool)
      requires Shape(View()) && t in View().st.at
      modifies this`items, this`events, this`topReady
      ensures View() == ResumeFromISR(old(View()), t)
      ensures yieldRequired <==> old(IsSuspended(View(), t) && suspended == 0 && prio[t] >= prio[current])
    {
      ghost var s := View();
      hide MakeReady;
      yieldRequired := false;
      if t in items.at && items.at[t] == SUSPENDED && t !in events.at {
        if suspended == 0 {
          yieldRequired := prio[t] >= prio[current];
          MoveToReadyList(t);
        } else {
          events := events.PutEnd(PENDING, t);
        }
      }
    }

    /** The list work of xTaskGenericNotify. */
    method GenericNotify(t: Task) returns (yieldRequired: bool)
      requires Shape(View()) && t in View().st.at && t !in View().ev.at
      modifies this`items, this`topReady
      ensures View() == Notify(old(View()), t, false)
      ensures yieldRequired <==> old(prio[t] > prio[current])
    {
      hide Arena.Wf, MakeReady;
      yieldRequired := prio[t] > prio[current];
      MoveToReadyList(t);
    }

    /** The list work of xTaskGenericNotifyFromISR. */
    method GenericNotifyFromISR(t: Task) returns (higher: bool)
      requires Shape(View()) && t in View().st.at && t !in View().ev.at
      modifies this`items, this`events, this`topReady, this`yieldPending
      ensures View() == Notify(old(View()), t, true)
      ensures higher <==> old(prio[t] > prio[current])
    {
      ghost var s := View();
      hide MakeReady;
      higher := prio[t] > prio[current];
      if suspended == 0 {
        MoveToReadyList(t);
      } else {
        events := events.PutEnd(PENDING, t);
      }
      if higher {
        yieldPending := true;
      }
    }

    /** The list move of vTaskPrioritySet and of priority inheritance. */
    method ChangePriority(t: Task, newPriority: nat)
      requires Shape(View()) && t in View().st.at && newPriority < MAX_PRIORITIES
      modifies this`items, this`topReady, this`prio, this`key
      ensures View() == Reprioritise(old(View()), t, newPriority)
    {
      ghost var s := View();
      hide Arena.Wf, MakeReady;
      var priorityUsedOnEntry := prio[t];
      prio := prio[t := newPriority];
      key := key[t := MAX_PRIORITIES - newPriority];
      ghost var s1 := s.(prio := s.prio[t := newPriority], key := s.key[t := MAX_PRIORITIES - newPriority]);
      assert View() == s1;
      if items.at[t] == priorityUsedOnEntry {
        MoveToReadyList(t);
      }
    }

    /** prvAddNewTaskToReadyList. */
    method AddNewTask(t: Task, priority: nat)
      requires Shape(View()) && t !in View().prio && priority < MAX_PRIORITIES
      modifies this`items, this`topReady, this`prio, this`key, this`taskCount
      ensures View() == Create(old(View()), t, priority)
    {
      ghost var s := View();
      hide Arena.Wf;
      NewTask(t, priority);
      ghost var m := View();
      assert m == s.(prio := s.prio[t := priority], key := s.key[t := MAX_PRIORITIES - priority], count := s.count + 1);
      if priority > topReady {
        topReady := priority;
      }
      items := items.PutEnd(priority, t);
      assert View() == m.(top := if priority > m.top then priority else m.top, st := m.st.PutEnd(priority, t));
    }

    method NewTask(t: Task, priority: nat)
      requires priority < MAX_PRIORITIES
      modifies this`prio, this`key, this`taskCount
      ensures prio == old(prio)[t := priority] && key == old(key)[t := MAX_PRIORITIES - priority]
      ensures taskCount == old(taskCount) + 1
    {
      taskCount := taskCount + 1;
      prio := prio[t := priority];
      key := key[t := MAX_PRIORITIES - priority];
    }

    /** vTaskDelete: of the running task, which waits for the idle task, or of another. */
    method TaskDelete(t: Task)
      requires Shape(View()) && t in View().st.at && View().count > 0
      modifies this`items, this`events, this`prio, this`taskCount, this`deletedWaiting, this`nextUnblock
      ensures View() == Delete(old(View()), t)
    {
      if t == current {
        DeleteSelf();
      } else {
        DeleteOther(t);
      }
    }

    method DeleteSelf()
      requires Shape(View()) && View().cur in View().st.at && View().count > 0
      modifies this`items, this`events, this`deletedWaiting
      ensures View() == Delete(old(View()), old(View()).cur)
    {
      DeleteSelfIs(View());
      hide Arena.Wf, Delete, Shape, Movable, MovedOut;
      MoveOut(TERMINATING, current);
      ghost var m := View();
      deletedWaiting := deletedWaiting + 1;
      assert View() == m.(cleanup := m.cleanup + 1);
    }

    /** Both items off their lists, and the TCB gone. */
    method Forget(t: Task)
      requires items.Wf() && events.Wf() && t in items.at && taskCount > 0
      modifies this`items, this`events, this`prio, this`taskCount
      ensures items == old(items).Remove(t) && events == DropEvent(old(events), t)
      ensures prio == old(prio) - {t} && taskCount == old(taskCount) - 1
    {
      hide Arena.Wf, DropEvent;
      items := items.Remove(t);
      RemoveEventItem(t);
      taskCount := taskCount - 1;
      prio := prio - {t};
    }

    /** The same, on whole states. */
    method Erase(t: Task)
      requires items.Wf() && events.Wf() && t in items.at && taskCount > 0
      modifies this`items, this`events, this`prio, this`taskCount
      ensures View() == Erased(old(View()), t)
    {
      ghost var s := View();
      hide Arena.Wf, DropEvent, Erased;
      Forget(t);
      ErasedIs(s, View(), t);
    }

    method DeleteOther(t: Task)
      requires Shape(View()) && t in View().st.at && t != View().cur && View().count > 0
      modifies this`items, this`events, this`prio, this`taskCount, this`nextUnblock
      ensures View() == Delete(old(View()), t)
    {
      DeleteIs(View(), t);
      hide Arena.Wf, Delete, ResetNext, Shape, Erased;
      Erase(t);
      ResetNextTaskUnblockTime();
    }

    /** Free the TCB of one deleted task. */
    method FreeTask()
      requires CleanupReady(View()) && deletedWaiting > 0
      modifies this`items, this`prio, this`taskCount, this`deletedWaiting
      ensures View() == CleanOne(old(View()))
    {
      hide Arena.Wf;
      var t := items.lists[TERMINATING].items[0];
      Listed(items, TERMINATING, 0);
      items := items.Remove(t);
      prio := prio - {t};
      taskCount := taskCount - 1;
      deletedWaiting := deletedWaiting - 1;
    }

    /** prvCheckTasksWaitingTermination. */
    method CheckTasksWaitingTermination()
      requires CleanupReady(View())
      modifies this`items, this`prio, this`taskCount, this`deletedWaiting
      ensures View() == Cleanup(old(View()))
    {
      ghost var s := View();
      hide Arena.Wf;
      hide CleanupReady;
      hide CleanOne;
      while deletedWaiting > 0
        invariant CleanupReady(View()) && Cleanup(View()) == Cleanup(s)
        decreases deletedWaiting
      {
        CleanOneReady(View());
        CleanOneCounts(View());
        FreeTask();
      }
    }
  }

  ghost predicate Movable(s: State, l: nat, t: Task) {
    s.st.Wf() && s.ev.Wf() && t in s.st.at && l < |s.st.lists|
  }

  /** The task on list l, and on no event list. */
  ghost function MovedOut(s: State, l: nat, t: Task): State
    requires Movable(s, l, t)
  {
    s.(st := MoveEnd(s.st, l, t), ev := DropEvent(s.ev, t))
  }

  lemma MovedOutIs(s: State, r: State, l: nat, t: Task)
    requires Movable(s, l, t) && r.st == MoveEnd(s.st, l, t) && r.ev == DropEvent(s.ev, t)
    requires r.wake == s.wake && r.key == s.key && r.prio == s.prio && r.cur == s.cur && r.tick == s.tick
    requires r.overflows == s.overflows && r.pended == s.pended && r.suspended == s.suspended && r.next == s.next
    requires r.yielding == s.yielding && r.top == s.top && r.delayed == s.delayed && r.count == s.count
    requires r.cleanup == s.cleanup && r.now == s.now
    ensures r == MovedOut(s, l, t)
  {
    hide Arena.Wf, MoveEnd, DropEvent;
  }

  lemma SuspendIs(s: State, t: Task)
    requires Shape(s) && t in s.st.at
    ensures Movable(s, SUSPENDED, t) && Shape(MovedOut(s, SUSPENDED, t))
    ensures Suspend(s, t) == ResetNext(MovedOut(s, SUSPENDED, t))
  {
    SuspendShape(s, t);
    hide Arena.Wf, DropEvent, MoveEnd;
  }

  lemma DeleteSelfIs(s: State)
    requires Shape(s) && s.cur in s.st.at && s.count > 0
    ensures Movable(s, TERMINATING, s.cur)
    ensures var m := MovedOut(s, TERMINATING, s.cur);
      Delete(s, s.cur) == m.(cleanup := m.cleanup + 1) && m.cleanup == s.cleanup && m.cur == s.cur
  {
    hide Arena.Wf, DropEvent, MoveEnd;
  }

  /** Off every list, without a TCB. */
  function Erased(s: State, t: Task): State
    requires s.st.Wf() && s.ev.Wf() && t in s.st.at && s.count > 0
  {
    s.(st := s.st.Remove(t), ev := DropEvent(s.ev, t), prio := s.prio - {t}, count := s.count - 1)
  }

  lemma ErasedIs(s: State, r: State, t: Task)
    requires s.st.Wf() && s.ev.Wf() && t in s.st.at && s.count > 0
    requires r.st == s.st.Remove(t) && r.ev == DropEvent(s.ev, t) && r.prio == s.prio - {t} && r.count == s.count - 1
    requires r.wake == s.wake && r.key == s.key && r.cur == s.cur && r.tick == s.tick && r.overflows == s.overflows
    requires r.pended == s.pended && r.suspended == s.suspended && r.next == s.next && r.yielding == s.yielding
    requires r.top == s.top && r.delayed == s.delayed && r.now == s.now && r.cleanup == s.cleanup
    ensures r == Erased(s, t)
  {
    hide Arena.Wf, DropEvent;
  }

  lemma DeleteIs(s: State, t: Task)
    requires Shape(s) && t in s.st.at && t != s.cur && s.count > 0
    ensures s.st.Wf() && s.ev.Wf() && Shape(Erased(s, t)) && Delete(s, t) == ResetNext(Erased(s, t))
  {
    DeleteShape(s, t);
    hide Arena.Wf, DropEvent, Shape;
  }

  function Deliver(s: State, t: Task): State
    requires Shape(s) && t in s.st.at
  {
    Unblock(s, t).(yielding := s.yielding || s.prio[t] >= s.prio[s.cur])
  }

  lemma CleanOneCounts(s: State)
    requires CleanupReady(s) && s.cleanup > 0
    ensures CleanOne(s).cleanup == s.cleanup - 1
  {
    hide Arena.Wf;
  }

  lemma ReplayTurn(s: State, k: nat)
    requires Places(s) && Clock(s) && Shape(s) && s.suspended == 0 && k > 0
    ensures var r := LateTick(s);
      Places(r) && Clock(r) && Shape(r) && r.suspended == 0 && Replay(s, k) == Replay(r, k - 1)
  {
    hide Arena.Wf;
    hide Clock;
    LateTickKeeps(s);
    hide LateTick;
    hide Track;
    ReplayUnfolds(s, k);
    hide Replay;
  }

  lemma ReplayEnds(s: State)
    requires Shape(s)
    ensures Replay(s, 0) == s
  {
    hide Arena.Wf;
  }

  function Select(s: State): State
    requires Shape(s) && s.top < MAX_PRIORITIES && s.st.lists[0].items != []
  {
    var p := FindTop(s, s.top);
    var st := s.st.Advance(p);
    s.(st := st, cur := st.lists[p].Selected(), top := p)
  }

  lemma SelectParts(s: State)
    requires Shape(s) && s.top < MAX_PRIORITIES && s.st.lists[0].items != []
    ensures var p := FindTop(s, s.top);
      && p < |s.st.lists| && s.st.lists[p].items != []
      && var st := s.st.Advance(p);
      && p < |st.lists| && 0 < st.lists[p].index <= |st.lists[p].items|
      && Select(s) == s.(st := st, cur := st.lists[p].Selected(), top := p)
  {
    hide Arena.Wf;
  }

  lemma SwitchParts(s: State)
    requires Shape(s) && s.top < MAX_PRIORITIES && s.st.lists[0].items != []
    ensures SwitchContext(s) == if s.suspended > 0 then s.(yielding := true) else Select(s).(yielding := false)
  {
    hide Arena.Wf;
  }

  function Delivered(s: State): State
    requires Shape(s)
  {
    DrainPendingShape(s);
    if s.ev.lists[PENDING].items == [] then DrainPending(s) else ResetNext(DrainPending(s))
  }

  ghost predicate Replayable(s: State) {
    Places(s) && Clock(s) && Shape(s) && s.suspended == 0
  }

  /** xTaskResumeAll at the outermost level, in its parts. */
  lemma ResumeLast(s: State)
    requires Inv(s) && s.suspended == 1
    ensures Shape(s) && Shape(s.(suspended := 0))
    ensures var d := Delivered(s.(suspended := 0));
      Replayable(d) && ResumeAll(s) == Replay(d, d.pended).(pended := 0) && ResumeAll(s).suspended == 0
  {
    hide Arena.Wf, Clock, Homes, Waiting, Books, Track, Resumed, Delivered, ResumeAll, Replay, DrainPending;
    assert Shape(s) && Shape(s.(suspended := 0));
    ResumedKeeps(s);
    hide Shape;
    PlacesShape(Resumed(s));
    ResumeAllIs(s);
    ReplayKeeps(Resumed(s), s.pended);
    DeliveredIs(s);
  }

  lemma ResumeNested(s: State)
    requires Shape(s) && s.suspended > 1
    ensures ResumeAll(s) == s.(suspended := s.suspended - 1)
  {
    hide Shape;
    hide Replay;
    hide DrainPending;
  }

  lemma ResumeParts(s: State)
    requires Inv(s) && s.suspended > 0
    ensures Shape(s) && Shape(s.(suspended := 0))
    ensures s.suspended > 1 ==> ResumeAll(s) == s.(suspended := s.suspended - 1)
    ensures s.suspended == 1 ==> var d := Delivered(s.(suspended := 0));
      Replayable(d) && ResumeAll(s) == Replay(d, d.pended).(pended := 0) && ResumeAll(s).suspended == 0
  {
    hide Arena.Wf;
    hide Clock;
    hide ResumeAll;
    hide Delivered;
    hide Replay;
    if s.suspended == 1 { ResumeLast(s); } else { ResumeNested(s); }
  }

  lemma DeliveredIs(s: State)
    requires Shape(s) && Shape(s.(suspended := 0))
    ensures Delivered(s.(suspended := 0)) == Resumed(s)
  {
    hide Shape;
    hide DrainPending;
  }

  /** The key is set and the item put in wake order on the list of its epoch. */
  function InsertTimed(s: State, v: word): State
    requires |s.st.lists| == STATE_LISTS && (s.delayed == DELAYED_1 || s.delayed == DELAYED_2)
  {
    var wake := s.wake[s.cur := v];
    var l := if v < s.tick then Over(s) else s.delayed;
    s.(st := s.st.Put(l, InsertPos(Keys(wake, s.st.lists[l].items), v), s.cur), wake := wake,
       next := if v < s.tick || v >= s.next then s.next else v)
  }

  /** The running task is on no delayed list, so removing it first and setting its key first
      change nothing there. */
  lemma AddParts(s: State, d: word, indefinite: bool)
    requires Shape(s) && s.st.at[s.cur] < MAX_PRIORITIES
    ensures s.st.Wf() && s.cur in s.st.at && (s.delayed == DELAYED_1 || s.delayed == DELAYED_2)
    ensures s.st.Remove(s.cur).Wf() && |s.st.Remove(s.cur).lists| == STATE_LISTS
    ensures AddToDelayed(s, d, indefinite) ==
      if d == MAX && indefinite then s.(st := s.st.Remove(s.cur).PutEnd(SUSPENDED, s.cur))
      else InsertTimed(s.(st := s.st.Remove(s.cur)), Add(s.tick, d))
  {
    ReadyNotDelayed(s);
    hide Arena.Wf;
    RemoveWf(s.st, s.cur);
    var v := Add(s.tick, d);
    KeysFrame(s.wake, Items(s, s.delayed), s.cur, v);
    KeysFrame(s.wake, Items(s, Over(s)), s.cur, v);
    hide InsertPos;
  }

  lemma EventHead(s: State, l: nat, t: Task)
    requires Shape(s) && s.ev.Holds(l, t) && 0 < l < |s.ev.lists|
    ensures t in s.st.at && t in s.prio && s.cur in s.prio && s.ev.Wf() && t in s.ev.at
    ensures Shape(s.(ev := s.ev.Remove(t))) && s.ev.Remove(t).Wf() && |s.ev.Remove(t).lists| == |s.ev.lists|
  {
    hide Arena.Wf;
    RemoveWf(s.ev, t);
  }

  /** The list about to be abandoned is empty, and either way the lists stay well shaped. */
  lemma SwitchReady(s: State)
    requires Places(s) && Clock(s)
    ensures Shape(s) && s.delayed < |s.st.lists|
    ensures Add(s.tick, 1) == 0 ==> s.st.lists[s.delayed].items == []
    ensures Shape(s.(tick := Add(s.tick, 1), now := s.now + 1))
  {
    hide Arena.Wf, Clock, MidTick, Advanced, Homes, Waiting, Books, Add;
    AdvancedMoved(s);
    OneMore(s.tick);
    ShapeLater(s, Add(s.tick, 1), s.now + 1);
  }

  lemma OneMore(t: word)
    ensures Add(t, 1) == 0 <==> t == MAX
  {
  }

  lemma ShapeLater(s: State, tick: word, now: nat)
    requires Shape(s)
    ensures Shape(s.(tick := tick, now := now))
  {
    hide Arena.Wf;
  }

  /** The parts of an unsuspended tick. */
  lemma TickParts(s: State)
    requires Shape(s) && s.suspended == 0
    ensures var a := Advanced(s);
      && Shape(a) && Shape(Expire(a)) && Shape(Drain(a, false).0)
      && a.cur == s.cur == Expire(a).cur && a.prio == s.prio == Expire(a).prio
      && s.cur in s.prio && s.prio[s.cur] < |Expire(a).st.lists|
      && a.yielding == s.yielding == Expire(a).yielding
  {
    hide Arena.Wf;
    DrainShape(Advanced(s), false);
    DrainFrame(Advanced(s), false);
  }

  lemma {:induction false} DrainFrame(s: State, sw: bool)
    requires Shape(s)
    ensures var r := Drain(s, sw).0; r == s.(st := r.st, ev := r.ev, next := r.next, top := r.top)
    decreases |s.st.lists[s.delayed].items|
  {
    DrainOne(s, sw);
    hide Drain;
    hide Shape;
    var items := s.st.lists[s.delayed].items;
    if items != [] && s.tick >= Key(s.wake, items[0]) {
      DrainFrame(Unblock(s, items[0]), sw || s.prio[items[0]] >= s.prio[s.cur]);
    }
  }

  lemma PendingOne(s: State)
    requires Shape(s)
    ensures |s.ev.lists| > 0 && s.cur in s.prio
    ensures var items := s.ev.lists[PENDING].items;
      if items == [] then DrainPending(s) == s
      else
        var t := items[0];
        && t in s.st.at && t in s.prio
        && var u := Deliver(s, t);
        && Shape(u) && DrainPending(s) == DrainPending(u)
        && |u.ev.lists| > 0 && |u.ev.lists[PENDING].items| < |items|
  {
    hide Arena.Wf;
    var items := s.ev.lists[PENDING].items;
    if items != [] {
      Listed(s.ev, PENDING, 0);
      DeliverShape(s, items[0]);
    }
    hide DropEvent;
    hide MakeReady;
  }

  lemma DeliverShape(s: State, t: Task)
    requires Shape(s) && s.ev.Holds(PENDING, t)
    ensures t in s.st.at && t in s.prio && Shape(Deliver(s, t))
    ensures var u := Deliver(s, t); |u.ev.lists[PENDING].items| == |s.ev.lists[PENDING].items| - 1
  {
    hide Arena.Wf;
    UnblockShape(s, t);
    DropEventWf(s.ev, t);
    hide DropEvent;
    hide MakeReady;
  }

  lemma ReplayUnfolds(s: State, k: nat)
    requires Shape(s) && Shape(LateTick(s)) && k > 0
    ensures Replay(s, k) == Replay(LateTick(s), k - 1)
  {
    hide Arena.Wf;
    hide LateTick;
    hide Shape;
  }

}
