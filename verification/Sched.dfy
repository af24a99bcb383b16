/** The scheduler state of tasks.c and what each kernel operation does to it.
    One value of State holds every file-scope variable the operations use; `now` is the
    unbounded clock that exists only in the model: how many ticks have been processed. */
module Sched {
  import opened Words
  import opened Rings
  import opened Arenas

  const MAX_PRIORITIES: nat := 5

  // The lists a state item can be on: ready lists 0 .. MAX_PRIORITIES - 1, then these.
  const DELAYED_1: nat := MAX_PRIORITIES
  const DELAYED_2: nat := MAX_PRIORITIES + 1
  const SUSPENDED: nat := MAX_PRIORITIES + 2
  const TERMINATING: nat := MAX_PRIORITIES + 3
  const STATE_LISTS: nat := MAX_PRIORITIES + 4

  // Event items: list 0 is xPendingReadyList, the others belong to queues.
  const PENDING: nat := 0

  datatype State = State(
    st: Arena,                // state items
    ev: Arena,                // event items
    wake: map<Task, word>,    // xStateListItem.xItemValue
    key: map<Task, word>,     // xEventListItem.xItemValue
    prio: map<Task, nat>,     // uxPriority of every task that has a TCB
    cur: Task,                // pxCurrentTCB
    tick: word,               // xTickCount
    overflows: word,          // xNumOfOverflows
    pended: nat,              // uxPendedTicks
    suspended: nat,           // uxSchedulerSuspended
    next: word,               // xNextTaskUnblockTime
    yielding: bool,           // xYieldPending
    top: nat,                 // uxTopReadyPriority
    delayed: nat,             // pxDelayedTaskList
    count: nat,               // uxCurrentNumberOfTasks
    cleanup: nat,             // uxDeletedTasksWaitingCleanUp
    now: nat
  )

  function Key(m: map<Task, word>, t: Task): word {
    if t in m then m[t] else 0
  }

  function Keys(m: map<Task, word>, items: seq<Task>): (r: seq<word>)
    ensures |r| == |items|
    ensures forall i :: 0 <= i < |r| ==> r[i] == Key(m, items[i])
  {
    seq(|items|, i requires 0 <= i < |items| => Key(m, items[i]))
  }

  function Over(s: State): int {
    DELAYED_1 + DELAYED_2 - s.delayed
  }

  /** The lists are lists, every listed task has a TCB and a legal priority. */
  ghost predicate Shape(s: State) {
    && s.st.Wf() && s.ev.Wf()
    && |s.st.lists| == STATE_LISTS && |s.ev.lists| > 0
    && (s.delayed == DELAYED_1 || s.delayed == DELAYED_2)
    && (forall t :: t in s.prio ==> s.prio[t] < MAX_PRIORITIES)
    && (forall t :: t in s.st.at ==> t in s.prio)
    && (forall t :: t in s.prio ==> t in s.st.at)
    && (forall t :: t in s.ev.at ==> t in s.prio)
    && s.cur in s.prio
  }

  /** uxListRemove on the event item when it is on a list. */
  function DropEvent(ev: Arena, t: Task): Arena
    requires ev.Wf()
  {
    if t in ev.at then ev.Remove(t) else ev
  }

  /** Take the state item off its list and put it at the end of its ready list. */
  function MakeReady(s: State, t: Task): State
    requires Shape(s) && t in s.st.at
  {
    var p := s.prio[t];
    s.(st := MoveEnd(s.st, p, t), top := if p > s.top then p else s.top)
  }

  function Unblock(s: State, t: Task): State
    requires Shape(s) && t in s.st.at
  {
    MakeReady(s, t).(ev := DropEvent(s.ev, t))
  }

  lemma MakeReadyShape(s: State, t: Task)
    requires Shape(s) && t in s.st.at
    ensures Shape(MakeReady(s, t))
    ensures s.st.at[t] < STATE_LISTS
    ensures s.st.at[t] != s.prio[t] ==>
      |MakeReady(s, t).st.lists[s.st.at[t]].items| == |s.st.lists[s.st.at[t]].items| - 1
  {
    hide Arena.Wf;
    MoveEndWf(s.st, s.prio[t], t);
    RemoveWf(s.st, t);
  }

  lemma DropEventWf(ev: Arena, t: Task)
    requires ev.Wf()
    ensures DropEvent(ev, t).Wf() && |DropEvent(ev, t).lists| == |ev.lists|
    ensures DropEvent(ev, t).at == ev.at - {t}
    ensures t in ev.at ==>
      && ev.at[t] < |ev.lists|
      && |DropEvent(ev, t).lists[ev.at[t]].items| == |ev.lists[ev.at[t]].items| - 1
    ensures forall l :: 0 <= l < |ev.lists| && !ev.Holds(l, t) ==> DropEvent(ev, t).lists[l] == ev.lists[l]
  {
    hide Arena.Wf;
    if t in ev.at { RemoveWf(ev, t); }
  }

  lemma UnblockShape(s: State, t: Task)
    requires Shape(s) && t in s.st.at
    ensures Shape(Unblock(s, t))
  {
    hide Arena.Wf;
    MakeReadyShape(s, t);
    DropEventWf(s.ev, t);
  }

  /** The expiry loop of xTaskIncrementTick; `switch` collects xSwitchRequired. */
  function Drain(s: State, switch: bool): (r: (State, bool))
    requires Shape(s)
    decreases |s.st.lists[s.delayed].items|
  {
    var items := s.st.lists[s.delayed].items;
    if items == [] then (s.(next := MAX), switch)
    else
      var t := items[0];
      var v := Key(s.wake, t);
      if s.tick < v then (s.(next := v), switch)
      else
        Listed(s.st, s.delayed, 0);
        MakeReadyShape(s, t);
        UnblockShape(s, t);
        Drain(Unblock(s, t), switch || s.prio[t] >= s.prio[s.cur])
  }

  /** prvResetNextTaskUnblockTime. */
  function ResetNext(s: State): State
    requires Shape(s)
  {
    var items := s.st.lists[s.delayed].items;
    s.(next := if items == [] then MAX else Key(s.wake, items[0]))
  }

  /** taskSWITCH_DELAYED_LISTS; SchedTick.AdvancedMoved proves its assertion. */
  function SwitchLists(s: State): State
    requires Shape(s)
  {
    ResetNext(s.(delayed := Over(s), overflows := Add(s.overflows, 1)))
  }

  /** The clock of xTaskIncrementTick moves on, switching the lists when it wraps. */
  function Advanced(s: State): State
    requires Shape(s)
  {
    var s1 := s.(tick := Add(s.tick, 1), now := s.now + 1);
    if s1.tick == 0 then SwitchLists(s1) else s1
  }

  /** xTaskIncrementTick: the new state and the returned xSwitchRequired. */
  function Tick(s: State): (State, bool)
    requires Shape(s)
  {
    hide Arena.Wf;
    if s.suspended > 0 then (s.(pended := s.pended + 1), s.yielding)
    else
      var s2 := Advanced(s);
      DrainShape(s2, false);
      var (s3, sw) := if s2.tick >= s2.next then Drain(s2, false) else (s2, false);
      (s3, sw || |s3.st.lists[PrioOfCur(s)].items| > 1 || s3.yielding)
  }

  function PrioOfCur(s: State): nat
    requires Shape(s)
  {
    s.prio[s.cur]
  }

  /** prvAddCurrentTaskToDelayedList; the running task is on a ready list. */
  function AddToDelayed(s: State, d: word, indefinite: bool): State
    requires Shape(s) && s.st.at[s.cur] < MAX_PRIORITIES
  {
    if d == MAX && indefinite then s.(st := MoveEnd(s.st, SUSPENDED, s.cur))
    else
      var v := Add(s.tick, d);
      var l := if v < s.tick then Over(s) else s.delayed;
      var pos := InsertPos(Keys(s.wake, s.st.lists[l].items), v);
      s.(st := MoveTo(s.st, l, pos, s.cur), wake := s.wake[s.cur := v],
         next := if v < s.tick || v >= s.next then s.next else v)
  }

  datatype Wait = NoEvent | Event(list: nat)

  /** vTaskDelay's suspended section (NoEvent) and vTaskPlaceOnEventList (Event). */
  function Block(s: State, w: Wait, d: word, indefinite: bool): State
    requires Shape(s) && s.st.at[s.cur] < MAX_PRIORITIES && (w.Event? ==> 0 < w.list < |s.ev.lists|)
  {
    match w
    case NoEvent => AddToDelayed(s, d, indefinite)
    case Event(l) =>
      var pos := InsertPos(Keys(s.key, s.ev.lists[l].items), Key(s.key, s.cur));
      AddToDelayed(s, d, indefinite).(ev := s.ev.Put(l, pos, s.cur))
  }

  /** xTaskRemoveFromEventList on a non-empty event list. */
  function EventWake(s: State, l: nat): State
    requires Shape(s) && 0 < l < |s.ev.lists| && s.ev.lists[l].items != []
  {
    var t := s.ev.lists[l].items[0];
    Listed(s.ev, l, 0);
    var s1 := if s.suspended == 0 then Unblock(s, t) else s.(ev := MoveEnd(s.ev, PENDING, t));
    s1.(yielding := s.yielding || s.prio[t] > s.prio[s.cur])
  }

  /** The first loop of xTaskResumeAll. */
  function DrainPending(s: State): State
    requires Shape(s)
    decreases |s.ev.lists[PENDING].items|
  {
    var items := s.ev.lists[PENDING].items;
    if items == [] then s
    else
      var t := items[0];
      Listed(s.ev, PENDING, 0);
      DropEventWf(s.ev, t);
      UnblockShape(s, t);
      DrainPending(Unblock(s, t).(yielding := s.yielding || s.prio[t] >= s.prio[s.cur]))
  }

  /** One pended tick: its switch request becomes a pending yield. */
  function LateTick(s: State): State
    requires Shape(s)
  {
    var (s1, sw) := Tick(s);
    s1.(yielding := s1.yielding || sw)
  }

  /** The second loop of xTaskResumeAll: replay the pended ticks. */
  function Replay(s: State, k: nat): State
    requires Shape(s)
    decreases k
  {
    if k == 0 then s else TickShape(s); Replay(LateTick(s), k - 1)
  }

  function ResumeAll(s: State): State
    requires Shape(s) && s.suspended > 0
  {
    var s1 := s.(suspended := s.suspended - 1);
    if s1.suspended > 0 then s1
    else
      DrainPendingShape(s1);
      var s2 := DrainPending(s1);
      var s3 := if s1.ev.lists[PENDING].items == [] then s2 else ResetNext(s2);
      Replay(s3, s.pended).(pended := 0)
  }

  /** The search of taskSELECT_HIGHEST_PRIORITY_TASK, downwards from uxTopReadyPriority. */
  function FindTop(s: State, p: nat): (r: nat)
    requires Shape(s) && p < MAX_PRIORITIES
    ensures r <= p
    ensures forall q :: r < q <= p ==> s.st.lists[q].items == []
    ensures s.st.lists[r].items == [] ==> r == 0
  {
    if s.st.lists[p].items != [] || p == 0 then p else FindTop(s, p - 1)
  }

  /** vTaskSwitchContext. */
  function SwitchContext(s: State): State
    requires Shape(s) && s.top < MAX_PRIORITIES && s.st.lists[0].items != []
  {
    if s.suspended > 0 then s.(yielding := true)
    else
      var p := FindTop(s, s.top);
      var st := s.st.Advance(p);
      s.(st := st, cur := st.lists[p].Selected(), top := p, yielding := false)
  }

  /** prvTaskIsTaskSuspended. */
  predicate IsSuspended(s: State, t: Task) {
    s.st.Holds(SUSPENDED, t) && t !in s.ev.at
  }

  function Suspend(s: State, t: Task): State
    requires Shape(s) && t in s.st.at
  {
    SuspendShape(s, t);
    ResetNext(s.(st := MoveEnd(s.st, SUSPENDED, t), ev := DropEvent(s.ev, t)))
  }

  function Resume(s: State, t: Task): State
    requires Shape(s) && t in s.st.at
  {
    if t != s.cur && IsSuspended(s, t) then MakeReady(s, t) else s
  }

  function ResumeFromISR(s: State, t: Task): State
    requires Shape(s) && t in s.st.at
  {
    if !IsSuspended(s, t) then s
    else if s.suspended == 0 then MakeReady(s, t)
    else s.(ev := s.ev.PutEnd(PENDING, t))
  }

  /** xTaskGenericNotify and its FromISR form (isr) on a task blocked waiting for a notification. */
  function Notify(s: State, t: Task, isr: bool): State
    requires Shape(s) && t in s.st.at && t !in s.ev.at
  {
    if !isr then MakeReady(s, t)
    else
      var s1 := if s.suspended == 0 then MakeReady(s, t) else s.(ev := s.ev.PutEnd(PENDING, t));
      s1.(yielding := s.yielding || s.prio[t] > s.prio[s.cur])
  }

  /** The list move of vTaskPrioritySet and of priority inheritance. */
  function Reprioritise(s: State, t: Task, p: nat): State
    requires Shape(s) && t in s.st.at && p < MAX_PRIORITIES
  {
    var s1 := s.(prio := s.prio[t := p], key := s.key[t := MAX_PRIORITIES - p]);
    if s.st.at[t] == s.prio[t] then MakeReady(s1, t) else s1
  }

  /** prvAddNewTaskToReadyList for a fresh TCB, scheduler running. */
  function Create(s: State, t: Task, p: nat): State
    requires Shape(s) && t !in s.prio && p < MAX_PRIORITIES
  {
    s.(st := s.st.PutEnd(p, t), prio := s.prio[t := p], key := s.key[t := MAX_PRIORITIES - p],
       count := s.count + 1, top := if p > s.top then p else s.top)
  }

  /** vTaskDelete: the running task is parked for the idle task, any other loses its TCB. */
  function Delete(s: State, t: Task): State
    requires Shape(s) && t in s.st.at && s.count > 0
  {
    var ev := DropEvent(s.ev, t);
    if t == s.cur then
      s.(st := MoveEnd(s.st, TERMINATING, t), ev := ev, cleanup := s.cleanup + 1)
    else
      DeleteShape(s, t);
      ResetNext(s.(st := s.st.Remove(t), ev := ev, prio := s.prio - {t}, count := s.count - 1))
  }

  ghost predicate CleanupReady(s: State) {
    && Shape(s) && s.cleanup == |s.st.lists[TERMINATING].items| <= s.count
    && !s.st.Holds(TERMINATING, s.cur)
    && (forall t :: s.st.Holds(TERMINATING, t) ==> t !in s.ev.at)
  }

  /** One pass of prvCheckTasksWaitingTermination. */
  function CleanOne(s: State): State
    requires CleanupReady(s) && s.cleanup > 0
  {
    var t := s.st.lists[TERMINATING].items[0];
    Listed(s.st, TERMINATING, 0);
    s.(st := s.st.Remove(t), prio := s.prio - {t}, count := s.count - 1, cleanup := s.cleanup - 1)
  }

  lemma CleanOneReady(s: State)
    requires CleanupReady(s) && s.cleanup > 0
    ensures CleanupReady(CleanOne(s))
  {
    hide Arena.Wf;
    Listed(s.st, TERMINATING, 0);
    RemoveWf(s.st, s.st.lists[TERMINATING].items[0]);
  }

  /** prvCheckTasksWaitingTermination. */
  function Cleanup(s: State): State
    requires CleanupReady(s)
    decreases s.cleanup
  {
    if s.cleanup == 0 then s
    else
      CleanOneReady(s);
      Cleanup(CleanOne(s))
  }

  lemma SuspendShape(s: State, t: Task)
    requires Shape(s) && t in s.st.at
    ensures Shape(s.(st := MoveEnd(s.st, SUSPENDED, t), ev := DropEvent(s.ev, t)))
  {
    hide Arena.Wf;
    MoveEndWf(s.st, SUSPENDED, t);
    DropEventWf(s.ev, t);
  }

  lemma DeleteShape(s: State, t: Task)
    requires Shape(s) && t in s.st.at && t != s.cur
    ensures forall n :: Shape(s.(st := s.st.Remove(t), ev := DropEvent(s.ev, t), prio := s.prio - {t}, count := n))
  {
    hide Arena.Wf;
    RemoveWf(s.st, t);
    DropEventWf(s.ev, t);
  }

  lemma DrainShape(s: State, switch: bool)
    requires Shape(s)
    ensures Shape(Drain(s, switch).0)
    decreases |s.st.lists[s.delayed].items|
  {
    hide Arena.Wf;
    var items := s.st.lists[s.delayed].items;
    if items != [] && s.tick >= Key(s.wake, items[0]) {
      var t := items[0];
      Listed(s.st, s.delayed, 0);
      MakeReadyShape(s, t);
      UnblockShape(s, t);
      DrainShape(Unblock(s, t), switch || s.prio[t] >= s.prio[s.cur]);
    }
  }

  lemma TickShape(s: State)
    requires Shape(s)
    ensures Shape(Tick(s).0)
  {
    hide Arena.Wf;
    if s.suspended == 0 {
      DrainShape(Advanced(s), false);
    }
  }

  lemma DrainPendingShape(s: State)
    requires Shape(s)
    ensures Shape(DrainPending(s))
    decreases |s.ev.lists[PENDING].items|
  {
    hide Arena.Wf;
    var items := s.ev.lists[PENDING].items;
    if items != [] {
      var t := items[0];
      Listed(s.ev, PENDING, 0);
      DropEventWf(s.ev, t);
      UnblockShape(s, t);
      DrainPendingShape(Unblock(s, t).(yielding := s.yielding || s.prio[t] >= s.prio[s.cur]));
    }
  }
}
