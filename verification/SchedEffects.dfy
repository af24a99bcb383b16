/** What each kernel operation does to its own task, said of the lists alone; and that a task once
    woken, by whatever operation, is not lost. */
module SchedEffects {
  import opened Words
  import opened Rings
  import opened Arenas
  import opened Sched
  import opened SchedInv
  import opened SchedTick
  import opened SchedSteps
  import opened SchedOps
  import opened SchedRuns
  import opened SchedTheorems
  import opened SchedSuspend

  // ----- one item moves

  ghost predicate OtherLists(a: Arena, r: Arena, k: nat, l: nat) {
    |r.lists| == |a.lists| && forall m :: 0 <= m < |a.lists| && m != k && m != l ==> r.lists[m] == a.lists[m]
  }

  /** t was on list k, and has come off it. */
  ghost predicate Off(a: Arena, r: Arena, k: nat, t: Task) {
    && a.Holds(k, t) && k < |a.lists| == |r.lists| && t in a.lists[k].items
    && r.lists[k] == a.lists[k].Remove(t)
  }

  /** t has left its list, and is on none. */
  ghost predicate Left(a: Arena, r: Arena, t: Task) {
    && t in a.at && r.at == a.at - {t} && Off(a, r, a.at[t], t) && OtherLists(a, r, a.at[t], a.at[t])
  }

  /** t was on no list, and stands where list l is walked to last. */
  ghost predicate Joined(a: Arena, r: Arena, l: nat, t: Task) {
    && t !in a.at && r.at == a.at[t := l] && OtherLists(a, r, l, l)
    && l < |a.lists| && a.lists[l].index <= |a.lists[l].items| && r.lists[l] == a.lists[l].InsertEnd(t)
  }

  /** t has left its list and stands where list l is walked to last. */
  ghost predicate Moved(a: Arena, r: Arena, l: nat, t: Task) {
    exists b: Arena :: Left(a, b, t) && Joined(b, r, l, t)
  }

  lemma RemoveLeft(a: Arena, t: Task)
    requires a.Wf() && t in a.at
    ensures Left(a, a.Remove(t), t) && a.Remove(t).Wf()
  {
    RemoveWf(a, t);
    hide Arena.Wf;
  }

  lemma PutEndJoined(a: Arena, l: nat, t: Task)
    requires a.Wf() && t !in a.at && l < |a.lists|
    ensures Joined(a, a.PutEnd(l, t), l, t)
  {
  }

  lemma MoveEndMoved(a: Arena, l: nat, t: Task)
    requires a.Wf() && t in a.at && l < |a.lists|
    ensures Moved(a, MoveEnd(a, l, t), l, t)
  {
    RemoveLeft(a, t);
    hide Arena.Wf;
    var b := a.Remove(t);
    PutEndJoined(b, l, t);
    assert Left(a, b, t) && Joined(b, MoveEnd(a, l, t), l, t);
    hide Left, Joined;
  }

  /** Where everybody stands after a move. */
  lemma MovedAt(a: Arena, r: Arena, l: nat, t: Task)
    requires Moved(a, r, l, t)
    ensures t in a.at && r.at == a.at[t := l]
  {
    var b: Arena :| Left(a, b, t) && Joined(b, r, l, t);
    hide OtherLists, Off;
    forall u ensures u in r.at <==> u in a.at[t := l] { }
  }

  /** The event item comes off its list if it is on one. */
  ghost predicate Released(a: Arena, r: Arena, t: Task) {
    if t in a.at then Left(a, r, t) else r == a
  }

  lemma DropReleased(a: Arena, t: Task)
    requires a.Wf()
    ensures Released(a, DropEvent(a, t), t)
  {
    if t in a.at { RemoveLeft(a, t); }
    hide Arena.Wf, Left;
  }

  lemma HeadOff(items: seq<Task>)
    requires items != []
    ensures Without(items, items[0]) == items[1..]
  {
  }

  // ----- waking

  /** xTaskRemoveFromEventList: the first waiter of the list, and it alone, is readied at once, or
      pended while the scheduler is suspended; a higher priority than the running task's leaves a
      yield pending. */
  lemma EventWakes(s: State, l: nat)
    requires Inv(s) && 0 < l < |s.ev.lists| && s.ev.lists[l].items != []
    ensures var t := s.ev.lists[l].items[0];
      var r := EventWake(s, l);
      && t in s.prio && s.cur in s.prio && |r.ev.lists| == |s.ev.lists|
      && (s.suspended == 0 ==>
        && Moved(s.st, r.st, s.prio[t], t) && r.st.at == s.st.at[t := s.prio[t]]
        && Left(s.ev, r.ev, t) && t !in r.ev.at)
      && (s.suspended > 0 ==> r.st == s.st && Moved(s.ev, r.ev, PENDING, t) && r.ev.at == s.ev.at[t := PENDING])
      && r.ev.lists[l].items == s.ev.lists[l].items[1..]
      && (r.yielding <==> s.yielding || s.prio[t] > s.prio[s.cur])
      && r == s.(st := r.st, ev := r.ev, top := r.top, yielding := r.yielding)
  {
    var t := s.ev.lists[l].items[0];
    assert Shape(s);
    Listed(s.ev, l, 0);
    HeadOff(s.ev.lists[l].items);
    hide Arena.Wf, Clock, Homes, Waiting, Books, NonePending;
    if s.suspended == 0 {
      DropReleased(s.ev, t);
      MoveEndMoved(s.st, s.prio[t], t);
      MovedAt(s.st, MoveEnd(s.st, s.prio[t], t), s.prio[t], t);
    } else {
      MoveEndMoved(s.ev, PENDING, t);
      MovedAt(s.ev, MoveEnd(s.ev, PENDING, t), PENDING, t);
      MovedOff(s.ev, MoveEnd(s.ev, PENDING, t), PENDING, t);
    }
    hide Moved, MoveEnd, DropEvent;
  }

  lemma MovedOff(a: Arena, r: Arena, l: nat, t: Task)
    requires Moved(a, r, l, t) && t in a.at && a.at[t] != l
    ensures |r.lists| == |a.lists| && Off(a, r, a.at[t], t)
  {
  }

  /** xTaskGenericNotify and its FromISR form on a task that waits for it. */
  lemma NotifyWakes(s: State, t: Task, isr: bool)
    requires Shape(s) && t in s.st.at && t !in s.ev.at
    ensures var r := Notify(s, t, isr);
      && (!isr || s.suspended == 0 ==> Moved(s.st, r.st, s.prio[t], t) && r.ev == s.ev)
      && (isr && s.suspended > 0 ==> r.st == s.st && Joined(s.ev, r.ev, PENDING, t))
      && (r.yielding <==> s.yielding || (isr && s.prio[t] > s.prio[s.cur]))
      && r == s.(st := r.st, ev := r.ev, top := r.top, yielding := r.yielding)
  {
    hide Arena.Wf, Moved, Joined, MoveEnd;
    MoveEndMoved(s.st, s.prio[t], t);
    PutEndJoined(s.ev, PENDING, t);
  }

  /** vTaskResume: a suspended task is readied, any other left alone. */
  lemma ResumeWakes(s: State, t: Task)
    requires Shape(s) && t in s.st.at
    ensures var r := Resume(s, t);
      if t != s.cur && s.st.at[t] == SUSPENDED && t !in s.ev.at
      then Moved(s.st, r.st, s.prio[t], t) && r == s.(st := r.st, top := r.top)
      else r == s
  {
    hide Arena.Wf, Moved, MoveEnd;
    MoveEndMoved(s.st, s.prio[t], t);
  }

  /** xTaskResumeFromISR: likewise, but while the scheduler is suspended the task is pended. */
  lemma ResumeISRWakes(s: State, t: Task)
    requires Shape(s) && t in s.st.at
    ensures var r := ResumeFromISR(s, t);
      if s.st.at[t] == SUSPENDED && t !in s.ev.at then
        if s.suspended == 0 then Moved(s.st, r.st, s.prio[t], t) && r == s.(st := r.st, top := r.top)
        else Joined(s.ev, r.ev, PENDING, t) && r == s.(ev := r.ev)
      else r == s
  {
    hide Arena.Wf, Moved, Joined, MoveEnd;
    MoveEndMoved(s.st, s.prio[t], t);
    if t !in s.ev.at { PutEndJoined(s.ev, PENDING, t); }
  }

  // ----- the other operations on one task

  /** vTaskSuspend: whatever list the task is on, it goes to the suspended one and off its event list. */
  lemma SuspendMoves(s: State, t: Task)
    requires Shape(s) && t in s.st.at
    ensures var r := Suspend(s, t);
      && Moved(s.st, r.st, SUSPENDED, t) && Released(s.ev, r.ev, t)
      && r == s.(st := r.st, ev := r.ev, next := r.next)
  {
    hide Arena.Wf, Moved, Released, MoveEnd, DropEvent;
    MoveEndMoved(s.st, SUSPENDED, t);
    DropReleased(s.ev, t);
    SuspendShape(s, t);
  }

  /** vTaskDelete: the running task waits for the idle task, any other is gone at once. */
  lemma DeleteMoves(s: State, t: Task)
    requires Shape(s) && t in s.st.at && s.count > 0
    ensures var r := Delete(s, t);
      && Released(s.ev, r.ev, t)
      && if t == s.cur then
           Moved(s.st, r.st, TERMINATING, t) && r == s.(st := r.st, ev := r.ev, cleanup := s.cleanup + 1)
         else
           && Left(s.st, r.st, t) && r.prio == s.prio - {t}
           && r == s.(st := r.st, ev := r.ev, prio := r.prio, count := s.count - 1, next := r.next)
  {
    hide Arena.Wf, Moved, Released, Left, MoveEnd, DropEvent;
    DropReleased(s.ev, t);
    if t == s.cur {
      MoveEndMoved(s.st, TERMINATING, t);
    } else {
      RemoveLeft(s.st, t);
      DeleteShape(s, t);
    }
  }

  /** prvAddNewTaskToReadyList: ready at its own priority, which its event item shows. */
  lemma CreateJoins(s: State, t: Task, p: nat)
    requires Shape(s) && t !in s.prio && p < MAX_PRIORITIES
    ensures var r := Create(s, t, p);
      && Joined(s.st, r.st, p, t) && r.prio == s.prio[t := p] && Key(r.key, t) == MAX_PRIORITIES - p
      && r == s.(st := r.st, prio := r.prio, key := s.key[t := Key(r.key, t)], count := s.count + 1, top := r.top)
  {
    hide Arena.Wf, Joined;
    PutEndJoined(s.st, p, t);
  }

  /** The list move of vTaskPrioritySet: a ready task goes to the end of its new ready list, any
      other stays where it is; the event item shows the new priority and stays where it is. */
  lemma PriorityMoves(s: State, t: Task, p: nat)
    requires Shape(s) && Homes(s) && t in s.st.at && p < MAX_PRIORITIES
    ensures var r := Reprioritise(s, t, p);
      && (if s.st.at[t] < MAX_PRIORITIES then Moved(s.st, r.st, p, t) else r.st == s.st)
      && r.prio == s.prio[t := p] && Key(r.key, t) == MAX_PRIORITIES - p
      && r == s.(st := r.st, prio := r.prio, key := s.key[t := Key(r.key, t)], top := r.top)
  {
    hide Arena.Wf, Moved, MoveEnd;
    assert s.st.at[t] < MAX_PRIORITIES <==> s.st.at[t] == s.prio[t];
    MoveEndMoved(s.st, p, t);
  }

  // ----- blocking

  /** The event items of l, with t put behind everybody whose value is not larger. */
  ghost predicate Queued(s: State, r: State, l: nat, t: Task) {
    && 0 < l < |s.ev.lists| == |r.ev.lists| && r.ev.at == s.ev.at[t := l] && OtherLists(s.ev, r.ev, l, l)
    && exists k :: PutAt(s.key, s.ev.lists[l].items, r.ev.lists[l].items, k, t)
  }

  ghost predicate PutAt(key: map<Task, word>, items: seq<Task>, after: seq<Task>, k: nat, t: Task) {
    && k <= |items| && after == items[..k] + [t] + items[k..]
    && (forall i :: 0 <= i < k ==> Key(key, items[i]) <= Key(key, t))
    && (Sorted(Keys(key, items)) ==> forall i :: k <= i < |items| ==> Key(key, t) < Key(key, items[i]))
  }

  lemma PutQueued(s: State, r: State, l: nat, t: Task)
    requires 0 < l < |s.ev.lists| && t !in s.ev.at
    requires r.ev == s.ev.Put(l, InsertPos(Keys(s.key, s.ev.lists[l].items), Key(s.key, t)), t)
    ensures Queued(s, r, l, t)
  {
    var items := s.ev.lists[l].items;
    var vals := Keys(s.key, items);
    var k := InsertPos(vals, Key(s.key, t));
    assert (forall i :: 0 <= i < k ==> vals[i] <= Key(s.key, t)) && (k < |vals| ==> Key(s.key, t) < vals[k]);
    assert r.ev.lists[l].items == items[..k] + [t] + items[k..];
    hide InsertPos;
    forall i | 0 <= i < k ensures Key(s.key, items[i]) <= Key(s.key, t) { assert vals[i] <= Key(s.key, t); }
    if Sorted(vals) {
      forall i | k <= i < |items| ensures Key(s.key, t) < Key(s.key, items[i]) { assert vals[k] <= vals[i]; }
    }
    assert PutAt(s.key, items, r.ev.lists[l].items, k, t);
  }

  /** A block: the running task leaves its ready list for the suspended list, or for its wake-up
      date on a delayed one (AddTimed); its event item goes behind those of the same priority. */
  lemma BlockMoves(s: State, w: Wait, d: word, indefinite: bool)
    requires Inv(s) && Enabled(s, BlockStep(w, d, indefinite))
    ensures Able(s, BlockStep(w, d, indefinite))
    ensures var r := Block(s, w, d, indefinite);
      && (d == MAX && indefinite ==> Moved(s.st, r.st, SUSPENDED, s.cur) && r.wake == s.wake && r.next == s.next)
      && (!(d == MAX && indefinite) ==> Timed(s, r.(ev := s.ev), Add(s.tick, d)))
      && (if w.Event? then Queued(s, r, w.list, s.cur) else r.ev == s.ev)
  {
    assert Shape(s);
    hide Arena.Wf, Clock, Homes, Waiting, Books, NonePending;
    AddTimed(s, d);
    MoveEndMoved(s.st, SUSPENDED, s.cur);
    var m := AddToDelayed(s, d, indefinite);
    var r := Block(s, w, d, indefinite);
    assert m == m.(ev := s.ev) && r == m.(ev := r.ev);
    if w.Event? { PutQueued(s, r, w.list, s.cur); }
    hide Moved, Timed, Queued, AddToDelayed, MoveEnd;
    assert d == MAX && indefinite ==> m == s.(st := MoveEnd(s.st, SUSPENDED, s.cur)) by { BlockForGood(s); }
    assert !(d == MAX && indefinite) ==> m == AddToDelayed(s, d, false) by { BlockTimed(s, d, indefinite); }
  }

  lemma BlockForGood(s: State)
    requires Shape(s) && s.st.at[s.cur] < MAX_PRIORITIES
    ensures AddToDelayed(s, MAX, true) == s.(st := MoveEnd(s.st, SUSPENDED, s.cur))
  {
    hide Arena.Wf, MoveEnd;
  }

  lemma BlockTimed(s: State, d: word, indefinite: bool)
    requires Shape(s) && s.st.at[s.cur] < MAX_PRIORITIES
    ensures !(d == MAX && indefinite) ==> AddToDelayed(s, d, indefinite) == AddToDelayed(s, d, false)
  {
    hide Arena.Wf, MoveTo;
  }

  // ----- the context switch and the idle task

  /** vTaskSwitchContext: the next task of the highest ready list in use, or, while the scheduler is
      suspended, no other task but a pending yield. */
  lemma SwitchMoves(s: State)
    requires Places(s) && s.st.lists[0].items != []
    ensures var r := SwitchContext(s);
      if s.suspended > 0 then r.yielding && r == s.(yielding := true)
      else
        && !r.yielding && r == s.(st := r.st, cur := r.cur, top := r.top, yielding := false)
        && r.top < |s.st.lists| == |r.st.lists| && s.st.lists[r.top].items != []
        && r.st.at == s.st.at && OtherLists(s.st, r.st, r.top, r.top)
        && r.st.lists[r.top] == s.st.lists[r.top].Next()
        && 0 < r.st.lists[r.top].index <= |r.st.lists[r.top].items| && r.cur == r.st.lists[r.top].Selected()
        && (forall p :: r.top < p < MAX_PRIORITIES ==> s.st.lists[p].items == [])
  {
    hide Arena.Wf, Homes, Waiting, Books, FindTop;
    SwitchList(s);
  }

  /** prvCheckTasksWaitingTermination: exactly the deleted tasks lose their TCBs. */
  lemma {:induction false} CleanupFrees(s: State)
    requires CleanupReady(s)
    ensures var r := Cleanup(s);
      && (forall t :: t in r.prio <==> t in s.prio && !s.st.Holds(TERMINATING, t))
      && (forall t :: t in r.prio ==> r.prio[t] == s.prio[t])
      && r.cleanup == 0 && r.count == s.count - s.cleanup && r.ev == s.ev && r.cur == s.cur
    decreases s.cleanup
  {
    hide Arena.Wf;
    if s.cleanup > 0 {
      CleanOneReady(s);
      var t := s.st.lists[TERMINATING].items[0];
      Listed(s.st, TERMINATING, 0);
      CleanupFrees(CleanOne(s));
    } else {
      NoneTerminating(s);
    }
    hide CleanupReady;
  }

  lemma NoneTerminating(s: State)
    requires Shape(s) && s.st.lists[TERMINATING].items == []
    ensures forall t :: !s.st.Holds(TERMINATING, t)
  {
  }

  // ----- the pended wake-ups

  /** Some task on the pending-ready list is not below the running one. */
  ghost predicate PendsPeer(s: State)
    requires Shape(s)
  {
    exists t :: s.ev.Holds(PENDING, t) && s.prio[t] >= s.prio[s.cur]
  }

  ghost predicate Delivers(s: State, r: State)
    requires Shape(s)
  {
    && r.prio == s.prio && r.cur == s.cur
    && (forall t :: s.ev.Holds(PENDING, t) ==> t in r.st.at && r.st.at[t] == s.prio[t] && t !in r.ev.at)
    && (r.yielding <==> s.yielding || PendsPeer(s))
  }

  lemma DeliversOne(s: State, t: Task, u: State, r: State)
    requires Shape(s) && Shape(u) && s.ev.Holds(PENDING, t) && s.prio == u.prio && s.cur == u.cur
    requires u.ev.at == s.ev.at - {t} && u.st.at == s.st.at[t := s.prio[t]]
    requires u.yielding <==> s.yielding || s.prio[t] >= s.prio[s.cur]
    requires Delivers(u, r) && t in r.st.at && r.st.at[t] == s.prio[t] && t !in r.ev.at
    ensures Delivers(s, r)
  {
    hide Arena.Wf;
    forall x | s.ev.Holds(PENDING, x) ensures x in r.st.at && r.st.at[x] == s.prio[x] && x !in r.ev.at {
      if x != t { assert u.ev.Holds(PENDING, x); }
    }
    if PendsPeer(u) {
      var x :| u.ev.Holds(PENDING, x) && u.prio[x] >= u.prio[u.cur];
      assert s.ev.Holds(PENDING, x);
    }
    if PendsPeer(s) {
      var x :| s.ev.Holds(PENDING, x) && s.prio[x] >= s.prio[s.cur];
      if x != t { assert u.ev.Holds(PENDING, x); }
    }
  }

  /** The first loop of xTaskResumeAll readies every pended task, and asks for a yield exactly when
      one of them is not below the running task. */
  lemma {:induction false} DrainPendingDelivers(s: State)
    requires Places(s) && Clock(s)
    ensures Shape(s) && Delivers(s, DrainPending(s))
    decreases |s.ev.lists[PENDING].items|
  {
    PlacesShape(s);
    hide Arena.Wf, Clock, Homes, Waiting, Books, DrainPending, Delivers;
    if s.ev.lists[PENDING].items != [] {
      PendingHead(s);
      var t := s.ev.lists[PENDING].items[0];
      var u := Unblock(s, t).(yielding := s.yielding || s.prio[t] >= s.prio[s.cur]);
      PendingUnblocked(s, t);
      hide Unblock, Others;
      DrainPendingDelivers(u);
      DrainPendingKeeps(u);
      StaysReady(u, DrainPending(u), t);
      DeliversOne(s, t, u, DrainPending(u));
    } else {
      NothingPends(s);
    }
  }

  lemma PendingUnblocked(s: State, t: Task)
    requires Shape(s) && t in s.st.at
    ensures var u := Unblock(s, t);
      u.ev.at == s.ev.at - {t} && u.st.at == s.st.at[t := s.prio[t]] && u.prio == s.prio && u.cur == s.cur
  {
    hide Arena.Wf;
    MoveEndWf(s.st, s.prio[t], t);
    DropEventWf(s.ev, t);
    hide MoveEnd, DropEvent;
  }

  lemma StaysReady(u: State, r: State, t: Task)
    requires PendingDelivered(u, r) && t in u.st.at && t !in u.ev.at
    ensures t in r.st.at && r.st.at[t] == u.st.at[t] && t !in r.ev.at
  {
    hide Places, Clock;
    assert Same(u, r, t);
  }

  lemma NothingPends(s: State)
    requires Shape(s) && s.ev.lists[PENDING].items == []
    ensures DrainPending(s) == s && Delivers(s, s)
  {
    hide Arena.Wf;
    EmptyHoldsNone(s.(suspended := 0));
  }

  /** xTaskResumeAll at the outermost level leaves a yield pending exactly when one was, when it
      readies a task that is not below the running one, or when a replayed tick asks for a switch. */
  lemma ResumeAllYields(s: State)
    requires Inv(s) && s.suspended == 1
    ensures Shape(s) && Shape(Resumed(s))
    ensures ResumeAll(s).yielding <==> s.yielding || PendsPeer(s) || SwitchAsked(Resumed(s), s.pended)
  {
    hide Arena.Wf, Clock, Homes, Waiting, Books, NonePending, DrainPending, Replay, ResumeAll, SwitchAsked, TickTimes;
    var d := Resumed(s);
    FlagsPlaces(s, s.yielding, 0, s.pended, s.next);
    FlagsClock(s, s.yielding, 0, s.pended);
    DrainPendingDelivers(s.(suspended := 0));
    ResumedKeeps(s);
    ResumeAllIs(s);
    ReplayIsTicks(d, s.pended, d.yielding, d.pended);
    assert With(d, d.yielding, d.pended) == d;
  }

  // ----- a task once woken

  /** t is ready, or on its way through the pending-ready list while the scheduler is suspended. */
  ghost predicate Woken(s: State, t: Task) {
    && t in s.st.at
    && if s.ev.Holds(PENDING, t) then s.st.at[t] != TERMINATING else s.st.at[t] < MAX_PRIORITIES
  }

  /** The step wakes t. */
  ghost predicate Wakes(s: State, step: Step, t: Task)
    requires Places(s) && Enabled(s, step)
  {
    match step
    case EventStep(l) => t == s.ev.lists[l].items[0]
    case NotifyStep(x, _) => t == x
    case ResumeStep(x) => t == x && x != s.cur && IsSuspended(s, x)
    case ResumeISRStep(x) => t == x && IsSuspended(s, x)
    case _ => false
  }

  lemma WakesWoken(s: State, step: Step, t: Task)
    requires Inv(s) && Enabled(s, step) && Able(s, step) && Wakes(s, step, t)
    ensures Woken(Apply(s, step), t)
  {
    PlacesShape(s);
    match step
    case EventStep(l) => EventWoken(s, l);
    case NotifyStep(x, isr) => NotifyWoken(s, x, isr);
    case ResumeStep(x) => ResumeWoken(s, x);
    case ResumeISRStep(x) => ResumeISRWoken(s, x);
    hide *;
  }

  lemma MovedReady(s: State, r: State, t: Task)
    requires Shape(s) && t in s.prio && Moved(s.st, r.st, s.prio[t], t) && !r.ev.Holds(PENDING, t)
    ensures Woken(r, t)
  {
    MovedAt(s.st, r.st, s.prio[t], t);
    hide Arena.Wf, Moved;
  }

  lemma EventWoken(s: State, l: nat)
    requires Inv(s) && 0 < l < |s.ev.lists| && s.ev.lists[l].items != []
    ensures Woken(EventWake(s, l), s.ev.lists[l].items[0])
  {
    hide Arena.Wf, Clock, Homes, Waiting, Books, NonePending, EventWake, Moved, Left, Shape;
    var t := s.ev.lists[l].items[0];
    var r := EventWake(s, l);
    PlacesShape(s);
    HeadWaits(s, l);
    EventWakes(s, l);
    if s.suspended == 0 { MovedReady(s, r, t); }
  }

  lemma HeadWaits(s: State, l: nat)
    requires Places(s) && 0 < l < |s.ev.lists| && s.ev.lists[l].items != []
    ensures var t := s.ev.lists[l].items[0]; t in s.st.at && s.st.at[t] != TERMINATING && t in s.prio
  {
    hide Arena.Wf, Homes, Books;
    Listed(s.ev, l, 0);
  }

  lemma NotifyWoken(s: State, t: Task, isr: bool)
    requires Shape(s) && t in s.st.at && s.st.at[t] < TERMINATING && t !in s.ev.at
    ensures Woken(Notify(s, t, isr), t)
  {
    hide Arena.Wf, Notify, Moved, OtherLists;
    NotifyWakes(s, t, isr);
    if !isr || s.suspended == 0 { MovedReady(s, Notify(s, t, isr), t); }
  }

  lemma ResumeWoken(s: State, t: Task)
    requires Shape(s) && t in s.st.at && t != s.cur && IsSuspended(s, t)
    ensures Woken(Resume(s, t), t)
  {
    hide Arena.Wf, Resume, Moved;
    ResumeWakes(s, t);
    MovedReady(s, Resume(s, t), t);
  }

  lemma ResumeISRWoken(s: State, t: Task)
    requires Shape(s) && t in s.st.at && IsSuspended(s, t)
    ensures Woken(ResumeFromISR(s, t), t)
  {
    hide Arena.Wf, ResumeFromISR, Moved, OtherLists;
    ResumeISRWakes(s, t);
    if s.suspended == 0 { MovedReady(s, ResumeFromISR(s, t), t); }
  }

  lemma NotPending(s: State, t: Task)
    requires NonePending(s) && s.suspended == 0
    ensures !s.ev.Holds(PENDING, t)
  {
  }

  lemma TickWoken(s: State, t: Task)
    requires Inv(s) && Woken(s, t)
    ensures Shape(s) && Woken(Tick(s).0, t)
  {
    hide Places, Clock, NonePending, Shape, Tick, Woken;
    PlacesShape(s);
    if s.suspended > 0 { PendedTickWoken(s, t); } else { RunningTickWoken(s, t); }
  }

  lemma PendedTickWoken(s: State, t: Task)
    requires Places(s) && s.suspended > 0 && Woken(s, t)
    ensures Shape(s) && Woken(Tick(s).0, t)
  {
    hide Places, Tick;
    PendedTick(s);
  }

  lemma RunningTickWoken(s: State, t: Task)
    requires Inv(s) && s.suspended == 0 && Woken(s, t)
    ensures Shape(s) && Woken(Tick(s).0, t)
  {
    hide Places, Clock, Shape, NonePending, Tick, TickFate;
    PlacesShape(s);
    NotPending(s, t);
    HasPriority(s, t);
    TickExact(s);
    FateWoken(s, Tick(s).0, t);
  }

  lemma HasPriority(s: State, t: Task)
    requires Shape(s) && t in s.st.at
    ensures t in s.prio
  {
    hide Arena.Wf;
  }

  lemma FateWoken(s: State, r: State, t: Task)
    requires t in s.st.at && t in s.prio && s.st.at[t] < MAX_PRIORITIES && !s.ev.Holds(PENDING, t) && TickFate(s, r, t)
    ensures Woken(r, t)
  {
    hide Due;
  }

  /** Ready at the end of the first loop of xTaskResumeAll. */
  lemma ResumedReady(s: State, t: Task)
    requires Inv(s) && s.suspended == 1 && Woken(s, t)
    ensures Shape(s) && Track(Resumed(s), t, s.now)
  {
    PlacesShape(s);
    var s1 := s.(suspended := 0);
    ResumedKeeps(s);
    ResumedNonePending(s);
    assert t in s.prio && s.prio[t] < MAX_PRIORITIES && t in s1.st.at by { hide Arena.Wf; }
    FlagsPlaces(s, s.yielding, 0, s.pended, s.next);
    FlagsClock(s, s.yielding, 0, s.pended);
    if s.ev.Holds(PENDING, t) {
      hide Arena.Wf, Clock, Homes, Waiting, Books, DrainPending;
      DrainPendingDelivers(s1);
      NotPending(Resumed(s), t);
    } else {
      assert Track(s, t, s.now) by { hide Arena.Wf; }
      hide Inv, Shape, Resumed, Places, Clock, NonePending, Track;
    }
  }

  lemma ResumeAllWoken(s: State, t: Task)
    requires Inv(s) && s.suspended > 0 && Woken(s, t)
    ensures Shape(s) && Woken(ResumeAll(s), t)
  {
    PlacesShape(s);
    if s.suspended > 1 {
      hide Arena.Wf, DrainPending, Replay;
    } else {
      hide Arena.Wf, Clock, Homes, Waiting, Books, Woken, Track, Resumed, ResumeAll, Replay, NonePending;
      ResumedReady(s, t);
      ResumedKeeps(s);
      PlacesShape(Resumed(s));
      ResumeAllIs(s);
      ReplayKeeps(Resumed(s), s.pended);
      TrackFlags(Replay(Resumed(s), s.pended), Replay(Resumed(s), s.pended).yielding, 0, 0,
                 Replay(Resumed(s), s.pended).next, t, s.now);
      ResumeAllKeeps(s);
      TrackedReady(ResumeAll(s), t, s.now);
    }
  }

  lemma TrackedReady(r: State, t: Task, due: int)
    requires Inv(r) && Track(r, t, due) && due <= r.now
    ensures Woken(r, t)
  {
    hide Arena.Wf, Clock;
  }

  lemma StepWoken(s: State, step: Step, t: Task)
    requires Inv(s) && Enabled(s, step) && Able(s, step) && Inv(Apply(s, step)) && !Touches(s, step, t)
    requires Woken(s, t)
    ensures Woken(Apply(s, step), t)
  {
    hide Places, Clock, NonePending, Woken, Tick, ResumeAll, Touches, Reprioritise;
    if step.TickStep? {
      TickWoken(s, t);
    } else if step.ResumeAllStep? {
      ResumeAllWoken(s, t);
    } else if step.PriorityStep? && step.task == t {
      PriorityWoken(s, t, step.prio);
    } else {
      hide *;
      OtherWoken(s, step, t);
    }
  }

  lemma PriorityWoken(s: State, t: Task, p: nat)
    requires Places(s) && Clock(s) && t in s.st.at && p < MAX_PRIORITIES && Woken(s, t)
    ensures Woken(Reprioritise(s, t, p), t)
  {
    hide Arena.Wf, Clock, Homes, Waiting, Books, Reprioritise, Others;
    RepriKeeps(s, t, p);
    RepriEvent(s, t, p);
  }

  lemma OtherWoken(s: State, step: Step, t: Task)
    requires Inv(s) && Enabled(s, step) && Able(s, step) && Inv(Apply(s, step)) && !Touches(s, step, t)
    requires Woken(s, t) && !step.TickStep? && !step.ResumeAllStep? && !(step.PriorityStep? && step.task == t)
    ensures Woken(Apply(s, step), t)
  {
    hide Inv, Apply, Enabled, Able, Touches, Bystander;
    WokenBystander(s, step, t);
    StepSame(s, step, t);
  }

  lemma WokenBystander(s: State, step: Step, t: Task)
    requires Inv(s) && Enabled(s, step) && Able(s, step) && Inv(Apply(s, step)) && !Touches(s, step, t)
    requires Woken(s, t)
    requires !step.TickStep? && !step.ResumeAllStep? && !(step.PriorityStep? && step.task == t)
    ensures Bystander(s, step, t)
  {
    hide Inv, Apply, Enabled, Able, Touches;
  }

  lemma {:induction false} StaysWoken(s: State, steps: seq<Step>, t: Task)
    requires Inv(s) && Legal(s, steps) && Avoids(s, steps, t) && Woken(s, t)
    ensures Woken(Run(s, steps), t)
    decreases |steps|
  {
    hide Inv, Touches, Woken;
    if steps != [] {
      StepInv(s, steps[0]);
      StepWoken(s, steps[0], t);
      StaysWoken(Apply(s, steps[0]), steps[1..], t);
    }
  }

  /** No wake-up is lost: a task that an event, a notification or a resumption wakes, from a task or
      an interrupt, with the scheduler running or suspended at any depth, is ready at its priority
      whenever the scheduler runs, until some operation acts on the task itself. */
  lemma WakeNotLost(s: State, step: Step, t: Task, steps: seq<Step>)
    requires Inv(s) && Enabled(s, step) && Wakes(s, step, t) && Able(s, step) && Inv(Apply(s, step))
    requires Legal(Apply(s, step), steps) && Avoids(Apply(s, step), steps, t)
    ensures var r := Run(Apply(s, step), steps);
      && Woken(r, t)
      && (r.suspended == 0 ==> t in r.st.at && t in r.prio && r.st.at[t] == r.prio[t] && !r.ev.Holds(PENDING, t))
  {
    var b := Apply(s, step);
    hide *;
    WakesWoken(s, step, t);
    StaysWoken(b, steps, t);
    RunInv(b, steps);
    WokenReady(Run(b, steps), t);
  }

  lemma WokenReady(r: State, t: Task)
    requires Inv(r) && Woken(r, t)
    ensures r.suspended == 0 ==> t in r.st.at && t in r.prio && r.st.at[t] == r.prio[t] && !r.ev.Holds(PENDING, t)
  {
    hide Arena.Wf, Clock;
  }

  /** And it is chosen: the next switch selects a woken task that is above every other ready one. */
  lemma WokenChosen(s: State, t: Task)
    requires Inv(s) && s.suspended == 0 && s.st.lists[0].items != [] && Woken(s, t)
    requires forall u :: u in s.st.at && u in s.prio && u != t && s.st.at[u] < MAX_PRIORITIES ==>
      s.prio[u] < Prio(s, t)
    ensures SwitchContext(s).cur == t
  {
    WokenReady(s, t);
    hide Arena.Wf, Homes, Waiting, Books, Clock, NonePending, SwitchContext;
    SwitchBest(s);
  }

  function Prio(s: State, t: Task): nat {
    if t in s.prio then s.prio[t] else 0
  }
}
