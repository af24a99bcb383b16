/** The remaining operations: suspension and resumption of tasks, priorities, creation,
    deletion, the context switch, and resuming the scheduler. */
module SchedOps {
  import opened Rings
  import opened Arenas
  import opened Sched
  import opened SchedInv
  import opened SchedSteps

  /** r is s with t moved to the end of list l, perhaps with a new priority, and off its event list. */
  ghost predicate Moved(s: State, r: State, t: Task, l: nat) {
    && s.st.Wf() && t in s.st.at && l < |s.st.lists|
    && r.st == MoveEnd(s.st, l, t) && r.ev == (if s.ev.Wf() then DropEvent(s.ev, t) else s.ev)
    && r == s.(st := r.st, ev := r.ev, prio := r.prio, key := r.key, top := r.top, cleanup := r.cleanup)
    && t in r.prio && r.prio == s.prio[t := r.prio[t]] && r.prio[t] < MAX_PRIORITIES
    && s.top <= r.top < MAX_PRIORITIES
  }

  lemma MovedShape(s: State, r: State, t: Task, l: nat)
    requires Shape(s) && Moved(s, r, t, l) && l < STATE_LISTS
    ensures Shape(r) && r.st.at == s.st.at[t := l] && r.ev.at == s.ev.at - {t}
    ensures |r.st.at| == |s.st.at|
  {
    hide Arena.Wf;
    MoveEndWf(s.st, l, t);
    DropEventWf(s.ev, t);
    hide MoveEnd;
    hide DropEvent;
    assert r.st.at.Keys == s.st.at.Keys;
  }

  lemma MovedPlaces(s: State, r: State, t: Task, l: nat)
    requires Places(s) && Moved(s, r, t, l) && l < STATE_LISTS
    requires l < MAX_PRIORITIES ==> r.prio[t] == l <= r.top
    requires s.st.at[t] != TERMINATING
    requires r.cleanup == s.cleanup + (if l == TERMINATING then 1 else 0)
    ensures Places(r)
  {
    hide Arena.Wf, TopOk, MoveEnd, DropEvent, Items, Homes, Waiting;
    MovedShape(s, r, t, l);
    MovedCleanup(s, r, t, l);
    MovedTop(s, r, t, l);
    hide Shape;
    MovedHomes(s, r, t, l);
  }

  lemma MovedHomes(s: State, r: State, t: Task, l: nat)
    requires Homes(s) && Waiting(s) && t in r.prio && r.prio == s.prio[t := r.prio[t]]
    requires r.st.at == s.st.at[t := l] && r.ev.at == s.ev.at - {t} && (l < MAX_PRIORITIES ==> r.prio[t] == l)
    ensures Homes(r) && Waiting(r)
  {
  }

  lemma MovedCleanup(s: State, r: State, t: Task, l: nat)
    requires Shape(s) && Moved(s, r, t, l) && s.st.at[t] != TERMINATING && l < STATE_LISTS
    ensures |Items(r, TERMINATING)| == |Items(s, TERMINATING)| + (if l == TERMINATING then 1 else 0)
  {
    MoveEndWf(s.st, l, t);
    RemoveWf(s.st, t);
    hide Arena.Wf;
  }

  lemma MovedTop(s: State, r: State, t: Task, l: nat)
    requires Places(s) && Moved(s, r, t, l) && l < STATE_LISTS && (l < MAX_PRIORITIES ==> l <= r.top)
    ensures TopOk(r)
  {
    hide Arena.Wf;
    MoveEndWf(s.st, l, t);
    hide MoveEnd;
    forall m | r.top < m < MAX_PRIORITIES && m < |r.st.lists| ensures r.st.lists[m].items == [] {
      assert s.st.lists[m].items == [];
      assert m != s.st.at[t];
    }
  }

  lemma MovedClock(s: State, r: State, t: Task, l: nat)
    requires Shape(s) && Clock(s) && Moved(s, r, t, l) && l < STATE_LISTS && l != DELAYED_1 && l != DELAYED_2
    ensures Clock(r)
  {
    ItemsNoDup(s, s.delayed);
    ItemsNoDup(s, Over(s));
    MoveEndWf(s.st, l, t);
    hide Arena.Wf;
    hide Sorted;
    hide Without;
    MovedLists(s, r, t, l);
    if Items(r, s.delayed) != Items(s, s.delayed) {
      CurrentLess(Items(s, s.delayed), s.wake, s.tick, s.next, t);
    }
    if Items(r, Over(s)) != Items(s, Over(s)) {
      OverflowLess(Items(s, Over(s)), s.wake, s.tick, t);
    }
    hide CurrentOk;
    hide OverflowOk;
    hide MoveEnd;
  }

  lemma MovedLists(s: State, r: State, t: Task, l: nat)
    requires Shape(s) && Moved(s, r, t, l) && l < STATE_LISTS
    ensures forall m :: 0 <= m < STATE_LISTS && m != l ==>
      Items(r, m) == Items(s, m) || (t in Items(s, m) && Items(r, m) == Without(Items(s, m), t))
  {
    MoveEndWf(s.st, l, t);
    hide Arena.Wf;
    hide MoveEnd;
  }

  lemma MovedOthers(s: State, r: State, t: Task, l: nat)
    requires Shape(s) && Moved(s, r, t, l) && l < STATE_LISTS
    ensures Others(s, r, t) && t in r.st.at && r.st.at[t] == l
  {
    hide Arena.Wf;
    MoveEndWf(s.st, l, t);
    DropEventWf(s.ev, t);
    hide MoveEnd;
    hide DropEvent;
  }

  lemma ReadyKeeps(s: State, t: Task)
    requires Places(s) && Clock(s) && t in s.st.at && s.st.at[t] != TERMINATING && t !in s.ev.at
    ensures var r := MakeReady(s, t);
      && Places(r) && Clock(r) && Others(s, r, t) && t in r.st.at && r.st.at[t] == s.prio[t]
      && r == s.(st := r.st, top := r.top)
  {
    WakeKeeps(s, t);
    assert Unblock(s, t) == MakeReady(s, t).(ev := s.ev);
    hide Unblock;
    hide Arena.Wf;
  }

  lemma ResumeKeeps(s: State, t: Task)
    requires Places(s) && Clock(s) && t in s.st.at
    ensures Places(Resume(s, t)) && Clock(Resume(s, t)) && Others(s, Resume(s, t), t)
    ensures Resume(s, t) == s || (s.st.at[t] == SUSPENDED && Resume(s, t) == MakeReady(s, t))
  {
    hide Arena.Wf;
    if t != s.cur && IsSuspended(s, t) { ReadyKeeps(s, t); }
    hide MakeReady;
    hide Clock;
    hide Places;
  }

  lemma ResumeISRKeeps(s: State, t: Task)
    requires Places(s) && Clock(s) && t in s.st.at
    ensures Places(ResumeFromISR(s, t)) && Clock(ResumeFromISR(s, t)) && Others(s, ResumeFromISR(s, t), t)
    ensures s.st.at[t] != SUSPENDED ==> ResumeFromISR(s, t) == s
  {
    hide Arena.Wf;
    if !IsSuspended(s, t) {
    } else if s.suspended == 0 {
      ReadyKeeps(s, t);
    } else {
      PendNew(s, t);
    }
    hide MakeReady;
    hide Clock;
    hide Places;
  }

  /** A notification readies its task, or pends it when the scheduler is suspended. */
  lemma NotifyKeeps(s: State, t: Task, isr: bool)
    requires Places(s) && Clock(s) && t in s.st.at && s.st.at[t] < TERMINATING && t !in s.ev.at
    ensures Places(Notify(s, t, isr)) && Clock(Notify(s, t, isr)) && Others(s, Notify(s, t, isr), t)
  {
    hide Arena.Wf;
    var b := s.yielding || s.prio[t] > s.prio[s.cur];
    if !isr || s.suspended == 0 {
      ReadyKeeps(s, t);
      YieldKeeps(s, MakeReady(s, t), b, t);
    } else {
      PendNew(s, t);
      YieldKeeps(s, s.(ev := s.ev.PutEnd(PENDING, t)), b, t);
    }
    hide MakeReady;
    hide Clock;
    hide Places;
    hide Others;
  }

  lemma PendNew(s: State, t: Task)
    requires Places(s) && Clock(s) && t in s.st.at && s.st.at[t] < TERMINATING && t !in s.ev.at
    ensures var r := s.(ev := s.ev.PutEnd(PENDING, t)); Places(r) && Clock(r) && Others(s, r, t)
  {
    hide Arena.Wf;
    PutEndWf(s.ev, PENDING, t);
    var ev := s.ev.PutEnd(PENDING, t);
    EventPlaces(s, ev, t);
    SameClock(s, s.(ev := ev));
    hide Clock;
    hide Places;
  }

  lemma ResetKeeps(s: State, m: State, t: Task)
    requires Places(m) && Clock(m) && Others(s, m, t)
    ensures Places(ResetNext(m)) && Clock(ResetNext(m)) && Others(s, ResetNext(m), t)
  {
    ResetClock(m);
    FlagsPlaces(m, m.yielding, m.suspended, m.pended, ResetNext(m).next);
    hide Clock;
    hide Places;
    hide Shape;
  }

  lemma SuspendMoved(s: State, t: Task)
    requires Places(s) && t in s.st.at
    ensures Moved(s, s.(st := MoveEnd(s.st, SUSPENDED, t), ev := DropEvent(s.ev, t)), t, SUSPENDED)
  {
    assert s.prio == s.prio[t := s.prio[t]];
    hide Arena.Wf;
    hide MoveEnd;
    hide DropEvent;
  }

  /** vTaskSuspend: t goes to the suspended list whatever list it was on. */
  lemma SuspendKeeps(s: State, t: Task)
    requires Places(s) && Clock(s) && t in s.st.at && s.st.at[t] != TERMINATING
    ensures Places(Suspend(s, t)) && Clock(Suspend(s, t)) && Others(s, Suspend(s, t), t)
  {
    SuspendMoved(s, t);
    var m := s.(st := MoveEnd(s.st, SUSPENDED, t), ev := DropEvent(s.ev, t));
    MovedPlaces(s, m, t, SUSPENDED);
    MovedClock(s, m, t, SUSPENDED);
    MovedOthers(s, m, t, SUSPENDED);
    hide Clock;
    hide Arena.Wf;
    hide MoveEnd;
    hide DropEvent;
    hide Moved;
    hide Others;
    ResetKeeps(s, m, t);
  }

  lemma RepriKeeps(s: State, t: Task, p: nat)
    requires Places(s) && Clock(s) && t in s.st.at && p < MAX_PRIORITIES
    ensures var r := Reprioritise(s, t, p);
      Places(r) && Clock(r) && Others(s, r, t) && r.prio == s.prio[t := p]
      && (if s.st.at[t] < MAX_PRIORITIES then t in r.st.at && r.st.at[t] == p else Same(s, r, t))
  {
    hide Arena.Wf;
    var r := Reprioritise(s, t, p);
    if s.st.at[t] >= MAX_PRIORITIES {
      SameClock(s, r);
      ElsewherePlaces(s, t, p);
    } else if t in s.ev.at {
      RepriPending(s, t, p);
    } else {
      RepriReady(s, t, p);
    }
    hide Clock;
    hide MoveEnd;
    hide MakeReady;
  }

  lemma RepriReady(s: State, t: Task, p: nat)
    requires Places(s) && Clock(s) && t in s.st.at && p < MAX_PRIORITIES && s.st.at[t] < MAX_PRIORITIES && t !in s.ev.at
    ensures var r := Reprioritise(s, t, p);
      Places(r) && Clock(r) && Others(s, r, t) && t in r.st.at && r.st.at[t] == p
      && r == s.(st := r.st, prio := s.prio[t := p], key := r.key, top := r.top)
  {
    hide Arena.Wf;
    var r := Reprioritise(s, t, p);
    assert Moved(s, r, t, p);
    MovedPlaces(s, r, t, p);
    MovedClock(s, r, t, p);
    MovedOthers(s, r, t, p);
    hide Clock;
    hide MoveEnd;
    hide MakeReady;
  }

  /** A ready task that is on the pending-ready list as well stays on it. */
  lemma RepriPending(s: State, t: Task, p: nat)
    requires Places(s) && Clock(s) && t in s.st.at && p < MAX_PRIORITIES && s.st.at[t] < MAX_PRIORITIES && t in s.ev.at
    ensures var r := Reprioritise(s, t, p);
      Places(r) && Clock(r) && Others(s, r, t) && r.prio == s.prio[t := p] && t in r.st.at && r.st.at[t] == p
  {
    hide Arena.Wf, DropEvent, MakeReady, Clock, Reprioritise, Others;
    var s0 := s.(ev := DropEvent(s.ev, t));
    DropEventWf(s.ev, t);
    WithoutEvent(s, s0, t);
    EventBack(s, s0, t, p);
    hide Places;
    RepriReady(s0, t, p);
    var r0, r := Reprioritise(s0, t, p), Reprioritise(s, t, p);
    SameMove(s, s0, t, p);
    EventPlaces(r0, s.ev, t);
    SameClock(r0, r);
    OthersBack(s, r0, r, t);
  }

  lemma EventBack(s: State, s0: State, t: Task, p: nat)
    requires Places(s) && t in s.ev.at && s.st.at[t] < MAX_PRIORITIES && s0.ev.at == s.ev.at - {t}
    ensures Shape(s) && s.ev.at[t] == PENDING && s.ev.at == s0.ev.at[t := s.ev.at[t]]
  {
    hide Arena.Wf, Homes, Books;
  }

  lemma WithoutEvent(s: State, s0: State, t: Task)
    requires Places(s) && Clock(s) && s0 == s.(ev := s0.ev)
    requires s0.ev.Wf() && |s0.ev.lists| == |s.ev.lists| && s0.ev.at == s.ev.at - {t}
    ensures Places(s0) && Clock(s0)
  {
    hide Arena.Wf, Clock;
    SameClock(s, s0);
    WithoutEventPlaces(s, s0, t);
    hide Places;
  }

  lemma WithoutEventPlaces(s: State, s0: State, t: Task)
    requires Places(s) && s0 == s.(ev := s0.ev)
    requires s0.ev.Wf() && |s0.ev.lists| == |s.ev.lists| && s0.ev.at == s.ev.at - {t}
    ensures Places(s0)
  {
    hide Arena.Wf, TopOk;
    assert Items(s0, TERMINATING) == Items(s, TERMINATING);
    assert TopOk(s0) by { SameTop(s, s0); }
  }

  lemma SameTop(s: State, r: State)
    requires TopOk(s) && r.st == s.st && r.top == s.top
    ensures TopOk(r)
  {
    hide Arena.Wf;
  }

  lemma SameMove(s: State, s0: State, t: Task, p: nat)
    requires Shape(s) && Shape(s0) && s0 == s.(ev := s0.ev) && t in s.st.at && p < MAX_PRIORITIES
    ensures Reprioritise(s, t, p) == Reprioritise(s0, t, p).(ev := s.ev)
  {
    hide Arena.Wf, MoveEnd;
  }

  lemma OthersBack(s: State, r0: State, r: State, t: Task)
    requires Others(s.(ev := r0.ev), r0, t) && r == r0.(ev := s.ev)
    ensures Others(s, r, t)
  {
    forall x | x in s.st.at && x != t ensures Same(s, r, x) { assert Same(s.(ev := r0.ev), r0, x); }
  }

  lemma ElsewherePlaces(s: State, t: Task, p: nat)
    requires Places(s) && t in s.st.at && s.st.at[t] >= MAX_PRIORITIES && p < MAX_PRIORITIES
    ensures Places(s.(prio := s.prio[t := p], key := s.key[t := MAX_PRIORITIES - p]))
  {
    hide Arena.Wf;
  }

  lemma CreateKeeps(s: State, t: Task, p: nat)
    requires Places(s) && Clock(s) && t !in s.prio && p < MAX_PRIORITIES
    ensures Places(Create(s, t, p)) && Clock(Create(s, t, p)) && Others(s, Create(s, t, p), t)
  {
    hide Arena.Wf;
    CreatePlaces(s, t, p);
    CreateClock(s, t, p);
    CreateOthers(s, t, p);
    hide Create;
    hide Places;
    hide Clock;
    hide Others;
  }

  lemma CreatePlaces(s: State, t: Task, p: nat)
    requires Places(s) && t !in s.prio && p < MAX_PRIORITIES
    ensures Places(Create(s, t, p))
  {
    hide Arena.Wf;
    PutEndWf(s.st, p, t);
    CreateShape(s, t, p);
    CreateTop(s, t, p);
    assert Items(Create(s, t, p), TERMINATING) == Items(s, TERMINATING);
    hide TopOk, Shape, Items, Homes, Waiting;
    CreateHomes(s, t, p);
  }

  lemma CreateHomes(s: State, t: Task, p: nat)
    requires Shape(s) && Homes(s) && Waiting(s) && t !in s.prio && p < MAX_PRIORITIES
    ensures Homes(Create(s, t, p)) && Waiting(Create(s, t, p))
  {
    hide Arena.Wf;
    assert t !in s.st.at && t !in s.ev.at;
  }

  lemma CreateOthers(s: State, t: Task, p: nat)
    requires Shape(s) && t !in s.prio && p < MAX_PRIORITIES
    ensures Others(s, Create(s, t, p), t)
  {
    hide Arena.Wf;
  }

  lemma CreateClock(s: State, t: Task, p: nat)
    requires Shape(s) && Clock(s) && t !in s.prio && p < MAX_PRIORITIES
    ensures Clock(Create(s, t, p))
  {
    var r := Create(s, t, p);
    assert Items(r, s.delayed) == Items(s, s.delayed) && Items(r, Over(s)) == Items(s, Over(s));
    hide Arena.Wf;
    hide CurrentOk;
    hide OverflowOk;
  }

  lemma CreateShape(s: State, t: Task, p: nat)
    requires Shape(s) && t !in s.prio && p < MAX_PRIORITIES && s.st.PutEnd(p, t).Wf()
    ensures Shape(Create(s, t, p))
    ensures |Create(s, t, p).st.at| == |s.st.at| + 1
  {
    hide Arena.Wf;
    assert t !in s.st.at;
    assert Create(s, t, p).st.at.Keys == s.st.at.Keys + {t};
  }

  lemma CreateTop(s: State, t: Task, p: nat)
    requires Places(s) && t !in s.prio && p < MAX_PRIORITIES
    ensures TopOk(Create(s, t, p))
  {
    hide Arena.Wf;
    forall m | Create(s, t, p).top < m < MAX_PRIORITIES ensures Create(s, t, p).st.lists[m].items == [] {
      assert s.st.lists[m].items == [];
    }
  }

  /** r is s without t: its TCB is gone. */
  ghost predicate Gone(s: State, r: State, t: Task) {
    && s.st.Wf() && s.ev.Wf() && t in s.st.at && t != s.cur
    && r.st == s.st.Remove(t) && r.ev == DropEvent(s.ev, t)
    && r == s.(st := r.st, ev := r.ev, prio := s.prio - {t}, count := r.count, cleanup := r.cleanup)
    && r.count == s.count - 1
  }

  lemma GoneShape(s: State, r: State, t: Task)
    requires Shape(s) && Gone(s, r, t)
    ensures Shape(r) && r.st.at == s.st.at - {t} && r.ev.at == s.ev.at - {t}
    ensures |r.st.at| == |s.st.at| - 1
    ensures forall m :: 0 <= m < STATE_LISTS ==> (if m == s.st.at[t]
      then t in Items(s, m) && Items(r, m) == Without(Items(s, m), t) && |Items(r, m)| == |Items(s, m)| - 1
      else Items(r, m) == Items(s, m))
  {
    hide Arena.Wf;
    hide Without;
    RemoveWf(s.st, t);
    DropEventWf(s.ev, t);
    assert r.st.at.Keys == s.st.at.Keys - {t};
  }

  lemma GoneClock(s: State, r: State, t: Task)
    requires Shape(s) && Clock(s) && Gone(s, r, t)
    ensures Clock(r)
  {
    GoneShape(s, r, t);
    ItemsNoDup(s, s.delayed);
    ItemsNoDup(s, Over(s));
    hide Arena.Wf;
    hide Without;
    hide Sorted;
    if s.st.at[t] == s.delayed { CurrentLess(Items(s, s.delayed), s.wake, s.tick, s.next, t); }
    if s.st.at[t] == Over(s) { OverflowLess(Items(s, Over(s)), s.wake, s.tick, t); }
    hide CurrentOk;
    hide OverflowOk;
  }

  lemma GoneTop(s: State, r: State, t: Task)
    requires Places(s) && Gone(s, r, t)
    ensures TopOk(r)
  {
    hide Arena.Wf;
    hide Without;
    GoneShape(s, r, t);
    assert r.top == s.top;
    hide Gone;
    forall m | s.top < m < MAX_PRIORITIES ensures r.st.lists[m].items == [] {
      assert s.st.lists[m].items == [];
      assert Items(r, m) == Items(s, m);
    }
  }

  lemma GoneBooks(s: State, r: State, t: Task)
    requires Places(s) && Gone(s, r, t)
    requires r.cleanup == s.cleanup - (if s.st.at[t] == TERMINATING then 1 else 0)
    ensures Books(r) && Shape(r)
  {
    hide Arena.Wf;
    hide Without;
    GoneShape(s, r, t);
    GoneTop(s, r, t);
    hide TopOk;
    hide Shape;
    hide DropEvent;
  }

  lemma GonePlaces(s: State, r: State, t: Task)
    requires Places(s) && Gone(s, r, t)
    requires r.cleanup == s.cleanup - (if s.st.at[t] == TERMINATING then 1 else 0)
    ensures Places(r)
  {
    hide Arena.Wf;
    GoneShape(s, r, t);
    GoneBooks(s, r, t);
    hide Books;
    hide Shape;
    hide Items;
    hide DropEvent;
  }

  lemma GoneOthers(s: State, r: State, t: Task)
    requires Places(s) && Gone(s, r, t)
    ensures Others(s, r, t)
  {
    hide Arena.Wf, Homes, Waiting, Books, Items, Without, DropEvent;
    GoneShape(s, r, t);
    hide Shape;
  }

  lemma GoneKeeps(s: State, r: State, t: Task)
    requires Places(s) && Clock(s) && Gone(s, r, t)
    requires r.cleanup == s.cleanup - (if s.st.at[t] == TERMINATING then 1 else 0)
    ensures Places(r) && Clock(r) && Others(s, r, t)
  {
    GonePlaces(s, r, t);
    GoneClock(s, r, t);
    GoneOthers(s, r, t);
    hide Places;
    hide Clock;
    hide Others;
  }

  lemma DeleteKeeps(s: State, t: Task)
    requires Places(s) && Clock(s) && t in s.st.at && s.st.at[t] != TERMINATING && s.count > 0
    ensures Places(Delete(s, t)) && Clock(Delete(s, t)) && Others(s, Delete(s, t), t)
  {
    hide Arena.Wf;
    if t == s.cur {
      var r := Delete(s, t);
      assert s.prio == s.prio[t := s.prio[t]];
      MovedPlaces(s, r, t, TERMINATING);
      MovedClock(s, r, t, TERMINATING);
      MovedOthers(s, r, t, TERMINATING);
    } else {
      RemoveWf(s.st, t);
      var m := s.(st := s.st.Remove(t), ev := DropEvent(s.ev, t), prio := s.prio - {t}, count := s.count - 1);
      GoneKeeps(s, m, t);
      hide Others;
      hide Clock;
      ResetKeeps(s, m, t);
    }
  }

  lemma CleanOneKeeps(s: State)
    requires Places(s) && Clock(s) && CleanupReady(s) && s.cleanup > 0
    ensures Places(CleanOne(s)) && Clock(CleanOne(s)) && CleanupReady(CleanOne(s))
    ensures s.st.Holds(TERMINATING, Items(s, TERMINATING)[0])
    ensures Others(s, CleanOne(s), Items(s, TERMINATING)[0])
  {
    hide Arena.Wf;
    var t := s.st.lists[TERMINATING].items[0];
    Listed(s.st, TERMINATING, 0);
    CleanOneReady(s);
    assert t !in s.ev.at && DropEvent(s.ev, t) == s.ev;
    GoneKeeps(s, CleanOne(s), t);
    hide Places;
    hide Clock;
    hide Others;
  }

  lemma {:induction false} CleanupKeeps(s: State)
    requires Places(s) && Clock(s) && CleanupReady(s)
    ensures Places(Cleanup(s)) && Clock(Cleanup(s)) && Items(Cleanup(s), TERMINATING) == []
    ensures forall t :: t in s.st.at && s.st.at[t] != TERMINATING ==> Same(s, Cleanup(s), t)
    decreases s.cleanup
  {
    hide Arena.Wf;
    if s.cleanup > 0 {
      CleanOneKeeps(s);
      CleanupKeeps(CleanOne(s));
    }
    hide Clock;
    hide CleanupReady;
  }
}
