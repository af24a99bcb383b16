/** Whole runs of the scheduler: safety in every reachable state, exact wake-up, and the
    transparency of suspending the scheduler. */
module SchedRuns {
  import opened Words
  import opened Arenas
  import opened Sched
  import opened SchedInv
  import opened SchedTick
  import opened SchedSteps

  // ----- resuming the scheduler

  ghost predicate PendingDelivered(s: State, r: State) {
    && Places(r) && Clock(r) && r.suspended == s.suspended && r.pended == s.pended
    && r.now == s.now && r.tick == s.tick
    && (forall t :: t in s.st.at && !s.ev.Holds(PENDING, t) ==> Same(s, r, t))
  }

  lemma DeliveredOne(s: State, u: State, r: State, t: Task)
    requires Others(s, u, t) && s.ev.Holds(PENDING, t) && PendingDelivered(u, r)
    requires u == s.(st := u.st, ev := u.ev, top := u.top, yielding := u.yielding)
    ensures PendingDelivered(s, r)
  {
    hide Places;
    hide Clock;
    forall x | x in s.st.at && !s.ev.Holds(PENDING, x) ensures Same(s, r, x) {
      assert Same(s, u, x);
    }
  }

  /** The pended wake-ups are delivered; nobody else moves. */
  lemma {:induction false} DrainPendingKeeps(s: State)
    requires Places(s) && Clock(s)
    ensures PendingDelivered(s, DrainPending(s))
    decreases |s.ev.lists[PENDING].items|
  {
    hide Arena.Wf;
    var items := s.ev.lists[PENDING].items;
    if items != [] {
      PendingHead(s);
      var t := items[0];
      var u := Unblock(s, t).(yielding := s.yielding || s.prio[t] >= s.prio[s.cur]);
      hide Unblock;
      hide Clock;
      hide DrainPending;
      hide PendingDelivered;
      hide Others;
      DrainPendingKeeps(u);
      DeliveredOne(s, u, DrainPending(u), t);
    }
  }

  lemma PendingHead(s: State)
    requires Places(s) && Clock(s) && s.ev.lists[PENDING].items != []
    ensures var t := s.ev.lists[PENDING].items[0];
      && t in s.st.at && s.ev.Holds(PENDING, t)
      && var u := Unblock(s, t).(yielding := s.yielding || s.prio[t] >= s.prio[s.cur]);
      && Places(u) && Clock(u) && Others(s, u, t) && DrainPending(s) == DrainPending(u)
      && u == s.(st := u.st, ev := u.ev, top := u.top, yielding := u.yielding)
      && |u.ev.lists| == |s.ev.lists|
      && |u.ev.lists[PENDING].items| < |s.ev.lists[PENDING].items|
  {
    hide Arena.Wf;
    Listed(s.ev, PENDING, 0);
    var t := s.ev.lists[PENDING].items[0];
    assert t in s.st.at && s.st.at[t] != TERMINATING;
    WakeKeeps(s, t);
    DropEventWf(s.ev, t);
    YieldKeeps(s, Unblock(s, t), s.yielding || s.prio[t] >= s.prio[s.cur], t);
    hide Clock;
    hide Places;
    hide Others;
  }

  /** A delayed task waits for its due time; from then on it is ready. */
  ghost predicate Track(s: State, t: Task, due: int) {
    && t in s.st.at && t in s.prio && !s.ev.Holds(PENDING, t)
    && if s.now < due then IsDelayed(s, t) && Due(s, t) == due else s.st.at[t] == s.prio[t]
  }

  lemma TrackSame(s: State, r: State, t: Task, due: int)
    requires Track(s, t, due) && Same(s, r, t) && Places(s) && Places(r)
    ensures Track(r, t, due)
  {
    hide Arena.Wf;
  }

  lemma TrackFate(s: State, r: State, t: Task, due: int)
    requires Places(s) && Track(s, t, due) && TickFate(s, r, t)
    requires r.now == s.now + 1 && r.prio == s.prio
    requires IsDelayed(s, t) ==> Due(s, t) > s.now
    ensures Track(r, t, due)
  {
    hide Arena.Wf;
    hide Due;
    assert s.prio[t] < MAX_PRIORITIES;
  }

  lemma TrackTick(s: State, t: Task, due: int)
    requires Places(s) && Clock(s) && s.suspended == 0 && Track(s, t, due)
    ensures Track(Tick(s).0, t, due)
  {
    TickExact(s);
    if IsDelayed(s, t) { AdvancedDue(s, t); }
    hide Arena.Wf;
    hide Tick;
    hide Places;
    hide Clock;
    hide TickFate;
    hide Track;
    TrackFate(s, Tick(s).0, t, due);
  }

  lemma LateTickKeeps(s: State)
    requires Places(s) && Clock(s) && s.suspended == 0
    ensures var r := LateTick(s);
      && Places(r) && Clock(r) && r.suspended == 0 && r.pended == s.pended && r.now == s.now + 1
      && forall t, due :: Track(s, t, due) ==> Track(r, t, due)
  {
    hide Arena.Wf;
    TickExact(s);
    var (m, sw) := Tick(s);
    FlagsPlaces(m, m.yielding || sw, m.suspended, m.pended, m.next);
    FlagsClock(m, m.yielding || sw, m.suspended, m.pended);
    forall t, due | Track(s, t, due) ensures Track(LateTick(s), t, due) {
      TrackTick(s, t, due);
      TrackFlags(m, m.yielding || sw, m.suspended, m.pended, m.next, t, due);
    }
    hide Tick;
    hide Places;
    hide Clock;
  }

  lemma ReplayOne(s: State, k: nat)
    requires Shape(s)
    ensures Shape(LateTick(s)) && Replay(s, k) == if k == 0 then s else Replay(LateTick(s), k - 1)
  {
    TickShape(s);
    hide Tick, Arena.Wf;
  }

  /** Replaying k pended ticks advances the clock by k and wakes whoever comes due. */
  lemma {:induction false} ReplayKeeps(s: State, k: nat)
    requires Places(s) && Clock(s) && s.suspended == 0
    ensures var r := Replay(s, k);
      && Places(r) && Clock(r) && r.suspended == 0 && r.pended == s.pended && r.now == s.now + k
      && (NonePending(s) ==> NonePending(r))
      && forall t, due :: Track(s, t, due) ==> Track(r, t, due)
    decreases k
  {
    hide *;
    PlacesShape(s);
    ReplayOne(s, k);
    if k > 0 {
      LateTickKeeps(s);
      if NonePending(s) { LateTickNonePending(s); }
      ReplayKeeps(LateTick(s), k - 1);
    }
  }

  lemma TrackFlags(m: State, b: bool, suspended: nat, pended: nat, next: word, t: Task, due: int)
    requires Track(m, t, due)
    ensures Track(m.(yielding := b, suspended := suspended, pended := pended, next := next), t, due)
  {
  }

  lemma FlagsClock(m: State, b: bool, suspended: nat, pended: nat)
    requires Clock(m)
    ensures Clock(m.(yielding := b, suspended := suspended, pended := pended))
  {
    SameClock(m, m.(yielding := b, suspended := suspended, pended := pended));
  }

  /** Between the two loops of xTaskResumeAll. */
  function Resumed(s: State): State
    requires Shape(s)
  {
    var s1 := s.(suspended := 0);
    DrainPendingShape(s1);
    if s1.ev.lists[PENDING].items == [] then DrainPending(s1) else ResetNext(DrainPending(s1))
  }

  lemma ResumedKeeps(s: State)
    requires Places(s) && Clock(s)
    ensures Places(Resumed(s)) && Clock(Resumed(s)) && Resumed(s).suspended == 0
    ensures Resumed(s).now == s.now && Resumed(s).pended == s.pended
    ensures forall t, due :: Track(s, t, due) ==> Track(Resumed(s), t, due)
  {
    hide Arena.Wf, Clock, Homes, Waiting, Books, DrainPending, Track;
    var s1 := s.(suspended := 0);
    FlagsPlaces(s, s.yielding, 0, s.pended, s.next);
    FlagsClock(s, s.yielding, 0, s.pended);
    DrainPendingKeeps(s1);
    var d := DrainPending(s1);
    ResetClock(d);
    FlagsPlaces(d, d.yielding, d.suspended, d.pended, ResetNext(d).next);
    forall t, due | Track(s, t, due) ensures Track(Resumed(s), t, due) {
      ResumedTrack(s, d, t, due);
    }
  }

  lemma ResumedTrack(s: State, d: State, t: Task, due: int)
    requires Places(s) && Places(d) && Track(s, t, due) && PendingDelivered(s.(suspended := 0), d)
    ensures Track(d, t, due) && forall n :: Track(d.(next := n), t, due)
  {
    hide Arena.Wf;
    hide Clock;
    assert Homes(s) && s.prio[t] < MAX_PRIORITIES;
    assert Same(s, d, t) by { hide Places; }
    TrackSame(s, d, t, due);
  }

  lemma ResumeAllIs(s: State)
    requires Shape(s) && s.suspended == 1 && Shape(Resumed(s))
    ensures ResumeAll(s) == Replay(Resumed(s), s.pended).(pended := 0)
  {
  }

  /** The first loop of xTaskResumeAll empties xPendingReadyList. */
  lemma {:induction false} DrainPendingEmpties(s: State)
    requires Places(s) && Clock(s)
    ensures Shape(DrainPending(s)) && DrainPending(s).ev.lists[PENDING].items == []
    decreases |s.ev.lists[PENDING].items|
  {
    hide Arena.Wf;
    if s.ev.lists[PENDING].items != [] {
      PendingHead(s);
      var t := s.ev.lists[PENDING].items[0];
      var u := Unblock(s, t).(yielding := s.yielding || s.prio[t] >= s.prio[s.cur]);
      hide Unblock, Clock, DrainPending, Others, Books, Homes, Waiting;
      DrainPendingEmpties(u);
    }
  }

  lemma EmptyHoldsNone(s: State)
    requires Shape(s) && s.ev.lists[PENDING].items == []
    ensures NonePending(s)
  {
  }

  lemma NoneMeansEmpty(s: State)
    requires Shape(s) && NonePending(s) && s.suspended == 0
    ensures s.ev.lists[PENDING].items == []
  {
    hide Arena.Wf;
    if s.ev.lists[PENDING].items != [] { Listed(s.ev, PENDING, 0); }
  }

  lemma FateNotPending(s: State, r: State, t: Task)
    requires t in s.st.at && t in s.prio && TickFate(s, r, t) && !s.ev.Holds(PENDING, t)
    ensures !r.ev.Holds(PENDING, t)
  {
    hide Due;
  }

  lemma EventMeansTask(s: State)
    requires Places(s)
    ensures forall t :: t in s.ev.at ==> t in s.st.at && t in s.prio
  {
    hide Arena.Wf, Homes, Books;
  }

  lemma TickNonePending(s: State)
    requires Places(s) && Clock(s) && s.suspended == 0 && NonePending(s)
    ensures Shape(s) && NonePending(Tick(s).0)
  {
    assert Shape(s);
    hide Tick, Clock, Arena.Wf, TickFate, Places, Shape;
    TickExact(s);
    EventMeansTask(s);
    var r := Tick(s).0;
    forall t ensures !r.ev.Holds(PENDING, t) {
      if t in r.ev.at {
        assert t in s.ev.at;
        FateNotPending(s, r, t);
      }
    }
  }

  lemma LateTickNonePending(s: State)
    requires Places(s) && Clock(s) && s.suspended == 0 && NonePending(s)
    ensures Shape(s) && NonePending(LateTick(s))
  {
    TickNonePending(s);
    hide Tick, Clock, Places, Shape;
  }

  lemma ResetNonePending(d: State)
    requires Shape(d) && NonePending(d)
    ensures NonePending(ResetNext(d))
  {
    hide Shape;
  }

  lemma ResumedNonePending(s: State)
    requires Places(s) && Clock(s)
    ensures NonePending(Resumed(s))
  {
    hide Arena.Wf, Clock, Homes, Waiting, Books, DrainPending, NonePending;
    var s1 := s.(suspended := 0);
    FlagsPlaces(s, s.yielding, 0, s.pended, s.next);
    FlagsClock(s, s.yielding, 0, s.pended);
    DrainPendingEmpties(s1);
    hide Shape, Places;
    EmptyHoldsNone(DrainPending(s1));
    ResetNonePending(DrainPending(s1));
  }

  lemma ResumeAllKeeps(s: State)
    requires Inv(s) && s.suspended > 0
    ensures Inv(ResumeAll(s)) && ResumeAll(s).now + ResumeAll(s).pended == s.now + s.pended
    ensures forall t, due :: Track(s, t, due) ==> Track(ResumeAll(s), t, due)
  {
    hide Arena.Wf;
    if s.suspended > 1 {
      var n := s.suspended - 1;
      FlagsPlaces(s, s.yielding, n, s.pended, s.next);
      FlagsClock(s, s.yielding, n, s.pended);
    } else {
      ResumedKeeps(s);
      ResumeAllIs(s);
      ResumedNonePending(s);
      ReplayKeeps(Resumed(s), s.pended);
      var r := Replay(Resumed(s), s.pended);
      FlagsPlaces(r, r.yielding, 0, 0, r.next);
      FlagsClock(r, r.yielding, 0, 0);
      forall t, due | Track(s, t, due) ensures Track(ResumeAll(s), t, due) {
        TrackFlags(r, r.yielding, 0, 0, r.next, t, due);
      }
    }
  }

  // ----- choosing the next task

  /** vTaskSwitchContext picks the next task of the highest non-empty ready list. */
  lemma SwitchKeeps(s: State)
    requires Places(s) && Clock(s) && s.st.lists[0].items != []
    ensures var r := SwitchContext(s);
      && Places(r) && Clock(r)
      && (forall t :: t in s.st.at ==> Same(s, r, t))
      && (s.suspended == 0 ==>
        && r.cur in s.st.at && s.st.at[r.cur] == s.prio[r.cur] == r.top
        && (forall t :: t in s.st.at && s.st.at[t] < MAX_PRIORITIES ==> s.prio[t] <= s.prio[r.cur]))
  {
    PlacesShape(s);
    if s.suspended > 0 {
      SwitchLater(s);
    } else {
      hide Places, Shape, Clock, SwitchContext;
      SwitchPlaces(s);
      SwitchClock(s);
      SwitchBest(s);
    }
  }

  lemma SwitchLater(s: State)
    requires Places(s) && Clock(s) && s.st.lists[0].items != [] && s.suspended > 0
    ensures var r := SwitchContext(s); Places(r) && Clock(r) && forall t :: t in s.st.at ==> Same(s, r, t)
  {
    FlagsPlaces(s, true, s.suspended, s.pended, s.next);
    FlagsClock(s, true, s.suspended, s.pended);
    hide Arena.Wf, Homes, Waiting, Books, Clock;
  }

  /** The index of list p moves on to one of its items; no list above p is in use. */
  ghost predicate NextTaken(a: Arena, p: nat)
    requires p < |a.lists| && a.lists[p].items != []
  {
    var r := a.Advance(p);
    && r.Wf() && r.at == a.at && |r.lists| == |a.lists|
    && (forall m :: 0 <= m < |a.lists| ==> r.lists[m].items == a.lists[m].items)
    && 0 < r.lists[p].index <= |r.lists[p].items| && a.Holds(p, r.lists[p].Selected())
    && (forall m :: p < m < MAX_PRIORITIES && m < |a.lists| ==> a.lists[m].items == [])
  }

  lemma SwitchList(s: State)
    requires Places(s) && s.st.lists[0].items != []
    ensures var p := FindTop(s, s.top);
      p <= s.top < MAX_PRIORITIES && s.st.lists[p].items != [] && NextTaken(s.st, p)
  {
    hide Arena.Wf;
    var p := FindTop(s, s.top);
    AdvanceWf(s.st, p);
  }

  lemma SwitchPlaces(s: State)
    requires Places(s) && s.st.lists[0].items != [] && s.suspended == 0
    ensures Places(SwitchContext(s)) && forall t :: t in s.st.at ==> Same(s, SwitchContext(s), t)
  {
    hide Arena.Wf;
    SwitchList(s);
  }

  lemma SwitchClock(s: State)
    requires Places(s) && Clock(s) && s.st.lists[0].items != [] && s.suspended == 0
    ensures Clock(SwitchContext(s))
  {
    hide Arena.Wf;
    SwitchList(s);
    hide CurrentOk;
    hide OverflowOk;
  }

  lemma SwitchBest(s: State)
    requires Places(s) && s.st.lists[0].items != [] && s.suspended == 0
    ensures var r := SwitchContext(s);
      && r.cur in s.st.at && s.st.at[r.cur] == s.prio[r.cur] == r.top
      && (forall t :: t in s.st.at && s.st.at[t] < MAX_PRIORITIES ==> s.prio[t] <= s.prio[r.cur])
  {
    hide Arena.Wf, Waiting, Books;
    SwitchList(s);
    forall t | t in s.st.at && s.st.at[t] < MAX_PRIORITIES ensures s.prio[t] <= FindTop(s, s.top) {
      ItemsNoDup(s, s.st.at[t]);
      assert s.st.Holds(s.st.at[t], t);
    }
  }
}
