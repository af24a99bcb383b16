/** The tick: the expiry loop with its two-list, wrapping clock against unbounded wake times. */
module SchedTick {
  import opened Words
  import opened Rings
  import opened Arenas
  import opened Sched
  import opened SchedInv

  predicate IsDelayed(s: State, t: Task) {
    s.st.Holds(DELAYED_1, t) || s.st.Holds(DELAYED_2, t)
  }

  /** The unbounded time at which a delayed task is due: its key read in the epoch of its list. */
  function Due(s: State, t: Task): int {
    var epoch := s.now - s.tick;
    var k := Key(s.wake, t);
    if s.st.Holds(s.delayed, t) then epoch + (if k <= s.tick then s.tick + 1 else k)
    else epoch + WRAP + k
  }

  ghost predicate Expired(s: State, t: Task) {
    s.st.Holds(s.delayed, t) && Key(s.wake, t) <= s.tick
  }

  /** What the expiry loop leaves: exactly the expired tasks have gone, each to the ready list
      of its priority and off its event list, and the next unblock time bounds the rest. */
  ghost predicate Drained(s: State, r: State)
    requires forall t :: t in s.st.at ==> t in s.prio
  {
    && Places(r)
    && r == s.(st := r.st, ev := r.ev, next := r.next, top := r.top)
    && r.st.at.Keys == s.st.at.Keys
    && (forall t :: t in s.st.at ==> r.st.at[t] == if Expired(s, t) then s.prio[t] else s.st.at[t])
    && r.ev.at.Keys <= s.ev.at.Keys
    && (forall t :: t in s.ev.at ==> (t in r.ev.at <==> !Expired(s, t)))
    && (forall t :: t in r.ev.at ==> r.ev.at[t] == s.ev.at[t])
    && Items(r, Over(s)) == Items(s, Over(s))
    && Sorted(Keys(s.wake, Items(r, s.delayed)))
    && (forall t :: t in Items(r, s.delayed) ==> s.tick < Key(s.wake, t) && r.next <= Key(s.wake, t))
  }

  lemma HeadLeast(s: State, t: Task)
    requires Shape(s) && Sorted(Keys(s.wake, Items(s, s.delayed))) && s.st.Holds(s.delayed, t)
    ensures t in Items(s, s.delayed)
    ensures Key(s.wake, Items(s, s.delayed)[0]) <= Key(s.wake, t)
  {
    var items := Items(s, s.delayed);
    var i :| 0 <= i < |items| && items[i] == t;
    assert Keys(s.wake, items)[0] <= Keys(s.wake, items)[i];
  }

  /** u is s with t moved to its ready list and off its event list. */
  ghost predicate Woke(s: State, t: Task, u: State) {
    && t in s.st.at && t in s.prio
    && u == s.(st := u.st, ev := u.ev, top := u.top)
    && u.st.at == s.st.at[t := s.prio[t]]
    && u.ev.at == s.ev.at - {t}
    && s.prio[t] < MAX_PRIORITIES <= s.delayed
    && Items(u, Over(s)) == Items(s, Over(s))
  }

  lemma UnblockExact(s: State, t: Task)
    requires Places(s) && s.st.Holds(s.delayed, t)
    ensures Woke(s, t, Unblock(s, t))
    ensures Items(Unblock(s, t), s.delayed) == Without(Items(s, s.delayed), t)
  {
    hide Arena.Wf;
    hide Without;
    hide IndexOf;
    UnblockShape(s, t);
    assert s.prio[t] < MAX_PRIORITIES && s.st.at[t] == s.delayed;
    hide Shape;
    MoveEndWf(s.st, s.prio[t], t);
    DropEventWf(s.ev, t);
  }

  lemma StillExpired(s: State, t: Task, u: State)
    requires Woke(s, t, u) && Expired(s, t)
    ensures forall x :: Expired(u, x) <==> x != t && Expired(s, x)
  {
  }

  lemma DrainedOne(s: State, t: Task, u: State, r: State)
    requires Woke(s, t, u) && Expired(s, t)
    requires forall x :: x in s.st.at ==> x in s.prio
    requires Drained(u, r)
    ensures Drained(s, r)
  {
    hide Places;
    hide Sorted;
    StillExpired(s, t, u);
  }

  lemma {:induction false} DrainExact(s: State, sw: bool)
    requires Places(s) && Sorted(Keys(s.wake, Items(s, s.delayed)))
    ensures Drained(s, Drain(s, sw).0)
    decreases |Items(s, s.delayed)|
  {
    hide Arena.Wf;
    var items := Items(s, s.delayed);
    if items != [] && s.tick >= Key(s.wake, items[0]) {
      DrainHead(s, sw);
      var t, u := items[0], Unblock(s, items[0]);
      var sw' := sw || s.prio[t] >= s.prio[s.cur];
      hide Unblock;
      hide Drain;
      DrainExact(u, sw');
      DrainedOne(s, t, u, Drain(u, sw').0);
    } else {
      DrainNone(s);
      DrainedNone(s, Drain(s, sw).0.next);
    }
  }

  /** One turn of the expiry loop, on specifications. */
  lemma DrainOne(s: State, sw: bool)
    requires Shape(s)
    ensures s.delayed < |s.st.lists| && s.cur in s.prio
    ensures var items := s.st.lists[s.delayed].items;
      if items == [] then Drain(s, sw) == (s.(next := MAX), sw)
      else if s.tick < Key(s.wake, items[0]) then Drain(s, sw) == (s.(next := Key(s.wake, items[0])), sw)
      else
        var t := items[0];
        && t in s.st.at && t in s.prio && Shape(Unblock(s, t))
        && Drain(s, sw) == Drain(Unblock(s, t), sw || s.prio[t] >= s.prio[s.cur])
        && |Unblock(s, t).st.lists[s.delayed].items| < |items|
  {
    hide Arena.Wf;
    var items := s.st.lists[s.delayed].items;
    if items != [] {
      Listed(s.st, s.delayed, 0);
      MakeReadyShape(s, items[0]);
      UnblockShape(s, items[0]);
    }
  }

  lemma DrainedNone(s: State, n: word)
    requires Places(s) && Sorted(Keys(s.wake, Items(s, s.delayed)))
    requires forall x :: !Expired(s, x)
    requires forall x :: x in Items(s, s.delayed) ==> n <= Key(s.wake, x)
    ensures Drained(s, s.(next := n))
  {
    hide Sorted;
    hide Arena.Wf;
    ItemsNoDup(s, s.delayed);
    forall x | x in Items(s, s.delayed) ensures s.tick < Key(s.wake, x) {
      assert !Expired(s, x);
    }
  }

  /** The loop asks for a switch exactly when it wakes a task not below the running one. */
  lemma {:induction false} DrainSwitch(s: State, sw: bool)
    requires Places(s) && Sorted(Keys(s.wake, Items(s, s.delayed)))
    ensures Drain(s, sw).1 <==> sw || exists t :: t in s.st.at && Expired(s, t) && s.prio[t] >= s.prio[s.cur]
    decreases |Items(s, s.delayed)|
  {
    hide Arena.Wf;
    var items := Items(s, s.delayed);
    if items != [] && s.tick >= Key(s.wake, items[0]) {
      DrainHead(s, sw);
      var t, u := items[0], Unblock(s, items[0]);
      var sw' := sw || s.prio[t] >= s.prio[s.cur];
      StillExpired(s, t, u);
      hide Unblock;
      hide Drain;
      DrainSwitch(u, sw');
      assert t in s.st.at && Expired(s, t);
    } else {
      DrainNone(s);
    }
  }

  lemma DrainHead(s: State, sw: bool)
    requires Places(s) && Sorted(Keys(s.wake, Items(s, s.delayed)))
    requires Items(s, s.delayed) != [] && s.tick >= Key(s.wake, Items(s, s.delayed)[0])
    ensures var t := Items(s, s.delayed)[0];
      && Expired(s, t) && Woke(s, t, Unblock(s, t))
      && Places(Unblock(s, t))
      && Sorted(Keys(s.wake, Items(Unblock(s, t), s.delayed)))
      && |Items(Unblock(s, t), s.delayed)| < |Items(s, s.delayed)|
      && Drain(s, sw) == Drain(Unblock(s, t), sw || s.prio[t] >= s.prio[s.cur])
  {
    hide Arena.Wf;
    var items := Items(s, s.delayed);
    var t := items[0];
    Listed(s.st, s.delayed, 0);
    MakeReadyShape(s, t);
    UnblockPlaces(s, t);
    UnblockExact(s, t);
    WithoutSorted(items, s.wake, t);
  }

  lemma DrainNone(s: State)
    requires Places(s) && Sorted(Keys(s.wake, Items(s, s.delayed)))
    requires Items(s, s.delayed) != [] ==> s.tick < Key(s.wake, Items(s, s.delayed)[0])
    ensures forall x :: !Expired(s, x)
    ensures forall x :: x in Items(s, s.delayed) ==> Key(s.wake, Items(s, s.delayed)[0]) <= Key(s.wake, x)
  {
    forall x | s.st.Holds(s.delayed, x)
      ensures Items(s, s.delayed) != [] && Key(s.wake, Items(s, s.delayed)[0]) <= Key(s.wake, x)
    {
      HeadLeast(s, x);
    }
  }

  /** The state between the clock moving on and the expiry loop. */
  ghost predicate MidTick(s: State) {
    && Places(s)
    && s.tick == Low(s.now) && s.overflows == Low(s.now / WRAP)
    && Sorted(Keys(s.wake, Items(s, s.delayed)))
    && (forall t :: t in Items(s, s.delayed) ==> s.next <= Key(s.wake, t))
    && OverflowOk(Items(s, Over(s)), s.wake, s.tick)
  }

  lemma NextEpoch(n: nat)
    ensures Low((n + 1) / WRAP) == if Low(n) == MAX then Add(Low(n / WRAP), 1) else Low(n / WRAP)
  {
    if Low(n) == MAX {
      assert (n + 1) / WRAP == n / WRAP + 1;
    } else {
      assert (n + 1) / WRAP == n / WRAP;
    }
  }

  /** The switch never meets a task on the list it abandons, which is what its assertion checks. */
  lemma AdvancedMoved(s: State)
    requires Places(s) && Clock(s)
    ensures s.tick == MAX ==> Items(s, s.delayed) == []
    ensures MidTick(Advanced(s))
  {
    if s.tick == MAX { WrappedMid(s); } else { PlainMid(s); }
    hide *;
  }

  /** The clock moves on within its epoch. */
  lemma PlainMid(s: State)
    requires Places(s) && Clock(s) && s.tick != MAX
    ensures MidTick(Advanced(s))
  {
    hide Arena.Wf, Sorted;
    NextLow(s.now);
    NextEpoch(s.now);
  }

  lemma WrappedMid(s: State)
    requires Places(s) && Clock(s) && s.tick == MAX
    ensures Items(s, s.delayed) == [] && MidTick(Advanced(s))
  {
    hide Arena.Wf;
    NextLow(s.now);
    NextEpoch(s.now);
    var r := Advanced(s);
    var items := Items(r, r.delayed);
    assert items == Items(s, Over(s)) && Items(r, Over(r)) == [];
    forall t | t in items ensures r.next <= Key(s.wake, t) {
      var i :| 0 <= i < |items| && items[i] == t;
      assert Keys(s.wake, items)[0] <= Keys(s.wake, items)[i];
    }
  }

  /** A delayed task expires at this tick exactly when it is due now. */
  lemma AdvancedDue(s: State, t: Task)
    requires Places(s) && Clock(s) && IsDelayed(s, t)
    ensures Due(s, t) > s.now
    ensures Expired(Advanced(s), t) <==> Due(s, t) == s.now + 1
    ensures IsDelayed(Advanced(s), t) && (!Expired(Advanced(s), t) ==> Due(Advanced(s), t) == Due(s, t))
  {
    hide Arena.Wf, Sorted, Keys, NoDup, Homes, Waiting, Books;
    NextLow(s.now);
    ItemsNoDup(s, s.delayed);
    ItemsNoDup(s, Over(s));
  }

  lemma SkipExpiry(s: State)
    requires MidTick(s) && s.tick < s.next
    ensures Drained(s, s)
  {
    ItemsNoDup(s, s.delayed);
    hide Arena.Wf;
    hide Sorted;
    hide Shape;
    assert forall x :: !Expired(s, x);
    DrainedNone(s, s.next);
    assert s.(next := s.next) == s;
  }

  function Expire(s: State): State
    requires Shape(s)
  {
    if s.tick >= s.next then Drain(s, false).0 else s
  }

  lemma DrainedClock(s: State, r: State)
    requires MidTick(s) && Drained(s, r)
    ensures Clock(r)
  {
    hide Sorted;
    hide Places;
    if Items(r, r.delayed) != [] {
      assert Items(r, r.delayed)[0] in Items(r, r.delayed);
    }
  }

  lemma ExpireExact(s: State)
    requires MidTick(s)
    ensures Drained(s, Expire(s)) && Clock(Expire(s))
  {
    if s.tick >= s.next { DrainExact(s, false); } else { SkipExpiry(s); }
    hide Drain;
    hide Places;
    DrainedClock(s, Expire(s));
  }

  /** How one processed tick changes each task. */
  ghost predicate TickFate(s: State, r: State, t: Task)
    requires t in s.st.at && t in s.prio
  {
    t in r.st.at &&
    if IsDelayed(s, t) && Due(s, t) == s.now + 1 then r.st.at[t] == s.prio[t] && t !in r.ev.at
    else
      && r.st.at[t] == s.st.at[t]
      && (t in r.ev.at <==> t in s.ev.at) && (t in s.ev.at ==> r.ev.at[t] == s.ev.at[t])
      && (IsDelayed(s, t) ==> Due(r, t) == Due(s, t) > r.now)
  }

  /** One tick of a running scheduler wakes exactly the tasks that are due at the new time. */
  lemma TickExact(s: State)
    requires Places(s) && Clock(s) && s.suspended == 0
    ensures var r := Tick(s).0;
      && Places(r) && Clock(r) && r.now == s.now + 1
      && r.st.at.Keys == s.st.at.Keys && r.ev.at.Keys <= s.ev.at.Keys
      && r.prio == s.prio && r.cur == s.cur && r.suspended == 0 && r.pended == s.pended
      && r.yielding == s.yielding
      && forall t :: t in s.st.at ==> TickFate(s, r, t)
  {
    hide Arena.Wf;
    AdvancedMoved(s);
    var a := Advanced(s);
    ExpireExact(a);
    var r := Expire(a);
    assert r == Tick(s).0;
    forall t | t in s.st.at ensures TickFate(s, r, t) {
      FateOf(s, a, r, t);
    }
  }

  lemma FateOf(s: State, a: State, r: State, t: Task)
    requires Places(s) && Clock(s) && a == Advanced(s) && Drained(a, r) && Clock(r) && t in s.st.at
    ensures TickFate(s, r, t)
  {
    hide Arena.Wf, Sorted, CurrentOk, OverflowOk, Homes, Waiting, Books;
    NextLow(s.now);
    if IsDelayed(s, t) {
      AdvancedDue(s, t);
      if !Expired(a, t) { assert Due(r, t) == Due(a, t); }
    } else {
      assert !Expired(a, t);
    }
  }

  /** Some task is due at the coming tick and not below the running one. */
  ghost predicate WakesPeer(s: State)
    requires Shape(s)
  {
    exists t :: t in s.st.at && IsDelayed(s, t) && Due(s, t) == s.now + 1 && s.prio[t] >= s.prio[s.cur]
  }

  lemma ExpirySwitch(s: State, a: State)
    requires Places(s) && Clock(s) && a == Advanced(s)
    ensures Shape(a) && (ExpiresPeer(a) <==> WakesPeer(s))
  {
    hide Arena.Wf, Sorted, Keys, NoDup, Homes, Waiting, Books, Due;
    forall t | t in s.st.at ensures Expired(a, t) <==> IsDelayed(s, t) && Due(s, t) == s.now + 1 {
      if IsDelayed(s, t) { AdvancedDue(s, t); }
    }
    hide Clock, Expired, IsDelayed;
    if WakesPeer(s) {
      var t :| t in s.st.at && IsDelayed(s, t) && Due(s, t) == s.now + 1 && s.prio[t] >= s.prio[s.cur];
      assert t in a.st.at && Expired(a, t);
    }
  }

  /** Some task expires and is not below the running one. */
  ghost predicate ExpiresPeer(a: State)
    requires Shape(a)
  {
    exists t :: t in a.st.at && Expired(a, t) && a.prio[t] >= a.prio[a.cur]
  }

  lemma LoopSwitch(a: State)
    requires MidTick(a)
    ensures (a.tick >= a.next && Drain(a, false).1) <==> ExpiresPeer(a)
  {
    if a.tick >= a.next {
      DrainSwitch(a, false);
    } else {
      SkipExpiry(a);
      ItemsNoDup(a, a.delayed);
      assert forall t :: !Expired(a, t);
    }
    hide Drain, Arena.Wf, Sorted;
  }

  /** The tick in two parts: the new state, and what the three conditions say. */
  lemma TickIs(s: State)
    requires Shape(s) && s.suspended == 0
    ensures Shape(Advanced(s)) && Shape(Expire(Advanced(s)))
    ensures var a := Advanced(s);
      var r := Expire(a);
      Tick(s).0 == r &&
      (Tick(s).1 <==> (a.tick >= a.next && Drain(a, false).1) || |Items(r, s.prio[s.cur])| > 1 || s.yielding)
  {
    hide Arena.Wf, Advanced;
    AdvancedKeeps(s);
    DrainShape(Advanced(s), false);
    DrainYields(Advanced(s), false);
    hide Drain;
  }

  lemma AdvancedKeeps(s: State)
    requires Shape(s)
    ensures var a := Advanced(s); Shape(a) && a.yielding == s.yielding && a.prio == s.prio && a.cur == s.cur
  {
    hide Arena.Wf;
  }

  lemma {:induction false} DrainYields(s: State, sw: bool)
    requires Shape(s)
    ensures Drain(s, sw).0.yielding == s.yielding
    decreases |s.st.lists[s.delayed].items|
  {
    hide Arena.Wf;
    var items := s.st.lists[s.delayed].items;
    if items != [] && s.tick >= Key(s.wake, items[0]) {
      Listed(s.st, s.delayed, 0);
      MakeReadyShape(s, items[0]);
      UnblockShape(s, items[0]);
      DrainYields(Unblock(s, items[0]), sw || s.prio[items[0]] >= s.prio[s.cur]);
    }
  }

  lemma RunningSwitch(s: State)
    requires Places(s) && Clock(s) && s.suspended == 0
    ensures Shape(s)
    ensures var (r, switch) := Tick(s);
      switch <==> WakesPeer(s) || |Items(r, s.prio[s.cur])| > 1 || s.yielding
  {
    hide Tick, Advanced, Expire, Clock, WakesPeer, ExpiresPeer, MidTick, Drain, Homes, Waiting, Books, Shape;
    var a := Advanced(s);
    AdvancedMoved(s);
    TickIs(s);
    MidShape(a);
    LoopSwitch(a);
    ExpirySwitch(s, a);
  }

  /** When xTaskIncrementTick asks for a switch: exactly when it wakes a task that is not below the
      running one, when another task shares the running one's priority, or when a yield is pending;
      with the scheduler suspended, exactly when a yield is pending. */
  lemma TickSwitch(s: State)
    requires Places(s) && Clock(s)
    ensures Shape(s)
    ensures var (r, switch) := Tick(s);
      switch <==> s.yielding || (s.suspended == 0 && (WakesPeer(s) || |Items(r, s.prio[s.cur])| > 1))
  {
    if s.suspended == 0 { RunningSwitch(s); }
    hide WakesPeer, Clock, Homes, Waiting, Books, Drain, Advanced, Arena.Wf;
  }

  lemma MidShape(a: State)
    requires MidTick(a)
    ensures Shape(a)
  {
    hide Shape;
  }
}
