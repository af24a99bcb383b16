/** Runs from the initial state for the three limits of priority inheritance. */
module MutexWitnesses {
  import opened Rings
  import opened Mutexes
  import opened MutexRuns
  import opened MutexSafety
  import opened MutexLimits

  /** Tasks 1, 2 and 3 at their own priorities 1, 2 and 3; nothing is held. */
  const FIRST: State :=
    State(map[1 := 1, 2 := 2, 3 := 3], map[1 := 1, 2 := 2, 3 := 3], map[], map[1 := 4, 2 := 3, 3 := 2], {},
          map[], map[], {}, map[], map[], {}, map[], false, false)

  lemma FirstInitial()
    ensures Initial(FIRST)
  {
  }

  /** A legal step. */
  ghost predicate Leads(s: State, a: Step, r: State) {
    Legal(s, a) && Apply(s, a) == r
  }

  /** Each step leads from one state of the list to the next. */
  lemma {:induction false} Chain(run: seq<Step>, states: seq<State>)
    requires |states| == |run| + 1 && forall i :: 0 <= i < |run| ==> Leads(states[i], run[i], states[i + 1])
    ensures LegalRun(states[0], run) && Final(states[0], run) == states[|run|]
    decreases |run|
  {
    hide Legal, Apply;
    if run != [] {
      assert Leads(states[0], run[0], states[1]);
      forall i | 0 <= i < |run[1..]| ensures Leads(states[1..][i], run[1..][i], states[1..][i + 1]) {
        assert Leads(states[i + 1], run[i + 1], states[i + 2]);
      }
      Chain(run[1..], states[1..]);
    }
  }

  lemma FourSteps(s0: State, a0: Step, s1: State, a1: Step, s2: State, a2: Step, s3: State, a3: Step, s4: State)
    requires Leads(s0, a0, s1) && Leads(s1, a1, s2) && Leads(s2, a2, s3) && Leads(s3, a3, s4)
    ensures LegalRun(s0, [a0, a1, a2, a3]) && Final(s0, [a0, a1, a2, a3]) == s4
  {
    hide Leads;
    Chain([a0, a1, a2, a3], [s0, s1, s2, s3, s4]);
    hide LegalRun, Final;
  }

  lemma {:induction false} OneAfterAnother(s: State, xs: seq<Step>, ys: seq<Step>)
    requires LegalRun(s, xs) && LegalRun(Final(s, xs), ys)
    ensures LegalRun(s, xs + ys) && Final(s, xs + ys) == Final(Final(s, xs), ys)
    decreases |xs|
  {
    hide Legal, Apply;
    if xs == [] {
      assert xs + ys == ys;
    } else {
      OneAfterAnother(Apply(s, xs[0]), xs[1..], ys);
      assert (xs + ys)[0] == xs[0] && (xs + ys)[1..] == xs[1..] + ys;
    }
  }

  // ----- task 2 blocks on mutex 0, which task 1 holds

  const HELD: State :=
    FIRST.(pc := map[1 := Idle], taken := {0}, holder := map[0 := 1], held := map[1 := 1], guarded := map[0 := {}])
  const TRYING: State := HELD.(pc := map[1 := Idle, 2 := Trying(0)])
  const ASKED: State := HELD.(pc := map[1 := Idle, 2 := Asked(0)])
  const BLOCKED: State :=
    HELD.(pc := map[1 := Idle, 2 := Waiting(0)], prio := map[1 := 2, 2 := 2, 3 := 3],
          key := map[1 := 3, 2 := 3, 3 := 2], waiters := map[0 := [2]], guarded := map[0 := {2}], inherited := {2})

  lemma Asks()
    ensures Leads(FIRST, TryOnce(1, 0), HELD)
    ensures Leads(HELD, Start(2, 0), TRYING)
    ensures Leads(TRYING, Move(2, false), ASKED)
  {
    assert HELD.inherited - {2} == {};
    hide Block, DisinheritAfterTimeout;
    Plain(TRYING, 2, false, Asked(0));
    hide Turn;
  }

  /** Blocking on a mutex nobody waits for, whose holder has to be raised. */
  lemma BlockAlone(s: State, t: Task, m: Mutex)
    requires Waiters(s, m) == [] && Lifts(s, m, t)
    ensures Block(s, t, m) ==
      s.(prio := s.prio[s.holder[m] := Prio(s, t)], key := s.key[s.holder[m] := KeyFor(Prio(s, t))],
         pc := s.pc[t := Waiting(m)], inherited := s.inherited + {t}, waiters := s.waiters[m := [t]],
         guarded := s.guarded[m := Guarded(s, m) + {t}])
  {
    InheritTouches(s, m, t);
    assert Waiters(Inherit(s, m, t), m) == [];
    PlacedAlone(Inherit(s, m, t), t, m);
    hide Placed, Guarded, Waiters;
  }

  lemma PlacedAlone(s: State, t: Task, m: Mutex)
    requires Waiters(s, m) == []
    ensures Placed(s, t, m) == [t]
  {
  }

  lemma BlockingTurn(s: State, t: Task, m: Mutex)
    requires PcOf(s, t) == Asked(m) && m in s.taken
    ensures Leads(s, Move(t, false), Block(s, t, m))
  {
    hide Block;
  }

  lemma BlocksOn()
    ensures Leads(ASKED, Move(2, false), BLOCKED)
  {
    BlockedIs();
    hide Block, Leads;
    BlockingTurn(ASKED, 2, 0);
  }

  /** Task 2 is about to block on mutex 0, which task 1 holds; nobody waits yet. */
  ghost predicate Contends(s: State) {
    && s.prio == FIRST.prio && s.key == FIRST.key && s.waiters == map[] && s.inherited == {}
    && 0 in s.holder && s.holder[0] == 1 && 0 in s.guarded && s.guarded[0] == {}
  }

  lemma Contention(s: State)
    requires Contends(s)
    ensures Waiters(s, 0) == [] && Lifts(s, 0, 2) && Prio(s, 2) == 2 && KeyFor(2) == 3 && Guarded(s, 0) == {}
    ensures s.prio[1 := 2] == map[1 := 2, 2 := 2, 3 := 3] && s.key[1 := 3] == map[1 := 3, 2 := 3, 3 := 2]
    ensures {} + {2} == {2} && s.inherited + {2} == {2} && s.waiters[0 := [2]] == map[0 := [2]] && s.holder[0] == 1
  {
  }

  lemma RaisesHolder(s: State)
    requires Contends(s)
    ensures Block(s, 2, 0) ==
      s.(prio := map[1 := 2, 2 := 2, 3 := 3], key := map[1 := 3, 2 := 3, 3 := 2], pc := s.pc[2 := Waiting(0)],
         inherited := {2}, waiters := map[0 := [2]], guarded := s.guarded[0 := {2}])
  {
    Contention(s);
    hide *;
    BlockAlone(s, 2, 0);
  }

  lemma BlockedFrom(s: State, r: State)
    requires Contends(s) && r == s.(prio := r.prio, key := r.key, pc := r.pc, inherited := r.inherited,
                                    waiters := r.waiters, guarded := r.guarded)
    requires r.prio == map[1 := 2, 2 := 2, 3 := 3] && r.key == map[1 := 3, 2 := 3, 3 := 2] && r.inherited == {2}
    requires r.waiters == map[0 := [2]] && r.pc == s.pc[2 := Waiting(0)] && r.guarded == s.guarded[0 := {2}]
    ensures Block(s, 2, 0) == r
  {
    RaisesHolder(s);
    hide *;
  }

  lemma BlockedIs()
    ensures Block(ASKED, 2, 0) == BLOCKED
  {
    assert ASKED.pc[2 := Waiting(0)] == BLOCKED.pc && ASKED.guarded[0 := {2}] == BLOCKED.guarded;
    BlockedFrom(ASKED, BLOCKED);
    hide Block;
  }

  const TO_BLOCKED: seq<Step> := [TryOnce(1, 0), Start(2, 0), Move(2, false), Move(2, false)]

  lemma Blocked()
    ensures LegalRun(FIRST, TO_BLOCKED) && Final(FIRST, TO_BLOCKED) == BLOCKED
  {
    Asks();
    BlocksOn();
    hide Leads, LegalRun, Final;
    FourSteps(FIRST, TryOnce(1, 0), HELD, Start(2, 0), TRYING, Move(2, false), ASKED, Move(2, false), BLOCKED);
  }

  // ----- raising the priority of a waiter

  const RAISE: seq<Step> := [Reprioritise(2, 4)]

  lemma Raises()
    ensures LegalRun(BLOCKED, RAISE) && Final(BLOCKED, RAISE) == SetPriority(BLOCKED, 2, 4)
    ensures Protected(BLOCKED) && !Protected(SetPriority(BLOCKED, 2, 4))
  {
    Chain(RAISE, [BLOCKED, SetPriority(BLOCKED, 2, 4)]);
    hide LegalRun, Final;
    var r := SetPriority(BLOCKED, 2, 4);
    assert 0 in r.holder && 2 in Guarded(r, 0) && Prio(r, r.holder[0]) == 2 && Prio(r, 2) == 4;
  }

  /** Task 2 waits for task 1, which runs at the 2 it has inherited; raised to 4, task 2 is above it. */
  lemma RaisedWaiter()
    ensures Initial(FIRST) && LegalRun(FIRST, TO_BLOCKED + RAISE)
    ensures Protected(Final(FIRST, TO_BLOCKED)) && !Protected(Final(FIRST, TO_BLOCKED + RAISE))
  {
    FirstInitial();
    Blocked();
    Raises();
    hide LegalRun, Final, Protected, SetPriority;
    OneAfterAnother(FIRST, TO_BLOCKED, RAISE);
  }

  // ----- nested blocking

  // Task 2 holds mutex 1 when it blocks on mutex 0; then task 3 blocks on mutex 1.
  const N1: State :=
    HELD.(pc := map[1 := Idle, 2 := Idle], taken := {0, 1}, holder := map[0 := 1, 1 := 2], held := map[1 := 1, 2 := 1],
          guarded := map[0 := {}, 1 := {}])
  const N2: State := N1.(pc := map[1 := Idle, 2 := Trying(0)])
  const N3: State := N1.(pc := map[1 := Idle, 2 := Asked(0)])
  const N4: State :=
    N1.(pc := map[1 := Idle, 2 := Waiting(0)], prio := map[1 := 2, 2 := 2, 3 := 3], key := map[1 := 3, 2 := 3, 3 := 2],
        waiters := map[0 := [2]], guarded := map[0 := {2}, 1 := {}], inherited := {2})
  const N5: State := N4.(pc := map[1 := Idle, 2 := Waiting(0), 3 := Trying(1)])
  const N6: State := N4.(pc := map[1 := Idle, 2 := Waiting(0), 3 := Asked(1)])

  const TO_NESTED: seq<Step> :=
    [TryOnce(1, 0), TryOnce(2, 1), Start(2, 0), Move(2, false)] + [Move(2, false), Start(3, 1), Move(3, false)]

  lemma TakesSecond()
    ensures Leads(HELD, TryOnce(2, 1), N1)
  {
    hide Turn, Give, Block;
  }

  lemma SecondStarts()
    ensures Leads(N1, Start(2, 0), N2)
  {
    assert N1.inherited - {2} == {};
    hide Turn, Give, Take, SetPriority, Expire;
  }

  lemma SecondAsks()
    ensures Leads(N2, Move(2, false), N3)
  {
    assert PcOf(N2, 2) == Trying(0) && N3.pc == N2.pc[2 := Asked(0)];
    hide PcOf, Leads;
    AsksFor(N2, 2, 0, N3);
  }

  lemma NestedBlocks()
    ensures Leads(N3, Move(2, false), N4)
  {
    NestedIs();
    hide Block, Leads;
    BlockingTurn(N3, 2, 0);
  }

  lemma NestedMaps()
    ensures N3.pc[2 := Waiting(0)] == N4.pc && N3.guarded[0 := {2}] == N4.guarded && Contends(N3)
  {
  }

  lemma NestedIs()
    ensures Block(N3, 2, 0) == N4
  {
    NestedMaps();
    hide Block, Contends;
    BlockedFrom(N3, N4);
  }

  lemma ThirdStarts()
    ensures Leads(N4, Start(3, 1), N5)
  {
    assert N4.inherited - {3} == {2};
    hide Turn, Give, Take, SetPriority, Expire;
  }

  lemma ThirdAsks()
    ensures Leads(N5, Move(3, false), N6)
  {
    assert PcOf(N5, 3) == Trying(1) && N6.pc == N5.pc[3 := Asked(1)];
    hide PcOf, Leads;
    AsksFor(N5, 3, 1, N6);
  }

  lemma ToNested()
    ensures LegalRun(FIRST, TO_NESTED) && Final(FIRST, TO_NESTED) == N6
  {
    Asks();
    TakesSecond();
    SecondStarts();
    SecondAsks();
    NestedBlocks();
    ThirdStarts();
    ThirdAsks();
    hide Leads, LegalRun, Final;
    FourSteps(FIRST, TryOnce(1, 0), HELD, TryOnce(2, 1), N1, Start(2, 0), N2, Move(2, false), N3);
    ThreeSteps(N3, Move(2, false), N4, Start(3, 1), N5, Move(3, false), N6);
    OneAfterAnother(FIRST, [TryOnce(1, 0), TryOnce(2, 1), Start(2, 0), Move(2, false)],
                    [Move(2, false), Start(3, 1), Move(3, false)]);
  }

  lemma ThreeSteps(s0: State, a0: Step, s1: State, a1: Step, s2: State, a2: Step, s3: State)
    requires Leads(s0, a0, s1) && Leads(s1, a1, s2) && Leads(s2, a2, s3)
    ensures LegalRun(s0, [a0, a1, a2]) && Final(s0, [a0, a1, a2]) == s3
  {
    hide Leads;
    Chain([a0, a1, a2], [s0, s1, s2, s3]);
    hide LegalRun, Final;
  }

  /** Task 3 is about to block on a mutex of task 2, which waits for task 1: task 2 is raised to 3,
      task 1 stays at 2. */
  lemma NestedWaiter()
    ensures Initial(FIRST) && LegalRun(FIRST, TO_NESTED)
    ensures var s := Final(FIRST, TO_NESTED);
      PcOf(s, 3) == Asked(1) && Blocks(s, 3, false) && Protected(s) && !Protected(Block(s, 3, 1))
  {
    FirstInitial();
    ToNested();
    hide LegalRun, Final;
    assert Protected(N6);
    assert 0 in N6.holder && N6.holder[1] == 2 && 2 in Guarded(N6, 0) && N6.holder[0] == 1 && Prio(N6, 1) == 2;
    assert Prio(N6, 2) == 2 && Prio(N6, 3) == 3;
    hide Guarded, Prio, Block, Protected;
    NestedBlocking(N6, 3, 1);
  }

  // ----- the last try

  const WOKEN: State := BLOCKED.(waiters := map[0 := []], guarded := map[0 := {}])
  const AGAIN: State := WOKEN.(pc := map[1 := Idle, 2 := Trying(0)])
  const ASKING: State := WOKEN.(pc := map[1 := Idle, 2 := Asked(0)])
  const OUT_OF_TIME: State := WOKEN.(pc := map[1 := Idle, 2 := TimedOut(0)])
  const GIVEN: State :=
    OUT_OF_TIME.(taken := {}, holder := map[], held := map[1 := 0], prio := FIRST.prio, key := FIRST.key)
  const LOOKED: State := GIVEN.(pc := map[1 := Idle, 2 := LastTry(0)])
  const SNATCHED: State :=
    LOOKED.(pc := map[1 := Idle, 2 := LastTry(0), 3 := Idle], taken := {0}, holder := map[0 := 3],
            held := map[1 := 0, 3 := 1])

  const TO_STALE: seq<Step> :=
    [TickExpires(2), Move(2, false), Move(2, false), Move(2, true)] +
    [GiveBack(1, 0), Move(2, true), TryOnce(3, 0), Move(2, true)]

  lemma Expires()
    ensures Leads(BLOCKED, TickExpires(2), WOKEN)
  {
    ExpiresTo();
    hide Expire, Turn, Give, Take, SetPriority;
  }

  lemma ExpiresTo()
    ensures Expire(BLOCKED, 2) == WOKEN
  {
    BlockedWaits();
    hide Guarded, Waiters, PcOf, Expire;
    ExpireIs(BLOCKED, 2, 0);
  }

  lemma BlockedWaits()
    ensures PcOf(BLOCKED, 2) == Waiting(0) && Waiters(BLOCKED, 0) == [2] && Guarded(BLOCKED, 0) == {2}
    ensures WOKEN.waiters == BLOCKED.waiters[0 := []] && WOKEN.guarded == BLOCKED.guarded[0 := {}]
  {
  }

  lemma ExpireIs(s: State, t: Task, m: Mutex)
    requires PcOf(s, t) == Waiting(m) && t in Waiters(s, m)
    ensures Expire(s, t) ==
      s.(waiters := s.waiters[m := Without(Waiters(s, m), t)], guarded := s.guarded[m := Guarded(s, m) - {t}])
    ensures Waiters(s, m) == [t] ==> Without(Waiters(s, m), t) == []
    ensures Guarded(s, m) == {t} ==> Guarded(s, m) - {t} == {}
  {
  }

  lemma Plain(s: State, t: Task, expired: bool, p: Pc)
    requires !Takes(s, t) && !Blocks(s, t, expired) && !PcOf(s, t).Late? && !Trips(s, Move(t, expired))
    requires NextPc(s, t, expired) == p
    ensures Apply(s, Move(t, expired)) == s.(pc := s.pc[t := p])
  {
    hide NextPc;
  }

  /** A task at the top of the loop finds the mutex taken. */
  lemma AsksFor(s: State, t: Task, m: Mutex, r: State)
    requires PcOf(s, t) == Trying(m) && m in s.taken && r == s.(pc := r.pc) && r.pc == s.pc[t := Asked(m)]
    ensures Leads(s, Move(t, false), r)
  {
    Plain(s, t, false, Asked(m));
    hide Apply;
  }

  lemma TriesAgain()
    ensures Leads(WOKEN, Move(2, false), AGAIN)
  {
    Plain(WOKEN, 2, false, Trying(0));
    hide Apply;
  }

  lemma AsksAgain()
    ensures Leads(AGAIN, Move(2, false), ASKING)
  {
    assert PcOf(AGAIN, 2) == Trying(0) && ASKING.pc == AGAIN.pc[2 := Asked(0)];
    hide PcOf, Leads;
    AsksFor(AGAIN, 2, 0, ASKING);
  }

  lemma TimesOut()
    ensures Leads(ASKING, Move(2, true), OUT_OF_TIME)
  {
    Plain(ASKING, 2, true, TimedOut(0));
    hide Apply;
  }

  lemma Looks()
    ensures Leads(GIVEN, Move(2, true), LOOKED)
  {
    Plain(GIVEN, 2, true, LastTry(0));
    hide Apply;
  }

  lemma GivesBack()
    ensures Leads(OUT_OF_TIME, GiveBack(1, 0), GIVEN)
  {
    assert OUT_OF_TIME.taken - {0} == {};
    var r := Give(OUT_OF_TIME, 1, 0);
    assert r.prio == GIVEN.prio && r.key == GIVEN.key && r.held == GIVEN.held && r.holder == GIVEN.holder;
    assert r.waiters == GIVEN.waiters && r.guarded == GIVEN.guarded && r.taken == GIVEN.taken;
  }

  lemma Snatched()
    ensures Leads(LOOKED, TryOnce(3, 0), SNATCHED) && Trips(SNATCHED, Move(2, true))
    ensures Leads(SNATCHED, Move(2, true), Apply(SNATCHED, Move(2, true)))
  {
    var r := Take(LOOKED, 3, 0);
    assert r.taken == {0} && r.holder == SNATCHED.holder && r.held == SNATCHED.held && r.guarded == SNATCHED.guarded;
  }

  lemma Stales()
    ensures LegalRun(BLOCKED, TO_STALE) && Final(BLOCKED, TO_STALE).stale
  {
    Expires();
    TriesAgain();
    AsksAgain();
    TimesOut();
    Looks();
    GivesBack();
    Snatched();
    StepStale(SNATCHED, Move(2, true));
    hide Apply, LegalRun, Final, Leads, Trips;
    FourSteps(BLOCKED, TickExpires(2), WOKEN, Move(2, false), AGAIN, Move(2, false), ASKING, Move(2, true),
              OUT_OF_TIME);
    FourSteps(OUT_OF_TIME, GiveBack(1, 0), GIVEN, Move(2, true), LOOKED, TryOnce(3, 0), SNATCHED, Move(2, true),
              Apply(SNATCHED, Move(2, true)));
    OneAfterAnother(BLOCKED, [TickExpires(2), Move(2, false), Move(2, false), Move(2, true)],
                    [GiveBack(1, 0), Move(2, true), TryOnce(3, 0), Move(2, true)]);
  }

  /** Task 2 times out on the mutex task 1 holds, having raised it; task 1 gives it back, task 2
      sees it free, task 3 takes it, and task 2's last try fails the assertion. */
  lemma StaleInheritance()
    ensures Initial(FIRST) && LegalRun(FIRST, TO_BLOCKED + TO_STALE) && Final(FIRST, TO_BLOCKED + TO_STALE).stale
  {
    FirstInitial();
    Blocked();
    Stales();
    hide LegalRun, Final;
    OneAfterAnother(FIRST, TO_BLOCKED, TO_STALE);
  }
}
