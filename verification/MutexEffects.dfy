/** What each mutex operation makes of priorities, event item values and waiting lists, said without
    the functions that compute it; and two things they lead to in every run. */
module MutexEffects {
  import opened Rings
  import opened Mutexes
  import opened MutexRuns
  import opened MutexSafety

  function Max(a: Level, b: Level): Level {
    if a >= b then a else b
  }

  /** Nobody but h has another priority or event item value than before. */
  ghost predicate OnlyFor(s: State, r: State, h: Task) {
    forall u :: u != h ==> Prio(r, u) == Prio(s, u) && KeyOf(r, u) == KeyOf(s, u)
  }

  /** h's event item shows its priority if that has changed, and what it did if not. */
  ghost predicate Shown(s: State, r: State, h: Task) {
    KeyOf(r, h) == if Prio(r, h) != Prio(s, h) then KeyFor(Prio(r, h)) else KeyOf(s, h)
  }

  // ----- inheriting and disinheriting

  /** xTaskPriorityInherit raises the holder to the task that is about to block, and lowers nobody. */
  lemma InheritExact(s: State, m: Mutex, caller: Task)
    ensures var r := Inherit(s, m, caller);
      && r == s.(prio := r.prio, key := r.key)
      && (if m in s.holder then
            var h := s.holder[m];
            && OnlyFor(s, r, h) && Prio(r, h) == Max(Prio(s, h), Prio(s, caller)) && Shown(s, r, h)
            && (Inherits(s, m, caller) <==> Prio(r, h) > Prio(s, h) || Prio(s, caller) > Base(s, h))
          else r == s && !Inherits(s, m, caller))
  {
  }

  /** xTaskPriorityDisinherit: with its last mutex a task goes back to its base priority. */
  lemma DisinheritExact(s: State, h: Task)
    requires Held(s, h) > 0
    ensures var r := Disinherit(s, h);
      && r == s.(prio := r.prio, key := r.key, held := r.held)
      && OnlyFor(s, r, h) && Held(r, h) == Held(s, h) - 1 && (forall u :: u != h ==> Held(r, u) == Held(s, u))
      && Prio(r, h) == (if Held(s, h) == 1 then Base(s, h) else Prio(s, h)) && Shown(s, r, h)
  {
  }

  /** vTaskPriorityDisinheritAfterTimeout: a holder of this mutex alone goes to the larger of its base
      priority and that of the first task still waiting; a holder of several keeps what it has. */
  lemma FallbackExact(s: State, m: Mutex, highest: Level, caller: Task)
    ensures var r := DisinheritAfterTimeout(s, m, highest, caller);
      && r == s.(prio := r.prio, key := r.key, selfWait := r.selfWait)
      && (if m in s.holder && Held(s, s.holder[m]) == 1 then
            var h := s.holder[m];
            OnlyFor(s, r, h) && Prio(r, h) == Max(Base(s, h), highest) && Shown(s, r, h)
          else r == s)
  {
  }

  /** vTaskPrioritySet: the base priority is the one asked for, and so is the priority in use unless
      it is inherited. The event item shows the new base priority. */
  lemma SetPriorityResult(s: State, t: Task, requested: nat)
    ensures var r := SetPriority(s, t, requested);
      var p := if requested < MAX_PRIORITIES then requested else MAX_PRIORITIES - 1;
      && r == s.(prio := r.prio, base := r.base, key := r.key)
      && OnlyFor(s, r, t) && (forall u :: u != t ==> Base(r, u) == Base(s, u))
      && Base(r, t) == p && Prio(r, t) == (if Prio(s, t) == Base(s, t) then p else Prio(s, t))
      && KeyOf(r, t) == if Base(s, t) == p then KeyOf(s, t) else MAX_PRIORITIES - p
  {
  }

  // ----- the waiting lists

  /** t stands behind everybody whose event item value is not larger, before everybody else. */
  ghost predicate PutAt(s: State, w: seq<Task>, after: seq<Task>, k: nat, t: Task) {
    && k <= |w| && after == w[..k] + [t] + w[k..]
    && (forall i :: 0 <= i < k ==> KeyOf(s, w[i]) <= KeyOf(s, t))
    && ((forall i, j :: 0 <= i < j < |w| ==> KeyOf(s, w[i]) <= KeyOf(s, w[j])) ==>
         forall i :: k <= i < |w| ==> KeyOf(s, t) < KeyOf(s, w[i]))
  }

  lemma PlacedExact(s: State, t: Task, m: Mutex)
    ensures exists k :: PutAt(s, Waiters(s, m), Placed(s, t, m), k, t)
  {
    var w := Waiters(s, m);
    var vals := Keys(s, w);
    var k := InsertPos(vals, KeyOf(s, t));
    assert (forall i :: 0 <= i < k ==> vals[i] <= KeyOf(s, t)) && (k < |vals| ==> KeyOf(s, t) < vals[k]);
    hide InsertPos, Waiters, KeyOf;
    forall i | 0 <= i < k ensures KeyOf(s, w[i]) <= KeyOf(s, t) { assert vals[i] <= KeyOf(s, t); }
    if forall i, j :: 0 <= i < j < |w| ==> KeyOf(s, w[i]) <= KeyOf(s, w[j]) {
      forall i | k <= i < |w| ensures KeyOf(s, t) < KeyOf(s, w[i]) { assert KeyOf(s, w[k]) <= KeyOf(s, w[i]); }
    }
    assert PutAt(s, w, Placed(s, t, m), k, t);
  }

  /** A task that blocks on m waits for m, in the order of the event item values, with inheritance
      seen to first; it remembers whether somebody inherits on its behalf. */
  lemma BlockExact(s: State, t: Task, m: Mutex)
    ensures var r := Block(s, t, m);
      var s1 := Inherit(s, m, t);
      && PcOf(r, t) == Waiting(m) && (forall u :: u != t ==> PcOf(r, u) == PcOf(s, u))
      && r.prio == s1.prio && r.key == s1.key
      && (exists k :: PutAt(s1, Waiters(s, m), Waiters(r, m), k, t))
      && (forall k :: k != m ==> Waiters(r, k) == Waiters(s, k))
      && (t in r.inherited <==> Inherits(s, m, t)) && (forall u :: u != t ==> (u in r.inherited <==> u in s.inherited))
  {
    BlockViews(s, t, m);
    BlockFrame(s, t, m);
    PlacedExact(Inherit(s, m, t), t, m);
    assert Waiters(Inherit(s, m, t), m) == Waiters(s, m);
    hide Inherit, Placed, Inherits, Waiters, PcOf, PutAt;
  }

  /** xQueueGenericSend on a mutex: the mutex is free and the first waiter, and it alone, is woken. */
  lemma GiveExact(s: State, t: Task, m: Mutex)
    requires m in s.holder && s.holder[m] == t && Held(s, t) > 0
    ensures var r := Give(s, t, m);
      && m !in r.taken && m !in r.holder && (forall k :: k != m ==> (k in r.taken <==> k in s.taken))
      && (forall k :: k in r.holder <==> k in s.holder && k != m)
      && (forall k :: k in r.holder ==> r.holder[k] == s.holder[k])
      && (if Waiters(s, m) == [] then Waiters(r, m) == [] else Waiters(r, m) == Waiters(s, m)[1..])
      && (forall k :: k != m ==> Waiters(r, k) == Waiters(s, k))
      && OnlyFor(s, r, t) && Prio(r, t) == (if Held(s, t) == 1 then Base(s, t) else Prio(s, t)) && Shown(s, r, t)
      && r.pc == s.pc && r.base == s.base
  {
    GiveFrame(s, t, m);
    GiveViews(s, t, m);
    DisinheritExact(s, t);
    hide Give, Disinherit, Waiters, Prio, KeyOf, Held, Base;
  }

  // ----- a timeout, over runs

  /** The priorities of the tasks waiting for m do not exceed p, and p is one of them or the base
      priority of h. */
  ghost predicate Settled(s: State, h: Task, m: Mutex, p: Level) {
    && p >= Base(s, h) && (forall w :: w in Waiters(s, m) ==> p >= Prio(s, w))
    && (p == Base(s, h) || exists w :: w in Waiters(s, m) && p == Prio(s, w))
  }

  /** In an ordered list the first waiter's event item value gives the highest priority waiting. */
  lemma HighestIs(s: State, m: Mutex)
    requires Levels(s) && Queues(s)
    ensures var w := Waiters(s, m);
      && (forall u :: u in w ==> HighestWaiting(s, m) >= Prio(s, u))
      && (w != [] ==> HighestWaiting(s, m) == Prio(s, w[0])) && (w == [] ==> HighestWaiting(s, m) == 0)
  {
    forall u | u in Waiters(s, m) ensures HighestWaiting(s, m) >= Prio(s, u) { HighestCovers(s, m, u); }
    if Waiters(s, m) != [] {
      var w := Waiters(s, m)[0];
      assert w in Waiters(s, m) && Held(s, w) == 0;
      hide Waiters;
    }
  }

  lemma LateSettles(s: State, t: Task, m: Mutex, expired: bool)
    requires Levels(s) && Queues(s) && PcOf(s, t) == Late(m) && m in s.holder && Held(s, s.holder[m]) == 1
    ensures var r := Turn(s, t, expired);
      && Settled(s, s.holder[m], m, Prio(r, s.holder[m]))
      && r.waiters == s.waiters && r.base == s.base && r.holder == s.holder
  {
    var g := Goto(s, t, Idle);
    var highest := HighestWaiting(s, m);
    assert Turn(s, t, expired) == DisinheritAfterTimeout(g, m, highest, t);
    assert Held(g, s.holder[m]) == Held(s, s.holder[m]) && Base(g, s.holder[m]) == Base(s, s.holder[m]);
    HighestIs(s, m);
    hide Turn, HighestWaiting, Waiters, Held, Base, Prio, DisinheritAfterTimeout, Goto, Levels, Queues;
    FallbackExact(g, m, highest, t);
    if Waiters(s, m) != [] { assert Waiters(s, m)[0] in Waiters(s, m); }
  }

  /** Over every disciplined run: when a task gives up waiting for a mutex and its holder holds no
      other, the holder is left with exactly the larger of its base priority and the highest among
      the tasks that still wait, so that nothing inherited from the one that gave up remains. */
  lemma TimeoutSettles(s: State, steps: seq<Step>, t: Task, m: Mutex, expired: bool)
    requires Initial(s) && DisciplinedRun(s, steps)
    ensures var r := Final(s, steps);
      PcOf(r, t) == Late(m) && m in r.holder && Held(r, r.holder[m]) == 1 ==>
        Settled(r, r.holder[m], m, Prio(Turn(r, t, expired), r.holder[m]))
  {
    var r := Final(s, steps);
    InitialBooks(s);
    assert Safe(s);
    RunSafe(s, steps);
    assert Levels(r) && Queues(r);
    hide Initial, DisciplinedRun, Final, Levels, Queues, Settled, Turn, PcOf, Prio, Held, Books, Safe;
    if PcOf(r, t) == Late(m) && m in r.holder && Held(r, r.holder[m]) == 1 { LateSettles(r, t, m, expired); }
  }

  // ----- nobody is forgotten

  /** t is at the top of the loop for m, or on its way there from the waiting list. */
  ghost predicate Retries(s: State, t: Task, m: Mutex) {
    PcOf(s, t) == Trying(m) || (PcOf(s, t) == Waiting(m) && t !in Waiters(s, m))
  }

  /** While tasks wait for a free mutex, one that has been woken is about to take it. */
  ghost predicate Remembered(s: State, m: Mutex) {
    m !in s.taken && Waiters(s, m) != [] ==> exists t :: Retries(s, t, m)
  }

  /** Nothing about m has changed but where task u is, which does not retry. */
  lemma RememberedFrame(s: State, r: State, u: Task, m: Mutex)
    requires Remembered(s, m) && Waiters(r, m) == Waiters(s, m) && (m !in r.taken ==> m !in s.taken)
    requires forall t :: t != u ==> PcOf(r, t) == PcOf(s, t)
    requires m !in r.taken && Retries(s, u, m) ==> Retries(r, u, m)
    ensures Remembered(r, m)
  {
    hide PcOf, Waiters;
    if m !in r.taken && Waiters(r, m) != [] {
      var t :| Retries(s, t, m);
      assert Retries(r, t, m);
    }
  }

  lemma TurnRemembers(s: State, t: Task, expired: bool, m: Mutex)
    requires Remembered(s, m)
    ensures Remembered(Turn(s, t, expired), m)
  {
    var r := Turn(s, t, expired);
    if Blocks(s, t, expired) {
      BlockRemembers(s, t, expired, m);
    } else {
      hide Turn, Takes, Blocks, Remembered, Retries, PcOf, Waiters;
      if Takes(s, t) { TakeAdvances(s, t, expired, m); }
      else if PcOf(s, t).Late? { LateAdvances(s, t, expired, m); }
      else { PlainAdvances(s, t, expired, m); }
      RememberedFrame(s, r, t, m);
    }
  }

  lemma BlockRemembers(s: State, t: Task, expired: bool, m: Mutex)
    requires Remembered(s, m) && Blocks(s, t, expired)
    ensures Remembered(Turn(s, t, expired), m)
  {
    var k := PcOf(s, t).mutex;
    BlockExact(s, t, k);
    BlockFrame(s, t, k);
    hide Block, Inherit, Inherits, PutAt, Waiters;
    if m != k { RememberedFrame(s, Block(s, t, k), t, m); }
  }

  /** A turn that does not block takes a free mutex, or moves its task no further from it. */
  ghost predicate Advances(s: State, r: State, t: Task, m: Mutex) {
    && Waiters(r, m) == Waiters(s, m) && (m !in r.taken ==> m !in s.taken)
    && (forall u :: u != t ==> PcOf(r, u) == PcOf(s, u))
    && (m !in r.taken && Retries(s, t, m) ==> Retries(r, t, m))
  }

  lemma TakeAdvances(s: State, t: Task, expired: bool, m: Mutex)
    requires Takes(s, t)
    ensures Advances(s, Turn(s, t, expired), t, m)
  {
    hide Depth, Held;
  }

  lemma LateAdvances(s: State, t: Task, expired: bool, m: Mutex)
    requires !Takes(s, t) && PcOf(s, t).Late?
    ensures Advances(s, Turn(s, t, expired), t, m)
  {
    var k := PcOf(s, t).mutex;
    FallbackExact(Goto(s, t, Idle), k, HighestWaiting(s, k), t);
    hide HighestWaiting, DisinheritAfterTimeout, Held, Base, Prio, KeyOf;
  }

  lemma PlainAdvances(s: State, t: Task, expired: bool, m: Mutex)
    requires !Takes(s, t) && !Blocks(s, t, expired) && !PcOf(s, t).Late?
    ensures Advances(s, Turn(s, t, expired), t, m)
  {
    assert Turn(s, t, expired).pc == s.pc[t := NextPc(s, t, expired)];
    assert Turn(s, t, expired).waiters == s.waiters && Turn(s, t, expired).taken == s.taken;
    hide Turn;
  }

  lemma GiveRemembers(s: State, t: Task, k: Mutex, m: Mutex)
    requires Lists(s) && Counts(s) && k in s.holder && s.holder[k] == t && Remembered(s, m)
    ensures Remembered(Give(s, t, k), m)
  {
    var r := Give(s, t, k);
    HolderHolds(s, k);
    GiveExact(s, t, k);
    SamePcs(s, r);
    hide Give, PcOf, Held, Base, Prio, KeyOf;
    if m == k {
      if Waiters(s, m) != [] { Popped(s, r, m); }
    } else {
      hide Waiters, Lists, Counts;
      RememberedFrame(s, r, t, m);
    }
  }

  lemma SamePcs(s: State, r: State)
    requires r.pc == s.pc
    ensures forall t :: PcOf(r, t) == PcOf(s, t)
  {
  }

  /** The first waiter, off the list, retries. */
  lemma Popped(s: State, r: State, m: Mutex)
    requires Lists(s) && Waiters(s, m) != [] && Waiters(r, m) == Waiters(s, m)[1..]
    requires forall t :: PcOf(r, t) == PcOf(s, t)
    ensures Remembered(r, m)
  {
    var w := Waiters(s, m);
    assert NoDup(w) && w[0] in w;
    hide PcOf, Waiters;
    assert Retries(r, w[0], m);
  }

  lemma ExpireRemembers(s: State, t: Task, m: Mutex)
    requires Lists(s) && Remembered(s, m)
    ensures Remembered(Expire(s, t), m)
  {
    var r := Expire(s, t);
    SamePcs(s, r);
    if PcOf(s, t) == Waiting(m) && t in Waiters(s, m) {
      WithoutMembers(Waiters(s, m), t);
      assert Waiters(r, m) == Without(Waiters(s, m), t);
      hide PcOf, Waiters, Without, Expire;
      assert Retries(r, t, m);
    } else {
      assert Waiters(r, m) == Waiters(s, m) && r.taken == s.taken;
      hide PcOf, Waiters, Expire;
      RememberedFrame(s, r, t, m);
    }
  }

  lemma PlainRemembers(s: State, r: State, t: Task, m: Mutex)
    requires Remembered(s, m) && r.waiters == s.waiters && s.taken <= r.taken
    requires r.pc == s.pc || (t in r.pc && r.pc == s.pc[t := r.pc[t]] && PcOf(s, t) == Idle)
    ensures Remembered(r, m)
  {
    forall u | u != t ensures PcOf(r, u) == PcOf(s, u) { }
    assert PcOf(s, t) != Idle ==> r.pc == s.pc;
    assert Waiters(r, m) == Waiters(s, m);
    RememberedFrame(s, r, t, m);
  }

  lemma StepRemembers(s: State, a: Step, m: Mutex)
    requires Books(s) && Legal(s, a) && Remembered(s, m)
    ensures Remembered(Apply(s, a), m)
  {
    hide Levels, Depths, Counts, Lists, Remembered, Turn, Give, Expire, SetPriority, Depth, Held;
    match a
    case Start(t, _) => IdleRemembers(s, a, m);
    case TryOnce(t, _) => IdleRemembers(s, a, m);
    case Move(t, expired) => TurnRemembers(s, t, expired, m);
    case GiveBack(t, k) => GiveRemembers(s, t, k, m);
    case Nest(t, _) => IdleRemembers(s, a, m);
    case Unnest(t, k) => UnnestRemembers(s, t, k, m);
    case TickExpires(t) => ExpireRemembers(s, t, m);
    case Reprioritise(t, p) => SetFrame(s, t, p); PlainRemembers(s, SetPriority(s, t, p), t, m);
  }

  lemma IdleRemembers(s: State, a: Step, m: Mutex)
    requires Legal(s, a) && Remembered(s, m) && (a.Start? || a.TryOnce? || a.Nest?)
    ensures Remembered(Apply(s, a), m)
  {
    hide Remembered, Depth, Held;
    PlainRemembers(s, Apply(s, a), a.task, m);
  }

  lemma UnnestRemembers(s: State, t: Task, k: Mutex, m: Mutex)
    requires Counts(s) && Lists(s) && Remembered(s, m)
    ensures Remembered(Apply(s, Unnest(t, k)), m)
  {
    if k in s.holder && s.holder[k] == t && Depth(s, k) > 0 {
      var s1 := s.(depth := s.depth[k := Depth(s, k) - 1]);
      SameCounts(s, s1);
      ShorterLists(s, s1, 0, []);
      PlainRemembers(s, s1, t, m);
      hide Give, Counts, Lists, Remembered;
      if Depth(s, k) == 1 { GiveRemembers(s1, t, k, m); }
    }
  }

  lemma {:induction false} RunRemembers(s: State, steps: seq<Step>, m: Mutex)
    requires Books(s) && Remembered(s, m) && LegalRun(s, steps)
    ensures Remembered(Final(s, steps), m)
    decreases |steps|
  {
    if steps != [] {
      hide Books, Remembered, Apply, Legal;
      StepBooks(s, steps[0]);
      StepRemembers(s, steps[0], m);
      RunRemembers(Apply(s, steps[0]), steps[1..], m);
    }
  }

  /** In every run, whoever holds, takes, gives up or times out: tasks never wait for a mutex that is
      free without one of those woken being about to take it. */
  lemma NobodyForgotten(s: State, steps: seq<Step>, m: Mutex)
    requires Initial(s) && LegalRun(s, steps)
    ensures var r := Final(s, steps);
      m !in r.taken && Waiters(r, m) != [] ==> exists t :: Retries(r, t, m)
  {
    InitialBooks(s);
    assert Remembered(s, m);
    RunRemembers(s, steps, m);
  }

  // ----- one call of xQueueSemaphoreTake

  /** t goes on alone; each flag says whether its block time is up. */
  function Turns(s: State, t: Task, expired: seq<bool>): State
    decreases |expired|
  {
    if expired == [] then s else Turns(Turn(s, t, expired[0]), t, expired[1..])
  }

  lemma TwoTurns(s: State, t: Task, a: bool, b: bool)
    ensures Turns(s, t, [a, b]) == Turn(Turn(s, t, a), t, b)
  {
    hide Turn;
    assert [a, b][0] == a && [a, b][1..] == [b] && [b][0] == b && [b][1..] == [];
    assert Turns(Turn(s, t, a), t, [b]) == Turn(Turn(s, t, a), t, b);
  }

  lemma ThreeTurns(s: State, t: Task, a: bool, b: bool, c: bool)
    ensures Turns(s, t, [a, b, c]) == Turn(Turn(Turn(s, t, a), t, b), t, c)
  {
    hide Turn;
    assert [a, b, c][0] == a && [a, b, c][1..] == [b, c];
    TwoTurns(Turn(s, t, a), t, b, c);
  }

  /** A turn that takes nothing, blocks on nothing and disinherits nobody. */
  lemma PlainTurn(s: State, t: Task, expired: bool)
    requires !Takes(s, t) && !Blocks(s, t, expired) && !PcOf(s, t).Late?
    ensures var r := Turn(s, t, expired);
      && PcOf(r, t) == NextPc(s, t, expired) && r == s.(pc := r.pc, stale := r.stale)
      && (forall u :: u != t ==> PcOf(r, u) == PcOf(s, u))
  {
    hide NextPc;
  }

  /** A task woken for a mutex that is still free takes it. */
  lemma WokenTakes(s: State, t: Task, m: Mutex)
    requires PcOf(s, t) == Waiting(m) && t !in Waiters(s, m) && m !in s.taken
    ensures var r := Turns(s, t, [false, false]);
      PcOf(r, t) == Idle && m in r.taken && m in r.holder && r.holder[m] == t && Held(r, t) == Held(s, t) + 1
  {
    TwoTurns(s, t, false, false);
    PlainTurn(s, t, false);
    var q := Turn(s, t, false);
    assert PcOf(q, t) == Trying(m) && Held(q, t) == Held(s, t);
    hide Depth, Waiters;
  }

  /** A task that finds the mutex taken goes to sleep on it. */
  lemma TakenBlocks(s: State, t: Task, m: Mutex)
    requires PcOf(s, t) == Trying(m) && m in s.taken
    ensures var r := Turns(s, t, [false, false]); PcOf(r, t) == Waiting(m) && t in Waiters(r, m)
  {
    TwoTurns(s, t, false, false);
    PlainTurn(s, t, false);
    var q := Turn(s, t, false);
    assert PcOf(q, t) == Asked(m) && Turn(q, t, false) == Block(q, t, m);
    hide Turn, Block, Inherit, Inherits, Waiters, PutAt;
    BlockExact(q, t, m);
    var k :| PutAt(Inherit(q, m, t), Waiters(q, m), Waiters(Block(q, t, m), m), k, t);
    InAt(Inherit(q, m, t), Waiters(q, m), Waiters(Block(q, t, m), m), k, t);
  }

  lemma InAt(s: State, w: seq<Task>, after: seq<Task>, k: nat, t: Task)
    requires PutAt(s, w, after, k, t)
    ensures t in after
  {
    assert after[k] == t;
  }

  /** A task whose time is up while the mutex is taken returns; if somebody inherited on its behalf,
      only after the holder has been settled again. */
  lemma GivesUp(s: State, t: Task, m: Mutex)
    requires PcOf(s, t) == Asked(m) && m in s.taken
    ensures t !in s.inherited ==>
      var r := Turns(s, t, [true, true]); PcOf(r, t) == Idle && r == s.(pc := r.pc)
    ensures t in s.inherited ==>
      var r := Turns(s, t, [true, true, true]);
      && PcOf(r, t) == Idle && r == s.(pc := r.pc, prio := r.prio, key := r.key, selfWait := r.selfWait)
      && (Levels(s) && Queues(s) && m in s.holder && Held(s, s.holder[m]) == 1 ==>
          Settled(s, s.holder[m], m, Prio(r, s.holder[m])))
  {
    TwoTurns(s, t, true, true);
    ThreeTurns(s, t, true, true, true);
    PlainTurn(s, t, true);
    var q := Turn(s, t, true);
    assert PcOf(q, t) == TimedOut(m) && q == s.(pc := q.pc);
    GivesUpThen(q, t, m);
    if Levels(s) && Queues(s) { SameBooks(s, q); }
    hide Turn, Levels, Queues, Waiters, Settled, Held, Prio;
    if m in s.holder { SettledFrame(s, q, s.holder[m], m); }
  }

  lemma SameBooks(s: State, q: State)
    requires Levels(s) && Queues(s) && q == s.(pc := q.pc)
    ensures Levels(q) && Queues(q)
  {
    assert Ordered(s, 0);
    forall k ensures Waiters(q, k) == Waiters(s, k) && Guarded(q, k) == Guarded(s, k) { }
    forall u ensures Prio(q, u) == Prio(s, u) && KeyOf(q, u) == KeyOf(s, u) && Held(q, u) == Held(s, u) &&
      Base(q, u) == Base(s, u) { }
    hide Waiters, Guarded, Prio, KeyOf, Held, Base;
    QueuesFrame(s, q, 0, Waiters(s, 0));
  }

  lemma SettledFrame(s: State, q: State, h: Task, m: Mutex)
    requires q == s.(pc := q.pc)
    ensures forall p :: Settled(q, h, m, p) <==> Settled(s, h, m, p)
    ensures Held(q, h) == Held(s, h)
  {
    assert Base(q, h) == Base(s, h) && Waiters(q, m) == Waiters(s, m) && forall w :: Prio(q, w) == Prio(s, w);
    hide Base, Waiters, Prio;
  }

  lemma GivesUpThen(q: State, t: Task, m: Mutex)
    requires PcOf(q, t) == TimedOut(m) && m in q.taken
    ensures t !in q.inherited ==> var r := Turn(q, t, true); PcOf(r, t) == Idle && r == q.(pc := r.pc)
    ensures t in q.inherited ==>
      var r := Turn(Turn(q, t, true), t, true);
      && PcOf(r, t) == Idle && r == q.(pc := r.pc, prio := r.prio, key := r.key, selfWait := r.selfWait)
      && (Levels(q) && Queues(q) && m in q.holder && Held(q, q.holder[m]) == 1 ==>
          Settled(q, q.holder[m], m, Prio(r, q.holder[m])))
  {
    PlainTurn(q, t, true);
    var l := Turn(q, t, true);
    assert l == q.(pc := l.pc);
    if t in q.inherited {
      assert PcOf(l, t) == Late(m);
      LateIdle(l, t, m);
      hide Turn, Levels, Queues, Settled, Held, Prio, PcOf;
      if Levels(q) && Queues(q) && m in q.holder {
        SameBooks(q, l);
        SettledFrame(q, l, q.holder[m], m);
        if Held(q, q.holder[m]) == 1 { LateSettles(l, t, m, true); }
      }
    }
  }

  lemma LateIdle(l: State, t: Task, m: Mutex)
    requires PcOf(l, t) == Late(m)
    ensures var r := Turn(l, t, true);
      PcOf(r, t) == Idle && r == l.(pc := r.pc, prio := r.prio, key := r.key, selfWait := r.selfWait)
  {
    hide HighestWaiting;
    FallbackExact(Goto(l, t, Idle), m, HighestWaiting(l, m), t);
    hide DisinheritAfterTimeout;
  }

  /** A task whose time is up but that finds the mutex free takes it after all. */
  lemma LastTryTakes(s: State, t: Task, m: Mutex)
    requires PcOf(s, t) == TimedOut(m) && m !in s.taken
    ensures var r := Turns(s, t, [true, true]); PcOf(r, t) == Idle && m in r.holder && r.holder[m] == t
  {
    TwoTurns(s, t, true, true);
    PlainTurn(s, t, true);
    var q := Turn(s, t, true);
    assert PcOf(q, t) == LastTry(m);
    hide Depth, Held, Waiters;
  }

  /** If somebody has been quicker, it returns, or, with time left after all, asks once more. */
  lemma LastTryMisses(s: State, t: Task, m: Mutex, expired: bool)
    requires PcOf(s, t) == LastTry(m) && m in s.taken
    ensures var r := Turn(s, t, expired);
      PcOf(r, t) == (if expired then Idle else Asked(m)) && r == s.(pc := r.pc, stale := r.stale)
  {
    PlainTurn(s, t, expired);
  }
}
