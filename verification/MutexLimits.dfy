/** Where priority inheritance does not deliver what its comments say, exactly: when a task blocks
    that is waited for itself, and when the assertion on outstanding inheritance fails. A change of
    priority is MutexSafety.SetPriorityExact; MutexWitnesses has a run for each of the three. */
module MutexLimits {
  import opened Mutexes
  import opened MutexRuns
  import opened MutexSafety

  /** A turn that neither takes the mutex nor blocks on it. */
  lemma OtherTurn(s: State, t: Task, expired: bool)
    requires !Takes(s, t) && !Blocks(s, t, expired)
    ensures var r := Turn(s, t, expired);
      r == s.(pc := s.pc[t := NextPc(s, t, expired)], prio := r.prio, key := r.key, selfWait := r.selfWait,
              stale := s.stale || Trips(s, Move(t, expired)))
  {
    hide HighestWaiting, DisinheritAfterTimeout, Waiters;
    if PcOf(s, t).Late? {
      AfterTimeoutFrame(Goto(s, t, Idle), PcOf(s, t).mutex, HighestWaiting(s, PcOf(s, t).mutex), t);
    }
  }

  /** Where a turn leaves its task on its last try, it has just seen the mutex free. */
  lemma NextLastTry(s: State, t: Task, expired: bool)
    ensures var p := NextPc(s, t, expired); p.LastTry? ==> p != PcOf(s, t) && p.mutex !in s.taken
  {
  }

  // ----- nested blocking

  /** What w's blocking on k does to guards and priorities: w is guarded by k, whose holder is
      raised to w. */
  ghost predicate Raises(s: State, r: State, w: Task, k: Mutex)
    requires k in s.holder
  {
    && r.holder == s.holder
    && (forall m :: Guarded(r, m) == if m == k then Guarded(s, k) + {w} else Guarded(s, m))
    && (forall u :: Prio(r, u) ==
         if u == s.holder[k] && Prio(s, u) < Prio(s, w) then Prio(s, w) else Prio(s, u))
  }

  lemma BlockRaises(s: State, w: Task, k: Mutex)
    requires k in s.holder
    ensures Raises(s, Block(s, w, k), w, k)
  {
    var h := s.holder[k];
    BlockViews(s, w, k);
    BlockFrame(s, w, k);
    InheritFrame(s, k, w);
    assert Prio(Inherit(s, k, w), h) == if Prio(s, h) < Prio(s, w) then Prio(s, w) else Prio(s, h);
    hide Block, Inherit, Prio, Guarded, KeyOf, Held, PcOf, Waiters, Placed;
  }

  /** The holder of k waits for no mutex whose holder is below w. */
  ghost predicate NotNested(s: State, w: Task, k: Mutex)
    requires k in s.holder
  {
    var h := s.holder[k];
    forall m :: m in s.holder && h in Guarded(s, m) && s.holder[m] != h ==> Prio(s, s.holder[m]) >= Prio(s, w)
  }

  lemma RaisedProtects(s: State, r: State, w: Task, k: Mutex)
    requires Protected(s) && k in s.holder && Raises(s, r, w, k)
    requires Prio(s, s.holder[k]) < Prio(s, w) ==> NotNested(s, w, k)
    ensures Protected(r)
  {
    hide Prio, Guarded;
  }

  lemma NestedFails(s: State, r: State, w: Task, k: Mutex)
    requires Protected(r) && k in s.holder && Raises(s, r, w, k) && Prio(s, s.holder[k]) < Prio(s, w)
    ensures NotNested(s, w, k)
  {
    hide Prio, Guarded;
    var h := s.holder[k];
    forall m | m in s.holder && h in Guarded(s, m) && s.holder[m] != h ensures Prio(s, s.holder[m]) >= Prio(s, w) {
      assert m in r.holder && h in Guarded(r, m);
    }
  }

  lemma BlockProtectsExactly(s: State, w: Task, k: Mutex)
    requires Protected(s) && k in s.holder
    ensures Protected(Block(s, w, k)) <==> (Prio(s, s.holder[k]) < Prio(s, w) ==> NotNested(s, w, k))
  {
    hide *;
    var r := Block(s, w, k);
    BlockRaises(s, w, k);
    if Protected(r) && Prio(s, s.holder[k]) < Prio(s, w) {
      NestedFails(s, r, w, k);
    } else if !Protected(r) && (Prio(s, s.holder[k]) < Prio(s, w) ==> NotNested(s, w, k)) {
      RaisedProtects(s, r, w, k);
    }
  }

  /** In any state in which no holder is below a task it keeps waiting: when w blocks on k, it stays
      so exactly when k's holder does not have to be raised, or does not itself wait for a mutex
      whose holder is below w. Inheritance goes one step and no further. */
  lemma NestedBlocking(s: State, w: Task, k: Mutex)
    requires Protected(s) && k in s.holder
    ensures var h := s.holder[k];
      Protected(Block(s, w, k)) <==>
        (Prio(s, h) < Prio(s, w) ==>
          forall m :: m in s.holder && h in Guarded(s, m) && s.holder[m] != h ==> Prio(s, s.holder[m]) >= Prio(s, w))
  {
    hide Protected, Block, Prio, Guarded;
    BlockProtectsExactly(s, w, k);
  }

  // ----- the assertion on outstanding inheritance

  /** t is at its last try with nothing left to wait, somebody has inherited on its behalf, and the
      mutex it saw free is taken. */
  predicate Trips(s: State, a: Step) {
    && a.Move? && a.expired && PcOf(s, a.task).LastTry? && a.task in s.inherited
    && PcOf(s, a.task).mutex in s.taken
  }

  lemma GiveStale(s: State, t: Task, m: Mutex)
    ensures Give(s, t, m).stale == s.stale
  {
    GiveFrame(s, t, m);
  }

  lemma BlockStale(s: State, t: Task, m: Mutex)
    ensures Block(s, t, m).stale == s.stale
  {
    BlockFrame(s, t, m);
  }

  lemma ExpireStale(s: State, t: Task)
    ensures Expire(s, t).stale == s.stale && Expire(s, t).pc == s.pc && Expire(s, t).taken == s.taken
    ensures Expire(s, t).inherited == s.inherited
  {
  }

  lemma TurnStale(s: State, t: Task, expired: bool)
    ensures Turn(s, t, expired).stale <==> s.stale || Trips(s, Move(t, expired))
  {
    hide Block, NextPc, HighestWaiting;
    if Takes(s, t) {
    } else if Blocks(s, t, expired) {
      BlockStale(s, t, PcOf(s, t).mutex);
    } else {
      OtherTurn(s, t, expired);
      hide Turn;
    }
  }

  lemma StepStale(s: State, a: Step)
    ensures Apply(s, a).stale <==> s.stale || Trips(s, a)
  {
    hide Turn, Give, Expire, SetPriority;
    match a
    case Move(t, expired) => TurnStale(s, t, expired);
    case GiveBack(t, m) => GiveStale(s, t, m);
    case Unnest(t, m) => if Depth(s, m) > 0 { GiveStale(s.(depth := s.depth[m := Depth(s, m) - 1]), t, m); }
    case TickExpires(t) => ExpireStale(s, t);
    case Reprioritise(t, p) => SetFrame(s, t, p);
    case _ =>
  }

  /** Some step of the run trips the assertion. */
  predicate TripsIn(s: State, steps: seq<Step>)
    decreases |steps|
  {
    steps != [] && (Trips(s, steps[0]) || TripsIn(Apply(s, steps[0]), steps[1..]))
  }

  lemma {:induction false} RunStale(s: State, steps: seq<Step>)
    ensures Final(s, steps).stale <==> s.stale || TripsIn(s, steps)
    decreases |steps|
  {
    if steps != [] {
      StepStale(s, steps[0]);
      hide Apply, Trips;
      RunStale(Apply(s, steps[0]), steps[1..]);
    }
  }

  /** The step takes a mutex that another task, on whose behalf somebody has inherited, has seen
      free and is about to try for the last time. */
  ghost predicate Snatches(s: State, a: Step) {
    exists t :: t != a.task && PcOf(s, t).LastTry? && t in s.inherited && PcOf(s, t).mutex !in s.taken &&
      PcOf(s, t).mutex in Apply(s, a).taken
  }

  ghost predicate SnatchesIn(s: State, steps: seq<Step>)
    decreases |steps|
  {
    steps != [] && (Snatches(s, steps[0]) || SnatchesIn(Apply(s, steps[0]), steps[1..]))
  }

  /** Whoever is about to try for the last time still finds the mutex free. */
  ghost predicate Clear(s: State) {
    forall t :: PcOf(s, t).LastTry? && t in s.inherited ==> PcOf(s, t).mutex !in s.taken
  }

  /** A step moves its own task only, and only blocking changes whom inheritance was for; it
      leaves its task on its last try only if the mutex is free, or if nothing has changed for it. */
  ghost predicate MovesOwn(s: State, r: State, u: Task) {
    && (forall t :: t != u ==> PcOf(r, t) == PcOf(s, t) && (t in r.inherited <==> t in s.inherited))
    && (PcOf(r, u).LastTry? ==>
      if PcOf(r, u) != PcOf(s, u) then PcOf(r, u).mutex !in r.taken
      else (u in r.inherited ==> u in s.inherited) && r.taken <= s.taken)
  }

  lemma Moved(s: State, r: State, u: Task)
    requires (r.pc == s.pc || (r.pc == s.pc[u := PcOf(r, u)] && !PcOf(r, u).LastTry?))
    requires r.pc == s.pc && PcOf(s, u).LastTry? ==> r.taken <= s.taken
    requires r.inherited == s.inherited || r.inherited == s.inherited - {u}
    ensures MovesOwn(s, r, u)
  {
  }

  lemma StepMoves(s: State, a: Step)
    ensures MovesOwn(s, Apply(s, a), a.task)
  {
    hide Turn, Give, Expire, SetPriority, Depth, Held, MovesOwn, MovesAlone, PcOf;
    var r := Apply(s, a);
    match a
    case Start(t, m) => StartMoves(s, t, m);
    case TryOnce(t, m) => TryMoves(s, t, m);
    case Move(t, expired) => TurnMoves(s, t, expired); TurnIsMove(s, r, t);
    case GiveBack(t, m) => GiveFrame(s, t, m); Moved(s, r, t);
    case Nest(t, m) => Moved(s, r, t);
    case Unnest(t, m) => UnnestMoves(s, t, m);
    case TickExpires(t) => ExpireStale(s, t); Moved(s, r, t);
    case Reprioritise(t, p) => SetFrame(s, t, p); Moved(s, r, t);
  }

  lemma StartMoves(s: State, t: Task, m: Mutex)
    ensures MovesOwn(s, Apply(s, Start(t, m)), t)
  {
    hide MovesOwn;
    Moved(s, Apply(s, Start(t, m)), t);
  }

  lemma TryMoves(s: State, t: Task, m: Mutex)
    ensures MovesOwn(s, Apply(s, TryOnce(t, m)), t)
  {
    hide MovesOwn, Depth, Held;
    Moved(s, Apply(s, TryOnce(t, m)), t);
  }

  lemma UnnestMoves(s: State, t: Task, m: Mutex)
    ensures MovesOwn(s, Apply(s, Unnest(t, m)), t)
  {
    if Depth(s, m) > 0 { GiveFrame(s.(depth := s.depth[m := Depth(s, m) - 1]), t, m); }
    hide Give, MovesOwn;
    Moved(s, Apply(s, Unnest(t, m)), t);
  }

  lemma TurnIsMove(s: State, r: State, t: Task)
    requires MovesAlone(s, r, t)
    ensures MovesOwn(s, r, t)
  {
  }

  lemma TurnMoves(s: State, t: Task, expired: bool)
    ensures MovesAlone(s, Turn(s, t, expired), t)
  {
    hide MovesAlone, Turn, Takes, Blocks;
    if Takes(s, t) { TakingMoves(s, t, expired); }
    else if Blocks(s, t, expired) { BlockingMoves(s, t, expired); }
    else { OtherMoves(s, t, expired); }
  }

  ghost predicate MovesAlone(s: State, r: State, t: Task) {
    && (forall u :: u != t ==> PcOf(r, u) == PcOf(s, u) && (u in r.inherited <==> u in s.inherited))
    && (PcOf(r, t).LastTry? ==> PcOf(r, t) != PcOf(s, t) && PcOf(r, t).mutex !in r.taken)
  }

  lemma TakingMoves(s: State, t: Task, expired: bool)
    requires Takes(s, t)
    ensures MovesAlone(s, Turn(s, t, expired), t)
  {
    hide Depth, Held;
  }

  lemma BlockingMoves(s: State, t: Task, expired: bool)
    requires !Takes(s, t) && Blocks(s, t, expired)
    ensures MovesAlone(s, Turn(s, t, expired), t)
  {
    BlockFrame(s, t, PcOf(s, t).mutex);
    hide Inherits, Placed, Block;
  }

  lemma OtherMoves(s: State, t: Task, expired: bool)
    requires !Takes(s, t) && !Blocks(s, t, expired)
    ensures MovesAlone(s, Turn(s, t, expired), t)
  {
    OtherTurn(s, t, expired);
    NextLastTry(s, t, expired);
    hide Turn, NextPc, Takes, Blocks;
  }

  lemma StepClear(s: State, a: Step)
    requires Clear(s) && !Snatches(s, a)
    ensures Clear(Apply(s, a)) && !Trips(s, a)
  {
    StepMoves(s, a);
    hide Apply, PcOf;
  }

  lemma {:induction false} RunClear(s: State, steps: seq<Step>)
    requires Clear(s) && TripsIn(s, steps)
    ensures SnatchesIn(s, steps)
    decreases |steps|
  {
    if !Snatches(s, steps[0]) {
      StepClear(s, steps[0]);
      hide Apply, Trips, Snatches, Clear;
      RunClear(Apply(s, steps[0]), steps[1..]);
    }
  }

  /** The assertion that no inheritance is outstanding has failed, in any run, exactly when some
      task came to its last try, with nothing left to wait, after somebody had inherited on its
      behalf, and found the mutex it had seen free taken; and then somebody did take it between
      the task's look and its last try. */
  lemma StaleExact(s: State, steps: seq<Step>)
    requires Initial(s) && LegalRun(s, steps)
    ensures Final(s, steps).stale <==> TripsIn(s, steps)
    ensures Final(s, steps).stale ==> SnatchesIn(s, steps)
  {
    RunStale(s, steps);
    hide TripsIn, SnatchesIn, LegalRun, Final;
    if TripsIn(s, steps) { RunClear(s, steps); }
  }
}
