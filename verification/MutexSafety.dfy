/** What priority inheritance is for: under the discipline it assumes, a holder never runs below
    a task it keeps waiting. */
module MutexSafety {
  import opened Rings
  import opened Mutexes
  import opened MutexRuns

  /** The event list of m is in key order. */
  ghost predicate Ordered(s: State, m: Mutex) {
    forall i, j :: 0 <= i < j < |Waiters(s, m)| ==> KeyOf(s, Waiters(s, m)[i]) <= KeyOf(s, Waiters(s, m)[j])
  }

  /** From the moment a task blocks until it leaves the list or the mutex is given back, the
      holder's priority is no lower than the task's. */
  ghost predicate Protected(s: State) {
    forall m, w :: m in s.holder && w in Guarded(s, m) ==> Prio(s, s.holder[m]) >= Prio(s, w)
  }

  ghost predicate Queues(s: State) {
    && (forall m, w :: w in Guarded(s, m) ==> w in Waiters(s, m))
    && (forall m, w :: w in Waiters(s, m) ==> Held(s, w) == 0)
    && (forall m :: Ordered(s, m))
  }

  /** A task on whose behalf somebody inherited holds nothing. */
  ghost predicate Empty(s: State) {
    && (forall t :: t in s.inherited && PcOf(s, t) != Idle ==> Held(s, t) == 0)
    && (forall t :: PcOf(s, t).Late? ==> t in s.inherited)
  }

  ghost predicate Safe(s: State) {
    Queues(s) && Protected(s) && Empty(s) && !s.selfWait
  }

  /** A new priority does not put t below somebody it keeps waiting. */
  ghost predicate Harmless(s: State, t: Task, requested: nat) {
    Prio(s, t) == Base(s, t) ==>
      forall m, w :: m in s.holder && s.holder[m] == t && w in Guarded(s, m) ==> Prio(s, w) <= Clamped(requested)
  }

  /** No task blocks on a mutex while it holds another; the priority of a waiting task is left
      alone, and that of a holder is not lowered below its waiters. */
  ghost predicate Disciplined(s: State, a: Step) {
    match a
    case Move(t, expired) => Blocks(s, t, expired) ==> Held(s, t) == 0
    case Reprioritise(t, p) => (forall m :: t !in Waiters(s, m)) && Harmless(s, t, p)
    case _ => true
  }

  // ----- frames

  /** The tasks waiting in r waited in s, and nothing about them has changed. */
  lemma QueuesFrame(s: State, r: State, m: Mutex, w: seq<Task>)
    requires Queues(s) && forall k :: Waiters(r, k) == if k == m then w else Waiters(s, k)
    requires forall t :: t in w ==> t in Waiters(s, m)
    requires forall i, j :: 0 <= i < j < |w| ==> KeyOf(s, w[i]) <= KeyOf(s, w[j])
    requires forall k :: Guarded(r, k) <= Guarded(s, k)
    requires forall t :: t in Guarded(r, m) ==> t in w
    requires forall k, t :: t in Waiters(s, k) ==> KeyOf(r, t) == KeyOf(s, t) && Held(r, t) == Held(s, t)
    ensures Queues(r)
  {
    hide Waiters, KeyOf, Held, Guarded;
    forall k, t | t in Waiters(r, k) ensures t in Waiters(s, k) && Held(r, t) == 0 { }
    forall k, t | t in Guarded(r, k) ensures t in Waiters(r, k) { assert t in Guarded(s, k); }
    forall k ensures Ordered(r, k) {
      assert Ordered(s, k);
      forall i, j | 0 <= i < j < |Waiters(r, k)| ensures KeyOf(r, Waiters(r, k)[i]) <= KeyOf(r, Waiters(r, k)[j]) {
        assert Waiters(r, k)[i] in Waiters(s, k) && Waiters(r, k)[j] in Waiters(s, k);
      }
    }
  }

  /** Whoever holds a mutex waits for none. */
  lemma HolderWaitsNot(s: State, h: Task, m: Mutex)
    requires Queues(s) && Held(s, h) > 0
    ensures h !in Waiters(s, m)
  {
  }

  // ----- one step at a time

  lemma TakeSafe(s: State, t: Task, m: Mutex)
    requires Books(s) && Safe(s) && m !in s.taken && !PcOf(s, t).Waiting?
    ensures Safe(Take(s, t, m))
  {
    var r := Take(s, t, m);
    NotListed(s, t);
    forall k ensures Waiters(r, k) == Waiters(s, k) && Guarded(r, k) == if k == m then {} else Guarded(s, k) { }
    forall u ensures Prio(r, u) == Prio(s, u) && KeyOf(r, u) == KeyOf(s, u) &&
      PcOf(r, u) == (if u == t then Idle else PcOf(s, u)) && (u != t ==> Held(r, u) == Held(s, u)) { }
    assert Ordered(s, m);
    hide Waiters, Guarded, Prio, KeyOf, PcOf, Held, Books, Ordered;
    QueuesFrame(s, r, m, Waiters(s, m));
  }

  /** Giving the last mutex back leaves no other with the same holder. */
  lemma LastHeld(s: State, t: Task, m: Mutex, k: Mutex)
    requires Counts(s) && m in s.holder && s.holder[m] == t && k in s.holder && k != m && Held(s, t) == 1
    ensures s.holder[k] != t
  {
    if s.holder[k] == t { HoldsOne(s, m, k); }
  }

  lemma GiveSafe(s: State, t: Task, m: Mutex)
    requires Counts(s) && Lists(s) && Safe(s) && m in s.holder && s.holder[m] == t && PcOf(s, t) == Idle
    ensures Safe(Give(s, t, m))
  {
    var r := Give(s, t, m);
    var w := Waiters(s, m);
    var rest := if w == [] then w else w[1..];
    HolderHolds(s, m);
    GiveFrame(s, t, m);
    DisinheritFrame(s, t);
    GiveViews(s, t, m);
    assert Ordered(s, m);
    NotListed(s, t);
    hide Give, Disinherit;
    GiveProtects(s, r, t, m);
    hide Waiters, Guarded, Prio, KeyOf, PcOf, Held, Lists, Counts, Base;
    QueuesFrame(s, r, m, rest);
  }

  lemma GiveViews(s: State, t: Task, m: Mutex)
    requires Held(s, t) > 0
    ensures var r := Give(s, t, m);
      var d := Disinherit(s, t);
      var w := Waiters(s, m);
      && (forall k :: Waiters(r, k) == if k == m then (if w == [] then w else w[1..]) else Waiters(s, k))
      && (forall k :: Guarded(r, k) == if k == m then {} else Guarded(s, k))
      && (forall u :: Prio(r, u) == Prio(d, u) && KeyOf(r, u) == KeyOf(d, u) && PcOf(r, u) == PcOf(s, u))
      && (forall u :: Held(r, u) == (if u == t then Held(s, t) - 1 else Held(s, u)) && Base(r, u) == Base(s, u))
  {
    GiveFrame(s, t, m);
    DisinheritFrame(s, t);
    DisinheritHeld(s, t);
    hide Give, Disinherit;
  }

  lemma GiveProtects(s: State, r: State, t: Task, m: Mutex)
    requires Counts(s) && Lists(s) && Safe(s) && m in s.holder && s.holder[m] == t && PcOf(s, t) == Idle
    requires r.holder == s.holder - {m} && Held(s, t) > 0
    requires forall k :: Guarded(r, k) == if k == m then {} else Guarded(s, k)
    requires forall u :: u != t ==> Prio(r, u) == Prio(s, u)
    requires Held(s, t) > 1 ==> Prio(r, t) == Prio(s, t)
    ensures Protected(r)
  {
    NotListed(s, t);
    forall k, w | k in r.holder && w in Guarded(r, k) ensures Prio(r, r.holder[k]) >= Prio(r, w) {
      assert w in Waiters(s, k) && w != t;
      if Held(s, t) == 1 { LastHeld(s, t, m, k); }
    }
  }

  lemma ExpireSafe(s: State, t: Task)
    requires Lists(s) && Safe(s)
    ensures Safe(Expire(s, t))
  {
    var r := Expire(s, t);
    if PcOf(s, t).Waiting? {
      var m := PcOf(s, t).mutex;
      var w := Waiters(s, m);
      if t in w {
        WithoutMembers(w, t);
        assert Ordered(s, m);
        forall k ensures Waiters(r, k) == (if k == m then Without(w, t) else Waiters(s, k)) &&
          Guarded(r, k) == if k == m then Guarded(s, m) - {t} else Guarded(s, k) { }
        forall u ensures Prio(r, u) == Prio(s, u) && KeyOf(r, u) == KeyOf(s, u) &&
          PcOf(r, u) == PcOf(s, u) && Held(r, u) == Held(s, u) { }
        WithoutOrdered(s, w, t);
        hide Waiters, Guarded, Prio, KeyOf, PcOf, Held, Without, Lists, Ordered, NoDup, Expire;
        QueuesFrame(s, r, m, Without(w, t));
      }
    }
  }

  lemma WithoutOrdered(s: State, w: seq<Task>, t: Task)
    requires t in w && forall i, j :: 0 <= i < j < |w| ==> KeyOf(s, w[i]) <= KeyOf(s, w[j])
    ensures var v := Without(w, t); forall i, j :: 0 <= i < j < |v| ==> KeyOf(s, v[i]) <= KeyOf(s, v[j])
  {
    var v := Without(w, t);
    var k := IndexOf(w, t);
    forall i | 0 <= i < |v| ensures v[i] == w[if i < k then i else i + 1] { }
    hide KeyOf, Without;
  }

  /** A move that changes no list, priority or holding. */
  lemma PlainSafe(s: State, r: State, t: Task, p: Pc)
    requires Safe(s) && r == s.(pc := s.pc[t := p], inherited := r.inherited, stale := r.stale)
    requires forall u :: u in r.inherited && PcOf(r, u) != Idle ==> u in s.inherited && (u == t ==> PcOf(s, t) != Idle)
    requires forall u :: PcOf(r, u).Late? ==> u in r.inherited
    ensures Safe(r)
  {
    assert Ordered(s, 0);
    forall k ensures Waiters(r, k) == Waiters(s, k) && Guarded(r, k) == Guarded(s, k) { }
    forall u ensures Prio(r, u) == Prio(s, u) && KeyOf(r, u) == KeyOf(s, u) && Held(r, u) == Held(s, u) &&
      PcOf(r, u) == (if u == t then p else PcOf(s, u)) { }
    hide Waiters, Guarded, Prio, KeyOf, PcOf, Held;
    QueuesFrame(s, r, 0, Waiters(s, 0));
  }

  lemma SetSafe(s: State, t: Task, requested: nat)
    requires Books(s) && Safe(s) && Disciplined(s, Reprioritise(t, requested))
    ensures Safe(SetPriority(s, t, requested))
  {
    var r := SetPriority(s, t, requested);
    assert Ordered(s, 0);
    SetViews(s, t, requested);
    HarmlessCovers(s, t, requested);
    hide Waiters, Guarded, Prio, KeyOf, PcOf, Held, Books, SetPriority, Clamped, Base, Protected;
    assert r.inherited == s.inherited && r.selfWait == s.selfWait by { SetFrame(s, t, requested); }
    QueuesFrame(s, r, 0, Waiters(s, 0));
  }

  lemma SetViews(s: State, t: Task, requested: nat)
    ensures var r := SetPriority(s, t, requested);
      && (forall k :: Waiters(r, k) == Waiters(s, k) && Guarded(r, k) == Guarded(s, k))
      && (forall u :: Held(r, u) == Held(s, u) && PcOf(r, u) == PcOf(s, u))
      && (forall u :: u != t ==> Prio(r, u) == Prio(s, u) && KeyOf(r, u) == KeyOf(s, u))
  {
  }

  lemma SetFrame(s: State, t: Task, requested: nat)
    ensures var r := SetPriority(s, t, requested);
      r == s.(prio := r.prio, base := r.base, key := r.key)
  {
  }

  /** A new priority for t covers whom t keeps waiting and is covered by whom t waits for. */
  ghost predicate Covered(s: State, t: Task, p: Level) {
    && (forall m, w :: m in s.holder && s.holder[m] == t && w in Guarded(s, m) && w != t ==> Prio(s, w) <= p)
    && (forall m :: m in s.holder && t in Guarded(s, m) && s.holder[m] != t ==> Prio(s, s.holder[m]) >= p)
  }

  /** In any state in which no holder is below a task it keeps waiting: vTaskPrioritySet keeps it so
      exactly when the task runs on an inherited priority or already has the new one, or the new one
      is no lower than those of the tasks it keeps waiting and no higher than those of the holders it
      waits for. */
  lemma SetPriorityExact(s: State, t: Task, requested: nat)
    requires Protected(s)
    ensures Protected(SetPriority(s, t, requested)) <==>
      (Prio(s, t) == Base(s, t) != Clamped(requested) ==> Covered(s, t, Clamped(requested)))
  {
    var r := SetPriority(s, t, requested);
    var p := Clamped(requested);
    SetFrame(s, t, requested);
    forall u | u != t ensures Prio(r, u) == Prio(s, u) { }
    assert Prio(r, t) == if Prio(s, t) == Base(s, t) != p then p else Prio(s, t);
    forall k ensures Guarded(r, k) == Guarded(s, k) { }
    hide SetPriority, Prio, Base, Guarded, Clamped;
    if Protected(r) && Prio(s, t) == Base(s, t) != p {
      forall m, w | m in s.holder && s.holder[m] == t && w in Guarded(s, m) && w != t ensures Prio(s, w) <= p {
        assert m in r.holder && w in Guarded(r, m);
      }
      forall m | m in s.holder && t in Guarded(s, m) && s.holder[m] != t ensures Prio(s, s.holder[m]) >= p {
        assert m in r.holder && t in Guarded(r, m);
      }
    }
  }

  lemma HarmlessCovers(s: State, t: Task, requested: nat)
    requires Safe(s) && (forall m :: t !in Waiters(s, m)) && Harmless(s, t, requested)
    ensures Protected(SetPriority(s, t, requested))
  {
    forall m, w | w in Guarded(s, m) ensures w != t { assert w in Waiters(s, m); }
    hide Guarded, Waiters, SetPriority, Prio, Base;
    SetPriorityExact(s, t, requested);
  }

  // ----- blocking

  lemma InheritFrame(s: State, m: Mutex, t: Task)
    ensures var r := Inherit(s, m, t);
      && r == s.(prio := r.prio, key := r.key)
      && (forall u :: !(m in s.holder && u == s.holder[m]) ==> Prio(r, u) == Prio(s, u) && KeyOf(r, u) == KeyOf(s, u))
      && (forall u :: Prio(r, u) >= Prio(s, u))
      && (m in s.holder ==> Prio(r, s.holder[m]) >= Prio(s, t))
  {
  }

  /** vListInsert keeps the list in key order. */
  lemma PlacedOrdered(s: State, t: Task, m: Mutex)
    requires Ordered(s, m)
    ensures var v := Placed(s, t, m); forall i, j :: 0 <= i < j < |v| ==> KeyOf(s, v[i]) <= KeyOf(s, v[j])
    ensures forall u :: u in Placed(s, t, m) <==> u == t || u in Waiters(s, m)
  {
    var w := Waiters(s, m);
    var vals := Keys(s, w);
    var k := InsertPos(vals, KeyOf(s, t));
    assert Placed(s, t, m) == Splice(w, k, t);
    hide InsertPos, Keys, KeyOf, Waiters, Placed;
    SpliceMembers(w, k, t);
    InsertPosSorted(vals, KeyOf(s, t));
    SplicedKeys(s, w, k, t);
  }

  lemma SplicedKeys(s: State, w: seq<Task>, k: nat, t: Task)
    requires k <= |w| && Sorted(Splice(Keys(s, w), k, KeyOf(s, t)))
    ensures var v := Splice(w, k, t); forall i, j :: 0 <= i < j < |v| ==> KeyOf(s, v[i]) <= KeyOf(s, v[j])
  {
    hide KeyOf;
    var v := Splice(w, k, t);
    forall i | 0 <= i < |v| ensures KeyOf(s, v[i]) == Splice(Keys(s, w), k, KeyOf(s, t))[i] { }
    hide Splice;
  }

  lemma OrderedFrame(s: State, r: State, m: Mutex)
    requires Ordered(s, m) && Waiters(r, m) == Waiters(s, m)
    requires forall u :: u in Waiters(s, m) ==> KeyOf(r, u) == KeyOf(s, u)
    ensures Ordered(r, m)
  {
    hide Waiters, KeyOf;
  }

  /** The lists and the guard as functions, after Block. */
  lemma BlockViews(s: State, t: Task, m: Mutex)
    ensures var r := Block(s, t, m);
      var s1 := Inherit(s, m, t);
      && (forall k :: Waiters(r, k) == if k == m then Placed(s1, t, m) else Waiters(s, k))
      && (forall k :: Guarded(r, k) == if k == m then Guarded(s, m) + {t} else Guarded(s, k))
      && (forall u :: KeyOf(r, u) == KeyOf(s1, u) && Prio(r, u) == Prio(s1, u) && Held(r, u) == Held(s, u))
      && (forall u :: PcOf(r, u) == if u == t then Waiting(m) else PcOf(s, u))
  {
    BlockFrame(s, t, m);
    hide Block, Inherit, Placed;
  }

  /** Inheritance changes the holder alone, and the holder waits for nothing. */
  lemma InheritWaiters(s: State, t: Task, m: Mutex)
    requires Books(s) && Queues(s) && m in s.holder
    ensures var s1 := Inherit(s, m, t);
      forall k :: Waiters(s1, k) == Waiters(s, k) && forall u :: u in Waiters(s, k) ==> KeyOf(s1, u) == KeyOf(s, u)
  {
    var s1 := Inherit(s, m, t);
    var h := s.holder[m];
    HolderHolds(s, m);
    InheritFrame(s, m, t);
    forall k ensures Waiters(s1, k) == Waiters(s, k) { }
    hide Waiters, Prio, KeyOf, Held, Books, Inherit;
    forall k, u | u in Waiters(s, k) ensures KeyOf(s1, u) == KeyOf(s, u) { HolderWaitsNot(s, h, k); }
  }

  lemma PlacedHolds(s: State, t: Task, m: Mutex)
    ensures forall u :: u in Placed(s, t, m) <==> u == t || u in Waiters(s, m)
  {
    hide InsertPos, Keys, KeyOf, Waiters, Splice;
    SpliceMembers(Waiters(s, m), InsertPos(Keys(s, Waiters(s, m)), KeyOf(s, t)), t);
  }

  lemma BlockQueues(s: State, t: Task, m: Mutex)
    requires Books(s) && Queues(s) && PcOf(s, t) == Asked(m) && Held(s, t) == 0 && m in s.holder
    ensures Queues(Block(s, t, m))
  {
    BlockInOrder(s, t, m);
    var s1 := Inherit(s, m, t);
    PlacedHolds(s1, t, m);
    InheritWaiters(s, t, m);
    BlockViews(s, t, m);
    hide Waiters, Guarded, Prio, KeyOf, PcOf, Held, Books, Placed, Inherit, Block, Ordered;
  }

  lemma BlockInOrder(s: State, t: Task, m: Mutex)
    requires Books(s) && Queues(s) && m in s.holder
    ensures forall k :: Ordered(Block(s, t, m), k)
  {
    var r := Block(s, t, m);
    var s1 := Inherit(s, m, t);
    InheritWaiters(s, t, m);
    BlockViews(s, t, m);
    hide Waiters, Guarded, Prio, KeyOf, PcOf, Held, Books, Placed, Inherit, Block, Ordered;
    forall k ensures Ordered(r, k) {
      assert Ordered(s, k);
      if k == m {
        OrderedFrame(s, s1, m);
        PlacedOrdered(s1, t, m);
        PlacedInOrder(r, s1, t, m);
      } else {
        OrderedFrame(s, r, k);
      }
    }
  }

  lemma PlacedInOrder(r: State, s1: State, t: Task, m: Mutex)
    requires Waiters(r, m) == Placed(s1, t, m) && forall u :: KeyOf(r, u) == KeyOf(s1, u)
    requires var v := Placed(s1, t, m); forall i, j :: 0 <= i < j < |v| ==> KeyOf(s1, v[i]) <= KeyOf(s1, v[j])
    ensures Ordered(r, m)
  {
    hide Waiters, KeyOf, Placed;
  }

  lemma BlockProtects(s: State, t: Task, m: Mutex)
    requires Books(s) && Safe(s) && PcOf(s, t) == Asked(m) && Held(s, t) == 0 && m in s.holder
    ensures Protected(Block(s, t, m))
  {
    var r := Block(s, t, m);
    var h := s.holder[m];
    HolderHolds(s, m);
    InheritFrame(s, m, t);
    BlockViews(s, t, m);
    BlockFrame(s, t, m);
    hide Guarded, Prio, KeyOf, PcOf, Held, Books, Inherit, Block, Waiters, Ordered;
    forall k, w | k in r.holder && w in Guarded(r, k) ensures Prio(r, r.holder[k]) >= Prio(r, w) {
      if w in Guarded(s, k) {
        assert w in Waiters(s, k);
        HolderWaitsNot(s, h, k);
      } else {
        assert w == t && k == m;
      }
    }
  }

  lemma BlockSafe(s: State, t: Task, m: Mutex)
    requires Books(s) && Safe(s) && PcOf(s, t) == Asked(m) && Held(s, t) == 0 && m in s.holder
    ensures Safe(Block(s, t, m))
  {
    BlockQueues(s, t, m);
    BlockProtects(s, t, m);
    BlockViews(s, t, m);
    BlockFrame(s, t, m);
    hide Guarded, Prio, KeyOf, PcOf, Held, Books, Inherit, Block, Waiters, Queues, Protected;
  }

  // ----- giving up

  /** The head of an ordered list has the highest priority of those that wait. */
  lemma HighestCovers(s: State, m: Mutex, w: Task)
    requires Levels(s) && Queues(s) && w in Waiters(s, m)
    ensures HighestWaiting(s, m) >= Prio(s, w)
  {
    var i :| 0 <= i < |Waiters(s, m)| && Waiters(s, m)[i] == w;
    assert Ordered(s, m);
    assert KeyOf(s, Waiters(s, m)[0]) <= KeyOf(s, w);
    assert Held(s, w) == 0;
  }

  lemma LateFrame(s: State, t: Task, m: Mutex)
    requires PcOf(s, t) == Late(m)
    ensures var r := Turn(s, t, false);
      var highest := HighestWaiting(s, m);
      && r == s.(pc := s.pc[t := Idle], prio := r.prio, key := r.key, selfWait := r.selfWait)
      && (forall u :: !(FallsBack(s, m, highest) && u == s.holder[m]) ==>
        Prio(r, u) == Prio(s, u) && KeyOf(r, u) == KeyOf(s, u))
      && (FallsBack(s, m, highest) ==> Prio(r, s.holder[m]) >= highest)
      && (r.selfWait ==> s.selfWait || (m in s.holder && s.holder[m] == t))
  {
    var g := Goto(s, t, Idle);
    var highest := HighestWaiting(s, m);
    assert Turn(s, t, false) == DisinheritAfterTimeout(g, m, highest, t);
    assert FallsBack(g, m, highest) == FallsBack(s, m, highest);
    hide Turn, HighestWaiting, PcOf;
    AfterTimeoutFrame(g, m, highest, t);
    assert forall u :: Prio(g, u) == Prio(s, u) && KeyOf(g, u) == KeyOf(s, u);
    hide DisinheritAfterTimeout, FallsBack, Prio, KeyOf;
  }

  lemma AfterTimeoutFrame(s: State, m: Mutex, highest: Level, t: Task)
    ensures var r := DisinheritAfterTimeout(s, m, highest, t);
      && r == s.(prio := r.prio, key := r.key, selfWait := r.selfWait)
      && (forall u :: !(FallsBack(s, m, highest) && u == s.holder[m]) ==>
        Prio(r, u) == Prio(s, u) && KeyOf(r, u) == KeyOf(s, u))
      && (FallsBack(s, m, highest) ==> Prio(r, s.holder[m]) >= highest)
      && (r.selfWait ==> s.selfWait || (m in s.holder && s.holder[m] == t))
  {
  }

  lemma LateSafe(s: State, t: Task, m: Mutex)
    requires Books(s) && Safe(s) && PcOf(s, t) == Late(m)
    ensures Safe(Turn(s, t, false))
  {
    var r := Turn(s, t, false);
    var highest := HighestWaiting(s, m);
    LateFrame(s, t, m);
    assert t in s.inherited && Held(s, t) == 0;
    if m in s.holder { HolderHolds(s, m); }
    LateProtects(s, r, m, highest);
    forall k ensures Waiters(r, k) == Waiters(s, k) && Guarded(r, k) == Guarded(s, k) { }
    forall u ensures Held(r, u) == Held(s, u) && PcOf(r, u) == if u == t then Idle else PcOf(s, u) { }
    assert Ordered(s, 0);
    forall k, u | u in Waiters(s, k) ensures KeyOf(r, u) == KeyOf(s, u) {
      if m in s.holder { HolderWaitsNot(s, s.holder[m], k); }
    }
    hide Waiters, Guarded, Prio, KeyOf, PcOf, Held, Books, Turn, HighestWaiting, FallsBack, Protected;
    QueuesFrame(s, r, 0, Waiters(s, 0));
  }

  lemma LateProtects(s: State, r: State, m: Mutex, highest: Level)
    requires Books(s) && Safe(s) && highest == HighestWaiting(s, m)
    requires r.holder == s.holder && r.guarded == s.guarded
    requires forall u :: !(FallsBack(s, m, highest) && u == s.holder[m]) ==> Prio(r, u) == Prio(s, u)
    requires FallsBack(s, m, highest) ==> Prio(r, s.holder[m]) >= highest
    ensures Protected(r)
  {
    forall k, w | k in r.holder && w in Guarded(r, k) ensures Prio(r, r.holder[k]) >= Prio(r, w) {
      assert w in Guarded(s, k) && w in Waiters(s, k);
      var h := s.holder[k];
      HolderHolds(s, k);
      if FallsBack(s, m, highest) {
        HolderHolds(s, m);
        HolderWaitsNot(s, s.holder[m], k);
        if h == s.holder[m] {
          HoldsOne(s, m, k);
          HighestCovers(s, m, w);
        }
      }
    }
  }

  // ----- every disciplined step, every disciplined run

  lemma DepthSafe(s: State, r: State)
    requires Safe(s) && r == s.(depth := r.depth)
    ensures Safe(r)
  {
    assert Ordered(s, 0);
    forall k ensures Waiters(r, k) == Waiters(s, k) && Guarded(r, k) == Guarded(s, k) { }
    forall u ensures Prio(r, u) == Prio(s, u) && KeyOf(r, u) == KeyOf(s, u) &&
      Held(r, u) == Held(s, u) && PcOf(r, u) == PcOf(s, u) { }
    hide Waiters, Guarded, Prio, KeyOf, PcOf, Held;
    QueuesFrame(s, r, 0, Waiters(s, 0));
  }

  lemma PlainTurnSafe(s: State, t: Task, expired: bool)
    requires Books(s) && Safe(s) && !Takes(s, t) && !Blocks(s, t, expired) && !PcOf(s, t).Late?
    ensures Safe(Turn(s, t, expired))
  {
    var r := Turn(s, t, expired);
    var p := NextPc(s, t, expired);
    forall u ensures PcOf(r, u) == if u == t then p else PcOf(s, u) { }
    assert p != Idle ==> PcOf(s, t) != Idle;
    assert p.Late? ==> t in s.inherited;
    hide Books, Waiters, PcOf, NextPc, Queues, Protected;
    PlainSafe(s, r, t, p);
  }

  lemma TurnSafe(s: State, t: Task, expired: bool)
    requires Books(s) && Safe(s) && Disciplined(s, Move(t, expired))
    ensures Safe(Turn(s, t, expired))
  {
    if Blocks(s, t, expired) { assert PcOf(s, t).mutex in s.holder; }
    hide Books, Safe, Take, Block, DisinheritAfterTimeout, Waiters, HighestWaiting, NextPc;
    if Takes(s, t) {
      TakeSafe(s, t, PcOf(s, t).mutex);
    } else if Blocks(s, t, expired) {
      BlockSafe(s, t, PcOf(s, t).mutex);
    } else if PcOf(s, t).Late? {
      LateSafe(s, t, PcOf(s, t).mutex);
    } else {
      PlainTurnSafe(s, t, expired);
    }
  }

  lemma UnnestSafe(s: State, t: Task, m: Mutex)
    requires Books(s) && Safe(s) && m in s.holder && s.holder[m] == t && Depth(s, m) > 0 && PcOf(s, t) == Idle
    ensures Safe(Apply(s, Unnest(t, m)))
  {
    var s1 := s.(depth := s.depth[m := Depth(s, m) - 1]);
    hide Safe, Levels, Depths, Counts, Lists;
    DepthSafe(s, s1);
    if Depth(s, m) == 1 {
      SameCounts(s, s1);
      ShorterLists(s, s1, 0, []);
      assert PcOf(s1, t) == PcOf(s, t);
      hide Give, PcOf;
      GiveSafe(s1, t, m);
    }
  }

  lemma StartSafe(s: State, t: Task, m: Mutex)
    requires Safe(s) && PcOf(s, t) == Idle
    ensures Safe(Apply(s, Start(t, m)))
  {
    var r := Apply(s, Start(t, m));
    forall u ensures PcOf(r, u) == if u == t then Trying(m) else PcOf(s, u) { }
    hide Queues, Protected, PcOf;
    PlainSafe(s, r, t, Trying(m));
  }

  lemma StepSafe(s: State, a: Step)
    requires Books(s) && Safe(s) && Legal(s, a) && Disciplined(s, a)
    ensures Safe(Apply(s, a))
  {
    assert Counts(s) && Lists(s);
    hide Books, Safe, Take, Turn, Give, Expire, SetPriority, Counts, Lists;
    match a
    case Start(t, m) => StartSafe(s, t, m);
    case TryOnce(t, m) => if m !in s.taken { TakeSafe(s, t, m); }
    case Move(t, expired) => TurnSafe(s, t, expired);
    case GiveBack(t, m) => GiveSafe(s, t, m);
    case Nest(t, m) => if m in s.holder && s.holder[m] == t { DepthSafe(s, Apply(s, a)); }
    case Unnest(t, m) => if m in s.holder && s.holder[m] == t && Depth(s, m) > 0 { UnnestSafe(s, t, m); }
    case TickExpires(t) => ExpireSafe(s, t);
    case Reprioritise(t, p) => SetSafe(s, t, p);
  }

  ghost predicate DisciplinedRun(s: State, steps: seq<Step>)
    decreases |steps|
  {
    steps != [] ==>
      Legal(s, steps[0]) && Disciplined(s, steps[0]) && DisciplinedRun(Apply(s, steps[0]), steps[1..])
  }

  lemma {:induction false} RunSafe(s: State, steps: seq<Step>)
    requires Books(s) && Safe(s) && DisciplinedRun(s, steps)
    ensures Books(Final(s, steps)) && Safe(Final(s, steps))
    decreases |steps|
  {
    if steps != [] {
      StepBooks(s, steps[0]);
      StepSafe(s, steps[0]);
      hide Books, Safe, Apply, Legal, Disciplined;
      RunSafe(Apply(s, steps[0]), steps[1..]);
    }
  }

  /** Priority inheritance, over every disciplined run: a task that has blocked on a mutex is
      never above the mutex's holder, through timeouts, priority changes, other mutexes and gives
      in any order; and no task ever disinherits from itself. */
  lemma HolderNeverBelow(s: State, steps: seq<Step>, m: Mutex, w: Task)
    requires Initial(s) && DisciplinedRun(s, steps)
    ensures var r := Final(s, steps);
      && !r.selfWait
      && (w in Guarded(r, m) ==> w in Waiters(r, m) && Held(r, w) == 0)
      && (m in r.holder && w in Guarded(r, m) ==> Prio(r, r.holder[m]) >= Prio(r, w))
  {
    InitialBooks(s);
    assert Safe(s);
    RunSafe(s, steps);
  }
}
