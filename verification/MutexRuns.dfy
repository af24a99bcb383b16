/** Runs of tasks over mutexes: the books balance in every run, and under the discipline the
    inheritance scheme assumes, a holder never runs below a task it keeps waiting. */
module MutexRuns {
  import opened Rings
  import opened Mutexes

  function HeldBy(holder: map<Mutex, Task>, t: Task): set<Mutex> {
    set m | m in holder && holder[m] == t
  }

  function Holding(s: State, t: Task): set<Mutex> {
    HeldBy(s.holder, t)
  }

  // ----- what every run keeps

  ghost predicate Counts(s: State) {
    && (forall m :: m in s.taken <==> m in s.holder)
    && (forall t :: Held(s, t) == |Holding(s, t)|)
  }

  /** Only a holder has an inherited priority; an uninherited priority shows in the event item. */
  ghost predicate Levels(s: State) {
    && (forall t :: Held(s, t) == 0 ==> Prio(s, t) == Base(s, t))
    && (forall t :: Prio(s, t) == Base(s, t) ==> KeyOf(s, t) == KeyFor(Prio(s, t)))
  }

  ghost predicate Depths(s: State) {
    forall m :: m in s.recursive ==> (m in s.holder <==> Depth(s, m) > 0)
  }

  ghost predicate Lists(s: State) {
    && (forall m, t :: t in Waiters(s, m) ==> PcOf(s, t) == Waiting(m))
    && (forall m :: NoDup(Waiters(s, m)))
  }

  ghost predicate Books(s: State) {
    Counts(s) && Levels(s) && Depths(s) && Lists(s)
  }

  /** Every task with its own priority, every mutex free. */
  ghost predicate Initial(s: State) {
    && s.prio == s.base && s.held == map[] && s.taken == {} && s.holder == map[] && s.waiters == map[]
    && s.depth == map[] && s.pc == map[] && s.inherited == {} && s.guarded == map[] && !s.selfWait && !s.stale
    && (forall t :: KeyOf(s, t) == KeyFor(Prio(s, t)))
  }

  lemma InitialBooks(s: State)
    requires Initial(s)
    ensures Books(s)
  {
    forall t ensures Holding(s, t) == {} { }
  }

  // ----- counting held mutexes

  lemma HolderHolds(s: State, m: Mutex)
    requires Counts(s) && m in s.holder
    ensures Held(s, s.holder[m]) > 0
  {
    assert m in Holding(s, s.holder[m]);
  }

  /** With a count of one, two mutexes of the same holder are the same. */
  lemma HoldsOne(s: State, m: Mutex, k: Mutex)
    requires Counts(s) && m in s.holder && k in s.holder && s.holder[m] == s.holder[k] && Held(s, s.holder[m]) == 1
    ensures m == k
  {
    var h := s.holder[m];
    if m != k {
      assert {m, k} <= Holding(s, h);
      assert |{m, k}| == 2;
      Subset({m, k}, Holding(s, h));
    }
  }

  lemma Subset(a: set<Mutex>, b: set<Mutex>)
    requires a <= b
    ensures |a| <= |b|
  {
    assert b == a + (b - a);
  }

  lemma HeldByTake(holder: map<Mutex, Task>, m: Mutex, t: Task, u: Task)
    requires m !in holder
    ensures |HeldBy(holder[m := t], u)| == |HeldBy(holder, u)| + if u == t then 1 else 0
  {
    if u == t {
      assert HeldBy(holder[m := t], u) == HeldBy(holder, u) + {m};
    } else {
      assert HeldBy(holder[m := t], u) == HeldBy(holder, u);
    }
  }

  lemma HeldByGive(holder: map<Mutex, Task>, m: Mutex, u: Task)
    requires m in holder
    ensures |HeldBy(holder - {m}, u)| == |HeldBy(holder, u)| - if u == holder[m] then 1 else 0
  {
    if u == holder[m] {
      assert HeldBy(holder, u) == HeldBy(holder - {m}, u) + {m};
    } else {
      assert HeldBy(holder - {m}, u) == HeldBy(holder, u);
    }
  }

  lemma TakeCounts(s: State, t: Task, m: Mutex)
    requires Counts(s) && m !in s.taken
    ensures Counts(Take(s, t, m))
  {
    var r := Take(s, t, m);
    forall u ensures Held(r, u) == |Holding(r, u)| {
      assert Held(s, u) == |Holding(s, u)|;
      HeldByTake(s.holder, m, t, u);
      hide HeldBy;
    }
  }

  /** What giving back changes besides the waiting list. */
  lemma GiveFrame(s: State, t: Task, m: Mutex)
    ensures var r := Give(s, t, m);
      && r.taken == s.taken - {m} && r.holder == s.holder - {m} && r.pc == s.pc && r.depth == s.depth
      && r.held == s.held[t := if Held(s, t) > 0 then Held(s, t) - 1 else 0] && r.base == s.base
      && r.recursive == s.recursive && r.inherited == s.inherited && r.selfWait == s.selfWait && r.stale == s.stale
      && r.guarded == s.guarded[m := {}] && r.prio == Disinherit(s, t).prio && r.key == Disinherit(s, t).key
      && r.waiters == (if Waiters(s, m) == [] then s.waiters else s.waiters[m := Waiters(s, m)[1..]])
  {
  }

  lemma GiveCounts(s: State, t: Task, m: Mutex)
    requires Counts(s) && m in s.holder && s.holder[m] == t
    ensures Counts(Give(s, t, m))
  {
    var r := Give(s, t, m);
    HolderHolds(s, m);
    GiveFrame(s, t, m);
    hide Give, Disinherit, HeldBy, Waiters;
    forall u ensures Held(r, u) == |Holding(r, u)| {
      assert Held(s, u) == |Holding(s, u)|;
      HeldByGive(s.holder, m, u);
    }
  }

  /** Who holds what is untouched. */
  lemma SameCounts(s: State, r: State)
    requires Counts(s) && r.taken == s.taken && r.holder == s.holder && r.held == s.held
    ensures Counts(r)
  {
    forall u ensures Held(r, u) == |Holding(r, u)| {
      assert Held(s, u) == |Holding(s, u)| && Holding(r, u) == Holding(s, u);
    }
  }

  // ----- one step keeps the books

  lemma NotListed(s: State, t: Task)
    requires Lists(s) && !PcOf(s, t).Waiting?
    ensures forall m :: t !in Waiters(s, m)
  {
  }

  /** Moving a task that is on no list, or taking it off the one it is on. */
  lemma MoveLists(s: State, r: State, t: Task, p: Pc)
    requires Lists(s) && r.pc == s.pc[t := p] && r.waiters == s.waiters
    requires p == PcOf(s, t) || forall m :: t !in Waiters(s, m)
    ensures Lists(r)
  {
    forall u ensures PcOf(r, u) == if u == t then p else PcOf(s, u) { }
    forall m ensures Waiters(r, m) == Waiters(s, m) { }
    hide PcOf, Waiters, NoDup;
  }

  lemma TakeLevels(s: State, t: Task, m: Mutex)
    requires Levels(s)
    ensures Levels(Take(s, t, m))
  {
    var r := Take(s, t, m);
    forall u ensures Prio(r, u) == Prio(s, u) && Base(r, u) == Base(s, u) && KeyOf(r, u) == KeyOf(s, u) &&
      (u == t || Held(r, u) == Held(s, u)) && Held(r, t) > 0 { }
    hide Take, Prio, Base, KeyOf, Held;
  }

  lemma TakeBooks(s: State, t: Task, m: Mutex)
    requires Books(s) && m !in s.taken && !PcOf(s, t).Waiting?
    ensures Books(Take(s, t, m))
  {
    hide Counts, Levels, Lists;
    TakeCounts(s, t, m);
    TakeLevels(s, t, m);
    NotListed(s, t);
    MoveLists(s, Take(s, t, m), t, Idle);
  }

  lemma DisinheritFrame(s: State, h: Task)
    ensures var r := Disinherit(s, h);
      && (forall u :: Base(r, u) == Base(s, u))
      && (forall u :: u != h ==> Prio(r, u) == Prio(s, u) && KeyOf(r, u) == KeyOf(s, u) && Held(r, u) == Held(s, u))
      && (Held(r, h) == 0 ==> Prio(r, h) == Base(s, h))
      && ((Prio(r, h) == Prio(s, h) && KeyOf(r, h) == KeyOf(s, h))
          || (Held(r, h) == 0 && KeyOf(r, h) == KeyFor(Prio(r, h))))
  {
  }

  lemma DisinheritLevels(s: State, t: Task)
    requires Levels(s)
    ensures Levels(Disinherit(s, t))
  {
    DisinheritFrame(s, t);
    hide Disinherit, Prio, Base, KeyOf, Held;
  }

  lemma SameLevels(s: State, r: State)
    requires Levels(s) && r.prio == s.prio && r.base == s.base && r.held == s.held && r.key == s.key
    ensures Levels(r)
  {
    forall u ensures Prio(r, u) == Prio(s, u) && Base(r, u) == Base(s, u) && KeyOf(r, u) == KeyOf(s, u) &&
      Held(r, u) == Held(s, u) { }
    hide Prio, Base, KeyOf, Held;
  }

  /** Waiting lists only get shorter. */
  lemma ShorterLists(s: State, r: State, m: Mutex, w: seq<Task>)
    requires Lists(s) && r.pc == s.pc && (r.waiters == s.waiters || r.waiters == s.waiters[m := w])
    requires NoDup(w) && forall t :: t in w ==> t in Waiters(s, m)
    ensures Lists(r)
  {
    forall u ensures PcOf(r, u) == PcOf(s, u) { }
    forall k ensures Waiters(r, k) == Waiters(s, k) || (k == m && Waiters(r, k) == w) { }
    hide PcOf, NoDup, Waiters;
  }

  lemma TailList(w: seq<Task>)
    requires NoDup(w) && w != []
    ensures NoDup(w[1..]) && forall t :: t in w[1..] ==> t in w
  {
  }

  lemma GiveLists(s: State, t: Task, m: Mutex)
    requires Lists(s)
    ensures Lists(Give(s, t, m))
  {
    var w := Waiters(s, m);
    GiveFrame(s, t, m);
    assert NoDup(w);
    hide Give, Disinherit, Lists, Waiters, NoDup;
    if w != [] {
      TailList(w);
      ShorterLists(s, Give(s, t, m), m, w[1..]);
    } else {
      ShorterLists(s, Give(s, t, m), m, w);
    }
  }

  lemma GiveBooks(s: State, t: Task, m: Mutex)
    requires Counts(s) && Levels(s) && Lists(s) && m in s.holder && s.holder[m] == t
    requires m in s.recursive ==> Depth(s, m) == 0
    requires forall k :: k in s.recursive && k != m ==> (k in s.holder <==> Depth(s, k) > 0)
    ensures Books(Give(s, t, m))
  {
    hide Counts, Levels, Lists, Waiters;
    HolderHolds(s, m);
    GiveCounts(s, t, m);
    GiveLists(s, t, m);
    DisinheritLevels(s, t);
    GiveFrame(s, t, m);
    DisinheritHeld(s, t);
    hide Give, Disinherit;
    SameLevels(Disinherit(s, t), Give(s, t, m));
    assert Depths(Give(s, t, m));
  }

  lemma DisinheritHeld(s: State, t: Task)
    ensures Disinherit(s, t).held == s.held[t := if Held(s, t) > 0 then Held(s, t) - 1 else 0]
    ensures Disinherit(s, t).base == s.base
  {
  }

  lemma BlockFrame(s: State, t: Task, m: Mutex)
    ensures var r := Block(s, t, m);
      var s1 := Inherit(s, m, t);
      && r == s.(prio := s1.prio, key := s1.key, pc := s.pc[t := Waiting(m)], inherited := r.inherited,
                 waiters := s.waiters[m := Placed(s1, t, m)], guarded := s.guarded[m := Guarded(s, m) + {t}])
      && (forall u :: u in r.inherited ==> u == t || u in s.inherited)
      && (forall u :: u in s.inherited && u != t ==> u in r.inherited)
  {
    hide Placed, Inherits, Lifts;
  }

  lemma BlockLists(s: State, t: Task, m: Mutex)
    requires Lists(s) && !PcOf(s, t).Waiting?
    ensures Lists(Block(s, t, m))
  {
    NotListed(s, t);
    hide Lists, NoDup, Block, Inherit, Placed;
    BlockFrame(s, t, m);
    PlacedLists(s, Block(s, t, m), Inherit(s, m, t), t, m);
  }

  lemma PlacedMembers(s: State, t: Task, m: Mutex)
    requires NoDup(Waiters(s, m)) && t !in Waiters(s, m)
    ensures NoDup(Placed(s, t, m)) && forall u :: u in Placed(s, t, m) <==> u == t || u in Waiters(s, m)
  {
    hide Splice, NoDup, InsertPos, Keys, Waiters;
    SpliceMembers(Waiters(s, m), InsertPos(Keys(s, Waiters(s, m)), KeyOf(s, t)), t);
  }

  lemma PlacedLists(s: State, r: State, s1: State, t: Task, m: Mutex)
    requires Lists(s) && (forall k :: t !in Waiters(s, k)) && s1.waiters == s.waiters
    requires r.pc == s.pc[t := Waiting(m)] && r.waiters == s.waiters[m := Placed(s1, t, m)]
    ensures Lists(r)
  {
    assert Waiters(s1, m) == Waiters(s, m) && NoDup(Waiters(s, m)) && t !in Waiters(s, m);
    PlacedMembers(s1, t, m);
    hide NoDup, Placed;
    forall u ensures PcOf(r, u) == if u == t then Waiting(m) else PcOf(s, u) { }
    forall j ensures Waiters(r, j) == if j == m then Placed(s1, t, m) else Waiters(s, j) { }
    hide PcOf, Waiters;
  }

  /** Somebody who holds a mutex gets another priority, shown in the event item. */
  lemma ChangedLevels(s: State, r: State, h: Task, p: Level)
    requires Levels(s) && Held(s, h) > 0 && r.held == s.held && r.base == s.base
    requires (r.prio == s.prio && r.key == s.key) || (r.prio == s.prio[h := p] && r.key == s.key[h := KeyFor(p)])
    ensures Levels(r)
  {
    forall u ensures Base(r, u) == Base(s, u) && Held(r, u) == Held(s, u) { }
    forall u ensures (Prio(r, u) == Prio(s, u) && KeyOf(r, u) == KeyOf(s, u)) ||
      (u == h && Prio(r, u) == p && KeyOf(r, u) == KeyFor(p)) { }
    hide Prio, Base, Held, KeyOf;
  }

  lemma BlockBooks(s: State, t: Task, m: Mutex)
    requires Books(s) && !PcOf(s, t).Waiting? && m in s.taken
    ensures Books(Block(s, t, m))
  {
    hide Levels, Lists, Waiters, Placed;
    var r := Block(s, t, m);
    var h := s.holder[m];
    HolderHolds(s, m);
    BlockLists(s, t, m);
    ChangedLevels(s, r, h, Prio(s, t));
    SameCounts(s, r);
    hide Counts;
  }

  lemma LateBooks(s: State, t: Task, m: Mutex)
    requires Books(s) && PcOf(s, t) == Late(m)
    ensures Books(Turn(s, t, false))
  {
    var r := Turn(s, t, false);
    NotListed(s, t);
    hide Levels, Lists, Waiters;
    if m in s.holder {
      HolderHolds(s, m);
      ChangedLevels(s, r, s.holder[m], Fallback(s, s.holder[m], HighestWaiting(s, m)));
    } else {
      SameLevels(s, r);
    }
    SameCounts(s, r);
    hide Counts;
    MoveLists(s, r, t, Idle);
  }

  lemma SetBooks(s: State, t: Task, requested: nat)
    requires Books(s)
    ensures Books(SetPriority(s, t, requested))
  {
    var r := SetPriority(s, t, requested);
    hide Counts, Lists;
    SameCounts(s, r);
    ShorterLists(s, r, 0, []);
    forall u | u != t ensures Prio(r, u) == Prio(s, u) && Base(r, u) == Base(s, u) && KeyOf(r, u) == KeyOf(s, u) { }
    forall u ensures Held(r, u) == Held(s, u) { }
    assert Held(r, t) == 0 ==> Prio(r, t) == Base(r, t);
    assert Prio(r, t) == Base(r, t) ==> KeyOf(r, t) == KeyFor(Prio(r, t));
    hide SetPriority, Prio, Base, KeyOf, Held;
  }

  /** A move that only concerns where t stands. */
  lemma PlainBooks(s: State, r: State, t: Task, p: Pc)
    requires Books(s) && (p == PcOf(s, t) || forall m :: t !in Waiters(s, m))
    requires r == s.(pc := s.pc[t := p], inherited := r.inherited, stale := r.stale)
    ensures Books(r)
  {
    hide Counts, Levels, Lists;
    SameCounts(s, r);
    SameLevels(s, r);
    MoveLists(s, r, t, p);
  }

  lemma ExpireBooks(s: State, t: Task)
    requires Books(s)
    ensures Books(Expire(s, t))
  {
    var r := Expire(s, t);
    if PcOf(s, t).Waiting? {
      var m := PcOf(s, t).mutex;
      var w := Waiters(s, m);
      if t in w {
        WithoutMembers(w, t);
        hide Counts, Levels, Lists, NoDup, Without;
        SameCounts(s, r);
        SameLevels(s, r);
        ShorterLists(s, r, m, Without(w, t));
      }
    }
  }

  lemma PlainTurnBooks(s: State, t: Task, expired: bool)
    requires Books(s) && !Takes(s, t) && !Blocks(s, t, expired) && !PcOf(s, t).Late?
    ensures Books(Turn(s, t, expired))
  {
    var p := NextPc(s, t, expired);
    if !PcOf(s, t).Waiting? {
      NotListed(s, t);
    } else if t !in Waiters(s, PcOf(s, t).mutex) {
      WaitingElsewhere(s, t, PcOf(s, t).mutex);
    } else {
      assert p == PcOf(s, t);
    }
    hide Books, NextPc, Waiters;
    PlainBooks(s, Turn(s, t, expired), t, p);
  }

  lemma TurnBooks(s: State, t: Task, expired: bool)
    requires Books(s)
    ensures Books(Turn(s, t, expired))
  {
    hide Books, Take, Block, DisinheritAfterTimeout, Waiters, HighestWaiting;
    if Takes(s, t) {
      TakeBooks(s, t, PcOf(s, t).mutex);
    } else if Blocks(s, t, expired) {
      BlockBooks(s, t, PcOf(s, t).mutex);
    } else if PcOf(s, t).Late? {
      LateBooks(s, t, PcOf(s, t).mutex);
    } else {
      PlainTurnBooks(s, t, expired);
    }
  }

  lemma WaitingElsewhere(s: State, t: Task, m: Mutex)
    requires Lists(s) && PcOf(s, t) == Waiting(m) && t !in Waiters(s, m)
    ensures forall k :: t !in Waiters(s, k)
  {
  }

  lemma DepthBooks(s: State, r: State, m: Mutex, d: nat)
    requires Books(s) && r == s.(depth := s.depth[m := d]) && m in s.holder && d > 0
    ensures Books(r)
  {
    hide Counts, Levels, Lists;
    SameCounts(s, r);
    SameLevels(s, r);
    ShorterLists(s, r, 0, []);
  }

  lemma GiveBackBooks(s: State, t: Task, m: Mutex)
    requires Books(s) && m in s.holder && s.holder[m] == t
    requires m !in s.recursive
    ensures Books(Give(s, t, m))
  {
    hide Counts, Levels, Lists;
    GiveBooks(s, t, m);
  }

  lemma UnnestBooks(s: State, t: Task, m: Mutex)
    requires Books(s) && m in s.holder && s.holder[m] == t && Depth(s, m) > 0 && m in s.recursive
    ensures Books(Apply(s, Unnest(t, m)))
  {
    var s1 := s.(depth := s.depth[m := Depth(s, m) - 1]);
    if Depth(s, m) == 1 {
      hide Counts, Levels, Lists;
      SameCounts(s, s1);
      SameLevels(s, s1);
      ShorterLists(s, s1, 0, []);
      GiveBooks(s1, t, m);
    } else {
      DepthBooks(s, s1, m, Depth(s, m) - 1);
    }
  }

  lemma StepBooks(s: State, a: Step)
    requires Books(s) && Legal(s, a)
    ensures Books(Apply(s, a))
  {
    hide Counts, Levels, Depths, Take, Turn, Give, Expire, SetPriority;
    match a
    case Start(t, m) => NotListed(s, t); PlainBooks(s, Apply(s, a), t, Trying(m));
    case TryOnce(t, m) => if m !in s.taken { TakeBooks(s, t, m); }
    case Move(t, expired) => TurnBooks(s, t, expired);
    case GiveBack(t, m) => GiveBackBooks(s, t, m);
    case Nest(t, m) => if m in s.holder && s.holder[m] == t { DepthBooks(s, Apply(s, a), m, Depth(s, m) + 1); }
    case Unnest(t, m) => if m in s.holder && s.holder[m] == t && Depth(s, m) > 0 { UnnestBooks(s, t, m); }
    case TickExpires(t) => ExpireBooks(s, t);
    case Reprioritise(t, p) => SetBooks(s, t, p);
  }

  function Final(s: State, steps: seq<Step>): State
    decreases |steps|
  {
    if steps == [] then s else Final(Apply(s, steps[0]), steps[1..])
  }

  predicate LegalRun(s: State, steps: seq<Step>)
    decreases |steps|
  {
    steps != [] ==> Legal(s, steps[0]) && LegalRun(Apply(s, steps[0]), steps[1..])
  }

  /** In every run: uxMutexesHeld counts the mutexes held, a mutex is free exactly when it has no
      holder, and a task without a mutex runs at its base priority. */
  lemma {:induction false} RunBooks(s: State, steps: seq<Step>)
    requires Books(s) && LegalRun(s, steps)
    ensures Books(Final(s, steps))
    decreases |steps|
  {
    if steps != [] {
      StepBooks(s, steps[0]);
      hide Books, Apply, Legal;
      RunBooks(Apply(s, steps[0]), steps[1..]);
    }
  }

  lemma BooksBalance(s: State, steps: seq<Step>, t: Task, m: Mutex)
    requires Initial(s) && LegalRun(s, steps)
    ensures var r := Final(s, steps);
      && Held(r, t) == |set k | k in r.holder && r.holder[k] == t|
      && (m in r.taken <==> m in r.holder)
      && (Held(r, t) == 0 ==> Prio(r, t) == Base(r, t))
      && (m in r.recursive ==> (m in r.holder <==> Depth(r, m) > 0))
  {
    InitialBooks(s);
    RunBooks(s, steps);
    var r := Final(s, steps);
    assert Held(r, t) == |Holding(r, t)|;
    assert Holding(r, t) == set k | k in r.holder && r.holder[k] == t;
  }

  lemma InheritTouches(s: State, m: Mutex, t: Task)
    ensures var r := Inherit(s, m, t); r == s.(prio := r.prio, key := r.key)
  {
  }
}
