/** Priority inheritance and mutexes as tasks.c and queue.c write them: TCB and queue fields
    changed one by one. Each method leaves exactly the state the specification in Mutexes says. */
module MutexKernels {
  import opened Rings
  import opened Mutexes
  import MutexRuns

  lemma TakeIs(s: State, r: State, t: Task, m: Mutex)
    requires r.taken == s.taken + {m} && r.held == s.held[t := Held(s, t) + 1]
    requires r.holder == s.holder[m := t] && r.pc == s.pc[t := Idle] && r.guarded == s.guarded[m := {}]
    requires r.depth == if m in s.recursive then s.depth[m := Depth(s, m) + 1] else s.depth
    requires r.prio == s.prio && r.base == s.base && r.key == s.key && r.waiters == s.waiters
    requires r.recursive == s.recursive && r.inherited == s.inherited && r.selfWait == s.selfWait && r.stale == s.stale
    ensures r == Take(s, t, m)
  {
    hide Held, Depth;
  }

  lemma SameCounts(s: State, a: State, t: Task, m: Mutex)
    requires a.held == s.held && a.depth == s.depth
    ensures Held(a, t) == Held(s, t) && Depth(a, m) == Depth(s, m)
  {
  }

  lemma SameWaiters(s: State, a: State, m: Mutex)
    requires a.waiters == s.waiters
    ensures Waiters(a, m) == Waiters(s, m)
  {
  }

  lemma BlockIs(s: State, r: State, t: Task, m: Mutex)
    requires var s1 := Inherit(s, m, t);
      && r.prio == s1.prio && r.key == s1.key && r.waiters == s.waiters[m := Placed(s1, t, m)]
    requires r.pc == s.pc[t := Waiting(m)] && r.guarded == s.guarded[m := Guarded(s, m) + {t}]
    requires r.inherited == if Inherits(s, m, t) then s.inherited + {t} else s.inherited - {t}
    requires r.base == s.base && r.held == s.held && r.taken == s.taken && r.holder == s.holder
    requires r.recursive == s.recursive && r.depth == s.depth && r.selfWait == s.selfWait && r.stale == s.stale
    ensures r == Block(s, t, m)
  {
    hide Inherit, Inherits, Placed, Guarded;
  }

  lemma GiveIs(s: State, r: State, t: Task, m: Mutex)
    requires var d := Disinherit(s, t); r.prio == d.prio && r.key == d.key && r.held == d.held
    requires r.taken == s.taken - {m} && r.holder == s.holder - {m} && r.guarded == s.guarded[m := {}]
    requires r.waiters == if Waiters(s, m) == [] then s.waiters else s.waiters[m := Waiters(s, m)[1..]]
    requires r.base == s.base && r.recursive == s.recursive && r.depth == s.depth && r.pc == s.pc
    requires r.inherited == s.inherited && r.selfWait == s.selfWait && r.stale == s.stale
    ensures r == Give(s, t, m)
  {
    hide Disinherit;
  }

  class MutexKernel {
    var prio: map<Task, Level>
    var base: map<Task, Level>
    var held: map<Task, nat>
    var key: map<Task, Key>
    var taken: set<Mutex>
    var holder: map<Mutex, Task>
    var waiters: map<Mutex, seq<Task>>
    const recursive: set<Mutex>
    var depth: map<Mutex, nat>
    var pc: map<Task, Pc>
    var inherited: set<Task>
    ghost var guarded: map<Mutex, set<Task>>
    var selfWait: bool
    var stale: bool

    ghost function View(): State
      reads this
    {
      State(prio, base, held, key, taken, holder, waiters, recursive, depth, pc, inherited, guarded, selfWait, stale)
    }

    /** Mutexes created free, each task at its own priority. */
    constructor (priorities: map<Task, Level>, recursiveMutexes: set<Mutex>)
      ensures MutexRuns.Initial(View()) && prio == priorities && recursive == recursiveMutexes
    {
      prio, base, held := priorities, priorities, map[];
      key := map t | t in priorities :: KeyFor(priorities[t]);
      taken, holder, waiters, depth, pc := {}, map[], map[], map[], map[];
      recursive, inherited, guarded := recursiveMutexes, {}, map[];
      selfWait, stale := false, false;
    }

    /** xTaskPriorityInherit. */
    method PriorityInherit(m: Mutex, caller: Task) returns (inherits: bool)
      modifies this`prio, this`key
      ensures View() == Inherit(old(View()), m, caller)
      ensures inherits <==> Inherits(old(View()), m, caller)
    {
      inherits := false;
      if m in holder {
        var h := holder[m];
        var p := if h in prio then prio[h] else 0;
        var q := if caller in prio then prio[caller] else 0;
        if p < q {
          key := key[h := KeyFor(q)];
          prio := prio[h := q];
          inherits := true;
        } else {
          var b := if h in base then base[h] else 0;
          if b < q {
            inherits := true;
          }
        }
      }
    }

    /** xTaskPriorityDisinherit by the running holder. */
    method PriorityDisinherit(h: Task) returns (yieldRequired: bool)
      requires Held(View(), h) > 0
      modifies this`prio, this`key, this`held
      ensures View() == Disinherit(old(View()), h)
      ensures yieldRequired <==> Drops(old(View()), h)
    {
      yieldRequired := false;
      var n := if h in held then held[h] else 0;
      var p := if h in prio then prio[h] else 0;
      var b := if h in base then base[h] else 0;
      held := held[h := n - 1];
      if p != b {
        if n - 1 == 0 {
          prio := prio[h := b];
          key := key[h := KeyFor(b)];
          yieldRequired := true;
        }
      }
    }

    /** prvGetDisinheritPriorityAfterTimeout. */
    method GetDisinheritPriority(m: Mutex) returns (highest: Level)
      ensures highest == HighestWaiting(View(), m)
    {
      var w := if m in waiters then waiters[m] else [];
      if |w| > 0 {
        highest := MAX_PRIORITIES - (if w[0] in key then key[w[0]] else KeyFor(0));
      } else {
        highest := 0;
      }
    }

    /** vTaskPriorityDisinheritAfterTimeout. */
    method PriorityDisinheritAfterTimeout(m: Mutex, highest: Level, caller: Task)
      modifies this`prio, this`key, this`selfWait
      ensures View() == DisinheritAfterTimeout(old(View()), m, highest, caller)
    {
      if m in holder {
        var h := holder[m];
        var b := if h in base then base[h] else 0;
        var priorityToUse := if b < highest then highest else b;
        var p := if h in prio then prio[h] else 0;
        if p != priorityToUse {
          var n := if h in held then held[h] else 0;
          if n == 1 {
            if h == caller {
              selfWait := true;
            }
            prio := prio[h := priorityToUse];
            key := key[h := KeyFor(priorityToUse)];
          }
        }
      }
    }

    /** vTaskPrioritySet. */
    method TaskPrioritySet(t: Task, requested: nat)
      modifies this`prio, this`base, this`key
      ensures View() == SetPriority(old(View()), t, requested)
    {
      var p: Level := if requested >= MAX_PRIORITIES then MAX_PRIORITIES - 1 else requested;
      var b := if t in base then base[t] else 0;
      if b != p {
        var q := if t in prio then prio[t] else 0;
        if b == q {
          prio := prio[t := p];
        }
        base := base[t := p];
        key := key[t := KeyFor(p)];
      }
    }

    /** pvTaskIncrementMutexHeldCount, and its result stored as the holder. */
    method RecordHolder(t: Task, m: Mutex)
      modifies this`held, this`holder
      ensures held == old(held)[t := Held(old(View()), t) + 1] && holder == old(holder)[m := t]
    {
      held := held[t := (if t in held then held[t] else 0) + 1];
      holder := holder[m := t];
    }

    /** xQueueTakeMutexRecursive counts the first level. */
    method EnterRecursive(m: Mutex)
      modifies this`depth
      ensures depth == if m in recursive then old(depth)[m := Depth(old(View()), m) + 1] else old(depth)
    {
      if m in recursive {
        depth := depth[m := (if m in depth then depth[m] else 0) + 1];
      }
    }

    method Record(t: Task, m: Mutex)
      modifies this`held, this`holder, this`depth
      ensures held == old(held)[t := Held(old(View()), t) + 1] && holder == old(holder)[m := t]
      ensures depth == if m in recursive then old(depth)[m := Depth(old(View()), m) + 1] else old(depth)
    {
      RecordHolder(t, m);
      EnterRecursive(m);
    }

    method NoteTaken(t: Task, m: Mutex)
      modifies this`pc, this`guarded
      ensures pc == old(pc)[t := Idle] && guarded == old(guarded)[m := {}]
    {
      pc := pc[t := Idle];
      guarded := guarded[m := {}];
    }

    /** The critical section of xQueueSemaphoreTake that takes a free mutex. */
    method TakeFree(t: Task, m: Mutex)
      requires m !in View().taken
      modifies this
      ensures View() == Take(old(View()), t, m)
    {
      ghost var s := View();
      hide Take, Held, Depth;
      taken := taken + {m};
      SameCounts(s, View(), t, m);
      Record(t, m);
      NoteTaken(t, m);
      TakeIs(s, View(), t, m);
    }

    /** The scan of vListInsert over the event items of w. */
    method FindPlace(w: seq<Task>, v: Key) returns (k: nat)
      ensures k == InsertPos(Keys(View(), w), v)
    {
      ghost var vals := Keys(View(), w);
      k := 0;
      while k < |w| && (if w[k] in key then key[w[k]] else KeyFor(0)) <= v
        invariant k <= |w|
        invariant ScanPos(vals, v) == k + ScanPos(vals[k..], v)
      {
        assert vals[k] == KeyOf(View(), w[k]);
        assert vals[k..][1..] == vals[k + 1..];
        k := k + 1;
      }
      assert k < |w| ==> vals[k] == KeyOf(View(), w[k]);
    }

    /** vListInsert by event item value. */
    method InsertByKey(m: Mutex, t: Task)
      modifies this`waiters
      ensures waiters == old(waiters)[m := Placed(old(View()), t, m)]
    {
      hide InsertPos, Keys;
      var w := if m in waiters then waiters[m] else [];
      var k := FindPlace(w, if t in key then key[t] else KeyFor(0));
      waiters := waiters[m := w[..k] + [t] + w[k..]];
    }

    /** The blocking part of xQueueSemaphoreTake, with the scheduler suspended. */
    method BlockOnMutex(t: Task, m: Mutex)
      modifies this
      ensures View() == Block(old(View()), t, m)
    {
      ghost var s := View();
      ghost var s1 := Inherit(s, m, t);
      MutexRuns.InheritTouches(s, m, t);
      hide Inherit, Inherits, Placed, Block;
      var inherits := PriorityInherit(m, t);
      InsertByKey(m, t);
      NoteBlocked(t, m, inherits);
      BlockIs(s, View(), t, m);
    }

    method NoteBlocked(t: Task, m: Mutex, inherits: bool)
      modifies this`pc, this`inherited, this`guarded
      ensures pc == old(pc)[t := Waiting(m)] && guarded == old(guarded)[m := Guarded(old(View()), m) + {t}]
      ensures inherited == if inherits then old(inherited) + {t} else old(inherited) - {t}
    {
      if inherits {
        inherited := inherited + {t};
      } else {
        inherited := inherited - {t};
      }
      pc := pc[t := Waiting(m)];
      guarded := guarded[m := (if m in guarded then guarded[m] else {}) + {t}];
    }

    /** prvCopyDataToQueue on a mutex: nobody holds it any more. */
    method Release(t: Task, m: Mutex) returns (yieldRequired: bool)
      requires Held(View(), t) > 0
      modifies this`prio, this`key, this`held, this`holder, this`taken
      ensures var d := Disinherit(old(View()), t);
        prio == d.prio && key == d.key && held == d.held && holder == old(holder) - {m} && taken == old(taken) - {m}
    {
      ghost var d := Disinherit(View(), t);
      hide Disinherit;
      yieldRequired := PriorityDisinherit(t);
      assert prio == d.prio && key == d.key && held == d.held;
      holder := holder - {m};
      taken := taken - {m};
    }

    method WakeFirst(m: Mutex) returns (woken: bool)
      modifies this`waiters, this`guarded
      ensures var w := Waiters(old(View()), m);
        waiters == if w == [] then old(waiters) else old(waiters)[m := w[1..]]
      ensures guarded == old(guarded)[m := {}]
    {
      var w := if m in waiters then waiters[m] else [];
      woken := |w| > 0;
      if woken {
        waiters := waiters[m := w[1..]];
      }
      guarded := guarded[m := {}];
    }

    /** xQueueGenericSend on a mutex: the copy disinherits, then the first waiter is woken. */
    method GiveMutex(t: Task, m: Mutex) returns (yieldRequired: bool)
      requires m in View().holder && View().holder[m] == t && Held(View(), t) > 0
      modifies this
      ensures View() == Give(old(View()), t, m)
    {
      ghost var s := View();
      hide Disinherit, Drops, Give, Waiters;
      yieldRequired := Release(t, m);
      SameWaiters(s, View(), m);
      var woken := WakeFirst(m);
      yieldRequired := yieldRequired || woken;
      GiveIs(s, View(), t, m);
    }

    /** xQueueGiveMutexRecursive. */
    method GiveMutexRecursive(t: Task, m: Mutex) returns (given: bool)
      requires MutexRuns.Books(View()) && Legal(View(), Unnest(t, m))
      modifies this
      ensures View() == Apply(old(View()), Unnest(t, m))
      ensures given <==> m in old(holder) && old(holder)[m] == t
    {
      ghost var s := View();
      given := m in holder && holder[m] == t;
      if given {
        MutexRuns.HolderHolds(s, m);
        assert Depth(s, m) > 0;
        var d := depth[m];
        depth := depth[m := d - 1];
        assert View() == s.(depth := s.depth[m := Depth(s, m) - 1]) && Held(View(), t) == Held(s, t);
        if d - 1 == 0 {
          hide Give;
          var _ := GiveMutex(t, m);
        }
      }
    }

    /** Giving up in xQueueSemaphoreTake after a timeout with inheritance outstanding. */
    method GiveUpLate(t: Task)
      requires PcOf(View(), t).Late?
      modifies this
      ensures View() == Turn(old(View()), t, true)
    {
      ghost var s := View();
      var m := pc[t].mutex;
      var highest := GetDisinheritPriority(m);
      pc := pc[t := Idle];
      assert View() == Goto(s, t, Idle);
      hide DisinheritAfterTimeout, HighestWaiting;
      PriorityDisinheritAfterTimeout(m, highest, t);
    }
  }
}
