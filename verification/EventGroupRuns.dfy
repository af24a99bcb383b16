/** Runs of tasks over one event group: nobody is left waiting for bits that are there. */
module EventGroupRuns {
  import opened EventGroups

  datatype Step =
    | Set(bits: Bits)                                                    // xEventGroupSetBits
    | Clear(bits: Bits)                                                  // xEventGroupClearBits
    | Wait(task: Task, wanted: Bits, clearOnExit: bool, waitForAll: bool, block: bool)
    | Sync(task: Task, bits: Bits, wanted: Bits, block: bool)            // xEventGroupSync
    | Expire(task: Task)                                                 // the block time runs out
    | LateWait(wanted: Bits, clearOnExit: bool, waitForAll: bool)        // after a timeout
    | LateSync(wanted: Bits)

  function Drop(ws: seq<Waiter>, t: Task): (r: seq<Waiter>)
    ensures forall w :: w in r ==> w in ws
  {
    if ws == [] then [] else if ws[0].task == t then ws[1..] else [ws[0]] + Drop(ws[1..], t)
  }

  /** xEventGroupWaitBits up to the block. */
  function WaitBits(g: Group, t: Task, wanted: Bits, clearOnExit: bool, waitForAll: bool, block: bool): Group {
    var met := Condition(g.bits, wanted, waitForAll);
    g.(bits := if met && clearOnExit then Less(g.bits, wanted) else g.bits,
       waiting := if !met && block then g.waiting + [Waiter(t, Encode(wanted, clearOnExit, waitForAll))] else g.waiting)
  }

  /** xEventGroupSync up to the block. */
  function SyncBits(g: Group, t: Task, s: Bits, wanted: Bits, block: bool): Group {
    var r := SetBits(g, s);
    var met := Covers(Either(g.bits, s), wanted);
    r.(bits := if met then Less(r.bits, wanted) else r.bits,
       waiting := if !met && block then r.waiting + [Waiter(t, Encode(wanted, true, true))] else r.waiting)
  }

  /** What a task that timed out does when it runs again. */
  function Late(g: Group, wanted: Bits, clearOnExit: bool, waitForAll: bool): Group {
    if Condition(g.bits, wanted, waitForAll) && clearOnExit then ClearBits(g, wanted) else g
  }

  function Apply(g: Group, s: Step): Group {
    match s
    case Set(b) => SetBits(g, b)
    case Clear(b) => ClearBits(g, b)
    case Wait(t, w, c, a, block) => WaitBits(g, t, w, c, a, block)
    case Sync(t, b, w, block) => SyncBits(g, t, b, w, block)
    case Expire(t) => g.(waiting := Drop(g.waiting, t))
    case LateWait(w, c, a) => Late(g, w, c, a)
    case LateSync(w) => Late(g, w, true, true)
  }

  predicate Clean(b: Bits) {
    b & CONTROL == 0
  }

  predicate Absent(ws: seq<Waiter>, t: Task) {
    forall i :: 0 <= i < |ws| ==> ws[i].task != t
  }

  /** The assertions on the bits, and a waiting task makes no call. */
  predicate Legal(g: Group, s: Step) {
    match s
    case Set(b) => Clean(b)
    case Clear(b) => Clean(b)
    case Wait(t, w, _, _, _) => Clean(w) && w != 0 && Absent(g.waiting, t)
    case Sync(t, b, w, _) => Clean(b) && Clean(w) && w != 0 && Absent(g.waiting, t)
    case _ => true
  }

  /** No waiter whose condition holds is on the list. */
  ghost predicate NobodySatisfied(g: Group) {
    forall w :: w in g.waiting ==> !Met(w.value, g.bits)
  }

  ghost predicate Inv(g: Group) {
    NobodySatisfied(g) && DistinctTasks(g.waiting) && Clean(g.bits)
  }

  // ----- 24 bits stay 24 bits

  lemma CleanEither(a: Bits, b: Bits)
    requires Clean(a) && Clean(b)
    ensures Clean(Either(a, b))
  {
  }

  lemma CleanLess(a: Bits, b: Bits)
    requires Clean(a)
    ensures Clean(Less(a, b))
  {
  }

  // ----- every step

  lemma NotHead(ws: seq<Waiter>, w: Waiter)
    requires DistinctTasks(ws) && ws != [] && w in ws[1..]
    ensures w.task != ws[0].task
  {
    var k :| 0 <= k < |ws[1..]| && ws[1..][k] == w;
    assert ws[k + 1] == w;
  }

  lemma {:induction false} UnmetDistinct(ws: seq<Waiter>, bits: Bits)
    requires DistinctTasks(ws)
    ensures DistinctTasks(Unmet(ws, bits))
  {
    if ws != [] {
      hide Met;
      UnmetDistinct(ws[1..], bits);
      var r := Unmet(ws[1..], bits);
      forall i | 0 <= i < |r| ensures r[i].task != ws[0].task {
        assert r[i] in r;
        NotHead(ws, r[i]);
      }
    }
  }

  lemma {:induction false} DropDistinct(ws: seq<Waiter>, t: Task)
    requires DistinctTasks(ws)
    ensures DistinctTasks(Drop(ws, t))
  {
    if ws != [] && ws[0].task != t {
      DropDistinct(ws[1..], t);
      var r := Drop(ws[1..], t);
      forall i | 0 <= i < |r| ensures r[i].task != ws[0].task {
        assert r[i] in r;
        NotHead(ws, r[i]);
      }
    }
  }

  /** Fewer bits, fewer waiters: still nobody satisfied. */
  lemma FewerBits(g: Group, r: Group, c: Bits)
    requires NobodySatisfied(g) && (r.bits == g.bits || r.bits == Less(g.bits, c))
    requires forall w :: w in r.waiting ==> w in g.waiting
    ensures NobodySatisfied(r)
  {
    hide Met, Less;
    forall w | w in r.waiting ensures !Met(w.value, r.bits) { MetMonotone(w.value, g.bits, c); }
  }

  lemma SetKeeps(g: Group, s: Bits)
    requires DistinctTasks(g.waiting) && Clean(g.bits) && Clean(s)
    ensures Inv(SetBits(g, s))
    ensures forall w :: w in SetBits(g, s).waiting ==> w in g.waiting && !Met(w.value, Either(g.bits, s))
  {
    hide Met, Either, Less, ClearMask, Wake, Clean;
    var b := Either(g.bits, s);
    UnmetDistinct(g.waiting, b);
    CleanEither(g.bits, s);
    CleanLess(b, ClearMask(g.waiting, b));
    var r := SetBits(g, s);
    FewerBits(g.(bits := b, waiting := Unmet(g.waiting, b)), r, ClearMask(g.waiting, b));
  }

  lemma ClearKeeps(g: Group, c: Bits)
    requires Inv(g)
    ensures Inv(ClearBits(g, c))
  {
    hide Met, Less, Clean;
    CleanLess(g.bits, c);
    FewerBits(g, ClearBits(g, c), c);
  }

  /** A new waiter is one whose condition does not hold. */
  lemma JoinKeeps(g: Group, t: Task, wanted: Bits, clearOnExit: bool, waitForAll: bool)
    requires Inv(g) && Clean(wanted) && Absent(g.waiting, t) && !Condition(g.bits, wanted, waitForAll)
    ensures Inv(g.(waiting := g.waiting + [Waiter(t, Encode(wanted, clearOnExit, waitForAll))]))
  {
    EncodeDecodes(wanted, clearOnExit, waitForAll);
    hide Encode, Condition, Wanted, WaitsForAll, Clean;
    assert !Met(Encode(wanted, clearOnExit, waitForAll), g.bits);
    hide Met;
  }

  lemma WaitKeeps(g: Group, t: Task, wanted: Bits, clearOnExit: bool, waitForAll: bool, block: bool)
    requires Inv(g) && Clean(wanted) && Absent(g.waiting, t)
    ensures Inv(WaitBits(g, t, wanted, clearOnExit, waitForAll, block))
  {
    hide Inv, Condition, Less, Encode, Clean, Absent;
    if Condition(g.bits, wanted, waitForAll) {
      if clearOnExit { ClearKeeps(g, wanted); }
    } else if block {
      JoinKeeps(g, t, wanted, clearOnExit, waitForAll);
    }
  }

  lemma CoversLess(a: Bits, c: Bits, w: Bits)
    requires !Covers(a, w)
    ensures !Covers(Less(a, c), w)
  {
  }

  lemma SyncKeeps(g: Group, t: Task, s: Bits, wanted: Bits, block: bool)
    requires Inv(g) && Clean(s) && Clean(wanted) && Absent(g.waiting, t)
    ensures Inv(SyncBits(g, t, s, wanted, block))
  {
    hide Met, Either, Less, ClearMask, Wake, Clean, Covers, Encode, Unmet;
    SetKeeps(g, s);
    var r := SetBits(g, s);
    if Covers(Either(g.bits, s), wanted) {
      hide SetBits, Inv;
      ClearKeeps(r, wanted);
    } else if block {
      CoversLess(Either(g.bits, s), ClearMask(g.waiting, Either(g.bits, s)), wanted);
      StillAbsent(g, s, t);
      hide SetBits, Inv, Absent;
      JoinKeeps(r, t, wanted, true, true);
    }
  }

  lemma StillAbsent(g: Group, s: Bits, t: Task)
    requires Absent(g.waiting, t)
    ensures Absent(SetBits(g, s).waiting, t)
  {
    hide Met, Either, Less, ClearMask, Wake;
    var r := Unmet(g.waiting, Either(g.bits, s));
    forall i | 0 <= i < |r| ensures r[i].task != t {
      assert r[i] in g.waiting;
    }
  }

  lemma StepKeeps(g: Group, s: Step)
    requires Inv(g) && Legal(g, s)
    ensures Inv(Apply(g, s))
  {
    hide Met, Less, SetBits, ClearBits, WaitBits, SyncBits, Clean, Condition, Absent;
    match s
    case Set(b) => SetKeeps(g, b);
    case Clear(b) => ClearKeeps(g, b);
    case Wait(t, w, c, a, block) => WaitKeeps(g, t, w, c, a, block);
    case Sync(t, b, w, block) => SyncKeeps(g, t, b, w, block);
    case Expire(t) => DropDistinct(g.waiting, t);
    case LateWait(w, c, a) => ClearKeeps(g, w);
    case LateSync(w) => ClearKeeps(g, w);
  }

  function Final(g: Group, steps: seq<Step>): Group
    decreases |steps|
  {
    if steps == [] then g else Final(Apply(g, steps[0]), steps[1..])
  }

  predicate LegalRun(g: Group, steps: seq<Step>)
    decreases |steps|
  {
    steps != [] ==> Legal(g, steps[0]) && LegalRun(Apply(g, steps[0]), steps[1..])
  }

  lemma {:induction false} RunKeeps(g: Group, steps: seq<Step>)
    requires Inv(g) && LegalRun(g, steps)
    ensures Inv(Final(g, steps))
    decreases |steps|
  {
    if steps != [] {
      StepKeeps(g, steps[0]);
      hide Inv, Apply, Legal;
      RunKeeps(Apply(g, steps[0]), steps[1..]);
    }
  }

  /** In every run no waiter whose condition holds is ever left on the list, and the control bits
      never get into the event bits. */
  lemma NobodyLeftWaiting(steps: seq<Step>, w: Waiter)
    requires LegalRun(Group(0, [], map[]), steps)
    ensures var g := Final(Group(0, [], map[]), steps);
      (w in g.waiting ==> !Met(w.value, g.bits)) && g.bits & CONTROL == 0
  {
    var g0 := Group(0, [], map[]);
    assert Clean(g0.bits);
    RunKeeps(g0, steps);
  }

  /** A waiter that a later set of bits satisfies gets those very bits back, past the control
      bits and told apart from a timeout. */
  lemma WaiterGetsBits(steps: seq<Step>, s: Bits, w: Waiter)
    requires LegalRun(Group(0, [], map[]), steps) && Clean(s)
    ensures var g := Final(Group(0, [], map[]), steps);
      var b := Either(g.bits, s);
      var r := SetBits(g, s);
      w in g.waiting && Met(w.value, b) ==>
        w !in r.waiting && w.task in r.woken && Wanted(r.woken[w.task]) == b && Meets(r.woken[w.task], UNBLOCKED)
  {
    var g0 := Group(0, [], map[]);
    var g := Final(g0, steps);
    assert Clean(g0.bits);
    RunKeeps(g0, steps);
    var b := Either(g.bits, s);
    CleanEither(g.bits, s);
    if w in g.waiting && Met(w.value, b) {
      SetBitsExact(g, s, w);
      HandedSeen(b);
    }
    hide *;
  }

  lemma HandedSeen(b: Bits)
    requires Clean(b)
    ensures Wanted(Handed(b)) == b && Meets(Handed(b), UNBLOCKED)
  {
    HandedDecodes(b);
  }
}
