/** What becomes of each single event bit and of each waiter, in every operation and over runs. */
module EventGroupBits {
  import opened EventGroups
  import opened EventGroupRuns

  // ----- single bits

  predicate OneBit(m: Bits) {
    m != 0 && m & (m - 1) == 0
  }

  function LowestBit(a: Bits): Bits {
    a & (!a + 1)
  }

  lemma LowestIsOne(a: Bits)
    requires a != 0
    ensures OneBit(LowestBit(a)) && Meets(a, LowestBit(a))
  {
  }

  /** A bit is left after others are cleared when it was there and is not one of them. */
  lemma LessBit(a: Bits, c: Bits, m: Bits)
    requires OneBit(m)
    ensures Meets(Less(a, c), m) <==> Meets(a, m) && !Meets(c, m)
  {
    NoneOrAll(c, m);
    hide OneBit;
    if Meets(c, m) { LessAll(a, c, m); } else { LessNone(a, c, m); }
  }

  lemma NoneOrAll(c: Bits, m: Bits)
    requires OneBit(m)
    ensures !Meets(c, m) || Covers(c, m)
  {
  }

  lemma LessAll(a: Bits, c: Bits, m: Bits)
    requires Covers(c, m)
    ensures !Meets(Less(a, c), m)
  {
  }

  lemma LessNone(a: Bits, c: Bits, m: Bits)
    requires !Meets(c, m)
    ensures Meets(Less(a, c), m) <==> Meets(a, m)
  {
    hide *;
    Outside(c, m);
    Regroup(a, c, m);
  }

  lemma Outside(c: Bits, m: Bits)
    requires !Meets(c, m)
    ensures Less(m, c) == m
  {
  }

  lemma Regroup(a: Bits, c: Bits, m: Bits)
    ensures Meets(Less(a, c), m) <==> Meets(a, Less(m, c))
  {
  }

  lemma CoversBit(a: Bits, wanted: Bits, m: Bits)
    requires OneBit(m) && Covers(a, wanted) && Meets(wanted, m)
    ensures Meets(a, m)
  {
  }

  lemma Uncovered(a: Bits, wanted: Bits)
    requires !Covers(a, wanted)
    ensures Less(wanted, a) != 0
  {
  }

  lemma CommonBit(a: Bits, b: Bits, m: Bits)
    requires Meets(a & b, m)
    ensures Meets(a, m) && Meets(b, m)
  {
  }

  /** What a task waits for: every one of the bits, or any one of them. */
  lemma ConditionExact(bits: Bits, wanted: Bits, waitForAll: bool)
    ensures Condition(bits, wanted, waitForAll) <==>
      if waitForAll then forall m :: OneBit(m) && Meets(wanted, m) ==> Meets(bits, m)
      else exists m :: OneBit(m) && Meets(wanted, m) && Meets(bits, m)
  {
    assert Meets(bits, wanted) ==> bits & wanted != 0;
    hide Meets, Covers, OneBit, LowestBit, Less;
    if waitForAll {
      if Covers(bits, wanted) {
        forall m | OneBit(m) && Meets(wanted, m) ensures Meets(bits, m) { CoversBit(bits, wanted, m); }
      } else {
        Uncovered(bits, wanted);
        LowestIsOne(Less(wanted, bits));
        LessBit(wanted, bits, LowestBit(Less(wanted, bits)));
      }
    } else {
      if Meets(bits, wanted) {
        LowestIsOne(bits & wanted);
        CommonBit(bits, wanted, LowestBit(bits & wanted));
      }
      forall m | OneBit(m) && Meets(wanted, m) && Meets(bits, m) ensures Meets(bits, wanted) {
        MeetsBoth(bits, wanted, m);
      }
    }
  }

  lemma MeetsBoth(a: Bits, b: Bits, m: Bits)
    requires OneBit(m) && Meets(a, m) && Meets(b, m)
    ensures Meets(a, b)
  {
  }

  // ----- one bit through one operation

  /** The step puts the bit in. */
  predicate SetsBit(s: Step, m: Bits) {
    match s
    case Set(b) => Meets(b, m)
    case Sync(_, b, _, _) => Meets(b, m)
    case _ => false
  }

  /** The step takes the bit out: for a waiter it unblocks, for its own task, or by request. */
  ghost predicate TakesBit(g: Group, s: Step, m: Bits) {
    match s
    case Set(b) => Cleared(g.waiting, Either(g.bits, b), m)
    case Clear(c) => Meets(c, m)
    case Wait(_, w, c, a, _) => c && Condition(g.bits, w, a) && Meets(w, m)
    case Sync(_, b, w, _) =>
      Cleared(g.waiting, Either(g.bits, b), m) || (Covers(Either(g.bits, b), w) && Meets(w, m))
    case Expire(_) => false
    case LateWait(w, c, a) => c && Condition(g.bits, w, a) && Meets(w, m)
    case LateSync(w) => Covers(g.bits, w) && Meets(w, m)
  }

  /** xEventGroupSetBits leaves exactly the old and new bits that no met clear-on-exit waiter takes. */
  lemma SetBitsLeaves(g: Group, s: Bits, m: Bits)
    requires OneBit(m)
    ensures Meets(SetBits(g, s).bits, m) <==>
      (Meets(g.bits, m) || Meets(s, m)) && !Cleared(g.waiting, Either(g.bits, s), m)
  {
    hide Meets, Either, Less, ClearMask, Cleared, OneBit, Unmet, Wake;
    var b := Either(g.bits, s);
    LessBit(b, ClearMask(g.waiting, b), m);
    EitherMeets(g.bits, s, m);
    ClearMaskExact(g.waiting, b, m);
  }

  lemma SyncBitsLeaves(g: Group, t: Task, s: Bits, wanted: Bits, block: bool, m: Bits)
    requires OneBit(m)
    ensures Meets(SyncBits(g, t, s, wanted, block).bits, m) <==>
      && (Meets(g.bits, m) || Meets(s, m)) && !Cleared(g.waiting, Either(g.bits, s), m)
      && !(Covers(Either(g.bits, s), wanted) && Meets(wanted, m))
  {
    SetBitsLeaves(g, s, m);
    LessBit(SetBits(g, s).bits, wanted, m);
    hide Meets, Either, Less, Covers, Cleared, OneBit, SetBits, Encode;
  }

  /** After any operation a bit is there exactly when it was, or was put in, and was not taken out. */
  lemma StepBit(g: Group, s: Step, m: Bits)
    requires OneBit(m)
    ensures Meets(Apply(g, s).bits, m) <==> (Meets(g.bits, m) || SetsBit(s, m)) && !TakesBit(g, s, m)
  {
    hide Meets, Either, Less, Covers, Condition, Cleared, OneBit, SetBits, SyncBits, Encode;
    match s
    case Set(b) => SetBitsLeaves(g, b, m);
    case Clear(c) => LessBit(g.bits, c, m);
    case Wait(_, w, _, _, _) => LessBit(g.bits, w, m);
    case Sync(t, b, w, block) => SyncBitsLeaves(g, t, b, w, block, m);
    case Expire(_) =>
    case LateWait(w, _, _) => LessBit(g.bits, w, m);
    case LateSync(w) => LessBit(g.bits, w, m); AllCovers(g.bits, w);
  }

  lemma AllCovers(bits: Bits, wanted: Bits)
    ensures Condition(bits, wanted, true) <==> Covers(bits, wanted)
  {
    hide Covers;
  }

  // ----- over runs

  /** The bit was in before step i, or step i puts it in; from then on no step takes it out. */
  ghost predicate KeptFrom(g: Group, steps: seq<Step>, i: nat, m: Bits)
    decreases |steps|
  {
    if i == 0 then NeverTaken(g, steps, m)
    else steps != [] && KeptFrom(Apply(g, steps[0]), steps[1..], i - 1, m)
  }

  ghost predicate NeverTaken(g: Group, steps: seq<Step>, m: Bits)
    decreases |steps|
  {
    steps != [] ==> !TakesBit(g, steps[0], m) && NeverTaken(Apply(g, steps[0]), steps[1..], m)
  }

  /** The history of an event bit over any run: it is in at the end exactly when it was in at the
      start, or some step put it in, and no step from there on took it out. */
  lemma {:induction false} BitHistory(g: Group, steps: seq<Step>, m: Bits)
    requires OneBit(m)
    ensures Meets(Final(g, steps).bits, m) <==>
      || (Meets(g.bits, m) && NeverTaken(g, steps, m))
      || exists i :: 0 <= i < |steps| && SetsBit(steps[i], m) && KeptFrom(g, steps, i, m)
    decreases |steps|
  {
    if steps != [] {
      var r, rest := Apply(g, steps[0]), steps[1..];
      StepBit(g, steps[0], m);
      BitHistory(r, rest, m);
      hide Meets, Apply, SetsBit, TakesBit, OneBit;
      if exists i :: 0 <= i < |rest| && SetsBit(rest[i], m) && KeptFrom(r, rest, i, m) {
        var i :| 0 <= i < |rest| && SetsBit(rest[i], m) && KeptFrom(r, rest, i, m);
        assert SetsBit(steps[i + 1], m) && KeptFrom(g, steps, i + 1, m);
      }
      if Meets(r.bits, m) && NeverTaken(r, rest, m) && !Meets(g.bits, m) {
        assert SetsBit(steps[0], m) && KeptFrom(g, steps, 0, m);
      }
      forall i | 0 <= i < |steps| && SetsBit(steps[i], m) && KeptFrom(g, steps, i, m)
        ensures Meets(Final(r, rest).bits, m)
      {
        if i > 0 { assert SetsBit(rest[i - 1], m) && KeptFrom(r, rest, i - 1, m); }
      }
    }
  }

  /** In every reachable state: the bits a waiter takes with it on exit are gone once it has been
      unblocked, and the next task to wait for any of them alone finds it gone and blocks. */
  lemma TakenOnExit(steps: seq<Step>, s: Bits, w: Waiter, m: Bits)
    requires LegalRun(Group(0, [], map[]), steps) && Clean(s) && OneBit(m)
    ensures var g := Final(Group(0, [], map[]), steps);
      var r := SetBits(g, s);
      w in g.waiting && Met(w.value, Either(g.bits, s)) && ClearsOnExit(w.value) && Meets(Wanted(w.value), m) ==>
        !Meets(r.bits, m) && !Condition(r.bits, m, false) && !Condition(r.bits, m, true)
  {
    var g := Final(Group(0, [], map[]), steps);
    SetBitsLeaves(g, s, m);
    if !Meets(SetBits(g, s).bits, m) { NotMet(SetBits(g, s).bits, m); }
    hide LegalRun, Final, SetBits, Met, ClearsOnExit, Wanted, Meets, Either, Condition, OneBit;
  }

  lemma NotMet(bits: Bits, m: Bits)
    requires OneBit(m) && !Meets(bits, m)
    ensures !Condition(bits, m, false) && !Condition(bits, m, true)
  {
  }

  // ----- one waiter through one operation

  /** The waiter that a task which has to block becomes. */
  predicate Becomes(w: Waiter, t: Task, wanted: Bits, clearOnExit: bool, waitForAll: bool) {
    && w.task == t && Wanted(w.value) == wanted
    && (ClearsOnExit(w.value) <==> clearOnExit) && (WaitsForAll(w.value) <==> waitForAll)
  }

  /** xEventGroupWaitBits: a task whose condition holds, or that may not block, does not join the
      list; any other joins it at the end, with what it waits for in its event list item. */
  lemma WaitJoins(g: Group, t: Task, wanted: Bits, clearOnExit: bool, waitForAll: bool, block: bool)
    requires Clean(wanted)
    ensures var r := WaitBits(g, t, wanted, clearOnExit, waitForAll, block);
      && r.woken == g.woken
      && if Condition(g.bits, wanted, waitForAll) || !block then r.waiting == g.waiting
         else
           && |r.waiting| == |g.waiting| + 1 && r.waiting[..|g.waiting|] == g.waiting
           && Becomes(r.waiting[|g.waiting|], t, wanted, clearOnExit, waitForAll)
  {
    EncodeDecodes(wanted, clearOnExit, waitForAll);
    hide Encode, Condition, Less, Wanted, ClearsOnExit, WaitsForAll, Clean;
  }

  /** xEventGroupSync: after the bits are set, the task joins the list unless all it waits for are in,
      its own among them, or it may not block. */
  lemma SyncJoins(g: Group, t: Task, s: Bits, wanted: Bits, block: bool)
    requires Clean(wanted)
    ensures var r := SyncBits(g, t, s, wanted, block);
      var q := SetBits(g, s);
      && r.woken == q.woken
      && if Covers(Either(g.bits, s), wanted) || !block then r.waiting == q.waiting
         else
           && |r.waiting| == |q.waiting| + 1 && r.waiting[..|q.waiting|] == q.waiting
           && Becomes(r.waiting[|q.waiting|], t, wanted, true, true)
  {
    EncodeDecodes(wanted, true, true);
    hide Encode, Covers, Either, Less, Wanted, ClearsOnExit, WaitsForAll, Clean, SetBits;
  }

  /** No other operation touches the list, but that a task whose block time is up leaves it. */
  lemma OthersLeave(g: Group, s: Step, w: Waiter)
    requires DistinctTasks(g.waiting) && !s.Set? && !s.Wait? && !s.Sync?
    ensures var r := Apply(g, s);
      && r.woken == g.woken && (!s.Expire? ==> r.waiting == g.waiting)
      && (s.Expire? ==> (w in r.waiting <==> w in g.waiting && w.task != s.task))
  {
    if s.Expire? { DropLeaves(g.waiting, s.task, w); }
    hide Less, Condition, Drop, DistinctTasks;
  }

  lemma {:induction false} DropLeaves(ws: seq<Waiter>, t: Task, w: Waiter)
    requires DistinctTasks(ws)
    ensures w in Drop(ws, t) <==> w in ws && w.task != t
  {
    if ws != [] {
      assert ws == [ws[0]] + ws[1..];
      if w in ws[1..] { NotHead(ws, w); }
      DropLeaves(ws[1..], t, w);
    }
  }
}
