/** Event groups of event_groups.c: 24 event bits, and waiting tasks whose event list items hold
    the bits they wait for together with control bits. */
module EventGroups {

  type Task = nat
  type Bits = bv32

  /** eventCLEAR_EVENTS_ON_EXIT_BIT, eventUNBLOCKED_DUE_TO_BIT_SET, eventWAIT_FOR_ALL_BITS,
      taskEVENT_LIST_ITEM_VALUE_IN_USE and eventEVENT_BITS_CONTROL_BYTES. */
  const CLEAR: Bits := 0x0100_0000
  const UNBLOCKED: Bits := 0x0200_0000
  const ALL: Bits := 0x0400_0000
  const IN_USE: Bits := 0x8000_0000
  const CONTROL: Bits := 0xff00_0000

  /** xTasksWaitingForBits: the event list item of a waiting task. */
  datatype Waiter = Waiter(task: Task, value: Bits)

  datatype Group = Group(
    bits: Bits,
    waiting: seq<Waiter>,
    woken: map<Task, Bits>     // what the event list item of an unblocked task was left holding
  )

  // ----- words of bits

  function Either(a: Bits, b: Bits): Bits { a | b }
  function Less(a: Bits, b: Bits): Bits { a & !b }
  predicate Meets(a: Bits, b: Bits) { a & b != 0 }
  predicate Covers(a: Bits, b: Bits) { a & b == b }

  lemma EitherLeft(a: Bits, b: Bits, m: Bits)
    requires Meets(a, m)
    ensures Meets(Either(a, b), m)
  {
  }

  lemma EitherRight(a: Bits, b: Bits, m: Bits)
    requires Meets(b, m)
    ensures Meets(Either(a, b), m)
  {
  }

  lemma EitherNeither(a: Bits, b: Bits, m: Bits)
    requires !Meets(a, m) && !Meets(b, m)
    ensures !Meets(Either(a, b), m)
  {
  }

  lemma EitherMeets(a: Bits, b: Bits, m: Bits)
    ensures Meets(Either(a, b), m) <==> Meets(a, m) || Meets(b, m)
  {
    hide *;
    if Meets(a, m) { EitherLeft(a, b, m); }
    else if Meets(b, m) { EitherRight(a, b, m); }
    else { EitherNeither(a, b, m); }
  }

  lemma NothingMeets(m: Bits)
    ensures !Meets(0, m)
  {
  }

  lemma LessMeets(a: Bits, c: Bits, w: Bits)
    ensures Meets(Less(a, c), w) ==> Meets(a, w)
    ensures Covers(Less(a, c), w) ==> Covers(a, w)
  {
  }

  lemma MeetsSelf(a: Bits, b: Bits)
    ensures !Meets(b, Less(a, b))
    ensures !Meets(a, Less(a, b)) ==> Less(a, b) == 0
  {
  }

  lemma NoDifference(a: Bits, b: Bits)
    requires Less(a, b) == 0 && Less(b, a) == 0
    ensures a == b
  {
  }

  /** Words with a bit in common with the same words are the same. */
  lemma SameWord(a: Bits, b: Bits)
    requires forall m :: Meets(a, m) <==> Meets(b, m)
    ensures a == b
  {
    MeetsSelf(a, b);
    MeetsSelf(b, a);
    hide Meets, Less;
    assert Less(a, b) == 0 && Less(b, a) == 0;
    NoDifference(a, b);
  }

  // ----- the event list item

  /** The item value vTaskPlaceOnUnorderedEventList stores. */
  function Encode(wanted: Bits, clearOnExit: bool, waitForAll: bool): Bits {
    wanted | (if clearOnExit then CLEAR else 0) | (if waitForAll then ALL else 0) | IN_USE
  }

  function Wanted(value: Bits): Bits {
    value & !CONTROL
  }

  predicate ClearsOnExit(value: Bits) {
    (value & CONTROL) & CLEAR != 0
  }

  predicate WaitsForAll(value: Bits) {
    (value & CONTROL) & ALL != 0
  }

  /** The control bits and the 24 event bits in one word can be taken apart again. */
  lemma EncodeDecodes(wanted: Bits, clearOnExit: bool, waitForAll: bool)
    requires wanted & CONTROL == 0
    ensures var v := Encode(wanted, clearOnExit, waitForAll);
      && Wanted(v) == wanted && (ClearsOnExit(v) <==> clearOnExit) && (WaitsForAll(v) <==> waitForAll)
      && v & UNBLOCKED == 0
  {
  }

  /** The value an unblocked task finds in its item. */
  function Handed(bits: Bits): Bits {
    bits | UNBLOCKED | IN_USE
  }

  /** It tells the task that it was not a timeout, and what the event bits were. */
  lemma HandedDecodes(bits: Bits)
    requires bits & CONTROL == 0
    ensures Handed(bits) & UNBLOCKED != 0 && Wanted(Handed(bits)) == bits
  {
  }

  /** prvTestWaitCondition. */
  predicate Condition(bits: Bits, wanted: Bits, waitForAll: bool) {
    if waitForAll then Covers(bits, wanted) else Meets(bits, wanted)
  }

  /** The match in the loop of xEventGroupSetBits. */
  predicate Met(value: Bits, bits: Bits) {
    Condition(bits, Wanted(value), WaitsForAll(value))
  }

  /** Clearing bits satisfies nobody. */
  lemma MetMonotone(value: Bits, bits: Bits, mask: Bits)
    ensures Met(value, Less(bits, mask)) ==> Met(value, bits)
  {
    LessMeets(bits, mask, Wanted(value));
    hide Meets, Covers, Less, Wanted, WaitsForAll;
  }

  // ----- setting bits

  function Unmet(ws: seq<Waiter>, bits: Bits): (r: seq<Waiter>)
    ensures forall w :: w in r <==> w in ws && !Met(w.value, bits)
    ensures |r| <= |ws|
  {
    hide Met;
    if ws == [] then []
    else (if Met(ws[0].value, bits) then [] else [ws[0]]) + Unmet(ws[1..], bits)
  }

  /** What a met waiter takes away on exit. */
  function Toll(w: Waiter, bits: Bits): Bits {
    if Met(w.value, bits) && ClearsOnExit(w.value) then Wanted(w.value) else 0
  }

  /** uxBitsToClear after the loop. */
  function ClearMask(ws: seq<Waiter>, bits: Bits): Bits {
    if ws == [] then 0 else Either(Toll(ws[0], bits), ClearMask(ws[1..], bits))
  }

  /** What vTaskRemoveFromUnorderedEventList leaves in the items of the met waiters. */
  function Wake(ws: seq<Waiter>, bits: Bits, woken: map<Task, Bits>): map<Task, Bits> {
    if ws == [] then woken
    else Wake(ws[1..], bits, if Met(ws[0].value, bits) then woken[ws[0].task := Handed(bits)] else woken)
  }

  /** xEventGroupSetBits. */
  function SetBits(g: Group, s: Bits): Group {
    var b := Either(g.bits, s);
    Group(Less(b, ClearMask(g.waiting, b)), Unmet(g.waiting, b), Wake(g.waiting, b, g.woken))
  }

  /** xEventGroupClearBits. */
  function ClearBits(g: Group, c: Bits): Group {
    g.(bits := Less(g.bits, c))
  }

  /** Some met waiter that clears on exit waits for a bit of m. */
  ghost predicate Cleared(ws: seq<Waiter>, bits: Bits, m: Bits) {
    exists w :: w in ws && Met(w.value, bits) && ClearsOnExit(w.value) && Meets(Wanted(w.value), m)
  }

  lemma TollMeets(w: Waiter, bits: Bits, m: Bits)
    ensures Meets(Toll(w, bits), m) <==> Met(w.value, bits) && ClearsOnExit(w.value) && Meets(Wanted(w.value), m)
  {
    NothingMeets(m);
    hide Meets, Wanted, Met, ClearsOnExit;
  }

  /** The clear-on-exit masks are united: a bit is cleared exactly when some met waiter that
      clears on exit waits for it. */
  lemma {:induction false} ClearMaskExact(ws: seq<Waiter>, bits: Bits, m: Bits)
    ensures Meets(ClearMask(ws, bits), m) <==> Cleared(ws, bits, m)
  {
    hide Meets, Met, ClearsOnExit, Wanted, Either, Toll;
    if ws == [] {
      NothingMeets(m);
    } else {
      var w0 := ws[0];
      ClearMaskExact(ws[1..], bits, m);
      TollMeets(w0, bits, m);
      EitherMeets(Toll(w0, bits), ClearMask(ws[1..], bits), m);
      ClearedStep(ws, bits, m);
    }
  }

  lemma ClearedStep(ws: seq<Waiter>, bits: Bits, m: Bits)
    requires ws != []
    ensures Cleared(ws, bits, m) <==>
      Cleared(ws[1..], bits, m) ||
      (Met(ws[0].value, bits) && ClearsOnExit(ws[0].value) && Meets(Wanted(ws[0].value), m))
  {
    hide Meets, Met, ClearsOnExit, Wanted;
    assert ws == [ws[0]] + ws[1..];
    assert ws[0] in ws;
  }

  /** The order of the waiting list matters neither to the bits that are left nor to who waits. */
  lemma OrderIrrelevant(g: Group, h: Group, s: Bits)
    requires g.bits == h.bits && forall w :: w in g.waiting <==> w in h.waiting
    ensures SetBits(g, s).bits == SetBits(h, s).bits
    ensures forall w :: w in SetBits(g, s).waiting <==> w in SetBits(h, s).waiting
  {
    hide Meets, Met, ClearsOnExit, Wanted, Either, Less, ClearMask, Wake;
    var b := Either(g.bits, s);
    forall m ensures Meets(ClearMask(g.waiting, b), m) <==> Meets(ClearMask(h.waiting, b), m) {
      ClearMaskExact(g.waiting, b, m);
      ClearMaskExact(h.waiting, b, m);
    }
    SameWord(ClearMask(g.waiting, b), ClearMask(h.waiting, b));
  }

  ghost predicate DistinctTasks(ws: seq<Waiter>) {
    forall i, j :: 0 <= i < j < |ws| ==> ws[i].task != ws[j].task
  }

  /** t is the task of a waiter whose condition holds. */
  ghost predicate MetTask(ws: seq<Waiter>, bits: Bits, t: Task) {
    exists i :: 0 <= i < |ws| && ws[i].task == t && Met(ws[i].value, bits)
  }

  lemma MetTaskStep(ws: seq<Waiter>, bits: Bits, t: Task)
    requires ws != []
    ensures MetTask(ws, bits, t) <==> MetTask(ws[1..], bits, t) || (ws[0].task == t && Met(ws[0].value, bits))
  {
    hide Met;
    if MetTask(ws[1..], bits, t) {
      var i :| 0 <= i < |ws[1..]| && ws[1..][i].task == t && Met(ws[1..][i].value, bits);
      assert ws[i + 1] == ws[1..][i];
    }
    if MetTask(ws, bits, t) {
      var i :| 0 <= i < |ws| && ws[i].task == t && Met(ws[i].value, bits);
      if i > 0 { assert ws[1..][i - 1] == ws[i]; }
    }
  }

  /** Exactly the tasks of met waiters are woken, each with the same value. */
  lemma {:induction false} WakeExact(ws: seq<Waiter>, bits: Bits, woken: map<Task, Bits>, t: Task)
    ensures var r := Wake(ws, bits, woken);
      if MetTask(ws, bits, t) then t in r && r[t] == Handed(bits)
      else (t in r <==> t in woken) && (t in woken ==> r[t] == woken[t])
  {
    hide Met, Handed;
    if ws != [] {
      MetTaskStep(ws, bits, t);
      hide MetTask;
      WakeExact(ws[1..], bits, if Met(ws[0].value, bits) then woken[ws[0].task := Handed(bits)] else woken, t);
    }
  }

  /** xEventGroupSetBits unblocks exactly the waiters whose condition holds for old | set, hands
      every one of them that same value, and leaves the others waiting. */
  lemma SetBitsExact(g: Group, s: Bits, w: Waiter)
    requires DistinctTasks(g.waiting) && w in g.waiting
    ensures var b := Either(g.bits, s);
      var r := SetBits(g, s);
      if Met(w.value, b) then w !in r.waiting && w.task in r.woken && r.woken[w.task] == Handed(b)
      else w in r.waiting && (w.task in r.woken <==> w.task in g.woken) &&
           (w.task in g.woken ==> r.woken[w.task] == g.woken[w.task])
  {
    hide Met, Handed, Wake, Either, Less, ClearMask;
    var b := Either(g.bits, s);
    WakeExact(g.waiting, b, g.woken, w.task);
    var k :| 0 <= k < |g.waiting| && g.waiting[k] == w;
    assert Met(w.value, b) ==> MetTask(g.waiting, b, w.task);
    if MetTask(g.waiting, b, w.task) {
      var i :| 0 <= i < |g.waiting| && g.waiting[i].task == w.task && Met(g.waiting[i].value, b);
      assert i == k;
    }
  }
}
