/** What every scheduler operation keeps: each task in one place, the two-list clock, and
    the bound on the ready priorities. */
module SchedInv {
  import opened Words
  import opened Rings
  import opened Arenas
  import opened Sched

  function Items(s: State, l: int): seq<Task> {
    if 0 <= l < |s.st.lists| then s.st.lists[l].items else []
  }

  /** A ready task is on the list of its own priority. */
  ghost predicate Homes(s: State) {
    forall t :: t in s.st.at && t in s.prio && s.st.at[t] < MAX_PRIORITIES ==> s.st.at[t] == s.prio[t]
  }

  /** An event item is on a list only while its task is blocked or suspended, or on the pending-ready
      list because of a notification that came after its block time was up. */
  ghost predicate Waiting(s: State) {
    forall t :: t in s.ev.at ==>
      t in s.st.at && s.st.at[t] < TERMINATING && (s.st.at[t] < MAX_PRIORITIES ==> s.ev.at[t] == PENDING)
  }

  /** The counters tell the truth, and no ready list above uxTopReadyPriority is in use. */
  ghost predicate Books(s: State) {
    && s.count == |s.st.at|
    && s.cleanup == |Items(s, TERMINATING)|
    && TopOk(s)
  }

  ghost predicate TopOk(s: State) {
    s.top < MAX_PRIORITIES && forall p :: s.top < p < MAX_PRIORITIES && p < |s.st.lists| ==> s.st.lists[p].items == []
  }

  ghost predicate Places(s: State) {
    Shape(s) && Homes(s) && Waiting(s) && Books(s)
  }

  /** The current delayed list: in wake order, nothing due, never woken later than xNextTaskUnblockTime
      says. A key equal to the tick comes from a zero block time and is due at the next tick. */
  ghost predicate CurrentOk(items: seq<Task>, wake: map<Task, word>, tick: word, next: word) {
    && Sorted(Keys(wake, items))
    && (forall t :: t in items ==> next <= Key(wake, t) && tick <= Key(wake, t))
    && (items != [] ==> tick < MAX)
  }

  /** The overflow list: in wake order, every key below the tick, so due in the next epoch. */
  ghost predicate OverflowOk(items: seq<Task>, wake: map<Task, word>, tick: word) {
    && Sorted(Keys(wake, items))
    && (forall t :: t in items ==> Key(wake, t) < tick)
  }

  ghost predicate Clock(s: State) {
    && s.tick == Low(s.now) && s.overflows == Low(s.now / WRAP)
    && CurrentOk(Items(s, s.delayed), s.wake, s.tick, s.next)
    && OverflowOk(Items(s, Over(s)), s.wake, s.tick)
  }

  /** xPendingReadyList is in use only while the scheduler is suspended. */
  ghost predicate NonePending(s: State) {
    s.suspended == 0 ==> forall t :: !s.ev.Holds(PENDING, t)
  }

  ghost predicate Inv(s: State) {
    && Places(s) && Clock(s) && NonePending(s)
    && (s.pended > 0 ==> s.suspended > 0)
  }

  // ----- sorted lists under removal and insertion

  lemma WithoutSorted(items: seq<Task>, wake: map<Task, word>, t: Task)
    requires t in items && Sorted(Keys(wake, items))
    ensures Sorted(Keys(wake, Without(items, t)))
  {
    var k := IndexOf(items, t);
    var a, b := Keys(wake, items), Keys(wake, Without(items, t));
    forall i, j | 0 <= i < j < |b| ensures b[i] <= b[j] {
      assert b[i] == a[if i < k then i else i + 1];
      assert b[j] == a[if j < k then j else j + 1];
    }
  }

  lemma SpliceSorted(items: seq<Task>, wake: map<Task, word>, t: Task, v: word)
    requires t !in items && Sorted(Keys(wake, items))
    ensures Sorted(Keys(wake[t := v], Splice(items, InsertPos(Keys(wake, items), v), t)))
  {
    var k := InsertPos(Keys(wake, items), v);
    InsertPosSorted(Keys(wake, items), v);
    assert Keys(wake[t := v], Splice(items, k, t)) == Splice(Keys(wake, items), k, v);
  }

  lemma CurrentLess(items: seq<Task>, wake: map<Task, word>, tick: word, next: word, t: Task)
    requires t in items && NoDup(items) && CurrentOk(items, wake, tick, next)
    ensures CurrentOk(Without(items, t), wake, tick, next)
  {
    WithoutSorted(items, wake, t);
    WithoutMembers(items, t);
  }

  lemma OverflowLess(items: seq<Task>, wake: map<Task, word>, tick: word, t: Task)
    requires t in items && NoDup(items) && OverflowOk(items, wake, tick)
    ensures OverflowOk(Without(items, t), wake, tick)
  {
    WithoutSorted(items, wake, t);
    WithoutMembers(items, t);
  }

  lemma ItemsNoDup(s: State, l: nat)
    requires Shape(s) && l < STATE_LISTS
    ensures NoDup(Items(s, l))
    ensures forall t :: t in Items(s, l) <==> s.st.Holds(l, t)
  {
  }

  /** The delayed lists of r are those of s, possibly without t. */
  ghost predicate Fewer(s: State, r: State, t: Task) {
    && r.wake == s.wake && r.tick == s.tick && r.now == s.now && r.overflows == s.overflows
    && r.delayed == s.delayed
    && (forall l :: DELAYED_1 <= l <= DELAYED_2 ==>
      Items(r, l) == Items(s, l) || (t in Items(s, l) && Items(r, l) == Without(Items(s, l), t)))
  }

  lemma FewerClock(s: State, r: State, t: Task)
    requires Shape(s) && Shape(r) && Clock(s) && Fewer(s, r, t) && r.next == s.next
    ensures Clock(r)
  {
    hide Arena.Wf;
    hide Sorted;
    ItemsNoDup(s, s.delayed);
    ItemsNoDup(s, Over(s));
    if Items(r, s.delayed) != Items(s, s.delayed) {
      CurrentLess(Items(s, s.delayed), s.wake, s.tick, s.next, t);
    }
    if Items(r, Over(s)) != Items(s, Over(s)) {
      OverflowLess(Items(s, Over(s)), s.wake, s.tick, t);
    }
  }

  lemma ResetClock(s: State)
    requires Shape(s) && Clock(s)
    ensures Clock(ResetNext(s))
  {
    hide Arena.Wf, OverflowOk;
    var items := Items(s, s.delayed);
    forall t | t in items ensures ResetNext(s).next <= Key(s.wake, t) {
      var i :| 0 <= i < |items| && items[i] == t;
      assert Keys(s.wake, items)[0] <= Keys(s.wake, items)[i];
    }
  }

  // ----- moving one task

  lemma MakeReadyPlaces(s: State, t: Task)
    requires Places(s) && t in s.st.at && s.st.at[t] != TERMINATING && t !in s.ev.at
    ensures Places(MakeReady(s, t)) && Fewer(s, MakeReady(s, t), t)
  {
    MakeReadyFewer(s, t);
    hide Arena.Wf, TopOk, Fewer, Homes, Waiting, MakeReady;
    MakeReadyShape(s, t);
    MakeReadyHomes(s, t);
    MakeReadyCounts(s, t);
    RemoveReady(s, t);
  }

  lemma MakeReadyHomes(s: State, t: Task)
    requires Shape(s) && Homes(s) && Waiting(s) && t in s.st.at && t !in s.ev.at
    ensures Homes(MakeReady(s, t)) && Waiting(MakeReady(s, t))
  {
    hide Arena.Wf;
    MoveEndWf(s.st, s.prio[t], t);
    hide MoveEnd;
  }

  lemma MakeReadyCounts(s: State, t: Task)
    requires Places(s) && t in s.st.at && s.st.at[t] != TERMINATING
    ensures var r := MakeReady(s, t);
      r.count == |r.st.at| && r.cleanup == |Items(r, TERMINATING)| && Shape(s)
  {
    hide Arena.Wf, Homes, Waiting, TopOk;
    MoveEndWf(s.st, s.prio[t], t);
    assert MakeReady(s, t).st.at.Keys == s.st.at.Keys;
    hide MoveEnd;
  }

  lemma MakeReadyFewer(s: State, t: Task)
    requires Shape(s) && t in s.st.at
    ensures Fewer(s, MakeReady(s, t), t)
  {
    hide Arena.Wf, Without;
    MoveEndWf(s.st, s.prio[t], t);
    hide MoveEnd;
  }

  /** No list above the recorded top becomes non-empty. */
  lemma RemoveReady(s: State, t: Task)
    requires Places(s) && t in s.st.at
    ensures TopOk(MakeReady(s, t))
  {
    hide Arena.Wf;
    MoveEndWf(s.st, s.prio[t], t);
    var r := MakeReady(s, t);
    forall p | r.top < p < MAX_PRIORITIES ensures r.st.lists[p].items == [] {
      assert s.st.lists[p].items == [];
      assert p != s.st.at[t];
    }
  }

  lemma UnblockPlaces(s: State, t: Task)
    requires Places(s) && t in s.st.at && s.st.at[t] != TERMINATING
    ensures Places(Unblock(s, t)) && Fewer(s, Unblock(s, t), t)
  {
    hide Arena.Wf, MoveEnd, DropEvent, Homes, Waiting, Books;
    var s0 := s.(ev := DropEvent(s.ev, t));
    DroppedPlaces(s, t);
    assert Unblock(s, t) == MakeReady(s0, t);
    hide MakeReady, Unblock;
    MakeReadyPlaces(s0, t);
  }

  lemma DroppedPlaces(s: State, t: Task)
    requires Places(s)
    ensures Places(s.(ev := DropEvent(s.ev, t))) && t !in DropEvent(s.ev, t).at
  {
    hide Arena.Wf;
    DropEventWf(s.ev, t);
    hide DropEvent;
  }
}
