/** Every kernel operation keeps every task in one place and the two-list clock in order. */
module SchedSteps {
  import opened Words
  import opened Rings
  import opened Arenas
  import opened Sched
  import opened SchedInv

  datatype Step =
    | TickStep
    | BlockStep(wait: Wait, ticks: word, indefinite: bool)
    | EventStep(list: nat)
    | SuspendAllStep
    | ResumeAllStep
    | SwitchStep
    | SuspendStep(task: Task)
    | ResumeStep(task: Task)
    | ResumeISRStep(task: Task)
    | NotifyStep(task: Task, isr: bool)
    | PriorityStep(task: Task, prio: nat)
    | CreateStep(task: Task, prio: nat)
    | DeleteStep(task: Task)
    | CleanupStep

  /** What the kernel demands of the caller. A zero block time on the last tick of an epoch is
      excluded: it trips the assertion at the list switch (see ZeroDelayTrips). */
  ghost predicate Enabled(s: State, step: Step)
    requires Places(s)
  {
    match step
    case TickStep => true
    case BlockStep(w, d, _) =>
      && s.st.at[s.cur] < MAX_PRIORITIES && s.cur !in s.ev.at
      && (w.Event? ==> 0 < w.list < |s.ev.lists|)
      && (d == 0 ==> s.tick != MAX)
    case EventStep(l) => 0 < l < |s.ev.lists| && s.ev.lists[l].items != []
    case SuspendAllStep => true
    case ResumeAllStep => s.suspended > 0
    case SwitchStep => s.st.lists[0].items != []
    case SuspendStep(t) => t in s.st.at && s.st.at[t] != TERMINATING
    case ResumeStep(t) => t in s.st.at
    case ResumeISRStep(t) => t in s.st.at
    case NotifyStep(t, _) => t in s.st.at && s.st.at[t] < TERMINATING && t !in s.ev.at
    case PriorityStep(t, p) => t in s.st.at && p < MAX_PRIORITIES
    case CreateStep(t, p) => t !in s.prio && p < MAX_PRIORITIES
    case DeleteStep(t) => t in s.st.at && s.st.at[t] != TERMINATING
    case CleanupStep => s.st.at[s.cur] != TERMINATING
  }

  /** Enabled, with what the operations' own definitions need beside it. */
  ghost predicate Able(s: State, step: Step) {
    && Shape(s)
    && match step
       case TickStep => true
       case BlockStep(w, d, _) => s.st.at[s.cur] < MAX_PRIORITIES && (w.Event? ==> 0 < w.list < |s.ev.lists|)
       case EventStep(l) => 0 < l < |s.ev.lists| && s.ev.lists[l].items != []
       case SuspendAllStep => true
       case ResumeAllStep => s.suspended > 0
       case SwitchStep => s.top < MAX_PRIORITIES && s.st.lists[0].items != []
       case SuspendStep(t) => t in s.st.at
       case ResumeStep(t) => t in s.st.at
       case ResumeISRStep(t) => t in s.st.at
       case NotifyStep(t, _) => t in s.st.at && t !in s.ev.at
       case PriorityStep(t, p) => t in s.st.at && p < MAX_PRIORITIES
       case CreateStep(t, p) => t !in s.prio && p < MAX_PRIORITIES
       case DeleteStep(t) => t in s.st.at && s.count > 0
       case CleanupStep => CleanupReady(s)
  }

  function Apply(s: State, step: Step): State
    requires Able(s, step)
  {
    hide Arena.Wf;
    match step
    case TickStep => Tick(s).0
    case BlockStep(w, d, indefinite) => Block(s, w, d, indefinite)
    case EventStep(l) => EventWake(s, l)
    case SuspendAllStep => s.(suspended := s.suspended + 1)
    case ResumeAllStep => ResumeAll(s)
    case SwitchStep => SwitchContext(s)
    case SuspendStep(t) => Suspend(s, t)
    case ResumeStep(t) => Resume(s, t)
    case ResumeISRStep(t) => ResumeFromISR(s, t)
    case NotifyStep(t, isr) => Notify(s, t, isr)
    case PriorityStep(t, p) => Reprioritise(s, t, p)
    case CreateStep(t, p) => Create(s, t, p)
    case DeleteStep(t) => Delete(s, t)
    case CleanupStep => Cleanup(s)
  }

  lemma EnabledAble(s: State, step: Step)
    requires Places(s) && Enabled(s, step)
    ensures Able(s, step)
  {
    hide Arena.Wf;
    match step
    case DeleteStep(t) => CountPositive(s, t);
    case CleanupStep => CleanupIsReady(s);
    case _ =>
  }

  lemma CountPositive(s: State, t: Task)
    requires Places(s) && t in s.st.at
    ensures s.count > 0
  {
    assert t in s.st.at.Keys;
  }

  lemma CleanupIsReady(s: State)
    requires Places(s) && s.st.at[s.cur] != TERMINATING
    ensures CleanupReady(s)
  {
    TotalBelow(s.st, TERMINATING);
    BelowStep(s.st, TERMINATING);
    assert Below(s.st, TERMINATING + 1) <= s.st.at.Keys;
    SubsetSize(Below(s.st, TERMINATING + 1), s.st.at.Keys);
  }

  lemma SubsetSize<T>(a: set<T>, b: set<T>)
    requires a <= b
    ensures |a| <= |b|
  {
    assert b == a + (b - a);
  }

  // ----- blocking

  lemma KeysFrame(wake: map<Task, word>, items: seq<Task>, t: Task, v: word)
    requires t !in items
    ensures Keys(wake[t := v], items) == Keys(wake, items)
  {
  }

  lemma CurrentFrame(items: seq<Task>, wake: map<Task, word>, tick: word, next: word, t: Task, v: word)
    requires CurrentOk(items, wake, tick, next) && t !in items
    ensures CurrentOk(items, wake[t := v], tick, next)
  {
    KeysFrame(wake, items, t, v);
  }

  lemma OverflowFrame(items: seq<Task>, wake: map<Task, word>, tick: word, t: Task, v: word)
    requires OverflowOk(items, wake, tick) && t !in items
    ensures OverflowOk(items, wake[t := v], tick)
  {
    KeysFrame(wake, items, t, v);
  }

  lemma CurrentInsert(items: seq<Task>, wake: map<Task, word>, tick: word, next: word, t: Task, v: word)
    requires CurrentOk(items, wake, tick, next) && t !in items && tick <= v && tick < MAX
    ensures CurrentOk(Splice(items, InsertPos(Keys(wake, items), v), t), wake[t := v], tick,
                      if v < next then v else next)
  {
    SpliceSorted(items, wake, t, v);
    SpliceMembers(items, InsertPos(Keys(wake, items), v), t);
  }

  lemma OverflowInsert(items: seq<Task>, wake: map<Task, word>, tick: word, t: Task, v: word)
    requires OverflowOk(items, wake, tick) && t !in items && v < tick
    ensures OverflowOk(Splice(items, InsertPos(Keys(wake, items), v), t), wake[t := v], tick)
  {
    SpliceSorted(items, wake, t, v);
    SpliceMembers(items, InsertPos(Keys(wake, items), v), t);
  }

  /** The list a timed block goes to, and the key's place in it. */
  function TimedList(s: State, v: word): int {
    if v < s.tick then Over(s) else s.delayed
  }

  /** A timed block: r is s with the running task in wake order on its delayed list. */
  ghost predicate Timed(s: State, r: State, v: word) {
    var l := TimedList(s, v);
    && r == s.(st := r.st, wake := s.wake[s.cur := v],
               next := if v < s.tick || v >= s.next then s.next else v)
    && s.cur in s.st.at && s.cur in r.st.at && r.st.at[s.cur] == l
    && r.st.at == s.st.at[s.cur := r.st.at[s.cur]]
    && Items(r, l) == Splice(Items(s, l), InsertPos(Keys(s.wake, Items(s, l)), v), s.cur)
    && (forall m :: 0 <= m < STATE_LISTS && m != s.st.at[s.cur] && m != l ==> Items(r, m) == Items(s, m))
  }

  lemma AddTimed(s: State, d: word)
    requires Shape(s) && s.st.at[s.cur] < MAX_PRIORITIES
    ensures var r := AddToDelayed(s, d, false);
      Timed(s, r, Add(s.tick, d)) && r.st.Wf() && |r.st.lists| == STATE_LISTS
  {
    hide Arena.Wf;
    hide Splice;
    hide InsertPos;
    var v := Add(s.tick, d);
    var l := TimedList(s, v);
    MoveToWf(s.st, l, InsertPos(Keys(s.wake, s.st.lists[l].items), v), s.cur);
  }

  lemma OverflowTimed(s: State, r: State, v: word)
    requires Clock(s) && Timed(s, r, v) && v < s.tick && s.st.at[s.cur] < MAX_PRIORITIES
    requires s.delayed == DELAYED_1 || s.delayed == DELAYED_2
    requires s.cur !in Items(s, s.delayed) && s.cur !in Items(s, Over(s))
    ensures Clock(r)
  {
    hide Splice;
    hide InsertPos;
    hide CurrentOk;
    hide OverflowOk;
    OverflowInsert(Items(s, Over(s)), s.wake, s.tick, s.cur, v);
    CurrentFrame(Items(s, s.delayed), s.wake, s.tick, s.next, s.cur, v);
    assert Items(r, s.delayed) == Items(s, s.delayed);
    hide Items;
    hide Keys;
  }

  lemma CurrentTimed(s: State, r: State, v: word)
    requires Clock(s) && Timed(s, r, v) && s.tick <= v && s.tick < MAX && s.st.at[s.cur] < MAX_PRIORITIES
    requires s.delayed == DELAYED_1 || s.delayed == DELAYED_2
    requires s.cur !in Items(s, s.delayed) && s.cur !in Items(s, Over(s))
    ensures Clock(r)
  {
    hide Splice;
    hide InsertPos;
    hide CurrentOk;
    hide OverflowOk;
    CurrentInsert(Items(s, s.delayed), s.wake, s.tick, s.next, s.cur, v);
    OverflowFrame(Items(s, Over(s)), s.wake, s.tick, s.cur, v);
    assert Items(r, Over(s)) == Items(s, Over(s));
    hide Items;
    hide Keys;
  }

  lemma ReadyNotDelayed(s: State)
    requires Shape(s) && s.st.at[s.cur] < MAX_PRIORITIES
    ensures s.delayed == DELAYED_1 || s.delayed == DELAYED_2
    ensures s.cur !in Items(s, s.delayed) && s.cur !in Items(s, Over(s))
  {
    ItemsNoDup(s, s.delayed);
    ItemsNoDup(s, Over(s));
  }

  lemma TimedClock(s: State, r: State, d: word)
    requires Shape(s) && Clock(s) && s.st.at[s.cur] < MAX_PRIORITIES && (d == 0 ==> s.tick != MAX)
    requires Timed(s, r, Add(s.tick, d))
    ensures Clock(r)
  {
    hide Timed, Clock, Shape, CurrentOk, OverflowOk, Items;
    ReadyNotDelayed(s);
    var v := Add(s.tick, d);
    if v < s.tick { OverflowTimed(s, r, v); } else { CurrentTimed(s, r, v); }
  }

  lemma AddClock(s: State, d: word, indefinite: bool)
    requires Shape(s) && Clock(s) && s.st.at[s.cur] < MAX_PRIORITIES && (d == 0 ==> s.tick != MAX)
    ensures Clock(AddToDelayed(s, d, indefinite))
  {
    hide Arena.Wf;
    hide Timed;
    hide Clock;
    if d == MAX && indefinite {
      IndefiniteClock(s);
    } else {
      AddTimed(s, d);
      TimedClock(s, AddToDelayed(s, d, false), d);
    }
  }

  lemma IndefiniteClock(s: State)
    requires Shape(s) && Clock(s) && s.st.at[s.cur] < MAX_PRIORITIES
    ensures Clock(AddToDelayed(s, MAX, true))
  {
    hide Arena.Wf, CurrentOk, OverflowOk;
    MoveEndWf(s.st, SUSPENDED, s.cur);
  }

  /** The running task has left its ready list for a delayed or the suspended list. */
  ghost predicate Blocked(s: State, r: State) {
    && r == s.(st := r.st, wake := r.wake, next := r.next)
    && s.cur in r.st.at && MAX_PRIORITIES <= r.st.at[s.cur] < TERMINATING
    && r.st.at == s.st.at[s.cur := r.st.at[s.cur]]
  }

  lemma AddPlaces(s: State, d: word, indefinite: bool)
    requires Places(s) && s.st.at[s.cur] < MAX_PRIORITIES
    ensures Places(AddToDelayed(s, d, indefinite)) && Blocked(s, AddToDelayed(s, d, indefinite))
  {
    hide Arena.Wf;
    hide Splice;
    var r := AddToDelayed(s, d, indefinite);
    if d == MAX && indefinite { MoveEndWf(s.st, SUSPENDED, s.cur); } else { AddTimed(s, d); }
    hide AddToDelayed;
    EmptyStays(s, r, s.cur);
    BlockedPlaces(s, r);
  }

  lemma BlockedPlaces(s: State, r: State)
    requires Places(s) && s.st.at[s.cur] < MAX_PRIORITIES && Blocked(s, r)
    requires r.st.Wf() && |r.st.lists| == STATE_LISTS && Items(r, TERMINATING) == Items(s, TERMINATING)
    requires TopOk(r)
    ensures Places(r)
  {
    hide Arena.Wf;
    assert r.st.at.Keys == s.st.at.Keys;
  }

  /** Taking a task off its list leaves every empty ready list empty. */
  lemma EmptyStays(s: State, r: State, t: Task)
    requires Places(s) && t in s.st.at && |r.st.lists| == |s.st.lists|
    requires forall m :: 0 <= m < MAX_PRIORITIES && m != s.st.at[t] ==> Items(r, m) == Items(s, m)
    requires r.top == s.top
    ensures TopOk(r)
  {
    forall m | s.top < m < MAX_PRIORITIES && m < |r.st.lists| ensures r.st.lists[m].items == [] {
      assert s.st.lists[m].items == [];
      assert m != s.st.at[t];
      assert Items(r, m) == Items(s, m);
    }
  }

  // ----- one operation at a time: the invariant, and that nobody else is moved

  /** The operation did not touch t: same lists, same wake key, same clock. */
  ghost predicate Same(s: State, r: State, t: Task) {
    && r.now == s.now && r.tick == s.tick && r.delayed == s.delayed
    && t in s.st.at && t in r.st.at && r.st.at[t] == s.st.at[t]
    && Key(r.wake, t) == Key(s.wake, t)
    && (t in r.ev.at <==> t in s.ev.at) && (t in r.ev.at ==> r.ev.at[t] == s.ev.at[t])
  }

  ghost predicate Others(s: State, r: State, x: Task) {
    forall t :: t in s.st.at && t != x ==> Same(s, r, t)
  }

  lemma AddWake(s: State, d: word, indefinite: bool)
    requires Shape(s) && s.st.at[s.cur] < MAX_PRIORITIES
    ensures forall t :: t != s.cur ==> Key(AddToDelayed(s, d, indefinite).wake, t) == Key(s.wake, t)
  {
    hide Arena.Wf;
  }

  lemma AddOthers(s: State, d: word, indefinite: bool)
    requires Places(s) && s.st.at[s.cur] < MAX_PRIORITIES
    ensures Others(s, AddToDelayed(s, d, indefinite), s.cur)
  {
    AddPlaces(s, d, indefinite);
    AddWake(s, d, indefinite);
    hide AddToDelayed;
    hide Places;
    hide Shape;
  }

  lemma EventPlaces(r: State, ev: Arena, t: Task)
    requires Places(r) && t in r.st.at && r.st.at[t] < TERMINATING
    requires ev.Wf() && |ev.lists| == |r.ev.lists| && t in ev.at && ev.at == r.ev.at[t := ev.at[t]]
    requires r.st.at[t] < MAX_PRIORITIES ==> ev.at[t] == PENDING
    ensures Places(r.(ev := ev))
  {
    hide Arena.Wf;
  }

  lemma EventPut(s: State, r: State, l: nat, pos: nat)
    requires Places(s) && s.st.at[s.cur] < MAX_PRIORITIES && s.cur !in s.ev.at
    requires Places(r) && Blocked(s, r) && Others(s, r, s.cur)
    requires 0 < l < |s.ev.lists| && pos <= |s.ev.lists[l].items|
    ensures Places(r.(ev := s.ev.Put(l, pos, s.cur))) && Others(s, r.(ev := s.ev.Put(l, pos, s.cur)), s.cur)
  {
    PutWf(s.ev, l, pos, s.cur);
    hide Arena.Wf, Places, Shape, Others;
    EventPlaces(r, s.ev.Put(l, pos, s.cur), s.cur);
    EventOthers(s, r, r.(ev := s.ev.Put(l, pos, s.cur)));
  }

  lemma EventOthers(s: State, r: State, u: State)
    requires Others(s, r, s.cur) && u == r.(ev := u.ev) && r.ev == s.ev
    requires s.cur in u.ev.at && u.ev.at == s.ev.at[s.cur := u.ev.at[s.cur]]
    ensures Others(s, u, s.cur)
  {
  }

  lemma SameClock(s: State, r: State)
    requires Clock(s) && r.st == s.st && r.wake == s.wake && r.delayed == s.delayed
    requires r.tick == s.tick && r.now == s.now && r.overflows == s.overflows && r.next == s.next
    ensures Clock(r)
  {
    hide CurrentOk;
    hide OverflowOk;
  }

  lemma BlockKeeps(s: State, w: Wait, d: word, indefinite: bool)
    requires Places(s) && Clock(s) && Enabled(s, BlockStep(w, d, indefinite))
    ensures var r := Block(s, w, d, indefinite);
      && Places(r) && Clock(r) && Others(s, r, s.cur)
      && r == s.(st := r.st, ev := r.ev, wake := r.wake, next := r.next)
  {
    hide AddToDelayed, Arena.Wf, Clock, Homes, Waiting, Books, Others, InsertPos, Keys;
    AddPlaces(s, d, indefinite);
    AddClock(s, d, indefinite);
    AddOthers(s, d, indefinite);
    if w.Event? { BlockEventKeeps(s, w.list, AddToDelayed(s, d, indefinite)); }
  }

  lemma BlockEventKeeps(s: State, l: nat, m: State)
    requires Places(s) && s.st.at[s.cur] < MAX_PRIORITIES && s.cur !in s.ev.at && 0 < l < |s.ev.lists|
    requires Places(m) && Clock(m) && Blocked(s, m) && Others(s, m, s.cur)
    ensures var r := m.(ev := s.ev.Put(l, InsertPos(Keys(s.key, s.ev.lists[l].items), Key(s.key, s.cur)), s.cur));
      Places(r) && Clock(r) && Others(s, r, s.cur)
  {
    hide Arena.Wf, Clock, Homes, Waiting, Books, Others, Keys;
    var pos := InsertPos(Keys(s.key, s.ev.lists[l].items), Key(s.key, s.cur));
    EventPut(s, m, l, pos);
    SameClock(m, m.(ev := s.ev.Put(l, pos, s.cur)));
  }

  lemma EventKeeps(s: State, l: nat)
    requires Places(s) && Clock(s) && 0 < l < |s.ev.lists| && s.ev.lists[l].items != []
    ensures var r := EventWake(s, l);
      && Places(r) && Clock(r) && Others(s, r, s.ev.lists[l].items[0])
      && s.ev.Holds(l, s.ev.lists[l].items[0])
      && r == s.(st := r.st, ev := r.ev, top := r.top, yielding := r.yielding)
  {
    Listed(s.ev, l, 0);
    var t := s.ev.lists[l].items[0];
    assert t in s.st.at && s.st.at[t] != TERMINATING;
    if s.suspended == 0 { WakeKeeps(s, t); } else { PendKeeps(s, t); }
    hide Arena.Wf;
    var m := if s.suspended == 0 then Unblock(s, t) else s.(ev := MoveEnd(s.ev, PENDING, t));
    var b := s.yielding || s.prio[t] > s.prio[s.cur];
    YieldKeeps(s, m, b, t);
    assert EventWake(s, l) == m.(yielding := b);
    hide EventWake;
    hide Places;
    hide Clock;
    hide Others;
  }

  lemma YieldKeeps(s: State, m: State, b: bool, t: Task)
    requires Places(m) && Clock(m) && Others(s, m, t)
    ensures Places(m.(yielding := b)) && Clock(m.(yielding := b)) && Others(s, m.(yielding := b), t)
  {
    SameClock(m, m.(yielding := b));
    FlagsPlaces(m, b, m.suspended, m.pended, m.next);
    hide Arena.Wf;
    hide Clock;
    hide Places;
    hide Shape;
  }

  /** The flags and counters say nothing about where the items are. */
  lemma FlagsPlaces(m: State, b: bool, suspended: nat, pended: nat, next: word)
    requires Places(m)
    ensures Places(m.(yielding := b, suspended := suspended, pended := pended, next := next))
  {
    hide Arena.Wf;
  }

  lemma PendKeeps(s: State, t: Task)
    requires Places(s) && Clock(s) && t in s.ev.at
    ensures var r := s.(ev := MoveEnd(s.ev, PENDING, t));
      Places(r) && Clock(r) && Others(s, r, t)
  {
    hide Arena.Wf;
    MoveEndWf(s.ev, PENDING, t);
    SameClock(s, s.(ev := MoveEnd(s.ev, PENDING, t)));
    hide Clock;
    EventPlaces(s, MoveEnd(s.ev, PENDING, t), t);
    hide Places;
  }

  lemma WakeKeeps(s: State, t: Task)
    requires Places(s) && Clock(s) && t in s.st.at && s.st.at[t] != TERMINATING
    ensures Shape(s)
    ensures var r := Unblock(s, t);
      && Places(r) && Clock(r) && Others(s, r, t) && r.st.at == s.st.at[t := s.prio[t]]
      && r == s.(st := r.st, ev := r.ev, top := r.top)
      && r.ev.at == s.ev.at - {t} && |r.ev.lists| == |s.ev.lists|
      && (forall l :: 0 <= l < |s.ev.lists| && !s.ev.Holds(l, t) ==> r.ev.lists[l] == s.ev.lists[l])
  {
    assert Shape(s);
    hide Shape, Places, Clock, Fewer, Unblock, Others;
    UnblockPlaces(s, t);
    WakeMoves(s, t);
    PlacesShape(Unblock(s, t));
    FewerClock(s, Unblock(s, t), t);
  }

  lemma PlacesShape(s: State)
    requires Places(s)
    ensures Shape(s)
  {
    hide Shape;
  }

  /** xTaskRemoveFromEventList moves one task and leaves the rest. */
  lemma WakeMoves(s: State, t: Task)
    requires Shape(s) && t in s.st.at
    ensures var r := Unblock(s, t);
      && Others(s, r, t) && r.st.at == s.st.at[t := s.prio[t]]
      && r == s.(st := r.st, ev := r.ev, top := r.top)
      && r.ev.at == s.ev.at - {t} && |r.ev.lists| == |s.ev.lists|
      && (forall l :: 0 <= l < |s.ev.lists| && !s.ev.Holds(l, t) ==> r.ev.lists[l] == s.ev.lists[l])
  {
    hide Arena.Wf;
    MoveEndWf(s.st, s.prio[t], t);
    DropEventWf(s.ev, t);
    hide MoveEnd, DropEvent;
  }
}
