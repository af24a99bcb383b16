/** Suspending the scheduler is invisible to time; and how the next task is chosen. */
module SchedSuspend {
  import opened Words
  import opened Rings
  import opened Arenas
  import opened Sched
  import opened SchedInv
  import opened SchedTick
  import opened SchedSteps
  import opened SchedRuns
  import opened SchedTheorems

  /** s with other flags that no tick reads. */
  function With(s: State, b: bool, n: nat): State {
    s.(yielding := b, pended := n)
  }

  lemma UnblockWith(s: State, t: Task, b: bool, n: nat)
    requires Shape(s) && Shape(With(s, b, n)) && t in s.st.at
    ensures Unblock(With(s, b, n), t) == With(Unblock(s, t), b, n)
  {
    hide Arena.Wf, MoveEnd, DropEvent;
  }

  lemma {:induction false} DrainWith(s: State, sw: bool, b: bool, n: nat)
    requires Shape(s)
    ensures Shape(With(s, b, n))
    ensures Drain(With(s, b, n), sw) == (With(Drain(s, sw).0, b, n), Drain(s, sw).1)
    decreases |s.st.lists[s.delayed].items|
  {
    WithShape(s, b, n);
    DrainOne(s, sw);
    DrainOne(With(s, b, n), sw);
    hide Drain, Shape;
    var items := s.st.lists[s.delayed].items;
    if items != [] && s.tick >= Key(s.wake, items[0]) {
      UnblockWith(s, items[0], b, n);
      hide Unblock;
      DrainWith(Unblock(s, items[0]), sw || s.prio[items[0]] >= s.prio[s.cur], b, n);
    }
  }

  lemma TickWith(s: State, b: bool, n: nat)
    requires Shape(s) && s.suspended == 0
    ensures Shape(With(s, b, n)) && Tick(With(s, b, n)).0 == With(Tick(s).0, b, n)
  {
    hide Arena.Wf, Shape, Advanced, Drain;
    AdvancedWith(s, b, n);
    DrainWith(Advanced(s), false, b, n);
  }

  /** A tick asks for the same switches, whatever yield was pending before. */
  lemma TickAsks(s: State, b: bool, n: nat)
    requires Shape(s) && s.suspended == 0 && (s.yielding ==> b)
    ensures Shape(With(s, b, n)) && (b || Tick(With(s, b, n)).1 <==> b || Tick(s).1)
  {
    WithShape(s, b, n);
    TickIs(s);
    TickIs(With(s, b, n));
    AdvancedWith(s, b, n);
    DrainWith(Advanced(s), false, b, n);
    hide Arena.Wf, Shape, Advanced, Drain, Tick;
  }

  lemma AdvancedWith(s: State, b: bool, n: nat)
    requires Shape(s)
    ensures Shape(With(s, b, n)) && Shape(Advanced(s)) && Advanced(With(s, b, n)) == With(Advanced(s), b, n)
  {
    hide Arena.Wf, Shape, Advanced, With;
    WithShape(s, b, n);
    AdvancedShape(s);
    AdvancedSame(s, b, n);
  }

  lemma AdvancedShape(s: State)
    requires Shape(s)
    ensures Shape(Advanced(s))
  {
    hide Arena.Wf;
  }

  lemma AdvancedSame(s: State, b: bool, n: nat)
    requires Shape(s) && Shape(With(s, b, n))
    ensures Advanced(With(s, b, n)) == With(Advanced(s), b, n)
  {
    hide Arena.Wf, SwitchLists;
    SwitchListsWith(s.(tick := Add(s.tick, 1), now := s.now + 1), b, n);
  }

  lemma SwitchListsWith(s: State, b: bool, n: nat)
    requires Shape(s)
    ensures Shape(With(s, b, n)) && SwitchLists(With(s, b, n)) == With(SwitchLists(s), b, n)
  {
    hide Arena.Wf;
  }

  /** k calls of the tick handler with the scheduler running. */
  function TickTimes(s: State, k: nat): (r: State)
    requires Shape(s)
    decreases k
  {
    if k == 0 then s else TickShape(s); TickTimes(Tick(s).0, k - 1)
  }

  /** Some of k ticks asks for a switch. */
  function SwitchAsked(s: State, k: nat): bool
    requires Shape(s)
    decreases k
  {
    if k == 0 then false else TickShape(s); Tick(s).1 || SwitchAsked(Tick(s).0, k - 1)
  }

  lemma LateTickWith(s: State, b: bool, n: nat)
    requires Places(s) && Clock(s) && s.suspended == 0 && (s.yielding ==> b)
    ensures Shape(s) && Shape(With(s, b, n)) && Shape(With(Tick(s).0, b || Tick(s).1, n))
    ensures LateTick(With(s, b, n)) == With(Tick(s).0, b || Tick(s).1, n)
    ensures var r := Tick(s).0;
      Places(r) && Clock(r) && Shape(r) && r.suspended == 0 && r.yielding == s.yielding
  {
    PlacesShape(s);
    hide Arena.Wf, Places, Clock, TickFate, Shape, Tick;
    TickWith(s, b, n);
    TickAsks(s, b, n);
    TickExact(s);
    PlacesShape(Tick(s).0);
    WithShape(Tick(s).0, b || Tick(s).1, n);
  }

  ghost predicate Replays(s: State, k: nat, b: bool, n: nat) {
    && Shape(s) && Shape(With(s, b, n))
    && Replay(With(s, b, n), k) == With(TickTimes(s, k), b || SwitchAsked(s, k), n)
  }

  lemma {:induction false} ReplayIsTicks(s: State, k: nat, b: bool, n: nat)
    requires Places(s) && Clock(s) && s.suspended == 0 && (s.yielding ==> b)
    ensures Replays(s, k, b, n)
    decreases k
  {
    hide *;
    PlacesShape(s);
    if k == 0 {
      WithShape(s, b, n);
      ReplayNone(s, b, n);
    } else {
      LateTickWith(s, b, n);
      ReplayIsTicks(Tick(s).0, k - 1, b || Tick(s).1, n);
      ReplayOnce(s, k, b, n);
    }
  }

  lemma ReplayOnce(s: State, k: nat, b: bool, n: nat)
    requires Places(s) && Clock(s) && s.suspended == 0 && (s.yielding ==> b) && Shape(s) && k > 0
    requires Replays(Tick(s).0, k - 1, b || Tick(s).1, n)
    ensures Replays(s, k, b, n)
  {
    hide Shape, Places, Clock, Replay, TickTimes, SwitchAsked, Tick, LateTick, With;
    LateTickWith(s, b, n);
    ReplayStep(s, k, b, n, Tick(s).0, b || Tick(s).1);
    assert (b || Tick(s).1 || SwitchAsked(Tick(s).0, k - 1)) == (b || SwitchAsked(s, k));
  }

  lemma ReplayNone(s: State, b: bool, n: nat)
    requires Shape(s) && Shape(With(s, b, n))
    ensures Replays(s, 0, b, n)
  {
    hide Arena.Wf;
    hide Tick;
    hide LateTick;
    hide Shape;
    hide With;
  }

  lemma WithShape(s: State, b: bool, n: nat)
    requires Shape(s)
    ensures Shape(With(s, b, n))
  {
    hide Arena.Wf;
  }

  lemma ReplayStep(s: State, k: nat, b: bool, n: nat, m: State, y1: bool)
    requires Shape(s) && Shape(With(s, b, n)) && Shape(m) && Shape(With(m, y1, n)) && k > 0
    requires m == Tick(s).0 && LateTick(With(s, b, n)) == With(m, y1, n)
    ensures Replay(With(s, b, n), k) == Replay(With(m, y1, n), k - 1)
    ensures TickTimes(s, k) == TickTimes(m, k - 1)
    ensures SwitchAsked(s, k) <==> Tick(s).1 || SwitchAsked(m, k - 1)
  {
    hide Arena.Wf;
    hide Tick;
    hide LateTick;
    hide With;
    hide Shape;
  }

  /** Only ticks and nested suspensions, never back at depth zero. */
  predicate StaysIn(depth: nat, steps: seq<Step>)
    decreases |steps|
  {
    && depth > 0
    && (steps != [] ==>
      match steps[0]
      case TickStep => StaysIn(depth, steps[1..])
      case SuspendAllStep => StaysIn(depth + 1, steps[1..])
      case ResumeAllStep => StaysIn(depth - 1, steps[1..])
      case _ => false)
  }

  function Depth(depth: int, steps: seq<Step>): int
    decreases |steps|
  {
    if steps == [] then depth
    else Depth(if steps[0].SuspendAllStep? then depth + 1
               else if steps[0].ResumeAllStep? then depth - 1 else depth, steps[1..])
  }

  /** Only the nesting depth and the count of pended ticks have changed. */
  function Counting(s: State, depth: int, ticks: nat): State {
    s.(suspended := if depth < 0 then 0 else depth, pended := s.pended + ticks)
  }

  lemma {:induction false} InsideWindow(s: State, steps: seq<Step>)
    requires Inv(s) && StaysIn(s.suspended, steps)
    ensures Legal(s, steps) && Depth(s.suspended, steps) > 0
    ensures Run(s, steps) == Counting(s, Depth(s.suspended, steps), Ticks(steps))
    decreases |steps|
  {
    hide *;
    if steps != [] {
      var step, rest := steps[0], steps[1..];
      assert steps == [step] + rest;
      StaysEnabled(s, steps);
      StepInv(s, step);
      var m := Apply(s, step);
      StaysStep(s, step, rest);
      InsideWindow(m, rest);
      RunOne(s, steps);
      CountingTwice(s, m.suspended, if step.TickStep? then 1 else 0, Depth(m.suspended, rest), Ticks(rest));
      TicksOne(steps);
    } else {
      NothingDone(s);
    }
  }

  lemma NothingDone(s: State)
    requires Inv(s) && StaysIn(s.suspended, [])
    ensures Legal(s, []) && Depth(s.suspended, []) > 0
    ensures Run(s, []) == Counting(s, Depth(s.suspended, []), Ticks([]))
  {
    hide Inv;
  }

  lemma StaysEnabled(s: State, steps: seq<Step>)
    requires Inv(s) && steps != [] && StaysIn(s.suspended, steps)
    ensures Places(s) && Enabled(s, steps[0])
  {
    hide Arena.Wf, Clock, Shape, Homes, Waiting, Books;
  }

  lemma TicksOne(steps: seq<Step>)
    requires steps != []
    ensures Ticks(steps) == (if steps[0].TickStep? then 1 else 0) + Ticks(steps[1..])
  {
  }

  lemma CountingTwice(s: State, a: int, i: nat, b: int, j: nat)
    ensures Counting(Counting(s, a, i), b, j) == Counting(s, b, i + j)
    ensures Counting(s, s.suspended, 0) == s
  {
  }

  lemma RunOne(s: State, steps: seq<Step>)
    requires Inv(s) && steps != [] && Enabled(s, steps[0]) && Able(s, steps[0]) && Inv(Apply(s, steps[0]))
    requires Legal(Apply(s, steps[0]), steps[1..])
    ensures Legal(s, steps) && Run(s, steps) == Run(Apply(s, steps[0]), steps[1..])
  {
    hide Inv, Enabled, Able, Apply;
  }

  lemma StaysStep(s: State, step: Step, rest: seq<Step>)
    requires Inv(s) && Able(s, step) && StaysIn(s.suspended, [step] + rest)
    ensures var m := Apply(s, step);
      && StaysIn(m.suspended, rest)
      && m == Counting(s, m.suspended, if step.TickStep? then 1 else 0)
      && Depth(s.suspended, [step] + rest) == Depth(m.suspended, rest)
  {
    assert ([step] + rest)[1..] == rest;
    StaysApply(s, step);
    hide Apply, Inv, Able;
  }

  /** The steps allowed inside the window only count. */
  lemma StaysApply(s: State, step: Step)
    requires Able(s, step) && s.suspended > 0
    requires step.TickStep? || step.SuspendAllStep? || (step.ResumeAllStep? && s.suspended > 1)
    ensures var m := Apply(s, step);
      && m == Counting(s, m.suspended, if step.TickStep? then 1 else 0)
      && m.suspended == if step.SuspendAllStep? then s.suspended + 1
                        else if step.ResumeAllStep? then s.suspended - 1 else s.suspended
  {
    hide Arena.Wf, Shape, Drain, DrainPending, Replay;
  }

  /** Suspension is transparent to time: whatever nesting of suspensions goes on, the ticks that
      arrive before the outermost xTaskResumeAll leave exactly the state that as many ticks leave
      with the scheduler running, with a yield pending exactly when one was before or one of those
      ticks asks for a switch. */
  lemma SuspensionTransparent(s: State, steps: seq<Step>)
    requires Inv(s) && s.suspended == 0 && StaysIn(1, steps) && Depth(1, steps) == 1
    ensures Inv(s.(suspended := 1)) && Legal(s.(suspended := 1), steps)
    ensures var w := Run(s.(suspended := 1), steps);
      var k := Ticks(steps);
      && Shape(w) && w.suspended == 1
      && ResumeAll(w) == With(TickTimes(s, k), s.yielding || SwitchAsked(s, k), 0)
  {
    hide Arena.Wf, Homes, Waiting, Books, Clock, Run, Legal, ResumeAll, Replay, TickTimes, SwitchAsked, StaysIn, Depth;
    var s1 := s.(suspended := 1);
    var k := Ticks(steps);
    SuspendAllInv(s);
    NoneMeansEmpty(s);
    InsideWindow(s1, steps);
    var w := Run(s1, steps);
    assert w == s1.(pended := k);
    assert Resumed(w) == With(s, s.yielding, k) by { NothingPending(s, w, k); }
    ResumeAllIs(w);
    ReplayIsTicks(s, k, s.yielding, k);
  }

  lemma NothingPending(s: State, w: State, k: nat)
    requires Shape(s) && s.suspended == 0 && s.ev.lists[PENDING].items == []
    requires w == s.(suspended := 1, pended := k)
    ensures Shape(w) && Resumed(w) == With(s, s.yielding, k) && Shape(Resumed(w))
  {
    hide Arena.Wf;
  }

  // ----- time slicing

  /** The scheduler is running and some task of priority 0, the idle task, is ready. */
  ghost predicate Running(s: State) {
    Places(s) && s.suspended == 0 && s.st.lists[0].items != []
  }

  /** The highest non-empty ready list. */
  ghost function TopRing(s: State): (r: Ring<Task>)
    requires Running(s)
    ensures r.items != [] && r.Valid()
  {
    SwitchList(s);
    assert s.st.Wf();
    s.st.lists[FindTop(s, s.top)]
  }

  lemma SwitchAgain(s: State)
    requires Running(s)
    ensures var r := SwitchContext(s);
      && Running(r) && r.top == FindTop(s, s.top) && FindTop(r, r.top) == r.top
      && r.st == s.st.Advance(r.top) && r.cur == r.st.lists[r.top].Selected()
      && |r.st.lists| == STATE_LISTS
  {
    hide Arena.Wf;
    SwitchPlaces(s);
    SwitchList(s);
  }

  /** A switch selects the next task of the highest non-empty ready list, which stays that. */
  lemma SwitchTakesNext(s: State)
    requires Running(s)
    ensures var r := SwitchContext(s);
      && Running(r) && TopRing(r) == TopRing(s).Next()
      && 0 < TopRing(r).index <= |TopRing(r).items| && r.cur == TopRing(r).Selected()
  {
    SwitchAgain(s);
    hide SwitchContext, FindTop, Homes, Waiting, Books, Arena.Wf;
    var r := SwitchContext(s);
    assert TopRing(r) == r.st.lists[r.top];
  }

  /** k context switches with nothing else going on. */
  function SwitchTimes(s: State, k: nat): (r: State)
    requires Running(s)
    ensures Running(r)
  {
    if k == 0 then s else SwitchAgain(SwitchTimes(s, k - 1)); SwitchContext(SwitchTimes(s, k - 1))
  }

  /** Repeated switches walk the highest non-empty ready list and touch nothing else. */
  lemma {:induction false} SwitchWalks(s: State, k: nat)
    requires Running(s)
    ensures var r := SwitchTimes(s, k);
      && TopRing(r) == Walk(TopRing(s), k)
      && (k > 0 ==> 0 < TopRing(r).index <= |TopRing(r).items| && r.cur == TopRing(r).Selected())
  {
    hide Running, TopRing, SwitchContext;
    if k > 0 {
      SwitchWalks(s, k - 1);
      SwitchTakesNext(SwitchTimes(s, k - 1));
    }
  }

  /** Time slicing: over as many context switches as there are tasks at the highest ready
      priority, each of those tasks is selected exactly once. */
  lemma TimeSliceFair(s: State, t: Task) returns (k: nat)
    requires Running(s) && t in TopRing(s).items
    ensures var n := |TopRing(s).items|;
      && 0 < k <= n && SwitchTimes(s, k).cur == t
      && forall j :: 0 < j <= n && j != k ==> SwitchTimes(s, j).cur != t
  {
    var ring := TopRing(s);
    hide *;
    var i :| 0 <= i < |ring.items| && ring.items[i] == t;
    k := FairWalk(ring, i);
    SwitchWalks(s, k);
    forall j | 0 < j <= |ring.items| && j != k ensures SwitchTimes(s, j).cur != t { SwitchWalks(s, j); }
  }
}
