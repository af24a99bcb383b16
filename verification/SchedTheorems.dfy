/** The main results about the scheduler, over every run from every reachable state. */
module SchedTheorems {
  import opened Words
  import opened Rings
  import opened Arenas
  import opened Sched
  import opened SchedInv
  import opened SchedTick
  import opened SchedSteps
  import opened SchedOps
  import opened SchedRuns

  /** Does the operation act on t itself? The tick, the switch, the drain of pended work and
      every operation on another task do not. */
  ghost predicate Touches(s: State, step: Step, t: Task)
    requires Places(s) && Enabled(s, step)
  {
    match step
    case BlockStep(_, _, _) => t == s.cur
    case EventStep(l) => t == s.ev.lists[l].items[0]
    case NotifyStep(x, _) => t == x
    case SuspendStep(x) => t == x
    case DeleteStep(x) => t == x
    case _ => false
  }

  ghost predicate Steady(s: State, r: State) {
    r.now == s.now && r.pended == s.pended && r.suspended == s.suspended
  }

  lemma {:induction false} CleanupSteady(s: State)
    requires CleanupReady(s)
    ensures Steady(s, Cleanup(s)) && Cleanup(s).ev == s.ev
    decreases s.cleanup
  {
    hide Arena.Wf;
    if s.cleanup > 0 {
      CleanOneReady(s);
      CleanupSteady(CleanOne(s));
    }
    hide CleanupReady;
  }

  lemma BlockSteady(s: State, step: Step)
    requires Able(s, step) && (step.BlockStep? || step.EventStep?)
    ensures Steady(s, Apply(s, step))
  {
    hide Arena.Wf, Shape, InsertPos, MoveEnd, MoveTo, DropEvent;
  }

  lemma SuspensionSteady(s: State, step: Step)
    requires Able(s, step) && (step.SuspendStep? || step.ResumeStep? || step.ResumeISRStep? || step.NotifyStep?)
    ensures Steady(s, Apply(s, step))
  {
    hide Arena.Wf, Shape, MoveEnd, DropEvent;
  }

  lemma TaskSteady(s: State, step: Step)
    requires Able(s, step)
    requires step.SwitchStep? || step.PriorityStep? || step.CreateStep? || step.DeleteStep? || step.CleanupStep?
    ensures Steady(s, Apply(s, step))
  {
    hide Arena.Wf, Cleanup, FindTop, Shape, MoveEnd, DropEvent;
    if step.CleanupStep? { CleanupSteady(s); }
  }

  /** Operations other than ticks and scheduler suspension leave the clock and its counters alone. */
  lemma OthersSteady(s: State, step: Step)
    requires Able(s, step)
    requires !step.TickStep? && !step.SuspendAllStep? && !step.ResumeAllStep?
    ensures Steady(s, Apply(s, step))
  {
    hide *;
    match step
    case BlockStep(_, _, _) => BlockSteady(s, step);
    case EventStep(_) => BlockSteady(s, step);
    case SuspendStep(_) => SuspensionSteady(s, step);
    case ResumeStep(_) => SuspensionSteady(s, step);
    case ResumeISRStep(_) => SuspensionSteady(s, step);
    case NotifyStep(_, _) => SuspensionSteady(s, step);
    case _ => TaskSteady(s, step);
  }

  lemma MovesKeep(s: State, step: Step)
    requires Places(s) && Clock(s) && Enabled(s, step) && Able(s, step)
    requires step.BlockStep? || step.EventStep? || step.SuspendStep? || step.ResumeStep? || step.ResumeISRStep?
    ensures Places(Apply(s, step)) && Clock(Apply(s, step))
  {
    hide Arena.Wf, Shape, Clock, Homes, Waiting, Books, Block, EventWake, Suspend, Resume, ResumeFromISR, Others;
    match step
    case BlockStep(w, d, b) => BlockKeeps(s, w, d, b);
    case EventStep(l) => EventKeeps(s, l);
    case SuspendStep(t) => SuspendKeeps(s, t);
    case ResumeStep(t) => ResumeKeeps(s, t);
    case ResumeISRStep(t) => ResumeISRKeeps(s, t);
  }

  lemma ChangesKeep(s: State, step: Step)
    requires Places(s) && Clock(s) && Enabled(s, step) && Able(s, step)
    requires step.SwitchStep? || step.NotifyStep? || step.PriorityStep? || step.CreateStep? || step.DeleteStep? ||
      step.CleanupStep?
    ensures Places(Apply(s, step)) && Clock(Apply(s, step))
  {
    hide Arena.Wf, Shape, Clock, Homes, Waiting, Books, SwitchContext, Notify, Reprioritise, Create, Delete, Cleanup;
    hide Others, Same;
    match step
    case SwitchStep => SwitchKeeps(s);
    case NotifyStep(t, isr) => NotifyKeeps(s, t, isr);
    case PriorityStep(t, p) => RepriKeeps(s, t, p);
    case CreateStep(t, p) => CreateKeeps(s, t, p);
    case DeleteStep(t) => DeleteKeeps(s, t);
    case CleanupStep => CleanupKeeps(s);
  }

  lemma OthersKeep(s: State, step: Step)
    requires Places(s) && Clock(s) && Enabled(s, step) && Able(s, step)
    requires !step.TickStep? && !step.SuspendAllStep? && !step.ResumeAllStep?
    ensures Places(Apply(s, step)) && Clock(Apply(s, step))
  {
    hide *;
    match step
    case BlockStep(_, _, _) => MovesKeep(s, step);
    case EventStep(_) => MovesKeep(s, step);
    case SuspendStep(_) => MovesKeep(s, step);
    case ResumeStep(_) => MovesKeep(s, step);
    case ResumeISRStep(_) => MovesKeep(s, step);
    case _ => ChangesKeep(s, step);
  }

  /** Ticks delivered are ticks processed plus ticks pended. */
  predicate Delivers(s: State, r: State, ticks: nat) {
    r.now + r.pended == s.now + s.pended + ticks
  }

  lemma PendedTickInv(s: State)
    requires Inv(s) && s.suspended > 0
    ensures Shape(s) && Inv(Tick(s).0) && Delivers(s, Tick(s).0, 1)
  {
    hide Places, Clock, Drain, Advanced;
    PendedTick(s);
    hide Tick, Shape;
    FlagsPlaces(s, s.yielding, s.suspended, s.pended + 1, s.next);
    FlagsClock(s, s.yielding, s.suspended, s.pended + 1);
  }

  lemma PendedTick(s: State)
    requires Places(s) && s.suspended > 0
    ensures Shape(s) && Tick(s).0 == s.(pended := s.pended + 1)
    ensures s.(yielding := s.yielding, suspended := s.suspended, pended := s.pended + 1, next := s.next) == Tick(s).0
    ensures s.(yielding := s.yielding, suspended := s.suspended, pended := s.pended + 1) == Tick(s).0
  {
    hide Drain, Advanced, Arena.Wf;
  }

  lemma RunningTickInv(s: State)
    requires Inv(s) && s.suspended == 0
    ensures Shape(s) && Inv(Tick(s).0) && Delivers(s, Tick(s).0, 1)
  {
    hide Arena.Wf, Homes, Waiting, Books, Clock, NonePending, Tick, TickFate;
    assert Shape(s);
    hide Places, Shape;
    TickExact(s);
    TickNonePending(s);
  }

  lemma TickInv(s: State)
    requires Inv(s)
    ensures Shape(s) && Inv(Tick(s).0) && Delivers(s, Tick(s).0, 1)
  {
    hide *;
    if s.suspended > 0 { PendedTickInv(s); } else { RunningTickInv(s); }
  }

  lemma SuspendAllInv(s: State)
    requires Inv(s)
    ensures var r := s.(suspended := s.suspended + 1); Inv(r) && Delivers(s, r, 0)
  {
    hide Places, Clock;
    FlagsPlaces(s, s.yielding, s.suspended + 1, s.pended, s.next);
    FlagsClock(s, s.yielding, s.suspended + 1, s.pended);
  }

  lemma ResumeAllInv(s: State)
    requires Inv(s) && s.suspended > 0
    ensures Shape(s) && Inv(ResumeAll(s)) && Delivers(s, ResumeAll(s), 0)
  {
    ResumeAllKeeps(s);
    hide Places, Clock, ResumeAll;
  }

  lemma OthersInv(s: State, step: Step)
    requires Inv(s) && Enabled(s, step) && Able(s, step)
    requires !step.TickStep? && !step.SuspendAllStep? && !step.ResumeAllStep?
    ensures Inv(Apply(s, step)) && Delivers(s, Apply(s, step), 0)
  {
    hide Places, Clock, Apply, Enabled, Able;
    OthersKeep(s, step);
    OthersSteady(s, step);
    OthersNonePending(s, step);
  }

  /** Only with the scheduler suspended is anything put on xPendingReadyList. */
  lemma OthersNonePending(s: State, step: Step)
    requires NonePending(s) && Able(s, step) && Steady(s, Apply(s, step))
    requires !step.TickStep? && !step.SuspendAllStep? && !step.ResumeAllStep?
    ensures NonePending(Apply(s, step))
  {
    hide Arena.Wf, Cleanup, FindTop, MoveEnd, MoveTo, InsertPos, DropEvent;
    if s.suspended == 0 {
      match step {
        case EventStep(l) => Listed(s.ev, l, 0); DropEventWf(s.ev, s.ev.lists[l].items[0]);
        case SuspendStep(t) => DropEventWf(s.ev, t);
        case DeleteStep(t) => DropEventWf(s.ev, t);
        case CleanupStep => CleanupSteady(s);
        case _ =>
      }
      forall t ensures !Apply(s, step).ev.Holds(PENDING, t) { assert !s.ev.Holds(PENDING, t); }
    }
  }

  lemma InvAble(s: State, step: Step)
    requires Inv(s) && Enabled(s, step)
    ensures Able(s, step)
  {
    hide Places, Clock, Able, Enabled;
    EnabledAble(s, step);
  }

  lemma TickStepInv(s: State, step: Step)
    requires Inv(s) && Able(s, step) && step.TickStep?
    ensures Inv(Apply(s, step)) && Delivers(s, Apply(s, step), 1)
  {
    hide Inv, Delivers, Shape, Tick;
    TickInv(s);
  }

  lemma SuspendAllStepInv(s: State, step: Step)
    requires Inv(s) && Able(s, step) && step.SuspendAllStep?
    ensures Inv(Apply(s, step)) && Delivers(s, Apply(s, step), 0)
  {
    hide Inv, Delivers, Shape;
    SuspendAllInv(s);
  }

  lemma ResumeAllStepInv(s: State, step: Step)
    requires Inv(s) && Able(s, step) && step.ResumeAllStep?
    ensures Inv(Apply(s, step)) && Delivers(s, Apply(s, step), 0)
  {
    hide Inv, Delivers, Shape, ResumeAll;
    ResumeAllInv(s);
  }

  /** Every operation keeps the invariant, and ticks delivered = ticks processed + ticks pended. */
  lemma StepInv(s: State, step: Step)
    requires Inv(s) && Enabled(s, step)
    ensures Able(s, step) && Inv(Apply(s, step))
    ensures Delivers(s, Apply(s, step), if step.TickStep? then 1 else 0)
  {
    InvAble(s, step);
    hide *;
    if step.TickStep? { TickStepInv(s, step); }
    else if step.SuspendAllStep? { SuspendAllStepInv(s, step); }
    else if step.ResumeAllStep? { ResumeAllStepInv(s, step); }
    else { OthersInv(s, step); }
  }

  // ----- runs

  /** Each operation of the run meets what the kernel demands of its caller. */
  ghost predicate Legal(s: State, steps: seq<Step>)
    requires Inv(s)
    decreases |steps|
  {
    steps == [] || (Enabled(s, steps[0]) && (StepInv(s, steps[0]); Legal(Apply(s, steps[0]), steps[1..])))
  }

  ghost function Run(s: State, steps: seq<Step>): (r: State)
    requires Inv(s) && Legal(s, steps)
    decreases |steps|
  {
    if steps == [] then s else StepInv(s, steps[0]); Run(Apply(s, steps[0]), steps[1..])
  }

  function Ticks(steps: seq<Step>): nat {
    if steps == [] then 0 else (if steps[0].TickStep? then 1 else 0) + Ticks(steps[1..])
  }

  /** The invariant holds in every reachable state, and no delivered tick is ever lost. */
  lemma {:induction false} RunInv(s: State, steps: seq<Step>)
    requires Inv(s) && Legal(s, steps)
    ensures Inv(Run(s, steps))
    ensures Run(s, steps).now + Run(s, steps).pended == s.now + s.pended + Ticks(steps)
    decreases |steps|
  {
    hide Inv;
    if steps != [] {
      StepInv(s, steps[0]);
      RunInv(Apply(s, steps[0]), steps[1..]);
    }
  }

  /** No operation of the run acts on t itself. */
  ghost predicate Avoids(s: State, steps: seq<Step>, t: Task)
    requires Inv(s) && Legal(s, steps)
    decreases |steps|
  {
    steps == [] ||
    (!Touches(s, steps[0], t) && (StepInv(s, steps[0]); Avoids(Apply(s, steps[0]), steps[1..], t)))
  }

  lemma OthersTrack(s: State, r: State, x: Task, t: Task, due: int)
    requires Places(s) && Places(r) && Others(s, r, x) && t != x && Track(s, t, due)
    ensures Track(r, t, due)
  {
    TrackSame(s, r, t, due);
  }

  lemma RepriTrack(s: State, x: Task, p: nat, t: Task, due: int)
    requires Places(s) && Clock(s) && x in s.st.at && p < MAX_PRIORITIES && Track(s, t, due)
    ensures Track(Reprioritise(s, x, p), t, due)
  {
    hide Arena.Wf;
    RepriKeeps(s, x, p);
    var r := Reprioritise(s, x, p);
    hide Reprioritise;
    if t != x {
      hide Places, Clock;
      OthersTrack(s, r, x, t, due);
    } else if s.st.at[t] >= MAX_PRIORITIES {
      TrackSame(s, r, t, due);
    } else {
      OwnRepriTrack(s, x, p, due);
    }
  }

  lemma OwnRepriTrack(s: State, x: Task, p: nat, due: int)
    requires Places(s) && Clock(s) && x in s.st.at && p < MAX_PRIORITIES && Track(s, x, due)
    requires s.st.at[x] < MAX_PRIORITIES
    ensures Track(Reprioritise(s, x, p), x, due)
  {
    hide Arena.Wf, Clock, Homes, Waiting, Books;
    RepriSteady(s, x, p);
    RepriEvent(s, x, p);
    RepriKeeps(s, x, p);
    hide Reprioritise, Shape, Others;
    assert s.now >= due;
  }

  lemma RepriEvent(s: State, x: Task, p: nat)
    requires Shape(s) && x in s.st.at && p < MAX_PRIORITIES
    ensures Reprioritise(s, x, p).ev == s.ev
  {
    hide Arena.Wf, MoveEnd;
  }

  lemma RepriSteady(s: State, x: Task, p: nat)
    requires Shape(s) && x in s.st.at && p < MAX_PRIORITIES
    ensures Steady(s, Reprioritise(s, x, p))
  {
    hide Arena.Wf;
  }

  lemma NotTerminating(s: State, t: Task, due: int)
    requires Places(s) && Track(s, t, due)
    ensures s.st.at[t] != TERMINATING && s.st.at[t] != SUSPENDED
  {
    hide Arena.Wf;
  }

  /** An operation that neither acts on t nor lets time pass; t is not to be resumed. */
  ghost predicate Bystander(s: State, step: Step, t: Task) {
    && Inv(s) && Enabled(s, step) && Able(s, step) && Inv(Apply(s, step)) && !Touches(s, step, t)
    && t in s.st.at && s.st.at[t] != TERMINATING && !IsSuspended(s, t)
    && !step.TickStep? && !step.ResumeAllStep? && !(step.PriorityStep? && step.task == t)
  }

  lemma BlockSame(s: State, step: Step, t: Task)
    requires Bystander(s, step, t) && (step.BlockStep? || step.EventStep?)
    ensures Same(s, Apply(s, step), t)
  {
    hide Arena.Wf, Clock, NonePending, Same, Shape, Homes, Waiting, Books, Block, EventWake;
    match step
    case BlockStep(w, d, b) => BlockKeeps(s, w, d, b);
    case EventStep(l) => EventKeeps(s, l);
  }

  lemma SuspendSame(s: State, step: Step, t: Task)
    requires Bystander(s, step, t) && (step.SuspendStep? || step.NotifyStep? || step.DeleteStep?)
    ensures Same(s, Apply(s, step), t)
  {
    hide Arena.Wf, Clock, NonePending, Same, Shape, Homes, Waiting, Books, Suspend, Notify, Delete;
    match step
    case SuspendStep(x) => SuspendKeeps(s, x);
    case NotifyStep(x, isr) => NotifyKeeps(s, x, isr);
    case DeleteStep(x) => DeleteKeeps(s, x);
  }

  lemma SelfSame(s: State, t: Task)
    requires t in s.st.at
    ensures Same(s, s, t)
  {
  }

  /** Only a suspended task is resumed. */
  lemma ResumeSame(s: State, step: Step, t: Task)
    requires Bystander(s, step, t) && (step.ResumeStep? || step.ResumeISRStep?)
    ensures Same(s, Apply(s, step), t)
  {
    hide Arena.Wf, Clock, NonePending, Same, Shape, Homes, Waiting, Books, Resume, ResumeFromISR, IsSuspended;
    SelfSame(s, t);
    if step.task == t { NotResumed(s, t); }
    match step
    case ResumeStep(x) => ResumeKeeps(s, x);
    case ResumeISRStep(x) => ResumeISRKeeps(s, x);
  }

  lemma NotResumed(s: State, t: Task)
    requires Shape(s) && t in s.st.at && !IsSuspended(s, t)
    ensures Resume(s, t) == s && ResumeFromISR(s, t) == s
  {
    hide Arena.Wf, MakeReady;
  }

  lemma TaskSame(s: State, step: Step, t: Task)
    requires Bystander(s, step, t) && (step.PriorityStep? || step.CreateStep?)
    ensures Same(s, Apply(s, step), t)
  {
    assert step.CreateStep? ==> t != step.task by { hide Arena.Wf, Homes, Waiting, Books, Clock; }
    hide Arena.Wf, Clock, NonePending, Same, Shape, Homes, Waiting, Books, Reprioritise, Create;
    match step
    case PriorityStep(x, p) => RepriKeeps(s, x, p);
    case CreateStep(x, p) => CreateKeeps(s, x, p);
  }

  lemma SchedulerSame(s: State, step: Step, t: Task)
    requires Bystander(s, step, t) && (step.SuspendAllStep? || step.SwitchStep? || step.CleanupStep?)
    ensures Same(s, Apply(s, step), t)
  {
    hide Arena.Wf, Clock, NonePending, Same, Shape, Homes, Waiting, Books, SwitchContext, Cleanup;
    match step
    case SuspendAllStep => SuspendAllSame(s, t);
    case SwitchStep => SwitchKeeps(s);
    case CleanupStep => CleanupKeeps(s);
  }

  lemma SuspendAllSame(s: State, t: Task)
    requires t in s.st.at
    ensures Same(s, s.(suspended := s.suspended + 1), t)
  {
  }

  /** Nobody else is moved. */
  lemma StepSame(s: State, step: Step, t: Task)
    requires Bystander(s, step, t)
    ensures Same(s, Apply(s, step), t)
  {
    assert !step.TickStep? && !step.ResumeAllStep?;
    hide *;
    match step
    case BlockStep(_, _, _) => BlockSame(s, step, t);
    case EventStep(_) => BlockSame(s, step, t);
    case SuspendStep(_) => SuspendSame(s, step, t);
    case NotifyStep(_, _) => SuspendSame(s, step, t);
    case DeleteStep(_) => SuspendSame(s, step, t);
    case ResumeStep(_) => ResumeSame(s, step, t);
    case ResumeISRStep(_) => ResumeSame(s, step, t);
    case PriorityStep(_, _) => TaskSame(s, step, t);
    case CreateStep(_, _) => TaskSame(s, step, t);
    case SuspendAllStep => SchedulerSame(s, step, t);
    case SwitchStep => SchedulerSame(s, step, t);
    case CleanupStep => SchedulerSame(s, step, t);
  }

  // ----- a tracked task

  lemma PendedTickTrack(s: State, t: Task, due: int)
    requires Places(s) && s.suspended > 0 && Track(s, t, due)
    ensures Shape(s) && Track(Tick(s).0, t, due)
  {
    hide Tick, Track, Places;
    PendedTick(s);
    TrackFlags(s, s.yielding, s.suspended, s.pended + 1, s.next, t, due);
  }

  lemma TickTrack(s: State, t: Task, due: int)
    requires Inv(s) && Track(s, t, due)
    ensures Shape(s) && Track(Tick(s).0, t, due)
  {
    PlacesShape(s);
    hide Places, Clock, NonePending, Track, Shape, Tick;
    if s.suspended > 0 { PendedTickTrack(s, t, due); } else { TrackTick(s, t, due); }
  }

  lemma BystanderTrack(s: State, step: Step, t: Task, due: int)
    requires Bystander(s, step, t) && Track(s, t, due)
    ensures Track(Apply(s, step), t, due)
  {
    hide Clock, NonePending, Shape, Homes, Waiting, Books, Track, Same, Apply, Enabled, Able, Touches, IsSuspended;
    StepSame(s, step, t);
    TrackSame(s, Apply(s, step), t, due);
  }

  lemma StepTrack(s: State, step: Step, t: Task, due: int)
    requires Inv(s) && Enabled(s, step) && Able(s, step) && !Touches(s, step, t) && Track(s, t, due)
    requires Inv(Apply(s, step))
    ensures Track(Apply(s, step), t, due)
  {
    hide Places, Clock, NonePending, Track, Tick, ResumeAll, Reprioritise, Touches, Bystander;
    if step.TickStep? {
      TickTrack(s, t, due);
    } else if step.ResumeAllStep? {
      ResumeAllKeeps(s);
    } else if step.PriorityStep? && step.task == t {
      RepriTrack(s, step.task, step.prio, t, due);
    } else {
      hide *;
      OtherTrack(s, step, t, due);
    }
  }

  lemma OtherTrack(s: State, step: Step, t: Task, due: int)
    requires Inv(s) && Enabled(s, step) && Able(s, step) && !Touches(s, step, t) && Track(s, t, due)
    requires Inv(Apply(s, step)) && !step.TickStep? && !step.ResumeAllStep? && !(step.PriorityStep? && step.task == t)
    ensures Track(Apply(s, step), t, due)
  {
    NotTerminating(s, t, due);
    hide Inv, Track, Touches, Bystander, Apply, Enabled, Able;
    TrackedBystander(s, step, t, due);
    BystanderTrack(s, step, t, due);
  }

  lemma TrackedBystander(s: State, step: Step, t: Task, due: int)
    requires Inv(s) && Enabled(s, step) && Able(s, step) && !Touches(s, step, t) && Track(s, t, due)
    requires Inv(Apply(s, step)) && s.st.at[t] != TERMINATING && s.st.at[t] != SUSPENDED
    requires !step.TickStep? && !step.ResumeAllStep? && !(step.PriorityStep? && step.task == t)
    ensures Bystander(s, step, t)
  {
    hide Inv, Enabled, Able, Touches, Apply, Due;
  }

  lemma {:induction false} RunTrack(s: State, steps: seq<Step>, t: Task, due: int)
    requires Inv(s) && Legal(s, steps) && Avoids(s, steps, t) && Track(s, t, due)
    ensures Track(Run(s, steps), t, due)
    decreases |steps|
  {
    hide Inv;
    hide Touches;
    if steps != [] {
      StepInv(s, steps[0]);
      StepTrack(s, steps[0], t, due);
      RunTrack(Apply(s, steps[0]), steps[1..], t, due);
    }
  }

  /** Blocking for d ticks puts the running task on the list of the epoch in which it is due. */
  lemma TimedTracks(s: State, r: State, d: word)
    requires Timed(s, r, Add(s.tick, d)) && s.tick == Low(s.now)
    requires s.delayed == DELAYED_1 || s.delayed == DELAYED_2
    requires s.cur in s.prio && s.cur !in s.ev.at
    ensures Track(r.(ev := s.ev), s.cur, s.now + if d == 0 then 1 else d)
  {
    hide Splice;
    hide InsertPos;
    hide Items;
  }

  lemma TrackEvent(r: State, ev: Arena, t: Task, due: int)
    requires Track(r, t, due) && !ev.Holds(PENDING, t)
    ensures Track(r.(ev := ev), t, due)
  {
  }

  lemma BlockTracks(s: State, w: Wait, d: word, indefinite: bool)
    requires Inv(s) && Enabled(s, BlockStep(w, d, indefinite)) && !(d == MAX && indefinite)
    ensures Track(Block(s, w, d, indefinite), s.cur, s.now + if d == 0 then 1 else d)
  {
    hide Arena.Wf;
    AddTimed(s, d);
    assert s.cur !in s.ev.at;
    var m := AddToDelayed(s, d, false);
    assert m == AddToDelayed(s, d, indefinite) && m.ev == s.ev;
    TimedTracks(s, m, d);
    hide AddToDelayed;
    hide Clock;
    hide Timed;
    assert m.(ev := s.ev) == m;
    TrackEvent(m, Block(s, w, d, indefinite).ev, s.cur, s.now + if d == 0 then 1 else d);
  }

  /** t is delayed before its due time and on the ready list of its priority from then on. */
  ghost predicate WakesAt(r: State, t: Task, due: int) {
    && t in r.st.at && t in r.prio
    && (IsDelayed(r, t) <==> r.now < due)
    && (!IsDelayed(r, t) ==> r.st.at[t] == r.prio[t])
  }

  /** b is s after the running task has blocked for d ticks, not indefinitely. */
  ghost predicate BlocksFor(s: State, w: Wait, d: word, indefinite: bool, b: State) {
    && Inv(s) && Enabled(s, BlockStep(w, d, indefinite)) && !(d == MAX && indefinite)
    && b == Block(s, w, d, indefinite)
  }

  /** Exact wake-up. A task that blocks for d ticks at unbounded time N is on a delayed list
      before N + d and ready from N + d on (a zero block time counts as one tick), whatever
      else happens in the run: clock wraps, list switches, suspended scheduling, other tasks. */
  lemma ExactWake(s: State, w: Wait, d: word, indefinite: bool, b: State, steps: seq<Step>)
    requires BlocksFor(s, w, d, indefinite, b)
    requires Inv(b) && Legal(b, steps) && Avoids(b, steps, s.cur)
    ensures WakesAt(Run(b, steps), s.cur, s.now + if d == 0 then 1 else d)
  {
    var due := s.now + if d == 0 then 1 else d;
    hide *;
    BlocksForTracks(s, w, d, indefinite, b);
    RunTrack(b, steps, s.cur, due);
    RunInv(b, steps);
    TrackReads(Run(b, steps), s.cur, due);
  }

  lemma BlocksForTracks(s: State, w: Wait, d: word, indefinite: bool, b: State)
    requires BlocksFor(s, w, d, indefinite, b)
    ensures Track(b, s.cur, s.now + if d == 0 then 1 else d)
  {
    hide Inv, Enabled, Block, Track;
    BlockTracks(s, w, d, indefinite);
  }

  lemma TrackReads(r: State, t: Task, due: int)
    requires Inv(r) && Track(r, t, due)
    ensures WakesAt(r, t, due)
  {
    hide Arena.Wf;
  }

  /** The block itself is a legal step, so the run above exists. */
  lemma BlockInv(s: State, w: Wait, d: word, indefinite: bool, b: State)
    requires BlocksFor(s, w, d, indefinite, b)
    ensures Inv(b)
  {
    hide Arena.Wf;
    StepInv(s, BlockStep(w, d, indefinite));
    hide Block;
    hide Inv;
  }

  // ----- one place for every task

  /** t stands on exactly one of the state lists, at exactly one position. */
  ghost predicate OnOneList(a: Arena, t: Task) {
    exists l, i :: 0 <= l < |a.lists| && 0 <= i < |a.lists[l].items| && a.lists[l].items[i] == t &&
      forall m, j :: 0 <= m < |a.lists| && 0 <= j < |a.lists[m].items| && a.lists[m].items[j] == t ==> m == l && j == i
  }

  ghost predicate OnNoList(a: Arena, t: Task) {
    forall m :: 0 <= m < |a.lists| ==> t !in a.lists[m].items
  }

  lemma OnePlace(a: Arena, t: Task)
    requires a.Wf()
    ensures if t in a.at then OnOneList(a, t) else OnNoList(a, t)
  {
    if t in a.at {
      var l := a.at[t];
      var i :| 0 <= i < |a.lists[l].items| && a.lists[l].items[i] == t;
      forall m, j | 0 <= m < |a.lists| && 0 <= j < |a.lists[m].items| && a.lists[m].items[j] == t
        ensures m == l && j == i
      {
        assert a.lists[m].items[j] in a.lists[m].items;
      }
    }
  }

  /** In every reachable state: each live task's state item is on exactly one list, which is the
      ready list of its own priority if it is a ready list (Homes), its event
      item on at most one, the list lengths add up to uxCurrentNumberOfTasks, and the tasks
      waiting for the idle task are exactly the ones it has been told of. */
  lemma OnePlaceEach(s: State, steps: seq<Step>)
    requires Inv(s) && Legal(s, steps)
    ensures var r := Run(s, steps);
      && (forall t :: t in r.prio ==> OnOneList(r.st, t))
      && Homes(r)
      && (forall t :: OnOneList(r.ev, t) || OnNoList(r.ev, t))
      && Total(r.st.lists) == r.count == |r.prio|
      && |r.st.lists| == STATE_LISTS && |r.st.lists[TERMINATING].items| == r.cleanup
  {
    RunInv(s, steps);
    var r := Run(s, steps);
    hide Run;
    hide Legal;
    PlaceEach(r);
  }

  lemma PlaceEach(r: State)
    requires Inv(r)
    ensures (forall t :: t in r.prio ==> OnOneList(r.st, t))
    ensures Homes(r)
    ensures (forall t :: OnOneList(r.ev, t) || OnNoList(r.ev, t))
    ensures Total(r.st.lists) == r.count == |r.prio|
    ensures |r.st.lists| == STATE_LISTS && |r.st.lists[TERMINATING].items| == r.cleanup
  {
    hide Arena.Wf;
    Conserved(r.st);
    assert r.st.at.Keys == r.prio.Keys;
    forall t | t in r.prio ensures OnOneList(r.st, t) { OnePlace(r.st, t); }
    forall t ensures OnOneList(r.ev, t) || OnNoList(r.ev, t) { OnePlace(r.ev, t); }
    hide OnOneList;
    hide OnNoList;
    hide Total;
  }

  // ----- the list switch

  /** The assertion of taskSWITCH_DELAYED_LISTS can only be met on the last tick of an epoch. A
      block on that tick leaves the current list empty, as it demands, exactly when the block
      time is not zero: a zero block time parks the task on the list about to be abandoned. */
  lemma ZeroDelayTrips(s: State, d: word)
    requires Inv(s) && s.st.at[s.cur] < MAX_PRIORITIES && s.tick == MAX
    ensures Items(s, s.delayed) == []
    ensures Items(AddToDelayed(s, d, false), s.delayed) == [] <==> d != 0
  {
    hide Arena.Wf;
    AddTimed(s, d);
    hide Sorted;
    hide InsertPos;
    var r := AddToDelayed(s, d, false);
    hide AddToDelayed;
    LastTick(s, r, d);
  }

  lemma LastTick(s: State, r: State, d: word)
    requires Timed(s, r, Add(s.tick, d)) && s.tick == MAX && Items(s, s.delayed) == []
    requires (s.delayed == DELAYED_1 || s.delayed == DELAYED_2) && s.st.at[s.cur] < MAX_PRIORITIES
    ensures Items(r, s.delayed) == [] <==> d != 0
  {
    hide InsertPos;
    var v := Add(s.tick, d);
    if d == 0 {
      assert v == MAX;
      assert |Items(r, s.delayed)| == 1;
    } else {
      assert v == d - 1;
      assert Items(r, s.delayed) == Items(s, s.delayed);
    }
  }
}
