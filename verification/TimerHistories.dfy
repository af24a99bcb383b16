/** What becomes of one timer over whole runs: a schedule goes on until a user speaks about its timer
    again, and a stopped timer stays stopped until a message that starts it is handled. */
module TimerHistories {
  import opened Words
  import opened Rings
  import opened Timers
  import opened TimerInv
  import opened TimerSteps
  import opened TimerDates
  import opened TimerRuns
  import opened TimerSettles

  // ----- a schedule goes on

  /** From d to r the schedule of t has gone on: it began at the same time, with the same period, no
      run was undone, and no user command about t is under way. */
  ghost predicate GoesOn(d: Daemon, r: Daemon, t: TimerId) {
    t in d.base ==>
      && t in r.base && r.base[t] == d.base[t] && Period(r, t) == Period(d, t) && Runs(r, t) >= Runs(d, t)
      && (t in r.auto <==> t in d.auto) && (NoUser(d.queue, t) ==> NoUser(r.queue, t))
  }

  lemma GoesOnTrans(d: Daemon, m: Daemon, r: Daemon, t: TimerId)
    requires GoesOn(d, m, t) && GoesOn(m, r, t)
    ensures GoesOn(d, r, t)
  {
    hide NoUser, Period, Runs;
  }

  lemma SwitchOneOn(d: Daemon, t: TimerId)
    requires d.current != []
    ensures GoesOn(d, SwitchOne(d), t) && (NoUser(d.queue, t) ==> NoUser(SwitchOne(d).queue, t))
  {
    var e := d.current[0];
    SwitchOneFrame(d);
    if NoUser(d.queue, t) { NoUserPosted(d.queue, Message(Restart, e.timer, e.value, e.due), t); }
    hide NoUser, Insert;
  }

  /** Switching the lists posts nothing but restarts, and undoes no run. */
  lemma {:induction false} SwitchLoopOn(d: Daemon, t: TimerId)
    ensures GoesOn(d, SwitchLoop(d), t) && (NoUser(d.queue, t) ==> NoUser(SwitchLoop(d).queue, t))
    decreases Work(d.current)
  {
    if d.current != [] {
      SwitchProgress(d);
      SwitchOneOn(d, t);
      hide SwitchOne, NoUser, GoesOn;
      SwitchLoopOn(SwitchOne(d), t);
      GoesOnTrans(d, SwitchOne(d), SwitchLoop(d), t);
    }
  }

  lemma SampleOn(d: Daemon, t: TimerId)
    ensures GoesOn(d, Sample(d), t) && (NoUser(d.queue, t) ==> NoUser(Sample(d).queue, t))
  {
    SwitchLoopOn(d, t);
    hide SwitchLoop, NoUser;
  }

  lemma TimerTurnOn(d: Daemon, t: TimerId)
    ensures GoesOn(d, ProcessTimer(d), t)
  {
    SampleOn(d, t);
    var m := Sample(d);
    var r := ProcessTimer(d);
    var next := if d.current == [] then 0 else d.current[0].value;
    if r != m {
      assert m.current == d.current && r == ProcessExpired(m, next, Low(m.now)) by { hide ProcessExpired; }
      hide Sample, ProcessTimer, ProcessExpired;
      ExpiredOn(m, next, t);
      GoesOnTrans(d, m, r, t);
    }
  }

  lemma ExpiredOn(m: Daemon, next: word, t: TimerId)
    requires m.current != []
    ensures GoesOn(m, ProcessExpired(m, next, Low(m.now)), t)
  {
    ExpiredFrame(m, next);
    var e := m.current[0];
    hide ProcessExpired;
    if NoUser(m.queue, t) { NoUserPosted(m.queue, Message(Restart, e.timer, next, e.due), t); }
    hide NoUser;
  }

  lemma CommandTurnOn(d: Daemon, t: TimerId)
    requires OnTime(d) && !d.stuck && Fresh(d) && d.queue != [] && NoUser(d.queue, t)
    ensures GoesOn(d, ProcessCommand(d), t)
  {
    var m := d.queue[0];
    var k := Taken(d);
    var p := Sample(k);
    TakenFrame(d);
    TakenDated(d);
    NoUserTail(d.queue, t);
    SampleOn(k, t);
    assert OnSchedule(d, m.timer);
    ExecuteFrame(p, m);
    hide Taken, Sample, Execute, ProcessCommand, ListInv, AllGood, Dated, Good, Fresh, Stamped, NoRestart, OneRestart;
    if t in d.base {
      ExecuteNoUser(p, m, t);
      if t == m.timer {
        assert m.kind == Restart;
        TakenRestart(d);
        TakingNow(d);
        ExecuteGoesOn(p, m);
      }
    }
  }

  /** No user says anything about t. */
  predicate Silent(steps: seq<Step>, t: TimerId) {
    forall i :: 0 <= i < |steps| && steps[i].Command? ==> steps[i].timer != t
  }

  lemma StepOn(d: Daemon, s: Step, t: TimerId)
    requires OnTime(d) && !d.stuck && Legal(d, s) && t in d.base && NoUser(d.queue, t)
    requires s.Command? ==> s.timer != t
    ensures GoesOn(d, Apply(d, s), t)
  {
    hide OnTime, ProcessTimer, ProcessCommand;
    match s
    case Advance(k) =>
    case Create(u, p, isAuto) =>
    case Command(k, u, v) =>
    case TimerTurn => TimerTurnOn(d, t);
    case CommandTurn => if d.queue != [] { CommandTurnOn(d, t); }
  }

  /** Over any run in which no user says anything about t, the schedule of t goes on. */
  lemma {:induction false} ScheduleStays(d: Daemon, steps: seq<Step>, t: TimerId)
    requires OnTime(d) && LegalRun(d, steps) && t in d.base && NoUser(d.queue, t) && Silent(steps, t)
    ensures var r := Final(d, steps);
      && t in r.base && r.base[t] == d.base[t] && Period(r, t) == Period(d, t) && Runs(r, t) >= Runs(d, t)
      && (t in r.auto <==> t in d.auto) && NoUser(r.queue, t)
    decreases |steps|
  {
    if steps != [] {
      var m := Apply(d, steps[0]);
      StepKeeps(d, steps[0]);
      StepOn(d, steps[0], t);
      forall i | 0 <= i < |steps[1..]| ensures steps[1..][i] == steps[i + 1] { }
      hide OnTime, Apply, Legal, NoUser;
      ScheduleStays(m, steps[1..], t);
    }
  }

  // ----- from the command to the count

  /** A start or period change about t is at the head of the queue, and nothing else about t. */
  ghost predicate Deciding(d: Daemon) {
    && !d.stuck && Legal(d, CommandTurn) && d.queue != []
    && (d.queue[0].kind == Start || d.queue[0].kind == ChangePeriod) && NoMessage(d.queue[1..], d.queue[0].timer)
  }

  lemma Silence(q: seq<Message>, t: TimerId)
    requires NoMessage(q, t)
    ensures NoUser(q, t) && NoRestart(q, t)
  {
  }

  lemma DecidedOn(d: Daemon)
    requires OnTime(d) && Deciding(d) && !ProcessCommand(d).stuck
    ensures var m := d.queue[0];
      var r := ProcessCommand(d);
      && OnTime(r) && m.timer in r.base && r.base[m.timer] == AsksFrom(d, m) && NoUser(r.queue, m.timer)
      && Period(r, m.timer) == PeriodThen(d, m) && r.auto == d.auto
  {
    var m := d.queue[0];
    Silence(d.queue[1..], m.timer);
    hide OnTime, ProcessCommand, NoUser, NoRestart, Prompt, Fresh;
    CommandTurnKeeps(d);
    CommandDecides(d);
    DecidedFrame(d);
  }

  lemma DecidedFrame(d: Daemon)
    requires OnTime(d) && Deciding(d) && NoUser(d.queue[1..], d.queue[0].timer) && !ProcessCommand(d).stuck
    ensures var m := d.queue[0];
      var r := ProcessCommand(d);
      NoUser(r.queue, m.timer) && Period(r, m.timer) == PeriodThen(d, m) && r.auto == d.auto
  {
    var m := d.queue[0];
    var t := m.timer;
    var k := Taken(d);
    var p := Sample(k);
    TakenFrame(d);
    SampleOn(k, t);
    SampleBooks(d);
    hide OnTime, Taken, Sample, ProcessCommand, NoUser, Deciding, ExecuteStart, ExecutePeriod, PeriodThen;
    ExecuteNoUser(p, m, t);
    ExecuteFrame(p, m);
    ExecutePeriodThen(d, p, m);
  }

  lemma SampleBooks(d: Daemon)
    requires OnTime(d) && Deciding(d)
    ensures var p := Sample(Taken(d)); p.auto == d.auto && p.period == d.period && p.now == d.now
  {
    hide ListInv, AllGood, Dated, Sample, NoMessage;
    TakenFrame(d);
    TakenKeeps(d);
    TakenGood(d);
    SampleKeeps(Taken(d), {d.queue[0].timer});
  }

  lemma ExecutePeriodThen(d: Daemon, p: Daemon, m: Message)
    requires p.period == d.period && (m.kind == Start || m.kind == ChangePeriod) && !Execute(p, m).stuck
    ensures Period(Execute(p, m), m.timer) == PeriodThen(d, m)
  {
    hide ExecuteStart, ExecutePeriod;
    if m.kind == Start { StartFrame(p, m); }
    else if m.value > 0 { PeriodFrame(p, m); }
    else { PeriodZero(p, m); }
    hide NoRestart;
  }

  /** Neither drift nor miss, from the command to any later moment: a start sent at C, or a change
      of period handled at C, is handled in any reachable state, with nothing else about its timer
      under way. Whatever happens then, as long as no user says anything about the timer, each time
      the daemon has caught up with the clock the callback has run exactly once for each k >= 1 with
      C + k * period <= now; that of a one-shot timer once, if it was due. */
  lemma ExactFromCommand(before: seq<Step>, after: seq<Step>)
    requires LegalRun(IDLE, before) && Deciding(Final(IDLE, before))
    requires var d := Final(IDLE, before);
      var s := Final(ProcessCommand(d), after);
      && LegalRun(ProcessCommand(d), after) && Silent(after, d.queue[0].timer)
      && !ProcessCommand(d).stuck && !s.stuck && s.last == s.now && Timely(s) && !Drain(s).stuck
    ensures var d := Final(IDLE, before);
      var m := d.queue[0];
      var r := Drain(Final(ProcessCommand(d), after));
      && AsksFrom(d, m) <= r.now == Final(ProcessCommand(d), after).now
      && Runs(r, m.timer) == RunsDue(AsksFrom(d, m), PeriodThen(d, m), m.timer in d.auto, r.now)
  {
    var d := Final(IDLE, before);
    var t := d.queue[0].timer;
    var a := ProcessCommand(d);
    var s := Final(a, after);
    IdleOnTime();
    hide OnTime, Deciding, Timely, Drain, Due, Final, LegalRun, NoUser, ProcessCommand, RunsDue, Silent;
    RunOnTime(IDLE, before);
    DecidedOn(d);
    RunOnTime(a, after);
    ScheduleStays(a, after, t);
    DrainOnTime(s);
    CaughtUp(s, Drain(s), t);
  }

  lemma CaughtUp(s: Daemon, r: Daemon, t: TimerId)
    requires OnTime(r) && !r.stuck && Onward(s, r) && r.queue == [] && !Due(r) && s.last == s.now
    requires t in s.base && NoUser(s.queue, t)
    ensures var b := s.base[t];
      b <= r.now == s.now && Runs(r, t) == RunsDue(b, Period(s, t), t in s.auto, r.now)
  {
    assert OnSchedule(r, t);
    hide ListInv, Dated, AllGood, Good, Due, Off, RunsDue;
    QuietCount(r, t);
  }

  // ----- a stop lasts

  /** m has the daemon list its timer: a start, a reset, a restart or a change of period. */
  predicate Lists(m: Message, t: TimerId) {
    m.timer == t && (Starts(m) || m.kind == ChangePeriod)
  }

  predicate NothingLists(q: seq<Message>, t: TimerId) {
    forall i :: 0 <= i < |q| ==> !Lists(q[i], t)
  }

  /** t is on no list, has run n times, and while nothing under way lists it, nothing will. */
  ghost predicate Rests(d: Daemon, r: Daemon, t: TimerId) {
    Off(r, t) && Runs(r, t) == Runs(d, t) && (NothingLists(d.queue, t) ==> NothingLists(r.queue, t))
  }

  lemma ElsewhereRests(d: Daemon, r: Daemon, u: TimerId, t: TimerId)
    requires Off(d, t) && Elsewhere(d, r, u) && t != u
    requires r.queue == d.queue || exists m: Message :: m.timer != t && r.queue == d.queue + [m]
    ensures Rests(d, r, t)
  {
    assert SameFor(d, r, t);
    ScheduleFrame(d, r, t);
    hide Off, OnSchedule;
  }

  lemma RestsTrans(d: Daemon, m: Daemon, r: Daemon, t: TimerId)
    requires Rests(d, m, t) && Rests(m, r, t)
    ensures Rests(d, r, t)
  {
    hide Off, NothingLists, Runs;
  }

  lemma SwitchOneRests(d: Daemon, t: TimerId)
    requires ListInv(d) && Off(d, t) && d.current != []
    ensures Rests(d, SwitchOne(d), t)
  {
    var e := d.current[0];
    SwitchOneLists(d);
    var m := Message(Restart, e.timer, e.value, e.due);
    assert SwitchOne(d).queue == d.queue || SwitchOne(d).queue == d.queue + [m];
    hide ListInv, SwitchOne, Elsewhere;
    ElsewhereRests(d, SwitchOne(d), e.timer, t);
  }

  lemma {:induction false} SwitchLoopRests(d: Daemon, t: TimerId)
    requires ListInv(d) && Off(d, t)
    ensures ListInv(SwitchLoop(d)) && Rests(d, SwitchLoop(d), t)
    decreases Work(d.current)
  {
    if d.current != [] {
      SwitchProgress(d);
      SwitchOneLists(d);
      SwitchOneRests(d, t);
      hide ListInv, SwitchOne, NothingLists;
      assert Off(SwitchOne(d), t);
      SwitchLoopRests(SwitchOne(d), t);
      RestsTrans(d, SwitchOne(d), SwitchLoop(d), t);
    }
  }

  lemma SampleRests(d: Daemon, t: TimerId)
    requires ListInv(d) && Off(d, t)
    ensures ListInv(Sample(d)) && Rests(d, Sample(d), t)
  {
    SwitchLoopRests(d, t);
    hide SwitchLoop, NothingLists, Sorted, Distinct, Unlisted;
  }

  lemma ExpiredRests(d: Daemon, next: word, t: TimerId)
    requires ListInv(d) && Off(d, t) && d.current != []
    ensures Rests(d, ProcessExpired(d, next, Low(d.now)), t)
  {
    var e := d.current[0];
    ExpiredLists(d, next, Low(d.now));
    ExpiredFrame(d, next);
    var r := ProcessExpired(d, next, Low(d.now));
    var m := Message(Restart, e.timer, next, e.due);
    assert r.queue == d.queue || r.queue == d.queue + [m] by { hide ProcessExpired; }
    hide ListInv, ProcessExpired, Elsewhere;
    ElsewhereRests(d, r, e.timer, t);
  }

  lemma TimerTurnRests(d: Daemon, t: TimerId)
    requires ListInv(d) && Off(d, t)
    ensures Rests(d, ProcessTimer(d), t)
  {
    SampleRests(d, t);
    var m := Sample(d);
    var r := ProcessTimer(d);
    var next := if d.current == [] then 0 else d.current[0].value;
    if r != m {
      assert m.current == d.current && r == ProcessExpired(m, next, Low(m.now)) by { hide ProcessExpired; }
      hide ListInv, Sample, ProcessTimer, ProcessExpired;
      ExpiredRests(m, next, t);
      RestsTrans(d, m, r, t);
    }
  }

  lemma ExecuteRests(p: Daemon, m: Message, t: TimerId)
    requires ListInv(p) && Off(p, m.timer) && Off(p, t) && !Lists(m, t)
    ensures Rests(p, Execute(p, m), t)
  {
    if m.timer != t {
      ExecuteLists(p, m);
      ExecuteQueue(p, m);
      hide ListInv, Execute, Elsewhere;
      ElsewhereRests(p, Execute(p, m), m.timer, t);
    }
  }

  lemma ExecuteQueue(p: Daemon, m: Message)
    ensures var r := Execute(p, m); r.queue == p.queue || r.queue == p.queue + [NextRestart(p, m)]
  {
    ExecuteFrame(p, m);
    hide Execute;
  }

  lemma TakenRests(d: Daemon, t: TimerId)
    requires ListInv(d) && Off(d, t) && d.queue != []
    ensures Rests(d, Taken(d), t)
  {
    if t != d.queue[0].timer {
      TakenKeeps(d);
      assert SameFor(d, Taken(d), t);
      ScheduleFrame(d, Taken(d), t);
    } else {
      TakenKeeps(d);
    }
    hide Off, OnSchedule, ListInv;
  }

  lemma CommandTurnRests(d: Daemon, t: TimerId)
    requires ListInv(d) && Off(d, t) && d.queue != [] && !Lists(d.queue[0], t)
    ensures Rests(d, ProcessCommand(d), t)
  {
    var m := d.queue[0];
    var k := Taken(d);
    TakenFrame(d);
    TakenKeeps(d);
    TakenRests(d, t);
    hide ListInv, Taken, Sample, Execute, ProcessCommand, Elsewhere, Off, NothingLists;
    SampleRests(k, t);
    SampleSkips(k, m.timer);
    ExecuteRests(Sample(k), m, t);
    RestsTrans(d, k, Sample(k), t);
    RestsTrans(d, Sample(k), Execute(Sample(k), m), t);
  }

  /** In no turn of the run does the daemon handle a message that lists t. */
  ghost predicate HandlesNone(d: Daemon, steps: seq<Step>, t: TimerId)
    decreases |steps|
  {
    steps != [] ==>
      && (steps[0].CommandTurn? && d.queue != [] ==> !Lists(d.queue[0], t))
      && HandlesNone(Apply(d, steps[0]), steps[1..], t)
  }

  /** No user starts or resets t, or changes its period. */
  predicate NoneSent(steps: seq<Step>, t: TimerId) {
    forall i :: 0 <= i < |steps| && steps[i].Command? && steps[i].timer == t ==>
      steps[i].kind == Stop || steps[i].kind == Delete
  }

  lemma StepRests(d: Daemon, s: Step, t: TimerId)
    requires OnTime(d) && Off(d, t) && (s.CommandTurn? && d.queue != [] ==> !Lists(d.queue[0], t))
    ensures Off(Apply(d, s), t) && Runs(Apply(d, s), t) == Runs(d, t)
    ensures (s.Command? ==> s.timer != t || s.kind == Stop || s.kind == Delete) && NothingLists(d.queue, t) ==>
      NothingLists(Apply(d, s).queue, t)
  {
    hide Dated, AllGood, ProcessTimer, ProcessCommand, ListInv;
    match s
    case Advance(k) =>
    case Create(u, p, isAuto) =>
    case Command(k, u, v) =>
    case TimerTurn => TimerTurnRests(d, t);
    case CommandTurn => if d.queue != [] { CommandTurnRests(d, t); }
  }

  /** A timer on neither list stays off them, and does not run, until a message that lists it is
      handled. */
  lemma {:induction false} OffUntilListed(d: Daemon, steps: seq<Step>, t: TimerId)
    requires OnTime(d) && LegalRun(d, steps) && Off(d, t) && HandlesNone(d, steps, t)
    ensures var r := Final(d, steps); Off(r, t) && Runs(r, t) == Runs(d, t)
    decreases |steps|
  {
    if steps != [] {
      StepKeeps(d, steps[0]);
      StepRests(d, steps[0], t);
      hide OnTime, Apply, Legal, Off, NothingLists;
      OffUntilListed(Apply(d, steps[0]), steps[1..], t);
    }
  }

  /** With nothing under way that lists t, the daemon posts nothing that does: if no user sends
      one, none is handled. */
  lemma {:induction false} NoneHandled(d: Daemon, steps: seq<Step>, t: TimerId)
    requires OnTime(d) && LegalRun(d, steps) && Off(d, t) && NothingLists(d.queue, t) && NoneSent(steps, t)
    ensures HandlesNone(d, steps, t)
    decreases |steps|
  {
    if steps != [] {
      StepKeeps(d, steps[0]);
      StepRests(d, steps[0], t);
      forall i | 0 <= i < |steps[1..]| ensures steps[1..][i] == steps[i + 1] { }
      assert steps[0].CommandTurn? && d.queue != [] ==> !Lists(d.queue[0], t);
      hide OnTime, Apply, Legal, Off, NothingLists, Lists;
      NoneHandled(Apply(d, steps[0]), steps[1..], t);
    }
  }

  /** A stop or delete, handled in any state of a run, takes the timer off both lists without a run
      of it, even when the clock has wrapped since. */
  lemma StopTakes(d: Daemon)
    requires OnTime(d) && d.queue != [] && (d.queue[0].kind == Stop || d.queue[0].kind == Delete)
    ensures var t := d.queue[0].timer;
      var r := ProcessCommand(d);
      && Off(r, t) && t !in r.base && Runs(r, t) == Runs(d, t)
      && (NothingLists(d.queue[1..], t) ==> NothingLists(r.queue, t))
  {
    var t := d.queue[0].timer;
    var k := Taken(d);
    TakenFrame(d);
    TakenKeeps(d);
    hide ListInv, Taken, Sample, ProcessCommand, Elsewhere, NothingLists, Unlisted;
    SampleRests(k, t);
  }

  /** A stop lasts: the timer is on no list and does not run until a message that lists it is
      handled; with none behind the stop, until a user sends one. */
  lemma StopLasts(d: Daemon, steps: seq<Step>)
    requires OnTime(d) && !d.stuck && Legal(d, CommandTurn) && d.queue != []
    requires d.queue[0].kind == Stop || d.queue[0].kind == Delete
    requires LegalRun(ProcessCommand(d), steps)
    requires var t := d.queue[0].timer;
      HandlesNone(ProcessCommand(d), steps, t) || (NothingLists(d.queue[1..], t) && NoneSent(steps, t))
    ensures var t := d.queue[0].timer;
      var r := Final(ProcessCommand(d), steps);
      Off(r, t) && Runs(r, t) == Runs(d, t)
  {
    var t := d.queue[0].timer;
    hide OnTime, Off, ProcessCommand, NothingLists, NoneSent, Fresh, Prompt, LegalRun, Final, HandlesNone;
    StopTakes(d);
    CommandTurnKeeps(d);
    var a := ProcessCommand(d);
    if !HandlesNone(a, steps, t) { NoneHandled(a, steps, t); }
    OffUntilListed(a, steps, t);
  }

  // ----- the outcome of a stop

  lemma {:induction false} DrainRests(d: Daemon, t: TimerId)
    requires OnTime(d) && !d.stuck && d.last == d.now && Timely(d) && !Drain(d).stuck
    requires Off(d, t) && NothingLists(d.queue, t)
    ensures Off(Drain(d), t)
    decreases Pending(d)
  {
    OnTimeLists(d);
    assert d.queue != [] ==> !Lists(d.queue[0], t);
    hide OnTime, ListInv, ProcessTimer, ProcessCommand, Pending, Due, Timely, Off, NothingLists;
    if d.queue != [] {
      CommandTurnWork(d);
      CommandTurnGoesOn(d);
      CommandTurnRests(d, t);
      if ProcessCommand(d).stuck { StuckStays(ProcessCommand(d)); }
      DrainRests(ProcessCommand(d), t);
    } else if Due(d) {
      TimerTurnWork(d);
      TimerTurnGoesOn(d);
      TimerTurnRests(d, t);
      if ProcessTimer(d).stuck { StuckStays(ProcessTimer(d)); }
      DrainRests(ProcessTimer(d), t);
    }
  }

  /** A stop or delete of an auto-reload timer is at the head of the queue, with no other user
      command about that timer behind it. */
  ghost predicate Stopping(d: Daemon) {
    && OnTime(d) && !d.stuck && d.last == d.now && Timely(d) && d.queue != []
    && (d.queue[0].kind == Stop || d.queue[0].kind == Delete)
    && d.queue[0].timer in d.auto && NoUser(d.queue[1..], d.queue[0].timer)
  }

  lemma StopBound(d: Daemon)
    requires Stopping(d) && !NoRestart(d.queue[1..], d.queue[0].timer)
    ensures var t := d.queue[0].timer;
      var ts := Tokens(d.queue[1..], t);
      && ts != [] && Past(ts, d.now)
      && Bound(ProcessCommand(d), t, NextDue(Winner(ts, Period(d, t), d.now), Period(d, t), d.now))
  {
    var t := d.queue[0].timer;
    TakenDated(d);
    TakenFrame(d);
    assert DatedQueue(d.queue[1..], d.now);
    assert Sample(Taken(d)) == Taken(d);
    TokensPast(d.queue[1..], t, d.now);
    NoTokens(d.queue[1..], t);
    assert ProcessCommand(d) == Stopped(Taken(d), t) by { hide Stopped, Taken; }
    hide OnTime, NoUser, Tokens, Past, Winner, NextDue, NoRestart, Taken, Sample, ProcessCommand;
  }

  lemma NotOff(d: Daemon, t: TimerId, x: nat)
    requires ListedFor(d, t, x)
    ensures !Off(d, t)
  {
  }

  /** A stop takes effect exactly when no restart of its timer is behind it. Otherwise the restart
      that has the last word lists the timer again. */
  lemma StopSettles(d: Daemon)
    requires Stopping(d) && !Drain(d).stuck
    ensures var t := d.queue[0].timer;
      var ts := Tokens(d.queue[1..], t);
      && (Off(Drain(d), t) <==> NoRestart(d.queue[1..], t))
      && (!NoRestart(d.queue[1..], t) ==>
        && ts != [] && Past(ts, d.now)
        && ListedFor(Drain(d), t, NextDue(Winner(ts, Period(d, t), d.now), Period(d, t), d.now)))
  {
    var t := d.queue[0].timer;
    var a := ProcessCommand(d);
    assert OnTime(d) && !d.stuck && d.last == d.now && Timely(d) && d.queue != [];
    if NoRestart(d.queue[1..], t) { NothingBehind(d.queue[1..], t); } else { StopBound(d); }
    hide Stopping, OnTime, Timely, NoUser, NextDue, Pending, ListedFor, ProcessCommand, Tokens, NoRestart, Off, Past;
    CommandTurnWork(d);
    CommandTurnGoesOn(d);
    if a.stuck { StuckStays(a); }
    if NoRestart(d.queue[1..], t) {
      StopTakes(d);
      DrainRests(a, t);
    } else {
      var x := NextDue(Winner(Tokens(d.queue[1..], t), Period(d, t), d.now), Period(d, t), d.now);
      NextBound(d, a, t, x);
      NotOff(Drain(d), t, x);
    }
  }

  lemma NothingBehind(q: seq<Message>, t: TimerId)
    requires NoUser(q, t) && NoRestart(q, t)
    ensures NothingLists(q, t)
  {
  }
}
