/** What xTimerIsTimerActive can be relied on for: a listed timer is active, but an active timer need
    not be listed, for a one-shot timer that has run may still count as active. */
module TimerActive {
  import opened Words
  import opened Rings
  import opened Timers
  import opened TimerInv
  import opened TimerSteps
  import opened TimerDates
  import opened TimerRuns

  /** Whatever is listed is active; and what is active is followed, or a restart of it is under way,
      but for the timers in except. */
  ghost predicate ActiveInv(d: Daemon, except: set<TimerId>) {
    Listed(d) && Known(d, except)
  }

  ghost predicate Listed(d: Daemon) {
    forall x :: x in d.current || x in d.overflow ==> x.timer in d.active
  }

  ghost predicate Known(d: Daemon, except: set<TimerId>) {
    forall t :: t in d.active && t !in except ==> t in d.base || !NoRestart(d.queue, t)
  }

  // ----- the lists

  lemma InsertListed(s: seq<Entry>, e: Entry, active: set<TimerId>)
    requires e.timer in active && forall x :: x in s ==> x.timer in active
    ensures forall x :: x in Insert(s, e) ==> x.timer in active
  {
    hide Splice, InsertPos, Values;
    SpliceMembers(s, InsertPos(Values(s), e.value), e);
  }

  lemma InsertTimerListed(q: Daemon, t: TimerId, next: word, now: word, command: word, due: nat)
    requires Listed(q) && t in q.active
    ensures Listed(InsertTimer(q, t, next, now, command, due).0)
  {
    hide Insert, Place;
    InsertListed(q.current, Entry(t, next, due), q.active);
    InsertListed(q.overflow, Entry(t, next, due), q.active);
  }

  lemma QueueGrows(q: seq<Message>, r: seq<Message>, t: TimerId)
    requires !NoRestart(q, t) && (r == q || exists m: Message :: r == q + [m])
    ensures !NoRestart(r, t)
  {
    var i :| 0 <= i < |q| && IsRestart(q[i], t);
    assert r[i] == q[i];
  }

  /** Nothing has gone from the queue or the schedule books, and nothing new is active. */
  lemma KnownFrame(d: Daemon, r: Daemon, except: set<TimerId>)
    requires Known(d, except) && r.active <= d.active + except
    requires forall t :: t in d.base && t !in except ==> t in r.base
    requires r.queue == d.queue || exists m: Message :: r.queue == d.queue + [m]
    ensures Known(r, except)
  {
    hide NoRestart;
    forall t | t in r.active && t !in except ensures t in r.base || !NoRestart(r.queue, t) {
      if t !in d.base { QueueGrows(d.queue, r.queue, t); }
    }
  }

  lemma SwitchOneActive(d: Daemon, except: set<TimerId>)
    requires ActiveInv(d, except) && d.current != []
    ensures ActiveInv(SwitchOne(d), except)
  {
    SwitchOneFrame(d);
    SwitchOneListed(d);
    hide SwitchOne, Listed, NoRestart;
    KnownFrame(d, SwitchOne(d), except);
  }

  lemma SwitchOneListed(d: Daemon)
    requires Listed(d) && d.current != []
    ensures Listed(SwitchOne(d))
  {
    hide Insert, Add, Period;
    var e := d.current[0];
    var p := Period(d, e.timer);
    InsertListed(d.current[1..], Entry(e.timer, Add(e.value, p), e.due + p), d.active);
  }

  lemma {:induction false} SwitchLoopActive(d: Daemon, except: set<TimerId>)
    requires ActiveInv(d, except)
    ensures ActiveInv(SwitchLoop(d), except) && SwitchLoop(d).active == d.active
    decreases Work(d.current)
  {
    if d.current != [] {
      SwitchProgress(d);
      SwitchOneFrame(d);
      SwitchOneActive(d, except);
      hide ActiveInv, SwitchOne;
      SwitchLoopActive(SwitchOne(d), except);
    }
  }

  lemma SampleActive(d: Daemon, except: set<TimerId>)
    requires ActiveInv(d, except)
    ensures ActiveInv(Sample(d), except) && Sample(d).active == d.active
  {
    SwitchLoopActive(d, except);
    hide SwitchLoop, NoRestart;
  }

  // ----- the timer turn

  /** prvProcessExpiredTimer: a one-shot timer is active no longer. */
  lemma ExpiredActive(d: Daemon, next: word)
    requires ListInv(d) && ActiveInv(d, {}) && d.current != []
    ensures var t := d.current[0].timer;
      var r := ProcessExpired(d, next, Low(d.now));
      ActiveInv(r, {}) && r.active == (if t in d.auto then d.active else d.active - {t}) && t in d.active
  {
    var r := ProcessExpired(d, next, Low(d.now));
    assert d.current[0] in d.current && d.current[0].timer in d.active;
    ExpiredListed(d, next);
    ExpiredFrame(d, next);
    ExpiredQueue(d, next, Low(d.now));
    hide ProcessExpired, NoRestart, ListInv, Listed;
    KnownFrame(d, r, {});
  }

  lemma ExpiredListed(d: Daemon, next: word)
    requires ListInv(d) && Listed(d) && d.current != [] && d.current[0].timer in d.active
    ensures var t := d.current[0].timer;
      var r := ProcessExpired(d, next, Low(d.now));
      Listed(r) && r.active == (if t in d.auto then d.active else d.active - {t})
  {
    var e := d.current[0];
    var t := e.timer;
    var p := Popped(d);
    assert Listed(p) && p.active == d.active;
    PoppedKeeps(d);
    PoppedFrame(d);
    ExpiredIs(d, next, Low(d.now));
    hide ProcessExpired, Popped, InsertTimer, Post, NoRestart, Add, Period, ListInv, Elsewhere, Listed;
    if t in d.auto {
      var due := e.due + Period(p, t);
      InsertTimerListed(p, t, Add(next, Period(p, t)), Low(d.now), next, due);
      InsertFrame(p, t, Add(next, Period(p, t)), Low(d.now), next, due);
      var m := InsertTimer(p, t, Add(next, Period(p, t)), Low(d.now), next, due).0;
      PostFrame(m, Message(Restart, t, next, e.due));
      PostListed(m, Message(Restart, t, next, e.due));
    } else {
      OffListed(p, t);
    }
  }

  lemma PostListed(d: Daemon, m: Message)
    requires Listed(d)
    ensures Listed(Post(d, m))
  {
  }

  lemma OffListed(p: Daemon, t: TimerId)
    requires Listed(p) && Off(p, t)
    ensures Listed(p.(active := p.active - {t}))
  {
    UnlistedMeans(p.current, t);
    UnlistedMeans(p.overflow, t);
  }

  lemma TimerTurnActive(d: Daemon)
    requires OnTime(d) && !d.stuck && Fresh(d) && ActiveInv(d, {})
    ensures ActiveInv(ProcessTimer(d), {})
  {
    SampleKeeps(d, {});
    SampleActive(d, {});
    var m := Sample(d);
    var next := if d.current == [] then 0 else d.current[0].value;
    hide Sample, ListInv, AllGood, ProcessExpired, ActiveInv, Dated;
    if Low(d.now) >= Low(d.last) && d.current != [] && next <= Low(d.now) { ExpiredActive(m, next); }
  }

  // ----- the command turn

  lemma TakenActive(d: Daemon)
    requires ActiveInv(d, {}) && d.queue != []
    ensures ActiveInv(Taken(d), {d.queue[0].timer}) && Taken(d).active == d.active
  {
    hide NoRestart;
    var t := d.queue[0].timer;
    forall u | u in d.active && u != t && u !in d.base ensures !NoRestart(d.queue[1..], u) {
      StillRestarts(d.queue, u);
    }
  }

  lemma StillRestarts(q: seq<Message>, t: TimerId)
    requires q != [] && !NoRestart(q, t) && q[0].timer != t
    ensures !NoRestart(q[1..], t)
  {
    var i :| 0 <= i < |q| && IsRestart(q[i], t);
    assert q[1..][i - 1] == q[i];
  }

  lemma KnownAgain(d: Daemon, t: TimerId)
    requires Known(d, {t}) && (t in d.active ==> t in d.base || !NoRestart(d.queue, t))
    ensures Known(d, {})
  {
    hide NoRestart;
  }

  /** A command of any kind but stop and delete leaves its timer active. */
  lemma ExecuteActive(p: Daemon, m: Message)
    requires ListInv(p) && Off(p, m.timer) && ActiveInv(p, {m.timer})
    ensures var r := Execute(p, m); !r.stuck ==>
      ActiveInv(r, {}) && (m.timer in r.active <==> m.kind != Stop && m.kind != Delete)
  {
    hide ListInv, NoRestart, Off, ActiveInv, ExecuteStart, ExecutePeriod;
    match m.kind
    case Start => StartActive(p, m);
    case Restart => StartActive(p, m);
    case ChangePeriod => if m.value > 0 { PeriodActive(p, m); } else { PeriodZero(p, m); }
    case Stop => StoppedActive(p, m.timer);
    case Delete => StoppedActive(p, m.timer);
  }

  lemma StoppedActive(p: Daemon, t: TimerId)
    requires Off(p, t) && ActiveInv(p, {t})
    ensures ActiveInv(Stopped(p, t), {}) && t !in Stopped(p, t).active
  {
    OffListed(p, t);
    hide Off, NoRestart;
    KnownFrame(p, Stopped(p, t), {t});
    KnownAgain(Stopped(p, t), t);
  }

  lemma StartActive(p: Daemon, m: Message)
    requires ActiveInv(p, {m.timer})
    ensures ActiveInv(ExecuteStart(p, m), {}) && m.timer in ExecuteStart(p, m).active
  {
    var t := m.timer;
    var a := p.(active := p.active + {t});
    var r := ExecuteStart(p, m);
    StartFrame(p, m);
    FollowFrame(a, m, m.sent);
    StartListed(p, m);
    hide ExecuteStart, NoRestart, Listed, Elsewhere, ListInv, Off;
    var q := Follow(a, m, m.sent);
    FollowKnown(a, m, m.sent);
    hide Follow;
    KnownFrame(p, r, {t});
    if NoRestart(p.queue, t) { assert t in r.base; } else { QueueGrows(p.queue, r.queue, t); }
    KnownAgain(r, t);
  }

  lemma FollowKnown(a: Daemon, m: Message, start: nat)
    ensures forall u :: u != m.timer ==> (u in Follow(a, m, start).base <==> u in a.base)
  {
    hide NoRestart;
  }

  lemma StartListed(p: Daemon, m: Message)
    requires Listed(p)
    ensures Listed(ExecuteStart(p, m))
  {
    var t := m.timer;
    var a := p.(active := p.active + {t});
    assert Listed(a);
    FollowFrame(a, m, m.sent);
    hide Follow, InsertTimer, Post, Add, Period, Listed, Elsewhere, ListInv, Off;
    var q := Follow(a, m, m.sent);
    SameListed(a, q);
    var next := Add(m.value, Period(p, t));
    InsertTimerListed(q, t, next, Low(p.now), m.value, m.sent + Period(p, t));
    var d1 := InsertTimer(q, t, next, Low(p.now), m.value, m.sent + Period(p, t)).0;
    SameListed(d1, Callback(d1, t));
    PostListed(Callback(d1, t), Message(Restart, t, next, m.sent + Period(p, t)));
  }

  lemma SameListed(d: Daemon, r: Daemon)
    requires Listed(d) && r.current == d.current && r.overflow == d.overflow && r.active == d.active
    ensures Listed(r)
  {
  }

  lemma PeriodActive(p: Daemon, m: Message)
    requires ActiveInv(p, {m.timer}) && m.value > 0
    ensures ActiveInv(ExecutePeriod(p, m), {}) && m.timer in ExecutePeriod(p, m).active
  {
    var t := m.timer;
    var a := p.(active := p.active + {t}, period := p.period[t := m.value]);
    var r := ExecutePeriod(p, m);
    PeriodFrame(p, m);
    FollowFrame(a, m, p.now);
    assert Listed(a);
    hide NoRestart, Listed, Elsewhere, ListInv, Off, InsertTimer, Add;
    var q := Follow(a, m, p.now);
    SameListed(a, q);
    FollowKnown(a, m, p.now);
    hide Follow;
    InsertTimerListed(q, t, Add(Low(p.now), m.value), Low(p.now), Low(p.now), p.now + m.value);
    KnownFrame(p, r, {t});
    KnownAgain(r, t);
  }

  lemma CommandTurnActive(d: Daemon)
    requires OnTime(d) && !d.stuck && Fresh(d) && d.queue != [] && ActiveInv(d, {})
    ensures var r := ProcessCommand(d); !r.stuck ==>
      ActiveInv(r, {}) && (d.queue[0].timer in r.active <==> d.queue[0].kind != Stop && d.queue[0].kind != Delete)
  {
    var m := d.queue[0];
    TakenActive(d);
    TakenDated(d);
    TakenFrame(d);
    TakenKeeps(d);
    TakenGood(d);
    hide ListInv, AllGood, Dated, Taken, Sample, Execute, ProcessCommand, Off, ActiveInv, Stamped, Elsewhere;
    SampleActive(Taken(d), {m.timer});
    TakingNow(d);
    ExecuteActive(Sample(Taken(d)), m);
  }

  // ----- whole runs

  lemma StepActive(d: Daemon, s: Step)
    requires OnTime(d) && !d.stuck && Legal(d, s) && ActiveInv(d, {})
    ensures !Apply(d, s).stuck ==> ActiveInv(Apply(d, s), {})
  {
    hide OnTime, ProcessTimer, ProcessCommand;
    match s
    case Advance(_) =>
    case Create(_, _, _) =>
    case Command(k, t, v) => SentActive(d, k, t, v);
    case TimerTurn => TimerTurnActive(d);
    case CommandTurn => if d.queue != [] { CommandTurnActive(d); }
  }

  lemma SentActive(d: Daemon, k: Kind, t: TimerId, v: word)
    requires ActiveInv(d, {})
    ensures ActiveInv(Sent(d, k, t, v), {})
  {
    hide NoRestart;
    KnownFrame(d, Sent(d, k, t, v), {});
  }

  lemma {:induction false} RunActive(d: Daemon, steps: seq<Step>)
    requires OnTime(d) && LegalRun(d, steps) && ActiveInv(d, {}) && !Final(d, steps).stuck
    ensures ActiveInv(Final(d, steps), {})
    decreases |steps|
  {
    if steps != [] {
      hide OnTime, Apply, Legal, ActiveInv;
      StepKeeps(d, steps[0]);
      StepActive(d, steps[0]);
      assert steps[1..] == [] ==> Final(d, steps) == Apply(d, steps[0]);
      RunActive(Apply(d, steps[0]), steps[1..]);
    }
  }

  /** In every reachable state a timer on a list is active, and an active one is on a list, or about
      to be restarted, or else a one-shot timer whose callback has run: the last alone should count
      as dormant. */
  lemma ActiveMeans(steps: seq<Step>, t: TimerId)
    requires LegalRun(IDLE, steps) && !Final(IDLE, steps).stuck
    ensures var d := Final(IDLE, steps);
      && (!Off(d, t) ==> t in d.active)
      && (t in d.active ==>
           !Off(d, t) || !NoRestart(d.queue, t) || (t !in d.auto && t in d.base && Runs(d, t) == 1))
  {
    var d := Final(IDLE, steps);
    IdleOnTime();
    RunOnTime(IDLE, steps);
    assert ActiveInv(IDLE, {});
    RunActive(IDLE, steps);
    hide Final, LegalRun, NoRestart, OneRestart;
    if !Off(d, t) { OffMeans(d, t); }
    assert OnSchedule(d, t);
    hide ListInv, Dated, AllGood, Off, ListedFor;
    if t in d.active && t in d.base { OneIsSome(d, t); }
  }

  lemma OffMeans(d: Daemon, t: TimerId)
    requires Listed(d) && !Off(d, t)
    ensures t in d.active
  {
    UnlistedMeans(d.current, t);
    UnlistedMeans(d.overflow, t);
  }

  lemma OneIsSome(d: Daemon, t: TimerId)
    requires t in d.base && Good(d, t)
    ensures !Off(d, t) || !NoRestart(d.queue, t) || (t !in d.auto && Runs(d, t) == 1)
  {
    if ListedFor(d, t, Reached(d, t) + Period(d, t)) { NotOff(d, t, Reached(d, t) + Period(d, t)); }
  }

  lemma NotOff(d: Daemon, t: TimerId, x: nat)
    requires ListedFor(d, t, x)
    ensures !Off(d, t)
  {
  }

  /** When a one-shot timer runs, it becomes dormant exactly when its turn comes before the clock
      wraps: a run while the lists are switched leaves it active. */
  lemma OneShotDormant(d: Daemon, t: TimerId)
    requires OnTime(d) && !d.stuck && Fresh(d) && ActiveInv(d, {}) && t !in d.auto
    requires Runs(ProcessTimer(d), t) > Runs(d, t)
    ensures t !in ProcessTimer(d).active <==> Low(d.now) >= Low(d.last)
  {
    var m := Sample(d);
    var next := if d.current == [] then 0 else d.current[0].value;
    SampleActive(d, {});
    SampleKeeps(d, {});
    hide ListInv, AllGood, Dated, ActiveInv, Sample, ProcessExpired, Off;
    if Low(d.now) < Low(d.last) {
      RanAtSwitch(d, t);
    } else {
      assert Runs(m, t) == Runs(d, t) && m.current == d.current;
      RanAlone(m, next, t);
    }
  }

  lemma RanAtSwitch(d: Daemon, t: TimerId)
    requires ListInv(d) && Listed(d) && Runs(Sample(d), t) > Runs(d, t)
    ensures t in d.active
  {
    if Off(d, t) { SampleSkips(d, t); } else { OffMeans(d, t); }
    hide ListInv, Sample;
  }

  lemma RanAlone(m: Daemon, next: word, t: TimerId)
    requires ListInv(m) && ActiveInv(m, {}) && t !in m.auto && m.current != []
    requires Runs(ProcessExpired(m, next, Low(m.now)), t) > Runs(m, t)
    ensures t !in ProcessExpired(m, next, Low(m.now)).active
  {
    ExpiredActive(m, next);
    OnlyHeadRuns(m, next, t);
    hide ProcessExpired, ListInv;
  }

  lemma OnlyHeadRuns(m: Daemon, next: word, t: TimerId)
    requires ListInv(m) && m.current != []
    ensures t == m.current[0].timer || Runs(ProcessExpired(m, next, Low(m.now)), t) == Runs(m, t)
  {
    ExpiredLists(m, next, Low(m.now));
    if t != m.current[0].timer { assert SameFor(m, ProcessExpired(m, next, Low(m.now)), t); }
    hide ProcessExpired, ListInv;
  }
}
