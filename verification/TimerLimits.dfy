/** A reset and a stop that do not take effect, and a one-shot timer that stays active: the exact
    conditions are TimerSettles.CommandSettles, TimerHistories.StopSettles and
    TimerActive.OneShotDormant, these are the inputs. */
module TimerLimits {
  import opened Words
  import opened Timers
  import opened TimerInv
  import opened TimerSteps
  import opened TimerRuns

  const PERIOD: word := 1000

  /** An auto-reload timer of period 1000, with nothing on the overflow list. */
  function At(current: seq<Entry>, queue: seq<Message>, active: set<TimerId>, now: nat,
              base: map<TimerId, nat>, runs: map<TimerId, nat>): Daemon
  {
    Daemon(current, [], queue, map[0 := PERIOD], {0}, active, now, now, base, runs, false)
  }

  /** The timer is started 1050 ticks before the clock wraps, and reset or stopped 130 ticks before;
      the daemon next runs 10 ticks after the wrap. */
  function Script(kind: Kind): (run: seq<Step>)
    ensures |run| == 10
  {
    [Create(0, PERIOD, true), Advance(WRAP - 1050), Command(Start, 0, 0), CommandTurn,
     Advance(920), Command(kind, 0, 0), Advance(140), TimerTurn, CommandTurn, CommandTurn]
  }

  const CREATED: Daemon := IDLE.(period := map[0 := PERIOD], auto := {0})
  const BEFORE: Daemon := CREATED.(now := WRAP - 1050)
  const START: Message := Message(Start, 0, WRAP - 1050, WRAP - 1050)
  const STARTED: Daemon :=
    At([Entry(0, WRAP - 50, WRAP - 50)], [], {0}, WRAP - 1050, map[0 := WRAP - 1050], map[0 := 0])
  const OVERRULED: Daemon :=
    At([Entry(0, 950, WRAP + 950)], [], {0}, WRAP + 10, map[0 := WRAP - 50], map[0 := 0])

  /** The user's command. */
  function Asked(kind: Kind): Message {
    Message(kind, 0, if kind == Start then WRAP - 130 else 0, WRAP - 130)
  }

  const BEHIND: Message := RestartFor(0, WRAP - 50)

  /** Before the daemon runs again, once it has switched the lists, and once it has taken the command. */
  function Waiting(kind: Kind): Daemon {
    STARTED.(queue := [Asked(kind)], now := WRAP + 10)
  }

  function Switched(kind: Kind): Daemon {
    At([], [Asked(kind), BEHIND], {0}, WRAP + 10, map[0 := WRAP - 1050], map[0 := 1])
  }

  function Obeyed(kind: Kind): Daemon {
    if kind == Start then At([Entry(0, 870, WRAP + 870)], [BEHIND], {0}, WRAP + 10, map[], map[0 := 1])
    else At([], [BEHIND], {}, WRAP + 10, map[], map[0 := 1])
  }

  lemma StepAt(run: seq<Step>, d: Daemon, m: Daemon, k: nat)
    requires k < |run| && Legal(d, run[k]) && !d.stuck && Apply(d, run[k]) == m && LegalRun(m, run[k + 1..])
    ensures LegalRun(d, run[k..]) && Final(d, run[k..]) == Final(m, run[k + 1..])
  {
    hide Legal, Apply;
    assert run[k..][0] == run[k] && run[k..][1..] == run[k + 1..];
  }

  lemma InsertAlone(e: Entry)
    ensures Insert([], e) == [e]
  {
  }

  /** d with its first message taken, the timer about to be started. */
  function Starting(d: Daemon, t: TimerId): Daemon
    requires d.queue != []
  {
    d.(queue := d.queue[1..], current := [], last := d.now, active := d.active + {t})
  }

  /** A start that is not yet due, handled before the clock has wrapped, lists its timer alone. */
  lemma StartAlone(d: Daemon, m: Message)
    requires d.queue != [] && d.queue[0] == m && Starts(m) && Low(d.now) >= Low(d.last) && d.overflow == []
    requires Drop(d.current, m.timer) == []
    requires Place(Add(m.value, Period(d, m.timer)), Low(d.now), m.value, Period(d, m.timer)) == ToCurrent
    ensures var p := Period(d, m.timer);
      Apply(d, CommandTurn) ==
        Follow(Starting(d, m.timer), m, m.sent).(current := [Entry(m.timer, Add(m.value, p), m.sent + p)])
  {
    hide Insert, Place, Follow, Add, Drop;
    var p := Period(d, m.timer);
    var k := d.(queue := d.queue[1..], current := [], last := d.now);
    TakenFrame(d);
    assert Taken(d) == k.(last := d.last) && Sample(Taken(d)) == k;
    InsertAlone(Entry(m.timer, Add(m.value, p), m.sent + p));
    FollowFrame(k.(active := k.active + {m.timer}), m, m.sent);
  }

  /** The first start lists the timer for 50 ticks before the wrap. */
  lemma StartTurn()
    ensures Apply(BEFORE.(queue := [START]), CommandTurn) == STARTED
  {
    FirstSums();
    FirstFollowed();
    hide *;
    StartAlone(BEFORE.(queue := [START]), START);
  }

  lemma FirstSums()
    ensures Low(WRAP - 1050) == WRAP - 1050 && Add(WRAP - 1050, PERIOD) == WRAP - 50
    ensures Place(WRAP - 50, WRAP - 1050, WRAP - 1050, PERIOD) == ToCurrent
  {
  }

  lemma FirstFollowed()
    ensures var d := BEFORE.(queue := [START]);
      && Starts(START) && START.value == START.sent == WRAP - 1050 && START.timer == 0
      && d.queue[0] == START && d.current == d.overflow == [] && Drop(d.current, 0) == [] && Period(d, 0) == PERIOD
      && d.now == WRAP - 1050 && Low(d.now) >= Low(d.last)
      && Follow(Starting(d, 0), START, WRAP - 1050)
           .(current := [Entry(0, WRAP - 50, WRAP - 1050 + PERIOD)]) == STARTED
  {
    assert BEFORE.(queue := [START]).queue[1..] == [];
  }

  lemma SwitchPass(kind: Kind)
    ensures SwitchOne(Waiting(kind)) ==
      Waiting(kind).(current := [], runs := map[0 := 1], queue := [Asked(kind), BEHIND])
  {
  }

  lemma SwitchLoopOnce(d: Daemon)
    requires d.current != [] && SwitchOne(d).current == []
    ensures SwitchLoop(d) == SwitchOne(d)
  {
    hide SwitchOne;
    assert SwitchLoop(d) == SwitchLoop(SwitchOne(d));
  }

  /** The wrap runs the timer that was due before it, and posts its restart behind the command. */
  lemma SwitchTurn(kind: Kind)
    ensures Apply(Waiting(kind), TimerTurn) == Switched(kind)
  {
    var d := Waiting(kind);
    SwitchPass(kind);
    SwitchLoopOnce(d);
    Sums();
    assert Low(d.now) == 10 && Low(d.last) == WRAP - 1050;
    hide SwitchLoop, SwitchOne, Low, ProcessExpired;
  }

  lemma Sums()
    ensures Low(WRAP + 10) == 10 && Low(WRAP - 50) == WRAP - 50
    ensures Add(WRAP - 130, PERIOD) == 870 && Place(870, 10, WRAP - 130, PERIOD) == ToCurrent
    ensures Add(WRAP - 50, PERIOD) == 950 && Place(950, 10, WRAP - 50, PERIOD) == ToCurrent
  {
  }

  /** What StartAlone asks of the two states. */
  lemma Alike(kind: Kind)
    requires kind == Start || kind == Stop
    ensures var d := Switched(kind);
      var r := Obeyed(kind);
      && Period(d, 0) == Period(r, 0) == PERIOD && Drop(d.current, 0) == Drop(r.current, 0) == []
      && d.now == d.last == r.now == r.last == WRAP + 10 && d.overflow == r.overflow == []
      && d.queue != [] && d.queue[0] == Asked(kind) && r.queue != [] && r.queue[0] == BEHIND
  {
  }

  lemma Commands()
    ensures Starts(Asked(Start)) && Starts(BEHIND)
    ensures Asked(Start) == Message(Start, 0, WRAP - 130, WRAP - 130)
    ensures BEHIND == Message(Restart, 0, WRAP - 50, WRAP - 50)
  {
  }

  /** The reset lists the timer for 1000 ticks after it was sent. */
  lemma ResetTurn()
    ensures Apply(Switched(Start), CommandTurn) == Obeyed(Start)
  {
    Sums();
    Alike(Start);
    Commands();
    ResetFollowed();
    hide *;
    StartAlone(Switched(Start), Asked(Start));
  }

  lemma ResetFollowed()
    ensures Follow(Starting(Switched(Start), 0), Asked(Start), WRAP - 130)
      .(current := [Entry(0, 870, WRAP - 130 + PERIOD)]) == Obeyed(Start)
  {
    var q := Switched(Start).queue[1..];
    assert q == [BEHIND] && IsRestart(q[0], 0) && !NoRestart(q, 0);
    hide NoRestart;
  }

  lemma RestartFollowed(kind: Kind)
    requires kind == Start || kind == Stop
    ensures Follow(Starting(Obeyed(kind), 0), BEHIND, WRAP - 50)
      .(current := [Entry(0, 950, WRAP - 50 + PERIOD)]) == OVERRULED
  {
  }

  /** The stop takes the timer off the lists. */
  lemma StopTurn()
    ensures Apply(Switched(Stop), CommandTurn) == Obeyed(Stop)
  {
    var d := Switched(Stop);
    TakenFrame(d);
    assert Sample(Taken(d)) == Taken(d);
    hide ProcessCommand;
  }

  /** The restart lists the timer for 1000 ticks after the earlier run. */
  lemma OverruleTurn(kind: Kind)
    requires kind == Start || kind == Stop
    ensures Apply(Obeyed(kind), CommandTurn) == OVERRULED
  {
    Sums();
    Alike(kind);
    Commands();
    RestartFollowed(kind);
    hide *;
    StartAlone(Obeyed(kind), BEHIND);
  }

  lemma EarlyStates(kind: Kind)
    ensures var run := Script(kind);
      && Apply(IDLE, run[0]) == CREATED && Apply(CREATED, run[1]) == BEFORE
      && Apply(BEFORE, run[2]) == BEFORE.(queue := [START])
      && Legal(IDLE, run[0]) && Legal(CREATED, run[1]) && Legal(BEFORE, run[2])
      && Legal(BEFORE.(queue := [START]), run[3]) && run[3] == CommandTurn
  {
    hide ProcessCommand, ProcessTimer;
  }

  lemma EarlySteps(kind: Kind)
    requires LegalRun(STARTED, Script(kind)[4..])
    ensures LegalRun(IDLE, Script(kind)[0..]) && Final(IDLE, Script(kind)[0..]) == Final(STARTED, Script(kind)[4..])
  {
    var run := Script(kind);
    StartTurn();
    EarlyStates(kind);
    hide Legal, Apply, LegalRun, Final, Script;
    var q := BEFORE.(queue := [START]);
    StepAt(run, q, STARTED, 3);
    StepAt(run, BEFORE, q, 2);
    StepAt(run, CREATED, BEFORE, 1);
    StepAt(run, IDLE, CREATED, 0);
  }

  const WAITED: Daemon := STARTED.(now := WRAP - 130)

  lemma MiddleStates(kind: Kind)
    requires kind == Start || kind == Stop
    ensures var run := Script(kind);
      && Apply(STARTED, run[4]) == WAITED && Apply(WAITED, run[5]) == WAITED.(queue := [Asked(kind)])
      && Apply(WAITED.(queue := [Asked(kind)]), run[6]) == Waiting(kind)
      && Legal(STARTED, run[4]) && Legal(WAITED, run[5]) && Legal(WAITED.(queue := [Asked(kind)]), run[6])
      && Legal(Waiting(kind), run[7]) && run[7] == TimerTurn && !Waiting(kind).stuck && !STARTED.stuck && !WAITED.stuck
  {
    hide ProcessCommand, ProcessTimer;
  }

  lemma WaitingSteps(kind: Kind)
    requires kind == Start || kind == Stop
    requires LegalRun(Switched(kind), Script(kind)[8..])
    ensures LegalRun(STARTED, Script(kind)[4..])
    ensures Final(STARTED, Script(kind)[4..]) == Final(Switched(kind), Script(kind)[8..])
  {
    var run := Script(kind);
    SwitchTurn(kind);
    MiddleStates(kind);
    hide Legal, Apply, LegalRun, Final, Script, Waiting, Switched, Asked;
    var d := WAITED.(queue := [Asked(kind)]);
    StepAt(run, Waiting(kind), Switched(kind), 7);
    StepAt(run, d, Waiting(kind), 6);
    StepAt(run, WAITED, d, 5);
    StepAt(run, STARTED, WAITED, 4);
  }

  lemma LastStates(kind: Kind)
    requires kind == Start || kind == Stop
    ensures var run := Script(kind);
      && run[8] == run[9] == CommandTurn && run[10..] == [] && !Switched(kind).stuck && !Obeyed(kind).stuck
      && Legal(Switched(kind), CommandTurn) && Legal(Obeyed(kind), CommandTurn)
  {
  }

  lemma LastSteps(kind: Kind)
    requires kind == Start || kind == Stop
    ensures LegalRun(Switched(kind), Script(kind)[8..]) && Final(Switched(kind), Script(kind)[8..]) == OVERRULED
  {
    var run := Script(kind);
    if kind == Start { ResetTurn(); } else { StopTurn(); }
    OverruleTurn(kind);
    LastStates(kind);
    hide Legal, Apply, Script, Switched, Obeyed;
    StepAt(run, Obeyed(kind), OVERRULED, 9);
    StepAt(run, Switched(kind), Obeyed(kind), 8);
  }

  lemma WholeScript(kind: Kind)
    requires kind == Start || kind == Stop
    ensures LegalRun(IDLE, Script(kind)) && Final(IDLE, Script(kind)) == OVERRULED
  {
    LastSteps(kind);
    WaitingSteps(kind);
    EarlySteps(kind);
    hide Script;
    assert Script(kind)[0..] == Script(kind);
  }

  /** In this run the user's reset asks for the next callback 1000 ticks after it was sent, at
      WRAP + 870; the timer is left listed for WRAP + 950 instead. */
  lemma ResetOverruled()
    ensures LegalRun(IDLE, Script(Start))
    ensures var d := Final(IDLE, Script(Start));
      !d.stuck && d.queue == [] && d.current == [Entry(0, 950, WRAP + 950)] && d.overflow == []
    ensures Asked(Start).sent + PERIOD == WRAP + 870
  {
    WholeScript(Start);
  }

  /** In this run the user has stopped the timer for good; it is left listed, and active. */
  lemma StopUndone()
    ensures LegalRun(IDLE, Script(Stop))
    ensures var d := Final(IDLE, Script(Stop));
      !d.stuck && d.queue == [] && d.current == [Entry(0, 950, WRAP + 950)] && 0 in d.active
  {
    WholeScript(Stop);
  }

  // ----- a one-shot timer

  /** A one-shot timer is started 1050 ticks before the wrap; the daemon next runs 10 ticks after it. */
  const ONE_SHOT: seq<Step> :=
    [Create(0, PERIOD, false), Advance(WRAP - 1050), Command(Start, 0, 0), CommandTurn, Advance(1060), TimerTurn]

  const ONCE: Daemon := IDLE.(period := map[0 := PERIOD], now := WRAP - 1050)
  const ONCE_STARTED: Daemon := STARTED.(auto := {})
  const ONCE_DUE: Daemon := ONCE_STARTED.(now := WRAP + 10)
  const ONCE_RUN: Daemon := ONCE_DUE.(current := [], last := WRAP + 10, runs := map[0 := 1])

  lemma OnceFollowed()
    ensures var d := ONCE.(queue := [START]);
      && Starts(START) && START.value == START.sent == WRAP - 1050 && START.timer == 0
      && d.queue[0] == START && d.current == d.overflow == [] && Drop(d.current, 0) == [] && Period(d, 0) == PERIOD
      && d.now == WRAP - 1050 && Low(d.now) >= Low(d.last)
      && Follow(Starting(d, 0), START, WRAP - 1050)
           .(current := [Entry(0, WRAP - 50, WRAP - 1050 + PERIOD)]) == ONCE_STARTED
  {
    assert ONCE.(queue := [START]).queue[1..] == [];
  }

  lemma OnceStarts()
    ensures Apply(ONCE.(queue := [START]), CommandTurn) == ONCE_STARTED
  {
    FirstSums();
    OnceFollowed();
    hide *;
    StartAlone(ONCE.(queue := [START]), START);
  }

  lemma OnceRuns()
    ensures Apply(ONCE_DUE, TimerTurn) == ONCE_RUN
  {
    assert SwitchOne(ONCE_DUE) == ONCE_DUE.(current := [], runs := map[0 := 1]);
    SwitchLoopOnce(ONCE_DUE);
    Sums();
    assert Low(ONCE_DUE.now) == 10 && Low(ONCE_DUE.last) == WRAP - 1050;
    hide SwitchLoop, SwitchOne, Low, ProcessExpired;
  }

  lemma OnceStates()
    ensures var c := IDLE.(period := map[0 := PERIOD]);
      && Apply(IDLE, ONE_SHOT[0]) == c && Apply(c, ONE_SHOT[1]) == ONCE
      && Apply(ONCE, ONE_SHOT[2]) == ONCE.(queue := [START]) && Apply(ONCE_STARTED, ONE_SHOT[4]) == ONCE_DUE
      && Legal(IDLE, ONE_SHOT[0]) && Legal(c, ONE_SHOT[1]) && Legal(ONCE, ONE_SHOT[2])
      && Legal(ONCE.(queue := [START]), ONE_SHOT[3]) && Legal(ONCE_STARTED, ONE_SHOT[4]) && Legal(ONCE_DUE, ONE_SHOT[5])
      && ONE_SHOT[3] == CommandTurn && ONE_SHOT[5] == TimerTurn && ONE_SHOT[6..] == [] && ONE_SHOT[0..] == ONE_SHOT
      && !c.stuck && !ONCE.stuck && !ONCE_STARTED.stuck && !ONCE_DUE.stuck && !IDLE.stuck
  {
    var none: set<TimerId> := {};
    assert none - {0} == none;
    hide ProcessCommand, ProcessTimer;
  }

  /** The run of a one-shot timer that falls to the list switch: the timer is on no list, its callback
      has run, nothing is under way, and it still counts as active. */
  lemma OneShotStaysActive()
    ensures LegalRun(IDLE, ONE_SHOT)
    ensures var d := Final(IDLE, ONE_SHOT);
      !d.stuck && 0 in d.active && d.current == d.overflow == [] && d.queue == [] && Runs(d, 0) == 1
  {
    OnceStates();
    OnceStarts();
    OnceRuns();
    assert LegalRun(ONCE_RUN, []) && Final(ONCE_RUN, []) == ONCE_RUN;
    OnceReads();
    hide *;
    var c := IDLE.(period := map[0 := PERIOD]);
    StepAt(ONE_SHOT, ONCE_DUE, ONCE_RUN, 5);
    StepAt(ONE_SHOT, ONCE_STARTED, ONCE_DUE, 4);
    StepAt(ONE_SHOT, ONCE.(queue := [START]), ONCE_STARTED, 3);
    StepAt(ONE_SHOT, ONCE, ONCE.(queue := [START]), 2);
    StepAt(ONE_SHOT, c, ONCE, 1);
    StepAt(ONE_SHOT, IDLE, c, 0);
  }

  lemma OnceReads()
    ensures var d := ONCE_RUN;
      !d.stuck && 0 in d.active && d.current == d.overflow == [] && d.queue == [] && Runs(d, 0) == 1
  {
  }
}
