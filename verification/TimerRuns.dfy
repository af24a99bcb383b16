/** Whole runs of the timer daemon and its users: callbacks neither drift, nor come early, nor
    go missing. */
module TimerRuns {
  import opened Words
  import opened Rings
  import opened Timers
  import opened TimerInv
  import opened TimerSteps
  import opened TimerDates

  datatype Step =
    | Advance(k: nat)                                        // time passes
    | Create(timer: TimerId, period: word, isAuto: bool)     // xTimerCreate
    | Command(kind: Kind, timer: TimerId, value: word)       // xTimerStart, Reset, Stop, ChangePeriod, Delete
    | TimerTurn                                              // prvProcessTimerOrBlockTask
    | CommandTurn                                            // one turn of prvProcessReceivedCommands

  /** xTimerGenericCommand as the API calls it: a start or reset carries the current tick. */
  function Sent(d: Daemon, k: Kind, t: TimerId, v: word): Daemon {
    if |d.queue| < QUEUE_LENGTH then
      d.(queue := d.queue + [Message(k, t, if k == Start then Low(d.now) else v, d.now)])
    else d
  }

  function Created(d: Daemon, t: TimerId, p: word, isAuto: bool): Daemon {
    d.(period := d.period[t := p], auto := if isAuto then d.auto + {t} else d.auto - {t})
  }

  function Apply(d: Daemon, s: Step): Daemon {
    match s
    case Advance(k) => d.(now := d.now + k)
    case Create(t, p, isAuto) => Created(d, t, p, isAuto)
    case Command(k, t, v) => Sent(d, k, t, v)
    case TimerTurn => ProcessTimer(d)
    case CommandTurn => if d.queue == [] then d else ProcessCommand(d)
  }

  /** What the schedule assumes: the daemon samples the clock at least once a turn and handles a
      start within a turn; users do not send the daemon's own restarts; a timer is new when created. */
  ghost predicate Legal(d: Daemon, s: Step) {
    match s
    case Advance(_) => true
    case Create(t, p, _) => p > 0 && t !in d.base && Off(d, t) && NoMessage(d.queue, t)
    case Command(k, _, _) => k != Restart
    case TimerTurn => Fresh(d)
    case CommandTurn => Fresh(d) && Prompt(d)
  }

  /** Every listed timer in the right list, every followed one on its schedule. */
  ghost predicate OnTime(d: Daemon) {
    ListInv(d) && Dated(d) && (!d.stuck ==> AllGood(d, {}))
  }

  const IDLE: Daemon :=
    Daemon([], [], [], map[], {}, {}, 0, 0, map[], map[], false)

  // ----- one step

  lemma CommandTurnKeeps(d: Daemon)
    requires OnTime(d) && !d.stuck && Fresh(d) && Prompt(d) && d.queue != []
    ensures OnTime(ProcessCommand(d))
  {
    TakenDated(d);
    hide ListInv, AllGood, Dated, ProcessCommand, Stamped;
    CommandKeeps(d);
    CommandDated(d);
  }

  lemma TimerTurnKeeps(d: Daemon)
    requires OnTime(d) && !d.stuck && Fresh(d)
    ensures OnTime(ProcessTimer(d))
  {
    hide ListInv, AllGood, Dated, ProcessTimer;
    ProcessTimerKeeps(d);
    TimerTurnDated(d);
  }

  lemma AdvanceKeeps(d: Daemon, k: nat)
    requires OnTime(d)
    ensures OnTime(d.(now := d.now + k))
  {
    var r := d.(now := d.now + k);
    hide DatedList, Sorted, Distinct;
    if !d.stuck {
      forall t ensures Off(d, t) ==> Off(r, t) { }
      forall t ensures OnSchedule(r, t) {
        assert OnSchedule(d, t);
        if t in d.base { assert Reached(r, t) == Reached(d, t); }
      }
    }
  }

  lemma SentKeeps(d: Daemon, k: Kind, t: TimerId, v: word)
    requires OnTime(d) && k != Restart
    ensures OnTime(Sent(d, k, t, v))
  {
    var r := Sent(d, k, t, v);
    if |d.queue| < QUEUE_LENGTH {
      var m := Message(k, t, if k == Start then Low(d.now) else v, d.now);
      PostDated(d, m);
      assert r == Post(d, m);
      assert r.queue == d.queue + [m] && forall u :: !IsRestart(m, u);
      hide Sorted, Distinct, DatedList, DatedQueue, Post;
      if !d.stuck {
        forall u ensures OnSchedule(r, u) {
          assert OnSchedule(d, u) && SameFor(d, r, u);
          ScheduleFrame(d, r, u);
        }
      }
    }
  }

  lemma CreatedKeeps(d: Daemon, t: TimerId, p: word, isAuto: bool)
    requires OnTime(d) && t !in d.base && Off(d, t)
    ensures OnTime(Created(d, t, p, isAuto))
  {
    var r := Created(d, t, p, isAuto);
    hide Sorted, Distinct, DatedList, DatedQueue;
    if !d.stuck {
      forall u ensures OnSchedule(r, u) {
        assert OnSchedule(d, u);
        if u != t {
          assert SameFor(d, r, u);
          ScheduleFrame(d, r, u);
        } else {
          OffFrame(d, r, t);
        }
      }
    }
  }

  lemma StepKeeps(d: Daemon, s: Step)
    requires OnTime(d) && Legal(d, s) && !d.stuck
    ensures OnTime(Apply(d, s))
  {
    hide OnTime, Fresh, Prompt, Off, ProcessTimer, ProcessCommand, Sent, Created;
    match s
    case Advance(k) => AdvanceKeeps(d, k);
    case Create(t, p, isAuto) => CreatedKeeps(d, t, p, isAuto);
    case Command(k, t, v) => SentKeeps(d, k, t, v);
    case TimerTurn => TimerTurnKeeps(d);
    case CommandTurn => if d.queue != [] { CommandTurnKeeps(d); }
  }

  // ----- whole runs

  function Final(d: Daemon, steps: seq<Step>): Daemon
    decreases |steps|
  {
    if steps == [] then d else Final(Apply(d, steps[0]), steps[1..])
  }

  ghost predicate LegalRun(d: Daemon, steps: seq<Step>)
    decreases |steps|
  {
    steps != [] ==> !d.stuck && Legal(d, steps[0]) && LegalRun(Apply(d, steps[0]), steps[1..])
  }

  lemma IdleOnTime()
    ensures OnTime(IDLE)
  {
  }

  /** The schedule holds in every reachable state. */
  lemma {:induction false} RunOnTime(d: Daemon, steps: seq<Step>)
    requires OnTime(d) && LegalRun(d, steps)
    ensures OnTime(Final(d, steps))
    decreases |steps|
  {
    if steps != [] {
      hide OnTime, Apply, Legal;
      StepKeeps(d, steps[0]);
      RunOnTime(Apply(d, steps[0]), steps[1..]);
    }
  }

  /** In every reachable state, whatever the users have sent, each listed timer sits in the list of
      the epoch in which it is due, and its item shows that time; on the current list, a timer is
      due exactly when the daemon's comparison of ticks says so. */
  lemma RightEpoch(steps: seq<Step>, x: Entry)
    requires LegalRun(IDLE, steps)
    ensures var d := Final(IDLE, steps);
      && (x in d.current ==> x.value == Low(x.due) && x.due / WRAP == d.last / WRAP)
      && (x in d.overflow ==> x.value == Low(x.due) && x.due / WRAP == d.last / WRAP + 1)
      && (x in d.current && d.last == d.now ==> (x.due <= d.now <==> x.value <= Low(d.now)))
  {
    IdleOnTime();
    RunOnTime(IDLE, steps);
    var d := Final(IDLE, steps);
    assert DatedList(d.current, d.last / WRAP) && DatedList(d.overflow, d.last / WRAP + 1);
    hide Final, LegalRun, ListInv, DatedQueue, AllGood;
  }

  /** No callback is ever early: the k-th run of a timer since its schedule began at base is never
      before base + k periods; a one-shot timer runs at most once. */
  lemma NeverEarly(steps: seq<Step>, t: TimerId)
    requires LegalRun(IDLE, steps)
    ensures var d := Final(IDLE, steps);
      !d.stuck && t in d.base ==>
        d.base[t] + Runs(d, t) * Period(d, t) <= d.now && (t !in d.auto ==> Runs(d, t) <= 1)
  {
    IdleOnTime();
    RunOnTime(IDLE, steps);
    var d := Final(IDLE, steps);
    hide Final, LegalRun, ListInv, Dated;
    if !d.stuck { assert OnSchedule(d, t); }
  }

  // ----- what a command does to the schedule

  /** A start, reset or period change, handled in any reachable state with no restart of its timer
      behind it in the queue, begins the schedule it asks for: a start counts from when it was
      sent, a period change from when it is handled. */
  lemma CommandDecides(d: Daemon)
    requires OnTime(d) && !d.stuck && Legal(d, CommandTurn) && d.queue != []
    requires d.queue[0].kind == Start || d.queue[0].kind == ChangePeriod
    ensures var m := d.queue[0];
      var r := ProcessCommand(d);
      !r.stuck && NoRestart(d.queue[1..], m.timer) ==>
        && m.timer in r.base && r.base[m.timer] == (if m.kind == Start then m.sent else d.now)
        && Good(r, m.timer)
  {
    var m := d.queue[0];
    TakenDated(d);
    TakingNow(d);
    TakenFrame(d);
    hide OnTime, Taken, Sample, ProcessCommand, NoRestart, ListInv, Off, Reached, Good, Stamped;
    var p := Sample(Taken(d));
    if m.kind == Start { StartKeeps(p, m); } else { PeriodKeeps(p, m); }
    BeginsAt(p, m);
    hide ExecuteStart, ExecutePeriod, OnSchedule;
    OnScheduleMeans(Execute(p, m), m.timer);
  }

  lemma OnScheduleMeans(d: Daemon, t: TimerId)
    ensures t in d.base && OnSchedule(d, t) ==> Good(d, t)
  {
    hide Good;
  }

  lemma BeginsAt(p: Daemon, m: Message)
    requires m.kind == Start || m.kind == ChangePeriod
    ensures var r := Execute(p, m);
      !r.stuck && NoRestart(p.queue, m.timer) ==>
        m.timer in r.base && r.base[m.timer] == if m.kind == Start then m.sent else p.now
  {
    hide NoRestart, ExecuteStart, ExecutePeriod;
    if m.kind == Start { StartFrame(p, m); }
    else if m.value > 0 { PeriodFrame(p, m); }
    else { PeriodZero(p, m); }
  }

  // ----- draining

  /** A timer of the current list is due. */
  predicate Due(d: Daemon) {
    d.current != [] && d.current[0].value <= Low(d.now)
  }

  function DueWork(s: seq<Entry>, now: word): nat {
    if s == [] then 0
    else (if s[0].value <= now then 2 * (now - s[0].value) + 3 else 0) + DueWork(s[1..], now)
  }

  function MessageWork(q: seq<Message>, now: word): nat {
    if q == [] then 0 else 2 * Sub(now, q[0].value) + 2 + MessageWork(q[1..], now)
  }

  function Pending(d: Daemon): nat {
    DueWork(d.current, Low(d.now)) + MessageWork(d.queue, Low(d.now))
  }

  lemma {:induction false} DueWorkSplice(s: seq<Entry>, k: nat, e: Entry, now: word)
    requires k <= |s|
    ensures DueWork(Splice(s, k, e), now) == DueWork(s, now) + if e.value <= now then 2 * (now - e.value) + 3 else 0
  {
    var r := Splice(s, k, e);
    if k == 0 {
      assert r[0] == e && r[1..] == s;
    } else {
      DueWorkSplice(s[1..], k - 1, e, now);
      assert r[0] == s[0] && r[1..] == Splice(s[1..], k - 1, e);
    }
  }

  lemma {:induction false} DueWorkDrop(s: seq<Entry>, t: TimerId, now: word)
    ensures DueWork(Drop(s, t), now) <= DueWork(s, now)
  {
    if s != [] && s[0].timer != t {
      DueWorkDrop(s[1..], t, now);
      var r := Drop(s, t);
      assert r[0] == s[0] && r[1..] == Drop(s[1..], t);
    }
  }

  lemma {:induction false} MessageWorkPost(q: seq<Message>, m: Message, now: word)
    ensures MessageWork(q + [m], now) == MessageWork(q, now) + 2 * Sub(now, m.value) + 2
  {
    if q == [] {
      assert q + [m] == [m];
    } else {
      MessageWorkPost(q[1..], m, now);
      assert (q + [m])[0] == q[0] && (q + [m])[1..] == q[1..] + [m];
    }
  }

  lemma PostWork(d: Daemon, m: Message)
    ensures Pending(Post(d, m)) <= Pending(d) + 2 * Sub(Low(d.now), m.value) + 2
  {
    MessageWorkPost(d.queue, m, Low(d.now));
  }

  /** Insertion never lists a timer that is already due in the current list. */
  lemma InsertWork(d: Daemon, t: TimerId, next: word, command: word, due: nat)
    ensures var (r, x) := InsertTimer(d, t, next, Low(d.now), command, due);
      Pending(r) == Pending(d) && r.now == d.now && r.last == d.last &&
      (x ==> r == d && Place(next, Low(d.now), command, Period(d, t)) == ProcessNow)
  {
    DueWorkSplice(d.current, InsertPos(Values(d.current), next), Entry(t, next, due), Low(d.now));
  }

  /** Of a due command, one period later is that much less to catch up with. */
  lemma CatchUp(now: word, command: word, p: word)
    requires 0 < p && Place(Add(command, p), now, command, p) == ProcessNow
    ensures Sub(now, command) >= p && Sub(now, Add(command, p)) == Sub(now, command) - p
  {
    if command + p < WRAP {
      assert Add(command, p) == command + p;
    } else {
      assert Add(command, p) == command + p - WRAP;
    }
    if now >= command { assert Sub(now, command) == now - command; }
    else { assert Sub(now, command) == now - command + WRAP; }
  }

  lemma HeadWork(d: Daemon)
    requires d.last == d.now && Due(d)
    ensures d.current != []
    ensures var now := Low(d.now);
      var e := d.current[0];
      && Pending(d.(current := d.current[1..])) == Pending(d) - (2 * (now - e.value) + 3)
      && ProcessTimer(d) == ProcessExpired(d, e.value, now)
      && Sub(now, e.value) == now - e.value
  {
    hide ProcessExpired;
  }

  lemma TimerTurnWork(d: Daemon)
    requires d.last == d.now && Due(d)
    ensures var r := ProcessTimer(d); r.last == r.now == d.now && Pending(r) < Pending(d)
  {
    HeadWork(d);
    var e := d.current[0];
    var d1 := d.(current := d.current[1..]);
    ExpiredParts(d, d1, e);
    hide *;
    if e.timer in d.auto {
      ReloadWork(d1, e);
    } else {
      WorkOfActive(d1, d1.active - {e.timer});
      WorkOfCallback(d1.(active := d1.active - {e.timer}), e.timer);
    }
  }

  /** The timer goes back on a list, or its restart is posted; then its callback runs. */
  function Reloaded(d: Daemon, e: Entry): Daemon {
    var p := Period(d, e.timer);
    var (d1, x) := InsertTimer(d, e.timer, Add(e.value, p), Low(d.now), e.value, e.due + p);
    Callback(if x then Post(d1, Message(Restart, e.timer, e.value, e.due)) else d1, e.timer)
  }

  lemma ExpiredParts(d: Daemon, d1: Daemon, e: Entry)
    requires d.current != [] && e == d.current[0] && d1 == d.(current := d.current[1..])
    ensures ProcessExpired(d, e.value, Low(d.now)) ==
      if e.timer in d.auto then Reloaded(d1, e) else Callback(d1.(active := d1.active - {e.timer}), e.timer)
  {
    assert Period(d, e.timer) == Period(d1, e.timer);
    hide InsertTimer, Post, Add, Low, Period, Callback;
  }

  /** A timer that was due goes back on a list, or is posted to the queue. */
  lemma ReloadWork(d: Daemon, e: Entry)
    ensures var r := Reloaded(d, e);
      r.now == d.now && r.last == d.last && Pending(r) <= Pending(d) + 2 * Sub(Low(d.now), e.value) + 2
  {
    hide InsertTimer, Pending, Post, Add, Sub, Low, Period, Callback;
    var p := Period(d, e.timer);
    InsertWork(d, e.timer, Add(e.value, p), e.value, e.due + p);
    var (d1, x) := InsertTimer(d, e.timer, Add(e.value, p), Low(d.now), e.value, e.due + p);
    var m := Message(Restart, e.timer, e.value, e.due);
    PostWork(d1, m);
    PostFrame(d1, m);
    WorkOfCallback(if x then Post(d1, m) else d1, e.timer);
  }

  lemma WorkOfActive(d: Daemon, active: set<TimerId>)
    ensures Pending(d.(active := active)) == Pending(d)
  {
  }

  lemma WorkOfCallback(d: Daemon, t: TimerId)
    ensures var r := Callback(d, t); Pending(r) == Pending(d) && r.now == d.now && r.last == d.last
  {
  }

  lemma WorkOfFollow(d: Daemon, m: Message, start: nat)
    ensures var r := Follow(d, m, start); Pending(r) == Pending(d) && r.now == d.now && r.last == d.last
  {
    FollowFrame(d, m, start);
    hide Follow;
  }

  lemma ExecuteWork(p: Daemon, m: Message)
    ensures var r := Execute(p, m);
      r.last == p.last && r.now == p.now && Pending(r) < Pending(p) + 2 * Sub(Low(p.now), m.value) + 2
  {
    match m.kind
    case Stop =>
    case Delete =>
    case ChangePeriod => PeriodWork(p, m); hide ExecutePeriod, Pending;
    case Start => StartWork(p, m); hide ExecuteStart, Pending;
    case Restart => StartWork(p, m); hide ExecuteStart, Pending;
  }

  lemma PeriodWork(p: Daemon, m: Message)
    ensures var r := ExecutePeriod(p, m); r.last == p.last && r.now == p.now && Pending(r) == Pending(p)
  {
    if m.value != 0 {
      var t := m.timer;
      var a := p.(active := p.active + {t}, period := p.period[t := m.value]);
      assert Pending(a) == Pending(p);
      WorkOfFollow(a, m, p.now);
      InsertWork(Follow(a, m, p.now), t, Add(Low(p.now), m.value), Low(p.now), p.now + m.value);
      hide InsertTimer, Follow, Pending;
    }
  }

  lemma StartWork(p: Daemon, m: Message)
    ensures var r := ExecuteStart(p, m);
      r.last == p.last && r.now == p.now && Pending(r) < Pending(p) + 2 * Sub(Low(p.now), m.value) + 2
  {
    hide Pending, Follow, InsertTimer, Post, Add, Sub, Low, Place;
    var t := m.timer;
    var a := p.(active := p.active + {t});
    WorkOfActive(p, p.active + {t});
    FollowFrame(a, m, m.sent);
    WorkOfFollow(a, m, m.sent);
    var q := Follow(a, m, m.sent);
    var next := Add(m.value, Period(p, t));
    InsertWork(q, t, next, m.value, m.sent + Period(p, t));
    var (d1, x) := InsertTimer(q, t, next, Low(p.now), m.value, m.sent + Period(p, t));
    WorkOfCallback(d1, t);
    PostWork(Callback(d1, t), Message(Restart, t, next, m.sent + Period(p, t)));
    PostFrame(Callback(d1, t), Message(Restart, t, next, m.sent + Period(p, t)));
    if x { CatchUp(Low(p.now), m.value, Period(p, t)); }
  }

  lemma CommandTurnWork(d: Daemon)
    requires d.last == d.now && d.queue != []
    ensures var r := ProcessCommand(d); r.last == r.now == d.now && Pending(r) < Pending(d)
  {
    var k := Taken(d);
    TakenFrame(d);
    assert Sample(k) == k;
    DueWorkDrop(d.current, d.queue[0].timer, Low(d.now));
    assert Pending(k) + 2 * Sub(Low(d.now), d.queue[0].value) + 2 <= Pending(d);
    ExecuteWork(k, d.queue[0]);
    hide Execute, Pending, ProcessCommand;
  }

  /** The daemon's loop while the clock stands still: all commands, then one due timer, and round
      again. It ends, because every turn leaves strictly less to catch up with. */
  function Drain(d: Daemon): Daemon
    requires d.last == d.now
    decreases Pending(d)
  {
    if d.queue != [] then CommandTurnWork(d); Drain(ProcessCommand(d))
    else if Due(d) then TimerTurnWork(d); Drain(ProcessTimer(d))
    else d
  }

  /** Every start under way is less than one turn of the clock old. */
  predicate Timely(d: Daemon) {
    forall i :: 0 <= i < |d.queue| && Starts(d.queue[i]) ==> d.now < d.queue[i].sent + WRAP
  }

  // ----- what a turn of the loop leaves alone

  /** No user command about t is under way. */
  predicate NoUser(q: seq<Message>, t: TimerId) {
    forall i :: 0 <= i < |q| && q[i].timer == t ==> q[i].kind == Restart
  }

  /** Between d and r the clock stood still, and nothing was lost: the schedule of a timer about
      which no user command is under way goes on, and no run of it is undone. */
  ghost predicate Onward(d: Daemon, r: Daemon) {
    && r.last == d.last && r.now == d.now && r.auto == d.auto && (d.stuck ==> r.stuck)
    && (forall t :: t in d.base && NoUser(d.queue, t) ==>
      && t in r.base && r.base[t] == d.base[t] && Period(r, t) == Period(d, t) && Runs(r, t) >= Runs(d, t)
      && NoUser(r.queue, t))
  }

  lemma NoUserPosted(q: seq<Message>, m: Message, t: TimerId)
    requires NoUser(q, t) && m.kind == Restart
    ensures NoUser(q + [m], t)
  {
  }

  lemma NoUserTail(q: seq<Message>, t: TimerId)
    requires q != [] && NoUser(q, t)
    ensures NoUser(q[1..], t)
  {
  }

  lemma TimelyPosted(d: Daemon, m: Message)
    requires Timely(d) && d.now < m.sent + WRAP
    ensures Timely(Post(d, m))
  {
    var r := Post(d, m);
    forall i | 0 <= i < |r.queue| && Starts(r.queue[i]) ensures r.now < r.queue[i].sent + WRAP {
      if i < |d.queue| { assert r.queue[i] == d.queue[i]; }
    }
  }

  /** What ProcessExpired does to the queue and the books. */
  lemma ExpiredFrame(d: Daemon, next: word)
    requires d.current != []
    ensures var e := d.current[0];
      var r := ProcessExpired(d, next, Low(d.now));
      && r.last == d.last && r.now == d.now && r.auto == d.auto && (d.stuck ==> r.stuck)
      && r.base == d.base && r.period == d.period && (forall t :: Runs(r, t) >= Runs(d, t))
      && (r.queue == d.queue || r.queue == Post(d, Message(Restart, e.timer, next, e.due)).queue)
  {
    hide InsertTimer, Add;
    var e := d.current[0];
    var p := Period(d, e.timer);
    InsertFrame(d.(current := d.current[1..]), e.timer, Add(next, p), Low(d.now), next, e.due + p);
  }

  lemma TimerTurnOnward(d: Daemon)
    requires Dated(d) && d.last == d.now && Due(d) && Timely(d)
    ensures var r := ProcessTimer(d); Onward(d, r) && Timely(r)
  {
    var e := d.current[0];
    HeadDated(d);
    assert ProcessTimer(d) == ProcessExpired(d, e.value, Low(d.now));
    ExpiredFrame(d, e.value);
    var m := Message(Restart, e.timer, e.value, e.due);
    TimelyPosted(d, m);
    hide Dated, ProcessTimer, ProcessExpired, Starts;
    forall t | NoUser(d.queue, t) ensures NoUser(Post(d, m).queue, t) { NoUserPosted(d.queue, m, t); }
  }

  function NextRestart(k: Daemon, m: Message): Message {
    Message(Restart, m.timer, Add(m.value, Period(k, m.timer)), m.sent + Period(k, m.timer))
  }

  lemma InsertFrame(q: Daemon, t: TimerId, next: word, now: word, command: word, due: nat)
    ensures var r := InsertTimer(q, t, next, now, command, due).0; r == q.(current := r.current, overflow := r.overflow)
  {
    hide Insert, Place;
  }

  /** What the start cases do besides the lists. */
  lemma StartFrame(k: Daemon, m: Message)
    ensures var r := ExecuteStart(k, m);
      var q := Follow(k.(active := k.active + {m.timer}), m, m.sent);
      && r == q.(current := r.current, overflow := r.overflow, queue := r.queue, runs := r.runs, stuck := r.stuck)
      && (q.stuck ==> r.stuck) && (r.queue == q.queue || r.queue == q.queue + [NextRestart(k, m)])
      && (r.runs == q.runs || r.runs == q.runs[m.timer := Runs(q, m.timer) + 1])
  {
    hide InsertTimer, Follow, Add, Period;
    var t := m.timer;
    var q := Follow(k.(active := k.active + {t}), m, m.sent);
    InsertFrame(q, t, Add(m.value, Period(k, t)), Low(k.now), m.value, m.sent + Period(k, t));
  }

  lemma PeriodFrame(k: Daemon, m: Message)
    requires m.value > 0
    ensures var r := ExecutePeriod(k, m);
      r == Follow(k.(active := k.active + {m.timer}, period := k.period[m.timer := m.value]), m, k.now)
        .(current := r.current, overflow := r.overflow)
  {
    hide InsertTimer, Follow;
    var q := Follow(k.(active := k.active + {m.timer}, period := k.period[m.timer := m.value]), m, k.now);
    InsertFrame(q, m.timer, Add(Low(k.now), m.value), Low(k.now), Low(k.now), k.now + m.value);
  }

  /** What Execute leaves of the clock and of the other timers' books, and what it posts. */
  lemma ExecuteFrame(k: Daemon, m: Message)
    ensures var r := Execute(k, m);
      && r.last == k.last && r.now == k.now && r.auto == k.auto && (k.stuck ==> r.stuck)
      && (forall t :: t != m.timer && t in k.base ==>
        t in r.base && r.base[t] == k.base[t] && Runs(r, t) == Runs(k, t) && Period(r, t) == Period(k, t))
      && (r.queue == k.queue || (Starts(m) && r.queue == k.queue + [NextRestart(k, m)]))
  {
    match m.kind
    case Stop =>
    case Delete =>
    case ChangePeriod => PeriodLeaves(k, m); hide ExecutePeriod;
    case Start => StartLeaves(k, m); hide ExecuteStart;
    case Restart => StartLeaves(k, m); hide ExecuteStart;
  }

  /** The clock and the other timers' books are left alone. */
  ghost predicate Leaves(k: Daemon, r: Daemon, u: TimerId) {
    && r.last == k.last && r.now == k.now && r.auto == k.auto && (k.stuck ==> r.stuck)
    && (forall t :: t != u && t in k.base ==>
      t in r.base && r.base[t] == k.base[t] && Runs(r, t) == Runs(k, t) && Period(r, t) == Period(k, t))
  }

  lemma StartLeaves(k: Daemon, m: Message)
    ensures var r := ExecuteStart(k, m);
      Leaves(k, r, m.timer) && (r.queue == k.queue || r.queue == k.queue + [NextRestart(k, m)])
  {
    hide NoRestart, ExecuteStart, NextRestart;
    StartFrame(k, m);
  }

  lemma PeriodLeaves(k: Daemon, m: Message)
    ensures var r := ExecutePeriod(k, m); Leaves(k, r, m.timer) && r.queue == k.queue
  {
    hide NoRestart, ExecutePeriod;
    if m.value > 0 { PeriodFrame(k, m); } else { PeriodZero(k, m); }
  }

  /** A restart of a followed timer continues its schedule. */
  lemma ExecuteGoesOn(k: Daemon, m: Message)
    requires m.kind == Restart && m.timer in k.base && NoRestart(k.queue, m.timer)
    ensures var r := Execute(k, m);
      var t := m.timer;
      t in r.base && r.base[t] == k.base[t] && Period(r, t) == Period(k, t) && Runs(r, t) >= Runs(k, t)
  {
    hide NoRestart, ExecuteStart;
    StartFrame(k, m);
  }

  lemma ExecuteTimely(k: Daemon, m: Message)
    requires Timely(k) && (Starts(m) ==> k.now < m.sent + WRAP)
    ensures Timely(Execute(k, m))
  {
    var r := Execute(k, m);
    ExecuteFrame(k, m);
    hide Execute, Starts;
    if r.queue != k.queue {
      forall i | 0 <= i < |r.queue| && Starts(r.queue[i]) ensures r.now < r.queue[i].sent + WRAP {
        if i < |k.queue| { assert r.queue[i] == k.queue[i]; }
      }
    }
  }

  lemma ExecuteNoUser(k: Daemon, m: Message, t: TimerId)
    requires NoUser(k.queue, t)
    ensures NoUser(Execute(k, m).queue, t)
  {
    ExecuteFrame(k, m);
    hide Execute;
    NoUserPosted(k.queue, NextRestart(k, m), t);
  }

  lemma TakenTimely(d: Daemon)
    requires Timely(d) && d.queue != []
    ensures Timely(Taken(d)) && Prompt(d)
  {
    hide Starts;
  }

  lemma CommandTurnOnward(d: Daemon)
    requires AllGood(d, {}) && d.last == d.now && d.queue != [] && Timely(d)
    ensures var r := ProcessCommand(d); Onward(d, r) && Timely(r) && Prompt(d)
  {
    var m := d.queue[0];
    var k := Taken(d);
    TakenFrame(d);
    TakenTimely(d);
    assert Sample(k) == k;
    ExecuteTimely(k, m);
    ExecuteFrame(k, m);
    assert OnSchedule(d, m.timer);
    hide Taken, Sample, Execute, ProcessCommand, Timely, Prompt, AllGood;
    var r := Execute(k, m);
    forall t | t in d.base && NoUser(d.queue, t)
      ensures t in r.base && r.base[t] == d.base[t] && Period(r, t) == Period(d, t) && Runs(r, t) >= Runs(d, t)
      ensures NoUser(r.queue, t)
    {
      NoUserTail(d.queue, t);
      ExecuteNoUser(k, m, t);
      if t == m.timer {
        assert m.kind == Restart;
        TakenRestart(d);
        ExecuteGoesOn(k, m);
      }
    }
  }

  lemma {:induction false} StuckStays(d: Daemon)
    requires d.last == d.now && d.stuck
    ensures Drain(d).stuck
    decreases Pending(d)
  {
    if d.queue != [] {
      CommandTurnWork(d);
      TakenFrame(d);
      assert Sample(Taken(d)) == Taken(d);
      ExecuteStuck(Taken(d), d.queue[0]);
      hide ProcessCommand, Execute, Pending;
      StuckStays(ProcessCommand(d));
    } else if Due(d) {
      TimerTurnWork(d);
      ExpiredFrame(d, d.current[0].value);
      hide ProcessExpired, Pending;
      StuckStays(ProcessTimer(d));
    }
  }

  lemma OnwardTrans(d: Daemon, m: Daemon, r: Daemon)
    requires Onward(d, m) && Onward(m, r)
    ensures Onward(d, r)
  {
    hide NoUser, Period, Runs;
  }

  lemma {:induction false} DrainOnTime(d: Daemon)
    requires OnTime(d) && !d.stuck && d.last == d.now && Timely(d) && !Drain(d).stuck
    ensures var r := Drain(d); OnTime(r) && Onward(d, r) && r.queue == [] && !Due(r)
    decreases Pending(d)
  {
    hide ListInv, AllGood, Dated, ProcessTimer, ProcessCommand, Pending, Due, Timely, Prompt;
    if d.queue != [] {
      CommandTurnWork(d);
      CommandTurnOnward(d);
      CommandTurnKeeps(d);
      DrainNext(d, ProcessCommand(d));
    } else if Due(d) {
      TimerTurnWork(d);
      TimerTurnOnward(d);
      TimerTurnKeeps(d);
      DrainNext(d, ProcessTimer(d));
    }
  }

  lemma DrainNext(d: Daemon, m: Daemon)
    requires OnTime(m) && m.last == m.now && Timely(m) && !Drain(m).stuck && Onward(d, m) && Pending(m) < Pending(d)
    ensures var r := Drain(m); OnTime(r) && Onward(d, r) && r.queue == [] && !Due(r)
    decreases Pending(d), 0
  {
    hide OnTime, Onward, Pending, Due, Timely, Drain;
    if m.stuck { StuckStays(m); }
    DrainOnTime(m);
    OnwardTrans(d, m, Drain(m));
  }

  /** How many runs are due by now to a timer started at base with period p. */
  function RunsDue(base: nat, p: word, isAuto: bool, now: nat): nat
    requires base <= now && p > 0
  {
    if isAuto then (now - base) / p else if now >= base + p then 1 else 0
  }

  /** Nothing pending and nothing due: a good timer has had exactly the runs due to it. */
  lemma QuietCount(d: Daemon, t: TimerId)
    requires ListInv(d) && t in d.base && Good(d, t) && d.last == d.now && d.queue == [] && !Due(d)
    ensures d.base[t] <= d.now && Runs(d, t) == RunsDue(d.base[t], Period(d, t), t in d.auto, d.now)
  {
    var p := Period(d, t);
    var e := Reached(d, t) + p;
    if ListedFor(d, t, e) {
      ListedLater(d, t, e);
      CountFrom(Runs(d, t), p, d.now - d.base[t]);
    }
  }

  lemma CountFrom(k: nat, p: word, span: nat)
    requires p > 0 && k * p <= span < k * p + p
    ensures span / p == k
  {
    var x := span / p - k;
    var rest := span % p;
    assert span == (k + x) * p + rest;
    assert (k + x) * p == k * p + x * p;
    Product(x, p);
  }

  lemma Product(x: int, p: nat)
    requires p > 0
    ensures x >= 1 ==> x * p >= p
    ensures x <= -1 ==> x * p + p <= 0
  {
  }

  /** When the head of the current list is not due, no listed timer is. */
  lemma ListedLater(d: Daemon, t: TimerId, e: nat)
    requires ListInv(d) && ListedFor(d, t, e) && d.last == d.now && !Due(d)
    ensures e > d.now
  {
    if ItemFor(t, e) in d.current && e / WRAP == d.last / WRAP {
      var i :| 0 <= i < |d.current| && d.current[i] == ItemFor(t, e);
      assert Values(d.current)[0] <= Values(d.current)[i];
    }
  }

  /** Auto-reload timers neither drift, fire early nor miss: in every legal run, once the due
      timers and pending commands are drained, every listed timer is followed, and the callback of
      every followed timer has run exactly once for each k >= 1 with base + k * period <= now, on
      the normal, late and wrap paths alike; a one-shot timer exactly once, if it was due. The
      schedule of a timer about which no user command was pending is the one it had before. */
  lemma ExactRuns(steps: seq<Step>, t: TimerId)
    requires LegalRun(IDLE, steps)
    requires var d := Final(IDLE, steps); !d.stuck && d.last == d.now && Timely(d) && !Drain(d).stuck
    ensures var d := Final(IDLE, steps);
      var r := Drain(d);
      && r.now == d.now && (!Off(r, t) ==> t in r.base)
      && (t in r.base ==>
        && r.base[t] <= r.now
        && Runs(r, t) == RunsDue(r.base[t], Period(r, t), t in r.auto, r.now))
      && (t in d.base && NoUser(d.queue, t) ==>
        t in r.base && r.base[t] == d.base[t] && Period(r, t) == Period(d, t))
  {
    var d := Final(IDLE, steps);
    IdleOnTime();
    hide ListInv, Good, Timely, Drain, Due, Dated, Final, LegalRun, Off;
    RunOnTime(IDLE, steps);
    DrainOnTime(d);
    var r := Drain(d);
    assert OnSchedule(r, t);
    if t in r.base { QuietCount(r, t); }
  }
}
