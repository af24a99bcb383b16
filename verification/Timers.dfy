/** The timer daemon of timers.c: two lists of expiry times in 32-bit ticks, and a command queue
    it also posts to itself. Beside every tick stands the unbounded time it shows, and for every
    followed timer when its schedule began; these exist only in the model, and decide nothing. */
module Timers {
  import opened Words
  import opened Rings

  type TimerId = nat

  const QUEUE_LENGTH: nat := 5

  /** A timer's list item: xItemValue is its expiry time, due the unbounded time it stands for. */
  datatype Entry = Entry(timer: TimerId, value: word, due: nat)

  /** Restart is tmrCOMMAND_START_DONT_TRACE, which only the daemon posts. */
  datatype Kind = Start | Restart | Stop | ChangePeriod | Delete

  /** sent is the unbounded time a command was sent at, or that a restart is to count from. */
  datatype Message = Message(kind: Kind, timer: TimerId, value: word, sent: nat)

  datatype Daemon = Daemon(
    current: seq<Entry>,          // pxCurrentTimerList
    overflow: seq<Entry>,         // pxOverflowTimerList
    queue: seq<Message>,          // xTimerQueue
    period: map<TimerId, word>,   // xTimerPeriodInTicks
    auto: set<TimerId>,           // tmrSTATUS_IS_AUTORELOAD
    active: set<TimerId>,         // tmrSTATUS_IS_ACTIVE
    last: nat,                    // unbounded time of the last sample; xLastTime is Low(last)
    now: nat,                     // the unbounded clock
    base: map<TimerId, nat>,      // when the schedule of each followed timer began
    runs: map<TimerId, nat>,      // how often its callback has run since
    stuck: bool                   // a configASSERT has failed
  )

  function Values(s: seq<Entry>): (r: seq<word>)
    ensures |r| == |s|
    ensures forall i :: 0 <= i < |r| ==> r[i] == s[i].value
  {
    seq(|s|, i requires 0 <= i < |s| => s[i].value)
  }

  /** vListInsert by expiry time. */
  function Insert(s: seq<Entry>, e: Entry): seq<Entry> {
    Splice(s, InsertPos(Values(s), e.value), e)
  }

  function Period(d: Daemon, t: TimerId): (p: word)
    ensures p > 0
  {
    if t in d.period && d.period[t] > 0 then d.period[t] else 1
  }

  function Runs(d: Daemon, t: TimerId): nat {
    if t in d.runs then d.runs[t] else 0
  }

  function Callback(d: Daemon, t: TimerId): Daemon {
    d.(runs := d.runs[t := Runs(d, t) + 1])
  }

  /** xTimerGenericCommand without blocking; the daemon asserts that its own posts succeed. */
  function Post(d: Daemon, m: Message): Daemon {
    if |d.queue| < QUEUE_LENGTH then d.(queue := d.queue + [m]) else d.(stuck := true)
  }

  function Drop(s: seq<Entry>, t: TimerId): (r: seq<Entry>)
    ensures |r| <= |s|
    ensures forall e :: e in r ==> e in s
  {
    if s == [] then [] else if s[0].timer == t then s[1..] else [s[0]] + Drop(s[1..], t)
  }

  datatype Placing = ProcessNow | ToCurrent | ToOverflow

  /** The decision of prvInsertTimerInActiveList. */
  function Place(next: word, now: word, command: word, period: word): Placing {
    if next <= now then (if Sub(now, command) >= period then ProcessNow else ToOverflow)
    else if now < command && next >= command then ProcessNow
    else ToCurrent
  }

  /** prvInsertTimerInActiveList: the new state, and whether the timer is already due. */
  function InsertTimer(d: Daemon, t: TimerId, next: word, now: word, command: word, due: nat): (Daemon, bool) {
    match Place(next, now, command, Period(d, t))
    case ProcessNow => (d, true)
    case ToCurrent => (d.(current := Insert(d.current, Entry(t, next, due))), false)
    case ToOverflow => (d.(overflow := Insert(d.overflow, Entry(t, next, due))), false)
  }

  /** One pass of the loop of prvSwitchTimerLists. */
  function SwitchOne(d: Daemon): Daemon
    requires d.current != []
  {
    var e := d.current[0];
    var d1 := Callback(d.(current := d.current[1..]), e.timer);
    if e.timer !in d.auto then d1
    else
      var reload := Add(e.value, Period(d, e.timer));
      if reload > e.value then
        d1.(current := Insert(d1.current, Entry(e.timer, reload, e.due + Period(d, e.timer))))
      else Post(d1, Message(Restart, e.timer, e.value, e.due))
  }

  /** How far the listed expiry times are from the end of the epoch. */
  function Work(s: seq<Entry>): nat {
    if s == [] then 0 else WRAP - s[0].value + Work(s[1..])
  }

  lemma {:induction false} WorkSplice(s: seq<Entry>, k: nat, e: Entry)
    requires k <= |s|
    ensures Work(Splice(s, k, e)) == Work(s) + WRAP - e.value
  {
    var r := Splice(s, k, e);
    if k == 0 {
      assert r[0] == e && r[1..] == s;
    } else {
      WorkSplice(s[1..], k - 1, e);
      assert r[0] == s[0] && r[1..] == Splice(s[1..], k - 1, e);
    }
  }

  /** The loop of prvSwitchTimerLists comes to an end: every pass drops a timer or moves its
      expiry time strictly towards the end of the epoch. */
  lemma SwitchProgress(d: Daemon)
    requires d.current != []
    ensures Work(SwitchOne(d).current) < Work(d.current)
  {
    var e := d.current[0];
    var rest := d.current[1..];
    var reload := Add(e.value, Period(d, e.timer));
    WorkSplice(rest, InsertPos(Values(rest), reload), Entry(e.timer, reload, e.due + Period(d, e.timer)));
  }

  function SwitchLoop(d: Daemon): Daemon
    decreases Work(d.current)
  {
    if d.current == [] then d else SwitchProgress(d); SwitchLoop(SwitchOne(d))
  }

  /** prvSwitchTimerLists. */
  function SwitchLists(d: Daemon): Daemon {
    var d1 := SwitchLoop(d);
    d1.(current := d1.overflow, overflow := d1.current)
  }

  /** prvSampleTimeNow reads the clock; a smaller reading than the last one means it wrapped. */
  function Sample(d: Daemon): Daemon {
    (if Low(d.now) < Low(d.last) then SwitchLists(d) else d).(last := d.now)
  }

  /** prvProcessExpiredTimer. */
  function ProcessExpired(d: Daemon, next: word, now: word): Daemon
    requires d.current != []
  {
    var t := d.current[0].timer;
    var due := d.current[0].due;
    var d1 := d.(current := d.current[1..]);
    var d2 :=
      if t in d.auto then
        var (d3, expired) := InsertTimer(d1, t, Add(next, Period(d, t)), now, next, due + Period(d, t));
        if expired then Post(d3, Message(Restart, t, next, due)) else d3
      else d1.(active := d1.active - {t});
    Callback(d2, t)
  }

  /** prvGetNextExpireTime and prvProcessTimerOrBlockTask, up to the block. */
  function ProcessTimer(d: Daemon): Daemon {
    var next := if d.current == [] then 0 else d.current[0].value;
    var d1 := Sample(d);
    if Low(d.now) < Low(d.last) then d1
    else if d.current != [] && next <= Low(d.now) then ProcessExpired(d1, next, Low(d.now))
    else d1
  }

  predicate IsRestart(m: Message, t: TimerId) {
    m.kind == Restart && m.timer == t
  }

  predicate NoRestart(q: seq<Message>, t: TimerId) {
    forall i :: 0 <= i < |q| ==> !IsRestart(q[i], t)
  }

  /** The schedule followed from here on, the queue being what is left behind m: a restart of a
      followed timer continues its schedule, any other start begins one; with a restart of the
      same timer still behind m, which may overrule m, no schedule is followed for the time being. */
  function Follow(d: Daemon, m: Message, start: nat): Daemon {
    var goOn := m.kind == Restart && m.timer in d.base;
    if !NoRestart(d.queue, m.timer) then d.(base := d.base - {m.timer})
    else if goOn then d
    else d.(base := d.base[m.timer := start], runs := d.runs[m.timer := 0])
  }

  /** The start cases of prvProcessReceivedCommands. */
  function ExecuteStart(d: Daemon, m: Message): Daemon {
    var t := m.timer;
    var p := Period(d, t);
    var q := Follow(d.(active := d.active + {t}), m, m.sent);
    var (d1, expired) := InsertTimer(q, t, Add(m.value, p), Low(d.now), m.value, m.sent + p);
    if !expired then d1
    else if t in d.auto then Post(Callback(d1, t), Message(Restart, t, Add(m.value, p), m.sent + p))
    else Callback(d1, t)
  }

  /** The change-period case: the new period counts from now. */
  function ExecutePeriod(d: Daemon, m: Message): Daemon {
    if m.value == 0 then d.(stuck := true)
    else
      var t := m.timer;
      var q := Follow(d.(active := d.active + {t}, period := d.period[t := m.value]), m, d.now);
      InsertTimer(q, t, Add(Low(d.now), m.value), Low(d.now), Low(d.now), d.now + m.value).0
  }

  function Stopped(d: Daemon, t: TimerId): Daemon {
    d.(active := d.active - {t}, base := d.base - {t})
  }

  /** The switch statement of prvProcessReceivedCommands. */
  function Execute(d: Daemon, m: Message): Daemon {
    match m.kind
    case Start => ExecuteStart(d, m)
    case Restart => ExecuteStart(d, m)
    case Stop => Stopped(d, m.timer)
    case ChangePeriod => ExecutePeriod(d, m)
    case Delete => Stopped(d, m.timer)
  }

  /** One turn of the loop of prvProcessReceivedCommands. */
  function ProcessCommand(d: Daemon): Daemon
    requires d.queue != []
  {
    var m := d.queue[0];
    var d1 := d.(queue := d.queue[1..], current := Drop(d.current, m.timer), overflow := Drop(d.overflow, m.timer));
    Execute(Sample(d1), m)
  }
}
