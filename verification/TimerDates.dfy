/** Every listed timer, followed or not, sits in the list of the epoch in which it is due. */
module TimerDates {
  import opened Words
  import opened Rings
  import opened Timers
  import opened TimerInv
  import opened TimerSteps

  /** Every item shows the unbounded time it is due at, which lies in the given epoch. */
  ghost predicate DatedList(s: seq<Entry>, epoch: nat) {
    forall x :: x in s ==> x.value == Low(x.due) && x.due / WRAP == epoch
  }

  /** Every start under way shows the time it counts from, which has passed. */
  predicate DatedQueue(q: seq<Message>, now: nat) {
    forall i :: 0 <= i < |q| ==> Stamped(q[i], now)
  }

  /** The current list holds the timers of the epoch of the last sample, the overflow list those
      of the next epoch. */
  ghost predicate Dated(d: Daemon) {
    && DatedList(d.current, d.last / WRAP) && DatedList(d.overflow, d.last / WRAP + 1)
    && DatedQueue(d.queue, d.now)
  }

  lemma InsertDated(s: seq<Entry>, e: Entry, epoch: nat)
    requires DatedList(s, epoch) && e.value == Low(e.due) && e.due / WRAP == epoch
    ensures DatedList(Insert(s, e), epoch)
  {
    SpliceMembers(s, InsertPos(Values(s), e.value), e);
    hide Splice, InsertPos;
  }

  lemma TailDated(s: seq<Entry>, epoch: nat)
    requires s != [] && DatedList(s, epoch)
    ensures DatedList(s[1..], epoch)
  {
  }

  lemma PostDated(d: Daemon, m: Message)
    requires DatedQueue(d.queue, d.now) && Stamped(m, d.now)
    ensures DatedQueue(Post(d, m).queue, d.now)
  {
    var r := Post(d, m);
    hide Stamped;
    forall i | 0 <= i < |r.queue| ensures Stamped(r.queue[i], d.now) {
      if i < |d.queue| { assert r.queue[i] == d.queue[i]; }
    }
  }

  /** prvInsertTimerInActiveList, for a command at c less than one turn old: the timer goes to the
      list of the epoch in which it is due, or is due already. */
  lemma InsertTimerDated(q: Daemon, t: TimerId, c: nat)
    requires DatedList(q.current, q.last / WRAP) && DatedList(q.overflow, q.last / WRAP + 1)
    requires q.last == q.now && c <= q.now < c + WRAP
    ensures var p := Period(q, t);
      var (r, x) := InsertTimer(q, t, Add(Low(c), p), Low(q.now), Low(c), c + p);
      && DatedList(r.current, q.last / WRAP) && DatedList(r.overflow, q.last / WRAP + 1)
      && r == q.(current := r.current, overflow := r.overflow) && (x ==> c + p <= q.now)
  {
    hide DatedList, Insert, Place;
    var e := c + Period(q, t);
    InsertIs(q, t, c);
    PlaceExact(c, Period(q, t), q.now);
    if e / WRAP == q.last / WRAP { InsertDated(q.current, ItemFor(t, e), q.last / WRAP); }
    if e / WRAP == q.last / WRAP + 1 { InsertDated(q.overflow, ItemFor(t, e), q.last / WRAP + 1); }
  }

  /** One pass of the switch loop: a reload within the epoch stays in it, any other is posted. */
  lemma SwitchOneDated(d: Daemon)
    requires Dated(d) && d.current != [] && d.now / WRAP > d.last / WRAP
    ensures Dated(SwitchOne(d))
  {
    hide *;
    var e := d.current[0];
    var p := Period(d, e.timer);
    HeadEpoch(d);
    PoppedDated(d);
    PoppedFrame(d);
    SwitchOneIs(d);
    EarlierEpoch(e.due, d.now, d.last);
    ReloadEpoch(e.due, p);
    if e.timer in d.auto {
      if Add(e.value, p) > e.value {
        ReloadDated(Popped(d), Entry(e.timer, Add(e.value, p), e.due + p));
      } else {
        RestartDated(Popped(d), e.timer, e.due);
      }
    }
  }

  lemma HeadEpoch(d: Daemon)
    requires Dated(d) && d.current != []
    ensures var e := d.current[0]; e.value == Low(e.due) && e.due / WRAP == d.last / WRAP
  {
    assert d.current[0] in d.current;
    hide DatedQueue, Low;
  }

  lemma PoppedDated(d: Daemon)
    requires Dated(d) && d.current != []
    ensures Dated(Popped(d))
  {
    TailDated(d.current, d.last / WRAP);
    hide DatedList, DatedQueue;
  }

  lemma ReloadDated(p: Daemon, e: Entry)
    requires Dated(p) && e.value == Low(e.due) && e.due / WRAP == p.last / WRAP
    ensures Dated(p.(current := Insert(p.current, e)))
  {
    InsertDated(p.current, e, p.last / WRAP);
    hide DatedList, DatedQueue, Insert;
  }

  lemma RestartDated(p: Daemon, t: TimerId, e: nat)
    requires Dated(p) && e <= p.now
    ensures Dated(Post(p, Message(Restart, t, Low(e), e)))
  {
    PostDated(p, Message(Restart, t, Low(e), e));
    PostFrame(p, Message(Restart, t, Low(e), e));
    hide DatedList, DatedQueue, Post;
  }

  lemma {:induction false} SwitchLoopDated(d: Daemon)
    requires Dated(d) && d.now / WRAP > d.last / WRAP
    ensures Dated(SwitchLoop(d)) && SwitchLoop(d).current == []
    ensures SwitchLoop(d).now == d.now && SwitchLoop(d).last == d.last
    decreases Work(d.current)
  {
    if d.current != [] {
      SwitchProgress(d);
      SwitchOneFrame(d);
      SwitchOneDated(d);
      hide Dated, SwitchOne;
      SwitchLoopDated(SwitchOne(d));
    }
  }

  lemma SampleDated(d: Daemon)
    requires Dated(d) && Fresh(d)
    ensures Dated(Sample(d)) && Sample(d).last == Sample(d).now == d.now
  {
    WrapShows(d.last, d.now);
    if Low(d.now) < Low(d.last) { SwitchLoopDated(d); }
    hide SwitchLoop;
  }

  /** The head of the current list, when it is due, is less than one turn old. */
  lemma HeadDated(d: Daemon)
    requires Dated(d) && d.current != [] && d.last == d.now && d.current[0].value <= Low(d.now)
    ensures var e := d.current[0];
      e.value == Low(e.due) && e.due <= d.now < e.due + WRAP && Dated(Popped(d))
  {
    var e := d.current[0];
    assert e in d.current;
    TailDated(d.current, d.last / WRAP);
    DueBy(e.due, d.now);
    hide DatedQueue;
  }

  /** A timer that was due at e goes back on a list, or is posted. */
  lemma ReinsertedDated(p: Daemon, t: TimerId, e: nat)
    requires Dated(p) && p.last == p.now && e <= p.now < e + WRAP
    ensures var (m, x) := InsertTimer(p, t, Add(Low(e), Period(p, t)), Low(p.now), Low(e), e + Period(p, t));
      Dated(if x then Post(m, Message(Restart, t, Low(e), e)) else m)
  {
    hide DatedList, DatedQueue, InsertTimer, Post;
    InsertTimerDated(p, t, e);
    var m := InsertTimer(p, t, Add(Low(e), Period(p, t)), Low(p.now), Low(e), e + Period(p, t)).0;
    PostDated(m, Message(Restart, t, Low(e), e));
    PostFrame(m, Message(Restart, t, Low(e), e));
  }

  lemma ActiveDated(p: Daemon, active: set<TimerId>)
    requires Dated(p)
    ensures Dated(p.(active := active))
  {
  }

  lemma ExpiredDated(d: Daemon)
    requires Dated(d) && d.current != [] && d.last == d.now && d.current[0].value <= Low(d.now)
    ensures Dated(ProcessExpired(d, d.current[0].value, Low(d.now)))
  {
    hide *;
    HeadDated(d);
    var e := d.current[0];
    ExpiredIs(d, e.value, Low(d.now));
    PoppedFrame(d);
    var p := Popped(d);
    if e.timer in d.auto {
      ReinsertedDated(p, e.timer, e.due);
    } else {
      ActiveDated(p, p.active - {e.timer});
    }
  }

  lemma TimerTurnDated(d: Daemon)
    requires Dated(d) && Fresh(d)
    ensures Dated(ProcessTimer(d))
  {
    SampleDated(d);
    WrapShows(d.last, d.now);
    var next := if d.current == [] then 0 else d.current[0].value;
    if Low(d.now) >= Low(d.last) && d.current != [] && next <= Low(d.now) {
      assert Sample(d).current == d.current;
      ExpiredDated(Sample(d));
    }
    hide Dated, Sample, ProcessExpired;
  }

  lemma DropDated(s: seq<Entry>, t: TimerId, epoch: nat)
    requires DatedList(s, epoch)
    ensures DatedList(Drop(s, t), epoch)
  {
    hide Drop;
  }

  lemma FollowDated(d: Daemon, m: Message, start: nat)
    requires Dated(d)
    ensures Dated(Follow(d, m, start))
  {
    FollowFrame(d, m, start);
    hide Follow, DatedList, DatedQueue;
  }

  lemma StartDated(d: Daemon, m: Message)
    requires Dated(d) && d.last == d.now && Starts(m) && Stamped(m, d.now) && d.now < m.sent + WRAP
    ensures Dated(ExecuteStart(d, m))
  {
    hide DatedList, DatedQueue, Follow, InsertTimer, Post;
    var t := m.timer;
    var a := d.(active := d.active + {t});
    var q := Follow(a, m, m.sent);
    FollowFrame(a, m, m.sent);
    FollowDated(a, m, m.sent);
    InsertTimerDated(q, t, m.sent);
    ReloadEpoch(m.sent, Period(d, t));
    var (d1, x) := InsertTimer(q, t, Add(m.value, Period(d, t)), Low(d.now), m.value, m.sent + Period(d, t));
    var c := Callback(d1, t);
    var msg := Message(Restart, t, Add(m.value, Period(d, t)), m.sent + Period(d, t));
    if x { PostDated(c, msg); }
    PostFrame(c, msg);
  }

  lemma PeriodDated(d: Daemon, m: Message)
    requires Dated(d) && d.last == d.now
    ensures Dated(ExecutePeriod(d, m))
  {
    hide DatedList, DatedQueue, Follow, InsertTimer;
    if m.value != 0 {
      var a := d.(active := d.active + {m.timer}, period := d.period[m.timer := m.value]);
      FollowFrame(a, m, d.now);
      FollowDated(a, m, d.now);
      InsertTimerDated(Follow(a, m, d.now), m.timer, d.now);
    }
  }

  lemma ExecuteDated(d: Daemon, m: Message)
    requires Dated(d) && d.last == d.now && Stamped(m, d.now) && (Starts(m) ==> d.now < m.sent + WRAP)
    ensures Dated(Execute(d, m))
  {
    match m.kind
    case Start => StartDated(d, m); hide ExecuteStart;
    case Restart => StartDated(d, m); hide ExecuteStart;
    case ChangePeriod => PeriodDated(d, m); hide ExecutePeriod;
    case Stop => hide DatedList, DatedQueue;
    case Delete => hide DatedList, DatedQueue;
  }

  lemma TakenDated(d: Daemon)
    requires Dated(d) && d.queue != []
    ensures Dated(Taken(d)) && Stamped(d.queue[0], d.now)
  {
    var t := d.queue[0].timer;
    DropDated(d.current, t, d.last / WRAP);
    DropDated(d.overflow, t, d.last / WRAP + 1);
    hide Drop, DatedList, Stamped;
    forall i | 0 <= i < |d.queue[1..]| ensures Stamped(d.queue[1..][i], d.now) {
      assert d.queue[1..][i] == d.queue[i + 1];
    }
  }

  lemma CommandDated(d: Daemon)
    requires Dated(d) && Fresh(d) && d.queue != [] && Prompt(d)
    ensures Dated(ProcessCommand(d))
  {
    TakenDated(d);
    TakenFrame(d);
    hide Dated, Taken, Sample, Execute, ProcessCommand;
    SampleDated(Taken(d));
    ExecuteDated(Sample(Taken(d)), d.queue[0]);
  }
}
