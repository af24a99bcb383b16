/** Each step of the daemon keeps every followed timer on schedule. */
module TimerSteps {
  import opened Words
  import opened Rings
  import opened Timers
  import opened TimerInv

  // ----- insertion is exact modulo 2^32

  /** For a command at unbounded time c and a period p, seen at now: how the decision comes out. */
  lemma PlaceModulo(c: nat, p: word, now: nat)
    requires 0 < p && c <= now
    ensures Place(Low(c + p), Low(now), Low(c), p) == ProcessNow <==> (now - c) % WRAP >= p
  {
    var a := (now - c) % WRAP;
    LowApart(c, now);
  }

  lemma LowApart(c: nat, now: nat)
    requires c <= now
    ensures Sub(Low(now), Low(c)) == (now - c) % WRAP
  {
    assert now - c == (now / WRAP - c / WRAP) * WRAP + (now % WRAP - c % WRAP);
  }

  /** Timer insertion is exact: with less than one turn of the clock between the command time and
      now, the timer is processed at once exactly when its period has elapsed, and otherwise
      goes to the list of the epoch in which it expires. */
  lemma PlaceExact(c: nat, p: word, now: nat)
    requires 0 < p && c <= now < c + WRAP
    ensures var r := Place(Low(c + p), Low(now), Low(c), p);
      && (r == ProcessNow <==> c + p <= now)
      && (r == ToCurrent <==> c + p > now && (c + p) / WRAP == now / WRAP)
      && (r == ToOverflow <==> c + p > now && (c + p) / WRAP == now / WRAP + 1)
  {
    PlaceModulo(c, p, now);
    assert (now - c) % WRAP == now - c;
    var e := c + p;
    if e > now {
      assert e < now + WRAP;
      if e / WRAP == now / WRAP { assert Low(e) > Low(now); }
      else { assert e / WRAP == now / WRAP + 1 && Low(e) < Low(now) + 1; }
    }
  }

  /** The decision is right exactly when the command is less than one turn of the clock old, or
      enough of the current turn has gone by as well. */
  lemma PlaceRightIff(c: nat, p: word, now: nat)
    requires 0 < p && c <= now
    ensures (Place(Low(c + p), Low(now), Low(c), p) == ProcessNow <==> now >= c + p) <==>
      (now - c < WRAP || (now - c) % WRAP >= p)
  {
    PlaceModulo(c, p, now);
  }

  // ----- one pass of the switch loop

  /** Only t has changed, and it is on schedule again. */
  lemma AllFrame(d: Daemon, r: Daemon, except: set<TimerId>, t: TimerId)
    requires AllGood(d, except) && Elsewhere(d, r, t) && OnSchedule(r, t) && t !in except
    ensures AllGood(r, except)
  {
    forall u | u !in except ensures OnSchedule(r, u) {
      if u != t { ScheduleFrame(d, r, u); }
    }
    forall u | u in except ensures Off(r, u) {
      ScheduleFrame(d, r, u);
    }
    hide OnSchedule, SameFor, Off;
  }

  /** A listed timer is followed, or a restart of it is under way. */
  lemma ListedMeans(d: Daemon, t: TimerId)
    requires OnSchedule(d, t) && !Off(d, t)
    ensures t in d.base || !NoRestart(d.queue, t)
  {
  }

  /** A good timer that stands in the current list stands there for its next run. */
  lemma HeadDue(d: Daemon, i: nat)
    requires ListInv(d) && i < |d.current|
    requires d.current[i].timer in d.base && Good(d, d.current[i].timer)
    ensures var t := d.current[i].timer;
      var e := Reached(d, t) + Period(d, t);
      && d.current[i] == ItemFor(t, e) && e / WRAP == d.last / WRAP
      && NoRestart(d.queue, t) && (t in d.auto || Runs(d, t) == 0)
  {
    var t := d.current[i].timer;
    assert !Unlisted(d.current, t);
    var e := Reached(d, t) + Period(d, t);
    assert ListedFor(d, t, e);
    if ItemFor(t, e) in d.current { SameTimer(d.current, d.current[i], ItemFor(t, e)); }
  }

  lemma PostedOne(q: seq<Message>, m: Message)
    requires NoRestart(q, m.timer)
    ensures OneRestart(q + [m], m)
  {
    assert (q + [m])[|q|] == m;
  }

  /** r is d as far as every timer but t is concerned. */
  ghost predicate Elsewhere(d: Daemon, r: Daemon, t: TimerId) {
    forall u :: u != t ==> SameFor(d, r, u)
  }

  lemma ElsewhereTrans(d: Daemon, m: Daemon, r: Daemon, t: TimerId)
    requires Elsewhere(d, m, t) && Elsewhere(m, r, t) && (m.queue == d.queue || r.queue == m.queue)
    ensures Elsewhere(d, r, t)
  {
    forall u | u != t ensures SameFor(d, r, u) {
      assert SameFor(d, m, u) && SameFor(m, r, u);
    }
  }

  /** The head of the current list comes off. */
  lemma PopKeeps(d: Daemon)
    requires ListInv(d) && d.current != []
    ensures var r := d.(current := d.current[1..]);
      var t := d.current[0].timer;
      ListInv(r) && Elsewhere(d, r, t) && Off(r, t)
  {
    TailKeeps(d.current);
    var t := d.current[0].timer;
    assert d.current[0] in d.current;
    hide Sorted;
    forall i | 0 <= i < |d.overflow| ensures d.overflow[i].timer != t { assert d.overflow[i] in d.overflow; }
  }

  lemma ToCurrentKeeps(d: Daemon, e: Entry)
    requires ListInv(d) && Off(d, e.timer)
    ensures var r := d.(current := Insert(d.current, e));
      ListInv(r) && Elsewhere(d, r, e.timer) && e in r.current
  {
    InsertKeeps(d.current, e);
    hide Insert;
    hide Sorted;
  }

  lemma ToOverflowKeeps(d: Daemon, e: Entry)
    requires ListInv(d) && Off(d, e.timer)
    ensures var r := d.(overflow := Insert(d.overflow, e));
      ListInv(r) && Elsewhere(d, r, e.timer) && e in r.overflow
  {
    InsertKeeps(d.overflow, e);
    hide Insert;
    hide Sorted;
  }

  lemma PostKeeps(d: Daemon, m: Message)
    requires ListInv(d)
    ensures ListInv(Post(d, m)) && Elsewhere(d, Post(d, m), m.timer)
    ensures NoRestart(d.queue, m.timer) && !Post(d, m).stuck ==> OneRestart(Post(d, m).queue, m)
  {
    if NoRestart(d.queue, m.timer) { PostedOne(d.queue, m); }
    hide Sorted;
  }

  lemma CallbackKeeps(d: Daemon, t: TimerId)
    requires ListInv(d)
    ensures ListInv(Callback(d, t)) && Elsewhere(d, Callback(d, t), t)
    ensures t in d.base ==> Reached(Callback(d, t), t) == Reached(d, t) + Period(d, t)
  {
    hide Sorted;
    if t in d.base { NextReached(d, Callback(d, t), t); }
  }

  /** The callback of the first timer of the current list has run; it is about to be reloaded. */
  function Popped(d: Daemon): Daemon
    requires d.current != []
  {
    Callback(d.(current := d.current[1..]), d.current[0].timer)
  }

  lemma PoppedKeeps(d: Daemon)
    requires ListInv(d) && d.current != []
    ensures var t := d.current[0].timer;
      var r := Popped(d);
      && ListInv(r) && Elsewhere(d, r, t) && Off(r, t)
      && r == d.(current := d.current[1..], runs := r.runs) && Runs(r, t) == Runs(d, t) + 1
      && (t in d.base ==> Reached(r, t) == Reached(d, t) + Period(d, t))
  {
    PopKeeps(d);
    var m := d.(current := d.current[1..]);
    CallbackKeeps(m, d.current[0].timer);
    ElsewhereTrans(d, m, Popped(d), d.current[0].timer);
    hide ListInv;
    hide Elsewhere;
  }

  /** What SwitchOne does after popping. */
  lemma SwitchOneIs(d: Daemon)
    requires d.current != []
    ensures var e := d.current[0];
      var p := Period(d, e.timer);
      var reload := Add(e.value, p);
      SwitchOne(d) ==
        if e.timer !in d.auto then Popped(d)
        else if reload > e.value then
          Popped(d).(current := Insert(Popped(d).current, Entry(e.timer, reload, e.due + p)))
        else Post(Popped(d), Message(Restart, e.timer, e.value, e.due))
  {
  }

  lemma SwitchOneLists(d: Daemon)
    requires ListInv(d) && d.current != []
    ensures ListInv(SwitchOne(d)) && Elsewhere(d, SwitchOne(d), d.current[0].timer)
  {
    hide SwitchOne, ListInv, Popped, Elsewhere, Insert, Off, NoRestart, OneRestart;
    var e := d.current[0];
    PoppedKeeps(d);
    SwitchOneIs(d);
    var p := Popped(d);
    ToCurrentKeeps(p, Entry(e.timer, Add(e.value, Period(d, e.timer)), e.due + Period(d, e.timer)));
    PostKeeps(p, Message(Restart, e.timer, e.value, e.due));
    if e.timer in d.auto { ElsewhereTrans(d, p, SwitchOne(d), e.timer); }
  }

  // The ways a timer is left after its callback has run: p is the state in which the timer is
  // on no list, no restart of it is under way, and it has just been served up to e.

  ghost predicate Served(p: Daemon, t: TimerId, e: nat) {
    && ListInv(p) && t in p.base && Reached(p, t) == e <= p.now && Off(p, t) && NoRestart(p.queue, t)
  }

  lemma LeftCurrent(p: Daemon, t: TimerId, e: nat)
    requires Served(p, t, e) && (t in p.auto || Runs(p, t) == 0) && (e + Period(p, t)) / WRAP == p.last / WRAP
    ensures Good(p.(current := Insert(p.current, ItemFor(t, e + Period(p, t)))), t)
  {
    hide Insert;
    hide ListInv;
    hide Elsewhere;
    var n := ItemFor(t, e + Period(p, t));
    ToCurrentKeeps(p, n);
    var r := p.(current := Insert(p.current, n));
    assert ListedFor(r, t, e + Period(p, t));
  }

  lemma LeftOverflow(p: Daemon, t: TimerId, e: nat)
    requires Served(p, t, e) && (t in p.auto || Runs(p, t) == 0) && (e + Period(p, t)) / WRAP == p.last / WRAP + 1
    ensures Good(p.(overflow := Insert(p.overflow, ItemFor(t, e + Period(p, t)))), t)
  {
    hide Insert;
    hide ListInv;
    hide Elsewhere;
    var n := ItemFor(t, e + Period(p, t));
    ToOverflowKeeps(p, n);
    var r := p.(overflow := Insert(p.overflow, n));
    assert ListedFor(r, t, e + Period(p, t));
  }

  lemma LeftPosted(p: Daemon, t: TimerId, e: nat)
    requires Served(p, t, e) && t in p.auto
    ensures var r := Post(p, RestartFor(t, e)); t in r.base && (r.stuck || Good(r, t))
  {
    PostKeeps(p, RestartFor(t, e));
    hide ListInv, NoRestart, OneRestart;
  }

  lemma LeftDone(p: Daemon, t: TimerId, e: nat)
    requires Served(p, t, e) && t !in p.auto && Runs(p, t) == 1
    ensures Good(p, t)
  {
  }

  lemma PoppedServed(d: Daemon)
    requires ListInv(d) && d.current != [] && d.current[0].timer in d.base && Good(d, d.current[0].timer)
    requires Reached(d, d.current[0].timer) + Period(d, d.current[0].timer) <= d.now
    ensures var t := d.current[0].timer;
      var e := Reached(d, t) + Period(d, t);
      && Served(Popped(d), t, e) && d.current[0] == ItemFor(t, e) && e / WRAP == d.last / WRAP
      && (t !in d.auto ==> Runs(Popped(d), t) == 1)
  {
    HeadDue(d, 0);
    PoppedKeeps(d);
    hide Good;
    hide Elsewhere;
    hide ListInv;
    hide Reached;
  }

  lemma EarlierEpoch(e: nat, now: nat, last: nat)
    requires e / WRAP == last / WRAP && now / WRAP > last / WRAP
    ensures e <= now
  {
  }

  lemma PoppedFrame(d: Daemon)
    requires d.current != []
    ensures var p := Popped(d);
      var t := d.current[0].timer;
      && p.auto == d.auto && p.base == d.base && p.last == d.last && p.now == d.now && Period(p, t) == Period(d, t)
      && p.queue == d.queue
  {
  }

  lemma SwitchOneHead(d: Daemon)
    requires ListInv(d) && d.current != [] && d.now / WRAP > d.last / WRAP
    requires d.current[0].timer in d.base && Good(d, d.current[0].timer)
    ensures !SwitchOne(d).stuck ==> d.current[0].timer in SwitchOne(d).base && Good(SwitchOne(d), d.current[0].timer)
  {
    hide *;
    var t := d.current[0].timer;
    var e := Reached(d, t) + Period(d, t);
    HeadDue(d, 0);
    ItemIs(t, e);
    EarlierEpoch(e, d.now, d.last);
    PoppedServed(d);
    SwitchOneIs(d);
    ReloadEpoch(e, Period(d, t));
    var p := Popped(d);
    PoppedFrame(d);
    if t !in d.auto {
      LeftDone(p, t, e);
    } else if Add(Low(e), Period(d, t)) > Low(e) {
      ItemIs(t, e + Period(d, t));
      LeftCurrent(p, t, e);
    } else {
      LeftPosted(p, t, e);
    }
  }

  lemma ItemIs(t: TimerId, e: nat)
    ensures ItemFor(t, e) == Entry(t, Low(e), e) && RestartFor(t, e) == Message(Restart, t, Low(e), e)
  {
  }

  lemma SwitchOneFrame(d: Daemon)
    requires d.current != []
    ensures var r := SwitchOne(d);
      && r.base == d.base && r.now == d.now && r.last == d.last && r.auto == d.auto && r.period == d.period
      && r.active == d.active && (d.stuck ==> r.stuck) && r.overflow == d.overflow
      && (r.queue == d.queue || exists m: Message :: r.queue == d.queue + [m])
  {
  }

  lemma HeadNotExcept(d: Daemon, except: set<TimerId>)
    requires d.current != [] && AllGood(d, except)
    ensures d.current[0].timer !in except && !Off(d, d.current[0].timer)
  {
    var t := d.current[0].timer;
    assert t in except ==> Off(d, t);
  }

  /** A restart under way stays under way while the queue grows. */
  lemma RestartStays(d: Daemon, r: Daemon, t: TimerId)
    requires !NoRestart(d.queue, t) && t !in r.base
    requires r.queue == d.queue || exists m: Message :: r.queue == d.queue + [m]
    ensures OnSchedule(r, t)
  {
    var i :| 0 <= i < |d.queue| && IsRestart(d.queue[i], t);
    assert r.queue[i] == d.queue[i];
  }

  lemma SwitchOneKeeps(d: Daemon, except: set<TimerId>)
    requires ListInv(d) && AllGood(d, except) && d.current != [] && d.now / WRAP > d.last / WRAP
    ensures var r := SwitchOne(d); ListInv(r) && (!r.stuck ==> AllGood(r, except))
  {
    SwitchOneLists(d);
    SwitchOneFrame(d);
    HeadNotExcept(d, except);
    var t := d.current[0].timer;
    var r := SwitchOne(d);
    assert OnSchedule(d, t);
    ListedMeans(d, t);
    if t in d.base { SwitchOneHead(d); } else { RestartStays(d, r, t); }
    hide ListInv, SwitchOne, Good, AllGood, Off, NoRestart;
    if !r.stuck { AllFrame(d, r, except, t); }
  }

  /** The whole switch loop: every timer of the ending epoch has had all its runs in it. */
  lemma {:induction false} SwitchLoopKeeps(d: Daemon, except: set<TimerId>)
    requires ListInv(d) && (!d.stuck ==> AllGood(d, except)) && d.now / WRAP > d.last / WRAP
    ensures var r := SwitchLoop(d);
      && ListInv(r) && (!r.stuck ==> AllGood(r, except)) && r.current == []
      && r.base == d.base && r.now == d.now && r.last == d.last && r.auto == d.auto && r.period == d.period
      && (d.stuck ==> r.stuck)
    decreases Work(d.current)
  {
    if d.current != [] {
      SwitchProgress(d);
      SwitchOneFrame(d);
      SwitchOneLists(d);
      if !d.stuck { SwitchOneKeeps(d, except); }
      hide ListInv;
      hide AllGood;
      hide SwitchOne;
      SwitchLoopKeeps(SwitchOne(d), except);
    }
  }

  /** The clock has wrapped since the last sample exactly when it shows a smaller tick. */
  lemma WrapShows(last: nat, now: nat)
    requires last <= now < last + WRAP
    ensures Low(now) < Low(last) <==> now / WRAP == last / WRAP + 1
    ensures Low(now) >= Low(last) <==> now / WRAP == last / WRAP
  {
    var q := now / WRAP - last / WRAP;
    assert now - last == q * WRAP + Low(now) - Low(last);
  }

  lemma EpochMoves(d: Daemon, r: Daemon, t: TimerId, e: nat)
    requires ListedFor(d, t, e) && r.last / WRAP == d.last / WRAP + 1
    requires d.current == [] && r.current == d.overflow
    ensures ListedFor(r, t, e)
  {
  }

  lemma SwappedGood(d: Daemon, except: set<TimerId>)
    requires AllGood(d, except) && d.current == [] && d.now / WRAP == d.last / WRAP + 1
    ensures AllGood(d.(current := d.overflow, overflow := d.current, last := d.now), except)
  {
    var r := d.(current := d.overflow, overflow := d.current, last := d.now);
    forall t ensures Off(d, t) ==> Off(r, t) { }
    forall t | t !in except ensures OnSchedule(r, t) {
      assert OnSchedule(d, t);
      if t in d.base {
        assert Reached(r, t) == Reached(d, t) && Period(r, t) == Period(d, t);
        if ListedFor(d, t, Reached(d, t) + Period(d, t)) { EpochMoves(d, r, t, Reached(d, t) + Period(d, t)); }
      }
    }
  }

  lemma SameEpochGood(d: Daemon, except: set<TimerId>)
    requires AllGood(d, except) && d.now / WRAP == d.last / WRAP
    ensures AllGood(d.(last := d.now), except)
  {
    var r := d.(last := d.now);
    forall t ensures Off(d, t) ==> Off(r, t) { }
    forall t | t !in except ensures OnSchedule(r, t) {
      assert OnSchedule(d, t);
      if t in d.base { assert Reached(r, t) == Reached(d, t) && Period(r, t) == Period(d, t); }
    }
  }

  /** prvSampleTimeNow, sampled at least once a turn: switches the lists exactly at a wrap. */
  lemma SampleKeeps(d: Daemon, except: set<TimerId>)
    requires ListInv(d) && AllGood(d, except) && Fresh(d) && !d.stuck
    ensures var r := Sample(d);
      && ListInv(r) && (!r.stuck ==> AllGood(r, except)) && r.last == r.now == d.now && r.base == d.base
      && r.auto == d.auto && r.period == d.period
      && (Low(d.now) >= Low(d.last) ==> r == d.(last := d.now))
  {
    WrapShows(d.last, d.now);
    if Low(d.now) < Low(d.last) {
      SwitchLoopKeeps(d, except);
      var m := SwitchLoop(d);
      if !m.stuck { SwappedGood(m, except); }
      hide SwitchLoop;
      hide AllGood;
    } else {
      SameEpochGood(d, except);
    }
  }

  // ----- the daemon's two entry points

  /** prvInsertTimerInActiveList for a command at unbounded time c. */
  lemma InsertIs(q: Daemon, t: TimerId, c: nat)
    ensures var p := Period(q, t);
      InsertTimer(q, t, Add(Low(c), p), Low(q.now), Low(c), c + p) ==
        match Place(Low(c + p), Low(q.now), Low(c), p)
        case ProcessNow => (q, true)
        case ToCurrent => (q.(current := Insert(q.current, ItemFor(t, c + p))), false)
        case ToOverflow => (q.(overflow := Insert(q.overflow, ItemFor(t, c + p))), false)
  {
    ReloadEpoch(c, Period(q, t));
    hide Insert, Place;
  }

  /** A served timer goes back through prvInsertTimerInActiveList, or is posted to itself. */
  lemma Reinserted(p: Daemon, t: TimerId, e: nat)
    requires Served(p, t, e) && t in p.auto && p.last == p.now && e / WRAP == p.now / WRAP
    ensures var (m, due) := InsertTimer(p, t, Add(Low(e), Period(p, t)), Low(p.now), Low(e), e + Period(p, t));
      var r := if due then Post(m, RestartFor(t, e)) else m;
      !r.stuck ==> t in r.base && Good(r, t)
  {
    assert p.now < e + WRAP by { assert p.now / WRAP == e / WRAP; }
    hide *;
    ServedBy(p, t, e);
    PlaceExact(e, Period(p, t), p.now);
    InsertIs(p, t, e);
    match Place(Low(e + Period(p, t)), Low(p.now), Low(e), Period(p, t))
    case ProcessNow => LeftPosted(p, t, e);
    case ToCurrent => LeftCurrent(p, t, e);
    case ToOverflow => LeftOverflow(p, t, e);
  }

  lemma ServedBy(p: Daemon, t: TimerId, e: nat)
    requires Served(p, t, e)
    ensures e <= p.now && t in p.base
  {
  }

  lemma InsertKeepsLists(p: Daemon, t: TimerId, next: word, now: word, command: word, due: nat)
    requires ListInv(p) && Off(p, t)
    ensures var r := InsertTimer(p, t, next, now, command, due).0;
      && ListInv(r) && Elsewhere(p, r, t) && r.base == p.base && r.now == p.now && r.last == p.last
      && r.queue == p.queue && r.stuck == p.stuck && r.auto == p.auto && r.period == p.period && r.runs == p.runs
  {
    ToCurrentKeeps(p, Entry(t, next, due));
    ToOverflowKeeps(p, Entry(t, next, due));
    ElsewhereSelf(p, t);
    hide ListInv;
    hide Elsewhere;
    hide Insert;
  }

  lemma ElsewhereSelf(p: Daemon, t: TimerId)
    ensures Elsewhere(p, p, t)
  {
  }

  /** The callback commutes with the insertion. */
  lemma CallbackFirst(d: Daemon, t: TimerId, next: word, now: word, command: word, due: nat)
    ensures var (m, x) := InsertTimer(d, t, next, now, command, due);
      InsertTimer(Callback(d, t), t, next, now, command, due) == (Callback(m, t), x)
  {
    hide Insert;
  }

  lemma CallbackPost(d: Daemon, t: TimerId, m: Message)
    ensures Post(Callback(d, t), m) == Callback(Post(d, m), t)
  {
  }

  /** Popping and reloading as prvProcessExpiredTimer does; the callback commutes with them. */
  lemma ExpiredIs(d: Daemon, next: word, now: word)
    requires d.current != []
    ensures var t := d.current[0].timer;
      var e := d.current[0].due;
      var p := Popped(d);
      ProcessExpired(d, next, now) ==
        if t in d.auto then
          var (m, due) := InsertTimer(p, t, Add(next, Period(p, t)), now, next, e + Period(p, t));
          if due then Post(m, Message(Restart, t, next, e)) else m
        else p.(active := p.active - {t})
  {
    hide InsertTimer, Post, Popped, Period, Callback, Add, Low;
    var t := d.current[0].timer;
    var e := d.current[0].due;
    var d1 := d.(current := d.current[1..]);
    var p := Period(d, t);
    PoppedIs(d);
    if t in d.auto {
      CallbackFirst(d1, t, Add(next, p), now, next, e + p);
      CallbackPost(InsertTimer(d1, t, Add(next, p), now, next, e + p).0, t, Message(Restart, t, next, e));
    } else {
      CallbackActive(d1, t, d1.active - {t});
    }
  }

  lemma PoppedIs(d: Daemon)
    requires d.current != []
    ensures var t := d.current[0].timer;
      var d1 := d.(current := d.current[1..]);
      && Popped(d) == Callback(d1, t) && Popped(d).auto == d.auto && Popped(d).active == d.active
      && Period(Popped(d), t) == Period(d1, t) == Period(d, t)
  {
  }

  lemma CallbackActive(d: Daemon, t: TimerId, active: set<TimerId>)
    ensures Callback(d.(active := active), t) == Callback(d, t).(active := active)
  {
  }

  lemma ActiveOnly(p: Daemon, r: Daemon, t: TimerId)
    requires r == p.(active := r.active)
    ensures Elsewhere(p, r, t) && (ListInv(p) ==> ListInv(r)) && (t in p.base && Good(p, t) ==> Good(r, t))
    ensures Off(p, t) ==> Off(r, t)
  {
    ScheduleFrame(p, r, t);
  }

  lemma ExpiredLists(d: Daemon, next: word, now: word)
    requires ListInv(d) && d.current != []
    ensures var r := ProcessExpired(d, next, now);
      ListInv(r) && Elsewhere(d, r, d.current[0].timer) && r.base == d.base && r.now == d.now && r.last == d.last
  {
    hide ListInv, ProcessExpired, Popped, InsertTimer, Elsewhere, Off, NoRestart, OneRestart;
    var t := d.current[0].timer;
    var e := d.current[0].due;
    var p := Popped(d);
    PoppedKeeps(d);
    ExpiredIs(d, next, now);
    InsertKeepsLists(p, t, Add(next, Period(p, t)), now, next, e + Period(p, t));
    var m := InsertTimer(p, t, Add(next, Period(p, t)), now, next, e + Period(p, t)).0;
    PostKeeps(m, Message(Restart, t, next, e));
    ActiveOnly(p, p.(active := p.active - {t}), t);
    var r := ProcessExpired(d, next, now);
    if t in d.auto {
      ElsewhereSelf(m, t);
      ElsewhereTrans(d, p, m, t);
      ElsewhereTrans(d, m, r, t);
    } else {
      ElsewhereTrans(d, p, r, t);
    }
  }

  lemma ExpiredHead(d: Daemon)
    requires ListInv(d) && d.current != [] && d.last == d.now
    requires d.current[0].timer in d.base && Good(d, d.current[0].timer)
    requires d.current[0].value <= Low(d.now)
    ensures var r := ProcessExpired(d, d.current[0].value, Low(d.now));
      !r.stuck ==> d.current[0].timer in r.base && Good(r, d.current[0].timer)
  {
    hide *;
    var t := d.current[0].timer;
    var e := Reached(d, t) + Period(d, t);
    HeadDue(d, 0);
    ItemIs(t, e);
    DueBy(e, d.now);
    PoppedServed(d);
    ExpiredIs(d, d.current[0].value, Low(d.now));
    var p := Popped(d);
    PoppedFrame(d);
    ServedBy(p, t, e);
    if t in d.auto {
      Reinserted(p, t, e);
    } else {
      LeftDone(p, t, e);
      ActiveOnly(p, p.(active := p.active - {t}), t);
    }
  }

  lemma DueBy(e: nat, now: nat)
    requires e / WRAP == now / WRAP && Low(e) <= Low(now)
    ensures e <= now
  {
  }

  lemma ExpiredQueue(d: Daemon, next: word, now: word)
    requires d.current != []
    ensures var r := ProcessExpired(d, next, now);
      r.queue == d.queue || exists m: Message :: r.queue == d.queue + [m]
  {
    hide Insert;
  }

  lemma ExpiredKeeps(d: Daemon)
    requires ListInv(d) && AllGood(d, {}) && d.current != [] && d.last == d.now && d.current[0].value <= Low(d.now)
    ensures var r := ProcessExpired(d, d.current[0].value, Low(d.now)); !r.stuck ==> AllGood(r, {})
  {
    var t := d.current[0].timer;
    var next := d.current[0].value;
    var r := ProcessExpired(d, next, Low(d.now));
    ExpiredLists(d, next, Low(d.now));
    ExpiredQueue(d, next, Low(d.now));
    HeadNotExcept(d, {});
    assert OnSchedule(d, t);
    ListedMeans(d, t);
    if t in d.base { ExpiredHead(d); } else { RestartStays(d, r, t); }
    hide ListInv, ProcessExpired, Good, AllGood, Off, NoRestart;
    if !r.stuck { AllFrame(d, r, {}, t); }
  }

  /** prvProcessTimerOrBlockTask keeps every followed timer on schedule. */
  lemma ProcessTimerKeeps(d: Daemon)
    requires ListInv(d) && AllGood(d, {}) && Fresh(d) && !d.stuck
    ensures var r := ProcessTimer(d);
      ListInv(r) && (!r.stuck ==> AllGood(r, {})) && r.last == r.now == d.now && r.base == d.base
  {
    SampleKeeps(d, {});
    var m := Sample(d);
    var next := if d.current == [] then 0 else d.current[0].value;
    hide Sample, ListInv, AllGood, ProcessExpired;
    if Low(d.now) >= Low(d.last) && d.current != [] && next <= Low(d.now) {
      ExpiredLists(m, next, Low(d.now));
      ExpiredKeeps(m);
    }
  }

  /** A timer on neither list stays off them, and does not run, while the lists are switched. */
  lemma {:induction false} SwitchLoopSkips(d: Daemon, t: TimerId)
    requires ListInv(d) && Off(d, t)
    ensures var r := SwitchLoop(d);
      Off(r, t) && Runs(r, t) == Runs(d, t) && (NoRestart(r.queue, t) <==> NoRestart(d.queue, t))
    decreases Work(d.current)
  {
    if d.current != [] {
      assert d.current[0].timer != t;
      SwitchProgress(d);
      SwitchOneLists(d);
      var m := SwitchOne(d);
      assert SameFor(d, m, t);
      ScheduleFrame(d, m, t);
      hide ListInv, SwitchOne, Off, NoRestart, Elsewhere, OnSchedule;
      SwitchLoopSkips(m, t);
    }
  }

  lemma SampleSkips(d: Daemon, t: TimerId)
    requires ListInv(d) && Off(d, t)
    ensures var r := Sample(d);
      Off(r, t) && Runs(r, t) == Runs(d, t) && (NoRestart(r.queue, t) <==> NoRestart(d.queue, t))
  {
    SwitchLoopSkips(d, t);
    hide ListInv;
    hide Unlisted;
    hide SwitchLoop;
  }

  /** The message is taken off the queue and its timer off the lists. */
  function Taken(d: Daemon): Daemon
    requires d.queue != []
  {
    var t := d.queue[0].timer;
    d.(queue := d.queue[1..], current := Drop(d.current, t), overflow := Drop(d.overflow, t))
  }

  lemma TakenKeeps(d: Daemon)
    requires ListInv(d) && d.queue != []
    ensures var r := Taken(d);
      var t := d.queue[0].timer;
      ListInv(r) && Elsewhere(d, r, t) && Off(r, t)
  {
    DropKeeps(d.current, d.queue[0].timer);
    DropKeeps(d.overflow, d.queue[0].timer);
    assert d.queue == [d.queue[0]] + d.queue[1..];
    hide Drop;
    hide Sorted;
  }

  lemma TakenGood(d: Daemon)
    requires ListInv(d) && d.queue != [] && AllGood(d, {})
    ensures AllGood(Taken(d), {d.queue[0].timer})
  {
    var t := d.queue[0].timer;
    var r := Taken(d);
    TakenKeeps(d);
    forall u | u !in {t} ensures OnSchedule(r, u) {
      assert OnSchedule(d, u) && SameFor(d, r, u);
      ScheduleFrame(d, r, u);
    }
    hide Taken, Off, OnSchedule;
  }

  /** A restart of a followed timer is the one that counts from the time it has reached. */
  lemma TakenRestart(d: Daemon)
    requires d.queue != [] && d.queue[0].kind == Restart && d.queue[0].timer in d.base && Good(d, d.queue[0].timer)
    ensures var t := d.queue[0].timer;
      d.queue[0] == RestartFor(t, Reached(d, t)) && t in d.auto && Reached(d, t) <= d.now && NoRestart(d.queue[1..], t)
  {
    var t := d.queue[0].timer;
    assert IsRestart(d.queue[0], t);
    var m := RestartFor(t, Reached(d, t));
    var i :| 0 <= i < |d.queue| && d.queue[i] == m &&
      forall j :: 0 <= j < |d.queue| && j != i ==> !IsRestart(d.queue[j], t);
    assert i == 0;
    forall j | 0 <= j < |d.queue[1..]| ensures !IsRestart(d.queue[1..][j], t) {
      assert d.queue[1..][j] == d.queue[j + 1];
    }
  }

  /** The timer as a start at unbounded time v leaves it before it is inserted. */
  ghost predicate Ready(q: Daemon, t: TimerId, v: nat) {
    Served(q, t, v) && q.last == q.now && (t in q.auto || Runs(q, t) == 0)
  }

  lemma ReadyMeans(q: Daemon, t: TimerId, v: nat)
    requires Ready(q, t, v)
    ensures Served(q, t, v) && q.last == q.now && v <= q.now && t in q.base && (t in q.auto || Runs(q, t) == 0)
  {
  }

  /** A command that starts a timer at v is handled at now: on schedule, whichever way it goes. */
  lemma StartedGood(q: Daemon, t: TimerId, v: nat)
    requires Ready(q, t, v) && q.now < v + WRAP
    ensures var p := Period(q, t);
      var (d1, expired) := InsertTimer(q, t, Add(Low(v), p), Low(q.now), Low(v), v + p);
      var r :=
        if !expired then d1
        else if t in q.auto then Post(Callback(d1, t), Message(Restart, t, Add(Low(v), p), v + p))
        else Callback(d1, t);
      !r.stuck ==> t in r.base && Good(r, t)
  {
    hide *;
    ReadyMeans(q, t, v);
    PlaceExact(v, Period(q, t), q.now);
    InsertIs(q, t, v);
    ReloadEpoch(v, Period(q, t));
    ItemIs(t, v + Period(q, t));
    match Place(Low(v + Period(q, t)), Low(q.now), Low(v), Period(q, t))
    case ToCurrent => LeftCurrent(q, t, v);
    case ToOverflow => LeftOverflow(q, t, v);
    case ProcessNow => StartDue(q, t, v);
  }

  /** The callback runs at once, and an auto-reload timer posts its own restart. */
  lemma StartDue(q: Daemon, t: TimerId, v: nat)
    requires Served(q, t, v) && v + Period(q, t) <= q.now && (t in q.auto || Runs(q, t) == 0)
    ensures var c := Callback(q, t);
      var r := if t in q.auto then Post(c, RestartFor(t, v + Period(q, t))) else c;
      !r.stuck ==> t in r.base && Good(r, t)
  {
    var e := v + Period(q, t);
    var c := Callback(q, t);
    CallbackKeeps(q, t);
    assert Served(c, t, e) by { hide ListInv; hide Reached; }
    if t in q.auto { LeftPosted(c, t, e); } else { LeftDone(c, t, e); }
    hide *;
  }

  /** What Follow changes. */
  lemma FollowFrame(d: Daemon, m: Message, start: nat)
    ensures var r := Follow(d, m, start);
      && r == d.(base := r.base, runs := r.runs)
      && (m.timer in r.base <==> NoRestart(d.queue, m.timer))
      && Elsewhere(d, r, m.timer) && (ListInv(d) ==> ListInv(r)) && (Off(d, m.timer) ==> Off(r, m.timer))
  {
    hide NoRestart, Sorted, Distinct, Unlisted;
  }

  /** A schedule that begins, begins with the command. */
  lemma FollowReady(d: Daemon, m: Message, start: nat)
    requires ListInv(d) && Off(d, m.timer) && NoRestart(d.queue, m.timer) && d.last == d.now && start <= d.now
    requires m.kind == Restart && m.timer in d.base ==> m.timer in d.auto && Reached(d, m.timer) == start
    ensures Ready(Follow(d, m, start), m.timer, start)
    ensures Period(Follow(d, m, start), m.timer) == Period(d, m.timer)
  {
    FollowFrame(d, m, start);
    hide ListInv, Off, NoRestart;
  }

  // ----- what a command leaves of the lists

  lemma ExecuteLists(p: Daemon, m: Message)
    requires ListInv(p) && Off(p, m.timer)
    ensures var r := Execute(p, m);
      ListInv(r) && Elsewhere(p, r, m.timer) && r.now == p.now && r.last == p.last && r.auto == p.auto
  {
    match m.kind
    case Start => StartLists(p, m); hide ExecuteStart;
    case Restart => StartLists(p, m); hide ExecuteStart;
    case Stop => StoppedLists(p, m.timer);
    case Delete => StoppedLists(p, m.timer);
    case ChangePeriod => PeriodLists(p, m); hide ExecutePeriod;
  }

  lemma StoppedLists(p: Daemon, t: TimerId)
    requires ListInv(p)
    ensures ListInv(Stopped(p, t)) && Elsewhere(p, Stopped(p, t), t)
  {
    hide Sorted, Distinct;
  }

  lemma StartLists(p: Daemon, m: Message)
    requires ListInv(p) && Off(p, m.timer)
    ensures var r := ExecuteStart(p, m);
      ListInv(r) && Elsewhere(p, r, m.timer) && r.now == p.now && r.last == p.last && r.auto == p.auto
  {
    hide ListInv, InsertTimer, Follow, Off, NoRestart, OneRestart, Elsewhere, Post;
    var t := m.timer;
    var a := p.(active := p.active + {t});
    ActiveOnly(p, a, t);
    FollowFrame(a, m, m.sent);
    var q := Follow(a, m, m.sent);
    var next := Add(m.value, Period(p, t));
    InsertKeepsLists(q, t, next, Low(p.now), m.value, m.sent + Period(p, t));
    var (d1, expired) := InsertTimer(q, t, next, Low(p.now), m.value, m.sent + Period(p, t));
    CallbackKeeps(d1, t);
    var c := Callback(d1, t);
    var msg := Message(Restart, t, next, m.sent + Period(p, t));
    PostKeeps(c, msg);
    PostFrame(c, msg);
    ElsewhereTrans(p, a, q, t);
    ElsewhereTrans(p, q, d1, t);
    ElsewhereTrans(p, d1, c, t);
    ElsewhereTrans(p, c, Post(c, msg), t);
  }

  lemma PostFrame(d: Daemon, m: Message)
    ensures var r := Post(d, m); r == d.(queue := r.queue, stuck := r.stuck)
  {
  }

  lemma PeriodLists(p: Daemon, m: Message)
    requires ListInv(p) && Off(p, m.timer)
    ensures var r := ExecutePeriod(p, m);
      ListInv(r) && Elsewhere(p, r, m.timer) && r.now == p.now && r.last == p.last && r.auto == p.auto
  {
    hide ListInv, InsertTimer, Follow, Off, NoRestart, Elsewhere;
    var t := m.timer;
    if m.value == 0 {
      PeriodOnly(p, p.(stuck := true), t);
    } else {
      var a := p.(active := p.active + {t}, period := p.period[t := m.value]);
      PeriodOnly(p, a, t);
      FollowFrame(a, m, p.now);
      var q := Follow(a, m, p.now);
      var next := Add(Low(p.now), m.value);
      InsertKeepsLists(q, t, next, Low(p.now), Low(p.now), p.now + m.value);
      ElsewhereTrans(p, a, q, t);
      ElsewhereTrans(p, q, ExecutePeriod(p, m), t);
    }
  }

  lemma PeriodOnly(p: Daemon, q: Daemon, t: TimerId)
    requires q == p.(active := q.active, period := q.period, stuck := q.stuck)
    requires forall u :: u != t ==> Period(q, u) == Period(p, u)
    ensures Elsewhere(p, q, t) && (ListInv(p) ==> ListInv(q)) && (Off(p, t) ==> Off(q, t))
  {
    hide Sorted;
    hide Distinct;
  }

  // ----- a command puts its timer on schedule

  predicate Starts(m: Message) {
    m.kind == Start || m.kind == Restart
  }

  /** The command being handled, if it starts a timer, is less than one turn old. */
  predicate Prompt(d: Daemon) {
    d.queue != [] && Starts(d.queue[0]) ==> d.now < d.queue[0].sent + WRAP
  }

  /** A command as the clock stamps it, and as the daemon stamps its own restarts. */
  predicate Stamped(m: Message, now: nat) {
    Starts(m) ==> m.value == Low(m.sent) && m.sent <= now
  }

  /** t is off the lists and m is about to be executed: if m restarts a followed timer, it counts
      from the time the timer has reached. */
  ghost predicate Taking(p: Daemon, m: Message) {
    && ListInv(p) && Off(p, m.timer) && p.last == p.now && Stamped(m, p.now)
    && (m.kind == Restart && m.timer in p.base ==>
      m.timer in p.auto && Reached(p, m.timer) == m.sent && NoRestart(p.queue, m.timer))
  }

  /** What makes a start or period command decisive: no restart of its timer is behind it. */
  lemma StartKeeps(p: Daemon, m: Message)
    requires Taking(p, m) && Starts(m) && p.now < m.sent + WRAP
    ensures var r := ExecuteStart(p, m);
      !r.stuck ==> OnSchedule(r, m.timer) && (m.timer in r.base <==> NoRestart(p.queue, m.timer))
  {
    hide ListInv, Off, NoRestart, Good, ExecuteStart;
    if NoRestart(p.queue, m.timer) { StartDecides(p, m); } else { StartOverruled(p, m); }
  }

  lemma StartDecides(p: Daemon, m: Message)
    requires Taking(p, m) && Starts(m) && p.now < m.sent + WRAP && NoRestart(p.queue, m.timer)
    ensures var r := ExecuteStart(p, m); !r.stuck ==> m.timer in r.base && Good(r, m.timer)
  {
    hide ListInv, Off, NoRestart, Good, Follow, InsertTimer, Served, Post, Callback;
    var t := m.timer;
    var a := p.(active := p.active + {t});
    ActiveOnly(p, a, t);
    if t in p.base { ReachedSame(p, a, t); }
    hide Reached;
    FollowFrame(a, m, m.sent);
    FollowReady(a, m, m.sent);
    StartedGood(Follow(a, m, m.sent), t, m.sent);
  }

  lemma StartOverruled(p: Daemon, m: Message)
    requires Taking(p, m) && !NoRestart(p.queue, m.timer)
    ensures var r := ExecuteStart(p, m); m.timer !in r.base && OnSchedule(r, m.timer)
  {
    hide ListInv, Off, NoRestart, Good, Insert;
    RestartStays(p, ExecuteStart(p, m), m.timer);
  }

  lemma PeriodKeeps(p: Daemon, m: Message)
    requires Taking(p, m) && m.kind == ChangePeriod
    ensures var r := ExecutePeriod(p, m);
      !r.stuck ==> OnSchedule(r, m.timer) && (m.timer in r.base <==> NoRestart(p.queue, m.timer))
  {
    hide ListInv, Off, NoRestart, Good, ExecutePeriod;
    if m.value == 0 { PeriodZero(p, m); }
    else if NoRestart(p.queue, m.timer) { PeriodDecides(p, m); }
    else { PeriodOverruled(p, m); }
  }

  /** The assertion that a period is not zero. */
  lemma PeriodZero(p: Daemon, m: Message)
    requires m.value == 0
    ensures ExecutePeriod(p, m) == p.(stuck := true)
  {
  }

  lemma PeriodDecides(p: Daemon, m: Message)
    requires Taking(p, m) && m.kind == ChangePeriod && NoRestart(p.queue, m.timer) && m.value > 0
    ensures var r := ExecutePeriod(p, m); !r.stuck ==> m.timer in r.base && Good(r, m.timer)
  {
    hide ListInv, Off, NoRestart, Good, Follow, InsertTimer, Served;
    var t := m.timer;
    var a := p.(active := p.active + {t}, period := p.period[t := m.value]);
    PeriodOnly(p, a, t);
    FollowFrame(a, m, p.now);
    FollowReady(a, m, p.now);
    PeriodGood(Follow(a, m, p.now), t, m.value);
  }

  lemma PeriodOverruled(p: Daemon, m: Message)
    requires Taking(p, m) && !NoRestart(p.queue, m.timer) && m.value > 0
    ensures var r := ExecutePeriod(p, m); m.timer !in r.base && OnSchedule(r, m.timer)
  {
    hide ListInv, Off, NoRestart, Good, Insert;
    RestartStays(p, ExecutePeriod(p, m), m.timer);
  }

  lemma PeriodGood(q: Daemon, t: TimerId, v: word)
    requires Ready(q, t, q.now) && v == Period(q, t)
    ensures var r := InsertTimer(q, t, Add(Low(q.now), v), Low(q.now), Low(q.now), q.now + v).0;
      !r.stuck ==> t in r.base && Good(r, t)
  {
    hide *;
    ReadyMeans(q, t, q.now);
    PlaceExact(q.now, v, q.now);
    InsertIs(q, t, q.now);
    match Place(Low(q.now + v), Low(q.now), Low(q.now), v)
    case ProcessNow =>
    case ToCurrent => LeftCurrent(q, t, q.now);
    case ToOverflow => LeftOverflow(q, t, q.now);
  }

  lemma ExecuteKeeps(p: Daemon, m: Message)
    requires Taking(p, m) && (Starts(m) ==> p.now < m.sent + WRAP)
    ensures !Execute(p, m).stuck ==> OnSchedule(Execute(p, m), m.timer)
  {
    match m.kind
    case Start => StartKeeps(p, m); hide ExecuteStart;
    case Restart => StartKeeps(p, m); hide ExecuteStart;
    case ChangePeriod => PeriodKeeps(p, m); hide ExecutePeriod;
    case Stop => hide ListInv;
    case Delete => hide ListInv;
  }

  lemma TakenFrame(d: Daemon)
    requires d.queue != []
    ensures var k := Taken(d);
      && k.base == d.base && k.now == d.now && k.last == d.last && k.stuck == d.stuck && (Fresh(d) ==> Fresh(k))
      && k.queue == d.queue[1..] && k.auto == d.auto && k.period == d.period && k.runs == d.runs
      && ProcessCommand(d) == Execute(Sample(k), d.queue[0])
  {
  }

  lemma ReachedSame(d: Daemon, p: Daemon, t: TimerId)
    requires t in d.base && p.base == d.base && p.period == d.period && Runs(p, t) == Runs(d, t)
    ensures Reached(p, t) == Reached(d, t)
  {
  }

  /** The state in which a command is executed. */
  lemma TakingNow(d: Daemon)
    requires ListInv(d) && AllGood(d, {}) && Fresh(d) && !d.stuck && d.queue != [] && Stamped(d.queue[0], d.now)
    ensures var p := Sample(Taken(d));
      var m := d.queue[0];
      && Taking(p, m) && (!p.stuck ==> AllGood(p, {m.timer})) && p.now == d.now
      && (NoRestart(p.queue, m.timer) <==> NoRestart(d.queue[1..], m.timer))
  {
    var m := d.queue[0];
    var t := m.timer;
    assert OnSchedule(d, t);
    TakenKeeps(d);
    TakenGood(d);
    TakenFrame(d);
    var k := Taken(d);
    hide ListInv, AllGood, Off, NoRestart, Taken, Sample, Good;
    SampleKeeps(k, {t});
    SampleSkips(k, t);
    var p := Sample(k);
    if m.kind == Restart && t in d.base {
      TakenRestart(d);
      ItemIs(t, Reached(d, t));
      ReachedSame(d, p, t);
      hide Reached;
    }
  }

  lemma EndFrame(p: Daemon, r: Daemon, t: TimerId)
    requires AllGood(p, {t}) && Elsewhere(p, r, t) && OnSchedule(r, t)
    ensures AllGood(r, {})
  {
    forall u ensures OnSchedule(r, u) {
      if u != t {
        assert OnSchedule(p, u);
        ScheduleFrame(p, r, u);
      }
    }
    hide OnSchedule, SameFor, Off;
  }

  lemma ExecuteStuck(p: Daemon, m: Message)
    ensures p.stuck ==> Execute(p, m).stuck
  {
    hide Insert, NoRestart;
  }

  /** Whatever the command, every followed timer stays on schedule. */
  lemma CommandKeeps(d: Daemon)
    requires ListInv(d) && AllGood(d, {}) && Fresh(d) && !d.stuck
    requires d.queue != [] && Prompt(d) && Stamped(d.queue[0], d.now)
    ensures var r := ProcessCommand(d);
      ListInv(r) && (!r.stuck ==> AllGood(r, {})) && r.last == r.now == d.now
  {
    var m := d.queue[0];
    TakingNow(d);
    TakenFrame(d);
    var p := Sample(Taken(d));
    ExecuteLists(p, m);
    ExecuteStuck(p, m);
    hide ListInv, AllGood, Off, NoRestart, Taken, Sample, Execute, ProcessCommand;
    ExecuteKeeps(p, m);
    if !Execute(p, m).stuck { EndFrame(p, Execute(p, m), m.timer); }
  }
}
