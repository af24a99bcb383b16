/** What becomes of a start, a reset or a period change when restarts that the daemon has posted for
    the same timer are behind it in the queue. Each of them in turn lists the timer anew; one that
    is late runs the callback and goes to the back of the queue, a period further on. So the one
    that is late by the most periods, and of those the last in the queue, has the last word. */
module TimerSettles {
  import opened Words
  import opened Rings
  import opened Timers
  import opened TimerInv
  import opened TimerSteps
  import opened TimerDates
  import opened TimerRuns

  // ----- one schedule

  /** By how many periods a start at e is late. */
  function Late(e: nat, p: word, now: nat): nat
    requires p > 0 && e <= now
  {
    (now - e) / p
  }

  /** The first time after now on the schedule that starts at e. */
  function NextDue(e: nat, p: word, now: nat): nat
    requires p > 0 && e <= now
  {
    now + p - (now - e) % p
  }

  lemma ModSame(a: int, b: int, p: nat, x: int)
    requires p > 0 && a == b + p * x
    ensures a % p == b % p
  {
    var y := x + b / p - a / p;
    assert a == p * (a / p) + a % p && b == p * (b / p) + b % p;
    assert a % p - b % p == p * y by { assert p * y == p * x + p * (b / p) - p * (a / p); }
    MulBound(p, y);
    MulBound(p, -y);
    assert p * (-y) == -(p * y);
  }

  /** One period further on is one period less late, on the same schedule. */
  lemma OnePeriodOn(e: nat, p: word, now: nat)
    requires p > 0 && e + p <= now
    ensures Late(e + p, p, now) == Late(e, p, now) - 1 && NextDue(e + p, p, now) == NextDue(e, p, now)
  {
    ModSame(now - (e + p), now - e, p, -1);
    var q := (now - e) / p;
    assert now - e == p * q + (now - e) % p;
    assert now - (e + p) == p * (q - 1) + (now - e) % p by { assert p * (q - 1) == p * q - p; }
    QuotientIs(now - (e + p), p, q - 1, (now - e) % p);
  }

  lemma QuotientIs(n: nat, p: nat, q: int, r: nat)
    requires p > 0 && r < p && n == p * q + r
    ensures n / p == q
  {
    var d := n / p - q;
    assert n == p * (n / p) + n % p;
    assert p * d == r - n % p by { assert p * d == p * (n / p) - p * q; }
    MulBound(p, d);
    MulBound(p, -d);
    assert p * (-d) == -(p * d);
  }

  lemma NotLate(e: nat, p: word, now: nat)
    requires p > 0 && e <= now < e + p
    ensures Late(e, p, now) == 0 && NextDue(e, p, now) == e + p
  {
    QuotientIs(now - e, p, 0, now - e);
  }

  /** Two starts lead to the same next expiry exactly when they are on the same schedule. */
  lemma SameSchedule(e: nat, f: nat, p: word, now: nat)
    requires p > 0 && e <= now && f <= now
    ensures NextDue(e, p, now) == NextDue(f, p, now) <==> e % p == f % p
  {
    if e % p == f % p {
      assert now - f == now - e + p * (e / p - f / p) by {
        assert p * (e / p - f / p) == p * (e / p) - p * (f / p);
      }
      ModSame(now - f, now - e, p, e / p - f / p);
    }
    if (now - e) % p == (now - f) % p {
      var x := (now - f) / p - (now - e) / p;
      assert e == f + p * x by { assert p * x == p * ((now - f) / p) - p * ((now - e) / p); }
      ModSame(e, f, p, x);
    }
  }

  // ----- who has the last word

  ghost predicate Past(ts: seq<nat>, now: nat) {
    forall i :: 0 <= i < |ts| ==> ts[i] <= now
  }

  /** The start that is late by the most periods; of several, the last. */
  ghost function Winner(ts: seq<nat>, p: word, now: nat): (w: nat)
    requires p > 0 && ts != [] && Past(ts, now)
    ensures w in ts && w <= now
  {
    if |ts| == 1 then ts[0]
    else
      var w := Winner(ts[1..], p, now);
      if Late(ts[0], p, now) > Late(w, p, now) then ts[0] else w
  }

  lemma {:induction false} WinnerBack(ts: seq<nat>, x: nat, p: word, now: nat)
    requires p > 0 && ts != [] && Past(ts, now) && x <= now
    ensures Past(ts + [x], now)
    ensures Winner(ts + [x], p, now) ==
      if Late(x, p, now) >= Late(Winner(ts, p, now), p, now) then x else Winner(ts, p, now)
    decreases |ts|
  {
    hide Late;
    var r := ts + [x];
    assert r[1..] == ts[1..] + [x] && r[0] == ts[0];
    if |ts| == 1 {
      assert r[1..] == [x];
      assert Winner(r[1..], p, now) == x;
    } else {
      WinnerBack(ts[1..], x, p, now);
    }
  }

  lemma WinnerFront(e: nat, ts: seq<nat>, p: word, now: nat)
    requires p > 0 && ts != [] && Past(ts, now) && e <= now
    ensures Past([e] + ts, now)
    ensures Winner([e] + ts, p, now) ==
      if Late(e, p, now) > Late(Winner(ts, p, now), p, now) then e else Winner(ts, p, now)
  {
    assert ([e] + ts)[1..] == ts;
    hide Late;
  }

  /** Going to the back of the queue a period further on changes nothing about the outcome. */
  lemma Rotate(e: nat, ts: seq<nat>, p: word, now: nat)
    requires p > 0 && e + p <= now && Past(ts, now)
    ensures Past([e] + ts, now) && Past(ts + [e + p], now)
    ensures NextDue(Winner([e] + ts, p, now), p, now) == NextDue(Winner(ts + [e + p], p, now), p, now)
  {
    OnePeriodOn(e, p, now);
    hide *;
    if ts == [] {
      assert [e] + ts == [e] && ts + [e + p] == [e + p];
      RotateAlone(e, e + p, p, now);
    } else {
      WinnerFront(e, ts, p, now);
      WinnerBack(ts, e + p, p, now);
    }
  }

  lemma RotateAlone(e: nat, f: nat, p: word, now: nat)
    requires p > 0 && e <= now && f <= now && NextDue(e, p, now) == NextDue(f, p, now)
    ensures Past([e], now) && Past([f], now)
    ensures NextDue(Winner([e], p, now), p, now) == NextDue(Winner([f], p, now), p, now)
  {
    hide NextDue, Late;
  }

  /** A start that is not late is overruled by whatever is behind it. */
  lemma Overruled(e: nat, ts: seq<nat>, p: word, now: nat)
    requires p > 0 && e <= now < e + p && Past(ts, now) && ts != []
    ensures Past([e] + ts, now) && Winner([e] + ts, p, now) == Winner(ts, p, now)
  {
    NotLate(e, p, now);
    WinnerFront(e, ts, p, now);
  }

  // ----- the restarts in the queue

  /** The times the restarts of t count from, first in the queue first. */
  ghost function Tokens(q: seq<Message>, t: TimerId): seq<nat> {
    if q == [] then []
    else if IsRestart(q[0], t) then [q[0].sent] + Tokens(q[1..], t)
    else Tokens(q[1..], t)
  }

  lemma {:induction false} TokensPost(q: seq<Message>, m: Message, t: TimerId)
    ensures Tokens(q + [m], t) == Tokens(q, t) + if IsRestart(m, t) then [m.sent] else []
    decreases |q|
  {
    if q == [] {
      assert (q + [m])[1..] == [];
    } else {
      assert (q + [m])[0] == q[0] && (q + [m])[1..] == q[1..] + [m];
      TokensPost(q[1..], m, t);
      hide IsRestart;
      var x := if IsRestart(m, t) then [m.sent] else [];
      assert [q[0].sent] + (Tokens(q[1..], t) + x) == [q[0].sent] + Tokens(q[1..], t) + x;
    }
  }

  lemma {:induction false} TokensPast(q: seq<Message>, t: TimerId, now: nat)
    requires DatedQueue(q, now)
    ensures Past(Tokens(q, t), now)
    decreases |q|
  {
    if q != [] {
      assert Stamped(q[0], now);
      forall i | 0 <= i < |q[1..]| ensures Stamped(q[1..][i], now) { assert q[1..][i] == q[i + 1]; }
      TokensPast(q[1..], t, now);
    }
  }

  lemma {:induction false} NoTokens(q: seq<Message>, t: TimerId)
    ensures Tokens(q, t) == [] <==> NoRestart(q, t)
    decreases |q|
  {
    if q != [] {
      NoTokens(q[1..], t);
      forall i | 0 <= i < |q[1..]| ensures q[1..][i] == q[i + 1] { }
      assert NoRestart(q, t) <==> !IsRestart(q[0], t) && NoRestart(q[1..], t) by { NoRestartStep(q, t); }
    }
  }

  lemma NoRestartStep(q: seq<Message>, t: TimerId)
    requires q != []
    ensures NoRestart(q, t) <==> !IsRestart(q[0], t) && NoRestart(q[1..], t)
  {
    forall i | 0 <= i < |q[1..]| ensures q[1..][i] == q[i + 1] { }
    assert q == [q[0]] + q[1..];
  }

  // ----- draining the queue

  /** While the clock stands still, t is bound to be listed for x in the end: it is listed for x and
      no restart of it is under way, or the restart that has the last word leads to x. */
  ghost predicate Bound(d: Daemon, t: TimerId, x: nat) {
    && t in d.auto && NoUser(d.queue, t)
    && if Tokens(d.queue, t) == [] then ListedFor(d, t, x) && x > d.now
       else
         Past(Tokens(d.queue, t), d.now) &&
         x == NextDue(Winner(Tokens(d.queue, t), Period(d, t), d.now), Period(d, t), d.now)
  }

  /** A command about another timer. */
  lemma OtherBound(d: Daemon, r: Daemon, t: TimerId, x: nat)
    requires Bound(d, t, x) && SameFor(d, r, t) && NoUser(r.queue, t) && Tokens(r.queue, t) == Tokens(d.queue, t)
    ensures Bound(r, t, x)
  {
    hide NoUser, Tokens, Winner, NextDue, Past;
  }

  /** What a start command does to its auto-reload timer: one that is late goes to the back of the
      queue a period further on, any other lists the timer. */
  ghost predicate Moves(k: Daemon, r: Daemon, m: Message) {
    && Period(r, m.timer) == Period(k, m.timer) && r.auto == k.auto && r.now == k.now && r.last == k.last
    && if m.sent + Period(k, m.timer) <= k.now then r.stuck || r.queue == k.queue + [NextRestart(k, m)]
       else r.queue == k.queue && ListedFor(r, m.timer, m.sent + Period(k, m.timer))
  }

  lemma StartMoves(k: Daemon, m: Message)
    requires Taking(k, m) && Starts(m) && k.now < m.sent + WRAP && m.timer in k.auto
    ensures Moves(k, ExecuteStart(k, m), m)
  {
    var t := m.timer;
    var a := k.(active := k.active + {t});
    TakingMeans(k, m);
    ActiveOnly(k, a, t);
    FollowFrame(a, m, m.sent);
    hide *;
    var q := Follow(a, m, m.sent);
    SamePeriod(k, q, t);
    PlacedWhere(q, t, m.sent);
    if m.sent + Period(k, t) <= k.now { LateMoves(k, q, m); } else { EarlyMoves(k, q, m); }
  }

  lemma TakingMeans(k: Daemon, m: Message)
    requires Taking(k, m) && Starts(m)
    ensures ListInv(k) && Off(k, m.timer) && k.last == k.now && m.value == Low(m.sent) && m.sent <= k.now
  {
    hide ListInv, Off, Low, Reached, NoRestart;
  }

  lemma SamePeriod(k: Daemon, q: Daemon, t: TimerId)
    requires q.period == k.period
    ensures Period(q, t) == Period(k, t)
  {
  }

  /** prvInsertTimerInActiveList for a command less than a turn old. */
  lemma PlacedWhere(q: Daemon, t: TimerId, c: nat)
    requires ListInv(q) && Off(q, t) && q.last == q.now && c <= q.now < c + WRAP
    ensures var p := Period(q, t);
      var (r, x) := InsertTimer(q, t, Add(Low(c), p), Low(q.now), Low(c), c + p);
      && r == q.(current := r.current, overflow := r.overflow)
      && (x <==> c + p <= q.now) && (!x ==> ListedFor(r, t, c + p))
  {
    hide ListInv, Off, Insert, Place, Elsewhere;
    var n := ItemFor(t, c + Period(q, t));
    InsertIs(q, t, c);
    PlaceExact(c, Period(q, t), q.now);
    ToCurrentKeeps(q, n);
    ToOverflowKeeps(q, n);
  }

  lemma LateMoves(k: Daemon, q: Daemon, m: Message)
    requires q == Follow(k.(active := k.active + {m.timer}), m, m.sent) && m.timer in k.auto
    requires q == k.(active := k.active + {m.timer}, base := q.base, runs := q.runs)
    requires Period(q, m.timer) == Period(k, m.timer) && m.value == Low(m.sent)
    requires var p := Period(q, m.timer);
      InsertTimer(q, m.timer, Add(Low(m.sent), p), Low(q.now), Low(m.sent), m.sent + p).1
    requires m.sent + Period(k, m.timer) <= k.now
    ensures Moves(k, ExecuteStart(k, m), m)
  {
    hide Follow, Low, Add, Place, Insert, ListedFor;
  }

  lemma EarlyMoves(k: Daemon, q: Daemon, m: Message)
    requires q == Follow(k.(active := k.active + {m.timer}), m, m.sent)
    requires q == k.(active := k.active + {m.timer}, base := q.base, runs := q.runs)
    requires Period(q, m.timer) == Period(k, m.timer) && m.value == Low(m.sent)
    requires var p := Period(q, m.timer);
      var (r, x) := InsertTimer(q, m.timer, Add(Low(m.sent), p), Low(q.now), Low(m.sent), m.sent + p);
      !x && ListedFor(r, m.timer, m.sent + p)
    requires m.sent + Period(k, m.timer) > k.now
    ensures Moves(k, ExecuteStart(k, m), m)
  {
    hide Follow, Low, Add, Place, Insert, ListedFor;
  }

  ghost predicate Leads(k: Daemon, m: Message, x: nat) {
    var p := Period(k, m.timer);
    var ts := [m.sent] + Tokens(k.queue, m.timer);
    Past(ts, k.now) && x == NextDue(Winner(ts, p, k.now), p, k.now)
  }

  lemma OwnBound(k: Daemon, m: Message, x: nat)
    requires Taking(k, m) && Starts(m) && k.now < m.sent + WRAP && m.timer in k.auto && NoUser(k.queue, m.timer)
    requires Past(Tokens(k.queue, m.timer), k.now) && Leads(k, m, x)
    ensures var r := ExecuteStart(k, m); r.stuck || Bound(r, m.timer, x)
  {
    TakingMeans(k, m);
    hide *;
    StartMoves(k, m);
    var r := ExecuteStart(k, m);
    if !r.stuck {
      if m.sent + Period(k, m.timer) <= k.now { LateBound(k, r, m, x); } else { EarlyBound(k, r, m, x); }
    }
  }

  lemma LateBound(k: Daemon, r: Daemon, m: Message, x: nat)
    requires Moves(k, r, m) && !r.stuck && m.timer in k.auto && NoUser(k.queue, m.timer)
    requires Past(Tokens(k.queue, m.timer), k.now) && Leads(k, m, x) && m.sent + Period(k, m.timer) <= k.now
    ensures Bound(r, m.timer, x)
  {
    LateTokens(k, m);
    assert Period(r, m.timer) == Period(k, m.timer) && r.queue == k.queue + [NextRestart(k, m)];
    hide Moves, NoUser, Tokens, ListedFor, Period, Past, Winner, NextDue, NextRestart;
    Rotate(m.sent, Tokens(k.queue, m.timer), Period(k, m.timer), k.now);
  }

  lemma LateTokens(k: Daemon, m: Message)
    requires NoUser(k.queue, m.timer)
    ensures var q := k.queue + [NextRestart(k, m)];
      && Tokens(q, m.timer) == Tokens(k.queue, m.timer) + [m.sent + Period(k, m.timer)] && NoUser(q, m.timer)
      && Tokens(q, m.timer) != []
  {
    TokensPost(k.queue, NextRestart(k, m), m.timer);
    NoUserPosted(k.queue, NextRestart(k, m), m.timer);
    hide Tokens, NoUser, Period, Add;
  }

  lemma EarlyBound(k: Daemon, r: Daemon, m: Message, x: nat)
    requires Moves(k, r, m) && m.timer in k.auto && NoUser(k.queue, m.timer)
    requires Past(Tokens(k.queue, m.timer), k.now) && Leads(k, m, x)
    requires m.sent <= k.now < m.sent + Period(k, m.timer)
    ensures Bound(r, m.timer, x)
  {
    var ts, p := Tokens(k.queue, m.timer), Period(k, m.timer);
    hide NoUser, Tokens, ListedFor, Period, Past, Winner, NextDue;
    if ts == [] {
      Alone(m.sent, p, k.now);
      assert [m.sent] + ts == [m.sent];
    } else {
      Overruled(m.sent, ts, p, k.now);
    }
  }

  lemma Alone(e: nat, p: word, now: nat)
    requires p > 0 && e <= now < e + p
    ensures Past([e], now) && Winner([e], p, now) == e && NextDue(e, p, now) == e + p
  {
    NotLate(e, p, now);
  }

  // ----- one turn of the daemon's loop

  lemma SameTokens(d: Daemon, k: Daemon, r: Daemon, m: Message, t: TimerId)
    requires d.queue == [m] + k.queue && !IsRestart(m, t)
    requires r.queue == k.queue || r.queue == k.queue + [NextRestart(k, m)]
    requires m.timer != t
    ensures Tokens(r.queue, t) == Tokens(k.queue, t) == Tokens(d.queue, t)
  {
    assert d.queue[1..] == k.queue;
    TokensPost(k.queue, NextRestart(k, m), t);
  }

  lemma ElsewhereTwice(d: Daemon, k: Daemon, r: Daemon, u: TimerId, t: TimerId, x: nat)
    requires Elsewhere(d, k, u) && Elsewhere(k, r, u) && t != u
    requires Bound(d, t, x) && Tokens(r.queue, t) == Tokens(k.queue, t) == Tokens(d.queue, t)
    requires NoUser(k.queue, t) && NoUser(r.queue, t)
    ensures Bound(r, t, x)
  {
    assert SameFor(d, k, t) && SameFor(k, r, t);
    hide Elsewhere, SameFor, Bound;
    OtherBound(d, k, t, x);
    OtherBound(k, r, t, x);
  }

  lemma CommandBound(d: Daemon, t: TimerId, x: nat)
    requires OnTime(d) && !d.stuck && d.last == d.now && Timely(d) && d.queue != [] && Bound(d, t, x)
    ensures ProcessCommand(d).stuck || Bound(ProcessCommand(d), t, x)
  {
    var m := d.queue[0];
    var k := Taken(d);
    TakenFrame(d);
    TakenDated(d);
    TakenKeeps(d);
    TakenTimely(d);
    NoUserTail(d.queue, t);
    assert Sample(k) == k && d.queue == [m] + k.queue;
    hide ListInv, Dated, AllGood, Sample, Taken, ProcessCommand, Timely, Off, NoUser, Elsewhere, Stamped;
    if m.timer != t {
      ExecuteLists(k, m);
      ExecuteFrame(k, m);
      ExecuteNoUser(k, m, t);
      hide Execute, Bound, Tokens;
      SameTokens(d, k, Execute(k, m), m, t);
      ElsewhereTwice(d, k, Execute(k, m), m.timer, t, x);
    } else {
      hide ExecuteStart;
      RestartBound(d, k, m, x);
    }
  }

  lemma RestartBound(d: Daemon, k: Daemon, m: Message, x: nat)
    requires OnTime(d) && !d.stuck && d.last == d.now && d.queue != [] && d.queue[0] == m && k == Taken(d) && Prompt(d)
    requires k == Sample(k) && Stamped(m, d.now) && Bound(d, m.timer, x) && NoUser(k.queue, m.timer)
    requires ListInv(k) && Off(k, m.timer)
    ensures m.kind == Restart && (ExecuteStart(k, m).stuck || Bound(ExecuteStart(k, m), m.timer, x))
  {
    var t := m.timer;
    var ts := Tokens(k.queue, t);
    assert k.queue == d.queue[1..];
    assert m.kind == Restart by { hide OnTime; }
    assert Tokens(d.queue, t) == [m.sent] + ts by { hide OnTime, Bound; }
    TakingHere(d);
    TakenFrame(d);
    assert Past(ts, k.now) by { PastTail(m.sent, ts, k.now); }
    assert Leads(k, m, x) by { hide OnTime; }
    hide Leads, OnTime, Taking, Sample, Taken, ExecuteStart, ListInv, Off, Tokens, Winner, NextDue, Past, Stamped;
    OwnBound(k, m, x);
  }

  lemma PastTail(e: nat, ts: seq<nat>, now: nat)
    requires Past([e] + ts, now)
    ensures Past(ts, now)
  {
    forall i | 0 <= i < |ts| ensures ts[i] <= now { assert ([e] + ts)[i + 1] == ts[i]; }
  }

  lemma TakingHere(d: Daemon)
    requires OnTime(d) && !d.stuck && d.last == d.now && d.queue != [] && Stamped(d.queue[0], d.now)
    requires Sample(Taken(d)) == Taken(d)
    ensures Taking(Taken(d), d.queue[0])
  {
    hide ListInv, AllGood, Taken, Sample, Taking, Dated;
    TakingNow(d);
  }

  /** The head of the current list, when it is due, is another timer. */
  lemma TimerBound(d: Daemon, t: TimerId, x: nat)
    requires OnTime(d) && !d.stuck && d.last == d.now && d.queue == [] && Due(d) && Bound(d, t, x)
    ensures ProcessTimer(d).stuck || Bound(ProcessTimer(d), t, x)
  {
    var e := d.current[0];
    var r := ProcessExpired(d, e.value, Low(d.now));
    var m := Message(Restart, e.timer, e.value, e.due);
    assert ListedFor(d, t, x) && x > d.now;
    HeadIsOther(d, t, x);
    HeadExpires(d);
    ExpiredLists(d, e.value, Low(d.now));
    ExpiredFrame(d, e.value);
    assert SameFor(d, r, t) by { hide SameFor, ProcessExpired, ListInv, Bound, OnTime; }
    hide ProcessTimer, ProcessExpired, OnTime, SameFor, Elsewhere, ListInv;
    PostedAlone(d, m, t);
    hide Post, Tokens, NoUser;
    OtherBound(d, r, t, x);
  }

  lemma HeadExpires(d: Daemon)
    requires d.last == d.now && Due(d)
    ensures ProcessTimer(d) == ProcessExpired(d, d.current[0].value, Low(d.now))
  {
    hide ProcessExpired;
  }

  lemma PostedAlone(d: Daemon, m: Message, t: TimerId)
    requires d.queue == [] && m.kind == Restart && m.timer != t
    ensures Tokens(d.queue, t) == Tokens(Post(d, m).queue, t) == [] && NoUser(d.queue, t) && NoUser(Post(d, m).queue, t)
  {
  }

  lemma HeadIsOther(d: Daemon, t: TimerId, x: nat)
    requires ListInv(d) && d.last == d.now && Due(d) && ListedFor(d, t, x) && x > d.now
    ensures d.current[0].timer != t
  {
    var e := d.current[0];
    if e.timer == t {
      assert e in d.current;
      if ItemFor(t, x) in d.current && x / WRAP == d.last / WRAP {
        SameTimer(d.current, e, ItemFor(t, x));
        DueBy(x, d.now);
      }
    }
  }

  lemma {:induction false} DrainBound(d: Daemon, t: TimerId, x: nat)
    requires OnTime(d) && !d.stuck && d.last == d.now && Timely(d) && !Drain(d).stuck && Bound(d, t, x)
    ensures ListedFor(Drain(d), t, x) && x > d.now
    decreases Pending(d)
  {
    hide OnTime, ProcessTimer, ProcessCommand, Pending, Due, Timely, Bound;
    if d.queue != [] {
      CommandTurnWork(d);
      CommandTurnGoesOn(d);
      CommandBound(d, t, x);
      NextBound(d, ProcessCommand(d), t, x);
    } else if Due(d) {
      TimerTurnWork(d);
      TimerTurnGoesOn(d);
      TimerBound(d, t, x);
      NextBound(d, ProcessTimer(d), t, x);
    } else {
      BoundAtRest(d, t, x);
    }
  }

  lemma BoundAtRest(d: Daemon, t: TimerId, x: nat)
    requires Bound(d, t, x) && d.queue == []
    ensures ListedFor(d, t, x) && x > d.now
  {
  }

  lemma NextBound(d: Daemon, m: Daemon, t: TimerId, x: nat)
    requires OnTime(m) && m.last == m.now == d.now && Timely(m) && !Drain(m).stuck && (m.stuck || Bound(m, t, x))
    requires Pending(m) < Pending(d)
    ensures ListedFor(Drain(m), t, x) && x > d.now
    decreases Pending(d), 0
  {
    hide OnTime, Pending, Timely, Drain, Bound, ListedFor;
    if m.stuck { StuckStays(m); }
    DrainBound(m, t, x);
  }

  lemma CommandTurnGoesOn(d: Daemon)
    requires OnTime(d) && !d.stuck && d.last == d.now && Timely(d) && d.queue != []
    ensures OnTime(ProcessCommand(d)) && Timely(ProcessCommand(d))
  {
    hide ListInv, AllGood, Dated, ProcessCommand, Timely, Prompt;
    CommandTurnOnward(d);
    CommandTurnKeeps(d);
  }

  lemma TimerTurnGoesOn(d: Daemon)
    requires OnTime(d) && !d.stuck && d.last == d.now && Timely(d) && Due(d)
    ensures OnTime(ProcessTimer(d)) && Timely(ProcessTimer(d))
  {
    hide ListInv, AllGood, Dated, ProcessTimer, Timely;
    TimerTurnOnward(d);
    TimerTurnKeeps(d);
  }

  // ----- the outcome of a command

  /** What a start or reset counts from, and what a period change counts from. */
  function AsksFrom(d: Daemon, m: Message): nat {
    if m.kind == Start then m.sent else d.now
  }

  /** The period of its timer once m has been handled. */
  function PeriodThen(d: Daemon, m: Message): (p: word)
    ensures p > 0
  {
    if m.kind == ChangePeriod && m.value > 0 then m.value else Period(d, m.timer)
  }

  /** The command at the head of the queue starts an auto-reload timer or changes its period, and
      no other user command about that timer is behind it. */
  ghost predicate Asking(d: Daemon) {
    && OnTime(d) && !d.stuck && d.last == d.now && Timely(d) && d.queue != []
    && (d.queue[0].kind == Start || d.queue[0].kind == ChangePeriod)
    && d.queue[0].timer in d.auto && NoUser(d.queue[1..], d.queue[0].timer)
  }

  /** The start that has the last word among the command and the restarts behind it. */
  ghost function LastWord(d: Daemon): (w: nat)
    requires Asking(d)
  {
    RestartsPast(d);
    var m := d.queue[0];
    Winner([AsksFrom(d, m)] + Tokens(d.queue[1..], m.timer), PeriodThen(d, m), d.now)
  }

  lemma RestartsPast(d: Daemon)
    requires Asking(d)
    ensures var m := d.queue[0];
      var ts := Tokens(d.queue[1..], m.timer);
      Past(ts, d.now) && Past([AsksFrom(d, m)] + ts, d.now) && AsksFrom(d, m) <= d.now
  {
    var m := d.queue[0];
    TakenDated(d);
    assert DatedQueue(d.queue[1..], d.now) by { TakenFrame(d); }
    assert Stamped(m, d.now);
    TokensPast(d.queue[1..], m.timer, d.now);
    hide OnTime, Timely, NoUser, Tokens, DatedQueue;
  }

  lemma OneDue(d: Daemon, t: TimerId, x: nat, y: nat)
    requires ListInv(d) && ListedFor(d, t, x)
    ensures ListedFor(d, t, y) <==> x == y
  {
    if ListedFor(d, t, y) && x != y {
      hide Sorted;
      if ItemFor(t, x) in d.current && ItemFor(t, y) in d.current {
        SameTimer(d.current, ItemFor(t, x), ItemFor(t, y));
      } else if ItemFor(t, x) in d.overflow && ItemFor(t, y) in d.overflow {
        SameTimer(d.overflow, ItemFor(t, x), ItemFor(t, y));
      }
    }
  }

  /** What a period change does to its timer. */
  lemma PeriodMoves(k: Daemon, m: Message)
    requires ListInv(k) && Off(k, m.timer) && k.last == k.now && m.kind == ChangePeriod && m.value > 0
    ensures var a := k.(period := k.period[m.timer := m.value]);
      Period(a, m.timer) == m.value && Moves(a, ExecutePeriod(k, m), Message(Start, m.timer, Low(k.now), k.now))
  {
    hide ListInv, Off, Follow, InsertTimer, ListedFor, Add, NoRestart;
    var t := m.timer;
    var a := k.(active := k.active + {t}, period := k.period[t := m.value]);
    PeriodOnly(k, a, t);
    FollowFrame(a, m, k.now);
    var q := Follow(a, m, k.now);
    assert Period(q, t) == m.value;
    PlacedWhere(q, t, k.now);
  }

  lemma PeriodBound(k: Daemon, m: Message, x: nat)
    requires ListInv(k) && Off(k, m.timer) && k.last == k.now && m.kind == ChangePeriod && m.value > 0
    requires m.timer in k.auto && NoUser(k.queue, m.timer) && Past(Tokens(k.queue, m.timer), k.now)
    requires Past([k.now] + Tokens(k.queue, m.timer), k.now)
    requires x == NextDue(Winner([k.now] + Tokens(k.queue, m.timer), m.value, k.now), m.value, k.now)
    ensures Bound(ExecutePeriod(k, m), m.timer, x)
  {
    hide ListInv, Off, NoUser, Tokens, ExecutePeriod, Winner, NextDue, Past, Moves, Bound, Period;
    PeriodMoves(k, m);
    EarlyBound(k.(period := k.period[m.timer := m.value]), ExecutePeriod(k, m),
      Message(Start, m.timer, Low(k.now), k.now), x);
  }

  lemma AskedBound(d: Daemon)
    requires Asking(d)
    ensures var r := ProcessCommand(d);
      r.stuck || Bound(r, d.queue[0].timer, NextDue(LastWord(d), PeriodThen(d, d.queue[0]), d.now))
  {
    var m := d.queue[0];
    var k := Taken(d);
    var x := NextDue(LastWord(d), PeriodThen(d, m), d.now);
    RestartsPast(d);
    TakenDated(d);
    TakenFrame(d);
    TakenKeeps(d);
    TakenTimely(d);
    assert Sample(k) == k && Period(k, m.timer) == Period(d, m.timer);
    hide Dated, ListInv, AllGood, Off, Timely, Stamped, Taken, Sample, Tokens, Past, Winner, NextDue, NoUser;
    hide Bound, ExecuteStart, ExecutePeriod, ProcessCommand, Period;
    TakingHere(d);
    if m.kind == Start {
      OwnBound(k, m, x);
    } else if m.value > 0 {
      PeriodBound(k, m, x);
    } else {
      PeriodZero(k, m);
    }
  }

  /** Once the daemon has caught up, the timer is listed on the schedule of the start that has the
      last word. So the command takes effect, its timer listed as it asks for, exactly when the
      start with the last word is a whole number of periods away from it. */
  lemma CommandSettles(d: Daemon)
    requires Asking(d) && !Drain(d).stuck
    ensures var m := d.queue[0];
      var p := PeriodThen(d, m);
      && ListedFor(Drain(d), m.timer, NextDue(LastWord(d), p, d.now))
      && (ListedFor(Drain(d), m.timer, NextDue(AsksFrom(d, m), p, d.now)) <==>
          LastWord(d) % p == AsksFrom(d, m) % p)
  {
    var m := d.queue[0];
    var p := PeriodThen(d, m);
    var x := NextDue(LastWord(d), p, d.now);
    RestartsPast(d);
    hide OnTime, Timely, NoUser, NextDue, Pending, ListedFor;
    CommandTurnWork(d);
    CommandTurnGoesOn(d);
    AskedBound(d);
    NextBound(d, ProcessCommand(d), m.timer, x);
    DrainOnTime(d);
    OneDue(Drain(d), m.timer, x, NextDue(AsksFrom(d, m), p, d.now)) by {
      assert ListInv(Drain(d)) by { OnTimeLists(Drain(d)); }
    }
    SameSchedule(LastWord(d), AsksFrom(d, m), p, d.now);
  }

  lemma OnTimeLists(d: Daemon)
    requires OnTime(d)
    ensures ListInv(d)
  {
  }

  // ----- when a command takes effect

  /** The start at i is late by as many periods as any, and by more than all behind it. */
  ghost predicate HasLastWord(ts: seq<nat>, i: nat, p: word, now: nat)
    requires p > 0 && Past(ts, now) && i < |ts|
  {
    && (forall j :: 0 <= j < |ts| ==> Late(ts[j], p, now) <= Late(ts[i], p, now))
    && (forall j :: i < j < |ts| ==> Late(ts[j], p, now) < Late(ts[i], p, now))
  }

  lemma {:induction false} WinnerIs(ts: seq<nat>, p: word, now: nat)
    requires p > 0 && ts != [] && Past(ts, now)
    ensures exists i :: 0 <= i < |ts| && ts[i] == Winner(ts, p, now) && HasLastWord(ts, i, p, now)
    decreases |ts|
  {
    hide Late;
    if |ts| == 1 {
      assert HasLastWord(ts, 0, p, now);
    } else {
      var r := ts[1..];
      WinnerIs(r, p, now);
      var i :| 0 <= i < |r| && r[i] == Winner(r, p, now) && HasLastWord(r, i, p, now);
      forall j | 0 < j < |ts| ensures ts[j] == r[j - 1] { }
      if Late(ts[0], p, now) > Late(r[i], p, now) {
        assert HasLastWord(ts, 0, p, now);
      } else {
        assert HasLastWord(ts, i + 1, p, now);
      }
    }
  }

  /** The command takes effect as far as the restart at e is concerned: it is late by fewer periods
      than the command, or on the schedule the command asks for. */
  predicate Harmless(e: nat, v: nat, p: word, now: nat)
    requires p > 0 && e <= now && v <= now
  {
    Late(e, p, now) < Late(v, p, now) || e % p == v % p
  }

  lemma HarmlessMeans(v: nat, ts: seq<nat>, p: word, now: nat)
    requires p > 0 && v <= now && Past(ts, now) && Past([v] + ts, now)
    ensures (forall i :: 0 <= i < |ts| ==> Harmless(ts[i], v, p, now)) ==> Winner([v] + ts, p, now) % p == v % p
    ensures |ts| <= 1 && Winner([v] + ts, p, now) % p == v % p ==>
      forall i :: 0 <= i < |ts| ==> Harmless(ts[i], v, p, now)
  {
    var all := [v] + ts;
    WinnerIs(all, p, now);
    hide Late, Winner;
    var i :| 0 <= i < |all| && all[i] == Winner(all, p, now) && HasLastWord(all, i, p, now);
    assert all[0] == v && forall j :: 0 <= j < |ts| ==> all[j + 1] == ts[j];
    if |ts| == 1 { assert all[1] == ts[0]; }
  }

  /** A command takes effect when each restart behind it is harmless; with one restart behind it,
      only then. With several, one that is not may be overruled in its turn. */
  lemma HarmlessRestarts(d: Daemon)
    requires Asking(d) && !Drain(d).stuck
    ensures var m := d.queue[0];
      var v := AsksFrom(d, m);
      var p := PeriodThen(d, m);
      var ts := Tokens(d.queue[1..], m.timer);
      && v <= d.now && Past(ts, d.now)
      && ((forall i :: 0 <= i < |ts| ==> Harmless(ts[i], v, p, d.now)) ==>
          ListedFor(Drain(d), m.timer, NextDue(v, p, d.now)))
      && (|ts| <= 1 && ListedFor(Drain(d), m.timer, NextDue(v, p, d.now)) ==>
          forall i :: 0 <= i < |ts| ==> Harmless(ts[i], v, p, d.now))
  {
    var m := d.queue[0];
    var v := AsksFrom(d, m);
    var p := PeriodThen(d, m);
    var ts := Tokens(d.queue[1..], m.timer);
    RestartsPast(d);
    CommandSettles(d);
    HarmlessMeans(v, ts, p, d.now);
    hide *;
  }

  /** A timer of period 1000, 10 ticks after the wrap, with restarts posted behind a reset of it. */
  ghost predicate AfterWrap(d: Daemon, sent: nat, restarts: seq<Message>) {
    && Asking(d) && d.now == WRAP + 10 && Period(d, 0) == 1000
    && d.queue == [Message(Start, 0, Low(sent), sent)] + restarts
  }

  /** A reset sent so early that it is a period late itself takes effect with a restart behind it. */
  lemma LateResetWins(d: Daemon)
    requires AfterWrap(d, WRAP - 990, [RestartFor(0, WRAP - 50)]) && !Drain(d).stuck
    ensures ListedFor(Drain(d), 0, WRAP + 1010)
  {
    hide Asking, Drain, ListedFor, Period;
    SettlesAt(d, WRAP - 990, [WRAP - 50]);
  }

  /** And so does one with two restarts behind it, of which the first alone would overrule it. */
  lemma SecondOverrulesFirst(d: Daemon)
    requires AfterWrap(d, WRAP - 100, [RestartFor(0, WRAP - 50), RestartFor(0, WRAP - 100)]) && !Drain(d).stuck
    ensures ListedFor(Drain(d), 0, WRAP + 900) && !Harmless(WRAP - 50, WRAP - 100, 1000, d.now)
  {
    hide Asking, Drain, ListedFor, Period;
    TwoTokens(d.queue[1..], WRAP - 50, WRAP - 100);
    SettlesAt(d, WRAP - 100, [WRAP - 50, WRAP - 100]);
  }

  lemma TwoTokens(q: seq<Message>, e: nat, f: nat)
    requires q == [RestartFor(0, e), RestartFor(0, f)]
    ensures Tokens(q, 0) == [e, f]
  {
    assert q[1..] == [RestartFor(0, f)];
    assert Tokens(q[1..], 0) == [f];
  }

  lemma SettlesAt(d: Daemon, sent: nat, ts: seq<nat>)
    requires Asking(d) && !Drain(d).stuck && d.queue[0].kind == Start && d.queue[0].sent == sent
    requires d.queue[0].timer == 0 && Period(d, 0) == 1000 && Tokens(d.queue[1..], 0) == ts
    ensures Past([sent] + ts, d.now)
    ensures var w := Winner([sent] + ts, 1000, d.now);
      && ListedFor(Drain(d), 0, NextDue(w, 1000, d.now))
      && (ListedFor(Drain(d), 0, NextDue(sent, 1000, d.now)) <==> w % 1000 == sent % 1000)
  {
    hide Drain, OnTime, ListedFor, NextDue, Tokens, Period;
    RestartsPast(d);
    CommandSettles(d);
  }
}
