/** What every step of the timer daemon keeps, for every followed timer. */
module TimerInv {
  import opened Words
  import opened Rings
  import opened Timers

  // ----- lists

  ghost predicate Distinct(s: seq<Entry>) {
    forall i, j :: 0 <= i < j < |s| ==> s[i].timer != s[j].timer
  }

  /** Both lists in expiry order, no timer listed twice. */
  ghost predicate ListInv(d: Daemon) {
    && Sorted(Values(d.current)) && Sorted(Values(d.overflow))
    && Distinct(d.current) && Distinct(d.overflow)
    && (forall e, f :: e in d.current && f in d.overflow ==> e.timer != f.timer)
  }

  predicate Unlisted(s: seq<Entry>, t: TimerId) {
    forall i :: 0 <= i < |s| ==> s[i].timer != t
  }

  /** t is on neither list. */
  predicate Off(d: Daemon, t: TimerId) {
    Unlisted(d.current, t) && Unlisted(d.overflow, t)
  }

  predicate NoMessage(q: seq<Message>, t: TimerId) {
    forall i :: 0 <= i < |q| ==> q[i].timer != t
  }

  /** m is the only restart of its timer. */
  ghost predicate OneRestart(q: seq<Message>, m: Message) {
    exists i :: 0 <= i < |q| && q[i] == m && forall j :: 0 <= j < |q| && j != i ==> !IsRestart(q[j], m.timer)
  }

  // ----- followed timers

  /** The unbounded time the timer has been served up to: its start plus one period a run. */
  ghost function Reached(d: Daemon, t: TimerId): nat
    requires t in d.base
  {
    d.base[t] + Runs(d, t) * Period(d, t)
  }

  /** The item of a timer that is due at unbounded time e. */
  function ItemFor(t: TimerId, e: nat): Entry {
    Entry(t, Low(e), e)
  }

  /** t is listed for unbounded time e, in the list of e's own epoch. */
  ghost predicate ListedFor(d: Daemon, t: TimerId, e: nat) {
    || (ItemFor(t, e) in d.current && e / WRAP == d.last / WRAP)
    || (ItemFor(t, e) in d.overflow && e / WRAP == d.last / WRAP + 1)
  }

  /** The message that restarts t from unbounded time e. */
  function RestartFor(t: TimerId, e: nat): Message {
    Message(Restart, t, Low(e), e)
  }

  /** A followed timer never runs early, and its next run is always on its way: it is listed for
      exactly one period after the time it has reached, or the one restart about it counts from
      exactly that time, or it is a one-shot timer that has run. User commands may be under way. */
  ghost predicate Good(d: Daemon, t: TimerId)
    requires t in d.base
  {
    && Reached(d, t) <= d.now
    && (|| (ListedFor(d, t, Reached(d, t) + Period(d, t)) && NoRestart(d.queue, t) && (t in d.auto || Runs(d, t) == 0))
        || (Off(d, t) && t in d.auto && OneRestart(d.queue, RestartFor(t, Reached(d, t))))
        || (Off(d, t) && NoRestart(d.queue, t) && t !in d.auto && Runs(d, t) == 1))
  }

  /** Every timer that is listed is followed, unless a restart of it is under way. */
  ghost predicate OnSchedule(d: Daemon, t: TimerId) {
    if t in d.base then Good(d, t) else Off(d, t) || !NoRestart(d.queue, t)
  }

  ghost predicate AllGood(d: Daemon, except: set<TimerId>) {
    && (forall t :: t !in except ==> OnSchedule(d, t))
    && (forall t :: t in except ==> Off(d, t))
  }

  /** The clock has been sampled within the last turn. */
  ghost predicate Fresh(d: Daemon) {
    d.last <= d.now < d.last + WRAP
  }

  // ----- what insertion and removal do to a list

  lemma InsertKeeps(s: seq<Entry>, e: Entry)
    requires Sorted(Values(s)) && Distinct(s) && Unlisted(s, e.timer)
    ensures Sorted(Values(Insert(s, e))) && Distinct(Insert(s, e))
    ensures forall x :: x in Insert(s, e) <==> x == e || x in s
  {
    var k := InsertPos(Values(s), e.value);
    InsertPosSorted(Values(s), e.value);
    assert Values(Insert(s, e)) == Splice(Values(s), k, e.value);
    SpliceMembers(s, k, e);
    hide Sorted, InsertPos, Values;
    SpliceDistinct(s, k, e);
  }

  lemma SpliceDistinct(s: seq<Entry>, k: nat, e: Entry)
    requires k <= |s| && Distinct(s) && Unlisted(s, e.timer)
    ensures Distinct(Splice(s, k, e))
  {
    var r := Splice(s, k, e);
    forall i | 0 <= i < |r| ensures r[i] == if i < k then s[i] else if i == k then e else s[i - 1] { }
    hide Splice;
  }

  lemma TailKeeps(s: seq<Entry>)
    requires s != [] && Sorted(Values(s)) && Distinct(s)
    ensures Sorted(Values(s[1..])) && Distinct(s[1..]) && Unlisted(s[1..], s[0].timer)
    ensures forall x :: x in s <==> x == s[0] || x in s[1..]
  {
    assert Values(s[1..]) == Values(s)[1..];
    assert s == [s[0]] + s[1..];
  }

  lemma {:induction false} DropKeeps(s: seq<Entry>, t: TimerId)
    requires Sorted(Values(s)) && Distinct(s)
    ensures Sorted(Values(Drop(s, t))) && Distinct(Drop(s, t)) && Unlisted(Drop(s, t), t)
    ensures forall x :: x in Drop(s, t) <==> x in s && x.timer != t
  {
    if s != [] {
      TailKeeps(s);
      HeadLeast(s);
      hide Sorted, Distinct, Unlisted, Values;
      DropKeeps(s[1..], t);
      if s[0].timer != t {
        FrontKeeps(s[0], Drop(s[1..], t));
        UnlistedStep([s[0]] + Drop(s[1..], t), t);
        assert ([s[0]] + Drop(s[1..], t))[1..] == Drop(s[1..], t);
      }
    }
  }

  lemma UnlistedStep(s: seq<Entry>, t: TimerId)
    requires s != []
    ensures Unlisted(s, t) <==> s[0].timer != t && Unlisted(s[1..], t)
  {
    assert s == [s[0]] + s[1..];
  }

  /** The head of a list expires no later than the rest, and is another timer. */
  lemma HeadLeast(s: seq<Entry>)
    requires s != [] && Sorted(Values(s)) && Distinct(s)
    ensures forall x :: x in s[1..] ==> s[0].value <= x.value && s[0].timer != x.timer
  {
    forall x | x in s[1..] ensures s[0].value <= x.value && s[0].timer != x.timer {
      var k :| 0 <= k < |s[1..]| && s[1..][k] == x;
      assert Values(s)[0] <= Values(s)[k + 1];
    }
  }

  lemma FrontKeeps(e: Entry, s: seq<Entry>)
    requires Sorted(Values(s)) && Distinct(s) && forall x :: x in s ==> e.value <= x.value && e.timer != x.timer
    ensures Sorted(Values([e] + s)) && Distinct([e] + s)
  {
    var r := [e] + s;
    forall i | 0 < i < |r| ensures r[i] == s[i - 1] && r[i] in s && Values(r)[i] == Values(s)[i - 1] { }
    assert r[0] == e;
  }

  lemma UnlistedMeans(s: seq<Entry>, t: TimerId)
    ensures Unlisted(s, t) <==> forall x: Entry :: x.timer == t ==> x !in s
  {
    if !Unlisted(s, t) {
      var i :| 0 <= i < |s| && s[i].timer == t;
      assert s[i] in s;
    }
  }

  lemma SameTimer(s: seq<Entry>, e: Entry, f: Entry)
    requires Distinct(s) && e in s && f in s && e.timer == f.timer
    ensures e == f
  {
  }

  // ----- frames: what happens to one timer leaves the others alone

  /** r is q with one message more at the end, or one less at the front, that restarts t not. */
  ghost predicate QueueFor(q: seq<Message>, r: seq<Message>, t: TimerId) {
    r == q || exists m: Message :: !IsRestart(m, t) && (r == q + [m] || q == [m] + r)
  }

  /** Nothing about the schedule of t differs between d and r. */
  ghost predicate SameFor(d: Daemon, r: Daemon, t: TimerId) {
    && (forall x: Entry :: x.timer == t ==> (x in r.current <==> x in d.current))
    && (forall x: Entry :: x.timer == t ==> (x in r.overflow <==> x in d.overflow))
    && QueueFor(d.queue, r.queue, t)
    && (t in r.base <==> t in d.base) && (t in d.base ==> r.base[t] == d.base[t])
    && Period(r, t) == Period(d, t) && (t in r.auto <==> t in d.auto)
    && Runs(r, t) == Runs(d, t) && r.last == d.last && r.now == d.now
  }

  lemma PostedFrame(q: seq<Message>, x: Message, t: TimerId)
    requires !IsRestart(x, t)
    ensures NoRestart(q + [x], t) <==> NoRestart(q, t)
    ensures forall m: Message :: m.timer == t && OneRestart(q, m) ==> OneRestart(q + [x], m)
  {
    var r := q + [x];
    forall i | 0 <= i < |q| ensures r[i] == q[i] { }
    forall m: Message | m.timer == t && OneRestart(q, m) ensures OneRestart(r, m) {
      var i :| 0 <= i < |q| && q[i] == m && forall j :: 0 <= j < |q| && j != i ==> !IsRestart(q[j], t);
      assert r[i] == m;
    }
  }

  lemma TakenFromFront(q: seq<Message>, x: Message, t: TimerId)
    requires !IsRestart(x, t)
    ensures NoRestart([x] + q, t) <==> NoRestart(q, t)
  {
    var r := [x] + q;
    forall i | 0 <= i < |q| ensures r[i + 1] == q[i] { }
    forall i | 0 < i < |r| ensures r[i] == q[i - 1] { }
  }

  lemma OneLeft(q: seq<Message>, x: Message, m: Message)
    requires !IsRestart(x, m.timer) && m.kind == Restart && OneRestart([x] + q, m)
    ensures OneRestart(q, m)
  {
    var r := [x] + q;
    var i :| 0 <= i < |r| && r[i] == m && forall j :: 0 <= j < |r| && j != i ==> !IsRestart(r[j], m.timer);
    assert q[i - 1] == m;
    forall j | 0 <= j < |q| && j != i - 1 ensures !IsRestart(q[j], m.timer) { assert r[j + 1] == q[j]; }
  }

  lemma QueueFrame(q: seq<Message>, r: seq<Message>, t: TimerId)
    requires QueueFor(q, r, t)
    ensures NoRestart(r, t) <==> NoRestart(q, t)
    ensures forall e: nat :: OneRestart(q, RestartFor(t, e)) ==> OneRestart(r, RestartFor(t, e))
  {
    if r != q {
      var x: Message :| !IsRestart(x, t) && (r == q + [x] || q == [x] + r);
      if r == q + [x] {
        PostedFrame(q, x, t);
      } else {
        TakenFromFront(r, x, t);
        forall e: nat | OneRestart(q, RestartFor(t, e)) ensures OneRestart(r, RestartFor(t, e)) {
          OneLeft(r, x, RestartFor(t, e));
        }
      }
    }
    hide NoRestart, OneRestart;
  }

  lemma OffFrame(d: Daemon, r: Daemon, t: TimerId)
    requires forall x: Entry :: x.timer == t ==> (x in r.current <==> x in d.current)
    requires forall x: Entry :: x.timer == t ==> (x in r.overflow <==> x in d.overflow)
    ensures Off(r, t) <==> Off(d, t)
  {
    UnlistedMeans(d.current, t);
    UnlistedMeans(r.current, t);
    UnlistedMeans(d.overflow, t);
    UnlistedMeans(r.overflow, t);
  }

  lemma ScheduleFrame(d: Daemon, r: Daemon, t: TimerId)
    requires SameFor(d, r, t)
    ensures OnSchedule(d, t) ==> OnSchedule(r, t)
    ensures Off(d, t) ==> Off(r, t)
    ensures NoRestart(d.queue, t) <==> NoRestart(r.queue, t)
  {
    OffFrame(d, r, t);
    QueueFrame(d.queue, r.queue, t);
    hide Off, NoRestart, OneRestart, QueueFor;
    if t in d.base {
      assert Reached(r, t) == Reached(d, t);
      hide Reached;
    }
  }

  // ----- arithmetic

  /** The same epoch shows as a larger tick. */
  lemma ReloadEpoch(e: nat, p: word)
    requires p > 0
    ensures Add(Low(e), p) == Low(e + p)
    ensures Add(Low(e), p) > Low(e) <==> (e + p) / WRAP == e / WRAP
    ensures Add(Low(e), p) <= Low(e) ==> (e + p) / WRAP == e / WRAP + 1
  {
    var q := e / WRAP;
    if Low(e) + p < WRAP {
      assert (e + p) / WRAP == q;
    } else {
      assert (e + p) / WRAP == q + 1;
    }
  }

  lemma NextReached(d: Daemon, r: Daemon, t: TimerId)
    requires t in d.base && r.base == d.base && Period(r, t) == Period(d, t) && Runs(r, t) == Runs(d, t) + 1
    ensures Reached(r, t) == Reached(d, t) + Period(d, t)
  {
    assert (Runs(d, t) + 1) * Period(d, t) == Runs(d, t) * Period(d, t) + Period(d, t);
  }
}
