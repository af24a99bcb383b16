/** The two ways the wake-ups of a queue can be lost: a reset, and too many interrupts while it is
    locked. */
module QueueLimits {
  import opened Rings
  import opened Queues
  import opened QueueProtocol

  // ----- resetting a queue in use

  /** xQueueGenericReset wakes one sender, however much space it makes. */
  function ResetNet(n: Net): Net {
    n.(q := Reset(n.q), wokenS := n.wokenS + Head(n.q.senders))
  }

  /** After a reset no wake-up is lost exactly when no second sender was waiting, or the senders
      already woken can fill the queue but for one slot. */
  lemma ResetExact(n: Net)
    requires Inv(n) && n.owner == Nobody
    ensures NoLostWakeup(ResetNet(n)) <==> |n.q.senders| <= 1 || n.q.length <= |n.wokenS| + 1
  {
    InvParts(n);
    HeadCard(n.q.senders, n.wokenS);
    hide Inv, Scheduled, Sound, Counted, Members, NoDup, Head;
  }

  lemma Then(n: Net, a: Step, m: Net, rest: seq<Step>)
    requires Legal(n, a) && Apply(n, a) == m && LegalRun(m, rest)
    ensures LegalRun(n, [a] + rest) && Final(n, [a] + rest) == Final(m, rest)
  {
    hide Legal, Apply;
    assert ([a] + rest)[0] == a && ([a] + rest)[1..] == rest;
  }

  /** A task sends to a full queue and goes to sleep: one step for each critical section. */
  function Sleep(t: Task, w: Want, place: nat): seq<Step> {
    var a := Turn(t, false, place);
    [Begin(t, w)] + ([a] + ([a] + ([a] + ([a] + ([a] + ([a] + ([a] + ([a] + ([a] + [])))))))))
  }

  /** n with t at p, and its senders. */
  function With(n: Net, t: Task, p: Pc, o: Owner, lock: int8, senders: seq<Task>): Net {
    n.(pc := n.pc[t := p], owner := o, q := n.q.(txLock := lock, rxLock := lock, senders := senders))
  }

  ghost predicate FullFor(n: Net, t: Task, w: Want) {
    && w.ToSend? && w.position == Back && |n.q.items| == n.q.length && n.q.txLock == n.q.rxLock == UNLOCKED
    && n.owner == Nobody && PcOf(n, t) == Outside && n.wokenR == {} && n.wokenS == {}
  }

  lemma Half(n: Net, t: Task, w: Want, place: nat)
    requires FullFor(n, t, w)
    ensures var x := With(n, t, HalfUnlocked(w, Block), Holder(t), UNMODIFIED, Slept(n, t, place));
      var h := x.(q := x.q.(txLock := UNLOCKED));
      && Apply(With(n, t, Unlocking(w, Block), Holder(t), UNMODIFIED, Slept(n, t, place)), Turn(t, false, place)) == h
      && Apply(h, Turn(t, false, place)) == With(n, t, Resuming(w, Block), Holder(t), UNLOCKED, Slept(n, t, place))
  {
    var s := Slept(n, t, place);
    assert First(n.q.receivers, 0) == {} && First(s, 0) == {};
    hide Slept, First;
  }

  /** The senders once t has been put at its place. */
  function Slept(n: Net, t: Task, place: nat): seq<Task> {
    Splice(n.q.senders, if place <= |n.q.senders| then place else |n.q.senders|, t)
  }

  lemma FirstHalf(n: Net, t: Task, w: Want, place: nat)
    requires FullFor(n, t, w)
    ensures var a := Turn(t, false, place);
      var s := n.q.senders;
      && Apply(n, Begin(t, w)) == With(n, t, Check(w), Nobody, UNLOCKED, s)
      && Apply(With(n, t, Check(w), Nobody, UNLOCKED, s), a) == With(n, t, Saw(w), Nobody, UNLOCKED, s)
      && Apply(With(n, t, Saw(w), Nobody, UNLOCKED, s), a) == With(n, t, Suspended(w), Holder(t), UNLOCKED, s)
  {
    hide First, Splice;
  }

  lemma SecondHalf(n: Net, t: Task, w: Want, place: nat)
    requires FullFor(n, t, w)
    ensures var a := Turn(t, false, place);
      var s := n.q.senders;
      && Apply(With(n, t, Suspended(w), Holder(t), UNLOCKED, s), a) == With(n, t, Locked(w), Holder(t), UNMODIFIED, s)
      && Apply(With(n, t, Locked(w), Holder(t), UNMODIFIED, s), a) == With(n, t, Recheck(w), Holder(t), UNMODIFIED, s)
      && Apply(With(n, t, Recheck(w), Holder(t), UNMODIFIED, s), a) == With(n, t, Enqueue(w), Holder(t), UNMODIFIED, s)
  {
    hide First, Splice;
  }

  lemma LastHalf(n: Net, t: Task, w: Want, place: nat)
    requires FullFor(n, t, w)
    ensures var a := Turn(t, false, place);
      var s := n.q.senders;
      && Apply(With(n, t, Enqueue(w), Holder(t), UNMODIFIED, s), a) ==
        With(n, t, Unlocking(w, Block), Holder(t), UNMODIFIED, Slept(n, t, place))
      && Apply(With(n, t, Resuming(w, Block), Holder(t), UNLOCKED, Slept(n, t, place)), a) ==
        With(n, t, Parked(w), Nobody, UNLOCKED, Slept(n, t, place))
  {
    hide First, Splice;
  }

  lemma Sleeps(n: Net, t: Task, w: Want, place: nat)
    requires FullFor(n, t, w)
    ensures LegalRun(n, Sleep(t, w, place))
    ensures Final(n, Sleep(t, w, place)) == With(n, t, Parked(w), Nobody, UNLOCKED, Slept(n, t, place))
  {
    var a := Turn(t, false, place);
    var s, r := n.q.senders, Slept(n, t, place);
    var n1 := With(n, t, Check(w), Nobody, UNLOCKED, s);
    var n2 := With(n, t, Saw(w), Nobody, UNLOCKED, s);
    var n3 := With(n, t, Suspended(w), Holder(t), UNLOCKED, s);
    var n4 := With(n, t, Locked(w), Holder(t), UNMODIFIED, s);
    var n5 := With(n, t, Recheck(w), Holder(t), UNMODIFIED, s);
    var n6 := With(n, t, Enqueue(w), Holder(t), UNMODIFIED, s);
    var n7 := With(n, t, Unlocking(w, Block), Holder(t), UNMODIFIED, r);
    var n8 := With(n, t, HalfUnlocked(w, Block), Holder(t), UNMODIFIED, r);
    var n9 := With(n, t, Resuming(w, Block), Holder(t), UNLOCKED, r);
    var n10 := With(n, t, Parked(w), Nobody, UNLOCKED, r);
    FirstHalf(n, t, w, place);
    SecondHalf(n, t, w, place);
    LastHalf(n, t, w, place);
    Half(n, t, w, place);
    hide Apply, Slept, LegalRun, Final;
    Ends(n10);
    Then(n9, a, n10, []);
    Then(n8.(q := n8.q.(txLock := UNLOCKED)), a, n9, [a] + []);
    Then(n7, a, n8.(q := n8.q.(txLock := UNLOCKED)), [a] + ([a] + []));
    Then(n6, a, n7, [a] + ([a] + ([a] + [])));
    Then(n5, a, n6, [a] + ([a] + ([a] + ([a] + []))));
    Then(n4, a, n5, [a] + ([a] + ([a] + ([a] + ([a] + [])))));
    Then(n3, a, n4, [a] + ([a] + ([a] + ([a] + ([a] + ([a] + []))))));
    Then(n2, a, n3, [a] + ([a] + ([a] + ([a] + ([a] + ([a] + ([a] + [])))))));
    Then(n1, a, n2, [a] + ([a] + ([a] + ([a] + ([a] + ([a] + ([a] + ([a] + []))))))));
    Then(n, Begin(t, w), n1, [a] + ([a] + ([a] + ([a] + ([a] + ([a] + ([a] + ([a] + ([a] + [])))))))));
  }

  lemma Ends(n: Net)
    ensures LegalRun(n, []) && Final(n, []) == n
  {
  }

  lemma {:induction false} OneAfterAnother(n: Net, xs: seq<Step>, ys: seq<Step>)
    requires LegalRun(n, xs) && LegalRun(Final(n, xs), ys)
    ensures LegalRun(n, xs + ys) && Final(n, xs + ys) == Final(Final(n, xs), ys)
    decreases |xs|
  {
    hide Legal, Apply;
    if xs == [] {
      assert xs + ys == ys;
    } else {
      OneAfterAnother(Apply(n, xs[0]), xs[1..], ys);
      assert (xs + ys)[0] == xs[0] && (xs + ys)[1..] == xs[1..] + ys;
    }
  }

  /** Interrupts fill a queue of two, then two tasks go to sleep sending to it. */
  const FILL: seq<Step> := [PostFromISR(1, Back), PostFromISR(2, Back)]
  const WANT: Want := ToSend(7, Back)
  const TWO_ASLEEP: seq<Step> := FILL + (Sleep(5, WANT, 0) + Sleep(6, WANT, 1))
  const FULL: Net := Net(Queue([1, 2], 2, [], [], UNLOCKED, UNLOCKED), map[], Nobody, {}, {}, [1, 2], [])

  lemma Fills()
    ensures LegalRun(Fresh(2), FILL) && Final(Fresh(2), FILL) == FULL
  {
    var n := Fresh(2);
    var a := PostFromISR(1, Back);
    var b := PostFromISR(2, Back);
    var m := n.(q := n.q.(items := [1]), sent := [1]);
    assert Apply(n, a) == m && Apply(m, b) == FULL;
    Ends(FULL);
    hide Apply;
    Then(m, b, FULL, []);
    Then(n, a, m, [b] + []);
    assert FILL == [a] + ([b] + []);
  }

  lemma BothSleep()
    ensures LegalRun(Fresh(2), TWO_ASLEEP)
    ensures var n := Final(Fresh(2), TWO_ASLEEP);
      n.q.senders == [5, 6] && n.q.items == [1, 2] && n.q.length == 2 && n.owner == Nobody && n.wokenS == {}
  {
    Fills();
    Sleeps(FULL, 5, WANT, 0);
    var n5 := With(FULL, 5, Parked(WANT), Nobody, UNLOCKED, Slept(FULL, 5, 0));
    assert Slept(FULL, 5, 0) == [5];
    Sleeps(n5, 6, WANT, 1);
    assert Slept(n5, 6, 1) == [5, 6];
    hide LegalRun, Final, Slept, Sleep;
    OneAfterAnother(FULL, Sleep(5, WANT, 0), Sleep(6, WANT, 1));
    OneAfterAnother(Fresh(2), FILL, Sleep(5, WANT, 0) + Sleep(6, WANT, 1));
  }

  /** In a legal run two senders come to sleep on a full queue of two; a reset then frees both
      slots and wakes one of them. */
  lemma ResetLosesOne()
    ensures LegalRun(Fresh(2), TWO_ASLEEP)
    ensures var n := Final(Fresh(2), TWO_ASLEEP); n.owner == Nobody && !NoLostWakeup(ResetNet(n))
  {
    BothSleep();
    assert Inv(Fresh(2));
    RunKeeps(Fresh(2), TWO_ASLEEP);
    hide Inv, LegalRun, Final, NoLostWakeup;
    ResetExact(Final(Fresh(2), TWO_ASLEEP));
  }

  // ----- 128 interrupts in one lock window

  /** A locked queue after posts from interrupts. */
  function Posts(q: Queue, xs: seq<Item>): Queue
    decreases |xs|
  {
    if xs == [] then q else Posts(SendFromISR(q, xs[0], Back), xs[1..])
  }

  /** The lock count after k increments from 0. */
  function Wrapped(k: nat): int8 {
    (k + 128) % 256 - 128
  }

  lemma WrappedNext(k: nat)
    ensures Increment(Wrapped(k)) == Wrapped(k + 1)
  {
    ModSucc(k + 128, 256);
  }

  lemma {:induction false} PostsCount(q: Queue, xs: seq<Item>, k: nat)
    requires q.txLock == Wrapped(k) && k + |xs| <= 255 && |q.items| + |xs| <= q.length
    ensures Posts(q, xs) == q.(items := q.items + xs, txLock := Wrapped(k + |xs|))
    decreases |xs|
  {
    if xs == [] {
      assert q.items + xs == q.items;
    } else {
      WrappedNext(k);
      var m := SendFromISR(q, xs[0], Back);
      assert m == q.(items := q.items + [xs[0]], txLock := Wrapped(k + 1));
      assert q.items + xs == m.items + xs[1..];
      PostsCount(m, xs[1..], k + 1);
    }
  }

  /** How many of the waiting receivers ought to be woken for k items posted while locked. */
  function ShouldWake(k: nat, waiting: seq<Task>): nat {
    if k <= |waiting| then k else |waiting|
  }

  /** Posts to an unlocked queue wake a receiver each. */
  lemma {:induction false} PostsWake(q: Queue, xs: seq<Item>)
    requires q.txLock == UNLOCKED && |q.items| + |xs| <= q.length
    ensures var r := Posts(q, xs);
      r.txLock == UNLOCKED && r.receivers == q.receivers[ShouldWake(|xs|, q.receivers)..]
    decreases |xs|
  {
    if xs != [] { PostsWake(SendFromISR(q, xs[0], Back), xs[1..]); }
  }

  lemma {:induction false} PostsTwice(q: Queue, xs: seq<Item>, ys: seq<Item>)
    ensures Posts(q, xs + ys) == Posts(Posts(q, xs), ys)
    decreases |xs|
  {
    if xs == [] {
      assert xs + ys == ys;
    } else {
      assert (xs + ys)[0] == xs[0] && (xs + ys)[1..] == xs[1..] + ys;
      PostsTwice(SendFromISR(q, xs[0], Back), xs[1..], ys);
    }
  }

  /** The count is an int8_t. From 128 posts on it is negative and unlocking wakes nobody; the
      255th brings it to queueUNLOCKED, and from then on each post wakes a receiver at once. So as
      many receivers are woken as ought to be exactly when at most 127 items came in, or nobody
      waits, or the posts after the 255th are enough for all that wait. */
  lemma LockCountExact(q: Queue, xs: seq<Item>)
    requires q.txLock == UNMODIFIED && |q.items| + |xs| <= q.length
    ensures |UnlockTx(Posts(q, xs)).receivers| == |q.receivers| - ShouldWake(|xs|, q.receivers) <==>
      |xs| <= INT8_MAX || q.receivers == [] || |q.receivers| <= |xs| - 255
  {
    if |xs| <= 255 { FewPosts(q, xs); } else { ManyPosts(q, xs); }
    hide Posts, UnlockTx;
  }

  lemma FewPosts(q: Queue, xs: seq<Item>)
    requires q.txLock == UNMODIFIED && |q.items| + |xs| <= q.length && |xs| <= 255
    ensures |UnlockTx(Posts(q, xs)).receivers| ==
      |q.receivers| - if |xs| <= INT8_MAX then ShouldWake(|xs|, q.receivers) else 0
  {
    hide Posts;
    PostsCount(q, xs, 0);
  }

  lemma ManyPosts(q: Queue, xs: seq<Item>)
    requires q.txLock == UNMODIFIED && |q.items| + |xs| <= q.length && |xs| > 255
    ensures |UnlockTx(Posts(q, xs)).receivers| == |q.receivers| - ShouldWake(|xs| - 255, q.receivers)
  {
    hide Posts;
    var a, b := xs[..255], xs[255..];
    assert xs == a + b;
    PostsCount(q, a, 0);
    PostsTwice(q, a, b);
    PostsWake(Posts(q, a), b);
  }

  /** 128 items posted while the only receiver goes to sleep: it is left asleep on all of them. */
  lemma LockCountOverflow(xs: seq<Item>, t: Task)
    requires |xs| == 128
    ensures var q := UnlockTx(Posts(Queue([], 200, [t], [], UNMODIFIED, UNMODIFIED), xs));
      q.receivers == [t] && q.items == xs && q.txLock == UNLOCKED
  {
    var q := Queue([], 200, [t], [], UNMODIFIED, UNMODIFIED);
    PostsCount(q, xs, 0);
  }
}
