/** One blocking call on a queue from beginning to end, with nobody in between: whichever way it goes,
    through the locked part of the loop and out again. */
module QueueCalls {
  import opened Rings
  import opened Queues
  import opened QueueProtocol

  /** t takes k turns; choice says whether its block time is up. */
  function Go(n: Net, t: Task, choice: bool, place: nat, k: nat): Net {
    if k == 0 then n else TaskTurn(Go(n, t, choice, place, k - 1), t, choice, place)
  }

  /** r is n but for where t is, who has suspended the scheduler, the lock counts and the event lists. */
  ghost predicate At(n: Net, r: Net, t: Task, p: Pc, o: Owner, tx: int8, rx: int8, rs: seq<Task>, ss: seq<Task>) {
    && PcOf(r, t) == p && (forall u :: u != t ==> PcOf(r, u) == PcOf(n, u)) && r.owner == o
    && r.q == n.q.(txLock := tx, rxLock := rx, receivers := rs, senders := ss)
    && r.wokenR == n.wokenR && r.wokenS == n.wokenS && r.sent == n.sent && r.received == n.received
  }

  /** As many places as are left of the one given, or at the end. */
  function PutIn(s: seq<Task>, place: nat, t: Task): seq<Task> {
    var k := if place <= |s| then place else |s|;
    s[..k] + [t] + s[k..]
  }

  /** There is nothing to be had: no item, or no room. */
  predicate Nothing(q: Queue, w: Want) {
    if w.ToSend? then |q.items| == q.length else q.items == []
  }

  // ----- one turn each

  lemma SawTurn(n: Net, r: Net, t: Task, w: Want, c: bool, place: nat, rs: seq<Task>, ss: seq<Task>)
    requires At(n, r, t, Saw(w), Nobody, UNLOCKED, UNLOCKED, rs, ss)
    ensures At(n, TaskTurn(r, t, c, place), t, Suspended(w), Holder(t), UNLOCKED, UNLOCKED, rs, ss)
  {
  }

  lemma SuspendedTurn(n: Net, r: Net, t: Task, w: Want, c: bool, place: nat, rs: seq<Task>, ss: seq<Task>)
    requires At(n, r, t, Suspended(w), Holder(t), UNLOCKED, UNLOCKED, rs, ss)
    ensures At(n, TaskTurn(r, t, c, place), t, Locked(w), Holder(t), UNMODIFIED, UNMODIFIED, rs, ss)
  {
  }

  lemma LockedTurn(n: Net, r: Net, t: Task, w: Want, c: bool, place: nat, rs: seq<Task>, ss: seq<Task>)
    requires At(n, r, t, Locked(w), Holder(t), UNMODIFIED, UNMODIFIED, rs, ss)
    ensures At(n, TaskTurn(r, t, c, place), t, if c then Unlocking(w, GiveUp) else Recheck(w), Holder(t),
               UNMODIFIED, UNMODIFIED, rs, ss)
  {
  }

  lemma RecheckTurn(n: Net, r: Net, t: Task, w: Want, c: bool, place: nat, rs: seq<Task>, ss: seq<Task>)
    requires At(n, r, t, Recheck(w), Holder(t), UNMODIFIED, UNMODIFIED, rs, ss) && |n.q.items| <= n.q.length
    ensures At(n, TaskTurn(r, t, c, place), t, if Nothing(n.q, w) then Enqueue(w) else Unlocking(w, Retry), Holder(t),
               UNMODIFIED, UNMODIFIED, rs, ss)
  {
  }

  lemma EnqueueTurn(n: Net, r: Net, t: Task, w: Want, c: bool, place: nat, rs: seq<Task>, ss: seq<Task>)
    requires At(n, r, t, Enqueue(w), Holder(t), UNMODIFIED, UNMODIFIED, rs, ss)
    ensures At(n, TaskTurn(r, t, c, place), t, Unlocking(w, Block), Holder(t), UNMODIFIED, UNMODIFIED,
               if w.ToSend? then rs else PutIn(rs, place, t), if w.ToSend? then PutIn(ss, place, t) else ss)
  {
  }

  lemma FirstHalfTurn(n: Net, r: Net, t: Task, w: Want, a: After, c: bool, place: nat, rs: seq<Task>, ss: seq<Task>)
    requires At(n, r, t, Unlocking(w, a), Holder(t), UNMODIFIED, UNMODIFIED, rs, ss)
    ensures At(n, TaskTurn(r, t, c, place), t, HalfUnlocked(w, a), Holder(t), UNLOCKED, UNMODIFIED, rs, ss)
  {
    assert First(rs, 0) == {} && rs[0..] == rs;
    hide First;
  }

  lemma SecondHalfTurn(n: Net, r: Net, t: Task, w: Want, a: After, c: bool, place: nat, rs: seq<Task>, ss: seq<Task>)
    requires At(n, r, t, HalfUnlocked(w, a), Holder(t), UNLOCKED, UNMODIFIED, rs, ss)
    ensures At(n, TaskTurn(r, t, c, place), t, Resuming(w, a), Holder(t), UNLOCKED, UNLOCKED, rs, ss)
  {
    assert First(ss, 0) == {} && ss[0..] == ss;
    hide First;
  }

  lemma ResumingTurn(n: Net, r: Net, t: Task, w: Want, a: After, c: bool, place: nat, rs: seq<Task>, ss: seq<Task>)
    requires At(n, r, t, Resuming(w, a), Holder(t), UNLOCKED, UNLOCKED, rs, ss)
    ensures At(n, TaskTurn(r, t, c, place), t, Afterwards(w, a), Nobody, UNLOCKED, UNLOCKED, rs, ss)
  {
  }

  /** Asleep, at the top of the loop again, or about to return. */
  function Afterwards(w: Want, a: After): Pc {
    match a
    case Block => Parked(w)
    case Retry => Check(w)
    case GiveUp => if w.ToSend? then Outside else GaveUp(w)
  }

  /** prvUnlockQueue and xTaskResumeAll. */
  lemma UnlocksAndResumes(n: Net, r: Net, t: Task, w: Want, a: After, c: bool, place: nat, rs: seq<Task>, ss: seq<Task>)
    requires At(n, r, t, Unlocking(w, a), Holder(t), UNMODIFIED, UNMODIFIED, rs, ss)
    ensures At(n, TaskTurn(TaskTurn(TaskTurn(r, t, c, place), t, c, place), t, c, place), t,
               Afterwards(w, a), Nobody, UNLOCKED, UNLOCKED, rs, ss)
  {
    hide *;
    var u := TaskTurn(r, t, c, place);
    var v := TaskTurn(u, t, c, place);
    FirstHalfTurn(n, r, t, w, a, c, place, rs, ss);
    SecondHalfTurn(n, u, t, w, a, c, place, rs, ss);
    ResumingTurn(n, v, t, w, a, c, place, rs, ss);
  }

  /** Suspends the scheduler, locks the queue and looks at the block time. */
  lemma Locks(n: Net, t: Task, w: Want, c: bool, place: nat)
    requires PcOf(n, t) == Saw(w) && n.owner == Nobody && n.q.txLock == n.q.rxLock == UNLOCKED
    ensures At(n, Go(n, t, c, place, 3), t, if c then Unlocking(w, GiveUp) else Recheck(w), Holder(t),
               UNMODIFIED, UNMODIFIED, n.q.receivers, n.q.senders)
  {
    var rs, ss := n.q.receivers, n.q.senders;
    assert At(n, n, t, Saw(w), Nobody, UNLOCKED, UNLOCKED, rs, ss);
    GoThree(n, t, c, place);
    hide *;
    var u := TaskTurn(n, t, c, place);
    var v := TaskTurn(u, t, c, place);
    SawTurn(n, n, t, w, c, place, rs, ss);
    SuspendedTurn(n, u, t, w, c, place, rs, ss);
    LockedTurn(n, v, t, w, c, place, rs, ss);
  }

  lemma GoThree(n: Net, t: Task, c: bool, place: nat)
    ensures Go(n, t, c, place, 3) == TaskTurn(TaskTurn(TaskTurn(n, t, c, place), t, c, place), t, c, place)
  {
    hide TaskTurn;
    assert Go(n, t, c, place, 2) == TaskTurn(Go(n, t, c, place, 1), t, c, place);
    assert Go(n, t, c, place, 1) == TaskTurn(Go(n, t, c, place, 0), t, c, place);
  }

  lemma {:induction false} GoOn(n: Net, t: Task, c: bool, place: nat, j: nat, k: nat)
    ensures Go(n, t, c, place, j + k) == Go(Go(n, t, c, place, j), t, c, place, k)
  {
    hide TaskTurn;
    if k > 0 { GoOn(n, t, c, place, j, k - 1); }
  }

  // ----- whole calls

  /** A task that finds nothing to be had, and still does when it looks again with the queue locked,
      goes to sleep on the event list; the queue is left unlocked and the scheduler running. */
  lemma SleepsWhenItMust(n: Net, t: Task, w: Want, place: nat)
    requires PcOf(n, t) == Saw(w) && n.owner == Nobody && n.q.txLock == n.q.rxLock == UNLOCKED
    requires Nothing(n.q, w) && |n.q.items| <= n.q.length
    ensures At(n, Go(n, t, false, place, 8), t, Parked(w), Nobody, UNLOCKED, UNLOCKED,
               if w.ToSend? then n.q.receivers else PutIn(n.q.receivers, place, t),
               if w.ToSend? then PutIn(n.q.senders, place, t) else n.q.senders)
  {
    var rs, ss := n.q.receivers, n.q.senders;
    var x := Go(n, t, false, place, 3);
    Locks(n, t, w, false, place);
    RecheckTurn(n, x, t, w, false, place, rs, ss);
    var y := TaskTurn(x, t, false, place);
    EnqueueTurn(n, y, t, w, false, place, rs, ss);
    var z := TaskTurn(y, t, false, place);
    GoFive(n, t, false, place);
    hide *;
    UnlocksAndResumes(n, z, t, w, Block, false, place,
                      if w.ToSend? then rs else PutIn(rs, place, t), if w.ToSend? then PutIn(ss, place, t) else ss);
  }

  lemma GoFive(n: Net, t: Task, c: bool, place: nat)
    ensures var z := TaskTurn(TaskTurn(Go(n, t, c, place, 3), t, c, place), t, c, place);
      Go(n, t, c, place, 8) == TaskTurn(TaskTurn(TaskTurn(z, t, c, place), t, c, place), t, c, place)
  {
    hide TaskTurn;
    GoOn(n, t, c, place, 3, 5);
    var x := Go(n, t, c, place, 3);
    GoOn(x, t, c, place, 2, 3);
    GoThree(Go(x, t, c, place, 2), t, c, place);
    assert Go(x, t, c, place, 2) == TaskTurn(Go(x, t, c, place, 1), t, c, place);
    assert Go(x, t, c, place, 1) == TaskTurn(Go(x, t, c, place, 0), t, c, place);
  }

  /** When there is something after all, it unlocks the queue and tries again from the top. */
  lemma RetriesWhenItNeedNot(n: Net, t: Task, w: Want, place: nat)
    requires PcOf(n, t) == Saw(w) && n.owner == Nobody && n.q.txLock == n.q.rxLock == UNLOCKED
    requires !Nothing(n.q, w) && |n.q.items| <= n.q.length
    ensures At(n, Go(n, t, false, place, 7), t, Check(w), Nobody, UNLOCKED, UNLOCKED, n.q.receivers, n.q.senders)
  {
    var rs, ss := n.q.receivers, n.q.senders;
    var x := Go(n, t, false, place, 3);
    Locks(n, t, w, false, place);
    RecheckTurn(n, x, t, w, false, place, rs, ss);
    GoFour(n, t, false, place);
    hide *;
    UnlocksAndResumes(n, TaskTurn(x, t, false, place), t, w, Retry, false, place, rs, ss);
  }

  lemma GoFour(n: Net, t: Task, c: bool, place: nat)
    ensures var y := TaskTurn(Go(n, t, c, place, 3), t, c, place);
      Go(n, t, c, place, 7) == TaskTurn(TaskTurn(TaskTurn(y, t, c, place), t, c, place), t, c, place)
  {
    hide TaskTurn;
    GoOn(n, t, c, place, 4, 3);
    GoThree(Go(n, t, c, place, 4), t, c, place);
  }

  /** When its block time is up, it unlocks the queue and returns; a receiver first takes one last
      look, and starts again if an item has come in. */
  lemma GivesUpInTime(n: Net, t: Task, w: Want, place: nat)
    requires PcOf(n, t) == Saw(w) && n.owner == Nobody && n.q.txLock == n.q.rxLock == UNLOCKED
    ensures var r := Go(n, t, true, place, 6);
      var p := if w.ToSend? || n.q.items == [] then Outside else Check(w);
      At(n, if w.ToSend? then r else TaskTurn(r, t, true, place), t, p, Nobody, UNLOCKED, UNLOCKED,
         n.q.receivers, n.q.senders)
  {
    AfterwardsIs(w);
    hide *;
    var rs, ss := n.q.receivers, n.q.senders;
    var x := Go(n, t, true, place, 3);
    Locks(n, t, w, true, place);
    GoOn(n, t, true, place, 3, 3);
    GoThree(x, t, true, place);
    UnlocksAndResumes(n, x, t, w, GiveUp, true, place, rs, ss);
    if !w.ToSend? { LastLook(n, Go(n, t, true, place, 6), t, w, place, rs, ss); }
  }

  lemma AfterwardsIs(w: Want)
    ensures Afterwards(w, GiveUp) == if w.ToSend? then Outside else GaveUp(w)
  {
  }

  lemma LastLook(n: Net, r: Net, t: Task, w: Want, place: nat, rs: seq<Task>, ss: seq<Task>)
    requires At(n, r, t, GaveUp(w), Nobody, UNLOCKED, UNLOCKED, rs, ss)
    ensures At(n, TaskTurn(r, t, true, place), t, if n.q.items == [] then Outside else Check(w), Nobody,
               UNLOCKED, UNLOCKED, rs, ss)
  {
  }

  /** A receiver that has been woken finds the item and returns with it; one still on the event list
      sleeps on. */
  lemma WokenReceives(n: Net, t: Task, place: nat)
    requires PcOf(n, t) == Parked(ToReceive)
    ensures t in n.q.receivers || t in n.q.senders ==> Go(n, t, false, place, 1) == n
    ensures t !in n.q.receivers && t !in n.q.senders && n.q.items != [] ==>
      var r := Go(n, t, false, place, 2);
      PcOf(r, t) == Outside && r.received == n.received + [n.q.items[0]] && r.q.items == n.q.items[1..]
  {
    hide Head, Go;
    GoOne(n, t, place);
  }

  lemma GoOne(n: Net, t: Task, place: nat)
    ensures Go(n, t, false, place, 1) == TaskTurn(n, t, false, place)
    ensures Go(n, t, false, place, 2) == TaskTurn(TaskTurn(n, t, false, place), t, false, place)
  {
    hide TaskTurn;
    assert Go(n, t, false, place, 1) == TaskTurn(Go(n, t, false, place, 0), t, false, place);
  }

  /** The tick at which a block time is up takes its task, and no other, off the event lists; the task
      then finds its way back to the top of the loop. */
  lemma TimedOutLeaves(n: Net, t: Task, place: nat)
    requires Inv(n)
    ensures var r := Apply(n, Timeout(t));
      && (forall u :: u in r.q.receivers <==> u in n.q.receivers && u != t)
      && (forall u :: u in r.q.senders <==> u in n.q.senders && u != t)
      && r == n.(q := n.q.(receivers := r.q.receivers, senders := r.q.senders))
      && (PcOf(n, t).Parked? ==> PcOf(TaskTurn(r, t, false, place), t) == Check(PcOf(n, t).want))
  {
    hide Scheduled, Members, Counted, NoLostWakeup, Sound, NoDup, Without;
    if t in n.q.receivers { WithoutMembers(n.q.receivers, t); }
    if t in n.q.senders { WithoutMembers(n.q.senders, t); }
  }
}
