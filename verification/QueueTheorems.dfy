/** Conservation of the data in a queue, over whole runs. */
module QueueTheorems {
  import opened Rings
  import opened Queues
  import opened QueueProtocol

  // ----- the data

  predicate BackWant(w: Want) {
    w.ToSend? ==> w.position == Back
  }

  predicate BackStep(s: Step) {
    match s
    case Begin(_, w) => BackWant(w)
    case PostFromISR(_, p) => p == Back
    case _ => true
  }

  predicate AllBack(steps: seq<Step>) {
    forall i :: 0 <= i < |steps| ==> BackStep(steps[i])
  }

  /** What has come out, then what is still inside, is what went in. */
  ghost predicate InOrder(n: Net) {
    n.received + n.q.items == n.sent && forall t :: !PcOf(n, t).Outside? ==> BackWant(PcOf(n, t).want)
  }

  lemma OtherPcs(n: Net, m: Net, t: Task)
    requires m.pc == n.pc || (t in m.pc && m.pc == n.pc[t := m.pc[t]])
    ensures forall u :: u != t || m.pc == n.pc ==> PcOf(m, u) == PcOf(n, u)
  {
  }

  lemma TurnInOrder(n: Net, t: Task, choice: bool, place: nat)
    requires InOrder(n)
    ensures InOrder(TaskTurn(n, t, choice, place))
  {
    var m := TaskTurn(n, t, choice, place);
    assert m.pc == n.pc || m.pc == n.pc[t := PcOf(m, t)];
    OtherPcs(n, m, t);
    assert !PcOf(n, t).Outside? ==> BackWant(PcOf(n, t).want);
    assert !PcOf(m, t).Outside? ==> BackWant(PcOf(m, t).want);
    TurnData(n, t, choice, place);
    hide TaskTurn;
  }

  /** Receiving takes the oldest item, sending adds the newest; nothing else touches the data. */
  lemma TurnData(n: Net, t: Task, choice: bool, place: nat)
    requires n.received + n.q.items == n.sent && (!PcOf(n, t).Outside? ==> BackWant(PcOf(n, t).want))
    ensures var m := TaskTurn(n, t, choice, place); m.received + m.q.items == m.sent
  {
    var p := PcOf(n, t);
    if p.Check? {
      CheckData(n, t, choice, p.want);
    } else {
      OtherData(n, t, choice, place);
    }
    hide TaskTurn, CheckReceive, CheckPeek, CheckSend;
  }

  lemma CheckData(n: Net, t: Task, choice: bool, w: Want)
    requires PcOf(n, t) == Check(w) && n.received + n.q.items == n.sent && BackWant(w)
    ensures var m := TaskTurn(n, t, choice, 0); m.received + m.q.items == m.sent
  {
    var m := TaskTurn(n, t, choice, 0);
    if w.ToReceive? && n.q.items != [] {
      assert n.q.items == [n.q.items[0]] + n.q.items[1..];
    } else if w.ToSend? && HasRoom(n.q, Back) {
      assert m.q.items == n.q.items + [w.item] && m.sent == n.sent + [w.item] && m.received == n.received;
    }
    hide First;
  }

  lemma OtherData(n: Net, t: Task, choice: bool, place: nat)
    requires !PcOf(n, t).Check?
    ensures var m := TaskTurn(n, t, choice, place);
      m.received == n.received && m.q.items == n.q.items && m.sent == n.sent
  {
    hide First, Splice, Owed, CheckReceive, CheckPeek, CheckSend;
  }

  lemma StepInOrder(n: Net, s: Step)
    requires InOrder(n) && BackStep(s)
    ensures InOrder(Apply(n, s))
  {
    match s
    case Begin(t, w) => OtherPcs(n, Apply(n, s), t);
    case Turn(t, choice, place) => TurnInOrder(n, t, choice, place); hide TaskTurn;
    case PostFromISR(x, p) => OtherPcs(n, Apply(n, s), 0); PostInOrder(n, x); hide Posted;
    case TakeFromISR => OtherPcs(n, Apply(n, s), 0); TakeInOrder(n); hide Taken;
    case Timeout(t) => OtherPcs(n, Apply(n, s), t);
  }

  lemma PostInOrder(n: Net, x: Item)
    requires InOrder(n)
    ensures InOrder(Posted(n, x, Back))
  {
    var m := Posted(n, x, Back);
    OtherPcs(n, m, 0);
    if HasRoom(n.q, Back) {
      assert m.q.items == n.q.items + [x] && m.sent == n.sent + [x] && m.received == n.received;
      assert n.received + (n.q.items + [x]) == (n.received + n.q.items) + [x];
    }
  }

  lemma TakeInOrder(n: Net)
    requires InOrder(n)
    ensures InOrder(Taken(n))
  {
    var m := Taken(n);
    OtherPcs(n, m, 0);
    if n.q.items != [] {
      assert n.q.items == [n.q.items[0]] + n.q.items[1..];
    }
  }

  lemma {:induction false} RunInOrder(n: Net, steps: seq<Step>)
    requires InOrder(n) && AllBack(steps)
    ensures InOrder(Final(n, steps))
    decreases |steps|
  {
    if steps != [] {
      StepInOrder(n, steps[0]);
      hide InOrder, Apply, BackStep;
      forall i | 0 <= i < |steps[1..]| ensures BackStep(steps[1..][i]) { assert steps[1..][i] == steps[i + 1]; }
      RunInOrder(Apply(n, steps[0]), steps[1..]);
    }
  }

  /** First in, first out over whole runs: with sends to the back, however tasks and interrupts
      interleave, the items received are exactly the first items sent, in order. */
  lemma FirstInFirstOut(length: nat, steps: seq<Step>)
    requires AllBack(steps)
    ensures var n := Final(Fresh(length), steps);
      n.received + n.q.items == n.sent && n.received <= n.sent
  {
    RunInOrder(Fresh(length), steps);
  }
}
