/** The contents of a queue as a deque: whatever mixture of sends to the back, sends to the front and
    overwrites there is, from tasks and interrupts, the items come out as from a deque. */
module QueueDeque {
  import opened Rings
  import opened Queues
  import opened QueueProtocol

  datatype Op = PushBack(item: Item) | PushFront(item: Item) | Replace(item: Item) | Pop | Nothing

  /** The deque, and what comes out of it. */
  function Play(d: seq<Item>, op: Op): seq<Item> {
    match op
    case PushBack(x) => d + [x]
    case PushFront(x) => [x] + d
    case Replace(x) => [x]
    case Pop => if d == [] then [] else d[1..]
    case Nothing => d
  }

  function Out(d: seq<Item>, op: Op): seq<Item> {
    if op.Pop? && d != [] then [d[0]] else []
  }

  function PlayAll(d: seq<Item>, ops: seq<Op>): seq<Item>
    decreases |ops|
  {
    if ops == [] then d else PlayAll(Play(d, ops[0]), ops[1..])
  }

  function OutAll(d: seq<Item>, ops: seq<Op>): seq<Item>
    decreases |ops|
  {
    if ops == [] then [] else Out(d, ops[0]) + OutAll(Play(d, ops[0]), ops[1..])
  }

  function Push(x: Item, p: Position): Op {
    match p
    case Back => PushBack(x)
    case Front => PushFront(x)
    case Overwrite => Replace(x)
  }

  /** What a step of the protocol means for the data: a send when there is room, or to overwrite; a
      receive when there is something; nothing else. */
  function OpOf(n: Net, s: Step): Op {
    match s
    case Turn(t, _, _) =>
      (match PcOf(n, t)
       case Check(ToReceive) => if n.q.items != [] then Pop else Nothing
       case Check(ToSend(x, p)) => if |n.q.items| < n.q.length || p == Overwrite then Push(x, p) else Nothing
       case _ => Nothing)
    case PostFromISR(x, p) => if |n.q.items| < n.q.length || p == Overwrite then Push(x, p) else Nothing
    case TakeFromISR => if n.q.items != [] then Pop else Nothing
    case _ => Nothing
  }

  function Ops(n: Net, steps: seq<Step>): seq<Op>
    decreases |steps|
  {
    if steps == [] then [] else [OpOf(n, steps[0])] + Ops(Apply(n, steps[0]), steps[1..])
  }

  // ----- one step

  ghost predicate Plays(n: Net, m: Net, op: Op) {
    m.q.items == Play(n.q.items, op) && m.received == n.received + Out(n.q.items, op) && m.q.length == n.q.length
  }

  /** prvCopyDataToQueue with room for the item, or a queue of length 1 to be overwritten. */
  lemma PutPlays(q: Queue, x: Item, p: Position)
    requires p == Overwrite ==> |q.items| <= 1
    ensures Put(q, x, p).items == Play(q.items, Push(x, p)) && Put(q, x, p).length == q.length
  {
  }

  lemma SendPlays(n: Net, t: Task, x: Item, p: Position, choice: bool)
    requires PcOf(n, t) == Check(ToSend(x, p)) && (p == Overwrite ==> |n.q.items| <= 1)
    ensures Plays(n, CheckSend(n, t, x, p, choice), OpOf(n, Turn(t, choice, 0)))
  {
    PutPlays(n.q, x, p);
    hide Put, Head;
  }

  lemma ReceivePlays(n: Net, t: Task, choice: bool)
    requires PcOf(n, t) == Check(ToReceive)
    ensures Plays(n, CheckReceive(n, t, choice), OpOf(n, Turn(t, choice, 0)))
  {
    hide Head;
  }

  lemma OtherPlays(n: Net, t: Task, choice: bool, place: nat)
    requires !PcOf(n, t).Check? || PcOf(n, t).want.ToPeek?
    ensures Plays(n, TaskTurn(n, t, choice, place), Nothing)
  {
    hide First, Splice, Owed, CheckReceive, CheckSend, Head;
  }

  lemma TurnPlays(n: Net, t: Task, choice: bool, place: nat)
    requires Inv(n)
    ensures Plays(n, TaskTurn(n, t, choice, place), OpOf(n, Turn(t, choice, place)))
  {
    InvParts(n);
    WantFits(n, t);
    assert 0 < n.q.length && |n.q.items| <= n.q.length by { hide NoDup; }
    hide Inv, Shape, Scheduled, Members, Counted, NoLostWakeup, Sound, Plays;
    match PcOf(n, t)
    case Check(ToReceive) => ReceivePlays(n, t, choice); hide CheckReceive;
    case Check(ToSend(x, p)) => SendPlays(n, t, x, p, choice); hide CheckSend;
    case _ => OtherPlays(n, t, choice, place); hide TaskTurn;
  }

  lemma PostPlays(n: Net, x: Item, p: Position)
    requires p == Overwrite ==> |n.q.items| <= 1
    ensures Plays(n, Posted(n, x, p), OpOf(n, PostFromISR(x, p)))
  {
    PutPlays(n.q, x, p);
    hide Put, Head;
  }

  lemma StepPlays(n: Net, s: Step)
    requires Inv(n) && Legal(n, s)
    ensures Plays(n, Apply(n, s), OpOf(n, s))
  {
    assert 0 < n.q.length && |n.q.items| <= n.q.length by {
      hide NoDup, Scheduled, Members, Counted, NoLostWakeup, Sound;
    }
    hide Inv;
    match s
    case Begin(t, w) =>
    case Turn(t, choice, place) => TurnPlays(n, t, choice, place); hide TaskTurn, OpOf, Plays;
    case PostFromISR(x, p) => PostPlays(n, x, p); hide Posted, OpOf, Plays;
    case TakeFromISR => hide Head;
    case Timeout(t) => hide Without;
  }

  // ----- whole runs

  ghost predicate PlayedAll(n: Net, m: Net, ops: seq<Op>) {
    m.q.items == PlayAll(n.q.items, ops) && m.received == n.received + OutAll(n.q.items, ops)
  }

  lemma PlayedOn(n: Net, r: Net, m: Net, op: Op, ops: seq<Op>)
    requires Plays(n, r, op) && PlayedAll(r, m, ops)
    ensures PlayedAll(n, m, [op] + ops)
  {
    hide Play, Out, PlayAll, OutAll;
    PlayOneMore(n.q.items, op, ops);
    var a, b, c := n.received, Out(n.q.items, op), OutAll(r.q.items, ops);
    assert a + (b + c) == (a + b) + c;
  }

  lemma {:induction false} RunPlays(n: Net, steps: seq<Step>)
    requires Inv(n) && LegalRun(n, steps)
    ensures PlayedAll(n, Final(n, steps), Ops(n, steps))
    decreases |steps|
  {
    hide Inv, Apply, Legal, OpOf, Ops, PlayedAll, Plays;
    if steps == [] {
      NothingPlayed(n);
    } else {
      StepKeeps(n, steps[0]);
      StepPlays(n, steps[0]);
      RunPlays(Apply(n, steps[0]), steps[1..]);
      OpsSplit(n, steps);
      PlayedOn(n, Apply(n, steps[0]), Final(n, steps), OpOf(n, steps[0]), Ops(Apply(n, steps[0]), steps[1..]));
    }
  }

  lemma NothingPlayed(n: Net)
    ensures PlayedAll(n, n, Ops(n, []))
  {
  }

  lemma OpsSplit(n: Net, steps: seq<Step>)
    requires steps != []
    ensures Ops(n, steps) == [OpOf(n, steps[0])] + Ops(Apply(n, steps[0]), steps[1..])
  {
  }

  lemma PlayOneMore(d: seq<Item>, op: Op, ops: seq<Op>)
    ensures PlayAll(d, [op] + ops) == PlayAll(Play(d, op), ops)
    ensures OutAll(d, [op] + ops) == Out(d, op) + OutAll(Play(d, op), ops)
  {
    assert ([op] + ops)[1..] == ops;
  }

  /** Over every run, with sends to either end and overwrites, by tasks and interrupts in any
      interleaving: a queue holds what a deque holds after the same operations, and has handed out
      what the deque has, in the same order. */
  lemma ComesOutAsFromADeque(length: nat, steps: seq<Step>)
    requires length > 0 && LegalRun(Fresh(length), steps)
    ensures var n := Final(Fresh(length), steps);
      var ops := Ops(Fresh(length), steps);
      n.q.items == PlayAll([], ops) && n.received == OutAll([], ops)
  {
    assert Inv(Fresh(length));
    RunPlays(Fresh(length), steps);
  }

  /** In every reachable state: an item sent to the front is the next one handed out, and what was
      there before is there again. */
  lemma FrontComesNext(length: nat, steps: seq<Step>, t: Task, x: Item, u: Task)
    requires length > 0 && LegalRun(Fresh(length), steps)
    requires var n := Final(Fresh(length), steps);
      && n.owner == Nobody && PcOf(n, t) == Check(ToSend(x, Front)) && |n.q.items| < n.q.length
      && u != t && PcOf(n, u) == Check(ToReceive)
    ensures var n := Final(Fresh(length), steps);
      var m := TaskTurn(TaskTurn(n, t, false, 0), u, false, 0);
      m.received == n.received + [x] && m.q.items == n.q.items
  {
    var n := Final(Fresh(length), steps);
    assert Inv(Fresh(length));
    RunKeeps(Fresh(length), steps);
    var r := TaskTurn(n, t, false, 0);
    hide Inv, LegalRun, Final, TaskTurn, Play, Out;
    TurnKeeps(n, t, false, 0);
    TurnPlays(n, t, false, 0);
    OthersStay(n, t, u);
    TurnPlays(r, u, false, 0);
    FrontPops(n.q.items, x);
  }

  lemma FrontPops(d: seq<Item>, x: Item)
    ensures var e := Play(d, PushFront(x));
      e != [] && Play(e, Pop) == d && Out(e, Pop) == [x] && Out(d, PushFront(x)) == []
  {
  }

  lemma OthersStay(n: Net, t: Task, u: Task)
    requires u != t && PcOf(n, t).Check?
    ensures PcOf(TaskTurn(n, t, false, 0), u) == PcOf(n, u)
  {
    hide Head, Put;
  }
}
