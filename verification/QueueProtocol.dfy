/** Blocking on a queue as a protocol: every critical section of queue.c is one atomic step, and
    other tasks and interrupts come in between wherever the code lets them. */
module QueueProtocol {
  import opened Rings
  import opened Queues

  datatype Want = ToReceive | ToPeek | ToSend(item: Item, position: Position)

  /** What a task does once it has unlocked the queue and resumed the scheduler. */
  datatype After = Block | Retry | GiveUp

  /** Where a task stands in xQueueGenericSend, xQueueReceive or xQueuePeek. */
  datatype Pc =
    | Outside
    | Check(want: Want)                        // at the top of the loop
    | Saw(want: Want)                          // found the queue empty, or full
    | Suspended(want: Want)                    // vTaskSuspendAll is done
    | Locked(want: Want)                       // prvLockQueue is done
    | Recheck(want: Want)                      // the block time has not run out
    | Enqueue(want: Want)                      // the queue is still empty, or full
    | Unlocking(want: Want, after: After)      // before the first half of prvUnlockQueue
    | HalfUnlocked(want: Want, after: After)   // before the second half
    | Resuming(want: Want, after: After)       // before xTaskResumeAll
    | GaveUp(want: Want)                       // timed out, one last look at the queue
    | Parked(want: Want)                       // yielded until taken off the event list

  datatype Owner = Nobody | Holder(task: Task)

  datatype Net = Net(
    q: Queue,
    pc: map<Task, Pc>,
    owner: Owner,             // who has suspended the scheduler
    wokenR: set<Task>,        // taken off xTasksWaitingToReceive by data, not yet retried
    wokenS: set<Task>,        // taken off xTasksWaitingToSend by space, not yet retried
    sent: seq<Item>,
    received: seq<Item>
  )

  datatype Step =
    | Begin(task: Task, want: Want)
    | Turn(task: Task, choice: bool, place: nat)
    | PostFromISR(item: Item, position: Position)
    | TakeFromISR
    | Timeout(task: Task)

  function PcOf(n: Net, t: Task): Pc {
    if t in n.pc then n.pc[t] else Outside
  }

  function Goto(n: Net, t: Task, p: Pc): Net {
    n.(pc := n.pc[t := p])
  }

  function First(s: seq<Task>, k: nat): (r: set<Task>)
    requires k <= |s|
    ensures forall t :: t in r <==> t in s[..k]
  {
    set t | t in s[..k]
  }

  function Head(s: seq<Task>): set<Task> {
    if s == [] then {} else First(s, 1)
  }

  // ----- the critical section at the top of the loops

  function CheckReceive(n: Net, t: Task, noWait: bool): Net {
    if n.q.items != [] then
      Goto(n, t, Outside).(
        q := Receive(n.q), wokenR := n.wokenR - {t}, wokenS := n.wokenS + Head(n.q.senders),
        received := n.received + [n.q.items[0]])
    else
      Goto(n, t, if noWait then Outside else Saw(ToReceive)).(wokenR := n.wokenR - {t})
  }

  function CheckPeek(n: Net, t: Task, noWait: bool): Net {
    if n.q.items != [] then
      Goto(n, t, Outside).(q := WakeReceiver(n.q), wokenR := n.wokenR - {t} + Head(n.q.receivers))
    else
      Goto(n, t, if noWait then Outside else Saw(ToPeek)).(wokenR := n.wokenR - {t})
  }

  function CheckSend(n: Net, t: Task, x: Item, p: Position, noWait: bool): Net {
    if HasRoom(n.q, p) then
      Goto(n, t, Outside).(
        q := Send(n.q, x, p), wokenS := n.wokenS - {t}, wokenR := n.wokenR + Head(n.q.receivers),
        sent := n.sent + [x])
    else
      Goto(n, t, if noWait then Outside else Saw(ToSend(x, p))).(wokenS := n.wokenS - {t})
  }

  // ----- the rest of the loop

  /** prvIsQueueEmpty or prvIsQueueFull. */
  predicate MustWait(q: Queue, w: Want) {
    if w.ToSend? then |q.items| >= q.length else q.items == []
  }

  /** vTaskPlaceOnEventList; place stands for the task's priority. */
  function PlaceWaiting(n: Net, t: Task, w: Want, place: nat): Net {
    var waiting := if w.ToSend? then n.q.senders else n.q.receivers;
    var k := if place <= |waiting| then place else |waiting|;
    var r := Splice(waiting, k, t);
    Goto(n, t, Unlocking(w, Block)).(q := if w.ToSend? then n.q.(senders := r) else n.q.(receivers := r))
  }

  function UnlockFirst(n: Net, t: Task, w: Want, a: After): Net {
    Goto(n, t, HalfUnlocked(w, a)).(
      q := UnlockTx(n.q), wokenR := n.wokenR + First(n.q.receivers, Owed(n.q.txLock, n.q.receivers)))
  }

  function UnlockSecond(n: Net, t: Task, w: Want, a: After): Net {
    Goto(n, t, Resuming(w, a)).(
      q := UnlockRx(n.q), wokenS := n.wokenS + First(n.q.senders, Owed(n.q.rxLock, n.q.senders)))
  }

  function Resumed(n: Net, t: Task, w: Want, a: After): Net {
    Goto(n, t, match a
      case Block => Parked(w)
      case Retry => Check(w)
      case GiveUp => if w.ToSend? then Outside else GaveUp(w)).(owner := Nobody)
  }

  function TaskTurn(n: Net, t: Task, choice: bool, place: nat): Net {
    match PcOf(n, t)
    case Outside => n
    case Check(w) =>
      (match w
       case ToReceive => CheckReceive(n, t, choice)
       case ToPeek => CheckPeek(n, t, choice)
       case ToSend(x, p) => CheckSend(n, t, x, p, choice))
    case Saw(w) => Goto(n, t, Suspended(w)).(owner := Holder(t))
    case Suspended(w) => Goto(n, t, Locked(w)).(q := Lock(n.q))
    case Locked(w) => Goto(n, t, if choice then Unlocking(w, GiveUp) else Recheck(w))
    case Recheck(w) => Goto(n, t, if MustWait(n.q, w) then Enqueue(w) else Unlocking(w, Retry))
    case Enqueue(w) => PlaceWaiting(n, t, w, place)
    case Unlocking(w, a) => UnlockFirst(n, t, w, a)
    case HalfUnlocked(w, a) => UnlockSecond(n, t, w, a)
    case Resuming(w, a) => Resumed(n, t, w, a)
    case GaveUp(w) => Goto(n, t, if n.q.items == [] then Outside else Check(w))
    case Parked(w) => if t in n.q.receivers || t in n.q.senders then n else Goto(n, t, Check(w))
  }

  // ----- interrupts and the tick

  function Posted(n: Net, x: Item, p: Position): Net {
    n.(q := SendFromISR(n.q, x, p),
       wokenR := if HasRoom(n.q, p) && n.q.txLock == UNLOCKED then n.wokenR + Head(n.q.receivers) else n.wokenR,
       sent := if HasRoom(n.q, p) then n.sent + [x] else n.sent)
  }

  function Taken(n: Net): Net {
    n.(q := ReceiveFromISR(n.q),
       wokenS := if n.q.items != [] && n.q.rxLock == UNLOCKED then n.wokenS + Head(n.q.senders) else n.wokenS,
       received := if n.q.items != [] then n.received + [n.q.items[0]] else n.received)
  }

  function TimedOut(n: Net, t: Task): Net {
    n.(q := n.q.(
      receivers := if t in n.q.receivers then Without(n.q.receivers, t) else n.q.receivers,
      senders := if t in n.q.senders then Without(n.q.senders, t) else n.q.senders))
  }

  function Apply(n: Net, s: Step): Net {
    match s
    case Begin(t, w) => if PcOf(n, t).Outside? then Goto(n, t, Check(w)) else n
    case Turn(t, choice, place) => TaskTurn(n, t, choice, place)
    case PostFromISR(x, p) => Posted(n, x, p)
    case TakeFromISR => Taken(n)
    case Timeout(t) => TimedOut(n, t)
  }

  predicate Fits(q: Queue, p: Position) {
    p == Overwrite ==> q.length == 1
  }

  /** Only the task that has suspended the scheduler runs, and no tick is handled meanwhile;
      interrupts come at any time, but not 128 of a kind while the queue is locked. */
  predicate Legal(n: Net, s: Step) {
    match s
    case Begin(t, w) => n.owner == Nobody && (w.ToSend? ==> Fits(n.q, w.position))
    case Turn(t, _, _) => n.owner == Nobody || n.owner == Holder(t)
    case PostFromISR(_, p) => Fits(n.q, p) && n.q.txLock < INT8_MAX
    case TakeFromISR => n.q.rxLock < INT8_MAX
    case Timeout(t) => n.owner == Nobody
  }

  // ----- the invariant

  predicate Inner(p: Pc) {
    p.Suspended? || p.Locked? || p.Recheck? || p.Enqueue? || p.Unlocking? || p.HalfUnlocked? || p.Resuming?
  }

  /** On its way from an event list back to the top of the loop. */
  predicate Waits(p: Pc) {
    p.Parked? || ((p.Unlocking? || p.HalfUnlocked? || p.Resuming?) && p.after == Block)
  }

  predicate LocksAt(p: Pc, q: Queue) {
    && (p.Suspended? || p.Resuming? ==> q.txLock == q.rxLock == UNLOCKED)
    && (p.Locked? || p.Recheck? || p.Enqueue? || p.Unlocking? ==> q.txLock >= 0 && q.rxLock >= 0)
    && (p.HalfUnlocked? ==> q.txLock == UNLOCKED && q.rxLock >= 0)
  }

  ghost predicate Scheduled(n: Net) {
    match n.owner
    case Nobody => n.q.txLock == n.q.rxLock == UNLOCKED && forall t :: !Inner(PcOf(n, t))
    case Holder(h) => Inner(PcOf(n, h)) && LocksAt(PcOf(n, h), n.q) && forall t :: t != h ==> !Inner(PcOf(n, t))
  }

  ghost predicate Shape(n: Net) {
    && 0 < n.q.length && |n.q.items| <= n.q.length
    && n.q.txLock >= UNLOCKED && n.q.rxLock >= UNLOCKED
    && NoDup(n.q.receivers) && NoDup(n.q.senders)
  }

  /** Event lists and woken sets hold only tasks that wait for that event. */
  ghost predicate Members(n: Net) {
    && (forall t :: t in n.q.receivers ==> Waits(PcOf(n, t)) && !PcOf(n, t).want.ToSend? && t !in n.wokenR)
    && (forall t :: t in n.q.senders ==> Waits(PcOf(n, t)) && PcOf(n, t).want.ToSend? && t !in n.wokenS)
    && (forall t :: t in n.wokenR ==> (Waits(PcOf(n, t)) || PcOf(n, t).Check?) && !PcOf(n, t).want.ToSend?)
    && (forall t :: t in n.wokenS ==> (Waits(PcOf(n, t)) || PcOf(n, t).Check?) && PcOf(n, t).want.ToSend?)
  }

  /** Between the second look at the queue and the event list, only counted interrupts. */
  ghost predicate Counted(n: Net) {
    forall t :: PcOf(n, t).Enqueue? ==>
      (if PcOf(n, t).want.ToSend? then n.q.length - |n.q.items| <= n.q.rxLock else |n.q.items| <= n.q.txLock)
  }

  function Pos(lock: int8): nat {
    if lock > 0 then lock else 0
  }

  /** No lost wake-up: while a receiver sleeps, every item is accounted for by a woken receiver
      that has yet to retry or by the lock count; and the same for senders and free slots. */
  ghost predicate NoLostWakeup(n: Net) {
    && (n.q.receivers != [] ==> |n.q.items| <= |n.wokenR| + Pos(n.q.txLock))
    && (n.q.senders != [] ==> n.q.length - |n.q.items| <= |n.wokenS| + Pos(n.q.rxLock))
  }

  ghost predicate Sound(n: Net) {
    forall t :: !PcOf(n, t).Outside? && PcOf(n, t).want.ToSend? ==> Fits(n.q, PcOf(n, t).want.position)
  }

  ghost predicate Inv(n: Net) {
    Shape(n) && Scheduled(n) && Members(n) && Counted(n) && NoLostWakeup(n) && Sound(n)
  }

  lemma InvParts(n: Net)
    requires Inv(n)
    ensures Shape(n) && Scheduled(n) && Members(n) && Counted(n) && NoLostWakeup(n) && Sound(n)
  {
    hide Shape, Scheduled, Members, Counted, NoLostWakeup, Sound;
  }

  // ----- counting

  lemma FirstNext(s: seq<Task>, k: nat)
    requires 0 < k <= |s| && NoDup(s)
    ensures First(s, k) == First(s, k - 1) + {s[k - 1]} && s[k - 1] !in First(s, k - 1)
  {
    assert s[..k] == s[..k - 1] + [s[k - 1]];
  }

  lemma {:induction false} FirstSize(s: seq<Task>, k: nat)
    requires NoDup(s) && k <= |s|
    ensures |First(s, k)| == k
  {
    if k == 0 {
      assert First(s, 0) == {};
    } else {
      FirstNext(s, k);
      hide First, NoDup;
      FirstSize(s, k - 1);
    }
  }

  lemma FirstCard(s: seq<Task>, k: nat, w: set<Task>)
    requires NoDup(s) && k <= |s| && forall t :: t in s ==> t !in w
    ensures |w + First(s, k)| == |w| + k
  {
    FirstSize(s, k);
    forall t | t in First(s, k) ensures t !in w { assert t in s; }
    hide First, NoDup;
    assert w * First(s, k) == {};
  }

  lemma HeadCard(s: seq<Task>, w: set<Task>)
    requires NoDup(s) && forall t :: t in s ==> t !in w
    ensures |w + Head(s)| == |w| + (if s == [] then 0 else 1)
    ensures forall t :: t in Head(s) ==> t in s
  {
    if s != [] { FirstCard(s, 1, w); }
  }

  lemma LeaveCard(w: set<Task>, t: Task)
    ensures |w - {t}| >= |w| - 1 && (t !in w ==> w - {t} == w)
  {
    if t in w { assert w == (w - {t}) + {t}; } else { assert w - {t} == w; }
  }

  /** Dropping the first k keeps the rest, apart from them. */
  lemma RestMembers(s: seq<Task>, k: nat)
    requires NoDup(s) && k <= |s|
    ensures NoDup(s[k..])
    ensures forall t :: t in s[k..] ==> t in s && t !in s[..k]
    ensures forall t :: t in s ==> t in s[..k] || t in s[k..]
  {
    assert s == s[..k] + s[k..];
  }

  // ----- every step keeps the invariant

  /** The waking half of a step: k receivers and j senders come off their lists and are woken. */
  lemma WakeMembers(n: Net, m: Net, k: nat, j: nat)
    requires NoDup(n.q.receivers) && NoDup(n.q.senders) && Members(n) && k <= |n.q.receivers| && j <= |n.q.senders|
    requires m.pc == n.pc && m.q.receivers == n.q.receivers[k..] && m.q.senders == n.q.senders[j..]
    requires m.wokenR == n.wokenR + First(n.q.receivers, k) && m.wokenS == n.wokenS + First(n.q.senders, j)
    ensures NoDup(m.q.receivers) && NoDup(m.q.senders) && Members(m)
  {
    RestMembers(n.q.receivers, k);
    RestMembers(n.q.senders, j);
    hide NoDup, Waits;
    forall t ensures PcOf(m, t) == PcOf(n, t) { }
    hide PcOf;
    forall t | t in m.q.receivers ensures t in n.q.receivers && t !in m.wokenR { assert t !in First(n.q.receivers, k); }
    forall t | t in m.q.senders ensures t in n.q.senders && t !in m.wokenS { assert t !in First(n.q.senders, j); }
    forall t | t in m.wokenR ensures t in n.wokenR || t in n.q.receivers { }
    forall t | t in m.wokenS ensures t in n.wokenS || t in n.q.senders { }
  }

  lemma LeaveMembers(n: Net, m: Net, t: Task)
    requires Members(n) && m.pc == n.pc && m.q.receivers == n.q.receivers && m.q.senders == n.q.senders
    requires m.wokenR == n.wokenR - {t} && m.wokenS == n.wokenS - {t}
    ensures Members(m)
  {
    forall u ensures PcOf(m, u) == PcOf(n, u) { }
    hide PcOf, Waits;
  }

  /** t moves on: still waiting if it is on a list, at most retrying if it has been woken. */
  ghost predicate Follows(n: Net, t: Task, p: Pc) {
    && (t in n.q.receivers || t in n.q.senders ==> Waits(p))
    && (t in n.wokenR || t in n.wokenS ==> Waits(p) || p.Check?)
    && (t in n.q.receivers || t in n.q.senders || t in n.wokenR || t in n.wokenS ==>
        !p.Outside? && !PcOf(n, t).Outside? && p.want == PcOf(n, t).want)
  }

  lemma MoveMembers(n: Net, m: Net, t: Task, p: Pc)
    requires Members(n) && Follows(n, t, p) && m.pc == n.pc[t := p]
    requires m.q.receivers == n.q.receivers && m.q.senders == n.q.senders
    requires m.wokenR == n.wokenR && m.wokenS == n.wokenS
    ensures Members(m)
  {
    forall u ensures PcOf(m, u) == if u == t then p else PcOf(n, u) { }
    hide PcOf, Waits;
  }

  /** At the top of the loop, or before the lists, a task is on none of them. */
  lemma OnNone(n: Net, t: Task)
    requires Members(n)
    ensures !Waits(PcOf(n, t)) ==> t !in n.q.receivers && t !in n.q.senders
    ensures !Waits(PcOf(n, t)) && !PcOf(n, t).Check? ==> t !in n.wokenR && t !in n.wokenS
    ensures !PcOf(n, t).Outside? && !PcOf(n, t).want.ToSend? ==> t !in n.q.senders && t !in n.wokenS
    ensures !PcOf(n, t).Outside? && PcOf(n, t).want.ToSend? ==> t !in n.q.receivers && t !in n.wokenR
  {
  }

  lemma SoundMove(n: Net, m: Net, t: Task, p: Pc)
    requires Sound(n) && m.pc == n.pc[t := p] && m.q.length == n.q.length
    requires p.Outside? || (!PcOf(n, t).Outside? && p.want == PcOf(n, t).want) ||
      (p.want.ToSend? ==> Fits(n.q, p.want.position))
    ensures Sound(m)
  {
    forall u ensures PcOf(m, u) == if u == t then p else PcOf(n, u) { }
    hide PcOf;
  }

  /** While nobody has suspended the scheduler, a move outside the inner part keeps it so. */
  lemma FreeMove(n: Net, m: Net, t: Task, p: Pc)
    requires Scheduled(n) && n.owner == Nobody == m.owner && m.pc == n.pc[t := p] && !Inner(p)
    requires m.q.txLock == m.q.rxLock == UNLOCKED
    ensures Scheduled(m) && Counted(m)
  {
    forall u ensures PcOf(m, u) == if u == t then p else PcOf(n, u) { }
    hide PcOf;
  }

  /** A task at the top of the loop leaves the woken sets, wakes k receivers and j senders, and
      moves on to p. */
  ghost predicate Checked(n: Net, m: Net, t: Task, p: Pc, k: nat, j: nat) {
    && n.owner == Nobody == m.owner && PcOf(n, t).Check? && m.pc == n.pc[t := p]
    && (p.Outside? || p == Saw(PcOf(n, t).want)) && k <= |n.q.receivers| && j <= |n.q.senders|
    && m.q == n.q.(items := m.q.items, receivers := n.q.receivers[k..], senders := n.q.senders[j..])
    && m.wokenR == (n.wokenR - {t}) + First(n.q.receivers, k) && m.wokenS == (n.wokenS - {t}) + First(n.q.senders, j)
    && |m.q.items| <= n.q.length
    && (m.q.receivers != [] ==> |m.q.items| <= |n.wokenR - {t}| + k)
    && (m.q.senders != [] ==> n.q.length - |m.q.items| <= |n.wokenS - {t}| + j)
  }

  lemma CheckedMembers(n: Net, m: Net, t: Task, p: Pc, k: nat, j: nat)
    requires Shape(n) && Members(n) && Checked(n, m, t, p, k, j)
    ensures Members(m) && NoDup(m.q.receivers) && NoDup(m.q.senders)
  {
    OnNone(n, t);
    var n1 := n.(wokenR := n.wokenR - {t}, wokenS := n.wokenS - {t});
    LeaveMembers(n, n1, t);
    var n2 := n1.(pc := n.pc[t := p]);
    MoveMembers(n1, n2, t, p);
    hide Members, NoDup, First, PcOf;
    WakeMembers(n2, m, k, j);
  }

  lemma CheckedCards(n: Net, m: Net, t: Task, p: Pc, k: nat, j: nat)
    requires Shape(n) && Members(n) && Checked(n, m, t, p, k, j)
    ensures |m.wokenR| == |n.wokenR - {t}| + k && |m.wokenS| == |n.wokenS - {t}| + j
  {
    forall u | u in n.q.receivers ensures u !in n.wokenR - {t} { }
    forall u | u in n.q.senders ensures u !in n.wokenS - {t} { }
    hide Members, NoDup, First, PcOf;
    FirstCard(n.q.receivers, k, n.wokenR - {t});
    FirstCard(n.q.senders, j, n.wokenS - {t});
  }

  lemma CheckedKeeps(n: Net, m: Net, t: Task, p: Pc, k: nat, j: nat)
    requires Inv(n) && Checked(n, m, t, p, k, j)
    ensures Inv(m)
  {
    hide Members, NoDup, First, Counted, Sound;
    CheckedMembers(n, m, t, p, k, j);
    CheckedCards(n, m, t, p, k, j);
    FreeMove(n, m, t, p);
    SoundMove(n, m, t, p);
    hide Scheduled, PcOf;
  }

  lemma NobodyUnlocked(n: Net)
    requires Scheduled(n) && n.owner == Nobody
    ensures n.q.txLock == n.q.rxLock == UNLOCKED
  {
  }

  lemma NoneWoken(s: seq<Task>, w: set<Task>, t: Task)
    ensures First(s, 0) == {} && w - {t} + First(s, 0) == w - {t} && s[0..] == s
    ensures Head(s) == First(s, if s == [] then 0 else 1)
  {
  }

  function One(s: seq<Task>): (k: nat)
    ensures k <= |s|
  {
    if s == [] then 0 else 1
  }

  /** What the top of the loop may assume about its own task. */
  ghost predicate AtCheck(n: Net, t: Task, w: Want) {
    && n.owner == Nobody && PcOf(n, t) == Check(w) && n.q.txLock == n.q.rxLock == UNLOCKED
    && (w.ToSend? ==> n.wokenR - {t} == n.wokenR && Fits(n.q, w.position))
    && (!w.ToSend? ==> n.wokenS - {t} == n.wokenS)
    && |n.wokenR - {t}| >= |n.wokenR| - 1 && |n.wokenS - {t}| >= |n.wokenS| - 1
  }

  lemma AtTheCheck(n: Net, t: Task)
    requires Inv(n) && n.owner == Nobody && PcOf(n, t).Check?
    ensures AtCheck(n, t, PcOf(n, t).want)
  {
    InvParts(n);
    hide Inv, Shape, Scheduled, Members, Counted, NoLostWakeup, Sound, Waits, Fits, PcOf;
    OnNone(n, t);
    LeaveCard(n.wokenR, t);
    LeaveCard(n.wokenS, t);
    NobodyUnlocked(n);
    WantFits(n, t);
  }

  lemma WantFits(n: Net, t: Task)
    requires Sound(n)
    ensures !PcOf(n, t).Outside? && PcOf(n, t).want.ToSend? ==> Fits(n.q, PcOf(n, t).want.position)
  {
    hide PcOf, Fits;
  }

  lemma ReceiveChecked(n: Net, t: Task, noWait: bool)
    requires Shape(n) && NoLostWakeup(n) && AtCheck(n, t, ToReceive)
    ensures n.q.items != [] ==> Checked(n, CheckReceive(n, t, noWait), t, Outside, 0, One(n.q.senders))
    ensures n.q.items == [] ==>
      Checked(n, CheckReceive(n, t, noWait), t, if noWait then Outside else Saw(ToReceive), 0, 0)
  {
    NoneWoken(n.q.receivers, n.wokenR, t);
    NoneWoken(n.q.senders, n.wokenS, t);
    hide First, NoDup, Head;
  }

  lemma PeekChecked(n: Net, t: Task, noWait: bool)
    requires Shape(n) && NoLostWakeup(n) && AtCheck(n, t, ToPeek)
    ensures n.q.items != [] ==> Checked(n, CheckPeek(n, t, noWait), t, Outside, One(n.q.receivers), 0)
    ensures n.q.items == [] ==> Checked(n, CheckPeek(n, t, noWait), t, if noWait then Outside else Saw(ToPeek), 0, 0)
  {
    NoneWoken(n.q.receivers, n.wokenR, t);
    NoneWoken(n.q.senders, n.wokenS, t);
    hide First, NoDup, Head;
  }

  lemma PutSize(q: Queue, x: Item, p: Position)
    requires HasRoom(q, p) && Fits(q, p) && 0 < q.length && |q.items| <= q.length
    ensures var r := Put(q, x, p);
      && 0 < |r.items| <= q.length && r == q.(items := r.items)
      && |r.items| <= |q.items| + 1 && (|r.items| == |q.items| + 1 || |r.items| == q.length)
  {
  }

  lemma SendChecked(n: Net, t: Task, x: Item, p: Position, noWait: bool)
    requires Shape(n) && NoLostWakeup(n) && AtCheck(n, t, ToSend(x, p))
    ensures HasRoom(n.q, p) ==> Checked(n, CheckSend(n, t, x, p, noWait), t, Outside, One(n.q.receivers), 0)
    ensures !HasRoom(n.q, p) ==>
      Checked(n, CheckSend(n, t, x, p, noWait), t, if noWait then Outside else Saw(ToSend(x, p)), 0, 0)
  {
    NoneWoken(n.q.receivers, n.wokenR, t);
    NoneWoken(n.q.senders, n.wokenS, t);
    if HasRoom(n.q, p) { PutSize(n.q, x, p); }
    hide First, NoDup, Head, Put, Fits;
  }

  lemma CheckTurnKeeps(n: Net, t: Task, noWait: bool)
    requires Inv(n) && n.owner == Nobody && PcOf(n, t).Check?
    ensures Inv(TaskTurn(n, t, noWait, 0))
  {
    var m := TaskTurn(n, t, noWait, 0);
    AtTheCheck(n, t);
    InvParts(n);
    hide Inv, Shape, NoLostWakeup, AtCheck, Checked, HasRoom, CheckReceive, CheckPeek, CheckSend, One;
    match PcOf(n, t).want
    case ToReceive =>
      ReceiveChecked(n, t, noWait);
      if n.q.items != [] { CheckedKeeps(n, m, t, Outside, 0, One(n.q.senders)); }
      else { CheckedKeeps(n, m, t, if noWait then Outside else Saw(ToReceive), 0, 0); }
    case ToPeek =>
      PeekChecked(n, t, noWait);
      if n.q.items != [] { CheckedKeeps(n, m, t, Outside, One(n.q.receivers), 0); }
      else { CheckedKeeps(n, m, t, if noWait then Outside else Saw(ToPeek), 0, 0); }
    case ToSend(x, p) =>
      SendChecked(n, t, x, p, noWait);
      if HasRoom(n.q, p) { CheckedKeeps(n, m, t, Outside, One(n.q.receivers), 0); }
      else { CheckedKeeps(n, m, t, if noWait then Outside else Saw(ToSend(x, p)), 0, 0); }
  }

  // ----- steps that only move the task

  /** The task moves on and nothing else of the queue or the woken sets changes. */
  ghost predicate Moved(n: Net, m: Net, t: Task, p: Pc) {
    && m.pc == n.pc[t := p] && m.wokenR == n.wokenR && m.wokenS == n.wokenS
    && m.q == n.q.(rxLock := m.q.rxLock, txLock := m.q.txLock) && !PcOf(n, t).Outside?
    && (p.Outside? || p.want == PcOf(n, t).want)
  }

  /** Where the scheduler's owner may be once t has moved to p. */
  ghost predicate OwnerMoves(n: Net, m: Net, t: Task, p: Pc) {
    && (n.owner == Nobody || n.owner == Holder(t))
    && m.owner == (if Inner(p) then Holder(t) else Nobody)
    && (Inner(p) ==> LocksAt(p, m.q)) && (!Inner(p) ==> m.q.txLock == m.q.rxLock == UNLOCKED)
  }

  lemma OwnerMove(n: Net, m: Net, t: Task, p: Pc)
    requires Scheduled(n) && m.pc == n.pc[t := p] && OwnerMoves(n, m, t, p)
    ensures Scheduled(m)
    ensures forall u :: u != t ==> !Inner(PcOf(m, u))
  {
    forall u ensures PcOf(m, u) == if u == t then p else PcOf(n, u) { }
    hide PcOf, LocksAt;
  }

  lemma OnlyEnqueue(m: Net, t: Task)
    requires forall u :: u != t ==> !Inner(PcOf(m, u))
    requires PcOf(m, t).Enqueue? ==>
      (if PcOf(m, t).want.ToSend? then m.q.length - |m.q.items| <= m.q.rxLock else |m.q.items| <= m.q.txLock)
    ensures Counted(m)
  {
    hide PcOf;
  }

  lemma MovedKeeps(n: Net, m: Net, t: Task, p: Pc)
    requires Inv(n) && Moved(n, m, t, p) && Follows(n, t, p) && OwnerMoves(n, m, t, p)
    requires m.q.txLock >= UNLOCKED && m.q.rxLock >= UNLOCKED
    requires Pos(m.q.txLock) >= Pos(n.q.txLock) && Pos(m.q.rxLock) >= Pos(n.q.rxLock)
    requires p.Enqueue? ==>
      (if p.want.ToSend? then m.q.length - |m.q.items| <= m.q.rxLock else |m.q.items| <= m.q.txLock)
    ensures Inv(m)
  {
    assert PcOf(m, t) == p;
    hide Members, Scheduled, Sound, Counted, NoDup;
    MoveMembers(n, m, t, p);
    OwnerMove(n, m, t, p);
    OnlyEnqueue(m, t);
    SoundMove(n, m, t, p);
    hide PcOf, Follows, OwnerMoves;
  }

  /** A task inside the suspended part is the one that has suspended the scheduler. */
  lemma InnerOwner(n: Net, t: Task)
    requires Scheduled(n) && (n.owner == Nobody || n.owner == Holder(t))
    ensures Inner(PcOf(n, t)) <==> n.owner == Holder(t)
    ensures n.owner == Nobody ==> n.q.txLock == n.q.rxLock == UNLOCKED
    ensures n.owner == Holder(t) ==> LocksAt(PcOf(n, t), n.q)
  {
  }

  predicate MovesOnly(p: Pc) {
    p.Saw? || p.Suspended? || p.Locked? || p.Recheck? || p.Resuming? || p.GaveUp? || p.Parked?
  }

  lemma MoveTurnKeeps(n: Net, t: Task, choice: bool, place: nat)
    requires Inv(n) && (n.owner == Nobody || n.owner == Holder(t)) && MovesOnly(PcOf(n, t))
    ensures Inv(TaskTurn(n, t, choice, place))
  {
    hide Scheduled, Counted, Sound, NoDup, NoLostWakeup;
    InnerOwner(n, t);
    OnNone(n, t);
    hide Members;
    var m := TaskTurn(n, t, choice, place);
    if m != n {
      MovedKeeps(n, m, t, PcOf(m, t));
    }
  }

  // ----- taking a place on an event list

  lemma PlaceMembers(n: Net, m: Net, t: Task, w: Want, place: nat)
    requires Shape(n) && Members(n) && PcOf(n, t) == Enqueue(w) && m == PlaceWaiting(n, t, w, place)
    ensures Members(m) && Shape(m)
  {
    OnNone(n, t);
    var waiting := if w.ToSend? then n.q.senders else n.q.receivers;
    var k := if place <= |waiting| then place else |waiting|;
    SpliceMembers(waiting, k, t);
    forall u ensures PcOf(m, u) == if u == t then Unlocking(w, Block) else PcOf(n, u) { }
    hide PcOf, Splice, NoDup;
  }

  lemma PlaceKeeps(n: Net, t: Task, place: nat)
    requires Inv(n) && n.owner == Holder(t) && PcOf(n, t).Enqueue?
    ensures Inv(TaskTurn(n, t, false, place))
  {
    var w := PcOf(n, t).want;
    var m := PlaceWaiting(n, t, w, place);
    var p := Unlocking(w, Block);
    assert if w.ToSend? then n.q.length - |n.q.items| <= n.q.rxLock else |n.q.items| <= n.q.txLock;
    hide Members, NoDup, Sound, Scheduled, Counted, Splice;
    PlaceMembers(n, m, t, w, place);
    InnerOwner(n, t);
    OwnerMove(n, m, t, p);
    assert PcOf(m, t) == p;
    OnlyEnqueue(m, t);
    SoundMove(n, m, t, p);
  }

  // ----- unlocking

  /** One half of prvUnlockQueue: t moves to p, k receivers and j senders are woken. */
  lemma UnlockMembers(n: Net, m: Net, t: Task, p: Pc, k: nat, j: nat)
    requires Shape(n) && Members(n) && k <= |n.q.receivers| && j <= |n.q.senders| && Follows(n, t, p)
    requires m.pc == n.pc[t := p] && m.q.receivers == n.q.receivers[k..] && m.q.senders == n.q.senders[j..]
    requires m.wokenR == n.wokenR + First(n.q.receivers, k) && m.wokenS == n.wokenS + First(n.q.senders, j)
    ensures Members(m) && NoDup(m.q.receivers) && NoDup(m.q.senders)
    ensures |m.wokenR| == |n.wokenR| + k && |m.wokenS| == |n.wokenS| + j
  {
    UnlockCards(n, k, j);
    hide Members, NoDup, First, Follows;
    var n1 := n.(pc := n.pc[t := p]);
    MoveMembers(n, n1, t, p);
    WakeMembers(n1, m, k, j);
  }

  ghost predicate Unlocks(n: Net, m: Net, t: Task, p: Pc, k: nat, j: nat) {
    && n.owner == m.owner == Holder(t) && m.pc == n.pc[t := p] && !PcOf(n, t).Outside?
    && (p.HalfUnlocked? || p.Resuming?) && p.want == PcOf(n, t).want && k <= |n.q.receivers| && j <= |n.q.senders|
    && m.q == n.q.(receivers := n.q.receivers[k..], senders := n.q.senders[j..],
                   txLock := m.q.txLock, rxLock := m.q.rxLock)
    && m.wokenR == n.wokenR + First(n.q.receivers, k) && m.wokenS == n.wokenS + First(n.q.senders, j)
    && LocksAt(p, m.q) && m.q.txLock >= UNLOCKED && m.q.rxLock >= UNLOCKED
    && (m.q.receivers != [] ==> Pos(n.q.txLock) <= Pos(m.q.txLock) + k)
    && (m.q.senders != [] ==> Pos(n.q.rxLock) <= Pos(m.q.rxLock) + j)
  }

  lemma UnlocksOwner(n: Net, m: Net, t: Task, p: Pc, k: nat, j: nat)
    requires Scheduled(n) && Unlocks(n, m, t, p, k, j)
    ensures Scheduled(m) && Counted(m)
  {
    assert PcOf(m, t) == p;
    hide Scheduled, Counted, First, LocksAt;
    OwnerMove(n, m, t, p);
    OnlyEnqueue(m, t);
  }

  lemma UnlocksMembers(n: Net, m: Net, t: Task, p: Pc, k: nat, j: nat)
    requires Shape(n) && Members(n) && Sound(n) && Unlocks(n, m, t, p, k, j) && Follows(n, t, p)
    ensures Members(m) && NoDup(m.q.receivers) && NoDup(m.q.senders) && Sound(m)
    ensures |m.wokenR| == |n.wokenR| + k && |m.wokenS| == |n.wokenS| + j
  {
    hide Members, NoDup, First, Sound, Follows, LocksAt, Waits, Inner;
    UnlockMembers(n, m, t, p, k, j);
    SoundMove(n, m, t, p);
  }

  lemma UnlocksCounts(n: Net, m: Net, t: Task, p: Pc, k: nat, j: nat)
    requires Shape(n) && NoLostWakeup(n) && Unlocks(n, m, t, p, k, j)
    requires NoDup(m.q.receivers) && NoDup(m.q.senders)
    requires |m.wokenR| == |n.wokenR| + k && |m.wokenS| == |n.wokenS| + j
    ensures Shape(m) && NoLostWakeup(m)
  {
    hide NoDup, First, LocksAt, PcOf, Pos;
  }

  lemma UnlocksKeeps(n: Net, m: Net, t: Task, p: Pc, k: nat, j: nat)
    requires Inv(n) && Unlocks(n, m, t, p, k, j) && Follows(n, t, p)
    ensures Inv(m)
  {
    hide Shape, Members, Counted, Sound, Scheduled, Follows, NoLostWakeup, Unlocks, NoDup;
    UnlocksOwner(n, m, t, p, k, j);
    UnlocksMembers(n, m, t, p, k, j);
    UnlocksCounts(n, m, t, p, k, j);
  }

  lemma UnlockFirstIs(n: Net, t: Task)
    requires n.owner == Holder(t) && PcOf(n, t).Unlocking? && LocksAt(PcOf(n, t), n.q)
    ensures var w, a := PcOf(n, t).want, PcOf(n, t).after;
      TaskTurn(n, t, false, 0) == UnlockFirst(n, t, w, a) &&
      Unlocks(n, UnlockFirst(n, t, w, a), t, HalfUnlocked(w, a), Owed(n.q.txLock, n.q.receivers), 0)
  {
    NoneWoken(n.q.senders, n.wokenS, t);
    hide First;
  }

  lemma UnlockSecondIs(n: Net, t: Task)
    requires n.owner == Holder(t) && PcOf(n, t).HalfUnlocked? && LocksAt(PcOf(n, t), n.q)
    ensures var w, a := PcOf(n, t).want, PcOf(n, t).after;
      TaskTurn(n, t, false, 0) == UnlockSecond(n, t, w, a) &&
      Unlocks(n, UnlockSecond(n, t, w, a), t, Resuming(w, a), 0, Owed(n.q.rxLock, n.q.senders))
  {
    NoneWoken(n.q.receivers, n.wokenR, t);
    hide First;
  }

  lemma UnlockFollows(n: Net, t: Task, p: Pc)
    requires Members(n)
    requires (PcOf(n, t).Unlocking? && p == HalfUnlocked(PcOf(n, t).want, PcOf(n, t).after)) ||
             (PcOf(n, t).HalfUnlocked? && p == Resuming(PcOf(n, t).want, PcOf(n, t).after))
    ensures Follows(n, t, p)
  {
  }

  lemma UnlockFirstKeeps(n: Net, t: Task)
    requires Inv(n) && n.owner == Holder(t) && PcOf(n, t).Unlocking?
    ensures Inv(TaskTurn(n, t, false, 0))
  {
    var w, a := PcOf(n, t).want, PcOf(n, t).after;
    hide *;
    InvParts(n);
    InnerOwner(n, t);
    UnlockFirstIs(n, t);
    UnlockFollows(n, t, HalfUnlocked(w, a));
    UnlocksKeeps(n, UnlockFirst(n, t, w, a), t, HalfUnlocked(w, a), Owed(n.q.txLock, n.q.receivers), 0);
  }

  lemma UnlockSecondKeeps(n: Net, t: Task)
    requires Inv(n) && n.owner == Holder(t) && PcOf(n, t).HalfUnlocked?
    ensures Inv(TaskTurn(n, t, false, 0))
  {
    var w, a := PcOf(n, t).want, PcOf(n, t).after;
    hide *;
    InvParts(n);
    InnerOwner(n, t);
    UnlockSecondIs(n, t);
    UnlockFollows(n, t, Resuming(w, a));
    UnlocksKeeps(n, UnlockSecond(n, t, w, a), t, Resuming(w, a), 0, Owed(n.q.rxLock, n.q.senders));
  }

  lemma UnlockCards(n: Net, k: nat, j: nat)
    requires Shape(n) && Members(n) && k <= |n.q.receivers| && j <= |n.q.senders|
    ensures |n.wokenR + First(n.q.receivers, k)| == |n.wokenR| + k
    ensures |n.wokenS + First(n.q.senders, j)| == |n.wokenS| + j
    ensures First(n.q.receivers, 0) == {} && First(n.q.senders, 0) == {}
  {
    FirstCard(n.q.receivers, k, n.wokenR);
    FirstCard(n.q.senders, j, n.wokenS);
  }

  // ----- interrupts and the tick

  /** An interrupt moves no task: k receivers and j senders are woken, the lock counts grow. */
  ghost predicate Interrupts(n: Net, m: Net, k: nat, j: nat) {
    && k <= |n.q.receivers| && j <= |n.q.senders| && m.pc == n.pc && m.owner == n.owner && m.q.length == n.q.length
    && m.q.receivers == n.q.receivers[k..] && m.q.senders == n.q.senders[j..]
    && m.wokenR == n.wokenR + First(n.q.receivers, k) && m.wokenS == n.wokenS + First(n.q.senders, j)
    && (m.q.txLock == n.q.txLock || 0 <= n.q.txLock < m.q.txLock)
    && (m.q.rxLock == n.q.rxLock || 0 <= n.q.rxLock < m.q.rxLock)
  }

  lemma InterruptsKeep(n: Net, m: Net, k: nat, j: nat)
    requires Shape(n) && Scheduled(n) && Members(n) && Sound(n) && Interrupts(n, m, k, j)
    ensures Members(m) && NoDup(m.q.receivers) && NoDup(m.q.senders) && Scheduled(m) && Sound(m)
    ensures forall u :: PcOf(m, u) == PcOf(n, u)
    ensures |m.wokenR| == |n.wokenR| + k && |m.wokenS| == |n.wokenS| + j
  {
    InterruptsTasks(n, m, k, j);
    hide First, PcOf, Waits, Inner, NoDup, Members, Scheduled, Sound;
    UnlockCards(n, k, j);
    WakeMembers(n, m, k, j);
  }

  lemma InterruptsTasks(n: Net, m: Net, k: nat, j: nat)
    requires Scheduled(n) && Sound(n) && Interrupts(n, m, k, j)
    ensures Scheduled(m) && Sound(m) && forall u :: PcOf(m, u) == PcOf(n, u)
  {
    forall u ensures PcOf(m, u) == PcOf(n, u) { }
    hide First, PcOf, Inner, Fits;
  }

  /** What a counted interrupt does to the two sums. */
  ghost predicate Balanced(n: Net, m: Net, k: nat, j: nat) {
    && |m.q.items| <= m.q.length && m.q.txLock >= UNLOCKED && m.q.rxLock >= UNLOCKED
    && (m.q.receivers != [] ==> |m.q.items| + Pos(n.q.txLock) <= |n.q.items| + Pos(m.q.txLock) + k)
    && (m.q.senders != [] ==> |n.q.items| + Pos(n.q.rxLock) <= |m.q.items| + Pos(m.q.rxLock) + j)
    && (n.q.txLock >= 0 ==> |m.q.items| - |n.q.items| <= m.q.txLock - n.q.txLock)
    && (n.q.rxLock >= 0 ==> |n.q.items| - |m.q.items| <= m.q.rxLock - n.q.rxLock)
  }

  lemma BalancedCounts(n: Net, m: Net, k: nat, j: nat)
    requires Shape(n) && NoLostWakeup(n) && Interrupts(n, m, k, j) && Balanced(n, m, k, j)
    requires NoDup(m.q.receivers) && NoDup(m.q.senders)
    requires |m.wokenR| == |n.wokenR| + k && |m.wokenS| == |n.wokenS| + j
    ensures Shape(m) && NoLostWakeup(m)
  {
    hide NoDup, First;
  }

  lemma EnqueueLocked(n: Net, u: Task)
    requires Scheduled(n) && PcOf(n, u).Enqueue?
    ensures n.q.txLock >= 0 && n.q.rxLock >= 0
  {
  }

  lemma BalancedCounted(n: Net, m: Net, k: nat, j: nat)
    requires Scheduled(n) && Counted(n) && Interrupts(n, m, k, j) && Balanced(n, m, k, j)
    requires forall u :: PcOf(m, u) == PcOf(n, u)
    ensures Counted(m)
  {
    hide First, Scheduled, PcOf;
    forall u | PcOf(m, u).Enqueue?
      ensures if PcOf(m, u).want.ToSend? then m.q.length - |m.q.items| <= m.q.rxLock else |m.q.items| <= m.q.txLock
    {
      EnqueueLocked(n, u);
    }
  }

  lemma InterruptKeeps(n: Net, m: Net, k: nat, j: nat)
    requires Inv(n) && Interrupts(n, m, k, j) && Balanced(n, m, k, j)
    ensures Inv(m)
  {
    hide Shape, Scheduled, Members, Counted, NoLostWakeup, Sound, Interrupts, Balanced, NoDup, PcOf;
    InterruptsKeep(n, m, k, j);
    BalancedCounts(n, m, k, j);
    BalancedCounted(n, m, k, j);
  }

  lemma PostedUnlocked(n: Net, x: Item, p: Position)
    requires Shape(n) && Fits(n.q, p) && n.q.txLock == UNLOCKED && HasRoom(n.q, p)
    ensures Interrupts(n, Posted(n, x, p), One(n.q.receivers), 0) && Balanced(n, Posted(n, x, p), One(n.q.receivers), 0)
  {
    PutSize(n.q, x, p);
    NoneWoken(n.q.receivers, n.wokenR, 0);
    NoneWoken(n.q.senders, n.wokenS, 0);
    hide First, Head, Put, NoDup, Fits;
  }

  lemma PostedLocked(n: Net, x: Item, p: Position)
    requires Shape(n) && Fits(n.q, p) && UNLOCKED != n.q.txLock < INT8_MAX && HasRoom(n.q, p)
    ensures Interrupts(n, Posted(n, x, p), 0, 0) && Balanced(n, Posted(n, x, p), 0, 0)
  {
    PutSize(n.q, x, p);
    NoneWoken(n.q.receivers, n.wokenR, 0);
    NoneWoken(n.q.senders, n.wokenS, 0);
    hide First, Head, Put, NoDup, Fits;
  }

  lemma TakenUnlocked(n: Net)
    requires Shape(n) && n.q.rxLock == UNLOCKED && n.q.items != []
    ensures Interrupts(n, Taken(n), 0, One(n.q.senders)) && Balanced(n, Taken(n), 0, One(n.q.senders))
  {
    NoneWoken(n.q.receivers, n.wokenR, 0);
    NoneWoken(n.q.senders, n.wokenS, 0);
    hide First, Head, NoDup;
  }

  lemma TakenLocked(n: Net)
    requires Shape(n) && UNLOCKED != n.q.rxLock < INT8_MAX && n.q.items != []
    ensures Interrupts(n, Taken(n), 0, 0) && Balanced(n, Taken(n), 0, 0)
  {
    NoneWoken(n.q.receivers, n.wokenR, 0);
    NoneWoken(n.q.senders, n.wokenS, 0);
    hide First, Head, NoDup;
  }

  lemma PostedKeeps(n: Net, x: Item, p: Position)
    requires Inv(n) && Fits(n.q, p) && n.q.txLock < INT8_MAX && HasRoom(n.q, p)
    ensures Inv(Posted(n, x, p))
  {
    InvParts(n);
    hide *;
    var m := Posted(n, x, p);
    if n.q.txLock == UNLOCKED {
      PostedUnlocked(n, x, p);
      InterruptKeeps(n, m, One(n.q.receivers), 0);
    } else {
      PostedLocked(n, x, p);
      InterruptKeeps(n, m, 0, 0);
    }
  }

  lemma TakenKeeps(n: Net)
    requires Inv(n) && n.q.rxLock < INT8_MAX && n.q.items != []
    ensures Inv(Taken(n))
  {
    InvParts(n);
    hide *;
    var m := Taken(n);
    if n.q.rxLock == UNLOCKED {
      TakenUnlocked(n);
      InterruptKeeps(n, m, 0, One(n.q.senders));
    } else {
      TakenLocked(n);
      InterruptKeeps(n, m, 0, 0);
    }
  }

  lemma TimedOutKeeps(n: Net, t: Task)
    requires Inv(n) && n.owner == Nobody
    ensures Inv(TimedOut(n, t))
  {
    var m := TimedOut(n, t);
    InvParts(n);
    TimedOutLists(n, t);
    forall u ensures PcOf(m, u) == PcOf(n, u) { }
    hide Without, NoDup, PcOf, Waits, Inner, Members;
    TimedOutTasks(n, t);
  }

  lemma TimedOutLists(n: Net, t: Task)
    requires Shape(n) && Members(n) && NoLostWakeup(n)
    ensures Shape(TimedOut(n, t)) && Members(TimedOut(n, t)) && NoLostWakeup(TimedOut(n, t))
  {
    var m := TimedOut(n, t);
    if t in n.q.receivers { WithoutMembers(n.q.receivers, t); }
    if t in n.q.senders { WithoutMembers(n.q.senders, t); }
    forall u ensures PcOf(m, u) == PcOf(n, u) { }
    hide Without, NoDup, PcOf, Waits;
  }

  lemma TimedOutTasks(n: Net, t: Task)
    requires Scheduled(n) && Counted(n) && Sound(n)
    ensures Scheduled(TimedOut(n, t)) && Counted(TimedOut(n, t)) && Sound(TimedOut(n, t))
  {
    forall u ensures PcOf(TimedOut(n, t), u) == PcOf(n, u) { }
    hide PcOf, Inner, Fits;
  }

  lemma BeginKeeps(n: Net, t: Task, w: Want)
    requires Inv(n) && Legal(n, Begin(t, w)) && PcOf(n, t).Outside?
    ensures Inv(Goto(n, t, Check(w)))
  {
    var m := Goto(n, t, Check(w));
    hide NoDup, Counted, NoLostWakeup, Sound, Scheduled;
    NobodyUnlocked(n);
    OnNone(n, t);
    hide Members;
    MoveMembers(n, m, t, Check(w));
    FreeMove(n, m, t, Check(w));
    SoundMove(n, m, t, Check(w));
    hide PcOf;
    assert NoLostWakeup(m) by { SameSums(n, m); }
  }

  lemma SameSums(n: Net, m: Net)
    requires NoLostWakeup(n) && m.q == n.q && m.wokenR == n.wokenR && m.wokenS == n.wokenS
    ensures NoLostWakeup(m)
  {
  }

  lemma TurnKeeps(n: Net, t: Task, choice: bool, place: nat)
    requires Inv(n) && (n.owner == Nobody || n.owner == Holder(t))
    ensures Inv(TaskTurn(n, t, choice, place))
  {
    InvParts(n);
    hide Inv, Scheduled, Members, Counted, NoLostWakeup, Sound, Shape;
    InnerOwner(n, t);
    var p := PcOf(n, t);
    if MovesOnly(p) {
      MoveTurnKeeps(n, t, choice, place);
    } else if p.Check? {
      CheckTurnKeeps(n, t, choice);
    } else if p.Enqueue? {
      PlaceKeeps(n, t, place);
    } else if p.Unlocking? {
      UnlockFirstKeeps(n, t);
    } else if p.HalfUnlocked? {
      UnlockSecondKeeps(n, t);
    }
    hide UnlockFirst, UnlockSecond, PlaceWaiting, CheckReceive, CheckSend, CheckPeek, Resumed;
  }

  lemma StepKeeps(n: Net, s: Step)
    requires Inv(n) && Legal(n, s)
    ensures Inv(Apply(n, s))
  {
    hide Inv, TaskTurn, TimedOut, Fits, HasRoom;
    match s
    case Begin(t, w) => if PcOf(n, t).Outside? { BeginKeeps(n, t, w); }
    case Turn(t, choice, place) => TurnKeeps(n, t, choice, place);
    case PostFromISR(x, p) => if HasRoom(n.q, p) { PostedKeeps(n, x, p); } else { NotPosted(n, x, p); }
    case TakeFromISR => if n.q.items != [] { TakenKeeps(n); } else { assert Taken(n) == n; }
    case Timeout(t) => TimedOutKeeps(n, t);
  }

  lemma NotPosted(n: Net, x: Item, p: Position)
    requires !HasRoom(n.q, p)
    ensures Posted(n, x, p) == n
  {
  }

  // ----- runs

  function Final(n: Net, steps: seq<Step>): Net
    decreases |steps|
  {
    if steps == [] then n else Final(Apply(n, steps[0]), steps[1..])
  }

  predicate LegalRun(n: Net, steps: seq<Step>)
    decreases |steps|
  {
    steps != [] ==> Legal(n, steps[0]) && LegalRun(Apply(n, steps[0]), steps[1..])
  }

  /** A queue just created. */
  function Fresh(length: nat): Net {
    Net(Queue([], length, [], [], UNLOCKED, UNLOCKED), map[], Nobody, {}, {}, [], [])
  }

  lemma {:induction false} RunKeeps(n: Net, steps: seq<Step>)
    requires Inv(n) && LegalRun(n, steps)
    ensures Inv(Final(n, steps))
    decreases |steps|
  {
    if steps != [] {
      StepKeeps(n, steps[0]);
      hide Inv, Apply, Legal;
      RunKeeps(Apply(n, steps[0]), steps[1..]);
    }
  }

  /** No lost wake-up, in every reachable state. */
  lemma NeverLost(length: nat, steps: seq<Step>)
    requires length > 0 && LegalRun(Fresh(length), steps)
    ensures NoLostWakeup(Final(Fresh(length), steps))
  {
    assert Inv(Fresh(length));
    RunKeeps(Fresh(length), steps);
    InvParts(Final(Fresh(length), steps));
    hide Inv, NoLostWakeup;
  }

  /** Nobody sleeps on available data or on free space once the queue is unlocked and the woken
      tasks have retried. */
  lemma NobodySleepsInVain(length: nat, steps: seq<Step>)
    requires length > 0 && LegalRun(Fresh(length), steps)
    ensures var n := Final(Fresh(length), steps);
      n.owner == Nobody && n.wokenR == {} && n.wokenS == {} ==>
        (n.q.receivers != [] ==> n.q.items == []) && (n.q.senders != [] ==> |n.q.items| == n.q.length)
  {
    var n := Final(Fresh(length), steps);
    assert Inv(Fresh(length));
    RunKeeps(Fresh(length), steps);
    InvParts(n);
    hide Inv, LegalRun, Final, Members, Sound, Counted;
    if n.owner == Nobody { NobodyUnlocked(n); }
  }

  /** A task is never on both event lists, nor at the same time waiting and woken: a retry or a
      sleep is never counted twice. */
  lemma WaitsOnce(length: nat, steps: seq<Step>, t: Task)
    requires length > 0 && LegalRun(Fresh(length), steps)
    ensures var n := Final(Fresh(length), steps);
      && !(t in n.q.receivers && t in n.q.senders) && !(t in n.q.receivers && t in n.wokenR)
      && !(t in n.q.senders && t in n.wokenS)
  {
    var n := Final(Fresh(length), steps);
    assert Inv(Fresh(length));
    RunKeeps(Fresh(length), steps);
    InvParts(n);
    hide Inv, LegalRun, Final, Shape, Sound, Counted, Scheduled, NoLostWakeup;
    OnNone(n, t);
  }
}
