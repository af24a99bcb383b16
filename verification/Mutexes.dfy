/** Mutexes of queue.c and the priority inheritance of tasks.c. */
module Mutexes {
  import opened Rings
  import Words

  type Task = nat
  type Mutex = nat

  const MAX_PRIORITIES: nat := 5

  type Level = p: nat | p < MAX_PRIORITIES

  /** An event item's value: configMAX_PRIORITIES less the priority. */
  type Key = k: nat | 1 <= k <= MAX_PRIORITIES witness 1

  function KeyFor(p: Level): Key {
    MAX_PRIORITIES - p
  }

  /** Where a task stands in xQueueSemaphoreTake. */
  datatype Pc =
    | Idle
    | Trying(mutex: Mutex)     // at the top of the loop
    | Asked(mutex: Mutex)      // found it taken
    | Waiting(mutex: Mutex)    // has been placed on the event list
    | TimedOut(mutex: Mutex)   // the block time is used up
    | LastTry(mutex: Mutex)    // used up, but the mutex looked free
    | Late(mutex: Mutex)       // used up, and the mutex looked taken

  datatype State = State(
    prio: map<Task, Level>,           // uxPriority
    base: map<Task, Level>,           // uxBasePriority
    held: map<Task, nat>,             // uxMutexesHeld
    key: map<Task, Key>,              // xEventListItem's value
    taken: set<Mutex>,                // uxMessagesWaiting is 0
    holder: map<Mutex, Task>,         // xMutexHolder, absent for NULL
    waiters: map<Mutex, seq<Task>>,   // xTasksWaitingToReceive
    recursive: set<Mutex>,
    depth: map<Mutex, nat>,           // uxRecursiveCallCount
    pc: map<Task, Pc>,
    inherited: set<Task>,             // xInheritanceOccurred in the call each task is in
    guarded: map<Mutex, set<Task>>,   // who has blocked since the present holder took it
    selfWait: bool,                   // configASSERT( pxTCB != pxCurrentTCB ) has failed
    stale: bool                       // configASSERT( xInheritanceOccurred == pdFALSE ) has failed
  )

  function Prio(s: State, t: Task): Level { if t in s.prio then s.prio[t] else 0 }
  function Base(s: State, t: Task): Level { if t in s.base then s.base[t] else 0 }
  function Held(s: State, t: Task): nat { if t in s.held then s.held[t] else 0 }
  function KeyOf(s: State, t: Task): Key { if t in s.key then s.key[t] else KeyFor(0) }
  function Waiters(s: State, m: Mutex): seq<Task> { if m in s.waiters then s.waiters[m] else [] }
  function Guarded(s: State, m: Mutex): set<Task> { if m in s.guarded then s.guarded[m] else {} }
  function Depth(s: State, m: Mutex): nat { if m in s.depth then s.depth[m] else 0 }
  function PcOf(s: State, t: Task): Pc { if t in s.pc then s.pc[t] else Idle }

  function Goto(s: State, t: Task, p: Pc): State {
    s.(pc := s.pc[t := p])
  }

  // ----- tasks.c

  /** The holder runs below the task that is about to block on it. */
  predicate Lifts(s: State, m: Mutex, caller: Task) {
    m in s.holder && Prio(s, s.holder[m]) < Prio(s, caller)
  }

  /** xTaskPriorityInherit, called by the task that is about to block. */
  function Inherit(s: State, m: Mutex, caller: Task): State {
    s.(prio := if Lifts(s, m, caller) then s.prio[s.holder[m] := Prio(s, caller)] else s.prio,
       key := if Lifts(s, m, caller) then s.key[s.holder[m] := KeyFor(Prio(s, caller))] else s.key)
  }

  /** Its result: the holder's priority is, or already was, inherited. */
  predicate Inherits(s: State, m: Mutex, caller: Task) {
    Lifts(s, m, caller) || (m in s.holder && Base(s, s.holder[m]) < Prio(s, caller))
  }

  /** What uxMutexesHeld is once one mutex has been given back. */
  function Left(s: State, h: Task): nat {
    if Held(s, h) > 0 then Held(s, h) - 1 else 0
  }

  /** An inherited priority goes with the last mutex. */
  predicate Drops(s: State, h: Task) {
    Prio(s, h) != Base(s, h) && Left(s, h) == 0
  }

  /** xTaskPriorityDisinherit. */
  function Disinherit(s: State, h: Task): State {
    s.(held := s.held[h := Left(s, h)],
       prio := if Drops(s, h) then s.prio[h := Base(s, h)] else s.prio,
       key := if Drops(s, h) then s.key[h := KeyFor(Base(s, h))] else s.key)
  }

  /** The priority the holder falls back to when a waiter gives up. */
  function Fallback(s: State, h: Task, highest: Level): Level {
    if Base(s, h) < highest then highest else Base(s, h)
  }

  predicate FallsBack(s: State, m: Mutex, highest: Level) {
    m in s.holder && Prio(s, s.holder[m]) != Fallback(s, s.holder[m], highest) && Held(s, s.holder[m]) == 1
  }

  /** vTaskPriorityDisinheritAfterTimeout; caller is the running task. */
  function DisinheritAfterTimeout(s: State, m: Mutex, highest: Level, caller: Task): State {
    s.(prio := if FallsBack(s, m, highest) then s.prio[s.holder[m] := Fallback(s, s.holder[m], highest)] else s.prio,
       key := if FallsBack(s, m, highest) then s.key[s.holder[m] := KeyFor(Fallback(s, s.holder[m], highest))]
              else s.key,
       selfWait := s.selfWait || (FallsBack(s, m, highest) && s.holder[m] == caller))
  }

  /** prvGetDisinheritPriorityAfterTimeout. */
  function HighestWaiting(s: State, m: Mutex): Level {
    if Waiters(s, m) == [] then 0 else MAX_PRIORITIES - KeyOf(s, Waiters(s, m)[0])
  }

  function Clamped(requested: nat): Level {
    if requested >= MAX_PRIORITIES then MAX_PRIORITIES - 1 else requested
  }

  /** vTaskPrioritySet. */
  function SetPriority(s: State, t: Task, requested: nat): State {
    var p := Clamped(requested);
    s.(prio := if Base(s, t) != p && Prio(s, t) == Base(s, t) then s.prio[t := p] else s.prio,
       base := if Base(s, t) != p then s.base[t := p] else s.base,
       key := if Base(s, t) != p then s.key[t := KeyFor(p)] else s.key)
  }

  // ----- queue.c

  /** The mutex is free: the critical section at the top of xQueueSemaphoreTake. */
  function Take(s: State, t: Task, m: Mutex): State {
    s.(pc := s.pc[t := Idle], taken := s.taken + {m}, holder := s.holder[m := t], held := s.held[t := Held(s, t) + 1],
       depth := if m in s.recursive then s.depth[m := Depth(s, m) + 1] else s.depth,
       guarded := s.guarded[m := {}])
  }

  function Keys(s: State, w: seq<Task>): (r: seq<Words.word>)
    ensures |r| == |w|
    ensures forall i :: 0 <= i < |w| ==> r[i] == KeyOf(s, w[i])
  {
    seq(|w|, i requires 0 <= i < |w| => KeyOf(s, w[i]))
  }

  /** The event list of m with t placed by its key. */
  function Placed(s: State, t: Task, m: Mutex): seq<Task> {
    Splice(Waiters(s, m), InsertPos(Keys(s, Waiters(s, m)), KeyOf(s, t)), t)
  }

  /** Inherit, then vTaskPlaceOnEventList in key order. */
  function Block(s: State, t: Task, m: Mutex): State {
    var s1 := Inherit(s, m, t);
    s.(prio := s1.prio, key := s1.key, pc := s.pc[t := Waiting(m)],
       inherited := if Inherits(s, m, t) then s.inherited + {t} else s.inherited - {t},
       waiters := s.waiters[m := Placed(s1, t, m)],
       guarded := s.guarded[m := Guarded(s, m) + {t}])
  }

  /** xQueueGenericSend on a mutex its holder gives back: the first waiter is woken. */
  function Give(s: State, t: Task, m: Mutex): State {
    var s1 := Disinherit(s, t);
    s.(prio := s1.prio, key := s1.key, held := s1.held, taken := s.taken - {m}, holder := s.holder - {m},
       waiters := if Waiters(s, m) == [] then s.waiters else s.waiters[m := Waiters(s, m)[1..]],
       guarded := s.guarded[m := {}])
  }

  /** The mutex is free at the top of the loop. */
  predicate Takes(s: State, t: Task) {
    (PcOf(s, t).Trying? || PcOf(s, t).LastTry?) && PcOf(s, t).mutex !in s.taken
  }

  /** The block time has not run out and the mutex is still taken. */
  predicate Blocks(s: State, t: Task, expired: bool) {
    PcOf(s, t).Asked? && !expired && PcOf(s, t).mutex in s.taken
  }

  /** Where a task goes when it neither takes the mutex nor blocks on it. */
  function NextPc(s: State, t: Task, expired: bool): Pc {
    match PcOf(s, t)
    case Idle => Idle
    case Trying(m) => Asked(m)
    case Asked(m) => if expired then TimedOut(m) else Trying(m)
    case Waiting(m) => if t in Waiters(s, m) then Waiting(m) else Trying(m)
    case TimedOut(m) => if m !in s.taken then LastTry(m) else if t in s.inherited then Late(m) else Idle
    case LastTry(m) => if expired then Idle else Asked(m)
    case Late(m) => Idle
  }

  /** One step of a task inside xQueueSemaphoreTake; expired is what xTaskCheckForTimeOut says, and
      on the last try whether it left nothing to wait: after an overflow of the tick count it
      reports a timeout but leaves the remaining ticks, and the task asks again. With nothing left
      to wait, the last try asserts that nothing was inherited on the task's behalf. */
  function Turn(s: State, t: Task, expired: bool): State {
    var p := PcOf(s, t);
    if Takes(s, t) then Take(s, t, p.mutex)
    else if Blocks(s, t, expired) then Block(s, t, p.mutex)
    else if p.Late? then DisinheritAfterTimeout(Goto(s, t, Idle), p.mutex, HighestWaiting(s, p.mutex), t)
    else s.(pc := s.pc[t := NextPc(s, t, expired)], stale := s.stale || (p.LastTry? && expired && t in s.inherited))
  }

  /** The tick handler takes a task whose block time is up off its event list. */
  function Expire(s: State, t: Task): State {
    match PcOf(s, t)
    case Waiting(m) =>
      if t in Waiters(s, m) then
        s.(waiters := s.waiters[m := Without(Waiters(s, m), t)], guarded := s.guarded[m := Guarded(s, m) - {t}])
      else s
    case _ => s
  }

  datatype Step =
    | Start(task: Task, mutex: Mutex)                // xQueueSemaphoreTake with a block time
    | TryOnce(task: Task, mutex: Mutex)              // and without
    | Move(task: Task, expired: bool)
    | GiveBack(task: Task, mutex: Mutex)             // xQueueGenericSend by the holder
    | Nest(task: Task, mutex: Mutex)                 // xQueueTakeMutexRecursive by the holder
    | Unnest(task: Task, mutex: Mutex)               // xQueueGiveMutexRecursive
    | TickExpires(task: Task)
    | Reprioritise(task: Task, priority: nat)

  function Apply(s: State, a: Step): State {
    match a
    case Start(t, m) => s.(pc := s.pc[t := Trying(m)], inherited := s.inherited - {t})
    case TryOnce(t, m) => if m !in s.taken then Take(s, t, m) else s
    case Move(t, expired) => Turn(s, t, expired)
    case GiveBack(t, m) => Give(s, t, m)
    case Nest(t, m) =>
      if m in s.holder && s.holder[m] == t then s.(depth := s.depth[m := Depth(s, m) + 1]) else s
    case Unnest(t, m) =>
      if m in s.holder && s.holder[m] == t && Depth(s, m) > 0 then
        var s1 := s.(depth := s.depth[m := Depth(s, m) - 1]);
        if Depth(s, m) == 1 then Give(s1, t, m) else s1
      else s
    case TickExpires(t) => Expire(s, t)
    case Reprioritise(t, p) => SetPriority(s, t, p)
  }

  /** A task makes calls only while it is in none; the holder gives a mutex back. */
  predicate Legal(s: State, a: Step) {
    match a
    case Start(t, m) => PcOf(s, t) == Idle
    case TryOnce(t, m) => PcOf(s, t) == Idle
    case GiveBack(t, m) => PcOf(s, t) == Idle && m in s.holder && s.holder[m] == t && m !in s.recursive
    case Nest(t, m) => PcOf(s, t) == Idle && m in s.recursive
    case Unnest(t, m) => PcOf(s, t) == Idle && m in s.recursive
    case _ => true
  }
}
