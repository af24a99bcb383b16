/** A queue of queue.c outside any queue set: its contents, its two event lists and the two
    lock counts that stand in for event-list updates while the queue is locked. */
module Queues {
  import opened Rings

  type Task = nat

  /** The uxItemSize bytes of one item; a semaphore's items carry nothing. */
  type Item = nat

  datatype Position = Back | Front | Overwrite

  /** queueUNLOCKED, queueLOCKED_UNMODIFIED and the largest int8_t. */
  const UNLOCKED: int := -1
  const UNMODIFIED: int := 0
  const INT8_MAX: int := 127

  /** The lock counts are int8_t: one past 127 is -128. */
  type int8 = c: int | -128 <= c <= 127

  function Increment(c: int8): int8 {
    if c == INT8_MAX then -128 else c + 1
  }

  datatype Queue = Queue(
    items: seq<Item>,          // oldest first
    length: nat,               // uxLength
    receivers: seq<Task>,      // xTasksWaitingToReceive, first to be woken first
    senders: seq<Task>,        // xTasksWaitingToSend
    rxLock: int8,
    txLock: int8
  )

  /** prvCopyDataToQueue on the abstract contents. */
  function Put(q: Queue, x: Item, p: Position): Queue {
    match p
    case Back => q.(items := q.items + [x])
    case Front => q.(items := [x] + q.items)
    case Overwrite => q.(items := if q.items == [] then [x] else [x] + q.items[1..])
  }

  /** Where a sent item is to be found, given the contents before and after, oldest first. */
  predicate Placed(x: Item, p: Position, before: seq<Item>, after: seq<Item>) {
    match p
    case Back => |after| == |before| + 1 && after[..|before|] == before && after[|before|] == x
    case Front => |after| == |before| + 1 && after[0] == x && after[1..] == before
    case Overwrite => after == [x]
  }

  function WakeReceiver(q: Queue): Queue {
    q.(receivers := if q.receivers == [] then [] else q.receivers[1..])
  }

  function WakeSender(q: Queue): Queue {
    q.(senders := if q.senders == [] then [] else q.senders[1..])
  }

  predicate HasRoom(q: Queue, p: Position) {
    |q.items| < q.length || p == Overwrite
  }

  /** The successful critical section of xQueueGenericSend. */
  function Send(q: Queue, x: Item, p: Position): Queue {
    WakeReceiver(Put(q, x, p))
  }

  /** The successful critical section of xQueueReceive. */
  function Receive(q: Queue): Queue
    requires q.items != []
  {
    WakeSender(q.(items := q.items[1..]))
  }

  /** xQueueGenericSendFromISR: a locked queue only counts the post. */
  function SendFromISR(q: Queue, x: Item, p: Position): Queue {
    if !HasRoom(q, p) then q
    else if q.txLock == UNLOCKED then Send(q, x, p)
    else Put(q, x, p).(txLock := Increment(q.txLock))
  }

  /** xQueueReceiveFromISR. */
  function ReceiveFromISR(q: Queue): Queue {
    if q.items == [] then q
    else if q.rxLock == UNLOCKED then Receive(q)
    else q.(items := q.items[1..], rxLock := Increment(q.rxLock))
  }

  /** prvLockQueue. */
  function Lock(q: Queue): Queue {
    q.(rxLock := if q.rxLock == UNLOCKED then UNMODIFIED else q.rxLock,
       txLock := if q.txLock == UNLOCKED then UNMODIFIED else q.txLock)
  }

  /** How many waiting tasks a lock count wakes when the queue is unlocked. */
  function Owed(lock: int8, waiting: seq<Task>): (k: nat)
    ensures k <= |waiting|
  {
    if lock <= 0 then 0 else if lock <= |waiting| then lock else |waiting|
  }

  /** The two critical sections of prvUnlockQueue. */
  function UnlockTx(q: Queue): Queue {
    q.(receivers := q.receivers[Owed(q.txLock, q.receivers)..], txLock := UNLOCKED)
  }

  function UnlockRx(q: Queue): Queue {
    q.(senders := q.senders[Owed(q.rxLock, q.senders)..], rxLock := UNLOCKED)
  }

  /** xQueueGenericReset of a queue in use: one waiting sender is woken. */
  function Reset(q: Queue): Queue {
    WakeSender(q.(items := [], rxLock := UNLOCKED, txLock := UNLOCKED))
  }

  /** i + 1 slots after the read position, going round. */
  function SlotAfter(read: nat, i: nat, length: nat): (k: nat)
    requires read < length && i <= length
    ensures k < length
  {
    var s := read + 1 + i;
    if s < length then s else if s < 2 * length then s - length else s - 2 * length
  }

  lemma SlotIsModulo(read: nat, i: nat, length: nat)
    requires read < length && i <= length
    ensures SlotAfter(read, i, length) == (read + 1 + i) % length
  {
    var s := read + 1 + i;
    if s < length {
      ModUnique(s, length, 0, s);
    } else if s < 2 * length {
      ModUnique(s, length, 1, s - length);
    } else {
      ModUnique(s, length, 2, s - 2 * length);
    }
  }

  /** The count slots after the read position, oldest first. */
  function Unroll(slots: seq<Item>, read: nat, count: nat): (s: seq<Item>)
    requires read < |slots| && count <= |slots|
    ensures |s| == count
    ensures forall i :: 0 <= i < count ==> s[i] == slots[SlotAfter(read, i, |slots|)]
  {
    seq(count, i requires 0 <= i < count => slots[SlotAfter(read, i, |slots|)])
  }

  /** The storage area is a ring of slots: the oldest item follows pcReadFrom, and pcWriteTo is
      the slot after the newest. */
  class QueueObject {
    const storage: array<Item>
    var writeTo: nat
    var readFrom: nat
    var messagesWaiting: nat
    var receivers: seq<Task>
    var senders: seq<Task>
    var rxLock: int8
    var txLock: int8

    /** The slot of the i-th oldest item. */
    ghost function Slot(i: nat): (k: nat)
      requires readFrom < storage.Length && i <= storage.Length
      reads this
      ensures k < storage.Length
    {
      SlotAfter(readFrom, i, storage.Length)
    }

    ghost predicate Valid()
      reads this
    {
      && storage.Length > 0 && readFrom < storage.Length && messagesWaiting <= storage.Length
      && writeTo == Slot(messagesWaiting)
    }

    ghost function Contents(): (s: seq<Item>)
      requires Valid()
      reads this, storage
      ensures |s| == messagesWaiting
      ensures forall i :: 0 <= i < |s| ==> s[i] == storage[Slot(i)]
    {
      Unroll(storage[..], readFrom, messagesWaiting)
    }

    ghost function View(): Queue
      requires Valid()
      reads this, storage
    {
      Queue(Contents(), storage.Length, receivers, senders, rxLock, txLock)
    }

    /** xQueueGenericCreate and the reset of a new queue. */
    constructor (queueLength: nat)
      requires queueLength > 0
      ensures Valid() && fresh(storage)
      ensures View() == Queue([], queueLength, [], [], UNLOCKED, UNLOCKED)
    {
      storage := new Item[queueLength];
      writeTo, readFrom, messagesWaiting := 0, queueLength - 1, 0;
      receivers, senders, rxLock, txLock := [], [], UNLOCKED, UNLOCKED;
    }

    /** xQueueGenericReset on a queue in use. */
    method GenericReset()
      requires Valid()
      modifies this
      ensures Valid() && View() == Reset(old(View()))
      ensures Contents() == [] && rxLock == txLock == UNLOCKED && receivers == old(receivers)
      ensures senders == if old(senders) == [] then [] else old(senders)[1..]
    {
      messagesWaiting, writeTo, readFrom := 0, 0, storage.Length - 1;
      rxLock, txLock := UNLOCKED, UNLOCKED;
      WakeOneSender();
    }

    method WakeOneReceiver()
      requires Valid()
      modifies this`receivers
      ensures Valid() && View() == WakeReceiver(old(View()))
    {
      if |receivers| > 0 {
        receivers := receivers[1..];
      }
    }

    method WakeOneSender()
      requires Valid()
      modifies this`senders
      ensures Valid() && View() == WakeSender(old(View()))
    {
      if |senders| > 0 {
        senders := senders[1..];
      }
    }

    /** prvCopyDataToQueue, queueSEND_TO_BACK. */
    method CopyToBack(x: Item)
      requires Valid() && messagesWaiting < storage.Length
      modifies this`writeTo, this`messagesWaiting, storage
      ensures Valid() && View() == Put(old(View()), x, Back)
      ensures Contents() == old(Contents()) + [x]
    {
      ghost var s := Contents();
      ghost var k := writeTo;
      storage[writeTo] := x;
      writeTo := writeTo + 1;
      if writeTo >= storage.Length {
        writeTo := 0;
      }
      messagesWaiting := messagesWaiting + 1;
      assert Slot(messagesWaiting - 1) == k;
      assert Contents() == s + [x];
    }

    method StepReadBack()
      requires readFrom < storage.Length
      modifies this`readFrom
      ensures readFrom == if old(readFrom) == 0 then storage.Length - 1 else old(readFrom) - 1
    {
      if readFrom == 0 {
        readFrom := storage.Length - 1;
      } else {
        readFrom := readFrom - 1;
      }
    }

    /** prvCopyDataToQueue, queueSEND_TO_FRONT. */
    method CopyToFront(x: Item)
      requires Valid() && messagesWaiting < storage.Length
      modifies this`readFrom, this`messagesWaiting, storage
      ensures Valid() && View() == Put(old(View()), x, Front)
      ensures |Contents()| == |old(Contents())| + 1 && Contents()[0] == x && Contents()[1..] == old(Contents())
    {
      ghost var s := Contents();
      ghost var k := readFrom;
      storage[readFrom] := x;
      StepReadBack();
      messagesWaiting := messagesWaiting + 1;
      assert Slot(0) == k;
      assert Contents() == [x] + s;
    }

    /** prvCopyDataToQueue, queueOVERWRITE on a queue of length 1. */
    method CopyOver(x: Item)
      requires Valid() && storage.Length == 1
      modifies this`readFrom, this`messagesWaiting, storage
      ensures Valid() && View() == Put(old(View()), x, Overwrite)
      ensures Contents() == [x]
    {
      storage[readFrom] := x;
      StepReadBack();
      var n := messagesWaiting;
      if n > 0 {
        n := n - 1;
      }
      messagesWaiting := n + 1;
      assert Contents() == [x];
    }

    /** prvCopyDataToQueue. */
    method CopyDataToQueue(x: Item, p: Position)
      requires Valid() && HasRoom(View(), p) && (p == Overwrite ==> storage.Length == 1)
      modifies this`readFrom, this`writeTo, this`messagesWaiting, storage
      ensures Valid() && View() == Put(old(View()), x, p) && Placed(x, p, old(Contents()), Contents())
    {
      hide Put;
      match p
      case Back => CopyToBack(x);
      case Front => CopyToFront(x);
      case Overwrite => CopyOver(x);
    }

    /** prvCopyDataFromQueue: the read position moves on before the copy. */
    method CopyDataFromQueue() returns (x: Item)
      requires Valid() && messagesWaiting > 0
      modifies this`readFrom
      ensures readFrom == old(Slot(0)) && x == old(Contents())[0]
    {
      readFrom := readFrom + 1;
      if readFrom >= storage.Length {
        readFrom := 0;
      }
      x := storage[readFrom];
    }

    /** The first critical section of xQueueGenericSend. */
    method TrySend(x: Item, p: Position) returns (sent: bool)
      requires Valid() && (p == Overwrite ==> storage.Length == 1)
      modifies this, storage
      ensures Valid() && sent == HasRoom(old(View()), p)
      ensures View() == if sent then Send(old(View()), x, p) else old(View())
      ensures sent <==> |old(Contents())| < storage.Length || p == Overwrite
      ensures if sent then Placed(x, p, old(Contents()), Contents()) else Contents() == old(Contents())
      ensures receivers == if sent && old(receivers) != [] then old(receivers)[1..] else old(receivers)
    {
      hide Put, Placed;
      sent := messagesWaiting < storage.Length || p == Overwrite;
      if sent {
        CopyDataToQueue(x, p);
        WakeOneReceiver();
      }
    }

    method TakeOldest() returns (x: Item)
      requires Valid() && messagesWaiting > 0
      modifies this`readFrom, this`messagesWaiting
      ensures Valid() && x == old(View()).items[0]
      ensures View() == old(View()).(items := old(View()).items[1..])
      ensures [x] + Contents() == old(Contents())
    {
      ghost var s := Contents();
      x := CopyDataFromQueue();
      messagesWaiting := messagesWaiting - 1;
      assert Contents() == s[1..];
    }

    /** The first critical section of xQueueReceive. */
    method TryReceive() returns (received: bool, x: Item)
      requires Valid()
      modifies this
      ensures Valid() && received == (old(View()).items != [])
      ensures received ==> x == old(View()).items[0]
      ensures View() == if received then Receive(old(View())) else old(View())
      ensures if received then [x] + Contents() == old(Contents()) else Contents() == old(Contents()) == []
      ensures senders == if received && old(senders) != [] then old(senders)[1..] else old(senders)
    {
      received, x := messagesWaiting > 0, 0;
      ghost var s := Contents();
      if received {
        x := TakeOldest();
        assert [x] + Contents() == s;
        WakeOneSender();
        assert Contents() == View().items;
      }
    }

    /** The first critical section of xQueuePeek: the read position is put back. */
    method TryPeek() returns (received: bool, x: Item)
      requires Valid()
      modifies this
      ensures Valid() && received == (old(View()).items != [])
      ensures received ==> x == old(View()).items[0]
      ensures View() == if received then WakeReceiver(old(View())) else old(View())
      ensures Contents() == old(Contents()) && (received ==> x == Contents()[0])
      ensures receivers == if received && old(receivers) != [] then old(receivers)[1..] else old(receivers)
    {
      received, x := messagesWaiting > 0, 0;
      if received {
        ghost var s := Contents();
        var originalReadPosition := readFrom;
        x := CopyDataFromQueue();
        readFrom := originalReadPosition;
        assert Contents() == s;
        WakeOneReceiver();
      }
    }

    /** xQueueGenericSendFromISR. */
    method GenericSendFromISR(x: Item, p: Position) returns (sent: bool)
      requires Valid() && (p == Overwrite ==> storage.Length == 1)
      modifies this, storage
      ensures Valid() && sent == HasRoom(old(View()), p)
      ensures View() == SendFromISR(old(View()), x, p)
      ensures if sent then Placed(x, p, old(Contents()), Contents()) else Contents() == old(Contents())
    {
      hide Put, Placed;
      sent := messagesWaiting < storage.Length || p == Overwrite;
      if sent {
        var lock := txLock;
        CopyDataToQueue(x, p);
        if lock == UNLOCKED {
          WakeOneReceiver();
        } else {
          txLock := Increment(lock);
        }
      }
    }

    /** xQueueReceiveFromISR. */
    method TakeFromISR() returns (received: bool, x: Item)
      requires Valid()
      modifies this
      ensures Valid() && received == (old(View()).items != [])
      ensures received ==> x == old(View()).items[0]
      ensures View() == ReceiveFromISR(old(View()))
      ensures if received then [x] + Contents() == old(Contents()) else Contents() == old(Contents()) == []
    {
      received, x := messagesWaiting > 0, 0;
      if received {
        var lock := rxLock;
        x := TakeOldest();
        if lock == UNLOCKED {
          WakeOneSender();
        } else {
          rxLock := Increment(lock);
        }
      }
    }

    /** prvLockQueue. */
    method LockQueue()
      requires Valid()
      modifies this`rxLock, this`txLock
      ensures Valid() && View() == Lock(old(View()))
    {
      if rxLock == UNLOCKED {
        rxLock := UNMODIFIED;
      }
      if txLock == UNLOCKED {
        txLock := UNMODIFIED;
      }
    }

    /** prvUnlockQueue, first critical section. */
    method UnlockTransmit()
      requires Valid()
      modifies this`receivers, this`txLock
      ensures Valid() && View() == UnlockTx(old(View()))
    {
      var lock := txLock;
      ghost var waiting := receivers;
      while lock > UNMODIFIED
        invariant lock <= txLock && Valid() && txLock == old(txLock)
        invariant |receivers| <= |waiting| && receivers == waiting[|waiting| - |receivers|..]
        invariant txLock > 0 ==> lock >= 0 && txLock - lock == |waiting| - |receivers|
        invariant txLock <= 0 ==> lock == txLock && receivers == waiting
      {
        if |receivers| > 0 {
          WakeOneReceiver();
        } else {
          break;
        }
        lock := lock - 1;
      }
      txLock := UNLOCKED;
    }

    /** prvUnlockQueue, second critical section. */
    method UnlockReceive()
      requires Valid()
      modifies this`senders, this`rxLock
      ensures Valid() && View() == UnlockRx(old(View()))
    {
      var lock := rxLock;
      ghost var waiting := senders;
      while lock > UNMODIFIED
        invariant lock <= rxLock && Valid() && rxLock == old(rxLock)
        invariant |senders| <= |waiting| && senders == waiting[|waiting| - |senders|..]
        invariant rxLock > 0 ==> lock >= 0 && rxLock - lock == |waiting| - |senders|
        invariant rxLock <= 0 ==> lock == rxLock && senders == waiting
      {
        if |senders| > 0 {
          WakeOneSender();
          lock := lock - 1;
        } else {
          break;
        }
      }
      rxLock := UNLOCKED;
    }
  }
}
