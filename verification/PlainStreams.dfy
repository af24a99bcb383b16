/** A plain stream buffer over whole runs, the reader running also between the writer's look at the
    space and its write: no byte is lost, repeated or reordered. */
module PlainStreams {
  import opened ByteRings
  import opened StreamBuffers

  datatype Writing = Nothing | Sampled(data: seq<byte>, space: nat)

  datatype Pipe = Pipe(
    bytes: seq<byte>,        // what is in the ring
    capacity: nat,           // xLength - 1
    writing: Writing,
    accepted: seq<byte>,     // of each send, as many bytes as the space it has seen
    received: seq<byte>,     // what reads have handed out
    asked: nat               // of each read, as many bytes as there were and as it had room for
  )

  datatype Step =
    | Look(data: seq<byte>)     // xStreamBufferSend samples the space
    | Write                     // and writes
    | Read(room: nat)           // xStreamBufferReceive

  function Apply(c: Pipe, s: Step): Pipe {
    match s
    case Look(data) => c.(writing := Sampled(data, if |c.bytes| <= c.capacity then c.capacity - |c.bytes| else 0))
    case Write =>
      if c.writing.Sampled? && |c.writing.data| < SIZE_LIMIT then
        c.(bytes := WriteMessage(c.bytes, c.writing.data, c.writing.space, false).0, writing := Nothing,
           accepted := c.accepted + FirstOf(c.writing.data, c.writing.space))
      else c
    case Read(room) =>
      var (left, data) := ReadMessage(c.bytes, room, false);
      c.(bytes := left, received := c.received + data,
         asked := c.asked + if room <= |c.bytes| then room else |c.bytes|)
  }

  function FirstOf(data: seq<byte>, n: nat): seq<byte> {
    if |data| <= n then data else data[..n]
  }

  /** One writer, that writes no more than 32 bits can count. */
  predicate Legal(c: Pipe, s: Step) {
    s.Look? ==> c.writing.Nothing? && 0 < |s.data| < SIZE_LIMIT
  }

  ghost predicate Flows(c: Pipe) {
    && c.received + c.bytes == c.accepted && |c.received| == c.asked
    && |c.bytes| + (if c.writing.Sampled? then c.writing.space else 0) <= c.capacity
    && (c.writing.Sampled? ==> |c.writing.data| < SIZE_LIMIT)
  }

  lemma WriteFlows(c: Pipe)
    requires Flows(c) && c.writing.Sampled?
    ensures Flows(Apply(c, Write))
  {
    var d := FirstOf(c.writing.data, c.writing.space);
    var r := Apply(c, Write);
    assert r.bytes == c.bytes + d;
    assert c.received + (c.bytes + d) == (c.received + c.bytes) + d;
  }

  lemma ReadFlows(c: Pipe, room: nat)
    requires Flows(c)
    ensures Flows(Apply(c, Read(room)))
    ensures var r := Apply(c, Read(room)); r.received == c.received + FirstOf(c.bytes, room)
  {
    var k := if room <= |c.bytes| then room else |c.bytes|;
    assert c.bytes == c.bytes[..k] + c.bytes[k..];
    assert (c.received + c.bytes[..k]) + c.bytes[k..] == c.received + c.bytes;
  }

  lemma StepFlows(c: Pipe, s: Step)
    requires Flows(c) && Legal(c, s)
    ensures Flows(Apply(c, s))
  {
    match s
    case Look(_) =>
    case Write => if c.writing.Sampled? { WriteFlows(c); }
    case Read(room) => ReadFlows(c, room);
  }

  function Final(c: Pipe, steps: seq<Step>): Pipe
    decreases |steps|
  {
    if steps == [] then c else Final(Apply(c, steps[0]), steps[1..])
  }

  predicate LegalRun(c: Pipe, steps: seq<Step>)
    decreases |steps|
  {
    steps != [] ==> Legal(c, steps[0]) && LegalRun(Apply(c, steps[0]), steps[1..])
  }

  lemma {:induction false} RunFlows(c: Pipe, steps: seq<Step>)
    requires Flows(c) && LegalRun(c, steps)
    ensures Flows(Final(c, steps)) && Final(c, steps).capacity == c.capacity
    decreases |steps|
  {
    if steps != [] {
      StepFlows(c, steps[0]);
      assert Apply(c, steps[0]).capacity == c.capacity;
      hide Flows, Apply, Legal;
      RunFlows(Apply(c, steps[0]), steps[1..]);
    }
  }

  function Empty(capacity: nat): Pipe {
    Pipe([], capacity, Nothing, [], [], 0)
  }

  /** Over every run: what has been read, followed by what is still in the ring, is what the sends
      could place, byte for byte; reads hand out all they can; the ring is never overfull. */
  lemma BytesInOrder(capacity: nat, steps: seq<Step>)
    requires LegalRun(Empty(capacity), steps)
    ensures var c := Final(Empty(capacity), steps);
      && c.received + c.bytes == c.accepted && |c.received| == c.asked && |c.bytes| <= capacity
      && c.received <= c.accepted
  {
    RunFlows(Empty(capacity), steps);
  }
}
