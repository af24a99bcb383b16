/** Message framing over whole runs: messages come out whole and in order, even when the reader
    runs between the writer's two writes. */
module StreamRuns {
  import opened ByteRings
  import opened StreamBuffers

  type Text = seq<byte>

  datatype Writing = Nothing | HeaderWritten(data: Text)

  datatype Channel = Channel(
    bytes: seq<byte>,        // what is in the ring
    capacity: nat,           // xLength - 1
    writing: Writing,        // between the two writes of prvWriteMessageToBuffer
    sent: seq<Text>,         // messages written whole
    received: seq<Text>      // messages handed to the reader
  )

  datatype Step =
    | Begin(data: Text)      // the writer samples the space and, if it suffices, writes the header
    | Finish                 // the writer writes the message itself
    | Receive(room: nat)     // the reader, with a buffer of this size

  function Apply(c: Channel, s: Step): Channel {
    match s
    case Begin(data) =>
      if c.writing.Nothing? && |c.bytes| + |data| + HEADER <= c.capacity && |data| < SIZE_LIMIT then
        c.(bytes := c.bytes + Encode(|data|), writing := HeaderWritten(data))
      else c
    case Finish =>
      if c.writing.HeaderWritten? then
        c.(bytes := c.bytes + c.writing.data, writing := Nothing, sent := c.sent + [c.writing.data])
      else c
    case Receive(room) =>
      var (left, data) := ReadMessage(c.bytes, room, true);
      c.(bytes := left, received := if data == [] then c.received else c.received + [data])
  }

  /** One writer; empty messages are asserted against. */
  predicate Legal(c: Channel, s: Step) {
    match s
    case Begin(data) => c.writing.Nothing? && |data| > 0
    case Finish => true
    case Receive(_) => true
  }

  /** Messages as they lie in the ring. */
  function Frames(ms: seq<Text>): seq<byte>
    requires forall i :: 0 <= i < |ms| ==> |ms[i]| < SIZE_LIMIT
  {
    if ms == [] then [] else Encode(|ms[0]|) + ms[0] + Frames(ms[1..])
  }

  function Pending(c: Channel): seq<byte> {
    if c.writing.HeaderWritten? && |c.writing.data| < SIZE_LIMIT then Encode(|c.writing.data|) else []
  }

  predicate Proper(ms: seq<Text>) {
    forall i :: 0 <= i < |ms| ==> 0 < |ms[i]| < SIZE_LIMIT
  }

  /** The ring holds exactly the messages sent but not received, then at most one header. */
  ghost predicate Framed(c: Channel) {
    && Proper(c.sent) && |c.received| <= |c.sent| && c.received == c.sent[..|c.received|]
    && c.bytes == Frames(c.sent[|c.received|..]) + Pending(c)
    && |c.bytes| + (if c.writing.HeaderWritten? then |c.writing.data| else 0) <= c.capacity
    && (c.writing.HeaderWritten? ==> 0 < |c.writing.data| < SIZE_LIMIT)
  }

  lemma {:induction false} FramesAppend(ms: seq<Text>, m: Text)
    requires Proper(ms) && |m| < SIZE_LIMIT
    ensures Frames(ms + [m]) == Frames(ms) + Encode(|m|) + m
  {
    if ms == [] {
      assert ms + [m] == [m];
      assert [m][1..] == [];
    } else {
      FramesAppend(ms[1..], m);
      assert (ms + [m])[0] == ms[0] && (ms + [m])[1..] == ms[1..] + [m];
      var a, b, d := Encode(|ms[0]|) + ms[0], Frames(ms[1..]), Encode(|m|);
      assert a + ((b + d) + m) == ((a + b) + d) + m;
    }
  }

  /** The frames of a log that has grown by one message. */
  lemma FramesGrow(sent: seq<Text>, k: nat, m: Text)
    requires Proper(sent) && k <= |sent| && |m| < SIZE_LIMIT
    ensures (sent + [m])[..k] == sent[..k]
    ensures Frames((sent + [m])[k..]) == Frames(sent[k..]) + Encode(|m|) + m
  {
    assert (sent + [m])[k..] == sent[k..] + [m];
    FramesAppend(sent[k..], m);
  }

  lemma FinishFramed(c: Channel)
    requires Framed(c) && c.writing.HeaderWritten?
    ensures Framed(Apply(c, Finish))
  {
    var k := |c.received|;
    var m := c.writing.data;
    var r := Apply(c, Finish);
    assert Pending(c) == Encode(|m|) && Pending(r) == [];
    hide Frames, Encode, Pending;
    FramesGrow(c.sent, k, m);
    assert r.bytes + [] == r.bytes;
  }

  /** A whole message at the front: it is read as a whole, or not at all. */
  lemma ReadWhole(m: Text, rest: seq<byte>, room: nat)
    requires 0 < |m| < SIZE_LIMIT
    ensures var b := Encode(|m|) + m + rest;
      ReadMessage(b, room, true) == if |m| > room then (b, []) else (rest, m)
  {
    var b := Encode(|m|) + m + rest;
    assert b[..HEADER] == Encode(|m|);
    HeaderRoundTrip(|m|);
    hide Encode, Decode;
    assert b[HEADER..HEADER + |m|] == m;
    assert b[HEADER + |m|..] == rest;
  }

  lemma ReceiveFramed(c: Channel, room: nat)
    requires Framed(c)
    ensures Framed(Apply(c, Receive(room)))
    ensures var k := |c.received|;
      if k < |c.sent| && |c.sent[k]| <= room then Apply(c, Receive(room)).received == c.received + [c.sent[k]]
      else Apply(c, Receive(room)) == c
  {
    var k := |c.received|;
    if k == |c.sent| {
      assert c.bytes == Pending(c);
    } else {
      var m := c.sent[k];
      var tail := c.sent[k..];
      var rest := Frames(tail[1..]) + Pending(c);
      assert tail[1..] == c.sent[k + 1..];
      assert c.bytes == (Encode(|m|) + m) + rest;
      ReadWhole(m, rest, room);
      hide ReadMessage, Frames, Pending, Encode;
      var r := Apply(c, Receive(room));
      if |m| <= room {
        assert r.received == c.received + [m];
        assert c.sent[..k + 1] == c.sent[..k] + [m];
        assert Pending(r) == Pending(c) by { PendingSame(c, r); }
      } else {
        assert r == c;
      }
    }
  }

  lemma PendingSame(c: Channel, r: Channel)
    requires c.writing == r.writing
    ensures Pending(c) == Pending(r)
  {
  }

  lemma StepFramed(c: Channel, s: Step)
    requires Framed(c) && Legal(c, s)
    ensures Framed(Apply(c, s))
  {
    match s
    case Begin(data) =>
      assert Frames(c.sent[|c.received|..]) + [] == Frames(c.sent[|c.received|..]);
    case Finish => if c.writing.HeaderWritten? { FinishFramed(c); }
    case Receive(room) => ReceiveFramed(c, room);
  }

  function Final(c: Channel, steps: seq<Step>): Channel
    decreases |steps|
  {
    if steps == [] then c else Final(Apply(c, steps[0]), steps[1..])
  }

  predicate LegalRun(c: Channel, steps: seq<Step>)
    decreases |steps|
  {
    steps != [] ==> Legal(c, steps[0]) && LegalRun(Apply(c, steps[0]), steps[1..])
  }

  lemma {:induction false} RunFramed(c: Channel, steps: seq<Step>)
    requires Framed(c) && LegalRun(c, steps)
    ensures Framed(Final(c, steps))
    decreases |steps|
  {
    if steps != [] {
      StepFramed(c, steps[0]);
      hide Framed, Apply, Legal;
      RunFramed(Apply(c, steps[0]), steps[1..]);
    }
  }

  function Empty(capacity: nat): Channel {
    Channel([], capacity, Nothing, [], [])
  }

  /** The framing round trip over every run: what has been received is a prefix of what has been
      sent, message for message, and the ring never holds more than it can. */
  lemma MessagesWholeInOrder(capacity: nat, steps: seq<Step>)
    requires LegalRun(Empty(capacity), steps)
    ensures var c := Final(Empty(capacity), steps);
      c.received <= c.sent && |c.bytes| <= capacity
  {
    RunFramed(Empty(capacity), steps);
    CapacityStays(Empty(capacity), steps);
  }

  lemma {:induction false} CapacityStays(c: Channel, steps: seq<Step>)
    ensures Final(c, steps).capacity == c.capacity
    decreases |steps|
  {
    if steps != [] { CapacityStays(Apply(c, steps[0]), steps[1..]); }
  }

  /** In every reachable state a reader with enough room gets exactly the next message; one with
      too little gets nothing and changes nothing; with no whole message, nothing happens. */
  lemma NextMessageExactly(capacity: nat, steps: seq<Step>, room: nat)
    requires LegalRun(Empty(capacity), steps)
    ensures var c := Final(Empty(capacity), steps);
      var k := |c.received|;
      k <= |c.sent| &&
      if k < |c.sent| && |c.sent[k]| <= room then Apply(c, Receive(room)).received == c.received + [c.sent[k]]
      else Apply(c, Receive(room)) == c
  {
    RunFramed(Empty(capacity), steps);
    ReceiveFramed(Final(Empty(capacity), steps), room);
  }

  /** Whatever a reader does between the two writes, there is room for the second. */
  lemma SecondWriteFits(capacity: nat, steps: seq<Step>)
    requires LegalRun(Empty(capacity), steps)
    ensures var c := Final(Empty(capacity), steps);
      c.writing.HeaderWritten? ==> |c.bytes| + |c.writing.data| <= capacity
  {
    RunFramed(Empty(capacity), steps);
    CapacityStays(Empty(capacity), steps);
  }

  /** Without a reader in between, the two writes are the one prvWriteMessageToBuffer. */
  lemma TwoWritesAreOne(c: Channel, data: Text)
    requires Framed(c) && c.writing.Nothing? && 0 < |data| < SIZE_LIMIT
    ensures var r := Apply(Apply(c, Begin(data)), Finish);
      var (b, n) := WriteMessage(c.bytes, data, c.capacity - |c.bytes|, true);
      r.bytes == b && (n == |data| <==> r.sent == c.sent + [data]) && (n == 0 <==> r == c)
  {
    var h := Encode(|data|);
    assert (c.bytes + h) + data == c.bytes + h + data;
  }
}
