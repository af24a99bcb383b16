/** The byte ring of stream_buffer.c and the message framing on top of it. */
module StreamBuffers {
  import opened ByteRings

  /** sbBYTES_TO_STORE_MESSAGE_LENGTH: a 32-bit size_t. */
  const HEADER: nat := 4
  const SIZE_LIMIT: nat := 0x1_0000_0000

  /** The length as it lies in memory, least significant byte first. */
  function Encode(n: nat): (h: seq<byte>)
    requires n < SIZE_LIMIT
    ensures |h| == HEADER
  {
    [n % 256, n / 256 % 256, n / 256 / 256 % 256, n / 256 / 256 / 256]
  }

  function Decode(h: seq<byte>): (n: nat)
    requires |h| == HEADER
    ensures n < SIZE_LIMIT
  {
    h[0] as int + 256 * (h[1] as int) + 65536 * (h[2] as int) + 16777216 * (h[3] as int)
  }

  lemma HeaderRoundTrip(n: nat)
    requires n < SIZE_LIMIT
    ensures Decode(Encode(n)) == n
  {
    var a := n / 256;
    var b := a / 256;
    assert n == 256 * a + n % 256 && a == 256 * b + a % 256 && b == 256 * (b / 256) + b % 256;
  }

  function Min(a: nat, b: nat): nat {
    if a <= b then a else b
  }

  // ----- what the operations do to the bytes in the buffer

  /** prvWriteMessageToBuffer, given the space sampled before it; the second result is what it
      returns. */
  function WriteMessage(b: seq<byte>, data: seq<byte>, space: nat, isMessage: bool): (seq<byte>, nat)
    requires |data| < SIZE_LIMIT
  {
    if space == 0 then (b, 0)
    else if !isMessage then (b + data[..Min(|data|, space)], Min(|data|, space))
    else if space >= |data| + HEADER then (b + Encode(|data|) + data, |data|)
    else (b, 0)
  }

  /** xStreamBufferReceive without waiting: what is left, and what is handed out. */
  function ReadMessage(b: seq<byte>, room: nat, isMessage: bool): (r: (seq<byte>, seq<byte>))
    ensures |r.0| <= |b|
  {
    if !isMessage then
      var k := Min(|b|, room);
      (b[k..], b[..k])
    else if |b| <= HEADER then (b, [])
    else
      var n := Decode(b[..HEADER]);
      if n > room then (b, [])
      else
        var k := Min(|b| - HEADER, n);
        (b[HEADER + k..], b[HEADER..HEADER + k])
  }

  /** A stream takes as many of the bytes as there is space for; a message goes in as a whole behind
      its length, or not at all. */
  ghost predicate Accepts(isMessage: bool, before: seq<byte>, after: seq<byte>, data: seq<byte>, space: nat, n: nat)
    requires n <= |data| < SIZE_LIMIT
  {
    if !isMessage then after == before + data[..n] && (n == |data| <= space || n == space <= |data|)
    else if |data| + HEADER <= space then after == before + Encode(|data|) + data && n == |data|
    else after == before && n == 0
  }

  /** A stream hands out the oldest bytes, as many as there are and as fit; a message buffer the
      message whose length stands in front, if there is one and it fits. */
  ghost predicate HandsOut(isMessage: bool, before: seq<byte>, after: seq<byte>, room: nat, data: seq<byte>) {
    if !isMessage then before == data + after && (|data| == room <= |before| || |data| == |before| <= room)
    else if |before| <= HEADER || Decode(before[..HEADER]) > room then after == before && data == []
    else
      && before == before[..HEADER] + data + after
      && (|data| == Decode(before[..HEADER]) || (after == [] && |data| < Decode(before[..HEADER])))
  }

  lemma WriteAccepts(b: seq<byte>, data: seq<byte>, space: nat, isMessage: bool)
    requires |data| < SIZE_LIMIT
    ensures var (r, n) := WriteMessage(b, data, space, isMessage);
      n <= |data| && Accepts(isMessage, b, r, data, space, n)
  {
    hide Encode;
  }

  lemma ReadHandsOut(b: seq<byte>, room: nat, isMessage: bool)
    ensures var (r, data) := ReadMessage(b, room, isMessage); HandsOut(isMessage, b, r, room, data)
  {
    hide Decode;
  }

  /** StreamBuffer_t. */
  class StreamBuffer {
    const buffer: array<byte>      // pucBuffer, of xLength bytes
    const isMessage: bool          // sbFLAGS_IS_MESSAGE_BUFFER
    var head: nat
    var tail: nat

    ghost predicate Valid()
      reads this
    {
      head < buffer.Length && tail < buffer.Length
    }

    /** prvBytesInBuffer. */
    function BytesInBuffer(): (n: nat)
      requires Valid()
      reads this
      ensures n == Used(tail, head, buffer.Length)
    {
      var count := buffer.Length + head - tail;
      if count >= buffer.Length then count - buffer.Length else count
    }

    /** xStreamBufferSpacesAvailable: one byte is never used. */
    function SpacesAvailable(): (n: nat)
      requires Valid()
      reads this
      ensures n + BytesInBuffer() == buffer.Length - 1
    {
      var space := buffer.Length + tail - head - 1;
      if space >= buffer.Length then space - buffer.Length else space
    }

    /** The bytes waiting to be read, oldest first. */
    ghost function Contents(): (s: seq<byte>)
      requires Valid()
      reads this, buffer
      ensures |s| == BytesInBuffer()
    {
      Window(buffer[..], tail, BytesInBuffer())
    }

    /** xStreamBufferGenericCreate and prvInitialiseNewStreamBuffer. */
    constructor (size: nat, message: bool)
      requires size > HEADER
      ensures Valid() && fresh(buffer) && buffer.Length == size + 1 && isMessage == message && Contents() == []
    {
      buffer := new byte[size + 1](_ => 0x55);
      isMessage, head, tail := message, 0, 0;
    }

    /** The two memcpy calls of prvWriteBytesToBuffer. */
    method CopyRound(data: seq<byte>)
      requires Valid() && |data| <= buffer.Length
      modifies buffer
      ensures buffer[..] == Written(old(buffer[..]), head, data)
    {
      var firstLength := Min(buffer.Length - head, |data|);
      CopyIn(buffer, head, data[..firstLength]);
      if |data| > firstLength {
        CopyIn(buffer, 0, data[firstLength..]);
      }
    }

    /** prvWriteBytesToBuffer. */
    method WriteBytes(data: seq<byte>)
      requires Valid() && 0 < |data| <= SpacesAvailable()
      modifies this`head, buffer
      ensures Valid() && Contents() == old(Contents()) + data
    {
      ghost var was := buffer[..];
      WindowWritten(was, tail, BytesInBuffer(), data);
      CopyRound(data);
      var nextHead := head + |data|;
      if nextHead >= buffer.Length {
        nextHead := nextHead - buffer.Length;
      }
      head := nextHead;
    }

    /** The two memcpy calls of prvReadBytesFromBuffer. */
    method CopyOut(count: nat) returns (data: seq<byte>)
      requires Valid() && count < buffer.Length
      ensures data == Window(buffer[..], tail, count)
    {
      var firstLength := Min(buffer.Length - tail, count);
      data := buffer[tail..tail + firstLength];
      if count > firstLength {
        data := data + buffer[..count - firstLength];
      }
    }

    /** prvReadBytesFromBuffer. */
    method ReadBytes(maxCount: nat, bytesAvailable: nat) returns (data: seq<byte>)
      requires Valid() && bytesAvailable <= BytesInBuffer()
      modifies this`tail
      ensures Valid()
      ensures var k := Min(bytesAvailable, maxCount);
        data == old(Contents())[..k] && Contents() == old(Contents())[k..]
    {
      var count := Min(bytesAvailable, maxCount);
      ghost var n := BytesInBuffer();
      WindowSplit(buffer[..], tail, n, count);
      if count > 0 {
        data := CopyOut(count);
        var nextTail := tail + count;
        if nextTail >= buffer.Length {
          nextTail := nextTail - buffer.Length;
        }
        tail := nextTail;
        assert BytesInBuffer() == n - count;
      } else {
        data := [];
      }
    }

    /** prvWriteMessageToBuffer. */
    method WriteMessageToBuffer(data: seq<byte>, space: nat) returns (written: nat)
      requires Valid() && 0 < |data| < SIZE_LIMIT && space <= SpacesAvailable()
      modifies this`head, buffer
      ensures Valid() && (Contents(), written) == WriteMessage(old(Contents()), data, space, isMessage)
      ensures written <= |data| && Accepts(isMessage, old(Contents()), Contents(), data, space, written)
    {
      WriteAccepts(Contents(), data, space, isMessage);
      hide Accepts, Encode;
      written := 0;
      if space == 0 {
      } else if !isMessage {
        written := Min(|data|, space);
        WriteBytes(data[..written]);
      } else if space >= |data| + HEADER {
        WriteBytes(Encode(|data|));
        WriteBytes(data);
        written := |data|;
      }
    }

    /** prvReadMessageFromBuffer, once there are more bytes than a header. */
    method ReadMessageFromBuffer(room: nat, bytesAvailable: nat) returns (data: seq<byte>)
      requires Valid() && bytesAvailable == BytesInBuffer() && (isMessage ==> bytesAvailable > HEADER)
      modifies this`tail
      ensures Valid() && (Contents(), data) == ReadMessage(old(Contents()), room, isMessage)
      ensures HandsOut(isMessage, old(Contents()), Contents(), room, data)
    {
      ghost var was := Contents();
      ReadHandsOut(was, room, isMessage);
      hide HandsOut;
      var left, next := bytesAvailable, room;
      if isMessage {
        var originalTail := tail;
        var header := ReadBytes(HEADER, bytesAvailable);
        next := Decode(header);
        left := left - HEADER;
        if next > room {
          tail := originalTail;
          next := 0;
          assert Contents() == was;
        }
      }
      ghost var now := Contents();
      data := ReadBytes(next, left);
      ghost var k := Min(left, next);
      if isMessage && now == was[HEADER..] {
        assert was[HEADER..][..k] == was[HEADER..HEADER + k] && was[HEADER..][k..] == was[HEADER + k..];
      }
    }

    /** xStreamBufferReceive without waiting. */
    method Receive(room: nat) returns (data: seq<byte>)
      requires Valid()
      modifies this`tail
      ensures Valid() && (Contents(), data) == ReadMessage(old(Contents()), room, isMessage)
      ensures HandsOut(isMessage, old(Contents()), Contents(), room, data)
    {
      ReadHandsOut(Contents(), room, isMessage);
      hide HandsOut;
      var bytesAvailable := BytesInBuffer();
      data := [];
      if bytesAvailable > (if isMessage then HEADER else 0) {
        data := ReadMessageFromBuffer(room, bytesAvailable);
      }
    }

    /** xStreamBufferSend without waiting. */
    method Send(data: seq<byte>) returns (written: nat)
      requires Valid() && 0 < |data| < SIZE_LIMIT
      modifies this`head, buffer
      ensures Valid()
      ensures (Contents(), written) == WriteMessage(old(Contents()), data, old(SpacesAvailable()), isMessage)
      ensures written <= |data|
      ensures Accepts(isMessage, old(Contents()), Contents(), data, old(SpacesAvailable()), written)
    {
      var space := SpacesAvailable();
      written := WriteMessageToBuffer(data, space);
    }

    /** xStreamBufferNextMessageLengthBytes, with no write in progress. */
    method NextMessageLength() returns (n: nat)
      requires Valid() && isMessage && (BytesInBuffer() == 0 || BytesInBuffer() > HEADER)
      modifies this`tail
      ensures Valid() && Contents() == old(Contents())
      ensures n == if Contents() == [] then 0 else Decode(Contents()[..HEADER])
    {
      var bytesAvailable := BytesInBuffer();
      n := 0;
      if bytesAvailable > HEADER {
        ghost var was := Contents();
        var originalTail := tail;
        var header := ReadBytes(HEADER, bytesAvailable);
        n := Decode(header);
        tail := originalTail;
        assert Contents() == was;
      }
    }
  }
}
