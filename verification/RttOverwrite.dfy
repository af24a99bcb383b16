/** SEGGER_RTT_WriteWithOverwriteNoLock: what it leaves in the ring, and for which lengths. */
module RttOverwrite {
  import opened ByteRings
  import opened RttRings
  import Rings

  function CopyAt(buf: seq<byte>, at: nat, d: seq<byte>): (r: seq<byte>)
    requires at + |d| <= |buf|
    ensures |r| == |buf|
  {
    buf[..at] + d + buf[at + |d|..]
  }

  /** The rounds of the write loop. Rounds after the first are one byte short of the buffer, and
      a round that fills its space puts the write offset back to 0. */
  function Rounds(buf: seq<byte>, wr: nat, data: seq<byte>, avail: nat): (r: (seq<byte>, nat))
    requires |buf| >= 2 && 0 < avail && wr + avail <= |buf|
    ensures |r.0| == |buf| && r.1 < |buf|
    decreases |data|
  {
    if avail > |data| then (CopyAt(buf, wr, data), wr + |data|)
    else
      var b := CopyAt(buf, wr, data[..avail]);
      if |data| == avail then (b, 0) else Rounds(b, 0, data[avail..], |buf| - 1)
  }

  /** How many unread bytes the write runs over. */
  function Overrun(r: Rtt, data: seq<byte>): nat
    requires Valid(r)
  {
    if |data| > Space(r) then |data| - Space(r) else 0
  }

  function Overwritten(r: Rtt, data: seq<byte>): (s: Rtt)
    requires Valid(r) && |r.buf| >= 2
    ensures Valid(s) && |s.buf| == |r.buf|
  {
    var (b, w) := Rounds(r.buf, r.wr, data, |r.buf| - r.wr);
    Rtt(b, (r.rd + Overrun(r, data)) % |r.buf|, w)
  }

  /** The last n bytes of s. */
  function Last(s: seq<byte>, n: nat): seq<byte> {
    if |s| <= n then s else s[|s| - n..]
  }

  // ----- the write as the source performs it

  /** while (RdOff >= SizeOfBuffer) RdOff -= SizeOfBuffer. */
  method Reduce(x: nat, n: nat) returns (r: nat)
    requires n > 0
    ensures r == x % n
  {
    r := x;
    while r >= n
      invariant r % n == x % n
    {
      LessTurn(r, n);
      r := r - n;
    }
    SmallMod(r, n);
  }

  lemma LessTurn(x: nat, n: nat)
    requires x >= n > 0
    ensures (x - n) % n == x % n
  {
    var q, m := x / n, x % n;
    assert x == n * q + m && x - n == n * (q - 1) + m by { assert n * (q - 1) == n * q - n; }
    Rings.MulBound(n, q);
    if q >= 1 { Rings.ModUnique(x - n, n, q - 1, m); }
  }

  lemma SmallMod(x: nat, n: nat)
    requires x < n
    ensures x % n == x
  {
  }

  lemma RoundsTurn(buf: seq<byte>, wr: nat, data: seq<byte>, avail: nat)
    requires |buf| >= 2 && 0 < avail && wr + avail <= |buf|
    ensures avail > |data| ==> Rounds(buf, wr, data, avail) == (CopyAt(buf, wr, data), wr + |data|)
    ensures avail <= |data| ==>
      var b := CopyAt(buf, wr, data[..avail]);
      Rounds(buf, wr, data, avail) == if |data| == avail then (b, 0) else Rounds(b, 0, data[avail..], |buf| - 1)
  {
  }

  method CopyRound(a: array<byte>, at: nat, d: seq<byte>)
    requires at + |d| <= a.Length
    modifies a
    ensures a[..] == CopyAt(old(a[..]), at, d)
  {
    ghost var b := a[..];
    CopyIn(a, at, d);
    assert a[..] == CopyAt(b, at, d);
  }

  method WriteRounds(ring: Ring, data: seq<byte>)
    requires ring.Valid() && ring.buffer.Length >= 2
    modifies ring`wr, ring.buffer
    ensures ring.Valid() && ring.rd == old(ring.rd)
    ensures (ring.buffer[..], ring.wr) ==
      Rounds(old(ring.buffer[..]), old(ring.wr), data, ring.buffer.Length - old(ring.wr))
  {
    ghost var b0, w0 := ring.buffer[..], ring.wr;
    var n := ring.buffer.Length;
    var avail, left, more := n - ring.wr, data, true;
    while more
      invariant ring.Valid() && 0 < avail && ring.rd == old(ring.rd) && (more ==> ring.wr + avail <= n)
      invariant Rounds(b0, w0, data, n - w0) ==
        if more then Rounds(ring.buffer[..], ring.wr, left, avail) else (ring.buffer[..], ring.wr)
      decreases |left|, more
    {
      ghost var b := ring.buffer[..];
      RoundsTurn(b, ring.wr, left, avail);
      hide Rounds, CopyAt;
      if avail > |left| {
        CopyRound(ring.buffer, ring.wr, left);
        ring.wr := ring.wr + |left|;
        more := false;
      } else {
        CopyRound(ring.buffer, ring.wr, left[..avail]);
        ring.wr := 0;
        more := |left| > avail;
        left := left[avail..];
        avail := n - 1;
      }
    }
  }

  /** How many bytes can be written before the read offset has to move, as three cases. */
  method AvailableBytes(ring: Ring) returns (avail: nat)
    requires ring.Valid()
    ensures avail == Space(ring.View())
  {
    if ring.wr == ring.rd {
      avail := ring.buffer.Length - 1;
    } else if ring.wr < ring.rd {
      avail := ring.rd - ring.wr - 1;
    } else {
      avail := ring.rd + ring.buffer.Length - ring.wr - 1;
    }
  }

  /** The read offset moves on over what is about to be overwritten. */
  method MakeRoom(ring: Ring, data: seq<byte>)
    requires ring.Valid()
    modifies ring`rd
    ensures ring.Valid() && ring.rd == (old(ring.rd) + Overrun(old(ring.View()), data)) % ring.buffer.Length
  {
    var avail := AvailableBytes(ring);
    hide Space;
    SmallMod(ring.rd, ring.buffer.Length);
    if |data| > avail {
      ring.rd := Reduce(ring.rd + (|data| - avail), ring.buffer.Length);
    }
  }

  /** SEGGER_RTT_WriteWithOverwriteNoLock. */
  method WriteWithOverwrite(ring: Ring, data: seq<byte>)
    requires ring.Valid() && ring.buffer.Length >= 2
    modifies ring, ring.buffer
    ensures ring.Valid() && ring.View() == Overwritten(old(ring.View()), data)
  {
    hide Rounds, Overrun;
    MakeRoom(ring, data);
    WriteRounds(ring, data);
  }

  // ----- what is left in the ring

  /** A write shorter than the buffer takes at most two rounds and is a plain ring write. */
  lemma RoundsShort(buf: seq<byte>, wr: nat, data: seq<byte>)
    requires |buf| >= 2 && wr < |buf| && |data| < |buf|
    ensures Rounds(buf, wr, data, |buf| - wr) == (Written(buf, wr, data), Wrap(wr + |data|, |buf|))
  {
    var n := |buf|;
    var avail := n - wr;
    if avail > |data| {
      assert CopyAt(buf, wr, data) == Written(buf, wr, data);
    } else {
      var b := CopyAt(buf, wr, data[..avail]);
      var rest := data[avail..];
      if |data| == avail {
        assert data[..avail] == data;
        assert b == Written(buf, wr, data);
      } else {
        assert CopyAt(b, 0, rest) == Written(buf, wr, data);
      }
    }
  }

  lemma ShortContents(r: Rtt, data: seq<byte>)
    requires Valid(r) && |r.buf| >= 2 && |data| < |r.buf|
    ensures Contents(Overwritten(r, data)) == Last(Contents(r) + data, |r.buf| - 1)
  {
    var n := |r.buf|;
    var c := Contents(r);
    var over := Overrun(r, data);
    ShortWrite(r, data);
    HostTakes(r, over);
    var r1 := HostReads(r, over);
    PutAppends(r1, data);
    hide Overwritten, Contents, HostReads, Put;
    assert (c + data)[over..] == c[over..] + data;
  }

  /** A short write is the host reading what is in the way, then a plain write. */
  lemma ShortWrite(r: Rtt, data: seq<byte>)
    requires Valid(r) && |r.buf| >= 2 && |data| < |r.buf|
    ensures Overrun(r, data) <= |Contents(r)|
    ensures Overwritten(r, data) == Put(HostReads(r, Overrun(r, data)), data)
  {
    RoundsShort(r.buf, r.wr, data);
    OffsetModulo(r.rd, Overrun(r, data), |r.buf|);
    hide Rounds, Written;
  }

  lemma OffsetModulo(rd: nat, over: nat, n: nat)
    requires rd < n && over < n
    ensures (rd + over) % n == Wrap(rd + over, n)
  {
    if rd + over < n { SmallMod(rd + over, n); } else { LessTurn(rd + over, n); SmallMod(rd + over - n, n); }
  }

  /** A write that laps the buffer once, but not twice. */
  lemma RoundsLong(buf: seq<byte>, wr: nat, data: seq<byte>)
    requires |buf| >= 2 && wr < |buf| <= |data| && wr + |data| < 2 * |buf| - 1
    ensures var n := |buf|;
      var w := wr + |data| - n;
      var (b, v) := Rounds(buf, wr, data, n - wr);
      v == w && w + 1 < n && b[w + 1..] == data[|data| - n + 1..n - wr] && b[..w] == data[n - wr..]
  {
    var n := |buf|;
    var avail := n - wr;
    var w := wr + |data| - n;
    var b1 := CopyAt(buf, wr, data[..avail]);
    var rest := data[avail..];
    assert |rest| == w < n - 1;
    var b := CopyAt(b1, 0, rest);
    assert w >= wr;
    forall j | w <= j < n ensures b[j] == data[j - wr] { }
  }

  /** Where the read offset ends up after an overrun: just ahead of where the write should. */
  lemma ReadOffset(r: Rtt, data: seq<byte>)
    requires Valid(r) && |r.buf| >= 2 && |data| >= |r.buf|
    ensures Overwritten(r, data).rd == (r.wr + |data| + 1) % |r.buf|
  {
    var n := |r.buf|;
    var used := |Contents(r)|;
    assert r.rd + Overrun(r, data) == r.rd + used + |data| - n + 1;
    if r.wr >= r.rd {
      assert r.rd + used == r.wr;
      LessTurn(r.wr + |data| + 1, n);
    } else {
      assert r.rd + used == r.wr + n;
    }
  }

  lemma LongState(r: Rtt, data: seq<byte>)
    requires Valid(r) && |r.buf| >= 2 && |data| >= |r.buf| && r.wr + |data| < 2 * |r.buf| - 1
    ensures var n := |r.buf|;
      var s := Overwritten(r, data);
      && s.wr == r.wr + |data| - n && s.rd == s.wr + 1
      && s.buf[s.rd..] == data[|data| - n + 1..n - r.wr] && s.buf[..s.wr] == data[n - r.wr..]
  {
    RoundsLong(r.buf, r.wr, data);
    ReadOffset(r, data);
    LessTurn(r.wr + |data| + 1, |r.buf|);
    SmallMod(r.wr + |data| - |r.buf| + 1, |r.buf|);
    hide Rounds, Contents, Overrun;
  }

  lemma LongContents(r: Rtt, data: seq<byte>)
    requires Valid(r) && |r.buf| >= 2 && |data| >= |r.buf| && r.wr + |data| < 2 * |r.buf| - 1
    ensures Contents(Overwritten(r, data)) == Last(Contents(r) + data, |r.buf| - 1)
  {
    hide Overwritten, Contents;
    var n := |r.buf|;
    LongState(r, data);
    LapContents(Overwritten(r, data));
    assert data[|data| - n + 1..n - r.wr] + data[n - r.wr..] == data[|data| - n + 1..];
    assert (Contents(r) + data)[|Contents(r)| + |data| - (n - 1)..] == data[|data| - n + 1..];
  }

  /** A full ring read from just behind the write offset. */
  lemma LapContents(s: Rtt)
    requires Valid(s) && s.rd == s.wr + 1
    ensures Contents(s) == s.buf[s.rd..] + s.buf[..s.wr] && |Contents(s)| == |s.buf| - 1
  {
  }

  /** Later rounds never write the last byte of the buffer. */
  lemma {:induction false} LaterRounds(buf: seq<byte>, rest: seq<byte>)
    requires |buf| >= 2 && |rest| > 0
    ensures var (b, w) := Rounds(buf, 0, rest, |buf| - 1);
      w == |rest| % (|buf| - 1) && b[|buf| - 1] == buf[|buf| - 1]
    decreases |rest|
  {
    var n := |buf|;
    if n - 1 > |rest| {
      SmallMod(|rest|, n - 1);
    } else {
      LessTurn(|rest|, n - 1);
      var b := CopyAt(buf, 0, rest[..n - 1]);
      assert b[n - 1] == buf[n - 1];
      if |rest| > n - 1 { LaterRounds(b, rest[n - 1..]); } else { SmallMod(0, n - 1); }
    }
  }

  /** All zeros but for the byte that the first round puts at the end of the buffer. */
  function Marked(length: nat, at: nat): (d: seq<byte>)
    requires at < length
    ensures |d| == length && forall j :: 0 <= j < length ==> d[j] == if j == at then 1 else 0
  {
    seq(length, j => if j == at then 1 else 0)
  }

  /** What a write that laps the buffer twice leaves behind. */
  lemma TwiceAround(r: Rtt, data: seq<byte>)
    requires Valid(r) && |r.buf| >= 2 && r.wr + |data| >= 2 * |r.buf| - 1
    ensures var s := Overwritten(r, data);
      s.wr < |r.buf| - 1 && s.buf[|r.buf| - 1] == data[|r.buf| - r.wr - 1]
  {
    var n := |r.buf|;
    var rest := data[n - r.wr..];
    var b := CopyAt(r.buf, r.wr, data[..n - r.wr]);
    RoundsTurn(r.buf, r.wr, data, n - r.wr);
    LaterRounds(b, rest);
    ModBelow(|rest|, n - 1);
    assert b[n - 1] == data[n - r.wr - 1];
    hide Rounds, CopyAt, Contents;
  }

  /** From wr + length = 2 * size - 1 on, a stale byte or a wrong offset shows. */
  lemma TooLong(r: Rtt, length: nat)
    requires Valid(r) && |r.buf| >= 2 && r.wr + length >= 2 * |r.buf| - 1
    ensures var data := Marked(length, |r.buf| - r.wr - 1);
      Contents(Overwritten(r, data)) != Last(Contents(r) + data, |r.buf| - 1)
  {
    var n := |r.buf|;
    var data := Marked(length, n - r.wr - 1);
    TwiceAround(r, data);
    var s := Overwritten(r, data);
    hide *;
    LastOf(Contents(r), data, n - 1);
    FullOrNot(s);
    Stale(Contents(s), Last(Contents(r) + data, n - 1), data, n, r.wr, s.rd, s.wr);
  }

  lemma Stale(have: seq<byte>, want: seq<byte>, data: seq<byte>, n: nat, wr: nat, rd: nat, w: nat)
    requires wr < n && w < n - 1 && wr + |data| >= 2 * n - 1 && data == Marked(|data|, n - wr - 1)
    requires |want| == n - 1 && forall i :: 0 <= i < n - 1 ==> want[i] == data[|data| - (n - 1) + i]
    requires if rd == w + 1 then |have| == n - 1 && have[n - 1 - rd] == data[n - wr - 1] else |have| < n - 1
    ensures have != want
  {
    if rd == w + 1 {
      assert want[n - 1 - rd] == data[|data| - rd] == 0;
    }
  }

  /** Only a ring read from just behind the write offset is full; then its last byte shows. */
  lemma FullOrNot(s: Rtt)
    requires Valid(s) && s.wr < |s.buf| - 1
    ensures var n := |s.buf|;
      if s.rd == s.wr + 1 then |Contents(s)| == n - 1 && Contents(s)[n - 1 - s.rd] == s.buf[n - 1]
      else |Contents(s)| < n - 1
  {
    if s.rd == s.wr + 1 { LapContents(s); }
  }

  lemma LastOf(c: seq<byte>, data: seq<byte>, n: nat)
    requires |data| > n
    ensures |Last(c + data, n)| == n && forall i :: 0 <= i < n ==> Last(c + data, n)[i] == data[|data| - n + i]
  {
  }

  lemma ModBelow(x: nat, n: nat)
    requires n > 0
    ensures x % n < n
  {
  }

  /** The write leaves exactly the last SizeOfBuffer - 1 bytes of what was there and what was
      written, for every content, if and only if it does not lap the buffer twice: the write
      offset plus the length stays below 2 * SizeOfBuffer - 1. In particular for every write
      of at most SizeOfBuffer - 1 bytes. */
  lemma OverwriteExact(r: Rtt, length: nat)
    requires Valid(r) && |r.buf| >= 2
    ensures (forall data: seq<byte> :: |data| == length ==>
        Contents(Overwritten(r, data)) == Last(Contents(r) + data, |r.buf| - 1))
      <==> r.wr + length < 2 * |r.buf| - 1
  {
    if r.wr + length < 2 * |r.buf| - 1 {
      forall data: seq<byte> | |data| == length
        ensures Contents(Overwritten(r, data)) == Last(Contents(r) + data, |r.buf| - 1)
      {
        if length < |r.buf| { ShortContents(r, data); } else { LongContents(r, data); }
      }
    } else {
      TooLong(r, length);
    }
  }

  lemma ShortWritesAlways(r: Rtt, data: seq<byte>)
    requires Valid(r) && |r.buf| >= 2 && |data| <= |r.buf| - 1
    ensures r.wr + |data| < 2 * |r.buf| - 1
    ensures Contents(Overwritten(r, data)) == Last(Contents(r) + data, |r.buf| - 1)
  {
    ShortContents(r, data);
  }
}
