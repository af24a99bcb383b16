/** A ring buffer of SEGGER_RTT.c: the target writes at WrOff, the debug host reads at RdOff. */
module RttRings {
  import opened ByteRings
  import Words

  datatype Rtt = Rtt(buf: seq<byte>, rd: nat, wr: nat)

  predicate Valid(r: Rtt) {
    r.rd < |r.buf| && r.wr < |r.buf|
  }

  /** The bytes not yet read, oldest first. */
  function Contents(r: Rtt): (s: seq<byte>)
    requires Valid(r)
    ensures |s| == Used(r.rd, r.wr, |r.buf|)
  {
    Window(r.buf, r.rd, Used(r.rd, r.wr, |r.buf|))
  }

  /** One byte stays unused. */
  function Space(r: Rtt): (n: nat)
    requires Valid(r)
    ensures n + |Contents(r)| == |r.buf| - 1
  {
    |r.buf| - 1 - Used(r.rd, r.wr, |r.buf|)
  }

  /** data appended behind the unread bytes. */
  function Put(r: Rtt, data: seq<byte>): Rtt
    requires Valid(r) && |data| < |r.buf|
  {
    r.(buf := Written(r.buf, r.wr, data), wr := Wrap(r.wr + |data|, |r.buf|))
  }

  /** The host reads k bytes. */
  function HostReads(r: Rtt, k: nat): Rtt
    requires Valid(r) && k < |r.buf|
  {
    r.(rd := Wrap(r.rd + k, |r.buf|))
  }

  lemma PutAppends(r: Rtt, data: seq<byte>)
    requires Valid(r) && |data| <= Space(r)
    ensures Valid(Put(r, data)) && Contents(Put(r, data)) == Contents(r) + data
    ensures Space(Put(r, data)) == Space(r) - |data|
  {
    WindowWritten(r.buf, r.rd, |Contents(r)|, data);
  }

  lemma HostTakes(r: Rtt, k: nat)
    requires Valid(r) && k <= |Contents(r)|
    ensures Valid(HostReads(r, k)) && Contents(HostReads(r, k)) == Contents(r)[k..]
  {
    WindowSplit(r.buf, r.rd, |Contents(r)|, k);
  }

  lemma PutTwice(r: Rtt, a: seq<byte>, b: seq<byte>)
    requires Valid(r) && |a| + |b| <= Space(r)
    ensures Valid(Put(r, a)) && Put(Put(r, a), b) == Put(r, a + b)
  {
    WrittenTwice(r.buf, r.wr, a, b);
  }

  function Min(a: nat, b: nat): nat {
    if a <= b then a else b
  }

  /** How much one pass of _WriteBlocking writes: up to the reader, up to the end, or all. */
  function PassLength(r: Rtt, wanted: nat): (k: nat)
    requires Valid(r)
    ensures k <= wanted && k <= Space(r)
  {
    Min(Min(Space(r), |r.buf| - r.wr), wanted)
  }

  /** _WriteBlocking, pass by pass; before each pass the host has read some more bytes. The ring,
      how many bytes were written, and how many passes it took. */
  function Blocking(r: Rtt, data: seq<byte>, host: seq<nat>): (Rtt, nat, nat)
    requires Valid(r)
    decreases |host|
  {
    if host == [] then (r, 0, 0)
    else
      var r1 := HostReads(r, Min(host[0], |Contents(r)|));
      var k := PassLength(r1, |data|);
      var r2 := Put(r1, data[..k]);
      if k == |data| then (r2, k, 1)
      else
        var (r3, n, p) := Blocking(r2, data[k..], host[1..]);
        (r3, k + n, p + 1)
  }

  /** Counts carried over from earlier passes. */
  function Plus(x: (Rtt, nat, nat), written: nat, passes: nat): (Rtt, nat, nat) {
    (x.0, written + x.1, passes + x.2)
  }

  lemma BlockingEnds(r: Rtt, data: seq<byte>)
    requires Valid(r)
    ensures Blocking(r, data, []) == (r, 0, 0)
  {
  }

  lemma BlockingTurn(r: Rtt, data: seq<byte>, host: seq<nat>)
    requires Valid(r) && host != []
    ensures var r1 := HostReads(r, Min(host[0], |Contents(r)|));
      Valid(r1) && |data[..PassLength(r1, |data|)]| < |r.buf| && Valid(Put(r1, data[..PassLength(r1, |data|)])) &&
      var k := PassLength(r1, |data|);
      var r2 := Put(r1, data[..k]);
      Blocking(r, data, host) == if k == |data| then (r2, k, 1) else Plus(Blocking(r2, data[k..], host[1..]), k, 1)
  {
    hide Put, HostReads, Contents, PassLength, Space, Used, Valid;
    assert |Contents(r)| < |r.buf| by { assert Space(r) >= 0; }
    var r1 := HostReads(r, Min(host[0], |Contents(r)|));
    HostValid(r, Min(host[0], |Contents(r)|));
    assert PassLength(r1, |data|) <= Space(r1) < |r.buf|;
    PutValid(r1, data[..PassLength(r1, |data|)]);
  }

  lemma HostValid(r: Rtt, k: nat)
    requires Valid(r) && k < |r.buf|
    ensures Valid(HostReads(r, k)) && HostReads(r, k).buf == r.buf
  {
  }

  lemma PutValid(r: Rtt, data: seq<byte>)
    requires Valid(r) && |data| < |r.buf|
    ensures Valid(Put(r, data))
  {
    hide Written;
  }

  /** A stretch that does not go round. */
  lemma WindowStraight(buf: seq<byte>, from: nat, n: nat)
    requires from < |buf| && from + n <= |buf|
    ensures Window(buf, from, n) == buf[from..from + n]
  {
  }

  lemma WindowJoin(buf: seq<byte>, from: nat, a: nat, b: nat)
    requires from < |buf| && a + b <= |buf|
    ensures Window(buf, from, a + b) == Window(buf, from, a) + Window(buf, Wrap(from + a, |buf|), b)
  {
    WindowSplit(buf, from, a + b, a);
    assert Window(buf, from, a + b) == Window(buf, from, a + b)[..a] + Window(buf, from, a + b)[a..];
  }

  /** How much of a read lies before the end of the buffer. */
  function ToEnd(r: Rtt, size: nat): (a: nat)
    requires Valid(r)
    ensures a <= size && r.rd + a <= |r.buf|
  {
    if r.rd > r.wr then Min(|r.buf| - r.rd, size) else 0
  }

  /** How much follows, as the unsigned subtraction WrOff - RdOff has it. */
  function Onward(r: Rtt, from: nat, size: nat): (n: nat)
    requires Valid(r) && |r.buf| <= Words.WRAP && from < |r.buf|
    ensures n <= size
  {
    Min(Words.Sub(r.wr, from), size)
  }

  lemma ReadSizes(r: Rtt, size: nat)
    requires Valid(r) && |r.buf| <= Words.WRAP
    ensures var k := Min(size, |Contents(r)|);
      var a := ToEnd(r, size);
      var off := Wrap(r.rd + a, |r.buf|);
      a + Onward(r, off, size - a) == k && off + (k - a) < |r.buf| && off + (k - a) == Wrap(r.rd + k, |r.buf|)
  {
    var a := ToEnd(r, size);
    var off := Wrap(r.rd + a, |r.buf|);
    Difference(r.wr, off);
    assert off <= r.wr || a == size;
    hide Window;
  }

  /** The read goes to the end of the buffer, then on from the start. */
  lemma ReadInTwo(r: Rtt, size: nat)
    requires Valid(r) && |r.buf| <= Words.WRAP
    ensures var k := Min(size, |Contents(r)|);
      var a := ToEnd(r, size);
      var off := Wrap(r.rd + a, |r.buf|);
      && a + Onward(r, off, size - a) == k && off + (k - a) == Wrap(r.rd + k, |r.buf|)
      && Contents(r)[..k] == r.buf[r.rd..r.rd + a] + r.buf[off..off + (k - a)]
  {
    ReadSizes(r, size);
    assert Contents(r) == Window(r.buf, r.rd, |Contents(r)|);
    hide *;
    var k := Min(size, |Contents(r)|);
    WindowSplit(r.buf, r.rd, |Contents(r)|, k);
    WindowInTwo(r.buf, r.rd, ToEnd(r, size), k - ToEnd(r, size));
  }

  lemma WindowInTwo(buf: seq<byte>, from: nat, a: nat, b: nat)
    requires from < |buf| && from + a <= |buf| && a + b <= |buf| && Wrap(from + a, |buf|) + b <= |buf|
    ensures var off := Wrap(from + a, |buf|);
      Window(buf, from, a + b) == buf[from..from + a] + buf[off..off + b]
  {
    hide *;
    WindowStraight(buf, from, a);
    WindowJoin(buf, from, a, b);
    WindowStraight(buf, Wrap(from + a, |buf|), b);
  }

  lemma ReadJoined(r: Rtt, size: nat, first: seq<byte>, more: seq<byte>)
    requires Valid(r) && |r.buf| <= Words.WRAP
    requires var a := ToEnd(r, size);
      var off := Wrap(r.rd + a, |r.buf|);
      && off + Onward(r, off, size - a) <= |r.buf|
      && first == r.buf[r.rd..r.rd + a] && more == r.buf[off..off + Onward(r, off, size - a)]
    ensures first + more == Contents(r)[..Min(size, |Contents(r)|)]
  {
    ReadInTwo(r, size);
    hide *;
  }

  lemma Difference(a: nat, b: nat)
    requires a < Words.WRAP && b < Words.WRAP
    ensures b <= a ==> Words.Sub(a, b) == a - b
  {
  }

  class Ring {
    const buffer: array<byte>
    var rd: nat
    var wr: nat

    ghost predicate Valid()
      reads this
    {
      rd < buffer.Length && wr < buffer.Length
    }

    ghost function View(): (r: Rtt)
      reads this, buffer
    {
      Rtt(buffer[..], rd, wr)
    }

    constructor (size: nat)
      requires size > 0
      ensures Valid() && fresh(buffer) && buffer.Length == size && Contents(View()) == []
    {
      buffer := new byte[size](_ => 0);
      rd, wr := 0, 0;
    }

    /** _GetAvailWriteSpace. */
    method GetAvailWriteSpace() returns (r: nat)
      requires Valid()
      ensures r == Space(View())
    {
      if rd <= wr {
        r := buffer.Length - 1 - wr + rd;
      } else {
        r := rd - wr - 1;
      }
    }

    /** One pass of _WriteBlocking. */
    method WritePass(data: seq<byte>) returns (written: nat)
      requires Valid()
      modifies this`wr, buffer
      ensures Valid() && written == PassLength(old(View()), |data|)
      ensures View() == Put(old(View()), data[..written])
    {
      ghost var r := View();
      var toWrite := if rd > wr then rd - wr - 1 else buffer.Length - (wr - rd + 1);
      toWrite := Min(toWrite, buffer.Length - wr);
      toWrite := Min(toWrite, |data|);
      CopyIn(buffer, wr, data[..toWrite]);
      assert buffer[..] == Written(r.buf, wr, data[..toWrite]);
      written := toWrite;
      wr := wr + toWrite;
      if wr == buffer.Length {
        wr := 0;
      }
    }

    /** What the debug host does between two passes. */
    method Host(k: nat)
      requires Valid()
      modifies this`rd
      ensures Valid() && View() == HostReads(old(View()), Min(k, |Contents(old(View()))|))
    {
      var used := if wr >= rd then wr - rd else wr + buffer.Length - rd;
      var step := Min(k, used);
      rd := if rd + step < buffer.Length then rd + step else rd + step - buffer.Length;
    }

    /** _WriteBlocking, for as many passes as the host's reads are listed. */
    method WriteBlocking(data: seq<byte>, host: seq<nat>) returns (written: nat, ghost passes: nat)
      requires Valid()
      modifies this, buffer
      ensures Valid() && (View(), written, passes) == Blocking(old(View()), data, host)
    {
      ghost var r := View();
      hide Blocking, Put, HostReads, PassLength, Contents;
      written, passes := 0, 0;
      var i, done := 0, false;
      assert data[0..] == data && host[0..] == host;
      while i < |host| && !done
        invariant Valid() && i <= |host| && written <= |data|
        invariant Blocking(r, data, host) ==
          if done then (View(), written, passes)
          else Plus(Blocking(View(), data[written..], host[i..]), written, passes)
      {
        BlockingTurn(View(), data[written..], host[i..]);
        ghost var v := View();
        Host(host[i]);
        var k := WritePass(data[written..]);
        assert data[written..][k..] == data[written + k..] && host[i..][1..] == host[i + 1..];
        done := k == |data| - written;
        written, passes, i := written + k, passes + 1, i + 1;
      }
      BlockingEnds(View(), data[written..]);
      assert !done ==> host[i..] == [];
    }

    /** _WriteNoCheck: the caller has made sure the data fits. */
    method WriteNoCheck(data: seq<byte>)
      requires Valid() && |data| <= Space(View())
      modifies this`wr, buffer
      ensures Valid() && View() == Put(old(View()), data)
    {
      ghost var r := View();
      var rem := buffer.Length - wr;
      if rem > |data| {
        CopyIn(buffer, wr, data);
        assert buffer[..] == Written(r.buf, r.wr, data);
        wr := wr + |data|;
      } else {
        CopyIn(buffer, wr, data[..rem]);
        CopyIn(buffer, 0, data[rem..]);
        assert buffer[..] == Written(r.buf, r.wr, data);
        wr := |data| - rem;
      }
    }

    /** SEGGER_RTT_WriteSkipNoLock. */
    method WriteSkip(data: seq<byte>) returns (copied: bool)
      requires Valid()
      modifies this`wr, buffer
      ensures Valid() && copied == (|data| <= Space(old(View())))
      ensures View() == if copied then Put(old(View()), data) else old(View())
    {
      copied := false;
      if rd <= wr {
        var avail := buffer.Length - wr - 1;
        if avail >= |data| {
          CopyStraight(data);
          copied := true;
        } else {
          avail := avail + rd;
          if avail >= |data| {
            CopyInTwo(data);
            copied := true;
          }
        }
      } else {
        var avail := rd - wr - 1;
        if avail >= |data| {
          CopyStraight(data);
          copied := true;
        }
      }
    }

    method CopyStraight(data: seq<byte>)
      requires Valid() && wr + |data| < buffer.Length
      modifies this`wr, buffer
      ensures Valid() && View() == Put(old(View()), data)
    {
      ghost var r := View();
      CopyIn(buffer, wr, data);
      assert buffer[..] == Written(r.buf, r.wr, data);
      wr := wr + |data|;
    }

    method CopyInTwo(data: seq<byte>)
      requires Valid() && |data| < buffer.Length <= wr + |data|
      modifies this`wr, buffer
      ensures Valid() && View() == Put(old(View()), data)
    {
      ghost var r := View();
      var rem := buffer.Length - wr;
      CopyIn(buffer, wr, data[..rem]);
      var left := |data| - rem;
      if left > 0 {
        CopyIn(buffer, 0, data[rem..]);
      }
      assert buffer[..] == Written(r.buf, r.wr, data);
      wr := left;
    }

    /** The part of SEGGER_RTT_ReadNoLock that reads up to the end of the buffer. */
    method ReadToEnd(size: nat) returns (data: seq<byte>, off: nat)
      requires Valid()
      ensures var r := View();
        var k := ToEnd(r, size);
        |data| == k && data == r.buf[r.rd..r.rd + k] && off == Wrap(r.rd + k, |r.buf|)
    {
      off, data := rd, [];
      if off > wr {
        var n := Min(buffer.Length - off, size);
        data := buffer[off..off + n];
        off := off + n;
        if off == buffer.Length {
          off := 0;
        }
      }
    }

    /** The part that reads the remaining items. */
    method ReadOn(from: nat, size: nat) returns (data: seq<byte>, off: nat)
      requires Valid() && buffer.Length <= Words.WRAP && from < buffer.Length
      requires from + Onward(View(), from, size) <= buffer.Length
      ensures off == from + Onward(View(), from, size) && data == View().buf[from..off]
    {
      var n := Min(Words.Sub(wr, from), size);
      off, data := from, [];
      if n > 0 {
        data := buffer[off..off + n];
        off := off + n;
      }
    }

    /** The bytes SEGGER_RTT_ReadNoLock hands out, and where it leaves RdOff. */
    method ReadBoth(size: nat) returns (data: seq<byte>, off: nat)
      requires Valid() && buffer.Length <= Words.WRAP
      ensures var r := View();
        var k := Min(size, |Contents(r)|);
        data == Contents(r)[..k] && off == Wrap(r.rd + k, |r.buf|)
    {
      ghost var r := View();
      ReadSizes(r, size);
      hide *;
      var first, more;
      first, off := ReadToEnd(size);
      more, off := ReadOn(off, size - |first|);
      data := first + more;
      ReadJoined(r, size, first, more);
    }

    /** SEGGER_RTT_ReadNoLock. */
    method ReadNoLock(size: nat) returns (data: seq<byte>)
      requires Valid() && buffer.Length <= Words.WRAP
      modifies this`rd
      ensures Valid()
      ensures var r := old(View());
        var k := Min(size, |Contents(r)|);
        data == Contents(r)[..k] && rd == Wrap(r.rd + k, |r.buf|)
    {
      assert Wrap(rd, |View().buf|) == rd == View().rd;
      hide Contents, Wrap;
      var off;
      data, off := ReadBoth(size);
      if |data| > 0 {
        rd := off;
      }
    }
  }
}
