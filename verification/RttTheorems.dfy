/** What the RTT writers deliver to the host. */
module RttTheorems {
  import opened ByteRings
  import opened RttRings

  // ----- the blocking writer

  /** What the host has read while _WriteBlocking was at work. */
  function HostGot(r: Rtt, data: seq<byte>, host: seq<nat>): seq<byte>
    requires Valid(r)
    decreases |host|
  {
    if host == [] then []
    else
      var h := Min(host[0], |Contents(r)|);
      var r1 := HostReads(r, h);
      var k := PassLength(r1, |data|);
      Contents(r)[..h] + (if k == |data| then [] else HostGot(Put(r1, data[..k]), data[k..], host[1..]))
  }

  ghost predicate Delivered(r: Rtt, data: seq<byte>, host: seq<nat>)
    requires Valid(r)
  {
    var (s, n, p) := Blocking(r, data, host);
    Valid(s) && n <= |data| && p <= |host| && HostGot(r, data, host) + Contents(s) == Contents(r) + data[..n]
  }

  /** One pass: the host reads h bytes, then k bytes are written. */
  ghost predicate Pass(r: Rtt, data: seq<byte>, host: seq<nat>, h: nat, k: nat, r2: Rtt)
    requires Valid(r)
  {
    && host != [] && h == Min(host[0], |Contents(r)|)
    && var r1 := HostReads(r, h);
    && k == PassLength(r1, |data|) && r2 == Put(r1, data[..k]) && Valid(r2)
  }

  lemma PassMakes(r: Rtt, data: seq<byte>, host: seq<nat>, h: nat, k: nat, r2: Rtt)
    requires Valid(r) && Pass(r, data, host, h, k, r2)
    ensures h <= |Contents(r)| && k <= |data| && Contents(r2) == Contents(r)[h..] + data[..k]
    ensures Blocking(r, data, host) ==
      if k == |data| then (r2, k, 1) else Plus(Blocking(r2, data[k..], host[1..]), k, 1)
  {
    HostTakes(r, h);
    PutAppends(HostReads(r, h), data[..k]);
    BlockingTurn(r, data, host);
    hide Blocking, Contents, Put, HostReads;
  }

  lemma HostGotTurn(r: Rtt, data: seq<byte>, host: seq<nat>, h: nat, k: nat, r2: Rtt)
    requires Valid(r) && Pass(r, data, host, h, k, r2) && h <= |Contents(r)| && k <= |data|
    ensures HostGot(r, data, host) ==
      Contents(r)[..h] + (if k == |data| then [] else HostGot(r2, data[k..], host[1..]))
  {
    hide Contents, Put, HostReads, PassLength;
  }

  lemma LastPass(r: Rtt, data: seq<byte>, host: seq<nat>, h: nat, k: nat, r2: Rtt)
    requires Valid(r) && Pass(r, data, host, h, k, r2) && k == |data|
    ensures Delivered(r, data, host)
  {
    PassMakes(r, data, host, h, k, r2);
    HostGotTurn(r, data, host, h, k, r2);
    hide Blocking, Contents, HostGot, Put, HostReads, PassLength;
    assert data[..k] == data;
    Rejoin(Contents(r), h, data, [], Contents(r2));
  }

  lemma MorePasses(r: Rtt, data: seq<byte>, host: seq<nat>, h: nat, k: nat, r2: Rtt)
    requires Valid(r) && Pass(r, data, host, h, k, r2) && k < |data| && Delivered(r2, data[k..], host[1..])
    ensures Delivered(r, data, host)
  {
    PassMakes(r, data, host, h, k, r2);
    HostGotTurn(r, data, host, h, k, r2);
    hide Blocking, Contents, HostGot, Put, HostReads, PassLength;
    var (s, n, p) := Blocking(r2, data[k..], host[1..]);
    JoinPasses(Contents(r), h, data, k, n, HostGot(r2, data[k..], host[1..]), Contents(s));
    hide Pass;
  }

  lemma JoinPasses(c: seq<byte>, h: nat, data: seq<byte>, k: nat, n: nat, got: seq<byte>, rest: seq<byte>)
    requires h <= |c| && k + n <= |data| && got + rest == (c[h..] + data[..k]) + data[k..][..n]
    ensures (c[..h] + got) + rest == c + data[..k + n]
  {
    assert data[..k] + data[k..][..n] == data[..k + n];
    Rejoin3(c, h, data[..k], data[k..][..n], got, rest);
  }

  /** Whatever the host reads in between, bytes arrive in order, none is lost and none that has
      not been read is touched. */
  lemma {:induction false} BlockingDelivers(r: Rtt, data: seq<byte>, host: seq<nat>)
    requires Valid(r)
    ensures var (s, n, p) := Blocking(r, data, host);
      Valid(s) && n <= |data| && p <= |host| && HostGot(r, data, host) + Contents(s) == Contents(r) + data[..n]
    decreases |host|
  {
    if host == [] {
      BlockingEnds(r, data);
    } else {
      var h := Min(host[0], |Contents(r)|);
      var k := PassLength(HostReads(r, h), |data|);
      var r2 := Put(HostReads(r, h), data[..k]);
      assert Pass(r, data, host, h, k, r2);
      hide Blocking, Contents, HostGot, Put, HostReads, Pass;
      if k == |data| {
        LastPass(r, data, host, h, k, r2);
      } else {
        BlockingDelivers(r2, data[k..], host[1..]);
        MorePasses(r, data, host, h, k, r2);
      }
    }
  }

  lemma Rejoin(c: seq<byte>, h: nat, a: seq<byte>, got: seq<byte>, rest: seq<byte>)
    requires h <= |c| && got + rest == c[h..] + a
    ensures (c[..h] + got) + rest == c + a
  {
    assert (c[..h] + got) + rest == c[..h] + (c[h..] + a);
  }

  lemma Rejoin3(c: seq<byte>, h: nat, a: seq<byte>, b: seq<byte>, got: seq<byte>, rest: seq<byte>)
    requires h <= |c| && got + rest == (c[h..] + a) + b
    ensures (c[..h] + got) + rest == c + (a + b)
  {
    assert (c[..h] + got) + rest == c[..h] + ((c[h..] + a) + b);
  }

  /** When the data fits at the start, two passes are enough, even for a host that reads nothing:
      one up to the end of the buffer and one from its beginning. */
  lemma TwoPassesSuffice(r: Rtt, data: seq<byte>, host: seq<nat>)
    requires Valid(r) && |data| <= Space(r) && |host| >= 2
    ensures var (s, n, p) := Blocking(r, data, host); n == |data| && p <= 2
  {
    var h := Min(host[0], |Contents(r)|);
    var r1 := HostReads(r, h);
    HostTakes(r, h);
    var k := PassLength(r1, |data|);
    BlockingTurn(r, data, host);
    if k != |data| {
      var r2 := Put(r1, data[..k]);
      PutAppends(r1, data[..k]);
      assert r2.wr == 0;
      var g := Min(host[1], |Contents(r2)|);
      HostTakes(r2, g);
      BlockingTurn(r2, data[k..], host[1..]);
      hide Blocking, Contents;
      assert PassLength(HostReads(r2, g), |data[k..]|) == |data[k..]|;
    }
  }

  /** With a frozen host the blocking writer does just what the unchecked one does. */
  lemma FrozenHost(r: Rtt, data: seq<byte>)
    requires Valid(r) && |data| <= Space(r)
    ensures Blocking(r, data, [0, 0]).0 == Put(r, data) && Blocking(r, data, [0, 0]).1 == |data|
  {
    TwoPassesSuffice(r, data, [0, 0]);
    assert HostReads(r, 0) == r;
    BlockingTurn(r, data, [0, 0]);
    var k := PassLength(r, |data|);
    if k == |data| {
      assert data[..k] == data;
    } else {
      var r2 := Put(r, data[..k]);
      PutAppends(r, data[..k]);
      assert HostReads(r2, 0) == r2;
      assert [0, 0][1..] == [0];
      BlockingTurn(r2, data[k..], [0]);
      PutTwice(r, data[..k], data[k..]);
      assert data[..k] + data[k..] == data;
      assert data[k..][..|data[k..]|] == data[k..];
    }
  }

  // ----- SEGGER_RTT_TerminalOut in the modes that do not block

  datatype Mode = Skip | Trim

  /** A terminal switch is 0xFF and the terminal's identifier. */
  function Switched(id: byte, text: seq<byte>, active: byte): seq<byte> {
    [0xFF, id] + text + [0xFF, active]
  }

  /** A blocking write of what fits, with a host that does nothing. */
  method WriteFitting(ring: Ring, data: seq<byte>) returns (written: nat)
    requires ring.Valid() && |data| <= Space(ring.View())
    modifies ring, ring.buffer
    ensures ring.Valid() && ring.View() == Put(old(ring.View()), data) && written == |data|
  {
    ghost var r := ring.View();
    FrozenHost(r, data);
    hide Blocking, Put;
    var n, _ := ring.WriteBlocking(data, [0, 0]);
    written := n;
  }

  lemma SwitchedContents(r: Rtt, id: byte, text: seq<byte>, active: byte)
    requires Valid(r) && |text| + 4 <= Space(r)
    ensures var r1 := Put(r, [0xFF, id]);
      Valid(r1) && |text| + 2 <= Space(r1) &&
      var r2 := Put(r1, text);
      Valid(r2) && 2 <= Space(r2) && Valid(Put(r2, [0xFF, active])) &&
      Contents(Put(r2, [0xFF, active])) == Contents(r) + Switched(id, text, active)
  {
    hide Put, Contents;
    PutAppends(r, [0xFF, id]);
    var r1 := Put(r, [0xFF, id]);
    PutAppends(r1, text);
    var r2 := Put(r1, text);
    PutAppends(r2, [0xFF, active]);
    var c := Contents(r);
    assert c + [0xFF, id] + text + [0xFF, active] == c + Switched(id, text, active);
  }

  /** The three writes of SEGGER_RTT_TerminalOut. */
  method WriteSwitched(ring: Ring, id: byte, text: seq<byte>, active: byte) returns (written: nat)
    requires ring.Valid() && |text| + 4 <= Space(ring.View())
    modifies ring, ring.buffer
    ensures ring.Valid() && written == |text|
    ensures Contents(ring.View()) == Contents(old(ring.View())) + Switched(id, text, active)
  {
    SwitchedContents(ring.View(), id, text, active);
    hide Put, Contents, Space, Switched;
    var _ := WriteFitting(ring, [0xFF, id]);
    written := WriteFitting(ring, text);
    var _ := WriteFitting(ring, [0xFF, active]);
  }

  /** How much of the text goes out. */
  function Fitting(mode: Mode, text: seq<byte>, space: nat): (n: nat)
    ensures n <= |text|
  {
    if mode.Trim? && space >= 4 then Min(|text|, space - 4) else |text|
  }

  /** Either the whole sequence with both terminal switches goes out, trimmed in trim mode to
      what fits, or nothing does. */
  method TerminalOut(ring: Ring, mode: Mode, id: byte, text: seq<byte>, active: byte) returns (status: int)
    requires ring.Valid()
    modifies ring, ring.buffer
    ensures ring.Valid()
    ensures var r := old(ring.View());
      var space := Space(r);
      var length := Fitting(mode, text, space);
      if space < 4 || length + 4 > space then ring.View() == r && status == (if mode.Skip? then 0 else -1)
      else Contents(ring.View()) == Contents(r) + Switched(id, text[..length], active) && status == length
  {
    var avail := ring.GetAvailWriteSpace();
    match mode
    case Skip =>
      if avail < |text| + 4 {
        status := 0;
      } else {
        status := WriteSwitched(ring, id, text, active);
        assert text[..|text|] == text;
      }
    case Trim =>
      if avail < 4 {
        status := -1;
      } else {
        var length := if |text| < avail - 4 then |text| else avail - 4;
        status := WriteSwitched(ring, id, text[..length], active);
      }
  }
}
