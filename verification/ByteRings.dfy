/** Byte arrays used as rings: windows that go round the end, and what a write does to them. */
module ByteRings {

  type byte = b: int | 0 <= b < 256

  /** One turn at most. */
  function Wrap(x: nat, n: nat): (r: nat)
    requires n > 0 && x < 2 * n
    ensures r < n
  {
    if x < n then x else x - n
  }

  /** How far j is ahead of at, going round. */
  function Ahead(at: nat, j: nat, n: nat): (d: nat)
    requires at < n && j < n
    ensures d < n && Wrap(at + d, n) == j
  {
    if j >= at then j - at else j + n - at
  }

  /** count bytes from a position on, going round. */
  function Window(buf: seq<byte>, from: nat, count: nat): (w: seq<byte>)
    requires from < |buf| && count <= |buf|
    ensures |w| == count
    ensures forall i :: 0 <= i < count ==> w[i] == buf[Wrap(from + i, |buf|)]
  {
    seq(count, i requires 0 <= i < count => buf[Wrap(from + i, |buf|)])
  }

  /** data laid over the ring from a position on. */
  function Written(buf: seq<byte>, at: nat, data: seq<byte>): (w: seq<byte>)
    requires at < |buf| && |data| <= |buf|
    ensures |w| == |buf|
    ensures forall j :: 0 <= j < |w| ==>
      w[j] == if Ahead(at, j, |buf|) < |data| then data[Ahead(at, j, |buf|)] else buf[j]
  {
    seq(|buf|, j requires 0 <= j < |buf| =>
      if Ahead(at, j, |buf|) < |data| then data[Ahead(at, j, |buf|)] else buf[j])
  }

  /** Writing just after a window extends it and changes nothing in it. */
  lemma WindowWritten(buf: seq<byte>, from: nat, count: nat, data: seq<byte>)
    requires from < |buf| && count + |data| <= |buf|
    ensures Window(Written(buf, Wrap(from + count, |buf|), data), from, count + |data|) ==
      Window(buf, from, count) + data
  {
    var n := |buf|;
    var at := Wrap(from + count, n);
    var r := Window(Written(buf, at, data), from, count + |data|);
    forall i | 0 <= i < count + |data| ensures r[i] == (Window(buf, from, count) + data)[i] {
      var j := Wrap(from + i, n);
      if i < count {
        assert Ahead(at, j, n) >= |data|;
      } else {
        assert Ahead(at, j, n) == i - count;
      }
    }
  }

  /** A window splits where one likes. */
  lemma WindowSplit(buf: seq<byte>, from: nat, count: nat, k: nat)
    requires from < |buf| && k <= count <= |buf|
    ensures Window(buf, from, count)[..k] == Window(buf, from, k)
    ensures Window(buf, from, count)[k..] == Window(buf, Wrap(from + k, |buf|), count - k)
  {
    var n := |buf|;
    var at := Wrap(from + k, n);
    forall j | 0 <= j < count - k ensures Window(buf, from, count)[k..][j] == Window(buf, at, count - k)[j] {
      assert Wrap(from + (k + j), n) == Wrap(at + j, n);
    }
  }

  /** Two consecutive writes are one. */
  lemma WrittenTwice(buf: seq<byte>, at: nat, a: seq<byte>, b: seq<byte>)
    requires at < |buf| && |a| + |b| <= |buf|
    ensures Written(Written(buf, at, a), Wrap(at + |a|, |buf|), b) == Written(buf, at, a + b)
  {
    var n := |buf|;
    var l := Written(Written(buf, at, a), Wrap(at + |a|, n), b);
    forall j | 0 <= j < n ensures l[j] == Written(buf, at, a + b)[j] {
      var d := Ahead(at, j, n);
      var e := Ahead(Wrap(at + |a|, n), j, n);
      assert if d >= |a| then e == d - |a| else e == d + n - |a|;
    }
  }

  /** The bytes in use between a read and a write position. */
  function Used(read: nat, write: nat, n: nat): (u: nat)
    requires read < n && write < n
    ensures u < n && Wrap(read + u, n) == write
  {
    if write >= read then write - read else write + n - read
  }

  /** memcpy into a stretch of the array that does not go round. */
  method CopyIn(a: array<byte>, at: nat, data: seq<byte>)
    requires at + |data| <= a.Length
    modifies a
    ensures forall j :: 0 <= j < a.Length ==> a[j] == if at <= j < at + |data| then data[j - at] else old(a[j])
  {
    var i := 0;
    while i < |data|
      invariant i <= |data|
      invariant forall j :: 0 <= j < a.Length ==> a[j] == if at <= j < at + i then data[j - at] else old(a[j])
    {
      a[at + i] := data[i];
      i := i + 1;
    }
  }
}
