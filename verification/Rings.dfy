/** The meaning of a List_t: the items in list order plus the walking index pxIndex.
    Index 0 is the end marker, index k + 1 is items[k]. */
module Rings {
  import opened Words

  ghost predicate NoDup<T>(s: seq<T>) {
    forall i, j :: 0 <= i < j < |s| ==> s[i] != s[j]
  }

  ghost predicate Sorted(vals: seq<word>) {
    forall i, j :: 0 <= i < j < |vals| ==> vals[i] <= vals[j]
  }

  function IndexOf<T(==)>(s: seq<T>, x: T): (k: nat)
    requires x in s
    ensures k < |s| && s[k] == x
    ensures forall i :: 0 <= i < k ==> s[i] != x
  {
    if s[0] == x then 0 else 1 + IndexOf(s[1..], x)
  }

  function Without<T(==)>(s: seq<T>, x: T): seq<T>
    requires x in s
  {
    s[..IndexOf(s, x)] + s[IndexOf(s, x) + 1..]
  }

  function Splice<T>(s: seq<T>, k: nat, x: T): seq<T>
    requires k <= |s|
  {
    s[..k] + [x] + s[k..]
  }

  datatype Ring<T(==)> = Ring(items: seq<T>, index: nat) {
    ghost predicate Valid() {
      index <= |items| && NoDup(items)
    }

    /** A new node at position k leaves the walking index on the node it was on. */
    function InsertAt(k: nat, x: T): Ring<T>
      requires k <= |items|
    {
      Ring(Splice(items, k, x), if index > k then index + 1 else index)
    }

    /** Just before the walking index: the last item the walk will reach. */
    function InsertEnd(x: T): Ring<T>
      requires index <= |items|
    {
      InsertAt(if index == 0 then |items| else index - 1, x)
    }

    /** Removing the item under the index steps the index back to the previous node. */
    function Remove(x: T): Ring<T>
      requires x in items
    {
      Ring(Without(items, x), if index > IndexOf(items, x) then index - 1 else index)
    }

    /** listGET_OWNER_OF_NEXT_ENTRY moves the index on, skipping the end marker. */
    function Next(): Ring<T>
      requires items != []
    {
      Ring(items, if index >= |items| then 1 else index + 1)
    }

    /** The item the last call of Next selected. */
    function Selected(): T
      requires 0 < index <= |items|
    {
      items[index - 1]
    }
  }

  /** The scan of vListInsert: past every key not above v. */
  function ScanPos(vals: seq<word>, v: word): (k: nat)
    ensures k <= |vals|
    ensures forall i :: 0 <= i < k ==> vals[i] <= v
    ensures k < |vals| ==> vals[k] > v
  {
    if vals == [] || vals[0] > v then 0 else 1 + ScanPos(vals[1..], v)
  }

  /** vListInsert takes the tail directly for portMAX_DELAY, as the scan would never stop. */
  function InsertPos(vals: seq<word>, v: word): (k: nat)
    ensures k <= |vals|
  {
    if v == MAX then |vals| else ScanPos(vals, v)
  }

  /** Sorted and stable: the new key goes after every key not above it and before the rest. */
  lemma InsertPosSorted(vals: seq<word>, v: word)
    requires Sorted(vals)
    ensures Sorted(Splice(vals, InsertPos(vals, v), v))
    ensures forall i :: 0 <= i < |vals| ==> (i < InsertPos(vals, v) <==> vals[i] <= v)
  {
    var k := InsertPos(vals, v);
    forall i | 0 <= i < |vals| ensures i < k <==> vals[i] <= v {
      if v != MAX && k <= i { assert vals[k] <= vals[i]; }
    }
  }

  lemma SpliceMembers<T>(s: seq<T>, k: nat, x: T)
    requires k <= |s|
    ensures forall y :: y in Splice(s, k, x) <==> y == x || y in s
    ensures NoDup(s) && x !in s ==> NoDup(Splice(s, k, x))
  {
    var r := Splice(s, k, x);
    assert r[k] == x;
    forall y | y in s ensures y in r {
      var i :| 0 <= i < |s| && s[i] == y;
      assert r[if i < k then i else i + 1] == y;
    }
  }

  lemma WithoutMembers<T>(s: seq<T>, x: T)
    requires x in s && NoDup(s)
    ensures NoDup(Without(s, x)) && |Without(s, x)| == |s| - 1
    ensures forall y :: y in Without(s, x) <==> y != x && y in s
  {
    var k := IndexOf(s, x);
    var r := Without(s, x);
    forall y | y != x && y in s ensures y in r {
      var i :| 0 <= i < |s| && s[i] == y;
      assert r[if i < k then i else i - 1] == y;
    }
    forall i | 0 <= i < |r| ensures r[i] != x && r[i] in s {
      assert r[i] == s[if i < k then i else i + 1];
    }
  }

  /** Walking: the index after k calls of Next from a selected position. */
  function Walk<T(==)>(r: Ring<T>, k: nat): Ring<T>
    requires r.items != []
    ensures Walk(r, k).items == r.items
  {
    if k == 0 then r else Walk(r, k - 1).Next()
  }

  lemma {:induction false} WalkIndex<T>(r: Ring<T>, k: nat)
    requires r.items != [] && r.index <= |r.items|
    ensures k > 0 ==> 0 < Walk(r, k).index <= |r.items|
    ensures k > 0 ==> Walk(r, k).index - 1 == (r.index + k - 1) % |r.items|
  {
    var n := |r.items|;
    if k > 1 {
      WalkIndex(r, k - 1);
      var m := r.index + k - 2;
      ModSucc(m, n);
    } else if k == 1 {
      if r.index == n { ModSelf(n); } else { ModSmall(r.index, n); }
    }
  }

  lemma ModSelf(n: nat)
    requires n > 0
    ensures n % n == 0
  {
  }

  lemma ModSmall(m: nat, n: nat)
    requires m < n
    ensures m % n == m
  {
  }

  lemma ModSucc(m: nat, n: nat)
    requires n > 0
    ensures (m + 1) % n == if m % n == n - 1 then 0 else m % n + 1
  {
    var q, r := m / n, m % n;
    assert m == n * q + r;
    if r == n - 1 {
      assert m + 1 == n * (q + 1) by { assert n * (q + 1) == n * q + n; }
      ModUnique(m + 1, n, q + 1, 0);
    } else {
      ModUnique(m + 1, n, q, r + 1);
    }
  }

  lemma ModUnique(m: nat, n: nat, q: nat, r: nat)
    requires n > 0 && r < n && m == n * q + r
    ensures m % n == r
  {
    var d := m / n - q;
    assert n * (m / n) + m % n == m;
    assert n * (m / n) - n * q == n * d;
    assert n * d == r - m % n;
    MulBound(n, d);
  }

  lemma MulBound(n: nat, d: int)
    ensures d >= 1 ==> n * d >= n
    ensures d <= -1 ==> n * d <= 0 - n
  {
    if d >= 1 {
      assert n * d == n + n * (d - 1);
    } else if d <= -1 {
      assert n * d == n * (d + 1) - n;
    }
  }

  /** Round robin: from any index, n calls of Next over n items select each item exactly once. */
  lemma FairWalk<T>(r: Ring<T>, p: nat) returns (k: nat)
    requires r.Valid() && p < |r.items|
    ensures 0 < k <= |r.items| && 0 < Walk(r, k).index <= |r.items|
    ensures Walk(r, k).Selected() == r.items[p]
    ensures forall j :: 0 < j <= |r.items| && j != k ==>
      0 < Walk(r, j).index <= |r.items| && Walk(r, j).Selected() != r.items[p]
  {
    var n := |r.items|;
    k := if r.index <= p then p - r.index + 1 else p - r.index + 1 + n;
    forall j | 0 < j <= n ensures 0 < Walk(r, j).index <= n && (Walk(r, j).index - 1 == p <==> j == k) {
      WalkIndex(r, j);
      var m := r.index + j - 1;
      if m < n { ModSmall(m, n); } else { ModUnique(m, n, 1, m - n); }
    }
  }

  /** A freshly appended item is reached only after every item other than the one under the
      index: at step |items|, or one later when the index stands on the end marker. */
  lemma FreshIsLast<T>(r: Ring<T>, x: T, j: nat)
    requires r.Valid() && x !in r.items
    requires 0 < j <= |r.items| + 1
    ensures var r' := r.InsertEnd(x);
      0 < Walk(r', j).index <= |r'.items| &&
      (Walk(r', j).Selected() == x <==> j == |r.items| + (if r.index == 0 then 1 else 0))
  {
    var r' := r.InsertEnd(x);
    var k := if r.index == 0 then |r.items| else r.index - 1;
    SpliceMembers(r.items, k, x);
    WalkIndex(r', j);
    var n := |r'.items|;
    var m := r'.index + j - 1;
    if m < n { ModSmall(m, n); } else { ModUnique(m, n, 1, m - n); }
    assert r'.items[k] == x;
  }

  /** Taking an item off disturbs no walk: the next item selected is the one that would have been,
      or, if that is the item taken off, the one after it. */
  lemma RemoveWalksOn<T>(r: Ring<T>, x: T)
    requires r.Valid() && x in r.items && |r.items| > 1
    ensures var q := r.Remove(x);
      && q.items != [] && q.index <= |q.items|
      && q.Next().Selected() ==
           if r.Next().Selected() != x then r.Next().Selected() else r.Next().Next().Selected()
  {
    var k := IndexOf(r.items, x);
    var q := r.Remove(x);
    forall i | 0 <= i < |q.items| ensures q.items[i] == r.items[if i < k then i else i + 1] { }
  }

  /** Nor does putting an item on: the index stays on the item it is on. */
  lemma InsertKeepsIndex<T>(r: Ring<T>, k: nat, x: T)
    requires r.index <= |r.items| && k <= |r.items|
    ensures var q := r.InsertAt(k, x);
      if r.index == 0 then q.index == 0 else 0 < q.index <= |q.items| && q.Selected() == r.Selected()
  {
  }
}
