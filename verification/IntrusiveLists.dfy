/** The intrusive doubly linked lists of list.c, link by link. The meaning of a list is a
    Ring of its items. */
module IntrusiveLists {
  import opened Words
  import opened Rings

  class ListItem {
    var value: word                // xItemValue
    var next: ListItem?            // pxNext
    var previous: ListItem?        // pxPrevious
    var container: List?           // pxContainer

    /** vListInitialiseItem. */
    constructor (v: word)
      ensures value == v && container == null && next == null && previous == null
    {
      value, next, previous, container := v, null, null, null;
    }
  }

  /** The node after node i, going round. */
  function After(i: nat, n: nat): (j: nat)
    requires i < n
    ensures j < n
  {
    if i + 1 == n then 0 else i + 1
  }

  /** The end marker and the items, in list order. */
  ghost predicate Linked(nodes: seq<ListItem>)
    reads nodes
  {
    forall i :: 0 <= i < |nodes| ==>
      nodes[i].next == nodes[After(i, |nodes|)] && nodes[After(i, |nodes|)].previous == nodes[i]
  }

  /** The nodes without node k. */
  ghost function Cut(was: seq<ListItem>, k: nat): seq<ListItem>
    requires k < |was|
  {
    was[..k] + was[k + 1..]
  }

  /** Every node records the list it is in. */
  ghost predicate Contained(nodes: seq<ListItem>, l: List)
    reads nodes
  {
    forall i :: 0 <= i < |nodes| ==> nodes[i].container == l
  }

  lemma NotContained(nodes: seq<ListItem>, l: List, x: ListItem)
    requires Contained(nodes, l) && x.container == null
    ensures x !in nodes
  {
  }

  /** Node x has been linked in after node p. */
  lemma SplicedLinked(was: seq<ListItem>, p: nat, x: ListItem)
    requires p < |was| && was[p].next == x && x.previous == was[p]
    requires x.next == was[After(p, |was|)] && was[After(p, |was|)].previous == x
    requires forall i :: 0 <= i < |was| && i != p ==>
      was[i].next == was[After(i, |was|)] && was[After(i, |was|)].previous == was[i]
    ensures Linked(Splice(was, p + 1, x))
  {
    var r := Splice(was, p + 1, x);
    var n := |was|;
    forall i | 0 <= i < |r| ensures r[i].next == r[After(i, |r|)] && r[After(i, |r|)].previous == r[i] {
      if i < p {
        assert r[i] == was[i] && After(i, |r|) == i + 1 && r[i + 1] == was[After(i, n)];
      } else if i == p {
        assert r[i] == was[p] && r[After(i, |r|)] == x;
      } else if i == p + 1 {
        assert r[i] == x && r[After(i, |r|)] == was[After(p, n)];
      } else {
        assert r[i] == was[i - 1] && r[After(i, |r|)] == was[After(i - 1, n)];
      }
    }
  }

  lemma Neighbours(s: seq<ListItem>, k: nat)
    requires Linked(s) && 0 < k < |s|
    ensures s[k].next == s[After(k, |s|)] && s[k].previous == s[k - 1] && s[k - 1].next == s[k]
  {
    assert After(k - 1, |s|) == k;
  }

  /** Node k has been taken out. */
  lemma CutLinked(was: seq<ListItem>, k: nat)
    requires 0 < k < |was| && was[k - 1].next == was[After(k, |was|)] && was[After(k, |was|)].previous == was[k - 1]
    requires forall i :: 0 <= i < |was| && i != k - 1 && i != k ==>
      was[i].next == was[After(i, |was|)] && was[After(i, |was|)].previous == was[i]
    ensures Linked(Cut(was, k))
  {
    var r := Cut(was, k);
    var n := |was|;
    forall i | 0 <= i < |r| ensures r[i].next == r[After(i, |r|)] && r[After(i, |r|)].previous == r[i] {
      if i < k - 1 {
        assert r[i] == was[i] && r[After(i, |r|)] == was[After(i, n)];
      } else if i == k - 1 {
        assert r[i] == was[k - 1] && r[After(i, |r|)] == was[After(k, n)];
      } else {
        assert r[i] == was[i + 1] && r[After(i, |r|)] == was[After(i + 1, n)];
      }
    }
  }

  lemma CutMembers(was: seq<ListItem>, k: nat)
    requires NoDup(was) && 0 < k < |was|
    ensures var r := Cut(was, k);
      |r| == |was| - 1 && NoDup(r) && r[0] == was[0] && (forall y :: y in r <==> y in was && y != was[k]) &&
      r[1..] == was[1..][..k - 1] + was[1..][k..]
  {
    var r := Cut(was, k);
    forall y | y in was && y != was[k] ensures y in r {
      var i :| 0 <= i < |was| && was[i] == y;
      assert r[if i < k then i else i - 1] == y;
    }
    forall i | 0 <= i < |r| ensures r[i] == was[if i < k then i else i + 1] { }
  }

  lemma CutIndex(was: seq<ListItem>, k: nat, y: ListItem)
    requires NoDup(was) && 0 < k < |was| && y in was
    ensures var r := Cut(was, k);
      var i := IndexOf(was, y);
      if y == was[k] then was[k - 1] in r && IndexOf(r, was[k - 1]) == k - 1 && i == k
      else y in r && IndexOf(r, y) == if i < k then i else i - 1
  {
    CutMembers(was, k);
    var r := Cut(was, k);
    var i := IndexOf(was, y);
    if y == was[k] {
      assert r[k - 1] == was[k - 1];
    } else {
      assert r[if i < k then i else i - 1] == y;
    }
  }

  /** Removing node k, in terms of rings. */
  lemma RemovedRing(was: seq<ListItem>, k: nat, index: ListItem)
    requires NoDup(was) && 0 < k < |was| && index in was
    ensures var r := Cut(was, k);
      var to := if index == was[k] then was[k - 1] else index;
      && to in r && was[k] in was[1..]
      && Ring(r[1..], IndexOf(r, to)) == Ring(was[1..], IndexOf(was, index)).Remove(was[k])
  {
    CutMembers(was, k);
    CutIndex(was, k, index);
    assert was[1..][k - 1] == was[k];
    assert IndexOf(was[1..], was[k]) == k - 1;
  }

  lemma SplicedMembers(was: seq<ListItem>, k: nat, x: ListItem)
    requires k <= |was|
    ensures var r := Splice(was, k, x);
      && |r| == |was| + 1 && (k > 0 ==> r[0] == was[0])
      && forall i :: 0 <= i < |r| ==> r[i] == (if i < k then was[i] else if i == k then x else was[i - 1])
  {
  }

  class List {
    var numberOfItems: nat         // uxNumberOfItems
    var index: ListItem            // pxIndex
    const end: ListItem            // xListEnd
    ghost var nodes: seq<ListItem> // the end marker, then the items

    ghost predicate Valid()
      reads this, nodes
    {
      && |nodes| > 0 && nodes[0] == end && NoDup(nodes) && Linked(nodes)
      && numberOfItems == |nodes| - 1 && index in nodes && end.value == MAX
      && Contained(nodes, this)
    }

    ghost function View(): (r: Ring<ListItem>)
      requires Valid()
      reads this, nodes
    {
      Ring(nodes[1..], IndexOf(nodes, index))
    }

    /** The item values in list order. */
    ghost function Values(): (r: seq<word>)
      requires Valid()
      reads this, nodes
      ensures |r| == |nodes| - 1 && forall i :: 0 <= i < |r| ==> r[i] == nodes[i + 1].value
    {
      ValuesOf(nodes[1..])
    }

    /** vListInitialise. */
    constructor ()
      ensures Valid() && fresh(end) && View() == Ring([], 0) && numberOfItems == 0
    {
      end := new ListItem(MAX);
      index, numberOfItems := end, 0;
      nodes := [end];
      new;
      end.next, end.previous, end.container := end, end, this;
    }

    /** The relinking of both insertions: x goes between node p and the node after it. */
    method Surgery(x: ListItem, before: ListItem, following: ListItem, ghost was: seq<ListItem>, ghost p: nat)
      requires p < |was| && was[p] == before && following == was[After(p, |was|)]
      requires Linked(was) && NoDup(was) && x !in was && Contained(was, this)
      modifies x`next, x`previous, x`container, before`next, following`previous
      ensures Linked(Splice(was, p + 1, x)) && Contained(Splice(was, p + 1, x), this) && x.container == this
    {
      Apart(was, p);
      x.next := before.next;
      following.previous := x;
      x.previous := before;
      before.next := x;
      x.container := this;
      SplicedMembers(was, p + 1, x);
      hide NoDup, Splice;
      SplicedLinked(was, p, x);
    }

    /** What an insertion at node p does to the list. */
    method LinkAfter(x: ListItem, ghost p: nat, before: ListItem)
      requires Valid() && x.container == null && p < |nodes| && nodes[p] == before && before.next != null
      modifies this`numberOfItems, this`nodes, before`next, before.next`previous, x`next, x`previous, x`container
      ensures Valid() && nodes == Splice(old(nodes), p + 1, x) && x.container == this
    {
      ghost var was := nodes;
      NotContained(was, this, x);
      assert before.next == was[After(p, |was|)];
      SpliceMembers(was, p + 1, x);
      SplicedMembers(was, p + 1, x);
      hide NoDup, Linked, Splice, Contained;
      Surgery(x, before, before.next, was, p);
      numberOfItems := numberOfItems + 1;
      nodes := Splice(was, p + 1, x);
    }

    method InsertAfter(x: ListItem, ghost p: nat, before: ListItem)
      requires Valid() && x.container == null && p < |nodes| && nodes[p] == before
      modifies this`numberOfItems, this`nodes, nodes`next, nodes`previous, x`next, x`previous, x`container
      ensures Valid() && View() == old(View()).InsertAt(p, x) && x.container == this
    {
      ghost var was := nodes;
      NotContained(was, this, x);
      InsertedRing(was, p, x, index);
      assert before.next == was[After(p, |was|)];
      hide Linked, Contained, Splice, NoDup, IndexOf;
      LinkAfter(x, p, before);
    }

    /** vListInsertEnd: just before the walking index. */
    method InsertEnd(x: ListItem)
      requires Valid() && x.container == null
      modifies this`numberOfItems, this`nodes, nodes`next, nodes`previous, x`next, x`previous, x`container
      ensures Valid() && View() == old(View()).InsertEnd(x) && x.container == this
    {
      ghost var k := IndexOf(nodes, index);
      ghost var p := if k == 0 then |nodes| - 1 else k - 1;
      assert After(p, |nodes|) == k;
      assert index.previous == nodes[p];
      hide Linked, Contained, Splice, NoDup;
      InsertAfter(x, p, index.previous);
    }

    /** vListInsert: after every item whose value is not larger. */
    method Insert(x: ListItem)
      requires Valid() && x.container == null
      modifies this`numberOfItems, this`nodes, nodes`next, nodes`previous, x`next, x`previous, x`container
      ensures Valid() && x.container == this
      ensures View() == old(View()).InsertAt(InsertPos(old(Values()), x.value), x)
    {
      hide Valid, InsertPos, View, Values;
      var before, p := FindPlace(x.value);
      InsertAfter(x, p, before);
    }

    /** The scan of vListInsert; the end marker's value stops it. */
    method FindPlace(v: word) returns (before: ListItem, ghost p: nat)
      requires Valid()
      ensures p < |nodes| && nodes[p] == before && p == InsertPos(Values(), v)
    {
      ghost var vals := Values();
      if v == MAX {
        p := |nodes| - 1;
        assert After(p, |nodes|) == 0;
        before := end.previous;
      } else {
        before, p := end, 0;
        while before.next.value <= v
          invariant p < |nodes| && nodes[p] == before
          invariant ScanPos(vals, v) == p + ScanPos(vals[p..], v)
          decreases |nodes| - p
        {
          assert before.next == nodes[After(p, |nodes|)];
          assert p + 1 < |nodes| && vals[p..][0] == vals[p] && vals[p..][1..] == vals[p + 1..];
          before := before.next;
          p := p + 1;
        }
        assert before.next == nodes[After(p, |nodes|)];
        assert p < |vals| ==> vals[p..][0] == nodes[p + 1].value;
      }
    }

    /** The relinking of uxListRemove on node k. */
    method Unlink(x: ListItem, before: ListItem, following: ListItem, ghost was: seq<ListItem>, ghost k: nat)
      requires 0 < k < |was| && was[k] == x && before == was[k - 1] && following == was[After(k, |was|)]
      requires Linked(was) && NoDup(was)
      modifies before`next, following`previous
      ensures Linked(Cut(was, k))
    {
      Apart(was, k);
      Apart(was, k - 1);
      following.previous := before;
      before.next := following;
      hide NoDup, Cut;
      CutLinked(was, k);
    }

    method Disown(x: ListItem, ghost was: seq<ListItem>, ghost k: nat)
      requires 0 < k < |was| && was[k] == x && NoDup(was) && Contained(was, this)
      modifies x`container
      ensures Contained(Cut(was, k), this) && x.container == null
    {
      CutMembers(was, k);
      x.container := null;
      hide Cut, NoDup;
    }

    /** The assignments of uxListRemove on node k. */
    method Detach(x: ListItem, ghost k: nat)
      requires 0 < k < |nodes| && nodes[k] == x && numberOfItems > 0
      requires Linked(nodes) && NoDup(nodes) && Contained(nodes, this)
      modifies this`numberOfItems, this`nodes, this`index, nodes`next, nodes`previous, x`container
      ensures nodes == Cut(old(nodes), k) && Linked(nodes) && Contained(nodes, this) && x.container == null
      ensures index == if old(index) == x then old(nodes)[k - 1] else old(index)
      ensures numberOfItems == old(numberOfItems) - 1
    {
      ghost var was := nodes;
      Neighbours(was, k);
      hide NoDup, Linked, Cut, Contained;
      StepIndexBack(x, x.previous);
      UnlinkAndDisown(x, was, k);
      numberOfItems := numberOfItems - 1;
      nodes := Cut(was, k);
    }

    method UnlinkAndDisown(x: ListItem, ghost was: seq<ListItem>, ghost k: nat)
      requires 0 < k < |was| && was[k] == x && Linked(was) && NoDup(was) && Contained(was, this)
      requires x.previous == was[k - 1] && x.next == was[After(k, |was|)]
      modifies was`next, was`previous, x`container
      ensures Linked(Cut(was, k)) && Contained(Cut(was, k), this) && x.container == null
    {
      CutMembers(was, k);
      hide NoDup, Cut;
      Unlink(x, x.previous, x.next, was, k);
      Disown(x, was, k);
    }

    /** Make sure the index is left on a node of the list. */
    method StepIndexBack(x: ListItem, before: ListItem)
      modifies this`index
      ensures index == if old(index) == x then before else old(index)
    {
      if index == x {
        index := before;
      }
    }

    /** uxListRemove: the item alone is enough. */
    method Remove(x: ListItem) returns (remaining: nat)
      requires Valid() && x in nodes && x != end
      modifies this`numberOfItems, this`nodes, this`index, nodes`next, nodes`previous, x`container
      ensures Valid() && View() == old(View()).Remove(x) && x.container == null && remaining == |View().items|
    {
      ghost var was := nodes;
      ghost var k := IndexOf(was, x);
      CutMembers(was, k);
      RemovedRing(was, k, index);
      hide NoDup, Linked, IndexOf, Contained, Without, Cut;
      Detach(x, k);
      remaining := numberOfItems;
    }

    /** listGET_OWNER_OF_NEXT_ENTRY: the walk skips the end marker. */
    method NextEntry() returns (x: ListItem)
      requires Valid() && numberOfItems > 0
      modifies this`index
      ensures Valid() && View() == old(View()).Next() && x == View().Selected()
    {
      ghost var k := IndexOf(nodes, index);
      index := index.next;
      if index == end {
        index := index.next;
      }
      x := index;
    }
  }

  /** Where y stands once x has been spliced in. */
  lemma SplicedIndex(was: seq<ListItem>, k: nat, x: ListItem, y: ListItem)
    requires NoDup(was) && k <= |was| && x !in was && y in was
    ensures y in Splice(was, k, x)
    ensures IndexOf(Splice(was, k, x), y) == IndexOf(was, y) + if IndexOf(was, y) >= k then 1 else 0
  {
    SpliceMembers(was, k, x);
    SplicedMembers(was, k, x);
    var r := Splice(was, k, x);
    var i := IndexOf(was, y);
    assert r[if i < k then i else i + 1] == y;
  }

  /** Linking x in after node p, in terms of rings. */
  lemma InsertedRing(was: seq<ListItem>, p: nat, x: ListItem, index: ListItem)
    requires NoDup(was) && p < |was| && x !in was && index in was
    ensures var r := Splice(was, p + 1, x);
      index in r && |r| > 0 && Ring(r[1..], IndexOf(r, index)) == Ring(was[1..], IndexOf(was, index)).InsertAt(p, x)
  {
    SplicedIndex(was, p + 1, x, index);
    SplicedTail(was, p + 1, x);
  }

  lemma SplicedTail(was: seq<ListItem>, k: nat, x: ListItem)
    requires 0 < k <= |was|
    ensures Splice(was, k, x)[1..] == Splice(was[1..], k - 1, x)
  {
  }

  /** The nodes other than p, and their successors, are other objects. */
  lemma Apart(s: seq<ListItem>, p: nat)
    requires NoDup(s) && p < |s|
    ensures forall i :: 0 <= i < |s| && i != p ==> s[i] != s[p] && s[After(i, |s|)] != s[After(p, |s|)]
  {
  }

  ghost function ValuesOf(s: seq<ListItem>): (r: seq<word>)
    reads s
    ensures |r| == |s| && forall i :: 0 <= i < |r| ==> r[i] == s[i].value
  {
    if s == [] then [] else [s[0].value] + ValuesOf(s[1..])
  }
}
