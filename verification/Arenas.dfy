/** A family of List_t objects holding one list item per task, together with the items'
    pxContainer fields. The scheduler has two: one for state items, one for event items. */
module Arenas {
  import opened Rings

  type Task = nat

  datatype Arena = Arena(lists: seq<Ring<Task>>, at: map<Task, nat>) {
    /** Container fields and list contents agree, so an item is in at most one list, once. */
    ghost predicate Wf() {
      && (forall l :: 0 <= l < |lists| ==> lists[l].Valid())
      && (forall l, t :: 0 <= l < |lists| && t in lists[l].items ==> t in at && at[t] == l)
      && (forall t :: t in at ==> at[t] < |lists| && t in lists[at[t]].items)
    }

    predicate Holds(l: nat, t: Task) {
      t in at && at[t] == l
    }

    /** uxListRemove: by the item alone, through its container field. */
    function Remove(t: Task): Arena
      requires Wf() && t in at
    {
      Arena(lists[at[t] := lists[at[t]].Remove(t)], at - {t})
    }

    /** vListInsert, once the position is known. */
    function Put(l: nat, k: nat, t: Task): Arena
      requires l < |lists| && k <= |lists[l].items|
    {
      Arena(lists[l := lists[l].InsertAt(k, t)], at[t := l])
    }

    /** vListInsertEnd. */
    function PutEnd(l: nat, t: Task): Arena
      requires Wf() && l < |lists|
    {
      Arena(lists[l := lists[l].InsertEnd(t)], at[t := l])
    }

    /** listGET_OWNER_OF_NEXT_ENTRY. */
    function Advance(l: nat): Arena
      requires l < |lists| && lists[l].items != []
    {
      Arena(lists[l := lists[l].Next()], at)
    }
  }

  lemma RemoveWf(a: Arena, t: Task)
    requires a.Wf() && t in a.at
    ensures a.Remove(t).Wf()
    ensures a.at[t] < |a.lists| && t in a.lists[a.at[t]].items
    ensures |Without(a.lists[a.at[t]].items, t)| == |a.lists[a.at[t]].items| - 1
  {
    WithoutMembers(a.lists[a.at[t]].items, t);
  }

  /** Whatever stands on a list says so in its container field. */
  lemma Listed(a: Arena, l: nat, i: nat)
    requires a.Wf() && l < |a.lists| && i < |a.lists[l].items|
    ensures a.Holds(l, a.lists[l].items[i])
  {
  }

  /** Insertion keeps the family well formed only because the item is on no list: the C code
      never checks this. */
  lemma PutWf(a: Arena, l: nat, k: nat, t: Task)
    requires a.Wf() && t !in a.at && l < |a.lists| && k <= |a.lists[l].items|
    ensures a.Put(l, k, t).Wf()
  {
    SpliceMembers(a.lists[l].items, k, t);
    hide Splice;
  }

  lemma PutEndWf(a: Arena, l: nat, t: Task)
    requires a.Wf() && t !in a.at && l < |a.lists|
    ensures a.PutEnd(l, t).Wf()
  {
    var r := a.lists[l];
    var k := if r.index == 0 then |r.items| else r.index - 1;
    PutWf(a, l, k, t);
    assert a.PutEnd(l, t) == a.Put(l, k, t);
  }

  lemma AdvanceWf(a: Arena, l: nat)
    requires a.Wf() && l < |a.lists| && a.lists[l].items != []
    ensures a.Advance(l).Wf() && a.Advance(l).at == a.at && |a.Advance(l).lists| == |a.lists|
    ensures forall m :: 0 <= m < |a.lists| ==> a.Advance(l).lists[m].items == a.lists[m].items
    ensures a.Holds(l, a.Advance(l).lists[l].Selected())
  {
    var r := a.lists[l].Next();
    assert r.items[r.index - 1] in r.items;
  }

  /** Off one list and onto the end of another: every state change of a task does this. */
  function MoveEnd(a: Arena, l: nat, t: Task): (r: Arena)
    requires a.Wf() && t in a.at && l < |a.lists|
  {
    RemoveWf(a, t);
    a.Remove(t).PutEnd(l, t)
  }

  lemma MoveEndWf(a: Arena, l: nat, t: Task)
    requires a.Wf() && t in a.at && l < |a.lists|
    ensures MoveEnd(a, l, t).Wf()
    ensures MoveEnd(a, l, t).at == a.at[t := l]
    ensures |MoveEnd(a, l, t).lists| == |a.lists|
    ensures forall m :: 0 <= m < |a.lists| && m != a.at[t] && m != l ==> MoveEnd(a, l, t).lists[m] == a.lists[m]
    ensures a.at[t] < |a.lists| && t in a.lists[a.at[t]].items
    ensures a.at[t] != l ==> MoveEnd(a, l, t).lists[a.at[t]] == a.lists[a.at[t]].Remove(t)
  {
    hide Arena.Wf;
    RemoveWf(a, t);
    PutEndWf(a.Remove(t), l, t);
  }

  /** Off one list and into position k of another. */
  function MoveTo(a: Arena, l: nat, k: nat, t: Task): (r: Arena)
    requires a.Wf() && t in a.at && l < |a.lists| && a.at[t] != l && k <= |a.lists[l].items|
  {
    RemoveWf(a, t);
    a.Remove(t).Put(l, k, t)
  }

  lemma MoveToWf(a: Arena, l: nat, k: nat, t: Task)
    requires a.Wf() && t in a.at && l < |a.lists| && a.at[t] != l && k <= |a.lists[l].items|
    ensures MoveTo(a, l, k, t).Wf()
    ensures MoveTo(a, l, k, t).at == a.at[t := l]
    ensures |MoveTo(a, l, k, t).lists| == |a.lists|
    ensures forall m :: 0 <= m < |a.lists| && m != a.at[t] && m != l ==> MoveTo(a, l, k, t).lists[m] == a.lists[m]
    ensures a.at[t] < |a.lists| && t in a.lists[a.at[t]].items
    ensures MoveTo(a, l, k, t).lists[a.at[t]] == a.lists[a.at[t]].Remove(t)
    ensures MoveTo(a, l, k, t).lists[l].items == Splice(a.lists[l].items, k, t)
  {
    hide Arena.Wf;
    RemoveWf(a, t);
    PutWf(a.Remove(t), l, k, t);
  }

  function Total(lists: seq<Ring<Task>>): nat {
    if lists == [] then 0 else Total(lists[..|lists| - 1]) + |lists[|lists| - 1].items|
  }

  ghost function Below(a: Arena, l: nat): set<Task> {
    set t | t in a.at && a.at[t] < l
  }

  ghost function Elems(s: seq<Task>): set<Task> {
    set t | t in s
  }

  lemma ElemsCount(s: seq<Task>)
    requires NoDup(s)
    ensures |Elems(s)| == |s|
  {
    if s != [] {
      var front, x := s[..|s| - 1], s[|s| - 1];
      ElemsCount(front);
      assert s == front + [x];
      assert Elems(s) == Elems(front) + {x};
    }
  }

  lemma BelowStep(a: Arena, l: nat)
    requires a.Wf() && l < |a.lists|
    ensures |Below(a, l + 1)| == |Below(a, l)| + |a.lists[l].items|
  {
    var here := Elems(a.lists[l].items);
    ElemsCount(a.lists[l].items);
    forall t ensures t in Below(a, l + 1) <==> t in Below(a, l) || t in here {
    }
    assert Below(a, l + 1) == Below(a, l) + here;
    assert Below(a, l) !! here;
  }

  lemma {:induction false} TotalBelow(a: Arena, l: nat)
    requires a.Wf() && l <= |a.lists|
    ensures Total(a.lists[..l]) == |Below(a, l)|
  {
    if l == 0 {
      assert Below(a, 0) == {};
    } else {
      TotalBelow(a, l - 1);
      BelowStep(a, l - 1);
      assert a.lists[..l][..l - 1] == a.lists[..l - 1];
    }
  }

  /** Conservation: the list lengths add up to the number of listed items. */
  lemma Conserved(a: Arena)
    requires a.Wf()
    ensures Total(a.lists) == |a.at|
  {
    TotalBelow(a, |a.lists|);
    assert a.lists[..|a.lists|] == a.lists;
    assert Below(a, |a.lists|) == a.at.Keys;
  }
}
