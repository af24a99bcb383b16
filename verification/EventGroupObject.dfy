/** The event group as event_groups.c writes it: bits and waiting list changed step by step. Each
    method leaves exactly the state the specification says. */
module EventGroupObjects {
  import opened EventGroups
  import opened EventGroupRuns

  lemma EitherAssociates(a: Bits, b: Bits, c: Bits)
    ensures Either(Either(a, b), c) == Either(a, Either(b, c))
  {
  }

  lemma EitherNothing(a: Bits)
    ensures Either(0, a) == a && Either(a, 0) == a
  {
  }

  /** What the loop will have made of the list, the woken tasks and the mask, from item i on. */
  function Outcome(ws: seq<Waiter>, i: nat, bits: Bits, woken: map<Task, Bits>, acc: Bits)
    : (seq<Waiter>, map<Task, Bits>, Bits)
    requires i <= |ws|
  {
    (ws[..i] + Unmet(ws[i..], bits), Wake(ws[i..], bits, woken), Either(acc, ClearMask(ws[i..], bits)))
  }

  lemma OutcomeStarts(ws: seq<Waiter>, bits: Bits, woken: map<Task, Bits>)
    ensures Outcome(ws, 0, bits, woken, 0) == (Unmet(ws, bits), Wake(ws, bits, woken), ClearMask(ws, bits))
  {
    EitherNothing(ClearMask(ws, bits));
    hide Either, ClearMask, Unmet, Wake;
    assert ws[0..] == ws && ws[..0] + Unmet(ws, bits) == Unmet(ws, bits);
  }

  lemma OutcomeEnds(ws: seq<Waiter>, bits: Bits, woken: map<Task, Bits>, acc: Bits)
    ensures Outcome(ws, |ws|, bits, woken, acc) == (ws, woken, acc)
  {
    EitherNothing(acc);
    hide Either;
    assert ws[|ws|..] == [] && ws[..|ws|] + [] == ws;
  }

  lemma Unfolded(ws: seq<Waiter>, i: nat, bits: Bits, woken: map<Task, Bits>)
    requires i < |ws|
    ensures var w := ws[i];
      var rest := ws[i + 1..];
      && Unmet(ws[i..], bits) == (if Met(w.value, bits) then [] else [w]) + Unmet(rest, bits)
      && Wake(ws[i..], bits, woken) ==
         Wake(rest, bits, if Met(w.value, bits) then woken[w.task := Handed(bits)] else woken)
      && ClearMask(ws[i..], bits) == Either(Toll(w, bits), ClearMask(rest, bits))
  {
    assert ws[i..][0] == ws[i] && ws[i..][1..] == ws[i + 1..];
    hide Met, Either, Handed, Toll;
  }

  /** One turn of the loop leaves the outcome as it was. */
  lemma OutcomeTurn(ws: seq<Waiter>, i: nat, bits: Bits, woken: map<Task, Bits>, acc: Bits)
    requires i < |ws|
    ensures var w := ws[i];
      Outcome(ws, i, bits, woken, acc) ==
        if Met(w.value, bits) then
          Outcome(ws[..i] + ws[i + 1..], i, bits, woken[w.task := Handed(bits)], Either(acc, Toll(w, bits)))
        else Outcome(ws, i + 1, bits, woken, acc)
  {
    var w := ws[i];
    Unfolded(ws, i, bits, woken);
    EitherAssociates(acc, Toll(w, bits), ClearMask(ws[i + 1..], bits));
    TollIs(w, bits, acc);
    hide Met, Either, Handed, Toll, Unmet, Wake, ClearMask;
    var rest := Unmet(ws[i + 1..], bits);
    if Met(w.value, bits) {
      var less := ws[..i] + ws[i + 1..];
      assert less[i..] == ws[i + 1..] && less[..i] == ws[..i] && [] + rest == rest;
    } else {
      assert ws[..i + 1] == ws[..i] + [w];
      assert ws[..i] + ([w] + rest) == (ws[..i] + [w]) + rest;
    }
  }

  class EventGroupObject {
    var bits: Bits             // uxEventBits
    var waiting: seq<Waiter>   // xTasksWaitingForBits
    var woken: map<Task, Bits>

    ghost function View(): Group
      reads this
    {
      Group(bits, waiting, woken)
    }

    /** xEventGroupCreate. */
    constructor ()
      ensures View() == Group(0, [], map[]) && Inv(View())
    {
      bits, waiting, woken := 0, [], map[];
    }

    /** The test on one list item in xEventGroupSetBits. */
    method Matches(value: Bits) returns (found: bool)
      ensures found == Met(value, bits)
    {
      hide Meets, Covers, WaitsForAll, Wanted;
      found := false;
      var waitedFor := Wanted(value);
      if !WaitsForAll(value) {
        if Meets(bits, waitedFor) {
          found := true;
        }
      } else if Covers(bits, waitedFor) {
        found := true;
      }
    }

    /** One list item that matches: it leaves the list, and its bits may have to be cleared. */
    method Release(i: nat, bitsToClear: Bits) returns (r: Bits)
      requires i < |waiting| && Met(waiting[i].value, bits)
      modifies this`waiting, this`woken
      ensures var w := old(waiting)[i];
        && waiting == old(waiting)[..i] + old(waiting)[i + 1..] && woken == old(woken)[w.task := Handed(bits)]
        && r == Either(bitsToClear, Toll(w, bits))
    {
      var w := waiting[i];
      TollIs(w, bits, bitsToClear);
      hide Met, Either, Handed, Toll, ClearsOnExit, Wanted;
      r := if ClearsOnExit(w.value) then Either(bitsToClear, Wanted(w.value)) else bitsToClear;
      woken := woken[w.task := Handed(bits)];
      waiting := waiting[..i] + waiting[i + 1..];
    }

    /** The loop of xEventGroupSetBits. */
    method ReleaseMatching() returns (bitsToClear: Bits)
      modifies this`waiting, this`woken
      ensures (waiting, woken, bitsToClear) ==
        (Unmet(old(waiting), bits), Wake(old(waiting), bits, old(woken)), ClearMask(old(waiting), bits))
    {
      ghost var ws, m := waiting, woken;
      hide Met, Either, Handed, Toll, Outcome, Unmet, Wake, ClearMask;
      OutcomeStarts(ws, bits, m);
      bitsToClear := 0;
      var i := 0;
      while i < |waiting|
        invariant i <= |waiting| && Outcome(waiting, i, bits, woken, bitsToClear) == Outcome(ws, 0, bits, m, 0)
        decreases |waiting| - i
      {
        OutcomeTurn(waiting, i, bits, woken, bitsToClear);
        var found := Matches(waiting[i].value);
        if found {
          bitsToClear := Release(i, bitsToClear);
        } else {
          i := i + 1;
        }
      }
      OutcomeEnds(waiting, bits, woken, bitsToClear);
    }

    /** xEventGroupSetBits. */
    method Set(bitsToSet: Bits)
      modifies this
      ensures View() == SetBits(old(View()), bitsToSet)
    {
      bits := Either(bits, bitsToSet);
      hide Either, Unmet, Wake, ClearMask, Less;
      var bitsToClear := ReleaseMatching();
      bits := Less(bits, bitsToClear);
    }

    /** xEventGroupClearBits. */
    method Clear(bitsToClear: Bits) returns (before: Bits)
      modifies this`bits
      ensures View() == ClearBits(old(View()), bitsToClear) && before == old(bits)
    {
      before := bits;
      bits := Less(bits, bitsToClear);
    }

    /** xEventGroupWaitBits up to the block. */
    method Wait(t: Task, wanted: Bits, clearOnExit: bool, waitForAll: bool, block: bool) returns (value: Bits)
      modifies this`bits, this`waiting
      ensures View() == WaitBits(old(View()), t, wanted, clearOnExit, waitForAll, block)
      ensures Condition(old(bits), wanted, waitForAll) || !block ==> value == old(bits)
    {
      hide Condition, Less;
      var currentEventBits := bits;
      value := 0;
      if Condition(currentEventBits, wanted, waitForAll) {
        value := currentEventBits;
        if clearOnExit {
          bits := Less(bits, wanted);
        }
      } else if !block {
        value := currentEventBits;
      } else {
        var controlBits: Bits := 0;
        if clearOnExit {
          controlBits := controlBits | CLEAR;
        }
        if waitForAll {
          controlBits := controlBits | ALL;
        }
        ControlBits(wanted, clearOnExit, waitForAll, controlBits);
        waiting := waiting + [Waiter(t, wanted | controlBits | IN_USE)];
      }
    }

    /** xEventGroupSync up to the block. */
    method Sync(t: Task, bitsToSet: Bits, wanted: Bits, block: bool) returns (value: Bits)
      modifies this
      ensures View() == SyncBits(old(View()), t, bitsToSet, wanted, block)
      ensures Covers(Either(old(bits), bitsToSet), wanted) ==> value == Either(old(bits), bitsToSet)
      ensures !Covers(Either(old(bits), bitsToSet), wanted) && !block ==>
        value == SetBits(old(View()), bitsToSet).bits == bits
    {
      hide SetBits, Covers, Either, Less, Encode;
      var originalBitValue := bits;
      value := 0;
      Set(bitsToSet);
      if Covers(Either(originalBitValue, bitsToSet), wanted) {
        value := Either(originalBitValue, bitsToSet);
        bits := Less(bits, wanted);
      } else if block {
        waiting := waiting + [Waiter(t, Encode(wanted, true, true))];
      } else {
        value := bits;
      }
    }

    /** The critical section of xEventGroupWaitBits and xEventGroupSync after a timeout. */
    method AfterTimeout(wanted: Bits, clearOnExit: bool, waitForAll: bool) returns (value: Bits)
      modifies this`bits
      ensures View() == Late(old(View()), wanted, clearOnExit, waitForAll) && value == Wanted(old(bits))
    {
      hide Condition, Less, Wanted;
      value := Wanted(bits);
      if Condition(bits, wanted, waitForAll) && clearOnExit {
        bits := Less(bits, wanted);
      }
    }
  }

  lemma ControlBits(wanted: Bits, clearOnExit: bool, waitForAll: bool, control: Bits)
    requires control == (if clearOnExit then 0 | CLEAR else 0) | (if waitForAll then ALL else 0)
    ensures wanted | control | IN_USE == Encode(wanted, clearOnExit, waitForAll)
  {
  }

  lemma TollIs(w: Waiter, bits: Bits, acc: Bits)
    ensures Met(w.value, bits) && ClearsOnExit(w.value) ==> Toll(w, bits) == Wanted(w.value)
    ensures !(Met(w.value, bits) && ClearsOnExit(w.value)) ==> Either(acc, Toll(w, bits)) == acc
  {
    EitherNothing(acc);
    hide Met, ClearsOnExit, Wanted, Either;
  }
}
