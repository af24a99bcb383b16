/** Block times that outlive several waits, and periodic wake times, on the wrapping tick. */
module TimeOuts {
  import opened Words

  /** What the scheduler shows at unbounded time n: the tick and the overflow count. */
  function Overflows(n: nat): word {
    Low(n / WRAP)
  }

  datatype Verdict = TimedOut | Remaining(ticks: word)

  /** The decision of xTaskCheckForTimeOut, for a stamp (count, entered) and a block time. */
  function Decide(count: word, entered: word, ticks: word, overflows: word, tick: word): Verdict {
    if ticks == MAX then Remaining(MAX)
    else if overflows != count && tick >= entered then TimedOut
    else if Sub(tick, entered) < ticks then Remaining(ticks - Sub(tick, entered))
    else TimedOut
  }

  /** TimeOut_t with the caller's block time, both updated in place. */
  class TimeOut {
    var overflowCount: word
    var timeOnEntering: word
    var ticksToWait: word
    ghost var entry: nat       // the unbounded time of the last stamp

    ghost predicate Stamped()
      reads this
    {
      overflowCount == Overflows(entry) && timeOnEntering == Low(entry)
    }

    constructor (n: nat, ticks: word)
      ensures Stamped() && entry == n && ticksToWait == ticks
    {
      overflowCount, timeOnEntering, ticksToWait, entry := Overflows(n), Low(n), ticks, n;
    }

    /** vTaskInternalSetTimeOutState. */
    method Stamp(overflows: word, tick: word, ghost n: nat)
      requires overflows == Overflows(n) && tick == Low(n)
      modifies this`overflowCount, this`timeOnEntering, this`entry
      ensures Stamped() && entry == n
    {
      overflowCount, timeOnEntering, entry := overflows, tick, n;
    }

    /** xTaskCheckForTimeOut at unbounded time n. With at most one wrap since the stamp it is
        true exactly from the deadline on, and otherwise re-stamps without moving the deadline. A
        timeout leaves nothing to wait, unless a full turn of the clock has passed since the stamp:
        then the remaining ticks stay as they were. */
    method CheckForTimeOut(overflows: word, tick: word, ghost n: nat) returns (timedOut: bool)
      requires Stamped() && entry <= n && n / WRAP <= entry / WRAP + 1
      requires overflows == Overflows(n) && tick == Low(n)
      modifies this
      ensures Stamped()
      ensures old(ticksToWait) == MAX ==> !timedOut && ticksToWait == MAX
      ensures old(ticksToWait) != MAX ==>
        && (timedOut <==> n >= old(entry) + old(ticksToWait))
        && (!timedOut ==> entry == n && entry + ticksToWait == old(entry) + old(ticksToWait) && ticksToWait > 0)
        && (timedOut ==> entry == old(entry) && ticksToWait == if n - entry >= WRAP then old(ticksToWait) else 0)
    {
      ghost var e := entry;
      if ticksToWait != MAX { DecideExact(e, ticksToWait, n); OneWrap(e, n); }
      var elapsed := Sub(tick, timeOnEntering);
      if ticksToWait == MAX {
        timedOut := false;
      } else if overflows != overflowCount && tick >= timeOnEntering {
        timedOut := true;
      } else if elapsed < ticksToWait {
        ticksToWait := ticksToWait - elapsed;
        Stamp(overflows, tick, n);
        timedOut := false;
      } else {
        ticksToWait := 0;
        timedOut := true;
      }
    }
  }

  /** How far apart two clock readings are, seen modulo 2^32. */
  lemma Elapsed(e: nat, n: nat)
    requires e <= n
    ensures Sub(Low(n), Low(e)) == (n - e) % WRAP
    ensures n - e < WRAP ==> Sub(Low(n), Low(e)) == n - e
  {
    var d, q := n % WRAP - e % WRAP, n / WRAP - e / WRAP;
    assert n - e == q * WRAP + d;
    assert (n - e) % WRAP == d % WRAP;
  }

  /** With at most one wrap, a full turn of the clock always shows. */
  lemma OneWrap(e: nat, n: nat)
    requires e <= n && n / WRAP <= e / WRAP + 1
    ensures n - e >= WRAP ==> Overflows(n) != Overflows(e) && Low(n) >= Low(e)
  {
    if n - e >= WRAP {
      assert n / WRAP == e / WRAP + 1;
    }
  }

  /** Exactly when the decision is right: the clock has not turned fully since the stamp, or the
      full turn shows in the overflow count, or enough of it is left over anyway. */
  lemma DecideExact(e: nat, ticks: word, n: nat)
    requires e <= n && ticks != MAX
    ensures (Decide(Overflows(e), Low(e), ticks, Overflows(n), Low(n)).TimedOut? <==> n >= e + ticks) <==>
      (n - e < WRAP || (Overflows(n) != Overflows(e) && Low(n) >= Low(e)) || (n - e) % WRAP >= ticks)
    ensures n - e < WRAP ==> !(Overflows(n) != Overflows(e) && Low(n) >= Low(e))
  {
    Elapsed(e, n);
    if n - e < WRAP && n / WRAP != e / WRAP {
      assert n / WRAP == e / WRAP + 1;
    }
  }

  /** A run of checks at the given times, each continuing where the last one stopped. */
  ghost function Checks(e: nat, ticks: word, times: seq<nat>): (nat, Verdict)
    decreases |times|
  {
    if times == [] then (e, Remaining(ticks))
    else
      var n := times[0];
      var v := Decide(Overflows(e), Low(e), ticks, Overflows(n), Low(n));
      if v.TimedOut? then (n, TimedOut) else Checks(if ticks == MAX then e else n, v.ticks, times[1..])
  }

  ghost predicate Paced(e: nat, times: seq<nat>)
    decreases |times|
  {
    times != [] ==> e <= times[0] && times[0] / WRAP <= e / WRAP + 1 && Paced(times[0], times[1..])
  }

  /** Across any number of checks the deadline is the one set at the start: the wait ends at the
      first check at or after it, and before that what remains always adds up to it. */
  lemma {:induction false} DeadlineConstant(e: nat, ticks: word, times: seq<nat>)
    requires ticks != MAX && ticks > 0 && Paced(e, times)
    ensures var (last, v) := Checks(e, ticks, times);
      && (v.TimedOut? <==> exists i :: 0 <= i < |times| && times[i] >= e + ticks)
      && (v.TimedOut? ==> last in times && last >= e + ticks)
      && (v.TimedOut? ==> forall i :: 0 <= i < |times| && times[i] < last ==> times[i] < e + ticks)
      && (v.Remaining? ==> last + v.ticks == e + ticks && v.ticks > 0)
    decreases |times|
  {
    if times != [] {
      var n := times[0];
      DecideExact(e, ticks, n);
      OneWrap(e, n);
      Elapsed(e, n);
      PacedSorted(e, times);
      if n < e + ticks {
        var rest := e + ticks - n;
        DeadlineConstant(n, rest, times[1..]);
        assert Checks(e, ticks, times) == Checks(n, rest, times[1..]);
        assert times == [n] + times[1..];
      }
    }
  }

  lemma {:induction false} PacedSorted(e: nat, times: seq<nat>)
    requires Paced(e, times)
    ensures forall i :: 0 <= i < |times| ==> e <= times[i]
    ensures forall i, j :: 0 <= i < j < |times| ==> times[i] <= times[j]
    decreases |times|
  {
    if times != [] {
      PacedSorted(times[0], times[1..]);
      assert times == [times[0]] + times[1..];
    }
  }

  // ----- vTaskDelayUntil

  /** The test of vTaskDelayUntil, on the wrapped previous wake time, increment and tick. */
  predicate ShouldDelay(previous: word, increment: word, tick: word) {
    var wake := Add(previous, increment);
    if tick < previous then wake < previous && wake > tick else wake < previous || wake > tick
  }

  /** Exactly when the test is right about the unbounded wake time p + increment: the caller is
      less than one turn of the clock late, or late enough in the current turn too. */
  lemma DelayUntilExact(p: nat, increment: word, n: nat)
    requires increment > 0 && p <= n
    ensures ShouldDelay(Low(p), increment, Low(n)) <==> increment > (n - p) % WRAP
    ensures (ShouldDelay(Low(p), increment, Low(n)) <==> p + increment > n) <==>
      (n - p < WRAP || increment <= (n - p) % WRAP)
  {
    Elapsed(p, n);
  }

  /** vTaskDelayUntil up to the block itself: the wake time moves on by exactly the increment,
      and the task blocks for exactly the time that is left, if any is. */
  method DelayUntil(previous: word, increment: word, tick: word, ghost p: nat, ghost n: nat)
    returns (wake: word, shouldDelay: bool, ticks: word)
    requires increment > 0 && p <= n < p + WRAP && previous == Low(p) && tick == Low(n)
    ensures wake == Low(p + increment)
    ensures shouldDelay <==> p + increment > n
    ensures shouldDelay ==> ticks == p + increment - n > 0
  {
    WakeTime(p, increment, n);
    hide Low, Add, Sub;
    wake := Add(previous, increment);
    shouldDelay := false;
    if tick < previous {
      if wake < previous && wake > tick {
        shouldDelay := true;
      }
    } else {
      if wake < previous || wake > tick {
        shouldDelay := true;
      }
    }
    ticks := Sub(wake, tick);
  }

  /** What the decision says within one turn of the clock. */
  lemma WakeTime(p: nat, increment: word, n: nat)
    requires increment > 0 && p <= n < p + WRAP
    ensures Add(Low(p), increment) == Low(p + increment)
    ensures ShouldDelay(Low(p), increment, Low(n)) <==> p + increment > n
    ensures p + increment > n ==> Sub(Low(p + increment), Low(n)) == p + increment - n
  {
    DelayUntilExact(p, increment, n);
    AddLow(p, increment);
    if p + increment > n { Elapsed(n, p + increment); }
    hide *;
  }

  /** The k-th wake time of a periodic task, computed by k wrapped additions, is start + k periods. */
  function Wakes(previous: word, increment: word, k: nat): word {
    if k == 0 then previous else Add(Wakes(previous, increment, k - 1), increment)
  }

  lemma {:induction false} NoDrift(start: nat, increment: word, k: nat)
    ensures Wakes(Low(start), increment, k) == Low(start + k * increment)
  {
    if k > 0 {
      NoDrift(start, increment, k - 1);
      var before := start + (k - 1) * increment;
      assert start + k * increment == before + increment by {
        assert k * increment == (k - 1) * increment + increment;
      }
      AddLow(before, increment);
    }
  }

  lemma AddLow(a: nat, b: word)
    ensures Add(Low(a), b) == Low(a + b)
  {
  }
}
