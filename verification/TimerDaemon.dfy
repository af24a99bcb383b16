/** The daemon of timers.c as it is written: lists, queue and flags changed step by step. Each
    method leaves exactly the state the specification in Timers says; the unbounded times that
    items and messages carry along decide nothing. */
module TimerDaemons {
  import opened Words
  import opened Rings
  import opened Timers
  import opened TimerRuns
  import TimerSteps

  class TimerDaemon {
    var current: seq<Entry>
    var overflow: seq<Entry>
    var queue: seq<Message>
    var period: map<TimerId, word>
    var auto: set<TimerId>
    var active: set<TimerId>
    var last: word                 // xLastTime
    ghost var lastUnbounded: nat   // the unbounded time xLastTime was sampled at
    var now: nat                   // the unbounded clock
    ghost var base: map<TimerId, nat>
    ghost var runs: map<TimerId, nat>
    var stuck: bool

    ghost function View(): Daemon
      reads this
    {
      Daemon(current, overflow, queue, period, auto, active, lastUnbounded, now, base, runs, stuck)
    }

    /** xLastTime is the tick at the last sample. */
    ghost predicate Valid()
      reads this
    {
      last == Low(lastUnbounded)
    }

    /** prvCheckForValidListAndQueue. */
    constructor ()
      ensures Valid() && View() == IDLE
    {
      current, overflow, queue := [], [], [];
      period, auto, active, runs, base := map[], {}, {}, map[], map[];
      last, lastUnbounded, now, stuck := 0, 0, 0, false;
    }

    method RunCallback(t: TimerId)
      requires Valid()
      modifies this`runs
      ensures Valid() && View() == Callback(old(View()), t)
    {
      runs := runs[t := (if t in runs then runs[t] else 0) + 1];
    }

    /** xTimerGenericCommand as the daemon calls it, with the assertion on its result. */
    method PostToSelf(m: Message)
      requires Valid()
      modifies this`queue, this`stuck
      ensures Valid() && View() == Post(old(View()), m)
    {
      if |queue| < QUEUE_LENGTH {
        queue := queue + [m];
      } else {
        stuck := true;
      }
    }

    /** vListInsert: past every entry that does not expire later. */
    static method InsertByExpiry(s: seq<Entry>, e: Entry) returns (r: seq<Entry>)
      ensures r == Insert(s, e)
    {
      var k := 0;
      if e.value == MAX {
        k := |s|;
      } else {
        ghost var vals := Values(s);
        while k < |s| && s[k].value <= e.value
          invariant k <= |s|
          invariant ScanPos(vals, e.value) == k + ScanPos(vals[k..], e.value)
        {
          assert vals[k..][1..] == vals[k + 1..];
          k := k + 1;
        }
      }
      r := s[..k] + [e] + s[k..];
    }

    /** uxListRemove, if the timer is in a list. */
    static method RemoveTimer(s: seq<Entry>, t: TimerId) returns (r: seq<Entry>)
      ensures r == Drop(s, t)
    {
      hide Drop;
      var k := 0;
      while k < |s| && s[k].timer != t
        invariant k <= |s|
        invariant Drop(s, t) == s[..k] + Drop(s[k..], t)
      {
        DropPast(s, k, t);
        k := k + 1;
      }
      DropAt(s, k, t);
      r := if k == |s| then s else s[..k] + s[k + 1..];
    }

    /** prvInsertTimerInActiveList. */
    method InsertTimerInActiveList(t: TimerId, nextExpiryTime: word, timeNow: word, commandTime: word, due: nat)
        returns (processTimerNow: bool)
      requires Valid()
      modifies this`current, this`overflow
      ensures Valid()
      ensures (View(), processTimerNow) == InsertTimer(old(View()), t, nextExpiryTime, timeNow, commandTime, due)
    {
      processTimerNow := false;
      var p := if t in period && period[t] > 0 then period[t] else 1;
      assert p == Period(View(), t);
      if nextExpiryTime <= timeNow {
        if Sub(timeNow, commandTime) >= p {
          processTimerNow := true;
        } else {
          overflow := InsertByExpiry(overflow, Entry(t, nextExpiryTime, due));
        }
      } else {
        if timeNow < commandTime && nextExpiryTime >= commandTime {
          processTimerNow := true;
        } else {
          current := InsertByExpiry(current, Entry(t, nextExpiryTime, due));
        }
      }
    }

    method Reload(t: TimerId, at: word, due: nat)
      requires Valid()
      modifies this`current, this`queue, this`stuck
      ensures Valid()
      ensures var d := old(View());
        var reload := Add(at, Period(d, t));
        View() ==
          if reload > at then d.(current := Insert(d.current, Entry(t, reload, due + Period(d, t))))
          else Post(d, Message(Restart, t, at, due))
    {
      var p := if t in period && period[t] > 0 then period[t] else 1;
      assert p == Period(View(), t);
      var reloadTime := Add(at, p);
      if reloadTime > at {
        current := InsertByExpiry(current, Entry(t, reloadTime, due + p));
      } else {
        PostToSelf(Message(Restart, t, at, due));
      }
    }

    /** One pass of the loop of prvSwitchTimerLists. */
    method SwitchHead()
      requires Valid() && View().current != []
      modifies this`current, this`queue, this`runs, this`stuck
      ensures Valid() && View() == SwitchOne(old(View()))
    {
      hide Insert;
      var e := current[0];
      current := current[1..];
      RunCallback(e.timer);
      if e.timer in auto {
        Reload(e.timer, e.value, e.due);
      }
    }

    /** prvSwitchTimerLists: run down what the ending epoch still holds, then swap. */
    method SwitchTimerLists()
      requires Valid()
      modifies this`current, this`overflow, this`queue, this`runs, this`stuck
      ensures Valid() && View() == SwitchLists(old(View()))
    {
      hide SwitchOne;
      ghost var d := View();
      while |current| > 0
        invariant Valid() && SwitchLoop(View()) == SwitchLoop(d)
        decreases Work(current)
      {
        SwitchProgress(View());
        SwitchHead();
      }
      current, overflow := overflow, current;
    }

    /** prvSampleTimeNow; timeNow is what xTaskGetTickCount reads. */
    method SampleTimeNow(timeNow: word) returns (switched: bool)
      requires Valid() && timeNow == Low(now)
      modifies this`current, this`overflow, this`queue, this`runs, this`stuck, this`last, this`lastUnbounded
      ensures Valid() && View() == Sample(old(View()))
      ensures switched <==> timeNow < Low(old(lastUnbounded))
    {
      switched := timeNow < last;
      if switched {
        SwitchTimerLists();
      }
      last, lastUnbounded := timeNow, now;
    }

    /** prvProcessExpiredTimer. */
    method ProcessExpiredTimer(nextExpireTime: word, timeNow: word)
      requires Valid() && View().current != [] && timeNow == Low(now)
      modifies this`current, this`overflow, this`queue, this`active, this`runs, this`stuck
      ensures Valid() && View() == ProcessExpired(old(View()), nextExpireTime, timeNow)
    {
      hide InsertTimer, Post, Add, Callback, Low;
      var t := current[0].timer;
      var due := current[0].due;
      current := current[1..];
      if t in auto {
        var p := if t in period && period[t] > 0 then period[t] else 1;
        assert p == Period(View(), t);
        var expired := InsertTimerInActiveList(t, Add(nextExpireTime, p), timeNow, nextExpireTime, due + p);
        if expired {
          PostToSelf(Message(Restart, t, nextExpireTime, due));
        }
      } else {
        active := active - {t};
      }
      RunCallback(t);
    }

    /** prvGetNextExpireTime and prvProcessTimerOrBlockTask, up to the block. */
    method ProcessTimerOrBlockTask(timeNow: word)
      requires Valid() && timeNow == Low(now)
      modifies this`current, this`overflow, this`queue, this`active, this`runs, this`stuck
      modifies this`last, this`lastUnbounded
      ensures Valid() && View() == ProcessTimer(old(View()))
    {
      var listWasEmpty := |current| == 0;
      var nextExpireTime := if listWasEmpty then 0 else current[0].value;
      ghost var d := View();
      NoSwitchKeepsLists(d);
      var switched := SampleTimeNow(timeNow);
      assert View() == Sample(d);
      if !switched && !listWasEmpty && nextExpireTime <= timeNow {
        ProcessExpiredTimer(nextExpireTime, timeNow);
      }
    }

    /** The books of the schedule a command begins, continues or ends; the daemon keeps none. */
    ghost method FollowCommand(m: Message, start: nat)
      requires Valid()
      modifies this`base, this`runs
      ensures Valid() && View() == Follow(old(View()), m, start)
    {
      if !NoRestart(queue, m.timer) {
        base := base - {m.timer};
      } else if !(m.kind == Restart && m.timer in base) {
        base, runs := base[m.timer := start], runs[m.timer := 0];
      }
    }

    /** The start cases of prvProcessReceivedCommands. */
    method StartTimer(m: Message, timeNow: word)
      requires Valid() && timeNow == Low(now)
      modifies this`current, this`overflow, this`queue, this`active, this`base, this`runs, this`stuck
      ensures Valid() && View() == ExecuteStart(old(View()), m)
    {
      hide Follow, InsertTimer;
      var t := m.timer;
      var p := if t in period && period[t] > 0 then period[t] else 1;
      assert p == Period(View(), t);
      active := active + {t};
      ghost var a := View();
      TimerSteps.FollowFrame(a, m, m.sent);
      FollowCommand(m, m.sent);
      var expired := InsertTimerInActiveList(t, Add(m.value, p), timeNow, m.value, m.sent + p);
      if expired {
        RunCallback(t);
        if t in auto {
          PostToSelf(Message(Restart, t, Add(m.value, p), m.sent + p));
        }
      }
    }

    /** The change-period case of prvProcessReceivedCommands. */
    method ChangeTimerPeriod(m: Message, timeNow: word)
      requires Valid() && timeNow == Low(now)
      modifies this`current, this`overflow, this`active, this`period, this`base, this`runs, this`stuck
      ensures Valid() && View() == ExecutePeriod(old(View()), m)
    {
      hide Follow, InsertTimer;
      if m.value == 0 {
        stuck := true;
      } else {
        active := active + {m.timer};
        period := period[m.timer := m.value];
        ghost var a := View();
        TimerSteps.FollowFrame(a, m, now);
        FollowCommand(m, now);
        var _ := InsertTimerInActiveList(m.timer, Add(timeNow, m.value), timeNow, timeNow, now + m.value);
      }
    }

    /** The stop and delete cases. */
    method StopTimer(t: TimerId)
      requires Valid()
      modifies this`active, this`base
      ensures Valid() && View() == Stopped(old(View()), t)
    {
      active := active - {t};
      base := base - {t};
    }

    /** One turn of the loop of prvProcessReceivedCommands. */
    method ProcessNextCommand(timeNow: word)
      requires Valid() && timeNow == Low(now) && View().queue != []
      modifies this`current, this`overflow, this`queue, this`active, this`period, this`base, this`runs, this`stuck
      modifies this`last, this`lastUnbounded
      ensures Valid() && View() == ProcessCommand(old(View()))
      ensures now == old(now)
    {
      ghost var d := View();
      TimerSteps.TakenFrame(d);
      hide ProcessCommand, TimerSteps.Taken, Sample, Execute, View;
      var m := TakeMessage();
      var _ := SampleTimeNow(timeNow);
      ExecuteCommand(m, timeNow);
    }

    /** The message comes off the queue, and its timer off the lists. */
    method TakeMessage() returns (m: Message)
      requires Valid() && View().queue != []
      modifies this`current, this`overflow, this`queue
      ensures Valid() && View() == TimerSteps.Taken(old(View())) && m == old(View()).queue[0]
    {
      hide Drop;
      m := queue[0];
      queue := queue[1..];
      current := RemoveTimer(current, m.timer);
      overflow := RemoveTimer(overflow, m.timer);
    }

    /** The switch statement of prvProcessReceivedCommands. */
    method ExecuteCommand(m: Message, timeNow: word)
      requires Valid() && timeNow == Low(now)
      modifies this`current, this`overflow, this`queue, this`active, this`period, this`base, this`runs, this`stuck
      ensures Valid() && View() == Execute(old(View()), m)
    {
      hide ExecuteStart, ExecutePeriod, Stopped;
      match m.kind
      case Start => StartTimer(m, timeNow);
      case Restart => StartTimer(m, timeNow);
      case ChangePeriod => ChangeTimerPeriod(m, timeNow);
      case Stop => StopTimer(m.timer);
      case Delete => StopTimer(m.timer);
    }

    /** The daemon's loop while the clock stands still. */
    method RunUntilIdle(timeNow: word)
      requires Valid() && timeNow == Low(now) && lastUnbounded == now
      modifies this`current, this`overflow, this`queue, this`active, this`period, this`base, this`runs, this`stuck
      modifies this`last, this`lastUnbounded
      ensures Valid() && View() == Drain(old(View()))
    {
      ghost var d := View();
      hide ProcessCommand, ProcessTimer, Pending;
      while |queue| > 0 || (|current| > 0 && current[0].value <= timeNow)
        invariant Valid() && lastUnbounded == now == old(now) && Drain(View()) == Drain(d)
        decreases Pending(View())
      {
        if |queue| > 0 {
          CommandTurnWork(View());
          ProcessNextCommand(timeNow);
        } else {
          TimerTurnWork(View());
          ProcessTimerOrBlockTask(timeNow);
        }
      }
    }
  }

  /** One step of the search for t. */
  lemma DropPast(s: seq<Entry>, k: nat, t: TimerId)
    requires k < |s| && s[k].timer != t
    ensures s[..k] + Drop(s[k..], t) == s[..k + 1] + Drop(s[k + 1..], t)
  {
    assert s[k..][1..] == s[k + 1..];
    assert s[..k + 1] == s[..k] + [s[k]];
  }

  lemma DropAt(s: seq<Entry>, k: nat, t: TimerId)
    requires k <= |s|
    ensures k == |s| ==> Drop(s[k..], t) == [] && s[..k] == s
    ensures k < |s| && s[k].timer == t ==> Drop(s[k..], t) == s[k + 1..]
  {
  }

  /** Without a wrap, sampling leaves the lists alone. */
  lemma NoSwitchKeepsLists(d: Daemon)
    ensures Low(d.now) >= Low(d.last) ==> Sample(d).current == d.current
  {
  }
}
