/** The daemon task of FreeRTOS-Kernel/timers.c: each method brings the state to the one the operation of
    module TimerDaemon says. */
module TimerTask {
  import opened Words
  import opened Rings
  import opened Kernel
  import opened DelayLists
  import opened TimeBudget
  import opened TimerDaemon

  // ---------- what is due ----------

  /** How many timers of a list are due. */
  function Due(d: seq<Timed>, tick: Tick): nat {
    if d == [] then 0 else (if d[0].time <= tick then 1 else 0) + Due(d[1..], tick)
  }

  lemma {:induction false} DueJoin(a: seq<Timed>, b: seq<Timed>, tick: Tick)
    ensures Due(a + b, tick) == Due(a, tick) + Due(b, tick)
  {
    if a == [] {
      assert a + b == b;
    } else {
      DueJoin(a[1..], b, tick);
      assert (a + b)[1..] == a[1..] + b;
    }
  }

  lemma DueInsert(d: seq<Timed>, e: Timed, tick: Tick)
    requires e.time > tick
    ensures Due(InsertTimed(d, e), tick) == Due(d, tick)
  {
    var p := SortedPosition(Times(d), e.time);
    assert InsertTimed(d, e) == d[..p] + ([e] + d[p..]);
    assert d == d[..p] + d[p..];
    DueJoin(d[..p], [e] + d[p..], tick);
    DueJoin([e], d[p..], tick);
    DueJoin(d[..p], d[p..], tick);
    assert Due([e], tick) == 0;
  }

  /** Processing the head makes fewer timers due: its next expiry is later. */
  lemma ProcessedDue(s: Daemon, floating: set<Id>)
    requires Valid(s, floating) && HeadDue(s)
    ensures Due(Processed(s, floating).current, Low(s.now)) < Due(s.current, Low(s.now))
  {
    hide Valid, Deadline, Periods, Epoch, InsertTimed;
    HeadEntry(s, floating);
    Early(s, floating, s.current[0].task);
    var x := s.current[0].task;
    if s.timers[x].autoReload {
      PeriodsElapsed(s.started[x], s.timers[x].period, s.now);
      var due := Deadline(s.started[x], s.timers[x].period, Periods(s.started[x], s.timers[x].period, s.now) + 1);
      if Epoch(due) == Epoch(s.now) {
        LaterLow(s.now, due);
        DueInsert(s.current[1..], Timed(x, Low(due)), Low(s.now));
      }
    }
  }

  lemma LaterLow(t: nat, u: nat)
    requires t < u && Epoch(t) == Epoch(u)
    ensures Low(t) < Low(u)
  {
  }

  // ---------- the daemon itself ----------

  /** What the functions send to the timer queue.  A reset is a start, and the forms for interrupts are
      the same messages. */
  datatype CommandId = COMMAND_START | COMMAND_STOP | COMMAND_CHANGE_PERIOD | COMMAND_DELETE

  datatype Message = Message(id: CommandId, timer: Id, value: Tick)

  /** Handled when the tick counter reads tick, the message stands for this step. */
  ghost predicate Stands(m: Message, tick: Tick, op: Op) {
    match m.id
    case COMMAND_START => op.StartAt? && m == Message(m.id, op.x, Low(op.command)) && tick == Low(op.t)
    case COMMAND_STOP => op.StopAt? && m.timer == op.x && tick == Low(op.t)
    case COMMAND_CHANGE_PERIOD => op.PeriodAt? && m == Message(m.id, op.x, op.period) && tick == Low(op.t)
    case COMMAND_DELETE => op.FreeAt? && m.timer == op.x && tick == Low(op.t)
  }

  class TimerTask {
    var timers: map<Id, Timer>
    var current: seq<Timed>
    var overflow: seq<Timed>
    var lastTime: Tick

    /** How often each callback has been called since the timer was last started. */
    var calls: map<Id, nat>

    ghost var started: map<Id, nat>
    ghost var now: nat

    ghost function State(): Daemon
      reads this
    {
      Daemon(timers, current, overflow, calls, started, now)
    }

    constructor ()
      ensures Valid(State(), {}) && State() == Fresh() && lastTime == Low(now)
    {
      timers, calls, started := map[], map[], map[];
      current, overflow, lastTime := [], [], 0;
      now := 0;
    }

    /** xTimerCreate, by whatever task */
    method CreateTimer(x: Id, period: Tick, autoReload: bool)
      requires Valid(State(), {}) && Enabled(State(), Create(x, period, autoReload))
      modifies this`timers, this`calls, this`started
      ensures Valid(State(), {}) && State() == Step(old(State()), Create(x, period, autoReload))
    {
      hide Valid;
      StepKeeps(State(), Create(x, period, autoReload));
      timers := timers[x := Timer(period, autoReload, false)];
      calls := calls[x := 0];
      started := started[x := now];
    }

    /** vTimerSetReloadMode */
    method SetReloadMode(x: Id, autoReload: bool)
      requires Valid(State(), {}) && x in timers
      modifies this`timers
      ensures Valid(State(), {}) && State() == Step(old(State()), SetMode(x, autoReload))
    {
      hide Valid;
      StepKeeps(State(), SetMode(x, autoReload));
      timers := timers[x := timers[x].(autoReload := autoReload)];
    }

    /** prvInsertTimerInActiveList */
    method InsertTimerInActiveList(x: Id, nextExpiry: Tick, timeNow: Tick, commandTime: Tick, ghost command: nat)
      returns (processNow: bool)
      requires x in timers && timers[x].period > 0
      requires command <= now < command + 0x1_0000_0000
      requires commandTime == Low(command) && timeNow == Low(now)
      requires nextExpiry == Low(command + timers[x].period)
      modifies this`current, this`overflow
      ensures processNow <==> command + timers[x].period <= now
      ensures State() == if processNow then old(State()) else Entered(old(State()), x, command + timers[x].period)
    {
      hide Low, Epoch, Sub, InsertTimed;
      ChooseRight(timers[x].period, command, now);
      processNow := false;
      if nextExpiry <= timeNow {
        if Sub(timeNow, commandTime) >= timers[x].period {
          processNow := true;
        } else {
          overflow := InsertTimed(overflow, Timed(x, nextExpiry));
        }
      } else if timeNow < commandTime && nextExpiry >= commandTime {
        processNow := true;
      } else {
        current := InsertTimed(current, Timed(x, nextExpiry));
      }
    }

    /** The callback of timer x. */
    method Call(x: Id)
      requires x in calls
      modifies this`calls
      ensures State() == old(State()).(calls := old(calls)[x := old(calls)[x] + 1])
    {
      calls := calls[x := calls[x] + 1];
    }

    /** prvReloadTimer: one callback for each expiry that has passed but the first, whose callback is
        the caller's, and then back on a list. */
    method ReloadTimer(x: Id, expired: Tick, timeNow: Tick)
      requires x in timers && timers[x].period > 0 && x in calls && x in started && started[x] <= now
      requires var at := Deadline(started[x], timers[x].period, calls[x] + 1);
        expired == Low(at) && at <= now < at + 0x1_0000_0000
      requires timeNow == Low(now)
      modifies this`calls, this`current, this`overflow
      ensures x in calls && State().(calls := calls[x := calls[x] + 1]) == Caught(old(State()), x)
    {
      hide Low, Epoch, Add, Sub, Deadline, Entered, Caught;
      var period, time := timers[x].period, expired;
      ghost var s, c := State(), calls[x];
      ghost var at := Deadline(started[x], period, c + 1);
      AddCrossesEpoch(at, period);
      NextDeadline(started[x], period, c + 1);
      var processNow := InsertTimerInActiveList(x, Add(time, period), timeNow, time, at);
      assert s.calls[x := c] == s.calls;
      while processNow
        invariant c >= s.calls[x] && at == Deadline(started[x], period, c + 1)
        invariant Deadline(started[x], period, c + 2) == at + period
        invariant time == Low(at) && at <= now < at + 0x1_0000_0000
        invariant processNow <==> at + period <= now
        invariant State() == if processNow then s.(calls := s.calls[x := c])
                             else Entered(s.(calls := s.calls[x := c]), x, at + period)
        decreases now - at
      {
        AddCrossesEpoch(at, period);
        time := Add(time, period);
        at := at + period;
        c := c + 1;
        Call(x);
        assert calls == s.calls[x := c];
        AddCrossesEpoch(at, period);
        NextDeadline(started[x], period, c + 1);
        processNow := InsertTimerInActiveList(x, Add(time, period), timeNow, time, at);
      }
      CaughtUp(s, x, c, at);
    }

    /** prvProcessExpiredTimer */
    method ProcessExpiredTimer(nextExpire: Tick, timeNow: Tick, ghost floating: set<Id>)
      requires Valid(State(), floating) && current != [] && nextExpire == current[0].time
      requires timeNow == Low(now) && nextExpire <= timeNow
      modifies this`timers, this`calls, this`current, this`overflow
      ensures State() == Processed(old(State()), floating)
    {
      hide Valid, Low, Epoch, Deadline, Entered, Caught, Taken, NeverEarly;
      HeadParts(State(), floating);
      var x := current[0].task;
      current := current[1..];
      if timers[x].autoReload {
        ReloadTimer(x, nextExpire, timeNow);
      } else {
        timers := timers[x := timers[x].(active := false)];
      }
      Call(x);
    }

    /** prvSwitchTimerLists: what is left on the current list has expired, and is processed as of the
        last instant of the wrap. */
    method SwitchTimerLists(ghost floating: set<Id>)
      requires Valid(State(), floating)
      modifies this
      ensures State() == Rolled(old(State()), floating) && lastTime == old(lastTime)
    {
      hide Valid, Epoch, Low, At, Processed, Flushed;
      ghost var epoch := Epoch(now);
      Instants(now);
      LaterKeeps(State(), floating, At(epoch, MAX_DELAY));
      now := At(epoch, MAX_DELAY);
      ghost var s := State();
      while current != []
        invariant Valid(State(), floating) && now == At(epoch, MAX_DELAY) && lastTime == old(lastTime)
        invariant Flushed(State(), floating) == Flushed(s, floating)
        decreases |current|
      {
        FlushStep(State(), floating);
        ProcessExpiredTimer(current[0].time, MAX_DELAY, floating);
      }
      FlushEnd(State(), floating);
      current, overflow := overflow, current;
      now := At(epoch + 1, 0);
    }

    /** prvSampleTimeNow, called with the tick count at time t: the lists are switched when the counter
        has gone back. */
    method SampleTimeNow(tickCount: Tick, ghost t: nat, ghost floating: set<Id>)
      returns (timeNow: Tick, listsWereSwitched: bool)
      requires Valid(State(), floating) && lastTime == Low(now)
      requires tickCount == Low(t) && Soon(now, t)
      modifies this
      ensures Valid(State(), floating) && State() == Sampled(old(State()), floating, t)
      ensures now == t && lastTime == Low(now) && timeNow == tickCount
      ensures listsWereSwitched <==> Epoch(t) != Epoch(old(now))
    {
      hide Valid, Epoch, Low, Rolled;
      Wrapped(now, t);
      SampledKeeps(State(), floating, t);
      timeNow := tickCount;
      if timeNow < lastTime {
        SwitchTimerLists(floating);
        listsWereSwitched := true;
      } else {
        listsWereSwitched := false;
      }
      now := t;
      lastTime := timeNow;
    }

    /** prvGetNextExpireTime */
    method GetNextExpireTime() returns (next: Tick, listWasEmpty: bool)
      requires Fits(current)
      ensures listWasEmpty <==> current == []
      ensures next == if current == [] then 0 else current[0].time
    {
      listWasEmpty := current == [];
      next := 0;
      if !listWasEmpty {
        assert current[0] in current;
        next := current[0].time;
      }
    }

    /** prvProcessTimerOrBlockTask, called with the tick count at time t.  When it blocks, nothing is
        due; the wait is to the next expiry, or to the wrap when the current list is empty. */
    method ProcessTimerOrBlockTask(nextExpire: Tick, listIsEmpty: bool, tickCount: Tick, ghost t: nat)
      returns (blocks: bool, wait: Tick, indefinitely: bool)
      requires Valid(State(), {}) && lastTime == Low(now)
      requires tickCount == Low(t) && Soon(now, t)
      requires listIsEmpty <==> current == []
      requires nextExpire == if current == [] then 0 else current[0].time
      modifies this
      ensures Valid(State(), {}) && State() == Turned(old(State()), t)
      ensures now == t && lastTime == Low(now)
      ensures blocks <==> Epoch(t) == Epoch(old(now)) && Handled(old(State()).(now := t))
      ensures blocks ==> State() == old(State()).(now := t)
      ensures blocks && current != [] ==> At(Epoch(t), current[0].time) == t + wait && !indefinitely
      ensures blocks && current == [] ==> wait == Sub(0, Low(t)) && (indefinitely <==> overflow == [])
      ensures blocks && !indefinitely ==> wait > 0
    {
      hide Valid, Epoch, Low, At, Processed, Rolled;
      SampledKeeps(State(), {}, t);
      WorkedKeeps(Sampled(State(), {}, t), SameWrap(State(), t));
      blocks, wait, indefinitely := false, 0, false;
      var timeNow, switched := SampleTimeNow(tickCount, t, {});
      if !switched {
        if !listIsEmpty && nextExpire <= timeNow {
          ProcessedClock(State(), {});
          ProcessExpiredTimer(nextExpire, timeNow, {});
        } else {
          blocks := true;
          if listIsEmpty {
            indefinitely := overflow == [];
            if overflow != [] {
              WrapAhead(State());
            }
          } else {
            TimeLeft(t, nextExpire);
          }
          wait := Sub(nextExpire, timeNow);
        }
      }
    }

    /** The daemon's turns at one tick count, no command arriving: it handles what is due and then
        blocks. */
    method HandleTime(tickCount: Tick, ghost t: nat) returns (ghost ops: seq<Op>)
      requires Valid(State(), {}) && lastTime == Low(now)
      requires tickCount == Low(t) && Soon(now, t)
      modifies this
      ensures Run(old(State()), ops) && State() == After(old(State()), ops)
      ensures forall op | op in ops :: op == TurnAt(t)
      ensures Valid(State(), {}) && now == t && lastTime == Low(now) && Handled(State())
    {
      hide Valid, Epoch, Low, Turned, Handled;
      ghost var start := State();
      ops := [TurnAt(t)];
      OneTurn(start, t);
      AllFit(start);
      var next, empty := GetNextExpireTime();
      var blocks, wait, indefinitely := ProcessTimerOrBlockTask(next, empty, tickCount, t);
      while !blocks
        invariant Valid(State(), {}) && now == t && lastTime == Low(now)
        invariant Run(start, ops) && State() == After(start, ops)
        invariant forall op | op in ops :: op == TurnAt(t)
        invariant blocks ==> Handled(State())
        decreases if blocks then 0 else 1, Due(current, tickCount)
      {
        ghost var s := State();
        AllFit(s);
        OneTurn(s, t);
        MoreTurns(start, ops, [TurnAt(t)]);
        TurnProgress(s);
        next, empty := GetNextExpireTime();
        blocks, wait, indefinitely := ProcessTimerOrBlockTask(next, empty, tickCount, t);
        ops := ops + [TurnAt(t)];
      }
    }

    /** The removal at the start of every command, from whichever list holds the timer. */
    method Unlist(x: Id)
      modifies this`current, this`overflow
      ensures State() == Unlisted(old(State()), x)
    {
      if x in Names(current) {
        current := DropTimed(current, x);
      } else if x in Names(overflow) {
        overflow := DropTimed(overflow, x);
      }
    }

    /** What every command begins with: the timer leaves its list and the time is sampled. */
    method Receive(x: Id, tickCount: Tick, ghost t: nat) returns (timeNow: Tick)
      requires Valid(State(), {}) && lastTime == Low(now)
      requires tickCount == Low(t) && Soon(now, t)
      modifies this
      ensures Valid(State(), {x}) && State() == Received(old(State()), x, t)
      ensures now == t && lastTime == Low(now) && timeNow == tickCount
    {
      hide Valid, Low, Unlisted, Sampled;
      UnlistedKeeps(State(), x);
      Unlist(x);
      var switched;
      timeNow, switched := SampleTimeNow(tickCount, t, {x});
    }

    /** The start branch of prvProcessReceivedCommands, for a timer that is on no list. */
    method Begin(x: Id, commandTime: Tick, timeNow: Tick, ghost command: nat)
      requires x in timers && timers[x].period > 0 && Soon(command, now)
      requires timeNow == Low(now) && commandTime == Low(command)
      modifies this`timers, this`calls, this`started, this`current, this`overflow
      ensures State() == Begun(old(State()), x, command)
    {
      hide Epoch, Low, Add, Deadline, Entered, Caught;
      var timer := timers[x].(active := true);
      var period := timer.period;
      FirstDeadline(command, period);
      timers := timers[x := timer];
      calls := calls[x := 0];
      started := started[x := command];
      ghost var s := State();
      AddCrossesEpoch(command, period);
      var processNow := InsertTimerInActiveList(x, Add(commandTime, period), timeNow, commandTime, command);
      if processNow {
        if timer.autoReload {
          ReloadTimer(x, Add(commandTime, period), timeNow);
        } else {
          timers := timers[x := timer.(active := false)];
        }
        Call(x);
      }
    }

    /** tmrCOMMAND_START and tmrCOMMAND_RESET, issued at time command and handled at time t. */
    method Start(x: Id, commandTime: Tick, tickCount: Tick, ghost command: nat, ghost t: nat)
      requires Valid(State(), {}) && lastTime == Low(now) && Enabled(State(), StartAt(x, command, t))
      requires tickCount == Low(t) && commandTime == Low(command)
      modifies this
      ensures Valid(State(), {}) && State() == Step(old(State()), StartAt(x, command, t))
      ensures now == t && lastTime == Low(now)
    {
      hide Valid, Low, Received, Begun;
      StepKeeps(State(), StartAt(x, command, t));
      PeriodPositive(State(), x, t);
      var timeNow := Receive(x, tickCount, t);
      Begin(x, commandTime, timeNow, command);
    }

    /** tmrCOMMAND_STOP */
    method Stop(x: Id, tickCount: Tick, ghost t: nat)
      requires Valid(State(), {}) && lastTime == Low(now) && Enabled(State(), StopAt(x, t))
      requires tickCount == Low(t)
      modifies this
      ensures Valid(State(), {}) && State() == Step(old(State()), StopAt(x, t))
      ensures now == t && lastTime == Low(now)
    {
      hide Valid, Low, Received;
      StepKeeps(State(), StopAt(x, t));
      PeriodPositive(State(), x, t);
      var timeNow := Receive(x, tickCount, t);
      timers := timers[x := timers[x].(active := false)];
    }

    /** tmrCOMMAND_CHANGE_PERIOD */
    method ChangePeriod(x: Id, period: Tick, tickCount: Tick, ghost t: nat)
      requires Valid(State(), {}) && lastTime == Low(now) && Enabled(State(), PeriodAt(x, period, t))
      requires tickCount == Low(t)
      modifies this
      ensures Valid(State(), {}) && State() == Step(old(State()), PeriodAt(x, period, t))
      ensures now == t && lastTime == Low(now)
    {
      hide Valid, Low, Add, Received, Entered;
      StepKeeps(State(), PeriodAt(x, period, t));
      PeriodPositive(State(), x, t);
      var timeNow := Receive(x, tickCount, t);
      timers := timers[x := timers[x].(period := period, active := true)];
      calls := calls[x := 0];
      started := started[x := t];
      AddCrossesEpoch(t, period);
      var processNow := InsertTimerInActiveList(x, Add(timeNow, period), timeNow, timeNow, t);
    }

    /** tmrCOMMAND_DELETE, for a timer whose memory was allocated */
    method Delete(x: Id, tickCount: Tick, ghost t: nat)
      requires Valid(State(), {}) && lastTime == Low(now) && Enabled(State(), FreeAt(x, t))
      requires tickCount == Low(t)
      modifies this
      ensures Valid(State(), {}) && State() == Step(old(State()), FreeAt(x, t))
      ensures now == t && lastTime == Low(now)
    {
      hide Valid, Low, Received;
      StepKeeps(State(), FreeAt(x, t));
      var timeNow := Receive(x, tickCount, t);
      timers, calls, started := timers - {x}, calls - {x}, started - {x};
    }

    /** prvProcessReceivedCommands: the messages that arrive until the queue is found empty, each with
        the tick count read when it is handled, are the steps ops. */
    method ProcessReceivedCommands(messages: seq<Message>, ticks: seq<Tick>, ghost ops: seq<Op>)
      requires Valid(State(), {}) && lastTime == Low(now)
      requires Run(State(), ops) && |messages| == |ticks| == |ops|
      requires forall i | 0 <= i < |ops| :: Stands(messages[i], ticks[i], ops[i])
      modifies this
      ensures Valid(State(), {}) && State() == After(old(State()), ops) && lastTime == Low(now)
    {
      hide Valid, Low, Enabled, Step;
      for i := 0 to |messages|
        invariant Valid(State(), {}) && lastTime == Low(now)
        invariant Run(State(), ops[i..]) && After(State(), ops[i..]) == After(old(State()), ops)
      {
        assert ops[i..][0] == ops[i] && ops[i..][1..] == ops[i + 1..];
        Dispatch(messages[i], ticks[i], ops[i]);
      }
    }

    /** The switch over the kinds of message. */
    method Dispatch(m: Message, tickCount: Tick, ghost op: Op)
      requires Valid(State(), {}) && lastTime == Low(now) && Enabled(State(), op) && Stands(m, tickCount, op)
      modifies this
      ensures Valid(State(), {}) && State() == Step(old(State()), op) && lastTime == Low(now)
    {
      hide Valid, Low, Step;
      match m.id {
        case COMMAND_START => Start(m.timer, m.value, tickCount, op.command, op.t);
        case COMMAND_STOP => Stop(m.timer, tickCount, op.t);
        case COMMAND_CHANGE_PERIOD => ChangePeriod(m.timer, m.value, tickCount, op.t);
        case COMMAND_DELETE => Delete(m.timer, tickCount, op.t);
      }
    }

    /** The body of the loop of prvTimerTask. */
    method TaskTurn(tickCount: Tick, messages: seq<Message>, ticks: seq<Tick>, ghost t: nat, ghost ops: seq<Op>)
      requires Valid(State(), {}) && lastTime == Low(now) && tickCount == Low(t)
      requires Run(State(), [TurnAt(t)] + ops) && |messages| == |ticks| == |ops|
      requires forall i | 0 <= i < |ops| :: Stands(messages[i], ticks[i], ops[i])
      modifies this
      ensures Valid(State(), {}) && State() == After(old(State()), [TurnAt(t)] + ops) && lastTime == Low(now)
    {
      hide Valid, Low, Turned;
      assert ([TurnAt(t)] + ops)[1..] == ops;
      AllFit(State());
      var next, empty := GetNextExpireTime();
      var blocks, wait, indefinitely := ProcessTimerOrBlockTask(next, empty, tickCount, t);
      ProcessReceivedCommands(messages, ticks, ops);
    }
  }

  lemma AllFit(s: Daemon)
    requires Valid(s, {})
    ensures Fits(s.current)
  {
  }

  /** What processing the head needs to know of it. */
  lemma HeadParts(s: Daemon, floating: set<Id>)
    requires Valid(s, floating) && s.current != [] && s.current[0].time <= Low(s.now)
    ensures var x := s.current[0].task;
      && x in s.timers && x in s.calls && x in s.started && s.timers[x].period > 0 && s.started[x] <= s.now
      && var at := Deadline(s.started[x], s.timers[x].period, s.calls[x] + 1);
      && s.current[0].time == Low(at) && at <= s.now < at + 0x1_0000_0000
  {
    hide Deadline, Low, Epoch;
    assert s.current[0] in s.current;
    Early(s, floating, s.current[0].task);
    Split(s.now);
    EpochLow(Epoch(s.now), s.current[0].time);
  }

  lemma OneTurn(s: Daemon, t: nat)
    requires Valid(s, {}) && Soon(s.now, t)
    ensures Run(s, [TurnAt(t)]) && After(s, [TurnAt(t)]) == Turned(s, t)
  {
    hide Valid, Turned;
    StepKeeps(s, TurnAt(t));
    assert [TurnAt(t)][1..] == [];
  }

  lemma {:induction false} MoreTurns(s: Daemon, a: seq<Op>, b: seq<Op>)
    requires Valid(s, {}) && Run(s, a) && Valid(After(s, a), {}) && Run(After(s, a), b)
    ensures Run(s, a + b) && After(s, a + b) == After(After(s, a), b)
    decreases |a|
  {
    hide Valid, Enabled, Step;
    if a == [] {
      assert a + b == b;
    } else {
      assert (a + b)[1..] == a[1..] + b;
      StepKeeps(s, a[0]);
      MoreTurns(Step(s, a[0]), a[1..], b);
    }
  }

  /** At one tick count each turn but the last makes fewer timers due. */
  lemma TurnProgress(s: Daemon)
    requires Valid(s, {})
    ensures !Handled(s) ==> Due(Turned(s, s.now).current, Low(s.now)) < Due(s.current, Low(s.now))
    ensures s.(now := s.now) == s
  {
    hide Valid, Low, Epoch, Processed;
    if !Handled(s) {
      assert Sampled(s, {}, s.now) == s;
      ProcessedDue(s, {});
    }
  }

  lemma TimeLeft(t: nat, e: Tick)
    requires Low(t) < e
    ensures At(Epoch(t), e) == t + Sub(e, Low(t)) && Sub(e, Low(t)) > 0
  {
  }

  lemma WrapAhead(s: Daemon)
    requires Valid(s, {}) && s.overflow != []
    ensures Sub(0, Low(s.now)) > 0
  {
    if Low(s.now) == 0 {
      NoneAheadAtWrap(s);
    }
  }

  /** The callbacks counted one by one come to the number of periods elapsed. */
  lemma CaughtUp(s: Daemon, x: Id, c: nat, at: nat)
    requires x in s.timers && s.timers[x].period > 0 && x in s.started && s.started[x] <= s.now
    requires at == Deadline(s.started[x], s.timers[x].period, c + 1) <= s.now < at + s.timers[x].period
    ensures var r := Entered(s.(calls := s.calls[x := c]), x, at + s.timers[x].period);
      r.calls == s.calls[x := c] && r.(calls := r.calls[x := c + 1]) == Caught(s, x)
  {
    hide Epoch, Low, Deadline, InsertTimed;
    NextDeadline(s.started[x], s.timers[x].period, c + 1);
    FloorIs(s.started[x], s.timers[x].period, c + 1, s.now);
    assert s.calls[x := c][x := c + 1] == s.calls[x := c + 1];
  }

  /** One turn of the loop that empties the current list at the end of a wrap. */
  lemma FlushStep(s: Daemon, floating: set<Id>)
    requires Valid(s, floating) && Low(s.now) == MAX_DELAY && s.current != []
    ensures HeadDue(s) && Valid(Processed(s, floating), floating)
    ensures var r := Processed(s, floating);
      r.now == s.now && r.current == s.current[1..] && Flushed(r, floating) == Flushed(s, floating)
  {
    hide Valid, Low, Processed, HeadDue;
    AllDue(s, floating);
    ProcessedKeeps(s, floating);
    ProcessedClock(s, floating);
    ProcessedAtWrap(s, floating);
  }

  lemma FlushEnd(s: Daemon, floating: set<Id>)
    requires Valid(s, floating) && Low(s.now) == MAX_DELAY && s.current == []
    ensures Flushed(s, floating) == s
  {
    hide Valid;
  }
}
