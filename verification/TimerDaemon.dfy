/** Software timers (FreeRTOS-Kernel/timers.c): the daemon keeps the active timers in two lists of
    32-bit expiry times, for the current wrap of the tick counter and the next, and catches up with
    expiries it was too late for.  Measured against an unbounded clock. */
module TimerDaemon {
  import opened Words
  import opened Rings
  import opened Kernel
  import opened DelayLists
  import opened Slots
  import opened TimeBudget

  type Id = nat

  datatype Timer = Timer(period: Tick, autoReload: bool, active: bool)

  /** The daemon's lists next to the history they stand for: when each timer was last started, how
      often its callback has been called since, and the absolute time the daemon has reached. */
  datatype Daemon = Daemon(
    timers: map<Id, Timer>, current: seq<Timed>, overflow: seq<Timed>,
    calls: map<Id, nat>, started: map<Id, nat>, now: nat)

  // ---------- where a timer goes ----------

  datatype Choice = ProcessNow | Current | Overflow

  /** prvInsertTimerInActiveList, on the 32-bit values it sees. */
  function Choose(period: Tick, nextExpiry: Tick, timeNow: Tick, commandTime: Tick): Choice {
    if nextExpiry <= timeNow then
      if Sub(timeNow, commandTime) >= period then ProcessNow else Overflow
    else if timeNow < commandTime && nextExpiry >= commandTime then ProcessNow
    else Current
  }

  /** The choice is right in unbounded time for every command handled less than 2^32 ticks late: the
      timer is processed at once exactly when its expiry time has come, and otherwise goes on the list
      of the wrap its expiry time falls in. */
  lemma ChooseRight(period: Tick, command: nat, now: nat)
    requires period > 0 && command <= now < command + 0x1_0000_0000
    ensures var expiry := command + period;
      var choice := Choose(period, Low(expiry), Low(now), Low(command));
      && (choice == ProcessNow <==> expiry <= now)
      && (choice == Current ==> Epoch(expiry) == Epoch(now))
      && (choice == Overflow ==> Epoch(expiry) == Epoch(now) + 1)
  {
    hide Low, Epoch, Sub;
    SubIsElapsed(command, now);
    Split(now);
    Split(command);
    Split(command + period);
    LowOfShort(now - command);
  }

  // ---------- the invariant ----------

  ghost predicate Entry(s: Daemon, e: Timed, epoch: nat) {
    && e.task in s.timers && e.task in s.calls && e.task in s.started
    && s.timers[e.task].active
    && At(epoch, e.time) == Deadline(s.started[e.task], s.timers[e.task].period, s.calls[e.task] + 1)
  }

  predicate Listed(s: Daemon, x: Id) {
    x in Names(s.current) || x in Names(s.overflow)
  }

  ghost predicate Lists(s: Daemon) {
    && Fits(s.current) && Fits(s.overflow)
    && Sorted(Times(s.current)) && Sorted(Times(s.overflow))
    && NoDup(Names(s.current)) && NoDup(Names(s.overflow))
    && (forall x | x in Names(s.current) :: x !in Names(s.overflow))
  }

  /** No callback comes before its time. */
  ghost predicate NeverEarly(s: Daemon, x: Id) {
    && x in s.timers && x in s.calls && x in s.started && s.timers[x].period > 0
    && s.started[x] <= s.now
    && Deadline(s.started[x], s.timers[x].period, s.calls[x]) <= s.now
  }

  /** An active timer is on exactly one list, with the expiry time start + (calls + 1) * period; a
      floating one is being handled and on neither. */
  ghost predicate Valid(s: Daemon, floating: set<Id>) {
    && Lists(s)
    && (forall e | e in s.current :: Entry(s, e, Epoch(s.now)))
    && (forall e | e in s.overflow :: Entry(s, e, Epoch(s.now) + 1))
    && (forall x | x in s.timers :: NeverEarly(s, x))
    && (forall x | x in s.timers && x !in floating :: s.timers[x].active <==> Listed(s, x))
    && (forall x | x in floating :: !Listed(s, x))
  }

  /** The daemon has nothing left to do at this time. */
  ghost predicate Handled(s: Daemon) {
    s.current != [] ==> Low(s.now) < s.current[0].time
  }

  lemma FloorIs(start: nat, period: Tick, k: nat, now: nat)
    requires period > 0 && Deadline(start, period, k) <= now < Deadline(start, period, k + 1)
    ensures k == (now - start) / period
  {
    NextDeadline(start, period, k);
    ModUnique(now - start, period, k, now - start - k * period);
  }

  /** Whenever the daemon has handled a time, an active timer started at time C with period p has been
      called exactly floor((now - C) / p) times since, and its next expiry is the first C + k * p above
      now, on the list where the daemon will find it. */
  lemma CallbackCount(s: Daemon, x: Id)
    requires Valid(s, {}) && Handled(s) && x in s.timers && s.timers[x].active
    ensures x in s.calls && x in s.started && s.timers[x].period > 0 && s.started[x] <= s.now
    ensures s.calls[x] == (s.now - s.started[x]) / s.timers[x].period
    ensures var next := Deadline(s.started[x], s.timers[x].period, s.calls[x] + 1);
            s.now < next && Timed(x, next) in Merged(s.current, s.overflow, Epoch(s.now))
  {
    var epoch := Epoch(s.now);
    assert NeverEarly(s, x);
    var e := FindEntry(s, x);
    Split(s.now);
    if e in s.current {
      SortedHead(s.current, e);
      MergedEntry(s.current, s.overflow, epoch, e, true);
    } else {
      MergedEntry(s.current, s.overflow, epoch, e, false);
    }
    FloorIs(s.started[x], s.timers[x].period, s.calls[x], s.now);
  }

  lemma FindEntry(s: Daemon, x: Id) returns (e: Timed)
    requires Listed(s, x)
    ensures e.task == x && (e in s.current || e in s.overflow)
  {
    if x in Names(s.current) {
      e := s.current[Position(Names(s.current), x)];
    } else {
      e := s.overflow[Position(Names(s.overflow), x)];
    }
  }

  lemma SortedHead(d: seq<Timed>, e: Timed)
    requires Sorted(Times(d)) && e in d
    ensures d[0].time <= e.time
  {
    var i :| 0 <= i < |d| && d[i] == e;
    assert Times(d)[0] <= Times(d)[i];
  }

  lemma MergedEntry(d: seq<Timed>, o: seq<Timed>, epoch: nat, e: Timed, left: bool)
    requires if left then e in d else e in o
    ensures Timed(e.task, At(if left then epoch else epoch + 1, e.time)) in Merged(d, o, epoch)
  {
    if left {
      var i :| 0 <= i < |d| && d[i] == e;
      assert Merged(d, o, epoch)[i] == Timed(e.task, At(epoch, e.time));
    } else {
      var i :| 0 <= i < |o| && o[i] == e;
      assert Merged(d, o, epoch)[|d| + i] == Timed(e.task, At(epoch + 1, e.time));
    }
  }

  /** At all times, handled or not, no timer has been called more often than its periods have
      elapsed. */
  lemma NeverTooOften(s: Daemon, floating: set<Id>, x: Id)
    requires Valid(s, floating) && x in s.timers
    ensures x in s.calls && x in s.started && s.timers[x].period > 0 && s.started[x] <= s.now
    ensures s.calls[x] <= (s.now - s.started[x]) / s.timers[x].period
  {
    hide Lists, Entry, Listed;
    assert NeverEarly(s, x);
    FloorAtLeast(s.started[x], s.timers[x].period, s.calls[x], s.now);
  }

  lemma FloorAtLeast(start: nat, period: Tick, k: nat, now: nat)
    requires period > 0 && start <= now && Deadline(start, period, k) <= now
    ensures k <= (now - start) / period
  {
    var n, q := now - start, (now - start) / period;
    assert n == period * q + n % period;
    assert period * k <= n;
    if q < k {
      MultiplesApart(period, q, k);
      assert false;
    }
  }

  /** At a wrap no timer waits for the wrap after it: none expires more than a period ahead. */
  lemma NoneAheadAtWrap(s: Daemon)
    requires Valid(s, {}) && Low(s.now) == 0
    ensures s.overflow == []
  {
    hide Deadline, Names, Times, Fits, Sorted, NoDup;
    if s.overflow != [] {
      var e := s.overflow[0];
      assert e in s.overflow;
      assert NeverEarly(s, e.task);
      NextDeadline(s.started[e.task], s.timers[e.task].period, s.calls[e.task]);
      assert false;
    }
  }

  // ---------- the steps ----------

  /** The timer goes on the list of the wrap its expiry time falls in. */
  function Entered(s: Daemon, x: Id, due: nat): Daemon {
    if Epoch(due) == Epoch(s.now) then s.(current := InsertTimed(s.current, Timed(x, Low(due))))
    else s.(overflow := InsertTimed(s.overflow, Timed(x, Low(due))))
  }

  lemma InsertKeeps(d: seq<Timed>, e: Timed)
    requires Fits(d) && Sorted(Times(d)) && NoDup(Names(d)) && e.task !in Names(d) && e.time <= MAX_DELAY
    ensures var r := InsertTimed(d, e);
      && Fits(r) && Sorted(Times(r)) && NoDup(Names(r))
      && (forall f | f in r :: f in d || f == e)
      && (forall x :: x in Names(r) <==> x in Names(d) || x == e.task)
  {
    InsertTimedNames(d, e);
  }

  lemma EnterKeeps(s: Daemon, floating: set<Id>, x: Id)
    requires Valid(s, floating) && x in floating && x in s.timers && s.timers[x].active
    requires x in s.calls && x in s.started
    requires var due := Deadline(s.started[x], s.timers[x].period, s.calls[x] + 1);
      s.now < due && Epoch(due) <= Epoch(s.now) + 1
    ensures Valid(Entered(s, x, Deadline(s.started[x], s.timers[x].period, s.calls[x] + 1)), floating - {x})
  {
    hide Deadline, Epoch, Low, At, InsertTimed, Names, Times, Fits, Sorted;
    var due := Deadline(s.started[x], s.timers[x].period, s.calls[x] + 1);
    Split(due);
    EpochRises(s.now, due);
    InsertKeeps(s.current, Timed(x, Low(due)));
    InsertKeeps(s.overflow, Timed(x, Low(due)));
    var r := Entered(s, x, due);
    forall y | y in r.timers
      ensures NeverEarly(r, y)
    {
      assert NeverEarly(s, y);
    }
    forall e | e in r.current
      ensures Entry(r, e, Epoch(r.now))
    {
      assert e in s.current ==> Entry(s, e, Epoch(s.now));
    }
    forall e | e in r.overflow
      ensures Entry(r, e, Epoch(r.now) + 1)
    {
      assert e in s.overflow ==> Entry(s, e, Epoch(s.now) + 1);
    }
  }

  lemma EpochRises(t: nat, u: nat)
    requires t <= u
    ensures Epoch(t) <= Epoch(u)
  {
  }

  /** A floating timer's own record can change freely. */
  lemma RecordKeeps(s: Daemon, floating: set<Id>, x: Id, timer: Timer, calls: nat, started: nat)
    requires Valid(s, floating) && x in floating && timer.period > 0 && started <= s.now
    requires Deadline(started, timer.period, calls) <= s.now
    ensures Valid(s.(timers := s.timers[x := timer], calls := s.calls[x := calls], started := s.started[x := started]), floating)
  {
    hide Deadline, Epoch, Low, At, Names, Times, Fits, Sorted;
    var r := s.(timers := s.timers[x := timer], calls := s.calls[x := calls], started := s.started[x := started]);
    forall y | y in r.timers
      ensures NeverEarly(r, y)
    {
      assert y != x ==> NeverEarly(s, y);
    }
    forall e | e in r.current
      ensures Entry(r, e, Epoch(r.now))
    {
      NamedIn(s.current, e);
      assert Entry(s, e, Epoch(s.now));
    }
    forall e | e in r.overflow
      ensures Entry(r, e, Epoch(r.now) + 1)
    {
      NamedIn(s.overflow, e);
      assert Entry(s, e, Epoch(s.now) + 1);
    }
  }

  lemma NamedIn(d: seq<Timed>, e: Timed)
    requires e in d
    ensures e.task in Names(d)
  {
    var i :| 0 <= i < |d| && d[i] == e;
    assert Names(d)[i] == e.task;
  }

  function Taken(s: Daemon, x: Id): Daemon
    requires Listed(s, x)
  {
    if x in Names(s.current) then s.(current := DropTimed(s.current, x))
    else s.(overflow := DropTimed(s.overflow, x))
  }

  lemma DropKeeps(d: seq<Timed>, x: Id)
    requires Fits(d) && Sorted(Times(d)) && NoDup(Names(d)) && x in Names(d)
    ensures var r := DropTimed(d, x);
      && Fits(r) && Sorted(Times(r)) && NoDup(Names(r))
      && (forall f | f in r :: f in d)
      && (forall y :: y in Names(r) <==> y in Names(d) && y != x)
  {
    DropTimedNames(d, x);
    DropTimedEntries(d, x);
  }

  lemma TakenKeeps(s: Daemon, floating: set<Id>, x: Id)
    requires Valid(s, floating) && Listed(s, x)
    ensures Valid(Taken(s, x), floating + {x})
  {
    hide Deadline, Epoch, Low, At, DropTimed, Names, Times, Fits, Sorted;
    var r := Taken(s, x);
    if x in Names(s.current) {
      DropKeeps(s.current, x);
    } else {
      DropKeeps(s.overflow, x);
    }
    forall y | y in r.timers
      ensures NeverEarly(r, y)
    {
      assert NeverEarly(s, y);
    }
    forall e | e in r.current
      ensures Entry(r, e, Epoch(r.now))
    {
      assert Entry(s, e, Epoch(s.now));
    }
    forall e | e in r.overflow
      ensures Entry(r, e, Epoch(r.now) + 1)
    {
      assert Entry(s, e, Epoch(s.now) + 1);
    }
  }

  /** The clock moves on within the same wrap. */
  lemma LaterKeeps(s: Daemon, floating: set<Id>, t: nat)
    requires Valid(s, floating) && s.now <= t && Epoch(t) == Epoch(s.now)
    ensures Valid(s.(now := t), floating)
  {
    hide Deadline, Epoch, At;
    var r := s.(now := t);
    forall y | y in r.timers
      ensures NeverEarly(r, y)
    {
      assert NeverEarly(s, y);
    }
    forall e | e in r.current
      ensures Entry(r, e, Epoch(r.now))
    {
      assert Entry(s, e, Epoch(s.now));
    }
    forall e | e in r.overflow
      ensures Entry(r, e, Epoch(r.now) + 1)
    {
      assert Entry(s, e, Epoch(s.now) + 1);
    }
  }

  /** At a wrap the overflow list becomes the current one. */
  lemma SwitchKeeps(s: Daemon, floating: set<Id>, t: nat)
    requires Valid(s, floating) && s.current == [] && s.now <= t && Epoch(t) == Epoch(s.now) + 1
    ensures Valid(s.(current := s.overflow, overflow := [], now := t), floating)
  {
    hide Deadline, Epoch, At;
    var r := s.(current := s.overflow, overflow := [], now := t);
    forall y | y in r.timers
      ensures NeverEarly(r, y)
    {
      assert NeverEarly(s, y);
    }
    forall e | e in r.current
      ensures Entry(r, e, Epoch(r.now))
    {
      assert Entry(s, e, Epoch(s.now) + 1);
    }
  }

  /** How many whole periods have elapsed. */
  function Periods(start: nat, period: Tick, now: nat): nat
    requires period > 0 && start <= now
  {
    (now - start) / period
  }

  /** An auto-reload timer that has expired, once it has caught up: called as often as its periods have
      elapsed, and waiting for the next one. */
  ghost function Caught(s: Daemon, x: Id): Daemon
    requires x in s.timers && s.timers[x].period > 0 && x in s.started && s.started[x] <= s.now
  {
    var k := Periods(s.started[x], s.timers[x].period, s.now);
    Entered(s.(calls := s.calls[x := k]), x, Deadline(s.started[x], s.timers[x].period, k + 1))
  }

  lemma PeriodsElapsed(start: nat, period: Tick, now: nat)
    requires period > 0 && start <= now
    ensures var k := Periods(start, period, now);
      && Deadline(start, period, k) <= now < Deadline(start, period, k + 1)
      && Epoch(Deadline(start, period, k + 1)) <= Epoch(now) + 1
  {
    var n := now - start;
    assert n == period * (n / period) + n % period;
    NextDeadline(start, period, n / period);
    NextEpoch(now, Deadline(start, period, n / period + 1));
  }

  lemma NextEpoch(t: nat, u: nat)
    requires u < t + 0x1_0000_0000
    ensures Epoch(u) <= Epoch(t) + 1
  {
  }

  lemma CaughtKeeps(s: Daemon, floating: set<Id>, x: Id)
    requires Valid(s, floating) && x in floating && x in s.timers && s.timers[x].active
    ensures s.timers[x].period > 0 && x in s.started && s.started[x] <= s.now
    ensures Valid(Caught(s, x), floating - {x})
  {
    hide Valid, Deadline, Epoch, Entered, Periods;
    Early(s, floating, x);
    PeriodsElapsed(s.started[x], s.timers[x].period, s.now);
    var k := Periods(s.started[x], s.timers[x].period, s.now);
    CallsKeeps(s, floating, x, k);
    EnterKeeps(s.(calls := s.calls[x := k]), floating, x);
  }

  lemma Early(s: Daemon, floating: set<Id>, x: Id)
    requires Valid(s, floating) && x in s.timers
    ensures NeverEarly(s, x)
  {
  }

  lemma CallsKeeps(s: Daemon, floating: set<Id>, x: Id, k: nat)
    requires Valid(s, floating) && x in floating && x in s.timers && NeverEarly(s, x)
    requires Deadline(s.started[x], s.timers[x].period, k) <= s.now
    ensures Valid(s.(calls := s.calls[x := k]), floating)
  {
    hide Valid, Deadline;
    RecordKeeps(s, floating, x, s.timers[x], k, s.started[x]);
    assert s.timers[x := s.timers[x]] == s.timers && s.started[x := s.started[x]] == s.started;
  }

  lemma FirstDeadline(start: nat, period: Tick)
    ensures Deadline(start, period, 0) == start && Deadline(start, period, 1) == start + period
  {
  }

  /** The instants at the edge of a wrap. */
  lemma Instants(t: nat)
    ensures var e := Epoch(t);
      && t <= At(e, MAX_DELAY) < At(e + 1, 0)
      && Epoch(At(e, MAX_DELAY)) == e && Low(At(e, MAX_DELAY)) == MAX_DELAY && Epoch(At(e + 1, 0)) == e + 1
  {
  }

  /** Within less than 2^32 ticks the counter goes back exactly when it wraps. */
  lemma Wrapped(t: nat, u: nat)
    requires t <= u < t + 0x1_0000_0000
    ensures Low(u) < Low(t) <==> Epoch(u) != Epoch(t)
    ensures Low(u) < Low(t) ==> At(Epoch(t) + 1, 0) <= u && Epoch(At(Epoch(t) + 1, 0)) == Epoch(u)
  {
  }

  /** The head of the current list has expired. */
  ghost predicate HeadDue(s: Daemon) {
    s.current != [] && s.current[0].time <= Low(s.now)
  }

  /** The head of the current list, expired and handled. */
  ghost function Processed(s: Daemon, floating: set<Id>): Daemon
    requires Valid(s, floating) && HeadDue(s)
  {
    HeadEntry(s, floating);
    var x := s.current[0].task;
    var t := s.(current := s.current[1..]);
    if s.timers[x].autoReload then Caught(t, x) else Expired(t, x)
  }

  /** A one-shot timer is done: called once more and no longer active. */
  function Expired(s: Daemon, x: Id): Daemon
    requires x in s.timers && x in s.calls
  {
    s.(timers := s.timers[x := s.timers[x].(active := false)], calls := s.calls[x := s.calls[x] + 1])
  }

  lemma HeadEntry(s: Daemon, floating: set<Id>)
    requires Valid(s, floating) && s.current != []
    ensures var x := s.current[0].task;
      && x !in floating && Listed(s, x) && Entry(s, s.current[0], Epoch(s.now)) && NeverEarly(s, x)
      && Taken(s, x) == s.(current := s.current[1..])
  {
    NamedIn(s.current, s.current[0]);
    assert Position(Names(s.current), s.current[0].task) == 0;
  }

  /** The expiry time of a due head has come. */
  lemma HeadReached(s: Daemon, floating: set<Id>)
    requires Valid(s, floating) && HeadDue(s)
    ensures var x := s.current[0].task;
      && x in s.timers && x in s.calls && x in s.started
      && Deadline(s.started[x], s.timers[x].period, s.calls[x] + 1) <= s.now
  {
    hide Deadline;
    assert s.current[0] in s.current;
    Split(s.now);
  }

  lemma ProcessedKeeps(s: Daemon, floating: set<Id>)
    requires Valid(s, floating) && HeadDue(s)
    ensures Valid(Processed(s, floating), floating)
  {
    hide Valid, Caught, Taken, Deadline, Low;
    HeadEntry(s, floating);
    HeadReached(s, floating);
    var x := s.current[0].task;
    TakenKeeps(s, floating, x);
    var t := s.(current := s.current[1..]);
    var more := floating + {x};
    assert more - {x} == floating;
    if s.timers[x].autoReload {
      CaughtKeeps(t, more, x);
    } else {
      ExpiredKeeps(t, more, x);
    }
  }

  lemma ExpiredKeeps(s: Daemon, floating: set<Id>, x: Id)
    requires Valid(s, floating) && x in floating && x in s.timers && x in s.calls && x in s.started
    requires Deadline(s.started[x], s.timers[x].period, s.calls[x] + 1) <= s.now
    ensures Valid(Expired(s, x), floating - {x})
  {
    hide Lists, Deadline;
    assert NeverEarly(s, x);
    RecordKeeps(s, floating, x, s.timers[x].(active := false), s.calls[x] + 1, s.started[x]);
    assert s.started[x := s.started[x]] == s.started;
  }

  // ---------- what a step means for one timer ----------

  /** Timer x keeps its start, period and mode; a timer that is not active stays as it was; an auto-reload
      timer keeps its activity; any other timer stays as it was, or expires. */
  ghost predicate Kept(s: Daemon, r: Daemon, x: Id) {
    && x in s.timers && x in s.calls && x in s.started
    && x in r.timers && x in r.calls && x in r.started
    && r.started[x] == s.started[x] && r.timers[x] == s.timers[x].(active := r.timers[x].active)
    && (!s.timers[x].active ==> r.calls[x] == s.calls[x])
    && (s.timers[x].autoReload ==> r.timers[x].active == s.timers[x].active)
    && (!s.timers[x].autoReload ==>
          || (r.timers[x] == s.timers[x] && r.calls[x] == s.calls[x])
          || (s.timers[x].active && !r.timers[x].active && r.calls[x] == s.calls[x] + 1))
  }

  /** Neither the record of timer x nor the number of its calls changes. */
  ghost predicate SameTimer(s: Daemon, r: Daemon, x: Id) {
    && x in s.timers && x in r.timers && r.timers[x] == s.timers[x]
    && x in s.calls && x in r.calls && r.calls[x] == s.calls[x]
  }

  lemma KeptChain(a: Daemon, b: Daemon, c: Daemon, x: Id)
    requires Kept(a, b, x) && Kept(b, c, x)
    ensures Kept(a, c, x)
  {
  }

  /** Nothing but the clock and the lists changes. */
  lemma KeptRecord(s: Daemon, r: Daemon, floating: set<Id>, x: Id)
    requires Valid(s, floating) && x in s.timers
    requires r.timers == s.timers && r.calls == s.calls && r.started == s.started
    ensures Kept(s, r, x)
  {
    Early(s, floating, x);
  }

  lemma ProcessedFrame(s: Daemon, floating: set<Id>, x: Id)
    requires Valid(s, floating) && HeadDue(s) && x in s.timers
    ensures Kept(s, Processed(s, floating), x) && Processed(s, floating).now == s.now
    ensures x in floating ==> SameTimer(s, Processed(s, floating), x)
  {
    hide Valid, Deadline, Periods;
    HeadEntry(s, floating);
    Early(s, floating, x);
    Early(s, floating, s.current[0].task);
  }

  lemma ProcessedClock(s: Daemon, floating: set<Id>)
    requires Valid(s, floating) && HeadDue(s)
    ensures var r := Processed(s, floating); r.now == s.now && r.timers.Keys == s.timers.Keys
  {
    hide Valid, Deadline, Periods;
    HeadEntry(s, floating);
  }

  /** At the last instant of a wrap nothing can go back on the current list. */
  lemma ProcessedAtWrap(s: Daemon, floating: set<Id>)
    requires Valid(s, floating) && HeadDue(s) && Low(s.now) == MAX_DELAY
    ensures Processed(s, floating).current == s.current[1..]
  {
    hide Valid, Deadline, Periods, Epoch, Low, InsertTimed, Names, Taken, At;
    HeadEntry(s, floating);
    var x := s.current[0].task;
    if s.timers[x].autoReload {
      PeriodsElapsed(s.started[x], s.timers[x].period, s.now);
      LastInstant(s.now, Deadline(s.started[x], s.timers[x].period, Periods(s.started[x], s.timers[x].period, s.now) + 1));
    }
  }

  lemma LastInstant(t: nat, u: nat)
    requires t < u && Low(t) == MAX_DELAY
    ensures Epoch(u) != Epoch(t)
  {
    Split(t);
    Split(u);
  }

  // ---------- the turns of the daemon ----------

  lemma AllDue(s: Daemon, floating: set<Id>)
    requires Valid(s, floating) && Low(s.now) == MAX_DELAY && s.current != []
    ensures HeadDue(s)
  {
    assert s.current[0] in s.current;
  }

  /** What is left on the current list at the last instant of a wrap is processed. */
  ghost function Flushed(s: Daemon, floating: set<Id>): Daemon
    requires Valid(s, floating) && Low(s.now) == MAX_DELAY
    decreases |s.current|
  {
    hide Valid;
    if s.current == [] then s
    else
      AllDue(s, floating);
      ProcessedKeeps(s, floating);
      ProcessedClock(s, floating);
      ProcessedAtWrap(s, floating);
      Flushed(Processed(s, floating), floating)
  }

  lemma {:induction false} FlushedKeeps(s: Daemon, floating: set<Id>)
    requires Valid(s, floating) && Low(s.now) == MAX_DELAY
    ensures var r := Flushed(s, floating);
      Valid(r, floating) && r.current == [] && r.now == s.now && r.timers.Keys == s.timers.Keys
    decreases |s.current|
  {
    hide Valid, Processed, HeadDue, Low;
    if s.current != [] {
      AllDue(s, floating);
      ProcessedKeeps(s, floating);
      ProcessedClock(s, floating);
      ProcessedAtWrap(s, floating);
      FlushedKeeps(Processed(s, floating), floating);
    }
  }

  lemma {:induction false} FlushedFrame(s: Daemon, floating: set<Id>, x: Id)
    requires Valid(s, floating) && Low(s.now) == MAX_DELAY && x in s.timers
    ensures var r := Flushed(s, floating);
      Kept(s, r, x) && (x in floating ==> SameTimer(s, r, x))
    decreases |s.current|
  {
    hide Valid, Processed, HeadDue, Low;
    if s.current == [] {
      KeptRecord(s, s, floating, x);
    } else {
      AllDue(s, floating);
      ProcessedKeeps(s, floating);
      ProcessedClock(s, floating);
      ProcessedAtWrap(s, floating);
      ProcessedFrame(s, floating, x);
      FlushedFrame(Processed(s, floating), floating, x);
      KeptChain(s, Processed(s, floating), Flushed(s, floating), x);
    }
  }

  /** prvSwitchTimerLists: the old wrap is brought to its end and the next one begins. */
  ghost function Rolled(s: Daemon, floating: set<Id>): Daemon
    requires Valid(s, floating)
  {
    hide Valid, Epoch, Low, At;
    Instants(s.now);
    LaterKeeps(s, floating, At(Epoch(s.now), MAX_DELAY));
    var f := Flushed(s.(now := At(Epoch(s.now), MAX_DELAY)), floating);
    f.(current := f.overflow, overflow := [], now := At(Epoch(s.now) + 1, 0))
  }

  lemma RolledKeeps(s: Daemon, floating: set<Id>)
    requires Valid(s, floating)
    ensures var r := Rolled(s, floating);
      Valid(r, floating) && r.now == At(Epoch(s.now) + 1, 0) && r.timers.Keys == s.timers.Keys
  {
    hide Valid, Epoch, Low, At, Flushed;
    Instants(s.now);
    var last := s.(now := At(Epoch(s.now), MAX_DELAY));
    LaterKeeps(s, floating, last.now);
    FlushedKeeps(last, floating);
    SwitchKeeps(Flushed(last, floating), floating, At(Epoch(s.now) + 1, 0));
  }

  lemma RolledFrame(s: Daemon, floating: set<Id>, x: Id)
    requires Valid(s, floating) && x in s.timers
    ensures var r := Rolled(s, floating);
      Kept(s, r, x) && (x in floating ==> SameTimer(s, r, x))
  {
    hide Valid, Epoch, Low, At, Flushed;
    Instants(s.now);
    var last := s.(now := At(Epoch(s.now), MAX_DELAY));
    LaterKeeps(s, floating, last.now);
    FlushedFrame(last, floating, x);
  }

  /** A time the daemon may sample next: less than 2^32 ticks on. */
  predicate Soon(now: nat, t: nat) {
    now <= t < now + 0x1_0000_0000
  }

  /** prvSampleTimeNow at time t: the lists are switched when the counter has wrapped. */
  ghost function Sampled(s: Daemon, floating: set<Id>, t: nat): Daemon
    requires Valid(s, floating) && Soon(s.now, t)
  {
    if Epoch(t) == Epoch(s.now) then s.(now := t) else Rolled(s, floating).(now := t)
  }

  lemma SampledKeeps(s: Daemon, floating: set<Id>, t: nat)
    requires Valid(s, floating) && Soon(s.now, t)
    ensures var r := Sampled(s, floating, t);
      Valid(r, floating) && r.now == t && r.timers.Keys == s.timers.Keys
  {
    hide Valid, Epoch, Low, At, Rolled;
    if Epoch(t) == Epoch(s.now) {
      LaterKeeps(s, floating, t);
    } else {
      RolledKeeps(s, floating);
      Wrapped(s.now, t);
      LaterKeeps(Rolled(s, floating), floating, t);
    }
  }

  lemma SampledFrame(s: Daemon, floating: set<Id>, t: nat, x: Id)
    requires Valid(s, floating) && Soon(s.now, t) && x in s.timers
    ensures var r := Sampled(s, floating, t);
      Kept(s, r, x) && (x in floating ==> SameTimer(s, r, x))
  {
    hide Valid, Epoch, Low, At, Rolled;
    if Epoch(t) == Epoch(s.now) {
      KeptRecord(s, Sampled(s, floating, t), floating, x);
    } else {
      RolledFrame(s, floating, x);
    }
  }

  /** The same wrap goes on. */
  predicate SameWrap(s: Daemon, t: nat) {
    Epoch(t) == Epoch(s.now)
  }

  /** A due head is processed, if the daemon looks for one. */
  ghost function Worked(s: Daemon, looks: bool): Daemon
    requires Valid(s, {})
  {
    if looks && HeadDue(s) then Processed(s, {}) else s
  }

  lemma WorkedKeeps(s: Daemon, looks: bool)
    requires Valid(s, {})
    ensures var r := Worked(s, looks); Valid(r, {}) && r.now == s.now && r.timers.Keys == s.timers.Keys
  {
    hide Valid, HeadDue, Processed;
    if looks && HeadDue(s) {
      ProcessedKeeps(s, {});
      ProcessedClock(s, {});
    }
  }

  lemma WorkedFrame(s: Daemon, looks: bool, x: Id)
    requires Valid(s, {}) && x in s.timers
    ensures Kept(s, Worked(s, looks), x)
  {
    hide Valid, HeadDue, Processed, Kept;
    if looks && HeadDue(s) {
      ProcessedFrame(s, {}, x);
    } else {
      KeptRecord(s, s, {}, x);
    }
  }

  /** prvProcessTimerOrBlockTask at time t: unless the lists were just switched, a due head is
      processed. */
  ghost function Turned(s: Daemon, t: nat): Daemon
    requires Valid(s, {}) && Soon(s.now, t)
  {
    SampledKeeps(s, {}, t);
    Worked(Sampled(s, {}, t), SameWrap(s, t))
  }

  // ---------- the commands ----------

  /** The removal every command begins with. */
  function Unlisted(s: Daemon, x: Id): Daemon {
    if Listed(s, x) then Taken(s, x) else s
  }

  lemma UnlistedKeeps(s: Daemon, x: Id)
    requires Valid(s, {})
    ensures Valid(Unlisted(s, x), {x})
    ensures var r := Unlisted(s, x);
      r.timers == s.timers && r.calls == s.calls && r.started == s.started && r.now == s.now
  {
    hide Lists, Entry, NeverEarly, Names, DropTimed;
    if Listed(s, x) {
      TakenKeeps(s, {}, x);
      assert {} + {x} == {x};
    }
  }

  /** The timer is off its list and the time is sampled. */
  ghost function Received(s: Daemon, x: Id, t: nat): Daemon
    requires Valid(s, {}) && Soon(s.now, t)
  {
    UnlistedKeeps(s, x);
    Sampled(Unlisted(s, x), {x}, t)
  }

  lemma ReceivedKeeps(s: Daemon, x: Id, t: nat)
    requires Valid(s, {}) && Soon(s.now, t)
    ensures var r := Received(s, x, t);
      && Valid(r, {x}) && r.now == t && r.timers.Keys == s.timers.Keys
      && (x in s.timers ==> SameTimer(s, r, x) && NeverEarly(r, x))
  {
    hide Valid, Unlisted, Sampled, NeverEarly, Kept;
    UnlistedKeeps(s, x);
    SampledKeeps(Unlisted(s, x), {x}, t);
    if x in s.timers {
      SampledFrame(Unlisted(s, x), {x}, t, x);
      Early(Received(s, x, t), {x}, x);
    }
  }

  lemma ReceivedFrame(s: Daemon, x: Id, t: nat, y: Id)
    requires Valid(s, {}) && Soon(s.now, t) && y in s.timers
    ensures Kept(s, Received(s, x, t), y)
  {
    hide Valid, Unlisted, Sampled;
    UnlistedKeeps(s, x);
    SampledFrame(Unlisted(s, x), {x}, t, y);
  }

  /** The record of a timer whose period begins at time start. */
  function Afresh(s: Daemon, x: Id, period: Tick, start: nat): Daemon
    requires x in s.timers
  {
    s.(timers := s.timers[x := s.timers[x].(period := period, active := true)],
       calls := s.calls[x := 0], started := s.started[x := start])
  }

  lemma AfreshKeeps(s: Daemon, x: Id, period: Tick, start: nat)
    requires Valid(s, {x}) && x in s.timers && period > 0 && start <= s.now
    ensures Valid(Afresh(s, x, period, start), {x})
  {
    hide Valid, Deadline;
    FirstDeadline(start, period);
    RecordKeeps(s, {x}, x, s.timers[x].(period := period, active := true), 0, start);
  }

  /** The start branch, for a command issued at time command: the timer waits for its first expiry,
      or, if that has passed, is handled and caught up. */
  ghost function Begun(s: Daemon, x: Id, command: nat): Daemon
    requires x in s.timers && s.timers[x].period > 0 && command <= s.now
  {
    var r := Afresh(s, x, s.timers[x].period, command);
    if s.now < command + s.timers[x].period then Entered(r, x, command + s.timers[x].period)
    else if s.timers[x].autoReload then Caught(r, x)
    else Expired(r, x)
  }

  lemma BegunKeeps(s: Daemon, x: Id, command: nat)
    requires Valid(s, {x}) && x in s.timers && s.timers[x].period > 0 && Soon(command, s.now)
    ensures Valid(Begun(s, x, command), {})
  {
    hide Valid, Deadline, Entered, Caught, Epoch;
    var period := s.timers[x].period;
    var r := Afresh(s, x, period, command);
    AfreshKeeps(s, x, period, command);
    FirstDeadline(command, period);
    assert {x} - {x} == {};
    if s.now < command + period {
      NextEpoch(s.now, command + period);
      EnterKeeps(r, {x}, x);
    } else if s.timers[x].autoReload {
      CaughtKeeps(r, {x}, x);
    } else {
      ExpiredKeeps(r, {x}, x);
    }
  }

  lemma BegunFrame(s: Daemon, x: Id, command: nat, y: Id)
    requires x in s.timers && s.timers[x].period > 0 && command <= s.now && y != x
    requires y in s.timers && y in s.calls && y in s.started
    ensures Kept(s, Begun(s, x, command), y)
  {
    hide InsertTimed, Deadline, Periods;
  }

  /** The change-of-period branch: the timer starts afresh at the time the command is handled. */
  function Changed(s: Daemon, x: Id, period: Tick): Daemon
    requires x in s.timers
  {
    Entered(Afresh(s, x, period, s.now), x, s.now + period)
  }

  lemma ChangedKeeps(s: Daemon, x: Id, period: Tick)
    requires Valid(s, {x}) && x in s.timers && period > 0
    ensures Valid(Changed(s, x, period), {})
  {
    hide Valid, Deadline, Entered, Epoch;
    AfreshKeeps(s, x, period, s.now);
    FirstDeadline(s.now, period);
    NextEpoch(s.now, s.now + period);
    EnterKeeps(Afresh(s, x, period, s.now), {x}, x);
    assert {x} - {x} == {};
  }

  /** The stop branch, and the delete branch for a timer that is not freed. */
  function Stopped(s: Daemon, x: Id): Daemon
    requires x in s.timers
  {
    s.(timers := s.timers[x := s.timers[x].(active := false)])
  }

  lemma StoppedKeeps(s: Daemon, x: Id)
    requires Valid(s, {x}) && x in s.timers
    ensures Valid(Stopped(s, x), {})
  {
    hide Lists, Deadline;
    Early(s, {x}, x);
    RecordKeeps(s, {x}, x, s.timers[x].(active := false), s.calls[x], s.started[x]);
    assert s.calls[x := s.calls[x]] == s.calls && s.started[x := s.started[x]] == s.started;
  }

  /** The delete branch for a timer whose memory is freed. */
  function Freed(s: Daemon, x: Id): Daemon {
    s.(timers := s.timers - {x}, calls := s.calls - {x}, started := s.started - {x})
  }

  lemma FreedKeeps(s: Daemon, x: Id)
    requires Valid(s, {x})
    ensures Valid(Freed(s, x), {})
  {
    hide Deadline, Names, Times, Fits, Sorted, At, Epoch;
    var r := Freed(s, x);
    forall y | y in r.timers
      ensures NeverEarly(r, y)
    {
      assert NeverEarly(s, y);
    }
    forall e | e in r.current
      ensures Entry(r, e, Epoch(r.now))
    {
      NamedIn(s.current, e);
      assert Entry(s, e, Epoch(s.now));
    }
    forall e | e in r.overflow
      ensures Entry(r, e, Epoch(r.now) + 1)
    {
      NamedIn(s.overflow, e);
      assert Entry(s, e, Epoch(s.now) + 1);
    }
  }

  /** xTimerCreate */
  function Created(s: Daemon, x: Id, period: Tick, autoReload: bool): Daemon {
    s.(timers := s.timers[x := Timer(period, autoReload, false)],
       calls := s.calls[x := 0], started := s.started[x := s.now])
  }

  lemma CreatedKeeps(s: Daemon, x: Id, period: Tick, autoReload: bool)
    requires Valid(s, {}) && x !in s.timers && period > 0
    ensures Valid(Created(s, x, period, autoReload), {})
  {
    hide Deadline, Names, Times, Fits, Sorted, At, Epoch;
    var r := Created(s, x, period, autoReload);
    FirstDeadline(s.now, period);
    forall y | y in r.timers
      ensures NeverEarly(r, y)
    {
      assert y != x ==> NeverEarly(s, y);
    }
    forall e | e in r.current
      ensures Entry(r, e, Epoch(r.now))
    {
      assert Entry(s, e, Epoch(s.now));
    }
    forall e | e in r.overflow
      ensures Entry(r, e, Epoch(r.now) + 1)
    {
      assert Entry(s, e, Epoch(s.now) + 1);
    }
    assert !Listed(s, x) by {
      if Listed(s, x) {
        ListedKnown(s, {}, x);
      }
    }
  }

  lemma ListedKnown(s: Daemon, floating: set<Id>, x: Id)
    requires Valid(s, floating) && Listed(s, x)
    ensures x in s.timers
  {
    hide Lists;
    var e := FindEntry(s, x);
    if e in s.current {
      assert Entry(s, e, Epoch(s.now));
    } else {
      assert Entry(s, e, Epoch(s.now) + 1);
    }
  }

  /** vTimerSetReloadMode */
  function WithMode(s: Daemon, x: Id, autoReload: bool): Daemon
    requires x in s.timers
  {
    s.(timers := s.timers[x := s.timers[x].(autoReload := autoReload)])
  }

  lemma WithModeKeeps(s: Daemon, x: Id, autoReload: bool)
    requires Valid(s, {}) && x in s.timers
    ensures Valid(WithMode(s, x, autoReload), {})
  {
    hide Deadline, Names, Times, Fits, Sorted, At, Epoch;
    var r := WithMode(s, x, autoReload);
    forall y | y in r.timers
      ensures NeverEarly(r, y)
    {
      assert NeverEarly(s, y);
    }
    forall e | e in r.current
      ensures Entry(r, e, Epoch(r.now))
    {
      assert Entry(s, e, Epoch(s.now));
    }
    forall e | e in r.overflow
      ensures Entry(r, e, Epoch(r.now) + 1)
    {
      assert Entry(s, e, Epoch(s.now) + 1);
    }
  }

  // ---------- runs ----------

  /** One turn of the daemon, or one command handled at time t; a start carries the time at which it
      was issued.  Timers are created, and their mode set, by other tasks. */
  datatype Op =
    | TurnAt(t: nat)
    | StartAt(x: Id, command: nat, t: nat)
    | StopAt(x: Id, t: nat)
    | PeriodAt(x: Id, period: Tick, t: nat)
    | FreeAt(x: Id, t: nat)
    | Create(x: Id, period: Tick, autoReload: bool)
    | SetMode(x: Id, autoReload: bool)

  ghost predicate Enabled(s: Daemon, op: Op) {
    match op
    case TurnAt(t) => Soon(s.now, t)
    case StartAt(x, command, t) => x in s.timers && Soon(s.now, t) && Soon(command, t)
    case StopAt(x, t) => x in s.timers && Soon(s.now, t)
    case PeriodAt(x, period, t) => x in s.timers && Soon(s.now, t) && period > 0
    case FreeAt(x, t) => x in s.timers && Soon(s.now, t)
    case Create(x, period, _) => x !in s.timers && period > 0
    case SetMode(x, _) => x in s.timers
  }

  /** The timer a step is about. */
  predicate Addresses(op: Op, x: Id) {
    match op
    case TurnAt(_) => false
    case _ => op.x == x
  }

  lemma PeriodPositive(s: Daemon, x: Id, t: nat)
    requires Valid(s, {}) && Soon(s.now, t) && x in s.timers
    ensures var r := Received(s, x, t);
      r.now == t && x in r.timers && r.timers[x] == s.timers[x] && r.timers[x].period > 0
  {
    hide Valid;
    ReceivedKeeps(s, x, t);
  }

  ghost function Step(s: Daemon, op: Op): Daemon
    requires Valid(s, {}) && Enabled(s, op)
  {
    hide Valid, Received;
    match op
    case TurnAt(t) => Turned(s, t)
    case StartAt(x, command, t) => PeriodPositive(s, x, t); Begun(Received(s, x, t), x, command)
    case StopAt(x, t) => PeriodPositive(s, x, t); Stopped(Received(s, x, t), x)
    case PeriodAt(x, period, t) => PeriodPositive(s, x, t); Changed(Received(s, x, t), x, period)
    case FreeAt(x, t) => Freed(Received(s, x, t), x)
    case Create(x, period, autoReload) => Created(s, x, period, autoReload)
    case SetMode(x, autoReload) => WithMode(s, x, autoReload)
  }

  lemma StepKeeps(s: Daemon, op: Op)
    requires Valid(s, {}) && Enabled(s, op)
    ensures Valid(Step(s, op), {})
  {
    hide Valid, Received, Sampled, Worked, Begun, Stopped, Changed, Freed, Created, WithMode;
    match op {
      case TurnAt(t) =>
        SampledKeeps(s, {}, t);
        WorkedKeeps(Sampled(s, {}, t), SameWrap(s, t));
      case StartAt(x, command, t) =>
        ReceivedKeeps(s, x, t);
        BegunKeeps(Received(s, x, t), x, command);
      case StopAt(x, t) =>
        ReceivedKeeps(s, x, t);
        StoppedKeeps(Received(s, x, t), x);
      case PeriodAt(x, period, t) =>
        ReceivedKeeps(s, x, t);
        ChangedKeeps(Received(s, x, t), x, period);
      case FreeAt(x, t) =>
        ReceivedKeeps(s, x, t);
        FreedKeeps(Received(s, x, t), x);
      case Create(x, period, autoReload) => CreatedKeeps(s, x, period, autoReload);
      case SetMode(x, autoReload) => WithModeKeeps(s, x, autoReload);
    }
  }

  lemma CommandFrame(s: Daemon, op: Op, x: Id)
    requires Valid(s, {}) && Enabled(s, op) && !Addresses(op, x) && x in s.timers
    requires op.StartAt? || op.StopAt? || op.PeriodAt? || op.FreeAt?
    ensures Kept(s, Step(s, op), x)
  {
    hide Valid, Received, Begun, Epoch, InsertTimed;
    ReceivedKeeps(s, op.x, op.t);
    ReceivedFrame(s, op.x, op.t, x);
    var r := Received(s, op.x, op.t);
    if op.StartAt? {
      BegunFrame(r, op.x, op.command, x);
      KeptChain(s, r, Begun(r, op.x, op.command), x);
    }
  }

  lemma OtherRecord(s: Daemon, r: Daemon, x: Id)
    requires Valid(s, {}) && x in s.timers && x in r.timers && r.timers[x] == s.timers[x]
    requires x in s.calls ==> x in r.calls && r.calls[x] == s.calls[x]
    requires x in s.started ==> x in r.started && r.started[x] == s.started[x]
    ensures Kept(s, r, x)
  {
    hide Valid;
    Early(s, {}, x);
  }

  /** A step that is not about timer x keeps it going. */
  lemma StepFrame(s: Daemon, op: Op, x: Id)
    requires Valid(s, {}) && Enabled(s, op) && !Addresses(op, x) && x in s.timers
    ensures Kept(s, Step(s, op), x)
  {
    hide Valid, Sampled, Worked, Received, Kept;
    match op {
      case TurnAt(t) =>
        var m := Sampled(s, {}, t);
        SampledKeeps(s, {}, t);
        SampledFrame(s, {}, t, x);
        WorkedFrame(m, SameWrap(s, t), x);
        KeptChain(s, m, Turned(s, t), x);
      case Create(_, _, _) => OtherRecord(s, Step(s, op), x);
      case SetMode(_, _) => OtherRecord(s, Step(s, op), x);
      case _ => CommandFrame(s, op, x);
    }
  }

  /** Before any timer is created. */
  function Fresh(): Daemon {
    Daemon(map[], [], [], map[], map[], 0)
  }

  ghost predicate Run(s: Daemon, ops: seq<Op>)
    requires Valid(s, {})
    decreases |ops|
  {
    ops != [] ==> Enabled(s, ops[0]) && (StepKeeps(s, ops[0]); Run(Step(s, ops[0]), ops[1..]))
  }

  ghost function After(s: Daemon, ops: seq<Op>): Daemon
    requires Valid(s, {}) && Run(s, ops)
    decreases |ops|
  {
    if ops == [] then s else (StepKeeps(s, ops[0]); After(Step(s, ops[0]), ops[1..]))
  }

  ghost predicate Uncommanded(ops: seq<Op>, x: Id) {
    forall i | 0 <= i < |ops| :: !Addresses(ops[i], x)
  }

  lemma {:induction false} RunKeeps(s: Daemon, ops: seq<Op>)
    requires Valid(s, {}) && Run(s, ops)
    ensures Valid(After(s, ops), {})
    decreases |ops|
  {
    hide Valid, Enabled, Step;
    if ops != [] {
      StepKeeps(s, ops[0]);
      RunKeeps(Step(s, ops[0]), ops[1..]);
    }
  }

  lemma {:induction false} RunFrame(s: Daemon, ops: seq<Op>, x: Id)
    requires Valid(s, {}) && Run(s, ops) && Uncommanded(ops, x) && x in s.timers
    ensures Kept(s, After(s, ops), x)
    decreases |ops|
  {
    hide Valid, Enabled, Step, Addresses;
    if ops == [] {
      KeptRecord(s, s, {}, x);
    } else {
      var r := Step(s, ops[0]);
      StepKeeps(s, ops[0]);
      StepFrame(s, ops[0], x);
      RunFrame(r, ops[1..], x);
      KeptChain(s, r, After(s, ops), x);
    }
  }

  /** What a start leaves behind. */
  lemma StartLeaves(s: Daemon, x: Id, command: nat, t: nat)
    requires Valid(s, {}) && Enabled(s, StartAt(x, command, t))
    ensures var r := Step(s, StartAt(x, command, t));
      && x in r.timers && x in r.calls && x in r.started && r.started[x] == command
      && r.timers[x] == s.timers[x].(active := r.timers[x].active)
      && (s.timers[x].autoReload ==> r.timers[x].active)
      && (!s.timers[x].autoReload ==> r.calls[x] == if r.timers[x].active then 0 else 1)
  {
    hide Valid, Received, Deadline, Epoch, InsertTimed, Periods;
    PeriodPositive(s, x, t);
  }

  /** What every step does to the set of timers. */
  lemma StepTimers(s: Daemon, op: Op)
    requires Valid(s, {}) && Enabled(s, op)
    ensures Step(s, op).timers.Keys ==
      if op.Create? then s.timers.Keys + {op.x} else if op.FreeAt? then s.timers.Keys - {op.x} else s.timers.Keys
  {
    hide Valid, Sampled, Worked, Received, Begun, Changed;
    match op {
      case TurnAt(t) =>
        SampledKeeps(s, {}, t);
        WorkedKeeps(Sampled(s, {}, t), SameWrap(s, t));
      case StartAt(x, command, t) =>
        ReceivedKeeps(s, x, t);
        BegunTimers(Received(s, x, t), x, command);
      case PeriodAt(x, period, t) =>
        ReceivedKeeps(s, x, t);
        ChangedTimers(Received(s, x, t), x, period);
      case StopAt(x, t) => ReceivedKeeps(s, x, t);
      case FreeAt(x, t) => ReceivedKeeps(s, x, t);
      case Create(_, _, _) =>
      case SetMode(_, _) =>
    }
  }

  lemma BegunTimers(s: Daemon, x: Id, command: nat)
    requires x in s.timers && s.timers[x].period > 0 && command <= s.now
    ensures Begun(s, x, command).timers.Keys == s.timers.Keys
  {
    hide InsertTimed, Deadline, Periods, Epoch;
  }

  lemma ChangedTimers(s: Daemon, x: Id, period: Tick)
    requires x in s.timers
    ensures Changed(s, x, period).timers.Keys == s.timers.Keys
  {
    hide InsertTimed, Epoch;
  }

  /** A stopped timer is inactive and on no list, and has not been called for being stopped late. */
  lemma StopLeaves(s: Daemon, x: Id, t: nat)
    requires Valid(s, {}) && Enabled(s, StopAt(x, t))
    ensures var r := Step(s, StopAt(x, t));
      && x in s.calls && x in r.timers && r.timers[x] == s.timers[x].(active := false)
      && x in r.calls && r.calls[x] == s.calls[x] && !Listed(r, x)
  {
    hide Lists, Entry, NeverEarly, Received, Epoch;
    ReceivedKeeps(s, x, t);
    StepKeeps(s, StopAt(x, t));
  }

  /** A change of period leaves the timer active, with no call counted since the time it was handled. */
  lemma PeriodLeaves(s: Daemon, x: Id, period: Tick, t: nat)
    requires Valid(s, {}) && Enabled(s, PeriodAt(x, period, t))
    ensures var r := Step(s, PeriodAt(x, period, t));
      && r.now == t && x in r.timers && r.timers[x] == s.timers[x].(period := period, active := true)
      && x in r.calls && r.calls[x] == 0 && x in r.started && r.started[x] == t
  {
    hide Valid, Received, Epoch, InsertTimed;
    ReceivedKeeps(s, x, t);
  }

  /** A new timer has the period and mode asked for and is not active; no other timer, and no list,
      changes. */
  lemma CreateLeaves(s: Daemon, x: Id, period: Tick, autoReload: bool)
    requires Valid(s, {}) && Enabled(s, Create(x, period, autoReload))
    ensures var r := Step(s, Create(x, period, autoReload));
      && r.timers == s.timers[x := Timer(period, autoReload, false)] && !Listed(r, x)
      && r.current == s.current && r.overflow == s.overflow && r.now == s.now
      && x in r.calls && r.calls == s.calls[x := 0]
  {
    hide Lists, Entry, NeverEarly;
    StepKeeps(s, Create(x, period, autoReload));
  }

  /** A change of mode is just that. */
  lemma ModeLeaves(s: Daemon, x: Id, autoReload: bool)
    requires Valid(s, {}) && Enabled(s, SetMode(x, autoReload))
    ensures var r := Step(s, SetMode(x, autoReload));
      && x in r.timers && r.timers[x].autoReload == autoReload
      && r == s.(timers := s.timers[x := s.timers[x].(autoReload := autoReload)])
  {
    hide Valid;
  }

  /** A timer that is not active is not called and stays as it is, whatever the daemon does for others. */
  lemma DormantRun(s: Daemon, ops: seq<Op>, x: Id)
    requires Valid(s, {}) && Run(s, ops) && Uncommanded(ops, x) && x in s.timers && !s.timers[x].active
    ensures var r := After(s, ops);
      && x in s.calls && x in r.timers && x in r.calls
      && r.timers[x] == s.timers[x] && r.calls[x] == s.calls[x] && !Listed(r, x)
  {
    hide Lists, Entry, NeverEarly, Run, After, Uncommanded;
    RunKeeps(s, ops);
    RunFrame(s, ops, x);
  }

  /** A timer that has been stopped is not called again, over any run without a command to it. */
  lemma StoppedStaysSilent(s: Daemon, x: Id, t: nat, k: Daemon, ops: seq<Op>)
    requires Valid(s, {}) && Enabled(s, StopAt(x, t)) && k == Step(s, StopAt(x, t))
    requires Valid(k, {}) && Run(k, ops) && Uncommanded(ops, x)
    ensures var r := After(k, ops);
      && x in s.calls && x in r.timers && x in r.calls
      && !r.timers[x].active && r.calls[x] == s.calls[x] && !Listed(r, x)
  {
    hide Valid, Step, Run, After, Uncommanded, Listed;
    StopLeaves(s, x, t);
    DormantRun(k, ops, x);
  }

  /** A timer that has been freed is gone, and stays away until one with its name is created. */
  lemma {:induction false} FreedStaysAway(s: Daemon, ops: seq<Op>, x: Id)
    requires Valid(s, {}) && Run(s, ops) && Uncommanded(ops, x) && x !in s.timers
    ensures x !in After(s, ops).timers
    decreases |ops|
  {
    hide Valid, Enabled, Step;
    if ops != [] {
      StepKeeps(s, ops[0]);
      StepTimers(s, ops[0]);
      FreedStaysAway(Step(s, ops[0]), ops[1..], x);
    }
  }

  /** A timer that began a period at time C and has not been given a command since: whenever the daemon has
      handled time T, an auto-reload timer has been called exactly floor((T - C) / p) times, and its next
      expiry is the first C + k * p above T; a one-shot timer has been called once if C + p <= T, and
      otherwise not yet. */
  ghost predicate CalledSince(r: Daemon, x: Id, began: nat, period: Tick, autoReload: bool) {
    && period > 0 && began <= r.now && x in r.timers && x in r.calls
    && r.timers[x].period == period && r.timers[x].autoReload == autoReload
    && (autoReload ==>
          && r.timers[x].active
          && r.calls[x] == (r.now - began) / period
          && var next := Deadline(began, period, r.calls[x] + 1);
          && r.now < next && Timed(x, next) in Merged(r.current, r.overflow, Epoch(r.now)))
    && (!autoReload ==>
          && r.calls[x] == (if began + period <= r.now then 1 else 0)
          && (r.timers[x].active <==> r.now < began + period))
  }

  lemma CallsFrom(k: Daemon, x: Id, began: nat, ops: seq<Op>)
    requires Valid(k, {}) && Run(k, ops) && Uncommanded(ops, x) && Handled(After(k, ops))
    requires x in k.timers && x in k.calls && x in k.started && k.started[x] == began
    requires k.timers[x].autoReload ==> k.timers[x].active
    requires !k.timers[x].autoReload ==> k.calls[x] == if k.timers[x].active then 0 else 1
    ensures CalledSince(After(k, ops), x, began, k.timers[x].period, k.timers[x].autoReload)
  {
    hide Valid, Handled, Step, Run, After, Deadline, Merged, Epoch;
    RunKeeps(k, ops);
    RunFrame(k, ops, x);
    var r := After(k, ops);
    Early(k, {}, x);
    Early(r, {}, x);
    FirstDeadline(began, k.timers[x].period);
    if r.timers[x].active {
      CallbackCount(r, x);
    }
  }

  /** Callbacks over runs: a timer is started by a command issued at time C, handled at whatever time, and
      then come any turns of the daemon and any commands to other timers. */
  lemma CallsAfterStart(s: Daemon, x: Id, command: nat, t: nat, k: Daemon, ops: seq<Op>)
    requires Valid(s, {}) && Enabled(s, StartAt(x, command, t)) && k == Step(s, StartAt(x, command, t))
    requires Valid(k, {}) && Run(k, ops) && Uncommanded(ops, x) && Handled(After(k, ops))
    ensures CalledSince(After(k, ops), x, command, s.timers[x].period, s.timers[x].autoReload)
  {
    hide Valid, Handled, Step, Run, After, Uncommanded, CalledSince;
    StartLeaves(s, x, command, t);
    CallsFrom(k, x, command, ops);
  }

  /** The same after a change of period handled at time t, whether or not the timer was active: it counts
      from t with the new period. */
  lemma CallsAfterPeriod(s: Daemon, x: Id, period: Tick, t: nat, k: Daemon, ops: seq<Op>)
    requires Valid(s, {}) && Enabled(s, PeriodAt(x, period, t)) && k == Step(s, PeriodAt(x, period, t))
    requires Valid(k, {}) && Run(k, ops) && Uncommanded(ops, x) && Handled(After(k, ops))
    ensures CalledSince(After(k, ops), x, t, period, s.timers[x].autoReload)
  {
    hide Valid, Handled, Step, Run, After, Uncommanded, CalledSince;
    PeriodLeaves(s, x, period, t);
    CallsFrom(k, x, t, ops);
  }
}
