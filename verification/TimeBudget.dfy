/** Arithmetic on wrapping ticks: the budget of a timed wait over repeated wake-ups
    (xTaskCheckForTimeOut) and the deadlines of a periodic task (xTaskDelayUntil), both against
    unbounded time. */
module TimeBudget {
  import opened Words

  // ---------- timeouts ----------

  /** TimeOut_t: the wrap count and the tick when the wait began. */
  datatype Stamp = Stamp(overflows: Tick, time: Tick)

  function StampAt(t: nat): Stamp {
    Stamp(Low(Epoch(t)), Low(t))
  }

  datatype Verdict = Verdict(timedOut: bool, remaining: Tick, stamp: Stamp)

  /** xTaskCheckForTimeOut, where now is the stamp of the moment of the call. */
  function Check(now: Stamp, since: Stamp, wait: Tick): Verdict {
    if wait == MAX_DELAY then Verdict(false, wait, since)
    else if now.overflows != since.overflows && now.time >= since.time then Verdict(true, 0, since)
    else if Sub(now.time, since.time) < wait then Verdict(false, wait - Sub(now.time, since.time), now)
    else Verdict(true, 0, since)
  }

  /** The two tests together tell whether the wait is over exactly when fewer than 2^32 ticks have
      passed, or the counter has wrapped and come round to the start again, or the elapsed time taken
      modulo 2^32 is long enough by itself. */
  lemma CheckRight(since: nat, now: nat, wait: Tick)
    requires since <= now && wait != MAX_DELAY
    ensures (Check(StampAt(now), StampAt(since), wait).timedOut <==> now - since >= wait) <==>
            || now - since < 0x1_0000_0000
            || (StampAt(now).overflows != StampAt(since).overflows && Low(now) >= Low(since))
            || Low(now - since) >= wait
  {
    hide Low, Epoch, Sub;
    SubIsElapsed(since, now);
    if now - since < 0x1_0000_0000 {
      LowOfShort(now - since);
      WrapsMeet(since, now);
    }
  }

  /** Within less than 2^32 ticks the counter does not come round to the start again. */
  lemma WrapsMeet(since: nat, now: nat)
    requires since <= now < since + 0x1_0000_0000
    ensures StampAt(now).overflows != StampAt(since).overflows ==> Low(now) < Low(since)
  {
    hide Low, Epoch;
    Split(now);
    Split(since);
  }

  /** The condition is not idle: 2^33 - 4 ticks pass unnoticed by a wait of 2^32 - 2. */
  lemma LateCheckMissed()
    ensures var since, now, wait := 5, 0x2_0000_0001, 0xFFFF_FFFE;
            now - since >= wait && !Check(StampAt(now), StampAt(since), wait).timedOut
  {
  }

  lemma CheckExact(since: nat, now: nat, wait: Tick)
    requires since <= now < since + 0x1_0000_0000 && wait != MAX_DELAY
    ensures var v := Check(StampAt(now), StampAt(since), wait);
      && (v.timedOut <==> now - since >= wait)
      && v.remaining == (if now - since >= wait then 0 else wait - (now - since))
      && v.stamp == (if v.timedOut then StampAt(since) else StampAt(now))
  {
    hide Low, Epoch, Sub;
    CheckRight(since, now, wait);
    SubIsElapsed(since, now);
    LowOfShort(now - since);
    WrapsMeet(since, now);
  }

  /** The calls of one blocking API function: it checks each time it is woken, until the timeout. */
  function Checks(since: Stamp, calls: seq<nat>, wait: Tick): Verdict
    decreases |calls|
  {
    if calls == [] then Verdict(false, wait, since)
    else
      var v := Check(StampAt(calls[0]), since, wait);
      if v.timedOut then v else Checks(v.stamp, calls[1..], v.remaining)
  }

  /** Fewer than 2^32 ticks lie between consecutive calls. */
  ghost predicate Close(since: nat, calls: seq<nat>)
    decreases |calls|
  {
    calls != [] ==> since <= calls[0] < since + 0x1_0000_0000 && Close(calls[0], calls[1..])
  }

  lemma {:induction false} CloseRises(since: nat, calls: seq<nat>)
    requires Close(since, calls) && calls != []
    ensures since <= calls[0] <= calls[|calls| - 1]
    decreases |calls|
  {
    if |calls| > 1 {
      CloseRises(calls[0], calls[1..]);
    }
  }

  /** However often a finite wait is interrupted, what remains is the original wait less all the time
      passed, and the timeout is reported exactly when nothing remains. */
  lemma {:induction false} Budget(since: nat, calls: seq<nat>, wait: Tick)
    requires calls != [] && Close(since, calls) && wait != MAX_DELAY
    ensures var v, passed := Checks(StampAt(since), calls, wait), calls[|calls| - 1] - since;
      && (v.timedOut <==> passed >= wait)
      && v.remaining == (if passed >= wait then 0 else wait - passed)
    decreases |calls|
  {
    hide Low, Epoch, Sub, StampAt;
    CheckExact(since, calls[0], wait);
    CloseRises(since, calls);
    var v := Check(StampAt(calls[0]), StampAt(since), wait);
    if !v.timedOut && |calls| > 1 {
      Budget(calls[0], calls[1..], v.remaining);
    }
  }

  /** A wait of portMAX_DELAY never ends. */
  lemma {:induction false} EndlessWait(since: Stamp, calls: seq<nat>)
    ensures Checks(since, calls, MAX_DELAY) == Verdict(false, MAX_DELAY, since)
    decreases |calls|
  {
    if calls != [] {
      EndlessWait(since, calls[1..]);
    }
  }

  // ---------- periodic delays ----------

  /** The two branches of xTaskDelayUntil, chosen by whether the counter seems to have wrapped since
      the last wake time. */
  predicate ShouldDelay(previous: Tick, increment: Tick, now: Tick) {
    var wake := Add(previous, increment);
    if now < previous then wake < previous && wake > now else wake < previous || wake > now
  }

  /** Both branches ask the same thing: is the time since the last wake time, taken modulo 2^32, less
      than the increment? */
  lemma ShouldDelayMeans(previous: Tick, increment: Tick, now: Tick)
    ensures ShouldDelay(previous, increment, now) <==> Sub(now, previous) < increment
    ensures ShouldDelay(previous, increment, now) ==>
              Sub(Add(previous, increment), now) == increment - Sub(now, previous)
  {
    hide Add, Sub;
    AddIs(previous, increment);
    SubIs(now, previous);
    SubIs(Add(previous, increment), now);
  }

  /** A call no earlier than the last wake time delays exactly when the next deadline is still to
      come, and for exactly the time left, if the lag is below 2^32; a longer lag is answered rightly
      exactly when it is at least the increment modulo 2^32 too. */
  lemma DelayRight(previous: nat, increment: Tick, now: nat)
    requires previous <= now && increment > 0
    ensures (ShouldDelay(Low(previous), increment, Low(now)) <==> now < previous + increment) <==>
            now - previous < 0x1_0000_0000 || increment <= Low(now - previous)
    ensures now - previous < 0x1_0000_0000 && now < previous + increment ==>
            Sub(Add(Low(previous), increment), Low(now)) == previous + increment - now
  {
    hide Sub, Add, ShouldDelay, Low;
    ShouldDelayMeans(Low(previous), increment, Low(now));
    SubIsElapsed(previous, now);
    if now - previous < 0x1_0000_0000 {
      LowOfShort(now - previous);
    }
  }

  /** A call before the last wake time should always delay; the code takes the counter to have
      wrapped and delays only if the increment reaches across that supposed wrap. */
  lemma EarlyCall(previous: nat, increment: Tick, now: nat)
    requires now < previous < now + 0x1_0000_0000
    ensures ShouldDelay(Low(previous), increment, Low(now)) <==> increment > 0x1_0000_0000 - (previous - now)
  {
    hide Sub, Add, ShouldDelay, Low;
    ShouldDelayMeans(Low(previous), increment, Low(now));
    SubIsElapsed(now, previous);
    LowOfShort(previous - now);
    SubBack(Low(previous), Low(now));
  }

  lemma LowOfShort(n: nat)
    requires n < 0x1_0000_0000
    ensures Low(n) == n
  {
  }

  lemma SubBack(a: Tick, b: Tick)
    requires Sub(a, b) != 0
    ensures Sub(b, a) == 0x1_0000_0000 - Sub(a, b)
  {
    hide Sub;
    SubIs(a, b);
    SubIs(b, a);
  }

  lemma EarlyCallSkipsDelay()
    ensures !ShouldDelay(Low(10), 3, Low(5))
  {
  }

  /** The wake times a task has used after k calls. */
  function Wakes(previous: Tick, increment: Tick, k: nat): Tick {
    if k == 0 then previous else Add(Wakes(previous, increment, k - 1), increment)
  }

  function Deadline(start: nat, increment: Tick, k: nat): nat {
    start + k * increment
  }

  lemma NextDeadline(start: nat, increment: Tick, k: nat)
    ensures Deadline(start, increment, k + 1) == Deadline(start, increment, k) + increment
  {
  }

  lemma {:induction false} NoDrift(start: nat, increment: Tick, k: nat)
    ensures Wakes(Low(start), increment, k) == Low(Deadline(start, increment, k))
  {
    hide Low, Add, Epoch;
    if k > 0 {
      NoDrift(start, increment, k - 1);
      AddCrossesEpoch(Deadline(start, increment, k - 1), increment);
      NextDeadline(start, increment, k - 1);
    } else {
      assert Deadline(start, increment, 0) == start;
    }
  }

  /** No drift: the call that follows k others is measured against the deadline start + (k + 1) *
      increment, whatever the times of the calls before it; it delays exactly when that deadline is in
      the future, and by exactly the time to it. */
  lemma PeriodicDeadline(start: nat, increment: Tick, k: nat, now: nat)
    requires increment > 0
    requires Deadline(start, increment, k) <= now < Deadline(start, increment, k) + 0x1_0000_0000
    ensures var previous, due := Wakes(Low(start), increment, k), Deadline(start, increment, k + 1);
      && (ShouldDelay(previous, increment, Low(now)) <==> now < due)
      && Add(previous, increment) == Low(due)
      && (now < due ==> Sub(Add(previous, increment), Low(now)) == due - now)
  {
    hide Low, Add, Sub, ShouldDelay, Deadline;
    NoDrift(start, increment, k);
    NoDrift(start, increment, k + 1);
    NextDeadline(start, increment, k);
    DelayRight(Deadline(start, increment, k), increment, now);
  }
}
