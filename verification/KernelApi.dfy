/** The calls tasks and interrupts make, on the specification state.  Each one keeps the invariant. */
module KernelApi {
  import opened Words
  import opened Rings
  import opened Kernel
  import opened KernelOps

  // ---------- suspending and resuming the scheduler ----------

  ghost function SuspendAll(k: K): K {
    k.(nesting := k.nesting + 1)
  }

  lemma FlagCore(k: K, y: bool, n: nat, t: nat)
    requires Core(k)
    ensures Core(k.(yieldPending := y, nesting := n, pendedTicks := t))
    ensures Top(k) ==> Top(k.(yieldPending := y, nesting := n, pendedTicks := t))
  {
  }

  lemma PendingHead(k: K)
    requires Core(k) && k.pending != []
    ensures k.pending[0] in k.tasks && k.tasks[k.pending[0]].event == OnPending && Blocked(k.tasks[k.pending[0]])
    ensures k.current in k.tasks
  {
  }

  /** The first half of xTaskResumeAll: the tasks readied by interrupts, in order of arrival. */
  ghost function Drain(k: K): K
    requires Core(k)
    decreases |k.pending|
  {
    if k.pending == [] then k
    else
      PendingHead(k);
      var x := k.pending[0];
      WakeKeeps(k, x);
      var w := Wake(k, x);
      var y := w.yieldPending || w.tasks[x].priority >= w.tasks[w.current].priority;
      FlagCore(w, y, w.nesting, w.pendedTicks);
      Drain(w.(yieldPending := y))
  }

  lemma {:induction false} DrainKeeps(k: K)
    requires Core(k)
    ensures var r := Drain(k);
      && Core(r) && r.pending == [] && (Calm(k) ==> Calm(r))
      && r.tick == k.tick && r.nesting == k.nesting && r.pendedTicks == k.pendedTicks
      && r.tasks.Keys == k.tasks.Keys
      && (forall e | e in r.delayed :: e in k.delayed)
    decreases |k.pending|
  {
    hide Core, Wake, Top;
    CoreCurrent(k);
    if k.pending != [] {
      PendingHead(k);
      var x := k.pending[0];
      WakeKeeps(k, x);
      var w := Wake(k, x);
      var y := w.yieldPending || w.tasks[x].priority >= w.tasks[w.current].priority;
      FlagCore(w, y, w.nesting, w.pendedTicks);
      DrainKeeps(w.(yieldPending := y));
    }
  }

  /** Draining wakes the tasks that are pending, all of them and nobody else, and asks for a switch exactly
      if one of them is at or above the running task. */
  lemma {:induction false} DrainWakes(k: K)
    requires Core(k)
    ensures k.current in k.tasks && (forall x | x in k.pending :: x in k.tasks)
    ensures var r := Drain(k);
      && r.current == k.current && r.tasks.Keys == k.tasks.Keys
      && (forall x | x in k.tasks ::
            r.tasks[x] == if x in k.pending then k.tasks[x].(place := InReady, event := NoEvent) else k.tasks[x])
      && (r.yieldPending <==>
            k.yieldPending || exists x :: x in k.pending && k.tasks[x].priority >= k.tasks[k.current].priority)
    decreases |k.pending|
  {
    hide Core, Wake, Top, Shape, Without;
    CoreCurrent(k);
    if k.pending != [] {
      PendingHead(k);
      var x := k.pending[0];
      PendingRest(k);
      WakeKeeps(k, x);
      var w := Wake(k, x);
      var y := w.yieldPending || w.tasks[x].priority >= w.tasks[w.current].priority;
      FlagCore(w, y, w.nesting, w.pendedTicks);
      DrainWakes(w.(yieldPending := y));
    }
  }

  lemma PendingRest(k: K)
    requires Core(k) && k.pending != []
    ensures var x := k.pending[0];
      Without(k.pending, x) == k.pending[1..] && x !in k.pending[1..]
      && forall y :: y in k.pending <==> y == x || y in k.pending[1..]
  {
    hide StateSide;
    assert NoDup(k.pending);
    assert k.pending == [k.pending[0]] + k.pending[1..];
  }

  /** One pended tick. */
  ghost function Counted(k: K): K
    requires Core(k)
  {
    var (r, due) := IncrementTick(k);
    r.(yieldPending := r.yieldPending || due)
  }

  lemma CountedKeeps(k: K)
    requires Core(k) && Future(k) && k.nesting == 0
    ensures var r := Counted(k);
      && Core(r) && Future(r) && r.nesting == 0 && r.tick == k.tick + 1 && r.tasks.Keys == k.tasks.Keys
      && k.current in k.tasks && r.current in r.tasks
      && (Calm(k) ==> Calm(r)) && (k.pending == [] ==> r.pending == [])
  {
    hide Core, Top, TickOnce;
    CoreCurrent(k);
    TickOnceKeeps(k);
    var (r, due) := IncrementTick(k);
    FlagCore(r, r.yieldPending || due, r.nesting, r.pendedTicks);
    CoreCurrent(r);
  }

  lemma CountedWaits(k: K, e: Timed)
    requires Core(k) && Future(k) && k.nesting == 0
    ensures e in Counted(k).delayed <==> e in k.delayed && e.time != k.tick + 1
  {
    hide Core, Top, TickOnce;
    TickOnceKeeps(k);
  }

  /** The second half: the ticks that were pended, one by one. */
  ghost function Unwind(k: K, n: nat): K
    requires Core(k) && Future(k) && k.nesting == 0
    decreases n
  {
    hide Core, Future, Counted;
    if n == 0 then k else (CountedKeeps(k); Unwind(Counted(k), n - 1))
  }

  lemma {:induction false} UnwindState(k: K, n: nat)
    requires Core(k) && Future(k) && k.nesting == 0
    ensures var r := Unwind(k, n);
      && Core(r) && Future(r) && k.current in k.tasks && r.current in r.tasks
      && (Calm(k) ==> Calm(r)) && (k.pending == [] ==> r.pending == [])
      && r.tick == k.tick + n && r.nesting == 0 && r.tasks.Keys == k.tasks.Keys
    decreases n
  {
    hide Core, Future, Calm, Shape, Counted;
    CoreCurrent(k);
    if n > 0 {
      CountedKeeps(k);
      UnwindState(Counted(k), n - 1);
    }
  }

  /** A wait survives exactly while its time is ahead of the last tick counted. */
  lemma {:induction false} UnwindWait(k: K, n: nat, e: Timed)
    requires Core(k) && Future(k) && k.nesting == 0
    ensures e in Unwind(k, n).delayed <==> e in k.delayed && k.tick + n < e.time
    decreases n
  {
    hide Core, Counted;
    if n > 0 {
      CountedKeeps(k);
      CountedWaits(k, e);
      UnwindWait(Counted(k), n - 1, e);
    }
  }

  lemma UnwindKeeps(k: K, n: nat)
    requires Core(k) && Future(k) && k.nesting == 0
    ensures var r := Unwind(k, n);
      && Core(r) && Future(r) && (Calm(k) ==> Calm(r)) && (k.pending == [] ==> r.pending == [])
      && r.tick == k.tick + n && r.nesting == 0 && r.tasks.Keys == k.tasks.Keys
      && (forall e | e in r.delayed :: e in k.delayed && k.tick + n < e.time)
      && (forall e | e in k.delayed && k.tick + n < e.time :: e in r.delayed)
  {
    hide Core, Future, Calm, Unwind;
    UnwindState(k, n);
    forall e
      ensures e in Unwind(k, n).delayed <==> e in k.delayed && k.tick + n < e.time
    {
      UnwindWait(k, n, e);
    }
  }

  /** One of the next n ticks asks for a switch. */
  ghost predicate TicksAsk(k: K, n: nat)
    requires Core(k) && Future(k) && k.nesting == 0
    decreases n
  {
    hide Core, Future, Counted;
    n > 0 && (TickOnce(k).1 || (CountedKeeps(k); TicksAsk(Counted(k), n - 1)))
  }

  lemma CountedAsks(k: K)
    requires Core(k) && Future(k) && k.nesting == 0
    ensures Counted(k).current == k.current && (Counted(k).yieldPending <==> k.yieldPending || TickOnce(k).1)
  {
    hide Core, Top, TickOnce;
    TickOnceKeeps(k);
    TickAsks(k);
  }

  /** The running task stays, and a switch is asked for exactly if one of the ticks asks for it. */
  lemma {:induction false} UnwindAsks(k: K, n: nat)
    requires Core(k) && Future(k) && k.nesting == 0
    ensures Unwind(k, n).current == k.current
    ensures Unwind(k, n).yieldPending <==> k.yieldPending || TicksAsk(k, n)
    decreases n
  {
    hide Core, Future, Counted, TickOnce;
    if n > 0 {
      CountedKeeps(k);
      CountedAsks(k);
      UnwindAsks(Counted(k), n - 1);
    }
  }

  /** xTaskResumeAll once the nesting has reached zero. */
  ghost function Catch(k: K): (K, bool)
    requires Core(k) && Future(k) && k.nesting == 0
  {
    hide Core, Top, Drain, Unwind, SwitchContext;
    DrainKeeps(k);
    var k2 := Drain(k);
    UnwindKeeps(k2, k2.pendedTicks);
    var k3 := Unwind(k2, k2.pendedTicks);
    FlagCore(k3, k3.yieldPending, 0, 0);
    var k4 := k3.(pendedTicks := 0);
    if k4.yieldPending then (SwitchContext(k4), true) else (k4, false)
  }

  lemma CatchKeeps(k: K)
    requires Core(k) && Future(k) && Calm(k) && k.nesting == 0
    ensures var (r, switched) := Catch(k);
      && Core(r) && Future(r) && Calm(r) && r.nesting == 0 && r.pending == [] && r.pendedTicks == 0
      && r.tick == k.tick + k.pendedTicks
      && (forall e | e in r.delayed :: e in k.delayed)
      && (switched ==> r.tasks[r.current].place == InReady)
  {
    hide Core, Top, Drain, Unwind, SwitchContext;
    DrainKeeps(k);
    var k2 := Drain(k);
    CoreCurrent(k2);
    UnwindKeeps(k2, k2.pendedTicks);
    var k3 := Unwind(k2, k2.pendedTicks);
    CoreCurrent(k3);
    FlagCore(k3, k3.yieldPending, 0, 0);
    var k4 := k3.(pendedTicks := 0);
    if k4.yieldPending {
      SwitchContextKeeps(k4);
      CoreCurrent(SwitchContext(k4));
    }
  }

  /** What is done for the tasks that were readied meanwhile, and the switch that is due is made. */
  ghost predicate Caught(k: K, r: K, switched: bool) {
    && !r.yieldPending && r.current in r.tasks && Top(r)
    && (!switched ==> r.current == k.current)
    && forall x | x in k.pending ::
         x in k.tasks && x in r.tasks && r.tasks[x] == k.tasks[x].(place := InReady, event := NoEvent)
  }

  lemma CatchRuns(k: K)
    requires Core(k) && Future(k) && Calm(k) && k.nesting == 0
    ensures Caught(k, Catch(k).0, Catch(k).1)
  {
    hide Core, Top, Drain, Unwind, SwitchContext, Shape;
    DrainKeeps(k);
    DrainWakes(k);
    var k2 := Drain(k);
    CoreCurrent(k2);
    UnwindKeeps(k2, k2.pendedTicks);
    UnwindAsks(k2, k2.pendedTicks);
    var k3 := Unwind(k2, k2.pendedTicks);
    CoreCurrent(k3);
    FlagCore(k3, k3.yieldPending, 0, 0);
    var k4 := k3.(pendedTicks := 0);
    if k4.yieldPending {
      SwitchContextKeeps(k4);
      CoreCurrent(SwitchContext(k4));
    }
    forall x | x in k.pending
      ensures x in k3.tasks && k3.tasks[x] == k.tasks[x].(place := InReady, event := NoEvent)
    {
      UnwindOthers(k2, k2.pendedTicks, x);
    }
  }

  /** The switch is made exactly if a yield was pending, a task readied meanwhile is at or above the
      running one, or one of the pended ticks asks for it. */
  lemma CatchSwitches(k: K)
    requires Core(k) && Future(k) && k.nesting == 0
    ensures k.current in k.tasks && (forall x | x in k.pending :: x in k.tasks)
    ensures Core(Drain(k)) && Future(Drain(k)) && Drain(k).nesting == 0
    ensures Catch(k).1 <==>
              || k.yieldPending
              || (exists x :: x in k.pending && k.tasks[x].priority >= k.tasks[k.current].priority)
              || TicksAsk(Drain(k), k.pendedTicks)
  {
    hide Core, Top, Drain, Unwind, SwitchContext, TicksAsk;
    DrainKeeps(k);
    DrainWakes(k);
    UnwindAsks(Drain(k), k.pendedTicks);
  }

  /** xTaskResumeAll; the result says whether it has already switched context. */
  ghost function ResumeAll(k: K): (K, bool)
    requires Core(k) && Future(k) && k.nesting > 0
  {
    FlagCore(k, k.yieldPending, k.nesting - 1, k.pendedTicks);
    var k1 := k.(nesting := k.nesting - 1);
    if k1.nesting > 0 then (k1, false) else Catch(k1)
  }

  /** A nested call only counts down; the last one catches up. */
  ghost predicate Resumed(k: K, r: K, switched: bool) {
    && (k.nesting > 1 ==> !switched && r == k.(nesting := k.nesting - 1))
    && (k.nesting == 1 ==> Caught(k, r, switched))
  }

  lemma ResumeAllRuns(k: K)
    requires Inv(k) && k.nesting > 0
    ensures Resumed(k, ResumeAll(k).0, ResumeAll(k).1)
  {
    hide Core, Top, Catch;
    CoreCurrent(k);
    FlagCore(k, k.yieldPending, k.nesting - 1, k.pendedTicks);
    if k.nesting == 1 {
      CatchRuns(k.(nesting := 0));
    }
  }

  /** When xTaskResumeAll brings the nesting to zero the pended ticks have all been added to the tick,
      nothing is left in the pending-ready list and no remaining wait has a wake time at or before
      the tick. */
  lemma ResumeAllKeeps(k: K)
    requires Inv(k) && k.nesting > 0
    ensures var (r, switched) := ResumeAll(k);
      && Inv(r) && r.nesting == k.nesting - 1
      && r.tick == (if k.nesting == 1 then k.tick + k.pendedTicks else k.tick)
      && r.tick + r.pendedTicks == k.tick + k.pendedTicks
      && (k.nesting == 1 ==> r.pending == [] && r.pendedTicks == 0 && forall e | e in r.delayed :: r.tick < e.time)
      && (switched ==> r.tasks[r.current].place == InReady)
      && (forall e | e in r.delayed :: e in k.delayed)
      && Resumed(k, r, switched)
  {
    hide Core, Top, Catch, Resumed;
    ResumeAllRuns(k);
    CoreCurrent(k);
    FlagCore(k, k.yieldPending, k.nesting - 1, k.pendedTicks);
    var k1 := k.(nesting := k.nesting - 1);
    if k1.nesting == 0 {
      CatchKeeps(k1);
    }
  }

  /** Draining leaves the wait of a task alone that is not in the pending-ready list. */
  lemma {:induction false} DrainSpares(k: K, e: Timed)
    requires Core(k) && e in k.delayed && e.task in k.tasks && k.tasks[e.task].event != OnPending
    ensures e in Drain(k).delayed
    decreases |k.pending|
  {
    hide Core, Shape, Wake, Moves, Top;
    if k.pending != [] {
      PendingHead(k);
      var x := k.pending[0];
      PendingWoken(k, e);
      var w := Wake(k, x);
      DrainSpares(w.(yieldPending := w.yieldPending || w.tasks[x].priority >= w.tasks[w.current].priority), e);
    }
  }

  /** Waking the first pending task leaves the wait of a task that is not pending alone. */
  lemma PendingWoken(k: K, e: Timed)
    requires Core(k) && k.pending != []
    requires e in k.delayed && e.task in k.tasks && k.tasks[e.task].event != OnPending
    ensures Shape(k) && k.pending[0] in k.tasks && k.tasks[k.pending[0]].place != Nowhere
    ensures var w := Wake(k, k.pending[0]);
      && w.pending == Without(k.pending, k.pending[0]) && k.pending[0] in w.tasks && w.current in w.tasks
      && (forall y :: Core(w.(yieldPending := y)))
      && e in w.delayed && e.task in w.tasks && w.tasks[e.task].event != OnPending
  {
    hide Core, Shape, Wake, Moves, Top;
    CoreCurrent(k);
    PendingHead(k);
    WakeKeeps(k, k.pending[0]);
    var w := Wake(k, k.pending[0]);
    CoreCurrent(w);
    forall y
      ensures Core(w.(yieldPending := y))
    {
      FlagCore(w, y, w.nesting, w.pendedTicks);
    }
  }

  /** Resuming the scheduler keeps every wait whose time has not come, unless its task was readied by
      an interrupt meanwhile. */
  lemma ResumeAllSpares(k: K, e: Timed)
    requires Inv(k) && k.nesting > 0
    requires e in k.delayed && e.task in k.tasks && k.tasks[e.task].event != OnPending
    ensures e in ResumeAll(k).0.delayed <==> ResumeAll(k).0.tick < e.time
  {
    hide Core, Top, Drain, Unwind, SwitchContext;
    CoreCurrent(k);
    FlagCore(k, k.yieldPending, k.nesting - 1, k.pendedTicks);
    var k1 := k.(nesting := k.nesting - 1);
    if k1.nesting == 0 {
      DrainSpares(k1, e);
      DrainKeeps(k1);
      var k2 := Drain(k1);
      UnwindKeeps(k2, k2.pendedTicks);
      var k3 := Unwind(k2, k2.pendedTicks);
      FlagCore(k3, k3.yieldPending, 0, 0);
      if k3.yieldPending {
        SwitchContextKeeps(k3.(pendedTicks := 0));
      }
    }
  }

  lemma CountedOthers(k: K, y: TaskId)
    requires Core(k) && k.nesting == 0 && y in k.tasks && k.tasks[y].place != InDelayed
    ensures y in Counted(k).tasks && Counted(k).tasks[y] == k.tasks[y]
  {
    hide Core, Expire;
    LaterCore(k, k.tick + 1);
    ExpireOthers(k.(tick := k.tick + 1), y);
  }

  /** Unwinding leaves every task alone that is not waiting for a time ... */
  lemma {:induction false} UnwindOthers(k: K, n: nat, y: TaskId)
    requires Core(k) && Future(k) && k.nesting == 0 && y in k.tasks && k.tasks[y].place != InDelayed
    ensures y in Unwind(k, n).tasks && Unwind(k, n).tasks[y] == k.tasks[y]
    decreases n
  {
    hide Core, Future, Counted;
    if n > 0 {
      CountedKeeps(k);
      CountedOthers(k, y);
      UnwindOthers(Counted(k), n - 1, y);
    }
  }

  lemma TickOnceReadies(k: K, e: Timed)
    requires Core(k) && Future(k) && e in k.delayed && e.time == k.tick + 1
    ensures e.task in TickOnce(k).0.tasks && TickOnce(k).0.tasks[e.task].place == InReady
  {
    hide Core, Expire;
    LaterCore(k, k.tick + 1);
    ExpireReadies(k.(tick := k.tick + 1), e);
  }

  /** ... and readies every task whose time comes. */
  lemma {:induction false} UnwindReadies(k: K, n: nat, e: Timed)
    requires Core(k) && Future(k) && k.nesting == 0 && e in k.delayed && e.time <= k.tick + n
    ensures e.task in Unwind(k, n).tasks && Unwind(k, n).tasks[e.task].place == InReady
    decreases n
  {
    hide Core, Counted;
    if n > 0 {
      CountedKeeps(k);
      if e.time == k.tick + 1 {
        CountedReadies(k, e);
        UnwindOthers(Counted(k), n - 1, e.task);
      } else {
        CountedWaits(k, e);
        UnwindReadies(Counted(k), n - 1, e);
      }
    }
  }

  lemma CountedReadies(k: K, e: Timed)
    requires Core(k) && Future(k) && k.nesting == 0 && e in k.delayed && e.time == k.tick + 1
    ensures e.task in Counted(k).tasks && Counted(k).tasks[e.task].place == InReady
  {
    hide Core, TickOnce;
    TickOnceReadies(k, e);
  }

  lemma ResumeAllReadies(k: K, e: Timed)
    requires Inv(k) && k.nesting > 0
    requires e in k.delayed && e.task in k.tasks && k.tasks[e.task].event != OnPending
    requires e.time <= ResumeAll(k).0.tick
    ensures e.task in ResumeAll(k).0.tasks && ResumeAll(k).0.tasks[e.task].place == InReady
  {
    hide Core, Top, Drain, Unwind, SwitchContext;
    CoreCurrent(k);
    FlagCore(k, k.yieldPending, k.nesting - 1, k.pendedTicks);
    var k1 := k.(nesting := k.nesting - 1);
    if k1.nesting == 0 {
      DrainSpares(k1, e);
      DrainKeeps(k1);
      var k2 := Drain(k1);
      UnwindKeeps(k2, k2.pendedTicks);
      var k3 := Unwind(k2, k2.pendedTicks);
      FlagCore(k3, k3.yieldPending, 0, 0);
      if k3.yieldPending {
        SwitchContextKeeps(k3.(pendedTicks := 0));
      }
      UnwindReadies(k2, k2.pendedTicks, e);
    }
  }

  // ---------- blocking ----------

  predicate MayBlock(k: K) {
    && k.current in k.tasks && k.tasks[k.current].place == InReady && k.tasks[k.current].event == NoEvent
    && k.current != k.idle
  }

  /** prvAddCurrentTaskToDelayedList: wait n ticks, or for ever if that was asked for with the
      greatest delay. */
  ghost function Block(k: K, n: nat, indefinitely: bool): K
    requires Shape(k) && k.current in k.tasks && k.tasks[k.current].place == InReady
  {
    var d := Detach(k, k.current);
    if n == MAX_DELAY && indefinitely then AddSuspended(d, k.current) else AddDelayed(d, k.current, k.tick + n)
  }

  ghost predicate OthersWait(k: K) {
    forall x | x in k.tasks && x != k.current && k.tasks[x].event != NoEvent :: Blocked(k.tasks[x])
  }

  lemma BlockKeeps(k: K, n: nat, indefinitely: bool)
    requires Base(k) && OthersWait(k) && k.tasks[k.current].place == InReady && k.current != k.idle
    ensures var r := Block(k, n, indefinitely);
      && Core(r) && (Top(k) ==> Top(r)) && StateMove(k, r)
      && Blocked(r.tasks[r.current]) && r.tasks[r.current].event == k.tasks[k.current].event
      && (forall e | e in k.delayed && e.task != k.current :: e in r.delayed)
      && (forall e | e in r.delayed :: e in k.delayed || e == Timed(k.current, k.tick + n))
      && (!(n == MAX_DELAY && indefinitely) ==> Timed(k.current, k.tick + n) in r.delayed)
      && r.tasks[k.current].place == (if n == MAX_DELAY && indefinitely then InSuspended else InDelayed)
      && r.tasks[k.current] == k.tasks[k.current].(place := r.tasks[k.current].place)
      && r.tasks.Keys == k.tasks.Keys
      && (forall x | x in k.tasks && x != k.current :: r.tasks[x] == k.tasks[x])
  {
    hide Detach, AddSuspended, AddDelayed, StateSide, EventSide;
  }

  /** What a call leaves alone: the number of priorities, the clock, and every task and timed wait but those of task x. */
  ghost predicate Beside(k: K, r: K, x: TaskId) {
    && |r.ready| == |k.ready| && r.tick == k.tick && r.pendedTicks == k.pendedTicks && r.nesting == k.nesting
    && (forall t | t in k.delayed && t.task != x :: t in r.delayed)
    && (forall t | t in r.delayed :: t in k.delayed)
    && (forall y | y in k.tasks && y != x :: y in r.tasks && r.tasks[y] == k.tasks[y])
  }

  lemma BesideChain(a: K, b: K, c: K, x: TaskId)
    requires Beside(a, b, x) && Beside(b, c, x)
    ensures Beside(a, c, x)
  {
  }

  lemma DropEventBeside(k: K, x: TaskId)
    requires Core(k) && x in k.tasks
    ensures Beside(k, DropEvent(k, x), x)
  {
    hide Shape, Count, Sorted, Times;
    DropEventKeeps(k, x);
  }

  lemma ToReadyBeside(k: K, x: TaskId)
    requires Core(k) && x in k.tasks && k.tasks[x].place != InTermination && k.tasks[x].event == NoEvent
    ensures Shape(k) && k.tasks[x].place != Nowhere && Beside(k, ToReady(k, x), x)
  {
    hide Core, ToReady, Top;
    CoreCurrent(k);
    PlacedSomewhere(k, x);
    ToReadyKeeps(k, x);
  }

  lemma PlacedSomewhere(k: K, x: TaskId)
    requires Core(k) && x in k.tasks
    ensures k.tasks[x].place != Nowhere
  {
  }

  lemma AddPendingKeeps(k: K, x: TaskId)
    requires Core(k) && x in k.tasks && k.tasks[x].event == NoEvent && Blocked(k.tasks[x])
    ensures var r := AddPending(k, x);
      && Core(r) && (Top(k) ==> Top(r)) && r.delayed == k.delayed && EventMove(k, r)
      && r.tasks == k.tasks[x := k.tasks[x].(event := OnPending)]
      && r.pending == k.pending + [x] && r.events == k.events
  {
    hide StateSide, EventSide;
  }

  lemma AddPendingBeside(k: K, x: TaskId)
    requires Core(k) && x in k.tasks && k.tasks[x].event == NoEvent && Blocked(k.tasks[x])
    ensures Shape(k) && Beside(k, AddPending(k, x), x)
  {
    hide Core, AddPending, Top;
    CoreCurrent(k);
    AddPendingKeeps(k, x);
  }
}
