/** Who is woken when, over whole runs of the kernel: event lists stay in order of priority, a signal wakes
    the waiter of highest priority that has waited longest, and a task signalled while the scheduler is
    suspended is ready once it is resumed. */
module KernelWaking {
  import opened Rings
  import opened Kernel
  import opened KernelOps
  import opened KernelApi
  import opened KernelCalls
  import opened KernelTasks
  import opened KernelRuns

  // ---------- lists that lose tasks ----------

  /** List b holds some of the tasks of list a, in the same order. */
  ghost predicate Thins(a: seq<TaskId>, b: seq<TaskId>) {
    && (forall y | y in b :: y in a)
    && forall y, z :: Before(b, y, z) ==> Before(a, y, z)
  }

  lemma WithoutThins(a: seq<TaskId>, x: TaskId)
    ensures Thins(a, Without(a, x))
  {
    hide NoDup, Without;
    if x in a {
      var p, b := Position(a, x), Without(a, x);
      forall y, z | Before(b, y, z)
        ensures Before(a, y, z)
      {
        var i, j :| 0 <= i < j < |b| && b[i] == y && b[j] == z;
        WithoutAt(a, x, i);
        WithoutAt(a, x, j);
        assert (if i < p then i else i + 1) < (if j < p then j else j + 1);
      }
    } else {
      WithoutNone(a, x);
    }
  }

  /** From k to r list e has at most lost tasks, and those left in it are as they were. */
  ghost predicate EventsKept(k: K, r: K, e: EventId) {
    && e in k.events && e in r.events && |r.ready| == |k.ready|
    && Thins(k.events[e], r.events[e])
    && forall y | y in r.events[e] ::
         && y in k.tasks && y in r.tasks
         && r.tasks[y].priority == k.tasks[y].priority && r.tasks[y].eventValue == k.tasks[y].eventValue
  }

  lemma KeptChain(a: K, b: K, c: K, e: EventId)
    requires EventsKept(a, b, e) && EventsKept(b, c, e)
    ensures EventsKept(a, c, e)
  {
    hide Before;
  }

  /** One task at most is touched: it leaves the list, or keeps its priority and value, or was not in it. */
  lemma KeptBeside(k: K, r: K, e: EventId, x: TaskId)
    requires Shape(k) && e in k.events && e in r.events && |r.ready| == |k.ready|
    requires forall y | y in k.tasks && y != x :: y in r.tasks && r.tasks[y] == k.tasks[y]
    requires r.events[e] == k.events[e] || r.events[e] == Without(k.events[e], x)
    requires x in r.events[e] ==>
      && x in k.tasks && x in r.tasks
      && r.tasks[x].priority == k.tasks[x].priority && r.tasks[x].eventValue == k.tasks[x].eventValue
    ensures EventsKept(k, r, e)
  {
    hide Shape, Without, Before;
    EventKnown(k, e);
    WithoutThins(k.events[e], x);
  }

  lemma KeptSame(k: K, r: K, e: EventId)
    requires Shape(k) && e in k.events && r.events == k.events && r.tasks == k.tasks && |r.ready| == |k.ready|
    ensures EventsKept(k, r, e)
  {
    hide Shape, Before;
    EventKnown(k, e);
  }

  // ---------- the steps that wake many ----------

  lemma WakeKept(k: K, x: TaskId, e: EventId)
    requires Core(k) && x in k.tasks && Blocked(k.tasks[x]) && e in k.events
    ensures EventsKept(k, Wake(k, x), e)
  {
    hide Core, ToReady, DropEvent, Shape, Without;
    CoreCurrent(k);
    WakeKeeps(k, x);
    DropEventKeeps(k, x);
    DropEventLists(k, x);
    var d := DropEvent(k, x);
    CoreCurrent(d);
    ToReadyKeeps(d, x);
    KeptBeside(k, Wake(k, x), e, x);
  }

  lemma {:induction false} ExpireKept(k: K, e: EventId)
    requires Core(k) && e in k.events
    ensures EventsKept(k, Expire(k).0, e)
    decreases |k.delayed|
  {
    hide Core, Shape, Wake, Thins, EventsKept, Moves;
    CoreCurrent(k);
    if k.delayed != [] && k.delayed[0].time <= k.tick {
      var x := k.delayed[0].task;
      WakeHead(k);
      WakeKeeps(k, x);
      var w := Wake(k, x);
      WakeKept(k, x, e);
      KeptHas(k, w, e);
      ExpireKept(w, e);
      KeptChain(k, w, Expire(w).0, e);
    } else {
      KeptSame(k, k, e);
    }
  }

  lemma KeptHas(k: K, r: K, e: EventId)
    requires EventsKept(k, r, e)
    ensures e in k.events && e in r.events
  {
  }

  lemma TickOnceKept(k: K, e: EventId)
    requires Core(k) && e in k.events
    ensures EventsKept(k, TickOnce(k).0, e)
  {
    hide Core, Shape, Expire, Thins, EventsKept;
    var n := k.(tick := k.tick + 1);
    CoreCurrent(k);
    LaterCore(k, k.tick + 1);
    KeptSame(k, n, e);
    ExpireKept(n, e);
    KeptChain(k, n, TickOnce(k).0, e);
  }

  lemma {:induction false} DrainKept(k: K, e: EventId)
    requires Core(k) && e in k.events
    ensures EventsKept(k, Drain(k), e)
    decreases |k.pending|
  {
    hide Core, Shape, Wake, Thins, EventsKept, Moves;
    CoreCurrent(k);
    if k.pending != [] {
      PendingHead(k);
      PendingRest(k);
      var x := k.pending[0];
      WakeKeeps(k, x);
      WakeKept(k, x, e);
      var w := Wake(k, x);
      var y := w.yieldPending || w.tasks[x].priority >= w.tasks[w.current].priority;
      FlagCore(w, y, w.nesting, w.pendedTicks);
      var f := w.(yieldPending := y);
      KeptHas(k, w, e);
      CoreCurrent(w);
      KeptSame(w, f, e);
      KeptChain(k, w, f, e);
      DrainKept(f, e);
      KeptChain(k, f, Drain(k), e);
    } else {
      KeptSame(k, k, e);
    }
  }

  lemma CountedKept(k: K, e: EventId)
    requires Core(k) && Future(k) && k.nesting == 0 && e in k.events
    ensures EventsKept(k, Counted(k), e)
  {
    hide Core, Shape, Future, TickOnce, Thins, EventsKept;
    TickOnceKeeps(k);
    TickOnceKept(k, e);
    var t := TickOnce(k).0;
    KeptHas(k, t, e);
    CoreCurrent(t);
    KeptSame(t, Counted(k), e);
    KeptChain(k, t, Counted(k), e);
  }

  lemma {:induction false} UnwindKept(k: K, n: nat, e: EventId)
    requires Core(k) && Future(k) && k.nesting == 0 && e in k.events
    ensures EventsKept(k, Unwind(k, n), e)
    decreases n
  {
    hide Core, Future, Shape, Counted, Thins, EventsKept;
    CoreCurrent(k);
    if n > 0 {
      CountedKeeps(k);
      CountedKept(k, e);
      KeptHas(k, Counted(k), e);
      UnwindKept(Counted(k), n - 1, e);
      KeptChain(k, Counted(k), Unwind(k, n), e);
    } else {
      KeptSame(k, k, e);
    }
  }

  lemma SwitchKept(k: K, e: EventId)
    requires Core(k) && e in k.events
    ensures EventsKept(k, SwitchContext(k), e)
  {
    hide Core, Shape, SwitchContext, Thins, EventsKept;
    CoreCurrent(k);
    SwitchContextKeeps(k);
    KeptSame(k, SwitchContext(k), e);
  }

  lemma CatchKept(k: K, e: EventId)
    requires Core(k) && Future(k) && k.nesting == 0 && e in k.events
    ensures EventsKept(k, Catch(k).0, e)
  {
    hide Core, Top, Shape, Drain, Unwind, SwitchContext, Thins, EventsKept;
    DrainKeeps(k);
    var k2 := Drain(k);
    DrainKept(k, e);
    KeptHas(k, k2, e);
    UnwindKeeps(k2, k2.pendedTicks);
    UnwindKept(k2, k2.pendedTicks, e);
    var k3 := Unwind(k2, k2.pendedTicks);
    KeptHas(k2, k3, e);
    KeptChain(k, k2, k3, e);
    FlagCore(k3, k3.yieldPending, 0, 0);
    var k4 := k3.(pendedTicks := 0);
    CoreCurrent(k3);
    KeptSame(k3, k4, e);
    KeptChain(k, k3, k4, e);
    if k4.yieldPending {
      SwitchKept(k4, e);
      KeptChain(k, k4, SwitchContext(k4), e);
    }
  }

  lemma ResumeKept(k: K, e: EventId)
    requires Inv(k) && k.nesting > 0 && e in k.events
    ensures EventsKept(k, ResumeAll(k).0, e)
  {
    hide Core, Top, Shape, Catch, Thins, EventsKept;
    CoreCurrent(k);
    FlagCore(k, k.yieldPending, k.nesting - 1, k.pendedTicks);
    var k1 := k.(nesting := k.nesting - 1);
    KeptSame(k, k1, e);
    if k1.nesting == 0 {
      CatchKept(k1, e);
      KeptChain(k, k1, Catch(k1).0, e);
    }
  }

  lemma TickKept(k: K, e: EventId)
    requires Inv(k) && e in k.events
    ensures EventsKept(k, TickIsr(k), e)
  {
    hide Core, Top, Shape, TickOnce, SwitchContext, Thins, EventsKept;
    CoreCurrent(k);
    if k.nesting == 0 {
      TickOnceKeeps(k);
      TickOnceKept(k, e);
      var (r, due) := IncrementTick(k);
      KeptHas(k, r, e);
      if due {
        SwitchKept(r, e);
        KeptChain(k, r, SwitchContext(r), e);
      }
    } else {
      KeptSame(k, TickIsr(k), e);
    }
  }

  // ---------- every step ----------

  /** The step brings no task to list e and changes the priority of none that waits there. */
  ghost predicate Apart(k: K, op: Op, e: EventId) {
    match op
    case Await(f, _) => f != e
    case AwaitUnordered(f, _, _) => f != e
    case Prioritise(x, _) => x in k.tasks ==> k.tasks[x].event != OnEvent(e)
    case _ => true
  }

  /** A task that waits for nothing is in no list. */
  lemma InNoList(k: K, x: TaskId, e: EventId)
    requires Shape(k) && e in k.events && (x in k.tasks ==> k.tasks[x].event != OnEvent(e))
    ensures x !in k.events[e]
  {
    hide StateSide;
    EventKnown(k, e);
  }

  lemma LeftKept(k: K, r: K, x: TaskId, e: EventId)
    requires Shape(k) && e in k.events && Left(k, r, x) && |r.ready| == |k.ready|
    requires forall y | y in k.tasks && y != x :: y in r.tasks && r.tasks[y] == k.tasks[y]
    ensures EventsKept(k, r, e)
  {
    hide Shape, Without, EventsKept;
    EventKnown(k, e);
    InNoListBut(k, x, e);
    KeptBeside(k, r, e, x);
  }

  /** A task is in no list but the one it waits for, and taken off that it is not in it. */
  lemma InNoListBut(k: K, x: TaskId, e: EventId)
    requires Shape(k) && x in k.tasks && e in k.events
    ensures k.tasks[x].event != OnEvent(e) ==> x !in k.events[e]
    ensures x !in Without(k.events[e], x)
  {
    hide StateSide;
    EventKnown(k, e);
  }

  lemma InterruptKept(k: K, op: Op, e: EventId)
    requires Inv(k) && Enabled(k, op) && e in k.events
    requires op.TickInterrupt? || op.Yield? || op.Suspend? || op.Resume? || op.CatchUp?
    ensures EventsKept(k, Step(k, op), e)
  {
    hide Core, Top, Shape, TickIsr, SwitchContext, ResumeAll, EventsKept;
    CoreCurrent(k);
    match op {
      case TickInterrupt => TickKept(k, e);
      case Yield => SwitchKept(k, e);
      case Suspend => KeptSame(k, Step(k, op), e);
      case Resume => ResumeKept(k, e);
      case CatchUp(_) => KeptSame(k, Step(k, op), e);
    }
  }

  lemma BlockKept(k: K, n: nat, e: EventId)
    requires Inv(k) && MayBlock(k) && e in k.events
    ensures EventsKept(k, Block(k, n, false), e)
  {
    hide Core, Base, Shape, Top, Block, EventsKept;
    CoreCurrent(k);
    BaseOf(k);
    BlockKeeps(k, n, false);
    InNoList(k, k.current, e);
    KeptBeside(k, Block(k, n, false), e, k.current);
  }

  lemma PlacedLevels(k: K, op: Op)
    requires Inv(k) && Enabled(k, op) && (op.Await? || op.AwaitUnordered?)
    ensures |Step(k, op).ready| == |k.ready|
  {
    hide Core, Base, Shape, Top, Block, AddEvent, AppendEvent;
    CoreCurrent(k);
    if op.Await? {
      AddEventBase(k, op.e);
      BlockKeeps(AddEvent(k, k.current, op.e), op.ticks, true);
    } else {
      AppendEventBase(k, op.e, op.value);
      BlockKeeps(AppendEvent(k, k.current, op.e, op.value), op.ticks, true);
    }
  }

  lemma PlaceKept(k: K, op: Op, e: EventId)
    requires Inv(k) && Enabled(k, op) && e in k.events && (op.Await? || op.AwaitUnordered?) && op.e != e
    ensures EventsKept(k, Step(k, op), e)
  {
    hide Core, Top, Shape, PlaceOnEvent, PlaceOnUnordered, EventsKept, Joined;
    CoreCurrent(k);
    PlacedLevels(k, op);
    InNoList(k, k.current, e);
    if op.Await? {
      PlaceKeeps(k, op.e, op.ticks);
    } else {
      PlaceUnorderedKeeps(k, op.e, op.value, op.ticks);
    }
    KeptBeside(k, Step(k, op), e, k.current);
  }

  lemma HandedLevels(k: K, x: TaskId, value: nat)
    requires Inv(k) && x in k.tasks && k.tasks[x].event.OnEvent?
    ensures |SignalUnordered(k, x, value).ready| == |k.ready|
  {
    hide Core, ToReady, DropEvent, Shape;
    CoreCurrent(k);
    DropEventKeeps(k, x);
    var d := DropEvent(k, x);
    CoreCurrent(d);
    ValueKeeps(d, x, value);
    var v := d.(tasks := d.tasks[x := d.tasks[x].(eventValue := value)]);
    CoreCurrent(v);
    BlockedWaiter(k, x);
    ToReadyKeeps(v, x);
  }

  lemma SignalKept(k: K, f: EventId, e: EventId)
    requires Inv(k) && f in k.events && k.events[f] != [] && e in k.events
    ensures EventsKept(k, Signal(k, f).0, e)
  {
    hide Inv, Core, Top, Shape, Signal, EventsKept, Without;
    InvCore(k);
    SignalKeeps(k, f);
    EventKnown(k, f);
    var x := k.events[f][0];
    HeadGone(k.events[f]);
    InNoListBut(k, x, e);
    KeptBeside(k, Signal(k, f).0, e, x);
  }

  lemma WakingKept(k: K, op: Op, e: EventId)
    requires Inv(k) && Enabled(k, op) && e in k.events && (op.Notify? || op.NotifyUnordered? || op.Restore?)
    ensures EventsKept(k, Step(k, op), e)
  {
    hide Core, Top, Shape, Signal, SignalUnordered, RestoreItem, EventsKept, Without;
    CoreCurrent(k);
    if op.Notify? {
      SignalKept(k, op.e, e);
    } else if op.NotifyUnordered? {
      SignalUnorderedKeeps(k, op.x, op.value);
      HandedLevels(k, op.x, op.value);
      InNoListBut(k, op.x, e);
      KeptBeside(k, Step(k, op), e, op.x);
    } else {
      RestoreKeeps(k);
      InNoList(k, k.current, e);
      KeptBeside(k, Step(k, op), e, k.current);
    }
  }

  lemma IdleStays(k: K)
    requires Core(k)
    ensures k.idle in k.tasks && k.tasks[k.idle].place == InReady
  {
    hide Shape;
  }

  lemma LeavingKept(k: K, op: Op, e: EventId)
    requires Inv(k) && Enabled(k, op) && e in k.events
    requires op.KillTask? || op.KillSelf? || op.CleanUp? || op.StopTask?
    ensures EventsKept(k, Step(k, op), e)
  {
    hide Core, Top, Shape, Delete, DeleteSelf, Reap, SuspendTask, EventsKept, Left;
    CoreCurrent(k);
    match op {
      case KillTask(x) =>
        DeleteKeeps(k, x);
        DeleteRemoves(k, x);
        LeftKept(k, Step(k, op), x, e);
      case KillSelf =>
        DeleteSelfKeeps(k);
        DeleteSelfLeaves(k);
        LeftKept(k, Step(k, op), k.current, e);
      case CleanUp =>
        ReapHead(k);
        ReapIsDelete(k);
        IdleStays(k);
        DeleteKeeps(k, k.termination[0]);
        DeleteRemoves(k, k.termination[0]);
        LeftKept(k, Step(k, op), k.termination[0], e);
      case StopTask(x) =>
        SuspendTaskKeeps(k, x);
        LeftKept(k, Step(k, op), x, e);
    }
  }

  lemma TasksKept(k: K, op: Op, e: EventId)
    requires Inv(k) && Enabled(k, op) && Apart(k, op, e) && e in k.events
    requires op.NewTask? || op.StartTask? || op.StartTaskFromIsr? || op.Prioritise?
    ensures EventsKept(k, Step(k, op), e)
  {
    hide Core, Top, Shape, Create, ResumeTask, ResumeFromIsr, SetPriority, EventsKept, GaveWay;
    CoreCurrent(k);
    if op.NewTask? || op.Prioritise? {
      InNoListOp(k, op, e);
    }
    match op {
      case NewTask(x, p) => CreateKeeps(k, x, p); CreateReadies(k, x, p);
      case StartTask(x) => ResumeTaskKeeps(k, x); ResumeTaskReadies(k, x);
      case StartTaskFromIsr(x) => ResumeFromIsrKeeps(k, x); ResumeFromIsrReadies(k, x);
      case Prioritise(x, p) => SetPriorityKeeps(k, x, p); SetPrioritySets(k, x, p);
    }
    KeptBeside(k, Step(k, op), e, op.x);
  }

  lemma InNoListOp(k: K, op: Op, e: EventId)
    requires Shape(k) && e in k.events && (op.NewTask? || op.Prioritise?) && Enabled(k, op) && Apart(k, op, e)
    ensures op.x !in k.events[e]
  {
    hide Shape;
    InNoList(k, op.x, e);
  }

  /** Every step that is apart from list e at most takes tasks off it. */
  lemma StepKept(k: K, op: Op, e: EventId)
    requires Inv(k) && Enabled(k, op) && e in k.events && Apart(k, op, e)
    ensures EventsKept(k, Step(k, op), e)
  {
    hide Inv, Step, EventsKept;
    match op {
      case TickInterrupt => InterruptKept(k, op, e);
      case Yield => InterruptKept(k, op, e);
      case Suspend => InterruptKept(k, op, e);
      case Resume => InterruptKept(k, op, e);
      case CatchUp(_) => InterruptKept(k, op, e);
      case Delay(n) => DelayKept(k, n, e);
      case Await(_, _) => PlaceKept(k, op, e);
      case AwaitUnordered(_, _, _) => PlaceKept(k, op, e);
      case Notify(_) => WakingKept(k, op, e);
      case NotifyUnordered(_, _) => WakingKept(k, op, e);
      case Restore => WakingKept(k, op, e);
      case KillTask(_) => LeavingKept(k, op, e);
      case KillSelf => LeavingKept(k, op, e);
      case CleanUp => LeavingKept(k, op, e);
      case StopTask(_) => LeavingKept(k, op, e);
      case _ => TasksKept(k, op, e);
    }
  }

  lemma DelayKept(k: K, n: nat, e: EventId)
    requires Inv(k) && Enabled(k, Delay(n)) && e in k.events
    ensures EventsKept(k, Step(k, Delay(n)), e)
  {
    hide Inv, Block, EventsKept;
    BlockKept(k, n, e);
  }

  // ---------- runs: priority order ----------

  /** The event list item shows the priority. */
  predicate Shows(t: Tcb, priorities: nat) {
    t.eventValue + t.priority == priorities
  }

  /** List e is in order of priority, the highest first, equal ones in order of arrival. */
  ghost predicate InLine(k: K, e: EventId) {
    && e in k.events && InOrder(k.tasks, k.events[e])
    && forall x | x in k.events[e] :: x in k.tasks && Shows(k.tasks[x], |k.ready|)
  }

  /** What the order needs of a step: a task joins list e only with an event list item that shows its
      priority, and not at its end whatever its priority, and nobody changes the priority of a task that
      waits there. */
  ghost predicate Orderly(k: K, op: Op, e: EventId) {
    match op
    case Await(f, _) => f == e ==> k.current in k.tasks && Shows(k.tasks[k.current], |k.ready|)
    case _ => Apart(k, op, e)
  }

  lemma KeptInLine(k: K, r: K, e: EventId)
    requires InLine(k, e) && EventsKept(k, r, e)
    ensures InLine(r, e)
  {
    var a, b := k.events[e], r.events[e];
    forall i, j | 0 <= i < j < |b|
      ensures r.tasks[b[i]].eventValue <= r.tasks[b[j]].eventValue
    {
      assert Before(b, b[i], b[j]);
      var m, n :| 0 <= m < n < |a| && a[m] == b[i] && a[n] == b[j];
    }
  }

  lemma JoinInLine(k: K, e: EventId, n: nat)
    requires Inv(k) && Enabled(k, Await(e, n)) && Orderly(k, Await(e, n), e) && InLine(k, e)
    ensures InLine(Step(k, Await(e, n)), e)
  {
    hide Core, Top, Shape, PlaceOnEvent, Without, Before, Beside;
    InvCore(k);
    PlaceKeeps(k, e, n);
    PlacedLevels(k, Await(e, n));
    JoinedIn(k.tasks, k.events[e], Step(k, Await(e, n)).events[e], k.current);
  }

  lemma JoinedIn(tasks: map<TaskId, Tcb>, s: seq<TaskId>, r: seq<TaskId>, x: TaskId)
    requires Joined(tasks, s, r, x)
    ensures forall y | y in r :: y in s || y == x
  {
    hide Before, InOrder;
  }

  lemma StepInLine(k: K, op: Op, e: EventId)
    requires Inv(k) && Enabled(k, op) && InLine(k, e) && Orderly(k, op, e)
    ensures InLine(Step(k, op), e)
  {
    hide Inv, Enabled, Step, EventsKept, Apart;
    if op.Await? && op.e == e {
      JoinInLine(k, e, op.ticks);
    } else {
      ApartAwait(k, op, e);
      LineListed(k, e);
      StepKept(k, op, e);
      KeptInLine(k, Step(k, op), e);
    }
  }

  lemma LineListed(k: K, e: EventId)
    requires InLine(k, e)
    ensures e in k.events
  {
  }

  lemma ApartAwait(k: K, op: Op, e: EventId)
    requires Orderly(k, op, e) && !(op.Await? && op.e == e)
    ensures Apart(k, op, e)
  {
  }

  ghost predicate AllOrderly(k: K, ops: seq<Op>, e: EventId)
    requires Inv(k) && Run(k, ops)
    decreases |ops|
  {
    ops != [] ==> Orderly(k, ops[0], e) && (StepKeeps(k, ops[0]); AllOrderly(Step(k, ops[0]), ops[1..], e))
  }

  lemma {:induction false} RunInLine(k: K, ops: seq<Op>, e: EventId)
    requires Inv(k) && Run(k, ops) && InLine(k, e) && AllOrderly(k, ops, e)
    ensures InLine(After(k, ops), e)
    decreases |ops|
  {
    hide Inv, Enabled, Step, InLine, Orderly;
    if ops != [] {
      StepKeeps(k, ops[0]);
      StepInLine(k, ops[0], e);
      RunInLine(Step(k, ops[0]), ops[1..], e);
    }
  }

  /** The head of list e, which no waiter is above, is off the list and ready, or the last of those to be
      readied when the scheduler is resumed. */
  ghost predicate WokenHighest(k: K, r: K, e: EventId) {
    && e in k.events && k.events[e] != [] && e in r.events && r.events[e] == k.events[e][1..]
    && var x := k.events[e][0];
    && x in k.tasks && x in r.tasks
    && (forall y | y in k.events[e] :: y in k.tasks && k.tasks[y].priority <= k.tasks[x].priority)
    && if k.nesting == 0 then r.tasks[x].place == InReady && r.tasks[x].event == NoEvent
       else r.tasks[x].event == OnPending && r.pending == k.pending + [x]
  }

  /** Over such runs a signal wakes a waiter of greatest priority. */
  lemma HighestIsWoken(k: K, ops: seq<Op>, e: EventId)
    requires Inv(k) && Run(k, ops) && InLine(k, e) && AllOrderly(k, ops, e)
    requires Enabled(After(k, ops), Notify(e))
    ensures WokenHighest(After(k, ops), Step(After(k, ops), Notify(e)), e)
  {
    hide Core, Run, After, Signal, Shape, AllOrderly, Beside;
    RunInLine(k, ops, e);
    RunKeeps(k, ops);
    var m := After(k, ops);
    SignalKeeps(m, e);
    HeadHighest(m, e);
  }

  lemma HeadHighest(k: K, e: EventId)
    requires InLine(k, e) && k.events[e] != []
    ensures k.events[e][0] in k.tasks
    ensures forall y | y in k.events[e] :: y in k.tasks && k.tasks[y].priority <= k.tasks[k.events[e][0]].priority
  {
    var s := k.events[e];
    forall y | y in s
      ensures k.tasks[y].eventValue >= k.tasks[s[0]].eventValue
    {
      var i :| 0 <= i < |s| && s[i] == y;
    }
  }

  // ---------- runs: order of arrival ----------

  /** Whatever task z has not been above y stands behind it. */
  ghost predicate Behind(k: K, e: EventId, y: TaskId, z: TaskId) {
    && e in k.events && y in k.events[e] && y in k.tasks
    && (z in k.events[e] ==>
          z in k.tasks && (k.tasks[z].priority <= k.tasks[y].priority ==> Before(k.events[e], y, z)))
  }

  lemma OneOrder(s: seq<TaskId>, y: TaskId, z: TaskId)
    requires NoDup(s) && y in s && z in s && y != z
    ensures Before(s, y, z) <==> !Before(s, z, y)
  {
    var i :| 0 <= i < |s| && s[i] == y;
    var j :| 0 <= j < |s| && s[j] == z;
    if i < j {
      assert Before(s, y, z);
    } else {
      assert Before(s, z, y);
    }
  }

  lemma KeptBehind(k: K, r: K, e: EventId, y: TaskId, z: TaskId)
    requires Shape(k) && Shape(r) && Behind(k, e, y, z) && EventsKept(k, r, e) && y in r.events[e] && y != z
    ensures Behind(r, e, y, z)
  {
    hide Shape, Before;
    EventKnown(k, e);
    EventKnown(r, e);
    if z in r.events[e] {
      OneOrder(k.events[e], y, z);
      OneOrder(r.events[e], y, z);
    }
  }

  lemma JoinBehind(k: K, e: EventId, n: nat, y: TaskId, z: TaskId)
    requires Inv(k) && Enabled(k, Await(e, n)) && Orderly(k, Await(e, n), e) && InLine(k, e)
    requires Behind(k, e, y, z) && y != z
    ensures Behind(Step(k, Await(e, n)), e, y, z)
  {
    hide Core, Top, Shape, PlaceOnEvent, Without, Before;
    CoreCurrent(k);
    InNoList(k, k.current, e);
    PlaceKeeps(k, e, n);
    var r := Step(k, Await(e, n));
    JoinedIn(k.tasks, k.events[e], r.events[e], k.current);
    WithoutThins(r.events[e], k.current);
  }

  lemma StepBehind(k: K, op: Op, e: EventId, y: TaskId, z: TaskId)
    requires Inv(k) && Enabled(k, op) && InLine(k, e) && Orderly(k, op, e) && Behind(k, e, y, z) && y != z
    requires var r := Step(k, op); Inv(r) && e in r.events && y in r.events[e]
    ensures Behind(Step(k, op), e, y, z)
  {
    hide Inv, Enabled, Step, EventsKept, Apart, Behind;
    if op.Await? && op.e == e {
      JoinBehind(k, e, op.ticks, y, z);
    } else {
      ApartAwait(k, op, e);
      LineListed(k, e);
      StepKept(k, op, e);
      InvCore(k);
      InvCore(Step(k, op));
      KeptBehind(k, Step(k, op), e, y, z);
    }
  }

  /** In every state of the run task y waits in list e. */
  ghost predicate StaysIn(k: K, ops: seq<Op>, e: EventId, y: TaskId)
    requires Inv(k) && Run(k, ops)
    decreases |ops|
  {
    && e in k.events && y in k.events[e]
    && (ops != [] ==> (StepKeeps(k, ops[0]); StaysIn(Step(k, ops[0]), ops[1..], e, y)))
  }

  lemma {:induction false} RunBehind(k: K, ops: seq<Op>, e: EventId, y: TaskId, z: TaskId)
    requires Inv(k) && Run(k, ops) && InLine(k, e) && AllOrderly(k, ops, e) && y != z
    requires Behind(k, e, y, z) && StaysIn(k, ops, e, y)
    ensures Behind(After(k, ops), e, y, z)
    decreases |ops|
  {
    hide Inv, Enabled, Step, InLine, Orderly, Behind;
    if ops != [] {
      StepKeeps(k, ops[0]);
      StepInLine(k, ops[0], e);
      StepBehind(k, ops[0], e, y, z);
      RunBehind(Step(k, ops[0]), ops[1..], e, y, z);
    }
  }

  /** First come, first served: while y waits, no signal wakes a task that joined the list behind it and is
      not above it. */
  lemma FirstComeFirstServed(k: K, ops: seq<Op>, e: EventId, y: TaskId, z: TaskId)
    requires Inv(k) && Run(k, ops) && InLine(k, e) && AllOrderly(k, ops, e) && y != z
    requires y in k.events[e] && z !in k.events[e] && StaysIn(k, ops, e, y)
    ensures var m := After(k, ops);
      && e in m.events && m.events[e] != [] && y in m.tasks
      && (m.events[e][0] == z ==> z in m.tasks && m.tasks[z].priority > m.tasks[y].priority)
  {
    hide Inv, Shape, Run, After, AllOrderly, InLine, StaysIn;
    InLineKnown(k, e);
    RunBehind(k, ops, e, y, z);
    var m := After(k, ops);
    InvCore(m);
    EventKnown(m, e);
    if m.events[e][0] == z {
      assert z in m.events[e];
      OneOrder(m.events[e], y, z);
      HeadBefore(m.events[e], y);
    }
  }

  lemma HeadBefore(s: seq<TaskId>, y: TaskId)
    requires y in s && y != s[0]
    ensures Before(s, s[0], y)
  {
    var i :| 0 <= i < |s| && s[i] == y;
  }

  lemma InLineKnown(k: K, e: EventId)
    requires InLine(k, e)
    ensures e in k.events && forall x | x in k.events[e] :: x in k.tasks
  {
  }

  // ---------- runs: signals while the scheduler is suspended ----------

  /** The step deletes or suspends task x. */
  ghost predicate Withdraws(k: K, op: Op, x: TaskId) {
    match op
    case KillTask(y) => y == x
    case StopTask(y) => y == x
    case KillSelf => k.current == x
    case _ => false
  }

  /** Other tasks leave task x where it is among those to be readied. */
  lemma LeftPending(k: K, r: K, y: TaskId, x: TaskId)
    requires Left(k, r, y) && x in k.pending && x != y
    ensures x in r.pending
  {
    hide NoDup;
  }

  lemma LeavingPending(k: K, op: Op, x: TaskId)
    requires Inv(k) && Enabled(k, op) && x in k.pending && !Withdraws(k, op, x)
    requires op.KillTask? || op.KillSelf? || op.CleanUp? || op.StopTask?
    ensures x in Step(k, op).pending
  {
    hide Core, Top, Shape, Delete, DeleteSelf, Reap, SuspendTask, Left, Beside;
    CoreCurrent(k);
    match op {
      case KillTask(y) => DeleteRemoves(k, y); LeftPending(k, Step(k, op), y, x);
      case KillSelf => DeleteSelfLeaves(k); LeftPending(k, Step(k, op), k.current, x);
      case CleanUp =>
        ReapHead(k);
        ReapIsDelete(k);
        IdleStays(k);
        DeleteRemoves(k, k.termination[0]);
        PendingEvent(k, x);
        LeftPending(k, Step(k, op), k.termination[0], x);
      case StopTask(y) => SuspendTaskKeeps(k, y); LeftPending(k, Step(k, op), y, x);
    }
  }

  lemma PendingEvent(k: K, x: TaskId)
    requires Core(k) && x in k.pending
    ensures x in k.tasks && k.tasks[x].event == OnPending
  {
    hide StateSide;
  }

  lemma TasksPending(k: K, op: Op, x: TaskId)
    requires Inv(k) && Enabled(k, op) && x in k.pending
    requires op.NewTask? || op.StartTask? || op.StartTaskFromIsr? || op.Prioritise?
    ensures x in Step(k, op).pending
  {
    hide Core, Top, Shape, Create, ResumeTask, ResumeFromIsr, SetPriority, GaveWay;
    CoreCurrent(k);
    match op {
      case NewTask(y, p) => CreateReadies(k, y, p);
      case StartTask(y) => ResumeTaskReadies(k, y);
      case StartTaskFromIsr(y) => ResumeFromIsrReadies(k, y);
      case Prioritise(y, p) => SetPrioritySets(k, y, p);
    }
  }

  lemma OtherPending(k: K, op: Op, x: TaskId)
    requires Inv(k) && Enabled(k, op) && x in k.pending && k.nesting > 0
    requires op.TickInterrupt? || op.Yield? || op.Suspend? || op.CatchUp? || (op.Resume? && k.nesting > 1)
    ensures x in Step(k, op).pending
  {
    hide Core, Top, Shape, SwitchContext, ResumeAll;
    CoreCurrent(k);
    match op {
      case TickInterrupt =>
      case Yield => SwitchContextKeeps(k);
      case Suspend =>
      case CatchUp(_) =>
      case Resume => ResumeAllRuns(k);
    }
  }

  lemma WaitingPending(k: K, op: Op, x: TaskId)
    requires Inv(k) && Enabled(k, op) && x in k.pending && k.nesting > 0
    requires op.Delay? || op.Await? || op.AwaitUnordered? || op.Notify? || op.NotifyUnordered? || op.Restore?
    ensures x in Step(k, op).pending
  {
    hide Core, Base, Top, Shape, Block, PlaceOnEvent, PlaceOnUnordered, Signal, SignalUnordered, RestoreItem, Joined;
    CoreCurrent(k);
    match op {
      case Delay(n) => BaseOf(k); BlockKeeps(k, n, false);
      case Await(e, n) => PlaceKeeps(k, e, n);
      case AwaitUnordered(e, v, n) => PlaceUnorderedKeeps(k, e, v, n);
      case Notify(e) => SignalKeeps(k, e);
      case NotifyUnordered(y, v) => SignalUnorderedKeeps(k, y, v);
      case Restore => RestoreKeeps(k);
    }
  }

  /** A task to be readied stays so while the scheduler stays suspended. */
  lemma StaysPending(k: K, op: Op, x: TaskId)
    requires Inv(k) && Enabled(k, op) && x in k.pending && k.nesting > 0 && !Withdraws(k, op, x)
    requires op.Resume? ==> k.nesting > 1
    ensures x in Step(k, op).pending
  {
    hide Inv, Enabled, Step, Withdraws;
    match op {
      case TickInterrupt => OtherPending(k, op, x);
      case Yield => OtherPending(k, op, x);
      case Suspend => OtherPending(k, op, x);
      case Resume => OtherPending(k, op, x);
      case CatchUp(_) => OtherPending(k, op, x);
      case KillTask(_) => LeavingPending(k, op, x);
      case KillSelf => LeavingPending(k, op, x);
      case CleanUp => LeavingPending(k, op, x);
      case StopTask(_) => LeavingPending(k, op, x);
      case NewTask(_, _) => TasksPending(k, op, x);
      case StartTask(_) => TasksPending(k, op, x);
      case StartTaskFromIsr(_) => TasksPending(k, op, x);
      case Prioritise(_, _) => TasksPending(k, op, x);
      case _ => WaitingPending(k, op, x);
    }
  }

  /** The scheduler stays suspended through the run, in which task x is neither deleted nor suspended. */
  ghost predicate StaysSuspended(k: K, ops: seq<Op>, x: TaskId)
    requires Inv(k) && Run(k, ops)
    decreases |ops|
  {
    && k.nesting > 0
    && (ops != [] ==>
          && !Withdraws(k, ops[0], x) && (ops[0].Resume? ==> k.nesting > 1)
          && (StepKeeps(k, ops[0]); StaysSuspended(Step(k, ops[0]), ops[1..], x)))
  }

  lemma {:induction false} RunPending(k: K, ops: seq<Op>, x: TaskId)
    requires Inv(k) && Run(k, ops) && StaysSuspended(k, ops, x) && x in k.pending
    ensures x in After(k, ops).pending
    decreases |ops|
  {
    hide Inv, Enabled, Step, Withdraws;
    if ops != [] {
      StepKeeps(k, ops[0]);
      StaysPending(k, ops[0], x);
      RunPending(Step(k, ops[0]), ops[1..], x);
    }
  }

  /** The scheduler runs, task x is ready and waits for nothing, and no ready task is above the running
      one. */
  ghost predicate Settled(k: K, x: TaskId) {
    && k.nesting == 0 && !k.yieldPending && k.current in k.tasks && Top(k)
    && x in k.tasks && k.tasks[x].place == InReady && k.tasks[x].event == NoEvent
  }

  /** Nobody is forgotten: a task that a signal or another interrupt has put among those to be readied, in
      whatever state its timed wait is, is ready when the scheduler has been resumed as often as it was
      suspended, whatever else was done meanwhile; and then no ready task is above the running one. */
  lemma PendingIsDelivered(k: K, ops: seq<Op>, x: TaskId)
    requires Inv(k) && Run(k, ops) && StaysSuspended(k, ops, x) && x in k.pending
    requires After(k, ops).nesting == 1
    ensures Settled(Step(After(k, ops), Resume), x)
  {
    hide Core, Run, After, ResumeAll, StaysSuspended, Top;
    RunPending(k, ops, x);
    ResumeAllKeeps(After(k, ops));
  }

  // ---------- a change of the priority of a waiter ----------

  /** The list is in order of priority, whatever its items show. */
  ghost predicate ByPriority(k: K, e: EventId) {
    && e in k.events && (forall y | y in k.events[e] :: y in k.tasks)
    && forall y, z :: Before(k.events[e], y, z) ==>
         y in k.tasks && z in k.tasks && k.tasks[y].priority >= k.tasks[z].priority
  }

  lemma BeforeIn(s: seq<TaskId>, y: TaskId, z: TaskId)
    requires Before(s, y, z)
    ensures y in s && z in s && (NoDup(s) ==> y != z)
  {
  }

  /** vTaskPrioritySet does not move a waiting task in its event list: the list is in order of priority
      afterwards if and only if the new priority fits in where the task stands. */
  lemma WaiterKeepsPlace(k: K, x: TaskId, priority: nat, e: EventId)
    requires Inv(k) && ByPriority(k, e) && x in k.events[e]
    ensures |k.ready| > 0
    ensures var r := SetPriority(k, x, priority);
      var p := if priority >= |k.ready| then |k.ready| - 1 else priority;
      && e in r.events && r.events[e] == k.events[e]
      && (ByPriority(r, e) <==>
            forall y | y in k.events[e] ::
              && (Before(k.events[e], y, x) ==> k.tasks[y].priority >= p)
              && (Before(k.events[e], x, y) ==> k.tasks[y].priority <= p))
  {
    hide Core, Top, Shape, SetPriority, GaveWay, Before;
    CoreCurrent(k);
    EventKnown(k, e);
    SetPrioritySets(k, x, priority);
    SetPriorityKeeps(k, x, priority);
    var r := SetPriority(k, x, priority);
    var s := k.events[e];
    if forall y | y in s :: (Before(s, y, x) ==> k.tasks[y].priority >= r.tasks[x].priority)
         && (Before(s, x, y) ==> k.tasks[y].priority <= r.tasks[x].priority) {
      forall y, z | Before(s, y, z)
        ensures y in r.tasks && z in r.tasks && r.tasks[y].priority >= r.tasks[z].priority
      {
        BeforeIn(s, y, z);
      }
    }
    if ByPriority(r, e) {
      forall y | y in s
        ensures Before(s, y, x) ==> k.tasks[y].priority >= r.tasks[x].priority
        ensures Before(s, x, y) ==> k.tasks[y].priority <= r.tasks[x].priority
      {
        if Before(s, y, x) {
          BeforeIn(s, y, x);
        }
        if Before(s, x, y) {
          BeforeIn(s, x, y);
        }
      }
    }
  }

  /** The run leads from k to r. */
  ghost predicate Leads(k: K, ops: seq<Op>, r: K) {
    Inv(k) && Run(k, ops) && After(k, ops) == r && Inv(r)
  }

  lemma LeadsBy(k: K, op: Op)
    requires Inv(k) && Enabled(k, op)
    ensures Leads(k, [op], Step(k, op))
  {
    hide Inv, Enabled, Step;
    StepKeeps(k, op);
    LeadsNowhere(Step(k, op));
    assert [op][1..] == [] && [op][0] == op;
  }

  lemma LeadsNowhere(k: K)
    requires Inv(k)
    ensures Run(k, []) && After(k, []) == k
  {
    hide Inv;
  }

  lemma {:induction false} LeadsOn(k: K, a: seq<Op>, m: K, b: seq<Op>, r: K)
    requires Leads(k, a, m) && Leads(m, b, r)
    ensures Leads(k, a + b, r)
    decreases |a|
  {
    hide Inv, Enabled, Step;
    if a == [] {
      assert a + b == b;
    } else {
      StepKeeps(k, a[0]);
      assert (a + b)[0] == a[0] && (a + b)[1..] == a[1..] + b;
      LeadsOn(Step(k, a[0]), a[1..], m, b, r);
    }
  }

  lemma LeadsInv(k: K, ops: seq<Op>, r: K)
    requires Leads(k, ops, r)
    ensures Inv(k) && Inv(r) && Run(k, ops) && After(k, ops) == r
  {
    hide Inv, Run, After;
  }

  /** The scheduler runs, nothing is pending, and exactly these tasks exist, the lists of events as given. */
  ghost predicate Quiet(k: K, tasks: map<TaskId, Tcb>, waiting: seq<TaskId>) {
    && Inv(k) && k.nesting == 0 && !k.yieldPending && |k.ready| == 8 && k.idle == 0
    && k.tasks == tasks && k.events == map[1 := waiting]
  }

  /** The running task is the only ready task of greatest priority. */
  lemma OnlyCandidate(k: K, x: TaskId)
    requires Inv(k) && Top(k) && k.tasks[k.current].place == InReady && x in k.tasks && k.tasks[x].place == InReady
    requires forall y | y in k.tasks && y != x && k.tasks[y].place == InReady :: k.tasks[y].priority < k.tasks[x].priority
    ensures k.current == x
  {
    hide Shape;
    ReadyAtMost(k, x);
  }

  /** A new task above the running one runs at once. */
  lemma Arrives(k: K, tasks: map<TaskId, Tcb>, waiting: seq<TaskId>, x: TaskId, p: nat) returns (r: K)
    requires Quiet(k, tasks, waiting) && x !in tasks && p < 8 && k.current in tasks
    requires forall y | y in tasks && tasks[y].place == InReady :: tasks[y].priority < p
    requires tasks[k.current].place == InReady
    ensures Leads(k, [NewTask(x, p)], r) && r.current == x
    ensures Quiet(r, tasks[x := Tcb(p, 8 - p, InReady, NoEvent)], waiting)
  {
    hide Core, Top, Shape, Create, Leads;
    LeadsBy(k, NewTask(x, p));
    CreateReadies(k, x, p);
    CreateKeeps(k, x, p);
    r := Step(k, NewTask(x, p));
    OnlyCandidate(r, x);
    IdleSame(k, NewTask(x, p));
  }

  lemma IdleSame(k: K, op: Op)
    requires Inv(k) && Enabled(k, op)
    requires op.NewTask? || op.Yield? || op.Await?
    ensures Step(k, op).idle == k.idle
  {
    hide Shape, Count, Sorted, Times, StateSide, EventSide;
  }

  /** The running task waits on list 1 for ten ticks and the idle task takes over. */
  function WaitSteps(): seq<Op> {
    [Suspend, Await(1, 10)] + [Resume, Yield]
  }

  /** The first half: it joins the list where its priority puts it. */
  lemma Joins(k: K, tasks: map<TaskId, Tcb>, waiting: seq<TaskId>) returns (r: K)
    requires Quiet(k, tasks, waiting) && MayBlock(k) && k.current != 0
    ensures Leads(k, [Suspend, Await(1, 10)], r) && r.current == k.current && r.nesting == 1 && !r.yieldPending
    ensures r.pending == [] && r.pendedTicks == 0 && |r.ready| == 8 && r.idle == 0
    ensures r.tasks == tasks[k.current := tasks[k.current].(event := OnEvent(1), place := InDelayed)]
    ensures 1 in r.events && r.events == map[1 := r.events[1]] && Joined(tasks, waiting, r.events[1], k.current)
  {
    hide Core, Top, Shape, PlaceOnEvent, Leads, Joined;
    LeadsBy(k, Suspend);
    StepKeeps(k, Suspend);
    var a := Step(k, Suspend);
    LeadsBy(a, Await(1, 10));
    StepKeeps(a, Await(1, 10));
    PlaceKeeps(a, 1, 10);
    PlacedLevels(a, Await(1, 10));
    IdleSame(a, Await(1, 10));
    r := Step(a, Await(1, 10));
    LeadsOn(k, [Suspend], a, [Await(1, 10)], r);
    assert [Suspend] + [Await(1, 10)] == [Suspend, Await(1, 10)];
  }

  /** With nothing pending a resumption only counts down. */
  lemma ResumesQuietly(k: K)
    requires Inv(k) && k.nesting == 1 && k.pending == [] && k.pendedTicks == 0 && !k.yieldPending
    ensures ResumeAll(k).0 == k.(nesting := 0)
  {
    hide Core, Top, Shape, SwitchContext;
    CoreCurrent(k);
    FlagCore(k, k.yieldPending, 0, 0);
  }

  /** The second half: the only ready task runs. */
  lemma GivesOver(k: K, x: TaskId) returns (r: K)
    requires Inv(k) && k.nesting == 1 && k.pending == [] && k.pendedTicks == 0 && !k.yieldPending
    requires x in k.tasks && k.tasks[x].place == InReady
    requires forall y | y in k.tasks && y != x :: k.tasks[y].place != InReady
    ensures Leads(k, [Resume, Yield], r) && r.current == x && r.nesting == 0 && !r.yieldPending
    ensures r.tasks == k.tasks && r.events == k.events && |r.ready| == |k.ready| && r.idle == k.idle
  {
    hide Core, Top, Shape, SwitchContext, ResumeAll, Leads;
    LeadsBy(k, Resume);
    StepKeeps(k, Resume);
    ResumesQuietly(k);
    var a := Step(k, Resume);
    LeadsBy(a, Yield);
    StepKeeps(a, Yield);
    SwitchContextKeeps(a);
    r := Step(a, Yield);
    CoreCurrent(r);
    OnlyCandidate(r, x);
    IdleSame(a, Yield);
    LeadsOn(k, [Resume], a, [Yield], r);
    assert [Resume] + [Yield] == [Resume, Yield];
  }

  const IDLE := Tcb(0, 8, InReady, NoEvent)
  const FIRST := Tcb(3, 5, InDelayed, OnEvent(1))
  const SECOND := Tcb(1, 7, InDelayed, OnEvent(1))

  /** Task 1, of priority 3, waits on list 1, then task 2, of priority 1, and then task 2 is given priority
      5. */
  function RaiseWaiter(): seq<Op> {
    ([NewTask(1, 3)] + WaitSteps()) + ([NewTask(2, 1)] + WaitSteps()) + [Prioritise(2, 5)]
  }

  /** The running task waits, and the idle task runs again. */
  lemma WaitsAside(k: K, tasks: map<TaskId, Tcb>, waiting: seq<TaskId>) returns (r: K)
    requires Quiet(k, tasks, waiting) && MayBlock(k) && k.current != 0 && 0 in tasks && tasks[0].place == InReady
    requires forall y | y in tasks && y != 0 && y != k.current :: tasks[y].place != InReady
    ensures Leads(k, WaitSteps(), r) && r.current == 0 && 1 in r.events && Joined(tasks, waiting, r.events[1], k.current)
    ensures Quiet(r, tasks[k.current := tasks[k.current].(event := OnEvent(1), place := InDelayed)], r.events[1])
  {
    hide Inv, Joined, Leads;
    var b := Joins(k, tasks, waiting);
    LeadsInv(k, [Suspend, Await(1, 10)], b);
    r := GivesOver(b, 0);
    LeadsInv(b, [Resume, Yield], r);
    LeadsOn(k, [Suspend, Await(1, 10)], b, [Resume, Yield], r);
  }

  lemma ReadyMayBlock(k: K, tasks: map<TaskId, Tcb>, waiting: seq<TaskId>, x: TaskId, p: nat)
    requires Quiet(k, tasks, waiting) && k.current == x && x != 0 && x in tasks
    requires tasks[x].place == InReady && tasks[x].event == NoEvent
    ensures MayBlock(k)
  {
    hide Inv;
  }

  /** A task arrives above the idle task and waits; the idle task runs again. */
  lemma ArrivesAndWaits(k: K, tasks: map<TaskId, Tcb>, waiting: seq<TaskId>, x: TaskId, p: nat) returns (r: K)
    requires Quiet(k, tasks, waiting) && k.current == 0 && x !in tasks && 0 < p < 8
    requires 0 in tasks && tasks[0] == IDLE && forall y | y in tasks && y != 0 :: tasks[y].place != InReady
    ensures Leads(k, [NewTask(x, p)] + WaitSteps(), r) && r.current == 0 && 1 in r.events
    ensures Quiet(r, tasks[x := Tcb(p, 8 - p, InDelayed, OnEvent(1))], r.events[1])
    ensures Joined(tasks[x := Tcb(p, 8 - p, InReady, NoEvent)], waiting, r.events[1], x)
  {
    hide Quiet, Joined, Leads, MayBlock, WaitSteps;
    StillQuiet(k, tasks, waiting);
    var ready := Tcb(p, 8 - p, InReady, NoEvent);
    var now := tasks[x := ready];
    var a := Arrives(k, tasks, waiting, x, p);
    ReadyMayBlock(a, now, waiting, x, p);
    r := WaitsAside(a, now, waiting);
    LeadsOn(k, [NewTask(x, p)], a, WaitSteps(), r);
    assert now[x := ready.(event := OnEvent(1), place := InDelayed)] == tasks[x := Tcb(p, 8 - p, InDelayed, OnEvent(1))];
  }

  lemma StillQuiet(k: K, tasks: map<TaskId, Tcb>, waiting: seq<TaskId>)
    requires Quiet(k, tasks, waiting)
    ensures k.tasks == tasks
  {
    hide Inv;
  }

  lemma StartedQuiet()
    ensures var k := Started(8, 0, {1}); Quiet(k, map[0 := IDLE], []) && k.current == 0
  {
    hide Inv;
    StartedInv(8, 0, {1});
  }

  lemma FirstJoins(tasks: map<TaskId, Tcb>, r: seq<TaskId>, x: TaskId)
    requires Joined(tasks, [], r, x)
    ensures r == [x]
  {
    hide Before, InOrder;
    assert |r| == 1;
  }

  lemma SecondJoins(tasks: map<TaskId, Tcb>, y: TaskId, r: seq<TaskId>, x: TaskId)
    requires Joined(tasks, [y], r, x) && x != y && y in tasks && tasks[y].eventValue <= tasks[x].eventValue
    ensures r == [y, x]
  {
    assert |r| == 2 && InOrder(tasks, [y]);
    assert y in [y];
    assert Before(r, y, x);
  }

  /** The task raised while it waits is above the idle task and not above itself: the running one goes on
      and the list stays as it is. */
  lemma RaisesWaiter(k: K, tasks: map<TaskId, Tcb>, waiting: seq<TaskId>, x: TaskId) returns (r: K)
    requires Quiet(k, tasks, waiting) && x in tasks && tasks[x] == SECOND
    ensures Leads(k, [Prioritise(x, 5)], r) && x in r.tasks && r.tasks[x].priority == 5 && r.events == map[1 := waiting]
    ensures r.tasks == tasks[x := r.tasks[x]] && Enabled(r, Notify(1)) == (waiting != [])
  {
    hide Core, Top, Shape, SetPriority, Leads, GaveWay;
    LeadsBy(k, Prioritise(x, 5));
    SetPrioritySets(k, x, 5);
    r := Step(k, Prioritise(x, 5));
  }

  /** The order is lost in a run from the start: task 2, raised to priority 5 while it waits behind task 1 of
      priority 3, stays behind it, and the next signal wakes task 1. */
  lemma RaisedWaiterStaysBehind() returns (r: K)
    ensures Leads(Started(8, 0, {1}), RaiseWaiter(), r)
    ensures 1 in r.events && r.events[1] == [1, 2] && {1, 2} <= r.tasks.Keys
    ensures r.tasks[1].priority == 3 && r.tasks[2].priority == 5 && !ByPriority(r, 1)
  {
    hide Quiet, Joined, Leads, WaitSteps, Started;
    var k := Started(8, 0, {1});
    StartedQuiet();
    var one := map[0 := IDLE, 1 := FIRST];
    var a := ArrivesAndWaits(k, map[0 := IDLE], [], 1, 3);
    FirstJoins(map[0 := IDLE, 1 := Tcb(3, 5, InReady, NoEvent)], a.events[1], 1);
    assert map[0 := IDLE][1 := FIRST] == one;
    var b := ArrivesAndWaits(a, one, [1], 2, 1);
    SecondJoins(one[2 := Tcb(1, 7, InReady, NoEvent)], 1, b.events[1], 2);
    r := RaisesWaiter(b, one[2 := SECOND], [1, 2], 2);
    LeadsOn(k, [NewTask(1, 3)] + WaitSteps(), a, [NewTask(2, 1)] + WaitSteps(), b);
    LeadsOn(k, ([NewTask(1, 3)] + WaitSteps()) + ([NewTask(2, 1)] + WaitSteps()), b, [Prioritise(2, 5)], r);
    var w := r.events[1];
    assert w[0] == 1 && w[1] == 2;
    assert Before(w, 1, 2);
  }
}
