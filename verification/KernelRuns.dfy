/** Whole runs of the scheduler: every sequence of kernel steps, each step one critical section or
    one call made with the scheduler suspended, with interrupts anywhere between them. */
module KernelRuns {
  import opened Words
  import opened Rings
  import opened Kernel
  import opened KernelOps
  import opened KernelApi
  import opened KernelCalls
  import opened KernelTasks

  datatype Op =
    | TickInterrupt
    | Yield
    | Suspend
    | Resume
    | CatchUp(ticks: nat)
    | Delay(ticks: nat)
    | Await(e: EventId, ticks: nat)
    | AwaitUnordered(e: EventId, value: nat, ticks: nat)
    | Notify(e: EventId)
    | NotifyUnordered(x: TaskId, value: nat)
    | Restore
    | NewTask(x: TaskId, priority: nat)
    | KillTask(x: TaskId)
    | KillSelf
    | CleanUp
    | StopTask(x: TaskId)
    | StartTask(x: TaskId)
    | StartTaskFromIsr(x: TaskId)
    | Prioritise(x: TaskId, priority: nat)

  /** A delay or a timeout is a positive 32-bit number of ticks. */
  predicate IsDelay(n: nat) {
    1 <= n <= MAX_DELAY
  }

  /** What the source asks of its callers. */
  ghost predicate Enabled(k: K, op: Op) {
    match op
    case TickInterrupt => true
    case Yield => true
    case Suspend => true
    case Resume => k.nesting > 0
    case CatchUp(_) => k.nesting > 0
    case Delay(n) => k.nesting > 0 && MayBlock(k) && IsDelay(n)
    case Await(e, n) => k.nesting > 0 && MayBlock(k) && e in k.events && IsDelay(n)
    case AwaitUnordered(e, _, n) => k.nesting > 0 && MayBlock(k) && e in k.events && IsDelay(n)
    case Notify(e) => e in k.events && k.events[e] != []
    case NotifyUnordered(x, _) => k.nesting > 0 && x in k.tasks && k.tasks[x].event.OnEvent?
    case Restore => k.current in k.tasks && k.tasks[k.current].event == NoEvent
    case NewTask(x, _) => x !in k.tasks
    case KillTask(x) => x in k.tasks && x != k.current && x != k.idle && k.tasks[x].place != InTermination
    case KillSelf => k.current in k.tasks && k.current != k.idle && k.tasks[k.current].place != InTermination
    case CleanUp => k.current == k.idle && k.termination != []
    case StopTask(x) => x in k.tasks && x != k.idle && k.tasks[x].place != InTermination
    case StartTask(x) => x in k.tasks
    case StartTaskFromIsr(x) => x in k.tasks
    case Prioritise(x, _) => x in k.tasks
  }

  /** The tick interrupt: count the tick and switch if that is due. */
  ghost function TickIsr(k: K): K
    requires Core(k) && Future(k)
  {
    if k.nesting == 0 then
      TickOnceKeeps(k);
      var (r, due) := IncrementTick(k);
      if due then SwitchContext(r) else r
    else
      IncrementTick(k).0
  }

  lemma SwitchKeepsInv(k: K)
    requires Core(k) && Future(k) && Rested(k)
    ensures var r := SwitchContext(k);
      && Inv(r) && r.delayed == k.delayed && r.tasks == k.tasks
      && r.tick == k.tick && r.pendedTicks == k.pendedTicks && r.nesting == k.nesting
  {
    hide Core, Top, SwitchContext;
    SwitchContextKeeps(k);
    CoreCurrent(SwitchContext(k));
  }

  /** The interrupt while the scheduler is not suspended: the switch moves no timed wait. */
  lemma TickIsrNow(k: K)
    requires Inv(k) && k.nesting == 0
    ensures var r := TickIsr(k);
      && Inv(r) && r.nesting == 0 && r.tick == k.tick + 1 && r.pendedTicks == k.pendedTicks
      && r.tasks.Keys == k.tasks.Keys && r.delayed == TickOnce(k).0.delayed
  {
    hide Core, Top, TickOnce, SwitchContext, Future;
    TickOnceKeeps(k);
    var (r, due) := TickOnce(k);
    CoreCurrent(r);
    SwitchKeepsInv(r);
  }

  lemma TickIsrKeeps(k: K)
    requires Inv(k)
    ensures var r := TickIsr(k);
      && Inv(r) && r.nesting == k.nesting && r.tick == (if k.nesting == 0 then k.tick + 1 else k.tick)
      && r.tick + r.pendedTicks == k.tick + k.pendedTicks + 1
      && r.tasks.Keys == k.tasks.Keys
      && (forall t | t in k.delayed :: t in r.delayed <==> r.tick < t.time)
      && (forall t | t in r.delayed :: t in k.delayed)
  {
    hide Core, Calm, TickOnce, SwitchContext;
    CoreCurrent(k);
    if k.nesting == 0 {
      TickIsrNow(k);
      TickOnceKeeps(k);
    } else {
      Counting(k);
    }
  }

  /** While the scheduler is not suspended the tick interrupt leaves no yield pending and no ready task above
      the running one, and the running task goes on unless the tick asks for a switch. */
  lemma TickSettles(k: K)
    requires Inv(k) && k.nesting == 0
    ensures var r := TickIsr(k);
      && !r.yieldPending && r.current in r.tasks && Top(r)
      && (!TickOnce(k).1 ==> r.current == k.current)
  {
    hide Core, Top, Shape, Shares, TickOnce, SwitchContext, Future;
    TickOnceKeeps(k);
    TickAsks(k);
    var (r, due) := TickOnce(k);
    CoreCurrent(r);
    if due {
      SwitchContextKeeps(r);
      CoreCurrent(SwitchContext(r));
    }
  }

  lemma Counting(k: K)
    requires Inv(k) && k.nesting > 0
    ensures Inv(k.(pendedTicks := k.pendedTicks + 1))
  {
    hide Core, Top;
    CoreCurrent(k);
    FlagCore(k, k.yieldPending, k.nesting, k.pendedTicks + 1);
  }

  lemma InvCore(k: K)
    requires Inv(k)
    ensures Core(k) && Future(k) && Shape(k) && k.current in k.tasks
  {
  }

  ghost function Step(k: K, op: Op): K
    requires Inv(k) && Enabled(k, op)
  {
    hide Inv, Core, Shape, Future, TickIsr, SwitchContext, Block, PlaceOnEvent, PlaceOnUnordered, Signal,
         SignalUnordered, RestoreItem, ResumeAll, Create, Delete, DeleteSelf, Reap, SuspendTask, ResumeTask, ResumeFromIsr,
         SetPriority;
    InvCore(k);
    match op
    case TickInterrupt => TickIsr(k)
    case Yield => SwitchContext(k)
    case Suspend => SuspendAll(k)
    case Resume => ResumeAll(k).0
    case CatchUp(n) => k.(pendedTicks := k.pendedTicks + n)
    case Delay(n) => Block(k, n, false)
    case Await(e, n) => PlaceOnEvent(k, e, n)
    case AwaitUnordered(e, v, n) => PlaceOnUnordered(k, e, v, n)
    case Notify(e) => Signal(k, e).0
    case NotifyUnordered(x, v) => SignalUnordered(k, x, v)
    case Restore => RestoreItem(k)
    case NewTask(x, p) => Create(k, x, p)
    case KillTask(x) => Delete(k, x)
    case KillSelf => DeleteSelf(k)
    case CleanUp => Reap(k)
    case StopTask(x) => SuspendTask(k, x)
    case StartTask(x) => ResumeTask(k, x)
    case StartTaskFromIsr(x) => ResumeFromIsr(k, x).0
    case Prioritise(x, p) => SetPriority(k, x, p)
  }

  /** The ticks a step accounts for. */
  function TicksOf(op: Op): nat {
    match op
    case TickInterrupt => 1
    case CatchUp(n) => n
    case _ => 0
  }

  ghost predicate StepGoal(k: K, op: Op, r: K) {
    Inv(r) && r.tick + r.pendedTicks == k.tick + k.pendedTicks + TicksOf(op) && k.tick <= r.tick
  }

  lemma BlockStep(k: K, n: nat)
    requires Inv(k) && MayBlock(k) && 1 <= n
    ensures Inv(Block(k, n, false)) && Block(k, n, false).tick == k.tick
    ensures Block(k, n, false).pendedTicks == k.pendedTicks
    ensures forall t | t in k.delayed && t.task != k.current :: t in Block(k, n, false).delayed
    ensures Timed(k.current, k.tick + n) in Block(k, n, false).delayed
    ensures forall x | x in k.tasks && x != k.current ::
              x in Block(k, n, false).tasks && Block(k, n, false).tasks[x] == k.tasks[x]
    ensures k.current in Block(k, n, false).tasks && Block(k, n, false).tasks[k.current].event == NoEvent
  {
    hide Base, Block, Top;
    BaseOf(k);
    BlockKeeps(k, n, false);
  }

  lemma BaseOf(k: K)
    requires Core(k)
    ensures Base(k) && OthersWait(k) && k.current in k.tasks
  {
  }

  /** Steps made by interrupts and by the switch itself. */
  lemma InterruptSteps(k: K, op: Op)
    requires Inv(k) && Enabled(k, op)
    requires op.TickInterrupt? || op.Yield? || op.Suspend? || op.Resume? || op.CatchUp?
    ensures StepGoal(k, op, Step(k, op))
  {
    hide Core, Top, Shape, SwitchContext, ResumeAll, TickIsr, Resumed;
    CoreCurrent(k);
    match op {
      case TickInterrupt => TickIsrKeeps(k);
      case Yield => SwitchContextKeeps(k); CoreCurrent(SwitchContext(k));
      case Suspend => FlagCore(k, k.yieldPending, k.nesting + 1, k.pendedTicks);
      case Resume => ResumeAllKeeps(k);
      case CatchUp(n) => FlagCore(k, k.yieldPending, k.nesting, k.pendedTicks + n);
    }
  }

  /** Steps by which the running task blocks. */
  lemma BlockingSteps(k: K, op: Op)
    requires Inv(k) && Enabled(k, op)
    requires op.Delay? || op.Await? || op.AwaitUnordered?
    ensures StepGoal(k, op, Step(k, op))
  {
    hide Inv, Core, Shape, Block, PlaceOnEvent, PlaceOnUnordered, Waiting, Joined;
    InvCore(k);
    match op {
      case Delay(n) => BlockStep(k, n);
      case Await(e, n) => PlaceKeeps(k, e, n);
      case AwaitUnordered(e, v, n) => PlaceUnorderedKeeps(k, e, v, n);
    }
  }

  /** Steps by which tasks are woken, and after which they restore their event list item. */
  lemma WakingSteps(k: K, op: Op)
    requires Inv(k) && Enabled(k, op)
    requires op.Notify? || op.NotifyUnordered? || op.Restore?
    ensures StepGoal(k, op, Step(k, op))
  {
    hide Inv, Core, Shape, Signal, SignalUnordered, RestoreItem, Signalled, Handed;
    InvCore(k);
    match op {
      case Restore => RestoreKeeps(k);
      case Notify(e) => SignalKeeps(k, e);
      case NotifyUnordered(x, v) => SignalUnorderedKeeps(k, x, v);
    }
  }

  lemma ReapKeeps(k: K)
    requires Inv(k) && k.current == k.idle && k.termination != []
    ensures Inv(Reap(k)) && Beside(k, Reap(k), k.termination[0])
  {
    hide Delete, Reap, Top;
    ReapHead(k);
    ReapIsDelete(k);
    DeleteKeeps(k, k.termination[0]);
  }

  /** Steps that manage tasks. */
  lemma TaskSteps(k: K, op: Op)
    requires Inv(k) && Enabled(k, op)
    requires op.NewTask? || op.KillTask? || op.KillSelf? || op.CleanUp?
          || op.StopTask? || op.StartTask? || op.StartTaskFromIsr? || op.Prioritise?
    ensures StepGoal(k, op, Step(k, op))
  {
    hide Core, Top, Shape, Create, Delete, DeleteSelf, Reap, SuspendTask, ResumeTask, ResumeFromIsr, SetPriority, Left;
    match op {
      case NewTask(x, p) => CreateKeeps(k, x, p);
      case KillTask(x) => DeleteKeeps(k, x);
      case KillSelf => DeleteSelfKeeps(k);
      case CleanUp => ReapKeeps(k);
      case StopTask(x) => SuspendTaskKeeps(k, x);
      case StartTask(x) => ResumeTaskKeeps(k, x);
      case StartTaskFromIsr(x) => ResumeFromIsrKeeps(k, x);
      case Prioritise(x, p) => SetPriorityKeeps(k, x, p);
    }
  }

  lemma StepKeeps(k: K, op: Op)
    requires Inv(k) && Enabled(k, op)
    ensures StepGoal(k, op, Step(k, op))
  {
    hide *;
    match op {
      case TickInterrupt => InterruptSteps(k, op);
      case Yield => InterruptSteps(k, op);
      case Suspend => InterruptSteps(k, op);
      case Resume => InterruptSteps(k, op);
      case CatchUp(_) => InterruptSteps(k, op);
      case Delay(_) => BlockingSteps(k, op);
      case Await(_, _) => BlockingSteps(k, op);
      case AwaitUnordered(_, _, _) => BlockingSteps(k, op);
      case Notify(_) => WakingSteps(k, op);
      case NotifyUnordered(_, _) => WakingSteps(k, op);
      case Restore => WakingSteps(k, op);
      case _ => TaskSteps(k, op);
    }
  }

  // ---------- runs ----------

  /** Every step of the run is one the source allows where it is made. */
  ghost predicate Run(k: K, ops: seq<Op>)
    requires Inv(k)
    decreases |ops|
  {
    ops != [] ==> Enabled(k, ops[0]) && (StepKeeps(k, ops[0]); Run(Step(k, ops[0]), ops[1..]))
  }

  ghost function After(k: K, ops: seq<Op>): (r: K)
    requires Inv(k) && Run(k, ops)
    ensures Inv(r)
    decreases |ops|
  {
    if ops == [] then k else (StepKeeps(k, ops[0]); After(Step(k, ops[0]), ops[1..]))
  }

  /** The scheduler as vTaskStartScheduler leaves it when only the idle task was created. */
  ghost function Started(priorities: nat, idle: TaskId, events: set<EventId>): K
    requires priorities > 0
  {
    K(idle, map[idle := Tcb(0, priorities, InReady, NoEvent)],
      seq(priorities, _ => Empty<TaskId>())[0 := Ring([idle], 0)], [], [], [], [], map e | e in events :: [],
      0, 0, 0, idle, false)
  }

  lemma LoadEmpty(n: nat)
    ensures Load(seq(n, _ => Empty<TaskId>())) == 0
  {
    if n > 0 {
      assert seq(n, _ => Empty<TaskId>())[1..] == seq(n - 1, _ => Empty<TaskId>());
      LoadEmpty(n - 1);
    }
  }

  lemma StartedShape(priorities: nat, idle: TaskId, events: set<EventId>)
    requires priorities > 0
    ensures Shape(Started(priorities, idle, events))
  {
    hide Load;
  }

  lemma StartedCount(priorities: nat, idle: TaskId, events: set<EventId>)
    requires priorities > 0
    ensures Count(Started(priorities, idle, events)) == 1
  {
    var empty := seq(priorities, _ => Empty<TaskId>());
    LoadEmpty(priorities);
    LoadUpdate(empty, 0, Ring([idle], 0));
  }

  lemma StartedInv(priorities: nat, idle: TaskId, events: set<EventId>)
    requires priorities > 0
    ensures Inv(Started(priorities, idle, events))
  {
    hide Shape, Count;
    StartedShape(priorities, idle, events);
    StartedCount(priorities, idle, events);
    assert |map[idle := Tcb(0, priorities, InReady, NoEvent)]| == 1;
  }

  function TotalTicks(ops: seq<Op>): nat {
    if ops == [] then 0 else TicksOf(ops[0]) + TotalTicks(ops[1..])
  }

  /** Every run keeps the invariant. */
  lemma {:induction false} RunKeeps(k: K, ops: seq<Op>)
    requires Inv(k) && Run(k, ops)
    ensures Inv(After(k, ops)) && k.tick <= After(k, ops).tick
    ensures After(k, ops).tick + After(k, ops).pendedTicks == k.tick + k.pendedTicks + TotalTicks(ops)
    decreases |ops|
  {
    hide Inv, Step, Enabled;
    if ops != [] {
      StepKeeps(k, ops[0]);
      RunKeeps(Step(k, ops[0]), ops[1..]);
    }
  }

  /** Tick conservation: in every run the clock and the pended ticks together count the tick
      interrupts and the caught-up ticks, nothing lost and nothing twice; and whenever the scheduler
      is not suspended no tick is pended, no task waits in the pending-ready list and every timed
      wait ends in the future. */
  lemma TickConservation(k: K, ops: seq<Op>)
    requires Inv(k) && Run(k, ops)
    ensures var r := After(k, ops);
      && r.tick + r.pendedTicks == k.tick + k.pendedTicks + TotalTicks(ops)
      && (r.nesting == 0 ==> r.pendedTicks == 0 && r.pending == [])
      && (forall t | t in r.delayed :: r.tick < t.time)
  {
    RunKeeps(k, ops);
  }

  /** Preemption safety: in every run a ready task above the running one is accompanied by a pending
      yield. */
  lemma PreemptionSafety(k: K, ops: seq<Op>, x: TaskId)
    requires Inv(k) && Run(k, ops)
    requires var r := After(k, ops); x in r.tasks && r.tasks[x].place == InReady && !r.yieldPending
    ensures var r := After(k, ops); r.current in r.tasks && r.tasks[x].priority <= r.tasks[r.current].priority
  {
    RunKeeps(k, ops);
    ReadyAtMost(After(k, ops), x);
  }

  /** Every step but a suspension and its end leaves the nesting as it is. */
  lemma NestingStep(k: K, op: Op)
    requires Inv(k) && Enabled(k, op)
    ensures op.Suspend? ==> Step(k, op).nesting == k.nesting + 1
    ensures op.Resume? ==> Step(k, op).nesting + 1 == k.nesting
    ensures !op.Suspend? && !op.Resume? ==> Step(k, op).nesting == k.nesting
  {
    hide Core, Top, Shape, SwitchContext, ResumeAll, TickIsr, Block, PlaceOnEvent, PlaceOnUnordered, Signal,
         SignalUnordered, RestoreItem, Create, Delete, DeleteSelf, Reap, SuspendTask, ResumeTask, ResumeFromIsr,
         SetPriority, Resumed, Signalled, Handed, Waiting, Joined, Left;
    InvCore(k);
    match op {
      case TickInterrupt => TickIsrKeeps(k);
      case Yield => SwitchContextKeeps(k);
      case Suspend =>
      case Resume => ResumeAllKeeps(k);
      case CatchUp(_) =>
      case Delay(n) => BlockNesting(k, n);
      case Await(e, n) => PlaceKeeps(k, e, n);
      case AwaitUnordered(e, v, n) => PlaceUnorderedKeeps(k, e, v, n);
      case Notify(e) => SignalKeeps(k, e);
      case NotifyUnordered(x, v) => HandedNesting(k, x, v);
      case Restore => RestoreKeeps(k);
      case NewTask(x, p) => CreateKeeps(k, x, p);
      case KillTask(x) => DeleteKeeps(k, x);
      case KillSelf => DeleteSelfKeeps(k);
      case CleanUp => ReapKeeps(k);
      case StopTask(x) => SuspendTaskKeeps(k, x);
      case StartTask(x) => ResumeTaskKeeps(k, x);
      case StartTaskFromIsr(x) => ResumeFromIsrKeeps(k, x);
      case Prioritise(x, p) => SetPriorityKeeps(k, x, p);
    }
  }

  lemma BlockNesting(k: K, n: nat)
    requires Inv(k) && MayBlock(k)
    ensures Block(k, n, false).nesting == k.nesting
  {
    hide Base, Block, Top;
    BaseOf(k);
    BlockKeeps(k, n, false);
  }

  lemma HandedNesting(k: K, x: TaskId, value: nat)
    requires Inv(k) && x in k.tasks && k.tasks[x].event.OnEvent?
    ensures SignalUnordered(k, x, value).nesting == k.nesting
  {
    hide Core, ToReady, DropEvent, Shape;
    CoreCurrent(k);
    DropEventKeeps(k, x);
    var d := DropEvent(k, x);
    CoreCurrent(d);
    ValueKeeps(d, x, value);
    var v := d.(tasks := d.tasks[x := d.tasks[x].(eventValue := value)]);
    CoreCurrent(v);
    BlockedWaiter(k, x);
    ToReadyKeeps(v, x);
  }

  function Suspensions(ops: seq<Op>): int {
    if ops == [] then 0
    else (if ops[0].Suspend? then 1 else if ops[0].Resume? then -1 else 0) + Suspensions(ops[1..])
  }

  /** The scheduler is suspended exactly as often as it was suspended and not yet resumed. */
  lemma {:induction false} NestingBalance(k: K, ops: seq<Op>)
    requires Inv(k) && Run(k, ops)
    ensures After(k, ops).nesting == k.nesting + Suspensions(ops)
    decreases |ops|
  {
    hide Inv, Step, Enabled;
    if ops != [] {
      StepKeeps(k, ops[0]);
      NestingStep(k, ops[0]);
      NestingBalance(Step(k, ops[0]), ops[1..]);
    }
  }

  /** When a run ends with the scheduler being resumed for good, every task readied meanwhile is ready, no
      yield is left pending, and no ready task is above the running one. */
  lemma ResumeSettles(k: K, ops: seq<Op>)
    requires Inv(k) && Run(k, ops)
    requires var m := After(k, ops); m.nesting == 1
    ensures var m := After(k, ops); var r := Step(m, Resume);
      && r.nesting == 0 && !r.yieldPending && r.pending == [] && r.current in r.tasks
      && (forall x | x in r.tasks && r.tasks[x].place == InReady ::
            r.tasks[x].priority <= r.tasks[r.current].priority)
      && (forall x | x in m.pending :: x in r.tasks && r.tasks[x].place == InReady && r.tasks[x].event == NoEvent)
  {
    hide Core, Run, After, ResumeAll;
    RunKeeps(k, ops);
    var m := After(k, ops);
    ResumeAllKeeps(m);
    var r := Step(m, Resume);
    forall x | x in r.tasks && r.tasks[x].place == InReady
      ensures r.tasks[x].priority <= r.tasks[r.current].priority
    {
      ReadyAtMost(r, x);
    }
  }

  /** Partition: after every run each task's state item is in exactly one list, the one its place
      names and for a ready task the ready list of its own priority; its event item is in at most one
      list. */
  lemma Partition(k: K, ops: seq<Op>, x: TaskId)
    requires Inv(k) && Run(k, ops) && x in After(k, ops).tasks
    ensures var r := After(k, ops); var t := r.tasks[x];
      && (forall p | 0 <= p < |r.ready| :: x in r.ready[p].items <==> t.place == InReady && t.priority == p)
      && (x in Names(r.delayed) <==> t.place == InDelayed)
      && (x in r.suspended <==> t.place == InSuspended)
      && (x in r.termination <==> t.place == InTermination)
      && t.place != Nowhere && t.priority < |r.ready|
      && (forall e | e in r.events :: x in r.events[e] <==> t.event == OnEvent(e))
      && (x in r.pending <==> t.event == OnPending)
  {
    hide Run, After, Enabled, Step, Load, Top, Calm, Sorted, Times, NoDup;
    RunKeeps(k, ops);
    var r := After(k, ops);
    assert forall e | e in r.events :: FilesEvent(r.tasks, r.events[e], OnEvent(e));
  }

  lemma Lengths(k: K)
    requires Core(k)
    ensures forall p | 0 <= p < |k.ready| :: NoDup(k.ready[p].items)
    ensures NoDup(Names(k.delayed)) && NoDup(k.suspended) && NoDup(k.termination) && NoDup(k.pending)
    ensures forall e | e in k.events :: NoDup(k.events[e])
    ensures Load(k.ready) + |k.delayed| + |k.suspended| + |k.termination| == |k.tasks|
  {
    hide Load, Sorted, Times, NoDup, Names;
    assert forall p | 0 <= p < |k.ready| :: k.ready[p].Valid();
    assert forall e | e in k.events :: FilesEvent(k.tasks, k.events[e], OnEvent(e));
  }

  /** ... no list holds a task twice, and the lengths of the state lists sum to the number of tasks. */
  lemma ListLengths(k: K, ops: seq<Op>)
    requires Inv(k) && Run(k, ops)
    ensures var r := After(k, ops);
      && (forall p | 0 <= p < |r.ready| :: NoDup(r.ready[p].items))
      && NoDup(Names(r.delayed)) && NoDup(r.suspended) && NoDup(r.termination) && NoDup(r.pending)
      && (forall e | e in r.events :: NoDup(r.events[e]))
      && Load(r.ready) + |r.delayed| + |r.suspended| + |r.termination| == |r.tasks|
  {
    hide Run, After, Core, Load, Top, NoDup;
    RunKeeps(k, ops);
    Lengths(After(k, ops));
  }

  // ---------- exact wake-up ----------

  /** The step unblocks, suspends or deletes x, or is made by x itself. */
  ghost predicate Touches(k: K, op: Op, x: TaskId) {
    match op
    case Notify(e) => e in k.events && k.events[e] != [] && k.events[e][0] == x
    case NotifyUnordered(y, _) => y == x
    case KillTask(y) => y == x
    case StopTask(y) => y == x
    case KillSelf => k.current == x
    case Delay(_) => k.current == x
    case Await(_, _) => k.current == x
    case AwaitUnordered(_, _, _) => k.current == x
    case _ => false
  }

  /** Task e.task waits for time e.time and no interrupt has readied it meanwhile. */
  ghost predicate Waits(k: K, e: Timed) {
    e in k.delayed && e.task in k.tasks && k.tasks[e.task].event != OnPending
  }

  /** After a step a wait is still there exactly while its time has not come, and when it is gone the
      task is ready. */
  ghost predicate WaitGoal(r: K, e: Timed) {
    && (e in r.delayed <==> r.tick < e.time)
    && (r.tick < e.time ==> Waits(r, e))
    && (e.time <= r.tick ==> e.task in r.tasks && r.tasks[e.task].place == InReady)
  }

  lemma NotPending(k: K, x: TaskId)
    requires Inv(k) && k.pending == [] && x in k.tasks
    ensures k.tasks[x].event != OnPending
  {
  }

  lemma TickWait(k: K, e: Timed)
    requires Inv(k) && Waits(k, e)
    ensures WaitGoal(TickIsr(k), e)
  {
    hide Core, Top, TickOnce, SwitchContext;
    CoreCurrent(k);
    TickIsrKeeps(k);
    if k.nesting == 0 {
      NotPending(TickIsr(k), e.task);
      TickOnceKeeps(k);
      var (r, due) := IncrementTick(k);
      if due {
        SwitchContextKeeps(r);
      }
      if e.time == k.tick + 1 {
        TickOnceReadies(k, e);
      }
    }
  }

  lemma ResumeWait(k: K, e: Timed)
    requires Inv(k) && Waits(k, e) && k.nesting > 0
    ensures WaitGoal(ResumeAll(k).0, e)
  {
    hide Core, Top, Catch, Resumed;
    ResumeAllKeeps(k);
    ResumeAllSpares(k, e);
    var r := ResumeAll(k).0;
    if e.time <= r.tick {
      ResumeAllReadies(k, e);
    } else if k.nesting == 1 {
      WaitingTask(r, e);
      NotPending(r, e.task);
    }
  }

  lemma WaitingTask(k: K, t: Timed)
    requires Inv(k) && t in k.delayed
    ensures t.task in k.tasks && k.tasks[t.task].place == InDelayed
  {
    hide Shape;
    DelayedPlace(k, t);
  }

  lemma WaitOutlivesInterrupt(k: K, op: Op, e: Timed)
    requires Inv(k) && Enabled(k, op) && Waits(k, e)
    requires op.TickInterrupt? || op.Yield? || op.Suspend? || op.Resume? || op.CatchUp?
    ensures WaitGoal(Step(k, op), e)
  {
    hide Core, Top, SwitchContext, ResumeAll, TickIsr;
    match op {
      case TickInterrupt => TickWait(k, e);
      case Yield => SwitchContextKeeps(k);
      case Suspend =>
      case Resume => ResumeWait(k, e);
      case CatchUp(_) =>
    }
  }

  lemma WaitOutlivesBlocking(k: K, op: Op, e: Timed)
    requires Inv(k) && Enabled(k, op) && Waits(k, e) && !Touches(k, op, e.task)
    requires op.Delay? || op.Await? || op.AwaitUnordered? || op.Notify? || op.NotifyUnordered? || op.Restore?
    ensures WaitGoal(Step(k, op), e)
  {
    hide Core, Top, Block, PlaceOnEvent, PlaceOnUnordered, Signal, SignalUnordered, RestoreItem, Waiting, Joined,
         Signalled, Handed;
    match op {
      case Restore => RestoreKeeps(k);
      case Delay(n) => BlockStep(k, n);
      case Await(f, n) => PlaceKeeps(k, f, n);
      case AwaitUnordered(f, v, n) => PlaceUnorderedKeeps(k, f, v, n);
      case Notify(f) => SignalKeeps(k, f);
      case NotifyUnordered(x, v) => SignalUnorderedKeeps(k, x, v);
    }
  }

  lemma WaitOutlivesTasks(k: K, op: Op, e: Timed)
    requires Inv(k) && Enabled(k, op) && Waits(k, e) && !Touches(k, op, e.task)
    requires op.NewTask? || op.KillTask? || op.KillSelf? || op.CleanUp?
          || op.StopTask? || op.StartTask? || op.StartTaskFromIsr? || op.Prioritise?
    ensures WaitGoal(Step(k, op), e)
  {
    hide Core, Top, Create, Delete, DeleteSelf, Reap, SuspendTask, ToReady, AddPending, SwitchContext, SetPriority, Left;
    WaitingTask(k, e);
    match op {
      case NewTask(x, p) => CreateKeeps(k, x, p);
      case KillTask(x) => DeleteKeeps(k, x);
      case KillSelf => DeleteSelfKeeps(k);
      case CleanUp => ReapHead(k); ReapKeeps(k);
      case StopTask(x) => SuspendTaskKeeps(k, x);
      case StartTask(x) => ResumeTaskKeeps(k, x);
      case StartTaskFromIsr(x) => ResumeFromIsrKeeps(k, x);
      case Prioritise(x, p) => SetPriorityKeeps(k, x, p); SetPrioritySpares(k, x, p);
    }
  }

  lemma WaitOutlives(k: K, op: Op, e: Timed)
    requires Inv(k) && Enabled(k, op) && Waits(k, e) && !Touches(k, op, e.task)
    ensures WaitGoal(Step(k, op), e)
  {
    hide *;
    match op {
      case TickInterrupt => WaitOutlivesInterrupt(k, op, e);
      case Yield => WaitOutlivesInterrupt(k, op, e);
      case Suspend => WaitOutlivesInterrupt(k, op, e);
      case Resume => WaitOutlivesInterrupt(k, op, e);
      case CatchUp(_) => WaitOutlivesInterrupt(k, op, e);
      case Delay(_) => WaitOutlivesBlocking(k, op, e);
      case Await(_, _) => WaitOutlivesBlocking(k, op, e);
      case AwaitUnordered(_, _, _) => WaitOutlivesBlocking(k, op, e);
      case Notify(_) => WaitOutlivesBlocking(k, op, e);
      case NotifyUnordered(_, _) => WaitOutlivesBlocking(k, op, e);
      case Restore => WaitOutlivesBlocking(k, op, e);
      case _ => WaitOutlivesTasks(k, op, e);
    }
  }

  ghost predicate Untouched(k: K, ops: seq<Op>, x: TaskId)
    requires Inv(k) && Run(k, ops)
    decreases |ops|
  {
    ops != [] ==> !Touches(k, ops[0], x) && (StepKeeps(k, ops[0]); Untouched(Step(k, ops[0]), ops[1..], x))
  }

  lemma {:induction false} WaitLasts(k: K, ops: seq<Op>, e: Timed)
    requires Inv(k) && Run(k, ops) && Waits(k, e) && Untouched(k, ops, e.task)
    requires After(k, ops).tick < e.time
    ensures Waits(After(k, ops), e)
    decreases |ops|
  {
    hide Inv, Step, Enabled, Touches, Waits;
    if ops != [] {
      var r := Step(k, ops[0]);
      StepKeeps(k, ops[0]);
      WaitOutlives(k, ops[0], e);
      RunKeeps(r, ops[1..]);
      WaitLasts(r, ops[1..], e);
    }
  }

  /** The ticks a step blocks the running task for, unless it blocks indefinitely. */
  function BlocksFor(op: Op): nat {
    match op
    case Delay(n) => n
    case Await(_, n) => if n == MAX_DELAY then 0 else n
    case AwaitUnordered(_, _, n) => if n == MAX_DELAY then 0 else n
    case _ => 0
  }

  lemma BlockWaits(k: K, op: Op)
    requires Inv(k) && Enabled(k, op) && BlocksFor(op) > 0
    ensures Waits(Step(k, op), Timed(k.current, k.tick + BlocksFor(op)))
    ensures Step(k, op).tick == k.tick
  {
    hide Core, Top, Block, PlaceOnEvent, PlaceOnUnordered, Waiting, Joined;
    match op {
      case Delay(n) => BlockStep(k, n);
      case Await(e, n) => PlaceKeeps(k, e, n);
      case AwaitUnordered(e, v, n) => PlaceUnorderedKeeps(k, e, v, n);
    }
  }

  /** Exact timed wake-up: a task that blocks for n ticks at time t, and that no step unblocks,
      suspends or deletes, waits in the delayed list through any run while the clock is below t + n,
      and the very step that takes the clock to t + n (or past it, when pended ticks are unwound)
      takes it out and makes it ready. */
  lemma ExactWake(start: K, block: Op, ops: seq<Op>, next: Op)
    requires Inv(start) && Enabled(start, block) && BlocksFor(block) > 0
    requires var k := (StepKeeps(start, block); Step(start, block));
      && Run(k, ops) && Untouched(k, ops, start.current)
      && After(k, ops).tick < start.tick + BlocksFor(block)
      && Enabled(After(k, ops), next) && !Touches(After(k, ops), next, start.current)
    ensures var e := Timed(start.current, start.tick + BlocksFor(block));
      var m := (StepKeeps(start, block); After(Step(start, block), ops));
      var r := Step(m, next);
      && e in m.delayed
      && (e in r.delayed <==> r.tick < e.time)
      && (e.time <= r.tick ==> e.task in r.tasks && r.tasks[e.task].place == InReady)
  {
    hide Inv, Step, Enabled, Touches, Run, Untouched, After;
    var e := Timed(start.current, start.tick + BlocksFor(block));
    StepKeeps(start, block);
    BlockWaits(start, block);
    WaitLasts(Step(start, block), ops, e);
    WaitOutlives(After(Step(start, block), ops), next, e);
  }
}
