/** Fairness of the scheduler: how long a ready task of the highest priority can wait for its turn, over
    every run of the kernel, tasks of its priority coming and going meanwhile. */
module KernelFairness {
  import opened Rings
  import opened Kernel
  import opened KernelOps
  import opened KernelApi
  import opened KernelCalls
  import opened KernelTasks
  import opened KernelRuns
  import RoundRobin

  /** Task x is in the ready list of priority p. */
  ghost predicate InLine(k: K, x: TaskId, p: nat) {
    p < |k.ready| && k.ready[p].Valid() && x in k.ready[p].items
  }

  /** The measure of module RoundRobin for the ready list of priority p. */
  ghost function Turns(k: K, x: TaskId, p: nat, capacity: nat): nat
    requires InLine(k, x, p)
  {
    RoundRobin.Wait(k.ready[p], x, capacity)
  }

  /** From k to r task x stays in line and is not set back. */
  ghost predicate NotSetBack(k: K, r: K, x: TaskId, p: nat, capacity: nat) {
    InLine(k, x, p) && InLine(r, x, p) && Turns(r, x, p, capacity) <= Turns(k, x, p, capacity)
  }

  lemma Chain(a: K, b: K, c: K, x: TaskId, p: nat, capacity: nat)
    requires NotSetBack(a, b, x, p, capacity) && NotSetBack(b, c, x, p, capacity)
    ensures NotSetBack(a, c, x, p, capacity)
  {
  }

  lemma SameReady(k: K, r: K, x: TaskId, p: nat, capacity: nat)
    requires InLine(k, x, p) && r.ready == k.ready
    ensures NotSetBack(k, r, x, p, capacity)
  {
  }

  lemma RingsValid(k: K)
    requires Shape(k)
    ensures forall q | 0 <= q < |k.ready| :: k.ready[q].Valid()
    ensures forall q | 0 <= q < |k.ready| :: forall y | y in k.ready[q].items ::
              y in k.tasks && k.tasks[y].place == InReady && k.tasks[y].priority == q
    ensures forall y | y in k.tasks && k.tasks[y].place == InReady ::
              k.tasks[y].priority < |k.ready| && y in k.ready[k.tasks[y].priority].items
  {
  }

  // ---------- list items of other tasks ----------

  lemma DetachLine(k: K, y: TaskId, x: TaskId, p: nat, capacity: nat)
    requires Shape(k) && InLine(k, x, p) && y in k.tasks && k.tasks[y].place != Nowhere && y != x
    ensures NotSetBack(k, Detach(k, y), x, p, capacity)
  {
    hide Shape, Count, RoundRobin.Wait, Remove, StateMove;
    RingsValid(k);
    if k.tasks[y].place == InReady {
      RemoveLine(k, k.tasks[y].priority, y, x, p, capacity);
    } else {
      DetachElsewhere(k, y);
      SameReady(k, Detach(k, y), x, p, capacity);
    }
  }

  lemma DetachElsewhere(k: K, y: TaskId)
    requires Shape(k) && y in k.tasks && k.tasks[y].place != Nowhere && k.tasks[y].place != InReady
    ensures Detach(k, y).ready == k.ready
  {
    hide Shape, Count;
  }

  lemma RemoveLine(k: K, q: nat, y: TaskId, x: TaskId, p: nat, capacity: nat)
    requires InLine(k, x, p) && q < |k.ready| && k.ready[q].Valid() && y in k.ready[q].items && y != x
    ensures NotSetBack(k, k.(ready := k.ready[q := Remove(k.ready[q], y)]), x, p, capacity)
  {
    hide RoundRobin.Wait;
    if q == p {
      RoundRobin.WaitStep(k.ready[p], RoundRobin.Drop(y), x, capacity);
    }
  }

  lemma AddReadyLine(k: K, y: TaskId, x: TaskId, p: nat, capacity: nat)
    requires Shape(k) && InLine(k, x, p) && y in k.tasks && k.tasks[y].place == Nowhere
    ensures NotSetBack(k, AddReady(k, y), x, p, capacity)
  {
    hide Shape, Count, RoundRobin.Wait, InsertEnd;
    RingsValid(k);
    PriorityKnown(k, y);
    InsertLine(k, k.tasks[y].priority, y, x, p, capacity);
  }

  lemma PriorityKnown(k: K, y: TaskId)
    requires Shape(k) && y in k.tasks
    ensures k.tasks[y].priority < |k.ready|
  {
  }

  lemma InsertLine(k: K, q: nat, y: TaskId, x: TaskId, p: nat, capacity: nat)
    requires InLine(k, x, p) && q < |k.ready| && k.ready[q].Valid() && y !in k.ready[q].items
    ensures NotSetBack(k, k.(ready := k.ready[q := InsertEnd(k.ready[q], y)]), x, p, capacity)
  {
    hide RoundRobin.Wait;
    if q == p {
      RoundRobin.WaitStep(k.ready[p], RoundRobin.Add(y), x, capacity);
    }
  }

  lemma ToReadyLine(k: K, y: TaskId, x: TaskId, p: nat, capacity: nat)
    requires Shape(k) && InLine(k, x, p) && y in k.tasks && k.tasks[y].place != Nowhere && y != x
    ensures NotSetBack(k, ToReady(k, y), x, p, capacity)
  {
    hide Shape, Detach, AddReady, NotSetBack, InLine;
    DetachLine(k, y, x, p, capacity);
    LineOf(k, Detach(k, y), x, p, capacity);
    AddReadyLine(Detach(k, y), y, x, p, capacity);
    Chain(k, Detach(k, y), ToReady(k, y), x, p, capacity);
  }

  lemma LineOf(k: K, r: K, x: TaskId, p: nat, capacity: nat)
    requires NotSetBack(k, r, x, p, capacity)
    ensures InLine(r, x, p)
  {
  }

  lemma WakeLine(k: K, y: TaskId, x: TaskId, p: nat, capacity: nat)
    requires Shape(k) && InLine(k, x, p) && y in k.tasks && k.tasks[y].place != Nowhere && y != x
    ensures NotSetBack(k, Wake(k, y), x, p, capacity)
  {
    hide Shape, DropEvent, ToReady, NotSetBack, InLine;
    SameReady(k, DropEvent(k, y), x, p, capacity);
    LineOf(k, DropEvent(k, y), x, p, capacity);
    ToReadyLine(DropEvent(k, y), y, x, p, capacity);
    Chain(k, DropEvent(k, y), Wake(k, y), x, p, capacity);
  }

  // ---------- the switch ----------

  /** The scheduler picks the next task, and priority p is the highest with a ready one. */
  ghost predicate OnTop(k: K, p: nat) {
    k.nesting == 0 && forall q | p < q < |k.ready| :: k.ready[q].items == []
  }

  /** A switch selects x, or brings its turn nearer if its priority is the highest. */
  lemma SwitchLine(k: K, x: TaskId, p: nat, capacity: nat)
    requires Core(k) && InLine(k, x, p) && |k.ready[p].items| <= capacity
    ensures var r := SwitchContext(k);
      && (r.current == x || NotSetBack(k, r, x, p, capacity))
      && (OnTop(k, p) && r.current != x ==> Turns(r, x, p, capacity) < Turns(k, x, p, capacity))
  {
    hide Core, RoundRobin.Wait;
    if k.nesting != 0 {
      SameReady(k, SwitchContext(k), x, p, capacity);
    } else {
      IdleIsReady(k);
      var q := TopPriority(k.ready);
      if q == p {
        RoundRobin.WaitStep(k.ready[p], RoundRobin.Advance, x, capacity);
      }
      if OnTop(k, p) {
        assert q == p;
      }
    }
  }

  lemma SwitchItems(k: K)
    requires Core(k)
    ensures var r := SwitchContext(k);
      |r.ready| == |k.ready| && forall q | 0 <= q < |k.ready| :: r.ready[q].items == k.ready[q].items
  {
    hide Core;
    if k.nesting == 0 {
      IdleIsReady(k);
    }
  }

  /** What one step does for x: it is the running task, or not set back, and a step that is a turn for
      priority p brings it nearer. */
  ghost predicate Progress(k: K, r: K, x: TaskId, p: nat, capacity: nat, turn: bool) {
    || r.current == x
    || (NotSetBack(k, r, x, p, capacity) && (turn ==> Turns(r, x, p, capacity) < Turns(k, x, p, capacity)))
  }

  /** A step that may end with a switch. */
  lemma ThenSwitch(k: K, m: K, x: TaskId, p: nat, capacity: nat)
    requires NotSetBack(k, m, x, p, capacity) && Core(m)
    requires var r := SwitchContext(m); p < |r.ready| && |r.ready[p].items| <= capacity
    ensures Progress(k, SwitchContext(m), x, p, capacity, OnTop(m, p))
  {
    hide Core, SwitchContext, RoundRobin.Wait;
    SwitchItems(m);
    SwitchLine(m, x, p, capacity);
  }

  lemma InPlace(k: K, x: TaskId, p: nat)
    requires Shape(k) && InLine(k, x, p)
    ensures x in k.tasks && k.tasks[x].place == InReady && k.tasks[x].priority == p
  {
  }

  // ---------- the tick ----------

  lemma {:induction false} ExpireLine(k: K, x: TaskId, p: nat, capacity: nat)
    requires Core(k) && InLine(k, x, p)
    ensures NotSetBack(k, Expire(k).0, x, p, capacity)
    decreases |k.delayed|
  {
    hide Core, Shape, Wake, InLine, NotSetBack;
    CoreCurrent(k);
    if k.delayed != [] && k.delayed[0].time <= k.tick {
      var y := k.delayed[0].task;
      InPlace(k, x, p);
      WakeHead(k);
      WakeKeeps(k, y);
      var w := Wake(k, y);
      WakeLine(k, y, x, p, capacity);
      LineOf(k, w, x, p, capacity);
      ExpireLine(w, x, p, capacity);
      Chain(k, w, Expire(w).0, x, p, capacity);
    } else {
      SameReady(k, k, x, p, capacity);
    }
  }

  lemma TickOnceLine(k: K, x: TaskId, p: nat, capacity: nat)
    requires Core(k) && InLine(k, x, p)
    ensures NotSetBack(k, TickOnce(k).0, x, p, capacity)
  {
    hide Core, Expire;
    var n := k.(tick := k.tick + 1);
    LaterCore(k, k.tick + 1);
    SameReady(k, n, x, p, capacity);
    ExpireLine(n, x, p, capacity);
  }

  lemma {:induction false} UnwindLine(k: K, n: nat, x: TaskId, p: nat, capacity: nat)
    requires Core(k) && Future(k) && k.nesting == 0 && InLine(k, x, p)
    ensures NotSetBack(k, Unwind(k, n), x, p, capacity)
    decreases n
  {
    hide Core, Future, Counted, InLine, NotSetBack;
    if n == 0 {
      SameReady(k, k, x, p, capacity);
    } else {
      CountedKeeps(k);
      CountedLine(k, x, p, capacity);
      LineOf(k, Counted(k), x, p, capacity);
      UnwindLine(Counted(k), n - 1, x, p, capacity);
      Chain(k, Counted(k), Unwind(k, n), x, p, capacity);
    }
  }

  lemma CountedLine(k: K, x: TaskId, p: nat, capacity: nat)
    requires Core(k) && k.nesting == 0 && InLine(k, x, p)
    ensures NotSetBack(k, Counted(k), x, p, capacity)
  {
    hide Core, TickOnce, InLine, NotSetBack;
    TickOnceLine(k, x, p, capacity);
    LineOf(k, TickOnce(k).0, x, p, capacity);
    SameReady(TickOnce(k).0, Counted(k), x, p, capacity);
    Chain(k, TickOnce(k).0, Counted(k), x, p, capacity);
  }

  lemma {:induction false} DrainLine(k: K, x: TaskId, p: nat, capacity: nat)
    requires Core(k) && InLine(k, x, p)
    ensures NotSetBack(k, Drain(k), x, p, capacity)
    decreases |k.pending|
  {
    hide Core, Shape, Wake, InLine, NotSetBack;
    CoreCurrent(k);
    if k.pending == [] {
      SameReady(k, k, x, p, capacity);
    } else {
      PendingHead(k);
      InPlace(k, x, p);
      var y := k.pending[0];
      WakeKeeps(k, y);
      var w := Wake(k, y);
      var above := w.yieldPending || w.tasks[y].priority >= w.tasks[w.current].priority;
      var f := w.(yieldPending := above);
      FlagCore(w, above, w.nesting, w.pendedTicks);
      WakeLine(k, y, x, p, capacity);
      LineOf(k, w, x, p, capacity);
      SameReady(w, f, x, p, capacity);
      LineOf(w, f, x, p, capacity);
      DrainLine(f, x, p, capacity);
      Chain(k, w, f, x, p, capacity);
      Chain(k, f, Drain(k), x, p, capacity);
    }
  }

  // ---------- every step ----------

  /** The step gives a turn to priority p: a yield while p is the highest priority with a ready task, or
      a tick in the time slice of another task of priority p that leaves nothing ready above. */
  ghost predicate IsTurn(k: K, op: Op, r: K, x: TaskId, p: nat) {
    || (op.Yield? && OnTop(k, p))
    || (op.TickInterrupt? && OnTop(r, p) && k.current != x && InLine(k, k.current, p))
  }

  ghost predicate Goal(k: K, op: Op, r: K, x: TaskId, p: nat, capacity: nat) {
    Progress(k, r, x, p, capacity, IsTurn(k, op, r, x, p))
  }

  /** What is known of a step when it is looked at for x. */
  ghost predicate Given(k: K, r: K, x: TaskId, p: nat, capacity: nat) {
    InLine(k, x, p) && InLine(r, x, p) && p < |r.ready| && |r.ready[p].items| <= capacity
  }

  lemma TickLine(k: K, x: TaskId, p: nat, capacity: nat)
    requires Inv(k) && Given(k, TickIsr(k), x, p, capacity)
    ensures Goal(k, TickInterrupt, TickIsr(k), x, p, capacity)
  {
    hide Core, Top, TickOnce, SwitchContext, Progress, NotSetBack;
    CoreCurrent(k);
    if k.nesting == 0 {
      TickOnceKeeps(k);
      var (m, due) := IncrementTick(k);
      TickOnceLine(k, x, p, capacity);
      if due {
        ThenSwitch(k, m, x, p, capacity);
        SwitchItems(m);
        SwitchContextKeeps(m);
        AtLeast(k, m, TickIsr(k), TickInterrupt, x, p, capacity);
      } else {
        NoSlice(k, m, x, p, capacity);
      }
    } else {
      var m := k.(pendedTicks := k.pendedTicks + 1);
      SameReady(k, m, x, p, capacity);
      NoTurn(k, m, TickInterrupt, x, p, capacity);
    }
  }

  lemma NoTurn(k: K, r: K, op: Op, x: TaskId, p: nat, capacity: nat)
    requires NotSetBack(k, r, x, p, capacity) && !IsTurn(k, op, r, x, p)
    ensures Goal(k, op, r, x, p, capacity)
  {
  }

  lemma AtLeast(k: K, m: K, r: K, op: Op, x: TaskId, p: nat, capacity: nat)
    requires Progress(k, r, x, p, capacity, OnTop(m, p)) && op.TickInterrupt?
    requires |r.ready| == |m.ready| && r.nesting == m.nesting
    requires forall q | 0 <= q < |m.ready| :: r.ready[q].items == m.ready[q].items
    ensures Goal(k, op, r, x, p, capacity)
  {
    hide NotSetBack;
  }

  lemma LineFrom(k: K, r: K, x: TaskId, p: nat, capacity: nat)
    requires NotSetBack(k, r, x, p, capacity)
    ensures InLine(k, x, p)
  {
  }

  /** Two ready tasks of the running task's priority share its time slices. */
  lemma TwoReady(k: K, x: TaskId, p: nat)
    requires Core(k) && InLine(k, x, p) && InLine(k, k.current, p) && k.current != x
    ensures TickOnce(k).1
  {
    hide Core, Shape, Expire, InLine;
    CoreCurrent(k);
    InPlace(k, x, p);
    InPlace(k, k.current, p);
    var n := k.(tick := k.tick + 1);
    LaterCore(k, k.tick + 1);
    ExpireKeeps(n);
    ExpireOthers(n, x);
    ExpireOthers(n, k.current);
    var r := Expire(n).0;
    CoreCurrent(r);
    RingsValid(r);
    var items := r.ready[p].items;
    assert x in items && k.current in items;
    assert |items| > 1;
  }

  /** Without a switch no other task of the priority had the time slice. */
  lemma NoSlice(k: K, m: K, x: TaskId, p: nat, capacity: nat)
    requires Core(k) && k.nesting == 0 && m == TickOnce(k).0 && !TickOnce(k).1 && Core(m)
    requires NotSetBack(k, m, x, p, capacity)
    ensures Goal(k, TickInterrupt, m, x, p, capacity)
  {
    hide Core, TickOnce, InLine, NotSetBack;
    LineFrom(k, m, x, p, capacity);
    if k.current != x && InLine(k, k.current, p) {
      TwoReady(k, x, p);
    }
    NoTurn(k, m, TickInterrupt, x, p, capacity);
  }

  lemma PlainLine(k: K, op: Op, r: K, x: TaskId, p: nat, capacity: nat)
    requires NotSetBack(k, r, x, p, capacity) && !op.Yield? && !op.TickInterrupt?
    ensures Goal(k, op, r, x, p, capacity)
  {
    hide NotSetBack;
  }

  lemma SwitchedLine(k: K, op: Op, m: K, x: TaskId, p: nat, capacity: nat)
    requires NotSetBack(k, m, x, p, capacity) && Core(m) && !op.Yield? && !op.TickInterrupt?
    requires var r := SwitchContext(m); p < |r.ready| && |r.ready[p].items| <= capacity
    ensures Goal(k, op, SwitchContext(m), x, p, capacity)
  {
    hide Core, SwitchContext, NotSetBack;
    ThenSwitch(k, m, x, p, capacity);
  }

  lemma YieldLine(k: K, x: TaskId, p: nat, capacity: nat)
    requires Inv(k) && Given(k, SwitchContext(k), x, p, capacity)
    ensures Goal(k, Yield, SwitchContext(k), x, p, capacity)
  {
    hide Core, SwitchContext, NotSetBack;
    SameReady(k, k, x, p, capacity);
    ThenSwitch(k, k, x, p, capacity);
  }

  lemma ResumeLine(k: K, x: TaskId, p: nat, capacity: nat)
    requires Inv(k) && k.nesting > 0 && Given(k, ResumeAll(k).0, x, p, capacity)
    ensures Goal(k, Resume, ResumeAll(k).0, x, p, capacity)
  {
    hide Core, Top, Drain, Unwind, SwitchContext, NotSetBack;
    CoreCurrent(k);
    FlagCore(k, k.yieldPending, k.nesting - 1, k.pendedTicks);
    var k1 := k.(nesting := k.nesting - 1);
    SameReady(k, k1, x, p, capacity);
    if k1.nesting > 0 {
      PlainLine(k, Resume, k1, x, p, capacity);
    } else {
      CatchLine(k, k1, x, p, capacity);
    }
  }

  lemma CatchLine(k: K, k1: K, x: TaskId, p: nat, capacity: nat)
    requires Core(k1) && Future(k1) && k1.nesting == 0 && NotSetBack(k, k1, x, p, capacity)
    requires var r := Catch(k1).0; p < |r.ready| && |r.ready[p].items| <= capacity
    ensures Goal(k, Resume, Catch(k1).0, x, p, capacity)
  {
    hide Core, Top, Drain, Unwind, SwitchContext, NotSetBack, InLine;
    DrainKeeps(k1);
    var k2 := Drain(k1);
    UnwindKeeps(k2, k2.pendedTicks);
    var k3 := Unwind(k2, k2.pendedTicks);
    FlagCore(k3, k3.yieldPending, 0, 0);
    var k4 := k3.(pendedTicks := 0);
    LineOf(k, k1, x, p, capacity);
    DrainLine(k1, x, p, capacity);
    Chain(k, k1, k2, x, p, capacity);
    LineOf(k, k2, x, p, capacity);
    UnwindLine(k2, k2.pendedTicks, x, p, capacity);
    Chain(k, k2, k3, x, p, capacity);
    LineOf(k, k3, x, p, capacity);
    SameReady(k3, k4, x, p, capacity);
    Chain(k, k3, k4, x, p, capacity);
    if k4.yieldPending {
      SwitchedLine(k, Resume, k4, x, p, capacity);
    } else {
      PlainLine(k, Resume, k4, x, p, capacity);
    }
  }

  /** Steps made by interrupts and by the switch itself. */
  lemma InterruptLine(k: K, op: Op, x: TaskId, p: nat, capacity: nat)
    requires Inv(k) && Enabled(k, op) && Given(k, Step(k, op), x, p, capacity)
    requires op.TickInterrupt? || op.Yield? || op.Suspend? || op.Resume? || op.CatchUp?
    ensures Goal(k, op, Step(k, op), x, p, capacity)
  {
    hide Core, Top, SwitchContext, ResumeAll, TickIsr, NotSetBack, Goal;
    match op {
      case TickInterrupt => TickLine(k, x, p, capacity);
      case Yield => YieldLine(k, x, p, capacity);
      case Suspend =>
        SameReady(k, SuspendAll(k), x, p, capacity);
        PlainLine(k, op, SuspendAll(k), x, p, capacity);
      case Resume => ResumeLine(k, x, p, capacity);
      case CatchUp(n) =>
        SameReady(k, k.(pendedTicks := k.pendedTicks + n), x, p, capacity);
        PlainLine(k, op, k.(pendedTicks := k.pendedTicks + n), x, p, capacity);
    }
  }

  // ---------- blocking and waking ----------

  lemma BlockLine(k: K, n: nat, indefinitely: bool, x: TaskId, p: nat, capacity: nat)
    requires Shape(k) && InLine(k, x, p) && k.current in k.tasks && k.tasks[k.current].place == InReady && k.current != x
    ensures NotSetBack(k, Block(k, n, indefinitely), x, p, capacity)
  {
    hide Shape, Detach, AddSuspended, AddDelayed, NotSetBack, InLine;
    var d, r := Detach(k, k.current), Block(k, n, indefinitely);
    DetachLine(k, k.current, x, p, capacity);
    LineOf(k, d, x, p, capacity);
    SameReady(d, r, x, p, capacity);
    Chain(k, d, r, x, p, capacity);
  }

  lemma BlockCurrent(k: K, n: nat, indefinitely: bool)
    requires Shape(k) && k.current in k.tasks && k.tasks[k.current].place == InReady
    ensures Block(k, n, indefinitely).current == k.current
  {
    hide Shape, Detach, AddSuspended, AddDelayed;
  }

  /** Blocking, after the event item of the running task was placed. */
  lemma PlacedLine(k: K, op: Op, m: K, n: nat, indefinitely: bool, x: TaskId, p: nat, capacity: nat)
    requires InLine(k, x, p) && Shape(m) && m.ready == k.ready && m.current == k.current
    requires m.current in m.tasks && m.tasks[m.current].place == InReady
    requires !op.Yield? && !op.TickInterrupt?
    ensures Goal(k, op, Block(m, n, indefinitely), x, p, capacity)
  {
    hide Shape, Block, NotSetBack, InLine;
    var r := Block(m, n, indefinitely);
    if k.current == x {
      BlockCurrent(m, n, indefinitely);
    } else {
      SameReady(k, m, x, p, capacity);
      LineOf(k, m, x, p, capacity);
      BlockLine(m, n, indefinitely, x, p, capacity);
      Chain(k, m, r, x, p, capacity);
      PlainLine(k, op, r, x, p, capacity);
    }
  }

  /** A waiting task, off its event list, becomes ready or is left for later. */
  lemma WokenLine(k: K, op: Op, d: K, y: TaskId, r: K, x: TaskId, p: nat, capacity: nat)
    requires InLine(k, x, p) && Shape(k) && Shape(d) && d.ready == k.ready
    requires y in d.tasks && d.tasks[y].place != Nowhere && y in k.tasks && k.tasks[y].place != InReady
    requires r.ready == k.ready || r.ready == ToReady(d, y).ready
    requires !op.Yield? && !op.TickInterrupt?
    ensures Goal(k, op, r, x, p, capacity)
  {
    hide Shape, ToReady, NotSetBack, InLine;
    InPlace(k, x, p);
    SameReady(k, d, x, p, capacity);
    LineOf(k, d, x, p, capacity);
    if r.ready == k.ready {
      SameReady(k, r, x, p, capacity);
    } else {
      ToReadyLine(d, y, x, p, capacity);
      LineOf(d, ToReady(d, y), x, p, capacity);
      SameReady(ToReady(d, y), r, x, p, capacity);
      Chain(k, d, ToReady(d, y), x, p, capacity);
      Chain(k, ToReady(d, y), r, x, p, capacity);
    }
    PlainLine(k, op, r, x, p, capacity);
  }

  lemma SignalLine(k: K, e: EventId, x: TaskId, p: nat, capacity: nat)
    requires Inv(k) && e in k.events && k.events[e] != [] && InLine(k, x, p)
    ensures Goal(k, Notify(e), Signal(k, e).0, x, p, capacity)
  {
    hide Core, Shape, ToReady, AddPending, DropEvent, Top, Goal, InLine;
    CoreCurrent(k);
    EventHead(k, e);
    var y := k.events[e][0];
    DropEventKeeps(k, y);
    var d := DropEvent(k, y);
    CoreCurrent(d);
    WokenLine(k, Notify(e), d, y, Signal(k, e).0, x, p, capacity);
  }

  lemma SignalUnorderedLine(k: K, y: TaskId, value: nat, x: TaskId, p: nat, capacity: nat)
    requires Inv(k) && k.nesting > 0 && y in k.tasks && k.tasks[y].event.OnEvent? && InLine(k, x, p)
    ensures Goal(k, NotifyUnordered(y, value), SignalUnordered(k, y, value), x, p, capacity)
  {
    hide Core, Shape, ToReady, DropEvent, Top, Goal, InLine;
    CoreCurrent(k);
    BlockedWaiter(k, y);
    DropEventKeeps(k, y);
    var d := DropEvent(k, y);
    ValueKeeps(d, y, value);
    var v := d.(tasks := d.tasks[y := d.tasks[y].(eventValue := value)]);
    CoreCurrent(v);
    WokenLine(k, NotifyUnordered(y, value), v, y, SignalUnordered(k, y, value), x, p, capacity);
  }

  /** Steps by which the running task blocks and by which tasks are woken. */
  lemma BlockingLine(k: K, op: Op, x: TaskId, p: nat, capacity: nat)
    requires Inv(k) && Enabled(k, op) && InLine(k, x, p)
    requires op.Delay? || op.Await? || op.AwaitUnordered? || op.Notify? || op.NotifyUnordered? || op.Restore?
    ensures Goal(k, op, Step(k, op), x, p, capacity)
  {
    hide Core, Shape, Top, Block, AddEvent, AppendEvent, Signal, SignalUnordered, Goal, InLine, NotSetBack;
    CoreCurrent(k);
    match op {
      case Restore =>
        SameReady(k, RestoreItem(k), x, p, capacity);
        PlainLine(k, op, RestoreItem(k), x, p, capacity);
      case Delay(n) => PlacedLine(k, op, k, n, false, x, p, capacity);
      case Await(e, n) =>
        AddEventBase(k, e);
        PlacedLine(k, op, AddEvent(k, k.current, e), n, true, x, p, capacity);
      case AwaitUnordered(e, v, n) =>
        AppendEventBase(k, e, v);
        PlacedLine(k, op, AppendEvent(k, k.current, e, v), n, true, x, p, capacity);
      case Notify(e) => SignalLine(k, e, x, p, capacity);
      case NotifyUnordered(y, v) => SignalUnorderedLine(k, y, v, x, p, capacity);
    }
  }

  // ---------- task management ----------

  lemma CreateLine(k: K, y: TaskId, priority: nat, x: TaskId, p: nat, capacity: nat)
    requires Inv(k) && y !in k.tasks && Given(k, Create(k, y, priority), x, p, capacity)
    ensures Goal(k, NewTask(y, priority), Create(k, y, priority), x, p, capacity)
  {
    hide Core, Shape, Top, SwitchContext, AddReady, Goal, InLine, NotSetBack;
    CoreCurrent(k);
    CreatedCore(k, y, priority);
    var q := if priority >= |k.ready| then |k.ready| - 1 else priority;
    AdmitShape(k, y, q);
    var a, m := Admit(k, y, q), Created(k, y, priority);
    SameReady(k, a, x, p, capacity);
    LineOf(k, a, x, p, capacity);
    AddReadyLine(a, y, x, p, capacity);
    Chain(k, a, m, x, p, capacity);
    if k.tasks[k.current].priority < m.tasks[y].priority {
      SwitchedLine(k, NewTask(y, priority), m, x, p, capacity);
    } else {
      PlainLine(k, NewTask(y, priority), m, x, p, capacity);
    }
  }

  lemma FreedLine(k: K, y: TaskId, x: TaskId, p: nat, capacity: nat)
    requires Shape(k) && InLine(k, x, p) && y in k.tasks && k.tasks[y].place != Nowhere && y != x
    ensures NotSetBack(k, Freed(k, y), x, p, capacity)
  {
    hide Shape, DropEvent, Detach, NotSetBack, InLine;
    var d := DropEvent(k, y);
    SameReady(k, d, x, p, capacity);
    LineOf(k, d, x, p, capacity);
    DetachLine(d, y, x, p, capacity);
    Chain(k, d, Freed(k, y), x, p, capacity);
  }

  /** Off every list, and perhaps on another that is not a ready list. */
  lemma FreedThen(k: K, op: Op, y: TaskId, r: K, x: TaskId, p: nat, capacity: nat)
    requires Shape(k) && InLine(k, x, p) && y in k.tasks && k.tasks[y].place != Nowhere && y != x
    requires r.ready == Freed(k, y).ready && !op.Yield? && !op.TickInterrupt?
    ensures Goal(k, op, r, x, p, capacity)
  {
    hide Shape, Freed, NotSetBack, InLine;
    FreedLine(k, y, x, p, capacity);
    LineOf(k, Freed(k, y), x, p, capacity);
    SameReady(Freed(k, y), r, x, p, capacity);
    Chain(k, Freed(k, y), r, x, p, capacity);
    PlainLine(k, op, r, x, p, capacity);
  }

  lemma ReapLine(k: K, x: TaskId, p: nat, capacity: nat)
    requires Core(k) && k.termination != [] && InLine(k, x, p)
    ensures Goal(k, CleanUp, Reap(k), x, p, capacity)
  {
    hide Core, Shape, Detach, NotSetBack, InLine;
    ReapHead(k);
    InPlace(k, x, p);
    var y := k.termination[0];
    var d := Detach(k, y);
    DetachLine(k, y, x, p, capacity);
    LineOf(k, d, x, p, capacity);
    SameReady(d, Reap(k), x, p, capacity);
    Chain(k, d, Reap(k), x, p, capacity);
    PlainLine(k, CleanUp, Reap(k), x, p, capacity);
  }

  /** Steps that take a task off its lists. */
  lemma LeavingLine(k: K, op: Op, x: TaskId, p: nat, capacity: nat)
    requires Inv(k) && Enabled(k, op) && Given(k, Step(k, op), x, p, capacity) && Inv(Step(k, op))
    requires op.KillTask? || op.KillSelf? || op.CleanUp? || op.StopTask?
    ensures Goal(k, op, Step(k, op), x, p, capacity)
  {
    hide Core, Shape, Top, Freed, AddTermination, AddSuspended, Reap, Goal, InLine;
    CoreCurrent(k);
    CoreCurrent(Step(k, op));
    InPlace(k, x, p);
    InPlace(Step(k, op), x, p);
    match op {
      case KillTask(y) =>
        DeleteKeeps(k, y);
        PlacedSomewhere(k, y);
        FreedThen(k, op, y, Delete(k, y), x, p, capacity);
      case KillSelf =>
        DeleteSelfKeeps(k);
        FreedKeeps(k, k.current);
        PlacedSomewhere(k, k.current);
        FreedThen(k, op, k.current, DeleteSelf(k), x, p, capacity);
      case CleanUp => ReapLine(k, x, p, capacity);
      case StopTask(y) =>
        SuspendTaskKeeps(k, y);
        FreedKeeps(k, y);
        PlacedSomewhere(k, y);
        FreedThen(k, op, y, SuspendTask(k, y), x, p, capacity);
    }
  }

  lemma StartLine(k: K, y: TaskId, x: TaskId, p: nat, capacity: nat)
    requires Inv(k) && y in k.tasks && Given(k, ResumeTask(k, y), x, p, capacity)
    ensures Goal(k, StartTask(y), ResumeTask(k, y), x, p, capacity)
  {
    hide Core, Shape, Top, SwitchContext, ToReady, Goal, InLine, NotSetBack;
    CoreCurrent(k);
    InPlace(k, x, p);
    if y != k.current && IsSuspended(k.tasks[y]) {
      ToReadyKeeps(k, y);
      var m := ToReady(k, y);
      ToReadyLine(k, y, x, p, capacity);
      if k.tasks[y].priority >= k.tasks[k.current].priority {
        SwitchedLine(k, StartTask(y), m, x, p, capacity);
      } else {
        PlainLine(k, StartTask(y), m, x, p, capacity);
      }
    } else {
      SameReady(k, k, x, p, capacity);
      PlainLine(k, StartTask(y), k, x, p, capacity);
    }
  }

  lemma StartFromIsrLine(k: K, y: TaskId, x: TaskId, p: nat, capacity: nat)
    requires Inv(k) && y in k.tasks && InLine(k, x, p)
    ensures Goal(k, StartTaskFromIsr(y), ResumeFromIsr(k, y).0, x, p, capacity)
  {
    hide Core, Shape, Top, ToReady, AddPending, Goal, InLine, NotSetBack;
    CoreCurrent(k);
    if IsSuspended(k.tasks[y]) {
      WokenLine(k, StartTaskFromIsr(y), k, y, ResumeFromIsr(k, y).0, x, p, capacity);
    } else {
      SameReady(k, k, x, p, capacity);
      PlainLine(k, StartTaskFromIsr(y), k, x, p, capacity);
    }
  }

  lemma RefileLine(k: K, y: TaskId, q: nat, x: TaskId, p: nat, capacity: nat)
    requires Shape(k) && InLine(k, x, p) && y in k.tasks && q < |k.ready| && y != x
    ensures NotSetBack(k, Refile(k, y, q), x, p, capacity)
  {
    hide Shape, Detach, AddReady, NotSetBack, InLine, Retuned;
    if k.tasks[y].place == InReady {
      var d := Detach(k, y);
      RetuneShape(d, y, q);
      var t := Retune(d, y, q);
      DetachLine(k, y, x, p, capacity);
      LineOf(k, d, x, p, capacity);
      SameReady(d, t, x, p, capacity);
      LineOf(d, t, x, p, capacity);
      RetunedPlace(d.tasks[y], q, |d.ready|);
      AddReadyLine(t, y, x, p, capacity);
      Chain(k, d, t, x, p, capacity);
      Chain(k, t, Refile(k, y, q), x, p, capacity);
    } else {
      SameReady(k, Refile(k, y, q), x, p, capacity);
    }
  }

  lemma RetunedPlace(t: Tcb, p: nat, priorities: nat)
    ensures Retuned(t, p, priorities).place == t.place
  {
  }

  lemma PrioritiseLine(k: K, y: TaskId, priority: nat, x: TaskId, p: nat, capacity: nat)
    requires Inv(k) && y in k.tasks && Given(k, SetPriority(k, y, priority), x, p, capacity)
    requires Inv(SetPriority(k, y, priority))
    ensures Goal(k, Prioritise(y, priority), SetPriority(k, y, priority), x, p, capacity)
  {
    hide Core, Shape, Top, SwitchContext, Refile, Goal, InLine, NotSetBack;
    CoreCurrent(k);
    var r := SetPriority(k, y, priority);
    CoreCurrent(r);
    InPlace(k, x, p);
    InPlace(r, x, p);
    SetPriorityKeeps(k, y, priority);
    var q := if priority >= |k.ready| then |k.ready| - 1 else priority;
    if q == k.tasks[y].priority {
      SameReady(k, k, x, p, capacity);
      PlainLine(k, Prioritise(y, priority), k, x, p, capacity);
    } else {
      RefileKeeps(k, y, q);
      RefileLine(k, y, q, x, p, capacity);
      if YieldOnSet(k, y, q) {
        SwitchedLine(k, Prioritise(y, priority), Refile(k, y, q), x, p, capacity);
      } else {
        PlainLine(k, Prioritise(y, priority), Refile(k, y, q), x, p, capacity);
      }
    }
  }

  /** Steps that manage tasks. */
  lemma TaskLine(k: K, op: Op, x: TaskId, p: nat, capacity: nat)
    requires Inv(k) && Enabled(k, op) && Given(k, Step(k, op), x, p, capacity) && Inv(Step(k, op))
    requires op.NewTask? || op.KillTask? || op.KillSelf? || op.CleanUp?
          || op.StopTask? || op.StartTask? || op.StartTaskFromIsr? || op.Prioritise?
    ensures Goal(k, op, Step(k, op), x, p, capacity)
  {
    hide Inv, Core, Top, Create, Delete, DeleteSelf, Reap, SuspendTask, ResumeTask, ResumeFromIsr, SetPriority, Goal, InLine;
    match op {
      case NewTask(y, q) => CreateLine(k, y, q, x, p, capacity);
      case StartTask(y) => StartLine(k, y, x, p, capacity);
      case StartTaskFromIsr(y) => StartFromIsrLine(k, y, x, p, capacity);
      case Prioritise(y, q) => PrioritiseLine(k, y, q, x, p, capacity);
      case _ => LeavingLine(k, op, x, p, capacity);
    }
  }

  /** Every step: x runs, or is not set back, and a turn for its priority brings it nearer. */
  lemma StepLine(k: K, op: Op, x: TaskId, p: nat, capacity: nat)
    requires Inv(k) && Enabled(k, op) && Inv(Step(k, op)) && Given(k, Step(k, op), x, p, capacity)
    ensures Goal(k, op, Step(k, op), x, p, capacity)
  {
    hide Inv, Enabled, Step, Goal, InLine;
    match op {
      case TickInterrupt => InterruptLine(k, op, x, p, capacity);
      case Yield => InterruptLine(k, op, x, p, capacity);
      case Suspend => InterruptLine(k, op, x, p, capacity);
      case Resume => InterruptLine(k, op, x, p, capacity);
      case CatchUp(_) => InterruptLine(k, op, x, p, capacity);
      case Delay(_) => BlockingLine(k, op, x, p, capacity);
      case Await(_, _) => BlockingLine(k, op, x, p, capacity);
      case AwaitUnordered(_, _, _) => BlockingLine(k, op, x, p, capacity);
      case Notify(_) => BlockingLine(k, op, x, p, capacity);
      case NotifyUnordered(_, _) => BlockingLine(k, op, x, p, capacity);
      case Restore => BlockingLine(k, op, x, p, capacity);
      case _ => TaskLine(k, op, x, p, capacity);
    }
  }

  // ---------- runs ----------

  /** In every state of the run x is ready at priority p, with at most capacity tasks in that ready list. */
  ghost predicate StaysInLine(k: K, ops: seq<Op>, x: TaskId, p: nat, capacity: nat)
    requires Inv(k) && Run(k, ops)
    decreases |ops|
  {
    && InLine(k, x, p) && |k.ready[p].items| <= capacity
    && (ops != [] ==> (StepKeeps(k, ops[0]); StaysInLine(Step(k, ops[0]), ops[1..], x, p, capacity)))
  }

  /** How many steps of the run are turns for priority p. */
  ghost function TurnsGiven(k: K, ops: seq<Op>, x: TaskId, p: nat): nat
    requires Inv(k) && Run(k, ops)
    decreases |ops|
  {
    if ops == [] then 0
    else
      StepKeeps(k, ops[0]);
      (if IsTurn(k, ops[0], Step(k, ops[0]), x, p) then 1 else 0) + TurnsGiven(Step(k, ops[0]), ops[1..], x, p)
  }

  /** After some step of the run x is the running task. */
  ghost predicate Runs(k: K, ops: seq<Op>, x: TaskId)
    requires Inv(k) && Run(k, ops)
    decreases |ops|
  {
    ops != [] &&
    (StepKeeps(k, ops[0]); Step(k, ops[0]).current == x || Runs(Step(k, ops[0]), ops[1..], x))
  }

  lemma {:induction false} TurnsRunDown(k: K, ops: seq<Op>, x: TaskId, p: nat, capacity: nat)
    requires Inv(k) && Run(k, ops) && StaysInLine(k, ops, x, p, capacity)
    requires TurnsGiven(k, ops, x, p) > Turns(k, x, p, capacity)
    ensures Runs(k, ops, x)
    decreases |ops|
  {
    hide Inv, Enabled, Step, IsTurn, InLine;
    var r := Step(k, ops[0]);
    StepKeeps(k, ops[0]);
    FirstInLine(r, ops[1..], x, p, capacity);
    StepLine(k, ops[0], x, p, capacity);
    if r.current != x {
      TurnsRunDown(r, ops[1..], x, p, capacity);
    }
  }

  lemma FirstInLine(k: K, ops: seq<Op>, x: TaskId, p: nat, capacity: nat)
    requires Inv(k) && Run(k, ops) && StaysInLine(k, ops, x, p, capacity)
    ensures InLine(k, x, p) && |k.ready[p].items| <= capacity
  {
  }

  /** No starvation within a priority, over every run of tasks and interrupts: a task that stays ready,
      with at most capacity tasks of its priority ready at any time, runs at the latest at the
      2 * capacity-th turn its priority gets, by a yield or by the end of another task's time slice. */
  lemma NoStarvation(k: K, ops: seq<Op>, x: TaskId, p: nat, capacity: nat)
    requires Inv(k) && Run(k, ops) && StaysInLine(k, ops, x, p, capacity)
    requires TurnsGiven(k, ops, x, p) >= 2 * capacity
    ensures Runs(k, ops, x)
  {
    hide Inv, Run, StaysInLine, TurnsGiven, Runs;
    FirstInLine(k, ops, x, p, capacity);
    RoundRobin.WaitBound(k.ready[p], x, capacity);
    TurnsRunDown(k, ops, x, p, capacity);
  }
}
