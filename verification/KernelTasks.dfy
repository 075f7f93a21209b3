/** Creating, deleting, suspending, resuming and re-prioritising tasks on the specification state. */
module KernelTasks {
  import opened Rings
  import opened EventItems
  import opened Kernel
  import opened KernelOps
  import opened KernelApi

  /** A due switch moves nothing, so what was left alone stays so. */
  lemma SwitchBeside(k: K, m: K, x: TaskId)
    requires Core(m) && Beside(k, m, x) && Future(m) && Rested(m)
    ensures Inv(SwitchContext(m)) && Beside(k, SwitchContext(m), x)
  {
    hide Core, Top, SwitchContext;
    CoreCurrent(m);
    SwitchContextKeeps(m);
    CoreCurrent(SwitchContext(m));
  }

  /** The running task gives way: a ready task of maximum priority runs, or, while the scheduler is
      suspended, the switch is noted. */
  ghost predicate GaveWay(k: K, r: K) {
    if k.nesting == 0 then
      !r.yieldPending && r.current in r.tasks && r.tasks[r.current].place == InReady && Top(r)
    else
      r.yieldPending && r.current == k.current
  }

  /** The running task goes on, and no switch is asked for. */
  ghost predicate RunsOn(k: K, r: K) {
    r.current == k.current && r.yieldPending == k.yieldPending
  }

  /** Neither event lists nor the pending-ready list change. */
  ghost predicate SameEvents(k: K, r: K) {
    r.events == k.events && r.pending == k.pending
  }

  lemma SwitchGivesWay(k: K, m: K)
    requires Core(m) && m.nesting == k.nesting && m.current == k.current
    ensures var r := SwitchContext(m); GaveWay(k, r) && SameEvents(m, r) && r.tasks == m.tasks
  {
    hide Core, Top, SwitchContext;
    SwitchContextKeeps(m);
    CoreCurrent(SwitchContext(m));
  }

  // ---------- creating ----------

  /** A new control block, in no list yet. */
  ghost function Admit(k: K, x: TaskId, p: nat): K {
    k.(tasks := k.tasks[x := Tcb(p, if p <= |k.ready| then |k.ready| - p else 0, Nowhere, NoEvent)])
  }

  lemma AdmitState(k: K, x: TaskId, tcb: Tcb)
    requires Shape(k) && x !in k.tasks && tcb.priority < |k.ready| && tcb.place == Nowhere
    ensures StateSide(k.tasks[x := tcb], k.ready, k.delayed, k.suspended, k.termination)
  {
    hide EventSide;
    ReadyKept(k.tasks, k.ready, x, tcb);
    FilesKept(k.tasks, Names(k.delayed), InDelayed, x, tcb);
    FilesKept(k.tasks, k.suspended, InSuspended, x, tcb);
    FilesKept(k.tasks, k.termination, InTermination, x, tcb);
  }

  lemma AdmitShape(k: K, x: TaskId, p: nat)
    requires Shape(k) && x !in k.tasks && p < |k.ready|
    ensures Shape(Admit(k, x, p)) && Count(Admit(k, x, p)) == Count(k)
  {
    hide StateSide, EventSide, Load;
    var tcb := Tcb(p, |k.ready| - p, Nowhere, NoEvent);
    Retag(k, x, tcb);
    AdmitState(k, x, tcb);
  }

  /** xTaskCreate: a priority out of range is cut to the greatest one. */
  ghost function Created(k: K, x: TaskId, priority: nat): K
    requires Shape(k) && x !in k.tasks && |k.ready| > 0
  {
    var p := if priority >= |k.ready| then |k.ready| - 1 else priority;
    AdmitShape(k, x, p);
    AddReady(Admit(k, x, p), x)
  }

  lemma CreatedRecord(k: K, x: TaskId, priority: nat)
    requires Shape(k) && x !in k.tasks && |k.ready| > 0
    ensures var r, p := Created(k, x, priority), if priority >= |k.ready| then |k.ready| - 1 else priority;
      && Shape(r) && Count(r) == Count(k) + 1 && StateMove(k, r) && r.delayed == k.delayed
      && r.tasks == k.tasks[x := Tcb(p, |k.ready| - p, InReady, NoEvent)]
      && forall q | 0 <= q < |k.ready| && q != p :: r.ready[q] == k.ready[q]
  {
    hide Shape, Count, AddReady;
    AdmitShape(k, x, if priority >= |k.ready| then |k.ready| - 1 else priority);
  }

  lemma CreatedCore(k: K, x: TaskId, priority: nat)
    requires Core(k) && x !in k.tasks
    ensures |k.ready| > 0
    ensures var r := Created(k, x, priority);
      && Core(r) && StateMove(k, r) && r.tasks.Keys == k.tasks.Keys + {x} && r.delayed == k.delayed
      && r.tasks[x].priority == (if priority >= |k.ready| then |k.ready| - 1 else priority)
      && r.tasks[x].place == InReady
      && (forall y | y in k.tasks :: r.tasks[y] == k.tasks[y])
      && (Top(k) && r.tasks[x].priority <= k.tasks[k.current].priority ==> Top(r))
  {
    hide Shape, Count, Created, Sorted, Times;
    CoreCurrent(k);
    CreatedRecord(k, x, priority);
  }

  ghost function Create(k: K, x: TaskId, priority: nat): K
    requires Core(k) && x !in k.tasks
  {
    CreatedCore(k, x, priority);
    CoreCurrent(k);
    var r := Created(k, x, priority);
    if k.tasks[k.current].priority < r.tasks[x].priority then SwitchContext(r) else r
  }

  /** The new task is ready at the clipped priority, its event value showing it; if that is above the
      running task, the running task gives way. */
  lemma CreateReadies(k: K, x: TaskId, priority: nat)
    requires Inv(k) && x !in k.tasks
    ensures k.current in k.tasks && |k.ready| > 0
    ensures var r := Create(k, x, priority);
      var p := if priority >= |k.ready| then |k.ready| - 1 else priority;
      && r.tasks == k.tasks[x := Tcb(p, |k.ready| - p, InReady, NoEvent)] && SameEvents(k, r)
      && if p > k.tasks[k.current].priority then GaveWay(k, r) else RunsOn(k, r)
  {
    hide Core, Top, SwitchContext, Created, GaveWay, Shape, Count;
    CreatedCore(k, x, priority);
    CoreCurrent(k);
    CreatedRecord(k, x, priority);
    var r := Created(k, x, priority);
    if k.tasks[k.current].priority < r.tasks[x].priority {
      SwitchGivesWay(k, r);
    }
  }

  lemma CreateKeeps(k: K, x: TaskId, priority: nat)
    requires Inv(k) && x !in k.tasks
    ensures var r := Create(k, x, priority);
      && Inv(r) && Beside(k, r, x) && r.tasks.Keys == k.tasks.Keys + {x}
  {
    hide Core, Top, SwitchContext, Created;
    CreatedCore(k, x, priority);
    CoreCurrent(k);
    var r := Created(k, x, priority);
    if k.tasks[k.current].priority < r.tasks[x].priority {
      SwitchBeside(k, r, x);
      SwitchContextKeeps(r);
    }
  }

  // ---------- deleting and suspending ----------

  /** Off every list: the start of vTaskDelete and vTaskSuspend. */
  ghost function Freed(k: K, x: TaskId): K
    requires Shape(k) && x in k.tasks && k.tasks[x].place != Nowhere
  {
    Detach(DropEvent(k, x), x)
  }

  lemma FreedKeeps(k: K, x: TaskId)
    requires Core(k) && x in k.tasks
    ensures var r := Freed(k, x);
      && Shape(r) && Count(r) == Count(k) - 1 && (Top(k) ==> Top(r)) && Sorted(Times(r.delayed))
      && r.tasks == k.tasks[x := k.tasks[x].(place := Nowhere, event := NoEvent)]
      && |r.ready| == |k.ready| && r.current == k.current && r.idle == k.idle && r.yieldPending == k.yieldPending
      && r.tick == k.tick && r.pendedTicks == k.pendedTicks && r.nesting == k.nesting
      && (k.pending == [] ==> r.pending == [])
      && (forall t | t in k.delayed && t.task != x :: t in r.delayed)
      && (forall t | t in r.delayed :: t in k.delayed)
  {
    hide StateSide, EventSide, DropEvent, Detach;
    DropEventKeeps(k, x);
  }

  lemma FreedLists(k: K, x: TaskId)
    requires Core(k) && x in k.tasks
    ensures k.tasks[x].event.OnEvent? ==> k.tasks[x].event.e in k.events
    ensures Freed(k, x).events ==
      match k.tasks[x].event
      case OnEvent(e) => k.events[e := Without(k.events[e], x)]
      case _ => k.events
    ensures Freed(k, x).pending == if k.tasks[x].event == OnPending then Without(k.pending, x) else k.pending
  {
    hide StateSide, EventSide, DropEvent, Detach, Without, Load;
    DropEventLists(k, x);
    DropEventKeeps(k, x);
  }

  /** Deleted or suspended: off its event list or the pending-ready list, if it was on one, and the running task goes on. */
  ghost predicate Left(k: K, r: K, x: TaskId) {
    && x in k.tasks && RunsOn(k, r)
    && (k.tasks[x].event.OnEvent? ==> k.tasks[x].event.e in k.events)
    && r.events == (match k.tasks[x].event
         case OnEvent(e) => k.events[e := Without(k.events[e], x)]
         case _ => k.events)
    && r.pending == if k.tasks[x].event == OnPending then Without(k.pending, x) else k.pending
  }

  lemma WithdrawState(k: K, x: TaskId)
    requires Shape(k) && x in k.tasks && k.tasks[x].place == Nowhere
    ensures StateSide(k.tasks - {x}, k.ready, k.delayed, k.suspended, k.termination)
  {
    hide EventSide;
  }

  lemma WithdrawEvent(k: K, x: TaskId)
    requires Shape(k) && x in k.tasks && k.tasks[x].event == NoEvent
    ensures EventSide(k.tasks - {x}, k.events, k.pending)
  {
    hide StateSide;
  }

  lemma WithdrawShape(k: K, x: TaskId)
    requires Shape(k) && x in k.tasks && k.tasks[x].place == Nowhere && k.tasks[x].event == NoEvent
    ensures Shape(k.(tasks := k.tasks - {x})) && Count(k.(tasks := k.tasks - {x})) == Count(k)
    ensures |k.tasks - {x}| == |k.tasks| - 1
  {
    hide StateSide, EventSide, Load;
    WithdrawState(k, x);
    WithdrawEvent(k, x);
    assert (k.tasks - {x}).Keys == k.tasks.Keys - {x};
  }

  /** vTaskDelete of another task: its control block is freed at once. */
  ghost function Delete(k: K, x: TaskId): K
    requires Core(k) && x in k.tasks
  {
    var f := Freed(k, x);
    f.(tasks := f.tasks - {x})
  }

  lemma DeleteKeeps(k: K, x: TaskId)
    requires Inv(k) && x in k.tasks && x != k.current && x != k.idle
    ensures Inv(Delete(k, x)) && Beside(k, Delete(k, x), x)
    ensures Delete(k, x).tasks.Keys == k.tasks.Keys - {x}
  {
    hide Freed, Shape, Count, Top;
    FreedKeeps(k, x);
    var f := Freed(k, x);
    WithdrawShape(f, x);
    TopOf(f, f.(tasks := f.tasks - {x}));
  }

  /** Another task is gone, with its control block. */
  lemma DeleteRemoves(k: K, x: TaskId)
    requires Inv(k) && x in k.tasks && x != k.current && x != k.idle
    ensures Delete(k, x).tasks == k.tasks - {x} && Left(k, Delete(k, x), x)
  {
    hide Freed, Shape, Count, Top;
    FreedKeeps(k, x);
    FreedLists(k, x);
  }

  /** Top only looks at the ready lists and the running task's priority. */
  lemma TopOf(k: K, r: K)
    requires k.current in k.tasks && r.current in r.tasks
    requires r.ready == k.ready && r.tasks[r.current].priority == k.tasks[k.current].priority
    ensures Top(k) <==> Top(r)
  {
  }

  /** vTaskDelete of the running task: it waits on the termination list for the idle task. */
  ghost function DeleteSelf(k: K): K
    requires Core(k)
  {
    var f := Freed(k, k.current);
    FreedKeeps(k, k.current);
    AddTermination(f, k.current)
  }

  lemma DeleteSelfKeeps(k: K)
    requires Inv(k) && k.current != k.idle
    ensures Inv(DeleteSelf(k)) && Beside(k, DeleteSelf(k), k.current)
    ensures DeleteSelf(k).tasks.Keys == k.tasks.Keys
    ensures DeleteSelf(k).tasks[k.current].place == InTermination
  {
    hide Freed, StateSide, EventSide, AddTermination, Top, Load;
    FreedKeeps(k, k.current);
    TopOf(Freed(k, k.current), DeleteSelf(k));
  }

  /** The running task waits to be freed; it runs on until the switch that follows. */
  lemma DeleteSelfLeaves(k: K)
    requires Inv(k) && k.current != k.idle
    ensures k.current in k.tasks
    ensures var r := DeleteSelf(k);
      && r.tasks == k.tasks[k.current := k.tasks[k.current].(place := InTermination, event := NoEvent)]
      && Left(k, r, k.current)
  {
    hide Freed, Shape, Count, AddTermination, Top;
    CoreCurrent(k);
    FreedKeeps(k, k.current);
    FreedLists(k, k.current);
  }

  /** prvCheckTasksWaitingTermination, one turn of its loop: the state item leaves the termination list
      and the control block is freed. */
  ghost function Reap(k: K): K
    requires Core(k) && k.termination != []
  {
    ReapHead(k);
    var d := Detach(k, k.termination[0]);
    d.(tasks := d.tasks - {k.termination[0]})
  }

  lemma ReapHead(k: K)
    requires Core(k) && k.termination != []
    ensures Shape(k) && k.termination[0] in k.tasks
    ensures k.tasks[k.termination[0]].place == InTermination && k.tasks[k.termination[0]].event == NoEvent
  {
  }

  /** A deleted task waits for no event, so freeing it is what deleting it from another task would have
      been. */
  lemma ReapIsDelete(k: K)
    requires Core(k) && k.termination != []
    ensures k.termination[0] in k.tasks && Reap(k) == Delete(k, k.termination[0])
  {
    hide Core, Shape, Count, Detach, StateSide, EventSide;
    CoreCurrent(k);
    ReapHead(k);
    var x := k.termination[0];
    assert k.tasks[x := k.tasks[x].(event := NoEvent)] == k.tasks;
    assert DropEvent(k, x) == k;
  }

  /** vTaskSuspend without its final yield. */
  ghost function SuspendTask(k: K, x: TaskId): K
    requires Core(k) && x in k.tasks
  {
    FreedKeeps(k, x);
    AddSuspended(Freed(k, x), x)
  }

  lemma SuspendTaskKeeps(k: K, x: TaskId)
    requires Inv(k) && x in k.tasks && x != k.idle
    ensures var r := SuspendTask(k, x);
      && Inv(r) && Beside(k, r, x) && r.tasks.Keys == k.tasks.Keys
      && r.tasks[x] == k.tasks[x].(place := InSuspended, event := NoEvent)
      && Left(k, r, x)
  {
    hide Freed, StateSide, EventSide, AddSuspended, Top, Load, Without;
    FreedKeeps(k, x);
    FreedLists(k, x);
    TopOf(Freed(k, x), SuspendTask(k, x));
  }

  // ---------- resuming ----------

  /** prvTaskIsTaskSuspended: in the suspended list, not readied by an interrupt already and not there
      because it waits for an event without a timeout. */
  predicate IsSuspended(t: Tcb) {
    t.place == InSuspended && t.event == NoEvent
  }

  /** vTaskResume */
  ghost function ResumeTask(k: K, x: TaskId): K
    requires Core(k) && x in k.tasks
  {
    if x != k.current && IsSuspended(k.tasks[x]) then
      ToReadyKeeps(k, x);
      var r := ToReady(k, x);
      if k.tasks[x].priority >= k.tasks[k.current].priority then SwitchContext(r) else r
    else k
  }

  lemma ResumeTaskKeeps(k: K, x: TaskId)
    requires Inv(k) && x in k.tasks
    ensures Inv(ResumeTask(k, x)) && Beside(k, ResumeTask(k, x), x)
  {
    hide Core, Top, SwitchContext, ToReady, Sorted, Times, Shape;
    CoreCurrent(k);
    if x != k.current && IsSuspended(k.tasks[x]) {
      ToReadyKeeps(k, x);
      var r := ToReady(k, x);
      CoreCurrent(r);
      if k.tasks[x].priority >= k.tasks[k.current].priority {
        SwitchBeside(k, r, x);
      }
    }
  }

  /** A suspended task becomes ready, and the running task gives way if that is not below it; for any
      other task nothing happens. */
  lemma ResumeTaskReadies(k: K, x: TaskId)
    requires Inv(k) && x in k.tasks
    ensures k.current in k.tasks
    ensures var r := ResumeTask(k, x);
      if x != k.current && IsSuspended(k.tasks[x]) then
        && r.tasks == k.tasks[x := k.tasks[x].(place := InReady)] && SameEvents(k, r)
        && if k.tasks[x].priority >= k.tasks[k.current].priority then GaveWay(k, r) else RunsOn(k, r)
      else r == k
  {
    hide Core, Top, SwitchContext, ToReady, Sorted, Times, Shape, GaveWay;
    CoreCurrent(k);
    if x != k.current && IsSuspended(k.tasks[x]) {
      ToReadyKeeps(k, x);
      if k.tasks[x].priority >= k.tasks[k.current].priority {
        SwitchGivesWay(k, ToReady(k, x));
      }
    }
  }

  /** xTaskResumeFromISR; the result tells the interrupt to switch context. */
  ghost function ResumeFromIsr(k: K, x: TaskId): (K, bool)
    requires Core(k) && x in k.tasks
  {
    if !IsSuspended(k.tasks[x]) then (k, false)
    else if k.nesting == 0 then
      var above := k.tasks[x].priority >= k.tasks[k.current].priority;
      (ToReady(k, x).(yieldPending := k.yieldPending || above), above)
    else (AddPending(k, x), false)
  }

  lemma ReadyFromIsr(k: K, x: TaskId)
    requires Inv(k) && x in k.tasks && IsSuspended(k.tasks[x]) && k.nesting == 0
    ensures var (r, above) := ResumeFromIsr(k, x);
      && Inv(r) && Beside(k, r, x) && (above ==> r.yieldPending)
      && x in r.tasks && r.tasks[x].place == InReady
  {
    hide Core, Shape, Count, ToReady;
    CoreCurrent(k);
    ToReadyKeeps(k, x);
    ToReadyBeside(k, x);
    var r := ToReady(k, x);
    CoreCurrent(r);
    FlagCore(r, k.yieldPending || k.tasks[x].priority >= k.tasks[k.current].priority, r.nesting, r.pendedTicks);
  }

  lemma PendFromIsr(k: K, x: TaskId)
    requires Inv(k) && x in k.tasks && IsSuspended(k.tasks[x]) && k.nesting > 0
    ensures var (r, above) := ResumeFromIsr(k, x);
      && Inv(r) && Beside(k, r, x) && !above
      && x in r.tasks && r.tasks[x].event == OnPending
  {
    hide Core, Top, Shape, AddPending;
    CoreCurrent(k);
    AddPendingKeeps(k, x);
    CoreCurrent(AddPending(k, x));
  }

  lemma ResumeFromIsrKeeps(k: K, x: TaskId)
    requires Inv(k) && x in k.tasks
    ensures var (r, above) := ResumeFromIsr(k, x);
      && Inv(r) && Beside(k, r, x) && (above ==> r.yieldPending)
      && (IsSuspended(k.tasks[x]) ==>
            x in r.tasks && if k.nesting == 0 then r.tasks[x].place == InReady else r.tasks[x].event == OnPending)
  {
    hide Core, Top, ToReady, AddPending;
    if IsSuspended(k.tasks[x]) {
      if k.nesting == 0 {
        ReadyFromIsr(k, x);
      } else {
        PendFromIsr(k, x);
      }
    }
  }

  /** A suspended task is ready at once, the interrupt being told to switch exactly if that is not below
      the running task; or, while the scheduler is suspended, it is the last of those to be readied. */
  lemma ResumeFromIsrReadies(k: K, x: TaskId)
    requires Inv(k) && x in k.tasks
    ensures k.current in k.tasks
    ensures var (r, above) := ResumeFromIsr(k, x);
      && r.current == k.current && r.events == k.events && (r.yieldPending <==> k.yieldPending || above)
      && (above <==>
            IsSuspended(k.tasks[x]) && k.nesting == 0 && k.tasks[x].priority >= k.tasks[k.current].priority)
      && (if !IsSuspended(k.tasks[x]) then r == k
          else if k.nesting == 0 then
            r.tasks == k.tasks[x := k.tasks[x].(place := InReady)] && r.pending == k.pending
          else
            r.tasks == k.tasks[x := k.tasks[x].(event := OnPending)] && r.pending == k.pending + [x])
  {
    hide Core, Top, ToReady, AddPending, Sorted, Times, Shape;
    CoreCurrent(k);
    if IsSuspended(k.tasks[x]) {
      if k.nesting == 0 {
        ToReadyKeeps(k, x);
      } else {
        AddPendingKeeps(k, x);
      }
    }
  }

  // ---------- priorities ----------

  /** The event value holds the priority in reverse unless it is in use for other data. */
  function Retuned(t: Tcb, p: nat, priorities: nat): Tcb {
    t.(priority := p, eventValue := ValueFor(t.eventValue, p, priorities))
  }

  ghost function Retune(k: K, x: TaskId, p: nat): K
    requires x in k.tasks
  {
    k.(tasks := k.tasks[x := Retuned(k.tasks[x], p, |k.ready|)])
  }

  lemma RetuneShape(k: K, x: TaskId, p: nat)
    requires Shape(k) && x in k.tasks && k.tasks[x].place != InReady && p < |k.ready|
    ensures Shape(Retune(k, x, p)) && Count(Retune(k, x, p)) == Count(k)
  {
    Retag(k, x, Retuned(k.tasks[x], p, |k.ready|));
  }

  /** The list work of vTaskPrioritySet: a ready task moves to the end of its new ready list. */
  ghost function Refile(k: K, x: TaskId, p: nat): K
    requires Shape(k) && x in k.tasks && p < |k.ready|
  {
    if k.tasks[x].place == InReady then
      var d := Detach(k, x);
      RetuneShape(d, x, p);
      AddReady(Retune(d, x, p), x)
    else
      Retune(k, x, p)
  }

  ghost predicate Refiled(k: K, x: TaskId, p: nat, r: K)
    requires x in k.tasks
  {
    && Core(r) && StateMove(k, r) && r.tasks == k.tasks[x := Retuned(k.tasks[x], p, |k.ready|)]
    && (forall t | t in k.delayed && t.task != x :: t in r.delayed)
    && (forall t | t in r.delayed :: t in k.delayed)
    && (k.tasks[x].place == InDelayed ==> r.delayed == k.delayed)
  }

  lemma RefileReady(k: K, x: TaskId, p: nat)
    requires Core(k) && x in k.tasks && p < |k.ready| && k.tasks[x].place == InReady
    ensures Refiled(k, x, p, Refile(k, x, p))
  {
    hide Shape, Count, AddReady, Detach, Times, Sorted, ValueFor;
    var d := Detach(k, x);
    RetuneShape(d, x, p);
    var r := AddReady(Retune(d, x, p), x);
    assert r.tasks == k.tasks[x := Retuned(k.tasks[x], p, |k.ready|)];
    assert r.delayed == d.delayed && Count(r) == Count(k);
  }

  lemma RefileOther(k: K, x: TaskId, p: nat)
    requires Core(k) && x in k.tasks && p < |k.ready| && k.tasks[x].place != InReady
    ensures Refiled(k, x, p, Refile(k, x, p))
  {
    hide StateSide, EventSide, Load;
    RetuneShape(k, x, p);
  }

  lemma RefileKeeps(k: K, x: TaskId, p: nat)
    requires Core(k) && x in k.tasks && p < |k.ready|
    ensures Refiled(k, x, p, Refile(k, x, p))
  {
    hide Core, Refiled, Refile;
    CoreCurrent(k);
    if k.tasks[x].place == InReady {
      RefileReady(k, x, p);
    } else {
      RefileOther(k, x, p);
    }
  }

  lemma RefileTop(k: K, x: TaskId, p: nat)
    requires Core(k) && Top(k) && x in k.tasks && p < |k.ready|
    requires if x == k.current then k.tasks[x].priority <= p else p <= k.tasks[k.current].priority || k.tasks[x].place != InReady
    ensures Top(Refile(k, x, p))
  {
    hide StateSide, EventSide, AddReady, Detach, Load;
    CoreCurrent(k);
    if k.tasks[x].place == InReady {
      RetuneShape(Detach(k, x), x, p);
    }
  }

  /** Whether vTaskPrioritySet asks for a switch. */
  ghost predicate YieldOnSet(k: K, x: TaskId, p: nat)
    requires x in k.tasks && k.current in k.tasks
  {
    if p > k.tasks[x].priority then x != k.current && p >= k.tasks[k.current].priority else x == k.current
  }

  /** vTaskPrioritySet, mutexes off: a priority out of range is cut to the greatest one. */
  ghost function SetPriority(k: K, x: TaskId, priority: nat): K
    requires Core(k) && x in k.tasks
  {
    CoreCurrent(k);
    var p := if priority >= |k.ready| then |k.ready| - 1 else priority;
    if p == k.tasks[x].priority then k
    else
      RefileKeeps(k, x, p);
      var r := Refile(k, x, p);
      if YieldOnSet(k, x, p) then SwitchContext(r) else r
  }

  /** Without a switch, lowering or raising a priority cannot put a ready task above the running one,
      if there was none before. */
  lemma QuietKeeps(k: K, x: TaskId, p: nat)
    requires Inv(k) && x in k.tasks && p < |k.ready| && p != k.tasks[x].priority && !YieldOnSet(k, x, p)
    ensures Inv(Refile(k, x, p)) && Beside(k, Refile(k, x, p), x)
  {
    hide Core, Top, Shape, Refile;
    CoreCurrent(k);
    RefileKeeps(k, x, p);
    CoreCurrent(Refile(k, x, p));
    if Top(k) {
      if k.tasks[x].place == InReady {
        ReadyAtMost(k, x);
      }
      RefileTop(k, x, p);
    }
  }

  lemma SetPriorityKeeps(k: K, x: TaskId, priority: nat)
    requires Inv(k) && x in k.tasks
    ensures var r := SetPriority(k, x, priority);
      && Inv(r) && Beside(k, r, x) && r.tasks.Keys == k.tasks.Keys
      && r.tasks[x].priority == (if priority >= |k.ready| then |k.ready| - 1 else priority)
  {
    hide Core, Top, Shape, SwitchContext, Refile;
    CoreCurrent(k);
    var p := if priority >= |k.ready| then |k.ready| - 1 else priority;
    if p != k.tasks[x].priority {
      RefileKeeps(k, x, p);
      var r := Refile(k, x, p);
      if YieldOnSet(k, x, p) {
        SwitchBeside(k, r, x);
        SwitchContextKeeps(r);
      } else {
        QuietKeeps(k, x, p);
      }
    }
  }

  /** The new priority, cut to the greatest one, is the task's, its event value shows it unless in use for
      other data, and the running task gives way if the task raised is not below it or if it is the task
      lowered. */
  lemma SetPrioritySets(k: K, x: TaskId, priority: nat)
    requires Inv(k) && x in k.tasks
    ensures k.current in k.tasks && |k.ready| > 0
    ensures var r := SetPriority(k, x, priority);
      var p, t := if priority >= |k.ready| then |k.ready| - 1 else priority, k.tasks[x];
      if p == t.priority then r == k
      else
        && r.tasks == k.tasks[x := t.(priority := p,
                                      eventValue := if t.eventValue < IN_USE then |k.ready| - p else t.eventValue)]
        && SameEvents(k, r)
        && if (p > t.priority && x != k.current && p >= k.tasks[k.current].priority) || (p < t.priority && x == k.current)
           then GaveWay(k, r) else RunsOn(k, r)
  {
    hide Core, Top, Shape, SwitchContext, Refile, GaveWay;
    CoreCurrent(k);
    var p := if priority >= |k.ready| then |k.ready| - 1 else priority;
    if p != k.tasks[x].priority {
      RefileKeeps(k, x, p);
      if YieldOnSet(k, x, p) {
        SwitchGivesWay(k, Refile(k, x, p));
      }
    }
  }

  lemma ReadyAtMost(k: K, x: TaskId)
    requires Core(k) && Top(k) && x in k.tasks && k.tasks[x].place == InReady
    ensures k.tasks[x].priority <= k.tasks[k.current].priority
  {
  }

  /** A change of priority neither moves a timed wait nor an event item. */
  lemma SetPrioritySpares(k: K, x: TaskId, priority: nat)
    requires Inv(k) && x in k.tasks
    ensures var r := SetPriority(k, x, priority);
      && (forall t | t in k.delayed :: t in r.delayed)
      && x in r.tasks && r.tasks[x].event == k.tasks[x].event && r.tasks[x].place == k.tasks[x].place
  {
    hide Core, Top, SwitchContext, Refile;
    CoreCurrent(k);
    var p := if priority >= |k.ready| then |k.ready| - 1 else priority;
    if p != k.tasks[x].priority {
      RefileKeeps(k, x, p);
      var r := Refile(k, x, p);
      if YieldOnSet(k, x, p) {
        SwitchContextKeeps(r);
      }
      forall t | t in k.delayed
        ensures t in r.delayed
      {
        DelayedPlace(k, t);
      }
    }
  }

  lemma DelayedPlace(k: K, t: Timed)
    requires Core(k) && t in k.delayed
    ensures t.task in k.tasks && k.tasks[t.task].place == InDelayed
  {
    var i :| 0 <= i < |k.delayed| && k.delayed[i] == t;
    assert Names(k.delayed)[i] == t.task;
  }
}
