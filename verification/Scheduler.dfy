/** The scheduler of FreeRTOS-Kernel/tasks.c as it is written: a tick counter that wraps at 32 bits,
    two delayed lists switched at each wrap, a cached next unblock time and a cached top ready
    priority.  Every method is proved to act on the abstract state Abs() exactly as the operation of
    the same name on the specification state, which has none of these.  */
module Scheduler {
  import opened Words
  import opened Rings
  import opened Kernel
  import opened KernelOps
  import opened KernelApi
  import opened KernelCalls
  import opened KernelTasks
  import opened KernelRuns
  import opened DelayLists
  import opened TimeBudget

  /** TimeOut_t, filled in and updated in place. */
  class TimeOut {
    var overflowCount: Tick
    var timeOnEntering: Tick

    constructor () {
      overflowCount, timeOnEntering := 0, 0;
    }

    ghost function Value(): Stamp
      reads this
    {
      Stamp(overflowCount, timeOnEntering)
    }
  }

  class Scheduler {
    const idle: TaskId
    var tasks: map<TaskId, Tcb>
    var ready: seq<Ring<TaskId>>
    var delayed: seq<Timed>
    var overflow: seq<Timed>
    var suspended: seq<TaskId>
    var termination: seq<TaskId>
    var pending: seq<TaskId>
    var events: map<EventId, seq<TaskId>>
    var tick: Tick
    var pendedTicks: Tick
    var nextUnblock: Tick
    var topReady: nat
    var nesting: nat
    var current: TaskId
    var yieldPending: bool

    var numOfOverflows: Tick

    /** How often the tick counter has wrapped; numOfOverflows shows it modulo 2^32. */
    ghost var epoch: nat

    ghost function Abs(): K
      reads this
    {
      K(idle, tasks, ready, Merged(delayed, overflow, epoch), suspended, termination, pending, events,
        At(epoch, tick), pendedTicks, nesting, current, yieldPending)
    }

    /** No ready task is above the cached top priority. */
    ghost predicate TopCached()
      reads this`delayed, this`overflow, this`ready, this`topReady, this`numOfOverflows, this`epoch
    {
      && numOfOverflows == Low(epoch)
      && Fits(delayed) && Fits(overflow)
      && topReady < |ready|
      && (forall p | topReady < p < |ready| :: ready[p].items == [])
    }

    /** Nor is a task on the current delayed list due before the cached next unblock time. */
    ghost predicate Caches()
      reads this`delayed, this`overflow, this`ready, this`topReady, this`nextUnblock, this`numOfOverflows, this`epoch
      ensures Caches() ==> TopCached()
    {
      TopCached() && forall e | e in delayed :: nextUnblock <= e.time
    }

    /** What holds between calls and interrupts. */
    ghost predicate Valid()
      reads this
    {
      Caches() && Inv(Abs())
    }

    constructor (priorities: nat, idle: TaskId, events: set<EventId>)
      requires priorities > 0
      ensures Valid() && Abs() == Started(priorities, idle, events)
    {
      hide Inv;
      this.idle := idle;
      tasks := map[idle := Tcb(0, priorities, InReady, NoEvent)];
      ready := seq(priorities, _ => Empty<TaskId>())[0 := Ring([idle], 0)];
      delayed, overflow, suspended, termination, pending := [], [], [], [], [];
      this.events := map e | e in events :: [];
      tick, pendedTicks, nextUnblock, topReady, nesting, numOfOverflows := 0, 0, MAX_DELAY, 0, 0, 0;
      current := idle;
      yieldPending := false;
      epoch := 0;
      new;
      StartedInv(priorities, idle, events);
      assert Merged(delayed, overflow, epoch) == [];
    }

    // ---------- list items ----------

    method LeaveDelayedList(x: TaskId)
      requires Caches() && x in Names(Abs().delayed)
      modifies this`delayed, this`overflow
      ensures Caches() && Abs() == old(Abs()).(delayed := DropTimed(old(Abs()).delayed, x))
    {
      MergedHas(delayed, overflow, epoch, x);
      hide Merged;
      if x in Names(delayed) {
        DropLeft(delayed, overflow, epoch, x);
        delayed := DropTimed(delayed, x);
      } else {
        DropRight(delayed, overflow, epoch, x);
        overflow := DropTimed(overflow, x);
      }
    }

    /** uxListRemove on a state list item. */
    method RemoveStateItem(x: TaskId)
      requires Caches() && Shape(Abs()) && x in tasks && tasks[x].place != Nowhere
      modifies this`tasks, this`ready, this`delayed, this`overflow, this`suspended, this`termination
      ensures Caches() && Abs() == Detach(old(Abs()), x)
    {
      hide Shape, Count, Merged, At, Remove, Without, DropTimed, StateMove, Sorted, Times, Names, Fits, Low;
      Held(Abs(), x);
      match tasks[x].place {
        case InReady =>
          var p := tasks[x].priority;
          ready := ready[p := Remove(ready[p], x)];
        case InDelayed =>
          LeaveDelayedList(x);
        case InSuspended => suspended := Without(suspended, x);
        case InTermination => termination := Without(termination, x);
      }
      tasks := tasks[x := tasks[x].(place := Nowhere)];
    }

    /** uxListRemove on an event list item that is in a list. */
    method RemoveEventItem(x: TaskId)
      requires Caches() && Shape(Abs()) && x in tasks
      modifies this`tasks, this`pending, this`events
      ensures Caches() && Abs() == DropEvent(old(Abs()), x)
    {
      hide Shape, Count;
      Held(Abs(), x);
      match tasks[x].event {
        case NoEvent =>
        case OnPending => pending := Without(pending, x);
        case OnEvent(e) => events := events[e := Without(events[e], x)];
      }
      tasks := tasks[x := tasks[x].(event := NoEvent)];
    }

    /** prvAddTaskToReadyList with taskRECORD_READY_PRIORITY. */
    method AddTaskToReadyList(x: TaskId)
      requires Caches() && Shape(Abs()) && x in tasks && tasks[x].place == Nowhere
      modifies this`tasks, this`ready, this`topReady
      ensures Caches() && Abs() == AddReady(old(Abs()), x)
    {
      hide Shape, Count;
      Held(Abs(), x);
      var p := tasks[x].priority;
      if p > topReady {
        topReady := p;
      }
      ready := ready[p := InsertEnd(ready[p], x)];
      tasks := tasks[x := tasks[x].(place := InReady)];
    }

    /** prvResetNextTaskUnblockTime */
    method ResetNextTaskUnblockTime()
      requires TopCached() && Sorted(Times(Abs().delayed))
      modifies this`nextUnblock
      ensures Caches()
      ensures nextUnblock == if delayed == [] then MAX_DELAY else delayed[0].time
    {
      if delayed == [] {
        nextUnblock := MAX_DELAY;
      } else {
        assert delayed[0] in delayed;
        nextUnblock := delayed[0].time;
        forall e | e in delayed
          ensures nextUnblock <= e.time
        {
          var i :| 0 <= i < |delayed| && delayed[i] == e;
          assert Times(Abs().delayed)[0] <= Times(Abs().delayed)[i];
        }
      }
    }

    method AddToSuspended(x: TaskId)
      requires Caches() && Shape(Abs()) && x in tasks && tasks[x].place == Nowhere
      modifies this`tasks, this`suspended
      ensures Caches() && Abs() == AddSuspended(old(Abs()), x)
    {
      hide Shape, Count;
      suspended := suspended + [x];
      tasks := tasks[x := tasks[x].(place := InSuspended)];
    }

    /** The list the 32-bit wake time belongs to: the overflow list exactly when the addition wrapped. */
    method InsertByTime(x: TaskId, ticks: Tick)
      requires Caches() && Shape(Abs()) && x in tasks && tasks[x].place == Nowhere
      modifies this`tasks, this`delayed, this`overflow, this`nextUnblock
      ensures Caches() && Abs() == AddDelayed(old(Abs()), x, old(Abs()).tick + ticks)
    {
      hide Shape, Count, Merged, At, Sorted, Times, Add, Fits, InsertTimed, StateMove;
      var wake := Add(tick, ticks);
      Wraps(epoch, tick, ticks);
      if wake < tick {
        InsertRight(delayed, overflow, epoch, x, wake);
        InsertedFit(overflow, Timed(x, wake));
        overflow := InsertTimed(overflow, Timed(x, wake));
      } else {
        InsertLeft(delayed, overflow, epoch, x, wake);
        InsertedFit(delayed, Timed(x, wake));
        delayed := InsertTimed(delayed, Timed(x, wake));
        if wake < nextUnblock {
          nextUnblock := wake;
        }
      }
      tasks := tasks[x := tasks[x].(place := InDelayed)];
    }

    /** prvAddCurrentTaskToDelayedList */
    method AddCurrentTaskToDelayedList(ticks: Tick, canBlockIndefinitely: bool)
      requires Caches() && Shape(Abs()) && current in tasks && tasks[current].place == InReady
      modifies this`tasks, this`ready, this`delayed, this`overflow, this`suspended, this`termination, this`nextUnblock
      ensures Caches() && Abs() == Block(old(Abs()), ticks, canBlockIndefinitely)
    {
      hide Shape, Count, Detach, AddDelayed, AddSuspended, Caches, Merged, At, StateMove, Sorted, Times;
      RemoveStateItem(current);
      if ticks == MAX_DELAY && canBlockIndefinitely {
        AddToSuspended(current);
      } else {
        InsertByTime(current, ticks);
      }
    }

    // ---------- the tick ----------

    /** taskSWITCH_DELAYED_LISTS */
    method SwitchDelayedLists()
      requires TopCached() && delayed == [] && Sorted(Times(Merged(delayed, overflow, epoch)))
      modifies this`delayed, this`overflow, this`numOfOverflows, this`epoch, this`nextUnblock
      ensures Caches() && Abs() == old(Abs()).(tick := At(epoch, tick)) && epoch == old(epoch) + 1
    {
      hide Merged, At, Low, Add, Times, Sorted, Fits;
      Switched(overflow, epoch);
      WrapCounted(epoch);
      delayed, overflow := overflow, delayed;
      numOfOverflows := Add(numOfOverflows, 1);
      epoch := epoch + 1;
      ResetNextTaskUnblockTime();
    }

    /** The counter moves on; when it wraps to zero every task of the current list has been woken, so
        the lists can be switched. */
    method AdvanceTick()
      requires Caches() && Core(Abs()) && Future(Abs())
      modifies this`tick, this`delayed, this`overflow, this`numOfOverflows, this`epoch, this`nextUnblock
      ensures Caches() && Abs() == old(Abs()).(tick := old(Abs()).tick + 1)
      ensures tick == Low(old(tick) + 1)
    {
      hide Merged, Core;
      CoreSorted(Abs());
      if tick == MAX_DELAY {
        NoneLeft(delayed, overflow, epoch);
      }
      tick := Add(tick, 1);
      if tick == 0 {
        SwitchDelayedLists();
      }
    }

    /** Move a task whose time has come to its ready list, off any event list. */
    method Unblock(x: TaskId)
      requires Caches() && Core(Abs()) && x in tasks && Blocked(tasks[x])
      modifies this`tasks, this`ready, this`delayed, this`overflow, this`suspended, this`termination
      modifies this`pending, this`events, this`topReady
      ensures Caches() && Abs() == Wake(old(Abs()), x)
    {
      hide Core, Shape, Detach, DropEvent, AddReady, Caches, Merged, At;
      CoreCurrent(Abs());
      DetachFirst(Abs(), x);
      RemoveStateItem(x);
      if tasks[x].event != NoEvent {
        RemoveEventItem(x);
      }
      AddTaskToReadyList(x);
    }

    /** The scan of the delayed list, which also renews the next unblock time. */
    method UnblockDue() returns (above: bool)
      requires Caches() && Core(Abs())
      modifies this`tasks, this`ready, this`delayed, this`overflow, this`suspended, this`termination
      modifies this`pending, this`events, this`topReady, this`nextUnblock
      ensures Caches() && (Abs(), above) == Expire(old(Abs()))
    {
      hide Core, Wake, Caches, Merged, At;
      above := false;
      while delayed != [] && delayed[0].time <= tick
        invariant Caches() && Core(Abs())
        invariant Expire(old(Abs())) == (Expire(Abs()).0, above || Expire(Abs()).1)
        decreases |Abs().delayed|
      {
        HeadDue(delayed, overflow, epoch, tick);
        var x := delayed[0].task;
        WakeHead(Abs());
        WakeKeeps(Abs(), x);
        CoreCurrent(Abs());
        Unblock(x);
        if tasks[x].priority > tasks[current].priority {
          above := true;
        }
      }
      HeadLater(delayed, overflow, epoch, tick);
      CoreSorted(Abs());
      ResetNextTaskUnblockTime();
    }

    /** Below the cached next unblock time there is nothing to scan for. */
    lemma NotYetDue()
      requires Caches() && Core(Abs()) && tick < nextUnblock
      ensures Expire(Abs()) == (Abs(), false)
    {
      hide Core, Merged, At, Expire;
      assert delayed != [] ==> delayed[0] in delayed;
      HeadLater(delayed, overflow, epoch, tick);
      NothingDue(Abs());
    }

    /** xTaskIncrementTick: the scan is skipped while the tick is below the next unblock time. */
    method IncrementTick() returns (switchRequired: bool)
      requires Caches() && Core(Abs()) && Future(Abs()) && (nesting > 0 ==> pendedTicks < MAX_DELAY)
      modifies this
      ensures Caches() && (Abs(), switchRequired) == KernelOps.IncrementTick(old(Abs()))
    {
      hide Core, Merged, At, Expire, Caches, Future, ReadyWithCurrent;
      switchRequired := false;
      if nesting == 0 {
        LaterCore(Abs(), Abs().tick + 1);
        AdvanceTick();
        ExpireKeeps(Abs());
        if tick >= nextUnblock {
          switchRequired := UnblockDue();
        } else {
          NotYetDue();
        }
        OwnRing(Abs());
        if |ready[tasks[current].priority].items| > 1 {
          switchRequired := true;
        }
        if yieldPending {
          switchRequired := true;
        }
      } else {
        pendedTicks := pendedTicks + 1;
      }
    }

    // ---------- switching ----------

    /** The search of taskSELECT_HIGHEST_PRIORITY_TASK, from the cached top priority down. */
    method HighestReady() returns (top: nat)
      requires Caches() && exists p :: 0 <= p < |ready| && ready[p].items != []
      ensures top < |ready| && ready[top].items != [] && top == TopPriority(ready)
      ensures forall p | top < p < |ready| :: ready[p].items == []
    {
      top := topReady;
      while ready[top].items == []
        invariant top < |ready| && forall p | top < p < |ready| :: ready[p].items == []
        decreases top
      {
        assert top > 0;
        top := top - 1;
      }
    }

    /** taskSELECT_HIGHEST_PRIORITY_TASK */
    method SelectHighestPriorityTask()
      requires Caches() && Core(Abs())
      modifies this`ready, this`current, this`topReady
      ensures Caches() && (exists q :: 0 <= q < |old(ready)| && old(ready)[q].items != [])
      ensures var p := TopPriority(old(ready)); var ring := Next(old(ready)[p]);
        ready == old(ready)[p := ring] && ring.index <= |ring.items| && current == Selected(ring)
    {
      hide Core, TopPriority, Next, Selected, Merged, At, Fits, Low;
      IdleIsReady(Abs());
      var top := HighestReady();
      CoreTop(Abs(), top);
      var ring := Next(ready[top]);
      ready := ready[top := ring];
      current := Selected(ring);
      topReady := top;
    }

    /** vTaskSwitchContext */
    method SwitchContext()
      requires Caches() && Core(Abs())
      modifies this`yieldPending, this`ready, this`current, this`topReady
      ensures Caches() && Abs() == KernelOps.SwitchContext(old(Abs()))
    {
      hide Core, Merged, At, TopPriority, Next, Selected;
      if nesting != 0 {
        yieldPending := true;
      } else {
        yieldPending := false;
        FlagCore(old(Abs()), false, nesting, pendedTicks);
        SelectHighestPriorityTask();
      }
    }

    // ---------- the tick interrupt ----------

    method TickInterrupt()
      requires Valid() && pendedTicks < MAX_DELAY
      modifies this
      ensures Valid() && Abs() == TickIsr(old(Abs()))
    {
      hide Core, Top, KernelOps.TickOnce, KernelOps.SwitchContext, Caches;
      TickIsrKeeps(Abs());
      var due := IncrementTick();
      TickCore(old(Abs()));
      if due {
        SwitchContext();
      }
    }

    // ---------- suspending and resuming the scheduler ----------

    /** vTaskSuspendAll */
    method SuspendAll()
      requires Valid()
      modifies this`nesting
      ensures Valid() && Abs() == KernelApi.SuspendAll(old(Abs()))
    {
      hide Core, Merged;
      FlagCore(Abs(), yieldPending, nesting + 1, pendedTicks);
      nesting := nesting + 1;
    }

    /** Off the event or pending-ready list first, then to the ready list. */
    method WakeTask(x: TaskId)
      requires Caches() && Core(Abs()) && x in tasks && Blocked(tasks[x])
      modifies this`tasks, this`ready, this`delayed, this`overflow, this`suspended, this`termination
      modifies this`pending, this`events, this`topReady
      ensures Caches() && Abs() == Wake(old(Abs()), x)
    {
      hide Core, Shape, Detach, DropEvent, AddReady, Caches, Merged, At;
      CoreCurrent(Abs());
      RemoveEventItem(x);
      RemoveStateItem(x);
      AddTaskToReadyList(x);
    }

    /** One turn of the loop below. */
    method ReadyFirstPending()
      requires Caches() && Core(Abs()) && pending != []
      modifies this`tasks, this`ready, this`delayed, this`overflow, this`suspended, this`termination
      modifies this`pending, this`events, this`topReady, this`yieldPending
      ensures Caches() && Core(Abs()) && Drain(Abs()) == Drain(old(Abs())) && |pending| < |old(pending)|
    {
      hide Core, Wake, Caches, Merged, At, Drain, Blocked;
      var x := pending[0];
      DrainTurn(Abs());
      CoreCurrent(Abs());
      WakeTask(x);
      if tasks[x].priority >= tasks[current].priority {
        yieldPending := true;
      }
    }

    /** The loop that empties the pending-ready list. */
    method DrainPending()
      requires Caches() && Core(Abs())
      modifies this`tasks, this`ready, this`delayed, this`overflow, this`suspended, this`termination
      modifies this`pending, this`events, this`topReady, this`nextUnblock, this`yieldPending
      ensures Caches() && Abs() == Drain(old(Abs()))
    {
      hide Core, Caches, Merged, At, Drain, Sorted, Times;
      var any := false;
      while pending != []
        invariant Caches() && Core(Abs()) && Drain(old(Abs())) == Drain(Abs())
        decreases |pending|
      {
        ReadyFirstPending();
        any := true;
      }
      DrainEnd(Abs());
      if any {
        CoreSorted(Abs());
        ResetNextTaskUnblockTime();
      }
    }

    /** The loop that winds the pended ticks down. */
    method UnwindPended()
      requires Caches() && Core(Abs()) && Future(Abs()) && nesting == 0
      modifies this
      ensures Caches()
      ensures Abs() == Unwind(old(Abs()), old(pendedTicks)).(pendedTicks := 0)
    {
      hide Core, Caches, Future, KernelOps.IncrementTick, Merged, At, Unwind;
      var counts := pendedTicks;
      while counts > 0
        invariant Caches() && Core(Abs()) && Future(Abs()) && nesting == 0
        invariant Unwind(old(Abs()), old(pendedTicks)) == Unwind(Abs(), counts)
        decreases counts
      {
        ghost var k := Abs();
        CountedKeeps(k);
        UnwindOne(k, counts);
        var due := IncrementTick();
        if due {
          yieldPending := true;
        }
        assert Abs() == Counted(k);
        counts := counts - 1;
      }
      UnwindNone(Abs());
      pendedTicks := 0;
    }

    /** xTaskResumeAll */
    method ResumeAll() returns (alreadyYielded: bool)
      requires Valid() && nesting > 0
      modifies this
      ensures Valid() && (Abs(), alreadyYielded) == KernelApi.ResumeAll(old(Abs()))
    {
      hide Core, Caches, Drain, Unwind, KernelOps.SwitchContext, Top, Merged;
      alreadyYielded := false;
      ResumeAllKeeps(Abs());
      FlagCore(Abs(), yieldPending, nesting - 1, pendedTicks);
      nesting := nesting - 1;
      if nesting == 0 {
        DrainKeeps(Abs());
        DrainPending();
        UnwindKeeps(Abs(), pendedTicks);
        FlagCore(Unwind(Abs(), pendedTicks), Unwind(Abs(), pendedTicks).yieldPending, 0, 0);
        UnwindPended();
        if yieldPending {
          alreadyYielded := true;
          SwitchContext();
        }
      }
    }

    // ---------- event lists ----------

    /** vListInsert of the running task's event item: in order of the event values. */
    method InsertEventItem(e: EventId)
      requires Caches() && Shape(Abs()) && current in tasks && tasks[current].event == NoEvent && e in events
      modifies this`tasks, this`events
      ensures Caches() && Abs() == AddEvent(old(Abs()), current, e)
    {
      hide Shape, Count, Merged, At, SortedPosition;
      Waiters(Abs(), e);
      var p := SortedPosition(EventValues(events[e], tasks), tasks[current].eventValue);
      events := events[e := InsertAt(events[e], p, current)];
      tasks := tasks[current := tasks[current].(event := OnEvent(e))];
    }

    /** vTaskPlaceOnEventList */
    method PlaceOnEventList(e: EventId, ticks: Tick)
      requires Valid() && MayBlock(Abs()) && e in events && ticks > 0
      modifies this`tasks, this`events, this`ready, this`delayed, this`overflow, this`suspended, this`termination
      modifies this`nextUnblock
      ensures Valid() && Abs() == PlaceOnEvent(old(Abs()), e, ticks)
    {
      hide Core, Top, Caches, Merged, At, AddEvent, Block, Shape;
      InvCore(Abs());
      PlaceKeeps(Abs(), e, ticks);
      AddEventBase(Abs(), e);
      BaseShape(AddEvent(Abs(), current, e));
      InsertEventItem(e);
      AddCurrentTaskToDelayedList(ticks, true);
    }

    /** listINSERT_END of the running task's event item with a value of the caller's. */
    method AppendEventItem(e: EventId, value: nat)
      requires Caches() && Shape(Abs()) && current in tasks && tasks[current].event == NoEvent && e in events
      modifies this`tasks, this`events
      ensures Caches() && Abs() == AppendEvent(old(Abs()), current, e, value)
    {
      hide Shape, Count, Merged, At;
      events := events[e := events[e] + [current]];
      tasks := tasks[current := tasks[current].(event := OnEvent(e), eventValue := value)];
    }

    /** vTaskPlaceOnUnorderedEventList */
    method PlaceOnUnorderedEventList(e: EventId, value: nat, ticks: Tick)
      requires Valid() && MayBlock(Abs()) && e in events && ticks > 0
      modifies this`tasks, this`events, this`ready, this`delayed, this`overflow, this`suspended, this`termination
      modifies this`nextUnblock
      ensures Valid() && Abs() == PlaceOnUnordered(old(Abs()), e, value, ticks)
    {
      hide Core, Top, Caches, Merged, At, AppendEvent, Block, Shape;
      InvCore(Abs());
      PlaceUnorderedKeeps(Abs(), e, value, ticks);
      AppendEventBase(Abs(), e, value);
      BaseShape(AppendEvent(Abs(), current, e, value));
      AppendEventItem(e, value);
      AddCurrentTaskToDelayedList(ticks, true);
    }

    method AppendPending(x: TaskId)
      requires Caches() && Shape(Abs()) && x in tasks && tasks[x].event == NoEvent
      modifies this`tasks, this`pending
      ensures Caches() && Abs() == AddPending(old(Abs()), x)
    {
      hide Shape, Count, Merged, At;
      pending := pending + [x];
      tasks := tasks[x := tasks[x].(event := OnPending)];
    }

    method MoveToReady(x: TaskId)
      requires Caches() && Shape(Abs()) && x in tasks && tasks[x].place != Nowhere
      modifies this`tasks, this`ready, this`delayed, this`overflow, this`suspended, this`termination, this`topReady
      ensures Caches() && Abs() == ToReady(old(Abs()), x)
    {
      hide Shape, Count, Merged, At, Detach, AddReady;
      RemoveStateItem(x);
      AddTaskToReadyList(x);
    }

    /** xTaskRemoveFromEventList */
    method RemoveFromEventList(e: EventId) returns (above: bool)
      requires Valid() && e in events && events[e] != []
      modifies this
      ensures Valid() && (Abs(), above) == Signal(old(Abs()), e)
    {
      hide Core, Top, Caches, Merged, At, DropEvent, ToReady, AddPending, Shape;
      InvCore(Abs());
      SignalKeeps(Abs(), e);
      EventHead(Abs(), e);
      var x := events[e][0];
      DropEventKeeps(Abs(), x);
      CoreCurrent(DropEvent(Abs(), x));
      var priority, running := tasks[x].priority, tasks[current].priority;
      RemoveEventItem(x);
      if nesting == 0 {
        MoveToReady(x);
      } else {
        AppendPending(x);
      }
      if priority > running {
        above := true;
        yieldPending := true;
      } else {
        above := false;
      }
    }

    /** vTaskRemoveFromUnorderedEventList */
    method RemoveFromUnorderedEventList(x: TaskId, value: nat)
      requires Valid() && nesting > 0 && x in tasks && tasks[x].event.OnEvent?
      modifies this
      ensures Valid() && Abs() == SignalUnordered(old(Abs()), x, value)
    {
      hide Core, Top, Caches, Merged, At, DropEvent, ToReady, Shape;
      InvCore(Abs());
      SignalUnorderedKeeps(Abs(), x, value);
      DropEventKeeps(Abs(), x);
      ghost var d := DropEvent(Abs(), x);
      ValueKeeps(d, x, value);
      CoreCurrent(d);
      CoreCurrent(d.(tasks := d.tasks[x := d.tasks[x].(eventValue := value)]));
      BlockedWaiter(Abs(), x);
      var priority, running := tasks[x].priority, tasks[current].priority;
      RemoveEventItem(x);
      tasks := tasks[x := tasks[x].(eventValue := value)];
      MoveToReady(x);
      if priority > running {
        yieldPending := true;
      }
    }

    /** uxTaskResetEventItemValue */
    method ResetEventItemValue() returns (value: nat)
      requires Valid()
      modifies this`tasks
      ensures Valid() && Abs() == RestoreItem(old(Abs()))
      ensures old(current) in old(tasks) && value == old(tasks[current].eventValue)
    {
      hide Core, Top, Caches, Merged, At, Shape;
      InvCore(Abs());
      CoreCurrent(Abs());
      RestoreKeeps(Abs());
      value := tasks[current].eventValue;
      tasks := tasks[current := tasks[current].(eventValue := |ready| - tasks[current].priority)];
    }

    // ---------- tasks ----------

    /** xTaskCreate, down to the list work; the handle is a fresh one. */
    method Create(x: TaskId, priority: nat)
      requires Valid() && x !in tasks
      modifies this`tasks, this`ready, this`topReady, this`current, this`yieldPending
      ensures Valid() && Abs() == KernelTasks.Create(old(Abs()), x, priority)
    {
      hide Core, Top, Caches, Merged, At, AddReady, KernelOps.SwitchContext, Shape, Count;
      InvCore(Abs());
      CreateKeeps(Abs(), x, priority);
      CreatedCore(Abs(), x, priority);
      CoreCurrent(Created(Abs(), x, priority));
      var p := if priority >= |ready| then |ready| - 1 else priority;
      AdmitShape(Abs(), x, p);
      tasks := tasks[x := Tcb(p, |ready| - p, Nowhere, NoEvent)];
      AddTaskToReadyList(x);
      if tasks[current].priority < p {
        SwitchContext();
      }
    }

    /** The common start of vTaskDelete and vTaskSuspend: off the state list, then off any event list. */
    method Free(x: TaskId)
      requires Caches() && Core(Abs()) && x in tasks
      modifies this`tasks, this`ready, this`delayed, this`overflow, this`suspended, this`termination
      modifies this`pending, this`events
      ensures Caches() && Abs() == Freed(old(Abs()), x)
    {
      hide Shape, Count, Caches, Merged, At, Detach, DropEvent;
      DetachFirst(Abs(), x);
      RemoveStateItem(x);
      if tasks[x].event != NoEvent {
        RemoveEventItem(x);
      }
    }

    /** vTaskDelete of another task */
    method Delete(x: TaskId)
      requires Valid() && x in tasks && x != current && x != idle
      modifies this`tasks, this`ready, this`delayed, this`overflow, this`suspended, this`termination
      modifies this`pending, this`events, this`nextUnblock
      ensures Valid() && Abs() == KernelTasks.Delete(old(Abs()), x)
    {
      hide Core, Top, Caches, Merged, At, Freed, Shape;
      InvCore(Abs());
      DeleteKeeps(Abs(), x);
      Free(x);
      tasks := tasks - {x};
      CoreSorted(Abs());
      ResetNextTaskUnblockTime();
    }

    /** vTaskDelete of the running task, with the switch to another one. */
    method DeleteSelf()
      requires Valid() && current != idle
      modifies this
      ensures Valid()
      ensures var r := KernelTasks.DeleteSelf(old(Abs())); Core(r) && Abs() == KernelOps.SwitchContext(r)
    {
      hide Core, Top, Caches, Merged, At, Freed, Shape, Count, KernelOps.SwitchContext;
      InvCore(Abs());
      DeleteSelfKeeps(Abs());
      FreedKeeps(Abs(), current);
      SwitchKeepsInv(KernelTasks.DeleteSelf(Abs()));
      Free(current);
      termination := termination + [current];
      tasks := tasks[current := tasks[current].(place := InTermination)];
      SwitchContext();
    }

    /** uxDeletedTasksWaitingCleanUp counts the tasks on the termination list. */
    function DeletedTasksWaitingCleanUp(): nat
      reads this`termination
    {
      |termination|
    }

    /** The critical section of prvCheckTasksWaitingTermination, and the freeing of the control block. */
    method ReapFirst()
      requires Valid() && current == idle && termination != []
      modifies this`tasks, this`ready, this`delayed, this`overflow, this`suspended, this`termination
      ensures Valid() && current == idle && Core(old(Abs())) && Abs() == KernelTasks.Reap(old(Abs()))
    {
      hide Inv, Core, Caches, Merged, At, Shape, Detach;
      ReapTurn(Abs());
      var x := termination[0];
      RemoveStateItem(x);
      tasks := tasks - {x};
    }

    /** prvCheckTasksWaitingTermination, run by the idle task. */
    method CheckTasksWaitingTermination()
      requires Valid() && current == idle
      modifies this`tasks, this`ready, this`delayed, this`overflow, this`suspended, this`termination
      ensures Valid() && termination == []
      ensures Abs() == ReapAll(old(Abs()))
    {
      hide Inv, Core, Caches, Merged, At, Shape, Reap;
      while DeletedTasksWaitingCleanUp() > 0
        invariant Valid() && current == idle && ReapAll(old(Abs())) == ReapAll(Abs())
        decreases |termination|
      {
        ReapTurn(Abs());
        ReapFirst();
      }
    }

    /** vTaskSuspend */
    method Suspend(x: TaskId)
      requires Valid() && x in tasks && x != idle
      modifies this
      ensures Valid()
      ensures var r := SuspendTask(old(Abs()), x);
              Core(r) && Abs() == if x == old(current) then KernelOps.SwitchContext(r) else r
    {
      hide Core, Top, Caches, Merged, At, Freed, Shape, AddSuspended, KernelOps.SwitchContext;
      InvCore(Abs());
      SuspendTaskKeeps(Abs(), x);
      FreedKeeps(Abs(), x);
      Free(x);
      AddToSuspended(x);
      SwitchKeepsInv(Abs());
      CoreSorted(Abs());
      ResetNextTaskUnblockTime();
      if x == current {
        SwitchContext();
      }
    }

    /** vTaskResume */
    method Resume(x: TaskId)
      requires Valid() && x in tasks
      modifies this
      ensures Valid() && Abs() == ResumeTask(old(Abs()), x)
    {
      hide Core, Top, Caches, Merged, At, ToReady, Shape, KernelOps.SwitchContext;
      InvCore(Abs());
      ResumeTaskKeeps(Abs(), x);
      if x != current && IsSuspended(tasks[x]) {
        ToReadyKeeps(Abs(), x);
        var above := tasks[x].priority >= tasks[current].priority;
        MoveToReady(x);
        if above {
          SwitchContext();
        }
      }
    }

    /** xTaskResumeFromISR */
    method ResumeFromIsr(x: TaskId) returns (yieldRequired: bool)
      requires Valid() && x in tasks
      modifies this
      ensures Valid() && (Abs(), yieldRequired) == KernelTasks.ResumeFromIsr(old(Abs()), x)
    {
      hide Core, Top, Caches, Merged, At, ToReady, Shape, AddPending;
      InvCore(Abs());
      ResumeFromIsrKeeps(Abs(), x);
      yieldRequired := false;
      if IsSuspended(tasks[x]) {
        if nesting == 0 {
          if tasks[x].priority >= tasks[current].priority {
            yieldRequired := true;
            yieldPending := true;
          }
          MoveToReadyFlag(old(Abs()), x, yieldPending);
          MoveToReady(x);
        } else {
          AppendPending(x);
        }
      }
    }

    /** The list work of vTaskPrioritySet.  The item leaves the list that holds it, the one of its
        priority on entry. */
    method Reprioritise(x: TaskId, p: nat)
      requires Caches() && Core(Abs()) && x in tasks && p < |ready|
      modifies this`tasks, this`ready, this`delayed, this`overflow, this`suspended, this`termination, this`topReady
      ensures Caches() && Abs() == Refile(old(Abs()), x, p)
    {
      hide Shape, Count, Caches, Merged, At, Detach, AddReady;
      var inReady := tasks[x].place == InReady;
      if inReady {
        RetuneShape(Detach(Abs(), x), x, p);
        RemoveStateItem(x);
      }
      tasks := tasks[x := Retuned(tasks[x], p, |ready|)];
      if inReady {
        AddTaskToReadyList(x);
      }
    }

    /** vTaskPrioritySet */
    method PrioritySet(x: TaskId, priority: nat)
      requires Valid() && x in tasks
      modifies this
      ensures Valid() && Abs() == SetPriority(old(Abs()), x, priority)
    {
      hide Core, Top, Caches, Merged, At, Refile, Shape, KernelOps.SwitchContext;
      InvCore(Abs());
      CoreCurrent(Abs());
      SetPriorityKeeps(Abs(), x, priority);
      var p := if priority >= |ready| then |ready| - 1 else priority;
      if p != tasks[x].priority {
        var yieldRequired := false;
        if p > tasks[x].priority {
          if x != current && p >= tasks[current].priority {
            yieldRequired := true;
          }
        } else if x == current {
          yieldRequired := true;
        }
        RefileKeeps(Abs(), x, p);
        Reprioritise(x, p);
        if yieldRequired {
          SwitchContext();
        }
      }
    }

    // ---------- delays ----------

    /** vTaskDelay: a delay of zero only gives way. */
    method Delay(ticks: Tick)
      requires Valid() && MayBlock(Abs()) && nesting == 0
      modifies this
      ensures Valid() && Abs() == Delayed(old(Abs()), ticks)
    {
      hide Core, Top, Caches, Merged, At, Shape, KernelOps.SwitchContext, Block, KernelApi.ResumeAll;
      InvCore(Abs());
      SwitchKeepsInv(Abs());
      var alreadyYielded := false;
      if ticks > 0 {
        SuspendKeeps(Abs());
        SuspendAll();
        BlockStep(Abs(), ticks);
        InvCore(Abs());
        AddCurrentTaskToDelayedList(ticks, false);
        ResumeAllKeeps(Abs());
        alreadyYielded := ResumeAll();
        SwitchKeepsInv(Abs());
      }
      InvCore(Abs());
      if !alreadyYielded {
        SwitchContext();
      }
    }

    /** xTaskDelayUntil: the new wake time is stored whether or not the task delays. */
    method DelayUntil(previousWakeTime: Tick, increment: Tick) returns (shouldDelay: bool, wakeTime: Tick)
      requires Valid() && MayBlock(Abs()) && nesting == 0 && increment > 0
      modifies this
      ensures Valid() && wakeTime == Add(previousWakeTime, increment)
      ensures shouldDelay == ShouldDelay(previousWakeTime, increment, old(tick))
      ensures Abs() == Paused(old(Abs()), if shouldDelay then Sub(wakeTime, old(tick)) else 0)
    {
      hide Core, Top, Caches, Merged, At, Shape, KernelOps.SwitchContext, Block, KernelApi.ResumeAll;
      InvCore(Abs());
      SuspendKeeps(Abs());
      SuspendAll();
      InvCore(Abs());
      wakeTime := Add(previousWakeTime, increment);
      shouldDelay := false;
      if tick < previousWakeTime {
        if wakeTime < previousWakeTime && wakeTime > tick {
          shouldDelay := true;
        }
      } else if wakeTime < previousWakeTime || wakeTime > tick {
        shouldDelay := true;
      }
      if shouldDelay {
        ShouldDelayMeans(previousWakeTime, increment, tick);
        BlockStep(Abs(), Sub(wakeTime, tick));
        BlockNesting(Abs(), Sub(wakeTime, tick));
        AddCurrentTaskToDelayedList(Sub(wakeTime, tick), false);
      }
      ResumeAllKeeps(Abs());
      var alreadyYielded := ResumeAll();
      SwitchKeepsInv(Abs());
      InvCore(Abs());
      if !alreadyYielded {
        SwitchContext();
      }
    }

    // ---------- timeouts ----------

    /** vTaskSetTimeOutState */
    method SetTimeOutState(timeOut: TimeOut)
      requires Valid()
      modifies timeOut
      ensures timeOut.Value() == StampAt(Abs().tick)
    {
      EpochLow(epoch, tick);
      timeOut.overflowCount := numOfOverflows;
      timeOut.timeOnEntering := tick;
    }

    /** xTaskCheckForTimeOut */
    method CheckForTimeOut(timeOut: TimeOut, ticksToWait: Tick) returns (timedOut: bool, remaining: Tick)
      requires Valid()
      modifies timeOut
      ensures Verdict(timedOut, remaining, timeOut.Value()) ==
              Check(StampAt(Abs().tick), old(timeOut.Value()), ticksToWait)
    {
      EpochLow(epoch, tick);
      var elapsed := Sub(tick, timeOut.timeOnEntering);
      if ticksToWait == MAX_DELAY {
        timedOut, remaining := false, ticksToWait;
      } else if numOfOverflows != timeOut.overflowCount && tick >= timeOut.timeOnEntering {
        timedOut, remaining := true, 0;
      } else if elapsed < ticksToWait {
        timedOut, remaining := false, ticksToWait - elapsed;
        SetTimeOutState(timeOut);
      } else {
        timedOut, remaining := true, 0;
      }
    }

    /** xTaskCatchUpTicks */
    method CatchUpTicks(ticks: Tick) returns (yieldOccurred: bool)
      requires Valid() && nesting == 0
      modifies this
      ensures Valid() && (Abs(), yieldOccurred) == CaughtUp(old(Abs()), ticks)
    {
      hide Core, Top, Caches, Merged, At, KernelApi.ResumeAll;
      SuspendKeeps(Abs());
      SuspendAll();
      FlagCore(Abs(), yieldPending, nesting, pendedTicks + ticks);
      pendedTicks := pendedTicks + ticks;
      yieldOccurred := ResumeAll();
    }
  }

  lemma SuspendKeeps(k: K)
    requires Inv(k)
    ensures Inv(KernelApi.SuspendAll(k))
  {
    hide Core, Top;
    FlagCore(k, k.yieldPending, k.nesting + 1, k.pendedTicks);
  }

  /** The body of vTaskDelay and xTaskDelayUntil on the specification state: wait n ticks, if any,
      with the scheduler suspended around it, and give way. */
  ghost function Paused(k: K, n: nat): K
    requires Inv(k) && MayBlock(k)
  {
    hide Core, Top, Shape, Block, KernelApi.ResumeAll, KernelOps.SwitchContext;
    SuspendKeeps(k);
    var s := KernelApi.SuspendAll(k);
    InvCore(s);
    var b := if n == 0 then s else (BlockStep(s, n); BlockNesting(s, n); Block(s, n, false));
    ResumeAllKeeps(b);
    var (r, switched) := KernelApi.ResumeAll(b);
    if switched then r else KernelOps.SwitchContext(r)
  }

  /** The steps vTaskDelay is made of: interrupts may come between any two of them. */
  ghost function PauseSteps(k: K, n: nat): seq<Op>
    requires Inv(k) && MayBlock(k) && IsDelay(n)
  {
    SuspendKeeps(k);
    var s := KernelApi.SuspendAll(k);
    BlockStep(s, n);
    BlockNesting(s, n);
    [KernelRuns.Suspend, KernelRuns.Delay(n), KernelRuns.Resume]
    + if KernelApi.ResumeAll(Block(s, n, false)).1 then [] else [KernelRuns.Yield]
  }

  /** Running one step and then the rest. */
  lemma RunOne(k: K, op: KernelRuns.Op, rest: seq<KernelRuns.Op>)
    requires Inv(k) && Enabled(k, op) && Inv(KernelRuns.Step(k, op)) && Run(KernelRuns.Step(k, op), rest)
    ensures Run(k, [op] + rest)
    ensures KernelRuns.After(k, [op] + rest) == KernelRuns.After(KernelRuns.Step(k, op), rest)
  {
    hide Inv, Enabled, KernelRuns.Step;
    assert ([op] + rest)[1..] == rest;
  }

  lemma RunNone(k: K)
    requires Inv(k)
    ensures Run(k, []) && KernelRuns.After(k, []) == k
  {
  }

  /** A delay without interrupts in between is a run of the scheduler, so what holds of every run holds
      of it. */
  lemma PausedIsRun(k: K, n: nat)
    requires Inv(k) && MayBlock(k) && IsDelay(n)
    ensures Run(k, PauseSteps(k, n)) && KernelRuns.After(k, PauseSteps(k, n)) == Paused(k, n)
  {
    hide Core, Top, Shape, Block, KernelApi.ResumeAll, KernelOps.SwitchContext, Run, KernelRuns.After;
    SuspendKeeps(k);
    var s := KernelApi.SuspendAll(k);
    InvCore(s);
    BlockStep(s, n);
    BlockNesting(s, n);
    var b := Block(s, n, false);
    ResumeAllKeeps(b);
    var (r, switched) := KernelApi.ResumeAll(b);
    var last := if switched then [] else [KernelRuns.Yield];
    if switched {
      RunNone(r);
    } else {
      SwitchKeepsInv(r);
      RunNone(KernelOps.SwitchContext(r));
      RunOne(r, KernelRuns.Yield, []);
      assert [KernelRuns.Yield] + [] == last;
    }
    RunOne(b, KernelRuns.Resume, last);
    RunOne(s, KernelRuns.Delay(n), [KernelRuns.Resume] + last);
    RunOne(k, KernelRuns.Suspend, [KernelRuns.Delay(n)] + ([KernelRuns.Resume] + last));
    assert PauseSteps(k, n) == [KernelRuns.Suspend] + ([KernelRuns.Delay(n)] + ([KernelRuns.Resume] + last));
  }

  /** vTaskDelay on the specification state. */
  ghost function Delayed(k: K, n: nat): K
    requires Inv(k) && MayBlock(k)
  {
    InvCore(k);
    if n == 0 then KernelOps.SwitchContext(k) else Paused(k, n)
  }

  /** xTaskCatchUpTicks on the specification state: the ticks pass as if they had been pended. */
  ghost function CaughtUp(k: K, n: nat): (K, bool)
    requires Inv(k) && k.nesting == 0
  {
    hide Core, Top;
    SuspendKeeps(k);
    var s := KernelApi.SuspendAll(k);
    FlagCore(s, s.yieldPending, s.nesting, s.pendedTicks + n);
    KernelApi.ResumeAll(s.(pendedTicks := s.pendedTicks + n))
  }

  /** Catching up moves the clock by exactly the ticks asked for. */
  lemma CaughtUpTicks(k: K, n: nat)
    requires Inv(k) && k.nesting == 0
    ensures Inv(CaughtUp(k, n).0) && CaughtUp(k, n).0.tick == k.tick + n
  {
    hide Core, Top, KernelApi.ResumeAll;
    SuspendKeeps(k);
    var s := KernelApi.SuspendAll(k);
    FlagCore(s, s.yieldPending, s.nesting, s.pendedTicks + n);
    CoreCurrent(s);
    ResumeAllKeeps(s.(pendedTicks := s.pendedTicks + n));
  }

  /** The idle task's clean-up loop on the specification state. */
  ghost function ReapAll(k: K): K
    requires Inv(k) && k.current == k.idle
    decreases |k.termination|
  {
    if k.termination == [] then k
    else
      ReapTurn(k);
      ReapAll(Reap(k))
  }

  lemma ReapTurn(k: K)
    requires Inv(k) && k.current == k.idle && k.termination != []
    ensures Core(k) && Shape(k)
    ensures k.termination[0] in k.tasks && k.tasks[k.termination[0]].place == InTermination
    ensures Inv(Reap(k)) && Reap(k).current == k.idle && Reap(k).idle == k.idle
    ensures Reap(k).termination == Without(k.termination, k.termination[0])
  {
    hide Count, StateSide, EventSide, StateMove, Top, Sorted, Times, Without;
    ReapHead(k);
    ReapKeeps(k);
  }

  /** A pending yield plays no part in moving a task to a ready list. */
  lemma MoveToReadyFlag(k: K, x: TaskId, y: bool)
    requires Shape(k) && x in k.tasks && k.tasks[x].place != Nowhere
    ensures Shape(k.(yieldPending := y)) && ToReady(k.(yieldPending := y), x) == ToReady(k, x).(yieldPending := y)
  {
    hide StateSide, EventSide, Count;
  }

  lemma WrapCounted(epoch: nat)
    ensures Add(Low(epoch), 1) == Low(epoch + 1)
  {
  }

  lemma Waiters(k: K, e: EventId)
    requires Shape(k) && e in k.events
    ensures forall x | x in k.events[e] :: x in k.tasks
  {
    assert FilesEvent(k.tasks, k.events[e], OnEvent(e));
  }

  lemma BaseShape(k: K)
    requires Base(k)
    ensures Shape(k)
  {
  }

  /** One turn of the loop over the pending-ready list. */
  lemma DrainTurn(k: K)
    requires Core(k) && k.pending != []
    ensures k.current in k.tasks && k.pending[0] in k.tasks && Blocked(k.tasks[k.pending[0]])
    ensures var x := k.pending[0];
      var w := Wake(k, x);
      && x in w.tasks && w.current in w.tasks
      && var n := w.(yieldPending := w.yieldPending || w.tasks[x].priority >= w.tasks[w.current].priority);
      && Core(n) && Drain(k) == Drain(n) && |n.pending| < |k.pending|
  {
    hide Core, Wake, Top;
    CoreCurrent(k);
    PendingHead(k);
    var x := k.pending[0];
    WakeKeeps(k, x);
    var w := Wake(k, x);
    FlagCore(w, w.yieldPending || w.tasks[x].priority >= w.tasks[w.current].priority, w.nesting, w.pendedTicks);
  }

  lemma DrainEnd(k: K)
    requires Core(k) && k.pending == []
    ensures Drain(k) == k
  {
  }

  lemma TickCore(k: K)
    requires Inv(k)
    ensures Core(KernelOps.IncrementTick(k).0)
  {
    hide Core, Top, KernelOps.TickOnce;
    if k.nesting == 0 {
      TickOnceKeeps(k);
    } else {
      FlagCore(k, k.yieldPending, k.nesting, k.pendedTicks + 1);
    }
  }

  lemma CoreSorted(k: K)
    requires Core(k)
    ensures Sorted(Times(k.delayed))
  {
  }

  /** With the counter at its greatest value nobody can wait for a later time in the same wrap. */
  lemma NoneLeft(d: seq<Timed>, o: seq<Timed>, epoch: nat)
    requires Fits(d) && forall e | e in Merged(d, o, epoch) :: At(epoch, MAX_DELAY) < e.time
    ensures d == []
  {
    if d != [] {
      FirstTime(d, o, epoch);
      assert false;
    }
  }

  lemma FirstTime(d: seq<Timed>, o: seq<Timed>, epoch: nat)
    requires d != [] && Fits(d)
    ensures exists e :: e in Merged(d, o, epoch) && e.time <= At(epoch, MAX_DELAY)
  {
    assert d[0] in d;
    assert Merged(d, o, epoch)[0] in Merged(d, o, epoch);
  }

  lemma HeadDue(d: seq<Timed>, o: seq<Timed>, epoch: nat, tick: Tick)
    requires d != [] && d[0].time <= tick
    ensures var m := Merged(d, o, epoch);
            m != [] && m[0].task == d[0].task && m[0].time <= At(epoch, tick)
  {
  }

  lemma HeadLater(d: seq<Timed>, o: seq<Timed>, epoch: nat, tick: Tick)
    requires d != [] ==> tick < d[0].time
    ensures var m := Merged(d, o, epoch); m != [] ==> At(epoch, tick) < m[0].time
  {
  }

  lemma OwnRing(k: K)
    requires Core(k)
    ensures k.current in k.tasks && k.tasks[k.current].priority < |k.ready|
    ensures ReadyWithCurrent(k) == k.ready[k.tasks[k.current].priority].items
  {
    CoreCurrent(k);
  }

  lemma UnwindOne(k: K, n: nat)
    requires Core(k) && Future(k) && k.nesting == 0 && n > 0
    ensures (CountedKeeps(k); Unwind(k, n) == Unwind(Counted(k), n - 1))
  {
    hide Core, Future, Counted;
  }

  lemma UnwindNone(k: K)
    requires Core(k) && Future(k) && k.nesting == 0
    ensures Unwind(k, 0) == k
  {
    hide Core, Future;
  }

  /** Below the first wake time the scan changes nothing, so it can be skipped. */
  lemma NothingDue(k: K)
    requires Core(k) && (k.delayed != [] ==> k.tick < k.delayed[0].time)
    ensures Expire(k) == (k, false)
  {
  }

  /** The event item plays no part in taking the state item off its list ... */
  lemma DetachAside(k: K, d: K, x: TaskId)
    requires Shape(k) && Shape(d) && x in k.tasks && k.tasks[x].place != Nowhere && EventMove(k, d)
    requires x in d.tasks && d.tasks[x] == k.tasks[x].(event := d.tasks[x].event)
    ensures var r := Detach(k, x);
      Detach(d, x) == d.(ready := r.ready, delayed := r.delayed, suspended := r.suspended,
                         termination := r.termination, tasks := Detach(d, x).tasks)
  {
    hide Shape, Count, Sorted, Times, DropTimed, Remove, Without;
  }

  /** ... and the state item none in taking the event item off. */
  lemma DropAside(k: K, r: K, x: TaskId)
    requires Shape(k) && Shape(r) && x in k.tasks && StateMove(k, r)
    requires x in r.tasks && r.tasks[x] == k.tasks[x].(place := r.tasks[x].place)
    ensures var d := DropEvent(k, x);
      DropEvent(r, x) == r.(events := d.events, pending := d.pending, tasks := DropEvent(r, x).tasks)
    ensures k.tasks[x].event == NoEvent ==> DropEvent(r, x).events == r.events && DropEvent(r, x).pending == r.pending
  {
    hide Shape, Count, Without;
  }

  /** The two items of a task are independent: they can be taken out in either order. */
  lemma DetachFirst(k: K, x: TaskId)
    requires Shape(k) && x in k.tasks && k.tasks[x].place != Nowhere
    ensures DropEvent(Detach(k, x), x) == Detach(DropEvent(k, x), x)
    ensures k.tasks[x].event == NoEvent ==> DropEvent(Detach(k, x), x) == Detach(k, x)
  {
    hide Shape, Count, Sorted, Times, Detach, DropEvent;
    var r, d := Detach(k, x), DropEvent(k, x);
    DetachAside(k, d, x);
    DropAside(k, r, x);
    assert r.tasks[x := r.tasks[x].(event := NoEvent)] == d.tasks[x := d.tasks[x].(place := Nowhere)];
    if k.tasks[x].event == NoEvent {
      assert r.tasks[x := r.tasks[x].(event := NoEvent)] == r.tasks;
    }
  }

  /** A container pointer that names a list points to one that holds the item. */
  lemma Held(k: K, x: TaskId)
    requires Shape(k) && x in k.tasks
    ensures var t := k.tasks[x];
      && t.priority < |k.ready|
      && (t.place == InReady ==> x in k.ready[t.priority].items)
      && (forall p | 0 <= p < |k.ready| :: k.ready[p].Valid())
      && (t.place == InDelayed ==> x in Names(k.delayed))
      && (t.event.OnEvent? ==> t.event.e in k.events)
  {
  }

  lemma InsertedFit(d: seq<Timed>, e: Timed)
    requires Fits(d) && e.time <= MAX_DELAY
    ensures Fits(InsertTimed(d, e)) && forall f | f in InsertTimed(d, e) :: f in d || f == e
  {
    hide SortedPosition;
  }

  lemma Wraps(epoch: nat, tick: Tick, n: Tick)
    ensures At(if Add(tick, n) < tick then epoch + 1 else epoch, Add(tick, n)) == At(epoch, tick) + n
  {
  }
}
