/** The kernel's operations on the specification state, each with the invariants it keeps. */
module KernelOps {
  import opened Rings
  import opened Kernel

  /** The structural invariant.  The idle task is never blocked, suspended or deleted, so a ready
      task always exists. */
  ghost predicate Base(k: K) {
    && Shape(k)
    && (forall x | x in k.tasks :: k.tasks[x].place != Nowhere)
    && Count(k) == |k.tasks|
    && Sorted(Times(k.delayed))
    && k.idle in k.tasks && k.tasks[k.idle].place == InReady
    && k.current in k.tasks
  }

  /** Between operations an event item is only in a list while its task is blocked. */
  ghost predicate Core(k: K) {
    Base(k) && forall x | x in k.tasks && k.tasks[x].event != NoEvent :: Blocked(k.tasks[x])
  }

  predicate Blocked(t: Tcb) {
    t.place == InDelayed || t.place == InSuspended
  }

  /** No ready task has a higher priority than the running one. */
  ghost predicate Top(k: K)
    requires k.current in k.tasks
  {
    forall p | k.tasks[k.current].priority < p < |k.ready| :: k.ready[p].items == []
  }

  /** Preemption safety: a ready task above the running one is always accompanied by a pending yield. */
  ghost predicate Calm(k: K)
    requires k.current in k.tasks
  {
    !k.yieldPending ==> Top(k)
  }

  /** Every timed wait ends in the future. */
  ghost predicate Future(k: K) {
    forall e | e in k.delayed :: k.tick < e.time
  }

  /** While the scheduler runs nothing waits in the pending-ready list and no tick is pended. */
  ghost predicate Rested(k: K) {
    k.nesting == 0 ==> k.pending == [] && k.pendedTicks == 0
  }

  ghost predicate Inv(k: K) {
    Core(k) && Future(k) && Calm(k) && Rested(k)
  }

  /** Only tasks moved between lists. */
  ghost predicate Moves(k: K, r: K) {
    && |r.ready| == |k.ready| && r.tasks.Keys == k.tasks.Keys
    && (forall x | x in k.tasks :: r.tasks[x].priority == k.tasks[x].priority)
    && r == k.(tasks := r.tasks, ready := r.ready, delayed := r.delayed, suspended := r.suspended,
               termination := r.termination, events := r.events, pending := r.pending)
  }

  lemma MovesReflexive(k: K)
    ensures Moves(k, k)
  {
  }

  lemma MovesTransitive(a: K, b: K, c: K)
    requires Moves(a, b) && Moves(b, c)
    ensures Moves(a, c)
  {
  }

  lemma CoreCurrent(k: K)
    requires Core(k)
    ensures Shape(k) && k.current in k.tasks && k.tasks[k.current].priority < |k.ready|
  {
  }

  // ---------- waking ----------

  /** Move a task to the ready list of its priority. */
  ghost function ToReady(k: K, x: TaskId): K
    requires Shape(k) && x in k.tasks && k.tasks[x].place != Nowhere
  {
    AddReady(Detach(k, x), x)
  }

  lemma ToReadyKeeps(k: K, x: TaskId)
    requires Core(k) && x in k.tasks && k.tasks[x].place != InTermination && k.tasks[x].event == NoEvent
    ensures var r := ToReady(k, x);
      && Core(r) && StateMove(k, r)
      && r.tasks == k.tasks[x := k.tasks[x].(place := InReady)]
      && (Top(k) && k.tasks[x].priority <= k.tasks[k.current].priority ==> Top(r))
      && (forall e | e in r.delayed :: e in k.delayed)
      && (forall e | e in k.delayed && e.task != x :: e in r.delayed)
  {
    hide AddReady, Detach, StateSide, EventSide;
  }

  /** Take a blocked task off the event list or the pending-ready list that holds its event item,
      and make it ready. */
  ghost function Wake(k: K, x: TaskId): K
    requires Shape(k) && x in k.tasks && k.tasks[x].place != Nowhere
  {
    ToReady(DropEvent(k, x), x)
  }

  lemma DropEventKeeps(k: K, x: TaskId)
    requires Core(k) && x in k.tasks
    ensures var r := DropEvent(k, x);
      && Core(r) && (Top(k) ==> Top(r)) && r.delayed == k.delayed
      && (k.tasks[x].event == OnPending ==> r.pending == Without(k.pending, x))
      && (k.tasks[x].event != OnPending ==> r.pending == k.pending)
  {
    hide StateSide, EventSide;
  }

  /** The event item leaves the list that holds it, and no other event list changes. */
  lemma DropEventLists(k: K, x: TaskId)
    requires Shape(k) && x in k.tasks
    ensures k.tasks[x].event.OnEvent? ==> k.tasks[x].event.e in k.events
    ensures DropEvent(k, x).events ==
      match k.tasks[x].event
      case OnEvent(e) => k.events[e := Without(k.events[e], x)]
      case _ => k.events
  {
    hide StateSide, FilesEvent;
  }

  lemma WakeKeeps(k: K, x: TaskId)
    requires Core(k) && x in k.tasks && Blocked(k.tasks[x])
    ensures var r := Wake(k, x);
      && Core(r) && r.tasks == k.tasks[x := k.tasks[x].(place := InReady, event := NoEvent)]
      && Moves(k, r) && r.current == k.current && r.tick == k.tick
      && (k.tasks[x].event == OnPending ==> r.pending == Without(k.pending, x))
      && (k.tasks[x].event != OnPending ==> r.pending == k.pending)
      && (Top(k) && k.tasks[x].priority <= k.tasks[k.current].priority ==> Top(r))
      && (forall e | e in r.delayed :: e in k.delayed)
      && (forall e | e in k.delayed && e.task != x :: e in r.delayed)
  {
    hide Core, ToReady, DropEvent, StateSide, EventSide;
    CoreCurrent(k);
    DropEventKeeps(k, x);
    ToReadyKeeps(DropEvent(k, x), x);
  }

  // ---------- the tick ----------

  lemma HeadIsDelayed(k: K)
    requires Shape(k) && k.delayed != []
    ensures k.delayed[0].task in k.tasks && k.tasks[k.delayed[0].task].place == InDelayed
  {
    assert Names(k.delayed)[0] == k.delayed[0].task;
  }

  /** Wake every task whose time has come, in order of wake time, and report whether one of them has
      a higher priority than the running task. */
  ghost function Expire(k: K): (K, bool)
    requires Core(k)
    decreases |k.delayed|
  {
    if k.delayed != [] && k.delayed[0].time <= k.tick then
      var x := k.delayed[0].task;
      HeadIsDelayed(k);
      WakeKeeps(k, x);
      WakeHead(k);
      var (r, above) := Expire(Wake(k, x));
      (r, above || k.tasks[x].priority > k.tasks[k.current].priority)
    else
      (k, false)
  }

  lemma WakeHead(k: K)
    requires Core(k) && k.delayed != []
    ensures k.delayed[0].task in k.tasks && k.tasks[k.delayed[0].task].place == InDelayed
    ensures Wake(k, k.delayed[0].task).delayed == k.delayed[1..]
  {
    HeadIsDelayed(k);
    hide StateSide, EventSide, AddReady, DropEvent;
    var x := k.delayed[0].task;
    assert DropTimed(k.delayed, x) == k.delayed[1..] by {
      assert Position(Names(k.delayed), x) == 0;
    }
    assert Detach(DropEvent(k, x), x) == DetachDelayed(DropEvent(k, x), x);
  }

  lemma {:induction false} ExpireKeeps(k: K)
    requires Core(k)
    ensures var r := Expire(k).0; Core(r) && Moves(k, r) && (k.pending == [] ==> r.pending == [])
    decreases |k.delayed|
  {
    hide Core, Wake, Moves, Shape;
    CoreCurrent(k);
    if k.delayed != [] && k.delayed[0].time <= k.tick {
      var x := k.delayed[0].task;
      WakeHead(k);
      WakeKeeps(k, x);
      var w := Wake(k, x);
      ExpireKeeps(w);
      MovesTransitive(k, w, Expire(w).0);
    } else {
      MovesReflexive(k);
    }
  }

  lemma {:induction false} ExpireTop(k: K)
    requires Core(k) && Top(k)
    ensures Core(Expire(k).0)
    ensures !Expire(k).1 ==> Top(Expire(k).0)
    decreases |k.delayed|
  {
    hide Core, Wake, Moves, Shape;
    CoreCurrent(k);
    if k.delayed != [] && k.delayed[0].time <= k.tick {
      var x := k.delayed[0].task;
      WakeHead(k);
      WakeKeeps(k, x);
      var w := Wake(k, x);
      CoreCurrent(w);
      if k.tasks[x].priority <= k.tasks[k.current].priority {
        ExpireTop(w);
      }
      ExpireKeeps(w);
    }
  }

  /** Expire touches nobody but the tasks it wakes. */
  lemma {:induction false} ExpireOthers(k: K, y: TaskId)
    requires Core(k) && y in k.tasks && k.tasks[y].place != InDelayed
    ensures y in Expire(k).0.tasks && Expire(k).0.tasks[y] == k.tasks[y]
    decreases |k.delayed|
  {
    hide Core, Wake, Moves, Shape;
    CoreCurrent(k);
    if k.delayed != [] && k.delayed[0].time <= k.tick {
      var x := k.delayed[0].task;
      WakeHead(k);
      WakeKeeps(k, x);
      var w := Wake(k, x);
      ExpireOthers(w, y);
    }
  }

  /** Expire removes exactly the waits whose time has come. */
  lemma {:induction false} ExpireExact(k: K)
    requires Core(k)
    ensures var r := Expire(k).0;
      && (forall e | e in r.delayed :: e in k.delayed && k.tick < e.time)
      && (forall e | e in k.delayed && k.tick < e.time :: e in r.delayed)
    decreases |k.delayed|
  {
    hide Core, Wake, Moves, Shape;
    CoreCurrent(k);
    if k.delayed != [] && k.delayed[0].time <= k.tick {
      var x := k.delayed[0].task;
      WakeHead(k);
      WakeKeeps(k, x);
      var w := Wake(k, x);
      ExpireExact(w);
      assert forall e | e in k.delayed :: e == k.delayed[0] || e in w.delayed;
    } else {
      SortedFuture(k);
    }
  }

  /** ... and a task whose time has come is ready afterwards, off any event list. */
  lemma {:induction false} ExpireReadies(k: K, e: Timed)
    requires Core(k) && e in k.delayed && e.time <= k.tick
    ensures e.task in Expire(k).0.tasks
    ensures Expire(k).0.tasks[e.task].place == InReady && Expire(k).0.tasks[e.task].event == NoEvent
    decreases |k.delayed|
  {
    hide Core, Wake, Moves, Shape;
    CoreCurrent(k);
    if k.tick < k.delayed[0].time {
      SortedFuture(k);
    } else {
      var x := k.delayed[0].task;
      WakeHead(k);
      WakeKeeps(k, x);
      if e == k.delayed[0] {
        ExpireOthers(Wake(k, x), x);
      } else {
        ExpireReadies(Wake(k, x), e);
      }
    }
  }

  lemma SortedFuture(k: K)
    requires Core(k) && (k.delayed != [] ==> k.tick < k.delayed[0].time)
    ensures Future(k)
  {
    assert forall i :: 0 <= i < |k.delayed| ==> Times(k.delayed)[i] == k.delayed[i].time;
  }

  /** xTaskIncrementTick while the scheduler is not suspended: the result says whether a context
      switch is due, because a woken task is above the running one, a task of the same priority is
      ready too (time slicing), or a yield was pending. */
  ghost function TickOnce(k: K): (K, bool)
    requires Core(k)
  {
    var (r, above) := Expire(k.(tick := k.tick + 1));
    (r, above || |ReadyWithCurrent(r)| > 1 || r.yieldPending)
  }

  ghost function ReadyWithCurrent(k: K): seq<TaskId> {
    if k.current in k.tasks && k.tasks[k.current].priority < |k.ready| then
      k.ready[k.tasks[k.current].priority].items
    else
      []
  }

  ghost function IncrementTick(k: K): (K, bool)
    requires Core(k)
  {
    if k.nesting == 0 then TickOnce(k) else (k.(pendedTicks := k.pendedTicks + 1), false)
  }

  lemma LaterCore(k: K, t: nat)
    requires Core(k)
    ensures Core(k.(tick := t)) && (Top(k) ==> Top(k.(tick := t)))
  {
  }

  lemma TickOnceKeeps(k: K)
    requires Core(k) && Future(k)
    ensures var (r, due) := TickOnce(k);
      && Core(r) && Future(r) && r.tasks.Keys == k.tasks.Keys
      && (k.pending == [] ==> r.pending == [])
      && r.tick == k.tick + 1 && r.yieldPending == k.yieldPending && r.nesting == k.nesting
      && r.pendedTicks == k.pendedTicks
      && (k.yieldPending ==> due)
      && (!due && Calm(k) ==> Top(r))
      && (forall e | e in r.delayed :: e in k.delayed && e.time != k.tick + 1)
      && (forall e | e in k.delayed && e.time != k.tick + 1 :: e in r.delayed)
  {
    hide Core, Expire, Top;
    LaterCore(k, k.tick + 1);
    var n := k.(tick := k.tick + 1);
    CoreCurrent(n);
    ExpireKeeps(n);
    ExpireExact(n);
    if Top(n) {
      ExpireTop(n);
    }
  }

  /** The scan asks for a switch exactly if a task whose time has come is above the running one. */
  lemma {:induction false} ExpireAsks(k: K)
    requires Core(k)
    ensures forall t | t in k.delayed :: t.task in k.tasks
    ensures k.current in k.tasks
    ensures Expire(k).1 <==>
              exists t :: t in k.delayed && t.time <= k.tick && k.tasks[t.task].priority > k.tasks[k.current].priority
    decreases |k.delayed|
  {
    hide Core, Wake, Moves, Shape;
    CoreCurrent(k);
    DelayedKnown(k);
    if k.delayed != [] && k.delayed[0].time <= k.tick {
      var x := k.delayed[0].task;
      WakeHead(k);
      WakeKeeps(k, x);
      var w := Wake(k, x);
      ExpireAsks(w);
      assert forall t :: t in k.delayed <==> t == k.delayed[0] || t in w.delayed;
      MovesPriorities(k, w);
    } else {
      SortedFuture(k);
    }
  }

  lemma DelayedKnown(k: K)
    requires Core(k)
    ensures forall t | t in k.delayed :: t.task in k.tasks
  {
    forall t | t in k.delayed
      ensures t.task in k.tasks
    {
      var i :| 0 <= i < |k.delayed| && k.delayed[i] == t;
      assert Names(k.delayed)[i] == t.task;
    }
  }

  lemma MovesPriorities(k: K, r: K)
    requires Moves(k, r)
    ensures r.tasks.Keys == k.tasks.Keys && r.current == k.current && r.tick == k.tick
    ensures forall x | x in k.tasks :: r.tasks[x].priority == k.tasks[x].priority
  {
  }

  /** Another task is ready at the running task's priority. */
  ghost predicate Shares(k: K)
    requires k.current in k.tasks
  {
    exists y, z | y in k.tasks && z in k.tasks && y != z ::
      && k.tasks[y].place == InReady && k.tasks[y].priority == k.tasks[k.current].priority
      && k.tasks[z].place == InReady && k.tasks[z].priority == k.tasks[k.current].priority
  }

  lemma ReadyBeside(k: K)
    requires Core(k)
    ensures k.current in k.tasks && NoDup(ReadyWithCurrent(k))
    ensures forall y :: y in ReadyWithCurrent(k) <==>
              y in k.tasks && k.tasks[y].place == InReady && k.tasks[y].priority == k.tasks[k.current].priority
  {
    hide EventSide, Files, Count, Sorted, Times, NoDup;
    CoreCurrent(k);
    assert k.ready[k.tasks[k.current].priority].Valid();
  }

  lemma TwoIn(s: seq<TaskId>, y: TaskId, z: TaskId)
    requires y in s && z in s && y != z
    ensures |s| > 1
  {
  }

  lemma SharesMeans(k: K)
    requires Core(k)
    ensures k.current in k.tasks && (|ReadyWithCurrent(k)| > 1 <==> Shares(k))
  {
    hide Core, ReadyWithCurrent;
    ReadyBeside(k);
    var items := ReadyWithCurrent(k);
    if |items| > 1 {
      assert items[0] in items && items[1] in items && items[0] != items[1];
    }
    if Shares(k) {
      var y, z :| y in k.tasks && z in k.tasks && y != z
        && k.tasks[y].place == InReady && k.tasks[y].priority == k.tasks[k.current].priority
        && k.tasks[z].place == InReady && k.tasks[z].priority == k.tasks[k.current].priority;
      TwoIn(items, y, z);
    }
  }

  /** A tick asks for a switch if and only if a yield is pending, a task whose wait ends with this very
      tick is above the running one, or two tasks of the running one's priority are ready. */
  lemma TickAsks(k: K)
    requires Core(k) && Future(k)
    ensures k.current in k.tasks && (forall t | t in k.delayed :: t.task in k.tasks)
    ensures var r := TickOnce(k).0;
      && r.current == k.current && r.current in r.tasks
      && (TickOnce(k).1 <==>
            || k.yieldPending || Shares(r)
            || exists t :: t in k.delayed && t.time == k.tick + 1
                 && k.tasks[t.task].priority > k.tasks[k.current].priority)
  {
    hide Core, Expire, Shares, ReadyWithCurrent;
    LaterCore(k, k.tick + 1);
    var n := k.(tick := k.tick + 1);
    TickOnceKeeps(k);
    ExpireAsks(n);
    ExpireKeeps(n);
    SharesMeans(TickOnce(k).0);
  }

  // ---------- choosing the running task ----------

  /** taskSELECT_HIGHEST_PRIORITY_TASK without its cache: the highest priority with a ready task. */
  ghost function TopPriority(ready: seq<Ring<TaskId>>): (p: nat)
    requires exists q :: 0 <= q < |ready| && ready[q].items != []
    ensures p < |ready| && ready[p].items != []
    ensures forall q :: p < q < |ready| ==> ready[q].items == []
  {
    var n := |ready| - 1;
    if ready[n].items != [] then n
    else
      assert forall q :: 0 <= q < n ==> ready[..n][q] == ready[q];
      TopPriority(ready[..n])
  }

  lemma IdleIsReady(k: K)
    requires Core(k)
    ensures exists q :: 0 <= q < |k.ready| && k.ready[q].items != []
    ensures k.idle in k.tasks && k.tasks[k.idle].priority < |k.ready|
    ensures k.ready[k.tasks[k.idle].priority].items != []
  {
    assert k.idle in k.ready[k.tasks[k.idle].priority].items;
  }

  /** vTaskSwitchContext: only noted while the scheduler is suspended; otherwise the next task in turn
      of the highest priority that has a ready task. */
  ghost function SwitchContext(k: K): K
    requires Core(k)
  {
    if k.nesting != 0 then k.(yieldPending := true)
    else
      IdleIsReady(k);
      var p := TopPriority(k.ready);
      var ring := Next(k.ready[p]);
      CoreTop(k, p);
      k.(yieldPending := false, ready := k.ready[p := ring], current := Selected(ring))
  }

  lemma CoreTop(k: K, p: nat)
    requires Core(k) && p < |k.ready| && k.ready[p].items != []
    ensures var ring := Next(k.ready[p]); ring.Valid() && 1 <= ring.index <= |ring.items|
    ensures var ring := Next(k.ready[p]);
            Selected(ring) in k.tasks && k.tasks[Selected(ring)].place == InReady
            && k.tasks[Selected(ring)].priority == p
  {
    assert k.ready[p].Valid();
    var ring := Next(k.ready[p]);
    assert Selected(ring) in k.ready[p].items;
  }

  lemma TurnShape(k: K, p: nat)
    requires Core(k) && p < |k.ready| && k.ready[p].items != []
    ensures Shape(k.(ready := k.ready[p := Next(k.ready[p])]))
    ensures Count(k.(ready := k.ready[p := Next(k.ready[p])])) == Count(k)
  {
    hide Files, EventSide, Load, Sorted, Times, Names;
    CoreTop(k, p);
    LoadUpdate(k.ready, p, Next(k.ready[p]));
  }

  /** vTaskSwitchContext selects a ready task of maximum priority. */
  lemma SwitchContextKeeps(k: K)
    requires Core(k)
    ensures var r := SwitchContext(k);
      && Core(r) && Calm(r) && r.tasks == k.tasks && r.delayed == k.delayed
      && r.tick == k.tick && r.pendedTicks == k.pendedTicks && r.nesting == k.nesting && r.pending == k.pending
      && r.events == k.events && |r.ready| == |k.ready|
      && (k.nesting == 0 ==> Top(r) && !r.yieldPending && r.tasks[r.current].place == InReady)
      && (k.nesting != 0 ==> r == k.(yieldPending := true))
  {
    hide StateSide, EventSide, Load, Sorted, Times;
    IdleIsReady(k);
    var p := TopPriority(k.ready);
    CoreTop(k, p);
    TurnShape(k, p);
  }
}
