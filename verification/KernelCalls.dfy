/** Event lists and task management on the specification state: each call keeps the invariant. */
module KernelCalls {
  import opened Words
  import opened Rings
  import opened Kernel
  import opened KernelOps
  import opened KernelApi

  // ---------- event lists ----------

  /** vTaskPlaceOnEventList */
  ghost function PlaceOnEvent(k: K, e: EventId, n: nat): K
    requires Shape(k) && k.current in k.tasks && k.tasks[k.current].place == InReady
    requires k.tasks[k.current].event == NoEvent && e in k.events
  {
    Block(AddEvent(k, k.current, e), n, true)
  }

  /** vTaskPlaceOnUnorderedEventList: the event value carries the caller's data, marked in use. */
  ghost function PlaceOnUnordered(k: K, e: EventId, value: nat, n: nat): K
    requires Shape(k) && k.current in k.tasks && k.tasks[k.current].place == InReady
    requires k.tasks[k.current].event == NoEvent && e in k.events
  {
    Block(AppendEvent(k, k.current, e, value), n, true)
  }

  // ---------- the order of an event list ----------

  /** Task y stands in front of task z. */
  ghost predicate Before(s: seq<TaskId>, y: TaskId, z: TaskId) {
    exists i, j :: 0 <= i < j < |s| && s[i] == y && s[j] == z
  }

  /** The list is in order of the values of the event list items. */
  ghost predicate InOrder(tasks: map<TaskId, Tcb>, s: seq<TaskId>) {
    && (forall x | x in s :: x in tasks)
    && forall i, j :: 0 <= i < j < |s| ==> tasks[s[i]].eventValue <= tasks[s[j]].eventValue
  }

  /** Task x has joined the list, the others standing as they stood; in a list in order it stands behind
      exactly those whose value is not above its own, and the list is still in order. */
  ghost predicate Joined(tasks: map<TaskId, Tcb>, s: seq<TaskId>, r: seq<TaskId>, x: TaskId) {
    && x in tasks && x in r && Without(r, x) == s
    && (InOrder(tasks, s) ==>
          && InOrder(tasks, r)
          && forall y | y in s :: Before(r, y, x) <==> tasks[y].eventValue <= tasks[x].eventValue)
  }

  lemma InsertedAt(s: seq<TaskId>, p: nat, x: TaskId)
    requires p <= |s| && x !in s && NoDup(s)
    ensures Without(InsertAt(s, p, x), x) == s
  {
    var r := InsertAt(s, p, x);
    assert r[p] == x;
    PositionIs(r, x, p);
    assert Removed(r, p) == s;
  }

  lemma BeforeInserted(s: seq<TaskId>, p: nat, x: TaskId, i: nat)
    requires p <= |s| && x !in s && NoDup(s) && i < |s|
    ensures Before(InsertAt(s, p, x), s[i], x) <==> i < p
  {
    var r := InsertAt(s, p, x);
    var q := if i < p then i else i + 1;
    assert r[q] == s[i] && r[p] == x;
  }

  lemma InsertJoins(tasks: map<TaskId, Tcb>, s: seq<TaskId>, x: TaskId)
    requires x in tasks && x !in s && NoDup(s) && forall y | y in s :: y in tasks
    ensures Joined(tasks, s, InsertAt(s, SortedPosition(EventValues(s, tasks), tasks[x].eventValue), x), x)
  {
    hide NoDup, SortedPosition, InsertAt, Without, Before, Sorted;
    var values, v := EventValues(s, tasks), tasks[x].eventValue;
    var p := SortedPosition(values, v);
    var r := InsertAt(s, p, x);
    InsertedAt(s, p, x);
    if InOrder(tasks, s) {
      ValuesInOrder(tasks, s);
      SortedInsert(values, v);
      InsertedInOrder(tasks, s, p, x);
      forall y | y in s
        ensures Before(r, y, x) <==> tasks[y].eventValue <= v
      {
        var i :| 0 <= i < |s| && s[i] == y;
        BeforeInserted(s, p, x, i);
        assert values[i] == tasks[y].eventValue;
      }
    }
  }

  lemma ValuesInOrder(tasks: map<TaskId, Tcb>, s: seq<TaskId>)
    requires forall y | y in s :: y in tasks
    ensures Sorted(EventValues(s, tasks)) <==> InOrder(tasks, s)
  {
    var values := EventValues(s, tasks);
    assert forall i | 0 <= i < |s| :: values[i] == tasks[s[i]].eventValue;
    if Sorted(values) {
      assert forall i, j :: 0 <= i < j < |s| ==> values[i] <= values[j];
    }
    if InOrder(tasks, s) {
      forall i, j | 0 <= i < j < |values|
        ensures values[i] <= values[j]
      {
        assert tasks[s[i]].eventValue <= tasks[s[j]].eventValue;
      }
    }
  }

  lemma InsertedInOrder(tasks: map<TaskId, Tcb>, s: seq<TaskId>, p: nat, x: TaskId)
    requires (forall y | y in s :: y in tasks) && x in tasks && p <= |s|
    requires Sorted(InsertAt(EventValues(s, tasks), p, tasks[x].eventValue))
    ensures InOrder(tasks, InsertAt(s, p, x))
  {
    hide InsertAt, NoDup, Sorted;
    var r := InsertAt(s, p, x);
    ValuesInOrder(tasks, r);
    assert EventValues(r, tasks) == InsertAt(EventValues(s, tasks), p, tasks[x].eventValue);
  }

  lemma AddEventBase(k: K, e: EventId)
    requires Core(k) && MayBlock(k) && e in k.events
    ensures var r := AddEvent(k, k.current, e);
      && Base(r) && OthersWait(r) && (Top(k) ==> Top(r)) && r.delayed == k.delayed && EventMove(k, r)
      && r.tasks == k.tasks[k.current := k.tasks[k.current].(event := OnEvent(e))] && r.pending == k.pending
  {
    hide StateSide, EventSide, SortedPosition, EventValues;
  }

  lemma AppendEventBase(k: K, e: EventId, value: nat)
    requires Core(k) && MayBlock(k) && e in k.events
    ensures var r := AppendEvent(k, k.current, e, value);
      && Base(r) && OthersWait(r) && (Top(k) ==> Top(r)) && r.delayed == k.delayed && EventMove(k, r)
      && r.tasks == k.tasks[k.current := k.tasks[k.current].(event := OnEvent(e), eventValue := value)]
      && r.pending == k.pending && r.events == k.events[e := k.events[e] + [k.current]]
  {
    hide StateSide, EventSide;
  }

  lemma EventKnown(k: K, e: EventId)
    requires Shape(k) && e in k.events
    ensures NoDup(k.events[e]) && forall y | y in k.events[e] :: y in k.tasks && k.tasks[y].event == OnEvent(e)
  {
    assert FilesEvent(k.tasks, k.events[e], OnEvent(e));
  }

  /** The running task joins the event list in order. */
  lemma AddEventJoins(k: K, e: EventId)
    requires Core(k) && MayBlock(k) && e in k.events
    ensures var r := AddEvent(k, k.current, e);
      && e in r.events && r.events == k.events[e := r.events[e]]
      && Joined(k.tasks, k.events[e], r.events[e], k.current)
  {
    hide StateSide, EventSide, SortedPosition, InsertAt, EventValues, Joined;
    EventKnown(k, e);
    InsertJoins(k.tasks, k.events[e], k.current);
  }

  /** The wait of the running task on an event list: where its two list items are, and that it has not
      given way yet. */
  ghost predicate Waiting(k: K, r: K, e: EventId, value: nat, n: nat) {
    && k.current in k.tasks && r.tasks.Keys == k.tasks.Keys && r.current == k.current
    && r.yieldPending == k.yieldPending && r.pending == k.pending
    && r.tasks[k.current] == k.tasks[k.current].(
         event := OnEvent(e), eventValue := value, place := if n == MAX_DELAY then InSuspended else InDelayed)
    && e in k.events && e in r.events && r.events == k.events[e := r.events[e]]
  }

  /** Whatever the wait, the task and its wake time are filed and all others kept; that the wait is not
      of zero ticks is exactly what the invariant needs. */
  lemma PlaceKeeps(k: K, e: EventId, n: nat)
    requires Inv(k) && MayBlock(k) && e in k.events
    ensures var r := PlaceOnEvent(k, e, n);
      && (Inv(r) <==> n > 0) && r.tick == k.tick && r.pendedTicks == k.pendedTicks && r.nesting == k.nesting
      && (forall t | t in k.delayed && t.task != k.current :: t in r.delayed)
      && (n != MAX_DELAY ==> Timed(k.current, k.tick + n) in r.delayed)
      && k.current in r.tasks && r.tasks[k.current].event == OnEvent(e)
      && (forall x | x in k.tasks && x != k.current :: x in r.tasks && r.tasks[x] == k.tasks[x])
      && Waiting(k, r, e, k.tasks[k.current].eventValue, n)
      && Joined(k.tasks, k.events[e], r.events[e], k.current)
  {
    hide Core, Base, Block, AddEvent, Top, Sorted, Times, StateSide, EventSide, Joined;
    CoreCurrent(k);
    AddEventBase(k, e);
    AddEventJoins(k, e);
    BlockKeeps(AddEvent(k, k.current, e), n, true);
  }

  lemma PlaceUnorderedKeeps(k: K, e: EventId, value: nat, n: nat)
    requires Inv(k) && MayBlock(k) && e in k.events
    ensures var r := PlaceOnUnordered(k, e, value, n);
      && (Inv(r) <==> n > 0) && r.tick == k.tick && r.pendedTicks == k.pendedTicks && r.nesting == k.nesting
      && (forall t | t in k.delayed && t.task != k.current :: t in r.delayed)
      && (n != MAX_DELAY ==> Timed(k.current, k.tick + n) in r.delayed)
      && k.current in r.tasks && r.tasks[k.current].event == OnEvent(e)
      && (forall x | x in k.tasks && x != k.current :: x in r.tasks && r.tasks[x] == k.tasks[x])
      && Waiting(k, r, e, value, n) && r.events[e] == k.events[e] + [k.current]
  {
    hide Core, Base, Block, AppendEvent, Top, Sorted, Times, StateSide, EventSide;
    CoreCurrent(k);
    AppendEventBase(k, e, value);
    BlockKeeps(AppendEvent(k, k.current, e, value), n, true);
  }

  lemma EventHead(k: K, e: EventId)
    requires Core(k) && e in k.events && k.events[e] != []
    ensures k.events[e][0] in k.tasks && k.tasks[k.events[e][0]].event == OnEvent(e)
    ensures Blocked(k.tasks[k.events[e][0]])
  {
    assert FilesEvent(k.tasks, k.events[e], OnEvent(e));
  }

  /** xTaskRemoveFromEventList: the first task of the list becomes ready at once, or through the
      pending-ready list while the scheduler is suspended. */
  ghost function Signal(k: K, e: EventId): (K, bool)
    requires Core(k) && e in k.events && k.events[e] != []
  {
    EventHead(k, e);
    var x := k.events[e][0];
    var d := DropEvent(k, x);
    var r := if k.nesting == 0 then ToReady(d, x) else AddPending(d, x);
    CoreCurrent(k);
    if k.tasks[x].priority > k.tasks[k.current].priority then (r.(yieldPending := true), true) else (r, false)
  }

  /** What a signal means: the task at the head of the list is off it, ready at once or, while the
      scheduler is suspended, last of those to be readied; and a switch is asked for exactly if it is
      above the running task, which goes on for now. */
  ghost predicate Signalled(k: K, e: EventId, r: K, above: bool) {
    && e in k.events && k.events[e] != []
    && var x := k.events[e][0];
    && x in k.tasks && k.current in k.tasks && r.current == k.current
    && r.tasks == k.tasks[x := if k.nesting == 0 then k.tasks[x].(place := InReady, event := NoEvent)
                               else k.tasks[x].(event := OnPending)]
    && r.pending == (if k.nesting == 0 then k.pending else k.pending + [x])
    && r.events == k.events[e := k.events[e][1..]]
    && (above <==> k.tasks[x].priority > k.tasks[k.current].priority)
    && (r.yieldPending <==> k.yieldPending || above)
  }

  lemma HeadGone(s: seq<TaskId>)
    requires s != []
    ensures Without(s, s[0]) == s[1..]
  {
    assert Position(s, s[0]) == 0;
  }

  lemma SignalWakes(k: K, e: EventId)
    requires Inv(k) && e in k.events && k.events[e] != []
    ensures Signalled(k, e, Signal(k, e).0, Signal(k, e).1)
  {
    hide Core, ToReady, AddPending, DropEvent, Top, Sorted, Times, StateSide, EventSide, Count, Without;
    CoreCurrent(k);
    EventHead(k, e);
    var x := k.events[e][0];
    HeadGone(k.events[e]);
    DropEventKeeps(k, x);
    DropEventLists(k, x);
    var d := DropEvent(k, x);
    CoreCurrent(d);
    if k.nesting == 0 {
      ToReadyKeeps(d, x);
    } else {
      AddPendingKeeps(d, x);
    }
  }

  lemma SignalNow(k: K, e: EventId)
    requires Inv(k) && e in k.events && k.events[e] != [] && k.nesting == 0
    ensures Inv(Signal(k, e).0) && (Signal(k, e).1 ==> Signal(k, e).0.yieldPending)
  {
    hide Core, ToReady, DropEvent, Top, Sorted, Times, StateSide, EventSide, Count;
    CoreCurrent(k);
    EventHead(k, e);
    var x := k.events[e][0];
    DropEventKeeps(k, x);
    var d := DropEvent(k, x);
    CoreCurrent(d);
    ToReadyKeeps(d, x);
    FlagCore(ToReady(d, x), true, k.nesting, k.pendedTicks);
  }

  /** A signal touches no other task than the one it wakes. */
  lemma SignalNowFrame(k: K, e: EventId)
    requires Inv(k) && e in k.events && k.events[e] != [] && k.nesting == 0
    ensures Beside(k, Signal(k, e).0, k.events[e][0])
  {
    hide Core, ToReady, DropEvent, Top, Sorted, Times, StateSide, EventSide;
    CoreCurrent(k);
    EventHead(k, e);
    var x := k.events[e][0];
    DropEventKeeps(k, x);
    DropEventBeside(k, x);
    var d := DropEvent(k, x);
    ToReadyBeside(d, x);
    BesideChain(k, d, ToReady(d, x), x);
  }

  lemma SignalLater(k: K, e: EventId)
    requires Inv(k) && e in k.events && k.events[e] != [] && k.nesting > 0
    ensures Inv(Signal(k, e).0) && (Signal(k, e).1 ==> Signal(k, e).0.yieldPending)
  {
    hide Core, AddPending, DropEvent, Top, Sorted, Times, StateSide, EventSide, Count;
    CoreCurrent(k);
    EventHead(k, e);
    var x := k.events[e][0];
    DropEventKeeps(k, x);
    var d := DropEvent(k, x);
    CoreCurrent(d);
    AddPendingKeeps(d, x);
    FlagCore(AddPending(d, x), true, k.nesting, k.pendedTicks);
  }

  lemma SignalLaterFrame(k: K, e: EventId)
    requires Inv(k) && e in k.events && k.events[e] != [] && k.nesting > 0
    ensures Beside(k, Signal(k, e).0, k.events[e][0])
  {
    hide Core, AddPending, DropEvent, Top, Sorted, Times, StateSide, EventSide;
    CoreCurrent(k);
    EventHead(k, e);
    var x := k.events[e][0];
    DropEventKeeps(k, x);
    DropEventBeside(k, x);
    var d := DropEvent(k, x);
    AddPendingBeside(d, x);
    BesideChain(k, d, AddPending(d, x), x);
  }

  lemma SignalKeeps(k: K, e: EventId)
    requires Inv(k) && e in k.events && k.events[e] != []
    ensures Inv(Signal(k, e).0) && (Signal(k, e).1 ==> Signal(k, e).0.yieldPending)
    ensures Beside(k, Signal(k, e).0, k.events[e][0])
    ensures Signalled(k, e, Signal(k, e).0, Signal(k, e).1)
  {
    hide Inv, Core, Signal, Beside, Signalled;
    SignalCore(k);
    SignalWakes(k, e);
    if k.nesting == 0 {
      SignalNow(k, e);
      SignalNowFrame(k, e);
    } else {
      SignalLater(k, e);
      SignalLaterFrame(k, e);
    }
  }

  lemma SignalCore(k: K)
    requires Inv(k)
    ensures Core(k)
  {
  }

  /** vTaskRemoveFromUnorderedEventList, called with the scheduler suspended: the task gets its new
      event value and is ready at once. */
  ghost function SignalUnordered(k: K, x: TaskId, value: nat): K
    requires Core(k) && x in k.tasks && k.tasks[x].event.OnEvent?
  {
    CoreCurrent(k);
    var d := DropEvent(k, x);
    DropEventKeeps(k, x);
    ValueKeeps(d, x, value);
    var r := ToReady(d.(tasks := d.tasks[x := d.tasks[x].(eventValue := value)]), x);
    if k.tasks[x].priority > k.tasks[k.current].priority then r.(yieldPending := true) else r
  }

  /** The event value plays no part in any list of a task without an event. */
  lemma ValueKeeps(k: K, x: TaskId, value: nat)
    requires Core(k) && x in k.tasks
    ensures var r := k.(tasks := k.tasks[x := k.tasks[x].(eventValue := value)]);
      Core(r) && (Top(k) ==> Top(r))
  {
    hide StateSide, EventSide;
    var tcb := k.tasks[x].(eventValue := value);
    Retag(k, x, tcb);
    RetagEvent(k, x, tcb);
  }

  /** The task is off its event list and ready, with the value it was given; a switch is asked for
      exactly if it is above the running task, which goes on for now. */
  ghost predicate Handed(k: K, r: K, x: TaskId, value: nat) {
    && x in k.tasks && k.current in k.tasks && r.current == k.current && k.tasks[x].event.OnEvent?
    && var e := k.tasks[x].event.e;
    && e in k.events && r.events == k.events[e := Without(k.events[e], x)] && r.pending == k.pending
    && r.tasks == k.tasks[x := k.tasks[x].(place := InReady, event := NoEvent, eventValue := value)]
    && (r.yieldPending <==> k.yieldPending || k.tasks[x].priority > k.tasks[k.current].priority)
  }

  lemma SignalUnorderedKeeps(k: K, x: TaskId, value: nat)
    requires Inv(k) && k.nesting > 0 && x in k.tasks && k.tasks[x].event.OnEvent?
    ensures var r := SignalUnordered(k, x, value);
      && Inv(r) && r.tick == k.tick && r.pendedTicks == k.pendedTicks
      && (forall t | t in k.delayed && t.task != x :: t in r.delayed)
      && (forall t | t in r.delayed :: t in k.delayed)
      && (forall y | y in k.tasks && y != x :: y in r.tasks && r.tasks[y] == k.tasks[y])
      && Handed(k, r, x, value)
  {
    hide Core, ToReady, DropEvent, Top, Sorted, Times, StateSide, EventSide, Count, Without;
    CoreCurrent(k);
    DropEventKeeps(k, x);
    DropEventLists(k, x);
    var d := DropEvent(k, x);
    ValueKeeps(d, x, value);
    var v := d.(tasks := d.tasks[x := d.tasks[x].(eventValue := value)]);
    CoreCurrent(d);
    CoreCurrent(v);
    BlockedWaiter(k, x);
    ToReadyKeeps(v, x);
    FlagCore(ToReady(v, x), true, k.nesting, k.pendedTicks);
  }

  lemma BlockedWaiter(k: K, x: TaskId)
    requires Core(k) && x in k.tasks && k.tasks[x].event != NoEvent
    ensures Blocked(k.tasks[x])
  {
  }

  /** uxTaskResetEventItemValue: the event list item of the running task shows its priority again. */
  ghost function RestoreItem(k: K): K
    requires Core(k)
  {
    CoreCurrent(k);
    var t := k.tasks[k.current];
    k.(tasks := k.tasks[k.current := t.(eventValue := |k.ready| - t.priority)])
  }

  /** The event value and the priority of the running task add up to the number of priorities, and that is
      all that changes. */
  lemma RestoreKeeps(k: K)
    requires Inv(k)
    ensures k.current in k.tasks
    ensures var r := RestoreItem(k);
      && Inv(r) && r == k.(tasks := r.tasks) && k.current in r.tasks
      && r.tasks[k.current].eventValue + r.tasks[k.current].priority == |k.ready|
      && r.tasks == k.tasks[k.current := k.tasks[k.current].(eventValue := r.tasks[k.current].eventValue)]
  {
    hide Core, Top, Shape;
    CoreCurrent(k);
    var t := k.tasks[k.current];
    ValueKeeps(k, k.current, |k.ready| - t.priority);
    CoreCurrent(RestoreItem(k));
  }
}
