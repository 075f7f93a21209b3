/** The scheduler of FreeRTOS-Kernel/tasks.c as a specification: an unbounded clock, ONE list of
    timed waits in order of absolute wake time, and no caches.  The class in module Scheduler, with
    its wrapping 32-bit tick, two delayed lists and cached values, is proved to refine this. */
module Kernel {
  import opened Rings

  type TaskId = nat
  type EventId = nat

  /** The list that holds a task's state list item; Nowhere is a null container. */
  datatype Place = Nowhere | InReady | InDelayed | InSuspended | InTermination

  /** The list that holds a task's event list item. */
  datatype EventPlace = NoEvent | OnEvent(e: EventId) | OnPending

  datatype Tcb = Tcb(priority: nat, eventValue: nat, place: Place, event: EventPlace)

  datatype Timed = Timed(task: TaskId, time: nat)

  datatype K = K(
    idle: TaskId, tasks: map<TaskId, Tcb>,
    ready: seq<Ring<TaskId>>, delayed: seq<Timed>, suspended: seq<TaskId>, termination: seq<TaskId>,
    pending: seq<TaskId>, events: map<EventId, seq<TaskId>>,
    tick: nat, pendedTicks: nat, nesting: nat, current: TaskId, yieldPending: bool)

  function Names(d: seq<Timed>): (s: seq<TaskId>)
    ensures |s| == |d|
  {
    seq(|d|, i requires 0 <= i < |d| => d[i].task)
  }

  function Times(d: seq<Timed>): (s: seq<nat>)
    ensures |s| == |d|
  {
    seq(|d|, i requires 0 <= i < |d| => d[i].time)
  }

  function EventValues(s: seq<TaskId>, tasks: map<TaskId, Tcb>): (v: seq<nat>)
    requires forall x | x in s :: x in tasks
    ensures |v| == |s|
  {
    seq(|s|, i requires 0 <= i < |s| => tasks[s[i]].eventValue)
  }

  function DropTimed(d: seq<Timed>, x: TaskId): seq<Timed>
    requires x in Names(d)
  {
    Removed(d, Position(Names(d), x))
  }

  function InsertTimed(d: seq<Timed>, e: Timed): seq<Timed> {
    InsertAt(d, SortedPosition(Times(d), e.time), e)
  }

  lemma DropTimedNames(d: seq<Timed>, x: TaskId)
    requires x in Names(d)
    ensures Names(DropTimed(d, x)) == Without(Names(d), x)
    ensures Sorted(Times(d)) ==> Sorted(Times(DropTimed(d, x)))
  {
    var p, r := Position(Names(d), x), DropTimed(d, x);
    assert forall i :: 0 <= i < |r| ==> r[i] == d[if i < p then i else i + 1];
    assert Times(r) == Times(d)[..p] + Times(d)[p + 1..];
  }

  lemma DropTimedEntries(d: seq<Timed>, x: TaskId)
    requires x in Names(d)
    ensures forall e | e in DropTimed(d, x) :: e in d
    ensures forall e | e in d && e.task != x :: e in DropTimed(d, x)
  {
    var p := Position(Names(d), x);
    forall e | e in d && e.task != x
      ensures e in DropTimed(d, x)
    {
      var i :| 0 <= i < |d| && d[i] == e;
      assert Names(d)[p] == x;
      assert e in d[..p] || e in d[p + 1..];
    }
  }

  lemma InsertTimedNames(d: seq<Timed>, e: Timed)
    ensures Names(InsertTimed(d, e)) == InsertAt(Names(d), SortedPosition(Times(d), e.time), e.task)
    ensures Sorted(Times(d)) ==> Sorted(Times(InsertTimed(d, e)))
  {
    var p, r := SortedPosition(Times(d), e.time), InsertTimed(d, e);
    assert Times(r) == InsertAt(Times(d), p, e.time);
    if Sorted(Times(d)) {
      SortedInsert(Times(d), e.time);
    }
  }

  /** List s holds exactly the tasks filed under this place, each once. */
  ghost predicate Files(tasks: map<TaskId, Tcb>, s: seq<TaskId>, place: Place) {
    && NoDup(s)
    && (forall x | x in s :: x in tasks && tasks[x].place == place)
    && (forall x | x in tasks && tasks[x].place == place :: x in s)
  }

  ghost predicate FilesReady(tasks: map<TaskId, Tcb>, ready: seq<Ring<TaskId>>) {
    && (forall p | 0 <= p < |ready| :: ready[p].Valid())
    && (forall p | 0 <= p < |ready| :: forall x | x in ready[p].items ::
          x in tasks && tasks[x].place == InReady && tasks[x].priority == p)
    && (forall x | x in tasks && tasks[x].place == InReady ::
          tasks[x].priority < |ready| && x in ready[tasks[x].priority].items)
  }

  ghost predicate FilesEvent(tasks: map<TaskId, Tcb>, s: seq<TaskId>, place: EventPlace) {
    && NoDup(s)
    && (forall x | x in s :: x in tasks && tasks[x].event == place)
    && (forall x | x in tasks && tasks[x].event == place :: x in s)
  }

  ghost predicate StateSide(tasks: map<TaskId, Tcb>, ready: seq<Ring<TaskId>>, delayed: seq<Timed>,
                            suspended: seq<TaskId>, termination: seq<TaskId>) {
    && (forall x | x in tasks :: tasks[x].priority < |ready|)
    && FilesReady(tasks, ready)
    && Files(tasks, Names(delayed), InDelayed)
    && Files(tasks, suspended, InSuspended)
    && Files(tasks, termination, InTermination)
  }

  ghost predicate EventSide(tasks: map<TaskId, Tcb>, events: map<EventId, seq<TaskId>>, pending: seq<TaskId>) {
    && FilesEvent(tasks, pending, OnPending)
    && (forall e | e in events :: FilesEvent(tasks, events[e], OnEvent(e)))
    && (forall x | x in tasks && tasks[x].event.OnEvent? :: tasks[x].event.e in events)
  }

  /** The lists and the container pointers agree: every task's state item is in exactly the list its
      place names, a ready task in the ready list of its priority, and its event item in at most one
      event list or the pending-ready list. */
  ghost predicate Shape(k: K) {
    && StateSide(k.tasks, k.ready, k.delayed, k.suspended, k.termination)
    && EventSide(k.tasks, k.events, k.pending)
  }

  /** Only state lists differ. */
  ghost predicate StateMove(k: K, r: K) {
    && |r.ready| == |k.ready|
    && r == k.(tasks := r.tasks, ready := r.ready, delayed := r.delayed,
               suspended := r.suspended, termination := r.termination)
  }

  /** Only event lists differ. */
  ghost predicate EventMove(k: K, r: K) {
    r == k.(tasks := r.tasks, events := r.events, pending := r.pending)
  }

  function Load(ready: seq<Ring<TaskId>>): nat {
    if ready == [] then 0 else |ready[0].items| + Load(ready[1..])
  }

  lemma LoadUpdate(ready: seq<Ring<TaskId>>, p: nat, r: Ring<TaskId>)
    requires p < |ready|
    ensures Load(ready[p := r]) == Load(ready) - |ready[p].items| + |r.items|
  {
    if p > 0 {
      assert ready[p := r][1..] == ready[1..][p - 1 := r];
      LoadUpdate(ready[1..], p - 1, r);
    } else {
      assert ready[p := r][1..] == ready[1..];
    }
  }

  /** The lengths of all state lists together. */
  function Count(k: K): nat {
    Load(k.ready) + |k.delayed| + |k.suspended| + |k.termination|
  }

  // ---------- moving one list item ----------

  lemma FilesKept(tasks: map<TaskId, Tcb>, s: seq<TaskId>, place: Place, x: TaskId, tcb: Tcb)
    requires Files(tasks, s, place)
    requires x in tasks ==> tasks[x].place != place
    requires tcb.place != place
    ensures Files(tasks[x := tcb], s, place)
  {
  }

  lemma FilesDrop(tasks: map<TaskId, Tcb>, s: seq<TaskId>, place: Place, x: TaskId, tcb: Tcb)
    requires Files(tasks, s, place) && x in s && tcb.place != place
    ensures Files(tasks[x := tcb], Without(s, x), place)
  {
  }

  lemma FilesAdd(tasks: map<TaskId, Tcb>, s: seq<TaskId>, place: Place, x: TaskId, tcb: Tcb, p: nat)
    requires Files(tasks, s, place) && p <= |s| && tcb.place == place
    requires x in tasks ==> tasks[x].place != place
    ensures Files(tasks[x := tcb], InsertAt(s, p, x), place)
  {
    assert x !in s;
  }

  lemma EventKept(tasks: map<TaskId, Tcb>, s: seq<TaskId>, place: EventPlace, x: TaskId, tcb: Tcb)
    requires FilesEvent(tasks, s, place)
    requires x in tasks ==> (tasks[x].event == place <==> tcb.event == place)
    requires x !in tasks ==> tcb.event != place
    ensures FilesEvent(tasks[x := tcb], s, place)
  {
  }

  lemma EventDrop(tasks: map<TaskId, Tcb>, s: seq<TaskId>, place: EventPlace, x: TaskId, tcb: Tcb)
    requires FilesEvent(tasks, s, place) && x in s && tcb.event != place
    ensures FilesEvent(tasks[x := tcb], Without(s, x), place)
  {
  }

  lemma EventAdd(tasks: map<TaskId, Tcb>, s: seq<TaskId>, place: EventPlace, x: TaskId, tcb: Tcb, p: nat)
    requires FilesEvent(tasks, s, place) && p <= |s| && tcb.event == place
    requires x in tasks && tasks[x].event != place
    ensures FilesEvent(tasks[x := tcb], InsertAt(s, p, x), place)
  {
    assert x !in s;
  }

  lemma ReadyKept(tasks: map<TaskId, Tcb>, ready: seq<Ring<TaskId>>, x: TaskId, tcb: Tcb)
    requires FilesReady(tasks, ready)
    requires x in tasks ==> tasks[x].place != InReady
    requires tcb.place != InReady
    ensures FilesReady(tasks[x := tcb], ready)
  {
  }

  lemma ReadyDrop(tasks: map<TaskId, Tcb>, ready: seq<Ring<TaskId>>, x: TaskId, tcb: Tcb)
    requires FilesReady(tasks, ready) && x in tasks && tasks[x].place == InReady && tcb.place != InReady
    ensures var p := tasks[x].priority;
            FilesReady(tasks[x := tcb], ready[p := Remove(ready[p], x)])
  {
    var p := tasks[x].priority;
    RemoveValid(ready[p], x);
  }

  lemma ReadyAdd(tasks: map<TaskId, Tcb>, ready: seq<Ring<TaskId>>, x: TaskId, tcb: Tcb)
    requires FilesReady(tasks, ready) && tcb.place == InReady && tcb.priority < |ready|
    requires x in tasks ==> tasks[x].place != InReady
    ensures FilesReady(tasks[x := tcb], ready[tcb.priority := InsertEnd(ready[tcb.priority], x)])
  {
    var p := tcb.priority;
    assert x !in ready[p].items;
    InsertEndValid(ready[p], x);
  }

  /** Moving a state item leaves the event lists alone. */
  lemma Retag(k: K, x: TaskId, tcb: Tcb)
    requires Shape(k)
    requires x in k.tasks ==> tcb.event == k.tasks[x].event
    requires x !in k.tasks ==> tcb.event == NoEvent
    ensures EventSide(k.tasks[x := tcb], k.events, k.pending)
  {
    forall e | e in k.events
      ensures FilesEvent(k.tasks[x := tcb], k.events[e], OnEvent(e))
    {
      EventKept(k.tasks, k.events[e], OnEvent(e), x, tcb);
    }
  }

  /** Moving an event item leaves the state lists alone. */
  lemma RetagEvent(k: K, x: TaskId, tcb: Tcb)
    requires Shape(k) && x in k.tasks
    requires tcb.priority == k.tasks[x].priority && tcb.place == k.tasks[x].place
    ensures StateSide(k.tasks[x := tcb], k.ready, k.delayed, k.suspended, k.termination)
  {
    hide EventSide, NoDup, Names;
  }

  /** Everything but one event list is as it was. */
  lemma EventListChange(k: K, x: TaskId, tcb: Tcb, e: EventId, s: seq<TaskId>)
    requires Shape(k) && x in k.tasks && e in k.events
    requires (k.tasks[x].event == NoEvent && tcb.event == OnEvent(e))
          || (k.tasks[x].event == OnEvent(e) && tcb.event == NoEvent)
    requires FilesEvent(k.tasks[x := tcb], s, OnEvent(e))
    ensures EventSide(k.tasks[x := tcb], k.events[e := s], k.pending)
  {
    hide StateSide, FilesEvent;
    EventKept(k.tasks, k.pending, OnPending, x, tcb);
    forall f | f in k.events && f != e
      ensures FilesEvent(k.tasks[x := tcb], k.events[f], OnEvent(f))
    {
      EventKept(k.tasks, k.events[f], OnEvent(f), x, tcb);
    }
  }

  lemma PendingChange(k: K, x: TaskId, tcb: Tcb, s: seq<TaskId>)
    requires Shape(k) && x in k.tasks
    requires (k.tasks[x].event == NoEvent && tcb.event == OnPending)
          || (k.tasks[x].event == OnPending && tcb.event == NoEvent)
    requires FilesEvent(k.tasks[x := tcb], s, OnPending)
    ensures EventSide(k.tasks[x := tcb], k.events, s)
  {
    hide StateSide, FilesEvent;
    forall f | f in k.events
      ensures FilesEvent(k.tasks[x := tcb], k.events[f], OnEvent(f))
    {
      EventKept(k.tasks, k.events[f], OnEvent(f), x, tcb);
    }
  }

  lemma ReadyHolds(k: K, x: TaskId)
    requires Shape(k) && x in k.tasks && k.tasks[x].place == InReady
    ensures var p := k.tasks[x].priority;
      p < |k.ready| && x in k.ready[p].items && |Remove(k.ready[p], x).items| == |k.ready[p].items| - 1
  {
  }

  /** Every list but the ready list of x is as it was. */
  lemma DetachReadySide(k: K, x: TaskId, ready: seq<Ring<TaskId>>)
    requires Shape(k) && x in k.tasks && k.tasks[x].place == InReady
    requires |ready| == |k.ready| && FilesReady(k.tasks[x := k.tasks[x].(place := Nowhere)], ready)
    ensures StateSide(k.tasks[x := k.tasks[x].(place := Nowhere)], ready, k.delayed, k.suspended, k.termination)
  {
    hide EventSide, FilesReady, NoDup, Names;
  }

  lemma DetachReadyShape(k: K, x: TaskId)
    requires Shape(k) && x in k.tasks && k.tasks[x].place == InReady
    ensures var p := k.tasks[x].priority;
      && p < |k.ready| && x in k.ready[p].items
      && var r := k.(tasks := k.tasks[x := k.tasks[x].(place := Nowhere)],
                     ready := k.ready[p := Remove(k.ready[p], x)]);
      && Shape(r) && Count(r) == Count(k) - 1
  {
    hide StateSide, EventSide, Load, Remove, FilesReady;
    var tcb := k.tasks[x].(place := Nowhere);
    var p := tcb.priority;
    ReadyHolds(k, x);
    Retag(k, x, tcb);
    LoadUpdate(k.ready, p, Remove(k.ready[p], x));
    ReadyFiled(k);
    ReadyDrop(k.tasks, k.ready, x, tcb);
    DetachReadySide(k, x, k.ready[p := Remove(k.ready[p], x)]);
  }

  lemma ReadyFiled(k: K)
    requires Shape(k)
    ensures FilesReady(k.tasks, k.ready) && forall x | x in k.tasks :: k.tasks[x].priority < |k.ready|
  {
  }

  ghost function DetachReady(k: K, x: TaskId): (r: K)
    requires Shape(k) && x in k.tasks && k.tasks[x].place == InReady
    ensures Shape(r) && StateMove(k, r) && Count(r) == Count(k) - 1
    ensures r.tasks == k.tasks[x := k.tasks[x].(place := Nowhere)]
    ensures forall q | 0 <= q < |k.ready| && k.ready[q].items == [] :: r.ready[q].items == []
  {
    hide Shape, Count, Remove;
    DetachReadyShape(k, x);
    var p := k.tasks[x].priority;
    k.(tasks := k.tasks[x := k.tasks[x].(place := Nowhere)], ready := k.ready[p := Remove(k.ready[p], x)])
  }

  lemma PlaceLists(k: K)
    requires Shape(k)
    ensures Files(k.tasks, Names(k.delayed), InDelayed)
    ensures Files(k.tasks, k.suspended, InSuspended) && Files(k.tasks, k.termination, InTermination)
  {
  }

  lemma FiledIn(tasks: map<TaskId, Tcb>, s: seq<TaskId>, place: Place, x: TaskId)
    requires Files(tasks, s, place) && x in tasks && tasks[x].place == place
    ensures x in s
  {
  }

  /** The ready lists have no part in moves between the other lists. */
  lemma SideKept(k: K, x: TaskId, tcb: Tcb, delayed: seq<Timed>, suspended: seq<TaskId>, termination: seq<TaskId>)
    requires Shape(k) && x in k.tasks && k.tasks[x].place != InReady
    requires tcb.place != InReady && tcb.priority == k.tasks[x].priority
    requires var t := k.tasks[x := tcb];
      Files(t, Names(delayed), InDelayed) && Files(t, suspended, InSuspended) && Files(t, termination, InTermination)
    ensures StateSide(k.tasks[x := tcb], k.ready, delayed, suspended, termination)
  {
    hide EventSide, Files, FilesReady;
    ReadyFiled(k);
    ReadyKept(k.tasks, k.ready, x, tcb);
  }

  lemma DetachDelayedShape(k: K, x: TaskId)
    requires Shape(k) && x in k.tasks && k.tasks[x].place == InDelayed
    ensures x in Names(k.delayed)
    ensures var r := k.(tasks := k.tasks[x := k.tasks[x].(place := Nowhere)], delayed := DropTimed(k.delayed, x));
      Shape(r) && Count(r) == Count(k) - 1
  {
    hide StateSide, EventSide, Files, Load, Names, DropTimed;
    var tcb := k.tasks[x].(place := Nowhere);
    PlaceLists(k);
    FiledIn(k.tasks, Names(k.delayed), InDelayed, x);
    Retag(k, x, tcb);
    DropTimedNames(k.delayed, x);
    FilesDrop(k.tasks, Names(k.delayed), InDelayed, x, tcb);
    FilesKept(k.tasks, k.suspended, InSuspended, x, tcb);
    FilesKept(k.tasks, k.termination, InTermination, x, tcb);
    SideKept(k, x, tcb, DropTimed(k.delayed, x), k.suspended, k.termination);
    assert |Names(DropTimed(k.delayed, x))| == |Names(k.delayed)| - 1;
  }

  ghost function DetachDelayed(k: K, x: TaskId): (r: K)
    requires Shape(k) && x in k.tasks && k.tasks[x].place == InDelayed
    ensures Shape(r) && StateMove(k, r) && Count(r) == Count(k) - 1
    ensures r.tasks == k.tasks[x := k.tasks[x].(place := Nowhere)]
    ensures Sorted(Times(k.delayed)) ==> Sorted(Times(r.delayed))
    ensures forall e | e in r.delayed :: e in k.delayed
    ensures forall e | e in k.delayed && e.task != x :: e in r.delayed
  {
    hide Shape, Count, Names, Times, Sorted, DropTimed;
    DetachDelayedShape(k, x);
    DropTimedNames(k.delayed, x);
    DropTimedEntries(k.delayed, x);
    k.(tasks := k.tasks[x := k.tasks[x].(place := Nowhere)], delayed := DropTimed(k.delayed, x))
  }

  lemma DetachSuspendedShape(k: K, x: TaskId)
    requires Shape(k) && x in k.tasks && k.tasks[x].place == InSuspended
    ensures var r := k.(tasks := k.tasks[x := k.tasks[x].(place := Nowhere)], suspended := Without(k.suspended, x));
      Shape(r) && Count(r) == Count(k) - 1
  {
    hide StateSide, EventSide, Files, Load, Names, Without;
    var tcb := k.tasks[x].(place := Nowhere);
    PlaceLists(k);
    FiledIn(k.tasks, k.suspended, InSuspended, x);
    Retag(k, x, tcb);
    FilesDrop(k.tasks, k.suspended, InSuspended, x, tcb);
    FilesKept(k.tasks, Names(k.delayed), InDelayed, x, tcb);
    FilesKept(k.tasks, k.termination, InTermination, x, tcb);
    SideKept(k, x, tcb, k.delayed, Without(k.suspended, x), k.termination);
  }

  ghost function DetachSuspended(k: K, x: TaskId): (r: K)
    requires Shape(k) && x in k.tasks && k.tasks[x].place == InSuspended
    ensures Shape(r) && StateMove(k, r) && Count(r) == Count(k) - 1
    ensures r.tasks == k.tasks[x := k.tasks[x].(place := Nowhere)]
  {
    hide Shape, Count, Without;
    DetachSuspendedShape(k, x);
    k.(tasks := k.tasks[x := k.tasks[x].(place := Nowhere)], suspended := Without(k.suspended, x))
  }

  lemma DetachTerminationShape(k: K, x: TaskId)
    requires Shape(k) && x in k.tasks && k.tasks[x].place == InTermination
    ensures var r := k.(tasks := k.tasks[x := k.tasks[x].(place := Nowhere)], termination := Without(k.termination, x));
      Shape(r) && Count(r) == Count(k) - 1
  {
    hide StateSide, EventSide, Files, Load, Names, Without;
    var tcb := k.tasks[x].(place := Nowhere);
    PlaceLists(k);
    FiledIn(k.tasks, k.termination, InTermination, x);
    Retag(k, x, tcb);
    FilesDrop(k.tasks, k.termination, InTermination, x, tcb);
    FilesKept(k.tasks, Names(k.delayed), InDelayed, x, tcb);
    FilesKept(k.tasks, k.suspended, InSuspended, x, tcb);
    SideKept(k, x, tcb, k.delayed, k.suspended, Without(k.termination, x));
  }

  ghost function DetachTermination(k: K, x: TaskId): (r: K)
    requires Shape(k) && x in k.tasks && k.tasks[x].place == InTermination
    ensures Shape(r) && StateMove(k, r) && Count(r) == Count(k) - 1
    ensures r.tasks == k.tasks[x := k.tasks[x].(place := Nowhere)]
  {
    hide Shape, Count, Without;
    DetachTerminationShape(k, x);
    k.(tasks := k.tasks[x := k.tasks[x].(place := Nowhere)], termination := Without(k.termination, x))
  }

  /** uxListRemove on the state list item, from whichever list holds it. */
  ghost function Detach(k: K, x: TaskId): (r: K)
    requires Shape(k) && x in k.tasks && k.tasks[x].place != Nowhere
    ensures Shape(r) && StateMove(k, r) && Count(r) == Count(k) - 1
    ensures r.tasks == k.tasks[x := k.tasks[x].(place := Nowhere)]
    ensures Sorted(Times(k.delayed)) ==> Sorted(Times(r.delayed))
    ensures forall e | e in r.delayed :: e in k.delayed
    ensures forall e | e in k.delayed && e.task != x :: e in r.delayed
    ensures forall q | 0 <= q < |k.ready| && k.ready[q].items == [] :: r.ready[q].items == []
  {
    match k.tasks[x].place
    case InReady => DetachReady(k, x)
    case InDelayed => DetachDelayed(k, x)
    case InSuspended => DetachSuspended(k, x)
    case InTermination => DetachTermination(k, x)
  }

  lemma AddReadySide(k: K, x: TaskId, ready: seq<Ring<TaskId>>)
    requires Shape(k) && x in k.tasks && k.tasks[x].place == Nowhere
    requires |ready| == |k.ready| && FilesReady(k.tasks[x := k.tasks[x].(place := InReady)], ready)
    ensures StateSide(k.tasks[x := k.tasks[x].(place := InReady)], ready, k.delayed, k.suspended, k.termination)
  {
    hide EventSide, FilesReady, NoDup, Names;
  }

  lemma RingIndex(ready: seq<Ring<TaskId>>, tasks: map<TaskId, Tcb>, p: nat, x: TaskId)
    requires FilesReady(tasks, ready) && p < |ready|
    ensures ready[p].index <= |ready[p].items| && |InsertEnd(ready[p], x).items| == |ready[p].items| + 1
  {
  }

  lemma AddReadyShape(k: K, x: TaskId)
    requires Shape(k) && x in k.tasks && k.tasks[x].place == Nowhere
    ensures var p := k.tasks[x].priority;
      && p < |k.ready| && k.ready[p].index <= |k.ready[p].items|
      && var r := k.(tasks := k.tasks[x := k.tasks[x].(place := InReady)],
                     ready := k.ready[p := InsertEnd(k.ready[p], x)]);
      && Shape(r) && Count(r) == Count(k) + 1
  {
    hide StateSide, EventSide, Load, InsertEnd, FilesReady;
    var tcb := k.tasks[x].(place := InReady);
    var p := tcb.priority;
    Retag(k, x, tcb);
    ReadyFiled(k);
    RingIndex(k.ready, k.tasks, p, x);
    LoadUpdate(k.ready, p, InsertEnd(k.ready[p], x));
    ReadyAdd(k.tasks, k.ready, x, tcb);
    AddReadySide(k, x, k.ready[p := InsertEnd(k.ready[p], x)]);
  }

  /** prvAddTaskToReadyList */
  ghost function AddReady(k: K, x: TaskId): (r: K)
    requires Shape(k) && x in k.tasks && k.tasks[x].place == Nowhere
    ensures Shape(r) && StateMove(k, r) && Count(r) == Count(k) + 1
    ensures r.tasks == k.tasks[x := k.tasks[x].(place := InReady)]
    ensures r.delayed == k.delayed
    ensures forall q | 0 <= q < |k.ready| && q != k.tasks[x].priority :: r.ready[q] == k.ready[q]
  {
    hide Shape, Count, InsertEnd;
    AddReadyShape(k, x);
    var p := k.tasks[x].priority;
    k.(tasks := k.tasks[x := k.tasks[x].(place := InReady)], ready := k.ready[p := InsertEnd(k.ready[p], x)])
  }

  lemma AddDelayedShape(k: K, x: TaskId, time: nat)
    requires Shape(k) && x in k.tasks && k.tasks[x].place == Nowhere
    ensures var r := k.(tasks := k.tasks[x := k.tasks[x].(place := InDelayed)],
                        delayed := InsertTimed(k.delayed, Timed(x, time)));
      Shape(r) && Count(r) == Count(k) + 1
  {
    hide StateSide, EventSide, Files, Load, Names, InsertTimed;
    var tcb, d := k.tasks[x].(place := InDelayed), InsertTimed(k.delayed, Timed(x, time));
    PlaceLists(k);
    Retag(k, x, tcb);
    InsertTimedNames(k.delayed, Timed(x, time));
    FilesAdd(k.tasks, Names(k.delayed), InDelayed, x, tcb, SortedPosition(Times(k.delayed), time));
    FilesKept(k.tasks, k.suspended, InSuspended, x, tcb);
    FilesKept(k.tasks, k.termination, InTermination, x, tcb);
    SideKept(k, x, tcb, d, k.suspended, k.termination);
    assert |Names(d)| == |Names(k.delayed)| + 1;
  }

  ghost function AddDelayed(k: K, x: TaskId, time: nat): (r: K)
    requires Shape(k) && x in k.tasks && k.tasks[x].place == Nowhere
    ensures Shape(r) && StateMove(k, r) && Count(r) == Count(k) + 1
    ensures r.tasks == k.tasks[x := k.tasks[x].(place := InDelayed)]
    ensures Sorted(Times(k.delayed)) ==> Sorted(Times(r.delayed))
    ensures Timed(x, time) in r.delayed && forall e | e in k.delayed :: e in r.delayed
    ensures forall e | e in r.delayed :: e in k.delayed || e == Timed(x, time)
    ensures r.ready == k.ready
  {
    hide Shape, Count, Names, Times, Sorted, InsertAt;
    AddDelayedShape(k, x, time);
    InsertTimedNames(k.delayed, Timed(x, time));
    k.(tasks := k.tasks[x := k.tasks[x].(place := InDelayed)], delayed := InsertTimed(k.delayed, Timed(x, time)))
  }

  lemma AppendIsInsert<T>(s: seq<T>, x: T)
    ensures InsertAt(s, |s|, x) == s + [x]
  {
  }

  lemma AddSuspendedShape(k: K, x: TaskId)
    requires Shape(k) && x in k.tasks && k.tasks[x].place == Nowhere
    ensures var r := k.(tasks := k.tasks[x := k.tasks[x].(place := InSuspended)], suspended := k.suspended + [x]);
      Shape(r) && Count(r) == Count(k) + 1
  {
    hide StateSide, EventSide, Files, Load, Names, InsertAt;
    var tcb := k.tasks[x].(place := InSuspended);
    PlaceLists(k);
    Retag(k, x, tcb);
    AppendIsInsert(k.suspended, x);
    FilesAdd(k.tasks, k.suspended, InSuspended, x, tcb, |k.suspended|);
    FilesKept(k.tasks, Names(k.delayed), InDelayed, x, tcb);
    FilesKept(k.tasks, k.termination, InTermination, x, tcb);
    SideKept(k, x, tcb, k.delayed, k.suspended + [x], k.termination);
  }

  /** vListInsertEnd on a list that is never walked appends. */
  ghost function AddSuspended(k: K, x: TaskId): (r: K)
    requires Shape(k) && x in k.tasks && k.tasks[x].place == Nowhere
    ensures Shape(r) && StateMove(k, r) && Count(r) == Count(k) + 1
    ensures r.tasks == k.tasks[x := k.tasks[x].(place := InSuspended)]
    ensures r.ready == k.ready && r.delayed == k.delayed
  {
    hide Shape, Count;
    AddSuspendedShape(k, x);
    k.(tasks := k.tasks[x := k.tasks[x].(place := InSuspended)], suspended := k.suspended + [x])
  }

  lemma AddTerminationShape(k: K, x: TaskId)
    requires Shape(k) && x in k.tasks && k.tasks[x].place == Nowhere
    ensures var r := k.(tasks := k.tasks[x := k.tasks[x].(place := InTermination)], termination := k.termination + [x]);
      Shape(r) && Count(r) == Count(k) + 1
  {
    hide StateSide, EventSide, Files, Load, Names, InsertAt;
    var tcb := k.tasks[x].(place := InTermination);
    PlaceLists(k);
    Retag(k, x, tcb);
    AppendIsInsert(k.termination, x);
    FilesAdd(k.tasks, k.termination, InTermination, x, tcb, |k.termination|);
    FilesKept(k.tasks, Names(k.delayed), InDelayed, x, tcb);
    FilesKept(k.tasks, k.suspended, InSuspended, x, tcb);
    SideKept(k, x, tcb, k.delayed, k.suspended, k.termination + [x]);
  }

  ghost function AddTermination(k: K, x: TaskId): (r: K)
    requires Shape(k) && x in k.tasks && k.tasks[x].place == Nowhere
    ensures Shape(r) && StateMove(k, r) && Count(r) == Count(k) + 1
    ensures r.tasks == k.tasks[x := k.tasks[x].(place := InTermination)]
    ensures r.ready == k.ready && r.delayed == k.delayed
  {
    hide Shape, Count;
    AddTerminationShape(k, x);
    k.(tasks := k.tasks[x := k.tasks[x].(place := InTermination)], termination := k.termination + [x])
  }

  lemma EventPlaceOf(k: K, x: TaskId)
    requires Shape(k) && x in k.tasks
    ensures FilesEvent(k.tasks, k.pending, OnPending) && (k.tasks[x].event == OnPending ==> x in k.pending)
    ensures k.tasks[x].event.OnEvent? ==>
              var e := k.tasks[x].event.e;
              e in k.events && FilesEvent(k.tasks, k.events[e], OnEvent(e)) && x in k.events[e]
    ensures EventSide(k.tasks, k.events, k.pending)
  {
  }

  lemma DropPendingShape(k: K, x: TaskId)
    requires Shape(k) && x in k.tasks && k.tasks[x].event == OnPending
    ensures Shape(k.(tasks := k.tasks[x := k.tasks[x].(event := NoEvent)], pending := Without(k.pending, x)))
  {
    hide StateSide, EventSide, FilesEvent, Without;
    var tcb := k.tasks[x].(event := NoEvent);
    EventPlaceOf(k, x);
    RetagEvent(k, x, tcb);
    EventDrop(k.tasks, k.pending, OnPending, x, tcb);
    PendingChange(k, x, tcb, Without(k.pending, x));
  }

  lemma DropEventShape(k: K, x: TaskId, e: EventId)
    requires Shape(k) && x in k.tasks && k.tasks[x].event == OnEvent(e)
    ensures e in k.events
    ensures Shape(k.(tasks := k.tasks[x := k.tasks[x].(event := NoEvent)],
                     events := k.events[e := Without(k.events[e], x)]))
  {
    hide StateSide, EventSide, FilesEvent, Without;
    var tcb := k.tasks[x].(event := NoEvent);
    EventPlaceOf(k, x);
    RetagEvent(k, x, tcb);
    EventDrop(k.tasks, k.events[e], OnEvent(e), x, tcb);
    EventListChange(k, x, tcb, e, Without(k.events[e], x));
  }

  /** uxListRemove on the event list item, if it is in a list. */
  ghost function DropEvent(k: K, x: TaskId): (r: K)
    requires Shape(k) && x in k.tasks
    ensures Shape(r) && EventMove(k, r) && Count(r) == Count(k)
    ensures r.tasks == k.tasks[x := k.tasks[x].(event := NoEvent)]
  {
    hide Shape, Load, Without;
    var t := k.tasks[x := k.tasks[x].(event := NoEvent)];
    match k.tasks[x].event
    case NoEvent =>
      assert t == k.tasks;
      k.(tasks := t)
    case OnPending =>
      DropPendingShape(k, x);
      k.(tasks := t, pending := Without(k.pending, x))
    case OnEvent(e) =>
      DropEventShape(k, x, e);
      k.(tasks := t, events := k.events[e := Without(k.events[e], x)])
  }

  /** vListInsert on an event list: in order of the event values, behind equal ones. */
  ghost function AddEvent(k: K, x: TaskId, e: EventId): (r: K)
    requires Shape(k) && x in k.tasks && k.tasks[x].event == NoEvent && e in k.events
    ensures Shape(r) && EventMove(k, r) && Count(r) == Count(k)
    ensures r.tasks == k.tasks[x := k.tasks[x].(event := OnEvent(e))]
  {
    var tcb := k.tasks[x].(event := OnEvent(e));
    var p := SortedPosition(EventValues(k.events[e], k.tasks), tcb.eventValue);
    RetagEvent(k, x, tcb);
    EventAdd(k.tasks, k.events[e], OnEvent(e), x, tcb, p);
    EventListChange(k, x, tcb, e, InsertAt(k.events[e], p, x));
    k.(tasks := k.tasks[x := tcb], events := k.events[e := InsertAt(k.events[e], p, x)])
  }

  /** vListInsertEnd on an event list, the event value carrying other data. */
  ghost function AppendEvent(k: K, x: TaskId, e: EventId, value: nat): (r: K)
    requires Shape(k) && x in k.tasks && k.tasks[x].event == NoEvent && e in k.events
    ensures Shape(r) && EventMove(k, r) && Count(r) == Count(k)
    ensures r.tasks == k.tasks[x := k.tasks[x].(event := OnEvent(e), eventValue := value)]
  {
    var tcb := k.tasks[x].(event := OnEvent(e), eventValue := value);
    var s := k.events[e];
    RetagEvent(k, x, tcb);
    EventAdd(k.tasks, s, OnEvent(e), x, tcb, |s|);
    assert InsertAt(s, |s|, x) == s + [x];
    EventListChange(k, x, tcb, e, s + [x]);
    k.(tasks := k.tasks[x := tcb], events := k.events[e := s + [x]])
  }

  ghost function AddPending(k: K, x: TaskId): (r: K)
    requires Shape(k) && x in k.tasks && k.tasks[x].event == NoEvent
    ensures Shape(r) && EventMove(k, r) && Count(r) == Count(k)
    ensures r.tasks == k.tasks[x := k.tasks[x].(event := OnPending)]
  {
    var tcb := k.tasks[x].(event := OnPending);
    RetagEvent(k, x, tcb);
    EventAdd(k.tasks, k.pending, OnPending, x, tcb, |k.pending|);
    assert InsertAt(k.pending, |k.pending|, x) == k.pending + [x];
    PendingChange(k, x, tcb, k.pending + [x]);
    k.(tasks := k.tasks[x := tcb], pending := k.pending + [x])
  }
}
