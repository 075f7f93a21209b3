/** Mutexes with priority inheritance (FreeRTOS-Kernel/queue.c and tasks.c, compiled when
    configUSE_MUTEXES is 1): who holds what, which priority a task has because of it, and the ready
    lists it moves between. */
module Mutexes {
  import opened Rings
  import opened EventItems

  type Id = nat
  type MutexId = nat

  datatype Holder = Nobody | HeldBy(task: Id)

  datatype Task = Task(priority: nat, base: nat, held: nat, eventValue: nat)

  /** A mutex is a queue of length one without items, so its count is 1 when it can be taken. */
  datatype Mutex = Mutex(count: nat, holder: Holder, recursiveCalls: nat, recursive: bool, waiting: seq<Id>)

  datatype System = System(
    priorities: nat, tasks: map<Id, Task>, ready: seq<Ring<Id>>, mutexes: map<MutexId, Mutex>, current: Id)

  // ---------- changes of priority ----------

  /** Set the priority, and the event list item value with it unless that is in use for other data. */
  function Repriced(t: Task, p: nat, priorities: nat): Task {
    t.(priority := p, eventValue := ValueFor(t.eventValue, p, priorities))
  }

  /** xTaskPriorityInherit: the holder gets the priority of the task that is about to wait for it. */
  function Inherited(holder: Task, waiter: Task, priorities: nat): Task {
    if holder.priority < waiter.priority then Repriced(holder, waiter.priority, priorities) else holder
  }

  /** The holder then runs on a priority it has from its waiters, now or since an earlier one. */
  predicate RunsRaised(holder: Task, waiter: Task) {
    holder.priority < waiter.priority || holder.base < waiter.priority
  }

  /** xTaskPriorityDisinherit: one mutex fewer; an inherited priority ends with the last one. */
  function Disinherited(t: Task, priorities: nat): Task {
    var r := t.(held := if t.held > 0 then t.held - 1 else 0);
    if r.priority != r.base && r.held == 0 then
      r.(priority := r.base, eventValue := if r.base <= priorities then priorities - r.base else 0)
    else r
  }

  /** vTaskPriorityDisinheritAfterTimeout: down to the highest priority still waiting, but only if this
      is the only mutex held. */
  function DisinheritedTo(t: Task, highest: nat, priorities: nat): Task {
    var p := if t.base < highest then highest else t.base;
    if t.priority != p && t.held == 1 then Repriced(t, p, priorities) else t
  }

  /** A priority out of range is cut to the greatest one. */
  function Cut(p: nat, priorities: nat): nat {
    if p >= priorities && priorities > 0 then priorities - 1 else p
  }

  /** vTaskPrioritySet: the priority in use follows only when it is not an inherited one. */
  function PrioritySet(t: Task, requested: nat, priorities: nat): Task {
    var p := Cut(requested, priorities);
    if t.base == p then t
    else
      t.(priority := if t.base == t.priority then p else t.priority,
         base := p,
         eventValue := ValueFor(t.eventValue, p, priorities))
  }

  /** prvGetDisinheritPriorityAfterTimeout */
  function HighestWaiting(s: System, m: MutexId): nat
    requires m in s.mutexes && forall x | x in s.mutexes[m].waiting :: x in s.tasks
  {
    var w := s.mutexes[m].waiting;
    if w == [] then 0
    else if s.tasks[w[0]].eventValue <= s.priorities then s.priorities - s.tasks[w[0]].eventValue
    else 0
  }

  // ---------- the ready lists ----------

  function WithTask(s: System, t: Id, task: Task): System {
    s.(tasks := s.tasks[t := task])
  }

  function WithMutex(s: System, m: MutexId, mutex: Mutex): System {
    s.(mutexes := s.mutexes[m := mutex])
  }

  /** uxListRemove, if the item is in the ready list of this priority. */
  function TakenOff(ready: seq<Ring<Id>>, p: nat, t: Id): (r: seq<Ring<Id>>)
    ensures |r| == |ready|
  {
    if p < |ready| && t in ready[p].items then ready[p := Remove(ready[p], t)] else ready
  }

  /** prvAddTaskToReadyList */
  function PutOn(ready: seq<Ring<Id>>, p: nat, t: Id): (r: seq<Ring<Id>>)
    ensures |r| == |ready|
  {
    if p < |ready| && ready[p].index <= |ready[p].items| then ready[p := InsertEnd(ready[p], t)] else ready
  }

  /** listIS_CONTAINED_WITHIN for the ready list of t's own priority */
  predicate IsReady(s: System, t: Id) {
    t in s.tasks && s.tasks[t].priority < |s.ready| && t in s.ready[s.tasks[t].priority].items
  }

  /** A new record, a ready task moving to the end of the ready list of its new priority. */
  function Refiled(s: System, t: Id, task: Task): System
    requires t in s.tasks
  {
    WithTask(s, t, task).(
      ready := if IsReady(s, t) then PutOn(TakenOff(s.ready, s.tasks[t].priority, t), task.priority, t) else s.ready)
  }

  /** The lists are touched only if the priority changes. */
  function Adjusted(s: System, t: Id, task: Task): System
    requires t in s.tasks
  {
    if task.priority == s.tasks[t].priority then WithTask(s, t, task) else Refiled(s, t, task)
  }

  // ---------- the calls ----------

  datatype Op =
    | Take(m: MutexId)
    | WaitFor(m: MutexId)
    | Give(m: MutexId)
    | TakeRecursive(m: MutexId)
    | GiveRecursive(m: MutexId)
    | TimeOut(m: MutexId, t: Id)
    | AfterTimeOut(m: MutexId)
    | SetPriority(t: Id, p: nat)
    | Borrow(t: Id, value: nat)
    | Restore(t: Id)
    | NewTask(t: Id, p: nat)
    | KillTask(t: Id)
    | Switch(t: Id)
    | Sleep
    | WakeUp(t: Id)

  /** The calls the running task makes. */
  predicate ByCurrent(op: Op) {
    op.Take? || op.WaitFor? || op.Give? || op.TakeRecursive? || op.GiveRecursive? || op.AfterTimeOut? || op.Sleep?
  }

  ghost predicate Enabled(s: System, op: Op)
    requires Valid(s)
  {
    && (ByCurrent(op) ==> IsReady(s, s.current))
    && match op
    case Take(m) => m in s.mutexes && !s.mutexes[m].recursive
    case WaitFor(m) => m in s.mutexes && s.mutexes[m].count == 0 && s.tasks[s.current].eventValue < IN_USE
    case Give(m) =>
      m in s.mutexes && !s.mutexes[m].recursive
      && (s.mutexes[m].holder == Nobody || s.mutexes[m].holder == HeldBy(s.current))
    case TakeRecursive(m) => m in s.mutexes && s.mutexes[m].recursive
    case GiveRecursive(m) => m in s.mutexes && s.mutexes[m].recursive
    case TimeOut(m, t) => m in s.mutexes && t in s.mutexes[m].waiting
    case AfterTimeOut(m) => m in s.mutexes
    case SetPriority(t, _) => t in s.tasks
    case Borrow(t, value) => t in s.tasks && value >= IN_USE && forall m | m in s.mutexes :: t !in s.mutexes[m].waiting
    case Restore(t) => t in s.tasks
    case NewTask(t, p) => t !in s.tasks && p < s.priorities
    case KillTask(t) =>
      t in s.tasks && t != s.current && s.tasks[t].held == 0 && forall m | m in s.mutexes :: t !in s.mutexes[m].waiting
    case Switch(t) => IsReady(s, t)
    case Sleep => true
    case WakeUp(t) => t in s.tasks && !IsReady(s, t) && forall m | m in s.mutexes :: t !in s.mutexes[m].waiting
  }

  /** The successful take of xQueueSemaphoreTake, with pvTaskIncrementMutexHeldCount. */
  function Taken(s: System, m: MutexId): System
    requires m in s.mutexes && s.current in s.tasks && s.mutexes[m].count > 0
  {
    var t := s.tasks[s.current];
    WithMutex(WithTask(s, s.current, t.(held := t.held + 1)), m,
              s.mutexes[m].(count := s.mutexes[m].count - 1, holder := HeldBy(s.current)))
  }

  /** The mutex branch of prvCopyDataToQueue and the wake-up behind it. */
  function Given(s: System, m: MutexId): System
    requires m in s.mutexes && s.mutexes[m].holder == HeldBy(s.current) && s.current in s.tasks
    requires forall x | x in s.mutexes[m].waiting :: x in s.tasks
  {
    var x := s.mutexes[m];
    var r := Adjusted(s, s.current, Disinherited(s.tasks[s.current], s.priorities));
    if x.waiting == [] then WithMutex(r, m, x.(count := x.count + 1, holder := Nobody))
    else
      WithMutex(r, m, x.(count := x.count + 1, holder := Nobody, waiting := x.waiting[1..])).(
        ready := PutOn(r.ready, r.tasks[x.waiting[0]].priority, x.waiting[0]))
  }

  /** The event list item values of the tasks of an event list. */
  function ItemValues(w: seq<Id>, tasks: map<Id, Task>): (v: seq<nat>)
    requires forall x | x in w :: x in tasks
    ensures |v| == |w|
  {
    seq(|w|, i requires 0 <= i < |w| => tasks[w[i]].eventValue)
  }

  /** The blocking branch of xQueueSemaphoreTake: let the holder inherit, leave the ready list, and wait
      in order of the event list item values. */
  function Waited(s: System, m: MutexId): System
    requires m in s.mutexes && s.current in s.tasks
    requires s.mutexes[m].holder.HeldBy? ==> s.mutexes[m].holder.task in s.tasks
    requires forall x | x in s.mutexes[m].waiting :: x in s.tasks
  {
    var x := s.mutexes[m];
    var r := match x.holder
      case Nobody => s
      case HeldBy(h) => Adjusted(s, h, Inherited(s.tasks[h], s.tasks[s.current], s.priorities));
    var p := SortedPosition(ItemValues(x.waiting, r.tasks), r.tasks[s.current].eventValue);
    WithMutex(r, m, x.(waiting := InsertAt(x.waiting, p, s.current))).(
      ready := TakenOff(r.ready, r.tasks[s.current].priority, s.current))
  }

  /** xQueueTakeMutexRecursive without waiting */
  function TakenAgain(s: System, m: MutexId): System
    requires m in s.mutexes && s.current in s.tasks
  {
    var x := s.mutexes[m];
    if x.holder == HeldBy(s.current) then WithMutex(s, m, x.(recursiveCalls := x.recursiveCalls + 1))
    else if x.count > 0 then
      var r := Taken(s, m);
      WithMutex(r, m, r.mutexes[m].(recursiveCalls := x.recursiveCalls + 1))
    else s
  }

  /** xQueueGiveMutexRecursive */
  function GivenAgain(s: System, m: MutexId): System
    requires m in s.mutexes && s.current in s.tasks && forall x | x in s.mutexes[m].waiting :: x in s.tasks
    requires s.mutexes[m].holder == HeldBy(s.current) ==> s.mutexes[m].recursiveCalls > 0
  {
    var x := s.mutexes[m];
    if x.holder == HeldBy(s.current) then
      var r := WithMutex(s, m, x.(recursiveCalls := x.recursiveCalls - 1));
      if x.recursiveCalls == 1 then Given(r, m) else r
    else s
  }

  /** A waiting task is woken by the tick. */
  function TimedOut(s: System, m: MutexId, t: Id): System
    requires m in s.mutexes && t in s.tasks
  {
    WithMutex(s, m, s.mutexes[m].(waiting := Without(s.mutexes[m].waiting, t))).(
      ready := PutOn(s.ready, s.tasks[t].priority, t))
  }

  /** What the task does then. */
  function GivenUp(s: System, m: MutexId): System
    requires m in s.mutexes && forall x | x in s.mutexes[m].waiting :: x in s.tasks
    requires s.mutexes[m].holder.HeldBy? ==> s.mutexes[m].holder.task in s.tasks
  {
    match s.mutexes[m].holder
    case Nobody => s
    case HeldBy(h) => Adjusted(s, h, DisinheritedTo(s.tasks[h], HighestWaiting(s, m), s.priorities))
  }

  /** vTaskPrioritySet moves a ready task even if its priority in use stays. */
  function Repositioned(s: System, t: Id, p: nat): System
    requires t in s.tasks
  {
    var task := PrioritySet(s.tasks[t], p, s.priorities);
    if task == s.tasks[t] then s else Refiled(s, t, task)
  }

  predicate OnMutex(op: Op) {
    op.Take? || op.WaitFor? || op.Give? || op.TakeRecursive? || op.GiveRecursive? || op.TimeOut? || op.AfterTimeOut?
  }

  function MutexStep(s: System, op: Op): System
    requires Valid(s) && Enabled(s, op) && OnMutex(op)
  {
    hide Records, Ordered, IsReady;
    WaitersInTasks(s, op.m);
    match op
    case Take(m) => if s.mutexes[m].count > 0 then Taken(s, m) else s
    case WaitFor(m) => Waited(s, m)
    case Give(m) => if s.mutexes[m].count == 0 then (GiveFacts(s, m); Given(s, m)) else s
    case TakeRecursive(m) => TakenAgain(s, m)
    case GiveRecursive(m) => RecursiveFacts(s, m); GivenAgain(s, m)
    case TimeOut(m, t) => TimedOut(s, m, t)
    case AfterTimeOut(m) => GivenUp(s, m)
  }

  function TaskStep(s: System, op: Op): System
    requires Valid(s) && Enabled(s, op) && !OnMutex(op)
  {
    hide Records, Ordered, IsReady;
    InTasks(s);
    match op
    case SetPriority(t, p) => Repositioned(s, t, p)
    case Borrow(t, value) => WithTask(s, t, s.tasks[t].(eventValue := value))
    case Restore(t) => PrioritiesKnown(s, t); WithTask(s, t, s.tasks[t].(eventValue := s.priorities - s.tasks[t].priority))
    case NewTask(t, p) => WithTask(s, t, Task(p, p, 0, s.priorities - p)).(ready := PutOn(s.ready, p, t))
    case KillTask(t) => s.(tasks := s.tasks - {t}, ready := TakenOff(s.ready, s.tasks[t].priority, t))
    case Switch(t) => s.(current := t)
    case Sleep => s.(ready := TakenOff(s.ready, s.tasks[s.current].priority, s.current))
    case WakeUp(t) => s.(ready := PutOn(s.ready, s.tasks[t].priority, t))
  }

  function Step(s: System, op: Op): System
    requires Valid(s) && Enabled(s, op)
  {
    if OnMutex(op) then MutexStep(s, op) else TaskStep(s, op)
  }

  // ---------- accounting ----------

  function Holds(mutexes: map<MutexId, Mutex>, t: Id): set<MutexId> {
    set m | m in mutexes && mutexes[m].holder == HeldBy(t)
  }

  /** A task that holds no mutex runs at its base priority. */
  predicate Sound(t: Task, priorities: nat) {
    && t.priority < priorities && t.base < priorities
    && (t.held == 0 ==> t.priority == t.base)
    && (t.eventValue < IN_USE ==> 1 <= t.eventValue <= priorities)
  }

  ghost predicate MutexOk(s: System, x: Mutex) {
    && (x.count == 1 <==> x.holder == Nobody) && x.count <= 1
    && (x.holder.HeldBy? ==> x.holder.task in s.tasks)
    && (x.recursive ==> (x.recursiveCalls == 0 <==> x.holder == Nobody))
    && (forall t | t in x.waiting :: t in s.tasks && s.tasks[t].eventValue < IN_USE)
  }

  ghost predicate Records(s: System) {
    && 0 < s.priorities < IN_USE && s.current in s.tasks
    && (forall t | t in s.tasks :: Sound(s.tasks[t], s.priorities) && s.tasks[t].held == |Holds(s.mutexes, t)|)
    && (forall m | m in s.mutexes :: MutexOk(s, s.mutexes[m]))
  }

  /** The ready lists hold tasks under their own priority, each once. */
  ghost predicate FiledBy(ready: seq<Ring<Id>>, tasks: map<Id, Task>) {
    && (forall p | 0 <= p < |ready| :: ready[p].Valid())
    && (forall p | 0 <= p < |ready| :: forall t | t in ready[p].items :: t in tasks && tasks[t].priority == p)
  }

  /** The tasks in a ready list. */
  ghost function Awake(s: System): set<Id> {
    set t | t in s.tasks && IsReady(s, t)
  }

  /** A task waits for one mutex at most, and then it is not ready. */
  ghost predicate WaitLists(mutexes: map<MutexId, Mutex>, awake: set<Id>) {
    && (forall m | m in mutexes :: NoDup(mutexes[m].waiting))
    && (forall m | m in mutexes :: forall t | t in mutexes[m].waiting :: t !in awake)
    && (forall m, n | m in mutexes && n in mutexes && m != n ::
          forall t | t in mutexes[m].waiting :: t !in mutexes[n].waiting)
  }

  /** The ready lists and the waiting lists are in order. */
  ghost predicate Ordered(s: System) {
    |s.ready| == s.priorities && FiledBy(s.ready, s.tasks) && WaitLists(s.mutexes, Awake(s))
  }

  ghost predicate Valid(s: System) {
    Records(s) && Ordered(s)
  }

  /** The ready lists play no part in the records. */
  lemma RecordsOnly(s: System, ready: seq<Ring<Id>>)
    requires Records(s)
    ensures Records(s.(ready := ready))
  {
    hide Sound, Holds;
    forall m | m in s.mutexes
      ensures MutexOk(s.(ready := ready), s.mutexes[m])
    {
      assert MutexOk(s, s.mutexes[m]);
    }
  }

  /** A change of one task's record that leaves its mutexes alone. */
  lemma TaskKeeps(s: System, t: Id, task: Task)
    requires Records(s) && t in s.tasks && Sound(task, s.priorities) && task.held == s.tasks[t].held
    requires task.eventValue < IN_USE || forall m | m in s.mutexes :: t !in s.mutexes[m].waiting
    ensures Records(WithTask(s, t, task))
  {
    hide Sound;
    var r := WithTask(s, t, task);
    forall m | m in r.mutexes
      ensures MutexOk(r, r.mutexes[m])
    {
      assert MutexOk(s, s.mutexes[m]);
    }
  }

  lemma AdjustedKeeps(s: System, t: Id, task: Task)
    requires Records(s) && t in s.tasks && Sound(task, s.priorities) && task.held == s.tasks[t].held
    requires task.eventValue < IN_USE || forall m | m in s.mutexes :: t !in s.mutexes[m].waiting
    ensures Records(Adjusted(s, t, task)) && Records(Refiled(s, t, task))
  {
    hide Records;
    TaskKeeps(s, t, task);
    RecordsOnly(WithTask(s, t, task), Refiled(s, t, task).ready);
  }

  lemma HoldsSame(a: map<MutexId, Mutex>, m: MutexId, x: Mutex, t: Id)
    requires m in a && (a[m].holder == HeldBy(t) <==> x.holder == HeldBy(t))
    ensures Holds(a[m := x], t) == Holds(a, t)
  {
  }

  lemma HoldsMore(a: map<MutexId, Mutex>, m: MutexId, x: Mutex, t: Id)
    requires m in a && a[m].holder != HeldBy(t) && x.holder == HeldBy(t)
    ensures |Holds(a[m := x], t)| == |Holds(a, t)| + 1
  {
    assert Holds(a[m := x], t) == Holds(a, t) + {m};
  }

  lemma HoldsFewer(a: map<MutexId, Mutex>, m: MutexId, x: Mutex, t: Id)
    requires m in a && a[m].holder == HeldBy(t) && x.holder != HeldBy(t)
    ensures |Holds(a, t)| == |Holds(a[m := x], t)| + 1
  {
    assert Holds(a, t) == Holds(a[m := x], t) + {m};
  }

  /** A change of one mutex that does not change hands. */
  lemma MutexKeeps(s: System, m: MutexId, x: Mutex)
    requires Records(s) && m in s.mutexes && x.holder == s.mutexes[m].holder && MutexOk(s, x)
    ensures Records(WithMutex(s, m, x))
  {
    hide Sound, Holds;
    var r := WithMutex(s, m, x);
    forall t | t in s.tasks
      ensures |Holds(r.mutexes, t)| == |Holds(s.mutexes, t)|
    {
      HoldsSame(s.mutexes, m, x, t);
    }
    forall n | n in r.mutexes
      ensures MutexOk(r, r.mutexes[n])
    {
      assert MutexOk(s, s.mutexes[n]);
    }
  }

  /** A mutex changes hands between nobody and the running task, whose count follows. */
  lemma HandOver(s: System, m: MutexId, x: Mutex, task: Task)
    requires Records(s) && m in s.mutexes && Sound(task, s.priorities)
    requires task.eventValue < IN_USE || s.tasks[s.current].eventValue >= IN_USE
    requires (s.mutexes[m].holder == Nobody && x.holder == HeldBy(s.current) && task.held == s.tasks[s.current].held + 1)
          || (s.mutexes[m].holder == HeldBy(s.current) && x.holder == Nobody && task.held == s.tasks[s.current].held - 1)
    requires MutexOk(s, x)
    ensures Records(WithMutex(WithTask(s, s.current, task), m, x))
  {
    hide Sound, Holds;
    var r := WithMutex(WithTask(s, s.current, task), m, x);
    forall t | t in s.tasks
      ensures r.tasks[t].held == |Holds(r.mutexes, t)|
    {
      if t != s.current {
        HoldsSame(s.mutexes, m, x, t);
      } else if x.holder == Nobody {
        HoldsFewer(s.mutexes, m, x, t);
      } else {
        HoldsMore(s.mutexes, m, x, t);
      }
    }
    forall n | n in r.mutexes
      ensures MutexOk(r, r.mutexes[n])
    {
      assert MutexOk(s, s.mutexes[n]);
    }
  }

  lemma TakenKeeps(s: System, m: MutexId, calls: nat)
    requires Records(s) && m in s.mutexes && s.mutexes[m].count > 0 && (s.mutexes[m].recursive ==> calls > 0)
    ensures var r := Taken(s, m); Records(WithMutex(r, m, r.mutexes[m].(recursiveCalls := calls)))
  {
    hide Sound, Holds;
    var t := s.tasks[s.current];
    var x := s.mutexes[m].(count := s.mutexes[m].count - 1, holder := HeldBy(s.current), recursiveCalls := calls);
    assert MutexOk(s, s.mutexes[m]);
    MoreHeld(s);
    HandOver(s, m, x, t.(held := t.held + 1));
    var r := Taken(s, m);
    assert s.mutexes[m := r.mutexes[m]][m := x] == s.mutexes[m := x];
  }

  lemma MoreHeld(s: System)
    requires Records(s)
    ensures s.current in s.tasks
    ensures var t := s.tasks[s.current]; Sound(t.(held := t.held + 1), s.priorities)
  {
    hide Holds;
  }

  lemma GivenKeeps(s: System, m: MutexId, calls: nat)
    requires Records(s) && m in s.mutexes && s.mutexes[m].holder == HeldBy(s.current)
    requires s.mutexes[m].recursive ==> calls == 0
    ensures forall x | x in s.mutexes[m].waiting :: x in s.tasks
    ensures Records(Given(WithMutex(s, m, s.mutexes[m].(recursiveCalls := calls)), m))
  {
    hide Sound, Holds, Adjusted, PutOn;
    assert MutexOk(s, s.mutexes[m]);
    HolderHolds(s, m);
    SoundAfterGive(s, m);
    var w := WithMutex(s, m, s.mutexes[m].(recursiveCalls := calls));
    var g, task := Given(w, m), Disinherited(s.tasks[s.current], s.priorities);
    HandOver(s, m, g.mutexes[m], task);
    var r := WithMutex(WithTask(s, s.current, task), m, g.mutexes[m]);
    assert s.mutexes[m := w.mutexes[m]][m := g.mutexes[m]] == s.mutexes[m := g.mutexes[m]];
    AdjustedRest(w, s.current, task);
    assert g == r.(ready := g.ready);
    RecordsOnly(r, g.ready);
  }

  lemma SoundAfterGive(s: System, m: MutexId)
    requires Records(s) && s.current in s.tasks && s.tasks[s.current].held > 0
    ensures var r := Disinherited(s.tasks[s.current], s.priorities);
      && Sound(r, s.priorities) && r.held == s.tasks[s.current].held - 1
      && (r.eventValue < IN_USE || s.tasks[s.current].eventValue >= IN_USE)
  {
    hide Holds;
  }

  lemma WaitedKeeps(s: System, m: MutexId)
    requires Valid(s) && Enabled(s, WaitFor(m))
    ensures Records(Waited(s, m))
  {
    hide Holds, FiledBy, WaitLists, Awake, IsReady;
    var x := s.mutexes[m];
    assert MutexOk(s, x);
    match x.holder {
      case HeldBy(h) =>
        HolderHolds(s, m);
        var task := Inherited(s.tasks[h], s.tasks[s.current], s.priorities);
        WaitersKnown(s, h);
        TaskKeeps(s, h, task);
        var r, w := WithTask(s, h, task), Waited(s, m);
        MutexKeeps(r, m, w.mutexes[m]);
        assert w == WithMutex(r, m, w.mutexes[m]).(ready := w.ready);
        RecordsOnly(WithMutex(r, m, w.mutexes[m]), w.ready);
    }
  }

  lemma HolderHolds(s: System, m: MutexId)
    requires Records(s) && m in s.mutexes && s.mutexes[m].holder.HeldBy?
    ensures s.mutexes[m].holder.task in s.tasks && s.tasks[s.mutexes[m].holder.task].held > 0
  {
    assert MutexOk(s, s.mutexes[m]);
    assert m in Holds(s.mutexes, s.mutexes[m].holder.task);
  }

  lemma WaitersKnown(s: System, t: Id)
    requires Records(s) && t in s.tasks
    ensures s.tasks[t].eventValue < IN_USE || forall m | m in s.mutexes :: t !in s.mutexes[m].waiting
  {
    forall m | m in s.mutexes && t in s.mutexes[m].waiting
      ensures s.tasks[t].eventValue < IN_USE
    {
      assert MutexOk(s, s.mutexes[m]);
    }
  }

  lemma MutexSteps(s: System, op: Op)
    requires Valid(s) && Enabled(s, op)
    requires OnMutex(op)
    ensures Records(Step(s, op))
  {
    hide Sound, Holds, FiledBy, WaitLists, Awake, IsReady, HighestWaiting, Adjusted, TakenOff, PutOn;
    assert MutexOk(s, s.mutexes[op.m]);
    match op {
      case Take(m) =>
        if s.mutexes[m].count > 0 {
          TakenKeeps(s, m, s.mutexes[m].recursiveCalls);
          NoChange(Taken(s, m), m);
        }
      case WaitFor(m) => WaitedKeeps(s, m);
      case Give(m) =>
        if s.mutexes[m].count == 0 {
          GivenKeeps(s, m, s.mutexes[m].recursiveCalls);
          NoChange(s, m);
        }
      case TakeRecursive(m) =>
        var x := s.mutexes[m];
        if x.holder == HeldBy(s.current) {
          MutexKeeps(s, m, x.(recursiveCalls := x.recursiveCalls + 1));
        } else if x.count > 0 {
          TakenKeeps(s, m, x.recursiveCalls + 1);
        }
      case GiveRecursive(m) =>
        var x := s.mutexes[m];
        if x.holder == HeldBy(s.current) {
          if x.recursiveCalls == 1 {
            GivenKeeps(s, m, 0);
          } else {
            MutexKeeps(s, m, x.(recursiveCalls := x.recursiveCalls - 1));
          }
        }
      case TimeOut(m, t) =>
        var x := s.mutexes[m].(waiting := Without(s.mutexes[m].waiting, t));
        MutexKeeps(s, m, x);
        RecordsOnly(WithMutex(s, m, x), Step(s, op).ready);
      case AfterTimeOut(m) =>
        if s.mutexes[m].holder.HeldBy? {
          HolderHolds(s, m);
          AfterTimeOutSound(s, m);
          WaitersKnown(s, s.mutexes[m].holder.task);
          AdjustedKeeps(s, s.mutexes[m].holder.task,
                        DisinheritedTo(s.tasks[s.mutexes[m].holder.task], HighestWaiting(s, m), s.priorities));
        }
    }
  }

  lemma NoChange(s: System, m: MutexId)
    requires m in s.mutexes
    ensures WithMutex(s, m, s.mutexes[m].(recursiveCalls := s.mutexes[m].recursiveCalls)) == s
  {
    assert s.mutexes[m := s.mutexes[m]] == s.mutexes;
  }

  lemma AfterTimeOutSound(s: System, m: MutexId)
    requires Records(s) && m in s.mutexes && s.mutexes[m].holder.HeldBy?
    ensures var h := s.mutexes[m].holder.task;
      && h in s.tasks && (forall x | x in s.mutexes[m].waiting :: x in s.tasks)
      && var r := DisinheritedTo(s.tasks[h], HighestWaiting(s, m), s.priorities);
      && Sound(r, s.priorities) && r.held == s.tasks[h].held
      && (s.tasks[h].eventValue < IN_USE ==> r.eventValue < IN_USE)
  {
    hide Holds;
    assert MutexOk(s, s.mutexes[m]);
    HolderHolds(s, m);
  }

  lemma SetPriorityRecords(s: System, t: Id, p: nat)
    requires Records(s) && t in s.tasks
    ensures Records(Repositioned(s, t, p))
  {
    hide Holds, MutexOk, Refiled, Adjusted;
    WaitersKnown(s, t);
    AdjustedKeeps(s, t, PrioritySet(s.tasks[t], p, s.priorities));
  }

  lemma SoundAt(s: System, t: Id)
    requires Records(s) && t in s.tasks
    ensures Sound(s.tasks[t], s.priorities) && 0 < s.priorities < IN_USE
  {
    hide Holds, MutexOk, Sound;
  }

  lemma OtherSteps(s: System, op: Op)
    requires Valid(s) && Enabled(s, op)
    requires !OnMutex(op)
    ensures Records(Step(s, op))
  {
    hide Records, Holds, FiledBy, WaitLists, Awake, IsReady, Repositioned, TakenOff, PutOn;
    match op {
      case SetPriority(t, p) => SetPriorityRecords(s, t, p);
      case Borrow(t, value) => SoundAt(s, t); TaskKeeps(s, t, s.tasks[t].(eventValue := value));
      case Restore(t) => SoundAt(s, t); TaskKeeps(s, t, s.tasks[t].(eventValue := s.priorities - s.tasks[t].priority));
      case NewTask(t, p) => NewTaskKeeps(s, t, p);
      case KillTask(t) => KillTaskKeeps(s, t);
      case Switch(t) => SwitchKeeps(s, t);
      case Sleep => RecordsOnly(s, Step(s, op).ready);
      case WakeUp(t) => RecordsOnly(s, Step(s, op).ready);
    }
  }

  lemma SwitchKeeps(s: System, t: Id)
    requires Records(s) && IsReady(s, t)
    ensures Records(s.(current := t))
  {
    hide Sound, Holds;
    forall m | m in s.mutexes
      ensures MutexOk(s.(current := t), s.mutexes[m])
    {
      assert MutexOk(s, s.mutexes[m]);
    }
  }

  lemma StrangerHoldsNothing(s: System, t: Id)
    requires Records(s) && t !in s.tasks
    ensures Holds(s.mutexes, t) == {}
  {
    hide Sound;
    assert forall m | m in s.mutexes :: MutexOk(s, s.mutexes[m]);
  }

  lemma NewTaskKeeps(s: System, t: Id, p: nat)
    requires Valid(s) && Enabled(s, NewTask(t, p))
    ensures Records(Step(s, NewTask(t, p)))
  {
    hide Ordered, PutOn, IsReady, Holds, Sound;
    StrangerHoldsNothing(s, t);
    SoundNew(p, s.priorities);
    var r := Step(s, NewTask(t, p));
    forall m | m in r.mutexes
      ensures MutexOk(r, r.mutexes[m])
    {
      assert MutexOk(s, s.mutexes[m]);
    }
  }

  lemma SoundNew(p: nat, priorities: nat)
    requires p < priorities < IN_USE
    ensures Sound(Task(p, p, 0, priorities - p), priorities)
  {
  }

  lemma KillTaskKeeps(s: System, t: Id)
    requires Valid(s) && Enabled(s, KillTask(t))
    ensures Records(Step(s, KillTask(t)))
  {
    var r := Step(s, KillTask(t));
    assert |Holds(s.mutexes, t)| == 0;
    forall m | m in r.mutexes
      ensures MutexOk(r, r.mutexes[m])
    {
      assert MutexOk(s, s.mutexes[m]);
      assert m !in Holds(s.mutexes, t);
    }
  }

  lemma StepRecords(s: System, op: Op)
    requires Valid(s) && Enabled(s, op)
    ensures Records(Step(s, op))
  {
    hide Valid, Enabled, Step;
    if OnMutex(op) {
      MutexSteps(s, op);
    } else {
      OtherSteps(s, op);
    }
  }

  // ---------- who is ready ----------

  lemma OffKeeps(ready: seq<Ring<Id>>, tasks: map<Id, Task>, t: Id)
    requires FiledBy(ready, tasks) && t in tasks
    ensures var r := TakenOff(ready, tasks[t].priority, t);
      && FiledBy(r, tasks)
      && (forall q | 0 <= q < |ready| :: forall y :: y in r[q].items <==> y in ready[q].items && y != t)
  {
    var p := tasks[t].priority;
    if p < |ready| && t in ready[p].items {
      RemoveValid(ready[p], t);
    }
  }

  lemma OnKeeps(ready: seq<Ring<Id>>, tasks: map<Id, Task>, t: Id)
    requires FiledBy(ready, tasks) && t in tasks && tasks[t].priority < |ready|
    requires t !in ready[tasks[t].priority].items
    ensures var p := tasks[t].priority; var r := PutOn(ready, p, t);
      && FiledBy(r, tasks)
      && (forall q | 0 <= q < |ready| :: forall y :: y in r[q].items <==> y in ready[q].items || (q == p && y == t))
  {
    var p := tasks[t].priority;
    InsertEndValid(ready[p], t);
  }

  /** The record of a task on no ready list can have any priority. */
  lemma RecordFree(ready: seq<Ring<Id>>, tasks: map<Id, Task>, t: Id, task: Task)
    requires FiledBy(ready, tasks)
    requires (t in tasks && task.priority == tasks[t].priority) || forall q | 0 <= q < |ready| :: t !in ready[q].items
    ensures FiledBy(ready, tasks[t := task])
  {
  }

  /** A change of priority takes a ready task to the list of its new priority, and makes nobody ready or
      not ready. */
  lemma RefiledMoves(s: System, t: Id, task: Task)
    requires FiledBy(s.ready, s.tasks) && t in s.tasks
    requires s.tasks[t].priority < |s.ready| && task.priority < |s.ready|
    ensures var r := Refiled(s, t, task);
      FiledBy(r.ready, r.tasks) && |r.ready| == |s.ready| && Awake(r) == Awake(s)
  {
    hide TakenOff, PutOn;
    var off := TakenOff(s.ready, s.tasks[t].priority, t);
    OffKeeps(s.ready, s.tasks, t);
    if IsReady(s, t) {
      RecordFree(off, s.tasks, t, task);
      OnKeeps(off, s.tasks[t := task], t);
    } else {
      RecordFree(s.ready, s.tasks, t, task);
    }
  }

  lemma AdjustedMoves(s: System, t: Id, task: Task)
    requires FiledBy(s.ready, s.tasks) && t in s.tasks
    requires s.tasks[t].priority < |s.ready| && task.priority < |s.ready|
    ensures var r := Adjusted(s, t, task);
      FiledBy(r.ready, r.tasks) && |r.ready| == |s.ready| && Awake(r) == Awake(s)
  {
    hide Refiled;
    if task.priority == s.tasks[t].priority {
      RecordFree(s.ready, s.tasks, t, task);
    } else {
      RefiledMoves(s, t, task);
    }
  }

  /** A task leaves the ready lists. */
  lemma LeavesReady(s: System, t: Id)
    requires FiledBy(s.ready, s.tasks) && t in s.tasks
    ensures var r := s.(ready := TakenOff(s.ready, s.tasks[t].priority, t));
      FiledBy(r.ready, r.tasks) && Awake(r) == Awake(s) - {t}
  {
    hide TakenOff;
    OffKeeps(s.ready, s.tasks, t);
  }

  /** A task that was not ready becomes ready. */
  lemma JoinsReady(s: System, t: Id)
    requires FiledBy(s.ready, s.tasks) && t in s.tasks && s.tasks[t].priority < |s.ready| && !IsReady(s, t)
    ensures var r := s.(ready := PutOn(s.ready, s.tasks[t].priority, t));
      FiledBy(r.ready, r.tasks) && Awake(r) == Awake(s) + {t}
  {
    hide PutOn;
    OnKeeps(s.ready, s.tasks, t);
  }

  /** One waiting list changes, and with it who is ready. */
  lemma WaitsChange(mutexes: map<MutexId, Mutex>, awake: set<Id>, m: MutexId, x: Mutex, now: set<Id>)
    requires WaitLists(mutexes, awake) && m in mutexes && NoDup(x.waiting)
    requires forall t | t in x.waiting :: t !in now && (t in mutexes[m].waiting || t in awake)
    requires forall t | t in now && t !in awake :: t in mutexes[m].waiting && t !in x.waiting
    ensures WaitLists(mutexes[m := x], now)
  {
  }

  lemma PrioritiesKnown(s: System, t: Id)
    requires Records(s) && t in s.tasks
    ensures s.tasks[t].priority < s.priorities && s.tasks[t].base < s.priorities
  {
    hide Holds;
  }

  lemma TakenOrdered(s: System, m: MutexId)
    requires Valid(s) && m in s.mutexes && s.mutexes[m].count > 0
    ensures Ordered(Taken(s, m))
  {
    hide Records, FiledBy, WaitLists;
    InTasks(s);
    var t := s.tasks[s.current];
    RecordFree(s.ready, s.tasks, s.current, t.(held := t.held + 1));
    var r := Taken(s, m);
    assert Awake(r) == Awake(s);
    WaitsSame(s.mutexes, Awake(s), m, r.mutexes[m]);
  }

  lemma InTasks(s: System)
    requires Records(s)
    ensures s.current in s.tasks
  {
  }

  /** A mutex changes but for its waiting list. */
  lemma WaitsSame(mutexes: map<MutexId, Mutex>, awake: set<Id>, m: MutexId, x: Mutex)
    requires WaitLists(mutexes, awake) && m in mutexes && x.waiting == mutexes[m].waiting
    ensures WaitLists(mutexes[m := x], awake)
  {
  }

  lemma WaitedOrdered(s: System, m: MutexId)
    requires Valid(s) && Enabled(s, WaitFor(m))
    ensures Ordered(Waited(s, m))
  {
    hide Records, FiledBy, WaitLists, Adjusted, Inherited, TakenOff, MutexOk, Awake;
    WaitFacts(s, m);
    var x := s.mutexes[m];
    var h := x.holder.task;
    var task := Inherited(s.tasks[h], s.tasks[s.current], s.priorities);
    PrioritiesKnown(s, h);
    PrioritiesKnown(s, s.current);
    InheritedPriority(s.tasks[h], s.tasks[s.current], s.priorities);
    AdjustedMoves(s, h, task);
    AdjustedRest(s, h, task);
    var r := Adjusted(s, h, task);
    LeavesReady(r, s.current);
    var w := Waited(s, m);
    SameAwake(r.(ready := w.ready), w);
    LeavesWaiting(s, w, m);
  }

  lemma InheritedPriority(holder: Task, waiter: Task, priorities: nat)
    ensures var r := Inherited(holder, waiter, priorities);
      r.priority == (if holder.priority < waiter.priority then waiter.priority else holder.priority)
  {
  }

  lemma AdjustedRest(s: System, t: Id, task: Task)
    requires t in s.tasks
    ensures var r := Adjusted(s, t, task);
      r == s.(tasks := s.tasks[t := task], ready := r.ready)
  {
  }

  lemma WaitFacts(s: System, m: MutexId)
    requires Valid(s) && Enabled(s, WaitFor(m))
    ensures s.mutexes[m].holder.HeldBy? && s.mutexes[m].holder.task in s.tasks && s.current in s.tasks
    ensures forall x | x in s.mutexes[m].waiting :: x in s.tasks
    ensures s.current in Awake(s) && s.current !in s.mutexes[m].waiting && NoDup(s.mutexes[m].waiting)
  {
    assert MutexOk(s, s.mutexes[m]);
  }

  /** The running task is on the waiting list and no longer ready. */
  lemma LeavesWaiting(s: System, w: System, m: MutexId)
    requires WaitLists(s.mutexes, Awake(s)) && m in s.mutexes && s.current in Awake(s)
    requires m in w.mutexes && w.mutexes == s.mutexes[m := w.mutexes[m]] && Awake(w) == Awake(s) - {s.current}
    requires NoDup(w.mutexes[m].waiting)
    requires forall t | t in w.mutexes[m].waiting :: t in s.mutexes[m].waiting || t == s.current
    ensures WaitLists(w.mutexes, Awake(w))
  {
    hide Awake;
    WaitsChange(s.mutexes, Awake(s), m, w.mutexes[m], Awake(w));
  }

  lemma GivenOrdered(s: System, m: MutexId)
    requires Ordered(s) && m in s.mutexes && s.mutexes[m].holder == HeldBy(s.current) && s.current in s.tasks
    requires forall t | t in s.tasks :: s.tasks[t].priority < s.priorities && s.tasks[t].base < s.priorities
    requires forall x | x in s.mutexes[m].waiting :: x in s.tasks
    ensures Ordered(Given(s, m))
  {
    hide FiledBy, WaitLists, Adjusted, Disinherited, PutOn, Awake, IsReady;
    var x := s.mutexes[m];
    var task := Disinherited(s.tasks[s.current], s.priorities);
    DisinheritedPriority(s.tasks[s.current], s.priorities);
    AdjustedMoves(s, s.current, task);
    AdjustedRest(s, s.current, task);
    var r, g := Adjusted(s, s.current, task), Given(s, m);
    if x.waiting == [] {
      SameAwake(r, g);
      WaitsSame(s.mutexes, Awake(s), m, g.mutexes[m]);
    } else {
      var t := x.waiting[0];
      HeadAsleep(s, m);
      AwakeMeans(r, t);
      JoinsReady(r, t);
      SameAwake(r.(ready := g.ready), g);
      WaitsChange(s.mutexes, Awake(s), m, g.mutexes[m], Awake(g));
    }
  }

  lemma AllBounded(s: System)
    requires Records(s)
    ensures forall t | t in s.tasks :: s.tasks[t].priority < s.priorities && s.tasks[t].base < s.priorities
  {
    hide Holds;
  }

  lemma CallsOrdered(s: System, m: MutexId, calls: nat)
    requires Ordered(s) && m in s.mutexes
    ensures Ordered(WithMutex(s, m, s.mutexes[m].(recursiveCalls := calls)))
  {
    hide FiledBy, WaitLists, Awake;
    var x := s.mutexes[m].(recursiveCalls := calls);
    SameAwake(s, WithMutex(s, m, x));
    WaitsSame(s.mutexes, Awake(s), m, x);
  }

  lemma TakenHas(s: System, m: MutexId)
    requires m in s.mutexes && s.current in s.tasks && s.mutexes[m].count > 0
    ensures m in Taken(s, m).mutexes && Taken(s, m).mutexes[m].recursiveCalls == s.mutexes[m].recursiveCalls
  {
  }

  /** A held recursive mutex counts at least one call. */
  lemma RecursiveFacts(s: System, m: MutexId)
    requires Records(s) && m in s.mutexes && s.mutexes[m].recursive
    ensures s.mutexes[m].holder == HeldBy(s.current) ==> s.mutexes[m].recursiveCalls > 0
    ensures forall x | x in s.mutexes[m].waiting :: x in s.tasks
  {
    assert MutexOk(s, s.mutexes[m]);
  }

  lemma WaitersInTasks(s: System, m: MutexId)
    requires Records(s) && m in s.mutexes
    ensures forall x | x in s.mutexes[m].waiting :: x in s.tasks
    ensures s.mutexes[m].holder.HeldBy? ==> s.mutexes[m].holder.task in s.tasks
    ensures s.current in s.tasks
  {
    assert MutexOk(s, s.mutexes[m]);
  }

  lemma GiveFacts(s: System, m: MutexId)
    requires Valid(s) && Enabled(s, Give(m)) && s.mutexes[m].count == 0
    ensures s.mutexes[m].holder == HeldBy(s.current) && s.tasks[s.current].held > 0
  {
    assert MutexOk(s, s.mutexes[m]);
    HolderHolds(s, m);
  }

  lemma DisinheritedPriority(t: Task, priorities: nat)
    ensures var r := Disinherited(t, priorities); r.priority == t.priority || r.priority == t.base
  {
  }

  lemma AwakeMeans(s: System, t: Id)
    requires t in s.tasks
    ensures t in Awake(s) <==> IsReady(s, t)
  {
  }

  lemma SameAwake(s: System, r: System)
    requires r.tasks == s.tasks && r.ready == s.ready
    ensures Awake(r) == Awake(s)
  {
  }

  lemma HeadAsleep(s: System, m: MutexId)
    requires WaitLists(s.mutexes, Awake(s)) && m in s.mutexes && s.mutexes[m].waiting != []
    ensures var w := s.mutexes[m].waiting;
      w[0] !in Awake(s) && w[0] !in w[1..] && NoDup(w[1..]) && forall t | t in w :: t !in Awake(s)
  {
    hide Awake;
  }

  lemma MutexOrdered(s: System, op: Op)
    requires Valid(s) && Enabled(s, op)
    requires op.Take? || op.WaitFor? || op.Give? || op.TakeRecursive? || op.GiveRecursive?
    ensures Ordered(Step(s, op))
  {
    hide Records, FiledBy, WaitLists, Awake, Taken, Given, Waited, IsReady, MutexOk;
    AllBounded(s);
    InTasks(s);
    match op {
      case Take(m) =>
        if s.mutexes[m].count > 0 {
          TakenOrdered(s, m);
        }
      case WaitFor(m) => WaitedOrdered(s, m);
      case Give(m) =>
        if s.mutexes[m].count == 0 {
          GiveFacts(s, m);
          WaitersInTasks(s, m);
          GivenOrdered(s, m);
        }
      case TakeRecursive(m) =>
        var x := s.mutexes[m];
        if x.holder == HeldBy(s.current) {
          CallsOrdered(s, m, x.recursiveCalls + 1);
        } else if x.count > 0 {
          TakenOrdered(s, m);
          TakenHas(s, m);
          CallsOrdered(Taken(s, m), m, x.recursiveCalls + 1);
        }
      case GiveRecursive(m) =>
        var x := s.mutexes[m];
        if x.holder == HeldBy(s.current) {
          RecursiveFacts(s, m);
          CallsOrdered(s, m, x.recursiveCalls - 1);
          if x.recursiveCalls == 1 {
            GivenOrdered(WithMutex(s, m, x.(recursiveCalls := 0)), m);
          }
        }
    }
  }
  lemma TimeOutOrdered(s: System, m: MutexId, t: Id)
    requires Valid(s) && Enabled(s, TimeOut(m, t))
    ensures Ordered(Step(s, TimeOut(m, t)))
  {
    hide Records, FiledBy, WaitLists, PutOn, Awake, IsReady;
    WaitersInTasks(s, m);
    PrioritiesKnown(s, t);
    var r := Step(s, TimeOut(m, t));
    WaiterAsleep(s, m, t);
    AwakeMeans(s, t);
    JoinsReady(s, t);
    SameAwake(s.(ready := r.ready), r);
    WaitsChange(s.mutexes, Awake(s), m, r.mutexes[m], Awake(r));
  }

  lemma WaiterAsleep(s: System, m: MutexId, t: Id)
    requires WaitLists(s.mutexes, Awake(s)) && m in s.mutexes && t in s.mutexes[m].waiting
    ensures NoDup(s.mutexes[m].waiting) && forall u | u in s.mutexes[m].waiting :: u !in Awake(s)
  {
    hide Awake;
  }

  lemma AfterTimeOutOrdered(s: System, m: MutexId)
    requires Valid(s) && Enabled(s, AfterTimeOut(m))
    ensures Ordered(Step(s, AfterTimeOut(m)))
  {
    hide Records, FiledBy, WaitLists, Adjusted, Awake, IsReady, DisinheritedTo, HighestWaiting;
    WaitersInTasks(s, m);
    AllBounded(s);
    if s.mutexes[m].holder.HeldBy? {
      var h := s.mutexes[m].holder.task;
      AfterTimeOutSound(s, m);
      var task := DisinheritedTo(s.tasks[h], HighestWaiting(s, m), s.priorities);
      AdjustedMoves(s, h, task);
      AdjustedRest(s, h, task);
    }
  }

  /** A change of a record that leaves the priority alone. */
  lemma RecordOrdered(s: System, t: Id, task: Task)
    requires Ordered(s) && t in s.tasks && task.priority == s.tasks[t].priority
    ensures Ordered(WithTask(s, t, task))
  {
    hide FiledBy, WaitLists;
    RecordFree(s.ready, s.tasks, t, task);
    assert Awake(WithTask(s, t, task)) == Awake(s);
  }

  lemma SetPriorityOrdered(s: System, t: Id, p: nat)
    requires Valid(s) && t in s.tasks
    ensures Ordered(Step(s, SetPriority(t, p)))
  {
    hide Records, FiledBy, WaitLists, Refiled, Awake, IsReady;
    AllBounded(s);
    var task := PrioritySet(s.tasks[t], p, s.priorities);
    RefiledMoves(s, t, task);
    RefiledRest(s, t, task);
  }

  lemma RefiledRest(s: System, t: Id, task: Task)
    requires t in s.tasks
    ensures var r := Refiled(s, t, task);
      r == s.(tasks := s.tasks[t := task], ready := r.ready)
  {
  }

  lemma NewTaskOrdered(s: System, t: Id, p: nat)
    requires Valid(s) && Enabled(s, NewTask(t, p))
    ensures Ordered(Step(s, NewTask(t, p)))
  {
    hide Records, WaitLists, PutOn, MutexOk;
    var n := WithTask(s, t, Task(p, p, 0, s.priorities - p));
    assert FiledBy(n.ready, n.tasks) && Awake(n) == Awake(s);
    JoinsReady(n, t);
    StrangerWaitsNowhere(s, t);
    WaitsMore(s.mutexes, Awake(s), t);
  }

  lemma StrangerWaitsNowhere(s: System, t: Id)
    requires Records(s) && t !in s.tasks
    ensures forall m | m in s.mutexes :: t !in s.mutexes[m].waiting
  {
    forall m | m in s.mutexes
      ensures t !in s.mutexes[m].waiting
    {
      WaitersInTasks(s, m);
    }
  }

  lemma WaitsMore(mutexes: map<MutexId, Mutex>, awake: set<Id>, t: Id)
    requires WaitLists(mutexes, awake) && forall m | m in mutexes :: t !in mutexes[m].waiting
    ensures WaitLists(mutexes, awake + {t})
  {
  }

  lemma WaitsLess(mutexes: map<MutexId, Mutex>, awake: set<Id>, now: set<Id>)
    requires WaitLists(mutexes, awake) && now <= awake
    ensures WaitLists(mutexes, now)
  {
  }

  lemma KillTaskOrdered(s: System, t: Id)
    requires Valid(s) && Enabled(s, KillTask(t))
    ensures Ordered(Step(s, KillTask(t)))
  {
    hide Records, WaitLists, TakenOff, MutexOk;
    LeavesReady(s, t);
    OffKeeps(s.ready, s.tasks, t);
    var r := Step(s, KillTask(t));
    assert Awake(r) == Awake(s) - {t};
    WaitsLess(s.mutexes, Awake(s), Awake(r));
  }

  lemma TaskOrdered(s: System, op: Op)
    requires Valid(s) && Enabled(s, op)
    requires op.Borrow? || op.Restore? || op.Switch? || op.Sleep? || op.WakeUp?
    ensures Ordered(Step(s, op))
  {
    hide Records, FiledBy, WaitLists, TakenOff, PutOn, Awake, IsReady, MutexOk;
    InTasks(s);
    AllBounded(s);
    match op {
      case Borrow(t, value) => RecordOrdered(s, t, s.tasks[t].(eventValue := value));
      case Restore(t) => RecordOrdered(s, t, s.tasks[t].(eventValue := s.priorities - s.tasks[t].priority));
      case Switch(t) => SameAwake(s, s.(current := t));
      case Sleep =>
        LeavesReady(s, s.current);
        WaitsLess(s.mutexes, Awake(s), Awake(Step(s, op)));
      case WakeUp(t) =>
        JoinsReady(s, t);
        WaitsMore(s.mutexes, Awake(s), t);
    }
  }

  lemma StepKeeps(s: System, op: Op)
    requires Valid(s) && Enabled(s, op)
    ensures Valid(Step(s, op))
  {
    hide Records, Ordered, Enabled, Step;
    StepRecords(s, op);
    match op {
      case TimeOut(m, t) => TimeOutOrdered(s, m, t);
      case AfterTimeOut(m) => AfterTimeOutOrdered(s, m);
      case SetPriority(t, p) => TaskNamed(s, op); SetPriorityOrdered(s, t, p);
      case NewTask(t, p) => NewTaskOrdered(s, t, p);
      case KillTask(t) => KillTaskOrdered(s, t);
      case Borrow(_, _) => TaskOrdered(s, op);
      case Restore(_) => TaskOrdered(s, op);
      case Switch(_) => TaskOrdered(s, op);
      case Sleep => TaskOrdered(s, op);
      case WakeUp(_) => TaskOrdered(s, op);
      case _ => MutexOrdered(s, op);
    }
  }

  lemma TaskNamed(s: System, op: Op)
    requires Valid(s) && Enabled(s, op) && op.SetPriority?
    ensures op.t in s.tasks
  {
  }

  // ---------- runs ----------

  ghost predicate Run(s: System, ops: seq<Op>)
    requires Valid(s)
    decreases |ops|
  {
    ops != [] ==> Enabled(s, ops[0]) && (StepKeeps(s, ops[0]); Run(Step(s, ops[0]), ops[1..]))
  }

  ghost function After(s: System, ops: seq<Op>): System
    requires Valid(s) && Run(s, ops)
    decreases |ops|
  {
    if ops == [] then s else (StepKeeps(s, ops[0]); After(Step(s, ops[0]), ops[1..]))
  }

  lemma {:induction false} RunKeeps(s: System, ops: seq<Op>)
    requires Valid(s) && Run(s, ops)
    ensures Valid(After(s, ops))
    decreases |ops|
  {
    hide Valid, Enabled, Step;
    if ops != [] {
      StepKeeps(s, ops[0]);
      RunKeeps(Step(s, ops[0]), ops[1..]);
    }
  }

  /** Mutex accounting in every reachable state: each task's count is the number of mutexes it holds, a
      mutex can be taken exactly when nobody holds it, and a task that holds none runs at its base
      priority. */
  lemma Accounting(s: System, ops: seq<Op>)
    requires Valid(s) && Run(s, ops)
    ensures var r := After(s, ops);
      && (forall t | t in r.tasks ::
            && r.tasks[t].held == |Holds(r.mutexes, t)|
            && (r.tasks[t].held == 0 ==> r.tasks[t].priority == r.tasks[t].base))
      && (forall m | m in r.mutexes :: r.mutexes[m].count == 1 <==> r.mutexes[m].holder == Nobody)
  {
    hide Holds, Run, After, Enabled, Step;
    RunKeeps(s, ops);
    var r := After(s, ops);
    forall m | m in r.mutexes
      ensures r.mutexes[m].count == 1 <==> r.mutexes[m].holder == Nobody
    {
      assert MutexOk(r, r.mutexes[m]);
    }
  }

  /** In every reachable state, whatever priorities were inherited and given back, a ready task is in the
      ready list of the priority it has at that moment and in no other, and a task that waits for a mutex
      is in no ready list and waits for that mutex only. */
  lemma ReadyLists(s: System, ops: seq<Op>)
    requires Valid(s) && Run(s, ops)
    ensures var r := After(s, ops);
      && (forall p | 0 <= p < |r.ready| :: NoDup(r.ready[p].items))
      && (forall p | 0 <= p < |r.ready| :: forall t ::
            t in r.ready[p].items <==> IsReady(r, t) && r.tasks[t].priority == p)
      && (forall m | m in r.mutexes :: forall t | t in r.mutexes[m].waiting ::
            !IsReady(r, t) && forall n | n in r.mutexes && n != m :: t !in r.mutexes[n].waiting)
  {
    hide Records, Run, After, Enabled, Step;
    RunKeeps(s, ops);
    var r := After(s, ops);
    assert forall p | 0 <= p < |r.ready| :: r.ready[p].Valid();
    forall m, t | m in r.mutexes && t in r.mutexes[m].waiting
      ensures !IsReady(r, t)
    {
      assert t !in Awake(r);
    }
  }

  /** A state no mutex of which is held. */
  function Unlocked(priorities: nat, idle: Id, mutexes: map<MutexId, bool>): System
    requires priorities > 0
  {
    System(priorities, map[idle := Task(0, 0, 0, priorities)],
           PutOn(seq(priorities, _ => Empty<Id>()), 0, idle),
           map m | m in mutexes :: Mutex(1, Nobody, 0, mutexes[m], []), idle)
  }

  lemma UnlockedValid(priorities: nat, idle: Id, mutexes: map<MutexId, bool>)
    requires 0 < priorities < IN_USE
    ensures Valid(Unlocked(priorities, idle, mutexes))
  {
    var s := Unlocked(priorities, idle, mutexes);
    assert Holds(s.mutexes, idle) == {};
    OnKeeps(seq(priorities, _ => Empty<Id>()), s.tasks, idle);
  }

  // ---------- what inheritance achieves, and where it stops ----------

  /** Blocking on a held mutex leaves its holder at no lower a priority than the task that waits. */
  lemma HolderIsRaised(s: System, m: MutexId)
    requires Valid(s) && Enabled(s, WaitFor(m))
    ensures var r := Step(s, WaitFor(m));
      && s.mutexes[m].holder.HeldBy?
      && s.mutexes[m].holder.task in r.tasks && s.current in r.tasks
      && r.tasks[s.mutexes[m].holder.task].priority >= s.tasks[s.current].priority == r.tasks[s.current].priority
  {
    assert MutexOk(s, s.mutexes[m]);
  }

  /** Whether vTaskPrioritySet ends with a yield. */
  predicate YieldOnSet(s: System, t: Id, requested: nat)
    requires t in s.tasks && s.current in s.tasks
  {
    var p := Cut(requested, s.priorities);
    && p != s.tasks[t].base
    && if p > s.tasks[t].base then t != s.current && p >= s.tasks[s.current].priority else t == s.current
  }

  /** No ready task is above the running one. */
  ghost predicate RunsHighest(s: System) {
    s.current in s.tasks && forall t | t in Awake(s) :: s.tasks[t].priority <= s.tasks[s.current].priority
  }

  /** The yields it omits are safe, although it compares base priorities and a task may run on an
      inherited one. */
  lemma QuietSetIsSafe(s: System, t: Id, p: nat)
    requires Valid(s) && t in s.tasks && RunsHighest(s) && !YieldOnSet(s, t, p)
    ensures RunsHighest(Step(s, SetPriority(t, p)))
  {
    hide Records, FiledBy, WaitLists, Refiled, Awake, IsReady;
    AllBounded(s);
    var task := PrioritySet(s.tasks[t], p, s.priorities);
    RefiledMoves(s, t, task);
    RefiledRest(s, t, task);
    AwakeInTasks(s);
  }

  lemma AwakeInTasks(s: System)
    ensures Awake(s) <= s.tasks.Keys
  {
  }

  ghost predicate AboveBase(s: System) {
    forall t | t in s.tasks :: s.tasks[t].base <= s.tasks[t].priority
  }

  /** Setting a task's base priority keeps it at or below the priority in use if and only if the task is
      not inheriting, or the new priority is no higher than the inherited one. */
  lemma SetPriorityAboveBase(t: Task, p: nat, priorities: nat)
    requires t.base <= t.priority < priorities
    ensures var r := PrioritySet(t, p, priorities);
      r.base <= r.priority <==> t.base == t.priority || Cut(p, priorities) <= t.priority
  {
  }

  /** Only the record of one task changes, if any, and only in certain ways. */
  lemma OneRecord(s: System, op: Op, t: Id)
    requires Valid(s) && Enabled(s, op) && !op.SetPriority? && t in Step(s, op).tasks && t in s.tasks
    requires s.tasks[t].base <= s.tasks[t].priority
    ensures Step(s, op).tasks[t].base <= Step(s, op).tasks[t].priority
  {
    hide Records, Ordered, TakenOff, PutOn, IsReady, HighestWaiting, ItemValues, SortedPosition, InsertAt, Without;
  }

  /** No other step takes a task below its base priority. */
  lemma StaysAboveBase(s: System, op: Op)
    requires Valid(s) && Enabled(s, op) && AboveBase(s) && !op.SetPriority?
    ensures AboveBase(Step(s, op))
  {
    hide Valid, Enabled, Step;
    forall t | t in Step(s, op).tasks
      ensures Step(s, op).tasks[t].base <= Step(s, op).tasks[t].priority
    {
      if t in s.tasks {
        OneRecord(s, op, t);
      } else {
        OnlyNewTask(s, op, t);
      }
    }
  }

  lemma OnlyNewTask(s: System, op: Op, t: Id)
    requires Valid(s) && Enabled(s, op) && t in Step(s, op).tasks && t !in s.tasks
    ensures op.NewTask? && op.t == t && Step(s, op).tasks[t].base == Step(s, op).tasks[t].priority
  {
    hide Records, Ordered, TakenOff, PutOn, IsReady, HighestWaiting, ItemValues, SortedPosition, InsertAt, Without;
    InTasks(s);
    if op.WaitFor? || op.AfterTimeOut? {
      WaitersInTasks(s, op.m);
    }
  }

  /** Every step that sets a priority keeps to the condition of SetPriorityAboveBase. */
  ghost predicate Moderate(s: System, ops: seq<Op>)
    requires Valid(s) && Run(s, ops)
    decreases |ops|
  {
    ops != [] ==>
      && (ops[0].SetPriority? ==> MaySet(s, ops[0].t, ops[0].p))
      && (StepKeeps(s, ops[0]); Moderate(Step(s, ops[0]), ops[1..]))
  }

  predicate MaySet(s: System, t: Id, p: nat) {
    t in s.tasks ==>
      || s.tasks[t].base == s.tasks[t].priority
      || Cut(p, s.priorities) <= s.tasks[t].priority
  }

  /** Setting a priority is harmless exactly under that condition. */
  lemma SetStaysAboveBase(s: System, t: Id, p: nat)
    requires Valid(s) && AboveBase(s) && t in s.tasks
    ensures AboveBase(Step(s, SetPriority(t, p))) <==> MaySet(s, t, p)
  {
    hide Records, Ordered, TakenOff, PutOn, IsReady, PrioritySet;
    PrioritiesKnown(s, t);
    SetPriorityAboveBase(s.tasks[t], p, s.priorities);
    var r := Step(s, SetPriority(t, p));
    RefiledRest(s, t, PrioritySet(s.tasks[t], p, s.priorities));
    assert r.tasks == s.tasks[t := PrioritySet(s.tasks[t], p, s.priorities)];
    if MaySet(s, t, p) {
      assert forall u | u in r.tasks :: r.tasks[u].base <= r.tasks[u].priority;
    } else {
      assert r.tasks[t].base > r.tasks[t].priority;
    }
  }

  /** Over whole runs: with priorities set only so, no task ever runs below its base priority. */
  lemma {:induction false} RunsAboveBase(s: System, ops: seq<Op>)
    requires Valid(s) && Run(s, ops) && AboveBase(s) && Moderate(s, ops)
    ensures AboveBase(After(s, ops))
    decreases |ops|
  {
    hide Valid, Enabled, Step, AboveBase, MaySet;
    if ops != [] {
      StepKeeps(s, ops[0]);
      if ops[0].SetPriority? {
        TaskNamed(s, ops[0]);
        SetStaysAboveBase(s, ops[0].t, ops[0].p);
      } else {
        StaysAboveBase(s, ops[0]);
      }
      RunsAboveBase(Step(s, ops[0]), ops[1..]);
    }
  }

  /** A run in which task 1, at priority 1, takes mutex 0, and task 2, at priority 3, waits for it; then
      task 1 is given base priority 5. */
  function BelowBase(): seq<Op> {
    [NewTask(1, 1), NewTask(2, 3), Switch(1), Take(0), Switch(2), WaitFor(0), SetPriority(1, 5)]
  }

  lemma AfterNewTask(s: System, t: Id, p: nat)
    requires Valid(s) && Enabled(s, NewTask(t, p))
    ensures var r := Step(s, NewTask(t, p));
      && r == s.(tasks := s.tasks[t := Task(p, p, 0, s.priorities - p)], ready := r.ready)
      && Awake(r) == Awake(s) + {t}
  {
    hide Records, WaitLists, PutOn, MutexOk;
    var n := WithTask(s, t, Task(p, p, 0, s.priorities - p));
    assert FiledBy(n.ready, n.tasks) && Awake(n) == Awake(s);
    JoinsReady(n, t);
  }

  lemma AfterTake(s: System, m: MutexId)
    requires Valid(s) && Enabled(s, Take(m)) && s.mutexes[m].count > 0
    ensures var r := Step(s, Take(m));
      r.ready == s.ready && r.current == s.current && r.priorities == s.priorities && Awake(r) == Awake(s)
  {
    hide Records, Ordered;
  }

  lemma AfterWait(s: System, m: MutexId)
    requires Valid(s) && Enabled(s, WaitFor(m))
    ensures s.mutexes[m].holder.HeldBy? && s.mutexes[m].holder.task in s.tasks && s.current in s.tasks
    ensures var r := Step(s, WaitFor(m)); var h := s.mutexes[m].holder.task;
      && r.tasks == s.tasks[h := Inherited(s.tasks[h], s.tasks[s.current], s.priorities)]
      && r.priorities == s.priorities
  {
    hide Records, Ordered, Adjusted, TakenOff, Inherited, ItemValues, SortedPosition, InsertAt;
    WaitFacts(s, m);
    AdjustedRest(s, s.mutexes[m].holder.task,
                 Inherited(s.tasks[s.mutexes[m].holder.task], s.tasks[s.current], s.priorities));
  }

  lemma RunOne(s: System, op: Op, rest: seq<Op>)
    requires Valid(s) && Enabled(s, op) && (StepKeeps(s, op); Run(Step(s, op), rest))
    ensures Run(s, [op] + rest)
    ensures After(s, [op] + rest) == (StepKeeps(s, op); After(Step(s, op), rest))
  {
    hide Valid, Enabled, Step;
    assert ([op] + rest)[1..] == rest;
  }

  /** The exception is real, and reached: task 1 inherits priority 3 and then, its base priority set to 5,
      goes on running at 3. */
  lemma RunsBelowBase()
    ensures Valid(Unlocked(8, 0, map[0 := false])) && Run(Unlocked(8, 0, map[0 := false]), BelowBase())
    ensures var r := After(Unlocked(8, 0, map[0 := false]), BelowBase());
      1 in r.tasks && r.tasks[1].priority == 3 && r.tasks[1].base == 5 && r.tasks[1].held == 1
  {
    hide Valid, Step, Run, After, Unlocked, Awake, Inherited, PrioritySet;
    var s0 := Unlocked(8, 0, map[0 := false]);
    UnlockedValid(8, 0, map[0 := false]);
    UnlockedIs(8, 0, map[0 := false]);
    StepKeeps(s0, NewTask(1, 1));
    AfterNewTask(s0, 1, 1);
    var s1 := Step(s0, NewTask(1, 1));
    StepKeeps(s1, NewTask(2, 3));
    AfterNewTask(s1, 2, 3);
    var s2 := Step(s1, NewTask(2, 3));
    var rest := [Switch(1), Take(0), Switch(2), WaitFor(0), SetPriority(1, 5)];
    BelowBaseEnd(s2);
    RunOne(s1, NewTask(2, 3), rest);
    RunOne(s0, NewTask(1, 1), [NewTask(2, 3)] + rest);
    assert [NewTask(1, 1)] + ([NewTask(2, 3)] + rest) == BelowBase();
  }

  lemma UnlockedIs(priorities: nat, idle: Id, mutexes: map<MutexId, bool>)
    requires priorities > 0
    ensures var s := Unlocked(priorities, idle, mutexes);
      && s.priorities == priorities && s.tasks == map[idle := Task(0, 0, 0, priorities)] && s.current == idle
      && s.mutexes == map m | m in mutexes :: Mutex(1, Nobody, 0, mutexes[m], [])
  {
  }

  lemma BelowBaseEnd(s: System)
    requires Valid(s) && s.priorities == 8 && 1 in Awake(s) && 2 in Awake(s)
    requires 1 in s.tasks && s.tasks[1] == Task(1, 1, 0, 7) && 2 in s.tasks && s.tasks[2] == Task(3, 3, 0, 5)
    requires 0 in s.mutexes && s.mutexes[0] == Mutex(1, Nobody, 0, false, [])
    ensures var ops := [Switch(1), Take(0), Switch(2), WaitFor(0), SetPriority(1, 5)];
      && Run(s, ops)
      && var r := After(s, ops);
      && 1 in r.tasks && r.tasks[1].priority == 3 && r.tasks[1].base == 5 && r.tasks[1].held == 1
  {
    hide Valid, Run, After, Awake, IsReady, Waited, Refiled;
    AwakeMeans(s, 1);
    StepKeeps(s, Switch(1));
    var s1 := s.(current := 1);
    SameAwake(s, s1);
    AwakeMeans(s1, 1);
    StepKeeps(s1, Take(0));
    AfterTake(s1, 0);
    var s2 := Step(s1, Take(0));
    AwakeMeans(s2, 2);
    StepKeeps(s2, Switch(2));
    var s3 := s2.(current := 2);
    SameAwake(s2, s3);
    AwakeMeans(s3, 2);
    StepKeeps(s3, WaitFor(0));
    AfterWait(s3, 0);
    var s4 := Step(s3, WaitFor(0));
    assert s4.tasks[1] == Task(3, 1, 1, 5);
    StepKeeps(s4, SetPriority(1, 5));
    RefiledRest(s4, 1, PrioritySet(s4.tasks[1], 5, 8));
    var s5 := Step(s4, SetPriority(1, 5));
    RunNone(s5);
    RunOne(s4, SetPriority(1, 5), []);
    assert [SetPriority(1, 5)] + [] == [SetPriority(1, 5)];
    RunOne(s3, WaitFor(0), [SetPriority(1, 5)]);
    RunOne(s2, Switch(2), [WaitFor(0)] + [SetPriority(1, 5)]);
    RunOne(s1, Take(0), [Switch(2)] + ([WaitFor(0)] + [SetPriority(1, 5)]));
    RunOne(s, Switch(1), [Take(0)] + ([Switch(2)] + ([WaitFor(0)] + [SetPriority(1, 5)])));
    assert [Switch(1)] + ([Take(0)] + ([Switch(2)] + ([WaitFor(0)] + [SetPriority(1, 5)])))
        == [Switch(1), Take(0), Switch(2), WaitFor(0), SetPriority(1, 5)];
  }

  lemma RunNone(s: System)
    requires Valid(s)
    ensures Run(s, []) && After(s, []) == s
  {
  }

  /** A recursive mutex is free again only after as many gives as takes. */
  lemma {:induction false} NestedGives(s: System, m: MutexId, n: nat)
    requires Valid(s) && m in s.mutexes && s.mutexes[m].recursive && s.mutexes[m].holder == HeldBy(s.current)
    requires IsReady(s, s.current) && n <= s.mutexes[m].recursiveCalls
    ensures var ops := seq(n, _ => GiveRecursive(m));
      && Run(s, ops)
      && var r := After(s, ops);
      && m in r.mutexes && r.mutexes[m].recursiveCalls == s.mutexes[m].recursiveCalls - n
      && r.mutexes[m].holder == (if n == s.mutexes[m].recursiveCalls then Nobody else HeldBy(s.current))
    decreases n
  {
    hide Holds;
    assert MutexOk(s, s.mutexes[m]);
    if n > 0 {
      var ops := seq(n, _ => GiveRecursive(m));
      assert ops[0] == GiveRecursive(m) && ops[1..] == seq(n - 1, _ => GiveRecursive(m));
      StepKeeps(s, GiveRecursive(m));
      if n > 1 {
        NestedGives(Step(s, GiveRecursive(m)), m, n - 1);
      }
    }
  }

  lemma {:induction false} RunJoin(s: System, a: seq<Op>, b: seq<Op>)
    requires Valid(s) && Run(s, a) && Valid(After(s, a)) && Run(After(s, a), b)
    ensures Run(s, a + b) && After(s, a + b) == After(After(s, a), b)
    decreases |a|
  {
    hide Valid, Enabled, Step;
    if a == [] {
      assert a + b == b;
    } else {
      StepKeeps(s, a[0]);
      assert (a + b)[0] == a[0] && (a + b)[1..] == a[1..] + b;
      RunJoin(Step(s, a[0]), a[1..], b);
    }
  }

  /** The holder of a recursive mutex takes it again. */
  lemma {:induction false} TakesAgain(s: System, m: MutexId, n: nat)
    requires Valid(s) && m in s.mutexes && s.mutexes[m].recursive && s.mutexes[m].holder == HeldBy(s.current)
    requires IsReady(s, s.current)
    ensures var ops := seq(n, _ => TakeRecursive(m));
      && Run(s, ops)
      && After(s, ops) == WithMutex(s, m, s.mutexes[m].(recursiveCalls := s.mutexes[m].recursiveCalls + n))
    decreases n
  {
    hide Records, Ordered, IsReady;
    var ops := seq(n, _ => TakeRecursive(m));
    if n == 0 {
      NoChange(s, m);
    } else {
      assert ops[0] == TakeRecursive(m) && ops[1..] == seq(n - 1, _ => TakeRecursive(m));
      StepKeeps(s, TakeRecursive(m));
      var r := Step(s, TakeRecursive(m));
      ReadyStill(s, r);
      TakesAgain(r, m, n - 1);
      assert s.mutexes[m := r.mutexes[m]][m := r.mutexes[m].(recursiveCalls := r.mutexes[m].recursiveCalls + (n - 1))]
          == s.mutexes[m := s.mutexes[m].(recursiveCalls := s.mutexes[m].recursiveCalls + n)];
    }
  }

  lemma ReadyStill(s: System, r: System)
    requires IsReady(s, s.current) && r.ready == s.ready && r.current == s.current && r.tasks == s.tasks
    ensures IsReady(r, r.current)
  {
  }

  /** The first take of a free recursive mutex counts one call. */
  lemma FirstTake(s: System, m: MutexId)
    requires Valid(s) && m in s.mutexes && s.mutexes[m].recursive && s.mutexes[m].count > 0
    requires IsReady(s, s.current)
    ensures Enabled(s, TakeRecursive(m))
    ensures var r := Step(s, TakeRecursive(m));
      && r.current == s.current && IsReady(r, r.current) && m in r.mutexes && r.mutexes[m].recursive
      && r.mutexes[m].holder == HeldBy(s.current) && r.mutexes[m].recursiveCalls == 1
  {
    hide Ordered, Sound, Holds;
    assert MutexOk(s, s.mutexes[m]);
  }

  /** Nested takes and gives: a task that takes a free recursive mutex n times and gives it n times leaves it
      free, and after fewer gives it still holds it. */
  lemma NestedRoundTrip(s: System, m: MutexId, n: nat, given: nat)
    requires Valid(s) && m in s.mutexes && s.mutexes[m].recursive && s.mutexes[m].count > 0
    requires IsReady(s, s.current) && 0 < n && given <= n
    ensures var ops := [TakeRecursive(m)] + seq(n - 1, _ => TakeRecursive(m)) + seq(given, _ => GiveRecursive(m));
      && Run(s, ops)
      && var r := After(s, ops);
      && m in r.mutexes && r.mutexes[m].holder == (if given == n then Nobody else HeldBy(s.current))
      && r.mutexes[m].recursiveCalls == n - given
  {
    hide Valid, Enabled, Step, Run, After, IsReady;
    var first, takes, gives := [TakeRecursive(m)], seq(n - 1, _ => TakeRecursive(m)), seq(given, _ => GiveRecursive(m));
    FirstTake(s, m);
    StepKeeps(s, TakeRecursive(m));
    var a := Step(s, TakeRecursive(m));
    TakesAgain(a, m, n - 1);
    RunKeeps(a, takes);
    var b := After(a, takes);
    ReadyStill(a, b);
    NestedGives(b, m, given);
    RunOne(s, TakeRecursive(m), takes);
    RunJoin(s, first + takes, gives);
  }
}
