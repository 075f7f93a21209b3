/** What priority inheritance achieves over whole runs (FreeRTOS-Kernel/tasks.c and queue.c): when the
    holder of a mutex runs at or above the priority of every task that waits for it, and which steps
    put an end to that. */
module MutexRanks {
  import opened Rings
  import opened EventItems
  import opened Mutexes

  /** The holder, if there is one, is at or above everybody who waits. */
  ghost predicate Outranks(tasks: map<Id, Task>, x: Mutex) {
    x.holder.HeldBy? ==>
      && x.holder.task in tasks
      && forall w | w in x.waiting :: w in tasks && tasks[w].priority <= tasks[x.holder.task].priority
  }

  ghost predicate AllOutrank(tasks: map<Id, Task>, mutexes: map<MutexId, Mutex>) {
    forall m | m in mutexes :: Outranks(tasks, mutexes[m])
  }

  ghost predicate Ranked(s: System) {
    AllOutrank(s.tasks, s.mutexes)
  }

  // ---------- the exact condition ----------

  /** Nobody who waits for a mutex of task t is above priority q, and nobody t waits for is below it. */
  ghost predicate FitsIn(s: System, t: Id, q: nat) {
    forall m | m in s.mutexes && s.mutexes[m].holder.HeldBy? ::
      var h := s.mutexes[m].holder.task;
      && (h == t ==> forall w | w in s.mutexes[m].waiting && w != t :: w in s.tasks && s.tasks[w].priority <= q)
      && (h != t && t in s.mutexes[m].waiting ==> h in s.tasks && q <= s.tasks[h].priority)
  }

  /** Nobody above the running task waits for mutex m. */
  ghost predicate NoneAbove(s: System, m: MutexId)
    requires m in s.mutexes
  {
    s.current in s.tasks
    && forall w | w in s.mutexes[m].waiting :: w in s.tasks && s.tasks[w].priority <= s.tasks[s.current].priority
  }

  /** What a step must meet: a task that obtains a mutex is not below those left waiting for it, and the new
      priority of a task fits in between those who wait for it and those it waits for. */
  ghost predicate Fitting(s: System, op: Op)
    requires Valid(s) && Enabled(s, op)
  {
    hide Records, Ordered, IsReady, FitsIn;
    match op
    case Take(m) => s.mutexes[m].count > 0 ==> NoneAbove(s, m)
    case TakeRecursive(m) => s.mutexes[m].count > 0 ==> NoneAbove(s, m)
    case WaitFor(m) =>
      WaitFacts(s, m);
      var h := s.mutexes[m].holder.task;
      FitsIn(s, h, Inherited(s.tasks[h], s.tasks[s.current], s.priorities).priority)
    case AfterTimeOut(m) =>
      WaitersInTasks(s, m);
      s.mutexes[m].holder.HeldBy? ==>
        var h := s.mutexes[m].holder.task;
        FitsIn(s, h, DisinheritedTo(s.tasks[h], HighestWaiting(s, m), s.priorities).priority)
    case SetPriority(t, p) => FitsIn(s, t, PrioritySet(s.tasks[t], p, s.priorities).priority)
    case _ => true
  }

  /** One record changes. */
  lemma RecordRanked(s: System, t: Id, task: Task)
    requires Ranked(s) && t in s.tasks
    ensures AllOutrank(s.tasks[t := task], s.mutexes) <==> FitsIn(s, t, task.priority)
  {
    var tasks := s.tasks[t := task];
    if FitsIn(s, t, task.priority) {
      forall m | m in s.mutexes
        ensures Outranks(tasks, s.mutexes[m])
      {
        assert Outranks(s.tasks, s.mutexes[m]);
      }
    }
    if AllOutrank(tasks, s.mutexes) {
      forall m | m in s.mutexes && s.mutexes[m].holder.HeldBy?
        ensures var h := s.mutexes[m].holder.task;
          && (h == t ==> forall w | w in s.mutexes[m].waiting && w != t ::
                w in s.tasks && s.tasks[w].priority <= task.priority)
          && (h != t && t in s.mutexes[m].waiting ==> h in s.tasks && task.priority <= s.tasks[h].priority)
      {
        assert Outranks(tasks, s.mutexes[m]) && Outranks(s.tasks, s.mutexes[m]);
      }
    }
  }

  /** One mutex changes. */
  lemma MutexRanked(tasks: map<Id, Task>, mutexes: map<MutexId, Mutex>, m: MutexId, x: Mutex)
    requires m in mutexes && Outranks(tasks, mutexes[m])
    ensures AllOutrank(tasks, mutexes[m := x]) <==> AllOutrank(tasks, mutexes) && Outranks(tasks, x)
  {
    hide Outranks;
    var r := mutexes[m := x];
    if AllOutrank(tasks, r) {
      assert Outranks(tasks, r[m]);
      forall n | n in mutexes
        ensures Outranks(tasks, mutexes[n])
      {
        assert n != m ==> Outranks(tasks, r[n]);
      }
    }
  }

  // ---------- what the steps do to records and mutexes ----------

  lemma TakeEffect(s: System, op: Op)
    requires Valid(s) && Enabled(s, op) && (op.Take? || op.TakeRecursive?) && s.mutexes[op.m].count > 0
    ensures s.current in s.tasks && op.m in s.mutexes && s.mutexes[op.m].holder == Nobody
    ensures var r, t := Step(s, op), s.tasks[s.current];
      && r.tasks == s.tasks[s.current := t.(held := t.held + 1)] && r.priorities == s.priorities
      && op.m in r.mutexes && r.mutexes == s.mutexes[op.m := r.mutexes[op.m]]
      && r.mutexes[op.m].holder == HeldBy(s.current) && r.mutexes[op.m].waiting == s.mutexes[op.m].waiting
  {
    hide Ordered, IsReady, Sound, Holds;
    InTasks(s);
    assert MutexOk(s, s.mutexes[op.m]);
  }

  lemma WaitEffect(s: System, m: MutexId)
    requires Valid(s) && Enabled(s, WaitFor(m))
    ensures m in s.mutexes && s.mutexes[m].holder.HeldBy? && s.mutexes[m].holder.task in s.tasks && s.current in s.tasks
    ensures forall x | x in s.mutexes[m].waiting :: x in s.tasks
    ensures var r := Step(s, WaitFor(m)); var h := s.mutexes[m].holder.task;
      && r.tasks == s.tasks[h := Inherited(s.tasks[h], s.tasks[s.current], s.priorities)]
      && r.priorities == s.priorities && s.current in r.tasks
      && m in r.mutexes && r.mutexes == s.mutexes[m := r.mutexes[m]] && r.mutexes[m].holder == s.mutexes[m].holder
      && var p := SortedPosition(ItemValues(s.mutexes[m].waiting, r.tasks), r.tasks[s.current].eventValue);
      r.mutexes[m].waiting == InsertAt(s.mutexes[m].waiting, p, s.current)
  {
    hide Records, Ordered, Adjusted, TakenOff, Inherited, SortedPosition, InsertAt;
    WaitFacts(s, m);
    AfterWait(s, m);
    AdjustedRest(s, s.mutexes[m].holder.task,
                 Inherited(s.tasks[s.mutexes[m].holder.task], s.tasks[s.current], s.priorities));
  }

  /** A list that has lost one task at most. */
  ghost predicate Fewer(a: seq<Id>, b: seq<Id>) {
    b == a || exists t | t in a :: b == Without(a, t)
  }

  /** The steps that leave every record but that of the running task as it is, and every mutex to its
      holder or to nobody, with nobody new waiting. */
  ghost predicate Looser(s: System, r: System) {
    && s.current in s.tasks && s.current in r.tasks && r.tasks == s.tasks[s.current := r.tasks[s.current]]
    && r.priorities == s.priorities && r.mutexes.Keys == s.mutexes.Keys
    && (forall m | m in r.mutexes :: r.mutexes[m].holder == s.mutexes[m].holder || r.mutexes[m].holder == Nobody)
    && (forall m | m in r.mutexes :: Fewer(s.mutexes[m].waiting, r.mutexes[m].waiting))
    && (r.tasks[s.current].priority == s.tasks[s.current].priority || r.tasks[s.current].held == 0)
    && (r.tasks[s.current] == s.tasks[s.current] || s.current in Awake(s))
  }

  lemma SameLooser(s: System, r: System)
    requires Valid(s) && r.tasks == s.tasks && r.mutexes == s.mutexes && r.priorities == s.priorities
    ensures Looser(s, r)
  {
    hide Records, Ordered, Awake, Without;
    InTasks(s);
    assert s.tasks == s.tasks[s.current := s.tasks[s.current]];
  }

  /** A mutex stays with its holder or is given up. */
  lemma LooserMutex(s: System, r: System, m: MutexId, task: Task)
    requires Valid(s) && m in s.mutexes && m in r.mutexes && r.mutexes == s.mutexes[m := r.mutexes[m]]
    requires s.current in s.tasks && r.tasks == s.tasks[s.current := task] && r.priorities == s.priorities
    requires r.mutexes[m].holder == s.mutexes[m].holder || r.mutexes[m].holder == Nobody
    requires Fewer(s.mutexes[m].waiting, r.mutexes[m].waiting)
    requires task == s.tasks[s.current]
          || (s.current in Awake(s) && task == Disinherited(s.tasks[s.current], s.priorities))
    ensures Looser(s, r)
  {
    hide Ordered, Awake, Without, Holds, MutexOk;
    assert Sound(s.tasks[s.current], s.priorities);
  }

  lemma FirstGone(a: seq<Id>)
    requires a != []
    ensures Fewer(a, a[1..])
  {
    assert Without(a, a[0]) == a[1..];
    assert a[0] in a;
  }

  lemma GivenLooser(s: System, w: System, m: MutexId)
    requires Valid(s) && m in s.mutexes && s.current in Awake(s) && s.mutexes[m].holder == HeldBy(s.current)
    requires m in w.mutexes && w == WithMutex(s, m, w.mutexes[m]) && w.mutexes[m].waiting == s.mutexes[m].waiting
    requires w.mutexes[m].holder == HeldBy(s.current) && s.current in s.tasks
    requires forall x | x in s.mutexes[m].waiting :: x in s.tasks
    ensures Looser(s, Given(w, m))
  {
    hide Records, Ordered, Awake, Adjusted, Disinherited, PutOn, Without;
    var task := Disinherited(s.tasks[s.current], s.priorities);
    AdjustedRest(w, s.current, task);
    if s.mutexes[m].waiting != [] {
      FirstGone(s.mutexes[m].waiting);
    }
    LooserMutex(s, Given(w, m), m, task);
  }

  lemma GiveLooser(s: System, op: Op)
    requires Valid(s) && Enabled(s, op) && (op.Give? || op.GiveRecursive?)
    ensures Looser(s, Step(s, op))
  {
    hide Records, Ordered, Awake, IsReady, Given, Looser, Fewer;
    InTasks(s);
    AwakeMeans(s, s.current);
    var m := op.m;
    WaitersInTasks(s, m);
    var x := s.mutexes[m];
    SameLooser(s, s);
    if op.Give? {
      if x.count == 0 {
        GiveFacts(s, m);
        assert WithMutex(s, m, s.mutexes[m]) == s by {
          NoChange(s, m);
        }
        GivenLooser(s, s, m);
      }
    } else if x.holder == HeldBy(s.current) {
      RecursiveFacts(s, m);
      var w := WithMutex(s, m, x.(recursiveCalls := x.recursiveCalls - 1));
      if x.recursiveCalls == 1 {
        GivenLooser(s, w, m);
      } else {
        assert Fewer(x.waiting, x.waiting) by {
          SameFewer(x.waiting);
        }
        assert s.tasks == s.tasks[s.current := s.tasks[s.current]];
        LooserMutex(s, w, m, s.tasks[s.current]);
      }
    }
  }

  lemma SameFewer(a: seq<Id>)
    ensures Fewer(a, a)
  {
  }

  lemma FewerIn(a: seq<Id>, b: seq<Id>)
    requires Fewer(a, b)
    ensures forall x | x in b :: x in a
  {
  }

  /** A task that has given up its last mutex has nobody waiting for it. */
  lemma LooserRanked(s: System, r: System)
    requires Valid(s) && Valid(r) && Ranked(s) && Looser(s, r)
    ensures Ranked(r)
  {
    hide Records, Ordered, Awake, Fewer;
    forall m | m in r.mutexes
      ensures Outranks(r.tasks, r.mutexes[m])
    {
      assert Outranks(s.tasks, s.mutexes[m]);
      FewerIn(s.mutexes[m].waiting, r.mutexes[m].waiting);
      if r.mutexes[m].holder.HeldBy? {
        HolderHolds(r, m);
        if s.current in Awake(s) {
          AwakeWaitsNot(s, m);
        }
      }
    }
  }

  lemma AwakeWaitsNot(s: System, m: MutexId)
    requires Ordered(s) && s.current in Awake(s) && m in s.mutexes
    ensures s.current !in s.mutexes[m].waiting
  {
    hide Awake, FiledBy;
  }

  /** Steps that change no record. */
  lemma OtherLooser(s: System, op: Op)
    requires Valid(s) && Enabled(s, op)
    requires op.TimeOut? || op.Switch? || op.Sleep? || op.WakeUp?
          || ((op.Take? || op.TakeRecursive?) && s.mutexes[op.m].count == 0)
    ensures Looser(s, Step(s, op))
  {
    hide Records, Ordered, Awake, IsReady, PutOn, TakenOff, Without, Fewer, Looser;
    InTasks(s);
    var t := s.tasks[s.current];
    assert s.tasks == s.tasks[s.current := t];
    if op.TimeOut? {
      GoneFewer(s.mutexes[op.m].waiting, op.t);
      LooserMutex(s, Step(s, op), op.m, t);
    } else if op.TakeRecursive? {
      SameFewer(s.mutexes[op.m].waiting);
      NoChange(s, op.m);
      LooserMutex(s, Step(s, op), op.m, t);
    } else {
      SameLooser(s, Step(s, op));
    }
  }

  lemma GoneFewer(a: seq<Id>, t: Id)
    requires t in a
    ensures Fewer(a, Without(a, t))
  {
  }

  // ---------- one step ----------

  /** The steps that change one record and no mutex. */
  ghost predicate SetsRecord(op: Op) {
    op.AfterTimeOut? || op.SetPriority? || op.Borrow? || op.Restore?
  }

  /** The record such a step changes, and what it becomes. */
  ghost function Changed(s: System, op: Op): (Id, Task)
    requires Valid(s) && Enabled(s, op) && SetsRecord(op)
  {
    hide Records, Ordered, IsReady;
    match op
    case AfterTimeOut(m) =>
      WaitersInTasks(s, m);
      (match s.mutexes[m].holder
       case Nobody => (s.current, s.tasks[s.current])
       case HeldBy(h) => (h, DisinheritedTo(s.tasks[h], HighestWaiting(s, m), s.priorities)))
    case SetPriority(t, p) => (t, PrioritySet(s.tasks[t], p, s.priorities))
    case Borrow(t, value) => (t, s.tasks[t].(eventValue := value))
    case Restore(t) => PrioritiesKnown(s, t); (t, s.tasks[t].(eventValue := s.priorities - s.tasks[t].priority))
  }

  lemma RecordEffect(s: System, op: Op)
    requires Valid(s) && Enabled(s, op) && SetsRecord(op)
    ensures var (t, task) := Changed(s, op); var r := Step(s, op);
      t in s.tasks && r.tasks == s.tasks[t := task] && r.mutexes == s.mutexes && r.priorities == s.priorities
  {
    hide Records, Ordered, IsReady, Adjusted, Refiled, DisinheritedTo, HighestWaiting, PrioritySet;
    InTasks(s);
    var (t, task) := Changed(s, op);
    assert s.tasks == s.tasks[s.current := s.tasks[s.current]];
    if op.AfterTimeOut? {
      WaitersInTasks(s, op.m);
      if s.mutexes[op.m].holder.HeldBy? {
        AdjustedRest(s, t, task);
      }
    } else if op.SetPriority? {
      RefiledRest(s, t, task);
      assert s.tasks == s.tasks[t := s.tasks[t]];
    }
  }

  /** A task can keep its priority. */
  lemma SameFits(s: System, t: Id)
    requires Ranked(s) && t in s.tasks
    ensures FitsIn(s, t, s.tasks[t].priority)
  {
    assert s.tasks == s.tasks[t := s.tasks[t]];
    RecordRanked(s, t, s.tasks[t]);
  }

  lemma RecordStep(s: System, op: Op)
    requires Valid(s) && Enabled(s, op) && Ranked(s) && SetsRecord(op)
    ensures Ranked(Step(s, op)) <==> Fitting(s, op)
  {
    hide Records, Ordered, IsReady, AllOutrank, FitsIn, Step, DisinheritedTo, HighestWaiting, PrioritySet;
    var (t, task) := Changed(s, op);
    RecordEffect(s, op);
    RecordRanked(s, t, task);
    SameFits(s, t);
    if op.AfterTimeOut? {
      assert s.mutexes[op.m].holder.HeldBy? ==> (Fitting(s, op) <==> FitsIn(s, t, task.priority));
    }
  }

  lemma TakeStep(s: System, op: Op)
    requires Valid(s) && Enabled(s, op) && Ranked(s)
    requires (op.Take? || op.TakeRecursive?) && s.mutexes[op.m].count > 0
    ensures Ranked(Step(s, op)) <==> NoneAbove(s, op.m)
  {
    hide Valid, Enabled, AllOutrank, FitsIn, Step;
    TakeEffect(s, op);
    var r, t := Step(s, op), s.tasks[s.current];
    SameFits(s, s.current);
    RecordRanked(s, s.current, t.(held := t.held + 1));
    MutexRanked(r.tasks, s.mutexes, op.m, r.mutexes[op.m]);
  }

  lemma WaitStep(s: System, m: MutexId)
    requires Valid(s) && Enabled(s, WaitFor(m)) && Ranked(s)
    ensures Ranked(Step(s, WaitFor(m))) <==> Fitting(s, WaitFor(m))
  {
    hide Valid, Enabled, FitsIn, Step, Inherited, AllOutrank, InsertAt;
    WaitEffect(s, m);
    var r, h := Step(s, WaitFor(m)), s.mutexes[m].holder.task;
    var task := Inherited(s.tasks[h], s.tasks[s.current], s.priorities);
    InheritedPriority(s.tasks[h], s.tasks[s.current], s.priorities);
    RecordRanked(s, h, task);
    assert Outranks(s.tasks, s.mutexes[m]) by {
      RankedAt(s, m);
    }
    MutexRanked(r.tasks, s.mutexes, m, r.mutexes[m]);
  }

  lemma RankedAt(s: System, m: MutexId)
    requires Ranked(s) && m in s.mutexes
    ensures Outranks(s.tasks, s.mutexes[m])
  {
  }

  lemma NewTaskRanked(s: System, t: Id, p: nat)
    requires Valid(s) && Enabled(s, NewTask(t, p)) && Ranked(s)
    ensures Ranked(Step(s, NewTask(t, p)))
  {
    hide Ordered, Sound, Holds;
    var r := Step(s, NewTask(t, p));
    forall m | m in r.mutexes
      ensures Outranks(r.tasks, r.mutexes[m])
    {
      assert Outranks(s.tasks, s.mutexes[m]);
    }
  }

  lemma KillTaskRanked(s: System, t: Id)
    requires Valid(s) && Enabled(s, KillTask(t)) && Ranked(s)
    ensures Ranked(Step(s, KillTask(t)))
  {
    hide Ordered, Sound, Holds;
    var r := Step(s, KillTask(t));
    forall m | m in r.mutexes
      ensures Outranks(r.tasks, r.mutexes[m])
    {
      assert Outranks(s.tasks, s.mutexes[m]);
      if s.mutexes[m].holder.HeldBy? {
        HolderHolds(s, m);
      }
    }
  }

  /** A step keeps every holder at or above those who wait for it if and only if it is fitting. */
  lemma StepRanked(s: System, op: Op)
    requires Valid(s) && Enabled(s, op) && Ranked(s)
    ensures Ranked(Step(s, op)) <==> Fitting(s, op)
  {
    hide Valid, Enabled, Step, Ranked, Looser, FitsIn, NoneAbove;
    StepKeeps(s, op);
    match op {
      case Take(m) => TakeOrNot(s, op);
      case TakeRecursive(m) => TakeOrNot(s, op);
      case WaitFor(m) => WaitStep(s, m);
      case Give(_) => GiveLooser(s, op); LooserRanked(s, Step(s, op));
      case GiveRecursive(_) => GiveLooser(s, op); LooserRanked(s, Step(s, op));
      case AfterTimeOut(_) => RecordStep(s, op);
      case SetPriority(_, _) => RecordStep(s, op);
      case Borrow(_, _) => RecordStep(s, op);
      case Restore(_) => RecordStep(s, op);
      case NewTask(t, p) => NewTaskRanked(s, t, p);
      case KillTask(t) => KillTaskRanked(s, t);
      case TimeOut(_, _) => OtherLooser(s, op); LooserRanked(s, Step(s, op));
      case Switch(_) => OtherLooser(s, op); LooserRanked(s, Step(s, op));
      case Sleep => OtherLooser(s, op); LooserRanked(s, Step(s, op));
      case WakeUp(_) => OtherLooser(s, op); LooserRanked(s, Step(s, op));
    }
  }

  lemma TakeOrNot(s: System, op: Op)
    requires Valid(s) && Enabled(s, op) && Ranked(s) && (op.Take? || op.TakeRecursive?)
    ensures op.m in s.mutexes && (Ranked(Step(s, op)) <==> (s.mutexes[op.m].count > 0 ==> NoneAbove(s, op.m)))
  {
    hide Records, Ordered, Step, Ranked, Looser, NoneAbove;
    StepKeeps(s, op);
    if s.mutexes[op.m].count > 0 {
      TakeStep(s, op);
    } else {
      OtherLooser(s, op);
      LooserRanked(s, Step(s, op));
    }
  }

  // ---------- whole runs ----------

  predicate Waits(s: System, t: Id) {
    exists m | m in s.mutexes :: t in s.mutexes[m].waiting
  }

  /** The event list item shows the priority. */
  predicate Shows(t: Task, priorities: nat) {
    t.eventValue + t.priority == priorities
  }

  /** A waiting list in order of what the event list items show, which are the priorities. */
  ghost predicate InLine(tasks: map<Id, Task>, priorities: nat, w: seq<Id>) {
    && (forall x | x in w :: x in tasks && Shows(tasks[x], priorities))
    && forall i, j :: 0 <= i < j < |w| ==> tasks[w[i]].eventValue <= tasks[w[j]].eventValue
  }

  ghost predicate Lined(s: System) {
    forall m | m in s.mutexes :: InLine(s.tasks, s.priorities, s.mutexes[m].waiting)
  }

  /** A step that changes the priority of no waiting task, sets no holder below those who wait for it,
      obtains no mutex somebody above the running task waits for, and waits only with an event list item that shows
      the priority. */
  ghost predicate Steady(s: System, op: Op)
    requires Valid(s) && Enabled(s, op)
  {
    hide Records, Ordered, IsReady;
    match op
    case Take(m) => s.mutexes[m].count > 0 ==> NoneAbove(s, m)
    case TakeRecursive(m) => s.mutexes[m].count > 0 ==> NoneAbove(s, m)
    case WaitFor(m) =>
      WaitFacts(s, m);
      var h := s.mutexes[m].holder.task;
      && Shows(s.tasks[s.current], s.priorities)
      && (s.tasks[h].priority < s.tasks[s.current].priority ==> !Waits(s, h))
    case AfterTimeOut(m) =>
      WaitersInTasks(s, m);
      s.mutexes[m].holder.HeldBy? ==>
        var h := s.mutexes[m].holder.task;
        s.tasks[h].held == 1 ==> !Waits(s, h)
    case SetPriority(t, p) =>
      && !Waits(s, t)
      && (s.tasks[t].base == s.tasks[t].priority ==>
            forall m | m in s.mutexes && s.mutexes[m].holder == HeldBy(t) ::
              forall w | w in s.mutexes[m].waiting :: w in s.tasks && s.tasks[w].priority <= Cut(p, s.priorities))
    case _ => true
  }

  // ---------- steady steps are fitting ----------

  /** The head of a waiting list in order has the highest priority. */
  lemma HeadIsHighest(s: System, m: MutexId)
    requires Records(s) && m in s.mutexes && InLine(s.tasks, s.priorities, s.mutexes[m].waiting)
    ensures forall x | x in s.mutexes[m].waiting :: x in s.tasks
    ensures forall x | x in s.mutexes[m].waiting :: s.tasks[x].priority <= HighestWaiting(s, m)
  {
    hide Sound, Holds;
    assert MutexOk(s, s.mutexes[m]);
    var w := s.mutexes[m].waiting;
    forall x | x in w
      ensures s.tasks[w[0]].eventValue <= s.tasks[x].eventValue
    {
      var i :| 0 <= i < |w| && w[i] == x;
    }
  }

  /** A task that holds one mutex holds no other. */
  lemma OnlyOne(s: System, t: Id, m: MutexId, n: MutexId)
    requires Records(s) && t in s.tasks && s.tasks[t].held == 1 && m in s.mutexes && n in s.mutexes
    requires s.mutexes[m].holder == HeldBy(t) && s.mutexes[n].holder == HeldBy(t)
    ensures m == n
  {
    var held := Holds(s.mutexes, t);
    assert m in held && n in held;
    assert |held - {m}| == 0;
    assert n !in held - {m};
  }

  lemma AfterTimeOutFits(s: System, m: MutexId)
    requires Valid(s) && Enabled(s, AfterTimeOut(m)) && Ranked(s) && Lined(s) && Steady(s, AfterTimeOut(m))
    ensures Fitting(s, AfterTimeOut(m))
  {
    hide Records, Ordered, IsReady, HighestWaiting, InLine;
    WaitersInTasks(s, m);
    if s.mutexes[m].holder.HeldBy? {
      var h := s.mutexes[m].holder.task;
      SameFits(s, h);
      if s.tasks[h].held == 1 {
        HeadIsHighest(s, m);
        forall n | n in s.mutexes && s.mutexes[n].holder == HeldBy(h)
          ensures n == m
        {
          OnlyOne(s, h, m, n);
        }
      }
    }
  }

  lemma SteadyFits(s: System, op: Op)
    requires Valid(s) && Enabled(s, op) && Ranked(s) && Lined(s) && Steady(s, op)
    ensures Fitting(s, op)
  {
    hide Records, Ordered, IsReady, HighestWaiting, InLine, Sound;
    if op.AfterTimeOut? {
      AfterTimeOutFits(s, op.m);
    } else if op.SetPriority? {
      SameFits(s, op.t);
    } else if op.WaitFor? {
      WaitFacts(s, op.m);
      var h := s.mutexes[op.m].holder.task;
      SameFits(s, h);
      InheritedPriority(s.tasks[h], s.tasks[s.current], s.priorities);
    }
  }

  // ---------- steady steps keep the waiting lists in order ----------

  lemma FewerInLine(tasks: map<Id, Task>, priorities: nat, a: seq<Id>, b: seq<Id>)
    requires InLine(tasks, priorities, a) && Fewer(a, b)
    ensures InLine(tasks, priorities, b)
  {
    hide Without, Shows, NoDup;
    if b != a {
      var t :| t in a && b == Without(a, t);
      forall i, j | 0 <= i < j < |b|
        ensures tasks[b[i]].eventValue <= tasks[b[j]].eventValue
      {
        WithoutAt(a, t, i);
        WithoutAt(a, t, j);
      }
    }
  }

  /** A record changes that is not in the list. */
  lemma RecordInLine(tasks: map<Id, Task>, priorities: nat, w: seq<Id>, t: Id, task: Task)
    requires InLine(tasks, priorities, w) && t !in w
    ensures InLine(tasks[t := task], priorities, w)
  {
  }

  lemma InsertedValue(tasks: map<Id, Task>, w: seq<Id>, p: nat, t: Id, k: nat)
    requires (forall x | x in w :: x in tasks) && t in tasks && p <= |w| && k <= |w|
    ensures InsertAt(w, p, t)[k] in tasks
    ensures tasks[InsertAt(w, p, t)[k]].eventValue == InsertAt(ItemValues(w, tasks), p, tasks[t].eventValue)[k]
  {
    hide InsertAt, NoDup;
  }

  /** A task joins the list where its event list item belongs. */
  lemma InsertInLine(tasks: map<Id, Task>, priorities: nat, w: seq<Id>, t: Id)
    requires InLine(tasks, priorities, w) && t in tasks && Shows(tasks[t], priorities)
    ensures (forall x | x in w :: x in tasks)
         && InLine(tasks, priorities, InsertAt(w, SortedPosition(ItemValues(w, tasks), tasks[t].eventValue), t))
  {
    hide Shows, InsertAt, SortedPosition, NoDup, Sorted;
    var values, v := ItemValues(w, tasks), tasks[t].eventValue;
    var p := SortedPosition(values, v);
    var r := InsertAt(w, p, t);
    ValuesSorted(tasks, priorities, w);
    SortedInsert(values, v);
    forall i, j | 0 <= i < j < |r|
      ensures tasks[r[i]].eventValue <= tasks[r[j]].eventValue
    {
      InsertedValue(tasks, w, p, t, i);
      InsertedValue(tasks, w, p, t, j);
      SortedAt(InsertAt(values, p, v), i, j);
    }
  }

  lemma SortedAt(values: seq<nat>, i: nat, j: nat)
    requires Sorted(values) && i < j < |values|
    ensures values[i] <= values[j]
  {
  }

  lemma ValuesSorted(tasks: map<Id, Task>, priorities: nat, w: seq<Id>)
    requires InLine(tasks, priorities, w)
    ensures (forall x | x in w :: x in tasks) && Sorted(ItemValues(w, tasks))
  {
  }

  lemma LooserLined(s: System, r: System)
    requires Valid(s) && Lined(s) && Looser(s, r)
    ensures Lined(r)
  {
    hide Records, Ordered, Awake, Fewer, InLine;
    assert s.tasks == s.tasks[s.current := s.tasks[s.current]];
    forall m | m in r.mutexes
      ensures InLine(r.tasks, r.priorities, r.mutexes[m].waiting)
    {
      FewerInLine(s.tasks, s.priorities, s.mutexes[m].waiting, r.mutexes[m].waiting);
      FewerIn(s.mutexes[m].waiting, r.mutexes[m].waiting);
      if s.current in Awake(s) {
        AwakeWaitsNot(s, m);
        RecordInLine(s.tasks, s.priorities, r.mutexes[m].waiting, s.current, r.tasks[s.current]);
      }
    }
  }

  /** One record changes, which is that of no waiting task, or not at all. */
  lemma RecordLined(s: System, t: Id, task: Task)
    requires Lined(s) && t in s.tasks && (Waits(s, t) ==> task == s.tasks[t])
    ensures Lined(WithTask(s, t, task))
  {
    hide InLine;
    assert s.tasks[t := s.tasks[t]] == s.tasks;
    forall m | m in s.mutexes
      ensures InLine(s.tasks[t := task], s.priorities, s.mutexes[m].waiting)
    {
      if t !in s.mutexes[m].waiting {
        RecordInLine(s.tasks, s.priorities, s.mutexes[m].waiting, t, task);
      }
    }
  }

  /** Restoring the event list item of a waiting task changes nothing, and borrowing it is not done. */
  lemma ChangedWaits(s: System, op: Op)
    requires Valid(s) && Enabled(s, op) && SetsRecord(op) && Lined(s) && Steady(s, op)
    ensures var (t, task) := Changed(s, op); t in s.tasks && (Waits(s, t) ==> task == s.tasks[t])
  {
    hide Ordered, IsReady, HighestWaiting, Sound, Holds;
    InTasks(s);
    if op.AfterTimeOut? {
      WaitersInTasks(s, op.m);
    } else if op.Restore? && Waits(s, op.t) {
      var m :| m in s.mutexes && op.t in s.mutexes[m].waiting;
      assert InLine(s.tasks, s.priorities, s.mutexes[m].waiting);
    }
  }

  lemma WaitLined(s: System, m: MutexId)
    requires Valid(s) && Enabled(s, WaitFor(m)) && Lined(s) && Steady(s, WaitFor(m))
    ensures Lined(Step(s, WaitFor(m)))
  {
    hide Records, Ordered, IsReady, Step, InLine, InsertAt, Inherited;
    WaitEffect(s, m);
    var r, h := Step(s, WaitFor(m)), s.mutexes[m].holder.task;
    var task := Inherited(s.tasks[h], s.tasks[s.current], s.priorities);
    InheritedSame(s.tasks[h], s.tasks[s.current], s.priorities);
    RecordLined(s, h, task);
    InsertInLine(r.tasks, s.priorities, s.mutexes[m].waiting, s.current);
  }

  lemma InheritedSame(holder: Task, waiter: Task, priorities: nat)
    ensures holder.priority >= waiter.priority ==> Inherited(holder, waiter, priorities) == holder
  {
  }

  lemma TakeLined(s: System, op: Op)
    requires Valid(s) && Enabled(s, op) && Lined(s)
    requires (op.Take? || op.TakeRecursive?) && s.mutexes[op.m].count > 0
    ensures Lined(Step(s, op))
  {
    hide Records, Ordered, Awake, IsReady, Step, InLine;
    TakeEffect(s, op);
    AwakeMeans(s, s.current);
    forall m | m in s.mutexes
      ensures s.current !in s.mutexes[m].waiting
    {
      AwakeWaitsNot(s, m);
    }
    var t := s.tasks[s.current];
    RecordLined(s, s.current, t.(held := t.held + 1));
  }

  lemma NewTaskLined(s: System, t: Id, p: nat)
    requires Valid(s) && Enabled(s, NewTask(t, p)) && Lined(s)
    ensures Lined(Step(s, NewTask(t, p)))
  {
    hide Records, Ordered, IsReady;
    var r := Step(s, NewTask(t, p));
    StrangerWaitsNowhere(s, t);
    forall m | m in r.mutexes
      ensures InLine(r.tasks, r.priorities, r.mutexes[m].waiting)
    {
      RecordInLine(s.tasks, s.priorities, s.mutexes[m].waiting, t, r.tasks[t]);
    }
  }

  lemma KillTaskLined(s: System, t: Id)
    requires Valid(s) && Enabled(s, KillTask(t)) && Lined(s)
    ensures Lined(Step(s, KillTask(t)))
  {
    hide Records, Ordered, IsReady, Shows;
    var r := Step(s, KillTask(t));
    forall m | m in r.mutexes
      ensures InLine(r.tasks, r.priorities, r.mutexes[m].waiting)
    {
      assert InLine(s.tasks, s.priorities, s.mutexes[m].waiting);
    }
  }

  lemma RecordStepLined(s: System, op: Op)
    requires Valid(s) && Enabled(s, op) && SetsRecord(op) && Lined(s) && Steady(s, op)
    ensures Lined(Step(s, op))
  {
    hide Valid, Enabled, Step, Changed, Steady, InLine;
    ChangedWaits(s, op);
    RecordEffect(s, op);
    var (t, task) := Changed(s, op);
    RecordLined(s, t, task);
  }

  lemma StepLined(s: System, op: Op)
    requires Valid(s) && Enabled(s, op) && Lined(s) && Steady(s, op)
    ensures Lined(Step(s, op))
  {
    hide Records, Ordered, IsReady, Step, Steady, Looser, Lined;
    match op {
      case Take(m) => if s.mutexes[m].count > 0 { TakeLined(s, op); } else { NoTakeLined(s, op); }
      case TakeRecursive(m) => if s.mutexes[m].count > 0 { TakeLined(s, op); } else { NoTakeLined(s, op); }
      case WaitFor(m) => WaitLined(s, m);
      case Give(_) => GiveLooser(s, op); LooserLined(s, Step(s, op));
      case GiveRecursive(_) => GiveLooser(s, op); LooserLined(s, Step(s, op));
      case AfterTimeOut(_) => RecordStepLined(s, op);
      case SetPriority(_, _) => RecordStepLined(s, op);
      case Borrow(_, _) => RecordStepLined(s, op);
      case Restore(_) => RecordStepLined(s, op);
      case NewTask(t, p) => NewTaskLined(s, t, p);
      case KillTask(t) => KillTaskLined(s, t);
      case TimeOut(_, _) => OtherLooser(s, op); LooserLined(s, Step(s, op));
      case Switch(_) => OtherLooser(s, op); LooserLined(s, Step(s, op));
      case Sleep => OtherLooser(s, op); LooserLined(s, Step(s, op));
      case WakeUp(_) => OtherLooser(s, op); LooserLined(s, Step(s, op));
    }
  }

  lemma NoTakeLined(s: System, op: Op)
    requires Valid(s) && Enabled(s, op) && Lined(s)
    requires (op.Take? || op.TakeRecursive?) && s.mutexes[op.m].count == 0
    ensures Lined(Step(s, op))
  {
    hide Valid, Enabled, Step, Looser, Lined;
    OtherLooser(s, op);
    LooserLined(s, Step(s, op));
  }

  // ---------- the theorems ----------

  ghost predicate AllSteady(s: System, ops: seq<Op>)
    requires Valid(s) && Run(s, ops)
    decreases |ops|
  {
    ops != [] ==> Steady(s, ops[0]) && (StepKeeps(s, ops[0]); AllSteady(Step(s, ops[0]), ops[1..]))
  }

  ghost predicate AllFitting(s: System, ops: seq<Op>)
    requires Valid(s) && Run(s, ops)
    decreases |ops|
  {
    ops != [] ==> Fitting(s, ops[0]) && (StepKeeps(s, ops[0]); AllFitting(Step(s, ops[0]), ops[1..]))
  }

  ghost predicate AlwaysRanked(s: System, ops: seq<Op>)
    requires Valid(s) && Run(s, ops)
    decreases |ops|
  {
    Ranked(s) && (ops != [] ==> (StepKeeps(s, ops[0]); AlwaysRanked(Step(s, ops[0]), ops[1..])))
  }

  lemma {:induction false} SteadyRanked(s: System, ops: seq<Op>)
    requires Valid(s) && Run(s, ops) && Ranked(s) && Lined(s) && AllSteady(s, ops)
    ensures Ranked(After(s, ops)) && AllFitting(s, ops)
    decreases |ops|
  {
    hide Valid, Enabled, Step, Ranked, Lined, Steady, Fitting;
    if ops != [] {
      StepKeeps(s, ops[0]);
      SteadyFits(s, ops[0]);
      StepRanked(s, ops[0]);
      StepLined(s, ops[0]);
      SteadyRanked(Step(s, ops[0]), ops[1..]);
    }
  }

  lemma {:induction false} RankedExactly(s: System, ops: seq<Op>)
    requires Valid(s) && Run(s, ops) && Ranked(s)
    ensures AlwaysRanked(s, ops) <==> AllFitting(s, ops)
    decreases |ops|
  {
    hide Valid, Enabled, Step, Ranked, Fitting;
    if ops != [] {
      StepKeeps(s, ops[0]);
      StepRanked(s, ops[0]);
      if Fitting(s, ops[0]) {
        RankedExactly(Step(s, ops[0]), ops[1..]);
      }
    }
  }

  lemma UnlockedRanked(priorities: nat, idle: Id, mutexes: map<MutexId, bool>)
    requires 0 < priorities < IN_USE
    ensures Valid(Unlocked(priorities, idle, mutexes))
    ensures Ranked(Unlocked(priorities, idle, mutexes)) && Lined(Unlocked(priorities, idle, mutexes))
  {
    hide Valid;
    UnlockedValid(priorities, idle, mutexes);
  }

  /** No priority inversion over whole steady runs: whatever is taken, waited for, given back, timed out
      and re-prioritised, every holder of a mutex runs at or above the priority of every task that waits
      for it. */
  lemma HoldersOutrankWaiters(priorities: nat, idle: Id, mutexes: map<MutexId, bool>, ops: seq<Op>)
    requires 0 < priorities < IN_USE && Valid(Unlocked(priorities, idle, mutexes))
    requires Run(Unlocked(priorities, idle, mutexes), ops) && AllSteady(Unlocked(priorities, idle, mutexes), ops)
    ensures var r := After(Unlocked(priorities, idle, mutexes), ops);
      forall m | m in r.mutexes && r.mutexes[m].holder.HeldBy? ::
        var h := r.mutexes[m].holder.task;
        h in r.tasks
        && forall w | w in r.mutexes[m].waiting :: w in r.tasks && r.tasks[w].priority <= r.tasks[h].priority
  {
    hide Valid, Unlocked, Run, After, AllSteady, AllFitting, Lined;
    UnlockedRanked(priorities, idle, mutexes);
    SteadyRanked(Unlocked(priorities, idle, mutexes), ops);
    var r := After(Unlocked(priorities, idle, mutexes), ops);
    assert forall m | m in r.mutexes :: Outranks(r.tasks, r.mutexes[m]);
  }

  // ---------- who is woken, and what is given back ----------

  /** Giving a mutex up makes its first waiter ready and nobody else. */
  lemma GivenWakes(s: System, m: MutexId)
    requires Ordered(s) && m in s.mutexes && s.mutexes[m].holder == HeldBy(s.current) && s.current in s.tasks
    requires forall t | t in s.tasks :: s.tasks[t].priority < s.priorities && s.tasks[t].base < s.priorities
    requires forall x | x in s.mutexes[m].waiting :: x in s.tasks
    ensures var r, w := Given(s, m), s.mutexes[m].waiting;
      && m in r.mutexes && r.mutexes[m].holder == Nobody && r.mutexes[m].count == s.mutexes[m].count + 1
      && (if w == [] then r.mutexes[m].waiting == [] && Awake(r) == Awake(s)
          else r.mutexes[m].waiting == w[1..] && Awake(r) == Awake(s) + {w[0]})
  {
    hide FiledBy, WaitLists, Adjusted, Disinherited, PutOn, Awake, IsReady;
    var task := Disinherited(s.tasks[s.current], s.priorities);
    DisinheritedPriority(s.tasks[s.current], s.priorities);
    AdjustedMoves(s, s.current, task);
    AdjustedRest(s, s.current, task);
    var r, g := Adjusted(s, s.current, task), Given(s, m);
    if s.mutexes[m].waiting == [] {
      SameAwake(r, g);
    } else {
      var t := s.mutexes[m].waiting[0];
      HeadAsleep(s, m);
      AwakeMeans(r, t);
      JoinsReady(r, t);
      SameAwake(r.(ready := g.ready), g);
    }
  }

  /** The same of the calls: the mutex is free again, and the first waiter, if there is one, is ready. */
  lemma GiveWakes(s: System, m: MutexId)
    requires Valid(s) && Enabled(s, Give(m)) && s.mutexes[m].count == 0
    ensures m in s.mutexes
    ensures var r, w := Step(s, Give(m)), s.mutexes[m].waiting;
      && m in r.mutexes && r.mutexes[m].holder == Nobody && r.mutexes[m].count == 1
      && (w == [] ==> r.mutexes[m].waiting == [] && Awake(r) == Awake(s))
      && (w != [] ==> r.mutexes[m].waiting == w[1..] && Awake(r) == Awake(s) + {w[0]} && IsReady(r, w[0]))
  {
    hide Records, Ordered, Awake, IsReady, Given;
    GiveFacts(s, m);
    WaitersInTasks(s, m);
    AllBounded(s);
    GivenWakes(s, m);
    StepKeeps(s, Give(m));
    if s.mutexes[m].waiting != [] {
      AwakeReady(Step(s, Give(m)), s.mutexes[m].waiting[0]);
    }
  }

  lemma AwakeReady(s: System, t: Id)
    requires t in Awake(s)
    ensures IsReady(s, t)
  {
  }

  /** A task whose wait times out is ready and waits no longer. */
  lemma TimeOutWakes(s: System, m: MutexId, t: Id)
    requires Valid(s) && Enabled(s, TimeOut(m, t))
    ensures m in s.mutexes
    ensures var r := Step(s, TimeOut(m, t));
      && Awake(r) == Awake(s) + {t} && IsReady(r, t) && r.tasks == s.tasks
      && m in r.mutexes && t !in r.mutexes[m].waiting
      && r.mutexes == s.mutexes[m := s.mutexes[m].(waiting := Without(s.mutexes[m].waiting, t))]
  {
    hide Records, FiledBy, WaitLists, PutOn, Awake, IsReady, Without;
    WaitersInTasks(s, m);
    PrioritiesKnown(s, t);
    var r := Step(s, TimeOut(m, t));
    WaiterAsleep(s, m, t);
    AwakeMeans(s, t);
    JoinsReady(s, t);
    SameAwake(s.(ready := r.ready), r);
    AwakeReady(r, t);
  }

  /** A task that waits is not ready, and its holder is raised to its priority, if it was below, and no
      further. */
  lemma WaitRaises(s: System, m: MutexId)
    requires Valid(s) && Enabled(s, WaitFor(m))
    ensures m in s.mutexes && s.mutexes[m].holder.HeldBy? && s.current in s.tasks
    ensures var r, h := Step(s, WaitFor(m)), s.mutexes[m].holder.task;
      && h in s.tasks && h in r.tasks && m in r.mutexes && s.current in r.mutexes[m].waiting
      && r.tasks[h].priority ==
           (if s.tasks[h].priority < s.tasks[s.current].priority then s.tasks[s.current].priority
            else s.tasks[h].priority)
      && Awake(r) == Awake(s) - {s.current}
  {
    hide Records, Ordered, IsReady, Step, Awake, Inherited, InsertAt, SortedPosition;
    WaitEffect(s, m);
    AwakeAfterWait(s, m);
    InheritedPriority(s.tasks[s.mutexes[m].holder.task], s.tasks[s.current], s.priorities);
  }

  /** After a time-out the holder of this one mutex falls back to the highest priority still waiting for
      it, or to its base priority if that is higher. */
  lemma TimeOutDrops(s: System, m: MutexId)
    requires Valid(s) && Enabled(s, AfterTimeOut(m)) && Lined(s)
    requires s.mutexes[m].holder.HeldBy? && s.mutexes[m].holder.task in s.tasks
    requires s.tasks[s.mutexes[m].holder.task].held == 1
    ensures var r, h := Step(s, AfterTimeOut(m)), s.mutexes[m].holder.task;
      && h in r.tasks && r.tasks[h].priority >= s.tasks[h].base
      && (forall w | w in s.mutexes[m].waiting :: w in s.tasks && s.tasks[w].priority <= r.tasks[h].priority)
      && (r.tasks[h].priority == s.tasks[h].base
          || exists w :: w in s.mutexes[m].waiting && s.tasks[w].priority == r.tasks[h].priority)
  {
    hide Records, Ordered, IsReady, InLine, HighestWaiting, Adjusted;
    WaitersInTasks(s, m);
    RecordEffect(s, AfterTimeOut(m));
    HeadIsHighest(s, m);
    HighestIsOne(s, m);
  }

  lemma HighestIsOne(s: System, m: MutexId)
    requires Records(s) && m in s.mutexes && InLine(s.tasks, s.priorities, s.mutexes[m].waiting)
    ensures forall x | x in s.mutexes[m].waiting :: x in s.tasks
    ensures HighestWaiting(s, m) == 0
         || exists w :: w in s.mutexes[m].waiting && s.tasks[w].priority == HighestWaiting(s, m)
  {
    hide Sound, Holds;
    assert MutexOk(s, s.mutexes[m]);
    if s.mutexes[m].waiting != [] {
      assert s.mutexes[m].waiting[0] in s.mutexes[m].waiting;
    }
  }

  // ---------- a chain of two holders ----------

  /** Task 1 takes mutex 0, task 2 takes mutex 1 and waits for mutex 0, and task 3 waits for mutex 1. */
  function Chain(): seq<Op> {
    [NewTask(1, 1), NewTask(2, 2), NewTask(3, 5)] + ([Switch(1), Take(0)] + ([Switch(2), Take(1), WaitFor(0)]
    + [Switch(3), WaitFor(1)]))
  }

  /** The run leads from s to r. */
  ghost predicate Leads(s: System, ops: seq<Op>, r: System) {
    Valid(s) && Run(s, ops) && After(s, ops) == r && Valid(r)
  }

  lemma LeadsBy(s: System, op: Op)
    requires Valid(s) && Enabled(s, op)
    ensures Leads(s, [op], Step(s, op))
  {
    hide Valid, Enabled, Step;
    StepKeeps(s, op);
    RunNone(Step(s, op));
    RunOne(s, op, []);
    assert [op] + [] == [op];
  }

  lemma LeadsOn(s: System, a: seq<Op>, m: System, b: seq<Op>, r: System)
    requires Leads(s, a, m) && Leads(m, b, r)
    ensures Leads(s, a + b, r)
  {
    hide Valid, Run, After;
    RunJoin(s, a, b);
  }

  /** The waiter is no longer ready. */
  lemma AwakeAfterWait(s: System, m: MutexId)
    requires Valid(s) && Enabled(s, WaitFor(m))
    ensures Awake(Step(s, WaitFor(m))) == Awake(s) - {s.current} && Step(s, WaitFor(m)).current == s.current
  {
    hide Records, FiledBy, WaitLists, Adjusted, Inherited, TakenOff, MutexOk, Awake;
    WaitFacts(s, m);
    var h := s.mutexes[m].holder.task;
    var task := Inherited(s.tasks[h], s.tasks[s.current], s.priorities);
    AllBounded(s);
    InheritedPriority(s.tasks[h], s.tasks[s.current], s.priorities);
    AdjustedMoves(s, h, task);
    AdjustedRest(s, h, task);
    var r, w := Adjusted(s, h, task), Step(s, WaitFor(m));
    LeavesReady(r, s.current);
    SameAwake(r.(ready := w.ready), w);
  }

  lemma Begins(s: System, t: Id, p: nat) returns (r: System)
    requires Valid(s) && t !in s.tasks && p < s.priorities
    ensures Leads(s, [NewTask(t, p)], r) && Valid(r)
    ensures r.tasks == s.tasks[t := Task(p, p, 0, s.priorities - p)] && Awake(r) == Awake(s) + {t}
    ensures r.mutexes == s.mutexes && r.priorities == s.priorities
  {
    hide Valid, Step, Awake;
    LeadsBy(s, NewTask(t, p));
    AfterNewTask(s, t, p);
    r := Step(s, NewTask(t, p));
  }

  /** Task t takes the floor and then a free mutex. */
  lemma Takes(s: System, t: Id, m: MutexId) returns (r: System)
    requires Valid(s) && t in Awake(s) && t in s.tasks && m in s.mutexes && s.mutexes[m] == Mutex(1, Nobody, 0, false, [])
    ensures Leads(s, [Switch(t), Take(m)], r) && r.current == t && r.priorities == s.priorities
    ensures r.tasks == s.tasks[t := s.tasks[t].(held := s.tasks[t].held + 1)] && Awake(r) == Awake(s)
    ensures r.mutexes == s.mutexes[m := Mutex(0, HeldBy(t), 0, false, [])]
  {
    hide Records, Ordered, Awake, IsReady, Leads;
    var a := Runs(s, t);
    AwakeMeans(a, t);
    LeadsBy(a, Take(m));
    AfterTake(a, m);
    r := Step(a, Take(m));
    LeadsOn(s, [Switch(t)], a, [Take(m)], r);
    assert [Switch(t)] + [Take(m)] == [Switch(t), Take(m)];
  }

  lemma Runs(s: System, t: Id) returns (r: System)
    requires Valid(s) && t in Awake(s) && t in s.tasks
    ensures Leads(s, [Switch(t)], r) && Valid(r) && r == s.(current := t) && Awake(r) == Awake(s)
  {
    hide Records, Ordered, Awake, IsReady, Leads;
    AwakeMeans(s, t);
    LeadsBy(s, Switch(t));
    StepKeeps(s, Switch(t));
    r := s.(current := t);
    SameAwake(s, r);
  }

  /** The running task waits for a mutex that h holds. */
  lemma Waiting(s: System, m: MutexId, h: Id) returns (r: System)
    requires Valid(s) && s.current in Awake(s) && s.current in s.tasks && s.tasks[s.current].eventValue < IN_USE
    requires h in s.tasks && m in s.mutexes && s.mutexes[m] == Mutex(0, HeldBy(h), 0, false, [])
    ensures Leads(s, [WaitFor(m)], r) && Awake(r) == Awake(s) - {s.current}
    ensures r.tasks == s.tasks[h := Inherited(s.tasks[h], s.tasks[s.current], s.priorities)]
    ensures r.priorities == s.priorities && m in r.mutexes && r.mutexes == s.mutexes[m := r.mutexes[m]]
    ensures r.mutexes[m].holder == HeldBy(h) && s.current in r.mutexes[m].waiting
  {
    hide Records, Ordered, Awake, IsReady, Leads, Step, Inherited;
    AwakeMeans(s, s.current);
    LeadsBy(s, WaitFor(m));
    WaitEffect(s, m);
    AwakeAfterWait(s, m);
    r := Step(s, WaitFor(m));
  }

  /** The three tasks of the chain, ready. */
  lemma ThreeTasks(s: System) returns (r: System)
    requires Valid(s) && s == Unlocked(8, 0, map[0 := false, 1 := false])
    ensures Leads(s, [NewTask(1, 1), NewTask(2, 2), NewTask(3, 5)], r)
    ensures r.priorities == 8 && {1, 2, 3} <= Awake(r) && {1, 2, 3} <= r.tasks.Keys
    ensures r.tasks[1] == Task(1, 1, 0, 7) && r.tasks[2] == Task(2, 2, 0, 6) && r.tasks[3] == Task(5, 5, 0, 3)
    ensures r.mutexes == map[0 := Mutex(1, Nobody, 0, false, []), 1 := Mutex(1, Nobody, 0, false, [])]
  {
    hide Valid, Awake, Leads, Unlocked;
    UnlockedIs(8, 0, map[0 := false, 1 := false]);
    var a := Begins(s, 1, 1);
    var b := Begins(a, 2, 2);
    r := Begins(b, 3, 5);
    LeadsOn(s, [NewTask(1, 1)], a, [NewTask(2, 2)], b);
    LeadsOn(s, [NewTask(1, 1)] + [NewTask(2, 2)], b, [NewTask(3, 5)], r);
    assert [NewTask(1, 1)] + [NewTask(2, 2)] + [NewTask(3, 5)] == [NewTask(1, 1), NewTask(2, 2), NewTask(3, 5)];
  }

  lemma LeadsValid(s: System, ops: seq<Op>, r: System)
    requires Leads(s, ops, r)
    ensures Valid(r) && Valid(s) && Run(s, ops) && After(s, ops) == r
  {
    hide Valid, Run, After;
  }

  /** Inheritance is not passed on: task 2 inherits priority 5 while it waits for task 1, which goes on
      at the priority 2 it inherited before. */
  lemma ChainInverts() returns (r: System)
    ensures var s := Unlocked(8, 0, map[0 := false, 1 := false]);
      Valid(s) && Run(s, Chain()) && After(s, Chain()) == r
    ensures 0 in r.mutexes && r.mutexes[0].holder == HeldBy(1) && 2 in r.mutexes[0].waiting
    ensures {1, 2} <= r.tasks.Keys && r.tasks[1].priority == 2 && r.tasks[2].priority == 5 && !Ranked(r)
  {
    hide Valid, Run, After, Step, Awake, Leads, Unlocked;
    var s := Unlocked(8, 0, map[0 := false, 1 := false]);
    UnlockedValid(8, 0, map[0 := false, 1 := false]);
    var a := ThreeTasks(s);
    LeadsValid(s, [NewTask(1, 1), NewTask(2, 2), NewTask(3, 5)], a);
    var b := Takes(a, 1, 0);
    LeadsValid(a, [Switch(1), Take(0)], b);
    var c := Takes(b, 2, 1);
    LeadsValid(b, [Switch(2), Take(1)], c);
    var d := Waiting(c, 0, 1);
    LeadsValid(c, [WaitFor(0)], d);
    var e := Runs(d, 3);
    r := Waiting(e, 1, 2);
    LeadsOn(d, [Switch(3)], e, [WaitFor(1)], r);
    LeadsOn(c, [WaitFor(0)], d, [Switch(3)] + [WaitFor(1)], r);
    LeadsOn(b, [Switch(2), Take(1)], c, [WaitFor(0)] + ([Switch(3)] + [WaitFor(1)]), r);
    var rest := [Switch(2), Take(1)] + ([WaitFor(0)] + ([Switch(3)] + [WaitFor(1)]));
    LeadsOn(a, [Switch(1), Take(0)], b, rest, r);
    LeadsOn(s, [NewTask(1, 1), NewTask(2, 2), NewTask(3, 5)], a, [Switch(1), Take(0)] + rest, r);
    assert [NewTask(1, 1), NewTask(2, 2), NewTask(3, 5)] + ([Switch(1), Take(0)] + rest) == Chain();
    LeadsValid(s, Chain(), r);
    assert !Outranks(r.tasks, r.mutexes[0]);
  }
}
