/** The mutex calls of FreeRTOS-Kernel/queue.c and tasks.c as they update the task control blocks and the
    ready lists: each method brings the state to the one the step of module Mutexes says. */
module MutexKernel {
  import opened Rings
  import opened EventItems
  import opened Mutexes

  class MutexKernel {
    const priorities: nat
    var tasks: map<Id, Task>
    var ready: seq<Ring<Id>>
    var mutexes: map<MutexId, Mutex>
    var current: Id

    ghost function State(): System
      reads this
    {
      System(priorities, tasks, ready, mutexes, current)
    }

    constructor (priorities: nat, idle: Id, kinds: map<MutexId, bool>)
      requires 0 < priorities < IN_USE
      ensures Valid(State()) && State() == Unlocked(priorities, idle, kinds)
    {
      this.priorities := priorities;
      tasks := map[idle := Task(0, 0, 0, priorities)];
      ready := PutOn(seq(priorities, _ => Empty<Id>()), 0, idle);
      mutexes := map m | m in kinds :: Mutex(1, Nobody, 0, kinds[m], []);
      current := idle;
      new;
      UnlockedValid(priorities, idle, kinds);
    }

    /** listIS_CONTAINED_WITHIN for the ready list of priority p */
    predicate Contained(p: nat, t: Id)
      reads this`ready
    {
      p < |ready| && t in ready[p].items
    }

    /** A task gets another record: if it is in the ready list of the priority it had, it moves. */
    method Refile(t: Id, task: Task)
      requires t in tasks
      modifies this`tasks, this`ready
      ensures State() == Refiled(old(State()), t, task)
    {
      hide TakenOff, PutOn;
      var entry := tasks[t].priority;
      if Contained(entry, t) {
        ready := TakenOff(ready, entry, t);
        tasks := tasks[t := task];
        ready := PutOn(ready, task.priority, t);
      } else {
        tasks := tasks[t := task];
      }
    }

    /** The change of priority in the inheritance and in the disinheritance after a time-out. */
    method Assign(t: Id, priority: nat)
      requires t in tasks
      modifies this`tasks, this`ready
      ensures State() == Refiled(old(State()), t, Repriced(old(tasks[t]), priority, priorities))
    {
      hide Refiled, ValueFor;
      var task := tasks[t];
      task := task.(eventValue := ValueFor(task.eventValue, priority, priorities));
      Refile(t, task.(priority := priority));
    }

    /** xTaskPriorityInherit: the result says whether the holder runs on an inherited priority that the
        running task will have to take back when it times out. */
    method PriorityInherit(holder: Holder) returns (inherited: bool)
      requires current in tasks && (holder.HeldBy? ==> holder.task in tasks)
      modifies this`tasks, this`ready
      ensures State() == match holder
        case Nobody => old(State())
        case HeldBy(h) => Adjusted(old(State()), h, Inherited(old(tasks[h]), old(tasks[current]), priorities))
      ensures inherited <==> (holder.HeldBy? && RunsRaised(old(tasks[holder.task]), old(tasks[current])))
    {
      hide Refiled, ValueFor;
      inherited := false;
      if holder.HeldBy? {
        var h := holder.task;
        assert tasks[h := tasks[h]] == tasks;
        if tasks[h].priority < tasks[current].priority {
          Assign(h, tasks[current].priority);
          inherited := true;
        } else if tasks[h].base < tasks[current].priority {
          inherited := true;
        }
      }
    }

    /** xTaskPriorityDisinherit, by the running task. */
    method PriorityDisinherit() returns (switchRequired: bool)
      requires IsReady(State(), current) && tasks[current].held > 0 && tasks[current].base <= priorities
      modifies this`tasks, this`ready
      ensures State() == Adjusted(old(State()), current, Disinherited(old(tasks[current]), priorities))
      ensures switchRequired <==> old(tasks[current].priority) != old(tasks[current].base) && old(tasks[current].held) == 1
    {
      hide TakenOff, PutOn;
      switchRequired := false;
      tasks := tasks[current := tasks[current].(held := tasks[current].held - 1)];
      if tasks[current].priority != tasks[current].base {
        if tasks[current].held == 0 {
          ready := TakenOff(ready, tasks[current].priority, current);
          tasks := tasks[current := tasks[current].(
            priority := tasks[current].base, eventValue := priorities - tasks[current].base)];
          ready := PutOn(ready, tasks[current].priority, current);
          switchRequired := true;
        }
      }
    }

    /** The first critical section of xQueueSemaphoreTake on a mutex. */
    method TryTake(m: MutexId) returns (taken: bool)
      requires Valid(State()) && m in mutexes && current in tasks
      modifies this`tasks, this`mutexes
      ensures taken <==> old(mutexes[m].count) > 0
      ensures State() == if taken then Taken(old(State()), m) else old(State())
    {
      hide Valid;
      taken := mutexes[m].count > 0;
      if taken {
        mutexes := mutexes[m := mutexes[m].(count := mutexes[m].count - 1, holder := HeldBy(current))];
        tasks := tasks[current := tasks[current].(held := tasks[current].held + 1)];
      }
    }

    /** The blocking branch of xQueueSemaphoreTake. */
    method Block(m: MutexId) returns (inherited: bool)
      requires Valid(State()) && Enabled(State(), WaitFor(m))
      modifies this`tasks, this`mutexes, this`ready
      ensures Valid(State()) && State() == Step(old(State()), WaitFor(m))
      ensures inherited <==>
        (old(mutexes[m].holder).HeldBy? && RunsRaised(old(tasks[mutexes[m].holder.task]), old(tasks[current])))
    {
      hide Valid, ItemValues, SortedPosition, InsertAt, Inherited, Adjusted, TakenOff;
      StepKeeps(State(), WaitFor(m));
      WaitersNamed(State(), m);
      HolderAdjusted(State(), m);
      inherited := PriorityInherit(mutexes[m].holder);
      var w := mutexes[m].waiting;
      var p := SortedPosition(ItemValues(w, tasks), tasks[current].eventValue);
      ready := TakenOff(ready, tasks[current].priority, current);
      mutexes := mutexes[m := mutexes[m].(waiting := InsertAt(w, p, current))];
    }

    /** xQueueGenericSend on a mutex: fails when nobody holds it. */
    method GiveBack(m: MutexId) returns (given: bool)
      requires Valid(State()) && Enabled(State(), Give(m))
      modifies this`tasks, this`mutexes, this`ready
      ensures Valid(State()) && State() == Step(old(State()), Give(m)) && (given <==> old(mutexes[m].count) == 0)
    {
      hide Records, Ordered, Given;
      StepKeeps(State(), Give(m));
      given := mutexes[m].count == 0;
      if given {
        GiveFacts(State(), m);
        WaitersInTasks(State(), m);
        PrioritiesKnown(State(), current);
        HandBack(m);
      }
    }

    /** The mutex branch of prvCopyDataToQueue, and the waking of the first waiter. */
    method HandBack(m: MutexId)
      requires m in mutexes && mutexes[m].holder == HeldBy(current) && IsReady(State(), current)
      requires tasks[current].held > 0 && tasks[current].base <= priorities
      requires forall x | x in mutexes[m].waiting :: x in tasks
      modifies this`tasks, this`mutexes, this`ready
      ensures State() == Given(old(State()), m)
    {
      hide Adjusted, Disinherited, PutOn;
      AdjustedRest(State(), current, Disinherited(tasks[current], priorities));
      var switchRequired := PriorityDisinherit();
      var x := mutexes[m];
      if x.waiting == [] {
        mutexes := mutexes[m := x.(count := x.count + 1, holder := Nobody)];
      } else {
        mutexes := mutexes[m := x.(count := x.count + 1, holder := Nobody, waiting := x.waiting[1..])];
        ready := PutOn(ready, tasks[x.waiting[0]].priority, x.waiting[0]);
      }
    }

    /** xQueueTakeMutexRecursive, its first try. */
    method TakeMutexRecursive(m: MutexId) returns (taken: bool)
      requires Valid(State()) && Enabled(State(), TakeRecursive(m))
      modifies this`tasks, this`mutexes
      ensures Valid(State()) && State() == Step(old(State()), TakeRecursive(m))
      ensures taken <==> old(mutexes[m].holder) == HeldBy(current) || old(mutexes[m].count) > 0
    {
      hide Records, Ordered, Taken;
      StepKeeps(State(), TakeRecursive(m));
      InTasks(State());
      if mutexes[m].holder == HeldBy(current) {
        mutexes := mutexes[m := mutexes[m].(recursiveCalls := mutexes[m].recursiveCalls + 1)];
        taken := true;
      } else {
        taken := TryTake(m);
        if taken {
          TakenHas(old(State()), m);
          mutexes := mutexes[m := mutexes[m].(recursiveCalls := mutexes[m].recursiveCalls + 1)];
        }
      }
    }

    /** xQueueGiveMutexRecursive */
    method GiveMutexRecursive(m: MutexId) returns (given: bool)
      requires Valid(State()) && Enabled(State(), GiveRecursive(m))
      modifies this`tasks, this`mutexes, this`ready
      ensures Valid(State()) && State() == Step(old(State()), GiveRecursive(m))
      ensures given <==> old(mutexes[m].holder) == HeldBy(current)
    {
      hide Records, Ordered, Given;
      StepKeeps(State(), GiveRecursive(m));
      RecursiveFacts(State(), m);
      given := mutexes[m].holder == HeldBy(current);
      if given {
        HolderHolds(State(), m);
        PrioritiesKnown(State(), current);
        mutexes := mutexes[m := mutexes[m].(recursiveCalls := mutexes[m].recursiveCalls - 1)];
        if mutexes[m].recursiveCalls == 0 {
          HandBack(m);
        }
      }
    }

    /** The end of xQueueSemaphoreTake when the task has timed out: prvGetDisinheritPriorityAfterTimeout and
        vTaskPriorityDisinheritAfterTimeout. */
    method DisinheritAfterTimeout(m: MutexId)
      requires Valid(State()) && Enabled(State(), AfterTimeOut(m))
      modifies this`tasks, this`ready
      ensures Valid(State()) && State() == Step(old(State()), AfterTimeOut(m))
    {
      hide Records, Ordered, Refiled, ValueFor;
      StepKeeps(State(), AfterTimeOut(m));
      WaitersInTasks(State(), m);
      var highest := 0;
      var w := mutexes[m].waiting;
      if w != [] && tasks[w[0]].eventValue <= priorities {
        highest := priorities - tasks[w[0]].eventValue;
      }
      match mutexes[m].holder {
        case Nobody =>
        case HeldBy(h) =>
          var priorityToUse := if tasks[h].base < highest then highest else tasks[h].base;
          assert tasks[h := tasks[h]] == tasks;
          if tasks[h].priority != priorityToUse {
            if tasks[h].held == 1 {
              Assign(h, priorityToUse);
            }
          }
      }
    }

    /** vTaskPrioritySet with mutexes on; whether it ends with a yield is its result. */
    method PrioritySet(t: Id, requested: nat) returns (yieldRequired: bool)
      requires Valid(State()) && t in tasks
      modifies this`tasks, this`ready
      ensures Valid(State()) && State() == Step(old(State()), SetPriority(t, requested))
      ensures old(State().current) in old(State().tasks) && (yieldRequired <==> YieldOnSet(old(State()), t, requested))
    {
      hide Records, Ordered, ValueFor, Refiled;
      StepKeeps(State(), SetPriority(t, requested));
      var p := requested;
      if p >= priorities && priorities > 0 {
        p := priorities - 1;
      }
      assert tasks[t := tasks[t]] == tasks;
      InTasks(State());
      yieldRequired := false;
      if tasks[t].base != p {
        if p > tasks[t].base {
          yieldRequired := t != current && p >= tasks[current].priority;
        } else if t == current {
          yieldRequired := true;
        }
        var task := tasks[t];
        if task.base == task.priority {
          task := task.(priority := p);
        }
        task := task.(base := p, eventValue := ValueFor(task.eventValue, p, priorities));
        Refile(t, task);
      }
    }
  }

  lemma WaitersNamed(s: System, m: MutexId)
    requires Valid(s) && m in s.mutexes
    ensures forall x | x in s.mutexes[m].waiting :: x in s.tasks
    ensures s.mutexes[m].holder.HeldBy? ==> s.mutexes[m].holder.task in s.tasks
    ensures s.current in s.tasks
  {
    WaitersInTasks(s, m);
  }

  /** What the waiting step makes of the holder's inheriting. */
  lemma HolderAdjusted(s: System, m: MutexId)
    requires Valid(s) && m in s.mutexes
    ensures forall h | s.mutexes[m].holder == HeldBy(h) ::
      h in s.tasks && s.current in s.tasks
      && var r := Adjusted(s, h, Inherited(s.tasks[h], s.tasks[s.current], s.priorities));
      r == s.(tasks := r.tasks, ready := r.ready) && r.tasks.Keys == s.tasks.Keys
  {
    hide Records, Ordered, Inherited;
    WaitersInTasks(s, m);
    match s.mutexes[m].holder {
      case Nobody =>
      case HeldBy(h) => AdjustedRest(s, h, Inherited(s.tasks[h], s.tasks[s.current], s.priorities));
    }
  }
}
