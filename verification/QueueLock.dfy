/** The blocking protocol of a queue (FreeRTOS-Kernel/queue.c): tasks that check, lock, check again,
    block and unlock, with interrupts sending and receiving between any two of these steps.  A task
    inside vTaskSuspendAll keeps the other tasks, but not the interrupts, from running. */
module QueueLock {

  type Id = nat

  const UNLOCKED := -1
  const LOCKED_UNMODIFIED := 0
  const INT8_MAX := 127

  datatype Call = Receive | Peek | Send

  /** Why a task unlocks the queue again. */
  datatype Outcome = Blocked | Retry | Expired

  /** Where a task is in xQueueGenericSend, xQueueReceive or xQueuePeek. */
  datatype Pc =
    | Outside
    | Top(c: Call)                       // in front of the first critical section
    | Leaving(c: Call)                   // behind it, having found nothing to do
    | Suspended(c: Call)                 // behind vTaskSuspendAll
    | Locked(c: Call)                    // behind prvLockQueue
    | WillBlock(c: Call)                 // behind the second check
    | UnlockTx(c: Call, outcome: Outcome)
    | UnlockRx(c: Call, outcome: Outcome)
    | Resuming(c: Call, outcome: Outcome)
    | Recheck(c: Call)                   // timed out, one more look for data
    | Waiting(c: Call)

  datatype Option<T> = None | Some(value: T)

  /** receivers and senders are the two event lists; wokenReceivers and wokenSenders are the tasks
      taken off them by an event that have not been through their first critical section since. */
  datatype Q = Q(
    length: nat, count: nat, pc: map<Id, Pc>, owner: Option<Id>, txLock: int, rxLock: int,
    receivers: set<Id>, senders: set<Id>, wokenReceivers: set<Id>, wokenSenders: set<Id>)

  datatype Step =
    | Enter(t: Id, c: Call)
    | TryNow(t: Id, wait: bool, overwrite: bool, woken: Id)
    | SuspendAll(t: Id)
    | LockQueue(t: Id)
    | CheckAgain(t: Id, expired: bool)
    | Place(t: Id)
    | DoUnlockTx(t: Id, wakes: set<Id>)
    | DoUnlockRx(t: Id, wakes: set<Id>)
    | ResumeAll(t: Id)
    | LastLook(t: Id)
    | Return(t: Id)
    | Leave(t: Id)
    | IsrSend(overwrite: bool, woken: Id)
    | IsrReceive(woken: Id)
    | NewTask(t: Id)
    | KillTask(t: Id)
    | Reset(woken: Id)

  ghost predicate Running(s: Q, t: Id) {
    t in s.pc && (s.owner == None || s.owner == Some(t))
  }

  function WakeReceiver(s: Q, w: Id): Q {
    if s.receivers == {} then s
    else s.(receivers := s.receivers - {w}, wokenReceivers := s.wokenReceivers + {w})
  }

  function WakeSender(s: Q, w: Id): Q {
    if s.senders == {} then s
    else s.(senders := s.senders - {w}, wokenSenders := s.wokenSenders + {w})
  }

  /** The event list head is any waiting task: the order plays no part here. */
  predicate HeadOf(list: set<Id>, w: Id) {
    list != {} ==> w in list
  }

  /** prvIncrementQueueTxLock and prvIncrementQueueRxLock */
  function Capped(lock: int, tasks: nat): int {
    if lock < tasks then lock + 1 else lock
  }

  function At(s: Q, t: Id, p: Pc): Q {
    s.(pc := s.pc[t := p])
  }

  /** A waiting task that runs again has left both lists. */
  predicate OffLists(s: Q, t: Id) {
    t !in s.receivers && t !in s.senders
  }

  ghost predicate Can(s: Q, step: Step) {
    match step
    case Enter(t, c) => Running(s, t) && s.pc[t] == Outside
    case TryNow(t, wait, overwrite, w) =>
      Running(s, t) && s.pc[t].Top? && (overwrite ==> s.pc[t].c == Send && s.length == 1)
      && HeadOf(if s.pc[t].c == Receive then s.senders else s.receivers, w)
    case SuspendAll(t) => Running(s, t) && s.pc[t].Leaving?
    case LockQueue(t) => Running(s, t) && s.pc[t].Suspended?
    case CheckAgain(t, _) => Running(s, t) && s.pc[t].Locked?
    case Place(t) => Running(s, t) && s.pc[t].WillBlock?
    case DoUnlockTx(t, wakes) =>
      Running(s, t) && s.pc[t].UnlockTx? && wakes <= s.receivers
      && |wakes| == if s.txLock <= 0 then 0 else if s.txLock <= |s.receivers| then s.txLock else |s.receivers|
    case DoUnlockRx(t, wakes) =>
      Running(s, t) && s.pc[t].UnlockRx? && wakes <= s.senders
      && |wakes| == if s.rxLock <= 0 then 0 else if s.rxLock <= |s.senders| then s.rxLock else |s.senders|
    case ResumeAll(t) => Running(s, t) && s.pc[t].Resuming?
    case LastLook(t) => Running(s, t) && s.pc[t].Recheck?
    case Return(t) => Running(s, t) && s.pc[t].Waiting? && OffLists(s, t)
    case Leave(t) => s.owner == None && t in s.pc && s.pc[t].Waiting? && !OffLists(s, t)
    case IsrSend(overwrite, w) => (overwrite ==> s.length == 1) && HeadOf(s.receivers, w)
    case IsrReceive(w) => HeadOf(s.senders, w)
    case NewTask(t) => s.owner == None && t !in s.pc && |s.pc| < INT8_MAX
    case KillTask(t) => s.owner == None && t in s.pc && t !in s.wokenReceivers && t !in s.wokenSenders
    case Reset(w) => s.owner == None && HeadOf(s.senders, w)
  }

  /** One more item; overwriting a stored one leaves the count, in a queue with an item size. */
  function Filled(s: Q): nat {
    if s.count < s.length then s.count + 1 else s.count
  }

  function Tried(s: Q, t: Id, wait: bool, overwrite: bool, w: Id): Q
    requires t in s.pc && s.pc[t].Top?
  {
    var c := s.pc[t].c;
    var next := At(s, t, if wait then Leaving(c) else Outside);
    var back := next.(wokenReceivers := s.wokenReceivers - {t}, wokenSenders := s.wokenSenders - {t});
    var done := back.(pc := s.pc[t := Outside]);
    match c
    case Receive => if s.count > 0 then WakeSender(done.(count := s.count - 1), w) else back
    case Peek => if s.count > 0 then WakeReceiver(done, w) else back
    case Send => if s.count < s.length || overwrite then WakeReceiver(done.(count := Filled(s)), w) else back
  }

  function Apply(s: Q, step: Step): Q
    requires Can(s, step)
  {
    match step
    case Enter(t, c) => At(s, t, Top(c))
    case TryNow(t, wait, overwrite, w) => Tried(s, t, wait, overwrite, w)
    case SuspendAll(t) => At(s, t, Suspended(s.pc[t].c)).(owner := Some(t))
    case LockQueue(t) =>
      At(s, t, Locked(s.pc[t].c)).(
        rxLock := if s.rxLock == UNLOCKED then LOCKED_UNMODIFIED else s.rxLock,
        txLock := if s.txLock == UNLOCKED then LOCKED_UNMODIFIED else s.txLock)
    case CheckAgain(t, expired) =>
      var c := s.pc[t].c;
      if expired then At(s, t, UnlockTx(c, Expired))
      else if (if c == Send then s.count == s.length else s.count == 0) then At(s, t, WillBlock(c))
      else At(s, t, UnlockTx(c, Retry))
    case Place(t) =>
      var c := s.pc[t].c;
      var n := At(s, t, UnlockTx(c, Blocked));
      if c == Send then n.(senders := s.senders + {t}) else n.(receivers := s.receivers + {t})
    case DoUnlockTx(t, wakes) =>
      At(s, t, UnlockRx(s.pc[t].c, s.pc[t].outcome)).(
        txLock := UNLOCKED, receivers := s.receivers - wakes, wokenReceivers := s.wokenReceivers + wakes)
    case DoUnlockRx(t, wakes) =>
      At(s, t, Resuming(s.pc[t].c, s.pc[t].outcome)).(
        rxLock := UNLOCKED, senders := s.senders - wakes, wokenSenders := s.wokenSenders + wakes)
    case ResumeAll(t) =>
      var c := s.pc[t].c;
      var p := match s.pc[t].outcome
        case Blocked => Waiting(c)
        case Retry => Top(c)
        case Expired => if c == Send then Outside else Recheck(c);
      At(s, t, p).(owner := None)
    case LastLook(t) => At(s, t, if s.count == 0 then Outside else Top(s.pc[t].c))
    case Return(t) => At(s, t, Top(s.pc[t].c))
    case Leave(t) => At(s, t, Top(s.pc[t].c)).(receivers := s.receivers - {t}, senders := s.senders - {t})
    case IsrSend(overwrite, w) =>
      if s.count < s.length || overwrite then
        var n := s.(count := Filled(s));
        if s.txLock == UNLOCKED then WakeReceiver(n, w) else n.(txLock := Capped(s.txLock, |s.pc|))
      else s
    case IsrReceive(w) =>
      if s.count > 0 then
        var n := s.(count := s.count - 1);
        if s.rxLock == UNLOCKED then WakeSender(n, w) else n.(rxLock := Capped(s.rxLock, |s.pc|))
      else s
    case NewTask(t) => At(s, t, Outside)
    case KillTask(t) => s.(pc := s.pc - {t}, receivers := s.receivers - {t}, senders := s.senders - {t})
    case Reset(w) => WakeSender(s.(count := 0, txLock := UNLOCKED, rxLock := UNLOCKED), w)
  }

  // ---------- the structural invariant ----------

  /** The owner of the suspended scheduler, by where it is, has the queue locked or not. */
  predicate HoldsTx(p: Pc) {
    p.Locked? || p.WillBlock? || p.UnlockTx?
  }

  predicate HoldsRx(p: Pc) {
    HoldsTx(p) || p.UnlockRx?
  }

  predicate InSuspension(p: Pc) {
    p.Suspended? || HoldsRx(p) || p.Resuming?
  }

  /** A task is on a list, or woken from one, only after it has been placed there. */
  predicate Placed(p: Pc) {
    p.Waiting? || ((p.UnlockTx? || p.UnlockRx? || p.Resuming?) && p.outcome == Blocked)
  }

  predicate LocksMatch(s: Q) {
    match s.owner
    case None => s.txLock == UNLOCKED && s.rxLock == UNLOCKED
    case Some(t) =>
      && t in s.pc && InSuspension(s.pc[t])
      && (if HoldsTx(s.pc[t]) then 0 <= s.txLock <= |s.pc| else s.txLock == UNLOCKED)
      && (if HoldsRx(s.pc[t]) then 0 <= s.rxLock <= |s.pc| else s.rxLock == UNLOCKED)
  }

  ghost predicate Base(s: Q) {
    && s.length > 0 && s.count <= s.length && |s.pc| <= INT8_MAX
    && LocksMatch(s)
    && (forall t | t in s.pc && InSuspension(s.pc[t]) :: s.owner == Some(t))
    && (forall t | t in s.receivers :: t in s.pc && Placed(s.pc[t]) && s.pc[t].c != Send)
    && (forall t | t in s.senders :: t in s.pc && Placed(s.pc[t]) && s.pc[t].c == Send)
    && (forall t | t in s.wokenReceivers :: t in s.pc && (Placed(s.pc[t]) || s.pc[t].Top?) && s.pc[t].c != Send)
    && (forall t | t in s.wokenSenders :: t in s.pc && (Placed(s.pc[t]) || s.pc[t].Top?) && s.pc[t].c == Send)
    && s.receivers !! s.wokenReceivers && s.senders !! s.wokenSenders
  }

  /** available items (or free places) are covered by tasks woken for them, and while the queue is
      locked also by the count the lock keeps; a capped count will wake everybody. */
  predicate Covered(available: int, woken: nat, lock: int, tasks: nat) {
    if lock == UNLOCKED then available <= woken else available <= woken + lock || lock >= tasks
  }

  predicate AboutToBlock(s: Q, forSend: bool) {
    s.owner.Some? && s.owner.value in s.pc && s.pc[s.owner.value].WillBlock?
    && (s.pc[s.owner.value].c == Send <==> forSend)
  }

  ghost predicate ReceiversCovered(s: Q) {
    s.receivers != {} || AboutToBlock(s, false) ==> Covered(s.count, |s.wokenReceivers|, s.txLock, |s.pc|)
  }

  ghost predicate SendersCovered(s: Q) {
    s.senders != {} || AboutToBlock(s, true) ==>
      Covered(s.length - s.count, |s.wokenSenders|, s.rxLock, |s.pc|)
  }

  predicate ByInterrupt(step: Step) {
    step.IsrSend? || step.IsrReceive? || step.NewTask? || step.KillTask? || step.Reset? || step.Leave?
  }

  predicate InKernel(step: Step) {
    step.LockQueue? || step.CheckAgain? || step.Place? || step.DoUnlockTx? || step.DoUnlockRx? || step.ResumeAll?
  }

  lemma BaseWake(s: Q, w: Id)
    requires Base(s)
    ensures HeadOf(s.receivers, w) ==> Base(WakeReceiver(s, w))
    ensures HeadOf(s.senders, w) ==> Base(WakeSender(s, w))
  {
  }

  lemma BaseCount(s: Q)
    requires Base(s)
    ensures s.count <= s.length
  {
  }

  /** Counts may change as an interrupt or a reset changes them. */
  lemma BaseCounts(s: Q, count: nat, tx: int, rx: int)
    requires Base(s) && count <= s.length
    requires tx == s.txLock || (s.txLock != UNLOCKED && tx == Capped(s.txLock, |s.pc|))
    requires rx == s.rxLock || (s.rxLock != UNLOCKED && rx == Capped(s.rxLock, |s.pc|))
    ensures Base(s.(count := count, txLock := tx, rxLock := rx))
  {
  }

  lemma BaseInterrupt(s: Q, step: Step)
    requires Base(s) && Can(s, step) && (step.IsrSend? || step.IsrReceive? || step.Reset?)
    ensures Base(Apply(s, step))
  {
    hide Base;
    BaseCount(s);
    match step {
      case IsrSend(_, w) =>
        BaseCounts(s, Filled(s), if s.txLock == UNLOCKED then UNLOCKED else Capped(s.txLock, |s.pc|), s.rxLock);
        if s.txLock == UNLOCKED {
          BaseWake(s.(count := Filled(s)), w);
        }
      case IsrReceive(w) =>
        if s.count > 0 {
          BaseCounts(s, s.count - 1, s.txLock, if s.rxLock == UNLOCKED then UNLOCKED else Capped(s.rxLock, |s.pc|));
          if s.rxLock == UNLOCKED {
            BaseWake(s.(count := s.count - 1), w);
          }
        }
      case Reset(w) =>
        BaseUnowned(s);
        BaseCounts(s, 0, s.txLock, s.rxLock);
        BaseWake(s.(count := 0), w);
    }
  }

  lemma BaseUnowned(s: Q)
    requires Base(s) && s.owner == None
    ensures s.txLock == UNLOCKED && s.rxLock == UNLOCKED
  {
  }

  lemma BaseJoin(s: Q, t: Id)
    requires Base(s) && Can(s, NewTask(t))
    ensures Base(Apply(s, NewTask(t)))
  {
  }

  lemma BaseKill(s: Q, t: Id)
    requires Base(s) && Can(s, KillTask(t))
    ensures Base(Apply(s, KillTask(t)))
  {
    assert (s.pc - {t}).Keys == s.pc.Keys - {t};
    Within(s.pc.Keys - {t}, s.pc.Keys);
  }

  lemma BaseLeave(s: Q, t: Id)
    requires Base(s) && Can(s, Leave(t))
    ensures Base(Apply(s, Leave(t)))
  {
  }

  lemma BaseLocking(s: Q, step: Step)
    requires Base(s) && Can(s, step) && step.LockQueue?
    ensures Base(Apply(s, step))
  {
  }

  lemma BaseChecking(s: Q, step: Step)
    requires Base(s) && Can(s, step) && step.CheckAgain?
    ensures Base(Apply(s, step))
  {
    hide Base;
    var c := s.pc[step.t].c;
    BaseInKernel(s, step.t, UnlockTx(c, Expired));
    BaseInKernel(s, step.t, UnlockTx(c, Retry));
    BaseInKernel(s, step.t, WillBlock(c));
  }

  /** The owner goes on with the queue locked, on no list before or after. */
  lemma BaseInKernel(s: Q, t: Id, p: Pc)
    requires Base(s) && Running(s, t) && s.pc[t].Locked? && HoldsTx(p) && !Placed(p)
    ensures Base(At(s, t, p))
  {
  }

  /** The owner lets the scheduler go on, asleep if it has been placed on a list. */
  lemma BaseReleases(s: Q, t: Id, p: Pc)
    requires Base(s) && s.owner == Some(t) && t in s.pc && s.pc[t].Resuming? && !InSuspension(p)
    requires s.pc[t].outcome == Blocked ==> p == Waiting(s.pc[t].c)
    ensures Base(At(s, t, p).(owner := None))
  {
  }

  lemma BaseResuming(s: Q, step: Step)
    requires Base(s) && Can(s, step) && step.ResumeAll?
    ensures Base(Apply(s, step))
  {
    hide Base;
    var c := s.pc[step.t].c;
    OwnerIs(s, step.t);
    match s.pc[step.t].outcome {
      case Blocked => BaseReleases(s, step.t, Waiting(c));
      case Retry => BaseReleases(s, step.t, Top(c));
      case Expired => BaseReleases(s, step.t, if c == Send then Outside else Recheck(c));
    }
  }

  lemma OwnerIs(s: Q, t: Id)
    requires Base(s) && t in s.pc && InSuspension(s.pc[t])
    ensures s.owner == Some(t)
  {
  }

  lemma BasePlaced(s: Q, t: Id)
    requires Base(s) && s.owner == Some(t) && t in s.pc && s.pc[t].WillBlock?
    ensures var c := s.pc[t].c; var n := At(s, t, UnlockTx(c, Blocked));
      Base(if c == Send then n.(senders := s.senders + {t}) else n.(receivers := s.receivers + {t}))
  {
  }

  lemma BasePlacing(s: Q, step: Step)
    requires Base(s) && Can(s, step) && step.Place?
    ensures Base(Apply(s, step))
  {
    hide Base;
    OwnerIs(s, step.t);
    BasePlaced(s, step.t);
  }

  lemma BaseWokenTx(s: Q, t: Id, wakes: set<Id>)
    requires Base(s) && s.owner == Some(t) && t in s.pc && s.pc[t].UnlockTx? && wakes <= s.receivers
    ensures Base(At(s, t, UnlockRx(s.pc[t].c, s.pc[t].outcome)).(
      txLock := UNLOCKED, receivers := s.receivers - wakes, wokenReceivers := s.wokenReceivers + wakes))
  {
  }

  lemma BaseUnlockingTx(s: Q, step: Step)
    requires Base(s) && Can(s, step) && step.DoUnlockTx?
    ensures Base(Apply(s, step))
  {
    hide Base;
    OwnerIs(s, step.t);
    BaseWokenTx(s, step.t, step.wakes);
  }

  lemma BaseWokenRx(s: Q, t: Id, wakes: set<Id>)
    requires Base(s) && s.owner == Some(t) && t in s.pc && s.pc[t].UnlockRx? && wakes <= s.senders
    ensures Base(At(s, t, Resuming(s.pc[t].c, s.pc[t].outcome)).(
      rxLock := UNLOCKED, senders := s.senders - wakes, wokenSenders := s.wokenSenders + wakes))
  {
  }

  lemma BaseUnlocking(s: Q, step: Step)
    requires Base(s) && Can(s, step) && step.DoUnlockRx?
    ensures Base(Apply(s, step))
  {
    hide Base;
    OwnerIs(s, step.t);
    BaseWokenRx(s, step.t, step.wakes);
  }

  lemma BaseMove(s: Q, t: Id, p: Pc, count: nat)
    requires Base(s) && Running(s, t) && s.pc[t].Top? && count <= s.length
    requires p == Outside || p == Leaving(s.pc[t].c)
    ensures Base(At(s, t, p).(wokenReceivers := s.wokenReceivers - {t}, wokenSenders := s.wokenSenders - {t}, count := count))
  {
  }

  lemma BaseTrying(s: Q, step: Step)
    requires Base(s) && Can(s, step) && step.TryNow?
    ensures Base(Apply(s, step))
  {
    hide Base;
    var TryNow(t, wait, overwrite, w) := step;
    BaseCount(s);
    var filled := if s.pc[t].c == Receive then s.count - 1 else if s.pc[t].c == Peek then s.count else Filled(s);
    BaseMove(s, t, if wait then Leaving(s.pc[t].c) else Outside, s.count);
    if filled >= 0 {
      BaseMove(s, t, Outside, filled);
      var done := At(s, t, Outside).(
        wokenReceivers := s.wokenReceivers - {t}, wokenSenders := s.wokenSenders - {t}, count := filled);
      BaseWake(done, w);
    }
  }

  /** A task on no list goes on outside the suspended sections. */
  lemma BaseFree(s: Q, t: Id, p: Pc)
    requires Base(s) && t in s.pc && (s.pc[t].Outside? || s.pc[t].Recheck?) && !InSuspension(p)
    ensures Base(At(s, t, p))
  {
  }

  lemma BaseTask(s: Q, step: Step)
    requires Base(s) && Can(s, step) && (step.Enter? || step.LastLook?)
    ensures Base(Apply(s, step))
  {
    hide Base;
    match step {
      case Enter(t, c) => BaseFree(s, t, Top(c));
      case LastLook(t) => BaseFree(s, t, if s.count == 0 then Outside else Top(s.pc[t].c));
    }
  }

  lemma BaseComesBack(s: Q, t: Id)
    requires Base(s) && t in s.pc && s.pc[t].Waiting? && OffLists(s, t)
    ensures Base(At(s, t, Top(s.pc[t].c)))
  {
  }

  lemma BaseReturning(s: Q, step: Step)
    requires Base(s) && Can(s, step) && step.Return?
    ensures Base(Apply(s, step))
  {
    hide Base;
    BaseComesBack(s, step.t);
  }

  lemma BaseSuspending(s: Q, step: Step)
    requires Base(s) && Can(s, step) && step.SuspendAll?
    ensures Base(Apply(s, step))
  {
  }

  lemma BaseStep(s: Q, step: Step)
    requires Base(s) && Can(s, step)
    ensures Base(Apply(s, step))
  {
    hide Base, Can, Apply;
    if step.IsrSend? || step.IsrReceive? || step.Reset? {
      BaseInterrupt(s, step);
    } else if step.NewTask? {
      BaseJoin(s, step.t);
    } else if step.KillTask? {
      BaseKill(s, step.t);
    } else if step.Leave? {
      BaseLeave(s, step.t);
    } else if step.LockQueue? {
      BaseLocking(s, step);
    } else if step.CheckAgain? {
      BaseChecking(s, step);
    } else if step.ResumeAll? {
      BaseResuming(s, step);
    } else if step.Place? {
      BasePlacing(s, step);
    } else if step.DoUnlockTx? {
      BaseUnlockingTx(s, step);
    } else if step.DoUnlockRx? {
      BaseUnlocking(s, step);
    } else if step.TryNow? {
      BaseTrying(s, step);
    } else if step.SuspendAll? {
      BaseSuspending(s, step);
    } else if step.Return? {
      BaseReturning(s, step);
    } else {
      BaseTask(s, step);
    }
  }

  // ---------- counting the woken ----------

  lemma OneMore(a: set<Id>, w: Id)
    ensures w !in a ==> |a + {w}| == |a| + 1
    ensures |a - {w}| >= |a| - 1
  {
    if w in a {
      assert a == (a - {w}) + {w};
    } else {
      assert a - {w} == a;
    }
  }

  /** Waking min(lock, |list|) tasks empties the list or wakes as many as the lock counted. */
  lemma ManyMore(list: set<Id>, woken: set<Id>, wakes: set<Id>, lock: int)
    requires wakes <= list && list !! woken && lock >= 0
    requires |wakes| == if lock <= 0 then 0 else if lock <= |list| then lock else |list|
    ensures lock >= |list| ==> list - wakes == {}
    ensures lock < |list| ==> |woken + wakes| == |woken| + lock
  {
    assert woken !! wakes;
    assert |list - wakes| == |list| - |wakes| by {
      assert list == (list - wakes) + wakes;
    }
  }

  lemma ListFits(s: Q)
    requires Base(s)
    ensures |s.receivers| <= |s.pc| && |s.senders| <= |s.pc|
  {
    Within(s.receivers, s.pc.Keys);
    Within(s.senders, s.pc.Keys);
  }

  lemma Within(a: set<Id>, b: set<Id>)
    requires a <= b
    ensures |a| <= |b|
  {
    assert b == a + (b - a);
  }

  lemma Facts(s: Q)
    requires Base(s)
    ensures s.count <= s.length && LocksMatch(s)
    ensures s.receivers !! s.wokenReceivers && s.senders !! s.wokenSenders
    ensures |s.receivers| <= |s.pc| && |s.senders| <= |s.pc|
  {
    ListFits(s);
  }

  /** A task outside the suspended sections runs only while the scheduler is not suspended. */
  lemma FreeToRun(s: Q, step: Step)
    requires Base(s) && Can(s, step) && !ByInterrupt(step) && !InKernel(step)
    ensures s.owner == None && s.txLock == UNLOCKED && s.rxLock == UNLOCKED
  {
  }

  lemma OwnerRuns(s: Q, step: Step)
    requires Base(s) && Can(s, step) && InKernel(step)
    ensures s.owner == Some(step.t)
  {
  }

  lemma TryingFacts(s: Q, t: Id)
    requires Base(s) && t in s.pc && s.pc[t].Top?
    ensures s.pc[t].c == Send ==> t !in s.wokenReceivers
    ensures s.pc[t].c != Send ==> t !in s.wokenSenders
  {
  }

  // ---------- receivers ----------

  lemma ReceiversIsrSend(s: Q, overwrite: bool, w: Id)
    requires Base(s) && ReceiversCovered(s) && Can(s, IsrSend(overwrite, w))
    ensures ReceiversCovered(Apply(s, IsrSend(overwrite, w)))
  {
    hide Base;
    Facts(s);
    OneMore(s.wokenReceivers, w);
  }

  lemma ReceiversInterrupt(s: Q, step: Step)
    requires Base(s) && ReceiversCovered(s) && Can(s, step) && ByInterrupt(step)
    ensures ReceiversCovered(Apply(s, step))
  {
    hide Base;
    if step.IsrSend? {
      ReceiversIsrSend(s, step.overwrite, step.woken);
    } else {
      Facts(s);
    }
  }

  lemma ReceiversKernel(s: Q, step: Step)
    requires Base(s) && ReceiversCovered(s) && Can(s, step) && InKernel(step)
    ensures ReceiversCovered(Apply(s, step))
  {
    hide Base;
    Facts(s);
    OwnerRuns(s, step);
    if step.DoUnlockTx? {
      ManyMore(s.receivers, s.wokenReceivers, step.wakes, s.txLock);
    }
  }

  /** With the scheduler running and the queue unlocked, covered means as many woken as there is to
      have. */
  lemma ReceiversPlainly(s: Q)
    requires s.owner == None && s.txLock == UNLOCKED
    ensures ReceiversCovered(s) <==> (s.receivers != {} ==> s.count <= |s.wokenReceivers|)
  {
  }

  /** A sender, or a peek that leaves the item, wakes a receiver. */
  lemma ReceiversOther(s: Q, t: Id, wait: bool, overwrite: bool, w: Id)
    requires Base(s) && ReceiversCovered(s) && t in s.pc && s.pc[t].Top? && s.pc[t].c != Receive
    requires s.owner == None && s.txLock == UNLOCKED && s.rxLock == UNLOCKED && HeadOf(s.receivers, w)
    ensures ReceiversCovered(Tried(s, t, wait, overwrite, w))
  {
    hide Base, ReceiversCovered;
    Facts(s);
    TryingFacts(s, t);
    OneMore(s.wokenReceivers, t);
    OneMore(s.wokenReceivers - {t}, w);
    ReceiversPlainly(s);
    ReceiversPlainly(Tried(s, t, wait, overwrite, w));
  }

  /** A receiver takes an item, or finds none. */
  lemma ReceiversReceive(s: Q, t: Id, wait: bool, overwrite: bool, w: Id)
    requires Base(s) && ReceiversCovered(s) && t in s.pc && s.pc[t] == Top(Receive)
    requires s.owner == None && s.txLock == UNLOCKED && s.rxLock == UNLOCKED && HeadOf(s.senders, w)
    ensures ReceiversCovered(Tried(s, t, wait, overwrite, w))
  {
    hide Base, ReceiversCovered;
    Facts(s);
    TryingFacts(s, t);
    OneMore(s.wokenReceivers, t);
    ReceiversPlainly(s);
    ReceiversPlainly(Tried(s, t, wait, overwrite, w));
  }

  lemma ReceiversTried(s: Q, t: Id, wait: bool, overwrite: bool, w: Id)
    requires Base(s) && ReceiversCovered(s) && t in s.pc && s.pc[t].Top?
    requires s.owner == None && s.txLock == UNLOCKED && s.rxLock == UNLOCKED
    requires HeadOf(if s.pc[t].c == Receive then s.senders else s.receivers, w)
    ensures ReceiversCovered(Tried(s, t, wait, overwrite, w))
  {
    hide Base, ReceiversCovered, Tried;
    if s.pc[t].c == Receive {
      ReceiversReceive(s, t, wait, overwrite, w);
    } else {
      ReceiversOther(s, t, wait, overwrite, w);
    }
  }

  lemma ReceiversTry(s: Q, step: Step)
    requires Base(s) && ReceiversCovered(s) && Can(s, step) && step.TryNow?
    ensures ReceiversCovered(Apply(s, step))
  {
    hide Base, ReceiversCovered, Tried;
    FreeToRun(s, step);
    ReceiversTried(s, step.t, step.wait, step.overwrite, step.woken);
  }

  lemma ReceiversTask(s: Q, step: Step)
    requires Base(s) && ReceiversCovered(s) && Can(s, step) && !ByInterrupt(step) && !InKernel(step)
    ensures ReceiversCovered(Apply(s, step))
  {
    hide Base;
    if step.TryNow? {
      ReceiversTry(s, step);
    } else {
      Facts(s);
      FreeToRun(s, step);
    }
  }

  // ---------- senders ----------

  lemma SendersIsrReceive(s: Q, w: Id)
    requires Base(s) && SendersCovered(s) && Can(s, IsrReceive(w))
    ensures SendersCovered(Apply(s, IsrReceive(w)))
  {
    hide Base;
    Facts(s);
    OneMore(s.wokenSenders, w);
  }

  lemma SendersInterrupt(s: Q, step: Step)
    requires Base(s) && SendersCovered(s) && Can(s, step) && ByInterrupt(step) && !step.Reset?
    ensures SendersCovered(Apply(s, step))
  {
    hide Base;
    if step.IsrReceive? {
      SendersIsrReceive(s, step.woken);
    } else {
      Facts(s);
    }
  }

  lemma SendersUnlock(s: Q, step: Step)
    requires Base(s) && SendersCovered(s) && Can(s, step) && step.DoUnlockRx?
    ensures SendersCovered(Apply(s, step))
  {
    hide Base;
    Facts(s);
    OwnerRuns(s, step);
    ManyMore(s.senders, s.wokenSenders, step.wakes, s.rxLock);
  }

  lemma SendersKernel(s: Q, step: Step)
    requires Base(s) && SendersCovered(s) && Can(s, step) && InKernel(step)
    ensures SendersCovered(Apply(s, step))
  {
    hide Base;
    if step.DoUnlockRx? {
      SendersUnlock(s, step);
    } else {
      Facts(s);
      OwnerRuns(s, step);
    }
  }

  /** With the scheduler running and the queue unlocked, covered means as many woken as there is to
      have. */
  lemma SendersPlainly(s: Q)
    requires s.owner == None && s.rxLock == UNLOCKED
    ensures SendersCovered(s) <==> (s.senders != {} ==> s.length - s.count <= |s.wokenSenders|)
  {
  }

  /** A receiver wakes a sender for the place it makes. */
  lemma SendersReceive(s: Q, t: Id, wait: bool, overwrite: bool, w: Id)
    requires Base(s) && SendersCovered(s) && t in s.pc && s.pc[t] == Top(Receive)
    requires s.owner == None && s.txLock == UNLOCKED && s.rxLock == UNLOCKED && HeadOf(s.senders, w)
    ensures SendersCovered(Tried(s, t, wait, overwrite, w))
  {
    hide Base, SendersCovered;
    Facts(s);
    TryingFacts(s, t);
    assert s.wokenSenders - {t} == s.wokenSenders;
    OneMore(s.wokenSenders, w);
    SendersPlainly(s);
    SendersPlainly(Tried(s, t, wait, overwrite, w));
  }

  /** A sender takes a place, or finds none; nobody else touches the places. */
  lemma SendersOther(s: Q, t: Id, wait: bool, overwrite: bool, w: Id)
    requires Base(s) && SendersCovered(s) && t in s.pc && s.pc[t].Top? && s.pc[t].c != Receive
    requires s.owner == None && s.txLock == UNLOCKED && s.rxLock == UNLOCKED && HeadOf(s.receivers, w)
    ensures SendersCovered(Tried(s, t, wait, overwrite, w))
  {
    hide Base, SendersCovered;
    Facts(s);
    TryingFacts(s, t);
    OneMore(s.wokenSenders, t);
    SendersPlainly(s);
    SendersPlainly(Tried(s, t, wait, overwrite, w));
  }

  lemma SendersTried(s: Q, t: Id, wait: bool, overwrite: bool, w: Id)
    requires Base(s) && SendersCovered(s) && t in s.pc && s.pc[t].Top?
    requires s.owner == None && s.txLock == UNLOCKED && s.rxLock == UNLOCKED
    requires HeadOf(if s.pc[t].c == Receive then s.senders else s.receivers, w)
    ensures SendersCovered(Tried(s, t, wait, overwrite, w))
  {
    hide Base, SendersCovered, Tried;
    if s.pc[t].c == Receive {
      SendersReceive(s, t, wait, overwrite, w);
    } else {
      SendersOther(s, t, wait, overwrite, w);
    }
  }

  lemma SendersTry(s: Q, step: Step)
    requires Base(s) && SendersCovered(s) && Can(s, step) && step.TryNow?
    ensures SendersCovered(Apply(s, step))
  {
    hide Base, SendersCovered, Tried;
    FreeToRun(s, step);
    SendersTried(s, step.t, step.wait, step.overwrite, step.woken);
  }

  lemma SendersTask(s: Q, step: Step)
    requires Base(s) && SendersCovered(s) && Can(s, step) && !ByInterrupt(step) && !InKernel(step)
    ensures SendersCovered(Apply(s, step))
  {
    hide Base;
    if step.TryNow? {
      SendersTry(s, step);
    } else {
      Facts(s);
      FreeToRun(s, step);
    }
  }

  /** A reset is harmless to senders if at most one waits, or enough have been woken already. */
  predicate Harmless(s: Q, step: Step) {
    step.Reset? ==> |s.senders| <= 1 || s.length <= |s.wokenSenders| + 1
  }

  lemma ResetLeaves(s: Q, w: Id)
    requires Base(s) && Can(s, Reset(w)) && s.senders != {}
    ensures w in s.senders && s.senders !! s.wokenSenders
    ensures var r := Apply(s, Reset(w));
      && r.owner == None && r.rxLock == UNLOCKED && r.length == s.length && r.count == 0
      && r.senders == s.senders - {w} && r.wokenSenders == s.wokenSenders + {w}
  {
    hide Base;
    Facts(s);
  }

  lemma OneLeft(a: set<Id>, w: Id)
    requires w in a
    ensures |a - {w}| == |a| - 1 && (|a| <= 1 <==> a - {w} == {})
  {
    assert a == (a - {w}) + {w};
  }

  /** xQueueGenericReset frees every place but wakes one sender: the others are covered if and only if
      there are none, or enough woken senders are on their way already. */
  lemma ResetCoversSenders(s: Q, w: Id)
    requires Base(s) && Can(s, Reset(w)) && s.senders != {}
    ensures SendersCovered(Apply(s, Reset(w))) <==> Harmless(s, Reset(w))
  {
    hide Base, SendersCovered, Can, Apply;
    ResetLeaves(s, w);
    SendersPlainly(Apply(s, Reset(w)));
    OneMore(s.wokenSenders, w);
    OneLeft(s.senders, w);
  }

  lemma ResetWithoutSenders(s: Q, w: Id)
    requires Base(s) && Can(s, Reset(w)) && s.senders == {}
    ensures SendersCovered(Apply(s, Reset(w)))
  {
  }

  /** Every step keeps senders covered, but for a reset that is not harmless, which does not. */
  lemma CoversExactly(s: Q, step: Step)
    requires Base(s) && SendersCovered(s) && Can(s, step)
    ensures SendersCovered(Apply(s, step)) <==> Harmless(s, step)
  {
    hide Base, SendersCovered, Apply, Can;
    if step.Reset? {
      if s.senders == {} {
        ResetWithoutSenders(s, step.woken);
      } else {
        ResetCoversSenders(s, step.woken);
      }
    } else {
      SendersStep(s, step);
    }
  }

  // ---------- runs ----------

  ghost predicate Safe(s: Q) {
    Base(s) && ReceiversCovered(s)
  }

  lemma SafeStep(s: Q, step: Step)
    requires Safe(s) && Can(s, step)
    ensures Safe(Apply(s, step))
  {
    hide Base, ReceiversCovered, Can, Apply;
    BaseStep(s, step);
    if ByInterrupt(step) {
      ReceiversInterrupt(s, step);
    } else if InKernel(step) {
      ReceiversKernel(s, step);
    } else {
      ReceiversTask(s, step);
    }
  }

  lemma SendersStep(s: Q, step: Step)
    requires Base(s) && SendersCovered(s) && Can(s, step) && !step.Reset?
    ensures SendersCovered(Apply(s, step))
  {
    hide Base, SendersCovered, Can, Apply;
    if ByInterrupt(step) {
      SendersInterrupt(s, step);
    } else if InKernel(step) {
      SendersKernel(s, step);
    } else {
      SendersTask(s, step);
    }
  }

  ghost predicate Run(s: Q, steps: seq<Step>)
    decreases |steps|
  {
    steps != [] ==> Can(s, steps[0]) && Run(Apply(s, steps[0]), steps[1..])
  }

  ghost function After(s: Q, steps: seq<Step>): Q
    requires Run(s, steps)
    decreases |steps|
  {
    if steps == [] then s else After(Apply(s, steps[0]), steps[1..])
  }

  /** An empty queue no task uses. */
  function Fresh(length: nat, tasks: set<Id>): Q {
    Q(length, 0, map t | t in tasks :: Outside, None, UNLOCKED, UNLOCKED, {}, {}, {}, {})
  }

  lemma FreshSafe(length: nat, tasks: set<Id>)
    requires length > 0 && |tasks| <= INT8_MAX
    ensures Safe(Fresh(length, tasks)) && SendersCovered(Fresh(length, tasks))
  {
    var s := Fresh(length, tasks);
    assert s.pc.Keys == tasks && |s.pc| == |s.pc.Keys|;
  }

  lemma {:induction false} RunSafe(s: Q, steps: seq<Step>)
    requires Safe(s) && Run(s, steps)
    ensures Safe(After(s, steps))
    decreases |steps|
  {
    hide Safe, Can, Apply;
    if steps != [] {
      SafeStep(s, steps[0]);
      RunSafe(Apply(s, steps[0]), steps[1..]);
    }
  }

  /** Every reset of the run is harmless where it is made. */
  ghost predicate HarmlessResets(s: Q, steps: seq<Step>)
    requires Run(s, steps)
    decreases |steps|
  {
    steps != [] ==> Harmless(s, steps[0]) && HarmlessResets(Apply(s, steps[0]), steps[1..])
  }

  /** Senders are covered throughout the run. */
  ghost predicate AlwaysCovered(s: Q, steps: seq<Step>)
    requires Run(s, steps)
    decreases |steps|
  {
    SendersCovered(s) && (steps != [] ==> AlwaysCovered(Apply(s, steps[0]), steps[1..]))
  }

  lemma {:induction false} CoveredAtEnd(s: Q, steps: seq<Step>)
    requires Run(s, steps) && AlwaysCovered(s, steps)
    ensures SendersCovered(After(s, steps))
    decreases |steps|
  {
    hide SendersCovered, Can, Apply;
    if steps != [] {
      CoveredAtEnd(Apply(s, steps[0]), steps[1..]);
    }
  }

  lemma {:induction false} RunSenders(s: Q, steps: seq<Step>)
    requires Safe(s) && SendersCovered(s) && Run(s, steps)
    ensures AlwaysCovered(s, steps) <==> HarmlessResets(s, steps)
    decreases |steps|
  {
    hide Base, ReceiversCovered, SendersCovered, Harmless, Can, Apply;
    if steps != [] {
      SafeStep(s, steps[0]);
      CoversExactly(s, steps[0]);
      if Harmless(s, steps[0]) {
        RunSenders(Apply(s, steps[0]), steps[1..]);
      }
    }
  }

  /** No lost wake-up for receivers: after any run of tasks and interrupts, resets included, if the
      queue is unlocked and somebody waits to receive, every stored item is matched by a receiver that
      has been woken and has yet to come back for it. */
  lemma NoLostReceiver(length: nat, tasks: set<Id>, steps: seq<Step>)
    requires length > 0 && |tasks| <= INT8_MAX && Run(Fresh(length, tasks), steps)
    ensures var s := After(Fresh(length, tasks), steps);
      s.txLock == UNLOCKED && s.receivers != {} ==> s.count <= |s.wokenReceivers|
  {
    hide Run, After, Fresh, Base, AboutToBlock;
    FreshSafe(length, tasks);
    RunSafe(Fresh(length, tasks), steps);
  }

  /** No lost wake-up for senders, in runs whose resets are all harmless: the same for free places. */
  lemma NoLostSender(length: nat, tasks: set<Id>, steps: seq<Step>)
    requires length > 0 && |tasks| <= INT8_MAX && Run(Fresh(length, tasks), steps)
    requires HarmlessResets(Fresh(length, tasks), steps)
    ensures var s := After(Fresh(length, tasks), steps);
      s.rxLock == UNLOCKED && s.senders != {} ==> s.length - s.count <= |s.wokenSenders|
  {
    hide Run, After, Fresh, Base, AboutToBlock, HarmlessResets, AlwaysCovered;
    FreshSafe(length, tasks);
    RunSenders(Fresh(length, tasks), steps);
    CoveredAtEnd(Fresh(length, tasks), steps);
  }

  /** And in no others: senders are covered at every moment of a run exactly if its resets are all
      harmless. */
  lemma SendersCoveredExactly(length: nat, tasks: set<Id>, steps: seq<Step>)
    requires length > 0 && |tasks| <= INT8_MAX && Run(Fresh(length, tasks), steps)
    ensures AlwaysCovered(Fresh(length, tasks), steps) <==> HarmlessResets(Fresh(length, tasks), steps)
  {
    hide Run, Fresh, Safe, SendersCovered, HarmlessResets, AlwaysCovered;
    FreshSafe(length, tasks);
    RunSenders(Fresh(length, tasks), steps);
  }

  /** In every run the queue is locked only while a task keeps the scheduler suspended inside a queue
      call, the int8_t lock counts never exceed the number of tasks, so never overflow, and no task
      waits on both lists. */
  lemma LockDiscipline(length: nat, tasks: set<Id>, steps: seq<Step>)
    requires length > 0 && |tasks| <= INT8_MAX && Run(Fresh(length, tasks), steps)
    ensures var s := After(Fresh(length, tasks), steps);
      && UNLOCKED <= s.txLock <= |s.pc| <= INT8_MAX && UNLOCKED <= s.rxLock <= |s.pc|
      && (s.owner == None ==> s.txLock == UNLOCKED && s.rxLock == UNLOCKED)
      && s.count <= s.length && s.receivers !! s.senders
  {
    hide Run, After, Fresh, ReceiversCovered;
    FreshSafe(length, tasks);
    RunSafe(Fresh(length, tasks), steps);
  }

  // ---------- the count ----------

  /** The step is a try to put an item in, by a task or an interrupt ... */
  predicate Puts(s: Q, step: Step) {
    (step.TryNow? && step.t in s.pc && s.pc[step.t] == Top(Send)) || step.IsrSend?
  }

  /** ... or to take one out. */
  predicate Takes(s: Q, step: Step) {
    (step.TryNow? && step.t in s.pc && s.pc[step.t] == Top(Receive)) || step.IsrReceive?
  }

  /** Every try succeeds if it can, and nothing else but a reset changes the count. */
  lemma CountStep(s: Q, step: Step)
    requires Can(s, step) && s.count <= s.length
    ensures Apply(s, step).count ==
      if step.Reset? then 0
      else if Puts(s, step) && s.count < s.length then s.count + 1
      else if Takes(s, step) && s.count > 0 then s.count - 1
      else s.count
    ensures Apply(s, step).length == s.length && !(Puts(s, step) && Takes(s, step))
  {
  }

  /** How a try ends: the task returns if there was an item or a place for it, or if it may not wait, and is
      on its way to block otherwise; nobody else moves, and a task that waited for the item or the place,
      if any did, has been woken for it. */
  lemma TryEnds(s: Q, t: Id, wait: bool, overwrite: bool, w: Id)
    requires Can(s, TryNow(t, wait, overwrite, w))
    ensures t in s.pc && s.pc[t].Top?
    ensures var r, c := Apply(s, TryNow(t, wait, overwrite, w)), s.pc[t].c;
      var succeeds := if c == Send then s.count < s.length || overwrite else s.count > 0;
      && r.pc == s.pc[t := if succeeds || !wait then Outside else Leaving(c)] && r.owner == s.owner
      && (succeeds && c == Receive && s.senders != {} ==>
            r.senders == s.senders - {w} && w in r.wokenSenders && r.receivers == s.receivers)
      && (succeeds && c != Receive && s.receivers != {} ==>
            r.receivers == s.receivers - {w} && w in r.wokenReceivers && r.senders == s.senders)
      && (!succeeds ==> r.receivers == s.receivers && r.senders == s.senders)
  {
  }

  function PutIn(s: Q, steps: seq<Step>): nat
    requires Run(s, steps)
    decreases |steps|
  {
    if steps == [] then 0
    else (if Puts(s, steps[0]) && s.count < s.length then 1 else 0) + PutIn(Apply(s, steps[0]), steps[1..])
  }

  function TakenOut(s: Q, steps: seq<Step>): nat
    requires Run(s, steps)
    decreases |steps|
  {
    if steps == [] then 0
    else (if Takes(s, steps[0]) && s.count > 0 then 1 else 0) + TakenOut(Apply(s, steps[0]), steps[1..])
  }

  /** In every interleaving without a reset what has been put in is what has been taken out and what is
      still there. */
  lemma {:induction false} ItemsCounted(s: Q, steps: seq<Step>)
    requires Run(s, steps) && s.count <= s.length
    requires forall i :: 0 <= i < |steps| ==> !steps[i].Reset?
    ensures s.count + PutIn(s, steps) == TakenOut(s, steps) + After(s, steps).count
    ensures After(s, steps).count <= s.length
    decreases |steps|
  {
    hide Can, Apply, Puts, Takes;
    if steps != [] {
      CountStep(s, steps[0]);
      ItemsCounted(Apply(s, steps[0]), steps[1..]);
    }
  }

  /** The steps by which task t blocks sending to a full queue. */
  function BlockSending(t: Id): seq<Step> {
    [Enter(t, Send), TryNow(t, true, false, t), SuspendAll(t), LockQueue(t), CheckAgain(t, false), Place(t),
     DoUnlockTx(t, {}), DoUnlockRx(t, {}), ResumeAll(t)]
  }

  lemma RunOne(s: Q, step: Step, rest: seq<Step>)
    requires Can(s, step) && Run(Apply(s, step), rest)
    ensures Run(s, [step] + rest) && After(s, [step] + rest) == After(Apply(s, step), rest)
  {
    hide Can, Apply;
    assert ([step] + rest)[1..] == rest;
  }

  lemma RunNone(s: Q)
    ensures Run(s, []) && After(s, []) == s
  {
  }

  lemma {:induction false} RunJoin(s: Q, a: seq<Step>, b: seq<Step>)
    requires Run(s, a) && Run(After(s, a), b)
    ensures Run(s, a + b) && After(s, a + b) == After(After(s, a), b)
    decreases |a|
  {
    hide Can, Apply;
    if a == [] {
      assert a + b == b;
    } else {
      assert (a + b)[1..] == a[1..] + b;
      RunJoin(Apply(s, a[0]), a[1..], b);
    }
  }

  /** A full queue that nobody has locked, and a task outside of it. */
  ghost predicate Full(s: Q, t: Id) {
    && s.owner == None && s.txLock == UNLOCKED && s.rxLock == UNLOCKED && s.count == s.length
    && t in s.pc && s.pc[t] == Outside && t !in s.wokenReceivers && t !in s.wokenSenders
    && s.receivers == {}
  }

  lemma StepIs(s: Q, step: Step, r: Q)
    requires Can(s, step) && Apply(s, step) == r
    ensures Run(s, [step]) && After(s, [step]) == r
  {
    hide Can, Apply;
    RunNone(r);
    RunOne(s, step, []);
    assert [step] + [] == [step];
  }

  /** Two steps, one after the other. */
  lemma StepsAre(s: Q, a: seq<Step>, m: Q, b: seq<Step>, r: Q)
    requires Run(s, a) && After(s, a) == m && Run(m, b) && After(m, b) == r
    ensures Run(s, a + b) && After(s, a + b) == r
  {
    hide Run, After;
    RunJoin(s, a, b);
  }

  lemma FindsFull(s: Q, t: Id)
    requires Full(s, t)
    ensures Run(s, [Enter(t, Send)] + [TryNow(t, true, false, t)])
    ensures After(s, [Enter(t, Send)] + [TryNow(t, true, false, t)]) == At(s, t, Leaving(Send))
  {
    hide Run, After;
    var m, r := At(s, t, Top(Send)), At(s, t, Leaving(Send));
    assert Apply(s, Enter(t, Send)) == m;
    assert Apply(m, TryNow(t, true, false, t)) == r;
    StepIs(s, Enter(t, Send), m);
    StepIs(m, TryNow(t, true, false, t), r);
    StepsAre(s, [Enter(t, Send)], m, [TryNow(t, true, false, t)], r);
  }

  lemma LocksUp(s: Q, t: Id)
    requires Running(s, t) && s.pc[t] == Leaving(Send) && s.txLock == UNLOCKED && s.rxLock == UNLOCKED
    ensures Run(s, [SuspendAll(t)] + [LockQueue(t)])
    ensures After(s, [SuspendAll(t)] + [LockQueue(t)]) ==
      At(s, t, Locked(Send)).(owner := Some(t), txLock := LOCKED_UNMODIFIED, rxLock := LOCKED_UNMODIFIED)
  {
    hide Run, After;
    var m := At(s, t, Suspended(Send)).(owner := Some(t));
    var r := At(s, t, Locked(Send)).(owner := Some(t), txLock := LOCKED_UNMODIFIED, rxLock := LOCKED_UNMODIFIED);
    assert Apply(m, LockQueue(t)) == r;
    StepIs(s, SuspendAll(t), m);
    StepIs(m, LockQueue(t), r);
    StepsAre(s, [SuspendAll(t)], m, [LockQueue(t)], r);
  }

  lemma GoesToSleep(s: Q, t: Id)
    requires Running(s, t) && s.pc[t] == Locked(Send) && s.count == s.length
    ensures Run(s, [CheckAgain(t, false)] + [Place(t)])
    ensures After(s, [CheckAgain(t, false)] + [Place(t)]) ==
      At(s, t, UnlockTx(Send, Blocked)).(senders := s.senders + {t})
  {
    hide Run, After;
    var m := At(s, t, WillBlock(Send));
    var r := At(s, t, UnlockTx(Send, Blocked)).(senders := s.senders + {t});
    assert Apply(m, Place(t)) == r;
    StepIs(s, CheckAgain(t, false), m);
    StepIs(m, Place(t), r);
    StepsAre(s, [CheckAgain(t, false)], m, [Place(t)], r);
  }

  lemma UnlocksTx(s: Q, t: Id)
    requires s.owner == Some(t) && t in s.pc && s.pc[t] == UnlockTx(Send, Blocked) && s.txLock == LOCKED_UNMODIFIED
    ensures Run(s, [DoUnlockTx(t, {})])
    ensures After(s, [DoUnlockTx(t, {})]) == At(s, t, UnlockRx(Send, Blocked)).(txLock := UNLOCKED)
  {
    hide Run, After;
    assert s.receivers - {} == s.receivers && s.wokenReceivers + {} == s.wokenReceivers;
    StepIs(s, DoUnlockTx(t, {}), At(s, t, UnlockRx(Send, Blocked)).(txLock := UNLOCKED));
  }

  lemma UnlocksRx(s: Q, t: Id)
    requires s.owner == Some(t) && t in s.pc && s.pc[t] == UnlockRx(Send, Blocked) && s.rxLock == LOCKED_UNMODIFIED
    ensures Run(s, [DoUnlockRx(t, {})])
    ensures After(s, [DoUnlockRx(t, {})]) == At(s, t, Resuming(Send, Blocked)).(rxLock := UNLOCKED)
  {
    hide Run, After;
    assert s.senders - {} == s.senders && s.wokenSenders + {} == s.wokenSenders;
    StepIs(s, DoUnlockRx(t, {}), At(s, t, Resuming(Send, Blocked)).(rxLock := UNLOCKED));
  }

  lemma UnlocksBoth(s: Q, t: Id)
    requires s.owner == Some(t) && t in s.pc && s.pc[t] == UnlockTx(Send, Blocked)
    requires s.txLock == LOCKED_UNMODIFIED && s.rxLock == LOCKED_UNMODIFIED
    ensures Run(s, [DoUnlockTx(t, {})] + [DoUnlockRx(t, {})])
    ensures After(s, [DoUnlockTx(t, {})] + [DoUnlockRx(t, {})]) ==
      At(s, t, Resuming(Send, Blocked)).(txLock := UNLOCKED, rxLock := UNLOCKED)
  {
    hide Run, After;
    var m := At(s, t, UnlockRx(Send, Blocked)).(txLock := UNLOCKED);
    var r := At(s, t, Resuming(Send, Blocked)).(txLock := UNLOCKED, rxLock := UNLOCKED);
    assert r == At(m, t, Resuming(Send, Blocked)).(rxLock := UNLOCKED);
    UnlocksTx(s, t);
    UnlocksRx(m, t);
    StepsAre(s, [DoUnlockTx(t, {})], m, [DoUnlockRx(t, {})], r);
  }

  lemma Sleeps(s: Q, t: Id)
    requires s.owner == Some(t) && t in s.pc && s.pc[t] == Resuming(Send, Blocked)
    ensures Run(s, [ResumeAll(t)]) && After(s, [ResumeAll(t)]) == At(s, t, Waiting(Send)).(owner := None)
  {
    hide Run, After;
    StepIs(s, ResumeAll(t), At(s, t, Waiting(Send)).(owner := None));
  }

  lemma Blocks(s: Q, t: Id)
    requires Full(s, t)
    ensures Run(s, BlockSending(t))
    ensures After(s, BlockSending(t)) == At(s, t, Waiting(Send)).(senders := s.senders + {t})
  {
    hide Run, After;
    var s1 := At(s, t, Leaving(Send));
    var s2 := At(s, t, Locked(Send)).(owner := Some(t), txLock := LOCKED_UNMODIFIED, rxLock := LOCKED_UNMODIFIED);
    var s3 := At(s2, t, UnlockTx(Send, Blocked)).(senders := s.senders + {t});
    var s4 := At(s3, t, Resuming(Send, Blocked)).(txLock := UNLOCKED, rxLock := UNLOCKED);
    var s5 := At(s, t, Waiting(Send)).(senders := s.senders + {t});
    FindsFull(s, t);
    LocksUp(s1, t);
    GoesToSleep(s2, t);
    UnlocksBoth(s3, t);
    Sleeps(s4, t);
    var a, b := [Enter(t, Send)] + [TryNow(t, true, false, t)], [SuspendAll(t)] + [LockQueue(t)];
    var c, d := [CheckAgain(t, false)] + [Place(t)], [DoUnlockTx(t, {})] + [DoUnlockRx(t, {})];
    StepsAre(s3, d, s4, [ResumeAll(t)], s5);
    StepsAre(s2, c, s3, d + [ResumeAll(t)], s5);
    StepsAre(s1, b, s2, c + (d + [ResumeAll(t)]), s5);
    StepsAre(s, a, s1, b + (c + (d + [ResumeAll(t)])), s5);
    assert BlockSending(t) == a + (b + (c + (d + [ResumeAll(t)])));
  }

  /** Two interrupts fill a queue of length two, tasks 1 and 2 block on it, and it is reset. */
  function Stranding(): seq<Step> {
    [IsrSend(false, 0), IsrSend(false, 0)] + (BlockSending(1) + (BlockSending(2) + [Reset(1)]))
  }

  /** A reset can leave a sender asleep in front of free places, in a run from a fresh queue: one of the
      two senders is woken and the other sleeps on with two places free. */
  lemma ResetStrandsSender()
    ensures Run(Fresh(2, {1, 2}), Stranding())
    ensures var s := After(Fresh(2, {1, 2}), Stranding());
      && s.senders == {2} && s.length - s.count == 2 && s.wokenSenders == {1} && s.owner == None
      && !SendersCovered(s)
  {
    hide Run, After, BlockSending;
    var s0 := Fresh(2, {1, 2});
    var s1 := s0.(count := 1);
    var s2 := s0.(count := 2);
    var s3 := At(s2, 1, Waiting(Send)).(senders := s2.senders + {1});
    var s4 := At(s3, 2, Waiting(Send)).(senders := s3.senders + {2});
    StepIs(s0, IsrSend(false, 0), s1);
    StepIs(s1, IsrSend(false, 0), s2);
    Blocks(s2, 1);
    Blocks(s3, 2);
    ResetOne(s4);
    StepsAre(s3, BlockSending(2), s4, [Reset(1)], Apply(s4, Reset(1)));
    StepsAre(s2, BlockSending(1), s3, BlockSending(2) + [Reset(1)], Apply(s4, Reset(1)));
    var rest := BlockSending(1) + (BlockSending(2) + [Reset(1)]);
    StepsAre(s1, [IsrSend(false, 0)], s2, rest, Apply(s4, Reset(1)));
    StepsAre(s0, [IsrSend(false, 0)], s1, [IsrSend(false, 0)] + rest, Apply(s4, Reset(1)));
    assert Stranding() == [IsrSend(false, 0)] + ([IsrSend(false, 0)] + rest);
  }

  lemma ResetOne(s: Q)
    requires s.owner == None && s.senders == {} + {1} + {2} && s.wokenSenders == {} && s.length == 2
    ensures Can(s, Reset(1)) && Run(s, [Reset(1)]) && After(s, [Reset(1)]) == Apply(s, Reset(1))
    ensures var r := Apply(s, Reset(1));
      && r.senders == {2} && r.length - r.count == 2 && r.wokenSenders == {1} && r.owner == None
      && !SendersCovered(r)
  {
    assert {1, 2} - {1} == {2} && |{1}| == 1 && {} + {1} == {1};
    StepIs(s, Reset(1), Apply(s, Reset(1)));
  }

  // ---------- the unlock loops ----------

  /** The lock counts and event lists as prvUnlockQueue works on them, and the tasks it has passed to
      xTaskRemoveFromEventList so far. */
  class EventLists {
    var txLock: int
    var rxLock: int
    var toReceive: seq<Id>
    var toSend: seq<Id>
    var woken: seq<Id>

    constructor () {
      txLock, rxLock, toReceive, toSend, woken := UNLOCKED, UNLOCKED, [], [], [];
    }

    /** The first critical section of prvUnlockQueue. */
    method UnlockTx()
      modifies this`txLock, this`toReceive, this`woken
      ensures txLock == UNLOCKED
      ensures var n := WokenBy(old(txLock), |old(toReceive)|);
              woken == old(woken) + old(toReceive)[..n] && toReceive == old(toReceive)[n..]
    {
      var lock := txLock;
      ghost var n := 0;
      while lock > LOCKED_UNMODIFIED
        invariant 0 <= n <= |old(toReceive)| && (n > 0 ==> n <= old(txLock)) && lock == old(txLock) - n
        invariant woken == old(woken) + old(toReceive)[..n] && toReceive == old(toReceive)[n..]
      {
        if toReceive != [] {
          woken := woken + [toReceive[0]];
          toReceive := toReceive[1..];
          n := n + 1;
        } else {
          break;
        }
        lock := lock - 1;
      }
      txLock := UNLOCKED;
    }

    /** The second critical section. */
    method UnlockRx()
      modifies this`rxLock, this`toSend, this`woken
      ensures rxLock == UNLOCKED
      ensures var n := WokenBy(old(rxLock), |old(toSend)|);
              woken == old(woken) + old(toSend)[..n] && toSend == old(toSend)[n..]
    {
      var lock := rxLock;
      ghost var n := 0;
      while lock > LOCKED_UNMODIFIED
        invariant 0 <= n <= |old(toSend)| && (n > 0 ==> n <= old(rxLock)) && lock == old(rxLock) - n
        invariant woken == old(woken) + old(toSend)[..n] && toSend == old(toSend)[n..]
      {
        if toSend != [] {
          woken := woken + [toSend[0]];
          toSend := toSend[1..];
          n := n + 1;
          lock := lock - 1;
        } else {
          break;
        }
      }
      rxLock := UNLOCKED;
    }
  }

  function WokenBy(lock: int, waiting: nat): (n: nat)
    ensures n <= waiting
  {
    if lock <= 0 then 0 else if lock <= waiting then lock else waiting
  }

  function Elements(a: seq<Id>): set<Id> {
    set x | x in a
  }

  ghost predicate Distinct(a: seq<Id>) {
    forall i, j :: 0 <= i < j < |a| ==> a[i] != a[j]
  }

  lemma {:induction false} DistinctSize(a: seq<Id>)
    requires Distinct(a)
    ensures |Elements(a)| == |a|
  {
    if a != [] {
      var b, x := a[..|a| - 1], a[|a| - 1];
      DistinctSize(b);
      assert a == b + [x];
      assert Elements(a) == Elements(b) + {x};
    }
  }

  /** On a list without repetitions the loop makes exactly the step of the protocol: the tasks it wakes
      are a set of the size the step asks for, and the others stay. */
  lemma LoopIsStep(list: seq<Id>, lock: int)
    requires Distinct(list)
    ensures var n := WokenBy(lock, |list|);
      && Elements(list[..n]) <= Elements(list)
      && |Elements(list[..n])| == (if lock <= 0 then 0 else if lock <= |Elements(list)| then lock else |Elements(list)|)
      && Elements(list[n..]) == Elements(list) - Elements(list[..n])
  {
    var n := WokenBy(lock, |list|);
    DistinctSize(list);
    DistinctSize(list[..n]);
    assert list == list[..n] + list[n..];
    forall x | x in list[n..]
      ensures x !in list[..n]
    {
      var i :| 0 <= i < |list| - n && list[n..][i] == x;
      assert list[n + i] == x;
    }
  }
}
