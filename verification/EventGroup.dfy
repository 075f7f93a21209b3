/** Event groups (FreeRTOS-Kernel/event_groups.c): tasks wait for any or all of some bits, a set wakes
    every satisfied waiter and then clears the bits those asked to have cleared. */
module EventGroup {
  import opened EventBits
  import opened Rings

  type Id = nat
  /** uxEventBits, xTasksWaitingForBits, and the value of each task's event list item. */
  datatype Group = Group(bits: Bits, waiting: seq<Id>, values: map<Id, Bits>)

  // ---------- setting bits ----------

  ghost predicate Known(g: Group) {
    NoDup(g.waiting) && forall t | t in g.waiting :: t in g.values
  }

  /** The waiters that stay. */
  function Staying(s: seq<Id>, values: map<Id, Bits>, current: Bits): (r: seq<Id>)
    requires forall t | t in s :: t in values
    ensures forall t :: t in r <==> t in s && !Satisfied(current, values[t])
  {
    if s == [] then []
    else
      var rest := Staying(s[..|s| - 1], values, current);
      if Satisfied(current, values[s[|s| - 1]]) then rest else rest + [s[|s| - 1]]
  }

  /** The bits the satisfied waiters ask to have cleared. */
  function ToClear(s: seq<Id>, values: map<Id, Bits>, current: Bits): Bits
    requires forall t | t in s :: t in values
  {
    if s == [] then 0
    else
      var v := values[s[|s| - 1]];
      Union(ToClear(s[..|s| - 1], values, current), if Satisfied(current, v) && WantsClear(v) then Payload(v) else 0)
  }

  /** The event list items once the satisfied waiters of the list have been given the bits. */
  function Marked(s: seq<Id>, values: map<Id, Bits>, current: Bits): map<Id, Bits> {
    map t | t in values :: if t in s && Satisfied(current, values[t]) then Delivered(current) else values[t]
  }

  function SetBits(g: Group, set_: Bits): Group
    requires forall t | t in g.waiting :: t in g.values
  {
    var current := Union(g.bits, set_);
    Group(Minus(current, ToClear(g.waiting, g.values, current)),
          Staying(g.waiting, g.values, current),
          Marked(g.waiting, g.values, current))
  }

  /** Waiter t is woken and has the bits of the mask cleared, or some of them. */
  predicate Clears(t: Id, values: map<Id, Bits>, current: Bits, mask: Bits)
    requires t in values
  {
    Satisfied(current, values[t]) && WantsClear(values[t]) && Has(Payload(values[t]), mask)
  }

  /** The cleared bits are exactly the union over the satisfied waiters that want their bits cleared. */
  lemma {:induction false} ToClearIsUnion(s: seq<Id>, values: map<Id, Bits>, current: Bits, mask: Bits)
    requires forall t | t in s :: t in values
    ensures Has(ToClear(s, values, current), mask) <==> exists t :: t in s && Clears(t, values, current, mask)
  {
    hide Satisfied, WantsClear, Payload, Has, Union;
    NoneHas(mask);
    if s != [] {
      var rest, last := s[..|s| - 1], s[|s| - 1];
      var v := values[last];
      ToClearIsUnion(rest, values, current, mask);
      UnionHas(ToClear(rest, values, current), if Satisfied(current, v) && WantsClear(v) then Payload(v) else 0, mask);
      assert s == rest + [last];
      if Has(ToClear(rest, values, current), mask) {
        var t :| t in rest && Clears(t, values, current, mask);
        assert t in s;
      } else if Clears(last, values, current, mask) {
        assert last in s;
      } else {
        assert forall t | t in s :: t in rest || t == last;
      }
    }
  }

  /** The order of the list does not matter: lists of the same waiters give the same bits, the same
      values and the same waiters left. */
  lemma OrderIndependent(g: Group, h: Group, set_: Bits)
    requires Known(g) && Known(h) && g.bits == h.bits && g.values == h.values
    requires forall t :: t in g.waiting <==> t in h.waiting
    ensures SetBits(g, set_).bits == SetBits(h, set_).bits
    ensures SetBits(g, set_).values == SetBits(h, set_).values
    ensures forall t :: t in SetBits(g, set_).waiting <==> t in SetBits(h, set_).waiting
  {
    hide Satisfied, WantsClear, Payload, Has, Union, Minus, Clears, ToClear, Delivered;
    var current := Union(g.bits, set_);
    forall mask
      ensures Has(ToClear(g.waiting, g.values, current), mask) <==> Has(ToClear(h.waiting, h.values, current), mask)
    {
      ToClearIsUnion(g.waiting, g.values, current, mask);
      ToClearIsUnion(h.waiting, h.values, current, mask);
    }
    SameBits(ToClear(g.waiting, g.values, current), ToClear(h.waiting, h.values, current));
  }

  // ---------- the calls ----------

  datatype Op =
    | Set(b: Bits)
    | Clear(b: Bits)
    | Wait(t: Id, wanted: Bits, clear: bool, all: bool, block: bool)
    | Sync(t: Id, b: Bits, wanted: Bits, block: bool)
    | TimeOut(t: Id)
    | Return(t: Id, wanted: Bits, clear: bool, all: bool, normal: Bits)

  ghost predicate Enabled(g: Group, op: Op) {
    match op
    case Set(b) => Plain(b)
    case Clear(b) => Plain(b)
    case Wait(t, wanted, _, _, _) => t !in g.waiting && Plain(wanted)
    case Sync(t, b, wanted, _) => t !in g.waiting && Plain(b) && Plain(wanted)
    case TimeOut(t) => t in g.waiting
    case Return(t, wanted, _, _, normal) => t !in g.waiting && t in g.values && !Has(normal, UNBLOCKED_BY_SET)
  }

  /** The task goes to the end of the list with its wish in its event list item. */
  function Blocked(g: Group, t: Id, wish: Bits): Group {
    g.(waiting := g.waiting + [t], values := g.values[t := wish])
  }

  /** xEventGroupWaitBits up to the point where it blocks, and its result if it does not. */
  function WaitBits(g: Group, t: Id, wanted: Bits, clear: bool, all: bool, block: bool): (Group, Bits) {
    if ConditionMet(g.bits, wanted, all) then
      (if clear then g.(bits := Minus(g.bits, wanted)) else g, g.bits)
    else if block then (Blocked(g, t, Wish(wanted, clear, all)), 0)
    else (g, g.bits)
  }

  /** xEventGroupSync up to the point where it blocks, and its result if it does not. */
  function SyncBits(g: Group, t: Id, b: Bits, wanted: Bits, block: bool): (Group, Bits)
    requires forall x | x in g.waiting :: x in g.values
  {
    var s := SetBits(g, b);
    if ConditionMet(Union(g.bits, b), wanted, true) then (s.(bits := Minus(s.bits, wanted)), Union(g.bits, b))
    else if block then (Blocked(s, t, Wish(wanted, true, true)), 0)
    else (s, s.bits)
  }

  /** The rest of both calls once the task runs again: without the mark it timed out, and looks at the
      bits once more. */
  function Returned(g: Group, t: Id, wanted: Bits, clear: bool, all: bool, normal: Bits): (Group, Bits)
    requires t in g.values
  {
    var v := g.values[t];
    var r := g.(values := g.values[t := normal]);
    if Has(v, UNBLOCKED_BY_SET) then (r, Payload(v))
    else if ConditionMet(g.bits, wanted, all) && clear then (r.(bits := Minus(g.bits, wanted)), Payload(g.bits))
    else (r, Payload(g.bits))
  }

  function Step(g: Group, op: Op): Group
    requires Known(g) && Enabled(g, op)
  {
    match op
    case Set(b) => SetBits(g, b)
    case Clear(b) => g.(bits := Minus(g.bits, b))
    case Wait(t, wanted, clear, all, block) => WaitBits(g, t, wanted, clear, all, block).0
    case Sync(t, b, wanted, block) => SyncBits(g, t, b, wanted, block).0
    case TimeOut(t) => g.(waiting := Without(g.waiting, t))
    case Return(t, wanted, clear, all, normal) => Returned(g, t, wanted, clear, all, normal).0
  }

  // ---------- which bits are set, and what the callers are told ----------

  /** After setting bits b the bit of the mask is set exactly if it was set or is in b, and no waiter that is
      woken wants it cleared. */
  ghost predicate SetLeaves(g: Group, b: Bits, mask: Bits)
    requires Known(g)
  {
    && (Has(g.bits, mask) || Has(b, mask))
    && !exists t :: t in g.waiting && Clears(t, g.values, Union(g.bits, b), mask)
  }

  lemma SetBit(g: Group, b: Bits, mask: Bits)
    requires Known(g) && Single(mask)
    ensures Has(SetBits(g, b).bits, mask) <==> SetLeaves(g, b, mask)
  {
    hide Has, Union, Minus, Clears, Single, Satisfied;
    var current := Union(g.bits, b);
    UnionHas(g.bits, b, mask);
    MinusHas(current, ToClear(g.waiting, g.values, current), mask);
    ToClearIsUnion(g.waiting, g.values, current, mask);
  }

  /** What a set does for the waiters: one whose condition is met by the old and the new bits leaves the list
      and is given exactly these bits, with the mark; the others wait on. */
  lemma SetDelivers(g: Group, b: Bits, t: Id)
    requires Known(g) && Plain(g.bits) && Plain(b) && t in g.values
    ensures var r := SetBits(g, b);
      && t in r.values
      && (t in r.waiting <==> t in g.waiting && !Satisfied(Union(g.bits, b), g.values[t]))
      && (if t in g.waiting && t !in r.waiting then
            Has(r.values[t], UNBLOCKED_BY_SET) && Payload(r.values[t]) == Union(g.bits, b)
          else r.values[t] == g.values[t])
  {
    hide Has, Union, Minus, Satisfied, ToClear, Plain, Payload, Delivered;
    PlainKept(g.bits, b);
    DeliveredMarked(Union(g.bits, b));
    DeliveredReads(Union(g.bits, b));
  }

  /** The bit of the mask after any step: the reference for runs. */
  ghost predicate BitAfter(g: Group, op: Op, mask: Bits)
    requires Known(g) && Enabled(g, op)
  {
    match op
    case Set(b) => SetLeaves(g, b, mask)
    case Clear(b) => Has(g.bits, mask) && !Has(b, mask)
    case Wait(_, wanted, clear, all, _) =>
      Has(g.bits, mask) && !(ConditionMet(g.bits, wanted, all) && clear && Has(wanted, mask))
    case Sync(_, b, wanted, _) =>
      SetLeaves(g, b, mask) && !(ConditionMet(Union(g.bits, b), wanted, true) && Has(wanted, mask))
    case TimeOut(_) => Has(g.bits, mask)
    case Return(t, wanted, clear, all, _) =>
      && Has(g.bits, mask)
      && !(!Has(g.values[t], UNBLOCKED_BY_SET) && ConditionMet(g.bits, wanted, all) && clear && Has(wanted, mask))
  }

  /** Every bit after every step. */
  lemma StepBit(g: Group, op: Op, mask: Bits)
    requires Known(g) && Enabled(g, op) && Single(mask)
    ensures Has(Step(g, op).bits, mask) <==> BitAfter(g, op, mask)
  {
    hide Has, Union, Minus, ConditionMet, SetBits, SetLeaves, Single, Payload, Wish, NoDup, Plain;
    match op {
      case Set(b) => SetBit(g, b, mask);
      case Clear(b) => MinusHas(g.bits, b, mask);
      case Wait(_, wanted, _, _, _) => MinusHas(g.bits, wanted, mask);
      case Sync(_, b, wanted, _) =>
        SetBit(g, b, mask);
        MinusHas(SetBits(g, b).bits, wanted, mask);
      case TimeOut(_) =>
      case Return(_, wanted, _, _, _) => MinusHas(g.bits, wanted, mask);
    }
  }

  /** A task that waits for bits goes on at once exactly if its condition is met or it would not block, and
      is told the bits as they were; otherwise it is the last of the list, and its event list item can be
      read back as its wish. */
  lemma WaitMeans(g: Group, t: Id, wanted: Bits, clear: bool, all: bool, block: bool)
    requires Plain(wanted)
    ensures var (r, told) := WaitBits(g, t, wanted, clear, all, block);
      if ConditionMet(g.bits, wanted, all) || !block then
        told == g.bits && r.waiting == g.waiting && r.values == g.values
      else
        && r.bits == g.bits && r.waiting == g.waiting + [t]
        && t in r.values && r.values == g.values[t := r.values[t]]
        && Payload(r.values[t]) == wanted && (WantsClear(r.values[t]) <==> clear) && (WantsAll(r.values[t]) <==> all)
  {
    hide ConditionMet, Minus, Wish, Payload, WantsClear, WantsAll;
    WishReads(wanted, clear, all);
  }

  /** The same for a rendezvous: if its bits complete it, or it would not block, it goes on, told the bits
      that completed it or those left. */
  lemma SyncMeans(g: Group, t: Id, b: Bits, wanted: Bits, block: bool)
    requires Known(g) && Plain(wanted)
    ensures var (r, told) := SyncBits(g, t, b, wanted, block); var s := SetBits(g, b);
      if ConditionMet(Union(g.bits, b), wanted, true) then
        told == Union(g.bits, b) && r.waiting == s.waiting && r.values == s.values
      else if !block then r == s && told == s.bits
      else
        && r.bits == s.bits && r.waiting == s.waiting + [t]
        && t in r.values && r.values == s.values[t := r.values[t]]
        && Payload(r.values[t]) == wanted && WantsClear(r.values[t]) && WantsAll(r.values[t])
  {
    hide ConditionMet, Minus, Union, Wish, Payload, WantsClear, WantsAll, SetBits;
    WishReads(wanted, true, true);
  }

  /** A task that runs again with the mark is told the bits it was given, and changes none; without it, it
      timed out, and is told the bits as they are then. */
  lemma ReturnMeans(g: Group, t: Id, wanted: Bits, clear: bool, all: bool, normal: Bits)
    requires Plain(g.bits) && t in g.values
    ensures var (r, told) := Returned(g, t, wanted, clear, all, normal);
      && r.waiting == g.waiting && r.values == g.values[t := normal]
      && if Has(g.values[t], UNBLOCKED_BY_SET) then told == Payload(g.values[t]) && r.bits == g.bits
         else told == g.bits
  {
    hide ConditionMet, Minus, Has;
  }

  /** A task that times out waits no longer; nothing else changes. */
  lemma TimeOutLeaves(g: Group, t: Id)
    requires Known(g) && Enabled(g, TimeOut(t))
    ensures var r := Step(g, TimeOut(t));
      && (forall x :: x in r.waiting <==> x in g.waiting && x != t)
      && NoDup(r.waiting) && r.bits == g.bits && r.values == g.values
  {
  }

  // ---------- no satisfied waiter remains ----------

  ghost predicate Unmet(g: Group, t: Id) {
    t in g.values && !Satisfied(g.bits, g.values[t]) && !Has(g.values[t], UNBLOCKED_BY_SET)
  }

  ghost predicate Inv(g: Group) {
    Known(g) && Plain(g.bits) && forall t | t in g.waiting :: Unmet(g, t)
  }

  lemma {:induction false} StayingNoDup(s: seq<Id>, values: map<Id, Bits>, current: Bits)
    requires NoDup(s) && forall t | t in s :: t in values
    ensures NoDup(Staying(s, values, current))
  {
    hide Satisfied;
    if s != [] {
      StayingNoDup(s[..|s| - 1], values, current);
      assert s[|s| - 1] !in s[..|s| - 1];
    }
  }

  lemma FewerSatisfyFewer(current: Bits, gone: Bits, v: Bits)
    requires Satisfied(Minus(current, gone), v)
    ensures Satisfied(current, v)
  {
    hide ConditionMet, Payload, WantsAll, Minus;
    FewerMeetFewer(current, gone, Payload(v), WantsAll(v));
  }

  /** Clearing bits satisfies nobody. */
  lemma ClearKeeps(g: Group, gone: Bits)
    requires Inv(g)
    ensures Inv(g.(bits := Minus(g.bits, gone)))
  {
    hide Satisfied, Minus, Has, Plain;
    PlainKept(g.bits, gone);
    forall t | t in g.waiting
      ensures !Satisfied(Minus(g.bits, gone), g.values[t])
    {
      assert Unmet(g, t);
      if Satisfied(Minus(g.bits, gone), g.values[t]) {
        FewerSatisfyFewer(g.bits, gone, g.values[t]);
      }
    }
  }

  /** Wake completeness: setting bits sets each bit that was or is asked to be set and that no woken waiter
      wants cleared, and no other; it leaves no waiter whose condition is met, neither by the bits as
      they were set nor by those that remain; and it wakes exactly the waiters that are satisfied by
      the old bits with the new ones. */
  lemma SetKeeps(g: Group, b: Bits)
    requires Inv(g) && Plain(b)
    ensures Inv(SetBits(g, b))
    ensures forall t | t in g.waiting ::
              t in SetBits(g, b).waiting <==> !Satisfied(Union(g.bits, b), g.values[t])
    ensures forall mask | Single(mask) :: Has(SetBits(g, b).bits, mask) <==> SetLeaves(g, b, mask)
  {
    hide Satisfied, Minus, Union, Has, Plain, ToClear, Delivered, SetLeaves, Single;
    forall mask | Single(mask)
      ensures Has(SetBits(g, b).bits, mask) <==> SetLeaves(g, b, mask)
    {
      SetBit(g, b, mask);
    }
    var current := Union(g.bits, b);
    var gone := ToClear(g.waiting, g.values, current);
    PlainKept(g.bits, b);
    PlainKept(current, gone);
    StayingNoDup(g.waiting, g.values, current);
    var r := SetBits(g, b);
    forall t | t in r.waiting
      ensures Unmet(r, t)
    {
      assert Unmet(g, t);
      if Satisfied(r.bits, r.values[t]) {
        FewerSatisfyFewer(current, gone, g.values[t]);
      }
    }
  }

  lemma BlockedKeeps(g: Group, t: Id, wanted: Bits, clear: bool, all: bool)
    requires Inv(g) && t !in g.waiting && Plain(wanted) && !ConditionMet(g.bits, wanted, all)
    ensures Inv(Blocked(g, t, Wish(wanted, clear, all)))
  {
    hide ConditionMet, Payload, WantsAll, Has, Plain, Wish;
    WishReads(wanted, clear, all);
    WishUnmarked(wanted, clear, all);
    var r := Blocked(g, t, Wish(wanted, clear, all));
    forall x | x in g.waiting
      ensures Unmet(r, x)
    {
      assert Unmet(g, x);
    }
  }

  /** When the rendezvous is not complete, what is left of the bits does not complete it either. */
  lemma SyncUnmet(g: Group, b: Bits, wanted: Bits)
    requires Known(g) && !ConditionMet(Union(g.bits, b), wanted, true)
    ensures !ConditionMet(SetBits(g, b).bits, wanted, true)
  {
    hide ConditionMet, Union, Minus;
    var current := Union(g.bits, b);
    if ConditionMet(SetBits(g, b).bits, wanted, true) {
      FewerMeetFewer(current, ToClear(g.waiting, g.values, current), wanted, true);
    }
  }

  lemma StepKeeps(g: Group, op: Op)
    requires Inv(g) && Enabled(g, op)
    ensures Inv(Step(g, op))
  {
    hide Satisfied, Minus, Union, Has, Plain, ConditionMet, Wish, Payload, SetBits, Blocked;
    match op {
      case Set(b) => SetKeeps(g, b);
      case Clear(b) => ClearKeeps(g, b);
      case Wait(t, wanted, clear, all, block) =>
        if ConditionMet(g.bits, wanted, all) {
          ClearKeeps(g, wanted);
        } else {
          BlockedKeeps(g, t, wanted, clear, all);
        }
      case Sync(t, b, wanted, block) =>
        SetKeeps(g, b);
        SetWaits(g, b);
        if ConditionMet(Union(g.bits, b), wanted, true) {
          ClearKeeps(SetBits(g, b), wanted);
        } else {
          SyncUnmet(g, b, wanted);
          BlockedKeeps(SetBits(g, b), t, wanted, true, true);
        }
      case TimeOut(t) => TimeOutKeeps(g, t);
      case Return(t, wanted, clear, all, normal) =>
        ValueKeeps(g, t, normal);
        ClearKeeps(g.(values := g.values[t := normal]), wanted);
    }
  }

  lemma SetWaits(g: Group, b: Bits)
    requires Known(g)
    ensures forall t | t in SetBits(g, b).waiting :: t in g.waiting
  {
  }

  lemma TimeOutKeeps(g: Group, t: Id)
    requires Inv(g)
    ensures Inv(g.(waiting := Without(g.waiting, t)))
  {
    hide Satisfied, Has, Plain;
    forall x | x in Without(g.waiting, t)
      ensures Unmet(g, x)
    {
    }
  }

  lemma ValueKeeps(g: Group, t: Id, v: Bits)
    requires Inv(g) && t !in g.waiting
    ensures Inv(g.(values := g.values[t := v]))
  {
    hide Satisfied, Has, Plain;
    forall x | x in g.waiting
      ensures Unmet(g.(values := g.values[t := v]), x)
    {
      assert Unmet(g, x);
    }
  }

  // ---------- runs ----------

  ghost predicate Run(g: Group, ops: seq<Op>)
    requires Inv(g)
    decreases |ops|
  {
    ops != [] ==> Enabled(g, ops[0]) && (StepKeeps(g, ops[0]); Run(Step(g, ops[0]), ops[1..]))
  }

  ghost function After(g: Group, ops: seq<Op>): Group
    requires Inv(g) && Run(g, ops)
    decreases |ops|
  {
    if ops == [] then g else (StepKeeps(g, ops[0]); After(Step(g, ops[0]), ops[1..]))
  }

  lemma InvKnown(g: Group)
    requires Inv(g)
    ensures Known(g)
  {
  }

  lemma {:induction false} RunKeeps(g: Group, ops: seq<Op>)
    requires Inv(g) && Run(g, ops)
    ensures Inv(After(g, ops))
    decreases |ops|
  {
    hide Known, Unmet, Plain, Enabled, Step;
    InvKnown(g);
    if ops != [] {
      StepKeeps(g, ops[0]);
      RunKeeps(Step(g, ops[0]), ops[1..]);
    }
  }

  /** A group just created: no bit is set and nobody waits. */
  ghost function Created(values: map<Id, Bits>): (g: Group)
    ensures Inv(g)
  {
    Group(0, [], values)
  }

  /** In no reachable state does a task wait whose condition the event bits meet. */
  lemma NoSatisfiedWaiter(values: map<Id, Bits>, ops: seq<Op>, t: Id)
    requires Run(Created(values), ops) && t in After(Created(values), ops).waiting
    ensures var g := After(Created(values), ops); t in g.values && !Satisfied(g.bits, g.values[t])
  {
    hide Satisfied, Has, Plain;
    RunKeeps(Created(values), ops);
    assert Unmet(After(Created(values), ops), t);
  }

  // ---------- what a woken task finds ----------

  ghost predicate IsSet(op: Op) {
    op.Set? || op.Sync?
  }

  /** The step is not a call of task t. */
  predicate Others(op: Op, t: Id) {
    match op
    case Wait(x, _, _, _, _) => x != t
    case Sync(x, _, _, _) => x != t
    case Return(x, _, _, _, _) => x != t
    case _ => true
  }

  /** What a task waits for. */
  datatype Want = Want(bits: Bits, clear: bool, all: bool)

  /** Task t waits for this. */
  ghost predicate Awaits(g: Group, t: Id, w: Want) {
    t in g.waiting && t in g.values && g.values[t] == Wish(w.bits, w.clear, w.all)
  }

  /** One of the steps is a set that takes t off the list and, if t asked for that, leaves all the bits it
      waited for clear. */
  ghost predicate ReleasedBySet(g: Group, ops: seq<Op>, t: Id, w: Want)
    requires Inv(g) && Run(g, ops)
    decreases |ops|
  {
    ops != [] && (StepKeeps(g, ops[0]);
      var r := Step(g, ops[0]);
      (IsSet(ops[0]) && t in g.waiting && t !in r.waiting && (w.clear ==> !Has(r.bits, w.bits)))
      || ReleasedBySet(r, ops[1..], t, w))
  }

  /** All bits task t wants cleared are among those the set clears. */
  lemma ClearedForWaiter(g: Group, current: Bits, t: Id)
    requires Known(g) && t in g.waiting && Satisfied(current, g.values[t]) && WantsClear(g.values[t])
    ensures Minus(Payload(g.values[t]), ToClear(g.waiting, g.values, current)) == 0
  {
    hide Satisfied, WantsClear, Payload, Has, Minus;
    var gone, mine := ToClear(g.waiting, g.values, current), Payload(g.values[t]);
    Separated(mine, gone);
    if Minus(mine, gone) != 0 {
      ClearedBits(g, current, t, Minus(mine, gone));
    }
  }

  lemma ClearedBits(g: Group, current: Bits, t: Id, mask: Bits)
    requires Known(g) && t in g.waiting && Clears(t, g.values, current, mask)
    ensures Has(ToClear(g.waiting, g.values, current), mask)
  {
    hide Clears, Has;
    ToClearIsUnion(g.waiting, g.values, current, mask);
  }

  /** Delivery by one set: a task it takes off the list finds the mark, and bits that meet its condition, in
      its event list item, and if it asked for that the same set has cleared its bits in the group. */
  lemma SetReleases(g: Group, b: Bits, t: Id, w: Want)
    requires Inv(g) && Plain(b) && Plain(w.bits) && Awaits(g, t, w)
    ensures var r := SetBits(g, b);
      && t in r.values
      && (t in r.waiting ==> Awaits(r, t, w))
      && (t !in r.waiting ==>
            && Has(r.values[t], UNBLOCKED_BY_SET) && ConditionMet(Payload(r.values[t]), w.bits, w.all)
            && (w.clear ==> !Has(r.bits, w.bits)))
  {
    hide Plain, Has, Union, Minus, Payload, WantsAll, WantsClear, ConditionMet, Wish, Delivered, ToClear;
    var current := Union(g.bits, b);
    WishReads(w.bits, w.clear, w.all);
    PlainKept(g.bits, b);
    if t !in SetBits(g, b).waiting {
      DeliveredMarked(current);
      DeliveredReads(current);
      if w.clear {
        ClearedForWaiter(g, current, t);
        TakenAway(current, ToClear(g.waiting, g.values, current), w.bits);
      }
    }
  }

  /** What any step by others does to a task that waits. */
  ghost predicate StepGoal(g: Group, op: Op, t: Id, w: Want, r: Group) {
    && t in r.values
    && (t in r.waiting ==> Awaits(r, t, w))
    && (t !in r.waiting && Has(r.values[t], UNBLOCKED_BY_SET) ==>
          && IsSet(op) && ConditionMet(Payload(r.values[t]), w.bits, w.all)
          && (w.clear ==> !Has(r.bits, w.bits)))
  }

  lemma SyncStep(g: Group, x: Id, b: Bits, wanted: Bits, block: bool, t: Id, w: Want)
    requires Inv(g) && Enabled(g, Sync(x, b, wanted, block)) && x != t && Plain(w.bits) && Awaits(g, t, w)
    ensures StepGoal(g, Sync(x, b, wanted, block), t, w, Step(g, Sync(x, b, wanted, block)))
  {
    hide Plain, Has, Union, Minus, Payload, Satisfied, ConditionMet, Wish, SetBits, NoDup, Unmet;
    SetReleases(g, b, t, w);
    if t !in SetBits(g, b).waiting && w.clear {
      StaysAway(SetBits(g, b).bits, wanted, w.bits);
    }
  }

  lemma OtherStep(g: Group, op: Op, t: Id, w: Want)
    requires Inv(g) && Enabled(g, op) && Others(op, t) && Plain(w.bits) && Awaits(g, t, w) && !IsSet(op)
    ensures StepGoal(g, op, t, w, Step(g, op))
  {
    hide Plain, Has, Union, Minus, Payload, Satisfied, ConditionMet, Wish, NoDup, Unmet;
    WishUnmarked(w.bits, w.clear, w.all);
  }

  lemma WaiterStep(g: Group, op: Op, t: Id, w: Want)
    requires Inv(g) && Enabled(g, op) && Others(op, t) && Plain(w.bits) && Awaits(g, t, w)
    ensures StepGoal(g, op, t, w, Step(g, op))
  {
    hide Plain, Has, Payload, ConditionMet, SetBits, SyncBits, NoDup, Unmet;
    match op {
      case Set(b) => SetReleases(g, b, t, w);
      case Sync(x, b, wanted, block) => SyncStep(g, x, b, wanted, block, t, w);
      case _ => OtherStep(g, op, t, w);
    }
  }

  lemma SetItem(g: Group, set_: Bits, t: Id)
    requires Known(g) && t in g.values && t !in g.waiting
    ensures var r := SetBits(g, set_); t in r.values && t !in r.waiting && r.values[t] == g.values[t]
  {
    hide NoDup, Union, Minus, Satisfied, ToClear;
  }

  lemma ItemStep(g: Group, op: Op, t: Id)
    requires Inv(g) && Enabled(g, op) && t in g.values && t !in g.waiting && Others(op, t)
    ensures var r := Step(g, op); t in r.values && t !in r.waiting && r.values[t] == g.values[t]
  {
    hide Plain, Has, Union, Minus, Payload, Satisfied, ConditionMet, Wish, SetBits, NoDup, Unmet;
    match op {
      case Set(b) => SetItem(g, b, t);
      case Sync(_, b, _, _) => SetItem(g, b, t);
      case _ =>
    }
  }

  /** A task that is off the list and has not run yet keeps its event list item. */
  lemma {:induction false} ItemKept(g: Group, ops: seq<Op>, t: Id)
    requires Inv(g) && Run(g, ops) && t in g.values && t !in g.waiting
    requires forall i :: 0 <= i < |ops| ==> Others(ops[i], t)
    ensures var r := After(g, ops); t in r.values && t !in r.waiting && r.values[t] == g.values[t]
    decreases |ops|
  {
    hide Plain, Has, Step, Enabled, Known, Unmet;
    if ops != [] {
      InvKnown(g);
      StepKeeps(g, ops[0]);
      ItemStep(g, ops[0], t);
      ItemKept(Step(g, ops[0]), ops[1..], t);
    }
  }

  /** Delivery over whole runs: whatever sets, clears, waits, time-outs and rendezvous happen between a task
      blocking and its running again, if it then finds the mark it was released by a set, which cleared
      the bits it waited for if it asked for that, and the value it returns meets its condition. */
  lemma {:induction false} WaitIsMet(g: Group, ops: seq<Op>, t: Id, w: Want, normal: Bits)
    requires Inv(g) && Run(g, ops) && Plain(w.bits) && Awaits(g, t, w)
    requires forall i :: 0 <= i < |ops| ==> Others(ops[i], t)
    ensures var r := After(g, ops);
      && t in r.values
      && (Has(r.values[t], UNBLOCKED_BY_SET) ==>
            && t !in r.waiting
            && ReleasedBySet(g, ops, t, w)
            && ConditionMet(Returned(r, t, w.bits, w.clear, w.all, normal).1, w.bits, w.all))
    decreases |ops|
  {
    hide Plain, Has, Payload, ConditionMet, Wish, Step, Enabled, Known, Unmet;
    WishUnmarked(w.bits, w.clear, w.all);
    if ops != [] {
      var r := Step(g, ops[0]);
      InvKnown(g);
      StepKeeps(g, ops[0]);
      WaiterStep(g, ops[0], t, w);
      if t in r.waiting {
        WaitIsMet(r, ops[1..], t, w, normal);
      } else {
        ItemKept(r, ops[1..], t);
      }
    }
  }

  /** A rendezvous: a task that blocked in xEventGroupSync and finds the mark returns all the bits it waited
      for, and the set that released it cleared them all. */
  lemma Rendezvous(g: Group, ops: seq<Op>, t: Id, wanted: Bits, normal: Bits)
    requires Inv(g) && Run(g, ops) && Plain(wanted) && Awaits(g, t, Want(wanted, true, true))
    requires forall i :: 0 <= i < |ops| ==> Others(ops[i], t)
    ensures var r := After(g, ops);
      && t in r.values
      && (Has(r.values[t], UNBLOCKED_BY_SET) ==>
            && ReleasedBySet(g, ops, t, Want(wanted, true, true))
            && Minus(wanted, Returned(r, t, wanted, true, true, normal).1) == 0)
  {
    hide Plain, Has, Payload, ConditionMet, Minus, Run, After, Returned, ReleasedBySet, Known, Unmet;
    WaitIsMet(g, ops, t, Want(wanted, true, true), normal);
    AllThere(Returned(After(g, ops), t, wanted, true, true, normal).1, wanted);
  }

  lemma AllThere(current: Bits, wanted: Bits)
    ensures ConditionMet(current, wanted, true) ==> Minus(wanted, current) == 0
  {
  }

  // ---------- the event group itself ----------

  lemma NobodyYet(values: map<Id, Bits>, current: Bits)
    ensures Staying([], values, current) == [] && ToClear([], values, current) == 0
    ensures Marked([], values, current) == values
  {
  }

  /** One more event list item looked at. */
  lemma NextMark(items: seq<Id>, i: nat, values: map<Id, Bits>, current: Bits)
    requires NoDup(items) && i < |items| && forall t | t in items :: t in values
    ensures var t, marked := items[i], Marked(items[..i], values, current);
      && t in marked && marked[t] == values[t]
      && Marked(items[..i + 1], values, current) ==
           (if Satisfied(current, values[t]) then marked[t := Delivered(current)] else marked)
  {
    hide Satisfied, Delivered;
    assert items[..i + 1] == items[..i] + [items[i]];
    assert forall x :: x in items[..i + 1] <==> x in items[..i] || x == items[i];
    assert items[i] !in items[..i];
  }

  /** One more waiter looked at. */
  lemma NextItem(items: seq<Id>, i: nat, values: map<Id, Bits>, current: Bits)
    requires NoDup(items) && i < |items| && forall t | t in items :: t in values
    ensures var t, stay, rest := items[i], Staying(items[..i], values, current), items[i + 1..];
      && (if Satisfied(current, values[t]) then
            Without(stay + items[i..], t) == Staying(items[..i + 1], values, current) + rest
          else stay + items[i..] == Staying(items[..i + 1], values, current) + rest)
      && ToClear(items[..i + 1], values, current) ==
           if Satisfied(current, values[t]) && WantsClear(values[t]) then
             Union(ToClear(items[..i], values, current), Payload(values[t]))
           else ToClear(items[..i], values, current)
  {
    hide Satisfied, Payload, WantsClear, Union;
    var t, rest := items[i], items[i + 1..];
    var stay := Staying(items[..i], values, current);
    assert items[..i + 1][..i] == items[..i];
    assert items[..i + 1] == items[..i] + [t];
    assert stay + items[i..] == stay + [t] + rest;
    WithoutMiddle(stay, t, rest);
    UnionNone(ToClear(items[..i], values, current));
  }

  class EventGroup {
    var bits: Bits
    var waiting: seq<Id>
    var values: map<Id, Bits>

    constructor (values: map<Id, Bits>)
      ensures State() == Group(0, [], values)
    {
      bits, waiting := 0, [];
      this.values := values;
    }

    ghost function State(): Group
      reads this
    {
      Group(bits, waiting, values)
    }

    /** The loop body of xEventGroupSetBits: a waiter whose condition is met gets the bits and leaves the
        list; if it asked for that, its bits are to be cleared. */
    method Look(t: Id, toClear: Bits) returns (clear: Bits)
      requires t in values
      modifies this`waiting, this`values
      ensures var v := old(values[t]);
        if Satisfied(bits, v) then
          && clear == (if WantsClear(v) then Union(toClear, Payload(v)) else toClear)
          && values == old(values)[t := Delivered(bits)] && waiting == Without(old(waiting), t)
        else
          clear == toClear && values == old(values) && waiting == old(waiting)
    {
      hide Satisfied, Payload, WantsClear, Delivered, Union, Without;
      clear := toClear;
      if Satisfied(bits, values[t]) {
        if WantsClear(values[t]) {
          clear := Union(clear, Payload(values[t]));
        }
        values := values[t := Delivered(bits)];
        waiting := Without(waiting, t);
      }
    }

    /** xEventGroupSetBits, while it keeps the scheduler suspended: walk the list as it was, taking
        matching tasks off it. */
    method Set(b: Bits)
      requires Known(State())
      modifies this
      ensures State() == SetBits(old(State()), b)
    {
      hide Satisfied, Payload, WantsClear, Delivered, Union, Minus, Staying, ToClear, Marked, NoDup, Without;
      ghost var was := values;
      var items := waiting;
      bits := Union(bits, b);
      var toClear: Bits := 0;
      NobodyYet(was, bits);
      assert items[..0] == [] && items[0..] == items;
      for i := 0 to |items|
        invariant bits == Union(old(bits), b)
        invariant waiting == Staying(items[..i], was, bits) + items[i..]
        invariant toClear == ToClear(items[..i], was, bits)
        invariant values == Marked(items[..i], was, bits)
      {
        NextItem(items, i, was, bits);
        NextMark(items, i, was, bits);
        toClear := Look(items[i], toClear);
      }
      assert items[..|items|] == items && items[|items|..] == [];
      bits := Minus(bits, toClear);
    }

    /** xEventGroupClearBits: the result is the value before. */
    method Clear(b: Bits) returns (before: Bits)
      requires Known(State()) && Plain(b)
      modifies this`bits
      ensures State() == Step(old(State()), Op.Clear(b)) && before == old(bits)
    {
      before := bits;
      bits := Minus(bits, b);
    }

    /** vTaskPlaceOnUnorderedEventList as the event group sees it. */
    method Place(t: Id, wish: Bits)
      modifies this`waiting, this`values
      ensures State() == Blocked(old(State()), t, wish)
    {
      waiting := waiting + [t];
      values := values[t := wish];
    }

    /** xEventGroupWaitBits up to the point where the task blocks. */
    method Wait(t: Id, wanted: Bits, clear: bool, all: bool, block: bool) returns (blocked: bool, result: Bits)
      modifies this
      ensures (State(), result) == WaitBits(old(State()), t, wanted, clear, all, block)
      ensures blocked <==> block && !ConditionMet(old(bits), wanted, all)
    {
      hide ConditionMet, Minus, Wish;
      blocked, result := false, bits;
      if ConditionMet(bits, wanted, all) {
        if clear {
          bits := Minus(bits, wanted);
        }
      } else if block {
        Place(t, Wish(wanted, clear, all));
        blocked, result := true, 0;
      }
    }

    /** xEventGroupSync up to the point where the task blocks. */
    method Sync(t: Id, b: Bits, wanted: Bits, block: bool) returns (blocked: bool, result: Bits)
      requires Known(State())
      modifies this
      ensures (State(), result) == SyncBits(old(State()), t, b, wanted, block)
      ensures blocked <==> block && !ConditionMet(Union(old(bits), b), wanted, true)
    {
      hide ConditionMet, Minus, Union, Wish, SetBits;
      var original := bits;
      Set(b);
      blocked := false;
      if ConditionMet(Union(original, b), wanted, true) {
        result := Union(original, b);
        bits := Minus(bits, wanted);
      } else if block {
        Place(t, Wish(wanted, true, true));
        blocked, result := true, 0;
      } else {
        result := bits;
      }
    }

    /** The end of both calls, when the task that blocked runs again. */
    method Return(t: Id, wanted: Bits, clear: bool, all: bool, normal: Bits) returns (result: Bits)
      requires t in values
      modifies this`bits, this`values
      ensures (State(), result) == Returned(old(State()), t, wanted, clear, all, normal)
    {
      hide ConditionMet, Minus, Has, Payload;
      result := values[t];
      values := values[t := normal];
      if !Has(result, UNBLOCKED_BY_SET) {
        result := bits;
        if ConditionMet(result, wanted, all) {
          if clear {
            bits := Minus(bits, wanted);
          }
        }
      }
      result := Payload(result);
    }
  }
}
