/** Fairness of the walking pointer: how long an item of a ready list can wait for
    listGET_OWNER_OF_NEXT_ENTRY while other items come and go. */
module RoundRobin {
  import opened Rings

  type Item = nat

  datatype Step = Add(x: Item) | Drop(x: Item) | Advance

  predicate Can(r: Ring<Item>, s: Step) {
    match s
    case Add(x) => x !in r.items
    case Drop(x) => x in r.items
    case Advance => r.items != []
  }

  function Apply(r: Ring<Item>, s: Step): Ring<Item>
    requires r.index <= |r.items| && Can(r, s)
  {
    match s
    case Add(x) => InsertEnd(r, x)
    case Drop(x) => Remove(r, x)
    case Advance => Next(r)
  }

  /** How many items are visited before x, the end marker not counted. */
  function Rank(r: Ring<Item>, x: Item): nat
    requires r.index <= |r.items| && x in r.items
  {
    var p := Position(r.items, x);
    if p >= r.index then p - r.index else |r.items| - r.index + p
  }

  predicate AtIndex(r: Ring<Item>, x: Item) {
    1 <= r.index <= |r.items| && Selected(r) == x
  }

  /** Where an item other than the one added or dropped ends up. */
  lemma PositionAfter(r: Ring<Item>, s: Step, x: Item)
    requires r.Valid() && Can(r, s) && x in r.items && s != Drop(x)
    ensures Apply(r, s).Valid() && x in Apply(r, s).items
    ensures var p := Position(r.items, x);
            Position(Apply(r, s).items, x) ==
            match s
            case Add(_) => if r.index != 0 && r.index - 1 <= p then p + 1 else p
            case Drop(y) => if Position(r.items, y) < p then p - 1 else p
            case Advance => p
  {
    var n, p := Apply(r, s), Position(r.items, x);
    match s {
      case Add(y) =>
        var q := if r.index != 0 && r.index - 1 <= p then p + 1 else p;
        assert n.items[q] == x;
        PositionIs(n.items, x, q);
      case Drop(y) =>
        var q := if Position(r.items, y) < p then p - 1 else p;
        assert n.items[q] == x;
        PositionIs(n.items, x, q);
      case Advance =>
    }
  }

  /** One step seen from an item that stays in the list: every next-entry step either selects it,
      exactly when its rank is 0, or lowers its rank by one; a removal never raises the rank; and
      an insertion raises it exactly when pxIndex stands on the item, because insert-end puts the
      new item in front of pxIndex. */
  lemma RankStep(r: Ring<Item>, s: Step, x: Item)
    requires r.Valid() && Can(r, s) && x in r.items && s != Drop(x)
    ensures Apply(r, s).Valid() && x in Apply(r, s).items
    ensures s.Advance? ==> (AtIndex(Apply(r, s), x) <==> Rank(r, x) == 0)
    ensures s.Advance? && Rank(r, x) > 0 ==> Rank(Apply(r, s), x) == Rank(r, x) - 1
    ensures Rank(Apply(r, s), x) > Rank(r, x) <==>
            (s.Add? && AtIndex(r, x)) || (s.Advance? && Rank(r, x) == 0 && |r.items| > 1)
  {
    hide Position, InsertAt, Without, NoDup, AtIndex;
    PositionAfter(r, s, x);
    AtIndexIs(r, x);
    AtIndexIs(Apply(r, s), x);
  }

  lemma AtIndexIs(r: Ring<Item>, x: Item)
    requires r.Valid() && x in r.items
    ensures AtIndex(r, x) <==> r.index == Position(r.items, x) + 1
  {
    if AtIndex(r, x) {
      PositionIs(r.items, x, r.index - 1);
    }
  }

  /** What an item still has to wait for in a list of at most capacity items.  In front of pxIndex
      (towards the tail) it is just its distance; behind it pxIndex must first reach the tail, and
      insertions cannot delay that because they go in front of pxIndex. */
  function Wait(r: Ring<Item>, x: Item, capacity: nat): nat
    requires r.index <= |r.items| && x in r.items
  {
    var p := Position(r.items, x);
    if p >= r.index then p - r.index else capacity + |r.items| - r.index
  }

  lemma WaitBound(r: Ring<Item>, x: Item, capacity: nat)
    requires r.Valid() && x in r.items && |r.items| <= capacity
    ensures Wait(r, x, capacity) < 2 * capacity
  {
  }

  /** Insertions and removals of others never raise the measure, whatever the capacity; a next-entry step
      that does not select the item lowers it. */
  lemma WaitStep(r: Ring<Item>, s: Step, x: Item, capacity: nat)
    requires r.Valid() && Can(r, s) && x in r.items && s != Drop(x) && (s.Advance? ==> |r.items| <= capacity)
    ensures Apply(r, s).Valid() && x in Apply(r, s).items
    ensures !s.Advance? ==> Wait(Apply(r, s), x, capacity) <= Wait(r, x, capacity)
    ensures s.Advance? && !AtIndex(Apply(r, s), x) ==> Wait(Apply(r, s), x, capacity) < Wait(r, x, capacity)
  {
    hide Position, InsertAt, Without, NoDup, AtIndex;
    PositionAfter(r, s, x);
    AtIndexIs(Apply(r, s), x);
  }

  /** A run that keeps x in the list and never holds more than capacity items. */
  ghost predicate Run(r: Ring<Item>, steps: seq<Step>, x: Item, capacity: nat)
    requires r.Valid()
    decreases |steps|
  {
    && x in r.items && |r.items| <= capacity
    && (steps != [] ==>
          Can(r, steps[0]) && steps[0] != Drop(x) && Apply(r, steps[0]).Valid()
          && Run(Apply(r, steps[0]), steps[1..], x, capacity))
  }

  /** Some next-entry step of the run selects x. */
  ghost predicate Served(r: Ring<Item>, steps: seq<Step>, x: Item, capacity: nat)
    requires r.Valid() && Run(r, steps, x, capacity)
    decreases |steps|
  {
    steps != [] &&
    ((steps[0].Advance? && AtIndex(Apply(r, steps[0]), x)) || Served(Apply(r, steps[0]), steps[1..], x, capacity))
  }

  function Advances(steps: seq<Step>): nat {
    if steps == [] then 0 else (if steps[0].Advance? then 1 else 0) + Advances(steps[1..])
  }

  lemma {:induction false} WaitRunsDown(r: Ring<Item>, steps: seq<Step>, x: Item, capacity: nat)
    requires r.Valid() && Run(r, steps, x, capacity)
    requires Advances(steps) > Wait(r, x, capacity)
    ensures Served(r, steps, x, capacity)
    decreases |steps|
  {
    var s := steps[0];
    WaitStep(r, s, x, capacity);
    if !(s.Advance? && AtIndex(Apply(r, s), x)) {
      WaitRunsDown(Apply(r, s), steps[1..], x, capacity);
    }
  }

  /** Bounded wait, over every mix of insertions, removals and next-entry steps: with at most
      capacity items in the list at any time, an item that stays is selected at the latest by the
      2 * capacity-th next-entry step. */
  lemma BoundedWait(r: Ring<Item>, steps: seq<Step>, x: Item, capacity: nat)
    requires r.Valid() && Run(r, steps, x, capacity)
    requires Advances(steps) >= 2 * capacity
    ensures Served(r, steps, x, capacity)
  {
    WaitBound(r, x, capacity);
    WaitRunsDown(r, steps, x, capacity);
  }

  /** The rank alone is no bound: an item that pxIndex comes to rest on when the running item
      leaves is overtaken by every item inserted after that. */
  lemma OvertakenWhileAtIndex()
    ensures Rank(Ring([1, 2], 2), 1) == 0
    ensures Apply(Ring([1, 2], 2), Drop(2)) == Ring([1], 1)
    ensures Apply(Ring([1], 1), Add(3)) == Ring([3, 1], 2) && Rank(Ring([3, 1], 2), 1) == 1
  {
    PositionIs([1, 2], 2, 1);
    PositionIs([3, 1], 1, 1);
    assert Without([1, 2], 2) == [1];
    assert InsertAt([1], 0, 3) == [3, 1];
  }
}
