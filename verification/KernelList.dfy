/** The circular doubly linked list of FreeRTOS-Kernel/list.c and include/list.h at pointer level.
    The ghost sequence nodes is the ring from the end marker on; every operation rewires a handful
    of pointers and is proved to act on the abstract view as the function of module Rings says. */
module KernelList {
  import opened Words
  import opened Rings

  class ListItem {
    var value: Tick
    var next: ListItem?
    var previous: ListItem?
    var owner: object?
    var container: List?

    /** vListInitialiseItem: not recorded as being on any list. */
    constructor (value: Tick, owner: object?)
      ensures this.value == value && this.owner == owner && container == null
    {
      this.value := value;
      this.owner := owner;
      next, previous, container := null, null, null;
    }
  }

  function After(i: nat, n: nat): nat {
    if i + 1 == n then 0 else i + 1
  }

  function Before(i: nat, n: nat): nat
    requires i < n
  {
    if i == 0 then n - 1 else i - 1
  }

  ghost predicate Linked(nodes: seq<ListItem>)
    reads nodes`next, nodes`previous
  {
    && (forall i {:trigger nodes[i].next} :: 0 <= i < |nodes| ==> nodes[i].next == nodes[After(i, |nodes|)])
    && (forall i {:trigger nodes[i].previous} :: 0 <= i < |nodes| ==> nodes[i].previous == nodes[Before(i, |nodes|)])
  }

  /** Every link of the ring holds except the two between position q and the one after it. */
  ghost predicate LinkedBut(nodes: seq<ListItem>, q: nat)
    reads nodes`next, nodes`previous
  {
    && (forall i {:trigger nodes[i].next} :: 0 <= i < |nodes| && i != q ==>
          nodes[i].next == nodes[After(i, |nodes|)])
    && (forall i {:trigger nodes[i].previous} :: 0 <= i < |nodes| && i != After(q, |nodes|) ==>
          nodes[i].previous == nodes[Before(i, |nodes|)])
  }

  /** A ring but for the link behind position q, which runs through x instead, is a ring with x
      spliced in. */
  lemma Spliced(nodes: seq<ListItem>, q: nat, x: ListItem, r: seq<ListItem>)
    requires q < |nodes| && LinkedBut(nodes, q)
    requires |r| == |nodes| + 1
    requires forall i {:trigger r[i]} :: 0 <= i < |r| ==>
               r[i] == if i <= q then nodes[i] else if i == q + 1 then x else nodes[i - 1]
    requires x.previous == nodes[q] && nodes[q].next == x
    requires x.next == nodes[After(q, |nodes|)] && nodes[After(q, |nodes|)].previous == x
    ensures Linked(r)
  {
    var n := |nodes|;
    forall i | 0 <= i < |r|
      ensures r[i].next == r[After(i, n + 1)] && r[i].previous == r[Before(i, n + 1)]
    {
      var k := if i <= q then i else i - 1;
      if i != q + 1 {
        assert k != q ==> nodes[k].next == nodes[After(k, n)];
        assert k != After(q, n) ==> nodes[k].previous == nodes[Before(k, n)];
      }
    }
  }

  /** The node at position p is no other node, and item is none. */
  lemma Apart(nodes: seq<ListItem>, p: nat, item: ListItem)
    requires NoDup(nodes) && p < |nodes| && item !in nodes
    ensures forall i {:trigger nodes[i]} :: 0 <= i < |nodes| ==> nodes[i] != item && (i != p ==> nodes[i] != nodes[p])
  {
  }

  lemma InsertBehindMarker<T>(s: seq<T>, q: nat, x: T)
    requires q < |s|
    ensures InsertAt(s, q + 1, x)[1..] == InsertAt(s[1..], q, x)
  {
  }

  /** Every link holds except those to and from position q, which is bypassed. */
  ghost predicate Bypassed(nodes: seq<ListItem>, q: nat)
    requires q < |nodes|
    reads nodes`next, nodes`previous
  {
    var n := |nodes|;
    && (forall i {:trigger nodes[i].next} :: 0 <= i < n && i != q ==>
          nodes[i].next == if i == Before(q, n) then nodes[After(q, n)] else nodes[After(i, n)])
    && (forall i {:trigger nodes[i].previous} :: 0 <= i < n && i != q ==>
          nodes[i].previous == if i == After(q, n) then nodes[Before(q, n)] else nodes[Before(i, n)])
  }

  lemma RemovedIs(nodes: seq<ListItem>, q: nat, i: nat)
    requires q < |nodes| && i < |nodes| - 1
    ensures |Removed(nodes, q)| == |nodes| - 1 && Removed(nodes, q)[i] == nodes[if i < q then i else i + 1]
  {
    RemovedAt(nodes, q);
  }

  lemma BypassedAt(nodes: seq<ListItem>, q: nat, k: nat)
    requires q < |nodes| && k < |nodes| && k != q && Bypassed(nodes, q)
    ensures nodes[k].next == nodes[if k == Before(q, |nodes|) then After(q, |nodes|) else After(k, |nodes|)]
    ensures nodes[k].previous == nodes[if k == After(q, |nodes|) then Before(q, |nodes|) else Before(k, |nodes|)]
  {
  }

  lemma Unspliced(nodes: seq<ListItem>, q: nat)
    requires 1 <= q < |nodes| && Bypassed(nodes, q)
    ensures Linked(Removed(nodes, q))
  {
    hide Bypassed, Removed;
    var n, r := |nodes|, Removed(nodes, q);
    RemovedIs(nodes, q, 0);
    forall i | 0 <= i < |r|
      ensures r[i].next == r[After(i, n - 1)] && r[i].previous == r[Before(i, n - 1)]
    {
      RemovedIs(nodes, q, i);
      RemovedIs(nodes, q, After(i, n - 1));
      RemovedIs(nodes, q, Before(i, n - 1));
      BypassedAt(nodes, q, if i < q then i else i + 1);
    }
  }

  lemma RemovedBehindMarker<T>(s: seq<T>, q: nat, x: T)
    requires 1 <= q < |s| && x in s[1..] && q == 1 + Position(s[1..], x)
    ensures Removed(s, q)[1..] == Without(s[1..], x)
  {
  }

  class List {
    const end: ListItem
    var index: ListItem
    var length: nat
    ghost var nodes: seq<ListItem>
    ghost var at: nat

    ghost predicate Valid()
      reads this, nodes
    {
      && 1 <= |nodes| && nodes[0] == end
      && NoDup(nodes)
      && Linked(nodes)
      && end.value == MAX_DELAY
      && at < |nodes| && index == nodes[at]
      && length == |nodes| - 1
      && forall i {:trigger nodes[i].container} :: 1 <= i < |nodes| ==> nodes[i].container == this
    }

    /** The items from the head on, and where index stands among them. */
    ghost function View(): (r: Ring<ListItem>)
      requires Valid()
      reads this, nodes
      ensures r.Valid()
    {
      Ring(nodes[1..], at)
    }

    ghost function Values(): seq<nat>
      requires Valid()
      reads this, nodes
    {
      seq(|nodes| - 1, i requires 0 <= i < |nodes| - 1 reads this, nodes => nodes[i + 1].value)
    }

    /** vListInitialise */
    constructor ()
      ensures Valid() && fresh(end) && View() == Empty()
      ensures fresh(nodes)
    {
      var marker := new ListItem(MAX_DELAY, null);
      end := marker;
      index := marker;
      length := 0;
      nodes := [marker];
      at := 0;
      new;
      marker.next := marker;
      marker.previous := marker;
    }

    /** Everything Valid says but the links around position q, which run through item. */
    ghost predicate Opened(q: nat, item: ListItem)
      reads this, nodes, item
    {
      && q < |nodes| && nodes[0] == end && NoDup(nodes) && item !in nodes
      && LinkedBut(nodes, q)
      && item.previous == nodes[q] && nodes[q].next == item
      && item.next == nodes[After(q, |nodes|)] && nodes[After(q, |nodes|)].previous == item
      && end.value == MAX_DELAY
      && at < |nodes| && index == nodes[at]
      && length == |nodes| - 1
      && forall i {:trigger nodes[i].container} :: 1 <= i < |nodes| ==> nodes[i].container == this
    }

    /** The common tail of both inserts: remember the container and count the item. */
    method Adopt(ghost q: nat, item: ListItem)
      requires Opened(q, item)
      modifies this`length, this`nodes, this`at, item`container
      ensures Valid() && index == old(index)
      ensures View() == Rings.Insert(Ring(old(nodes[1..]), old(at)), q, item)
    {
      hide Linked, LinkedBut, InsertAt, After;
      ghost var was := nodes;
      InsertBehindMarker(was, q, item);
      item.container := this;
      length := length + 1;
      nodes := InsertAt(was, q + 1, item);
      at := if q < at then at + 1 else at;
      Spliced(was, q, item, nodes);
    }

    /** vListInsertEnd: rewire the item in front of index. */
    method InsertEnd(item: ListItem)
      requires Valid()
      requires item.container == null && item !in nodes
      modifies this`length, this`nodes, this`at, nodes`next, nodes`previous
      modifies item`next, item`previous, item`container
      ensures Valid() && index == old(index)
      ensures View() == Rings.InsertEnd(old(View()), item)
    {
      hide Rings.Insert, NoDup;
      ghost var q := Before(at, |nodes|);
      Apart(nodes, q, item);
      Apart(nodes, at, item);
      assert index.previous == nodes[q] && After(q, |nodes|) == at;
      item.next := index;
      item.previous := index.previous;
      index.previous.next := item;
      index.previous := item;
      Adopt(q, item);
    }

    /** vListInsert: walk from the end marker to the last item whose value does not exceed the new
        one.  The marker holds the greatest value, so the walk ends there at the latest; for the
        greatest value itself the walk would not end and the last item is taken directly. */
    method Insert(item: ListItem)
      requires Valid()
      requires item.container == null && item !in nodes
      modifies this`length, this`nodes, this`at, nodes`next, nodes`previous
      modifies item`next, item`previous, item`container
      ensures Valid() && index == old(index)
      ensures View() == Rings.Insert(old(View()), SortedPosition(old(Values()), item.value), item)
    {
      var v := item.value;
      var cursor;
      ghost var q;
      if v == MAX_DELAY {
        cursor := end.previous;
        q := |nodes| - 1;
      } else {
        cursor := end;
        q := 0;
        while cursor.next.value <= v
          invariant q < |nodes| && cursor == nodes[q]
          invariant forall i {:trigger nodes[i].value} :: 1 <= i <= q ==> nodes[i].value <= v
          decreases |nodes| - q
        {
          cursor := cursor.next;
          q := q + 1;
        }
        assert nodes[After(q, |nodes|)].value > v;
      }
      assert q == SortedPosition(Values(), v) by {
        assert forall i :: 0 <= i < q ==> Values()[i] == nodes[i + 1].value;
        SortedPositionUnique(Values(), v, q);
      }
      Hook(q, cursor, item);
    }

    /** The four pointer writes at the end of vListInsert. */
    method Hook(ghost q: nat, cursor: ListItem, item: ListItem)
      requires Valid() && item.container == null && item !in nodes
      requires q < |nodes| && cursor == nodes[q]
      modifies this`length, this`nodes, this`at, nodes`next, nodes`previous
      modifies item`next, item`previous, item`container
      ensures Valid() && index == old(index)
      ensures View() == Rings.Insert(old(View()), q, item)
    {
      hide Rings.Insert, NoDup;
      Apart(nodes, q, item);
      Apart(nodes, After(q, |nodes|), item);
      assert cursor.next == nodes[After(q, |nodes|)];
      item.next := cursor.next;
      item.next.previous := item;
      item.previous := cursor;
      cursor.next := item;
      Adopt(q, item);
    }

    /** listGET_OWNER_OF_NEXT_ENTRY, for a list that is not empty. */
    method OwnerOfNextEntry() returns (owner: object?)
      requires Valid() && length > 0
      modifies this`index, this`at
      ensures Valid()
      ensures View() == Next(old(View()))
      ensures owner == Selected(View()).owner
    {
      assert index.next == nodes[After(at, |nodes|)];
      index := index.next;
      at := After(at, |nodes|);
      if index == end {
        assert index.next == nodes[After(at, |nodes|)];
        index := index.next;
        at := 1;
      }
      owner := index.owner;
    }

    /** The tail of a removal: forget the container and count the item out. */
    method Release(ghost q: nat, item: ListItem)
      requires 1 <= q < |nodes| && nodes[q] == item && q == 1 + Position(nodes[1..], item)
      requires nodes[0] == end && NoDup(nodes) && Bypassed(nodes, q) && end.value == MAX_DELAY
      requires at < |nodes| && index == nodes[if at == q then at - 1 else at] && length == |nodes| - 1
      requires forall i {:trigger nodes[i].container} :: 1 <= i < |nodes| ==> nodes[i].container == this
      modifies this`length, this`nodes, this`at, item`container
      ensures Valid() && item.container == null && length == old(length) - 1
      ensures View() == Rings.Remove(Ring(old(nodes[1..]), old(at)), item)
    {
      hide Linked, Bypassed, Removed, Without, Position;
      ghost var was := nodes;
      RemovedAt(was, q);
      RemovedBehindMarker(was, q, item);
      item.container := null;
      length := length - 1;
      nodes := Removed(was, q);
      at := if q <= at then at - 1 else at;
      Unspliced(was, q);
      forall i | 1 <= i < |nodes|
        ensures nodes[i].container == this
      {
        assert nodes[i] == was[if i < q then i else i + 1];
      }
    }

    /** The two pointer writes of a removal. */
    method Bypass(ghost q: nat, item: ListItem)
      requires Valid() && 1 <= q < |nodes| && nodes[q] == item
      modifies nodes`next, nodes`previous
      ensures Bypassed(nodes, q)
      ensures item.previous == nodes[q - 1]
    {
      ghost var n := |nodes|;
      assert item.next == nodes[After(q, n)] && item.previous == nodes[q - 1];
      item.next.previous := item.previous;
      item.previous.next := item.next;
    }

    /** uxListRemove, once the list is known. */
    method RemoveItem(item: ListItem) returns (remaining: nat)
      requires Valid() && item in nodes[1..]
      modifies this`length, this`index, this`nodes, this`at, nodes`next, nodes`previous, item`container
      ensures Valid() && item.container == null && remaining == length
      ensures View() == Rings.Remove(old(View()), item)
    {
      ghost var q := 1 + Position(nodes[1..], item);
      Bypass(q, item);
      if index == item {
        index := item.previous;
      }
      Release(q, item);
      remaining := length;
    }
  }

  /** uxListRemove and listREMOVE_ITEM: the item knows its list. */
  method Remove(item: ListItem) returns (remaining: nat)
    requires item.container != null && item.container.Valid() && item in item.container.nodes[1..]
    modifies item.container`length, item.container`index, item.container`nodes, item.container`at
    modifies item.container.nodes`next, item.container.nodes`previous, item`container
    ensures item.container == null
    ensures var list := old(item.container);
            list.Valid() && list.View() == Rings.Remove(old(list.View()), item) && remaining == list.length
  {
    var list := item.container;
    remaining := list.RemoveItem(item);
  }
}
