/** The abstract view of a kernel list (FreeRTOS-Kernel/list.c): the items from the head on, and
    the place of the walking pointer pxIndex.  Index 0 is the end marker xListEnd; index k + 1 is
    the item at position k. */
module Rings {

  ghost predicate NoDup<T>(s: seq<T>) {
    forall i, j :: 0 <= i < j < |s| ==> s[i] != s[j]
  }

  function InsertAt<T>(s: seq<T>, p: nat, x: T): (r: seq<T>)
    requires p <= |s|
    ensures |r| == |s| + 1
    ensures forall i {:trigger r[i]} :: 0 <= i < |r| ==> r[i] == if i < p then s[i] else if i == p then x else s[i - 1]
    ensures x in r && forall y | y in s :: y in r
    ensures forall y | y in r :: y in s || y == x
    ensures NoDup(s) && x !in s ==> NoDup(r)
  {
    var r := seq(|s| + 1, i requires 0 <= i < |s| + 1 => if i < p then s[i] else if i == p then x else s[i - 1]);
    assert r[p] == x;
    assert forall i :: 0 <= i < |s| ==> s[i] == r[if i < p then i else i + 1];
    r
  }

  /** The place of x: the first position that holds it. */
  function Position<T(==)>(s: seq<T>, x: T): (p: nat)
    requires x in s
    ensures p < |s| && s[p] == x
  {
    if s[0] == x then 0 else 1 + Position(s[1..], x)
  }

  lemma PositionIs<T>(s: seq<T>, x: T, p: nat)
    requires NoDup(s) && p < |s| && s[p] == x
    ensures Position(s, x) == p
  {
  }

  function Removed<T>(s: seq<T>, p: nat): (r: seq<T>)
    requires p < |s|
    ensures |r| == |s| - 1
  {
    s[..p] + s[p + 1..]
  }

  /** What is behind the removed place moves up by one. */
  lemma RemovedAt<T>(s: seq<T>, p: nat)
    requires p < |s|
    ensures forall i {:trigger Removed(s, p)[i]} :: 0 <= i < |s| - 1 ==> Removed(s, p)[i] == s[if i < p then i else i + 1]
    ensures NoDup(s) ==> NoDup(Removed(s, p))
  {
  }

  function Without<T(==)>(s: seq<T>, x: T): (r: seq<T>)
    ensures |r| == if x in s then |s| - 1 else |s|
    ensures forall y | y in r :: y in s
    ensures forall y | y in s && y != x :: y in r
    ensures NoDup(s) ==> NoDup(r) && x !in r
  {
    if x in s then
      var p := Position(s, x);
      var r := Removed(s, p);
      assert forall i :: 0 <= i < |s| && i != p ==> s[i] == r[if i < p then i else i - 1];
      r
    else
      s
  }

  lemma WithoutAt<T>(s: seq<T>, x: T, i: nat)
    requires x in s && i < |s| - 1
    ensures Without(s, x)[i] == s[if i < Position(s, x) then i else i + 1]
  {
    hide NoDup;
  }

  lemma WithoutNone<T>(s: seq<T>, x: T)
    requires x !in s
    ensures Without(s, x) == s
  {
  }

  /** The place vListInsert chooses: behind every leading value that does not exceed v. */
  function SortedPosition(values: seq<nat>, v: nat): (p: nat)
    ensures p <= |values|
    ensures forall i :: 0 <= i < p ==> values[i] <= v
    ensures p < |values| ==> v < values[p]
  {
    if values == [] || v < values[0] then 0 else 1 + SortedPosition(values[1..], v)
  }

  lemma SortedPositionUnique(values: seq<nat>, v: nat, q: nat)
    requires q <= |values|
    requires forall i :: 0 <= i < q ==> values[i] <= v
    requires q < |values| ==> v < values[q]
    ensures q == SortedPosition(values, v)
  {
  }

  ghost predicate Sorted(values: seq<nat>) {
    forall i, j :: 0 <= i < j < |values| ==> values[i] <= values[j]
  }

  /** A sorted insert keeps the order and is stable: the new value goes behind all equal ones and
      in front of all greater ones. */
  lemma SortedInsert(values: seq<nat>, v: nat)
    requires Sorted(values)
    ensures Sorted(InsertAt(values, SortedPosition(values, v), v))
    ensures forall i :: 0 <= i < |values| ==> (i < SortedPosition(values, v) <==> values[i] <= v)
  {
    var p := SortedPosition(values, v);
    var r := InsertAt(values, p, v);
    forall i, j | 0 <= i < j < |r|
      ensures r[i] <= r[j]
    {
      var a := if i < p then values[i] else if i == p then v else values[i - 1];
      var b := if j < p then values[j] else if j == p then v else values[j - 1];
      assert r[i] == a && r[j] == b;
    }
  }

  datatype Ring<T> = Ring(items: seq<T>, index: nat) {
    ghost predicate Valid() {
      index <= |items| && NoDup(items)
    }
  }

  function Empty<T>(): Ring<T> {
    Ring([], 0)
  }

  function Insert<T>(r: Ring<T>, p: nat, x: T): Ring<T>
    requires p <= |r.items|
  {
    Ring(InsertAt(r.items, p, x), if p < r.index then r.index + 1 else r.index)
  }

  /** vListInsertEnd: directly behind pxIndex in walking order, so last to be visited. */
  function InsertEnd<T>(r: Ring<T>, x: T): Ring<T>
    requires r.index <= |r.items|
  {
    Insert(r, if r.index == 0 then |r.items| else r.index - 1, x)
  }

  /** uxListRemove: pxIndex steps back when it stands on the removed item. */
  function Remove<T(==)>(r: Ring<T>, x: T): Ring<T>
    requires x in r.items
  {
    Ring(Without(r.items, x), if Position(r.items, x) < r.index then r.index - 1 else r.index)
  }

  /** listGET_OWNER_OF_NEXT_ENTRY: one step round the ring, skipping the end marker. */
  function Next<T>(r: Ring<T>): (n: Ring<T>)
    requires r.items != []
    ensures n.items == r.items && 1 <= n.index
    ensures r.index <= |r.items| ==> n.index <= |n.items|
  {
    Ring(r.items, if r.index < |r.items| then r.index + 1 else 1)
  }

  /** The item pxIndex stands on. */
  function Selected<T>(r: Ring<T>): T
    requires 1 <= r.index <= |r.items|
  {
    r.items[r.index - 1]
  }

  lemma InsertEndValid<T>(r: Ring<T>, x: T)
    requires r.Valid() && x !in r.items
    ensures InsertEnd(r, x).Valid()
  {
  }

  lemma RemoveValid<T>(r: Ring<T>, x: T)
    requires r.Valid() && x in r.items
    ensures Remove(r, x).Valid()
  {
  }

  /** A list whose pxIndex rests on the end marker (every list that is never walked) is a plain
      queue: insert-end appends and nothing moves pxIndex. */
  lemma RestingIndexIsQueue<T>(r: Ring<T>, x: T)
    requires r.Valid() && r.index == 0 && x !in r.items
    ensures InsertEnd(r, x) == Ring(r.items + [x], 0)
    ensures Remove(InsertEnd(r, x), x) == r
  {
    var s := InsertEnd(r, x);
    assert s.items == r.items + [x];
    assert s.items[|r.items|] == x;
    assert Position(s.items, x) == |r.items|;
  }

  /** Over a run, what came out at first and later, and what is left, is what was there and what came
      in, if both parts of the run say so. */
  lemma Rejoin<T>(s: seq<T>, a: seq<T>, more: seq<T>, d: seq<T>, n: seq<T>, later: seq<T>, end: seq<T>)
    requires d + n == s + a && later + end == n + more
    ensures (d + later) + end == s + (a + more)
  {
    calc {
      (d + later) + end;
      d + (later + end);
      (d + n) + more;
      s + (a + more);
    }
  }

  lemma PositionLeft<T>(a: seq<T>, b: seq<T>, x: T)
    requires x in a
    ensures x in a + b && Position(a + b, x) == Position(a, x)
  {
    if a[0] != x {
      assert (a + b)[1..] == a[1..] + b;
      PositionLeft(a[1..], b, x);
    }
  }

  lemma PositionRight<T>(a: seq<T>, b: seq<T>, x: T)
    requires x !in a && x in b
    ensures x in a + b && Position(a + b, x) == |a| + Position(b, x)
  {
    if a == [] {
      assert a + b == b;
    } else {
      assert (a + b)[0] == a[0] && (a + b)[1..] == a[1..] + b;
      PositionRight(a[1..], b, x);
    }
  }

  lemma WithoutMiddle<T>(a: seq<T>, x: T, b: seq<T>)
    requires x !in a
    ensures Without(a + [x] + b, x) == a + b
  {
    var s := a + ([x] + b);
    assert a + [x] + b == s;
    PositionRight(a, [x] + b, x);
    assert s[..|a|] == a && s[|a| + 1..] == b;
  }
}
