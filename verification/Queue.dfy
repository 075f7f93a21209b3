/** The storage of a queue (FreeRTOS-Kernel/queue.c): fixed-size items in a byte ring, written
    behind the last item or in front of the first, read at the slot after pcReadFrom. */
module Queue {
  import Rings
  import opened Slots

  type Byte = b: nat | b < 256
  type Item = seq<Byte>

  datatype Position = Back | Front | Overwrite

  // ---------- slots of the ring ----------

  /** Where slot k begins. */
  function Offset(size: nat, k: nat): nat {
    size * k
  }

  lemma SlotFits(length: nat, size: nat, k: nat)
    requires k < length
    ensures Offset(size, k) + size <= Offset(size, length)
  {
    SlotsApart(size, k, length);
  }

  lemma SlotsApart(size: nat, j: nat, k: nat)
    requires j < k
    ensures Offset(size, j) + size <= Offset(size, k)
  {
    MultiplesApart(size, j, k);
  }

  /** Slot k of the storage area. */
  function Slot(data: seq<Byte>, size: nat, length: nat, k: nat): (item: Item)
    requires |data| == Offset(size, length) && k < length
    ensures |item| == size
  {
    SlotFits(length, size, k);
    data[Offset(size, k)..Offset(size, k) + size]
  }

  function Patch(data: seq<Byte>, at: nat, item: Item): (r: seq<Byte>)
    requires at + |item| <= |data|
    ensures |r| == |data|
  {
    data[..at] + item + data[at + |item|..]
  }

  lemma PatchBeside(data: seq<Byte>, at: nat, item: Item, i: nat, n: nat)
    requires at + |item| <= |data| && i + n <= |data| && (i + n <= at || at + |item| <= i)
    ensures Patch(data, at, item)[i..i + n] == data[i..i + n]
  {
  }

  lemma PatchAt(data: seq<Byte>, at: nat, item: Item)
    requires at + |item| <= |data|
    ensures Patch(data, at, item)[at..at + |item|] == item
  {
  }

  lemma SlotIs(data: seq<Byte>, size: nat, length: nat, k: nat)
    requires |data| == Offset(size, length) && k < length
    ensures Offset(size, k) + size <= |data| && Slot(data, size, length, k) == data[Offset(size, k)..Offset(size, k) + size]
  {
    SlotFits(length, size, k);
  }

  lemma PatchedSlot(data: seq<Byte>, size: nat, length: nat, w: nat, item: Item, k: nat)
    requires |data| == Offset(size, length) && k < length && w < length && |item| == size
    requires Offset(size, w) + size <= |data|
    ensures Slot(Patch(data, Offset(size, w), item), size, length, k) == if k == w then item else Slot(data, size, length, k)
  {
    hide Patch, Slot, Offset;
    SlotIs(data, size, length, k);
    SlotIs(Patch(data, Offset(size, w), item), size, length, k);
    if k < w {
      SlotsApart(size, k, w);
      PatchBeside(data, Offset(size, w), item, Offset(size, k), size);
    } else if w < k {
      SlotsApart(size, w, k);
      PatchBeside(data, Offset(size, w), item, Offset(size, k), size);
    } else {
      PatchAt(data, Offset(size, w), item);
    }
  }

  /** Item i counted from the next one to be read. */
  function ItemAt(data: seq<Byte>, size: nat, length: nat, r: nat, i: nat): Item
    requires length > 0 && |data| == Offset(size, length)
  {
    Slot(data, size, length, Ahead(r, 1 + i, length))
  }

  /** The stored items from the next one to be read on. */
  function Items(data: seq<Byte>, size: nat, length: nat, r: nat, count: nat): (s: seq<Item>)
    requires length > 0 && |data| == Offset(size, length)
    ensures |s| == count
  {
    seq(count, i requires 0 <= i < count => ItemAt(data, size, length, r, i))
  }

  /** Writing the slot behind the last item appends. */
  lemma WriteBack(data: seq<Byte>, size: nat, length: nat, r: nat, count: nat, item: Item)
    requires count < length && |data| == Offset(size, length) && |item| == size
    requires Offset(size, Ahead(r, 1 + count, length)) + size <= |data|
    ensures Items(Patch(data, Offset(size, Ahead(r, 1 + count, length)), item), size, length, r, count + 1)
         == Items(data, size, length, r, count) + [item]
  {
    hide Patch, Offset, Slot;
    var w := Ahead(r, 1 + count, length);
    var d := Patch(data, Offset(size, w), item);
    forall i | 0 <= i < count
      ensures ItemAt(d, size, length, r, i) == ItemAt(data, size, length, r, i)
    {
      AheadApart(r, 1 + i, 1 + count, length);
      PatchedSlot(data, size, length, w, item, Ahead(r, 1 + i, length));
    }
    PatchedSlot(data, size, length, w, item, w);
  }

  /** Writing the read slot and stepping the read slot back prepends. */
  lemma WriteFront(data: seq<Byte>, size: nat, length: nat, r: nat, count: nat, item: Item)
    requires r < length && count < length && |data| == Offset(size, length) && |item| == size
    requires Offset(size, r) + size <= |data|
    ensures Items(Patch(data, Offset(size, r), item), size, length, Ahead(r, length - 1, length), count + 1)
         == [item] + Items(data, size, length, r, count)
  {
    hide Ahead, Patch, Offset, Slot;
    var b := Ahead(r, length - 1, length);
    var d := Patch(data, Offset(size, r), item);
    var was, now := Items(data, size, length, r, count), Items(d, size, length, b, count + 1);
    BackAndOn(r, 0, length);
    PatchedSlot(data, size, length, r, item, r);
    forall i | 0 <= i < count
      ensures now[i + 1] == was[i]
    {
      BackAndOn(r, i + 1, length);
      AheadApart(r, 0, i + 1, length);
      BackAndOn(r, 0, length);
      PatchedSlot(data, size, length, r, item, Ahead(r, i + 1, length));
    }
  }

  /** One slot back and then on again. */
  lemma BackAndOn(r: nat, i: nat, length: nat)
    requires r < length
    ensures Ahead(Ahead(r, length - 1, length), 1 + i, length) == Ahead(r, i, length)
    ensures Ahead(r, 0, length) == r
  {
    AheadAgain(r, length - 1, 1 + i, length);
    ModStep(r + i, length);
    ModUnique(r, length, 0, r);
  }

  lemma StepRead(data: seq<Byte>, size: nat, length: nat, r: nat, count: nat)
    requires length > 0 && count > 0 && |data| == Offset(size, length)
    ensures var s := Items(data, size, length, r, count);
      && s[0] == Slot(data, size, length, Ahead(r, 1, length))
      && Items(data, size, length, Ahead(r, 1, length), count - 1) == s[1..]
  {
    forall i | 0 <= i < count - 1
      ensures ItemAt(data, size, length, Ahead(r, 1, length), i) == ItemAt(data, size, length, r, i + 1)
    {
      AheadAgain(r, 1, 1 + i, length);
    }
  }

  /** The queue as a sequence of items: what each way of sending does to it. */
  function Sent(s: seq<Item>, item: Item, position: Position): seq<Item> {
    match position
    case Back => s + [item]
    case Front => [item] + s
    case Overwrite => [item]
  }

  /** What a successful send leaves; without an item size every position just counts one more. */
  function Stored(s: seq<Item>, item: Item, position: Position, size: nat): seq<Item> {
    if size == 0 then s + [item] else Sent(s, item, position)
  }

  /** Overwriting is for queues of length one and never makes them longer, except that without an item
      size the count goes to two, past the length, when the queue was full. */
  lemma OverwriteKeepsLength(s: seq<Item>, item: Item, size: nat)
    requires |s| <= 1
    ensures |Stored(s, item, Overwrite, size)| <= 1 <==> size > 0 || s == []
  {
  }

  datatype Op = SendOp(item: Item, position: Position) | ReceiveOp

  /** The effect of one call on the contents, and the items it delivered. */
  function Apply(s: seq<Item>, op: Op, length: nat, size: nat): (seq<Item>, seq<Item>) {
    match op
    case SendOp(item, position) =>
      (if |s| < length || position == Overwrite then Stored(s, item, position, size) else s, [])
    case ReceiveOp => if s == [] then (s, []) else (s[1..], [s[0]])
  }

  function After(s: seq<Item>, ops: seq<Op>, length: nat, size: nat): seq<Item>
    decreases |ops|
  {
    if ops == [] then s else After(Apply(s, ops[0], length, size).0, ops[1..], length, size)
  }

  function Delivered(s: seq<Item>, ops: seq<Op>, length: nat, size: nat): seq<Item>
    decreases |ops|
  {
    if ops == [] then []
    else Apply(s, ops[0], length, size).1 + Delivered(Apply(s, ops[0], length, size).0, ops[1..], length, size)
  }

  /** The items the sends of a run put into the queue. */
  function Accepted(s: seq<Item>, ops: seq<Op>, length: nat, size: nat): seq<Item>
    decreases |ops|
  {
    if ops == [] then []
    else
      (if ops[0].SendOp? && |s| < length then [ops[0].item] else [])
      + Accepted(Apply(s, ops[0], length, size).0, ops[1..], length, size)
  }

  /** First in, first out, nothing lost and nothing twice: over any run of sends to the back and
      receives, what was delivered followed by what is stored is what was stored at first followed by
      what was accepted, and the queue never exceeds its length. */
  lemma {:induction false} FirstInFirstOut(s: seq<Item>, ops: seq<Op>, length: nat, size: nat)
    requires |s| <= length && forall i :: 0 <= i < |ops| ==> ops[i].SendOp? ==> ops[i].position == Back
    ensures Delivered(s, ops, length, size) + After(s, ops, length, size) == s + Accepted(s, ops, length, size)
    ensures |After(s, ops, length, size)| <= length
    decreases |ops|
  {
    if ops != [] {
      var (n, d) := Apply(s, ops[0], length, size);
      var a := if ops[0].SendOp? && |s| < length then [ops[0].item] else [];
      FirstInFirstOut(n, ops[1..], length, size);
      assert d + n == s + a;
      Rings.Rejoin(s, a, Accepted(n, ops[1..], length, size), d, n, Delivered(n, ops[1..], length, size), After(n, ops[1..], length, size));
    }
  }

  // ---------- both ends ----------

  /** What is sent to the front is the next to be received, and the others are left as they were. */
  lemma FrontIsNext(s: seq<Item>, item: Item, length: nat, size: nat)
    requires size > 0 && |s| < length
    ensures var sent := Apply(s, SendOp(item, Front), length, size).0;
      Apply(sent, ReceiveOp, length, size) == (s, [item])
  {
  }

  /** After an overwrite one receive succeeds, and delivers the new item, whatever was stored. */
  lemma OverwriteIsNext(s: seq<Item>, item: Item, length: nat, size: nat)
    requires size > 0
    ensures Delivered(s, [SendOp(item, Overwrite), ReceiveOp, ReceiveOp], length, size) == [item]
  {
    hide Delivered;
    assert [item][1..] == [];
    DeliveredFirst(s, SendOp(item, Overwrite), [ReceiveOp, ReceiveOp], length, size);
    DeliveredFirst([item], ReceiveOp, [ReceiveOp], length, size);
    DeliveredFirst([], ReceiveOp, [], length, size);
    DeliveredNone([], length, size);
    assert [ReceiveOp] + [ReceiveOp] == [ReceiveOp, ReceiveOp] && [ReceiveOp] + [] == [ReceiveOp];
    assert [SendOp(item, Overwrite)] + [ReceiveOp, ReceiveOp] == [SendOp(item, Overwrite), ReceiveOp, ReceiveOp];
  }

  lemma DeliveredFirst(s: seq<Item>, op: Op, rest: seq<Op>, length: nat, size: nat)
    ensures var (n, d) := Apply(s, op, length, size);
      Delivered(s, [op] + rest, length, size) == d + Delivered(n, rest, length, size)
  {
    assert ([op] + rest)[1..] == rest;
  }

  lemma DeliveredNone(s: seq<Item>, length: nat, size: nat)
    ensures Delivered(s, [], length, size) == []
  {
  }

  /** The two ends by themselves: a stack of what was sent to the front, its top last, and a line of what was
      sent to the back, the first to be served first. */
  datatype Ends = Ends(stack: seq<Item>, line: seq<Item>)

  /** The reference: what was sent to the front last is served first, and the line only when the stack is
      empty; an overwrite leaves nothing but its item. */
  function Serve(e: Ends, op: Op, length: nat): (Ends, seq<Item>) {
    match op
    case SendOp(item, Overwrite) => (Ends([], [item]), [])
    case SendOp(item, position) =>
      if |e.stack| + |e.line| >= length then (e, [])
      else if position == Front then (Ends(e.stack + [item], e.line), [])
      else (Ends(e.stack, e.line + [item]), [])
    case ReceiveOp =>
      var n := |e.stack|;
      if n > 0 then (Ends(e.stack[..n - 1], e.line), [e.stack[n - 1]])
      else if e.line != [] then (Ends([], e.line[1..]), [e.line[0]])
      else (e, [])
  }

  function Served(e: Ends, ops: seq<Op>, length: nat): seq<Item>
    decreases |ops|
  {
    if ops == [] then [] else Serve(e, ops[0], length).1 + Served(Serve(e, ops[0], length).0, ops[1..], length)
  }

  function Reversed(s: seq<Item>): (r: seq<Item>)
    ensures |r| == |s|
  {
    if s == [] then [] else [s[|s| - 1]] + Reversed(s[..|s| - 1])
  }

  /** The contents are the stack from its top and then the line. */
  predicate Holds(s: seq<Item>, e: Ends) {
    s == Reversed(e.stack) + e.line
  }

  lemma Pushed(stack: seq<Item>, line: seq<Item>, item: Item)
    ensures [item] + (Reversed(stack) + line) == Reversed(stack + [item]) + line
  {
    assert (stack + [item])[..|stack|] == stack;
  }

  lemma Popped(stack: seq<Item>, line: seq<Item>)
    requires stack != []
    ensures var s, n := Reversed(stack) + line, |stack| - 1;
      s != [] && s[0] == stack[n] && s[1..] == Reversed(stack[..n]) + line
  {
    HeadOff(stack[|stack| - 1], Reversed(stack[..|stack| - 1]), line);
  }

  lemma HeadOff(x: Item, a: seq<Item>, b: seq<Item>)
    ensures var s := [x] + a + b; s != [] && s[0] == x && s[1..] == a + b
  {
  }

  lemma ServeStep(s: seq<Item>, e: Ends, op: Op, length: nat, size: nat)
    requires size > 0 && Holds(s, e)
    ensures Apply(s, op, length, size).1 == Serve(e, op, length).1
    ensures Holds(Apply(s, op, length, size).0, Serve(e, op, length).0)
  {
    hide Reversed;
    match op {
      case SendOp(item, Back) => assert s + [item] == Reversed(e.stack) + (e.line + [item]);
      case SendOp(item, Front) => Pushed(e.stack, e.line, item);
      case SendOp(item, Overwrite) => NoStack([item]);
      case ReceiveOp =>
        if e.stack != [] {
          Popped(e.stack, e.line);
        } else {
          NoStack(e.line);
          if e.line != [] {
            NoStack(e.line[1..]);
          }
        }
    }
  }

  lemma NoStack(line: seq<Item>)
    ensures Reversed([]) + line == line
  {
  }

  /** Over any run of sends to either end, overwrites and receives, the items delivered are those of the
      reference, in its order. */
  lemma {:induction false} ServedInOrder(s: seq<Item>, e: Ends, ops: seq<Op>, length: nat, size: nat)
    requires size > 0 && Holds(s, e)
    ensures Delivered(s, ops, length, size) == Served(e, ops, length)
    decreases |ops|
  {
    hide Apply, Serve, Holds;
    if ops != [] {
      ServeStep(s, e, ops[0], length, size);
      ServedInOrder(Apply(s, ops[0], length, size).0, Serve(e, ops[0], length).0, ops[1..], length, size);
    }
  }

  /** Nothing lost and nothing twice, over any run of sends to either end and receives. */
  lemma {:induction false} NothingLost(s: seq<Item>, ops: seq<Op>, length: nat, size: nat)
    requires |s| <= length && forall i :: 0 <= i < |ops| ==> ops[i].SendOp? ==> ops[i].position != Overwrite
    ensures multiset(Delivered(s, ops, length, size)) + multiset(After(s, ops, length, size))
         == multiset(s) + multiset(Accepted(s, ops, length, size))
    ensures |After(s, ops, length, size)| <= length
    decreases |ops|
  {
    hide Apply;
    if ops != [] {
      var (n, d) := Apply(s, ops[0], length, size);
      var a := if ops[0].SendOp? && |s| < length then [ops[0].item] else [];
      ApplyConserves(s, ops[0], length, size);
      NothingLost(n, ops[1..], length, size);
      Bags(s, a, Accepted(n, ops[1..], length, size), d, n, Delivered(n, ops[1..], length, size), After(n, ops[1..], length, size));
    }
  }

  /** What one step conserves and the rest of a run conserves, the run conserves. */
  lemma Bags(s: seq<Item>, a: seq<Item>, more: seq<Item>, d: seq<Item>, n: seq<Item>, rest: seq<Item>, end: seq<Item>)
    requires multiset(d) + multiset(n) == multiset(s) + multiset(a)
    requires multiset(rest) + multiset(end) == multiset(n) + multiset(more)
    ensures multiset(d + rest) + multiset(end) == multiset(s) + multiset(a + more)
  {
    assert multiset(d + rest) == multiset(d) + multiset(rest);
    assert multiset(a + more) == multiset(a) + multiset(more);
    var left, right := multiset(d + rest) + multiset(end), multiset(s) + multiset(a + more);
    forall x: Item
      ensures left[x] == right[x]
    {
      assert (multiset(d) + multiset(n))[x] == (multiset(s) + multiset(a))[x];
      assert (multiset(rest) + multiset(end))[x] == (multiset(n) + multiset(more))[x];
    }
  }

  lemma ApplyConserves(s: seq<Item>, op: Op, length: nat, size: nat)
    requires |s| <= length && (op.SendOp? ==> op.position != Overwrite)
    ensures var (n, d) := Apply(s, op, length, size);
      && |n| <= length
      && multiset(d) + multiset(n) ==
           multiset(s) + multiset(if op.SendOp? && |s| < length then [op.item] else [])
  {
    if op.ReceiveOp? && s != [] {
      assert s == [s[0]] + s[1..];
    }
  }

  class Queue {
    const length: nat
    const itemSize: nat
    const storage: array<Byte>

    // offsets from pcHead
    var writeTo: int
    var readFrom: int
    var messagesWaiting: nat

    ghost var readSlot: nat

    ghost function WriteSlot(): nat
      requires length > 0
      reads this`readSlot, this`messagesWaiting
    {
      Ahead(readSlot, 1 + messagesWaiting, length)
    }

    /** Without an item size nothing is stored and the queue only counts. */
    ghost predicate Valid()
      reads this
    {
      && length > 0 && storage.Length == length * itemSize
      && (itemSize > 0 ==>
            && messagesWaiting <= length
            && readSlot < length
            && readFrom == readSlot * itemSize
            && writeTo == WriteSlot() * itemSize)
    }

    ghost function Contents(): (s: seq<Item>)
      requires Valid()
      reads this, storage
      ensures |s| == messagesWaiting
    {
      if itemSize == 0 then seq(messagesWaiting, _ => [])
      else Items(storage[..], itemSize, length, readSlot, messagesWaiting)
    }

    /** xQueueGenericCreate with xQueueGenericReset */
    constructor (length: nat, itemSize: nat)
      requires length > 0
      ensures Valid() && this.length == length && this.itemSize == itemSize && Contents() == []
      ensures fresh(storage)
    {
      this.length := length;
      this.itemSize := itemSize;
      storage := new Byte[length * itemSize];
      writeTo := 0;
      readFrom := (length - 1) * itemSize;
      messagesWaiting := 0;
      readSlot := length - 1;
      new;
      AheadFromLast(length);
    }

    /** xQueueGenericReset, the storage part. */
    method Reset()
      requires Valid()
      modifies this
      ensures Valid() && Contents() == []
    {
      hide Ahead;
      AheadFromLast(length);
      messagesWaiting := 0;
      writeTo := 0;
      readFrom := (length - 1) * itemSize;
      readSlot := length - 1;
    }

    /** memcpy into the storage area. */
    method CopyIn(at: nat, item: Item)
      requires at + |item| <= storage.Length
      modifies storage
      ensures storage[..] == Patch(old(storage[..]), at, item)
    {
      for i := 0 to |item|
        invariant forall j :: 0 <= j < storage.Length ==>
                    storage[j] == if at <= j < at + i then item[j - at] else old(storage[j])
      {
        storage[at + i] := item[i];
      }
    }

    /** memcpy out of the storage area. */
    method CopyOut(at: nat) returns (item: Item)
      requires at + itemSize <= storage.Length
      ensures item == storage[at..at + itemSize]
    {
      item := [];
      for i := 0 to itemSize
        invariant item == storage[at..at + i]
      {
        item := item + [storage[at + i]];
      }
    }

    method CopyToBack(item: Item)
      requires Valid() && itemSize > 0 && |item| == itemSize && messagesWaiting < length
      modifies this`writeTo, this`messagesWaiting, storage
      ensures Valid() && Contents() == old(Contents()) + [item]
    {
      hide Ahead, Items, Patch;
      ghost var w := WriteSlot();
      SlotFits(length, itemSize, w);
      WriteBack(storage[..], itemSize, length, readSlot, messagesWaiting, item);
      CopyIn(writeTo, item);
      writeTo := writeTo + itemSize;
      if writeTo >= length * itemSize {
        writeTo := 0;
      }
      AheadAgain(readSlot, 1 + messagesWaiting, 1, length);
      StepOn(w, length, itemSize);
      messagesWaiting := messagesWaiting + 1;
    }

    /** The read slot is written and then stepped back; what was counted of the old contents stays. */
    method CopyToFront(item: Item, ghost kept: nat)
      requires Valid() && itemSize > 0 && |item| == itemSize && kept < length && kept <= messagesWaiting
      requires writeTo == Ahead(readSlot, 1 + kept, length) * itemSize
      modifies this`readFrom, this`readSlot, storage
      ensures readSlot < length && readFrom == readSlot * itemSize
      ensures writeTo == Ahead(readSlot, 2 + kept, length) * itemSize
      ensures Items(storage[..], itemSize, length, readSlot, kept + 1)
           == [item] + Items(old(storage[..]), itemSize, length, old(readSlot), kept)
    {
      ghost var r := readSlot;
      SlotFits(length, itemSize, r);
      WriteFront(storage[..], itemSize, length, r, kept, item);
      CopyIn(readFrom, item);
      readFrom := readFrom - itemSize;
      if readFrom < 0 {
        readFrom := length * itemSize - itemSize;
      }
      readSlot := Ahead(r, length - 1, length);
      AheadAgain(r, length - 1, 2 + kept, length);
      ModStep(r + 1 + kept, length);
      StepBack(r, length, itemSize);
    }

    /** prvCopyDataToQueue */
    method CopyDataToQueue(item: Item, position: Position)
      requires Valid() && |item| == itemSize
      requires position == Overwrite ==> length == 1
      requires position != Overwrite ==> messagesWaiting < length
      modifies this`writeTo, this`readFrom, this`readSlot, this`messagesWaiting, storage
      ensures Valid()
      ensures Contents() == Stored(old(Contents()), item, position, itemSize)
    {
      if itemSize == 0 {
        messagesWaiting := messagesWaiting + 1;
      } else if position == Back {
        CopyToBack(item);
      } else {
        ghost var kept := if position == Overwrite then 0 else messagesWaiting;
        OneSlot(readSlot, messagesWaiting, length);
        CopyToFront(item, kept);
        var count := messagesWaiting;
        if position == Overwrite {
          if count > 0 {
            count := count - 1;
          }
        }
        messagesWaiting := count + 1;
      }
    }

    /** prvCopyDataFromQueue together with the decrement its callers make. */
    method TakeFirst() returns (item: Item)
      requires Valid() && messagesWaiting > 0
      modifies this`readFrom, this`readSlot, this`messagesWaiting
      ensures Valid() && item == old(Contents())[0] && Contents() == old(Contents())[1..]
    {
      item := CopyDataFromQueue();
      messagesWaiting := messagesWaiting - 1;
    }

    /** prvCopyDataFromQueue: step the read slot on and copy it out. */
    method CopyDataFromQueue() returns (item: Item)
      requires Valid() && messagesWaiting > 0
      modifies this`readFrom, this`readSlot
      ensures item == old(Contents())[0]
      ensures itemSize == 0 ==> readSlot == old(readSlot) && readFrom == old(readFrom)
      ensures itemSize > 0 ==>
        && readSlot < length && readFrom == readSlot * itemSize
        && writeTo == Ahead(readSlot, messagesWaiting, length) * itemSize
        && Items(storage[..], itemSize, length, readSlot, messagesWaiting - 1) == old(Contents())[1..]
    {
      hide Ahead, Items;
      item := [];
      if itemSize != 0 {
        ghost var r := readSlot;
        StepRead(storage[..], itemSize, length, r, messagesWaiting);
        AheadAgain(r, 1, messagesWaiting, length);
        StepOn(r, length, itemSize);
        readFrom := readFrom + itemSize;
        if readFrom >= length * itemSize {
          readFrom := 0;
        }
        readSlot := Ahead(r, 1, length);
        SlotFits(length, itemSize, readSlot);
        item := CopyOut(readFrom);
        assert item == storage[..][readSlot * itemSize..readSlot * itemSize + itemSize];
      }
    }

    /** The data path of xQueueGenericSend and xQueueGenericSendFromISR when there is nothing to wait
        for: the result is pdPASS or errQUEUE_FULL. */
    method Send(item: Item, position: Position) returns (sent: bool)
      requires Valid() && |item| == itemSize && (position == Overwrite ==> length == 1)
      modifies this`writeTo, this`readFrom, this`readSlot, this`messagesWaiting, storage
      ensures Valid()
      ensures sent <==> position == Overwrite || |old(Contents())| < length
      ensures Contents() == Apply(old(Contents()), SendOp(item, position), length, itemSize).0
    {
      sent := messagesWaiting < length || position == Overwrite;
      if sent {
        CopyDataToQueue(item, position);
      }
    }

    /** The data path of xQueueReceive and xQueueReceiveFromISR. */
    method Receive() returns (received: bool, item: Item)
      requires Valid()
      modifies this`readFrom, this`readSlot, this`messagesWaiting
      ensures Valid() && (received <==> old(Contents()) != [])
      ensures (Contents(), if received then [item] else []) == Apply(old(Contents()), ReceiveOp, length, itemSize)
    {
      received, item := messagesWaiting > 0, [];
      if received {
        item := TakeFirst();
      }
    }

    /** The data path of xQueuePeek: read, then put the read position back. */
    method Peek() returns (received: bool, item: Item)
      requires Valid()
      modifies this`readFrom, this`readSlot
      ensures Valid() && Contents() == old(Contents())
      ensures received <==> Contents() != []
      ensures received ==> item == Contents()[0]
    {
      received, item := messagesWaiting > 0, [];
      if received {
        var originalReadPosition := readFrom;
        ghost var originalSlot := readSlot;
        item := CopyDataFromQueue();
        readFrom := originalReadPosition;
        readSlot := originalSlot;
      }
    }
  }

  /** The pointer form of stepping one slot on: past the end of the storage comes its start. */
  lemma StepOn(r: nat, length: nat, size: nat)
    requires r < length && size > 0
    ensures Ahead(r, 1, length) * size == if r * size + size >= length * size then 0 else r * size + size
  {
    hide Ahead;
    AheadOne(r, length);
    OneLess(r + 1, size);
    if r + 1 < length {
      SlotsApart(size, r + 1, length);
    }
  }

  lemma AheadFromLast(length: nat)
    requires length > 0
    ensures Ahead(length - 1, 1, length) == 0
  {
    ModStep(0, length);
  }

  lemma StepBack(r: nat, length: nat, size: nat)
    requires r < length && size > 0
    ensures Ahead(r, length - 1, length) == if r == 0 then length - 1 else r - 1
    ensures r == 0 ==> r * size - size < 0 && (length - 1) * size == length * size - size
    ensures r > 0 ==> r * size - size == (r - 1) * size >= 0
  {
    hide Ahead;
    SlotBefore(r, length);
    OneLess(length, size);
    if r > 0 {
      OneLess(r, size);
    }
  }

  lemma SlotBefore(r: nat, length: nat)
    requires r < length
    ensures Ahead(r, length - 1, length) == if r == 0 then length - 1 else r - 1
  {
    hide Ahead;
    AheadWraps(r, length - 1, length);
  }

  lemma OneLess(n: nat, size: nat)
    requires n > 0
    ensures (n - 1) * size == n * size - size && (n - 1) * size >= 0
  {
  }

  /** In a queue of length one every slot is slot 0. */
  lemma OneSlot(r: nat, count: nat, length: nat)
    requires length > 0
    ensures length == 1 ==> Ahead(r, 1, length) == Ahead(r, 1 + count, length) == 0
  {
  }
}
