/** The bit masks of event groups (FreeRTOS-Kernel/event_groups.c): event bits in the low 24 bits of a
    word, and control bits above them while the word is a task's event list item value. */
module EventBits {

  type Bits = bv32

  const CLEAR_ON_EXIT: Bits := 0x0100_0000
  const UNBLOCKED_BY_SET: Bits := 0x0200_0000
  const WAIT_FOR_ALL: Bits := 0x0400_0000
  const IN_USE: Bits := 0x8000_0000
  const CONTROL: Bits := 0xFF00_0000

  function Union(a: Bits, b: Bits): Bits {
    a | b
  }

  function Minus(a: Bits, b: Bits): Bits {
    a & !b
  }

  /** Some bit of the mask is set. */
  predicate Has(a: Bits, mask: Bits) {
    a & mask != 0
  }

  predicate Plain(b: Bits) {
    b & CONTROL == 0
  }

  function Payload(v: Bits): Bits {
    v & !CONTROL
  }

  predicate WantsAll(v: Bits) {
    v & WAIT_FOR_ALL != 0
  }

  predicate WantsClear(v: Bits) {
    v & CLEAR_ON_EXIT != 0
  }

  /** What xEventGroupWaitBits and xEventGroupSync leave in the event list item of a task that blocks. */
  function Wish(wanted: Bits, clear: bool, all: bool): Bits {
    wanted | (if clear then CLEAR_ON_EXIT else 0) | (if all then WAIT_FOR_ALL else 0) | IN_USE
  }

  lemma WishReads(wanted: Bits, clear: bool, all: bool)
    requires Plain(wanted)
    ensures var v := Wish(wanted, clear, all);
      && Payload(v) == wanted && (WantsAll(v) <==> all) && (WantsClear(v) <==> clear)
  {
  }

  lemma WishUnmarked(wanted: Bits, clear: bool, all: bool)
    requires Plain(wanted)
    ensures !Has(Wish(wanted, clear, all), UNBLOCKED_BY_SET)
  {
  }

  lemma UnionHasLeft(a: Bits, b: Bits, mask: Bits)
    ensures Has(a, mask) ==> Has(Union(a, b), mask)
  {
  }

  lemma UnionHasRight(a: Bits, b: Bits, mask: Bits)
    ensures Has(b, mask) ==> Has(Union(a, b), mask)
  {
  }

  lemma UnionHasOnly(a: Bits, b: Bits, mask: Bits)
    ensures Has(Union(a, b), mask) ==> Has(a, mask) || Has(b, mask)
  {
  }

  lemma UnionHas(a: Bits, b: Bits, mask: Bits)
    ensures Has(Union(a, b), mask) <==> Has(a, mask) || Has(b, mask)
  {
    hide Has, Union;
    UnionHasLeft(a, b, mask);
    UnionHasRight(a, b, mask);
    UnionHasOnly(a, b, mask);
  }

  /** A mask of one bit. */
  predicate Single(mask: Bits) {
    mask != 0 && mask & (mask - 1) == 0
  }

  lemma MinusHas(a: Bits, b: Bits, mask: Bits)
    requires Single(mask)
    ensures Has(Minus(a, b), mask) <==> Has(a, mask) && !Has(b, mask)
  {
    hide Single, Minus;
    SingleMeets(b, mask);
    if b & mask == 0 {
      MinusOutside(a, b, mask);
    } else {
      MinusInside(a, b, mask);
    }
  }

  /** A mask of one bit is wholly in a word or not at all. */
  lemma SingleMeets(a: Bits, mask: Bits)
    requires Single(mask)
    ensures a & mask == 0 || a & mask == mask
  {
  }

  lemma MinusOutside(a: Bits, b: Bits, mask: Bits)
    requires b & mask == 0
    ensures Minus(a, b) & mask == a & mask
  {
  }

  lemma MinusInside(a: Bits, b: Bits, mask: Bits)
    requires b & mask == mask
    ensures Minus(a, b) & mask == 0
  {
  }

  lemma UnionNone(a: Bits)
    ensures Union(a, 0) == a
  {
  }

  lemma NoneHas(mask: Bits)
    ensures !Has(0, mask)
  {
  }

  lemma SameBits(a: Bits, b: Bits)
    requires forall mask :: Has(a, mask) <==> Has(b, mask)
    ensures a == b
  {
    hide Has, Minus;
    Separated(a, b);
    Separated(b, a);
  }

  lemma Separated(a: Bits, b: Bits)
    ensures Has(a, Minus(a, b)) <==> Minus(a, b) != 0
    ensures !Has(b, Minus(a, b))
    ensures Minus(a, b) == 0 && Minus(b, a) == 0 ==> a == b
  {
  }

  /** prvTestWaitCondition */
  predicate ConditionMet(current: Bits, wanted: Bits, all: bool) {
    if all then current & wanted == wanted else current & wanted != 0
  }

  predicate Satisfied(current: Bits, v: Bits) {
    ConditionMet(current, Payload(v), WantsAll(v))
  }

  /** The value a woken task finds in its event list item. */
  function Delivered(current: Bits): Bits {
    current | UNBLOCKED_BY_SET | IN_USE
  }

  /** Fewer bits meet fewer conditions. */
  lemma FewerMeetFewer(current: Bits, gone: Bits, wanted: Bits, all: bool)
    requires ConditionMet(Minus(current, gone), wanted, all)
    ensures ConditionMet(current, wanted, all)
  {
  }

  lemma PlainKept(a: Bits, b: Bits)
    requires Plain(a)
    ensures Plain(Minus(a, b))
    ensures Plain(b) ==> Plain(Union(a, b))
  {
  }

  /** A woken task finds the mark, the event bits as they were, and so all its wanted bits. */
  lemma DeliveredMarked(current: Bits)
    ensures Has(Delivered(current), UNBLOCKED_BY_SET)
  {
  }

  lemma DeliveredReads(current: Bits)
    requires Plain(current)
    ensures Payload(Delivered(current)) == current
  {
  }

  /** Taking a superset of some bits away takes those bits away. */
  lemma TakenAway(current: Bits, gone: Bits, wanted: Bits)
    ensures Minus(wanted, gone) == 0 ==> !Has(Minus(current, gone), wanted)
  {
  }

  lemma StaysAway(current: Bits, gone: Bits, wanted: Bits)
    requires !Has(current, wanted)
    ensures !Has(Minus(current, gone), wanted)
  {
  }
}
