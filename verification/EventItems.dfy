/** The value of an event list item: the priority of its task in reverse, or other data. */
module EventItems {

  /** taskEVENT_LIST_ITEM_VALUE_IN_USE */
  const IN_USE: nat := 0x8000_0000

  /** The value after a change of priority, which leaves other data alone. */
  function ValueFor(value: nat, priority: nat, priorities: nat): nat {
    if value < IN_USE && priority <= priorities then priorities - priority else value
  }
}
