/** How the writer and the reader of a stream or message buffer wait for each other
    (FreeRTOS-Kernel/stream_buffer.c): a side that finds too little records itself and clears its task
    notification in one critical section and then waits to be notified, while the other side, task or
    interrupt, publishes first and looks for a recorded task afterwards. */
module StreamWait {
  import Rings

  /** The reader in xStreamBufferReceive. */
  datatype Reader =
    | ReaderOut
    | ReaderRecorded     // behind the critical section, recorded as waiting to receive
    | ReaderAsleep       // in xTaskNotifyWait
    | ReaderAwake        // behind it
    | ReaderRechecks     // no longer recorded
    | Reading            // something is available
    | Consumed           // the tail is published, prvRECEIVE_COMPLETED still to come

  /** The writer in xStreamBufferSend, with the space it needs. */
  datatype Writer =
    | WriterOut
    | WriterTop(required: nat)
    | WriterRecorded(required: nat)
    | WriterAsleep(required: nat)
    | WriterAwake(required: nat)
    | Writing
    | Published          // the head is published, the trigger level still to be looked at
    | Completing         // prvSEND_COMPLETED to come

  /** stored holds the sizes of what can be consumed by itself: whole messages with their length field,
      or single bytes.  A side waits while no more than overhead bytes are available. */
  datatype Buffer = Buffer(
    capacity: nat, trigger: nat, overhead: nat, stored: seq<nat>,
    reader: Reader, readerRecorded: bool, readerNotified: bool,
    writer: Writer, writerRecorded: bool, writerNotified: bool)

  datatype Step =
    | Receive(wait: bool)
    | ReaderNotifyWait
    | ReaderWakes(timeout: bool)
    | ReaderForgets
    | ReaderLooks
    | Consume(count: nat)
    | ReceiveCompleted
    | Send(required: nat, wait: bool)
    | LookForSpace
    | WriterNotifyWait
    | WriterWakes(timeout: bool)
    | WriterForgets(expired: bool)
    | Publish(pieces: seq<nat>)
    | LookAtTrigger
    | SendCompleted

  function Total(pieces: seq<nat>): nat {
    if pieces == [] then 0 else pieces[0] + Total(pieces[1..])
  }

  /** prvBytesInBuffer and xStreamBufferSpacesAvailable */
  function Bytes(b: Buffer): nat {
    Total(b.stored)
  }

  function Space(b: Buffer): nat {
    if Bytes(b) <= b.capacity then b.capacity - Bytes(b) else 0
  }

  /** A send waits only for space the empty buffer has: the need of a stream buffer is cut down to it,
      and a message that is too big does not wait. */
  ghost predicate Can(b: Buffer, step: Step) {
    match step
    case Receive(_) => b.reader.ReaderOut?
    case ReaderNotifyWait => b.reader.ReaderRecorded?
    case ReaderWakes(timeout) => b.reader.ReaderAsleep? && (b.readerNotified || timeout)
    case ReaderForgets => b.reader.ReaderAwake?
    case ReaderLooks => b.reader.ReaderRechecks?
    case Consume(count) => b.reader.Reading? && count <= |b.stored|
    case ReceiveCompleted => b.reader.Consumed?
    case Send(required, wait) => b.writer.WriterOut? && (wait ==> required <= b.capacity)
    case LookForSpace => b.writer.WriterTop?
    case WriterNotifyWait => b.writer.WriterRecorded?
    case WriterWakes(timeout) => b.writer.WriterAsleep? && (b.writerNotified || timeout)
    case WriterForgets(_) => b.writer.WriterAwake?
    case Publish(pieces) =>
      b.writer.Writing? && Total(pieces) <= Space(b) && forall p | p in pieces :: p > b.overhead
    case LookAtTrigger => b.writer.Published?
    case SendCompleted => b.writer.Completing?
  }

  function Apply(b: Buffer, step: Step): (r: Buffer)
    requires Can(b, step)
    ensures r.capacity == b.capacity && r.trigger == b.trigger && r.overhead == b.overhead
  {
    match step
    case Receive(wait) =>
      if Bytes(b) > b.overhead then b.(reader := Reading)
      else if wait then b.(reader := ReaderRecorded, readerNotified := false, readerRecorded := true)
      else b
    case ReaderNotifyWait =>
      if b.readerNotified then b.(reader := ReaderAwake, readerNotified := false) else b.(reader := ReaderAsleep)
    case ReaderWakes(_) => b.(reader := ReaderAwake, readerNotified := false)
    case ReaderForgets => b.(reader := ReaderRechecks, readerRecorded := false)
    case ReaderLooks => b.(reader := if Bytes(b) > b.overhead then Reading else ReaderOut)
    case Consume(count) =>
      if count == 0 then b.(reader := ReaderOut) else b.(reader := Consumed, stored := b.stored[count..])
    case ReceiveCompleted =>
      var r := b.(reader := ReaderOut);
      if b.writerRecorded then r.(writerRecorded := false, writerNotified := true) else r
    case Send(required, wait) => b.(writer := if wait then WriterTop(required) else Writing)
    case LookForSpace =>
      if Space(b) < b.writer.required then
        b.(writer := WriterRecorded(b.writer.required), writerNotified := false, writerRecorded := true)
      else b.(writer := Writing)
    case WriterNotifyWait =>
      if b.writerNotified then b.(writer := WriterAwake(b.writer.required), writerNotified := false)
      else b.(writer := WriterAsleep(b.writer.required))
    case WriterWakes(_) => b.(writer := WriterAwake(b.writer.required), writerNotified := false)
    case WriterForgets(expired) =>
      b.(writer := if expired then Writing else WriterTop(b.writer.required), writerRecorded := false)
    case Publish(pieces) =>
      if pieces == [] then b.(writer := WriterOut) else b.(writer := Published, stored := b.stored + pieces)
    case LookAtTrigger => b.(writer := if Bytes(b) >= b.trigger then Completing else WriterOut)
    case SendCompleted =>
      var r := b.(writer := WriterOut);
      if b.readerRecorded then r.(readerRecorded := false, readerNotified := true) else r
  }

  // ---------- the invariant ----------

  ghost predicate Shape(b: Buffer) {
    && 0 < b.trigger && Bytes(b) <= b.capacity
    && forall p | p in b.stored :: p > b.overhead
  }

  /** A reader that waits, or is about to, and has not been notified is recorded, and the trigger level
      is not reached unless the writer is about to notice. */
  ghost predicate ReaderCovered(b: Buffer) {
    (b.reader.ReaderRecorded? || b.reader.ReaderAsleep?) && !b.readerNotified ==>
      b.readerRecorded && (Bytes(b) < b.trigger || b.writer.Published? || b.writer.Completing?)
  }

  ghost predicate WriterCovered(b: Buffer) {
    (b.writer.WriterRecorded? || b.writer.WriterAsleep?) && !b.writerNotified ==>
      b.writerRecorded && (Space(b) < b.writer.required || b.reader.Consumed?)
  }

  ghost predicate NeedFits(b: Buffer) {
    b.writer.WriterTop? || b.writer.WriterRecorded? || b.writer.WriterAsleep? || b.writer.WriterAwake? ==>
      b.writer.required <= b.capacity
  }

  ghost predicate Inv(b: Buffer) {
    Shape(b) && ReaderCovered(b) && WriterCovered(b) && NeedFits(b)
  }

  lemma {:induction false} TotalJoin(a: seq<nat>, c: seq<nat>)
    ensures Total(a + c) == Total(a) + Total(c)
  {
    if a == [] {
      assert a + c == c;
    } else {
      assert (a + c)[1..] == a[1..] + c;
      TotalJoin(a[1..], c);
    }
  }

  lemma TotalDrop(a: seq<nat>, n: nat)
    requires n <= |a|
    ensures Total(a[n..]) <= Total(a)
  {
    assert a == a[..n] + a[n..];
    TotalJoin(a[..n], a[n..]);
  }

  /** There is nothing, or more than a length field: the reader never finds part of a message. */
  lemma NothingOrMore(b: Buffer)
    requires Shape(b)
    ensures Bytes(b) == 0 || Bytes(b) > b.overhead
  {
    if b.stored != [] {
      assert b.stored[0] in b.stored;
    }
  }

  lemma ReceiveKeeps(b: Buffer, wait: bool)
    requires Inv(b) && Can(b, Receive(wait))
    ensures Inv(Apply(b, Receive(wait)))
  {
    NothingOrMore(b);
  }

  lemma ConsumeKeeps(b: Buffer, count: nat)
    requires Inv(b) && Can(b, Consume(count))
    ensures Inv(Apply(b, Consume(count)))
  {
    hide Total;
    TotalDrop(b.stored, count);
    assert forall p | p in b.stored[count..] :: p in b.stored;
  }

  lemma PublishKeeps(b: Buffer, pieces: seq<nat>)
    requires Inv(b) && Can(b, Publish(pieces))
    ensures Inv(Apply(b, Publish(pieces)))
  {
    hide Total;
    TotalJoin(b.stored, pieces);
  }

  /** The reader's steps that leave what is stored as it is ... */
  lemma ReaderKeeps(b: Buffer, step: Step)
    requires Inv(b) && Can(b, step)
    requires step.ReaderNotifyWait? || step.ReaderWakes? || step.ReaderForgets? || step.ReaderLooks?
          || step.ReceiveCompleted?
    ensures Inv(Apply(b, step))
  {
    hide Total;
    var r := Apply(b, step);
    assert r.stored == b.stored && Bytes(r) == Bytes(b) && Space(r) == Space(b);
  }

  /** ... and the writer's. */
  lemma WriterKeeps(b: Buffer, step: Step)
    requires Inv(b) && Can(b, step)
    requires step.Send? || step.LookForSpace? || step.WriterNotifyWait? || step.WriterWakes? || step.WriterForgets?
          || step.LookAtTrigger? || step.SendCompleted?
    ensures Inv(Apply(b, step))
  {
    hide Total;
    var r := Apply(b, step);
    assert r.stored == b.stored && Bytes(r) == Bytes(b) && Space(r) == Space(b);
  }

  lemma StepKeeps(b: Buffer, step: Step)
    requires Inv(b) && Can(b, step)
    ensures Inv(Apply(b, step))
  {
    hide Inv, Can, Apply;
    if step.Receive? {
      ReceiveKeeps(b, step.wait);
    } else if step.Consume? {
      ConsumeKeeps(b, step.count);
    } else if step.Publish? {
      PublishKeeps(b, step.pieces);
    } else if step.ReaderNotifyWait? || step.ReaderWakes? || step.ReaderForgets? || step.ReaderLooks?
           || step.ReceiveCompleted? {
      ReaderKeeps(b, step);
    } else {
      WriterKeeps(b, step);
    }
  }

  // ---------- runs ----------

  ghost predicate Run(b: Buffer, steps: seq<Step>)
    decreases |steps|
  {
    steps != [] ==> Can(b, steps[0]) && Run(Apply(b, steps[0]), steps[1..])
  }

  ghost function After(b: Buffer, steps: seq<Step>): Buffer
    requires Run(b, steps)
    decreases |steps|
  {
    if steps == [] then b else After(Apply(b, steps[0]), steps[1..])
  }

  /** An empty buffer; overhead is the size of a length field in a message buffer and 0 otherwise. */
  function Fresh(capacity: nat, trigger: nat, overhead: nat): Buffer {
    Buffer(capacity, trigger, overhead, [], ReaderOut, false, false, WriterOut, false, false)
  }

  lemma {:induction false} RunKeeps(b: Buffer, steps: seq<Step>)
    requires Inv(b) && Run(b, steps)
    ensures Inv(After(b, steps))
    ensures var r := After(b, steps);
      r.capacity == b.capacity && r.trigger == b.trigger && r.overhead == b.overhead
    decreases |steps|
  {
    hide Inv, Can, Apply;
    if steps != [] {
      StepKeeps(b, steps[0]);
      RunKeeps(Apply(b, steps[0]), steps[1..]);
    }
  }

  /** No lost wake-up for the reader: in every interleaving, if the reader sleeps without a
      notification and the writer is not on its way to make one, the trigger level is not reached. */
  lemma NoLostReader(capacity: nat, trigger: nat, overhead: nat, steps: seq<Step>)
    requires trigger > 0 && Run(Fresh(capacity, trigger, overhead), steps)
    ensures var b := After(Fresh(capacity, trigger, overhead), steps);
      b.reader.ReaderAsleep? && !b.readerNotified && !b.writer.Published? && !b.writer.Completing? ==>
        Bytes(b) < trigger
  {
    RunKeeps(Fresh(capacity, trigger, overhead), steps);
  }

  /** No lost wake-up for the writer: if it sleeps without a notification and the reader is not on its
      way to make one, the space it needs is not there. */
  lemma NoLostWriter(capacity: nat, trigger: nat, overhead: nat, steps: seq<Step>)
    requires trigger > 0 && Run(Fresh(capacity, trigger, overhead), steps)
    ensures var b := After(Fresh(capacity, trigger, overhead), steps);
      b.writer.WriterAsleep? && !b.writerNotified && !b.reader.Consumed? ==>
        capacity - Bytes(b) < b.writer.required
  {
    RunKeeps(Fresh(capacity, trigger, overhead), steps);
  }

  // ---------- what is stored ----------

  /** The pieces published over the run. */
  function PutIn(steps: seq<Step>): seq<nat> {
    if steps == [] then [] else (if steps[0].Publish? then steps[0].pieces else []) + PutIn(steps[1..])
  }

  /** The pieces consumed over the run. */
  ghost function TakenOut(b: Buffer, steps: seq<Step>): seq<nat>
    requires Run(b, steps)
    decreases |steps|
  {
    if steps == [] then []
    else
      (if steps[0].Consume? then b.stored[..steps[0].count] else []) + TakenOut(Apply(b, steps[0]), steps[1..])
  }

  /** In every interleaving what was consumed and what is stored is what was stored at first and what was
      published, in this order. */
  lemma {:induction false} InOrder(b: Buffer, steps: seq<Step>)
    requires Run(b, steps)
    ensures TakenOut(b, steps) + After(b, steps).stored == b.stored + PutIn(steps)
    decreases |steps|
  {
    hide Can, Apply;
    if steps != [] {
      var n := Apply(b, steps[0]);
      StoredStep(b, steps[0]);
      var put := if steps[0].Publish? then steps[0].pieces else [];
      var got := if steps[0].Consume? then b.stored[..steps[0].count] else [];
      InOrder(n, steps[1..]);
      Rings.Rejoin(b.stored, put, PutIn(steps[1..]), got, n.stored, TakenOut(n, steps[1..]), After(n, steps[1..]).stored);
    }
  }

  lemma StoredStep(b: Buffer, step: Step)
    requires Can(b, step)
    ensures step.Consume? ==> step.count <= |b.stored|
    ensures (if step.Consume? then b.stored[..step.count] else []) + Apply(b, step).stored
         == b.stored + if step.Publish? then step.pieces else []
  {
    hide Total;
  }

  // ---------- both asleep ----------

  /** Reader and writer both sleep, neither notified. */
  ghost predicate BothAsleep(b: Buffer) {
    b.reader.ReaderAsleep? && !b.readerNotified && b.writer.WriterAsleep? && !b.writerNotified
  }

  /** A reader that waits for the trigger level and a writer that waits for space sleep at the same time
      only if the two together are more than the buffer can serve. */
  lemma AsleepMeans(capacity: nat, trigger: nat, overhead: nat, steps: seq<Step>)
    requires trigger > 0 && Run(Fresh(capacity, trigger, overhead), steps)
    requires BothAsleep(After(Fresh(capacity, trigger, overhead), steps))
    ensures trigger + After(Fresh(capacity, trigger, overhead), steps).writer.required >= capacity + 2
  {
    RunKeeps(Fresh(capacity, trigger, overhead), steps);
  }

  /** With trigger level 1, as every message buffer is created with, they never sleep at the same time,
      in no interleaving and for no size. */
  lemma NeverBothAtOne(capacity: nat, overhead: nat, steps: seq<Step>)
    requires Run(Fresh(capacity, 1, overhead), steps)
    ensures !BothAsleep(After(Fresh(capacity, 1, overhead), steps))
  {
    RunKeeps(Fresh(capacity, 1, overhead), steps);
  }

  function Ones(n: nat): (s: seq<nat>)
    ensures |s| == n && forall p | p in s :: p == 1
  {
    seq(n, _ => 1)
  }

  lemma {:induction false} TotalOnes(n: nat)
    ensures Total(Ones(n)) == n
  {
    if n > 0 {
      assert Ones(n)[1..] == Ones(n - 1);
      TotalOnes(n - 1);
    }
  }

  /** The steps by which the two fall asleep: the reader first, then the writer behind one byte less
      than the trigger level. */
  function FallAsleep(trigger: nat, required: nat): seq<Step>
    requires trigger > 0
  {
    [Receive(true), ReaderNotifyWait, Send(0, false), Publish(Ones(trigger - 1)), LookAtTrigger,
     Send(required, true), LookForSpace, WriterNotifyWait]
  }

  lemma RunOne(b: Buffer, step: Step, rest: seq<Step>)
    requires Can(b, step) && Run(Apply(b, step), rest)
    ensures Run(b, [step] + rest) && After(b, [step] + rest) == After(Apply(b, step), rest)
  {
    hide Can, Apply;
    assert ([step] + rest)[1..] == rest;
  }

  /** In a stream buffer that is too small for both it does happen: a byte less than the trigger level
      is stored, the writer needs more than is left, and each waits for the other. */
  lemma AsleepHappens(capacity: nat, trigger: nat, required: nat)
    requires trigger <= capacity && required <= capacity && trigger + required >= capacity + 2
    ensures Run(Fresh(capacity, trigger, 0), FallAsleep(trigger, required))
    ensures BothAsleep(After(Fresh(capacity, trigger, 0), FallAsleep(trigger, required)))
  {
    hide Run, After, Total;
    var b0 := Fresh(capacity, trigger, 0);
    var ones := Ones(trigger - 1);
    assert Total([]) == 0 by {
      TotalOnes(0);
      assert Ones(0) == [];
    }
    TotalOnes(trigger - 1);
    var b1 := Apply(b0, Receive(true));
    var b2 := Apply(b1, ReaderNotifyWait);
    var b3 := Apply(b2, Send(0, false));
    assert b3.stored + ones == ones;
    var b4 := Apply(b3, Publish(ones));
    var b5 := Apply(b4, LookAtTrigger);
    WriterSleeps(b5, required);
    var last := [Send(required, true), LookForSpace, WriterNotifyWait];
    RunOne(b4, LookAtTrigger, last);
    RunOne(b3, Publish(ones), [LookAtTrigger] + last);
    RunOne(b2, Send(0, false), [Publish(ones)] + ([LookAtTrigger] + last));
    var more := [Send(0, false)] + ([Publish(ones)] + ([LookAtTrigger] + last));
    RunOne(b1, ReaderNotifyWait, more);
    RunOne(b0, Receive(true), [ReaderNotifyWait] + more);
    assert FallAsleep(trigger, required) == [Receive(true)] + ([ReaderNotifyWait] + more);
  }

  lemma WriterSleeps(b: Buffer, required: nat)
    requires b.writer.WriterOut? && Space(b) < required <= b.capacity
    ensures var last := [Send(required, true), LookForSpace, WriterNotifyWait];
      Run(b, last) && After(b, last) == b.(writer := WriterAsleep(required), writerRecorded := true, writerNotified := false)
  {
    hide Total, Run, After;
    var c := Apply(b, Send(required, true));
    var d := Apply(c, LookForSpace);
    var e := Apply(d, WriterNotifyWait);
    RunNone(e);
    RunOne(d, WriterNotifyWait, []);
    assert [WriterNotifyWait] + [] == [WriterNotifyWait];
    RunOne(c, LookForSpace, [WriterNotifyWait]);
    assert [LookForSpace] + [WriterNotifyWait] == [LookForSpace, WriterNotifyWait];
    RunOne(b, Send(required, true), [LookForSpace, WriterNotifyWait]);
    assert [Send(required, true)] + [LookForSpace, WriterNotifyWait]
        == [Send(required, true), LookForSpace, WriterNotifyWait];
  }

  lemma RunNone(b: Buffer)
    ensures Run(b, []) && After(b, []) == b
  {
  }
}
