/** One writer and one reader on the byte ring of FreeRTOS-Kernel/stream_buffer.c without any lock: each
    read of a shared index, each byte copied and each publication of an index is a step of its own, and
    the two sides may interleave in any way.  The ring is a stream of bytes or, framed, a buffer of
    messages; what framing means for the messages is the subject of module MessageRace. */
module StreamRace {
  import opened Slots
  import opened StreamBuffer

  /** The writer on its way through xStreamBufferSpacesAvailable and prvWriteMessageToBuffer.  seen
      counts the bytes that had been consumed when the tail was read. */
  datatype Writer =
    | WriterIdle
    | ReadOriginalTail(data: seq<Byte>)
    | ReadTail(data: seq<Byte>, original: nat)
    | ReadHead(data: seq<Byte>, original: nat, sum: nat, seen: nat)
    | CompareTail(data: seq<Byte>, original: nat, sum: nat, seen: nat)
    | CopyIn(data: seq<Byte>, count: nat, done: nat)

  /** The reader on its way through prvBytesInBuffer and prvReadMessageFromBuffer.  seen counts the
      bytes, and frames the messages, that had been published when the head was read. */
  datatype Reader =
    | ReaderIdle
    | LookAtHead(room: nat)
    | LookAtTail(room: nat, sum: nat, seen: nat, frames: nat)
    | ReadLength(room: nat, available: nat, frames: nat, field: seq<Byte>)
    | CopyOut(field: seq<Byte>, count: nat, got: seq<Byte>)

  /** The shared state, the two sides, and the history: all bytes published and all bytes consumed, and
      in a message buffer all messages published and delivered. */
  datatype Race = Race(
    framed: bool, buffer: seq<Byte>, head: nat, tail: nat, writer: Writer, reader: Reader,
    sent: seq<Byte>, received: seq<Byte>, accepted: seq<Message>, delivered: seq<Message>)

  datatype Step =
    | Send(data: seq<Byte>)
    | WriterStep
    | Receive(room: nat)
    | ReaderStep

  predicate Can(s: Race, step: Step) {
    match step
    case Send(data) => s.writer.WriterIdle? && (s.framed ==> IsLength(|data|))
    case WriterStep => !s.writer.WriterIdle?
    case Receive(_) => s.reader.ReaderIdle?
    case ReaderStep => !s.reader.ReaderIdle?
  }

  /** The last lines of the two size computations. */
  function Reduced(n: nat, length: nat): nat {
    if n >= length then n - length else n
  }

  /** Where the writer puts its next byte and where the reader takes its next byte from. */
  function WriteSlot(s: Race): nat
    requires s.writer.CopyIn? && s.head < |s.buffer| && s.writer.done < |s.buffer|
  {
    Wrap(s.head + s.writer.done, |s.buffer|)
  }

  function ReadSlot(s: Race): nat
    requires s.reader.ReadLength? || s.reader.CopyOut?
    requires s.tail < |s.buffer| && Taken(s.reader) < |s.buffer|
  {
    Wrap(s.tail + Taken(s.reader), |s.buffer|)
  }

  /** How many bytes the reader has taken out and not yet consumed. */
  function Taken(reader: Reader): nat
    requires reader.ReadLength? || reader.CopyOut?
  {
    match reader
    case ReadLength(_, _, _, field) => |field|
    case CopyOut(field, _, got) => |field| + |got|
  }

  /** What is to be copied in: as much of a stream as there is space for; of a message its length and
      then all of it, or nothing.  The length of an empty message is copied and never published. */
  function Prepared(framed: bool, data: seq<Byte>, space: nat): Writer
    requires framed ==> IsLength(|data|)
  {
    if framed then
      if space >= LENGTH_BYTES + |data| then CopyIn(Field(|data|) + data, LENGTH_BYTES + |data|, 0) else WriterIdle
    else
      if Min(|data|, space) == 0 then WriterIdle else CopyIn(data, Min(|data|, space), 0)
  }

  function StepWriter(s: Race): Race
    requires Shape(s)
  {
    var length := |s.buffer|;
    match s.writer
    case WriterIdle => s
    case ReadOriginalTail(data) => s.(writer := ReadTail(data, s.tail))
    case ReadTail(data, original) => s.(writer := ReadHead(data, original, length + s.tail, |s.received|))
    case ReadHead(data, original, sum, seen) =>
      s.(writer := CompareTail(data, original, if sum >= s.head then sum - s.head else 0, seen))
    case CompareTail(data, original, sum, seen) =>
      if original != s.tail then s.(writer := ReadOriginalTail(data))
      else
        s.(writer := Prepared(s.framed, data, Reduced(if sum >= 1 then sum - 1 else 0, length)))
    case CopyIn(data, count, done) =>
      if done < count then s.(buffer := s.buffer[WriteSlot(s) := data[done]], writer := CopyIn(data, count, done + 1))
      else if s.framed && count <= LENGTH_BYTES then s.(writer := WriterIdle)
      else
        s.(head := Wrap(s.head + count, length), sent := s.sent + data[..count], writer := WriterIdle,
           accepted := if s.framed then s.accepted + [data[LENGTH_BYTES..count]] else s.accepted)
  }

  function StepReader(s: Race): Race
    requires Shape(s)
  {
    var length := |s.buffer|;
    match s.reader
    case ReaderIdle => s
    case LookAtHead(room) => s.(reader := LookAtTail(room, length + s.head, |s.sent|, |s.accepted|))
    case LookAtTail(room, sum, seen, frames) =>
      var available := Reduced(if sum >= s.tail then sum - s.tail else 0, length);
      s.(reader := if s.framed && available > LENGTH_BYTES then ReadLength(room, available, frames, [])
                   else if s.framed || Min(room, available) == 0 then ReaderIdle
                   else CopyOut([], Min(room, available), []))
    case ReadLength(room, available, frames, field) =>
      if |field| < LENGTH_BYTES then
        s.(reader := ReadLength(room, available, frames, field + [s.buffer[ReadSlot(s)]]))
      else
        var count := Min(if Unfield(field) > room then 0 else Unfield(field), available - LENGTH_BYTES);
        s.(reader := if count == 0 then ReaderIdle else CopyOut(field, count, []))
    case CopyOut(field, count, got) =>
      if |got| < count then s.(reader := CopyOut(field, count, got + [s.buffer[ReadSlot(s)]]))
      else
        s.(tail := Wrap(s.tail + |field| + count, length), received := s.received + field + got,
           delivered := if s.framed then s.delivered + [got] else s.delivered, reader := ReaderIdle)
  }

  predicate Shape(s: Race) {
    && s.head < |s.buffer| && s.tail < |s.buffer|
    && (s.writer.CopyIn? ==> s.writer.done <= s.writer.count < |s.buffer| && s.writer.count <= |s.writer.data|)
    && (s.framed && !s.writer.WriterIdle? && !s.writer.CopyIn? ==> IsLength(|s.writer.data|))
    && (s.reader.ReadLength? ==>
          |s.reader.field| <= LENGTH_BYTES < s.reader.available < |s.buffer|)
    && (s.reader.CopyOut? ==>
          |s.reader.got| <= s.reader.count && |s.reader.field| + s.reader.count < |s.buffer|)
  }

  function Apply(s: Race, step: Step): Race
    requires Shape(s) && Can(s, step)
  {
    match step
    case Send(data) => s.(writer := ReadOriginalTail(data))
    case WriterStep => StepWriter(s)
    case Receive(room) => s.(reader := LookAtHead(room))
    case ReaderStep => StepReader(s)
  }

  // ---------- the invariant ----------

  /** The slot of byte k of the whole stream. */
  function SlotOf(k: nat, length: nat): (j: nat)
    ensures length > 0 ==> j < length
  {
    if length == 0 then 0 else Ahead(0, k, length)
  }

  ghost predicate Stored(s: Race) {
    var length, h, t := |s.buffer|, |s.sent|, |s.received|;
    && s.head == SlotOf(h, length) && s.tail == SlotOf(t, length)
    && t <= h < t + length
    && s.received <= s.sent
    && (forall k | t <= k < h :: s.buffer[SlotOf(k, length)] == s.sent[k])
  }

  ghost predicate WriterKnows(s: Race)
    requires Shape(s)
  {
    var length, h, t := |s.buffer|, |s.sent|, |s.received|;
    match s.writer
    case ReadHead(_, _, sum, seen) => seen <= t && h < seen + length && sum == length + SlotOf(seen, length)
    case CompareTail(_, _, sum, seen) =>
      seen <= t && h < seen + length && sum == length + SlotOf(seen, length) - s.head
    case CopyIn(data, count, done) =>
      && 0 < count && h + count < t + length
      && forall i | 0 <= i < done :: s.buffer[SlotOf(h + i, length)] == data[i]
    case _ => true
  }

  ghost predicate ReaderKnows(s: Race)
    requires Shape(s)
  {
    var length, h, t := |s.buffer|, |s.sent|, |s.received|;
    match s.reader
    case LookAtTail(_, sum, seen, _) => t <= seen <= h && sum == length + SlotOf(seen, length)
    case ReadLength(_, available, _, field) => t + available <= h && field == s.sent[t..t + |field|]
    case CopyOut(field, count, got) =>
      && 0 < count && t + |field| + count <= h
      && field == s.sent[t..t + |field|] && got == s.sent[t + |field|..t + |field| + |got|]
    case _ => true
  }

  ghost predicate Inv(s: Race) {
    Shape(s) && Stored(s) && WriterKnows(s) && ReaderKnows(s)
  }

  lemma SlotOn(k: nat, n: nat, length: nat)
    requires n < length
    ensures Wrap(SlotOf(k, length) + n, length) == SlotOf(k + n, length)
  {
    AheadAgain(0, k, n, length);
    AheadWraps(SlotOf(k, length), n, length);
  }

  lemma SlotsDiffer(j: nat, k: nat, length: nat)
    requires j < k < j + length
    ensures SlotOf(j, length) != SlotOf(k, length)
  {
    AheadApart(0, j, k, length);
  }

  /** What the two size computations come to when the index read is a bit old. */
  lemma Distance(older: nat, newer: nat, length: nat)
    requires older <= newer < older + length
    ensures Reduced(length + SlotOf(newer, length) - SlotOf(older, length), length) == newer - older
    ensures Reduced(length + SlotOf(older, length) - SlotOf(newer, length) - 1, length) == length - 1 - (newer - older)
  {
    SlotOn(older, newer - older, length);
  }

  lemma WriterCopies(s: Race)
    requires Inv(s) && s.writer.CopyIn? && s.writer.done < s.writer.count
    ensures Inv(StepWriter(s))
  {
    hide SlotOf, Wrap;
    var CopyIn(data, count, done) := s.writer;
    var length, h, t := |s.buffer|, |s.sent|, |s.received|;
    SlotOn(h, done, length);
    var r := StepWriter(s);
    forall k | t <= k < h + done
      ensures r.buffer[SlotOf(k, length)] == s.buffer[SlotOf(k, length)]
    {
      SlotsDiffer(k, h + done, length);
    }
  }

  /** Where the writer is matters to nothing but its own part. */
  lemma OnlyWriter(s: Race, w: Writer)
    requires Inv(s)
    ensures Stored(s.(writer := w)) && (Shape(s.(writer := w)) ==> ReaderKnows(s.(writer := w)))
  {
    hide SlotOf;
  }

  lemma StoredGrows(s: Race, r: Race, more: seq<Byte>)
    requires Shape(s) && Stored(s) && r.buffer == s.buffer && r.tail == s.tail && r.received == s.received
    requires r.sent == s.sent + more && r.head == SlotOf(|s.sent| + |more|, |s.buffer|)
    requires |s.sent| + |more| < |s.received| + |s.buffer|
    requires forall i | 0 <= i < |more| :: s.buffer[SlotOf(|s.sent| + i, |s.buffer|)] == more[i]
    ensures Stored(r)
  {
    hide SlotOf;
    var h := |s.sent|;
    forall k | |s.received| <= k < |r.sent|
      ensures s.buffer[SlotOf(k, |s.buffer|)] == r.sent[k]
    {
      if k >= h {
        assert SlotOf(h + (k - h), |s.buffer|) == SlotOf(k, |s.buffer|);
      }
    }
  }

  lemma ReaderKnowsGrown(s: Race, r: Race, more: seq<Byte>)
    requires Shape(s) && ReaderKnows(s) && Shape(r)
    requires r.buffer == s.buffer && r.received == s.received && r.reader == s.reader && r.sent == s.sent + more
    ensures ReaderKnows(r)
  {
    hide SlotOf;
    assert forall i, j | 0 <= i <= j <= |s.sent| :: r.sent[i..j] == s.sent[i..j];
  }

  lemma WriterPublishes(s: Race)
    requires Inv(s) && s.writer.CopyIn? && s.writer.done == s.writer.count
    requires s.framed ==> s.writer.count > LENGTH_BYTES
    ensures Inv(StepWriter(s))
  {
    hide SlotOf, Wrap, Stored, ReaderKnows;
    var CopyIn(data, count, done) := s.writer;
    SlotIs(s);
    SlotOn(|s.sent|, count, |s.buffer|);
    StoredGrows(s, StepWriter(s), data[..count]);
    ReaderKnowsGrown(s, StepWriter(s), data[..count]);
  }

  lemma SlotIs(s: Race)
    requires Inv(s)
    ensures s.head == SlotOf(|s.sent|, |s.buffer|) && s.tail == SlotOf(|s.received|, |s.buffer|)
    ensures |s.received| <= |s.sent| < |s.received| + |s.buffer|
  {
  }

  lemma WriterCompares(s: Race)
    requires Inv(s) && s.writer.CompareTail?
    ensures Inv(StepWriter(s))
  {
    hide SlotOf, Wrap, Stored, ReaderKnows, Field;
    SlotIs(s);
    OnlyWriter(s, StepWriter(s).writer);
    Distance(s.writer.seen, |s.sent|, |s.buffer|);
  }

  /** A message without payload leaves its length behind the published bytes. */
  lemma WriterReads(s: Race)
    requires Inv(s) && !s.writer.CompareTail?
    requires s.writer.CopyIn? ==> s.writer.done == s.writer.count && s.framed && s.writer.count <= LENGTH_BYTES
    ensures Inv(StepWriter(s))
  {
    hide SlotOf, Wrap, Stored, ReaderKnows;
    SlotIs(s);
    OnlyWriter(s, StepWriter(s).writer);
  }

  lemma WriterKeeps(s: Race)
    requires Inv(s)
    ensures Inv(StepWriter(s))
  {
    hide Stored, WriterKnows, ReaderKnows;
    if s.writer.CompareTail? {
      WriterCompares(s);
    } else if s.writer.CopyIn? {
      if s.writer.done < s.writer.count {
        WriterCopies(s);
      } else if s.framed && s.writer.count <= LENGTH_BYTES {
        WriterReads(s);
      } else {
        WriterPublishes(s);
      }
    } else {
      WriterReads(s);
    }
  }

  lemma ReaderLooks(s: Race)
    requires Inv(s) && !s.reader.ReadLength? && !s.reader.CopyOut?
    ensures Inv(StepReader(s))
  {
    hide SlotOf, Wrap, Stored, WriterKnows;
    SlotIs(s);
    OnlyReader(s, StepReader(s).reader);
    if s.reader.LookAtTail? {
      Distance(|s.received|, s.reader.seen, |s.buffer|);
    }
  }

  /** The next byte taken out is the next byte published. */
  lemma NextByte(s: Race)
    requires Inv(s) && (s.reader.ReadLength? || s.reader.CopyOut?)
    requires |s.received| + Taken(s.reader) < |s.sent|
    ensures Taken(s.reader) < |s.buffer| && ReadSlot(s) == SlotOf(|s.received| + Taken(s.reader), |s.buffer|)
    ensures s.buffer[ReadSlot(s)] == s.sent[|s.received| + Taken(s.reader)]
  {
    hide SlotOf, Wrap, WriterKnows;
    SlotOn(|s.received|, Taken(s.reader), |s.buffer|);
  }

  /** Where the reader is matters to nothing but its own part. */
  lemma OnlyReader(s: Race, r: Reader)
    requires Inv(s)
    ensures Stored(s.(reader := r)) && (Shape(s.(reader := r)) ==> WriterKnows(s.(reader := r)))
  {
    hide SlotOf;
  }

  lemma Longer<T>(s: seq<T>, from: nat, to: nat)
    requires from <= to < |s|
    ensures s[from..to] + [s[to]] == s[from..to + 1]
  {
  }

  lemma ReaderReadsByte(s: Race)
    requires Inv(s) && s.reader.ReadLength? && |s.reader.field| < LENGTH_BYTES
    ensures Inv(StepReader(s))
  {
    hide SlotOf, Wrap, Unfield, Stored, WriterKnows;
    SlotIs(s);
    NextByte(s);
    OnlyReader(s, StepReader(s).reader);
    Longer(s.sent, |s.received|, |s.received| + |s.reader.field|);
  }

  lemma ReaderReadsLength(s: Race)
    requires Inv(s) && s.reader.ReadLength? && |s.reader.field| == LENGTH_BYTES
    ensures Inv(StepReader(s))
  {
    hide SlotOf, Wrap, Unfield, Stored, WriterKnows;
    OnlyReader(s, StepReader(s).reader);
  }

  lemma ReaderCopies(s: Race)
    requires Inv(s) && s.reader.CopyOut? && |s.reader.got| < s.reader.count
    ensures Inv(StepReader(s))
  {
    hide SlotOf, Wrap, Stored, WriterKnows;
    SlotIs(s);
    NextByte(s);
    OnlyReader(s, StepReader(s).reader);
    Longer(s.sent, |s.received| + |s.reader.field|, |s.received| + |s.reader.field| + |s.reader.got|);
  }

  lemma ReaderConsumes(s: Race)
    requires Inv(s) && s.reader.CopyOut? && |s.reader.got| == s.reader.count
    ensures Inv(StepReader(s))
  {
    hide SlotOf, Wrap;
    var n := |s.reader.field| + s.reader.count;
    SlotOn(|s.received|, n, |s.buffer|);
    assert s.received + s.reader.field + s.reader.got == s.sent[..|s.received| + n];
  }

  lemma ReaderKeeps(s: Race)
    requires Inv(s)
    ensures Inv(StepReader(s))
  {
    hide Stored, WriterKnows, ReaderKnows;
    if s.reader.ReadLength? {
      if |s.reader.field| < LENGTH_BYTES {
        ReaderReadsByte(s);
      } else {
        ReaderReadsLength(s);
      }
    } else if s.reader.CopyOut? {
      if |s.reader.got| < s.reader.count {
        ReaderCopies(s);
      } else {
        ReaderConsumes(s);
      }
    } else {
      ReaderLooks(s);
    }
  }

  lemma StepKeeps(s: Race, step: Step)
    requires Inv(s) && Can(s, step)
    ensures Inv(Apply(s, step))
  {
    match step {
      case WriterStep => WriterKeeps(s);
      case ReaderStep => ReaderKeeps(s);
      case _ =>
    }
  }

  // ---------- safety ----------

  /** The writer never overwrites an unread byte: no published byte still to be consumed lies in the
      slot it is about to write, whatever the reader does meanwhile. */
  lemma NeverOverwritesUnread(s: Race, k: nat)
    requires Inv(s) && s.writer.CopyIn? && s.writer.done < s.writer.count
    requires |s.received| <= k < |s.sent|
    ensures WriteSlot(s) != SlotOf(k, |s.buffer|)
  {
    hide SlotOf, Wrap;
    SlotOn(|s.sent|, s.writer.done, |s.buffer|);
    SlotsDiffer(k, |s.sent| + s.writer.done, |s.buffer|);
  }

  /** The reader never reads an unpublished byte: what it is about to read, of a length or of data, is
      the next byte of what was published. */
  lemma NeverReadsUnpublished(s: Race)
    requires Inv(s)
    requires (s.reader.ReadLength? && |s.reader.field| < LENGTH_BYTES)
          || (s.reader.CopyOut? && |s.reader.got| < s.reader.count)
    ensures var k := |s.received| + Taken(s.reader);
      && k < |s.sent| && Taken(s.reader) < |s.buffer|
      && ReadSlot(s) == SlotOf(k, |s.buffer|) && s.buffer[ReadSlot(s)] == s.sent[k]
  {
    hide SlotOf, Wrap;
    NextByte(s);
  }

  ghost predicate Run(s: Race, steps: seq<Step>)
    requires Inv(s)
    decreases |steps|
  {
    steps != [] ==> Can(s, steps[0]) && (StepKeeps(s, steps[0]); Run(Apply(s, steps[0]), steps[1..]))
  }

  ghost function After(s: Race, steps: seq<Step>): Race
    requires Inv(s) && Run(s, steps)
    decreases |steps|
  {
    if steps == [] then s else (StepKeeps(s, steps[0]); After(Apply(s, steps[0]), steps[1..]))
  }

  /** An empty ring; what its bytes are does not matter. */
  ghost function Fresh(buffer: seq<Byte>, framed: bool): (s: Race)
    requires buffer != []
    ensures Inv(s)
  {
    assert SlotOf(0, |buffer|) == 0;
    Race(framed, buffer, 0, 0, WriterIdle, ReaderIdle, [], [], [], [])
  }

  lemma {:induction false} RunKeeps(s: Race, steps: seq<Step>)
    requires Inv(s) && Run(s, steps)
    ensures Inv(After(s, steps))
    decreases |steps|
  {
    hide Stored, WriterKnows, ReaderKnows;
    if steps != [] {
      StepKeeps(s, steps[0]);
      RunKeeps(Apply(s, steps[0]), steps[1..]);
    }
  }

  /** In every interleaving the bytes received are a prefix of the bytes sent, less than a ring length
      behind, and those in between lie unchanged in the ring. */
  lemma PrefixReceived(buffer: seq<Byte>, framed: bool, steps: seq<Step>)
    requires buffer != [] && Run(Fresh(buffer, framed), steps)
    ensures var s := After(Fresh(buffer, framed), steps);
      && s.received <= s.sent && |s.sent| < |s.received| + |s.buffer|
      && forall k | |s.received| <= k < |s.sent| ::
           |s.buffer| > 0 && s.buffer[SlotOf(k, |s.buffer|)] == s.sent[k]
  {
    RunKeeps(Fresh(buffer, framed), steps);
  }

  /** Bytes are sent in the order they were given: publishing appends what was copied in. */
  lemma PublishedIsCopied(s: Race)
    requires Inv(s) && s.writer.CopyIn? && s.writer.done == s.writer.count
    requires s.framed ==> s.writer.count > LENGTH_BYTES
    ensures StepWriter(s).sent == s.sent + s.writer.data[..s.writer.count]
    ensures forall i | 0 <= i < s.writer.count ::
              s.buffer[SlotOf(|s.sent| + i, |s.buffer|)] == s.writer.data[i]
  {
  }
}
