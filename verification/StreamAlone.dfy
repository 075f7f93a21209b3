/** What a side of module StreamRace gets done when the other side stands still: a send publishes as much as
    there is space for, and a receive takes out as much as was published and fits its room. */
module StreamAlone {
  import opened StreamBuffer
  import opened StreamRace

  /** The run leads from s to r. */
  ghost predicate Leads(s: Race, steps: seq<Step>, r: Race) {
    Inv(s) && StreamRace.Run(s, steps) && After(s, steps) == r && Inv(r)
  }

  lemma LeadsNowhere(s: Race)
    requires Inv(s)
    ensures Leads(s, [], s)
  {
    hide Inv;
  }

  lemma LeadsFirst(s: Race, step: Step, m: Race, rest: seq<Step>, r: Race)
    requires Inv(s) && Can(s, step) && m == StreamRace.Apply(s, step) && Leads(m, rest, r)
    ensures Leads(s, [step] + rest, r)
  {
    hide Inv, Can, StreamRace.Apply;
    StepKeeps(s, step);
    assert ([step] + rest)[1..] == rest;
  }

  /** Only the writer moves. */
  ghost predicate WriterOnly(steps: seq<Step>) {
    forall i | 0 <= i < |steps| :: steps[i] == WriterStep
  }

  ghost predicate ReaderOnly(steps: seq<Step>) {
    forall i | 0 <= i < |steps| :: steps[i] == ReaderStep
  }

  lemma InvShape(s: Race)
    requires Inv(s)
    ensures Shape(s)
  {
  }

  // ---------- the writer ----------

  /** What a send leaves when it is done: the bytes of the stream or the message published. */
  ghost predicate Published(s: Race, r: Race, more: seq<Byte>, messages: seq<Message>) {
    && r.writer.WriterIdle? && r.reader == s.reader && r.tail == s.tail
    && r.received == s.received && r.delivered == s.delivered && r.framed == s.framed && |r.buffer| == |s.buffer|
    && r.sent == s.sent + more && r.accepted == s.accepted + messages
  }

  /** Once it has begun to copy, the writer copies everything it has prepared and publishes it. */
  lemma CopyAlone(s: Race) returns (steps: seq<Step>, r: Race)
    requires Inv(s) && s.writer.CopyIn?
    ensures Leads(s, steps, r) && WriterOnly(steps)
    ensures s.writer.count <= |s.writer.data|
    ensures var d := s.writer.data[..s.writer.count];
      Published(s, r, if s.framed && |d| <= LENGTH_BYTES then [] else d,
                if s.framed && |d| > LENGTH_BYTES then [d[LENGTH_BYTES..]] else [])
    decreases s.writer.count - s.writer.done
  {
    hide Stored, WriterKnows, ReaderKnows, Leads, Wrap;
    InvShape(s);
    StepKeeps(s, WriterStep);
    var m := StreamRace.Apply(s, WriterStep);
    if s.writer.done < s.writer.count {
      var rest;
      rest, r := CopyAlone(m);
      steps := [WriterStep] + rest;
      LeadsFirst(s, WriterStep, m, rest, r);
    } else {
      r := m;
      var d := s.writer.data[..s.writer.count];
      assert |d| > LENGTH_BYTES ==> s.writer.data[LENGTH_BYTES..s.writer.count] == d[LENGTH_BYTES..];
      assert s.sent + [] == s.sent && s.accepted + [] == s.accepted;
      steps := [WriterStep] + [];
      LeadsNowhere(m);
      LeadsFirst(s, WriterStep, m, [], r);
    }
  }

  /** The writer's look at the indices, nobody else moving them. */
  lemma LookAlone(s: Race) returns (steps: seq<Step>, r: Race)
    requires Inv(s) && s.writer.ReadOriginalTail?
    ensures Leads(s, steps, r) && WriterOnly(steps)
    ensures |s.received| <= |s.sent| < |s.received| + |s.buffer| && (s.framed ==> IsLength(|s.writer.data|))
    ensures r == s.(writer := Prepared(s.framed, s.writer.data, |s.buffer| - 1 - (|s.sent| - |s.received|)))
  {
    hide Stored, WriterKnows, ReaderKnows, Leads, SlotOf, Prepared;
    InvShape(s);
    SlotIs(s);
    Distance(|s.received|, |s.sent|, |s.buffer|);
    StepKeeps(s, WriterStep);
    var a := StreamRace.Apply(s, WriterStep);
    StepKeeps(a, WriterStep);
    var b := StreamRace.Apply(a, WriterStep);
    StepKeeps(b, WriterStep);
    var c := StreamRace.Apply(b, WriterStep);
    StepKeeps(c, WriterStep);
    r := StreamRace.Apply(c, WriterStep);
    LeadsNowhere(r);
    LeadsFirst(c, WriterStep, r, [], r);
    LeadsFirst(b, WriterStep, c, [WriterStep] + [], r);
    LeadsFirst(a, WriterStep, b, [WriterStep] + ([WriterStep] + []), r);
    LeadsFirst(s, WriterStep, a, [WriterStep] + ([WriterStep] + ([WriterStep] + [])), r);
    steps := [WriterStep] + ([WriterStep] + ([WriterStep] + ([WriterStep] + [])));
  }

  /** A send alone: into a stream go as many bytes as there is space for; a message goes in whole if there is
      space for it and its length, and otherwise, or if it is empty, not at all. */
  lemma SendAlone(s: Race, data: seq<Byte>) returns (steps: seq<Step>, r: Race)
    requires Inv(s) && Can(s, Send(data))
    ensures Leads(s, [Send(data)] + steps, r) && WriterOnly(steps)
    ensures |s.sent| < |s.received| + |s.buffer| && |s.received| <= |s.sent|
    ensures var space := |s.buffer| - 1 - (|s.sent| - |s.received|);
      if s.framed then
        var fits := 0 < |data| && LENGTH_BYTES + |data| <= space;
        IsLength(|data|)
        && Published(s, r, if fits then Field(|data|) + data else [], if fits then [data] else [])
      else Published(s, r, data[..Min(|data|, space)], [])
  {
    hide Stored, WriterKnows, ReaderKnows, Leads, Field, SlotOf;
    StepKeeps(s, Send(data));
    SlotIs(s);
    var a := StreamRace.Apply(s, Send(data));
    var look, m := LookAlone(a);
    LeadsInv(a, look, m);
    if m.writer.CopyIn? {
      var copy;
      copy, r := CopyAlone(m);
      LeadsJoin(a, look, m, copy, r);
      steps := look + copy;
      assert s.framed ==> m.writer.data[..m.writer.count] == Field(|data|) + data;
      assert s.framed ==> (Field(|data|) + data)[LENGTH_BYTES..] == data;
    } else {
      r := m;
      steps := look;
      assert s.sent + [] == s.sent && s.accepted + [] == s.accepted;
    }
    LeadsFirst(s, Send(data), a, steps, r);
  }

  lemma LeadsInv(s: Race, steps: seq<Step>, r: Race)
    requires Leads(s, steps, r)
    ensures Inv(s) && Inv(r)
  {
    hide Inv;
  }

  lemma {:induction false} LeadsJoin(s: Race, a: seq<Step>, m: Race, b: seq<Step>, r: Race)
    requires Leads(s, a, m) && Leads(m, b, r)
    ensures Leads(s, a + b, r)
    decreases |a|
  {
    hide Inv, Can, StreamRace.Apply;
    if a == [] {
      assert a + b == b;
    } else {
      InvShape(s);
      StepKeeps(s, a[0]);
      var n := StreamRace.Apply(s, a[0]);
      LeadsJoin(n, a[1..], m, b, r);
      LeadsFirst(s, a[0], n, a[1..] + b, r);
      assert [a[0]] + (a[1..] + b) == a + b;
    }
  }

  // ---------- the reader ----------

  /** What a receive leaves when it is done: more bytes consumed, and messages delivered. */
  ghost predicate Consumed(s: Race, r: Race, count: nat, messages: seq<Message>) {
    && r.reader.ReaderIdle? && r.writer == s.writer && r.head == s.head && r.buffer == s.buffer
    && r.sent == s.sent && r.accepted == s.accepted && r.framed == s.framed
    && |s.received| + count <= |s.sent| && r.received == s.sent[..|s.received| + count]
    && r.delivered == s.delivered + messages
  }

  /** Once it knows how much to take the reader takes it all. */
  lemma TakeAlone(s: Race) returns (steps: seq<Step>, r: Race)
    requires Inv(s) && s.reader.CopyOut?
    ensures Leads(s, steps, r) && ReaderOnly(steps)
    ensures var n, f := s.reader.count, |s.reader.field|;
      && |s.received| + f + n <= |s.sent|
      && Consumed(s, r, f + n, if s.framed then [s.sent[|s.received| + f..|s.received| + f + n]] else [])
    decreases s.reader.count - |s.reader.got|
  {
    hide Stored, WriterKnows, Leads, ReadSlot, SlotOf;
    InvShape(s);
    PrefixKnown(s);
    StepKeeps(s, ReaderStep);
    var m := StreamRace.Apply(s, ReaderStep);
    if |s.reader.got| < s.reader.count {
      var rest;
      rest, r := TakeAlone(m);
      steps := [ReaderStep] + rest;
      LeadsFirst(s, ReaderStep, m, rest, r);
    } else {
      r := m;
      PrefixKnown(m);
      assert s.delivered + [] == s.delivered;
      steps := [ReaderStep] + [];
      LeadsNowhere(m);
      LeadsFirst(s, ReaderStep, m, [], r);
    }
  }

  lemma PrefixKnown(s: Race)
    requires Inv(s)
    ensures |s.received| <= |s.sent| && s.received == s.sent[..|s.received|]
  {
    hide WriterKnows, ReaderKnows, SlotOf;
  }

  /** The length field of the next message is taken out byte by byte. */
  lemma LengthAlone(s: Race) returns (steps: seq<Step>, r: Race)
    requires Inv(s) && s.reader.ReadLength?
    ensures Leads(s, steps, r) && ReaderOnly(steps)
    ensures LENGTH_BYTES <= s.reader.available && |s.received| + s.reader.available <= |s.sent|
    ensures var field := s.sent[|s.received|..|s.received| + LENGTH_BYTES];
      var count := Min(if Unfield(field) > s.reader.room then 0 else Unfield(field), s.reader.available - LENGTH_BYTES);
      r == s.(reader := if count == 0 then ReaderIdle else CopyOut(field, count, []))
    decreases LENGTH_BYTES - |s.reader.field|
  {
    hide Stored, WriterKnows, Leads, ReadSlot, SlotOf, Unfield;
    InvShape(s);
    PrefixKnown(s);
    StepKeeps(s, ReaderStep);
    var m := StreamRace.Apply(s, ReaderStep);
    if |s.reader.field| < LENGTH_BYTES {
      var rest;
      rest, r := LengthAlone(m);
      steps := [ReaderStep] + rest;
      LeadsFirst(s, ReaderStep, m, rest, r);
    } else {
      r := m;
      steps := [ReaderStep] + [];
      LeadsNowhere(m);
      LeadsFirst(s, ReaderStep, m, [], r);
    }
  }

  /** The reader's look at the indices, nobody else moving them. */
  lemma LookForBytes(s: Race) returns (steps: seq<Step>, r: Race)
    requires Inv(s) && s.reader.LookAtHead?
    ensures Leads(s, steps, r) && ReaderOnly(steps) && |s.received| <= |s.sent|
    ensures var available, room := |s.sent| - |s.received|, s.reader.room;
      r == s.(reader :=
        if s.framed && available > LENGTH_BYTES then ReadLength(room, available, |s.accepted|, [])
        else if s.framed || Min(room, available) == 0 then ReaderIdle
        else CopyOut([], Min(room, available), []))
  {
    hide Stored, WriterKnows, Leads, SlotOf;
    InvShape(s);
    SlotIs(s);
    Distance(|s.received|, |s.sent|, |s.buffer|);
    StepKeeps(s, ReaderStep);
    var a := StreamRace.Apply(s, ReaderStep);
    StepKeeps(a, ReaderStep);
    r := StreamRace.Apply(a, ReaderStep);
    LeadsNowhere(r);
    LeadsFirst(a, ReaderStep, r, [], r);
    LeadsFirst(s, ReaderStep, a, [ReaderStep] + [], r);
    steps := [ReaderStep] + ([ReaderStep] + []);
  }

  /** How many bytes, with those of its length, a receive into this room takes out. */
  function Taking(s: Race, room: nat): nat
    requires |s.received| <= |s.sent|
  {
    var available := |s.sent| - |s.received|;
    if !s.framed then Min(room, available)
    else if available <= LENGTH_BYTES then 0
    else
      var size := Unfield(s.sent[|s.received|..|s.received| + LENGTH_BYTES]);
      if size > room || Min(size, available - LENGTH_BYTES) == 0 then 0
      else LENGTH_BYTES + Min(size, available - LENGTH_BYTES)
  }

  /** A receive alone: from a stream come as many bytes as were published and fit the room; of a message
      buffer the next message, as long as its length field says, if it fits the room, and otherwise
      nothing. */
  lemma ReceiveAlone(s: Race, room: nat) returns (steps: seq<Step>, r: Race)
    requires Inv(s) && Can(s, Receive(room))
    ensures Leads(s, [Receive(room)] + steps, r) && ReaderOnly(steps) && |s.received| <= |s.sent|
    ensures var n, t := Taking(s, room), |s.received|;
      && t + n <= |s.sent|
      && Consumed(s, r, n, if s.framed && n > LENGTH_BYTES then [s.sent[t + LENGTH_BYTES..t + n]] else [])
  {
    hide Stored, WriterKnows, Leads, SlotOf, Unfield;
    StepKeeps(s, Receive(room));
    PrefixKnown(s);
    var a := StreamRace.Apply(s, Receive(room));
    var look, m := LookForBytes(a);
    LeadsInv(a, look, m);
    steps, r := look, m;
    if m.reader.ReadLength? {
      var field, n := LengthAlone(m);
      LeadsJoin(a, look, m, field, n);
      LeadsInv(m, field, n);
      steps, r := look + field, n;
    }
    if r.reader.CopyOut? {
      var take, n := TakeAlone(r);
      LeadsJoin(a, steps, r, take, n);
      steps, r := steps + take, n;
    } else {
      assert s.delivered + [] == s.delivered;
    }
    LeadsFirst(s, Receive(room), a, steps, r);
  }
}
