/** A message buffer between one writer and one reader that interleave in any way: on top of the race for
    the bytes (module StreamRace), what is published and consumed are whole messages, each behind its
    length. */
module MessageRace {
  import opened StreamBuffer
  import opened StreamRace

  /** The messages published and delivered so far, as bytes. */
  ghost predicate History(s: Race) {
    && s.framed && Messages(s.accepted)
    && s.delivered <= s.accepted && Messages(s.delivered)
    && s.sent == Encode(s.accepted) && s.received == Encode(s.delivered)
  }

  /** The writer copies in a length and the data it belongs to. */
  ghost predicate WriterFrames(s: Race) {
    s.writer.CopyIn? ==>
      var CopyIn(data, count, _) := s.writer;
      count == |data| >= LENGTH_BYTES && IsLength(count - LENGTH_BYTES)
      && data[..LENGTH_BYTES] == Field(count - LENGTH_BYTES)
  }

  /** The bytes of the first so many messages published. */
  ghost function Edge(s: Race, frames: nat): nat
    requires Messages(s.accepted) && frames <= |s.accepted|
  {
    |Encode(s.accepted[..frames])|
  }

  /** What the reader has seen published are whole messages, and what it takes out is the next one. */
  ghost predicate ReaderFrames(s: Race)
    requires History(s)
  {
    var n := |s.delivered|;
    match s.reader
    case LookAtTail(_, _, seen, frames) => n <= frames <= |s.accepted| && seen == Edge(s, frames)
    case ReadLength(_, available, frames, _) =>
      n < frames <= |s.accepted| && |s.received| + available == Edge(s, frames)
    case CopyOut(field, count, _) =>
      n < |s.accepted| && field == Field(|s.accepted[n]|) && count == |s.accepted[n]|
    case _ => true
  }

  ghost predicate Framing(s: Race) {
    History(s) && WriterFrames(s) && ReaderFrames(s)
  }

  // ---------- where messages lie ----------

  lemma {:induction false} EncodeJoin(a: seq<Message>, b: seq<Message>)
    requires Messages(a) && Messages(b)
    ensures Messages(a + b) && Encode(a + b) == Encode(a) + Encode(b)
  {
    hide Field;
    if a == [] {
      assert a + b == b;
    } else {
      EncodeJoin(a[1..], b);
      assert (a + b)[1..] == a[1..] + b && (a + b)[0] == a[0];
      Regroup(Field(|a[0]|) + a[0], Encode(a[1..]), Encode(b));
    }
  }

  lemma EncodeOne(m: Message)
    requires 0 < |m| && IsLength(|m|)
    ensures Messages([m]) && Encode([m]) == Field(|m|) + m
  {
    hide Field;
    assert [m][1..] == [];
  }

  lemma Parts(ms: seq<Message>, n: nat)
    requires Messages(ms) && n <= |ms|
    ensures Messages(ms[..n]) && Messages(ms[n..]) && Encode(ms) == Encode(ms[..n]) + Encode(ms[n..])
  {
    hide Encode;
    assert ms == ms[..n] + ms[n..];
    EncodeJoin(ms[..n], ms[n..]);
  }

  /** Message number n lies behind the messages before it, its length in front. */
  lemma MessageAt(ms: seq<Message>, n: nat)
    requires Messages(ms) && n < |ms|
    ensures Messages(ms[..n]) && Messages(ms[..n + 1])
    ensures var t, m := |Encode(ms[..n])|, ms[n];
      && 0 < |m| && IsLength(|m|)
      && t + LENGTH_BYTES + |m| == |Encode(ms[..n + 1])| <= |Encode(ms)|
      && Encode(ms)[t..t + LENGTH_BYTES] == Field(|m|)
      && Encode(ms)[t + LENGTH_BYTES..t + LENGTH_BYTES + |m|] == m
  {
    hide Encode, Field;
    var a, m, b := ms[..n], ms[n], ms[n + 1..];
    assert m in ms;
    Parts(ms, n + 1);
    assert ms[..n + 1] == a + [m];
    assert Messages(a);
    EncodeOne(m);
    EncodeJoin(a, [m]);
    assert Encode(ms) == Encode(a) + (Field(|m|) + m) + Encode(b);
    Third(Encode(a), Field(|m|), m, Encode(b));
  }

  lemma Third<T>(a: seq<T>, f: seq<T>, m: seq<T>, b: seq<T>)
    ensures (a + (f + m) + b)[|a|..|a| + |f|] == f
    ensures (a + (f + m) + b)[|a| + |f|..|a| + |f| + |m|] == m
  {
  }

  /** More messages take up more bytes. */
  lemma EdgeRises(s: Race, m: nat, n: nat)
    requires Messages(s.accepted) && m <= n <= |s.accepted|
    ensures m < n ==> Edge(s, m) + LENGTH_BYTES < Edge(s, n)
    ensures Edge(s, m) <= Edge(s, n)
  {
    hide Encode;
    Parts(s.accepted[..n], m);
    assert s.accepted[..n][..m] == s.accepted[..m];
    if m < n {
      EncodeHead(s.accepted[..n][m..]);
    }
  }

  /** The next message to be delivered, as it lies in the ring. */
  lemma NextMessage(s: Race)
    requires History(s) && |s.delivered| < |s.accepted|
    ensures var t, m := |s.received|, s.accepted[|s.delivered|];
      && 0 < |m| && IsLength(|m|) && t + LENGTH_BYTES + |m| <= |s.sent|
      && s.sent[t..t + LENGTH_BYTES] == Field(|m|)
      && s.sent[t + LENGTH_BYTES..t + LENGTH_BYTES + |m|] == m
      && Messages(s.delivered + [m]) && Encode(s.delivered + [m]) == s.received + Field(|m|) + m
      && t + LENGTH_BYTES + |m| == Edge(s, |s.delivered| + 1)
  {
    hide Encode, Field;
    var n := |s.delivered|;
    assert s.accepted[..n] == s.delivered;
    MessageAt(s.accepted, n);
    EncodeAppend(s.delivered, s.accepted[n]);
    assert s.received + Field(|s.accepted[n]|) + s.accepted[n] == s.received + (Field(|s.accepted[n]|) + s.accepted[n]);
  }

  // ---------- every step ----------

  lemma WriterStepFrames(s: Race)
    requires Inv(s) && Framing(s) && !(s.writer.CopyIn? && s.writer.done == s.writer.count)
    ensures Framing(StepWriter(s))
  {
    hide Encode, Field, Inv, Wrap;
    InvShape(s);
    if s.writer.CompareTail? && StepWriter(s).writer.CopyIn? {
      var data := s.writer.data;
      assert (Field(|data|) + data)[..LENGTH_BYTES] == Field(|data|);
    }
  }

  lemma InvShape(s: Race)
    requires Inv(s)
    ensures Shape(s)
  {
  }

  lemma PublishFrames(s: Race)
    requires Inv(s) && Framing(s) && s.writer.CopyIn? && s.writer.done == s.writer.count
    ensures Framing(StepWriter(s))
    ensures var n := s.writer.count - LENGTH_BYTES;
      StepWriter(s).accepted == if n == 0 then s.accepted else s.accepted + [s.writer.data[LENGTH_BYTES..]]
  {
    hide Encode, Field, Inv, Wrap;
    InvShape(s);
    var r, data := StepWriter(s), s.writer.data;
    if s.writer.count > LENGTH_BYTES {
      var m := data[LENGTH_BYTES..];
      assert data[LENGTH_BYTES..s.writer.count] == m && data[..s.writer.count] == data;
      assert data == Field(|m|) + m;
      EncodeAppend(s.accepted, m);
      ReaderFramesGrown(s, r, m);
    }
  }

  /** A message more behind those seen changes nothing for the reader. */
  lemma ReaderFramesGrown(s: Race, r: Race, m: Message)
    requires History(s) && ReaderFrames(s) && History(r)
    requires r.accepted == s.accepted + [m] && r.delivered == s.delivered && r.reader == s.reader
    ensures ReaderFrames(r)
  {
    hide Encode, Field;
    assert forall n | 0 <= n <= |s.accepted| :: r.accepted[..n] == s.accepted[..n];
  }

  lemma ReaderLooksFrames(s: Race)
    requires Inv(s) && Framing(s) && !s.reader.ReadLength? && !s.reader.CopyOut?
    ensures Framing(StepReader(s))
    ensures s.reader.LookAtTail? ==>
      var available := s.reader.seen - |s.received|; available == 0 || available > LENGTH_BYTES
  {
    hide Encode, Field, SlotOf, Wrap, Stored;
    var n := |s.delivered|;
    assert s.accepted[..|s.accepted|] == s.accepted && s.accepted[..n] == s.delivered;
    if s.reader.LookAtTail? {
      SlotIs(s);
      Distance(|s.received|, s.reader.seen, |s.buffer|);
      EdgeRises(s, n, s.reader.frames);
    }
  }

  lemma ReadLengthFrames(s: Race)
    requires Inv(s) && Framing(s) && s.reader.ReadLength?
    ensures Framing(StepReader(s))
  {
    hide Encode, Field, Unfield, SlotOf, Wrap, Stored, WriterKnows;
    if |s.reader.field| == LENGTH_BYTES {
      LengthRead(s);
    }
  }

  /** When the length has been read it is that of the next message, and all of the message is there: so
      it is taken out if and only if the receive buffer has room for it. */
  lemma LengthRead(s: Race)
    requires Inv(s) && Framing(s) && s.reader.ReadLength? && |s.reader.field| == LENGTH_BYTES
    ensures |s.delivered| < |s.accepted|
    ensures var m := s.accepted[|s.delivered|];
      && IsLength(|m|) && s.reader.field == Field(|m|)
      && StepReader(s) == s.(reader := if |m| <= s.reader.room then CopyOut(Field(|m|), |m|, []) else ReaderIdle)
  {
    hide Encode, Field, Unfield, SlotOf, Wrap, Stored, WriterKnows;
    NextMessage(s);
    FieldRoundTrip(|s.accepted[|s.delivered|]|);
    EdgeRises(s, |s.delivered| + 1, s.reader.frames);
  }

  lemma CopyOutFrames(s: Race)
    requires Inv(s) && Framing(s) && s.reader.CopyOut?
    ensures Framing(StepReader(s))
    ensures |s.reader.got| == s.reader.count ==> StepReader(s).delivered == s.delivered + [s.accepted[|s.delivered|]]
  {
    hide Encode, Field, SlotOf, Wrap, Stored, WriterKnows;
    if |s.reader.got| == s.reader.count {
      NextMessage(s);
    }
  }

  lemma StepFrames(s: Race, step: Step)
    requires Inv(s) && Framing(s) && Can(s, step)
    ensures Framing(StreamRace.Apply(s, step))
  {
    hide Inv, History, WriterFrames, ReaderFrames, StepWriter, StepReader;
    InvShape(s);
    match step {
      case WriterStep =>
        if s.writer.CopyIn? && s.writer.done == s.writer.count {
          PublishFrames(s);
        } else {
          WriterStepFrames(s);
        }
      case ReaderStep =>
        if s.reader.ReadLength? {
          ReadLengthFrames(s);
        } else if s.reader.CopyOut? {
          CopyOutFrames(s);
        } else {
          ReaderLooksFrames(s);
        }
      case _ => CallFrames(s, step);
    }
  }

  lemma CallFrames(s: Race, step: Step)
    requires Framing(s) && Shape(s) && Can(s, step) && (step.Send? || step.Receive?)
    ensures Framing(StreamRace.Apply(s, step))
  {
    hide Encode, Field;
  }

  // ---------- runs ----------

  lemma {:induction false} RunFrames(s: Race, steps: seq<Step>)
    requires Inv(s) && StreamRace.Run(s, steps) && Framing(s)
    ensures Framing(After(s, steps))
    decreases |steps|
  {
    hide Inv, Framing, Can, StreamRace.Apply;
    if steps != [] {
      InvShape(s);
      StepKeeps(s, steps[0]);
      StepFrames(s, steps[0]);
      RunFrames(StreamRace.Apply(s, steps[0]), steps[1..]);
    }
  }

  /** In every interleaving of a message writer and a message reader the messages delivered are a prefix
      of the messages published, each whole, and the bytes published and consumed are exactly theirs. */
  lemma MessagesReceived(buffer: seq<Byte>, steps: seq<Step>)
    requires buffer != [] && StreamRace.Run(Fresh(buffer, true), steps)
    ensures var s := After(Fresh(buffer, true), steps);
      && s.delivered <= s.accepted && Messages(s.accepted) && Messages(s.delivered)
      && s.sent == Encode(s.accepted) && s.received == Encode(s.delivered)
  {
    hide Inv, StreamRace.Run, After;
    var s := Fresh(buffer, true);
    RunFrames(s, steps);
  }
}
