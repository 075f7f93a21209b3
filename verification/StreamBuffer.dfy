/** The byte ring of FreeRTOS-Kernel/stream_buffer.c used as a stream of bytes or, with a length field
    in front of each message, as a buffer of messages. */
module StreamBuffer {
  import Rings

  type Byte = b: nat | b < 256
  type Message = seq<Byte>

  /** sbBYTES_TO_STORE_MESSAGE_LENGTH: the size of a size_t. */
  const LENGTH_BYTES := 4

  // ---------- positions in the ring ----------

  function Wrap(i: nat, length: nat): (j: nat)
    requires i < 2 * length
    ensures j < length
  {
    if i >= length then i - length else i
  }

  /** How far position j lies ahead of position at. */
  function Lead(at: nat, j: nat, length: nat): (d: nat)
    requires at < length && j < length
    ensures d < length && Wrap(at + d, length) == j
  {
    if j >= at then j - at else j + length - at
  }

  /** The n bytes from position at on. */
  function Window(buffer: seq<Byte>, at: nat, n: nat): (w: seq<Byte>)
    requires at < |buffer| && n <= |buffer|
    ensures |w| == n
  {
    seq(n, i requires 0 <= i < n => buffer[Wrap(at + i, |buffer|)])
  }

  lemma WrapOn(at: nat, m: nat, i: nat, length: nat)
    requires at < length && m < length && i < length && m + i < length
    ensures Wrap(at + m + i, length) == Wrap(Wrap(at + m, length) + i, length)
  {
  }

  lemma WindowJoin(buffer: seq<Byte>, at: nat, m: nat, n: nat)
    requires at < |buffer| && m < |buffer| && m + n <= |buffer|
    ensures Window(buffer, at, m + n) == Window(buffer, at, m) + Window(buffer, Wrap(at + m, |buffer|), n)
  {
    var w, all := Wrap(at + m, |buffer|), Window(buffer, at, m + n);
    forall i | m <= i < m + n
      ensures all[i] == Window(buffer, w, n)[i - m]
    {
      WrapOn(at, m, i - m, |buffer|);
    }
  }

  /** prvBytesInBuffer */
  function BytesIn(head: nat, tail: nat, length: nat): (count: nat)
    requires head < length && tail < length
  {
    var count := length + head - tail;
    if count >= length then count - length else count
  }

  /** xStreamBufferSpacesAvailable, one pass of its loop. */
  function SpacesIn(head: nat, tail: nat, length: nat): (space: nat)
    requires head < length && tail < length
  {
    var space := length + tail - head - 1;
    if space >= length then space - length else space
  }

  /** One byte always stays free, so that a full ring can be told from an empty one: the bytes and the
      spaces add up to the length less one, and the head is as far ahead of the tail as there are
      bytes. */
  lemma BytesAndSpaces(head: nat, tail: nat, length: nat)
    requires head < length && tail < length
    ensures BytesIn(head, tail, length) + SpacesIn(head, tail, length) == length - 1
    ensures Wrap(tail + BytesIn(head, tail, length), length) == head
    ensures BytesIn(head, tail, length) == 0 <==> head == tail
  {
  }

  // ---------- length fields and framing ----------

  predicate IsLength(n: nat) {
    n < 0x1_0000_0000
  }

  /** A size_t as it lies in memory, least significant byte first. */
  function Field(n: nat): (f: seq<Byte>)
    requires IsLength(n)
    ensures |f| == LENGTH_BYTES
  {
    [n % 256, n / 256 % 256, n / 65536 % 256, n / 16777216]
  }

  function Unfield(f: seq<Byte>): nat
    requires |f| == LENGTH_BYTES
  {
    f[0] as int + 256 * (f[1] as int) + 65536 * (f[2] as int) + 16777216 * (f[3] as int)
  }

  lemma FieldRoundTrip(n: nat)
    requires IsLength(n)
    ensures Unfield(Field(n)) == n
  {
    assert n == 256 * (n / 256) + n % 256;
    assert n / 256 == 256 * (n / 65536) + n / 256 % 256;
    assert n / 65536 == 256 * (n / 16777216) + n / 65536 % 256;
  }

  ghost predicate Messages(ms: seq<Message>) {
    forall m | m in ms :: 0 < |m| && IsLength(|m|)
  }

  /** The messages one behind the other, each behind its length. */
  function Encode(ms: seq<Message>): seq<Byte>
    requires Messages(ms)
  {
    if ms == [] then [] else Field(|ms[0]|) + ms[0] + Encode(ms[1..])
  }

  lemma Regroup<T>(a: seq<T>, b: seq<T>, c: seq<T>)
    ensures a + (b + c) == a + b + c
  {
  }

  lemma {:induction false} EncodeAppend(ms: seq<Message>, m: Message)
    requires Messages(ms) && 0 < |m| && IsLength(|m|)
    ensures Messages(ms + [m]) && Encode(ms + [m]) == Encode(ms) + (Field(|m|) + m)
  {
    hide Field;
    if ms == [] {
      assert ms + [m] == [m];
      assert Encode([m]) == Field(|m|) + m + Encode([]);
    } else {
      EncodeAppend(ms[1..], m);
      assert (ms + [m])[1..] == ms[1..] + [m] && (ms + [m])[0] == ms[0];
      Regroup(Field(|ms[0]|) + ms[0], Encode(ms[1..]), Field(|m|) + m);
    }
  }

  lemma EncodeHead(ms: seq<Message>)
    requires Messages(ms) && ms != []
    ensures |Encode(ms)| == LENGTH_BYTES + |ms[0]| + |Encode(ms[1..])| > LENGTH_BYTES
    ensures Encode(ms)[..LENGTH_BYTES] == Field(|ms[0]|)
    ensures Encode(ms)[LENGTH_BYTES..LENGTH_BYTES + |ms[0]|] == ms[0]
    ensures Encode(ms)[LENGTH_BYTES + |ms[0]|..] == Encode(ms[1..])
  {
    hide Field;
    CutThree(Field(|ms[0]|), ms[0], Encode(ms[1..]));
  }

  lemma CutThree<T>(a: seq<T>, b: seq<T>, c: seq<T>)
    ensures (a + b + c)[..|a|] == a
    ensures (a + b + c)[|a|..|a| + |b|] == b
    ensures (a + b + c)[|a| + |b|..] == c
  {
  }

  /** Framing is unambiguous: the stored bytes determine the messages. */
  lemma {:induction false} EncodeInjective(a: seq<Message>, b: seq<Message>)
    requires Messages(a) && Messages(b) && Encode(a) == Encode(b)
    ensures a == b
  {
    if a == [] {
      if b != [] {
        EncodeHead(b);
      }
    } else {
      EncodeHead(a);
      if b != [] {
        EncodeHead(b);
        FieldRoundTrip(|a[0]|);
        FieldRoundTrip(|b[0]|);
        EncodeInjective(a[1..], b[1..]);
        assert a == [a[0]] + a[1..] && b == [b[0]] + b[1..];
      }
    }
  }

  // ---------- runs of a message buffer ----------

  datatype Op = SendOp(data: Message) | ReceiveOp(room: nat)

  /** What a run leaves stored, what it delivered and what it accepted. */
  datatype Trace = Trace(stored: seq<Message>, delivered: seq<Message>, accepted: seq<Message>)

  /** Room for the message with its length field next to those stored; the length type must hold its
      length. */
  ghost predicate Fits(ms: seq<Message>, data: Message, length: nat)
    requires Messages(ms)
  {
    0 < |data| && IsLength(|data|) && |Encode(ms)| + LENGTH_BYTES + |data| < length
  }

  /** One call: a message is taken whole or not at all, and delivered whole or not at all. */
  ghost function Apply(ms: seq<Message>, op: Op, length: nat): (t: Trace)
    requires Messages(ms)
    ensures Messages(t.stored)
  {
    match op
    case SendOp(data) => if Fits(ms, data, length) then Trace(ms + [data], [], [data]) else Trace(ms, [], [])
    case ReceiveOp(room) =>
      if ms != [] && |ms[0]| <= room then Trace(ms[1..], [ms[0]], []) else Trace(ms, [], [])
  }

  ghost function Run(ms: seq<Message>, ops: seq<Op>, length: nat): Trace
    requires Messages(ms)
    decreases |ops|
  {
    if ops == [] then Trace(ms, [], [])
    else
      var first := Apply(ms, ops[0], length);
      var rest := Run(first.stored, ops[1..], length);
      Trace(rest.stored, first.delivered + rest.delivered, first.accepted + rest.accepted)
  }

  /** Over any run of sends and receives, with whatever receive buffers, the messages delivered
      followed by those stored are those stored at first followed by those accepted: whole, in order,
      none lost.  The stored bytes always leave one byte of the ring free. */
  lemma {:induction false} MessagesInOrder(ms: seq<Message>, ops: seq<Op>, length: nat)
    requires Messages(ms) && |Encode(ms)| < length
    ensures var t := Run(ms, ops, length);
      && t.delivered + t.stored == ms + t.accepted
      && Messages(t.stored) && |Encode(t.stored)| < length
    decreases |ops|
  {
    hide Encode, Field;
    if ops != [] {
      var first := Apply(ms, ops[0], length);
      if first.accepted != [] {
        EncodeAppend(ms, first.accepted[0]);
      } else if first.delivered != [] {
        EncodeHead(ms);
      }
      MessagesInOrder(first.stored, ops[1..], length);
      var rest := Run(first.stored, ops[1..], length);
      assert first.delivered + first.stored == ms + first.accepted;
      Rings.Rejoin(ms, first.accepted, rest.accepted, first.delivered, first.stored, rest.delivered, rest.stored);
    }
  }

  /** Receives with room enough deliver every stored message, in order. */
  lemma {:induction false} ReceivesDeliver(ms: seq<Message>, room: nat, length: nat)
    requires Messages(ms) && forall m | m in ms :: |m| <= room
    ensures Run(ms, seq(|ms|, _ => ReceiveOp(room)), length) == Trace([], ms, [])
    decreases |ms|
  {
    hide Encode, Field;
    if ms != [] {
      var ops := seq(|ms|, _ => ReceiveOp(room));
      assert ops[1..] == seq(|ms[1..]|, _ => ReceiveOp(room)) && ops[0] == ReceiveOp(room);
      ReceivesDeliver(ms[1..], room, length);
      assert [ms[0]] + ms[1..] == ms;
    }
  }

  /** What is sent is received: a message that fits is taken, and comes out whole behind those already
      stored; one that does not fit changes nothing. */
  lemma SentIsReceived(ms: seq<Message>, data: Message, room: nat, length: nat)
    requires Messages(ms) && IsLength(|data|) && |data| <= room && forall m | m in ms :: |m| <= room
    ensures var fits := 0 < |data| && |Encode(ms)| + LENGTH_BYTES + |data| < length;
      var now := if fits then ms + [data] else ms;
      Run(ms, [SendOp(data)] + seq(|now|, _ => ReceiveOp(room)), length)
        == Trace([], now, if fits then [data] else [])
  {
    hide Encode, Field;
    var sent := Apply(ms, SendOp(data), length);
    var rest := seq(|sent.stored|, _ => ReceiveOp(room));
    ReceivesDeliver(sent.stored, room, length);
    assert ([SendOp(data)] + rest)[1..] == rest;
  }

  // ---------- the buffer ----------

  function Min(a: nat, b: nat): nat {
    if a <= b then a else b
  }

  class StreamBuffer {
    const length: nat
    const isMessageBuffer: bool
    const buffer: array<Byte>
    var tail: nat
    var head: nat

    /** What a message buffer holds. */
    ghost var messages: seq<Message>

    ghost predicate Shape()
      reads this
    {
      buffer.Length == length && tail < length && head < length
    }

    /** The unread bytes, oldest first. */
    ghost function Bytes(): (s: seq<Byte>)
      requires Shape()
      reads this, buffer
      ensures |s| == BytesIn(head, tail, length)
    {
      Window(buffer[..], tail, BytesIn(head, tail, length))
    }

    ghost predicate Valid()
      reads this, buffer
    {
      Shape() && (isMessageBuffer ==> Messages(messages) && Bytes() == Encode(messages))
    }

    constructor (length: nat, isMessageBuffer: bool)
      requires length > 0
      ensures Valid() && this.length == length && this.isMessageBuffer == isMessageBuffer
      ensures Bytes() == [] && messages == [] && fresh(buffer)
    {
      this.length := length;
      this.isMessageBuffer := isMessageBuffer;
      buffer := new Byte[length];
      tail, head := 0, 0;
      messages := [];
    }

    /** prvWriteBytesToBuffer: in two parts when the bytes run past the end of the buffer. */
    method WriteBytesToBuffer(data: seq<Byte>, at: nat) returns (next: nat)
      requires buffer.Length == length && at < length && 0 < |data| <= length
      modifies buffer
      ensures next == Wrap(at + |data|, length)
      ensures forall j :: 0 <= j < length ==>
        buffer[j] == if Lead(at, j, length) < |data| then data[Lead(at, j, length)] else old(buffer[j])
    {
      var first := Min(length - at, |data|);
      Copy(data[..first], at);
      if |data| > first {
        Copy(data[first..], 0);
      }
      next := at + |data|;
      if next >= length {
        next := next - length;
      }
    }

    /** memcpy into the buffer. */
    method Copy(data: seq<Byte>, at: nat)
      requires at + |data| <= buffer.Length
      modifies buffer
      ensures forall j :: 0 <= j < buffer.Length ==>
        buffer[j] == if at <= j < at + |data| then data[j - at] else old(buffer[j])
    {
      for i := 0 to |data|
        invariant forall j :: 0 <= j < buffer.Length ==>
          buffer[j] == if at <= j < at + i then data[j - at] else old(buffer[j])
      {
        buffer[at + i] := data[i];
      }
    }

    /** prvReadBytesFromBuffer */
    method ReadBytesFromBuffer(count: nat, at: nat) returns (data: seq<Byte>, next: nat)
      requires buffer.Length == length && at < length && 0 < count <= length
      ensures data == Window(buffer[..], at, count) && next == Wrap(at + count, length)
    {
      var first := Min(length - at, count);
      data := buffer[at..at + first];
      if count > first {
        data := data + buffer[..count - first];
      }
      forall i | 0 <= i < count
        ensures data[i] == Window(buffer[..], at, count)[i]
      {
        var j := Wrap(at + i, length);
        assert j == if i < first then at + i else i - first;
        assert data[i] == buffer[..][j];
      }
      next := at + count;
      if next >= length {
        next := next - length;
      }
    }

    /** xStreamBufferSpacesAvailable */
    method SpacesAvailable() returns (space: nat)
      requires Shape()
      ensures space == length - 1 - |Bytes()|
    {
      BytesAndSpaces(head, tail, length);
      space := SpacesIn(head, tail, length);
    }

    /** Write the payload behind what is already in place but not published, and publish both. */
    method WriteAndPublish(data: seq<Byte>, at: nat, ghost prefix: seq<Byte>, ghost was: seq<Byte>)
      requires Shape() && |was| == length && 0 < |data| && BytesIn(head, tail, length) + |prefix| + |data| < length
      requires at == Wrap(head + |prefix|, length)
      requires forall j :: 0 <= j < length ==>
        buffer[j] == if Lead(head, j, length) < |prefix| then prefix[Lead(head, j, length)] else was[j]
      modifies this`head, buffer
      ensures Shape()
      ensures Bytes() == Window(was, tail, BytesIn(old(head), tail, length)) + (prefix + data)
    {
      hide Window;
      ghost var count, middle := BytesIn(head, tail, length), buffer[..];
      BytesAndSpaces(head, tail, length);
      var last := WriteBytesToBuffer(data, at);
      Appended(was, middle, buffer[..], tail, count, head, prefix, data);
      head := last;
    }

    /** prvWriteMessageToBuffer.  Nothing is published before the last byte is in place; without
        payload, what was written of the length field is never published. */
    method WriteMessageToBuffer(data: Message, space: nat, required: nat) returns (written: nat)
      requires Valid() && IsLength(|data|) && space <= length - 1 - |Bytes()|
      requires required == |data| + if isMessageBuffer then LENGTH_BYTES else 0
      modifies this`head, this`messages, buffer
      ensures Valid()
      ensures !isMessageBuffer ==> written == Min(|data|, space) && Bytes() == old(Bytes()) + data[..written]
      ensures isMessageBuffer ==>
        && written == (if space >= required then |data| else 0)
        && messages == if written > 0 then old(messages) + [data] else old(messages)
    {
      hide Window, Field;
      ghost var was, count := buffer[..], |Bytes()|;
      BytesAndSpaces(head, tail, length);
      var nextHead := head;
      written := |data|;
      ghost var prefix: seq<Byte> := [];
      if isMessageBuffer {
        if space >= required {
          prefix := Field(|data|);
          nextHead := WriteBytesToBuffer(Field(|data|), nextHead);
          Untouched(was, buffer[..], tail, count, head, prefix);
        } else {
          written := 0;
        }
      } else {
        written := Min(written, space);
      }
      if written != 0 {
        WriteAndPublish(data[..written], nextHead, prefix, was);
        assert prefix == [] ==> prefix + data[..written] == data[..written];
        if isMessageBuffer {
          assert data[..written] == data;
          EncodeAppend(messages, data);
          messages := messages + [data];
        }
      }
    }

    /** xStreamBufferSend without waiting, and xStreamBufferSendFromISR. */
    method Send(data: Message) returns (written: nat)
      requires Valid() && IsLength(|data| + LENGTH_BYTES)
      modifies this`head, this`messages, buffer
      ensures Valid()
      ensures !isMessageBuffer ==>
        written == Min(|data|, length - 1 - |old(Bytes())|) && Bytes() == old(Bytes()) + data[..written]
      ensures isMessageBuffer ==>
        var fits := 0 < |data| && |old(Bytes())| + LENGTH_BYTES + |data| < length;
        && messages == (if fits then old(messages) + [data] else old(messages))
        && written == (if fits then |data| else 0)
        && messages == Apply(old(messages), SendOp(data), length).stored
    {
      var required := |data|;
      if isMessageBuffer {
        required := required + LENGTH_BYTES;
      }
      var space := SpacesAvailable();
      written := WriteMessageToBuffer(data, space, required);
    }

    /** The length field of the next message, and where its payload starts. */
    method ReadLength() returns (size: nat, next: nat)
      requires Valid() && isMessageBuffer && messages != []
      ensures size == |messages[0]| && next == Wrap(tail + LENGTH_BYTES, length)
      ensures LENGTH_BYTES + size <= |Bytes()|
    {
      hide Field, Unfield, Window;
      EncodeHead(messages);
      FieldRoundTrip(|messages[0]|);
      var field;
      field, next := ReadBytesFromBuffer(LENGTH_BYTES, tail);
      WindowJoin(buffer[..], tail, LENGTH_BYTES, |Bytes()| - LENGTH_BYTES);
      assert field == Bytes()[..LENGTH_BYTES];
      size := Unfield(field);
    }

    /** Read count bytes behind those skipped, and mark both as consumed. */
    method Take(count: nat, at: nat, ghost skipped: nat) returns (data: seq<Byte>)
      requires Shape() && 0 < count && skipped + count <= |Bytes()| && at == Wrap(tail + skipped, length)
      modifies this`tail
      ensures Shape() && data == old(Bytes())[skipped..skipped + count]
      ensures Bytes() == old(Bytes())[skipped + count..]
    {
      hide Window;
      ghost var n := |Bytes()|;
      WindowJoin(buffer[..], tail, skipped, n - skipped);
      WindowJoin(buffer[..], tail, skipped, count);
      WindowJoin(buffer[..], tail, skipped + count, n - skipped - count);
      Taken(head, tail, Wrap(tail + (skipped + count), length), length, skipped + count);
      WrapOn(tail, skipped, count, length);
      data, tail := ReadBytesFromBuffer(count, at);
    }

    /** prvReadMessageFromBuffer */
    method ReadMessageFromBuffer(room: nat, available: nat) returns (data: Message)
      requires Valid() && available == |Bytes()| > if isMessageBuffer then LENGTH_BYTES else 0
      modifies this`tail, this`messages
      ensures Valid()
      ensures !isMessageBuffer ==>
        |data| == Min(room, |old(Bytes())|) && data + Bytes() == old(Bytes())
      ensures isMessageBuffer ==>
        && old(messages) != []
        && if |old(messages)[0]| <= room then data == old(messages)[0] && messages == old(messages)[1..]
           else data == [] && messages == old(messages)
    {
      var nextTail, left, wanted := tail, available, room;
      ghost var skipped := 0;
      if isMessageBuffer {
        assert messages != [];
        EncodeHead(messages);
        wanted, nextTail := ReadLength();
        skipped := LENGTH_BYTES;
        left := left - LENGTH_BYTES;
        if wanted > room {
          wanted := 0;
        }
      }
      var count := Min(wanted, left);
      data := [];
      if count != 0 {
        data := Take(count, nextTail, skipped);
        if isMessageBuffer {
          messages := messages[1..];
        }
      }
    }

    /** xStreamBufferReceive without waiting, and xStreamBufferReceiveFromISR. */
    method Receive(room: nat) returns (data: Message)
      requires Valid()
      modifies this`tail, this`messages
      ensures Valid()
      ensures !isMessageBuffer ==>
        |data| == Min(room, |old(Bytes())|) && data + Bytes() == old(Bytes())
      ensures isMessageBuffer ==>
        var takes := old(messages) != [] && |old(messages)[0]| <= room;
        && messages == (if takes then old(messages)[1..] else old(messages))
        && data == (if takes then old(messages)[0] else [])
        && Apply(old(messages), ReceiveOp(room), length) == Trace(messages, if takes then [data] else [], [])
    {
      var available := BytesIn(head, tail, length);
      data := [];
      if isMessageBuffer && messages != [] {
        EncodeHead(messages);
      }
      if available > if isMessageBuffer then LENGTH_BYTES else 0 {
        data := ReadMessageFromBuffer(room, available);
      }
    }

    /** xStreamBufferNextMessageLengthBytes */
    method NextMessageLengthBytes() returns (size: nat)
      requires Valid()
      ensures size == if isMessageBuffer && messages != [] then |messages[0]| else 0
    {
      size := 0;
      if isMessageBuffer {
        var available := BytesIn(head, tail, length);
        if available > LENGTH_BYTES {
          assert messages != [];
          var next;
          size, next := ReadLength();
        } else if messages != [] {
          EncodeHead(messages);
        }
      }
    }
  }

  /** Writing at the head leaves the unread bytes alone as long as there is room. */
  lemma Untouched(was: seq<Byte>, now: seq<Byte>, tail: nat, count: nat, head: nat, data: seq<Byte>)
    requires |now| == |was| > 0 && tail < |was| && count + |data| < |was| && head == Wrap(tail + count, |was|)
    requires forall j :: 0 <= j < |was| ==>
      now[j] == if Lead(head, j, |was|) < |data| then data[Lead(head, j, |was|)] else was[j]
    ensures Window(now, tail, count) == Window(was, tail, count)
    ensures Window(now, head, |data|) == data
  {
    forall i | 0 <= i < count
      ensures Window(now, tail, count)[i] == Window(was, tail, count)[i]
    {
      assert Lead(head, Wrap(tail + i, |was|), |was|) == |was| - count + i;
    }
    forall i | 0 <= i < |data|
      ensures Window(now, head, |data|)[i] == data[i]
    {
      assert Lead(head, Wrap(head + i, |was|), |was|) == i;
    }
  }

  /** Two writes in a row, the second one where the first one ended. */
  lemma Appended(was: seq<Byte>, middle: seq<Byte>, now: seq<Byte>, tail: nat, count: nat, head: nat,
                 first: seq<Byte>, second: seq<Byte>)
    requires |now| == |middle| == |was| > 0 && tail < |was| && count + |first| + |second| < |was|
    requires head == Wrap(tail + count, |was|)
    requires forall j :: 0 <= j < |was| ==>
      middle[j] == if Lead(head, j, |was|) < |first| then first[Lead(head, j, |was|)] else was[j]
    requires var next := Wrap(head + |first|, |was|);
      forall j :: 0 <= j < |was| ==>
        now[j] == if Lead(next, j, |was|) < |second| then second[Lead(next, j, |was|)] else middle[j]
    ensures Window(now, tail, count + |first| + |second|) == Window(was, tail, count) + (first + second)
  {
    var next := Wrap(head + |first|, |was|);
    Untouched(was, middle, tail, count, head, first);
    WindowJoin(middle, tail, count, |first|);
    Untouched(middle, now, tail, count + |first|, next, second);
    WindowJoin(now, tail, count + |first|, |second|);
  }

  /** Moving the tail on by n unread bytes leaves n fewer. */
  lemma Taken(head: nat, tail: nat, next: nat, length: nat, n: nat)
    requires head < length && tail < length && n <= BytesIn(head, tail, length) && next == Wrap(tail + n, length)
    ensures BytesIn(head, next, length) == BytesIn(head, tail, length) - n
  {
  }
}
