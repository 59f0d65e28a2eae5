/** The byte format of the three control messages and of the length-prefixed frames that
    carry them on a TCP stream, as functions, and what they promise. */
module Wire {
  import opened EndpointTypes

  /** `kind` is the value of a C++ enumeration stored in an int. Codes are one byte wide. */
  datatype Message =
    | Request(kind: int, path: Bytes)
    | Response(code: byte, descriptor: Bytes)
    | Ack(code: byte)

  datatype Form = RequestForm | ResponseForm | AckForm

  function FormOf(m: Message): Form {
    match m
    case Request(_, _) => RequestForm
    case Response(_, _) => ResponseForm
    case Ack(_) => AckForm
  }

  const UINT32_RANGE: nat := 0x1_0000_0000

  function LittleEndian(n: nat): Bytes
    requires n < UINT32_RANGE
  {
    var n1 := n / 256;
    var n2 := n1 / 256;
    [n % 256, n1 % 256, n2 % 256, n2 / 256]
  }

  function LittleEndianValue(b: Bytes): (n: nat)
    requires |b| == 4
    ensures n < UINT32_RANGE
  {
    var b0: int, b1: int, b2: int, b3: int := b[0], b[1], b[2], b[3];
    b0 + 256 * (b1 + 256 * (b2 + 256 * b3))
  }

  lemma LowDigit(n: nat, low: byte, high: int)
    ensures n == low + 256 * high <==> n % 256 == low && n / 256 == high
  {}

  /** The byte of weight 1 comes first, the one of weight 2^24 last. */
  lemma LittleEndianBytes(n: nat)
    requires n < UINT32_RANGE
    ensures |LittleEndian(n)| == 4
    ensures LittleEndian(n)[0] == n % 0x100 && LittleEndian(n)[1] == n / 0x100 % 0x100
    ensures LittleEndian(n)[2] == n / 0x1_0000 % 0x100 && LittleEndian(n)[3] == n / 0x100_0000
  {}

  lemma LittleEndianInverse(n: nat, b: Bytes)
    requires n < UINT32_RANGE && |b| == 4
    ensures LittleEndian(n) == b <==> n == LittleEndianValue(b)
  {
    var b1: int, b2: int, b3: int := b[1], b[2], b[3];
    LowDigit(n, b[0], b1 + 256 * (b2 + 256 * b3));
    LowDigit(n / 256, b[1], b2 + 256 * b3);
    LowDigit(n / 256 / 256, b[2], b3);
  }

  /** A tag, the 32-bit length of the body, and the whole body: a body whose size does not fit
      in 32 bits is written with a truncated length. */
  function Tagged(tag: byte, body: Bytes): Bytes {
    [tag] + LittleEndian(|body| % UINT32_RANGE) + body
  }

  function Encode(m: Message): Bytes {
    match m
    case Request(kind, path) => Tagged(kind % 256, path)
    case Response(code, descriptor) => Tagged(code, descriptor)
    case Ack(code) => [code]
  }

  /** How many bytes of a buffer the deserializer looks at, if there are that many. */
  function Extent(form: Form, buffer: Bytes): nat {
    if form == AckForm then 1
    else if |buffer| < 5 then 5
    else 5 + LittleEndianValue(buffer[1..5])
  }

  /** The deserializers read outside of a buffer that is shorter than this. */
  predicate Readable(form: Form, buffer: Bytes) {
    Extent(form, buffer) <= |buffer|
  }

  function Decode(form: Form, buffer: Bytes): Message
    requires Readable(form, buffer)
  {
    match form
    case RequestForm => Request(buffer[0], buffer[5..Extent(form, buffer)])
    case ResponseForm => Response(buffer[0], buffer[5..Extent(form, buffer)])
    case AckForm => Ack(buffer[0])
  }

  /** The message survives the narrowing casts of the serializer. */
  predicate Fits(m: Message) {
    match m
    case Request(kind, path) => 0 <= kind < 256 && |path| < UINT32_RANGE
    case Response(_, descriptor) => |descriptor| < UINT32_RANGE
    case Ack(_) => true
  }

  lemma TaggedParts(tag: byte, body: Bytes)
    ensures |Tagged(tag, body)| == 5 + |body| && Tagged(tag, body)[0] == tag
    ensures LittleEndianValue(Tagged(tag, body)[1..5]) == |body| % UINT32_RANGE
    ensures Tagged(tag, body)[5..] == body
  {
    assert Tagged(tag, body)[1..5] == LittleEndian(|body| % UINT32_RANGE);
    LittleEndianInverse(|body| % UINT32_RANGE, Tagged(tag, body)[1..5]);
  }

  /** The layout of a message, byte by byte: its tag, the 32-bit length of its body from the low
      byte up, and the body. An acknowledge is one byte. */
  lemma Layout(m: Message)
    ensures m.Ack? ==> Encode(m) == [m.code]
    ensures !m.Ack? ==>
      var tag: int, body := if m.Request? then m.kind % 256 else m.code, if m.Request? then m.path else m.descriptor;
      var n, bytes := |body| % UINT32_RANGE, Encode(m);
      && |bytes| == 5 + |body| && bytes[0] == tag && bytes[5..] == body
      && bytes[1] == n % 0x100 && bytes[2] == n / 0x100 % 0x100
      && bytes[3] == n / 0x1_0000 % 0x100 && bytes[4] == n / 0x100_0000
  {
    if !m.Ack? {
      LittleEndianBytes((if m.Request? then |m.path| else |m.descriptor|) % UINT32_RANGE);
    }
  }

  /** Decoding inverts encoding for exactly the messages that fit. */
  lemma DecodeEncode(m: Message)
    ensures Readable(FormOf(m), Encode(m))
    ensures Decode(FormOf(m), Encode(m)) == m <==> Fits(m)
  {
    match m
    case Request(kind, path) =>
      TaggedParts(kind % 256, path);
      BodyRead(kind % 256, path);
    case Response(code, descriptor) =>
      TaggedParts(code, descriptor);
      BodyRead(code, descriptor);
    case Ack(_) =>
  }

  lemma BodyRead(tag: byte, body: Bytes)
    ensures |Tagged(tag, body)| == 5 + |body|
    ensures Tagged(tag, body)[5..5 + |body| % UINT32_RANGE] == body[..|body| % UINT32_RANGE]
    ensures body[..|body| % UINT32_RANGE] == body <==> |body| < UINT32_RANGE
  {
    if |body| < UINT32_RANGE {
      assert body[..|body|] == body;
    }
  }

  lemma CutInThree(s: Bytes, i: nat, j: nat)
    requires i <= j <= |s|
    ensures s == s[..i] + s[i..j] + s[j..]
  {}

  lemma NotCut(n: nat)
    requires n < UINT32_RANGE
    ensures n % UINT32_RANGE == n
  {}

  lemma TaggedFrom(tag: byte, length: Bytes, body: Bytes)
    requires |length| == 4 && LittleEndianValue(length) == |body|
    ensures Tagged(tag, body) == [tag] + length + body
  {
    NotCut(|body|);
    LittleEndianInverse(|body|, length);
  }

  lemma TaggedWhole(buffer: Bytes)
    requires |buffer| >= 5 && |buffer| == 5 + LittleEndianValue(buffer[1..5])
    ensures Tagged(buffer[0], buffer[5..]) == buffer
  {
    TaggedFrom(buffer[0], buffer[1..5], buffer[5..]);
    CutInThree(buffer, 1, 5);
    assert buffer[..1] == [buffer[0]];
  }

  /** What is decoded fits, and encodes to the part of the buffer that was looked at: to the
      same bytes exactly when the buffer's length matches its length field. */
  lemma EncodeDecode(form: Form, buffer: Bytes)
    requires Readable(form, buffer)
    ensures FormOf(Decode(form, buffer)) == form && Fits(Decode(form, buffer))
    ensures Encode(Decode(form, buffer)) == buffer[..Extent(form, buffer)]
    ensures Encode(Decode(form, buffer)) == buffer <==> |buffer| == Extent(form, buffer)
  {
    var n := Extent(form, buffer);
    if form != AckForm {
      var whole := buffer[..n];
      assert whole[1..5] == buffer[1..5] && whole[5..] == buffer[5..n] && whole[0] == buffer[0];
      TaggedWhole(whole);
    }
    if n == |buffer| {
      assert buffer[..n] == buffer;
    }
  }

  /** Two messages of one form have the same bytes exactly when they are equal up to the
      endpoint type modulo 256. */
  lemma EncodingsCollide(a: Message, b: Message)
    requires FormOf(a) == FormOf(b)
    ensures Encode(a) == Encode(b) <==>
      if a.Request? then a.kind % 256 == b.kind % 256 && a.path == b.path else a == b
  {
    match a
    case Request(kind, path) =>
      TaggedParts(kind % 256, path);
      TaggedParts(b.kind % 256, b.path);
    case Response(code, descriptor) =>
      TaggedParts(code, descriptor);
      TaggedParts(b.code, b.descriptor);
    case Ack(_) =>
  }

  // ------------------------------------------------------------------ frames on a stream

  function Frame(payload: Bytes): Bytes {
    LittleEndian(|payload| % UINT32_RANGE) + payload
  }

  datatype Framed = Short | Whole(payload: Bytes, rest: Bytes)

  /** A reader that runs out of bytes reports an error. */
  function Unframe(stream: Bytes): Framed {
    if |stream| < 4 then Short else
    var n := LittleEndianValue(stream[..4]);
    if |stream| < 4 + n then Short else Whole(stream[4..4 + n], stream[4 + n..])
  }

  /** A frame is the payload's 32-bit length, from the low byte up, and the payload. */
  lemma FrameLayout(payload: Bytes)
    ensures var n, bytes := |payload| % UINT32_RANGE, Frame(payload);
      && |bytes| == 4 + |payload| && bytes[4..] == payload
      && bytes[0] == n % 0x100 && bytes[1] == n / 0x100 % 0x100
      && bytes[2] == n / 0x1_0000 % 0x100 && bytes[3] == n / 0x100_0000
  {
    LittleEndianBytes(|payload| % UINT32_RANGE);
  }

  /** A frame is read back, and the stream continues after it, exactly when the payload's size
      fits in 32 bits; otherwise the reader sees a shorter payload. */
  lemma FrameRoundTrip(payload: Bytes, rest: Bytes)
    ensures Unframe(Frame(payload) + rest).Whole?
    ensures |Unframe(Frame(payload) + rest).payload| == |payload| % UINT32_RANGE
    ensures Unframe(Frame(payload) + rest) == Whole(payload, rest) <==> |payload| < UINT32_RANGE
  {
    var stream, n := Frame(payload) + rest, |payload| % UINT32_RANGE;
    assert stream[..4] == LittleEndian(n);
    LittleEndianInverse(n, stream[..4]);
    if |payload| < UINT32_RANGE {
      assert stream[4..4 + n] == payload && stream[4 + n..] == rest;
    }
  }

  lemma FrameOfPayload(prefix: Bytes, payload: Bytes)
    requires |prefix| == 4 && LittleEndianValue(prefix) == |payload|
    ensures Frame(payload) == prefix + payload
  {
    NotCut(|payload|);
    LittleEndianInverse(|payload|, prefix);
  }

  /** What is unframed accounts for every byte of the stream. */
  lemma UnframeExact(stream: Bytes)
    requires Unframe(stream).Whole?
    ensures Frame(Unframe(stream).payload) + Unframe(stream).rest == stream
    ensures |Unframe(stream).rest| < |stream|
  {
    var n := LittleEndianValue(stream[..4]);
    FrameOfPayload(stream[..4], stream[4..4 + n]);
    CutInThree(stream, 4, 4 + n);
  }

  /** A stream cut inside a frame holds no frame. */
  lemma CutFrame(payload: Bytes, k: nat)
    requires |payload| < UINT32_RANGE && k < |Frame(payload)|
    ensures Unframe(Frame(payload)[..k]).Short?
  {
    var stream := Frame(payload)[..k];
    if |stream| >= 4 {
      assert stream[..4] == Frame(payload)[..4] == LittleEndian(|payload|);
      LittleEndianInverse(|payload|, stream[..4]);
    }
  }

  /** The payload has a size the frame can say and the message survives its own encoding. For
      a request this is a path of at most 2^32 - 6 bytes. */
  predicate Sendable(m: Message) {
    Fits(m) && |Encode(m)| < UINT32_RANGE
  }

  function WriteAll(messages: seq<Message>): Bytes {
    if messages == [] then [] else Frame(Encode(messages[0])) + WriteAll(messages[1..])
  }

  function Forms(messages: seq<Message>): (forms: seq<Form>)
    ensures |forms| == |messages|
  {
    if messages == [] then [] else [FormOf(messages[0])] + Forms(messages[1..])
  }

  datatype Reading = Reading(messages: seq<Message>, rest: Bytes)

  /** A reader that knows which kind of message comes next. `None` is a stream that ended too
      early or a payload shorter than its own length field says. */
  function ReadAll(forms: seq<Form>, stream: Bytes): Option<Reading>
    decreases |forms|
  {
    if forms == [] then Some(Reading([], stream)) else
    var framed := Unframe(stream);
    if framed.Short? || !Readable(forms[0], framed.payload) then None else
    var later := ReadAll(forms[1..], framed.rest);
    if later.None? then None
    else Some(Reading([Decode(forms[0], framed.payload)] + later.value.messages, later.value.rest))
  }

  /** The first message of a stream is read as itself exactly when it can be sent. */
  lemma HeadRead(m: Message, tail: Bytes)
    ensures Unframe(Frame(Encode(m)) + tail).Whole?
    ensures Sendable(m) ==> Unframe(Frame(Encode(m)) + tail) == Whole(Encode(m), tail)
    ensures Sendable(m) <==>
      && Readable(FormOf(m), Unframe(Frame(Encode(m)) + tail).payload)
      && Decode(FormOf(m), Unframe(Frame(Encode(m)) + tail).payload) == m
  {
    FrameRoundTrip(Encode(m), tail);
    DecodeEncode(m);
    var payload := Unframe(Frame(Encode(m)) + tail).payload;
    if |Encode(m)| >= UINT32_RANGE && Readable(FormOf(m), payload) {
      EncodeDecode(FormOf(m), payload);
      assert |Encode(Decode(FormOf(m), payload))| <= |payload| < |Encode(m)|;
    }
  }

  /** Any sequence of messages, each serialized and framed, is read back as the same sequence,
      with the rest of the stream untouched, exactly when each of them can be sent. */
  lemma {:induction false} StreamRoundTrip(messages: seq<Message>, rest: Bytes)
    ensures ReadAll(Forms(messages), WriteAll(messages) + rest) == Some(Reading(messages, rest)) <==>
      forall m | m in messages :: Sendable(m)
  {
    if messages == [] {
      assert [] + rest == rest;
    } else {
      var m, later := messages[0], messages[1..];
      var tail := WriteAll(later) + rest;
      assert WriteAll(messages) + rest == Frame(Encode(m)) + tail;
      assert Forms(messages)[1..] == Forms(later);
      HeadRead(m, tail);
      assert messages == [m] + later;
      if Sendable(m) {
        StreamRoundTrip(later, rest);
        if ReadAll(Forms(messages), WriteAll(messages) + rest) == Some(Reading(messages, rest)) {
          var read := ReadAll(Forms(later), tail).value;
          assert [m] + read.messages == [m] + later;
          assert read.messages == ([m] + read.messages)[1..] == later;
        }
      }
    }
  }

  lemma NothingLater(forms: seq<Form>, stream: Bytes, payload: Bytes, rest: Bytes)
    requires forms != [] && Unframe(stream) == Whole(payload, rest) && ReadAll(forms[1..], rest) == None
    ensures ReadAll(forms, stream) == None
  {}

  /** A connection that breaks anywhere inside the stream never makes a complete sequence. */
  lemma {:induction false} BrokenStream(messages: seq<Message>, k: nat)
    requires forall m | m in messages :: Sendable(m)
    ensures k < |WriteAll(messages)| ==> ReadAll(Forms(messages), WriteAll(messages)[..k]) == None
  {
    if k >= |WriteAll(messages)| { return; }
    var m, later := messages[0], messages[1..];
    assert m in messages;
    var head, stream := Frame(Encode(m)), WriteAll(messages)[..k];
    if k < |head| {
      assert stream == head[..k];
      CutFrame(Encode(m), k);
    } else {
      var tail := WriteAll(later)[..k - |head|];
      assert stream == head + tail;
      HeadRead(m, tail);
      assert Forms(messages)[1..] == Forms(later);
      BrokenStream(later, k - |head|);
      NothingLater(Forms(messages), stream, Encode(m), tail);
    }
  }
}
