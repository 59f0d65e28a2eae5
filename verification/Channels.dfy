/** The byte streams of a connection behave as the message queues of the protocol's links. */
module Channels {
  import opened EndpointTypes
  import opened Wire
  import opened Sockets
  import P = Protocol

  function KindNumber(kind: EndpointType): int {
    match kind
    case Write => 1
    case Read => 2
    case Unknown(code) => code
  }

  function CodeNumber(code: Code): byte {
    match code
    case Permitted => 2
    case NotFound => 3
    case EndpointLocked => 4
    case InternalError => 5
    case ServiceError => 6
  }

  function AckNumber(code: AckCode): byte {
    match code
    case Canceled => 1
    case Interrupted => 2
    case Failed => 3
    case Completed => 4
  }

  /** The enumerators in the order of their declaration; `None` is `operationRejected`, which is
      never sent. */
  const KINDS: seq<EndpointType> := [Write, Read]
  const CODES: seq<Option<Code>> :=
    [None, Some(Permitted), Some(NotFound), Some(EndpointLocked), Some(InternalError), Some(ServiceError)]
  const ACKS: seq<AckCode> := [Canceled, Interrupted, Failed, Completed]

  /** On the wire an enumerator is its place in the declaration, counted from one. */
  lemma NumbersInOrder()
    ensures forall k | 0 <= k < |KINDS| :: KindNumber(KINDS[k]) == k + 1
    ensures forall k | 0 <= k < |CODES| && CODES[k].Some? :: CodeNumber(CODES[k].value) == k + 1
    ensures forall k | 0 <= k < |ACKS| :: AckNumber(ACKS[k]) == k + 1
    ensures forall c: int :: KindNumber(Unknown(c)) == c
  {}

  /** A path whose characters are bytes and whose request fits in one frame. */
  predicate PlainPath(path: Path) {
    |path| <= UINT32_RANGE - 6 && forall k | 0 <= k < |path| :: path[k] as int < 256
  }

  /** A type as it can be held in one byte; `Unknown` does not stand for a known number. */
  predicate PlainKind(kind: EndpointType) {
    0 <= KindNumber(kind) < 256 && (kind.Unknown? ==> kind.code != 1 && kind.code != 2)
  }

  predicate PlainUp(m: P.UpMessage) {
    m.Request? ==> PlainPath(m.ep.path) && PlainKind(m.ep.kind)
  }

  function UpOnWire(m: P.UpMessage): Message
    requires PlainUp(m)
  {
    match m
    case Request(ep) => Request(KindNumber(ep.kind), seq(|ep.path|, k requires 0 <= k < |ep.path| => ep.path[k] as int))
    case Ack(code) => Ack(AckNumber(code))
  }

  /** `blobs` gives each server buffer the bytes of its exported descriptor. */
  predicate PlainBlobs(blobs: map<nat, Bytes>) {
    && (forall b | b in blobs :: 0 < |blobs[b]| <= UINT32_RANGE - 6)
    && (forall b, c | b in blobs && c in blobs && blobs[b] == blobs[c] :: b == c)
  }

  predicate PlainDown(r: P.Response, blobs: map<nat, Bytes>) {
    r.descriptor.Some? ==> r.descriptor.value in blobs
  }

  function DownOnWire(r: P.Response, blobs: map<nat, Bytes>): Message
    requires PlainDown(r, blobs)
  {
    Response(CodeNumber(r.code), if r.descriptor.Some? then blobs[r.descriptor.value] else [])
  }

  /** Nothing the receiver acts on is lost: different messages are different on the wire, and
      every one of them can be sent. */
  lemma UpFaithful(a: P.UpMessage, b: P.UpMessage)
    requires PlainUp(a) && PlainUp(b)
    ensures Sendable(UpOnWire(a))
    ensures UpOnWire(a) == UpOnWire(b) <==> a == b
  {
    if a.Request? && b.Request? && UpOnWire(a) == UpOnWire(b) {
      var p, q := a.ep.path, b.ep.path;
      var x, y := UpOnWire(a).path, UpOnWire(b).path;
      forall k | 0 <= k < |p| ensures p[k] == q[k] {
        assert x[k] == p[k] as int && y[k] == q[k] as int;
      }
      assert p == q;
    }
  }

  lemma DownFaithful(a: P.Response, b: P.Response, blobs: map<nat, Bytes>)
    requires PlainBlobs(blobs) && PlainDown(a, blobs) && PlainDown(b, blobs)
    ensures Sendable(DownOnWire(a, blobs))
    ensures DownOnWire(a, blobs) == DownOnWire(b, blobs) <==> a == b
  {}

  lemma Regroup(a: Bytes, b: Bytes, c: Bytes)
    ensures a + b + c == a + (b + c)
  {}

  /** Sending a message appends to the queue that the unread bytes stand for. */
  lemma {:induction false} SendAppends(queue: seq<Message>, m: Message)
    ensures WriteAll(queue) + Frame(Encode(m)) == WriteAll(queue + [m])
  {
    if queue == [] {
      assert queue + [m] == [m];
      assert WriteAll([m]) == Frame(Encode(m)) + WriteAll([]);
    } else {
      SendAppends(queue[1..], m);
      assert (queue + [m])[1..] == queue[1..] + [m];
      Regroup(Frame(Encode(queue[0])), WriteAll(queue[1..]), Frame(Encode(m)));
    }
  }

  /** Receiving takes the oldest message off that queue and nothing else, whatever is sent
      behind it; no reader of the right form ever leaves the buffer it was given. */
  lemma ReceiveTakesHead(queue: seq<Message>)
    requires queue != [] && Sendable(queue[0])
    ensures PayloadReadable(FormOf(queue[0]), WriteAll(queue))
    ensures NextMessage(FormOf(queue[0]), WriteAll(queue)) == Some(queue[0])
    ensures Unframe(WriteAll(queue)).rest == WriteAll(queue[1..])
  {
    HeadRead(queue[0], WriteAll(queue[1..]));
  }

  function UpQueue(up: seq<P.UpMessage>): seq<Message>
    requires forall m | m in up :: PlainUp(m)
  {
    seq(|up|, k requires 0 <= k < |up| => UpOnWire(up[k]))
  }

  /** The `up` queue of a link and the unread bytes of its socket stay in step: what the server
      receives next is the head of the queue, and the bytes left are the tail of it. */
  lemma UpChannel(up: seq<P.UpMessage>)
    requires up != [] && forall m | m in up :: PlainUp(m)
    ensures PayloadReadable(FormOf(UpOnWire(up[0])), WriteAll(UpQueue(up)))
    ensures NextMessage(FormOf(UpOnWire(up[0])), WriteAll(UpQueue(up))) == Some(UpOnWire(up[0]))
    ensures Unframe(WriteAll(UpQueue(up))).rest == WriteAll(UpQueue(up[1..]))
  {
    UpFaithful(up[0], up[0]);
    ReceiveTakesHead(UpQueue(up));
    assert UpQueue(up)[1..] == UpQueue(up[1..]);
  }

  function DownQueue(down: seq<P.Response>, blobs: map<nat, Bytes>): seq<Message>
    requires forall r | r in down :: PlainDown(r, blobs)
  {
    seq(|down|, k requires 0 <= k < |down| => DownOnWire(down[k], blobs))
  }

  lemma DownChannel(down: seq<P.Response>, blobs: map<nat, Bytes>)
    requires down != [] && PlainBlobs(blobs) && forall r | r in down :: PlainDown(r, blobs)
    ensures PayloadReadable(ResponseForm, WriteAll(DownQueue(down, blobs)))
    ensures NextMessage(ResponseForm, WriteAll(DownQueue(down, blobs))) == Some(DownOnWire(down[0], blobs))
    ensures Unframe(WriteAll(DownQueue(down, blobs))).rest == WriteAll(DownQueue(down[1..], blobs))
  {
    DownFaithful(down[0], down[0], blobs);
    ReceiveTakesHead(DownQueue(down, blobs));
    assert DownQueue(down, blobs)[1..] == DownQueue(down[1..], blobs);
  }
}
