/** Sending and receiving the control messages over one end of a TCP connection. */
module Sockets {
  import opened EndpointTypes
  import opened Wire
  import opened MessageSerializer

  /** `after` is left of `before` when at most `most` bytes have been read. */
  predicate LeftOf(before: Bytes, after: Bytes, most: nat) {
    && |after| <= |before| <= |after| + most
    && after == before[|before| - |after|..]
  }

  /** What an abandoned wait for a message leaves: a later part of the stream, none of it
      behind the message if there was a whole one. A timer that fires before the first byte has
      come leaves the whole stream. */
  predicate GivenUp(before: Bytes, after: Bytes) {
    LeftOf(before, after, if Unframe(before).Whole? then 4 + |Unframe(before).payload| else |before|)
  }

  /** `incoming` is everything the peer will ever send that is still unread. On a `healthy`
      socket no call fails for any other reason than running out of bytes, and no timer
      fires. */
  class Socket {
    var incoming: Bytes
    var outgoing: Bytes
    const healthy: bool

    constructor (incoming: Bytes, healthy: bool)
      ensures this.incoming == incoming && this.healthy == healthy && outgoing == []
    {
      this.incoming, this.outgoing, this.healthy := incoming, [], healthy;
    }

    /** A failed write may have sent the first part of the data. */
    method Write(data: Bytes) returns (ok: bool)
      modifies this`outgoing
      ensures ok ==> outgoing == old(outgoing) + data
      ensures old(outgoing) <= outgoing <= old(outgoing) + data
      ensures healthy ==> ok
    {
      ok := true;
      if !healthy {
        ok := *;
      }
      var sent := |data|;
      if !ok {
        sent :| 0 <= sent <= |data|;
      }
      outgoing := outgoing + data[..sent];
      assert data[..|data|] == data;
    }

    /** Reads exactly `count` bytes. A read that fails, or that a timer cancels, may have taken
        some of them; the rest of the stream stays readable. */
    method Read(count: nat) returns (data: Option<Bytes>)
      modifies this`incoming
      ensures data.Some? ==> count <= |old(incoming)|
      ensures data.Some? ==> data.value == old(incoming)[..count] && incoming == old(incoming)[count..]
      ensures data.None? ==> LeftOf(old(incoming), incoming, count)
      ensures healthy ==> (data.Some? <==> count <= |old(incoming)|)
    {
      var ok := true;
      if !healthy {
        ok := *;
      }
      if !ok || |incoming| < count {
        var taken: nat :| taken <= count && taken <= |incoming|;
        incoming := incoming[taken..];
        return None;
      }
      data := Some(incoming[..count]);
      incoming := incoming[count..];
    }

    method WriteFrame(payload: Bytes) returns (ok: bool)
      modifies this`outgoing
      ensures ok ==> outgoing == old(outgoing) + Frame(payload)
      ensures old(outgoing) <= outgoing <= old(outgoing) + Frame(payload)
      ensures healthy ==> ok
    {
      var length := LittleEndian(|payload| % UINT32_RANGE);
      ghost var before := outgoing;
      assert before + Frame(payload) == (before + length) + payload;
      ok := Write(length);
      if ok {
        ok := Write(payload);
      }
    }

    method ReadFrame() returns (payload: Option<Bytes>)
      modifies this`incoming
      ensures payload.Some? ==> Unframe(old(incoming)) == Whole(payload.value, incoming)
      ensures payload.None? ==> GivenUp(old(incoming), incoming)
      ensures healthy ==> (payload.Some? <==> Unframe(old(incoming)).Whole?)
    {
      var length := Read(4);
      if length == None {
        return None;
      }
      payload := Read(LittleEndianValue(length.value));
    }
  }

  /** The deserializers do not check the length of what they are given. */
  predicate PayloadReadable(form: Form, stream: Bytes) {
    Unframe(stream).Whole? ==> Readable(form, Unframe(stream).payload)
  }

  /** An acknowledge that comes after its wait was given up is taken for a request: the
      deserializer then reads outside of a buffer that holds one byte. */
  lemma LateAckUnreadable(code: byte, rest: Bytes)
    ensures !PayloadReadable(RequestForm, Frame(Encode(Ack(code))) + rest)
    ensures PayloadReadable(AckForm, Frame(Encode(Ack(code))) + rest)
  {
    HeadRead(Ack(code), rest);
  }

  /** The message that comes next, if the stream holds one; `None` is a stream that is cut. */
  function NextMessage(form: Form, stream: Bytes): Option<Message>
    requires PayloadReadable(form, stream)
  {
    if Unframe(stream).Whole? then Some(Decode(form, Unframe(stream).payload)) else None
  }

  method ReceiveRequest(socket: Socket) returns (request: Option<Message>)
    requires PayloadReadable(RequestForm, socket.incoming)
    modifies socket`incoming
    ensures request.Some? ==> request == NextMessage(RequestForm, old(socket.incoming))
    ensures request.Some? ==> socket.incoming == Unframe(old(socket.incoming)).rest
    ensures request.None? ==> GivenUp(old(socket.incoming), socket.incoming)
    ensures socket.healthy ==> request == NextMessage(RequestForm, old(socket.incoming))
  {
    var payload := socket.ReadFrame();
    if payload == None {
      return None;
    }
    var message := DeserializeRequest(payload.value);
    return Some(message);
  }

  method ReceiveAcknowledge(socket: Socket) returns (ack: Option<Message>)
    requires PayloadReadable(AckForm, socket.incoming)
    modifies socket`incoming
    ensures ack.Some? ==> ack == NextMessage(AckForm, old(socket.incoming))
    ensures ack.Some? ==> socket.incoming == Unframe(old(socket.incoming)).rest
    ensures ack.None? ==> GivenUp(old(socket.incoming), socket.incoming)
    ensures socket.healthy ==> ack == NextMessage(AckForm, old(socket.incoming))
  {
    var payload := socket.ReadFrame();
    if payload == None {
      return None;
    }
    var message := DeserializeAcknowledge(payload.value);
    return Some(message);
  }

  method SendResponse(socket: Socket, code: byte, descriptor: Bytes) returns (ok: bool)
    modifies socket`outgoing
    ensures ok ==> socket.outgoing == old(socket.outgoing) + Frame(Encode(Response(code, descriptor)))
    ensures old(socket.outgoing) <= socket.outgoing <= old(socket.outgoing) + Frame(Encode(Response(code, descriptor)))
    ensures socket.healthy ==> ok
  {
    var buffer := SerializeResponse(code, descriptor);
    ok := socket.WriteFrame(buffer);
  }

  /** Sends one request and only then waits for its response: nothing is read before the whole
      request is written, and on a healthy socket it is, whatever comes back. Nothing is sent
      without a connection. */
  method SendRequest(socket: Socket, isConnected: bool, kind: int, path: Bytes) returns (response: Option<Message>)
    requires PayloadReadable(ResponseForm, socket.incoming)
    modifies socket
    ensures old(socket.outgoing) <= socket.outgoing <= old(socket.outgoing) + Frame(Encode(Request(kind, path)))
    ensures !isConnected ==> response == None
    ensures !isConnected ==> socket.outgoing == old(socket.outgoing) && socket.incoming == old(socket.incoming)
    ensures response.Some? ==> socket.outgoing == old(socket.outgoing) + Frame(Encode(Request(kind, path)))
    ensures response.Some? ==> response == NextMessage(ResponseForm, old(socket.incoming))
    ensures response.Some? ==> socket.incoming == Unframe(old(socket.incoming)).rest
    ensures response.None? ==> GivenUp(old(socket.incoming), socket.incoming)
    ensures socket.healthy && isConnected ==> response == NextMessage(ResponseForm, old(socket.incoming))
    ensures socket.healthy && isConnected ==>
      socket.outgoing == old(socket.outgoing) + Frame(Encode(Request(kind, path)))
    ensures socket.incoming != old(socket.incoming) ==>
      socket.outgoing == old(socket.outgoing) + Frame(Encode(Request(kind, path)))
  {
    if !isConnected {
      return None;
    }
    var buffer := SerializeRequest(kind, path);
    var sent := socket.WriteFrame(buffer);
    if !sent {
      return None;
    }
    var payload := socket.ReadFrame();
    if payload == None {
      return None;
    }
    var message := DeserializeResponse(payload.value);
    return Some(message);
  }

  method SendAcknowledge(socket: Socket, isConnected: bool, code: byte) returns (ok: bool)
    modifies socket`outgoing
    ensures ok ==> socket.outgoing == old(socket.outgoing) + Frame(Encode(Ack(code)))
    ensures old(socket.outgoing) <= socket.outgoing <= old(socket.outgoing) + Frame(Encode(Ack(code)))
    ensures !isConnected ==> !ok && socket.outgoing == old(socket.outgoing)
    ensures socket.healthy && isConnected ==> ok
  {
    if !isConnected {
      return false;
    }
    var buffer := SerializeAcknowledge(code);
    ok := socket.WriteFrame(buffer);
  }
}
