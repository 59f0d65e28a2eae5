/** The serializers as they grow and copy into a byte buffer, proved against `Wire`. */
module MessageSerializer {
  import opened EndpointTypes
  import opened Wire

  /** `resize` to a larger size: the new bytes are zero. */
  function Resize(buffer: Bytes, size: nat): Bytes
    requires |buffer| <= size
  {
    buffer + seq(size - |buffer|, _ => 0)
  }

  /** `memcpy` into a buffer that has room. */
  function Copy(buffer: Bytes, offset: nat, source: Bytes): Bytes
    requires offset + |source| <= |buffer|
  {
    buffer[..offset] + source + buffer[offset + |source|..]
  }

  method SerializeRequest(kind: int, path: Bytes) returns (buffer: Bytes)
    ensures buffer == Encode(Request(kind, path))
  {
    var offset := 0;
    buffer := [kind % 256];
    offset := offset + 1;
    var pathLen := |path| % UINT32_RANGE;
    buffer := Resize(buffer, |buffer| + 4);
    buffer := Copy(buffer, offset, LittleEndian(pathLen));
    offset := offset + 4;
    buffer := buffer + path;
  }

  method DeserializeRequest(buffer: Bytes) returns (request: Message)
    requires Readable(RequestForm, buffer)
    ensures request == Decode(RequestForm, buffer)
  {
    var offset := 0;
    var kind := buffer[offset];
    offset := offset + 1;
    var pathLen := LittleEndianValue(buffer[offset..offset + 4]);
    offset := offset + 4;
    request := Request(kind, buffer[offset..offset + pathLen]);
  }

  method SerializeResponse(code: byte, descriptor: Bytes) returns (buffer: Bytes)
    ensures buffer == Encode(Response(code, descriptor))
  {
    buffer := [code];
    var descLen := |descriptor| % UINT32_RANGE;
    buffer := Resize(buffer, |buffer| + 4);
    buffer := Copy(buffer, 1, LittleEndian(descLen));
    buffer := buffer + descriptor;
  }

  method DeserializeResponse(buffer: Bytes) returns (response: Message)
    requires Readable(ResponseForm, buffer)
    ensures response == Decode(ResponseForm, buffer)
  {
    var offset := 0;
    var code := buffer[offset];
    offset := offset + 1;
    var descLen := LittleEndianValue(buffer[offset..offset + 4]);
    offset := offset + 4;
    response := Response(code, buffer[offset..offset + descLen]);
  }

  method SerializeAcknowledge(code: byte) returns (buffer: Bytes)
    ensures buffer == Encode(Ack(code))
  {
    buffer := [];
    buffer := buffer + [code];
  }

  method DeserializeAcknowledge(buffer: Bytes) returns (ack: Message)
    requires Readable(AckForm, buffer)
    ensures ack == Decode(AckForm, buffer)
  {
    ack := Ack(buffer[0]);
  }
}
