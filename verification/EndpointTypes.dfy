/** The vocabulary shared by every part of the model: bytes, endpoints and the two
    control-channel codes. */
module EndpointTypes {

  type byte = x: int | 0 <= x < 256

  type Bytes = seq<byte>

  type Path = string

  datatype Option<+T> = None | Some(value: T)

  /** `Unknown` is any value of the C++ enumeration outside its two enumerators; one can
      arrive from the wire through a cast. */
  datatype EndpointType = Write | Read | Unknown(code: int)

  datatype Endpoint = Endpoint(path: Path, kind: EndpointType)

  /** Response codes. `operationRejected` is only ever a default value and is never sent. */
  datatype Code = Permitted | NotFound | EndpointLocked | InternalError | ServiceError

  datatype AckCode = Canceled | Interrupted | Failed | Completed

  /** What a user service does to the buffer it is handed: it may succeed or fail, and either
      way it leaves some bytes behind. */
  datatype Handler = Handler(ok: bool, out: Bytes)
}
