/** The straight-line segments of the two session coroutines, from one `co_await` to the
    next, as functions of what the segment observed. */
module SessionSteps {
  import opened EndpointTypes

  /** Where a server coroutine is suspended. `Ended(Some(p))` is a coroutine that returned
      an error, or was destroyed, without unlocking `p`. `Misread` is one that took the bytes of a late
      acknowledge for a request. */
  datatype ServerPc =
    | AwaitRequest
    | Replying(req: Endpoint, code: Code)
    | AwaitAck(req: Endpoint)
    | Ended(leaked: Option<Path>)
    | Misread

  /** The path whose lock the coroutine took and has not released. */
  function HeldPath(pc: ServerPc): Option<Path> {
    match pc
    case AwaitRequest => None
    case Replying(req, code) => if code == Permitted || code == ServiceError then Some(req.path) else None
    case AwaitAck(req) => Some(req.path)
    case Ended(leaked) => leaked
    case Misread => None
  }

  function AfterRequest(req: Endpoint, connected: bool, known: bool, exported: bool, won: bool,
                        handlerOk: bool): ServerPc
  {
    if !connected then Ended(None)
    else if !known then Replying(req, NotFound)
    else if !exported then Replying(req, InternalError)
    else if !won then Replying(req, EndpointLocked)
    else if req.kind == Read && !handlerOk then Replying(req, ServiceError)
    else Replying(req, Permitted)
  }

  /** The read handler runs exactly when the lock was just won on a read endpoint. */
  predicate RunsReadHandler(req: Endpoint, connected: bool, known: bool, exported: bool, won: bool) {
    connected && known && exported && won && req.kind == Read
  }

  function AfterReply(req: Endpoint, code: Code, sent: bool): ServerPc {
    match code
    case Permitted => if sent && !req.kind.Unknown? then AwaitAck(req) else Ended(Some(req.path))
    case ServiceError => if sent then AwaitRequest else Ended(Some(req.path))
    case InternalError => Ended(None)
    case NotFound => if sent then AwaitRequest else Ended(None)
    case EndpointLocked => if sent then AwaitRequest else Ended(None)
  }

  /** A coroutine destroyed where it is suspended: nothing of it runs any more, and a lock it
      holds stays taken. */
  function Abandoned(pc: ServerPc): ServerPc {
    Ended(HeldPath(pc))
  }

  /** Where a client coroutine is. `Granted` holds the buffer named by the descriptor. */
  datatype ClientPc =
    | Connected
    | AwaitResponse
    | Granted(remote: nat)
    | Transferring
    | Acking(code: AckCode)
    | ReadHandling
    | Closed

  function AfterResponse(code: Code, descriptor: Option<nat>): ClientPc {
    if code == Permitted && descriptor.Some? then Granted(descriptor.value) else Closed
  }

  /** Importing the descriptor, calling a write handler and submitting the operation. */
  function AfterPrepare(kind: EndpointType, importOk: bool, handlerOk: bool, submitOk: bool): ClientPc {
    if !importOk then Closed
    else if kind == Write && !handlerOk then Acking(Canceled)
    else if kind.Unknown? || !submitOk then Acking(Failed)
    else Transferring
  }

  function AfterOperation(ok: bool): ClientPc {
    Acking(if ok then Completed else Failed)
  }

  function AfterAck(kind: EndpointType, code: AckCode, ok: bool): ClientPc {
    if code == Completed && ok && kind == Read then ReadHandling else Closed
  }
}
