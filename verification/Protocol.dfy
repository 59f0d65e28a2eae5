/** The control protocol, the path lock and the RDMA transfers as one transition system.

    A `Link` is one TCP connection with the client coroutine at one end and the server
    coroutine at the other. Steps are cut at `co_await`; an RDMA operation moves one byte per
    step in any order, so that a lock window that is too short shows in the data. */
module Protocol {
  import opened EndpointTypes
  import opened LockFlags
  import opened SessionSteps

  datatype UpMessage = Request(ep: Endpoint) | Ack(code: AckCode)

  datatype Response = Response(code: Code, descriptor: Option<nat>)

  /** One RDMA operation in the client's executor. `remote` is a server buffer. */
  datatype Operation =
    | NoOp
    | Queued(remote: nat)
    | Moving(remote: nat, moved: set<nat>)
    | Finished(ok: bool)

  /** `cell` names the client-side buffer. `left` records what the client's write handler
      left in it, `served` what the server's read handler left in the server's buffer. */
  datatype Link = Link(
    ep: Endpoint,
    cell: nat,
    server: ServerPc,
    client: ClientPc,
    op: Operation,
    up: seq<UpMessage>,
    down: seq<Response>,
    left: Bytes,
    served: Bytes)

  /** The registered endpoints and the server buffer of each. */
  datatype Config = Config(buffer: map<Endpoint, nat>)

  /** Three records of what a run did to its links. `cut`: a timer or a lost connection ended a
      wait of the link while its other side was still at work. `dirty`: the link won its lock
      while another link on the path could still write to the path's buffers. `shared`: the link
      was using its client buffer together with another call that uses the same one. */
  datatype State = State(
    flags: Flags,
    mem: map<nat, Bytes>,
    local: map<nat, Bytes>,
    links: map<nat, Link>,
    cut: set<nat>,
    dirty: set<nat>,
    shared: set<nat>)

  datatype Action =
    | Open(at: nat, ep: Endpoint, cell: nat, init: Bytes)
    | SendRequest(at: nat)
    | GiveUp(at: nat)
    | GetResponse(at: nat)
    | Prepare(at: nat, importOk: bool, handler: Handler, submitOk: bool)
    | OpStart(at: nat)
    | OpMove(at: nat, index: nat)
    | OpFinish(at: nat, ok: bool)
    | OpDone(at: nat)
    | OpTimeout(at: nat)
    | SendAck(at: nat, delivered: bool, ok: bool)
    | ReadHandle(at: nat, handler: Handler)
    | ServeReceiveError(at: nat)
    | ServeRequest(at: nat, connected: bool, exported: bool, handler: Handler)
    | ServeReply(at: nat, delivered: bool, sent: bool)
    | ServeAck(at: nat, handler: Handler)
    | ServeAckLost(at: nat)
    | ServeMisread(at: nat)
    | ServeStops(at: nat)

  /** Buffers of different paths are different: the path lock then protects every buffer. */
  ghost predicate PathSeparated(cfg: Config) {
    forall e, f :: e in cfg.buffer && f in cfg.buffer && cfg.buffer[e] == cfg.buffer[f] ==> e.path == f.path
  }

  function Put(s: State, i: nat, l: Link): State {
    s.(links := s.links[i := l])
  }

  predicate OpPending(l: Link) {
    l.op.Queued? || l.op.Moving?
  }

  /** The call may still use its client buffer: to fill it and write from it, or to read into it
      and hand it to its handler. */
  predicate InUse(l: Link) {
    || l.client.Granted? || l.client.Transferring? || OpPending(l)
    || (l.ep.kind == Read && (l.client == Acking(Completed) || l.client == ReadHandling))
  }

  /** The calls other than `i` that use the client buffer of `i`. */
  function Rivals(links: map<nat, Link>, i: nat): set<nat>
    requires i in links
  {
    set j | j in links && j != i && links[j].cell == links[i].cell && InUse(links[j])
  }

  /** An operation of this link may still write to the server's buffer: it is pending, or its
      permission is on the way to the client or there. */
  predicate CanStillWrite(l: Link) {
    && l.ep.kind == Write
    && (|| OpPending(l) || l.client.Granted?
        || (l.client == AwaitResponse && l.down != [] && l.down[0].code == Permitted))
  }

  /** A link other than `i` can still write to a buffer of the path. */
  ghost predicate Unfinished(links: map<nat, Link>, i: nat, path: Path) {
    exists j :: j in links && j != i && links[j].ep.path == path && CanStillWrite(links[j])
  }

  // ---------------------------------------------------------------- the client's steps

  function OpenLink(s: State, i: nat, ep: Endpoint, cell: nat, init: Bytes): Option<State> {
    if i in s.links then None
    else Some(Put(s, i, Link(ep, cell, AwaitRequest, Connected, NoOp, [], [], [], [])).(
              local := if cell in s.local then s.local else s.local[cell := init]))
  }

  function ClientSendRequest(s: State, i: nat, l: Link): Option<State> {
    if l.client != Connected then None
    else Some(Put(s, i, l.(client := AwaitResponse, up := l.up + [Request(l.ep)])))
  }

  /** Connecting, sending or waiting for the response failed or timed out. */
  function ClientGiveUp(s: State, i: nat, l: Link): Option<State> {
    if l.client != Connected && l.client != AwaitResponse then None
    else Some(Put(s, i, l.(client := Closed)))
  }

  function ClientGetResponse(s: State, i: nat, l: Link): Option<State>
    requires i in s.links
  {
    if l.client != AwaitResponse || l.down == [] then None else
    var pc := AfterResponse(l.down[0].code, l.down[0].descriptor);
    var rivals := if pc.Granted? then Rivals(s.links, i) else {};
    Some(Put(s, i, l.(client := pc, down := l.down[1..])).(
         shared := if rivals == {} then s.shared else s.shared + rivals + {i}))
  }

  function ClientPrepare(s: State, i: nat, l: Link, importOk: bool, handler: Handler, submitOk: bool): Option<State> {
    if !l.client.Granted? then None else
    var pc := AfterPrepare(l.ep.kind, importOk, handler.ok, submitOk);
    var handled := importOk && l.ep.kind == Write;
    var l' := l.(client := pc,
                 op := if pc == Transferring then Queued(l.client.remote) else l.op,
                 left := if handled then handler.out else l.left);
    Some(Put(s, i, l').(local := if handled then s.local[l.cell := handler.out] else s.local))
  }

  function ClientOpDone(s: State, i: nat, l: Link): Option<State> {
    if l.client != Transferring || !l.op.Finished? then None
    else Some(Put(s, i, l.(client := AfterOperation(l.op.ok))))
  }

  function ClientOpTimeout(s: State, i: nat, l: Link): Option<State> {
    if l.client != Transferring || !OpPending(l) then None
    else Some(Put(s, i, l.(client := AfterOperation(false))).(cut := s.cut + {i}))
  }

  function ClientSendAck(s: State, i: nat, l: Link, delivered: bool, ok: bool): Option<State> {
    if !l.client.Acking? || (ok && !delivered) then None
    else Some(Put(s, i, l.(client := AfterAck(l.ep.kind, l.client.code, ok),
                           up := if delivered then l.up + [Ack(l.client.code)] else l.up)))
  }

  function ClientReadHandle(s: State, i: nat, l: Link, handler: Handler): Option<State> {
    if l.client != ReadHandling then None
    else Some(Put(s, i, l.(client := Closed)).(local := s.local[l.cell := handler.out]))
  }

  // -------------------------------------------------------- the client's RDMA executor

  function StartOp(s: State, i: nat, l: Link): Option<State> {
    if !l.op.Queued? then None
    else Some(Put(s, i, l.(op := Moving(l.op.remote, {}))))
  }

  /** A write operation copies the client's buffer to the server's, a read the other way. */
  function MoveByte(s: State, i: nat, l: Link, k: nat): Option<State> {
    if !l.op.Moving? || l.op.remote !in s.mem || l.cell !in s.local then None else
    var far, near := s.mem[l.op.remote], s.local[l.cell];
    if k >= |far| || k >= |near| then None else
    var s' := Put(s, i, l.(op := Moving(l.op.remote, l.op.moved + {k})));
    if l.ep.kind == Write then Some(s'.(mem := s.mem[l.op.remote := far[k := near[k]]]))
    else Some(s'.(local := s.local[l.cell := near[k := far[k]]]))
  }

  /** Success needs room for the whole source and every byte of it moved; failure can strike
      at any time. */
  predicate AllMoved(s: State, l: Link) {
    l.op.Moving? && l.op.remote in s.mem && l.cell in s.local &&
    var far, near := s.mem[l.op.remote], s.local[l.cell];
    var src, dst := if l.ep.kind == Write then near else far, if l.ep.kind == Write then far else near;
    |src| <= |dst| && forall k | 0 <= k < |src| :: k in l.op.moved
  }

  function FinishOp(s: State, i: nat, l: Link, ok: bool): Option<State> {
    if !OpPending(l) || (ok && !AllMoved(s, l)) then None
    else Some(Put(s, i, l.(op := Finished(ok))))
  }

  // ---------------------------------------------------------------- the server's steps

  ghost function ServerRequest(cfg: Config, s: State, i: nat, l: Link, connected: bool, exported: bool,
                               handler: Handler): Option<State>
  {
    if l.server != AwaitRequest || l.up == [] || !l.up[0].Request? then None else
    var req := l.up[0].ep;
    var known := req in cfg.buffer;
    var won := connected && known && exported && SomeFree(s.flags, req.path);
    var handled := RunsReadHandler(req, connected, known, exported, won);
    var l' := l.(server := AfterRequest(req, connected, known, exported, won, handler.ok),
                 up := l.up[1..],
                 served := if handled then handler.out else l.served);
    Some(Put(s, i, l').(flags := if won then SetPath(s.flags, req.path, true) else s.flags,
                        mem := if handled then s.mem[cfg.buffer[req] := handler.out] else s.mem,
                        dirty := if won && Unfinished(s.links, i, req.path) then s.dirty + {i} else s.dirty))
  }

  function Reply(cfg: Config, req: Endpoint, code: Code): Response {
    var described := code != NotFound && code != InternalError && req in cfg.buffer;
    Response(code, if described then Some(cfg.buffer[req]) else None)
  }

  function ServerReply(cfg: Config, s: State, i: nat, l: Link, delivered: bool, sent: bool): Option<State> {
    if !l.server.Replying? || (sent && !delivered) then None else
    var req, code := l.server.req, l.server.code;
    var l' := l.(server := AfterReply(req, code, sent),
                 down := if delivered then l.down + [Reply(cfg, req, code)] else l.down);
    Some(Put(s, i, l').(flags := if code == ServiceError && sent then SetPath(s.flags, req.path, false) else s.flags))
  }

  /** The server never looks at the acknowledge code. */
  function ServerAck(cfg: Config, s: State, i: nat, l: Link, handler: Handler): Option<State> {
    if !l.server.AwaitAck? || l.up == [] || !l.up[0].Ack? then None else
    var req := l.server.req;
    var handled := req.kind == Write && req in cfg.buffer;
    Some(Put(s, i, l.(server := AwaitRequest, up := l.up[1..])).(
         flags := SetPath(s.flags, req.path, false),
         mem := if handled then s.mem[cfg.buffer[req] := handler.out] else s.mem))
  }

  /** The wait for an acknowledge ended in an error or a timeout. It is harmless only when the
      client has closed the connection without leaving a message behind. */
  function ServerAckLost(s: State, i: nat, l: Link): Option<State> {
    if !l.server.AwaitAck? then None
    else Some(Put(s, i, l.(server := AwaitRequest)).(
              flags := SetPath(s.flags, l.server.req.path, false),
              cut := if l.client == Closed && l.up == [] then s.cut else s.cut + {i}))
  }

  function ServerMisread(s: State, i: nat, l: Link): Option<State> {
    if l.server != AwaitRequest || l.up == [] || !l.up[0].Ack? then None
    else Some(Put(s, i, l.(server := Misread)))
  }

  function Stopped(l: Link): Link {
    l.(server := Abandoned(l.server))
  }

  /** `Serve` returns, and its event loop is destroyed together with every coroutine suspended
      in it; flags and buffers live on in the storage. Links opened later belong to a later
      `Serve`. The step is named after any link: with none open it changes nothing. */
  function StopServing(s: State): State {
    s.(links := map i | i in s.links :: Stopped(s.links[i]))
  }

  // -------------------------------------------------------------------------- the runs

  ghost function Next(cfg: Config, s: State, a: Action): Option<State> {
    if a.Open? then OpenLink(s, a.at, a.ep, a.cell, a.init)
    else if a.at !in s.links then None
    else
      var i, l := a.at, s.links[a.at];
      match a
      case SendRequest(_) => ClientSendRequest(s, i, l)
      case GiveUp(_) => ClientGiveUp(s, i, l)
      case GetResponse(_) => ClientGetResponse(s, i, l)
      case Prepare(_, importOk, handler, submitOk) => ClientPrepare(s, i, l, importOk, handler, submitOk)
      case OpStart(_) => StartOp(s, i, l)
      case OpMove(_, k) => MoveByte(s, i, l, k)
      case OpFinish(_, ok) => FinishOp(s, i, l, ok)
      case OpDone(_) => ClientOpDone(s, i, l)
      case OpTimeout(_) => ClientOpTimeout(s, i, l)
      case SendAck(_, delivered, ok) => ClientSendAck(s, i, l, delivered, ok)
      case ReadHandle(_, handler) => ClientReadHandle(s, i, l, handler)
      case ServeReceiveError(_) => if l.server == AwaitRequest then Some(s) else None
      case ServeRequest(_, connected, exported, handler) => ServerRequest(cfg, s, i, l, connected, exported, handler)
      case ServeReply(_, delivered, sent) => ServerReply(cfg, s, i, l, delivered, sent)
      case ServeAck(_, handler) => ServerAck(cfg, s, i, l, handler)
      case ServeAckLost(_) => ServerAckLost(s, i, l)
      case ServeMisread(_) => ServerMisread(s, i, l)
      case ServeStops(_) => Some(StopServing(s))
  }

  /** Endpoints are registered and mapped before serving; no flag is set, no link is open. */
  ghost predicate Initial(cfg: Config, s: State) {
    && PathSeparated(cfg)
    && s.flags.Keys == cfg.buffer.Keys
    && (forall e :: e in s.flags ==> !s.flags[e])
    && (forall e :: e in cfg.buffer ==> cfg.buffer[e] in s.mem)
    && s.links == map[] && s.cut == {} && s.dirty == {} && s.shared == {}
  }

  /** `s'` is reached from `s` by the actions of `run`, each of which was enabled. */
  ghost predicate Run(cfg: Config, s: State, run: seq<Action>, s': State)
    decreases run
  {
    if run == [] then s == s'
    else Next(cfg, s, run[0]).Some? && Run(cfg, Next(cfg, s, run[0]).value, run[1..], s')
  }

  ghost predicate Reachable(cfg: Config, s: State) {
    exists s0, run :: Initial(cfg, s0) && Run(cfg, s0, run, s)
  }
}
