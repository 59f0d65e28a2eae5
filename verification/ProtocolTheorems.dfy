/** What the protocol guarantees in every reachable state. */
module ProtocolTheorems {
  import opened EndpointTypes
  import opened LockFlags
  import opened SessionSteps
  import opened Protocol
  import opened ProtocolInvariant
  import opened ProtocolProof

  /** The path lock excludes: at most one session is inside its window on a path, the flags of
      a path agree, and they are set exactly while some session holds the path. Timers, lost
      connections and failing handlers make no exception. */
  lemma MutualExclusion(cfg: Config, s: State)
    requires Reachable(cfg, s)
    ensures forall i, j | i in s.links && j in s.links && SameHeld(s.links[i], s.links[j]) :: i == j
    ensures Agree(s.flags)
    ensures forall e | e in s.flags ::
      s.flags[e] <==> exists i :: i in s.links && HeldPath(s.links[i].server) == Some(e.path)
  {
    ReachableInv(cfg, s);
  }

  lemma CarriesWhole(buffer: Bytes, data: Bytes)
    requires Carries(buffer, data) && |buffer| == |data|
    ensures buffer == data
  {
    assert buffer[..|data|] == buffer;
  }

  lemma AckedBytes(cfg: Config, s: State, i: nat)
    requires Inv(cfg, s) && i in s.links && s.links[i].server.AwaitAck? && s.links[i].up != []
    requires s.links[i].up[0] == Ack(Completed) && s.links[i].ep.kind == Write
    requires i !in s.dirty && i !in s.shared
    ensures s.links[i].ep in cfg.buffer && cfg.buffer[s.links[i].ep] in s.mem
    ensures Carries(s.mem[cfg.buffer[s.links[i].ep]], s.links[i].left)
  {
    assert LinkAt(cfg, s, i);
  }

  /** A server write handler reached by an `operationCompleted` acknowledge is handed the bytes
      the client's handler left: exactly those when the two buffers have one size. It takes that
      no abandoned operation could still write to the path when the session won it, and that the
      call had its client buffer for itself. */
  lemma WriteHandlerSeesClientBytes(cfg: Config, s: State, i: nat, handler: Handler)
    requires Reachable(cfg, s) && i in s.links && ServerAck(cfg, s, i, s.links[i], handler).Some?
    requires s.links[i].up[0] == Ack(Completed) && s.links[i].ep.kind == Write
    requires i !in s.dirty && i !in s.shared
    ensures s.links[i].ep in cfg.buffer && cfg.buffer[s.links[i].ep] in s.mem
    ensures Carries(s.mem[cfg.buffer[s.links[i].ep]], s.links[i].left)
    ensures |s.mem[cfg.buffer[s.links[i].ep]]| == |s.links[i].left| ==>
      s.mem[cfg.buffer[s.links[i].ep]] == s.links[i].left
  {
    ReachableInv(cfg, s);
    AckedBytes(cfg, s, i);
    var far, left := s.mem[cfg.buffer[s.links[i].ep]], s.links[i].left;
    if |far| == |left| { CarriesWhole(far, left); }
  }

  lemma FetchedBytes(cfg: Config, s: State, i: nat)
    requires Inv(cfg, s) && i in s.links && s.links[i].client == ReadHandling
    requires i !in s.cut && i !in s.dirty && i !in s.shared
    ensures s.links[i].cell in s.local && Carries(s.local[s.links[i].cell], s.links[i].served)
    ensures |s.local[s.links[i].cell]| == |s.links[i].served| ==> s.local[s.links[i].cell] == s.links[i].served
  {
    assert LinkAt(cfg, s, i);
    var near, served := s.local[s.links[i].cell], s.links[i].served;
    if |near| == |served| { CarriesWhole(near, served); }
  }

  /** A client read handler is handed the bytes the server's handler left for this session,
      even though other sessions may have taken the lock since: unless the session's own wait was
      cut short, for the reasons above. */
  lemma ReadHandlerSeesServerBytes(cfg: Config, s: State, i: nat, handler: Handler)
    requires Reachable(cfg, s) && i in s.links && ClientReadHandle(s, i, s.links[i], handler).Some?
    requires i !in s.cut && i !in s.dirty && i !in s.shared
    ensures s.links[i].cell in s.local && Carries(s.local[s.links[i].cell], s.links[i].served)
    ensures |s.local[s.links[i].cell]| == |s.links[i].served| ==> s.local[s.links[i].cell] == s.links[i].served
  {
    ReachableInv(cfg, s);
    FetchedBytes(cfg, s, i);
  }

  lemma PendingHolds(cfg: Config, s: State, i: nat)
    requires Inv(cfg, s) && i in s.links && OpPending(s.links[i]) && i !in s.cut
    ensures HeldPath(s.links[i].server) == Some(s.links[i].ep.path)
    ensures s.links[i].ep in cfg.buffer && s.links[i].op.remote == cfg.buffer[s.links[i].ep]
  {
    assert LinkAt(cfg, s, i);
  }

  /** From submission to completion an RDMA operation stays inside the lock window of its own
      session, and no other session is inside a window on that path. What becomes of other
      sessions does not matter: only a wait of its own that was cut short leaves it outside. */
  lemma TransferInsideWindow(cfg: Config, s: State, i: nat)
    requires Reachable(cfg, s) && i in s.links && OpPending(s.links[i]) && i !in s.cut
    ensures HeldPath(s.links[i].server) == Some(s.links[i].ep.path)
    ensures forall j | j in s.links && j != i :: HeldPath(s.links[j].server) != Some(s.links[i].ep.path)
    ensures s.links[i].ep in cfg.buffer && s.links[i].op.remote == cfg.buffer[s.links[i].ep]
  {
    ReachableInv(cfg, s);
    PendingHolds(cfg, s, i);
    NoOtherWindow(cfg, s, i, s.links[i].ep.path);
  }

  /** Only three kinds of step write to a server buffer. */
  lemma OthersWriteNothing(cfg: Config, s: State, a: Action)
    requires Next(cfg, s, a).Some? && !a.OpMove? && !a.ServeRequest? && !a.ServeAck?
    ensures Next(cfg, s, a).value.mem == s.mem
  {}

  /** A step changes at most the one server buffer of its own link's endpoint, and only while the
      link is the one holder of the path, unless its wait was cut short. */
  lemma WritesOnlyOwnBuffer(cfg: Config, s: State, a: Action)
    requires Inv(cfg, s) && Next(cfg, s, a).Some? && a.at in s.links
    requires Next(cfg, s, a).value.mem != s.mem
    ensures s.links[a.at].ep in cfg.buffer
    ensures forall b | b in s.mem && b != cfg.buffer[s.links[a.at].ep] ::
      b in Next(cfg, s, a).value.mem && Next(cfg, s, a).value.mem[b] == s.mem[b]
    ensures a.OpMove? || a.ServeRequest? || a.ServeAck?
    ensures a.OpMove? ==> s.links[a.at].ep.kind == Write && OpPending(s.links[a.at])
    ensures a.OpMove? && a.at !in s.cut ==> Holds(s.links[a.at])
    ensures a.ServeAck? ==> s.links[a.at].ep.kind == Write && Holds(s.links[a.at])
    ensures a.ServeRequest? ==> s.links[a.at].ep.kind == Read && SomeFree(s.flags, s.links[a.at].ep.path)
    ensures a.ServeRequest? ==> HeldPath(Next(cfg, s, a).value.links[a.at].server) == Some(s.links[a.at].ep.path)
  {
    if !a.OpMove? && !a.ServeRequest? && !a.ServeAck? { OthersWriteNothing(cfg, s, a); }
    var l := s.links[a.at];
    assert LinkAt(cfg, s, a.at);
  }

  lemma NoOtherWindow(cfg: Config, s: State, i: nat, path: Path)
    requires Inv(cfg, s) && i in s.links
    requires HeldPath(s.links[i].server) == Some(path) || SomeFree(s.flags, path)
    ensures NoOtherHolder(s.links, i, path)
  {
    if SomeFree(s.flags, path) {
      NobodyHolds(cfg, s.flags, s.links, path);
    } else {
      assert forall j | j in s.links && j != i :: !SameHeld(s.links[i], s.links[j]);
    }
  }

  /** While a session holds a path, no step of another session changes a server buffer of that
      path, unless an abandoned operation could still write there when the session won it. */
  lemma WindowIsolation(cfg: Config, s: State, a: Action, i: nat, e: Endpoint)
    requires Reachable(cfg, s) && Next(cfg, s, a).Some? && i in s.links && a.at != i
    requires e in cfg.buffer && Holds(s.links[i]) && s.links[i].ep.path == e.path && i !in s.dirty
    ensures cfg.buffer[e] in s.mem && cfg.buffer[e] in Next(cfg, s, a).value.mem
    ensures Next(cfg, s, a).value.mem[cfg.buffer[e]] == s.mem[cfg.buffer[e]]
  {
    ReachableInv(cfg, s);
    if Next(cfg, s, a).value.mem != s.mem {
      if a.Open? { OthersWriteNothing(cfg, s, a); }
      WritesOnlyOwnBuffer(cfg, s, a);
      if s.links[a.at].ep.path == e.path {
        NoOtherWindow(cfg, s, a.at, e.path);
      }
    }
  }

  /** The step calls the server's write handler, after an acknowledge. */
  predicate CallsWriteHandler(s: State, a: Action) {
    && a.ServeAck? && a.at in s.links
    && var l := s.links[a.at];
      l.server.AwaitAck? && l.up != [] && l.up[0].Ack? && l.server.req.kind == Write
  }

  /** The step calls the server's read handler, with the lock just won. */
  ghost predicate CallsReadHandler(cfg: Config, s: State, a: Action) {
    && a.ServeRequest? && a.at in s.links
    && var l := s.links[a.at];
      && l.server == AwaitRequest && l.up != [] && l.up[0].Request?
      && var req := l.up[0].ep;
        && a.connected && req in cfg.buffer && a.exported && SomeFree(s.flags, req.path) && req.kind == Read
  }

  lemma WriteHandlerRuns(cfg: Config, s: State, a: Action)
    requires CallsWriteHandler(s, a) && LinkOk(cfg, s.links[a.at], a.at in s.cut)
    ensures Holds(s.links[a.at]) && s.links[a.at].ep.kind == Write && s.links[a.at].ep in cfg.buffer
    ensures ServerAck(cfg, s, a.at, s.links[a.at], a.handler).Some?
    ensures ServerAck(cfg, s, a.at, s.links[a.at], a.handler).value.mem ==
      s.mem[cfg.buffer[s.links[a.at].ep] := a.handler.out]
  {}

  lemma ReadHandlerRuns(cfg: Config, s: State, a: Action)
    requires CallsReadHandler(cfg, s, a) && LinkOk(cfg, s.links[a.at], a.at in s.cut)
    ensures s.links[a.at].ep.kind == Read && s.links[a.at].ep in cfg.buffer && SomeFree(s.flags, s.links[a.at].ep.path)
    ensures var next := ServerRequest(cfg, s, a.at, s.links[a.at], a.connected, a.exported, a.handler);
      && next.Some? && HeldPath(next.value.links[a.at].server) == Some(s.links[a.at].ep.path)
      && next.value.mem == s.mem[cfg.buffer[s.links[a.at].ep] := a.handler.out]
  {}

  /** Server handlers run under the lock, whatever they do to the buffer: a write handler inside
      its session's window, a read handler as the window opens; no other session holds the path,
      and the handler gets the buffer of the requested endpoint and no other. */
  lemma HandlersRunUnderTheLock(cfg: Config, s: State, a: Action)
    requires Reachable(cfg, s) && (CallsWriteHandler(s, a) || CallsReadHandler(cfg, s, a))
    ensures a.ServeAck? ==> Holds(s.links[a.at]) && s.links[a.at].ep.kind == Write
    ensures a.ServeRequest? ==> SomeFree(s.flags, s.links[a.at].ep.path) && s.links[a.at].ep.kind == Read
    ensures NoOtherHolder(s.links, a.at, s.links[a.at].ep.path)
    ensures s.links[a.at].ep in cfg.buffer && Next(cfg, s, a).Some?
    ensures Next(cfg, s, a).value.mem == s.mem[cfg.buffer[s.links[a.at].ep] := a.handler.out]
    ensures a.ServeRequest? ==> HeldPath(Next(cfg, s, a).value.links[a.at].server) == Some(s.links[a.at].ep.path)
  {
    ReachableInv(cfg, s);
    assert LinkAt(cfg, s, a.at);
    if a.ServeAck? { WriteHandlerRuns(cfg, s, a); } else { ReadHandlerRuns(cfg, s, a); }
    NoOtherWindow(cfg, s, a.at, s.links[a.at].ep.path);
  }

  /** No other step of a server calls a handler: only moving a byte changes a buffer besides. */
  lemma NoOtherHandler(cfg: Config, s: State, a: Action)
    requires Next(cfg, s, a).Some? && Next(cfg, s, a).value.mem != s.mem
    ensures CallsWriteHandler(s, a) || CallsReadHandler(cfg, s, a) || a.OpMove?
  {
    if !a.OpMove? && !a.ServeRequest? && !a.ServeAck? { OthersWriteNothing(cfg, s, a); }
  }

  lemma PeersMeet(cfg: Config, l: Link, cut: bool)
    requires LinkOk(cfg, l, cut)
    ensures l.server.AwaitAck? && l.up != [] ==> l.up[0].Ack?
    ensures l.server == AwaitRequest && l.up != [] && !cut ==> l.up[0] == Request(l.ep)
    ensures l.client == AwaitResponse && l.up == [] && l.down == [] ==> l.server.Replying? || l.server.Ended?
    ensures l.client.Acking? && !cut ==> l.server == AwaitAck(l.ep) || l.server == Ended(Some(l.ep.path))
    ensures l.server == Misread ==> cut
  {}

  /** The two ends agree on what comes next: a server waiting for an acknowledge never finds a
      request; one waiting for a request finds an acknowledge only after its wait was cut
      short; and the two ends never wait for each other. */
  lemma PeersAgree(cfg: Config, s: State, i: nat)
    requires Reachable(cfg, s) && i in s.links
    ensures s.links[i].server.AwaitAck? && s.links[i].up != [] ==> s.links[i].up[0].Ack?
    ensures s.links[i].server == AwaitRequest && s.links[i].up != [] && i !in s.cut ==>
      s.links[i].up[0] == Request(s.links[i].ep)
    ensures s.links[i].client == AwaitResponse && s.links[i].up == [] && s.links[i].down == [] ==>
      s.links[i].server.Replying? || s.links[i].server.Ended?
    ensures s.links[i].client.Acking? && i !in s.cut ==>
      s.links[i].server == AwaitAck(s.links[i].ep) || s.links[i].server == Ended(Some(s.links[i].ep.path))
    ensures s.links[i].server == Misread ==> i in s.cut
  {
    ReachableInv(cfg, s);
    assert LinkAt(cfg, s, i);
    PeersMeet(cfg, s.links[i], i in s.cut);
  }

  predicate ServerActs(a: Action) {
    a.ServeRequest? || a.ServeReply? || a.ServeAck? || a.ServeAckLost? || a.ServeMisread?
  }

  lemma OthersLeaveLink(cfg: Config, s: State, a: Action, i: nat)
    requires i in s.links && a.at != i && !a.ServeStops? && Next(cfg, s, a).Some?
    ensures i in Next(cfg, s, a).value.links && Next(cfg, s, a).value.links[i] == s.links[i]
  {}

  lemma ClientKeepsServer(cfg: Config, s: State, a: Action)
    requires Next(cfg, s, a).Some? && a.at in s.links && !a.ServeStops? && !ServerActs(a)
    ensures a.at in Next(cfg, s, a).value.links && Next(cfg, s, a).value.links[a.at].server == s.links[a.at].server
  {}

  lemma ServerKeepsClient(cfg: Config, s: State, a: Action, i: nat)
    requires Next(cfg, s, a).Some? && i in s.links && (a.ServeStops? || (a.at == i && ServerActs(a)))
    ensures i in Next(cfg, s, a).value.links && Next(cfg, s, a).value.links[i].client == s.links[i].client
  {}

  /** Only its own steps and the return of `Serve` move a server coroutine. */
  lemma ServerStays(cfg: Config, s: State, a: Action, i: nat)
    requires Next(cfg, s, a).Some? && i in s.links && !a.ServeStops? && !(a.at == i && ServerActs(a))
    ensures i in Next(cfg, s, a).value.links && Next(cfg, s, a).value.links[i].server == s.links[i].server
  {
    if a.at == i { ClientKeepsServer(cfg, s, a); } else { OthersLeaveLink(cfg, s, a, i); }
  }

  lemma ClientStays(cfg: Config, s: State, a: Action, i: nat)
    requires Next(cfg, s, a).Some? && i in s.links && (a.at != i || ServerActs(a) || a.ServeStops?)
    ensures i in Next(cfg, s, a).value.links && Next(cfg, s, a).value.links[i].client == s.links[i].client
  {
    if a.at == i || a.ServeStops? { ServerKeepsClient(cfg, s, a, i); } else { OthersLeaveLink(cfg, s, a, i); }
  }

  lemma PermissionSent(cfg: Config, s: State, a: Action)
    requires Next(cfg, s, a).Some? && a.at in s.links && ServerActs(a) && LinkOk(cfg, s.links[a.at], a.at in s.cut)
    requires !s.links[a.at].server.AwaitAck? && Next(cfg, s, a).value.links[a.at].server.AwaitAck?
    ensures a.ServeReply? && a.sent && s.links[a.at].server == Replying(s.links[a.at].ep, Permitted)
    ensures s.links[a.at].ep in cfg.buffer
    ensures Next(cfg, s, a).value.links[a.at].down == [Response(Permitted, Some(cfg.buffer[s.links[a.at].ep]))]
  {}

  /** An acknowledge is awaited only after a permission was sent: this is the one step into the
      place where it is. */
  lemma AwaitedAfterPermission(cfg: Config, s: State, a: Action, i: nat)
    requires Reachable(cfg, s) && Next(cfg, s, a).Some? && i in s.links && !s.links[i].server.AwaitAck?
    requires i in Next(cfg, s, a).value.links && Next(cfg, s, a).value.links[i].server.AwaitAck?
    ensures a.ServeReply? && a.at == i && a.sent && s.links[i].server == Replying(s.links[i].ep, Permitted)
    ensures s.links[i].ep in cfg.buffer
    ensures Next(cfg, s, a).value.links[i].down == [Response(Permitted, Some(cfg.buffer[s.links[i].ep]))]
  {
    ReachableInv(cfg, s);
    if a.ServeStops? {
    } else if a.at == i && ServerActs(a) {
      assert LinkAt(cfg, s, i);
      PermissionSent(cfg, s, a);
    } else {
      ServerStays(cfg, s, a, i);
    }
  }

  /** The client is past its permission and not yet done with the call. */
  predicate HasPermission(pc: ClientPc) {
    pc.Granted? || pc.Transferring? || pc.Acking? || pc.ReadHandling?
  }

  lemma PermissionReceived(cfg: Config, s: State, a: Action, i: nat)
    requires Next(cfg, s, a).Some? && i in s.links && a.at == i && !ServerActs(a) && !a.ServeStops?
    requires LinkOk(cfg, s.links[i], i in s.cut)
    requires HasPermission(Next(cfg, s, a).value.links[i].client) && !HasPermission(s.links[i].client)
    ensures a == GetResponse(i) && s.links[i].ep in cfg.buffer
    ensures s.links[i].down == [Response(Permitted, Some(cfg.buffer[s.links[i].ep]))]
  {}

  /** An acknowledge is sent only by a client that has received the permission, with the buffer
      of its own endpoint. */
  lemma SentAfterPermission(cfg: Config, s: State, a: Action, i: nat)
    requires Reachable(cfg, s) && Next(cfg, s, a).Some? && i in s.links && !HasPermission(s.links[i].client)
    ensures !(a.SendAck? && a.at == i) && i in Next(cfg, s, a).value.links
    ensures HasPermission(Next(cfg, s, a).value.links[i].client) ==>
      && a == GetResponse(i) && s.links[i].ep in cfg.buffer
      && s.links[i].down == [Response(Permitted, Some(cfg.buffer[s.links[i].ep]))]
  {
    ReachableInv(cfg, s);
    assert LinkAt(cfg, s, i);
    if a.at != i || ServerActs(a) || a.ServeStops? { ClientStays(cfg, s, a, i); }
    else if HasPermission(Next(cfg, s, a).value.links[i].client) { PermissionReceived(cfg, s, a, i); }
  }

  lemma TurnEnds(cfg: Config, s: State, a: Action, path: Path)
    requires Next(cfg, s, a).Some? && ServerActs(a) && a.at in s.links && LinkOk(cfg, s.links[a.at], a.at in s.cut)
    ensures a.at in Next(cfg, s, a).value.links
    ensures Next(cfg, s, a).value.links[a.at].server == Ended(Some(path)) <==>
      && HeldPath(s.links[a.at].server) == Some(path) && a.ServeReply?
      && (!a.sent || (s.links[a.at].server.code == Permitted && s.links[a.at].ep.kind.Unknown?))
  {}

  /** When a lock is lost: a session's path becomes one that no step will release exactly when
      the session holds it and its answer cannot be sent, or it has just granted a type outside
      the enumeration, or `Serve` returns. */
  lemma LeaksExactly(cfg: Config, s: State, a: Action, i: nat, path: Path)
    requires Reachable(cfg, s) && Next(cfg, s, a).Some? && i in s.links && !s.links[i].server.Ended?
    ensures i in Next(cfg, s, a).value.links
    ensures Next(cfg, s, a).value.links[i].server == Ended(Some(path)) <==>
      && HeldPath(s.links[i].server) == Some(path)
      && (|| a.ServeStops?
          || (a.at == i && a.ServeReply?
              && (!a.sent || (s.links[i].server.code == Permitted && s.links[i].ep.kind.Unknown?))))
  {
    ReachableInv(cfg, s);
    assert LinkAt(cfg, s, i);
    if !a.ServeStops? {
      if a.at == i && ServerActs(a) { TurnEnds(cfg, s, a, path); } else { ServerStays(cfg, s, a, i); }
    }
  }

  lemma EndedStays(cfg: Config, s: State, a: Action, i: nat)
    requires Next(cfg, s, a).Some? && i in s.links && s.links[i].server.Ended?
    ensures i in Next(cfg, s, a).value.links && Next(cfg, s, a).value.links[i].server == s.links[i].server
  {}

  /** A coroutine that returned an error or was destroyed inside its window loses the path for
      good, in this and in every later `Serve`: its flags stay set and no other session ever
      holds it. */
  lemma {:induction false} LeakIsForever(cfg: Config, s: State, run: seq<Action>, s': State, i: nat, path: Path)
    requires Inv(cfg, s) && Run(cfg, s, run, s') && i in s.links
    requires s.links[i].server == Ended(Some(path))
    ensures Inv(cfg, s') && i in s'.links && s'.links[i].server == Ended(Some(path))
    ensures !SomeFree(s'.flags, path)
    ensures NoOtherHolder(s'.links, i, path)
    decreases run
  {
    if run != [] {
      KeptByStep(cfg, s, run[0]);
      EndedStays(cfg, s, run[0], i);
      LeakIsForever(cfg, Next(cfg, s, run[0]).value, run[1..], s', i, path);
    } else {
      NoOtherWindow(cfg, s, i, path);
    }
  }

  /** From then on every request for the path that gets as far as the lock is refused: the
      answer its client is sent is `operationEndpointLocked`. */
  lemma LeakRefusesAll(cfg: Config, s: State, run: seq<Action>, s': State, i: nat, path: Path, j: nat, exported: bool,
                       handler: Handler)
    requires Inv(cfg, s) && Run(cfg, s, run, s') && i in s.links && s.links[i].server == Ended(Some(path))
    requires j in s'.links && s'.links[j].ep.path == path
    requires ServerRequest(cfg, s', j, s'.links[j], true, exported, handler).Some?
    ensures var ep := s'.links[j].ep;
      var code := if ep !in cfg.buffer then NotFound else if !exported then InternalError else EndpointLocked;
      ServerRequest(cfg, s', j, s'.links[j], true, exported, handler).value.links[j].server == Replying(ep, code)
    ensures var next := ServerRequest(cfg, s', j, s'.links[j], true, exported, handler).value;
      var told := ServerReply(cfg, next, j, next.links[j], true, true);
      && told.Some?
      && (s'.links[j].ep in cfg.buffer && exported ==>
            told.value.links[j].down == [Response(EndpointLocked, Some(cfg.buffer[s'.links[j].ep]))])
  {
    LeakIsForever(cfg, s, run, s', i, path);
    assert LinkAt(cfg, s', j);
    assert s'.links[j].up == [Request(s'.links[j].ep)] && s'.links[j].down == [];
  }
}
