/** What single steps of the protocol do to the buffers and to what is recorded of the handlers,
    and which outcomes of the calls they make are left open. */
module ProtocolEffects {
  import opened EndpointTypes
  import opened LockFlags
  import opened SessionSteps
  import opened Protocol
  import opened ProtocolInvariant
  import opened ProtocolTheorems

  /** The step calls the client's service: for a write with the permission in hand and the
      descriptor imported, for a read when its acknowledge has been sent. */
  predicate CallsClientHandler(s: State, a: Action) {
    && a.at in s.links
    && var l := s.links[a.at];
      || (a.Prepare? && l.client.Granted? && a.importOk && l.ep.kind == Write)
      || (a.ReadHandle? && l.client == ReadHandling)
  }

  lemma QuietClient(cfg: Config, s: State, a: Action)
    requires Next(cfg, s, a).Some? && !a.Open? && !a.OpMove? && !CallsClientHandler(s, a)
    ensures Next(cfg, s, a).value.local == s.local
  {}

  /** A client's service is handed the buffer of its own call and no other, and it is the bytes it
      leaves that are there afterwards, whether it succeeds or fails. */
  lemma ClientHandlerLeaves(cfg: Config, s: State, a: Action)
    requires Next(cfg, s, a).Some? && CallsClientHandler(s, a)
    ensures Next(cfg, s, a).value.local == s.local[s.links[a.at].cell := a.handler.out]
    ensures Next(cfg, s, a).value.mem == s.mem
  {}

  /** One step of an operation moves one byte, from the client's buffer to the server's for a write
      and the other way for a read, to the place it came from, and changes nothing else. */
  lemma MovesOneByte(cfg: Config, s: State, i: nat, k: nat)
    requires i in s.links && Next(cfg, s, OpMove(i, k)).Some?
    ensures var l, s' := s.links[i], Next(cfg, s, OpMove(i, k)).value;
      && l.op.Moving? && l.op.remote in s.mem && l.cell in s.local
      && k < |s.mem[l.op.remote]| && k < |s.local[l.cell]|
      && (l.ep.kind == Write ==>
            s'.local == s.local && s'.mem == s.mem[l.op.remote := s.mem[l.op.remote][k := s.local[l.cell][k]]])
      && (l.ep.kind != Write ==>
            s'.mem == s.mem && s'.local == s.local[l.cell := s.local[l.cell][k := s.mem[l.op.remote][k]]])
      && s'.flags == s.flags
  {}

  /** An operation reports success only when every byte of its source has arrived. */
  lemma SucceedsComplete(cfg: Config, s: State, i: nat)
    requires i in s.links && Next(cfg, s, OpFinish(i, true)).Some?
    ensures var l := s.links[i];
      && l.op.Moving? && l.op.remote in s.mem && l.cell in s.local
      && var n := if l.ep.kind == Write then |s.local[l.cell]| else |s.mem[l.op.remote]|;
        && n <= |s.mem[l.op.remote]| && n <= |s.local[l.cell]|
        && forall k | 0 <= k < n :: k in l.op.moved
  {}

  /** Client buffers change only there: when a call first uses one, when a client's service is
      called, and when a byte is read. */
  lemma ClientBufferChanges(cfg: Config, s: State, a: Action, c: nat)
    requires Next(cfg, s, a).Some? && c in s.local
    ensures c in Next(cfg, s, a).value.local
    ensures Next(cfg, s, a).value.local[c] != s.local[c] ==>
      && a.at in s.links && c == s.links[a.at].cell
      && (CallsClientHandler(s, a) || (a.OpMove? && s.links[a.at].ep.kind != Write))
  {
    if !a.Open? {
      if a.OpMove? { MovesOneByte(cfg, s, a.at, a.index); }
      else if CallsClientHandler(s, a) { ClientHandlerLeaves(cfg, s, a); }
      else { QuietClient(cfg, s, a); }
    }
  }

  /** What the data theorems call left and served is what the handlers left: the client's service
      of a write sets the one, the server's handler of a read the other, to the bytes it leaves,
      and no other step touches either. */
  lemma RecordsAreHandlers(cfg: Config, s: State, a: Action, i: nat)
    requires Next(cfg, s, a).Some? && i in s.links && LinkOk(cfg, s.links[i], i in s.cut)
    ensures i in Next(cfg, s, a).value.links
    ensures Next(cfg, s, a).value.links[i].left ==
      if a.at == i && a.Prepare? && CallsClientHandler(s, a) then a.handler.out else s.links[i].left
    ensures Next(cfg, s, a).value.links[i].served ==
      if a.at == i && CallsReadHandler(cfg, s, a) then a.handler.out else s.links[i].served
  {
    if a.at != i && !a.ServeStops? { OthersLeaveLink(cfg, s, a, i); }
    else if a.at == i { OwnRecords(cfg, s, a); }
  }

  lemma OwnRecords(cfg: Config, s: State, a: Action)
    requires Next(cfg, s, a).Some? && a.at in s.links && !a.Open? && LinkOk(cfg, s.links[a.at], a.at in s.cut)
    ensures a.at in Next(cfg, s, a).value.links
    ensures Next(cfg, s, a).value.links[a.at].left ==
      if a.Prepare? && CallsClientHandler(s, a) then a.handler.out else s.links[a.at].left
    ensures Next(cfg, s, a).value.links[a.at].served ==
      if CallsReadHandler(cfg, s, a) then a.handler.out else s.links[a.at].served
  {}

  // ------------------------------------------------------------------ what can happen

  /** A connection can be opened under any new number, for any endpoint and any client buffer, and
      nothing has happened on it yet; a buffer that is new to the run holds what it held before. */
  lemma OpensFresh(cfg: Config, s: State, i: nat, ep: Endpoint, cell: nat, init: Bytes)
    ensures Next(cfg, s, Open(i, ep, cell, init)).Some? <==> i !in s.links
    ensures i !in s.links ==>
      var s' := Next(cfg, s, Open(i, ep, cell, init)).value;
      && i in s'.links && s'.links == s.links[i := s'.links[i]]
      && s'.links[i].ep == ep && s'.links[i].cell == cell && cell in s'.local
      && s'.links[i].client == Connected && s'.links[i].server == AwaitRequest && s'.links[i].op == NoOp
      && s'.links[i].up == [] && s'.links[i].down == []
      && s'.local == (if cell in s.local then s.local else s.local[cell := init])
      && s'.mem == s.mem && s'.flags == s.flags
  {}

  /** Every outcome of every call a client makes is open: nothing but its own place decides what a
      client does next, and each timer and each failure can strike wherever it is running. */
  lemma ClientOutcomesOpen(cfg: Config, s: State, i: nat, importOk: bool, h: Handler, submitOk: bool, delivered: bool)
    requires i in s.links
    ensures Next(cfg, s, SendRequest(i)).Some? <==> s.links[i].client == Connected
    ensures Next(cfg, s, GiveUp(i)).Some? <==> s.links[i].client == Connected || s.links[i].client == AwaitResponse
    ensures Next(cfg, s, GetResponse(i)).Some? <==> s.links[i].client == AwaitResponse && s.links[i].down != []
    ensures Next(cfg, s, Prepare(i, importOk, h, submitOk)).Some? <==> s.links[i].client.Granted?
    ensures Next(cfg, s, OpDone(i)).Some? <==> s.links[i].client == Transferring && s.links[i].op.Finished?
    ensures Next(cfg, s, OpTimeout(i)).Some? <==>
      s.links[i].client == Transferring && (s.links[i].op.Queued? || s.links[i].op.Moving?)
    ensures Next(cfg, s, SendAck(i, true, true)).Some? <==> s.links[i].client.Acking?
    ensures Next(cfg, s, SendAck(i, delivered, false)).Some? <==> s.links[i].client.Acking?
    ensures Next(cfg, s, ReadHandle(i, h)).Some? <==> s.links[i].client == ReadHandling
    ensures Next(cfg, s, OpFinish(i, false)).Some? <==> s.links[i].op.Queued? || s.links[i].op.Moving?
  {}

  /** The same for the server's answers: a request can find no connection or no export, an answer
      can be lost or be delivered and seem lost. */
  lemma ServerOutcomesOpen(cfg: Config, s: State, i: nat, connected: bool, exported: bool, h: Handler, delivered: bool)
    requires i in s.links
    ensures Next(cfg, s, ServeRequest(i, connected, exported, h)).Some? <==>
      s.links[i].server == AwaitRequest && s.links[i].up != [] && s.links[i].up[0].Request?
    ensures Next(cfg, s, ServeReply(i, true, true)).Some? <==> s.links[i].server.Replying?
    ensures Next(cfg, s, ServeReply(i, delivered, false)).Some? <==> s.links[i].server.Replying?
  {}

  /** And for its waits: each can end in an error at any moment, and the return of `Serve` ends them
      all. */
  lemma ServerWaitsOpen(cfg: Config, s: State, i: nat, h: Handler)
    requires i in s.links
    ensures Next(cfg, s, ServeAck(i, h)).Some? <==>
      s.links[i].server.AwaitAck? && s.links[i].up != [] && s.links[i].up[0].Ack?
    ensures Next(cfg, s, ServeAckLost(i)).Some? <==> s.links[i].server.AwaitAck?
    ensures Next(cfg, s, ServeReceiveError(i)).Some? <==> s.links[i].server == AwaitRequest
    ensures Next(cfg, s, ServeMisread(i)).Some? <==>
      s.links[i].server == AwaitRequest && s.links[i].up != [] && s.links[i].up[0].Ack?
    ensures Next(cfg, s, ServeStops(i)).Some?
  {}

  /** A client that gives up, at whatever point, sends nothing more. */
  lemma GivingUpCloses(cfg: Config, s: State, i: nat)
    requires i in s.links && Next(cfg, s, GiveUp(i)).Some?
    ensures Next(cfg, s, GiveUp(i)).value == Put(s, i, s.links[i].(client := Closed))
  {}
}
