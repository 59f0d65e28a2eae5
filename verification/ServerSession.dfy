/** The server coroutine as a loop over the storage object, with other sessions running at
    every `co_await`, and the discipline its events obey. */
module ServerSession {
  import opened EndpointTypes
  import opened LockFlags
  import opened SessionSteps
  import opened EndpointStorage

  /** The three places at which a turn is suspended. */
  datatype Wait = AtRequest | AtReply | AtAck

  /** What one turn of the loop meets: the outcome of every call it makes, and the paths that
      other sessions have locked when each of its three waits ends. `cut` is the wait in which
      the coroutine is destroyed, if it is: `Serve` has returned. */
  datatype Round = Round(
    cut: Option<Wait>,
    arrived: bool,
    req: Endpoint,
    connected: bool,
    exported: bool,
    handlerOk: bool,
    sent: bool,
    ack: Option<AckCode>,
    atRequest: set<Path>,
    atReply: set<Path>,
    atAck: set<Path>)

  datatype Event =
    | Received(req: Endpoint)
    | Took(path: Path)
    | Handled(ep: Endpoint, ok: bool)
    | Sent(code: Code)
    | Lost(code: Code)
    | Acked(ack: AckCode)
    | AckLost
    | Released(path: Path)
    | Returned
    | Destroyed

  /** What one turn did: its events, the flags it left and where the coroutine is. */
  datatype Served = Served(log: seq<Event>, flags: Flags, pc: ServerPc)

  /** Other sessions may lock and unlock every path but the one this session holds. */
  function Elsewhere(flags: Flags, mine: Option<Path>, locked: set<Path>): Flags {
    map e | e in flags :: if mine == Some(e.path) then flags[e] else e.path in locked
  }

  ghost predicate IdKnown(flags: Flags, req: Endpoint) {
    exists e :: e in flags && MakeEndpointId(e) == MakeEndpointId(req)
  }

  ghost function AfterPermission(flags: Flags, r: Round, log: seq<Event>): Served {
    var mine := Some(r.req.path);
    var seen := Elsewhere(flags, mine, r.atAck);
    if r.cut == Some(AtAck) then Served(log + [Destroyed], seen, Ended(mine)) else
    var ended := if r.ack.None? then [AckLost]
                 else if r.req.kind == Write then [Acked(r.ack.value), Handled(r.req, r.handlerOk)]
                 else [Acked(r.ack.value)];
    Served(log + ended + [Released(r.req.path)], SetPath(seen, r.req.path, false), AwaitRequest)
  }

  ghost function AfterDecision(flags: Flags, r: Round, pc: ServerPc, log: seq<Event>): Served
    requires pc.Replying? && pc.req == r.req
  {
    var seen := Elsewhere(flags, HeldPath(pc), r.atReply);
    if r.cut == Some(AtReply) then Served(log + [Destroyed], seen, Abandoned(pc)) else
    var told := log + [if r.sent then Sent(pc.code) else Lost(pc.code)];
    var next := AfterReply(r.req, pc.code, r.sent);
    if next.Ended? then Served(told + [Returned], seen, next)
    else if next.AwaitAck? then AfterPermission(seen, r, told)
    else if HeldPath(pc).Some? then Served(told + [Released(r.req.path)], SetPath(seen, r.req.path, false), next)
    else Served(told, seen, next)
  }

  /** The events of a turn up to its answer. */
  function Opening(req: Endpoint, won: bool, handlerOk: bool): seq<Event> {
    if !won then [Received(req)]
    else if req.kind == Read then [Received(req), Took(req.path), Handled(req, handlerOk)]
    else [Received(req), Took(req.path)]
  }

  lemma OpeningGrows(req: Endpoint, ok: bool)
    ensures Opening(req, true, ok) ==
      if req.kind == Read then [Received(req)] + [Took(req.path)] + [Handled(req, ok)]
      else [Received(req)] + [Took(req.path)]
  {}

  ghost function Answer(flags: Flags, r: Round): Served {
    var known := IdKnown(flags, r.req);
    var won := r.connected && known && r.exported && SomeFree(flags, r.req.path);
    var pc := AfterRequest(r.req, r.connected, known, r.exported, won, r.handlerOk);
    var log := Opening(r.req, won, r.handlerOk);
    if pc.Ended? then Served(log + [Returned], flags, pc)
    else AfterDecision(if won then SetPath(flags, r.req.path, true) else flags, r, pc, log)
  }

  ghost function ServeOne(flags: Flags, r: Round): Served {
    var seen := Elsewhere(flags, None, r.atRequest);
    if r.cut == Some(AtRequest) then Served([Destroyed], seen, Ended(None))
    else if !r.arrived then Served([], seen, AwaitRequest)
    else Answer(seen, r)
  }

  ghost function ServeAll(flags: Flags, rounds: seq<Round>): Served
    decreases rounds
  {
    if rounds == [] then Served([], flags, AwaitRequest)
    else
      var one := ServeOne(flags, rounds[0]);
      if one.pc != AwaitRequest then one
      else
        var rest := ServeAll(one.flags, rounds[1..]);
        Served(one.log + rest.log, rest.flags, rest.pc)
  }

  // -------------------------------------------------------------------- the coroutine

  method OthersRun(storage: RdmaEndpointStorage, mine: Option<Path>, locked: set<Path>)
    requires storage.Valid()
    modifies storage.endpointsMap.Values
    ensures storage.Valid() && storage.endpointsMap == old(storage.endpointsMap)
    ensures storage.Flags() == Elsewhere(old(storage.Flags()), mine, locked)
  {
    ghost var before := storage.Flags();
    forall s | s in storage.endpointsMap.Values {
      s.endpointLocked := if mine == Some(s.endpoint.path) then s.endpointLocked else s.endpoint.path in locked;
    }
    assert storage.Flags().Keys == before.Keys;
  }

  /** `alive` tells whether the coroutine ever goes on after its wait. */
  method SendResponse(storage: RdmaEndpointStorage, r: Round, code: Code, mine: Option<Path>, log: seq<Event>)
    returns (log': seq<Event>, alive: bool)
    requires storage.Valid()
    modifies storage.endpointsMap.Values
    ensures storage.Valid() && storage.endpointsMap == old(storage.endpointsMap)
    ensures storage.Flags() == Elsewhere(old(storage.Flags()), mine, r.atReply)
    ensures alive <==> r.cut != Some(AtReply)
    ensures log' == log + [if !alive then Destroyed else if r.sent then Sent(code) else Lost(code)]
  {
    OthersRun(storage, mine, r.atReply);
    if r.cut == Some(AtReply) {
      return log + [Destroyed], false;
    }
    return log + [if r.sent then Sent(code) else Lost(code)], true;
  }

  /** From the granted permission to the end of the turn. */
  method FinishRound(storage: RdmaEndpointStorage, r: Round, log: seq<Event>) returns (log': seq<Event>, pc: ServerPc)
    requires storage.Valid()
    modifies storage.endpointsMap.Values
    ensures storage.Valid() && storage.endpointsMap == old(storage.endpointsMap)
    ensures Served(log', storage.Flags(), pc) == AfterPermission(old(storage.Flags()), r, log)
  {
    pc := AwaitRequest;
    var mine := Some(r.req.path);
    OthersRun(storage, mine, r.atAck);
    if r.cut == Some(AtAck) {
      return log + [Destroyed], Ended(mine);
    }
    if r.ack.None? {
      var _ := storage.UnlockEndpointsByPath(r.req.path);
      return log + [AckLost] + [Released(r.req.path)], AwaitRequest;
    }
    log' := log + [Acked(r.ack.value)];
    if r.req.kind == Write {
      log' := log' + [Handled(r.req, r.handlerOk)];
      assert log' == log + [Acked(r.ack.value), Handled(r.req, r.handlerOk)];
      if !r.handlerOk {
        var _ := storage.UnlockEndpointsByPath(r.req.path);
        return log' + [Released(r.req.path)], AwaitRequest;
      }
    }
    var _ := storage.UnlockEndpointsByPath(r.req.path);
    log' := log' + [Released(r.req.path)];
  }

  /** From the decision to permit to the end of the turn. */
  method Permit(storage: RdmaEndpointStorage, r: Round, kind: EndpointType, log: seq<Event>)
    returns (log': seq<Event>, pc: ServerPc)
    requires storage.Valid() && (kind == r.req.kind || (kind.Unknown? && r.req.kind.Unknown?))
    modifies storage.endpointsMap.Values
    ensures storage.Valid() && storage.endpointsMap == old(storage.endpointsMap)
    ensures Served(log', storage.Flags(), pc) == AfterDecision(old(storage.Flags()), r, Replying(r.req, Permitted), log)
  {
    var alive;
    log', alive := SendResponse(storage, r, Permitted, Some(r.req.path), log);
    if !alive {
      return log', Ended(Some(r.req.path));
    }
    if !r.sent || kind.Unknown? {
      return log' + [Returned], Ended(Some(r.req.path));
    }
    log', pc := FinishRound(storage, r, log');
  }

  /** A read whose handler has failed: the error is reported and the lock released. */
  method ReportFailure(storage: RdmaEndpointStorage, r: Round, handled: seq<Event>)
    returns (log: seq<Event>, pc: ServerPc)
    requires storage.Valid()
    modifies storage.endpointsMap.Values
    ensures storage.Valid() && storage.endpointsMap == old(storage.endpointsMap)
    ensures Served(log, storage.Flags(), pc) ==
      AfterDecision(old(storage.Flags()), r, Replying(r.req, ServiceError), handled)
  {
    var alive;
    log, alive := SendResponse(storage, r, ServiceError, Some(r.req.path), handled);
    if !alive {
      return log, Ended(Some(r.req.path));
    }
    if !r.sent {
      return log + [Returned], Ended(Some(r.req.path));
    }
    assert AfterReply(r.req, ServiceError, r.sent) == AwaitRequest;
    var _ := storage.UnlockEndpointsByPath(r.req.path);
    log, pc := log + [Released(r.req.path)], AwaitRequest;
  }

  /** From the lock just taken to the end of the turn. */
  method ServeLocked(storage: RdmaEndpointStorage, r: Round, kind: EndpointType, taken: seq<Event>)
    returns (log: seq<Event>, pc: ServerPc)
    requires storage.Valid() && (kind == r.req.kind || (kind.Unknown? && r.req.kind.Unknown?))
    modifies storage.endpointsMap.Values
    ensures storage.Valid() && storage.endpointsMap == old(storage.endpointsMap)
    ensures Served(log, storage.Flags(), pc) ==
      AfterDecision(old(storage.Flags()), r, AfterRequest(r.req, true, true, true, true, r.handlerOk),
                    if r.req.kind == Read then taken + [Handled(r.req, r.handlerOk)] else taken)
  {
    log := taken;
    if kind == Read {
      log := log + [Handled(r.req, r.handlerOk)];
      if !r.handlerOk {
        log, pc := ReportFailure(storage, r, log);
        return;
      }
    }
    log, pc := Permit(storage, r, kind, log);
  }

  /** A refusal: send the code; an unsent one, or an internal error, ends the coroutine. */
  method Refuse(storage: RdmaEndpointStorage, r: Round, code: Code, asked: seq<Event>)
    returns (log: seq<Event>, pc: ServerPc)
    requires storage.Valid() && (code == NotFound || code == InternalError || code == EndpointLocked)
    modifies storage.endpointsMap.Values
    ensures storage.Valid() && storage.endpointsMap == old(storage.endpointsMap)
    ensures Served(log, storage.Flags(), pc) == AfterDecision(old(storage.Flags()), r, Replying(r.req, code), asked)
  {
    var alive;
    log, alive := SendResponse(storage, r, code, None, asked);
    if !alive {
      return log, Ended(None);
    }
    if !r.sent || code == InternalError {
      return log + [Returned], Ended(None);
    }
    pc := AwaitRequest;
  }

  /** From the try-lock to the end of the turn. The branch for a path without endpoints cannot
      be taken: the lookup has just found one. */
  method ServeExported(storage: RdmaEndpointStorage, r: Round, kind: EndpointType)
    returns (log: seq<Event>, pc: ServerPc)
    requires storage.Valid() && (kind == r.req.kind || (kind.Unknown? && r.req.kind.Unknown?))
    requires Known(storage.Flags(), r.req.path)
    modifies storage.endpointsMap.Values
    ensures storage.Valid() && storage.endpointsMap == old(storage.endpointsMap)
    ensures var flags := old(storage.Flags());
      var won := SomeFree(flags, r.req.path);
      Served(log, storage.Flags(), pc) ==
        AfterDecision(if won then SetPath(flags, r.req.path, true) else flags, r,
                      AfterRequest(r.req, true, true, true, won, r.handlerOk), Opening(r.req, won, r.handlerOk))
  {
    log := [Received(r.req)];
    var locked, found := storage.TryLockEndpointsByPath(r.req.path);
    assert found;
    if !locked {
      assert SetPath(old(storage.Flags()), r.req.path, true) == old(storage.Flags());
      log, pc := Refuse(storage, r, EndpointLocked, log);
      return;
    }
    OpeningGrows(r.req, r.handlerOk);
    log, pc := ServeLocked(storage, r, kind, log + [Took(r.req.path)]);
  }

  /** A request, once other sessions have had their turn. */
  method ServeRequest(storage: RdmaEndpointStorage, r: Round) returns (log: seq<Event>, pc: ServerPc)
    requires storage.Valid()
    modifies storage.endpointsMap.Values
    ensures storage.Valid() && storage.endpointsMap == old(storage.endpointsMap)
    ensures Served(log, storage.Flags(), pc) == Answer(old(storage.Flags()), r)
  {
    log := [Received(r.req)];
    if !r.connected {
      return log + [Returned], Ended(None);
    }
    var kind := Lookup(storage, r.req);
    if kind.None? {
      log, pc := Refuse(storage, r, NotFound, log);
      return;
    }
    if !r.exported {
      log, pc := Refuse(storage, r, InternalError, log);
      return;
    }
    log, pc := ServeExported(storage, r, kind.value);
  }

  /** One turn of the loop. */
  method ServeRound(storage: RdmaEndpointStorage, r: Round) returns (log: seq<Event>, pc: ServerPc)
    requires storage.Valid()
    modifies storage.endpointsMap.Values
    ensures storage.Valid() && storage.endpointsMap == old(storage.endpointsMap)
    ensures Served(log, storage.Flags(), pc) == ServeOne(old(storage.Flags()), r)
  {
    log, pc := [], AwaitRequest;
    OthersRun(storage, None, r.atRequest);
    if r.cut == Some(AtRequest) {
      return [Destroyed], Ended(None);
    }
    if r.arrived {
      log, pc := ServeRequest(storage, r);
    }
  }

  /** The type of the endpoint the request names. */
  method Lookup(storage: RdmaEndpointStorage, req: Endpoint) returns (kind: Option<EndpointType>)
    requires storage.Valid()
    ensures kind.Some? <==> IdKnown(storage.Flags(), req)
    ensures kind.Some? ==> kind.value == req.kind || (kind.value.Unknown? && req.kind.Unknown?)
    ensures kind.Some? ==> Known(storage.Flags(), req.path)
  {
    var stored := storage.GetEndpoint(req);
    if stored.None? {
      forall e | e in storage.Flags() ensures MakeEndpointId(e) != MakeEndpointId(req) {
        storage.IdTaken(e);
      }
      return None;
    }
    IdsCollide(stored.value.endpoint, req);
    return Some(stored.value.endpoint.kind);
  }

  /** What is done, and then what is still to come. */
  ghost function Joined(log: seq<Event>, rest: Served): Served {
    Served(log + rest.log, rest.flags, rest.pc)
  }

  /** Turn after turn, whatever a turn does. */
  ghost function Turns(turn: (Flags, Round) -> Served, flags: Flags, rounds: seq<Round>): Served
    decreases rounds
  {
    if rounds == [] then Served([], flags, AwaitRequest)
    else
      var one := turn(flags, rounds[0]);
      if one.pc != AwaitRequest then one
      else
        var rest := Turns(turn, one.flags, rounds[1..]);
        Served(one.log + rest.log, rest.flags, rest.pc)
  }

  lemma {:induction false} SessionIsTurns(flags: Flags, rounds: seq<Round>)
    ensures ServeAll(flags, rounds) == Turns(ServeOne, flags, rounds)
    decreases rounds
  {
    if rounds != [] && ServeOne(flags, rounds[0]).pc == AwaitRequest {
      SessionIsTurns(ServeOne(flags, rounds[0]).flags, rounds[1..]);
    }
  }

  lemma FirstOf(turn: (Flags, Round) -> Served, log: seq<Event>, flags: Flags, rounds: seq<Round>)
    requires rounds != []
    ensures var one := turn(flags, rounds[0]);
      Joined(log, Turns(turn, flags, rounds)) ==
        if one.pc != AwaitRequest then Joined(log, one) else Joined(log + one.log, Turns(turn, one.flags, rounds[1..]))
  {
    var one := turn(flags, rounds[0]);
    if one.pc == AwaitRequest {
      var rest := Turns(turn, one.flags, rounds[1..]);
      assert log + (one.log + rest.log) == log + one.log + rest.log;
    }
  }

  lemma TurnByTurn(log: seq<Event>, flags: Flags, rounds: seq<Round>, one: Served)
    requires rounds != [] && one == ServeOne(flags, rounds[0])
    ensures Joined(log, ServeAll(flags, rounds)) ==
      if one.pc != AwaitRequest then Joined(log, one) else Joined(log + one.log, ServeAll(one.flags, rounds[1..]))
  {
    SessionIsTurns(flags, rounds);
    SessionIsTurns(one.flags, rounds[1..]);
    FirstOf(ServeOne, log, flags, rounds);
  }

  /** `HandleServerSession`: turn after turn until the coroutine returns or no turn is left. */
  method HandleServerSession(storage: RdmaEndpointStorage, rounds: seq<Round>) returns (log: seq<Event>, pc: ServerPc)
    requires storage.Valid()
    modifies storage.endpointsMap.Values
    ensures storage.Valid() && storage.endpointsMap == old(storage.endpointsMap)
    ensures Served(log, storage.Flags(), pc) == ServeAll(old(storage.Flags()), rounds)
  {
    log, pc := [], AwaitRequest;
    var n := 0;
    while n < |rounds| && pc == AwaitRequest
      invariant 0 <= n <= |rounds|
      invariant storage.Valid() && storage.endpointsMap == old(storage.endpointsMap)
      invariant ServeAll(old(storage.Flags()), rounds) ==
        if pc != AwaitRequest then Served(log, storage.Flags(), pc)
        else Joined(log, ServeAll(storage.Flags(), rounds[n..]))
      decreases |rounds| - n, if pc == AwaitRequest then 1 else 0
    {
      ghost var flags := storage.Flags();
      var events, next := ServeRound(storage, rounds[n]);
      TurnByTurn(log, flags, rounds[n..], Served(events, storage.Flags(), next));
      assert rounds[n..][1..] == rounds[n + 1..];
      log, pc, n := log + events, next, n + 1;
    }
  }
}
