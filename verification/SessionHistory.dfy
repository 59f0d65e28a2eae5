/** The server side of every link, in every run of the protocol's machine, is a run of the
    coroutine; so what was proved of the coroutine alone holds in every interleaving. */
module SessionHistory {
  import opened EndpointTypes
  import opened LockFlags
  import opened SessionSteps
  import opened ServerSession
  import opened SessionRefinement
  import opened SessionDiscipline
  import P = Protocol
  import ProtocolInvariant
  import ProtocolProof
  import ProtocolTheorems

  /** The events of link `i`'s server in a run. */
  ghost function History(cfg: P.Config, s: P.State, run: seq<P.Action>, i: nat): seq<Event>
    requires i in s.links
    decreases run
  {
    if run == [] || P.Next(cfg, s, run[0]).None? || i !in P.Next(cfg, s, run[0]).value.links then []
    else Events(cfg, s, run[0], i) + History(cfg, P.Next(cfg, s, run[0]).value, run[1..], i)
  }

  /** The whole turns behind a session, the turn it is in, and the flags as they were when it
      went on to its answer. */
  datatype Trace = Trace(rounds: seq<Round>, part: Round, flags: Flags)

  /** A turn that has read its request and is about to answer. */
  ghost predicate Open(seen: Flags, t: Trace, pc: ServerPc) {
    && t.part.arrived && pc.Replying? && pc.req == t.part.req
    && pc == AfterRequest(t.part.req, t.part.connected, IdKnown(seen, t.part.req), t.part.exported,
                          Won(seen, t.part), t.part.handlerOk)
    && t.flags == if Won(seen, t.part) then SetPath(seen, t.part.req.path, true) else seen
  }

  ghost function Seen(first: Flags, t: Trace): Flags {
    Elsewhere(ServeAll(first, t.rounds).flags, None, t.part.atRequest)
  }

  /** The events of the open turn up to its answer, and those of the whole trace. */
  ghost function Start(first: Flags, t: Trace): seq<Event> {
    Opening(t.part.req, Won(Seen(first, t), t.part), t.part.handlerOk)
  }

  ghost function Begun(first: Flags, t: Trace): seq<Event> {
    ServeAll(first, t.rounds).log + Start(first, t)
  }

  /** The flags are those the session last saw, but for whole paths that others hold now. */
  ghost predicate Since(flags: Flags, last: Flags, mine: Option<Path>) {
    flags == Elsewhere(last, mine, LockedPaths(flags))
  }

  /** `t` explains a session at `pc`, with these events since the flags were `first`: the turns
      of `t`, and the open turn up to where it is suspended. */
  ghost predicate Explains(first: Flags, t: Trace, log: seq<Event>, flags: Flags, pc: ServerPc) {
    var done := ServeAll(first, t.rounds);
    match pc
    case AwaitRequest => done.pc == AwaitRequest && log == done.log && Since(flags, done.flags, None)
    case Replying(req, code) =>
      && done.pc == AwaitRequest && Open(Seen(first, t), t, pc)
      && log == Begun(first, t) && Since(flags, t.flags, HeldPath(pc))
    case AwaitAck(req) =>
      && done.pc == AwaitRequest && Open(Seen(first, t), t, Replying(req, Permitted)) && t.part.sent
      && log == Begun(first, t) + [Sent(Permitted)]
      && Since(flags, Elsewhere(t.flags, Some(req.path), t.part.atReply), Some(req.path))
    case Ended(_) => done.pc == pc && log == done.log
    case Misread => true
  }

  lemma {:induction false} OneMore(turn: (Flags, Round) -> Served, flags: Flags, rounds: seq<Round>, r: Round)
    requires Turns(turn, flags, rounds).pc == AwaitRequest
    ensures var done := Turns(turn, flags, rounds);
      var last := turn(done.flags, r);
      Turns(turn, flags, rounds + [r]) == Served(done.log + last.log, last.flags, last.pc)
    decreases rounds
  {
    if rounds == [] {
      assert rounds + [r] == [r] && [r][1..] == [];
      var last := turn(flags, r);
      assert [] + last.log == last.log == last.log + [];
    } else {
      var one := turn(flags, rounds[0]);
      OneMore(turn, one.flags, rounds[1..], r);
      assert (rounds + [r])[1..] == rounds[1..] + [r];
      var rest := Turns(turn, one.flags, rounds[1..]);
      var last := turn(rest.flags, r);
      assert one.log + (rest.log + last.log) == one.log + rest.log + last.log;
    }
  }

  lemma OneMoreTurn(first: Flags, rounds: seq<Round>, r: Round)
    requires ServeAll(first, rounds).pc == AwaitRequest
    ensures var done := ServeAll(first, rounds);
      var last := ServeOne(done.flags, r);
      ServeAll(first, rounds + [r]) == Served(done.log + last.log, last.flags, last.pc)
  {
    SessionIsTurns(first, rounds);
    SessionIsTurns(first, rounds + [r]);
    OneMore(ServeOne, first, rounds, r);
  }

  /** Two spells of other sessions in a row are one. */
  lemma SpellsJoin(last: Flags, flags: Flags, flags': Flags, mine: Option<Path>)
    requires Since(flags, last, mine) && flags' == Elsewhere(flags, mine, LockedPaths(flags'))
    ensures Since(flags', last, mine)
  {}

  /** Answering an open turn, whatever its later waits will bring. */
  lemma OpenAnswers(seen: Flags, t: Trace, pc: ServerPc)
    requires Open(seen, t, pc)
    ensures Answer(seen, t.part) ==
      AfterDecision(t.flags, t.part, pc, Opening(t.part.req, Won(seen, t.part), t.part.handlerOk))
  {}

  /** An open turn that was permitted and has said so goes on to the wait for its acknowledge. */
  lemma GrantedGoesOn(t: Trace, req: Endpoint, log: seq<Event>)
    requires t.part.req == req && t.part.sent && t.part.cut != Some(AtReply) && !req.kind.Unknown?
    ensures AfterDecision(t.flags, t.part, Replying(req, Permitted), log) ==
      AfterPermission(Elsewhere(t.flags, Some(req.path), t.part.atReply), t.part, log + [Sent(Permitted)])
  {}

  lemma TurnIsAnswer(flags: Flags, r: Round)
    requires r.arrived && r.cut != Some(AtRequest)
    ensures ServeOne(flags, r) == Answer(Elsewhere(flags, None, r.atRequest), r)
  {}

  lemma Associate(a: seq<Event>, b: seq<Event>, c: seq<Event>)
    ensures a + (b + c) == a + b + c
  {}

  /** A turn that ends here joins the whole turns. */
  lemma TurnEnds(first: Flags, t: Trace, events: seq<Event>, done: Served) returns (t': Trace)
    requires ServeAll(first, t.rounds).pc == AwaitRequest && t.part.arrived && t.part.cut != Some(AtRequest)
    requires Answer(Seen(first, t), t.part) == done && done.log == Start(first, t) + events
    ensures ServeAll(first, t'.rounds) == Served(Begun(first, t) + events, done.flags, done.pc)
  {
    t' := Trace(t.rounds + [t.part], t.part, done.flags);
    OneMoreTurn(first, t.rounds, t.part);
    TurnIsAnswer(ServeAll(first, t.rounds).flags, t.part);
    Associate(ServeAll(first, t.rounds).log, Start(first, t), events);
  }

  // -------------------------------------------------------------- one step of a session

  lemma OthersGoOn(first: Flags, t: Trace, log: seq<Event>, flags: Flags, flags': Flags, pc: ServerPc)
    requires Explains(first, t, log, flags, pc) && flags' == Elsewhere(flags, HeldPath(pc), LockedPaths(flags'))
    ensures Explains(first, t, log, flags', pc)
  {
    if pc.AwaitRequest? { SpellsJoin(ServeAll(first, t.rounds).flags, flags, flags', None); }
    else if pc.Replying? { SpellsJoin(t.flags, flags, flags', HeldPath(pc)); }
    else if pc.AwaitAck? {
      SpellsJoin(Elsewhere(t.flags, Some(pc.req.path), t.part.atReply), flags, flags', Some(pc.req.path));
    }
  }

  /** A request arrives: the turn opens, or ends at once without an RDMA connection. */
  lemma Asks(first: Flags, t: Trace, log: seq<Event>, flags: Flags, r: Round, flags': Flags) returns (t': Trace)
    requires Explains(first, t, log, flags, AwaitRequest) && r.arrived
    requires r.cut == None && r.atRequest == LockedPaths(flags)
    requires flags' == (if Won(flags, r) then SetPath(flags, r.req.path, true) else flags)
    requires Since(flags', flags', if Won(flags, r) then Some(r.req.path) else None)
    ensures var pc := AfterRequest(r.req, r.connected, IdKnown(flags, r.req), r.exported, Won(flags, r), r.handlerOk);
      var returned := if r.connected then [] else [Returned];
      Explains(first, t', log + Opening(r.req, Won(flags, r), r.handlerOk) + returned, flags', pc)
  {
    t' := Trace(t.rounds, r, flags');
    assert Seen(first, t') == flags;
    if !r.connected {
      t' := TurnEnds(first, t', [Returned], Served(Start(first, t') + [Returned], flags', Ended(None)));
    } else {
      assert Begun(first, t') + [] == Begun(first, t');
    }
  }

  /** `r` is the open turn of `t` with what its later waits brought. */
  ghost predicate Continues(r: Round, t: Trace) {
    && r.arrived && r.req == t.part.req && r.connected == t.part.connected && r.exported == t.part.exported
    && r.atRequest == t.part.atRequest && r.cut != Some(AtRequest)
    && (r.req.kind == Read ==> r.handlerOk == t.part.handlerOk)
  }

  lemma StillOpen(first: Flags, t: Trace, r: Round, pc: ServerPc)
    requires Continues(r, t) && Open(Seen(first, t), t, pc)
    ensures Open(Seen(first, t.(part := r)), t.(part := r), pc) && Begun(first, t.(part := r)) == Begun(first, t)
    ensures Seen(first, t.(part := r)) == Seen(first, t)
  {}

  /** The turn ends with its answer, or in the wait for it. */
  lemma EndsAtReply(first: Flags, t: Trace, log: seq<Event>, flags: Flags, pc: ServerPc, r: Round,
                    events: seq<Event>, done: Served)
    returns (t': Trace)
    requires Explains(first, t, log, flags, pc) && pc.Replying? && Continues(r, t)
    requires done == AfterDecision(t.flags, r, pc, Start(first, t)) && done.log == Start(first, t) + events
    requires (done.pc == AwaitRequest && Since(done.flags, done.flags, None)) || done.pc.Ended?
    ensures Explains(first, t', log + events, done.flags, done.pc)
  {
    var u := t.(part := r);
    StillOpen(first, t, r, pc);
    OpenAnswers(Seen(first, u), u, pc);
    t' := TurnEnds(first, u, events, done);
  }

  /** The turn goes on to the wait for its acknowledge. */
  lemma WaitsForAck(first: Flags, t: Trace, log: seq<Event>, flags: Flags, req: Endpoint, r: Round) returns (t': Trace)
    requires Explains(first, t, log, flags, Replying(req, Permitted)) && Continues(r, t)
    requires r.sent && r.atReply == LockedPaths(flags)
    requires Since(flags, flags, Some(req.path))
    ensures Explains(first, t', log + [Sent(Permitted)], flags, AwaitAck(req))
  {
    StillOpen(first, t, r, Replying(req, Permitted));
    t' := t.(part := r);
  }

  lemma AnswerGranted(first: Flags, t: Trace, req: Endpoint)
    requires Open(Seen(first, t), t, Replying(req, Permitted)) && t.part.sent
    requires t.part.cut != Some(AtReply) && !req.kind.Unknown?
    ensures Answer(Seen(first, t), t.part) ==
      AfterPermission(Elsewhere(t.flags, Some(req.path), t.part.atReply), t.part, Start(first, t) + [Sent(Permitted)])
  {
    OpenAnswers(Seen(first, t), t, Replying(req, Permitted));
    GrantedGoesOn(t, req, Start(first, t));
  }

  /** The turn ends with its acknowledge, without one, or in the wait for it. */
  lemma EndsAtAck(first: Flags, t: Trace, log: seq<Event>, flags: Flags, req: Endpoint, r: Round,
                  events: seq<Event>, done: Served)
    returns (t': Trace)
    requires Explains(first, t, log, flags, AwaitAck(req)) && Continues(r, t) && !req.kind.Unknown?
    requires r.sent && r.atReply == t.part.atReply && r.cut != Some(AtReply)
    requires done ==
      AfterPermission(Elsewhere(t.flags, Some(req.path), r.atReply), r, Start(first, t) + [Sent(Permitted)])
    requires done.log == Start(first, t) + [Sent(Permitted)] + events
    requires (done.pc == AwaitRequest && Since(done.flags, done.flags, None)) || done.pc.Ended?
    ensures Explains(first, t', log + events, done.flags, done.pc)
  {
    var u := t.(part := r);
    StillOpen(first, t, r, Replying(req, Permitted));
    AnswerGranted(first, u, req);
    Associate(Start(first, t), [Sent(Permitted)], events);
    t' := TurnEnds(first, u, [Sent(Permitted)] + events, done);
    Associate(Begun(first, t), [Sent(Permitted)], events);
  }

  /** `Serve` returns while the session waits for a request. */
  lemma DestroyedIdle(first: Flags, t: Trace, log: seq<Event>, flags: Flags, r: Round) returns (t': Trace)
    requires Explains(first, t, log, flags, AwaitRequest)
    requires r.cut == Some(AtRequest) && r.atRequest == LockedPaths(flags)
    ensures Explains(first, t', log + [Destroyed], flags, Ended(None))
  {
    OneMoreTurn(first, t.rounds, r);
    t' := Trace(t.rounds + [r], r, flags);
  }

  // ------------------------------------------------------------------ the steps of a run

  lemma SinceHeld(cfg: P.Config, s: P.State, i: nat)
    requires ProtocolInvariant.LocksOk(cfg, s.flags, s.links) && i in s.links
    ensures Since(s.flags, s.flags, HeldPath(s.links[i].server))
  {
    SetTogether(cfg, s.flags, s.links, s.flags, s.links, i);
  }

  lemma RequestStep(cfg: P.Config, s: P.State, a: P.Action, s': P.State, first: Flags, t: Trace, log: seq<Event>)
    returns (t': Trace)
    requires a.ServeRequest? && a.at in s.links && P.Next(cfg, s, a) == Some(s') && a.at in s'.links
    requires ProtocolInvariant.LocksOk(cfg, s.flags, s.links) && ProtocolInvariant.LocksOk(cfg, s'.flags, s'.links)
    requires s.links[a.at].up[0].ep == s.links[a.at].ep && !s.links[a.at].ep.kind.Unknown?
    requires Explains(first, t, log, s.flags, s.links[a.at].server)
    ensures Explains(first, t', log + Events(cfg, s, a, a.at), s'.flags, s'.links[a.at].server)
  {
    var req, locked := s.links[a.at].up[0].ep, LockedPaths(s.flags);
    var r := Round(None, true, req, a.connected, a.exported, a.handler.ok, false, None, locked, {}, {});
    RequestSegment(cfg, s, a, r);
    SinceHeld(cfg, s', a.at);
    t' := Asks(first, t, log, s.flags, r, s'.flags);
    Associate(log, Opening(r.req, Won(s.flags, r), r.handlerOk), if r.connected then [] else [Returned]);
  }

  lemma PermittedStep(cfg: P.Config, s: P.State, a: P.Action, s': P.State, first: Flags, t: Trace, log: seq<Event>)
    returns (t': Trace)
    requires a.ServeReply? && a.at in s.links && P.Next(cfg, s, a) == Some(s') && a.at in s'.links
    requires s'.links[a.at].server.AwaitAck? && Since(s'.flags, s'.flags, HeldPath(s'.links[a.at].server))
    requires Explains(first, t, log, s.flags, s.links[a.at].server)
    ensures Explains(first, t', log + [Sent(Permitted)], s'.flags, s'.links[a.at].server)
  {
    var r := t.part.(cut := None, sent := a.sent, atReply := LockedPaths(s.flags));
    t' := WaitsForAck(first, t, log, s.flags, s.links[a.at].server.req, r);
  }

  lemma ReplyStep(cfg: P.Config, s: P.State, a: P.Action, s': P.State, first: Flags, t: Trace, log: seq<Event>)
    returns (t': Trace)
    requires a.ServeReply? && a.at in s.links && P.Next(cfg, s, a) == Some(s') && a.at in s'.links
    requires ProtocolInvariant.LocksOk(cfg, s'.flags, s'.links)
    requires Explains(first, t, log, s.flags, s.links[a.at].server)
    ensures Explains(first, t', log + Events(cfg, s, a, a.at), s'.flags, s'.links[a.at].server)
  {
    var pc := s.links[a.at].server;
    var r := t.part.(cut := None, sent := a.sent, atReply := LockedPaths(s.flags));
    SinceHeld(cfg, s', a.at);
    ReplySegment(cfg, s, a, r, t.flags, Start(first, t));
    if s'.links[a.at].server.AwaitAck? {
      t' := PermittedStep(cfg, s, a, s', first, t, log);
    } else {
      var done := AfterDecision(t.flags, r, pc, Start(first, t));
      t' := EndsAtReply(first, t, log, s.flags, pc, r, Events(cfg, s, a, a.at), done);
    }
  }

  lemma AckStep(cfg: P.Config, s: P.State, a: P.Action, s': P.State, first: Flags, t: Trace, log: seq<Event>)
    returns (t': Trace)
    requires (a.ServeAck? || a.ServeAckLost?) && a.at in s.links && P.Next(cfg, s, a) == Some(s') && a.at in s'.links
    requires ProtocolInvariant.LocksOk(cfg, s'.flags, s'.links) && !s.links[a.at].server.req.kind.Unknown?
    requires Explains(first, t, log, s.flags, s.links[a.at].server)
    ensures Explains(first, t', log + Events(cfg, s, a, a.at), s'.flags, s'.links[a.at].server)
  {
    var req := s.links[a.at].server.req;
    var r := t.part.(cut := None, atAck := LockedPaths(s.flags),
                     ack := if a.ServeAck? then Some(s.links[a.at].up[0].code) else None,
                     handlerOk := if a.ServeAck? && req.kind == Write then a.handler.ok else t.part.handlerOk);
    SinceHeld(cfg, s', a.at);
    var last := Elsewhere(t.flags, Some(req.path), t.part.atReply);
    AckSegment(cfg, s, a, r, last, Start(first, t) + [Sent(Permitted)]);
    t' := EndsAtAck(first, t, log, s.flags, req, r, Events(cfg, s, a, a.at),
                    AfterPermission(last, r, Start(first, t) + [Sent(Permitted)]));
  }

  lemma StopStep(cfg: P.Config, s: P.State, a: P.Action, s': P.State, i: nat, first: Flags, t: Trace, log: seq<Event>)
    returns (t': Trace)
    requires a.ServeStops? && i in s.links && P.Next(cfg, s, a) == Some(s')
    requires i in s'.links && !s.links[i].server.Misread?
    requires s.links[i].server.AwaitAck? ==> !s.links[i].server.req.kind.Unknown?
    requires Explains(first, t, log, s.flags, s.links[i].server)
    ensures Explains(first, t', log + Events(cfg, s, a, i), s'.flags, s'.links[i].server)
  {
    var pc := s.links[i].server;
    if pc.AwaitRequest? {
      t' := DestroyedIdle(first, t, log, s.flags, t.part.(cut := Some(AtRequest), atRequest := LockedPaths(s.flags)));
    } else if pc.Replying? {
      var r := t.part.(cut := Some(AtReply), atReply := LockedPaths(s.flags));
      StopSegment(cfg, s, a, i, r, t.flags, Start(first, t));
      t' := EndsAtReply(first, t, log, s.flags, pc, r, [Destroyed], AfterDecision(t.flags, r, pc, Start(first, t)));
    } else if pc.AwaitAck? {
      var r := t.part.(cut := Some(AtAck), atAck := LockedPaths(s.flags));
      var last := Elsewhere(t.flags, Some(pc.req.path), t.part.atReply);
      StopSegment(cfg, s, a, i, r, last, Start(first, t) + [Sent(Permitted)]);
      var done := AfterPermission(last, r, Start(first, t) + [Sent(Permitted)]);
      t' := EndsAtAck(first, t, log, s.flags, pc.req, r, [Destroyed], done);
    } else {
      t' := t;
      assert log + [] == log;
    }
  }

  lemma OthersStep(cfg: P.Config, s: P.State, a: P.Action, s': P.State, i: nat, first: Flags, t: Trace, log: seq<Event>)
    requires i in s.links && P.Next(cfg, s, a) == Some(s') && i in s'.links
    requires ProtocolInvariant.LocksOk(cfg, s.flags, s.links) && ProtocolInvariant.LocksOk(cfg, s'.flags, s'.links)
    requires !a.ServeStops? && !(a.at == i && ProtocolTheorems.ServerActs(a))
    requires Explains(first, t, log, s.flags, s.links[i].server)
    ensures Explains(first, t, log + Events(cfg, s, a, i), s'.flags, s'.links[i].server)
  {
    ProtocolTheorems.ServerStays(cfg, s, a, i);
    SetTogether(cfg, s.flags, s.links, s'.flags, s'.links, i);
    OthersGoOn(first, t, log, s.flags, s'.flags, s.links[i].server);
    assert log + [] == log;
  }

  lemma AnyStep(cfg: P.Config, s: P.State, a: P.Action, s': P.State, i: nat, first: Flags, t: Trace, log: seq<Event>)
    returns (t': Trace)
    requires i in s.links && P.Next(cfg, s, a) == Some(s') && i in s'.links
    requires a != P.ServeMisread(i) && !s.links[i].server.Misread?
    requires ProtocolInvariant.LocksOk(cfg, s.flags, s.links) && ProtocolInvariant.LocksOk(cfg, s'.flags, s'.links)
    requires ProtocolInvariant.LinkOk(cfg, s.links[i], i in s.cut) && !s.links[i].ep.kind.Unknown?
    requires Explains(first, t, log, s.flags, s.links[i].server)
    ensures Explains(first, t', log + Events(cfg, s, a, i), s'.flags, s'.links[i].server)
  {
    if a.ServeStops? { t' := StopStep(cfg, s, a, s', i, first, t, log); }
    else if a.at == i && a.ServeRequest? { t' := RequestStep(cfg, s, a, s', first, t, log); }
    else if a.at == i && a.ServeReply? { t' := ReplyStep(cfg, s, a, s', first, t, log); }
    else if a.at == i && (a.ServeAck? || a.ServeAckLost?) { t' := AckStep(cfg, s, a, s', first, t, log); }
    else {
      OthersStep(cfg, s, a, s', i, first, t, log);
      t' := t;
    }
  }

  lemma LinkKept(cfg: P.Config, s: P.State, a: P.Action, i: nat)
    requires P.Next(cfg, s, a).Some? && i in s.links && a != P.ServeMisread(i) && !s.links[i].server.Misread?
    ensures i in P.Next(cfg, s, a).value.links && P.Next(cfg, s, a).value.links[i].ep == s.links[i].ep
    ensures !P.Next(cfg, s, a).value.links[i].server.Misread?
  {}

  /** Link `i` in a state of the machine, explained by `t`. */
  ghost predicate Traced(cfg: P.Config, s: P.State, i: nat, first: Flags, t: Trace, log: seq<Event>) {
    && ProtocolInvariant.Inv(cfg, s) && i in s.links && !s.links[i].ep.kind.Unknown? && !s.links[i].server.Misread?
    && Explains(first, t, log, s.flags, s.links[i].server)
  }

  lemma TracedStep(cfg: P.Config, s: P.State, a: P.Action, i: nat, first: Flags, t: Trace, log: seq<Event>)
    returns (t': Trace)
    requires Traced(cfg, s, i, first, t, log) && P.Next(cfg, s, a).Some? && a != P.ServeMisread(i)
    ensures Traced(cfg, P.Next(cfg, s, a).value, i, first, t', log + Events(cfg, s, a, i))
  {
    ProtocolProof.KeptByStep(cfg, s, a);
    LinkKept(cfg, s, a, i);
    t' := AnyStep(cfg, s, a, P.Next(cfg, s, a).value, i, first, t, log);
  }

  /** What every step carries on, a run does. */
  lemma {:induction false} AlongRun(cfg: P.Config, s: P.State, run: seq<P.Action>, s': P.State, i: nat, log: seq<Event>,
      holds: (P.State, seq<Event>) -> bool)
    requires P.Run(cfg, s, run, s') && P.ServeMisread(i) !in run && holds(s, log)
    requires forall u, l :: holds(u, l) ==> i in u.links
    requires forall u, a, l :: holds(u, l) && P.Next(cfg, u, a).Some? && a != P.ServeMisread(i) ==>
      holds(P.Next(cfg, u, a).value, l + Events(cfg, u, a, i))
    ensures i in s.links && holds(s', log + History(cfg, s, run, i))
    decreases run
  {
    if run == [] {
      assert log + [] == log;
    } else {
      var next, events := P.Next(cfg, s, run[0]).value, Events(cfg, s, run[0], i);
      AlongRun(cfg, next, run[1..], s', i, log + events, holds);
      Associate(log, events, History(cfg, next, run[1..], i));
    }
  }

  lemma HistoryFrom(cfg: P.Config, s: P.State, run: seq<P.Action>, s': P.State, i: nat, first: Flags, t: Trace)
    returns (t': Trace)
    requires Traced(cfg, s, i, first, t, []) && P.Run(cfg, s, run, s') && P.ServeMisread(i) !in run
    ensures Traced(cfg, s', i, first, t', History(cfg, s, run, i))
  {
    ghost var holds := (u, l) => exists v :: Traced(cfg, u, i, first, v, l);
    forall u, a, l | holds(u, l) && P.Next(cfg, u, a).Some? && a != P.ServeMisread(i)
      ensures holds(P.Next(cfg, u, a).value, l + Events(cfg, u, a, i))
    {
      var v :| Traced(cfg, u, i, first, v, l);
      var v' := TracedStep(cfg, u, a, i, first, v, l);
    }
    AlongRun(cfg, s, run, s', i, [], holds);
    assert [] + History(cfg, s, run, i) == History(cfg, s, run, i);
    t' :| Traced(cfg, s', i, first, t', History(cfg, s, run, i));
  }

  /** The coroutine and the machine are one: what the server of a link does in any run of the
      machine, from a point at which it waits for a request, is what the coroutine does in some
      sequence of turns and an open one; where it has returned or waits for a request, exactly
      in a sequence of whole turns. */
  lemma HistoryIsServeAll(cfg: P.Config, s: P.State, run: seq<P.Action>, s': P.State, i: nat) returns (t: Trace)
    requires ProtocolInvariant.Inv(cfg, s) && P.Run(cfg, s, run, s') && i in s.links && !s.links[i].ep.kind.Unknown?
    requires s.links[i].server == AwaitRequest && P.ServeMisread(i) !in run
    ensures i in s'.links && !s'.links[i].server.Misread?
    ensures Explains(s.flags, t, History(cfg, s, run, i), s'.flags, s'.links[i].server)
    ensures s'.links[i].server == AwaitRequest || s'.links[i].server.Ended? ==>
      ServeAll(s.flags, t.rounds).log == History(cfg, s, run, i) && ServeAll(s.flags, t.rounds).pc == s'.links[i].server
  {
    SinceHeld(cfg, s, i);
    var r := Round(None, false, s.links[i].ep, false, false, false, false, None, {}, {}, {});
    t := Trace([], r, s.flags);
    t := HistoryFrom(cfg, s, run, s', i, s.flags, t);
  }

  /** The mode of a session suspended there. */
  ghost predicate InMode(pc: ServerPc, m: Mode) {
    match pc
    case AwaitRequest => m == Idle
    case Replying(req, code) => Prepared(m, pc)
    case AwaitAck(req) => m == SessionDiscipline.Granted(req)
    case Ended(leaked) => m == Over(leaked)
    case Misread => true
  }

  lemma OpenObeys(first: Flags, t: Trace, pc: ServerPc)
    requires ServeAll(first, t.rounds).pc == AwaitRequest && Open(Seen(first, t), t, pc)
    ensures Prepared(Scan(Idle, Begun(first, t)), pc)
  {
    SessionObeys(first, t.rounds);
    OpeningObeys(t.part.req, Won(Seen(first, t), t.part), t.part.handlerOk);
    ScanJoined(Idle, ServeAll(first, t.rounds).log, Start(first, t));
  }

  lemma PermissionTold(log: seq<Event>, req: Endpoint)
    requires Prepared(Scan(Idle, log), Replying(req, Permitted))
    ensures Scan(Idle, log + [Sent(Permitted)]) == SessionDiscipline.Granted(req)
  {
    ScanPush(log, Sent(Permitted));
  }

  lemma TraceObeys(first: Flags, t: Trace, log: seq<Event>, flags: Flags, pc: ServerPc)
    requires Explains(first, t, log, flags, pc)
    ensures InMode(pc, Scan(Idle, log))
  {
    if pc.Replying? {
      OpenObeys(first, t, pc);
    } else if pc.AwaitAck? {
      OpenObeys(first, t, Replying(pc.req, Permitted));
      PermissionTold(Begun(first, t), pc.req);
    } else {
      SessionObeys(first, t.rounds);
    }
  }

  /** Lock balance and handler discipline in every interleaving: the events of every link's
      server obey the acceptor of `SessionDiscipline`, whatever the clients, the timers, the
      other sessions and the returns of `Serve` do. */
  lemma EveryLinkObeys(cfg: P.Config, s: P.State, run: seq<P.Action>, s': P.State, i: nat)
    requires ProtocolInvariant.Inv(cfg, s) && P.Run(cfg, s, run, s') && i in s.links && !s.links[i].ep.kind.Unknown?
    requires s.links[i].server == AwaitRequest && P.ServeMisread(i) !in run
    ensures i in s'.links && !s'.links[i].server.Misread?
    ensures InMode(s'.links[i].server, Scan(Idle, History(cfg, s, run, i)))
    ensures Scan(Idle, History(cfg, s, run, i)) != Broken
  {
    var t := HistoryIsServeAll(cfg, s, run, s', i);
    TraceObeys(s.flags, t, History(cfg, s, run, i), s'.flags, s'.links[i].server);
  }
}
