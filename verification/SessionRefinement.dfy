/** The server coroutine and the server's steps of the protocol's machine are one thing: each
    segment of a turn is a step of the machine, what the coroutine assumes of other sessions is
    what every interleaving of the machine lets them do, and so the history of every link in
    every run of the machine is a history of the coroutine. */
module SessionRefinement {
  import opened EndpointTypes
  import opened LockFlags
  import opened SessionSteps
  import opened EndpointStorage
  import opened ServerSession
  import P = Protocol
  import ProtocolInvariant
  import ProtocolProof

  function LockedPaths(flags: Flags): set<Path> {
    set e | e in flags && flags[e] :: e.path
  }

  /** Between two points at which a session is suspended in the same place, any steps of other
      links change the flags in the one way the coroutine allows for: whole paths at a time,
      and never the path it holds. */
  lemma OthersRunElsewhere(cfg: P.Config, s: P.State, s': P.State, i: nat)
    requires P.Reachable(cfg, s) && P.Reachable(cfg, s') && i in s.links && i in s'.links
    requires s.links[i].server == s'.links[i].server
    ensures s'.flags == Elsewhere(s.flags, HeldPath(s.links[i].server), LockedPaths(s'.flags))
  {
    ProtocolProof.ReachableInv(cfg, s);
    ProtocolProof.ReachableInv(cfg, s');
    SetTogether(cfg, s.flags, s.links, s'.flags, s'.links, i);
  }

  lemma SetTogether(cfg: P.Config, flags: Flags, links: map<nat, P.Link>, flags': Flags,
                    links': map<nat, P.Link>, i: nat)
    requires ProtocolInvariant.LocksOk(cfg, flags, links) && ProtocolInvariant.LocksOk(cfg, flags', links')
    requires i in links && i in links' && links[i].server == links'[i].server
    ensures flags' == Elsewhere(flags, HeldPath(links[i].server), LockedPaths(flags'))
  {
    var seen := Elsewhere(flags, HeldPath(links[i].server), LockedPaths(flags'));
    forall e | e in flags' ensures e in seen && seen[e] == flags'[e] {
      if HeldPath(links[i].server) == Some(e.path) {
        assert flags[e] && flags'[e];
      } else if e.path in LockedPaths(flags') {
        var f :| f in flags' && flags'[f] && f.path == e.path;
        var j :| j in links' && HeldPath(links'[j].server) == Some(f.path);
        assert HeldPath(links'[j].server) == Some(e.path);
      }
    }
  }

  /** For a type of the enumeration, looking up by identifier is looking up the endpoint. */
  lemma KnownById(flags: Flags, req: Endpoint)
    requires !req.kind.Unknown?
    ensures IdKnown(flags, req) <==> req in flags
  {
    if e :| e in flags && MakeEndpointId(e) == MakeEndpointId(req) {
      IdsCollide(e, req);
    }
  }

  /** What an enabled step of the machine adds to the events of link `i`'s server. */
  ghost function Events(cfg: P.Config, s: P.State, a: P.Action, i: nat): seq<Event>
    requires P.Next(cfg, s, a).Some? && i in s.links
  {
    var l := s.links[i];
    if a.ServeStops? then if l.server.Ended? then [] else [Destroyed]
    else if a.at != i then []
    else
      match a
      case ServeRequest(_, connected, exported, handler) =>
        var req := l.up[0].ep;
        Opening(req, connected && req in cfg.buffer && exported && SomeFree(s.flags, req.path), handler.ok)
        + if connected then [] else [Returned]
      case ServeReply(_, _, sent) =>
        var next := AfterReply(l.server.req, l.server.code, sent);
        [if sent then Sent(l.server.code) else Lost(l.server.code)]
        + (if next.Ended? then [Returned]
           else if next.AwaitRequest? && HeldPath(l.server).Some? then [Released(l.server.req.path)] else [])
      case ServeAck(_, handler) =>
        (if l.server.req.kind == Write then [Acked(l.up[0].code), Handled(l.server.req, handler.ok)]
         else [Acked(l.up[0].code)])
        + [Released(l.server.req.path)]
      case ServeAckLost(_) => [AckLost, Released(l.server.req.path)]
      case _ => []
  }

  ghost predicate Won(seen: Flags, r: Round) {
    r.connected && IdKnown(seen, r.req) && r.exported && SomeFree(seen, r.req.path)
  }

  /** The first segment of a turn is the machine's `ServeRequest`: the lock is taken in the same
      case, and the coroutine goes on to the answer the machine is about to send. */
  lemma RequestSegment(cfg: P.Config, s: P.State, a: P.Action, r: Round)
    requires a.ServeRequest? && a.at in s.links && P.Next(cfg, s, a).Some? && s.flags.Keys == cfg.buffer.Keys
    requires r.req == s.links[a.at].up[0].ep && !r.req.kind.Unknown?
    requires r.connected == a.connected && r.exported == a.exported && r.handlerOk == a.handler.ok
    ensures var s', log := P.Next(cfg, s, a).value, Events(cfg, s, a, a.at);
      && Won(s.flags, r) == (HeldPath(s'.links[a.at].server) != None)
      && s'.flags == (if Won(s.flags, r) then SetPath(s.flags, r.req.path, true) else s.flags)
      && s'.links[a.at].server ==
         AfterRequest(r.req, r.connected, IdKnown(s.flags, r.req), r.exported, Won(s.flags, r), r.handlerOk)
      && log == Opening(r.req, Won(s.flags, r), r.handlerOk) + (if r.connected then [] else [Returned])
      && (r.connected ==> Answer(s.flags, r) == AfterDecision(s'.flags, r, s'.links[a.at].server, log))
      && (!r.connected ==> Answer(s.flags, r) == Served(log, s'.flags, s'.links[a.at].server))
  {
    KnownById(s.flags, r.req);
    assert Opening(r.req, Won(s.flags, r), r.handlerOk) + [] == Opening(r.req, Won(s.flags, r), r.handlerOk);
  }

  /** The answer is the machine's `ServeReply`, `flags` being what the coroutine last saw. */
  lemma ReplySegment(cfg: P.Config, s: P.State, a: P.Action, r: Round, flags: Flags, log: seq<Event>)
    requires a.ServeReply? && a.at in s.links && P.Next(cfg, s, a).Some?
    requires s.links[a.at].server.req == r.req && r.sent == a.sent && r.cut != Some(AtReply)
    requires s.flags == Elsewhere(flags, HeldPath(s.links[a.at].server), r.atReply)
    ensures var s', done := P.Next(cfg, s, a).value, AfterDecision(flags, r, s.links[a.at].server, log);
      if s'.links[a.at].server.AwaitAck? then
        Events(cfg, s, a, a.at) == [Sent(Permitted)] && done == AfterPermission(s'.flags, r, log + [Sent(Permitted)])
      else done == Served(log + Events(cfg, s, a, a.at), s'.flags, s'.links[a.at].server)
    ensures (Events(cfg, s, a, a.at)[0] == Sent(s.links[a.at].server.code)) == a.sent
    ensures a.delivered ==>
      && |P.Next(cfg, s, a).value.links[a.at].down| == |s.links[a.at].down| + 1
      && s.links[a.at].down <= P.Next(cfg, s, a).value.links[a.at].down
      && P.Next(cfg, s, a).value.links[a.at].down[|s.links[a.at].down|].code == s.links[a.at].server.code
    ensures !a.delivered ==> !a.sent && P.Next(cfg, s, a).value.links[a.at].down == s.links[a.at].down
  {
    var told := [if a.sent then Sent(s.links[a.at].server.code) else Lost(s.links[a.at].server.code)];
    assert told + [] == told;
    assert log + (told + [Returned]) == log + told + [Returned];
    assert log + (told + [Released(r.req.path)]) == log + told + [Released(r.req.path)];
  }

  /** The end of a turn is the machine's `ServeAck` or, without an acknowledge, `ServeAckLost`. */
  lemma AckSegment(cfg: P.Config, s: P.State, a: P.Action, r: Round, flags: Flags, log: seq<Event>)
    requires (a.ServeAck? || a.ServeAckLost?) && a.at in s.links && P.Next(cfg, s, a).Some?
    requires s.links[a.at].server == AwaitAck(r.req) && r.cut != Some(AtAck)
    requires s.flags == Elsewhere(flags, Some(r.req.path), r.atAck)
    requires r.ack == if a.ServeAck? then Some(s.links[a.at].up[0].code) else None
    requires a.ServeAck? && r.req.kind == Write ==> r.handlerOk == a.handler.ok
    ensures AfterPermission(flags, r, log) ==
      Served(log + Events(cfg, s, a, a.at), P.Next(cfg, s, a).value.flags, P.Next(cfg, s, a).value.links[a.at].server)
  {
    var path := r.req.path;
    assert log + [AckLost, Released(path)] == log + [AckLost] + [Released(path)];
    if a.ServeAck? {
      var acked :=
        if r.req.kind == Write then [Acked(r.ack.value), Handled(r.req, r.handlerOk)] else [Acked(r.ack.value)];
      assert log + (acked + [Released(path)]) == log + acked + [Released(path)];
    }
  }

  /** The return of `Serve` is the destruction of the coroutine in the wait it is in. */
  lemma StopSegment(cfg: P.Config, s: P.State, a: P.Action, i: nat, r: Round, flags: Flags, log: seq<Event>)
    requires a.ServeStops? && P.Next(cfg, s, a).Some? && i in s.links
    ensures var s', pc := P.Next(cfg, s, a).value, s.links[i].server;
      && i in s'.links && s'.flags == s.flags
      && (pc == AwaitRequest && r.cut == Some(AtRequest) && s.flags == Elsewhere(flags, None, r.atRequest) ==>
            ServeOne(flags, r) == Served(Events(cfg, s, a, i), s'.flags, s'.links[i].server))
      && (pc.Replying? && pc.req == r.req && r.cut == Some(AtReply)
          && s.flags == Elsewhere(flags, HeldPath(pc), r.atReply) ==>
            AfterDecision(flags, r, pc, log) == Served(log + Events(cfg, s, a, i), s'.flags, s'.links[i].server))
      && (pc == AwaitAck(r.req) && r.cut == Some(AtAck) && s.flags == Elsewhere(flags, Some(r.req.path), r.atAck) ==>
            AfterPermission(flags, r, log) == Served(log + Events(cfg, s, a, i), s'.flags, s'.links[i].server))
  {}
}
