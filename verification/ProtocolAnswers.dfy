/** What each side is told: the answer the server decided on is the one the client hears, and the
    acknowledge the client decided on is the one the server receives. */
module ProtocolAnswers {
  import opened EndpointTypes
  import opened LockFlags
  import opened SessionSteps
  import opened Protocol
  import opened ProtocolInvariant
  import opened ProtocolProof
  import opened ProtocolTheorems

  // ----------------------------------------------------------------------- the answer

  /** Every flag of the path is set. */
  ghost predicate AllSet(flags: Flags, path: Path) {
    forall e | e in flags && e.path == path :: flags[e]
  }

  /** What a request is answered, exactly: each code has its condition, and without a connection
      there is no answer. */
  lemma DecidesExactly(cfg: Config, s: State, a: Action)
    requires Reachable(cfg, s) && a.ServeRequest? && Next(cfg, s, a).Some?
    ensures a.at in s.links && a.at in Next(cfg, s, a).value.links
    ensures var ep, server := s.links[a.at].ep, Next(cfg, s, a).value.links[a.at].server;
      && (!a.connected ==> server == Ended(None))
      && (a.connected ==> server.Replying? && server.req == ep)
      && (server == Replying(ep, NotFound) <==> a.connected && ep !in cfg.buffer)
      && (server == Replying(ep, InternalError) <==> a.connected && ep in cfg.buffer && !a.exported)
      && (server == Replying(ep, EndpointLocked) <==>
            a.connected && ep in cfg.buffer && a.exported && AllSet(s.flags, ep.path))
      && (server == Replying(ep, ServiceError) <==>
            && a.connected && ep in cfg.buffer && a.exported && !AllSet(s.flags, ep.path)
            && ep.kind == Read && !a.handler.ok)
      && (server == Replying(ep, Permitted) <==>
            && a.connected && ep in cfg.buffer && a.exported && !AllSet(s.flags, ep.path)
            && (ep.kind == Read ==> a.handler.ok))
  {
    ReachableInv(cfg, s);
    Decides(cfg, s, a);
  }

  lemma Decides(cfg: Config, s: State, a: Action)
    requires a.ServeRequest? && Next(cfg, s, a).Some? && LinkAt(cfg, s, a.at)
    ensures a.at in Next(cfg, s, a).value.links
    ensures s.links[a.at].down == [] && Next(cfg, s, a).value.links[a.at].down == []
    ensures Next(cfg, s, a).value.links[a.at].up == []
    ensures s.links[a.at].client == AwaitResponse || s.links[a.at].client == Closed
    ensures Next(cfg, s, a).value.links[a.at].client == s.links[a.at].client
    ensures Next(cfg, s, a).value.links[a.at].ep == s.links[a.at].ep
    ensures var ep := s.links[a.at].ep;
      Next(cfg, s, a).value.links[a.at].server ==
        if !a.connected then Ended(None)
        else if ep !in cfg.buffer then Replying(ep, NotFound)
        else if !a.exported then Replying(ep, InternalError)
        else if !SomeFree(s.flags, ep.path) then Replying(ep, EndpointLocked)
        else if ep.kind == Read && !a.handler.ok then Replying(ep, ServiceError)
        else Replying(ep, Permitted)
  {
    assert s.links[a.at].up == [Request(s.links[a.at].ep)];
  }

  /** A delivered answer is the code the server decided on and the descriptor of the requested
      endpoint's buffer, which is there exactly when it was exported; one that is not delivered
      tells nothing. */
  lemma ReplyTells(cfg: Config, s: State, a: Action)
    requires Reachable(cfg, s) && a.ServeReply? && Next(cfg, s, a).Some?
    ensures a.at in s.links && a.at in Next(cfg, s, a).value.links && s.links[a.at].server.Replying?
    ensures s.links[a.at].server.req == s.links[a.at].ep
    ensures !a.delivered ==> Next(cfg, s, a).value.links[a.at].down == s.links[a.at].down == []
    ensures var ep, code, down := s.links[a.at].ep, s.links[a.at].server.code, Next(cfg, s, a).value.links[a.at].down;
      && (a.delivered && (code == NotFound || code == InternalError) ==> down == [Response(code, None)])
      && (a.delivered && code != NotFound && code != InternalError ==>
            ep in cfg.buffer && down == [Response(code, Some(cfg.buffer[ep]))])
  {
    ReachableInv(cfg, s);
    assert LinkAt(cfg, s, a.at);
    Replies(cfg, s, a.at, a.delivered, a.sent);
  }

  lemma Replies(cfg: Config, s: State, i: nat, delivered: bool, sent: bool)
    requires i in s.links && LinkAt(cfg, s, i) && ServerReply(cfg, s, i, s.links[i], delivered, sent).Some?
    ensures var l, l' := s.links[i], ServerReply(cfg, s, i, s.links[i], delivered, sent).value.links[i];
      var code := l.server.code;
      && l.down == [] && l.server.req == l.ep && l'.up == [] && !l'.server.Replying? && l'.ep == l.ep
      && (!delivered ==> l'.down == [])
      && (delivered && (code == NotFound || code == InternalError) ==> l'.down == [Response(code, None)])
      && (delivered && code != NotFound && code != InternalError ==>
            l.ep in cfg.buffer && l'.down == [Response(code, Some(cfg.buffer[l.ep]))])
  {}

  /** Link `i` was answered `answer`, if at all, and what is on its way says so. */
  ghost predicate Answered(cfg: Config, l: Link, answer: Option<Code>) {
    && l.client != Connected && (l.up != [] ==> !l.up[0].Request?)
    && (l.server.Replying? ==> answer == Some(l.server.code))
    && (l.down != [] ==>
          && answer.Some? && |l.down| == 1 && l.down[0].code == answer.value
          && l.down[0].descriptor ==
               if answer.value == NotFound || answer.value == InternalError || l.ep !in cfg.buffer then None
               else Some(cfg.buffer[l.ep]))
  }

  lemma ReplyAnswers(cfg: Config, s: State, i: nat, delivered: bool, sent: bool, answer: Option<Code>)
    requires i in s.links && LinkAt(cfg, s, i) && Answered(cfg, s.links[i], answer)
    requires ServerReply(cfg, s, i, s.links[i], delivered, sent).Some?
    ensures Answered(cfg, ServerReply(cfg, s, i, s.links[i], delivered, sent).value.links[i], answer)
  {
    Replies(cfg, s, i, delivered, sent);
  }

  lemma ServerStepAnswers(cfg: Config, s: State, a: Action, answer: Option<Code>)
    requires a.at in s.links && LinkAt(cfg, s, a.at) && Next(cfg, s, a).Some? && Answered(cfg, s.links[a.at], answer)
    requires ServerActs(a)
    ensures a.at in Next(cfg, s, a).value.links && Answered(cfg, Next(cfg, s, a).value.links[a.at], answer)
    ensures Next(cfg, s, a).value.links[a.at].ep == s.links[a.at].ep
  {
    if a.ServeReply? { ReplyAnswers(cfg, s, a.at, a.delivered, a.sent, answer); }
  }

  lemma ClientStepAnswers(cfg: Config, s: State, a: Action, answer: Option<Code>)
    requires a.at in s.links && Next(cfg, s, a).Some? && Answered(cfg, s.links[a.at], answer)
    requires !ServerActs(a) && !a.ServeStops?
    ensures a.at in Next(cfg, s, a).value.links && Answered(cfg, Next(cfg, s, a).value.links[a.at], answer)
    ensures Next(cfg, s, a).value.links[a.at].ep == s.links[a.at].ep
  {}

  lemma StoppedAnswers(cfg: Config, s: State, i: nat, answer: Option<Code>)
    requires i in s.links && Answered(cfg, s.links[i], answer)
    ensures Answered(cfg, StopServing(s).links[i], answer) && StopServing(s).links[i].ep == s.links[i].ep
  {}

  lemma StaysAnswered(cfg: Config, s: State, a: Action, i: nat, answer: Option<Code>)
    requires i in s.links && LinkAt(cfg, s, i) && Next(cfg, s, a).Some? && Answered(cfg, s.links[i], answer)
    ensures i in Next(cfg, s, a).value.links && Answered(cfg, Next(cfg, s, a).value.links[i], answer)
    ensures Next(cfg, s, a).value.links[i].ep == s.links[i].ep
  {
    if a.ServeStops? { StoppedAnswers(cfg, s, i, answer); }
    else if a.at != i { OthersLeaveLink(cfg, s, a, i); }
    else if ServerActs(a) { ServerStepAnswers(cfg, s, a, answer); }
    else { ClientStepAnswers(cfg, s, a, answer); }
  }

  lemma {:induction false} RunAnswers(cfg: Config, s: State, run: seq<Action>, s': State, i: nat, answer: Option<Code>)
    requires Inv(cfg, s) && Run(cfg, s, run, s') && i in s.links && Answered(cfg, s.links[i], answer)
    ensures Inv(cfg, s') && i in s'.links && Answered(cfg, s'.links[i], answer) && s'.links[i].ep == s.links[i].ep
    decreases run
  {
    if run != [] {
      assert LinkAt(cfg, s, i);
      StaysAnswered(cfg, s, run[0], i, answer);
      KeptByStep(cfg, s, run[0]);
      RunAnswers(cfg, Next(cfg, s, run[0]).value, run[1..], s', i, answer);
    }
  }

  lemma NowAnswered(cfg: Config, s: State, a: Action)
    requires a.ServeRequest? && Next(cfg, s, a).Some? && LinkAt(cfg, s, a.at)
    ensures a.at in Next(cfg, s, a).value.links
    ensures var l := Next(cfg, s, a).value.links[a.at];
      Answered(cfg, l, if l.server.Replying? then Some(l.server.code) else None)
  {
    Decides(cfg, s, a);
  }

  lemma HearsAnswer(cfg: Config, s: State, i: nat)
    requires i in s.links && s.links[i].client == AwaitResponse && s.links[i].down != []
    ensures Next(cfg, s, GetResponse(i)).Some?
    ensures var response, client := s.links[i].down[0], Next(cfg, s, GetResponse(i)).value.links[i].client;
      client == if response.code == Permitted && response.descriptor.Some? then Granted(response.descriptor.value)
                else Closed
  {}

  /** What the client hears is what the server found when it took the request, however much later
      and whatever happened in between: `operationEndpointLocked` exactly when every flag of the
      path was set, and so on for every code; and it goes on exactly with a permission, for the
      buffer of its own endpoint. */
  lemma ClientHearsDecision(cfg: Config, s: State, a: Action, run: seq<Action>, s': State)
    requires Reachable(cfg, s) && a.ServeRequest? && Next(cfg, s, a).Some?
    requires Run(cfg, Next(cfg, s, a).value, run, s')
    ensures a.at in s.links && a.at in s'.links && s'.links[a.at].ep == s.links[a.at].ep
    ensures var ep, flags, down := s.links[a.at].ep, s.flags, s'.links[a.at].down;
      down != [] ==>
        && |down| == 1 && a.connected
        && (down[0].code == NotFound <==> ep !in cfg.buffer)
        && (down[0].code == InternalError <==> ep in cfg.buffer && !a.exported)
        && (down[0].code == EndpointLocked <==> ep in cfg.buffer && a.exported && AllSet(flags, ep.path))
        && (down[0].code == ServiceError <==>
              && ep in cfg.buffer && a.exported && !AllSet(flags, ep.path) && ep.kind == Read && !a.handler.ok)
        && (down[0].code == Permitted <==>
              ep in cfg.buffer && a.exported && !AllSet(flags, ep.path) && (ep.kind == Read ==> a.handler.ok))
        && down[0].descriptor == if ep in cfg.buffer && a.exported then Some(cfg.buffer[ep]) else None
    ensures s'.links[a.at].client == AwaitResponse && s'.links[a.at].down != [] ==>
      && Next(cfg, s', GetResponse(a.at)).Some?
      && var client := Next(cfg, s', GetResponse(a.at)).value.links[a.at].client;
         if s'.links[a.at].down[0].code == Permitted then
           s.links[a.at].ep in cfg.buffer && client == Granted(cfg.buffer[s.links[a.at].ep])
         else client == Closed
  {
    ReachableInv(cfg, s);
    assert LinkAt(cfg, s, a.at);
    var next := Next(cfg, s, a).value;
    Decides(cfg, s, a);
    NowAnswered(cfg, s, a);
    KeptByStep(cfg, s, a);
    var server := next.links[a.at].server;
    RunAnswers(cfg, next, run, s', a.at, if server.Replying? then Some(server.code) else None);
    if s'.links[a.at].client == AwaitResponse && s'.links[a.at].down != [] { HearsAnswer(cfg, s', a.at); }
  }

  // ------------------------------------------------------------------- the acknowledge

  /** What a client decides to acknowledge, exactly. */
  lemma AcknowledgesExactly(cfg: Config, s: State, a: Action)
    requires Next(cfg, s, a).Some? && a.at in s.links && a.at in Next(cfg, s, a).value.links
    requires !s.links[a.at].client.Acking? && Next(cfg, s, a).value.links[a.at].client.Acking?
    ensures var l, code := s.links[a.at], Next(cfg, s, a).value.links[a.at].client.code;
      && (code == Canceled <==> a.Prepare? && l.ep.kind == Write && !a.handler.ok)
      && (code == Completed <==> a.OpDone? && l.op == Finished(true))
      && (code == Failed <==>
            || a.OpTimeout? || (a.OpDone? && l.op == Finished(false))
            || (a.Prepare? && (l.ep.kind == Write ==> a.handler.ok) && (l.ep.kind.Unknown? || !a.submitOk)))
      && (a.Prepare? ==> a.importOk)
  {}

  /** A delivered acknowledge carries the code the client decided on. */
  lemma AckTells(cfg: Config, s: State, a: Action)
    requires Inv(cfg, s) && a.SendAck? && Next(cfg, s, a).Some?
    ensures a.at in s.links && a.at in Next(cfg, s, a).value.links && s.links[a.at].client.Acking?
    ensures Next(cfg, s, a).value.links[a.at].up == if a.delivered then [Ack(s.links[a.at].client.code)] else []
    ensures Next(cfg, s, a).value.links[a.at].client ==
      if a.ok && s.links[a.at].ep.kind == Read && s.links[a.at].client.code == Completed then ReadHandling else Closed
  {
    assert LinkAt(cfg, s, a.at);
    var l := s.links[a.at];
    assert l.up == [];
    assert [] + [Ack(l.client.code)] == [Ack(l.client.code)];
  }

  /** The call acknowledges `code`, if it gets to it, and what is on its way says so. */
  ghost predicate Decided(l: Link, code: AckCode) {
    || (l.client == Acking(code) && l.up == [])
    || ((l.client == ReadHandling || l.client == Closed) && (l.up == [] || l.up == [Ack(code)]))
  }

  lemma StaysDecided(cfg: Config, s: State, a: Action, i: nat, code: AckCode)
    requires i in s.links && Next(cfg, s, a).Some? && Decided(s.links[i], code)
    ensures i in Next(cfg, s, a).value.links && Decided(Next(cfg, s, a).value.links[i], code)
  {
    if a.at != i && !a.ServeStops? { OthersLeaveLink(cfg, s, a, i); }
  }

  /** What the server receives is what the client decided on, however much later. */
  lemma {:induction false} ServerHearsAck(cfg: Config, s: State, run: seq<Action>, s': State, i: nat)
    requires Run(cfg, s, run, s') && i in s.links && s.links[i].client.Acking? && s.links[i].up == []
    ensures i in s'.links && (s'.links[i].up == [] || s'.links[i].up == [Ack(s.links[i].client.code)])
  {
    DecidedByRun(cfg, s, run, s', i, s.links[i].client.code);
  }

  lemma {:induction false} DecidedByRun(cfg: Config, s: State, run: seq<Action>, s': State, i: nat, code: AckCode)
    requires Run(cfg, s, run, s') && i in s.links && Decided(s.links[i], code)
    ensures i in s'.links && Decided(s'.links[i], code)
    decreases run
  {
    if run != [] {
      StaysDecided(cfg, s, run[0], i, code);
      DecidedByRun(cfg, Next(cfg, s, run[0]).value, run[1..], s', i, code);
    }
  }
}
