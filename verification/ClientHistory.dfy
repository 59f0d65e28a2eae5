/** The client side of every link, in every run of the protocol's machine, goes through its
    coroutine; so the discipline of a single call holds in every interleaving. */
module ClientHistory {
  import opened EndpointTypes
  import opened SessionSteps
  import opened ClientSession
  import P = Protocol

  /** The events of link `i`'s client in one step. A call that gives up before its request was
      sent has none. */
  function Events(s: P.State, a: P.Action, i: nat): seq<Event> {
    if a.at != i || i !in s.links then [] else
    var l := s.links[i];
    match a
    case SendRequest(_) => [Asked]
    case Prepare(_, importOk, _, _) => if importOk && l.ep.kind == Write then [Service] else []
    case OpDone(_) => if l.op.Finished? then [Transferred(l.op.ok)] else []
    case OpTimeout(_) => [Transferred(false)]
    case SendAck(_, _, ok) => if l.client.Acking? then [Acknowledged(l.client.code, ok)] else []
    case ReadHandle(_, _) => [Service]
    case _ => []
  }

  ghost function History(cfg: P.Config, s: P.State, run: seq<P.Action>, i: nat): seq<Event>
    decreases run
  {
    if run == [] || P.Next(cfg, s, run[0]).None? then []
    else Events(s, run[0], i) + History(cfg, P.Next(cfg, s, run[0]).value, run[1..], i)
  }

  /** What the call has still to do from `pc` on. */
  function Rest(kind: EndpointType, a: Attempt, pc: ClientPc): seq<Event> {
    if pc.AwaitResponse? then
      if a.answer.None? then [] else Drive(kind, a, AfterResponse(a.answer.value.code, a.answer.value.descriptor)).log
    else Drive(kind, a, pc).log
  }

  predicate ClientActs(a: P.Action) {
    || a.SendRequest? || a.GiveUp? || a.GetResponse? || a.Prepare? || a.OpDone? || a.OpTimeout?
    || a.SendAck? || a.ReadHandle?
  }

  lemma OthersAddNothing(cfg: P.Config, s: P.State, a: P.Action, i: nat)
    requires P.Next(cfg, s, a).Some? && i in s.links && !(a.at == i && ClientActs(a))
    ensures Events(s, a, i) == [] && i in P.Next(cfg, s, a).value.links
    ensures P.Next(cfg, s, a).value.links[i].client == s.links[i].client
    ensures P.Next(cfg, s, a).value.links[i].ep == s.links[i].ep
  {}

  /** Deciding the answer leaves what comes after it as it was, and so on below. */
  lemma LaterStages(kind: EndpointType, a: Attempt, b: Attempt, pc: ClientPc)
    requires Stage(pc) <= 4
    requires Stage(pc) == 4 ==> a.importOk == b.importOk && (a.ready && a.taken) == (b.ready && b.taken)
    requires Stage(pc) == 4 && kind == Write ==> a.handlerOk == b.handlerOk
    requires Stage(pc) >= 3 ==> a.operationOk == b.operationOk
    requires Stage(pc) >= 2 ==> a.ackOk == b.ackOk
    ensures Drive(kind, a, pc).log == Drive(kind, b, pc).log
    decreases Stage(pc)
  {}

  lemma AskingStep(cfg: P.Config, s: P.State, act: P.Action, later: Attempt) returns (a: Attempt)
    requires act.at in s.links && P.Next(cfg, s, act).Some?
    requires act.SendRequest? || act.GetResponse? || (act.GiveUp? && s.links[act.at].client != Connected)
    ensures var l, next := s.links[act.at], P.Next(cfg, s, act).value.links;
      && act.at in next && next[act.at].ep == l.ep
      && Rest(l.ep.kind, a, l.client) == Events(s, act, act.at) + Rest(l.ep.kind, later, next[act.at].client)
  {
    var l := s.links[act.at];
    a := later;
    if act.GetResponse? {
      a := later.(answer := Some(Answer(l.down[0].code, l.down[0].descriptor)));
      LaterStages(l.ep.kind, a, later, AfterResponse(l.down[0].code, l.down[0].descriptor));
    } else if act.GiveUp? {
      a := later.(answer := None);
    }
  }

  lemma PrepareStep(cfg: P.Config, s: P.State, act: P.Action, later: Attempt) returns (a: Attempt)
    requires act.at in s.links && P.Next(cfg, s, act).Some? && act.Prepare?
    ensures var l, next := s.links[act.at], P.Next(cfg, s, act).value.links;
      && act.at in next && next[act.at].ep == l.ep
      && Rest(l.ep.kind, a, l.client) == Events(s, act, act.at) + Rest(l.ep.kind, later, next[act.at].client)
  {
    var kind := s.links[act.at].ep.kind;
    a := later.(importOk := act.importOk, ready := act.submitOk, taken := true,
                handlerOk := if kind == Write then act.handler.ok else later.handlerOk);
    LaterStages(kind, a, later, AfterPrepare(kind, act.importOk, act.handler.ok, act.submitOk));
  }

  lemma EndingStep(cfg: P.Config, s: P.State, act: P.Action, later: Attempt) returns (a: Attempt)
    requires act.at in s.links && P.Next(cfg, s, act).Some?
    requires act.OpDone? || act.OpTimeout? || act.SendAck? || act.ReadHandle?
    ensures var l, next := s.links[act.at], P.Next(cfg, s, act).value.links;
      && act.at in next && next[act.at].ep == l.ep
      && Rest(l.ep.kind, a, l.client) == Events(s, act, act.at) + Rest(l.ep.kind, later, next[act.at].client)
  {
    var l := s.links[act.at];
    a := later;
    if act.OpDone? || act.OpTimeout? {
      var ok := act.OpDone? && l.op.ok;
      a := later.(operationOk := ok);
      LaterStages(l.ep.kind, a, later, AfterOperation(ok));
    } else if act.SendAck? {
      a := later.(ackOk := act.ok);
      LaterStages(l.ep.kind, a, later, AfterAck(l.ep.kind, l.client.code, act.ok));
    }
  }

  lemma CallStep(cfg: P.Config, s: P.State, act: P.Action, later: Attempt) returns (a: Attempt)
    requires act.at in s.links && P.Next(cfg, s, act).Some? && ClientActs(act)
    requires !(act.GiveUp? && s.links[act.at].client == Connected)
    ensures var l, next := s.links[act.at], P.Next(cfg, s, act).value.links;
      && act.at in next && next[act.at].ep == l.ep
      && Rest(l.ep.kind, a, l.client) == Events(s, act, act.at) + Rest(l.ep.kind, later, next[act.at].client)
  {
    if act.Prepare? { a := PrepareStep(cfg, s, act, later); }
    else if act.SendRequest? || act.GetResponse? || act.GiveUp? { a := AskingStep(cfg, s, act, later); }
    else { a := EndingStep(cfg, s, act, later); }
  }

  /** The events so far are the first of what the attempt has to do from `pc` on, and all of it
      once the call is closed. The one exception is a call that gives up before it has sent its
      request. */
  predicate Covers(kind: EndpointType, a: Attempt, pc: ClientPc, log: seq<Event>, closed: bool) {
    && log <= Rest(kind, a, pc)
    && (closed ==> log == Rest(kind, a, pc) || (pc == Connected && log == []))
  }

  lemma CoversOn(kind: EndpointType, a: Attempt, pc: ClientPc, later: Attempt, pc': ClientPc, first: seq<Event>,
                 log: seq<Event>, closed: bool)
    requires Covers(kind, later, pc', log, closed) && pc' != Connected
    requires Rest(kind, a, pc) == first + Rest(kind, later, pc')
    ensures Covers(kind, a, pc, first + log, closed)
  {}

  lemma NeverAgainConnected(cfg: P.Config, s: P.State, act: P.Action)
    requires act.at in s.links && P.Next(cfg, s, act).Some? && ClientActs(act)
    ensures act.at in P.Next(cfg, s, act).value.links && P.Next(cfg, s, act).value.links[act.at].client != Connected
    ensures act.GiveUp? ==> P.Next(cfg, s, act).value.links[act.at].client == Closed && Events(s, act, act.at) == []
    ensures P.Next(cfg, s, act).value.links[act.at].ep == s.links[act.at].ep
  {}

  lemma AnyStep(cfg: P.Config, s: P.State, act: P.Action, i: nat, later: Attempt, log: seq<Event>, closed: bool)
    returns (a: Attempt)
    requires i in s.links && P.Next(cfg, s, act).Some? && i in P.Next(cfg, s, act).value.links
    requires Covers(s.links[i].ep.kind, later, P.Next(cfg, s, act).value.links[i].client, log, closed)
    ensures Covers(s.links[i].ep.kind, a, s.links[i].client, Events(s, act, i) + log, closed)
  {
    a := later;
    if !(act.at == i && ClientActs(act)) {
      OthersAddNothing(cfg, s, act, i);
      assert [] + log == log;
    } else {
      NeverAgainConnected(cfg, s, act);
      var kind, pc, pc' := s.links[i].ep.kind, s.links[i].client, P.Next(cfg, s, act).value.links[i].client;
      if !act.GiveUp? || pc != Connected {
        a := CallStep(cfg, s, act, later);
        CoversOn(kind, a, pc, later, pc', Events(s, act, i), log, closed);
      }
    }
  }

  lemma EndpointStays(cfg: P.Config, s: P.State, act: P.Action, i: nat)
    requires i in s.links && P.Next(cfg, s, act).Some?
    ensures i in P.Next(cfg, s, act).value.links && P.Next(cfg, s, act).value.links[i].ep == s.links[i].ep
  {
    if act.at == i && ClientActs(act) {
      NeverAgainConnected(cfg, s, act);
    } else {
      OthersAddNothing(cfg, s, act, i);
    }
  }

  /** From wherever a call is, some attempt covers its events in any run. */
  lemma {:induction false} RestOfCall(cfg: P.Config, s: P.State, run: seq<P.Action>, s': P.State, i: nat)
    returns (a: Attempt)
    requires i in s.links && P.Run(cfg, s, run, s')
    ensures i in s'.links && s'.links[i].ep == s.links[i].ep
    ensures Covers(s.links[i].ep.kind, a, s.links[i].client, History(cfg, s, run, i), s'.links[i].client == Closed)
    decreases run
  {
    if run == [] {
      a := Attempt(None, false, false, false, false, false, false);
    } else {
      var next := P.Next(cfg, s, run[0]).value;
      EndpointStays(cfg, s, run[0], i);
      a := RestOfCall(cfg, next, run[1..], s', i);
      a := AnyStep(cfg, s, run[0], i, a, History(cfg, next, run[1..], i), s'.links[i].client == Closed);
    }
  }

  lemma JustOpened(cfg: P.Config, s: P.State, a: P.Action, i: nat)
    requires P.Next(cfg, s, a).Some? && i !in s.links
    ensures Events(s, a, i) == []
    ensures i in P.Next(cfg, s, a).value.links ==> P.Next(cfg, s, a).value.links[i].client == Connected
  {}

  /** In every run the client history of a call is empty or begins a history of its coroutine,
      and it is a whole one once the call is closed: whatever the servers, the other calls, the
      timers and the executor do in between. */
  lemma {:induction false} HistoryIsDrive(cfg: P.Config, s: P.State, run: seq<P.Action>, s': P.State, i: nat)
    returns (a: Attempt)
    requires P.Run(cfg, s, run, s') && i !in s.links && i in s'.links
    ensures var log, whole := History(cfg, s, run, i), Drive(s'.links[i].ep.kind, a, Connected).log;
      log <= whole && (s'.links[i].client == Closed ==> log == whole || log == [])
    decreases run
  {
    var next := P.Next(cfg, s, run[0]).value;
    JustOpened(cfg, s, run[0], i);
    if i in next.links {
      a := RestOfCall(cfg, next, run[1..], s', i);
    } else {
      a := HistoryIsDrive(cfg, next, run[1..], s', i);
    }
    assert History(cfg, s, run, i) == History(cfg, next, run[1..], i);
  }

  // ------------------------------------------------------------------ the discipline

  /** What an event comes right after: the request after nothing, a completed acknowledge after a
      transfer that succeeded, a canceled one after the user's service, a write's transfer after
      its service, and a read's service after the acknowledge of a completed transfer. */
  predicate Follows(kind: EndpointType, log: seq<Event>, k: nat)
    requires k < |log|
  {
    match log[k]
    case Asked => k == 0
    case Service => k > 0 && log[k - 1] == if kind == Read then Acknowledged(Completed, true) else Asked
    case Transferred(_) => k > 0 && log[k - 1] == if kind == Write then Service else Asked
    case Acknowledged(code, _) =>
      && k > 0
      && (code == Completed ==> log[k - 1] == Transferred(true))
      && (code == Canceled ==> log[k - 1] == Service && kind == Write)
  }

  /** One request, one acknowledge and one call of the user's service, and each in its place. */
  ghost predicate Orderly(kind: EndpointType, log: seq<Event>) {
    && (log == [] || OneRequest(log)) && AtMostOneAck(log) && AtMostOneService(log)
    && (forall k: nat | k < |log| :: Follows(kind, log, k))
  }

  lemma PrefixOrderly(kind: EndpointType, log: seq<Event>, whole: seq<Event>)
    requires Orderly(kind, whole) && log <= whole
    ensures Orderly(kind, log)
  {
    assert forall k | 0 <= k < |log| :: log[k] == whole[k];
    forall k: nat | k < |log| ensures Follows(kind, log, k) {
      assert Follows(kind, whole, k);
    }
    if log != [] { assert log[1..] <= whole[1..]; }
  }

  lemma WholeFollows(kind: EndpointType, a: Attempt, k: nat)
    requires k < |Drive(kind, a, Connected).log|
    ensures Follows(kind, Drive(kind, a, Connected).log, k)
  {
    if Granting(a) {
      DriveGranted(kind, a, a.answer.value.descriptor.value);
    }
  }

  lemma WholeOrderly(kind: EndpointType, a: Attempt)
    ensures Orderly(kind, Drive(kind, a, Connected).log)
  {
    Discipline(kind, a);
    forall k: nat | k < |Drive(kind, a, Connected).log| { WholeFollows(kind, a, k); }
  }

  /** So every call is orderly at every moment of every run. */
  lemma EveryCallObeys(cfg: P.Config, s: P.State, run: seq<P.Action>, s': P.State, i: nat)
    requires P.Run(cfg, s, run, s') && i !in s.links && i in s'.links
    ensures Orderly(s'.links[i].ep.kind, History(cfg, s, run, i))
  {
    var a := HistoryIsDrive(cfg, s, run, s', i);
    WholeOrderly(s'.links[i].ep.kind, a);
    PrefixOrderly(s'.links[i].ep.kind, History(cfg, s, run, i), Drive(s'.links[i].ep.kind, a, Connected).log);
  }
}
