/** The client coroutine as straight code, proved against the segments the protocol's machine
    is made of, and the discipline its events obey. */
module ClientSession {
  import opened EndpointTypes
  import opened SessionSteps
  import opened EndpointStorage

  datatype Answer = Answer(code: Code, descriptor: Option<nat>)

  /** The outcome of every call the coroutine makes. `ready` is an active connection, `taken` a
      submission the executor accepted. */
  datatype Attempt = Attempt(
    answer: Option<Answer>,
    importOk: bool,
    handlerOk: bool,
    ready: bool,
    taken: bool,
    operationOk: bool,
    ackOk: bool)

  datatype Event = Asked | Service | Transferred(ok: bool) | Acknowledged(code: AckCode, ok: bool)

  datatype Outcome = Outcome(log: seq<Event>, ok: bool)

  function Then(log: seq<Event>, rest: Outcome): Outcome {
    Outcome(log + rest.log, rest.ok)
  }

  function Stage(pc: ClientPc): nat {
    match pc
    case Connected => 5
    case AwaitResponse => 5
    case Granted(_) => 4
    case Transferring => 3
    case Acking(_) => 2
    case ReadHandling => 1
    case Closed => 0
  }

  /** The rest of a call from `pc` on, segment by segment. */
  function Drive(kind: EndpointType, a: Attempt, pc: ClientPc): Outcome
    decreases Stage(pc)
  {
    match pc
    case Connected =>
      if a.answer.None? then Outcome([Asked], false)
      else Then([Asked], Drive(kind, a, AfterResponse(a.answer.value.code, a.answer.value.descriptor)))
    case Granted(_) =>
      Then(if a.importOk && kind == Write then [Service] else [],
           Drive(kind, a, AfterPrepare(kind, a.importOk, a.handlerOk, a.ready && a.taken)))
    case Transferring => Then([Transferred(a.operationOk)], Drive(kind, a, AfterOperation(a.operationOk)))
    case Acking(code) =>
      var next := AfterAck(kind, code, a.ackOk);
      if next.Closed? then Outcome([Acknowledged(code, a.ackOk)], code == Completed && a.ackOk)
      else Then([Acknowledged(code, a.ackOk)], Drive(kind, a, next))
    case ReadHandling => Outcome([Service], a.handlerOk)
    case AwaitResponse => Outcome([], false)
    case Closed => Outcome([], false)
  }

  // ------------------------------------------------------------------- the coroutine

  /** Submits one operation and waits for its promise. */
  method PerformRdmaOperation(kind: EndpointType, a: Attempt) returns (log: seq<Event>, ok: bool)
    ensures ok <==> !kind.Unknown? && a.ready && a.taken && a.operationOk
    ensures log == if !kind.Unknown? && a.ready && a.taken then [Transferred(a.operationOk)] else []
  {
    if !a.ready {
      return [], false;
    }
    if kind.Unknown? {
      return [], false;
    }
    if !a.taken {
      return [], false;
    }
    return [Transferred(a.operationOk)], a.operationOk;
  }

  /** From the imported descriptor on. */
  method UsePermission(kind: EndpointType, a: Attempt) returns (log: seq<Event>, ok: bool)
    requires a.importOk
    ensures forall remote :: Outcome(log, ok) == Drive(kind, a, Granted(remote))
  {
    log := [];
    if kind == Write {
      log := log + [Service];
      if !a.handlerOk {
        return log + [Acknowledged(Canceled, a.ackOk)], false;
      }
    }
    var moved, performed := PerformRdmaOperation(kind, a);
    log := log + moved;
    if !performed {
      return log + [Acknowledged(Failed, a.ackOk)], false;
    }
    log := log + [Acknowledged(Completed, a.ackOk)];
    if !a.ackOk {
      return log, false;
    }
    if kind == Read {
      return log + [Service], a.handlerOk;
    }
    return log, true;
  }

  /** `HandleClientSession`. */
  method HandleClientSession(kind: EndpointType, a: Attempt) returns (log: seq<Event>, ok: bool)
    ensures Outcome(log, ok) == Drive(kind, a, Connected)
  {
    log := [Asked];
    if a.answer.None? {
      return log, false;
    }
    if a.answer.value.code != Permitted {
      return log, false;
    }
    if a.answer.value.descriptor.None? || !a.importOk {
      return log, false;
    }
    var rest, done := UsePermission(kind, a);
    assert Outcome(rest, done) == Drive(kind, a, Granted(a.answer.value.descriptor.value));
    return log + rest, done;
  }

  // ------------------------------------------------------------------- the discipline

  predicate Granting(a: Attempt) {
    a.answer.Some? && a.answer.value.code == Permitted && a.answer.value.descriptor.Some? && a.importOk
  }

  /** The call succeeds exactly when nothing it did failed, and then its events are these. */
  lemma SucceedsExactly(kind: EndpointType, a: Attempt)
    ensures Drive(kind, a, Connected).ok <==>
      Granting(a) && !kind.Unknown? && a.handlerOk && a.ready && a.taken && a.operationOk && a.ackOk
    ensures Drive(kind, a, Connected).ok ==>
      Drive(kind, a, Connected).log ==
        if kind == Write then [Asked, Service, Transferred(true), Acknowledged(Completed, true)]
        else [Asked, Transferred(true), Acknowledged(Completed, true), Service]
  {
    if Granting(a) {
      DriveGranted(kind, a, a.answer.value.descriptor.value);
    }
  }

  /** Every way through the part of the call that holds a permission. */
  lemma DriveGranted(kind: EndpointType, a: Attempt, remote: nat)
    requires a.importOk
    ensures Drive(kind, a, Granted(remote)) ==
      if kind == Write && !a.handlerOk then Outcome([Service, Acknowledged(Canceled, a.ackOk)], false)
      else Then(if kind == Write then [Service] else [],
                if kind.Unknown? || !a.ready || !a.taken then Outcome([Acknowledged(Failed, a.ackOk)], false)
                else if !a.operationOk then Outcome([Transferred(false), Acknowledged(Failed, a.ackOk)], false)
                else if kind == Write || !a.ackOk then
                  Outcome([Transferred(true), Acknowledged(Completed, a.ackOk)], a.ackOk)
                else Outcome([Transferred(true), Acknowledged(Completed, true), Service], a.handlerOk))
  {}

  ghost predicate AtMostOneAck(log: seq<Event>) {
    forall i, j :: 0 <= i < j < |log| && log[i].Acknowledged? ==> !log[j].Acknowledged?
  }

  ghost predicate AtMostOneService(log: seq<Event>) {
    forall i, j :: 0 <= i < j < |log| && log[i].Service? ==> !log[j].Service?
  }

  /** The request comes first and only once. */
  ghost predicate OneRequest(log: seq<Event>) {
    log != [] && log[0] == Asked && Asked !in log[1..]
  }

  ghost predicate SomeAck(log: seq<Event>) {
    exists k :: 0 <= k < |log| && log[k].Acknowledged?
  }

  /** The acknowledge is `operationCompleted` exactly after a transfer that succeeded, and a
      read's service is called only after that acknowledge. */
  ghost predicate InOrder(kind: EndpointType, a: Attempt, log: seq<Event>) {
    && (Acknowledged(Completed, a.ackOk) in log <==> Transferred(true) in log)
    && (kind == Read && Service in log ==> Acknowledged(Completed, true) in log)
  }

  lemma GrantedOnce(kind: EndpointType, a: Attempt, remote: nat)
    requires a.importOk
    ensures AtMostOneAck(Drive(kind, a, Granted(remote)).log) && SomeAck(Drive(kind, a, Granted(remote)).log)
  {
    DriveGranted(kind, a, remote);
    var log := Drive(kind, a, Granted(remote)).log;
    if !log[|log| - 1].Acknowledged? {
      assert log[|log| - 2].Acknowledged?;
    }
  }

  lemma GrantedServes(kind: EndpointType, a: Attempt, remote: nat)
    requires a.importOk
    ensures AtMostOneService(Drive(kind, a, Granted(remote)).log) && Asked !in Drive(kind, a, Granted(remote)).log
  {
    DriveGranted(kind, a, remote);
  }

  lemma GrantedInOrder(kind: EndpointType, a: Attempt, remote: nat)
    requires a.importOk
    ensures InOrder(kind, a, Drive(kind, a, Granted(remote)).log)
  {
    DriveGranted(kind, a, remote);
  }

  lemma AskedFirst(kind: EndpointType, a: Attempt, log: seq<Event>)
    requires AtMostOneAck(log) && AtMostOneService(log) && InOrder(kind, a, log) && Asked !in log
    ensures AtMostOneAck([Asked] + log) && AtMostOneService([Asked] + log) && InOrder(kind, a, [Asked] + log)
    ensures OneRequest([Asked] + log)
    ensures SomeAck([Asked] + log) <==> SomeAck(log)
  {
    var asked := [Asked] + log;
    assert asked[1..] == log;
    assert forall k | 0 <= k < |log| :: log[k] == asked[k + 1];
  }

  /** One request comes first. Every permission that could be used is answered by exactly one
      acknowledge, and nothing else is; the user's service is called at most once. */
  lemma Discipline(kind: EndpointType, a: Attempt)
    ensures var log := Drive(kind, a, Connected).log;
      && OneRequest(log) && AtMostOneAck(log) && AtMostOneService(log) && InOrder(kind, a, log)
      && (SomeAck(log) <==> Granting(a))
  {
    if Granting(a) {
      var remote := a.answer.value.descriptor.value;
      GrantedOnce(kind, a, remote);
      GrantedServes(kind, a, remote);
      GrantedInOrder(kind, a, remote);
      AskedFirst(kind, a, Drive(kind, a, Granted(remote)).log);
    } else {
      AskedFirst(kind, a, []);
      assert [Asked] + [] == [Asked];
      assert Drive(kind, a, Connected).log == [Asked];
    }
  }

  // ------------------------------------------------------------------------ the caller

  /** `RequestEndpointProcessing`: one session and at most one request for each call, and none
      unless the endpoint is registered and the server was reached. */
  method RequestEndpointProcessing(hasExecutor: bool, storage: RdmaEndpointStorage?, id: EndpointId,
                                   connected: bool, a: Attempt)
    returns (log: seq<Event>, ok: bool)
    requires storage != null ==> storage.Valid()
    ensures hasExecutor && storage != null && id in storage.endpointsMap && connected ==>
      Outcome(log, ok) == Drive(storage.endpointsMap[id].endpoint.kind, a, Connected)
    ensures !(hasExecutor && storage != null && id in storage.endpointsMap && connected) ==> log == [] && !ok
    ensures log == [] || OneRequest(log)
  {
    if !hasExecutor {
      return [], false;
    }
    if storage == null || storage.endpointsMap == map[] {
      return [], false;
    }
    if id !in storage.endpointsMap {
      return [], false;
    }
    var endpoint := storage.endpointsMap[id].endpoint;
    if !connected {
      return [], false;
    }
    log, ok := HandleClientSession(endpoint.kind, a);
    Discipline(endpoint.kind, a);
  }
}
