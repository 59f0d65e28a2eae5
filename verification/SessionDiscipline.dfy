/** The order in which a server session may lock, call handlers, answer and unlock, stated
    without reference to the coroutine, and the proof that the coroutine obeys it. */
module SessionDiscipline {
  import opened EndpointTypes
  import opened LockFlags
  import opened SessionSteps
  import opened ServerSession

  /** What became of the acknowledge a session waits for. */
  datatype Ack = Pending | Arrived | Missing

  /** `Holding` is a session inside its lock window: the result of its handler if that was
      called, the answer it gave, and its acknowledge. `Doomed` must return; `Over` has. */
  datatype Mode =
    | Idle
    | Asked(req: Endpoint)
    | Holding(req: Endpoint, handled: Option<bool>, told: Option<Code>, ack: Ack)
    | Doomed(held: Option<Path>)
    | Over(leaked: Option<Path>)
    | Broken

  predicate Refusal(code: Code) {
    code == NotFound || code == EndpointLocked || code == InternalError
  }

  /** Inside the window a session answers once. A read is permitted only when its handler has
      succeeded, and reported as a service error only when it has failed. */
  predicate MayTell(m: Mode, code: Code) {
    && m.Holding? && m.told == None
    && if m.req.kind == Read then m.handled == Some(code == Permitted) && (code == Permitted || code == ServiceError)
       else code == Permitted
  }

  /** An acknowledge is awaited after a permission and nothing else. */
  predicate AwaitsAck(m: Mode) {
    m.Holding? && m.told == Some(Permitted) && m.ack == Pending && !m.req.kind.Unknown?
  }

  /** A handler runs once, inside the window: for a read before the answer, for a write after
      the acknowledge. */
  predicate MayHandle(m: Mode, ep: Endpoint) {
    && m.Holding? && ep == m.req && m.handled == None
    && ((ep.kind == Read && m.told == None) || (ep.kind == Write && m.ack == Arrived))
  }

  /** The lock is released after a service error, or after a permission once the wait for the
      acknowledge is over and a write that was acknowledged has been handled. */
  predicate MayRelease(m: Mode) {
    && m.Holding?
    && (|| m.told == Some(ServiceError)
        || (&& m.told == Some(Permitted) && m.ack != Pending
            && (m.req.kind == Write && m.ack == Arrived ==> m.handled.Some?)))
  }

  /** The places at which a coroutine is suspended and can be destroyed. */
  predicate Suspended(m: Mode) {
    m == Idle || m.Asked? || MayTell(m, Permitted) || MayTell(m, ServiceError) || AwaitsAck(m)
  }

  function Held(m: Mode): Option<Path> {
    if m.Holding? then Some(m.req.path) else None
  }

  function Follow(m: Mode, e: Event): Mode {
    match e
    case Received(req) => if m == Idle then Asked(req) else Broken
    case Took(path) => if m.Asked? && path == m.req.path then Holding(m.req, None, None, Pending) else Broken
    case Handled(ep, ok) => if MayHandle(m, ep) then m.(handled := Some(ok)) else Broken
    case Sent(code) =>
      if m.Asked? && Refusal(code) then if code == InternalError then Doomed(None) else Idle
      else if MayTell(m, code) then m.(told := Some(code))
      else Broken
    case Lost(code) =>
      if m.Asked? && Refusal(code) then Doomed(None)
      else if MayTell(m, code) then Doomed(Some(m.req.path))
      else Broken
    case Acked(_) => if AwaitsAck(m) then m.(ack := Arrived) else Broken
    case AckLost => if AwaitsAck(m) then m.(ack := Missing) else Broken
    case Released(path) => if MayRelease(m) && path == m.req.path then Idle else Broken
    case Returned =>
      match m {
        case Asked(_) => Over(None)
        case Doomed(held) => Over(held)
        case Holding(req, _, told, _) =>
          if told == Some(Permitted) && req.kind.Unknown? then Over(Some(req.path)) else Broken
        case _ => Broken
      }
    case Destroyed => if Suspended(m) then Over(Held(m)) else Broken
  }

  /** Where a session is after a whole log of events, read from the first. */
  function Scan(m: Mode, log: seq<Event>): Mode
    decreases log
  {
    if log == [] then m else Scan(Follow(m, log[0]), log[1..])
  }

  lemma {:induction false} ScanJoined(m: Mode, a: seq<Event>, b: seq<Event>)
    ensures Scan(m, a + b) == Scan(Scan(m, a), b)
    decreases a
  {
    if a == [] {
      assert a + b == b;
    } else {
      assert (a + b)[1..] == a[1..] + b;
      ScanJoined(Follow(m, a[0]), a[1..], b);
    }
  }

  lemma ScanOne(m: Mode, e: Event)
    ensures Scan(m, [e]) == Follow(m, e)
  {
    assert [e][1..] == [];
  }

  lemma ScanPush(log: seq<Event>, e: Event)
    ensures Scan(Idle, log + [e]) == Follow(Scan(Idle, log), e)
  {
    ScanJoined(Idle, log, [e]);
    ScanOne(Scan(Idle, log), e);
  }

  function Settled(pc: ServerPc): Mode {
    if pc.Ended? then Over(pc.leaked) else Idle
  }

  /** The mode of a session that has sent its permission. */
  function Granted(req: Endpoint): Mode {
    Holding(req, if req.kind == Read then Some(true) else None, Some(Permitted), Pending)
  }

  lemma PermissionObeys(flags: Flags, r: Round, log: seq<Event>)
    requires Scan(Idle, log) == Granted(r.req) && !r.req.kind.Unknown?
    ensures var done := AfterPermission(flags, r, log);
      (done.pc == AwaitRequest || done.pc.Ended?) && Scan(Idle, done.log) == Settled(done.pc)
  {
    if r.cut == Some(AtAck) {
      ScanPush(log, Destroyed);
    } else if r.ack.None? {
      ScanPush(log, AckLost);
      ScanPush(log + [AckLost], Released(r.req.path));
    } else {
      var acked := log + [Acked(r.ack.value)];
      var handled := Handled(r.req, r.handlerOk);
      ScanPush(log, Acked(r.ack.value));
      ScanPush(acked, Released(r.req.path));
      ScanPush(acked, handled);
      ScanPush(acked + [handled], Released(r.req.path));
      assert log + [Acked(r.ack.value), handled] == acked + [handled];
    }
  }

  /** What a session may be about to answer. */
  predicate Prepared(m: Mode, pc: ServerPc) {
    && pc.Replying?
    && if Refusal(pc.code) then m == Asked(pc.req)
       else MayTell(m, pc.code) && m.req == pc.req && m.ack == Pending && (pc.req.kind != Read ==> m.handled == None)
  }

  lemma DecisionObeys(flags: Flags, r: Round, pc: ServerPc, log: seq<Event>)
    requires pc.Replying? && pc.req == r.req && Prepared(Scan(Idle, log), pc)
    ensures var done := AfterDecision(flags, r, pc, log);
      (done.pc == AwaitRequest || done.pc.Ended?) && Scan(Idle, done.log) == Settled(done.pc)
  {
    ScanPush(log, Destroyed);
    if r.cut != Some(AtReply) {
      var e := if r.sent then Sent(pc.code) else Lost(pc.code);
      var told := log + [e];
      ScanPush(log, e);
      ScanPush(told, Returned);
      ScanPush(told, Released(r.req.path));
      if AfterReply(r.req, pc.code, r.sent).AwaitAck? {
        PermissionObeys(Elsewhere(flags, HeldPath(pc), r.atReply), r, told);
      }
    }
  }

  /** A request's events up to its answer prepare exactly the answer that is about to come. */
  lemma OpeningObeys(req: Endpoint, won: bool, handlerOk: bool)
    ensures Scan(Idle, Opening(req, won, handlerOk)) ==
      if !won then Asked(req) else Holding(req, if req.kind == Read then Some(handlerOk) else None, None, Pending)
  {
    var asked := [Received(req)];
    ScanOne(Idle, Received(req));
    ScanPush(asked, Took(req.path));
    ScanPush(asked + [Took(req.path)], Handled(req, handlerOk));
    assert asked + [Took(req.path)] == Opening(req, true, handlerOk) || req.kind == Read;
    assert asked + [Took(req.path)] + [Handled(req, handlerOk)] == Opening(req, true, handlerOk) || req.kind != Read;
  }

  lemma RoundObeys(flags: Flags, r: Round)
    ensures var done := ServeOne(flags, r);
      (done.pc == AwaitRequest || done.pc.Ended?) && Scan(Idle, done.log) == Settled(done.pc)
  {
    if r.cut == Some(AtRequest) {
      ScanOne(Idle, Destroyed);
    } else if r.arrived {
      var seen := Elsewhere(flags, None, r.atRequest);
      var known := IdKnown(seen, r.req);
      var won := r.connected && known && r.exported && SomeFree(seen, r.req.path);
      var pc := AfterRequest(r.req, r.connected, known, r.exported, won, r.handlerOk);
      OpeningObeys(r.req, won, r.handlerOk);
      if pc.Ended? {
        ScanPush(Opening(r.req, won, r.handlerOk), Returned);
      } else {
        DecisionObeys(if won then SetPath(seen, r.req.path, true) else seen, r, pc, Opening(r.req, won, r.handlerOk));
      }
    }
  }

  /** Lock balance and handler discipline, for any requests, outcomes and other sessions: at
      every loop head the session holds no lock and owes no answer; a handler call happens at
      most once per request and inside the lock window, a read handler before the answer and a
      write handler after the acknowledge; a coroutine that returned kept exactly the lock its
      program counter says it leaked. */
  lemma {:induction false} SessionObeys(flags: Flags, rounds: seq<Round>)
    ensures var done := ServeAll(flags, rounds);
      (done.pc == AwaitRequest || done.pc.Ended?) && Scan(Idle, done.log) == Settled(done.pc)
    decreases rounds
  {
    if rounds != [] {
      RoundObeys(flags, rounds[0]);
      var one := ServeOne(flags, rounds[0]);
      if one.pc == AwaitRequest {
        SessionObeys(one.flags, rounds[1..]);
        ScanJoined(Idle, one.log, ServeAll(one.flags, rounds[1..]).log);
      }
    }
  }

  function Requests(log: seq<Event>): nat {
    if log == [] then 0 else (if log[0].Received? then 1 else 0) + Requests(log[1..])
  }

  function Answers(log: seq<Event>): nat {
    if log == [] then 0 else (if log[0].Sent? || log[0].Lost? then 1 else 0) + Answers(log[1..])
  }

  function HandlerCalls(log: seq<Event>): nat {
    if log == [] then 0 else (if log[0].Handled? then 1 else 0) + HandlerCalls(log[1..])
  }

  /** Answers and handler calls a session may still make for the request it has read. */
  function AnswerOwed(m: Mode): nat {
    if m.Asked? || (m.Holding? && m.told == None) then 1 else 0
  }

  function HandlerOwed(m: Mode): nat {
    if m.Asked? || (m.Holding? && m.handled == None) then 1 else 0
  }

  lemma {:induction false} OncePerRequest(m: Mode, log: seq<Event>)
    requires Scan(m, log) != Broken
    ensures Answers(log) + AnswerOwed(Scan(m, log)) <= Requests(log) + AnswerOwed(m)
    ensures HandlerCalls(log) + HandlerOwed(Scan(m, log)) <= Requests(log) + HandlerOwed(m)
    decreases log
  {
    if log != [] {
      if Follow(m, log[0]) == Broken { StaysBroken(log[1..]); }
      OncePerRequest(Follow(m, log[0]), log[1..]);
    }
  }

  lemma {:induction false} StaysBroken(log: seq<Event>)
    ensures Scan(Broken, log) == Broken
    decreases log
  {
    if log != [] { StaysBroken(log[1..]); }
  }

  lemma {:induction false} AnswersExact(m: Mode, log: seq<Event>)
    requires Scan(m, log) != Broken && !Scan(m, log).Over?
    ensures Answers(log) + AnswerOwed(Scan(m, log)) == Requests(log) + AnswerOwed(m)
    decreases log
  {
    if log != [] {
      if Follow(m, log[0]) == Broken { StaysBroken(log[1..]); }
      if Follow(m, log[0]).Over? && log[1..] != [] { StaysBroken(log[1..][1..]); }
      AnswersExact(Follow(m, log[0]), log[1..]);
    }
  }

  /** What this means for the session: one answer for every request read, except that a
      returning coroutine may owe the last one, and at most one handler call. */
  lemma OneAnswerOneHandler(flags: Flags, rounds: seq<Round>)
    ensures var done := ServeAll(flags, rounds);
      && Answers(done.log) <= Requests(done.log)
      && HandlerCalls(done.log) <= Requests(done.log)
      && (done.pc == AwaitRequest ==> Answers(done.log) == Requests(done.log))
  {
    SessionObeys(flags, rounds);
    var done := ServeAll(flags, rounds);
    OncePerRequest(Idle, done.log);
    if done.pc == AwaitRequest { AnswersExact(Idle, done.log); }
  }

  /** A turn loses the lock it took exactly when it is destroyed while it holds it, when its
      answer cannot be sent, or when it has granted a type outside the enumeration; every other
      way out of a turn releases it. */
  lemma LeaksExactly(flags: Flags, r: Round, path: Path)
    ensures var seen := Elsewhere(flags, None, r.atRequest);
      ServeOne(flags, r).pc == Ended(Some(path)) <==>
        && r.cut != Some(AtRequest) && r.arrived && r.req.path == path && r.connected && r.exported
        && IdKnown(seen, r.req) && SomeFree(seen, path)
        && (|| r.cut == Some(AtReply) || !r.sent || r.req.kind.Unknown?
            || (r.cut == Some(AtAck) && !(r.req.kind == Read && !r.handlerOk)))
  {}

  lemma RoundLeak(flags: Flags, r: Round, e: Endpoint)
    requires ServeOne(flags, r).pc == Ended(Some(e.path)) && e in flags
    ensures e in ServeOne(flags, r).flags && ServeOne(flags, r).flags[e]
  {}

  lemma RoundKeepsKeys(flags: Flags, r: Round)
    ensures ServeOne(flags, r).flags.Keys == flags.Keys
  {}

  /** A leak is real: a coroutine that ended with `Ended(Some(p))` leaves every flag of `p` set. */
  lemma {:induction false} LeakLeavesFlags(flags: Flags, rounds: seq<Round>, path: Path)
    requires ServeAll(flags, rounds).pc == Ended(Some(path))
    ensures forall e :: e in flags && e.path == path ==>
      e in ServeAll(flags, rounds).flags && ServeAll(flags, rounds).flags[e]
    decreases rounds
  {
    if rounds != [] {
      var one := ServeOne(flags, rounds[0]);
      RoundKeepsKeys(flags, rounds[0]);
      if one.pc == AwaitRequest {
        LeakLeavesFlags(one.flags, rounds[1..], path);
      } else {
        forall e | e in flags && e.path == path ensures e in one.flags && one.flags[e] {
          RoundLeak(flags, rounds[0], e);
        }
      }
    }
  }
}
