/** No deadlock, and a bound on what a session can do in any run. The one thing that can go on
    for ever is the server's failed receive after its client has gone. */
module ProtocolProgress {
  import opened EndpointTypes
  import opened SessionSteps
  import opened Protocol
  import opened ProtocolInvariant
  import opened ProtocolProof
  import opened ProtocolTheorems

  /** Neither end has anything left to do that changes anything. */
  ghost predicate Settled(l: Link) {
    && l.client == Closed && !OpPending(l)
    && (l.server.Ended? || l.server.Misread? || (l.server == AwaitRequest && l.up == []))
  }

  ghost function Source(s: State, l: Link): Bytes
    requires OpPending(l) && l.op.remote in s.mem && l.cell in s.local
  {
    if l.ep.kind == Write then s.local[l.cell] else s.mem[l.op.remote]
  }

  ghost function Destination(s: State, l: Link): Bytes
    requires OpPending(l) && l.op.remote in s.mem && l.cell in s.local
  {
    if l.ep.kind == Write then s.mem[l.op.remote] else s.local[l.cell]
  }

  /** Steps that need no timer and no fault. An end of file is noticed only when the peer is
      gone, an operation fails only when its source does not fit, and no byte moves twice. */
  ghost predicate Faultless(s: State, a: Action)
    requires a.at in s.links
  {
    var l := s.links[a.at];
    match a
    case GiveUp(_) => l.client == AwaitResponse && l.server.Ended? && l.down == []
    case Prepare(_, importOk, handler, submitOk) => importOk && handler.ok && submitOk
    case OpTimeout(_) => false
    case OpMove(_, k) => l.op.Moving? && l.op.remote in s.mem && l.cell in s.local
      && k < |Source(s, l)| && k !in l.op.moved
    case OpFinish(_, ok) => ok || (OpPending(l) && l.op.remote in s.mem && l.cell in s.local
      && |Source(s, l)| > |Destination(s, l)|)
    case SendAck(_, delivered, ok) => delivered && ok
    case ServeReceiveError(_) => false
    case ServeRequest(_, connected, exported, handler) => connected && exported && handler.ok
    case ServeReply(_, delivered, sent) => delivered && sent
    case ServeAckLost(_) => l.client == Closed && l.up == []
    case ServeMisread(_) => a.at in s.cut
    case ServeStops(_) => false
    case _ => true
  }

  /** No buffer is opened or left by a handler with more than `size` bytes. */
  predicate Fixed(a: Action, size: nat) {
    match a
    case Open(_, _, _, init) => |init| <= size
    case Prepare(_, _, handler, _) => |handler.out| <= size
    case ReadHandle(_, handler) => |handler.out| <= size
    case ServeRequest(_, _, _, handler) => |handler.out| <= size
    case ServeAck(_, handler) => |handler.out| <= size
    case _ => true
  }

  lemma BuffersThere(cfg: Config, s: State, i: nat)
    requires Inv(cfg, s) && i in s.links && OpPending(s.links[i])
    ensures s.links[i].op.remote in s.mem && s.links[i].cell in s.local
  {
    assert LinkAt(cfg, s, i);
  }

  lemma OperationStep(cfg: Config, s: State, i: nat) returns (a: Action)
    requires Inv(cfg, s) && i in s.links && OpPending(s.links[i])
    ensures !a.Open? && a.at == i && Next(cfg, s, a).Some? && Faultless(s, a) && Fixed(a, 0) && Effective(s, a)
  {
    var l := s.links[i];
    BuffersThere(cfg, s, i);
    if l.op.Queued? { return OpStart(i); }
    if |Source(s, l)| > |Destination(s, l)| { return OpFinish(i, false); }
    if k: nat :| k < |Source(s, l)| && k !in l.op.moved { return OpMove(i, k); }
    assert forall k | 0 <= k < |Source(s, l)| :: k in l.op.moved;
    return OpFinish(i, true);
  }

  lemma ClientAsks(cfg: Config, s: State, i: nat) returns (a: Action)
    requires i in s.links && LinkOk(cfg, s.links[i], i in s.cut) && !s.links[i].server.Replying?
    requires s.links[i].up == [] || s.links[i].server.Ended? || s.links[i].server.Misread?
    requires s.links[i].client.Connected? || s.links[i].client.AwaitResponse? || s.links[i].client.Granted?
    ensures !a.Open? && a.at == i && Next(cfg, s, a).Some? && Faultless(s, a) && Fixed(a, 0) && Effective(s, a)
  {
    var l := s.links[i];
    if l.client.Connected? { return SendRequest(i); }
    if l.client.Granted? { return Prepare(i, true, Handler(true, []), true); }
    return if l.down != [] then GetResponse(i) else GiveUp(i);
  }

  lemma ClientEnds(cfg: Config, s: State, i: nat) returns (a: Action)
    requires i in s.links && LinkOk(cfg, s.links[i], i in s.cut) && !Settled(s.links[i])
    requires !OpPending(s.links[i]) && !s.links[i].server.Replying?
    requires s.links[i].up == [] || s.links[i].server.Ended? || s.links[i].server.Misread?
    requires !s.links[i].client.Connected? && !s.links[i].client.AwaitResponse? && !s.links[i].client.Granted?
    ensures !a.Open? && a.at == i && Next(cfg, s, a).Some? && Faultless(s, a) && Fixed(a, 0) && Effective(s, a)
  {
    var l := s.links[i];
    if l.client.Transferring? { return OpDone(i); }
    if l.client.Acking? { return SendAck(i, true, true); }
    if l.client.ReadHandling? { return ReadHandle(i, Handler(true, [])); }
    return ServeAckLost(i);
  }

  /** No deadlock: in every reachable state each unsettled link has a faultless step of its
      own, whatever the other links are doing. */
  lemma NeverStuck(cfg: Config, s: State, i: nat) returns (a: Action)
    requires Inv(cfg, s) && i in s.links && !Settled(s.links[i])
    ensures !a.Open? && a.at == i && Next(cfg, s, a).Some? && Faultless(s, a) && Fixed(a, 0) && Effective(s, a)
  {
    var l, h := s.links[i], Handler(true, []);
    assert LinkAt(cfg, s, i);
    if l.server.Replying? { return ServeReply(i, true, true); }
    if l.up != [] && l.server == AwaitRequest {
      return if l.up[0].Ack? then ServeMisread(i) else ServeRequest(i, true, true, h);
    }
    if l.up != [] && l.server.AwaitAck? { return ServeAck(i, h); }
    if OpPending(l) { a := OperationStep(cfg, s, i); return; }
    if l.client.Connected? || l.client.AwaitResponse? || l.client.Granted? { a := ClientAsks(cfg, s, i); }
    else { a := ClientEnds(cfg, s, i); }
  }

  // ------------------------------------------------------------- a bound on every run

  /** What a link can still do at most, with buffers of `size` bytes: control steps, messages
      in flight and bytes to move. */
  ghost function Work(l: Link, size: nat): nat {
    var client := match l.client
      case Connected => 60 case AwaitResponse => 50 case Granted(_) => 40 case Transferring => 30
      case Acking(_) => 20 case ReadHandling => 10 case Closed => 0;
    var op := match l.op
      case NoOp => size + 3 case Queued(_) => size + 2 case Finished(_) => 0
      case Moving(_, moved) => if |moved| <= size then size + 1 - |moved| else 0;
    var server := match l.server
      case Replying(_, _) => 4 case AwaitAck(_) => 2 case AwaitRequest => 1 case Ended(_) => 0 case Misread => 0;
    var up := if l.up == [] then 0 else if l.up[0].Request? then 6 else 3;
    client + op + server + up + |l.down|
  }

  ghost predicate MovedBelow(links: map<nat, Link>, i: nat, size: nat) {
    i in links && links[i].op.Moving? ==> forall k | k in links[i].op.moved :: k < size
  }

  /** No buffer has more than `size` bytes, and no operation has moved one beyond. */
  ghost predicate Sized(s: State, size: nat) {
    && (forall b | b in s.mem :: |s.mem[b]| <= size)
    && (forall c | c in s.local :: |s.local[c]| <= size)
    && (forall i: nat :: MovedBelow(s.links, i, size))
  }

  /** A step that does something: not a receive that fails, and no byte moved again. */
  ghost predicate Effective(s: State, a: Action) {
    && a.at in s.links && !a.Open? && !a.ServeReceiveError? && !a.ServeStops?
    && (a.OpMove? && s.links[a.at].op.Moving? ==> a.index !in s.links[a.at].op.moved)
  }

  lemma {:induction false} FewBelow(moved: set<nat>, size: nat)
    requires forall k | k in moved :: k < size
    ensures |moved| <= size
    decreases size
  {
    if size == 0 {
      assert moved == {};
    } else {
      FewBelow(moved - {size - 1}, size - 1);
    }
  }

  lemma FarStaysSized(cfg: Config, s: State, a: Action, size: nat)
    requires Sized(s, size) && Fixed(a, size) && Next(cfg, s, a).Some?
    ensures forall b | b in Next(cfg, s, a).value.mem :: |Next(cfg, s, a).value.mem[b]| <= size
  {
    if !a.OpMove? && !a.ServeRequest? && !a.ServeAck? { OthersWriteNothing(cfg, s, a); }
  }

  lemma NearStaysSized(cfg: Config, s: State, a: Action, size: nat)
    requires Sized(s, size) && Fixed(a, size) && Next(cfg, s, a).Some?
    ensures forall c | c in Next(cfg, s, a).value.local :: |Next(cfg, s, a).value.local[c]| <= size
  {}

  lemma MoveStaysSized(s: State, i: nat, k: nat, size: nat)
    requires Sized(s, size) && i in s.links && MoveByte(s, i, s.links[i], k).Some?
    ensures MovedBelow(MoveByte(s, i, s.links[i], k).value.links, i, size)
  {
    assert MovedBelow(s.links, i, size) && k < size;
  }

  lemma AllStaySized(cfg: Config, s: State, a: Action, size: nat, i: nat)
    requires Sized(s, size) && Next(cfg, s, a).Some? && (a.Open? || a.ServeStops?)
    ensures MovedBelow(Next(cfg, s, a).value.links, i, size)
  {
    assert MovedBelow(s.links, i, size);
  }

  lemma MovedStaysSized(cfg: Config, s: State, a: Action, size: nat, i: nat)
    requires Sized(s, size) && Next(cfg, s, a).Some?
    ensures MovedBelow(Next(cfg, s, a).value.links, i, size)
  {
    assert MovedBelow(s.links, i, size);
    if a.Open? || a.ServeStops? { AllStaySized(cfg, s, a, size, i); }
    else if i == a.at && a.OpMove? { MoveStaysSized(s, i, a.index, size); }
    else if i == a.at { NothingMoves(cfg, s, a); }
    else if i in s.links { OthersLeaveLink(cfg, s, a, i); }
  }

  lemma NothingMoves(cfg: Config, s: State, a: Action)
    requires a.at in s.links && !a.Open? && !a.ServeStops? && !a.OpMove? && Next(cfg, s, a).Some?
    ensures a.at in Next(cfg, s, a).value.links
    ensures Next(cfg, s, a).value.links[a.at].op.Moving? ==>
      Next(cfg, s, a).value.links[a.at].op.moved <= if s.links[a.at].op.Moving? then s.links[a.at].op.moved else {}
  {}

  lemma StaysSized(cfg: Config, s: State, a: Action, size: nat)
    requires Sized(s, size) && Fixed(a, size) && Next(cfg, s, a).Some?
    ensures Sized(Next(cfg, s, a).value, size)
  {
    FarStaysSized(cfg, s, a, size);
    NearStaysSized(cfg, s, a, size);
    forall i: nat { MovedStaysSized(cfg, s, a, size, i); }
  }

  lemma MoveWorks(cfg: Config, s: State, i: nat, k: nat, size: nat)
    requires Sized(s, size) && i in s.links && Effective(s, OpMove(i, k)) && MoveByte(s, i, s.links[i], k).Some?
    ensures Work(MoveByte(s, i, s.links[i], k).value.links[i], size) < Work(s.links[i], size)
  {
    var l := s.links[i];
    assert MovedBelow(s.links, i, size);
    FewBelow(l.op.moved + {k}, size);
  }

  lemma ClientWorks(cfg: Config, s: State, a: Action, size: nat)
    requires a.at in s.links && LinkOk(cfg, s.links[a.at], a.at in s.cut) && Sized(s, size)
    requires Effective(s, a) && Next(cfg, s, a).Some?
    requires a.SendRequest? || a.GiveUp? || a.GetResponse? || a.Prepare? || a.OpDone? || a.OpTimeout? || a.SendAck?
      || a.ReadHandle?
    ensures a.at in Next(cfg, s, a).value.links
    ensures Work(Next(cfg, s, a).value.links[a.at], size) < Work(s.links[a.at], size)
  {}

  lemma OperationWorks(cfg: Config, s: State, a: Action, size: nat)
    requires a.at in s.links && Sized(s, size)
    requires (a.OpStart? || a.OpFinish?) && Next(cfg, s, a).Some?
    ensures a.at in Next(cfg, s, a).value.links
    ensures Work(Next(cfg, s, a).value.links[a.at], size) < Work(s.links[a.at], size)
  {
    var l := s.links[a.at];
    assert MovedBelow(s.links, a.at, size);
    if l.op.Moving? { FewBelow(l.op.moved, size); }
  }

  lemma ServerWorks(cfg: Config, s: State, a: Action, size: nat)
    requires a.at in s.links && LinkOk(cfg, s.links[a.at], a.at in s.cut)
    requires ServerActs(a)
    requires Next(cfg, s, a).Some?
    ensures a.at in Next(cfg, s, a).value.links
    ensures Work(Next(cfg, s, a).value.links[a.at], size) < Work(s.links[a.at], size)
  {}

  /** Every effective step, faults and timers included, uses up some of its session's work. */
  lemma EffectiveWorks(cfg: Config, s: State, a: Action, size: nat)
    requires Inv(cfg, s) && Sized(s, size) && Effective(s, a) && Next(cfg, s, a).Some?
    ensures a.at in Next(cfg, s, a).value.links
    ensures Work(Next(cfg, s, a).value.links[a.at], size) < Work(s.links[a.at], size)
  {
    if a.OpMove? { MoveWorks(cfg, s, a.at, a.index, size); }
    else if a.OpStart? || a.OpFinish? { OperationWorks(cfg, s, a, size); }
    else if ServerActs(a) { ServerWorks(cfg, s, a, size); }
    else { ClientWorks(cfg, s, a, size); }
  }

  /** No other step gives a session more to do. */
  lemma OthersAddNoWork(cfg: Config, s: State, a: Action, i: nat, size: nat)
    requires Next(cfg, s, a).Some? && i in s.links && a.at != i
    ensures i in Next(cfg, s, a).value.links
    ensures Work(Next(cfg, s, a).value.links[i], size) <= Work(s.links[i], size)
  {
    if !a.ServeStops? { OthersLeaveLink(cfg, s, a, i); }
  }

  lemma IdleAddsNoWork(cfg: Config, s: State, a: Action, size: nat)
    requires Next(cfg, s, a).Some? && a.at in s.links && !Effective(s, a)
    ensures a.at in Next(cfg, s, a).value.links
    ensures Work(Next(cfg, s, a).value.links[a.at], size) <= Work(s.links[a.at], size)
  {
    if a.OpMove? {
      assert s.links[a.at].op.moved + {a.index} == s.links[a.at].op.moved;
    }
  }

  /** How many effective steps of link `i` a run contains. */
  ghost function EffectiveSteps(cfg: Config, s: State, run: seq<Action>, i: nat): nat
    decreases run
  {
    if run == [] || Next(cfg, s, run[0]).None? then 0
    else (if run[0].at == i && Effective(s, run[0]) then 1 else 0)
         + EffectiveSteps(cfg, Next(cfg, s, run[0]).value, run[1..], i)
  }

  lemma StepWorks(cfg: Config, s: State, a: Action, i: nat, size: nat)
    requires Inv(cfg, s) && Sized(s, size) && Fixed(a, size) && Next(cfg, s, a).Some? && i in s.links
    ensures Inv(cfg, Next(cfg, s, a).value) && Sized(Next(cfg, s, a).value, size) && i in Next(cfg, s, a).value.links
    ensures var spent := if a.at == i && Effective(s, a) then 1 else 0;
      Work(Next(cfg, s, a).value.links[i], size) + spent <= Work(s.links[i], size)
  {
    KeptByStep(cfg, s, a);
    StaysSized(cfg, s, a, size);
    if a.at != i { OthersAddNoWork(cfg, s, a, i, size); }
    else if Effective(s, a) { EffectiveWorks(cfg, s, a, size); }
    else { IdleAddsNoWork(cfg, s, a, size); }
  }

  lemma {:induction false} WorkBoundsSteps(cfg: Config, s: State, run: seq<Action>, s': State, i: nat, size: nat)
    requires Inv(cfg, s) && Sized(s, size) && Run(cfg, s, run, s') && i in s.links
    requires forall a | a in run :: Fixed(a, size)
    ensures i in s'.links && EffectiveSteps(cfg, s, run, i) + Work(s'.links[i], size) <= Work(s.links[i], size)
    decreases run
  {
    if run != [] {
      StepWorks(cfg, s, run[0], i, size);
      WorkBoundsSteps(cfg, Next(cfg, s, run[0]).value, run[1..], s', i, size);
    }
  }

  lemma FreshWork(cfg: Config, s: State, a: Action, i: nat, size: nat)
    requires Next(cfg, s, a).Some? && i !in s.links && i in Next(cfg, s, a).value.links
    ensures Work(Next(cfg, s, a).value.links[i], size) == size + 64
  {
    assert a.Open? && a.at == i;
  }

  lemma FirstStep(cfg: Config, s: State, a: Action, i: nat, size: nat)
    requires Inv(cfg, s) && Sized(s, size) && Fixed(a, size) && Next(cfg, s, a).Some? && i !in s.links
    ensures Inv(cfg, Next(cfg, s, a).value) && Sized(Next(cfg, s, a).value, size) && !(a.at == i && Effective(s, a))
    ensures i in Next(cfg, s, a).value.links ==> Work(Next(cfg, s, a).value.links[i], size) == size + 64
  {
    KeptByStep(cfg, s, a);
    StaysSized(cfg, s, a, size);
    if i in Next(cfg, s, a).value.links { FreshWork(cfg, s, a, i, size); }
  }

  /** No livelock: with buffers of `size` bytes no session takes more than `size + 64` effective
      steps in its life, in any run, whatever the other sessions, the timers and the faults do. */
  lemma {:induction false} SessionsAreFinite(cfg: Config, s: State, run: seq<Action>, s': State, i: nat, size: nat)
    requires Inv(cfg, s) && Sized(s, size) && Run(cfg, s, run, s') && i !in s.links
    requires forall a | a in run :: Fixed(a, size)
    ensures EffectiveSteps(cfg, s, run, i) <= size + 64
    decreases run
  {
    if run != [] {
      var t := Next(cfg, s, run[0]).value;
      FirstStep(cfg, s, run[0], i, size);
      if i in t.links {
        WorkBoundsSteps(cfg, t, run[1..], s', i, size);
      } else {
        SessionsAreFinite(cfg, t, run[1..], s', i, size);
      }
    }
  }

  lemma NothingElse(cfg: Config, s: State, a: Action)
    requires a.at in s.links && Settled(s.links[a.at]) && ServerOk(cfg, s.links[a.at], a.at in s.cut)
    requires !a.Open? && !a.ServeStops? && Next(cfg, s, a).Some?
    ensures a == ServeReceiveError(a.at) && s.links[a.at].server == AwaitRequest
  {}

  /** What is not bounded: nothing closes the server's socket, so once its client has gone and
      both ends are settled the coroutine repeats a receive that fails. It is the only step such
      a session still has, and it changes nothing. */
  lemma SettledRepeatsReceive(cfg: Config, s: State, i: nat, a: Action)
    requires Inv(cfg, s) && i in s.links && Settled(s.links[i])
    ensures s.links[i].server == AwaitRequest ==> Next(cfg, s, ServeReceiveError(i)) == Some(s)
    ensures a.at == i && !a.Open? && !a.ServeStops? && Next(cfg, s, a).Some? ==>
      a == ServeReceiveError(i) && s.links[i].server == AwaitRequest
  {
    if a.at == i && !a.Open? && !a.ServeStops? && Next(cfg, s, a).Some? {
      assert LinkAt(cfg, s, i);
      NothingElse(cfg, s, a);
    }
  }

  /** And it is there for ever: in every run in which `Serve` does not return, a settled session
      stays as it is, and its server can always repeat the receive. */
  lemma {:induction false} SettledForEver(cfg: Config, s: State, run: seq<Action>, s': State, i: nat)
    requires Inv(cfg, s) && Run(cfg, s, run, s') && i in s.links && Settled(s.links[i])
    requires s.links[i].server == AwaitRequest && forall a | a in run :: !a.ServeStops?
    ensures Inv(cfg, s') && i in s'.links && s'.links[i] == s.links[i]
    ensures Next(cfg, s', ServeReceiveError(i)) == Some(s')
    decreases run
  {
    if run != [] {
      KeptByStep(cfg, s, run[0]);
      if run[0].at == i { SettledRepeatsReceive(cfg, s, i, run[0]); } else { OthersLeaveLink(cfg, s, run[0], i); }
      SettledForEver(cfg, Next(cfg, s, run[0]).value, run[1..], s', i);
    }
  }

  /** A server coroutine comes to its end exactly when there is no RDMA connection for its
      request, when an answer cannot be sent, when it must report an internal error or grants an
      unknown type, and when `Serve` returns. The departure of its client is none of these. */
  lemma EndsExactly(cfg: Config, s: State, a: Action, i: nat)
    requires Next(cfg, s, a).Some? && i in s.links && !s.links[i].server.Ended?
    ensures i in Next(cfg, s, a).value.links
    ensures Next(cfg, s, a).value.links[i].server.Ended? <==>
      || a.ServeStops?
      || (a.at == i && a.ServeRequest? && !a.connected)
      || (a.at == i && a.ServeReply? &&
            (|| !a.sent || s.links[i].server.code == InternalError
             || (s.links[i].server.code == Permitted && s.links[i].server.req.kind.Unknown?)))
  {}

  // ---------------------------------------------------------------------- to the end

  /** The server coroutine has not returned and is not about to. */
  ghost predicate Serving(l: Link) {
    && !l.server.Ended? && !l.ep.kind.Unknown?
    && (l.server.Replying? ==> l.server.code != InternalError)
  }

  /** A faultless step never makes the server coroutine return. */
  lemma FaultlessKeepsServing(cfg: Config, s: State, a: Action)
    requires a.at in s.links && LinkOk(cfg, s.links[a.at], a.at in s.cut)
    requires !a.Open? && Next(cfg, s, a).Some? && Faultless(s, a) && Serving(s.links[a.at])
    ensures a.at in Next(cfg, s, a).value.links && Serving(Next(cfg, s, a).value.links[a.at])
  {}

  lemma {:induction false} SomeSize(buffers: map<nat, Bytes>) returns (size: nat)
    ensures forall b | b in buffers :: |buffers[b]| <= size
    decreases |buffers|
  {
    size := 0;
    if b :| b in buffers {
      var rest := buffers - {b};
      assert rest.Keys < buffers.Keys;
      size := SomeSize(rest);
      size := if |buffers[b]| > size then |buffers[b]| else size;
      assert forall c | c in buffers :: c == b || c in rest;
    }
  }

  lemma {:induction false} SomeReach(moved: set<nat>) returns (size: nat)
    ensures forall k | k in moved :: k < size
    decreases |moved|
  {
    size := 0;
    if k :| k in moved {
      var rest := moved - {k};
      size := SomeReach(rest);
      assert forall j | j in moved :: j == k || j in rest;
      size := if k >= size then k + 1 else size;
    }
  }

  lemma {:induction false} SomeProgress(links: map<nat, Link>) returns (size: nat)
    ensures forall i: nat :: MovedBelow(links, i, size)
    decreases |links|
  {
    size := 0;
    if i :| i in links {
      var rest := links - {i};
      assert rest.Keys < links.Keys;
      var below := SomeProgress(rest);
      size := below;
      if links[i].op.Moving? {
        var reach := SomeReach(links[i].op.moved);
        size := if reach > size then reach else size;
      }
      forall j: nat ensures MovedBelow(links, j, size) {
        assert MovedBelow(rest, j, below);
      }
    }
  }

  lemma EveryStateSized(s: State) returns (size: nat)
    ensures Sized(s, size)
  {
    var far := SomeSize(s.mem);
    var near := SomeSize(s.local);
    var moved := SomeProgress(s.links);
    size := far + near + moved;
    forall i: nat ensures MovedBelow(s.links, i, size) {
      assert MovedBelow(s.links, i, moved);
    }
  }

  lemma {:induction false} SettlesWithin(cfg: Config, s: State, i: nat, size: nat) returns (run: seq<Action>, s': State)
    requires Inv(cfg, s) && i in s.links && Sized(s, size)
    ensures Run(cfg, s, run, s') && (forall a | a in run :: a.at == i && !a.Open?)
    ensures i in s'.links && Settled(s'.links[i])
    ensures Serving(s.links[i]) ==> HeldPath(s'.links[i].server) == None
    decreases Work(s.links[i], size)
  {
    if Settled(s.links[i]) { return [], s; }
    var a := NeverStuck(cfg, s, i);
    StepWorks(cfg, s, a, i, size);
    if Serving(s.links[i]) { FaultlessKeepsServing(cfg, s, a); }
    var rest, end := SettlesWithin(cfg, Next(cfg, s, a).value, i, size);
    run, s' := [a] + rest, end;
    assert run[1..] == rest;
  }

  /** From every reachable state each session can be brought to its end by its own faultless
      steps, without a step of anyone else, and unless its coroutine has already failed it then
      holds no lock. */
  lemma SettlesAlone(cfg: Config, s: State, i: nat) returns (run: seq<Action>, s': State)
    requires Inv(cfg, s) && i in s.links
    ensures Run(cfg, s, run, s') && (forall a | a in run :: a.at == i && !a.Open?)
    ensures i in s'.links && Settled(s'.links[i])
    ensures Serving(s.links[i]) ==> HeldPath(s'.links[i].server) == None
  {
    var size := EveryStateSized(s);
    run, s' := SettlesWithin(cfg, s, i, size);
  }
}
