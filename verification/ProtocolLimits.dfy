/** Runs that show why the theorems carry their conditions: each ends in a reachable state in
    which the theorem without its condition is false. */
module ProtocolLimits {
  import opened EndpointTypes
  import opened LockFlags
  import opened SessionSteps
  import opened Protocol

  lemma {:induction false} RunThen(cfg: Config, s0: State, run: seq<Action>, s: State, a: Action)
    requires Run(cfg, s0, run, s) && Next(cfg, s, a).Some?
    ensures Run(cfg, s0, run + [a], Next(cfg, s, a).value)
    decreases run
  {
    if run == [] {
      assert [a][1..] == [];
    } else {
      RunThen(cfg, Next(cfg, s0, run[0]).value, run[1..], s, a);
      assert (run + [a])[1..] == run[1..] + [a];
    }
  }

  lemma ReachNext(cfg: Config, s: State, a: Action, s': State)
    requires Reachable(cfg, s) && Next(cfg, s, a) == Some(s')
    ensures Reachable(cfg, s')
  {
    var s0, run :| Initial(cfg, s0) && Run(cfg, s0, run, s);
    RunThen(cfg, s0, run, s, a);
  }

  // -------------------------------------------------- the legs of a session, in any state

  function Fresh(ep: Endpoint, cell: nat): Link {
    Link(ep, cell, AwaitRequest, Connected, NoOp, [], [], [], [])
  }

  /** Link `i` is a new session whose path is free. */
  ghost predicate MayAsk(cfg: Config, s: State, i: nat) {
    && i in s.links && s.links[i] == Fresh(s.links[i].ep, s.links[i].cell)
    && !s.links[i].ep.kind.Unknown? && s.links[i].ep in cfg.buffer
    && s.flags.Keys == cfg.buffer.Keys && SomeFree(s.flags, s.links[i].ep.path)
  }

  function Asking(s: State, i: nat): State
    requires i in s.links
  {
    Put(s, i, s.links[i].(client := AwaitResponse, up := [Request(s.links[i].ep)]))
  }

  /** What winning the lock changes besides the link; a read handler leaves `out`. */
  ghost function Won(cfg: Config, s: State, i: nat, out: Bytes): State
    requires i in s.links && s.links[i].ep in cfg.buffer
  {
    var l := s.links[i];
    s.(flags := SetPath(s.flags, l.ep.path, true),
       mem := if l.ep.kind == Read then s.mem[cfg.buffer[l.ep] := out] else s.mem,
       dirty := if Unfinished(s.links, i, l.ep.path) then s.dirty + {i} else s.dirty)
  }

  function Served(l: Link, out: Bytes): Link {
    l.(client := AwaitResponse, served := if l.ep.kind == Read then out else l.served)
  }

  ghost function Winning(cfg: Config, s: State, i: nat, out: Bytes): State
    requires i in s.links && s.links[i].ep in cfg.buffer
  {
    Put(Won(cfg, s, i, out), i, Served(s.links[i], out).(server := Replying(s.links[i].ep, Permitted)))
  }

  ghost function Telling(cfg: Config, s: State, i: nat, out: Bytes): State
    requires i in s.links && s.links[i].ep in cfg.buffer
  {
    var ep := s.links[i].ep;
    var told := [Response(Permitted, Some(cfg.buffer[ep]))];
    Put(Won(cfg, s, i, out), i, Served(s.links[i], out).(server := AwaitAck(ep), down := told))
  }

  ghost function Granting(cfg: Config, s: State, i: nat, out: Bytes): State
    requires i in s.links && s.links[i].ep in cfg.buffer
  {
    var ep, rivals := s.links[i].ep, Rivals(s.links, i);
    Put(Won(cfg, s, i, out), i, Served(s.links[i], out).(server := AwaitAck(ep), client := Granted(cfg.buffer[ep]))).(
        shared := if rivals == {} then s.shared else s.shared + rivals + {i})
  }

  lemma AskStep(cfg: Config, s: State, i: nat)
    requires MayAsk(cfg, s, i)
    ensures Next(cfg, s, SendRequest(i)) == Some(Asking(s, i))
  {
    assert s.links[i].up + [Request(s.links[i].ep)] == [Request(s.links[i].ep)];
  }

  lemma WinStep(cfg: Config, s: State, i: nat, out: Bytes)
    requires MayAsk(cfg, s, i)
    ensures Next(cfg, Asking(s, i), ServeRequest(i, true, true, Handler(true, out))) == Some(Winning(cfg, s, i, out))
  {
    var asking := Asking(s, i);
    var l := asking.links[i];
    assert l.up[1..] == [];
    assert Unfinished(asking.links, i, l.ep.path) == Unfinished(s.links, i, l.ep.path) by {
      assert forall j | j in s.links && j != i :: asking.links[j] == s.links[j];
    }
    assert asking.links[i := Winning(cfg, s, i, out).links[i]] == Winning(cfg, s, i, out).links;
    assert AfterRequest(l.ep, true, true, true, true, true) == Replying(l.ep, Permitted);
  }

  lemma TellStep(cfg: Config, s: State, i: nat, out: Bytes)
    requires MayAsk(cfg, s, i)
    ensures Next(cfg, Winning(cfg, s, i, out), ServeReply(i, true, true)) == Some(Telling(cfg, s, i, out))
  {
    var l := Winning(cfg, s, i, out).links[i];
    assert l.down + [Reply(cfg, l.ep, Permitted)] == Telling(cfg, s, i, out).links[i].down;
    assert Winning(cfg, s, i, out).links[i := Telling(cfg, s, i, out).links[i]] == Telling(cfg, s, i, out).links;
  }

  lemma HearStep(cfg: Config, s: State, i: nat, out: Bytes)
    requires MayAsk(cfg, s, i)
    ensures Next(cfg, Telling(cfg, s, i, out), GetResponse(i)) == Some(Granting(cfg, s, i, out))
  {
    var telling := Telling(cfg, s, i, out);
    assert telling.links[i].down[1..] == [];
    assert Rivals(telling.links, i) == Rivals(s.links, i);
    assert telling.links[i := Granting(cfg, s, i, out).links[i]] == Granting(cfg, s, i, out).links;
  }

  lemma WinsLock(cfg: Config, s: State, i: nat, out: Bytes)
    requires Reachable(cfg, s) && MayAsk(cfg, s, i)
    ensures Reachable(cfg, Winning(cfg, s, i, out))
  {
    AskStep(cfg, s, i);
    ReachNext(cfg, s, SendRequest(i), Asking(s, i));
    WinStep(cfg, s, i, out);
    ReachNext(cfg, Asking(s, i), ServeRequest(i, true, true, Handler(true, out)), Winning(cfg, s, i, out));
  }

  /** A new session on a free path gets the permission if nobody else moves. */
  lemma GetsPermission(cfg: Config, s: State, i: nat, out: Bytes)
    requires Reachable(cfg, s) && MayAsk(cfg, s, i)
    ensures Reachable(cfg, Granting(cfg, s, i, out))
  {
    WinsLock(cfg, s, i, out);
    TellStep(cfg, s, i, out);
    ReachNext(cfg, Winning(cfg, s, i, out), ServeReply(i, true, true), Telling(cfg, s, i, out));
    HearStep(cfg, s, i, out);
    ReachNext(cfg, Telling(cfg, s, i, out), GetResponse(i), Granting(cfg, s, i, out));
  }

  /** Link `i` has its permission and a buffer of its own. */
  predicate MayPrepare(s: State, i: nat) {
    i in s.links && s.links[i].client.Granted? && !s.links[i].ep.kind.Unknown? && s.links[i].cell in s.local
  }

  /** The operation of link `i` is submitted, after a write handler has left `out`. */
  function Submitted(s: State, i: nat, out: Bytes, op: Operation): State
    requires MayPrepare(s, i)
  {
    var l, writes := s.links[i], s.links[i].ep.kind == Write;
    Put(s, i, l.(client := Transferring, op := op, left := if writes then out else l.left)).(
        local := if writes then s.local[l.cell := out] else s.local)
  }

  function Queueing(s: State, i: nat, out: Bytes): State
    requires MayPrepare(s, i)
  {
    Submitted(s, i, out, Queued(s.links[i].client.remote))
  }

  function Starting(s: State, i: nat, out: Bytes): State
    requires MayPrepare(s, i)
  {
    Submitted(s, i, out, Moving(s.links[i].client.remote, {}))
  }

  lemma PrepareStep(cfg: Config, s: State, i: nat, out: Bytes)
    requires MayPrepare(s, i)
    ensures Next(cfg, s, Prepare(i, true, Handler(true, out), true)) == Some(Queueing(s, i, out))
  {}

  lemma StartStep(cfg: Config, s: State, i: nat, out: Bytes)
    requires MayPrepare(s, i)
    ensures Next(cfg, Queueing(s, i, out), OpStart(i)) == Some(Starting(s, i, out))
  {
    assert Queueing(s, i, out).links[i := Starting(s, i, out).links[i]] == Starting(s, i, out).links;
  }

  lemma Queues(cfg: Config, s: State, i: nat, out: Bytes)
    requires Reachable(cfg, s) && MayPrepare(s, i)
    ensures Reachable(cfg, Queueing(s, i, out))
  {
    PrepareStep(cfg, s, i, out);
    ReachNext(cfg, s, Prepare(i, true, Handler(true, out), true), Queueing(s, i, out));
  }

  lemma Starts(cfg: Config, s: State, i: nat, out: Bytes)
    requires Reachable(cfg, s) && MayPrepare(s, i)
    ensures Reachable(cfg, Starting(s, i, out))
  {
    Queues(cfg, s, i, out);
    StartStep(cfg, s, i, out);
    ReachNext(cfg, Queueing(s, i, out), OpStart(i), Starting(s, i, out));
  }

  /** Link `i` is about to move the one byte `from` over the one byte `to`. */
  predicate MayMove(s: State, i: nat, from: byte, to: byte) {
    && i in s.links && s.links[i].client == Transferring && s.links[i].up == [] && !s.links[i].ep.kind.Unknown?
    && s.links[i].op.Moving? && s.links[i].op.moved == {} && s.links[i].op.remote in s.mem && s.links[i].cell in s.local
    && var far, near := s.mem[s.links[i].op.remote], s.local[s.links[i].cell];
      if s.links[i].ep.kind == Write then near == [from] && far == [to] else far == [from] && near == [to]
  }

  /** The byte has arrived, and the link is now `l`. */
  function Arrived(s: State, i: nat, from: byte, l: Link): State
    requires i in s.links && s.links[i].op.Moving?
  {
    var was := s.links[i];
    if was.ep.kind == Write then Put(s, i, l).(mem := s.mem[was.op.remote := [from]])
    else Put(s, i, l).(local := s.local[was.cell := [from]])
  }

  function Moved(s: State, i: nat, from: byte): State
    requires i in s.links && s.links[i].op.Moving?
  {
    Arrived(s, i, from, s.links[i].(op := Moving(s.links[i].op.remote, {0})))
  }

  function Done(s: State, i: nat, from: byte, client: ClientPc, up: seq<UpMessage>): State
    requires i in s.links && s.links[i].op.Moving?
  {
    Arrived(s, i, from, s.links[i].(op := Finished(true), client := client, up := up))
  }

  function Acked(s: State, i: nat, from: byte): State
    requires i in s.links && s.links[i].op.Moving?
  {
    Done(s, i, from, if s.links[i].ep.kind == Read then ReadHandling else Closed, [Ack(Completed)])
  }

  lemma MoveStep(cfg: Config, s: State, i: nat, from: byte, to: byte)
    requires MayMove(s, i, from, to)
    ensures Next(cfg, s, OpMove(i, 0)) == Some(Moved(s, i, from))
  {
    assert [to][0 := from] == [from];
    assert s.links[i].op.moved + {0} == {0};
  }

  lemma FinishStep(cfg: Config, s: State, i: nat, from: byte, to: byte)
    requires MayMove(s, i, from, to)
    ensures Next(cfg, Moved(s, i, from), OpFinish(i, true)) == Some(Done(s, i, from, Transferring, []))
  {
    var done := Done(s, i, from, Transferring, []);
    assert Moved(s, i, from).links[i := done.links[i]] == done.links;
  }

  lemma DoneStep(cfg: Config, s: State, i: nat, from: byte, to: byte)
    requires MayMove(s, i, from, to)
    ensures Next(cfg, Done(s, i, from, Transferring, []), OpDone(i)) == Some(Done(s, i, from, Acking(Completed), []))
  {
    var done := Done(s, i, from, Acking(Completed), []);
    assert Done(s, i, from, Transferring, []).links[i := done.links[i]] == done.links;
  }

  lemma AckStep(cfg: Config, s: State, i: nat, from: byte, to: byte)
    requires MayMove(s, i, from, to)
    ensures Next(cfg, Done(s, i, from, Acking(Completed), []), SendAck(i, true, true)) == Some(Acked(s, i, from))
  {
    assert [] + [Ack(Completed)] == [Ack(Completed)];
    assert Done(s, i, from, Acking(Completed), []).links[i := Acked(s, i, from).links[i]] == Acked(s, i, from).links;
  }

  /** An operation with one byte to move completes and is acknowledged. */
  lemma Completes(cfg: Config, s: State, i: nat, from: byte, to: byte)
    requires Reachable(cfg, s) && MayMove(s, i, from, to)
    ensures Reachable(cfg, Acked(s, i, from))
  {
    MoveStep(cfg, s, i, from, to);
    ReachNext(cfg, s, OpMove(i, 0), Moved(s, i, from));
    FinishStep(cfg, s, i, from, to);
    ReachNext(cfg, Moved(s, i, from), OpFinish(i, true), Done(s, i, from, Transferring, []));
    DoneStep(cfg, s, i, from, to);
    ReachNext(cfg, Done(s, i, from, Transferring, []), OpDone(i), Done(s, i, from, Acking(Completed), []));
    AckStep(cfg, s, i, from, to);
    ReachNext(cfg, Done(s, i, from, Acking(Completed), []), SendAck(i, true, true), Acked(s, i, from));
  }

  // ----------------------------------------------------------------------- the settings

  /** A path with a write and a read endpoint, which share a buffer of one byte, and a second
      path with a write endpoint. */
  datatype Setting = Setting(e: Endpoint, r: Endpoint, f: Endpoint, far: byte, near: byte, other: byte)

  predicate Usable(w: Setting) {
    && w.e.kind == Write && w.r.kind == Read && w.f.kind == Write
    && w.e.path == w.r.path && w.e.path != w.f.path
    && w.far != w.near && w.near != w.other
  }

  function Server(w: Setting): Config {
    Config(map[w.e := 0, w.r := 0, w.f := 1])
  }

  /** The flags of the two paths. */
  function Paths(w: Setting, e: bool, f: bool): Flags {
    map[w.e := e, w.r := e, w.f := f]
  }

  lemma PathsFree(w: Setting, e: bool, f: bool)
    requires Usable(w)
    ensures SomeFree(Paths(w, e, f), w.e.path) <==> !e
    ensures SomeFree(Paths(w, e, f), w.f.path) <==> !f
  {
    assert Paths(w, e, f)[w.e] == e && Paths(w, e, f)[w.f] == f;
  }

  lemma PathsSet(w: Setting, e: bool, f: bool, value: bool)
    requires Usable(w)
    ensures SetPath(Paths(w, e, f), w.e.path, value) == Paths(w, value, f)
    ensures SetPath(Paths(w, e, f), w.f.path, value) == Paths(w, e, value)
    ensures SomeFree(Paths(w, e, f), w.e.path) <==> !e
    ensures SomeFree(Paths(w, e, f), w.f.path) <==> !f
  {
    PathsFree(w, e, f);
  }

  /** A state without marks; the first path's buffer holds `zero`. */
  function Scene(w: Setting, e: bool, f: bool, zero: byte, local: map<nat, Bytes>, links: map<nat, Link>): State {
    State(Paths(w, e, f), map[0 := [zero], 1 := [w.far]], local, links, {}, {}, {})
  }

  function One(near: byte): map<nat, Bytes> {
    map[0 := [near]]
  }

  function Two(near: byte, other: byte): map<nat, Bytes> {
    map[0 := [near], 1 := [other]]
  }

  lemma Begins(w: Setting)
    requires Usable(w)
    ensures Reachable(Server(w), Scene(w, false, false, w.far, map[], map[]))
  {
    assert Run(Server(w), Scene(w, false, false, w.far, map[], map[]), [], Scene(w, false, false, w.far, map[], map[]));
  }

  /** A first call, for an endpoint of the first path. */
  function Joined(w: Setting, ep: Endpoint): State {
    Scene(w, false, false, w.far, One(w.near), map[0 := Fresh(ep, 0)])
  }

  lemma Joins(w: Setting, ep: Endpoint)
    requires Usable(w)
    ensures Reachable(Server(w), Joined(w, ep))
  {
    Begins(w);
    var s := Scene(w, false, false, w.far, map[], map[]);
    assert Next(Server(w), s, Open(0, ep, 0, [w.near])) == Some(Joined(w, ep));
    ReachNext(Server(w), s, Open(0, ep, 0, [w.near]), Joined(w, ep));
  }

  // --------------------------------------------------------------- the acknowledge code

  /** The first path is locked by the one call there is. */
  function Alone(w: Setting, l: Link): State {
    Scene(w, true, false, w.far, One(w.near), map[0 := l])
  }

  function Holder(w: Setting): Link {
    Fresh(w.e, 0).(server := AwaitAck(w.e), client := Granted(0))
  }

  lemma GrantedAlone(w: Setting)
    requires Usable(w)
    ensures MayAsk(Server(w), Joined(w, w.e), 0) && Granting(Server(w), Joined(w, w.e), 0, []) == Alone(w, Holder(w))
  {
    PathsSet(w, false, false, true);
    assert Rivals(Joined(w, w.e).links, 0) == {};
    assert Joined(w, w.e).links[0 := Holder(w)] == map[0 := Holder(w)];
  }

  /** One write session on the first path has its permission. */
  lemma HoldsPermission(w: Setting)
    requires Usable(w)
    ensures Reachable(Server(w), Alone(w, Holder(w)))
  {
    Joins(w, w.e);
    GrantedAlone(w);
    GetsPermission(Server(w), Joined(w, w.e), 0, []);
  }

  function Refused(w: Setting, client: ClientPc, up: seq<UpMessage>): Link {
    Holder(w).(left := [w.near], client := client, up := up)
  }

  lemma RefusedStep(w: Setting)
    requires Usable(w)
    ensures Next(Server(w), Alone(w, Holder(w)), Prepare(0, true, Handler(true, [w.near]), false)) ==
      Some(Alone(w, Refused(w, Acking(Failed), [])))
  {
    var s := Alone(w, Holder(w));
    assert s.links[0 := Refused(w, Acking(Failed), [])] == map[0 := Refused(w, Acking(Failed), [])];
    assert s.local[0 := [w.near]] == s.local;
  }

  lemma FailedStep(w: Setting)
    requires Usable(w)
    ensures Next(Server(w), Alone(w, Refused(w, Acking(Failed), [])), SendAck(0, true, true)) ==
      Some(Alone(w, Refused(w, Closed, [Ack(Failed)])))
  {
    assert [] + [Ack(Failed)] == [Ack(Failed)];
    var failed := Refused(w, Closed, [Ack(Failed)]);
    assert Alone(w, Refused(w, Acking(Failed), [])).links[0 := failed] == map[0 := failed];
  }

  lemma HandlerEnabled(w: Setting, h: Handler)
    requires Usable(w)
    ensures var s := Alone(w, Refused(w, Closed, [Ack(Failed)]));
      && s.links.Keys == {0} && s.links[0].up == [Ack(Failed)] && s.links[0].left == [w.near]
      && ServerAck(Server(w), s, 0, s.links[0], h).Some?
      && ServerAck(Server(w), s, 0, s.links[0], h).value.mem == s.mem[0 := h.out]
  {}

  lemma ReachesFailed(w: Setting)
    requires Usable(w)
    ensures Reachable(Server(w), Alone(w, Refused(w, Closed, [Ack(Failed)])))
  {
    HoldsPermission(w);
    RefusedStep(w);
    var refused := Alone(w, Refused(w, Acking(Failed), []));
    ReachNext(Server(w), Alone(w, Holder(w)), Prepare(0, true, Handler(true, [w.near]), false), refused);
    FailedStep(w);
    ReachNext(Server(w), refused, SendAck(0, true, true), Alone(w, Refused(w, Closed, [Ack(Failed)])));
  }

  /** The acknowledge code is not looked at: with no timer anywhere, a write handler can be
      called after a transfer that failed, on a buffer the client's bytes never reached. */
  lemma FailedAckReachesHandler(w: Setting, h: Handler) returns (s: State)
    requires Usable(w)
    ensures Reachable(Server(w), s) && s.links.Keys == {0} && s.links[0].up == [Ack(Failed)]
    ensures s.cut == {} && s.dirty == {} && s.shared == {} && s.links[0].left == [w.near]
    ensures 0 in s.mem && s.mem[0] == [w.far]
    ensures ServerAck(Server(w), s, 0, s.links[0], h).Some?
    ensures ServerAck(Server(w), s, 0, s.links[0], h).value.mem == s.mem[0 := h.out]
  {
    s := Alone(w, Refused(w, Closed, [Ack(Failed)]));
    ReachesFailed(w);
    HandlerEnabled(w, h);
  }

  // ------------------------------------------------------------------------- the timers

  function Writing(w: Setting): Link {
    Holder(w).(left := [w.near], client := Transferring, op := Moving(0, {}))
  }

  lemma StartedAlone(w: Setting)
    requires Usable(w)
    ensures Starting(Alone(w, Holder(w)), 0, [w.near]) == Alone(w, Writing(w))
  {
    assert Alone(w, Holder(w)).links[0 := Writing(w)] == map[0 := Writing(w)];
    assert One(w.near)[0 := [w.near]] == One(w.near);
  }

  /** The acknowledge timer fired while the first session's operation was moving bytes. */
  function Late(w: Setting): Link {
    Writing(w).(server := AwaitRequest)
  }

  function Cut(w: Setting): State {
    Scene(w, false, false, w.far, One(w.near), map[0 := Late(w)]).(cut := {0})
  }

  lemma CutStep(w: Setting)
    requires Usable(w)
    ensures Next(Server(w), Alone(w, Writing(w)), ServeAckLost(0)) == Some(Cut(w))
  {
    PathsSet(w, true, false, false);
    assert Alone(w, Writing(w)).cut + {0} == {0};
    assert Alone(w, Writing(w)).links[0 := Late(w)] == map[0 := Late(w)];
  }

  lemma TimedOut(w: Setting)
    requires Usable(w)
    ensures Reachable(Server(w), Cut(w))
  {
    HoldsPermission(w);
    Starts(Server(w), Alone(w, Holder(w)), 0, [w.near]);
    StartedAlone(w);
    CutStep(w);
    ReachNext(Server(w), Alone(w, Writing(w)), ServeAckLost(0), Cut(w));
  }

  lemma StillMoving(w: Setting)
    requires Usable(w)
    ensures MoveByte(Cut(w), 0, Late(w), 0).Some?
    ensures MoveByte(Cut(w), 0, Late(w), 0).value.mem == Cut(w).mem[0 := [w.near]]
    ensures SomeFree(Cut(w).flags, w.e.path) && Cut(w).links.Keys == {0}
  {
    PathsSet(w, false, false, false);
    assert [w.far][0 := w.near] == [w.near];
  }

  /** A server timeout cuts the window: the path is free while the operation is still moving
      bytes into its buffer. */
  lemma TimerCutsWindow(w: Setting) returns (s: State)
    requires Usable(w)
    ensures Reachable(Server(w), s) && s.links.Keys == {0} && s.links[0].op.Moving?
    ensures SomeFree(s.flags, w.e.path) && s.cut == {0}
    ensures 0 in s.mem && s.mem[0] == [w.far]
    ensures MoveByte(s, 0, s.links[0], 0).Some? && MoveByte(s, 0, s.links[0], 0).value.mem == s.mem[0 := [w.near]]
  {
    TimedOut(w);
    s := Cut(w);
    StillMoving(w);
  }

  /** A second session next to the abandoned operation; it is dirty once it has the lock. */
  function CutTwo(w: Setting, locked: bool, l: Link): State {
    Scene(w, locked, false, w.far, Two(w.near, w.other), map[0 := Late(w), 1 := l]).(
          cut := {0}, dirty := if locked then {1} else {})
  }

  function Second(w: Setting, pc: ClientPc, left: Bytes, op: Operation): Link {
    Fresh(w.e, 1).(server := AwaitAck(w.e), client := pc, left := left, op := op)
  }

  function SecondMoving(w: Setting): Link {
    Second(w, Transferring, [w.other], Moving(0, {}))
  }

  lemma SecondJoins(w: Setting)
    requires Usable(w)
    ensures Next(Server(w), Cut(w), Open(1, w.e, 1, [w.other])) == Some(CutTwo(w, false, Fresh(w.e, 1)))
    ensures MayAsk(Server(w), CutTwo(w, false, Fresh(w.e, 1)), 1)
  {
    PathsSet(w, false, false, true);
    assert Cut(w).links[1 := Fresh(w.e, 1)] == map[0 := Late(w), 1 := Fresh(w.e, 1)];
    assert Cut(w).local[1 := [w.other]] == Two(w.near, w.other);
  }

  lemma SecondGranted(w: Setting)
    requires Usable(w)
    ensures Granting(Server(w), CutTwo(w, false, Fresh(w.e, 1)), 1, []) ==
      CutTwo(w, true, Second(w, Granted(0), [], NoOp))
  {
    PathsSet(w, false, false, true);
    var s, granted := CutTwo(w, false, Fresh(w.e, 1)), Second(w, Granted(0), [], NoOp);
    assert 0 in s.links && s.links[0].ep.path == w.e.path && CanStillWrite(s.links[0]);
    assert Rivals(s.links, 1) == {};
    assert s.dirty + {1} == {1};
    assert s.links[1 := granted] == map[0 := Late(w), 1 := granted];
  }

  lemma SecondStarts(w: Setting)
    requires Usable(w)
    ensures Starting(CutTwo(w, true, Second(w, Granted(0), [], NoOp)), 1, [w.other]) == CutTwo(w, true, SecondMoving(w))
  {
    var s := CutTwo(w, true, Second(w, Granted(0), [], NoOp));
    assert s.links[1 := SecondMoving(w)] == map[0 := Late(w), 1 := SecondMoving(w)];
    assert Two(w.near, w.other)[1 := [w.other]] == Two(w.near, w.other);
  }

  /** A second session takes the freed path and moves its bytes. */
  lemma SecondMoves(w: Setting)
    requires Usable(w)
    ensures Reachable(Server(w), CutTwo(w, true, SecondMoving(w)))
  {
    TimedOut(w);
    SecondJoins(w);
    ReachNext(Server(w), Cut(w), Open(1, w.e, 1, [w.other]), CutTwo(w, false, Fresh(w.e, 1)));
    GetsPermission(Server(w), CutTwo(w, false, Fresh(w.e, 1)), 1, []);
    SecondGranted(w);
    Starts(Server(w), CutTwo(w, true, Second(w, Granted(0), [], NoOp)), 1, [w.other]);
    SecondStarts(w);
  }

  lemma LateMove(w: Setting)
    requires Usable(w)
    ensures MayMove(Acked(CutTwo(w, true, SecondMoving(w)), 1, w.other), 0, w.near, w.other)
    ensures var s := Moved(Acked(CutTwo(w, true, SecondMoving(w)), 1, w.other), 0, w.near);
      && 1 in s.links && s.cut == {0} && s.dirty == {1} && s.shared == {} && 0 in s.mem && s.mem[0] == [w.near]
      && s.links[1].server == AwaitAck(w.e) && s.links[1].up == [Ack(Completed)] && s.links[1].left == [w.other]
  {}

  /** Why the write theorem excludes dirty sessions: after the timer has cut the first session's
      window the second one completes, and then the first one's late byte lands in its buffer.
      The second session's own wait was not cut, its acknowledge says `operationCompleted`, its
      client buffer is its own, and the handler is about to see bytes that its client never
      left. */
  lemma LateWriteCorrupts(w: Setting) returns (s: State)
    requires Usable(w)
    ensures Reachable(Server(w), s) && 1 in s.links && s.cut == {0} && s.dirty == {1} && s.shared == {}
    ensures s.links[1].server == AwaitAck(w.e) && s.links[1].up == [Ack(Completed)] && s.links[1].left == [w.other]
    ensures 0 in s.mem && s.mem[0] == [w.near] && s.mem[0] != s.links[1].left
  {
    SecondMoves(w);
    Completes(Server(w), CutTwo(w, true, SecondMoving(w)), 1, w.other, w.far);
    LateMove(w);
    var acked := Acked(CutTwo(w, true, SecondMoving(w)), 1, w.other);
    MoveStep(Server(w), acked, 0, w.near, w.other);
    s := Moved(acked, 0, w.near);
    ReachNext(Server(w), acked, OpMove(0, 0), s);
  }

  // ----------------------------------------------------------------- the client's buffer

  /** Two calls on different paths use one client buffer; they share it once both may. */
  function Both(w: Setting, f: bool, k: Link, l: Link, near: byte): State {
    Scene(w, true, f, w.far, One(near), map[0 := k, 1 := l]).(shared := if f then {0, 1} else {})
  }

  function Other(w: Setting, pc: ClientPc, left: Bytes, op: Operation): Link {
    Fresh(w.f, 0).(server := AwaitAck(w.f), client := pc, left := left, op := op)
  }

  function OtherGranted(w: Setting): Link {
    Other(w, Granted(1), [], NoOp)
  }

  function OtherQueued(w: Setting): Link {
    Other(w, Transferring, [w.other], Queued(1))
  }

  lemma OtherJoins(w: Setting)
    requires Usable(w)
    ensures Next(Server(w), Alone(w, Holder(w)), Open(1, w.f, 0, [w.near])) ==
      Some(Both(w, false, Holder(w), Fresh(w.f, 0), w.near))
    ensures MayAsk(Server(w), Both(w, false, Holder(w), Fresh(w.f, 0), w.near), 1)
  {
    PathsSet(w, true, false, true);
    assert Alone(w, Holder(w)).links[1 := Fresh(w.f, 0)] == map[0 := Holder(w), 1 := Fresh(w.f, 0)];
  }

  lemma OtherIsGranted(w: Setting)
    requires Usable(w)
    ensures Granting(Server(w), Both(w, false, Holder(w), Fresh(w.f, 0), w.near), 1, []) ==
      Both(w, true, Holder(w), OtherGranted(w), w.near)
  {
    PathsSet(w, true, false, true);
    var s := Both(w, false, Holder(w), Fresh(w.f, 0), w.near);
    assert Rivals(s.links, 1) == {0};
    assert s.shared + {0} + {1} == {0, 1};
    assert s.links[1 := OtherGranted(w)] == map[0 := Holder(w), 1 := OtherGranted(w)];
  }

  lemma BothGranted(w: Setting)
    requires Usable(w)
    ensures Reachable(Server(w), Both(w, true, Holder(w), OtherGranted(w), w.near))
  {
    HoldsPermission(w);
    OtherJoins(w);
    var s := Both(w, false, Holder(w), Fresh(w.f, 0), w.near);
    ReachNext(Server(w), Alone(w, Holder(w)), Open(1, w.f, 0, [w.near]), s);
    GetsPermission(Server(w), s, 1, []);
    OtherIsGranted(w);
  }

  lemma FirstStarts(w: Setting)
    requires Usable(w)
    ensures Starting(Both(w, true, Holder(w), OtherGranted(w), w.near), 0, [w.near]) ==
      Both(w, true, Writing(w), OtherGranted(w), w.near)
  {
    var s := Both(w, true, Holder(w), OtherGranted(w), w.near);
    assert s.links[0 := Writing(w)] == map[0 := Writing(w), 1 := OtherGranted(w)];
    assert One(w.near)[0 := [w.near]] == One(w.near);
  }

  lemma OtherOverwrites(w: Setting)
    requires Usable(w)
    ensures Queueing(Both(w, true, Writing(w), OtherGranted(w), w.near), 1, [w.other]) ==
      Both(w, true, Writing(w), OtherQueued(w), w.other)
  {
    var s := Both(w, true, Writing(w), OtherGranted(w), w.near);
    assert s.links[1 := OtherQueued(w)] == map[0 := Writing(w), 1 := OtherQueued(w)];
    assert One(w.near)[0 := [w.other]] == One(w.other);
  }

  lemma Overwritten(w: Setting)
    requires Usable(w)
    ensures Reachable(Server(w), Both(w, true, Writing(w), OtherQueued(w), w.other))
  {
    BothGranted(w);
    Starts(Server(w), Both(w, true, Holder(w), OtherGranted(w), w.near), 0, [w.near]);
    FirstStarts(w);
    Queues(Server(w), Both(w, true, Writing(w), OtherGranted(w), w.near), 1, [w.other]);
    OtherOverwrites(w);
  }

  lemma OverwrittenFacts(w: Setting)
    requires Usable(w)
    ensures MayMove(Both(w, true, Writing(w), OtherQueued(w), w.other), 0, w.other, w.far)
    ensures var s := Acked(Both(w, true, Writing(w), OtherQueued(w), w.other), 0, w.other);
      && 0 in s.links && s.cut == {} && s.dirty == {} && s.shared == {0, 1} && 0 in s.mem && s.mem[0] == [w.other]
      && s.links[0].server == AwaitAck(w.e) && s.links[0].up == [Ack(Completed)] && s.links[0].left == [w.near]
  {}

  /** Why the data theorems exclude shared client buffers: the second call's handler overwrites
      the buffer before the first call's operation has read it. No timer has fired, and the
      first session's acknowledge says `operationCompleted`. */
  lemma SharedBufferCorrupts(w: Setting) returns (s: State)
    requires Usable(w)
    ensures Reachable(Server(w), s) && 0 in s.links && s.cut == {} && s.dirty == {} && s.shared == {0, 1}
    ensures s.links[0].server == AwaitAck(w.e) && s.links[0].up == [Ack(Completed)] && s.links[0].left == [w.near]
    ensures 0 in s.mem && s.mem[0] == [w.other] && s.mem[0] != s.links[0].left
  {
    Overwritten(w);
    OverwrittenFacts(w);
    var t := Both(w, true, Writing(w), OtherQueued(w), w.other);
    Completes(Server(w), t, 0, w.other, w.far);
    s := Acked(t, 0, w.other);
  }

  // ------------------------------------------------------------------ a read call first

  /** The one call there is reads, and the server's handler has left `other` for it. */
  function Reader(w: Setting, pc: ClientPc, op: Operation): Link {
    Fresh(w.r, 0).(server := AwaitAck(w.r), client := pc, op := op, served := [w.other])
  }

  function Reading(w: Setting, l: Link): State {
    Scene(w, true, false, w.other, One(w.near), map[0 := l])
  }

  lemma ReaderGranted(w: Setting)
    requires Usable(w)
    ensures MayAsk(Server(w), Joined(w, w.r), 0)
    ensures Granting(Server(w), Joined(w, w.r), 0, [w.other]) == Reading(w, Reader(w, Granted(0), NoOp))
  {
    PathsSet(w, false, false, true);
    var s, granted := Joined(w, w.r), Reader(w, Granted(0), NoOp);
    assert s.flags[w.r] == false;
    assert Rivals(s.links, 0) == {};
    assert s.links[0 := granted] == map[0 := granted];
    assert s.mem[0 := [w.other]] == Reading(w, granted).mem;
  }

  lemma ReaderStarts(w: Setting)
    requires Usable(w)
    ensures Starting(Reading(w, Reader(w, Granted(0), NoOp)), 0, []) ==
      Reading(w, Reader(w, Transferring, Moving(0, {})))
  {
    var moving := Reader(w, Transferring, Moving(0, {}));
    assert Reading(w, Reader(w, Granted(0), NoOp)).links[0 := moving] == map[0 := moving];
  }

  lemma ReaderMoves(w: Setting)
    requires Usable(w)
    ensures Reachable(Server(w), Reading(w, Reader(w, Transferring, Moving(0, {}))))
  {
    Joins(w, w.r);
    ReaderGranted(w);
    GetsPermission(Server(w), Joined(w, w.r), 0, [w.other]);
    Starts(Server(w), Reading(w, Reader(w, Granted(0), NoOp)), 0, []);
    ReaderStarts(w);
  }

  /** The reader's operation is done and acknowledged, and the server has unlocked; its handler
      has not been called yet. */
  function Fetched(w: Setting, server: ServerPc, up: seq<UpMessage>): Link {
    Reader(w, ReadHandling, Finished(true)).(server := server, up := up)
  }

  function Unlocked(w: Setting): State {
    Scene(w, false, false, w.other, One(w.other), map[0 := Fetched(w, AwaitRequest, [])])
  }

  lemma FetchedSteps(w: Setting)
    requires Usable(w)
    ensures var s := Reading(w, Reader(w, Transferring, Moving(0, {})));
      && MayMove(s, 0, w.other, w.near)
      && Next(Server(w), Acked(s, 0, w.other), ServeAck(0, Handler(true, []))) == Some(Unlocked(w))
  {
    PathsSet(w, true, false, false);
    var acked := Acked(Reading(w, Reader(w, Transferring, Moving(0, {}))), 0, w.other);
    assert acked.local == One(w.other);
    assert acked.links[0].up[1..] == [];
    assert acked.links[0 := Fetched(w, AwaitRequest, [])] == map[0 := Fetched(w, AwaitRequest, [])];
  }

  lemma ReachesUnlocked(w: Setting)
    requires Usable(w)
    ensures Reachable(Server(w), Unlocked(w))
  {
    ReaderMoves(w);
    FetchedSteps(w);
    var s := Reading(w, Reader(w, Transferring, Moving(0, {})));
    Completes(Server(w), s, 0, w.other, w.near);
    ReachNext(Server(w), Acked(s, 0, w.other), ServeAck(0, Handler(true, [])), Unlocked(w));
  }

  /** A write call on the same path, and so with the same client buffer, comes next. */
  function Followed(w: Setting, locked: bool, l: Link, near: byte): State {
    Scene(w, locked, false, w.other, One(near), map[0 := Fetched(w, AwaitRequest, []), 1 := l]).(
          shared := if locked then {0, 1} else {})
  }

  function Follower(w: Setting, pc: ClientPc, left: Bytes, op: Operation): Link {
    Fresh(w.e, 0).(server := AwaitAck(w.e), client := pc, left := left, op := op)
  }

  lemma FollowerJoins(w: Setting)
    requires Usable(w)
    ensures Next(Server(w), Unlocked(w), Open(1, w.e, 0, [])) == Some(Followed(w, false, Fresh(w.e, 0), w.other))
    ensures MayAsk(Server(w), Followed(w, false, Fresh(w.e, 0), w.other), 1)
  {
    PathsSet(w, false, false, true);
    assert Unlocked(w).links[1 := Fresh(w.e, 0)] == map[0 := Fetched(w, AwaitRequest, []), 1 := Fresh(w.e, 0)];
  }

  lemma FollowerGranted(w: Setting)
    requires Usable(w)
    ensures Granting(Server(w), Followed(w, false, Fresh(w.e, 0), w.other), 1, []) ==
      Followed(w, true, Follower(w, Granted(0), [], NoOp), w.other)
  {
    PathsSet(w, false, false, true);
    var s, granted := Followed(w, false, Fresh(w.e, 0), w.other), Follower(w, Granted(0), [], NoOp);
    assert Rivals(s.links, 1) == {0};
    assert !Unfinished(s.links, 1, w.e.path);
    assert s.shared + {0} + {1} == {0, 1};
    assert s.links[1 := granted] == map[0 := Fetched(w, AwaitRequest, []), 1 := granted];
  }

  lemma FollowerOverwrites(w: Setting)
    requires Usable(w)
    ensures Queueing(Followed(w, true, Follower(w, Granted(0), [], NoOp), w.other), 1, [w.near]) ==
      Followed(w, true, Follower(w, Transferring, [w.near], Queued(0)), w.near)
  {
    var s := Followed(w, true, Follower(w, Granted(0), [], NoOp), w.other);
    var queued := Follower(w, Transferring, [w.near], Queued(0));
    assert s.links[1 := queued] == map[0 := Fetched(w, AwaitRequest, []), 1 := queued];
    assert One(w.other)[0 := [w.near]] == One(w.near);
  }

  lemma ReachesFollowed(w: Setting)
    requires Usable(w)
    ensures Reachable(Server(w), Followed(w, true, Follower(w, Transferring, [w.near], Queued(0)), w.near))
  {
    ReachesUnlocked(w);
    FollowerJoins(w);
    var s := Followed(w, false, Fresh(w.e, 0), w.other);
    ReachNext(Server(w), Unlocked(w), Open(1, w.e, 0, []), s);
    GetsPermission(Server(w), s, 1, []);
    FollowerGranted(w);
    Queues(Server(w), Followed(w, true, Follower(w, Granted(0), [], NoOp), w.other), 1, [w.near]);
    FollowerOverwrites(w);
  }

  /** The lock of a path does not protect a reader's client buffer: the server unlocks before the
      client's read handler runs, a write call on the same path takes the lock, and its handler
      overwrites the buffer the two share. Nothing was cut short, and the read handler is about
      to see bytes that the server's handler never left. */
  lemma SharedPathCorrupts(w: Setting) returns (s: State)
    requires Usable(w)
    ensures Reachable(Server(w), s) && s.links.Keys == {0, 1} && s.cut == {} && s.dirty == {} && s.shared == {0, 1}
    ensures s.links[0].ep == w.r && s.links[1].ep == w.e && s.links[0].cell == s.links[1].cell
    ensures s.links[0].client == ReadHandling && s.links[0].served == [w.other]
    ensures s.links[0].cell in s.local && s.local[s.links[0].cell] == [w.near] != s.links[0].served
  {
    ReachesFollowed(w);
    s := Followed(w, true, Follower(w, Transferring, [w.near], Queued(0)), w.near);
  }

  // ----------------------------------------------------------------- a read that is late

  /** The acknowledge timer fired while the reader's operation was moving bytes. */
  function LateReader(w: Setting): Link {
    Reader(w, Transferring, Moving(0, {})).(server := AwaitRequest)
  }

  function CutReading(w: Setting, links: map<nat, Link>, local: map<nat, Bytes>): State {
    Scene(w, false, false, w.other, local, links).(cut := {0})
  }

  lemma ReaderCut(w: Setting)
    requires Usable(w)
    ensures Next(Server(w), Reading(w, Reader(w, Transferring, Moving(0, {}))), ServeAckLost(0)) ==
      Some(CutReading(w, map[0 := LateReader(w)], One(w.near)))
  {
    PathsSet(w, true, false, false);
    var s := Reading(w, Reader(w, Transferring, Moving(0, {})));
    assert s.cut + {0} == {0};
    assert s.links[0 := LateReader(w)] == map[0 := LateReader(w)];
  }

  /** A second reader joins, with a buffer of its own. */
  function TwoReaders(w: Setting): State {
    CutReading(w, map[0 := LateReader(w), 1 := Fresh(w.r, 1)], Two(w.near, w.near))
  }

  lemma ReaderJoins(w: Setting)
    requires Usable(w)
    ensures Next(Server(w), CutReading(w, map[0 := LateReader(w)], One(w.near)), Open(1, w.r, 1, [w.near])) ==
      Some(TwoReaders(w))
    ensures MayAsk(Server(w), TwoReaders(w), 1)
  {
    PathsSet(w, false, false, true);
    assert map[0 := LateReader(w)][1 := Fresh(w.r, 1)] == TwoReaders(w).links;
    assert One(w.near)[1 := [w.near]] == Two(w.near, w.near);
  }

  lemma ReachesTwoReaders(w: Setting)
    requires Usable(w)
    ensures Reachable(Server(w), TwoReaders(w)) && MayAsk(Server(w), TwoReaders(w), 1)
  {
    ReaderMoves(w);
    ReaderCut(w);
    var cut := CutReading(w, map[0 := LateReader(w)], One(w.near));
    ReachNext(Server(w), Reading(w, Reader(w, Transferring, Moving(0, {}))), ServeAckLost(0), cut);
    ReaderJoins(w);
    ReachNext(Server(w), cut, Open(1, w.r, 1, [w.near]), TwoReaders(w));
  }

  lemma LateReadFacts(w: Setting)
    requires Usable(w)
    ensures MayAsk(Server(w), TwoReaders(w), 1)
    ensures MayMove(Winning(Server(w), TwoReaders(w), 1, [w.near]), 0, w.near, w.near)
    ensures var s := Acked(Winning(Server(w), TwoReaders(w), 1, [w.near]), 0, w.near);
      && 0 in s.links && s.cut == {0} && s.dirty == {} && s.shared == {}
      && s.links[0].client == ReadHandling && s.links[0].served == [w.other]
      && s.links[0].cell in s.local && s.local[s.links[0].cell] == [w.near]
  {
    PathsSet(w, false, false, true);
    assert TwoReaders(w).flags[w.r] == false;
    assert !Unfinished(TwoReaders(w).links, 1, w.r.path);
  }

  /** Why the read theorem excludes sessions whose own wait was cut: the server unlocks too
      early, the next session's read handler fills the buffer anew, and the late operation
      fetches bytes that were never left for it. */
  lemma LateReadCorrupts(w: Setting) returns (s: State)
    requires Usable(w)
    ensures Reachable(Server(w), s) && 0 in s.links && s.cut == {0} && s.dirty == {} && s.shared == {}
    ensures s.links[0].client == ReadHandling && s.links[0].served == [w.other]
    ensures s.links[0].cell in s.local && s.local[s.links[0].cell] == [w.near] != s.links[0].served
  {
    ReachesTwoReaders(w);
    WinsLock(Server(w), TwoReaders(w), 1, [w.near]);
    LateReadFacts(w);
    Completes(Server(w), Winning(Server(w), TwoReaders(w), 1, [w.near]), 0, w.near, w.near);
    s := Acked(Winning(Server(w), TwoReaders(w), 1, [w.near]), 0, w.near);
  }

  // ------------------------------------------------------------------- the return of Serve

  /** Next to the holder, a session that is about to fail. */
  function Failing(w: Setting, l: Link): State {
    Scene(w, true, false, w.far, Two(w.near, w.other), map[0 := Holder(w), 1 := l])
  }

  function Caller(w: Setting, server: ServerPc, up: seq<UpMessage>): Link {
    Fresh(w.f, 1).(server := server, client := AwaitResponse, up := up)
  }

  function Asked(w: Setting): Link {
    Caller(w, AwaitRequest, [Request(w.f)])
  }

  lemma CallerJoins(w: Setting)
    requires Usable(w)
    ensures Next(Server(w), Alone(w, Holder(w)), Open(1, w.f, 1, [w.other])) == Some(Failing(w, Fresh(w.f, 1)))
  {
    assert Alone(w, Holder(w)).links[1 := Fresh(w.f, 1)] == map[0 := Holder(w), 1 := Fresh(w.f, 1)];
    assert One(w.near)[1 := [w.other]] == Two(w.near, w.other);
  }

  lemma CallerAsks(w: Setting)
    requires Usable(w)
    ensures Next(Server(w), Failing(w, Fresh(w.f, 1)), SendRequest(1)) == Some(Failing(w, Asked(w)))
  {
    assert Fresh(w.f, 1).up + [Request(w.f)] == [Request(w.f)];
    assert Failing(w, Fresh(w.f, 1)).links[1 := Asked(w)] == map[0 := Holder(w), 1 := Asked(w)];
  }

  lemma CallerFails(w: Setting)
    requires Usable(w)
    ensures Next(Server(w), Failing(w, Asked(w)), ServeRequest(1, false, true, Handler(true, []))) ==
      Some(Failing(w, Caller(w, Ended(None), [])))
  {
    var failed := Caller(w, Ended(None), []);
    assert Asked(w).up[1..] == [];
    assert Failing(w, Asked(w)).links[1 := failed] == map[0 := Holder(w), 1 := failed];
  }

  lemma OtherFails(w: Setting)
    requires Usable(w)
    ensures Reachable(Server(w), Failing(w, Caller(w, Ended(None), [])))
  {
    HoldsPermission(w);
    CallerJoins(w);
    ReachNext(Server(w), Alone(w, Holder(w)), Open(1, w.f, 1, [w.other]), Failing(w, Fresh(w.f, 1)));
    CallerAsks(w);
    ReachNext(Server(w), Failing(w, Fresh(w.f, 1)), SendRequest(1), Failing(w, Asked(w)));
    CallerFails(w);
    ReachNext(Server(w), Failing(w, Asked(w)), ServeRequest(1, false, true, Handler(true, [])),
              Failing(w, Caller(w, Ended(None), [])));
  }

  function Stranded(w: Setting): State {
    Scene(w, true, false, w.far, Two(w.near, w.other), map[0 := Stopped(Holder(w)), 1 := Caller(w, Ended(None), [])])
  }

  lemma StopLinks(w: Setting)
    ensures StopServing(Failing(w, Caller(w, Ended(None), []))).links == Stranded(w).links
  {
    assert Stopped(Caller(w, Ended(None), [])) == Caller(w, Ended(None), []);
  }

  lemma StopStep(w: Setting)
    ensures Next(Server(w), Failing(w, Caller(w, Ended(None), [])), ServeStops(1)) == Some(Stranded(w))
  {
    StopLinks(w);
  }

  lemma StrandedFacts(w: Setting)
    requires Usable(w)
    ensures var s := Stranded(w);
      && 0 in s.links && s.cut == {} && s.shared == {} && s.links[0].server == Ended(Some(w.e.path))
      && s.links[0].client == Granted(0) && !SomeFree(s.flags, w.e.path)
  {
    PathsSet(w, true, false, true);
  }

  lemma ReachesStranded(w: Setting)
    requires Usable(w)
    ensures Reachable(Server(w), Stranded(w))
  {
    OtherFails(w);
    StopStep(w);
    ReachNext(Server(w), Failing(w, Caller(w, Ended(None), [])), ServeStops(1), Stranded(w));
  }

  /** A lock is lost without any fault of its own session: another session finds no RDMA
      connection and returns an error, `Serve` returns, and the holder's coroutine is destroyed
      where it waits for the acknowledge. No timer has fired and every answer was sent. */
  lemma StopLosesLock(w: Setting) returns (s: State)
    requires Usable(w)
    ensures Reachable(Server(w), s) && 0 in s.links && s.cut == {} && s.shared == {}
    ensures s.links[0].server == Ended(Some(w.e.path)) && s.links[0].client == Granted(0)
    ensures !SomeFree(s.flags, w.e.path)
  {
    s := Stranded(w);
    ReachesStranded(w);
    StrandedFacts(w);
  }
}
