/** Every step keeps the invariant, so every reachable state satisfies it. */
module ProtocolProof {
  import opened EndpointTypes
  import opened LockFlags
  import opened SessionSteps
  import opened Protocol
  import opened ProtocolInvariant

  ghost predicate NoOtherHolder(links: map<nat, Link>, i: nat, path: Path) {
    forall j :: j in links && j != i ==> HeldPath(links[j].server) != Some(path)
  }

  /** What a step by link `i` may do to the server's buffers: touch only its own, as an operation
      that can still write or while nobody else holds the path. */
  ghost predicate MemStep(cfg: Config, s: State, i: nat, mem': map<nat, Bytes>)
    requires i in s.links
  {
    var l := s.links[i];
    forall b | b in s.mem ::
      && b in mem'
      && (|| mem'[b] == s.mem[b]
          || (l.ep in cfg.buffer && b == cfg.buffer[l.ep]
              && (CanStillWrite(l) || NoOtherHolder(s.links, i, l.ep.path))))
  }

  /** And to the client's buffers: touch only its own, while using it. */
  ghost predicate LocalStep(s: State, i: nat, local': map<nat, Bytes>)
    requires i in s.links
  {
    var l := s.links[i];
    forall c :: c in s.local ==> c in local' && (local'[c] == s.local[c] || (c == l.cell && InUse(l)))
  }

  ghost predicate MarksGrow(s: State, s': State) {
    s.cut <= s'.cut && s.dirty <= s'.dirty && s.shared <= s'.shared
  }

  /** Where the server's buffer of a clean holder is safe from the steps of others. */
  lemma FarKept(cfg: Config, s: State, i: nat, j: nat, s': State)
    requires Inv(cfg, s) && i in s.links && j in s.links && i != j && MemStep(cfg, s, i, s'.mem)
    ensures s.links[j].ep in cfg.buffer ==> cfg.buffer[s.links[j].ep] in s'.mem
    ensures s.links[j].ep in cfg.buffer && Holds(s.links[j]) && j !in s.dirty ==>
      s'.mem[cfg.buffer[s.links[j].ep]] == s.mem[cfg.buffer[s.links[j].ep]]
  {
    var l, m := s.links[i], s.links[j];
    if m.ep in cfg.buffer && l.ep in cfg.buffer && cfg.buffer[l.ep] == cfg.buffer[m.ep] {
      assert l.ep.path == m.ep.path;
      assert Holds(m) ==> !NoOtherHolder(s.links, i, l.ep.path);
    }
  }

  /** The client's buffer of another link that uses it alone. */
  lemma NearKept(cfg: Config, s: State, i: nat, j: nat, s': State)
    requires Inv(cfg, s) && i in s.links && j in s.links && i != j && LocalStep(s, i, s'.local)
    ensures s.links[j].cell in s.local && s.links[j].cell in s'.local
    ensures InUse(s.links[j]) && j !in s.shared ==> s'.local[s.links[j].cell] == s.local[s.links[j].cell]
  {
    assert LinkAt(cfg, s, j);
  }

  lemma OtherData(cfg: Config, mem: map<nat, Bytes>, local: map<nat, Bytes>, mem': map<nat, Bytes>,
                  local': map<nat, Bytes>, l: Link, cut: bool, dirty: bool, shared: bool)
    requires DataOk(cfg, mem, local, l, cut, dirty, shared) && l.cell in local'
    requires l.ep in cfg.buffer ==> cfg.buffer[l.ep] in mem'
    requires l.ep in cfg.buffer && Holds(l) && !dirty ==> mem'[cfg.buffer[l.ep]] == mem[cfg.buffer[l.ep]]
    requires InUse(l) && !shared ==> local'[l.cell] == local[l.cell]
    ensures DataOk(cfg, mem', local', l, cut, dirty, shared)
  {}

  /** Less is asked of a link that has more marks. */
  lemma MarksWeaken(cfg: Config, s: State, s': State, j: nat)
    requires MarksGrow(s, s') && j in s'.links && LinkOk(cfg, s'.links[j], j in s.cut)
    requires DataOk(cfg, s'.mem, s'.local, s'.links[j], j in s.cut, j in s.dirty, j in s.shared)
    ensures LinkAt(cfg, s', j)
  {}

  lemma OtherKeeps(cfg: Config, s: State, i: nat, j: nat, s': State)
    requires Inv(cfg, s) && i in s.links && j in s.links && i != j
    requires MarksGrow(s, s') && MemStep(cfg, s, i, s'.mem) && LocalStep(s, i, s'.local)
    requires j in s'.links && s'.links[j] == s.links[j]
    ensures LinkAt(cfg, s', j)
  {
    assert LinkAt(cfg, s, j);
    FarKept(cfg, s, i, j, s');
    NearKept(cfg, s, i, j, s');
    OtherData(cfg, s.mem, s.local, s'.mem, s'.local, s.links[j], j in s.cut, j in s.dirty, j in s.shared);
    MarksWeaken(cfg, s, s', j);
  }

  /** What the new link may be without breaking what is known of pairs of links. */
  ghost predicate PairStep(s: State, i: nat, l': Link, s': State)
    requires i in s.links
  {
    var l := s.links[i];
    && l'.cell == l.cell && l'.ep == l.ep
    && (InUse(l') ==> InUse(l) || Rivals(s.links, i) == {} || (i in s'.shared && Rivals(s.links, i) <= s'.shared))
    && (CanStillWrite(l') ==> CanStillWrite(l) || Holds(l))
    && (Holds(l') ==> Holds(l) || i in s'.dirty || !Unfinished(s.links, i, l.ep.path))
  }

  lemma PairsKept(cfg: Config, s: State, i: nat, l': Link, s': State)
    requires Inv(cfg, s) && i in s.links && s'.links == s.links[i := l'] && MarksGrow(s, s') && PairStep(s, i, l', s')
    ensures CellsOk(s'.links, s'.shared) && CleanOk(s'.links, s'.dirty)
  {
    forall j | j in s.links && j != i && s.links[j].cell == l'.cell && InUse(l') && InUse(s.links[j])
      ensures i in s'.shared && j in s'.shared
    {
      assert j in Rivals(s.links, i);
    }
    forall j | j in s.links && j != i && Holds(s.links[j]) && l'.ep.path == s.links[j].ep.path && CanStillWrite(l')
      ensures j in s'.dirty
    {
      assert !SameHeld(s.links[i], s.links[j]);
    }
  }

  lemma Assemble(cfg: Config, s: State, i: nat, l': Link, s': State)
    requires Inv(cfg, s) && i in s.links && s'.links == s.links[i := l'] && MarksGrow(s, s')
    requires MemStep(cfg, s, i, s'.mem) && LocalStep(s, i, s'.local) && PairStep(s, i, l', s')
    requires LinkAt(cfg, s', i) && LocksOk(cfg, s'.flags, s'.links)
    ensures Inv(cfg, s')
  {
    PairsKept(cfg, s, i, l', s');
    forall j | j in s.links && j != i ensures LinkAt(cfg, s', j) {
      OtherKeeps(cfg, s, i, j, s');
    }
  }

  /** A step that writes to the buffer of its own endpoint, if to any. */
  lemma OwnBuffer(cfg: Config, s: State, i: nat, mem': map<nat, Bytes>, out: Bytes)
    requires i in s.links
    requires mem' == s.mem || (s.links[i].ep in cfg.buffer && mem' == s.mem[cfg.buffer[s.links[i].ep] := out])
    requires mem' == s.mem || CanStillWrite(s.links[i]) || NoOtherHolder(s.links, i, s.links[i].ep.path)
    ensures MemStep(cfg, s, i, mem')
  {}

  // ------------------------------------------------------------------------- the locks

  lemma LocksUnchanged(cfg: Config, flags: Flags, links: map<nat, Link>, i: nat, l': Link)
    requires LocksOk(cfg, flags, links) && i in links
    requires HeldPath(l'.server) == HeldPath(links[i].server)
    ensures LocksOk(cfg, flags, links[i := l'])
  {
    var links' := links[i := l'];
    forall e | e in flags && flags[e]
      ensures exists j :: j in links' && HeldPath(links'[j].server) == Some(e.path)
    {
      var j :| j in links && HeldPath(links[j].server) == Some(e.path);
      assert j in links' && HeldPath(links'[j].server) == Some(e.path);
    }
  }

  lemma LocksOpened(cfg: Config, flags: Flags, links: map<nat, Link>, i: nat, l: Link)
    requires LocksOk(cfg, flags, links) && i !in links && HeldPath(l.server) == None
    ensures LocksOk(cfg, flags, links[i := l])
  {
    var links' := links[i := l];
    forall e | e in flags && flags[e]
      ensures exists j :: j in links' && HeldPath(links'[j].server) == Some(e.path)
    {
      var j :| j in links && HeldPath(links[j].server) == Some(e.path);
      assert HeldPath(links'[j].server) == Some(e.path);
    }
  }

  lemma NobodyHolds(cfg: Config, flags: Flags, links: map<nat, Link>, path: Path)
    requires LocksOk(cfg, flags, links) && SomeFree(flags, path)
    ensures forall j :: j in links ==> HeldPath(links[j].server) != Some(path)
  {}

  lemma LocksTaken(cfg: Config, flags: Flags, links: map<nat, Link>, i: nat, l': Link, path: Path)
    requires LocksOk(cfg, flags, links) && i in links && SomeFree(flags, path)
    requires HeldPath(links[i].server) == None && HeldPath(l'.server) == Some(path)
    ensures LocksOk(cfg, SetPath(flags, path, true), links[i := l'])
  {
    NobodyHolds(cfg, flags, links, path);
    var links', flags' := links[i := l'], SetPath(flags, path, true);
    forall e | e in flags' && flags'[e]
      ensures exists j :: j in links' && HeldPath(links'[j].server) == Some(e.path)
    {
      if e.path == path {
        assert HeldPath(links'[i].server) == Some(e.path);
      } else {
        var j :| j in links && HeldPath(links[j].server) == Some(e.path);
        assert HeldPath(links'[j].server) == Some(e.path);
      }
    }
  }

  lemma LocksGiven(cfg: Config, flags: Flags, links: map<nat, Link>, i: nat, l': Link, path: Path)
    requires LocksOk(cfg, flags, links) && i in links
    requires HeldPath(links[i].server) == Some(path) && HeldPath(l'.server) == None
    ensures LocksOk(cfg, SetPath(flags, path, false), links[i := l'])
  {
    var links', flags' := links[i := l'], SetPath(flags, path, false);
    forall e | e in flags' && flags'[e]
      ensures exists j :: j in links' && HeldPath(links'[j].server) == Some(e.path)
    {
      var j :| j in links && HeldPath(links[j].server) == Some(e.path);
      assert HeldPath(links'[j].server) == Some(e.path);
    }
  }

  // ------------------------------------------------------------------------- the steps

  lemma OpenedLink(cfg: Config, s: State, i: nat, ep: Endpoint, cell: nat, init: Bytes)
    requires OpenLink(s, i, ep, cell, init).Some? && forall e :: e in cfg.buffer ==> cfg.buffer[e] in s.mem
    ensures LinkAt(cfg, OpenLink(s, i, ep, cell, init).value, i)
    ensures HeldPath(OpenLink(s, i, ep, cell, init).value.links[i].server) == None
  {}

  lemma OthersAtOpen(cfg: Config, s: State, i: nat, ep: Endpoint, cell: nat, init: Bytes, j: nat)
    requires OpenLink(s, i, ep, cell, init).Some? && j in s.links && LinkAt(cfg, s, j)
    ensures LinkAt(cfg, OpenLink(s, i, ep, cell, init).value, j)
  {}

  lemma PairsAtOpen(s: State, i: nat, ep: Endpoint, cell: nat, init: Bytes)
    requires CellsOk(s.links, s.shared) && CleanOk(s.links, s.dirty) && OpenLink(s, i, ep, cell, init).Some?
    ensures CellsOk(OpenLink(s, i, ep, cell, init).value.links, s.shared)
    ensures CleanOk(OpenLink(s, i, ep, cell, init).value.links, s.dirty)
  {}

  lemma KeptByOpen(cfg: Config, s: State, i: nat, ep: Endpoint, cell: nat, init: Bytes)
    requires Inv(cfg, s) && OpenLink(s, i, ep, cell, init).Some?
    ensures Inv(cfg, OpenLink(s, i, ep, cell, init).value)
  {
    var s' := OpenLink(s, i, ep, cell, init).value;
    OpenedLink(cfg, s, i, ep, cell, init);
    LocksOpened(cfg, s.flags, s.links, i, s'.links[i]);
    PairsAtOpen(s, i, ep, cell, init);
    forall j | j in s.links ensures LinkAt(cfg, s', j) {
      OthersAtOpen(cfg, s, i, ep, cell, init, j);
    }
  }

  /** What a client's control step does to its own link, which touches no memory. */
  ghost predicate ControlKept(cfg: Config, s: State, i: nat, s': State)
    requires i in s.links
  {
    && i in s'.links && s'.links == s.links[i := s'.links[i]]
    && s'.mem == s.mem && s'.local == s.local && s'.flags == s.flags
    && MarksGrow(s, s') && LinkAt(cfg, s', i) && PairStep(s, i, s'.links[i], s')
    && s'.links[i].server == s.links[i].server
  }

  lemma AskingControl(cfg: Config, s: State, a: Action)
    requires a.at in s.links && LinkAt(cfg, s, a.at) && (a.SendRequest? || a.GiveUp?) && Next(cfg, s, a).Some?
    ensures ControlKept(cfg, s, a.at, Next(cfg, s, a).value)
  {}

  lemma HearingControl(cfg: Config, s: State, i: nat)
    requires i in s.links && LinkAt(cfg, s, i) && ClientGetResponse(s, i, s.links[i]).Some?
    ensures ControlKept(cfg, s, i, ClientGetResponse(s, i, s.links[i]).value)
  {}

  lemma SendingControl(cfg: Config, s: State, i: nat, delivered: bool, ok: bool)
    requires i in s.links && LinkAt(cfg, s, i) && ClientSendAck(s, i, s.links[i], delivered, ok).Some?
    ensures ControlKept(cfg, s, i, ClientSendAck(s, i, s.links[i], delivered, ok).value)
  {}

  lemma EndingControl(cfg: Config, s: State, a: Action)
    requires a.at in s.links && LinkAt(cfg, s, a.at)
    requires (a.OpDone? || a.OpTimeout? || a.SendAck?) && Next(cfg, s, a).Some?
    ensures ControlKept(cfg, s, a.at, Next(cfg, s, a).value)
  {
    if a.SendAck? { SendingControl(cfg, s, a.at, a.delivered, a.ok); }
  }

  lemma KeptByClient(cfg: Config, s: State, a: Action)
    requires Inv(cfg, s) && a.at in s.links
    requires a.SendRequest? || a.GiveUp? || a.GetResponse? || a.OpDone? || a.OpTimeout? || a.SendAck?
    requires Next(cfg, s, a).Some?
    ensures Inv(cfg, Next(cfg, s, a).value)
  {
    assert LinkAt(cfg, s, a.at);
    if a.SendRequest? || a.GiveUp? {
      AskingControl(cfg, s, a);
    } else if a.GetResponse? {
      HearingControl(cfg, s, a.at);
    } else {
      EndingControl(cfg, s, a);
    }
    var s' := Next(cfg, s, a).value;
    LocksUnchanged(cfg, s.flags, s.links, a.at, s'.links[a.at]);
    Assemble(cfg, s, a.at, s'.links[a.at], s');
  }

  lemma PrepareLink(cfg: Config, s: State, i: nat, importOk: bool, handler: Handler, submitOk: bool)
    requires i in s.links && LinkAt(cfg, s, i)
    requires ClientPrepare(s, i, s.links[i], importOk, handler, submitOk).Some?
    ensures var s' := ClientPrepare(s, i, s.links[i], importOk, handler, submitOk).value;
      LinkAt(cfg, s', i) && PairStep(s, i, s'.links[i], s')
  {}

  lemma KeptByPrepare(cfg: Config, s: State, i: nat, importOk: bool, handler: Handler, submitOk: bool)
    requires Inv(cfg, s) && i in s.links && ClientPrepare(s, i, s.links[i], importOk, handler, submitOk).Some?
    ensures Inv(cfg, ClientPrepare(s, i, s.links[i], importOk, handler, submitOk).value)
  {
    var s' := ClientPrepare(s, i, s.links[i], importOk, handler, submitOk).value;
    var l, l' := s.links[i], s'.links[i];
    assert LinkAt(cfg, s, i);
    PrepareLink(cfg, s, i, importOk, handler, submitOk);
    LocksUnchanged(cfg, s.flags, s.links, i, l');
    Assemble(cfg, s, i, l', s');
  }

  lemma ReadHandleLink(cfg: Config, s: State, i: nat, handler: Handler)
    requires i in s.links && LinkAt(cfg, s, i) && ClientReadHandle(s, i, s.links[i], handler).Some?
    ensures var s' := ClientReadHandle(s, i, s.links[i], handler).value;
      LinkAt(cfg, s', i) && PairStep(s, i, s'.links[i], s')
  {}

  lemma KeptByReadHandle(cfg: Config, s: State, i: nat, handler: Handler)
    requires Inv(cfg, s) && i in s.links && ClientReadHandle(s, i, s.links[i], handler).Some?
    ensures Inv(cfg, ClientReadHandle(s, i, s.links[i], handler).value)
  {
    var s' := ClientReadHandle(s, i, s.links[i], handler).value;
    var l, l' := s.links[i], s'.links[i];
    assert LinkAt(cfg, s, i);
    ReadHandleLink(cfg, s, i, handler);
    LocksUnchanged(cfg, s.flags, s.links, i, l');
    Assemble(cfg, s, i, l', s');
  }

  lemma KeptByStart(cfg: Config, s: State, i: nat)
    requires Inv(cfg, s) && i in s.links && StartOp(s, i, s.links[i]).Some?
    ensures Inv(cfg, StartOp(s, i, s.links[i]).value)
  {
    var s' := StartOp(s, i, s.links[i]).value;
    var l, l' := s.links[i], s'.links[i];
    assert LinkAt(cfg, s, i);
    LocksUnchanged(cfg, s.flags, s.links, i, l');
    Assemble(cfg, s, i, l', s');
  }

  lemma MoveLink(cfg: Config, s: State, i: nat, k: nat)
    requires i in s.links && LinkAt(cfg, s, i) && MoveByte(s, i, s.links[i], k).Some?
    ensures var s' := MoveByte(s, i, s.links[i], k).value;
      i in s'.links && LinkOk(cfg, s'.links[i], i in s'.cut) && PairStep(s, i, s'.links[i], s')
    ensures i !in s.cut ==> Holds(s.links[i])
  {}

  /** The heart of the data argument: the byte is moved inside the link's own window. */
  lemma MoveData(cfg: Config, s: State, i: nat, k: nat)
    requires i in s.links && LinkAt(cfg, s, i) && MoveByte(s, i, s.links[i], k).Some?
    ensures var s' := MoveByte(s, i, s.links[i], k).value;
      LinkAt(cfg, s', i) && PairStep(s, i, s'.links[i], s')
    ensures i !in s.cut ==> Holds(s.links[i])
  {
    MoveLink(cfg, s, i, k);
  }

  lemma MoveTouches(cfg: Config, s: State, i: nat, k: nat)
    requires i in s.links && LinkAt(cfg, s, i) && MoveByte(s, i, s.links[i], k).Some?
    ensures var s' := MoveByte(s, i, s.links[i], k).value;
      MemStep(cfg, s, i, s'.mem) && LocalStep(s, i, s'.local) && MarksGrow(s, s')
  {
    OwnBuffer(cfg, s, i, MoveByte(s, i, s.links[i], k).value.mem,
              MoveByte(s, i, s.links[i], k).value.mem[s.links[i].op.remote]);
  }

  lemma KeptByMove(cfg: Config, s: State, i: nat, k: nat)
    requires Inv(cfg, s) && i in s.links && MoveByte(s, i, s.links[i], k).Some?
    ensures Inv(cfg, MoveByte(s, i, s.links[i], k).value)
  {
    var s' := MoveByte(s, i, s.links[i], k).value;
    var l, l' := s.links[i], s'.links[i];
    assert LinkAt(cfg, s, i);
    MoveData(cfg, s, i, k);
    MoveTouches(cfg, s, i, k);
    LocksUnchanged(cfg, s.flags, s.links, i, l');
    Assemble(cfg, s, i, l', s');
  }

  lemma OnlyHolder(cfg: Config, s: State, i: nat)
    requires Inv(cfg, s) && i in s.links
    ensures Holds(s.links[i]) ==> NoOtherHolder(s.links, i, s.links[i].ep.path)
  {
    if Holds(s.links[i]) {
      assert forall j | j in s.links && j != i :: !SameHeld(s.links[i], s.links[j]);
    }
  }

  lemma AllMovedCarries(moved: set<nat>, dst: Bytes, src: Bytes)
    requires MovedOk(moved, dst, src) && |src| <= |dst|
    requires forall k | 0 <= k < |src| :: k in moved
    ensures Carries(dst, src)
  {
    assert forall k | 0 <= k < |src| :: k in moved ==> dst[k] == src[k];
  }

  lemma FinishData(cfg: Config, s: State, i: nat, ok: bool)
    requires i in s.links && LinkAt(cfg, s, i) && FinishOp(s, i, s.links[i], ok).Some?
    ensures LinkAt(cfg, FinishOp(s, i, s.links[i], ok).value, i)
  {
    var l := s.links[i];
    if ok && i !in s.dirty && i !in s.shared {
      var far, near := s.mem[l.op.remote], s.local[l.cell];
      if l.ep.kind == Write && Holds(l) { AllMovedCarries(l.op.moved, far, l.left); }
      if l.ep.kind == Read && i !in s.cut { AllMovedCarries(l.op.moved, near, l.served); }
    }
  }

  lemma KeptByFinish(cfg: Config, s: State, i: nat, ok: bool)
    requires Inv(cfg, s) && i in s.links && FinishOp(s, i, s.links[i], ok).Some?
    ensures Inv(cfg, FinishOp(s, i, s.links[i], ok).value)
  {
    var s' := FinishOp(s, i, s.links[i], ok).value;
    var l, l' := s.links[i], s'.links[i];
    assert LinkAt(cfg, s, i);
    LocksUnchanged(cfg, s.flags, s.links, i, l');
    FinishData(cfg, s, i, ok);
    Assemble(cfg, s, i, l', s');
  }

  lemma RequestLink(cfg: Config, s: State, i: nat, connected: bool, exported: bool, handler: Handler)
    requires i in s.links && LinkAt(cfg, s, i)
    requires ServerRequest(cfg, s, i, s.links[i], connected, exported, handler).Some?
    ensures var s' := ServerRequest(cfg, s, i, s.links[i], connected, exported, handler).value;
      LinkAt(cfg, s', i) && PairStep(s, i, s'.links[i], s')
  {
    assert s.links[i].up == [Request(s.links[i].ep)];
  }

  lemma KeptByServerRequest(cfg: Config, s: State, i: nat, connected: bool, exported: bool, handler: Handler)
    requires Inv(cfg, s) && i in s.links
    requires ServerRequest(cfg, s, i, s.links[i], connected, exported, handler).Some?
    ensures Inv(cfg, ServerRequest(cfg, s, i, s.links[i], connected, exported, handler).value)
  {
    var s' := ServerRequest(cfg, s, i, s.links[i], connected, exported, handler).value;
    var l, l' := s.links[i], s'.links[i];
    assert LinkAt(cfg, s, i);
    assert l.up == [Request(l.ep)];
    RequestLink(cfg, s, i, connected, exported, handler);
    if connected && l.ep in cfg.buffer && exported && SomeFree(s.flags, l.ep.path) {
      NobodyHolds(cfg, s.flags, s.links, l.ep.path);
      OwnBuffer(cfg, s, i, s'.mem, handler.out);
      LocksTaken(cfg, s.flags, s.links, i, l', l.ep.path);
    } else {
      LocksUnchanged(cfg, s.flags, s.links, i, l');
    }
    Assemble(cfg, s, i, l', s');
  }

  lemma ReplyLink(cfg: Config, s: State, i: nat, delivered: bool, sent: bool)
    requires i in s.links && LinkAt(cfg, s, i)
    requires ServerReply(cfg, s, i, s.links[i], delivered, sent).Some?
    ensures var s' := ServerReply(cfg, s, i, s.links[i], delivered, sent).value;
      LinkAt(cfg, s', i) && PairStep(s, i, s'.links[i], s')
  {}

  lemma KeptByServerReply(cfg: Config, s: State, i: nat, delivered: bool, sent: bool)
    requires Inv(cfg, s) && i in s.links && ServerReply(cfg, s, i, s.links[i], delivered, sent).Some?
    ensures Inv(cfg, ServerReply(cfg, s, i, s.links[i], delivered, sent).value)
  {
    var s' := ServerReply(cfg, s, i, s.links[i], delivered, sent).value;
    var l, l' := s.links[i], s'.links[i];
    assert LinkAt(cfg, s, i);
    ReplyLink(cfg, s, i, delivered, sent);
    if l.server.code == ServiceError && sent {
      LocksGiven(cfg, s.flags, s.links, i, l', l.ep.path);
    } else {
      LocksUnchanged(cfg, s.flags, s.links, i, l');
    }
    Assemble(cfg, s, i, l', s');
  }

  lemma AckLink(cfg: Config, s: State, i: nat, handler: Handler)
    requires i in s.links && LinkAt(cfg, s, i)
    requires ServerAck(cfg, s, i, s.links[i], handler).Some?
    ensures var s' := ServerAck(cfg, s, i, s.links[i], handler).value;
      LinkAt(cfg, s', i) && PairStep(s, i, s'.links[i], s')
  {}

  lemma KeptByServerAck(cfg: Config, s: State, i: nat, handler: Handler)
    requires Inv(cfg, s) && i in s.links && ServerAck(cfg, s, i, s.links[i], handler).Some?
    ensures Inv(cfg, ServerAck(cfg, s, i, s.links[i], handler).value)
  {
    var s' := ServerAck(cfg, s, i, s.links[i], handler).value;
    var l, l' := s.links[i], s'.links[i];
    assert LinkAt(cfg, s, i);
    OnlyHolder(cfg, s, i);
    OwnBuffer(cfg, s, i, s'.mem, handler.out);
    AckLink(cfg, s, i, handler);
    LocksGiven(cfg, s.flags, s.links, i, l', l.ep.path);
    Assemble(cfg, s, i, l', s');
  }

  lemma KeptByServerAckLost(cfg: Config, s: State, i: nat)
    requires Inv(cfg, s) && i in s.links && ServerAckLost(s, i, s.links[i]).Some?
    ensures Inv(cfg, ServerAckLost(s, i, s.links[i]).value)
  {
    var s' := ServerAckLost(s, i, s.links[i]).value;
    var l, l' := s.links[i], s'.links[i];
    assert LinkAt(cfg, s, i);
    LocksGiven(cfg, s.flags, s.links, i, l', l.ep.path);
    Assemble(cfg, s, i, l', s');
  }

  lemma KeptByServerMisread(cfg: Config, s: State, i: nat)
    requires Inv(cfg, s) && i in s.links && ServerMisread(s, i, s.links[i]).Some?
    ensures Inv(cfg, ServerMisread(s, i, s.links[i]).value)
  {
    var s' := ServerMisread(s, i, s.links[i]).value;
    var l, l' := s.links[i], s'.links[i];
    assert LinkAt(cfg, s, i);
    LocksUnchanged(cfg, s.flags, s.links, i, l');
    Assemble(cfg, s, i, l', s');
  }

  lemma StoppedLink(cfg: Config, s: State, i: nat)
    requires i in s.links && LinkAt(cfg, s, i)
    ensures LinkAt(cfg, StopServing(s), i)
  {}

  lemma PairsStopped(s: State)
    requires CellsOk(s.links, s.shared) && CleanOk(s.links, s.dirty)
    ensures CellsOk(StopServing(s).links, s.shared) && CleanOk(StopServing(s).links, s.dirty)
  {
    var s' := StopServing(s);
    assert forall i | i in s.links :: InUse(s'.links[i]) == InUse(s.links[i]);
    assert forall i | i in s.links :: Holds(s'.links[i]) == Holds(s.links[i]);
    assert forall i | i in s.links :: CanStillWrite(s'.links[i]) == CanStillWrite(s.links[i]);
  }

  lemma LocksStopped(cfg: Config, flags: Flags, links: map<nat, Link>)
    requires LocksOk(cfg, flags, links)
    ensures LocksOk(cfg, flags, map i | i in links :: Stopped(links[i]))
  {
    var links' := map i | i in links :: Stopped(links[i]);
    assert forall i | i in links :: HeldPath(links'[i].server) == HeldPath(links[i].server);
    forall e | e in flags && flags[e]
      ensures exists j :: j in links' && HeldPath(links'[j].server) == Some(e.path)
    {
      var j :| j in links && HeldPath(links[j].server) == Some(e.path);
      assert HeldPath(links'[j].server) == Some(e.path);
    }
    forall i, j | i in links' && j in links' && SameHeld(links'[i], links'[j]) ensures i == j {
      assert SameHeld(links[i], links[j]);
    }
  }

  /** The return of `Serve` keeps the invariant: whoever held a path holds it for good. */
  lemma KeptByStop(cfg: Config, s: State)
    requires Inv(cfg, s)
    ensures Inv(cfg, StopServing(s))
  {
    LocksStopped(cfg, s.flags, s.links);
    PairsStopped(s);
    forall i | i in s.links ensures LinkAt(cfg, StopServing(s), i) {
      assert LinkAt(cfg, s, i);
      StoppedLink(cfg, s, i);
    }
  }

  lemma KeptByStep(cfg: Config, s: State, a: Action)
    requires Inv(cfg, s) && Next(cfg, s, a).Some?
    ensures Inv(cfg, Next(cfg, s, a).value)
  {
    match a
    case Open(i, ep, cell, init) => KeptByOpen(cfg, s, i, ep, cell, init);
    case Prepare(i, importOk, handler, submitOk) => KeptByPrepare(cfg, s, i, importOk, handler, submitOk);
    case ReadHandle(i, handler) => KeptByReadHandle(cfg, s, i, handler);
    case OpStart(i) => KeptByStart(cfg, s, i);
    case OpMove(i, k) => KeptByMove(cfg, s, i, k);
    case OpFinish(i, ok) => KeptByFinish(cfg, s, i, ok);
    case ServeReceiveError(_) =>
    case ServeRequest(i, connected, exported, handler) => KeptByServerRequest(cfg, s, i, connected, exported, handler);
    case ServeReply(i, delivered, sent) => KeptByServerReply(cfg, s, i, delivered, sent);
    case ServeAck(i, handler) => KeptByServerAck(cfg, s, i, handler);
    case ServeAckLost(i) => KeptByServerAckLost(cfg, s, i);
    case ServeMisread(i) => KeptByServerMisread(cfg, s, i);
    case ServeStops(_) => KeptByStop(cfg, s);
    case _ => KeptByClient(cfg, s, a);
  }

  lemma {:induction false} KeptByRun(cfg: Config, s: State, run: seq<Action>, s': State)
    requires Inv(cfg, s) && Run(cfg, s, run, s')
    ensures Inv(cfg, s')
    decreases run
  {
    if run != [] {
      KeptByStep(cfg, s, run[0]);
      KeptByRun(cfg, Next(cfg, s, run[0]).value, run[1..], s');
    }
  }

  lemma ReachableInv(cfg: Config, s: State)
    requires Reachable(cfg, s)
    ensures Inv(cfg, s)
  {
    var s0, run :| Initial(cfg, s0) && Run(cfg, s0, run, s);
    KeptByRun(cfg, s0, run, s);
  }
}
