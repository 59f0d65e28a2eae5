/** What the three marks of a state say about the run that led to it, and when there are none. */
module ProtocolMarks {
  import opened EndpointTypes
  import opened LockFlags
  import opened SessionSteps
  import opened Protocol
  import opened ProtocolInvariant
  import opened ProtocolProof
  import opened ProtocolTheorems

  /** The link whose wait this step cuts short while its other side is still at work. */
  function CutNow(s: State, a: Action): set<nat> {
    if a.at !in s.links || a.Open? then {}
    else if a.OpTimeout? then {a.at}
    else if a.ServeAckLost? && (s.links[a.at].client != Closed || s.links[a.at].up != []) then {a.at}
    else {}
  }

  /** The step wins the lock for its link. */
  ghost predicate Wins(cfg: Config, s: State, a: Action) {
    && a.ServeRequest? && a.at in s.links && Next(cfg, s, a).Some?
    && HeldPath(s.links[a.at].server).None? && HeldPath(Next(cfg, s, a).value.links[a.at].server).Some?
  }

  /** An abandoned operation: its wait was cut short and it can still write to a buffer of the
      path. */
  ghost predicate Haunted(s: State, path: Path) {
    exists j :: j in s.links && j in s.cut && s.links[j].ep.path == path && CanStillWrite(s.links[j])
  }

  ghost function DirtyNow(cfg: Config, s: State, a: Action): set<nat> {
    if Wins(cfg, s, a) && Haunted(s, s.links[a.at].ep.path) then {a.at} else {}
  }

  /** The calls that use one client buffer together from this step on. */
  function SharedNow(s: State, a: Action): set<nat> {
    if a.at !in s.links || !a.GetResponse? || s.links[a.at].down == [] then {} else
    var response := s.links[a.at].down[0];
    if response.code != Permitted || response.descriptor.None? || Rivals(s.links, a.at) == {} then {}
    else Rivals(s.links, a.at) + {a.at}
  }

  /** Whoever can still write to a path that is free had its wait cut short. */
  lemma StillWritingWasCut(cfg: Config, s: State, i: nat, path: Path)
    requires Inv(cfg, s) && i in s.links && s.links[i].ep.path == path
    requires HeldPath(s.links[i].server).None? && SomeFree(s.flags, path)
    ensures Unfinished(s.links, i, path) ==> Haunted(s, path)
    ensures Haunted(s, path) && !CanStillWrite(s.links[i]) ==> Unfinished(s.links, i, path)
  {
    NobodyHolds(cfg, s.flags, s.links, path);
    forall j | j in s.links && s.links[j].ep.path == path && CanStillWrite(s.links[j]) ensures j in s.cut {
      assert LinkAt(cfg, s, j);
    }
  }

  lemma CutMarks(cfg: Config, s: State, a: Action)
    requires Next(cfg, s, a).Some?
    ensures Next(cfg, s, a).value.cut == s.cut + CutNow(s, a)
  {}

  lemma SharedMarks(cfg: Config, s: State, a: Action)
    requires Next(cfg, s, a).Some?
    ensures Next(cfg, s, a).value.shared == s.shared + SharedNow(s, a)
  {}

  lemma CleanUnlessAsked(cfg: Config, s: State, a: Action)
    requires Next(cfg, s, a).Some? && !a.ServeRequest?
    ensures Next(cfg, s, a).value.dirty == s.dirty
  {}

  lemma WinsExactly(cfg: Config, s: State, a: Action)
    requires a.ServeRequest? && a.at in s.links && LinkAt(cfg, s, a.at) && Next(cfg, s, a).Some?
    ensures Wins(cfg, s, a) <==>
      a.connected && s.links[a.at].ep in cfg.buffer && a.exported && SomeFree(s.flags, s.links[a.at].ep.path)
    ensures HeldPath(s.links[a.at].server).None? && !CanStillWrite(s.links[a.at])
    ensures Next(cfg, s, a).value.dirty ==
      if Wins(cfg, s, a) && Unfinished(s.links, a.at, s.links[a.at].ep.path) then s.dirty + {a.at} else s.dirty
  {
    assert s.links[a.at].up == [Request(s.links[a.at].ep)];
  }

  lemma DirtyMarks(cfg: Config, s: State, a: Action)
    requires Inv(cfg, s) && Next(cfg, s, a).Some?
    ensures Next(cfg, s, a).value.dirty == s.dirty + DirtyNow(cfg, s, a)
  {
    if a.ServeRequest? {
      assert LinkAt(cfg, s, a.at);
      WinsExactly(cfg, s, a);
      if Wins(cfg, s, a) { StillWritingWasCut(cfg, s, a.at, s.links[a.at].ep.path); }
    } else {
      CleanUnlessAsked(cfg, s, a);
    }
  }

  ghost function CutBy(cfg: Config, s: State, run: seq<Action>): set<nat>
    decreases run
  {
    if run == [] || Next(cfg, s, run[0]).None? then {}
    else CutNow(s, run[0]) + CutBy(cfg, Next(cfg, s, run[0]).value, run[1..])
  }

  ghost function DirtyBy(cfg: Config, s: State, run: seq<Action>): set<nat>
    decreases run
  {
    if run == [] || Next(cfg, s, run[0]).None? then {}
    else DirtyNow(cfg, s, run[0]) + DirtyBy(cfg, Next(cfg, s, run[0]).value, run[1..])
  }

  ghost function SharedBy(cfg: Config, s: State, run: seq<Action>): set<nat>
    decreases run
  {
    if run == [] || Next(cfg, s, run[0]).None? then {}
    else SharedNow(s, run[0]) + SharedBy(cfg, Next(cfg, s, run[0]).value, run[1..])
  }

  lemma StepMarks(cfg: Config, s: State, a: Action)
    requires Inv(cfg, s) && Next(cfg, s, a).Some?
    ensures Next(cfg, s, a).value.cut == s.cut + CutNow(s, a)
    ensures Next(cfg, s, a).value.dirty == s.dirty + DirtyNow(cfg, s, a)
    ensures Next(cfg, s, a).value.shared == s.shared + SharedNow(s, a)
  {
    CutMarks(cfg, s, a);
    DirtyMarks(cfg, s, a);
    SharedMarks(cfg, s, a);
  }

  lemma Joined(a: set<nat>, b: set<nat>, c: set<nat>)
    ensures (a + b) + c == a + (b + c)
  {}

  /** The conditions of the data theorems say something about the run and nothing else. A link is
      cut exactly when its own wait was cut short, dirty exactly when it won its path while an
      abandoned operation could still write there, and shared exactly when it got, or another call
      got, a permission while both were using one client buffer. */
  lemma {:induction false} MarksAreHistory(cfg: Config, s: State, run: seq<Action>, s': State)
    requires Inv(cfg, s) && Run(cfg, s, run, s')
    ensures s'.cut == s.cut + CutBy(cfg, s, run)
    ensures s'.dirty == s.dirty + DirtyBy(cfg, s, run)
    ensures s'.shared == s.shared + SharedBy(cfg, s, run)
    decreases run
  {
    if run != [] {
      var next := Next(cfg, s, run[0]).value;
      StepMarks(cfg, s, run[0]);
      KeptByStep(cfg, s, run[0]);
      MarksAreHistory(cfg, next, run[1..], s');
      Joined(s.cut, CutNow(s, run[0]), CutBy(cfg, next, run[1..]));
      Joined(s.dirty, DirtyNow(cfg, s, run[0]), DirtyBy(cfg, next, run[1..]));
      Joined(s.shared, SharedNow(s, run[0]), SharedBy(cfg, next, run[1..]));
    }
  }

  // ------------------------------------------------------- where the conditions are met

  /** Links stay what they are. */
  ghost predicate LinksStay(links: map<nat, Link>, links': map<nat, Link>) {
    forall i :: i in links ==> i in links' && links'[i].ep == links[i].ep && links'[i].cell == links[i].cell
  }

  ghost predicate Grows(s: State, s': State) {
    MarksGrow(s, s') && LinksStay(s.links, s'.links)
  }

  lemma StepMarksGrow(cfg: Config, s: State, a: Action)
    requires Next(cfg, s, a).Some?
    ensures MarksGrow(s, Next(cfg, s, a).value)
  {}

  lemma StepLinksStay(cfg: Config, s: State, a: Action)
    requires Next(cfg, s, a).Some?
    ensures LinksStay(s.links, Next(cfg, s, a).value.links)
  {}

  lemma StepGrows(cfg: Config, s: State, a: Action)
    requires Next(cfg, s, a).Some?
    ensures Grows(s, Next(cfg, s, a).value)
  {
    StepMarksGrow(cfg, s, a);
    StepLinksStay(cfg, s, a);
  }

  lemma {:induction false} RunGrows(cfg: Config, s: State, run: seq<Action>, s': State)
    requires Run(cfg, s, run, s')
    ensures Grows(s, s')
    decreases run
  {
    if run != [] {
      StepGrows(cfg, s, run[0]);
      RunGrows(cfg, Next(cfg, s, run[0]).value, run[1..], s');
    }
  }

  /** A write session of the path had its wait cut short. */
  ghost predicate Blamed(s: State, path: Path) {
    exists j :: j in s.cut && j in s.links && s.links[j].ep.path == path && s.links[j].ep.kind == Write
  }

  ghost predicate DirtyHasCause(s: State) {
    forall i | i in s.dirty :: i in s.links && Blamed(s, s.links[i].ep.path)
  }

  lemma CauseCarriesOver(s: State, s': State, i: nat)
    requires Grows(s, s') && i in s.links && Blamed(s, s.links[i].ep.path)
    ensures i in s'.links && Blamed(s', s'.links[i].ep.path)
  {
    var j :| j in s.cut && j in s.links && s.links[j].ep.path == s.links[i].ep.path && s.links[j].ep.kind == Write;
    assert j in s'.cut && j in s'.links;
  }

  lemma CauseKept(cfg: Config, s: State, a: Action)
    requires Inv(cfg, s) && Next(cfg, s, a).Some? && DirtyHasCause(s)
    ensures DirtyHasCause(Next(cfg, s, a).value)
  {
    var s' := Next(cfg, s, a).value;
    StepGrows(cfg, s, a);
    DirtyMarks(cfg, s, a);
    forall i | i in s'.dirty ensures i in s'.links && Blamed(s', s'.links[i].ep.path) {
      CauseCarriesOver(s, s', i);
    }
  }

  lemma {:induction false} CauseKeptByRun(cfg: Config, s: State, run: seq<Action>, s': State)
    requires Inv(cfg, s) && DirtyHasCause(s) && Run(cfg, s, run, s')
    ensures DirtyHasCause(s')
    decreases run
  {
    if run != [] {
      KeptByStep(cfg, s, run[0]);
      CauseKept(cfg, s, run[0]);
      CauseKeptByRun(cfg, Next(cfg, s, run[0]).value, run[1..], s');
    }
  }

  /** One timeout harms no other path: on a path none of whose write sessions was cut, no
      session is ever dirty. */
  lemma CleanPaths(cfg: Config, s: State, i: nat)
    requires Reachable(cfg, s) && i in s.links && !Blamed(s, s.links[i].ep.path)
    ensures i !in s.dirty
  {
    var s0, run :| Initial(cfg, s0) && Run(cfg, s0, run, s);
    CauseKeptByRun(cfg, s0, run, s);
  }

  /** The link's one request has not been taken up yet. */
  predicate Unserved(l: Link) {
    l.client == Connected || (l.up != [] && l.up[0].Request?)
  }

  ghost predicate UnservedClean(s: State) {
    forall i | i in s.dirty :: i in s.links && !Unserved(s.links[i])
  }

  /** A link is served once. */
  lemma ServedStays(cfg: Config, s: State, a: Action, i: nat)
    requires Next(cfg, s, a).Some? && i in s.links && !Unserved(s.links[i]) && |s.links[i].up| <= 1
    ensures i in Next(cfg, s, a).value.links && !Unserved(Next(cfg, s, a).value.links[i])
  {}

  lemma WinnerServed(cfg: Config, s: State, a: Action)
    requires Wins(cfg, s, a) && LinkAt(cfg, s, a.at)
    ensures Unserved(s.links[a.at]) && !Unserved(Next(cfg, s, a).value.links[a.at])
  {}

  lemma OneWaiting(cfg: Config, l: Link, cut: bool)
    requires LinkOk(cfg, l, cut)
    ensures |l.up| <= 1
  {}

  lemma CleanOrServed(cfg: Config, s: State, a: Action, i: nat)
    requires Inv(cfg, s) && Next(cfg, s, a).Some? && UnservedClean(s) && i in s.dirty + DirtyNow(cfg, s, a)
    ensures i in Next(cfg, s, a).value.links && !Unserved(Next(cfg, s, a).value.links[i])
  {
    assert LinkAt(cfg, s, i);
    OneWaiting(cfg, s.links[i], i in s.cut);
    if i in s.dirty { ServedStays(cfg, s, a, i); } else { WinnerServed(cfg, s, a); }
  }

  lemma UnservedKept(cfg: Config, s: State, a: Action)
    requires Inv(cfg, s) && Next(cfg, s, a).Some? && UnservedClean(s)
    ensures UnservedClean(Next(cfg, s, a).value)
  {
    var s' := Next(cfg, s, a).value;
    DirtyMarks(cfg, s, a);
    forall i | i in s'.dirty ensures i in s'.links && !Unserved(s'.links[i]) {
      CleanOrServed(cfg, s, a, i);
    }
  }

  lemma {:induction false} UnservedKeptByRun(cfg: Config, s: State, run: seq<Action>, s': State)
    requires Inv(cfg, s) && UnservedClean(s) && Run(cfg, s, run, s')
    ensures UnservedClean(s')
    decreases run
  {
    if run != [] {
      KeptByStep(cfg, s, run[0]);
      UnservedKept(cfg, s, run[0]);
      UnservedKeptByRun(cfg, Next(cfg, s, run[0]).value, run[1..], s');
    }
  }

  /** The session that wins a path is dirty from then on exactly when an abandoned operation can
      still write there: one that wins a path with no work left over is not, whatever was cut
      before. */
  lemma WinnerIsDirtyExactly(cfg: Config, s: State, a: Action)
    requires Reachable(cfg, s) && Wins(cfg, s, a)
    ensures a.at in Next(cfg, s, a).value.dirty <==> Haunted(s, s.links[a.at].ep.path)
  {
    var s0, run :| Initial(cfg, s0) && Run(cfg, s0, run, s);
    ReachableInv(cfg, s);
    UnservedKeptByRun(cfg, s0, run, s);
    assert LinkAt(cfg, s, a.at);
    WinnerServed(cfg, s, a);
    DirtyMarks(cfg, s, a);
  }

  lemma WriterHolds(cfg: Config, s: State, i: nat)
    requires i in s.links && LinkAt(cfg, s, i) && i !in s.cut && s.links[i].ep.kind == Write && InUse(s.links[i])
    ensures Holds(s.links[i])
  {}

  /** The lock protects the client's buffer too: of the write sessions of one path that were not
      cut, at most one is using its buffer. */
  lemma WritersTakeTurns(cfg: Config, s: State, i: nat, j: nat)
    requires Inv(cfg, s) && i in s.links && j in s.links && i !in s.cut && j !in s.cut
    requires s.links[i].ep.kind == Write && s.links[j].ep.kind == Write && s.links[i].ep.path == s.links[j].ep.path
    requires InUse(s.links[i]) && InUse(s.links[j])
    ensures i == j
  {
    assert LinkAt(cfg, s, i) && LinkAt(cfg, s, j);
    WriterHolds(cfg, s, i);
    WriterHolds(cfg, s, j);
    assert SameHeld(s.links[i], s.links[j]);
  }

  /** A client buffer used by more than one call belongs to the write calls of one path, as it
      does where endpoints get one buffer for each path and are only written. */
  ghost predicate WriteBuffers(links: map<nat, Link>) {
    forall i, j | i in links && j in links && i != j && links[i].cell == links[j].cell ::
      links[i].ep.path == links[j].ep.path && links[i].ep.kind == Write && links[j].ep.kind == Write
  }

  lemma NoRivals(cfg: Config, s: State, i: nat)
    requires Inv(cfg, s) && s.cut == {} && WriteBuffers(s.links) && i in s.links && InUse(s.links[i])
    ensures Rivals(s.links, i) == {}
  {
    forall j | j in s.links && j != i && s.links[j].cell == s.links[i].cell ensures !InUse(s.links[j]) {
      if InUse(s.links[j]) {
        WritersTakeTurns(cfg, s, i, j);
        assert false;
      }
    }
  }

  lemma RivalsStay(cfg: Config, s: State, i: nat)
    requires i in s.links && ClientGetResponse(s, i, s.links[i]).Some?
    ensures var s' := ClientGetResponse(s, i, s.links[i]).value;
      && s'.cut == s.cut && i in s'.links && Rivals(s'.links, i) == Rivals(s.links, i)
      && (SharedNow(s, GetResponse(i)) != {} ==> InUse(s'.links[i]))
      && (WriteBuffers(s.links) ==> WriteBuffers(s'.links))
  {}

  lemma NoneSharesNow(cfg: Config, s: State, a: Action)
    requires Inv(cfg, s) && Next(cfg, s, a).Some? && s.cut == {} && WriteBuffers(s.links)
    ensures SharedNow(s, a) == {}
  {
    if a.GetResponse? && SharedNow(s, a) != {} {
      RivalsStay(cfg, s, a.at);
      KeptByStep(cfg, s, a);
      NoRivals(cfg, Next(cfg, s, a).value, a.at);
    }
  }

  lemma {:induction false} NothingMarked(cfg: Config, s: State, run: seq<Action>, s': State)
    requires Inv(cfg, s) && Run(cfg, s, run, s') && s'.cut == {} && WriteBuffers(s'.links)
    requires s.dirty == {} && s.shared == {}
    ensures s'.dirty == {} && s'.shared == {}
    decreases run
  {
    if run != [] {
      var next := Next(cfg, s, run[0]).value;
      RunGrows(cfg, s, run, s');
      StepGrows(cfg, s, run[0]);
      KeptByStep(cfg, s, run[0]);
      DirtyMarks(cfg, s, run[0]);
      NoneSharesNow(cfg, s, run[0]);
      SharedMarks(cfg, s, run[0]);
      NothingMarked(cfg, next, run[1..], s');
    }
  }

  /** The end-to-end promise without any mark: when no wait was cut short and each client buffer
      is used by the write calls of one path only, a write handler reached by an
      `operationCompleted` acknowledge sees what the client's handler left, however many calls
      contend for the path. */
  lemma WritesAreSafe(cfg: Config, s: State, i: nat, handler: Handler)
    requires Reachable(cfg, s) && s.cut == {} && WriteBuffers(s.links)
    requires i in s.links && ServerAck(cfg, s, i, s.links[i], handler).Some?
    requires s.links[i].up[0] == Ack(Completed) && s.links[i].ep.kind == Write
    ensures s.links[i].ep in cfg.buffer && cfg.buffer[s.links[i].ep] in s.mem
    ensures Carries(s.mem[cfg.buffer[s.links[i].ep]], s.links[i].left)
  {
    var s0, run :| Initial(cfg, s0) && Run(cfg, s0, run, s);
    NothingMarked(cfg, s0, run, s);
    WriteHandlerSeesClientBytes(cfg, s, i, handler);
  }
}
