/** What every step of the protocol keeps. */
module ProtocolInvariant {
  import opened EndpointTypes
  import opened LockFlags
  import opened SessionSteps
  import opened Protocol

  /** The server is inside its lock window, or left it by an error without unlocking. */
  ghost predicate Holds(l: Link) {
    HeldPath(l.server) == Some(l.ep.path)
  }

  /** The server waits for a request, or was stopped while it did or after it had failed. */
  predicate Idle(server: ServerPc) {
    server == AwaitRequest || server == Ended(None)
  }

  /** The window the client is working in is still there, unless a timer cut it short. */
  ghost predicate InWindow(cfg: Config, l: Link, cut: bool) {
    && l.ep in cfg.buffer
    && (|| (l.server == AwaitAck(l.ep))
        || (l.server == Ended(Some(l.ep.path)))
        || (Idle(l.server) && cut))
  }

  ghost predicate UpOk(cfg: Config, l: Link, cut: bool) {
    || l.up == []
    || (&& l.up == [Request(l.ep)] && l.down == []
        && Idle(l.server) && l.op == NoOp
        && (l.client == AwaitResponse || l.client == Closed))
    || (&& |l.up| == 1 && l.up[0].Ack? && l.down == []
        && (l.client == ReadHandling || l.client == Closed)
        && (InWindow(cfg, l, cut) || ((l.server == Misread || l.server == Ended(None)) && cut))
        && (l.up[0].code == Completed ==> l.op == Finished(true)))
  }

  ghost predicate DownOk(cfg: Config, l: Link, cut: bool) {
    || l.down == []
    || (&& |l.down| == 1 && l.up == [] && l.op == NoOp
        && (l.client == AwaitResponse || l.client == Closed)
        && if l.down[0].code == Permitted then
             && l.down[0].descriptor.Some? && l.ep in cfg.buffer
             && l.down[0].descriptor.value == cfg.buffer[l.ep]
             && (InWindow(cfg, l, cut) || (Idle(l.server) && l.client == Closed))
           else Idle(l.server) || l.server.Ended?)
  }

  ghost predicate ServerOk(cfg: Config, l: Link, cut: bool) {
    match l.server
    case AwaitRequest => true
    case Replying(req, code) =>
      && req == l.ep && l.up == [] && l.down == [] && l.op == NoOp
      && (l.client == AwaitResponse || l.client == Closed)
      && (code == Permitted || code == ServiceError || code == EndpointLocked ==> l.ep in cfg.buffer)
    case AwaitAck(req) =>
      && req == l.ep && l.ep in cfg.buffer && !l.ep.kind.Unknown? && l.client != Connected
      && (l.client == AwaitResponse ==> l.down != [])
    case Ended(leaked) => leaked.Some? ==> leaked.value == l.ep.path && l.ep in cfg.buffer
    case Misread => cut
  }

  ghost predicate ClientOk(cfg: Config, l: Link, cut: bool) {
    match l.client
    case Connected => Idle(l.server) && l.up == [] && l.down == [] && l.op == NoOp
    case AwaitResponse =>
      && l.op == NoOp
      && (l.up != [] || l.down != [] || l.server.Replying? || l.server.Ended?)
    case Granted(remote) =>
      && l.up == [] && l.down == [] && l.op == NoOp && InWindow(cfg, l, cut)
      && remote == cfg.buffer[l.ep]
    case Transferring => l.up == [] && l.down == [] && l.op != NoOp && InWindow(cfg, l, cut)
    case Acking(code) =>
      && l.up == [] && l.down == [] && InWindow(cfg, l, cut)
      && (code == Completed ==> l.op == Finished(true))
    case ReadHandling => l.ep in cfg.buffer && l.down == [] && l.op == Finished(true) && l.ep.kind == Read
    case Closed => true
  }

  ghost predicate OpOk(cfg: Config, l: Link, cut: bool) {
    OpPending(l) ==>
      && l.ep in cfg.buffer && l.op.remote == cfg.buffer[l.ep] && !l.ep.kind.Unknown?
      && l.down == []
      && (l.client == Transferring || cut)
  }

  /** Everything about one link that does not mention memory. */
  ghost predicate LinkOk(cfg: Config, l: Link, cut: bool) {
    && UpOk(cfg, l, cut)
    && DownOk(cfg, l, cut)
    && ServerOk(cfg, l, cut)
    && ClientOk(cfg, l, cut)
    && OpOk(cfg, l, cut)
  }

  ghost predicate SameHeld(l: Link, m: Link) {
    HeldPath(l.server).Some? && HeldPath(l.server) == HeldPath(m.server)
  }

  /** At most one link holds a path, and a path's flags are set exactly while one does. */
  ghost predicate LocksOk(cfg: Config, flags: Flags, links: map<nat, Link>) {
    && flags.Keys == cfg.buffer.Keys
    && (forall i, j | i in links && j in links && SameHeld(links[i], links[j]) :: i == j)
    && (forall e :: e in flags && flags[e] ==> exists i :: i in links && HeldPath(links[i].server) == Some(e.path))
    && (forall e, i :: e in flags && i in links && HeldPath(links[i].server) == Some(e.path) ==> flags[e])
  }

  /** Calls that use one client buffer together are recorded as sharing it. */
  ghost predicate CellsOk(links: map<nat, Link>, shared: set<nat>) {
    forall i, j | i in links && j in links && i != j && InUse(links[i]) && InUse(links[j]) ::
      links[i].cell != links[j].cell || i in shared
  }

  /** Nobody else can still write to a path whose holder is not recorded as dirty. */
  ghost predicate CleanOk(links: map<nat, Link>, dirty: set<nat>) {
    forall i, j | i in links && j in links && i != j && Holds(links[i]) && CanStillWrite(links[j]) ::
      links[j].ep.path != links[i].ep.path || i in dirty
  }

  /** `dst` begins with the bytes of `src`. */
  ghost predicate Carries(dst: Bytes, src: Bytes) {
    |src| <= |dst| && dst[..|src|] == src
  }

  ghost predicate MovedOk(moved: set<nat>, dst: Bytes, src: Bytes) {
    forall k :: k in moved ==> k < |src| && k < |dst| && dst[k] == src[k]
  }

  ghost predicate WriteDataOk(l: Link, far: Bytes, near: Bytes) {
    && (OpPending(l) ==> near == l.left)
    && (l.op.Moving? && Holds(l) ==> MovedOk(l.op.moved, far, l.left))
    && (l.op == Finished(true) && Holds(l) ==> Carries(far, l.left))
  }

  ghost predicate ReadDataOk(l: Link, near: Bytes) {
    && (l.op.Moving? ==> MovedOk(l.op.moved, near, l.served))
    && (l.op == Finished(true) && InUse(l) ==> Carries(near, l.served))
  }

  /** The bytes a link is responsible for: as long as it is not recorded as dirty those in the
      server's buffer, and as long as it does not share its client buffer those that arrive. */
  ghost predicate DataOk(cfg: Config, mem: map<nat, Bytes>, local: map<nat, Bytes>, l: Link, cut: bool, dirty: bool,
                         shared: bool)
  {
    && l.cell in local
    && (l.ep in cfg.buffer ==> cfg.buffer[l.ep] in mem)
    && (l.ep in cfg.buffer && !dirty ==>
         && (l.ep.kind == Read && Holds(l) ==> mem[cfg.buffer[l.ep]] == l.served)
         && (!shared && l.ep.kind == Write ==> WriteDataOk(l, mem[cfg.buffer[l.ep]], local[l.cell]))
         && (!shared && !cut && l.ep.kind == Read ==> ReadDataOk(l, local[l.cell])))
  }

  /** Everything about link `i` of a state. */
  ghost predicate LinkAt(cfg: Config, s: State, i: nat)
    requires i in s.links
  {
    && LinkOk(cfg, s.links[i], i in s.cut)
    && DataOk(cfg, s.mem, s.local, s.links[i], i in s.cut, i in s.dirty, i in s.shared)
  }

  ghost predicate Inv(cfg: Config, s: State) {
    && PathSeparated(cfg)
    && (forall e :: e in cfg.buffer ==> cfg.buffer[e] in s.mem)
    && (forall i :: i in s.links ==> LinkAt(cfg, s, i))
    && LocksOk(cfg, s.flags, s.links)
    && CellsOk(s.links, s.shared)
    && CleanOk(s.links, s.dirty)
  }
}
