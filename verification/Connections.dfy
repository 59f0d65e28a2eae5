/** The executor's two connection slots under the callbacks DOCA makes and the connections the
    executor opens itself. */
module Connections {
  import opened EndpointTypes

  /** `activeConnection` and `requestedConnection`. */
  datatype Slots = Slots(active: Option<nat>, requested: Option<nat>)

  /** Three callbacks, and `ConnectToAddress`, which opens a connection without touching a slot. */
  datatype Event =
    | Requested(id: nat, acceptOk: bool)
    | Established(id: nat)
    | ConnectionClosed(id: nat)
    | Connecting(id: nat)

  predicate Takes(s: Slots) {
    s.active == None && s.requested == None
  }

  function After(s: Slots, e: Event): Slots {
    match e
    case Requested(id, _) => if Takes(s) then s.(requested := Some(id)) else s
    case Established(id) => if s.active.Some? then s else Slots(Some(id), None)
    case ConnectionClosed(_) => s.(active := None)
    case Connecting(_) => s
  }

  /** The slots together with the connections that were accepted or opened and are not yet
      closed, and the one that was opened here and is not yet established. */
  datatype World = World(slots: Slots, live: set<nat>, outgoing: Option<nat>)

  const START := World(Slots(None, None), {}, None)

  function Next(w: World, e: Event): World {
    var slots := After(w.slots, e);
    var accepts := e.Requested? && Takes(w.slots) && e.acceptOk;
    var settled := if w.outgoing == Some(e.id) then None else w.outgoing;
    match e
    case Requested(id, _) => World(slots, if accepts then w.live + {id} else w.live, w.outgoing)
    case Established(_) => World(slots, w.live, settled)
    case ConnectionClosed(id) => World(slots, w.live - {id}, settled)
    case Connecting(id) => World(slots, w.live + {id}, Some(id))
  }

  /** Requests and calls bring new connections: an executor that opens one has none yet, and is
      asked for none meanwhile. The other callbacks come for live connections only. */
  predicate Legal(w: World, e: Event) {
    match e
    case Requested(id, _) => id !in w.live && w.outgoing == None
    case Connecting(id) => w.live == {}
    case Established(id) => id in w.live
    case ConnectionClosed(id) => id in w.live
  }

  ghost predicate Run(w: World, run: seq<Event>, w': World)
    decreases run
  {
    if run == [] then w == w' else Legal(w, run[0]) && Run(Next(w, run[0]), run[1..], w')
  }

  /** At most one connection is live; it is the active one, or nothing is active and it is the
      requested one or the one being opened. */
  ghost predicate Single(w: World) {
    && (forall c, d :: c in w.live && d in w.live ==> c == d)
    && (w.slots.active.Some? ==> w.slots.active.value in w.live && w.slots.requested == None && w.outgoing == None)
    && (w.outgoing.Some? ==> w.outgoing.value in w.live)
    && (forall c :: c in w.live ==>
          || w.slots.active == Some(c)
          || (w.slots.active == None && (w.slots.requested == Some(c) || w.outgoing == Some(c))))
  }

  // ------------------------------------------- what each event needs to keep the slots right

  /** A request for a new connection does harm exactly when it is accepted while a connection of
      the executor's own is being set up: the slots do not tell. */
  lemma RequestKeeps(w: World, id: nat, acceptOk: bool)
    requires Single(w) && id !in w.live
    ensures Single(Next(w, Requested(id, acceptOk))) <==> !(Takes(w.slots) && acceptOk && w.outgoing.Some?)
  {
    if Takes(w.slots) && acceptOk && w.outgoing.Some? {
      assert {id, w.outgoing.value} <= Next(w, Requested(id, acceptOk)).live;
    }
  }

  /** Nothing in the callback asks which connection was established. */
  lemma EstablishedKeeps(w: World, id: nat)
    requires Single(w)
    ensures Single(Next(w, Established(id))) <==> w.slots.active.Some? || id in w.live
  {}

  /** The close callback ignores its argument: it keeps the slots right exactly for a live
      identifier or when none is active. */
  lemma StrayClose(w: World, id: nat)
    requires Single(w)
    ensures Single(Next(w, ConnectionClosed(id))) <==> id in w.live || w.slots.active == None
  {
    if w.slots.active.Some? && id !in w.live {
      assert w.slots.active.value in Next(w, ConnectionClosed(id)).live;
    }
  }

  /** And `ConnectToAddress` does not look at the slots either. */
  lemma ConnectingKeeps(w: World, id: nat)
    requires Single(w) && id !in w.live
    ensures Single(Next(w, Connecting(id))) <==> w.live == {}
  {
    var w' := Next(w, Connecting(id));
    if c :| c in w.live {
      assert c in w'.live && id in w'.live;
    }
  }

  lemma {:induction false} SingleLiveConnection(w: World, run: seq<Event>, w': World)
    requires Single(w) && Run(w, run, w')
    ensures Single(w')
    decreases run
  {
    if run != [] {
      match run[0] {
        case Requested(id, acceptOk) => RequestKeeps(w, id, acceptOk);
        case Established(id) => EstablishedKeeps(w, id);
        case ConnectionClosed(id) => StrayClose(w, id);
        case Connecting(id) => ConnectingKeeps(w, id);
      }
      SingleLiveConnection(Next(w, run[0]), run[1..], w');
    }
  }

  /** After a stray close a second connection is accepted while the first is still live. */
  lemma StrayCloseAdmitsSecond(w: World, id: nat, other: nat)
    requires Single(w) && w.slots.active.Some? && id !in w.live && other !in w.live
    ensures var w' := Next(Next(w, ConnectionClosed(id)), Requested(other, true));
      {w.slots.active.value, other} <= w'.live && w.slots.active.value != other
  {}

  // ------------------------------------------------------------ a request slot left behind

  /** The request slot names a connection that is gone. */
  ghost predicate Wedged(w: World) {
    w.slots.requested.Some? && w.slots.requested.value !in w.live
  }

  /** Steps that leave the request slot behind: accepting failed, or the accepted connection
      closed before it was established. */
  predicate Wedges(w: World, e: Event) {
    (e.Requested? && Takes(w.slots) && !e.acceptOk) || (e.ConnectionClosed? && w.slots.requested == Some(e.id))
  }

  /** Only the establishment of a connection the executor opened itself clears the slot again. */
  lemma WedgedExactly(w: World, e: Event)
    requires Single(w) && Legal(w, e)
    requires e.Connecting? ==> w.slots.requested != Some(e.id)
    ensures Wedged(Next(w, e)) <==> Wedges(w, e) || (Wedged(w) && !e.Established?)
    ensures Wedged(w) && e.Established? ==> w.outgoing == Some(e.id)
  {}

  ghost predicate SomeWedge(w: World, run: seq<Event>)
    decreases run
  {
    run != [] && (Wedges(w, run[0]) || SomeWedge(Next(w, run[0]), run[1..]))
  }

  /** An executor that only listens takes a new connection whenever none is live exactly until a
      connection is lost between its request and its establishment; from then on it takes none,
      ever. */
  lemma {:induction false} TakesUntilWedged(w: World, run: seq<Event>, w': World)
    requires Single(w) && Run(w, run, w') && w.outgoing == None && forall e | e in run :: !e.Connecting?
    ensures Wedged(w') <==> Wedged(w) || SomeWedge(w, run)
    ensures w'.live == {} ==> (Takes(w'.slots) <==> !Wedged(w'))
    ensures Wedged(w') ==> !Takes(w'.slots)
    decreases run
  {
    if run != [] {
      SingleLiveConnection(w, [run[0]], Next(w, run[0])) by { assert [run[0]][1..] == []; }
      WedgedExactly(w, run[0]);
      TakesUntilWedged(Next(w, run[0]), run[1..], w');
    }
  }
}
