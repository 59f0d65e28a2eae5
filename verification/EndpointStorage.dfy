/** `RdmaEndpointStorage`: endpoint identifiers, registration, lookup and the path lock, as
    the storage object carries them out on its map of stored endpoints. */
module EndpointStorage {
  import opened EndpointTypes
  import opened LockFlags
  import opened Buffers

  type EndpointId = string

  function EndpointTypeToString(kind: EndpointType): string {
    match kind
    case Write => "write"
    case Read => "read"
    case Unknown(_) => "unknown"
  }

  function MakeEndpointId(ep: Endpoint): EndpointId {
    EndpointTypeToString(ep.kind) + ":" + ep.path
  }

  /** Two endpoints share an identifier exactly when they are the same endpoint, or have one
      path and types that are both outside the enumeration. */
  lemma IdsCollide(e: Endpoint, f: Endpoint)
    ensures MakeEndpointId(e) == MakeEndpointId(f) <==>
      e == f || (e.path == f.path && e.kind.Unknown? && f.kind.Unknown?)
  {
    var a, b := MakeEndpointId(e), MakeEndpointId(f);
    assert a[0] == 'w' <==> e.kind == Write;
    assert a[0] == 'r' <==> e.kind == Read;
    assert b[0] == 'w' <==> f.kind == Write;
    assert b[0] == 'r' <==> f.kind == Read;
    var n := |EndpointTypeToString(e.kind)| + 1;
    assert a[n..] == e.path;
    if a == b {
      assert |EndpointTypeToString(f.kind)| + 1 == n;
      assert b[n..] == f.path;
    }
  }

  /** Registering on a path keeps its flags in agreement exactly when the path is not locked.
      On a locked path the new flag is free, so a second session would win the path. */
  lemma LateRegistration(flags: Flags, e: Endpoint)
    requires Agree(flags) && e !in flags
    ensures Agree(flags[e := false]) <==> !(exists f :: f in flags && f.path == e.path && flags[f])
    ensures SomeFree(flags[e := false], e.path)
  {
    var flags' := flags[e := false];
    assert e in flags' && !flags'[e];
    if f :| f in flags && f.path == e.path && flags[f] {
      assert flags'[f] != flags'[e];
    }
  }

  class StoredEndpoint {
    const endpoint: Endpoint
    const buffer: RdmaBuffer
    var endpointLocked: bool

    constructor (registered: RdmaEndpoint)
      ensures endpoint == registered.id && buffer == registered.buffer && !endpointLocked
    {
      endpoint, buffer := registered.id, registered.buffer;
      endpointLocked := false;
    }
  }

  class RdmaEndpointStorage {
    var endpointsMap: map<EndpointId, StoredEndpoint>

    constructor ()
      ensures Valid() && Flags() == map[] && endpointsMap == map[]
    {
      endpointsMap := map[];
    }

    ghost predicate Valid()
      reads this
    {
      forall id :: id in endpointsMap ==> id == MakeEndpointId(endpointsMap[id].endpoint)
    }

    ghost function Endpoints(): set<Endpoint>
      reads this
    {
      set id | id in endpointsMap :: endpointsMap[id].endpoint
    }

    /** The lock flag of every registered endpoint. */
    ghost function Flags(): Flags
      requires Valid()
      reads this, endpointsMap.Values
    {
      map e | e in Endpoints() :: endpointsMap[MakeEndpointId(e)].endpointLocked
    }

    lemma FlagsAt(id: EndpointId)
      requires Valid() && id in endpointsMap
      ensures endpointsMap[id].endpoint in Flags()
      ensures Flags()[endpointsMap[id].endpoint] == endpointsMap[id].endpointLocked
    {}

    /** `flags` describes the endpoints stored in `stored`. */
    static ghost predicate Describes(flags: Flags, stored: map<EndpointId, StoredEndpoint>)
      reads stored.Values
    {
      && (forall id :: id in stored ==>
            stored[id].endpoint in flags && flags[stored[id].endpoint] == stored[id].endpointLocked)
      && (forall e :: e in flags ==> exists id :: id in stored && stored[id].endpoint == e)
    }

    lemma FlagsDescribe(flags: Flags)
      requires Valid()
      ensures Describes(flags, endpointsMap) <==> flags == Flags()
    {
      forall id | id in endpointsMap ensures endpointsMap[id].endpoint in Flags() { FlagsAt(id); }
      if Describes(flags, endpointsMap) {
        forall e | e in flags ensures e in Flags() && Flags()[e] == flags[e] {
          var id :| id in endpointsMap && endpointsMap[id].endpoint == e;
          FlagsAt(id);
        }
      }
    }

    lemma OneMore(before: map<EndpointId, StoredEndpoint>, flags: Flags, id: EndpointId)
      requires Valid() && Describes(flags, before) && id !in before && id in endpointsMap
      requires endpointsMap == before[id := endpointsMap[id]] && !endpointsMap[id].endpointLocked
      requires endpointsMap[id].endpoint !in flags
      ensures Flags() == flags[endpointsMap[id].endpoint := false]
    {
      var flags' := flags[endpointsMap[id].endpoint := false];
      forall e | e in flags' ensures exists i :: i in endpointsMap && endpointsMap[i].endpoint == e {
        if e in flags {
          var i :| i in before && before[i].endpoint == e;
          assert endpointsMap[i].endpoint == e;
        }
      }
      FlagsDescribe(flags');
    }

    /** Whether a new endpoint's identifier is taken, said of the endpoint itself. */
    lemma IdTaken(e: Endpoint)
      requires Valid()
      ensures e in Flags() ==> MakeEndpointId(e) in endpointsMap
      ensures MakeEndpointId(e) in endpointsMap && !e.kind.Unknown? ==> e in Flags()
    {
      if MakeEndpointId(e) in endpointsMap {
        IdsCollide(endpointsMap[MakeEndpointId(e)].endpoint, e);
        FlagsAt(MakeEndpointId(e));
      }
    }

    /** Refuses a second endpoint with the same identifier; otherwise adds one entry, with the
        new endpoint, its own buffer and a free flag, and leaves every other entry as it is. */
    method RegisterEndpoint(registered: RdmaEndpoint) returns (ok: bool)
      requires Valid()
      modifies this
      ensures Valid()
      ensures ok <==> MakeEndpointId(registered.id) !in old(endpointsMap)
      ensures !registered.id.kind.Unknown? ==> (ok <==> registered.id !in old(Flags()))
      ensures Flags() == if ok then old(Flags())[registered.id := false] else old(Flags())
      ensures Buffers() == old(Buffers()) + if ok then {registered.buffer} else {}
      ensures endpointsMap.Keys == old(endpointsMap.Keys) + if ok then {MakeEndpointId(registered.id)} else {}
      ensures !ok ==> endpointsMap == old(endpointsMap)
      ensures var id := MakeEndpointId(registered.id);
        ok ==>
          && endpointsMap == old(endpointsMap)[id := endpointsMap[id]]
          && endpointsMap[id].endpoint == registered.id && endpointsMap[id].buffer == registered.buffer
          && fresh(endpointsMap[id]) && !endpointsMap[id].endpointLocked
    {
      var endpointId := MakeEndpointId(registered.id);
      IdTaken(registered.id);
      if endpointId in endpointsMap {
        return false;
      }
      ghost var before, flags := endpointsMap, Flags();
      FlagsDescribe(flags);
      var storedEndpoint := new StoredEndpoint(registered);
      endpointsMap := endpointsMap[endpointId := storedEndpoint];
      OneMore(before, flags, endpointId);
      MoreBuffers(before, endpointId);
      return true;
    }

    lemma MoreBuffers(before: map<EndpointId, StoredEndpoint>, id: EndpointId)
      requires id !in before && id in endpointsMap && endpointsMap == before[id := endpointsMap[id]]
      ensures Buffers() == (set i | i in before :: before[i].buffer) + {endpointsMap[id].buffer}
      ensures endpointsMap.Keys == before.Keys + {id}
    {
      forall i | i in before ensures before[i].buffer in Buffers() {
        assert endpointsMap[i].buffer == before[i].buffer;
      }
    }

    /** Lookup by an identifier made of a valid type finds the endpoint with exactly that path
        and type, and then the path is known to the lock. */
    method GetEndpoint(wanted: Endpoint) returns (r: Option<StoredEndpoint>)
      requires Valid()
      ensures r.Some? <==> MakeEndpointId(wanted) in endpointsMap
      ensures !wanted.kind.Unknown? ==> (r.Some? <==> wanted in Flags())
      ensures r.Some? ==> r.value in endpointsMap.Values && r.value.endpoint in Flags()
      ensures r.Some? ==> Known(Flags(), wanted.path) && r.value.endpoint.path == wanted.path
      ensures r.Some? ==> MakeEndpointId(r.value.endpoint) == MakeEndpointId(wanted)
      ensures r.Some? && !wanted.kind.Unknown? ==> r.value.endpoint == wanted
      ensures r.Some? ==> r.value == endpointsMap[MakeEndpointId(wanted)]
    {
      var endpointId := MakeEndpointId(wanted);
      if endpointId !in endpointsMap {
        return None;
      }
      IdsCollide(endpointsMap[endpointId].endpoint, wanted);
      FlagsAt(endpointId);
      return Some(endpointsMap[endpointId]);
    }

    ghost function Buffers(): set<RdmaBuffer>
      reads this
    {
      set id | id in endpointsMap :: endpointsMap[id].buffer
    }

    /** Maps each buffer, stopping at the first failure. A buffer shared by several endpoints
        is visited once for each and mapped once. `starts` are the buffers that DOCA maps. */
    method MapEndpointsMemory(starts: set<RdmaBuffer>) returns (ok: bool)
      requires Valid() && forall b :: b in Buffers() ==> b.Valid()
      modifies Buffers()
      ensures endpointsMap == old(endpointsMap) && Valid()
      ensures forall b :: b in Buffers() ==> b.Valid() && b.memoryRange == old(b.memoryRange)
      ensures forall b :: b in Buffers() ==> (old(b.mapped) ==> b.mapped)
      ensures ok <==> forall b :: b in Buffers() ==> b.mapped
      ensures ok <==>
        forall b :: b in Buffers() ==> old(b.mapped) || (old(b.memoryRange).Some? && b in starts)
      ensures forall b :: b in Buffers() && b.mapped ==> old(b.mapped) || b in starts
      ensures ok ==> forall b :: b in Buffers() ==> b.created == 1 && b.memoryRange.Some?
    {
      var todo := endpointsMap.Keys;
      while todo != {}
        invariant todo <= endpointsMap.Keys
        invariant forall b :: b in Buffers() ==> b.Valid() && b.memoryRange == old(b.memoryRange)
        invariant forall b :: b in Buffers() ==> (old(b.mapped) ==> b.mapped)
        invariant forall b :: b in Buffers() && b.mapped ==>
          old(b.mapped) || (old(b.memoryRange).Some? && b in starts)
        invariant forall id :: id in endpointsMap && id !in todo ==> endpointsMap[id].buffer.mapped
        decreases todo
      {
        var endpointId :| endpointId in todo;
        var buffer := endpointsMap[endpointId].buffer;
        assert buffer in Buffers();
        var mapped := buffer.MapMemory(buffer in starts);
        if !mapped {
          return false;
        }
        todo := todo - {endpointId};
      }
      return true;
    }

    /** Some endpoint on `path` outside `todo`; with `free`, one whose flag was not set. */
    ghost predicate Met(before: Flags, todo: set<EndpointId>, path: Path, free: bool)
      reads this
    {
      exists id :: id in endpointsMap && id !in todo && endpointsMap[id].endpoint.path == path
        && endpointsMap[id].endpoint in before && (free ==> !before[endpointsMap[id].endpoint])
    }

    /** The flags of the endpoints on `path` are `value`, except for those still in `todo`. */
    ghost predicate Visited(before: Flags, todo: set<EndpointId>, path: Path, value: bool)
      reads this, endpointsMap.Values
    {
      forall id :: id in endpointsMap ==>
        && endpointsMap[id].endpoint in before
        && endpointsMap[id].endpointLocked ==
             if endpointsMap[id].endpoint.path == path && id !in todo then value else before[endpointsMap[id].endpoint]
    }

    lemma AllVisited(before: Flags, path: Path, value: bool)
      requires Valid() && Visited(before, {}, path, value) && before.Keys == Endpoints()
      ensures Flags() == SetPath(before, path, value)
    {
      forall e | e in before
        ensures e in Flags() && Flags()[e] == SetPath(before, path, value)[e]
      {
        var id :| id in endpointsMap && endpointsMap[id].endpoint == e;
        FlagsAt(id);
      }
    }

    lemma AllMet(before: Flags, path: Path)
      requires Valid() && before.Keys == Endpoints()
      ensures Met(before, {}, path, false) <==> Known(before, path)
      ensures Met(before, {}, path, true) <==> SomeFree(before, path)
    {
      forall e | e in before ensures exists id :: id in endpointsMap && endpointsMap[id].endpoint == e {
      }
    }

    lemma NoneVisited(before: Flags, path: Path, value: bool)
      requires Valid() && before == Flags()
      ensures Visited(before, endpointsMap.Keys, path, value) && before.Keys == Endpoints()
      ensures !Met(before, endpointsMap.Keys, path, false) && !Met(before, endpointsMap.Keys, path, true)
    {
      forall id | id in endpointsMap ensures endpointsMap[id].endpoint in before {
        FlagsAt(id);
      }
      forall e | e in Endpoints() ensures e in before {
        var id :| id in endpointsMap && endpointsMap[id].endpoint == e;
        FlagsAt(id);
      }
    }

    lemma MetOneMore(before: Flags, todo: set<EndpointId>, path: Path, id: EndpointId, free: bool)
      requires id in todo && id in endpointsMap && endpointsMap[id].endpoint in before
      ensures Met(before, todo - {id}, path, free) <==>
        || Met(before, todo, path, free)
        || (endpointsMap[id].endpoint.path == path && (free ==> !before[endpointsMap[id].endpoint]))
    {}

    /** The section under one endpoint's mutex. */
    method LockOne(endpointId: EndpointId, path: Path, ghost before: Flags, ghost todo: set<EndpointId>)
      returns (met: bool, flipped: bool)
      requires Valid() && endpointId in endpointsMap && endpointId in todo && Visited(before, todo, path, true)
      modifies endpointsMap[endpointId]
      ensures Valid() && Visited(before, todo - {endpointId}, path, true)
      ensures met <==> endpointsMap[endpointId].endpoint.path == path
      ensures flipped <==> met && !before[endpointsMap[endpointId].endpoint]
    {
      var stored := endpointsMap[endpointId];
      assert forall id | id in endpointsMap && id != endpointId :: endpointsMap[id] != stored;
      met, flipped := stored.endpoint.path == path, false;
      if met && !stored.endpointLocked {
        stored.endpointLocked := true;
        flipped := true;
      }
    }

    method TryLockEndpointsByPath(path: Path) returns (wasLocked: bool, found: bool)
      requires Valid()
      modifies endpointsMap.Values
      ensures Valid() && endpointsMap == old(endpointsMap)
      ensures found <==> Known(old(Flags()), path)
      ensures wasLocked <==> SomeFree(old(Flags()), path)
      ensures Flags() == SetPath(old(Flags()), path, true)
    {
      ghost var before := Flags();
      NoneVisited(before, path, true);
      wasLocked, found := false, false;
      var todo := endpointsMap.Keys;
      while todo != {}
        invariant todo <= endpointsMap.Keys
        invariant Visited(before, todo, path, true)
        invariant found <==> Met(before, todo, path, false)
        invariant wasLocked <==> Met(before, todo, path, true)
        decreases todo
      {
        var endpointId :| endpointId in todo;
        MetOneMore(before, todo, path, endpointId, false);
        MetOneMore(before, todo, path, endpointId, true);
        var met, flipped := LockOne(endpointId, path, before, todo);
        wasLocked, found := wasLocked || flipped, found || met;
        todo := todo - {endpointId};
      }
      AllVisited(before, path, true);
      AllMet(before, path);
    }

    method UnlockEndpointsByPath(path: Path) returns (found: bool)
      requires Valid()
      modifies endpointsMap.Values
      ensures Valid() && endpointsMap == old(endpointsMap)
      ensures found <==> Known(old(Flags()), path)
      ensures Flags() == SetPath(old(Flags()), path, false)
    {
      ghost var before := Flags();
      NoneVisited(before, path, false);
      found := false;
      var todo := endpointsMap.Keys;
      while todo != {}
        invariant todo <= endpointsMap.Keys
        invariant Visited(before, todo, path, false)
        invariant found <==> Met(before, todo, path, false)
        decreases todo
      {
        var endpointId :| endpointId in todo;
        var stored := endpointsMap[endpointId];
        assert forall id | id in endpointsMap && id != endpointId :: endpointsMap[id] != stored;
        MetOneMore(before, todo, path, endpointId, false);
        if stored.endpoint.path == path {
          if stored.endpointLocked {
            stored.endpointLocked := false;
          }
          found := true;
        }
        todo := todo - {endpointId};
      }
      AllVisited(before, path, false);
      AllMet(before, path);
    }
  }
}
