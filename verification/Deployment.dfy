/** Registering a list of endpoints with the server, and the link from there to the machine:
    what the sample creates and the server registers is an initial state of the protocol. */
module Deployment {
  import opened EndpointTypes
  import opened LockFlags
  import opened Buffers
  import opened EndpointStorage
  import opened Protocol

  /** No identifier in the list is taken or repeated. */
  predicate Acceptable(taken: set<EndpointId>, endpoints: seq<RdmaEndpoint>) {
    && (forall i :: 0 <= i < |endpoints| ==> MakeEndpointId(endpoints[i].id) !in taken)
    && (forall i, j :: 0 <= i < j < |endpoints| ==>
          MakeEndpointId(endpoints[i].id) != MakeEndpointId(endpoints[j].id))
  }

  /** How many endpoints of the list are registered before an identifier is found taken. */
  function Accepted(taken: set<EndpointId>, endpoints: seq<RdmaEndpoint>): (count: nat)
    ensures count <= |endpoints|
    decreases |endpoints|
  {
    if endpoints == [] || MakeEndpointId(endpoints[0].id) in taken then 0
    else 1 + Accepted(taken + {MakeEndpointId(endpoints[0].id)}, endpoints[1..])
  }

  lemma AcceptableStep(taken: set<EndpointId>, endpoints: seq<RdmaEndpoint>)
    requires endpoints != []
    ensures Acceptable(taken, endpoints) <==>
      && MakeEndpointId(endpoints[0].id) !in taken
      && Acceptable(taken + {MakeEndpointId(endpoints[0].id)}, endpoints[1..])
  {
    var rest := endpoints[1..];
    if Acceptable(taken, endpoints) {
      forall i | 0 <= i < |rest| ensures MakeEndpointId(rest[i].id) !in taken + {MakeEndpointId(endpoints[0].id)} {
        assert rest[i] == endpoints[i + 1];
      }
    }
    if Acceptable(taken + {MakeEndpointId(endpoints[0].id)}, rest) {
      forall i | 1 <= i < |endpoints|
        ensures MakeEndpointId(endpoints[i].id) !in taken + {MakeEndpointId(endpoints[0].id)}
      {
        assert rest[i - 1] == endpoints[i];
      }
      forall i, j | 1 <= i < j < |endpoints|
        ensures MakeEndpointId(endpoints[i].id) != MakeEndpointId(endpoints[j].id)
      {
        assert rest[i - 1] == endpoints[i] && rest[j - 1] == endpoints[j];
      }
    }
  }

  /** What is registered is the longest acceptable prefix: the whole list exactly when it is
      acceptable. */
  lemma {:induction false} LongestPrefix(taken: set<EndpointId>, endpoints: seq<RdmaEndpoint>, n: nat)
    requires n <= |endpoints|
    ensures Acceptable(taken, endpoints[..n]) <==> n <= Accepted(taken, endpoints)
    decreases n
  {
    if n > 0 {
      AcceptableStep(taken, endpoints[..n]);
      assert endpoints[..n][1..] == endpoints[1..][..n - 1];
      if MakeEndpointId(endpoints[0].id) !in taken {
        LongestPrefix(taken + {MakeEndpointId(endpoints[0].id)}, endpoints[1..], n - 1);
      }
    }
  }

  /** `flags` and one free flag for each endpoint. */
  function WithFree(flags: Flags, endpoints: seq<RdmaEndpoint>): Flags {
    if endpoints == [] then flags
    else WithFree(flags, endpoints[..|endpoints| - 1])[endpoints[|endpoints| - 1].id := false]
  }

  lemma OneMoreFlag(flags: Flags, endpoints: seq<RdmaEndpoint>, k: nat)
    requires k < |endpoints|
    ensures WithFree(flags, endpoints[..k + 1]) == WithFree(flags, endpoints[..k])[endpoints[k].id := false]
  {
    assert endpoints[..k + 1][..k] == endpoints[..k];
  }

  /** The first `n` endpoints of the list are stored under their identifiers, each with the buffer
      of its own list entry. */
  ghost predicate Stores(stored: map<EndpointId, StoredEndpoint>, endpoints: seq<RdmaEndpoint>, n: nat)
    requires n <= |endpoints|
  {
    forall k :: 0 <= k < n ==>
      && MakeEndpointId(endpoints[k].id) in stored
      && stored[MakeEndpointId(endpoints[k].id)].endpoint == endpoints[k].id
      && stored[MakeEndpointId(endpoints[k].id)].buffer == endpoints[k].buffer
  }

  /** What was stored before is left alone, and besides it there are these and no others. */
  ghost predicate Extends(before: map<EndpointId, StoredEndpoint>, stored: map<EndpointId, StoredEndpoint>,
                          endpoints: seq<RdmaEndpoint>, n: nat)
    requires n <= |endpoints|
  {
    && Stores(stored, endpoints, n)
    && (forall id :: id in before ==> id in stored && stored[id] == before[id])
    && (forall id :: id in stored && id !in before ==>
          exists k :: 0 <= k < n && id == MakeEndpointId(endpoints[k].id))
  }

  lemma OneMoreStored(before: map<EndpointId, StoredEndpoint>, stored: map<EndpointId, StoredEndpoint>,
                      endpoints: seq<RdmaEndpoint>, n: nat, one: StoredEndpoint)
    requires n < |endpoints| && Extends(before, stored, endpoints, n)
    requires MakeEndpointId(endpoints[n].id) !in stored
    requires one.endpoint == endpoints[n].id && one.buffer == endpoints[n].buffer
    ensures Extends(before, stored[MakeEndpointId(endpoints[n].id) := one], endpoints, n + 1)
  {}

  /** The first `k` endpoints of the list are registered, in a storage that held `before` with
      these flags. */
  ghost predicate Registered(storage: RdmaEndpointStorage, endpoints: seq<RdmaEndpoint>, k: nat, flags: Flags,
                             before: map<EndpointId, StoredEndpoint>)
    requires k <= |endpoints|
    reads storage, storage.endpointsMap.Values
  {
    && storage.Valid()
    && Accepted(before.Keys, endpoints) == k + Accepted(storage.endpointsMap.Keys, endpoints[k..])
    && storage.Flags() == WithFree(flags, endpoints[..k])
    && Extends(before, storage.endpointsMap, endpoints, k)
  }

  /** One turn of the loop below. */
  method RegisterNext(storage: RdmaEndpointStorage, endpoints: seq<RdmaEndpoint>, k: nat, ghost flags: Flags,
                      ghost before: map<EndpointId, StoredEndpoint>) returns (ok: bool)
    requires k < |endpoints| && Registered(storage, endpoints, k, flags, before)
    modifies storage
    ensures Registered(storage, endpoints, if ok then k + 1 else k, flags, before)
    ensures !ok ==> Accepted(before.Keys, endpoints) == k
  {
    OneMoreFlag(flags, endpoints, k);
    assert endpoints[k..][1..] == endpoints[k + 1..];
    ghost var stored := storage.endpointsMap;
    ok := storage.RegisterEndpoint(endpoints[k]);
    if ok {
      OneMoreStored(before, stored, endpoints, k, storage.endpointsMap[MakeEndpointId(endpoints[k].id)]);
    }
  }

  /** Endpoints are registered in order up to the first identifier that is already taken, and
      those before it stay registered; what was registered before is left alone. */
  method RegisterEndpoints(storage: RdmaEndpointStorage, endpoints: seq<RdmaEndpoint>) returns (ok: bool)
    requires storage.Valid()
    modifies storage
    ensures storage.Valid()
    ensures ok <==> Accepted(old(storage.endpointsMap.Keys), endpoints) == |endpoints|
    ensures storage.Flags() ==
      WithFree(old(storage.Flags()), endpoints[..Accepted(old(storage.endpointsMap.Keys), endpoints)])
    ensures Extends(old(storage.endpointsMap), storage.endpointsMap, endpoints,
                    Accepted(old(storage.endpointsMap.Keys), endpoints))
  {
    ghost var before, flags := storage.endpointsMap, storage.Flags();
    for k := 0 to |endpoints|
      invariant Registered(storage, endpoints, k, flags, before)
    {
      var registered := RegisterNext(storage, endpoints, k, flags, before);
      if !registered {
        return false;
      }
    }
    assert endpoints[..|endpoints|] == endpoints;
    return true;
  }

  /** The server buffer of each endpoint, by a numbering of the buffer objects. */
  function BufferMap(endpoints: seq<RdmaEndpoint>, number: map<RdmaBuffer, nat>): map<Endpoint, nat>
    requires forall k | 0 <= k < |endpoints| :: endpoints[k].buffer in number
  {
    if endpoints == [] then map[]
    else
      var last := endpoints[|endpoints| - 1];
      BufferMap(endpoints[..|endpoints| - 1], number)[last.id := number[last.buffer]]
  }

  /** Endpoint `e` has the buffer of this number. */
  ghost predicate HasNumber(endpoints: seq<RdmaEndpoint>, number: map<RdmaBuffer, nat>, e: Endpoint, n: nat)
    requires forall k | 0 <= k < |endpoints| :: endpoints[k].buffer in number
  {
    exists k :: 0 <= k < |endpoints| && endpoints[k].id == e && number[endpoints[k].buffer] == n
  }

  lemma {:induction false} BufferMapEntries(endpoints: seq<RdmaEndpoint>, number: map<RdmaBuffer, nat>)
    requires forall k | 0 <= k < |endpoints| :: endpoints[k].buffer in number
    ensures BufferMap(endpoints, number).Keys == WithFree(map[], endpoints).Keys
    ensures forall e | e in WithFree(map[], endpoints) :: !WithFree(map[], endpoints)[e]
    ensures forall e | e in BufferMap(endpoints, number) ::
      HasNumber(endpoints, number, e, BufferMap(endpoints, number)[e])
  {
    if endpoints != [] {
      var n := |endpoints| - 1;
      BufferMapEntries(endpoints[..n], number);
      forall e | e in BufferMap(endpoints, number)
        ensures HasNumber(endpoints, number, e, BufferMap(endpoints, number)[e])
      {
        if e == endpoints[n].id {
        } else {
          var b := BufferMap(endpoints[..n], number)[e];
          assert HasNumber(endpoints[..n], number, e, b);
          var k :| 0 <= k < n && endpoints[..n][k].id == e && number[endpoints[..n][k].buffer] == b;
          assert endpoints[k].id == e;
        }
      }
    }
  }

  /** The numbering describes the storage: the buffer an endpoint is looked up with, by its
      identifier, is the one whose number the protocol uses. */
  lemma BufferMapDescribes(storage: RdmaEndpointStorage, endpoints: seq<RdmaEndpoint>, number: map<RdmaBuffer, nat>)
    requires Stores(storage.endpointsMap, endpoints, |endpoints|)
    requires forall k | 0 <= k < |endpoints| :: endpoints[k].buffer in number
    ensures forall e | e in BufferMap(endpoints, number) ::
      && MakeEndpointId(e) in storage.endpointsMap
      && storage.endpointsMap[MakeEndpointId(e)].endpoint == e
      && storage.endpointsMap[MakeEndpointId(e)].buffer in number
      && BufferMap(endpoints, number)[e] == number[storage.endpointsMap[MakeEndpointId(e)].buffer]
  {
    BufferMapEntries(endpoints, number);
    forall e | e in BufferMap(endpoints, number)
      ensures MakeEndpointId(e) in storage.endpointsMap && storage.endpointsMap[MakeEndpointId(e)].endpoint == e
      ensures storage.endpointsMap[MakeEndpointId(e)].buffer in number
      ensures BufferMap(endpoints, number)[e] == number[storage.endpointsMap[MakeEndpointId(e)].buffer]
    {
      assert HasNumber(endpoints, number, e, BufferMap(endpoints, number)[e]);
    }
  }

  /** Endpoints that share buffers by path only, registered and given distinct buffer numbers,
      make an initial state of the protocol, whatever the buffers hold. */
  lemma DeployedIsInitial(endpoints: seq<RdmaEndpoint>, number: map<RdmaBuffer, nat>, mem: map<nat, Bytes>,
                          local: map<nat, Bytes>)
    requires SharedByPath(endpoints)
    requires forall k | 0 <= k < |endpoints| :: endpoints[k].buffer in number && number[endpoints[k].buffer] in mem
    requires forall b, c | b in number && c in number && number[b] == number[c] :: b == c
    ensures Initial(Config(BufferMap(endpoints, number)),
                    State(WithFree(map[], endpoints), mem, local, map[], {}, {}, {}))
  {
    var buffer := BufferMap(endpoints, number);
    BufferMapEntries(endpoints, number);
    forall e, f | e in buffer && f in buffer && buffer[e] == buffer[f] ensures e.path == f.path {
      var i :| 0 <= i < |endpoints| && endpoints[i].id == e && buffer[e] == number[endpoints[i].buffer];
      var j :| 0 <= j < |endpoints| && endpoints[j].id == f && buffer[f] == number[endpoints[j].buffer];
    }
  }
}
