/** `RdmaBuffer`, and the sample's loop that gives endpoints of one path one buffer. */
module Buffers {
  import opened EndpointTypes

  /** A registered range is set once and a memory map is created once; `created` counts the
      maps ever created for this buffer. */
  class RdmaBuffer {
    var memoryRange: Option<nat>
    var mapped: bool
    ghost var created: nat

    ghost predicate Valid()
      reads this
    {
      created == (if mapped then 1 else 0) && (mapped ==> memoryRange.Some?)
    }

    constructor ()
      ensures Valid() && memoryRange == None && !mapped
    {
      memoryRange, mapped, created := None, false, 0;
    }

    method RegisterMemoryRange(size: nat) returns (ok: bool)
      requires Valid()
      modifies this`memoryRange
      ensures Valid()
      ensures ok <==> old(memoryRange) == None
      ensures memoryRange == if ok then Some(size) else old(memoryRange)
    {
      if memoryRange != None {
        return false;
      }
      memoryRange := Some(size);
      return true;
    }

    /** Creating the map in DOCA may fail; a second call on a mapped buffer does nothing. */
    method MapMemory(docaOk: bool) returns (ok: bool)
      requires Valid()
      modifies this`mapped, this`created
      ensures Valid() && (ok <==> mapped)
      ensures ok <==> old(mapped) || (memoryRange.Some? && docaOk)
      ensures created == old(created) + if ok && !old(mapped) then 1 else 0
    {
      if mapped {
        return true;
      }
      if memoryRange == None {
        return false;
      }
      if !docaOk {
        return false;
      }
      mapped, created := true, created + 1;
      return true;
    }
  }

  datatype RdmaEndpoint = RdmaEndpoint(id: Endpoint, buffer: RdmaBuffer)

  datatype EndpointConfig = EndpointConfig(path: Path, size: nat, kind: EndpointType)

  /** Two endpoints have one buffer exactly when they have one path. */
  ghost predicate SharedByPath(endpoints: seq<RdmaEndpoint>) {
    forall i, j :: 0 <= i < |endpoints| && 0 <= j < |endpoints| ==>
      (endpoints[i].buffer == endpoints[j].buffer <==> endpoints[i].id.path == endpoints[j].id.path)
  }

  /** The size of a path's buffer is that of the first configuration with the path. */
  function FirstSize(configs: seq<EndpointConfig>, path: Path): Option<nat> {
    if configs == [] then None
    else if configs[0].path == path then Some(configs[0].size)
    else FirstSize(configs[1..], path)
  }

  lemma {:induction false} FirstSizeAppend(configs: seq<EndpointConfig>, c: EndpointConfig, path: Path)
    ensures FirstSize(configs + [c], path) ==
      if FirstSize(configs, path).Some? then FirstSize(configs, path)
      else if c.path == path then Some(c.size) else None
  {
    if configs == [] {
      assert configs + [c] == [c];
    } else {
      assert (configs + [c])[1..] == configs[1..] + [c];
      FirstSizeAppend(configs[1..], c, path);
    }
  }

  method CreateEndpoints(configs: seq<EndpointConfig>) returns (endpoints: seq<RdmaEndpoint>)
    ensures |endpoints| == |configs|
    ensures forall k | 0 <= k < |configs| :: endpoints[k].id == Endpoint(configs[k].path, configs[k].kind)
    ensures forall k | 0 <= k < |configs| :: fresh(endpoints[k].buffer) && endpoints[k].buffer.Valid()
    ensures forall k | 0 <= k < |configs| ::
      endpoints[k].buffer.memoryRange == FirstSize(configs, configs[k].path) && !endpoints[k].buffer.mapped
    ensures SharedByPath(endpoints)
  {
    endpoints := [];
    var buffers: map<Path, RdmaBuffer> := map[];
    for k := 0 to |configs|
      invariant |endpoints| == k
      invariant forall i | 0 <= i < k :: endpoints[i].id == Endpoint(configs[i].path, configs[i].kind)
      invariant forall i | 0 <= i < k :: configs[i].path in buffers && endpoints[i].buffer == buffers[configs[i].path]
      invariant forall p, q | p in buffers && q in buffers && buffers[p] == buffers[q] :: p == q
      invariant forall p | p in buffers :: fresh(buffers[p]) && buffers[p].Valid() && !buffers[p].mapped
      invariant forall p :: p in buffers <==> FirstSize(configs[..k], p).Some?
      invariant forall p | p in buffers :: buffers[p].memoryRange == FirstSize(configs[..k], p)
    {
      var config := configs[k];
      assert configs[..k + 1] == configs[..k] + [config];
      forall p { FirstSizeAppend(configs[..k], config, p); }
      if config.path !in buffers {
        var buffer := new RdmaBuffer();
        var _ := buffer.RegisterMemoryRange(config.size);
        buffers := buffers[config.path := buffer];
      }
      endpoints := endpoints + [RdmaEndpoint(Endpoint(config.path, config.kind), buffers[config.path])];
    }
    assert configs[..|configs|] == configs;
  }
}
