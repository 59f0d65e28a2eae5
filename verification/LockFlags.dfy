/** The meaning of the path lock: one flag per endpoint, taken and released per path. */
module LockFlags {
  import opened EndpointTypes

  type Flags = map<Endpoint, bool>

  ghost predicate Known(flags: Flags, path: Path) {
    exists e :: e in flags && e.path == path
  }

  ghost predicate SomeFree(flags: Flags, path: Path) {
    exists e :: e in flags && e.path == path && !flags[e]
  }

  /** All flags of one path have the same value. */
  ghost predicate Agree(flags: Flags) {
    forall e, f :: e in flags && f in flags && e.path == f.path ==> flags[e] == flags[f]
  }

  function SetPath(flags: Flags, path: Path, value: bool): (r: Flags)
    ensures r.Keys == flags.Keys
  {
    map e | e in flags :: if e.path == path then value else flags[e]
  }
}
