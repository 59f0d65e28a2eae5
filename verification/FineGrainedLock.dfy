/** What the path lock would promise to callers on several threads: each endpoint's mutex
    section is a step of its own, every caller visits the endpoints of the path in the map's
    order, and nobody unlocks. */
module FineGrainedLock {
  import opened EndpointTypes

  /** A caller of `TryLockEndpointsByPath`: the next endpoint to visit, and `wasLocked`. */
  datatype Walk = Walk(at: nat, won: bool)

  /** `flipper` remembers which caller set each flag that was free at first. */
  datatype State = State(flags: seq<bool>, callers: map<nat, Walk>, flipper: map<nat, nat>)

  datatype Action = Call(t: nat) | Visit(t: nat)

  function Start(flags: seq<bool>): State {
    State(flags, map[], map[])
  }

  function Next(s: State, a: Action): Option<State> {
    match a
    case Call(t) =>
      if t in s.callers then None else Some(s.(callers := s.callers[t := Walk(0, false)]))
    case Visit(t) =>
      if t !in s.callers || s.callers[t].at >= |s.flags| then None else
      var k := s.callers[t].at;
      if s.flags[k] then Some(s.(callers := s.callers[t := Walk(k + 1, s.callers[t].won)]))
      else Some(State(s.flags[k := true], s.callers[t := Walk(k + 1, true)], s.flipper[k := t]))
  }

  ghost predicate Run(s: State, run: seq<Action>, s': State)
    decreases run
  {
    if run == [] then s == s'
    else Next(s, run[0]).Some? && Run(Next(s, run[0]).value, run[1..], s')
  }

  ghost predicate Reachable(flags: seq<bool>, s: State) {
    exists run :: Run(Start(flags), run, s)
  }

  function Free(flags: seq<bool>): set<nat> {
    set k: nat | k < |flags| && !flags[k]
  }

  /** The callers that have succeeded or are bound to: `wasLocked` is never taken back. */
  function Winners(s: State): set<nat> {
    set t | t in s.callers && s.callers[t].won
  }

  ghost predicate Finished(s: State, t: nat) {
    t in s.callers && s.callers[t].at == |s.flags|
  }

  // -------------------------------------------------------------------- the invariant

  ghost predicate FlipOk(flags: seq<bool>, s: State, k: nat)
    requires k in s.flipper
  {
    && k in Free(flags) && s.flipper[k] in s.callers && s.callers[s.flipper[k]].won
    && s.callers[s.flipper[k]].at > k
  }

  ghost predicate Inv(flags: seq<bool>, s: State) {
    && |s.flags| == |flags|
    && (forall k | 0 <= k < |flags| :: s.flags[k] <==> flags[k] || k in s.flipper)
    && (forall k | k in s.flipper :: FlipOk(flags, s, k))
    && (forall t | t in s.callers :: s.callers[t].at <= |flags| && forall k | 0 <= k < s.callers[t].at :: s.flags[k])
    && (forall t | t in s.callers && s.callers[t].won :: exists k :: k in s.flipper && s.flipper[k] == t)
  }

  lemma OwnersKept(flags: seq<bool>, s: State, a: Action)
    requires Inv(flags, s) && Next(s, a).Some?
    ensures forall k | k in Next(s, a).value.flipper :: FlipOk(flags, Next(s, a).value, k)
  {
    var s' := Next(s, a).value;
    forall k | k in s'.flipper ensures FlipOk(flags, s', k) {
      if k in s.flipper && s'.flipper[k] == s.flipper[k] {
        assert FlipOk(flags, s, k);
      } else {
        assert !s.flags[k] && k in Free(flags);
      }
    }
  }

  lemma WinnersKept(flags: seq<bool>, s: State, a: Action, t: nat)
    requires Inv(flags, s) && Next(s, a).Some?
    requires t in Next(s, a).value.callers && Next(s, a).value.callers[t].won
    ensures exists k :: k in Next(s, a).value.flipper && Next(s, a).value.flipper[k] == t
  {
    var s' := Next(s, a).value;
    if t in s.callers && s.callers[t].won {
      var k :| k in s.flipper && s.flipper[k] == t;
      assert k in s'.flipper && s'.flipper[k] == t;
    } else {
      assert s'.flipper[s.callers[t].at] == t;
    }
  }

  lemma FlagsKept(flags: seq<bool>, s: State, a: Action, k: nat)
    requires Inv(flags, s) && Next(s, a).Some? && k < |flags|
    ensures |Next(s, a).value.flags| == |flags|
    ensures Next(s, a).value.flags[k] <==> flags[k] || k in Next(s, a).value.flipper
    ensures s.flags[k] ==> Next(s, a).value.flags[k]
  {}

  lemma WalkedKept(flags: seq<bool>, s: State, a: Action, t: nat, k: nat)
    requires Inv(flags, s) && Next(s, a).Some? && t in Next(s, a).value.callers && k < Next(s, a).value.callers[t].at
    ensures k < |flags| == |Next(s, a).value.flags| && Next(s, a).value.flags[k]
  {
    if t in s.callers && k < s.callers[t].at {
      FlagsKept(flags, s, a, k);
    }
  }

  lemma StepKeeps(flags: seq<bool>, s: State, a: Action)
    requires Inv(flags, s) && Next(s, a).Some?
    ensures Inv(flags, Next(s, a).value)
  {
    OwnersKept(flags, s, a);
    forall k: nat | k < |flags| { FlagsKept(flags, s, a, k); }
    forall t, k: nat | t in Next(s, a).value.callers && k < Next(s, a).value.callers[t].at {
      WalkedKept(flags, s, a, t, k);
    }
    forall t | t in Next(s, a).value.callers && Next(s, a).value.callers[t].won { WinnersKept(flags, s, a, t); }
  }

  lemma {:induction false} RunKeeps(flags: seq<bool>, s: State, run: seq<Action>, s': State)
    requires Inv(flags, s) && Run(s, run, s')
    ensures Inv(flags, s')
    decreases run
  {
    if run != [] {
      StepKeeps(flags, s, run[0]);
      RunKeeps(flags, Next(s, run[0]).value, run[1..], s');
    }
  }

  lemma ReachableInv(flags: seq<bool>, s: State)
    requires Reachable(flags, s)
    ensures Inv(flags, s)
  {
    var run :| Run(Start(flags), run, s);
    RunKeeps(flags, Start(flags), run, s);
  }

  // ------------------------------------------------------------------------- counting

  /** Winners that each own a key of `m` are no more than the keys. */
  lemma {:induction false} NoMoreThanKeys(m: map<nat, nat>, winners: set<nat>, keys: set<nat>)
    requires m.Keys <= keys
    requires forall t | t in winners :: exists k :: k in m && m[k] == t
    ensures |winners| <= |keys|
    decreases |winners|
  {
    if winners != {} {
      var t :| t in winners;
      var k :| k in m && m[k] == t;
      var m' := map j | j in m && j != k :: m[j];
      forall u | u in winners - {t} ensures exists j :: j in m' && m'[j] == u {
        var j :| j in m && m[j] == u;
        assert j in m' && m'[j] == u;
      }
      NoMoreThanKeys(m', winners - {t}, keys - {k});
    }
  }

  /** At most as many callers succeed as there were free endpoints on the path, and once any
      caller has been through them all, at least one succeeds if any was free. */
  lemma WinnersCounted(flags: seq<bool>, s: State)
    requires Reachable(flags, s)
    ensures |Winners(s)| <= |Free(flags)|
    ensures (exists t :: Finished(s, t)) && Free(flags) != {} ==> Winners(s) != {}
  {
    ReachableInv(flags, s);
    NoMoreThanKeys(s.flipper, Winners(s), Free(flags));
    if t :| Finished(s, t) {
      if k :| k in Free(flags) {
        assert s.flags[k];
        assert FlipOk(flags, s, k);
        assert s.flipper[k] in Winners(s);
      }
    }
  }

  // ------------------------------------------------------------------------ tightness

  lemma {:induction false} RunThen(s0: State, run: seq<Action>, s: State, a: Action)
    requires Run(s0, run, s) && Next(s, a).Some?
    ensures Run(s0, run + [a], Next(s, a).value)
    decreases run
  {
    if run == [] {
      assert [a][1..] == [];
    } else {
      RunThen(Next(s0, run[0]).value, run[1..], s, a);
      assert (run + [a])[1..] == run[1..] + [a];
    }
  }

  lemma ReachNext(flags: seq<bool>, s: State, a: Action)
    requires Reachable(flags, s) && Next(s, a).Some?
    ensures Reachable(flags, Next(s, a).value)
  {
    var run :| Run(Start(flags), run, s);
    RunThen(Start(flags), run, s, a);
  }

  /** Callers `0 .. n-1` have called in turn, each has passed the flags set before it and set
      one more: flag `t` is set by caller `t`. */
  ghost predicate Staggered(s: State, size: nat, n: nat) {
    && |s.flags| == size && n <= size
    && (forall k | 0 <= k < size :: s.flags[k] <==> k < n)
    && (forall t | t in s.callers :: t < n)
    && (forall t: nat | t < n :: t in s.callers && s.callers[t] == Walk(t + 1, true))
  }

  /** A caller that walks over `k` flags that are already set. */
  ghost predicate Walking(s: State, size: nat, n: nat, k: nat) {
    && |s.flags| == size && n < size && k <= n
    && (forall j | 0 <= j < size :: s.flags[j] <==> j < n)
    && (forall t | t in s.callers :: t <= n)
    && (forall t: nat | t < n :: t in s.callers && s.callers[t] == Walk(t + 1, true))
    && n in s.callers && s.callers[n] == Walk(k, false)
  }

  lemma {:induction false} WalkOn(flags: seq<bool>, s: State, n: nat, k: nat) returns (s': State)
    requires Reachable(flags, s) && Walking(s, |flags|, n, k)
    ensures Reachable(flags, s') && Staggered(s', |flags|, n + 1)
    decreases n - k
  {
    ReachNext(flags, s, Visit(n));
    s' := Next(s, Visit(n)).value;
    if k < n {
      s' := WalkOn(flags, s', n, k + 1);
    }
  }

  lemma {:induction false} OneEach(flags: seq<bool>, n: nat) returns (s: State)
    requires (forall k | 0 <= k < |flags| :: !flags[k]) && n <= |flags|
    ensures Reachable(flags, s) && Staggered(s, |flags|, n)
  {
    if n == 0 {
      s := Start(flags);
      assert Run(s, [], s);
    } else {
      s := OneEach(flags, n - 1);
      ReachNext(flags, s, Call(n - 1));
      s := WalkOn(flags, Next(s, Call(n - 1)).value, n - 1, 0);
    }
  }

  lemma {:induction false} FirstNats(s: set<nat>, n: nat)
    requires forall t: nat :: t in s <==> t < n
    ensures |s| == n
  {
    if n > 0 {
      FirstNats(s - {n - 1}, n - 1);
    } else {
      assert s == {};
    }
  }

  /** The bound is reached: on a free path as many callers can succeed as it has endpoints. */
  lemma EveryEndpointAWinner(flags: seq<bool>)
    requires forall k | 0 <= k < |flags| :: !flags[k]
    ensures exists s :: Reachable(flags, s) && |Winners(s)| == |flags|
  {
    var s := OneEach(flags, |flags|);
    FirstNats(Winners(s), |flags|);
  }

  ghost predicate Exclusive(flags: seq<bool>) {
    forall s :: Reachable(flags, s) ==> |Winners(s)| <= 1
  }

  /** So on a free path the lock excludes callers on different threads exactly when the path
      has at most one endpoint; with the sample's pair of a read and a write endpoint it
      depends on the sessions sharing one thread. */
  lemma ExclusiveExactly(flags: seq<bool>)
    requires forall k | 0 <= k < |flags| :: !flags[k]
    ensures Exclusive(flags) <==> |flags| <= 1
  {
    FirstNats(Free(flags), |flags|);
    if |flags| <= 1 {
      forall s | Reachable(flags, s) ensures |Winners(s)| <= 1 { WinnersCounted(flags, s); }
    } else {
      EveryEndpointAWinner(flags);
    }
  }
}
