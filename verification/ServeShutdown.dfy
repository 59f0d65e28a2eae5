/** `Serve` and `Shutdown` as a machine of any number of concurrent callers of each. A step is
    one access to an atomic flag, to the mutex or to the condition variable; the notify at the
    end of `Serve` takes no lock, and `Shutdown` blocks in a step after the one in which it
    looked. */
module ServeShutdown {
  import opened EndpointTypes

  /** `Setup` is everything in `Serve` from the endpoints check to the listener. `Polling` reads
      the guard of the poll loop and `Turning` makes the turn, so that a `Shutdown` can come
      between the two. `Stopping` is the close of the acceptor and the stop of the event loop.
      `woken` tells a notified waiter from one that nothing has been sent to. */
  datatype Pc =
    | EnterServe | ServeSection | Marking | Setup | Polling | Turning | Stopping | Draining
    | Exiting(ok: bool) | Notifying(ok: bool) | ServeReturned(ok: bool) | Refused
    | EnterShutdown | ClearForced | WantLock | Checking | Sleeping | Blocked(woken: bool)
    | Relock(timedOut: bool) | LastCheck | Forcing | ShutdownReturned(ok: bool)

  /** `ioStopped` is the state of the body's event loop. `polls` counts the turns of the poll
      loop, in which sessions run, those that end in an exception included, and `drained` those
      of the loop after it. */
  datatype State = State(
    isServing: bool,
    continueServing: bool,
    shutdownForced: bool,
    mutex: Option<nat>,
    ioStopped: bool,
    pcs: map<nat, Pc>,
    polls: nat,
    drained: nat)

  const INITIAL := State(false, true, false, None, false, map[], 0, 0)

  /** `Go(t, bad)` is a step of thread `t`; `bad` picks a failed call, a session error, an
      exception or an expired timeout where there is a choice. */
  datatype Action = CallServe(t: nat) | CallShutdown(t: nat) | Go(t: nat, bad: bool)

  /** Inside the body that `isServing` stands for, up to the defer that clears it. */
  predicate Serving(pc: Pc) {
    pc.Setup? || pc.Polling? || pc.Turning? || pc.Stopping? || pc.Draining? || pc.Exiting?
  }

  predicate OfServe(pc: Pc) {
    || pc.EnterServe? || pc.ServeSection? || pc.Marking? || Serving(pc)
    || pc.Notifying? || pc.ServeReturned? || pc.Refused?
  }

  /** The places between taking `serveMutex` and releasing it. */
  predicate HasMutex(pc: Pc) {
    pc.ServeSection? || pc.Marking? || pc.Checking? || pc.Sleeping? || pc.LastCheck? || pc.Forcing?
  }

  /** A thread that has returned takes no step, one about to lock waits for the mutex. */
  predicate Ready(s: State, pc: Pc) {
    && !pc.ServeReturned? && !pc.Refused? && !pc.ShutdownReturned?
    && (pc.EnterServe? || pc.WantLock? || pc.Relock? ==> s.mutex.None?)
  }

  function AfterServe(s: State, pc: Pc, bad: bool): Pc
    requires OfServe(pc) && Ready(s, pc)
  {
    match pc
    case EnterServe => ServeSection
    case ServeSection => if s.isServing then Refused else Marking
    case Marking => Setup
    case Setup => if bad then Exiting(false) else Polling
    case Polling => if !s.continueServing then Stopping else if bad then Exiting(false) else Turning
    case Turning => if bad then Exiting(false) else Polling
    case Stopping => if bad then Exiting(false) else Draining
    case Draining => if bad then Exiting(false) else if s.shutdownForced || s.ioStopped then Exiting(true) else Draining
    case Exiting(ok) => Notifying(ok)
    case Notifying(ok) => ServeReturned(ok)
  }

  function AfterShutdown(s: State, pc: Pc, bad: bool): Pc
    requires !OfServe(pc) && Ready(s, pc)
  {
    match pc
    case EnterShutdown => ClearForced
    case ClearForced => WantLock
    case WantLock => Checking
    case Checking => if s.isServing then Sleeping else ShutdownReturned(true)
    case Sleeping => Blocked(false)
    case Blocked(_) => Relock(bad)
    case Relock(timedOut) => if timedOut then LastCheck else Checking
    case LastCheck => if s.isServing then Forcing else ShutdownReturned(true)
    case Forcing => ShutdownReturned(false)
  }

  function After(s: State, pc: Pc, bad: bool): Pc
    requires Ready(s, pc)
  {
    if OfServe(pc) then AfterServe(s, pc, bad) else AfterShutdown(s, pc, bad)
  }

  function WakeAll(pcs: map<nat, Pc>): map<nat, Pc> {
    map u | u in pcs :: if pcs[u].Blocked? then Blocked(true) else pcs[u]
  }

  /** Thread `t` goes from `pc` to `pc'`, with what it writes on the way. */
  function Step(s: State, t: nat, pc: Pc, pc': Pc): State {
    State(
      if pc.Marking? then true else if pc.Exiting? then false else s.isServing,
      if pc.EnterShutdown? then false else s.continueServing,
      if pc.ClearForced? then false else if pc.Forcing? then true else s.shutdownForced,
      if HasMutex(pc') then Some(t) else if HasMutex(pc) then None else s.mutex,
      if pc.Setup? && pc'.Polling? then false else if pc.Stopping? && pc'.Draining? then true else s.ioStopped,
      (if pc.Notifying? then WakeAll(s.pcs) else s.pcs)[t := pc'],
      if pc.Turning? then s.polls + 1 else s.polls,
      if pc.Draining? && pc'.Draining? then s.drained + 1 else s.drained)
  }

  function Next(s: State, a: Action): Option<State> {
    match a
    case CallServe(t) => if t in s.pcs then None else Some(s.(pcs := s.pcs[t := EnterServe]))
    case CallShutdown(t) => if t in s.pcs then None else Some(s.(pcs := s.pcs[t := EnterShutdown]))
    case Go(t, bad) =>
      if t !in s.pcs || !Ready(s, s.pcs[t]) then None
      else Some(Step(s, t, s.pcs[t], After(s, s.pcs[t], bad)))
  }

  ghost predicate Run(s: State, run: seq<Action>, s': State)
    decreases run
  {
    if run == [] then s == s'
    else Next(s, run[0]).Some? && Run(Next(s, run[0]).value, run[1..], s')
  }

  ghost predicate Reachable(s: State) {
    exists run :: Run(INITIAL, run, s)
  }

  // -------------------------------------------------------------------- the invariant

  ghost predicate SomeServing(s: State) {
    exists t :: t in s.pcs && Serving(s.pcs[t])
  }

  ghost predicate MutexOk(s: State) {
    && (forall t :: t in s.pcs ==> (HasMutex(s.pcs[t]) <==> s.mutex == Some(t)))
    && (s.mutex.Some? ==> s.mutex.value in s.pcs)
  }

  ghost predicate ServingOk(s: State) {
    && (forall t, u :: t in s.pcs && u in s.pcs && Serving(s.pcs[t]) && Serving(s.pcs[u]) ==> t == u)
    && (s.isServing <==> SomeServing(s))
    && (forall t :: t in s.pcs && s.pcs[t].Marking? ==> !s.isServing)
  }

  /** A call of `Shutdown` is past its first store. */
  ghost predicate SomeShutdown(s: State) {
    exists t :: t in s.pcs && !OfServe(s.pcs[t]) && !s.pcs[t].EnterShutdown?
  }

  ghost predicate StopOk(s: State) {
    !s.continueServing <==> SomeShutdown(s)
  }

  ghost predicate DrainOk(s: State) {
    && (forall t :: t in s.pcs && s.pcs[t].Draining? ==> s.ioStopped)
    && s.drained == 0
  }

  ghost predicate Inv(s: State) {
    MutexOk(s) && ServingOk(s) && StopOk(s) && DrainOk(s)
  }

  lemma OthersKept(s: State, a: Action, t: nat)
    requires Next(s, a).Some? && t in s.pcs && t != a.t
    ensures t in Next(s, a).value.pcs
    ensures HasMutex(Next(s, a).value.pcs[t]) == HasMutex(s.pcs[t])
    ensures Serving(Next(s, a).value.pcs[t]) == Serving(s.pcs[t])
    ensures Next(s, a).value.pcs[t].Marking? == s.pcs[t].Marking?
    ensures Next(s, a).value.pcs[t].Draining? == s.pcs[t].Draining?
    ensures OfServe(Next(s, a).value.pcs[t]) == OfServe(s.pcs[t])
    ensures Next(s, a).value.pcs[t].EnterShutdown? == s.pcs[t].EnterShutdown?
    ensures a.t in Next(s, a).value.pcs
  {}

  lemma KeepsMutex(s: State, a: Action)
    requires MutexOk(s) && Next(s, a).Some?
    ensures MutexOk(Next(s, a).value)
  {
    forall t | t in s.pcs && t != a.t { OthersKept(s, a, t); }
  }

  lemma MoverServes(s: State, a: Action)
    requires Next(s, a).Some?
    ensures Serving(Next(s, a).value.pcs[a.t]) && !(a.t in s.pcs && Serving(s.pcs[a.t])) ==>
      a.t in s.pcs && s.pcs[a.t].Marking? && Next(s, a).value.isServing
    ensures a.t in s.pcs && Serving(s.pcs[a.t]) && !Serving(Next(s, a).value.pcs[a.t]) ==> !Next(s, a).value.isServing
    ensures Serving(Next(s, a).value.pcs[a.t]) == (a.t in s.pcs && Serving(s.pcs[a.t])) ==>
      Next(s, a).value.isServing == s.isServing
    ensures Next(s, a).value.pcs[a.t].Marking? ==> !s.isServing && !Next(s, a).value.isServing
  {}

  lemma KeepsServing(s: State, a: Action)
    requires MutexOk(s) && ServingOk(s) && Next(s, a).Some?
    ensures ServingOk(Next(s, a).value)
  {
    forall t | t in s.pcs && t != a.t { OthersKept(s, a, t); }
    MoverServes(s, a);
    var s' := Next(s, a).value;
    assert a.t in s'.pcs;
    if t :| t in s.pcs && t != a.t && Serving(s.pcs[t]) {
      assert Serving(s'.pcs[t]);
    }
  }

  lemma KeepsDrain(s: State, a: Action)
    requires ServingOk(s) && DrainOk(s) && Next(s, a).Some?
    ensures DrainOk(Next(s, a).value)
  {
    forall t | t in s.pcs && t != a.t { OthersKept(s, a, t); }
  }

  lemma MoverStops(s: State, a: Action)
    requires Next(s, a).Some?
    ensures a.t in Next(s, a).value.pcs
    ensures var pc' := Next(s, a).value.pcs[a.t];
      !OfServe(pc') && !pc'.EnterShutdown? <==> a.t in s.pcs && !OfServe(s.pcs[a.t])
    ensures Next(s, a).value.continueServing <==>
      s.continueServing && !(a.t in s.pcs && s.pcs[a.t].EnterShutdown?)
  {}

  lemma KeepsStop(s: State, a: Action)
    requires StopOk(s) && Next(s, a).Some?
    ensures StopOk(Next(s, a).value)
  {
    var s' := Next(s, a).value;
    MoverStops(s, a);
    forall t | t in s.pcs && t != a.t { OthersKept(s, a, t); }
    if t :| t in s.pcs && !OfServe(s.pcs[t]) && !s.pcs[t].EnterShutdown? {
      assert t in s'.pcs && !OfServe(s'.pcs[t]) && !s'.pcs[t].EnterShutdown?;
    }
    if a.t in s.pcs && s.pcs[a.t].EnterShutdown? {
      assert SomeShutdown(s');
    }
  }

  lemma StepKeeps(s: State, a: Action)
    requires Inv(s) && Next(s, a).Some?
    ensures Inv(Next(s, a).value)
  {
    KeepsMutex(s, a);
    KeepsServing(s, a);
    KeepsDrain(s, a);
    KeepsStop(s, a);
  }

  lemma {:induction false} RunKeeps(s: State, run: seq<Action>, s': State)
    requires Inv(s) && Run(s, run, s')
    ensures Inv(s')
    decreases run
  {
    if run != [] {
      StepKeeps(s, run[0]);
      RunKeeps(Next(s, run[0]).value, run[1..], s');
    }
  }

  lemma ReachableInv(s: State)
    requires Reachable(s)
    ensures Inv(s)
  {
    var run :| Run(INITIAL, run, s);
    RunKeeps(INITIAL, run, s);
  }

  // --------------------------------------------------------------------- the theorems

  /** At most one body of `Serve` runs, and `isServing` is set exactly while one does. */
  lemma SingleServe(s: State)
    requires Reachable(s)
    ensures forall t, u :: t in s.pcs && u in s.pcs && Serving(s.pcs[t]) && Serving(s.pcs[u]) ==> t == u
    ensures s.isServing <==> SomeServing(s)
  {
    ReachableInv(s);
  }

  /** A `Serve` call is refused exactly when it looks while another call's body runs. */
  lemma RefusedWhileServing(s: State, t: nat, bad: bool)
    requires Reachable(s) && t in s.pcs && s.pcs[t].ServeSection?
    ensures Next(s, Go(t, bad)).Some?
    ensures Next(s, Go(t, bad)).value.pcs[t].Refused? <==> exists u :: u in s.pcs && u != t && Serving(s.pcs[u])
  {
    ReachableInv(s);
  }

  /** `Shutdown` answers in only three steps: it succeeds exactly when no body of `Serve` runs
      at the moment it looks, whether it was notified or not, and after a timeout it fails
      exactly when one does. */
  lemma ShutdownAnswer(s: State, t: nat, bad: bool)
    requires Reachable(s) && t in s.pcs && Next(s, Go(t, bad)).Some?
    ensures Next(s, Go(t, bad)).value.pcs[t] == ShutdownReturned(true) <==>
      (s.pcs[t].Checking? || s.pcs[t].LastCheck?) && !SomeServing(s)
    ensures Next(s, Go(t, bad)).value.pcs[t].Forcing? <==> s.pcs[t].LastCheck? && SomeServing(s)
    ensures Next(s, Go(t, bad)).value.pcs[t] == ShutdownReturned(false) <==> s.pcs[t].Forcing?
    ensures s.pcs[t].Forcing? ==> Next(s, Go(t, bad)).value.shutdownForced
  {
    ReachableInv(s);
  }

  ghost predicate SomeTurning(s: State) {
    exists t :: t in s.pcs && s.pcs[t].Turning?
  }

  /** The turn of the poll loop for which the guard has been passed already. */
  ghost function TurnsDue(s: State): nat {
    if SomeTurning(s) then 1 else 0
  }

  /** With the flag down nobody passes the guard. */
  lemma NobodyTurns(s: State, a: Action, t: nat)
    requires Next(s, a).Some? && !s.continueServing && t in Next(s, a).value.pcs && Next(s, a).value.pcs[t].Turning?
    ensures t in s.pcs && s.pcs[t].Turning? && a.t != t
  {}

  lemma OthersTurn(s: State, a: Action, t: nat)
    requires Next(s, a).Some? && t in s.pcs && s.pcs[t].Turning? && a.t != t
    ensures t in Next(s, a).value.pcs && Next(s, a).value.pcs[t].Turning?
  {}

  lemma TurnCounts(s: State, a: Action)
    requires Next(s, a).Some?
    ensures Next(s, a).value.polls == if a.t in s.pcs && s.pcs[a.t].Turning? then s.polls + 1 else s.polls
    ensures !s.continueServing ==> !Next(s, a).value.continueServing
  {}

  lemma StepSpendsTurn(s: State, a: Action)
    requires Inv(s) && Next(s, a).Some? && !s.continueServing
    ensures Next(s, a).value.polls + TurnsDue(Next(s, a).value) == s.polls + TurnsDue(s)
  {
    var s' := Next(s, a).value;
    TurnCounts(s, a);
    if t :| t in s'.pcs && s'.pcs[t].Turning? {
      NobodyTurns(s, a, t);
      assert a.t in s.pcs ==> !Serving(s.pcs[a.t]);
    } else if t :| t in s.pcs && s.pcs[t].Turning? {
      if a.t != t { OthersTurn(s, a, t); }
    }
  }

  /** What a `Shutdown` still lets happen once it has begun: a body that had passed its guard
      before the flag went down makes that one turn, in which sessions run, and it is the last.
      No other turn is made, in this or any later `Serve`, and nothing raises the flag again. */
  lemma {:induction false} ShutdownIsFinal(s: State, run: seq<Action>, s': State)
    requires Inv(s) && Run(s, run, s') && !s.continueServing
    ensures !s'.continueServing && s'.polls + TurnsDue(s') == s.polls + TurnsDue(s)
    ensures forall t | t in s'.pcs && s'.pcs[t].Turning? :: t in s.pcs && s.pcs[t].Turning?
    decreases run
  {
    if run != [] {
      var next := Next(s, run[0]).value;
      StepKeeps(s, run[0]);
      TurnCounts(s, run[0]);
      StepSpendsTurn(s, run[0]);
      ShutdownIsFinal(next, run[1..], s');
      forall t | t in s'.pcs && s'.pcs[t].Turning? ensures t in s.pcs && s.pcs[t].Turning? {
        NobodyTurns(s, run[0], t);
      }
    }
  }

  /** The stop flag is down exactly when some `Shutdown` has begun: nothing else takes it down. */
  lemma ShutdownBegan(s: State)
    requires Reachable(s)
    ensures !s.continueServing <==> exists t :: t in s.pcs && !OfServe(s.pcs[t]) && !s.pcs[t].EnterShutdown?
  {
    ReachableInv(s);
  }

  // ---------------------------------------------------------------- what `Serve` returns

  /** The step is a failure inside the body of thread `t`: a failed call of the setup, an error of
      a session that the poll loop finds, or an exception. */
  predicate FailsNow(s: State, a: Action, t: nat) {
    && a == Go(t, true) && t in s.pcs
    && var pc := s.pcs[t];
      || pc == Setup || (pc == Polling && s.continueServing) || pc == Turning || pc == Stopping || pc == Draining
  }

  /** How many of the steps of a run are steps of thread `t`. */
  function StepsOf(run: seq<Action>, t: nat): nat {
    if run == [] then 0 else (if run[0].t == t then 1 else 0) + StepsOf(run[1..], t)
  }

  ghost predicate Fails(s: State, run: seq<Action>, t: nat)
    decreases run
  {
    run != [] && (FailsNow(s, run[0], t) || (Next(s, run[0]).Some? && Fails(Next(s, run[0]).value, run[1..], t)))
  }

  /** Where a call of `Serve` can be, given whether it has failed and was told to stop. */
  predicate Standing(pc: Pc, failed: bool, told: bool) {
    match pc
    case EnterServe => !failed
    case ServeSection => !failed
    case Marking => !failed
    case Setup => !failed
    case Polling => !failed
    case Turning => !failed
    case Stopping => !failed && told
    case Draining => !failed && told
    case Exiting(ok) => ok == !failed && (ok ==> told)
    case Notifying(ok) => ok == !failed && (ok ==> told)
    case ServeReturned(ok) => ok == !failed && (ok ==> told)
    case Refused => !failed
    case _ => true
  }

  lemma StepStands(s: State, a: Action, t: nat, failed: bool)
    requires Inv(s) && Next(s, a).Some? && t in s.pcs && OfServe(s.pcs[t])
    requires Standing(s.pcs[t], failed, !s.continueServing)
    ensures t in Next(s, a).value.pcs && OfServe(Next(s, a).value.pcs[t])
    ensures Standing(Next(s, a).value.pcs[t], failed || FailsNow(s, a, t), !Next(s, a).value.continueServing)
  {
    TurnCounts(s, a);
    if a.t != t { OthersKeep(s, a, t); }
  }

  lemma OthersKeep(s: State, a: Action, t: nat)
    requires Next(s, a).Some? && t in s.pcs && OfServe(s.pcs[t]) && a.t != t
    ensures t in Next(s, a).value.pcs && Next(s, a).value.pcs[t] == s.pcs[t]
  {}

  lemma {:induction false} RunStands(s: State, run: seq<Action>, s': State, t: nat, failed: bool)
    requires Inv(s) && Run(s, run, s') && t in s.pcs && OfServe(s.pcs[t])
    requires Standing(s.pcs[t], failed, !s.continueServing)
    ensures t in s'.pcs && OfServe(s'.pcs[t])
    ensures Standing(s'.pcs[t], failed || Fails(s, run, t), !s'.continueServing)
    decreases run
  {
    if run != [] {
      StepStands(s, run[0], t, failed);
      StepKeeps(s, run[0]);
      RunStands(Next(s, run[0]).value, run[1..], s', t, failed || FailsNow(s, run[0], t));
    }
  }

  /** What a call of `Serve` returns, in every run: an error exactly when one of its steps has
      failed, and otherwise it was told to stop. */
  lemma ServeAnswer(s: State, run: seq<Action>, s': State, t: nat)
    requires Inv(s) && Run(s, run, s') && t in s.pcs && s.pcs[t].EnterServe? && t in s'.pcs
    ensures s'.pcs[t] == ServeReturned(false) ==> Fails(s, run, t)
    ensures s'.pcs[t] == ServeReturned(true) ==> !Fails(s, run, t) && !s'.continueServing && SomeShutdown(s')
    ensures OfServe(s'.pcs[t])
  {
    RunStands(s, run, s', t, false);
    RunKeeps(s, run, s');
  }

  /** A body that has failed: only the defer, the notify and the return of the error are left. */
  predicate Failing(pc: Pc) {
    pc == Exiting(false) || pc == Notifying(false) || pc == ServeReturned(false)
  }

  function FailingLeft(pc: Pc): nat {
    if pc.Exiting? then 2 else if pc.Notifying? then 1 else 0
  }

  /** The turns of the poll loop that thread `t` makes. */
  ghost function TurnsOf(s: State, run: seq<Action>, t: nat): nat
    decreases run
  {
    if run == [] || Next(s, run[0]).None? then 0
    else (if run[0].t == t && t in s.pcs && s.pcs[t].Turning? then 1 else 0)
         + TurnsOf(Next(s, run[0]).value, run[1..], t)
  }

  lemma {:induction false} FailingReturns(s: State, run: seq<Action>, s': State, t: nat)
    requires Run(s, run, s') && t in s.pcs && Failing(s.pcs[t])
    ensures t in s'.pcs && Failing(s'.pcs[t]) && TurnsOf(s, run, t) == 0
    ensures StepsOf(run, t) + FailingLeft(s'.pcs[t]) == FailingLeft(s.pcs[t])
    decreases run
  {
    if run != [] {
      if run[0].t != t { OthersKeep(s, run[0], t); }
      FailingReturns(Next(s, run[0]).value, run[1..], s', t);
    }
  }

  /** An error of a session, an exception or a failed setup ends `Serve`: in every run after it the
      call clears the flag, notifies and returns an error, at its own pace but always able to, and
      its sessions get no further turn; the failed turn itself is the last that counts. */
  lemma FailureEndsServe(s: State, t: nat, run: seq<Action>, s': State)
    requires FailsNow(s, Go(t, true), t) && Next(s, Go(t, true)).Some?
    requires Run(Next(s, Go(t, true)).value, run, s')
    ensures Next(s, Go(t, true)).value.polls == s.polls + if s.pcs[t].Turning? then 1 else 0
    ensures t in s'.pcs
    ensures s'.pcs[t] == Exiting(false) || s'.pcs[t] == Notifying(false) || s'.pcs[t] == ServeReturned(false)
    ensures s'.pcs[t] != ServeReturned(false) ==> Next(s', Go(t, false)).Some?
    ensures StepsOf(run, t) <= 2 && (StepsOf(run, t) == 2 <==> s'.pcs[t] == ServeReturned(false))
    ensures TurnsOf(Next(s, Go(t, true)).value, run, t) == 0
  {
    TurnCounts(s, Go(t, true));
    FailingReturns(Next(s, Go(t, true)).value, run, s', t);
  }

  /** The loop that is there to process what is left until the shutdown is forced never makes a
      turn: the event loop was stopped just before it. Sessions still open are abandoned. */
  lemma NothingIsDrained(s: State)
    requires Reachable(s)
    ensures s.drained == 0
    ensures forall t :: t in s.pcs && s.pcs[t].Draining? ==> AfterServe(s, s.pcs[t], false) == Exiting(true)
  {
    ReachableInv(s);
  }

  /** How many steps a body of `Serve` has left once it was told to stop. */
  function StepsLeft(pc: Pc): nat {
    match pc
    case Setup => 5
    case Turning => 5
    case Polling => 4
    case Stopping => 3
    case Draining => 2
    case Exiting(_) => 1
    case _ => 0
  }

  /** A body that was told to stop does so, forced or not: its next step is always possible
      and brings it closer to its end, and no step of another thread sets it back. */
  lemma ServeWindsDown(s: State, t: nat, a: Action)
    requires Reachable(s) && !s.continueServing && t in s.pcs && Serving(s.pcs[t])
    ensures Next(s, Go(t, false)).Some?
    ensures Next(s, a).Some? && a.t == t ==>
      StepsLeft(Next(s, a).value.pcs[t]) < StepsLeft(s.pcs[t])
    ensures Next(s, a).Some? && a.t != t ==> Next(s, a).value.pcs[t] == s.pcs[t]
  {
    NothingIsDrained(s);
  }

  /** Without a timeout a caller of `Shutdown` can sleep on although nothing serves and no
      notify is on its way: the notify came between its look and its wait. */
  ghost predicate NotifyMissed(s: State, t: nat) {
    && t in s.pcs && s.pcs[t] == Blocked(false) && !SomeServing(s)
    && forall u :: u in s.pcs ==> !s.pcs[u].Notifying?
  }

  lemma RunSteps(s: State, run: seq<Action>, a: Action, s': State)
    requires Run(s, run, s') && Next(s', a).Some?
    ensures Run(s, run + [a], Next(s', a).value)
    decreases run
  {
    if run == [] {
      assert [a][1..] == [];
    } else {
      RunSteps(Next(s, run[0]).value, run[1..], a, s');
      assert (run + [a])[1..] == run[1..] + [a];
    }
  }

  lemma ReachNext(s: State, a: Action)
    requires Reachable(s) && Next(s, a).Some?
    ensures Reachable(Next(s, a).value)
  {
    var run :| Run(INITIAL, run, s);
    RunSteps(INITIAL, run, a, s);
  }

  /** One caller of `Serve` and one of `Shutdown`; `go` is the flag the latter takes down. */
  function Pair(go: bool, isServing: bool, mutex: Option<nat>, serve: Pc, shutdown: Pc): State {
    State(isServing, go, false, mutex, false, map[0 := serve, 1 := shutdown], 0, 0)
  }

  ghost predicate Same(s: State, s': State) {
    && s.isServing == s'.isServing && s.continueServing == s'.continueServing
    && s.shutdownForced == s'.shutdownForced && s.mutex == s'.mutex && s.ioStopped == s'.ioStopped
    && s.pcs == s'.pcs && s.polls == s'.polls && s.drained == s'.drained
  }

  lemma GoTo(s: State, a: Action, s': State)
    requires Reachable(s) && Next(s, a).Some? && Same(Next(s, a).value, s')
    ensures Reachable(s')
  {
    ReachNext(s, a);
  }

  lemma ServeCalled()
    ensures Reachable(INITIAL.(pcs := map[0 := EnterServe]))
  {
    assert Run(INITIAL, [], INITIAL);
    GoTo(INITIAL, CallServe(0), INITIAL.(pcs := map[0 := EnterServe]));
  }

  lemma BothCalled()
    ensures Reachable(Pair(true, false, None, EnterServe, EnterShutdown))
  {
    ServeCalled();
    GoTo(INITIAL.(pcs := map[0 := EnterServe]), CallShutdown(1), Pair(true, false, None, EnterServe, EnterShutdown));
  }

  lemma ServeLocks()
    ensures Reachable(Pair(true, false, Some(0), ServeSection, EnterShutdown))
  {
    BothCalled();
    GoTo(Pair(true, false, None, EnterServe, EnterShutdown), Go(0, false),
         Pair(true, false, Some(0), ServeSection, EnterShutdown));
  }

  lemma ServeMarks()
    ensures Reachable(Pair(true, false, Some(0), Marking, EnterShutdown))
  {
    ServeLocks();
    GoTo(Pair(true, false, Some(0), ServeSection, EnterShutdown), Go(0, false),
         Pair(true, false, Some(0), Marking, EnterShutdown));
  }

  lemma ServeBegins()
    ensures Reachable(Pair(true, true, None, Setup, EnterShutdown))
  {
    ServeMarks();
    GoTo(Pair(true, false, Some(0), Marking, EnterShutdown), Go(0, false),
         Pair(true, true, None, Setup, EnterShutdown));
  }

  lemma ServePolls()
    ensures Reachable(Pair(true, true, None, Polling, EnterShutdown))
  {
    ServeBegins();
    GoTo(Pair(true, true, None, Setup, EnterShutdown), Go(0, false), Pair(true, true, None, Polling, EnterShutdown));
  }

  lemma ServePassesGuard()
    ensures Reachable(Pair(true, true, None, Turning, EnterShutdown))
  {
    ServePolls();
    GoTo(Pair(true, true, None, Polling, EnterShutdown), Go(0, false), Pair(true, true, None, Turning, EnterShutdown));
  }

  lemma ShutdownIsLate()
    ensures Reachable(Pair(false, true, None, Turning, ClearForced))
  {
    ServePassesGuard();
    GoTo(Pair(true, true, None, Turning, EnterShutdown), Go(1, false), Pair(false, true, None, Turning, ClearForced));
  }

  /** The one turn that is left is real: sessions can still run after `Shutdown` has taken the
      flag down. */
  lemma TurnAfterShutdown() returns (s: State)
    ensures Reachable(s) && !s.continueServing
    ensures Next(s, Go(0, false)).Some? && Next(s, Go(0, false)).value.polls == s.polls + 1
  {
    ShutdownIsLate();
    s := Pair(false, true, None, Turning, ClearForced);
  }

  lemma ShutdownBegins()
    ensures Reachable(Pair(false, true, None, Setup, ClearForced))
  {
    ServeBegins();
    GoTo(Pair(true, true, None, Setup, EnterShutdown), Go(1, false), Pair(false, true, None, Setup, ClearForced));
  }

  lemma ShutdownWants()
    ensures Reachable(Pair(false, true, None, Setup, WantLock))
  {
    ShutdownBegins();
    GoTo(Pair(false, true, None, Setup, ClearForced), Go(1, false), Pair(false, true, None, Setup, WantLock));
  }

  lemma ShutdownLocks()
    ensures Reachable(Pair(false, true, Some(1), Setup, Checking))
  {
    ShutdownWants();
    GoTo(Pair(false, true, None, Setup, WantLock), Go(1, false), Pair(false, true, Some(1), Setup, Checking));
  }

  lemma ShutdownLooks()
    ensures Reachable(Pair(false, true, Some(1), Setup, Sleeping))
  {
    ShutdownLocks();
    GoTo(Pair(false, true, Some(1), Setup, Checking), Go(1, false), Pair(false, true, Some(1), Setup, Sleeping));
  }

  lemma ServeFails()
    ensures Reachable(Pair(false, true, Some(1), Exiting(false), Sleeping))
  {
    ShutdownLooks();
    GoTo(Pair(false, true, Some(1), Setup, Sleeping), Go(0, true),
         Pair(false, true, Some(1), Exiting(false), Sleeping));
  }

  lemma ServeExits()
    ensures Reachable(Pair(false, false, Some(1), Notifying(false), Sleeping))
  {
    ServeFails();
    GoTo(Pair(false, true, Some(1), Exiting(false), Sleeping), Go(0, false),
         Pair(false, false, Some(1), Notifying(false), Sleeping));
  }

  lemma NotifiesNobody()
    ensures Reachable(Pair(false, false, Some(1), ServeReturned(false), Sleeping))
  {
    ServeExits();
    GoTo(Pair(false, false, Some(1), Notifying(false), Sleeping), Go(0, false),
         Pair(false, false, Some(1), ServeReturned(false), Sleeping));
  }

  lemma SleepsTooLate()
    ensures Reachable(Pair(false, false, None, ServeReturned(false), Blocked(false)))
  {
    NotifiesNobody();
    GoTo(Pair(false, false, Some(1), ServeReturned(false), Sleeping), Go(1, false),
         Pair(false, false, None, ServeReturned(false), Blocked(false)));
  }

  /** The notify takes no lock, so it can be missed; the executor's queue, which notifies after
      a change made under its lock, has no such run. */
  lemma NotifyCanBeMissed()
    ensures exists s :: Reachable(s) && NotifyMissed(s, 1)
  {
    SleepsTooLate();
    assert NotifyMissed(Pair(false, false, None, ServeReturned(false), Blocked(false)), 1);
  }

  /** No body of `Serve` runs at any point of the run. */
  ghost predicate NeverServing(s: State, run: seq<Action>)
    decreases run
  {
    !s.isServing && (run == [] || (Next(s, run[0]).Some? && NeverServing(Next(s, run[0]).value, run[1..])))
  }

  /** How far a caller of `Shutdown` that waits is from success, if nothing serves. */
  function WayLeft(pc: Pc): nat {
    match pc
    case Blocked(_) => 3
    case Relock(_) => 2
    case Checking => 1
    case LastCheck => 1
    case _ => 0
  }

  predicate OnTheWay(pc: Pc) {
    WayLeft(pc) > 0 || pc == ShutdownReturned(true)
  }

  lemma OneStepOn(s: State, a: Action, t: nat)
    requires !s.isServing && t in s.pcs && OnTheWay(s.pcs[t]) && Next(s, a).Some?
    ensures t in Next(s, a).value.pcs && OnTheWay(Next(s, a).value.pcs[t])
    ensures WayLeft(Next(s, a).value.pcs[t]) + (if a.t == t then 1 else 0) <= WayLeft(s.pcs[t])
  {}

  /** A missed notify costs time, not the answer. As long as no new `Serve` starts, the caller is
      on its way to success in every run, whatever the other threads do: it takes at most three
      more steps, none of them leads elsewhere, and while it has not succeeded either it can go
      on, its timeout standing in for the notify, or the thread that has the mutex can. */
  lemma {:induction false} MissedNotifyRecovers(s: State, run: seq<Action>, s': State, t: nat)
    requires Inv(s) && t in s.pcs && OnTheWay(s.pcs[t]) && Run(s, run, s') && NeverServing(s, run)
    ensures t in s'.pcs && OnTheWay(s'.pcs[t]) && StepsOf(run, t) + WayLeft(s'.pcs[t]) <= WayLeft(s.pcs[t])
    ensures s'.pcs[t] != ShutdownReturned(true) ==>
      || Next(s', Go(t, true)).Some?
      || (s'.mutex.Some? && s'.mutex.value != t && Next(s', Go(s'.mutex.value, true)).Some?)
    decreases run
  {
    if run != [] {
      StepKeeps(s, run[0]);
      OneStepOn(s, run[0], t);
      MissedNotifyRecovers(Next(s, run[0]).value, run[1..], s', t);
    }
  }

  /** A caller of `Shutdown` whose wait has timed out: it looks once more and returns. */
  predicate TimedOut(pc: Pc) {
    pc == Relock(true) || pc == LastCheck || pc == Forcing || pc.ShutdownReturned?
  }

  function TimedOutLeft(pc: Pc): nat {
    match pc
    case Relock(_) => 3
    case LastCheck => 2
    case Forcing => 1
    case _ => 0
  }

  lemma TimedOutStep(s: State, a: Action, t: nat)
    requires Next(s, a).Some? && t in s.pcs && TimedOut(s.pcs[t])
    ensures t in Next(s, a).value.pcs && TimedOut(Next(s, a).value.pcs[t])
    ensures TimedOutLeft(Next(s, a).value.pcs[t]) + (if a.t == t then 1 else 0) <= TimedOutLeft(s.pcs[t])
  {}

  lemma {:induction false} TimedOutReturns(s: State, run: seq<Action>, s': State, t: nat)
    requires Run(s, run, s') && t in s.pcs && TimedOut(s.pcs[t])
    ensures t in s'.pcs && TimedOut(s'.pcs[t])
    ensures StepsOf(run, t) + TimedOutLeft(s'.pcs[t]) <= TimedOutLeft(s.pcs[t])
    decreases run
  {
    if run != [] {
      TimedOutStep(s, run[0], t);
      TimedOutReturns(Next(s, run[0]).value, run[1..], s', t);
    }
  }

  /** The timeout bounds `Shutdown`: a caller it wakes takes at most three more steps in any run,
      all of them on the way to its answer. */
  lemma TimeoutAnswers(s: State, t: nat, run: seq<Action>, s': State)
    requires t in s.pcs && s.pcs[t].Blocked? && Run(Next(s, Go(t, true)).value, run, s')
    ensures t in s'.pcs
    ensures s'.pcs[t] == Relock(true) || s'.pcs[t] == LastCheck || s'.pcs[t] == Forcing || s'.pcs[t].ShutdownReturned?
    ensures StepsOf(run, t) <= 3 && (StepsOf(run, t) == 3 ==> s'.pcs[t].ShutdownReturned?)
  {
    TimedOutReturns(Next(s, Go(t, true)).value, run, s', t);
  }

  predicate NotTimedOut(pc: Pc) {
    !OfServe(pc) && pc != Relock(true) && pc != LastCheck && pc != Forcing && pc != ShutdownReturned(false)
  }

  /** And it fails only after a timeout: a caller that is only ever notified looks again instead. */
  lemma {:induction false} FailsOnlyAfterTimeout(s: State, run: seq<Action>, s': State, t: nat)
    requires Run(s, run, s') && t in s.pcs && NotTimedOut(s.pcs[t]) && Go(t, true) !in run
    ensures t in s'.pcs && NotTimedOut(s'.pcs[t])
    decreases run
  {
    if run != [] {
      NotifiedStep(s, run[0], t);
      FailsOnlyAfterTimeout(Next(s, run[0]).value, run[1..], s', t);
    }
  }

  lemma NotifiedStep(s: State, a: Action, t: nat)
    requires Next(s, a).Some? && t in s.pcs && NotTimedOut(s.pcs[t]) && a != Go(t, true)
    ensures t in Next(s, a).value.pcs && NotTimedOut(Next(s, a).value.pcs[t])
  {}

  /** A caller of `Shutdown` has made both its stores, in their order, before it asks for the mutex
      to look; and the forced flag is set only by one that has timed out. */
  lemma StoresBeforeLook(s: State, a: Action)
    requires Next(s, a).Some?
    ensures a.CallShutdown? ==> Next(s, a).value.pcs[a.t].EnterShutdown?
    ensures Next(s, a).value.pcs[a.t].ClearForced? ==>
      a.t in s.pcs && s.pcs[a.t].EnterShutdown? && !Next(s, a).value.continueServing
    ensures Next(s, a).value.pcs[a.t].WantLock? ==>
      a.t in s.pcs && s.pcs[a.t].ClearForced? && !Next(s, a).value.shutdownForced
    ensures Next(s, a).value.pcs[a.t].Checking? ==>
      a.t in s.pcs && (s.pcs[a.t].WantLock? || s.pcs[a.t] == Relock(false))
    ensures Next(s, a).value.shutdownForced && !s.shutdownForced ==> a.t in s.pcs && s.pcs[a.t].Forcing?
  {}

  /** Anyone can call either at any time. A call waits for the mutex and for nothing else: until it
      has returned it can always take its next step, except that one about to lock needs the mutex
      to be free. */
  lemma WaitsForMutexOnly(s: State, t: nat, bad: bool)
    ensures Next(s, CallServe(t)).Some? <==> t !in s.pcs
    ensures Next(s, CallShutdown(t)).Some? <==> t !in s.pcs
    ensures t in s.pcs ==> (Next(s, Go(t, bad)).Some? <==>
      var pc := s.pcs[t];
      && !pc.ServeReturned? && !pc.Refused? && !pc.ShutdownReturned?
      && (s.mutex == None || !(pc.EnterServe? || pc.WantLock? || pc.Relock?)))
  {}

  /** The notify reaches every caller that is blocked when it comes, and nothing else does. */
  lemma NotifyWakesAll(s: State, a: Action, t: nat)
    requires Next(s, a).Some? && t in s.pcs && a.t != t && s.pcs[t].Blocked?
    ensures t in Next(s, a).value.pcs
    ensures Next(s, a).value.pcs[t] ==
      if a.t in s.pcs && s.pcs[a.t].Notifying? then Blocked(true) else s.pcs[t]
  {}

  /** The thread that has the mutex lets it go after at most two steps of its own. */
  function HoldLeft(pc: Pc): nat {
    if pc.ServeSection? || pc.Checking? || pc.LastCheck? then 2 else if HasMutex(pc) then 1 else 0
  }

  lemma MutexIsReleased(s: State, a: Action)
    requires Inv(s) && s.mutex.Some? && Next(s, a).Some?
    ensures Next(s, Go(s.mutex.value, true)).Some? && HoldLeft(s.pcs[s.mutex.value]) > 0
    ensures a.t == s.mutex.value ==>
      HoldLeft(Next(s, a).value.pcs[a.t]) < HoldLeft(s.pcs[a.t])
      && (HoldLeft(Next(s, a).value.pcs[a.t]) == 0 <==> Next(s, a).value.mutex == None)
    ensures a.t != s.mutex.value ==>
      Next(s, a).value.mutex == s.mutex && Next(s, a).value.pcs[s.mutex.value] == s.pcs[s.mutex.value]
  {}
}
