/** What the executor's queue guarantees over every interleaving. */
module ExecutorTheorems {
  import opened EndpointTypes
  import opened ExecutorMachine

  /** No promise is set twice; a call that was refused had its promise set, once and to an
      error; a request that was accepted, its call returned or not, has its promise set, once and
      by the worker, when the worker has exited. */
  lemma PromisesSetOnce(s: State, t: nat)
    requires Reachable(s) && t in s.submitters
    ensures t in s.answers && |s.answers[t]| <= 1
    ensures s.submitters[t] == Returned(false) ==> s.answers[t] == [Refusal] && t !in s.accepted
    ensures s.submitters[t] == Returned(true) ==> t in s.accepted && Refusal !in s.answers[t]
    ensures t in s.accepted <==> TookIn(s.submitters[t])
    ensures t in s.accepted && s.worker == Exited ==> s.answers[t] == [Done]
    ensures t in s.accepted && t in s.completed ==> s.answers[t] == [Done]
  {
    ReachableInv(s);
    assert AnswerOk(s, t);
    if s.worker == Exited { assert s.accepted == s.completed; }
    if TurnedAway(s.submitters[t]) { assert t !in s.accepted; }
  }

  /** The queue is first in, first out and nothing is lost: what was completed, what is being
      executed and what waits are together exactly what was accepted, in that order. */
  lemma FifoHistory(s: State)
    requires Reachable(s)
    ensures s.accepted == s.completed + Current(s.worker) + s.queue
    ensures forall i, j :: 0 <= i < j < |s.accepted| ==> s.accepted[i] != s.accepted[j]
    ensures s.dropped == []
  {
    ReachableInv(s);
  }

  /** No lost wakeup: a worker asleep with work to do, or told to stop, is owed a
      `notify_one` by a thread that has yet to call it. */
  lemma NoLostWakeup(s: State)
    requires Reachable(s) && s.worker == Sleeping && (s.queue != [] || !s.running)
    ensures WakeupOwed(s)
  {
    ReachableInv(s);
  }

  /** The flush after the join finds the queue empty, so it drops no accepted request. */
  lemma FlushFindsNothing(s: State)
    requires Reachable(s) && s.stopper == Flushing
    ensures s.queue == [] && s.completed == s.accepted && StopStep(s, StopFlush).None?
  {
    ReachableInv(s);
  }

  lemma AcceptedGrows(s: State, a: Action)
    requires Next(s, a).Some?
    ensures s.accepted <= Next(s, a).value.accepted
    ensures !s.running ==> !Next(s, a).value.running && Next(s, a).value.accepted == s.accepted
  {}

  /** Once `workerRunning` is false nothing more is accepted, and a worker that exits has by
      then completed exactly the requests accepted before. */
  lemma {:induction false} StopFreezesAccepted(s: State, run: seq<Action>, s': State)
    requires Inv(s) && Run(s, run, s') && !s.running
    ensures !s'.running && s'.accepted == s.accepted
    ensures s'.worker == Exited ==> s'.completed == s.accepted
    decreases run
  {
    if run == [] {
      assert s.worker == Exited ==> s.accepted == s.completed;
    } else {
      StepKeeps(s, run[0]);
      AcceptedGrows(s, run[0]);
      StopFreezesAccepted(Next(s, run[0]).value, run[1..], s');
    }
  }

  // ---------------------------------------------------------- the end of the worker

  /** Steps the worker has left once it was told to stop: four for each request, and its way to
      the exit. */
  function WorkerLeft(s: State): nat {
    4 * |s.queue| + match s.worker
      case Sleeping => 3 case WantLock => 2 case Checking => 1
      case Popped(_) => 4 case Executing(_) => 3 case Exited => 0
  }

  function WorkerSteps(run: seq<Action>): nat {
    if run == [] then 0 else (if ByWorker(run[0]) then 1 else 0) + WorkerSteps(run[1..])
  }

  lemma StoppedStep(s: State, a: Action)
    requires Next(s, a).Some? && !s.running
    ensures !Next(s, a).value.running
    ensures WorkerLeft(Next(s, a).value) + (if ByWorker(a) then 1 else 0) <= WorkerLeft(s)
  {}

  /** After the stop flag is down the worker takes at most four steps for each queued request and
      four more, in every run and whatever the other threads do: it cannot go on for ever, and by
      `StopFreezesAccepted` it has completed everything accepted when it exits. */
  lemma {:induction false} StoppedWorkerIsBounded(s: State, run: seq<Action>, s': State)
    requires Run(s, run, s') && !s.running
    ensures WorkerSteps(run) + WorkerLeft(s') <= WorkerLeft(s) <= 4 * |s.queue| + 4
    decreases run
  {
    if run != [] {
      StoppedStep(s, run[0]);
      StoppedWorkerIsBounded(Next(s, run[0]).value, run[1..], s');
    }
  }

  // ---------------------------------------------------------------------- progress

  /** Nothing is left to do: the worker has exited, or sleeps on an empty queue. */
  ghost predicate Quiet(s: State) {
    s.worker == Exited || (s.worker == Sleeping && s.running && s.queue == [])
  }

  ghost predicate SubmitterDeciding(s: State) {
    s.mutex.Some? && s.mutex.value.Submitter? && At(s, s.mutex.value.thread, InLock)
  }

  /** Work ahead of the worker, counting a submission that already has the mutex. */
  ghost function WorkLeft(s: State): nat {
    var pc := match s.worker
      case WantLock => 4 case Checking => 3 case Sleeping => if Quiet(s) then 0 else 5
      case Popped(_) => 7 case Executing(_) => 5 case Exited => 0;
    5 * |s.queue| + pc + if SubmitterDeciding(s) then 12 else 0
  }

  /** Steps until whoever holds the mutex lets it go. */
  ghost function HolderSteps(s: State): nat {
    if s.mutex == None || s.mutex == Some(TheWorker) then 0
    else if s.mutex == Some(TheStopper) then if s.stopper == StopInLock then 2 else 1
    else if SubmitterDeciding(s) then 2 else 1
  }

  /** Whoever else has the mutex can go on. */
  lemma HolderGoesOn(s: State) returns (a: Action)
    requires Inv(s) && !Quiet(s) && s.mutex.Some? && s.mutex != Some(TheWorker)
    ensures HolderStep(s, a) && Next(s, a).Some?
  {
    if s.mutex == Some(TheStopper) {
      a := if s.stopper == StopInLock then StopClear else StopUnlock;
    } else {
      var t := s.mutex.value.thread;
      assert AnswerOk(s, t);
      a := if At(s, t, InLock) then Decide(t) else Unlock(t);
    }
  }

  /** Whoever owes a sleeping worker its notify can call it, once the mutex is free. */
  lemma NotifierGoesOn(s: State) returns (a: Action)
    requires Inv(s) && !Quiet(s) && s.worker == Sleeping && s.mutex == None
    ensures ((a.Notify? && At(s, a.t, MustNotify)) || a.StopNotify?) && Next(s, a).Some?
  {
    assert WakeupOwed(s);
    if s.stopper == StopMustNotify { a := StopNotify; }
    else {
      var t :| t in s.submitters && (s.submitters[t] == Pushed || s.submitters[t] == MustNotify);
      a := Notify(t);
    }
  }

  /** The step of the thread the worker is waiting for, or of the worker itself. */
  lemma Helpful(s: State) returns (a: Action)
    requires Inv(s) && !Quiet(s)
    ensures !a.Call? && !a.WorkerSpurious? && Next(s, a).Some?
    ensures a == WorkerLock || a == WorkerCheck || a == WorkerUnlock || a == WorkerFinish
      || (s.mutex.Some? && s.mutex != Some(TheWorker) && HolderStep(s, a))
      || (s.worker == Sleeping && ((a.Notify? && At(s, a.t, MustNotify)) || a.StopNotify?))
  {
    if s.mutex.Some? && s.mutex != Some(TheWorker) {
      a := HolderGoesOn(s);
    } else if s.worker == Sleeping {
      a := NotifierGoesOn(s);
    } else if s.worker.Executing? {
      assert s.worker.r in s.accepted by { assert s.worker.r in Current(s.worker); }
      assert AnswerOk(s, s.worker.r);
      a := WorkerFinish;
    } else {
      a := if s.worker == WantLock then WorkerLock else if s.worker == Checking then WorkerCheck else WorkerUnlock;
    }
  }

  ghost predicate HolderStep(s: State, a: Action)
    requires s.mutex.Some?
  {
    if s.mutex == Some(TheStopper) then a == StopClear || a == StopUnlock
    else s.mutex.value.Submitter? && (a == Decide(s.mutex.value.thread) || a == Unlock(s.mutex.value.thread))
  }

  lemma WorkerShrinks(s: State, a: Action)
    requires Inv(s) && WorkerStep(s, a).Some?
    requires a == WorkerLock || a == WorkerCheck || a == WorkerUnlock || a == WorkerFinish
    ensures WorkLeft(WorkerStep(s, a).value) < WorkLeft(s)
  {}

  lemma HolderShrinks(s: State, a: Action)
    requires Inv(s) && !Quiet(s) && Next(s, a).Some?
    requires s.mutex.Some? && s.mutex != Some(TheWorker) && HolderStep(s, a)
    ensures WorkLeft(Next(s, a).value) <= WorkLeft(s)
    ensures WorkLeft(Next(s, a).value) == WorkLeft(s) ==> HolderSteps(Next(s, a).value) < HolderSteps(s)
  {}

  lemma NotifyShrinks(s: State, a: Action)
    requires Inv(s) && !Quiet(s) && Next(s, a).Some? && s.worker == Sleeping
    requires (a.Notify? && At(s, a.t, MustNotify)) || a.StopNotify?
    ensures WorkLeft(Next(s, a).value) < WorkLeft(s)
  {}

  lemma HelpfulShrinks(s: State) returns (a: Action)
    requires Inv(s) && !Quiet(s)
    ensures !a.Call? && Next(s, a).Some?
    ensures WorkLeft(Next(s, a).value) < WorkLeft(s)
      || (WorkLeft(Next(s, a).value) == WorkLeft(s) && HolderSteps(Next(s, a).value) < HolderSteps(s))
  {
    a := Helpful(s);
    if a == WorkerLock || a == WorkerCheck || a == WorkerUnlock || a == WorkerFinish { WorkerShrinks(s, a); }
    else if s.mutex.Some? && s.mutex != Some(TheWorker) && HolderStep(s, a) { HolderShrinks(s, a); }
    else { NotifyShrinks(s, a); }
  }

  lemma QuietIsDone(s: State)
    requires Inv(s) && Quiet(s)
    ensures s.completed == s.accepted && (!s.running ==> s.worker == Exited)
  {
    assert s.accepted == s.completed + [] + [];
  }

  /** No accepted work is stranded: from every reachable state there is a run without new
      calls in which everything accepted is completed, and in which a stopped worker exits. */
  lemma {:induction false} AcceptedWorkCompletes(s: State) returns (run: seq<Action>, s': State)
    requires Inv(s)
    ensures Run(s, run, s') && (forall a | a in run :: !a.Call?)
    ensures Quiet(s') && s'.completed == s'.accepted && s.accepted <= s'.accepted
    ensures !s.running ==> s'.worker == Exited && s'.accepted == s.accepted
    decreases WorkLeft(s), HolderSteps(s)
  {
    if Quiet(s) {
      QuietIsDone(s);
      return [], s;
    }
    var a := HelpfulShrinks(s);
    var t := Next(s, a).value;
    StepKeeps(s, a);
    AcceptedGrows(s, a);
    var rest;
    rest, s' := AcceptedWorkCompletes(t);
    run := [a] + rest;
    assert run[1..] == rest;
  }

  // ------------------------------------------------------------ what a call is told, and when

  /** A call is accepted exactly when the stop flag is up at its look under the lock: then its
      request is queued last and unanswered, otherwise its promise is set to an error at once. */
  lemma AcceptsExactly(s: State, t: nat)
    requires Inv(s) && SubmitStep(s, Decide(t)).Some?
    ensures t in s.submitters && t in SubmitStep(s, Decide(t)).value.submitters
    ensures var s' := SubmitStep(s, Decide(t)).value;
      if s.running then
        && s'.accepted == s.accepted + [t] && s'.queue == s.queue + [t]
        && s'.answers == s.answers && TookIn(s'.submitters[t])
      else
        && s'.accepted == s.accepted && s'.queue == s.queue
        && s'.answers == s.answers[t := [Refusal]] && TurnedAway(s'.submitters[t])
  {
    assert AnswerOk(s, t);
    assert [] + [Refusal] == [Refusal];
  }

  /** And no other step accepts anything. */
  lemma OnlyDecideAccepts(s: State, a: Action)
    requires Next(s, a).Some? && !a.Decide?
    ensures Next(s, a).value.accepted == s.accepted
  {}

  /** Any thread can call at any time, a caller waits for nothing but the mutex, and the worker can
      wake up for no reason. */
  lemma CallsOpen(s: State, t: nat)
    ensures Next(s, Call(t)).Some? <==> t !in s.submitters
    ensures Next(s, Lock(t)).Some? <==> At(s, t, Entering) && s.mutex == None
    ensures Next(s, WorkerSpurious).Some? <==> s.worker == Sleeping
    ensures Next(s, StopCall).Some? <==> s.stopper == NotCalled
  {}

  ghost predicate RefusedOk(s: State) {
    forall t :: t in s.submitters && TurnedAway(s.submitters[t]) ==> !s.running
  }

  lemma {:induction false} RefusedByRun(s: State, run: seq<Action>, s': State)
    requires RefusedOk(s) && Run(s, run, s')
    ensures RefusedOk(s')
    decreases run
  {
    if run != [] {
      RefusedStep(s, run[0]);
      RefusedByRun(Next(s, run[0]).value, run[1..], s');
    }
  }

  lemma RefusedStep(s: State, a: Action)
    requires RefusedOk(s) && Next(s, a).Some?
    ensures RefusedOk(Next(s, a).value)
  {}

  /** Before the stop nobody is refused. */
  lemma RefusedOnlyAfterStop(s: State, t: nat)
    requires Reachable(s) && t in s.submitters && TurnedAway(s.submitters[t])
    ensures !s.running && s.stopper != NotCalled
  {
    ReachableInv(s);
    var run :| Run(INITIAL, run, s);
    RefusedByRun(INITIAL, run, s);
  }

  /** Steps until the thread that has the mutex lets it go. */
  ghost function HeldFor(s: State): nat {
    match s.mutex
    case None => 0
    case Some(Submitter(t)) => if At(s, t, InLock) then 2 else 1
    case Some(TheWorker) => if s.worker == Checking then 2 else 1
    case Some(TheStopper) => if s.stopper == StopInLock then 2 else 1
  }

  function CallLeft(pc: SubmitPc): nat {
    match pc
    case Entering => 4 case InLock => 3 case Pushed => 2 case Turned => 2 case MustNotify => 1 case Returned(_) => 0
  }

  function StopLeft(pc: StopPc): nat {
    match pc
    case NotCalled => 0 case StopWantLock => 7 case StopInLock => 6 case Cleared => 5 case StopMustNotify => 4
    case Joining => 3 case WantFlush => 2 case Flushing => 1 case Stopped => 0
  }

  /** Nothing sets a call or the stop back. */
  ghost predicate Advances(s: State, s': State) {
    && (forall t :: t in s.submitters ==> t in s'.submitters && CallLeft(s'.submitters[t]) <= CallLeft(s.submitters[t]))
    && (s.stopper != NotCalled ==> s'.stopper != NotCalled && StopLeft(s'.stopper) <= StopLeft(s.stopper))
    && (s.worker == Exited ==> s'.worker == Exited)
  }

  lemma SubmitAdvances(s: State, a: Action)
    requires SubmitStep(s, a).Some?
    ensures Advances(s, SubmitStep(s, a).value)
  {}

  lemma WorkerAdvances(s: State, a: Action)
    requires WorkerStep(s, a).Some?
    ensures Advances(s, WorkerStep(s, a).value)
  {}

  lemma StopAdvances(s: State, a: Action)
    requires StopStep(s, a).Some?
    ensures Advances(s, StopStep(s, a).value)
  {}

  lemma StepAdvances(s: State, a: Action)
    requires Next(s, a).Some?
    ensures Advances(s, Next(s, a).value)
  {
    if BySubmitter(a) { SubmitAdvances(s, a); }
    else if ByWorker(a) { WorkerAdvances(s, a); }
    else { StopAdvances(s, a); }
  }

  /** Whoever has the mutex can go on, towards letting it go. */
  lemma ReleaseStep(s: State) returns (a: Action)
    requires Inv(s) && s.mutex.Some?
    ensures !a.Call? && Next(s, a).Some? && HeldFor(Next(s, a).value) < HeldFor(s)
  {
    match s.mutex.value
    case Submitter(t) =>
      assert AnswerOk(s, t);
      a := if At(s, t, InLock) then Decide(t) else Unlock(t);
    case TheWorker => a := if s.worker == Checking then WorkerCheck else WorkerUnlock;
    case TheStopper =>
      a := if s.stopper == StopInLock then StopClear else if s.stopper == Cleared then StopUnlock else StopFlushUnlock;
  }

  /** Every call of `SubmitOperation` can be brought to its return, from wherever it is and without
      a new call, whatever the others are doing. */
  lemma {:induction false} CallReturns(s: State, t: nat) returns (run: seq<Action>, s': State)
    requires Inv(s) && t in s.submitters
    ensures Run(s, run, s') && Inv(s') && (forall a | a in run :: !a.Call?)
    ensures t in s'.submitters && s'.submitters[t].Returned?
    decreases CallLeft(s.submitters[t]), HeldFor(s)
  {
    if s.submitters[t].Returned? { return [], s; }
    var a;
    if s.mutex.Some? { a := ReleaseStep(s); }
    else { a := if s.submitters[t] == Entering then Lock(t) else Notify(t); }
    StepAdvances(s, a);
    StepKeeps(s, a);
    var rest;
    rest, s' := CallReturns(Next(s, a).value, t);
    run := [a] + rest;
    assert run[1..] == rest;
  }

  /** The worker's work ahead of a stopper that waits for it. */
  ghost function JoinLeft(s: State): nat {
    if s.stopper == Joining && s.worker != Exited then WorkLeft(s) else 0
  }

  /** `Stop` can be brought to its return from wherever it is: the worker has then exited, the
      queue is empty, and everything accepted was completed. */
  lemma {:induction false} StopReturns(s: State) returns (run: seq<Action>, s': State)
    requires Inv(s) && s.stopper != NotCalled
    ensures Run(s, run, s') && Inv(s') && (forall a | a in run :: !a.Call?)
    ensures s'.stopper == Stopped && s'.worker == Exited && s'.queue == [] && s'.completed == s'.accepted
    decreases StopLeft(s.stopper), JoinLeft(s), if JoinLeft(s) > 0 then HolderSteps(s) else HeldFor(s)
  {
    if s.stopper == Stopped {
      QuietIsDone(s);
      return [], s;
    }
    var a;
    if s.stopper == Joining && s.worker != Exited { a := HelpfulShrinks(s); }
    else if s.mutex.Some? { a := ReleaseStep(s); }
    else {
      a := if s.stopper == StopWantLock then StopLock else if s.stopper == StopMustNotify then StopNotify
           else if s.stopper == Joining then StopJoin else StopFlushLock;
    }
    StepAdvances(s, a);
    StepKeeps(s, a);
    var rest;
    rest, s' := StopReturns(Next(s, a).value);
    run := [a] + rest;
    assert run[1..] == rest;
  }
}
