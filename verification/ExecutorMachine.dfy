/** The executor's queue, mutex, condition variable and stop protocol as a machine of any
    number of submitting threads, one worker and one stopping thread. Every step is a
    mutex-level step; the worker's wait releases the mutex and blocks in one of them. */
module ExecutorMachine {
  import opened EndpointTypes

  datatype Owner = Submitter(thread: nat) | TheWorker | TheStopper

  /** One call of `SubmitOperation`; the thread's number names its request too. */
  datatype SubmitPc = Entering | InLock | Pushed | Turned | MustNotify | Returned(accepted: bool)

  datatype WorkerPc = WantLock | Checking | Sleeping | Popped(r: nat) | Executing(r: nat) | Exited

  datatype StopPc =
    | NotCalled | StopWantLock | StopInLock | Cleared | StopMustNotify | Joining
    | WantFlush | Flushing | Stopped

  /** A `set_value` on a request's promise. */
  datatype Answer = Done | Refusal

  /** `answers` holds every value set on each promise, `dropped` what the flush popped. */
  datatype State = State(
    running: bool,
    queue: seq<nat>,
    mutex: Option<Owner>,
    submitters: map<nat, SubmitPc>,
    worker: WorkerPc,
    stopper: StopPc,
    accepted: seq<nat>,
    completed: seq<nat>,
    dropped: seq<nat>,
    answers: map<nat, seq<Answer>>)

  /** The state `Start` leaves: the worker is running and nothing has been submitted. */
  const INITIAL := State(true, [], None, map[], WantLock, NotCalled, [], [], [], map[])

  datatype Action =
    | Call(t: nat) | Lock(t: nat) | Decide(t: nat) | Unlock(t: nat) | Notify(t: nat)
    | WorkerLock | WorkerCheck | WorkerUnlock | WorkerFinish | WorkerSpurious
    | StopCall | StopLock | StopClear | StopUnlock | StopNotify | StopJoin | StopFlushLock | StopFlush | StopFlushUnlock

  function Set(s: State, t: nat, pc: SubmitPc): State {
    s.(submitters := s.submitters[t := pc])
  }

  predicate At(s: State, t: nat, pc: SubmitPc) {
    t in s.submitters && s.submitters[t] == pc
  }

  function Woken(worker: WorkerPc): WorkerPc {
    if worker == Sleeping then WantLock else worker
  }

  function SubmitStep(s: State, a: Action): Option<State> {
    match a
    case Call(t) =>
      if t in s.submitters then None else Some(Set(s, t, Entering).(answers := s.answers[t := []]))
    case Lock(t) =>
      if At(s, t, Entering) && s.mutex == None then Some(Set(s, t, InLock).(mutex := Some(Submitter(t)))) else None
    case Decide(t) =>
      if !At(s, t, InLock) || t !in s.answers then None
      else if !s.running then Some(Set(s, t, Turned).(answers := s.answers[t := s.answers[t] + [Refusal]]))
      else Some(Set(s, t, Pushed).(queue := s.queue + [t], accepted := s.accepted + [t]))
    case Unlock(t) =>
      if At(s, t, Turned) then Some(Set(s, t, Returned(false)).(mutex := None))
      else if At(s, t, Pushed) then Some(Set(s, t, MustNotify).(mutex := None))
      else None
    case Notify(t) =>
      if At(s, t, MustNotify) then Some(Set(s, t, Returned(true)).(worker := Woken(s.worker))) else None
    case _ => None
  }

  function WorkerStep(s: State, a: Action): Option<State> {
    match a
    case WorkerLock =>
      if s.worker == WantLock && s.mutex == None then Some(s.(worker := Checking, mutex := Some(TheWorker))) else None
    case WorkerCheck =>
      if s.worker != Checking then None
      else if s.running && s.queue == [] then Some(s.(worker := Sleeping, mutex := None))
      else if s.queue == [] then Some(s.(worker := Exited, mutex := None))
      else Some(s.(worker := Popped(s.queue[0]), queue := s.queue[1..]))
    case WorkerUnlock =>
      if s.worker.Popped? then Some(s.(worker := Executing(s.worker.r), mutex := None)) else None
    case WorkerFinish =>
      if !s.worker.Executing? || s.worker.r !in s.answers then None
      else var r := s.worker.r;
        Some(s.(worker := WantLock, completed := s.completed + [r], answers := s.answers[r := s.answers[r] + [Done]]))
    case WorkerSpurious => if s.worker == Sleeping then Some(s.(worker := WantLock)) else None
    case _ => None
  }

  function StopStep(s: State, a: Action): Option<State> {
    match a
    case StopCall =>
      if s.stopper != NotCalled then None else Some(s.(stopper := if s.running then StopWantLock else Stopped))
    case StopLock =>
      if s.stopper != StopWantLock || s.mutex != None then None
      else Some(s.(stopper := StopInLock, mutex := Some(TheStopper)))
    case StopClear => if s.stopper == StopInLock then Some(s.(stopper := Cleared, running := false)) else None
    case StopUnlock => if s.stopper == Cleared then Some(s.(stopper := StopMustNotify, mutex := None)) else None
    case StopNotify =>
      if s.stopper == StopMustNotify then Some(s.(stopper := Joining, worker := Woken(s.worker))) else None
    case StopJoin => if s.stopper == Joining && s.worker == Exited then Some(s.(stopper := WantFlush)) else None
    case StopFlushLock =>
      if s.stopper != WantFlush || s.mutex != None then None
      else Some(s.(stopper := Flushing, mutex := Some(TheStopper)))
    case StopFlush =>
      if s.stopper != Flushing || s.queue == [] then None
      else Some(s.(dropped := s.dropped + [s.queue[0]], queue := s.queue[1..]))
    case StopFlushUnlock =>
      if s.stopper == Flushing && s.queue == [] then Some(s.(stopper := Stopped, mutex := None)) else None
    case _ => None
  }

  predicate BySubmitter(a: Action) {
    a.Call? || a.Lock? || a.Decide? || a.Unlock? || a.Notify?
  }

  predicate ByWorker(a: Action) {
    a.WorkerLock? || a.WorkerCheck? || a.WorkerUnlock? || a.WorkerFinish? || a.WorkerSpurious?
  }

  function Next(s: State, a: Action): Option<State> {
    if BySubmitter(a) then SubmitStep(s, a) else if ByWorker(a) then WorkerStep(s, a) else StopStep(s, a)
  }

  ghost predicate Run(s: State, run: seq<Action>, s': State)
    decreases run
  {
    if run == [] then s == s'
    else Next(s, run[0]).Some? && Run(Next(s, run[0]).value, run[1..], s')
  }

  ghost predicate Reachable(s: State) {
    exists run :: Run(INITIAL, run, s)
  }

  // -------------------------------------------------------------------- the invariant

  function Current(worker: WorkerPc): seq<nat> {
    if worker.Popped? || worker.Executing? then [worker.r] else []
  }

  predicate Locking(pc: SubmitPc) {
    pc == InLock || pc == Pushed || pc == Turned
  }

  ghost predicate MutexOk(s: State) {
    && (forall t :: t in s.submitters && Locking(s.submitters[t]) ==> s.mutex == Some(Submitter(t)))
    && (s.mutex.Some? && s.mutex.value.Submitter? ==>
          var t := s.mutex.value.thread;
          t in s.submitters && (s.submitters[t] == InLock || s.submitters[t] == Pushed || s.submitters[t] == Turned))
    && (s.mutex == Some(TheWorker) <==> s.worker == Checking || s.worker.Popped?)
    && (s.mutex == Some(TheStopper) <==> s.stopper == StopInLock || s.stopper == Cleared || s.stopper == Flushing)
  }

  /** Some thread has work for the worker and has not yet called `notify_one`. */
  ghost predicate WakeupOwed(s: State) {
    || s.stopper == Cleared || s.stopper == StopMustNotify
    || exists t :: t in s.submitters && (s.submitters[t] == Pushed || s.submitters[t] == MustNotify)
  }

  ghost predicate SleepOk(s: State) {
    s.worker == Sleeping && (s.queue != [] || !s.running) ==> WakeupOwed(s)
  }

  ghost predicate StopOk(s: State) {
    && (s.running <==> s.stopper == NotCalled || s.stopper == StopWantLock || s.stopper == StopInLock)
    && (s.worker == Exited ==> !s.running && s.queue == [])
    && (s.stopper == WantFlush || s.stopper == Flushing || s.stopper == Stopped ==> s.worker == Exited)
    && s.dropped == []
  }

  ghost predicate Distinct(q: seq<nat>) {
    forall i, j :: 0 <= i < j < |q| ==> q[i] != q[j]
  }

  ghost predicate HistoryOk(s: State) {
    && s.accepted == s.completed + Current(s.worker) + s.queue
    && Distinct(s.accepted)
    && forall t :: t in s.accepted ==> t in s.submitters && TookIn(s.submitters[t])
  }

  predicate TookIn(pc: SubmitPc) {
    pc == Pushed || pc == MustNotify || pc == Returned(true)
  }

  predicate TurnedAway(pc: SubmitPc) {
    pc == Turned || pc == Returned(false)
  }

  ghost predicate AnswerOk(s: State, t: nat)
    requires t in s.submitters
  {
    && t in s.answers
    && (TookIn(s.submitters[t]) ==> t in s.accepted && s.answers[t] == if t in s.completed then [Done] else [])
    && (TurnedAway(s.submitters[t]) ==> s.answers[t] == [Refusal])
    && (!TookIn(s.submitters[t]) && !TurnedAway(s.submitters[t]) ==> s.answers[t] == [])
  }

  ghost predicate AnswersOk(s: State) {
    forall t :: t in s.submitters ==> AnswerOk(s, t)
  }

  ghost predicate Inv(s: State) {
    MutexOk(s) && SleepOk(s) && StopOk(s) && HistoryOk(s) && AnswersOk(s)
  }

  // -------------------------------------------------------------------- every step

  lemma SubmitKeepsControl(s: State, a: Action)
    requires MutexOk(s) && SleepOk(s) && StopOk(s) && BySubmitter(a) && SubmitStep(s, a).Some?
    ensures MutexOk(SubmitStep(s, a).value) && StopOk(SubmitStep(s, a).value)
  {}

  lemma SubmitKeepsWakeup(s: State, a: Action)
    requires SleepOk(s) && BySubmitter(a) && SubmitStep(s, a).Some?
    ensures SleepOk(SubmitStep(s, a).value)
  {
    var s' := SubmitStep(s, a).value;
    if s'.worker == Sleeping && (s'.queue != [] || !s'.running) {
      if a.Decide? && s.running {
        assert s'.submitters[a.t] == Pushed;
      } else {
        assert WakeupOwed(s);
        if t :| t in s.submitters && (s.submitters[t] == Pushed || s.submitters[t] == MustNotify) {
          assert s'.submitters[t] == Pushed || s'.submitters[t] == MustNotify;
        }
      }
    }
  }

  lemma InCompleted(s: State, t: nat)
    requires HistoryOk(s) && t in s.completed
    ensures t in s.accepted
  {}

  lemma AcceptKeepsHistory(s: State, t: nat)
    requires HistoryOk(s) && AnswersOk(s) && At(s, t, InLock) && s.running && SubmitStep(s, Decide(t)).Some?
    ensures HistoryOk(SubmitStep(s, Decide(t)).value) && AnswersOk(SubmitStep(s, Decide(t)).value)
  {
    var s' := SubmitStep(s, Decide(t)).value;
    assert AnswerOk(s, t);
    assert t !in s.accepted;
    assert s'.accepted == s'.completed + Current(s'.worker) + s'.queue;
    forall x | x in s'.submitters ensures AnswerOk(s', x) {
      assert AnswerOk(s, x);
      if x in s.completed { InCompleted(s, x); }
    }
  }

  /** Every other submitter step touches one program counter and at most its own promise. */
  lemma OneThreadMoves(s: State, s': State, t: nat)
    requires HistoryOk(s) && AnswersOk(s) && t in s'.submitters
    requires s'.accepted == s.accepted && s'.completed == s.completed && s'.queue == s.queue
    requires Current(s'.worker) == Current(s.worker)
    requires s'.submitters == s.submitters[t := s'.submitters[t]]
    requires t in s'.answers && s'.answers == s.answers[t := s'.answers[t]]
    requires TookIn(s'.submitters[t]) <==> t in s.submitters && TookIn(s.submitters[t])
    requires AnswerOk(s', t)
    ensures HistoryOk(s') && AnswersOk(s')
  {
    forall x | x in s'.submitters ensures AnswerOk(s', x) {
      if x != t { assert AnswerOk(s, x); }
    }
  }

  lemma AnswerInStep(s: State, a: Action)
    requires HistoryOk(s) && BySubmitter(a) && SubmitStep(s, a).Some? && (a.Decide? ==> !s.running)
    requires a.t in s.submitters ==> AnswerOk(s, a.t)
    ensures a.t in SubmitStep(s, a).value.submitters && AnswerOk(SubmitStep(s, a).value, a.t)
    ensures TookIn(SubmitStep(s, a).value.submitters[a.t]) <==> a.t in s.submitters && TookIn(s.submitters[a.t])
  {}

  lemma QuietSubmitKeepsHistory(s: State, a: Action)
    requires HistoryOk(s) && AnswersOk(s) && BySubmitter(a) && SubmitStep(s, a).Some?
    requires a.Decide? ==> !s.running
    ensures HistoryOk(SubmitStep(s, a).value) && AnswersOk(SubmitStep(s, a).value)
  {
    if a.t in s.submitters { assert AnswerOk(s, a.t); }
    AnswerInStep(s, a);
    OneThreadMoves(s, SubmitStep(s, a).value, a.t);
  }

  lemma SubmitKeeps(s: State, a: Action)
    requires Inv(s) && BySubmitter(a) && SubmitStep(s, a).Some?
    ensures Inv(SubmitStep(s, a).value)
  {
    SubmitKeepsControl(s, a);
    SubmitKeepsWakeup(s, a);
    if a.Decide? && s.running { AcceptKeepsHistory(s, a.t); } else { QuietSubmitKeepsHistory(s, a); }
  }

  lemma WorkerKeepsControl(s: State, a: Action)
    requires MutexOk(s) && SleepOk(s) && StopOk(s) && ByWorker(a) && WorkerStep(s, a).Some?
    ensures MutexOk(WorkerStep(s, a).value) && SleepOk(WorkerStep(s, a).value) && StopOk(WorkerStep(s, a).value)
  {}

  lemma FinishKeepsHistory(s: State)
    requires HistoryOk(s) && AnswersOk(s) && WorkerStep(s, WorkerFinish).Some?
    ensures HistoryOk(WorkerStep(s, WorkerFinish).value) && AnswersOk(WorkerStep(s, WorkerFinish).value)
  {
    var s', r := WorkerStep(s, WorkerFinish).value, s.worker.r;
    assert s'.accepted == s'.completed + Current(s'.worker) + s'.queue;
    assert s.accepted[|s.completed|] == r;
    forall i | 0 <= i < |s.completed| ensures s.completed[i] != r {
      assert s.accepted[i] == s.completed[i];
    }
    forall x | x in s'.submitters ensures AnswerOk(s', x) {
      assert AnswerOk(s, x);
    }
  }

  lemma QuietWorkerKeepsHistory(s: State, a: Action)
    requires HistoryOk(s) && AnswersOk(s) && ByWorker(a) && !a.WorkerFinish? && WorkerStep(s, a).Some?
    ensures HistoryOk(WorkerStep(s, a).value) && AnswersOk(WorkerStep(s, a).value)
  {
    var s' := WorkerStep(s, a).value;
    if a.WorkerCheck? && s.queue != [] {
      assert s.queue == [s.queue[0]] + s.queue[1..];
    }
    assert s'.accepted == s'.completed + Current(s'.worker) + s'.queue;
    forall x | x in s'.submitters ensures AnswerOk(s', x) {
      assert AnswerOk(s, x);
    }
  }

  lemma WorkerKeeps(s: State, a: Action)
    requires Inv(s) && ByWorker(a) && WorkerStep(s, a).Some?
    ensures Inv(WorkerStep(s, a).value)
  {
    WorkerKeepsControl(s, a);
    if a.WorkerFinish? { FinishKeepsHistory(s); } else { QuietWorkerKeepsHistory(s, a); }
  }

  lemma StopKeepsControl(s: State, a: Action)
    requires MutexOk(s) && SleepOk(s) && StopOk(s) && !BySubmitter(a) && !ByWorker(a) && StopStep(s, a).Some?
    ensures MutexOk(StopStep(s, a).value) && SleepOk(StopStep(s, a).value) && StopOk(StopStep(s, a).value)
  {
    var s' := StopStep(s, a).value;
    if t :| t in s.submitters && (s.submitters[t] == Pushed || s.submitters[t] == MustNotify) {
      assert s'.submitters[t] == Pushed || s'.submitters[t] == MustNotify;
    }
  }

  lemma StopKeepsHistory(s: State, a: Action)
    requires StopOk(s) && HistoryOk(s) && AnswersOk(s) && !BySubmitter(a) && !ByWorker(a) && StopStep(s, a).Some?
    ensures HistoryOk(StopStep(s, a).value) && AnswersOk(StopStep(s, a).value)
  {
    var s' := StopStep(s, a).value;
    forall t | t in s'.submitters ensures AnswerOk(s', t) {
      assert AnswerOk(s, t);
    }
  }

  lemma StopKeeps(s: State, a: Action)
    requires Inv(s) && !BySubmitter(a) && !ByWorker(a) && StopStep(s, a).Some?
    ensures Inv(StopStep(s, a).value)
  {
    StopKeepsControl(s, a);
    StopKeepsHistory(s, a);
  }

  lemma StepKeeps(s: State, a: Action)
    requires Inv(s) && Next(s, a).Some?
    ensures Inv(Next(s, a).value)
  {
    if BySubmitter(a) { SubmitKeeps(s, a); } else if ByWorker(a) { WorkerKeeps(s, a); } else { StopKeeps(s, a); }
  }

  lemma {:induction false} RunKeeps(s: State, run: seq<Action>, s': State)
    requires Inv(s) && Run(s, run, s')
    ensures Inv(s')
    decreases run
  {
    if run != [] {
      StepKeeps(s, run[0]);
      RunKeeps(Next(s, run[0]).value, run[1..], s');
    }
  }

  lemma ReachableInv(s: State)
    requires Reachable(s)
    ensures Inv(s)
  {
    var run :| Run(INITIAL, run, s);
    RunKeeps(INITIAL, run, s);
  }
}
