/** One RDMA operation from the worker's point of view: the two inventory elements, the native
    task, and every point at which `executeRead` and `executeWrite` can return. */
module Transfers {
  const CAPACITY: nat := 16

  datatype TaskState = TaskIdle | TaskSubmitted | TaskCompleted | TaskError

  /** What DOCA answers to each call the operation makes; `states` is the task state at each
      look of the waiting loop, the callbacks having run in between. */
  datatype Fate = Fate(
    sourceOk: bool,
    destinationOk: bool,
    taskOk: bool,
    submitOk: bool,
    states: seq<TaskState>,
    sourceReleased: bool,
    destinationReleased: bool)

  predicate Final(state: TaskState) {
    state == TaskCompleted || state == TaskError
  }

  /** A callback runs once, and some look is followed by another after it. */
  ghost predicate Ends(states: seq<TaskState>) {
    && |states| >= 2 && Final(states[|states| - 2])
    && forall i, j :: 0 <= i < j < |states| && Final(states[i]) ==> states[j] == states[i]
  }

  predicate Completes(fate: Fate) {
    fate.states != [] && fate.states[|fate.states| - 1] == TaskCompleted
  }

  /** Every call an operation makes succeeds, and there is room for its two elements. */
  predicate Succeeds(buffers: bool, connected: bool, inUse: nat, fate: Fate) {
    && buffers && connected && inUse + 2 <= CAPACITY
    && fate.sourceOk && fate.destinationOk && fate.taskOk && fate.submitOk && Completes(fate)
    && fate.sourceReleased && fate.destinationReleased
  }

  /** How many elements an operation takes from the inventory, and how many it gives back. */
  function Taken(buffers: bool, connected: bool, inUse: nat, fate: Fate): nat {
    if !buffers || !connected || !fate.sourceOk || inUse >= CAPACITY then 0
    else if !fate.destinationOk || inUse + 1 >= CAPACITY then 1
    else 2
  }

  function Returned(fate: Fate): nat {
    if !fate.taskOk || !fate.submitOk || !Completes(fate) || !fate.sourceReleased then 0
    else if !fate.destinationReleased then 1
    else 2
  }

  /** The elements in use after an operation. */
  function Held(buffers: bool, connected: bool, inUse: nat, fate: Fate): nat {
    var taken := Taken(buffers, connected, inUse, fate);
    inUse + taken - if taken == 2 then Returned(fate) else 0
  }

  /** Where the operation returns, in the order of the code. */
  datatype Exit =
    | BadRequest | NotConnected | NoSource | NoDestination | NoTask | NotSubmitted
    | NotCompleted | SourceStuck | DestinationStuck | Success

  function ExitOf(buffers: bool, connected: bool, inUse: nat, fate: Fate): Exit {
    if !buffers then BadRequest
    else if !connected then NotConnected
    else if !fate.sourceOk || inUse >= CAPACITY then NoSource
    else if !fate.destinationOk || inUse + 1 >= CAPACITY then NoDestination
    else if !fate.taskOk then NoTask
    else if !fate.submitOk then NotSubmitted
    else if !Completes(fate) then NotCompleted
    else if !fate.sourceReleased then SourceStuck
    else if !fate.destinationReleased then DestinationStuck
    else Success
  }

  /** Elements still taken from the inventory after an operation that returned there. */
  function Leak(exit: Exit): nat {
    match exit
    case BadRequest => 0 case NotConnected => 0 case NoSource => 0
    case NoDestination => 1 case DestinationStuck => 1
    case NoTask => 2 case NotSubmitted => 2 case NotCompleted => 2 case SourceStuck => 2
    case Success => 0
  }

  /** The exit points mean what they say. */
  lemma ExitMeans(buffers: bool, connected: bool, inUse: nat, fate: Fate)
    ensures var exit := ExitOf(buffers, connected, inUse, fate);
      && (exit == Success <==> Succeeds(buffers, connected, inUse, fate))
      && inUse + Leak(exit) == Held(buffers, connected, inUse, fate)
      && (Allocates(exit) <==> Taken(buffers, connected, inUse, fate) == 2 && fate.taskOk)
  {}

  predicate Allocates(exit: Exit) {
    exit == NotSubmitted || exit == NotCompleted || exit == SourceStuck || exit == DestinationStuck || exit == Success
  }

  class BufferInventory {
    var inUse: nat
    /** The most elements ever in use at once. */
    ghost var peak: nat

    ghost predicate Valid()
      reads this
    {
      inUse <= peak <= CAPACITY
    }

    constructor ()
      ensures Valid() && inUse == 0 && peak == 0
    {
      inUse, peak := 0, 0;
    }

    method AllocBuffer(docaOk: bool) returns (ok: bool)
      requires Valid()
      modifies this
      ensures Valid() && (ok <==> docaOk && old(inUse) < CAPACITY)
      ensures inUse == old(inUse) + if ok then 1 else 0
      ensures peak == if inUse > old(peak) then inUse else old(peak)
    {
      ok := docaOk && inUse < CAPACITY;
      if ok {
        inUse := inUse + 1;
        peak := if inUse > peak then inUse else peak;
      }
    }

    /** `doca_buf_dec_refcount` on a buffer with one reference returns it to the inventory. */
    method DecRefcount(docaOk: bool) returns (ok: bool)
      requires Valid() && inUse > 0
      modifies this`inUse
      ensures Valid() && ok == docaOk && inUse == old(inUse) - if ok then 1 else 0
    {
      ok := docaOk;
      if ok {
        inUse := inUse - 1;
      }
    }
  }

  /** A `doca_task`; `frees` counts the calls of `doca_task_free` on it. */
  class NativeTask {
    var frees: nat

    constructor ()
      ensures frees == 0
    {
      frees := 0;
    }
  }

  /** `RdmaReadTask` and `RdmaWriteTask`, which differ only in the native type they wrap. */
  class RdmaTask {
    var task: NativeTask?

    constructor (native: NativeTask)
      ensures task == native
    {
      task := native;
    }

    method Submit(docaOk: bool) returns (ok: bool)
      ensures ok <==> task != null && docaOk
    {
      if task == null {
        return false;
      }
      ok := docaOk;
    }

    method Free()
      requires task != null
      modifies this, task
      ensures task == null && old(task).frees == old(task.frees) + 1
    {
      task.frees := task.frees + 1;
      task := null;
    }

    /** The destructor, run when the last reference goes out of scope. */
    method Destroy()
      modifies this, task
      ensures old(task) != null ==> old(task).frees == old(task.frees) + 1
    {
      if task != null {
        task.frees := task.frees + 1;
      }
    }
  }

  /** `waitForTaskState` with the default timeout of zero, which never expires. */
  method WaitForTaskState(states: seq<TaskState>) returns (ok: bool)
    requires Ends(states)
    ensures ok <==> states[|states| - 1] == TaskCompleted
  {
    var look := 0;
    while states[look] != TaskCompleted
      invariant 0 <= look < |states|
      invariant look == |states| - 1 ==> states[look] == TaskCompleted
      decreases |states| - look
    {
      look := look + 1;
      if states[look] == TaskError {
        return false;
      }
    }
    return true;
  }

  /** An operation takes two elements on top of what is in use. */
  function Top(peak: nat, inUse: nat): nat {
    if peak > inUse + 2 then peak else inUse + 2
  }

  /** `executeRead` and `executeWrite`: the same steps on the same calls, with the remote buffer
      as the source of a read and as the destination of a write. */
  method ExecuteTransfer(inventory: BufferInventory, buffers: bool, connected: bool, fate: Fate)
    returns (ok: bool, native: NativeTask?)
    requires inventory.Valid() && (fate.submitOk ==> Ends(fate.states))
    modifies inventory
    ensures inventory.Valid()
    ensures var exit := ExitOf(buffers, connected, old(inventory.inUse), fate);
      && inventory.inUse == old(inventory.inUse) + Leak(exit)
      && (ok <==> exit == Success)
      && (native != null <==> Allocates(exit))
    ensures ok <==>
      && buffers && connected && old(inventory.inUse) + 2 <= CAPACITY
      && fate.sourceOk && fate.destinationOk && fate.taskOk && fate.submitOk
      && fate.states[|fate.states| - 1] == TaskCompleted
      && fate.sourceReleased && fate.destinationReleased
    ensures ok ==> inventory.inUse == old(inventory.inUse)
    ensures native != null && !ok ==>
      inventory.inUse == old(inventory.inUse)
        + if fate.submitOk && fate.states[|fate.states| - 1] == TaskCompleted && fate.sourceReleased then 1 else 2
    ensures !buffers || !connected || !fate.sourceOk || old(inventory.inUse) == CAPACITY ==>
      inventory.inUse == old(inventory.inUse)
    ensures buffers && connected && fate.sourceOk && old(inventory.inUse) < CAPACITY ==>
      (!fate.destinationOk || old(inventory.inUse) + 1 == CAPACITY ==> inventory.inUse == old(inventory.inUse) + 1)
    ensures buffers && connected && fate.sourceOk && fate.destinationOk && old(inventory.inUse) + 2 <= CAPACITY ==>
      (!fate.taskOk ==> inventory.inUse == old(inventory.inUse) + 2)
    ensures native != null <==>
      && buffers && connected && old(inventory.inUse) + 2 <= CAPACITY
      && fate.sourceOk && fate.destinationOk && fate.taskOk
    ensures native != null ==> fresh(native) && native.frees == 1
    ensures inventory.peak <= Top(old(inventory.peak), old(inventory.inUse))
  {
    native := null;
    if !buffers {
      return false, null;
    }
    if !connected {
      return false, null;
    }
    var source := inventory.AllocBuffer(fate.sourceOk);
    if !source {
      return false, null;
    }
    var destination := inventory.AllocBuffer(fate.destinationOk);
    if !destination {
      return false, null;
    }
    if !fate.taskOk {
      return false, null;
    }
    native := new NativeTask();
    var task := new RdmaTask(native);
    var submitted := task.Submit(fate.submitOk);
    if !submitted {
      task.Destroy();
      return false, native;
    }
    var completed := WaitForTaskState(fate.states);
    if !completed {
      task.Destroy();
      return false, native;
    }
    task.Free();
    var released := inventory.DecRefcount(fate.sourceReleased);
    if !released {
      task.Destroy();
      return false, native;
    }
    released := inventory.DecRefcount(fate.destinationReleased);
    task.Destroy();
    return released, native;
  }

  // ------------------------------------------------------------------- runs of operations

  datatype Operation = Operation(buffers: bool, connected: bool, fate: Fate)

  function ExitAfter(inUse: nat, op: Operation): Exit {
    ExitOf(op.buffers, op.connected, inUse, op.fate)
  }

  /** Where each operation of a run returns, each starting from what the ones before left. */
  function Exits(inUse: nat, ops: seq<Operation>): seq<Exit>
    decreases ops
  {
    if ops == [] then []
    else [ExitAfter(inUse, ops[0])] + Exits(inUse + Leak(ExitAfter(inUse, ops[0])), ops[1..])
  }

  function Leaks(exits: seq<Exit>): nat {
    if exits == [] then 0 else Leak(exits[0]) + Leaks(exits[1..])
  }

  lemma {:induction false} ExitsSplit(inUse: nat, ops: seq<Operation>, k: nat)
    requires k < |ops|
    ensures |Exits(inUse, ops)| == |ops|
    ensures Exits(inUse, ops)[k] == ExitAfter(inUse + Leaks(Exits(inUse, ops)[..k]), ops[k])
    ensures Leaks(Exits(inUse, ops)[..k + 1]) == Leaks(Exits(inUse, ops)[..k]) + Leak(Exits(inUse, ops)[k])
    decreases ops
  {
    var exits := Exits(inUse, ops);
    var next := inUse + Leak(exits[0]);
    assert exits[1..] == Exits(next, ops[1..]);
    ExitsLength(inUse, ops);
    if k == 0 {
      assert exits[..1][1..] == [];
    } else {
      ExitsSplit(next, ops[1..], k - 1);
      assert exits[..k][1..] == exits[1..][..k - 1];
      assert exits[..k + 1][1..] == exits[1..][..k];
    }
  }

  lemma {:induction false} ExitsLength(inUse: nat, ops: seq<Operation>)
    ensures |Exits(inUse, ops)| == |ops|
    decreases ops
  {
    if ops != [] { ExitsLength(inUse + Leak(ExitAfter(inUse, ops[0])), ops[1..]); }
  }

  /** The same run without its exit points: the elements in use after it. */
  function HeldAfter(inUse: nat, ops: seq<Operation>): nat
    decreases ops
  {
    if ops == [] then inUse
    else HeldAfter(Held(ops[0].buffers, ops[0].connected, inUse, ops[0].fate), ops[1..])
  }

  lemma {:induction false} ExitsHold(inUse: nat, ops: seq<Operation>)
    ensures inUse + Leaks(Exits(inUse, ops)) == HeldAfter(inUse, ops)
    decreases ops
  {
    if ops != [] {
      var next := inUse + Leak(ExitAfter(inUse, ops[0]));
      ExitMeans(ops[0].buffers, ops[0].connected, inUse, ops[0].fate);
      ExitsHold(next, ops[1..]);
      assert Exits(inUse, ops)[1..] == Exits(next, ops[1..]);
    }
  }

  lemma {:induction false} ExitsOfPrefix(inUse: nat, ops: seq<Operation>, k: nat)
    requires k <= |ops|
    ensures |Exits(inUse, ops)| == |ops| && Exits(inUse, ops)[..k] == Exits(inUse, ops[..k])
    decreases ops
  {
    if ops != [] {
      var next := inUse + Leak(ExitAfter(inUse, ops[0]));
      ExitsOfPrefix(next, ops[1..], if k == 0 then 0 else k - 1);
      if k > 0 {
        assert ops[..k][1..] == ops[1..][..k - 1];
      }
    }
  }

  /** Every call of the k-th operation succeeds, with the room that the ones before it left. */
  predicate SucceedsAt(inUse: nat, ops: seq<Operation>, k: nat)
    requires k < |ops|
  {
    Succeeds(ops[k].buffers, ops[k].connected, HeldAfter(inUse, ops[..k]), ops[k].fate)
  }

  /** The k-th operation of a run succeeds exactly when every call it makes does, with room left
      by the ones before it. */
  lemma RunSucceeds(inUse: nat, ops: seq<Operation>, k: nat)
    requires k < |ops|
    ensures |Exits(inUse, ops)| == |ops|
    ensures Exits(inUse, ops)[k] == Success <==> SucceedsAt(inUse, ops, k)
  {
    ExitsOfPrefix(inUse, ops, k);
    ExitsHold(inUse, ops[..k]);
    ExitsSplit(inUse, ops, k);
    ExitMeans(ops[k].buffers, ops[k].connected, HeldAfter(inUse, ops[..k]), ops[k].fate);
  }

  /** Conservation: a run leaves in use what it found plus the leaks of its exit points, and
      never more than the capacity. */
  lemma {:induction false} InventoryConserved(inUse: nat, ops: seq<Operation>)
    requires inUse <= CAPACITY
    ensures inUse + Leaks(Exits(inUse, ops)) <= CAPACITY
    ensures |Exits(inUse, ops)| == |ops|
    decreases ops
  {
    if ops != [] {
      var next := inUse + Leak(ExitAfter(inUse, ops[0]));
      InventoryConserved(next, ops[1..]);
      assert Exits(inUse, ops)[1..] == Exits(next, ops[1..]);
    }
  }

  /** Nothing is left in use exactly when no operation returned at a leaking point. */
  lemma {:induction false} NoLeaks(exits: seq<Exit>)
    ensures Leaks(exits) == 0 <==> forall e | e in exits :: Leak(e) == 0
    decreases exits
  {
    if exits != [] {
      NoLeaks(exits[1..]);
      assert forall e :: e in exits <==> e == exits[0] || e in exits[1..];
    }
  }

  /** Leaks are for good: once fewer than two elements are left no operation of any later run
      succeeds, and it takes at most sixteen failed operations that leaked to get there. */
  lemma {:induction false} ExhaustionIsFinal(inUse: nat, ops: seq<Operation>)
    requires inUse <= CAPACITY && inUse + 2 > CAPACITY
    ensures forall e | e in Exits(inUse, ops) :: e != Success
    decreases ops
  {
    if ops != [] {
      var exit := ExitAfter(inUse, ops[0]);
      var next := inUse + Leak(exit);
      ExhaustionIsFinal(next, ops[1..]);
      assert forall e :: e in Exits(inUse, ops) <==> e == exit || e in Exits(next, ops[1..]);
    }
  }

  function Leaky(exits: seq<Exit>): nat {
    if exits == [] then 0 else (if Leak(exits[0]) > 0 then 1 else 0) + Leaky(exits[1..])
  }

  lemma {:induction false} LeakyBounded(exits: seq<Exit>)
    ensures Leaky(exits) <= Leaks(exits) <= 2 * Leaky(exits)
    decreases exits
  {
    if exits != [] { LeakyBounded(exits[1..]); }
  }

  /** In any run at most sixteen operations leak, and an executor on which at most seven have
      leaked still has room for an operation. */
  lemma LeakBudget(ops: seq<Operation>)
    ensures Leaky(Exits(0, ops)) <= CAPACITY
    ensures Leaky(Exits(0, ops)) <= 7 ==> Leaks(Exits(0, ops)) + 2 <= CAPACITY
  {
    InventoryConserved(0, ops);
    LeakyBounded(Exits(0, ops));
  }
}
