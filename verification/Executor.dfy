/** The sequential code of `RdmaExecutor` on its own fields. */
module Executor {
  import opened EndpointTypes
  import opened Transfers
  import opened Connections

  /** A promise; `values` holds every value set on it. */
  class Promise {
    var values: seq<bool>

    constructor ()
      ensures values == []
    {
      values := [];
    }

    method SetValue(ok: bool)
      requires values == []
      modifies this
      ensures values == [ok]
    {
      values := [ok];
    }
  }

  /** The consumer of one promise: a timeout leaves the answer where it is, and an answer is
      taken once. */
  class RdmaAwaitable {
    const promise: Promise
    var taken: bool

    constructor (promise: Promise)
      ensures this.promise == promise && !taken
    {
      this.promise, taken := promise, false;
    }

    /** Returns only once the promise is set. */
    method Await() returns (ok: bool)
      requires !taken && promise.values != []
      modifies this
      ensures taken && ok == promise.values[0]
    {
      ok, taken := promise.values[0], true;
    }

    /** `None` is a timeout: the promise was not set while the call waited. */
    method AwaitWithTimeout() returns (answer: Option<bool>)
      requires !taken
      modifies this
      ensures answer.Some? <==> promise.values != []
      ensures answer.Some? ==> answer.value == promise.values[0]
      ensures taken == answer.Some?
    {
      answer := None;
      if promise.values != [] {
        var ok := Await();
        answer := Some(ok);
      }
    }
  }

  datatype Request = Request(buffers: bool, fate: Fate, promise: Promise)

  /** Every request has its own promise and a fate a task can have. */
  ghost predicate WellFormed(requests: seq<Request>) {
    && (forall i, j :: 0 <= i < j < |requests| ==> requests[i].promise != requests[j].promise)
    && (forall i :: 0 <= i < |requests| && requests[i].fate.submitOk ==> Ends(requests[i].fate.states))
  }

  function Operations(requests: seq<Request>, connected: bool): (ops: seq<Operation>)
    ensures |ops| == |requests|
  {
    seq(|requests|, i requires 0 <= i < |requests| => Operation(requests[i].buffers, connected, requests[i].fate))
  }

  /** The first `done` of `all` have been answered, each as its exit point says, and what they
      leaked is in use; the others still wait. */
  ghost predicate Progress(inventory: BufferInventory, all: seq<Request>, exits: seq<Exit>, before: nat, done: nat)
    reads inventory, set r | r in all :: r.promise
  {
    && |exits| == |all| && done <= |all|
    && inventory.Valid() && inventory.inUse == before + Leaks(exits[..done])
    && (forall i :: 0 <= i < done ==> all[i].promise.values == [exits[i] == Success])
    && (forall i :: done <= i < |all| ==> all[i].promise.values == [])
  }

  lemma NextExit(all: seq<Request>, before: nat, connected: bool, exits: seq<Exit>, done: nat)
    requires done < |all| && exits == Exits(before, Operations(all, connected))
    ensures |exits| == |all|
    ensures exits[done] == ExitOf(all[done].buffers, connected, before + Leaks(exits[..done]), all[done].fate)
    ensures Leaks(exits[..done + 1]) == Leaks(exits[..done]) + Leak(exits[done])
  {
    var ops := Operations(all, connected);
    assert ops[done] == Operation(all[done].buffers, connected, all[done].fate);
    ExitsSplit(before, ops, done);
  }

  lemma Slide<T>(s: seq<T>, a: nat, b: nat, n: nat)
    requires a <= b && b + n <= |s|
    ensures s[a..b] + s[b..][..n] == s[a..b + n] && s[b..][n..] == s[b + n..]
    ensures a < b ==> s[a..b][0] == s[a] && s[a..b][1..] == s[a + 1..b]
  {}

  class RdmaExecutor {
    var workerRunning: bool
    var operationQueue: seq<Request>
    var activeConnection: Option<nat>
    var requestedConnection: Option<nat>
    const inventory: BufferInventory

    /** The executor as `Start` leaves it. */
    constructor ()
      ensures workerRunning && operationQueue == [] && Slots() == START.slots
      ensures fresh(inventory) && inventory.Valid() && inventory.inUse == 0
    {
      workerRunning, operationQueue := true, [];
      activeConnection, requestedConnection := None, None;
      inventory := new BufferInventory();
    }

    function Slots(): Slots
      reads this
    {
      Connections.Slots(activeConnection, requestedConnection)
    }

    method OnConnectionRequested(id: nat, acceptOk: bool) returns (accepted: bool)
      modifies this`requestedConnection
      ensures Slots() == After(old(Slots()), Requested(id, acceptOk))
      ensures accepted <==> Takes(old(Slots())) && acceptOk
    {
      if activeConnection != None {
        return false;
      }
      if requestedConnection != None {
        return false;
      }
      requestedConnection := Some(id);
      accepted := acceptOk;
    }

    method OnConnectionEstablished(id: nat) returns (kept: bool)
      modifies this`activeConnection, this`requestedConnection
      ensures Slots() == After(old(Slots()), Established(id))
      ensures kept <==> old(activeConnection) == None
    {
      if activeConnection != None {
        return false;
      }
      activeConnection := Some(id);
      requestedConnection := None;
      return true;
    }

    method OnConnectionClosed(id: nat)
      modifies this`activeConnection
      ensures Slots() == After(old(Slots()), ConnectionClosed(id))
    {
      activeConnection := None;
    }

    /** A refused request is answered at once, with an error; an accepted one is queued last. */
    method SubmitOperation(request: Request) returns (ok: bool)
      requires request.promise.values == []
      modifies this`operationQueue, request.promise
      ensures ok <==> workerRunning
      ensures operationQueue == if ok then old(operationQueue) + [request] else old(operationQueue)
      ensures request.promise.values == if ok then [] else [false]
    {
      if !workerRunning {
        request.promise.SetValue(false);
        return false;
      }
      operationQueue := operationQueue + [request];
      return true;
    }

    /** The worker's `wait`: other threads submit some of `rest`, or stop the executor when
        nothing is left to submit; it ends with work to do or the executor stopped. */
    method Wait(rest: seq<Request>, ghost all: seq<Request>, ghost done: nat, ghost taken: nat)
      returns (rest': seq<Request>, ghost taken': nat)
      requires done <= taken <= |all| && operationQueue == all[done..taken] && rest == all[taken..]
      modifies this`operationQueue, this`workerRunning
      ensures done <= taken' <= |all| && operationQueue == all[done..taken'] && rest' == all[taken'..]
      ensures operationQueue != [] || (!workerRunning && done == |all|)
    {
      rest', taken' := rest, taken;
      if rest != [] {
        var n: nat :| n <= |rest| && (operationQueue == [] ==> n > 0);
        Slide(all, done, taken, n);
        operationQueue, rest', taken' := operationQueue + rest[..n], rest[n..], taken + n;
      } else {
        workerRunning := false;
      }
    }

    /** Executes one request and answers it. */
    method Execute(request: Request)
      requires inventory.Valid() && request.promise.values == []
      requires (request.fate.submitOk ==> Ends(request.fate.states))
      modifies inventory, request.promise
      ensures var exit := ExitOf(request.buffers, activeConnection.Some?, old(inventory.inUse), request.fate);
        request.promise.values == [exit == Success] && inventory.inUse == old(inventory.inUse) + Leak(exit)
      ensures request.promise.values == [true] || request.promise.values == [false]
      ensures request.promise.values == [true] <==>
        && request.buffers && activeConnection.Some? && old(inventory.inUse) + 2 <= CAPACITY
        && request.fate.sourceOk && request.fate.destinationOk && request.fate.taskOk && request.fate.submitOk
        && request.fate.states[|request.fate.states| - 1] == TaskCompleted
        && request.fate.sourceReleased && request.fate.destinationReleased
      ensures inventory.inUse ==
        Held(request.buffers, activeConnection.Some?, old(inventory.inUse), request.fate)
      ensures inventory.Valid() && inventory.peak <= Top(old(inventory.peak), old(inventory.inUse))
    {
      ExitMeans(request.buffers, activeConnection.Some?, inventory.inUse, request.fate);
      var ok, _ := ExecuteTransfer(inventory, request.buffers, activeConnection.Some?, request.fate);
      request.promise.SetValue(ok);
    }

    /** One turn of the worker with a non-empty queue, the one that answers `all[done]`. */
    method ExecuteNext(ghost all: seq<Request>, ghost exits: seq<Exit>, ghost before: nat, ghost done: nat,
                       ghost taken: nat)
      requires WellFormed(all) && done < taken <= |all| && operationQueue == all[done..taken]
      requires exits == Exits(before, Operations(all, activeConnection.Some?))
      requires Progress(inventory, all, exits, before, done)
      modifies this`operationQueue, inventory, all[done].promise
      ensures operationQueue == all[done + 1..taken]
      ensures Progress(inventory, all, exits, before, done + 1)
      ensures inventory.inUse >= old(inventory.inUse)
      ensures inventory.peak <= Top(old(inventory.peak), old(inventory.inUse))
    {
      Slide(all, done, taken, 0);
      var request := operationQueue[0];
      operationQueue := operationQueue[1..];
      NextExit(all, before, activeConnection.Some?, exits, done);
      assert forall i | 0 <= i < |all| && i != done :: all[i].promise != request.promise;
      Execute(request);
    }

    /** `workerLoop`, with every other thread folded in: `later` are the requests that will still
        be submitted, any number of them during any turn, and `Stop` comes after the last. */
    method WorkerLoop(later: seq<Request>, ghost all: seq<Request>, ghost exits: seq<Exit>, ghost before: nat)
      requires workerRunning && all == operationQueue + later && WellFormed(all)
      requires exits == Exits(before, Operations(all, activeConnection.Some?))
      requires Progress(inventory, all, exits, before, 0)
      modifies this`workerRunning, this`operationQueue, inventory, set r | r in all :: r.promise
      ensures operationQueue == [] && !workerRunning
      ensures Progress(inventory, all, exits, before, |all|)
      ensures inventory.inUse == before ==> inventory.peak <= Top(old(inventory.peak), before)
    {
      ghost var done: nat, taken: nat := 0, |operationQueue|;
      ghost var top := Top(inventory.peak, before);
      var rest := later;
      while true
        invariant done <= taken <= |all| && operationQueue == all[done..taken] && rest == all[taken..]
        invariant Progress(inventory, all, exits, before, done)
        invariant inventory.inUse == before ==> inventory.peak <= top
        decreases |all| - done
      {
        rest, taken := Wait(rest, all, done, taken);
        if !workerRunning && operationQueue == [] {
          return;
        }
        ExecuteNext(all, exits, before, done, taken);
        done := done + 1;
      }
    }

    /** The worker answers every accepted request once, in the order of acceptance, each on the
        inventory the ones before it left, and returns with the queue empty: what it leaves in
        use is the sum of the leaks of the exit points. */
    method ServeUntilStopped(later: seq<Request>)
      requires workerRunning && inventory.Valid() && WellFormed(operationQueue + later)
      requires forall r | r in operationQueue + later :: r.promise.values == []
      modifies this`workerRunning, this`operationQueue, inventory
      modifies set r | r in operationQueue + later :: r.promise
      ensures operationQueue == [] && !workerRunning
      ensures var all := old(operationQueue) + later;
        Progress(inventory, all, Exits(old(inventory.inUse), Operations(all, activeConnection.Some?)),
                 old(inventory.inUse), |all|)
      ensures var all, before := old(operationQueue) + later, old(inventory.inUse);
        var ops := Operations(all, activeConnection.Some?);
        && inventory.inUse == HeldAfter(before, ops)
        && forall k | 0 <= k < |all| ::
             all[k].promise.values == [SucceedsAt(before, ops, k)]
      ensures inventory.inUse == old(inventory.inUse) ==>
        inventory.peak <= Top(old(inventory.peak), old(inventory.inUse))
    {
      ghost var all := operationQueue + later;
      ghost var exits := Exits(inventory.inUse, Operations(all, activeConnection.Some?));
      ExitsLength(inventory.inUse, Operations(all, activeConnection.Some?));
      ghost var ops := Operations(all, activeConnection.Some?);
      ExitsHold(inventory.inUse, ops);
      forall k | 0 <= k < |all| { RunSucceeds(inventory.inUse, ops, k); }
      WorkerLoop(later, all, exits, inventory.inUse);
      assert exits[..|all|] == exits;
    }
  }
}
