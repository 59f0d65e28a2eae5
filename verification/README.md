# A verified model of the doca-cpp RDMA request protocol

doca-cpp lets a client move the contents of a buffer to or from a server by RDMA. A request on a
TCP control channel names an endpoint, a path and a type; the server locks the path, runs its
handler before a read, and permits the operation; the client transfers the bytes through its
executor and acknowledges; the server runs its handler after a write and unlocks. This project
models that protocol and the parts it stands on, and proves what they promise. DOCA and Asio
appear only as calls that succeed or fail in every way they can.

`dafny verify dfyconfig.toml` checks the project.

| modules | what they model |
|---|---|
| `Protocol`, `ProtocolInvariant`, `ProtocolProof`, `ProtocolTheorems`, `ProtocolMarks`, `ProtocolAnswers`, `ProtocolEffects`, `ProtocolProgress`, `ProtocolLimits` | Any number of connections, both coroutines of each, message queues, lock flags, buffers and RDMA operations as one transition system, with steps cut at `co_await` and RDMA one byte at a time in any order. Safety in every reachable state, over the return of `Serve` and into the next one, what each side is told and when, freedom from deadlock, a bound on the steps of every session, and for each condition a run that shows why it is there |
| `SessionSteps`, `ServerSession`, `SessionDiscipline`, `SessionRefinement`, `SessionHistory`, `ClientSession`, `ClientHistory` | The two coroutines as imperative code, the segments they share with the machine, the discipline of locks, answers, handlers and acknowledges, and the proof that both ends of every link in every run of the machine are runs of their coroutines |
| `EndpointStorage`, `LockFlags`, `Buffers`, `Deployment`, `FineGrainedLock` | The endpoint map and its path lock as a class, buffers and how the sample shares them, registration, and the lock as callers on several threads would see it |
| `Executor`, `ExecutorMachine`, `ExecutorTheorems`, `Transfers`, `Connections` | The executor's fields and worker loop as a class, its queue as a machine of submitters, worker and stopper at the level of mutex steps, the exit points of an operation, and the connection slots |
| `Wire`, `MessageSerializer`, `Sockets`, `Channels` | The byte format, the serializers that fill a buffer, framing on a stream, and the proof that the streams carry the machine's message queues |
| `ServeShutdown` | Any number of callers of `Serve` and `Shutdown`, one flag, mutex or condition variable access at a time |
| `EndpointTypes` | The vocabulary they share |

Three facts about the code shape the theorems.

* Two kinds of timer can end a wait while the other side is still at work: the server's
  acknowledge timer and the client's operation timeout. The machine lets them fire whenever they
  could, and marks the link as `cut`. A link is `dirty` when it wins its path while an operation of
  a cut link can still write there, and `shared` when it gets a permission, or another call does,
  while both are using one client buffer. `ProtocolMarks.MarksAreHistory` shows that these marks
  are exactly the history of the run; they are about single links, so one timeout harms no later
  session that finds no work left over, and a call that waits or is refused shares nothing. The
  data theorem for writes is for links neither dirty nor shared, the one for reads for links
  without any mark. `ProtocolLimits.LateWriteCorrupts`, `ProtocolLimits.LateReadCorrupts`,
  `ProtocolLimits.SharedBufferCorrupts` and `ProtocolLimits.SharedPathCorrupts` are runs in which
  one condition fails and the bytes are wrong, and `ProtocolMarks.WritesAreSafe` is the promise
  where none can fail. Mutual exclusion, lost locks and progress hold without them.
* The server does not test the acknowledge code before it calls a write handler, so the data
  theorem for writes is about handlers reached by `operationCompleted`.
  `ProtocolLimits.FailedAckReachesHandler` is the run that shows why.
* Where the repository's words and its code differ, the model follows the code. The README's flow
  diagram puts the server's write handler before the acknowledge; the code calls it afterwards. A
  comment in `Serve` has the remaining events processed until the shutdown is forced; the event
  loop is stopped just before, and `ServeShutdown.NothingIsDrained` shows that none is.

The invariant of the protocol rests on one observation. `TryLockEndpointsByPath` sets one flag per
endpoint of a path and succeeds if it set any, which is a lock only while all flags of a path
agree. They do, because every lock and unlock of a session is path-wide and all sessions run on one
thread; `EndpointStorage.LateRegistration` and `FineGrainedLock.ExclusiveExactly` say exactly when
they would not.

Nine promises are false as they stand, and each is given the condition under which it holds: every
lock is released (`ProtocolTheorems.LeaksExactly`, and turn by turn `SessionDiscipline.LeaksExactly`),
a session ends with its connection (`ProtocolProgress.EndsExactly`,
`ProtocolProgress.SettledForEver`), identifiers are unique (`EndpointStorage.IdsCollide`),
flags agree after a registration (`EndpointStorage.LateRegistration`), one live connection
(`Connections.EstablishedKeeps`, `Connections.StrayClose`, `Connections.RequestKeeps`,
`Connections.ConnectingKeeps`), a new connection whenever there is none
(`Connections.TakesUntilWedged`), no session after a shutdown has begun
(`ServeShutdown.ShutdownIsFinal`), messages survive the wire
(`Wire.DecodeEncode`, `Wire.StreamRoundTrip`), and a path-wide lock excludes threads
(`FineGrainedLock.ExclusiveExactly`).

## Model

| member | source | states |
|---|---|---|
| `ProtocolTheorems.MutualExclusion` | doca-cpp/src/rdma/rdma_endpoint.cpp:217-254 | In every reachable state at most one session is inside its window on a path, all flags of a path agree, and a flag is set exactly while some session holds its path; timers, lost connections and failing handlers included |
| `ProtocolTheorems.WriteHandlerSeesClientBytes` | doca-cpp/src/rdma/internal/rdma_session.cpp:179-203 | A server write handler reached by an `operationCompleted` acknowledge is handed the bytes the client's handler left, whatever other sessions did meanwhile, unless an abandoned operation could still write to the path when the session won it, or another call used the client buffer at the same time; with buffers of one size, exactly those bytes |
| `ProtocolTheorems.ReadHandlerSeesServerBytes` | doca-cpp/src/rdma/internal/rdma_session.cpp:269-287 | A client read handler is handed the bytes the server's read handler left for this very session, under the same two conditions and if the session's own wait was not cut short, even when others have taken the lock since |
| `ProtocolTheorems.TransferInsideWindow` | doca-cpp/src/rdma/internal/rdma_session.cpp:211-291 | From submission to completion an RDMA operation whose own session was not cut short stays inside the lock window of that session, on its own endpoint's buffer, and no other session holds the path |
| `ProtocolTheorems.WritesOnlyOwnBuffer` | doca-cpp/src/rdma/internal/rdma_session.cpp:146-199 | A step changes at most the buffer of its own link's endpoint, and only as the one holder of the path unless its own wait was cut short |
| `ProtocolTheorems.NoOtherWindow` | doca-cpp/src/rdma/rdma_endpoint.cpp:217-236 | Next to a holder, or while a flag of the path is free, no other session is inside a window on the path |
| `ProtocolTheorems.WindowIsolation` | doca-cpp/src/rdma/rdma_endpoint.cpp:217-254 | While a session holds a path on which no abandoned operation could still write when it won, no step of another session changes any server buffer of that path |
| `ProtocolTheorems.HandlersRunUnderTheLock` | doca-cpp/src/rdma/internal/rdma_session.cpp:143-203 | Every call of a server handler, whatever it does to the bytes, happens inside the caller's own lock window with no other session holding the path, a read handler as the window opens and a write handler as it closes, on the buffer of the requested endpoint and no other |
| `ProtocolTheorems.NoOtherHandler` | doca-cpp/src/rdma/internal/rdma_session.cpp:143-203 | Nothing but those calls and the bytes of RDMA operations changes a server buffer |
| `ProtocolTheorems.PeersAgree` | doca-cpp/src/rdma/internal/rdma_session.cpp:64-291 | The ends agree on the kind of the next message, the ends never wait for each other, and only a cut-short wait lets an acknowledge be sent after the window was closed or be read as a request |
| `ProtocolTheorems.AwaitedAfterPermission` | doca-cpp/src/rdma/internal/rdma_session.cpp:160-179 | The server comes to await an acknowledge only by sending the permission, with the descriptor of the requested endpoint's buffer |
| `ProtocolTheorems.SentAfterPermission` | doca-cpp/src/rdma/internal/rdma_session.cpp:236-272 | A client comes to acknowledge only after it received that permission |
| `ProtocolMarks.MarksAreHistory` | doca-cpp/src/rdma/internal/rdma_awaitable.cpp:18-27 | The three conditions of these theorems are facts about the run: a link is cut exactly when its own wait was cut short while its other side was at work, dirty exactly when it won a path on which an operation of a cut link could still write, and shared exactly when a permission came while it and another call were using one client buffer |
| `ProtocolMarks.WinnerIsDirtyExactly` | doca-cpp/src/rdma/rdma_endpoint.cpp:217-236 | The session that wins a path is dirty exactly when an abandoned operation can still write there; one that wins a path with no work left over is not, whatever was cut before |
| `ProtocolMarks.CleanPaths` | doca-cpp/src/rdma/internal/rdma_session.cpp:179-184 | A session is dirty only if a write session of its own path was cut: one timeout harms no other path |
| `ProtocolMarks.WritersTakeTurns` | doca-cpp/src/rdma/rdma_endpoint.cpp:217-254 | The path lock protects the client buffer too: of the write sessions of one path that were not cut at most one is using its buffer, however many wait or are refused |
| `ProtocolMarks.WritesAreSafe` | doca-cpp/src/rdma/rdma_client.cpp:107-178 | The end-to-end promise of writes without any of the three conditions: in a run without cut waits in which a client buffer used by several calls belongs to write calls of one path, every write handler reached by `operationCompleted` sees what the client left |
| `ProtocolTheorems.LeaksExactly` | doca-cpp/src/rdma/internal/rdma_session.cpp:150-173 | When a lock is lost, exactly: the session holds it and its answer cannot be sent, or it has granted an unknown type, or `Serve` returns |
| `ProtocolTheorems.LeakIsForever` | doca-cpp/src/rdma/rdma_server.cpp:184-193 | A coroutine that returned an error, or was destroyed with the event loop, inside its window loses the path for good: in every later state, those of later `Serve` calls included, its flags are set and no other session ever holds it |
| `ProtocolTheorems.LeakRefusesAll` | doca-cpp/src/rdma/internal/rdma_session.cpp:119-139 | From then on every request for the path that gets as far as the lock is answered `operationEndpointLocked`, and that is the code its client is sent |
| `ProtocolAnswers.DecidesExactly` | doca-cpp/src/rdma/internal/rdma_session.cpp:76-160 | What a request is answered, exactly: not found, internal error, locked when every flag of the path is set, service error, or permitted, each with its condition, and nothing without a connection |
| `ProtocolAnswers.ReplyTells` | doca-cpp/src/rdma/internal/rdma_session.cpp:93-165 | A delivered answer is the code the server decided on, with the descriptor of the requested endpoint's buffer exactly when it was exported |
| `ProtocolAnswers.ClientHearsDecision` | doca-cpp/src/rdma/internal/rdma_session.cpp:211-242 | Over every run: the code a client hears, however much later, is the one for what the server found when it took the request, locked exactly when every flag of the path was set; and it goes on exactly with a permission, for its own endpoint's buffer |
| `ProtocolAnswers.AcknowledgesExactly` | doca-cpp/src/rdma/internal/rdma_session.cpp:244-272 | What a client decides to acknowledge, exactly: canceled when its write handler failed, completed when its operation ended well, failed for every other end of it |
| `ProtocolAnswers.AckTells` | doca-cpp/src/rdma/internal/rdma_session.cpp:493-535 | A delivered acknowledge carries that code, and a read goes on to its service exactly after a completed one that was sent |
| `ProtocolAnswers.ServerHearsAck` | doca-cpp/src/rdma/internal/rdma_session.cpp:336-379 | Over every run: what the server receives is what the client decided on |
| `ProtocolEffects.ClientHandlerLeaves` | doca-cpp/src/rdma/internal/rdma_session.cpp:248-287 | A client's service is handed the buffer of its own call and no other, and the bytes it leaves are there afterwards, whether it succeeds or fails |
| `ProtocolEffects.MovesOneByte` | doca-cpp/src/rdma/internal/rdma_executor.cpp:523-681 | An operation moves bytes from the client to the server for a write and the other way for a read, each to the place it came from, and changes nothing else |
| `ProtocolEffects.SucceedsComplete` | doca-cpp/src/rdma/internal/rdma_executor.cpp:570-601 | An operation reports success only with every byte of its source moved and room for all of them |
| `ProtocolEffects.ClientBufferChanges` | doca-cpp/src/rdma/internal/rdma_session.cpp:248-287 | A client buffer changes only by a service of a call that uses it and by the bytes of its reads |
| `ProtocolEffects.RecordsAreHandlers` | doca-cpp/src/rdma/internal/rdma_session.cpp:143-287 | What the data theorems compare with is what the handlers left: the client's service of a write, the server's handler of a read, and nothing else sets it |
| `ProtocolEffects.ClientOutcomesOpen` | doca-cpp/src/rdma/internal/rdma_session.cpp:211-291 | The machine leaves out no outcome of a client's calls: each step is enabled exactly at its place, whatever the calls answer, timers included |
| `ProtocolEffects.ServerOutcomesOpen` | doca-cpp/src/rdma/internal/rdma_session.cpp:64-179 | Nor of the server's answers: a missing connection or export, a lost answer, one that is delivered and reported lost |
| `ProtocolEffects.ServerWaitsOpen` | doca-cpp/src/rdma/internal/rdma_session.cpp:64-209 | Nor of its waits, each of which can end in an error at any moment |
| `ProtocolEffects.OpensFresh` | doca-cpp/src/rdma/rdma_client.cpp:128-137 | A connection can be opened for any endpoint and any client buffer, and starts with nothing sent |
| `ProtocolEffects.GivingUpCloses` | doca-cpp/src/rdma/internal/rdma_session.cpp:428-491 | A client that gives up sends nothing more |
| `ProtocolProof.ReachableInv` | doca-cpp/src/rdma/internal/rdma_session.cpp:64-291 | The invariant behind all of this holds in every reachable state |
| `ProtocolProof.KeptByStep` | doca-cpp/src/rdma/internal/rdma_session.cpp:64-291 | Every one of the nineteen kinds of step keeps the invariant |
| `ProtocolProof.KeptByRun` | doca-cpp/src/rdma/rdma_server.cpp:184-193 | So does every run of any number of interleaved sessions |
| `ProtocolProof.KeptByOpen` | doca-cpp/src/rdma/rdma_client.cpp:128-164 | A new connection keeps it |
| `ProtocolProof.AskingControl` | doca-cpp/src/rdma/internal/rdma_session.cpp:428-491 | Sending the request, giving up and taking the response keep the link's part of it |
| `ProtocolProof.EndingControl` | doca-cpp/src/rdma/internal/rdma_session.cpp:493-535 | So do the end of the operation, its timeout and the acknowledge |
| `ProtocolProof.KeptByPrepare` | doca-cpp/src/rdma/internal/rdma_session.cpp:236-267 | Importing, the client's write handler and the submission keep it |
| `ProtocolProof.KeptByMove` | doca-cpp/src/rdma/internal/rdma_executor.cpp:523-681 | Moving any byte of an operation, in any order, keeps it |
| `ProtocolProof.KeptByFinish` | doca-cpp/src/rdma/internal/rdma_executor.cpp:570-601 | The end of an operation keeps it; success means every byte of the source arrived |
| `ProtocolProof.KeptByReadHandle` | doca-cpp/src/rdma/internal/rdma_session.cpp:279-287 | The client's read handler keeps it |
| `ProtocolProof.KeptByServerRequest` | doca-cpp/src/rdma/internal/rdma_session.cpp:70-160 | Lookup, export, try-lock and read handler keep it |
| `ProtocolProof.KeptByServerReply` | doca-cpp/src/rdma/internal/rdma_session.cpp:130-173 | Each answer, sent or lost, keeps it |
| `ProtocolProof.KeptByServerAck` | doca-cpp/src/rdma/internal/rdma_session.cpp:186-205 | Acknowledge, write handler and unlock keep it |
| `ProtocolProof.KeptByServerAckLost` | doca-cpp/src/rdma/internal/rdma_session.cpp:179-184 | Unlocking without an acknowledge keeps it |
| `ProtocolProof.KeptByStop` | doca-cpp/src/rdma/rdma_server.cpp:184-193 | The return of `Serve`, which destroys every suspended coroutine and leaves flags and buffers, keeps it |
| `ProtocolProof.LocksTaken` | doca-cpp/src/rdma/rdma_endpoint.cpp:217-236 | Taking a free path keeps flags and holders in step |
| `ProtocolProof.LocksGiven` | doca-cpp/src/rdma/rdma_endpoint.cpp:238-253 | Releasing a path keeps flags and holders in step |
| `ProtocolProof.NobodyHolds` | doca-cpp/src/rdma/rdma_endpoint.cpp:224-228 | One free flag means that nobody holds the path |
| `ProtocolProgress.NeverStuck` | doca-cpp/src/rdma/internal/rdma_session.cpp:64-291 | No deadlock: each unsettled link always has a step of its own that needs no timer and no fault |
| `ProtocolProgress.FaultlessKeepsServing` | doca-cpp/src/rdma/internal/rdma_session.cpp:68-206 | No such step makes the server coroutine return |
| `ProtocolProgress.EffectiveWorks` | doca-cpp/src/rdma/internal/rdma_session.cpp:64-291 | Every step of a session that does something, faults and timers included, uses up some of what it can still do |
| `ProtocolProgress.SessionsAreFinite` | doca-cpp/src/rdma/internal/rdma_session.cpp:64-291 | No livelock: with buffers of n bytes no session takes more than n + 64 effective steps in its life, in any run, whatever other sessions, timers and faults do |
| `ProtocolProgress.WorkBoundsSteps` | doca-cpp/src/rdma/internal/rdma_session.cpp:64-291 | The same from any point of a run on |
| `ProtocolProgress.SettledRepeatsReceive` | doca-cpp/src/rdma/internal/rdma_session.cpp:68-74 | What is left when both ends are done: nothing closes the server's socket, so the coroutine can only repeat a receive that fails, which changes nothing |
| `ProtocolProgress.SettledForEver` | doca-cpp/src/rdma/internal/rdma_session.cpp:68-74 | In every run in which `Serve` does not return such a session stays as it is and its receive can be repeated for ever |
| `ProtocolProgress.EndsExactly` | doca-cpp/src/rdma/internal/rdma_session.cpp:68-208 | A server coroutine ends exactly without an RDMA connection, with an answer that cannot be sent, after an internal error or the grant of an unknown type, or with the return of `Serve`; never because its client has gone |
| `ProtocolProgress.SettlesAlone` | doca-cpp/src/rdma/internal/rdma_session.cpp:64-291 | From every reachable state each session can be brought to the point where nothing is left to do by its own faultless steps alone, and a coroutine that has not failed then holds no lock |
| `ProtocolLimits.FailedAckReachesHandler` | doca-cpp/src/rdma/internal/rdma_session.cpp:179-191 | The server does not look at the acknowledge code: a reachable state without any timer in which its write handler is called after a failed transfer, on a buffer the client's bytes never reached |
| `ProtocolLimits.TimerCutsWindow` | doca-cpp/src/rdma/internal/rdma_session.cpp:180-184 | A reachable state in which the acknowledge timer has freed the path while an operation is still writing to its buffer |
| `ProtocolLimits.LateWriteCorrupts` | doca-cpp/src/rdma/internal/rdma_session.cpp:180-184 | Why the write theorem excludes dirty sessions: a reachable state in which a second session's acknowledge says `operationCompleted`, its own wait was not cut, its client buffer is its own, and the bytes about to be handled are those of the first session's late operation |
| `ProtocolLimits.LateReadCorrupts` | doca-cpp/src/rdma/internal/rdma_session.cpp:180-184 | Why the read theorem excludes sessions whose own wait was cut: a reachable state in which such a session, neither dirty nor shared, is about to hand its client bytes that the server left for the next one |
| `ProtocolLimits.SharedBufferCorrupts` | doca-cpp/src/rdma/rdma_client.cpp:107-178 | Why both exclude shared client buffers: the same outcome with no timer anywhere, from two calls on different paths that use one client buffer |
| `ProtocolLimits.SharedPathCorrupts` | samples/rdma_client_server/common.hpp:253-293 | The lock of a path does not protect a reader's client buffer: with nothing cut short, a write call on the same path, whose endpoints share the buffer, overwrites it between the server's unlock and the client's read handler |
| `ProtocolLimits.StopLosesLock` | doca-cpp/src/rdma/rdma_server.cpp:184-193 | A reachable state in which a session has lost its lock though no timer fired and every answer was sent: another session returned an error, and `Serve` returned |
| `ServerSession.HandleServerSession` | doca-cpp/src/rdma/internal/rdma_session.cpp:64-209 | The whole loop over the storage object, with other sessions running at every wait, does what the turn-by-turn specification says: same events, same flags, same place |
| `ServerSession.ServeRound` | doca-cpp/src/rdma/internal/rdma_session.cpp:68-74 | One turn, which a failed receive ends at once |
| `ServerSession.ServeRequest` | doca-cpp/src/rdma/internal/rdma_session.cpp:76-117 | From the request to the try-lock, with every refusal and every return |
| `ServerSession.ServeExported` | doca-cpp/src/rdma/internal/rdma_session.cpp:119-141 | From the try-lock on; the branch for a path without endpoints is never taken |
| `ServerSession.ServeLocked` | doca-cpp/src/rdma/internal/rdma_session.cpp:143-158 | From the lock just taken: the read handler and its failure |
| `ServerSession.Permit` | doca-cpp/src/rdma/internal/rdma_session.cpp:160-173 | The permission, an unknown type or an unsent answer returning with the lock held |
| `ServerSession.FinishRound` | doca-cpp/src/rdma/internal/rdma_session.cpp:177-205 | The wait for the acknowledge, the write handler, its failure, and the unlock on every way out but destruction |
| `ServerSession.Refuse` | doca-cpp/src/rdma/internal/rdma_session.cpp:93-139 | Refusals: the code sent, and which of them end the coroutine |
| `ServerSession.Lookup` | doca-cpp/src/rdma/rdma_endpoint.cpp:183-191 | A lookup by identifier succeeds exactly for an endpoint of that identifier, whose path is then known to the lock |
| `SessionDiscipline.SessionObeys` | doca-cpp/src/rdma/internal/rdma_session.cpp:68-206 | Lock balance and handler discipline against an independent acceptor, for any requests, outcomes and other sessions: no lock and no answer owed at any loop head; handlers once per request, inside the window, and their result decides a read's answer; an acknowledge awaited only after a permission and the lock kept until that wait is over and an acknowledged write is handled; a coroutine that ended kept exactly the lock it is said to have lost |
| `SessionDiscipline.OneAnswerOneHandler` | doca-cpp/src/rdma/internal/rdma_session.cpp:68-206 | One answer for every request read, at most one less when the coroutine returned, and at most one handler call |
| `SessionDiscipline.RoundObeys` | doca-cpp/src/rdma/internal/rdma_session.cpp:68-206 | The same for a single turn |
| `SessionDiscipline.OncePerRequest` | doca-cpp/src/rdma/internal/rdma_session.cpp:68-206 | Any log the acceptor takes has at most one answer and one handler call for each request |
| `SessionDiscipline.AnswersExact` | doca-cpp/src/rdma/internal/rdma_session.cpp:68-206 | Such a log answers every request it has read, if the session goes on |
| `SessionDiscipline.LeaksExactly` | doca-cpp/src/rdma/internal/rdma_session.cpp:143-184 | A turn loses the lock it took exactly when it is destroyed while it holds it, when its answer could not be sent or when it granted an unknown type; every other way out releases it |
| `SessionDiscipline.LeakLeavesFlags` | doca-cpp/src/rdma/internal/rdma_session.cpp:150-165 | A coroutine that returned inside its window leaves every flag of the path set |
| `SessionRefinement.OthersRunElsewhere` | doca-cpp/src/rdma/rdma_server.cpp:184-193 | What the coroutine assumes of other sessions is what every interleaving of the machine gives: between two suspensions in one place the flags change by whole paths and never on the path it holds |
| `SessionRefinement.RequestSegment` | doca-cpp/src/rdma/internal/rdma_session.cpp:70-160 | The first segment of a turn is the machine's request step: same lock decision, same flags, same answer to come |
| `SessionRefinement.ReplySegment` | doca-cpp/src/rdma/internal/rdma_session.cpp:93-165 | The answer is the machine's reply step, and the code on the wire is the one the coroutine sent |
| `SessionRefinement.AckSegment` | doca-cpp/src/rdma/internal/rdma_session.cpp:177-205 | The end of a turn is the machine's acknowledge step, or its lost one |
| `SessionRefinement.StopSegment` | doca-cpp/src/rdma/rdma_server.cpp:184-193 | The return of `Serve` is the destruction of the coroutine in the wait it is in |
| `SessionHistory.HistoryIsServeAll` | doca-cpp/src/rdma/internal/rdma_session.cpp:64-209 | The coroutine and the machine are one: what the server of any link does in any run of the machine is what the coroutine does in some sequence of turns and an open one, event by event |
| `SessionHistory.EveryLinkObeys` | doca-cpp/src/rdma/internal/rdma_session.cpp:64-209 | So the discipline holds for every link in every interleaving, whatever clients, timers, other sessions and returns of `Serve` do |
| `SessionHistory.OneMoreTurn` | doca-cpp/src/rdma/internal/rdma_session.cpp:68-206 | A session of one more turn is the session before it and that turn |
| `SessionRefinement.KnownById` | doca-cpp/src/rdma/rdma_endpoint.cpp:128-131 | For types of the enumeration, lookup by identifier is lookup of the endpoint |
| `ClientSession.HandleClientSession` | doca-cpp/src/rdma/internal/rdma_session.cpp:211-291 | The client coroutine does what the segments of the machine, put together, do: same events, same result |
| `ClientSession.UsePermission` | doca-cpp/src/rdma/internal/rdma_session.cpp:244-290 | The part of it that holds a permission, for every remote buffer |
| `ClientSession.PerformRdmaOperation` | doca-cpp/src/rdma/internal/rdma_session.cpp:556-619 | An operation is carried out exactly with a connection, a known type and an accepted submission |
| `ClientSession.RequestEndpointProcessing` | doca-cpp/src/rdma/rdma_client.cpp:107-178 | One session and at most one request for a call, the request first, and none without an executor, a registered endpoint and a reached server |
| `ClientSession.SucceedsExactly` | doca-cpp/src/rdma/internal/rdma_session.cpp:211-291 | A call succeeds exactly when nothing it did failed, and then handler, transfer and acknowledge came in this order |
| `ClientSession.Discipline` | doca-cpp/src/rdma/internal/rdma_session.cpp:211-291 | One request comes first; every usable permission is answered by exactly one acknowledge and nothing else is; `operationCompleted` exactly after a successful transfer; the service at most once, for a read only after that acknowledge |
| `ClientHistory.HistoryIsDrive` | doca-cpp/src/rdma/internal/rdma_session.cpp:211-291 | The client coroutine and the machine are one: what the client of any call does in any run of the machine begins a history of the coroutine, and is a whole one once the call is closed, or nothing when it gave up before its request |
| `ClientHistory.EveryCallObeys` | doca-cpp/src/rdma/internal/rdma_session.cpp:211-291 | So in every interleaving, at every moment, a call has made at most one request, one acknowledge and one call of the service, each in its place: `operationCompleted` right after a successful transfer, a write's transfer right after its service, a read's service right after that acknowledge |
| `EndpointStorage.IdsCollide` | doca-cpp/src/rdma/rdma_endpoint.cpp:106-131 | Identifiers are injective: equal exactly for one endpoint, or for one path with two types outside the enumeration |
| `EndpointStorage.LateRegistration` | doca-cpp/src/rdma/rdma_endpoint.cpp:171-175 | Registering on a path keeps its flags in agreement exactly when the path is not locked; on a locked one the lock can be won again |
| `EndpointStorage.RdmaEndpointStorage.RegisterEndpoint` | doca-cpp/src/rdma/rdma_endpoint.cpp:159-181 | Refuses exactly an identifier already taken and changes nothing then; otherwise adds one entry, the new endpoint with its own buffer and a free flag, and leaves every other entry as it is |
| `EndpointStorage.RdmaEndpointStorage.IdTaken` | doca-cpp/src/rdma/rdma_endpoint.cpp:165-169 | An identifier is taken exactly when that endpoint is registered, for types of the enumeration |
| `EndpointStorage.RdmaEndpointStorage.GetEndpoint` | doca-cpp/src/rdma/rdma_endpoint.cpp:183-191 | Finds the entry of exactly that path and type, and so the buffer it was registered with, after any registrations; then its path is known to the lock |
| `EndpointStorage.RdmaEndpointStorage.MapEndpointsMemory` | doca-cpp/src/rdma/rdma_endpoint.cpp:203-215 | Succeeds exactly when every registered buffer is mapped already or has a range that DOCA maps; no map is ever created twice, shared buffers included |
| `EndpointStorage.RdmaEndpointStorage.LockOne` | doca-cpp/src/rdma/rdma_endpoint.cpp:223-229 | The section under one endpoint's mutex: sets the flag of an endpoint on the path, tells whether it was free, and touches no other |
| `EndpointStorage.RdmaEndpointStorage.TryLockEndpointsByPath` | doca-cpp/src/rdma/rdma_endpoint.cpp:217-236 | Succeeds exactly when some flag of the path was free, reports an unknown path exactly, and leaves all flags of the path set and all others alone, in any iteration order |
| `EndpointStorage.RdmaEndpointStorage.UnlockEndpointsByPath` | doca-cpp/src/rdma/rdma_endpoint.cpp:238-253 | Clears all flags of the path and no other, and reports an unknown path exactly |
| `Deployment.RegisterEndpoints` | doca-cpp/src/rdma/rdma_server.cpp:218-234 | Registers the longest prefix of the list whose identifiers are free and distinct, each with the buffer of its list entry, leaves what was there alone, and succeeds exactly when that is all of the list |
| `Deployment.LongestPrefix` | doca-cpp/src/rdma/rdma_server.cpp:224-229 | A prefix is registered exactly when no identifier in it is taken or repeated |
| `Deployment.DeployedIsInitial` | samples/rdma_client_server/common.hpp:253-293 | Endpoints that share buffers by path only, once registered, are an initial state of the protocol: the lock of a path then protects its buffer |
| `Deployment.BufferMapDescribes` | doca-cpp/src/rdma/rdma_endpoint.cpp:183-191 | The buffer numbers of that initial state describe the storage: looking up an endpoint gives the buffer whose number the protocol uses |
| `Buffers.CreateEndpoints` | samples/rdma_client_server/common.hpp:253-293 | Two endpoints share a buffer exactly when they share a path, and it has the size of the first configuration with that path |
| `Buffers.RdmaBuffer.RegisterMemoryRange` | doca-cpp/src/rdma/rdma_buffer.cpp:27-34 | A range is set once; a second one is refused and the first stays |
| `Buffers.RdmaBuffer.MapMemory` | doca-cpp/src/rdma/rdma_buffer.cpp:36-60 | Succeeds exactly for a mapped buffer or one with a range that DOCA maps; a map is created at most once |
| `ExecutorTheorems.PromisesSetOnce` | doca-cpp/src/rdma/internal/rdma_executor.cpp:466-482 | No promise is set twice; a refused call has its promise set once, to an error; every accepted request, its call returned or not, has its promise set once and by the worker when the worker has exited |
| `ExecutorTheorems.FifoHistory` | doca-cpp/src/rdma/internal/rdma_executor.cpp:484-510 | Completed, executing and queued are together exactly the accepted requests, in order, each once; nothing is dropped |
| `ExecutorTheorems.NoLostWakeup` | doca-cpp/src/rdma/internal/rdma_executor.cpp:466-501 | A worker asleep with work to do, or told to stop, is owed a notify by a thread that has not called it yet |
| `ExecutorTheorems.FlushFindsNothing` | doca-cpp/src/rdma/internal/rdma_executor.cpp:327-337 | The flush after the join always finds the queue empty |
| `ExecutorTheorems.StopFreezesAccepted` | doca-cpp/src/rdma/internal/rdma_executor.cpp:316-327 | After the stop flag nothing more is accepted, and a worker that exits has completed exactly what was |
| `ExecutorTheorems.StoppedWorkerIsBounded` | doca-cpp/src/rdma/internal/rdma_executor.cpp:484-510 | After the stop flag the worker takes at most four steps for each queued request and four more, in every run |
| `ExecutorTheorems.AcceptedWorkCompletes` | doca-cpp/src/rdma/internal/rdma_executor.cpp:484-510 | From every reachable state a run without new calls completes everything accepted, and a stopped worker exits |
| `ExecutorTheorems.AcceptsExactly` | doca-cpp/src/rdma/internal/rdma_executor.cpp:466-482 | A call is accepted exactly when the stop flag is up at its look under the lock, and then queued last and unanswered; otherwise its promise is set to an error at once |
| `ExecutorTheorems.OnlyDecideAccepts` | doca-cpp/src/rdma/internal/rdma_executor.cpp:466-482 | Nothing else accepts a request |
| `ExecutorTheorems.CallsOpen` | doca-cpp/src/rdma/internal/rdma_executor.cpp:466-490 | Any thread can call at any time and waits only for the mutex, and the worker can wake up for no reason |
| `ExecutorTheorems.RefusedOnlyAfterStop` | doca-cpp/src/rdma/internal/rdma_executor.cpp:470-475 | No call is refused before the stop |
| `ExecutorTheorems.CallReturns` | doca-cpp/src/rdma/internal/rdma_executor.cpp:466-482 | Every call of `SubmitOperation` can be brought to its return from wherever it is |
| `ExecutorTheorems.StopReturns` | doca-cpp/src/rdma/internal/rdma_executor.cpp:307-338 | So can `Stop`: the worker has then exited, the queue is empty, and everything accepted was completed |
| `ExecutorMachine.ReachableInv` | doca-cpp/src/rdma/internal/rdma_executor.cpp:466-510 | The invariant behind these holds in every interleaving of submitters, worker and one stopper |
| `ExecutorMachine.StepKeeps` | doca-cpp/src/rdma/internal/rdma_executor.cpp:466-510 | Every mutex-level step keeps it |
| `ExecutorMachine.SubmitKeeps` | doca-cpp/src/rdma/internal/rdma_executor.cpp:466-482 | Every step of a submitter keeps it |
| `ExecutorMachine.WorkerKeeps` | doca-cpp/src/rdma/internal/rdma_executor.cpp:484-510 | Every step of the worker, a spurious wakeup included, keeps it |
| `ExecutorMachine.StopKeeps` | doca-cpp/src/rdma/internal/rdma_executor.cpp:307-338 | Every step of the stopper keeps it |
| `ExecutorMachine.SubmitKeepsWakeup` | doca-cpp/src/rdma/internal/rdma_executor.cpp:470-480 | No submission leaves a sleeping worker without a notify to come |
| `Executor.RdmaExecutor.ServeUntilStopped` | doca-cpp/src/rdma/internal/rdma_executor.cpp:484-510 | The worker answers every accepted request once, in order, and returns with the queue empty: with success exactly when every call of the operation succeeded and the ones before it had left room for it |
| `Executor.RdmaExecutor.WorkerLoop` | doca-cpp/src/rdma/internal/rdma_executor.cpp:484-510 | The loop itself, against the same history; a run without leaks never holds more than two elements more than it found |
| `Executor.RdmaExecutor.ExecuteNext` | doca-cpp/src/rdma/internal/rdma_executor.cpp:499-507 | One turn: the oldest request leaves the queue and its promise is set once |
| `Executor.RdmaExecutor.Execute` | doca-cpp/src/rdma/internal/rdma_executor.cpp:512-521 | One request's answer, success exactly when everything the operation needs is there and its task ended completed, and the elements it leaves in use |
| `Executor.RdmaExecutor.SubmitOperation` | doca-cpp/src/rdma/internal/rdma_executor.cpp:466-482 | A refused request is answered at once with an error and leaves the queue alone; an accepted one is queued last and unanswered |
| `Executor.RdmaExecutor.OnConnectionRequested` | doca-cpp/src/rdma/internal/rdma_executor.cpp:394-412 | Accepts exactly when both slots are empty |
| `Executor.RdmaExecutor.OnConnectionEstablished` | doca-cpp/src/rdma/internal/rdma_executor.cpp:414-426 | Makes the connection active unless one is |
| `Executor.RdmaExecutor.OnConnectionClosed` | doca-cpp/src/rdma/internal/rdma_executor.cpp:428-432 | Clears the active slot whatever the identifier |
| `Executor.RdmaAwaitable.Await` | doca-cpp/src/rdma/internal/rdma_awaitable.cpp:13-16 | Takes the one answer of the promise |
| `Executor.RdmaAwaitable.AwaitWithTimeout` | doca-cpp/src/rdma/internal/rdma_awaitable.cpp:18-27 | Takes the answer exactly when the promise is set; a timeout leaves it there |
| `Connections.SingleLiveConnection` | doca-cpp/src/rdma/internal/rdma_executor.cpp:340-432 | On the server and on the client: at most one accepted or opened connection is unclosed, and the active one is that one, in every sequence of callbacks that come for live connections only, on an executor that opens a connection only when it has none and is asked for none meanwhile |
| `Connections.RequestKeeps` | doca-cpp/src/rdma/internal/rdma_executor.cpp:394-412 | A request does harm exactly when it is accepted while a connection of the executor's own is being set up |
| `Connections.EstablishedKeeps` | doca-cpp/src/rdma/internal/rdma_executor.cpp:414-426 | An established callback keeps the slots right exactly when a connection is active already or the established one is live |
| `Connections.ConnectingKeeps` | doca-cpp/src/rdma/internal/rdma_executor.cpp:340-375 | Opening a connection keeps them right exactly when none is live |
| `Connections.StrayClose` | doca-cpp/src/rdma/internal/rdma_executor.cpp:428-432 | A close callback keeps the slots right exactly when it is for a live connection or none is active |
| `Connections.StrayCloseAdmitsSecond` | doca-cpp/src/rdma/internal/rdma_executor.cpp:394-432 | After a stray close a second connection is accepted beside the first |
| `Connections.TakesUntilWedged` | doca-cpp/src/rdma/internal/rdma_executor.cpp:394-426 | With no live connection an executor that only listens takes a new one exactly until one was lost between request and establishment; from then on it takes none |
| `Connections.WedgedExactly` | doca-cpp/src/rdma/internal/rdma_executor.cpp:394-432 | Event by event: which callbacks leave the request slot behind, and that only the establishment of a connection the executor opened itself clears it |
| `Transfers.ExecuteTransfer` | doca-cpp/src/rdma/internal/rdma_executor.cpp:523-681 | Success exactly with both buffers, a connection, room for two elements, every call agreed to, a task that ended completed and both elements released; one or two elements stay in use exactly for the failures that leave them; a native task, where one was allocated, is freed exactly once across `Free` and the destructor; at most two elements above what was in use |
| `Transfers.ExitMeans` | doca-cpp/src/rdma/internal/rdma_executor.cpp:523-681 | The exit points mean this: which calls succeeded, what was taken from the inventory and what was returned |
| `Transfers.RunSucceeds` | doca-cpp/src/rdma/internal/rdma_executor.cpp:484-521 | Over a run of operations each succeeds exactly when its calls do and the ones before it left room |
| `Transfers.WaitForTaskState` | doca-cpp/src/rdma/internal/rdma_executor.cpp:711-732 | Success exactly when the completion callback left the task completed |
| `Transfers.RdmaTask.Submit` | doca-cpp/src/rdma/internal/rdma_task.cpp:293-304 | Fails for a missing task and for an error from the library |
| `Transfers.RdmaTask.Free` | doca-cpp/src/rdma/internal/rdma_task.cpp:306-310 | Frees the native task once and forgets it |
| `Transfers.RdmaTask.Destroy` | doca-cpp/src/rdma/internal/rdma_task.cpp:255-260 | Frees a task that `Free` has not freed |
| `Transfers.BufferInventory.AllocBuffer` | doca-cpp/src/rdma/internal/rdma_executor.cpp:753-863 | Takes one element exactly when one is left and the library agrees |
| `Transfers.BufferInventory.DecRefcount` | doca-cpp/src/rdma/internal/rdma_executor.cpp:588-596 | Gives one element back exactly when the library agrees |
| `Transfers.InventoryConserved` | doca-cpp/src/rdma/internal/rdma_executor.cpp:523-681 | Over any run the elements in use are those found plus the leaks of the exit points, never more than sixteen |
| `Transfers.NoLeaks` | doca-cpp/src/rdma/internal/rdma_executor.cpp:523-681 | A run leaks nothing exactly when no operation returned at a leaking exit point |
| `Transfers.ExhaustionIsFinal` | doca-cpp/src/rdma/internal/rdma_executor.cpp:267-268 | Once fewer than two elements are left no later operation ever succeeds |
| `Transfers.LeakBudget` | doca-cpp/src/rdma/internal/rdma_executor.cpp:267-268 | At most sixteen operations of an executor ever leak, and after at most seven there is still room for one |
| `Wire.LittleEndianInverse` | doca-cpp/src/rdma/internal/rdma_communication.cpp:41-44 | The 32-bit length field and its bytes determine each other |
| `Wire.LittleEndianBytes` | doca-cpp/src/rdma/internal/rdma_communication.cpp:41-44 | The length field goes from the low byte up |
| `Wire.Layout` | doca-cpp/src/rdma/internal/rdma_communication.cpp:34-118 | Byte by byte: a message is its tag, the 32-bit length of its body and the body, an acknowledge its code |
| `Wire.FrameLayout` | doca-cpp/src/rdma/internal/rdma_session.cpp:443-458 | A frame is the 32-bit length of the payload and the payload |
| `Wire.DecodeEncode` | doca-cpp/src/rdma/internal/rdma_communication.cpp:34-124 | Every encoded message is long enough to decode, and decoding inverts encoding for exactly the messages that survive the narrowing casts |
| `Wire.EncodeDecode` | doca-cpp/src/rdma/internal/rdma_communication.cpp:55-124 | What is decoded encodes to the part of the buffer that was looked at: to the same bytes exactly when the buffer's length matches its length field |
| `Wire.EncodingsCollide` | doca-cpp/src/rdma/internal/rdma_communication.cpp:34-109 | Two messages of a kind have one encoding exactly when they are equal up to the endpoint type modulo 256 |
| `Wire.FrameRoundTrip` | doca-cpp/src/rdma/internal/rdma_session.cpp:443-458 | A frame is read back whole, and the stream continues right after it, exactly when the payload's size fits in 32 bits |
| `Wire.UnframeExact` | doca-cpp/src/rdma/internal/rdma_session.cpp:295-309 | What is unframed accounts for every byte of the stream |
| `Wire.CutFrame` | doca-cpp/src/rdma/internal/rdma_session.cpp:298-309 | A stream cut inside a frame holds no frame |
| `Wire.HeadRead` | doca-cpp/src/rdma/internal/rdma_session.cpp:293-314 | The first message of a stream is read as itself exactly when it can be sent: for a request, a path of at most 2^32 - 6 bytes and a type of one byte |
| `Wire.StreamRoundTrip` | doca-cpp/src/rdma/internal/rdma_session.cpp:293-334 | Any sequence of messages, each serialized, framed and concatenated, is read back as the same sequence with the rest of the stream untouched, exactly when each of them can be sent |
| `Wire.BrokenStream` | doca-cpp/src/rdma/internal/rdma_session.cpp:293-334 | A connection that breaks anywhere inside the stream never makes a complete sequence |
| `MessageSerializer.SerializeRequest` | doca-cpp/src/rdma/internal/rdma_communication.cpp:34-53 | The push, resize, copy and insert steps make the specified encoding |
| `MessageSerializer.DeserializeRequest` | doca-cpp/src/rdma/internal/rdma_communication.cpp:55-73 | The offset arithmetic reads the specified message, from any buffer long enough for its own length field |
| `MessageSerializer.SerializeResponse` | doca-cpp/src/rdma/internal/rdma_communication.cpp:75-91 | The same for responses |
| `MessageSerializer.DeserializeResponse` | doca-cpp/src/rdma/internal/rdma_communication.cpp:93-111 | The same for responses |
| `MessageSerializer.SerializeAcknowledge` | doca-cpp/src/rdma/internal/rdma_communication.cpp:113-118 | The same for acknowledges |
| `MessageSerializer.DeserializeAcknowledge` | doca-cpp/src/rdma/internal/rdma_communication.cpp:120-124 | The same for acknowledges |
| `Sockets.Socket.WriteFrame` | doca-cpp/src/rdma/internal/rdma_session.cpp:443-458 | Success sends exactly one frame; a failure sends a prefix of it |
| `Sockets.Socket.ReadFrame` | doca-cpp/src/rdma/internal/rdma_session.cpp:295-309 | Success takes exactly the next frame off the stream; a failure or a timer leaves a later part of the stream, none of it behind that frame; on a healthy socket it fails only on a stream that is too short |
| `Sockets.ReceiveRequest` | doca-cpp/src/rdma/internal/rdma_session.cpp:293-314 | The next request of the stream, or an error that leaves a later part of the stream |
| `Sockets.ReceiveAcknowledge` | doca-cpp/src/rdma/internal/rdma_session.cpp:336-379 | The next acknowledge of the stream, or an error or a timeout after which the rest of the stream stays readable |
| `Sockets.LateAckUnreadable` | doca-cpp/src/rdma/internal/rdma_session.cpp:179-184 | An acknowledge that comes after its wait was given up, taken for a request, is shorter than what the deserializer reads |
| `Sockets.SendResponse` | doca-cpp/src/rdma/internal/rdma_session.cpp:316-334 | Exactly one framed response on success, a prefix of it on failure |
| `Sockets.SendRequest` | doca-cpp/src/rdma/internal/rdma_session.cpp:428-491 | One framed request, then the next response of the stream: nothing is read before the whole request is written, and on a healthy socket it is written whatever comes back; nothing is sent without a connection |
| `Sockets.SendAcknowledge` | doca-cpp/src/rdma/internal/rdma_session.cpp:493-535 | One framed acknowledge on success; nothing is sent without a connection |
| `Channels.UpChannel` | doca-cpp/src/rdma/internal/rdma_session.cpp:293-379 | The queue of client messages in the protocol is what the unread bytes stand for: the reader of the right kind takes exactly its head and leaves exactly its tail |
| `Channels.DownChannel` | doca-cpp/src/rdma/internal/rdma_session.cpp:460-475 | The same for responses with their descriptors |
| `Channels.UpFaithful` | doca-cpp/src/rdma/internal/rdma_communication.cpp:34-109 | Different client messages are different on the wire, and all of them can be sent |
| `Channels.DownFaithful` | doca-cpp/src/rdma/internal/rdma_communication.cpp:75-91 | The same for responses, when different buffers export different descriptors |
| `Channels.SendAppends` | doca-cpp/src/rdma/internal/rdma_session.cpp:443-458 | Sending a message appends it to the queue the bytes stand for |
| `Channels.ReceiveTakesHead` | doca-cpp/src/rdma/internal/rdma_session.cpp:293-314 | Receiving takes the oldest message off that queue |
| `Channels.NumbersInOrder` | doca-cpp/include/doca-cpp/rdma/internal/rdma_communication.hpp:41-71 | Types and codes on the wire are the places of their enumerators in the declaration, counted from one |
| `ServeShutdown.SingleServe` | doca-cpp/src/rdma/rdma_server.cpp:81-95 | At most one body of `Serve` runs, and `isServing` is set exactly while one does, with any number of callers |
| `ServeShutdown.RefusedWhileServing` | doca-cpp/src/rdma/rdma_server.cpp:82-88 | A call is refused exactly when it looks while another call's body runs |
| `ServeShutdown.ShutdownAnswer` | doca-cpp/src/rdma/rdma_server.cpp:236-260 | `Shutdown` succeeds exactly when no body of `Serve` runs at the moment it looks, notified or not, and fails exactly when one still does after the timeout |
| `ServeShutdown.ShutdownIsFinal` | doca-cpp/src/rdma/rdma_server.cpp:184-193 | Once any `Shutdown` has begun the turns of the poll loop, in which sessions run, are those whose guard had been passed: turns made and turns due are conserved, so at most one more is made, by the body that had already read the flag, and none in any later `Serve` |
| `ServeShutdown.TurnAfterShutdown` | doca-cpp/src/rdma/rdma_server.cpp:184-193 | That one turn is real: a reachable state with the flag down whose next step is a turn |
| `ServeShutdown.ShutdownBegan` | doca-cpp/src/rdma/rdma_server.cpp:241-242 | The stop flag is down exactly when some `Shutdown` is past its first store |
| `ServeShutdown.ServeAnswer` | doca-cpp/src/rdma/rdma_server.cpp:184-215 | What a call of `Serve` returns, in every run: an error exactly when one of its steps has failed, and otherwise it was told to stop |
| `ServeShutdown.FailureEndsServe` | doca-cpp/src/rdma/rdma_server.cpp:185-211 | An error of a session, an exception or a failed setup ends the call: it clears the flag, notifies and returns an error, is always able to, and makes no further turn |
| `ServeShutdown.TimeoutAnswers` | doca-cpp/src/rdma/rdma_server.cpp:244-257 | A caller of `Shutdown` that times out answers within three steps of its own |
| `ServeShutdown.FailsOnlyAfterTimeout` | doca-cpp/src/rdma/rdma_server.cpp:244-257 | And none fails without a timeout |
| `ServeShutdown.NotifyWakesAll` | doca-cpp/src/rdma/rdma_server.cpp:90-95 | The notify at the end of `Serve` reaches every caller blocked at that moment |
| `ServeShutdown.WaitsForMutexOnly` | doca-cpp/src/rdma/rdma_server.cpp:77-260 | Anyone can call `Serve` and `Shutdown` at any time, and no call ever waits for anything but the mutex |
| `ServeShutdown.StoresBeforeLook` | doca-cpp/src/rdma/rdma_server.cpp:240-255 | A caller of `Shutdown` has made both its stores, in order, before it looks, and sets the forced flag only after a timeout |
| `ServeShutdown.ServeWindsDown` | doca-cpp/src/rdma/rdma_server.cpp:195-206 | A body that was told to stop always has a next step, forced or not, comes closer to its end with it, and no other thread sets it back |
| `ServeShutdown.NothingIsDrained` | doca-cpp/src/rdma/rdma_server.cpp:195-206 | The loop that the code says processes the remaining events until the shutdown is forced never makes a turn, in any run |
| `ServeShutdown.NotifyCanBeMissed` | doca-cpp/src/rdma/rdma_server.cpp:90-95 | A reachable state in which `Shutdown` sleeps although nothing serves and no notify is to come: the notify is made without the mutex |
| `ServeShutdown.MissedNotifyRecovers` | doca-cpp/src/rdma/rdma_server.cpp:244-257 | As long as no new `Serve` starts, a waiting caller is on its way to success in every run, whatever other threads do: at most three more steps, none leading elsewhere, and it or the thread with the mutex can always go on |
| `ServeShutdown.MutexIsReleased` | doca-cpp/src/rdma/rdma_server.cpp:82-247 | Whoever has the mutex can go on and lets it go after at most two steps of its own |
| `ServeShutdown.ReachableInv` | doca-cpp/src/rdma/rdma_server.cpp:77-260 | The invariant behind these holds in every interleaving |
| `ServeShutdown.KeepsServing` | doca-cpp/src/rdma/rdma_server.cpp:82-95 | Every step keeps the guard: one body at most, and the flag tells |
| `FineGrainedLock.WinnersCounted` | doca-cpp/src/rdma/rdma_endpoint.cpp:217-236 | With each endpoint's mutex section a step of its own and no unlocks, at most as many concurrent try-locks succeed as there were free endpoints, and at least one does once any has been through them |
| `FineGrainedLock.EveryEndpointAWinner` | doca-cpp/src/rdma/rdma_endpoint.cpp:217-236 | The bound is reached: on a free path with n endpoints n callers can all succeed |
| `FineGrainedLock.ExclusiveExactly` | doca-cpp/src/rdma/rdma_endpoint.cpp:217-236 | On a free path the lock excludes callers on different threads exactly when the path has at most one endpoint |
| `FineGrainedLock.ReachableInv` | doca-cpp/src/rdma/rdma_endpoint.cpp:221-231 | Every free flag is set by one caller, who succeeds, in every interleaving |

## Left out

- Everything of DOCA: devices, progress engine, contexts, memory maps and their permissions, export and import of descriptors. Each call is an outcome the model quantifies over.
- Asio mechanics: resolving, connecting, keepalive, cancellation, the event loop. A connection is a pair of byte streams, and a coroutine runs undisturbed from one `co_await` to the next.
- Wall-clock time. A timer may fire at any step at which it is running; the task wait's zero timeout never fires.
- User services: a handler is any outcome and any bytes. That a handler may throw is not modelled.
- Handlers that change a buffer's size do not exist in the source and do in the model; the data theorems therefore ask for equal sizes where they claim equality and give a prefix otherwise.
- `Protocol` keeps the operations of all links apart and lets them run in any order. That the executor runs them first in, first out is proved in `ExecutorMachine`, and not needed by the protocol.
- `Protocol` identifies endpoints by path and type; two types outside the enumeration on one path share an identifier in the source, which only `EndpointStorage` and `ServerSession` model.
- A late acknowledge that the server takes for a request ends in the state `Misread`. What the deserializer then reads outside of its buffer is not modelled.
- SessionHistory.HistoryIsServeAll: for links with a type of the enumeration, whose server has not misread a late acknowledge; what follows a misread is not defined by the code.
- SessionHistory.EveryLinkObeys: the same links.
- `Protocol` lets `Serve` return at any moment at which a link is open, for whatever reason, and a later `Serve` begin at once; that the first needs an error or a shutdown, and that a shutdown allows no later one to serve, is in `ServeShutdown`.
- `serverInternalError` is overwritten by each session that ends, with no error too; which of them the poll loop sees is a nondeterministic fault in `ServeShutdown`.
- The branch of the server coroutine for a path without endpoints after a successful lookup cannot be taken; `ServerSession.ServeExported` proves it.
- `operationRejected` is a default value that is never sent and has no counterpart here; `operationInterrupted` is never sent either.
- Error texts. In three places the code wraps or prints a different error than the one that occurred (`doca-cpp/src/rdma/internal/rdma_session.cpp:113` and `:360`, `doca-cpp/src/rdma/internal/rdma_executor.cpp:369`); the model has only success and failure.
- `Connect` ends without returning a value after success; the model takes that as success.
- `ExecutorMachine`: one stopping thread and one lifetime of the executor. The destructor's own stop, a second concurrent `Stop` and a restart are not modelled.
- `ServeShutdown`: the server's destructor, which lowers a flag the model already lets go down, and the executor that a later `Serve` puts in the place of the first.
- Data races on `activeConnection` and on a task's state: every read and write is atomic.
- Executor.RdmaExecutor.WorkerLoop: other threads are folded into its waits, the connection slot does not change during a run of it, and each request carries the outcomes of its own library calls. The interleaving itself is in `ExecutorMachine`.
- Executor.RdmaExecutor.Wait: a stand-in for the condition variable, which hands over any number of submissions at a time and the stop after the last.
- Transfers.ExecuteTransfer: one method for `executeRead` and `executeWrite`, whose steps are the same with source and destination exchanged; a null progress engine and an allocation that hands out a null task are not modelled.
- EndpointStorage.RdmaEndpointStorage.RegisterEndpoint: a null endpoint and a failing insertion into the map, which the check just before excludes, are not modelled.
- EndpointStorage.RdmaEndpointStorage.TryLockEndpointsByPath: iteration in any order and undisturbed, as one thread runs it; the per-endpoint mutexes are in `FineGrainedLock`.
- FineGrainedLock.WinnersCounted: callers of the try-lock alone; with unlocks in between the flags of a path can come to disagree, and nothing is claimed then.
- Buffers.CreateEndpoints: the endpoint builder's checks for a missing device or buffer, which the sample never trips.
- Sockets.ReceiveRequest: asks for a payload long enough for its own length field, as the unchecked deserializer does.
- Sockets.ReceiveAcknowledge: asks the same; an empty payload is not modelled.
- Sockets.SendRequest: asks the same of the response; its timer is one of the failures an unhealthy socket has.
- Channels.UpChannel: for paths whose characters are bytes and types that fit in one byte; `std::string` holds nothing else.
- The endpoint, server, client and executor builders, `CodeDescription`, logging, configuration files, device discovery, send and receive tasks, everything under `doca-cpp/src/flow`, and the research programs: forwarding or text, with nothing to prove.
