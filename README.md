# asyncworks task-execution engine, modelled in Dafny

This project models the task-execution engine of the `com.j2speed.async` library. It covers:

- **The job state machine of `DefaultRunner`** (`default_runner.dfy`). An `AbstractJob` has the flags `cancelRequested`, `started`, `cancelled` and `done`, and the `runner` thread. `run`, `cancel` and `cancelUnstarted` change them; `checkCancelled` only reads `cancelRequested` and throws CancelledException when it is set. The callback rounds `run` delivers along the handler array are onResponse / onProgress, onComplete, onException and onFinally.
  - The steps are specified as functions over a `JobState` value.
  - The `Job` class runs them in place, one `for` loop per round, and is proved to agree with those functions.
  - The runner's `start` (null and argument checks, `prepare`, hand-over to the executor), `cancel` through the executor, `cancelPendings` and `shutdown` are modelled too.
- **The callback dispatcher `HandlingProcessor`** (`handling_processor.dfy`). It selects the nearest `onException` overload by walking the superclass chain over an explicit class hierarchy (`platform.dfy`). It calls directly or through a RunOn transferer, and normalises handler failures.
- **The work queue `ExecutionQueue`** (`execution_queue.dfy`). This is a rendezvous side (producers waiting with an offer) plus a FIFO buffer of rejected tasks that is always served first.
- **`ReentrantExecutor`** (`reentrant_executor.dfy`). It runs a command inline on its own threads and hands it to the pool elsewhere. It covers removal from the queue, draining the queue, shutdown, and the thread factory's names from a wrapping 32-bit counter.
- **`AsyncLoop`** (`async_loop.dfy`): the `while (hasNext())` loop that checks for cancellation and then notifies `next()` as progress.
- **`SyncRunner`** (`sync_runner.dfy`): a DefaultRunner over an executor that runs every command on the calling thread and never queues anything.

Threads are not modelled as running concurrently. Each operation is an atomic step, and an interleaving is a sequence of steps.

Some inputs the engine cannot see are parameters of the step that uses them:

- the user computation's outcome (it returned a value, or threw) and, for a Progressive computation run by `start`, the values it passes to `notifyProgress` before that;
- the values and failures of an `AsyncLoop`'s `next()`;
- what each handler method raises;
- whether a RunOn transferer can be invoked;
- whether a pool worker took a task (`handedOff`);
- whether the buffer accepted a rejected task (`stored`);
- the queue's answer to `remove` (`removed`).

The log of a job records each callback call, naming the handler's position and whether the callback was called directly or handed to a transferer. It also records the moment `done` is set and the interrupt-flag operations on threads.

Where the documentation and the code disagree, the model follows the code:

- **onComplete after cancellation.** After a `CancelledException` from the computation (`src/com/j2speed/async/DefaultRunner.java:205-206`), control reaches the onComplete round (`:223-227`). So onComplete *is* delivered on cooperative cancellation, although the CompletionHandler documentation says otherwise. `DefaultRunner.CompletionAfterCancellation` states what the code does. A job cancelled before it started, that the queue did not remove and that therefore still runs, gets the onComplete round from `run`'s own checkCancelled when its handlers are CompletionHandlers (Async and Progressive jobs; a RequestJob's ResponseHandlers have no onComplete) (`DefaultRunner.RunAfterCancelRequest`). A job the queue did remove is cancelled unstarted and gets only the onFinally round (`DefaultRunner.CancelEffect`).
- **Responses before `done`.** A RequestJob delivers its response round inside `doRun`, so before `done` is set (`DefaultRunner.NormalPath`). It does not happen after the termination bookkeeping.
- **`clear` keeps parked producers.** `ExecutionQueue.clear` empties the buffer. The rendezvous side it inherits from `SynchronousQueue` has no capacity, so its `clear` does nothing, and producers waiting there stay waiting (`ExecutionQueue.ClearSpec`). A following `poll` returns nothing only when no producer is parked (`ExecutionQueue.ClearThenPoll`).

## Model

| member | source | states |
|---|---|---|
| Platform.SuperClimbs | src/com/j2speed/async/HandlingProcessor.java:81-87 | the superclass of a throwable class is Object exactly for Throwable; any other class climbs to a declared class nearer to Object, so the walk terminates |
| HandlingProcessor.BestMatch | src/com/j2speed/async/HandlingProcessor.java:74-90 | the overload found is one the handler declares and the thrown class is an instance of; with the mandatory `onException(Throwable)` one is always found |
| HandlingProcessor.BestMatchIsNearest | src/com/j2speed/async/HandlingProcessor.java:74-90 | the overload found is the first ancestor-or-self of the thrown class that has an overload, and no overload exists exactly when no ancestor has one |
| HandlingProcessor.FindBestMatch | src/com/j2speed/async/HandlingProcessor.java:74-90 | the loop reassigning the class to its superclass returns the nearest overload BestMatch specifies |
| HandlingProcessor.NearerOverloadWins | src/com/j2speed/async/HandlingProcessor.java:78-89 | when an overload below Throwable applies to the thrown class, the walk never ends at Throwable |
| HandlingProcessor.SpecificOverloadShadowsGeneral | src/com/j2speed/async/HandlingProcessor.java:92-97 | when a specific overload applies, `onException(Throwable)` is never the one invoked |
| HandlingProcessor.HandleInvocationTargetException | src/com/j2speed/async/HandlingProcessor.java:120-128 | the cause is rethrown unchanged exactly when it is a RuntimeException or an Error; otherwise it is wrapped in a RuntimeException; the result is always unchecked |
| HandlingProcessor.Rethrown | src/com/j2speed/async/HandlingProcessor.java:107-110 | a reflective call fails exactly when the invoked method raised, and then with an unchecked throwable |
| HandlingProcessor.Transfer | src/com/j2speed/async/HandlingProcessor.java:61-71 | the closure is handed to the transferer exactly when its method can be invoked; reflective access failures come out wrapped in a RuntimeException; every failure is unchecked |
| HandlingProcessor.Invoke | src/com/j2speed/async/HandlingProcessor.java:146-202 | a callback without RunOn marker is called directly, once, and lets its own failure escape; a marked one only goes to the transferer |
| HandlingProcessor.HandleException | src/com/j2speed/async/HandlingProcessor.java:92-118 | the best-matching overload receives the very throwable; the Throwable overload is called plainly and a specific one reflectively, with its failure normalised |
| HandlingProcessor.HandleResult | src/com/j2speed/async/HandlingProcessor.java:146-159 | the response handler receives the given result unchanged |
| HandlingProcessor.HandleProgress | src/com/j2speed/async/HandlingProcessor.java:161-174 | the progress handler receives the given progress unchanged |
| HandlingProcessor.Complete | src/com/j2speed/async/HandlingProcessor.java:176-188 | the only call made is onComplete |
| HandlingProcessor.HandleFinally | src/com/j2speed/async/HandlingProcessor.java:190-202 | the only call made is onFinally |
| HandlingProcessor.Notify | src/com/j2speed/async/HandlingProcessor.java:130-202 | a dispatch makes at most one call, to the callback the event selects; the call is direct exactly when the selected method has no RunOn marker; a dispatch that calls nothing fails |
| DefaultRunner.Prepared | src/com/j2speed/async/DefaultRunner.java:185-194 | a computation that is a handler of the array's type comes first, followed by the handlers shifted by one in order; otherwise the handlers are used unchanged |
| DefaultRunner.Prepare | src/com/j2speed/async/DefaultRunner.java:185-194 | the array built is fresh and holds what Prepared says; otherwise it is the very array given |
| DefaultRunner.AcceptedHasHandler | src/com/j2speed/async/DefaultRunner.java:93-110 | a Request or Progressive that start accepts always has at least one handler after prepare |
| DefaultRunner.NewJob | src/com/j2speed/async/DefaultRunner.java:86-108 | a null handler array raises NullPointerException; otherwise no job is built, and IllegalArgumentException is raised, exactly when a Request or Progressive without handlers is not itself a handler; otherwise the job is fresh, unstarted and holds the prepared handlers |
| DefaultRunner.Runner.Start | src/com/j2speed/async/DefaultRunner.java:86-110 | a null handler array raises NullPointerException and a refused start IllegalArgumentException, both leaving the queue untouched; an accepted one builds the job with the prepared handlers and submits it |
| DefaultRunner.Runner.Submit | src/com/j2speed/async/ReentrantExecutor.java:98-110 | on a pool thread the job runs at once to its end (the RunStep), its computation's progress values included; elsewhere a worker takes it, or it joins the buffer, or RejectedExecutionException escapes exactly when the buffer refused it; pending jobs stay distinct and unstarted |
| DefaultRunner.LoopQuiet | src/com/j2speed/async/DefaultRunner.java:224-226 | a delivery loop ends without failure exactly when no handler's dispatch fails |
| DefaultRunner.QuietLoopEvents | src/com/j2speed/async/DefaultRunner.java:229-231 | a loop without failure records one call per handler, in array order |
| DefaultRunner.LoopStopsAtFirstFault | src/com/j2speed/async/DefaultRunner.java:287-289 | a failed loop failed at the first failing handler, with that failure, and reached no handler after it |
| DefaultRunner.LoopStable | src/com/j2speed/async/DefaultRunner.java:287-289 | once a loop has failed, more handlers change nothing |
| DefaultRunner.LoopPrefixFailure | src/com/j2speed/async/DefaultRunner.java:287-289 | a loop that did not fail had no failing dispatch in any prefix |
| DefaultRunner.RunLoop | src/com/j2speed/async/DefaultRunner.java:287-289 | the `for` loop over the handlers appends exactly the calls and failure that Loop specifies |
| DefaultRunner.DeliverAllQuiet | src/com/j2speed/async/DefaultRunner.java:350-352 | a round fails exactly when some handler faults; otherwise every handler, in array order, receives exactly one call answering the event |
| DefaultRunner.RoundAnswers | src/com/j2speed/async/DefaultRunner.java:224-231 | every call a round makes answers the event for the handler it went to |
| DefaultRunner.RoundFinalizations | src/com/j2speed/async/DefaultRunner.java:286-290 | the onFinally calls of a round are the whole round for onFinally, and none for any other event |
| DefaultRunner.CancelCheck | src/com/j2speed/async/DefaultRunner.java:267-271 | CancelledException exactly when a cancel was requested |
| DefaultRunner.Job.CheckCancelled | src/com/j2speed/async/DefaultRunner.java:267-271 | throws CancelledException exactly when a cancel was requested |
| DefaultRunner.BeginStep | src/com/j2speed/async/DefaultRunner.java:197-203 | `started` is set and the thread recorded before anything else; the check escapes exactly when a cancel was requested |
| DefaultRunner.Phase | src/com/j2speed/async/DefaultRunner.java:224-231 | a delivery round appends its calls to the log and changes nothing else |
| DefaultRunner.AfterBody | src/com/j2speed/async/DefaultRunner.java:317-322 | what escapes the computation or a response handler is a known throwable |
| DefaultRunner.Caught | src/com/j2speed/async/DefaultRunner.java:205-211 | the catch clauses change only `cancelled` and the interrupt re-assertion, and pass on only the throwable they do not catch |
| DefaultRunner.SettleCancelled | src/com/j2speed/async/DefaultRunner.java:205-222 | after the inner handlers the job is done without runner; it is cancelled exactly for a CancelledException, or an InterruptedException while a cancel was requested; only other throwables pass on, unchanged |
| DefaultRunner.FinishCancelled | src/com/j2speed/async/DefaultRunner.java:198-211 | `cancelled` becomes true only through CancelledException or an interrupt under a cancel request; a body that returns normally leaves the job uncancelled |
| DefaultRunner.RoundsKeepFlags | src/com/j2speed/async/DefaultRunner.java:223-234 | the onComplete, onException and onFinally rounds change nothing but the log |
| DefaultRunner.FailurePath | src/com/j2speed/async/DefaultRunner.java:212-231 | an Exception from the body skips onComplete and is delivered, the same object, to every handler after `done` is set, followed by onFinally |
| DefaultRunner.ErrorPath | src/com/j2speed/async/DefaultRunner.java:228-234 | a throwable that is not an Exception gets only the onFinally round and then escapes, unless onFinally itself fails |
| DefaultRunner.NormalPath | src/com/j2speed/async/DefaultRunner.java:317-322 | a Request's value is stored and delivered to every response handler before `done`; other jobs get onComplete after `done`; the job is not cancelled by it |
| DefaultRunner.CompletionAfterCancellation | src/com/j2speed/async/DefaultRunner.java:205-227 | a CancelledException from the body marks the job cancelled and still runs the onComplete round |
| DefaultRunner.FinishConsistent | src/com/j2speed/async/DefaultRunner.java:212-234 | whatever the body did, `run` ends with the job done, without runner, `done` set once and exactly one onFinally round |
| DefaultRunner.RunConsistent | src/com/j2speed/async/DefaultRunner.java:197-235 | `run` from an unstarted job keeps the job invariant and ends started and done |
| DefaultRunner.RunAfterCancelRequest | src/com/j2speed/async/DefaultRunner.java:198-206 | a job whose cancel was requested before it ran never runs its computation and ends cancelled |
| DefaultRunner.SettleCancellation | src/com/j2speed/async/DefaultRunner.java:205-222 | checkCancelled's CancelledException is caught: cancelled, done, the interrupt cleared, nothing escapes |
| DefaultRunner.Job.Run | src/com/j2speed/async/DefaultRunner.java:197-235 | the in-place `run`, with a computation that notifies progress values and then ends, ends in the state RunStep specifies, started, done and consistent |
| DefaultRunner.Job.NotifyEach | src/com/j2speed/async/DefaultRunner.java:348-353 | the computation's notifyProgress calls in turn agree with Progressions: one round per value until a round fails |
| DefaultRunner.Progressions | src/com/j2speed/async/DefaultRunner.java:348-353 | successive notifyProgress calls change only the value and the log, and what escapes is a known throwable |
| DefaultRunner.ProgressionsConsistent | src/com/j2speed/async/DefaultRunner.java:348-353 | successive notifyProgress calls keep the job invariant |
| DefaultRunner.QuietProgressions | src/com/j2speed/async/DefaultRunner.java:348-353 | without a failing round, one onProgress round per value is delivered, in order, and the job holds the last value |
| DefaultRunner.RunDeliversProgress | src/com/j2speed/async/DefaultRunner.java:197-235 | a Progressive job run without cancel or failure delivers every progress value in order, then sets `done`, then the onComplete and onFinally rounds |
| DefaultRunner.QuietRunBody | src/com/j2speed/async/DefaultRunner.java:197-204 | without a cancel request and with quiet progress rounds, `run` reaches the finishing part with the job started, running on the calling thread and holding the last value |
| DefaultRunner.QuietFinish | src/com/j2speed/async/DefaultRunner.java:212-234 | the finishing part of `run` for a Progressive job not asked to cancel and with a quiet onComplete round: `done`, then onComplete, then onFinally appended to the log, with the flags and value otherwise unchanged |
| DefaultRunner.Job.Finish | src/com/j2speed/async/DefaultRunner.java:204-234 | the rest of `run` after the computation agrees with FinishStep |
| DefaultRunner.ProgressConsistent | src/com/j2speed/async/DefaultRunner.java:348-353 | notifyProgress stores the value before the round and keeps the job invariant |
| DefaultRunner.Job.NotifyProgress | src/com/j2speed/async/DefaultRunner.java:348-353 | the in-place notifyProgress agrees with ProgressStep |
| DefaultRunner.CancelIdle | src/com/j2speed/async/DefaultRunner.java:238-241 | cancel changes nothing once the job is done or a cancel was already requested |
| DefaultRunner.CancelEffect | src/com/j2speed/async/DefaultRunner.java:242-253 | when the queue removed the job, it ends cancelled, done, unstarted, with one onFinally round; otherwise only the request is recorded and the running thread, if any, is interrupted |
| DefaultRunner.CancelConsistent | src/com/j2speed/async/DefaultRunner.java:238-254 | cancel keeps the job invariant |
| DefaultRunner.Job.Cancel | src/com/j2speed/async/DefaultRunner.java:238-254 | the in-place cancel agrees with CancelStep |
| DefaultRunner.Runner.Cancel | src/com/j2speed/async/DefaultRunner.java:238-254 | a job's cancel with this runner's executor: the executor is asked only when the request is recorded; a removed job leaves the queue and is cancelled unstarted; otherwise the queue is unchanged; the job agrees with CancelStep and the runner invariant holds |
| DefaultRunner.DistinctWithout | src/com/j2speed/async/ReentrantExecutor.java:112-115 | cutting one position out of distinct jobs leaves distinct jobs, without the one cut |
| DefaultRunner.DistinctAfterRemove | src/com/j2speed/async/ReentrantExecutor.java:112-115 | a removed job leaves the queue, and the pending jobs stay distinct |
| DefaultRunner.CancelUnstartedConsistent | src/com/j2speed/async/DefaultRunner.java:278-290 | cancelUnstarted leaves the job cancelled, done, unstarted and consistent, with exactly one onFinally round |
| DefaultRunner.Job.CancelUnstarted | src/com/j2speed/async/DefaultRunner.java:278-282 | the in-place cancelUnstarted agrees with CancelUnstartedStep |
| DefaultRunner.CancelEach | src/com/j2speed/async/DefaultRunner.java:117-121 | each drained job in turn is cancelled unstarted; a failure from one job's onFinally leaves the loop, and the later jobs are untouched |
| DefaultRunner.Runner.CancelPendings | src/com/j2speed/async/DefaultRunner.java:113-122 | the queue ends empty; the drained jobs are exactly the previously pending ones, and they are cancelled unstarted in order up to the first failure |
| DefaultRunner.Runner.Shutdown | src/com/j2speed/async/DefaultRunner.java:127-130 | as written: the queue is emptied and the executor shut down, but every previously pending job stays uncancelled, not done and unchanged |
| DefaultRunner.ShutdownLeavesPendingOpen | src/com/j2speed/async/DefaultRunner.java:124-130 | a pending job that shutdown drops has no onFinally call and is not done, while cancelUnstarted would have closed it |
| DefaultRunner.Runner.ShutdownCancelling | src/com/j2speed/async/DefaultRunner.java:124-126 | as documented: every previously pending job ends cancelled, done, unstarted, with its onFinally round, and the executor is shut down |
| ExecutionQueue.PollSpec | src/com/j2speed/async/ExecutionQueue.java:65-72 | the buffer head when the buffer is non-empty, else the oldest waiting offer; nothing exactly when both are empty, and then the queue is unchanged; a successful poll removes exactly the task returned |
| ExecutionQueue.TimedPollSpec | src/com/j2speed/async/ExecutionQueue.java:55-63 | a non-empty queue answers like poll(); an empty one hands over the offer arriving before the timeout, if any |
| ExecutionQueue.TakeSpec | src/com/j2speed/async/ExecutionQueue.java:74-81 | take always returns a task: what poll() returns, or the offer it waited for |
| ExecutionQueue.RejectSpec | src/com/j2speed/async/ExecutionQueue.java:83-88 | a task is appended to the buffer when stored, else the queue is unchanged (and RejectedExecutionException is raised) |
| ExecutionQueue.ClearSpec | src/com/j2speed/async/ExecutionQueue.java:49-53 | clear leaves only the waiting offers |
| ExecutionQueue.ClearThenPoll | src/com/j2speed/async/ExecutionQueue.java:49-53 | with no producer parked, poll after clear returns nothing |
| ExecutionQueue.PollsInOrder | src/com/j2speed/async/ExecutionQueue.java:28-35 | successive polls return the buffered tasks first, then the offers, in order |
| ExecutionQueue.PollsExhaust | src/com/j2speed/async/ExecutionQueue.java:65-72 | polling past the end returns every queued task and then nothing |
| ExecutionQueue.RejectedBeforeOffered | src/com/j2speed/async/ExecutionQueue.java:83-88 | a rejected task is handed out before a task offered afterwards |
| ExecutionQueue.BufferIsFifo | src/com/j2speed/async/ExecutionQueue.java:28-35 | rejected tasks stay in the buffer in the order they were rejected |
| ExecutionQueue.RemoveSpec | src/com/j2speed/async/ReentrantExecutor.java:112-115 | a successful removal takes out exactly one occurrence of the task |
| ExecutionQueue.RemoveFirst | src/com/j2speed/async/ReentrantExecutor.java:112-115 | the sequence keeps every element but one occurrence of the one removed |
| ExecutionQueue.IndexOf | src/com/j2speed/async/ReentrantExecutor.java:112-115 | a position holding the element, with no occurrence before it |
| ExecutionQueue.RemoveSpecContents | src/com/j2speed/async/ReentrantExecutor.java:112-115 | a successful removal cuts exactly one position, holding the task, out of the queue's contents |
| ExecutionQueue.ExecutionQueue.Poll | src/com/j2speed/async/ExecutionQueue.java:65-72 | the in-place poll agrees with PollSpec |
| ExecutionQueue.ExecutionQueue.PollTimeout | src/com/j2speed/async/ExecutionQueue.java:55-63 | the in-place timed poll agrees with TimedPollSpec |
| ExecutionQueue.ExecutionQueue.Take | src/com/j2speed/async/ExecutionQueue.java:74-81 | the in-place take agrees with TakeSpec |
| ExecutionQueue.ExecutionQueue.RejectedExecution | src/com/j2speed/async/ExecutionQueue.java:83-88 | the in-place rejectedExecution agrees with RejectSpec and raises exactly when the buffer refuses the task |
| ExecutionQueue.ExecutionQueue.Clear | src/com/j2speed/async/ExecutionQueue.java:49-53 | the in-place clear agrees with ClearSpec |
| ExecutionQueue.ExecutionQueue.DrainTo | src/com/j2speed/async/ReentrantExecutor.java:117-122 | the drain returns every queued task in poll order and leaves the queue empty |
| ReentrantExecutor.Wrap32 | src/com/j2speed/async/ReentrantExecutor.java:137 | the result is a Java `int`, congruent to the input modulo 2^32, and equal to it when it is in range |
| ReentrantExecutor.NatDigitsInjective | src/com/j2speed/async/ReentrantExecutor.java:151 | different counter values have different decimal forms |
| ReentrantExecutor.ThreadNamesDistinct | src/com/j2speed/async/ReentrantExecutor.java:151 | threads made at different counter values have different names |
| ReentrantExecutor.CounterCountsUp | src/com/j2speed/async/ReentrantExecutor.java:137 | the counter takes the values 0, 1, 2, ... for the first 2^31 threads |
| ReentrantExecutor.CounterWraps | src/com/j2speed/async/ReentrantExecutor.java:137 | the 2^31-st increment wraps the counter to -2^31 |
| ReentrantExecutor.NamesDistinctBeforeWrap | src/com/j2speed/async/ReentrantExecutor.java:149-152 | the first 2^31 threads all have different names |
| ReentrantExecutor.ReentrantThreadFactory.NewThread | src/com/j2speed/async/ReentrantExecutor.java:149-163 | the thread is a reentrant daemon named baseName followed by the counter's old value, and the counter advances by one, wrapping as a Java `int` |
| ReentrantExecutor.ReentrantExecutor.Execute | src/com/j2speed/async/ReentrantExecutor.java:98-110 | a command runs inline exactly when the caller is one of the executor's threads, and then is never queued; elsewhere it goes to the pool, where a rejected command joins the buffer or is refused |
| ReentrantExecutor.ReentrantExecutor.Cancel | src/com/j2speed/async/ReentrantExecutor.java:112-115 | the answer is the queue's removal result; a true answer means the task was pending, and one occurrence of it leaves the queue |
| ReentrantExecutor.ReentrantExecutor.CancelPendings | src/com/j2speed/async/ReentrantExecutor.java:117-122 | the tasks returned are exactly the pending ones, and the queue is left empty |
| ReentrantExecutor.ReentrantExecutor.Shutdown | src/com/j2speed/async/ReentrantExecutor.java:124-128 | the pending tasks are drained before the executor is marked shut down |
| AsyncLoop.LoopKeepsFlags | src/com/j2speed/async/AsyncLoop.java:31-36 | the loop changes neither `started` nor `done`, and never withdraws a cancel request |
| AsyncLoop.LoopAppend | src/com/j2speed/async/AsyncLoop.java:32-35 | running iterations in two parts is running them in one, unless the first part threw |
| AsyncLoop.StopsAtThrow | src/com/j2speed/async/AsyncLoop.java:32-35 | once an iteration throws, the iterations after it change nothing |
| AsyncLoop.NoValueAfterCancel | src/com/j2speed/async/AsyncLoop.java:32-34 | a cancel before iteration k ends the loop there with CancelledException; nothing after it is produced |
| AsyncLoop.NextFailureEscapes | src/com/j2speed/async/AsyncLoop.java:34 | an exception from `next()` at a reached iteration leaves the loop with that exception |
| AsyncLoop.LoopNoCancel | src/com/j2speed/async/AsyncLoop.java:32-35 | without a cancel the loop never raises the cancel request |
| AsyncLoop.LoopEmitsInOrder | src/com/j2speed/async/AsyncLoop.java:31-36 | without cancel or failure, each value `next()` returns is notified as progress, in order, one round per iteration, and the job holds the last one (none and no round for an empty loop) |
| AsyncLoop.Run | src/com/j2speed/async/AsyncLoop.java:31-36 | the `while` loop agrees with LoopStep and leaves the job running |
| AsyncLoop.LoopIsProgressions | src/com/j2speed/async/AsyncLoop.java:31-36 | without a cancel or a failure of `next()`, the loop is the sequence of notifyProgress calls on the values `next()` returns |
| SyncRunner.InlineExecutor.Execute | src/com/j2speed/async/SyncRunner.java:33-37 | every command runs on the calling thread before execute returns |
| SyncRunner.InlineExecutor.Cancel | src/com/j2speed/async/SyncRunner.java:44-47 | cancel always answers false |
| SyncRunner.InlineExecutor.CancelPendings | src/com/j2speed/async/SyncRunner.java:49-53 | nothing is ever pending |
| SyncRunner.SyncRunner.Start | src/com/j2speed/async/SyncRunner.java:69-82 | the same null and argument checks as DefaultRunner; an accepted job runs to its end on the calling thread, its progress values included, whatever thread that is, a nested start included |
| SyncRunner.SyncRunner.Cancel | src/com/j2speed/async/SyncRunner.java:44-47 | cancelling a job of this runner never takes the cancelUnstarted path; it agrees with CancelStep for a job the executor did not remove |
| SyncRunner.SyncRunner.CancelPendings | src/com/j2speed/async/SyncRunner.java:84-87 | nothing is cancelled and nothing escapes |

## Left out

- Threads, blocking and timing. Pool sizing, keep-alive, the rendezvous hand-over, and the wait in `poll(timeout, unit)` and `take` are not modelled. Each operation is an atomic step. The offer a waiting poll receives is a parameter. A pool worker taking a task is the `handedOff` parameter of `execute`.
- `SynchronousQueue` and `ConcurrentLinkedQueue` behaviour beyond the buffer's FIFO order. The order in which the library serves parked producers is modelled as oldest first. The answer of `remove` is a parameter constrained only by the executor's contract: a removed task was pending and no longer is. `drainTo` is modelled as polling until empty. Whether `ConcurrentLinkedQueue.offer` accepts is the `stored` parameter.
- `execute` after `shutdown`: the pool's refusal of new work after shutdown is not modelled; `isShutdown` is only recorded.
- Thread interruption: `interrupt` and `Thread.interrupted` become log events on the thread; no blocking call is interrupted by them. An InterruptedException is one of the computation's outcomes.
- ReentrantExecutor.ReentrantExecutor.Execute: a command runs inline when the calling thread is of the executor's marker class. It is not checked which executor created the thread, as the source does not check it either. The inline run itself is done by the caller (DefaultRunner.Runner.Submit) because the executor cannot see into a command.
- Java reflection: method lookup, `setAccessible`, annotations and the SecurityManager path become an explicit table of `onException` overloads per handler class and an optional RunOn transferer per method, with its accessibility as data. What a handler or transferer raises is data of the method.
- The transferer (for example the AWT event-queue hand-over) is not run: the model records that the callback was handed to it.
- The user computations and handler bodies (`Async`, `Request`, `Progressive`, `AsyncLoop.hasNext`/`next`) are inputs: the computation's outcome, and the script of `next()` results with the points where a cancel arrives.
- SyncRunner.get: the static singleton is not modelled, because Dafny has no static mutable state; SyncRunner.SyncRunner models the one instance.
- The flag getters (`isStarted`, `isDone`, `isCancelled`) and `get` of RequestJob and ProgressiveJob are the fields of the Job class and need no operation of their own.
- DefaultRunner.Job.Run: the Progressive computation is taken not to catch a failure escaping its own notifyProgress call, so that failure ends the computation. Catching it is user code and not modelled.
- HandlingProcessor.HandleResult and HandlingProcessor.HandleProgress: the handler receives the job's value as it was at the call, not the live job. A handler that reads `get()` later, or calls `Progress.cancel()` from inside a callback, is not modelled.
- DefaultRunner.HandlerType and DefaultRunner.Prepared: the handler array's component type is taken to be the handler interface of the job's kind. An array created with a subtype of it as component type would change whether the computation is prepended and whether the onComplete round runs; that is not modelled.
- ReentrantExecutor.ReentrantExecutor.Shutdown: `shutdownNow` also interrupts the workers running a job; that interrupt is not modelled, only the drain and the shut-down mark.
- Platform.Super: CancelledException is taken to be an unchecked exception, a subclass of RuntimeException, because `checkCancelled` throws it without declaring it. Its class file is not part of this model.
- DefaultRunner's constructors that size the pool are not modelled; DefaultRunner.Runner.constructor takes only the thread base name.

## Findings

| source | as written | input that shows it | evidently intended | confidence | as-written member | corrected member |
|---|---|---|---|---|---|---|
| src/com/j2speed/async/DefaultRunner.java:127-130 | `shutdown` drops the list `executor.cancelPendings()` returns, so the drained jobs never get `cancelUnstarted`: no onFinally, `isDone` and `isCancelled` stay false, and the jobs never run | a runner with one job waiting in the queue's buffer (started from a non-pool thread while every worker was busy), then `shutdown()` | every pending job is cancelled, as the method's documentation at lines 124-126 says: cancelled, done, and given its onFinally round | not executed | DefaultRunner.Runner.Shutdown | DefaultRunner.Runner.ShutdownCancelling |
