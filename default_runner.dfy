/**
 * The job state machine of DefaultRunner: the flags `cancelRequested`, `started`, `cancelled`,
 * `done` and the `runner` thread of an AbstractJob, how `run` and `cancel` change them, and the
 * rounds of callbacks they deliver to the job's handlers.
 *
 * The steps are specified as functions over a JobState value; the Job class further down runs
 * them in place and is proved to agree with these functions.
 */
module DefaultRunner {
  import opened Platform
  import opened HandlingProcessor
  import Queue = ExecutionQueue
  import Executors = ReentrantExecutor

  /** AsyncJob, RequestJob and ProgressiveJob. */
  datatype Kind = AsyncJob | RequestJob | ProgressiveJob

  /** The component type of a job's handler array. */
  function HandlerType(k: Kind): Iface
  {
    match k
    case AsyncJob => CompletionHandler
    case RequestJob => ResponseHandler
    case ProgressiveJob => ProgressHandler
  }

  /**
   * Whether CompletionHandler is assignable from the handler type, i.e. whether `run` has an
   * onComplete round: ProgressHandler extends CompletionHandler, ResponseHandler does not.
   */
  predicate Completes(k: Kind)
  {
    HandlerType(k) == CompletionHandler || HandlerType(k) == ProgressHandler
  }

  /** What a job runs with: the class hierarchy, its kind and its (prepared) handlers. */
  datatype Setup = Setup(h: Hierarchy, kind: Kind, handlers: seq<Handler>)

  /** Every handler is a handler of the job's handler type, as the array's type guarantees. */
  ghost predicate Ok(c: Setup)
  {
    && WellFormed(c.h)
    && forall i | 0 <= i < |c.handlers| ::
         IsHandler(c.h, c.handlers[i]) && HandlerType(c.kind) in c.handlers[i].implements
  }

  /**
   * What the job's log records: a callback call (or hand-over to a transferer) made for the
   * handler at position `pos` of the array, the moment `done` is set, and the interrupt-flag
   * operations on a thread.
   */
  datatype Event<T> =
    | Delivered(pos: nat, call: Call<T>)
    | DoneSet
    | InterruptSent(target: Thread)
    | InterruptReasserted(target: Thread)
    | InterruptCleared(target: Thread)

  /** One `for (H handler : handlers)` loop: the calls it made and the failure that ended it. */
  datatype Round<T> = Round(events: seq<Event<T>>, failure: Option<Exc>)

  ghost predicate NoticeOk<T>(c: Setup, n: Notice<T>)
  {
    n.Failed? ==> Known(c.h, n.exc)
  }

  /** What dispatching the notice does at each of the first k handlers, position by position. */
  function Dispatches<T>(c: Setup, n: Notice<T>, k: nat): (ds: seq<Dispatch<T>>)
    requires Ok(c) && NoticeOk(c, n) && k <= |c.handlers|
    ensures |ds| == k
  {
    seq(k, i requires 0 <= i < k => Notify(c.h, c.handlers[i], n))
  }

  /** Position i of the dispatches is the dispatch to handler i. */
  lemma {:induction false} DispatchAt<T>(c: Setup, n: Notice<T>, k: nat, i: nat)
    requires Ok(c) && NoticeOk(c, n) && i < k <= |c.handlers|
    ensures Dispatches(c, n, k)[i] == Notify(c.h, c.handlers[i], n)
  {
  }

  /** What every dispatch of a round guarantees, by the dispatcher's contract. */
  lemma DispatchFacts<T>(c: Setup, n: Notice<T>)
    requires Ok(c) && NoticeOk(c, n)
    ensures var ds := Dispatches(c, n, |c.handlers|);
      forall i | 0 <= i < |ds| ::
        && (ds[i].call.None? ==> ds[i].failure.Some?)
        && (ds[i].failure.Some? ==> Known(c.h, ds[i].failure.value))
        && (ds[i].call.Some? ==> Answers(c.h, c.handlers[i], n, ds[i].call.value.callback))
  {
    forall i | 0 <= i < |c.handlers| ensures Dispatches(c, n, |c.handlers|)[i] == Notify(c.h, c.handlers[i], n) {
      DispatchAt(c, n, |c.handlers|, i);
    }
  }

  /**
   * The `for (H handler : handlers)` loop over the first k dispatches: each call made is
   * recorded with the handler's position, and a failure escaping one dispatch leaves the loop,
   * so the handlers after it receive nothing.
   */
  function Loop<T>(ds: seq<Dispatch<T>>, k: nat): (r: Round<T>)
    requires k <= |ds|
    ensures |r.events| <= k
    ensures forall i | 0 <= i < |r.events| ::
      && r.events[i].Delivered? && r.events[i].pos < k
      && ds[r.events[i].pos].call == Some(r.events[i].call)
    ensures r.failure.Some? ==> exists j | 0 <= j < k :: r.failure == ds[j].failure
  {
    if k == 0 then Round([], None)
    else
      var r := Loop(ds, k - 1);
      if r.failure.Some? then r
      else
        var d := ds[k - 1];
        Round(r.events + (if d.call.Some? then [Delivered(k - 1, d.call.value)] else []), d.failure)
  }

  /** None of the first k dispatches lets a failure escape. */
  ghost predicate Quiet<T>(ds: seq<Dispatch<T>>, k: nat)
    requires k <= |ds|
  {
    forall i | 0 <= i < k :: ds[i].failure.None?
  }

  /**
   * A loop completes without failure exactly when no dispatch fails; then every handler, in
   * array order, received the call its dispatch made.
   */
  lemma {:induction false} LoopQuiet<T>(ds: seq<Dispatch<T>>, k: nat)
    requires k <= |ds|
    ensures Loop(ds, k).failure.None? <==> Quiet(ds, k)
  {
    if k > 0 {
      LoopQuiet(ds, k - 1);
    }
  }

  /** A loop without failures delivers, in array order, the call of every dispatch. */
  lemma {:induction false} QuietLoopEvents<T>(ds: seq<Dispatch<T>>, k: nat)
    requires k <= |ds| && Quiet(ds, k)
    requires forall i | 0 <= i < |ds| :: ds[i].call.None? ==> ds[i].failure.Some?
    ensures |Loop(ds, k).events| == k
    ensures forall i | 0 <= i < k :: Loop(ds, k).events[i] == Delivered(i, ds[i].call.value)
  {
    if k > 0 {
      QuietLoopEvents(ds, k - 1);
      LoopQuiet(ds, k - 1);
      var prev := Loop(ds, k - 1).events;
      var last := Delivered(k - 1, ds[k - 1].call.value);
      assert Loop(ds, k).events == prev + [last];
      forall i | 0 <= i < k ensures Loop(ds, k).events[i] == Delivered(i, ds[i].call.value) {
        if i < k - 1 {
          assert (prev + [last])[i] == prev[i];
        }
      }
    }
  }

  /**
   * A failed loop failed at the first failing dispatch: its failure is the one that escapes,
   * and no later handler was reached.
   */
  lemma {:induction false} LoopStopsAtFirstFault<T>(ds: seq<Dispatch<T>>, k: nat)
    requires k <= |ds| && Loop(ds, k).failure.Some?
    ensures exists j | 0 <= j < k ::
      && Quiet(ds, j) && ds[j].failure.Some?
      && Loop(ds, k) == Loop(ds, j + 1)
      && Loop(ds, k).failure == ds[j].failure
  {
    if Loop(ds, k - 1).failure.Some? {
      LoopStopsAtFirstFault(ds, k - 1);
      var j :| 0 <= j < k - 1 && Quiet(ds, j) && ds[j].failure.Some?
               && Loop(ds, k - 1) == Loop(ds, j + 1) && Loop(ds, k - 1).failure == ds[j].failure;
      assert Loop(ds, k) == Loop(ds, j + 1);
    } else {
      assert Quiet(ds, k - 1) by {
        forall i | 0 <= i < k - 1 ensures ds[i].failure.None? {
          LoopPrefixFailure(ds, i + 1, k - 1);
        }
      }
    }
  }

  /** Once a loop has failed, extending it to more handlers changes nothing. */
  lemma {:induction false} LoopStable<T>(ds: seq<Dispatch<T>>, i: nat, k: nat)
    requires i <= k <= |ds| && Loop(ds, i).failure.Some?
    ensures Loop(ds, k) == Loop(ds, i)
    decreases k - i
  {
    if i < k {
      LoopStable(ds, i, k - 1);
    }
  }

  /** A loop that did not fail had no failure in any shorter prefix either. */
  lemma {:induction false} LoopPrefixFailure<T>(ds: seq<Dispatch<T>>, i: nat, k: nat)
    requires 0 < i <= k <= |ds| && Loop(ds, k).failure.None?
    ensures ds[i - 1].failure.None?
  {
    if Loop(ds, i).failure.Some? {
      LoopStable(ds, i, k);
    }
  }

  /**
   * The delivery loop as the source runs it: walk the handlers in order, record each call,
   * and leave at the first failure.
   */
  method RunLoop<T>(ds: seq<Dispatch<T>>, log0: seq<Event<T>>) returns (log: seq<Event<T>>, failure: Option<Exc>)
    ensures log == log0 + Loop(ds, |ds|).events
    ensures failure == Loop(ds, |ds|).failure
  {
    log := log0;
    var i := 0;
    while i < |ds|
      invariant 0 <= i <= |ds|
      invariant log == log0 + Loop(ds, i).events
      invariant Loop(ds, i).failure.None?
    {
      var d := ds[i];
      if d.call.Some? {
        log := log + [Delivered(i, d.call.value)];
      }
      if d.failure.Some? {
        LoopStable(ds, i + 1, |ds|);
        return log, d.failure;
      }
      i := i + 1;
    }
    return log, None;
  }

  /** The loop that delivers a notice along the whole handler array. */
  function DeliverAll<T>(c: Setup, n: Notice<T>): (r: Round<T>)
    requires Ok(c) && NoticeOk(c, n)
    ensures r.failure.Some? ==> Known(c.h, r.failure.value)
    ensures forall i | 0 <= i < |r.events| :: r.events[i].Delivered? && r.events[i].pos < |c.handlers|
  {
    DispatchFacts(c, n);
    Loop(Dispatches(c, n, |c.handlers|), |c.handlers|)
  }

  /** Every call a round makes is the callback the notice selects for that handler. */
  lemma RoundAnswers<T>(c: Setup, n: Notice<T>)
    requires Ok(c) && NoticeOk(c, n)
    ensures forall i | 0 <= i < |DeliverAll(c, n).events| ::
      Answers(c.h, c.handlers[DeliverAll(c, n).events[i].pos], n, DeliverAll(c, n).events[i].call.callback)
  {
    DispatchFacts(c, n);
  }

  /** The notice reaches every handler without failure. */
  ghost predicate QuietFor<T>(c: Setup, n: Notice<T>)
    requires Ok(c) && NoticeOk(c, n)
  {
    Quiet(Dispatches(c, n, |c.handlers|), |c.handlers|)
  }

  /**
   * Delivering a notice fails exactly when some handler's dispatch fails; otherwise each
   * handler, in array order, receives exactly one call answering the notice.
   */
  lemma DeliverAllQuiet<T>(c: Setup, n: Notice<T>)
    requires Ok(c) && NoticeOk(c, n)
    ensures DeliverAll(c, n).failure.None? <==> QuietFor(c, n)
    ensures QuietFor(c, n) ==> |DeliverAll(c, n).events| == |c.handlers|
    ensures QuietFor(c, n) ==> forall i | 0 <= i < |c.handlers| ::
      && DeliverAll(c, n).events[i].pos == i
      && Answers(c.h, c.handlers[i], n, DeliverAll(c, n).events[i].call.callback)
  {
    DispatchFacts(c, n);
    LoopQuiet(Dispatches(c, n, |c.handlers|), |c.handlers|);
    if QuietFor(c, n) {
      QuietLoopEvents(Dispatches(c, n, |c.handlers|), |c.handlers|);
    }
  }

  /** The onFinally calls recorded in a log. */
  function Finalizations<T>(log: seq<Event<T>>): (r: seq<Event<T>>)
    ensures |r| <= |log|
    ensures forall i | 0 <= i < |r| :: r[i] in log && r[i].Delivered? && r[i].call.callback.OnFinally?
  {
    if log == [] then []
    else
      var rest := Finalizations(log[1..]);
      if log[0].Delivered? && log[0].call.callback.OnFinally? then [log[0]] + rest else rest
  }

  lemma {:induction false} FinalizationsAppend<T>(a: seq<Event<T>>, b: seq<Event<T>>)
    ensures Finalizations(a + b) == Finalizations(a) + Finalizations(b)
  {
    if a != [] {
      assert (a + b)[0] == a[0] && (a + b)[1..] == a[1..] + b;
      FinalizationsAppend(a[1..], b);
    } else {
      assert a + b == b;
    }
  }

  /** A log made only of onFinally calls is its own filter; one with none filters to nothing. */
  lemma {:induction false} FinalizationsOf<T>(log: seq<Event<T>>)
    ensures (forall i | 0 <= i < |log| :: log[i].Delivered? && log[i].call.callback.OnFinally?)
            ==> Finalizations(log) == log
    ensures (forall i | 0 <= i < |log| :: !(log[i].Delivered? && log[i].call.callback.OnFinally?))
            ==> Finalizations(log) == []
  {
    if log != [] {
      FinalizationsOf(log[1..]);
      if forall i | 0 <= i < |log| :: log[i].Delivered? && log[i].call.callback.OnFinally? {
        assert forall i | 0 <= i < |log[1..]| :: log[1..][i] == log[i + 1];
      }
      if forall i | 0 <= i < |log| :: !(log[i].Delivered? && log[i].call.callback.OnFinally?) {
        assert forall i | 0 <= i < |log[1..]| :: log[1..][i] == log[i + 1];
      }
    }
  }

  /** The doFinnally round: onFinally delivered along the handler array. */
  function FinallyRound<T>(c: Setup): (r: seq<Event<T>>)
    requires Ok(c)
  {
    DeliverAll<T>(c, Finalized).events
  }

  /** The onFinally calls of a round of any notice: all of it for Finalized, none otherwise. */
  lemma RoundFinalizations<T>(c: Setup, n: Notice<T>)
    requires Ok(c) && NoticeOk(c, n)
    ensures Finalizations(DeliverAll(c, n).events) == if n.Finalized? then DeliverAll(c, n).events else []
  {
    RoundAnswers(c, n);
    FinalizationsOf(DeliverAll(c, n).events);
  }

  /** How often the log records that `done` was set. */
  function DoneSets<T>(log: seq<Event<T>>): (r: nat)
    ensures r <= |log|
  {
    if log == [] then 0 else (if log[0] == DoneSet then 1 else 0) + DoneSets(log[1..])
  }

  /** A log without a `done` mark counts none. */
  lemma {:induction false} NoDoneSets<T>(log: seq<Event<T>>)
    requires forall i | 0 <= i < |log| :: log[i] != DoneSet
    ensures DoneSets(log) == 0
  {
    if log != [] {
      assert forall i | 0 <= i < |log[1..]| :: log[1..][i] == log[i + 1];
      NoDoneSets(log[1..]);
    }
  }

  lemma {:induction false} DoneSetsAppend<T>(a: seq<Event<T>>, b: seq<Event<T>>)
    ensures DoneSets(a + b) == DoneSets(a) + DoneSets(b)
  {
    if a != [] {
      assert (a + b)[0] == a[0] && (a + b)[1..] == a[1..] + b;
      DoneSetsAppend(a[1..], b);
    } else {
      assert a + b == b;
    }
  }

  /** A round of callbacks never records `done`. */
  lemma RoundHasNoDoneSet<T>(c: Setup, n: Notice<T>)
    requires Ok(c) && NoticeOk(c, n)
    ensures DoneSets(DeliverAll(c, n).events) == 0
  {
    NoDoneSets(DeliverAll(c, n).events);
  }

  /**
   * The abstract state of a job: the five flags of AbstractJob, the value held by a RequestJob
   * (`value`) or ProgressiveJob (`current`), and the log of what the job has done so far.
   */
  datatype JobState<T> = JobState(
    cancelRequested: bool,
    started: bool,
    cancelled: bool,
    done: bool,
    runner: Option<Thread>,
    value: Option<T>,
    log: seq<Event<T>>)

  /** A freshly constructed job. */
  function Fresh<T>(): JobState<T>
  {
    JobState(false, false, false, false, None, None, [])
  }

  /**
   * The job's invariant: a cancelled job is done; a running job records its thread and a done
   * job none; an unstarted job has no thread; `done` was set at most once, and the onFinally
   * round happened exactly when the job is done.
   */
  ghost predicate Consistent<T>(c: Setup, s: JobState<T>)
    requires Ok(c)
  {
    && (s.cancelled ==> s.done)
    && (s.done ==> s.runner.None?)
    && (s.started && !s.done ==> s.runner.Some?)
    && (!s.started ==> s.runner.None?)
    && DoneSets(s.log) == (if s.done then 1 else 0)
    && Finalizations(s.log) == (if s.done then FinallyRound(c) else [])
  }

  lemma FreshConsistent<T>(c: Setup)
    requires Ok(c)
    ensures Consistent<T>(c, Fresh())
  {
  }

  /** A state together with the throwable escaping the step that produced it. */
  datatype Step<T> = Step(state: JobState<T>, escaped: Option<Exc>)

  /** How the user's computation ended: it returned (a Request's value), or it threw. */
  datatype Outcome<T> = Returned(result: Option<T>) | Threw(exc: Exc)

  ghost predicate OutcomeOk<T>(c: Setup, o: Outcome<T>)
  {
    o.Threw? ==> Known(c.h, o.exc)
  }

  /** checkCancelled: a CancelledException exactly when a cancel was requested. */
  function CancelCheck<T>(s: JobState<T>): (r: Option<Exc>)
    ensures r.Some? <==> s.cancelRequested
    ensures r.Some? ==> ClassOf(r.value) == CancelledException
  {
    if s.cancelRequested then Some(Internal(CancelledException)) else None
  }

  /** The start of `run`: `started` first, then the runner thread, then checkCancelled. */
  function BeginStep<T>(s: JobState<T>, current: Thread): (r: Step<T>)
    ensures r.state == s.(started := true, runner := Some(current))
    ensures r.escaped.Some? <==> s.cancelRequested
  {
    Step(s.(started := true, runner := Some(current)), CancelCheck(s))
  }

  /** A step that runs one delivery loop and appends its calls to the log. */
  function Phase<T>(c: Setup, s: JobState<T>, n: Notice<T>): (r: Step<T>)
    requires Ok(c) && NoticeOk(c, n)
    ensures r.state == s.(log := s.log + DeliverAll(c, n).events)
    ensures r.escaped == DeliverAll(c, n).failure
  {
    var d := DeliverAll(c, n);
    Step(s.(log := s.log + d.events), d.failure)
  }

  /**
   * doRun once the computation has ended. A RequestJob stores the returned value and delivers
   * it to every response handler; whatever the computation or a response handler throws escapes.
   */
  function AfterBody<T>(c: Setup, s: JobState<T>, o: Outcome<T>): (r: Step<T>)
    requires Ok(c) && OutcomeOk(c, o)
    ensures r.escaped.Some? ==> Known(c.h, r.escaped.value)
  {
    match o
    case Threw(e) => Step(s, Some(e))
    case Returned(v) =>
      if c.kind.RequestJob? then Phase(c, s.(value := v), Responded(v)) else Step(s, None)
  }

  /** The log suffix the inner finally appends. */
  function Cleared<T>(s: JobState<T>, current: Thread): seq<Event<T>>
  {
    if s.cancelRequested then [InterruptCleared(current)] else []
  }

  /** `catch (CancelledException e)` applies. */
  predicate IsCancellation(h: Hierarchy, e: Exc)
    requires WellFormed(h) && Known(h, e)
  {
    IsA(h, ClassOf(e), CancelledException)
  }

  /** `catch (InterruptedException e)` applies (and the first catch does not). */
  predicate IsInterruption(h: Hierarchy, e: Exc)
    requires WellFormed(h) && Known(h, e)
  {
    !IsCancellation(h, e) && IsA(h, ClassOf(e), InterruptedException)
  }

  /**
   * The inner catch clauses and finally of `run`. A cancellation marks the job cancelled; an
   * interruption marks it cancelled only when a cancel was requested, and otherwise re-asserts
   * the thread's interrupt flag; any other throwable passes on. Then `done` is set, the runner
   * is cleared, and a pending interrupt from `cancel` is cleared from the thread.
   */
  function Settle<T>(c: Setup, s: JobState<T>, current: Thread, thrown: Option<Exc>): (r: Step<T>)
    requires Ok(c) && (thrown.Some? ==> Known(c.h, thrown.value))
  {
    var caught := Caught(c, s, current, thrown);
    Step(InnerFinally(caught.state, current), caught.escaped)
  }

  /** The two catch clauses of the inner try. */
  function Caught<T>(c: Setup, s: JobState<T>, current: Thread, thrown: Option<Exc>): (r: Step<T>)
    requires Ok(c) && (thrown.Some? ==> Known(c.h, thrown.value))
    ensures r.state.log == s.log || r.state.log == s.log + [InterruptReasserted(current)]
    ensures r.state == s.(cancelled := r.state.cancelled, log := r.state.log)
    ensures r.escaped.Some? ==> r.escaped == thrown
  {
    if thrown.None? then Step(s, None)
    else if IsCancellation(c.h, thrown.value) then Step(s.(cancelled := true), None)
    else if IsInterruption(c.h, thrown.value) then
      Step(s.(cancelled := s.cancelRequested,
              log := if s.cancelRequested then s.log else s.log + [InterruptReasserted(current)]), None)
    else Step(s, thrown)
  }

  /** The inner finally: `done`, no runner, and the interrupt flag cleared after a cancel request. */
  function InnerFinally<T>(s: JobState<T>, current: Thread): (r: JobState<T>)
  {
    s.(done := true, runner := None, log := s.log + [DoneSet] + Cleared(s, current))
  }

  /** The onComplete round, run when nothing escaped and the handlers are CompletionHandlers. */
  function Completion<T>(c: Setup, st: Step<T>): (r: Step<T>)
    requires Ok(c)
  {
    if st.escaped.None? && Completes(c.kind) then Phase(c, st.state, Completed) else st
  }

  /** The outer `catch (Exception e)`: the onException round for an escaped Exception. */
  function Handling<T>(c: Setup, st: Step<T>): (r: Step<T>)
    requires Ok(c) && (st.escaped.Some? ==> Known(c.h, st.escaped.value))
  {
    if st.escaped.Some? && IsA(c.h, ClassOf(st.escaped.value), Exception)
    then Phase(c, st.state, Failed(st.escaped.value))
    else st
  }

  /** The outer finally: the onFinally round, whose own failure replaces what was escaping. */
  function Finally<T>(c: Setup, st: Step<T>): (r: Step<T>)
    requires Ok(c)
  {
    var fin := Phase(c, st.state, Finalized);
    Step(fin.state, if fin.escaped.Some? then fin.escaped else st.escaped)
  }

  /**
   * The rest of `run` after the computation: the inner handlers, the onComplete round when
   * nothing escaped and the handler type is a CompletionHandler, the onException round for an
   * escaped Exception (an Error or other Throwable passes on), and the onFinally round.
   */
  function FinishStep<T>(c: Setup, s: JobState<T>, current: Thread, o: Outcome<T>): (r: Step<T>)
    requires Ok(c) && OutcomeOk(c, o)
  {
    var body := AfterBody(c, s, o);
    Finally(c, Handling(c, Completion(c, Settle(c, body.state, current, body.escaped))))
  }

  /**
   * `run` as one step: Begin; then, unless checkCancelled threw, the computation, which calls
   * notifyProgress with each of `vs` in turn and ends with `o` (a failure escaping a progress
   * round ends it instead); then Finish.
   */
  function RunStep<T>(c: Setup, s: JobState<T>, current: Thread, vs: seq<Option<T>>, o: Outcome<T>): (r: Step<T>)
    requires Ok(c) && OutcomeOk(c, o)
  {
    var b := BeginStep(s, current);
    if b.escaped.Some? then FinishStep(c, b.state, current, Threw(b.escaped.value))
    else
      var p := Progressions(c, b.state, vs);
      FinishStep(c, p.state, current, if p.escaped.Some? then Threw(p.escaped.value) else o)
  }

  /**
   * The computation's calls of notifyProgress, one per value, in order. A failure escaping a
   * round escapes the computation, and no later value is notified.
   */
  function Progressions<T>(c: Setup, s: JobState<T>, vs: seq<Option<T>>): (r: Step<T>)
    requires Ok(c)
    ensures r.escaped.Some? ==> Known(c.h, r.escaped.value)
    ensures r.state == s.(value := r.state.value, log := r.state.log)
    decreases |vs|
  {
    if vs == [] then Step(s, None)
    else
      var p := ProgressStep(c, s, vs[0]);
      if p.escaped.Some? then p else Progressions(c, p.state, vs[1..])
  }

  /** The progress rounds notifying the values in order. */
  function ProgressRounds<T>(c: Setup, vs: seq<Option<T>>): seq<Event<T>>
    requires Ok(c)
    decreases |vs|
  {
    if vs == [] then [] else DeliverAll(c, Progressed(vs[0])).events + ProgressRounds(c, vs[1..])
  }

  /** ProgressiveJob.notifyProgress: store the value, then deliver it to every handler. */
  function ProgressStep<T>(c: Setup, s: JobState<T>, v: Option<T>): (r: Step<T>)
    requires Ok(c)
  {
    Phase(c, s.(value := v), Progressed(v))
  }

  /** cancelUnstarted: cancelled and done, then the onFinally round. */
  function CancelUnstartedStep<T>(c: Setup, s: JobState<T>): (r: Step<T>)
    requires Ok(c)
  {
    Phase(c, s.(cancelled := true, done := true, log := s.log + [DoneSet]), Finalized)
  }

  /**
   * The part of `cancel` after the compare-and-set: when the executor removed the job from
   * its queue, cancelUnstarted; otherwise interrupt the recorded runner, if any.
   */
  function AfterCancelRequestStep<T>(c: Setup, s: JobState<T>, removed: bool): (r: Step<T>)
    requires Ok(c)
  {
    if removed then CancelUnstartedStep(c, s)
    else if s.runner.Some? then Step(s.(log := s.log + [InterruptSent(s.runner.value)]), None)
    else Step(s, None)
  }

  /**
   * `cancel`: nothing when the job is done or a cancel was already requested; otherwise the
   * request is recorded and the executor's answer to `cancel(this)`, `removed`, decides the rest.
   */
  function CancelStep<T>(c: Setup, s: JobState<T>, removed: bool): (r: Step<T>)
    requires Ok(c)
  {
    if s.done || s.cancelRequested then Step(s, None)
    else AfterCancelRequestStep(c, s.(cancelRequested := true), removed)
  }

  // ---------------------------------------------------------------------------------------------
  // Properties of the steps

  /**
   * After `run`'s inner handlers the job is done, and it is cancelled exactly when it already
   * was, the escaping throwable is a CancelledException, or it is an InterruptedException
   * while a cancel was requested. Only throwables of neither class pass on.
   */
  lemma SettleCancelled<T>(c: Setup, s: JobState<T>, current: Thread, thrown: Option<Exc>)
    requires Ok(c) && (thrown.Some? ==> Known(c.h, thrown.value)) && !s.cancelled
    ensures var r := Settle(c, s, current, thrown);
      && r.state.done && r.state.runner.None?
      && (r.state.cancelled <==>
            || (thrown.Some? && IsCancellation(c.h, thrown.value))
            || (thrown.Some? && IsInterruption(c.h, thrown.value) && s.cancelRequested))
      && (r.escaped.Some? <==>
            thrown.Some? && !IsCancellation(c.h, thrown.value) && !IsInterruption(c.h, thrown.value))
      && (r.escaped.Some? ==> r.escaped == thrown)
  {
  }

  /**
   * The cancelled flag at the end of `run`: set by a CancelledException escaping the
   * computation (or a response handler), or by an InterruptedException while a cancel was
   * requested; a computation that returns normally leaves an unrequested job uncancelled.
   */
  lemma FinishCancelled<T>(c: Setup, s: JobState<T>, current: Thread, o: Outcome<T>)
    requires Ok(c) && OutcomeOk(c, o) && !s.cancelled
    ensures var thrown := AfterBody(c, s, o).escaped;
      FinishStep(c, s, current, o).state.cancelled <==>
        || (thrown.Some? && IsCancellation(c.h, thrown.value))
        || (thrown.Some? && IsInterruption(c.h, thrown.value) && s.cancelRequested)
    ensures o.Returned? && !c.kind.RequestJob? ==> !FinishStep(c, s, current, o).state.cancelled
  {
    var body := AfterBody(c, s, o);
    assert body.state.cancelled == s.cancelled && body.state.cancelRequested == s.cancelRequested;
    SettleCancelled(c, body.state, current, body.escaped);
    var inner := Settle(c, body.state, current, body.escaped);
    RoundsKeepFlags(c, inner);
    assert FinishStep(c, s, current, o) == Finally(c, Handling(c, Completion(c, inner)));
  }

  /** The onComplete, onException and onFinally rounds change nothing but the log. */
  lemma RoundsKeepFlags<T>(c: Setup, st: Step<T>)
    requires Ok(c) && (st.escaped.Some? ==> Known(c.h, st.escaped.value))
    ensures Finally(c, Handling(c, Completion(c, st))).state
            == st.state.(log := Finally(c, Handling(c, Completion(c, st))).state.log)
  {
  }

  /**
   * An Exception other than a cancellation or interruption escaping the computation skips the
   * onComplete round and is delivered, as the same object, along the handlers after `done` is
   * set; then comes the onFinally round.
   */
  lemma FailurePath<T>(c: Setup, s: JobState<T>, current: Thread, e: Exc)
    requires Ok(c) && Known(c.h, e)
    requires !IsCancellation(c.h, e) && !IsInterruption(c.h, e) && IsA(c.h, ClassOf(e), Exception)
    requires QuietFor<T>(c, Failed(e))
    ensures var r := FinishStep(c, s, current, Threw(e));
      && r.state.log == s.log + [DoneSet] + Cleared(s, current)
                        + DeliverAll(c, Failed(e)).events + FinallyRound(c)
      && r.state.cancelled == s.cancelled
      && r.escaped == DeliverAll<T>(c, Finalized).failure
  {
    DeliverAllQuiet<T>(c, Failed(e));
  }

  /** A throwable that is not an Exception gets no onException round, only onFinally. */
  lemma ErrorPath<T>(c: Setup, s: JobState<T>, current: Thread, e: Exc)
    requires Ok(c) && Known(c.h, e)
    requires !IsCancellation(c.h, e) && !IsInterruption(c.h, e) && !IsA(c.h, ClassOf(e), Exception)
    ensures var r := FinishStep(c, s, current, Threw(e));
      && r.state.log == s.log + [DoneSet] + Cleared(s, current) + FinallyRound(c)
      && r.escaped == if DeliverAll<T>(c, Finalized).failure.Some? then DeliverAll<T>(c, Finalized).failure else Some(e)
  {
  }

  /**
   * A computation that returns normally: a Request's value is stored and delivered to every
   * response handler before `done` is set; an Async or Progressive job gets the onComplete
   * round after it. Either way the job is not cancelled by it.
   */
  lemma NormalPath<T>(c: Setup, s: JobState<T>, current: Thread, v: Option<T>)
    requires Ok(c)
    requires c.kind.RequestJob? ==> QuietFor(c, Responded(v))
    requires Completes(c.kind) ==> QuietFor<T>(c, Completed)
    ensures var r := FinishStep(c, s, current, Returned(v));
      && r.state.cancelled == s.cancelled
      && (c.kind.RequestJob? ==>
            && r.state.value == v
            && r.state.log == s.log + DeliverAll(c, Responded(v)).events + [DoneSet]
                              + Cleared(s, current) + FinallyRound(c))
      && (!c.kind.RequestJob? ==>
            && r.state.value == s.value
            && r.state.log == s.log + [DoneSet] + Cleared(s, current)
                              + DeliverAll(c, Completed).events + FinallyRound(c))
      && r.escaped == DeliverAll<T>(c, Finalized).failure
  {
    if c.kind.RequestJob? {
      DeliverAllQuiet(c, Responded(v));
    } else {
      DeliverAllQuiet<T>(c, Completed);
    }
  }

  /**
   * Cooperative cancellation still delivers onComplete: a CancelledException from the
   * computation of an Async or Progressive job marks it cancelled and then runs the onComplete
   * round, as the code does (the CompletionHandler documentation says otherwise).
   */
  lemma CompletionAfterCancellation<T>(c: Setup, s: JobState<T>, current: Thread, e: Exc)
    requires Ok(c) && Known(c.h, e) && IsCancellation(c.h, e) && Completes(c.kind)
    requires QuietFor<T>(c, Completed)
    ensures var r := FinishStep(c, s, current, Threw(e));
      && r.state.cancelled
      && r.state.log == s.log + [DoneSet] + Cleared(s, current)
                        + DeliverAll(c, Completed).events + FinallyRound(c)
  {
    DeliverAllQuiet<T>(c, Completed);
  }

  /** A round of a notice other than Finalized leaves the onFinally calls and `done` marks alone. */
  lemma PhaseKeepsCounts<T>(c: Setup, s: JobState<T>, n: Notice<T>)
    requires Ok(c) && NoticeOk(c, n) && !n.Finalized?
    ensures Finalizations(Phase(c, s, n).state.log) == Finalizations(s.log)
    ensures DoneSets(Phase(c, s, n).state.log) == DoneSets(s.log)
  {
    FinalizationsAppend(s.log, DeliverAll(c, n).events);
    RoundFinalizations(c, n);
    DoneSetsAppend(s.log, DeliverAll(c, n).events);
    RoundHasNoDoneSet(c, n);
  }

  /** Appending events that are neither calls nor `done` marks changes neither count. */
  lemma MarkersKeepCounts<T>(log: seq<Event<T>>, extra: seq<Event<T>>)
    requires forall i | 0 <= i < |extra| :: !extra[i].Delivered? && !extra[i].DoneSet?
    ensures Finalizations(log + extra) == Finalizations(log)
    ensures DoneSets(log + extra) == DoneSets(log)
  {
    FinalizationsAppend(log, extra);
    FinalizationsOf(extra);
    DoneSetsAppend(log, extra);
    NoDoneSets(extra);
  }

  /**
   * `run`'s rest keeps the invariant: whatever the computation did, the job ends done, without
   * a runner, with `done` set once and exactly one onFinally round.
   */
  lemma FinishConsistent<T>(c: Setup, s: JobState<T>, current: Thread, o: Outcome<T>)
    requires Ok(c) && OutcomeOk(c, o) && Consistent(c, s) && s.started && !s.done
    ensures var r := FinishStep(c, s, current, o).state;
      Consistent(c, r) && r.done && r.started && r.runner.None?
    ensures Finalizations(FinishStep(c, s, current, o).state.log) == FinallyRound(c)
  {
    var body := AfterBody(c, s, o);
    AfterBodyCounts(c, s, o);
    var inner := Settle(c, body.state, current, body.escaped);
    SettleCounts(c, body.state, current, body.escaped);
    var completed := Completion(c, inner);
    CompletionCounts(c, inner);
    var handled := Handling(c, completed);
    HandlingCounts(c, completed);
    FinallyCounts(c, handled);
    assert FinishStep(c, s, current, o) == Finally(c, handled);
  }

  lemma AfterBodyCounts<T>(c: Setup, s: JobState<T>, o: Outcome<T>)
    requires Ok(c) && OutcomeOk(c, o)
    ensures var r := AfterBody(c, s, o).state;
      && Finalizations(r.log) == Finalizations(s.log) && DoneSets(r.log) == DoneSets(s.log)
      && r == s.(value := r.value, log := r.log)
  {
    if o.Returned? && c.kind.RequestJob? {
      PhaseKeepsCounts(c, s.(value := o.result), Responded(o.result));
    }
  }

  lemma CompletionCounts<T>(c: Setup, st: Step<T>)
    requires Ok(c)
    ensures var r := Completion(c, st).state;
      && Finalizations(r.log) == Finalizations(st.state.log) && DoneSets(r.log) == DoneSets(st.state.log)
      && r == st.state.(log := r.log)
  {
    if st.escaped.None? && Completes(c.kind) {
      PhaseKeepsCounts(c, st.state, Completed);
    }
  }

  lemma HandlingCounts<T>(c: Setup, st: Step<T>)
    requires Ok(c) && (st.escaped.Some? ==> Known(c.h, st.escaped.value))
    ensures var r := Handling(c, st).state;
      && Finalizations(r.log) == Finalizations(st.state.log) && DoneSets(r.log) == DoneSets(st.state.log)
      && r == st.state.(log := r.log)
  {
    if st.escaped.Some? && IsA(c.h, ClassOf(st.escaped.value), Exception) {
      PhaseKeepsCounts(c, st.state, Failed(st.escaped.value));
    }
  }

  /** The inner handlers add exactly one `done` mark and no onFinally call. */
  lemma SettleCounts<T>(c: Setup, s: JobState<T>, current: Thread, thrown: Option<Exc>)
    requires Ok(c) && (thrown.Some? ==> Known(c.h, thrown.value))
    ensures var r := Settle(c, s, current, thrown).state;
      && DoneSets(r.log) == DoneSets(s.log) + 1
      && Finalizations(r.log) == Finalizations(s.log)
      && r.done && r.runner.None? && r.started == s.started
  {
    var t := Caught(c, s, current, thrown).state;
    if t.log != s.log {
      MarkersKeepCounts(s.log, [InterruptReasserted(current)]);
    }
    InnerFinallyCounts(t, current);
  }

  /** The inner finally adds one `done` mark and no onFinally call. */
  lemma InnerFinallyCounts<T>(t: JobState<T>, current: Thread)
    ensures DoneSets(InnerFinally(t, current).log) == DoneSets(t.log) + 1
    ensures Finalizations(InnerFinally(t, current).log) == Finalizations(t.log)
  {
    var tail := [DoneSet] + Cleared(t, current);
    assert InnerFinally(t, current).log == t.log + tail;
    DoneSetsAppend(t.log, tail);
    FinalizationsAppend(t.log, tail);
    assert tail[1..] == Cleared(t, current);
  }

  /** The onFinally round appends one round of onFinally calls and no `done` mark. */
  lemma FinallyCounts<T>(c: Setup, st: Step<T>)
    requires Ok(c)
    ensures Finalizations(Finally(c, st).state.log) == Finalizations(st.state.log) + FinallyRound(c)
    ensures DoneSets(Finally(c, st).state.log) == DoneSets(st.state.log)
    ensures Finally(c, st).state == st.state.(log := st.state.log + FinallyRound(c))
  {
    FinalizationsAppend(st.state.log, FinallyRound<T>(c));
    RoundFinalizations<T>(c, Finalized);
    DoneSetsAppend(st.state.log, FinallyRound<T>(c));
    RoundHasNoDoneSet<T>(c, Finalized);
  }

  /** `run` from a fresh-enough job: started, done, and one onFinally round on every path. */
  lemma RunConsistent<T>(c: Setup, s: JobState<T>, current: Thread, vs: seq<Option<T>>, o: Outcome<T>)
    requires Ok(c) && OutcomeOk(c, o) && Consistent(c, s) && !s.started && !s.done
    ensures var r := RunStep(c, s, current, vs, o).state;
      Consistent(c, r) && r.started && r.done && Finalizations(r.log) == FinallyRound(c)
  {
    var b := BeginStep(s, current);
    if b.escaped.Some? {
      FinishConsistent(c, b.state, current, Threw(b.escaped.value));
    } else {
      var p := Progressions(c, b.state, vs);
      ProgressionsConsistent(c, b.state, vs);
      FinishConsistent(c, p.state, current, if p.escaped.Some? then Threw(p.escaped.value) else o);
    }
  }

  /** The progress calls keep the invariant. */
  lemma {:induction false} ProgressionsConsistent<T>(c: Setup, s: JobState<T>, vs: seq<Option<T>>)
    requires Ok(c) && Consistent(c, s)
    ensures Consistent(c, Progressions(c, s, vs).state)
    decreases |vs|
  {
    if vs != [] {
      ProgressConsistent(c, s, vs[0]);
      var p := ProgressStep(c, s, vs[0]);
      if p.escaped.None? {
        ProgressionsConsistent(c, p.state, vs[1..]);
      }
    }
  }

  /**
   * When no progress round fails, the progress calls deliver one round per value, in order,
   * and the job holds the last value.
   */
  lemma {:induction false} QuietProgressions<T>(c: Setup, s: JobState<T>, vs: seq<Option<T>>)
    requires Ok(c)
    requires forall i | 0 <= i < |vs| :: QuietFor(c, Progressed(vs[i]))
    ensures Progressions(c, s, vs)
      == Step(s.(value := LastOr(s.value, vs), log := s.log + ProgressRounds(c, vs)), None)
    decreases |vs|
  {
    if vs != [] {
      var round := DeliverAll(c, Progressed(vs[0])).events;
      var rest := ProgressRounds(c, vs[1..]);
      DeliverAllQuiet(c, Progressed(vs[0]));
      var p := ProgressStep(c, s, vs[0]);
      assert p == Step(s.(value := vs[0], log := s.log + round), None);
      QuietProgressions(c, p.state, vs[1..]);
      assert ProgressRounds(c, vs) == round + rest;
      assert s.log + round + rest == s.log + (round + rest);
      assert LastOr(vs[0], vs[1..]) == LastOr(s.value, vs);
    }
  }

  /** The last of the values, or d when there is none. */
  function LastOr<T>(d: T, vs: seq<T>): T
  {
    if vs == [] then d else vs[|vs| - 1]
  }

  /**
   * A Progressive job whose computation notifies `vs` and returns, with no cancel and no
   * failing round: the onProgress round of each value in order, then `done`, the onComplete
   * round and the onFinally round; the job holds the last value and is not cancelled.
   */
  lemma RunDeliversProgress<T>(c: Setup, s: JobState<T>, current: Thread, vs: seq<Option<T>>, v: Option<T>)
    requires Ok(c) && c.kind.ProgressiveJob? && !s.cancelRequested
    requires forall i | 0 <= i < |vs| :: QuietFor(c, Progressed(vs[i]))
    requires QuietFor<T>(c, Completed)
    ensures var r := RunStep(c, s, current, vs, Returned(v));
      && r.state.cancelled == s.cancelled
      && r.state.value == LastOr(s.value, vs)
      && r.state.log == s.log + ProgressRounds(c, vs) + [DoneSet]
                        + DeliverAll(c, Completed).events + FinallyRound(c)
      && r.escaped == DeliverAll<T>(c, Finalized).failure
  {
    var p := QuietRunBody(c, s, current, vs, Returned(v));
    QuietFinish(c, p, current, v, s.log, ProgressRounds(c, vs));
  }

  /** The end of a run that was not asked to cancel, from a log made of two parts. */
  lemma QuietFinish<T>(c: Setup, p: JobState<T>, current: Thread, v: Option<T>,
                       before: seq<Event<T>>, rounds: seq<Event<T>>)
    requires Ok(c) && c.kind.ProgressiveJob? && !p.cancelRequested
    requires QuietFor<T>(c, Completed) && p.log == before + rounds
    ensures var r := FinishStep(c, p, current, Returned(v));
      && r.state.cancelled == p.cancelled && r.state.value == p.value
      && r.state.log == before + rounds + [DoneSet] + DeliverAll(c, Completed).events + FinallyRound(c)
      && r.escaped == DeliverAll<T>(c, Finalized).failure
  {
    NormalPath(c, p, current, v);
    assert Cleared(p, current) == [];
    assert p.log + [DoneSet] + Cleared(p, current) == before + rounds + [DoneSet];
  }

  /** Without a cancel and with quiet progress rounds, the computation reaches Finish. */
  lemma QuietRunBody<T>(c: Setup, s: JobState<T>, current: Thread, vs: seq<Option<T>>, o: Outcome<T>)
    returns (p: JobState<T>)
    requires Ok(c) && OutcomeOk(c, o) && !s.cancelRequested
    requires forall i | 0 <= i < |vs| :: QuietFor(c, Progressed(vs[i]))
    ensures p == s.(started := true, runner := Some(current),
                    value := LastOr(s.value, vs),
                    log := s.log + ProgressRounds(c, vs))
    ensures RunStep(c, s, current, vs, o) == FinishStep(c, p, current, o)
  {
    var b := BeginStep(s, current);
    QuietProgressions(c, b.state, vs);
    p := Progressions(c, b.state, vs).state;
  }

  /**
   * A job whose cancel was requested before it started never runs its computation: it ends
   * cancelled, after the onComplete round for a CompletionHandler job and the onFinally round.
   */
  lemma RunAfterCancelRequest<T>(c: Setup, s: JobState<T>, current: Thread, vs: seq<Option<T>>, o: Outcome<T>)
    requires Ok(c) && OutcomeOk(c, o) && s.cancelRequested
    requires Completes(c.kind) ==> QuietFor<T>(c, Completed)
    ensures var r := RunStep(c, s, current, vs, o);
      && r.state.cancelled && r.state.value == s.value
      && (Completes(c.kind) ==>
            r.state.log == s.log + [DoneSet, InterruptCleared(current)]
                           + DeliverAll(c, Completed).events + FinallyRound(c))
      && (!Completes(c.kind) ==>
            r.state.log == s.log + [DoneSet, InterruptCleared(current)] + FinallyRound(c))
  {
    var b := BeginStep(s, current);
    var e := Internal(CancelledException);
    assert b.escaped == Some(e);
    var inner := Settle(c, b.state, current, Some(e));
    SettleCancellation(c, b.state, current, e);
    var completed := Completion(c, inner);
    if Completes(c.kind) {
      DeliverAllQuiet<T>(c, Completed);
    }
    assert Handling(c, completed) == completed;
    assert RunStep(c, s, current, vs, o) == Finally(c, completed);
  }

  /** checkCancelled's CancelledException is caught: cancelled and done, nothing escapes. */
  lemma SettleCancellation<T>(c: Setup, s: JobState<T>, current: Thread, e: Exc)
    requires Ok(c) && e == Internal(CancelledException) && s.cancelRequested
    ensures Settle(c, s, current, Some(e)) ==
      Step(s.(cancelled := true, done := true, runner := None,
              log := s.log + [DoneSet, InterruptCleared(current)]), None)
  {
    assert Ancestors(c.h, CancelledException)[0] == CancelledException;
    assert IsCancellation(c.h, e);
    assert s.log + [DoneSet] + [InterruptCleared(current)] == s.log + [DoneSet, InterruptCleared(current)];
  }


  /** notifyProgress keeps the invariant, and a progress value is stored before it is delivered. */
  lemma ProgressConsistent<T>(c: Setup, s: JobState<T>, v: Option<T>)
    requires Ok(c) && Consistent(c, s)
    ensures var r := ProgressStep(c, s, v).state;
      Consistent(c, r) && r.value == v && r.log == s.log + DeliverAll(c, Progressed(v)).events
  {
    PhaseKeepsCounts(c, s.(value := v), Progressed(v));
  }

  /**
   * cancel is a no-op once the job is done or a cancel was requested; so cancelling a job that
   * completed normally leaves it uncancelled.
   */
  lemma CancelIdle<T>(c: Setup, s: JobState<T>, removed: bool)
    requires Ok(c) && (s.done || s.cancelRequested)
    ensures CancelStep(c, s, removed) == Step(s, None)
  {
  }

  /**
   * cancelUnstarted on a job that never started: it is cancelled and done, still unstarted,
   * and has received its one onFinally round.
   */
  lemma CancelUnstartedConsistent<T>(c: Setup, s: JobState<T>)
    requires Ok(c) && Consistent(c, s) && !s.started && !s.done
    ensures var r := CancelUnstartedStep(c, s).state;
      && Consistent(c, r) && r.cancelled && r.done && !r.started
      && r.log == s.log + [DoneSet] + FinallyRound(c)
      && Finalizations(r.log) == FinallyRound(c)
  {
    FinalizationsAppend(s.log + [DoneSet], FinallyRound<T>(c));
    FinalizationsAppend(s.log, [DoneSet]);
    RoundFinalizations<T>(c, Finalized);
    DoneSetsAppend(s.log + [DoneSet], FinallyRound<T>(c));
    DoneSetsAppend(s.log, [DoneSet]);
    RoundHasNoDoneSet<T>(c, Finalized);
  }

  /**
   * A cancel that the executor honours by removing the queued job: the job never starts, is
   * cancelled and done, and receives its one onFinally round right away. A cancel it does not
   * honour only records the request and interrupts the running thread, if there is one.
   */
  lemma CancelEffect<T>(c: Setup, s: JobState<T>, removed: bool)
    requires Ok(c) && Consistent(c, s) && !s.done && !s.cancelRequested
    requires removed ==> !s.started
    ensures var r := CancelStep(c, s, removed).state;
      && r.cancelRequested && Consistent(c, r)
      && (removed ==> r.cancelled && r.done && !r.started
                      && Finalizations(r.log) == FinallyRound(c)
                      && r.log == s.log + [DoneSet] + FinallyRound(c))
      && (!removed ==> r.cancelled == s.cancelled && r.done == s.done && r.started == s.started)
      && (!removed && s.runner.Some? ==> r.log == s.log + [InterruptSent(s.runner.value)])
      && (!removed && s.runner.None? ==> r.log == s.log)
  {
    if removed {
      CancelUnstartedConsistent(c, s.(cancelRequested := true));
    } else if s.runner.Some? {
      MarkersKeepCounts(s.log, [InterruptSent(s.runner.value)]);
    }
  }

  /** cancel keeps the invariant. */
  lemma CancelConsistent<T>(c: Setup, s: JobState<T>, removed: bool)
    requires Ok(c) && Consistent(c, s) && (removed ==> !s.started)
    ensures Consistent(c, CancelStep(c, s, removed).state)
  {
    if !s.done && !s.cancelRequested {
      CancelEffect(c, s, removed);
    }
  }

  // ---------------------------------------------------------------------------------------------
  // Handler-array preparation and argument validation

  /** The computation is an instance of the handler array's component type. */
  predicate IsInstance(kind: Kind, computation: Handler)
  {
    HandlerType(kind) in computation.implements
  }

  /**
   * prepare, as a value: a computation that is itself a handler goes first, followed by the
   * given handlers in their order; otherwise the given handlers are used as they are.
   */
  function Prepared(kind: Kind, computation: Handler, handlers: seq<Handler>): (r: seq<Handler>)
    ensures IsInstance(kind, computation) ==>
      && |r| == |handlers| + 1 && r[0] == computation
      && forall i | 0 <= i < |handlers| :: r[i + 1] == handlers[i]
    ensures !IsInstance(kind, computation) ==> r == handlers
  {
    if IsInstance(kind, computation) then [computation] + handlers else handlers
  }

  /**
   * prepare: a new array one longer, with the computation at index 0 and the handlers copied
   * after it; or the very array it was given.
   */
  method Prepare(kind: Kind, computation: Handler, handlers: array<Handler>) returns (r: array<Handler>)
    ensures r[..] == Prepared(kind, computation, handlers[..])
    ensures !IsInstance(kind, computation) ==> r == handlers
    ensures IsInstance(kind, computation) ==> fresh(r)
  {
    if IsInstance(kind, computation) {
      r := new Handler[handlers.Length + 1](_ => computation);
      var i := 0;
      while i < handlers.Length
        invariant 0 <= i <= handlers.Length
        invariant r[0] == computation
        invariant forall j | 0 <= j < i :: r[j + 1] == handlers[j]
      {
        r[i + 1] := handlers[i];
        i := i + 1;
      }
      assert r[..] == [computation] + handlers[..];
    } else {
      r := handlers;
    }
  }

  /** What the Java types guarantee of a job's arguments. */
  ghost predicate Arguments(h: Hierarchy, kind: Kind, computation: Handler, handlers: seq<Handler>)
  {
    && WellFormed(h)
    && (IsInstance(kind, computation) ==> IsHandler(h, computation))
    && forall i | 0 <= i < |handlers| :: IsHandler(h, handlers[i]) && IsInstance(kind, handlers[i])
  }

  lemma PreparedOk(h: Hierarchy, kind: Kind, computation: Handler, handlers: seq<Handler>)
    requires Arguments(h, kind, computation, handlers)
    ensures Ok(Setup(h, kind, Prepared(kind, computation, handlers)))
  {
    var r := Prepared(kind, computation, handlers);
    if IsInstance(kind, computation) {
      forall i | 0 < i < |r| ensures r[i] == handlers[i - 1] {
        assert r[(i - 1) + 1] == handlers[i - 1];
      }
    }
  }

  /**
   * The argument check of `start`: a Request or Progressive started with no handlers, that is
   * not itself a handler of its kind, is refused with IllegalArgumentException. `start(Async)`
   * checks nothing.
   */
  predicate Refused(kind: Kind, computation: Handler, handlerCount: nat)
  {
    (kind.RequestJob? || kind.ProgressiveJob?) && handlerCount == 0 && !IsInstance(kind, computation)
  }

  /** A Request or Progressive job that `start` accepts always has a handler to deliver to. */
  lemma AcceptedHasHandler(kind: Kind, computation: Handler, handlers: seq<Handler>)
    requires !kind.AsyncJob? && !Refused(kind, computation, |handlers|)
    ensures |Prepared(kind, computation, handlers)| > 0
  {
  }

  // ---------------------------------------------------------------------------------------------
  // The job object

  /**
   * An AbstractJob: the setup it runs with, its five flags, the value of a RequestJob or
   * ProgressiveJob, and the log of the calls and interrupt operations it has made.
   */
  class Job<T> {
    const setup: Setup
    var cancelRequested: bool
    var started: bool
    var cancelled: bool
    var done: bool
    var runner: Option<Thread>
    var value: Option<T>
    var log: seq<Event<T>>

    ghost function State(): JobState<T>
      reads this
    {
      JobState(cancelRequested, started, cancelled, done, runner, value, log)
    }

    ghost predicate Valid()
      reads this
    {
      Ok(setup) && Consistent(setup, State())
    }

    /** The job constructor, which prepares the handler array. */
    constructor (h: Hierarchy, kind: Kind, computation: Handler, handlers: array<Handler>)
      requires Arguments(h, kind, computation, handlers[..])
      ensures Valid() && State() == Fresh()
      ensures setup == Setup(h, kind, Prepared(kind, computation, handlers[..]))
    {
      var prepared := Prepare(kind, computation, handlers);
      PreparedOk(h, kind, computation, handlers[..]);
      setup := Setup(h, kind, prepared[..]);
      cancelRequested, started, cancelled, done := false, false, false, false;
      runner, value, log := None, None, [];
    }

    /** One `for (H handler : handlers)` loop delivering the notice. */
    method Deliver(n: Notice<T>) returns (failure: Option<Exc>)
      requires Ok(setup) && NoticeOk(setup, n)
      modifies this`log
      ensures log == old(log) + DeliverAll(setup, n).events
      ensures failure == DeliverAll(setup, n).failure
    {
      var ds := Dispatches(setup, n, |setup.handlers|);
      log, failure := RunLoop(ds, log);
    }

    /** The start of `run`, up to and including the first checkCancelled. */
    method Begin(current: Thread) returns (escaped: Option<Exc>)
      requires Valid() && !started && !done
      modifies this
      ensures Valid() && Step(State(), escaped) == BeginStep(old(State()), current)
    {
      started := true;
      runner := Some(current);
      escaped := CheckCancelled();
    }

    /** checkCancelled: throws CancelledException when a cancel was requested. */
    method CheckCancelled() returns (escaped: Option<Exc>)
      ensures escaped.Some? <==> cancelRequested
      ensures escaped.Some? ==> ClassOf(escaped.value) == CancelledException
      ensures escaped.Some? ==> escaped == Some(Internal(CancelledException))
    {
      if cancelRequested {
        return Some(Internal(CancelledException));
      }
      return None;
    }

    /** ProgressiveJob.notifyProgress, called by the computation while it runs. */
    method NotifyProgress(v: Option<T>) returns (escaped: Option<Exc>)
      requires Valid() && setup.kind.ProgressiveJob? && started && !done
      modifies this
      ensures Valid() && Step(State(), escaped) == ProgressStep(setup, old(State()), v)
    {
      ProgressConsistent(setup, State(), v);
      value := v;
      escaped := Deliver(Progressed(v));
    }

    /** The rest of `run` once the computation has returned or thrown. */
    method Finish(o: Outcome<T>) returns (escaped: Option<Exc>)
      requires Valid() && started && !done && OutcomeOk(setup, o)
      modifies this
      ensures Valid() && started && done
      ensures Step(State(), escaped) == FinishStep(setup, old(State()), old(runner).value, o)
    {
      var current := runner.value;
      FinishConsistent(setup, State(), current, o);
      var thrown := EndBody(o);
      var settled := InnerHandlers(current, thrown);
      var completed := OnComplete(settled);
      var handled := OnException(completed);
      escaped := OnFinally(handled);
    }

    /** The onComplete round, when nothing escaped and the handlers are CompletionHandlers. */
    method OnComplete(escaping: Option<Exc>) returns (escaped: Option<Exc>)
      requires Ok(setup)
      modifies this`log
      ensures Step(State(), escaped) == Completion(setup, Step(old(State()), escaping))
    {
      escaped := escaping;
      if escaping.None? && Completes(setup.kind) {
        escaped := Deliver(Completed);
      }
    }

    /** The outer `catch (Exception e)`. */
    method OnException(escaping: Option<Exc>) returns (escaped: Option<Exc>)
      requires Ok(setup) && (escaping.Some? ==> Known(setup.h, escaping.value))
      modifies this`log
      ensures Step(State(), escaped) == Handling(setup, Step(old(State()), escaping))
    {
      escaped := escaping;
      if escaping.Some? && IsA(setup.h, ClassOf(escaping.value), Exception) {
        escaped := Deliver(Failed(escaping.value));
      }
    }

    /** The outer finally. */
    method OnFinally(escaping: Option<Exc>) returns (escaped: Option<Exc>)
      requires Ok(setup)
      modifies this`log
      ensures Step(State(), escaped) == Finally(setup, Step(old(State()), escaping))
    {
      var fin := Deliver(Finalized);
      escaped := if fin.Some? then fin else escaping;
    }

    /** The end of doRun: a RequestJob stores the value and delivers it to its handlers. */
    method EndBody(o: Outcome<T>) returns (thrown: Option<Exc>)
      requires Ok(setup) && OutcomeOk(setup, o)
      modifies this`value, this`log
      ensures Step(State(), thrown) == AfterBody(setup, old(State()), o)
    {
      match o
      case Threw(e) =>
        thrown := Some(e);
      case Returned(v) =>
        thrown := None;
        if setup.kind.RequestJob? {
          value := v;
          thrown := Deliver(Responded(v));
        }
    }

    /** The inner catch clauses and finally of `run`. */
    method InnerHandlers(current: Thread, thrown: Option<Exc>) returns (rest: Option<Exc>)
      requires Ok(setup) && (thrown.Some? ==> Known(setup.h, thrown.value))
      modifies this`cancelled, this`log, this`done, this`runner
      ensures Step(State(), rest) == Settle(setup, old(State()), current, thrown)
    {
      rest := Catch(current, thrown);
      FinallyDone(current);
    }

    /** `catch (CancelledException e)` and `catch (InterruptedException e)`. */
    method Catch(current: Thread, thrown: Option<Exc>) returns (rest: Option<Exc>)
      requires Ok(setup) && (thrown.Some? ==> Known(setup.h, thrown.value))
      modifies this`cancelled, this`log
      ensures Step(State(), rest) == Caught(setup, old(State()), current, thrown)
    {
      rest := thrown;
      if thrown.Some? {
        if IsCancellation(setup.h, thrown.value) {
          cancelled := true;
          rest := None;
        } else if IsInterruption(setup.h, thrown.value) {
          cancelled := cancelRequested;
          if !cancelRequested {
            log := log + [InterruptReasserted(current)];
          }
          rest := None;
        }
      }
    }

    /** The inner finally: `done`, no runner, and the interrupt flag cleared after a cancel. */
    method FinallyDone(current: Thread)
      modifies this`log, this`done, this`runner
      ensures State() == InnerFinally(old(State()), current)
    {
      done := true;
      runner := None;
      log := log + [DoneSet] + if cancelRequested then [InterruptCleared(current)] else [];
    }

    /**
     * `run`, as executed by a worker thread (or inline by the caller), with a computation that
     * notifies the progress values `vs` and then ends with `o`.
     */
    method Run(current: Thread, vs: seq<Option<T>>, o: Outcome<T>) returns (escaped: Option<Exc>)
      requires Valid() && !started && !done && OutcomeOk(setup, o)
      requires vs != [] ==> setup.kind.ProgressiveJob?
      modifies this
      ensures Valid() && started && done
      ensures Step(State(), escaped) == RunStep(setup, old(State()), current, vs, o)
    {
      var check := Begin(current);
      assert check.Some? ==> check == Some(Internal(CancelledException));
      if check.Some? {
        escaped := Finish(Threw(check.value));
      } else {
        var failure := NotifyEach(vs);
        escaped := Finish(if failure.Some? then Threw(failure.value) else o);
      }
    }

    /** The computation's notifyProgress calls, one per value, until a round fails. */
    method NotifyEach(vs: seq<Option<T>>) returns (escaped: Option<Exc>)
      requires Valid() && started && !done && (vs != [] ==> setup.kind.ProgressiveJob?)
      modifies this
      ensures Valid() && started && !done && runner == old(runner)
      ensures Step(State(), escaped) == Progressions(setup, old(State()), vs)
    {
      var i := 0;
      escaped := None;
      while i < |vs|
        invariant i <= |vs| && escaped.None?
        invariant Valid() && started && !done && runner == old(runner)
        invariant Progressions(setup, old(State()), vs) == Progressions(setup, State(), vs[i..])
      {
        assert vs[i..][0] == vs[i] && vs[i..][1..] == vs[i + 1..];
        escaped := NotifyProgress(vs[i]);
        if escaped.Some? {
          return;
        }
        i := i + 1;
      }
    }

    /** The job is what cancelUnstarted makes of state s0, and `escaped` escaped it. */
    ghost predicate CancelledFrom(s0: JobState<T>, escaped: Option<Exc>)
      reads this
    {
      Ok(setup) && CancelUnstartedStep(setup, s0) == Step(State(), escaped)
    }

    /** cancelUnstarted: for a job that will never run. */
    method CancelUnstarted() returns (escaped: Option<Exc>)
      requires Valid() && !started && !done
      modifies this
      ensures Valid() && cancelled && done && !started
      ensures Step(State(), escaped) == CancelUnstartedStep(setup, old(State()))
    {
      CancelUnstartedConsistent(setup, State());
      MarkCancelled();
      escaped := Deliver(Finalized);
    }

    /** The flag updates of cancelUnstarted, ahead of its onFinally round. */
    method MarkCancelled()
      modifies this`cancelled, this`done, this`log
      ensures State() == old(State()).(cancelled := true, done := true, log := old(log) + [DoneSet])
    {
      cancelled, done := true, true;
      log := log + [DoneSet];
    }

    /**
     * `cancel`, given the executor's answer to `cancel(this)`; by the executor's contract a
     * removed job is one that has not started.
     */
    method Cancel(removed: bool) returns (escaped: Option<Exc>)
      requires Valid() && (removed ==> !started)
      modifies this
      ensures Valid()
      ensures Step(State(), escaped) == CancelStep(setup, old(State()), removed)
    {
      CancelConsistent(setup, State(), removed);
      var proceed := RequestCancel();
      if !proceed {
        return None;
      }
      escaped := AfterCancelRequest(removed);
    }

    /** The guard of `cancel`: not done, and the compare-and-set of cancelRequested succeeds. */
    method RequestCancel() returns (proceed: bool)
      modifies this`cancelRequested
      ensures proceed <==> !old(done) && !old(cancelRequested)
      ensures cancelRequested == (old(cancelRequested) || proceed)
    {
      if done || cancelRequested {
        return false;
      }
      cancelRequested := true;
      return true;
    }

    /** The rest of `cancel` once the request is recorded. */
    method AfterCancelRequest(removed: bool) returns (escaped: Option<Exc>)
      requires Valid() && cancelRequested && !done && (removed ==> !started)
      modifies this
      ensures Step(State(), escaped) == AfterCancelRequestStep(setup, old(State()), removed)
    {
      if removed {
        escaped := CancelUnstarted();
      } else {
        var r := runner;
        if r.Some? {
          log := log + [InterruptSent(r.value)];
        }
        escaped := None;
      }
    }
  }

  // ---------------------------------------------------------------------------------------------
  // The runner

  /** The states of the jobs, in order. */
  ghost function States<T>(jobs: seq<Job<T>>): (r: seq<JobState<T>>)
    reads set j | j in jobs
    ensures |r| == |jobs| && forall i | 0 <= i < |jobs| :: r[i] == jobs[i].State()
    decreases |jobs|
  {
    if jobs == [] then [] else [jobs[0].State()] + States(jobs[1..])
  }

  /** No job occurs twice in the sequence. */
  ghost predicate Distinct<T>(jobs: seq<Job<T>>)
  {
    forall i, k | 0 <= i < k < |jobs| :: jobs[i] != jobs[k]
  }

  /** Queueing a job that is not queued yet keeps the queue free of duplicates. */
  lemma DistinctAfterReject<T>(q: Queue.QueueState<Job<T>>, j: Job<T>, stored: bool)
    requires Distinct(Queue.Contents(q)) && j !in Queue.Contents(q)
    ensures var r := Queue.Contents(Queue.RejectSpec(q, j, stored));
      Distinct(r) && forall x | x in r :: x == j || x in Queue.Contents(q)
  {
    if stored {
      var r := Queue.Contents(Queue.RejectSpec(q, j, stored));
      var n := |q.buffer|;
      assert r == Queue.Contents(q)[..n] + [j] + Queue.Contents(q)[n..];
    }
  }

  /** Cutting one position out of a sequence of distinct jobs leaves distinct jobs without it. */
  lemma DistinctWithout<T>(c: seq<Job<T>>, m: nat)
    requires Distinct(c) && m < |c|
    ensures var r := c[..m] + c[m + 1..];
      Distinct(r) && c[m] !in r && forall x | x in r :: x in c
  {
    var r := c[..m] + c[m + 1..];
    assert forall i | 0 <= i < |r| :: r[i] == if i < m then c[i] else c[i + 1];
  }

  /** A job the queue removes leaves it, and the queue stays free of duplicates. */
  lemma DistinctAfterRemove<T>(q: Queue.QueueState<Job<T>>, j: Job<T>)
    requires Distinct(Queue.Contents(q)) && j in Queue.Contents(q)
    ensures var r := Queue.Contents(Queue.RemoveSpec(q, j));
      Distinct(r) && j !in r && forall x | x in r :: x in Queue.Contents(q)
  {
    var m := Queue.RemoveSpecContents(q, j);
    DistinctWithout(Queue.Contents(q), m);
  }

  /**
   * The state DefaultRunner.shutdown leaves a pending job in is still open: not cancelled,
   * not done and without onFinally calls, whereas cancelUnstarted would have closed it.
   */
  lemma ShutdownLeavesPendingOpen<T>(c: Setup, s: JobState<T>)
    requires Ok(c) && Consistent(c, s) && !s.started && !s.done
    ensures !s.cancelled && !s.done && Finalizations(s.log) == []
    ensures var r := CancelUnstartedStep(c, s).state;
      r.cancelled && r.done && Finalizations(r.log) == FinallyRound(c)
  {
    CancelUnstartedConsistent(c, s);
  }

  /**
   * The loop of `cancelPendings` over the drained jobs: cancelUnstarted each one in turn. The
   * first k jobs are cancelled without a failure; either that is all of them, or the k-th
   * lets a failure escape its onFinally round, which leaves the loop, and the jobs after it
   * are not reached.
   */
  method CancelEach<T>(cancelled: seq<Job<T>>, ghost before: seq<JobState<T>>)
    returns (escaped: Option<Exc>, ghost k: nat)
    requires Distinct(cancelled) && |before| == |cancelled|
    requires forall m | 0 <= m < |cancelled| ::
      && cancelled[m].State() == before[m] && Ok(cancelled[m].setup)
      && Consistent(cancelled[m].setup, before[m]) && !before[m].started && !before[m].done
    modifies set j | j in cancelled
    ensures k <= |cancelled|
    ensures forall i | 0 <= i < k :: cancelled[i].CancelledFrom(before[i], None)
    ensures k == |cancelled| ==> escaped.None?
    ensures k < |cancelled| ==>
      && escaped.Some? && cancelled[k].CancelledFrom(before[k], escaped)
      && forall i | k < i < |cancelled| :: cancelled[i].State() == before[i]
  {
    var i := 0;
    escaped := None;
    while i < |cancelled|
      invariant i <= |cancelled|
      invariant forall m | 0 <= m < i :: cancelled[m].CancelledFrom(before[m], None)
      invariant forall m | i <= m < |cancelled| :: cancelled[m].State() == before[m]
    {
      label pre:
      var e := cancelled[i].CancelUnstarted();
      forall m | 0 <= m < |cancelled| && m != i
        ensures cancelled[m].State() == old@pre(cancelled[m].State())
      {
        assert cancelled[m] != cancelled[i];
      }
      if e.Some? {
        return e, i;
      }
      i := i + 1;
    }
    k := i;
  }

  /**
   * The part of every `start` before the executor is involved: a null handler array throws
   * NullPointerException (reading its length, or its class when the job prepares it); a
   * Request or Progressive without handlers is refused with IllegalArgumentException; otherwise
   * the job is built.
   */
  method NewJob<T>(h: Hierarchy, kind: Kind, computation: Handler, handlers: array?<Handler>)
    returns (job: Option<Job<T>>, escaped: Option<Exc>)
    requires handlers != null ==> Arguments(h, kind, computation, handlers[..])
    ensures job.None? <==> escaped.Some?
    ensures handlers == null ==> escaped == Some(Internal(NullPointerException))
    ensures handlers != null ==>
      && (escaped.Some? <==> Refused(kind, computation, handlers.Length))
      && (escaped.Some? ==> escaped.value == Internal(IllegalArgumentException))
    ensures job.Some? ==>
      && handlers != null && fresh(job.value) && job.value.Valid() && job.value.State() == Fresh()
      && job.value.setup == Setup(h, kind, Prepared(kind, computation, handlers[..]))
  {
    if handlers == null {
      return None, Some(Internal(NullPointerException));
    }
    if Refused(kind, computation, handlers.Length) {
      return None, Some(Internal(IllegalArgumentException));
    }
    var j := new Job(h, kind, computation, handlers);
    return Some(j), None;
  }

  /**
   * A DefaultRunner over a ReentrantExecutor. The jobs in the executor's queue are the pending
   * ones: each is distinct, consistent, not started and not done.
   */
  class Runner<T> {
    const executor: Executors.ReentrantExecutor<Job<T>>

    ghost function Pending(): seq<Job<T>>
      reads executor, executor.queue
    {
      executor.Pending()
    }

    ghost predicate Valid()
      reads this, executor, executor.queue, set j | j in Pending()
    {
      && Distinct(Pending())
      && forall j | j in Pending() :: j.Valid() && !j.started && !j.done
    }

    constructor (baseName: string)
      ensures Valid() && Pending() == [] && fresh(executor) && fresh(executor.queue)
    {
      executor := new Executors.ReentrantExecutor(baseName);
    }

    /**
     * `start`: throw NullPointerException for a null handler array, refuse a Request or
     * Progressive without handlers, else build the job and hand it to the executor (see Submit).
     */
    method Start(h: Hierarchy, kind: Kind, computation: Handler, handlers: array?<Handler>,
                 current: Thread, vs: seq<Option<T>>, o: Outcome<T>, handedOff: bool, stored: bool)
      returns (job: Option<Job<T>>, escaped: Option<Exc>)
      requires Valid() && (handlers != null ==> Arguments(h, kind, computation, handlers[..]))
      requires o.Threw? ==> Known(h, o.exc)
      requires vs != [] ==> kind.ProgressiveJob?
      modifies executor.queue
      ensures Valid()
      ensures handlers == null ==>
        && job.None? && escaped == Some(Internal(NullPointerException))
        && executor.queue.State() == old(executor.queue.State())
      ensures handlers != null && Refused(kind, computation, handlers.Length) ==>
        && job.None? && escaped == Some(Internal(IllegalArgumentException))
        && executor.queue.State() == old(executor.queue.State())
      ensures handlers != null && !Refused(kind, computation, handlers.Length) ==>
        && job.Some? && fresh(job.value)
        && job.value.setup == Setup(h, kind, Prepared(kind, computation, handlers[..]))
        && Submitted(old(executor.queue.State()), job.value, current, vs, o, handedOff, stored, escaped)
    {
      job, escaped := NewJob(h, kind, computation, handlers);
      if job.None? {
        return;
      }
      escaped := Submit(job.value, current, vs, o, handedOff, stored);
    }

    /**
     * What `executor.execute(task)` did with a freshly built job: on one of the executor's own
     * threads the job ran at once, its computation notifying `vs` and ending with `o`; elsewhere a
     * worker took it (`handedOff`) or it joined the queue's buffer, or was refused with
     * RejectedExecutionException when the buffer did not accept it (`stored`).
     */
    ghost predicate Submitted(q0: Queue.QueueState<Job<T>>, j: Job<T>, current: Thread,
                              vs: seq<Option<T>>, o: Outcome<T>,
                              handedOff: bool, stored: bool, escaped: Option<Exc>)
      reads this, executor, executor.queue, j
    {
      && Ok(j.setup)
      && (current.reentrant ==>
            && (o.Threw? ==> Known(j.setup.h, o.exc))
            && Step(j.State(), escaped) == RunStep(j.setup, Fresh(), current, vs, o)
            && executor.queue.State() == q0)
      && (!current.reentrant && handedOff ==>
            && j.State() == Fresh() && escaped.None?
            && executor.queue.State() == q0)
      && (!current.reentrant && !handedOff ==>
            && j.State() == Fresh()
            && executor.queue.State() == Queue.RejectSpec(q0, j, stored)
            && (escaped.Some? <==> !stored)
            && (escaped.Some? ==> escaped.value == Internal(RejectedExecutionException)))
    }

    /** `executor.execute(task)` for a job that is not queued yet. */
    method Submit(j: Job<T>, current: Thread, vs: seq<Option<T>>, o: Outcome<T>, handedOff: bool, stored: bool)
      returns (escaped: Option<Exc>)
      requires Valid() && j.Valid() && j.State() == Fresh() && j !in Pending()
      requires o.Threw? ==> Known(j.setup.h, o.exc)
      requires vs != [] ==> j.setup.kind.ProgressiveJob?
      modifies executor.queue, j
      ensures Valid()
      ensures Submitted(old(executor.queue.State()), j, current, vs, o, handedOff, stored, escaped)
    {
      ghost var q0 := executor.queue.State();
      var inline, rejected := executor.Execute(j, current, handedOff, stored);
      escaped := None;
      if inline {
        escaped := j.Run(current, vs, o);
      } else if rejected {
        escaped := Some(Internal(RejectedExecutionException));
      }
      DistinctAfterReject(q0, j, stored);
    }

    /**
     * `cancel` of a job this runner started: nothing when the job is done or a cancel was
     * already requested; otherwise the executor is asked to remove it (`removed` is its answer,
     * and only a queued job can be removed), and the job goes on as CancelStep says.
     */
    method Cancel(j: Job<T>, removed: bool) returns (escaped: Option<Exc>)
      requires Valid() && j.Valid() && (removed ==> j in Pending())
      modifies executor.queue, j
      ensures Valid() && j.Valid()
      ensures Step(j.State(), escaped) == CancelStep(j.setup, old(j.State()), removed)
      ensures var asked := !old(j.done) && !old(j.cancelRequested);
        && (asked && removed ==>
              executor.queue.State() == Queue.RemoveSpec(old(executor.queue.State()), j)
              && j !in Pending())
        && (!(asked && removed) ==> executor.queue.State() == old(executor.queue.State()))
    {
      ghost var q0, s0 := executor.queue.State(), j.State();
      var proceed := j.RequestCancel();
      if !proceed {
        CancelIdle(j.setup, s0, removed);
        return None;
      }
      CancelEffect(j.setup, s0, removed);
      var r := executor.Cancel(j, removed);
      if r {
        DistinctAfterRemove(q0, j);
      }
      escaped := j.AfterCancelRequest(r);
      forall x | x in Pending()
        ensures x.Valid() && !x.started && !x.done
      {
        assert x in old(Pending());
        if x != j {
          assert x.State() == old(x.State());
        }
      }
    }

    /**
     * `cancelPendings`: drain the executor's queue and cancelUnstarted each drained job in
     * turn (see CancelEach).
     */
    method CancelPendings()
      returns (escaped: Option<Exc>, ghost drained: seq<Job<T>>, ghost before: seq<JobState<T>>, ghost k: nat)
      requires Valid()
      modifies executor.queue, set j | j in Pending()
      ensures Valid() && Pending() == [] && drained == old(Pending()) && k <= |drained|
      ensures before == old(States(Pending())) && |before| == |drained|
      ensures forall i | 0 <= i < k :: drained[i].CancelledFrom(before[i], None)
      ensures k == |drained| ==> escaped.None?
      ensures k < |drained| ==>
        && escaped.Some? && drained[k].CancelledFrom(before[k], escaped)
        && forall i | k < i < |drained| :: drained[i].State() == before[i]
    {
      before := States(Pending());
      var cancelled := executor.CancelPendings();
      drained := cancelled;
      escaped, k := CancelEach(cancelled, before);
    }

    /**
     * `shutdown` as written: the list `executor.cancelPendings()` returns is dropped, so the
     * drained jobs are never cancelled; then the executor shuts down.
     */
    method Shutdown()
      requires Valid()
      modifies executor, executor.queue
      ensures Valid() && Pending() == [] && executor.isShutdown
      ensures forall j | j in old(Pending()) :: !j.cancelled && !j.done && j.State() == old(j.State())
    {
      var _ := executor.CancelPendings();
      executor.Shutdown();
    }

    /**
     * `shutdown` as its documentation describes it: the runner's own cancelPendings, which
     * cancels every pending job, then the executor's shutdown.
     */
    method ShutdownCancelling() returns (escaped: Option<Exc>)
      requires Valid()
      modifies executor, executor.queue, set j | j in Pending()
      ensures Valid() && Pending() == []
      ensures escaped.None? ==> executor.isShutdown
      ensures escaped.None? ==> forall j | j in old(Pending()) ::
        && j.cancelled && j.done && !j.started
        && Step(j.State(), None) == CancelUnstartedStep(j.setup, old(j.State()))
    {
      ghost var drained, before, k;
      escaped, drained, before, k := CancelPendings();
      if escaped.None? {
        executor.Shutdown();
      }
    }
  }
}
