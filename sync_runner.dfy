/**
 * SyncRunner: a runner that runs every computation on the calling thread. It is a
 * DefaultRunner over an executor that runs each command at once and never queues anything.
 */
module SyncRunner {
  import opened Platform
  import opened HandlingProcessor
  import opened DefaultRunner

  /** The inline executor: nothing is ever queued, so nothing is pending or cancellable. */
  class InlineExecutor<R(==)> {
    constructor ()
    {
    }

    /** `execute`: the command runs on the calling thread before `execute` returns. */
    method Execute(command: R) returns (inline: bool)
      ensures inline
    {
      inline := true;
    }

    /** `cancel`: this executor never enqueues tasks, so none can be removed. */
    method Cancel(task: R) returns (removed: bool)
      ensures !removed
    {
      removed := false;
    }

    /** `cancelPendings`: nothing to cancel. */
    method CancelPendings() returns (cancelled: seq<R>)
      ensures cancelled == []
    {
      cancelled := [];
    }

    /** `shutdown`: nothing to shut down. */
    method Shutdown()
    {
    }
  }

  /** The DefaultRunner that SyncRunner delegates to. */
  class SyncRunner<T> {
    const executor: InlineExecutor<Job<T>>

    constructor ()
      ensures fresh(executor)
    {
      executor := new InlineExecutor();
    }

    /**
     * `start`, delegated: the same argument checks as DefaultRunner, then the job runs to its
     * end on the calling thread, its computation notifying `vs` and ending with `o`, whatever
     * thread that is (a nested start from inside a running computation included).
     */
    method Start(h: Hierarchy, kind: Kind, computation: Handler, handlers: array?<Handler>,
                 current: Thread, vs: seq<Option<T>>, o: Outcome<T>)
      returns (job: Option<Job<T>>, escaped: Option<Exc>)
      requires handlers != null ==> Arguments(h, kind, computation, handlers[..])
      requires o.Threw? ==> Known(h, o.exc)
      requires vs != [] ==> kind.ProgressiveJob?
      ensures handlers == null ==> job.None? && escaped == Some(Internal(NullPointerException))
      ensures handlers != null && Refused(kind, computation, handlers.Length) ==>
        job.None? && escaped == Some(Internal(IllegalArgumentException))
      ensures handlers != null && !Refused(kind, computation, handlers.Length) ==>
        && job.Some? && fresh(job.value)
        && job.value.setup == Setup(h, kind, Prepared(kind, computation, handlers[..]))
        && job.value.Valid() && job.value.started && job.value.done
        && Step(job.value.State(), escaped) == RunStep(job.value.setup, Fresh(), current, vs, o)
    {
      job, escaped := NewJob(h, kind, computation, handlers);
      if job.None? {
        return;
      }
      var inline := executor.Execute(job.value);
      escaped := None;
      if inline {
        escaped := job.value.Run(current, vs, o);
      }
    }

    /**
     * `cancel` on a job this runner started: the inline executor never removes anything, so
     * the job is never cancelled unstarted; at most its runner is interrupted.
     */
    method Cancel(job: Job<T>) returns (escaped: Option<Exc>)
      requires job.Valid()
      modifies job
      ensures job.Valid()
      ensures Step(job.State(), escaped) == CancelStep(job.setup, old(job.State()), false)
    {
      var removed := executor.Cancel(job);
      escaped := job.Cancel(removed);
    }

    /** `cancelPendings`, delegated: the executor returns no job, so nothing is cancelled. */
    method CancelPendings() returns (escaped: Option<Exc>)
      ensures escaped.None?
    {
      var cancelled := executor.CancelPendings();
      ghost var k;
      escaped, k := CancelEach(cancelled, []);
    }
  }
}
