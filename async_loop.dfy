/**
 * AsyncLoop: a Progressive computation that, while its loop condition holds, checks for a
 * cancel request and then notifies the next value as progress.
 *
 * The loop's own `hasNext`/`next` are the user's; they are given as a script of iterations.
 * Each iteration may also carry a `cancel()` made by another thread just before it, which is
 * the interleaving the loop's checkCancelled is there for.
 */
module AsyncLoop {
  import opened Platform
  import opened HandlingProcessor
  import opened DefaultRunner

  /** What one call of `next()` does: return a value (possibly null) or throw. */
  datatype Next<T> = Yields(value: Option<T>) | Fails(exc: Exc)

  /** One round of the loop: whether a cancel() arrives first, and what `next()` does. */
  datatype Iteration<T> = Iteration(cancelFirst: bool, next: Next<T>)

  ghost predicate ScriptOk<T>(c: Setup, its: seq<Iteration<T>>)
  {
    forall i | 0 <= i < |its| :: its[i].next.Fails? ==> Known(c.h, its[i].next.exc)
  }

  /**
   * `run` over the script, from job state s: per iteration, the interleaved cancel (the job is
   * running, so the executor does not remove it), checkCancelled, `next()`, notifyProgress.
   * The first throwable leaves the loop.
   */
  function LoopStep<T>(c: Setup, s: JobState<T>, its: seq<Iteration<T>>): (r: Step<T>)
    requires Ok(c)
    decreases |its|
  {
    if its == [] then Step(s, None)
    else
      var s1 := if its[0].cancelFirst then CancelStep(c, s, false).state else s;
      if s1.cancelRequested then Step(s1, Some(Internal(CancelledException)))
      else
        match its[0].next
        case Fails(x) => Step(s1, Some(x))
        case Yields(v) =>
          var p := ProgressStep(c, s1, v);
          if p.escaped.Some? then p else LoopStep(c, p.state, its[1..])
  }

  /** The loop changes neither the `started` nor the `done` flag of the running job. */
  lemma {:induction false} LoopKeepsFlags<T>(c: Setup, s: JobState<T>, its: seq<Iteration<T>>)
    requires Ok(c)
    ensures LoopStep(c, s, its).state.started == s.started
    ensures LoopStep(c, s, its).state.done == s.done
    ensures s.cancelRequested ==> LoopStep(c, s, its).state.cancelRequested
    decreases |its|
  {
    if its != [] {
      var s1 := if its[0].cancelFirst then CancelStep(c, s, false).state else s;
      if !s1.cancelRequested && its[0].next.Yields? {
        LoopKeepsFlags(c, ProgressStep(c, s1, its[0].next.value).state, its[1..]);
      }
    }
  }

  /** Running a script in two parts: the second runs from where the first ended, unless it threw. */
  lemma {:induction false} LoopAppend<T>(c: Setup, s: JobState<T>, a: seq<Iteration<T>>, b: seq<Iteration<T>>)
    requires Ok(c)
    ensures LoopStep(c, s, a + b) ==
      (var r := LoopStep(c, s, a); if r.escaped.Some? then r else LoopStep(c, r.state, b))
    decreases |a|
  {
    if a == [] {
      assert a + b == b;
    } else {
      assert (a + b)[0] == a[0] && (a + b)[1..] == a[1..] + b;
      var s1 := if a[0].cancelFirst then CancelStep(c, s, false).state else s;
      if !s1.cancelRequested && a[0].next.Yields? {
        LoopAppend(c, ProgressStep(c, s1, a[0].next.value).state, a[1..], b);
      }
    }
  }

  lemma PrefixSnoc<T>(its: seq<T>, k: nat)
    requires k < |its|
    ensures its[..k] + [its[k]] == its[..k + 1]
  {
  }

  /** Once an iteration throws, the iterations after it change nothing. */
  lemma StopsAtThrow<T>(c: Setup, s: JobState<T>, its: seq<Iteration<T>>, k: nat)
    requires Ok(c) && k <= |its| && LoopStep(c, s, its[..k]).escaped.Some?
    ensures LoopStep(c, s, its) == LoopStep(c, s, its[..k])
  {
    LoopAppend(c, s, its[..k], its[k..]);
    assert its[..k] + its[k..] == its;
  }

  /**
   * checkCancelled precedes every `next()`: when a cancel arrives before iteration k of a
   * running job, the loop leaves with CancelledException at that iteration, and no value is
   * produced after it.
   */
  lemma NoValueAfterCancel<T>(c: Setup, s: JobState<T>, its: seq<Iteration<T>>, k: nat)
    requires Ok(c) && !s.done && k < |its| && its[k].cancelFirst
    requires LoopStep(c, s, its[..k]).escaped.None?
    ensures LoopStep(c, s, its).escaped == Some(Internal(CancelledException))
    ensures LoopStep(c, s, its) == LoopStep(c, s, its[..k + 1])
  {
    var r := LoopStep(c, s, its[..k]);
    LoopKeepsFlags(c, s, its[..k]);
    LoopAppend(c, s, its[..k], [its[k]]);
    PrefixSnoc(its, k);
    assert [its[k]][1..] == [];
    StopsAtThrow(c, s, its, k + 1);
  }

  /** An exception from `next()` at a reached iteration leaves the loop with that exception. */
  lemma NextFailureEscapes<T>(c: Setup, s: JobState<T>, its: seq<Iteration<T>>, k: nat)
    requires Ok(c) && !s.cancelRequested && k < |its| && its[k].next.Fails?
    requires forall i | 0 <= i <= k :: !its[i].cancelFirst
    requires LoopStep(c, s, its[..k]).escaped.None?
    ensures LoopStep(c, s, its).escaped == Some(its[k].next.exc)
  {
    var pre := its[..k];
    assert forall i | 0 <= i < |pre| :: !pre[i].cancelFirst;
    LoopNoCancel(c, s, pre);
    var r := LoopStep(c, s, pre);
    assert LoopStep(c, r.state, [its[k]]) == Step(r.state, Some(its[k].next.exc));
    LoopAppend(c, s, pre, [its[k]]);
    PrefixSnoc(its, k);
    StopsAtThrow(c, s, its, k + 1);
  }

  /** Without any cancel, the loop never raises the cancel request. */
  lemma {:induction false} LoopNoCancel<T>(c: Setup, s: JobState<T>, its: seq<Iteration<T>>)
    requires Ok(c) && !s.cancelRequested
    requires forall i | 0 <= i < |its| :: !its[i].cancelFirst
    ensures !LoopStep(c, s, its).state.cancelRequested
    decreases |its|
  {
    if its != [] && its[0].next.Yields? {
      var p := ProgressStep(c, s, its[0].next.value);
      if p.escaped.None? {
        LoopNoCancel(c, p.state, its[1..]);
      }
    }
  }

  /** The values the script's `next()` calls return, in order. */
  function Values<T>(its: seq<Iteration<T>>): (vs: seq<Option<T>>)
    requires forall i | 0 <= i < |its| :: its[i].next.Yields?
    ensures |vs| == |its|
    ensures forall i | 0 <= i < |its| :: vs[i] == its[i].next.value
  {
    seq(|its|, i requires 0 <= i < |its| => its[i].next.value)
  }

  /**
   * Without a cancel, a failure of `next()` or a failing progress handler, the loop notifies
   * every value `next()` returns, in order, one round per iteration, and the job holds the
   * last of them.
   */
  lemma {:induction false} LoopEmitsInOrder<T>(c: Setup, s: JobState<T>, its: seq<Iteration<T>>)
    requires Ok(c) && !s.cancelRequested
    requires forall i | 0 <= i < |its| :: !its[i].cancelFirst && its[i].next.Yields?
    requires forall i | 0 <= i < |its| :: QuietFor(c, Progressed(its[i].next.value))
    ensures LoopStep(c, s, its).escaped.None?
    ensures LoopStep(c, s, its).state.log == s.log + ProgressRounds(c, Values(its))
    ensures LoopStep(c, s, its).state.value == if its == [] then s.value else its[|its| - 1].next.value
    decreases |its|
  {
    if its != [] {
      var v := its[0].next.value;
      var round := DeliverAll(c, Progressed(v)).events;
      QuietIteration(c, s, its);
      LoopEmitsInOrder(c, s.(value := v, log := s.log + round), its[1..]);
      assert Values(its)[1..] == Values(its[1..]);
      var rest := ProgressRounds(c, Values(its[1..]));
      assert ProgressRounds(c, Values(its)) == round + rest;
      assert (s.log + round) + rest == s.log + (round + rest);
    }
  }

  /**
   * Without a cancel or a failure of `next()`, the loop is the computation that notifies the
   * values `next()` returns, in order, as `run` takes a Progressive computation to be.
   */
  lemma {:induction false} LoopIsProgressions<T>(c: Setup, s: JobState<T>, its: seq<Iteration<T>>)
    requires Ok(c) && !s.cancelRequested
    requires forall i | 0 <= i < |its| :: !its[i].cancelFirst && its[i].next.Yields?
    ensures LoopStep(c, s, its) == Progressions(c, s, Values(its))
    decreases |its|
  {
    if its != [] {
      var p := ProgressStep(c, s, its[0].next.value);
      assert Values(its)[0] == its[0].next.value && Values(its)[1..] == Values(its[1..]);
      if p.escaped.None? {
        LoopIsProgressions(c, p.state, its[1..]);
      }
    }
  }

  /** An iteration without cancel whose progress round is quiet notifies and goes on. */
  lemma QuietIteration<T>(c: Setup, s: JobState<T>, its: seq<Iteration<T>>)
    requires Ok(c) && !s.cancelRequested && its != []
    requires !its[0].cancelFirst && its[0].next.Yields?
    requires QuietFor(c, Progressed(its[0].next.value))
    ensures var v := its[0].next.value;
      LoopStep(c, s, its)
        == LoopStep(c, s.(value := v, log := s.log + DeliverAll(c, Progressed(v)).events), its[1..])
  {
    DeliverAllQuiet(c, Progressed(its[0].next.value));
  }

  /** `run` on the job whose ProgressState the loop is given. */
  method Run<T>(job: Job<T>, its: seq<Iteration<T>>) returns (escaped: Option<Exc>)
    requires job.Valid() && job.setup.kind.ProgressiveJob? && job.started && !job.done
    requires ScriptOk(job.setup, its)
    modifies job
    ensures job.Valid() && job.started && !job.done
    ensures Step(job.State(), escaped) == LoopStep(job.setup, old(job.State()), its)
  {
    var i := 0;
    while i < |its|
      invariant i <= |its|
      invariant job.Valid() && job.started && !job.done
      invariant LoopStep(job.setup, old(job.State()), its) == LoopStep(job.setup, job.State(), its[i..])
    {
      assert its[i..][0] == its[i] && its[i..][1..] == its[i + 1..];
      if its[i].cancelFirst {
        var _ := job.Cancel(false);
      }
      escaped := job.CheckCancelled();
      if escaped.Some? {
        return;
      }
      match its[i].next
      case Fails(x) =>
        return Some(x);
      case Yields(v) =>
        escaped := job.NotifyProgress(v);
        if escaped.Some? {
          return;
        }
      i := i + 1;
    }
    escaped := None;
  }
}
