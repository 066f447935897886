/**
 * ExecutionQueue: the work queue of the reentrant executor. It is a rendezvous queue (offers
 * that wait for a taker) with a FIFO buffer in front of it that holds the tasks the pool
 * rejected, so that they are handed out again, first, when a worker asks for work.
 */
module ExecutionQueue {
  import opened Platform

  /** The buffer of rejected tasks and the offers waiting at the rendezvous, oldest first. */
  datatype QueueState<R> = QueueState(buffer: seq<R>, waiting: seq<R>)

  /** Every task the queue would hand out, in the order it hands them out. */
  function Contents<R>(q: QueueState<R>): seq<R>
  {
    q.buffer + q.waiting
  }

  /** A task taken (or none) and the queue left behind. */
  datatype Taken<R> = Taken(task: Option<R>, queue: QueueState<R>)

  /**
   * `poll()`: the head of the buffer; when the buffer is empty, the oldest waiting offer;
   * when both are empty, nothing.
   */
  function PollSpec<R>(q: QueueState<R>): (r: Taken<R>)
    ensures r.task.None? <==> Contents(q) == []
    ensures r.task.None? ==> r.queue == q
    ensures r.task.Some? ==> Contents(q) == [r.task.value] + Contents(r.queue)
    ensures q.buffer != [] ==> r.task == Some(q.buffer[0]) && r.queue.waiting == q.waiting
  {
    if q.buffer != [] then Taken(Some(q.buffer[0]), q.(buffer := q.buffer[1..]))
    else if q.waiting != [] then Taken(Some(q.waiting[0]), q.(waiting := q.waiting[1..]))
    else Taken(None, q)
  }

  /**
   * `poll(timeout, unit)`: like `poll()`, but with nothing queued it waits for an offer; the
   * offer that arrives before the timeout (or none) is handed over directly.
   */
  function TimedPollSpec<R>(q: QueueState<R>, arrival: Option<R>): (r: Taken<R>)
    ensures Contents(q) != [] ==> r == PollSpec(q)
    ensures Contents(q) == [] ==> r == Taken(arrival, q)
  {
    if Contents(q) == [] then Taken(arrival, q) else PollSpec(q)
  }

  /** `take()`: like `poll()`, but with nothing queued it blocks until an offer arrives. */
  function TakeSpec<R>(q: QueueState<R>, arrival: R): (r: Taken<R>)
    ensures r.task.Some?
    ensures Contents(q) != [] ==> r == PollSpec(q)
    ensures Contents(q) == [] ==> r == Taken(Some(arrival), q)
  {
    TimedPollSpec(q, Some(arrival))
  }

  /**
   * `rejectedExecution`: the task joins the end of the buffer when the buffer accepts it
   * (`stored`); otherwise RejectedExecutionException is raised and the queue is unchanged.
   */
  function RejectSpec<R>(q: QueueState<R>, run: R, stored: bool): (r: QueueState<R>)
    ensures stored ==> Contents(r) == q.buffer + [run] + q.waiting
    ensures !stored ==> r == q
  {
    if stored then q.(buffer := q.buffer + [run]) else q
  }

  /** A producer parks at the rendezvous with its task (the SynchronousQueue side). */
  function OfferSpec<R>(q: QueueState<R>, task: R): (r: QueueState<R>)
    ensures Contents(r) == Contents(q) + [task]
  {
    q.(waiting := q.waiting + [task])
  }

  /**
   * `clear()`: empties the buffer. The rendezvous side holds no elements of its own, so
   * producers parked there stay parked.
   */
  function ClearSpec<R>(q: QueueState<R>): (r: QueueState<R>)
    ensures Contents(r) == q.waiting
  {
    q.(buffer := [])
  }

  /**
   * The queue after `remove(task)` has succeeded: the first occurrence leaves the buffer, or,
   * when the buffer does not hold it, the waiting offers.
   */
  function RemoveSpec<R(==)>(q: QueueState<R>, task: R): (r: QueueState<R>)
    requires task in Contents(q)
    ensures multiset(Contents(r)) + multiset{task} == multiset(Contents(q))
  {
    if task in q.buffer then q.(buffer := RemoveFirst(q.buffer, task))
    else q.(waiting := RemoveFirst(q.waiting, task))
  }

  /** The sequence without the first occurrence of x. */
  function RemoveFirst<R(==)>(s: seq<R>, x: R): (r: seq<R>)
    requires x in s
    ensures multiset(r) + multiset{x} == multiset(s)
  {
    var k := IndexOf(s, x);
    assert s == s[..k] + [s[k]] + s[k + 1..];
    s[..k] + s[k + 1..]
  }

  /** The position of the first occurrence of x. */
  function IndexOf<R(==)>(s: seq<R>, x: R): (k: nat)
    requires x in s
    ensures k < |s| && s[k] == x && x !in s[..k]
  {
    if s[0] == x then 0
    else
      var k := IndexOf(s[1..], x);
      assert s[..k + 1] == [s[0]] + s[1..][..k];
      k + 1
  }

  /** A successful `remove(task)` takes out exactly position m of the queue's contents. */
  lemma RemoveSpecContents<R>(q: QueueState<R>, task: R) returns (m: nat)
    requires task in Contents(q)
    ensures m < |Contents(q)| && Contents(q)[m] == task
    ensures Contents(RemoveSpec(q, task)) == Contents(q)[..m] + Contents(q)[m + 1..]
  {
    var b, w := q.buffer, q.waiting;
    assert Contents(q) == b + w;
    if task in b {
      m := IndexOf(b, task);
      assert Contents(RemoveSpec(q, task)) == (b[..m] + b[m + 1..]) + w;
      CutLeft(b, w, m);
    } else {
      var k := IndexOf(w, task);
      assert Contents(RemoveSpec(q, task)) == b + (w[..k] + w[k + 1..]);
      m := |b| + k;
      CutRight(b, w, k);
    }
  }

  /** Cutting position m out of b + w, when it falls in b. */
  lemma CutLeft<R>(b: seq<R>, w: seq<R>, m: nat)
    requires m < |b|
    ensures (b + w)[m] == b[m] && (b + w)[..m] + (b + w)[m + 1..] == b[..m] + b[m + 1..] + w
  {
    assert (b + w)[..m] == b[..m];
    assert (b + w)[m + 1..] == b[m + 1..] + w;
  }

  /** Cutting position |b| + k out of b + w. */
  lemma CutRight<R>(b: seq<R>, w: seq<R>, k: nat)
    requires k < |w|
    ensures (b + w)[|b| + k] == w[k]
    ensures (b + w)[..|b| + k] + (b + w)[|b| + k + 1..] == b + (w[..k] + w[k + 1..])
  {
    assert (b + w)[..|b| + k] == b + w[..k];
    assert (b + w)[|b| + k + 1..] == w[k + 1..];
  }

  /** The tasks n successive polls hand out. */
  function Polls<R>(q: QueueState<R>, n: nat): seq<R>
    decreases n
  {
    if n == 0 then []
    else
      var t := PollSpec(q);
      if t.task.None? then [] else [t.task.value] + Polls(t.queue, n - 1)
  }

  /** Successive polls hand out the queued tasks in order: the buffer first, then the offers. */
  lemma {:induction false} PollsInOrder<R>(q: QueueState<R>, n: nat)
    requires n <= |Contents(q)|
    ensures Polls(q, n) == Contents(q)[..n]
    decreases n
  {
    if n > 0 {
      var t := PollSpec(q);
      PollsInOrder(t.queue, n - 1);
      assert Contents(q)[..n] == [t.task.value] + Contents(t.queue)[..n - 1];
    }
  }

  /** Polling past the end of the queue hands out nothing more. */
  lemma {:induction false} PollsExhaust<R>(q: QueueState<R>, n: nat)
    requires |Contents(q)| <= n
    ensures Polls(q, n) == Contents(q)
    decreases n
  {
    if n > 0 && Contents(q) != [] {
      var t := PollSpec(q);
      PollsExhaust(t.queue, n - 1);
    }
  }

  /**
   * A task handed to `rejectedExecution` is handed out before a task offered afterwards, and
   * both before anything offered later still.
   */
  lemma RejectedBeforeOffered<R>(q: QueueState<R>, x: R, y: R)
    requires q.waiting == []
    ensures var q2 := OfferSpec(RejectSpec(q, x, true), y);
      Polls(q2, |q.buffer| + 2) == q.buffer + [x, y]
  {
    var q2 := OfferSpec(RejectSpec(q, x, true), y);
    assert Contents(q2) == q.buffer + [x, y];
    PollsInOrder(q2, |q.buffer| + 2);
  }

  /** Rejected tasks are handed out in the order they were rejected. */
  lemma {:induction false} BufferIsFifo<R>(q: QueueState<R>, runs: seq<R>)
    ensures RejectAll(q, runs) == QueueState(q.buffer + runs, q.waiting)
    decreases |runs|
  {
    if runs != [] {
      var last := runs[|runs| - 1];
      BufferIsFifo(q, runs[..|runs| - 1]);
      assert q.buffer + runs == q.buffer + runs[..|runs| - 1] + [last];
    }
  }

  /** Rejecting each task in turn, every one accepted by the buffer. */
  function RejectAll<R>(q: QueueState<R>, runs: seq<R>): QueueState<R>
    decreases |runs|
  {
    if runs == [] then q else RejectSpec(RejectAll(q, runs[..|runs| - 1]), runs[|runs| - 1], true)
  }

  /** After `clear`, with no producer parked at the rendezvous, `poll` returns nothing. */
  lemma ClearThenPoll<R>(q: QueueState<R>)
    requires q.waiting == []
    ensures PollSpec(ClearSpec(q)).task.None?
  {
    assert Contents(ClearSpec(q)) == [];
  }

  /** The queue object: `bufferQueue` and the rendezvous side it inherits. */
  class ExecutionQueue<R(==)> {
    var buffer: seq<R>
    var waiting: seq<R>

    ghost function State(): QueueState<R>
      reads this
    {
      QueueState(buffer, waiting)
    }

    constructor ()
      ensures State() == QueueState([], [])
    {
      buffer, waiting := [], [];
    }

    method Clear()
      modifies this
      ensures State() == ClearSpec(old(State()))
    {
      buffer := [];
    }

    /** `bufferQueue.poll()`. */
    method PollBuffer() returns (run: Option<R>)
      modifies this`buffer
      ensures old(buffer) == [] ==> run.None? && buffer == []
      ensures old(buffer) != [] ==> run == Some(old(buffer)[0]) && buffer == old(buffer)[1..]
    {
      if buffer == [] {
        run := None;
      } else {
        run := Some(buffer[0]);
        buffer := buffer[1..];
      }
    }

    /** `super.poll()`: the oldest waiting offer, if any. */
    method PollRendezvous() returns (run: Option<R>)
      modifies this`waiting
      ensures old(waiting) == [] ==> run.None? && waiting == []
      ensures old(waiting) != [] ==> run == Some(old(waiting)[0]) && waiting == old(waiting)[1..]
    {
      if waiting == [] {
        run := None;
      } else {
        run := Some(waiting[0]);
        waiting := waiting[1..];
      }
    }

    method Poll() returns (run: Option<R>)
      modifies this
      ensures Taken(run, State()) == PollSpec(old(State()))
    {
      run := PollBuffer();
      if run.None? {
        run := PollRendezvous();
      }
    }

    /** `poll(timeout, unit)`; `arrival` is the offer that arrives while it waits, if any. */
    method PollTimeout(arrival: Option<R>) returns (run: Option<R>)
      modifies this
      ensures Taken(run, State()) == TimedPollSpec(old(State()), arrival)
    {
      run := PollBuffer();
      if run.None? {
        run := PollRendezvous();
        if run.None? {
          run := arrival;
        }
      }
    }

    /** `take()`; `arrival` is the offer it blocks for when nothing is queued. */
    method Take(arrival: R) returns (run: R)
      modifies this
      ensures Taken(Some(run), State()) == TakeSpec(old(State()), arrival)
    {
      var r := PollBuffer();
      if r.None? {
        r := PollRendezvous();
      }
      run := if r.Some? then r.value else arrival;
    }

    /** `rejectedExecution`; `stored` is whether the buffer's `offer` accepted the task. */
    method RejectedExecution(run: R, stored: bool) returns (rejected: bool)
      modifies this
      ensures rejected <==> !stored
      ensures State() == RejectSpec(old(State()), run, stored)
    {
      if stored {
        buffer := buffer + [run];
      }
      rejected := !stored;
    }

    /** A producer parks at the rendezvous with its task. */
    method Offer(task: R)
      modifies this
      ensures State() == OfferSpec(old(State()), task)
    {
      waiting := waiting + [task];
    }

    /**
     * `remove(task)`, as the executor's contract describes it: `removed` is the queue's
     * answer, and a true answer means the task was queued and now is not.
     */
    method Remove(task: R, removed: bool) returns (r: bool)
      requires removed ==> task in Contents(State())
      modifies this
      ensures r == removed
      ensures removed ==> State() == RemoveSpec(old(State()), task)
      ensures !removed ==> State() == old(State())
    {
      if removed {
        if task in buffer {
          buffer := RemoveFirst(buffer, task);
        } else {
          waiting := RemoveFirst(waiting, task);
        }
      }
      r := removed;
    }

    /** `drainTo`: poll until nothing is left, collecting what comes out. */
    method DrainTo() returns (drained: seq<R>)
      modifies this
      ensures drained == Contents(old(State()))
      ensures State() == QueueState([], []) && Contents(State()) == []
    {
      drained := [];
      var run := Poll();
      while run.Some?
        invariant run.Some? ==> drained + [run.value] + Contents(State()) == Contents(old(State()))
        invariant run.None? ==> drained == Contents(old(State())) && State() == QueueState([], [])
        decreases |Contents(State())| + (if run.Some? then 1 else 0)
      {
        drained := drained + [run.value];
        run := Poll();
      }
    }
  }
}
