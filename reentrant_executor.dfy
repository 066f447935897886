/**
 * ReentrantExecutor: the pool executor of DefaultRunner. It runs a command on the calling
 * thread when that thread is one of its own (so that recursive use cannot exhaust the pool),
 * hands it to the pool otherwise, and names the threads it creates from a counter.
 */
module ReentrantExecutor {
  import opened Platform
  import opened ExecutionQueue

  // ---------------------------------------------------------------------------------------------
  // Thread names

  const Two31: int := 0x8000_0000
  const Two32: int := 0x1_0000_0000

  /** Java `int` arithmetic: the value wrapped into [-2^31, 2^31). */
  function Wrap32(x: int): (r: int)
    ensures -Two31 <= r < Two31
    ensures (r - x) % Two32 == 0
    ensures -Two31 <= x < Two31 ==> r == x
  {
    (x + Two31) % Two32 - Two31
  }

  function DigitChar(d: nat): (c: char)
    requires d < 10
  {
    "0123456789"[d]
  }

  /** The decimal digits of n, most significant first. */
  function NatDigits(n: nat): (r: string)
    ensures |r| >= 1
    ensures n < 10 <==> |r| == 1
    ensures forall i | 0 <= i < |r| :: '0' <= r[i] <= '9'
  {
    if n < 10 then [DigitChar(n)] else NatDigits(n / 10) + [DigitChar(n % 10)]
  }

  /** The decimal form Java's string concatenation gives an `int`. */
  function IntString(i: int): (r: string)
    ensures |r| >= 1
    ensures r[0] == '-' <==> i < 0
  {
    if i < 0 then "-" + NatDigits(-i) else NatDigits(i)
  }

  /** The name of the thread made when the counter reads k. */
  function ThreadName(baseName: string, k: int): string
  {
    baseName + IntString(k)
  }

  /** Distinct numbers have distinct decimal forms. */
  lemma {:induction false} NatDigitsInjective(a: nat, b: nat)
    requires NatDigits(a) == NatDigits(b)
    ensures a == b
    decreases a
  {
    if 10 <= a {
      var da, db := NatDigits(a), NatDigits(b);
      assert da == NatDigits(a / 10) + [DigitChar(a % 10)];
      assert db == NatDigits(b / 10) + [DigitChar(b % 10)];
      assert da[..|da| - 1] == NatDigits(a / 10);
      assert db[..|db| - 1] == NatDigits(b / 10);
      NatDigitsInjective(a / 10, b / 10);
    }
  }

  lemma IntStringInjective(i: int, j: int)
    requires IntString(i) == IntString(j)
    ensures i == j
  {
    if i < 0 {
      assert IntString(i)[1..] == NatDigits(-i);
      assert IntString(j)[1..] == NatDigits(-j);
      NatDigitsInjective(-i, -j);
    } else {
      NatDigitsInjective(i, j);
    }
  }

  /** Threads made at different counter values have different names. */
  lemma ThreadNamesDistinct(baseName: string, j: int, k: int)
    requires j != k
    ensures ThreadName(baseName, j) != ThreadName(baseName, k)
  {
    if ThreadName(baseName, j) == ThreadName(baseName, k) {
      assert ThreadName(baseName, j)[|baseName|..] == IntString(j);
      assert ThreadName(baseName, k)[|baseName|..] == IntString(k);
      IntStringInjective(j, k);
    }
  }

  /** The counter after n calls of `getAndIncrement` on a fresh AtomicInteger. */
  function Counter(n: nat): (r: int)
  {
    if n == 0 then 0 else Wrap32(Counter(n - 1) + 1)
  }

  /** The counter takes the values 0, 1, 2, ... for the first 2^31 threads. */
  lemma {:induction false} CounterCountsUp(n: nat)
    requires n < Two31
    ensures Counter(n) == n
  {
    if n > 0 {
      CounterCountsUp(n - 1);
    }
  }

  /** The 2^31-st increment wraps the counter to the least `int`. */
  lemma CounterWraps()
    ensures Counter(Two31) == -Two31
  {
    CounterCountsUp(Two31 - 1);
  }

  /** The first 2^31 threads all have different names. */
  lemma NamesDistinctBeforeWrap(baseName: string, i: nat, j: nat)
    requires i < j < Two31
    ensures ThreadName(baseName, Counter(i)) != ThreadName(baseName, Counter(j))
  {
    CounterCountsUp(i);
    CounterCountsUp(j);
    ThreadNamesDistinct(baseName, i, j);
  }

  /** ReentrantThreadFactory: the base name and the AtomicInteger counter. */
  class ReentrantThreadFactory {
    const baseName: string
    var threadCount: int

    ghost predicate Valid()
      reads this
    {
      -Two31 <= threadCount < Two31
    }

    constructor (baseName: string)
      ensures Valid() && this.baseName == baseName && threadCount == Counter(0)
    {
      this.baseName := baseName;
      threadCount := 0;
    }

    /** `newThread`: a Reentrant daemon thread named after the counter, which then advances. */
    method NewThread() returns (t: Thread)
      requires Valid()
      modifies this
      ensures Valid()
      ensures t == Thread(ThreadName(baseName, old(threadCount)), true, true)
      ensures threadCount == Wrap32(old(threadCount) + 1)
    {
      var k := threadCount;
      threadCount := Wrap32(threadCount + 1);
      t := Thread(baseName + IntString(k), true, true);
    }
  }

  // ---------------------------------------------------------------------------------------------
  // The executor

  /**
   * The executor: its ExecutionQueue, its thread factory and whether it has been shut down.
   * The pool's worker threads are not modelled; they are the abstract takers of queued tasks.
   */
  class ReentrantExecutor<R(==)> {
    const queue: ExecutionQueue<R>
    const factory: ReentrantThreadFactory
    var isShutdown: bool

    ghost function Pending(): seq<R>
      reads queue
    {
      Contents(queue.State())
    }

    constructor (baseName: string)
      ensures fresh(queue) && fresh(factory)
      ensures queue.State() == QueueState([], []) && !isShutdown
      ensures factory.Valid() && factory.baseName == baseName && factory.threadCount == 0
    {
      queue := new ExecutionQueue();
      factory := new ReentrantThreadFactory(baseName);
      isShutdown := false;
    }

    /**
     * `execute`. On one of the executor's own threads the command runs on the calling thread
     * before `execute` returns: the executor cannot see into a command, so `inline` tells the
     * caller to run it now. Elsewhere the pool takes it: a worker accepts it at once
     * (`handedOff`), or the pool rejects it into the queue's buffer, which accepts it when
     * `stored` holds and raises RejectedExecutionException (`rejected`) otherwise.
     */
    method Execute(command: R, current: Thread, handedOff: bool, stored: bool)
      returns (inline: bool, rejected: bool)
      modifies queue
      ensures inline <==> current.reentrant
      ensures inline || handedOff ==> !rejected && queue.State() == old(queue.State())
      ensures !inline && !handedOff ==>
        && (rejected <==> !stored)
        && queue.State() == RejectSpec(old(queue.State()), command, stored)
    {
      inline, rejected := false, false;
      if current.reentrant {
        inline := true;
      } else if !handedOff {
        rejected := queue.RejectedExecution(command, stored);
      }
    }

    /** `cancel`: the queue's answer to `remove(task)`. */
    method Cancel(task: R, removed: bool) returns (r: bool)
      requires removed ==> task in Pending()
      modifies queue
      ensures r == removed
      ensures removed ==> queue.State() == RemoveSpec(old(queue.State()), task)
      ensures !removed ==> queue.State() == old(queue.State())
    {
      r := queue.Remove(task, removed);
    }

    /** `cancelPendings`: drain the queue into a new list. */
    method CancelPendings() returns (cancelled: seq<R>)
      modifies queue
      ensures cancelled == old(Pending())
      ensures queue.State() == QueueState([], []) && Pending() == []
    {
      cancelled := queue.DrainTo();
    }

    /** `shutdown`: drain the pending tasks, then stop the pool. */
    method Shutdown()
      modifies this, queue
      ensures queue.State() == QueueState([], []) && Pending() == [] && isShutdown
    {
      var _ := CancelPendings();
      isShutdown := true;
    }
  }
}
