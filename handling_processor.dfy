/**
 * The callback dispatcher: delivers one event to one handler. For exceptions it selects the
 * most specific `onException` overload by walking the thrown class's superclass chain; for every
 * callback it either calls the handler directly or, when the method carries a RunOn marker, only
 * hands a closure to the marker's transferer. Failures escaping a reflective call are normalised.
 */
module HandlingProcessor {
  import opened Platform

  /** What looking up and invoking a transferer's static `transfer(Runnable)` method does. */
  datatype Access =
    | Invocable          // found and invoked; what it raises is the method's `raises`
    | NoTransferMethod   // getDeclaredMethod fails with NoSuchMethodException
    | Inaccessible       // invoke fails with IllegalAccessException
    | BadArgument        // invoke fails with IllegalArgumentException

  /** The class named by a RunOn marker. */
  datatype Transferer = Transferer(cls: Cls, access: Access)

  /**
   * One callback method of a handler: its RunOn marker, if any, and what calling it raises on
   * the dispatching thread (for a marked method, what the transferer's `transfer` raises).
   */
  datatype Method = Method(runOn: Option<Transferer>, raises: Option<Exc>)

  /** The handler interfaces beyond ExceptionHandler, which every handler implements. */
  datatype Iface = CompletionHandler | ResponseHandler | ProgressHandler

  /**
   * A handler object: the interfaces its class implements, its public `onException` overloads
   * keyed by parameter type, and its other callback methods.
   */
  datatype Handler = Handler(
    implements: set<Iface>,
    onException: map<Cls, Method>,
    onComplete: Method,
    onResponse: Method,
    onProgress: Method,
    onFinally: Method)

  ghost predicate MethodOk(h: Hierarchy, m: Method)
  {
    m.raises.Some? ==> Known(h, m.raises.value)
  }

  /**
   * What the Java type system guarantees of a handler: `onException(Throwable)` exists,
   * a ProgressHandler is a CompletionHandler, and what its methods raise is a known throwable.
   */
  ghost predicate IsHandler(h: Hierarchy, x: Handler)
  {
    && Throwable in x.onException
    && (ProgressHandler in x.implements ==> CompletionHandler in x.implements)
    && (forall c | c in x.onException :: MethodOk(h, x.onException[c]))
    && MethodOk(h, x.onComplete) && MethodOk(h, x.onResponse)
    && MethodOk(h, x.onProgress) && MethodOk(h, x.onFinally)
  }

  /** A callback invocation as the handler receives it. */
  datatype Callback<T> =
    | OnException(param: Cls, exc: Exc)
    | OnComplete
    | OnResponse(result: Option<T>)
    | OnProgress(progress: Option<T>)
    | OnFinally

  /** Whether the callback was called on the dispatching thread or handed to a transferer. */
  datatype Via = Direct | HandedTo(transferer: Cls)

  datatype Call<T> = Call(via: Via, callback: Callback<T>)

  /** The effect of one dispatch: the call made (if any) and the failure it lets escape. */
  datatype Dispatch<T> = Dispatch(call: Option<Call<T>>, failure: Option<Exc>)

  /** The event the engine asks to deliver. */
  datatype Notice<T> =
    | Failed(exc: Exc)
    | Completed
    | Responded(result: Option<T>)
    | Progressed(progress: Option<T>)
    | Finalized

  /**
   * findBestMatch as a function: the first class on the superclass chain of `c` for which the
   * handler declares an overload; None when the walk reaches Object (the UnknownError case).
   */
  function BestMatch(h: Hierarchy, overloads: set<Cls>, c: Cls): (r: Option<Cls>)
    requires WellFormed(h) && Declared(h, c)
    ensures r.Some? ==> r.value in overloads && Declared(h, r.value) && IsA(h, c, r.value)
    ensures Throwable in overloads ==> r.Some?
    decreases Depth(h, c)
  {
    if c in overloads then Some(c)
    else if Super(h, c) == Object then None
    else BestMatch(h, overloads, Super(h, c))
  }

  /**
   * findBestMatch selects the nearest ancestor-or-self of `c` that has an overload, and fails
   * only when no class on the chain, Throwable included, has one.
   */
  lemma {:induction false} BestMatchIsNearest(h: Hierarchy, overloads: set<Cls>, c: Cls)
    requires WellFormed(h) && Declared(h, c)
    ensures BestMatch(h, overloads, c).Some? ==>
      exists i | 0 <= i < |Ancestors(h, c)| ::
        && Ancestors(h, c)[i] == BestMatch(h, overloads, c).value
        && (forall j | 0 <= j < i :: Ancestors(h, c)[j] !in overloads)
    ensures BestMatch(h, overloads, c).None? <==>
      forall i | 0 <= i < |Ancestors(h, c)| :: Ancestors(h, c)[i] !in overloads
    decreases Depth(h, c)
  {
    var a := Ancestors(h, c);
    if c in overloads {
      assert BestMatch(h, overloads, c) == Some(c);
      assert Ancestors(h, c)[0] == c;
    } else if Super(h, c) == Object {
      assert a == [c];
    } else {
      var b := Ancestors(h, Super(h, c));
      assert a == [c] + b;
      BestMatchIsNearest(h, overloads, Super(h, c));
      var r := BestMatch(h, overloads, c);
      assert r == BestMatch(h, overloads, Super(h, c));
      if r.Some? {
        var i :| 0 <= i < |b| && b[i] == r.value && forall j | 0 <= j < i :: b[j] !in overloads;
        assert a[i + 1] == r.value;
        forall j | 0 <= j < i + 1 ensures a[j] !in overloads {
          if j > 0 { assert a[j] == b[j - 1]; }
        }
      } else {
        assert BestMatch(h, overloads, Super(h, c)).None?;
        assert forall i | 0 <= i < |Ancestors(h, Super(h, c))| :: Ancestors(h, Super(h, c))[i] !in overloads;
        forall i | 0 <= i < |a| ensures a[i] !in overloads {
          if i > 0 { assert a[i] == b[i - 1]; assert b[i - 1] !in overloads; }
        }
      }
    }
  }

  /** The superclass walk of findBestMatch, as the loop the source runs. */
  method FindBestMatch(h: Hierarchy, handler: Handler, throwable: Exc) returns (r: Option<Cls>)
    requires WellFormed(h) && Known(h, throwable)
    ensures r == BestMatch(h, handler.onException.Keys, ClassOf(throwable))
  {
    var throwableClass := ClassOf(throwable);
    while true
      invariant Declared(h, throwableClass)
      invariant BestMatch(h, handler.onException.Keys, throwableClass)
             == BestMatch(h, handler.onException.Keys, ClassOf(throwable))
      decreases Depth(h, throwableClass)
    {
      if throwableClass in handler.onException {
        return Some(throwableClass);
      }
      throwableClass := Super(h, throwableClass);
      if throwableClass == Object {
        return None;
      }
    }
  }

  /**
   * handleInvocationTargetException: the cause of a failed reflective call is rethrown as it is
   * when unchecked, and wrapped in a new RuntimeException otherwise.
   */
  function HandleInvocationTargetException(h: Hierarchy, cause: Exc): (r: Exc)
    requires WellFormed(h) && Known(h, cause)
    ensures Known(h, r) && Unchecked(h, r)
    ensures r == cause <==> Unchecked(h, cause)
    ensures r != cause ==> r == Wrapper(cause)
  {
    if IsA(h, ClassOf(cause), RuntimeException) then cause
    else if IsA(h, ClassOf(cause), Error) then cause
    else Wrapper(cause)
  }

  /** The failure escaping a reflective call that raised `raised`. */
  function Rethrown(h: Hierarchy, raised: Option<Exc>): (r: Option<Exc>)
    requires WellFormed(h) && (raised.Some? ==> Known(h, raised.value))
    ensures r.Some? <==> raised.Some?
    ensures r.Some? ==> Known(h, r.value) && Unchecked(h, r.value)
  {
    if raised.Some? then Some(HandleInvocationTargetException(h, raised.value)) else None
  }

  /**
   * runOn lookup followed by transfer: the closure is handed over only when the transferer's
   * method can be invoked; reflective failures come out wrapped in a RuntimeException.
   */
  function Transfer<T>(h: Hierarchy, t: Transferer, raised: Option<Exc>, cb: Callback<T>): (d: Dispatch<T>)
    requires WellFormed(h) && (raised.Some? ==> Known(h, raised.value))
    ensures d.call.Some? <==> t.access.Invocable?
    ensures d.call.Some? ==> d.call.value == Call(HandedTo(t.cls), cb)
    ensures d.failure.Some? ==> Known(h, d.failure.value) && Unchecked(h, d.failure.value)
    ensures !t.access.Invocable? ==> d.failure.Some? && d.failure.value.Wrapper?
  {
    match t.access
    case NoTransferMethod => Dispatch(None, Some(Wrapper(Internal(NoSuchMethodException))))
    case Inaccessible => Dispatch(None, Some(Wrapper(Internal(IllegalAccessException))))
    case BadArgument => Dispatch(None, Some(Wrapper(Internal(IllegalArgumentException))))
    case Invocable => Dispatch(Some(Call(HandedTo(t.cls), cb)), Rethrown(h, raised))
  }

  /** A non-exception callback: called directly, or handed to the transferer of its marker. */
  function Invoke<T>(h: Hierarchy, m: Method, cb: Callback<T>): (d: Dispatch<T>)
    requires WellFormed(h) && MethodOk(h, m)
    ensures m.runOn.None? ==> d == Dispatch(Some(Call(Direct, cb)), m.raises)
    ensures m.runOn.Some? ==> d == Transfer(h, m.runOn.value, m.raises, cb)
  {
    match m.runOn
    case Some(t) => Transfer(h, t, m.raises, cb)
    case None => Dispatch(Some(Call(Direct, cb)), m.raises)
  }

  /**
   * handleException: the best-matching overload receives the very throwable; the general
   * overload is called plainly, a specific one reflectively (its failures normalised), and a
   * marked one only through its transferer.
   */
  function HandleException<T>(h: Hierarchy, x: Handler, e: Exc): (d: Dispatch<T>)
    requires WellFormed(h) && IsHandler(h, x) && Known(h, e)
    ensures var m := BestMatch(h, x.onException.Keys, ClassOf(e));
      && m.Some?
      && (d.call.Some? ==> d.call.value.callback == OnException(m.value, e))
      && (x.onException[m.value].runOn.None? ==>
            && d.call == Some(Call(Direct, OnException(m.value, e)))
            && d.failure == (if m.value == Throwable then x.onException[m.value].raises
                             else Rethrown(h, x.onException[m.value].raises)))
  {
    match BestMatch(h, x.onException.Keys, ClassOf(e))
    case None => Dispatch(None, Some(Internal(UnknownError)))
    case Some(m) =>
      var target := x.onException[m];
      var cb := OnException(m, e);
      match target.runOn
      case Some(t) => Transfer(h, t, target.raises, cb)
      case None =>
        if m == Throwable then Dispatch(Some(Call(Direct, cb)), target.raises)
        else Dispatch(Some(Call(Direct, cb)), Rethrown(h, target.raises))
  }

  function HandleResult<T>(h: Hierarchy, x: Handler, result: Option<T>): (d: Dispatch<T>)
    requires WellFormed(h) && IsHandler(h, x)
    ensures d.call.Some? ==> d.call.value.callback == OnResponse(result)
  {
    Invoke(h, x.onResponse, OnResponse(result))
  }

  function HandleProgress<T>(h: Hierarchy, x: Handler, progress: Option<T>): (d: Dispatch<T>)
    requires WellFormed(h) && IsHandler(h, x)
    ensures d.call.Some? ==> d.call.value.callback == OnProgress(progress)
  {
    Invoke(h, x.onProgress, OnProgress(progress))
  }

  function Complete<T>(h: Hierarchy, x: Handler): (d: Dispatch<T>)
    requires WellFormed(h) && IsHandler(h, x)
    ensures d.call.Some? ==> d.call.value.callback == OnComplete
  {
    Invoke(h, x.onComplete, OnComplete)
  }

  function HandleFinally<T>(h: Hierarchy, x: Handler): (d: Dispatch<T>)
    requires WellFormed(h) && IsHandler(h, x)
    ensures d.call.Some? ==> d.call.value.callback == OnFinally
  {
    Invoke(h, x.onFinally, OnFinally)
  }

  /** The callback a notice selects, with the overload resolved for exceptions. */
  ghost predicate Answers<T>(h: Hierarchy, x: Handler, n: Notice<T>, cb: Callback<T>)
    requires WellFormed(h) && (n.Failed? ==> Known(h, n.exc))
  {
    match n
    case Failed(e) => cb.OnException? && cb.exc == e
                      && Some(cb.param) == BestMatch(h, x.onException.Keys, ClassOf(e))
    case Completed => cb == OnComplete
    case Responded(v) => cb == OnResponse(v)
    case Progressed(v) => cb == OnProgress(v)
    case Finalized => cb == OnFinally
  }

  /** The handler method a notice invokes. */
  function Selected<T>(h: Hierarchy, x: Handler, n: Notice<T>): Method
    requires WellFormed(h) && IsHandler(h, x) && (n.Failed? ==> Known(h, n.exc))
  {
    match n
    case Failed(e) => x.onException[BestMatch(h, x.onException.Keys, ClassOf(e)).value]
    case Completed => x.onComplete
    case Responded(_) => x.onResponse
    case Progressed(_) => x.onProgress
    case Finalized => x.onFinally
  }

  /**
   * Delivers a notice to one handler: the selected callback is invoked at most once, directly
   * exactly when its method has no RunOn marker; when nothing is invoked a failure escapes.
   */
  function Notify<T>(h: Hierarchy, x: Handler, n: Notice<T>): (d: Dispatch<T>)
    requires WellFormed(h) && IsHandler(h, x) && (n.Failed? ==> Known(h, n.exc))
    ensures d.call.None? ==> d.failure.Some?
    ensures d.call.Some? ==> Answers(h, x, n, d.call.value.callback)
    ensures d.call.Some? ==> (d.call.value.via.Direct? <==> Selected(h, x, n).runOn.None?)
    ensures d.failure.Some? ==> Known(h, d.failure.value)
  {
    match n
    case Failed(e) => HandleException(h, x, e)
    case Completed => Complete(h, x)
    case Responded(v) => HandleResult(h, x, v)
    case Progressed(v) => HandleProgress(h, x, v)
    case Finalized => HandleFinally(h, x)
  }

  /** A notice's delivery to this handler lets a failure escape. */
  ghost predicate Faults<T>(h: Hierarchy, x: Handler, n: Notice<T>)
    requires WellFormed(h) && IsHandler(h, x) && (n.Failed? ==> Known(h, n.exc))
  {
    Notify(h, x, n).failure.Some?
  }

  /**
   * When a more specific overload than `onException(Throwable)` applies to the thrown class,
   * the general overload is never the one invoked.
   */
  lemma SpecificOverloadShadowsGeneral<T>(h: Hierarchy, x: Handler, e: Exc, c: Cls)
    requires WellFormed(h) && IsHandler(h, x) && Known(h, e)
    requires c != Throwable && c in x.onException && IsA(h, ClassOf(e), c)
    ensures var d := HandleException<T>(h, x, e);
      d.call.Some? ==> d.call.value.callback.param != Throwable
  {
    NearerOverloadWins(h, x.onException.Keys, ClassOf(e), c);
  }

  /** The superclass walk stops at an overload below Throwable before it can reach Throwable. */
  lemma {:induction false} NearerOverloadWins(h: Hierarchy, overloads: set<Cls>, cls: Cls, c: Cls)
    requires WellFormed(h) && Declared(h, cls)
    requires c != Throwable && c in overloads && IsA(h, cls, c)
    ensures BestMatch(h, overloads, cls) != Some(Throwable)
    decreases Depth(h, cls)
  {
    SuperClimbs(h, cls);
    if cls !in overloads {
      assert cls != c;
      assert Ancestors(h, cls) == [cls] + Ancestors(h, Super(h, cls));
      NearerOverloadWins(h, overloads, Super(h, cls), c);
    }
  }
}
