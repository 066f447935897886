/**
 * The parts of the Java platform the engine relies on, made explicit: an optional value,
 * the exception-class hierarchy (as a superclass map), thrown objects and threads.
 */
module Platform {

  datatype Option<+T> = None | Some(value: T)

  /**
   * A Java class: one of the library classes the engine refers to, or any other class by its
   * fully qualified name.
   */
  datatype Cls =
    | Object | Throwable | Exception | Error | RuntimeException | InterruptedException
    | CancelledException | NoSuchMethodException | IllegalAccessException
    | IllegalArgumentException | RejectedExecutionException | NullPointerException | UnknownError
    | Named(name: string)

  /**
   * The throwable classes a program declares itself, by name: each one's direct superclass,
   * and its depth below Object, which witnesses that the superclass chain is finite.
   */
  datatype Hierarchy = Hierarchy(parentOf: map<string, Cls>, depth: map<string, nat>)

  /** A throwable class: one of the library's, or one the program declares. */
  predicate Declared(h: Hierarchy, c: Cls)
  {
    match c
    case Object => false
    case Named(n) => n in h.parentOf
    case _ => true
  }

  /** The depth of a class below Object (Throwable is at depth 1). */
  function Depth(h: Hierarchy, c: Cls): nat
  {
    match c
    case Object => 0
    case Throwable => 1
    case Exception | Error => 2
    case RuntimeException | InterruptedException | NoSuchMethodException | IllegalAccessException => 3
    case CancelledException | IllegalArgumentException | RejectedExecutionException => 4
    case NullPointerException | UnknownError => 4
    case Named(n) => if n in h.depth then h.depth[n] else 0
  }

  /**
   * `getSuperclass()`: fixed for the library classes, declared for the program's own.
   * CancelledException is taken to be unchecked, a RuntimeException, since `checkCancelled`
   * throws it without declaring it.
   */
  function Super(h: Hierarchy, c: Cls): Cls
    requires Declared(h, c)
  {
    match c
    case Throwable => Object
    case Exception | Error => Throwable
    case RuntimeException | InterruptedException | NoSuchMethodException | IllegalAccessException => Exception
    case CancelledException | IllegalArgumentException | RejectedExecutionException => RuntimeException
    case NullPointerException => RuntimeException
    case UnknownError => Error
    case Named(n) => h.parentOf[n]
  }

  /** Every declared class extends a throwable class nearer to Object. */
  ghost predicate WellFormed(h: Hierarchy)
  {
    forall n | n in h.parentOf ::
      n in h.depth && Declared(h, h.parentOf[n]) && Depth(h, h.parentOf[n]) < h.depth[n]
  }

  /** Only Throwable extends Object; every other throwable class climbs to a throwable class. */
  lemma SuperClimbs(h: Hierarchy, c: Cls)
    requires WellFormed(h) && Declared(h, c)
    ensures Super(h, c) == Object <==> c == Throwable
    ensures c != Throwable ==> Declared(h, Super(h, c)) && Depth(h, Super(h, c)) < Depth(h, c)
  {
  }

  /** The class itself followed by its superclasses, up to and including Throwable. */
  function Ancestors(h: Hierarchy, c: Cls): (r: seq<Cls>)
    requires WellFormed(h) && Declared(h, c)
    ensures |r| > 0 && r[0] == c && r[|r| - 1] == Throwable
    ensures forall i | 0 <= i < |r| :: Declared(h, r[i])
    decreases Depth(h, c)
  {
    SuperClimbs(h, c);
    if Super(h, c) == Object then [c] else [c] + Ancestors(h, Super(h, c))
  }

  /** `instanceof`: d is c or one of its superclasses. */
  predicate IsA(h: Hierarchy, c: Cls, d: Cls)
    requires WellFormed(h) && Declared(h, c)
  {
    d in Ancestors(h, c)
  }

  /**
   * A thrown object. `Thrown` objects carry an identity; `Wrapper` is a fresh
   * RuntimeException whose cause is the wrapped throwable.
   */
  datatype Exc = Thrown(cls: Cls, id: nat) | Wrapper(cause: Exc)

  function ClassOf(e: Exc): Cls
  {
    match e
    case Thrown(c, _) => c
    case Wrapper(_) => RuntimeException
  }

  /** Every class the throwable (and its wrapped causes) uses is in the hierarchy. */
  ghost predicate Known(h: Hierarchy, e: Exc)
  {
    Declared(h, ClassOf(e)) && (e.Wrapper? ==> Known(h, e.cause))
  }

  /** Exceptions the engine or the platform creates themselves carry identity 0. */
  function Internal(c: Cls): Exc
  {
    Thrown(c, 0)
  }

  /** Unchecked throwables: RuntimeException and Error and their subclasses. */
  ghost predicate Unchecked(h: Hierarchy, e: Exc)
    requires WellFormed(h) && Known(h, e)
  {
    IsA(h, ClassOf(e), RuntimeException) || IsA(h, ClassOf(e), Error)
  }

  /** A thread: its name, whether it is of the executor's marker class, and its daemon flag. */
  datatype Thread = Thread(name: string, reentrant: bool, daemon: bool)
}
