/**
 * The asynchronously processed injectable reference: a single-assignment
 * future (`isDone`, `reference`, `cause`) plus the strategy its constructor
 * picks to fill it: fail at once on an ambiguous `CompletionStage<T>`
 * producer, attach to the one matching producer's stage, or resolve the bean
 * on a worker thread.
 *
 * The compare-and-set on `isDone` becomes a plain `if !isDone` guard; the
 * callbacks of the stage and of the worker are methods that may be called in
 * any order and any number of times.
 */
module AsyncReference {
  import opened Wrappers

  /** The failures a resolution ends with. */
  datatype Throwable =
    | AmbiguousResolution
    | UnsatisfiedResolution
    | IllegalState
    | Thrown(id: nat)  // any other throwable, e.g. the failure of a producer's stage

  /** The outcome of one completion attempt: a (nullable) result or a cause. */
  datatype AsyncResult<T> = Succeeded(result: Option<T>) | Failed(cause: Throwable)

  /** The three observable fields of an async reference. */
  datatype RefState<T> = RefState(isDone: bool, reference: Option<T>, cause: Option<Throwable>)

  /** A freshly constructed reference: not done, no reference, no cause. */
  function Initial<T>(): RefState<T> {
    RefState(false, None, None)
  }

  /** `reference` and `cause` are never both set, and neither is set before `isDone`. */
  ghost predicate Consistent<T>(s: RefState<T>) {
    && !(s.reference.Some? && s.cause.Some?)
    && (!s.isDone ==> s.reference.None? && s.cause.None?)
  }

  /**
   * `complete(result, cause)`: only when `isDone` flips from false to true
   * is one of the two fields written.
   */
  function Completed<T>(s: RefState<T>, result: Option<T>, cause: Option<Throwable>): RefState<T> {
    if s.isDone then s
    else if cause.Some? then s.(isDone := true, cause := cause)
    else s.(isDone := true, reference := result)
  }

  /** `sucess(result)` is `complete(result, null)`, `failure(cause)` is `complete(null, cause)`. */
  function Attempt<T>(s: RefState<T>, a: AsyncResult<T>): RefState<T> {
    match a
    case Succeeded(r) => Completed(s, r, None)
    case Failed(c) => Completed(s, None, Some(c))
  }

  /** Several completion attempts, in the order they reach the reference. */
  function AttemptAll<T>(s: RefState<T>, attempts: seq<AsyncResult<T>>): RefState<T>
    decreases |attempts|
  {
    if attempts == [] then s else AttemptAll(Attempt(s, attempts[0]), attempts[1..])
  }

  /** What a reference that was completed by `a` looks like (the documented contract). */
  function Outcome<T>(a: AsyncResult<T>): RefState<T> {
    match a
    case Succeeded(r) => RefState(true, r, None)
    case Failed(c) => RefState(true, None, Some(c))
  }

  /** A completion keeps the two fields exclusive and turns `isDone` on for good. */
  lemma CompletedKeepsConsistent<T>(s: RefState<T>, result: Option<T>, cause: Option<Throwable>)
    requires Consistent(s)
    ensures Consistent(Completed(s, result, cause))
    ensures Completed(s, result, cause).isDone
    ensures !s.isDone ==> Completed(s, result, cause) == Outcome(if cause.Some? then Failed(cause.value) else Succeeded(result))
  {
  }

  /** Once done, no further attempt changes `isDone`, `reference` or `cause`. */
  lemma {:induction false} DoneIsFinal<T>(s: RefState<T>, attempts: seq<AsyncResult<T>>)
    requires s.isDone
    ensures AttemptAll(s, attempts) == s
    decreases |attempts|
  {
    if attempts != [] {
      DoneIsFinal(Attempt(s, attempts[0]), attempts[1..]);
    }
  }

  /**
   * Only the first completion has effect: whatever attempts follow, the
   * reference ends as the first one left it. A null success is legal and
   * leaves both `get()` and `cause()` null.
   */
  lemma {:induction false} FirstCompletionWins<T>(attempts: seq<AsyncResult<T>>)
    requires |attempts| > 0
    ensures AttemptAll(Initial(), attempts) == Outcome(attempts[0])
    ensures Consistent(AttemptAll(Initial(), attempts))
  {
    var first := Attempt(Initial<T>(), attempts[0]);
    DoneIsFinal(first, attempts[1..]);
  }

  /** A lazy client proxy of a normal-scoped bean, or one whose target has been created. */
  datatype Proxy<U> = Deferred(target: U) | Realized(target: U)

  /** `getTargetInstance()`: makes the proxy's target exist. */
  function Force<U>(p: Proxy<U>): (r: Proxy<U>)
    ensures r.Realized? && r.target == p.target
  {
    Realized(p.target)
  }

  /** A contextual reference: the bean instance itself or a client proxy for it. */
  datatype Instance<U> = Plain(value: U) | ClientProxy(proxy: Proxy<U>) {
    function Target(): U {
      match this
      case Plain(v) => v
      case ClientProxy(p) => p.target
    }
  }

  /** What obtaining the contextual reference of a bean gave: a (nullable) instance, or an exception. */
  datatype Creation<U> = Created(instance: Option<Instance<U>>) | CreationFailed(cause: Throwable)

  /** One bean resolved by the container: whether its scope is normal, and its reference. */
  datatype Candidate<U> = Candidate(normalScoped: bool, creation: Creation<U>)

  /**
   * The blocking task run by the worker: zero candidates fail as
   * unsatisfied, several as ambiguous; the one candidate's reference
   * completes the task, a normal-scoped client proxy being forced first.
   */
  function ResolveOnWorker<U>(candidates: seq<Candidate<U>>): (r: AsyncResult<Instance<U>>)
    ensures |candidates| == 0 ==> r == Failed(UnsatisfiedResolution)
    ensures |candidates| > 1 ==> r == Failed(AmbiguousResolution)
    ensures |candidates| == 1 && candidates[0].creation.CreationFailed? ==> r == Failed(candidates[0].creation.cause)
    ensures r.Succeeded? <==> |candidates| == 1 && candidates[0].creation.Created?
    ensures r.Succeeded? ==> (r.result.Some? <==> candidates[0].creation.instance.Some?)
    ensures r.Succeeded? && r.result.Some? ==> r.result.value.Target() == candidates[0].creation.instance.value.Target()
    ensures r.Succeeded? && r.result.Some? && candidates[0].normalScoped ==> !(r.result.value.ClientProxy? && r.result.value.proxy.Deferred?)
    ensures r.Succeeded? && !candidates[0].normalScoped ==> r.result == candidates[0].creation.instance
    ensures r.Succeeded? && !(candidates[0].creation.instance.Some? && candidates[0].creation.instance.value.ClientProxy?) ==>
      r.result == candidates[0].creation.instance
  {
    if |candidates| == 0 then Failed(UnsatisfiedResolution)
    else if |candidates| > 1 then Failed(AmbiguousResolution)
    else
      match candidates[0].creation
      case CreationFailed(c) => Failed(c)
      case Created(instance) =>
        if candidates[0].normalScoped && instance.Some? && instance.value.ClientProxy? then
          Succeeded(Some(ClientProxy(Force(instance.value.proxy))))
        else
          Succeeded(instance)
  }

  /** Which of the three paths the constructor took. */
  datatype Strategy =
    | FailedAmbiguous  // several CompletionStage producers: completed at once, nothing attached
    | AwaitingStage    // attached to the one producer's stage, no worker scheduled
    | Rejected         // the producer's reference is not a CompletionStage: IllegalStateException
    | AwaitingWorker   // no producer: the bean is resolved on a worker thread

  class AsyncReferenceImpl<T> {
    var isDone: bool
    var reference: Option<T>
    var cause: Option<Throwable>
    /** The internal completable future, as the outcome it was completed with. */
    var future: Option<AsyncResult<T>>
    var strategy: Strategy

    function State(): RefState<T>
      reads this
    {
      RefState(isDone, reference, cause)
    }

    /** The fields are consistent, and the future was completed exactly when `isDone` is set, with the same outcome. */
    ghost predicate Valid()
      reads this
    {
      && Consistent(State())
      && (future.None? <==> !isDone)
      && (future.Some? ==> State() == Outcome(future.value))
    }

    /**
     * Picks the strategy from the number of `CompletionStage<T>` producers
     * matching the injection point and, when there is one, whether its
     * contextual reference is a `CompletionStage`.
     */
    constructor (stageProducers: nat, referenceIsCompletionStage: bool)
      ensures Valid()
      ensures stageProducers > 1 ==> strategy == FailedAmbiguous && State() == Outcome(Failed(AmbiguousResolution))
      ensures stageProducers == 1 && referenceIsCompletionStage ==> strategy == AwaitingStage && State() == Initial()
      ensures stageProducers == 1 && !referenceIsCompletionStage ==> strategy == Rejected && State() == Initial()
      ensures stageProducers == 0 ==> strategy == AwaitingWorker && State() == Initial()
    {
      isDone, reference, cause, future := false, None, None, None;
      strategy := AwaitingWorker;
      new;
      if stageProducers > 1 {
        strategy := FailedAmbiguous;
        Failure(AmbiguousResolution);
      } else if stageProducers == 1 {
        strategy := if referenceIsCompletionStage then AwaitingStage else Rejected;
      }
    }

    method Complete(result: Option<T>, c: Option<Throwable>)
      requires Valid()
      modifies this
      ensures Valid() && strategy == old(strategy)
      ensures State() == Completed(old(State()), result, c)
    {
      if !isDone {
        isDone := true;
        if c.Some? {
          cause := c;
          future := Some(Failed(c.value));
        } else {
          reference := result;
          future := Some(Succeeded(result));
        }
      }
    }

    method Success(result: Option<T>)
      requires Valid()
      modifies this
      ensures Valid() && strategy == old(strategy)
      ensures State() == Attempt(old(State()), Succeeded(result))
    {
      Complete(result, None);
    }

    method Failure(c: Throwable)
      requires Valid()
      modifies this
      ensures Valid() && strategy == old(strategy)
      ensures State() == Attempt(old(State()), Failed(c))
    {
      Complete(None, Some(c));
    }

    /** The `whenComplete` callback attached to the producer's stage. */
    method OnStageComplete(result: Option<T>, throwable: Option<Throwable>)
      requires Valid()
      modifies this
      ensures Valid() && strategy == old(strategy)
      ensures State() == Attempt(old(State()), if throwable.Some? then Failed(throwable.value) else Succeeded(result))
    {
      if throwable.Some? {
        Failure(throwable.value);
      } else {
        Success(result);
      }
    }

    /** The result handler of the blocking worker task. */
    method OnWorkerResult(r: AsyncResult<T>)
      requires Valid()
      modifies this
      ensures Valid() && strategy == old(strategy)
      ensures State() == Attempt(old(State()), r)
    {
      match r
      case Succeeded(v) => Success(v);
      case Failed(c) => Failure(c);
    }

    /** `isDone()`: the future has been completed; before that neither a reference nor a cause is visible. */
    function IsDone(): (r: bool)
      reads this
      requires Valid()
      ensures r <==> future.Some?
      ensures !r ==> reference.None? && cause.None?
    {
      isDone
    }

    /** `get()`: the (nullable) result of a successful completion, null otherwise. */
    function Get(): (r: Option<T>)
      reads this
      requires Valid()
      ensures r == if future.Some? && future.value.Succeeded? then future.value.result else None
      ensures r.Some? ==> isDone && cause.None?
    {
      reference
    }

    /** `cause()`: set exactly when the reference completed with a failure, and then its cause. */
    function Cause(): (r: Option<Throwable>)
      reads this
      requires Valid()
      ensures r.Some? <==> future.Some? && future.value.Failed?
      ensures r.Some? ==> r.value == future.value.cause && reference.None?
    {
      cause
    }

    /** `orElse(d)`: the reference when it is not null, `d` otherwise. */
    function OrElse(default: Option<T>): (r: Option<T>)
      reads this
      requires Valid()
      ensures Get().Some? ==> r == Get()
      ensures Get().None? ==> r == default
    {
      if reference.Some? then reference else default
    }
  }

  /**
   * A reference that failed at construction keeps its ambiguous cause and a
   * null `get()`, whatever callbacks arrive later.
   */
  method AmbiguousIgnoresLaterCallbacks<T>(late: T) returns (ref: AsyncReferenceImpl<T>)
    ensures ref.Valid() && ref.strategy == FailedAmbiguous
    ensures ref.IsDone() && ref.Get() == None && ref.Cause() == Some(AmbiguousResolution)
  {
    ref := new AsyncReferenceImpl(2, true);
    ref.OnStageComplete(Some(late), None);
    ref.OnWorkerResult(Succeeded(Some(late)));
  }
}
