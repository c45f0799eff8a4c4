/**
 * The errors a task attempt returns, and how the worker's queue server classifies them:
 * the retry delay (RetryDelay) and whether the attempt counts as a failure (IsFailure).
 */
module RetryPolicy {
  import opened GoBasics
  import opened Wrappers
  import Tasks

  datatype TaskError =
    | RateLimitError(retryIn: Duration)   // *RateLimitError, the admission denial
    | SkipRetry                           // asynq.SkipRetry
    | DecodeError                         // json.Unmarshal of the payload failed
    | UnexpectedTaskType(typeName: string)
    | QueryError                          // a store query failed
    | FsError                             // os.Mkdir or os.Create failed
    | Wrapped(inner: TaskError)           // an error wrapping another with %w

  /** target is err itself or is reached by unwrapping it, as errors.As searches the chain. */
  predicate Unwraps(err: TaskError, target: TaskError)
  {
    err == target || (err.Wrapped? && Unwraps(err.inner, target))
  }

  /** errors.As(err, &target) for a target of type *RateLimitError. */
  function AsRateLimitError(err: TaskError): (r: Option<Duration>)
    ensures r.Some? ==> Unwraps(err, RateLimitError(r.value))
    ensures r.None? ==> forall d: Duration :: !Unwraps(err, RateLimitError(d))
  {
    match err
    case RateLimitError(d) => Some(d)
    case Wrapped(inner) => AsRateLimitError(inner)
    case _ => None
  }

  /** A chain holds at most one rate-limit error, and errors.As finds it. */
  lemma {:induction false} AsRateLimitErrorFinds(err: TaskError, d: Duration)
    requires Unwraps(err, RateLimitError(d))
    ensures AsRateLimitError(err) == Some(d)
  {
    if err != RateLimitError(d) {
      AsRateLimitErrorFinds(err.inner, d);
    }
  }

  lemma AsRateLimitErrorFindsAll(err: TaskError)
    ensures forall d: Duration :: Unwraps(err, RateLimitError(d)) ==> AsRateLimitError(err) == Some(d)
  {
    forall d: Duration | Unwraps(err, RateLimitError(d)) {
      AsRateLimitErrorFinds(err, d);
    }
  }

  /** IsRateLimitError: the type assertion err.(*RateLimitError), which does not unwrap. */
  function IsRateLimitError(err: TaskError): (b: bool)
    ensures b ==> err.RateLimitError? && AsRateLimitError(err) == Some(err.retryIn)
    ensures !err.Wrapped? ==> (b <==> AsRateLimitError(err).Some?)
    ensures err.Wrapped? ==> !b
  {
    err.RateLimitError?
  }

  /**
   * RetryDelay: the delay a rate-limit error anywhere in the chain asks for, or else the queue's
   * default delay for the n-th retry.
   */
  function RetryDelay(n: int, err: TaskError, task: Tasks.Task,
                      defaultDelay: (int, TaskError, Tasks.Task) -> Duration): (d: Duration)
    ensures forall k: Duration :: Unwraps(err, RateLimitError(k)) ==> d == k
    ensures (forall k: Duration :: !Unwraps(err, RateLimitError(k))) ==> d == defaultDelay(n, err, task)
  {
    AsRateLimitErrorFindsAll(err);
    match AsRateLimitError(err)
    case Some(k) => k
    case None => defaultDelay(n, err, task)
  }

  /** The queue server's IsFailure hook: every error except a rate-limit one counts as a failure. */
  function IsFailure(err: TaskError): (b: bool)
    ensures b <==> !err.RateLimitError?
  {
    !IsRateLimitError(err)
  }

  /**
   * On an unwrapped error the two classifications agree: an error gets the rate-limit delay
   * exactly when it is not counted as a failure.
   */
  lemma FailureMatchesDelay(err: TaskError)
    requires !err.Wrapped?
    ensures IsFailure(err) <==> AsRateLimitError(err).None?
  {
  }

  /**
   * On a wrapped one they part: RetryDelay unwraps and uses the jittered delay, and IsFailure,
   * which does not unwrap, counts the denial as a failure.
   */
  lemma WrappedDenialCountsAsFailure(n: int, k: Duration, task: Tasks.Task,
                                     defaultDelay: (int, TaskError, Tasks.Task) -> Duration)
    ensures RetryDelay(n, Wrapped(RateLimitError(k)), task, defaultDelay) == k
    ensures IsFailure(Wrapped(RateLimitError(k)))
  {
  }
}
