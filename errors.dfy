/** Go's error values, as far as the translator packages use them: plain errors,
    the retry package's typed wrapper, fmt.Errorf wrappers (%w) and the
    context's cancellation error. */
module Errors {

  datatype Option<T> = None | Some(value: T)

  datatype Error =
    /** An error created by errors.New, by fmt.Errorf without %w, or returned by a vendor SDK. */
    | Plain(text: string)
    /** retry.RetryableError{Err, StatusCode}. */
    | Retryable(err: Error, statusCode: int)
    /** fmt.Errorf(prefix + "%w", cause); the cause may be nil. */
    | Wrapped(prefix: string, cause: Option<Error>)
    /** context.Canceled, returned by ctx.Err() once the context is done. */
    | Canceled

  /** A value or an error, for Go's (T, error) results. */
  datatype Result<T> = Ok(value: T) | Err(error: Error)

  /** The text fmt prints for a nil operand of %w. */
  const NilOperand: string := "%!w(<nil>)"

  /** err.Error(). */
  function Message(e: Error): string
  {
    match e
    case Plain(t) => t
    case Retryable(inner, _) => Message(inner)
    case Wrapped(p, None) => p + NilOperand
    case Wrapped(p, Some(c)) => p + Message(c)
    case Canceled => "context canceled"
  }

  /** errors.Unwrap(err). */
  function Unwrap(e: Error): Option<Error>
  {
    match e
    case Retryable(inner, _) => Some(inner)
    case Wrapped(_, cause) => cause
    case _ => None
  }

  /** The wrap chain that errors.Is and errors.As walk: e, Unwrap(e), Unwrap(Unwrap(e)), ... */
  function Chain(e: Error): (c: seq<Error>)
    ensures |c| >= 1 && c[0] == e
    ensures forall i :: 0 <= i < |c| - 1 ==> Unwrap(c[i]) == Some(c[i + 1])
    ensures Unwrap(c[|c| - 1]) == None
  {
    match Unwrap(e)
    case None => [e]
    case Some(inner) => [e] + Chain(inner)
  }

  /** errors.Is(err, target) for comparable targets. */
  predicate Is(e: Error, target: Error)
  {
    target in Chain(e)
  }

  /** A RetryableError reports the wrapped error's message and unwraps to it, so
      errors.Is sees through it. */
  lemma RetryableIsTransparent(inner: Error, statusCode: int)
    ensures Message(Retryable(inner, statusCode)) == Message(inner)
    ensures Unwrap(Retryable(inner, statusCode)) == Some(inner)
    ensures Is(Retryable(inner, statusCode), inner)
  {
    assert Chain(Retryable(inner, statusCode))[1] == inner;
  }

  /** Wrapping with %w keeps the cause reachable and appends its message. */
  lemma WrappedKeepsCause(prefix: string, cause: Error)
    ensures Is(Wrapped(prefix, Some(cause)), cause)
    ensures Message(Wrapped(prefix, Some(cause))) == prefix + Message(cause)
  {
    assert Chain(Wrapped(prefix, Some(cause)))[1] == cause;
  }
}
