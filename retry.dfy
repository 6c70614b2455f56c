/** The retry policy of translator/retry: a typed retryable-error marker, a bounded
    attempt loop and exponential backoff capped at a maximum.

    Durations are integer nanoseconds (Go's time.Duration); the multiplier is a
    natural number. The operation and the context are oracles: op(k) is what the
    k-th call of the operation returns, done(k) whether the context is done when
    the select after the k-th attempt is reached. */
module Retry {
  import opened Errors

  const Nanosecond: nat := 1
  const Second: nat := 1_000_000_000 * Nanosecond

  datatype Config = Config(maxRetries: int, initialBackoff: nat, maxBackoff: nat, multiplier: nat)

  /** IsRetryable(err): errors.As finds a RetryableError somewhere on err's wrap
      chain; a nil error is not retryable. */
  predicate IsRetryable(err: Option<Error>)
    decreases if err.Some? then |Chain(err.value)| else 0
  {
    match err
    case None => false
    case Some(Retryable(_, _)) => true
    case Some(e) => IsRetryable(Unwrap(e))
  }

  lemma {:induction false} IsRetryableIffOnChain(e: Error)
    ensures IsRetryable(Some(e)) <==> exists i :: 0 <= i < |Chain(e)| && Chain(e)[i].Retryable?
    decreases |Chain(e)|
  {
    var c := Chain(e);
    if e.Retryable? {
      assert c[0].Retryable?;
    } else {
      match Unwrap(e)
      case None =>
        assert c == [e];
      case Some(inner) =>
        assert c == [e] + Chain(inner);
        IsRetryableIffOnChain(inner);
        if exists i :: 0 <= i < |Chain(inner)| && Chain(inner)[i].Retryable? {
          var i :| 0 <= i < |Chain(inner)| && Chain(inner)[i].Retryable?;
          assert c[i + 1] == Chain(inner)[i];
        }
        if exists i :: 0 <= i < |c| && c[i].Retryable? {
          var i :| 0 <= i < |c| && c[i].Retryable?;
          assert i > 0 && Chain(inner)[i - 1] == c[i];
        }
    }
  }

  /** Wrapping with %w keeps an error retryable; a plain error never is. */
  lemma IsRetryableExamples(inner: Error, prefix: string, text: string)
    ensures IsRetryable(Some(Retryable(inner, 429)))
    ensures IsRetryable(Some(Wrapped(prefix, Some(Retryable(inner, 0)))))
    ensures !IsRetryable(Some(Plain(text)))
    ensures !IsRetryable(Some(Canceled))
    ensures !IsRetryable(None)
  {
  }

  /** DefaultConfig(): 3 retries, 1s initial backoff, 30s cap, multiplier 2. */
  function DefaultConfig(): (c: Config)
    ensures c.maxRetries > 0 && c.initialBackoff > 0 && c.maxBackoff > 0 && c.multiplier > 1
  {
    Config(3, 1 * Second, 30 * Second, 2)
  }

  /** Do's first statement: a nil config is replaced by DefaultConfig(). */
  function Resolve(config: Option<Config>): (c: Config)
    ensures config.None? ==> c.maxRetries == 3 && c.initialBackoff == Second && c.maxBackoff == 30 * Second && c.multiplier == 2
    ensures config.Some? ==> c == config.value
  {
    if config.None? then DefaultConfig() else config.value
  }

  function Pow(b: nat, k: nat): nat
  {
    if k == 0 then 1 else b * Pow(b, k - 1)
  }

  lemma {:induction false} PowMonotone(b: nat, k: nat)
    requires b >= 1
    ensures Pow(b, k) <= Pow(b, k + 1)
    ensures Pow(b, k) >= 1
  {
    if k > 0 {
      PowMonotone(b, k - 1);
    }
  }

  /** calculateBackoff(config, attempt) = min(InitialBackoff * Multiplier^attempt, MaxBackoff). */
  function Backoff(cfg: Config, attempt: nat): nat
  {
    var raw := cfg.initialBackoff * Pow(cfg.multiplier, attempt);
    if raw > cfg.maxBackoff then cfg.maxBackoff else raw
  }

  /** Powers of a base of at least one never shrink as the exponent grows. */
  lemma {:induction false} PowGrows(b: nat, j: nat, k: nat)
    requires b >= 1 && j <= k
    ensures Pow(b, j) <= Pow(b, k)
  {
    if j < k {
      PowGrows(b, j, k - 1);
      PowMonotone(b, k - 1);
    }
  }

  /** The backoff never exceeds the cap and grows with the attempt number. */
  lemma BackoffBoundedAndMonotone(cfg: Config, attempt: nat)
    requires cfg.multiplier >= 1
    ensures Backoff(cfg, attempt) <= cfg.maxBackoff
    ensures Backoff(cfg, attempt) <= Backoff(cfg, attempt + 1)
  {
    PowMonotone(cfg.multiplier, attempt);
    assert Pow(cfg.multiplier, attempt + 1) == cfg.multiplier * Pow(cfg.multiplier, attempt);
    assert cfg.initialBackoff * Pow(cfg.multiplier, attempt) <= cfg.initialBackoff * Pow(cfg.multiplier, attempt + 1);
  }

  /** The backoffs slept before attempts 1..n: Backoff(cfg, 0), ..., Backoff(cfg, n - 1). */
  function Schedule(cfg: Config, n: nat): (s: seq<nat>)
    ensures |s| == n
    ensures forall k :: 0 <= k < n ==> s[k] == Backoff(cfg, k)
  {
    if n == 0 then [] else Schedule(cfg, n - 1) + [Backoff(cfg, n - 1)]
  }

  /** With the default configuration the sleeps are 1s, 2s, 4s; a fourth and fifth
      would be 8s and 16s, and from the sixth on the 30s cap applies. */
  lemma DefaultSchedule()
    ensures Schedule(DefaultConfig(), 3) == [1 * Second, 2 * Second, 4 * Second]
    ensures Backoff(DefaultConfig(), 3) == 8 * Second && Backoff(DefaultConfig(), 4) == 16 * Second
    ensures forall k: nat :: k >= 5 ==> Backoff(DefaultConfig(), k) == 30 * Second
  {
    assert Pow(2, 5) == 32;
    forall k: nat | k >= 5
      ensures Backoff(DefaultConfig(), k) == 30 * Second
    {
      PowGrows(2, 5, k);
      assert Second * Pow(2, k) >= Second * 32;
    }
  }

  /** The first n results of an oracle. */
  function Prefix<T>(f: nat -> T, n: nat): (s: seq<T>)
    ensures |s| == n
    ensures forall k :: 0 <= k < n ==> s[k] == f(k)
  {
    if n == 0 then [] else Prefix(f, n - 1) + [f(n - 1)]
  }

  /** What a run of Do looks like: results[k] is what the k-th call returned,
      dones[k] whether the context was done at the select after it, err what Do
      returned. Every attempt but the last failed retryably and its backoff sleep
      completed; the last one decides the exit: success, a non-retryable error,
      exhausted attempts (the last error is returned) or cancellation during the
      backoff. A negative MaxRetries runs no attempt and reports success. */
  ghost predicate Trace(cfg: Config, results: seq<Option<Error>>, dones: seq<bool>, err: Option<Error>)
  {
    && |dones| == |results|
    && if cfg.maxRetries < 0 then results == [] && err == None
       else
         && 1 <= |results| <= cfg.maxRetries + 1
         && (forall k :: 0 <= k < |results| - 1 ==> IsRetryable(results[k]) && !dones[k])
         && var n := |results|;
            var last := results[n - 1];
            if last.None? then err == None
            else if !IsRetryable(last) || n - 1 == cfg.maxRetries then err == last
            else dones[n - 1] && err == Some(Canceled)
  }

  /** Do(ctx, config, operation). Besides Do's error it returns the number of calls
      and the backoffs actually slept. */
  method Do(config: Option<Config>, op: nat -> Option<Error>, done: nat -> bool)
    returns (err: Option<Error>, calls: nat, waits: seq<nat>)
    ensures Trace(Resolve(config), Prefix(op, calls), Prefix(done, calls), err)
    ensures waits == Schedule(Resolve(config), if calls == 0 then 0 else calls - 1)
  {
    var cfg := Resolve(config);
    var lastErr: Option<Error> := None;
    var attempt: nat := 0;
    calls, waits := 0, [];
    while attempt <= cfg.maxRetries
      invariant calls == attempt && attempt <= if cfg.maxRetries < 0 then 0 else cfg.maxRetries
      invariant forall k :: 0 <= k < attempt ==> IsRetryable(op(k)) && !done(k)
      invariant waits == Schedule(cfg, attempt)
      invariant lastErr == if attempt == 0 then None else op(attempt - 1)
      decreases cfg.maxRetries - attempt
    {
      var e := op(attempt);
      calls := calls + 1;
      if e.None? {
        return None, calls, waits;
      }
      lastErr := e;
      if !IsRetryable(e) {
        return e, calls, waits;
      }
      // no sleep after the last attempt
      if attempt == cfg.maxRetries {
        break;
      }
      var backoff := Backoff(cfg, attempt);
      if done(attempt) {
        return Some(Canceled), calls, waits;
      }
      waits := waits + [backoff];
      attempt := attempt + 1;
    }
    return lastErr, calls, waits;
  }

  /** An operation that succeeds at once is called exactly once and Do succeeds. */
  lemma SucceedsOnFirstCall(cfg: Config, op: nat -> Option<Error>, done: nat -> bool, calls: nat, err: Option<Error>)
    requires Trace(cfg, Prefix(op, calls), Prefix(done, calls), err)
    requires cfg.maxRetries >= 0 && op(0).None?
    ensures calls == 1 && err == None
  {
    assert !IsRetryable(Prefix(op, calls)[0]);
  }

  /** A non-retryable error is returned unchanged after exactly one call, with no backoff. */
  lemma NonRetryableStopsAtOnce(cfg: Config, op: nat -> Option<Error>, done: nat -> bool, calls: nat, err: Option<Error>)
    requires Trace(cfg, Prefix(op, calls), Prefix(done, calls), err)
    requires cfg.maxRetries >= 0 && op(0).Some? && !IsRetryable(op(0))
    ensures calls == 1 && err == op(0)
    ensures Schedule(cfg, calls - 1) == []
  {
    assert !IsRetryable(Prefix(op, calls)[0]);
  }

  /** An operation that keeps failing retryably is called MaxRetries + 1 times and
      Do returns the last error, after MaxRetries sleeps. */
  lemma ExhaustsAttempts(cfg: Config, op: nat -> Option<Error>, done: nat -> bool, calls: nat, err: Option<Error>)
    requires Trace(cfg, Prefix(op, calls), Prefix(done, calls), err)
    requires cfg.maxRetries >= 0
    requires forall k :: IsRetryable(op(k)) && !done(k)
    ensures calls == cfg.maxRetries + 1 && err == op(cfg.maxRetries)
    ensures |Schedule(cfg, calls - 1)| == cfg.maxRetries
  {
    var r := Prefix(op, calls);
    assert r[calls - 1] == op(calls - 1) && IsRetryable(r[calls - 1]);
    assert !Prefix(done, calls)[calls - 1];
  }

  /** Retryable failures followed by a success: Do succeeds after exactly m + 1 calls. */
  lemma SucceedsAfterRetries(cfg: Config, op: nat -> Option<Error>, done: nat -> bool, m: nat, calls: nat, err: Option<Error>)
    requires Trace(cfg, Prefix(op, calls), Prefix(done, calls), err)
    requires m <= cfg.maxRetries
    requires forall k :: 0 <= k < m ==> IsRetryable(op(k)) && !done(k)
    requires op(m).None?
    ensures calls == m + 1 && err == None
  {
    var r, d := Prefix(op, calls), Prefix(done, calls);
    var i := if m < calls - 1 then m else calls - 1;
    assert r[calls - 1] == op(calls - 1) && d[calls - 1] == done(calls - 1);
    assert r[i] == op(i);
  }

  /** Cancellation while sleeping after attempt j ends Do with the context's error. */
  lemma CanceledDuringBackoff(cfg: Config, op: nat -> Option<Error>, done: nat -> bool, j: nat, calls: nat, err: Option<Error>)
    requires Trace(cfg, Prefix(op, calls), Prefix(done, calls), err)
    requires j < cfg.maxRetries
    requires forall k :: 0 <= k <= j ==> IsRetryable(op(k))
    requires forall k :: 0 <= k < j ==> !done(k)
    requires done(j)
    ensures calls == j + 1 && err == Some(Canceled)
  {
    var r, d := Prefix(op, calls), Prefix(done, calls);
    var i := if j < calls - 1 then j else calls - 1;
    assert r[calls - 1] == op(calls - 1) && d[calls - 1] == done(calls - 1);
    assert r[i] == op(i) && d[i] == done(i);
  }

  /** Trace pins the run down: for given oracles there is one number of calls and
      one returned error. */
  lemma TraceIsDeterministic(cfg: Config, op: nat -> Option<Error>, done: nat -> bool,
                             n1: nat, e1: Option<Error>, n2: nat, e2: Option<Error>)
    requires Trace(cfg, Prefix(op, n1), Prefix(done, n1), e1)
    requires Trace(cfg, Prefix(op, n2), Prefix(done, n2), e2)
    ensures n1 == n2 && e1 == e2
  {
    if cfg.maxRetries >= 0 {
      var m := if n1 < n2 then n1 else n2;
      var r1, d1 := Prefix(op, n1), Prefix(done, n1);
      var r2, d2 := Prefix(op, n2), Prefix(done, n2);
      assert r1[m - 1] == op(m - 1) == r2[m - 1];
      assert d1[m - 1] == done(m - 1) == d2[m - 1];
    }
  }
}
