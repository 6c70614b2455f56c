/** The per-provider rate limiter of translator/ratelimit: a request bucket and a
    token bucket, each reset to its per-minute limit once a minute has passed since
    its last fill (a discrete reset, not a proportional refill).

    Time is integer nanoseconds. The clock and the context are given as a trace of
    ticks: the i-th iteration of a wait loop reads ticks[i].now as time.Now(), and
    if it has to wait, ticks[i].done says whether ctx.Done() wins the select against
    the timer. A trace that ends while a loop is still waiting yields Pending. The
    mutexes only serialize concurrent callers and are not modelled. */
module RateLimit {
  import opened Errors

  const Minute: int := 60 * 1_000_000_000

  datatype Tick = Tick(now: int, done: bool)

  datatype WaitResult =
    | Ready
    | Failed(err: Error)
    /** The tick trace ended while the caller was still blocked. */
    | Pending

  /** One bucket: its balance and the time of its last reset. */
  datatype Bucket = Bucket(balance: int, lastFill: int)

  /** The reset at the head of each loop iteration. */
  function Refill(b: Bucket, limit: int, now: int): (r: Bucket)
  {
    if now - b.lastFill >= Minute then Bucket(limit, now) else b
  }

  /** What one loop iteration does at time now: take need units, or report the
      refilled bucket and the time to wait (one minute minus the elapsed time
      measured before the reset). */
  datatype Turn = Took(after: Bucket) | Short(after: Bucket, wait: int)

  function TurnAt(b: Bucket, limit: int, need: int, now: int): Turn
  {
    var r := Refill(b, limit, now);
    if r.balance >= need then Took(Bucket(r.balance - need, r.lastFill))
    else Short(r, Minute - (now - b.lastFill))
  }

  /** The whole for {} loop of waitRequests (need 1) or waitTokens (need
      tokensNeeded) from tick i on: the outcome, the bucket afterwards and the
      index of the next unread tick. */
  function Drain(b: Bucket, limit: int, need: int, ticks: seq<Tick>, i: nat): (r: (WaitResult, Bucket, nat))
    requires i <= |ticks|
    ensures i <= r.2 <= |ticks|
    ensures r.0.Pending? ==> r.2 == |ticks|
    ensures !r.0.Pending? ==> i < r.2
    ensures r.0.Failed? ==> r.0.err == Canceled
    decreases |ticks| - i
  {
    if i == |ticks| then (Pending, b, i)
    else match TurnAt(b, limit, need, ticks[i].now)
      case Took(after) => (Ready, after, i + 1)
      case Short(after, _) =>
        if ticks[i].done then (Failed(Canceled), after, i + 1)
        else Drain(after, limit, need, ticks, i + 1)
  }

  /** A successful acquisition takes exactly need units, either from the balance the
      wait started with or from a reset to the limit at the acquiring tick; a wait
      that does not succeed takes nothing (the balance is the old one or the limit). */
  lemma {:induction false} DrainDebitsOnlyOnSuccess(b: Bucket, limit: int, need: int, ticks: seq<Tick>, i: nat)
    requires i <= |ticks|
    ensures var r := Drain(b, limit, need, ticks, i);
      if r.0.Ready? then
        || (b.balance >= need && r.1.balance + need == b.balance && r.1.lastFill == b.lastFill)
        || (limit >= need && r.1.balance + need == limit && r.1.lastFill == ticks[r.2 - 1].now)
      else r.1.balance == b.balance || r.1.balance == limit
    decreases |ticks| - i
  {
    if i < |ticks| {
      match TurnAt(b, limit, need, ticks[i].now)
      case Took(_) =>
      case Short(after, _) =>
        if !ticks[i].done {
          DrainDebitsOnlyOnSuccess(after, limit, need, ticks, i + 1);
        }
    }
  }

  /** Balances stay within 0..limit: a debit happens only when the balance suffices. */
  lemma {:induction false} DrainStaysInRange(b: Bucket, limit: int, need: int, ticks: seq<Tick>, i: nat)
    requires i <= |ticks|
    requires 0 <= need && 0 <= b.balance <= limit
    ensures 0 <= Drain(b, limit, need, ticks, i).1.balance <= limit
    decreases |ticks| - i
  {
    if i < |ticks| {
      match TurnAt(b, limit, need, ticks[i].now)
      case Took(_) =>
      case Short(after, _) =>
        if !ticks[i].done {
          DrainStaysInRange(after, limit, need, ticks, i + 1);
        }
    }
  }

  /** Asking for more than the limit never succeeds: a reset only restores the limit. */
  lemma {:induction false} NeverReadyAboveLimit(b: Bucket, limit: int, need: int, ticks: seq<Tick>, i: nat)
    requires i <= |ticks|
    requires need > limit && b.balance < need
    ensures !Drain(b, limit, need, ticks, i).0.Ready?
    decreases |ticks| - i
  {
    if i < |ticks| {
      match TurnAt(b, limit, need, ticks[i].now)
      case Took(_) =>
      case Short(after, _) =>
        if !ticks[i].done {
          NeverReadyAboveLimit(after, limit, need, ticks, i + 1);
        }
    }
  }

  /** When the (possibly reset) balance suffices, the wait succeeds at the first tick,
      without sleeping. */
  lemma ReadyAtOnce(b: Bucket, limit: int, need: int, ticks: seq<Tick>, i: nat)
    requires i < |ticks|
    requires Refill(b, limit, ticks[i].now).balance >= need
    ensures Drain(b, limit, need, ticks, i) == (Ready, Bucket(Refill(b, limit, ticks[i].now).balance - need, Refill(b, limit, ticks[i].now).lastFill), i + 1)
  {
  }

  /** The wait is positive exactly when no reset happened at that tick; after a reset
      that still leaves the bucket short (limit below need) the timer fires at once. */
  lemma WaitSign(b: Bucket, limit: int, need: int, now: int)
    requires TurnAt(b, limit, need, now).Short?
    ensures TurnAt(b, limit, need, now).wait > 0 <==> now - b.lastFill < Minute
    ensures TurnAt(b, limit, need, now).wait > 0 ==> TurnAt(b, limit, need, now).after == b
  {
  }

  /** A short bucket whose limit covers the need succeeds at the next tick, provided
      the caller really slept the computed wait: the minute has then passed and the
      bucket is reset. */
  lemma ReadyAfterWait(b: Bucket, limit: int, need: int, ticks: seq<Tick>, i: nat)
    requires i + 1 < |ticks|
    requires limit >= need
    requires TurnAt(b, limit, need, ticks[i].now).Short? && !ticks[i].done
    requires ticks[i + 1].now >= ticks[i].now + TurnAt(b, limit, need, ticks[i].now).wait
    ensures Drain(b, limit, need, ticks, i) == (Ready, Bucket(limit - need, ticks[i + 1].now), i + 2)
  {
    assert ticks[i].now - b.lastFill < Minute;
    assert ticks[i + 1].now - b.lastFill >= Minute;
  }

  /** What one Wait starts from and ends in: both buckets and the index of the
      next unread tick. */
  datatype Gate = Gate(requests: Bucket, tokens: Bucket, at: nat)

  /** Limiter.Wait as a function: the request bucket is drained for one request;
      only when that succeeds is the token bucket drained for need tokens, from the
      tick where the request wait stopped. */
  function WaitGate(g: Gate, rpm: int, tpm: int, need: int, ticks: seq<Tick>): (r: (WaitResult, Gate))
    requires g.at <= |ticks|
    ensures g.at <= r.1.at <= |ticks|
    ensures r.0.Pending? ==> r.1.at == |ticks|
    ensures r.0.Failed? ==> r.0.err == Canceled
  {
    var (rr, rb, rn) := Drain(g.requests, rpm, 1, ticks, g.at);
    if rr.Ready? then
      var (tr, tb, tn) := Drain(g.tokens, tpm, need, ticks, rn);
      (tr, Gate(rb, tb, tn))
    else (rr, Gate(rb, g.tokens, rn))
  }

  /** A successful Wait took exactly one request and need tokens, each from the
      balance it started with or from a reset to the limit; a Wait that did not
      succeed took no tokens. */
  lemma WaitGateDebits(g: Gate, rpm: int, tpm: int, need: int, ticks: seq<Tick>)
    requires g.at <= |ticks|
    ensures var (w, h) := WaitGate(g, rpm, tpm, need, ticks);
      && (w.Ready? ==>
            && (h.requests.balance + 1 == g.requests.balance || h.requests.balance + 1 == rpm)
            && (h.tokens.balance + need == g.tokens.balance || h.tokens.balance + need == tpm))
      && (!w.Ready? ==> h.tokens.balance == g.tokens.balance || h.tokens.balance == tpm)
  {
    var (rr, rb, rn) := Drain(g.requests, rpm, 1, ticks, g.at);
    DrainDebitsOnlyOnSuccess(g.requests, rpm, 1, ticks, g.at);
    if rr.Ready? {
      DrainDebitsOnlyOnSuccess(g.tokens, tpm, need, ticks, rn);
    }
  }

  /** Balances within 0..limit stay there across a Wait. */
  lemma WaitGateStaysInRange(g: Gate, rpm: int, tpm: int, need: int, ticks: seq<Tick>)
    requires g.at <= |ticks| && 0 <= need
    requires 0 <= g.requests.balance <= rpm && 0 <= g.tokens.balance <= tpm
    ensures var h := WaitGate(g, rpm, tpm, need, ticks).1;
      0 <= h.requests.balance <= rpm && 0 <= h.tokens.balance <= tpm
  {
    var (rr, rb, rn) := Drain(g.requests, rpm, 1, ticks, g.at);
    DrainStaysInRange(g.requests, rpm, 1, ticks, g.at);
    if rr.Ready? {
      DrainStaysInRange(g.tokens, tpm, need, ticks, rn);
    }
  }

  /** ratelimit.Limiter. The ghost counters record how many requests and tokens
      have been granted so far; they let callers state what a sequence of waits
      consumed even though each reset discards the balance. */
  class Limiter {
    var tpm: int
    var rpm: int
    var tokens: int
    var tokensLastFill: int
    var requests: int
    var requestsLastFill: int
    ghost var requestsGranted: nat
    ghost var tokensGranted: nat

    ghost predicate Valid()
      reads this
    {
      0 <= tpm && 0 <= rpm && 0 <= tokens && 0 <= requests
    }

    ghost function RequestBucket(): Bucket
      reads this
    {
      Bucket(requests, requestsLastFill)
    }

    ghost function TokenBucket(): Bucket
      reads this
    {
      Bucket(tokens, tokensLastFill)
    }

    /** NewLimiter(tpm, rpm): both buckets start full, last filled at creation time. */
    constructor (tpm: nat, rpm: nat, now: int)
      ensures Valid()
      ensures this.tpm == tpm && this.rpm == rpm
      ensures tokens == tpm && requests == rpm
      ensures tokensLastFill == now && requestsLastFill == now
      ensures requestsGranted == 0 && tokensGranted == 0
    {
      this.tpm := tpm;
      this.rpm := rpm;
      tokens := tpm;
      tokensLastFill := now;
      requests := rpm;
      requestsLastFill := now;
      requestsGranted := 0;
      tokensGranted := 0;
    }

    /** waitRequests: the for {} loop over the request bucket, from tick `from` on. */
    method WaitRequests(ticks: seq<Tick>, from: nat) returns (r: WaitResult, next: nat)
      requires Valid() && from <= |ticks|
      modifies this
      ensures Valid()
      ensures (r, RequestBucket(), next) == Drain(old(RequestBucket()), rpm, 1, ticks, from)
      ensures tpm == old(tpm) && rpm == old(rpm) && TokenBucket() == old(TokenBucket())
      ensures requestsGranted == old(requestsGranted) + (if r.Ready? then 1 else 0)
      ensures tokensGranted == old(tokensGranted)
    {
      var i := from;
      while i < |ticks|
        invariant from <= i <= |ticks|
        invariant Valid()
        invariant Drain(RequestBucket(), rpm, 1, ticks, i) == Drain(old(RequestBucket()), rpm, 1, ticks, from)
        invariant tpm == old(tpm) && rpm == old(rpm) && TokenBucket() == old(TokenBucket())
        invariant requestsGranted == old(requestsGranted) && tokensGranted == old(tokensGranted)
        decreases |ticks| - i
      {
        var now := ticks[i].now;
        var elapsed := now - requestsLastFill;
        if elapsed >= Minute {
          requests := rpm;
          requestsLastFill := now;
        }
        if requests > 0 {
          requests := requests - 1;
          requestsGranted := requestsGranted + 1;
          return Ready, i + 1;
        }
        // the caller now sleeps Minute - elapsed, unless the context is done first
        if ticks[i].done {
          return Failed(Canceled), i + 1;
        }
        i := i + 1;
      }
      return Pending, i;
    }

    /** waitTokens: the for {} loop over the token bucket, from tick `from` on. */
    method WaitTokens(ticks: seq<Tick>, from: nat, tokensNeeded: nat) returns (r: WaitResult, next: nat)
      requires Valid() && from <= |ticks|
      modifies this
      ensures Valid()
      ensures (r, TokenBucket(), next) == Drain(old(TokenBucket()), tpm, tokensNeeded, ticks, from)
      ensures tpm == old(tpm) && rpm == old(rpm) && RequestBucket() == old(RequestBucket())
      ensures tokensGranted == old(tokensGranted) + (if r.Ready? then tokensNeeded else 0)
      ensures requestsGranted == old(requestsGranted)
    {
      var i := from;
      while i < |ticks|
        invariant from <= i <= |ticks|
        invariant Valid()
        invariant Drain(TokenBucket(), tpm, tokensNeeded, ticks, i) == Drain(old(TokenBucket()), tpm, tokensNeeded, ticks, from)
        invariant tpm == old(tpm) && rpm == old(rpm) && RequestBucket() == old(RequestBucket())
        invariant requestsGranted == old(requestsGranted) && tokensGranted == old(tokensGranted)
        decreases |ticks| - i
      {
        var now := ticks[i].now;
        var elapsed := now - tokensLastFill;
        if elapsed >= Minute {
          tokens := tpm;
          tokensLastFill := now;
        }
        if tokens >= tokensNeeded {
          tokens := tokens - tokensNeeded;
          tokensGranted := tokensGranted + tokensNeeded;
          return Ready, i + 1;
        }
        // the caller now sleeps Minute - elapsed, unless the context is done first
        if ticks[i].done {
          return Failed(Canceled), i + 1;
        }
        i := i + 1;
      }
      return Pending, i;
    }

    /** Wait(ctx, tokensNeeded): the request bucket first, then the token bucket. A
        request taken stays taken when the token wait is then cancelled. */
    method Wait(ticks: seq<Tick>, from: nat, tokensNeeded: nat) returns (r: WaitResult, next: nat)
      requires Valid() && from <= |ticks|
      modifies this
      ensures Valid()
      ensures from <= next <= |ticks|
      ensures tpm == old(tpm) && rpm == old(rpm)
      ensures var (rr, rb, rn) := Drain(old(RequestBucket()), rpm, 1, ticks, from);
        && RequestBucket() == rb
        && (if rr.Ready? then (r, TokenBucket(), next) == Drain(old(TokenBucket()), tpm, tokensNeeded, ticks, rn)
            else r == rr && next == rn && TokenBucket() == old(TokenBucket()))
        && requestsGranted == old(requestsGranted) + (if rr.Ready? then 1 else 0)
      ensures (r, Gate(RequestBucket(), TokenBucket(), next))
        == WaitGate(Gate(old(RequestBucket()), old(TokenBucket()), from), rpm, tpm, tokensNeeded, ticks)
      ensures tokensGranted == old(tokensGranted) + (if r.Ready? then tokensNeeded else 0)
      ensures r.Ready? ==> requestsGranted == old(requestsGranted) + 1
    {
      r, next := WaitRequests(ticks, from);
      if !r.Ready? {
        return;
      }
      r, next := WaitTokens(ticks, next, tokensNeeded);
    }

    /** SetTPM: only the limit changes; the balance and its last-fill time are kept
        and the new limit takes effect at the next reset. */
    method SetTPM(tpm: nat)
      requires Valid()
      modifies this
      ensures Valid()
      ensures this.tpm == tpm && rpm == old(rpm)
      ensures TokenBucket() == old(TokenBucket()) && RequestBucket() == old(RequestBucket())
      ensures requestsGranted == old(requestsGranted) && tokensGranted == old(tokensGranted)
    {
      this.tpm := tpm;
    }

    /** SetRPM: only the limit changes, as for SetTPM. */
    method SetRPM(rpm: nat)
      requires Valid()
      modifies this
      ensures Valid()
      ensures this.rpm == rpm && tpm == old(tpm)
      ensures TokenBucket() == old(TokenBucket()) && RequestBucket() == old(RequestBucket())
      ensures requestsGranted == old(requestsGranted) && tokensGranted == old(tokensGranted)
    {
      this.rpm := rpm;
    }
  }
}
