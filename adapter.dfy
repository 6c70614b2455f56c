/** The part the three provider adapters (gemini, openai, anthropic) share: the
    token estimate, the user prompt, and the Translate and TranslateBatch methods.
    The three vendors' Translate bodies are the same code apart from the provider
    name, so one class stands for the three Provider structs; what differs per
    vendor (the SDK request, the shaping of the SDK's answer, the error classifier
    and the price table) lives in the vendor modules.

    The SDK call is an oracle: call(k) is what the vendor's translate returns at
    the k-th attempt. Clock and context are a tick trace for the limiter and
    canceled(k), whether the context is done when the retry loop's backoff select
    after attempt k is reached. */
module Adapter {
  import opened Errors
  import opened Translator
  import Text
  import Retry
  import RateLimit

  /** A finished call, or one still blocked in the limiter when the ticks ran out. */
  datatype Outcome<T> = Done(result: Result<T>) | Pending

  /** One pass of the closure Translate hands to retry.Do: the limiter wait and,
      if the wait succeeded, the vendor call's answer. */
  datatype Attempt = Attempt(wait: RateLimit.WaitResult, answer: Option<Result<TranslationResponse>>)

  const FailedSuffix: string := " translate failed: "
  const BatchFailedAt: string := "batch translate failed at index "

  /** The token estimate of one attempt: a quarter of the text's length in bytes,
      but at least 100. */
  function EstimateTokens(text: string): (n: nat)
    ensures n >= 100 && n >= |text| / 4
    ensures n == 100 || n == |text| / 4
  {
    var estimated := |text| / 4;
    if estimated < 100 then 100 else estimated
  }

  /** The fixed wording of the user prompt around the two languages and the text. */
  const PromptHead := "Translate the following text from "
  const PromptTo := " to "
  const PromptBreak := ":\n\n"

  /** "Translate the following text from <src> to <tgt>:\n\n<text>", the user
      prompt of the gemini and openai adapters and the tail of anthropic's:
      the fixed wording with the source language, the target language and the
      text each in its place, and nothing else. */
  function UserPrompt(req: TranslationRequest): (p: string)
    ensures |p| == |PromptHead| + |req.sourceLanguage| + |PromptTo| + |req.targetLanguage| + |PromptBreak| + |req.text|
    ensures Text.OccursAt(PromptHead, p, 0)
    ensures Text.OccursAt(req.sourceLanguage, p, |PromptHead|)
    ensures Text.OccursAt(PromptTo, p, |PromptHead| + |req.sourceLanguage|)
    ensures Text.OccursAt(req.targetLanguage, p, |PromptHead| + |req.sourceLanguage| + |PromptTo|)
    ensures Text.OccursAt(PromptBreak, p, |PromptHead| + |req.sourceLanguage| + |PromptTo| + |req.targetLanguage|)
    ensures Text.OccursAt(req.text, p, |p| - |req.text|)
  {
    Text.LayoutOfSix(PromptHead, req.sourceLanguage, PromptTo, req.targetLanguage, PromptBreak, req.text);
    PromptHead + req.sourceLanguage + PromptTo + req.targetLanguage + PromptBreak + req.text
  }

  /** What a vendor's translate returns for an SDK error: the error wrapped in a
      RetryableError (status code 0) when the vendor's classifier says so, the
      error itself otherwise. */
  function Classified(e: Error, retryable: bool): (r: Error)
    ensures Message(r) == Message(e)
    ensures Retry.IsRetryable(Some(r)) <==> retryable || Retry.IsRetryable(Some(e))
    ensures Errors.Is(r, e)
  {
    Errors.RetryableIsTransparent(e, 0);
    Retry.IsRetryableExamples(e, [], []);
    if retryable then Retryable(e, 0) else e
  }

  /** The error the closure returns to retry.Do for one attempt (None for success). */
  function Returned(a: Attempt): Option<Error>
  {
    match a.wait
    case Failed(e) => Some(e)
    case Pending => None
    case Ready => if a.answer.Some? && a.answer.value.Err? then Some(a.answer.value.error) else None
  }

  function ClosureResults(attempts: seq<Attempt>): (rs: seq<Option<Error>>)
    ensures |rs| == |attempts|
    ensures forall k :: 0 <= k < |attempts| ==> rs[k] == Returned(attempts[k])
  {
    if attempts == [] then [] else ClosureResults(attempts[..|attempts| - 1]) + [Returned(attempts[|attempts| - 1])]
  }

  /** The closure's captured lastErr: the error of the latest vendor call that
      failed; a limiter failure does not set it. */
  function LastApiError(attempts: seq<Attempt>): Option<Error>
  {
    if attempts == [] then None
    else
      var a := attempts[|attempts| - 1];
      if a.answer.Some? && a.answer.value.Err? then Some(a.answer.value.error)
      else LastApiError(attempts[..|attempts| - 1])
  }

  /** The number of attempts whose limiter wait succeeded, i.e. of vendor calls. */
  function ApiCalls(attempts: seq<Attempt>): (n: nat)
    ensures n <= |attempts|
  {
    if attempts == [] then 0
    else ApiCalls(attempts[..|attempts| - 1]) + (if attempts[|attempts| - 1].wait.Ready? then 1 else 0)
  }

  /** The attempts made a vendor call exactly when their wait succeeded, and the
      k-th attempt's call answered call(k). */
  ghost predicate Log(attempts: seq<Attempt>, call: nat -> Result<TranslationResponse>)
  {
    forall k :: 0 <= k < |attempts| ==>
      if attempts[k].wait.Ready? then attempts[k].answer == Some(call(k)) else attempts[k].answer == None
  }

  /** One run of a provider's Translate: the attempts it made, the error retry.Do
      returned and the outcome. Every attempt but the last passed the limiter and
      failed retryably without the context being done; a finished run is a run of
      retry.Do whose results are the closure's returns; success returns the last
      call's response stamped with the provider name; failure wraps the last
      vendor error (not a limiter error) under "<name> translate failed: ". */
  ghost predicate Run(name: string, cfg: Retry.Config, call: nat -> Result<TranslationResponse>, canceled: nat -> bool,
                      attempts: seq<Attempt>, doErr: Option<Error>, r: Outcome<TranslationResponse>)
  {
    && 1 <= |attempts|
    && Log(attempts, call)
    && (forall k :: 0 <= k < |attempts| - 1 ==>
          attempts[k].wait.Ready? && Retry.IsRetryable(Returned(attempts[k])) && !canceled(k))
    && (r.Pending? <==> attempts[|attempts| - 1].wait.Pending?)
    && (r.Done? ==> Retry.Trace(cfg, ClosureResults(attempts), Retry.Prefix(canceled, |attempts|), doErr))
    && (r.Done? && doErr.None? ==>
          call(|attempts| - 1).Ok? && r.result == Ok(call(|attempts| - 1).value.(provider := name)))
    && (r.Done? && doErr.Some? ==> r.result == Err(Wrapped(name + FailedSuffix, LastApiError(attempts))))
  }

  /** Attempts that all passed the limiter made one vendor call each. */
  lemma {:induction false} AllReadyCalls(attempts: seq<Attempt>)
    requires forall k :: 0 <= k < |attempts| ==> attempts[k].wait.Ready?
    ensures ApiCalls(attempts) == |attempts|
  {
    if attempts != [] {
      AllReadyCalls(attempts[..|attempts| - 1]);
    }
  }

  /** Every attempt of a run but the last called the vendor, the last one did if
      its wait succeeded: k attempts take k or k - 1 vendor calls, and as many
      token estimates from the limiter. */
  lemma {:induction false} RunApiCalls(name: string, cfg: Retry.Config, call: nat -> Result<TranslationResponse>, canceled: nat -> bool,
                    attempts: seq<Attempt>, doErr: Option<Error>, r: Outcome<TranslationResponse>)
    requires Run(name, cfg, call, canceled, attempts, doErr, r)
    ensures ApiCalls(attempts) == |attempts| - 1 + (if attempts[|attempts| - 1].wait.Ready? then 1 else 0)
  {
    var n := |attempts|;
    AllReadyCalls(attempts[..n - 1]);
    assert attempts == attempts[..n - 1] + [attempts[n - 1]];
    StepFacts(attempts[..n - 1], attempts[n - 1]);
  }

  /** An attempt appended to a log: the counters and lastErr after it. */
  lemma {:induction false} StepFacts(attempts: seq<Attempt>, a: Attempt)
    ensures ApiCalls(attempts + [a]) == ApiCalls(attempts) + (if a.wait.Ready? then 1 else 0)
    ensures LastApiError(attempts + [a]) ==
      if a.answer.Some? && a.answer.value.Err? then Some(a.answer.value.error) else LastApiError(attempts)
  {
    assert (attempts + [a])[..|attempts|] == attempts;
  }

  /** A run that ended in success returned the last call's response, stamped
      with the provider name. */
  lemma {:induction false} RunSucceeded(name: string, cfg: Retry.Config, call: nat -> Result<TranslationResponse>, canceled: nat -> bool,
                                        attempts: seq<Attempt>, doErr: Option<Error>, r: Outcome<TranslationResponse>)
    requires Run(name, cfg, call, canceled, attempts, doErr, r)
    requires r.Done? && r.result.Ok?
    ensures call(|attempts| - 1).Ok? && r.result.value == call(|attempts| - 1).value.(provider := name)
  {
    assert doErr.None?;
  }

  /** An operation that answers at the first attempt is called once and its
      response, stamped with the provider name, is returned. */
  lemma {:induction false} RunFirstSuccess(name: string, cfg: Retry.Config, call: nat -> Result<TranslationResponse>, canceled: nat -> bool,
                        attempts: seq<Attempt>, doErr: Option<Error>, r: Outcome<TranslationResponse>)
    requires Run(name, cfg, call, canceled, attempts, doErr, r)
    requires cfg.maxRetries >= 0 && attempts[0].wait.Ready? && call(0).Ok?
    ensures |attempts| == 1 && r == Done(Ok(call(0).value.(provider := name)))
  {
    assert Returned(attempts[0]) == None;
    assert !Retry.IsRetryable(Returned(attempts[0]));
    assert r.Done?;
    Retry.IsRetryableExamples(Canceled, [], []);
  }

  /** A finished run whose last attempt failed retryably without the context
      being done used up every attempt. */
  lemma {:induction false} RunEndsAtMax(name: string, cfg: Retry.Config, call: nat -> Result<TranslationResponse>, canceled: nat -> bool,
                     attempts: seq<Attempt>, doErr: Option<Error>, r: Outcome<TranslationResponse>)
    requires Run(name, cfg, call, canceled, attempts, doErr, r)
    requires cfg.maxRetries >= 0 && r.Done?
    requires Retry.IsRetryable(Returned(attempts[|attempts| - 1])) && !canceled(|attempts| - 1)
    ensures |attempts| == cfg.maxRetries + 1 && doErr == Returned(attempts[|attempts| - 1])
  {
    var n := |attempts|;
    assert ClosureResults(attempts)[n - 1] == Returned(attempts[n - 1]);
    assert Retry.Prefix(canceled, n)[n - 1] == canceled(n - 1);
  }

  /** When the limiter always lets the call through and the vendor always fails
      retryably, there are MaxRetries + 1 attempts, as many vendor calls, and the
      error wraps the last vendor error. */
  lemma {:induction false} RunExhausted(name: string, cfg: Retry.Config, call: nat -> Result<TranslationResponse>, canceled: nat -> bool,
                     attempts: seq<Attempt>, doErr: Option<Error>, r: Outcome<TranslationResponse>)
    requires Run(name, cfg, call, canceled, attempts, doErr, r)
    requires cfg.maxRetries >= 0 && r.Done?
    requires attempts[|attempts| - 1].wait.Ready?
    requires forall k :: call(k).Err? && Retry.IsRetryable(Some(call(k).error)) && !canceled(k)
    ensures |attempts| == cfg.maxRetries + 1 && ApiCalls(attempts) == cfg.maxRetries + 1
    ensures r.result == Err(Wrapped(name + FailedSuffix, Some(call(cfg.maxRetries).error)))
  {
    var n := |attempts|;
    var last := attempts[n - 1];
    assert Returned(last) == Some(call(n - 1).error);
    RunEndsAtMax(name, cfg, call, canceled, attempts, doErr, r);
    RunApiCalls(name, cfg, call, canceled, attempts, doErr, r);
    assert attempts == attempts[..n - 1] + [last];
    StepFacts(attempts[..n - 1], last);
  }

  /** A run ended by the limiter (the context was done while waiting) reports the
      previous attempt's vendor error; at the first attempt that is a nil cause,
      so the context's error is not on the returned error's wrap chain. */
  lemma {:induction false} RunLimiterFailure(name: string, cfg: Retry.Config, call: nat -> Result<TranslationResponse>, canceled: nat -> bool,
                          attempts: seq<Attempt>, doErr: Option<Error>, r: Outcome<TranslationResponse>)
    requires Run(name, cfg, call, canceled, attempts, doErr, r)
    requires cfg.maxRetries >= 0 && attempts[|attempts| - 1].wait.Failed?
    requires attempts[|attempts| - 1].wait.err == Canceled
    ensures doErr == Some(Canceled)
    ensures r == Done(Err(Wrapped(name + FailedSuffix, LastApiError(attempts[..|attempts| - 1]))))
    ensures |attempts| == 1 ==> Message(r.result.error) == name + FailedSuffix + NilOperand
    ensures |attempts| == 1 ==> !Is(r.result.error, Canceled)
  {
    var n := |attempts|;
    assert ClosureResults(attempts)[n - 1] == Some(Canceled);
    Retry.IsRetryableExamples(Canceled, [], []);
    assert attempts == attempts[..n - 1] + [attempts[n - 1]];
    StepFacts(attempts[..n - 1], attempts[n - 1]);
    if n == 1 {
      var e := Wrapped(name + FailedSuffix, None);
      assert Errors.Chain(e) == [e];
    }
  }

  /** Attempts that each passed the limiter and failed retryably without the
      context being done: the state retry.Do's loop continues from. */
  ghost predicate Retried(attempts: seq<Attempt>, call: nat -> Result<TranslationResponse>, canceled: nat -> bool)
  {
    && Log(attempts, call)
    && forall k :: 0 <= k < |attempts| ==>
         attempts[k].wait.Ready? && Retry.IsRetryable(Returned(attempts[k])) && !canceled(k)
  }

  /** An attempt that called the vendor exactly when its wait succeeded extends a log. */
  lemma {:induction false} LogStep(attempts: seq<Attempt>, a: Attempt, call: nat -> Result<TranslationResponse>)
    requires Log(attempts, call)
    requires a.answer == (if a.wait.Ready? then Some(call(|attempts|)) else None)
    ensures Log(attempts + [a], call)
  {
    forall k | 0 <= k < |attempts| + 1
      ensures var b := (attempts + [a])[k];
        if b.wait.Ready? then b.answer == Some(call(k)) else b.answer == None
    {
      if k < |attempts| {
        assert (attempts + [a])[k] == attempts[k];
      }
    }
  }

  lemma {:induction false} RetriedStep(attempts: seq<Attempt>, a: Attempt, call: nat -> Result<TranslationResponse>, canceled: nat -> bool)
    requires Retried(attempts, call, canceled) && Log(attempts + [a], call)
    requires a.wait.Ready? && Retry.IsRetryable(Returned(a)) && !canceled(|attempts|)
    ensures Retried(attempts + [a], call, canceled)
  {
    forall k | 0 <= k < |attempts| + 1
      ensures var b := (attempts + [a])[k];
        b.wait.Ready? && Retry.IsRetryable(Returned(b)) && !canceled(k)
    {
      if k < |attempts| {
        assert (attempts + [a])[k] == attempts[k];
      }
    }
  }

  /** A run whose last attempt was still blocked in the limiter. */
  lemma {:induction false} PendingRun(name: string, cfg: Retry.Config, call: nat -> Result<TranslationResponse>, canceled: nat -> bool,
                                      before: seq<Attempt>, a: Attempt)
    requires Retried(before, call, canceled) && Log(before + [a], call)
    requires a.wait.Pending?
    ensures Run(name, cfg, call, canceled, before + [a], None, Pending)
  {
    RetriedPrefix(before, a, call, canceled);
  }

  /** The attempts before the last of a log that extends a retried state. */
  lemma {:induction false} RetriedPrefix(before: seq<Attempt>, a: Attempt, call: nat -> Result<TranslationResponse>, canceled: nat -> bool)
    requires Retried(before, call, canceled)
    ensures forall k :: 0 <= k < |before + [a]| - 1 ==>
      (before + [a])[k].wait.Ready? && Retry.IsRetryable(Returned((before + [a])[k])) && !canceled(k)
  {
    forall k | 0 <= k < |before|
      ensures (before + [a])[k].wait.Ready? && Retry.IsRetryable(Returned((before + [a])[k])) && !canceled(k)
    {
      assert (before + [a])[k] == before[k];
    }
  }

  /** The state Translate's retry loop stops in makes a run: the stopping rule of
      retry.Do (success, a non-retryable error, the last attempt, or the context
      done during the backoff) and the result built from it. */
  lemma {:induction false} FinishRun(name: string, cfg: Retry.Config, call: nat -> Result<TranslationResponse>, canceled: nat -> bool,
                  before: seq<Attempt>, a: Attempt, doErr: Option<Error>, r: Outcome<TranslationResponse>)
    requires cfg.maxRetries >= 0 && |before| <= cfg.maxRetries
    requires Retried(before, call, canceled) && Log(before + [a], call)
    requires !a.wait.Pending?
    requires var e := Returned(a);
      if e.None? || !Retry.IsRetryable(e) || |before| == cfg.maxRetries then doErr == e
      else canceled(|before|) && doErr == Some(Canceled)
    requires doErr.Some? ==> r == Done(Err(Wrapped(name + FailedSuffix, LastApiError(before + [a]))))
    requires doErr.None? ==> call(|before|).Ok? && r == Done(Ok(call(|before|).value.(provider := name)))
    ensures Run(name, cfg, call, canceled, before + [a], doErr, r)
  {
    var attempts := before + [a];
    var n := |attempts|;
    RetriedPrefix(before, a, call, canceled);
    var rs, ds := ClosureResults(attempts), Retry.Prefix(canceled, n);
    assert attempts[n - 1] == a;
    assert rs[n - 1] == Returned(a);
    assert ds[n - 1] == canceled(n - 1);
    assert forall k :: 0 <= k < n - 1 ==> Retry.IsRetryable(rs[k]) && !ds[k];
  }

  /** The limiter states around each attempt: gates[k] is the state attempt k's
      wait started from, and that wait (one request, need tokens) gave the
      attempt's wait result and ended in gates[k + 1]. */
  ghost predicate Gated(gates: seq<RateLimit.Gate>, attempts: seq<Attempt>, rpm: int, tpm: int, need: int,
                        ticks: seq<RateLimit.Tick>)
  {
    && |gates| == |attempts| + 1
    && forall k :: 0 <= k < |attempts| ==> WaitedAt(gates, attempts, rpm, tpm, need, ticks, k)
  }

  /** Attempt k's wait went from gates[k] to gates[k + 1]. */
  ghost predicate WaitedAt(gates: seq<RateLimit.Gate>, attempts: seq<Attempt>, rpm: int, tpm: int, need: int,
                           ticks: seq<RateLimit.Tick>, k: int)
  {
    && 0 <= k < |attempts| && k + 1 < |gates|
    && gates[k].at <= |ticks| && RateLimit.WaitGate(gates[k], rpm, tpm, need, ticks) == (attempts[k].wait, gates[k + 1])
  }

  lemma {:induction false} GatedStep(gates: seq<RateLimit.Gate>, attempts: seq<Attempt>, a: Attempt, g: RateLimit.Gate,
                                     rpm: int, tpm: int, need: int, ticks: seq<RateLimit.Tick>)
    requires Gated(gates, attempts, rpm, tpm, need, ticks)
    requires gates[|attempts|].at <= |ticks|
    requires RateLimit.WaitGate(gates[|attempts|], rpm, tpm, need, ticks) == (a.wait, g)
    ensures Gated(gates + [g], attempts + [a], rpm, tpm, need, ticks)
  {
    forall k | 0 <= k < |attempts| + 1
      ensures WaitedAt(gates + [g], attempts + [a], rpm, tpm, need, ticks, k)
    {
      if k < |attempts| {
        assert WaitedAt(gates, attempts, rpm, tpm, need, ticks, k);
        assert (gates + [g])[k] == gates[k] && (gates + [g])[k + 1] == gates[k + 1];
        assert (attempts + [a])[k] == attempts[k];
      }
    }
  }

  /** Every attempt of a gated log whose wait succeeded (the ones that called
      the vendor) took one request and
      need tokens from the limiter, each from the balance before its wait or from
      a reset to the limit. */
  lemma GatedDebits(gates: seq<RateLimit.Gate>, attempts: seq<Attempt>, rpm: int, tpm: int, need: int,
                    ticks: seq<RateLimit.Tick>, k: nat)
    requires Gated(gates, attempts, rpm, tpm, need, ticks) && k < |attempts|
    requires attempts[k].wait.Ready?
    ensures gates[k + 1].requests.balance + 1 == gates[k].requests.balance || gates[k + 1].requests.balance + 1 == rpm
    ensures gates[k + 1].tokens.balance + need == gates[k].tokens.balance || gates[k + 1].tokens.balance + need == tpm
  {
    assert WaitedAt(gates, attempts, rpm, tpm, need, ticks, k);
    RateLimit.WaitGateDebits(gates[k], rpm, tpm, need, ticks);
  }

  /** Request i of a batch made a run of Translate, with the attempt oracle and
      context of its own index. */
  ghost predicate RanAt(name: string, cfg: Retry.Config, call: (TranslationRequest, nat, nat) -> Result<TranslationResponse>,
                        canceled: (nat, nat) -> bool, reqs: seq<TranslationRequest>, logs: seq<seq<Attempt>>,
                        errs: seq<Option<Error>>, outcomes: seq<Outcome<TranslationResponse>>, i: int)
  {
    && 0 <= i < |logs| && i < |reqs| && i < |errs| && i < |outcomes|
    && Run(name, cfg, Attempts(call, reqs[i], i), Cancels(canceled, i), logs[i], errs[i], outcomes[i])
  }

  /** Each request of a batch so far made a run of Translate. */
  ghost predicate BatchRuns(name: string, cfg: Retry.Config, call: (TranslationRequest, nat, nat) -> Result<TranslationResponse>,
                            canceled: (nat, nat) -> bool, reqs: seq<TranslationRequest>, logs: seq<seq<Attempt>>,
                            errs: seq<Option<Error>>, outcomes: seq<Outcome<TranslationResponse>>)
  {
    && |outcomes| == |logs| == |errs| <= |reqs|
    && forall i :: 0 <= i < |logs| ==> RanAt(name, cfg, call, canceled, reqs, logs, errs, outcomes, i)
  }

  lemma {:induction false} BatchRunsStep(name: string, cfg: Retry.Config, call: (TranslationRequest, nat, nat) -> Result<TranslationResponse>,
                                         canceled: (nat, nat) -> bool, reqs: seq<TranslationRequest>, logs: seq<seq<Attempt>>,
                                         errs: seq<Option<Error>>, outcomes: seq<Outcome<TranslationResponse>>,
                                         log: seq<Attempt>, e: Option<Error>, one: Outcome<TranslationResponse>)
    requires BatchRuns(name, cfg, call, canceled, reqs, logs, errs, outcomes) && |logs| < |reqs|
    requires Run(name, cfg, Attempts(call, reqs[|logs|], |logs|), Cancels(canceled, |logs|), log, e, one)
    ensures BatchRuns(name, cfg, call, canceled, reqs, logs + [log], errs + [e], outcomes + [one])
  {
    var logs', errs', outcomes' := logs + [log], errs + [e], outcomes + [one];
    forall i | 0 <= i < |logs'|
      ensures RanAt(name, cfg, call, canceled, reqs, logs', errs', outcomes', i)
    {
      if i < |logs| {
        assert RanAt(name, cfg, call, canceled, reqs, logs, errs, outcomes, i);
        assert logs'[i] == logs[i] && errs'[i] == errs[i] && outcomes'[i] == outcomes[i];
      }
    }
  }

  /** The limiter states around request i of a batch: gateLogs[i] are the states
      around each of its attempts, from marks[i] to marks[i + 1]. */
  ghost predicate GatedAt(marks: seq<RateLimit.Gate>, gateLogs: seq<seq<RateLimit.Gate>>, logs: seq<seq<Attempt>>,
                          reqs: seq<TranslationRequest>, rpm: int, tpm: int, ticks: seq<RateLimit.Tick>, i: int)
  {
    && 0 <= i < |logs| && i < |reqs| && i < |gateLogs| && i + 1 < |marks|
    && Gated(gateLogs[i], logs[i], rpm, tpm, EstimateTokens(reqs[i].text), ticks)
    && gateLogs[i][0] == marks[i] && gateLogs[i][|logs[i]|] == marks[i + 1]
  }

  /** The limiter states across a batch: marks[i] is the state request i started
      from and marks[i + 1] the one it left. */
  ghost predicate BatchGated(marks: seq<RateLimit.Gate>, gateLogs: seq<seq<RateLimit.Gate>>, logs: seq<seq<Attempt>>,
                             reqs: seq<TranslationRequest>, rpm: int, tpm: int, ticks: seq<RateLimit.Tick>)
  {
    && |logs| <= |reqs| && |marks| == |logs| + 1 && |gateLogs| == |logs|
    && forall i :: 0 <= i < |logs| ==> GatedAt(marks, gateLogs, logs, reqs, rpm, tpm, ticks, i)
  }

  lemma {:induction false} BatchGatedStep(marks: seq<RateLimit.Gate>, gateLogs: seq<seq<RateLimit.Gate>>, logs: seq<seq<Attempt>>,
                                          reqs: seq<TranslationRequest>, rpm: int, tpm: int, ticks: seq<RateLimit.Tick>,
                                          gates: seq<RateLimit.Gate>, log: seq<Attempt>, m: RateLimit.Gate)
    requires BatchGated(marks, gateLogs, logs, reqs, rpm, tpm, ticks) && |logs| < |reqs|
    requires Gated(gates, log, rpm, tpm, EstimateTokens(reqs[|logs|].text), ticks)
    requires gates[0] == marks[|logs|] && gates[|log|] == m
    ensures BatchGated(marks + [m], gateLogs + [gates], logs + [log], reqs, rpm, tpm, ticks)
  {
    var marks', gateLogs', logs' := marks + [m], gateLogs + [gates], logs + [log];
    forall i | 0 <= i < |logs'|
      ensures GatedAt(marks', gateLogs', logs', reqs, rpm, tpm, ticks, i)
    {
      if i < |logs| {
        assert GatedAt(marks, gateLogs, logs, reqs, rpm, tpm, ticks, i);
        assert logs'[i] == logs[i] && gateLogs'[i] == gateLogs[i];
        assert marks'[i] == marks[i] && marks'[i + 1] == marks[i + 1];
      }
    }
  }

  /** Sums over the logs of a batch: the tokens the limiter granted (each vendor
      call of request i took its estimate), the vendor calls and the attempts. */
  function BatchTokens(logs: seq<seq<Attempt>>, reqs: seq<TranslationRequest>): nat
    requires |logs| <= |reqs|
  {
    if logs == [] then 0
    else BatchTokens(logs[..|logs| - 1], reqs) + Spent(logs[|logs| - 1], reqs[|logs| - 1])
  }

  /** The tokens a log of attempts at req took from the limiter: the token
      estimate of req for each attempt whose wait succeeded. */
  function Spent(log: seq<Attempt>, req: TranslationRequest): nat
  {
    if log == [] then 0
    else Spent(log[..|log| - 1], req) + (if log[|log| - 1].wait.Ready? then EstimateTokens(req.text) else 0)
  }

  lemma {:induction false} SpentStep(attempts: seq<Attempt>, a: Attempt, req: TranslationRequest)
    ensures Spent(attempts + [a], req) == Spent(attempts, req) + (if a.wait.Ready? then EstimateTokens(req.text) else 0)
  {
    assert (attempts + [a])[..|attempts|] == attempts;
  }

  /** The tokens spent are the estimate once per vendor call. */
  lemma {:induction false} SpentIsCallsTimesEstimate(log: seq<Attempt>, req: TranslationRequest)
    ensures Spent(log, req) == ApiCalls(log) * EstimateTokens(req.text)
  {
    if log != [] {
      SpentIsCallsTimesEstimate(log[..|log| - 1], req);
      var c, t := ApiCalls(log[..|log| - 1]), EstimateTokens(req.text);
      assert (c + 1) * t == c * t + t;
    }
  }

  function TotalApiCalls(logs: seq<seq<Attempt>>): (n: nat)
    ensures n <= TotalAttempts(logs)
  {
    if logs == [] then 0 else TotalApiCalls(logs[..|logs| - 1]) + ApiCalls(logs[|logs| - 1])
  }

  function TotalAttempts(logs: seq<seq<Attempt>>): nat
  {
    if logs == [] then 0 else TotalAttempts(logs[..|logs| - 1]) + |logs[|logs| - 1]|
  }

  /** What the limiter granted over a batch so far: tokens granted are the
      batch's spent tokens, and the requests granted lie between its vendor calls
      and its attempts. */
  ghost predicate BatchGranted(logs: seq<seq<Attempt>>, reqs: seq<TranslationRequest>, tokens: int, requests: int)
  {
    && |logs| <= |reqs|
    && tokens == BatchTokens(logs, reqs)
    && TotalApiCalls(logs) <= requests <= TotalAttempts(logs)
  }

  lemma {:induction false} BatchGrantedStep(logs: seq<seq<Attempt>>, log: seq<Attempt>, reqs: seq<TranslationRequest>, i: nat,
                                            tokens: int, requests: int, tokens': int, requests': int)
    requires i == |logs| < |reqs| && BatchGranted(logs, reqs, tokens, requests)
    requires tokens' == tokens + Spent(log, reqs[i])
    requires requests + ApiCalls(log) <= requests' <= requests + |log|
    ensures BatchGranted(logs + [log], reqs, tokens', requests')
  {
    assert (logs + [log])[..|logs|] == logs;
  }

  /** A provider: its name, model, rate limiter and retry configuration. The SDK
      client is the oracle passed to Translate. */
  class Provider {
    const name: string
    const model: string
    const limiter: RateLimit.Limiter
    const retryConfig: Option<Retry.Config>

    ghost predicate Valid()
      reads this, limiter
    {
      limiter.Valid()
    }

    constructor (name: string, model: string, limiter: RateLimit.Limiter, retryConfig: Option<Retry.Config>)
      requires limiter.Valid()
      ensures Valid()
      ensures this.name == name && this.model == model && this.limiter == limiter && this.retryConfig == retryConfig
    {
      this.name := name;
      this.model := model;
      this.limiter := limiter;
      this.retryConfig := retryConfig;
    }

    /** The limiter's two buckets, with the next unread tick. */
    ghost function GateAt(at: nat): RateLimit.Gate
      reads this, limiter
    {
      RateLimit.Gate(limiter.RequestBucket(), limiter.TokenBucket(), at)
    }

    /** Name(). */
    function Name(): (n: string)
      ensures n == name
    {
      name
    }

    /** The closure Translate hands to retry.Do, for attempt k: estimate the
        tokens, wait on the limiter for one request and that many tokens, and call
        the vendor only if the wait succeeded. */
    method Closure(req: TranslationRequest, ticks: seq<RateLimit.Tick>, from: nat,
                   call: nat -> Result<TranslationResponse>, k: nat)
      returns (a: Attempt, next: nat)
      requires Valid() && from <= |ticks|
      modifies limiter
      ensures Valid() && from <= next <= |ticks|
      ensures limiter.tpm == old(limiter.tpm) && limiter.rpm == old(limiter.rpm)
      ensures (a.wait, GateAt(next)) == RateLimit.WaitGate(old(GateAt(from)), limiter.rpm, limiter.tpm, EstimateTokens(req.text), ticks)
      ensures a.answer == (if a.wait.Ready? then Some(call(k)) else None)
      ensures a.wait.Failed? ==> a.wait.err == Canceled
      ensures a.wait.Pending? ==> next == |ticks|
      ensures limiter.tokensGranted == old(limiter.tokensGranted) + (if a.wait.Ready? then EstimateTokens(req.text) else 0)
      ensures old(limiter.requestsGranted) + (if a.wait.Ready? then 1 else 0) <= limiter.requestsGranted
      ensures limiter.requestsGranted <= old(limiter.requestsGranted) + 1
    {
      var w;
      w, next := limiter.Wait(ticks, from, EstimateTokens(req.text));
      if w.Ready? {
        a := Attempt(w, Some(call(k)));
      } else {
        a := Attempt(w, None);
      }
    }

    /** Translate(ctx, req): retry.Do over a closure that estimates the tokens,
      waits on the limiter for one request and that many tokens, then calls the
      vendor, remembering the last vendor error and the last response. The
      limiter is asked again at every attempt. A negative MaxRetries makes the
      source dereference a nil response, so it is excluded. */
    method Translate(req: TranslationRequest, ticks: seq<RateLimit.Tick>, from: nat,
                     call: nat -> Result<TranslationResponse>, canceled: nat -> bool)
      returns (r: Outcome<TranslationResponse>, next: nat, ghost attempts: seq<Attempt>, ghost doErr: Option<Error>,
               ghost gates: seq<RateLimit.Gate>)
      requires Valid() && from <= |ticks|
      requires Retry.Resolve(retryConfig).maxRetries >= 0
      modifies limiter
      ensures Valid() && from <= next <= |ticks|
      ensures limiter.tpm == old(limiter.tpm) && limiter.rpm == old(limiter.rpm)
      ensures Run(name, Retry.Resolve(retryConfig), call, canceled, attempts, doErr, r)
      ensures Gated(gates, attempts, limiter.rpm, limiter.tpm, EstimateTokens(req.text), ticks)
      ensures gates[0] == old(GateAt(from)) && gates[|attempts|] == GateAt(next)
      ensures limiter.tokensGranted == old(limiter.tokensGranted) + Spent(attempts, req)
      ensures old(limiter.requestsGranted) + ApiCalls(attempts) <= limiter.requestsGranted
      ensures limiter.requestsGranted <= old(limiter.requestsGranted) + |attempts|
    {
      var cfg := Retry.Resolve(retryConfig);
      var t := EstimateTokens(req.text);
      var response: Option<TranslationResponse> := None;
      var lastErr: Option<Error> := None;
      var err: Option<Error> := None;
      var pending := false;
      ghost var before: seq<Attempt>, last: Attempt;
      var attempt: nat := 0;
      next := from;
      attempts := [];
      gates := [GateAt(from)];
      while true
        invariant limiter.Valid() && from <= next <= |ticks|
        invariant limiter.tpm == old(limiter.tpm) && limiter.rpm == old(limiter.rpm)
        invariant attempt <= cfg.maxRetries
        invariant |attempts| == attempt && Retried(attempts, call, canceled)
        invariant Gated(gates, attempts, limiter.rpm, limiter.tpm, t, ticks)
        invariant gates[0] == old(GateAt(from)) && gates[attempt] == GateAt(next)
        invariant lastErr == LastApiError(attempts)
        invariant limiter.tokensGranted == old(limiter.tokensGranted) + Spent(attempts, req)
        invariant old(limiter.requestsGranted) + ApiCalls(attempts) <= limiter.requestsGranted
        invariant limiter.requestsGranted <= old(limiter.requestsGranted) + |attempts|
        decreases cfg.maxRetries - attempt
      {
        var a;
        a, next := Closure(req, ticks, next, call, attempt);
        GatedStep(gates, attempts, a, GateAt(next), limiter.rpm, limiter.tpm, t, ticks);
        gates := gates + [GateAt(next)];
        if a.answer.Some? {
          if a.answer.value.Err? {
            lastErr := Some(a.answer.value.error);
          } else {
            response := Some(a.answer.value.value);
          }
        }
        SpentStep(attempts, a, req);
        StepFacts(attempts, a);
        LogStep(attempts, a, call);
        before, last := attempts, a;
        attempts := attempts + [a];
        if a.wait.Pending? {
          pending := true;
          break;
        }
        // retry.Do's loop body
        var e := Returned(a);
        if e.None? || !Retry.IsRetryable(e) || attempt == cfg.maxRetries {
          err := e;
          break;
        }
        if canceled(attempt) {
          err := Some(Canceled);
          break;
        }
        RetriedStep(before, a, call, canceled);
        attempt := attempt + 1;
      }
      doErr := err;
      if pending {
        r := Pending;
        PendingRun(name, cfg, call, canceled, before, last);
      } else {
        if err.Some? {
          r := Done(Err(Wrapped(name + FailedSuffix, lastErr)));
        } else {
          r := Done(Ok(response.value.(provider := name)));
        }
        FinishRun(name, cfg, call, canceled, before, last, doErr, r);
      }
    }

    /** One turn of TranslateBatch's loop: Translate reqs[i] with the oracles of
        index i, from where the previous request left the limiter, and extend the
        batch's records with its run. tokens and requests are the limiter's
        granted counters when the batch began. */
    method TranslateAt(reqs: seq<TranslationRequest>, ticks: seq<RateLimit.Tick>, next: nat,
                       call: (TranslationRequest, nat, nat) -> Result<TranslationResponse>, canceled: (nat, nat) -> bool, i: nat,
                       ghost outcomes: seq<Outcome<TranslationResponse>>, ghost logs: seq<seq<Attempt>>, ghost errs: seq<Option<Error>>,
                       ghost marks: seq<RateLimit.Gate>, ghost gateLogs: seq<seq<RateLimit.Gate>>, ghost tokens: int, ghost requests: int)
      returns (one: Outcome<TranslationResponse>, next': nat,
               ghost outcomes': seq<Outcome<TranslationResponse>>, ghost logs': seq<seq<Attempt>>, ghost errs': seq<Option<Error>>,
               ghost marks': seq<RateLimit.Gate>, ghost gateLogs': seq<seq<RateLimit.Gate>>)
      requires Valid() && next <= |ticks| && i == |logs| < |reqs|
      requires Retry.Resolve(retryConfig).maxRetries >= 0
      requires BatchRuns(name, Retry.Resolve(retryConfig), call, canceled, reqs, logs, errs, outcomes)
      requires BatchGated(marks, gateLogs, logs, reqs, limiter.rpm, limiter.tpm, ticks) && marks[i] == GateAt(next)
      requires BatchGranted(logs, reqs, limiter.tokensGranted - tokens, limiter.requestsGranted - requests)
      modifies limiter
      ensures Valid() && next <= next' <= |ticks|
      ensures limiter.tpm == old(limiter.tpm) && limiter.rpm == old(limiter.rpm)
      ensures outcomes' == outcomes + [one] && |logs'| == i + 1
      ensures BatchRuns(name, Retry.Resolve(retryConfig), call, canceled, reqs, logs', errs', outcomes')
      ensures BatchGated(marks', gateLogs', logs', reqs, limiter.rpm, limiter.tpm, ticks)
      ensures marks'[0] == marks[0] && marks'[i + 1] == GateAt(next')
      ensures BatchGranted(logs', reqs, limiter.tokensGranted - tokens, limiter.requestsGranted - requests)
    {
      ghost var log, e, gs;
      ghost var tokens0, requests0 := limiter.tokensGranted, limiter.requestsGranted;
      one, next', log, e, gs := Translate(reqs[i], ticks, next, Attempts(call, reqs[i], i), Cancels(canceled, i));
      BatchGrantedStep(logs, log, reqs, i, tokens0 - tokens, requests0 - requests,
                       limiter.tokensGranted - tokens, limiter.requestsGranted - requests);
      BatchRunsStep(name, Retry.Resolve(retryConfig), call, canceled, reqs, logs, errs, outcomes, log, e, one);
      BatchGatedStep(marks, gateLogs, logs, reqs, limiter.rpm, limiter.tpm, ticks, gs, log, GateAt(next'));
      outcomes', logs', errs' := outcomes + [one], logs + [log], errs + [e];
      marks', gateLogs' := marks + [GateAt(next')], gateLogs + [gs];
    }

    /** The loop of TranslateBatch(ctx, reqs): Translate each request in order and
        stop at the first one that does not succeed. responses are the answers of
        the requests that succeeded, and halt is the outcome that stopped the batch,
        if one did. */
    method RunBatch(reqs: seq<TranslationRequest>, ticks: seq<RateLimit.Tick>, from: nat,
                    call: (TranslationRequest, nat, nat) -> Result<TranslationResponse>,
                    canceled: (nat, nat) -> bool)
      returns (responses: seq<TranslationResponse>, halt: Option<Outcome<TranslationResponse>>, next: nat,
               ghost outcomes: seq<Outcome<TranslationResponse>>, ghost logs: seq<seq<Attempt>>, ghost errs: seq<Option<Error>>,
               ghost marks: seq<RateLimit.Gate>, ghost gateLogs: seq<seq<RateLimit.Gate>>)
      requires Valid() && from <= |ticks|
      requires Retry.Resolve(retryConfig).maxRetries >= 0
      modifies limiter
      ensures Valid() && from <= next <= |ticks|
      ensures limiter.tpm == old(limiter.tpm) && limiter.rpm == old(limiter.rpm)
      ensures BatchRuns(name, Retry.Resolve(retryConfig), call, canceled, reqs, logs, errs, outcomes)
      ensures BatchGated(marks, gateLogs, logs, reqs, limiter.rpm, limiter.tpm, ticks)
      ensures marks[0] == old(GateAt(from)) && marks[|logs|] == GateAt(next)
      ensures BatchGranted(logs, reqs, limiter.tokensGranted - old(limiter.tokensGranted),
                           limiter.requestsGranted - old(limiter.requestsGranted))
      ensures |responses| <= |outcomes|
      ensures forall j :: 0 <= j < |responses| ==> outcomes[j] == Done(Ok(responses[j]))
      ensures halt.None? ==> |responses| == |outcomes| == |reqs|
      ensures halt.Some? ==>
        && |outcomes| == |responses| + 1 && outcomes[|responses|] == halt.value
        && !(halt.value.Done? && halt.value.result.Ok?)
    {
      responses, halt := [], None;
      outcomes, logs, errs := [], [], [];
      marks, gateLogs := [GateAt(from)], [];
      next := from;
      while halt.None? && |responses| < |reqs|
        invariant Valid() && from <= next <= |ticks|
        invariant limiter.tpm == old(limiter.tpm) && limiter.rpm == old(limiter.rpm)
        invariant |outcomes| == |logs| == |errs| <= |reqs|
        invariant halt.None? ==> |responses| == |outcomes|
        invariant halt.Some? ==>
          && |outcomes| == |responses| + 1 && outcomes[|responses|] == halt.value
          && !(halt.value.Done? && halt.value.result.Ok?)
        invariant BatchGated(marks, gateLogs, logs, reqs, limiter.rpm, limiter.tpm, ticks)
        invariant marks[0] == old(GateAt(from)) && marks[|logs|] == GateAt(next)
        invariant BatchGranted(logs, reqs, limiter.tokensGranted - old(limiter.tokensGranted),
                               limiter.requestsGranted - old(limiter.requestsGranted))
        invariant BatchRuns(name, Retry.Resolve(retryConfig), call, canceled, reqs, logs, errs, outcomes)
        invariant forall j :: 0 <= j < |responses| ==> outcomes[j] == Done(Ok(responses[j]))
        decreases |reqs| - |outcomes|
      {
        var one;
        one, next, outcomes, logs, errs, marks, gateLogs := TranslateAt(reqs, ticks, next, call, canceled, |responses|,
          outcomes, logs, errs, marks, gateLogs, old(limiter.tokensGranted), old(limiter.requestsGranted));
        if one.Done? && one.result.Ok? {
          responses := responses + [one.result.value];
        } else {
          halt := Some(one);
        }
      }
    }

    /** TranslateBatch(ctx, reqs): Translate each request in order; the first
        failure ends the batch with its index. call(q, i, k) is the vendor's answer
        to request q at batch index i and attempt k. */
    method TranslateBatch(reqs: seq<TranslationRequest>, ticks: seq<RateLimit.Tick>, from: nat,
                          call: (TranslationRequest, nat, nat) -> Result<TranslationResponse>,
                          canceled: (nat, nat) -> bool)
      returns (r: Outcome<seq<TranslationResponse>>, next: nat,
               ghost outcomes: seq<Outcome<TranslationResponse>>, ghost logs: seq<seq<Attempt>>, ghost errs: seq<Option<Error>>,
               ghost marks: seq<RateLimit.Gate>, ghost gateLogs: seq<seq<RateLimit.Gate>>)
      requires Valid() && from <= |ticks|
      requires Retry.Resolve(retryConfig).maxRetries >= 0
      modifies limiter
      ensures Valid() && from <= next <= |ticks|
      ensures limiter.tpm == old(limiter.tpm) && limiter.rpm == old(limiter.rpm)
      ensures BatchRuns(name, Retry.Resolve(retryConfig), call, canceled, reqs, logs, errs, outcomes)
      ensures BatchGated(marks, gateLogs, logs, reqs, limiter.rpm, limiter.tpm, ticks)
      ensures marks[0] == old(GateAt(from)) && marks[|logs|] == GateAt(next)
      ensures BatchGranted(logs, reqs, limiter.tokensGranted - old(limiter.tokensGranted),
                           limiter.requestsGranted - old(limiter.requestsGranted))
      ensures forall i :: 0 <= i < |outcomes| - 1 ==> outcomes[i].Done? && outcomes[i].result.Ok?
      ensures r.Pending? <==> |outcomes| > 0 && outcomes[|outcomes| - 1].Pending?
      ensures r.Done? && r.result.Ok? ==>
        && |outcomes| == |reqs| == |r.result.value|
        && forall i :: 0 <= i < |reqs| ==> outcomes[i] == Done(Ok(r.result.value[i]))
      ensures r.Done? && r.result.Err? ==>
        && 0 < |outcomes|
        && outcomes[|outcomes| - 1].Done? && outcomes[|outcomes| - 1].result.Err?
        && r.result.error == Wrapped(BatchFailedAt + Text.NatToString(|outcomes| - 1) + ": ",
                                     Some(outcomes[|outcomes| - 1].result.error))
    {
      var responses, halt;
      responses, halt, next, outcomes, logs, errs, marks, gateLogs := RunBatch(reqs, ticks, from, call, canceled);
      match halt {
        case None => r := Done(Ok(responses));
        case Some(Pending) => r := Pending;
        case Some(Done(failed)) =>
          r := Done(Err(Wrapped(BatchFailedAt + Text.NatToString(|responses|) + ": ", Some(failed.error))));
      }
    }
  }

  /** The attempt oracle of batch index i. */
  function Attempts(call: (TranslationRequest, nat, nat) -> Result<TranslationResponse>, req: TranslationRequest, i: nat)
    : nat -> Result<TranslationResponse>
  {
    (k: nat) => call(req, i, k)
  }

  function Cancels(canceled: (nat, nat) -> bool, i: nat): nat -> bool
  {
    (k: nat) => canceled(i, k)
  }
}
