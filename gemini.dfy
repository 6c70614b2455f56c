/** The Gemini adapter: its configuration, the request it sends, the shaping of
    the SDK's answer, its error classifier and its price table. The SDK's
    GenerateContent is the oracle api(request, attempt). */
module Gemini {
  import opened Errors
  import opened Translator
  import Text
  import Retry
  import RateLimit
  import Adapter

  const Name: string := "gemini"
  const DefaultModel: string := "gemini-1.5-pro"
  const NoContent: string := "no content returned from Gemini"
  const ClientFailed: string := "failed to create Gemini client: "

  /** The substrings that make an SDK error retryable. */
  const Keywords: seq<string> := ["429", "500", "503", "quota", "resource_exhausted"]

  /** The model-name fragments of the two price tiers. */
  const ProModel: string := "gemini-1.5-pro"
  const FlashModel: string := "gemini-1.5-flash"

  datatype Config = Config(apiKey: string, model: string, tpm: nat, rpm: nat, retryConfig: Option<Retry.Config>)

  /** DefaultConfig(apiKey): gemini-1.5-pro, 32000 tokens and 60 requests per
      minute, the retry package's default policy. */
  function DefaultConfig(apiKey: string): (c: Config)
    ensures c.apiKey == apiKey && c.tpm == 32000 && c.rpm == 60
    ensures c.retryConfig == Some(Retry.DefaultConfig())
    ensures Text.IsSubstring(ProModel, c.model)
  {
    Text.OccursByLength(ProModel, DefaultModel);
    Config(apiKey, DefaultModel, 32000, 60, Some(Retry.DefaultConfig()))
  }

  /** The request GenerateContent receives: the model, the system instruction set
      on the model just before the call, and the user prompt. */
  datatype Request = Request(model: string, systemInstruction: string, userPrompt: string)

  /** The parts of a candidate's content, each as fmt's %v prints it. */
  datatype Candidate = Candidate(parts: seq<string>)
  datatype Usage = Usage(promptTokenCount: int, candidatesTokenCount: int)
  datatype Reply = Reply(candidates: seq<Candidate>, usage: Option<Usage>)

  /** What the SDK call produced: a reply, or an error with its message. */
  datatype Answer = Replied(reply: Reply) | Failed(message: string)

  function BuildRequest(model: string, req: TranslationRequest): (q: Request)
    ensures q.model == model && q.systemInstruction == SystemPrompt(req.preserveHTML, req.preserveLiquid)
    ensures q.userPrompt == Adapter.UserPrompt(req)
  {
    Request(model, SystemPrompt(req.preserveHTML, req.preserveLiquid), Adapter.UserPrompt(req))
  }

  /** isRetryableError(err): the error's message contains one of the keywords. */
  function IsRetryableError(e: Error): (b: bool)
    ensures b <==> exists i :: 0 <= i < |Keywords| && Text.IsSubstring(Keywords[i], Message(e))
  {
    Text.OccursAnyIsSubstring(Keywords, Message(e));
    Text.OccursAny(Keywords, Message(e))
  }

  /** Per-token prices in picodollars: (input, output). */
  function Prices(model: string): (int, int)
  {
    if Text.Occurs(ProModel, model) then (1_250_000, 5_000_000)
    else if Text.Occurs(FlashModel, model) then (75_000, 300_000)
    else (1_250_000, 5_000_000)
  }

  /** calculateCost(model, in, out), in picodollars: flash prices for a model
      naming gemini-1.5-flash but not gemini-1.5-pro, pro prices for any other. */
  function CalculateCost(model: string, inputTokens: int, outputTokens: int): (c: int)
    ensures Text.IsSubstring(FlashModel, model) && !Text.IsSubstring(ProModel, model) ==>
      c == inputTokens * 75_000 + outputTokens * 300_000
    ensures !(Text.IsSubstring(FlashModel, model) && !Text.IsSubstring(ProModel, model)) ==>
      c == inputTokens * 1_250_000 + outputTokens * 5_000_000
  {
    Text.OccursIsSubstring(ProModel, model);
    Text.OccursIsSubstring(FlashModel, model);
    var (inputPrice, outputPrice) := Prices(model);
    inputTokens * inputPrice + outputTokens * outputPrice
  }

  /** translate(ctx, req) after the SDK call: an SDK error comes back, wrapped as
      retryable exactly when its message has a keyword; a reply without a
      candidate or without a part is a plain, non-retryable error; otherwise the
      first part of the first candidate, with the usage (0/0 when absent) and
      its cost. The provider name is set later by Translate. */
  function Respond(model: string, req: TranslationRequest, answer: Answer): (r: Result<TranslationResponse>)
    ensures answer.Failed? ==> r.Err? && Message(r.error) == answer.message
    ensures answer.Failed? ==>
      (Retry.IsRetryable(Some(r.error)) <==> exists i :: 0 <= i < |Keywords| && Text.IsSubstring(Keywords[i], answer.message))
    ensures answer.Replied? && (|answer.reply.candidates| == 0 || |answer.reply.candidates[0].parts| == 0) ==>
      r == Err(Plain(NoContent)) && !Retry.IsRetryable(Some(r.error))
    ensures r.Ok? ==>
      && answer.Replied? && |answer.reply.candidates| > 0 && |answer.reply.candidates[0].parts| > 0
      && r.value.translatedText == answer.reply.candidates[0].parts[0]
      && r.value.sourceText == req.text
      && r.value.tokensUsed.totalTokens == r.value.tokensUsed.inputTokens + r.value.tokensUsed.outputTokens
      && (answer.reply.usage.None? ==> r.value.tokensUsed.inputTokens == 0 && r.value.tokensUsed.outputTokens == 0)
      && (answer.reply.usage.Some? ==>
            r.value.tokensUsed.inputTokens == answer.reply.usage.value.promptTokenCount
            && r.value.tokensUsed.outputTokens == answer.reply.usage.value.candidatesTokenCount)
      && r.value.cost == Cost(CalculateCost(model, r.value.tokensUsed.inputTokens, r.value.tokensUsed.outputTokens), "USD")
      && r.value.provider == ""
  {
    Retry.IsRetryableExamples(Canceled, [], NoContent);
    match answer
    case Failed(m) =>
      var e := Plain(m);
      Err(Adapter.Classified(e, IsRetryableError(e)))
    case Replied(reply) =>
      if |reply.candidates| == 0 || |reply.candidates[0].parts| == 0 then Err(Plain(NoContent))
      else
        var (inputTokens, outputTokens) :=
          if reply.usage.Some? then (reply.usage.value.promptTokenCount, reply.usage.value.candidatesTokenCount) else (0, 0);
        Ok(TranslationResponse(
          reply.candidates[0].parts[0],
          req.text,
          TokenUsage(inputTokens, outputTokens, inputTokens + outputTokens),
          Cost(CalculateCost(model, inputTokens, outputTokens), "USD"),
          ""))
  }

  /** The vendor call of each attempt of Translate: the SDK's answer at attempt
      k to the request built for req, shaped by Respond. */
  function Calls(model: string, req: TranslationRequest, api: (Request, nat) -> Answer): nat -> Result<TranslationResponse>
  {
    (k: nat) => Respond(model, req, api(BuildRequest(model, req), k))
  }

  /** The same for TranslateBatch, where the SDK also sees the batch index. */
  function BatchCalls(model: string, api: (Request, nat, nat) -> Answer): (TranslationRequest, nat, nat) -> Result<TranslationResponse>
  {
    (q: TranslationRequest, i: nat, k: nat) => Respond(model, q, api(BuildRequest(model, q), i, k))
  }

  /** What a run over this vendor's calls returns: a success is a shaped reply
      to req stamped with the vendor's name, a failure wraps the last vendor
      error under the vendor's prefix. */
  lemma {:induction false} RunOutcome(model: string, req: TranslationRequest, answer: Answer,
                                      cfg: Retry.Config, call: nat -> Result<TranslationResponse>, canceled: nat -> bool,
                                      attempts: seq<Adapter.Attempt>, doErr: Option<Error>, r: Adapter.Outcome<TranslationResponse>)
    requires Adapter.Run(Name, cfg, call, canceled, attempts, doErr, r)
    requires call(|attempts| - 1) == Respond(model, req, answer)
    ensures r.Done? && r.result.Ok? ==>
      && r.result.value.provider == Name && r.result.value.sourceText == req.text
      && r.result.value.tokensUsed.totalTokens == r.result.value.tokensUsed.inputTokens + r.result.value.tokensUsed.outputTokens
    ensures r.Done? && r.result.Err? ==>
      r.result.error == Wrapped(Name + Adapter.FailedSuffix, Adapter.LastApiError(attempts))
  {
    if r.Done? && r.result.Ok? {
      Adapter.RunSucceeded(Name, cfg, call, canceled, attempts, doErr, r);
    }
  }

  /** NewProvider(ctx, config): a nil config and a failing client constructor are
      errors; otherwise a provider named gemini for config.Model, with a full
      limiter of config's limits and config's retry policy. */
  method NewProvider(config: Option<Config>, clientError: Option<Error>, now: int) returns (r: Result<Adapter.Provider>)
    ensures config.None? ==> r == Err(Plain("config cannot be nil"))
    ensures config.Some? && clientError.Some? ==> r == Err(Wrapped(ClientFailed, clientError))
    ensures config.Some? && clientError.None? ==>
      && r.Ok? && fresh(r.value) && fresh(r.value.limiter) && r.value.Valid()
      && r.value.name == Name && r.value.Name() == "gemini" && r.value.model == config.value.model
      && r.value.retryConfig == config.value.retryConfig
      && r.value.limiter.tpm == config.value.tpm && r.value.limiter.rpm == config.value.rpm
      && r.value.limiter.tokens == config.value.tpm && r.value.limiter.requests == config.value.rpm
  {
    if config.None? {
      return Err(Plain("config cannot be nil"));
    }
    if clientError.Some? {
      return Err(Wrapped(ClientFailed, clientError));
    }
    var limiter := new RateLimit.Limiter(config.value.tpm, config.value.rpm, now);
    var p := new Adapter.Provider(Name, config.value.model, limiter, config.value.retryConfig);
    return Ok(p);
  }

  /** Translate(ctx, req) of a Gemini provider: the shared retry and rate-limit
      composition over this vendor's calls. A success is a shaped reply stamped
      "gemini" whose total is the sum of its input and output tokens; a failure
      says "gemini translate failed: ". */
  method Translate(p: Adapter.Provider, req: TranslationRequest, ticks: seq<RateLimit.Tick>, from: nat,
                   api: (Request, nat) -> Answer, canceled: nat -> bool)
    returns (r: Adapter.Outcome<TranslationResponse>, next: nat, ghost attempts: seq<Adapter.Attempt>, ghost doErr: Option<Error>,
             ghost gates: seq<RateLimit.Gate>)
    requires p.Valid() && p.name == Name && from <= |ticks|
    requires Retry.Resolve(p.retryConfig).maxRetries >= 0
    modifies p.limiter
    ensures p.Valid() && from <= next <= |ticks|
    ensures Adapter.Run(Name, Retry.Resolve(p.retryConfig), Calls(p.model, req, api), canceled, attempts, doErr, r)
    ensures p.limiter.tokensGranted == old(p.limiter.tokensGranted) + Adapter.Spent(attempts, req)
    ensures Adapter.Gated(gates, attempts, p.limiter.rpm, p.limiter.tpm, Adapter.EstimateTokens(req.text), ticks)
    ensures gates[0] == old(p.GateAt(from)) && gates[|attempts|] == p.GateAt(next)
    ensures r.Done? && r.result.Ok? ==>
      && r.result.value.provider == Name && r.result.value.sourceText == req.text
      && r.result.value.tokensUsed.totalTokens == r.result.value.tokensUsed.inputTokens + r.result.value.tokensUsed.outputTokens
    ensures r.Done? && r.result.Err? ==> r.result.error == Wrapped(Name + Adapter.FailedSuffix, Adapter.LastApiError(attempts))
  {
    r, next, attempts, doErr, gates := p.Translate(req, ticks, from, Calls(p.model, req, api), canceled);
    RunOutcome(p.model, req, api(BuildRequest(p.model, req), |attempts| - 1),
               Retry.Resolve(p.retryConfig), Calls(p.model, req, api), canceled, attempts, doErr, r);
  }

  /** TranslateBatch(ctx, reqs) of a Gemini provider: the responses, one per
      request in order, each stamped "gemini" and carrying its own source text,
      or the first failure with its index. */
  method TranslateBatch(p: Adapter.Provider, reqs: seq<TranslationRequest>, ticks: seq<RateLimit.Tick>, from: nat,
                        api: (Request, nat, nat) -> Answer, canceled: (nat, nat) -> bool)
    returns (r: Adapter.Outcome<seq<TranslationResponse>>, next: nat,
             ghost outcomes: seq<Adapter.Outcome<TranslationResponse>>, ghost logs: seq<seq<Adapter.Attempt>>,
             ghost errs: seq<Option<Error>>, ghost marks: seq<RateLimit.Gate>, ghost gateLogs: seq<seq<RateLimit.Gate>>)
    requires p.Valid() && p.name == Name && from <= |ticks|
    requires Retry.Resolve(p.retryConfig).maxRetries >= 0
    modifies p.limiter
    ensures p.Valid() && from <= next <= |ticks|
    ensures |outcomes| == |logs| == |errs| <= |reqs|
    ensures Adapter.BatchGated(marks, gateLogs, logs, reqs, p.limiter.rpm, p.limiter.tpm, ticks)
    ensures marks[0] == old(p.GateAt(from)) && marks[|logs|] == p.GateAt(next)
    ensures Adapter.BatchGranted(logs, reqs, p.limiter.tokensGranted - old(p.limiter.tokensGranted),
                                 p.limiter.requestsGranted - old(p.limiter.requestsGranted))
    ensures Adapter.BatchRuns(Name, Retry.Resolve(p.retryConfig), BatchCalls(p.model, api), canceled, reqs, logs, errs, outcomes)
    ensures forall i :: 0 <= i < |outcomes| - 1 ==> outcomes[i].Done? && outcomes[i].result.Ok?
    ensures r.Pending? <==> |outcomes| > 0 && outcomes[|outcomes| - 1].Pending?
    ensures r.Done? && r.result.Ok? ==>
      && |r.result.value| == |reqs| == |outcomes|
      && (forall i :: 0 <= i < |reqs| ==> outcomes[i] == Adapter.Done(Ok(r.result.value[i])))
      && forall i :: 0 <= i < |reqs| ==> r.result.value[i].provider == Name && r.result.value[i].sourceText == reqs[i].text
    ensures r.Done? && r.result.Err? ==>
      && 0 < |outcomes| && outcomes[|outcomes| - 1].Done? && outcomes[|outcomes| - 1].result.Err?
      && r.result.error == Wrapped(Adapter.BatchFailedAt + Text.NatToString(|outcomes| - 1) + ": ",
                                   Some(outcomes[|outcomes| - 1].result.error))
  {
    r, next, outcomes, logs, errs, marks, gateLogs := p.TranslateBatch(reqs, ticks, from, BatchCalls(p.model, api), canceled);
    if r.Done? && r.result.Ok? {
      BatchStamped(p.model, api, Retry.Resolve(p.retryConfig), canceled, reqs, logs, errs, outcomes, r.result.value);
    }
  }

  /** Every answer of a batch that succeeded is stamped with the vendor's name
      and carries its own request's text. */
  lemma BatchStamped(model: string, api: (Request, nat, nat) -> Answer, cfg: Retry.Config, canceled: (nat, nat) -> bool,
                     reqs: seq<TranslationRequest>, logs: seq<seq<Adapter.Attempt>>, errs: seq<Option<Error>>,
                     outcomes: seq<Adapter.Outcome<TranslationResponse>>, values: seq<TranslationResponse>)
    requires Adapter.BatchRuns(Name, cfg, BatchCalls(model, api), canceled, reqs, logs, errs, outcomes)
    requires |values| == |reqs| == |outcomes| && forall i :: 0 <= i < |reqs| ==> outcomes[i] == Adapter.Done(Ok(values[i]))
    ensures forall i :: 0 <= i < |reqs| ==> values[i].provider == Name && values[i].sourceText == reqs[i].text
  {
    forall i | 0 <= i < |reqs|
      ensures values[i].provider == Name && values[i].sourceText == reqs[i].text
    {
      assert Adapter.RanAt(Name, cfg, BatchCalls(model, api), canceled, reqs, logs, errs, outcomes, i);
      RunOutcome(model, reqs[i], api(BuildRequest(model, reqs[i]), i, |logs[i]| - 1),
                 cfg, Adapter.Attempts(BatchCalls(model, api), reqs[i], i),
                 Adapter.Cancels(canceled, i), logs[i], errs[i], outcomes[i]);
    }
  }
  /** A rate-limit error from the API is retried. */
  lemma RateLimitIsRetried()
    ensures IsRetryableError(Plain("googleapi: Error 429"))
  {
    var m := "googleapi: Error 429";
    assert m[17..20] == Keywords[0];
    assert Text.OccursAt(Keywords[0], m, 17);
  }

  /** A message shorter than every keyword is not retried. */
  lemma ShortMessageIsFinal()
    ensures !IsRetryableError(Plain("bad"))
  {
    forall i | 0 <= i < |Keywords|
      ensures !Text.IsSubstring(Keywords[i], "bad")
    {
      Text.OccursByLength(Keywords[i], "bad");
    }
  }

  /** The default model gets pro prices, gemini-1.5-flash flash prices. */
  lemma TierExamples(inputTokens: int, outputTokens: int)
    ensures CalculateCost(DefaultModel, inputTokens, outputTokens) == inputTokens * 1_250_000 + outputTokens * 5_000_000
    ensures CalculateCost(FlashModel, inputTokens, outputTokens) == inputTokens * 75_000 + outputTokens * 300_000
  {
    Text.OccursByLength(FlashModel, FlashModel);
    if Text.IsSubstring(ProModel, FlashModel) {
      var i :| Text.OccursAt(ProModel, FlashModel, i);
      Text.OccursAtChar(ProModel, FlashModel, i, 11);
      assert false;
    }
  }
}
