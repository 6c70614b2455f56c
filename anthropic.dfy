/** The Anthropic adapter: its configuration, the single-message request built
    from the system prompt and the user prompt, the shaping of the SDK's answer,
    its error classifier and its price table. The SDK's Messages.New is the
    oracle api(request, attempt). */
module Anthropic {
  import opened Errors
  import opened Translator
  import Text
  import Retry
  import RateLimit
  import Adapter

  const Name: string := "anthropic"
  /** What separates the system prompt from the user prompt: "\n\n". */
  const BlankLine: string := "\n\n"
  const DefaultModel: string := "claude-sonnet-4-20250514"
  const NoContent: string := "no content returned from Anthropic"
  const MaxTokens: int := 4096

  /** The substrings that make an SDK error retryable. */
  const Keywords: seq<string> := ["429", "500", "503", "overloaded"]

  /** The model-name fragments of the two price tiers. */
  const SonnetModel: string := "claude-sonnet-4"
  const OpusModel: string := "claude-opus"

  datatype Config = Config(apiKey: string, model: string, tpm: nat, rpm: nat, retryConfig: Option<Retry.Config>)

  /** DefaultConfig(apiKey): claude-sonnet-4-20250514, 80000 tokens and 50
      requests per minute, the retry package's default policy. */
  function DefaultConfig(apiKey: string): (c: Config)
    ensures c.apiKey == apiKey && c.tpm == 80000 && c.rpm == 50
    ensures c.retryConfig == Some(Retry.DefaultConfig())
    ensures Text.IsSubstring(SonnetModel, c.model)
  {
    assert Text.OccursAt(SonnetModel, DefaultModel, 0);
    Config(apiKey, DefaultModel, 80000, 50, Some(Retry.DefaultConfig()))
  }

  /** The request: the model, the output cap and the user messages, each one
      text block. */
  datatype Request = Request(model: string, maxTokens: int, messages: seq<string>)

  datatype Usage = Usage(inputTokens: int, outputTokens: int)

  /** The texts of the reply's content blocks and its usage. */
  datatype Reply = Reply(content: seq<string>, usage: Usage)

  /** What the SDK call produced: a reply, or an error with its message. */
  datatype Answer = Replied(reply: Reply) | Failed(message: string)

  /** The one user message: the system prompt, a blank line, then the same
      instruction and text the other vendors send as their user prompt. */
  function FullPrompt(req: TranslationRequest): (p: string)
    ensures var sys := SystemPrompt(req.preserveHTML, req.preserveLiquid);
      && Text.OccursAt(sys, p, 0)
      && Text.OccursAt(BlankLine, p, |sys|)
      && Text.OccursAt(Adapter.UserPrompt(req), p, |sys| + |BlankLine|)
      && |p| == |sys| + |BlankLine| + |Adapter.UserPrompt(req)|
    ensures Text.OccursAt(req.text, p, |p| - |req.text|)
  {
    var sys := SystemPrompt(req.preserveHTML, req.preserveLiquid);
    Text.LayoutOfThree(sys, BlankLine, Adapter.UserPrompt(req));
    EndsWithText(sys, req);
    sys + BlankLine + Adapter.UserPrompt(req)
  }

  /** Whatever comes before the blank line, the message ends with the text to
      translate. */
  lemma EndsWithText(sys: string, req: TranslationRequest)
    ensures var p := sys + BlankLine + Adapter.UserPrompt(req); Text.OccursAt(req.text, p, |p| - |req.text|)
  {
    var user := Adapter.UserPrompt(req);
    var p := sys + BlankLine + user;
    Text.LayoutOfThree(sys, BlankLine, user);
    var i, j := |user| - |req.text|, |sys| + |BlankLine|;
    assert i + j == |p| - |req.text|;
    Text.OccursAtTransitive(req.text, user, p, i, j);
  }

  function BuildRequest(model: string, req: TranslationRequest): (q: Request)
    ensures q.model == model && q.maxTokens == 4096 && q.messages == [FullPrompt(req)]
  {
    Request(model, MaxTokens, [FullPrompt(req)])
  }

  /** isRetryableError(err): the error's message contains 429, 500, 503 or
      overloaded. */
  function IsRetryableError(e: Error): (b: bool)
    ensures b <==> exists i :: 0 <= i < |Keywords| && Text.IsSubstring(Keywords[i], Message(e))
  {
    Text.OccursAnyIsSubstring(Keywords, Message(e));
    Text.OccursAny(Keywords, Message(e))
  }

  /** Per-token prices in picodollars: (input, output). */
  function Prices(model: string): (int, int)
  {
    if Text.Occurs(SonnetModel, model) then (3_000_000, 15_000_000)
    else if Text.Occurs(OpusModel, model) then (15_000_000, 75_000_000)
    else (3_000_000, 15_000_000)
  }

  /** calculateCost(model, in, out), in picodollars: opus prices for a model
      naming claude-opus but not claude-sonnet-4, sonnet prices for any other. */
  function CalculateCost(model: string, inputTokens: int, outputTokens: int): (c: int)
    ensures Text.IsSubstring(OpusModel, model) && !Text.IsSubstring(SonnetModel, model) ==>
      c == inputTokens * 15_000_000 + outputTokens * 75_000_000
    ensures !(Text.IsSubstring(OpusModel, model) && !Text.IsSubstring(SonnetModel, model)) ==>
      c == inputTokens * 3_000_000 + outputTokens * 15_000_000
  {
    Text.OccursIsSubstring(SonnetModel, model);
    Text.OccursIsSubstring(OpusModel, model);
    var (inputPrice, outputPrice) := Prices(model);
    inputTokens * inputPrice + outputTokens * outputPrice
  }

  /** translate(ctx, req) after the SDK call: an SDK error comes back, wrapped as
      retryable exactly when its message has a keyword; a reply without content is
      a plain, non-retryable error; otherwise the first block's text, the usage
      with its sum as total, and its cost. */
  function Respond(model: string, req: TranslationRequest, answer: Answer): (r: Result<TranslationResponse>)
    ensures answer.Failed? ==> r.Err? && Message(r.error) == answer.message
    ensures answer.Failed? ==>
      (Retry.IsRetryable(Some(r.error)) <==> exists i :: 0 <= i < |Keywords| && Text.IsSubstring(Keywords[i], answer.message))
    ensures answer.Replied? && |answer.reply.content| == 0 ==>
      r == Err(Plain(NoContent)) && !Retry.IsRetryable(Some(r.error))
    ensures r.Ok? ==>
      && answer.Replied? && |answer.reply.content| > 0
      && r.value.translatedText == answer.reply.content[0]
      && r.value.sourceText == req.text
      && r.value.tokensUsed.inputTokens == answer.reply.usage.inputTokens
      && r.value.tokensUsed.outputTokens == answer.reply.usage.outputTokens
      && r.value.tokensUsed.totalTokens == r.value.tokensUsed.inputTokens + r.value.tokensUsed.outputTokens
      && r.value.cost == Cost(CalculateCost(model, r.value.tokensUsed.inputTokens, r.value.tokensUsed.outputTokens), "USD")
      && r.value.provider == ""
  {
    Retry.IsRetryableExamples(Canceled, [], NoContent);
    match answer
    case Failed(m) =>
      var e := Plain(m);
      Err(Adapter.Classified(e, IsRetryableError(e)))
    case Replied(reply) =>
      if |reply.content| == 0 then Err(Plain(NoContent))
      else
        var u := reply.usage;
        Ok(TranslationResponse(
          reply.content[0],
          req.text,
          TokenUsage(u.inputTokens, u.outputTokens, u.inputTokens + u.outputTokens),
          Cost(CalculateCost(model, u.inputTokens, u.outputTokens), "USD"),
          ""))
  }

  function Calls(model: string, req: TranslationRequest, api: (Request, nat) -> Answer): nat -> Result<TranslationResponse>
  {
    (k: nat) => Respond(model, req, api(BuildRequest(model, req), k))
  }

  function BatchCalls(model: string, api: (Request, nat, nat) -> Answer): (TranslationRequest, nat, nat) -> Result<TranslationResponse>
  {
    (q: TranslationRequest, i: nat, k: nat) => Respond(model, q, api(BuildRequest(model, q), i, k))
  }

  /** What a run over this vendor's calls returns: a success is a shaped reply
      to req stamped with the vendor's name, a failure wraps the last vendor
      error under the vendor's prefix. */
  lemma {:induction false} RunOutcome(model: string, req: TranslationRequest, answer: Answer,
                                      cfg: Retry.Config, call: nat -> Result<TranslationResponse>, canceled: nat -> bool,
                                      attempts: seq<Adapter.Attempt>, doErr: Option<Error>, r: Adapter.Outcome<TranslationResponse>)
    requires Adapter.Run(Name, cfg, call, canceled, attempts, doErr, r)
    requires call(|attempts| - 1) == Respond(model, req, answer)
    ensures r.Done? && r.result.Ok? ==>
      && r.result.value.provider == Name && r.result.value.sourceText == req.text
      && r.result.value.tokensUsed.totalTokens == r.result.value.tokensUsed.inputTokens + r.result.value.tokensUsed.outputTokens
    ensures r.Done? && r.result.Err? ==>
      r.result.error == Wrapped(Name + Adapter.FailedSuffix, Adapter.LastApiError(attempts))
  {
    if r.Done? && r.result.Ok? {
      Adapter.RunSucceeded(Name, cfg, call, canceled, attempts, doErr, r);
    }
  }

  /** NewProvider(config): a provider named anthropic for config.Model, with a
      full limiter of config's limits and config's retry policy. A nil config
      panics; the parameter is not optional. */
  method NewProvider(config: Config, now: int) returns (p: Adapter.Provider)
    ensures fresh(p) && fresh(p.limiter) && p.Valid()
    ensures p.name == Name && p.Name() == "anthropic" && p.model == config.model && p.retryConfig == config.retryConfig
    ensures p.limiter.tpm == config.tpm && p.limiter.rpm == config.rpm
    ensures p.limiter.tokens == config.tpm && p.limiter.requests == config.rpm
  {
    var limiter := new RateLimit.Limiter(config.tpm, config.rpm, now);
    p := new Adapter.Provider(Name, config.model, limiter, config.retryConfig);
  }

  /** Translate(ctx, req) of an Anthropic provider: the shared retry and
      rate-limit composition over this vendor's calls. A success is a shaped
      reply stamped "anthropic" whose total is the sum of its input and output
      tokens; a failure says "anthropic translate failed: ". */
  method Translate(p: Adapter.Provider, req: TranslationRequest, ticks: seq<RateLimit.Tick>, from: nat,
                   api: (Request, nat) -> Answer, canceled: nat -> bool)
    returns (r: Adapter.Outcome<TranslationResponse>, next: nat, ghost attempts: seq<Adapter.Attempt>, ghost doErr: Option<Error>,
             ghost gates: seq<RateLimit.Gate>)
    requires p.Valid() && p.name == Name && from <= |ticks|
    requires Retry.Resolve(p.retryConfig).maxRetries >= 0
    modifies p.limiter
    ensures p.Valid() && from <= next <= |ticks|
    ensures Adapter.Run(Name, Retry.Resolve(p.retryConfig), Calls(p.model, req, api), canceled, attempts, doErr, r)
    ensures p.limiter.tokensGranted == old(p.limiter.tokensGranted) + Adapter.Spent(attempts, req)
    ensures Adapter.Gated(gates, attempts, p.limiter.rpm, p.limiter.tpm, Adapter.EstimateTokens(req.text), ticks)
    ensures gates[0] == old(p.GateAt(from)) && gates[|attempts|] == p.GateAt(next)
    ensures r.Done? && r.result.Ok? ==>
      && r.result.value.provider == Name && r.result.value.sourceText == req.text
      && r.result.value.tokensUsed.totalTokens == r.result.value.tokensUsed.inputTokens + r.result.value.tokensUsed.outputTokens
    ensures r.Done? && r.result.Err? ==> r.result.error == Wrapped(Name + Adapter.FailedSuffix, Adapter.LastApiError(attempts))
  {
    r, next, attempts, doErr, gates := p.Translate(req, ticks, from, Calls(p.model, req, api), canceled);
    RunOutcome(p.model, req, api(BuildRequest(p.model, req), |attempts| - 1),
               Retry.Resolve(p.retryConfig), Calls(p.model, req, api), canceled, attempts, doErr, r);
  }

  /** TranslateBatch(ctx, reqs) of an Anthropic provider: one response per
      request, in order, each stamped "anthropic", or the first failure with its
      index. */
  method TranslateBatch(p: Adapter.Provider, reqs: seq<TranslationRequest>, ticks: seq<RateLimit.Tick>, from: nat,
                        api: (Request, nat, nat) -> Answer, canceled: (nat, nat) -> bool)
    returns (r: Adapter.Outcome<seq<TranslationResponse>>, next: nat,
             ghost outcomes: seq<Adapter.Outcome<TranslationResponse>>, ghost logs: seq<seq<Adapter.Attempt>>,
             ghost errs: seq<Option<Error>>, ghost marks: seq<RateLimit.Gate>, ghost gateLogs: seq<seq<RateLimit.Gate>>)
    requires p.Valid() && p.name == Name && from <= |ticks|
    requires Retry.Resolve(p.retryConfig).maxRetries >= 0
    modifies p.limiter
    ensures p.Valid() && from <= next <= |ticks|
    ensures |outcomes| == |logs| == |errs| <= |reqs|
    ensures Adapter.BatchGated(marks, gateLogs, logs, reqs, p.limiter.rpm, p.limiter.tpm, ticks)
    ensures marks[0] == old(p.GateAt(from)) && marks[|logs|] == p.GateAt(next)
    ensures Adapter.BatchGranted(logs, reqs, p.limiter.tokensGranted - old(p.limiter.tokensGranted),
                                 p.limiter.requestsGranted - old(p.limiter.requestsGranted))
    ensures Adapter.BatchRuns(Name, Retry.Resolve(p.retryConfig), BatchCalls(p.model, api), canceled, reqs, logs, errs, outcomes)
    ensures forall i :: 0 <= i < |outcomes| - 1 ==> outcomes[i].Done? && outcomes[i].result.Ok?
    ensures r.Pending? <==> |outcomes| > 0 && outcomes[|outcomes| - 1].Pending?
    ensures r.Done? && r.result.Ok? ==>
      && |r.result.value| == |reqs| == |outcomes|
      && (forall i :: 0 <= i < |reqs| ==> outcomes[i] == Adapter.Done(Ok(r.result.value[i])))
      && forall i :: 0 <= i < |reqs| ==> r.result.value[i].provider == Name && r.result.value[i].sourceText == reqs[i].text
    ensures r.Done? && r.result.Err? ==>
      && 0 < |outcomes| && outcomes[|outcomes| - 1].Done? && outcomes[|outcomes| - 1].result.Err?
      && r.result.error == Wrapped(Adapter.BatchFailedAt + Text.NatToString(|outcomes| - 1) + ": ",
                                   Some(outcomes[|outcomes| - 1].result.error))
  {
    r, next, outcomes, logs, errs, marks, gateLogs := p.TranslateBatch(reqs, ticks, from, BatchCalls(p.model, api), canceled);
    if r.Done? && r.result.Ok? {
      BatchStamped(p.model, api, Retry.Resolve(p.retryConfig), canceled, reqs, logs, errs, outcomes, r.result.value);
    }
  }

  /** Every answer of a batch that succeeded is stamped with the vendor's name
      and carries its own request's text. */
  lemma BatchStamped(model: string, api: (Request, nat, nat) -> Answer, cfg: Retry.Config, canceled: (nat, nat) -> bool,
                     reqs: seq<TranslationRequest>, logs: seq<seq<Adapter.Attempt>>, errs: seq<Option<Error>>,
                     outcomes: seq<Adapter.Outcome<TranslationResponse>>, values: seq<TranslationResponse>)
    requires Adapter.BatchRuns(Name, cfg, BatchCalls(model, api), canceled, reqs, logs, errs, outcomes)
    requires |values| == |reqs| == |outcomes| && forall i :: 0 <= i < |reqs| ==> outcomes[i] == Adapter.Done(Ok(values[i]))
    ensures forall i :: 0 <= i < |reqs| ==> values[i].provider == Name && values[i].sourceText == reqs[i].text
  {
    forall i | 0 <= i < |reqs|
      ensures values[i].provider == Name && values[i].sourceText == reqs[i].text
    {
      assert Adapter.RanAt(Name, cfg, BatchCalls(model, api), canceled, reqs, logs, errs, outcomes, i);
      RunOutcome(model, reqs[i], api(BuildRequest(model, reqs[i]), i, |logs[i]| - 1),
                 cfg, Adapter.Attempts(BatchCalls(model, api), reqs[i], i),
                 Adapter.Cancels(canceled, i), logs[i], errs[i], outcomes[i]);
    }
  }

  /** An overloaded API is retried, a short message without a keyword is not. */
  lemma ClassifierExamples()
    ensures IsRetryableError(Plain("overloaded_error"))
    ensures !IsRetryableError(Plain("bad"))
  {
    assert Text.OccursAt(Keywords[3], "overloaded_error", 0);
    forall i | 0 <= i < |Keywords|
      ensures !Text.IsSubstring(Keywords[i], "bad")
    {
      Text.OccursByLength(Keywords[i], "bad");
    }
  }

  /** The default model gets sonnet prices. */
  lemma DefaultModelTier(inputTokens: int, outputTokens: int)
    ensures CalculateCost(DefaultModel, inputTokens, outputTokens) == inputTokens * 3_000_000 + outputTokens * 15_000_000
  {
    assert Text.OccursAt(SonnetModel, DefaultModel, 0);
  }

  /** An opus model gets opus prices. */
  lemma OpusModelTier(inputTokens: int, outputTokens: int)
    ensures CalculateCost("claude-opus-4-20250514", inputTokens, outputTokens) == inputTokens * 15_000_000 + outputTokens * 75_000_000
  {
    var opus := "claude-opus-4-20250514";
    assert Text.OccursAt(OpusModel, opus, 0);
    if Text.IsSubstring(SonnetModel, opus) {
      var i :| Text.OccursAt(SonnetModel, opus, i);
      Text.OccursAtChar(SonnetModel, opus, i, 0);
      Text.OccursAtChar(SonnetModel, opus, i, 7);
      assert false;
    }
  }
}
