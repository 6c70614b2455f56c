/** The OpenAI adapter: its configuration, the chat request it sends, the
    shaping of the SDK's answer, its error classifier, its substring search built
    from prefix, suffix and infix tests, and its price table. The SDK's
    CreateChatCompletion is the oracle api(request, attempt). */
module OpenAI {
  import opened Errors
  import opened Translator
  import Text
  import Retry
  import RateLimit
  import Adapter

  const Name: string := "openai"
  const DefaultModel: string := "gpt-4o"
  const NoChoices: string := "no choices returned from OpenAI"

  /** The substrings that make an SDK error retryable. */
  const Keywords: seq<string> := ["429", "500", "503"]

  datatype Config = Config(apiKey: string, model: string, tpm: nat, rpm: nat, retryConfig: Option<Retry.Config>)

  /** DefaultConfig(apiKey): gpt-4o, 90000 tokens and 500 requests per minute, the
      retry package's default policy. */
  function DefaultConfig(apiKey: string): (c: Config)
    ensures c.apiKey == apiKey && c.model == "gpt-4o" && c.tpm == 90000 && c.rpm == 500
    ensures c.retryConfig == Some(Retry.DefaultConfig())
  {
    Config(apiKey, DefaultModel, 90000, 500, Some(Retry.DefaultConfig()))
  }

  datatype ChatMessage = ChatMessage(role: string, content: string)

  /** The chat request: the model, then a system message and a user message. */
  datatype Request = Request(model: string, messages: seq<ChatMessage>)

  datatype Usage = Usage(promptTokens: int, completionTokens: int, totalTokens: int)

  /** The choices' message contents and the usage the API reports. */
  datatype Reply = Reply(choices: seq<string>, usage: Usage)

  /** What the SDK call produced: a reply, or an error with its message. */
  datatype Answer = Replied(reply: Reply) | Failed(message: string)

  function BuildRequest(model: string, req: TranslationRequest): (q: Request)
    ensures q.model == model && |q.messages| == 2
    ensures q.messages[0] == ChatMessage("system", SystemPrompt(req.preserveHTML, req.preserveLiquid))
    ensures q.messages[1] == ChatMessage("user", Adapter.UserPrompt(req))
  {
    Request(model, [ChatMessage("system", SystemPrompt(req.preserveHTML, req.preserveLiquid)),
                    ChatMessage("user", Adapter.UserPrompt(req))])
  }

  /** hasPrefix(s, prefix): s is prefix followed by something. */
  function HasPrefix(s: string, prefix: string): (b: bool)
    ensures b <==> exists t :: s == prefix + t
    ensures b ==> Text.OccursAt(prefix, s, 0)
  {
    assert forall t :: s == prefix + t ==> |s| >= |prefix| && s[..|prefix|] == prefix;
    assert |s| >= |prefix| && s[..|prefix|] == prefix ==> s == prefix + s[|prefix|..];
    |s| >= |prefix| && s[..|prefix|] == prefix
  }

  /** hasSuffix(s, suffix): s is something followed by suffix. */
  function HasSuffix(s: string, suffix: string): (b: bool)
    ensures b <==> exists t :: s == t + suffix
    ensures b ==> Text.OccursAt(suffix, s, |s| - |suffix|)
  {
    assert forall t :: s == t + suffix ==> |s| >= |suffix| && s[|s| - |suffix|..] == suffix;
    assert |s| >= |suffix| && s[|s| - |suffix|..] == suffix ==> s == s[..|s| - |suffix|] + suffix;
    |s| >= |suffix| && s[|s| - |suffix|..] == suffix
  }

  /** contains(s, substr): equal strings, or a longer s with substr as prefix,
      suffix or infix (hasInfix is the index loop Text.Contains). It is exactly
      substring search, the empty substring included. */
  method Contains(s: string, sub: string) returns (found: bool)
    ensures found <==> Text.IsSubstring(sub, s)
  {
    Text.OccursByLength(sub, s);
    if |s| < |sub| {
      return false;
    }
    if s == sub {
      return true;
    }
    if |s| == |sub| {
      return false;
    }
    if HasPrefix(s, sub) || HasSuffix(s, sub) {
      return true;
    }
    found := Text.Contains(s, sub);
  }

  /** isRetryableError(err): the error's message contains 429, 500 or 503. */
  function IsRetryableError(e: Error): (b: bool)
    ensures b <==> exists i :: 0 <= i < |Keywords| && Text.IsSubstring(Keywords[i], Message(e))
  {
    Text.OccursAnyIsSubstring(Keywords, Message(e));
    Text.OccursAny(Keywords, Message(e))
  }

  /** calculateCost(model, in, out), in picodollars: an exact match on the model
      name; gpt-4 has its own prices and every other name, gpt-4o included, gets
      gpt-4o's. */
  function CalculateCost(model: string, inputTokens: int, outputTokens: int): (c: int)
    ensures model == "gpt-4" ==> c == inputTokens * 30_000_000 + outputTokens * 60_000_000
    ensures model != "gpt-4" ==> c == inputTokens * 5_000_000 + outputTokens * 15_000_000
  {
    var (inputPrice, outputPrice) :=
      if model == "gpt-4o" then (5_000_000, 15_000_000)
      else if model == "gpt-4" then (30_000_000, 60_000_000)
      else (5_000_000, 15_000_000);
    inputTokens * inputPrice + outputTokens * outputPrice
  }

  /** translate(ctx, req) after the SDK call: an SDK error comes back, wrapped as
      retryable exactly when its message has a keyword; a reply without choices is
      a plain, non-retryable error; otherwise the first choice's content with the
      usage as reported, the total included, and its cost. */
  function Respond(model: string, req: TranslationRequest, answer: Answer): (r: Result<TranslationResponse>)
    ensures answer.Failed? ==> r.Err? && Message(r.error) == answer.message
    ensures answer.Failed? ==>
      (Retry.IsRetryable(Some(r.error)) <==> exists i :: 0 <= i < |Keywords| && Text.IsSubstring(Keywords[i], answer.message))
    ensures answer.Replied? && |answer.reply.choices| == 0 ==>
      r == Err(Plain(NoChoices)) && !Retry.IsRetryable(Some(r.error))
    ensures r.Ok? ==>
      && answer.Replied? && |answer.reply.choices| > 0
      && r.value.translatedText == answer.reply.choices[0]
      && r.value.sourceText == req.text
      && r.value.tokensUsed.inputTokens == answer.reply.usage.promptTokens
      && r.value.tokensUsed.outputTokens == answer.reply.usage.completionTokens
      && r.value.tokensUsed.totalTokens == answer.reply.usage.totalTokens
      && r.value.cost == Cost(CalculateCost(model, r.value.tokensUsed.inputTokens, r.value.tokensUsed.outputTokens), "USD")
      && r.value.provider == ""
  {
    Retry.IsRetryableExamples(Canceled, [], NoChoices);
    match answer
    case Failed(m) =>
      var e := Plain(m);
      Err(Adapter.Classified(e, IsRetryableError(e)))
    case Replied(reply) =>
      if |reply.choices| == 0 then Err(Plain(NoChoices))
      else
        var u := reply.usage;
        Ok(TranslationResponse(
          reply.choices[0],
          req.text,
          TokenUsage(u.promptTokens, u.completionTokens, u.totalTokens),
          Cost(CalculateCost(model, u.promptTokens, u.completionTokens), "USD"),
          ""))
  }

  function Calls(model: string, req: TranslationRequest, api: (Request, nat) -> Answer): nat -> Result<TranslationResponse>
  {
    (k: nat) => Respond(model, req, api(BuildRequest(model, req), k))
  }

  function BatchCalls(model: string, api: (Request, nat, nat) -> Answer): (TranslationRequest, nat, nat) -> Result<TranslationResponse>
  {
    (q: TranslationRequest, i: nat, k: nat) => Respond(model, q, api(BuildRequest(model, q), i, k))
  }

  /** What a run over this vendor's calls returns: a success is a shaped reply
      to req stamped with the vendor's name, a failure wraps the last vendor
      error under the vendor's prefix. */
  lemma {:induction false} RunOutcome(model: string, req: TranslationRequest, answer: Answer,
                                      cfg: Retry.Config, call: nat -> Result<TranslationResponse>, canceled: nat -> bool,
                                      attempts: seq<Adapter.Attempt>, doErr: Option<Error>, r: Adapter.Outcome<TranslationResponse>)
    requires Adapter.Run(Name, cfg, call, canceled, attempts, doErr, r)
    requires call(|attempts| - 1) == Respond(model, req, answer)
    ensures r.Done? && r.result.Ok? ==>
      && r.result.value.provider == Name && r.result.value.sourceText == req.text
    ensures r.Done? && r.result.Err? ==>
      r.result.error == Wrapped(Name + Adapter.FailedSuffix, Adapter.LastApiError(attempts))
  {
    if r.Done? && r.result.Ok? {
      Adapter.RunSucceeded(Name, cfg, call, canceled, attempts, doErr, r);
    }
  }

  /** NewProvider(config): a provider named openai for config.Model, with a full
      limiter of config's limits and config's retry policy. A nil config panics;
      the parameter is not optional. */
  method NewProvider(config: Config, now: int) returns (p: Adapter.Provider)
    ensures fresh(p) && fresh(p.limiter) && p.Valid()
    ensures p.name == Name && p.Name() == "openai" && p.model == config.model && p.retryConfig == config.retryConfig
    ensures p.limiter.tpm == config.tpm && p.limiter.rpm == config.rpm
    ensures p.limiter.tokens == config.tpm && p.limiter.requests == config.rpm
  {
    var limiter := new RateLimit.Limiter(config.tpm, config.rpm, now);
    p := new Adapter.Provider(Name, config.model, limiter, config.retryConfig);
  }

  /** Translate(ctx, req) of an OpenAI provider: the shared retry and rate-limit
      composition over this vendor's calls. A success is a shaped reply stamped
      "openai"; a failure says "openai translate failed: ". */
  method Translate(p: Adapter.Provider, req: TranslationRequest, ticks: seq<RateLimit.Tick>, from: nat,
                   api: (Request, nat) -> Answer, canceled: nat -> bool)
    returns (r: Adapter.Outcome<TranslationResponse>, next: nat, ghost attempts: seq<Adapter.Attempt>, ghost doErr: Option<Error>,
             ghost gates: seq<RateLimit.Gate>)
    requires p.Valid() && p.name == Name && from <= |ticks|
    requires Retry.Resolve(p.retryConfig).maxRetries >= 0
    modifies p.limiter
    ensures p.Valid() && from <= next <= |ticks|
    ensures Adapter.Run(Name, Retry.Resolve(p.retryConfig), Calls(p.model, req, api), canceled, attempts, doErr, r)
    ensures p.limiter.tokensGranted == old(p.limiter.tokensGranted) + Adapter.Spent(attempts, req)
    ensures Adapter.Gated(gates, attempts, p.limiter.rpm, p.limiter.tpm, Adapter.EstimateTokens(req.text), ticks)
    ensures gates[0] == old(p.GateAt(from)) && gates[|attempts|] == p.GateAt(next)
    ensures r.Done? && r.result.Ok? ==> r.result.value.provider == Name && r.result.value.sourceText == req.text
    ensures r.Done? && r.result.Err? ==> r.result.error == Wrapped(Name + Adapter.FailedSuffix, Adapter.LastApiError(attempts))
  {
    r, next, attempts, doErr, gates := p.Translate(req, ticks, from, Calls(p.model, req, api), canceled);
    RunOutcome(p.model, req, api(BuildRequest(p.model, req), |attempts| - 1),
               Retry.Resolve(p.retryConfig), Calls(p.model, req, api), canceled, attempts, doErr, r);
  }

  /** TranslateBatch(ctx, reqs) of an OpenAI provider: one response per request,
      in order, each stamped "openai", or the first failure with its index. */
  method TranslateBatch(p: Adapter.Provider, reqs: seq<TranslationRequest>, ticks: seq<RateLimit.Tick>, from: nat,
                        api: (Request, nat, nat) -> Answer, canceled: (nat, nat) -> bool)
    returns (r: Adapter.Outcome<seq<TranslationResponse>>, next: nat,
             ghost outcomes: seq<Adapter.Outcome<TranslationResponse>>, ghost logs: seq<seq<Adapter.Attempt>>,
             ghost errs: seq<Option<Error>>, ghost marks: seq<RateLimit.Gate>, ghost gateLogs: seq<seq<RateLimit.Gate>>)
    requires p.Valid() && p.name == Name && from <= |ticks|
    requires Retry.Resolve(p.retryConfig).maxRetries >= 0
    modifies p.limiter
    ensures p.Valid() && from <= next <= |ticks|
    ensures |outcomes| == |logs| == |errs| <= |reqs|
    ensures Adapter.BatchGated(marks, gateLogs, logs, reqs, p.limiter.rpm, p.limiter.tpm, ticks)
    ensures marks[0] == old(p.GateAt(from)) && marks[|logs|] == p.GateAt(next)
    ensures Adapter.BatchGranted(logs, reqs, p.limiter.tokensGranted - old(p.limiter.tokensGranted),
                                 p.limiter.requestsGranted - old(p.limiter.requestsGranted))
    ensures Adapter.BatchRuns(Name, Retry.Resolve(p.retryConfig), BatchCalls(p.model, api), canceled, reqs, logs, errs, outcomes)
    ensures forall i :: 0 <= i < |outcomes| - 1 ==> outcomes[i].Done? && outcomes[i].result.Ok?
    ensures r.Pending? <==> |outcomes| > 0 && outcomes[|outcomes| - 1].Pending?
    ensures r.Done? && r.result.Ok? ==>
      && |r.result.value| == |reqs| == |outcomes|
      && (forall i :: 0 <= i < |reqs| ==> outcomes[i] == Adapter.Done(Ok(r.result.value[i])))
      && forall i :: 0 <= i < |reqs| ==> r.result.value[i].provider == Name && r.result.value[i].sourceText == reqs[i].text
    ensures r.Done? && r.result.Err? ==>
      && 0 < |outcomes| && outcomes[|outcomes| - 1].Done? && outcomes[|outcomes| - 1].result.Err?
      && r.result.error == Wrapped(Adapter.BatchFailedAt + Text.NatToString(|outcomes| - 1) + ": ",
                                   Some(outcomes[|outcomes| - 1].result.error))
  {
    r, next, outcomes, logs, errs, marks, gateLogs := p.TranslateBatch(reqs, ticks, from, BatchCalls(p.model, api), canceled);
    if r.Done? && r.result.Ok? {
      BatchStamped(p.model, api, Retry.Resolve(p.retryConfig), canceled, reqs, logs, errs, outcomes, r.result.value);
    }
  }

  /** Every answer of a batch that succeeded is stamped with the vendor's name
      and carries its own request's text. */
  lemma BatchStamped(model: string, api: (Request, nat, nat) -> Answer, cfg: Retry.Config, canceled: (nat, nat) -> bool,
                     reqs: seq<TranslationRequest>, logs: seq<seq<Adapter.Attempt>>, errs: seq<Option<Error>>,
                     outcomes: seq<Adapter.Outcome<TranslationResponse>>, values: seq<TranslationResponse>)
    requires Adapter.BatchRuns(Name, cfg, BatchCalls(model, api), canceled, reqs, logs, errs, outcomes)
    requires |values| == |reqs| == |outcomes| && forall i :: 0 <= i < |reqs| ==> outcomes[i] == Adapter.Done(Ok(values[i]))
    ensures forall i :: 0 <= i < |reqs| ==> values[i].provider == Name && values[i].sourceText == reqs[i].text
  {
    forall i | 0 <= i < |reqs|
      ensures values[i].provider == Name && values[i].sourceText == reqs[i].text
    {
      assert Adapter.RanAt(Name, cfg, BatchCalls(model, api), canceled, reqs, logs, errs, outcomes, i);
      RunOutcome(model, reqs[i], api(BuildRequest(model, reqs[i]), i, |logs[i]| - 1),
                 cfg, Adapter.Attempts(BatchCalls(model, api), reqs[i], i),
                 Adapter.Cancels(canceled, i), logs[i], errs[i], outcomes[i]);
    }
  }

  /** The total is the API's own figure, even when it is not the sum of the
      other two. */
  lemma TotalIsReported(model: string, req: TranslationRequest)
    ensures var r := Respond(model, req, Replied(Reply(["hola"], Usage(10, 20, 35))));
      r.Ok? && r.value.tokensUsed == TokenUsage(10, 20, 35)
  {
  }

  /** gpt-4o-mini is not gpt-4o by name, yet it is priced as gpt-4o. */
  lemma TierExamples(inputTokens: int, outputTokens: int)
    ensures CalculateCost("gpt-4o-mini", inputTokens, outputTokens) == CalculateCost("gpt-4o", inputTokens, outputTokens)
    ensures CalculateCost("gpt-4", inputTokens, outputTokens) == inputTokens * 30_000_000 + outputTokens * 60_000_000
  {
  }
}
