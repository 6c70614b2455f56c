# Translator provider layer, modelled in Dafny

This project models the provider layer of a Go translation service: the part that
turns one translation request into calls to an AI vendor and back. It covers:

- **retry** (`Retry`): the `RetryableError` marker, `IsRetryable`, the default
  policy, the capped exponential backoff and the `Do` loop. `Do` is a method over
  two oracles: what the operation returns at each call, and whether the context
  is done when the backoff `select` is reached. It is proved against `Trace`,
  a declarative description of every run `Do` can make.
- **ratelimit** (`RateLimit`): the `Limiter` class with its request and token
  buckets. Each bucket is reset to its limit once a minute has passed since its
  last fill. `waitRequests`, `waitTokens` and `Wait` are loop methods over a
  trace of clock ticks. Each is proved equal to the pure function `Drain`, and
  the bucket properties are proved about `Drain`.
- **translator** (`Translator`): the request and response records and
  `SystemPrompt`. The prompt is proved to be the concatenation of its fragments,
  each present exactly under its flag and at a known position.
- **fallback** (`Fallback`): the chain, its name, and `Translate` /
  `TranslateBatch`. Both try the providers in order and wrap the last annotated
  failure when all fail.
- **the three provider adapters**:
  - `Adapter` holds the part the three vendors share: the token estimate, the
    user prompt, and a `Provider` class whose `Translate` is retry.Do over a
    closure that waits on the limiter and then calls the vendor. Its
    `TranslateBatch` stops at the first failing index.
  - `Gemini`, `OpenAI` and `Anthropic` each hold that vendor's own parts:
    default configuration, the SDK request, the shaping of the SDK's answer, the
    keyword classifier of retryable errors, the price table, `NewProvider`, and
    `Translate`/`TranslateBatch` over their SDK oracle.
- **shared modules**: `Errors` models Go errors and their wrap chains (`%w`,
  `errors.Is`, `errors.As`). `Text` holds the substring predicates and loops.

Some behaviour is shown rather than corrected:
- `Adapter.RunLimiterFailure`: when the limiter's wait is cancelled at the first
  attempt, `Translate` wraps a nil cause. The error then reads
  `"<name> translate failed: %!w(<nil>)"` and the context's error is not on its
  chain.
- `OpenAI.TierExamples`: OpenAI's price table matches model names exactly, so
  `gpt-4o-mini` is priced as `gpt-4o`.
- `OpenAI.TotalIsReported`: OpenAI reports the API's own total, not the sum of
  the input and output tokens.

Three behaviours of the code are worth stating plainly, since a reader might
expect otherwise:
- The limiter resets each bucket to its full limit once a minute has passed
  since its last fill. It does not refill continuously.
- Retry sleeps exactly the capped exponential backoff. It adds no jitter and
  reads no retry-after hint from the vendor.
- The fallback chain moves to the next provider after any error, retryable or
  not. It never asks a provider whether it is available or has capacity.

## Model

| member | source | states |
|---|---|---|
| Errors.RetryableIsTransparent | translator/retry/retry.go:16-22 | a RetryableError reports its inner error's message and unwraps to it, so errors.Is finds the inner error |
| Errors.WrappedKeepsCause | translator/fallback/fallback.go:42-43 | wrapping with %w keeps the cause on the chain and appends its message to the prefix |
| Text.OccursIsSubstring | translator/providers/gemini/gemini.go:189-196 | the recursive substring test used by the price tables holds exactly when sub occurs at some index of s |
| Text.Contains | translator/providers/gemini/gemini.go:189-196 | the index loop of contains (the same code as anthropic's contains and openai's hasInfix) returns true iff sub is a substring of s; the empty sub is found, a longer sub is not |
| Text.OccursAnyIsSubstring | translator/providers/gemini/gemini.go:185-186 | the disjunction of contains over a keyword list holds iff some keyword is a substring of the message |
| Text.NatToString | translator/fallback/fallback.go:42-43 | %d of a natural number is a non-empty string of decimal digits that reads back as that number, with no leading zero |
| Retry.IsRetryableIffOnChain | translator/retry/retry.go:24-28 | IsRetryable holds iff a RetryableError is somewhere on the error's wrap chain (errors.As) |
| Retry.IsRetryableExamples | translator/retry/retry.go:24-28 | a RetryableError is retryable, also under a %w wrap; a plain error, the context's error and nil are not |
| Retry.DefaultConfig | translator/retry/retry.go:39-46 | the default policy has positive retries, initial backoff and cap, and a multiplier above one |
| Retry.Resolve | translator/retry/retry.go:50-52 | a nil config means 3 retries, 1s initial backoff, 30s cap, multiplier 2; a given config is used as is |
| Retry.BackoffBoundedAndMonotone | translator/retry/retry.go:88-94 | the backoff never exceeds MaxBackoff and never shrinks from one attempt to the next |
| Retry.DefaultSchedule | translator/retry/retry.go:88-94 | under the default policy the sleeps are 1s, 2s, 4s, then 8s and 16s, and 30s for every attempt from the sixth on |
| Retry.Do | translator/retry/retry.go:49-86 | Do's calls and returned error form a Trace: all attempts but the last failed retryably without cancellation, and the last one decides success, non-retryable error, exhaustion or cancellation; the sleeps are the backoff schedule, none after the last attempt |
| Retry.SucceedsOnFirstCall | translator/retry/retry.go:57-60 | an operation that succeeds at once is called once and Do returns nil |
| Retry.NonRetryableStopsAtOnce | translator/retry/retry.go:64-67 | a non-retryable error is returned unchanged after one call, with no sleep |
| Retry.ExhaustsAttempts | translator/retry/retry.go:56-85 | an operation that always fails retryably is called MaxRetries + 1 times after MaxRetries sleeps, and its last error is returned |
| Retry.SucceedsAfterRetries | translator/retry/retry.go:56-83 | m retryable failures followed by a success make Do succeed after exactly m + 1 calls |
| Retry.CanceledDuringBackoff | translator/retry/retry.go:77-79 | a context done during the backoff after attempt j ends Do with the context's error after j + 1 calls |
| Retry.TraceIsDeterministic | translator/retry/retry.go:49-86 | for given oracles, a run has one number of calls and one returned error |
| RateLimit.Drain | translator/ratelimit/ratelimit.go:51-81 | a wait loop consumes at least one tick unless the trace ran out while blocked, and fails only with the context's error |
| RateLimit.DrainDebitsOnlyOnSuccess | translator/ratelimit/ratelimit.go:87-99 | a successful wait takes exactly the needed units from the old balance or from a reset to the limit at the acquiring tick; a failed wait takes nothing |
| RateLimit.DrainStaysInRange | translator/ratelimit/ratelimit.go:91-98 | a balance between 0 and the limit stays there across a wait |
| RateLimit.NeverReadyAboveLimit | translator/ratelimit/ratelimit.go:87-112 | asking for more than the limit never succeeds, however long the caller waits |
| RateLimit.ReadyAtOnce | translator/ratelimit/ratelimit.go:56-67 | when the balance after a possible reset suffices, the wait succeeds at the first tick without sleeping |
| RateLimit.WaitSign | translator/ratelimit/ratelimit.go:56-70 | the computed wait is positive exactly when no reset happened at that tick, and then the bucket is unchanged |
| RateLimit.ReadyAfterWait | translator/ratelimit/ratelimit.go:69-79 | a caller that sleeps the computed wait finds the bucket reset and succeeds at the next tick, when the limit covers the need |
| RateLimit.Limiter.constructor | translator/ratelimit/ratelimit.go:24-34 | NewLimiter starts both buckets full at their limits, last filled at creation |
| RateLimit.Limiter.WaitRequests | translator/ratelimit/ratelimit.go:51-81 | the request loop ends in the state and result Drain gives for a need of one, leaves the token bucket alone and counts one granted request on success |
| RateLimit.Limiter.WaitTokens | translator/ratelimit/ratelimit.go:83-113 | the token loop ends in the state and result Drain gives for tokensNeeded, leaves the request bucket alone and counts the granted tokens on success |
| RateLimit.Limiter.Wait | translator/ratelimit/ratelimit.go:37-49 | the request bucket is drained first and the token bucket only after it succeeded; a request taken stays taken when the token wait then fails; the result, the new buckets and the clock position are exactly WaitGate of the old ones |
| RateLimit.WaitGate | translator/ratelimit/ratelimit.go:37-49 | one Wait as a step between limiter states: it reads the tick trace only from its starting position on and never past the end, stays pending only when the trace ran out, and fails only with the context's error |
| RateLimit.WaitGateDebits | translator/ratelimit/ratelimit.go:37-49 | a Wait that succeeded took exactly one request and the needed tokens, each from the balance it started with or from a reset to the limit; one that did not succeed took no tokens |
| RateLimit.WaitGateStaysInRange | translator/ratelimit/ratelimit.go:37-49 | balances between 0 and their limits stay there across a Wait |
| RateLimit.Limiter.SetTPM | translator/ratelimit/ratelimit.go:116-120 | only the token limit changes; balances and fill times are kept |
| RateLimit.Limiter.SetRPM | translator/ratelimit/ratelimit.go:123-127 | only the request limit changes; balances and fill times are kept |
| Translator.Compose | translator/translator.go:53-73 | the prompt's length is the base plus each appended fragment; the base is at 0, the header right after it, the HTML rule after the header, the Liquid rule after that, and the footer closes the prompt |
| Translator.SystemPrompt | translator/translator.go:53-73 | the prompt is never shorter than the base instruction, which is non-empty |
| Translator.ComposeIsFragments | translator/translator.go:53-73 | the prompt is exactly the concatenation of its fragments in the order base, header, HTML rule, Liquid rule, footer |
| Translator.PromptIsFragments | translator/translator.go:53-73 | the same for the real prompt texts |
| Translator.FragmentLengths | translator/translator.go:54-69 | the five prompt texts have lengths 130, 89, 72, 88 and 135 |
| Translator.FragmentsFollowFlagsOf | translator/translator.go:56-70 | with fragments of distinct lengths, the header and footer are present iff a flag is set, and each rule iff its own flag |
| Translator.FragmentsFollowFlags | translator/translator.go:56-70 | in the real prompt each fragment is present exactly under its condition, and with no flag the prompt is the base instruction alone |
| Translator.PromptLength | translator/translator.go:53-73 | the prompt's length is 130 plus 224 when any markup is preserved, plus 72 for HTML and 88 for Liquid |
| Translator.PromptLayout | translator/translator.go:53-73 | in the real prompt the HTML rule comes before the Liquid rule when both are asked for |
| Translator.PromptMentions | translator/translator.go:54-65 | the prompt names the professional translator role always, HTML tags with preserveHTML, Liquid template tags with preserveLiquid, and "unchanged" when either rule is present |
| Fallback.NewChain | translator/fallback/fallback.go:17-25 | a chain holds the given non-empty provider list in order |
| Fallback.Name | translator/fallback/fallback.go:28-30 | the chain's name is "fallback-chain(", then the primary provider's name, then ")": 16 characters longer than that name |
| Fallback.Annotated | translator/fallback/fallback.go:42-43 | a provider's failure reads "provider <name> (<i+1>/<n>) failed: " followed by its error's message, and unwraps to that error |
| Fallback.FirstOk | translator/fallback/fallback.go:36-40 | the first successful answer in chain order, if any, with every earlier answer a failure |
| Fallback.FirstSuccess | translator/fallback/fallback.go:34-51 | the loop returns the first success and stops there; when all fail it wraps the last provider's annotated error |
| Fallback.Translate | translator/fallback/fallback.go:33-52 | the chain succeeds iff some provider succeeds, with the first successful provider's response; earlier providers failed and later ones are not asked; when all fail every provider was asked and the last failure is wrapped under "all providers failed, last error: " |
| Fallback.TranslateBatch | translator/fallback/fallback.go:55-74 | the same over whole batches, one provider's complete response list, under "all providers failed for batch, last error: " |
| Fallback.AllFailedKeepsLastError | translator/fallback/fallback.go:51 | the aggregate error's message starts with "all providers failed", and both the annotated failure and the provider's own error are on its chain |
| Adapter.EstimateTokens | translator/providers/gemini/gemini.go:86-89 | the estimate is a quarter of the text's length, but never below 100 |
| Adapter.UserPrompt | translator/providers/gemini/gemini.go:119-120 | the user prompt is exactly "Translate the following text from ", the source language, " to ", the target language, ":\n\n" and the text, each at its offset, with no other characters |
| Adapter.Classified | translator/providers/gemini/gemini.go:128-133 | an SDK error keeps its message and stays on the chain; it is retryable iff the classifier says so (or it already was) |
| Adapter.RunApiCalls | translator/providers/gemini/gemini.go:84-105 | a run of k attempts made k vendor calls, or k - 1 when the last wait did not succeed |
| Adapter.RunSucceeded | translator/providers/gemini/gemini.go:107-114 | a successful run returns the last call's response stamped with the provider name |
| Adapter.RunFirstSuccess | translator/providers/gemini/gemini.go:84-114 | a vendor that answers at the first attempt is called once and its response, stamped with the provider name, is returned |
| Adapter.RunEndsAtMax | translator/providers/gemini/gemini.go:84-105 | a finished run whose last attempt failed retryably without cancellation used all MaxRetries + 1 attempts, and Do returned that error |
| Adapter.RunExhausted | translator/providers/gemini/gemini.go:84-109 | a vendor that always fails retryably is called MaxRetries + 1 times and Translate wraps its last error under "<name> translate failed: " |
| Adapter.RunLimiterFailure | translator/providers/gemini/gemini.go:91-109 | a limiter wait cancelled by the context ends the run with the previous vendor error wrapped; at the first attempt that is a nil cause, so the message ends in %!w(<nil>) and the context's error is not on the chain |
| Adapter.Provider.constructor | translator/providers/gemini/gemini.go:57-63 | a provider keeps its name, model, limiter and retry configuration |
| Adapter.Provider.Closure | translator/providers/gemini/gemini.go:84-105 | one attempt is exactly one limiter Wait (the WaitGate step from the limiter state before it to the one after) for one request and the estimated tokens; the vendor is called only if that wait succeeded, and the granted tokens grow by the estimate exactly then |
| Adapter.Provider.Translate | translator/providers/gemini/gemini.go:77-115 | Translate makes a run of retry.Do over the closure: success is the last response stamped with the name, failure wraps the last vendor error; the limiter states around the attempts form a chain of WaitGate steps from the state at the call to the state at return, and the granted tokens grew by the estimate once per vendor call |
| Adapter.GatedDebits | translator/providers/gemini/gemini.go:91-94 | in such a chain every attempt that reached the vendor took one request and the estimated tokens, each from the balance before it or from a reset to the limit |
| Adapter.SpentIsCallsTimesEstimate | translator/providers/gemini/gemini.go:84-99 | the tokens a run took from the limiter are its number of vendor calls times the token estimate |
| Adapter.Provider.RunBatch | translator/providers/gemini/gemini.go:168-177 | the batch loop runs Translate on each request in order, each starting from the limiter state the previous one left, and stops at the first request that does not succeed and returns its outcome; the responses are those of the requests before it |
| Adapter.Provider.TranslateBatch | translator/providers/gemini/gemini.go:168-180 | each request is a run of Translate in order, the limiter states chained across the whole batch; the tokens granted are the sum over the requests of their spent estimates, and the requests granted lie between the vendor calls and the attempts; success holds one response per request, in order; the first failure ends the batch with "batch translate failed at index <i>: " |
| Gemini.DefaultConfig | translator/providers/gemini/gemini.go:34-42 | 32000 tokens and 60 requests per minute, the default retry policy, and a model priced as gemini-1.5-pro |
| Gemini.BuildRequest | translator/providers/gemini/gemini.go:117-127 | the request goes to the configured model with the system prompt of the request's flags as system instruction and the shared user prompt (its layout proved at Adapter.UserPrompt) |
| Gemini.IsRetryableError | translator/providers/gemini/gemini.go:182-187 | an error is retryable iff its message contains 429, 500, 503, quota or resource_exhausted |
| Gemini.CalculateCost | translator/providers/gemini/gemini.go:200-216 | a model naming gemini-1.5-flash but not gemini-1.5-pro is priced 75000/300000 picodollars per input/output token, any other 1250000/5000000 |
| Gemini.Respond | translator/providers/gemini/gemini.go:127-164 | an SDK error keeps its message and is retryable iff it has a keyword; no candidate or no part is a non-retryable error; otherwise the first part, the usage (0/0 when absent) with their sum as total, and its cost |
| Gemini.RunOutcome | translator/providers/gemini/gemini.go:107-114 | a successful run is a response to this request stamped "gemini" with total = input + output; a failed one wraps the last vendor error under "gemini translate failed: " |
| Gemini.NewProvider | translator/providers/gemini/gemini.go:45-64 | a nil config and a failing client are errors; otherwise a provider whose Name() is "gemini", for the configured model, with full buckets at the configured limits and the configured retry policy |
| Gemini.Translate | translator/providers/gemini/gemini.go:77-115 | the shared Translate over Gemini's calls: a success is the reply to this request, stamped "gemini", with total = input + output; a failure says "gemini translate failed: " |
| Gemini.TranslateBatch | translator/providers/gemini/gemini.go:168-180 | one response per request, in order, the i-th being request i's translation by the shared run over the vendor's calls, stamped "gemini" and carrying its own request's text; every request before the last one run succeeded, and the batch is pending iff the last one was; a failure is reported with its index; the limiter accounting of the shared TranslateBatch holds over the vendor's calls |
| Gemini.RateLimitIsRetried | translator/providers/gemini/gemini.go:182-187 | "googleapi: Error 429" is retryable |
| Gemini.ShortMessageIsFinal | translator/providers/gemini/gemini.go:182-187 | a message shorter than every keyword is not retryable |
| Gemini.TierExamples | translator/providers/gemini/gemini.go:200-216 | the default model gets pro prices and gemini-1.5-flash flash prices |
| OpenAI.DefaultConfig | translator/providers/openai/openai.go:32-40 | gpt-4o, 90000 tokens and 500 requests per minute, the default retry policy |
| OpenAI.BuildRequest | translator/providers/openai/openai.go:104-121 | exactly two messages: a system message with the prompt of the request's flags, then a user message with the shared user prompt |
| OpenAI.HasPrefix | translator/providers/openai/openai.go:182-184 | hasPrefix holds iff s is the prefix followed by some string |
| OpenAI.HasSuffix | translator/providers/openai/openai.go:186-188 | hasSuffix holds iff s is some string followed by the suffix |
| OpenAI.Contains | translator/providers/openai/openai.go:177-180 | the equal/prefix/suffix/infix cascade is exactly substring search, the empty substring included |
| OpenAI.IsRetryableError | translator/providers/openai/openai.go:170-175 | an error is retryable iff its message contains 429, 500 or 503 |
| OpenAI.CalculateCost | translator/providers/openai/openai.go:201-217 | exactly gpt-4 is priced 30000000/60000000 picodollars per input/output token; every other name 5000000/15000000 |
| OpenAI.Respond | translator/providers/openai/openai.go:123-152 | an SDK error keeps its message and is retryable iff it has a keyword; no choice is a non-retryable error; otherwise the first choice and the usage as reported, total included, and its cost |
| OpenAI.RunOutcome | translator/providers/openai/openai.go:94-101 | a successful run is a response to this request stamped "openai"; a failed one wraps the last vendor error under "openai translate failed: " |
| OpenAI.NewProvider | translator/providers/openai/openai.go:43-56 | a provider whose Name() is "openai", for the configured model, with full buckets at the configured limits and the configured retry policy |
| OpenAI.Translate | translator/providers/openai/openai.go:64-102 | the shared Translate over OpenAI's calls: a success is the reply to this request stamped "openai"; a failure says "openai translate failed: " |
| OpenAI.TranslateBatch | translator/providers/openai/openai.go:156-168 | one response per request, in order, the i-th being request i's translation by the shared run over the vendor's calls, stamped "openai" and carrying its own request's text; every request before the last one run succeeded, and the batch is pending iff the last one was; a failure is reported with its index; the limiter accounting of the shared TranslateBatch holds over the vendor's calls |
| OpenAI.TotalIsReported | translator/providers/openai/openai.go:143-146 | the total is the API's figure even when it is not the sum of input and output |
| OpenAI.TierExamples | translator/providers/openai/openai.go:201-217 | gpt-4o-mini is priced as gpt-4o, gpt-4 at its own prices |
| Anthropic.DefaultConfig | translator/providers/anthropic/anthropic.go:33-41 | 80000 tokens and 50 requests per minute, the default retry policy, and a model priced as claude-sonnet-4 |
| Anthropic.FullPrompt | translator/providers/anthropic/anthropic.go:106-110 | the single message is the system prompt, a blank line, then the user prompt, ending in the text |
| Anthropic.BuildRequest | translator/providers/anthropic/anthropic.go:112-118 | one user message holding the full prompt, to the configured model, with at most 4096 output tokens |
| Anthropic.IsRetryableError | translator/providers/anthropic/anthropic.go:167-172 | an error is retryable iff its message contains 429, 500, 503 or overloaded |
| Anthropic.CalculateCost | translator/providers/anthropic/anthropic.go:185-201 | a model naming claude-opus but not claude-sonnet-4 is priced 15000000/75000000 picodollars per input/output token, any other 3000000/15000000 |
| Anthropic.Respond | translator/providers/anthropic/anthropic.go:120-149 | an SDK error keeps its message and is retryable iff it has a keyword; no content is a non-retryable error; otherwise the first block's text, the usage with their sum as total, and its cost |
| Anthropic.RunOutcome | translator/providers/anthropic/anthropic.go:95-102 | a successful run is a response to this request stamped "anthropic" with total = input + output; a failed one wraps the last vendor error under "anthropic translate failed: " |
| Anthropic.NewProvider | translator/providers/anthropic/anthropic.go:44-57 | a provider whose Name() is "anthropic", for the configured model, with full buckets at the configured limits and the configured retry policy |
| Anthropic.Translate | translator/providers/anthropic/anthropic.go:65-103 | the shared Translate over Anthropic's calls: a success is the reply to this request, stamped "anthropic", with total = input + output; a failure says "anthropic translate failed: " |
| Anthropic.TranslateBatch | translator/providers/anthropic/anthropic.go:153-165 | one response per request, in order, the i-th being request i's translation by the shared run over the vendor's calls, stamped "anthropic" and carrying its own request's text; every request before the last one run succeeded, and the batch is pending iff the last one was; a failure is reported with its index; the limiter accounting of the shared TranslateBatch holds over the vendor's calls |
| Anthropic.ClassifierExamples | translator/providers/anthropic/anthropic.go:167-172 | "overloaded_error" is retryable; a message shorter than every keyword is not |
| Anthropic.DefaultModelTier | translator/providers/anthropic/anthropic.go:185-201 | the default model gets sonnet prices |
| Anthropic.OpusModelTier | translator/providers/anthropic/anthropic.go:185-201 | claude-opus-4-20250514 gets opus prices |

## Left out

- The SDK clients (genai, go-openai, anthropic-sdk-go) are not modelled. Each
  vendor's call is an oracle `api(request, attempt)` answering a reply or an error
  message, and the model takes the SDK's error to be a plain error with that message.
  Client construction is a parameter (Gemini's possible client error) or nothing
  (OpenAI, Anthropic). Gemini's `Close` is left out.
- Gemini sets `SystemInstruction` on the shared model object before each call.
  The model passes it inside the request instead, so concurrent callers racing on
  that field are not modelled.
- Wall-clock time is not modelled. The limiter reads the clock from a tick trace,
  and the retry loop's context is an oracle per attempt. `TranslationResponse.Duration`
  (time.Since) is left out, and a trace that ends while blocked yields `Pending`.
- The mutexes of the limiter are left out; they only serialize concurrent callers.
- Costs are integer picodollars, not float64 dollars, so float rounding is not modelled.
- Durations are integer nanoseconds and the retry multiplier is a natural number.
  The float64 arithmetic of calculateBackoff, its rounding and its conversion back
  to a Duration are not modelled.
- Adapter.Provider.Translate requires a resolved MaxRetries of at least 0. With a
  negative one, `retry.Do` returns nil without calling the closure and the source
  dereferences a nil response. `Retry.Do` itself models the negative case.
- Limits, balances and token counts taken by the limiter are natural numbers.
  Negative limits are not modelled.
- Gemini reads `resp.Candidates[0].Content.Parts`, which panics when Content is
  nil; the model's candidate always has a part list. Parts are the strings fmt's %v
  would print.
- Strings are sequences of characters standing for Go's bytes. `len(req.Text)` is
  the sequence length, and no UTF-8 encoding is modelled.
- A nil config makes OpenAI's and Anthropic's NewProvider panic. The model's
  parameter is not optional.
- Gemini.CalculateCost, Anthropic.CalculateCost and the IsRetryableError functions
  use the recursive `Text.Occurs` instead of the source's index loop. The loop
  itself is `Text.Contains`, proved to compute the same predicate.
- Fallback members are values holding their translate functions. Providers that
  keep state between calls, such as a shared limiter across chain calls, are
  therefore not modelled at the chain level.
- A done context is always `context.Canceled`. `context.DeadlineExceeded` is
  not modelled, so neither the limiter nor retry.Do can report a deadline.
