/** The fallback chain: an ordered, non-empty list of translators tried one after
    another until one succeeds. */
module Fallback {
  import opened Errors
  import Text
  import opened Translator

  /** A translator as the chain sees it: its name and its two translation
      operations, each giving a response or an error for a given input. */
  datatype Member = Member(
    name: string,
    translate: TranslationRequest -> Result<TranslationResponse>,
    translateBatch: seq<TranslationRequest> -> Result<seq<TranslationResponse>>)

  datatype Chain = Chain(providers: seq<Member>)

  const AllFailed: string := "all providers failed, last error: "
  const AllFailedForBatch: string := "all providers failed for batch, last error: "

  /** NewChain(providers...): a chain over the providers in the given order; an
      empty list is refused (the source panics). */
  function NewChain(providers: seq<Member>): (c: Chain)
    requires |providers| > 0
    ensures |c.providers| >= 1 && c.providers == providers
  {
    Chain(providers)
  }

  /** Name(): "fallback-chain(" + primary's name + ")". */
  function Name(c: Chain): (name: string)
    requires |c.providers| > 0
    ensures Text.OccursAt("fallback-chain(", name, 0)
    ensures Text.OccursAt(c.providers[0].name, name, |"fallback-chain("|)
    ensures |name| == |c.providers[0].name| + 16 && name[|name| - 1] == ')'
  {
    var n := "fallback-chain(" + c.providers[0].name + ")";
    Text.OccursInside("fallback-chain(", c.providers[0].name, ")");
    Text.OccursInside([], "fallback-chain(", c.providers[0].name + ")");
    assert [] + "fallback-chain(" + (c.providers[0].name + ")") == n;
    n
  }

  /** The error recorded when provider i (0-based) of n fails with err:
      "provider <name> (<i+1>/<n>) failed: " wrapping err. */
  function Annotated(name: string, i: nat, n: nat, err: Error): (e: Error)
    ensures Unwrap(e) == Some(err)
    ensures Message(e) == "provider " + name + " (" + Text.NatToString(i + 1) + "/" + Text.NatToString(n) + ") failed: " + Message(err)
  {
    Wrapped("provider " + name + " (" + Text.NatToString(i + 1) + "/" + Text.NatToString(n) + ") failed: ", Some(err))
  }

  /** What each provider would answer, in chain order. */
  function Answers<T>(members: seq<Member>, call: Member -> Result<T>): (rs: seq<Result<T>>)
    ensures |rs| == |members|
    ensures forall i :: 0 <= i < |members| ==> rs[i] == call(members[i])
  {
    seq(|members|, i requires 0 <= i < |members| => call(members[i]))
  }

  /** The position of the first successful answer, if there is one. */
  function FirstOk<T>(rs: seq<Result<T>>): (k: Option<nat>)
    ensures k.Some? ==> k.value < |rs| && rs[k.value].Ok? && forall j :: 0 <= j < k.value ==> rs[j].Err?
    ensures k.None? <==> forall j :: 0 <= j < |rs| ==> rs[j].Err?
  {
    if rs == [] then None
    else if rs[0].Ok? then Some(0)
    else match FirstOk(rs[1..])
      case None => None
      case Some(k) => Some(k + 1)
  }

  /** The shared loop of Translate and TranslateBatch: call the members in order,
      return the first success; after a failure move on, whatever the error; when
      all failed, wrap the last provider's annotated error under finalPrefix. */
  method FirstSuccess<T>(members: seq<Member>, call: Member -> Result<T>, finalPrefix: string)
    returns (r: Result<T>, calls: nat)
    requires |members| > 0
    ensures var rs := Answers(members, call);
      match FirstOk(rs)
      case Some(k) => calls == k + 1 && r == rs[k]
      case None =>
        && calls == |members|
        && r == Err(Wrapped(finalPrefix, Some(Annotated(members[|members| - 1].name, |members| - 1, |members|, rs[|members| - 1].error))))
  {
    var n := |members|;
    ghost var rs := Answers(members, call);
    var lastErr: Option<Error> := None;
    var i := 0;
    while i < n
      invariant 0 <= i <= n
      invariant forall j :: 0 <= j < i ==> rs[j].Err?
      invariant i == 0 ==> lastErr == None
      invariant i > 0 ==> lastErr == Some(Annotated(members[i - 1].name, i - 1, n, rs[i - 1].error))
    {
      var res := call(members[i]);
      if res.Ok? {
        FirstOkAt(rs, i);
        return res, i + 1;
      }
      lastErr := Some(Annotated(members[i].name, i, n, res.error));
      i := i + 1;
    }
    FirstOkAt(rs, n);
    return Err(Wrapped(finalPrefix, lastErr)), n;
  }

  /** When every answer before i failed, FirstOk finds i if answer i succeeds, and
      nothing if i is the end. */
  lemma {:induction false} FirstOkAt<T>(rs: seq<Result<T>>, i: nat)
    requires i <= |rs|
    requires forall j :: 0 <= j < i ==> rs[j].Err?
    ensures i < |rs| && rs[i].Ok? ==> FirstOk(rs) == Some(i)
    ensures i == |rs| ==> FirstOk(rs) == None
  {
    var k := FirstOk(rs);
    if k.Some? && i < |rs| && rs[i].Ok? {
      assert k.value >= i;
      assert k.value <= i;
    }
  }

  /** Translate(ctx, req): the first provider, in order, whose Translate succeeds
      answers; every earlier one failed and no later one is asked. */
  method Translate(c: Chain, req: TranslationRequest) returns (r: Result<TranslationResponse>, calls: nat)
    requires |c.providers| > 0
    ensures 1 <= calls <= |c.providers|
    ensures forall j :: 0 <= j < calls - 1 ==> c.providers[j].translate(req).Err?
    ensures r.Ok? ==> r == c.providers[calls - 1].translate(req)
    ensures r.Ok? <==> exists j :: 0 <= j < |c.providers| && c.providers[j].translate(req).Ok?
    ensures r.Err? ==>
      var n := |c.providers|;
      && calls == n
      && r.error == Wrapped(AllFailed, Some(Annotated(c.providers[n - 1].name, n - 1, n, c.providers[n - 1].translate(req).error)))
  {
    ghost var rs := Answers(c.providers, (m: Member) => m.translate(req));
    r, calls := FirstSuccess(c.providers, (m: Member) => m.translate(req), AllFailed);
    if FirstOk(rs).None? {
      assert forall j :: 0 <= j < |c.providers| ==> rs[j].Err?;
    }
  }

  /** TranslateBatch(ctx, reqs): whole-batch fallback; a success is the complete
      response list of a single provider. */
  method TranslateBatch(c: Chain, reqs: seq<TranslationRequest>) returns (r: Result<seq<TranslationResponse>>, calls: nat)
    requires |c.providers| > 0
    ensures 1 <= calls <= |c.providers|
    ensures forall j :: 0 <= j < calls - 1 ==> c.providers[j].translateBatch(reqs).Err?
    ensures r.Ok? ==> r == c.providers[calls - 1].translateBatch(reqs)
    ensures r.Ok? <==> exists j :: 0 <= j < |c.providers| && c.providers[j].translateBatch(reqs).Ok?
    ensures r.Err? ==>
      var n := |c.providers|;
      && calls == n
      && r.error == Wrapped(AllFailedForBatch, Some(Annotated(c.providers[n - 1].name, n - 1, n, c.providers[n - 1].translateBatch(reqs).error)))
  {
    ghost var rs := Answers(c.providers, (m: Member) => m.translateBatch(reqs));
    r, calls := FirstSuccess(c.providers, (m: Member) => m.translateBatch(reqs), AllFailedForBatch);
    if FirstOk(rs).None? {
      assert forall j :: 0 <= j < |c.providers| ==> rs[j].Err?;
    }
  }

  /** The aggregate error says "all providers failed", and both the annotated last
      failure and the provider's own error stay on its wrap chain. */
  lemma AllFailedKeepsLastError(finalPrefix: string, name: string, n: nat, err: Error)
    requires finalPrefix == AllFailed || finalPrefix == AllFailedForBatch
    requires n >= 1
    ensures var e := Wrapped(finalPrefix, Some(Annotated(name, n - 1, n, err)));
      && Text.OccursAt("all providers failed", Message(e), 0)
      && Is(e, err)
      && Is(e, Annotated(name, n - 1, n, err))
  {
    var a := Annotated(name, n - 1, n, err);
    var e := Wrapped(finalPrefix, Some(a));
    assert Errors.Chain(e)[1] == a;
    assert Errors.Chain(e)[2] == err;
    Text.OccursInside([], "all providers failed", Message(e)[20..]);
    assert [] + "all providers failed" + Message(e)[20..] == Message(e);
  }
}
