/** The translator package's records and its system prompt. */
module Translator {
  import Text

  datatype TranslationRequest = TranslationRequest(
    text: string,
    sourceLanguage: string,
    targetLanguage: string,
    preserveHTML: bool,
    preserveLiquid: bool)

  datatype TokenUsage = TokenUsage(inputTokens: int, outputTokens: int, totalTokens: int)

  /** Cost.Amount, in integer picodollars (10^-12 USD) instead of a float64 of dollars. */
  datatype Cost = Cost(amount: int, currency: string)

  /** TranslationResponse without its Duration, which is wall-clock time. */
  datatype TranslationResponse = TranslationResponse(
    translatedText: string,
    sourceText: string,
    tokensUsed: TokenUsage,
    cost: Cost,
    provider: string)

  /** The texts the prompt is assembled from. The package checks its prompt for the
      four short phrases, so each rule is kept as a concatenation of named pieces;
      every constant spells out exactly the text the source appends. */
  const RoleOpening: string := "You are a "
  const RolePhrase: string := "professional translator"
  const RoleClosing: string := ". Translate the provided text accurately while maintaining the original meaning, tone, and style."
  const Bullet: string := "\n- "
  const HtmlPhrase: string := "HTML tags"
  const HtmlExamples: string := " (e.g., <div>, <span>, <a href=\"...\">) must remain "
  const LiquidPhrase: string := "Liquid template tags"
  const LiquidExamples: string := " (e.g., {{ variable }}, {% if condition %}) must remain "
  const Unchanged: string := "unchanged"

  const BaseInstruction: string := RoleOpening + RolePhrase + RoleClosing
  const MarkupHeader: string := "\n\nIMPORTANT: The text contains markup tags that must be preserved EXACTLY as they appear:"
  const HtmlRule: string := Bullet + HtmlPhrase + HtmlExamples + Unchanged
  const LiquidRule: string := Bullet + LiquidPhrase + LiquidExamples + Unchanged
  const MarkupFooter: string := "\n\nOnly translate the human-readable text between and outside these tags. Do not translate tag names, attributes, or template variables."

  /** The five fragments of a system prompt. */
  datatype PromptText = PromptText(base: string, header: string, htmlRule: string, liquidRule: string, footer: string)

  const Standard: PromptText := PromptText(BaseInstruction, MarkupHeader, HtmlRule, LiquidRule, MarkupFooter)

  /** The prompt assembly: the base, then the header, the HTML rule, the Liquid rule
      and the footer, each appended under its condition. Each fragment sits where
      the ones before it end, so with both flags the HTML rule comes first and
      the footer closes the prompt. */
  function Compose(t: PromptText, preserveHTML: bool, preserveLiquid: bool): (prompt: string)
    ensures var markup := preserveHTML || preserveLiquid;
      var ht := if preserveHTML then |t.htmlRule| else 0;
      var lq := if preserveLiquid then |t.liquidRule| else 0;
      && |prompt| == |t.base| + (if markup then |t.header| + |t.footer| else 0) + ht + lq
      && Text.OccursAt(t.base, prompt, 0)
      && (markup ==> Text.OccursAt(t.header, prompt, |t.base|))
      && (preserveHTML ==> Text.OccursAt(t.htmlRule, prompt, |t.base| + |t.header|))
      && (preserveLiquid ==> Text.OccursAt(t.liquidRule, prompt, |t.base| + |t.header| + ht))
      && (markup ==> Text.OccursAt(t.footer, prompt, |prompt| - |t.footer|))
  {
    var p0 := t.base;
    var p1 := if preserveHTML || preserveLiquid then p0 + t.header else p0;
    var p2 := if preserveHTML then p1 + t.htmlRule else p1;
    var p3 := if preserveLiquid then p2 + t.liquidRule else p2;
    var p4 := if preserveHTML || preserveLiquid then p3 + t.footer else p3;
    assert p4 == t.base + (if preserveHTML || preserveLiquid then t.header else [])
      + (if preserveHTML then t.htmlRule else []) + (if preserveLiquid then t.liquidRule else [])
      + (if preserveHTML || preserveLiquid then t.footer else []) by {
      if !preserveHTML { assert p1 + [] == p1; }
      if !preserveLiquid { assert p2 + [] == p2; }
      if !(preserveHTML || preserveLiquid) { assert p0 + [] + [] + [] + [] == p0; }
    }
    LayoutOfFive(t.base, if preserveHTML || preserveLiquid then t.header else [],
                 if preserveHTML then t.htmlRule else [], if preserveLiquid then t.liquidRule else [],
                 if preserveHTML || preserveLiquid then t.footer else []);
    p4
  }

  /** SystemPrompt(preserveHTML, preserveLiquid): the translation instruction,
      extended with the markup rules the flags ask for. */
  function SystemPrompt(preserveHTML: bool, preserveLiquid: bool): (prompt: string)
    ensures |prompt| >= |BaseInstruction| > 0
  {
    Compose(Standard, preserveHTML, preserveLiquid)
  }

  /** The fragments a prompt is made of, in order. */
  function Fragments(t: PromptText, preserveHTML: bool, preserveLiquid: bool): (f: seq<string>)
    ensures 1 <= |f| <= 5 && f[0] == t.base
  {
    var markup := preserveHTML || preserveLiquid;
    [t.base]
    + (if markup then [t.header] else [])
    + (if preserveHTML then [t.htmlRule] else [])
    + (if preserveLiquid then [t.liquidRule] else [])
    + (if markup then [t.footer] else [])
  }

  function Concat(parts: seq<string>): string
  {
    if parts == [] then [] else parts[0] + Concat(parts[1..])
  }

  /** Concat of a list is its first element followed by Concat of the rest. */
  lemma {:induction false} ConcatCons(x: string, rest: seq<string>)
    ensures Concat([x] + rest) == x + Concat(rest)
  {
    assert ([x] + rest)[1..] == rest;
  }

  /** The prompt is exactly the concatenation of its fragments, in the listed order. */
  lemma {:induction false} ComposeIsFragments(t: PromptText, preserveHTML: bool, preserveLiquid: bool)
    ensures Compose(t, preserveHTML, preserveLiquid) == Concat(Fragments(t, preserveHTML, preserveLiquid))
  {
    FragmentsJoined(t, preserveHTML, preserveLiquid);
    var p1 := if preserveHTML || preserveLiquid then t.base + t.header else t.base;
    var p2 := if preserveHTML then p1 + t.htmlRule else p1;
    if !preserveHTML { assert p1 + [] == p1; }
    if !preserveLiquid { assert p2 + [] == p2; }
    if !(preserveHTML || preserveLiquid) { assert t.base + [] + [] + [] + [] == t.base; }
  }

  /** The fragments, joined, are the base followed by each fragment that is
      present, with an absent one contributing nothing. */
  lemma {:induction false} FragmentsJoined(t: PromptText, preserveHTML: bool, preserveLiquid: bool)
    ensures Concat(Fragments(t, preserveHTML, preserveLiquid))
      == t.base + (if preserveHTML || preserveLiquid then t.header else [])
         + (if preserveHTML then t.htmlRule else []) + (if preserveLiquid then t.liquidRule else [])
         + (if preserveHTML || preserveLiquid then t.footer else [])
  {
    var markup := preserveHTML || preserveLiquid;
    var f4 := if markup then [t.footer] else [];
    var f3 := (if preserveLiquid then [t.liquidRule] else []) + f4;
    var f2 := (if preserveHTML then [t.htmlRule] else []) + f3;
    var f1 := (if markup then [t.header] else []) + f2;
    assert Fragments(t, preserveHTML, preserveLiquid) == [t.base] + f1;
    assert Concat([]) == [];
    ConcatCons(t.footer, []);
    if preserveLiquid { ConcatCons(t.liquidRule, f4); }
    if preserveHTML { ConcatCons(t.htmlRule, f3); }
    if markup { ConcatCons(t.header, f2); }
    ConcatCons(t.base, f1);
  }

  lemma PromptIsFragments(preserveHTML: bool, preserveLiquid: bool)
    ensures SystemPrompt(preserveHTML, preserveLiquid) == Concat(Fragments(Standard, preserveHTML, preserveLiquid))
  {
    ComposeIsFragments(Standard, preserveHTML, preserveLiquid);
  }

  /** The five fragment lengths, all different. */
  lemma FragmentLengths()
    ensures |BaseInstruction| == 130 && |MarkupHeader| == 89 && |HtmlRule| == 72
    ensures |LiquidRule| == 88 && |MarkupFooter| == 135
  {
  }

  /** Each fragment is in the list exactly under its own condition, provided the
      fragments are told apart by their lengths. */
  lemma FragmentsFollowFlagsOf(t: PromptText, preserveHTML: bool, preserveLiquid: bool)
    requires |t.base| != |t.header| && |t.base| != |t.htmlRule| && |t.base| != |t.liquidRule| && |t.base| != |t.footer|
    requires |t.header| != |t.htmlRule| && |t.header| != |t.liquidRule| && |t.footer| != |t.htmlRule| && |t.footer| != |t.liquidRule|
    requires |t.htmlRule| != |t.liquidRule|
    ensures var f := Fragments(t, preserveHTML, preserveLiquid);
      && (t.header in f <==> preserveHTML || preserveLiquid)
      && (t.footer in f <==> preserveHTML || preserveLiquid)
      && (t.htmlRule in f <==> preserveHTML)
      && (t.liquidRule in f <==> preserveLiquid)
  {
  }

  /** In the real prompt each fragment appears exactly under its own condition: the
      markup header and the closing paragraph iff at least one flag is set, the HTML
      rule iff preserveHTML, the Liquid rule iff preserveLiquid; with no flag the
      prompt is the base instruction alone. */
  lemma FragmentsFollowFlags(preserveHTML: bool, preserveLiquid: bool)
    ensures var f := Fragments(Standard, preserveHTML, preserveLiquid);
      && (MarkupHeader in f <==> preserveHTML || preserveLiquid)
      && (MarkupFooter in f <==> preserveHTML || preserveLiquid)
      && (HtmlRule in f <==> preserveHTML)
      && (LiquidRule in f <==> preserveLiquid)
    ensures !preserveHTML && !preserveLiquid ==> SystemPrompt(preserveHTML, preserveLiquid) == BaseInstruction
  {
    FragmentLengths();
    FragmentsFollowFlagsOf(Standard, preserveHTML, preserveLiquid);
  }

  /** The prompt's length: the base instruction, plus header and closing paragraph
      when any markup is preserved, plus each enabled rule. */
  lemma PromptLength(preserveHTML: bool, preserveLiquid: bool)
    ensures |SystemPrompt(preserveHTML, preserveLiquid)|
      == 130 + (if preserveHTML || preserveLiquid then 89 + 135 else 0)
        + (if preserveHTML then 72 else 0) + (if preserveLiquid then 88 else 0)
  {
    FragmentLengths();
  }

  lemma LayoutOfFive(b: string, hd: string, ht: string, lq: string, ft: string)
    ensures var p := b + hd + ht + lq + ft;
      && Text.OccursAt(b, p, 0) && Text.OccursAt(hd, p, |b|) && Text.OccursAt(ht, p, |b| + |hd|)
      && Text.OccursAt(lq, p, |b| + |hd| + |ht|) && Text.OccursAt(ft, p, |b| + |hd| + |ht| + |lq|)
  {
    var p := b + hd + ht + lq + ft;
    assert p[0..|b|] == b;
    assert p[|b|..|b| + |hd|] == hd;
    assert p[|b| + |hd|..|b| + |hd| + |ht|] == ht;
    assert p[|b| + |hd| + |ht|..|b| + |hd| + |ht| + |lq|] == lq;
    assert p[|b| + |hd| + |ht| + |lq|..|p|] == ft;
  }

  lemma PromptLayout(preserveHTML: bool, preserveLiquid: bool)
    ensures Text.OccursAt(BaseInstruction, SystemPrompt(preserveHTML, preserveLiquid), 0)
    ensures preserveHTML ==>
      Text.OccursAt(HtmlRule, SystemPrompt(preserveHTML, preserveLiquid), |BaseInstruction| + |MarkupHeader|)
    ensures preserveLiquid ==>
      Text.OccursAt(LiquidRule, SystemPrompt(preserveHTML, preserveLiquid),
        |BaseInstruction| + |MarkupHeader| + (if preserveHTML then |HtmlRule| else 0))
  {
  }

  /** The phrases the package's own checks look for: the role always, the HTML
      phrase with preserveHTML, the Liquid phrase with preserveLiquid, and
      "unchanged" whenever either rule is present. */
  lemma PromptMentions(preserveHTML: bool, preserveLiquid: bool)
    ensures Text.IsSubstring(RolePhrase, SystemPrompt(preserveHTML, preserveLiquid))
    ensures preserveHTML ==> Text.IsSubstring(HtmlPhrase, SystemPrompt(preserveHTML, preserveLiquid))
    ensures preserveLiquid ==> Text.IsSubstring(LiquidPhrase, SystemPrompt(preserveHTML, preserveLiquid))
    ensures preserveHTML || preserveLiquid ==> Text.IsSubstring(Unchanged, SystemPrompt(preserveHTML, preserveLiquid))
  {
    PromptLayout(preserveHTML, preserveLiquid);
    MentionsOf(preserveHTML, preserveLiquid, SystemPrompt(preserveHTML, preserveLiquid));
  }

  /** The same for any text laid out as a prompt is. */
  lemma MentionsOf(preserveHTML: bool, preserveLiquid: bool, p: string)
    requires Text.OccursAt(BaseInstruction, p, 0)
    requires preserveHTML ==> Text.OccursAt(HtmlRule, p, |BaseInstruction| + |MarkupHeader|)
    requires preserveLiquid ==>
      Text.OccursAt(LiquidRule, p, |BaseInstruction| + |MarkupHeader| + (if preserveHTML then |HtmlRule| else 0))
    ensures Text.IsSubstring(RolePhrase, p)
    ensures preserveHTML ==> Text.IsSubstring(HtmlPhrase, p)
    ensures preserveLiquid ==> Text.IsSubstring(LiquidPhrase, p)
    ensures preserveHTML || preserveLiquid ==> Text.IsSubstring(Unchanged, p)
  {
    var at := |BaseInstruction| + |MarkupHeader| + (if preserveHTML then |HtmlRule| else 0);
    RuleHasPhrase(RoleOpening, RolePhrase, [], RoleClosing);
    Mentioned(RolePhrase, |RoleOpening|, BaseInstruction, 0, p);
    if preserveHTML {
      RuleHasPhrase(Bullet, HtmlPhrase, HtmlExamples, Unchanged);
      Mentioned(HtmlPhrase, |Bullet|, HtmlRule, |BaseInstruction| + |MarkupHeader|, p);
      Mentioned(Unchanged, |Bullet + HtmlPhrase + HtmlExamples|, HtmlRule, |BaseInstruction| + |MarkupHeader|, p);
    }
    if preserveLiquid {
      RuleHasPhrase(Bullet, LiquidPhrase, LiquidExamples, Unchanged);
      Mentioned(LiquidPhrase, |Bullet|, LiquidRule, at, p);
      Mentioned(Unchanged, |Bullet + LiquidPhrase + LiquidExamples|, LiquidRule, at, p);
    }
  }

  lemma Mentioned(phrase: string, i: int, fragment: string, j: int, p: string)
    requires Text.OccursAt(phrase, fragment, i) && Text.OccursAt(fragment, p, j)
    ensures Text.IsSubstring(phrase, p)
  {
    Text.OccursAtTransitive(phrase, fragment, p, i, j);
  }

  /** A rule "bullet phrase examples tail" holds its phrase after the bullet and
      ends with its tail. */
  lemma RuleHasPhrase(bullet: string, phrase: string, examples: string, tail: string)
    ensures examples == [] ==> Text.OccursAt(phrase, bullet + phrase + tail, |bullet|)
    ensures Text.OccursAt(phrase, bullet + phrase + examples + tail, |bullet|)
    ensures Text.OccursAt(tail, bullet + phrase + examples + tail, |bullet + phrase + examples|)
  {
    Text.OccursInside(bullet, phrase, examples + tail);
    assert bullet + (phrase + (examples + tail)) == bullet + phrase + examples + tail;
    Text.OccursInside(bullet + phrase + examples, tail, []);
    if examples == [] {
      assert bullet + phrase + examples + tail == bullet + phrase + tail;
    }
  }
}
