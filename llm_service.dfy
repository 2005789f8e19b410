/**
 * The non-network part of `LLMService`: the candidate list handed to the model, the prompt-size
 * guard, the extraction of the JSON block from the model's reply, the shape checks and the
 * error wrapping of `generateBOM` and `analyzeRequirements`, and the provider dispatch of
 * `callLLM`. The reply text, `JSON.parse` and the two regular-expression repair passes are
 * parameters: the reply comes from the network, and the parser and repairs are treated as
 * opaque string functions.
 */
module LlmService {
  import opened Wrappers
  import opened Text
  import opened Catalog
  import opened Lists
  import OciService

  // ---------------------------------------------------------------------------------------
  // Provider dispatch

  datatype Provider = OpenAi | Claude | Gemini | Grok | DeepSeek

  const ProviderIds: seq<string> := ["openai", "claude", "gemini", "grok", "deepseek"]

  /** `callLLM`'s switch: the client a provider id selects. */
  function CallTarget(provider: string): (r: Result<Provider>)
    ensures r.Ok? <==> provider in ProviderIds
    ensures r.Err? ==> r.error == "Unsupported LLM provider: " + provider
  {
    match provider
    case "openai" => Ok(OpenAi)
    case "claude" => Ok(Claude)
    case "gemini" => Ok(Gemini)
    case "grok" => Ok(Grok)
    case "deepseek" => Ok(DeepSeek)
    case _ => Err("Unsupported LLM provider: " + provider)
  }

  function ProviderId(p: Provider): string {
    match p
    case OpenAi => "openai"
    case Claude => "claude"
    case Gemini => "gemini"
    case Grok => "grok"
    case DeepSeek => "deepseek"
  }

  /** The dispatch is one-to-one: each of the five ids selects its own client and no other id selects any. */
  lemma CallTargetSpec(p: Provider, provider: string)
    ensures CallTarget(ProviderId(p)) == Ok(p)
    ensures CallTarget(provider).Ok? ==> ProviderId(CallTarget(provider).value) == provider
  {
  }

  // ---------------------------------------------------------------------------------------
  // Candidate list

  /** A service as `generateBOM` receives it. */
  datatype Offered = Offered(partNumber: Option<string>, displayName: Option<string>, serviceCategory: Option<string>,
                             pricing: PricingField, metricName: Option<string>)

  /** An entry of the list written into the prompt. */
  datatype Listed = Listed(partNumber: Option<string>, name: Option<string>, category: Option<string>,
                           pricing: Pricing, metric: Option<string>)

  /** `service.pricing?.length > 0 ? service.pricing[0] : null`: a single pricing object has no length. */
  function FirstPrice(f: PricingField): (r: Option<Pricing>)
    ensures r.Some? <==> f.PricingList? && f.items != []
    ensures r.Some? ==> r.value == f.items[0]
  {
    if f.PricingList? && |f.items| > 0 then Some(f.items[0]) else None
  }

  /** The services with a price list, reduced to what the prompt shows; the metric falls back to the first price's unit. */
  function Priced(services: seq<Offered>): seq<Listed> {
    if services == [] then []
    else
      var s := services[0];
      var first := FirstPrice(s.pricing);
      var rest := Priced(services[1..]);
      if first.Some? then
        [Listed(s.partNumber, s.displayName, s.serviceCategory, first.value, OrElse(s.metricName, first.value.unit))] + rest
      else rest
  }

  /** The candidate list of `generateBOM`: the priced services, at most fifteen. */
  function PrepareServices(services: seq<Offered>): seq<Listed> {
    var all := Priced(services);
    if |all| <= 15 then all else all[..15]
  }

  /** `l` is what the prompt lists for service `s`: its first price and its metric. */
  predicate ListedFrom(l: Listed, s: Offered) {
    s.pricing.PricingList? && s.pricing.items != [] && l.pricing == s.pricing.items[0]
    && l.partNumber == s.partNumber && l.name == s.displayName && l.category == s.serviceCategory
    && l.metric == OrElse(s.metricName, s.pricing.items[0].unit)
  }

  /** Every listed entry comes from a service with a non-empty price list, and no more than fifteen are listed. */
  lemma {:induction false} PricedSound(services: seq<Offered>)
    ensures |Priced(services)| <= |services|
    ensures forall i :: 0 <= i < |Priced(services)| ==> exists j :: 0 <= j < |services| && ListedFrom(Priced(services)[i], services[j])
  {
    if services != [] {
      PricedSound(services[1..]);
      var rest := Priced(services[1..]);
      forall i | 0 <= i < |rest|
        ensures exists j :: 0 <= j < |services| && ListedFrom(rest[i], services[j])
      {
        var j :| 0 <= j < |services[1..]| && ListedFrom(rest[i], services[1..][j]);
        assert services[1..][j] == services[j + 1];
      }
    }
  }

  /** Every service with a non-empty price list is kept, so with at most fifteen such services all are listed. */
  lemma {:induction false} PricedComplete(services: seq<Offered>, j: nat)
    requires j < |services| && services[j].pricing.PricingList? && services[j].pricing.items != []
    ensures exists i :: 0 <= i < |Priced(services)| && ListedFrom(Priced(services)[i], services[j])
  {
    if j == 0 {
      assert ListedFrom(Priced(services)[0], services[0]);
    } else {
      assert services[1..][j - 1] == services[j];
      PricedComplete(services[1..], j - 1);
      var rest := Priced(services[1..]);
      var i :| 0 <= i < |rest| && ListedFrom(rest[i], services[j]);
      var s := services[0];
      var first := FirstPrice(s.pricing);
      if first.Some? {
        assert Priced(services) == [Listed(s.partNumber, s.displayName, s.serviceCategory, first.value, OrElse(s.metricName, first.value.unit))] + rest;
        assert Priced(services)[i + 1] == rest[i];
        assert ListedFrom(Priced(services)[i + 1], services[j]);
      } else {
        assert Priced(services) == rest;
      }
    }
  }

  /** The prepared list holds at most fifteen entries, each the first price of a service that has a price list. */
  lemma PrepareServicesSpec(services: seq<Offered>)
    ensures |PrepareServices(services)| <= 15
    ensures forall i :: 0 <= i < |PrepareServices(services)| ==>
      exists j :: 0 <= j < |services| && ListedFrom(PrepareServices(services)[i], services[j])
    ensures |Priced(services)| <= 15 ==> PrepareServices(services) == Priced(services)
  {
    PricedSound(services);
  }

  // ---------------------------------------------------------------------------------------
  // Prompt and size guard

  /** One prompt line; `number` is JavaScript's rendering of a number (`undefined` when absent). */
  function ServiceLine(l: Listed, number: Option<real> -> string): string {
    "- " + Render(l.partNumber) + ": " + Render(l.name) + " (" + Render(l.category) + ") - Metric: " + Render(l.metric)
    + " - Price: $" + number(l.pricing.unitPrice) + "/" + Render(l.pricing.unit)
  }

  /** The user prompt of `generateBOM`; `summary` is the serialised requirements. */
  function BomPrompt(summary: string, listed: seq<Listed>, number: Option<real> -> string): string {
    var lines := seq(|listed|, i requires 0 <= i < |listed| => ServiceLine(listed[i], number));
    "Requirements Summary: " + summary + "\n    \nAvailable OCI Services (" + NatToString(|listed|) + " services):\n"
    + Join(lines, "\n") + "\n\nCreate a detailed BOM with realistic quantities and pricing calculations."
  }

  /** The estimate of one token per four characters exceeds 150000 tokens. */
  predicate TooLong(systemPrompt: string, prompt: string) {
    (|systemPrompt| + |prompt|) as real / 4.0 > 150000.0
  }

  /** The guard trips exactly when the two prompts together exceed 600000 characters. */
  lemma TooLongSpec(systemPrompt: string, prompt: string)
    ensures TooLong(systemPrompt, prompt) <==> |systemPrompt| + |prompt| > 600000
  {
  }

  const PromptTooLong := "Prompt still too long after optimization. Please try with fewer requirements."

  // ---------------------------------------------------------------------------------------
  // Extraction of the JSON block

  /** The last index of `c` in `s`. */
  function LastIndexOf(s: string, c: char): (r: Option<nat>)
    ensures r.Some? ==> r.value < |s| && s[r.value] == c && forall k :: r.value < k < |s| ==> s[k] != c
    ensures r.None? ==> forall k :: 0 <= k < |s| ==> s[k] != c
  {
    if s == [] then None
    else if s[|s| - 1] == c then Some(|s| - 1)
    else LastIndexOf(s[..|s| - 1], c)
  }

  /** `s.match(/\{[\s\S]*\}/)`: from the first `{` to the last `}` after it. */
  function BraceSpan(s: string): Option<string> {
    var open := IndexFrom(s, "{", 0);
    var close := LastIndexOf(s, '}');
    if open.None? || close.None? || close.value < open.value then None
    else Some(s[open.value..close.value + 1])
  }

  /**
   * A span is found exactly when some `{` precedes some `}`; it then runs from the first `{` to
   * the last `}`, and so passes the start check.
   */
  lemma BraceSpanSpec(s: string)
    ensures BraceSpan(s).Some? <==> exists i, j :: 0 <= i < j < |s| && s[i] == '{' && s[j] == '}'
    ensures BraceSpan(s).Some? ==> LooksLikeJson(BraceSpan(s).value) && BraceSpan(s).value[|BraceSpan(s).value| - 1] == '}'
  {
    var open := IndexFrom(s, "{", 0);
    var close := LastIndexOf(s, '}');
    if exists i, j :: 0 <= i < j < |s| && s[i] == '{' && s[j] == '}' {
      var i, j :| 0 <= i < j < |s| && s[i] == '{' && s[j] == '}';
      assert s[i..i + 1] == "{";
      assert StartsAt(s, i, "{");
      assert open.Some? && open.value <= i;
      assert close.Some? && close.value >= j;
    }
    if open.Some? {
      assert s[open.value..open.value + 1] == "{";
      assert s[open.value] == '{';
      if close.Some? && close.value >= open.value {
        assert close.value != open.value;
        var b := s[open.value..close.value + 1];
        assert b[0] == '{' && b[|b| - 1] == '}';
      }
    }
  }

  /** The first index at or after `lo` from which only white space runs up to `q`. */
  function TrailStart(s: string, lo: nat, q: nat): (p: nat)
    requires lo <= q <= |s|
    ensures lo <= p <= q
    ensures forall k :: p <= k < q ==> IsSpace(s[k])
    ensures p > lo ==> !IsSpace(s[p - 1])
    decreases q
  {
    if q > lo && IsSpace(s[q - 1]) then TrailStart(s, lo, q - 1) else q
  }

  /**
   * `s.match(/```json\s*([\s\S]*?)\s*```/)[1]`: after the first "```json" and the white space
   * that follows, the shortest text that white space and "```" close.
   */
  function FenceBody(s: string): Option<string> {
    var open := IndexFrom(s, "```json", 0);
    if open.None? then None
    else
      var start := open.value + 7 + SpaceRun(s, open.value + 7);
      var close := IndexFrom(s, "```", start);
      if close.None? then None
      else Some(s[start..TrailStart(s, start, close.value)])
  }

  /**
   * `s[start..p]` is closed by white space and the first "```" at or after `start`, at `q`, and
   * neither starts nor ends with white space.
   */
  predicate FencedAt(s: string, start: int, p: int, q: int) {
    0 <= start <= p <= q <= |s| && StartsAt(s, q, "```") && (forall k :: start <= k < q ==> !StartsAt(s, k, "```"))
    && (start < |s| ==> !IsSpace(s[start])) && (p > start ==> !IsSpace(s[p - 1]))
  }

  lemma FenceBodyShape(s: string) returns (start: int, p: int, q: int)
    requires FenceBody(s).Some?
    ensures FencedAt(s, start, p, q) && FenceBody(s).value == s[start..p]
  {
    var open := IndexFrom(s, "```json", 0);
    start := open.value + 7 + SpaceRun(s, open.value + 7);
    var close := IndexFrom(s, "```", start);
    p := TrailStart(s, start, close.value);
    q := close.value;
    assert FenceBody(s) == Some(s[start..p]);
  }

  /** An occurrence inside a slice is an occurrence in the whole text, shifted by the slice start. */
  lemma StartsInSlice(s: string, start: int, p: int, t: int, sub: string)
    requires 0 <= start <= p <= |s|
    ensures StartsAt(s[start..p], t, sub) ==> StartsAt(s, start + t, sub)
  {
    if StartsAt(s[start..p], t, sub) {
      var inner, outer := s[start..p][t..t + |sub|], s[start + t..start + t + |sub|];
      forall k | 0 <= k < |sub|
        ensures inner[k] == outer[k]
      {
      }
      assert inner == outer;
    }
  }

  /** A slice ending before the first "```" of a region holds no "```". */
  lemma NoTicksBefore(s: string, start: int, p: int, q: int)
    requires FencedAt(s, start, p, q)
    ensures !Contains(s[start..p], "```")
  {
    forall t | 0 <= t <= p - start
      ensures !StartsAt(s[start..p], t, "```")
    {
      StartsInSlice(s, start, p, t, "```");
    }
  }

  /** Text that neither starts nor ends with white space is its own trim. */
  lemma TrimKeeps(b: string)
    requires b != [] ==> !IsSpace(b[0]) && !IsSpace(b[|b| - 1])
    ensures Trim(b) == b
  {
  }

  /**
   * The fenced body holds no "```" and neither starts nor ends with white space, so the `trim`
   * applied to it changes nothing.
   */
  lemma FenceBodySpec(s: string)
    requires FenceBody(s).Some?
    ensures !Contains(FenceBody(s).value, "```")
    ensures Trim(FenceBody(s).value) == FenceBody(s).value
  {
    var start, p, q := FenceBodyShape(s);
    FencedSliceSpec(s, start, p, q);
  }

  /** The slice before the closing fence holds no "```" and is its own trim. */
  lemma FencedSliceSpec(s: string, start: int, p: int, q: int)
    requires FencedAt(s, start, p, q)
    ensures !Contains(s[start..p], "```")
    ensures Trim(s[start..p]) == s[start..p]
  {
    NoTicksBefore(s, start, p, q);
    var b := s[start..p];
    if b != [] {
      assert b[0] == s[start];
      assert b[|b| - 1] == s[p - 1];
    }
    TrimKeeps(b);
  }

  /** When the reply has "```json", the fence pattern fails exactly when no "```" follows the opening. */
  lemma FenceBodyMissing(s: string)
    requires Contains(s, "```json")
    ensures FenceBody(s).None? <==> forall k :: IndexFrom(s, "```json", 0).value + 7 <= k ==> !StartsAt(s, k, "```")
  {
    IndexFromContains(s, "```json");
    var from := IndexFrom(s, "```json", 0).value + 7;
    var start := from + SpaceRun(s, from);
    var close := IndexFrom(s, "```", start);
    assert FenceBody(s).None? <==> close.None?;
    forall k | from <= k < start
      ensures !StartsAt(s, k, "```")
    {
      SpaceStartsNoFence(s, k);
    }
  }

  /** A "```" cannot start at a white-space character. */
  lemma SpaceStartsNoFence(s: string, k: nat)
    requires k < |s| && IsSpace(s[k])
    ensures !StartsAt(s, k, "```")
  {
    if k + 3 <= |s| {
      assert s[k..k + 3][0] == s[k];
    }
  }

  /**
   * The text `generateBOM` tries to parse: the trimmed fenced body when the reply has "```json"
   * and the fence pattern matches, else the brace span when there is no "```json", else the
   * whole reply.
   */
  function ExtractBlock(reply: string): string {
    if Contains(reply, "```json") then
      var body := FenceBody(reply);
      if body.Some? then Trim(body.value) else reply
    else
      var span := BraceSpan(reply);
      if span.Some? then span.value else reply
  }

  /** The block is always a piece of the reply. */
  lemma ExtractBlockSlice(reply: string)
    ensures exists i, j :: 0 <= i <= j <= |reply| && ExtractBlock(reply) == reply[i..j]
  {
    if Contains(reply, "```json") {
      var body := FenceBody(reply);
      if body.Some? {
        FenceBodySpec(reply);
        var start, p, q := FenceBodyShape(reply);
        assert ExtractBlock(reply) == reply[start..p];
      } else {
        assert ExtractBlock(reply) == reply[0..|reply|];
      }
    } else {
      var span := BraceSpan(reply);
      if span.Some? {
        var open := IndexFrom(reply, "{", 0);
        var close := LastIndexOf(reply, '}');
        assert ExtractBlock(reply) == reply[open.value..close.value + 1];
      } else {
        assert ExtractBlock(reply) == reply[0..|reply|];
      }
    }
  }

  /** `jsonString && (jsonString.startsWith('{') || jsonString.startsWith('['))`. */
  predicate LooksLikeJson(x: string) {
    x != [] && (x[0] == '{' || x[0] == '[')
  }

  // ---------------------------------------------------------------------------------------
  // generateBOM

  /**
   * What `JSON.parse` produced, reduced to what the service inspects: whether `items` is an
   * array, and the follow-up fields the requirement analysis overrides.
   */
  datatype Doc = Doc(itemsIsArray: bool, needsFollowUp: Option<bool>, followUpQuestions: Option<seq<string>>, body: string)

  /** The opaque text transforms and parser `generateBOM` uses; `parse` yields `JSON.parse`'s error message on failure. */
  datatype Parsing = Parsing(clean: string -> string, aggressive: string -> string, parse: string -> Result<Doc>)

  /** The cleaned block is parsed first; only if that fails is the aggressive pass applied, to the uncleaned block. */
  function ParseBlock(block: string, p: Parsing): Result<Doc> {
    var first := p.parse(p.clean(block));
    if first.Ok? then first else p.parse(p.aggressive(block))
  }

  /** The `try` block of `generateBOM`, before its errors are wrapped. */
  function BomAttempt(provider: string, reply: Result<string>, p: Parsing): Result<Doc> {
    var target := CallTarget(provider);
    if target.Err? then Err(target.error)
    else if reply.Err? then Err(reply.error)
    else
      var block := ExtractBlock(reply.value);
      if !LooksLikeJson(block) then Err("LLM did not return valid JSON format")
      else
        var doc := ParseBlock(block, p);
        if doc.Err? then Err(doc.error)
        else if !doc.value.itemsIsArray then Err("BOM structure invalid - missing items array")
        else doc
  }

  const BomFailurePrefix := "Failed to generate BOM: "

  /**
   * `generateBOM` once its candidate list `listed` is built: write the prompt, refuse one
   * estimated above 150000 tokens, then call the provider (whose reply or error is `reply`)
   * and check its answer.
   */
  function GenerateBomWith(listed: seq<Listed>, summary: string, provider: string, systemPrompt: string,
                           number: Option<real> -> string, reply: Result<string>, p: Parsing): Result<Doc>
  {
    var prompt := BomPrompt(summary, listed, number);
    if TooLong(systemPrompt, prompt) then Err(PromptTooLong)
    else
      var attempt := BomAttempt(provider, reply, p);
      if attempt.Err? then Err(BomFailurePrefix + attempt.error) else attempt
  }

  /** `generateBOM` as written, over the candidate list `PrepareServices` builds. */
  function GenerateBom(summary: string, services: seq<Offered>, provider: string, systemPrompt: string,
                       number: Option<real> -> string, reply: Result<string>, p: Parsing): Result<Doc>
  {
    GenerateBomWith(PrepareServices(services), summary, provider, systemPrompt, number, reply, p)
  }

  /** `generateBOM` over the corrected candidate list, which also takes single pricing objects. */
  function GenerateBomFixed(summary: string, services: seq<Offered>, provider: string, systemPrompt: string,
                            number: Option<real> -> string, reply: Result<string>, p: Parsing): Result<Doc>
  {
    GenerateBomWith(PrepareServicesFixed(services), summary, provider, systemPrompt, number, reply, p)
  }

  /**
   * `generateBOM` as written: a prompt over the limit fails with the size message whatever the
   * provider and its reply, which are never consulted; every other failure carries the
   * "Failed to generate BOM: " prefix; and a success has an `items` array and passed the start check.
   */
  lemma GenerateBomSpec(summary: string, services: seq<Offered>, provider: string, systemPrompt: string,
                        number: Option<real> -> string, reply: Result<string>, p: Parsing,
                        otherProvider: string, otherReply: Result<string>)
    ensures var prompt := BomPrompt(summary, PrepareServices(services), number);
      TooLong(systemPrompt, prompt) ==>
        GenerateBom(summary, services, provider, systemPrompt, number, reply, p) == Err(PromptTooLong)
        && GenerateBom(summary, services, otherProvider, systemPrompt, number, otherReply, p) == Err(PromptTooLong)
    ensures var r := GenerateBom(summary, services, provider, systemPrompt, number, reply, p);
      r.Err? && r.error != PromptTooLong ==> |r.error| >= |BomFailurePrefix| && r.error[..|BomFailurePrefix|] == BomFailurePrefix
    ensures var r := GenerateBom(summary, services, provider, systemPrompt, number, reply, p);
      r.Ok? ==> r.value.itemsIsArray && reply.Ok? && provider in ProviderIds && LooksLikeJson(ExtractBlock(reply.value))
  {
    var listed := PrepareServices(services);
    GenerateBomTooLong(listed, summary, provider, systemPrompt, number, reply, p);
    GenerateBomTooLong(listed, summary, otherProvider, systemPrompt, number, otherReply, p);
    GenerateBomPrefixed(listed, summary, provider, systemPrompt, number, reply, p);
    GenerateBomOk(listed, summary, provider, systemPrompt, number, reply, p);
  }

  /** The same three properties for `generateBOM` over the corrected candidate list. */
  lemma GenerateBomFixedSpec(summary: string, services: seq<Offered>, provider: string, systemPrompt: string,
                             number: Option<real> -> string, reply: Result<string>, p: Parsing,
                             otherProvider: string, otherReply: Result<string>)
    ensures var prompt := BomPrompt(summary, PrepareServicesFixed(services), number);
      TooLong(systemPrompt, prompt) ==>
        GenerateBomFixed(summary, services, provider, systemPrompt, number, reply, p) == Err(PromptTooLong)
        && GenerateBomFixed(summary, services, otherProvider, systemPrompt, number, otherReply, p) == Err(PromptTooLong)
    ensures var r := GenerateBomFixed(summary, services, provider, systemPrompt, number, reply, p);
      r.Err? && r.error != PromptTooLong ==> |r.error| >= |BomFailurePrefix| && r.error[..|BomFailurePrefix|] == BomFailurePrefix
    ensures var r := GenerateBomFixed(summary, services, provider, systemPrompt, number, reply, p);
      r.Ok? ==> r.value.itemsIsArray && reply.Ok? && provider in ProviderIds && LooksLikeJson(ExtractBlock(reply.value))
  {
    var listed := PrepareServicesFixed(services);
    GenerateBomTooLong(listed, summary, provider, systemPrompt, number, reply, p);
    GenerateBomTooLong(listed, summary, otherProvider, systemPrompt, number, otherReply, p);
    GenerateBomPrefixed(listed, summary, provider, systemPrompt, number, reply, p);
    GenerateBomOk(listed, summary, provider, systemPrompt, number, reply, p);
  }

  /** The size guard fires before any provider is consulted. */
  lemma GenerateBomTooLong(listed: seq<Listed>, summary: string, provider: string, systemPrompt: string,
                           number: Option<real> -> string, reply: Result<string>, p: Parsing)
    ensures TooLong(systemPrompt, BomPrompt(summary, listed, number)) ==>
      GenerateBomWith(listed, summary, provider, systemPrompt, number, reply, p) == Err(PromptTooLong)
  {
  }

  /** Every other failure carries the `Failed to generate BOM: ` prefix. */
  lemma GenerateBomPrefixed(listed: seq<Listed>, summary: string, provider: string, systemPrompt: string,
                            number: Option<real> -> string, reply: Result<string>, p: Parsing)
    ensures var r := GenerateBomWith(listed, summary, provider, systemPrompt, number, reply, p);
      r.Err? && r.error != PromptTooLong ==> |r.error| >= |BomFailurePrefix| && r.error[..|BomFailurePrefix|] == BomFailurePrefix
  {
    var r := GenerateBomWith(listed, summary, provider, systemPrompt, number, reply, p);
    if r.Err? && r.error != PromptTooLong {
      var attempt := BomAttempt(provider, reply, p);
      assert r.error == BomFailurePrefix + attempt.error;
      PrefixOfAppend(BomFailurePrefix, attempt.error);
    }
  }

  /** A success passed the provider check, the start check and has an `items` array. */
  lemma GenerateBomOk(listed: seq<Listed>, summary: string, provider: string, systemPrompt: string,
                      number: Option<real> -> string, reply: Result<string>, p: Parsing)
    ensures var r := GenerateBomWith(listed, summary, provider, systemPrompt, number, reply, p);
      r.Ok? ==> r.value.itemsIsArray && reply.Ok? && provider in ProviderIds && LooksLikeJson(ExtractBlock(reply.value))
  {
    BomAttemptOk(provider, reply, p);
  }

  /** The `try` block succeeds only past the provider check and the start check, with an `items` array. */
  lemma BomAttemptOk(provider: string, reply: Result<string>, p: Parsing)
    ensures var r := BomAttempt(provider, reply, p);
      r.Ok? ==> r.value.itemsIsArray && reply.Ok? && provider in ProviderIds && LooksLikeJson(ExtractBlock(reply.value))
  {
  }

  /**
   * The aggressive pass runs only after the cleaned parse fails, and it starts from the
   * extracted block, not from the cleaned one.
   */
  lemma ParseBlockSpec(block: string, p: Parsing)
    ensures p.parse(p.clean(block)).Ok? ==> ParseBlock(block, p) == p.parse(p.clean(block))
    ensures p.parse(p.clean(block)).Err? ==> ParseBlock(block, p) == p.parse(p.aggressive(block))
  {
  }

  // ---------------------------------------------------------------------------------------
  // analyzeRequirements

  /**
   * `analyzeRequirements` after the provider answered `reply`: the brace span is parsed; with
   * follow-up answers the model's follow-up fields are overridden. `hasAnswers` is
   * `followUpAnswers && Object.keys(followUpAnswers).length > 0`.
   */
  function AnalyzeRequirements(provider: string, hasAnswers: bool, reply: Result<string>, parse: string -> Result<Doc>): Result<Doc> {
    var target := CallTarget(provider);
    var attempt :=
      if target.Err? then Err(target.error)
      else if reply.Err? then Err(reply.error)
      else
        var span := BraceSpan(reply.value);
        if span.None? then Err("LLM did not return valid JSON format") else parse(span.value);
    if attempt.Err? then Err("Failed to analyze requirements: " + attempt.error)
    else if hasAnswers then Ok(attempt.value.(needsFollowUp := Some(false), followUpQuestions := Some([])))
    else attempt
  }

  /**
   * With follow-up answers a successful analysis never asks for more follow-up; without them the
   * model's answer is returned as parsed; a reply with no `{ ... }` span always fails.
   */
  lemma AnalyzeRequirementsSpec(provider: string, hasAnswers: bool, reply: Result<string>, parse: string -> Result<Doc>)
    ensures var r := AnalyzeRequirements(provider, hasAnswers, reply, parse);
      r.Ok? && hasAnswers ==> r.value.needsFollowUp == Some(false) && r.value.followUpQuestions == Some([])
    ensures var r := AnalyzeRequirements(provider, hasAnswers, reply, parse);
      r.Ok? && !hasAnswers ==> reply.Ok? && BraceSpan(reply.value).Some? && parse(BraceSpan(reply.value).value) == r
    ensures reply.Ok? && BraceSpan(reply.value).None? ==>
      AnalyzeRequirements(provider, hasAnswers, reply, parse).Err?
  {
  }

  // ---------------------------------------------------------------------------------------
  // parseDocumentContent

  const DocumentFailurePrefix := "Failed to parse document: "

  /** `parseDocumentContent` after the provider answered `reply`: the reply text itself, or the wrapped error. */
  function ParseDocumentContent(provider: string, reply: Result<string>): Result<string> {
    var target := CallTarget(provider);
    if target.Err? then Err(DocumentFailurePrefix + target.error)
    else if reply.Err? then Err(DocumentFailurePrefix + reply.error)
    else Ok(reply.value)
  }

  /**
   * The model's answer is handed back verbatim, with no JSON extraction; it succeeds exactly
   * when the provider is supported and answered; every failure carries the
   * "Failed to parse document: " prefix.
   */
  lemma ParseDocumentContentSpec(provider: string, reply: Result<string>)
    ensures ParseDocumentContent(provider, reply).Ok? <==> provider in ProviderIds && reply.Ok?
    ensures ParseDocumentContent(provider, reply).Ok? ==> ParseDocumentContent(provider, reply) == reply
    ensures var r := ParseDocumentContent(provider, reply);
      r.Err? ==> |r.error| >= |DocumentFailurePrefix| && r.error[..|DocumentFailurePrefix|] == DocumentFailurePrefix
  {
    var r := ParseDocumentContent(provider, reply);
    if r.Err? {
      var e := if CallTarget(provider).Err? then CallTarget(provider).error else reply.error;
      assert r.error == DocumentFailurePrefix + e;
      assert (DocumentFailurePrefix + e)[..|DocumentFailurePrefix|] == DocumentFailurePrefix;
    }
  }

  // ---------------------------------------------------------------------------------------
  // The live route: matcher output into the candidate list

  /** A match of the older provider as `generateBOM` receives it: its pricing is one object. */
  function FromMatch(m: OciService.Match): Offered {
    Offered(m.partNumber, m.displayName, m.serviceCategory, PricingObject(m.pricing), m.metricName)
  }

  function FromMatches(ms: seq<OciService.Match>): seq<Offered> {
    seq(|ms|, i requires 0 <= i < |ms| => FromMatch(ms[i]))
  }

  /** As written, no match of the older provider survives the candidate filter: the prompt lists no service. */
  lemma LiveRouteListsNothing(ms: seq<OciService.Match>)
    ensures PrepareServices(FromMatches(ms)) == []
  {
    PricedObjects(FromMatches(ms));
  }

  /**
   * As written, `generateBOM` on the live route behaves as if no service were offered: its
   * prompt announces "(0 services)", and the size guard measures that prompt.
   */
  lemma LiveRouteBom(ms: seq<OciService.Match>, summary: string, provider: string, systemPrompt: string,
                     number: Option<real> -> string, reply: Result<string>, p: Parsing)
    ensures GenerateBom(summary, FromMatches(ms), provider, systemPrompt, number, reply, p)
      == GenerateBomWith([], summary, provider, systemPrompt, number, reply, p)
    ensures TooLong(systemPrompt, BomPrompt(summary, PrepareServices(FromMatches(ms)), number))
      <==> TooLong(systemPrompt, BomPrompt(summary, [], number))
  {
    LiveRouteListsNothing(ms);
  }

  /** Services whose pricing is a single object are all dropped. */
  lemma {:induction false} PricedObjects(services: seq<Offered>)
    requires forall i :: 0 <= i < |services| ==> services[i].pricing.PricingObject?
    ensures Priced(services) == []
  {
    if services != [] {
      PricedObjects(services[1..]);
    }
  }

  /** The candidate pricing the filter evidently meant to accept: the first of a list, or a single object. */
  function AnyPrice(f: PricingField): (r: Option<Pricing>)
    ensures f.PricingObject? ==> r == Some(f.obj)
    ensures f.PricingList? ==> r == FirstPrice(f)
    ensures f.NoPricing? ==> r.None?
  {
    match f
    case NoPricing => None
    case PricingObject(obj) => Some(obj)
    case PricingList(items) => FirstPrice(f)
  }

  /** The candidate list with `AnyPrice` in place of `FirstPrice`. */
  function PricedAny(services: seq<Offered>): seq<Listed> {
    if services == [] then []
    else
      var s := services[0];
      var first := AnyPrice(s.pricing);
      var rest := PricedAny(services[1..]);
      if first.Some? then
        [Listed(s.partNumber, s.displayName, s.serviceCategory, first.value, OrElse(s.metricName, first.value.unit))] + rest
      else rest
  }

  /** The corrected candidate list: priced services, single objects included, at most fifteen. */
  function PrepareServicesFixed(services: seq<Offered>): seq<Listed> {
    var all := PricedAny(services);
    if |all| <= 15 then all else all[..15]
  }

  /** Every entry of the corrected list carries the part number and the candidate price of some service. */
  lemma {:induction false} PricedAnySound(services: seq<Offered>)
    ensures |PricedAny(services)| <= |services|
    ensures forall i :: 0 <= i < |PricedAny(services)| ==>
      exists j :: 0 <= j < |services| && AnyPrice(services[j].pricing) == Some(PricedAny(services)[i].pricing)
        && PricedAny(services)[i].partNumber == services[j].partNumber
  {
    if services != [] {
      PricedAnySound(services[1..]);
      var rest := PricedAny(services[1..]);
      forall i | 0 <= i < |rest|
        ensures exists j :: (0 <= j < |services| && AnyPrice(services[j].pricing) == Some(rest[i].pricing)
          && rest[i].partNumber == services[j].partNumber)
      {
        var j :| 0 <= j < |services[1..]| && AnyPrice(services[1..][j].pricing) == Some(rest[i].pricing)
          && rest[i].partNumber == services[1..][j].partNumber;
        assert services[1..][j] == services[j + 1];
      }
    }
  }

  /** The corrected list holds at most fifteen entries, each priced by the candidate price of a service. */
  lemma PrepareServicesFixedSpec(services: seq<Offered>)
    ensures |PrepareServicesFixed(services)| <= 15
    ensures forall i :: 0 <= i < |PrepareServicesFixed(services)| ==>
      exists j :: 0 <= j < |services| && AnyPrice(services[j].pricing) == Some(PrepareServicesFixed(services)[i].pricing)
        && PrepareServicesFixed(services)[i].partNumber == services[j].partNumber
  {
    PricedAnySound(services);
  }

  /** Every match reaches the corrected list, with its own pricing object. */
  lemma {:induction false} PricedAnyMatches(ms: seq<OciService.Match>)
    ensures |PricedAny(FromMatches(ms))| == |ms|
    ensures forall i :: 0 <= i < |ms| ==>
      PricedAny(FromMatches(ms))[i].pricing == ms[i].pricing && PricedAny(FromMatches(ms))[i].partNumber == ms[i].partNumber
  {
    if ms != [] {
      PricedAnyMatches(ms[1..]);
      assert FromMatches(ms)[1..] == FromMatches(ms[1..]);
    }
  }

  /** With the correction, the prompt lists the first fifteen matches of the live route, in order. */
  lemma LiveRouteFixed(ms: seq<OciService.Match>)
    ensures |PrepareServicesFixed(FromMatches(ms))| == if |ms| <= 15 then |ms| else 15
    ensures forall i :: 0 <= i < |PrepareServicesFixed(FromMatches(ms))| ==>
      PrepareServicesFixed(FromMatches(ms))[i].pricing == ms[i].pricing
      && PrepareServicesFixed(FromMatches(ms))[i].partNumber == ms[i].partNumber
  {
    PricedAnyMatches(ms);
  }

  /** On price lists the correction agrees with the code as written. */
  lemma {:induction false} PrepareFixedAgrees(services: seq<Offered>)
    requires forall i :: 0 <= i < |services| ==> !services[i].pricing.PricingObject?
    ensures PrepareServicesFixed(services) == PrepareServices(services)
    ensures PricedAny(services) == Priced(services)
  {
    if services != [] {
      PrepareFixedAgrees(services[1..]);
    }
  }
}
