/**
 * `UniversalConstraintTester`: the requirement text is scanned for restrictive instructions
 * ("only use …", "must be …", "required: …", "… only"), scope exclusions ("do not include …",
 * "avoid …", "no …") and SKU references ("sku: …", "part number …"); a service is then gated
 * by the SKU allow-list, rejected by any exclusion word longer than two characters that
 * occurs in one of its fields, and, when there are restrictions, allowed only if one of them
 * has at least half of its words, or at least three, present in the service's fields.
 */
module UniversalTester {
  import opened Wrappers
  import opened Text
  import opened Lists
  import opened Scanner
  import opened TesterExtraction

  /** The clause class `[^\n\.!?;]` and the lookahead `(?=\.|\n|!|\?|;|$)`. */
  const Stops: set<char> := {'\n', '.', '!', '?', ';'}

  const RestrictivePatterns: seq<Pattern> := [
    Led([Literal("only")], false, VerbClause(["consider", "use", "include", "allow"]), Stops),
    Led([Literal("exclusively")], false, Clause([]), Stops),
    Led([Literal("specifically")], false, Clause([]), Stops),
    Led([Literal("solely")], false, Clause([]), Stops),
    Led([Literal("must")], false, VerbClause(["be", "use", "include", "have"]), Stops),
    Led([Literal("required")], false, ColonClause(false), Stops),
    Led([Literal("constraint")], false, ColonClause(false), Stops),
    Led([Literal("limitation")], false, ColonClause(false), Stops),
    Led([Literal("should")], false, WordClause(["only", "exclusively"]), Stops),
    BeforeOnly(Stops)
  ]

  /** `don['']?t`: the class holds the apostrophe twice, so it is `don't` or `dont`. */
  const ScopePatterns: seq<Pattern> := [
    Led([Trigger("do", [(Spaces, "not")])], false, VerbClause(["include", "add", "consider", "use", "allow"]), Stops),
    Led([Literal("don't"), Literal("dont")], false, VerbClause(["include", "add", "consider", "use", "allow"]), Stops),
    Led([Literal("exclude")], false, Clause([]), Stops),
    Led([Literal("avoid")], false, Clause([]), Stops),
    Led([Literal("not")], false, Clause([]), Stops),
    Led([Literal("no")], false, LetterClause, Stops),
    Led([Literal("without")], false, Clause([]), Stops)
  ]

  const SkuPatterns: seq<Pattern> := [
    Led([Literal("sku")], false, Token, Stops),
    Led([Trigger("part", [(OptSpaces, "number")])], false, Token, Stops),
    Led([Trigger("service", [(OptSpaces, "code")])], false, Token, Stops),
    Led([Trigger("product", [(OptSpaces, "code")])], false, Token, Stops),
    Led([Literal("model")], false, Token, Stops)
  ]

  const Patterns: PatternTable := PatternTable(RestrictivePatterns, ScopePatterns, SkuPatterns)

  /** `extractUserConstraints(requirementsText)`. */
  method ExtractUserConstraints(requirementsText: string) returns (c: UserConstraints)
    ensures ValidTable(Patterns) && c == Extract(Patterns, requirementsText)
  {
    PatternsValid();
    c := TesterExtraction.ExtractUserConstraints(Patterns, requirementsText);
  }

  /** Every trigger of the three tables starts with a non-empty word. */
  lemma PatternsValid()
    ensures ValidTable(Patterns)
  {
    RestrictiveValid();
    ScopeValid();
    SkuValid();
  }

  /** The validity of each table, proved one table at a time. */
  lemma RestrictiveValid()
    ensures AllValid(RestrictivePatterns)
  {
  }

  lemma ScopeValid()
    ensures AllValid(ScopePatterns)
  {
  }

  lemma SkuValid()
    ensures AllValid(SkuPatterns)
  {
  }

  // ---------------------------------------------------------------- what the instructions are

  /** The shapes of the restrictive table's entries. */
  lemma RestrictiveShapes()
    ensures forall k :: k in {0, 4} ==> VerbShape(RestrictivePatterns[k])
    ensures forall k :: k in {1, 2, 3, 5, 6, 7} ==> ClauseShape(RestrictivePatterns[k])
    ensures WordShape(RestrictivePatterns[8])
    ensures RestrictivePatterns[0].tail.verbs + RestrictivePatterns[4].tail.verbs
      == ["consider", "use", "include", "allow", "be", "use", "include", "have"]
  {
  }

  /** The shapes of the scope table's entries. */
  lemma ScopeShapes()
    ensures forall k :: k in {0, 1} ==> VerbShape(ScopePatterns[k])
    ensures forall k :: 2 <= k < 7 ==> ClauseShape(ScopePatterns[k])
    ensures ScopePatterns[0].tail.verbs == ScopePatterns[1].tail.verbs == ["include", "add", "consider", "use", "allow"]
  {
  }

  /** Every SKU pattern is token-led. */
  lemma SkuShapes()
    ensures forall k :: 0 <= k < 5 ==> TokenShape(SkuPatterns[k])
  {
  }

  /** `only (consider|use|include|allow) …` and `must (be|use|include|have) …`: the instruction is the verb. */
  lemma RestrictiveVerbInstruction(text: string, k: nat, i: nat, m: Match)
    requires k in {0, 4} && i <= |text| && MatchAt(RestrictivePatterns[k], text, i) == Some(m)
    ensures EntryOf(Restrictive, text, m).value in ["consider", "use", "include", "allow", "be", "have"]
  {
    RestrictiveShapes();
    VerbIsInstruction(Restrictive, RestrictivePatterns[k], text, i, m);
  }

  /** `exclusively`, `specifically`, `solely`, `required`, `constraint`, `limitation`: the instruction is the clause that ends the match. */
  lemma RestrictiveClauseInstruction(text: string, k: nat, i: nat, m: Match)
    requires k in {1, 2, 3, 5, 6, 7} && i <= |text| && MatchAt(RestrictivePatterns[k], text, i) == Some(m)
    ensures exists lo ::
      i < lo < m.end && IsClause(text, Span(lo, m.end), Stops) && EntryOf(Restrictive, text, m).value == text[lo..m.end]
  {
    assert ClauseShape(RestrictivePatterns[k]) by { RestrictiveShapes(); }
    ClauseIsInstruction(Restrictive, RestrictivePatterns[k], text, i, m);
  }

  /** `should (only|exclusively)? …`: the instruction is `only` or `exclusively` when present, the clause otherwise. */
  lemma ShouldInstruction(text: string, i: nat, m: Match)
    requires i <= |text| && MatchAt(RestrictivePatterns[8], text, i) == Some(m)
    ensures var v := EntryOf(Restrictive, text, m).value;
      v in ["only", "exclusively"]
      || exists lo :: i < lo < m.end && IsClause(text, Span(lo, m.end), Stops) && v == text[lo..m.end]
  {
    assert WordShape(RestrictivePatterns[8]) by { RestrictiveShapes(); }
    WordOrClauseIsInstruction(RestrictivePatterns[8], text, i, m);
  }

  /** `… only`: the instruction is the run of letters and spaces in front of the closing `only`. */
  lemma OnlySuffixInstruction(text: string, i: nat, m: Match)
    requires i <= |text| && MatchAt(RestrictivePatterns[9], text, i) == Some(m)
    ensures exists g ::
      i < g < m.end && EntryOf(Restrictive, text, m).value == text[i..g]
      && (forall j :: i <= j < g ==> IsLetterOrSpace(text[j]))
  {
    BeforeOnlyIsInstruction(RestrictivePatterns[9], text, i, m);
  }

  /** `do not …` and `don't …`: the exclusion's instruction is the verb, not what follows it. */
  lemma ScopeVerbInstruction(text: string, k: nat, i: nat, m: Match)
    requires k in {0, 1} && i <= |text| && MatchAt(ScopePatterns[k], text, i) == Some(m)
    ensures EntryOf(Exclusion, text, m).value in ["include", "add", "consider", "use", "allow"]
  {
    ScopeShapes();
    VerbIsInstruction(Exclusion, ScopePatterns[k], text, i, m);
  }

  /** `exclude`, `avoid`, `not`, `no`, `without`: the exclusion's instruction is the clause that ends the match. */
  lemma ScopeClauseInstruction(text: string, k: nat, i: nat, m: Match)
    requires 2 <= k < 7 && i <= |text| && MatchAt(ScopePatterns[k], text, i) == Some(m)
    ensures exists lo ::
      i < lo < m.end && IsClause(text, Span(lo, m.end), Stops) && EntryOf(Exclusion, text, m).value == text[lo..m.end]
  {
    assert ClauseShape(ScopePatterns[k]) by { ScopeShapes(); }
    ClauseIsInstruction(Exclusion, ScopePatterns[k], text, i, m);
  }

  /** Every SKU reference yields the maximal run of `[A-Za-z0-9\-_]` that ends the match. */
  lemma SkuInstruction(text: string, k: nat, i: nat, m: Match)
    requires k < 5 && i <= |text| && MatchAt(SkuPatterns[k], text, i) == Some(m)
    ensures exists lo ::
      i < lo < m.end && EntryOf(Sku, text, m).value == text[lo..m.end]
      && (forall j :: lo <= j < m.end ==> IsTokenChar(text[j]))
      && (m.end == |text| || !IsTokenChar(text[m.end]))
  {
    assert TokenShape(SkuPatterns[k]) by { SkuShapes(); }
    TokenIsSku(SkuPatterns[k], text, i, m);
  }

  // ---------------------------------------------------------------- validation

  /** `keyword` occurs in the lowercased name, category, part number or SKU type. */
  predicate Hit(s: Service, keyword: string) {
    Contains(LowerOr(s.displayName), keyword) || Contains(LowerOr(s.serviceCategory), keyword)
    || Contains(LowerOr(s.partNumber), keyword) || Contains(LowerOr(s.skuType), keyword)
  }

  /** `.filter(word => word.length > 2)`. */
  function LongWords(words: seq<string>): (r: seq<string>)
    ensures |r| <= |words|
  {
    if words == [] then []
    else (if |words[0]| > 2 then [words[0]] else []) + LongWords(words[1..])
  }

  /** The filter keeps exactly the words longer than two characters. */
  lemma {:induction false} LongWordsSpec(words: seq<string>)
    ensures forall w :: w in LongWords(words) <==> w in words && |w| > 2
  {
    if words != [] {
      LongWordsSpec(words[1..]);
      assert forall w :: w in words <==> w == words[0] || w in words[1..];
    }
  }

  /** `instruction.toLowerCase().split(/\s+/).filter(word => word.length > 2)`. */
  function Keywords(instruction: string): seq<string> {
    LongWords(SplitSpace(ToLower(instruction)))
  }

  /** The first keyword found in one of the service's fields. */
  function FirstHit(s: Service, kws: seq<string>): (r: Option<string>)
    ensures r.Some? ==> r.value in kws && Hit(s, r.value)
    ensures r.None? ==> forall w :: w in kws ==> !Hit(s, w)
  {
    if kws == [] then None
    else if Hit(s, kws[0]) then Some(kws[0])
    else FirstHit(s, kws[1..])
  }

  /** `matchedKeywords`: the keywords found in the service's fields, in order. */
  function Hits(s: Service, kws: seq<string>): (r: seq<string>)
    ensures |r| <= |kws|
  {
    if kws == [] then []
    else Hits(s, kws[..|kws| - 1]) + (if Hit(s, kws[|kws| - 1]) then [kws[|kws| - 1]] else [])
  }

  /** The matched keywords are exactly the keywords found in one of the service's fields. */
  lemma {:induction false} HitsSpec(s: Service, kws: seq<string>)
    ensures forall w :: w in Hits(s, kws) <==> w in kws && Hit(s, w)
  {
    if kws != [] {
      var init := kws[..|kws| - 1];
      HitsSpec(s, init);
      assert kws == init + [kws[|kws| - 1]];
      assert forall w :: w in kws <==> w in init || w == kws[|kws| - 1];
    }
  }

  /** `matchRatio >= 0.5 || matchCount >= 3`, where `0 / 0` is `NaN` and fails the comparison. */
  predicate Significant(matchCount: nat, keywordCount: nat) {
    (keywordCount > 0 && (matchCount as real) / (keywordCount as real) >= 0.5) || matchCount >= 3
  }

  /** The outcome of one restriction: the match details when it is significant. */
  function RestrictionOutcome(s: Service, r: Entry): Option<Reason> {
    var kws := Keywords(r.value);
    var hits := Hits(s, kws);
    if Significant(|hits|, |kws|) then Some(RestrictionMatched(|hits|, |kws|, r.fullMatch, hits)) else None
  }

  /** The first restriction that is significant for the service. */
  function FirstRestriction(s: Service, rs: seq<Entry>): Option<Reason> {
    if rs == [] then None
    else
      var o := RestrictionOutcome(s, rs[0]);
      if o.Some? then o else FirstRestriction(s, rs[1..])
  }

  /** The first exclusion with a keyword in the service's fields, with that keyword. */
  function FirstExclusion(s: Service, es: seq<Entry>): Option<Reason> {
    if es == [] then None
    else
      var kw := FirstHit(s, Keywords(es[0].value));
      if kw.Some? then Some(Excluded(es[0].fullMatch, kw)) else FirstExclusion(s, es[1..])
  }

  /** What `validateServiceAgainstConstraints` returns. */
  function Validate(s: Service, c: UserConstraints): Verdict {
    var allowedSkus := AllowedSkus(c.specificSkus);
    if |c.specificSkus| > 0 && LowerOr(s.partNumber) !in allowedSkus then
      Verdict(false, NotInAllowedSkus(s.partNumber, allowedSkus))
    else
      var excluded := FirstExclusion(s, c.exclusions);
      if excluded.Some? then Verdict(false, excluded.value)
      else if |c.restrictive| > 0 then
        var matched := FirstRestriction(s, c.restrictive);
        if matched.Some? then Verdict(true, matched.value)
        else Verdict(false, NoRestrictionMatched(FullMatches(c.restrictive)))
      else Verdict(true, MeetsAll)
  }

  /** The inner `for (const keyword of excludeKeywords)` loop: the first keyword found in a field. */
  method FindExcludedKeyword(s: Service, kws: seq<string>) returns (found: Option<string>)
    ensures found == FirstHit(s, kws)
  {
    var k := 0;
    while k < |kws|
      invariant 0 <= k <= |kws|
      invariant FirstHit(s, kws[k..]) == FirstHit(s, kws)
    {
      if Hit(s, kws[k]) {
        return Some(kws[k]);
      }
      assert kws[k..][1..] == kws[k + 1..];
      k := k + 1;
    }
    return None;
  }

  /** The `for (const keyword of restrictKeywords)` loop: `matchCount` and `matchedKeywords`. */
  method CountMatches(s: Service, kws: seq<string>) returns (matchCount: nat, matchedKeywords: seq<string>)
    ensures matchedKeywords == Hits(s, kws) && matchCount == |matchedKeywords|
  {
    matchCount := 0;
    matchedKeywords := [];
    var k := 0;
    while k < |kws|
      invariant 0 <= k <= |kws|
      invariant matchedKeywords == Hits(s, kws[..k]) && matchCount == |matchedKeywords|
    {
      assert kws[..k + 1][..k] == kws[..k];
      if Hit(s, kws[k]) {
        matchCount := matchCount + 1;
        matchedKeywords := matchedKeywords + [kws[k]];
      }
      k := k + 1;
    }
    assert kws[..|kws|] == kws;
  }

  /** `validateServiceAgainstConstraints(service, constraints)`. */
  method ValidateServiceAgainstConstraints(s: Service, c: UserConstraints) returns (v: Verdict)
    ensures v == Validate(s, c)
  {
    if |c.specificSkus| > 0 {
      var allowedSkus := AllowedSkus(c.specificSkus);
      if LowerOr(s.partNumber) !in allowedSkus {
        return Verdict(false, NotInAllowedSkus(s.partNumber, allowedSkus));
      }
    }
    var excluded := CheckExclusions(s, c.exclusions);
    if excluded.Some? {
      return Verdict(false, excluded.value);
    }
    if |c.restrictive| > 0 {
      var matched := CheckRestrictions(s, c.restrictive);
      if matched.None? {
        return Verdict(false, NoRestrictionMatched(FullMatches(c.restrictive)));
      }
      return Verdict(true, matched.value);
    }
    return Verdict(true, MeetsAll);
  }

  /** The `for (const exclusion of constraints.exclusions)` loop: the first exclusion that fires, with its keyword. */
  method CheckExclusions(s: Service, es: seq<Entry>) returns (excluded: Option<Reason>)
    ensures excluded == FirstExclusion(s, es)
  {
    var j := 0;
    while j < |es|
      invariant 0 <= j <= |es|
      invariant FirstExclusion(s, es[j..]) == FirstExclusion(s, es)
    {
      var keyword := FindExcludedKeyword(s, Keywords(es[j].value));
      if keyword.Some? {
        return Some(Excluded(es[j].fullMatch, keyword));
      }
      DropOne(es, j);
      j := j + 1;
    }
    return None;
  }

  /** The `for (const restriction of constraints.restrictive)` loop: the details of the first restriction met. */
  method CheckRestrictions(s: Service, rs: seq<Entry>) returns (matched: Option<Reason>)
    ensures matched == FirstRestriction(s, rs)
  {
    var k := 0;
    while k < |rs|
      invariant 0 <= k <= |rs|
      invariant FirstRestriction(s, rs[k..]) == FirstRestriction(s, rs)
    {
      var kws := Keywords(rs[k].value);
      var matchCount, matchedKeywords := CountMatches(s, kws);
      if Significant(matchCount, |kws|) {
        return Some(RestrictionMatched(matchCount, |kws|, rs[k].fullMatch, matchedKeywords));
      }
      DropOne(rs, k);
      k := k + 1;
    }
    return None;
  }

  // ---------------------------------------------------------------- what validation decides

  /** Some word longer than two characters of the exclusion occurs in one of the service's fields. */
  predicate ExcludedBy(s: Service, e: Entry) {
    exists w :: w in SplitSpace(ToLower(e.value)) && |w| > 2 && Hit(s, w)
  }

  /** At least half of the restriction's long words, or at least three of them, occur in the service's fields. */
  predicate RestrictionMet(s: Service, r: Entry) {
    var kws := Keywords(r.value);
    var n := |Hits(s, kws)|;
    (n >= 3 || 2 * n >= |kws|) && n > 0
  }

  lemma FirstHitIff(s: Service, e: Entry)
    ensures FirstHit(s, Keywords(e.value)).Some? <==> ExcludedBy(s, e)
  {
    var kws := Keywords(e.value);
    LongWordsSpec(SplitSpace(ToLower(e.value)));
    if ExcludedBy(s, e) {
      var w :| w in SplitSpace(ToLower(e.value)) && |w| > 2 && Hit(s, w);
      assert w in kws;
    }
  }

  lemma {:induction false} FirstExclusionIff(s: Service, es: seq<Entry>)
    ensures FirstExclusion(s, es).Some? <==> exists j :: 0 <= j < |es| && ExcludedBy(s, es[j])
    decreases |es|
  {
    if es != [] {
      FirstHitIff(s, es[0]);
      FirstExclusionIff(s, es[1..]);
      assert forall j :: 1 <= j < |es| ==> es[1..][j - 1] == es[j];
    }
  }

  /** The ratio `matchCount / keywordCount` reaches one half exactly when twice the count reaches the total. */
  lemma RatioTest(n: nat, total: nat)
    requires 0 < total
    ensures (n as real) / (total as real) >= 0.5 <==> 2 * n >= total
  {
    var ratio := (n as real) / (total as real);
    assert ratio * (total as real) == n as real;
  }

  /** The ratio test agrees with the integer form, and an empty keyword list (`0 / 0`) never passes. */
  lemma SignificantIff(s: Service, r: Entry)
    ensures RestrictionOutcome(s, r).Some? <==> RestrictionMet(s, r)
  {
    var kws := Keywords(r.value);
    var n := |Hits(s, kws)|;
    assert n <= |kws|;
    if |kws| > 0 {
      RatioTest(n, |kws|);
    }
  }

  lemma {:induction false} FirstRestrictionIff(s: Service, rs: seq<Entry>)
    ensures FirstRestriction(s, rs).Some? <==> exists k :: 0 <= k < |rs| && RestrictionMet(s, rs[k])
    decreases |rs|
  {
    if rs != [] {
      SignificantIff(s, rs[0]);
      FirstRestrictionIff(s, rs[1..]);
      assert forall k :: 1 <= k < |rs| ==> rs[1..][k - 1] == rs[k];
    }
  }

  /**
   * A service is allowed exactly when it passes the SKU gate, no exclusion has a long word in
   * its fields, and either there are no restrictions or some restriction is met.
   */
  lemma ValidateAllowed(s: Service, c: UserConstraints)
    ensures Validate(s, c).allowed <==>
      SkuPasses(s, c)
      && (forall j :: 0 <= j < |c.exclusions| ==> !ExcludedBy(s, c.exclusions[j]))
      && (|c.restrictive| == 0 || exists k :: 0 <= k < |c.restrictive| && RestrictionMet(s, c.restrictive[k]))
  {
    SkuPassesIff(s, c);
    FirstExclusionIff(s, c.exclusions);
    FirstRestrictionIff(s, c.restrictive);
  }

  /** The SKU gate comes first: a service outside the allow-list is rejected for that reason, whatever the other constraints say. */
  lemma SkuGateFirst(s: Service, c: UserConstraints)
    requires !SkuPasses(s, c)
    ensures Validate(s, c) == Verdict(false, NotInAllowedSkus(s.partNumber, AllowedSkus(c.specificSkus)))
  {
    SkuPassesIff(s, c);
  }

  /**
   * The rejection by exclusion names the first exclusion with a long word in the service's
   * fields, and the first such word of it.
   */
  lemma ExclusionReason(s: Service, es: seq<Entry>, j: nat)
    requires j < |es| && ExcludedBy(s, es[j]) && forall i :: 0 <= i < j ==> !ExcludedBy(s, es[i])
    ensures FirstExclusion(s, es) == Some(Excluded(es[j].fullMatch, FirstHit(s, Keywords(es[j].value))))
    ensures FirstHit(s, Keywords(es[j].value)).Some?
  {
    forall i | 0 <= i <= j
      ensures FirstHit(s, Keywords(es[i].value)).Some? <==> ExcludedBy(s, es[i])
    {
      FirstHitIff(s, es[i]);
    }
    FirstExclusionAt(s, es, j);
  }

  /** `FirstExclusion` stops at the first exclusion whose keywords hit. */
  lemma {:induction false} FirstExclusionAt(s: Service, es: seq<Entry>, j: nat)
    requires j < |es| && FirstHit(s, Keywords(es[j].value)).Some?
    requires forall i :: 0 <= i < j ==> FirstHit(s, Keywords(es[i].value)).None?
    ensures FirstExclusion(s, es) == Some(Excluded(es[j].fullMatch, FirstHit(s, Keywords(es[j].value))))
    decreases j
  {
    if j > 0 {
      assert es[1..][j - 1] == es[j];
      assert forall i :: 0 <= i < j - 1 ==> es[1..][i] == es[i + 1];
      FirstExclusionAt(s, es[1..], j - 1);
    }
  }

  /**
   * The allowing restriction is the first one that is met; the verdict reports how many of its
   * keywords were found, out of how many, and which.
   */
  lemma RestrictionReason(s: Service, rs: seq<Entry>, k: nat)
    requires k < |rs| && RestrictionMet(s, rs[k]) && forall i :: 0 <= i < k ==> !RestrictionMet(s, rs[i])
    ensures var kws := Keywords(rs[k].value);
      FirstRestriction(s, rs) == Some(RestrictionMatched(|Hits(s, kws)|, |kws|, rs[k].fullMatch, Hits(s, kws)))
  {
    forall i | 0 <= i <= k
      ensures RestrictionOutcome(s, rs[i]).Some? <==> RestrictionMet(s, rs[i])
    {
      SignificantIff(s, rs[i]);
    }
    FirstRestrictionAt(s, rs, k);
  }

  /** `FirstRestriction` stops at the first significant restriction. */
  lemma {:induction false} FirstRestrictionAt(s: Service, rs: seq<Entry>, k: nat)
    requires k < |rs| && RestrictionOutcome(s, rs[k]).Some?
    requires forall i :: 0 <= i < k ==> RestrictionOutcome(s, rs[i]).None?
    ensures FirstRestriction(s, rs) == RestrictionOutcome(s, rs[k])
    decreases k
  {
    if k > 0 {
      assert rs[1..][k - 1] == rs[k];
      assert forall i :: 0 <= i < k - 1 ==> rs[1..][i] == rs[i + 1];
      FirstRestrictionAt(s, rs[1..], k - 1);
    }
  }

  /** Filtering words none of which is longer than two characters leaves nothing. */
  lemma {:induction false} NoLongWords(words: seq<string>)
    requires forall k :: 0 <= k < |words| ==> |words[k]| <= 2
    ensures LongWords(words) == []
  {
    if words != [] {
      NoLongWords(words[1..]);
    }
  }

  /** A restriction with no word longer than two characters (such as the verb `be`) is met by no service. */
  lemma ShortRestrictionNeverMet(s: Service, r: Entry)
    requires forall k :: 0 <= k < |SplitSpace(ToLower(r.value))| ==> |SplitSpace(ToLower(r.value))[k]| <= 2
    ensures !RestrictionMet(s, r)
  {
    NoLongWords(SplitSpace(ToLower(r.value)));
  }

  /** `must be …` yields the instruction `be`, so such a restriction admits no service. */
  lemma MustBeAdmitsNothing(s: Service, fullMatch: string)
    ensures !RestrictionMet(s, Entry(fullMatch, "be"))
  {
    var lower := ToLower("be");
    assert lower[0] == 'b' && lower[1] == 'e';
    assert WordRun(lower, 0) == 2;
    assert SplitSpace(lower) == [lower];
    ShortRestrictionNeverMet(s, Entry(fullMatch, "be"));
  }
}
