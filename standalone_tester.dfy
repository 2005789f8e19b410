/**
 * The standalone `ConstraintTester`: restrictive instructions ("only use …", "must be …",
 * "required: …"), exclusions ("do not include …", "exclude …", "no …") and SKU references
 * are extracted with greedy clauses that stop at a comma, a period or a line break; a
 * service is gated by the SKU allow-list, then rejected by an exclusion that names its
 * category (storage, network), a premium or enterprise name, or the whole exclusion phrase,
 * and finally, when there are restrictions, allowed only if one of them names its category
 * or, lacking a category word, occurs as a whole in its name, category or part number.
 */
module StandaloneTester {
  import opened Wrappers
  import opened Text
  import opened Lists
  import opened Scanner
  import opened TesterExtraction

  /** The clause class `[^,\.\n]`. */
  const Breaks: set<char> := {',', '.', '\n'}

  /** `required?` is `required` or `require`; the colon patterns need the colon. */
  const RestrictivePatterns: seq<Pattern> := [
    Led([Literal("only")], false, VerbClause(["consider", "use", "include"]), Breaks),
    Led([Literal("exclusively")], false, Clause([]), Breaks),
    Led([Literal("specifically")], false, Clause([]), Breaks),
    Led([Literal("must")], false, VerbClause(["be", "use", "include"]), Breaks),
    Led([Literal("required"), Literal("require")], false, ColonClause(true), Breaks),
    Led([Literal("constraint")], false, ColonClause(true), Breaks),
    Led([Literal("limitation")], false, ColonClause(true), Breaks)
  ]

  const ScopePatterns: seq<Pattern> := [
    Led([Trigger("do", [(Spaces, "not")])], false, VerbClause(["include", "add", "consider"]), Breaks),
    Led([Literal("exclude")], false, Clause([]), Breaks),
    Led([Literal("avoid")], false, Clause([]), Breaks),
    Led([Literal("no")], false, Clause([]), Breaks)
  ]

  const SkuPatterns: seq<Pattern> := [
    Led([Literal("sku")], false, Token, Breaks),
    Led([Trigger("part", [(OptSpaces, "number")])], false, Token, Breaks),
    Led([Trigger("service", [(OptSpaces, "code")])], false, Token, Breaks)
  ]

  const Patterns: PatternTable := PatternTable(RestrictivePatterns, ScopePatterns, SkuPatterns)

  /** `extractUserConstraints(requirementsText)`. */
  method ExtractUserConstraints(requirementsText: string) returns (c: UserConstraints)
    ensures ValidTable(Patterns) && c == Extract(Patterns, requirementsText)
  {
    c := TesterExtraction.ExtractUserConstraints(Patterns, requirementsText);
  }

  // ---------------------------------------------------------------- what the instructions are

  /** The shapes of the restrictive table's entries. */
  lemma RestrictiveShapes()
    ensures forall k :: k in {0, 3} ==> VerbShape(RestrictivePatterns[k])
    ensures forall k :: k in {1, 2, 4, 5, 6} ==> ClauseShape(RestrictivePatterns[k])
    ensures RestrictivePatterns[0].tail.verbs + RestrictivePatterns[3].tail.verbs
      == ["consider", "use", "include", "be", "use", "include"]
  {
  }

  /** The shapes of the scope table's entries. */
  lemma ScopeShapes()
    ensures VerbShape(ScopePatterns[0]) && ScopePatterns[0].tail.verbs == ["include", "add", "consider"]
    ensures forall k :: 1 <= k < 4 ==> ClauseShape(ScopePatterns[k])
  {
  }

  /** `only (consider|use|include) …` and `must (be|use|include) …`: the restriction's instruction is the verb (group 1). */
  lemma RestrictiveVerbInstruction(text: string, k: nat, i: nat, m: Match)
    requires k in {0, 3} && i <= |text| && MatchAt(RestrictivePatterns[k], text, i) == Some(m)
    ensures EntryOf(Restrictive, text, m).value in ["consider", "use", "include", "be"]
  {
    RestrictiveShapes();
    VerbIsInstruction(Restrictive, RestrictivePatterns[k], text, i, m);
  }

  /** The one-group restrictive patterns: the instruction is the clause up to the first comma, period or line break. */
  lemma RestrictiveClauseInstruction(text: string, k: nat, i: nat, m: Match)
    requires k in {1, 2, 4, 5, 6} && i <= |text| && MatchAt(RestrictivePatterns[k], text, i) == Some(m)
    ensures exists lo ::
      i < lo < m.end && IsClause(text, Span(lo, m.end), Breaks) && EntryOf(Restrictive, text, m).value == text[lo..m.end]
  {
    assert ClauseShape(RestrictivePatterns[k]) by { RestrictiveShapes(); }
    ClauseIsInstruction(Restrictive, RestrictivePatterns[k], text, i, m);
  }

  /** `do not (include|add|consider) …`: the exclusion's instruction is group 1, the verb. */
  lemma DoNotInstruction(text: string, i: nat, m: Match)
    requires i <= |text| && MatchAt(ScopePatterns[0], text, i) == Some(m)
    ensures EntryOf(Exclusion, text, m).value in ["include", "add", "consider"]
  {
    ScopeShapes();
    VerbIsInstruction(Exclusion, ScopePatterns[0], text, i, m);
  }

  /** `exclude`, `avoid`, `no`: the exclusion's instruction is the clause up to the first comma, period or line break. */
  lemma ScopeClauseInstruction(text: string, k: nat, i: nat, m: Match)
    requires 1 <= k < 4 && i <= |text| && MatchAt(ScopePatterns[k], text, i) == Some(m)
    ensures exists lo ::
      i < lo < m.end && IsClause(text, Span(lo, m.end), Breaks) && EntryOf(Exclusion, text, m).value == text[lo..m.end]
  {
    assert ClauseShape(ScopePatterns[k]) by { ScopeShapes(); }
    ClauseIsInstruction(Exclusion, ScopePatterns[k], text, i, m);
  }

  // ---------------------------------------------------------------- validation

  /** One exclusion rejects the service (lines 106-137, in that order; every branch gives the same verdict). */
  predicate ExclusionRejects(s: Service, e: Entry) {
    var x := ToLower(e.value);
    var name := LowerOr(s.displayName);
    var category := LowerOr(s.serviceCategory);
    (Contains(x, "storage") && Contains(category, "storage"))
    || ((Contains(x, "network") || Contains(x, "networking")) && Contains(category, "network"))
    || (Contains(x, "premium") && Contains(name, "premium"))
    || (Contains(x, "enterprise") && Contains(name, "enterprise"))
    || Contains(name, x) || Contains(category, x)
  }

  /** `['compute', 'storage', 'database', 'networking', 'network']`. */
  const CategoryKeywords: seq<string> := ["compute", "storage", "database", "networking", "network"]

  /** One restriction admits the service (lines 145-175). */
  predicate RestrictionAdmits(s: Service, r: Entry) {
    var x := ToLower(r.value);
    var name := LowerOr(s.displayName);
    var category := LowerOr(s.serviceCategory);
    if ContainsAny(x, CategoryKeywords) then
      (Contains(x, "compute") && Contains(category, "compute"))
      || (Contains(x, "storage") && Contains(category, "storage"))
      || (Contains(x, "database") && Contains(category, "database"))
      || ((Contains(x, "network") || Contains(x, "networking")) && Contains(category, "network"))
    else
      Contains(name, x) || Contains(category, x) || Contains(LowerOr(s.partNumber), x)
  }

  /** The first exclusion that rejects the service. */
  function FirstRejecting(s: Service, es: seq<Entry>): (r: Option<Entry>)
    ensures r.Some? ==> r.value in es && ExclusionRejects(s, r.value)
    ensures r.None? ==> forall j :: 0 <= j < |es| ==> !ExclusionRejects(s, es[j])
  {
    if es == [] then None
    else if ExclusionRejects(s, es[0]) then Some(es[0])
    else FirstRejecting(s, es[1..])
  }

  /** What `validateServiceAgainstConstraints` returns. */
  function Validate(s: Service, c: UserConstraints): Verdict {
    var allowedSkus := AllowedSkus(c.specificSkus);
    if |c.specificSkus| > 0 && LowerOr(s.partNumber) !in allowedSkus then
      Verdict(false, NotInAllowedSkus(s.partNumber, allowedSkus))
    else
      var excluded := FirstRejecting(s, c.exclusions);
      if excluded.Some? then Verdict(false, Excluded(excluded.value.fullMatch, None))
      else if |c.restrictive| > 0 && !(exists k :: 0 <= k < |c.restrictive| && RestrictionAdmits(s, c.restrictive[k])) then
        Verdict(false, NoRestrictionMatched(FullMatches(c.restrictive)))
      else Verdict(true, MeetsAll)
  }

  /** `validateServiceAgainstConstraints(service, constraints, requirements)`; `requirements` is never read. */
  method ValidateServiceAgainstConstraints(s: Service, c: UserConstraints) returns (v: Verdict)
    ensures v == Validate(s, c)
  {
    var partNumber := LowerOr(s.partNumber);
    if |c.specificSkus| > 0 {
      var allowedSkus := AllowedSkus(c.specificSkus);
      if partNumber !in allowedSkus {
        return Verdict(false, NotInAllowedSkus(s.partNumber, allowedSkus));
      }
    }
    var excluded := CheckExclusions(s, c.exclusions);
    if excluded.Some? {
      return Verdict(false, Excluded(excluded.value.fullMatch, None));
    }
    if |c.restrictive| > 0 {
      var matchesRestriction := MatchesRestriction(s, c.restrictive);
      if !matchesRestriction {
        return Verdict(false, NoRestrictionMatched(FullMatches(c.restrictive)));
      }
    }
    return Verdict(true, MeetsAll);
  }

  /** The `for (const exclusion of constraints.exclusions)` loop: the first exclusion whose checks fire. */
  method CheckExclusions(s: Service, es: seq<Entry>) returns (excluded: Option<Entry>)
    ensures excluded == FirstRejecting(s, es)
  {
    var name := LowerOr(s.displayName);
    var category := LowerOr(s.serviceCategory);
    var j := 0;
    while j < |es|
      invariant 0 <= j <= |es|
      invariant FirstRejecting(s, es[j..]) == FirstRejecting(s, es)
    {
      var exclusion := es[j];
      var x := ToLower(exclusion.value);
      if Contains(x, "storage") && Contains(category, "storage") {
        return Some(exclusion);
      }
      if (Contains(x, "network") || Contains(x, "networking")) && Contains(category, "network") {
        return Some(exclusion);
      }
      if Contains(x, "premium") && Contains(name, "premium") {
        return Some(exclusion);
      }
      if Contains(x, "enterprise") && Contains(name, "enterprise") {
        return Some(exclusion);
      }
      if Contains(name, x) || Contains(category, x) {
        return Some(exclusion);
      }
      DropOne(es, j);
      j := j + 1;
    }
    return None;
  }

  /** The `for (const restriction of constraints.restrictive)` loop: does any restriction admit the service? */
  method MatchesRestriction(s: Service, rs: seq<Entry>) returns (matchesRestriction: bool)
    ensures matchesRestriction <==> exists k :: 0 <= k < |rs| && RestrictionAdmits(s, rs[k])
  {
    matchesRestriction := false;
    var k := 0;
    while k < |rs|
      invariant 0 <= k <= |rs|
      invariant forall i :: 0 <= i < k ==> !RestrictionAdmits(s, rs[i])
    {
      if RestrictionAdmits(s, rs[k]) {
        matchesRestriction := true;
        break;
      }
      k := k + 1;
    }
  }

  // ---------------------------------------------------------------- what validation decides

  /**
   * A service is allowed exactly when it passes the SKU gate, no exclusion rejects it, and
   * either there are no restrictions or one of them admits it.
   */
  lemma ValidateAllowed(s: Service, c: UserConstraints)
    ensures Validate(s, c).allowed <==>
      SkuPasses(s, c)
      && (forall j :: 0 <= j < |c.exclusions| ==> !ExclusionRejects(s, c.exclusions[j]))
      && (|c.restrictive| == 0 || exists k :: 0 <= k < |c.restrictive| && RestrictionAdmits(s, c.restrictive[k]))
  {
    SkuPassesIff(s, c);
    var r := FirstRejecting(s, c.exclusions);
    if r.Some? {
      var j :| 0 <= j < |c.exclusions| && c.exclusions[j] == r.value;
    }
  }

  /** The checks run in order: a service outside the SKU allow-list is rejected for that, whatever the rest says. */
  lemma SkuGateFirst(s: Service, c: UserConstraints)
    requires !SkuPasses(s, c)
    ensures Validate(s, c) == Verdict(false, NotInAllowedSkus(s.partNumber, AllowedSkus(c.specificSkus)))
  {
    SkuPassesIff(s, c);
  }

  /** Exclusions come before restrictions: an excluded service is rejected by its first rejecting exclusion even if a restriction admits it. */
  lemma {:induction false} ExclusionBeforeRestriction(s: Service, c: UserConstraints, j: nat)
    requires SkuPasses(s, c) && j < |c.exclusions| && ExclusionRejects(s, c.exclusions[j])
    requires forall i :: 0 <= i < j ==> !ExclusionRejects(s, c.exclusions[i])
    ensures Validate(s, c) == Verdict(false, Excluded(c.exclusions[j].fullMatch, None))
  {
    SkuPassesIff(s, c);
    FirstRejectingAt(s, c.exclusions, j);
  }

  lemma {:induction false} FirstRejectingAt(s: Service, es: seq<Entry>, j: nat)
    requires j < |es| && ExclusionRejects(s, es[j]) && forall i :: 0 <= i < j ==> !ExclusionRejects(s, es[i])
    ensures FirstRejecting(s, es) == Some(es[j])
    decreases j
  {
    if j > 0 {
      assert es[1..][j - 1] == es[j];
      assert forall i :: 0 <= i < j - 1 ==> es[1..][i] == es[i + 1];
      FirstRejectingAt(s, es[1..], j - 1);
    }
  }

  /** An exclusion that mentions storage rejects every storage service; one that mentions network rejects every networking service. */
  lemma ExclusionByCategory(s: Service, e: Entry)
    requires (Contains(ToLower(e.value), "storage") && Contains(LowerOr(s.serviceCategory), "storage"))
      || (Contains(ToLower(e.value), "network") && Contains(LowerOr(s.serviceCategory), "network"))
    ensures ExclusionRejects(s, e)
  {
  }

  /** A phrase that contains `networking` contains `network`, so the `networking` test adds nothing. */
  lemma NetworkingMentionsNetwork(x: string)
    requires Contains(x, "networking")
    ensures Contains(x, "network")
  {
    var i :| 0 <= i <= |x| && StartsAt(x, i, "networking");
    assert x[i..i + 7] == x[i..i + 10][..7];
    assert StartsAt(x, i, "network");
  }

  /**
   * A restriction that names a category keyword matches by category alone: two services with
   * the same category are admitted alike, whatever their names and part numbers.
   */
  lemma CategoryRestrictionIgnoresName(s: Service, t: Service, r: Entry)
    requires ContainsAny(ToLower(r.value), CategoryKeywords)
    requires LowerOr(s.serviceCategory) == LowerOr(t.serviceCategory)
    ensures RestrictionAdmits(s, r) <==> RestrictionAdmits(t, r)
  {
  }

  /** A restriction without a category keyword admits a service exactly when the whole phrase occurs in its name, category or part number. */
  lemma PhraseRestriction(s: Service, r: Entry)
    requires !ContainsAny(ToLower(r.value), CategoryKeywords)
    ensures RestrictionAdmits(s, r) <==>
      Contains(LowerOr(s.displayName), ToLower(r.value)) || Contains(LowerOr(s.serviceCategory), ToLower(r.value))
      || Contains(LowerOr(s.partNumber), ToLower(r.value))
  {
  }

  /**
   * `do not include X` yields the instruction `include`, so, however X reads, the exclusion
   * rejects only services whose name or category mentions `include` (none of the category or
   * name words applies to it).
   */
  lemma DoNotIncludeRejects(s: Service, fullMatch: string)
    ensures ExclusionRejects(s, Entry(fullMatch, "include")) <==>
      Contains(LowerOr(s.displayName), "include") || Contains(LowerOr(s.serviceCategory), "include")
  {
    var x := ToLower("include");
    assert x == "include" by {
      assert forall i :: 0 <= i < |x| ==> x[i] == "include"[i];
    }
    forall w | w in ["storage", "network", "networking", "premium", "enterprise"]
      ensures !Contains(x, w)
    {
      NotInShorter(x, w);
    }
  }

  /** A string contains no other string at least as long as itself. */
  lemma NotInShorter(x: string, w: string)
    requires |w| >= |x| && w != x
    ensures !Contains(x, w)
  {
    forall i | 0 <= i <= |x|
      ensures !StartsAt(x, i, w)
    {
      if i + |w| <= |x| {
        assert x[i..i + |w|] == x;
      }
    }
  }
}
