/**
 * The `ConstraintTester` written for one customer prompt: it extracts like the standalone
 * tester, with two more restrictive patterns that capture a whole "base oracle database
 * service … byol" or "oracle base database … byol" phrase; it checks restrictions first
 * (a base database service with BYOL, BYOL, or the database category) and then the
 * "app server" exclusion, and applies no SKU gate.
 */
module SpecificTester {
  import opened Wrappers
  import opened Text
  import opened Lists
  import opened Scanner
  import opened TesterExtraction
  import StandaloneTester

  /** `base\s+oracle\s+database\s+service.*?byol` and `oracle\s+base\s+database.*?byol`: no capture group. */
  const PhrasePatterns: seq<Pattern> := [
    Led([Trigger("base", [(Spaces, "oracle"), (Spaces, "database"), (Spaces, "service")])], false, UpTo("byol"), StandaloneTester.Breaks),
    Led([Trigger("oracle", [(Spaces, "base"), (Spaces, "database")])], false, UpTo("byol"), StandaloneTester.Breaks)
  ]

  /** The standalone tester's seven restrictive patterns, then the two phrase patterns; scope and SKU patterns are the same. */
  const RestrictivePatterns: seq<Pattern> := StandaloneTester.RestrictivePatterns + PhrasePatterns

  const Patterns: PatternTable := PatternTable(RestrictivePatterns, StandaloneTester.ScopePatterns, StandaloneTester.SkuPatterns)

  /** `extractUserConstraints(requirementsText)`. */
  method ExtractUserConstraints(requirementsText: string) returns (c: UserConstraints)
    ensures ValidTable(Patterns) && c == Extract(Patterns, requirementsText)
  {
    c := TesterExtraction.ExtractUserConstraints(Patterns, requirementsText);
  }

  /** Appending patterns to the restrictive list appends their entries and leaves the other lists alone. */
  lemma ExtractAppend(ps: seq<Pattern>, qs: seq<Pattern>, scope: seq<Pattern>, skus: seq<Pattern>, requirementsText: string)
    requires AllValid(ps) && AllValid(qs) && AllValid(scope) && AllValid(skus)
    ensures ValidTable(PatternTable(ps + qs, scope, skus)) && ValidTable(PatternTable(ps, scope, skus))
    ensures var mine := Extract(PatternTable(ps + qs, scope, skus), requirementsText);
      var theirs := Extract(PatternTable(ps, scope, skus), requirementsText);
      mine.restrictive == theirs.restrictive + Scan(Restrictive, qs, ToLower(requirementsText))
      && mine.exclusions == theirs.exclusions && mine.specificSkus == theirs.specificSkus
  {
    ScanConcat(Restrictive, ps, qs, ToLower(requirementsText));
  }

  /**
   * The extraction differs from the standalone tester's only by the phrase entries, which
   * are appended after all the other restrictive entries.
   */
  lemma ExtractExtendsStandalone(requirementsText: string)
    ensures ValidTable(Patterns) && ValidTable(StandaloneTester.Patterns)
    ensures var mine := Extract(Patterns, requirementsText);
      var theirs := Extract(StandaloneTester.Patterns, requirementsText);
      mine.restrictive == theirs.restrictive + Scan(Restrictive, PhrasePatterns, ToLower(requirementsText))
      && mine.exclusions == theirs.exclusions && mine.specificSkus == theirs.specificSkus
  {
    assert ValidTable(StandaloneTester.Patterns);
    assert AllValid(PhrasePatterns) by {
      assert PhrasePatterns[0].triggers[0].first == "base";
      assert PhrasePatterns[1].triggers[0].first == "oracle";
    }
    ExtractAppend(StandaloneTester.RestrictivePatterns, PhrasePatterns, StandaloneTester.ScopePatterns, StandaloneTester.SkuPatterns, requirementsText);
  }

  /** A phrase match has no group, so its instruction is the whole phrase, which ends with `byol`. */
  lemma PhraseInstruction(text: string, k: nat, i: nat, m: Match)
    requires k < 2 && i <= |text| && MatchAt(PhrasePatterns[k], text, i) == Some(m)
    ensures var e := EntryOf(Restrictive, text, m);
      e.value == e.fullMatch && |e.value| >= 4 && e.value[|e.value| - 4..] == "byol"
  {
    WholeIsInstruction(Restrictive, PhrasePatterns[k], text, i, m);
    var v := EntryOf(Restrictive, text, m).value;
    assert v[|v| - 4..] == text[m.end - 4..m.end];
  }

  // ---------------------------------------------------------------- validation

  /** One restriction admits the service (lines 96-114). */
  predicate RestrictionAdmits(s: Service, r: Entry) {
    var x := ToLower(r.value);
    var name := LowerOr(s.displayName);
    if Contains(x, "base oracle database service") || Contains(x, "base database service") then
      Contains(name, "base database service") && Contains(name, "byol")
    else if Contains(x, "byol") then
      Contains(name, "byol") || s.skuType == Some("DATABASE_BYOL")
    else
      Contains(x, "database") && Contains(LowerOr(s.serviceCategory), "database")
  }

  /** One exclusion rejects the service (lines 129-134). */
  predicate ExclusionRejects(s: Service, e: Entry) {
    Contains(ToLower(e.value), "app server") && Contains(LowerOr(s.displayName), "application")
  }

  /** The first exclusion that rejects the service. */
  function FirstRejecting(s: Service, es: seq<Entry>): (r: Option<Entry>)
    ensures r.Some? ==> r.value in es && ExclusionRejects(s, r.value)
    ensures r.None? ==> forall j :: 0 <= j < |es| ==> !ExclusionRejects(s, es[j])
  {
    if es == [] then None
    else if ExclusionRejects(s, es[0]) then Some(es[0])
    else FirstRejecting(s, es[1..])
  }

  /** What `validateServiceAgainstConstraints` returns. */
  function Validate(s: Service, c: UserConstraints): Verdict {
    if |c.restrictive| > 0 && !(exists k :: 0 <= k < |c.restrictive| && RestrictionAdmits(s, c.restrictive[k])) then
      Verdict(false, NoRestrictionMatched(FullMatches(c.restrictive)))
    else
      var excluded := FirstRejecting(s, c.exclusions);
      if excluded.Some? then Verdict(false, Excluded(excluded.value.fullMatch, None))
      else Verdict(true, MeetsAll)
  }

  /** `validateServiceAgainstConstraints(service, constraints)`. */
  method ValidateServiceAgainstConstraints(s: Service, c: UserConstraints) returns (v: Verdict)
    ensures v == Validate(s, c)
  {
    if |c.restrictive| > 0 {
      var matchesRestriction := MatchesRestriction(s, c.restrictive);
      if !matchesRestriction {
        return Verdict(false, NoRestrictionMatched(FullMatches(c.restrictive)));
      }
    }
    var excluded := CheckExclusions(s, c.exclusions);
    if excluded.Some? {
      return Verdict(false, Excluded(excluded.value.fullMatch, None));
    }
    return Verdict(true, MeetsAll);
  }

  /** The `for (const exclusion of constraints.exclusions)` loop: the first exclusion that fires. */
  method CheckExclusions(s: Service, es: seq<Entry>) returns (excluded: Option<Entry>)
    ensures excluded == FirstRejecting(s, es)
  {
    var name := LowerOr(s.displayName);
    var j := 0;
    while j < |es|
      invariant 0 <= j <= |es|
      invariant FirstRejecting(s, es[j..]) == FirstRejecting(s, es)
    {
      var exclusion := es[j];
      if Contains(ToLower(exclusion.value), "app server") && Contains(name, "application") {
        return Some(exclusion);
      }
      DropOne(es, j);
      j := j + 1;
    }
    return None;
  }

  /** The `for (const restriction of constraints.restrictive)` loop: does any restriction admit the service? */
  method MatchesRestriction(s: Service, rs: seq<Entry>) returns (matchesRestriction: bool)
    ensures matchesRestriction <==> exists k :: 0 <= k < |rs| && RestrictionAdmits(s, rs[k])
  {
    var name := LowerOr(s.displayName);
    var category := LowerOr(s.serviceCategory);
    matchesRestriction := false;
    var k := 0;
    while k < |rs|
      invariant 0 <= k <= |rs|
      invariant forall i :: 0 <= i < k ==> !RestrictionAdmits(s, rs[i])
    {
      var x := ToLower(rs[k].value);
      if Contains(x, "base oracle database service") || Contains(x, "base database service") {
        if Contains(name, "base database service") && Contains(name, "byol") {
          matchesRestriction := true;
          break;
        }
      } else if Contains(x, "byol") {
        if Contains(name, "byol") || s.skuType == Some("DATABASE_BYOL") {
          matchesRestriction := true;
          break;
        }
      } else if Contains(x, "database") && Contains(category, "database") {
        matchesRestriction := true;
        break;
      }
      k := k + 1;
    }
  }

  // ---------------------------------------------------------------- what validation decides

  /** A service is allowed exactly when some restriction admits it (or there is none) and no exclusion rejects it. */
  lemma ValidateAllowed(s: Service, c: UserConstraints)
    ensures Validate(s, c).allowed <==>
      (|c.restrictive| == 0 || exists k :: 0 <= k < |c.restrictive| && RestrictionAdmits(s, c.restrictive[k]))
      && forall j :: 0 <= j < |c.exclusions| ==> !ExclusionRejects(s, c.exclusions[j])
  {
    var r := FirstRejecting(s, c.exclusions);
    if r.Some? {
      var j :| 0 <= j < |c.exclusions| && c.exclusions[j] == r.value;
    }
  }

  /** No SKU gate: the extracted SKUs never change the verdict. */
  lemma SkusIgnored(s: Service, c: UserConstraints, skus: seq<Entry>)
    ensures Validate(s, c) == Validate(s, c.(specificSkus := skus))
  {
  }

  /** Restrictions come first: a service no restriction admits is rejected for that, even when an exclusion would also reject it. */
  lemma RestrictionsFirst(s: Service, c: UserConstraints)
    requires |c.restrictive| > 0 && forall k :: 0 <= k < |c.restrictive| ==> !RestrictionAdmits(s, c.restrictive[k])
    ensures Validate(s, c) == Verdict(false, NoRestrictionMatched(FullMatches(c.restrictive)))
  {
  }

  /**
   * A restriction naming the base database service admits only services whose name has both
   * "base database service" and "byol"; neither a database category nor a BYOL SKU type is
   * enough.
   */
  lemma BaseDatabaseNeedsByolName(s: Service, r: Entry)
    requires Contains(ToLower(r.value), "base database service")
    ensures RestrictionAdmits(s, r) <==>
      Contains(LowerOr(s.displayName), "base database service") && Contains(LowerOr(s.displayName), "byol")
  {
  }

  /**
   * The SKU type is compared as written, with no lowercasing: a BYOL restriction admits a
   * service without "byol" in its name only when the SKU type is exactly `DATABASE_BYOL`.
   */
  lemma ByolSkuTypeExact(s: Service, r: Entry)
    requires Contains(ToLower(r.value), "byol") && !Contains(LowerOr(s.displayName), "byol")
    requires !Contains(ToLower(r.value), "base oracle database service") && !Contains(ToLower(r.value), "base database service")
    ensures RestrictionAdmits(s, r) <==> s.skuType == Some("DATABASE_BYOL")
  {
  }

  /** The lowercase form of a text that ends with `byol` still ends with it. */
  lemma LowerEndsWithByol(v: string)
    requires |v| >= 4 && v[|v| - 4..] == "byol"
    ensures Contains(ToLower(v), "byol")
  {
    var n := |v| - 4;
    SplitAt(v, n);
    ToLowerAppend(v[..n], v[n..]);
    LowerByol();
    EndsWithContains(ToLower(v[..n]), "byol");
  }

  /** `"byol"` is already lower case. */
  lemma LowerByol()
    ensures ToLower("byol") == "byol"
  {
    var tail := ToLower("byol");
    assert tail[0] == 'b' && tail[1] == 'y' && tail[2] == 'o' && tail[3] == 'l';
  }

  /** A text contains its own suffix. */
  lemma EndsWithContains(head: string, tail: string)
    ensures Contains(head + tail, tail)
  {
    assert (head + tail)[|head|..|head| + |tail|] == tail;
    assert StartsAt(head + tail, |head|, tail);
  }

  /** A restriction captured by a phrase pattern admits every service named as a base database service with BYOL. */
  lemma PhraseAdmitsByolBaseService(text: string, k: nat, i: nat, m: Match, s: Service)
    requires k < 2 && i <= |text| && MatchAt(PhrasePatterns[k], text, i) == Some(m)
    requires Contains(LowerOr(s.displayName), "base database service") && Contains(LowerOr(s.displayName), "byol")
    ensures RestrictionAdmits(s, EntryOf(Restrictive, text, m))
  {
    PhraseInstruction(text, k, i, m);
    LowerEndsWithByol(EntryOf(Restrictive, text, m).value);
  }

  /** An "app server" exclusion rejects exactly the services whose name mentions "application". */
  lemma AppServerExclusion(s: Service, c: UserConstraints, j: nat)
    requires j < |c.exclusions| && Contains(ToLower(c.exclusions[j].value), "app server")
    requires Validate(s, c).allowed
    ensures !Contains(LowerOr(s.displayName), "application")
  {
    ValidateAllowed(s, c);
  }
}
