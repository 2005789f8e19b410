/**
 * The redesigned constraint validator: requirement text is lowercased and scanned for
 * restrictive triggers ("only", "just", "specifically", "exclusively") and exclusion triggers
 * ("no", "don't", "exclude", "avoid", "without"); each captured clause is mapped to Oracle
 * terms; preferences, a user count and a licensing preference are read off; validation rules
 * are generated; and services are allowed or rejected against those rules.
 */
module ConstraintValidator {
  import opened Wrappers
  import opened Text
  import opened Lists
  import opened Scanner
  import opened Catalog

  /** The Oracle terminology table, in declaration order: a customer term and its Oracle variants. */
  const TerminologyMap: seq<(string, seq<string>)> := [
    ("base database", ["base database service", "database service", "oracle database"]),
    ("database", ["database", "db"]),
    ("autonomous", ["autonomous database", "autonomous", "adb"]),
    ("exadata", ["exadata database service", "exadata"]),
    ("mysql", ["mysql database service", "mysql"]),
    ("app server", ["compute", "server", "application server", "instance", "vm"]),
    ("server", ["compute", "server", "instance", "vm"]),
    ("compute", ["compute", "server", "instance", "vm"]),
    ("storage", ["storage", "block storage", "object storage", "file storage"]),
    ("block storage", ["block storage", "block volume"]),
    ("object storage", ["object storage"]),
    ("load balancer", ["load balancer", "lb"]),
    ("network", ["networking", "network", "vcn"]),
    ("byol", ["byol", "bring your own license"]),
    ("license included", ["license included", "li"])
  ]

  /** A business-preference mapping `{ tier, optimize }`. */
  datatype Preference = Preference(tier: string, optimize: string)

  const BusinessPreferenceMap: seq<(string, Preference)> := [
    ("budget-conscious", Preference("standard", "cost")),
    ("cost-effective", Preference("standard", "cost")),
    ("basic", Preference("standard", "cost")),
    ("standard", Preference("standard", "balanced")),
    ("high-performance", Preference("enterprise", "performance")),
    ("enterprise", Preference("enterprise", "performance")),
    ("premium", Preference("enterprise", "performance"))
  ]

  function Word(w: string): Trigger { Trigger(w, []) }

  /** `only\s+(consider\s+)?…`, `just\s+(want\s+|need\s+)?…`, `specifically\s+…`, `exclusively\s+…`. */
  const RestrictivePatterns: seq<Pattern> := [
    Led([Word("only")], false, Clause(["consider"]), Delims),
    Led([Word("just")], false, Clause(["want", "need"]), Delims),
    Led([Word("specifically")], false, Clause([]), Delims),
    Led([Word("exclusively")], false, Clause([]), Delims)
  ]

  /**
   * `no\s+…`, `(don'?t|dont)\s+(want\s+|need\s+|use\s+)?…`, `exclude\s+…`, `avoid\s+…`,
   * `without\s+…`; the alternation `don'?t|dont` is the two words `don't` and `dont`.
   */
  const ExclusionPatterns: seq<Pattern> := [
    Led([Word("no")], false, Clause([]), Delims),
    Led([Word("don't"), Word("dont")], true, Clause(["want", "need", "use"]), Delims),
    Led([Word("exclude")], false, Clause([]), Delims),
    Led([Word("avoid")], false, Clause([]), Delims),
    Led([Word("without")], false, Clause([]), Delims)
  ]

  predicate AllValid(ps: seq<Pattern>) {
    forall k :: 0 <= k < |ps| ==> Valid(ps[k])
  }

  /** One extracted constraint: the whole match, the trimmed clause and its Oracle terms. */
  datatype Constraint = Constraint(originalText: string, customerLanguage: string, oracleTerms: seq<string>)

  /** A stored business preference: a mapping, a user count or a licensing label. */
  datatype PrefValue = Mapping(pref: Preference) | Count(n: JsNumber) | Label(s: string)

  /** The three rule kinds `generateValidationRules` emits. */
  datatype Rule =
    | MustMatchRestrictive(constraints: seq<Constraint>)
    | MustNotMatchExclusions(constraints: seq<Constraint>)
    | BusinessPreferences(preferences: map<string, PrefValue>)

  datatype RuleResult = RuleResult(passed: bool, score: real)

  datatype ValidationResult = ValidationResult(allowed: bool, score: real)

  /** The constraints object the extractors fill in place. */
  class CustomerConstraints {
    var restrictive: seq<Constraint>
    var exclusions: seq<Constraint>
    var businessPreferences: map<string, PrefValue>
    var oracleServices: seq<string>
    var validationRules: seq<Rule>

    constructor()
      ensures restrictive == [] && exclusions == [] && businessPreferences == map[]
      ensures oracleServices == [] && validationRules == []
    {
      restrictive := [];
      exclusions := [];
      businessPreferences := map[];
      oracleServices := [];
      validationRules := [];
    }
  }

  // ---------------------------------------------------------------- terminology

  /** The variants of every table entry whose key occurs in `text`, in table order. */
  function MatchedVariants(text: string, table: seq<(string, seq<string>)>): seq<string> {
    if table == [] then []
    else (if Contains(text, table[0].0) then table[0].1 else []) + MatchedVariants(text, table[1..])
  }

  lemma {:induction false} MatchedVariantsSpec(text: string, table: seq<(string, seq<string>)>, t: string)
    ensures t in MatchedVariants(text, table)
      <==> exists k :: 0 <= k < |table| && Contains(text, table[k].0) && t in table[k].1
  {
    if table != [] {
      MatchedVariantsSpec(text, table[1..], t);
      if t in MatchedVariants(text, table[1..]) {
        var k :| 0 <= k < |table[1..]| && Contains(text, table[1..][k].0) && t in table[1..][k].1;
        assert table[k + 1] == table[1..][k];
      }
      if exists k :: 0 <= k < |table| && Contains(text, table[k].0) && t in table[k].1 {
        var k :| 0 <= k < |table| && Contains(text, table[k].0) && t in table[k].1;
        if k > 0 {
          assert table[1..][k - 1] == table[k];
        }
      }
    }
  }

  /**
   * `mapToOracleTerminology` over the terminology table `table` (the validator's
   * `oracleTerminologyMap`, which is `TerminologyMap`): the variants of the table keys found in
   * the lowercased text, each once.
   */
  function MapToOracleTerminology(table: seq<(string, seq<string>)>, customerText: string): (terms: seq<string>)
    ensures NoDuplicates(terms)
  {
    Dedup(MatchedVariants(ToLower(customerText), table))
  }

  /** A term is returned exactly when it is a variant of some table key that occurs in the lowercased text. */
  lemma MapToOracleTerminologySpec(table: seq<(string, seq<string>)>, customerText: string, t: string)
    ensures t in MapToOracleTerminology(table, customerText)
      <==> (exists k :: 0 <= k < |table| && Contains(ToLower(customerText), table[k].0) && t in table[k].1)
  {
    MatchedVariantsSpec(ToLower(customerText), table, t);
  }

  // ---------------------------------------------------------------- clause extraction

  /** `(match[hi] || match[lo]).trim()`; the clause group always takes part, so the fallback `""` is never used. */
  function ClauseText(text: string, m: Match, hi: nat, lo: nat): string {
    var g := OrElse(Captured(text, m, hi), Captured(text, m, lo));
    if g.Some? then Trim(g.value) else ""
  }

  /** The constraint one match produces. */
  function EntryOf(table: seq<(string, seq<string>)>, text: string, m: Match, hi: nat, lo: nat): Constraint
    requires m.start <= m.end <= |text|
  {
    var language := ClauseText(text, m, hi, lo);
    Constraint(text[m.start..m.end], language, MapToOracleTerminology(table, language))
  }

  /** The entries the `exec` loop adds for pattern `p` once `lastIndex` is `from`. */
  function EntriesFrom(table: seq<(string, seq<string>)>, p: Pattern, text: string, from: nat, hi: nat, lo: nat)
    : seq<Constraint>
    requires Valid(p) && from <= |text|
    decreases |text| - from
  {
    var m := Exec(p, text, from);
    if m.None? then []
    else [EntryOf(table, text, m.value, hi, lo)] + EntriesFrom(table, p, text, m.value.end, hi, lo)
  }

  /** The entries every pattern of `ps` adds, pattern by pattern, each pattern scanned over the whole text. */
  function Entries(table: seq<(string, seq<string>)>, ps: seq<Pattern>, text: string, hi: nat, lo: nat): seq<Constraint>
    requires AllValid(ps)
  {
    if ps == [] then []
    else Entries(table, ps[..|ps| - 1], text, hi, lo) + EntriesFrom(table, ps[|ps| - 1], text, 0, hi, lo)
  }

  /** The `while ((match = pattern.exec(text)) !== null)` loop: one entry per match, in order. */
  method ScanPattern(table: seq<(string, seq<string>)>, p: Pattern, text: string, hi: nat, lo: nat)
    returns (found: seq<Constraint>)
    requires Valid(p)
    ensures found == EntriesFrom(table, p, text, 0, hi, lo)
  {
    found := [];
    var lastIndex := 0;
    while true
      invariant lastIndex <= |text|
      invariant found + EntriesFrom(table, p, text, lastIndex, hi, lo) == EntriesFrom(table, p, text, 0, hi, lo)
      decreases |text| - lastIndex
    {
      var m := Exec(p, text, lastIndex);
      if m.None? {
        EntriesFromUnfold(table, p, text, lastIndex, hi, lo);
        break;
      }
      ScanStep(table, p, text, lastIndex, hi, lo, found);
      found := found + [EntryOf(table, text, m.value, hi, lo)];
      lastIndex := m.value.end;
    }
  }

  /** One turn of the `exec` loop: the entry of the leftmost match, then the entries from its end. */
  lemma EntriesFromUnfold(table: seq<(string, seq<string>)>, p: Pattern, text: string, from: nat, hi: nat, lo: nat)
    requires Valid(p) && from <= |text|
    ensures Exec(p, text, from).None? ==> EntriesFrom(table, p, text, from, hi, lo) == []
    ensures Exec(p, text, from).Some? ==>
      (EntriesFrom(table, p, text, from, hi, lo)
       == [EntryOf(table, text, Exec(p, text, from).value, hi, lo)] + EntriesFrom(table, p, text, Exec(p, text, from).value.end, hi, lo))
  {
  }

  /** The loop body after a match: appending the match's entry keeps the invariant. */
  lemma ScanStep(table: seq<(string, seq<string>)>, p: Pattern, text: string, from: nat, hi: nat, lo: nat, found: seq<Constraint>)
    requires Valid(p) && from <= |text| && Exec(p, text, from).Some?
    ensures var m := Exec(p, text, from).value;
      (found + [EntryOf(table, text, m, hi, lo)]) + EntriesFrom(table, p, text, m.end, hi, lo)
      == found + EntriesFrom(table, p, text, from, hi, lo)
  {
    var m := Exec(p, text, from).value;
    EntriesFromUnfold(table, p, text, from, hi, lo);
    AppendAssoc(found, [EntryOf(table, text, m, hi, lo)], EntriesFrom(table, p, text, m.end, hi, lo));
  }

  /** The `for (const pattern of patterns)` loop of both extractors: every pattern is scanned over the whole text. */
  method ScanConstraints(table: seq<(string, seq<string>)>, ps: seq<Pattern>, text: string, hi: nat, lo: nat)
    returns (found: seq<Constraint>)
    requires AllValid(ps)
    ensures found == Entries(table, ps, text, hi, lo)
  {
    found := [];
    var k := 0;
    while k < |ps|
      invariant 0 <= k <= |ps|
      invariant found == Entries(table, ps[..k], text, hi, lo)
    {
      var more := ScanPattern(table, ps[k], text, hi, lo);
      assert ps[..k + 1][..k] == ps[..k];
      found := found + more;
      k := k + 1;
    }
    assert ps[..|ps|] == ps;
  }

  /**
   * The extractor reads `match[hi] || match[lo]`, and that is the clause: either `hi` is the
   * last group, or `hi` is past the last group (so `match[hi]` is `undefined`) and `lo` is it.
   */
  predicate ReadsClause(p: Pattern, hi: nat, lo: nat) {
    var g := GroupCount(p);
    hi == g || (hi > g && lo == g)
  }

  /** Both extractors read the clause group of each of their patterns. */
  lemma ExtractorsReadClauses()
    ensures AllValid(RestrictivePatterns) && AllValid(ExclusionPatterns)
    ensures forall k :: 0 <= k < |RestrictivePatterns| ==>
      RestrictivePatterns[k].Led? && IsClauseTail(RestrictivePatterns[k].tail)
      && RestrictivePatterns[k].delims == Delims && ReadsClause(RestrictivePatterns[k], 2, 1)
    ensures forall k :: 0 <= k < |ExclusionPatterns| ==>
      ExclusionPatterns[k].Led? && IsClauseTail(ExclusionPatterns[k].tail)
      && ExclusionPatterns[k].delims == Delims && ReadsClause(ExclusionPatterns[k], 3, 1)
  {
  }

  /**
   * A match of a clause pattern yields, through `match[hi] || match[lo]`, the trimmed clause
   * it captured: the text after the trigger (and optional verb) up to the first delimiter or
   * the end of the text, where the match ends.
   */
  lemma ClauseTextOfMatch(p: Pattern, text: string, i: nat, hi: nat, lo: nat)
    requires Valid(p) && p.Led? && IsClauseTail(p.tail) && ReadsClause(p, hi, lo)
    requires i <= |text| && MatchAt(p, text, i).Some?
    ensures var m := MatchAt(p, text, i).value;
      exists c :: IsClause(text, c, p.delims) && i < c.lo && c.hi == m.end
        && ClauseText(text, m, hi, lo) == Trim(text[c.lo..c.hi])
  {
    var m := MatchAt(p, text, i).value;
    ClauseOfMatch(text, i, p.triggers, p.triggerGroup, p.tail, p.delims);
    var c := m.groups[|m.groups| - 1].value;
    assert Captured(text, m, |m.groups|) == Some(text[c.lo..c.hi]);
    assert text[c.lo..c.hi] != [];
    if hi != |m.groups| {
      assert Captured(text, m, hi).None?;
    }
  }

  /**
   * Entry `e` holds a whole match starting at or after `from`, and as its customer language the
   * trimmed clause that ends the match, with the Oracle terms looked up from that language.
   */
  ghost predicate IsClauseEntry(table: seq<(string, seq<string>)>, text: string, from: nat, delims: set<char>, e: Constraint) {
    exists s: nat, c: Span {:trigger IsClause(text, c, delims), text[s..c.hi]} :: from <= s < c.lo && IsClause(text, c, delims)
      && e.originalText == text[s..c.hi]
      && e.customerLanguage == Trim(text[c.lo..c.hi])
      && e.oracleTerms == MapToOracleTerminology(table, e.customerLanguage)
  }

  lemma ClauseEntryFrom(table: seq<(string, seq<string>)>, text: string, from: nat, later: nat, delims: set<char>, e: Constraint)
    requires from <= later && IsClauseEntry(table, text, later, delims, e)
    ensures IsClauseEntry(table, text, from, delims, e)
  {
  }

  lemma EntryOfMatch(table: seq<(string, seq<string>)>, p: Pattern, text: string, from: nat, m: Match, hi: nat, lo: nat)
    requires Valid(p) && p.Led? && IsClauseTail(p.tail) && ReadsClause(p, hi, lo)
    requires from <= |text| && Exec(p, text, from) == Some(m)
    ensures m.end <= |text| && IsClauseEntry(table, text, from, p.delims, EntryOf(table, text, m, hi, lo))
  {
    ExecSpec(p, text, from);
    ClauseTextOfMatch(p, text, m.start, hi, lo);
    var c :| IsClause(text, c, p.delims) && m.start < c.lo && c.hi == m.end
      && ClauseText(text, m, hi, lo) == Trim(text[c.lo..c.hi]);
    var s: nat := m.start;
    assert from <= s < c.lo;
  }

  ghost predicate AllClauseEntries(table: seq<(string, seq<string>)>, text: string, from: nat, delims: set<char>, es: seq<Constraint>) {
    forall j :: 0 <= j < |es| ==> IsClauseEntry(table, text, from, delims, es[j])
  }

  lemma ConsClauseEntries(table: seq<(string, seq<string>)>, text: string, from: nat, later: nat, delims: set<char>,
                          e: Constraint, rest: seq<Constraint>)
    requires from <= later
    requires IsClauseEntry(table, text, from, delims, e) && AllClauseEntries(table, text, later, delims, rest)
    ensures AllClauseEntries(table, text, from, delims, [e] + rest)
  {
    var es := [e] + rest;
    forall j | 0 <= j < |es|
      ensures IsClauseEntry(table, text, from, delims, es[j])
    {
      if j > 0 {
        ClauseEntryFrom(table, text, from, later, delims, rest[j - 1]);
      }
    }
  }

  /** Every entry the `exec` loop adds for a clause pattern, with `lastIndex` starting at `from`, is a clause entry. */
  lemma {:induction false} EntriesAreClauses(table: seq<(string, seq<string>)>, p: Pattern, text: string, from: nat, hi: nat, lo: nat)
    requires Valid(p) && p.Led? && IsClauseTail(p.tail) && ReadsClause(p, hi, lo) && from <= |text|
    ensures AllClauseEntries(table, text, from, p.delims, EntriesFrom(table, p, text, from, hi, lo))
    decreases |text| - from
  {
    var m := Exec(p, text, from);
    if m.Some? {
      EntryOfMatch(table, p, text, from, m.value, hi, lo);
      EntriesAreClauses(table, p, text, m.value.end, hi, lo);
      ConsClauseEntries(table, text, from, m.value.end, p.delims, EntryOf(table, text, m.value, hi, lo),
        EntriesFrom(table, p, text, m.value.end, hi, lo));
    }
  }

  // ---------------------------------------------------------------- business preferences

  /** The entries of a preference table whose phrase occurs in `text`, keyed by phrase (a later entry wins). */
  function PhrasePrefs(table: seq<(string, Preference)>, text: string): map<string, PrefValue> {
    if table == [] then map[]
    else
      var last := table[|table| - 1];
      var before := PhrasePrefs(table[..|table| - 1], text);
      if Contains(text, last.0) then before[last.0 := Mapping(last.1)] else before
  }

  /** A phrase is recorded exactly when it occurs in the text, with the mapping of a table entry for it. */
  lemma {:induction false} PhrasePrefsSpec(table: seq<(string, Preference)>, text: string)
    ensures var r := PhrasePrefs(table, text);
      forall k :: k in r <==> exists j :: 0 <= j < |table| && table[j].0 == k && Contains(text, k)
    ensures var r := PhrasePrefs(table, text);
      forall k :: k in r ==> exists j :: 0 <= j < |table| && table[j].0 == k && r[k] == Mapping(table[j].1)
  {
    if table != [] {
      var front := table[..|table| - 1];
      PhrasePrefsSpec(front, text);
      assert forall j :: 0 <= j < |front| ==> front[j] == table[j];
    }
  }

  /** The licensing label the text asks for, if any. */
  function LicensingPreference(text: string): (r: Option<string>)
    ensures r == Some("byol") <==> Contains(text, "existing") && (Contains(text, "license") || Contains(text, "oracle"))
    ensures r == Some("license_included") <==> (
      !(Contains(text, "existing") && (Contains(text, "license") || Contains(text, "oracle")))
      && (Contains(text, "no license") || Contains(text, "new license")))
    ensures r.None? <==> (
      !(Contains(text, "existing") && (Contains(text, "license") || Contains(text, "oracle")))
      && !(Contains(text, "no license") || Contains(text, "new license")))
  {
    if Contains(text, "existing") && (Contains(text, "license") || Contains(text, "oracle")) then Some("byol")
    else if Contains(text, "no license") || Contains(text, "new license") then Some("license_included")
    else None
  }

  /**
   * What `extractBusinessPreferences` records for a (lowercased) text, given the validator's
   * preference table `table` (which is `BusinessPreferenceMap`): every preference phrase found,
   * a user count when the count pattern matches (its captured group holds no digits, so
   * `parseInt` gives `NaN`), and a licensing label.
   */
  function ExtractedPreferences(table: seq<(string, Preference)>, text: string): (r: map<string, PrefValue>)
    ensures UserCountMatch(text) ==> "userCount" in r && r["userCount"] == Count(NaN)
    ensures LicensingPreference(text).Some? ==> "licensing" in r && r["licensing"] == Label(LicensingPreference(text).value)
  {
    var phrases := PhrasePrefs(table, text);
    var withCount := if UserCountMatch(text) then phrases["userCount" := Count(NaN)] else phrases;
    var licensing := LicensingPreference(text);
    if licensing.Some? then withCount["licensing" := Label(licensing.value)] else withCount
  }

  /** Setting a key after a merge is setting it in the map merged last. */
  lemma UpdateOfUnion<K, V>(a: map<K, V>, b: map<K, V>, k: K, v: V)
    ensures (a + b)[k := v] == a + b[k := v]
  {
  }

  /**
   * Every key recorded is a phrase found in the text, `userCount` or `licensing`; every phrase of
   * the table that occurs is recorded with its mapping unless it is spelled like one of those two keys.
   */
  lemma ExtractedPreferencesSpec(table: seq<(string, Preference)>, text: string)
    ensures var r := ExtractedPreferences(table, text);
      forall k :: k in r ==> (k == "userCount" || k == "licensing"
        || exists j :: 0 <= j < |table| && table[j].0 == k && Contains(text, k) && r[k] == Mapping(table[j].1))
    ensures var r := ExtractedPreferences(table, text);
      forall j :: 0 <= j < |table| && table[j].0 != "userCount" && table[j].0 != "licensing" ==>
        (table[j].0 in r <==> Contains(text, table[j].0))
  {
    PhrasePrefsSpec(table, text);
  }

  /** With the validator's own table no phrase is spelled `userCount`, `licensing` or `tier`: a `tier` key is never recorded. */
  lemma PreferenceKeys(text: string)
    ensures var r := ExtractedPreferences(BusinessPreferenceMap, text);
      "tier" !in r && ("userCount" in r <==> UserCountMatch(text))
      && ("licensing" in r <==> LicensingPreference(text).Some?)
  {
    PhrasePrefsSpec(BusinessPreferenceMap, text);
    forall j | 0 <= j < |BusinessPreferenceMap|
      ensures |BusinessPreferenceMap[j].0| != |"tier"| && |BusinessPreferenceMap[j].0| != |"userCount"|
        && |BusinessPreferenceMap[j].0| != |"licensing"|
    {
    }
  }

  /** The `for … of Object.entries(businessPreferenceMap)` loop. */
  method RecordPhrasePreferences(table: seq<(string, Preference)>, text: string, c: CustomerConstraints)
    modifies c`businessPreferences
    ensures c.businessPreferences == old(c.businessPreferences) + PhrasePrefs(table, text)
  {
    var k := 0;
    while k < |table|
      invariant 0 <= k <= |table|
      invariant c.businessPreferences == old(c.businessPreferences) + PhrasePrefs(table[..k], text)
    {
      assert table[..k + 1][..k] == table[..k];
      if Contains(text, table[k].0) {
        c.businessPreferences := c.businessPreferences[table[k].0 := Mapping(table[k].1)];
      }
      k := k + 1;
    }
    assert table[..|table|] == table;
  }

  // ---------------------------------------------------------------- Oracle service mentions

  /**
   * The shapes of the mention patterns: a plain word (`/exadata/gi`), or two words joined by
   * `\\s+`, which in a regular expression literal is a backslash followed by one or more `s`.
   */
  datatype MentionPattern = Literal(w: string) | Escaped(first: string, second: string)

  predicate ValidMention(mp: MentionPattern) {
    match mp
    case Literal(w) => w != []
    case Escaped(a, b) => a != [] && b != []
  }

  predicate AllValidMentions(mps: seq<MentionPattern>) {
    forall k :: 0 <= k < |mps| ==> ValidMention(mps[k])
  }

  const MentionPatterns: seq<MentionPattern> := [
    Escaped("oracle", "database"),
    Escaped("base", "database"),
    Escaped("autonomous", "database"),
    Literal("exadata"),
    Literal("mysql"),
    Literal("compute"),
    Escaped("block", "storage"),
    Escaped("object", "storage"),
    Escaped("load", "balancer")
  ]

  /**
   * Where `s+` followed by `second` ends when the `s` run starting at `k` is `t` long: the
   * greedy run gives back one `s` at a time, so `second` is tried at `k + t`, then `k + t - 1`,
   * down to `k + 1` (at least one `s` stays).
   */
  function GiveBack(text: string, k: nat, t: nat, second: string): (r: Option<nat>)
    ensures r.Some? ==> k + 1 + |second| <= r.value <= |text|
  {
    if t == 0 then None
    else if StartsAt(text, k + t, second) then Some(k + t + |second|)
    else GiveBack(text, k, t - 1, second)
  }

  /** `second` is found at the last position the run allows, or at none. */
  lemma {:induction false} GiveBackSpec(text: string, k: nat, t: nat, second: string)
    ensures var r := GiveBack(text, k, t, second);
      r.Some? ==> exists p :: (k + 1 <= p <= k + t && StartsAt(text, p, second) && r.value == p + |second|
        && forall q :: p < q <= k + t ==> !StartsAt(text, q, second))
    ensures GiveBack(text, k, t, second).None? ==> forall p :: k + 1 <= p <= k + t ==> !StartsAt(text, p, second)
  {
    if t > 0 && !StartsAt(text, k + t, second) {
      GiveBackSpec(text, k, t - 1, second);
    }
  }

  /** Where a match of `mp` that starts at `i` ends, if it matches there. */
  function MentionAt(mp: MentionPattern, text: string, i: nat): (r: Option<nat>)
    requires ValidMention(mp)
    ensures r.Some? ==> i < r.value <= |text|
  {
    match mp
    case Literal(w) => if StartsAt(text, i, w) then Some(i + |w|) else None
    case Escaped(a, b) =>
      var j := i + |a|;
      if StartsAt(text, i, a) && j < |text| && text[j] == '\\' then GiveBack(text, j + 1, CharRun(text, j + 1, 's'), b)
      else None
  }

  /**
   * A plain word matches where it occurs; two words match where the first is followed by a
   * backslash, a run of `s`, and the second word at the last place the run allows.
   */
  lemma MentionAtSpec(mp: MentionPattern, text: string, i: nat)
    requires ValidMention(mp)
    ensures var r := MentionAt(mp, text, i);
      mp.Literal? ==> (r.Some? <==> StartsAt(text, i, mp.w)) && (r.Some? ==> r.value == i + |mp.w|)
    ensures var r := MentionAt(mp, text, i);
      mp.Escaped? && r.Some? ==> i + |mp.first| < |text| && text[i + |mp.first|] == '\\'
    ensures var r := MentionAt(mp, text, i);
      mp.Escaped? && r.Some? ==> var j := i + |mp.first| + 1; var t := CharRun(text, j, 's');
        exists p :: (j + 1 <= p <= j + t && StartsAt(text, p, mp.second) && r.value == p + |mp.second|
          && forall q :: p < q <= j + t ==> !StartsAt(text, q, mp.second))
  {
    if mp.Escaped? {
      GiveBackSpec(text, i + |mp.first| + 1, CharRun(text, i + |mp.first| + 1, 's'), mp.second);
    }
  }

  /** `text.match(pattern)` for a global pattern, from position `from` on: every leftmost, non-overlapping match. */
  function Mentions(mp: MentionPattern, text: string, from: nat): (r: seq<string>)
    requires ValidMention(mp)
    decreases |text| - from
  {
    if from >= |text| then []
    else match MentionAt(mp, text, from)
      case Some(e) => [text[from..e]] + Mentions(mp, text, e)
      case None => Mentions(mp, text, from + 1)
  }

  /** A plain word is reported once per occurrence, each time spelled as the word itself; and it is reported exactly when it occurs. */
  lemma {:induction false} LiteralMentions(w: string, text: string, from: nat)
    requires w != [] && from <= |text|
    ensures var r := Mentions(Literal(w), text, from);
      (forall k :: 0 <= k < |r| ==> r[k] == w)
      && (r != [] <==> exists i :: from <= i <= |text| && StartsAt(text, i, w))
    decreases |text| - from
  {
    if from < |text| {
      var m := MentionAt(Literal(w), text, from);
      MentionAtSpec(Literal(w), text, from);
      if m.Some? {
        LiteralMentions(w, text, m.value);
      } else {
        LiteralMentions(w, text, from + 1);
        if exists i :: from <= i <= |text| && StartsAt(text, i, w) {
          var i :| from <= i <= |text| && StartsAt(text, i, w);
          assert i != from;
        }
      }
    }
  }

  /** The two-word patterns need a literal backslash: on a text without one they report nothing. */
  lemma {:induction false} EscapedMentionsNeedBackslash(a: string, b: string, text: string, from: nat)
    requires a != [] && b != [] && '\\' !in text
    ensures Mentions(Escaped(a, b), text, from) == []
    decreases |text| - from
  {
    if from < |text| {
      MentionAtSpec(Escaped(a, b), text, from);
      if MentionAt(Escaped(a, b), text, from).None? {
        EscapedMentionsNeedBackslash(a, b, text, from + 1);
      }
    }
  }

  /** The mentions every pattern of `mps` reports, pattern by pattern, lowercased. */
  function AllMentions(mps: seq<MentionPattern>, text: string): seq<string>
    requires AllValidMentions(mps)
  {
    if mps == [] then []
    else AllMentions(mps[..|mps| - 1], text) + Lowered(Mentions(mps[|mps| - 1], text, 0))
  }

  /** `match.toLowerCase()` applied to every match. */
  function Lowered(ms: seq<string>): seq<string> {
    if ms == [] then [] else [ToLower(ms[0])] + Lowered(ms[1..])
  }

  lemma {:induction false} LoweredSpec(ms: seq<string>)
    ensures |Lowered(ms)| == |ms| && forall k :: 0 <= k < |ms| ==> Lowered(ms)[k] == ToLower(ms[k])
  {
    if ms != [] {
      LoweredSpec(ms[1..]);
    }
  }

  /** On a text without a backslash only the plain words `exadata`, `mysql` and `compute` can be reported. */
  lemma {:induction false} MentionsWithoutBackslash(mps: seq<MentionPattern>, text: string)
    requires AllValidMentions(mps)
    requires '\\' !in text
    ensures forall t :: t in AllMentions(mps, text) ==> exists k :: 0 <= k < |mps| && mps[k].Literal? && t == ToLower(mps[k].w)
  {
    if mps != [] {
      var front := mps[..|mps| - 1];
      var last := mps[|mps| - 1];
      MentionsWithoutBackslash(front, text);
      assert forall k :: 0 <= k < |front| ==> front[k] == mps[k];
      var found := Mentions(last, text, 0);
      LoweredSpec(found);
      assert AllMentions(mps, text) == AllMentions(front, text) + Lowered(found);
      match last
      case Literal(w) =>
        LiteralMentions(w, text, 0);
        forall t | t in Lowered(found)
          ensures t == ToLower(w)
        {
          var i :| 0 <= i < |found| && Lowered(found)[i] == t;
        }
      case Escaped(a, b) =>
        EscapedMentionsNeedBackslash(a, b, text, 0);
    }
  }

  /** The inner `for (const match of matches)` loop: each match is stored lowercased. */
  method PushMentions(matches: seq<string>, c: CustomerConstraints)
    modifies c`oracleServices
    ensures c.oracleServices == old(c.oracleServices) + Lowered(matches)
  {
    var i := 0;
    while i < |matches|
      invariant 0 <= i <= |matches|
      invariant c.oracleServices == old(c.oracleServices) + Lowered(matches[..i])
    {
      assert matches[..i + 1] == matches[..i] + [matches[i]];
      LoweredAppend(matches[..i], [matches[i]]);
      c.oracleServices := c.oracleServices + [ToLower(matches[i])];
      i := i + 1;
    }
    assert matches[..i] == matches;
  }

  /** The `for (const pattern of oracleServicePatterns)` loop. */
  method ScanMentions(mps: seq<MentionPattern>, text: string, c: CustomerConstraints)
    requires AllValidMentions(mps)
    modifies c`oracleServices
    ensures c.oracleServices == old(c.oracleServices) + AllMentions(mps, text)
  {
    var k := 0;
    ValidMentionsPrefix(mps, 0);
    ghost var start := c.oracleServices;
    ghost var done: seq<string> := [];
    while k < |mps|
      invariant 0 <= k <= |mps| && AllValidMentions(mps[..k])
      invariant done == AllMentions(mps[..k], text)
      invariant c.oracleServices == start + done
    {
      var matches := Mentions(mps[k], text, 0);
      AllMentionsStep(mps, k, text);
      PushMentions(matches, c);
      done := done + Lowered(matches);
      k := k + 1;
    }
    assert mps[..|mps|] == mps;
  }

  lemma AllMentionsStep(mps: seq<MentionPattern>, k: nat, text: string)
    requires AllValidMentions(mps) && k < |mps|
    ensures AllValidMentions(mps[..k]) && AllValidMentions(mps[..k + 1])
    ensures AllMentions(mps[..k + 1], text) == AllMentions(mps[..k], text) + Lowered(Mentions(mps[k], text, 0))
  {
    ValidMentionsPrefix(mps, k);
    ValidMentionsPrefix(mps, k + 1);
    assert mps[..k + 1][..k] == mps[..k];
  }

  lemma ValidMentionsPrefix(mps: seq<MentionPattern>, k: nat)
    requires AllValidMentions(mps) && k <= |mps|
    ensures AllValidMentions(mps[..k])
  {
    assert forall j :: 0 <= j < k ==> mps[..k][j] == mps[j];
  }

  lemma LoweredAppend(a: seq<string>, b: seq<string>)
    ensures Lowered(a + b) == Lowered(a) + Lowered(b)
  {
    LoweredSpec(a + b);
    LoweredSpec(a);
    LoweredSpec(b);
    var l, r := Lowered(a + b), Lowered(a) + Lowered(b);
    assert forall k :: 0 <= k < |l| ==> l[k] == r[k];
  }

  // ---------------------------------------------------------------- validation rules

  /** The rules `generateValidationRules` emits, in order: one per non-empty source. */
  function ValidationRules(restrictive: seq<Constraint>, exclusions: seq<Constraint>, prefs: map<string, PrefValue>)
    : seq<Rule>
  {
    (if restrictive != [] then [MustMatchRestrictive(restrictive)] else [])
    + (if exclusions != [] then [MustNotMatchExclusions(exclusions)] else [])
    + (if prefs != map[] then [BusinessPreferences(prefs)] else [])
  }

  /**
   * A rule is emitted for each non-empty source and for no other; each carries its source
   * unchanged; and they come restrictive first, then exclusions, then preferences.
   */
  lemma ValidationRulesSpec(restrictive: seq<Constraint>, exclusions: seq<Constraint>, prefs: map<string, PrefValue>)
    ensures var r := ValidationRules(restrictive, exclusions, prefs);
      |r| <= 3
      && (MustMatchRestrictive(restrictive) in r <==> restrictive != [])
      && (MustNotMatchExclusions(exclusions) in r <==> exclusions != [])
      && (BusinessPreferences(prefs) in r <==> prefs != map[])
    ensures var r := ValidationRules(restrictive, exclusions, prefs);
      forall k :: 0 <= k < |r| ==>
        r[k] == MustMatchRestrictive(restrictive) || r[k] == MustNotMatchExclusions(exclusions) || r[k] == BusinessPreferences(prefs)
    ensures var r := ValidationRules(restrictive, exclusions, prefs);
      forall i, j :: 0 <= i < j < |r| ==> Rank(r[i]) < Rank(r[j])
  {
  }

  /** The position of a rule kind in the emission order. */
  function Rank(rule: Rule): nat {
    match rule
    case MustMatchRestrictive(_) => 0
    case MustNotMatchExclusions(_) => 1
    case BusinessPreferences(_) => 2
  }

  // ---------------------------------------------------------------- validating a service

  /** The text a service is matched against: display name, category and product family, lowercased. */
  function ServiceText(service: Service): string {
    ToLower(Render(service.displayName) + " " + Render(service.serviceCategory) + " " + OrEmpty(service.productFamily))
  }

  /** Some Oracle term of some constraint, lowercased, occurs in `text`. */
  predicate AnyTermIn(text: string, cs: seq<Constraint>) {
    exists i, j :: 0 <= i < |cs| && 0 <= j < |cs[i].oracleTerms| && Contains(text, ToLower(cs[i].oracleTerms[j]))
  }

  /** JavaScript truthiness of a stored preference value. */
  predicate PrefTruthy(v: PrefValue) {
    match v
    case Mapping(_) => true
    case Count(n) => n.Finite? && n.value != 0.0
    case Label(s) => s != ""
  }

  /** `service.x === rule.preferences.key`: only a label can equal a string. */
  predicate PrefEquals(v: PrefValue, s: string) {
    v == Label(s)
  }

  /** The tier factor: a tier match boosts by 1.2; a standard preference met by an enterprise service is cut to 0.7. */
  function TierFactor(service: Service, prefs: map<string, PrefValue>): real {
    if "tier" in prefs && PrefTruthy(prefs["tier"]) && Truthy(service.tier) then
      if PrefEquals(prefs["tier"], service.tier.value) then 1.2
      else if PrefEquals(prefs["tier"], "standard") && service.tier.value == "enterprise" then 0.7
      else 1.0
    else 1.0
  }

  /** The licensing factor: 1.1 when the service's licensing model is the preferred one, 0.9 when it is another. */
  function LicensingFactor(service: Service, prefs: map<string, PrefValue>): real {
    if "licensing" in prefs && PrefTruthy(prefs["licensing"]) && Truthy(service.licensingModel) then
      if PrefEquals(prefs["licensing"], service.licensingModel.value) then 1.1 else 0.9
    else 1.0
  }

  /** `validateBusinessPreferences`: never fails a service, only scales its score, capped at 1.5. */
  function ValidateBusinessPreferences(service: Service, prefs: map<string, PrefValue>): (r: RuleResult)
    ensures r.passed
    ensures 0.63 <= r.score <= 1.32
    ensures ("tier" !in prefs || !PrefTruthy(prefs["tier"])) && ("licensing" !in prefs || !PrefTruthy(prefs["licensing"]))
      ==> r.score == 1.0
  {
    var score := TierFactor(service, prefs) * LicensingFactor(service, prefs);
    RuleResult(true, if score < 1.5 then score else 1.5)
  }

  /**
   * The preferences the validator records never hold a `tier` key, so the tier factor never
   * applies: the business score is 1.1 for a matching licensing model, 0.9 for another, and
   * 1.0 otherwise.
   */
  lemma ExtractedTierNeverApplies(service: Service, text: string)
    ensures var prefs := ExtractedPreferences(BusinessPreferenceMap, text);
      var r := ValidateBusinessPreferences(service, prefs);
      r.score == LicensingFactor(service, prefs) && (r.score == 1.0 || r.score == 1.1 || r.score == 0.9)
  {
    PreferenceKeys(text);
  }

  /** What one rule yields for a service. */
  function RuleOutcome(service: Service, rule: Rule): (r: RuleResult)
    ensures r.score >= 0.0
    ensures !r.passed ==> r.score == 0.0
    ensures rule.BusinessPreferences? ==> r.passed
    ensures rule.MustMatchRestrictive? ==> (r.passed <==> AnyTermIn(ServiceText(service), rule.constraints))
    ensures rule.MustNotMatchExclusions? ==> (r.passed <==> !AnyTermIn(ServiceText(service), rule.constraints))
  {
    match rule
    case MustMatchRestrictive(cs) =>
      var hit := AnyTermIn(ServiceText(service), cs);
      RuleResult(hit, if hit then 1.0 else 0.0)
    case MustNotMatchExclusions(cs) =>
      var hit := AnyTermIn(ServiceText(service), cs);
      RuleResult(!hit, if hit then 0.0 else 1.0)
    case BusinessPreferences(prefs) => ValidateBusinessPreferences(service, prefs)
  }

  /** The overall result of a rule list: the rule results folded in order, starting from allowed with score 1. */
  function Validation(service: Service, rules: seq<Rule>): ValidationResult {
    if rules == [] then ValidationResult(true, 1.0)
    else
      Combine(Validation(service, rules[..|rules| - 1]), RuleOutcome(service, rules[|rules| - 1]))
  }

  /** A service is allowed exactly when every rule passes; with no rules it is allowed with score 1. */
  lemma {:induction false} ValidationAllowed(service: Service, rules: seq<Rule>)
    ensures Validation(service, rules).allowed <==> forall k :: 0 <= k < |rules| ==> RuleOutcome(service, rules[k]).passed
    ensures rules == [] ==> Validation(service, rules) == ValidationResult(true, 1.0)
  {
    if rules != [] {
      var front := rules[..|rules| - 1];
      ValidationAllowed(service, front);
      var before, last := Validation(service, front), RuleOutcome(service, rules[|rules| - 1]);
      assert Validation(service, rules).allowed == (before.allowed && last.passed);
      if Validation(service, rules).allowed {
        assert before.allowed && last.passed;
        forall k | 0 <= k < |rules|
          ensures RuleOutcome(service, rules[k]).passed
        {
          if k < |front| {
            assert rules[k] == front[k];
            assert RuleOutcome(service, front[k]).passed;
          } else {
            assert k == |rules| - 1;
          }
        }
      } else if !before.allowed {
        var k :| 0 <= k < |front| && !RuleOutcome(service, front[k]).passed;
        assert rules[k] == front[k];
      }
    }
  }

  /** Scores are never negative, and a rejected service scores 0. */
  lemma {:induction false} ValidationScore(service: Service, rules: seq<Rule>)
    ensures Validation(service, rules).score >= 0.0
    ensures !Validation(service, rules).allowed ==> Validation(service, rules).score == 0.0
  {
    if rules != [] {
      var front := rules[..|rules| - 1];
      ValidationScore(service, front);
      var before, last := Validation(service, front), RuleOutcome(service, rules[|rules| - 1]);
      CombineKeepsScore(before, last);
      assert Validation(service, rules) == Combine(before, last);
    }
  }

  /** Folding a rule result keeps the score non-negative and zero on a rejection. */
  lemma CombineKeepsScore(v: ValidationResult, r: RuleResult)
    requires v.score >= 0.0 && (!v.allowed ==> v.score == 0.0)
    requires r.score >= 0.0 && (!r.passed ==> r.score == 0.0)
    ensures Combine(v, r).score >= 0.0
    ensures !Combine(v, r).allowed ==> Combine(v, r).score == 0.0
  {
  }

  /** The multiset of a non-empty sequence splits off its last element. */
  lemma MultisetSnoc<T>(s: seq<T>)
    requires s != []
    ensures multiset(s) == multiset(s[..|s| - 1]) + multiset{s[|s| - 1]}
  {
    assert s == s[..|s| - 1] + [s[|s| - 1]];
  }

  lemma ValidationStep(service: Service, rules: seq<Rule>, k: nat)
    requires k < |rules|
    ensures Validation(service, rules[..k + 1]) == Combine(Validation(service, rules[..k]), RuleOutcome(service, rules[k]))
  {
    assert rules[..k + 1][..k] == rules[..k];
  }

  /** One rule folded into the running result: `allowed` drops on a failure, the score is multiplied. */
  function Combine(v: ValidationResult, r: RuleResult): ValidationResult {
    ValidationResult(v.allowed && r.passed, v.score * r.score)
  }

  /** The services a rule list allows, in order. */
  function Included(services: seq<Service>, rules: seq<Rule>): seq<Service> {
    if services == [] then []
    else
      var last := services[|services| - 1];
      Included(services[..|services| - 1], rules) + (if Validation(last, rules).allowed then [last] else [])
  }

  /** The services a rule list rejects, in order. */
  function Rejected(services: seq<Service>, rules: seq<Rule>): seq<Service> {
    if services == [] then []
    else
      var last := services[|services| - 1];
      Rejected(services[..|services| - 1], rules) + (if Validation(last, rules).allowed then [] else [last])
  }

  /**
   * Filtering splits the services: every service lands in exactly one of the two lists, the
   * included ones are allowed and the rejected ones are not.
   */
  lemma {:induction false} FilterPartition(services: seq<Service>, rules: seq<Rule>)
    ensures |Included(services, rules)| + |Rejected(services, rules)| == |services|
    ensures multiset(Included(services, rules)) + multiset(Rejected(services, rules)) == multiset(services)
  {
    if services != [] {
      var front := services[..|services| - 1];
      var last := services[|services| - 1];
      FilterPartition(front, rules);
      MultisetSnoc(services);
      if Validation(last, rules).allowed {
        assert Included(services, rules) == Included(front, rules) + [last];
        assert Rejected(services, rules) == Rejected(front, rules);
      } else {
        assert Included(services, rules) == Included(front, rules);
        assert Rejected(services, rules) == Rejected(front, rules) + [last];
      }
    }
  }

  /** Every included service is allowed and every rejected one is not. */
  lemma {:induction false} FilterSound(services: seq<Service>, rules: seq<Rule>)
    ensures forall x :: x in Included(services, rules) ==> Validation(x, rules).allowed
    ensures forall x :: x in Rejected(services, rules) ==> !Validation(x, rules).allowed
  {
    if services != [] {
      FilterSound(services[..|services| - 1], rules);
    }
  }

  /** The result of `filterServicesWithConstraints`. */
  datatype FilterResult = FilterResult(
    includedServices: seq<Service>,
    rejectedServices: seq<Service>,
    totalEvaluated: nat,
    included: nat,
    excluded: nat)

  /** The nested loops of `validateRestrictiveRule` and `validateExclusionRule`: stop at the first term found in the text. */
  method FindTerm(serviceText: string, cs: seq<Constraint>) returns (hit: bool)
    ensures hit <==> AnyTermIn(serviceText, cs)
  {
    var i := 0;
    while i < |cs|
      invariant 0 <= i <= |cs|
      invariant forall a, b :: 0 <= a < i && 0 <= b < |cs[a].oracleTerms| ==> !Contains(serviceText, ToLower(cs[a].oracleTerms[b]))
    {
      var j := 0;
      while j < |cs[i].oracleTerms|
        invariant 0 <= j <= |cs[i].oracleTerms|
        invariant forall b :: 0 <= b < j ==> !Contains(serviceText, ToLower(cs[i].oracleTerms[b]))
      {
        if Contains(serviceText, ToLower(cs[i].oracleTerms[j])) {
          return true;
        }
        j := j + 1;
      }
      i := i + 1;
    }
    return false;
  }

  // ---------------------------------------------------------------- the validator object

  /** The validator: its terminology and preference tables, and the patterns its extractors use. */
  class ConstraintValidatorRedesigned {
    const terminology: seq<(string, seq<string>)>
    const preferenceMap: seq<(string, Preference)>
    const restrictivePatterns: seq<Pattern>
    const exclusionPatterns: seq<Pattern>
    const mentionPatterns: seq<MentionPattern>

    predicate Valid() {
      AllValid(restrictivePatterns) && AllValid(exclusionPatterns) && AllValidMentions(mentionPatterns)
    }

    constructor()
      ensures terminology == TerminologyMap && preferenceMap == BusinessPreferenceMap
      ensures restrictivePatterns == RestrictivePatterns && exclusionPatterns == ExclusionPatterns
      ensures mentionPatterns == MentionPatterns
      ensures Valid()
    {
      terminology := TerminologyMap;
      preferenceMap := BusinessPreferenceMap;
      restrictivePatterns := RestrictivePatterns;
      exclusionPatterns := ExclusionPatterns;
      mentionPatterns := MentionPatterns;
      ExtractorsReadClauses();
    }

    /** Every restrictive match adds `(match[2] || match[1]).trim()` with its Oracle terms. */
    method ExtractRestrictiveConstraints(text: string, c: CustomerConstraints)
      requires Valid()
      modifies c`restrictive
      ensures c.restrictive == old(c.restrictive) + Entries(terminology, restrictivePatterns, text, 2, 1)
    {
      var found := ScanConstraints(terminology, restrictivePatterns, text, 2, 1);
      c.restrictive := c.restrictive + found;
    }

    /** Every exclusion match adds `(match[3] || match[1]).trim()` with its Oracle terms. */
    method ExtractExclusionConstraints(text: string, c: CustomerConstraints)
      requires Valid()
      modifies c`exclusions
      ensures c.exclusions == old(c.exclusions) + Entries(terminology, exclusionPatterns, text, 3, 1)
    {
      var found := ScanConstraints(terminology, exclusionPatterns, text, 3, 1);
      c.exclusions := c.exclusions + found;
    }

    method ExtractBusinessPreferences(text: string, c: CustomerConstraints)
      modifies c`businessPreferences
      ensures c.businessPreferences == old(c.businessPreferences) + ExtractedPreferences(preferenceMap, text)
    {
      ghost var before := c.businessPreferences;
      ghost var prefs := PhrasePrefs(preferenceMap, text);
      RecordPhrasePreferences(preferenceMap, text, c);
      if UserCountMatch(text) {
        UpdateOfUnion(before, prefs, "userCount", Count(NaN));
        c.businessPreferences := c.businessPreferences["userCount" := Count(NaN)];
        prefs := prefs["userCount" := Count(NaN)];
      }
      ghost var licensing := LicensingPreference(text);
      if Contains(text, "existing") && (Contains(text, "license") || Contains(text, "oracle")) {
        UpdateOfUnion(before, prefs, "licensing", Label("byol"));
        c.businessPreferences := c.businessPreferences["licensing" := Label("byol")];
      } else if Contains(text, "no license") || Contains(text, "new license") {
        UpdateOfUnion(before, prefs, "licensing", Label("license_included"));
        c.businessPreferences := c.businessPreferences["licensing" := Label("license_included")];
      }
    }

    method ExtractOracleServiceMentions(text: string, c: CustomerConstraints)
      requires Valid()
      modifies c`oracleServices
      ensures c.oracleServices == old(c.oracleServices) + AllMentions(mentionPatterns, text)
    {
      ScanMentions(mentionPatterns, text, c);
    }

    method GenerateValidationRules(c: CustomerConstraints)
      modifies c`validationRules
      ensures c.validationRules == old(c.validationRules) + ValidationRules(c.restrictive, c.exclusions, c.businessPreferences)
    {
      if |c.restrictive| > 0 {
        c.validationRules := c.validationRules + [MustMatchRestrictive(c.restrictive)];
      }
      if |c.exclusions| > 0 {
        c.validationRules := c.validationRules + [MustNotMatchExclusions(c.exclusions)];
      }
      if |c.businessPreferences.Keys| > 0 {
        c.validationRules := c.validationRules + [BusinessPreferences(c.businessPreferences)];
      } else {
        assert c.businessPreferences == map[];
      }
    }

    /** `extractCustomerConstraints`: every step runs over the lowercased text on a fresh constraints object. */
    method ExtractCustomerConstraints(requirementsText: string) returns (c: CustomerConstraints)
      requires Valid()
      ensures fresh(c)
      ensures c.restrictive == Entries(terminology, restrictivePatterns, ToLower(requirementsText), 2, 1)
      ensures c.exclusions == Entries(terminology, exclusionPatterns, ToLower(requirementsText), 3, 1)
      ensures c.businessPreferences == ExtractedPreferences(preferenceMap, ToLower(requirementsText))
      ensures c.oracleServices == AllMentions(mentionPatterns, ToLower(requirementsText))
      ensures c.validationRules == ValidationRules(c.restrictive, c.exclusions, c.businessPreferences)
    {
      var text := ToLower(requirementsText);
      c := new CustomerConstraints();
      ExtractRestrictiveConstraints(text, c);
      ExtractExclusionConstraints(text, c);
      ExtractBusinessPreferences(text, c);
      ExtractOracleServiceMentions(text, c);
      GenerateValidationRules(c);
    }

    method ValidateRestrictiveRule(service: Service, cs: seq<Constraint>) returns (r: RuleResult)
      ensures r.passed <==> AnyTermIn(ServiceText(service), cs)
      ensures r.score == if r.passed then 1.0 else 0.0
    {
      var hit := FindTerm(ServiceText(service), cs);
      r := if hit then RuleResult(true, 1.0) else RuleResult(false, 0.0);
    }

    method ValidateExclusionRule(service: Service, cs: seq<Constraint>) returns (r: RuleResult)
      ensures r.passed <==> !AnyTermIn(ServiceText(service), cs)
      ensures r.score == if r.passed then 1.0 else 0.0
    {
      var hit := FindTerm(ServiceText(service), cs);
      r := if hit then RuleResult(false, 0.0) else RuleResult(true, 1.0);
    }

    method ApplyValidationRule(service: Service, rule: Rule) returns (r: RuleResult)
      ensures r == RuleOutcome(service, rule)
    {
      match rule
      case MustMatchRestrictive(cs) => r := ValidateRestrictiveRule(service, cs);
      case MustNotMatchExclusions(cs) => r := ValidateExclusionRule(service, cs);
      case BusinessPreferences(prefs) => r := ValidateBusinessPreferences(service, prefs);
    }

    /** The rule loop of `validateServiceAgainstCustomerConstraints`. */
    method ValidateServiceAgainstCustomerConstraints(service: Service, c: CustomerConstraints) returns (v: ValidationResult)
      ensures v == Validation(service, c.validationRules)
    {
      v := ValidationResult(true, 1.0);
      var rules := c.validationRules;
      var k := 0;
      while k < |rules|
        invariant 0 <= k <= |rules|
        invariant v == Validation(service, rules[..k])
      {
        var r := ApplyValidationRule(service, rules[k]);
        ValidationStep(service, rules, k);
        v := Combine(v, r);
        k := k + 1;
      }
      assert rules[..k] == rules;
    }

    method FilterServicesWithConstraints(services: seq<Service>, c: CustomerConstraints) returns (res: FilterResult)
      ensures res.includedServices == Included(services, c.validationRules)
      ensures res.rejectedServices == Rejected(services, c.validationRules)
      ensures res.totalEvaluated == |services| && res.included + res.excluded == |services|
      ensures res.included == |res.includedServices| && res.excluded == |res.rejectedServices|
    {
      var included: seq<Service> := [];
      var rejected: seq<Service> := [];
      var k := 0;
      while k < |services|
        invariant 0 <= k <= |services|
        invariant included == Included(services[..k], c.validationRules)
        invariant rejected == Rejected(services[..k], c.validationRules)
      {
        var v := ValidateServiceAgainstCustomerConstraints(services[k], c);
        assert services[..k + 1][..k] == services[..k];
        if v.allowed {
          included := included + [services[k]];
        } else {
          rejected := rejected + [services[k]];
        }
        k := k + 1;
      }
      assert services[..k] == services;
      FilterPartition(services, c.validationRules);
      FilterSound(services, c.validationRules);
      res := FilterResult(included, rejected, |services|, |included|, |rejected|);
    }
  }
}
