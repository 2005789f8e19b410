/**
 * The instruction extraction shared by the three standalone constraint testers: the
 * requirement text is lowercased, and each pattern of the `restrictive`, `scope` and
 * `specific_sku` lists is run through its `exec` loop over the whole text, one entry
 * being pushed per match. The testers differ only in their pattern lists and in the way
 * they validate a service against the extracted entries.
 */
module TesterExtraction {
  import opened Wrappers
  import opened Text
  import opened Lists
  import opened Scanner
  import opened Catalog

  /** The three lists of a tester's `instructionPatterns`. */
  datatype PatternTable = PatternTable(restrictive: seq<Pattern>, scope: seq<Pattern>, specificSku: seq<Pattern>)

  predicate AllValid(ps: seq<Pattern>) {
    forall k :: 0 <= k < |ps| ==> Valid(ps[k])
  }

  predicate ValidTable(t: PatternTable) {
    AllValid(t.restrictive) && AllValid(t.scope) && AllValid(t.specificSku)
  }

  /** Which list an entry is pushed onto; it decides which groups the entry reads. */
  datatype Kind = Restrictive | Exclusion | Sku

  /** `{ fullMatch, instruction }` for restrictions and exclusions, `{ fullMatch, sku }` for SKUs. */
  datatype Entry = Entry(fullMatch: string, value: string)

  /** The constraints object; `mustInclude` and `mustExclude` stay empty and are not modelled. */
  datatype UserConstraints = UserConstraints(restrictive: seq<Entry>, exclusions: seq<Entry>, specificSkus: seq<Entry>)

  /** A catalogue service as the testers read it. */
  datatype Service = Service(displayName: Option<string>, serviceCategory: Option<string>,
                             partNumber: Option<string>, skuType: Option<string>)

  /** Why a service was allowed or rejected; the reason strings are built from these parts. */
  datatype Reason =
    | NotInAllowedSkus(partNumber: Option<string>, allowedSkus: seq<string>)
    | Excluded(fullMatch: string, keyword: Option<string>)
    | NoRestrictionMatched(fullMatches: seq<string>)
    | RestrictionMatched(matchCount: nat, keywordCount: nat, fullMatch: string, matchedKeywords: seq<string>)
    | MeetsAll

  datatype Verdict = Verdict(allowed: bool, reason: Reason)

  /** `field?.toLowerCase() || ''`. */
  function LowerOr(field: Option<string>): (r: string)
    ensures field.None? ==> r == ""
    ensures field.Some? ==> |r| == |field.value|
  {
    if field.Some? then ToLower(field.value) else ""
  }

  /** The `fullMatch` of every entry, in order. */
  function FullMatches(es: seq<Entry>): (r: seq<string>)
    ensures |r| == |es| && forall k :: 0 <= k < |es| ==> r[k] == es[k].fullMatch
  {
    if es == [] then [] else [es[0].fullMatch] + FullMatches(es[1..])
  }

  /** A trigger made of one literal word. */
  function Literal(w: string): Trigger { Trigger(w, []) }

  /** `constraints.specificSkus.map(s => s.sku.toLowerCase())`. */
  function AllowedSkus(skus: seq<Entry>): (r: seq<string>)
    ensures |r| == |skus| && forall k :: 0 <= k < |skus| ==> r[k] == ToLower(skus[k].value)
  {
    if skus == [] then [] else [ToLower(skus[0].value)] + AllowedSkus(skus[1..])
  }

  /** The SKU gate: with no SKUs, or with the lowercased part number among the lowercased SKUs. */
  predicate SkuPasses(s: Service, c: UserConstraints) {
    |c.specificSkus| == 0 || exists k :: 0 <= k < |c.specificSkus| && ToLower(c.specificSkus[k].value) == LowerOr(s.partNumber)
  }

  /** The gate compares the lowercased part number with the lowercased SKUs. */
  lemma SkuPassesIff(s: Service, c: UserConstraints)
    ensures SkuPasses(s, c) <==> |c.specificSkus| == 0 || LowerOr(s.partNumber) in AllowedSkus(c.specificSkus)
  {
    var allowed := AllowedSkus(c.specificSkus);
    if LowerOr(s.partNumber) in allowed {
      var k :| 0 <= k < |allowed| && allowed[k] == LowerOr(s.partNumber);
      assert ToLower(c.specificSkus[k].value) == LowerOr(s.partNumber);
    }
    if SkuPasses(s, c) && |c.specificSkus| > 0 {
      var k :| 0 <= k < |c.specificSkus| && ToLower(c.specificSkus[k].value) == LowerOr(s.partNumber);
      assert allowed[k] == LowerOr(s.partNumber);
    }
  }

  // ---------------------------------------------------------------- one match, one entry

  /**
   * The entry pushed for match `m`: restrictions read `match[1] || match[2] || match[0]`,
   * exclusions `match[1] || match[0]`, SKUs `match[1]`.
   */
  function EntryOf(kind: Kind, text: string, m: Match): Entry
    requires m.start <= m.end <= |text|
  {
    var whole := text[m.start..m.end];
    match kind
    case Restrictive => Entry(whole, OrElse(OrElse(Captured(text, m, 1), Captured(text, m, 2)), Some(whole)).value)
    case Exclusion => Entry(whole, OrElse(Captured(text, m, 1), Some(whole)).value)
    case Sku => Entry(whole, OrEmpty(Captured(text, m, 1)))
  }

  /** The entries the `exec` loop of pattern `p` pushes once `lastIndex` is `from`. */
  function EntriesFrom(kind: Kind, p: Pattern, text: string, from: nat): seq<Entry>
    requires Valid(p) && from <= |text|
    decreases |text| - from
  {
    var m := Exec(p, text, from);
    if m.None? then [] else [EntryOf(kind, text, m.value)] + EntriesFrom(kind, p, text, m.value.end)
  }

  /** Every entry the patterns `ps` push, pattern after pattern, each pattern scanned over the whole text. */
  function Scan(kind: Kind, ps: seq<Pattern>, text: string): seq<Entry>
    requires AllValid(ps)
  {
    if ps == [] then []
    else Scan(kind, ps[..|ps| - 1], text) + EntriesFrom(kind, ps[|ps| - 1], text, 0)
  }

  /** What `extractUserConstraints` returns for a table. */
  function Extract(t: PatternTable, requirementsText: string): UserConstraints
    requires ValidTable(t)
  {
    var text := ToLower(requirementsText);
    UserConstraints(Scan(Restrictive, t.restrictive, text), Scan(Exclusion, t.scope, text), Scan(Sku, t.specificSku, text))
  }

  // ---------------------------------------------------------------- the exec loops

  /** `while ((match = pattern.exec(text)) !== null) list.push(…)` for one pattern. */
  method ScanPattern(kind: Kind, p: Pattern, text: string) returns (found: seq<Entry>)
    requires Valid(p)
    ensures found == EntriesFrom(kind, p, text, 0)
  {
    found := [];
    var lastIndex := 0;
    while true
      invariant lastIndex <= |text|
      invariant found + EntriesFrom(kind, p, text, lastIndex) == EntriesFrom(kind, p, text, 0)
      decreases |text| - lastIndex
    {
      var m := Exec(p, text, lastIndex);
      if m.None? {
        EntriesFromUnfold(kind, p, text, lastIndex);
        break;
      }
      ScanStep(kind, p, text, lastIndex, found);
      found := found + [EntryOf(kind, text, m.value)];
      lastIndex := m.value.end;
    }
  }

  /** The loop body after a match: appending the match's entry keeps the invariant. */
  lemma ScanStep(kind: Kind, p: Pattern, text: string, from: nat, found: seq<Entry>)
    requires Valid(p) && from <= |text| && Exec(p, text, from).Some?
    ensures var m := Exec(p, text, from).value;
      (found + [EntryOf(kind, text, m)]) + EntriesFrom(kind, p, text, m.end) == found + EntriesFrom(kind, p, text, from)
  {
    var m := Exec(p, text, from).value;
    EntriesFromUnfold(kind, p, text, from);
    AppendAssoc(found, [EntryOf(kind, text, m)], EntriesFrom(kind, p, text, m.end));
  }

  /** One turn of the `exec` loop: the entry of the leftmost match, then the entries from its end. */
  lemma EntriesFromUnfold(kind: Kind, p: Pattern, text: string, from: nat)
    requires Valid(p) && from <= |text|
    ensures Exec(p, text, from).None? ==> EntriesFrom(kind, p, text, from) == []
    ensures Exec(p, text, from).Some? ==>
      (EntriesFrom(kind, p, text, from)
       == [EntryOf(kind, text, Exec(p, text, from).value)] + EntriesFrom(kind, p, text, Exec(p, text, from).value.end))
  {
  }

  /** `patterns.forEach(pattern => …)`: the entries of every pattern, appended in list order. */
  method ScanAll(kind: Kind, ps: seq<Pattern>, text: string) returns (found: seq<Entry>)
    requires AllValid(ps)
    ensures found == Scan(kind, ps, text)
  {
    found := [];
    var k := 0;
    while k < |ps|
      invariant 0 <= k <= |ps|
      invariant found == Scan(kind, ps[..k], text)
    {
      var more := ScanPattern(kind, ps[k], text);
      ScanPrefix(kind, ps, text, k);
      found := found + more;
      k := k + 1;
    }
    assert ps[..|ps|] == ps;
  }

  /** One more pattern of the list adds its own entries after those of the patterns before it. */
  lemma ScanPrefix(kind: Kind, ps: seq<Pattern>, text: string, k: nat)
    requires AllValid(ps) && k < |ps|
    ensures Scan(kind, ps[..k + 1], text) == Scan(kind, ps[..k], text) + EntriesFrom(kind, ps[k], text, 0)
  {
    assert ps[..k + 1][..k] == ps[..k];
  }

  /** `extractUserConstraints(requirementsText)` for a table. */
  method ExtractUserConstraints(t: PatternTable, requirementsText: string) returns (c: UserConstraints)
    requires ValidTable(t)
    ensures c == Extract(t, requirementsText)
  {
    var text := ToLower(requirementsText);
    var restrictive := ScanAll(Restrictive, t.restrictive, text);
    var exclusions := ScanAll(Exclusion, t.scope, text);
    var specificSkus := ScanAll(Sku, t.specificSku, text);
    c := UserConstraints(restrictive, exclusions, specificSkus);
  }

  // ---------------------------------------------------------------- extraction is additive

  /** Scanning two pattern lists one after the other pushes the entries of the first, then those of the second. */
  lemma {:induction false} ScanConcat(kind: Kind, ps: seq<Pattern>, qs: seq<Pattern>, text: string)
    requires AllValid(ps) && AllValid(qs)
    ensures AllValid(ps + qs)
    ensures Scan(kind, ps + qs, text) == Scan(kind, ps, text) + Scan(kind, qs, text)
    decreases |qs|
  {
    AllValidConcat(ps, qs);
    if qs == [] {
      assert ps + qs == ps;
    } else {
      ScanConcat(kind, ps, qs[..|qs| - 1], text);
      ScanConcatStep(kind, ps, qs, text);
    }
  }

  /** The step of `ScanConcat`: the last pattern of `qs` adds the same entries on both sides. */
  lemma ScanConcatStep(kind: Kind, ps: seq<Pattern>, qs: seq<Pattern>, text: string)
    requires qs != [] && AllValid(ps) && AllValid(qs) && AllValid(ps + qs) && AllValid(ps + qs[..|qs| - 1])
    requires Scan(kind, ps + qs[..|qs| - 1], text) == Scan(kind, ps, text) + Scan(kind, qs[..|qs| - 1], text)
    ensures Scan(kind, ps + qs, text) == Scan(kind, ps, text) + Scan(kind, qs, text)
  {
    var init, q := qs[..|qs| - 1], qs[|qs| - 1];
    var last := EntriesFrom(kind, q, text, 0);
    SnocSplit(qs);
    AppendAssoc(ps, init, [q]);
    ScanSnoc(kind, init, q, text);
    ScanSnoc(kind, ps + init, q, text);
    AppendAssoc(Scan(kind, ps, text), Scan(kind, init, text), last);
  }

  /** Appending a pattern appends its entries. */
  lemma ScanSnoc(kind: Kind, front: seq<Pattern>, q: Pattern, text: string)
    requires AllValid(front) && Valid(q)
    ensures AllValid(front + [q])
    ensures Scan(kind, front + [q], text) == Scan(kind, front, text) + EntriesFrom(kind, q, text, 0)
  {
    assert (front + [q])[..|front|] == front;
  }

  lemma AllValidConcat(ps: seq<Pattern>, qs: seq<Pattern>)
    requires AllValid(ps) && AllValid(qs)
    ensures AllValid(ps + qs)
  {
    var all := ps + qs;
    forall k | 0 <= k < |all|
      ensures Valid(all[k])
    {
      if k < |ps| { assert all[k] == ps[k]; } else { assert all[k] == qs[k - |ps|]; }
    }
  }

  /** The entries of a single pattern are its `exec` loop's entries. */
  lemma ScanOne(kind: Kind, p: Pattern, text: string)
    requires Valid(p)
    ensures AllValid([p])
    ensures Scan(kind, [p], text) == EntriesFrom(kind, p, text, 0)
  {
    assert [p][..0] == [];
  }

  /** Entry `n` of a pattern's `exec` loop is the one pushed for the loop's match `n`. */
  lemma {:induction false} EntriesFromMatches(kind: Kind, p: Pattern, text: string, from: nat)
    requires Valid(p) && from <= |text|
    ensures |EntriesFrom(kind, p, text, from)| == |AllMatches(p, text, from)|
    ensures forall n :: 0 <= n < |AllMatches(p, text, from)| ==>
      EntriesFrom(kind, p, text, from)[n] == EntryOf(kind, text, AllMatches(p, text, from)[n])
    decreases |text| - from
  {
    var m := Exec(p, text, from);
    AllMatchesUnfold(p, text, from);
    if m.Some? {
      var end := m.value.end;
      EntriesFromMatches(kind, p, text, end);
      var es := EntriesFrom(kind, p, text, from);
      var ms := AllMatches(p, text, from);
      assert es == [EntryOf(kind, text, m.value)] + EntriesFrom(kind, p, text, end);
      assert ms == [m.value] + AllMatches(p, text, end);
    }
  }

  /** Every entry comes from a match some pattern of the list reports at the entry's start. */
  lemma {:induction false} ScanSound(kind: Kind, ps: seq<Pattern>, text: string, n: nat)
    requires AllValid(ps) && n < |Scan(kind, ps, text)|
    ensures exists k, m: Match ::
      0 <= k < |ps| && m.start <= |text| && MatchAt(ps[k], text, m.start) == Some(m)
      && Scan(kind, ps, text)[n] == EntryOf(kind, text, m)
    decreases |ps|
  {
    var init := ps[..|ps| - 1];
    AllValidInit(ps);
    var head := Scan(kind, init, text);
    if n < |head| {
      ScanSound(kind, init, text, n);
      var k, m: Match :| 0 <= k < |init| && m.start <= |text| && MatchAt(init[k], text, m.start) == Some(m)
        && head[n] == EntryOf(kind, text, m);
      assert init[k] == ps[k];
    } else {
      var m := ScanLastSound(kind, ps, text, n);
    }
  }

  /** A non-empty list's patterns but the last are valid when all of them are. */
  lemma AllValidInit(ps: seq<Pattern>)
    requires AllValid(ps) && ps != []
    ensures AllValid(ps[..|ps| - 1])
  {
    var init := ps[..|ps| - 1];
    forall k | 0 <= k < |init|
      ensures Valid(init[k])
    {
      assert init[k] == ps[k];
    }
  }

  /** An entry past those of the earlier patterns is pushed for a match of the last pattern. */
  lemma ScanLastSound(kind: Kind, ps: seq<Pattern>, text: string, n: nat) returns (m: Match)
    requires AllValid(ps) && ps != [] && AllValid(ps[..|ps| - 1])
    requires |Scan(kind, ps[..|ps| - 1], text)| <= n < |Scan(kind, ps, text)|
    ensures m.start <= |text| && MatchAt(ps[|ps| - 1], text, m.start) == Some(m)
    ensures Scan(kind, ps, text)[n] == EntryOf(kind, text, m)
  {
    var last := ps[|ps| - 1];
    var j := n - |Scan(kind, ps[..|ps| - 1], text)|;
    EntriesFromMatches(kind, last, text, 0);
    AllMatchesAreMatches(last, text, 0, j);
    m := AllMatches(last, text, 0)[j];
  }

  /** An entry pattern `k` pushes is among the entries of the whole list. */
  lemma {:induction false} ScanHas(kind: Kind, ps: seq<Pattern>, text: string, k: nat, e: Entry)
    requires AllValid(ps) && k < |ps| && e in EntriesFrom(kind, ps[k], text, 0)
    ensures e in Scan(kind, ps, text)
    decreases |ps|
  {
    if k < |ps| - 1 {
      var init := ps[..|ps| - 1];
      assert init[k] == ps[k];
      assert AllValid(init) by {
        forall q | 0 <= q < |init|
          ensures Valid(init[q])
        {
          assert init[q] == ps[q];
        }
      }
      ScanHas(kind, init, text, k, e);
    }
  }

  /** No match is missed: wherever pattern `k` matches, an entry is pushed for a match of that pattern covering the position. */
  lemma ScanComplete(kind: Kind, ps: seq<Pattern>, text: string, k: nat, j: nat)
    requires AllValid(ps) && k < |ps| && j <= |text| && MatchAt(ps[k], text, j).Some?
    ensures exists i ::
      0 <= i < |AllMatches(ps[k], text, 0)|
      && AllMatches(ps[k], text, 0)[i].start <= j < AllMatches(ps[k], text, 0)[i].end
      && EntryOf(kind, text, AllMatches(ps[k], text, 0)[i]) in Scan(kind, ps, text)
  {
    var p := ps[k];
    AllMatchesCovers(p, text, 0, j);
    var ms := AllMatches(p, text, 0);
    var i :| 0 <= i < |ms| && ms[i].start <= j < ms[i].end;
    EntriesFromMatches(kind, p, text, 0);
    assert EntriesFrom(kind, p, text, 0)[i] == EntryOf(kind, text, ms[i]);
    ScanHas(kind, ps, text, k, EntryOf(kind, text, ms[i]));
  }

  // ---------------------------------------------------------------- which group becomes the instruction

  /** Without a trigger group, a match's groups and end are those of the tail that follows the trigger. */
  lemma {:induction false} LedAtTail(text: string, i: nat, triggers: seq<Trigger>, tail: Tail, delims: set<char>)
    requires i <= |text| && forall t :: t in triggers ==> t.first != []
    requires LedAt(text, i, triggers, false, tail, delims).Some?
    ensures var m := LedAt(text, i, triggers, false, tail, delims).value;
      exists pe: nat :: i < pe <= |text| && TailMatch(text, pe, tail, delims) == Some((m.end, m.groups))
    decreases |triggers|
  {
    var m := LedAt(text, i, triggers, false, tail, delims).value;
    var pe := TriggerEnd(text, i, triggers[0]);
    var tm := if pe.Some? then TailMatch(text, pe.value, tail, delims) else None;
    if tm.Some? {
      assert triggers[0] in triggers;
      assert m.groups == tm.value.1;
    } else {
      LedAtTail(text, i, triggers[1..], tail, delims);
    }
  }

  /** A non-empty capture is truthy, so `match[1] || …` stops at group 1. */
  lemma GroupOneReads(kind: Kind, text: string, m: Match, lo: nat, hi: nat)
    requires kind != Sku && m.start <= m.end <= |text|
    requires 1 <= |m.groups| && m.groups[0] == Some(Span(lo, hi)) && lo < hi <= |text|
    ensures EntryOf(kind, text, m).value == text[lo..hi]
  {
    assert Captured(text, m, 1) == Some(text[lo..hi]);
  }

  /** `\s+(v1|v2|…)\s+(clause)`: group 1 is one of the verbs. */
  lemma VerbTailGroup(text: string, pe: nat, verbs: seq<string>, delims: set<char>)
    requires pe <= |text| && VerbTail(text, pe, verbs, delims).Some?
    ensures var r := VerbTail(text, pe, verbs, delims).value;
      |r.1| == 2 && r.1[0].Some? && r.1[0].value.lo <= r.1[0].value.hi <= |text|
      && text[r.1[0].value.lo..r.1[0].value.hi] in verbs
  {
    var v := VerbTail(text, pe, verbs, delims).value.1[0].value;
    var k :| 0 <= k < |verbs| && StartsAt(text, v.lo, verbs[k]) && v.hi == v.lo + |verbs[k]|;
    assert text[v.lo..v.hi] == verbs[k];
  }

  /** A verb-led pattern: `trigger\s+(verb|…)\s+…` with no empty verb. */
  predicate VerbShape(p: Pattern) {
    Valid(p) && p.Led? && !p.triggerGroup && p.tail.VerbClause?
    && forall k :: 0 <= k < |p.tail.verbs| ==> p.tail.verbs[k] != []
  }

  /** A pattern whose one group is a clause, ended by delimiters that are not letters. */
  predicate ClauseShape(p: Pattern) {
    Valid(p) && p.Led? && !p.triggerGroup && ClauseOnly(p.tail)
    && forall c :: c in p.delims ==> !IsAsciiLetter(c)
  }

  /** `trigger\s+(w1|…)?\s*…`: an optional word, none of them empty, then a clause. */
  predicate WordShape(p: Pattern) {
    Valid(p) && p.Led? && !p.triggerGroup && p.tail.WordClause?
    && forall k :: 0 <= k < |p.tail.words| ==> p.tail.words[k] != []
  }

  /** `trigger\s*:?\s*([A-Za-z0-9\-_]+)`. */
  predicate TokenShape(p: Pattern) {
    Valid(p) && p.Led? && !p.triggerGroup && p.tail.Token?
  }

  /**
   * `trigger\s+(v1|v2|…)\s+(clause)`: the verb is group 1 and is never empty, so the
   * instruction (`match[1] || …`) is the verb, not the clause after it.
   */
  lemma VerbIsInstruction(kind: Kind, p: Pattern, text: string, i: nat, m: Match)
    requires kind != Sku && VerbShape(p)
    requires i <= |text| && MatchAt(p, text, i) == Some(m)
    ensures EntryOf(kind, text, m).value in p.tail.verbs
  {
    LedAtTail(text, i, p.triggers, p.tail, p.delims);
    var pe: nat :| i < pe <= |text| && TailMatch(text, pe, p.tail, p.delims) == Some((m.end, m.groups));
    VerbTailGroup(text, pe, p.tail.verbs, p.delims);
    var v := m.groups[0].value;
    GroupOneReads(kind, text, m, v.lo, v.hi);
  }

  /** The tails whose only group is the clause. */
  predicate ClauseOnly(tail: Tail) {
    (tail.Clause? && tail.verbs == []) || tail.ColonClause? || tail.LetterClause?
  }

  /** For a clause-only tail, the single group is a clause that ends the match, after the tail's start. */
  lemma ClauseOnlyGroup(text: string, pe: nat, tail: Tail, delims: set<char>)
    requires pe <= |text| && ClauseOnly(tail) && TailMatch(text, pe, tail, delims).Some?
    requires forall c :: c in delims ==> !IsAsciiLetter(c)
    ensures var r := TailMatch(text, pe, tail, delims).value;
      |r.1| == 1 && r.1[0].Some? && pe <= r.1[0].value.lo && r.1[0].value.hi == r.0
      && IsClause(text, r.1[0].value, delims)
  {
  }

  /**
   * `trigger\s+(clause)`, `trigger\s*:?\s*(clause)` and `no\s+([a-zA-Z]…)`: the only group is
   * the clause, so the instruction is the text after the trigger up to the first delimiter or
   * the end of the text, where the match ends.
   */
  lemma ClauseIsInstruction(kind: Kind, p: Pattern, text: string, i: nat, m: Match)
    requires kind != Sku && ClauseShape(p)
    requires i <= |text| && MatchAt(p, text, i) == Some(m)
    ensures exists lo ::
      i < lo < m.end && IsClause(text, Span(lo, m.end), p.delims) && EntryOf(kind, text, m).value == text[lo..m.end]
  {
    LedAtTail(text, i, p.triggers, p.tail, p.delims);
    var pe: nat :| i < pe <= |text| && TailMatch(text, pe, p.tail, p.delims) == Some((m.end, m.groups));
    ClauseOnlyGroup(text, pe, p.tail, p.delims);
    var c := m.groups[0].value;
    GroupOneReads(kind, text, m, c.lo, c.hi);
  }

  /** `\s+(w1|w2)?\s*(clause)`: group 1 is a word of the list when it took part; group 2 is the clause. */
  lemma WordTailGroups(text: string, pe: nat, words: seq<string>, delims: set<char>)
    requires pe <= |text| && WordTail(text, pe, words, delims).Some?
    ensures var r := WordTail(text, pe, words, delims).value;
      |r.1| == 2 && r.1[1].Some? && pe < r.1[1].value.lo && r.1[1].value.hi == r.0
      && IsClause(text, r.1[1].value, delims)
      && (r.1[0].Some? ==> r.1[0].value.lo <= r.1[0].value.hi <= |text|)
      && (r.1[0].Some? ==> text[r.1[0].value.lo..r.1[0].value.hi] in words)
  {
    WordTailClause(text, pe, words, delims);
    WordTailWord(text, pe, words, delims);
  }

  /** The clause half of `WordTailGroups`. */
  lemma WordTailClause(text: string, pe: nat, words: seq<string>, delims: set<char>)
    requires pe <= |text| && WordTail(text, pe, words, delims).Some?
    ensures var r := WordTail(text, pe, words, delims).value;
      |r.1| == 2 && r.1[1].Some? && pe < r.1[1].value.lo && r.1[1].value.hi == r.0
      && IsClause(text, r.1[1].value, delims)
  {
    var r := WordTail(text, pe, words, delims).value;
    assert r.1[|r.1| - 1] == r.1[1];
  }

  /** The word half of `WordTailGroups`: group 1, when present, spells one of the words. */
  lemma WordTailWord(text: string, pe: nat, words: seq<string>, delims: set<char>)
    requires pe <= |text| && WordTail(text, pe, words, delims).Some?
    ensures var r := WordTail(text, pe, words, delims).value;
      r.1[0].Some? ==> r.1[0].value.lo <= r.1[0].value.hi <= |text| && text[r.1[0].value.lo..r.1[0].value.hi] in words
  {
    var k := SpaceRun(text, pe);
    var viaWord := WordThenClause(text, pe + k, words, 0, delims);
    if viaWord.Some? {
      var j :| 0 <= j < |words| && StartsAt(text, pe + k, words[j]) && viaWord.value.0 == pe + k + |words[j]|;
      assert WordTail(text, pe, words, delims).value.1[0] == Some(Span(pe + k, pe + k + |words[j]|));
      assert words[j] in words;
    }
  }

  /**
   * `trigger\s+(w1|w2)?\s*(clause)`: the instruction is the optional word when it took part,
   * and the clause otherwise.
   */
  lemma WordOrClauseIsInstruction(p: Pattern, text: string, i: nat, m: Match)
    requires WordShape(p)
    requires i <= |text| && MatchAt(p, text, i) == Some(m)
    ensures var v := EntryOf(Restrictive, text, m).value;
      v in p.tail.words
      || exists lo :: i < lo < m.end && IsClause(text, Span(lo, m.end), p.delims) && v == text[lo..m.end]
  {
    LedAtTail(text, i, p.triggers, p.tail, p.delims);
    var pe: nat :| i < pe <= |text| && TailMatch(text, pe, p.tail, p.delims) == Some((m.end, m.groups));
    WordTailGroups(text, pe, p.tail.words, p.delims);
    TwoGroupsRead(text, m, p.tail.words);
  }

  /** With two groups, a word of `words` or nothing, then a clause, the restrictive instruction is the word if any, else the clause. */
  lemma TwoGroupsRead(text: string, m: Match, words: seq<string>)
    requires m.start <= m.end <= |text| && |m.groups| == 2 && m.groups[1].Some?
    requires m.groups[1].value.lo < m.groups[1].value.hi == m.end
    requires m.groups[0].Some? ==>
      (m.groups[0].value.lo <= m.groups[0].value.hi <= |text| && text[m.groups[0].value.lo..m.groups[0].value.hi] in words)
    requires forall k :: 0 <= k < |words| ==> words[k] != []
    ensures var v := EntryOf(Restrictive, text, m).value;
      (m.groups[0].Some? ==> v in words) && (m.groups[0].None? ==> v == text[m.groups[1].value.lo..m.end])
  {
    var c := m.groups[1].value;
    assert Captured(text, m, 2) == Some(text[c.lo..c.hi]);
    if m.groups[0].Some? {
      var w := m.groups[0].value;
      var k :| 0 <= k < |words| && words[k] == text[w.lo..w.hi];
      assert Captured(text, m, 1) == Some(words[k]);
    } else {
      assert Captured(text, m, 1).None?;
    }
  }

  /** `trigger.*?word` has no group, so the instruction is the whole match, which ends with `word`. */
  lemma WholeIsInstruction(kind: Kind, p: Pattern, text: string, i: nat, m: Match)
    requires kind != Sku && Valid(p) && p.Led? && !p.triggerGroup && p.tail.UpTo?
    requires i <= |text| && MatchAt(p, text, i) == Some(m)
    ensures EntryOf(kind, text, m).value == EntryOf(kind, text, m).fullMatch
    ensures StartsAt(text, m.end - |p.tail.word|, p.tail.word)
  {
    LedAtTail(text, i, p.triggers, p.tail, p.delims);
    assert m.groups == [];
    assert Captured(text, m, 1).None? && Captured(text, m, 2).None?;
  }

  /** `([a-zA-Z\s]+)\s+only`: the instruction is the letters and spaces in front of `only`, where the match ends. */
  lemma BeforeOnlyIsInstruction(p: Pattern, text: string, i: nat, m: Match)
    requires p.BeforeOnly? && i <= |text| && MatchAt(p, text, i) == Some(m)
    ensures exists g ::
      i < g < m.end && EntryOf(Restrictive, text, m).value == text[i..g]
      && (forall j :: i <= j < g ==> IsLetterOrSpace(text[j]))
      && StartsAt(text, m.end - 4, "only")
  {
    var g := BeforeOnlyGroup(p.delims, text, i, m);
    GroupOneReads(Restrictive, text, m, i, g);
  }

  /** The shape of a `([a-zA-Z\s]+)\s+only` match: one group of letters and spaces from the start, `only` at the end. */
  lemma BeforeOnlyGroup(delims: set<char>, text: string, i: nat, m: Match) returns (g: nat)
    requires i <= |text| && MatchAt(BeforeOnly(delims), text, i) == Some(m)
    ensures i < g < m.end <= |text| && m.start == i && |m.groups| == 1 && m.groups[0] == Some(Span(i, g))
    ensures forall j :: i <= j < g ==> IsLetterOrSpace(text[j])
    ensures StartsAt(text, m.end - 4, "only")
  {
    var r := OnlyAfter(text, i + 1, i + LetterSpaceRun(text, i), delims).value;
    g := r.0;
  }

  /** `trigger\s*:?\s*([A-Za-z0-9\-_]+)`: the SKU is the whole run of token characters that ends the match. */
  lemma TokenIsSku(p: Pattern, text: string, i: nat, m: Match)
    requires TokenShape(p)
    requires i <= |text| && MatchAt(p, text, i) == Some(m)
    ensures exists lo ::
      i < lo < m.end && EntryOf(Sku, text, m).value == text[lo..m.end]
      && (forall j :: lo <= j < m.end ==> IsTokenChar(text[j]))
      && (m.end == |text| || !IsTokenChar(text[m.end]))
  {
    LedAtTail(text, i, p.triggers, p.tail, p.delims);
    var c := m.groups[0].value;
    assert Captured(text, m, 1) == Some(text[c.lo..c.hi]);
  }
}
