/**
 * Explicit scanners for the regular-expression shapes the constraint extractors use.
 *
 * Every pattern is a trigger (one or more literal words separated by `\s+` or `\s*`)
 * followed by a tail: optional or mandatory verbs, optional colons, and a clause class
 * `[^D]` with the delimiter set `D`. The functions below decide, for one start position,
 * the match a backtracking JavaScript engine reports first, and then run the
 * `exec`/`lastIndex` loop of a global (`g`) expression: the leftmost match at or after
 * `lastIndex`, with the search resuming at the end of that match.
 *
 * Backtracking over white space is resolved in closed form. A greedy `\s+` (or `\s*`)
 * that is followed by a clause gives back one character at a time, so the clause starts at
 * the LARGEST position of the white-space window whose character is not a delimiter
 * (`Backoff`). A lazy clause `[^D]+?(?=D|$)` and a greedy clause `[^D]+` both end at the
 * first delimiter or the end of the text (`ClauseEnd`). The words of triggers, verbs and
 * options all start with a letter, so a `\s+` in front of them only matches the maximal run.
 */
module Scanner {
  import opened Wrappers
  import opened Text

  /** A captured substring `text[lo..hi]`. */
  datatype Span = Span(lo: nat, hi: nat)

  /** `match[0]` is `text[start..end]`; `groups[k]` is capture group k+1 (`None` when it did not take part). */
  datatype Match = Match(start: nat, end: nat, groups: seq<Option<Span>>)

  /** The separator between two words of a trigger: `\s+` or `\s*`. */
  datatype Gap = Spaces | OptSpaces

  /** A literal trigger such as `only`, `do\s+not` or `part\s*number`. */
  datatype Trigger = Trigger(first: string, rest: seq<(Gap, string)>)

  /** What follows the trigger. */
  datatype Tail =
      /** `\s+(v1\s+|v2\s+)?([^D]+?)(?=D|$)`; with no verbs, `\s+([^D]+?)(?=D|$)` (or the greedy `[^D]+`). */
    | Clause(verbs: seq<string>)
      /** `\s+(v1|v2|...)\s+([^D]+?)(?=D|$)`: the verb is mandatory and is group 1. */
    | VerbClause(verbs: seq<string>)
      /** `\s*:?\s*([^D]+?)(?=D|$)`, or `\s*:\s*([^D]+)` when the colon is required. */
    | ColonClause(colonRequired: bool)
      /** `\s+(w1|w2)?\s*([^D]+?)(?=D|$)`. */
    | WordClause(words: seq<string>)
      /** `\s+([a-zA-Z][^D]*?)(?=D|$)`. */
    | LetterClause
      /** `\s*:?\s*([A-Za-z0-9\-_]+)`. */
    | Token
      /** `.*?word`: the nearest `word` with no line terminator in between; no groups. */
    | UpTo(word: string)

  datatype Pattern =
      /** A trigger-led pattern; `triggerGroup` when the trigger alternatives form group 1 (`(don'?t|dont)`). */
    | Led(triggers: seq<Trigger>, triggerGroup: bool, tail: Tail, delims: set<char>)
      /** `([a-zA-Z\s]+)\s+only(?=D|$)`. */
    | BeforeOnly(delims: set<char>)

  /** Every trigger consumes at least one character, so every match is non-empty and the `exec` loop advances. */
  predicate Valid(p: Pattern) {
    p.Led? ==> forall t :: t in p.triggers ==> t.first != []
  }

  predicate IsLineTerminator(c: char) { c == '\n' || c == '\r' || c == '\U{2028}' || c == '\U{2029}' }

  /** The class `[A-Za-z0-9\-_]` of the SKU patterns. */
  predicate IsTokenChar(c: char) { IsAsciiLetter(c) || IsDigit(c) || c == '-' || c == '_' }

  /** The clause delimiters `.`, `,`, `!`, `?` and `;`. */
  const Delims: set<char> := {'.', ',', '!', '?', ';'}

  /** A clause may start at `r`: there is a character and it is not a delimiter. */
  predicate ClauseStart(text: string, r: int, delims: set<char>) {
    0 <= r < |text| && text[r] !in delims
  }

  /** Where a clause started at `r` stops: the first delimiter at or after `r`, or the end of the text. */
  function ClauseEnd(text: string, r: nat, delims: set<char>): (e: nat)
    requires r <= |text|
    ensures r <= e <= |text|
    ensures forall j :: r <= j < e ==> text[j] !in delims
    ensures e < |text| ==> text[e] in delims
    decreases |text| - r
  {
    if r < |text| && text[r] !in delims then ClauseEnd(text, r + 1, delims) else r
  }

  /** The largest clause start in `[lo, hi]`: where a greedy white-space run ending at `hi` hands over to the clause. */
  function Backoff(text: string, lo: nat, hi: int, delims: set<char>): (r: Option<nat>)
    ensures r.Some? ==> lo <= r.value <= hi && ClauseStart(text, r.value, delims)
    ensures r.Some? ==> forall j :: r.value < j <= hi ==> !ClauseStart(text, j, delims)
    ensures r.None? ==> forall j :: lo <= j <= hi ==> !ClauseStart(text, j, delims)
    decreases hi - lo + 1
  {
    if hi < lo then None
    else if ClauseStart(text, hi, delims) then Some(hi)
    else Backoff(text, lo, hi - 1, delims)
  }

  /** Where the words after a trigger's first word end, each preceded by its gap. */
  function WordsEnd(text: string, p: nat, rest: seq<(Gap, string)>): (r: Option<nat>)
    requires p <= |text|
    ensures r.Some? ==> p <= r.value <= |text|
    decreases |rest|
  {
    if rest == [] then Some(p)
    else
      var k := SpaceRun(text, p);
      var gap, w := rest[0].0, rest[0].1;
      if (gap == Spaces && k == 0) || !StartsAt(text, p + k, w) then None
      else WordsEnd(text, p + k + |w|, rest[1..])
  }

  /** Where trigger `t` ends when it occurs at `i`. */
  function TriggerEnd(text: string, i: nat, t: Trigger): (r: Option<nat>)
    requires i <= |text|
    ensures r.Some? ==> StartsAt(text, i, t.first) && i + |t.first| <= r.value <= |text|
  {
    if StartsAt(text, i, t.first) then WordsEnd(text, i + |t.first|, t.rest) else None
  }

  /**
   * The first word of `words` that occurs at `q` and is followed by at least `minSpaces`
   * white-space characters and then a clause: the end of that word and the clause start.
   */
  function WordThenClause(text: string, q: nat, words: seq<string>, minSpaces: nat, delims: set<char>)
    : (r: Option<(nat, nat)>)
    requires q <= |text|
    ensures r.Some? ==> q <= r.value.0 && r.value.0 + minSpaces <= r.value.1
    ensures r.Some? ==> ClauseStart(text, r.value.1, delims)
    ensures r.Some? ==> exists k :: 0 <= k < |words| && StartsAt(text, q, words[k]) && r.value.0 == q + |words[k]|
    decreases |words|
  {
    if words == [] then None
    else
      var w := words[0];
      var k := SpaceRun(text, q + |w|);
      var found := if StartsAt(text, q, w) && k >= minSpaces
        then Backoff(text, q + |w| + minSpaces, q + |w| + k, delims) else None;
      if found.Some? then Some((q + |w|, found.value))
      else
        var r := WordThenClause(text, q, words[1..], minSpaces, delims);
        assert r.Some? ==> exists k :: 0 <= k < |words[1..]| && StartsAt(text, q, words[1..][k]) && r.value.0 == q + |words[1..][k]|;
        r
  }

  /** `text[c.lo..c.hi]` is a whole clause: non-empty, free of delimiters, and followed by a delimiter or the end. */
  predicate IsClause(text: string, c: Span, delims: set<char>) {
    c.lo < c.hi <= |text|
    && (forall j :: c.lo <= j < c.hi ==> text[j] !in delims)
    && (c.hi == |text| || text[c.hi] in delims)
  }

  /** The clause that starts at `r`, as a capture. */
  function ClauseSpan(text: string, r: nat, delims: set<char>): (c: Span)
    requires ClauseStart(text, r, delims)
    ensures c.lo == r && IsClause(text, c, delims)
  {
    Span(r, ClauseEnd(text, r, delims))
  }

  /** The result of a tail whose last group is the clause. */
  predicate EndsWithClause(text: string, p: nat, r: Option<(nat, seq<Option<Span>>)>, delims: set<char>) {
    r.Some? ==> (|r.value.1| >= 1 && r.value.1[|r.value.1| - 1].Some?
      && var c := r.value.1[|r.value.1| - 1].value;
      p < c.lo && c.hi == r.value.0 && IsClause(text, c, delims))
  }

  /** `\s+(v1\s+|v2\s+)?` then the clause; with no verbs there is no group before the clause. */
  function ClauseTail(text: string, p: nat, verbs: seq<string>, delims: set<char>): (r: Option<(nat, seq<Option<Span>>)>)
    requires p <= |text|
    ensures EndsWithClause(text, p, r, delims)
    ensures r.Some? ==> |r.value.1| == (if verbs == [] then 1 else 2)
  {
    var k := SpaceRun(text, p);
    if k == 0 then None
    else
      var q := p + k;
      var viaVerb := WordThenClause(text, q, verbs, 1, delims);
      if viaVerb.Some? then
        var r := viaVerb.value.1;
        var c := ClauseSpan(text, r, delims);
        Some((c.hi, [Some(Span(q, r)), Some(c)]))
      else
        var r := Backoff(text, p + 1, q, delims);
        if r.None? then None
        else
          var c := ClauseSpan(text, r.value, delims);
          var verbGroup := if verbs == [] then [] else [None];
          Some((c.hi, verbGroup + [Some(c)]))
  }

  /** `\s+(v1|v2|...)\s+` then the clause: the verb is group 1. */
  function VerbTail(text: string, p: nat, verbs: seq<string>, delims: set<char>): (r: Option<(nat, seq<Option<Span>>)>)
    requires p <= |text|
    ensures EndsWithClause(text, p, r, delims)
    ensures r.Some? ==> (|r.value.1| == 2 && r.value.1[0].Some?
      && var v := r.value.1[0].value;
      exists k :: 0 <= k < |verbs| && StartsAt(text, v.lo, verbs[k]) && v.hi == v.lo + |verbs[k]|)
  {
    var k := SpaceRun(text, p);
    var q := p + k;
    var viaVerb := if k == 0 then None else WordThenClause(text, q, verbs, 1, delims);
    if viaVerb.None? then None
    else
      var (v, r) := viaVerb.value;
      var c := ClauseSpan(text, r, delims);
      Some((c.hi, [Some(Span(q, v)), Some(c)]))
  }

  /** `\s*:?\s*` (or `\s*:\s*`) then the clause. */
  function ColonTail(text: string, p: nat, colonRequired: bool, delims: set<char>): (r: Option<(nat, seq<Option<Span>>)>)
    requires p <= |text|
    ensures r.Some? ==> (|r.value.1| == 1 && r.value.1[0].Some?
      && var c := r.value.1[0].value; p <= c.lo && c.hi == r.value.0 && IsClause(text, c, delims))
  {
    var q := p + SpaceRun(text, p);
    var viaColon := if q < |text| && text[q] == ':'
      then Backoff(text, q + 1, q + 1 + SpaceRun(text, q + 1), delims) else None;
    var r := if viaColon.Some? then viaColon else if colonRequired then None else Backoff(text, p, q, delims);
    if r.None? then None
    else
      var c := ClauseSpan(text, r.value, delims);
      Some((c.hi, [Some(c)]))
  }

  /** `\s+(w1|w2)?\s*` then the clause. */
  function WordTail(text: string, p: nat, words: seq<string>, delims: set<char>): (r: Option<(nat, seq<Option<Span>>)>)
    requires p <= |text|
    ensures EndsWithClause(text, p, r, delims)
    ensures r.Some? ==> |r.value.1| == 2
  {
    var k := SpaceRun(text, p);
    var q := p + k;
    if k == 0 then None
    else
      var viaWord := WordThenClause(text, q, words, 0, delims);
      if viaWord.Some? then
        var (w, r) := viaWord.value;
        var c := ClauseSpan(text, r, delims);
        Some((c.hi, [Some(Span(q, w)), Some(c)]))
      else
        var r := Backoff(text, p + 1, q, delims);
        if r.None? then None
        else
          var c := ClauseSpan(text, r.value, delims);
          Some((c.hi, [None, Some(c)]))
  }

  /** `\s+([a-zA-Z][^D]*?)(?=D|$)`. */
  function LetterTail(text: string, p: nat, delims: set<char>): (r: Option<(nat, seq<Option<Span>>)>)
    requires p <= |text|
    ensures r.Some? ==> (|r.value.1| == 1 && r.value.1[0].Some?
      && var c := r.value.1[0].value;
      (p < c.lo < c.hi == r.value.0 <= |text| && IsAsciiLetter(text[c.lo])
      && (forall j :: c.lo < j < c.hi ==> text[j] !in delims) && (c.hi == |text| || text[c.hi] in delims)))
  {
    var k := SpaceRun(text, p);
    var q := p + k;
    if k > 0 && q < |text| && IsAsciiLetter(text[q]) then
      var e := ClauseEnd(text, q + 1, delims);
      Some((e, [Some(Span(q, e))]))
    else None
  }

  /** `\s*:?\s*([A-Za-z0-9\-_]+)`. */
  function TokenTail(text: string, p: nat): (r: Option<(nat, seq<Option<Span>>)>)
    requires p <= |text|
    ensures r.Some? ==> (|r.value.1| == 1 && r.value.1[0].Some?
      && var c := r.value.1[0].value;
      (p <= c.lo < c.hi == r.value.0 <= |text|
      && (forall j :: c.lo <= j < c.hi ==> IsTokenChar(text[j])) && (c.hi == |text| || !IsTokenChar(text[c.hi]))))
  {
    var q := p + SpaceRun(text, p);
    var s := if q < |text| && text[q] == ':' then q + 1 + SpaceRun(text, q + 1) else q;
    if s < |text| && IsTokenChar(text[s]) then
      var e := s + TokenRun(text, s);
      Some((e, [Some(Span(s, e))]))
    else None
  }

  /** How many capture groups a tail contributes. */
  function TailGroupCount(tail: Tail): nat {
    match tail
    case Clause(verbs) => if verbs == [] then 1 else 2
    case VerbClause(_) => 2
    case WordClause(_) => 2
    case UpTo(_) => 0
    case _ => 1
  }

  /** How many capture groups a pattern has. */
  function GroupCount(p: Pattern): nat {
    match p
    case Led(_, triggerGroup, tail, _) => (if triggerGroup then 1 else 0) + TailGroupCount(tail)
    case BeforeOnly(_) => 1
  }

  /** The end of a match of `tail` from `p`, and its capture groups. */
  function TailMatch(text: string, p: nat, tail: Tail, delims: set<char>): (r: Option<(nat, seq<Option<Span>>)>)
    requires p <= |text|
    ensures r.Some? ==> p <= r.value.0 <= |text|
    ensures r.Some? ==> |r.value.1| == TailGroupCount(tail)
  {
    match tail
    case Clause(verbs) => ClauseTail(text, p, verbs, delims)
    case VerbClause(verbs) => VerbTail(text, p, verbs, delims)
    case ColonClause(colonRequired) => ColonTail(text, p, colonRequired, delims)
    case WordClause(words) => WordTail(text, p, words, delims)
    case LetterClause => LetterTail(text, p, delims)
    case Token => TokenTail(text, p)
    case UpTo(word) =>
      var e := UpToEnd(text, p, word);
      if e.None? then None else Some((e.value, []))
  }

  /** The length of the run of token characters from `s`. */
  function TokenRun(text: string, s: nat): (k: nat)
    requires s <= |text|
    ensures s + k <= |text|
    ensures forall j :: s <= j < s + k ==> IsTokenChar(text[j])
    ensures s + k < |text| ==> !IsTokenChar(text[s + k])
    decreases |text| - s
  {
    if s < |text| && IsTokenChar(text[s]) then 1 + TokenRun(text, s + 1) else 0
  }

  /** `.*?word` from `f`: the end of the nearest `word` not separated from `f` by a line terminator. */
  function UpToEnd(text: string, f: nat, word: string): (r: Option<nat>)
    requires f <= |text|
    ensures r.Some? ==> f + |word| <= r.value <= |text| && StartsAt(text, r.value - |word|, word)
    ensures r.Some? ==> forall j :: f <= j < r.value - |word| ==> !IsLineTerminator(text[j])
    decreases |text| - f
  {
    if StartsAt(text, f, word) then Some(f + |word|)
    else if f < |text| && !IsLineTerminator(text[f]) then UpToEnd(text, f + 1, word)
    else None
  }

  /** The first trigger alternative that occurs at `i` and whose tail matches. */
  function LedAt(text: string, i: nat, triggers: seq<Trigger>, triggerGroup: bool, tail: Tail, delims: set<char>)
    : (r: Option<Match>)
    requires i <= |text|
    requires forall t :: t in triggers ==> t.first != []
    ensures r.Some? ==> r.value.start == i && i < r.value.end <= |text|
    ensures r.Some? ==> |r.value.groups| == (if triggerGroup then 1 else 0) + TailGroupCount(tail)
    decreases |triggers|
  {
    if triggers == [] then None
    else
      var pe := TriggerEnd(text, i, triggers[0]);
      var tm := if pe.Some? then TailMatch(text, pe.value, tail, delims) else None;
      if tm.Some? then
        var front := if triggerGroup then [Some(Span(i, pe.value))] else [];
        Some(Match(i, tm.value.0, front + tm.value.1))
      else LedAt(text, i, triggers[1..], triggerGroup, tail, delims)
  }

  predicate IsLetterOrSpace(c: char) { IsAsciiLetter(c) || IsSpace(c) }

  function LetterSpaceRun(text: string, i: nat): (k: nat)
    requires i <= |text|
    ensures i + k <= |text|
    ensures forall j :: i <= j < i + k ==> IsLetterOrSpace(text[j])
    decreases |text| - i
  {
    if i < |text| && IsLetterOrSpace(text[i]) then 1 + LetterSpaceRun(text, i + 1) else 0
  }

  /** `\s+only(?=D|$)` right after `e`: the end of `only`. */
  function OnlyFollows(text: string, e: nat, delims: set<char>): (r: Option<nat>)
    requires e <= |text|
    ensures r.Some? ==> e < r.value <= |text|
  {
    var k := SpaceRun(text, e);
    var o := e + k;
    if k > 0 && StartsAt(text, o, "only") && (o + 4 == |text| || text[o + 4] in delims) then Some(o + 4) else None
  }

  /** The greedy group `([a-zA-Z\s]+)` gives back characters until `\s+only` fits: the largest group end in `[lo, hi]`. */
  function OnlyAfter(text: string, lo: nat, hi: int, delims: set<char>): (r: Option<(nat, nat)>)
    requires hi <= |text|
    ensures r.Some? ==> lo <= r.value.0 <= hi && OnlyFollows(text, r.value.0, delims) == Some(r.value.1)
    decreases hi - lo + 1
  {
    if hi < lo then None
    else
      var o := OnlyFollows(text, hi, delims);
      if o.Some? then Some((hi, o.value)) else OnlyAfter(text, lo, hi - 1, delims)
  }

  /** The match a backtracking engine reports for pattern `p` starting exactly at `i`, if any. */
  function MatchAt(p: Pattern, text: string, i: nat): (r: Option<Match>)
    requires Valid(p) && i <= |text|
    ensures r.Some? ==> r.value.start == i && i < r.value.end <= |text|
    ensures r.Some? ==> |r.value.groups| == GroupCount(p)
  {
    match p
    case Led(triggers, triggerGroup, tail, delims) => LedAt(text, i, triggers, triggerGroup, tail, delims)
    case BeforeOnly(delims) =>
      if i < |text| && IsLetterOrSpace(text[i]) then
        var g := OnlyAfter(text, i + 1, i + LetterSpaceRun(text, i), delims);
        if g.Some? then Some(Match(i, g.value.1, [Some(Span(i, g.value.0))])) else None
      else None
  }

  /** The attempts at the start positions `0..n-1`: what the pattern matches at each, if anything. */
  function Attempts(p: Pattern, text: string, n: nat): (xs: seq<Option<Match>>)
    requires Valid(p) && n <= |text| + 1
    ensures |xs| == n
    ensures forall k :: 0 <= k < n && xs[k].Some? ==> xs[k].value.start == k && k < xs[k].value.end <= |text|
    decreases n
  {
    if n == 0 then [] else Attempts(p, text, n - 1) + [MatchAt(p, text, n - 1)]
  }

  /** The attempt at position `k` is the match there. */
  lemma {:induction false} AttemptsAt(p: Pattern, text: string, n: nat, k: nat)
    requires Valid(p) && k < n <= |text| + 1
    ensures Attempts(p, text, n)[k] == MatchAt(p, text, k)
    decreases n
  {
    if k < n - 1 {
      AttemptsAt(p, text, n - 1, k);
    }
  }

  /** Every successful attempt starts where it was tried and ends after it, inside the text. */
  predicate Positioned(xs: seq<Option<Match>>) {
    forall k :: 0 <= k < |xs| && xs[k].Some? ==> xs[k].value.start == k && k < xs[k].value.end < |xs|
  }

  /** The first successful attempt at or after `from`. */
  function FirstAttempt(xs: seq<Option<Match>>, from: nat): (r: Option<Match>)
    requires Positioned(xs) && from < |xs|
    ensures r.Some? ==> from <= r.value.start < r.value.end < |xs|
    decreases |xs| - from
  {
    if xs[from].Some? then xs[from]
    else if from == |xs| - 1 then None
    else FirstAttempt(xs, from + 1)
  }

  /** A first successful attempt is the attempt at its own start, and every earlier one failed. */
  lemma {:induction false} FirstAttemptFound(xs: seq<Option<Match>>, from: nat)
    requires Positioned(xs) && from < |xs| && FirstAttempt(xs, from).Some?
    ensures xs[FirstAttempt(xs, from).value.start] == FirstAttempt(xs, from)
    ensures forall j :: from <= j < FirstAttempt(xs, from).value.start ==> xs[j].None?
    decreases |xs| - from
  {
    if xs[from].None? {
      FirstAttemptFound(xs, from + 1);
    }
  }

  /** With no successful attempt, every attempt from `from` on failed. */
  lemma {:induction false} FirstAttemptMissing(xs: seq<Option<Match>>, from: nat)
    requires Positioned(xs) && from < |xs| && FirstAttempt(xs, from).None?
    ensures forall j :: from <= j < |xs| ==> xs[j].None?
    decreases |xs| - from
  {
    if from < |xs| - 1 {
      FirstAttemptMissing(xs, from + 1);
    }
  }

  /** `pattern.exec(text)` with `lastIndex == from`: the leftmost match starting at or after `from`. */
  function Exec(p: Pattern, text: string, from: nat): (r: Option<Match>)
    requires Valid(p) && from <= |text|
    ensures r.Some? ==> from <= r.value.start < r.value.end <= |text|
  {
    FirstAttempt(Attempts(p, text, |text| + 1), from)
  }

  /** `exec` reports the match at the leftmost position at or after `from` where the pattern matches. */
  lemma ExecSpec(p: Pattern, text: string, from: nat)
    requires Valid(p) && from <= |text|
    ensures var r := Exec(p, text, from);
      r.Some? ==> MatchAt(p, text, r.value.start) == r
    ensures var r := Exec(p, text, from);
      r.Some? ==> forall j :: from <= j < r.value.start ==> MatchAt(p, text, j).None?
    ensures var r := Exec(p, text, from);
      r.None? ==> forall j :: from <= j <= |text| ==> MatchAt(p, text, j).None?
  {
    var xs := Attempts(p, text, |text| + 1);
    forall j | 0 <= j <= |text|
      ensures xs[j] == MatchAt(p, text, j)
    {
      AttemptsAt(p, text, |text| + 1, j);
    }
    if Exec(p, text, from).Some? {
      FirstAttemptFound(xs, from);
    } else {
      FirstAttemptMissing(xs, from);
    }
  }

  /** Every match the loop `while ((m = pattern.exec(text)) !== null)` visits, with `lastIndex` starting at `from`. */
  function AllMatches(p: Pattern, text: string, from: nat): (ms: seq<Match>)
    requires Valid(p) && from <= |text|
    ensures forall k :: 0 <= k < |ms| ==> from <= ms[k].start < ms[k].end <= |text|
    ensures forall k :: 0 <= k < |ms| - 1 ==> ms[k].end <= ms[k + 1].start
    decreases |text| - from
  {
    var m := Exec(p, text, from);
    if m.None? then []
    else
      var rest := AllMatches(p, text, m.value.end);
      assert forall k :: 0 <= k < |rest| ==> m.value.end <= rest[k].start;
      [m.value] + rest
  }

  /** Each visited match is the match the engine reports at its own start position. */
  lemma {:induction false} AllMatchesAreMatches(p: Pattern, text: string, from: nat, k: nat)
    requires Valid(p) && from <= |text| && k < |AllMatches(p, text, from)|
    ensures MatchAt(p, text, AllMatches(p, text, from)[k].start) == Some(AllMatches(p, text, from)[k])
    decreases |text| - from
  {
    var ms := AllMatches(p, text, from);
    AllMatchesUnfold(p, text, from);
    ExecSpec(p, text, from);
    var m := Exec(p, text, from).value;
    if k == 0 {
      assert ms[0] == m;
    } else {
      var rest := AllMatches(p, text, m.end);
      assert ms[k] == rest[k - 1];
      AllMatchesAreMatches(p, text, m.end, k - 1);
    }
  }

  /** One step of the `exec` loop: the first match, then the matches from its end. */
  lemma AllMatchesUnfold(p: Pattern, text: string, from: nat)
    requires Valid(p) && from <= |text|
    ensures Exec(p, text, from).None? ==> AllMatches(p, text, from) == []
    ensures Exec(p, text, from).Some? ==>
      AllMatches(p, text, from) == [Exec(p, text, from).value] + AllMatches(p, text, Exec(p, text, from).value.end)
  {
  }

  /**
   * The scan misses no occurrence: every position at or after `from` where the pattern
   * matches either starts one of the reported matches or lies inside one of them.
   */
  lemma {:induction false} AllMatchesCovers(p: Pattern, text: string, from: nat, j: nat)
    requires Valid(p) && from <= j <= |text|
    requires MatchAt(p, text, j).Some?
    ensures exists k :: 0 <= k < |AllMatches(p, text, from)| && AllMatches(p, text, from)[k].start <= j < AllMatches(p, text, from)[k].end
    decreases |text| - from
  {
    var r := Exec(p, text, from);
    ExecSpec(p, text, from);
    assert r.Some?;
    var m := r.value;
    var ms := AllMatches(p, text, from);
    AllMatchesUnfold(p, text, from);
    if j < m.end {
      assert ms[0] == m;
    } else {
      AllMatchesCovers(p, text, m.end, j);
      var rest := AllMatches(p, text, m.end);
      var k :| 0 <= k < |rest| && rest[k].start <= j < rest[k].end;
      assert ms[k + 1] == rest[k];
    }
  }

  /** The tails that end in a clause. */
  predicate IsClauseTail(tail: Tail) {
    tail.Clause? || tail.VerbClause? || tail.ColonClause? || tail.WordClause?
  }

  /** The last group of a clause tail is the clause, and the match ends where the clause does. */
  lemma TailClause(text: string, p: nat, tail: Tail, delims: set<char>)
    requires p <= |text| && IsClauseTail(tail)
    requires TailMatch(text, p, tail, delims).Some?
    ensures var r := TailMatch(text, p, tail, delims).value;
      |r.1| >= 1 && r.1[|r.1| - 1].Some?
      && p <= r.1[|r.1| - 1].value.lo && r.1[|r.1| - 1].value.hi == r.0
      && IsClause(text, r.1[|r.1| - 1].value, delims)
  {
    match tail
    case Clause(verbs) =>
    case VerbClause(verbs) =>
    case ColonClause(colonRequired) =>
    case WordClause(words) =>
  }

  /**
   * A match of a clause tail ends with the clause: its last group is `text[lo..hi]`, which
   * holds no delimiter, starts after the trigger, and stops at the first delimiter or the end
   * of the text, where the match itself ends.
   */
  lemma ClauseOfMatch(text: string, i: nat, triggers: seq<Trigger>, triggerGroup: bool, tail: Tail, delims: set<char>)
    requires i <= |text| && forall t :: t in triggers ==> t.first != []
    requires IsClauseTail(tail)
    requires LedAt(text, i, triggers, triggerGroup, tail, delims).Some?
    ensures var m := LedAt(text, i, triggers, triggerGroup, tail, delims).value;
      |m.groups| >= 1 && m.groups[|m.groups| - 1].Some?
      && i < m.groups[|m.groups| - 1].value.lo && m.groups[|m.groups| - 1].value.hi == m.end
      && IsClause(text, m.groups[|m.groups| - 1].value, delims)
  {
    var pe := LedAtShape(text, i, triggers, triggerGroup, tail, delims);
    TailClause(text, pe, tail, delims);
    LedClause(text, i, pe, TailMatch(text, pe, tail, delims).value, triggerGroup, delims);
  }

  /** A match of the trigger alternatives is a trigger ending at `pe`, then the tail from `pe`. */
  lemma {:induction false} LedAtShape(text: string, i: nat, triggers: seq<Trigger>, triggerGroup: bool, tail: Tail, delims: set<char>)
    returns (pe: nat)
    requires i <= |text| && forall t :: t in triggers ==> t.first != []
    requires LedAt(text, i, triggers, triggerGroup, tail, delims).Some?
    ensures i < pe <= |text| && TailMatch(text, pe, tail, delims).Some?
    ensures var r := TailMatch(text, pe, tail, delims).value;
      LedAt(text, i, triggers, triggerGroup, tail, delims).value
        == Match(i, r.0, (if triggerGroup then [Some(Span(i, pe))] else []) + r.1)
    decreases |triggers|
  {
    var te := TriggerEnd(text, i, triggers[0]);
    var tm := if te.Some? then TailMatch(text, te.value, tail, delims) else None;
    if tm.Some? {
      assert triggers[0] in triggers;
      pe := te.value;
    } else {
      pe := LedAtShape(text, i, triggers[1..], triggerGroup, tail, delims);
    }
  }

  /** Putting the trigger group in front of a tail's groups keeps the clause as the last group. */
  lemma LedClause(text: string, i: nat, q: nat, r: (nat, seq<Option<Span>>), triggerGroup: bool, delims: set<char>)
    requires i < q
    requires |r.1| >= 1 && r.1[|r.1| - 1].Some?
    requires q <= r.1[|r.1| - 1].value.lo && r.1[|r.1| - 1].value.hi == r.0
    requires IsClause(text, r.1[|r.1| - 1].value, delims)
    ensures var gs := (if triggerGroup then [Some(Span(i, q))] else []) + r.1;
      |gs| >= 1 && gs[|gs| - 1] == r.1[|r.1| - 1]
      && i < gs[|gs| - 1].value.lo && gs[|gs| - 1].value.hi == r.0
      && IsClause(text, gs[|gs| - 1].value, delims)
  {
  }

  /**
   * `match[k]`: the whole match for `k == 0`, otherwise capture group `k`; `None` (JavaScript's
   * `undefined`) when the group did not take part.
   */
  function Captured(text: string, m: Match, k: nat): (r: Option<string>)
    ensures k == 0 && m.start <= m.end <= |text| ==> r == Some(text[m.start..m.end])
    ensures 0 < k <= |m.groups| && m.groups[k - 1].Some? && m.groups[k - 1].value.lo <= m.groups[k - 1].value.hi <= |text|
      ==> r == Some(text[m.groups[k - 1].value.lo..m.groups[k - 1].value.hi])
    ensures k > |m.groups| || (k > 0 && m.groups[k - 1].None?) ==> r.None?
  {
    if k == 0 then
      if m.start <= m.end <= |text| then Some(text[m.start..m.end]) else None
    else if k <= |m.groups| && m.groups[k - 1].Some? then
      var g := m.groups[k - 1].value;
      if g.lo <= g.hi <= |text| then Some(text[g.lo..g.hi]) else None
    else None
  }

  // ---------------------------------------------------------------- the user-count pattern

  /** The length of the run of `ch` characters starting at `i`. */
  function CharRun(text: string, i: nat, ch: char): (k: nat)
    ensures i + k <= |text| || (i > |text| && k == 0)
    ensures forall j :: i <= j < i + k ==> text[j] == ch
    ensures i + k < |text| ==> text[i + k] != ch
    decreases |text| - i
  {
    if i < |text| && text[i] == ch then 1 + CharRun(text, i + 1, ch) else 0
  }

  /** The words `users?|people|employees?|concurrent` may start with (the optional `s` never changes whether they match). */
  const CountWords: seq<string> := ["user", "people", "employee", "concurrent"]

  /**
   * `/(\\d+)\\s*(?:users?|people|employees?|concurrent)/` matches at `i`: the doubled backslashes
   * make it a literal backslash, one or more `d`, a backslash, any number of `s`, then one of
   * the count words; digits are not what it looks for.
   */
  predicate UserCountAt(text: string, i: nat) {
    var d := CharRun(text, i + 1, 'd');
    var k := i + 2 + d;
    i < |text| && text[i] == '\\' && d >= 1 && i + 1 + d < |text| && text[i + 1 + d] == '\\'
    && ContainsAt(text, k + CharRun(text, k, 's'), CountWords)
  }

  predicate ContainsAt(text: string, i: nat, words: seq<string>) {
    exists w :: 0 <= w < |words| && StartsAt(text, i, words[w])
  }

  predicate UserCountMatch(text: string) {
    exists i :: 0 <= i < |text| && UserCountAt(text, i)
  }

  /** A text without a backslash never yields a user count, however many users it names. */
  lemma NoBackslashNoUserCount(text: string)
    requires '\\' !in text
    ensures !UserCountMatch(text)
  {
  }
}
