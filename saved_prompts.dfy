/**
 * The saved-prompt store: a list of prompt records kept in one JSON file, read in full, changed
 * and written back by each operation, plus the text classifiers that name, categorise, describe
 * and tag a prompt when it is saved, and the phrase suggestions drawn from earlier prompts.
 *
 * The file is the `store` field of `SavedPromptsService`; a file that cannot be read or parsed is
 * `Unreadable`. Identifiers and the clock are parameters; timestamps are milliseconds, so the
 * ISO strings the service writes order like the integers here.
 */
module SavedPrompts {
  import opened Wrappers
  import opened Text
  import opened Lists
  import opened Catalog

  /** A follow-up answer: a string, or any other JSON value together with what `String(v)` prints for it in `join`. */
  datatype Answer = StringAnswer(text: string) | OtherAnswer(shown: string)

  /** A stored record. `followUpAnswers` keeps its entries in key order. */
  datatype Prompt = Prompt(
    id: string,
    name: string,
    description: string,
    category: string,
    requirements: string,
    followUpAnswers: seq<(string, Answer)>,
    llmProvider: Option<string>,
    createdAt: int,
    lastUsed: Option<int>,
    usageCount: Option<int>,
    tags: seq<string>)

  /** The argument of `savePrompt`. */
  datatype PromptData = PromptData(
    name: Option<string>,
    requirements: string,
    followUpAnswers: Option<seq<(string, Answer)>>,
    llmProvider: Option<string>)

  /** The properties an `updatePrompt` call spreads over the record; `None` means absent. */
  datatype Update = Update(
    id: Option<string>,
    name: Option<string>,
    description: Option<string>,
    category: Option<string>,
    requirements: Option<string>,
    followUpAnswers: Option<seq<(string, Answer)>>,
    llmProvider: Option<string>,
    createdAt: Option<int>,
    tags: Option<seq<string>>)

  const NoChanges := Update(None, None, None, None, None, None, None, None, None)

  /** The contents of the data file. */
  datatype Store = Records(prompts: seq<Prompt>) | Unreadable

  // ---------------------------------------------------------------- text classifiers

  /** `Object.values(answers)` as `join` prints them. */
  function Shown(answers: seq<(string, Answer)>): (r: seq<string>)
    ensures |r| == |answers|
  {
    seq(|answers|, i requires 0 <= i < |answers| =>
      match answers[i].1
      case StringAnswer(t) => t
      case OtherAnswer(s) => s)
  }

  /** The answers object, `{}` when it is missing. */
  function AnswersOf(answers: Option<seq<(string, Answer)>>): seq<(string, Answer)> {
    if answers.Some? then answers.value else []
  }

  /** The lowercased requirements followed by a space and the answers joined by spaces. */
  function SearchText(requirements: string, answers: Option<seq<(string, Answer)>>): string {
    ToLower(requirements + " " + Join(Shown(AnswersOf(answers)), " "))
  }

  /** `s.replace(/\b\w/g, l => l.toUpperCase())`: a word character that starts a word is upper-cased. */
  function TitleCase(s: string): (r: string)
    ensures |r| == |s|
  {
    seq(|s|, i requires 0 <= i < |s| =>
      if IsWordChar(s[i]) && (i == 0 || !IsWordChar(s[i - 1])) then UpperChar(s[i]) else s[i])
  }

  /** Title-casing only changes the case of letters. */
  lemma TitleCaseFolds(s: string)
    ensures ToLower(TitleCase(s)) == ToLower(s)
  {
    forall i | 0 <= i < |s|
      ensures ToLower(TitleCase(s))[i] == ToLower(s)[i]
    {
      var c := s[i];
      if 'a' <= c <= 'z' {
        assert LowerChar(UpperChar(c)) == c;
      }
    }
  }

  const NameKeywords: seq<string> := [
    "web application", "database", "api", "microservices", "e-commerce",
    "analytics", "mobile app", "data warehouse", "ml", "ai", "blockchain",
    "ebs", "erp", "crm", "cms", "blog", "portal", "dashboard"]

  /** `kws[k]` is the first keyword that occurs in `text`. */
  predicate FirstHit(text: string, kws: seq<string>, k: int) {
    0 <= k < |kws| && Contains(text, kws[k]) && forall j :: 0 <= j < k ==> !Contains(text, kws[j])
  }

  /** The first of `kws` that occurs in `text`. */
  function FirstFound(text: string, kws: seq<string>): (r: Option<string>)
    ensures r.Some? ==> Contains(text, r.value)
    ensures r.Some? ==> exists k :: 0 <= k < |kws| && kws[k] == r.value && forall j :: 0 <= j < k ==> !Contains(text, kws[j])
    ensures r.None? <==> !ContainsAny(text, kws)
  {
    if kws == [] then None
    else if Contains(text, kws[0]) then Some(kws[0])
    else
      var r := FirstFound(text, kws[1..]);
      assert forall k :: 1 <= k < |kws| ==> kws[k] == kws[1..][k - 1];
      assert r.Some? ==> exists k :: 0 <= k < |kws| && kws[k] == r.value && forall j :: 0 <= j < k ==> !Contains(text, kws[j]) by {
        if r.Some? {
          var k :| 0 <= k < |kws[1..]| && kws[1..][k] == r.value && forall j :: 0 <= j < k ==> !Contains(text, kws[1..][j]);
          assert kws[k + 1] == r.value;
          forall j | 0 <= j < k + 1
            ensures !Contains(text, kws[j])
          {
            if j > 0 { assert kws[j] == kws[1..][j - 1]; }
          }
        }
      }
      assert ContainsAny(text, kws) ==> ContainsAny(text, kws[1..]) by {
        if ContainsAny(text, kws) {
          var k :| 0 <= k < |kws| && Contains(text, kws[k]);
          assert k > 0 && kws[1..][k - 1] == kws[k];
        }
      }
      r
  }

  /** `generatePromptName` over the keyword table `kws`. */
  function PromptNameWith(requirements: string, kws: seq<string>): string {
    var lower := ToLower(requirements);
    match FirstFound(lower, kws)
    case Some(k) => "BOM for " + TitleCase(k) + " System"
    case None =>
      var words := SplitSpace(lower);
      "BOM for " + TitleCase(Join(words[..if |words| < 4 then |words| else 4], " "))
  }

  /** `generatePromptName`. */
  function GeneratePromptName(requirements: string): string {
    PromptNameWith(requirements, NameKeywords)
  }

  lemma LowerBomFor()
    ensures ToLower("BOM for ") == "bom for "
    ensures ToLower(" System") == " system"
  {
    LowerWord("BOM for ", "bom for ");
    LowerWord(" System", " system");
  }

  /** `lower` is `s` with its capitals lowered, character by character. */
  lemma LowerWord(s: string, lower: string)
    requires |s| == |lower| && forall i :: 0 <= i < |s| ==> LowerChar(s[i]) == lower[i]
    ensures ToLower(s) == lower
  {
  }

  /** Every name opens with "BOM for ". */
  lemma PromptNamePrefix(requirements: string, kws: seq<string>)
    ensures var r := PromptNameWith(requirements, kws);
      |r| >= 8 && r[..8] == "BOM for "
  {
    match FirstFound(ToLower(requirements), kws)
    case Some(k) =>
      assert PromptNameWith(requirements, kws) == "BOM for " + (TitleCase(k) + " System");
    case None =>
      var words := SplitSpace(ToLower(requirements));
      assert PromptNameWith(requirements, kws) == "BOM for " + TitleCase(Join(words[..if |words| < 4 then |words| else 4], " "));
  }

  /**
   * When a keyword of the table occurs in the lowercased requirements, the name is, up to case,
   * "BOM for " with the first such keyword and " System".
   */
  lemma PromptNameKeyword(requirements: string, kws: seq<string>)
    requires ContainsAny(ToLower(requirements), kws)
    ensures exists k ::
      FirstHit(ToLower(requirements), kws, k) && ToLower(PromptNameWith(requirements, kws)) == "bom for " + ToLower(kws[k]) + " system"
  {
    var lower := ToLower(requirements);
    var k := FirstFound(lower, kws).value;
    var i :| 0 <= i < |kws| && kws[i] == k && forall j :: 0 <= j < i ==> !Contains(lower, kws[j]);
    assert FirstHit(lower, kws, i);
    TitleCaseFolds(k);
    LowerBomFor();
    ToLowerAppend("BOM for " + TitleCase(k), " System");
    ToLowerAppend("BOM for ", TitleCase(k));
  }

  /** With no keyword in the requirements, the name is, up to case, "BOM for " with the first four words. */
  lemma PromptNameWords(requirements: string, kws: seq<string>)
    requires !ContainsAny(ToLower(requirements), kws)
    ensures var words := SplitSpace(ToLower(requirements));
      ToLower(PromptNameWith(requirements, kws)) == "bom for " + ToLower(Join(words[..if |words| < 4 then |words| else 4], " "))
  {
    var words := SplitSpace(ToLower(requirements));
    var first := Join(words[..if |words| < 4 then |words| else 4], " ");
    TitleCaseFolds(first);
    LowerBomFor();
    ToLowerAppend("BOM for ", TitleCase(first));
  }

  /** A keyword table: names, each with the keywords that select it, in declaration order. */
  type Table = seq<(string, seq<string>)>

  const PromptCategories: Table := [
    ("Web Applications", ["web", "website", "portal", "frontend", "backend", "api", "rest"]),
    ("E-commerce", ["ecommerce", "e-commerce", "shop", "store", "payment", "cart", "product"]),
    ("Enterprise Applications", ["erp", "crm", "ebs", "enterprise", "business", "workflow"]),
    ("Data & Analytics", ["data", "analytics", "warehouse", "etl", "bi", "reporting", "dashboard"]),
    ("AI & Machine Learning", ["ai", "ml", "machine learning", "neural", "model", "training"]),
    ("Mobile Applications", ["mobile", "ios", "android", "app store", "react native"]),
    ("Infrastructure", ["infrastructure", "server", "compute", "storage", "network", "load balancer"]),
    ("Database Systems", ["database", "mysql", "postgresql", "oracle", "mongodb", "redis"]),
    ("Content Management", ["cms", "blog", "content", "publishing", "media", "document"]),
    ("IoT & Edge", ["iot", "edge", "sensor", "device", "embedded", "real-time"])]

  const TagKeywords: Table := [
    ("high-availability", ["high availability", "ha", "99.9", "uptime", "failover"]),
    ("scalable", ["scale", "scalable", "elastic", "auto-scaling", "growth"]),
    ("secure", ["security", "secure", "encryption", "ssl", "authentication"]),
    ("cloud-native", ["cloud", "kubernetes", "container", "microservices"]),
    ("real-time", ["real-time", "real time", "streaming", "instant", "live"]),
    ("global", ["global", "worldwide", "multi-region", "international"]),
    ("backup", ["backup", "disaster recovery", "dr", "snapshot"]),
    ("monitoring", ["monitoring", "logging", "observability", "metrics"])]

  /** The entry at `k` is the first whose keywords occur in `text`. */
  predicate FirstSelected(text: string, table: Table, k: int) {
    0 <= k < |table| && ContainsAny(text, table[k].1) &&
    forall j :: 0 <= j < k ==> !ContainsAny(text, table[j].1)
  }

  /** The name of the first entry whose keywords occur in `text`, else `fallback`. */
  function Classify(text: string, table: Table, fallback: string): string {
    if table == [] then fallback
    else if ContainsAny(text, table[0].1) then table[0].0
    else Classify(text, table[1..], fallback)
  }

  /** The first selected entry wins; with none selected the fallback is returned. */
  lemma {:induction false} ClassifySpec(text: string, table: Table, fallback: string)
    ensures (exists k :: FirstSelected(text, table, k) && Classify(text, table, fallback) == table[k].0) ||
            ((forall k :: 0 <= k < |table| ==> !ContainsAny(text, table[k].1)) && Classify(text, table, fallback) == fallback)
  {
    if table != [] && !ContainsAny(text, table[0].1) {
      ClassifySpec(text, table[1..], fallback);
      if exists k :: FirstSelected(text, table[1..], k) && Classify(text, table[1..], fallback) == table[1..][k].0 {
        var k :| FirstSelected(text, table[1..], k) && Classify(text, table[1..], fallback) == table[1..][k].0;
        forall j | 0 <= j < k + 1
          ensures !ContainsAny(text, table[j].1)
        {
          if j > 0 { assert table[j] == table[1..][j - 1]; }
        }
        assert FirstSelected(text, table, k + 1);
      } else {
        forall k | 0 <= k < |table|
          ensures !ContainsAny(text, table[k].1)
        {
          if k > 0 { assert table[k] == table[1..][k - 1]; }
        }
      }
    } else if table != [] {
      assert FirstSelected(text, table, 0);
    }
  }

  /** `categorizePrompt`. */
  function CategorizePrompt(requirements: string, answers: Option<seq<(string, Answer)>>): string {
    Classify(SearchText(requirements, answers), PromptCategories, "General Applications")
  }

  /** The names of the entries whose keywords occur in `text`, in table order. */
  function Selected(text: string, table: Table): seq<string> {
    if table == [] then []
    else (if ContainsAny(text, table[0].1) then [table[0].0] else []) + Selected(text, table[1..])
  }

  predicate DistinctNames(table: Table) {
    forall i, j :: 0 <= i < j < |table| ==> table[i].0 != table[j].0
  }

  /** Exactly the selected names, each once when the table's names are distinct. */
  lemma {:induction false} SelectedSpec(text: string, table: Table)
    ensures forall x :: x in Selected(text, table) <==> exists k :: 0 <= k < |table| && table[k].0 == x && ContainsAny(text, table[k].1)
    ensures DistinctNames(table) ==> NoDuplicates(Selected(text, table))
  {
    if table != [] {
      SelectedSpec(text, table[1..]);
      var rest := Selected(text, table[1..]);
      forall x
        ensures x in rest <==> exists k :: 1 <= k < |table| && table[k].0 == x && ContainsAny(text, table[k].1)
      {
        if x in rest {
          var k :| 0 <= k < |table[1..]| && table[1..][k].0 == x && ContainsAny(text, table[1..][k].1);
          assert table[k + 1] == table[1..][k];
        }
        if exists k :: 1 <= k < |table| && table[k].0 == x && ContainsAny(text, table[k].1) {
          var k :| 1 <= k < |table| && table[k].0 == x && ContainsAny(text, table[k].1);
          assert table[1..][k - 1] == table[k];
        }
      }
      if DistinctNames(table) {
        assert DistinctNames(table[1..]) by {
          forall i, j | 0 <= i < j < |table[1..]|
            ensures table[1..][i].0 != table[1..][j].0
          {
            assert table[1..][i] == table[i + 1] && table[1..][j] == table[j + 1];
          }
        }
        assert table[0].0 !in rest;
      }
    }
  }

  lemma TagNamesDistinct()
    ensures DistinctNames(TagKeywords)
  {
  }

  /** `extractTags` over the table `table`: the first five selected names. */
  function TagsWith(text: string, table: Table): seq<string> {
    var all := Selected(text, table);
    all[..if |all| < 5 then |all| else 5]
  }

  /** `extractTags`. */
  function ExtractTags(requirements: string, answers: Option<seq<(string, Answer)>>): seq<string> {
    TagsWith(SearchText(requirements, answers), TagKeywords)
  }

  /** At most five distinct tags, in table order, each selected by the text; all of them when there are five or fewer. */
  lemma ExtractTagsSpec(requirements: string, answers: Option<seq<(string, Answer)>>)
    ensures var r := ExtractTags(requirements, answers);
      var all := Selected(SearchText(requirements, answers), TagKeywords);
      |r| <= 5 && NoDuplicates(r) && r <= all && (|all| <= 5 ==> r == all)
    ensures forall x :: x in ExtractTags(requirements, answers) ==>
      exists k :: 0 <= k < |TagKeywords| && TagKeywords[k].0 == x && ContainsAny(SearchText(requirements, answers), TagKeywords[k].1)
  {
    var text := SearchText(requirements, answers);
    TagNamesDistinct();
    SelectedSpec(text, TagKeywords);
    var all := Selected(text, TagKeywords);
    var r := ExtractTags(requirements, answers);
    assert r == all[..|r|];
    forall i, j | 0 <= i < j < |r|
      ensures r[i] != r[j]
    {
      assert r[i] == all[i] && r[j] == all[j];
    }
    forall x | x in r
      ensures x in all
    {
      var i :| 0 <= i < |r| && r[i] == x;
      assert all[i] == x;
    }
  }

  /** `s.substring(0, n)`. */
  function Prefix(s: string, n: nat): (r: string)
    ensures |r| == if |s| < n then |s| else n
    ensures r <= s
  {
    if |s| <= n then s else s[..n]
  }

  /** The technical detail one answer contributes: user counts first, then sizes. */
  function Detail(a: Answer): Option<string> {
    match a
    case OtherAnswer(_) => None
    case StringAnswer(t) =>
      var lower := ToLower(t);
      if Contains(lower, "user") || Contains(lower, "concurrent") then Some("Users: " + Prefix(t, 50))
      else if Contains(lower, "gb") || Contains(lower, "cpu") then Some("Specs: " + Prefix(t, 50))
      else None
  }

  /** `generateDescription`. */
  function GenerateDescription(requirements: string, answers: Option<seq<(string, Answer)>>): string {
    var ans := AnswersOf(answers);
    var desc := Prefix(requirements, 100) + (if |requirements| > 100 then "..." else "");
    var details := Somes(seq(|ans|, i requires 0 <= i < |ans| => Detail(ans[i].1)));
    if details == [] then desc else desc + " | " + Join(details, " | ")
  }

  /**
   * The description opens with the first 100 characters of the requirements. Longer requirements
   * are followed by "..."; shorter ones by nothing or by the " | " that opens the details, and the
   * details only come when an answer mentions users, concurrency, GB or CPU.
   */
  lemma DescriptionSpec(requirements: string, answers: Option<seq<(string, Answer)>>)
    ensures var r := GenerateDescription(requirements, answers);
      |requirements| > 100 ==> |r| >= 103 && r[..100] == requirements[..100] && r[100..103] == "..."
    ensures var r := GenerateDescription(requirements, answers);
      var n := |requirements|;
      n <= 100 ==> |r| >= n && r[..n] == requirements && (r == requirements || (|r| >= n + 3 && r[n..n + 3] == " | "))
    ensures var ans := AnswersOf(answers);
      (forall i :: 0 <= i < |ans| ==> Detail(ans[i].1).None?) ==>
        GenerateDescription(requirements, answers) == Prefix(requirements, 100) + (if |requirements| > 100 then "..." else "")
  {
    var ans := AnswersOf(answers);
    var opts := seq(|ans|, i requires 0 <= i < |ans| => Detail(ans[i].1));
    if forall i :: 0 <= i < |ans| ==> Detail(ans[i].1).None? {
      SomesNone(opts);
    }
  }

  // ---------------------------------------------------------------- records

  /** The recency a record is ordered by: `lastUsed || createdAt`. */
  function Recency(p: Prompt): real {
    (if p.lastUsed.Some? then p.lastUsed.value else p.createdAt) as real
  }

  /** `getAllPrompts`: the records, most recently used or created first; nothing when the file cannot be read. */
  function AllPrompts(s: Store): seq<Prompt> {
    match s
    case Unreadable => []
    case Records(ps) => SortDesc(ps, Recency)
  }

  /** The listing is newest first and holds exactly the stored records. */
  lemma AllPromptsSpec(s: Store)
    ensures SortedDesc(AllPrompts(s), Recency)
    ensures s.Records? ==> multiset(AllPrompts(s)) == multiset(s.prompts)
    ensures s.Unreadable? ==> AllPrompts(s) == []
  {
    if s.Records? {
      SortDescSpec(s.prompts, Recency);
    }
  }

  /** The record `savePrompt` builds. */
  function NewPrompt(data: PromptData, id: string, now: int): (p: Prompt)
    ensures p.id == id && p.requirements == data.requirements && p.llmProvider == data.llmProvider
    ensures p.createdAt == now && p.lastUsed == Some(now) && p.usageCount == Some(1)
    ensures Truthy(data.name) ==> p.name == data.name.value
    ensures p.followUpAnswers == if data.followUpAnswers.Some? then data.followUpAnswers.value else []
  {
    Prompt(
      id,
      if Truthy(data.name) then data.name.value else GeneratePromptName(data.requirements),
      GenerateDescription(data.requirements, data.followUpAnswers),
      CategorizePrompt(data.requirements, data.followUpAnswers),
      data.requirements,
      AnswersOf(data.followUpAnswers),
      data.llmProvider,
      now,
      Some(now),
      Some(1),
      ExtractTags(data.requirements, data.followUpAnswers))
  }

  /** A saved record always has a name: the given one, or a generated "BOM for ..." one. */
  lemma NewPromptNamed(data: PromptData, id: string, now: int)
    ensures NewPrompt(data, id, now).name != ""
    ensures !Truthy(data.name) ==> NewPrompt(data, id, now).name[..8] == "BOM for "
  {
    PromptNamePrefix(data.requirements, NameKeywords);
  }

  /** The position of the first record with `id` (`findIndex`). */
  function IndexOf(ps: seq<Prompt>, id: string): (r: Option<nat>)
    ensures r.Some? ==> r.value < |ps| && ps[r.value].id == id && forall j :: 0 <= j < r.value ==> ps[j].id != id
    ensures r.None? ==> forall j :: 0 <= j < |ps| ==> ps[j].id != id
  {
    if ps == [] then None
    else if ps[0].id == id then Some(0)
    else
      match IndexOf(ps[1..], id)
      case None => None
      case Some(i) => Some(i + 1)
  }

  /** No record before position `k` has `id`. */
  predicate FirstWithId(ps: seq<Prompt>, k: nat, id: string)
    requires k <= |ps|
  {
    forall j :: 0 <= j < k ==> ps[j].id != id
  }

  /** The record after a use: `lastUsed` is now and the count grows by one, a missing count counting as 0. */
  function Touched(p: Prompt, now: int): Prompt {
    p.(lastUsed := Some(now), usageCount := Some((if p.usageCount.Some? then p.usageCount.value else 0) + 1))
  }

  /** `{...p, ...u}`. */
  function Apply(p: Prompt, u: Update): Prompt {
    p.(id := if u.id.Some? then u.id.value else p.id,
       name := if u.name.Some? then u.name.value else p.name,
       description := if u.description.Some? then u.description.value else p.description,
       category := if u.category.Some? then u.category.value else p.category,
       requirements := if u.requirements.Some? then u.requirements.value else p.requirements,
       followUpAnswers := if u.followUpAnswers.Some? then u.followUpAnswers.value else p.followUpAnswers,
       llmProvider := if u.llmProvider.Some? then u.llmProvider else p.llmProvider,
       createdAt := if u.createdAt.Some? then u.createdAt.value else p.createdAt,
       tags := if u.tags.Some? then u.tags.value else p.tags)
  }

  /** The record `updatePrompt` writes: the updates spread over it, then the use recorded. */
  function Merge(p: Prompt, u: Update, now: int): Prompt {
    Touched(Apply(p, u), now)
  }

  /**
   * Updates replace exactly the properties they carry, while `lastUsed` and the count always
   * follow the use; an update without properties is an `incrementUsage`.
   */
  lemma MergeSpec(p: Prompt, u: Update, now: int)
    ensures var m := Merge(p, u, now);
      m.lastUsed == Some(now) &&
      m.usageCount == Some((if p.usageCount.Some? then p.usageCount.value else 0) + 1) &&
      (u.name.Some? ==> m.name == u.name.value) && (u.name.None? ==> m.name == p.name) &&
      (u.requirements.Some? ==> m.requirements == u.requirements.value) &&
      (u.requirements.None? ==> m.requirements == p.requirements) &&
      (u.id.None? ==> m.id == p.id) && (u.createdAt.None? ==> m.createdAt == p.createdAt)
    ensures Merge(p, NoChanges, now) == Touched(p, now)
  {
  }

  /** The stored records without those whose id is `id` (`filter(p => p.id !== id)`). */
  function WithoutId(ps: seq<Prompt>, id: string): seq<Prompt> {
    if ps == [] then []
    else WithoutId(ps[..|ps| - 1], id) + (if ps[|ps| - 1].id == id then [] else [ps[|ps| - 1]])
  }

  /** No record with the id survives; every other record does, in its order. */
  lemma WithoutIdSpec(ps: seq<Prompt>, id: string)
    ensures forall j :: 0 <= j < |WithoutId(ps, id)| ==> WithoutId(ps, id)[j].id != id
    ensures forall x :: x in WithoutId(ps, id) <==> x in ps && x.id != id
    ensures (forall j :: 0 <= j < |ps| ==> ps[j].id != id) ==> WithoutId(ps, id) == ps
  {
    WithoutIdMembers(ps, id);
    if forall j :: 0 <= j < |ps| ==> ps[j].id != id {
      WithoutIdUnmatched(ps, id);
    }
  }

  /** The records kept are exactly the stored ones with another id. */
  lemma {:induction false} WithoutIdMembers(ps: seq<Prompt>, id: string)
    ensures forall x :: x in WithoutId(ps, id) <==> x in ps && x.id != id
  {
    if ps != [] {
      var n := |ps| - 1;
      WithoutIdMembers(ps[..n], id);
      assert ps == ps[..n] + [ps[n]];
    }
  }

  /** With no record carrying the id, nothing is removed. */
  lemma {:induction false} WithoutIdUnmatched(ps: seq<Prompt>, id: string)
    requires forall x :: x in ps ==> x.id != id
    ensures WithoutId(ps, id) == ps
  {
    if ps != [] {
      var n := |ps| - 1;
      assert forall x :: x in ps[..n] ==> x in ps;
      WithoutIdUnmatched(ps[..n], id);
      assert ps[n] in ps;
      var w := WithoutId(ps[..n], id);
      assert WithoutId(ps, id) == w + [ps[n]];
      assert w + [ps[n]] == ps;
    }
  }


  /** Removal keeps the relative order of the remaining records. */
  lemma {:induction false} WithoutIdKeepsOrder(a: seq<Prompt>, b: seq<Prompt>, id: string)
    ensures WithoutId(a + b, id) == WithoutId(a, id) + WithoutId(b, id)
    decreases |b|
  {
    if b == [] {
      assert a + b == a;
    } else {
      var n := |b| - 1;
      WithoutIdKeepsOrder(a, b[..n], id);
      var last := if b[n].id == id then [] else [b[n]];
      assert (a + b)[..|a + b| - 1] == a + b[..n];
      assert (a + b)[|a + b| - 1] == b[n];
      assert WithoutId(a + b, id) == (WithoutId(a, id) + WithoutId(b[..n], id)) + last;
      assert WithoutId(b, id) == WithoutId(b[..n], id) + last;
    }
  }

  // ---------------------------------------------------------------- suggestions

  /** The lowercased runs of three consecutive words of `requirements`. */
  function Trigrams(requirements: string): (r: seq<string>)
    ensures var words := SplitSpace(requirements);
      |r| == if |words| < 2 then 0 else |words| - 2
  {
    var words := SplitSpace(requirements);
    seq(if |words| < 2 then 0 else |words| - 2, i requires 0 <= i < |words| - 2 => ToLower(Join(words[i..i + 3], " ")))
  }

  /** Every prompt's trigrams, prompt by prompt. */
  function Phrases(prompts: seq<Prompt>): seq<string> {
    if prompts == [] then []
    else Phrases(prompts[..|prompts| - 1]) + Trigrams(prompts[|prompts| - 1].requirements)
  }

  /** Each distinct phrase with its number of occurrences, in order of first occurrence. */
  function Tally(phrases: seq<string>): (r: seq<(string, nat)>)
    ensures |r| == |Dedup(phrases)|
  {
    var keys := Dedup(phrases);
    seq(|keys|, i requires 0 <= i < |keys| => (keys[i], multiset(phrases)[keys[i]]))
  }

  function Frequency(e: (string, nat)): real { e.1 as real }

  /** The ten most frequent phrases, ties in order of first occurrence. */
  function Top(entries: seq<(string, nat)>): (r: seq<string>)
    ensures |r| <= 10
  {
    var sorted := SortDesc(entries, Frequency);
    seq(if |sorted| < 10 then |sorted| else 10, i requires 0 <= i < |sorted| && i < 10 => sorted[i].0)
  }

  /** The phrases that contain `q` or are contained in it. */
  function Related(phrases: seq<string>, q: string): seq<string> {
    if phrases == [] then []
    else
      var p := phrases[|phrases| - 1];
      Related(phrases[..|phrases| - 1], q) + (if Contains(p, q) || Contains(q, p) then [p] else [])
  }

  lemma {:induction false} RelatedSpec(phrases: seq<string>, q: string)
    ensures |Related(phrases, q)| <= |phrases|
    ensures forall x :: x in Related(phrases, q) <==> x in phrases && (Contains(x, q) || Contains(q, x))
    ensures NoDuplicates(phrases) ==> NoDuplicates(Related(phrases, q))
  {
    if phrases != [] {
      var n := |phrases| - 1;
      RelatedSpec(phrases[..n], q);
      assert phrases == phrases[..n] + [phrases[n]];
      if NoDuplicates(phrases) {
        assert NoDuplicates(phrases[..n]) by {
          forall i, j | 0 <= i < j < n
            ensures phrases[..n][i] != phrases[..n][j]
          {
            assert phrases[..n][i] == phrases[i] && phrases[..n][j] == phrases[j];
          }
        }
        assert phrases[n] !in phrases[..n];
      }
    }
  }

  /** `getPromptSuggestions` over the listed prompts. */
  function Suggestions(prompts: seq<Prompt>, partialText: string): seq<string> {
    Related(Top(Tally(Phrases(prompts))), ToLower(partialText))
  }

  /** An element found at two places is counted twice. */
  lemma CountedTwice<T>(s: seq<T>, i: nat, j: nat)
    requires i < j < |s| && s[i] == s[j]
    ensures multiset(s)[s[i]] >= 2
  {
    assert s == s[..j] + [s[j]] + s[j + 1..];
    assert s[..j][i] == s[i];
  }

  /** Two entries of a permutation of `entries` with the same name are at the same place. */
  lemma SortedNamesDistinct(entries: seq<(string, nat)>, sorted: seq<(string, nat)>, i: nat, j: nat)
    requires NoDuplicates(seq(|entries|, e requires 0 <= e < |entries| => entries[e].0))
    requires multiset(sorted) == multiset(entries)
    requires i < j < |sorted|
    ensures sorted[i].0 != sorted[j].0
  {
    var names := seq(|entries|, e requires 0 <= e < |entries| => entries[e].0);
    assert sorted[i] in multiset(entries) && sorted[j] in multiset(entries);
    var a :| 0 <= a < |entries| && entries[a] == sorted[i];
    var b :| 0 <= b < |entries| && entries[b] == sorted[j];
    assert names[a] == entries[a].0 && names[b] == entries[b].0;
    if sorted[i].0 == sorted[j].0 {
      assert a == b;
      EntryOnce(entries, a, names);
      CountedTwice(sorted, i, j);
    }
  }

  /** The top phrases are distinct, and each names one of the entries. */
  lemma TopSpec(entries: seq<(string, nat)>)
    requires NoDuplicates(seq(|entries|, i requires 0 <= i < |entries| => entries[i].0))
    ensures NoDuplicates(Top(entries))
    ensures forall x :: x in Top(entries) ==> exists i :: 0 <= i < |entries| && entries[i].0 == x
  {
    var sorted := SortDesc(entries, Frequency);
    SortDescSpec(entries, Frequency);
    var r := Top(entries);
    forall x | x in r
      ensures exists i :: 0 <= i < |entries| && entries[i].0 == x
    {
      var k :| 0 <= k < |r| && r[k] == x;
      assert sorted[k] in multiset(entries);
    }
    forall i, j | 0 <= i < j < |r|
      ensures r[i] != r[j]
    {
      SortedNamesDistinct(entries, sorted, i, j);
    }
  }

  /** An entry whose name occurs once occurs once. */
  lemma {:induction false} EntryOnce(entries: seq<(string, nat)>, a: nat, names: seq<string>)
    requires a < |entries| && names == seq(|entries|, e requires 0 <= e < |entries| => entries[e].0)
    requires NoDuplicates(names)
    ensures multiset(entries)[entries[a]] == 1
    decreases |entries|
  {
    var n := |entries| - 1;
    assert entries == entries[..n] + [entries[n]];
    var front := seq(n, e requires 0 <= e < n => entries[e].0);
    assert forall e :: 0 <= e < n ==> front[e] == names[e];
    if a < n {
      EntryOnce(entries[..n], a, front);
      assert entries[n] != entries[a] by { assert names[n] != names[a]; }
    } else {
      assert entries[a] !in entries[..n] by {
        forall e | 0 <= e < n
          ensures entries[..n][e] != entries[a]
        {
          assert names[e] != names[a];
        }
      }
    }
  }

  lemma TopNames(entries: seq<(string, nat)>)
    ensures var sorted := SortDesc(entries, Frequency);
      forall j :: 0 <= j < |sorted| && j < 10 ==> sorted[j].0 in Top(entries)
  {
    var sorted := SortDesc(entries, Frequency);
    forall j | 0 <= j < |sorted| && j < 10
      ensures sorted[j].0 in Top(entries)
    {
      assert Top(entries)[j] == sorted[j].0;
    }
  }

  /** An entry left out of the top ten is no more frequent than any entry that made it. */
  lemma TopDominates(entries: seq<(string, nat)>, e: (string, nat), i: nat)
    requires e in entries && e.0 !in Top(entries) && i < |Top(entries)|
    ensures Frequency(e) <= Frequency(SortDesc(entries, Frequency)[i])
  {
    var sorted := SortDesc(entries, Frequency);
    SortDescSpec(entries, Frequency);
    assert e in multiset(sorted);
    var j :| 0 <= j < |sorted| && sorted[j] == e;
    TopNames(entries);
  }

  /** A phrase left out of the top ten is used no more often than any that made it. */
  lemma TopIsMostFrequent(phrases: seq<string>, x: string, y: string)
    requires x in Top(Tally(phrases)) && y in phrases && y !in Top(Tally(phrases))
    ensures multiset(phrases)[y] <= multiset(phrases)[x]
  {
    var entries := Tally(phrases);
    var keys := Dedup(phrases);
    var sorted := SortDesc(entries, Frequency);
    var r := Top(entries);
    var i :| 0 <= i < |r| && r[i] == x;
    var ky :| 0 <= ky < |keys| && keys[ky] == y;
    assert entries[ky] == (y, multiset(phrases)[y]);
    TopDominates(entries, entries[ky], i);
    SortDescSpec(entries, Frequency);
    assert sorted[i] in multiset(entries);
    var ki :| 0 <= ki < |entries| && entries[ki] == sorted[i];
    assert keys[ki] == x;
  }

  /**
   * At most ten suggestions, all distinct; each is a three-word phrase of a listed prompt and
   * contains the lowercased partial text or is contained in it.
   */
  lemma SuggestionsSpec(prompts: seq<Prompt>, partialText: string)
    ensures var r := Suggestions(prompts, partialText);
      |r| <= 10 && NoDuplicates(r) &&
      forall i :: 0 <= i < |r| ==>
        r[i] in Phrases(prompts) && (Contains(r[i], ToLower(partialText)) || Contains(ToLower(partialText), r[i]))
  {
    var phrases := Phrases(prompts);
    var entries := Tally(phrases);
    var keys := Dedup(phrases);
    assert seq(|entries|, i requires 0 <= i < |entries| => entries[i].0) == keys;
    TopSpec(entries);
    RelatedSpec(Top(entries), ToLower(partialText));
    var r := Suggestions(prompts, partialText);
    forall i | 0 <= i < |r|
      ensures r[i] in phrases
    {
      assert r[i] in Top(entries);
      var k :| 0 <= k < |entries| && entries[k].0 == r[i];
      assert keys[k] in keys;
    }
  }

  // ---------------------------------------------------------------- the service

  class SavedPromptsService {
    /** The data file. */
    var store: Store

    /** A missing data file is created holding `[]`. */
    constructor(onDisk: Option<Store>)
      ensures store == if onDisk.Some? then onDisk.value else Records([])
    {
      store := if onDisk.Some? then onDisk.value else Records([]);
    }

    /** `getPromptById`: the first listed record with the id, if there is one. */
    method GetPromptById(id: string) returns (r: Option<Prompt>)
      ensures r.Some? ==> r.value in AllPrompts(store) && r.value.id == id
      ensures r.Some? ==> exists k :: 0 <= k < |AllPrompts(store)| && AllPrompts(store)[k] == r.value && FirstWithId(AllPrompts(store), k, id)
      ensures r.None? <==> forall p :: p in AllPrompts(store) ==> p.id != id
    {
      var prompts := AllPrompts(store);
      var index := IndexOf(prompts, id);
      if index.Some? {
        r := Some(prompts[index.value]);
      } else {
        r := None;
      }
    }

    /** `savePrompt`: the listed records with the new one appended are written back. */
    method SavePrompt(data: PromptData, id: string, now: int) returns (saved: Prompt)
      modifies this
      ensures saved == NewPrompt(data, id, now)
      ensures store == Records(AllPrompts(old(store)) + [saved])
    {
      var prompts := AllPrompts(store);
      saved := NewPrompt(data, id, now);
      prompts := prompts + [saved];
      store := Records(prompts);
    }

    /** `updatePrompt`: "Prompt not found" leaves the file alone; otherwise only the first record with the id changes. */
    method UpdatePrompt(id: string, updates: Update, now: int) returns (r: Result<Prompt>)
      modifies this
      ensures var ps := AllPrompts(old(store));
        match IndexOf(ps, id)
        case None => r == Err("Prompt not found") && store == old(store)
        case Some(i) => r == Ok(Merge(ps[i], updates, now)) && store == Records(ps[i := Merge(ps[i], updates, now)])
    {
      var prompts := AllPrompts(store);
      var index := IndexOf(prompts, id);
      if index.None? {
        return Err("Prompt not found");
      }
      var i := index.value;
      prompts := prompts[i := Merge(prompts[i], updates, now)];
      store := Records(prompts);
      r := Ok(prompts[i]);
    }

    /** `incrementUsage`: an unknown id changes nothing. */
    method IncrementUsage(id: string, now: int)
      modifies this
      ensures var ps := AllPrompts(old(store));
        match IndexOf(ps, id)
        case None => store == old(store)
        case Some(i) => store == Records(ps[i := Touched(ps[i], now)])
    {
      var prompts := AllPrompts(store);
      var index := IndexOf(prompts, id);
      if index.Some? {
        var i := index.value;
        prompts := prompts[i := Touched(prompts[i], now)];
        store := Records(prompts);
      }
    }

    /** `deletePrompt`: the listing without the id is written back. */
    method DeletePrompt(id: string) returns (ok: bool)
      modifies this
      ensures ok
      ensures store == Records(WithoutId(AllPrompts(old(store)), id))
    {
      var prompts := AllPrompts(store);
      store := Records(WithoutId(prompts, id));
      ok := true;
    }

    /** `getPromptSuggestions`: counts the trigrams of the listed prompts and keeps the related top ten. */
    method GetPromptSuggestions(partialText: string) returns (r: seq<string>)
      ensures r == Suggestions(AllPrompts(store), partialText)
    {
      var phrases := CollectPhrases(AllPrompts(store));
      var entries := CountPhrases(phrases);
      r := Related(Top(entries), ToLower(partialText));
    }
  }

  /** The inner loop of `getPromptSuggestions`: one prompt's trigrams. */
  method CollectTrigrams(requirements: string) returns (phrases: seq<string>)
    ensures phrases == Trigrams(requirements)
  {
    var words := SplitSpace(requirements);
    phrases := [];
    var i := 0;
    while i < |words| - 2
      invariant 0 <= i <= (if |words| < 2 then 0 else |words| - 2)
      invariant phrases == Trigrams(requirements)[..i]
    {
      phrases := phrases + [ToLower(Join(words[i..i + 3], " "))];
      i := i + 1;
    }
  }

  /** The first loop of `getPromptSuggestions`: every prompt's trigrams, in order. */
  method CollectPhrases(prompts: seq<Prompt>) returns (phrases: seq<string>)
    ensures phrases == Phrases(prompts)
  {
    phrases := [];
    var k := 0;
    while k < |prompts|
      invariant 0 <= k <= |prompts|
      invariant phrases == Phrases(prompts[..k])
    {
      var t := CollectTrigrams(prompts[k].requirements);
      phrases := phrases + t;
      assert prompts[..k + 1][..k] == prompts[..k];
      k := k + 1;
    }
    assert prompts[..k] == prompts;
  }

  /** The counting loop of `getPromptSuggestions`: the phrase counts in order of first occurrence. */
  method CountPhrases(phrases: seq<string>) returns (entries: seq<(string, nat)>)
    ensures entries == Tally(phrases)
  {
    var keys: seq<string> := [];
    var counts: map<string, nat> := map[];
    var j := 0;
    while j < |phrases|
      invariant 0 <= j <= |phrases|
      invariant keys == Dedup(phrases[..j])
      invariant forall x :: x in counts <==> x in phrases[..j]
      invariant forall x :: x in counts ==> counts[x] == multiset(phrases[..j])[x]
    {
      var p := phrases[j];
      DedupSnoc(phrases[..j], p);
      assert phrases[..j + 1] == phrases[..j] + [p];
      if p in counts {
        counts := counts[p := counts[p] + 1];
      } else {
        keys := keys + [p];
        counts := counts[p := 1];
      }
      j := j + 1;
    }
    assert phrases[..j] == phrases;
    entries := seq(|keys|, e requires 0 <= e < |keys| => (keys[e], counts[keys[e]]));
  }

  /** A save after a failed read writes the new record alone; otherwise it adds exactly that record. */
  lemma SaveKeeps(s: Store, saved: Prompt)
    ensures s.Unreadable? ==> AllPrompts(s) + [saved] == [saved]
    ensures s.Records? ==> multiset(AllPrompts(s) + [saved]) == multiset(s.prompts) + multiset{saved}
  {
    AllPromptsSpec(s);
  }

  /** Deleting keeps every other record and removes all with the id. */
  lemma DeleteSpec(s: Store, id: string)
    ensures forall x :: x in WithoutId(AllPrompts(s), id) <==> s.Records? && x in s.prompts && x.id != id
  {
    AllPromptsSpec(s);
    WithoutIdSpec(AllPrompts(s), id);
    if s.Records? {
      forall x
        ensures x in AllPrompts(s) <==> x in s.prompts
      {
        assert x in AllPrompts(s) <==> x in multiset(AllPrompts(s));
      }
    }
  }
}
