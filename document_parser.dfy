/**
 * The document parser: the table from file extension to document type, the dispatch of an upload
 * to the parser of its type, the content check run on extracted text, and the extraction of
 * infrastructure figures from that text. The parsing libraries (PDF, spreadsheet, word processor,
 * OCR) and the structuring call to the LLM are outside the model; their outcomes are parameters.
 *
 * Several regular expressions of this file are written with doubled backslashes, so each of them
 * needs a literal backslash in the text to match; they are modelled as written.
 */
module DocumentParser {
  import opened Wrappers
  import opened Text
  import opened Lists
  import RequestValidation

  datatype DocumentType = Pdf | Excel | Word | Image | Unknown

  /** The name `parseDocument` reports. */
  function TypeName(t: DocumentType): string {
    match t
    case Pdf => "pdf"
    case Excel => "excel"
    case Word => "word"
    case Image => "image"
    case Unknown => "unknown"
  }

  /** `supportedTypes`, in declaration order. */
  const SupportedTypes: seq<(DocumentType, seq<string>)> := [
    (Pdf, [".pdf"]),
    (Excel, [".xlsx", ".xls"]),
    (Word, [".docx", ".doc"]),
    (Image, [".jpg", ".jpeg", ".png", ".bmp", ".tiff"])]

  /** The first type of `table` listing `extension`, else `Unknown`. */
  function TypeIn(table: seq<(DocumentType, seq<string>)>, extension: string): DocumentType {
    if table == [] then Unknown
    else if extension in table[0].1 then table[0].0
    else TypeIn(table[1..], extension)
  }

  /** `getDocumentType`. */
  function GetDocumentType(extension: string): DocumentType {
    TypeIn(SupportedTypes, extension)
  }

  /** The type found lists the extension; `Unknown` means no type does. */
  lemma {:induction false} TypeInSpec(table: seq<(DocumentType, seq<string>)>, extension: string)
    requires forall k :: 0 <= k < |table| ==> table[k].0 != Unknown
    ensures TypeIn(table, extension) != Unknown ==>
      exists k :: 0 <= k < |table| && table[k].0 == TypeIn(table, extension) && extension in table[k].1
    ensures TypeIn(table, extension) == Unknown <==> forall k :: 0 <= k < |table| ==> extension !in table[k].1
  {
    if table != [] && extension !in table[0].1 {
      TypeInSpec(table[1..], extension);
      assert forall k :: 1 <= k < |table| ==> table[k] == table[1..][k - 1];
      if TypeIn(table, extension) != Unknown {
        var k :| 0 <= k < |table[1..]| && table[1..][k].0 == TypeIn(table, extension) && extension in table[1..][k].1;
        assert table[k + 1] == table[1..][k];
      }
    }
  }

  /**
   * The extensions with a document type are exactly the ten the upload check lists: `.txt`,
   * `.tif` and every other extension are `Unknown`.
   */
  lemma DocumentTypesMatchUploads(extension: string)
    ensures GetDocumentType(extension) != Unknown <==> extension in RequestValidation.AllowedExtensions
    ensures GetDocumentType(".tiff") == Image && GetDocumentType(".tif") == Unknown && GetDocumentType(".txt") == Unknown
  {
    TypeInSpec(SupportedTypes, extension);
    if extension in RequestValidation.AllowedExtensions {
      var i :| 0 <= i < |RequestValidation.AllowedExtensions| && RequestValidation.AllowedExtensions[i] == extension;
      assert extension in SupportedTypes[if i == 0 then 0 else if i < 3 then 1 else if i < 5 then 2 else 3].1;
    }
  }

  /** The index of the last `c` in `s`, if any. */
  function LastIndexOf(s: string, c: char): (r: Option<nat>)
    ensures r.Some? ==> r.value < |s| && s[r.value] == c && forall j :: r.value < j < |s| ==> s[j] != c
    ensures r.None? ==> forall j :: 0 <= j < |s| ==> s[j] != c
  {
    if s == [] then None
    else if s[|s| - 1] == c then Some(|s| - 1)
    else LastIndexOf(s[..|s| - 1], c)
  }

  /** `s` without its trailing slashes. */
  function DropTrailingSlashes(s: string): (r: string)
    ensures r <= s && (r != [] ==> r[|r| - 1] != '/')
  {
    if s != [] && s[|s| - 1] == '/' then DropTrailingSlashes(s[..|s| - 1]) else s
  }

  /**
   * `path.extname` for POSIX paths: the last component from its last "." on, or "" when there is
   * no ".", the only "." opens the component, or the component is "..".
   */
  function Extname(path: string): (r: string)
    ensures r == [] || r[0] == '.'
  {
    var trimmed := DropTrailingSlashes(path);
    var part := match LastIndexOf(trimmed, '/') case Some(i) => trimmed[i + 1..] case None => trimmed;
    match LastIndexOf(part, '.')
    case None => ""
    case Some(d) => if d == 0 || part == ".." then "" else part[d..]
  }

  /** An uploaded file's recorded name. */
  datatype Upload = Upload(originalname: string)

  datatype ParsedDocument = ParsedDocument(
    originalContent: string,
    structuredRequirements: string,
    documentType: DocumentType,
    filename: string)

  /** The message each parser puts before the library's own. */
  function ParserFailure(t: DocumentType): string {
    match t
    case Pdf => "PDF parsing failed: "
    case Excel => "Excel parsing failed: "
    case Word => "Word document parsing failed: "
    case Image => "Image OCR failed: "
    case Unknown => ""
  }

  /**
   * `parseDocument`: `extracted` is what the library of the file's type yields (its text, or its
   * failure message) and `structured` what the LLM makes of the text. Every failure is reported
   * as "Failed to parse document: " and the message.
   */
  function ParseDocument(file: Upload, extracted: Result<string>, structured: Result<string>): (r: Result<ParsedDocument>)
  {
    var extension := ToLower(Extname(file.originalname));
    var t := GetDocumentType(extension);
    if t == Unknown then Err("Failed to parse document: Unsupported file type: " + extension)
    else if extracted.Err? then Err("Failed to parse document: " + ParserFailure(t) + extracted.error)
    else if structured.Err? then Err("Failed to parse document: " + structured.error)
    else Ok(ParsedDocument(extracted.value, structured.value, t, file.originalname))
  }

  /**
   * An extension without a type is refused before any parser runs; a parsed document carries the
   * type of its extension, the extracted text unchanged and the original name.
   */
  lemma ParseDocumentSpec(file: Upload, extracted: Result<string>, structured: Result<string>)
    ensures var extension := ToLower(Extname(file.originalname));
      GetDocumentType(extension) == Unknown ==>
        ParseDocument(file, extracted, structured) == Err("Failed to parse document: Unsupported file type: " + extension)
    ensures var r := ParseDocument(file, extracted, structured);
      r.Ok? <==> GetDocumentType(ToLower(Extname(file.originalname))) != Unknown && extracted.Ok? && structured.Ok?
    ensures var r := ParseDocument(file, extracted, structured);
      r.Ok? ==>
        r.value.documentType == GetDocumentType(ToLower(Extname(file.originalname))) &&
        r.value.documentType != Unknown && r.value.originalContent == extracted.value &&
        r.value.filename == file.originalname
    ensures var r := ParseDocument(file, extracted, structured);
      r.Err? ==> |r.error| >= 26 && r.error[..26] == "Failed to parse document: "
  {
  }

  // ---------------------------------------------------------------- content check

  /** The run of characters equal to `c` up to case, starting at `i`. */
  function FoldedRun(s: string, i: nat, c: char): (k: nat)
    requires i <= |s|
    ensures i + k <= |s|
    ensures forall j :: i <= j < i + k ==> LowerChar(s[j]) == c
    decreases |s| - i
  {
    if i < |s| && LowerChar(s[i]) == c then 1 + FoldedRun(s, i + 1, c) else 0
  }

  /** The match, at `i`, of `/on\\w+=/i` as written: "on", a backslash, a run of `w` and "=". */
  function LiteralHandlerAt(s: string, i: nat): (r: Option<nat>)
    ensures r.Some? ==> i + r.value <= |s| && r.value >= 5 && s[i + 2] == '\\'
  {
    if i + 3 <= |s| && LowerChar(s[i]) == 'o' && LowerChar(s[i + 1]) == 'n' && s[i + 2] == '\\' then
      var k := FoldedRun(s, i + 3, 'w');
      if k > 0 && i + 3 + k < |s| && s[i + 3 + k] == '=' then Some(4 + k) else None
    else None
  }

  /** `s.replace(/on\\w+=/gi, '')`. */
  function RemoveLiteralHandlers(s: string): (r: string)
    ensures |r| <= |s|
    ensures forall c :: c in r ==> c in s
    decreases |s|
  {
    if s == [] then []
    else match LiteralHandlerAt(s, 0)
      case Some(n) => RemoveLiteralHandlers(s[n..])
      case None => [s[0]] + RemoveLiteralHandlers(s[1..])
  }

  /** As written, the event-handler removal only acts on text holding a backslash: "onclick=" survives it. */
  lemma {:induction false} LiteralHandlersNeedBackslash(s: string)
    requires forall c :: c in s ==> c != '\\'
    ensures RemoveLiteralHandlers(s) == s
    decreases |s|
  {
    if s != [] {
      if |s| > 2 {
        assert s[2] in s;
      }
      assert forall c :: c in s[1..] ==> c in s;
      LiteralHandlersNeedBackslash(s[1..]);
    }
  }

  /** The text `validateContent` keeps: angle brackets, "javascript:" and the written handler pattern removed, then trimmed. */
  function SanitizedDocument(s: string): string {
    Trim(RemoveLiteralHandlers(RemoveFolded(RemoveChars(s, {'<', '>'}), "javascript:")))
  }

  const ContentLimit := 100000
  const TruncationMark := "... (content truncated)"

  /** `validateContent` of the parser. */
  function ValidateDocumentContent(content: Option<RequestValidation.Value>): (r: Result<string>)
  {
    if !RequestValidation.TruthyValue(content) || !content.value.Str? then Err("Invalid document content")
    else
      var sanitized := SanitizedDocument(content.value.text);
      if |sanitized| == 0 then Err("Document appears to be empty or contains no readable text")
      else if |sanitized| > ContentLimit then Ok(sanitized[..ContentLimit] + TruncationMark)
      else Ok(sanitized)
  }

  /** Trimming keeps only characters of its input. */
  lemma TrimKeepsChars(s: string)
    ensures forall c :: c in Trim(s) ==> c in s
  {
    TrimSpec(s);
    var a :| TrimmedAt(s, a, Trim(s));
    forall c | c in Trim(s)
      ensures c in s
    {
      var j :| 0 <= j < |Trim(s)| && Trim(s)[j] == c;
      assert s[a + j] == c;
    }
  }

  /** The kept text has no angle brackets and no surrounding white space. */
  lemma SanitizedDocumentSpec(s: string)
    ensures forall c :: c in SanitizedDocument(s) ==> c != '<' && c != '>' && c in s
    ensures var r := SanitizedDocument(s); r != [] ==> !IsSpace(r[0]) && !IsSpace(r[|r| - 1])
  {
    var t := RemoveChars(s, {'<', '>'});
    RemoveFoldedKeeps(t, "javascript:", {'<', '>'});
    RemoveFoldedKeeps(t, "javascript:", set c | c !in s);
    var u := RemoveLiteralHandlers(RemoveFolded(t, "javascript:"));
    TrimKeepsChars(u);
    TrimSpec(u);
  }

  lemma SanitizedEmpty()
    ensures SanitizedDocument("") == ""
  {
    assert RemoveChars("", {'<', '>'}) == "";
    assert RemoveFolded("", "javascript:") == "";
    assert RemoveLiteralHandlers("") == "";
  }

  /** Content is accepted exactly when it is a non-empty string with something left after sanitising. */
  lemma ValidateDocumentContentAccepts(content: Option<RequestValidation.Value>)
    ensures ValidateDocumentContent(content).Ok? <==>
      content.Some? && content.value.Str? && SanitizedDocument(content.value.text) != []
    ensures content.None? || content.value.Other? || content.value.text == "" ==>
      ValidateDocumentContent(content) == Err("Invalid document content")
  {
    SanitizedEmpty();
  }

  /** The result is the kept text, cut to 100000 characters and marked when it is longer. */
  lemma ValidateDocumentContentText(content: Option<RequestValidation.Value>)
    requires ValidateDocumentContent(content).Ok?
    ensures var kept := SanitizedDocument(content.value.text);
      var r := ValidateDocumentContent(content).value;
      (|kept| <= 100000 ==> r == kept) &&
      (|kept| > 100000 ==> r == kept[..100000] + "... (content truncated)" && |r| == 100023)
  {
  }

  /** No angle bracket survives in the kept text, and the result is never empty. */
  lemma ValidateDocumentContentClean(content: Option<RequestValidation.Value>)
    requires ValidateDocumentContent(content).Ok?
    ensures var r := ValidateDocumentContent(content).value;
      r != [] && forall j :: 0 <= j < |r| && j < 100000 ==> r[j] != '<' && r[j] != '>'
  {
    var kept := SanitizedDocument(content.value.text);
    SanitizedDocumentSpec(content.value.text);
    var r := ValidateDocumentContent(content).value;
    forall j | 0 <= j < |r| && j < 100000
      ensures r[j] != '<' && r[j] != '>'
    {
      assert r[j] == kept[j];
      assert kept[j] in kept;
    }
  }

  // ---------------------------------------------------------------- infrastructure figures

  /** A figure pattern: the property it fills, the unit words in order, and whether a plural `s` may follow. */
  datatype FigurePattern = FigurePattern(key: string, units: seq<string>, plural: bool)

  /**
   * The six patterns of `extractInfrastructureKeywords`. As written each reads: a backslash and
   * `b`, a backslash and a run of `d`, a backslash and a run of `s`, a unit word, an optional `s`,
   * a backslash and `b` (all letters in either case).
   */
  const FigurePatterns: seq<FigurePattern> := [
    FigurePattern("compute", ["cpu", "core", "processor", "vcpu"], true),
    FigurePattern("memory", ["gb", "mb", "ram", "memory"], false),
    FigurePattern("storage", ["gb", "tb", "pb", "storage", "disk"], false),
    FigurePattern("network", ["mbps", "gbps", "bandwidth"], false),
    FigurePattern("instances", ["instance", "server", "vm", "node"], true),
    FigurePattern("users", ["user", "concurrent", "connection"], true)]

  /** A backslash and `b` at `p`. */
  predicate EscapedBAt(s: string, p: nat) {
    p + 2 <= |s| && s[p] == '\\' && LowerChar(s[p + 1]) == 'b'
  }

  /** The end of `s?\\b` from `p`: with the `s` when allowed and it leads on, else without. */
  function PluralEnd(s: string, p: nat, plural: bool): (r: Option<nat>)
    ensures r.Some? ==> p < r.value <= |s|
  {
    if plural && p < |s| && LowerChar(s[p]) == 's' && EscapedBAt(s, p + 1) then Some(p + 3)
    else if EscapedBAt(s, p) then Some(p + 2)
    else None
  }

  /** The first unit word (in order) at `p` after which the rest of the pattern matches. */
  function UnitEnd(s: string, p: nat, units: seq<string>, plural: bool): (r: Option<nat>)
    ensures r.Some? ==> p < r.value <= |s|
  {
    if units == [] then None
    else if StartsAtFolded(s, p, units[0]) && PluralEnd(s, p + |units[0]|, plural).Some? then PluralEnd(s, p + |units[0]|, plural)
    else UnitEnd(s, p, units[1..], plural)
  }

  /** The `s` run from `q` is greedy: the longest prefix of it, of length at most `t`, after which a unit matches. */
  function SpacesEnd(s: string, q: nat, t: nat, pat: FigurePattern): (r: Option<nat>)
    ensures r.Some? ==> q < r.value <= |s|
    decreases t
  {
    match UnitEnd(s, q + t, pat.units, pat.plural)
    case Some(e) => Some(e)
    case None => if t == 0 then None else SpacesEnd(s, q, t - 1, pat)
  }

  /** The end of the match of `pat` at `i`, if one starts there. */
  function FigureAt(s: string, i: nat, pat: FigurePattern): (r: Option<nat>)
    ensures r.Some? ==> i < r.value <= |s| && s[i] == '\\'
  {
    if EscapedBAt(s, i) && i + 3 <= |s| && s[i + 2] == '\\' then
      var k := FoldedRun(s, i + 3, 'd');
      var j := i + 3 + k;
      if k > 0 && j < |s| && s[j] == '\\' then SpacesEnd(s, j + 1, FoldedRun(s, j + 1, 's'), pat)
      else None
    else None
  }

  /** `s.match(pat)` with the `g` flag from `i` on: every match, left to right, none overlapping. */
  function FigureMatches(s: string, pat: FigurePattern, i: nat): (r: seq<string>)
    decreases |s| - i
  {
    if i >= |s| then []
    else match FigureAt(s, i, pat)
      case Some(e) => [s[i..e]] + FigureMatches(s, pat, e)
      case None => FigureMatches(s, pat, i + 1)
  }

  /** `m.match(/\\d+/g)[0]`: the first backslash followed by a run of lower-case `d`. */
  function FirstDigits(m: string, i: nat): (r: Option<string>)
    decreases |m| - i
  {
    if i + 1 >= |m| then None
    else if m[i] == '\\' && m[i + 1] == 'd' then
      var k := DRun(m, i + 1);
      Some(m[i..i + 1 + k])
    else FirstDigits(m, i + 1)
  }

  /** The run of lower-case `d` at `i`. */
  function DRun(m: string, i: nat): (k: nat)
    requires i <= |m|
    ensures i + k <= |m|
    decreases |m| - i
  {
    if i < |m| && m[i] == 'd' then 1 + DRun(m, i + 1) else 0
  }

  /** The figures one pattern contributes: the first `\d` run of each match, matches without one dropped. */
  function Figures(matches: seq<string>): seq<string> {
    Somes(FirstReads(matches))
  }

  /** The first `\d` run of each match, or none. */
  function FirstReads(matches: seq<string>): seq<Option<string>> {
    seq(|matches|, i requires 0 <= i < |matches| => FirstDigits(matches[i], 0))
  }

  /** Without a backslash in the text no figure pattern matches. */
  lemma {:induction false} FiguresNeedBackslash(s: string, pat: FigurePattern, i: nat)
    requires forall c :: c in s ==> c != '\\'
    ensures FigureMatches(s, pat, i) == []
    decreases |s| - i
  {
    if i < |s| {
      assert s[i] in s;
      FiguresNeedBackslash(s, pat, i + 1);
    }
  }

  /** Each pattern that matches sets its key to the figures found; a key no pattern set is absent. */
  method ExtractFigures(content: string, patterns: seq<FigurePattern>) returns (extracted: map<string, seq<string>>)
    ensures forall k :: 0 <= k < |patterns| && FigureMatches(content, patterns[k], 0) != [] ==> patterns[k].key in extracted
    ensures forall key :: key in extracted ==>
      exists k :: 0 <= k < |patterns| && patterns[k].key == key && FigureMatches(content, patterns[k], 0) != [] &&
        extracted[key] == Figures(FigureMatches(content, patterns[k], 0))
  {
    extracted := map[];
    var n := 0;
    while n < |patterns|
      invariant 0 <= n <= |patterns|
      invariant forall k :: 0 <= k < n && FigureMatches(content, patterns[k], 0) != [] ==> patterns[k].key in extracted
      invariant forall key :: key in extracted ==>
        exists k :: 0 <= k < n && patterns[k].key == key && FigureMatches(content, patterns[k], 0) != [] &&
          extracted[key] == Figures(FigureMatches(content, patterns[k], 0))
    {
      var matches := FigureMatches(content, patterns[n], 0);
      if matches != [] {
        extracted := extracted[patterns[n].key := Figures(matches)];
      }
      n := n + 1;
    }
  }

  /** The six patterns fill six different properties. */
  lemma FigureKeysDistinct()
    ensures forall k, m :: 0 <= k < m < |FigurePatterns| ==> FigurePatterns[k].key != FigurePatterns[m].key
  {
  }

  /**
   * A set property can hold an empty list: the patterns match `\D` case-insensitively, while
   * the digit read `/\\d+/g` is case-sensitive, so a match spelled with `\D` yields no figure
   * and `filter(Boolean)` drops it.
   */
  lemma EmptyFigureList()
    ensures FigureMatches("\\b\\D\\scpu\\b", FigurePatterns[0], 0) == ["\\b\\D\\scpu\\b"]
    ensures Figures(["\\b\\D\\scpu\\b"]) == []
  {
    var s := "\\b\\D\\scpu\\b";
    assert |s| == 11;
    assert FoldedRun(s, 3, 'd') == 1;
    assert FoldedRun(s, 5, 's') == 1;
    assert StartsAtFolded(s, 6, "cpu");
    assert PluralEnd(s, 9, true) == Some(11);
    assert UnitEnd(s, 6, FigurePatterns[0].units, true) == Some(11);
    assert FigureAt(s, 0, FigurePatterns[0]) == Some(11);
    assert s[0..11] == s;
    assert forall j :: 0 <= j && j + 1 < |s| ==> !(s[j] == '\\' && s[j + 1] == 'd');
    NoLowerDigits(s, 0);
    NoFigure(s);
  }

  /** A single match without a figure contributes nothing. */
  lemma NoFigure(m: string)
    requires FirstDigits(m, 0) == None
    ensures Figures([m]) == []
  {
    assert FirstReads([m])[0] == None;
    SomesNone(FirstReads([m]));
  }

  /** A text with no backslash followed by a lower-case `d` from `i` on holds no figure there. */
  lemma {:induction false} NoLowerDigits(m: string, i: nat)
    requires forall j :: i <= j && j + 1 < |m| ==> !(m[j] == '\\' && m[j + 1] == 'd')
    ensures FirstDigits(m, i) == None
    decreases |m| - i
  {
    if i + 1 < |m| {
      NoLowerDigits(m, i + 1);
    }
  }

  /**
   * `extractInfrastructureKeywords`. As written, its patterns only match text that holds a
   * backslash, so on ordinary text nothing is extracted.
   */
  method ExtractInfrastructureKeywords(content: string) returns (extracted: map<string, seq<string>>)
    ensures forall key :: key in extracted ==> exists k :: 0 <= k < |FigurePatterns| && FigurePatterns[k].key == key
    ensures forall k :: 0 <= k < |FigurePatterns| ==>
      (FigurePatterns[k].key in extracted <==> FigureMatches(content, FigurePatterns[k], 0) != [])
    ensures forall k :: 0 <= k < |FigurePatterns| && FigurePatterns[k].key in extracted ==>
      extracted[FigurePatterns[k].key] == Figures(FigureMatches(content, FigurePatterns[k], 0))
    ensures (forall c :: c in content ==> c != '\\') ==> extracted == map[]
  {
    extracted := ExtractFigures(content, FigurePatterns);
    FigureKeysDistinct();
    if forall c :: c in content ==> c != '\\' {
      forall k | 0 <= k < |FigurePatterns|
        ensures FigureMatches(content, FigurePatterns[k], 0) == []
      {
        FiguresNeedBackslash(content, FigurePatterns[k], 0);
      }
      assert extracted.Keys == {};
    }
  }
}
