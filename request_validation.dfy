/**
 * The request middleware: the schema a BOM request must satisfy, the sanitiser applied to the
 * requirements and the string follow-up answers, the content check for suspicious patterns and
 * the upload check on MIME type and size. A thrown error is an `Err` carrying its message.
 */
module RequestValidation {
  import opened Wrappers
  import opened Text

  /** A request value as the sanitiser sees it: a string, or any other JSON value, kept as its serialisation. */
  datatype Value = Str(text: string) | Other(json: string)

  // ---------------------------------------------------------------- sanitising

  /** The maximal run of `\w` characters starting at `i`. */
  function IdentRun(s: string, i: nat): (k: nat)
    requires i <= |s|
    ensures i + k <= |s|
    ensures forall j :: i <= j < i + k ==> IsWordChar(s[j])
    ensures i + k < |s| ==> !IsWordChar(s[i + k])
    decreases |s| - i
  {
    if i < |s| && IsWordChar(s[i]) then 1 + IdentRun(s, i + 1) else 0
  }

  /**
   * The length of the match of `/on\w+=/i` at `i`, if any: "on" in either case, a run of word
   * characters and "=" (the run is greedy and "=" is no word character, so no other split matches).
   */
  function HandlerAt(s: string, i: nat): (r: Option<nat>)
    ensures r.Some? ==> i + r.value <= |s| && r.value >= 4 && s[i + r.value - 1] == '='
  {
    if i + 2 <= |s| && LowerChar(s[i]) == 'o' && LowerChar(s[i + 1]) == 'n' then
      var k := IdentRun(s, i + 2);
      if k > 0 && i + 2 + k < |s| && s[i + 2 + k] == '=' then Some(3 + k) else None
    else None
  }

  /** `s.replace(/on\w+=/gi, '')`: matches removed left to right, scanning on after each. */
  function RemoveHandlers(s: string): (r: string)
    ensures |r| <= |s|
    ensures forall c :: c in r ==> c in s
    decreases |s|
  {
    if s == [] then []
    else match HandlerAt(s, 0)
      case Some(n) => RemoveHandlers(s[n..])
      case None => [s[0]] + RemoveHandlers(s[1..])
  }

  /** The sanitiser on a string: trim, then drop angle brackets, "javascript:", event-handler prefixes and NUL. */
  function SanitizeText(s: string): string {
    RemoveChars(RemoveHandlers(RemoveFolded(RemoveChars(Trim(s), {'<', '>'}), "javascript:")), {'\0'})
  }

  /** `sanitizeInput`: strings are sanitised, any other value is returned as it is. */
  function SanitizeInput(v: Value): Value {
    match v
    case Str(s) => Str(SanitizeText(s))
    case Other(_) => v
  }

  /** A sanitised string holds no angle bracket and no NUL, and only characters of the input. */
  lemma SanitizeInputSpec(v: Value)
    ensures v.Other? ==> SanitizeInput(v) == v
    ensures v.Str? ==> SanitizeInput(v).Str?
    ensures v.Str? ==> forall c :: c in SanitizeInput(v).text ==> c != '<' && c != '>' && c != '\0' && c in v.text
  {
    if v.Str? {
      var s := v.text;
      TrimSpec(s);
      var a :| TrimmedAt(s, a, Trim(s));
      assert forall c :: c in Trim(s) ==> c in s;
      var t := RemoveChars(Trim(s), {'<', '>'});
      RemoveFoldedKeeps(t, "javascript:", {'<', '>'});
      var u := RemoveFolded(t, "javascript:");
      assert forall c :: c in u ==> c in s by {
        RemoveFoldedKeeps(t, "javascript:", set c | c !in s);
      }
    }
  }

  /** Without a `<` there is no `<script`, in any case. */
  lemma NoAngleNoScript(r: string, i: nat)
    requires forall c :: c in r ==> c != '<'
    ensures !StartsAtFolded(r, i, "<script")
  {
    if i + 7 <= |r| {
      assert ToLower(r[i..i + 7])[0] == LowerChar(r[i]);
      assert ToLower("<script")[0] == '<';
      assert r[i] in r;
    }
  }

  /** A request body as `sanitizeRequirements` sees it. */
  datatype Body = Body(requirements: Option<Value>, followUpAnswers: Option<Answers>)

  /** The follow-up answers: an object with its entries in key order, or some other value. */
  datatype Answers = AnswerObject(entries: seq<(string, Value)>) | NotAnObject(json: string)

  /** JavaScript truthiness of a request value (`null`, numbers and booleans are folded into `Other`, which counts as truthy). */
  predicate TruthyValue(v: Option<Value>) {
    v.Some? && (v.value.Str? ==> v.value.text != "")
  }

  /** The answer loop of `sanitizeRequirements`: every string answer is sanitised in place. */
  method SanitizeAnswers(entries: seq<(string, Value)>) returns (r: seq<(string, Value)>)
    ensures |r| == |entries|
    ensures forall i :: 0 <= i < |r| ==> r[i].0 == entries[i].0
    ensures forall i :: 0 <= i < |r| ==> entries[i].1.Other? ==> r[i].1 == entries[i].1
    ensures forall i :: 0 <= i < |r| ==> entries[i].1.Str? ==> r[i].1 == Str(SanitizeText(entries[i].1.text))
  {
    r := entries;
    var i := 0;
    while i < |r|
      invariant 0 <= i <= |r| == |entries|
      invariant forall j :: 0 <= j < |r| ==> r[j].0 == entries[j].0
      invariant forall j :: i <= j < |r| ==> r[j] == entries[j]
      invariant forall j :: 0 <= j < i ==> entries[j].1.Other? ==> r[j].1 == entries[j].1
      invariant forall j :: 0 <= j < i ==> entries[j].1.Str? ==> r[j].1 == Str(SanitizeText(entries[j].1.text))
    {
      if r[i].1.Str? {
        var v := SanitizeInput(r[i].1);
        assert v == Str(SanitizeText(entries[i].1.text));
        ghost var prev := r;
        r := r[i := (r[i].0, v)];
        assert forall j :: 0 <= j < |r| && j != i ==> r[j] == prev[j];
      }
      i := i + 1;
    }
  }

  /** `sanitizeRequirements`: the truthy requirements and the string answers of an answers object are sanitised; the rest is kept. */
  method SanitizeRequirements(body: Body) returns (r: Body)
    ensures TruthyValue(body.requirements) ==> r.requirements == Some(SanitizeInput(body.requirements.value))
    ensures !TruthyValue(body.requirements) ==> r.requirements == body.requirements
    ensures body.followUpAnswers.Some? && body.followUpAnswers.value.AnswerObject? ==>
      r.followUpAnswers.Some? && r.followUpAnswers.value.AnswerObject? &&
      var before := body.followUpAnswers.value.entries;
      var after := r.followUpAnswers.value.entries;
      |after| == |before| &&
      forall i :: 0 <= i < |after| ==> after[i].0 == before[i].0 && after[i].1 == SanitizeInput(before[i].1)
    ensures !(body.followUpAnswers.Some? && body.followUpAnswers.value.AnswerObject?) ==> r.followUpAnswers == body.followUpAnswers
  {
    r := body;
    if TruthyValue(body.requirements) {
      r := r.(requirements := Some(SanitizeInput(body.requirements.value)));
    }
    if body.followUpAnswers.Some? && body.followUpAnswers.value.AnswerObject? {
      var entries := SanitizeAnswers(body.followUpAnswers.value.entries);
      r := r.(followUpAnswers := Some(AnswerObject(entries)));
    }
  }

  // ---------------------------------------------------------------- content check

  /** `sub` occurs in `s` up to ASCII case (a regular expression with the `i` flag). */
  predicate ContainsFolded(s: string, sub: string) {
    exists i: nat :: i <= |s| && StartsAtFolded(s, i, sub)
  }

  /** `/eval\s*\(/i` matches at `i`. */
  predicate EvalCallAt(s: string, i: nat) {
    StartsAtFolded(s, i, "eval") && i + 4 + SpaceRun(s, i + 4) < |s| && s[i + 4 + SpaceRun(s, i + 4)] == '('
  }

  /** One of the six suspicious patterns of `validateContent` matches somewhere in `s`. */
  predicate Suspicious(s: string) {
    ContainsFolded(s, "javascript:") || ContainsFolded(s, "<script") ||
    (exists i: nat :: i < |s| && HandlerAt(s, i).Some?) ||
    (exists i: nat :: i < |s| && EvalCallAt(s, i)) ||
    ContainsFolded(s, "document.") || ContainsFolded(s, "window.")
  }

  const DefaultMaxLength := 50000

  /** `validateContent(content, maxLength)`; a missing `maxLength` is the default 50000. */
  function ValidateContent(content: Option<Value>, maxLength: Option<int>): (r: Result<bool>)
    ensures r.Ok? ==> r.value
  {
    var limit := if maxLength.Some? then maxLength.value else DefaultMaxLength;
    if !TruthyValue(content) || !content.value.Str? then Err("Invalid content type")
    else if |content.value.text| > limit then
      Err("Content too long. Maximum length is " + IntToString(limit) + " characters")
    else if Suspicious(content.value.text) then Err("Content contains potentially harmful patterns")
    else Ok(true)
  }

  /**
   * Content passes exactly when it is a non-empty string no longer than the limit and free of
   * the suspicious patterns; the first failing check names the error.
   */
  lemma ValidateContentSpec(content: Option<Value>, maxLength: Option<int>)
    ensures var limit := if maxLength.Some? then maxLength.value else DefaultMaxLength;
      ValidateContent(content, maxLength).Ok? <==>
        content.Some? && content.value.Str? && content.value.text != "" &&
        |content.value.text| <= limit && !Suspicious(content.value.text)
    ensures content.None? || content.value.Other? || content.value.text == "" ==>
      ValidateContent(content, maxLength) == Err("Invalid content type")
    ensures maxLength.None? && content.Some? && content.value.Str? && |content.value.text| > 50000 ==>
      ValidateContent(content, maxLength) == Err("Content too long. Maximum length is 50000 characters")
  {
    DefaultLimitMessage();
  }

  /** The over-length message at the default limit. */
  lemma DefaultLimitMessage()
    ensures "Content too long. Maximum length is " + IntToString(DefaultMaxLength) + " characters"
      == "Content too long. Maximum length is 50000 characters"
  {
    DefaultLimitText();
  }

  lemma DefaultLimitText()
    ensures IntToString(DefaultMaxLength) == "50000"
  {
    assert NatToString(5) == "5";
    assert NatToString(50) == NatToString(5) + ['0'];
    assert NatToString(500) == NatToString(50) + ['0'];
    assert NatToString(5000) == NatToString(500) + ['0'];
    assert NatToString(50000) == NatToString(5000) + ['0'];
  }

  /** Sanitised text never trips the `<script` check (other patterns can survive a single removal pass). */
  lemma SanitizedNotScript(s: string)
    ensures !ContainsFolded(SanitizeText(s), "<script")
  {
    SanitizeInputSpec(Str(s));
    if ContainsFolded(SanitizeText(s), "<script") {
      var i: nat :| i <= |SanitizeText(s)| && StartsAtFolded(SanitizeText(s), i, "<script");
      NoAngleNoScript(SanitizeText(s), i);
    }
  }

  // ---------------------------------------------------------------- uploads

  const AllowedMimeTypes: seq<string> := [
    "application/pdf",
    "application/vnd.openxmlformats-officedocument.spreadsheetml.sheet",
    "application/vnd.ms-excel",
    "application/vnd.openxmlformats-officedocument.wordprocessingml.document",
    "application/msword",
    "image/jpeg",
    "image/png",
    "image/bmp",
    "image/tiff"]

  const AllowedExtensions: seq<string> := [".pdf", ".xlsx", ".xls", ".docx", ".doc", ".jpg", ".jpeg", ".png", ".bmp", ".tiff"]

  /** 10 MiB. */
  const MaxUploadSize := 10 * 1024 * 1024

  /** The upload as the check sees it: a missing size compares as `undefined`, which is never too large. */
  datatype UploadedFile = UploadedFile(mimetype: Option<string>, size: Option<int>)

  /** `validateFileType`. */
  function ValidateFileType(file: UploadedFile): (r: Result<bool>)
    ensures r.Ok? ==> r.value
  {
    if file.mimetype.None? || file.mimetype.value !in AllowedMimeTypes then
      Err("Invalid file type. Allowed types: " + Join(AllowedExtensions, ", "))
    else if file.size.Some? && file.size.value > MaxUploadSize then
      Err("File size too large. Maximum size is 10MB")
    else Ok(true)
  }

  /** An upload is accepted exactly when its type is one of the nine and it is at most 10 MiB; the type is checked first. */
  lemma ValidateFileTypeSpec(file: UploadedFile)
    ensures ValidateFileType(file).Ok? <==>
      file.mimetype.Some? && file.mimetype.value in AllowedMimeTypes && !(file.size.Some? && file.size.value > 10485760)
    ensures file.mimetype.Some? && file.mimetype.value in AllowedMimeTypes && file.size.Some? && file.size.value > 10485760 ==>
      ValidateFileType(file) == Err("File size too large. Maximum size is 10MB")
    ensures |AllowedMimeTypes| == 9
  {
  }

  // ---------------------------------------------------------------- the BOM request schema

  /** A property of the request body: missing, a string, an object, or any other value. */
  datatype Field = Absent | StringField(text: string) | ObjectField | OtherField

  datatype BomRequest = BomRequest(requirements: Field, llmProvider: Field, followUpAnswers: Field, currency: Field, region: Field)

  const Providers: seq<string> := ["openai", "claude", "gemini", "grok", "deepseek"]
  const Currencies: seq<string> := ["USD", "EUR", "GBP", "JPY", "CAD", "AUD"]

  /** A required string of 10 to 10000 characters. */
  predicate RequirementsOk(f: Field) {
    f.StringField? && 10 <= |f.text| <= 10000
  }

  /** A required string among the five providers. */
  predicate ProviderOk(f: Field) {
    f.StringField? && f.text in Providers
  }

  /** An optional object. */
  predicate AnswersOk(f: Field) {
    f.Absent? || f.ObjectField?
  }

  /** An optional string among the six currencies. */
  predicate CurrencyOk(f: Field) {
    f.Absent? || (f.StringField? && f.text in Currencies)
  }

  /** An optional non-empty string of at most 50 characters (the schema's strings refuse ""). */
  predicate RegionOk(f: Field) {
    f.Absent? || (f.StringField? && 0 < |f.text| <= 50)
  }

  /** `bomRequestSchema.validate(body)`: the body with the currency defaulted, or a validation failure. */
  function ValidateBomRequest(b: BomRequest): (r: Result<BomRequest>)
  {
    if RequirementsOk(b.requirements) && ProviderOk(b.llmProvider) && AnswersOk(b.followUpAnswers)
       && CurrencyOk(b.currency) && RegionOk(b.region)
    then Ok(if b.currency.Absent? then b.(currency := StringField("USD")) else b)
    else Err("Validation failed")
  }

  /**
   * A request is accepted exactly when every field follows its rule; the accepted body always
   * names one of the six currencies, USD when none was given, and is otherwise unchanged.
   */
  lemma ValidateBomRequestSpec(b: BomRequest)
    ensures ValidateBomRequest(b).Ok? <==>
      b.requirements.StringField? && 10 <= |b.requirements.text| <= 10000 &&
      b.llmProvider.StringField? && b.llmProvider.text in Providers &&
      (b.followUpAnswers.Absent? || b.followUpAnswers.ObjectField?) &&
      (b.currency.Absent? || (b.currency.StringField? && b.currency.text in Currencies)) &&
      (b.region.Absent? || (b.region.StringField? && 0 < |b.region.text| <= 50))
    ensures ValidateBomRequest(b).Ok? ==>
      var v := ValidateBomRequest(b).value;
      v.currency.StringField? && v.currency.text in Currencies &&
      (b.currency.Absent? ==> v.currency.text == "USD") &&
      v.requirements == b.requirements && v.llmProvider == b.llmProvider && v.region == b.region
    ensures ValidateBomRequest(b).Ok? ==> ValidateBomRequest(ValidateBomRequest(b).value) == ValidateBomRequest(b)
  {
  }

  /**
   * `documentUploadSchema.validate(body)`: unknown properties are stripped, so an accepted body
   * is just the provider's name.
   */
  function ValidateDocumentUpload(llmProvider: Field): (r: Result<string>)
    ensures r.Ok? ==> r.value in Providers
  {
    if ProviderOk(llmProvider) then Ok(llmProvider.text) else Err("Validation failed")
  }

  /** An upload passes exactly with one of the five providers, and every accepted BOM request names one. */
  lemma ValidateDocumentUploadSpec(b: BomRequest)
    ensures ValidateDocumentUpload(b.llmProvider).Ok? <==> b.llmProvider.StringField? && b.llmProvider.text in Providers
    ensures ValidateBomRequest(b).Ok? ==> ValidateDocumentUpload(b.llmProvider) == Ok(b.llmProvider.text)
  {
  }
}
