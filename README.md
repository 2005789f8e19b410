# OCI BOM generator core, modelled in Dafny

This project models the server-side core of an Oracle Cloud Infrastructure (OCI) bill-of-materials
generator and proves properties of that model. The generator reads a customer's requirement text
and turns it into constraints. It scores, ranks and filters a catalogue of priced OCI services, and
pulls the draft bill of materials out of a language model's reply. Finally it lays the bill out as
spreadsheet rows and formulas. Around this pipeline sit a saved-prompt store, the request and upload
validators, and three stand-alone constraint testers.

One Dafny module per source file:

| module | file | what it holds |
|---|---|---|
| `Wrappers`, `Text`, `Lists` (text.dfy) | — | `Option`/`Result`, ASCII case mapping, white-space splitting and trimming, substring search, a stable descending sort on values |
| `Scanner` (scanner.dfy) | — | explicit scanners for the regular-expression shapes the source uses: a leftmost match at a position, `exec` with `lastIndex`, and the `while (exec)` loop |
| `Catalog` (catalog.dfy) | — | the service, pricing and localisation records the two catalogue providers share |
| `ConstraintValidator` | server/services/constraintValidatorRedesigned.js | constraint extraction, validation rules, per-service validation and the filter, as a class with the source's methods |
| `OciRedesigned`, `OciRedesignedService` | server/services/ociServiceRedesigned.js | the embedded catalogue and taxonomy, requirement parsing, business-match scoring, two-pass ranking and coverage; the service class with its time-boxed cache |
| `OciService` | server/services/ociService.js | the older relevance matcher: keyword counts, relevance score, pricing extraction, the fallback list and its cache |
| `LlmService` | server/services/llmService.js | candidate-list preparation, the prompt-size guard, extraction of the JSON block from the reply, the shape checks, error wrapping and provider dispatch |
| `ExcelLayout` | server/services/excelGenerator.js | the monthly multiplier, grouping by category, row positions, subtotal ranges and formula texts; the worksheet and the generator are classes |
| `SavedPrompts` | server/services/savedPromptsService.js | the prompt store as a class over the stored list, plus the name, category, description, tag and suggestion builders |
| `RequestValidation` | server/middleware/validation.js | input sanitising, content and file checks, and the BOM request and upload schemas as predicates |
| `DocumentParser` | server/services/documentParser.js | document type lookup, the parse dispatch and content validation |
| `TesterExtraction` | test-*.js | the `extractUserConstraints` loop and the SKU gate all three testers share, over a pattern table |
| `UniversalTester`, `StandaloneTester`, `SpecificTester` | test-universal-constraints.js, test-constraints-standalone.js, test-specific-constraints.js | each tester's pattern table and its `validateServiceAgainstConstraints` |

How the source's effects are represented:

- **Regular expressions.** Each is modelled by a scanner for its shape, not by a general regex
  engine. The shapes are a trigger word, an optional verb or word group, a clause up to a delimiter,
  a token run, and "up to a word". Backtracking over `\s+` and the lazy and greedy quantifiers is
  worked out by hand in these scanners. Several literals are written with doubled backslashes
  (for example `\\b(\\d+)` in server/services/documentParser.js:168-173). As written, such a
  pattern needs a literal backslash in the text. The model keeps that behaviour, and lemmas show
  these patterns never fire on text without a backslash.
- **State that changes in place.** The validator, both catalogue services, the Excel generator, the
  worksheet and the prompt store are classes whose methods assign their fields. The source's loops
  are methods with loop invariants, each proved against a specification function.
- **Outside inputs.** The clock, the catalogue fetch outcome, ids, the language model's reply,
  `JSON.parse`, the repair passes and the parsed document text are all parameters.
- **Numbers.** Scores, prices and multipliers are `real`. A `parseFloat` result is an
  `Option<real>`, where `None` stands for NaN.

Facts the proofs bring out:

- The redesigned service requires every restrictive constraint to hold. The validator needs only one.
- Redesigned business-match scores are not capped at 1.0. The proved bound is 2.0 (`OciRedesigned.MatchScoreBounds`).
- The validator's tier preference never applies (`ConstraintValidator.ExtractedTierNeverApplies`).
- Coverage fallbacks are added without a constraint check.
- With the older matcher, `generateBOM` as written lists no candidate service. See Findings.

## Model

| member | source | states |
|---|---|---|
| ConstraintValidator.CustomerConstraints.constructor | server/services/constraintValidatorRedesigned.js:54-60 | a fresh constraints object has empty restrictive, exclusion, mention and rule lists and no preferences |
| ConstraintValidator.MatchedVariantsSpec | server/services/constraintValidatorRedesigned.js:180-184 | a variant is collected exactly when some customer term of the table that lists it occurs in the text |
| ConstraintValidator.MapToOracleTerminology | server/services/constraintValidatorRedesigned.js:176-187 | the Oracle terms returned carry no duplicates (the `new Set` step) |
| ConstraintValidator.MapToOracleTerminologySpec | server/services/constraintValidatorRedesigned.js:176-187 | a term is returned exactly when it is a variant of a table key that occurs in the lowercased customer text |
| ConstraintValidator.ScanPattern | server/services/constraintValidatorRedesigned.js:90-101 | the `exec` loop pushes one entry per successive match of the pattern, in order, and nothing else |
| ConstraintValidator.ScanConstraints | server/services/constraintValidatorRedesigned.js:89-102 | scanning every pattern in turn yields the concatenation of each pattern's entries |
| ConstraintValidator.ExtractorsReadClauses | server/services/constraintValidatorRedesigned.js:82-118 | every restrictive and exclusion pattern is well formed and the group read by `match[2] \|\| match[1]` (resp. `match[3] \|\| match[1]`) is its clause group |
| ConstraintValidator.ClauseTextOfMatch | server/services/constraintValidatorRedesigned.js:83-92 | the customer language of a match is the trimmed clause after the trigger, ending at the first `.`, `,`, `!`, `?`, `;` or the end of the text |
| ConstraintValidator.EntryOfMatch | server/services/constraintValidatorRedesigned.js:91-100 | an entry built from a match records the match text and its clause, mapped to Oracle terms |
| ConstraintValidator.EntriesAreClauses | server/services/constraintValidatorRedesigned.js:89-128 | every entry either extractor pushes is a clause of the text with its own Oracle terms |
| ConstraintValidator.PhrasePrefsSpec | server/services/constraintValidatorRedesigned.js:132-136 | a preference phrase is recorded exactly when it occurs in the text, with the mapping the table gives it |
| ConstraintValidator.LicensingPreference | server/services/constraintValidatorRedesigned.js:145-149 | `byol` iff the text has "existing" and "license" or "oracle"; otherwise `license_included` iff it has "no license" or "new license"; otherwise none |
| ConstraintValidator.ExtractedPreferences | server/services/constraintValidatorRedesigned.js:131-150 | a user count is recorded (as NaN) when the user-count pattern fires, and the licensing label whenever one is asked for |
| ConstraintValidator.ExtractedPreferencesSpec | server/services/constraintValidatorRedesigned.js:131-150 | every recorded key is a phrase found in the text, `userCount` or `licensing`, and every phrase found is recorded unless spelled like those keys |
| ConstraintValidator.PreferenceKeys | server/services/constraintValidatorRedesigned.js:38-46 | with the validator's own table no `tier` key is ever recorded |
| ConstraintValidator.RecordPhrasePreferences | server/services/constraintValidatorRedesigned.js:132-136 | the preference loop adds exactly the phrase preferences of the text to the object |
| ConstraintValidator.MentionAtSpec | server/services/constraintValidatorRedesigned.js:154-164 | a one-word mention pattern matches where its word occurs; a two-word pattern needs a backslash, a run of `s` and the second word at the last place the run allows |
| ConstraintValidator.LiteralMentions | server/services/constraintValidatorRedesigned.js:158-160 | `exadata`, `mysql` and `compute` are reported once per occurrence, spelled as the word, and exactly when they occur |
| ConstraintValidator.EscapedMentionsNeedBackslash | server/services/constraintValidatorRedesigned.js:155-157 | the doubly escaped two-word patterns report nothing on a text without a backslash |
| ConstraintValidator.MentionsWithoutBackslash | server/services/constraintValidatorRedesigned.js:154-173 | on a text without a backslash only `exadata`, `mysql` and `compute` can be mentioned |
| ConstraintValidator.LoweredSpec | server/services/constraintValidatorRedesigned.js:170 | every mention is stored lowercased, one for one |
| ConstraintValidator.PushMentions | server/services/constraintValidatorRedesigned.js:169-171 | the inner loop appends the lowercased matches in order |
| ConstraintValidator.ScanMentions | server/services/constraintValidatorRedesigned.js:166-173 | the mention loop appends the mentions of every pattern in turn |
| ConstraintValidator.ValidationRulesSpec | server/services/constraintValidatorRedesigned.js:189-218 | one rule per non-empty source and none otherwise, each carrying its source unchanged, restrictive first, then exclusions, then preferences |
| ConstraintValidator.ValidateBusinessPreferences | server/services/constraintValidatorRedesigned.js:314-345 | preferences never fail a service and keep its factor within 0.63 to 1.32, below the 1.5 cap |
| ConstraintValidator.ExtractedTierNeverApplies | server/services/constraintValidatorRedesigned.js:131-150 | for extracted preferences the tier factor never applies: the factor is 1.1 for the requested licensing model, 0.9 for another and 1.0 otherwise |
| ConstraintValidator.RuleOutcome | server/services/constraintValidatorRedesigned.js:252-312 | a restrictive rule passes iff some Oracle term is in the service text, an exclusion rule iff none is, a preference rule always; a failing rule scores 0 |
| ConstraintValidator.ValidationAllowed | server/services/constraintValidatorRedesigned.js:223-250 | a service is allowed exactly when every rule passes; with no rules it is allowed with score 1 |
| ConstraintValidator.ValidationScore | server/services/constraintValidatorRedesigned.js:233-244 | the product of rule scores is never negative and is 0 for a rejected service |
| ConstraintValidator.ValidationStep | server/services/constraintValidatorRedesigned.js:233-244 | each further rule combines into the running verdict: `allowed` is and-ed and the score multiplied |
| ConstraintValidator.FilterPartition | server/services/constraintValidatorRedesigned.js:398-415 | every service lands in exactly one of the included and rejected lists (as multisets) |
| ConstraintValidator.FilterSound | server/services/constraintValidatorRedesigned.js:404-414 | every included service is allowed and every rejected one is not |
| ConstraintValidator.FindTerm | server/services/constraintValidatorRedesigned.js:272-282 | the nested term loops find a hit exactly when some constraint's Oracle term occurs in the service text |
| ConstraintValidator.ConstraintValidatorRedesigned.constructor | server/services/constraintValidatorRedesigned.js:8-47 | the validator holds the terminology table, the preference table and the pattern lists as written |
| ConstraintValidator.ConstraintValidatorRedesigned.ExtractRestrictiveConstraints | server/services/constraintValidatorRedesigned.js:80-103 | appends one entry per restrictive match reading `(match[2] \|\| match[1]).trim()` |
| ConstraintValidator.ConstraintValidatorRedesigned.ExtractExclusionConstraints | server/services/constraintValidatorRedesigned.js:105-129 | appends one entry per exclusion match reading `(match[3] \|\| match[1]).trim()` |
| ConstraintValidator.ConstraintValidatorRedesigned.ExtractBusinessPreferences | server/services/constraintValidatorRedesigned.js:131-150 | adds exactly the preferences the text asks for |
| ConstraintValidator.ConstraintValidatorRedesigned.ExtractOracleServiceMentions | server/services/constraintValidatorRedesigned.js:152-174 | appends every mention of every service pattern, lowercased |
| ConstraintValidator.ConstraintValidatorRedesigned.GenerateValidationRules | server/services/constraintValidatorRedesigned.js:189-218 | appends the rules the constraints call for |
| ConstraintValidator.ConstraintValidatorRedesigned.ExtractCustomerConstraints | server/services/constraintValidatorRedesigned.js:52-78 | a fresh object holding the entries, preferences, mentions and rules of the lowercased text |
| ConstraintValidator.ConstraintValidatorRedesigned.ValidateRestrictiveRule | server/services/constraintValidatorRedesigned.js:268-289 | passes with score 1 iff some Oracle term of some constraint occurs in the service text, else fails with 0 |
| ConstraintValidator.ConstraintValidatorRedesigned.ValidateExclusionRule | server/services/constraintValidatorRedesigned.js:291-312 | fails with score 0 iff some Oracle term occurs in the service text, else passes with 1 |
| ConstraintValidator.ConstraintValidatorRedesigned.ApplyValidationRule | server/services/constraintValidatorRedesigned.js:252-266 | dispatches on the rule kind to the outcome each kind defines |
| ConstraintValidator.ConstraintValidatorRedesigned.ValidateServiceAgainstCustomerConstraints | server/services/constraintValidatorRedesigned.js:223-250 | the rule loop yields the combined verdict of all rules |
| ConstraintValidator.ConstraintValidatorRedesigned.FilterServicesWithConstraints | server/services/constraintValidatorRedesigned.js:391-429 | includes exactly the allowed services and rejects the rest, in order, with counts that add up to the input size |
| Catalog.FindCurrency | server/services/ociService.js:423-425 | the localization found has the requested currency code and is the first such; none is found only when no localization has it |
| Scanner.ExecSpec | server/services/constraintValidatorRedesigned.js:91 | `exec` with `lastIndex` at `from` reports the match at the leftmost position at or after `from` where the pattern matches, and nothing when there is none |
| Scanner.AllMatchesAreMatches | server/services/constraintValidatorRedesigned.js:90-101 | every match the `exec` loop visits is the match the engine reports at its own start |
| Scanner.AllMatchesCovers | server/services/constraintValidatorRedesigned.js:90-101 | the `exec` loop misses no occurrence: every position where the pattern matches starts or lies inside a visited match |
| Scanner.ClauseOfMatch | server/services/constraintValidatorRedesigned.js:83-86 | the lazy clause group `([^.,!?;]+?)(?=…\|$)` holds no delimiter and stops at the first delimiter or the end of the text, where the match ends |
| Scanner.NoBackslashNoUserCount | server/services/constraintValidatorRedesigned.js:139-142 | the doubly escaped user-count pattern never matches a text without a backslash, so no user count is recorded from ordinary text |
| OciRedesigned.GroupIndex | server/services/ociServiceRedesigned.js:898-902 | the index found is the first taxonomy group whose categories include the service category; none when no group does |
| OciRedesigned.ServiceCategorySpec | server/services/ociServiceRedesigned.js:897-904 | in a valid taxonomy a service belongs to the group covering its category, and to `other` exactly when no group does |
| OciRedesigned.NormalizePricingData | server/services/ociServiceRedesigned.js:909-940 | the result always has a unit price; pricing that already has one is returned as is, otherwise the USD price is used and a zero or missing price becomes the 0.05 default |
| OciRedesigned.NormalizeIdempotent | server/services/ociServiceRedesigned.js:910-913 | normalizing already normalized pricing changes nothing |
| OciRedesigned.NormalizeSource | server/services/ociServiceRedesigned.js:918-937 | without usable pricing, a non-zero USD localization price is kept; otherwise the default pricing applies |
| OciRedesigned.NamedProduct | server/services/ociServiceRedesigned.js:576-583 | the product chosen is the first of the group whose pattern occurs in the lowercased display name; none for a service without a name |
| OciRedesigned.AnnotateSpec | server/services/ociServiceRedesigned.js:574-585 | only the product family and description change, and only through the group covering the service |
| OciRedesigned.EnhanceServices | server/services/ociServiceRedesigned.js:568-592 | one enhanced service per input service, in order |
| OciRedesigned.EnhanceSpec | server/services/ociServiceRedesigned.js:568-592 | an enhanced service keeps every other property, takes the family and description of the first named product of its group, and gets normalized pricing |
| OciRedesigned.Add | server/services/ociServiceRedesigned.js:648 | `Set.add` adds the element once: membership grows by exactly that element and no duplicate appears |
| OciRedesigned.AddCategoriesSpec | server/services/ociServiceRedesigned.js:646-650 | a category is added exactly when one of its group's categories is a substring of the translated service name, without repeats |
| OciRedesigned.AddProductsSpec | server/services/ociServiceRedesigned.js:652-656 | a product is added exactly when one of its patterns occurs in the requirement text, without repeats |
| OciRedesigned.AddGroupProductsSpec | server/services/ociServiceRedesigned.js:646-657 | the products of every group whose pattern occurs in the text are added, without repeats |
| OciRedesigned.ScanRequirementsSpec | server/services/ociServiceRedesigned.js:643-659 | categories and products grow exactly by those required by some term found in the text, without repeats |
| OciRedesigned.Assign | server/services/ociServiceRedesigned.js:664 | `Object.assign` overrides exactly the properties the value has and keeps the others |
| OciRedesigned.ScanPreferencesSpec | server/services/ociServiceRedesigned.js:662-673 | the budget level changes only to a tier a phrase in the text sets, and the merged tier and licensing stay equal to the budget level and licensing preference |
| OciRedesigned.EscapedClauseAt | server/services/ociServiceRedesigned.js:683 | a capture of `only\\s+([^.,!?;]+)` is a delimiter-free clause that follows the word and a literal backslash |
| OciRedesigned.EscapedClauseAtAny | server/services/ociServiceRedesigned.js:693 | a capture of `(?:no\|exclude)\\s+…` is a delimiter-free clause and the text holds a backslash |
| OciRedesigned.FirstEscapedClause | server/services/ociServiceRedesigned.js:683-693 | the leftmost capture is a delimiter-free clause |
| OciRedesigned.NoBackslashNoClause | server/services/ociServiceRedesigned.js:683-693 | the doubly escaped constraint patterns never match a text without a backslash |
| OciRedesigned.IntentConstraintsSpec | server/services/ociServiceRedesigned.js:682-700 | at most one constraint of each kind is extracted, the restrictive one first, and no value holds a delimiter |
| OciRedesigned.ClauseTrimKeeps | server/services/ociServiceRedesigned.js:687 | trimming a clause keeps it free of delimiters |
| OciRedesigned.NoBackslashNoConstraints | server/services/ociServiceRedesigned.js:676-700 | a requirement text without a backslash yields no constraints and no user count |
| OciRedesigned.IntentSpec | server/services/ociServiceRedesigned.js:630-703 | the intent's categories are the groups covering a translation of a term found, its products those named once some term occurs, both without repeats, with budget level and licensing set by the preference phrases |
| OciRedesigned.LoadBalancerNamesNoGroup | server/services/ociServiceRedesigned.js:181 | the translation "Load Balancer" contains no group's category, so the phrase alone requires no category |
| OciRedesigned.GroupByKey | server/services/ociServiceRedesigned.js:735 | the taxonomy lookup finds the group with that key, or reports that none has it |
| OciRedesigned.NoCategoryHits | server/services/ociServiceRedesigned.js:734-740 | with no covering category the category bonus is zero |
| OciRedesigned.CategoryHitsAtMostOne | server/services/ociServiceRedesigned.js:734-740 | with distinct keys and disjoint groups at most one required category covers a service, so the category bonus is at most 0.5 |
| OciRedesigned.NoProductHits | server/services/ociServiceRedesigned.js:743-748 | with no matching product the product bonus is zero |
| OciRedesigned.ProductHitsAtMostOne | server/services/ociServiceRedesigned.js:743-748 | with distinct products at most one equals the service's product family |
| OciRedesigned.MatchScoreBounds | server/services/ociServiceRedesigned.js:729-788 | a business match score lies between 0 and 2.0 for a parsed intent, and at most 1.4 after the 0.7 budget discount |
| OciRedesigned.MatchScorePositive | server/services/ociServiceRedesigned.js:729-788 | a service scores above zero exactly when it fails no constraint and earns some bonus; a failed constraint zeroes the score |
| OciRedesigned.MatchedSpec | server/services/ociServiceRedesigned.js:708-724 | every matched service scores above zero with its own score, and every service scoring above zero is matched |
| OciRedesigned.FirstPicksSpec | server/services/ociServiceRedesigned.js:802-810 | each first-pass pick scores above 0.3 and is a candidate of a required, uncovered category, and no two picks share a category |
| OciRedesigned.FirstPicksComplete | server/services/ociServiceRedesigned.js:802-810 | the best candidate of each required category is picked |
| OciRedesigned.ExtrasSpec | server/services/ociServiceRedesigned.js:813-819 | the second pass only appends, stops at 15, and appends services scoring above 0.2 whose part number no earlier entry has |
| OciRedesigned.DistinctWithin | server/services/ociServiceRedesigned.js:799-808 | distinct categories drawn from the required ones are no more numerous than those |
| OciRedesigned.RankedSpec | server/services/ociServiceRedesigned.js:793-822 | the ranked list holds input services scoring above 0.2, at most 15 of them when at most 15 categories are required |
| OciRedesigned.RankedKeepsBest | server/services/ociServiceRedesigned.js:795-810 | the best-scoring candidate of each required category is ranked |
| OciRedesigned.InCategory | server/services/ociServiceRedesigned.js:857-859 | exactly the catalogue services of the category are kept |
| OciRedesigned.FindTier | server/services/ociServiceRedesigned.js:868-871 | the service found has the tier and comes from the list; none only when no service has it |
| OciRedesigned.FindLicensing | server/services/ociServiceRedesigned.js:876-878 | the service found has the licensing model; none only when no service has it |
| OciRedesigned.FallbackSpec | server/services/ociServiceRedesigned.js:856-892 | there is a fallback exactly when the catalogue has a service of the category; it prefers the licensing model, then the budget tier, then the first, scored 0.5 |
| OciRedesigned.FallbackShape | server/services/ociServiceRedesigned.js:884-891 | a fallback is a catalogue service of the requested category, scored 0.5 |
| OciRedesigned.PresentCategoriesSpec | server/services/ociServiceRedesigned.js:831-837 | a category is present exactly when some listed service has it |
| OciRedesigned.FallbacksSound | server/services/ociServiceRedesigned.js:840-848 | every fallback added is a catalogue service of a missing required category, scored 0.5 |
| OciRedesigned.FallbacksComplete | server/services/ociServiceRedesigned.js:840-848 | each missing required category that the catalogue covers gets a fallback of that category |
| OciRedesigned.CoverSpec | server/services/ociServiceRedesigned.js:827-851 | at most 20 services come out, the ranked ones first, every added one a fallback for a missing required category |
| Catalog.NonBlank | server/services/ociServiceRedesigned.js:949 | exactly the present names that are not blank after trimming are kept |
| OciRedesignedService.CacheWindow | server/services/ociServiceRedesigned.js:510-563 | within the expiry every call gets the list the miss served, whatever the API would answer then, including the embedded catalogue stored on a failure |
| OciRedesignedService.CacheExpires | server/services/ociServiceRedesigned.js:514-520 | once the expiry has passed a call asks the API again as if nothing were cached |
| OciRedesignedService.PipelineSpec | server/services/ociServiceRedesigned.js:597-625 | at most 20 services come out, each a matched service with its own score above 0.2 or a catalogue fallback scored 0.5 |
| OciRedesignedService.TaxonomyValid | server/services/ociServiceRedesigned.js:28-156 | the embedded taxonomy has distinct keys, none `other`, and disjoint groups |
| OciRedesignedService.PreferenceTermsTruthy | server/services/ociServiceRedesigned.js:186-201 | every tier and licensing model the preference table sets is non-empty |
| OciRedesignedService.OciServiceRedesigned.constructor | server/services/ociServiceRedesigned.js:13-26 | the service starts with an empty cache, a one-hour expiry and the embedded taxonomy, translation tables and catalogue |
| OciRedesignedService.OciServiceRedesigned.GetAllServices | server/services/ociServiceRedesigned.js:510-563 | a fresh cached list, else the enhanced API list, else the embedded catalogue; a miss stores what it serves |
| OciRedesignedService.OciServiceRedesigned.GetServiceCategory | server/services/ociServiceRedesigned.js:897-904 | the key of a group covering the service's category, and `other` exactly when no group covers it |
| OciRedesignedService.OciServiceRedesigned.EnhanceServicesWithBusinessMetadata | server/services/ociServiceRedesigned.js:568-592 | each service annotated through its group's products, pricing normalized |
| OciRedesignedService.OciServiceRedesigned.EnhanceOne | server/services/ociServiceRedesigned.js:569-590 | one service enhanced as the enhancement specification says: every other property kept, the family and description of the first named product of its group, normalized pricing |
| OciRedesignedService.OciServiceRedesigned.ParseBusinessRequirements | server/services/ociServiceRedesigned.js:630-703 | the intent of the lowercased serialized requirements, with categories and products free of repeats and a merged tier that agrees with the budget level |
| OciRedesignedService.OciServiceRedesigned.ApplyPreferenceTerms | server/services/ociServiceRedesigned.js:662-673 | the preference loop merges each phrase found and updates the budget level and licensing preference |
| OciRedesignedService.OciServiceRedesigned.ApplyRequirementTerms | server/services/ociServiceRedesigned.js:642-658 | starting empty, the requirement loop collects exactly the categories and products required by some term found in the text, without repeats |
| OciRedesignedService.OciServiceRedesigned.ExtractIntentConstraints | server/services/ociServiceRedesigned.js:681-700 | the constraints extracted are those of the constraint specification: the `only` clause, then the `no`/`exclude` clause |
| OciRedesignedService.OciServiceRedesigned.AddTermMatches | server/services/ociServiceRedesigned.js:646-657 | for one term found, the category test and product test of every group |
| OciRedesignedService.OciServiceRedesigned.CalculateBusinessMatch | server/services/ociServiceRedesigned.js:729-788 | the loops compute the business match score |
| OciRedesignedService.OciServiceRedesigned.MatchServicesWithBusinessIntent | server/services/ociServiceRedesigned.js:708-724 | keeps every service scoring above zero, in order, with its score |
| OciRedesignedService.OciServiceRedesigned.RankServicesByBusinessValue | server/services/ociServiceRedesigned.js:793-822 | sorts by score, takes each required category's best, then adds others up to 15 |
| OciRedesignedService.OciServiceRedesigned.GroupByCategory | server/services/ociServiceRedesigned.js:828-837 | the grouping has a non-empty list for exactly the present categories |
| OciRedesignedService.OciServiceRedesigned.EnsureCompleteServiceCoverage | server/services/ociServiceRedesigned.js:827-851 | groups, adds a fallback per missing required category, keeps 20 |
| OciRedesignedService.OciServiceRedesigned.AddFallbacks | server/services/ociServiceRedesigned.js:840-848 | appends a fallback for each required category with no service |
| OciRedesignedService.OciServiceRedesigned.FindMatchingServices | server/services/ociServiceRedesigned.js:597-625 | obtains the list, parses the requirements, matches, ranks and covers, returning at most 20 services |
| OciRedesignedService.OciServiceRedesigned.GetServiceCategories | server/services/ociServiceRedesigned.js:945-954 | the distinct non-blank categories of the served list, each once |
| Catalog.ServiceCategoryNamesSpec | server/services/ociService.js:10-19 | each category name is listed once, and a name is listed exactly when some service has it as a category that is not blank after trimming |
| OciService.CacheHit | server/services/ociService.js:24-30 | a fresh entry is served as it is and the cache is left alone, whatever the API would answer |
| OciService.FallbackNotCached | server/services/ociService.js:50-54 | when the API is unreachable the fallback list is served and nothing is stored, so the next call asks the API again |
| OciService.FetchCached | server/services/ociService.js:32-49 | a successful fetch is stored and served unchanged for as long as the entry stays fresh |
| OciService.FallbackCatalogue | server/services/ociService.js:57-217 | the fallback list has twelve entries, each priced once in US dollars |
| OciService.FallbackPartNumbers | server/services/ociService.js:57-217 | the fallback entries have distinct part numbers |
| OciService.CountFound | server/services/ociService.js:315-317 | the count is at most the number of keywords, 0 exactly when none occurs and full exactly when all occur |
| OciService.KeywordCountsSpec | server/services/ociService.js:298-321 | one count per category in table order, between 0 and the size of its keyword list, 0 exactly when none of its keywords occurs |
| OciService.CategoryPoints | server/services/ociService.js:328-334 | the category contribution is never negative |
| OciService.WordPoints | server/services/ociService.js:337-344 | the word contribution is never negative |
| OciService.BoostPointsSpec | server/services/ociService.js:347-361 | the boost sum is never negative and is at least every boost whose category the service text names |
| OciService.RelevanceBounds | server/services/ociService.js:323-364 | the score lies in [0, 1.0], equals 1.0 exactly when the raw sum reaches it, and is at least every boost that applies |
| OciService.PriceOrZero | server/services/ociService.js:375 | `parseFloat(x) \|\| 0`: an unparsable price becomes 0, a parsed one is kept |
| OciService.ExtractPricingSpec | server/services/ociService.js:366-388 | no localizations give empty pricing; otherwise every currency is listed with its price, and a US-dollar price and model exist exactly when some entry is in US dollars |
| OciService.ExtractPricingUsd | server/services/ociService.js:371-377 | the US-dollar price reported is that of the first US-dollar entry, 0 when it does not parse |
| OciService.FirstListed | server/services/ociService.js:236 | the first pricing entry is taken exactly when pricing is a non-empty list |
| OciService.NormalizeSpec | server/services/ociService.js:239-244 | normalization adds a unit price where a price exists and a unit where a metric name exists, touches nothing else and is idempotent |
| OciService.FinalPricingSpec | server/services/ociService.js:231-244 | a service gets pricing exactly when it has localizations or a non-empty price list, taken from the localizations first |
| OciService.Assessed | server/services/ociService.js:227-254 | one assessment per service |
| OciService.PricedPlainSpec | server/services/ociService.js:262-279 | each unmatched-path entry has relevance 0.5, a pricing with a unit price or price, and comes from a listed service |
| OciService.CandidateFrom | server/services/ociService.js:227-254 | every candidate scores in (0.1, 1.0] and is the scored, priced form of some listed service |
| OciService.MatchesFound | server/services/ociService.js:256-291 | when some service is relevant and priced, at most twenty come out, each scoring in (0.1, 1.0], sorted by descending relevance |
| OciService.MatchesComplete | server/services/ociService.js:256-291 | with at most twenty candidates every relevant priced service is in the result |
| OciService.MatchesUnmatched | server/services/ociService.js:260-280 | when nothing is relevant and priced, the result comes from the first fifteen services, each with relevance 0.5 and a usable price |
| OciService.ServicesInCategory | server/services/ociService.js:404-407 | a service is kept exactly when it has a category containing the requested one, ignoring case |
| OciService.FindByPart | server/services/ociService.js:393 | the service found has the part number; none only when no service has it |
| OciService.PricingForCurrency | server/services/ociService.js:417-434 | `null` exactly when the service, its localizations or the currency is missing; otherwise the first entry in that currency with its parsed price |
| OciService.OciServiceProvider.constructor | server/services/ociService.js:4-8 | the provider starts with an empty cache and a one-hour expiry |
| OciService.OciServiceProvider.GetAllServices | server/services/ociService.js:21-55 | a fresh cached payload, else the API payload (stored), else the fallback list (not stored) |
| OciService.OciServiceProvider.GetServiceCategories | server/services/ociService.js:10-19 | the distinct non-blank categories of the listing, each once; a payload that is not a list fails with the source's message |
| OciService.OciServiceProvider.CalculateRelevanceScore | server/services/ociService.js:323-364 | the relevance score, within [0, 1.0] |
| OciService.OciServiceProvider.MatchServices | server/services/ociService.js:227-291 | relevant priced services sorted by relevance, at most twenty, each scoring in (0.1, 1.0], or the unmatched fallback |
| OciService.OciServiceProvider.FindMatchingServices | server/services/ociService.js:219-296 | the matching over the served listing; a payload that is not a list fails with the source's message |
| OciService.OciServiceProvider.GetServicesByCategory | server/services/ociService.js:401-412 | the services of the category from the served listing, or the source's error |
| OciService.OciServiceProvider.GetPricingForCurrency | server/services/ociService.js:390-439 | the currency quote for the looked-up service, or the source's error |
| LlmService.CallTarget | server/services/llmService.js:300-315 | a provider id is accepted exactly when it is one of the five supported ids; any other fails with "Unsupported LLM provider: " and the id |
| LlmService.CallTargetSpec | server/services/llmService.js:300-315 | the dispatch is one-to-one: each supported id selects its own client and no other id selects any |
| LlmService.FirstPrice | server/services/llmService.js:162 | a candidate gets a price exactly when its pricing is a non-empty list, and then it is the first entry |
| LlmService.PricedSound | server/services/llmService.js:158-164 | every listed candidate comes from a service with a non-empty price list, no more than the services given |
| LlmService.PricedComplete | server/services/llmService.js:158-164 | every service with a non-empty price list survives the filter |
| LlmService.PrepareServicesSpec | server/services/llmService.js:158-167 | at most fifteen candidates are listed, each the first price of a service with a price list, and all of them when there are at most fifteen |
| LlmService.TooLongSpec | server/services/llmService.js:176-182 | the size guard trips exactly when the two prompts together exceed 600000 characters (150000 estimated tokens) |
| LlmService.LastIndexOf | server/services/llmService.js:202 | the index found holds the character and no later index does; none when the character is absent |
| LlmService.BraceSpanSpec | server/services/llmService.js:121 | `/\{[\s\S]*\}/` matches exactly when some `{` precedes some `}`, spanning the first `{` to the last `}`, so it passes the start check |
| LlmService.FenceBodyShape | server/services/llmService.js:196-198 | a fenced body is the text between the opening fence, its white space, and the first closing fence |
| LlmService.NoTicksBefore | server/services/llmService.js:196 | the lazy body of the fence pattern holds no "```" |
| LlmService.FenceBodySpec | server/services/llmService.js:196-198 | the fenced body holds no "```" and neither starts nor ends with white space, so the `trim` changes nothing |
| LlmService.FenceBodyMissing | server/services/llmService.js:195-199 | when the reply has "```json", the fence pattern fails exactly when no "```" follows the opening |
| LlmService.ExtractBlockSlice | server/services/llmService.js:192-206 | the extracted block is always a piece of the reply |
| LlmService.GenerateBomSpec | server/services/llmService.js:156-270 | as written: an over-long prompt fails with the size message before any provider is consulted; every other failure carries the "Failed to generate BOM: " prefix; a success has an `items` array and passed the start check |
| LlmService.GenerateBomFixedSpec | server/services/llmService.js:156-270 | the same three properties over the corrected candidate list (see Findings) |
| LlmService.LiveRouteBom | server/services/llmService.js:156-182 | as written, the live route's BOM request equals one over an empty candidate list: its prompt announces "(0 services)" and the size guard measures that prompt |
| LlmService.ParseBlockSpec | server/services/llmService.js:217-250 | the aggressive repair runs only after the cleaned parse fails, and it starts from the extracted block, not the cleaned one |
| LlmService.AnalyzeRequirementsSpec | server/services/llmService.js:89-154 | with follow-up answers a success never asks for more follow-up; without them the model's answer is returned as parsed; a reply with no brace span fails |
| LlmService.ParseDocumentContentSpec | server/services/llmService.js:272-298 | the model's answer comes back verbatim; it succeeds exactly when the provider is supported and answered, and every failure carries the "Failed to parse document: " prefix |
| LlmService.LiveRouteListsNothing | server/services/llmService.js:158-164 | as written, no match of the older provider survives the candidate filter, so the prompt lists no service |
| LlmService.PricedObjects | server/services/llmService.js:162-164 | services whose pricing is a single object are all dropped |
| LlmService.AnyPrice | server/services/llmService.js:162 | the corrected candidate pricing: the first of a list, or a single object, and none when pricing is missing |
| LlmService.PricedAnyMatches | server/services/llmService.js:158-164 | with the correction every match reaches the list with its own pricing object |
| LlmService.LiveRouteFixed | server/services/llmService.js:158-167 | with the correction the prompt lists the first fifteen matches of the live route, in order |
| LlmService.PricedAnySound | server/services/llmService.js:158-164 | with the correction every listed candidate carries the part number and candidate price of a given service |
| LlmService.PrepareServicesFixedSpec | server/services/llmService.js:158-167 | with the correction at most fifteen candidates are listed, each priced by a given service's list head or pricing object |
| LlmService.PrepareFixedAgrees | server/services/llmService.js:158-167 | on price lists the correction agrees with the code as written |
| ExcelLayout.MonthlyMultiplier | server/services/excelGenerator.js:226-280 | the multiplier is always one of 744, 31, 4.33, 1 and 0.0833, and so is positive |
| ExcelLayout.MultiplierSpec | server/services/excelGenerator.js:226-280 | a missing metric gives 1; a present one is decided by the time word of its lower-cased text alone, whichever of the `_`/`/`/plain spellings it uses |
| ExcelLayout.GbHourIsHourly | server/services/excelGenerator.js:232-237 | the hour rule is checked before the storage rule, so "GB Hour" is priced at 744 hours a month |
| ExcelLayout.CategoryOf | server/services/excelGenerator.js:467 | an item's group name is never empty and is its own category whenever that is set |
| ExcelLayout.ObjectKeysPermutes | server/services/excelGenerator.js:177 | `Object.keys` lists each created key as often as it was created: it only reorders |
| ExcelLayout.ObjectKeysOrder | server/services/excelGenerator.js:177 | `Object.keys` lists the array-index keys first, in ascending numeric order, then the other keys in creation order |
| ExcelLayout.IndexKeyListedFirst | server/services/excelGenerator.js:177 | a key "7" created after "Compute" is listed before it |
| ExcelLayout.Grouping | server/services/excelGenerator.js:459-475 | missing data gives one empty 'General' group; the grouping fails with the `push` error exactly when some category is an inherited property of a plain object; otherwise there is one group per distinct category |
| ExcelLayout.GroupKeysSpec | server/services/excelGenerator.js:466-472 | the grouping's keys are distinct and are exactly the items' categories |
| ExcelLayout.IndexCategoryFirst | server/services/excelGenerator.js:459-475 | items in "Compute" then "7" give the "7" group first |
| ExcelLayout.InheritedCategoryFails | server/services/excelGenerator.js:466-471 | an item in category "toString" makes the grouping fail with the `push` error |
| ExcelLayout.NamesSpec | server/services/excelGenerator.js:466-472 | the group names are distinct, and a name is listed exactly when some item has that category |
| ExcelLayout.InCategorySpec | server/services/excelGenerator.js:466-472 | a group holds only items of its category, and every such item as often as the input does, in input order |
| ExcelLayout.GroupSizesStep | server/services/excelGenerator.js:466-472 | adding an item grows exactly the group of its category by one |
| ExcelLayout.GroupingPartitions | server/services/excelGenerator.js:459-475 | the group sizes add up to the item count: every item lands in exactly one group |
| ExcelLayout.GroupsNonEmpty | server/services/excelGenerator.js:459-475 | with item data present no group is empty |
| ExcelLayout.FillGrouping | server/services/excelGenerator.js:466-472 | the loop fails with the `push` error exactly when some category is an inherited property; otherwise it records each category once, at its first appearance, with exactly its items in input order |
| ExcelLayout.GroupByCategory | server/services/excelGenerator.js:459-475 | fails exactly when the grouping specification does; otherwise the `Object.keys` order of its object and its lists agree with the grouping specification, key for key |
| ExcelLayout.ItemRow | server/services/excelGenerator.js:200-224 | an item row sits on its own row and its monthly and annual prices are formulas over that row's cells |
| ExcelLayout.ItemRows | server/services/excelGenerator.js:186-189 | a category gets one row per item |
| ExcelLayout.SubtotalRowsSpec | server/services/excelGenerator.js:177-195 | each category takes a title row, its item rows and a subtotal row, the next starting two rows later; the recorded subtotal rows are one per category, strictly increasing and inside the table |
| ExcelLayout.GroupLinesRows | server/services/excelGenerator.js:177-195 | the rows of one category are strictly increasing and lie in its band |
| ExcelLayout.TableRows | server/services/excelGenerator.js:142-198 | no table row is written twice and all lie between the first category row and the table's end |
| ExcelLayout.SubtotalCoversItems | server/services/excelGenerator.js:282-299 | a category subtotal sums exactly its item rows, first to last |
| ExcelLayout.ItemPrices | server/services/excelGenerator.js:202-215 | evaluated, the monthly price is quantity × unit price × the metric multiplier and the annual price is twelve times the monthly one |
| ExcelLayout.HourlyItemText | server/services/excelGenerator.js:214-215 | an hourly item on row 8 carries the formula texts `=D8*F8*744` and `=G8*12` |
| ExcelLayout.SummarySpec | server/services/excelGenerator.js:301-390 | the discount amount multiplies the total by the discount cell, the final total subtracts it, and the [0, 1] validation sits on the discount cell |
| ExcelLayout.Discounted | server/services/excelGenerator.js:357-375 | taking off total × d leaves total × (1 − d), which for d in [0, 1] lies between 0 and the total |
| ExcelLayout.SummaryTotals | server/services/excelGenerator.js:324-334 | the before-discount totals add the recorded subtotal cells, or with none recorded the range from row 7 to the row above the summary |
| ExcelLayout.SummaryRows | server/services/excelGenerator.js:301-375 | the summary starts three rows below the table and its rows increase |
| ExcelLayout.MarkedRowsSpec | server/services/excelGenerator.js:440-457 | exactly the rows of the range whose column-A label contains `Subtotal:` are listed, in increasing order |
| ExcelLayout.CellAOnce | server/services/excelGenerator.js:440-457 | on a sheet whose rows are written once each, column A of a row is what that row's write put there |
| ExcelLayout.TitleUnmarked | server/services/excelGenerator.js:179-183 | a category title row carries no subtotal label |
| ExcelLayout.ItemUnmarked | server/services/excelGenerator.js:200-224 | column A of an item row is empty |
| ExcelLayout.SubtotalMarked | server/services/excelGenerator.js:282-299 | column A of a subtotal row carries `<name> Subtotal:`, and the row below it stays blank |
| ExcelLayout.GroupCells | server/services/excelGenerator.js:177-195 | only the subtotal row of a category carries a subtotal label |
| ExcelLayout.GroupMarked | server/services/excelGenerator.js:177-195 | scanning one category finds only its subtotal row |
| ExcelLayout.SplitCells | server/services/excelGenerator.js:177-195 | rows appended below a band leave column A of the band unchanged, and the reverse |
| ExcelLayout.MarkedConcat | server/services/excelGenerator.js:440-457 | scanning two consecutive bands is scanning each on its own |
| ExcelLayout.TableMarked | server/services/excelGenerator.js:440-457 | on a finished table the column-A scan finds exactly the subtotal rows the table recorded, in order |
| ExcelLayout.SubtotalSumOfTable | server/services/excelGenerator.js:440-457 | over a non-empty table the scan-based formula sums exactly the recorded subtotal cells, the same cells the summary adds |
| ExcelLayout.Worksheet.constructor | server/services/excelGenerator.js:75-83 | a new worksheet has no rows |
| ExcelLayout.ExcelGenerator.constructor | server/services/excelGenerator.js:4-62 | no subtotal row is recorded yet |
| ExcelLayout.ExcelGenerator.AddBomRow | server/services/excelGenerator.js:200-224 | appends exactly the item's row |
| ExcelLayout.ExcelGenerator.AddCategorySubtotal | server/services/excelGenerator.js:282-299 | appends exactly the category's subtotal row |
| ExcelLayout.ExcelGenerator.AddGroup | server/services/excelGenerator.js:177-195 | appends a category's title, item and subtotal rows and returns the subtotal row |
| ExcelLayout.ExcelGenerator.AddGroups | server/services/excelGenerator.js:177-195 | appends the table of all categories, records one subtotal row per category and returns the table's end |
| ExcelLayout.ExcelGenerator.AddBomTable | server/services/excelGenerator.js:142-198 | resets the recorded rows and writes the headings on row 6; then fails with the `push` error exactly when the grouping does, and otherwise writes the grouped table in `Object.keys` order and returns the row after it |
| ExcelLayout.ExcelGenerator.AddSummarySection | server/services/excelGenerator.js:301-390 | appends the summary for the recorded subtotal rows three rows below the table |
| ExcelLayout.ExcelGenerator.CreateBom | server/services/excelGenerator.js:64-111 | fails with "Failed to create Excel file: " and the `push` error exactly when the grouping fails; otherwise the main sheet is the headings, the grouped table and the summary over the table's own subtotal rows |
| ExcelLayout.ExcelGenerator.MarkedCells | server/services/excelGenerator.js:440-457 | the cell names of exactly the marked rows of the range, in order |
| ExcelLayout.ExcelGenerator.CreateSubtotalFormula | server/services/excelGenerator.js:440-457 | sums the marked cells of the column, or the whole range when none is marked |
| SavedPrompts.Shown | server/services/savedPromptsService.js:174 | the follow-up answers are shown one string per answer |
| SavedPrompts.TitleCase | server/services/savedPromptsService.js:165 | title-casing keeps the length |
| SavedPrompts.TitleCaseFolds | server/services/savedPromptsService.js:165 | title-casing changes only the case of letters |
| SavedPrompts.FirstFound | server/services/savedPromptsService.js:157-162 | returns a keyword that occurs and no earlier keyword occurs; nothing exactly when no keyword occurs |
| SavedPrompts.PromptNamePrefix | server/services/savedPromptsService.js:148-171 | every generated name opens with "BOM for " |
| SavedPrompts.PromptNameKeyword | server/services/savedPromptsService.js:164-166 | with a keyword present, the name is, up to case, "BOM for " + the first present keyword + " System" |
| SavedPrompts.PromptNameWords | server/services/savedPromptsService.js:168-170 | with no keyword present, the name is, up to case, "BOM for " + the first four words of the lowercased text |
| SavedPrompts.ClassifySpec | server/services/savedPromptsService.js:173-196 | the category is the first whose keywords occur in the text, or 'General Applications' when none does |
| SavedPrompts.SelectedSpec | server/services/savedPromptsService.js:242-246 | the selected tags are exactly those with a keyword in the text, each once |
| SavedPrompts.ExtractTagsSpec | server/services/savedPromptsService.js:227-249 | at most five distinct tags, in table order, each selected by the text; all of them when five or fewer are selected |
| SavedPrompts.Prefix | server/services/savedPromptsService.js:203 | a substring from 0 is a prefix of length at most `n` |
| SavedPrompts.DescriptionSpec | server/services/savedPromptsService.js:198-225 | the description opens with the first 100 characters, adds "..." only for longer text, and lists the user/spec details after " \| " only when there are some |
| SavedPrompts.AllPromptsSpec | server/services/savedPromptsService.js:27-41 | the listing is newest first by last use or creation, holds exactly the stored records, and is empty when the file cannot be read |
| SavedPrompts.NewPrompt | server/services/savedPromptsService.js:48-90 | the saved record keeps the id, requirements and provider, is stamped now with one use, and keeps a given name |
| SavedPrompts.NewPromptNamed | server/services/savedPromptsService.js:56 | a saved record always has a name, a generated "BOM for ..." one when none is given |
| SavedPrompts.IndexOf | server/services/savedPromptsService.js:95 | the index of the first record with the id, or none when no record has it |
| SavedPrompts.MergeSpec | server/services/savedPromptsService.js:101-107 | an update replaces exactly the properties it carries, while the last use and the count follow the use |
| SavedPrompts.WithoutIdSpec | server/services/savedPromptsService.js:135 | no record with the id survives, every other record does, and nothing changes when the id is absent |
| SavedPrompts.WithoutIdKeepsOrder | server/services/savedPromptsService.js:135 | removal keeps the order of the remaining records |
| SavedPrompts.Trigrams | server/services/savedPromptsService.js:258-262 | one lowercased three-word phrase per starting word that has two words after it |
| SavedPrompts.Tally | server/services/savedPromptsService.js:266-269 | one count per distinct phrase |
| SavedPrompts.Top | server/services/savedPromptsService.js:272-275 | at most ten phrases are kept |
| SavedPrompts.RelatedSpec | server/services/savedPromptsService.js:277-280 | exactly the phrases that contain the query or are contained in it survive, without new duplicates |
| SavedPrompts.TopSpec | server/services/savedPromptsService.js:272-275 | the top phrases are distinct and each is one of the counted phrases |
| SavedPrompts.TopDominates | server/services/savedPromptsService.js:272-275 | an entry left out of the top ten is no more frequent than any entry kept |
| SavedPrompts.TopIsMostFrequent | server/services/savedPromptsService.js:266-275 | a phrase left out of the top ten is used no more often than any kept |
| SavedPrompts.SuggestionsSpec | server/services/savedPromptsService.js:251-281 | at most ten distinct suggestions, each a three-word phrase of a stored prompt related to the lowercased partial text |
| SavedPrompts.SavedPromptsService.constructor | server/services/savedPromptsService.js:5-25 | a missing data file is created holding an empty list |
| SavedPrompts.SavedPromptsService.GetPromptById | server/services/savedPromptsService.js:43-46 | returns the first record in listing order with the id (no earlier listed record has it, as `find` does), and nothing exactly when no record has it |
| SavedPrompts.SavedPromptsService.SavePrompt | server/services/savedPromptsService.js:48-90 | writes back the listing with exactly the new record appended |
| SavedPrompts.SavedPromptsService.UpdatePrompt | server/services/savedPromptsService.js:92-115 | an unknown id fails with "Prompt not found" and leaves the file; otherwise only the first record with the id is merged |
| SavedPrompts.SavedPromptsService.IncrementUsage | server/services/savedPromptsService.js:117-130 | an unknown id changes nothing; otherwise only the first record with the id gets a new last use and one more use |
| SavedPrompts.SavedPromptsService.DeletePrompt | server/services/savedPromptsService.js:132-142 | writes back the listing without the id and reports success |
| SavedPrompts.SavedPromptsService.GetPromptSuggestions | server/services/savedPromptsService.js:251-281 | the loops compute the suggestion specification over the listed prompts |
| SavedPrompts.CollectTrigrams | server/services/savedPromptsService.js:258-262 | the loop yields one prompt's trigrams |
| SavedPrompts.CollectPhrases | server/services/savedPromptsService.js:256-263 | the loop yields every prompt's trigrams in order |
| SavedPrompts.CountPhrases | server/services/savedPromptsService.js:266-269 | the loop yields each distinct phrase with its number of occurrences, in order of first occurrence |
| SavedPrompts.SaveKeeps | server/services/savedPromptsService.js:48-90 | a save adds exactly the new record to what was stored, or writes it alone after a failed read |
| SavedPrompts.DeleteSpec | server/services/savedPromptsService.js:132-142 | a delete keeps every other stored record and removes all with the id |
| RequestValidation.HandlerAt | server/middleware/validation.js:99 | a match of the event-handler pattern is "on", at least two word characters and a closing "=" |
| RequestValidation.RemoveHandlers | server/middleware/validation.js:99 | removing event handlers never lengthens the text and adds no character |
| RequestValidation.SanitizeInputSpec | server/middleware/validation.js:92-101 | a non-string passes unchanged; a sanitised string holds no angle bracket and no NUL, and only characters of the input |
| RequestValidation.NoAngleNoScript | server/middleware/validation.js:132 | text without a `<` holds no `<script`, in any case |
| RequestValidation.SanitizeAnswers | server/middleware/validation.js:108-114 | every answer keeps its key; string answers are sanitised and the others kept |
| RequestValidation.SanitizeRequirements | server/middleware/validation.js:103-117 | truthy requirements and the string answers of an answers object are sanitised; everything else is kept |
| RequestValidation.ValidateContent | server/middleware/validation.js:120-146 | a successful check always answers true |
| RequestValidation.ValidateContentSpec | server/middleware/validation.js:120-146 | content passes exactly when it is a non-empty string within the limit (50000 by default) and free of the six suspicious patterns; each failing check gives its own error, the type check first |
| RequestValidation.DefaultLimitText | server/middleware/validation.js:126 | the default limit is rendered "50000" in the error text |
| RequestValidation.SanitizedNotScript | server/middleware/validation.js:92-146 | sanitised text never trips the `<script` check |
| RequestValidation.ValidateFileType | server/middleware/validation.js:149-175 | a successful check always answers true |
| RequestValidation.ValidateFileTypeSpec | server/middleware/validation.js:149-175 | an upload passes exactly when its type is one of the nine and its size at most 10 MiB, the type being checked first |
| RequestValidation.ValidateBomRequestSpec | server/middleware/validation.js:4-66 | a request passes exactly when every field follows its rule; the accepted body names one of the six currencies, USD by default, keeps the other fields, and validates again to itself |
| RequestValidation.ValidateDocumentUpload | server/middleware/validation.js:35-89 | an accepted upload body names one of the five providers |
| RequestValidation.ValidateDocumentUploadSpec | server/middleware/validation.js:35-89 | an upload passes exactly with one of the five providers, and every accepted BOM request would pass it |
| DocumentParser.TypeInSpec | server/services/documentParser.js:68-75 | the type found lists the extension and no earlier type does; `unknown` exactly when no type lists it |
| DocumentParser.DocumentTypesMatchUploads | server/services/documentParser.js:11-18 | the extensions with a document type are exactly the ten the upload check allows: `.tiff` is an image, `.tif` and `.txt` are unknown |
| DocumentParser.Extname | server/services/documentParser.js:23 | an extension is empty or starts with "." |
| DocumentParser.ParseDocumentSpec | server/services/documentParser.js:20-66 | an extension without a type is refused with "Failed to parse document: Unsupported file type: ..." before any parser runs; a parsed document carries its type, the extracted text unchanged and the original name |
| DocumentParser.LiteralHandlerAt | server/services/documentParser.js:201 | a match of the pattern as written needs a backslash after "on" |
| DocumentParser.RemoveLiteralHandlers | server/services/documentParser.js:201 | the removal never lengthens the text and adds no character |
| DocumentParser.LiteralHandlersNeedBackslash | server/services/documentParser.js:201 | text without a backslash passes the event-handler removal unchanged |
| DocumentParser.TrimKeepsChars | server/services/documentParser.js:202 | trimming keeps only characters of its input |
| DocumentParser.SanitizedDocumentSpec | server/services/documentParser.js:198-202 | the kept text holds no angle bracket, only characters of the input, and no surrounding white space |
| DocumentParser.ValidateDocumentContentAccepts | server/services/documentParser.js:192-206 | content passes exactly when it is a non-empty string with something left after sanitising; the two failures have their own messages |
| DocumentParser.ValidateDocumentContentText | server/services/documentParser.js:204-212 | the result is the kept text, cut to 100000 characters and marked "... (content truncated)" when longer |
| DocumentParser.ValidateDocumentContentClean | server/services/documentParser.js:192-213 | no angle bracket survives and the result is never empty |
| DocumentParser.FiguresNeedBackslash | server/services/documentParser.js:168-179 | without a backslash in the text no figure pattern matches |
| DocumentParser.ExtractFigures | server/services/documentParser.js:176-188 | each pattern that matches sets its key to the figures found, and only matching patterns set keys |
| DocumentParser.ExtractInfrastructureKeywords | server/services/documentParser.js:166-189 | a pattern's key is set exactly when the pattern matches, and then to the figures read from its matches; text without a backslash yields nothing |
| DocumentParser.EmptyFigureList | server/services/documentParser.js:168-188 | a set key's figure list can be empty: the `i` flag lets `\D` match an upper-case `\D`, but the case-sensitive digit read finds nothing |
| TesterExtraction.LowerOr | test-universal-constraints.js:100-103 | a missing field reads as "", a present one keeps its length |
| TesterExtraction.FullMatches | test-universal-constraints.js:174 | the full matches of the entries, one per entry, in order |
| TesterExtraction.AllowedSkus | test-universal-constraints.js:107 | the lowercased SKUs, one per extracted SKU, in order |
| TesterExtraction.SkuPassesIff | test-universal-constraints.js:105-114 | the SKU gate passes exactly when no SKU was extracted or the lowercased part number is one of the lowercased SKUs |
| TesterExtraction.ScanPattern | test-universal-constraints.js:62-69 | the `exec` loop of one pattern pushes exactly the entries of the pattern's successive matches |
| TesterExtraction.ScanAll | test-universal-constraints.js:61-70 | the loop over a pattern list pushes the entries of every pattern, in list order |
| TesterExtraction.ExtractUserConstraints | test-universal-constraints.js:49-97 | extraction lowercases the text and scans the restrictive, scope and SKU lists into their three lists |
| TesterExtraction.ScanConcat | test-universal-constraints.js:61-70 | scanning two pattern lists one after the other is appending their entries |
| TesterExtraction.ScanOne | test-universal-constraints.js:61-70 | a one-pattern list pushes that pattern's `exec` entries |
| TesterExtraction.EntriesFromMatches | test-universal-constraints.js:63-69 | one entry per match of the `exec` loop, entry `n` built from match `n` |
| TesterExtraction.ScanSound | test-universal-constraints.js:61-94 | every entry comes from a match that some pattern of the list reports at the entry's start |
| TesterExtraction.ScanHas | test-universal-constraints.js:61-94 | an entry one pattern pushes is among the entries of the whole list |
| TesterExtraction.ScanComplete | test-universal-constraints.js:61-94 | no match is missed: wherever a pattern matches, an entry is pushed for a match of that pattern covering that position |
| TesterExtraction.LedAtTail | test-universal-constraints.js:11-21 | without a trigger group, a match's groups and end are those of the tail after the trigger |
| TesterExtraction.GroupOneReads | test-universal-constraints.js:66 | a non-empty group 1 is the instruction |
| TesterExtraction.VerbTailGroup | test-universal-constraints.js:11 | group 1 of a verb tail is one of the verbs |
| TesterExtraction.VerbIsInstruction | test-universal-constraints.js:11 | for `only (consider\|use\|…) …` and `must (be\|use\|…) …` the instruction is the verb, not the clause after it |
| TesterExtraction.ClauseOnlyGroup | test-universal-constraints.js:12-19 | a clause-only tail's group is a clause that ends the match |
| TesterExtraction.ClauseIsInstruction | test-universal-constraints.js:12-19 | for a clause-only pattern the instruction is the text after the trigger up to the first delimiter or the end |
| TesterExtraction.WordTailGroups | test-universal-constraints.js:21 | group 1 of `should (only\|exclusively)? …` is one of the words when it took part, and group 2 is the clause |
| TesterExtraction.WordOrClauseIsInstruction | test-universal-constraints.js:21 | the instruction of a `should` match is the optional word when it took part, and the clause otherwise |
| TesterExtraction.WholeIsInstruction | test-universal-constraints.js:49-97 | a pattern without a group yields the whole match as its instruction, which ends with the pattern's closing word |
| TesterExtraction.BeforeOnlyIsInstruction | test-universal-constraints.js:23 | for `… only` the instruction is the letters and spaces in front of `only`, where the match ends |
| TesterExtraction.TokenIsSku | test-universal-constraints.js:40-44 | the SKU is the whole run of token characters that ends the match |
| UniversalTester.ExtractUserConstraints | test-universal-constraints.js:49-97 | extraction with this tester's tables is the shared extraction specification |
| UniversalTester.RestrictiveVerbInstruction | test-universal-constraints.js:11-16 | for `only …` and `must …` the instruction is the verb |
| UniversalTester.RestrictiveClauseInstruction | test-universal-constraints.js:12-19 | for the six one-group restrictive patterns the instruction is the clause that ends the match |
| UniversalTester.ShouldInstruction | test-universal-constraints.js:21 | for `should …` the instruction is `only` or `exclusively` when present, the clause otherwise |
| UniversalTester.OnlySuffixInstruction | test-universal-constraints.js:23 | for `… only` the instruction is the letters and spaces in front of `only` |
| UniversalTester.ScopeVerbInstruction | test-universal-constraints.js:27-28 | for `do not …` and `don't …` the exclusion's instruction is the verb |
| UniversalTester.ScopeClauseInstruction | test-universal-constraints.js:30-36 | for `exclude`, `avoid`, `not`, `no` and `without` the instruction is the clause that ends the match |
| UniversalTester.SkuInstruction | test-universal-constraints.js:40-44 | every SKU reference yields the maximal token run that ends the match |
| UniversalTester.LongWords | test-universal-constraints.js:121 | filtering never adds words |
| UniversalTester.LongWordsSpec | test-universal-constraints.js:121 | the filter keeps exactly the words longer than two characters |
| UniversalTester.FirstHit | test-universal-constraints.js:124-134 | the keyword returned is found in one of the four fields, and none is returned exactly when no keyword is found |
| UniversalTester.Hits | test-universal-constraints.js:149-160 | never more matched keywords than keywords |
| UniversalTester.HitsSpec | test-universal-constraints.js:149-160 | the matched keywords are exactly the keywords found in one of the four fields |
| UniversalTester.FindExcludedKeyword | test-universal-constraints.js:124-134 | the loop finds the first keyword present in a field |
| UniversalTester.CountMatches | test-universal-constraints.js:149-160 | the loop's count is the number of matched keywords, and they are the keywords found in a field |
| UniversalTester.ValidateServiceAgainstConstraints | test-universal-constraints.js:99-185 | the method's loops compute the verdict specification |
| UniversalTester.CheckExclusions | test-universal-constraints.js:116-135 | the exclusion loop returns the first exclusion with a keyword longer than two letters found in the name, category, part number or SKU type, or none |
| UniversalTester.CheckRestrictions | test-universal-constraints.js:142-169 | the restriction loop stops at the first restriction at least half of whose keywords, or three of them, the service mentions, and finds none otherwise |
| UniversalTester.FirstHitIff | test-universal-constraints.js:117-135 | an exclusion fires exactly when one of its long words is in a field |
| UniversalTester.FirstExclusionIff | test-universal-constraints.js:117-135 | some exclusion rejects exactly when one of them has a long word in a field |
| UniversalTester.RatioTest | test-universal-constraints.js:163-164 | the ratio reaches one half exactly when twice the count reaches the keyword count |
| UniversalTester.SignificantIff | test-universal-constraints.js:163-164 | a restriction is met exactly when half its long words, or three of them, are found; with no long word (`0 / 0`) it never is |
| UniversalTester.FirstRestrictionIff | test-universal-constraints.js:142-169 | the loop finds a restriction exactly when one is met |
| UniversalTester.ValidateAllowed | test-universal-constraints.js:99-185 | a service is allowed exactly when it passes the SKU gate, no exclusion has a long word in its fields, and there is no restriction or one is met |
| UniversalTester.SkuGateFirst | test-universal-constraints.js:105-114 | a service outside the SKU allow-list is rejected for that, whatever the rest says |
| UniversalTester.ExclusionReason | test-universal-constraints.js:117-135 | the rejection names the first firing exclusion and its first word found |
| UniversalTester.RestrictionReason | test-universal-constraints.js:142-181 | the allowing restriction is the first one met, reported with its count, its total and the matched words |
| UniversalTester.NoLongWords | test-universal-constraints.js:121 | words of at most two characters all fall to the filter |
| UniversalTester.ShortRestrictionNeverMet | test-universal-constraints.js:146-164 | a restriction with no word longer than two characters is met by no service |
| UniversalTester.MustBeAdmitsNothing | test-universal-constraints.js:16 | `must be …` yields the instruction `be`, which admits no service |
| StandaloneTester.ExtractUserConstraints | test-constraints-standalone.js:34-82 | extraction with this tester's tables is the shared extraction specification |
| StandaloneTester.RestrictiveVerbInstruction | test-constraints-standalone.js:11-14 | for `only …` and `must …` the instruction is the verb |
| StandaloneTester.RestrictiveClauseInstruction | test-constraints-standalone.js:12-17 | for the one-group restrictive patterns the instruction is the clause up to the first comma, period or line break |
| StandaloneTester.DoNotInstruction | test-constraints-standalone.js:20 | for `do not …` the exclusion's instruction is the verb |
| StandaloneTester.ScopeClauseInstruction | test-constraints-standalone.js:21-23 | for `exclude`, `avoid` and `no` the instruction is the clause up to the first comma, period or line break |
| StandaloneTester.FirstRejecting | test-constraints-standalone.js:102-138 | the exclusion returned rejects the service, and none is returned exactly when no exclusion rejects it |
| StandaloneTester.ValidateServiceAgainstConstraints | test-constraints-standalone.js:85-187 | the method's loops compute the verdict specification |
| StandaloneTester.CheckExclusions | test-constraints-standalone.js:102-138 | the exclusion loop returns the first exclusion any of whose five checks fires, or none |
| StandaloneTester.MatchesRestriction | test-constraints-standalone.js:144-175 | the restriction loop finds a match exactly when some restriction admits the service |
| StandaloneTester.ValidateAllowed | test-constraints-standalone.js:85-187 | a service is allowed exactly when it passes the SKU gate, no exclusion rejects it, and there is no restriction or one admits it |
| StandaloneTester.SkuGateFirst | test-constraints-standalone.js:90-99 | a service outside the SKU allow-list is rejected for that, whatever the rest says |
| StandaloneTester.ExclusionBeforeRestriction | test-constraints-standalone.js:101-138 | an excluded service is rejected by its first rejecting exclusion even when a restriction admits it |
| StandaloneTester.FirstRejectingAt | test-constraints-standalone.js:102-138 | the first rejecting exclusion is the one the loop stops at |
| StandaloneTester.ExclusionByCategory | test-constraints-standalone.js:106-117 | an exclusion mentioning storage rejects every storage service, one mentioning network every networking service |
| StandaloneTester.NetworkingMentionsNetwork | test-constraints-standalone.js:112 | text holding `networking` holds `network`, so that test adds nothing |
| StandaloneTester.CategoryRestrictionIgnoresName | test-constraints-standalone.js:148-168 | a restriction naming a category keyword admits by category alone: services of the same category are admitted alike |
| StandaloneTester.PhraseRestriction | test-constraints-standalone.js:169-174 | a restriction without a category keyword admits exactly when the whole phrase is in the name, category or part number |
| StandaloneTester.DoNotIncludeRejects | test-constraints-standalone.js:20 | `do not include X` yields the instruction `include`, so it rejects only services whose name or category mentions `include` |
| StandaloneTester.NotInShorter | test-constraints-standalone.js:132 | no string contains a different string at least as long as itself |
| SpecificTester.ExtractUserConstraints | test-specific-constraints.js:34-82 | extraction with this tester's tables is the shared extraction specification |
| SpecificTester.ExtractAppend | test-specific-constraints.js:46-55 | appending patterns to the restrictive list appends their entries and leaves the other lists alone |
| SpecificTester.ExtractExtendsStandalone | test-specific-constraints.js:10-29 | the extraction is the standalone tester's, with the two phrase patterns' entries appended to the restrictions |
| SpecificTester.PhraseInstruction | test-specific-constraints.js:17-18 | a phrase match's instruction is the whole phrase, which ends with `byol` |
| SpecificTester.FirstRejecting | test-specific-constraints.js:126-135 | the exclusion returned rejects the service, and none is returned exactly when no exclusion rejects it |
| SpecificTester.ValidateServiceAgainstConstraints | test-specific-constraints.js:84-138 | the method's loops compute the verdict specification |
| SpecificTester.MatchesRestriction | test-specific-constraints.js:93-114 | the restriction loop finds a match exactly when some restriction admits the service through the first of its three branches that applies |
| SpecificTester.CheckExclusions | test-specific-constraints.js:126-135 | the exclusion loop returns the first "app server" exclusion when the name mentions "application", or none |
| SpecificTester.ValidateAllowed | test-specific-constraints.js:84-138 | a service is allowed exactly when there is no restriction or one admits it, and no exclusion rejects it |
| SpecificTester.SkusIgnored | test-specific-constraints.js:84-138 | the extracted SKUs never change the verdict |
| SpecificTester.RestrictionsFirst | test-specific-constraints.js:90-123 | a service no restriction admits is rejected for that, even when an exclusion would also reject it |
| SpecificTester.BaseDatabaseNeedsByolName | test-specific-constraints.js:96-102 | a restriction naming the base database service admits only services named both "base database service" and "byol" |
| SpecificTester.ByolSkuTypeExact | test-specific-constraints.js:103-109 | without "byol" in the name a BYOL restriction admits only the SKU type `DATABASE_BYOL`, compared without lowercasing |
| SpecificTester.LowerEndsWithByol | test-specific-constraints.js:17-18 | lowercasing keeps a closing `byol` |
| SpecificTester.PhraseAdmitsByolBaseService | test-specific-constraints.js:17-18 | a phrase-pattern restriction admits every service named as a base database service with BYOL |
| SpecificTester.AppServerExclusion | test-specific-constraints.js:129-134 | with an "app server" exclusion, no allowed service's name mentions "application" |

## Left out

- Presentation text: `generateBusinessJustification`, `generateConstraintSummary` and `getBusinessImplication` in server/services/constraintValidatorRedesigned.js only compose prose for the user, so they are not modelled.
- The testers' `mustInclude` and `mustExclude` lists are created empty and never read, so they are not modelled. Their scenario tables, driver loops and console output are left out too. The tester classes hold only constant pattern tables, so each is a module with constants rather than a class.
- Character classes: `\s` and `trim` follow JavaScript's white-space set, the Unicode space separators and line terminators included. `toLowerCase`/`toUpperCase` are modelled as ASCII case mapping, so non-ASCII case mapping is not modelled. String lengths count characters rather than UTF-16 code units.
- Validator results: `RuleResult`, `ValidationResult` and `FilterResult` keep only the verdict and the score. The `reasons` lists, the `constraintCompliance` record, the `constraintValidation` annotation and the `rejectionReason` of server/services/constraintValidatorRedesigned.js:224-245 and 405-413 are explanatory text for the user, so they are not modelled.
- ExcelLayout.Grouping: the `push` failure message is the V8 engine's wording of the TypeError; other engines word it differently.
- Floating point: prices, scores and multipliers are exact reals, so rounding of JavaScript numbers is not modelled. How `parseFloat` reads a string, and how JavaScript renders a number, are parameters.
- OciService.FinalPricing: when a relevant service has no localizations, the source writes `unitPrice` and `unit` onto `service.pricing[0]` itself (server/services/ociService.js:236-244), and that object stays in the one-hour API cache (42-46). The model computes the normalised price as a new value and leaves the stored listing unchanged. Within the hour, a later call that takes the no-match path (`Unmatched`/`PlainPricing`, 262-279) or `OciServiceProvider.GetServicesByCategory` (401-412) therefore sees, in the model, the price without the `unit` an earlier match added; `GetServicesByCategory` also sees it without the added `unitPrice`. The fallback list is built anew on each call and is not affected.
- In-place sorts (`rankServicesByBusinessValue`, `findMatchingServices`, `getAllPrompts`) are modelled on values as a stable descending sort. No caller reads the sorted argument again, so the in-place effect is not observable.
- Network: the axios catalogue fetches and the five provider clients (server/services/llmService.js:317-401) are not modelled. Their outcome or reply is a parameter.
- JSON: `JSON.parse`, `JSON.stringify` and the regex repair chains in `generateBOM` are parameters (the `Parsing` record), not interpreted.
- Clock and randomness: `Date.now`, `new Date()` and `generateId` are parameters, namely the current time and the new id.
- Files: the saved-prompt data file is the `store` field, and a failed read is the `Unreadable` store. Directory creation and write failures are not modelled. Document extraction (pdf-parse, mammoth, ExcelJS reading, OCR) and `cleanupFile` are replaced by the extracted text as a parameter.
- Spreadsheet library: workbook properties, cell styles, merges, `addHeader`, `addAssumptionsSheet`, `applyFormatting` and `writeBuffer` are not modelled; only rows, labels and formulas are. `SUBTOTAL(109, …)` is kept as formula text: the model evaluates only plain arithmetic formulas.
- Joi: the schema is modelled as a predicate with one "Validation failed" error. The per-field messages collected with `abortEarly: false` are not modelled, nor is the stripping of unknown keys (the request record holds only the schema's five fields). The HTTP responses of `validateBomRequest` and `validateDocumentUpload`, and `securityHeaders`, are left out.
- Catalogue fetch payloads: the fetched JSON is reduced to "a list of services" or "not a list". A payload that throws inside the redesigned fetch behaves like a failed fetch.
- ExcelLayout.ExcelGenerator.CreateSubtotalFormula: column letters are limited to `64 + column < 0xD800`, so that `chr(64 + column)` is a single character.

## Findings

| source | as written | input that shows it | evidently intended | confidence | as-written member | corrected member |
|---|---|---|---|---|---|---|
| server/services/llmService.js:162-164 | `generateBOM` keeps a candidate only when `service.pricing?.length > 0`, and takes `pricing[0]`. The older matcher, which the live route uses, returns `pricing` as a single object (server/services/ociService.js:283-291). An object has no `length`, so every candidate is dropped. | Any non-empty result of `findMatchingServices`, such as one match whose pricing is `{unitPrice: 0.05, unit: "OCPU Hour"}`, gives a prompt that lists "(0 services)". | Each match is listed with its own pricing object, up to fifteen matches. A price list still contributes its first entry. | not executed | LlmService.LiveRouteListsNothing | LlmService.LiveRouteFixed |
