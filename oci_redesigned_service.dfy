/**
 * The catalogue provider object: its tables, its one-entry cache (the key `all_services`), and
 * the loops of the matching pipeline, each proved equal to the function of `OciRedesigned` that
 * specifies it. The clock and the pricing API are parameters: `now` is the time the cache is
 * consulted, `fetchedAt` the time a fresh list is stored, and `fetch` what the API call yields.
 */
module OciRedesignedService {
  import opened Wrappers
  import opened Text
  import opened Lists
  import opened Scanner
  import opened Catalog
  import opened OciRedesigned

  /** A cached service list and the time, in milliseconds, it was stored. */
  datatype CacheEntry = CacheEntry(data: seq<Service>, timestamp: int)

  /**
   * What the pricing API call yields: the list read from `items` (or from the payload itself),
   * or a failure — a network error, a timeout, or a payload that is not a list, which makes
   * the enhancement throw inside the same `try`.
   */
  datatype FetchOutcome = Fetched(items: seq<Service>) | Unavailable

  /** One hour, in milliseconds. */
  const CacheExpiry: int := 3600000

  /** The cache holds a list stored less than `expiry` milliseconds before `now`. */
  predicate Fresh(cache: Option<CacheEntry>, now: int, expiry: int) {
    cache.Some? && now - cache.value.timestamp < expiry
  }

  /** What `getAllServices` returns: the fresh cached list, else the enhanced API list, else the embedded catalogue. */
  function Served(cache: Option<CacheEntry>, now: int, expiry: int, tax: seq<Group>, catalogue: seq<Service>,
                  fetch: FetchOutcome): seq<Service>
  {
    if Fresh(cache, now, expiry) then cache.value.data
    else
      match fetch
      case Fetched(items) => EnhanceServices(tax, items)
      case Unavailable => catalogue
  }

  /** The cache after `getAllServices`: unchanged on a hit, otherwise the served list stamped `fetchedAt`. */
  function Stored(cache: Option<CacheEntry>, now: int, fetchedAt: int, expiry: int, tax: seq<Group>,
                  catalogue: seq<Service>, fetch: FetchOutcome): Option<CacheEntry>
  {
    if Fresh(cache, now, expiry) then cache
    else Some(CacheEntry(Served(cache, now, expiry, tax, catalogue, fetch), fetchedAt))
  }

  /**
   * After a miss, every call within `expiry` of the store time gets the very list the miss
   * served, whatever the API would answer then; the embedded catalogue, stored on a failure,
   * is kept just as long as an API list.
   */
  lemma CacheWindow(cache: Option<CacheEntry>, now: int, fetchedAt: int, expiry: int, tax: seq<Group>,
                    catalogue: seq<Service>, fetch: FetchOutcome, later: int, laterFetch: FetchOutcome)
    requires !Fresh(cache, now, expiry)
    requires later - fetchedAt < expiry
    ensures Served(Stored(cache, now, fetchedAt, expiry, tax, catalogue, fetch), later, expiry, tax, catalogue, laterFetch)
      == Served(cache, now, expiry, tax, catalogue, fetch)
    ensures fetch.Unavailable? ==>
      Served(Stored(cache, now, fetchedAt, expiry, tax, catalogue, fetch), later, expiry, tax, catalogue, laterFetch) == catalogue
  {
  }

  /** Once `expiry` has passed since the store, a call asks the API again as if nothing were cached. */
  lemma CacheExpires(cache: Option<CacheEntry>, now: int, fetchedAt: int, expiry: int, tax: seq<Group>,
                     catalogue: seq<Service>, fetch: FetchOutcome, later: int, laterFetch: FetchOutcome)
    requires !Fresh(cache, now, expiry)
    requires later - fetchedAt >= expiry
    ensures Served(Stored(cache, now, fetchedAt, expiry, tax, catalogue, fetch), later, expiry, tax, catalogue, laterFetch)
      == Served(None, later, expiry, tax, catalogue, laterFetch)
  {
  }

  /** One step of the requirement loop: the fallback list from position `j` on. */
  lemma FallbacksStep(tax: seq<Group>, catalogue: seq<Service>, cats: seq<string>, j: nat, present: set<string>,
                      intent: BusinessIntent)
    requires j < |cats|
    ensures Fallbacks(tax, catalogue, cats[j..], present, intent)
      == (if cats[j] !in present && Fallback(tax, catalogue, cats[j], intent).Some?
          then [Fallback(tax, catalogue, cats[j], intent).value] else [])
         + Fallbacks(tax, catalogue, cats[j + 1..], present, intent)
  {
    DropOne(cats, j);
  }

  /** `findMatchingServices` after the list is obtained: match, rank, then cover the required categories. */
  function Pipeline(tax: seq<Group>, catalogue: seq<Service>, services: seq<Service>, intent: BusinessIntent): seq<Scored> {
    Cover(tax, catalogue, Ranked(tax, Matched(tax, services, intent), intent), intent)
  }

  /**
   * At most 20 services come out, each scoring above 0.2: a service of the list with its own
   * match score, or a catalogue fallback scored 0.5 for a required category.
   */
  lemma PipelineSpec(tax: seq<Group>, catalogue: seq<Service>, services: seq<Service>, intent: BusinessIntent)
    ensures |Pipeline(tax, catalogue, services, intent)| <= 20
    ensures forall i :: 0 <= i < |Pipeline(tax, catalogue, services, intent)| ==>
      Pipeline(tax, catalogue, services, intent)[i].finalScore > 0.2
      && ((Pipeline(tax, catalogue, services, intent)[i].service in services
           && Pipeline(tax, catalogue, services, intent)[i].finalScore == MatchScore(tax, Pipeline(tax, catalogue, services, intent)[i].service, intent))
          || (Pipeline(tax, catalogue, services, intent)[i].service in catalogue
              && Pipeline(tax, catalogue, services, intent)[i].finalScore == 0.5))
  {
    var matched := Matched(tax, services, intent);
    var ranked := Ranked(tax, matched, intent);
    var r := Pipeline(tax, catalogue, services, intent);
    MatchedSpec(tax, services, intent);
    RankedSpec(tax, matched, intent);
    CoverSpec(tax, catalogue, ranked, intent);
    forall i | 0 <= i < |r|
      ensures r[i].finalScore > 0.2
      ensures (r[i].service in services && r[i].finalScore == MatchScore(tax, r[i].service, intent))
        || (r[i].service in catalogue && r[i].finalScore == 0.5)
    {
      if i < |ranked| {
        if |ranked| <= 20 {
          assert r[i] == r[..|ranked|][i] == ranked[i];
        } else {
          assert r[i] == ranked[..20][i] == ranked[i];
        }
        assert ranked[i] in matched;
        var k :| 0 <= k < |matched| && matched[k] == ranked[i];
      }
    }
  }

  /** The embedded taxonomy has distinct keys, none `other`, and disjoint groups. */
  lemma TaxonomyValid()
    ensures ValidTaxonomy(Taxonomy)
  {
    var keys, cats := TaxonomyShape();
    ShapeDistinct(keys, cats);
    ShapeValid(Taxonomy, keys, cats);
  }

  /** The four keys are distinct and none is `other`; no category name is in two groups. */
  lemma ShapeDistinct(keys: seq<string>, cats: seq<seq<string>>)
    requires keys == ["database", "compute", "storage", "networking"]
    requires cats == [["Database"], ["Compute"], ["Storage"], ["Networking", "Network"]]
    ensures forall i, j :: 0 <= i < j < |keys| ==> keys[i] != keys[j]
    ensures forall i :: 0 <= i < |keys| ==> keys[i] != "other"
    ensures forall i, j, c :: 0 <= i < j < |cats| && c in cats[i] ==> c !in cats[j]
  {
    forall i, j, c | 0 <= i < j < |cats| && c in cats[i]
      ensures c !in cats[j]
    {
    }
  }

  /** A taxonomy is valid when its keys and category lists are. */
  lemma ShapeValid(tax: seq<Group>, keys: seq<string>, cats: seq<seq<string>>)
    requires |tax| == |keys| == |cats|
    requires forall g :: 0 <= g < |cats| ==> tax[g].key == keys[g] && tax[g].categories == cats[g]
    requires forall i, j :: 0 <= i < j < |keys| ==> keys[i] != keys[j]
    requires forall i :: 0 <= i < |keys| ==> keys[i] != "other"
    requires forall i, j, c :: 0 <= i < j < |cats| && c in cats[i] ==> c !in cats[j]
    ensures ValidTaxonomy(tax)
  {
  }

  /** Every tier and licensing model the embedded preference table sets is non-empty. */
  lemma PreferenceTermsTruthy()
    ensures TruthyTuning(PreferenceTerms)
  {
  }

  /** `OCIServiceRedesigned`: the tables it is built with and the cache it updates. */
  class OciServiceRedesigned {
    const taxonomy: seq<Group>
    const requirementTerms: seq<(string, string)>
    const preferenceTerms: seq<(string, Tuning)>
    const catalogue: seq<Service>
    const cacheExpiry: int
    var cache: Option<CacheEntry>

    /** The tables keep the shape the matching relies on. */
    predicate Valid() {
      ValidTaxonomy(taxonomy) && TruthyTuning(preferenceTerms)
    }

    constructor ()
      ensures taxonomy == Taxonomy && requirementTerms == RequirementTerms && preferenceTerms == PreferenceTerms
      ensures catalogue == ComprehensiveServices && cacheExpiry == CacheExpiry && cache == None
      ensures Valid()
    {
      taxonomy := Taxonomy;
      requirementTerms := RequirementTerms;
      preferenceTerms := PreferenceTerms;
      catalogue := ComprehensiveServices;
      cacheExpiry := CacheExpiry;
      cache := None;
      TaxonomyValid();
      PreferenceTermsTruthy();
    }

    /** `getAllServices`: a fresh cached list, or the enhanced API list, or on failure the embedded catalogue; a miss stores what it serves. */
    method GetAllServices(now: int, fetchedAt: int, fetch: FetchOutcome) returns (r: seq<Service>)
      modifies this
      ensures r == Served(old(cache), now, cacheExpiry, taxonomy, catalogue, fetch)
      ensures cache == Stored(old(cache), now, fetchedAt, cacheExpiry, taxonomy, catalogue, fetch)
    {
      if cache.Some? && now - cache.value.timestamp < cacheExpiry {
        return cache.value.data;
      }
      match fetch {
        case Fetched(items) =>
          r := EnhanceServicesWithBusinessMetadata(items);
        case Unavailable =>
          r := catalogue;
      }
      cache := Some(CacheEntry(r, fetchedAt));
    }

    /** `getServiceCategory`: the first group covering the service's category, else `other`. */
    method GetServiceCategory(service: Service) returns (r: string)
      requires Valid()
      ensures r == OciRedesigned.GetServiceCategory(taxonomy, service)
      ensures r == "other" || exists g :: 0 <= g < |taxonomy| && taxonomy[g].key == r && Covers(taxonomy[g], service.serviceCategory)
      ensures r == "other" <==> forall j :: 0 <= j < |taxonomy| ==> !Covers(taxonomy[j], service.serviceCategory)
    {
      var g := 0;
      while g < |taxonomy|
        invariant 0 <= g <= |taxonomy|
        invariant forall j :: 0 <= j < g ==> !Covers(taxonomy[j], service.serviceCategory)
      {
        if Covers(taxonomy[g], service.serviceCategory) {
          r := taxonomy[g].key;
          ServiceCategorySpec(taxonomy, service);
          return;
        }
        g := g + 1;
      }
      r := "other";
      ServiceCategorySpec(taxonomy, service);
    }

    /** `enhanceServicesWithBusinessMetadata`: each service annotated through its group's products, pricing normalized. */
    method EnhanceServicesWithBusinessMetadata(services: seq<Service>) returns (r: seq<Service>)
      ensures r == EnhanceServices(taxonomy, services)
    {
      r := [];
      var i := 0;
      while i < |services|
        invariant 0 <= i <= |services|
        invariant r == EnhanceServices(taxonomy, services[..i])
      {
        var enhanced := EnhanceOne(services[i]);
        assert services[..i + 1] == services[..i] + [services[i]];
        r := r + [enhanced];
        i := i + 1;
      }
      assert services[..i] == services;
    }

    /** The body of the `services.map` callback: the group loop, then the pricing normalization. */
    method EnhanceOne(service: Service) returns (enhanced: Service)
      ensures enhanced == EnhanceService(taxonomy, service)
    {
      enhanced := service;
      var g := 0;
      while g < |taxonomy|
        invariant 0 <= g <= |taxonomy|
        invariant Annotate(taxonomy[g..], service, enhanced) == Annotate(taxonomy, service, service)
      {
        DropOne(taxonomy, g);
        if Covers(taxonomy[g], service.serviceCategory) {
          var products := taxonomy[g].products;
          var k := 0;
          while k < |products|
            invariant 0 <= k <= |products|
            invariant NamedProduct(products[k..], service.displayName) == NamedProduct(products, service.displayName)
          {
            DropOne(products, k);
            if service.displayName.Some? && ContainsAny(ToLower(service.displayName.value), products[k].patterns) {
              enhanced := enhanced.(productFamily := Some(products[k].key), businessDescription := Some(products[k].businessValue));
              break;
            }
            k := k + 1;
          }
        }
        g := g + 1;
      }
      enhanced := enhanced.(pricing := PricingObject(NormalizePricingData(service)));
    }

    /** `parseBusinessRequirements` on the serialized requirements. */
    method ParseBusinessRequirements(serialized: string) returns (intent: BusinessIntent)
      requires Valid()
      ensures intent == Intent(taxonomy, requirementTerms, preferenceTerms, ToLower(serialized))
      ensures NoDuplicates(intent.categories) && NoDuplicates(intent.products)
      ensures intent.preferences.tier.Some? ==> intent.preferences.tier == Some(intent.budgetLevel)
    {
      var reqText := ToLower(serialized);
      var categories, products := ApplyRequirementTerms(reqText);
      var preferences, budgetLevel, licensingPreference := ApplyPreferenceTerms(reqText);
      var userCount: Option<JsNumber> := None;
      if UserCountMatch(reqText) {
        userCount := Some(NaN);
      }
      var constraints := ExtractIntentConstraints(reqText);
      intent := BusinessIntent(categories, products, preferences, constraints, userCount, budgetLevel, licensingPreference);
      IntentSpec(taxonomy, requirementTerms, preferenceTerms, reqText);
    }

    /** The requirement loop of `parseBusinessRequirements`: each term found adds its groups' categories and the products named in the text. */
    method ApplyRequirementTerms(reqText: string) returns (categories: seq<string>, products: seq<string>)
      ensures (categories, products) == ScanRequirements(taxonomy, requirementTerms, reqText, [], [])
    {
      categories, products := [], [];
      var t := 0;
      while t < |requirementTerms|
        invariant 0 <= t <= |requirementTerms|
        invariant ScanRequirements(taxonomy, requirementTerms[t..], reqText, categories, products)
          == ScanRequirements(taxonomy, requirementTerms, reqText, [], [])
      {
        DropOne(requirementTerms, t);
        if Contains(reqText, requirementTerms[t].0) {
          categories, products := AddTermMatches(reqText, requirementTerms[t].1, categories, products);
        }
        t := t + 1;
      }
    }

    /** The constraint part of `parseBusinessRequirements`: the `only` clause, then the `no`/`exclude` clause. */
    method ExtractIntentConstraints(reqText: string) returns (constraints: seq<IntentConstraint>)
      ensures constraints == IntentConstraints(reqText)
    {
      constraints := [];
      if Contains(reqText, "only") {
        var only := FirstEscapedClause(reqText, ["only"], 0);
        if only.Some? {
          constraints := constraints + [IntentConstraint(Restrictive, ClauseValue(reqText, only.value))];
        }
      }
      if Contains(reqText, "no ") || Contains(reqText, "exclude") {
        var no := FirstEscapedClause(reqText, ["no", "exclude"], 0);
        if no.Some? {
          constraints := constraints + [IntentConstraint(Exclusion, ClauseValue(reqText, no.value))];
        }
      }
    }

    /** The preference loop of `parseBusinessRequirements`: each phrase found merges its properties and may set the budget level and licensing preference. */
    method ApplyPreferenceTerms(reqText: string) returns (preferences: Tuning, budgetLevel: string, licensingPreference: Option<string>)
      ensures PreferenceState(preferences, budgetLevel, licensingPreference) == ScanPreferences(preferenceTerms, reqText, InitialPreferences)
    {
      preferences, budgetLevel, licensingPreference := NoTuning, "standard", None;
      var k := 0;
      while k < |preferenceTerms|
        invariant 0 <= k <= |preferenceTerms|
        invariant ScanPreferences(preferenceTerms[k..], reqText, PreferenceState(preferences, budgetLevel, licensingPreference))
          == ScanPreferences(preferenceTerms, reqText, InitialPreferences)
      {
        assert preferenceTerms[k..][1..] == preferenceTerms[k + 1..];
        var value := preferenceTerms[k].1;
        if Contains(reqText, preferenceTerms[k].0) {
          preferences := Assign(preferences, value);
          if Truthy(value.tier) {
            budgetLevel := value.tier.value;
          }
          if Truthy(value.licensing) {
            licensingPreference := value.licensing;
          }
        }
        k := k + 1;
      }
    }

    /** The body of the requirement loop for one term found in the text: the category test and the product test of every group. */
    method AddTermMatches(reqText: string, oracleService: string, categories: seq<string>, products: seq<string>)
      returns (cats: seq<string>, prods: seq<string>)
      ensures cats == AddCategories(taxonomy, oracleService, categories)
      ensures prods == AddGroupProducts(taxonomy, reqText, products)
    {
      cats, prods := categories, products;
      var g := 0;
      while g < |taxonomy|
        invariant 0 <= g <= |taxonomy|
        invariant AddCategories(taxonomy[g..], oracleService, cats) == AddCategories(taxonomy, oracleService, categories)
        invariant AddGroupProducts(taxonomy[g..], reqText, prods) == AddGroupProducts(taxonomy, reqText, products)
      {
        assert taxonomy[g..][1..] == taxonomy[g + 1..];
        if ContainsAny(oracleService, taxonomy[g].categories) {
          cats := Add(cats, taxonomy[g].key);
        }
        var group := taxonomy[g].products;
        var k := 0;
        ghost var before := prods;
        while k < |group|
          invariant 0 <= k <= |group|
          invariant AddProducts(group[k..], reqText, prods) == AddProducts(group, reqText, before)
        {
          assert group[k..][1..] == group[k + 1..];
          if ContainsAny(reqText, group[k].patterns) {
            prods := Add(prods, group[k].key);
          }
          k := k + 1;
        }
        g := g + 1;
      }
    }

    /** `calculateBusinessMatch(service, intent).score`. */
    method CalculateBusinessMatch(service: Service, intent: BusinessIntent) returns (score: real)
      ensures score == MatchScore(taxonomy, service, intent)
    {
      score := 0.0;
      var cats := intent.categories;
      var i := 0;
      while i < |cats|
        invariant 0 <= i <= |cats|
        invariant score == 0.5 * CategoryHits(taxonomy, cats[..i], service) as real
      {
        assert cats[..i + 1][..i] == cats[..i];
        var g := GroupByKey(taxonomy, cats[i]);
        if g.Some? && Covers(taxonomy[g.value], service.serviceCategory) {
          score := score + 0.5;
        }
        i := i + 1;
      }
      assert cats[..i] == cats;
      var categoryScore := score;
      var products := intent.products;
      i := 0;
      while i < |products|
        invariant 0 <= i <= |products|
        invariant score == categoryScore + 0.8 * ProductHits(products[..i], service.productFamily) as real
      {
        assert products[..i + 1][..i] == products[..i];
        if service.productFamily == Some(products[i]) {
          score := score + 0.8;
        }
        i := i + 1;
      }
      assert products[..i] == products;
      if Truthy(intent.preferences.tier) && service.tier == intent.preferences.tier {
        score := score + 0.3;
      }
      if Truthy(intent.licensingPreference) && service.licensingModel == intent.licensingPreference {
        score := score + 0.4;
      }
      assert score == BaseScore(taxonomy, service, intent);
      var cs := intent.constraints;
      i := 0;
      while i < |cs|
        invariant 0 <= i <= |cs|
        invariant forall k :: 0 <= k < i ==> !Fails(service, cs[k])
        invariant score == BaseScore(taxonomy, service, intent)
      {
        if Fails(service, cs[i]) {
          score := 0.0;
          break;
        }
        i := i + 1;
      }
      if intent.budgetLevel == "standard" && service.tier == Some("enterprise") {
        score := score * 0.7;
      }
    }

    /** `matchServicesWithBusinessIntent`: every service scoring above zero, in order, with its score. */
    method MatchServicesWithBusinessIntent(services: seq<Service>, intent: BusinessIntent) returns (matched: seq<Scored>)
      ensures matched == Matched(taxonomy, services, intent)
    {
      matched := [];
      var i := 0;
      while i < |services|
        invariant 0 <= i <= |services|
        invariant matched == Matched(taxonomy, services[..i], intent)
      {
        assert services[..i + 1][..i] == services[..i];
        var score := CalculateBusinessMatch(services[i], intent);
        if score > 0.0 {
          matched := matched + [Scored(services[i], score)];
        }
        i := i + 1;
      }
      assert services[..i] == services;
    }

    /** `rankServicesByBusinessValue`: sort by score, take each required category's best, then add others up to 15. */
    method RankServicesByBusinessValue(services: seq<Scored>, intent: BusinessIntent) returns (top: seq<Scored>)
      requires Valid()
      ensures top == Ranked(taxonomy, services, intent)
    {
      var sorted := SortByScore(services);
      top := [];
      var covered: set<string> := {};
      var i := 0;
      while i < |sorted|
        invariant 0 <= i <= |sorted|
        invariant top + FirstPicks(taxonomy, sorted[i..], intent.categories, covered)
          == FirstPicks(taxonomy, sorted, intent.categories, {})
      {
        assert sorted[i..][1..] == sorted[i + 1..];
        var service := sorted[i];
        if service.finalScore > 0.3 {
          var category := GetServiceCategory(service.service);
          if category in intent.categories && category !in covered {
            top := top + [service];
            covered := covered + {category};
          }
        }
        i := i + 1;
      }
      assert sorted[i..] == [];
      assert top == FirstPicks(taxonomy, sorted, intent.categories, {});
      var picks := top;
      i := 0;
      while i < |sorted|
        invariant 0 <= i <= |sorted|
        invariant Extras(sorted[i..], top) == Extras(sorted, picks)
      {
        assert sorted[i..][1..] == sorted[i + 1..];
        var service := sorted[i];
        if service.finalScore > 0.2 && |top| < 15 {
          if !SharesPartNumber(top, service) {
            top := top + [service];
          }
        }
        i := i + 1;
      }
      assert sorted[i..] == [];
      assert top == Extras(sorted, picks);
    }

    /** The grouping loop of `ensureCompleteServiceCoverage`: each service appended to the list of its category. */
    method GroupByCategory(services: seq<Scored>) returns (byCategory: map<string, seq<Scored>>)
      requires Valid()
      ensures byCategory.Keys == PresentCategories(taxonomy, services)
      ensures forall c :: c in byCategory ==> byCategory[c] != []
    {
      byCategory := map[];
      var i := 0;
      while i < |services|
        invariant 0 <= i <= |services|
        invariant byCategory.Keys == PresentCategories(taxonomy, services[..i])
        invariant forall c :: c in byCategory ==> byCategory[c] != []
      {
        var category := GetServiceCategory(services[i].service);
        assert services[..i + 1][..i] == services[..i];
        assert PresentCategories(taxonomy, services[..i + 1]) == PresentCategories(taxonomy, services[..i]) + {category};
        var group := if category in byCategory then byCategory[category] else [];
        byCategory := byCategory[category := group + [services[i]]];
        i := i + 1;
      }
      assert services[..i] == services;
    }

    /** `ensureCompleteServiceCoverage`: group by category, add a fallback per missing required category, keep 20. */
    method EnsureCompleteServiceCoverage(services: seq<Scored>, intent: BusinessIntent) returns (r: seq<Scored>)
      requires Valid()
      ensures r == Cover(taxonomy, catalogue, services, intent)
    {
      var byCategory := GroupByCategory(services);
      r := AddFallbacks(services, byCategory, intent);
      if |r| > 20 {
        r := r[..20];
      }
    }

    /** The requirement loop of `ensureCompleteServiceCoverage`: a fallback appended for each required category with no service. */
    method AddFallbacks(services: seq<Scored>, byCategory: map<string, seq<Scored>>, intent: BusinessIntent) returns (r: seq<Scored>)
      requires byCategory.Keys == PresentCategories(taxonomy, services)
      requires forall c :: c in byCategory ==> byCategory[c] != []
      ensures r == services + Fallbacks(taxonomy, catalogue, intent.categories, PresentCategories(taxonomy, services), intent)
    {
      var present := PresentCategories(taxonomy, services);
      var cats := intent.categories;
      r := services;
      var j := 0;
      while j < |cats|
        invariant 0 <= j <= |cats|
        invariant r + Fallbacks(taxonomy, catalogue, cats[j..], present, intent)
          == services + Fallbacks(taxonomy, catalogue, cats, present, intent)
      {
        var required := cats[j];
        FallbacksStep(taxonomy, catalogue, cats, j, present, intent);
        ghost var rest := Fallbacks(taxonomy, catalogue, cats[j + 1..], present, intent);
        if required !in byCategory || byCategory[required] == [] {
          assert required !in present;
          var fallback := Fallback(taxonomy, catalogue, required, intent);
          if fallback.Some? {
            AppendAssoc(r, [fallback.value], rest);
            r := r + [fallback.value];
          } else {
            AppendEmpty(rest);
          }
        } else {
          assert required in present;
          AppendEmpty(rest);
        }
        j := j + 1;
      }
      AppendNil(r);
    }

    /** `findMatchingServices`: obtain the list, parse the requirements, then match, rank and cover. */
    method FindMatchingServices(serialized: string, now: int, fetchedAt: int, fetch: FetchOutcome) returns (r: seq<Scored>)
      requires Valid()
      modifies this
      ensures r == Pipeline(taxonomy, catalogue, Served(old(cache), now, cacheExpiry, taxonomy, catalogue, fetch),
                            Intent(taxonomy, requirementTerms, preferenceTerms, ToLower(serialized)))
      ensures cache == Stored(old(cache), now, fetchedAt, cacheExpiry, taxonomy, catalogue, fetch)
      ensures |r| <= 20
    {
      var all := GetAllServices(now, fetchedAt, fetch);
      var intent := ParseBusinessRequirements(serialized);
      var matched := MatchServicesWithBusinessIntent(all, intent);
      var ranked := RankServicesByBusinessValue(matched, intent);
      r := EnsureCompleteServiceCoverage(ranked, intent);
      PipelineSpec(taxonomy, catalogue, all, intent);
    }

    /** `getServiceCategories`: the distinct non-blank categories of the served list. */
    method GetServiceCategories(now: int, fetchedAt: int, fetch: FetchOutcome) returns (r: seq<string>)
      modifies this
      ensures r == ServiceCategoryNames(Served(old(cache), now, cacheExpiry, taxonomy, catalogue, fetch))
      ensures cache == Stored(old(cache), now, fetchedAt, cacheExpiry, taxonomy, catalogue, fetch)
      ensures NoDuplicates(r)
    {
      var services := GetAllServices(now, fetchedAt, fetch);
      r := ServiceCategoryNames(services);
      ServiceCategoryNamesSpec(services);
    }
  }
}
