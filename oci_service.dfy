/**
 * The older catalogue provider, `OCIService`, which the live BOM route uses: a one-hour cache
 * over the pricing API with a twelve-entry fallback list that is never cached, keyword counts
 * over the serialised requirements, a relevance score capped at 1.0, pricing normalisation,
 * and the matcher that keeps relevant priced services, sorted by relevance, at most twenty.
 */
module OciService {
  import opened Wrappers
  import opened Text
  import opened Lists
  import opened Catalog

  // ---------------------------------------------------------------------------------------
  // Cache

  /** What the API call left in `services`: a list, or some other payload (an object without `items`). */
  datatype Listing = ServiceList(services: seq<Service>) | NotAList

  /** The outcome of the HTTP request: a payload, or a failure (network error, timeout, HTTP error). */
  datatype FetchOutcome = Fetched(payload: Listing) | Unavailable

  datatype CacheEntry = CacheEntry(data: Listing, timestamp: int)

  /** One hour, in milliseconds. */
  const CacheExpiry: int := 3600000

  /** The cache holds an entry stored less than `expiry` milliseconds before `now`. */
  predicate Fresh(cache: Option<CacheEntry>, now: int, expiry: int) {
    cache.Some? && now - cache.value.timestamp < expiry
  }

  /** What `getAllServices` returns: the fresh cached payload, else the API payload as it came, else the fallback list. */
  function Served(cache: Option<CacheEntry>, now: int, expiry: int, fallback: seq<Service>, fetch: FetchOutcome): Listing {
    if Fresh(cache, now, expiry) then cache.value.data
    else
      match fetch
      case Fetched(payload) => payload
      case Unavailable => ServiceList(fallback)
  }

  /** The cache after `getAllServices`: only a successful fetch is stored. */
  function Stored(cache: Option<CacheEntry>, now: int, fetchedAt: int, expiry: int, fetch: FetchOutcome): Option<CacheEntry> {
    if Fresh(cache, now, expiry) then cache
    else if fetch.Fetched? then Some(CacheEntry(fetch.payload, fetchedAt))
    else cache
  }

  /** A fresh entry is served as it is and the cache is left alone, whatever the API would have answered. */
  lemma CacheHit(cache: Option<CacheEntry>, now: int, fetchedAt: int, expiry: int, fallback: seq<Service>, fetch: FetchOutcome)
    requires Fresh(cache, now, expiry)
    ensures Served(cache, now, expiry, fallback, fetch) == cache.value.data
    ensures Stored(cache, now, fetchedAt, expiry, fetch) == cache
  {
  }

  /**
   * On a miss with the API unreachable the fallback list is served and nothing is stored, so
   * every later call asks the API again.
   */
  lemma FallbackNotCached(cache: Option<CacheEntry>, now: int, fetchedAt: int, expiry: int, fallback: seq<Service>,
                          later: int, laterFetch: FetchOutcome)
    requires !Fresh(cache, now, expiry)
    requires later >= now
    ensures Served(cache, now, expiry, fallback, Unavailable) == ServiceList(fallback)
    ensures Stored(cache, now, fetchedAt, expiry, Unavailable) == cache
    ensures !Fresh(Stored(cache, now, fetchedAt, expiry, Unavailable), later, expiry)
    ensures laterFetch.Fetched? ==>
      Served(Stored(cache, now, fetchedAt, expiry, Unavailable), later, expiry, fallback, laterFetch) == laterFetch.payload
  {
  }

  /** A successful fetch is served unchanged for as long as the entry stays fresh. */
  lemma FetchCached(cache: Option<CacheEntry>, now: int, fetchedAt: int, expiry: int, fallback: seq<Service>,
                    payload: Listing, later: int, laterFetch: FetchOutcome)
    requires !Fresh(cache, now, expiry)
    requires later - fetchedAt < expiry
    ensures Served(Stored(cache, now, fetchedAt, expiry, Fetched(payload)), later, expiry, fallback, laterFetch) == payload
  {
  }

  // ---------------------------------------------------------------------------------------
  // Fallback list

  /** A fallback entry: one US-dollar pay-as-you-go price per unit, whose unit is also the metric name. */
  function FallbackEntry(partNumber: string, displayName: string, category: string, skuType: string,
                         unit: string, unitPrice: real): Service
  {
    Service(Some(partNumber), Some(displayName), Some(category), Some(skuType), None, None, None, None, Some(unit),
            PricingList([Pricing(Some("USD"), Some(unitPrice), None, Some("PAYG"), Some(unit), None, None)]), None)
  }

  /** `getFallbackServices`: the twelve services served while the API is unreachable. */
  const FallbackServices: seq<Service> := [
    FallbackEntry("B88317", "Compute - Standard - E4 - OCPU Hour", "Compute", "OCPU", "OCPU_HOUR", 0.0255),
    FallbackEntry("B88318", "Compute - Standard - E4 - Memory GB Hour", "Compute", "MEMORY", "GB_HOUR", 0.00255),
    FallbackEntry("B91969", "Load Balancer - Flexible - 10 Mbps", "Networking", "LOAD_BALANCER", "HOUR", 0.025),
    FallbackEntry("B88514", "Block Storage - Performance", "Storage", "BLOCK_STORAGE", "GB_MONTH", 0.0255),
    FallbackEntry("B89728", "Database - Base Database Service - BYOL", "Database", "DATABASE_BYOL", "OCPU_HOUR", 0.255),
    FallbackEntry("B88319", "Compute - Standard - E3 - OCPU Hour", "Compute", "OCPU", "OCPU_HOUR", 0.0306),
    FallbackEntry("B91968", "Load Balancer - Flexible - 100 Mbps", "Networking", "LOAD_BALANCER", "HOUR", 0.25),
    FallbackEntry("B88515", "Block Storage - Balanced", "Storage", "BLOCK_STORAGE", "GB_MONTH", 0.0425),
    FallbackEntry("B89729", "Database - Autonomous Database - OCPU Hour", "Database", "DATABASE_AUTO", "OCPU_HOUR", 0.72),
    FallbackEntry("B91234", "Virtual Cloud Network - NAT Gateway", "Networking", "NAT_GATEWAY", "HOUR", 0.045),
    FallbackEntry("B91235", "Object Storage - Standard", "Storage", "OBJECT_STORAGE", "GB_MONTH", 0.0255),
    FallbackEntry("B91236", "File Storage - Standard", "Storage", "FILE_STORAGE", "GB_MONTH", 0.085)
  ]

  /** A service that lists exactly one price, in US dollars, with a positive unit price and a unit. */
  predicate ListsOneUsdPrice(s: Service) {
    s.pricing.PricingList? && |s.pricing.items| == 1
    && s.pricing.items[0].currency == Some("USD")
    && s.pricing.items[0].unitPrice.Some? && s.pricing.items[0].unitPrice.value > 0.0
    && Truthy(s.pricing.items[0].unit) && Truthy(s.partNumber)
  }

  /** The fallback list has twelve entries, each priced once in US dollars. */
  lemma FallbackCatalogue()
    ensures |FallbackServices| == 12
    ensures forall i :: 0 <= i < |FallbackServices| ==> ListsOneUsdPrice(FallbackServices[i])
  {
    forall i | 0 <= i < 12
      ensures ListsOneUsdPrice(FallbackServices[i])
    {
    }
  }

  /** The fallback entries have distinct part numbers. */
  lemma FallbackPartNumbers()
    ensures forall i, j :: 0 <= i < j < |FallbackServices| ==> FallbackServices[i].partNumber != FallbackServices[j].partNumber
  {
    var parts := ["B88317", "B88318", "B91969", "B88514", "B89728", "B88319", "B91968", "B88515", "B89729", "B91234", "B91235", "B91236"];
    forall i | 0 <= i < 12
      ensures FallbackServices[i].partNumber == Some(parts[i])
    {
    }
    forall i, j | 0 <= i < j < 12
      ensures parts[i] != parts[j]
    {
      assert parts[i][3..] != parts[j][3..];
    }
  }

  // ---------------------------------------------------------------------------------------
  // Keyword counts

  /** The keyword table of `extractServiceKeywords`, category by category in declaration order. */
  const ServiceKeywords: seq<(string, seq<string>)> := [
    ("compute", ["compute", "server", "instance", "vm", "cpu", "processor", "core"]),
    ("storage", ["storage", "disk", "block", "object", "file", "backup", "archive"]),
    ("database", ["database", "db", "mysql", "postgresql", "oracle", "mongodb", "sql"]),
    ("network", ["network", "vpc", "load balancer", "cdn", "dns", "bandwidth", "traffic"]),
    ("security", ["security", "firewall", "waf", "identity", "access", "encryption"]),
    ("analytics", ["analytics", "data", "warehouse", "etl", "bi", "reporting"]),
    ("ai", ["ai", "machine learning", "ml", "artificial intelligence", "generative"]),
    ("container", ["container", "kubernetes", "docker", "k8s", "orchestration"]),
    ("monitoring", ["monitoring", "logging", "observability", "metrics", "alerts"])
  ]

  /** How many of `keywords` occur in `text` (`keywords.filter(k => text.includes(k)).length`). */
  function CountFound(text: string, keywords: seq<string>): (n: nat)
    ensures n <= |keywords|
    ensures n == 0 <==> forall k :: 0 <= k < |keywords| ==> !Contains(text, keywords[k])
    ensures n == |keywords| <==> forall k :: 0 <= k < |keywords| ==> Contains(text, keywords[k])
  {
    if keywords == [] then 0
    else
      var rest := CountFound(text, keywords[1..]);
      assert forall k :: 1 <= k < |keywords| ==> keywords[k] == keywords[1..][k - 1];
      (if Contains(text, keywords[0]) then 1 else 0) + rest
  }

  /**
   * `extractServiceKeywords`: for each category of `table`, in order, the number of its keywords
   * found in `text` (the lowercased serialised requirements).
   */
  function KeywordCounts(table: seq<(string, seq<string>)>, text: string): seq<(string, nat)> {
    seq(|table|, i requires 0 <= i < |table| => (table[i].0, CountFound(text, table[i].1)))
  }

  /**
   * One count per category, in table order, between 0 and the length of that category's keyword
   * list; 0 exactly when none of its keywords occurs, the full length exactly when all do.
   */
  lemma KeywordCountsSpec(table: seq<(string, seq<string>)>, text: string)
    ensures |KeywordCounts(table, text)| == |table|
    ensures forall i :: 0 <= i < |table| ==> KeywordCounts(table, text)[i].0 == table[i].0
    ensures forall i :: 0 <= i < |table| ==> KeywordCounts(table, text)[i].1 <= |table[i].1|
    ensures forall i :: 0 <= i < |table| ==>
      (KeywordCounts(table, text)[i].1 == 0 <==> forall k :: 0 <= k < |table[i].1| ==> !Contains(text, table[i].1[k]))
    ensures forall i :: 0 <= i < |table| ==>
      (KeywordCounts(table, text)[i].1 == |table[i].1| <==> forall k :: 0 <= k < |table[i].1| ==> Contains(text, table[i].1[k]))
  {
  }

  // ---------------------------------------------------------------------------------------
  // Relevance

  /** The category boosts of `calculateRelevanceScore`. */
  const CategoryBoosts: seq<(string, real)> := [
    ("compute", 0.8), ("storage", 0.7), ("database", 0.9), ("network", 0.6),
    ("security", 0.7), ("analytics", 0.5), ("ai", 0.6)
  ]

  predicate NonNegativeBoosts(boosts: seq<(string, real)>) {
    forall i :: 0 <= i < |boosts| ==> boosts[i].1 >= 0.0
  }

  /** `${displayName} ${serviceCategory}`, lowercased; a missing property prints as `undefined`. */
  function ServiceText(s: Service): string {
    ToLower(Render(s.displayName) + " " + Render(s.serviceCategory))
  }

  /** 0.3 per found keyword of every category with a non-zero count whose name occurs in the service text. */
  function CategoryPoints(counts: seq<(string, nat)>, text: string): (p: real)
    ensures p >= 0.0
  {
    if counts == [] then 0.0
    else
      var last := counts[|counts| - 1];
      CategoryPoints(counts[..|counts| - 1], text) + (if last.1 > 0 && Contains(text, last.0) then last.1 as real * 0.3 else 0.0)
  }

  /** 0.1 per requirement word longer than three characters that occurs in the service text (repeats count again). */
  function WordPoints(words: seq<string>, text: string): (p: real)
    ensures 0.0 <= p
  {
    if words == [] then 0.0
    else
      var last := words[|words| - 1];
      WordPoints(words[..|words| - 1], text) + (if |last| > 3 && Contains(text, last) then 0.1 else 0.0)
  }

  /** The boost of every category name that occurs in the service text. */
  function BoostPoints(boosts: seq<(string, real)>, text: string): real {
    if boosts == [] then 0.0
    else
      var last := boosts[|boosts| - 1];
      BoostPoints(boosts[..|boosts| - 1], text) + (if Contains(text, last.0) then last.1 else 0.0)
  }

  /** With non-negative boosts the boost sum is at least each boost that applies. */
  lemma {:induction false} BoostPointsSpec(boosts: seq<(string, real)>, text: string)
    requires NonNegativeBoosts(boosts)
    ensures BoostPoints(boosts, text) >= 0.0
    ensures forall i :: 0 <= i < |boosts| && Contains(text, boosts[i].0) ==> BoostPoints(boosts, text) >= boosts[i].1
  {
    if boosts != [] {
      var init := boosts[..|boosts| - 1];
      assert NonNegativeBoosts(init) by {
        forall i | 0 <= i < |init|
          ensures init[i].1 >= 0.0
        {
          assert init[i] == boosts[i];
        }
      }
      BoostPointsSpec(init, text);
      forall i | 0 <= i < |boosts| - 1
        ensures init[i] == boosts[i]
      {
      }
    }
  }

  /** The requirement words: the lowercased serialised requirements split on white space. */
  function RequirementWords(serialized: string): seq<string> {
    SplitSpace(ToLower(serialized))
  }

  /** The uncapped score. */
  function RawRelevance(counts: seq<(string, nat)>, boosts: seq<(string, real)>, s: Service, serialized: string): real {
    var text := ServiceText(s);
    CategoryPoints(counts, text) + WordPoints(RequirementWords(serialized), text) + BoostPoints(boosts, text)
  }

  /** `calculateRelevanceScore`: the raw score capped at 1.0 (`Math.min(score, 1.0)`). */
  function RelevanceScore(counts: seq<(string, nat)>, boosts: seq<(string, real)>, s: Service, serialized: string): real {
    var raw := RawRelevance(counts, boosts, s, serialized);
    if raw < 1.0 then raw else 1.0
  }

  /**
   * The score lies in [0, 1.0]; it is 1.0 exactly when the raw sum reaches 1.0, and a service
   * whose text names a boosted category scores at least that boost.
   */
  lemma RelevanceBounds(counts: seq<(string, nat)>, boosts: seq<(string, real)>, s: Service, serialized: string)
    requires NonNegativeBoosts(boosts)
    ensures 0.0 <= RelevanceScore(counts, boosts, s, serialized) <= 1.0
    ensures RelevanceScore(counts, boosts, s, serialized) == 1.0 <==> RawRelevance(counts, boosts, s, serialized) >= 1.0
    ensures forall i :: 0 <= i < |boosts| && Contains(ServiceText(s), boosts[i].0) ==>
      RelevanceScore(counts, boosts, s, serialized) >= (if boosts[i].1 < 1.0 then boosts[i].1 else 1.0)
  {
    BoostPointsSpec(boosts, ServiceText(s));
  }

  // ---------------------------------------------------------------------------------------
  // Pricing

  /** `parseFloat(x) || 0`: an unparsable price (`NaN`) becomes 0. */
  function PriceOrZero(x: Option<real>): (r: real)
    ensures x.None? ==> r == 0.0
    ensures x.Some? ==> r == x.value
  {
    if x.Some? then x.value else 0.0
  }

  /** `extractPricing`: the US-dollar entry of `currencyCodeLocalizations` and every currency's price. */
  function ExtractPricing(s: Service): Pricing
  {
    match s.localizations
    case None => EmptyPricing
    case Some(locs) =>
      var usd := FindCurrency(locs, "USD");
      var all := seq(|locs|, i requires 0 <= i < |locs| => CurrencyPrice(locs[i].currencyCode, PriceOrZero(locs[i].price), locs[i].model));
      if usd.Some? then
        Pricing(Some("USD"), None, Some(PriceOrZero(usd.value.price)), OrElse(usd.value.model, Some("PAY_AS_YOU_GO")), None, None, Some(all))
      else
        Pricing(None, None, None, None, None, None, Some(all))
  }

  /**
   * Without localisations the pricing is empty; with them it lists every currency's price (0 when
   * unparsable) and has a US-dollar price and a truthy model exactly when some entry is in US dollars.
   */
  lemma ExtractPricingSpec(s: Service)
    ensures s.localizations.None? ==> ExtractPricing(s) == EmptyPricing && !HasKeys(ExtractPricing(s))
    ensures s.localizations.Some? ==>
      HasKeys(ExtractPricing(s)) && ExtractPricing(s).allCurrencies.Some? && |ExtractPricing(s).allCurrencies.value| == |s.localizations.value|
    ensures s.localizations.Some? ==> forall i :: 0 <= i < |s.localizations.value| ==>
      ExtractPricing(s).allCurrencies.value[i] == CurrencyPrice(s.localizations.value[i].currencyCode,
        PriceOrZero(s.localizations.value[i].price), s.localizations.value[i].model)
    ensures s.localizations.Some? ==>
      (ExtractPricing(s).currency.Some? <==> exists i :: 0 <= i < |s.localizations.value| && s.localizations.value[i].currencyCode == Some("USD"))
    ensures ExtractPricing(s).currency.Some? ==>
      ExtractPricing(s).currency == Some("USD") && ExtractPricing(s).price.Some? && Truthy(ExtractPricing(s).model)
    ensures ExtractPricing(s).currency.None? ==> ExtractPricing(s).price.None? && ExtractPricing(s).model.None?
    ensures ExtractPricing(s).unitPrice.None? && ExtractPricing(s).unit.None? && ExtractPricing(s).metricName.None?
  {
    if s.localizations.Some? {
      var locs := s.localizations.value;
      var usd := FindCurrency(locs, "USD");
      if usd.None? {
        forall i | 0 <= i < |locs|
          ensures locs[i].currencyCode != Some("USD")
        {
          assert locs[i] in locs;
        }
      } else {
        assert exists i :: 0 <= i < |locs| && locs[i] == usd.value;
      }
    }
  }

  /** The US-dollar price `extractPricing` reports is that of the first US-dollar entry, 0 when it does not parse. */
  lemma ExtractPricingUsd(s: Service)
    requires s.localizations.Some? && s.localizations.value != [] && s.localizations.value[0].currencyCode == Some("USD")
    ensures ExtractPricing(s).price == Some(PriceOrZero(s.localizations.value[0].price))
    ensures s.localizations.value[0].price.None? ==> ExtractPricing(s).price == Some(0.0)
  {
  }

  /** `if (!p.unitPrice && p.price !== undefined) p.unitPrice = p.price`. */
  function PatchUnitPrice(p: Pricing): Pricing {
    if !TruthyNum(p.unitPrice) && p.price.Some? then p.(unitPrice := p.price) else p
  }

  /** `if (!p.unit && metricName) p.unit = metricName`. */
  function FillUnit(p: Pricing, metricName: Option<string>): Pricing {
    if !Truthy(p.unit) && Truthy(metricName) then p.(unit := metricName) else p
  }

  /** `service.pricing && service.pricing.length > 0 ? service.pricing[0] : null`; a single object has no length. */
  function FirstListed(f: PricingField): (r: Option<Pricing>)
    ensures r.Some? <==> f.PricingList? && f.items != []
  {
    if f.PricingList? && |f.items| > 0 then Some(f.items[0]) else None
  }

  /**
   * The pricing the matcher attaches: the extracted pricing when it has any property, else the
   * first listed price, normalised by `PatchUnitPrice` and `FillUnit`; `None` stands for `null`.
   */
  function FinalPricing(s: Service): Option<Pricing> {
    var extracted := ExtractPricing(s);
    var base := if HasKeys(extracted) then Some(extracted) else FirstListed(s.pricing);
    if base.None? then None else Some(FillUnit(PatchUnitPrice(base.value), s.metricName))
  }

  /**
   * Normalisation gives a unit price wherever a price is present and a unit wherever the service
   * has a metric name, touches no other property, and is idempotent. The source normalises the
   * first listed price in place, on the cached service itself; idempotence makes that harmless
   * only for a later matched call. The no-match path and `getServicesByCategory` read that price
   * too, and the model gives them the price as the API sent it.
   */
  lemma NormalizeSpec(p: Pricing, metricName: Option<string>)
    ensures var q := FillUnit(PatchUnitPrice(p), metricName);
      (p.price.Some? ==> q.unitPrice.Some?)
      && (TruthyNum(p.unitPrice) ==> q.unitPrice == p.unitPrice)
      && (Truthy(metricName) ==> Truthy(q.unit))
      && (Truthy(p.unit) ==> q.unit == p.unit)
      && q.(unitPrice := p.unitPrice, unit := p.unit) == p
      && FillUnit(PatchUnitPrice(q), metricName) == q
  {
  }

  /** A service gets a pricing exactly when it has localisations or a non-empty price list. */
  lemma FinalPricingSpec(s: Service)
    ensures FinalPricing(s).Some? <==> s.localizations.Some? || (s.pricing.PricingList? && s.pricing.items != [])
    ensures s.localizations.Some? ==> FinalPricing(s) == Some(FillUnit(PatchUnitPrice(ExtractPricing(s)), s.metricName))
    ensures s.localizations.None? && s.pricing.PricingList? && s.pricing.items != [] ==>
      FinalPricing(s) == Some(FillUnit(PatchUnitPrice(s.pricing.items[0]), s.metricName))
  {
  }

  // ---------------------------------------------------------------------------------------
  // Matching

  /** A matched service with its relevance and its normalised pricing. */
  datatype Candidate = Candidate(service: Service, relevanceScore: real, pricing: Pricing)

  /** The essential properties the matcher returns: `pricing` is a single object. */
  datatype Match = Match(partNumber: Option<string>, displayName: Option<string>, serviceCategory: Option<string>,
                         skuType: Option<string>, pricing: Pricing, relevanceScore: real, metricName: Option<string>)

  /** One step of the matching loop: the candidate a service yields, if it is relevant and priced. */
  function Assess(counts: seq<(string, nat)>, boosts: seq<(string, real)>, s: Service, serialized: string): Option<Candidate> {
    var score := RelevanceScore(counts, boosts, s, serialized);
    var pricing := FinalPricing(s);
    if score > 0.1 && pricing.Some? then Some(Candidate(s, score, pricing.value)) else None
  }

  /** `Assess` applied to each service in turn. */
  function Assessed(counts: seq<(string, nat)>, boosts: seq<(string, real)>, services: seq<Service>, serialized: string): (r: seq<Option<Candidate>>)
    ensures |r| == |services|
  {
    seq(|services|, i requires 0 <= i < |services| => Assess(counts, boosts, services[i], serialized))
  }

  /** The loop of `findMatchingServices`: the candidates in catalogue order. */
  function Candidates(counts: seq<(string, nat)>, boosts: seq<(string, real)>, services: seq<Service>, serialized: string): seq<Candidate> {
    Somes(Assessed(counts, boosts, services, serialized))
  }

  function Relevance(c: Candidate): real { c.relevanceScore }

  function Essential(c: Candidate): Match {
    Match(c.service.partNumber, c.service.displayName, c.service.serviceCategory, c.service.skuType,
          c.pricing, c.relevanceScore, c.service.metricName)
  }

  /** The pricing of the no-match path: the first listed price, with `unitPrice` taken from `price` when missing. */
  function PlainPricing(s: Service): Option<Pricing> {
    var p := FirstListed(s.pricing);
    if p.None? then None else Some(PatchUnitPrice(p.value))
  }

  /** The no-match path's filter on mapped services: pricing present, with a unit price or a price. */
  function PricedPlain(services: seq<Service>): seq<Match> {
    if services == [] then []
    else
      var p := PlainPricing(services[0]);
      var rest := PricedPlain(services[1..]);
      if p.Some? && (p.value.unitPrice.Some? || p.value.price.Some?) then
        [Match(services[0].partNumber, services[0].displayName, services[0].serviceCategory, services[0].skuType,
               p.value, 0.5, services[0].metricName)] + rest
      else rest
  }

  /** Each entry of `PricedPlain` has relevance 0.5, a priced pricing object and comes from a listed service. */
  lemma {:induction false} PricedPlainSpec(services: seq<Service>)
    ensures |PricedPlain(services)| <= |services|
    ensures forall i :: 0 <= i < |PricedPlain(services)| ==>
      PricedPlain(services)[i].pricing.unitPrice.Some? || PricedPlain(services)[i].pricing.price.Some?
    ensures forall i :: 0 <= i < |PricedPlain(services)| ==>
      exists j :: 0 <= j < |services| && PlainFrom(PricedPlain(services)[i], services[j])
  {
    if services != [] {
      PricedPlainSpec(services[1..]);
      var rest := PricedPlain(services[1..]);
      forall i | 0 <= i < |rest|
        ensures exists j :: 0 <= j < |services| && PlainFrom(rest[i], services[j])
      {
        var j :| 0 <= j < |services[1..]| && PlainFrom(rest[i], services[1..][j]);
        assert services[1..][j] == services[j + 1];
      }
    }
  }

  /** The no-match result: the first fifteen services, mapped and filtered. */
  function Unmatched(services: seq<Service>): seq<Match> {
    PricedPlain(if |services| <= 15 then services else services[..15])
  }

  /** The top twenty candidates by relevance, reduced to their essential properties. */
  function TopMatches(sorted: seq<Candidate>): seq<Match> {
    var n := if |sorted| <= 20 then |sorted| else 20;
    seq(n, i requires 0 <= i < n => Essential(sorted[i]))
  }

  /** What `findMatchingServices` returns for a list of services. */
  function Matches(table: seq<(string, seq<string>)>, boosts: seq<(string, real)>, services: seq<Service>, serialized: string): seq<Match> {
    var counts := KeywordCounts(table, ToLower(serialized));
    var found := Candidates(counts, boosts, services, serialized);
    if found == [] then Unmatched(services) else TopMatches(SortDesc(found, Relevance))
  }

  /** Sorted by descending relevance. */
  predicate ByRelevance(ms: seq<Match>) {
    forall i, j :: 0 <= i < j < |ms| ==> ms[i].relevanceScore >= ms[j].relevanceScore
  }

  /** `m` is the essential form of service `s` as the matching loop scores and prices it. */
  predicate ScoredFrom(m: Match, s: Service, counts: seq<(string, nat)>, boosts: seq<(string, real)>, serialized: string) {
    m.partNumber == s.partNumber && FinalPricing(s) == Some(m.pricing)
    && m.relevanceScore == RelevanceScore(counts, boosts, s, serialized)
  }

  /** `m` is the no-match form of service `s`. */
  predicate PlainFrom(m: Match, s: Service) {
    m.partNumber == s.partNumber && PlainPricing(s) == Some(m.pricing) && m.relevanceScore == 0.5
  }

  /** Every candidate scores in (0.1, 1.0] and is the scored, priced form of some service. */
  lemma CandidateFrom(counts: seq<(string, nat)>, boosts: seq<(string, real)>, services: seq<Service>, serialized: string, c: Candidate)
    requires NonNegativeBoosts(boosts)
    requires c in Candidates(counts, boosts, services, serialized)
    ensures 0.1 < c.relevanceScore <= 1.0
    ensures exists j :: 0 <= j < |services| && ScoredFrom(Essential(c), services[j], counts, boosts, serialized)
  {
    var assessed := Assessed(counts, boosts, services, serialized);
    SomesSound(assessed);
    var k :| 0 <= k < |Somes(assessed)| && Somes(assessed)[k] == c;
    var j :| 0 <= j < |assessed| && assessed[j] == Some(c);
    RelevanceBounds(counts, boosts, services[j], serialized);
    assert ScoredFrom(Essential(c), services[j], counts, boosts, serialized);
  }

  /**
   * When some service is relevant and priced, the result holds at most twenty of them, each
   * scoring in (0.1, 1.0] with the normalised pricing of a catalogue service, sorted by
   * descending relevance.
   */
  lemma MatchesFound(table: seq<(string, seq<string>)>, boosts: seq<(string, real)>, services: seq<Service>, serialized: string)
    requires NonNegativeBoosts(boosts)
    requires Candidates(KeywordCounts(table, ToLower(serialized)), boosts, services, serialized) != []
    ensures |Matches(table, boosts, services, serialized)| <= 20
    ensures ByRelevance(Matches(table, boosts, services, serialized))
    ensures forall i :: 0 <= i < |Matches(table, boosts, services, serialized)| ==>
      0.1 < Matches(table, boosts, services, serialized)[i].relevanceScore <= 1.0
    ensures forall i :: 0 <= i < |Matches(table, boosts, services, serialized)| ==>
      exists j :: 0 <= j < |services| && ScoredFrom(Matches(table, boosts, services, serialized)[i], services[j], KeywordCounts(table, ToLower(serialized)), boosts, serialized)
  {
    var counts := KeywordCounts(table, ToLower(serialized));
    var found := Candidates(counts, boosts, services, serialized);
    var sorted := SortDesc(found, Relevance);
    SortDescSpec(found, Relevance);
    var r := TopMatches(sorted);
    assert r == Matches(table, boosts, services, serialized);
    forall i | 0 <= i < |r|
      ensures 0.1 < r[i].relevanceScore <= 1.0
      ensures exists j :: 0 <= j < |services| && ScoredFrom(r[i], services[j], counts, boosts, serialized)
    {
      assert sorted[i] in multiset(found);
      CandidateFrom(counts, boosts, services, serialized, sorted[i]);
    }
    forall a, b | 0 <= a < b < |r|
      ensures r[a].relevanceScore >= r[b].relevanceScore
    {
      assert Relevance(sorted[a]) >= Relevance(sorted[b]);
    }
  }

  /** With at most twenty candidates every relevant priced service is in the result. */
  lemma MatchesComplete(table: seq<(string, seq<string>)>, boosts: seq<(string, real)>, services: seq<Service>,
                        serialized: string, j: nat)
    requires j < |services|
    requires Assess(KeywordCounts(table, ToLower(serialized)), boosts, services[j], serialized).Some?
    requires |Candidates(KeywordCounts(table, ToLower(serialized)), boosts, services, serialized)| <= 20
    ensures Essential(Assess(KeywordCounts(table, ToLower(serialized)), boosts, services[j], serialized).value)
      in Matches(table, boosts, services, serialized)
  {
    var counts := KeywordCounts(table, ToLower(serialized));
    var assessed := Assessed(counts, boosts, services, serialized);
    var found := Somes(assessed);
    var c := assessed[j].value;
    SomesComplete(assessed, j);
    var sorted := SortDesc(found, Relevance);
    SortDescSpec(found, Relevance);
    assert c in multiset(sorted);
    var k :| 0 <= k < |sorted| && sorted[k] == c;
    assert |sorted| == |found|;
    assert TopMatches(sorted)[k] == Essential(c);
  }

  /**
   * When no service is relevant and priced, the result comes from the first fifteen services,
   * each with relevance 0.5 and a pricing that has a unit price or a price.
   */
  lemma MatchesUnmatched(table: seq<(string, seq<string>)>, boosts: seq<(string, real)>, services: seq<Service>, serialized: string)
    requires Candidates(KeywordCounts(table, ToLower(serialized)), boosts, services, serialized) == []
    ensures |Matches(table, boosts, services, serialized)| <= 15
    ensures forall i :: 0 <= i < |Matches(table, boosts, services, serialized)| ==>
      Matches(table, boosts, services, serialized)[i].pricing.unitPrice.Some?
      || Matches(table, boosts, services, serialized)[i].pricing.price.Some?
    ensures forall i :: 0 <= i < |Matches(table, boosts, services, serialized)| ==>
      exists j :: 0 <= j < |services| && j < 15 && PlainFrom(Matches(table, boosts, services, serialized)[i], services[j])
  {
    var head := if |services| <= 15 then services else services[..15];
    PricedPlainSpec(head);
    var r := PricedPlain(head);
    forall i | 0 <= i < |r|
      ensures exists j :: 0 <= j < |services| && j < 15 && PlainFrom(r[i], services[j])
    {
      var j :| 0 <= j < |head| && PlainFrom(r[i], head[j]);
      assert head[j] == services[j];
    }
  }

  // ---------------------------------------------------------------------------------------
  // Lookups

  /** `getServicesByCategory`: the services whose category contains `category`, ignoring ASCII case. */
  function ServicesInCategory(services: seq<Service>, category: string): (r: seq<Service>)
    ensures |r| <= |services|
    ensures forall s :: s in r <==>
      s in services && Truthy(s.serviceCategory) && Contains(ToLower(s.serviceCategory.value), ToLower(category))
  {
    if services == [] then []
    else
      var rest := ServicesInCategory(services[1..], category);
      var s := services[0];
      assert forall x :: x in services <==> x == s || x in services[1..];
      if Truthy(s.serviceCategory) && Contains(ToLower(s.serviceCategory.value), ToLower(category)) then [s] + rest else rest
  }

  /** `allServices.find(s => s.partNumber === partNumber)`. */
  function FindByPart(services: seq<Service>, partNumber: string): (r: Option<Service>)
    ensures r.Some? ==> r.value in services && r.value.partNumber == Some(partNumber)
    ensures r.None? <==> forall s :: s in services ==> s.partNumber != Some(partNumber)
  {
    if services == [] then None
    else if services[0].partNumber == Some(partNumber) then Some(services[0])
    else FindByPart(services[1..], partNumber)
  }

  /** The quote `getPricingForCurrency` returns. */
  datatype Quote = Quote(partNumber: Option<string>, displayName: Option<string>, currency: string, price: real,
                         model: Option<string>, metricName: Option<string>)

  /** The quote reports localisation `l`, which is in `currencyCode`; an unparsable price becomes 0. */
  predicate QuotedFrom(q: Quote, l: Localization, currencyCode: string) {
    l.currencyCode == Some(currencyCode) && q.price == PriceOrZero(l.price) && q.model == l.model
  }

  /**
   * `getPricingForCurrency` on the looked-up service: `null` when the service, its localisations
   * or the requested currency is missing; otherwise the first entry in that currency, with an
   * unparsable price reported as 0.
   */
  function PricingForCurrency(service: Option<Service>, currencyCode: string): (r: Option<Quote>)
    ensures r.None? <==> (service.None? || service.value.localizations.None?
                          || forall l :: l in service.value.localizations.value ==> l.currencyCode != Some(currencyCode))
    ensures r.Some? ==> (r.value.currency == currencyCode && r.value.partNumber == service.value.partNumber
                         && exists l :: l in service.value.localizations.value && QuotedFrom(r.value, l, currencyCode))
  {
    if service.None? || service.value.localizations.None? then None
    else
      var s := service.value;
      var loc := FindCurrency(s.localizations.value, currencyCode);
      if loc.None? then None
      else Some(Quote(s.partNumber, s.displayName, currencyCode, PriceOrZero(loc.value.price), loc.value.model, s.metricName))
  }

  // ---------------------------------------------------------------------------------------
  // The provider object

  /** `OCIService`: the tables it consults and its one-entry cache (`all_services`). */
  class OciServiceProvider {
    const keywords: seq<(string, seq<string>)>
    const boosts: seq<(string, real)>
    const fallback: seq<Service>
    const cacheExpiry: int
    var cache: Option<CacheEntry>

    predicate Valid() {
      NonNegativeBoosts(boosts)
    }

    constructor ()
      ensures keywords == ServiceKeywords && boosts == CategoryBoosts && fallback == FallbackServices
      ensures cacheExpiry == CacheExpiry && cache == None
      ensures Valid()
    {
      keywords := ServiceKeywords;
      boosts := CategoryBoosts;
      fallback := FallbackServices;
      cacheExpiry := CacheExpiry;
      cache := None;
    }

    /** `getAllServices`: a fresh cached payload, or the API payload (stored), or the fallback list (not stored). */
    method GetAllServices(now: int, fetchedAt: int, fetch: FetchOutcome) returns (r: Listing)
      modifies this
      ensures r == Served(old(cache), now, cacheExpiry, fallback, fetch)
      ensures cache == Stored(old(cache), now, fetchedAt, cacheExpiry, fetch)
    {
      if cache.Some? && now - cache.value.timestamp < cacheExpiry {
        return cache.value.data;
      }
      match fetch {
        case Fetched(payload) =>
          cache := Some(CacheEntry(payload, fetchedAt));
          r := payload;
        case Unavailable =>
          r := ServiceList(fallback);
      }
    }

    /** `calculateRelevanceScore`, accumulating the three contributions in turn. */
    method CalculateRelevanceScore(service: Service, counts: seq<(string, nat)>, serialized: string) returns (score: real)
      requires Valid()
      ensures score == RelevanceScore(counts, boosts, service, serialized)
      ensures 0.0 <= score <= 1.0
    {
      var text := ServiceText(service);
      score := 0.0;
      var i := 0;
      while i < |counts|
        invariant 0 <= i <= |counts|
        invariant score == CategoryPoints(counts[..i], text)
      {
        if counts[i].1 > 0 && Contains(text, counts[i].0) {
          score := score + counts[i].1 as real * 0.3;
        }
        assert counts[..i + 1][..i] == counts[..i];
        i := i + 1;
      }
      assert counts[..i] == counts;
      var words := RequirementWords(serialized);
      var w := 0;
      while w < |words|
        invariant 0 <= w <= |words|
        invariant score == CategoryPoints(counts, text) + WordPoints(words[..w], text)
      {
        if |words[w]| > 3 && Contains(text, words[w]) {
          score := score + 0.1;
        }
        assert words[..w + 1][..w] == words[..w];
        w := w + 1;
      }
      assert words[..w] == words;
      var b := 0;
      while b < |boosts|
        invariant 0 <= b <= |boosts|
        invariant score == CategoryPoints(counts, text) + WordPoints(words, text) + BoostPoints(boosts[..b], text)
      {
        if Contains(text, boosts[b].0) {
          score := score + boosts[b].1;
        }
        assert boosts[..b + 1][..b] == boosts[..b];
        b := b + 1;
      }
      assert boosts[..b] == boosts;
      if score > 1.0 {
        score := 1.0;
      }
      RelevanceBounds(counts, boosts, service, serialized);
    }

    /**
     * The matching loop of `findMatchingServices` over a list of services: relevant priced
     * services sorted by relevance, at most twenty, or the first fifteen priced services with
     * relevance 0.5 when nothing matches.
     */
    method MatchServices(services: seq<Service>, serialized: string) returns (r: seq<Match>)
      requires Valid()
      ensures r == Matches(keywords, boosts, services, serialized)
      ensures |r| <= 20 && forall i :: 0 <= i < |r| ==> 0.1 < r[i].relevanceScore <= 1.0
    {
      var counts := KeywordCounts(keywords, ToLower(serialized));
      ghost var assessed := Assessed(counts, boosts, services, serialized);
      var found: seq<Candidate> := [];
      var i := 0;
      while i < |services|
        invariant 0 <= i <= |services|
        invariant found == Somes(assessed[..i])
      {
        SomesPrefix(assessed, i);
        var score := CalculateRelevanceScore(services[i], counts, serialized);
        if score > 0.1 {
          var pricing := FinalPricing(services[i]);
          if pricing.Some? {
            found := found + [Candidate(services[i], score, pricing.value)];
          }
        }
        i := i + 1;
      }
      assert assessed[..i] == assessed;
      if found == [] {
        MatchesUnmatched(keywords, boosts, services, serialized);
        return Unmatched(services);
      }
      MatchesFound(keywords, boosts, services, serialized);
      r := TopMatches(SortDesc(found, Relevance));
    }

    /** `findMatchingServices`: the matching over the listing `getAllServices` serves; a payload that is not a list fails. */
    method FindMatchingServices(serialized: string, now: int, fetchedAt: int, fetch: FetchOutcome) returns (r: Result<seq<Match>>)
      requires Valid()
      modifies this
      ensures cache == Stored(old(cache), now, fetchedAt, cacheExpiry, fetch)
      ensures Served(old(cache), now, cacheExpiry, fallback, fetch).NotAList? ==> r == Err("Failed to find matching OCI services")
      ensures Served(old(cache), now, cacheExpiry, fallback, fetch).ServiceList? ==>
        r == Ok(Matches(keywords, boosts, Served(old(cache), now, cacheExpiry, fallback, fetch).services, serialized))
      ensures r.Ok? ==> |r.value| <= 20 && forall i :: 0 <= i < |r.value| ==> 0.1 < r.value[i].relevanceScore <= 1.0
    {
      var listing := GetAllServices(now, fetchedAt, fetch);
      if listing.NotAList? {
        return Err("Failed to find matching OCI services");
      }
      var matched := MatchServices(listing.services, serialized);
      r := Ok(matched);
    }

    /** `getServiceCategories`: the distinct non-blank categories of the listing; a payload that is not a list fails. */
    method GetServiceCategories(now: int, fetchedAt: int, fetch: FetchOutcome) returns (r: Result<seq<string>>)
      modifies this
      ensures cache == Stored(old(cache), now, fetchedAt, cacheExpiry, fetch)
      ensures Served(old(cache), now, cacheExpiry, fallback, fetch).NotAList? ==> r == Err("Failed to fetch OCI service categories")
      ensures Served(old(cache), now, cacheExpiry, fallback, fetch).ServiceList? ==>
        r == Ok(ServiceCategoryNames(Served(old(cache), now, cacheExpiry, fallback, fetch).services))
      ensures r.Ok? ==> NoDuplicates(r.value)
    {
      var listing := GetAllServices(now, fetchedAt, fetch);
      if listing.NotAList? {
        return Err("Failed to fetch OCI service categories");
      }
      r := Ok(ServiceCategoryNames(listing.services));
      ServiceCategoryNamesSpec(listing.services);
    }

    /** `getServicesByCategory`. */
    method GetServicesByCategory(category: string, now: int, fetchedAt: int, fetch: FetchOutcome) returns (r: Result<seq<Service>>)
      modifies this
      ensures cache == Stored(old(cache), now, fetchedAt, cacheExpiry, fetch)
      ensures Served(old(cache), now, cacheExpiry, fallback, fetch).NotAList? ==> r == Err("Failed to get services by category")
      ensures Served(old(cache), now, cacheExpiry, fallback, fetch).ServiceList? ==>
        r == Ok(ServicesInCategory(Served(old(cache), now, cacheExpiry, fallback, fetch).services, category))
    {
      var listing := GetAllServices(now, fetchedAt, fetch);
      if listing.NotAList? {
        return Err("Failed to get services by category");
      }
      r := Ok(ServicesInCategory(listing.services, category));
    }

    /** `getPricingForCurrency`, through `getServiceDetails`; its callers pass `"USD"` when they name no currency. */
    method GetPricingForCurrency(partNumber: string, currencyCode: string, now: int, fetchedAt: int, fetch: FetchOutcome)
      returns (r: Result<Option<Quote>>)
      modifies this
      ensures cache == Stored(old(cache), now, fetchedAt, cacheExpiry, fetch)
      ensures Served(old(cache), now, cacheExpiry, fallback, fetch).NotAList? ==> r == Err("Failed to get pricing information")
      ensures Served(old(cache), now, cacheExpiry, fallback, fetch).ServiceList? ==>
        r == Ok(PricingForCurrency(FindByPart(Served(old(cache), now, cacheExpiry, fallback, fetch).services, partNumber), currencyCode))
    {
      var listing := GetAllServices(now, fetchedAt, fetch);
      if listing.NotAList? {
        return Err("Failed to get pricing information");
      }
      r := Ok(PricingForCurrency(FindByPart(listing.services, partNumber), currencyCode));
    }
  }
}
