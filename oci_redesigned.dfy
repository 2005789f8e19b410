/**
 * The taxonomy-driven catalogue provider: an hour-long cache in front of the pricing API with an
 * embedded catalogue as its fallback, business metadata and pricing normalisation for API rows,
 * and the matching pipeline that turns serialized requirements into a business intent, scores
 * every service against it, ranks the matches and tops the list up so that each required
 * category is covered.
 */
module OciRedesigned {
  import opened Wrappers
  import opened Text
  import opened Lists
  import opened Scanner
  import opened Catalog

  // ---------------------------------------------------------------- taxonomy

  /** A product of a category group: its key, the phrases that name it, and its business value. */
  datatype Product = Product(key: string, patterns: seq<string>, businessValue: string)

  /** A category group of the taxonomy: its key, the catalogue categories it covers, its products. */
  datatype Group = Group(key: string, categories: seq<string>, products: seq<Product>)

  /** Keys are distinct, no two groups cover the same catalogue category, and no key is `other`. */
  predicate ValidTaxonomy(tax: seq<Group>) {
    (forall i, j :: 0 <= i < j < |tax| ==> tax[i].key != tax[j].key)
    && (forall i, j, c :: 0 <= i < j < |tax| && c in tax[i].categories ==> c !in tax[j].categories)
    && (forall i :: 0 <= i < |tax| ==> tax[i].key != "other")
  }

  /** `taxonomy.categories.includes(service.serviceCategory)`. */
  predicate Covers(g: Group, serviceCategory: Option<string>) {
    serviceCategory.Some? && serviceCategory.value in g.categories
  }

  const Taxonomy: seq<Group> := [
    Group("database", ["Database"], [
      Product("base_database", ["base database", "base db", "database service"],
        "Standard Oracle Database for general workloads"),
      Product("autonomous_database", ["autonomous", "autonomous database", "adb"],
        "Self-managing database with built-in AI optimization"),
      Product("exadata", ["exadata", "exadata database"],
        "High-performance engineered system for mission-critical workloads"),
      Product("mysql", ["mysql", "mysql database"], "Fully managed MySQL service")]),
    Group("compute", ["Compute"], [
      Product("standard_compute", ["compute", "server", "instance", "vm", "virtual machine"],
        "Flexible virtual machines for general workloads"),
      Product("high_performance", ["hpc", "high performance", "performance compute"],
        "Optimized for compute-intensive applications"),
      Product("gpu_instances", ["gpu", "graphics", "ai compute", "machine learning"],
        "GPU-accelerated compute for AI/ML workloads")]),
    Group("storage", ["Storage"], [
      Product("block_storage", ["block storage", "block volume", "disk storage"],
        "High-performance persistent storage for instances"),
      Product("object_storage", ["object storage", "bucket storage", "file storage"],
        "Scalable storage for unstructured data and backups"),
      Product("file_storage", ["file storage", "nfs", "shared storage"], "Shared file system storage")]),
    Group("networking", ["Networking", "Network"], [
      Product("load_balancer", ["load balancer", "lb", "load balancing"],
        "Distribute traffic across multiple servers"),
      Product("vcn", ["vcn", "virtual network", "cloud network"],
        "Private network infrastructure in the cloud")])
  ]

  /** Customer words and the Oracle service names they translate to, in declaration order. */
  const RequirementTerms: seq<(string, string)> := [
    ("database", "Database"), ("db", "Database"), ("data", "Database"),
    ("mysql", "MySQL Database Service"), ("oracle database", "Base Database Service"),
    ("autonomous", "Autonomous Database"), ("exadata", "Exadata Database Service"),
    ("server", "Compute"), ("compute", "Compute"), ("instance", "Compute"), ("vm", "Compute"),
    ("virtual machine", "Compute"), ("storage", "Storage"), ("disk", "Block Volume Storage"),
    ("backup", "Object Storage"), ("file", "File Storage Service"),
    ("load balancer", "Load Balancer"), ("network", "Virtual Cloud Network")
  ]

  /** The properties a preference phrase sets: `tier`, `optimize` and `licensing`, each possibly absent. */
  datatype Tuning = Tuning(tier: Option<string>, optimize: Option<string>, licensing: Option<string>)

  const NoTuning := Tuning(None, None, None)

  function Budget(tier: string, optimize: string): Tuning { Tuning(Some(tier), Some(optimize), None) }

  function Licensing(model: string): Tuning { Tuning(None, None, Some(model)) }

  /** Preference phrases and what each sets, in declaration order. */
  const PreferenceTerms: seq<(string, Tuning)> := [
    ("budget-conscious", Budget("standard", "cost")), ("cost-effective", Budget("standard", "cost")),
    ("basic", Budget("standard", "cost")), ("cheap", Budget("standard", "cost")),
    ("high-performance", Budget("enterprise", "performance")), ("enterprise", Budget("enterprise", "performance")),
    ("premium", Budget("enterprise", "performance")), ("fast", Budget("enterprise", "performance")),
    ("existing oracle licenses", Licensing("byol")), ("own licenses", Licensing("byol")),
    ("byol", Licensing("byol")), ("no licenses", Licensing("license_included")),
    ("new licenses", Licensing("license_included"))
  ]

  // ---------------------------------------------------------------- the embedded catalogue

  /** A catalogue row with a complete pay-as-you-go USD price. */
  function Row(partNumber: string, displayName: string, category: string, skuType: string, family: string,
               licensing: Option<string>, tier: string, description: string, unit: string, unitPrice: real,
               metricName: string): Service
  {
    Service(Some(partNumber), Some(displayName), Some(category), Some(skuType), Some(family), licensing,
      Some(tier), Some(description), None,
      PricingObject(Pricing(Some("USD"), Some(unitPrice), None, Some("PAYG"), Some(unit), Some(metricName), None)),
      None)
  }

  const ComprehensiveServices: seq<Service> := [
    Row("B89728", "Database - Base Database Service - BYOL", "Database", "DATABASE_BYOL", "base_database",
      Some("byol"), "standard", "Oracle Database with your existing licenses", "OCPU_HOUR", 0.255, "OCPU Hour"),
    Row("B89730", "Database - Base Database Service - License Included", "Database", "DATABASE_LI", "base_database",
      Some("license_included"), "standard", "Oracle Database with license included in pricing", "OCPU_HOUR", 0.755, "OCPU Hour"),
    Row("B89729", "Database - Autonomous Database - OCPU Hour", "Database", "DATABASE_AUTO", "autonomous_database",
      Some("license_included"), "premium", "Self-managing Oracle Database with AI optimization", "OCPU_HOUR", 0.72, "OCPU Hour"),
    Row("B91500", "Database - MySQL Database Service", "Database", "MYSQL", "mysql",
      Some("license_included"), "standard", "Fully managed MySQL database service", "OCPU_HOUR", 0.25, "OCPU Hour"),
    Row("B92000", "Database - Exadata Database Service", "Database", "EXADATA", "exadata",
      Some("byol"), "enterprise", "High-performance engineered system for mission-critical databases", "OCPU_HOUR", 1.85, "OCPU Hour"),
    Row("B88317", "Compute - Standard - E4 - OCPU Hour", "Compute", "OCPU", "standard_compute",
      None, "standard", "Standard virtual machine compute capacity", "OCPU_HOUR", 0.0255, "OCPU Hour"),
    Row("B88318", "Compute - Standard - E4 - Memory GB Hour", "Compute", "MEMORY", "standard_compute",
      None, "standard", "Standard virtual machine memory", "GB_HOUR", 0.00255, "GB Hour"),
    Row("B88319", "Compute - Standard - E3 - OCPU Hour", "Compute", "OCPU", "standard_compute",
      None, "standard", "Previous generation standard compute", "OCPU_HOUR", 0.0306, "OCPU Hour"),
    Row("B90100", "Compute - High Performance - HPC - OCPU Hour", "Compute", "HPC", "high_performance",
      None, "enterprise", "High-performance compute for intensive workloads", "OCPU_HOUR", 0.065, "OCPU Hour"),
    Row("B88514", "Block Storage - Performance", "Storage", "BLOCK_STORAGE", "block_storage",
      None, "standard", "High-performance block storage for databases", "GB_MONTH", 0.0255, "GB per Month"),
    Row("B88515", "Block Storage - Balanced", "Storage", "BLOCK_STORAGE", "block_storage",
      None, "standard", "Balanced performance and cost block storage", "GB_MONTH", 0.0425, "GB per Month"),
    Row("B91235", "Object Storage - Standard", "Storage", "OBJECT_STORAGE", "object_storage",
      None, "standard", "Scalable object storage for backups and archives", "GB_MONTH", 0.0255, "GB per Month"),
    Row("B91236", "File Storage - Standard", "Storage", "FILE_STORAGE", "file_storage",
      None, "standard", "Shared file system storage", "GB_MONTH", 0.085, "GB per Month"),
    Row("B91969", "Load Balancer - Flexible - 10 Mbps", "Networking", "LOAD_BALANCER", "load_balancer",
      None, "standard", "Basic load balancer for web applications", "HOUR", 0.025, "Hour"),
    Row("B91968", "Load Balancer - Flexible - 100 Mbps", "Networking", "LOAD_BALANCER", "load_balancer",
      None, "standard", "Higher capacity load balancer", "HOUR", 0.25, "Hour"),
    Row("B91234", "Virtual Cloud Network - NAT Gateway", "Networking", "NAT_GATEWAY", "vcn",
      None, "standard", "Secure outbound internet access for private resources", "HOUR", 0.045, "Hour")
  ]

  // ---------------------------------------------------------------- service category

  /** The position of the first group covering `serviceCategory`. */
  function GroupIndex(tax: seq<Group>, serviceCategory: Option<string>): (r: Option<nat>)
    ensures r.Some? ==> r.value < |tax| && Covers(tax[r.value], serviceCategory)
    ensures r.Some? ==> forall j :: 0 <= j < r.value ==> !Covers(tax[j], serviceCategory)
    ensures r.None? ==> forall j :: 0 <= j < |tax| ==> !Covers(tax[j], serviceCategory)
  {
    if tax == [] then None
    else if Covers(tax[0], serviceCategory) then Some(0)
    else
      var r := GroupIndex(tax[1..], serviceCategory);
      if r.Some? then Some(r.value + 1) else None
  }

  /** `getServiceCategory`: the key of the first group covering the service's category, else `other`. */
  function GetServiceCategory(tax: seq<Group>, service: Service): string {
    var g := GroupIndex(tax, service.serviceCategory);
    if g.Some? then tax[g.value].key else "other"
  }

  /** In a valid taxonomy a service belongs to the group covering its category, and to `other` exactly when none does. */
  lemma ServiceCategorySpec(tax: seq<Group>, service: Service)
    requires ValidTaxonomy(tax)
    ensures forall j :: 0 <= j < |tax| && Covers(tax[j], service.serviceCategory) ==> GetServiceCategory(tax, service) == tax[j].key
    ensures GetServiceCategory(tax, service) == "other" <==> forall j :: 0 <= j < |tax| ==> !Covers(tax[j], service.serviceCategory)
  {
    var g := GroupIndex(tax, service.serviceCategory);
    if g.Some? {
      forall j | 0 <= j < |tax| && Covers(tax[j], service.serviceCategory)
        ensures j == g.value
      {
        assert service.serviceCategory.value in tax[g.value].categories;
      }
    }
  }

  // ---------------------------------------------------------------- pricing normalisation

  /** The default price: USD 0.05 per hour, pay as you go. */
  const FallbackPricing := Pricing(Some("USD"), Some(0.05), None, Some("PAYG"), Some("HOUR"), Some("Hour"), None)

  /** The first USD localization of a service, if it has a list of them. */
  function UsdLocalization(service: Service): Option<Localization> {
    if service.localizations.Some? then FindCurrency(service.localizations.value, "USD") else None
  }

  /** `parseFloat(usdPricing.price) || 0`: the USD price, with `NaN` and absence read as zero. */
  function UsdPrice(service: Service): real {
    var usd := UsdLocalization(service);
    if usd.Some? && usd.value.price.Some? then usd.value.price.value else 0.0
  }

  /**
   * `normalizePricingData`: a pricing object that already has a unit price is kept as it is;
   * otherwise the USD localization's price is used, and a zero or missing price becomes the
   * default.
   */
  function NormalizePricingData(service: Service): (r: Pricing)
    ensures r.unitPrice.Some?
    ensures service.pricing.PricingObject? && service.pricing.obj.unitPrice.Some? ==> r == service.pricing.obj
    ensures !(service.pricing.PricingObject? && service.pricing.obj.unitPrice.Some?) ==>
      r.currency == Some("USD") && TruthyNum(r.unitPrice) && Truthy(r.model) && Truthy(r.unit) && Truthy(r.metricName)
  {
    if service.pricing.PricingObject? && service.pricing.obj.unitPrice.Some? then service.pricing.obj
    else
      var usd := UsdLocalization(service);
      var price := UsdPrice(service);
      if usd.Some? && price != 0.0 then
        Pricing(Some("USD"), Some(price), None, OrElse(usd.value.model, Some("PAYG")),
          OrElse(service.metricName, Some("HOUR")), OrElse(service.metricName, Some("Hour")), None)
      else FallbackPricing
  }

  /** Normalizing a service whose pricing was already normalized changes nothing. */
  lemma NormalizeIdempotent(service: Service)
    ensures var once := service.(pricing := PricingObject(NormalizePricingData(service)));
      NormalizePricingData(once) == NormalizePricingData(service)
  {
  }

  /** Without usable pricing, the USD localization's non-zero price is kept, and otherwise the default applies. */
  lemma NormalizeSource(service: Service)
    requires !(service.pricing.PricingObject? && service.pricing.obj.unitPrice.Some?)
    ensures UsdLocalization(service).Some? && UsdPrice(service) != 0.0 ==>
      NormalizePricingData(service).unitPrice == Some(UsdPrice(service))
    ensures UsdLocalization(service).None? || UsdPrice(service) == 0.0 ==> NormalizePricingData(service) == FallbackPricing
  {
  }

  // ---------------------------------------------------------------- business metadata

  /** The first product with a pattern in the lowercased display name; none when the service has no name. */
  function NamedProduct(products: seq<Product>, displayName: Option<string>): (r: Option<Product>)
    ensures r.Some? ==> displayName.Some? && ContainsAny(ToLower(displayName.value), r.value.patterns)
    ensures r.Some? ==> exists k :: 0 <= k < |products| && products[k] == r.value
    ensures r.None? ==> displayName.None? || forall k :: 0 <= k < |products| ==> !ContainsAny(ToLower(displayName.value), products[k].patterns)
  {
    if products == [] || displayName.None? then None
    else if ContainsAny(ToLower(displayName.value), products[0].patterns) then Some(products[0])
    else
      var r := NamedProduct(products[1..], displayName);
      assert r.Some? ==> products[1..][0] == products[1];
      r
  }

  /** The group loop of `enhanceServicesWithBusinessMetadata`, applied to `acc` for the groups in `tax`. */
  function Annotate(tax: seq<Group>, service: Service, acc: Service): Service
    decreases |tax|
  {
    if tax == [] then acc
    else
      var next :=
        if Covers(tax[0], service.serviceCategory) then
          match NamedProduct(tax[0].products, service.displayName)
          case Some(p) => acc.(productFamily := Some(p.key), businessDescription := Some(p.businessValue))
          case None => acc
        else acc;
      Annotate(tax[1..], service, next)
  }

  /** Only the product family and the description change, and only through the group covering the service. */
  lemma {:induction false} AnnotateSpec(tax: seq<Group>, service: Service, acc: Service)
    requires ValidTaxonomy(tax)
    ensures var r := Annotate(tax, service, acc);
      r.(productFamily := acc.productFamily, businessDescription := acc.businessDescription) == acc
    ensures forall j :: 0 <= j < |tax| && Covers(tax[j], service.serviceCategory) ==>
        (match NamedProduct(tax[j].products, service.displayName)
         case Some(p) => Annotate(tax, service, acc).productFamily == Some(p.key) && Annotate(tax, service, acc).businessDescription == Some(p.businessValue)
         case None => Annotate(tax, service, acc).productFamily == acc.productFamily && Annotate(tax, service, acc).businessDescription == acc.businessDescription)
    ensures var r := Annotate(tax, service, acc);
      (forall j :: 0 <= j < |tax| ==> !Covers(tax[j], service.serviceCategory)) ==>
        r.productFamily == acc.productFamily && r.businessDescription == acc.businessDescription
    decreases |tax|
  {
    if tax != [] {
      var next :=
        if Covers(tax[0], service.serviceCategory) then
          match NamedProduct(tax[0].products, service.displayName)
          case Some(p) => acc.(productFamily := Some(p.key), businessDescription := Some(p.businessValue))
          case None => acc
        else acc;
      var rest := tax[1..];
      assert ValidTaxonomy(rest) by {
        forall i, j, c | 0 <= i < j < |rest| && c in rest[i].categories
          ensures c !in rest[j].categories
        {
          assert rest[i] == tax[i + 1] && rest[j] == tax[j + 1];
        }
      }
      AnnotateSpec(rest, service, next);
      if Covers(tax[0], service.serviceCategory) {
        forall j | 1 <= j < |tax|
          ensures !Covers(tax[j], service.serviceCategory)
        {
          assert service.serviceCategory.value in tax[0].categories;
        }
      }
      forall j | 1 <= j < |tax|
        ensures tax[j] == rest[j - 1]
      {
      }
    }
  }

  /** One service with business metadata added and its pricing normalized. */
  function EnhanceService(tax: seq<Group>, service: Service): Service {
    Annotate(tax, service, service).(pricing := PricingObject(NormalizePricingData(service)))
  }

  /** `enhanceServicesWithBusinessMetadata`: every service enhanced, in order. */
  function EnhanceServices(tax: seq<Group>, services: seq<Service>): (r: seq<Service>)
    ensures |r| == |services|
    ensures forall i :: 0 <= i < |r| ==> r[i] == EnhanceService(tax, services[i])
  {
    seq(|services|, i requires 0 <= i < |services| => EnhanceService(tax, services[i]))
  }

  /**
   * An enhanced service keeps every property but the product family, the description and the
   * pricing; it takes the family and description of the first product of its group named in its
   * display name, and its pricing is the normalized pricing.
   */
  lemma EnhanceSpec(tax: seq<Group>, service: Service)
    requires ValidTaxonomy(tax)
    ensures var r := EnhanceService(tax, service);
      r.(productFamily := service.productFamily, businessDescription := service.businessDescription,
         pricing := service.pricing) == service
    ensures EnhanceService(tax, service).pricing == PricingObject(NormalizePricingData(service))
    ensures forall j :: 0 <= j < |tax| && Covers(tax[j], service.serviceCategory) ==>
        (match NamedProduct(tax[j].products, service.displayName)
         case Some(p) => EnhanceService(tax, service).productFamily == Some(p.key) && EnhanceService(tax, service).businessDescription == Some(p.businessValue)
         case None => EnhanceService(tax, service).productFamily == service.productFamily && EnhanceService(tax, service).businessDescription == service.businessDescription)
    ensures GetServiceCategory(tax, service) == "other" ==>
      EnhanceService(tax, service).productFamily == service.productFamily
  {
    AnnotateSpec(tax, service, service);
    ServiceCategorySpec(tax, service);
  }

  // ---------------------------------------------------------------- business intent

  datatype ConstraintKind = Restrictive | Exclusion

  datatype IntentConstraint = IntentConstraint(kind: ConstraintKind, value: string)

  /**
   * What `parseBusinessRequirements` reads from the requirements: the category groups and the
   * products (each a set kept in insertion order), the merged preference properties, the
   * constraints, the user count (`null` is `None`), the budget level and the licensing preference.
   */
  datatype BusinessIntent = BusinessIntent(
    categories: seq<string>,
    products: seq<string>,
    preferences: Tuning,
    constraints: seq<IntentConstraint>,
    userCount: Option<JsNumber>,
    budgetLevel: string,
    licensingPreference: Option<string>)

  /** `set.add(x)` on a set kept as the sequence of its elements in insertion order. */
  function Add(xs: seq<string>, x: string): (r: seq<string>)
    ensures forall y :: y in r <==> y in xs || y == x
    ensures NoDuplicates(xs) ==> NoDuplicates(r)
  {
    if x in xs then xs else xs + [x]
  }

  /** Some group of `tax` with key `c` has a category occurring in the service name `oracleService`. */
  predicate NamesGroup(tax: seq<Group>, oracleService: string, c: string) {
    exists g :: 0 <= g < |tax| && tax[g].key == c && ContainsAny(oracleService, tax[g].categories)
  }

  /** Some product with key `p` has a pattern occurring in `reqText`. */
  predicate NamesProduct(products: seq<Product>, reqText: string, p: string) {
    exists k :: 0 <= k < |products| && products[k].key == p && ContainsAny(reqText, products[k].patterns)
  }

  /** Some product with key `p`, in any group, has a pattern occurring in `reqText`. */
  predicate NamesGroupProduct(tax: seq<Group>, reqText: string, p: string) {
    exists g :: 0 <= g < |tax| && NamesProduct(tax[g].products, reqText, p)
  }

  /** The category test of one translated service name, over the groups in `tax`. */
  function AddCategories(tax: seq<Group>, oracleService: string, acc: seq<string>): seq<string>
    decreases |tax|
  {
    if tax == [] then acc
    else
      var next := if ContainsAny(oracleService, tax[0].categories) then Add(acc, tax[0].key) else acc;
      AddCategories(tax[1..], oracleService, next)
  }

  /** The product test over the products of one group. */
  function AddProducts(products: seq<Product>, reqText: string, acc: seq<string>): seq<string>
    decreases |products|
  {
    if products == [] then acc
    else
      var next := if ContainsAny(reqText, products[0].patterns) then Add(acc, products[0].key) else acc;
      AddProducts(products[1..], reqText, next)
  }

  /** The product test over every group. */
  function AddGroupProducts(tax: seq<Group>, reqText: string, acc: seq<string>): seq<string>
    decreases |tax|
  {
    if tax == [] then acc else AddGroupProducts(tax[1..], reqText, AddProducts(tax[0].products, reqText, acc))
  }

  /** The requirement loop: each term occurring in the text runs the category and product tests. */
  function ScanRequirements(tax: seq<Group>, terms: seq<(string, string)>, reqText: string,
                            cats: seq<string>, prods: seq<string>): (seq<string>, seq<string>)
    decreases |terms|
  {
    if terms == [] then (cats, prods)
    else if Contains(reqText, terms[0].0) then
      ScanRequirements(tax, terms[1..], reqText, AddCategories(tax, terms[0].1, cats), AddGroupProducts(tax, reqText, prods))
    else ScanRequirements(tax, terms[1..], reqText, cats, prods)
  }

  lemma {:induction false} AddCategoriesSpec(tax: seq<Group>, oracleService: string, acc: seq<string>)
    ensures forall c :: c in AddCategories(tax, oracleService, acc) <==> c in acc || NamesGroup(tax, oracleService, c)
    ensures NoDuplicates(acc) ==> NoDuplicates(AddCategories(tax, oracleService, acc))
    decreases |tax|
  {
    if tax != [] {
      var next := if ContainsAny(oracleService, tax[0].categories) then Add(acc, tax[0].key) else acc;
      AddCategoriesSpec(tax[1..], oracleService, next);
      forall c
        ensures NamesGroup(tax, oracleService, c) <==>
          (ContainsAny(oracleService, tax[0].categories) && tax[0].key == c) || NamesGroup(tax[1..], oracleService, c)
      {
        if NamesGroup(tax, oracleService, c) {
          var g :| 0 <= g < |tax| && tax[g].key == c && ContainsAny(oracleService, tax[g].categories);
          if g > 0 {
            assert tax[1..][g - 1] == tax[g];
          }
        }
        if NamesGroup(tax[1..], oracleService, c) {
          var g :| 0 <= g < |tax[1..]| && tax[1..][g].key == c && ContainsAny(oracleService, tax[1..][g].categories);
          assert tax[g + 1] == tax[1..][g];
        }
      }
    }
  }

  lemma {:induction false} AddProductsSpec(products: seq<Product>, reqText: string, acc: seq<string>)
    ensures forall p :: p in AddProducts(products, reqText, acc) <==> p in acc || NamesProduct(products, reqText, p)
    ensures NoDuplicates(acc) ==> NoDuplicates(AddProducts(products, reqText, acc))
    decreases |products|
  {
    if products != [] {
      var next := if ContainsAny(reqText, products[0].patterns) then Add(acc, products[0].key) else acc;
      AddProductsSpec(products[1..], reqText, next);
      forall p
        ensures NamesProduct(products, reqText, p) <==>
          (ContainsAny(reqText, products[0].patterns) && products[0].key == p) || NamesProduct(products[1..], reqText, p)
      {
        if NamesProduct(products, reqText, p) {
          var k :| 0 <= k < |products| && products[k].key == p && ContainsAny(reqText, products[k].patterns);
          if k > 0 {
            assert products[1..][k - 1] == products[k];
          }
        }
        if NamesProduct(products[1..], reqText, p) {
          var k :| 0 <= k < |products[1..]| && products[1..][k].key == p && ContainsAny(reqText, products[1..][k].patterns);
          assert products[k + 1] == products[1..][k];
        }
      }
    }
  }

  lemma {:induction false} AddGroupProductsSpec(tax: seq<Group>, reqText: string, acc: seq<string>)
    ensures forall p :: p in AddGroupProducts(tax, reqText, acc) <==> p in acc || NamesGroupProduct(tax, reqText, p)
    ensures NoDuplicates(acc) ==> NoDuplicates(AddGroupProducts(tax, reqText, acc))
    decreases |tax|
  {
    if tax != [] {
      var next := AddProducts(tax[0].products, reqText, acc);
      AddProductsSpec(tax[0].products, reqText, acc);
      AddGroupProductsSpec(tax[1..], reqText, next);
      forall p
        ensures NamesGroupProduct(tax, reqText, p) <==>
          NamesProduct(tax[0].products, reqText, p) || NamesGroupProduct(tax[1..], reqText, p)
      {
        if NamesGroupProduct(tax, reqText, p) {
          var g :| 0 <= g < |tax| && NamesProduct(tax[g].products, reqText, p);
          if g > 0 {
            assert tax[1..][g - 1] == tax[g];
          }
        }
        if NamesGroupProduct(tax[1..], reqText, p) {
          var g :| 0 <= g < |tax[1..]| && NamesProduct(tax[1..][g].products, reqText, p);
          assert tax[g + 1] == tax[1..][g];
        }
      }
    }
  }

  /** Some requirement term occurs in the text. */
  predicate AnyTermIn(terms: seq<(string, string)>, reqText: string) {
    exists t :: 0 <= t < |terms| && Contains(reqText, terms[t].0)
  }

  /** Some requirement term occurring in the text translates to a name that `c`'s group covers. */
  predicate CategoryRequired(tax: seq<Group>, terms: seq<(string, string)>, reqText: string, c: string) {
    exists t :: 0 <= t < |terms| && Contains(reqText, terms[t].0) && NamesGroup(tax, terms[t].1, c)
  }

  lemma {:induction false} ScanRequirementsSpec(tax: seq<Group>, terms: seq<(string, string)>, reqText: string,
                                                 cats: seq<string>, prods: seq<string>)
    ensures forall c :: c in ScanRequirements(tax, terms, reqText, cats, prods).0 <==> c in cats || CategoryRequired(tax, terms, reqText, c)
    ensures forall p :: p in ScanRequirements(tax, terms, reqText, cats, prods).1 <==> p in prods || (AnyTermIn(terms, reqText) && NamesGroupProduct(tax, reqText, p))
    ensures var r := ScanRequirements(tax, terms, reqText, cats, prods);
      NoDuplicates(cats) && NoDuplicates(prods) ==> NoDuplicates(r.0) && NoDuplicates(r.1)
    decreases |terms|
  {
    if terms != [] {
      var rest := terms[1..];
      forall t | 0 <= t < |rest|
        ensures rest[t] == terms[t + 1]
      {
      }
      if Contains(reqText, terms[0].0) {
        AddCategoriesSpec(tax, terms[0].1, cats);
        AddGroupProductsSpec(tax, reqText, prods);
        ScanRequirementsSpec(tax, rest, reqText, AddCategories(tax, terms[0].1, cats), AddGroupProducts(tax, reqText, prods));
      } else {
        ScanRequirementsSpec(tax, rest, reqText, cats, prods);
      }
      forall c
        ensures CategoryRequired(tax, terms, reqText, c) <==>
          (Contains(reqText, terms[0].0) && NamesGroup(tax, terms[0].1, c)) || CategoryRequired(tax, rest, reqText, c)
      {
        if CategoryRequired(tax, terms, reqText, c) {
          var t :| 0 <= t < |terms| && Contains(reqText, terms[t].0) && NamesGroup(tax, terms[t].1, c);
          if t > 0 {
            assert rest[t - 1] == terms[t];
          }
        }
      }
      if AnyTermIn(terms, reqText) {
        var t :| 0 <= t < |terms| && Contains(reqText, terms[t].0);
        if t > 0 {
          assert rest[t - 1] == terms[t];
        }
      }
    }
  }

  /** `Object.assign(preferences, value)`: every property the value has overrides. */
  function Assign(a: Tuning, b: Tuning): (r: Tuning)
    ensures b.tier.Some? ==> r.tier == b.tier
    ensures b.tier.None? ==> r.tier == a.tier
    ensures b.optimize.Some? ==> r.optimize == b.optimize
    ensures b.optimize.None? ==> r.optimize == a.optimize
    ensures b.licensing.Some? ==> r.licensing == b.licensing
    ensures b.licensing.None? ==> r.licensing == a.licensing
  {
    Tuning(if b.tier.Some? then b.tier else a.tier,
      if b.optimize.Some? then b.optimize else a.optimize,
      if b.licensing.Some? then b.licensing else a.licensing)
  }

  /** The preference part of the intent while the preference loop runs. */
  datatype PreferenceState = PreferenceState(preferences: Tuning, budgetLevel: string, licensingPreference: Option<string>)

  const InitialPreferences := PreferenceState(NoTuning, "standard", None)

  /** One preference phrase found in the text: merge its properties; a tier sets the budget level, a licensing model the licensing preference. */
  function ApplyPreference(st: PreferenceState, v: Tuning): PreferenceState {
    PreferenceState(Assign(st.preferences, v),
      if Truthy(v.tier) then v.tier.value else st.budgetLevel,
      if Truthy(v.licensing) then v.licensing else st.licensingPreference)
  }

  /** The preference loop over the phrases in `prefs`. */
  function ScanPreferences(prefs: seq<(string, Tuning)>, reqText: string, st: PreferenceState): PreferenceState
    decreases |prefs|
  {
    if prefs == [] then st
    else ScanPreferences(prefs[1..], reqText, if Contains(reqText, prefs[0].0) then ApplyPreference(st, prefs[0].1) else st)
  }

  /** Every tier and licensing value the table sets is non-empty. */
  predicate TruthyTuning(prefs: seq<(string, Tuning)>) {
    forall k :: 0 <= k < |prefs| ==>
      (prefs[k].1.tier.None? || Truthy(prefs[k].1.tier)) && (prefs[k].1.licensing.None? || Truthy(prefs[k].1.licensing))
  }

  /** Some phrase of the table that occurs in the text sets tier `b`. */
  predicate TierPhraseIn(prefs: seq<(string, Tuning)>, reqText: string, b: string) {
    exists k :: 0 <= k < |prefs| && Contains(reqText, prefs[k].0) && prefs[k].1.tier == Some(b)
  }

  /** Some phrase of the table that occurs in the text sets licensing model `l`. */
  predicate LicensingPhraseIn(prefs: seq<(string, Tuning)>, reqText: string, l: string) {
    exists k :: 0 <= k < |prefs| && Contains(reqText, prefs[k].0) && prefs[k].1.licensing == Some(l)
  }

  /**
   * The budget level stays where it was unless a phrase in the text sets a tier, and then it is
   * a tier such a phrase sets; the merged tier, when there is one, is the budget level; the same
   * holds for the licensing preference.
   */
  lemma {:induction false} ScanPreferencesSpec(prefs: seq<(string, Tuning)>, reqText: string, st: PreferenceState)
    requires TruthyTuning(prefs)
    requires st.preferences.tier.Some? ==> st.preferences.tier == Some(st.budgetLevel)
    requires st.preferences.licensing == st.licensingPreference
    ensures var r := ScanPreferences(prefs, reqText, st);
      r.budgetLevel == st.budgetLevel || TierPhraseIn(prefs, reqText, r.budgetLevel)
    ensures var r := ScanPreferences(prefs, reqText, st);
      r.licensingPreference == st.licensingPreference
      || (r.licensingPreference.Some? && LicensingPhraseIn(prefs, reqText, r.licensingPreference.value))
    ensures var r := ScanPreferences(prefs, reqText, st);
      r.preferences.tier.Some? ==> r.preferences.tier == Some(r.budgetLevel)
    ensures var r := ScanPreferences(prefs, reqText, st);
      r.preferences.licensing == r.licensingPreference
    decreases |prefs|
  {
    if prefs != [] {
      var rest := prefs[1..];
      var next := if Contains(reqText, prefs[0].0) then ApplyPreference(st, prefs[0].1) else st;
      assert TruthyTuning(rest) by {
        forall k | 0 <= k < |rest|
          ensures rest[k] == prefs[k + 1]
        {
        }
      }
      ScanPreferencesSpec(rest, reqText, next);
      var r := ScanPreferences(rest, reqText, next);
      if TierPhraseIn(rest, reqText, r.budgetLevel) {
        var k :| 0 <= k < |rest| && Contains(reqText, rest[k].0) && rest[k].1.tier == Some(r.budgetLevel);
        assert prefs[k + 1] == rest[k];
      }
      if r.licensingPreference.Some? && LicensingPhraseIn(rest, reqText, r.licensingPreference.value) {
        var k :| 0 <= k < |rest| && Contains(reqText, rest[k].0) && rest[k].1.licensing == r.licensingPreference;
        assert prefs[k + 1] == rest[k];
      }
    }
  }

  /** The literal backslash, run of one or more `s` and clause that `word\\s+([^.,!?;]+)` matches after `word` at `i`: the capture. */
  function EscapedClauseAt(text: string, i: nat, word: string): (r: Option<Span>)
    ensures r.Some? ==> IsClause(text, r.value, Delims)
    ensures r.Some? ==> StartsAt(text, i, word) && i + |word| < |text| && text[i + |word|] == '\\'
  {
    var j := i + |word|;
    if StartsAt(text, i, word) && j < |text| && text[j] == '\\' then
      var m := CharRun(text, j + 1, 's');
      var start := Backoff(text, j + 2, j + 1 + m, Delims);
      if m >= 1 && start.Some? then Some(ClauseSpan(text, start.value, Delims)) else None
    else None
  }

  /** The alternatives of `(?:w1|w2|…)` tried in order at `i`. */
  function EscapedClauseAtAny(text: string, i: nat, words: seq<string>): (r: Option<Span>)
    ensures r.Some? ==> IsClause(text, r.value, Delims)
    ensures r.Some? ==> exists k :: i <= k < |text| && text[k] == '\\'
  {
    if words == [] then None
    else
      var r := EscapedClauseAt(text, i, words[0]);
      if r.Some? then r else EscapedClauseAtAny(text, i, words[1..])
  }

  /** The capture of the first (leftmost) match of `(?:w1|w2|…)\\s+([^.,!?;]+)` at or after `from`. */
  function FirstEscapedClause(text: string, words: seq<string>, from: nat): (r: Option<Span>)
    ensures r.Some? ==> IsClause(text, r.value, Delims)
    decreases |text| - from
  {
    if from >= |text| then None
    else
      var r := EscapedClauseAtAny(text, from, words);
      if r.Some? then r else FirstEscapedClause(text, words, from + 1)
  }

  /** A text without a backslash never matches the doubled-backslash constraint patterns. */
  lemma {:induction false} NoBackslashNoClause(text: string, words: seq<string>, from: nat)
    requires '\\' !in text
    ensures FirstEscapedClause(text, words, from).None?
    decreases |text| - from
  {
    if from < |text| {
      NoBackslashNoClause(text, words, from + 1);
    }
  }

  /** The trimmed capture of a constraint match. */
  function ClauseValue(text: string, c: Span): string
    requires IsClause(text, c, Delims)
  {
    Trim(text[c.lo..c.hi])
  }

  /** The restrictive (`only …`) and then the exclusion (`no …`, `exclude …`) constraint, each from its first match. */
  function IntentConstraints(reqText: string): seq<IntentConstraint> {
    var only := if Contains(reqText, "only") then FirstEscapedClause(reqText, ["only"], 0) else None;
    var no := if Contains(reqText, "no ") || Contains(reqText, "exclude") then FirstEscapedClause(reqText, ["no", "exclude"], 0) else None;
    (if only.Some? then [IntentConstraint(Restrictive, ClauseValue(reqText, only.value))] else [])
    + (if no.Some? then [IntentConstraint(Exclusion, ClauseValue(reqText, no.value))] else [])
  }

  /** At most one constraint of each kind, the restrictive one first, and no value holds a delimiter. */
  lemma IntentConstraintsSpec(reqText: string)
    ensures var cs := IntentConstraints(reqText);
      |cs| <= 2 && (|cs| == 2 ==> cs[0].kind == Restrictive && cs[1].kind == Exclusion)
    ensures forall k, j :: 0 <= k < |IntentConstraints(reqText)| && 0 <= j < |IntentConstraints(reqText)[k].value| ==> IntentConstraints(reqText)[k].value[j] !in Delims
  {
    var only := if Contains(reqText, "only") then FirstEscapedClause(reqText, ["only"], 0) else None;
    var no := if Contains(reqText, "no ") || Contains(reqText, "exclude") then FirstEscapedClause(reqText, ["no", "exclude"], 0) else None;
    if only.Some? {
      ClauseTrimKeeps(reqText, only.value);
    }
    if no.Some? {
      ClauseTrimKeeps(reqText, no.value);
    }
  }

  lemma ClauseTrimKeeps(text: string, c: Span)
    requires IsClause(text, c, Delims)
    ensures forall j :: 0 <= j < |ClauseValue(text, c)| ==> ClauseValue(text, c)[j] !in Delims
  {
    var w := text[c.lo..c.hi];
    TrimSpec(w);
    var a :| TrimmedAt(w, a, Trim(w));
    forall j | 0 <= j < |Trim(w)|
      ensures Trim(w)[j] !in Delims
    {
      assert Trim(w)[j] == w[a + j] == text[c.lo + a + j];
    }
  }

  /** A text without a backslash yields neither constraints nor a user count. */
  lemma NoBackslashNoConstraints(reqText: string)
    requires '\\' !in reqText
    ensures IntentConstraints(reqText) == []
    ensures !UserCountMatch(reqText)
  {
    NoBackslashNoClause(reqText, ["only"], 0);
    NoBackslashNoClause(reqText, ["no", "exclude"], 0);
    NoBackslashNoUserCount(reqText);
  }

  /** `parseBusinessRequirements` on the lowercased serialized requirements. */
  function Intent(tax: seq<Group>, terms: seq<(string, string)>, prefs: seq<(string, Tuning)>, reqText: string): BusinessIntent {
    var found := ScanRequirements(tax, terms, reqText, [], []);
    var st := ScanPreferences(prefs, reqText, InitialPreferences);
    BusinessIntent(found.0, found.1, st.preferences, IntentConstraints(reqText),
      if UserCountMatch(reqText) then Some(NaN) else None, st.budgetLevel, st.licensingPreference)
  }

  /**
   * The intent's categories are the groups covering the translation of some term in the text,
   * its products those named anywhere in the text once some term occurs, both without repeats;
   * the budget level is `standard` unless a tier phrase occurs, and the merged tier agrees with it.
   */
  lemma IntentSpec(tax: seq<Group>, terms: seq<(string, string)>, prefs: seq<(string, Tuning)>, reqText: string)
    requires TruthyTuning(prefs)
    ensures var r := Intent(tax, terms, prefs, reqText);
      NoDuplicates(r.categories) && NoDuplicates(r.products)
    ensures forall c :: c in Intent(tax, terms, prefs, reqText).categories <==> CategoryRequired(tax, terms, reqText, c)
    ensures forall p :: p in Intent(tax, terms, prefs, reqText).products <==> AnyTermIn(terms, reqText) && NamesGroupProduct(tax, reqText, p)
    ensures var r := Intent(tax, terms, prefs, reqText);
      r.budgetLevel == "standard" || TierPhraseIn(prefs, reqText, r.budgetLevel)
    ensures var r := Intent(tax, terms, prefs, reqText);
      r.preferences.tier.Some? ==> r.preferences.tier == Some(r.budgetLevel)
    ensures var r := Intent(tax, terms, prefs, reqText);
      r.licensingPreference.None? || LicensingPhraseIn(prefs, reqText, r.licensingPreference.value)
  {
    ScanRequirementsSpec(tax, terms, reqText, [], []);
    ScanPreferencesSpec(prefs, reqText, InitialPreferences);
  }

  /** "Load Balancer", the translation of `load balancer`, names no category group: the phrase alone requires no category. */
  lemma LoadBalancerNamesNoGroup()
    ensures AddCategories(Taxonomy, "Load Balancer", []) == []
  {
    var keys, cats := TaxonomyShape();
    LoadBalancerLacksCategories(cats);
    NoGroupNamed(Taxonomy, "Load Balancer", []);
  }

  /** "Load Balancer" contains none of the category names. */
  lemma LoadBalancerLacksCategories(cats: seq<seq<string>>)
    requires cats == [["Database"], ["Compute"], ["Storage"], ["Networking", "Network"]]
    ensures forall g :: 0 <= g < |cats| ==> !ContainsAny("Load Balancer", cats[g])
  {
    var name := "Load Balancer";
    assert !Contains(name, "Database") by { LacksChar(name, "Database", 'D'); }
    assert !Contains(name, "Compute") by { LacksChar(name, "Compute", 'C'); }
    assert !Contains(name, "Storage") by { LacksChar(name, "Storage", 'S'); }
    assert !Contains(name, "Networking") by { LacksChar(name, "Networking", 'N'); }
    assert !Contains(name, "Network") by { LacksChar(name, "Network", 'N'); }
  }

  /** A name that contains no group's category names adds no category. */
  lemma {:induction false} NoGroupNamed(tax: seq<Group>, oracleService: string, acc: seq<string>)
    requires forall g :: 0 <= g < |tax| ==> !ContainsAny(oracleService, tax[g].categories)
    ensures AddCategories(tax, oracleService, acc) == acc
    decreases |tax|
  {
    if tax != [] {
      assert forall g :: 0 <= g < |tax[1..]| ==> tax[1..][g] == tax[g + 1];
      NoGroupNamed(tax[1..], oracleService, acc);
    }
  }

  /** The keys and category names of the four groups, in order. */
  lemma TaxonomyShape() returns (keys: seq<string>, cats: seq<seq<string>>)
    ensures keys == ["database", "compute", "storage", "networking"]
    ensures cats == [["Database"], ["Compute"], ["Storage"], ["Networking", "Network"]]
    ensures |Taxonomy| == |keys| == |cats|
    ensures forall g :: 0 <= g < |cats| ==> Taxonomy[g].key == keys[g] && Taxonomy[g].categories == cats[g]
  {
    keys := ["database", "compute", "storage", "networking"];
    cats := [["Database"], ["Compute"], ["Storage"], ["Networking", "Network"]];
  }

  // ---------------------------------------------------------------- business match score

  /** `this.oracleServiceTaxonomy[key]`. */
  function GroupByKey(tax: seq<Group>, key: string): (r: Option<nat>)
    ensures r.Some? ==> r.value < |tax| && tax[r.value].key == key
    ensures r.None? ==> forall g :: 0 <= g < |tax| ==> tax[g].key != key
  {
    if tax == [] then None
    else if tax[0].key == key then Some(0)
    else
      var r := GroupByKey(tax[1..], key);
      if r.Some? then Some(r.value + 1) else None
  }

  /** The group named `key` covers the service's category. */
  predicate CategoryHit(tax: seq<Group>, key: string, service: Service) {
    var g := GroupByKey(tax, key);
    g.Some? && Covers(tax[g.value], service.serviceCategory)
  }

  /** How many of the intent's categories cover the service (each is worth 0.5). */
  function CategoryHits(tax: seq<Group>, cats: seq<string>, service: Service): nat {
    if cats == [] then 0
    else CategoryHits(tax, cats[..|cats| - 1], service) + (if CategoryHit(tax, cats[|cats| - 1], service) then 1 else 0)
  }

  /** How many of the intent's products are the service's product family (each is worth 0.8). */
  function ProductHits(products: seq<string>, family: Option<string>): nat {
    if products == [] then 0
    else ProductHits(products[..|products| - 1], family) + (if family == Some(products[|products| - 1]) then 1 else 0)
  }

  /**
   * The service fails a constraint: a restrictive value must occur in its lowercased display name
   * (a service without one fails), an excluded value must not.
   */
  predicate Fails(service: Service, c: IntentConstraint) {
    var named := service.displayName.Some? && Contains(ToLower(service.displayName.value), c.value);
    match c.kind
    case Restrictive => !named
    case Exclusion => named
  }

  predicate AnyFailure(service: Service, cs: seq<IntentConstraint>) {
    exists k :: 0 <= k < |cs| && Fails(service, cs[k])
  }

  function TierBonus(service: Service, intent: BusinessIntent): real {
    if Truthy(intent.preferences.tier) && service.tier == intent.preferences.tier then 0.3 else 0.0
  }

  function LicensingBonus(service: Service, intent: BusinessIntent): real {
    if Truthy(intent.licensingPreference) && service.licensingModel == intent.licensingPreference then 0.4 else 0.0
  }

  /** The score before constraints and the budget adjustment. */
  function BaseScore(tax: seq<Group>, service: Service, intent: BusinessIntent): real {
    0.5 * CategoryHits(tax, intent.categories, service) as real
    + 0.8 * ProductHits(intent.products, service.productFamily) as real
    + TierBonus(service, intent) + LicensingBonus(service, intent)
  }

  /** An enterprise-tier service under the `standard` budget level keeps 70% of its score. */
  predicate Discounted(service: Service, intent: BusinessIntent) {
    intent.budgetLevel == "standard" && service.tier == Some("enterprise")
  }

  /** `calculateBusinessMatch(service, intent).score`. */
  function MatchScore(tax: seq<Group>, service: Service, intent: BusinessIntent): real {
    var s := if AnyFailure(service, intent.constraints) then 0.0 else BaseScore(tax, service, intent);
    if Discounted(service, intent) then s * 0.7 else s
  }

  lemma {:induction false} NoCategoryHits(tax: seq<Group>, cats: seq<string>, service: Service)
    requires forall k :: 0 <= k < |cats| ==> !CategoryHit(tax, cats[k], service)
    ensures CategoryHits(tax, cats, service) == 0
  {
    if cats != [] {
      NoCategoryHits(tax, cats[..|cats| - 1], service);
    }
  }

  /** With distinct category keys and disjoint groups, at most one of the intent's categories covers a service. */
  lemma {:induction false} CategoryHitsAtMostOne(tax: seq<Group>, cats: seq<string>, service: Service)
    requires ValidTaxonomy(tax) && NoDuplicates(cats)
    ensures CategoryHits(tax, cats, service) <= 1
  {
    if cats != [] {
      var n := |cats| - 1;
      var front := cats[..n];
      if CategoryHit(tax, cats[n], service) {
        forall k | 0 <= k < |front|
          ensures !CategoryHit(tax, front[k], service)
        {
          var a := GroupByKey(tax, front[k]);
          var b := GroupByKey(tax, cats[n]);
          assert front[k] == cats[k] != cats[n];
          if a.Some? {
            var c := service.serviceCategory.value;
            assert c in tax[b.value].categories;
            assert a.value != b.value;
            if a.value < b.value {
              assert c !in tax[a.value].categories;
            } else {
              assert c !in tax[a.value].categories;
            }
          }
        }
        NoCategoryHits(tax, front, service);
      } else {
        CategoryHitsAtMostOne(tax, front, service);
      }
    }
  }

  lemma {:induction false} NoProductHits(products: seq<string>, family: Option<string>)
    requires forall k :: 0 <= k < |products| ==> family != Some(products[k])
    ensures ProductHits(products, family) == 0
  {
    if products != [] {
      NoProductHits(products[..|products| - 1], family);
    }
  }

  /** With distinct products, at most one is the service's product family. */
  lemma {:induction false} ProductHitsAtMostOne(products: seq<string>, family: Option<string>)
    requires NoDuplicates(products)
    ensures ProductHits(products, family) <= 1
  {
    if products != [] {
      var n := |products| - 1;
      var front := products[..n];
      if family == Some(products[n]) {
        forall k | 0 <= k < |front|
          ensures family != Some(front[k])
        {
          assert front[k] == products[k];
        }
        NoProductHits(front, family);
      } else {
        ProductHitsAtMostOne(front, family);
      }
    }
  }

  /**
   * A score lies between 0 and 2.0 (0.5 for the category, 0.8 for the product, 0.3 for the tier,
   * 0.4 for the licensing model) when the categories and products are distinct, as the parsed
   * intent's are; an enterprise-tier service under the `standard` budget scores at most 1.4.
   */
  lemma MatchScoreBounds(tax: seq<Group>, service: Service, intent: BusinessIntent)
    requires ValidTaxonomy(tax) && NoDuplicates(intent.categories) && NoDuplicates(intent.products)
    ensures 0.0 <= MatchScore(tax, service, intent) <= 2.0
    ensures Discounted(service, intent) ==> MatchScore(tax, service, intent) <= 1.4
  {
    CategoryHitsAtMostOne(tax, intent.categories, service);
    ProductHitsAtMostOne(intent.products, service.productFamily);
  }

  /** A service scores above zero exactly when it fails no constraint and earns some bonus. */
  lemma MatchScorePositive(tax: seq<Group>, service: Service, intent: BusinessIntent)
    ensures MatchScore(tax, service, intent) > 0.0 <==>
      !AnyFailure(service, intent.constraints)
      && (CategoryHits(tax, intent.categories, service) > 0 || ProductHits(intent.products, service.productFamily) > 0
          || TierBonus(service, intent) > 0.0 || LicensingBonus(service, intent) > 0.0)
    ensures AnyFailure(service, intent.constraints) ==> MatchScore(tax, service, intent) == 0.0
  {
  }

  // ---------------------------------------------------------------- matching and ranking

  /** A service with its match score (`finalScore`). */
  datatype Scored = Scored(service: Service, finalScore: real)

  /** `matchServicesWithBusinessIntent`: the services scoring above zero, in order, with their scores. */
  function Matched(tax: seq<Group>, services: seq<Service>, intent: BusinessIntent): seq<Scored> {
    if services == [] then []
    else
      var last := services[|services| - 1];
      var front := Matched(tax, services[..|services| - 1], intent);
      var score := MatchScore(tax, last, intent);
      if score > 0.0 then front + [Scored(last, score)] else front
  }

  /** Every match scores above zero with its own score, and every service scoring above zero is matched. */
  lemma {:induction false} MatchedSpec(tax: seq<Group>, services: seq<Service>, intent: BusinessIntent)
    ensures var r := Matched(tax, services, intent);
      |r| <= |services|
      && forall i :: 0 <= i < |r| ==>
        r[i].finalScore > 0.0 && r[i].finalScore == MatchScore(tax, r[i].service, intent) && r[i].service in services
    ensures forall j :: 0 <= j < |services| && MatchScore(tax, services[j], intent) > 0.0 ==>
        Scored(services[j], MatchScore(tax, services[j], intent)) in Matched(tax, services, intent)
  {
    if services != [] {
      var n := |services| - 1;
      MatchedSpec(tax, services[..n], intent);
      forall j | 0 <= j < n
        ensures services[..n][j] == services[j]
      {
      }
    }
  }

  function FinalScore(x: Scored): real { x.finalScore }

  /** `services.sort((a, b) => b.finalScore - a.finalScore)`. */
  function SortByScore(xs: seq<Scored>): seq<Scored> {
    SortDesc(xs, FinalScore)
  }

  /** A first-pass candidate: scoring above 0.3 in a category the intent requires. */
  predicate Eligible(tax: seq<Group>, x: Scored, cats: seq<string>) {
    x.finalScore > 0.3 && GetServiceCategory(tax, x.service) in cats
  }

  /** `xs[j]` is a candidate and no earlier candidate in `xs` has its category. */
  predicate FirstOfCategory(tax: seq<Group>, xs: seq<Scored>, cats: seq<string>, j: int) {
    0 <= j < |xs| && Eligible(tax, xs[j], cats)
    && forall l :: 0 <= l < j && Eligible(tax, xs[l], cats) ==>
      GetServiceCategory(tax, xs[l].service) != GetServiceCategory(tax, xs[j].service)
  }

  /** The first pass of `rankServicesByBusinessValue`: the best candidate of each required category not yet covered. */
  function FirstPicks(tax: seq<Group>, xs: seq<Scored>, cats: seq<string>, covered: set<string>): seq<Scored>
    decreases |xs|
  {
    if xs == [] then []
    else
      var c := GetServiceCategory(tax, xs[0].service);
      if Eligible(tax, xs[0], cats) && c !in covered then [xs[0]] + FirstPicks(tax, xs[1..], cats, covered + {c})
      else FirstPicks(tax, xs[1..], cats, covered)
  }

  /**
   * Every pick is a candidate of an uncovered category taken from `xs`, and no two picks share a
   * category.
   */
  lemma {:induction false} FirstPicksSpec(tax: seq<Group>, xs: seq<Scored>, cats: seq<string>, covered: set<string>)
    ensures forall i :: 0 <= i < |FirstPicks(tax, xs, cats, covered)| ==>
        Eligible(tax, FirstPicks(tax, xs, cats, covered)[i], cats) && GetServiceCategory(tax, FirstPicks(tax, xs, cats, covered)[i].service) !in covered && FirstPicks(tax, xs, cats, covered)[i] in xs
    ensures forall i, j :: 0 <= i < j < |FirstPicks(tax, xs, cats, covered)| ==> GetServiceCategory(tax, FirstPicks(tax, xs, cats, covered)[i].service) != GetServiceCategory(tax, FirstPicks(tax, xs, cats, covered)[j].service)
    decreases |xs|
  {
    if xs != [] {
      var c := GetServiceCategory(tax, xs[0].service);
      var rest := xs[1..];
      if Eligible(tax, xs[0], cats) && c !in covered {
        FirstPicksSpec(tax, rest, cats, covered + {c});
        var tail := FirstPicks(tax, rest, cats, covered + {c});
        assert forall i :: 0 <= i < |tail| ==> Eligible(tax, tail[i], cats);
        var r := [xs[0]] + tail;
        forall j | 1 <= j < |r|
          ensures r[j] == tail[j - 1] && GetServiceCategory(tax, r[j].service) != c
        {
          assert 0 <= j - 1 < |tail|;
          assert Eligible(tax, tail[j - 1], cats);
          assert GetServiceCategory(tax, tail[j - 1].service) !in covered + {c};
        }
      } else {
        FirstPicksSpec(tax, rest, cats, covered);
      }
    }
  }

  /** The first candidate of each uncovered category is picked. */
  lemma {:induction false} FirstPicksComplete(tax: seq<Group>, xs: seq<Scored>, cats: seq<string>, covered: set<string>, j: nat)
    requires FirstOfCategory(tax, xs, cats, j) && GetServiceCategory(tax, xs[j].service) !in covered
    ensures xs[j] in FirstPicks(tax, xs, cats, covered)
    decreases |xs|
  {
    var c := GetServiceCategory(tax, xs[0].service);
    var rest := xs[1..];
    var picked := Eligible(tax, xs[0], cats) && c !in covered;
    if j > 0 {
      forall l | 0 <= l < j - 1 && Eligible(tax, rest[l], cats)
        ensures GetServiceCategory(tax, rest[l].service) != GetServiceCategory(tax, rest[j - 1].service)
      {
        assert rest[l] == xs[l + 1] && rest[j - 1] == xs[j];
      }
      assert rest[j - 1] == xs[j];
      assert FirstOfCategory(tax, rest, cats, j - 1);
      if picked {
        assert GetServiceCategory(tax, xs[j].service) != c;
        FirstPicksComplete(tax, rest, cats, covered + {c}, j - 1);
        assert FirstPicks(tax, xs, cats, covered) == [xs[0]] + FirstPicks(tax, rest, cats, covered + {c});
      } else {
        FirstPicksComplete(tax, rest, cats, covered, j - 1);
        assert FirstPicks(tax, xs, cats, covered) == FirstPicks(tax, rest, cats, covered);
      }
    }
  }

  /** Some element of `top` has the part number of `x` (`topServices.find(s => s.partNumber === x.partNumber)`). */
  predicate SharesPartNumber(top: seq<Scored>, x: Scored) {
    exists i :: 0 <= i < |top| && top[i].service.partNumber == x.service.partNumber
  }

  /** The second pass: services scoring above 0.2 with a new part number, while fewer than 15 are listed. */
  function Extras(xs: seq<Scored>, top: seq<Scored>): seq<Scored>
    decreases |xs|
  {
    if xs == [] then top
    else if xs[0].finalScore > 0.2 && |top| < 15 && !SharesPartNumber(top, xs[0]) then Extras(xs[1..], top + [xs[0]])
    else Extras(xs[1..], top)
  }

  /**
   * The second pass only appends, stops growing the list at 15, and appends services from `xs`
   * scoring above 0.2 whose part number no earlier entry has.
   */
  lemma {:induction false} ExtrasSpec(xs: seq<Scored>, top: seq<Scored>)
    ensures var r := Extras(xs, top);
      |top| <= |r| && r[..|top|] == top && (|r| <= 15 || |r| == |top|)
    ensures forall i :: |top| <= i < |Extras(xs, top)| ==>
        Extras(xs, top)[i].finalScore > 0.2 && Extras(xs, top)[i] in xs && !SharesPartNumber(Extras(xs, top)[..i], Extras(xs, top)[i])
    decreases |xs|
  {
    if xs != [] {
      var rest := xs[1..];
      if xs[0].finalScore > 0.2 && |top| < 15 && !SharesPartNumber(top, xs[0]) {
        var next := top + [xs[0]];
        ExtrasSpec(rest, next);
        var r := Extras(rest, next);
        assert r[..|next|][..|top|] == r[..|top|];
        assert r[|top|] == r[..|next|][|top|] == xs[0];
        assert r[..|top|] == top;
      } else {
        ExtrasSpec(rest, top);
      }
      forall e | e in rest
        ensures e in xs
      {
      }
    }
  }

  /** `rankServicesByBusinessValue`: sort, then the first pass, then the second. */
  function Ranked(tax: seq<Group>, xs: seq<Scored>, intent: BusinessIntent): seq<Scored> {
    var sorted := SortByScore(xs);
    Extras(sorted, FirstPicks(tax, sorted, intent.categories, {}))
  }

  /** A sequence of distinct elements drawn from `cats` is no longer than `cats`. */
  lemma {:induction false} DistinctWithin(ys: seq<string>, cats: seq<string>)
    requires NoDuplicates(ys)
    requires forall i :: 0 <= i < |ys| ==> ys[i] in cats
    ensures |ys| <= |cats|
  {
    DistinctCard(ys);
    SeqSetCard(cats);
    var a := set y | y in ys;
    var b := set c | c in cats;
    assert a <= b;
    assert b == a + (b - a);
  }

  lemma {:induction false} DistinctCard(ys: seq<string>)
    requires NoDuplicates(ys)
    ensures |set y | y in ys| == |ys|
  {
    if ys != [] {
      var rest := ys[1..];
      assert NoDuplicates(rest) by {
        forall i, j | 0 <= i < j < |rest|
          ensures rest[i] != rest[j]
        {
          assert rest[i] == ys[i + 1] && rest[j] == ys[j + 1];
        }
      }
      DistinctCard(rest);
      assert (set y | y in ys) == {ys[0]} + (set y | y in rest);
      assert ys[0] !in rest by {
        forall i | 0 <= i < |rest|
          ensures rest[i] != ys[0]
        {
          assert rest[i] == ys[i + 1];
        }
      }
    }
  }

  lemma {:induction false} SeqSetCard(cats: seq<string>)
    ensures |set c | c in cats| <= |cats|
  {
    if cats != [] {
      SeqSetCard(cats[1..]);
      assert (set c | c in cats) == {cats[0]} + (set c | c in cats[1..]);
    }
  }

  /**
   * The ranked list holds services of the input scoring above 0.2, and at most 15 of them when
   * the intent requires at most 15 categories.
   */
  lemma RankedSpec(tax: seq<Group>, xs: seq<Scored>, intent: BusinessIntent)
    ensures forall i :: 0 <= i < |Ranked(tax, xs, intent)| ==> Ranked(tax, xs, intent)[i] in xs && Ranked(tax, xs, intent)[i].finalScore > 0.2
    ensures |intent.categories| <= 15 ==> |Ranked(tax, xs, intent)| <= 15
  {
    var sorted := SortByScore(xs);
    SortDescSpec(xs, FinalScore);
    var picks := FirstPicks(tax, sorted, intent.categories, {});
    FirstPicksSpec(tax, sorted, intent.categories, {});
    ExtrasSpec(sorted, picks);
    var r := Extras(sorted, picks);
    forall e | e in sorted
      ensures e in xs
    {
      assert e in multiset(sorted);
    }
    forall i | 0 <= i < |r|
      ensures r[i] in xs && r[i].finalScore > 0.2
    {
      if i < |picks| {
        assert r[i] == r[..|picks|][i] == picks[i];
        assert picks[i] in sorted;
      } else {
        assert r[i] in sorted;
      }
    }
    var pc := seq(|picks|, i requires 0 <= i < |picks| => GetServiceCategory(tax, picks[i].service));
    DistinctWithin(pc, intent.categories);
  }

  /** Each required category's best candidate, after sorting by score, is ranked. */
  lemma RankedKeepsBest(tax: seq<Group>, xs: seq<Scored>, intent: BusinessIntent, j: nat)
    requires FirstOfCategory(tax, SortByScore(xs), intent.categories, j)
    ensures SortByScore(xs)[j] in Ranked(tax, xs, intent)
  {
    var sorted := SortByScore(xs);
    var picks := FirstPicks(tax, sorted, intent.categories, {});
    FirstPicksComplete(tax, sorted, intent.categories, {}, j);
    ExtrasSpec(sorted, picks);
    var r := Extras(sorted, picks);
    var i :| 0 <= i < |picks| && picks[i] == sorted[j];
    assert r[..|picks|][i] == sorted[j];
  }

  // ---------------------------------------------------------------- coverage and fallback

  /** `comprehensiveOracleServices.filter(s => getServiceCategory(s) === category)`. */
  function InCategory(tax: seq<Group>, catalogue: seq<Service>, category: string): (r: seq<Service>)
    ensures forall s :: s in r <==> s in catalogue && GetServiceCategory(tax, s) == category
  {
    if catalogue == [] then []
    else
      var head := if GetServiceCategory(tax, catalogue[0]) == category then [catalogue[0]] else [];
      head + InCategory(tax, catalogue[1..], category)
  }

  /** `list.find(s => s.tier === tier)`. */
  function FindTier(xs: seq<Service>, tier: string): (r: Option<Service>)
    ensures r.Some? ==> r.value in xs && r.value.tier == Some(tier)
    ensures r.None? ==> forall s :: s in xs ==> s.tier != Some(tier)
  {
    if xs == [] then None else if xs[0].tier == Some(tier) then Some(xs[0]) else FindTier(xs[1..], tier)
  }

  /** `list.find(s => s.licensingModel === licensing)`. */
  function FindLicensing(xs: seq<Service>, licensing: Option<string>): (r: Option<Service>)
    ensures r.Some? ==> r.value in xs && r.value.licensingModel == licensing
    ensures r.None? ==> forall s :: s in xs ==> s.licensingModel != licensing
  {
    if xs == [] then None else if xs[0].licensingModel == licensing then Some(xs[0]) else FindLicensing(xs[1..], licensing)
  }

  /**
   * `getFallbackServiceForCategory`: a catalogue service of the category, preferring the tier
   * the budget level names and then the licensing preference, scored 0.5; none for a category
   * the catalogue lacks.
   */
  function Fallback(tax: seq<Group>, catalogue: seq<Service>, category: string, intent: BusinessIntent): Option<Scored> {
    var cs := InCategory(tax, catalogue, category);
    if cs == [] then None
    else
      var byTier :=
        if intent.budgetLevel == "standard" then FindTier(cs, "standard")
        else if intent.budgetLevel == "enterprise" then FindTier(cs, "enterprise")
        else None;
      var preferred := if byTier.Some? then byTier.value else cs[0];
      var byLicensing := if Truthy(intent.licensingPreference) then FindLicensing(cs, intent.licensingPreference) else None;
      Some(Scored(if byLicensing.Some? then byLicensing.value else preferred, 0.5))
  }

  /**
   * There is a fallback exactly when the catalogue has a service of the category; it is such a
   * service, scored 0.5, with the preferred licensing model when one of them has it, and
   * otherwise with the budget level's tier when one of them has it.
   */
  lemma FallbackSpec(tax: seq<Group>, catalogue: seq<Service>, category: string, intent: BusinessIntent)
    ensures var r := Fallback(tax, catalogue, category, intent);
      r.Some? <==> exists s :: s in catalogue && GetServiceCategory(tax, s) == category
    ensures var r := Fallback(tax, catalogue, category, intent);
      var cs := InCategory(tax, catalogue, category);
      r.Some? && Truthy(intent.licensingPreference) && (exists s :: s in cs && s.licensingModel == intent.licensingPreference) ==>
        r.value.service.licensingModel == intent.licensingPreference
    ensures var r := Fallback(tax, catalogue, category, intent);
      var cs := InCategory(tax, catalogue, category);
      r.Some? && (intent.budgetLevel == "standard" || intent.budgetLevel == "enterprise")
        && (!Truthy(intent.licensingPreference) || forall s :: s in cs ==> s.licensingModel != intent.licensingPreference)
        && (exists s :: s in cs && s.tier == Some(intent.budgetLevel)) ==>
        r.value.service.tier == Some(intent.budgetLevel)
  {
    var cs := InCategory(tax, catalogue, category);
    if cs != [] {
      assert cs[0] in cs;
    }
  }

  /** A fallback is a catalogue service of the requested category, scored 0.5. */
  lemma FallbackShape(tax: seq<Group>, catalogue: seq<Service>, category: string, intent: BusinessIntent)
    ensures var r := Fallback(tax, catalogue, category, intent);
      r.Some? ==> (r.value.finalScore == 0.5 && r.value.service in catalogue
        && GetServiceCategory(tax, r.value.service) == category)
  {
  }

  /** The categories of a list of services. */
  function PresentCategories(tax: seq<Group>, services: seq<Scored>): set<string> {
    if services == [] then {}
    else PresentCategories(tax, services[..|services| - 1]) + {GetServiceCategory(tax, services[|services| - 1].service)}
  }

  /** A category is present exactly when some service of the list has it. */
  lemma {:induction false} PresentCategoriesSpec(tax: seq<Group>, services: seq<Scored>)
    ensures forall c :: c in PresentCategories(tax, services) <==>
      exists i :: 0 <= i < |services| && GetServiceCategory(tax, services[i].service) == c
  {
    if services != [] {
      var n := |services| - 1;
      PresentCategoriesSpec(tax, services[..n]);
      assert forall i :: 0 <= i < n ==> services[..n][i] == services[i];
    }
  }

  /** The requirement loop of `ensureCompleteServiceCoverage`: a fallback for each required category not present. */
  function Fallbacks(tax: seq<Group>, catalogue: seq<Service>, cats: seq<string>, present: set<string>,
                     intent: BusinessIntent): seq<Scored>
    decreases |cats|
  {
    if cats == [] then []
    else
      var f := if cats[0] !in present then Fallback(tax, catalogue, cats[0], intent) else None;
      (if f.Some? then [f.value] else []) + Fallbacks(tax, catalogue, cats[1..], present, intent)
  }

  /** `ensureCompleteServiceCoverage`: the services, the fallbacks, then the first 20. */
  function Cover(tax: seq<Group>, catalogue: seq<Service>, services: seq<Scored>, intent: BusinessIntent): seq<Scored> {
    var all := services + Fallbacks(tax, catalogue, intent.categories, PresentCategories(tax, services), intent);
    if |all| <= 20 then all else all[..20]
  }

  /** Every fallback is a catalogue service of a missing required category, scored 0.5. */
  lemma FallbacksSound(tax: seq<Group>, catalogue: seq<Service>, cats: seq<string>, present: set<string>,
                       intent: BusinessIntent)
    ensures var fs := Fallbacks(tax, catalogue, cats, present, intent);
      |fs| <= |cats|
      && forall i :: 0 <= i < |fs| ==>
        fs[i].finalScore == 0.5 && fs[i].service in catalogue
        && GetServiceCategory(tax, fs[i].service) in cats && GetServiceCategory(tax, fs[i].service) !in present
  {
    FallbacksAtMostOne(tax, catalogue, cats, present, intent);
    FallbacksEach(tax, catalogue, cats, present, intent);
    var fs := Fallbacks(tax, catalogue, cats, present, intent);
    forall i | 0 <= i < |fs|
      ensures FitsMissing(tax, catalogue, cats, present, fs[i])
    {
      assert fs[i] in fs;
    }
  }

  /** A fallback for a missing required category: a catalogue service of it, scored 0.5. */
  predicate FitsMissing(tax: seq<Group>, catalogue: seq<Service>, cats: seq<string>, present: set<string>, s: Scored) {
    s.finalScore == 0.5 && s.service in catalogue
    && GetServiceCategory(tax, s.service) in cats && GetServiceCategory(tax, s.service) !in present
  }

  /** Each required category contributes at most one fallback. */
  lemma {:induction false} FallbacksAtMostOne(tax: seq<Group>, catalogue: seq<Service>, cats: seq<string>,
                                              present: set<string>, intent: BusinessIntent)
    ensures |Fallbacks(tax, catalogue, cats, present, intent)| <= |cats|
    decreases |cats|
  {
    if cats != [] {
      FallbacksAtMostOne(tax, catalogue, cats[1..], present, intent);
    }
  }

  /** The per-element half of `FallbacksSound`. */
  lemma {:induction false} FallbacksEach(tax: seq<Group>, catalogue: seq<Service>, cats: seq<string>,
                                         present: set<string>, intent: BusinessIntent)
    ensures forall s :: s in Fallbacks(tax, catalogue, cats, present, intent) ==> FitsMissing(tax, catalogue, cats, present, s)
    decreases |cats|
  {
    if cats != [] {
      FallbacksEach(tax, catalogue, cats[1..], present, intent);
      FallbackShape(tax, catalogue, cats[0], intent);
      var f := if cats[0] !in present then Fallback(tax, catalogue, cats[0], intent) else None;
      var head: seq<Scored> := if f.Some? then [f.value] else [];
      var rest := Fallbacks(tax, catalogue, cats[1..], present, intent);
      assert Fallbacks(tax, catalogue, cats, present, intent) == head + rest;
      forall s | s in head + rest
        ensures FitsMissing(tax, catalogue, cats, present, s)
      {
        if s in rest {
          assert FitsMissing(tax, catalogue, cats[1..], present, s);
          assert GetServiceCategory(tax, s.service) in cats[1..];
        }
      }
    }
  }

  /** Each missing required category with a catalogue service gets a fallback of that category. */
  lemma {:induction false} FallbacksComplete(tax: seq<Group>, catalogue: seq<Service>, cats: seq<string>, present: set<string>,
                                             intent: BusinessIntent, k: nat)
    requires k < |cats| && cats[k] !in present
    requires exists s :: s in catalogue && GetServiceCategory(tax, s) == cats[k]
    ensures var fs := Fallbacks(tax, catalogue, cats, present, intent);
      exists i :: 0 <= i < |fs| && GetServiceCategory(tax, fs[i].service) == cats[k]
    decreases |cats|
  {
    var f := if cats[0] !in present then Fallback(tax, catalogue, cats[0], intent) else None;
    var head: seq<Scored> := if f.Some? then [f.value] else [];
    var rest := Fallbacks(tax, catalogue, cats[1..], present, intent);
    var fs := head + rest;
    assert Fallbacks(tax, catalogue, cats, present, intent) == fs;
    if k == 0 {
      FallbackSpec(tax, catalogue, cats[0], intent);
      FallbackShape(tax, catalogue, cats[0], intent);
      assert f.Some?;
      assert GetServiceCategory(tax, f.value.service) == cats[0];
      assert fs[0] == f.value;
    } else {
      assert cats[1..][k - 1] == cats[k];
      FallbacksComplete(tax, catalogue, cats[1..], present, intent, k - 1);
      var i :| 0 <= i < |rest| && GetServiceCategory(tax, rest[i].service) == cats[k];
      assert fs[|head| + i] == rest[i];
    }
  }

  /**
   * The covered list has at most 20 services and starts with the ranked ones; every added service
   * is a catalogue fallback for a missing required category; and when the ranked services and
   * the required categories fit in 20, every required category the catalogue has is present.
   */
  lemma CoverSpec(tax: seq<Group>, catalogue: seq<Service>, services: seq<Scored>, intent: BusinessIntent)
    ensures var r := Cover(tax, catalogue, services, intent);
      |r| <= 20 && (|services| <= 20 ==> r[..|services|] == services) && (|services| > 20 ==> r == services[..20])
    ensures forall i :: |services| <= i < |Cover(tax, catalogue, services, intent)| ==>
        Cover(tax, catalogue, services, intent)[i].finalScore == 0.5 && Cover(tax, catalogue, services, intent)[i].service in catalogue && GetServiceCategory(tax, Cover(tax, catalogue, services, intent)[i].service) in intent.categories
    ensures var r := Cover(tax, catalogue, services, intent);
      |services| + |intent.categories| <= 20 ==>
        forall c :: c in intent.categories && (exists s :: s in catalogue && GetServiceCategory(tax, s) == c) ==>
          exists i :: 0 <= i < |r| && GetServiceCategory(tax, r[i].service) == c
  {
    var present := PresentCategories(tax, services);
    PresentCategoriesSpec(tax, services);
    var fs := Fallbacks(tax, catalogue, intent.categories, present, intent);
    FallbacksSound(tax, catalogue, intent.categories, present, intent);
    var all := services + fs;
    var r := Cover(tax, catalogue, services, intent);
    forall i | |services| <= i < |r|
      ensures r[i] == fs[i - |services|]
    {
    }
    if |services| + |intent.categories| <= 20 {
      forall c | c in intent.categories && (exists s :: s in catalogue && GetServiceCategory(tax, s) == c)
        ensures exists i :: 0 <= i < |r| && GetServiceCategory(tax, r[i].service) == c
      {
        var k :| 0 <= k < |intent.categories| && intent.categories[k] == c;
        if c in present {
          var i :| 0 <= i < |services| && GetServiceCategory(tax, services[i].service) == c;
          assert r[i] == services[i];
        } else {
          FallbacksComplete(tax, catalogue, intent.categories, present, intent, k);
          var i :| 0 <= i < |fs| && GetServiceCategory(tax, fs[i].service) == c;
          assert r[|services| + i] == fs[i];
        }
      }
    }
  }
}
