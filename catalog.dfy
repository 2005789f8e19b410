/**
 * The record shapes the catalogue providers, the validators and the LLM preparation share:
 * a priced Oracle Cloud service as the pricing API or an embedded catalogue describes it.
 * A JavaScript property that may be missing is an `Option`; a number read with
 * `parseFloat` is an `Option<real>` whose `None` stands for `NaN`.
 */
module Catalog {
  import opened Wrappers
  import opened Text
  import opened Lists

  /** A JavaScript number where `NaN` can arise (`parseInt` of a string with no digits). */
  datatype JsNumber = Finite(value: real) | NaN

  /** One entry of `currencyCodeLocalizations`: a currency code, a parsed price and a pricing model. */
  datatype Localization = Localization(currencyCode: Option<string>, price: Option<real>, model: Option<string>)

  /** One entry of the `allCurrencies` list the older provider builds. */
  datatype CurrencyPrice = CurrencyPrice(code: Option<string>, price: real, model: Option<string>)

  /** A pricing object; every property may be absent. */
  datatype Pricing = Pricing(
    currency: Option<string>,
    unitPrice: Option<real>,
    price: Option<real>,
    model: Option<string>,
    unit: Option<string>,
    metricName: Option<string>,
    allCurrencies: Option<seq<CurrencyPrice>>)

  /** The `pricing` property: missing (or `null`), a single object, or a list of objects. */
  datatype PricingField = NoPricing | PricingObject(obj: Pricing) | PricingList(items: seq<Pricing>)

  /** A catalogue service. */
  datatype Service = Service(
    partNumber: Option<string>,
    displayName: Option<string>,
    serviceCategory: Option<string>,
    skuType: Option<string>,
    productFamily: Option<string>,
    licensingModel: Option<string>,
    tier: Option<string>,
    businessDescription: Option<string>,
    metricName: Option<string>,
    pricing: PricingField,
    localizations: Option<seq<Localization>>)

  const EmptyPricing := Pricing(None, None, None, None, None, None, None)

  /** `Object.keys(p).length > 0`. */
  predicate HasKeys(p: Pricing) {
    p.currency.Some? || p.unitPrice.Some? || p.price.Some? || p.model.Some?
    || p.unit.Some? || p.metricName.Some? || p.allCurrencies.Some?
  }

  /** JavaScript truthiness of an optional string: present and non-empty. */
  predicate Truthy(s: Option<string>) { s.Some? && s.value != "" }

  /** JavaScript truthiness of an optional number (`NaN` is already `None`). */
  predicate TruthyNum(x: Option<real>) { x.Some? && x.value != 0.0 }

  /** `a || b` on optional strings. */
  function OrElse(a: Option<string>, b: Option<string>): (r: Option<string>)
    ensures Truthy(a) ==> r == a
    ensures !Truthy(a) ==> r == b
  {
    if Truthy(a) then a else b
  }

  /** `x || ''`. */
  function OrEmpty(s: Option<string>): (r: string)
    ensures Truthy(s) ==> r == s.value
    ensures !Truthy(s) ==> r == ""
  {
    if s.Some? then s.value else ""
  }

  /** The text a template literal `${x}` produces for an optional string: `undefined` when absent. */
  function Render(s: Option<string>): (r: string)
    ensures s.Some? ==> r == s.value
    ensures s.None? ==> r == "undefined"
  {
    if s.Some? then s.value else "undefined"
  }

  /** `list.find(l => l.currencyCode === code)`. */
  function FindCurrency(locs: seq<Localization>, code: string): (r: Option<Localization>)
    ensures r.Some? ==> r.value in locs && r.value.currencyCode == Some(code)
    ensures r.None? ==> forall l :: l in locs ==> l.currencyCode != Some(code)
    ensures locs != [] && locs[0].currencyCode == Some(code) ==> r == Some(locs[0])
  {
    if locs == [] then None
    else if locs[0].currencyCode == Some(code) then Some(locs[0])
    else FindCurrency(locs[1..], code)
  }

  // ---------------------------------------------------------------- category names

  /** The present, non-blank names among `cs`. */
  function NonBlank(cs: seq<Option<string>>): (r: seq<string>)
    ensures forall x :: x in r <==> Some(x) in cs && Trim(x) != ""
  {
    if cs == [] then []
    else
      (if cs[0].Some? && Trim(cs[0].value) != "" then [cs[0].value] else []) + NonBlank(cs[1..])
  }

  lemma {:induction false} NonBlankDistinct(cs: seq<Option<string>>)
    requires NoDuplicates(cs)
    ensures NoDuplicates(NonBlank(cs))
  {
    if cs != [] {
      var rest := cs[1..];
      assert NoDuplicates(rest) by {
        forall i, j | 0 <= i < j < |rest|
          ensures rest[i] != rest[j]
        {
          assert rest[i] == cs[i + 1] && rest[j] == cs[j + 1];
        }
      }
      NonBlankDistinct(rest);
      if cs[0].Some? {
        assert Some(cs[0].value) !in rest by {
          forall i | 0 <= i < |rest|
            ensures rest[i] != cs[0]
          {
            assert rest[i] == cs[i + 1];
          }
        }
      }
    }
  }

  /** `getServiceCategories`: the distinct service categories in first-seen order, without blank or missing ones. */
  function ServiceCategoryNames(services: seq<Service>): seq<string> {
    NonBlank(Dedup(seq(|services|, i requires 0 <= i < |services| => services[i].serviceCategory)))
  }

  /** Each name is listed once, and a name is listed exactly when some service has it as a non-blank category. */
  lemma ServiceCategoryNamesSpec(services: seq<Service>)
    ensures NoDuplicates(ServiceCategoryNames(services))
    ensures forall x :: x in ServiceCategoryNames(services) <==>
      (exists i :: 0 <= i < |services| && services[i].serviceCategory == Some(x)) && Trim(x) != ""
  {
    var cs := seq(|services|, i requires 0 <= i < |services| => services[i].serviceCategory);
    NonBlankDistinct(Dedup(cs));
    forall x
      ensures Some(x) in cs <==> exists i :: 0 <= i < |services| && services[i].serviceCategory == Some(x)
    {
      if Some(x) in cs {
        var i :| 0 <= i < |cs| && cs[i] == Some(x);
      }
      if exists i :: 0 <= i < |services| && services[i].serviceCategory == Some(x) {
        var i :| 0 <= i < |services| && services[i].serviceCategory == Some(x);
        assert cs[i] == Some(x);
      }
    }
  }
}
