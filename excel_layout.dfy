/**
 * The layout arithmetic of the spreadsheet export: which monthly multiplier a pricing metric
 * gets, how the bill-of-materials items are grouped by category, on which rows the table, the
 * category subtotals and the pricing summary land, and which cells each formula refers to.
 * The worksheet is modelled as the list of rows written to it, each with the values and
 * formulas of its cells; styling and the spreadsheet library itself are not modelled.
 */
module ExcelLayout {
  import opened Wrappers
  import opened Text
  import opened Lists
  import opened Catalog

  /** One bill-of-materials item as the LLM returns it; every property may be missing. */
  datatype BomItem = BomItem(
    category: Option<string>,
    serviceCategory: Option<string>,
    sku: Option<string>,
    partNumber: Option<string>,
    description: Option<string>,
    displayName: Option<string>,
    quantity: Option<real>,
    metric: Option<string>,
    metricName: Option<string>,
    unitPrice: Option<real>,
    notes: Option<string>)

  /** A number written into a formula, with the text a template literal prints for it. */
  datatype Factor = Factor(value: real, text: string)

  const PerHour := Factor(744.0, "744")
  const PerDay := Factor(31.0, "31")
  const PerWeek := Factor(4.33, "4.33")
  const PerMonth := Factor(1.0, "1")
  const PerYear := Factor(0.0833, "0.0833")
  const MonthsPerYear := Factor(12.0, "12")

  // ---------------------------------------------------------------------------------------
  // getMonthlyMultiplier
  // ---------------------------------------------------------------------------------------

  /** `getMonthlyMultiplier`: the first rule whose words occur in the lower-cased metric wins. */
  function MonthlyMultiplier(metric: Option<string>): (m: Factor)
    ensures m in {PerHour, PerDay, PerWeek, PerMonth, PerYear}
    ensures m.value > 0.0
  {
    if !Truthy(metric) then PerMonth
    else
      var lower := ToLower(metric.value);
      if ContainsAny(lower, ["hour", "_hour", "/hour"]) then PerHour
      else if ContainsAny(lower, ["day", "_day", "/day"]) then PerDay
      else if ContainsAny(lower, ["week", "_week", "/week"]) then PerWeek
      else if ContainsAny(lower, ["month", "_month", "/month"]) then PerMonth
      else if ContainsAny(lower, ["year", "_year", "annual", "/year"]) then PerYear
      else if ContainsAny(lower, ["gb", "tb", "_storage", "storage"]) then PerMonth
      else if ContainsAny(lower, ["request", "transaction", "call"]) then PerMonth
      else PerMonth
  }

  /**
   * The multiplier stripped to what decides it: the time word found first in rule order.
   * The `_x` and `/x` spellings, the storage rule and the request rule change nothing.
   */
  function TimeFactor(lower: string): Factor {
    if Contains(lower, "hour") then PerHour
    else if Contains(lower, "day") then PerDay
    else if Contains(lower, "week") then PerWeek
    else if Contains(lower, "month") then PerMonth
    else if Contains(lower, "year") || Contains(lower, "annual") then PerYear
    else PerMonth
  }

  /** An occurrence of `pre + w` holds an occurrence of `w`. */
  lemma ContainsTail(s: string, pre: string, w: string)
    requires Contains(s, pre + w)
    ensures Contains(s, w)
  {
    var i :| 0 <= i <= |s| && StartsAt(s, i, pre + w);
    assert s[i + |pre|..i + |pre| + |w|] == s[i..i + |pre| + |w|][|pre|..];
    assert StartsAt(s, i + |pre|, w);
  }

  /** `s` holds one of `w`, `_w`, `/w` exactly when it holds `w`. */
  lemma SpellingsOf(s: string, w: string)
    ensures ContainsAny(s, [w, "_" + w, "/" + w]) <==> Contains(s, w)
  {
    var subs := [w, "_" + w, "/" + w];
    if Contains(s, w) {
      assert Contains(s, subs[0]);
    }
    if ContainsAny(s, subs) {
      var k :| 0 <= k < 3 && Contains(s, subs[k]);
      if k == 1 {
        ContainsTail(s, "_", w);
      } else if k == 2 {
        ContainsTail(s, "/", w);
      }
    }
  }

  /** The multiplier of a present metric is decided by its time word alone; a missing one gives 1. */
  lemma MultiplierSpec(metric: Option<string>)
    ensures !Truthy(metric) ==> MonthlyMultiplier(metric) == PerMonth
    ensures Truthy(metric) ==> MonthlyMultiplier(metric) == TimeFactor(ToLower(metric.value))
  {
    if Truthy(metric) {
      var lower := ToLower(metric.value);
      assert "_" + "hour" == "_hour" && "/" + "hour" == "/hour" && "_" + "day" == "_day" && "/" + "day" == "/day";
      assert "_" + "week" == "_week" && "/" + "week" == "/week" && "_" + "month" == "_month" && "/" + "month" == "/month";
      SpellingsOf(lower, "hour");
      SpellingsOf(lower, "day");
      SpellingsOf(lower, "week");
      SpellingsOf(lower, "month");
      YearSpellings(lower);
    }
  }

  /** The year spellings come down to "year" or "annual". */
  lemma YearSpellings(s: string)
    ensures ContainsAny(s, ["year", "_year", "annual", "/year"]) <==> Contains(s, "year") || Contains(s, "annual")
  {
    var years := ["year", "_year", "annual", "/year"];
    if ContainsAny(s, years) {
      var k :| 0 <= k < 4 && Contains(s, years[k]);
      assert years[1] == "_" + "year" && years[3] == "/" + "year";
      if k == 1 {
        ContainsTail(s, "_", "year");
      } else if k == 3 {
        ContainsTail(s, "/", "year");
      }
    }
    if Contains(s, "year") {
      assert Contains(s, years[0]);
    }
    if Contains(s, "annual") {
      assert Contains(s, years[2]);
    }
  }

  /** Hours win over storage: "GB Hour" is priced per hour. */
  lemma GbHourIsHourly()
    ensures MonthlyMultiplier(Some("GB Hour")) == PerHour
  {
    GbHourWords();
    MultiplierSpec(Some("GB Hour"));
  }

  /** "GB Hour" lower-cases to "gb hour", which holds "hour". */
  lemma GbHourWords()
    ensures ToLower("GB Hour") == "gb hour" && Contains("gb hour", "hour")
  {
    var lower := ToLower("GB Hour");
    assert lower == "gb hour";
    assert StartsAt(lower, 3, "hour");
  }

  // ---------------------------------------------------------------------------------------
  // groupByCategory
  // ---------------------------------------------------------------------------------------

  /** `item.category || item.serviceCategory || 'General'`. */
  function CategoryOf(item: BomItem): (r: string)
    ensures r != ""
    ensures Truthy(item.category) ==> r == item.category.value
  {
    if Truthy(item.category) then item.category.value
    else if Truthy(item.serviceCategory) then item.serviceCategory.value
    else "General"
  }

  /** The category names in the order they first appear: the order the grouping object's keys are created in. */
  function Names(items: seq<BomItem>): seq<string> {
    if items == [] then []
    else
      var prior := Names(items[..|items| - 1]);
      var c := CategoryOf(items[|items| - 1]);
      if c in prior then prior else prior + [c]
  }

  /** The items of one category, in item order. */
  function InCategory(items: seq<BomItem>, name: string): seq<BomItem> {
    if items == [] then []
    else
      var last := items[|items| - 1];
      InCategory(items[..|items| - 1], name) + (if CategoryOf(last) == name then [last] else [])
  }

  /** One category and its items. */
  datatype Group = Group(name: string, items: seq<BomItem>)

  // ---------------------------------------------------------------------------------------
  // The key order of a plain object
  // ---------------------------------------------------------------------------------------

  /** The value of a decimal digit; 0 for any other character. */
  function DigitValue(c: char): nat {
    if IsDigit(c) then c as int - '0' as int else 0
  }

  /** The value of a string of decimal digits, read left to right. */
  function DecimalValue(s: string): nat {
    if s == [] then 0 else DecimalValue(s[..|s| - 1]) * 10 + DigitValue(s[|s| - 1])
  }

  /**
   * An array index, the kind of property key an object lists first: the canonical decimal
   * form, without leading zeros, of an integer from 0 to 2^32 - 2.
   */
  predicate IsIndexKey(s: string) {
    && s != []
    && (forall i :: 0 <= i < |s| ==> IsDigit(s[i]))
    && (s[0] != '0' || s == "0")
    && DecimalValue(s) < 0xFFFF_FFFF
  }

  /** The array-index keys of `keys`, in order. */
  function IndexKeys(keys: seq<string>): seq<string> {
    if keys == [] then []
    else
      var last := keys[|keys| - 1];
      IndexKeys(keys[..|keys| - 1]) + (if IsIndexKey(last) then [last] else [])
  }

  /** The other keys of `keys`, in order. */
  function NamedKeys(keys: seq<string>): seq<string> {
    if keys == [] then []
    else
      var last := keys[|keys| - 1];
      NamedKeys(keys[..|keys| - 1]) + (if IsIndexKey(last) then [] else [last])
  }

  /** The sort key under which the descending sort puts array indices in ascending order. */
  function IndexRank(k: string): real {
    -(DecimalValue(k) as real)
  }

  /**
   * `Object.keys` of a plain object whose keys were created in the order `order`: the array
   * indices first, in ascending numeric order, then the other keys in creation order
   * (OrdinaryOwnPropertyKeys, section 10.1.11.1 of ECMA-262).
   */
  function ObjectKeys(order: seq<string>): seq<string> {
    SortDesc(IndexKeys(order), IndexRank) + NamedKeys(order)
  }

  /** Splitting the keys into array indices and the others loses and adds none. */
  lemma {:induction false} KeysSplit(order: seq<string>)
    ensures multiset(IndexKeys(order)) + multiset(NamedKeys(order)) == multiset(order)
    ensures forall k :: k in IndexKeys(order) ==> IsIndexKey(k)
    ensures forall k :: k in NamedKeys(order) <==> k in order && !IsIndexKey(k)
  {
    if order != [] {
      KeysSplit(order[..|order| - 1]);
      SnocSplit(order);
    }
  }

  /** `Object.keys` only reorders: each key is listed as often as it was created. */
  lemma ObjectKeysPermutes(order: seq<string>)
    ensures multiset(ObjectKeys(order)) == multiset(order)
  {
    SortDescSpec(IndexKeys(order), IndexRank);
    KeysSplit(order);
  }

  /**
   * The array indices lead, in ascending numeric order; after them come exactly the other keys,
   * in the order they were created.
   */
  lemma ObjectKeysOrder(order: seq<string>)
    ensures |IndexKeys(order)| <= |ObjectKeys(order)|
    ensures forall i :: 0 <= i < |IndexKeys(order)| ==> IsIndexKey(ObjectKeys(order)[i])
    ensures forall i, j :: 0 <= i < j < |IndexKeys(order)| ==>
      DecimalValue(ObjectKeys(order)[i]) <= DecimalValue(ObjectKeys(order)[j])
    ensures ObjectKeys(order)[|IndexKeys(order)|..] == NamedKeys(order)
    ensures forall k :: k in NamedKeys(order) <==> k in order && !IsIndexKey(k)
  {
    var sorted := SortDesc(IndexKeys(order), IndexRank);
    SortDescSpec(IndexKeys(order), IndexRank);
    KeysSplit(order);
    PrefixOfAppend(sorted, NamedKeys(order));
    forall i | 0 <= i < |sorted|
      ensures IsIndexKey(ObjectKeys(order)[i])
    {
      assert sorted[i] in multiset(IndexKeys(order));
    }
    forall i, j | 0 <= i < j < |sorted|
      ensures DecimalValue(ObjectKeys(order)[i]) <= DecimalValue(ObjectKeys(order)[j])
    {
      assert IndexRank(sorted[i]) >= IndexRank(sorted[j]);
    }
  }

  /** A key "7" created after "Compute" is nevertheless listed before it. */
  lemma IndexKeyListedFirst()
    ensures ObjectKeys(["Compute", "7"]) == ["7", "Compute"]
  {
    var order := ["Compute", "7"];
    assert DecimalValue("7") == 7;
    assert IsIndexKey("7") && !IsIndexKey("Compute");
    assert order[..1] == ["Compute"] && order[..1][..0] == [];
    assert IndexKeys(order) == ["7"];
    assert NamedKeys(order) == ["Compute"];
  }

  // ---------------------------------------------------------------------------------------
  // groupByCategory and the grouping it builds
  // ---------------------------------------------------------------------------------------

  /** The prefix `createBOM` puts on any error it catches. */
  const ExportFailurePrefix := "Failed to create Excel file: "

  /** The properties every plain object inherits from `Object.prototype`; each reads as truthy. */
  const InheritedKeys: seq<string> := [
    "constructor", "hasOwnProperty", "isPrototypeOf", "propertyIsEnumerable", "toLocaleString",
    "toString", "valueOf", "__proto__", "__defineGetter__", "__defineSetter__",
    "__lookupGetter__", "__lookupSetter__"]

  /**
   * The error `grouped[category].push(item)` raises when `grouped[category]` is an inherited
   * property: the truthiness test skips creating the list, and the inherited value has no `push`.
   */
  const PushFailure := "grouped[category].push is not a function"

  /** Whether some item's category is one of `keys`. */
  predicate CategoryAmong(items: seq<BomItem>, keys: seq<string>) {
    exists j :: 0 <= j < |items| && CategoryOf(items[j]) in keys
  }

  /** Whether some item's category names an inherited property of the grouping object. */
  predicate InheritedCategory(items: seq<BomItem>) {
    CategoryAmong(items, InheritedKeys)
  }

  /** The keys of the grouping object of `items`, in the order `Object.keys` lists them. */
  function GroupKeys(items: seq<BomItem>): seq<string> {
    ObjectKeys(Names(items))
  }

  /**
   * The groups in the order `Object.keys` lists them. Missing data gives a single empty
   * 'General' group; a present but empty item list gives no group at all; a category named
   * like an inherited property makes the grouping fail.
   */
  function Grouping(data: Option<seq<BomItem>>): (r: Result<seq<Group>>)
    ensures data.None? ==> r == Ok([Group("General", [])])
    ensures r.Err? <==> data.Some? && InheritedCategory(data.value)
    ensures r.Err? ==> r.error == PushFailure
    ensures r.Ok? && data.Some? ==> |r.value| == |Names(data.value)|
  {
    match data
    case None => Ok([Group("General", [])])
    case Some(items) =>
      if InheritedCategory(items) then Err(PushFailure) else Ok(GroupsOf(items))
  }

  /** One group per key of the grouping object, in `Object.keys` order, each with its category's items. */
  function GroupsOf(items: seq<BomItem>): (gs: seq<Group>)
    ensures |gs| == |Names(items)|
  {
    var keys := GroupKeys(items);
    ObjectKeysPermutes(Names(items));
    assert |keys| == |multiset(keys)| == |Names(items)|;
    seq(|keys|, k requires 0 <= k < |keys| => Group(keys[k], InCategory(items, keys[k])))
  }

  /** Every name is listed once, and a name is listed exactly when some item has that category. */
  lemma {:induction false} NamesSpec(items: seq<BomItem>)
    ensures forall i, j :: 0 <= i < j < |Names(items)| ==> Names(items)[i] != Names(items)[j]
    ensures forall j :: 0 <= j < |items| ==> CategoryOf(items[j]) in Names(items)
    ensures forall n :: n in Names(items) ==> exists j :: 0 <= j < |items| && CategoryOf(items[j]) == n
  {
    if items != [] {
      var prior := items[..|items| - 1];
      NamesSpec(prior);
      forall n | n in Names(items)
        ensures exists j :: 0 <= j < |items| && CategoryOf(items[j]) == n
      {
        if n in Names(prior) {
          var j :| 0 <= j < |prior| && CategoryOf(prior[j]) == n;
          assert items[j] == prior[j];
        } else {
          assert CategoryOf(items[|items| - 1]) == n;
        }
      }
      forall j | 0 <= j < |items|
        ensures CategoryOf(items[j]) in Names(items)
      {
        if j < |prior| {
          assert items[j] == prior[j];
        }
      }
    }
  }

  /** An item lands in the group of its category and in no other, and the groups keep item order. */
  lemma InCategorySpec(items: seq<BomItem>, name: string)
    ensures forall x :: x in InCategory(items, name) ==> x in items && CategoryOf(x) == name
    ensures forall x :: CategoryOf(x) == name ==> multiset(InCategory(items, name))[x] == multiset(items)[x]
    ensures name !in Names(items) ==> InCategory(items, name) == []
  {
    InCategorySound(items, name);
    InCategoryCounts(items, name);
    InCategoryUnnamed(items, name);
  }

  lemma {:induction false} InCategorySound(items: seq<BomItem>, name: string)
    ensures forall x :: x in InCategory(items, name) ==> x in items && CategoryOf(x) == name
  {
    if items != [] {
      InCategorySound(items[..|items| - 1], name);
      SnocSplit(items);
    }
  }

  lemma {:induction false} InCategoryCounts(items: seq<BomItem>, name: string)
    ensures forall x :: CategoryOf(x) == name ==> multiset(InCategory(items, name))[x] == multiset(items)[x]
  {
    if items != [] {
      InCategoryCounts(items[..|items| - 1], name);
      SnocSplit(items);
    }
  }

  lemma {:induction false} InCategoryUnnamed(items: seq<BomItem>, name: string)
    ensures name !in Names(items) ==> InCategory(items, name) == []
  {
    if items != [] {
      InCategoryUnnamed(items[..|items| - 1], name);
    }
  }

  /** The total size of the groups named in `names`. */
  function GroupSizes(items: seq<BomItem>, names: seq<string>): nat {
    if names == [] then 0
    else GroupSizes(items, names[..|names| - 1]) + |InCategory(items, names[|names| - 1])|
  }

  /** Adding an item grows the group of its category by one and leaves the others. */
  lemma {:induction false} GroupSizesStep(items: seq<BomItem>, x: BomItem, names: seq<string>)
    ensures GroupSizes(items + [x], names) == GroupSizes(items, names) + Occurrences(names, CategoryOf(x))
  {
    if names != [] {
      var front := names[..|names| - 1];
      GroupSizesStep(items, x, front);
      assert (items + [x])[..|items|] == items;
      var c := CategoryOf(x);
      assert names == front + [names[|names| - 1]];
      OccurrencesAppend(front, names[|names| - 1], c);
    }
  }

  /** How often `c` occurs in `names`. */
  function Occurrences(names: seq<string>, c: string): nat {
    if names == [] then 0
    else Occurrences(names[..|names| - 1], c) + (if names[|names| - 1] == c then 1 else 0)
  }

  lemma OccurrencesAppend(front: seq<string>, n: string, c: string)
    ensures Occurrences(front + [n], c) == Occurrences(front, c) + (if n == c then 1 else 0)
  {
    assert (front + [n])[..|front|] == front;
  }

  /** In a list without duplicates, a listed name occurs once and an unlisted one never. */
  lemma {:induction false} OccurrencesOnce(names: seq<string>, c: string)
    requires forall i, j :: 0 <= i < j < |names| ==> names[i] != names[j]
    ensures Occurrences(names, c) == (if c in names then 1 else 0)
  {
    if names != [] {
      var front := names[..|names| - 1];
      OccurrencesOnce(front, c);
      assert names == front + [names[|names| - 1]];
    }
  }

  /** The groups together hold every item exactly once: their sizes add up to the item count. */
  lemma {:induction false} GroupingPartitions(items: seq<BomItem>)
    ensures GroupSizes(items, Names(items)) == |items|
  {
    if items != [] {
      var prior := items[..|items| - 1];
      var x := items[|items| - 1];
      var c := CategoryOf(x);
      assert items == prior + [x];
      GroupingPartitions(prior);
      NamesSpec(prior);
      NamesSpec(items);
      OccurrencesOnce(Names(items), c);
      GroupSizesStep(prior, x, Names(items));
      if c !in Names(prior) {
        InCategoryUnnamed(prior, c);
        assert Names(items) == Names(prior) + [c];
        assert Names(items)[..|Names(items)| - 1] == Names(prior);
        GroupSizesAbsent(prior, Names(prior), c);
      }
    }
  }

  /** Appending an empty group's name adds nothing to the sizes. */
  lemma GroupSizesAbsent(items: seq<BomItem>, names: seq<string>, c: string)
    requires InCategory(items, c) == []
    ensures GroupSizes(items, names + [c]) == GroupSizes(items, names)
  {
    assert (names + [c])[..|names|] == names;
  }

  /**
   * The grouping object lists every category once, and a category is listed exactly when some
   * item has it; the order is `Object.keys`' order over the categories' first appearance.
   */
  lemma GroupKeysSpec(items: seq<BomItem>)
    ensures NoDuplicates(GroupKeys(items))
    ensures forall n :: n in GroupKeys(items) <==> exists j :: 0 <= j < |items| && CategoryOf(items[j]) == n
  {
    NamesSpec(items);
    ObjectKeysPermutes(Names(items));
    PermDistinct(Names(items), GroupKeys(items));
    forall n
      ensures n in GroupKeys(items) <==> n in Names(items)
    {
      assert n in GroupKeys(items) <==> n in multiset(GroupKeys(items));
    }
  }

  /** A category "7" that first appears after "Compute" still gets the first group. */
  lemma IndexCategoryFirst(a: BomItem, b: BomItem)
    requires a.category == Some("Compute") && b.category == Some("7")
    ensures Grouping(Some([a, b])) == Ok([Group("7", [b]), Group("Compute", [a])])
  {
    TwoNotInherited(a, b);
    TwoGroups(a, b);
    assert Grouping(Some([a, b])) == Ok(GroupsOf([a, b]));
  }

  /** Neither "Compute" nor "7" is an inherited property, so two items in them can be grouped. */
  lemma TwoNotInherited(a: BomItem, b: BomItem)
    requires a.category == Some("Compute") && b.category == Some("7")
    ensures !InheritedCategory([a, b])
  {
    var items := [a, b];
    TwoCategories(a, b);
    NotInherited("Compute");
    NotInherited("7");
    assert forall j :: 0 <= j < |items| ==> CategoryOf(items[j]) == "Compute" || CategoryOf(items[j]) == "7";
  }

  /** The groups of two items in "Compute" and "7", the index key first. */
  lemma TwoGroups(a: BomItem, b: BomItem)
    requires a.category == Some("Compute") && b.category == Some("7")
    ensures GroupsOf([a, b]) == [Group("7", [b]), Group("Compute", [a])]
  {
    var items := [a, b];
    TwoCategories(a, b);
    IndexKeyListedFirst();
    var keys := GroupKeys(items);
    assert keys == ["7", "Compute"];
    var gs := GroupsOf(items);
    assert gs == seq(|keys|, k requires 0 <= k < |keys| => Group(keys[k], InCategory(items, keys[k])));
    assert |gs| == 2 && gs[0] == Group("7", [b]) && gs[1] == Group("Compute", [a]);
  }

  /** The categories and groups of two items in "Compute" and "7". */
  lemma TwoCategories(a: BomItem, b: BomItem)
    requires a.category == Some("Compute") && b.category == Some("7")
    ensures CategoryOf(a) == "Compute" && CategoryOf(b) == "7"
    ensures Names([a, b]) == ["Compute", "7"]
    ensures InCategory([a, b], "7") == [b] && InCategory([a, b], "Compute") == [a]
  {
    assert |"Compute"| == 7 && |"7"| == 1;
    assert CategoryOf(a) == "Compute" && CategoryOf(b) == "7";
    var items := [a, b];
    assert items[..1] == [a] && items[..1][..0] == [];
    assert Names([a]) == ["Compute"];
    assert "7" !in Names([a]);
    assert InCategory([a], "7") == [] && InCategory([a], "Compute") == [a];
  }

  /** Neither "Compute" nor "7" is an inherited property. */
  lemma NotInherited(c: string)
    requires c == "Compute" || c == "7"
    ensures c !in InheritedKeys
  {
  }

  /** A category named `toString` (or any other inherited property) makes the grouping fail. */
  lemma InheritedCategoryFails(items: seq<BomItem>, j: nat)
    requires j < |items| && items[j].category == Some("toString")
    ensures Grouping(Some(items)) == Err(PushFailure)
  {
    assert CategoryOf(items[j]) in InheritedKeys;
  }

  /** With item data present, no group is empty; only missing data yields the empty 'General' group. */
  lemma GroupsNonEmpty(items: seq<BomItem>)
    ensures Grouping(Some(items)).Ok? ==>
      forall k :: 0 <= k < |Grouping(Some(items)).value| ==> Grouping(Some(items)).value[k].items != []
  {
    if Grouping(Some(items)).Ok? {
      GroupKeysSpec(items);
      var keys := GroupKeys(items);
      forall k | 0 <= k < |keys|
        ensures InCategory(items, keys[k]) != []
      {
        var n := keys[k];
        assert n in keys;
        var j :| 0 <= j < |items| && CategoryOf(items[j]) == n;
        InCategoryCounts(items, n);
        assert items[j] in multiset(items);
        assert multiset(InCategory(items, n))[items[j]] > 0;
      }
    }
  }

  /** The grouping object: its entries, and the order in which its keys were created. */
  datatype GroupingObject = GroupingObject(order: seq<string>, entries: map<string, seq<BomItem>>)

  /** The grouping object after `items` have been added: their categories as keys, each holding its items. */
  ghost predicate FilledFrom(items: seq<BomItem>, obj: GroupingObject) {
    && obj.order == Names(items)
    && (forall n :: n in obj.entries <==> n in obj.order)
    && (forall n :: n in obj.entries ==> obj.entries[n] == InCategory(items, n))
  }

  /** Adding the next item creates its category's key if it is new and pushes the item onto its list. */
  lemma FilledStep(items: seq<BomItem>, i: nat, before: GroupingObject, list: seq<BomItem>, after: GroupingObject)
    requires i < |items| && FilledFrom(items[..i], before)
    requires list == if CategoryOf(items[i]) in before.entries then before.entries[CategoryOf(items[i])] else []
    requires after.order == if CategoryOf(items[i]) in before.entries then before.order else before.order + [CategoryOf(items[i])]
    requires after.entries == before.entries[CategoryOf(items[i]) := list + [items[i]]]
    ensures FilledFrom(items[..i + 1], after)
  {
    var c := CategoryOf(items[i]);
    FilledKeys(items, i, before, list + [items[i]], after);
    if c !in before.entries {
      InCategoryUnnamed(items[..i], c);
    }
    FilledEntries(items, i, before.entries, list, after.entries);
  }

  /** The keys of the grouping object after the next item is pushed, and the order they were created in. */
  lemma FilledKeys(items: seq<BomItem>, i: nat, before: GroupingObject, pushed: seq<BomItem>, after: GroupingObject)
    requires i < |items| && before.order == Names(items[..i])
    requires forall n :: n in before.entries <==> n in before.order
    requires after.order == if CategoryOf(items[i]) in before.entries then before.order else before.order + [CategoryOf(items[i])]
    requires after.entries == before.entries[CategoryOf(items[i]) := pushed]
    ensures after.order == Names(items[..i + 1])
    ensures forall n :: n in after.entries <==> n in after.order
  {
    NamesStep(items, i);
  }

  /** Every entry of the grouping object after the next item is pushed. */
  lemma FilledEntries(items: seq<BomItem>, i: nat, before: map<string, seq<BomItem>>, list: seq<BomItem>,
                      after: map<string, seq<BomItem>>)
    requires i < |items|
    requires forall n :: n in before ==> before[n] == InCategory(items[..i], n)
    requires list == InCategory(items[..i], CategoryOf(items[i]))
    requires after == before[CategoryOf(items[i]) := list + [items[i]]]
    ensures forall n :: n in after ==> after[n] == InCategory(items[..i + 1], n)
  {
    forall n | n in after
      ensures after[n] == InCategory(items[..i + 1], n)
    {
      FilledEntry(items, i, n, before, list, after);
    }
  }

  /** The names of one more item: its category joins them if it is new. */
  lemma NamesStep(items: seq<BomItem>, i: nat)
    requires i < |items|
    ensures var c := CategoryOf(items[i]);
      Names(items[..i + 1]) == if c in Names(items[..i]) then Names(items[..i]) else Names(items[..i]) + [c]
  {
    TakeTake(items, i);
  }

  /** The items of category `n` after one more item: that item joins them if it is in `n`. */
  lemma InCategoryStep(items: seq<BomItem>, i: nat, n: string)
    requires i < |items|
    ensures InCategory(items[..i + 1], n) == InCategory(items[..i], n) + (if CategoryOf(items[i]) == n then [items[i]] else [])
  {
    TakeTake(items, i);
  }

  /** One entry of the grouping object after the next item is pushed. */
  lemma FilledEntry(items: seq<BomItem>, i: nat, n: string, before: map<string, seq<BomItem>>, list: seq<BomItem>,
                    after: map<string, seq<BomItem>>)
    requires i < |items| && n in after
    requires after == before[CategoryOf(items[i]) := list + [items[i]]]
    requires list == InCategory(items[..i], CategoryOf(items[i]))
    requires n != CategoryOf(items[i]) ==> n in before && before[n] == InCategory(items[..i], n)
    ensures after[n] == InCategory(items[..i + 1], n)
  {
    InCategoryStep(items, i, n);
  }

  /** A grouping object filled from all of `items` lists, under `Object.keys`, the groups of the grouping specification. */
  lemma ObjectMatchesGrouping(items: seq<BomItem>, obj: GroupingObject)
    requires FilledFrom(items, obj)
    ensures |ObjectKeys(obj.order)| == |GroupsOf(items)|
    ensures forall k :: 0 <= k < |ObjectKeys(obj.order)| ==>
      var n := ObjectKeys(obj.order)[k];
      n == GroupsOf(items)[k].name && n in obj.entries && obj.entries[n] == GroupsOf(items)[k].items
  {
    var keys := GroupKeys(items);
    var gs := GroupsOf(items);
    assert gs == seq(|keys|, k requires 0 <= k < |keys| => Group(keys[k], InCategory(items, keys[k])));
    forall k | 0 <= k < |keys|
      ensures keys[k] in obj.entries
    {
      ObjectKeysPermutes(Names(items));
      assert keys[k] in multiset(Names(items));
    }
  }

  /** The items up to the next one have a category among `keys` when the earlier ones do or it does. */
  lemma AmongStep(items: seq<BomItem>, i: nat, keys: seq<string>)
    requires i < |items|
    ensures CategoryAmong(items[..i + 1], keys) <==> CategoryAmong(items[..i], keys) || CategoryOf(items[i]) in keys
  {
    var front := items[..i + 1];
    if CategoryAmong(front, keys) && CategoryOf(items[i]) !in keys {
      var j :| 0 <= j < |front| && CategoryOf(front[j]) in keys;
      assert items[..i][j] == front[j];
    }
    if CategoryAmong(items[..i], keys) {
      var j :| 0 <= j < i && CategoryOf(items[..i][j]) in keys;
      assert front[j] == items[..i][j];
    }
    assert front[i] == items[i];
  }

  /**
   * The `forEach` of `groupByCategory` over present item data: the item whose category is an
   * inherited property stops it with the `push` error; otherwise it fills the grouping object.
   */
  method FillGrouping(items: seq<BomItem>) returns (r: Result<GroupingObject>)
    ensures r.Err? <==> InheritedCategory(items)
    ensures r.Err? ==> r.error == PushFailure
    ensures r.Ok? ==> FilledFrom(items, r.value)
  {
    var names: seq<string>, grouped: map<string, seq<BomItem>> := [], map[];
    var i := 0;
    while i < |items|
      invariant 0 <= i <= |items|
      invariant FilledFrom(items[..i], GroupingObject(names, grouped))
      invariant !InheritedCategory(items[..i])
    {
      var c := CategoryOf(items[i]);
      AmongStep(items, i, InheritedKeys);
      if c in InheritedKeys {
        AmongGrows(items, i + 1, InheritedKeys);
        return Err(PushFailure);
      }
      ghost var before := GroupingObject(names, grouped);
      var list := if c in grouped then grouped[c] else [];
      if c !in grouped {
        names := names + [c];
      }
      grouped := grouped[c := list + [items[i]]];
      FilledStep(items, i, before, list, GroupingObject(names, grouped));
      i := i + 1;
    }
    TakeAll(items);
    r := Ok(GroupingObject(names, grouped));
  }

  /** A prefix with a category among `keys` makes the whole list have one. */
  lemma AmongGrows(items: seq<BomItem>, n: nat, keys: seq<string>)
    requires n <= |items| && CategoryAmong(items[..n], keys)
    ensures CategoryAmong(items, keys)
  {
    var j :| 0 <= j < n && CategoryOf(items[..n][j]) in keys;
    assert items[j] == items[..n][j];
  }

  /** The object `{ 'General': [] }` lists its one key. */
  lemma GeneralKeys()
    ensures ObjectKeys(["General"]) == ["General"]
  {
    assert !IsIndexKey("General");
    assert ["General"][..0] == [];
  }

  /**
   * `groupByCategory`, filling the grouping object item by item. It fails at the first item
   * whose category is an inherited property; otherwise `Object.keys` of the object it returns
   * lists the groups of the grouping specification, key for key.
   */
  method GroupByCategory(data: Option<seq<BomItem>>) returns (r: Result<GroupingObject>)
    ensures r.Err? <==> Grouping(data).Err?
    ensures r.Err? ==> r.error == PushFailure
    ensures r.Ok? ==> forall n :: n in r.value.entries <==> n in r.value.order
    ensures r.Ok? ==> |ObjectKeys(r.value.order)| == |Grouping(data).value|
    ensures r.Ok? ==> forall k :: 0 <= k < |ObjectKeys(r.value.order)| ==>
      var n := ObjectKeys(r.value.order)[k];
      n == Grouping(data).value[k].name && n in r.value.entries && r.value.entries[n] == Grouping(data).value[k].items
  {
    if data.None? {
      GeneralKeys();
      return Ok(GroupingObject(["General"], map["General" := []]));
    }
    r := FillGrouping(data.value);
    if r.Ok? {
      ObjectMatchesGrouping(data.value, r.value);
      assert Grouping(data).value == GroupsOf(data.value);
    }
  }

  // ---------------------------------------------------------------------------------------
  // Formulas
  // ---------------------------------------------------------------------------------------

  /** The formulas the export writes, kept as structure; `FormulaText` prints them. */
  datatype Formula =
    | Ref(col: char, row: int)
    | Num(factor: Factor)
    | Times(a: Formula, b: Formula)
    | Minus(a: Formula, b: Formula)
    | SumOf(sumCol: char, rows: seq<int>)
    | SumRange(rangeCol: char, first: int, last: int)
    | Subtotal(subCol: char, from: int, to: int)

  /** A cell name such as `G12`. */
  function CellName(col: char, row: int): string {
    [col] + IntToString(row)
  }

  function CellNames(col: char, rows: seq<int>): (r: seq<string>)
    ensures |r| == |rows|
  {
    seq(|rows|, k requires 0 <= k < |rows| => CellName(col, rows[k]))
  }

  function Show(f: Formula): string {
    match f
    case Ref(col, row) => CellName(col, row)
    case Num(n) => n.text
    case Times(a, b) => Show(a) + "*" + Show(b)
    case Minus(a, b) => Show(a) + "-" + Show(b)
    case SumOf(col, rows) => "SUM(" + Join(CellNames(col, rows), ",") + ")"
    case SumRange(col, a, b) => "SUM(" + CellName(col, a) + ":" + CellName(col, b) + ")"
    case Subtotal(col, a, b) => "SUBTOTAL(109," + CellName(col, a) + ":" + CellName(col, b) + ")"
  }

  /** The text written into the cell. */
  function FormulaText(f: Formula): string {
    "=" + Show(f)
  }

  /** The text of a sum over listed cells. */
  lemma SumOfText(col: char, rows: seq<int>)
    ensures FormulaText(SumOf(col, rows)) == "=SUM(" + Join(CellNames(col, rows), ",") + ")"
  {
    var x := Join(CellNames(col, rows), ",");
    assert "=" + ("SUM(" + x + ")") == ("=" + "SUM(") + x + ")";
  }

  /** The text of a sum over a range of cells. */
  lemma SumRangeText(col: char, first: int, last: int)
    ensures FormulaText(SumRange(col, first, last)) == "=SUM(" + CellName(col, first) + ":" + CellName(col, last) + ")"
  {
    RangeSumShape(CellName(col, first), CellName(col, last));
  }

  /** The leading `=` joins the `SUM(` of a range sum. */
  lemma RangeSumShape(a: string, b: string)
    ensures "=" + ("SUM(" + a + ":" + b + ")") == "=SUM(" + a + ":" + b + ")"
  {
    var x := a + ":" + b;
    assert "SUM(" + a + ":" + b + ")" == "SUM(" + x + ")";
    assert "=" + ("SUM(" + x + ")") == ("=" + "SUM(") + x + ")";
  }

  /** Formulas built from cell references and numbers alone, which `Eval` can compute. */
  predicate Arithmetic(f: Formula) {
    match f
    case Ref(_, _) => true
    case Num(_) => true
    case SumOf(_, _) => true
    case Times(a, b) => Arithmetic(a) && Arithmetic(b)
    case Minus(a, b) => Arithmetic(a) && Arithmetic(b)
    case SumRange(_, _, _) => false
    case Subtotal(_, _, _) => false
  }

  /** The value of an arithmetic formula, given the values `v` of the cells it refers to. */
  function Eval(f: Formula, v: (char, int) -> real): real
    requires Arithmetic(f)
  {
    match f
    case Ref(col, row) => v(col, row)
    case Num(n) => n.value
    case SumOf(col, rows) => SumCells(col, rows, v)
    case Times(a, b) => Eval(a, v) * Eval(b, v)
    case Minus(a, b) => Eval(a, v) - Eval(b, v)
  }

  function SumCells(col: char, rows: seq<int>, v: (char, int) -> real): real {
    if rows == [] then 0.0 else SumCells(col, rows[..|rows| - 1], v) + v(col, rows[|rows| - 1])
  }

  // ---------------------------------------------------------------------------------------
  // Rows of the table
  // ---------------------------------------------------------------------------------------

  /** A row written to the worksheet: its number and what its cells hold. */
  datatype Line =
    | Headings(row: int, titles: seq<string>)
    | CategoryTitle(row: int, title: string)
    | ItemLine(
        row: int, sku: Option<string>, description: Option<string>, quantity: real,
        metric: Option<string>, unitPrice: real, monthly: Formula, annual: Formula, notes: string)
    | SubtotalLine(row: int, caption: string, monthly: Formula, annual: Formula)
    | SummaryTitle(row: int, title: string)
    | FigureLine(row: int, caption: string, monthly: Formula, annual: Formula)
    | DiscountInput(row: int, caption: string, value: real)
    | Validation(row: int, column: int, lowest: real, highest: real)

  const Headers := [
    "Category", "OCI SKU", "Service Description", "Quantity", "Metric",
    "Unit Price", "Monthly Price", "Annual Price", "Notes"]

  /** The first row of the table; the headings go there. */
  const HeadingRow := 6

  /** `addBOMRow`: quantity defaults to 1, unit price to 0, and the prices are formulas on the row's own cells. */
  function ItemRow(item: BomItem, row: int): (l: Line)
    ensures l.ItemLine? && l.row == row
    ensures Arithmetic(l.monthly) && Arithmetic(l.annual)
  {
    var metric := OrElse(item.metric, item.metricName);
    ItemLine(
      row, OrElse(item.sku, item.partNumber), OrElse(item.description, item.displayName),
      if TruthyNum(item.quantity) then item.quantity.value else 1.0,
      metric,
      if TruthyNum(item.unitPrice) then item.unitPrice.value else 0.0,
      Times(Times(Ref('D', row), Ref('F', row)), Num(MonthlyMultiplier(metric))),
      Times(Ref('G', row), Num(MonthsPerYear)),
      OrEmpty(item.notes))
  }

  /** `addCategorySubtotal`: the subtotal formulas cover the `count` rows above `row`. */
  function SubtotalRow(name: string, count: int, row: int): Line {
    var first := row - count;
    var last := row - 1;
    SubtotalLine(row, name + " Subtotal:", Subtotal('G', first, last), Subtotal('H', first, last))
  }

  /** The item rows of a category, starting at `row`. */
  function ItemRows(items: seq<BomItem>, row: int): (ls: seq<Line>)
    ensures |ls| == |items|
  {
    seq(|items|, k requires 0 <= k < |items| => ItemRow(items[k], row + k))
  }

  /** The rows of one category whose title lands on `top`: title, items, subtotal. */
  function GroupLines(g: Group, top: int): seq<Line> {
    [CategoryTitle(top, ToUpper(g.name))] + ItemRows(g.items, top + 1)
    + [SubtotalRow(g.name, |g.items|, top + 1 + |g.items|)]
  }

  /** The row after the categories that start at `top`, including the two rows each subtotal advances. */
  function TableEnd(gs: seq<Group>, top: int): int {
    if gs == [] then top else TableEnd(gs[..|gs| - 1], top) + |gs[|gs| - 1].items| + 3
  }

  /** The category rows, one category after another from `top`. */
  function Table(gs: seq<Group>, top: int): seq<Line> {
    if gs == [] then []
    else
      var front := gs[..|gs| - 1];
      Table(front, top) + GroupLines(gs[|gs| - 1], TableEnd(front, top))
  }

  /** The rows of the category subtotals, as `subtotalRows` records them. */
  function SubtotalRowsOf(gs: seq<Group>, top: int): seq<int> {
    if gs == [] then []
    else
      var front := gs[..|gs| - 1];
      SubtotalRowsOf(front, top) + [TableEnd(front, top) + 1 + |gs[|gs| - 1].items|]
  }

  /** Every row of `ls` lies in `[lo, hi)` and the rows strictly increase: no row is written twice. */
  predicate RowsWithin(ls: seq<Line>, lo: int, hi: int) {
    (forall k :: 0 <= k < |ls| ==> lo <= ls[k].row < hi)
    && (forall i, j :: 0 <= i < j < |ls| ==> ls[i].row < ls[j].row)
  }

  lemma {:induction false} TableEndGrows(gs: seq<Group>, top: int)
    ensures TableEnd(gs, top) >= top + 3 * |gs|
  {
    if gs != [] {
      TableEndGrows(gs[..|gs| - 1], top);
    }
  }

  /**
   * Category `i` takes its title row, one row per item and a subtotal row, and the next
   * category starts two rows after that subtotal; the subtotal rows strictly increase, one per
   * category, and lie inside the table.
   */
  lemma SubtotalRowsSpec(gs: seq<Group>, top: int)
    ensures |SubtotalRowsOf(gs, top)| == |gs|
    ensures forall i :: 0 <= i < |gs| ==>
      SubtotalRowsOf(gs, top)[i] == TableEnd(gs[..i], top) + 1 + |gs[i].items|
      && TableEnd(gs[..i + 1], top) == SubtotalRowsOf(gs, top)[i] + 2
    ensures forall i, j :: 0 <= i < j < |gs| ==> SubtotalRowsOf(gs, top)[i] < SubtotalRowsOf(gs, top)[j]
    ensures forall i :: 0 <= i < |gs| ==> top < SubtotalRowsOf(gs, top)[i] < TableEnd(gs, top)
  {
    SubtotalRowsNext(gs, top);
    SubtotalRowsOrdered(gs, top);
  }

  /** The subtotal of a category sits after its items, and the next category starts two rows later. */
  lemma SubtotalRowsNext(gs: seq<Group>, top: int)
    ensures |SubtotalRowsOf(gs, top)| == |gs|
    ensures forall i :: 0 <= i < |gs| ==>
      SubtotalRowsOf(gs, top)[i] == TableEnd(gs[..i], top) + 1 + |gs[i].items|
      && TableEnd(gs[..i + 1], top) == SubtotalRowsOf(gs, top)[i] + 2
  {
    SubtotalRowsAt(gs, top);
    forall i | 0 <= i < |gs|
      ensures SubtotalRowsOf(gs, top)[i] == TableEnd(gs[..i], top) + 1 + |gs[i].items|
      ensures TableEnd(gs[..i + 1], top) == SubtotalRowsOf(gs, top)[i] + 2
    {
      TableEndStep(gs, top, i);
    }
  }

  /** The subtotal of the i-th category sits after its items. */
  lemma {:induction false} SubtotalRowsAt(gs: seq<Group>, top: int)
    ensures |SubtotalRowsOf(gs, top)| == |gs|
    ensures forall i :: 0 <= i < |gs| ==> SubtotalRowsOf(gs, top)[i] == TableEnd(gs[..i], top) + 1 + |gs[i].items|
  {
    if gs != [] {
      var front := gs[..|gs| - 1];
      SubtotalRowsAt(front, top);
      var prior := SubtotalRowsOf(front, top);
      var rows := prior + [TableEnd(front, top) + 1 + |gs[|gs| - 1].items|];
      assert SubtotalRowsOf(gs, top) == rows;
      forall i | 0 <= i < |gs|
        ensures rows[i] == TableEnd(gs[..i], top) + 1 + |gs[i].items|
      {
        if i < |front| {
          TakeOfTake(gs, |gs| - 1, i);
          assert rows[i] == prior[i];
        }
      }
    }
  }

  /** The next category starts three rows after the previous one's items end. */
  lemma TableEndStep(gs: seq<Group>, top: int, i: nat)
    requires i < |gs|
    ensures TableEnd(gs[..i + 1], top) == TableEnd(gs[..i], top) + |gs[i].items| + 3
  {
    TakeTake(gs, i);
  }

  /** The subtotal rows strictly increase and lie inside the table. */
  lemma {:induction false} SubtotalRowsOrdered(gs: seq<Group>, top: int)
    ensures |SubtotalRowsOf(gs, top)| == |gs|
    ensures forall i, j :: 0 <= i < j < |gs| ==> SubtotalRowsOf(gs, top)[i] < SubtotalRowsOf(gs, top)[j]
    ensures forall i :: 0 <= i < |gs| ==> top < SubtotalRowsOf(gs, top)[i] < TableEnd(gs, top)
  {
    if gs != [] {
      var front := gs[..|gs| - 1];
      SubtotalRowsOrdered(front, top);
      TableEndGrows(front, top);
      var rows := SubtotalRowsOf(gs, top);
      assert rows == SubtotalRowsOf(front, top) + [TableEnd(front, top) + 1 + |gs[|gs| - 1].items|];
      assert TableEnd(gs, top) == rows[|gs| - 1] + 2;
    }
  }


  /** The rows of one category lie in `[top, top + |items| + 2)`, strictly increasing. */
  lemma GroupLinesRows(g: Group, top: int)
    ensures RowsWithin(GroupLines(g, top), top, top + |g.items| + 2)
  {
    var ls := GroupLines(g, top);
    assert forall k :: 1 <= k <= |g.items| ==> ls[k] == ItemRow(g.items[k - 1], top + k);
  }

  lemma RowsWithinAppend(a: seq<Line>, b: seq<Line>, lo: int, mid: int, hi: int)
    requires RowsWithin(a, lo, mid) && RowsWithin(b, mid, hi) && lo <= mid <= hi
    ensures RowsWithin(a + b, lo, hi)
  {
    var ab := a + b;
    forall k | 0 <= k < |ab|
      ensures lo <= ab[k].row < hi
    {
      if k < |a| {
        assert ab[k] == a[k];
      } else {
        assert ab[k] == b[k - |a|];
      }
    }
    forall i, j | 0 <= i < j < |ab|
      ensures ab[i].row < ab[j].row
    {
      if j < |a| {
        assert ab[i] == a[i] && ab[j] == a[j];
      } else if i >= |a| {
        assert ab[i] == b[i - |a|] && ab[j] == b[j - |a|];
      } else {
        assert ab[i] == a[i] && ab[j] == b[j - |a|];
      }
    }
  }

  /** The table rows lie between `top` and `TableEnd`, and no row is written twice. */
  lemma {:induction false} TableRows(gs: seq<Group>, top: int)
    ensures RowsWithin(Table(gs, top), top, TableEnd(gs, top))
  {
    if gs != [] {
      var front := gs[..|gs| - 1];
      TableRows(front, top);
      TableEndGrows(front, top);
      GroupLinesRows(gs[|gs| - 1], TableEnd(front, top));
      RowsWithinAppend(Table(front, top), GroupLines(gs[|gs| - 1], TableEnd(front, top)),
        top, TableEnd(front, top), TableEnd(gs, top));
    }
  }

  /**
   * The subtotal of a category sums exactly its item rows: the range runs from the first item
   * row to the last. For an empty category the range is inverted (its first row is the
   * subtotal row itself).
   */
  lemma SubtotalCoversItems(g: Group, top: int)
    ensures var ls := GroupLines(g, top);
      var n := |g.items|;
      && ls[n + 1].SubtotalLine?
      && ls[n + 1].monthly == Subtotal('G', top + 1, top + n)
      && ls[n + 1].annual == Subtotal('H', top + 1, top + n)
      && (forall k :: 1 <= k <= n ==> ls[k].ItemLine? && ls[k].row == top + k && ls[k] == ItemRow(g.items[k - 1], top + k))
      && (n == 0 ==> ls[n + 1].monthly.from == ls[n + 1].row)
  {
    var ls := GroupLines(g, top);
    assert forall k :: 1 <= k <= |g.items| ==> ls[k] == ItemRow(g.items[k - 1], top + k);
  }

  /**
   * An item's monthly price is quantity × unit price × the multiplier of its metric, and its
   * annual price is twelve times the monthly price of the same row.
   */
  lemma ItemPrices(item: BomItem, row: int, v: (char, int) -> real)
    requires v('D', row) == ItemRow(item, row).quantity
    requires v('F', row) == ItemRow(item, row).unitPrice
    ensures var l := ItemRow(item, row);
      && Eval(l.monthly, v) == l.quantity * l.unitPrice * MonthlyMultiplier(l.metric).value
      && Eval(l.annual, v) == v('G', row) * 12.0
      && l.quantity != 0.0
  {
    var l := ItemRow(item, row);
    var m := MonthlyMultiplier(l.metric);
    assert l.monthly == Times(Times(Ref('D', row), Ref('F', row)), Num(m));
    assert Eval(Times(Ref('D', row), Ref('F', row)), v) == l.quantity * l.unitPrice;
  }

  /** An hourly item on row 8 gets `=D8*F8*744` and `=G8*12`. */
  lemma HourlyItemText(item: BomItem)
    requires item.metric == Some("GB Hour")
    ensures FormulaText(ItemRow(item, 8).monthly) == "=D8*F8*744"
    ensures FormulaText(ItemRow(item, 8).annual) == "=G8*12"
  {
    GbHourIsHourly();
    RowEightTexts();
  }

  /** The texts of the row-8 hourly formulas. */
  lemma RowEightTexts()
    ensures FormulaText(Times(Times(Ref('D', 8), Ref('F', 8)), Num(PerHour))) == "=D8*F8*744"
    ensures FormulaText(Times(Ref('G', 8), Num(MonthsPerYear))) == "=G8*12"
  {
    assert NatToString(8) == "8";
  }

  // ---------------------------------------------------------------------------------------
  // The pricing summary
  // ---------------------------------------------------------------------------------------

  const SummaryHeading := "PRICING SUMMARY & DISCOUNT CALCULATOR"

  /**
   * `addSummarySection` below a table that ended at `startRow`: the totals (the tracked
   * subtotal cells, or the whole data range when none were tracked), the discount input, the
   * discount amount, the final total, and the [0, 1] validation on the discount input.
   */
  function Summary(startRow: int, subtotalRows: seq<int>): seq<Line> {
    var top := startRow + 3;
    var total := top + 2;
    var dataEnd := startRow - 1;
    var monthly := if |subtotalRows| > 0 then SumOf('G', subtotalRows) else SumRange('G', 7, dataEnd);
    var annual := if |subtotalRows| > 0 then SumOf('H', subtotalRows) else SumRange('H', 7, dataEnd);
    var discount := total + 1;
    var amount := discount + 1;
    var final := amount + 1;
    [ SummaryTitle(top, SummaryHeading),
      FigureLine(total, "Total Monthly (Before Discount):", monthly, annual),
      DiscountInput(discount, "Discount Percentage:", 0.0),
      FigureLine(amount, "Discount Amount:",
        Times(Ref('G', amount - 2), Ref('G', amount - 1)), Times(Ref('H', amount - 2), Ref('G', amount - 1))),
      FigureLine(final, "FINAL TOTAL:",
        CellDifference('G', final - 3, final - 1), CellDifference('H', final - 3, final - 1)),
      Validation(final - 2, 7, 0.0, 1.0) ]
  }

  /** The formula `=<col><x>-<col><y>`, which evaluates to a number. */
  function CellDifference(col: char, x: int, y: int): (f: Formula)
    ensures Arithmetic(f)
  {
    Minus(Ref(col, x), Ref(col, y))
  }

  /**
   * The summary's formulas refer to the right rows: with total row `t`, the discount amount is
   * G(t) × G(t+1), the final total is G(t) − G(t+2), and the [0, 1] validation sits on the
   * discount input cell G(t+1). When the spreadsheet holds the computed amount, the final total
   * is total × (1 − discount), which a valid discount keeps between 0 and the total.
   */
  lemma SummarySpec(startRow: int, subtotalRows: seq<int>, v: (char, int) -> real)
    requires var t := startRow + 5;
      v('G', t + 2) == v('G', t) * v('G', t + 1)
    ensures var ls := Summary(startRow, subtotalRows);
      var t := startRow + 5;
      && ls[1].row == t && ls[2].row == t + 1 && ls[3].row == t + 2 && ls[4].row == t + 3
      && ls[3].monthly == Times(Ref('G', t), Ref('G', t + 1))
      && ls[4].monthly == Minus(Ref('G', t), Ref('G', t + 2))
      && ls[4].annual == Minus(Ref('H', t), Ref('H', t + 2))
      && ls[5].row == ls[2].row && ls[5].column == 7
    ensures var t := startRow + 5;
      var finalTotal := CellDifference('G', t, t + 2);
      && Eval(finalTotal, v) == v('G', t) * (1.0 - v('G', t + 1))
      && (0.0 <= v('G', t + 1) <= 1.0 && 0.0 <= v('G', t) ==> 0.0 <= Eval(finalTotal, v) <= v('G', t))
  {
    var t := startRow + 5;
    var ls := Summary(startRow, subtotalRows);
    assert ls[4].monthly == Minus(Ref('G', t), Ref('G', t + 2));
    assert Eval(CellDifference('G', t, t + 2), v) == v('G', t) - v('G', t + 2);
    Discounted(v('G', t), v('G', t + 1));
  }

  /** Taking the discount amount `total × d` off leaves `total × (1 − d)`, between 0 and the total for `d` in [0, 1]. */
  lemma Discounted(total: real, d: real)
    ensures total - total * d == total * (1.0 - d)
    ensures 0.0 <= d <= 1.0 && 0.0 <= total ==> 0.0 <= total - total * d <= total
  {
    if 0.0 <= d <= 1.0 && 0.0 <= total {
      assert 0.0 <= total * d;
      assert total * d <= total * 1.0;
    }
  }

  /**
   * The before-discount totals add up the tracked subtotal cells; with none tracked they fall
   * back to the range from row 7 to the row above the summary's start.
   */
  lemma SummaryTotals(startRow: int, subtotalRows: seq<int>, v: (char, int) -> real)
    ensures var l := Summary(startRow, subtotalRows)[1];
      && (|subtotalRows| > 0 ==> Eval(l.monthly, v) == SumCells('G', subtotalRows, v) && Eval(l.annual, v) == SumCells('H', subtotalRows, v))
      && (|subtotalRows| == 0 ==> l.monthly == SumRange('G', 7, startRow - 1) && l.annual == SumRange('H', 7, startRow - 1))
  {
    SummaryTotalFormulas(startRow, subtotalRows);
  }

  /** The two before-discount formulas of the summary. */
  lemma SummaryTotalFormulas(startRow: int, subtotalRows: seq<int>)
    ensures var l := Summary(startRow, subtotalRows)[1];
      && l.monthly == (if |subtotalRows| > 0 then SumOf('G', subtotalRows) else SumRange('G', 7, startRow - 1))
      && l.annual == (if |subtotalRows| > 0 then SumOf('H', subtotalRows) else SumRange('H', 7, startRow - 1))
  {
  }

  /** The summary rows come after the table: its first row is three below the table's end. */
  lemma SummaryRows(startRow: int, subtotalRows: seq<int>)
    ensures RowsWithin(Summary(startRow, subtotalRows)[..5], startRow + 3, startRow + 9)
  {
  }

  // ---------------------------------------------------------------------------------------
  // The worksheet and the generator
  // ---------------------------------------------------------------------------------------

  /** The worksheet, as the rows written to it in order. */
  class Worksheet {
    var lines: seq<Line>

    constructor ()
      ensures lines == []
    {
      lines := [];
    }
  }

  /** Marks `Subtotal:` in a column-A label, as `createSubtotalFormula` looks for it. */
  predicate IsSubtotalLabel(cellA: Option<string>) {
    Truthy(cellA) && Contains(cellA.value, "Subtotal:")
  }

  /** The rows in `[first, last]` whose column-A value marks a subtotal, in row order. */
  function MarkedRows(lines: seq<Line>, first: int, last: int): seq<int>
    decreases last - first
  {
    if last < first then []
    else MarkedRows(lines, first, last - 1) + (if IsSubtotalLabel(CellA(lines, last)) then [last] else [])
  }

  /** Exactly the marked rows of the range are listed, in increasing order. */
  lemma {:induction false} MarkedRowsSpec(lines: seq<Line>, first: int, last: int)
    ensures forall r :: r in MarkedRows(lines, first, last) <==> first <= r <= last && IsSubtotalLabel(CellA(lines, r))
    ensures forall i, j :: 0 <= i < j < |MarkedRows(lines, first, last)| ==>
      MarkedRows(lines, first, last)[i] < MarkedRows(lines, first, last)[j]
    decreases last - first
  {
    if first <= last {
      MarkedRowsSpec(lines, first, last - 1);
      var prior := MarkedRows(lines, first, last - 1);
      assert forall k :: 0 <= k < |prior| ==> prior[k] in prior;
    }
  }

  lemma CellNamesAppend(col: char, rows: seq<int>, row: int)
    ensures CellNames(col, rows + [row]) == CellNames(col, rows) + [CellName(col, row)]
  {
  }

  /** `String.fromCharCode(64 + column)`, for the columns whose code is a Unicode scalar value below the surrogates. */
  function ColumnLetter(column: nat): char
    requires 64 + column < 0xD800
  {
    (64 + column) as char
  }

  /** The formula `createSubtotalFormula` builds: the marked cells, or the whole range when none is marked. */
  function SubtotalSum(lines: seq<Line>, column: nat, first: int, last: int): Formula
    requires 64 + column < 0xD800
  {
    var marked := MarkedRows(lines, first, last);
    if marked == [] then SumRange(ColumnLetter(column), first, last) else SumOf(ColumnLetter(column), marked)
  }

  /** What a row writes into column A, if anything. */
  function ColumnA(l: Line): Option<string> {
    match l
    case Headings(_, titles) => if titles == [] then None else Some(titles[0])
    case CategoryTitle(_, title) => Some(title)
    case ItemLine(_, _, _, _, _, _, _, _, _) => Some("")
    case SubtotalLine(_, caption, _, _) => Some(caption)
    case SummaryTitle(_, title) => Some(title)
    case FigureLine(_, _, _, _) => None
    case DiscountInput(_, _, _) => None
    case Validation(_, _, _, _) => None
  }

  /** Column A of row `r` once `lines` are written: the last write to it wins. */
  function CellA(lines: seq<Line>, r: int): Option<string> {
    if lines == [] then None
    else
      var last := lines[|lines| - 1];
      if last.row == r && ColumnA(last).Some? then ColumnA(last) else CellA(lines[..|lines| - 1], r)
  }

  lemma {:induction false} CellAAppend(a: seq<Line>, b: seq<Line>, r: int)
    ensures CellA(a + b, r) == if CellA(b, r).Some? then CellA(b, r) else CellA(a, r)
  {
    if b != [] {
      var front := b[..|b| - 1];
      assert (a + b)[..|a + b| - 1] == a + front;
      assert (a + b)[|a + b| - 1] == b[|b| - 1];
      CellAAppend(a, front, r);
    } else {
      assert a + b == a;
    }
  }

  lemma {:induction false} CellAMissing(lines: seq<Line>, r: int)
    requires forall k :: 0 <= k < |lines| ==> lines[k].row != r
    ensures CellA(lines, r) == None
  {
    if lines != [] {
      CellAMissing(lines[..|lines| - 1], r);
    }
  }

  /** When row `r` is written once, column A holds what that write put there. */
  lemma {:induction false} CellAOnce(lines: seq<Line>, k: int)
    requires 0 <= k < |lines|
    requires forall i, j :: 0 <= i < j < |lines| ==> lines[i].row < lines[j].row
    ensures CellA(lines, lines[k].row) == ColumnA(lines[k])
  {
    var front := lines[..|lines| - 1];
    if k == |lines| - 1 {
      if ColumnA(lines[k]).None? {
        CellAMissing(front, lines[k].row);
      }
    } else {
      CellAOnce(front, k);
    }
  }

  lemma {:induction false} MarkedSplit(lines: seq<Line>, first: int, mid: int, last: int)
    requires first <= mid <= last + 1
    ensures MarkedRows(lines, first, last) == MarkedRows(lines, first, mid - 1) + MarkedRows(lines, mid, last)
    decreases last - first
  {
    if mid <= last {
      MarkedSplit(lines, first, mid, last - 1);
    }
  }

  lemma {:induction false} MarkedAgree(a: seq<Line>, b: seq<Line>, first: int, last: int)
    requires forall r :: first <= r <= last ==> CellA(a, r) == CellA(b, r)
    ensures MarkedRows(a, first, last) == MarkedRows(b, first, last)
    decreases last - first
  {
    if first <= last {
      MarkedAgree(a, b, first, last - 1);
    }
  }

  lemma {:induction false} NoneMarked(lines: seq<Line>, first: int, last: int)
    requires forall r :: first <= r <= last ==> !IsSubtotalLabel(CellA(lines, r))
    ensures MarkedRows(lines, first, last) == []
    decreases last - first
  {
    if first <= last {
      NoneMarked(lines, first, last - 1);
    }
  }

  /** Column A of a category's title row holds the upper-cased name, which carries no subtotal label. */
  lemma TitleUnmarked(g: Group, top: int)
    ensures !IsSubtotalLabel(CellA(GroupLines(g, top), top))
  {
    GroupLinesRows(g, top);
    CellAOnce(GroupLines(g, top), 0);
    LacksChar(ToUpper(g.name), "Subtotal:", 'u');
  }

  /** Column A of an item row is empty. */
  lemma ItemUnmarked(g: Group, top: int, k: int)
    requires 1 <= k <= |g.items|
    ensures CellA(GroupLines(g, top), top + k) == Some("")
  {
    GroupLinesRows(g, top);
    GroupLineItem(g, top, k);
    ItemLineUnmarked(GroupLines(g, top), k);
  }

  /** Line `k` of a category, for `k` from 1 to the item count, is the item row on row `top + k`. */
  lemma GroupLineItem(g: Group, top: int, k: int)
    requires 1 <= k <= |g.items|
    ensures k < |GroupLines(g, top)| && GroupLines(g, top)[k].ItemLine? && GroupLines(g, top)[k].row == top + k
  {
    var rows := ItemRows(g.items, top + 1);
    assert GroupLines(g, top)[k] == rows[k - 1];
  }

  /** Column A of a row written once, by an item row, is empty. */
  lemma ItemLineUnmarked(lines: seq<Line>, k: int)
    requires 0 <= k < |lines| && lines[k].ItemLine?
    requires forall i, j :: 0 <= i < j < |lines| ==> lines[i].row < lines[j].row
    ensures CellA(lines, lines[k].row) == Some("")
  {
    CellAOnce(lines, k);
  }

  /** Column A of the subtotal row holds `<name> Subtotal:`; the row below it is left blank. */
  lemma SubtotalMarked(g: Group, top: int)
    ensures IsSubtotalLabel(CellA(GroupLines(g, top), top + |g.items| + 1))
    ensures CellA(GroupLines(g, top), top + |g.items| + 2) == None
  {
    var n := |g.items|;
    GroupLinesRows(g, top);
    GroupLineSubtotal(g, top);
    SubtotalCaption(g.name);
    CellAOnce(GroupLines(g, top), n + 1);
    CellAMissing(GroupLines(g, top), top + n + 2);
  }

  /** The last line of a category is its subtotal row, right after its item rows. */
  lemma GroupLineSubtotal(g: Group, top: int)
    ensures |GroupLines(g, top)| == |g.items| + 2
    ensures GroupLines(g, top)[|g.items| + 1] == SubtotalRow(g.name, |g.items|, top + |g.items| + 1)
  {
  }

  /** A subtotal caption carries the subtotal label. */
  lemma SubtotalCaption(name: string)
    ensures IsSubtotalLabel(Some(name + " Subtotal:"))
  {
    var caption := name + " Subtotal:";
    assert caption[|name| + 1..|name| + 10] == "Subtotal:";
    assert StartsAt(caption, |name| + 1, "Subtotal:");
  }

  /** Only the subtotal row of a category carries a subtotal label. */
  lemma GroupCells(g: Group, top: int)
    ensures forall r :: top <= r <= top + |g.items| ==> !IsSubtotalLabel(CellA(GroupLines(g, top), r))
    ensures IsSubtotalLabel(CellA(GroupLines(g, top), top + |g.items| + 1))
    ensures CellA(GroupLines(g, top), top + |g.items| + 2) == None
  {
    forall r | top <= r <= top + |g.items|
      ensures !IsSubtotalLabel(CellA(GroupLines(g, top), r))
    {
      if r == top {
        TitleUnmarked(g, top);
      } else {
        ItemUnmarked(g, top, r - top);
      }
    }
    SubtotalMarked(g, top);
  }

  /** Within one category only the subtotal row is marked. */
  lemma GroupMarked(g: Group, top: int)
    ensures MarkedRows(GroupLines(g, top), top, top + |g.items| + 2) == [top + |g.items| + 1]
  {
    GroupCells(g, top);
    NoneMarked(GroupLines(g, top), top, top + |g.items|);
    MarkedOnlyAt(GroupLines(g, top), top, top + |g.items| + 1);
  }

  /** When nothing from `first` up to `r - 1` is marked, `r` is, and `r + 1` is empty, the scan finds just `r`. */
  lemma MarkedOnlyAt(ls: seq<Line>, first: int, r: int)
    requires first <= r
    requires MarkedRows(ls, first, r - 1) == [] && IsSubtotalLabel(CellA(ls, r)) && CellA(ls, r + 1) == None
    ensures MarkedRows(ls, first, r + 1) == [r]
  {
    AppendEmpty([r]);
    AppendNil(MarkedRows(ls, first, r));
  }

  /** Appending rows at or after `e` leaves column A of the rows above `e` as it was, and vice versa. */
  lemma SplitCells(before: seq<Line>, group: seq<Line>, top: int, e: int, end: int)
    requires RowsWithin(before, top, e) && RowsWithin(group, e, end)
    ensures forall r :: r < e ==> CellA(before + group, r) == CellA(before, r)
    ensures forall r :: r >= e ==> CellA(before + group, r) == CellA(group, r)
  {
    forall r | r < e
      ensures CellA(before + group, r) == CellA(before, r)
    {
      CellAAppend(before, group, r);
      CellAMissing(group, r);
    }
    forall r | r >= e
      ensures CellA(before + group, r) == CellA(group, r)
    {
      CellAAppend(before, group, r);
      CellAMissing(before, r);
    }
  }

  /** Scanning rows written in two consecutive bands is scanning each band on its own. */
  lemma MarkedConcat(before: seq<Line>, group: seq<Line>, top: int, e: int, last: int)
    requires top <= e <= last + 1
    requires RowsWithin(before, top, e) && RowsWithin(group, e, last + 1)
    ensures MarkedRows(before + group, top, last) == MarkedRows(before, top, e - 1) + MarkedRows(group, e, last)
  {
    SplitCells(before, group, top, e, last + 1);
    MarkedSplit(before + group, top, e, last);
    MarkedAgree(before + group, before, top, e - 1);
    MarkedAgree(before + group, group, e, last);
  }

  /**
   * On a finished table, the column-A scan of `createSubtotalFormula` finds exactly the
   * subtotal rows `addBOMTable` records, in order.
   */
  lemma {:induction false} TableMarked(gs: seq<Group>, top: int)
    ensures MarkedRows(Table(gs, top), top, TableEnd(gs, top) - 1) == SubtotalRowsOf(gs, top)
  {
    if gs != [] {
      var front, g := gs[..|gs| - 1], gs[|gs| - 1];
      var e := TableEnd(front, top);
      TableMarked(front, top);
      TableRows(front, top);
      TableEndGrows(front, top);
      GroupAfterMarked(Table(front, top), g, top, e - 1, e, SubtotalRowsOf(front, top));
      TableStep(gs, top);
    }
  }

  /** A table of one more category: the last category's block after the others, two rows further on. */
  lemma TableStep(gs: seq<Group>, top: int)
    requires gs != []
    ensures var front, g := gs[..|gs| - 1], gs[|gs| - 1];
      && Table(gs, top) == Table(front, top) + GroupLines(g, TableEnd(front, top))
      && TableEnd(gs, top) - 1 == TableEnd(front, top) + |g.items| + 2
      && SubtotalRowsOf(gs, top) == SubtotalRowsOf(front, top) + [TableEnd(front, top) + |g.items| + 1]
  {
  }

  /** Appending a category's block at row `e`, after rows `[top, last]`, marks exactly its subtotal row. */
  lemma GroupAfterMarked(before: seq<Line>, g: Group, top: int, last: int, e: int, prior: seq<int>)
    requires e == last + 1 && top <= e
    requires RowsWithin(before, top, e) && MarkedRows(before, top, last) == prior
    ensures MarkedRows(before + GroupLines(g, e), top, e + |g.items| + 2) == prior + [e + |g.items| + 1]
  {
    GroupLinesRows(g, e);
    MarkedConcat(before, GroupLines(g, e), top, e, e + |g.items| + 2);
    GroupMarked(g, e);
    ConcatOfEqual(MarkedRows(before + GroupLines(g, e), top, e + |g.items| + 2),
      MarkedRows(before, top, e - 1), MarkedRows(GroupLines(g, e), e, e + |g.items| + 2),
      prior, [e + |g.items| + 1]);
  }

  /**
   * `createSubtotalFormula` over the data rows of a finished, non-empty table sums exactly the
   * category subtotal cells, the same cells the summary's total adds up.
   */
  lemma SubtotalSumOfTable(gs: seq<Group>, column: nat)
    requires gs != [] && 64 + column < 0xD800
    ensures SubtotalSum(Table(gs, HeadingRow + 1), column, HeadingRow + 1, TableEnd(gs, HeadingRow + 1) - 1)
      == SumOf(ColumnLetter(column), SubtotalRowsOf(gs, HeadingRow + 1))
  {
    TableMarked(gs, HeadingRow + 1);
    SubtotalRowsLength(gs, HeadingRow + 1);
  }

  /** One subtotal row per category. */
  lemma {:induction false} SubtotalRowsLength(gs: seq<Group>, top: int)
    ensures |SubtotalRowsOf(gs, top)| == |gs|
  {
    if gs != [] {
      SubtotalRowsLength(gs[..|gs| - 1], top);
    }
  }

  class ExcelGenerator {
    var subtotalRows: seq<int>

    constructor ()
      ensures subtotalRows == []
    {
      subtotalRows := [];
    }

    /** `addBOMRow`. */
    method AddBomRow(sheet: Worksheet, row: int, item: BomItem)
      modifies sheet
      ensures sheet.lines == old(sheet.lines) + [ItemRow(item, row)]
    {
      sheet.lines := sheet.lines + [ItemRow(item, row)];
    }

    /** `addCategorySubtotal`. */
    method AddCategorySubtotal(sheet: Worksheet, row: int, name: string, items: seq<BomItem>)
      modifies sheet
      ensures sheet.lines == old(sheet.lines) + [SubtotalRow(name, |items|, row)]
    {
      sheet.lines := sheet.lines + [SubtotalRow(name, |items|, row)];
    }

    /** The title, item rows and subtotal of one category, from `row`; returns the row after its subtotal. */
    method AddGroup(sheet: Worksheet, row: int, g: Group) returns (next: int)
      modifies sheet
      ensures sheet.lines == old(sheet.lines) + GroupLines(g, row)
      ensures next == row + 1 + |g.items|
    {
      sheet.lines := sheet.lines + [CategoryTitle(row, ToUpper(g.name))];
      next := row + 1;
      var k := 0;
      while k < |g.items|
        invariant 0 <= k <= |g.items|
        invariant next == row + 1 + k
        invariant sheet.lines == old(sheet.lines) + [CategoryTitle(row, ToUpper(g.name))] + ItemRows(g.items[..k], row + 1)
      {
        AddBomRow(sheet, next, g.items[k]);
        assert ItemRows(g.items[..k + 1], row + 1) == ItemRows(g.items[..k], row + 1) + [ItemRow(g.items[k], next)];
        next := next + 1;
        k := k + 1;
      }
      assert g.items[..k] == g.items;
      AddCategorySubtotal(sheet, next, g.name, g.items);
    }

    /**
     * The category loop of `addBOMTable`: each group from `top` on, recording its subtotal row;
     * returns the row after the last one.
     */
    method AddGroups(sheet: Worksheet, gs: seq<Group>, top: int) returns (next: int)
      modifies this, sheet
      ensures sheet.lines == old(sheet.lines) + Table(gs, top)
      ensures subtotalRows == old(subtotalRows) + SubtotalRowsOf(gs, top)
      ensures next == TableEnd(gs, top)
    {
      next := top;
      var i := 0;
      while i < |gs|
        invariant 0 <= i <= |gs|
        invariant sheet.lines == old(sheet.lines) + Table(gs[..i], top)
        invariant subtotalRows == old(subtotalRows) + SubtotalRowsOf(gs[..i], top)
        invariant next == TableEnd(gs[..i], top)
      {
        ghost var front := gs[..i];
        ghost var grown := gs[..i + 1];
        TakeTake(gs, i);
        assert Table(grown, top) == Table(front, top) + GroupLines(gs[i], next);
        assert SubtotalRowsOf(grown, top) == SubtotalRowsOf(front, top) + [next + 1 + |gs[i].items|];
        assert TableEnd(grown, top) == next + |gs[i].items| + 3;
        AppendAssoc(old(sheet.lines), Table(front, top), GroupLines(gs[i], next));
        var row := AddGroup(sheet, next, gs[i]);
        AppendAssoc(old(subtotalRows), SubtotalRowsOf(front, top), [row]);
        subtotalRows := subtotalRows + [row];
        next := row + 2;
        i := i + 1;
      }
      assert gs[..i] == gs;
    }

    /**
     * `addBOMTable`: the headings on row 6, then each category in `Object.keys` order;
     * `subtotalRows` records each subtotal row, and the row after the table is returned. The
     * grouping's failure leaves the headings written and no subtotal row recorded.
     */
    method AddBomTable(sheet: Worksheet, data: Option<seq<BomItem>>) returns (r: Result<int>)
      modifies this, sheet
      ensures r.Err? <==> Grouping(data).Err?
      ensures r.Err? ==> r.error == PushFailure && subtotalRows == []
      ensures r.Err? ==> sheet.lines == old(sheet.lines) + [Headings(HeadingRow, Headers)]
      ensures r.Ok? ==> sheet.lines == old(sheet.lines) + [Headings(HeadingRow, Headers)] + Table(Grouping(data).value, HeadingRow + 1)
      ensures r.Ok? ==> subtotalRows == SubtotalRowsOf(Grouping(data).value, HeadingRow + 1)
      ensures r.Ok? ==> r.value == TableEnd(Grouping(data).value, HeadingRow + 1)
    {
      subtotalRows := [];
      sheet.lines := sheet.lines + [Headings(HeadingRow, Headers)];
      var grouping := GroupByCategory(data);
      if grouping.Err? {
        return Err(grouping.error);
      }
      var keys := ObjectKeys(grouping.value.order);
      var entries := grouping.value.entries;
      var gs := seq(|keys|, k requires 0 <= k < |keys| => Group(keys[k], entries[keys[k]]));
      assert gs == Grouping(data).value;
      var next := AddGroups(sheet, gs, HeadingRow + 1);
      r := Ok(next);
    }

    /** `addSummarySection` below the table that ended at `startRow`. */
    method AddSummarySection(sheet: Worksheet, startRow: int)
      modifies sheet
      ensures sheet.lines == old(sheet.lines) + Summary(startRow, subtotalRows)
    {
      var top := startRow + 3;
      sheet.lines := sheet.lines + [SummaryTitle(top, SummaryHeading)];
      var row := top + 2;
      var dataEnd := startRow - 1;
      var monthly, annual;
      if |subtotalRows| > 0 {
        monthly, annual := SumOf('G', subtotalRows), SumOf('H', subtotalRows);
      } else {
        monthly, annual := SumRange('G', 7, dataEnd), SumRange('H', 7, dataEnd);
      }
      sheet.lines := sheet.lines + [FigureLine(row, "Total Monthly (Before Discount):", monthly, annual)];
      row := row + 1;
      sheet.lines := sheet.lines + [DiscountInput(row, "Discount Percentage:", 0.0)];
      row := row + 1;
      sheet.lines := sheet.lines + [FigureLine(row, "Discount Amount:",
        Times(Ref('G', row - 2), Ref('G', row - 1)), Times(Ref('H', row - 2), Ref('G', row - 1)))];
      row := row + 1;
      sheet.lines := sheet.lines + [FigureLine(row, "FINAL TOTAL:",
        Minus(Ref('G', row - 3), Ref('G', row - 1)), Minus(Ref('H', row - 3), Ref('H', row - 1)))];
      sheet.lines := sheet.lines + [Validation(row - 2, 7, 0.0, 1.0)];
    }

    /**
     * The main sheet of `createBOM`: the table from row 6, then the summary three rows below
     * the table's end, its totals over the subtotal rows the table recorded. A failed grouping
     * aborts the export with the error wrapped as "Failed to create Excel file: ...".
     */
    method CreateBom(data: Option<seq<BomItem>>) returns (r: Result<Worksheet>)
      modifies this
      ensures r.Err? <==> Grouping(data).Err?
      ensures r.Err? ==> r.error == ExportFailurePrefix + PushFailure
      ensures r.Ok? ==> fresh(r.value)
      ensures r.Ok? ==> subtotalRows == SubtotalRowsOf(Grouping(data).value, HeadingRow + 1)
      ensures r.Ok? ==>
        r.value.lines == [Headings(HeadingRow, Headers)] + Table(Grouping(data).value, HeadingRow + 1)
          + Summary(TableEnd(Grouping(data).value, HeadingRow + 1), subtotalRows)
    {
      var sheet := new Worksheet();
      var startRow := AddBomTable(sheet, data);
      if startRow.Err? {
        return Err(ExportFailurePrefix + startRow.error);
      }
      AppendEmpty([Headings(HeadingRow, Headers)]);
      AddSummarySection(sheet, startRow.value);
      r := Ok(sheet);
    }

    /** The scan of `createSubtotalFormula`: the names of the marked cells of `startRow..endRow`. */
    method MarkedCells(sheet: Worksheet, letter: char, startRow: int, endRow: int) returns (cells: seq<string>)
      ensures cells == CellNames(letter, MarkedRows(sheet.lines, startRow, endRow))
    {
      cells := [];
      ghost var marked: seq<int> := [];
      var row := startRow;
      while row <= endRow
        invariant startRow <= row <= (if endRow < startRow then startRow else endRow + 1)
        invariant marked == MarkedRows(sheet.lines, startRow, row - 1)
        invariant cells == CellNames(letter, marked)
        decreases endRow - row
      {
        var cellA := CellA(sheet.lines, row);
        if IsSubtotalLabel(cellA) {
          CellNamesAppend(letter, marked, row);
          cells := cells + [CellName(letter, row)];
          marked := marked + [row];
        }
        row := row + 1;
      }
    }

    /**
     * `createSubtotalFormula`: sums the cells of `column` whose column-A label marks a subtotal,
     * or the whole range `startRow..endRow` when there are none.
     */
    method CreateSubtotalFormula(sheet: Worksheet, column: nat, startRow: int, endRow: int) returns (f: string)
      requires 64 + column < 0xD800
      ensures f == FormulaText(SubtotalSum(sheet.lines, column, startRow, endRow))
    {
      var letter := ColumnLetter(column);
      var cells := MarkedCells(sheet, letter, startRow, endRow);
      if cells == [] {
        SumRangeText(letter, startRow, endRow);
        return "=SUM(" + CellName(letter, startRow) + ":" + CellName(letter, endRow) + ")";
      }
      SumOfText(letter, MarkedRows(sheet.lines, startRow, endRow));
      f := "=SUM(" + Join(cells, ",") + ")";
    }
  }
}
