/** The filtering and counting of src/components/pages/RangeAnalysis.tsx over its fixed
    list of five products: the table filter by category, status and search term, the
    status counts of the summary cards, and the recommendations tab. */
module RangeAnalysis {
  import opened JsText

  /** One row of `rangeData`. `margin` and `velocity` are kept in tenths. */
  datatype RangeItem = RangeItem(
    id: string,
    name: string,
    category: string,
    status: string,
    revenue: nat,
    marginTenths: nat,
    velocityTenths: nat,
    inventory: nat,
    forecast: string,
    recommendation: string,
    score: nat)

  function RangeData(): seq<RangeItem> {
    [RangeItem("SKU001", "Premium Wireless Headphones", "Electronics", "performing",
               45000, 325, 82, 156, "growing", "expand", 92),
     RangeItem("SKU002", "Organic Cotton T-Shirt", "Apparel", "underperforming",
               12000, 281, 31, 340, "declining", "reduce", 45),
     RangeItem("SKU003", "Smart Home Security Camera", "Electronics", "performing",
               38000, 412, 68, 89, "stable", "maintain", 78),
     RangeItem("SKU004", "Yoga Mat Premium", "Sports", "opportunity",
               8500, 458, 123, 45, "growing", "expand", 88),
     RangeItem("SKU005", "Kitchen Knife Set", "Home & Garden", "at_risk",
               22000, 185, 21, 280, "declining", "discontinue", 32)]
  }

  /** `items.filter(keep)`. */
  function FilterBy(items: seq<RangeItem>, keep: RangeItem -> bool): seq<RangeItem> {
    if |items| == 0 then []
    else (if keep(items[0]) then [items[0]] else []) + FilterBy(items[1..], keep)
  }

  /** The filter predicate of the table: `'all'` switches the category or status test
      off, and the search term is matched case-insensitively in the name or the id. */
  predicate Matches(item: RangeItem, category: string, status: string, search: string) {
    (category == "all" || item.category == category) &&
    (status == "all" || item.status == status) &&
    (Includes(ToLower(item.name), ToLower(search)) || Includes(ToLower(item.id), ToLower(search)))
  }

  /** `filteredData`. */
  function Filtered(items: seq<RangeItem>, category: string, status: string, search: string): seq<RangeItem> {
    FilterBy(items, (item: RangeItem) => Matches(item, category, status, search))
  }

  /** The recommendations tab: the filtered items not marked `maintain`. */
  function Recommended(filtered: seq<RangeItem>): seq<RangeItem> {
    FilterBy(filtered, (item: RangeItem) => item.recommendation != "maintain")
  }

  /** The revenue impact shown for a recommendation. */
  function ImpactLabel(recommendation: string): string {
    if recommendation == "expand" then "+$15K"
    else if recommendation == "reduce" then "-$8K"
    else "-$22K"
  }

  /** `rangeData.filter(item => item.status === status).length`. */
  function CountStatus(items: seq<RangeItem>, status: string): nat {
    if |items| == 0 then 0
    else (if items[0].status == status then 1 else 0) + CountStatus(items[1..], status)
  }

  datatype Stats = Stats(total: nat, performing: nat, underperforming: nat, opportunities: nat, atRisk: nat)

  /** `categoryStats`. */
  function CategoryStats(items: seq<RangeItem>): Stats {
    Stats(|items|, CountStatus(items, "performing"), CountStatus(items, "underperforming"),
          CountStatus(items, "opportunity"), CountStatus(items, "at_risk"))
  }

  // ---------------------------------------------------------------------------
  // Properties

  /** `a` is `b` with some elements left out, the rest in order. */
  predicate Subsequence(a: seq<RangeItem>, b: seq<RangeItem>)
    decreases |b|
  {
    |a| == 0 || (|b| > 0 && ((a[0] == b[0] && Subsequence(a[1..], b[1..])) || Subsequence(a, b[1..])))
  }

  /** The filter keeps exactly the items that pass, in their order. */
  lemma {:induction false} FilterByFacts(items: seq<RangeItem>, keep: RangeItem -> bool)
    ensures forall x :: x in FilterBy(items, keep) <==> x in items && keep(x)
    ensures Subsequence(FilterBy(items, keep), items)
    ensures |FilterBy(items, keep)| <= |items|
  {
    if |items| > 0 {
      FilterByFacts(items[1..], keep);
      assert items == [items[0]] + items[1..];
      var rest := FilterBy(items[1..], keep);
      if keep(items[0]) {
        var a := [items[0]] + rest;
        assert a[0] == items[0] && a[1..] == rest;
        assert Subsequence(a, items);
      } else {
        assert FilterBy(items, keep) == rest;
      }
    }
  }

  /** When every item passes, the filter changes nothing. */
  lemma {:induction false} FilterByAll(items: seq<RangeItem>, keep: RangeItem -> bool)
    requires forall k :: 0 <= k < |items| ==> keep(items[k])
    ensures FilterBy(items, keep) == items
  {
    if |items| > 0 {
      FilterByAll(items[1..], keep);
      assert items == [items[0]] + items[1..];
    }
  }

  /** Filtering twice is filtering once by both tests. */
  lemma {:induction false} FilterByTwice(items: seq<RangeItem>, p: RangeItem -> bool, q: RangeItem -> bool)
    ensures FilterBy(FilterBy(items, p), q) == FilterBy(items, (x: RangeItem) => p(x) && q(x))
  {
    if |items| > 0 {
      FilterByTwice(items[1..], p, q);
      var rest := FilterBy(items[1..], p);
      if p(items[0]) {
        assert ([items[0]] + rest)[1..] == rest;
      } else {
        assert [] + rest == rest;
      }
    }
  }

  /** A status count is the length of the status filter's result. */
  lemma {:induction false} CountIsFilterLength(items: seq<RangeItem>, status: string)
    ensures CountStatus(items, status) == |FilterBy(items, (x: RangeItem) => x.status == status)|
  {
    if |items| > 0 {
      CountIsFilterLength(items[1..], status);
    }
  }

  /** `filteredData` is the in-order selection of the items that match all three tests. */
  lemma FilteredFacts(items: seq<RangeItem>, category: string, status: string, search: string)
    ensures forall x :: x in Filtered(items, category, status, search) <==>
      x in items && Matches(x, category, status, search)
    ensures Subsequence(Filtered(items, category, status, search), items)
  {
    FilterByFacts(items, (item: RangeItem) => Matches(item, category, status, search));
  }

  /** With both selectors on `all` and an empty search box, every item is shown. */
  lemma DefaultsShowAll(items: seq<RangeItem>)
    ensures Filtered(items, "all", "all", "") == items
  {
    forall k | 0 <= k < |items|
      ensures Matches(items[k], "all", "all", "")
    {
      IncludesEmpty(ToLower(items[k].name));
    }
    FilterByAll(items, (item: RangeItem) => Matches(item, "all", "all", ""));
  }

  /** The search ignores letter case: a term and its lower-cased form select the same
      items, and a term found in the name as typed is found whatever its case. */
  lemma SearchIgnoresCase(item: RangeItem, category: string, status: string, search: string)
    ensures Matches(item, category, status, search) == Matches(item, category, status, ToLower(search))
    ensures ((category == "all" || item.category == category) && (status == "all" || item.status == status) &&
             Includes(item.name, search)) ==> Matches(item, category, status, search)
  {
    ToLowerIdempotent(search);
    if Includes(item.name, search) {
      IncludesLower(item.name, search);
    }
  }

  /** The status selector alone shows exactly as many rows as the matching summary card
      counts. */
  lemma StatusCardMatchesFilter(items: seq<RangeItem>, status: string)
    requires status != "all"
    ensures |Filtered(items, "all", status, "")| == CountStatus(items, status)
  {
    CountIsFilterLength(items, status);
    forall k | 0 <= k < |items| {
      IncludesEmpty(ToLower(items[k].name));
    }
    assert FilterBy(items, (item: RangeItem) => Matches(item, "all", status, "")) == FilterBy(items, (x: RangeItem) => x.status == status) by {
      FilterByEqual(items, (item: RangeItem) => Matches(item, "all", status, ""), (x: RangeItem) => x.status == status);
    }
  }

  lemma {:induction false} FilterByEqual(items: seq<RangeItem>, p: RangeItem -> bool, q: RangeItem -> bool)
    requires forall k :: 0 <= k < |items| ==> p(items[k]) == q(items[k])
    ensures FilterBy(items, p) == FilterBy(items, q)
  {
    if |items| > 0 {
      FilterByEqual(items[1..], p, q);
    }
  }

  /** The four status counts never exceed the total. */
  lemma {:induction false} StatusCountsBound(items: seq<RangeItem>)
    ensures var s := CategoryStats(items);
      s.performing + s.underperforming + s.opportunities + s.atRisk <= s.total
  {
    if |items| > 0 {
      StatusCountsBound(items[1..]);
    }
  }

  /** The recommendations tab lists, in order, the shown items not marked `maintain`,
      and each one's impact label starts with `+` exactly for `expand`. */
  lemma RecommendedFacts(filtered: seq<RangeItem>)
    ensures Subsequence(Recommended(filtered), filtered)
    ensures forall x :: x in Recommended(filtered) <==> x in filtered && x.recommendation != "maintain"
    ensures forall x :: x in Recommended(filtered) ==>
      (ImpactLabel(x.recommendation)[0] == '+' <==> x.recommendation == "expand")
  {
    FilterByFacts(filtered, (item: RangeItem) => item.recommendation != "maintain");
  }

  /** On the shipped data the cards read 5 products: 2 performing, 1 underperforming,
      1 opportunity and 1 at risk. */
  lemma ShippedStats()
    ensures CategoryStats(RangeData()) == Stats(5, 2, 1, 1, 1)
  {
    var d := RangeData();
    assert d[0].status == "performing" && d[2].status == "performing";
    assert d[1].status == "underperforming" && d[3].status == "opportunity" && d[4].status == "at_risk";
  }

  /** The filter of a list split in two is the two filters joined. */
  lemma {:induction false} FilterByAppend(a: seq<RangeItem>, b: seq<RangeItem>, keep: RangeItem -> bool)
    ensures FilterBy(a + b, keep) == FilterBy(a, keep) + FilterBy(b, keep)
  {
    if |a| > 0 {
      assert (a + b)[0] == a[0] && (a + b)[1..] == a[1..] + b;
      FilterByAppend(a[1..], b, keep);
    } else {
      assert a + b == b;
    }
  }

  /** Of five items only the third marked `maintain`, the tab keeps the other four. */
  lemma MiddleMaintainDropped(d: seq<RangeItem>)
    requires |d| == 5 && d[2].recommendation == "maintain"
    requires d[0].recommendation != "maintain" && d[1].recommendation != "maintain"
    requires d[3].recommendation != "maintain" && d[4].recommendation != "maintain"
    ensures Recommended(d) == [d[0], d[1], d[3], d[4]]
  {
    var keep := (item: RangeItem) => item.recommendation != "maintain";
    assert d == [d[0], d[1]] + ([d[2]] + [d[3], d[4]]);
    FilterByAppend([d[0], d[1]], [d[2]] + [d[3], d[4]], keep);
    FilterByAppend([d[2]], [d[3], d[4]], keep);
    FilterByAll([d[0], d[1]], keep);
    FilterByAll([d[3], d[4]], keep);
    assert FilterBy([d[2]], keep) == [];
  }

  /** With the default filters the recommendations tab lists every shipped product but
      the one marked `maintain`. */
  lemma ShippedRecommendations()
    ensures var d := RangeData();
      Recommended(Filtered(d, "all", "all", "")) == [d[0], d[1], d[3], d[4]]
  {
    var d := RangeData();
    DefaultsShowAll(d);
    MiddleMaintainDropped(d);
  }
}
