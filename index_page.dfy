/**
 * The main dashboard (src/pages/Index.tsx): thirty days of mock records, the
 * product distribution grouped from the record list, and the record list
 * itself as page state that the add-data form appends to.
 */
module IndexPage {
  import opened Marketing
  import opened Kpi
  import opened DateOrder
  import opened NumberText
  import AddDataForm
  import CampaignList

  const MockProductTypes: seq<string> := ["e-liquides", "cigarettes-electroniques", "accessoires"]
  const MockCampaignNames: seq<string> := ["Promo été", "Black Friday", "Organique"]

  /** `Math.floor(Math.random() * 3)`: an index into a three-entry list. */
  function PickOfThree(r: real): (i: nat)
    requires IsDraw(r)
    ensures i < 3
  {
    (r * 3.0).Floor
  }

  /**
   * `generateMockData`: one record per day for the thirty days ending
   * `today`, oldest first. Iteration `n` (for `i = 29 - n`) consumes the
   * draws `4n .. 4n+3`, in the order the source calls `Math.random()`:
   * sales, orders, product type, campaign name. The average order value is
   * filled in by the final `map`.
   */
  method GenerateMockData(today: int, draws: seq<real>) returns (data: seq<DailyKPI>)
    requires |draws| == 4 * 30
    requires forall j :: 0 <= j < |draws| ==> IsDraw(draws[j])
    ensures |data| == 30
    ensures SortedByDate(data) && data[29].date == today
    ensures forall j :: 0 <= j < 30 ==> IsMockRecord(data[j], j, today)
  {
    var raw: seq<DailyKPI> := [];
    var i := 29;
    while i >= 0
      invariant -1 <= i <= 29
      invariant |raw| == 29 - i
      invariant forall j :: 0 <= j < |raw| ==> IsRawMockRecord(raw[j], j, today)
      decreases i
    {
      var n := 29 - i;
      var sales := draws[4 * n] * 5000.0 + 2000.0;
      var orders := (draws[4 * n + 1] * 50.0 + 20.0).Floor;
      var productType := MockProductTypes[PickOfThree(draws[4 * n + 2])];
      var campaignName := MockCampaignNames[PickOfThree(draws[4 * n + 3])];
      var record := DailyKPI("mock-" + NatToString(i), today - i, sales, orders, Some(0.0), productType, campaignName);
      assert IsRawMockRecord(record, n, today) by {
        MockDrawBounds(draws[4 * n], draws[4 * n + 1]);
      }
      raw := raw + [record];
      i := i - 1;
    }
    data := seq(|raw|, j requires 0 <= j < |raw| =>
      raw[j].(averageOrderValue := Ratio(raw[j].sales, raw[j].orders as real)));
    forall j | 0 <= j < 30 ensures IsMockRecord(data[j], j, today) {
      assert IsRawMockRecord(raw[j], j, today);
    }
  }

  /**
   * Record `j` of the main dashboard's mock data: dated `j` days after the
   * first of the thirty, id `mock-{29-j}`, sales in [2000, 7000), orders in
   * [20, 69], product type and campaign from the fixed lists, and an average
   * order value that times the orders gives the sales.
   */
  predicate IsMockRecord(d: DailyKPI, j: nat, today: int)
  {
    && IsRawMockRecord(d, j, today)
    && d.averageOrderValue.Some? && d.averageOrderValue.value * (d.orders as real) == d.sales
  }

  /** Record `j` of the main dashboard's mock data before the average is filled in. */
  predicate IsRawMockRecord(d: DailyKPI, j: nat, today: int)
  {
    && j < 30
    && d.date == today - 29 + j
    && d.id == "mock-" + NatToString(29 - j)
    && 2000.0 <= d.sales < 7000.0 && 20 <= d.orders <= 69
    && d.productType in MockProductTypes && d.campaignName in MockCampaignNames
  }

  /** `Math.random() * 5000 + 2000` lies in [2000, 7000) and `Math.floor(Math.random() * 50) + 20` in [20, 69]. */
  lemma MockDrawBounds(salesDraw: real, ordersDraw: real)
    requires IsDraw(salesDraw) && IsDraw(ordersDraw)
    ensures 2000.0 <= salesDraw * 5000.0 + 2000.0 < 7000.0
    ensures 20 <= (ordersDraw * 50.0 + 20.0).Floor <= 69
  {
  }

  /** The mock ids are pairwise distinct. */
  lemma MockIdsDistinct(j: nat, k: nat)
    requires j < 30 && k < 30 && j != k
    ensures "mock-" + NatToString(29 - j) != "mock-" + NatToString(29 - k)
  {
    if "mock-" + NatToString(29 - j) == "mock-" + NatToString(29 - k) {
      assert ("mock-" + NatToString(29 - j))[5..] == NatToString(29 - j);
      assert ("mock-" + NatToString(29 - k))[5..] == NatToString(29 - k);
      NatToStringInjective(29 - j, 29 - k);
    }
  }

  // ---------------------------------------------------------------------
  // Product distribution (lines 74-83)
  // ---------------------------------------------------------------------

  /** The product types of `s`, each once, in the order they first appear: the key order of `acc`. */
  function DistinctProductTypes(s: seq<DailyKPI>): seq<string>
  {
    if s == [] then []
    else
      var d := DistinctProductTypes(s[..|s| - 1]);
      if s[|s| - 1].productType in d then d else d + [s[|s| - 1].productType]
  }

  /** What `acc[t]` holds once the reduce has seen `s`: `(acc[t] || 0) + item.sales` per matching record. */
  function SalesOfType(s: seq<DailyKPI>, t: string): real
  {
    if s == [] then 0.0
    else SalesOfType(s[..|s| - 1], t) + (if s[|s| - 1].productType == t then s[|s| - 1].sales else 0.0)
  }

  /** `kpiData.filter(d => d.productType === category)` */
  function FilterType(s: seq<DailyKPI>, t: string): (r: seq<DailyKPI>)
    ensures forall i :: 0 <= i < |r| ==> r[i].productType == t
    ensures forall x :: x in r <==> x in s && x.productType == t
    ensures forall x :: multiset(r)[x] == if x.productType == t then multiset(s)[x] else 0
    ensures |r| <= |s|
  {
    if s == [] then []
    else
      var init, last := s[..|s| - 1], s[|s| - 1];
      assert s == init + [last];
      assert multiset(s) == multiset(init) + multiset{last};
      FilterType(init, t) + (if last.productType == t then [last] else [])
  }

  /** The orders of one category, record by record; the source filters then sums (see `OrdersOfTypeIsFilteredSum`). */
  function OrdersOfType(s: seq<DailyKPI>, t: string): int
  {
    if s == [] then 0
    else OrdersOfType(s[..|s| - 1], t) + (if s[|s| - 1].productType == t then s[|s| - 1].orders else 0)
  }

  /** The position of the first record of type `t`, or `|s|` when there is none. */
  function FirstIndex(s: seq<DailyKPI>, t: string): (k: nat)
    ensures k <= |s|
    ensures forall i :: 0 <= i < k ==> s[i].productType != t
    ensures k < |s| ==> s[k].productType == t
  {
    if s == [] then 0 else if s[0].productType == t then 0 else 1 + FirstIndex(s[1..], t)
  }

  /** `category.charAt(0).toUpperCase()`, for ASCII letters. */
  function UpperAscii(c: char): char
  {
    if 'a' <= c <= 'z' then (c as int - 32) as char else c
  }

  /** The chart label of a category: first character upper-cased, the rest unchanged; "" stays "". */
  function Capitalize(s: string): (r: string)
    ensures |r| == |s|
    ensures s != [] ==> r[0] == UpperAscii(s[0]) && r[1..] == s[1..]
    ensures s != [] ==> !('a' <= r[0] <= 'z')
  {
    if s == [] then [] else [UpperAscii(s[0])] + s[1..]
  }

  /** Capitalizing twice is capitalizing once. */
  lemma CapitalizeIdempotent(s: string)
    ensures Capitalize(Capitalize(s)) == Capitalize(s)
  {
  }

  /**
   * One entry per product type: no type twice, every record's type present,
   * and nothing that is not some record's type.
   */
  lemma DistinctProductTypesSpec(s: seq<DailyKPI>)
    ensures var d := DistinctProductTypes(s);
      && (forall i, j :: 0 <= i < j < |d| ==> d[i] != d[j])
      && (forall i :: 0 <= i < |s| ==> s[i].productType in d)
      && (forall t :: t in d ==> FirstIndex(s, t) < |s|)
  {
    DistinctProductTypesNoDuplicates(s);
    assert NoDuplicates(DistinctProductTypes(s));
    DistinctProductTypesCover(s);
    DistinctProductTypesOccur(s);
  }

  /** No string occurs twice. */
  predicate NoDuplicates(d: seq<string>)
  {
    forall i, j :: 0 <= i < j < |d| ==> d[i] != d[j]
  }

  lemma {:induction false} DistinctProductTypesNoDuplicates(s: seq<DailyKPI>)
    ensures NoDuplicates(DistinctProductTypes(s))
  {
    if s != [] {
      var init, t := s[..|s| - 1], s[|s| - 1].productType;
      var d0 := DistinctProductTypes(init);
      DistinctProductTypesNoDuplicates(init);
      if t !in d0 {
        var d := d0 + [t];
        forall i, j | 0 <= i < j < |d| ensures d[i] != d[j] {
          assert d[i] == d0[i];
          if j == |d0| {
            assert d[j] == t;
          } else {
            assert d[j] == d0[j];
          }
        }
      }
    }
  }

  lemma {:induction false} DistinctProductTypesCover(s: seq<DailyKPI>)
    ensures forall i :: 0 <= i < |s| ==> s[i].productType in DistinctProductTypes(s)
  {
    if s != [] {
      var init := s[..|s| - 1];
      DistinctProductTypesCover(init);
      assert forall i :: 0 <= i < |init| ==> s[i] == init[i];
    }
  }

  lemma {:induction false} DistinctProductTypesOccur(s: seq<DailyKPI>)
    ensures forall t :: t in DistinctProductTypes(s) ==> FirstIndex(s, t) < |s|
  {
    if s != [] {
      var init, x := s[..|s| - 1], s[|s| - 1];
      DistinctProductTypesOccur(init);
      assert s == init + [x];
      FirstIndexKept(init, x);
      assert s[|s| - 1].productType == x.productType;
    }
  }

  /** Adding a record at the end does not move the first record of a type already present. */
  lemma FirstIndexExtends(s: seq<DailyKPI>, x: DailyKPI, t: string)
    requires FirstIndex(s, t) < |s|
    ensures FirstIndex(s + [x], t) == FirstIndex(s, t)
  {
    var k := FirstIndex(s, t);
    assert (s + [x])[k] == s[k];
    assert forall i :: 0 <= i < |s| ==> (s + [x])[i] == s[i];
  }

  /** Every category already seen keeps the position of its first record. */
  lemma FirstIndexKept(init: seq<DailyKPI>, x: DailyKPI)
    requires forall t :: t in DistinctProductTypes(init) ==> FirstIndex(init, t) < |init|
    ensures forall t :: t in DistinctProductTypes(init) ==> FirstIndex(init + [x], t) == FirstIndex(init, t)
  {
    forall t | t in DistinctProductTypes(init) ensures FirstIndex(init + [x], t) == FirstIndex(init, t) {
      FirstIndexExtends(init, x, t);
    }
  }

  /** A category first seen in the appended record starts there. */
  lemma FirstIndexOfNew(init: seq<DailyKPI>, x: DailyKPI)
    requires x.productType !in DistinctProductTypes(init)
    ensures FirstIndex(init + [x], x.productType) == |init|
  {
    var s := init + [x];
    DistinctProductTypesCover(init);
    forall i | 0 <= i < |init| ensures s[i].productType != x.productType {
      assert s[i] == init[i];
    }
    FirstIndexFrom(s, x.productType, |init|);
  }

  /** The first index of a type is the first position holding it. */
  lemma FirstIndexFrom(s: seq<DailyKPI>, t: string, k: nat)
    requires k < |s| && s[k].productType == t
    requires forall i :: 0 <= i < k ==> s[i].productType != t
    ensures FirstIndex(s, t) == k
  {
  }

  /** The categories come in the order of their first records. */
  lemma {:induction false} DistinctProductTypesFirstSeenOrder(s: seq<DailyKPI>)
    ensures var d := DistinctProductTypes(s);
      forall i, j :: 0 <= i < j < |d| ==> FirstIndex(s, d[i]) < FirstIndex(s, d[j])
  {
    if s != [] {
      var init, x := s[..|s| - 1], s[|s| - 1];
      var d0 := DistinctProductTypes(init);
      DistinctProductTypesFirstSeenOrder(init);
      DistinctProductTypesOccur(init);
      assert s == init + [x];
      FirstIndexKept(init, x);
      if x.productType !in d0 {
        FirstIndexOfNew(init, x);
      }
    }
  }

  /** Accumulating into `acc` and filtering then summing give the same per-category sales. */
  lemma {:induction false} SalesOfTypeIsFilteredSum(s: seq<DailyKPI>, t: string)
    ensures SalesOfType(s, t) == TotalSales(FilterType(s, t))
  {
    if s != [] {
      var init, x := s[..|s| - 1], s[|s| - 1];
      SalesOfTypeIsFilteredSum(init, t);
      TotalSalesAppend(FilterType(init, t), if x.productType == t then [x] else []);
      assert [x][..0] == [];
    }
  }

  /** Counting a category's orders record by record and filtering then summing agree. */
  lemma {:induction false} OrdersOfTypeIsFilteredSum(s: seq<DailyKPI>, t: string)
    ensures OrdersOfType(s, t) == TotalOrders(FilterType(s, t))
  {
    if s != [] {
      var init, x := s[..|s| - 1], s[|s| - 1];
      OrdersOfTypeIsFilteredSum(init, t);
      TotalOrdersAppend(FilterType(init, t), if x.productType == t then [x] else []);
      assert [x][..0] == [];
    }
  }

  /** A type no record has accumulates nothing. */
  lemma {:induction false} AbsentTypeIsZero(s: seq<DailyKPI>, t: string)
    requires t !in DistinctProductTypes(s)
    ensures SalesOfType(s, t) == 0.0 && OrdersOfType(s, t) == 0 && FilterType(s, t) == []
  {
    if s != [] {
      var init := s[..|s| - 1];
      assert t !in DistinctProductTypes(init);
      AbsentTypeIsZero(init, t);
    }
  }

  /** The sales of the categories in `keys`, summed. */
  function SalesOverTypes(keys: seq<string>, s: seq<DailyKPI>): real
  {
    if keys == [] then 0.0 else SalesOverTypes(keys[..|keys| - 1], s) + SalesOfType(s, keys[|keys| - 1])
  }

  /** The orders of the categories in `keys`, summed. */
  function OrdersOverTypes(keys: seq<string>, s: seq<DailyKPI>): int
  {
    if keys == [] then 0 else OrdersOverTypes(keys[..|keys| - 1], s) + OrdersOfType(s, keys[|keys| - 1])
  }

  /** The last record adds its sales and orders to the sum over distinct keys once, if its type is a key. */
  lemma OverTypesStep(keys: seq<string>, s: seq<DailyKPI>)
    requires s != [] && NoDuplicates(keys)
    ensures var init, x := s[..|s| - 1], s[|s| - 1];
      SalesOverTypes(keys, s) == SalesOverTypes(keys, init) + (if x.productType in keys then x.sales else 0.0)
    ensures var init, x := s[..|s| - 1], s[|s| - 1];
      OrdersOverTypes(keys, s) == OrdersOverTypes(keys, init) + (if x.productType in keys then x.orders else 0)
  {
    SalesOverTypesStep(keys, s);
    OrdersOverTypesStep(keys, s);
  }

  lemma {:induction false} SalesOverTypesStep(keys: seq<string>, s: seq<DailyKPI>)
    requires s != [] && NoDuplicates(keys)
    ensures var init, x := s[..|s| - 1], s[|s| - 1];
      SalesOverTypes(keys, s) == SalesOverTypes(keys, init) + (if x.productType in keys then x.sales else 0.0)
  {
    if keys != [] {
      var init, k := keys[..|keys| - 1], keys[|keys| - 1];
      var t := s[|s| - 1].productType;
      assert forall i :: 0 <= i < |init| ==> init[i] == keys[i];
      SalesOverTypesStep(init, s);
      assert keys == init + [k];
      assert t in keys <==> t in init || t == k;
      assert k !in init;
    }
  }

  lemma {:induction false} OrdersOverTypesStep(keys: seq<string>, s: seq<DailyKPI>)
    requires s != [] && NoDuplicates(keys)
    ensures var init, x := s[..|s| - 1], s[|s| - 1];
      OrdersOverTypes(keys, s) == OrdersOverTypes(keys, init) + (if x.productType in keys then x.orders else 0)
  {
    if keys != [] {
      var init, k := keys[..|keys| - 1], keys[|keys| - 1];
      var t := s[|s| - 1].productType;
      assert forall i :: 0 <= i < |init| ==> init[i] == keys[i];
      OrdersOverTypesStep(init, s);
      assert keys == init + [k];
      assert t in keys <==> t in init || t == k;
      assert k !in init;
    }
  }

  /** The category sales add up to the total sales, the category orders to the total orders. */
  lemma {:induction false} ProductTotals(s: seq<DailyKPI>)
    ensures SalesOverTypes(DistinctProductTypes(s), s) == TotalSales(s)
    ensures OrdersOverTypes(DistinctProductTypes(s), s) == TotalOrders(s)
  {
    if s != [] {
      ProductTotals(s[..|s| - 1]);
      ProductTotalsStep(s);
    }
  }

  /** The category sums keep matching the totals when one more record is accumulated. */
  lemma ProductTotalsStep(s: seq<DailyKPI>)
    requires s != []
    requires SalesOverTypes(DistinctProductTypes(s[..|s| - 1]), s[..|s| - 1]) == TotalSales(s[..|s| - 1])
    requires OrdersOverTypes(DistinctProductTypes(s[..|s| - 1]), s[..|s| - 1]) == TotalOrders(s[..|s| - 1])
    ensures SalesOverTypes(DistinctProductTypes(s), s) == TotalSales(s)
    ensures OrdersOverTypes(DistinctProductTypes(s), s) == TotalOrders(s)
  {
    var d0 := DistinctProductTypes(s[..|s| - 1]);
    DistinctProductTypesNoDuplicates(s[..|s| - 1]);
    OverTypesStep(d0, s);
    assert TotalSales(s) == TotalSales(s[..|s| - 1]) + s[|s| - 1].sales;
    assert TotalOrders(s) == TotalOrders(s[..|s| - 1]) + s[|s| - 1].orders;
    if s[|s| - 1].productType !in d0 {
      NewTypeSums(s);
    } else {
      assert DistinctProductTypes(s) == d0;
    }
  }

  /** A record of a type not seen before opens a category holding just its own figures. */
  lemma NewTypeSums(s: seq<DailyKPI>)
    requires s != [] && s[|s| - 1].productType !in DistinctProductTypes(s[..|s| - 1])
    ensures var d0, x := DistinctProductTypes(s[..|s| - 1]), s[|s| - 1];
      && SalesOverTypes(DistinctProductTypes(s), s) == SalesOverTypes(d0, s) + x.sales
      && OrdersOverTypes(DistinctProductTypes(s), s) == OrdersOverTypes(d0, s) + x.orders
  {
    var init, x := s[..|s| - 1], s[|s| - 1];
    var d0 := DistinctProductTypes(init);
    var d := d0 + [x.productType];
    assert DistinctProductTypes(s) == d;
    assert d[..|d| - 1] == d0;
    AbsentTypeIsZero(init, x.productType);
  }

  /**
   * The `reduce` of lines 75-78: walks the records once, writing each
   * record's sales into `acc` under its product type. `keys` is the key
   * order `Object.entries` then reports: first insertion first.
   */
  method GroupSalesByProduct(kpi: seq<DailyKPI>) returns (keys: seq<string>, acc: map<string, real>)
    ensures keys == DistinctProductTypes(kpi)
    ensures forall t :: t in acc <==> t in keys
    ensures forall t :: t in acc ==> acc[t] == SalesOfType(kpi, t)
  {
    keys, acc := [], map[];
    for i := 0 to |kpi|
      invariant keys == DistinctProductTypes(kpi[..i])
      invariant forall t :: t in acc <==> t in keys
      invariant forall t :: t in acc ==> acc[t] == SalesOfType(kpi[..i], t)
    {
      var t := kpi[i].productType;
      var current := if t in acc then acc[t] else 0.0;
      if t !in acc {
        AbsentTypeIsZero(kpi[..i], t);
        keys := keys + [t];
      }
      acc := acc[t := current + kpi[i].sales];
      assert kpi[..i + 1][..i] == kpi[..i];
    }
    assert kpi[..|kpi|] == kpi;
  }

  function CategorySales(r: seq<ProductPerformance>): real
  {
    if r == [] then 0.0 else CategorySales(r[..|r| - 1]) + r[|r| - 1].sales
  }

  function CategoryOrders(r: seq<ProductPerformance>): int
  {
    if r == [] then 0 else CategoryOrders(r[..|r| - 1]) + r[|r| - 1].orders
  }

  /** Entries built from `keys` sum to the sums over `keys`. */
  lemma {:induction false} CategorySumsOverKeys(r: seq<ProductPerformance>, keys: seq<string>, s: seq<DailyKPI>)
    requires |r| == |keys|
    requires forall j :: 0 <= j < |r| ==> r[j].sales == SalesOfType(s, keys[j]) && r[j].orders == OrdersOfType(s, keys[j])
    ensures CategorySales(r) == SalesOverTypes(keys, s)
    ensures CategoryOrders(r) == OrdersOverTypes(keys, s)
  {
    if r != [] {
      CategorySumsOverKeys(r[..|r| - 1], keys[..|keys| - 1], s);
    }
  }

  /**
   * `productPerformance`: one entry per product type in first-seen order,
   * labelled with the capitalized type, carrying that type's sales and
   * orders; the entries add up to the dashboard's totals.
   */
  method ProductPerformanceOf(kpi: seq<DailyKPI>) returns (r: seq<ProductPerformance>)
    ensures var d := DistinctProductTypes(kpi);
      && |r| == |d|
      && forall j :: 0 <= j < |r| ==>
           r[j] == ProductPerformance(Capitalize(d[j]), SalesOfType(kpi, d[j]), OrdersOfType(kpi, d[j]))
    ensures CategorySales(r) == TotalSales(kpi)
    ensures CategoryOrders(r) == TotalOrders(kpi)
  {
    var keys, acc := GroupSalesByProduct(kpi);
    r := seq(|keys|, j requires 0 <= j < |keys| =>
      ProductPerformance(Capitalize(keys[j]), acc[keys[j]], TotalOrders(FilterType(kpi, keys[j]))));
    forall t {
      OrdersOfTypeIsFilteredSum(kpi, t);
    }
    CategorySumsOverKeys(r, keys, kpi);
    ProductTotals(kpi);
  }

  /** `initialCampaigns` (lines 36-56): the list the page hands to the campaign list. */
  const InitialCampaigns: seq<Campaign> := [
    Campaign("1", "Promo été 2024", 19875, None, Active, 5000.0, 3200.0, 15600.0),
    Campaign("2", "Black Friday", 20052, Some(20057), Active, 10000.0, 8500.0, 42000.0)
  ]

  /** The figures the campaign list shows for the initial campaigns: both profitable, neither over budget. */
  lemma InitialCampaignFigures()
    ensures CampaignList.BudgetUsed(InitialCampaigns[0]) == Some(64.0)
    ensures CampaignList.BudgetUsed(InitialCampaigns[1]) == Some(85.0)
    ensures CampaignList.Roi(InitialCampaigns[0]) == 387.5
    ensures CampaignList.Roi(InitialCampaigns[1]) == 6700.0 / 17.0
    ensures forall c :: c in InitialCampaigns ==>
      CampaignList.RoiClass(CampaignList.Roi(c)) == "text-success font-medium" && CampaignList.BudgetUsed(c).value < 100.0
  {
    forall c | c in InitialCampaigns
      ensures CampaignList.RoiClass(CampaignList.Roi(c)) == "text-success font-medium"
      ensures CampaignList.BudgetUsed(c).value < 100.0
    {
      CampaignList.SuccessClassIff(c);
      CampaignList.BudgetUsedBounds(c);
    }
  }

  // ---------------------------------------------------------------------
  // Page state (lines 58-65)
  // ---------------------------------------------------------------------

  /** The page's `kpiData` state, always sorted by date. */
  class Dashboard {
    var kpiData: seq<DailyKPI>

    ghost predicate Valid()
      reads this
    {
      SortedByDate(kpiData)
    }

    constructor (today: int, draws: seq<real>)
      requires |draws| == 4 * 30
      requires forall j :: 0 <= j < |draws| ==> IsDraw(draws[j])
      ensures Valid() && |kpiData| == 30 && kpiData[29].date == today
      ensures forall j :: 0 <= j < 30 ==> IsMockRecord(kpiData[j], j, today)
    {
      var data := GenerateMockData(today, draws);
      kpiData := data;
    }

    /**
     * `handleAddData`: the list with the record appended and stably sorted,
     * which on the sorted list is the record placed after every record of an
     * equal or earlier date; the record itself is stored unchanged.
     */
    method HandleAddData(newData: DailyKPI)
      requires Valid()
      modifies this
      ensures Valid()
      ensures kpiData == SortByDate(old(kpiData) + [newData])
      ensures kpiData == InsertByDate(old(kpiData), newData)
      ensures |kpiData| == |old(kpiData)| + 1
      ensures multiset(kpiData) == multiset(old(kpiData)) + multiset{newData}
      ensures TotalSales(kpiData) == TotalSales(old(kpiData)) + newData.sales
      ensures TotalOrders(kpiData) == TotalOrders(old(kpiData)) + newData.orders
    {
      InsertByDateTotals(kpiData, newData);
      AppendThenSort(kpiData, newData);
      kpiData := InsertSorted(kpiData, newData);
    }

    /** The form wired to `handleAddData`: a successful submit adds exactly the emitted record. */
    method SubmitForm(form: AddDataForm.Form, id: string, today: int)
      requires Valid() && form.Valid()
      modifies this, form
      ensures Valid() && form.Valid()
      ensures !AddDataForm.RequiredFieldsPresent(old(form.sales), old(form.orders), old(form.productType)) ==>
        kpiData == old(kpiData) && unchanged(form)
      ensures AddDataForm.RequiredFieldsPresent(old(form.sales), old(form.orders), old(form.productType)) ==>
        form.IsInitial(today)
      ensures AddDataForm.RequiredFieldsPresent(old(form.sales), old(form.orders), old(form.productType)) ==>
        kpiData == SortByDate(old(kpiData) + [AddDataForm.BuildRecord(id, old(form.date), old(form.sales),
                                                 old(form.orders), old(form.productType), old(form.campaignName))])
    {
      var added := form.Submit(id, today);
      if added.Some? {
        HandleAddData(added.value);
      }
    }
  }
}
