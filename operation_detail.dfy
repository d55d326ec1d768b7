/**
 * The detail page of one operation (src/pages/OperationDetail.tsx): sixty
 * days of mock records for the campaign, the campaign's ratios, the weekly
 * roll-up, the cumulative revenue against a straight-line target, and the
 * record list as page state.
 */
module OperationDetail {
  import opened Marketing
  import opened Kpi
  import opened DateOrder
  import opened NumberText
  import AddDataForm

  /** `mockCampaign` (lines 22-31); the page shows it whatever the route id. */
  const MockCampaign: Campaign :=
    Campaign("1", "Promo été 2024 - E-liquides", 19875, Some(19966), Active, 8000.0, 5200.0, 28600.0)

  /** `new Date("2024-06-01")` as a day number. */
  const MockStartDay: int := 19875

  /**
   * `generateMockOperationData`: one record per day for sixty days from
   * 2024-06-01. Iteration `i` consumes the draws `2i` (orders) and `2i+1`
   * (price per order), in the order the source calls `Math.random()`.
   */
  method GenerateMockOperationData(draws: seq<real>) returns (data: seq<DailyKPI>)
    requires |draws| == 2 * 60
    requires forall j :: 0 <= j < |draws| ==> IsDraw(draws[j])
    ensures |data| == 60
    ensures SortedByDate(data)
    ensures forall j :: 0 <= j < 60 ==> IsMockOperationRecord(data[j], j, draws[2 * j + 1] * 80.0 + 40.0)
  {
    data := [];
    for i := 0 to 60
      invariant |data| == i
      invariant forall j :: 0 <= j < i ==> IsMockOperationRecord(data[j], j, draws[2 * j + 1] * 80.0 + 40.0)
    {
      var orders := (draws[2 * i] * 30.0 + 15.0).Floor;
      var price := draws[2 * i + 1] * 80.0 + 40.0;
      var sales := orders as real * price;
      var record := DailyKPI("op-" + NatToString(i), MockStartDay + i, sales, orders,
                             Ratio(sales, orders as real), "e-liquides", MockCampaign.name);
      assert IsMockOperationRecord(record, i, price) by {
        OrdersDrawBounds(draws[2 * i]);
        MockOperationRecordOk(i, orders, price);
      }
      data := data + [record];
    }
    assert SortedByDate(data) by {
      forall j | 0 <= j < 60 ensures data[j].date == MockStartDay + j {
        assert IsMockOperationRecord(data[j], j, draws[2 * j + 1] * 80.0 + 40.0);
      }
      ConsecutiveDatesSorted(data, MockStartDay);
    }
  }

  /**
   * Record `j` of the detail page's mock data: id `op-{j}`, dated `j` days
   * after 2024-06-01, type "e-liquides", the campaign's name, 15 to 44
   * orders at `price` each, and `price` as its average order value.
   */
  predicate IsMockOperationRecord(d: DailyKPI, j: nat, price: real)
  {
    && d.id == "op-" + NatToString(j) && d.date == MockStartDay + j
    && d.productType == "e-liquides" && d.campaignName == MockCampaign.name
    && 15 <= d.orders <= 44
    && d.sales == d.orders as real * price
    && d.averageOrderValue == Some(price)
  }

  /** `Math.floor(Math.random() * 30) + 15` lies in [15, 44]. */
  lemma OrdersDrawBounds(r: real)
    requires IsDraw(r)
    ensures 15 <= (r * 30.0 + 15.0).Floor <= 44
  {
  }

  /** The record the generator builds from `orders` orders at `price` each is record `i` of the mock data. */
  lemma MockOperationRecordOk(i: nat, orders: int, price: real)
    requires 15 <= orders <= 44
    ensures var sales := orders as real * price;
      IsMockOperationRecord(DailyKPI("op-" + NatToString(i), MockStartDay + i, sales, orders,
                                     Ratio(sales, orders as real), "e-liquides", MockCampaign.name), i, price)
  {
    PerOrderPrice(orders as real * price, orders as real, price);
  }

  lemma PerOrderPrice(sales: real, orders: real, price: real)
    requires orders != 0.0 && sales == orders * price
    ensures Ratio(sales, orders) == Some(price)
  {
    var q := sales / orders;
    assert q * orders == price * orders;
    assert (q - price) * orders == 0.0;
  }

  /** `{ ...newData, campaignName: campaign.name }`: only the campaign label changes. */
  function Relabel(x: DailyKPI, name: string): (r: DailyKPI)
    ensures r.campaignName == name
    ensures r.(campaignName := x.campaignName) == x
  {
    x.(campaignName := name)
  }

  // ---------------------------------------------------------------------
  // Campaign ratios (lines 74-76)
  // ---------------------------------------------------------------------

  /** `(spent / budget) * 100`: undefined for a zero budget. */
  function BudgetUsed(c: Campaign): (r: Option<real>)
    ensures r.Some? <==> c.budget != 0.0
    ensures r.Some? ==> r.value * c.budget == c.spent * 100.0
  {
    Percent(c.spent, c.budget)
  }

  /** `((revenue - spent) / spent) * 100` with no guard here: undefined for zero spend. */
  function Roi(c: Campaign): (r: Option<real>)
    ensures r.Some? <==> c.spent != 0.0
    ensures r.Some? ==> r.value * c.spent == (c.revenue - c.spent) * 100.0
  {
    Percent(c.revenue - c.spent, c.spent)
  }

  /** `((revenue - spent) / revenue) * 100`: undefined for zero revenue. */
  function ProfitMargin(c: Campaign): (r: Option<real>)
    ensures r.Some? <==> c.revenue != 0.0
    ensures r.Some? ==> r.value * c.revenue == (c.revenue - c.spent) * 100.0
  {
    Percent(c.revenue - c.spent, c.revenue)
  }

  /** For a positive revenue the margin is at most 100%, and it is positive exactly when revenue exceeds spend. */
  lemma ProfitMarginBounds(c: Campaign)
    requires c.revenue > 0.0 && c.spent >= 0.0
    ensures ProfitMargin(c).Some?
    ensures ProfitMargin(c).value <= 100.0
    ensures ProfitMargin(c).value > 0.0 <==> c.revenue > c.spent
  {
    var m := ProfitMargin(c).value;
    assert m * c.revenue == (c.revenue - c.spent) * 100.0;
    if m > 100.0 {
      assert m * c.revenue > 100.0 * c.revenue;
    }
    if m > 0.0 {
      assert m * c.revenue > 0.0;
    } else {
      assert m * c.revenue <= 0.0;
    }
  }

  // ---------------------------------------------------------------------
  // Weekly roll-up (lines 85-93)
  // ---------------------------------------------------------------------

  datatype WeekBucket = WeekBucket(week: string, ventes: real, commandes: int)

  /** The bar label of week `k` (counted from zero): "S1", "S2", ... */
  function WeekLabel(k: nat): string
  {
    "S" + NatToString(k + 1)
  }

  /** `ceil(n / 7)` */
  function WeekCount(n: nat): nat
  {
    (n + 6) / 7
  }

  /** One past the last position of week `k` in a list of `n` records. */
  function WeekEnd(n: nat, k: nat): nat
  {
    if 7 * k + 7 <= n then 7 * k + 7 else n
  }

  /** Week `k`: records `7k .. min(7k+6, n-1)` summed. */
  function WeekOf(s: seq<DailyKPI>, k: nat): WeekBucket
    requires 7 * k < |s|
  {
    var chunk := s[7 * k .. WeekEnd(|s|, k)];
    WeekBucket(WeekLabel(k), TotalSales(chunk), TotalOrders(chunk))
  }

  function WeeklySpec(s: seq<DailyKPI>): seq<WeekBucket>
  {
    seq(WeekCount(|s|), k requires 0 <= k < WeekCount(|s|) => WeekOf(s, k))
  }

  /** Every week but the last holds seven records; the last holds one to seven. */
  lemma WeekSizes(n: nat, k: nat)
    requires k < WeekCount(n)
    ensures 7 * k < WeekEnd(n, k) <= 7 * k + 7
    ensures k + 1 < WeekCount(n) ==> WeekEnd(n, k) == 7 * k + 7
    ensures k + 1 == WeekCount(n) ==> WeekEnd(n, k) == n
  {
  }

  /** Weeks before the one record `i` falls in are complete and do not change when it is added. */
  lemma WeekOfEarlier(s: seq<DailyKPI>, i: nat, k: nat)
    requires i < |s| && 7 * k + 7 <= i
    ensures WeekOf(s[..i + 1], k) == WeekOf(s[..i], k)
  {
    assert s[..i + 1][7 * k .. 7 * k + 7] == s[..i][7 * k .. 7 * k + 7];
  }

  /** Record `i` adds its sales and orders to week `i / 7`, which it opens when it is the week's first. */
  lemma WeekOfCurrent(s: seq<DailyKPI>, i: nat, w: nat)
    requires i < |s| && 7 * w <= i < 7 * w + 7
    ensures WeekOf(s[..i + 1], w).week == WeekLabel(w)
    ensures 7 * w == i ==>
      WeekOf(s[..i + 1], w).ventes == s[i].sales && WeekOf(s[..i + 1], w).commandes == s[i].orders
    ensures 7 * w < i ==>
      && WeekOf(s[..i + 1], w).ventes == WeekOf(s[..i], w).ventes + s[i].sales
      && WeekOf(s[..i + 1], w).commandes == WeekOf(s[..i], w).commandes + s[i].orders
  {
    assert WeekEnd(i + 1, w) == i + 1;
    var chunk := s[..i + 1][7 * w .. i + 1];
    assert chunk == s[7 * w .. i + 1];
    assert chunk[..|chunk| - 1] == s[7 * w .. i];
    assert chunk[|chunk| - 1] == s[i];
    assert TotalSales(chunk) == TotalSales(s[7 * w .. i]) + s[i].sales;
    assert TotalOrders(chunk) == TotalOrders(s[7 * w .. i]) + s[i].orders;
    if 7 * w < i {
      assert WeekEnd(i, w) == i;
      assert s[..i][7 * w .. i] == s[7 * w .. i];
    } else {
      assert s[7 * w .. i] == [];
      assert TotalSales(s[7 * w .. i]) == 0.0 && TotalOrders(s[7 * w .. i]) == 0;
    }
  }

  /** Record `i` falls in week `i / 7`: the next week when `i` is a multiple of seven, else the last one open. */
  lemma WeekIndex(i: nat)
    ensures 7 * (i / 7) <= i < 7 * (i / 7) + 7
    ensures i / 7 <= WeekCount(i) && WeekCount(i + 1) == i / 7 + 1
  {
  }

  /** One step of the reduce: record `i` lands in its week and every other week stays as it was. */
  lemma WeeklyStep(kpi: seq<DailyKPI>, i: nat, before: seq<WeekBucket>, after: seq<WeekBucket>)
    requires i < |kpi| && |before| == WeekCount(i)
    requires forall k :: 0 <= k < |before| ==> before[k] == WeekOf(kpi[..i], k)
    requires |after| == WeekCount(i + 1) && i / 7 < |after|
    requires forall k :: 0 <= k < i / 7 ==> after[k] == before[k]
    requires after[i / 7].week == WeekLabel(i / 7)
    requires i / 7 < |before| ==> after[i / 7].ventes == before[i / 7].ventes + kpi[i].sales
    requires i / 7 < |before| ==> after[i / 7].commandes == before[i / 7].commandes + kpi[i].orders
    requires i / 7 == |before| ==> after[i / 7].ventes == 0.0 + kpi[i].sales
    requires i / 7 == |before| ==> after[i / 7].commandes == 0 + kpi[i].orders
    ensures forall k :: 0 <= k < |after| ==> after[k] == WeekOf(kpi[..i + 1], k)
  {
    var w := i / 7;
    WeekIndex(i);
    WeekOfCurrent(kpi, i, w);
    forall k | 0 <= k < w ensures after[k] == WeekOf(kpi[..i + 1], k) {
      WeekOfEarlier(kpi, i, k);
    }
  }

  /**
   * The `reduce` of lines 85-93: walks the records by position, opening
   * bucket `i / 7` when it does not exist yet and adding the record's sales
   * and orders to it in place.
   */
  method WeeklyData(kpi: seq<DailyKPI>) returns (weeks: seq<WeekBucket>)
    ensures weeks == WeeklySpec(kpi)
  {
    weeks := [];
    for i := 0 to |kpi|
      invariant |weeks| == WeekCount(i)
      invariant forall k :: 0 <= k < |weeks| ==> weeks[k] == WeekOf(kpi[..i], k)
    {
      var w := i / 7;
      WeekIndex(i);
      ghost var before := weeks;
      if w == |weeks| {
        weeks := weeks + [WeekBucket(WeekLabel(w), 0.0, 0)];
      }
      weeks := weeks[w := weeks[w].(ventes := weeks[w].ventes + kpi[i].sales,
                                    commandes := weeks[w].commandes + kpi[i].orders)];
      WeeklyStep(kpi, i, before, weeks);
    }
    assert kpi[..|kpi|] == kpi;
  }

  function SumVentes(weeks: seq<WeekBucket>): real
  {
    if weeks == [] then 0.0 else SumVentes(weeks[..|weeks| - 1]) + weeks[|weeks| - 1].ventes
  }

  function SumCommandes(weeks: seq<WeekBucket>): int
  {
    if weeks == [] then 0 else SumCommandes(weeks[..|weeks| - 1]) + weeks[|weeks| - 1].commandes
  }

  /** The first `m` weeks cover the first `min(7m, n)` records. */
  lemma {:induction false} WeeklyPrefixTotals(s: seq<DailyKPI>, m: nat)
    requires m <= WeekCount(|s|)
    ensures var covered := if 7 * m <= |s| then 7 * m else |s|;
      && SumVentes(WeeklySpec(s)[..m]) == TotalSales(s[..covered])
      && SumCommandes(WeeklySpec(s)[..m]) == TotalOrders(s[..covered])
  {
    if m > 0 {
      var weeks := WeeklySpec(s);
      var k := m - 1;
      var e := WeekEnd(|s|, k);
      WeeklyPrefixTotals(s, k);
      assert 7 * k <= |s| && (if 7 * m <= |s| then 7 * m else |s|) == e;
      assert SumVentes(weeks[..m]) == SumVentes(weeks[..k]) + weeks[k].ventes by {
        assert weeks[..m][..k] == weeks[..k];
      }
      assert SumCommandes(weeks[..m]) == SumCommandes(weeks[..k]) + weeks[k].commandes by {
        assert weeks[..m][..k] == weeks[..k];
      }
      assert s[..7 * k] + s[7 * k .. e] == s[..e];
      TotalSalesAppend(s[..7 * k], s[7 * k .. e]);
      TotalOrdersAppend(s[..7 * k], s[7 * k .. e]);
    }
  }

  /** The weekly bars add up to the page's total sales and total orders. */
  lemma WeeklyTotals(s: seq<DailyKPI>)
    ensures SumVentes(WeeklySpec(s)) == TotalSales(s)
    ensures SumCommandes(WeeklySpec(s)) == TotalOrders(s)
  {
    var weeks := WeeklySpec(s);
    WeeklyPrefixTotals(s, |weeks|);
    assert weeks[..|weeks|] == weeks;
    assert s[..|s|] == s;
  }

  /** Fourteen records of 100 each make two weeks of 700. */
  lemma WeeklyExample(s: seq<DailyKPI>)
    requires |s| == 14 && forall i :: 0 <= i < 14 ==> s[i].sales == 100.0
    ensures |WeeklySpec(s)| == 2
    ensures WeeklySpec(s)[0].ventes == 700.0 && WeeklySpec(s)[1].ventes == 700.0
  {
    TotalSalesConstant(s[0..7], 100.0);
    TotalSalesConstant(s[7..14], 100.0);
  }

  // ---------------------------------------------------------------------
  // Cumulative performance (lines 95-99)
  // ---------------------------------------------------------------------

  /** A point of the cumulative chart; the formatted date label is kept as the day number. */
  datatype CumulativePoint = CumulativePoint(date: int, revenue: real, target: real)

  /** The share `(i+1)/n` of the campaign revenue the straight line reaches at position `i`. */
  function TargetAt(i: nat, n: nat, campaignRevenue: real): real
    requires i < n
  {
    ((i + 1) as real / n as real) * campaignRevenue
  }

  /**
   * `cumulativeData`: at position `i`, the sales of records `0..i` and the
   * straight-line share `(i+1)/n` of the campaign revenue.
   */
  function CumulativeData(kpi: seq<DailyKPI>, campaignRevenue: real): (r: seq<CumulativePoint>)
    ensures |r| == |kpi|
    ensures forall i :: 0 <= i < |r| ==> r[i].date == kpi[i].date
  {
    seq(|kpi|, i requires 0 <= i < |kpi| =>
      CumulativePoint(kpi[i].date, TotalSales(kpi[..i + 1]), TargetAt(i, |kpi|, campaignRevenue)))
  }

  /** The revenue line starts at the first day's sales and climbs by each later day's sales. */
  lemma CumulativeSteps(kpi: seq<DailyKPI>, campaignRevenue: real)
    ensures var r := CumulativeData(kpi, campaignRevenue);
      && (|r| > 0 ==> r[0].revenue == kpi[0].sales)
      && forall i :: 0 < i < |r| ==> r[i].revenue == r[i - 1].revenue + kpi[i].sales
  {
    var r := CumulativeData(kpi, campaignRevenue);
    if |r| > 0 {
      CumulativeAt(kpi, campaignRevenue, 0);
      assert kpi[..1][..0] == [];
    }
    forall i | 0 < i < |r| ensures r[i].revenue == r[i - 1].revenue + kpi[i].sales {
      CumulativeAt(kpi, campaignRevenue, i);
      CumulativeAt(kpi, campaignRevenue, i - 1);
      assert kpi[..i + 1][..i] == kpi[..i];
    }
  }

  /** The point at position `i`, read off the comprehension. */
  lemma CumulativeAt(kpi: seq<DailyKPI>, campaignRevenue: real, i: nat)
    requires i < |kpi|
    ensures CumulativeData(kpi, campaignRevenue)[i]
         == CumulativePoint(kpi[i].date, TotalSales(kpi[..i + 1]), TargetAt(i, |kpi|, campaignRevenue))
  {
  }

  /** The last point reaches the page's total sales and the campaign's revenue. */
  lemma CumulativeEnds(kpi: seq<DailyKPI>, campaignRevenue: real)
    requires kpi != []
    ensures var r := CumulativeData(kpi, campaignRevenue);
      r[|r| - 1].revenue == TotalSales(kpi) && r[|r| - 1].target == campaignRevenue
  {
    CumulativeAt(kpi, campaignRevenue, |kpi| - 1);
    assert kpi[..|kpi|] == kpi;
    TargetFull(|kpi|, campaignRevenue);
  }

  /** With no negative sales the revenue line never goes down. */
  lemma CumulativeMonotone(kpi: seq<DailyKPI>, campaignRevenue: real)
    requires forall i :: 0 <= i < |kpi| ==> kpi[i].sales >= 0.0
    ensures var r := CumulativeData(kpi, campaignRevenue);
      forall i, j :: 0 <= i <= j < |r| ==> r[i].revenue <= r[j].revenue
  {
    var r := CumulativeData(kpi, campaignRevenue);
    forall i, j | 0 <= i <= j < |r| ensures r[i].revenue <= r[j].revenue {
      assert r[i].revenue == TotalSales(kpi[..i + 1]) by { CumulativeAt(kpi, campaignRevenue, i); }
      assert r[j].revenue == TotalSales(kpi[..j + 1]) by { CumulativeAt(kpi, campaignRevenue, j); }
      PrefixSalesGrow(kpi, i, j);
    }
  }

  /** With no negative sales, a longer prefix never has smaller total sales. */
  lemma PrefixSalesGrow(kpi: seq<DailyKPI>, i: nat, j: nat)
    requires i <= j < |kpi|
    requires forall t :: 0 <= t < |kpi| ==> kpi[t].sales >= 0.0
    ensures TotalSales(kpi[..i + 1]) <= TotalSales(kpi[..j + 1])
  {
    var upto := kpi[..j + 1];
    assert forall t :: 0 <= t < |upto| ==> upto[t].sales >= 0.0;
    TotalSalesPrefixBound(upto, i + 1);
    assert upto[..i + 1] == kpi[..i + 1];
  }

  /** The target line rises by the same step, its first value, from each point to the next. */
  lemma CumulativeTargetLinear(kpi: seq<DailyKPI>, campaignRevenue: real)
    ensures var r := CumulativeData(kpi, campaignRevenue);
      forall i :: 0 < i < |r| ==> r[i].target == r[i - 1].target + r[0].target
  {
    var r := CumulativeData(kpi, campaignRevenue);
    forall i | 0 < i < |r| ensures r[i].target == r[i - 1].target + r[0].target {
      CumulativeTargetAt(kpi, campaignRevenue, i);
    }
  }

  lemma CumulativeTargetAt(kpi: seq<DailyKPI>, campaignRevenue: real, i: nat)
    requires 0 < i < |kpi|
    ensures var r := CumulativeData(kpi, campaignRevenue);
      r[i].target == r[i - 1].target + r[0].target
  {
    var r := CumulativeData(kpi, campaignRevenue);
    var n := |kpi|;
    var ti, tp, t0 := TargetAt(i, n, campaignRevenue), TargetAt(i - 1, n, campaignRevenue), TargetAt(0, n, campaignRevenue);
    assert r[i].target == ti by { CumulativeAt(kpi, campaignRevenue, i); }
    assert r[i - 1].target == tp by { CumulativeAt(kpi, campaignRevenue, i - 1); }
    assert r[0].target == t0 by { CumulativeAt(kpi, campaignRevenue, 0); }
    assert ti == tp + t0 by { TargetStep(i, n, campaignRevenue); }
  }

  /** One more position adds the share 1/n of the revenue. */
  lemma TargetStep(i: nat, n: nat, campaignRevenue: real)
    requires 0 < i < n
    ensures TargetAt(i, n, campaignRevenue) == TargetAt(i - 1, n, campaignRevenue) + TargetAt(0, n, campaignRevenue)
  {
    var step := 1.0 / n as real;
    assert (i + 1) as real / n as real == i as real / n as real + step;
  }

  /** The last share is the whole campaign revenue. */
  lemma TargetFull(n: nat, campaignRevenue: real)
    requires n > 0
    ensures TargetAt(n - 1, n, campaignRevenue) == campaignRevenue
  {
    assert n as real / n as real == 1.0;
  }

  /** Point `i` of the target line has reached `(i+1)/n` of the revenue: its target times `n` is `(i+1)·g`. */
  lemma TargetScales(i: nat, n: nat, g: real)
    requires i < n
    ensures TargetAt(i, n, g) * (n as real) == (i + 1) as real * g
  {
    var q := (i + 1) as real / n as real;
    assert q * (n as real) == (i + 1) as real;
    assert (q * g) * (n as real) == (q * (n as real)) * g;
  }

  // ---------------------------------------------------------------------
  // Page state (lines 58-68)
  // ---------------------------------------------------------------------

  /** The page's campaign and its `kpiData` state, always sorted by date. */
  class OperationDetailPage {
    const campaign: Campaign
    var kpiData: seq<DailyKPI>

    ghost predicate Valid()
      reads this
    {
      SortedByDate(kpiData)
    }

    constructor (draws: seq<real>)
      requires |draws| == 2 * 60
      requires forall j :: 0 <= j < |draws| ==> IsDraw(draws[j])
      ensures Valid() && campaign == MockCampaign && |kpiData| == 60
      ensures forall j :: 0 <= j < 60 ==> IsMockOperationRecord(kpiData[j], j, draws[2 * j + 1] * 80.0 + 40.0)
    {
      campaign := MockCampaign;
      var data := GenerateMockOperationData(draws);
      kpiData := data;
    }

    /**
     * `handleAddData`: the record, relabelled with the campaign's name,
     * appended and stably sorted into the list.
     */
    method HandleAddData(newData: DailyKPI)
      requires Valid()
      modifies this
      ensures Valid()
      ensures kpiData == SortByDate(old(kpiData) + [Relabel(newData, campaign.name)])
      ensures kpiData == InsertByDate(old(kpiData), Relabel(newData, campaign.name))
      ensures |kpiData| == |old(kpiData)| + 1
      ensures multiset(kpiData) == multiset(old(kpiData)) + multiset{Relabel(newData, campaign.name)}
      ensures TotalSales(kpiData) == TotalSales(old(kpiData)) + newData.sales
      ensures TotalOrders(kpiData) == TotalOrders(old(kpiData)) + newData.orders
    {
      var record := Relabel(newData, campaign.name);
      InsertByDateTotals(kpiData, record);
      AppendThenSort(kpiData, record);
      kpiData := InsertSorted(kpiData, record);
    }

    /** The form wired to this page's `handleAddData`. */
    method SubmitForm(form: AddDataForm.Form, id: string, today: int)
      requires Valid() && form.Valid()
      modifies this, form
      ensures Valid() && form.Valid()
      ensures !AddDataForm.RequiredFieldsPresent(old(form.sales), old(form.orders), old(form.productType)) ==>
        kpiData == old(kpiData) && unchanged(form)
      ensures AddDataForm.RequiredFieldsPresent(old(form.sales), old(form.orders), old(form.productType)) ==>
        form.IsInitial(today)
      ensures AddDataForm.RequiredFieldsPresent(old(form.sales), old(form.orders), old(form.productType)) ==>
        kpiData == SortByDate(old(kpiData) + [Relabel(AddDataForm.BuildRecord(id, old(form.date), old(form.sales),
                                               old(form.orders), old(form.productType), old(form.campaignName)), campaign.name)])
    {
      var added := form.Submit(id, today);
      if added.Some? {
        HandleAddData(added.value);
      }
    }
  }
}
