/**
 * The KPI totals both dashboards compute with `reduce` over the record
 * list (src/pages/Index.tsx:68-70, src/pages/OperationDetail.tsx:71-73).
 */
module Kpi {
  import opened Marketing

  /** `kpiData.reduce((sum, item) => sum + item.sales, 0)`: folds from the left. */
  function TotalSales(s: seq<DailyKPI>): real
  {
    if s == [] then 0.0 else TotalSales(s[..|s| - 1]) + s[|s| - 1].sales
  }

  /** `kpiData.reduce((sum, item) => sum + item.orders, 0)`. */
  function TotalOrders(s: seq<DailyKPI>): int
  {
    if s == [] then 0 else TotalOrders(s[..|s| - 1]) + s[|s| - 1].orders
  }

  /** The sales total splits over any cut of the list. */
  lemma {:induction false} TotalSalesAppend(a: seq<DailyKPI>, b: seq<DailyKPI>)
    ensures TotalSales(a + b) == TotalSales(a) + TotalSales(b)
  {
    if b == [] {
      assert a + b == a;
    } else {
      assert (a + b)[..|a + b| - 1] == a + b[..|b| - 1];
      TotalSalesAppend(a, b[..|b| - 1]);
    }
  }

  /** The orders total splits over any cut of the list. */
  lemma {:induction false} TotalOrdersAppend(a: seq<DailyKPI>, b: seq<DailyKPI>)
    ensures TotalOrders(a + b) == TotalOrders(a) + TotalOrders(b)
  {
    if b == [] {
      assert a + b == a;
    } else {
      assert (a + b)[..|a + b| - 1] == a + b[..|b| - 1];
      TotalOrdersAppend(a, b[..|b| - 1]);
    }
  }

  /** The totals as a sum that starts at the first record: the other order of the same fold. */
  lemma TotalsFromFront(s: seq<DailyKPI>)
    requires s != []
    ensures TotalSales(s) == s[0].sales + TotalSales(s[1..])
    ensures TotalOrders(s) == s[0].orders + TotalOrders(s[1..])
  {
    assert s == [s[0]] + s[1..];
    TotalSalesAppend([s[0]], s[1..]);
    TotalOrdersAppend([s[0]], s[1..]);
    assert [s[0]][..0] == [];
  }

  /** With no negative sales, no prefix of the list sums to more than the whole. */
  lemma {:induction false} TotalSalesPrefixBound(s: seq<DailyKPI>, m: nat)
    requires m <= |s|
    requires forall i :: 0 <= i < |s| ==> s[i].sales >= 0.0
    ensures 0.0 <= TotalSales(s[..m]) <= TotalSales(s)
  {
    if m == |s| {
      assert s[..m] == s;
      if s != [] {
        TotalSalesPrefixBound(s[..|s| - 1], |s| - 1);
        assert s[..|s| - 1][..|s| - 1] == s[..|s| - 1];
      }
    } else {
      TotalSalesPrefixBound(s[..|s| - 1], m);
      assert s[..|s| - 1][..m] == s[..m];
    }
  }

  /** Records that all sold the same amount total that amount times their number. */
  lemma {:induction false} TotalSalesConstant(s: seq<DailyKPI>, v: real)
    requires forall i :: 0 <= i < |s| ==> s[i].sales == v
    ensures TotalSales(s) == |s| as real * v
  {
    if s != [] {
      TotalSalesConstant(s[..|s| - 1], v);
    }
  }

  /**
   * `totalSales / totalOrders` (src/pages/Index.tsx:70,
   * src/pages/OperationDetail.tsx:73): defined exactly when some orders
   * exist, and then it is the value that multiplies back to the sales total.
   */
  function AverageOrderValue(s: seq<DailyKPI>): (r: Option<real>)
    ensures r.Some? <==> TotalOrders(s) != 0
    ensures r.Some? ==> r.value * (TotalOrders(s) as real) == TotalSales(s)
  {
    Ratio(TotalSales(s), TotalOrders(s) as real)
  }
}
