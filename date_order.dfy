/**
 * `[...prev, newData].sort((a, b) => dateOf(a) - dateOf(b))`, the update
 * both dashboards make when a record is added (src/pages/Index.tsx:61-65,
 * src/pages/OperationDetail.tsx:64-68).
 *
 * `Array.prototype.sort` is stable since ECMAScript 2019, so its result is
 * determined by the comparator: `SortByDate` is that stable sort, written as
 * an insertion sort, and `InsertByDate` is what it does to a list that is
 * already sorted with one record appended.
 */
module DateOrder {
  import opened Marketing
  import Kpi

  predicate SortedByDate(s: seq<DailyKPI>)
  {
    forall i, j :: 0 <= i < j < |s| ==> s[i].date <= s[j].date
  }

  /** Records dated one day apart, in order, are sorted by date. */
  lemma ConsecutiveDatesSorted(s: seq<DailyKPI>, start: int)
    requires forall j :: 0 <= j < |s| ==> s[j].date == start + j
    ensures SortedByDate(s)
  {
  }

  /** The slot insertion sort gives `x`: scanning from the right, past every record dated after it. */
  function InsertionIndex(s: seq<DailyKPI>, x: DailyKPI): (k: nat)
    ensures k <= |s|
  {
    if s == [] || s[|s| - 1].date <= x.date then |s| else InsertionIndex(s[..|s| - 1], x)
  }

  function InsertByDate(s: seq<DailyKPI>, x: DailyKPI): seq<DailyKPI>
  {
    var k := InsertionIndex(s, x);
    s[..k] + [x] + s[k..]
  }

  /** The stable sort by date: each record goes after every earlier one whose date is not later. */
  function SortByDate(s: seq<DailyKPI>): seq<DailyKPI>
  {
    if s == [] then [] else InsertByDate(SortByDate(s[..|s| - 1]), s[|s| - 1])
  }

  /**
   * In a sorted list the new record lands after every record dated on or
   * before it and before every record dated after it.
   */
  lemma {:induction false} InsertionIndexSplits(s: seq<DailyKPI>, x: DailyKPI)
    requires SortedByDate(s)
    ensures forall i :: 0 <= i < InsertionIndex(s, x) ==> s[i].date <= x.date
    ensures forall i :: InsertionIndex(s, x) <= i < |s| ==> s[i].date > x.date
  {
    if s != [] && s[|s| - 1].date > x.date {
      InsertionIndexSplits(s[..|s| - 1], x);
    }
  }

  /**
   * Adding to a sorted list: one record longer, still sorted, the same records
   * plus the new one, the old records in their old order with the new one
   * after every record of an equal or earlier date.
   */
  lemma InsertByDateCorrect(s: seq<DailyKPI>, x: DailyKPI)
    requires SortedByDate(s)
    ensures var r, k := InsertByDate(s, x), InsertionIndex(s, x);
      && |r| == |s| + 1
      && SortedByDate(r)
      && multiset(r) == multiset(s) + multiset{x}
      && r[..k] == s[..k] && r[k] == x && r[k + 1..] == s[k..]
      && (forall i :: 0 <= i < k ==> s[i].date <= x.date)
      && (forall i :: k <= i < |s| ==> s[i].date > x.date)
  {
    var r, k := InsertByDate(s, x), InsertionIndex(s, x);
    InsertionIndexSplits(s, x);
    assert s == s[..k] + s[k..];
    assert r[k + 1..] == s[k..];
    InsertByDateSorted(s, x);
  }

  lemma InsertByDateSorted(s: seq<DailyKPI>, x: DailyKPI)
    requires SortedByDate(s)
    ensures SortedByDate(InsertByDate(s, x))
  {
    var r, k := InsertByDate(s, x), InsertionIndex(s, x);
    InsertionIndexSplits(s, x);
    assert forall i :: 0 <= i < k ==> r[i] == s[i];
    assert r[k] == x;
    assert forall i :: k < i < |r| ==> r[i] == s[i - 1];
    forall i, j | 0 <= i < j < |r| ensures r[i].date <= r[j].date {
      if j < k {
        assert r[i] == s[i] && r[j] == s[j];
      } else if i > k {
        assert r[i] == s[i - 1] && r[j] == s[j - 1];
      } else if i == k {
        assert r[j] == s[j - 1];
      } else {
        assert r[i] == s[i];
      }
    }
  }

  /** The sort of any list is sorted and a permutation of it. */
  lemma {:induction false} SortByDateSortedPermutation(s: seq<DailyKPI>)
    ensures SortedByDate(SortByDate(s))
    ensures multiset(SortByDate(s)) == multiset(s)
  {
    if s != [] {
      var init := s[..|s| - 1];
      SortByDateSortedPermutation(init);
      InsertByDateCorrect(SortByDate(init), s[|s| - 1]);
      assert s == init + [s[|s| - 1]];
    }
  }

  /** Sorting a sorted list changes nothing. */
  lemma {:induction false} SortByDateOfSorted(s: seq<DailyKPI>)
    requires SortedByDate(s)
    ensures SortByDate(s) == s
  {
    if s != [] {
      var init := s[..|s| - 1];
      SortByDateOfSorted(init);
      assert InsertionIndex(init, s[|s| - 1]) == |init|;
      assert init + [s[|s| - 1]] == s;
    }
  }

  /** On a sorted list, appending then sorting is inserting after the last record of equal or earlier date. */
  lemma AppendThenSort(prev: seq<DailyKPI>, x: DailyKPI)
    requires SortedByDate(prev)
    ensures SortByDate(prev + [x]) == InsertByDate(prev, x)
  {
    assert (prev + [x])[..|prev|] == prev;
    SortByDateOfSorted(prev);
  }

  /** Adding a record raises the totals by exactly that record's sales and orders. */
  lemma InsertByDateTotals(s: seq<DailyKPI>, x: DailyKPI)
    ensures Kpi.TotalSales(InsertByDate(s, x)) == Kpi.TotalSales(s) + x.sales
    ensures Kpi.TotalOrders(InsertByDate(s, x)) == Kpi.TotalOrders(s) + x.orders
  {
    var k := InsertionIndex(s, x);
    assert s == s[..k] + s[k..];
    Kpi.TotalSalesAppend(s[..k] + [x], s[k..]);
    Kpi.TotalSalesAppend(s[..k], [x]);
    Kpi.TotalSalesAppend(s[..k], s[k..]);
    Kpi.TotalOrdersAppend(s[..k] + [x], s[k..]);
    Kpi.TotalOrdersAppend(s[..k], [x]);
    Kpi.TotalOrdersAppend(s[..k], s[k..]);
    assert [x][..0] == [];
  }

  /**
   * Computes the new list of a sorted `prev` with `x` added: scans from the
   * end for the slot and splices `x` in.
   */
  method InsertSorted(prev: seq<DailyKPI>, x: DailyKPI) returns (r: seq<DailyKPI>)
    requires SortedByDate(prev)
    ensures r == SortByDate(prev + [x])
    ensures SortedByDate(r) && multiset(r) == multiset(prev) + multiset{x}
  {
    var k := |prev|;
    assert prev[..k] == prev;
    while k > 0 && prev[k - 1].date > x.date
      invariant 0 <= k <= |prev|
      invariant InsertionIndex(prev[..k], x) == InsertionIndex(prev, x)
      decreases k
    {
      assert prev[..k][..k - 1] == prev[..k - 1];
      k := k - 1;
    }
    r := prev[..k] + [x] + prev[k..];
    AppendThenSort(prev, x);
    InsertByDateCorrect(prev, x);
  }
}
