/**
 * `OrderHistoryChart` (src/components/dashboard/OrderHistoryChart.tsx): the
 * orders bucketed into the last six months, each bucket with its number of
 * orders and summed total, optionally sorted by amount, and the sort toggle.
 * Times are integer timestamps and totals integer cents; the month windows
 * come from the clock and are given.
 */
module OrderHistoryChart {
  import opened Base
  import opened Seqs

  /** An order as the chart reads it: its creation time and its total. */
  datatype Order = Order(createdAt: int, total: int)

  /**
   * One month from `getLastMonths`: its short name, the first instant of its
   * first day, and `end`, the first instant (00:00) of its last day.
   */
  datatype MonthWindow = MonthWindow(month: string, start: int, end: int)

  /** The number of months the chart covers. */
  const MonthCount := 6

  /** One bar: `{ month, orders, amount }`. */
  datatype Bucket = Bucket(month: string, orders: nat, amount: int)

  datatype SortOrder = Asc | Desc

  /** The order falls in the window: `start <= createdAt <= end`. */
  predicate InWindow(w: MonthWindow, o: Order) {
    w.start <= o.createdAt <= w.end
  }

  /** `monthOrders`: the orders in the window, in their order. */
  function MonthOrders(orders: seq<Order>, w: MonthWindow): (r: seq<Order>)
    ensures IsSubseq(r, orders)
    ensures forall i :: 0 <= i < |r| ==> InWindow(w, r[i])
  {
    FilterIsSubseq(orders, (o: Order) => InWindow(w, o));
    Filter(orders, (o: Order) => InWindow(w, o))
  }

  /** An order is counted in a month exactly when it lies in the window, up to 00:00 of the last day. */
  lemma {:induction false} MonthOrdersMembers(orders: seq<Order>, w: MonthWindow, o: Order)
    ensures o in MonthOrders(orders, w) <==> o in orders && w.start <= o.createdAt <= w.end
  {
    FilterMembers(orders, (o: Order) => InWindow(w, o), o);
  }

  /** Σ of the totals. */
  function SumTotals(orders: seq<Order>): int {
    if orders == [] then 0 else SumTotals(orders[..|orders| - 1]) + orders[|orders| - 1].total
  }

  /** The bar of one month. */
  function BucketOf(orders: seq<Order>, w: MonthWindow): (b: Bucket)
    ensures b.month == w.month && b.orders == |MonthOrders(orders, w)|
    ensures b.amount == SumTotals(MonthOrders(orders, w))
  {
    var mo := MonthOrders(orders, w);
    Bucket(w.month, |mo|, SumTotals(mo))
  }

  /** The bars in chronological order, one per window. */
  function Buckets(orders: seq<Order>, windows: seq<MonthWindow>): (r: seq<Bucket>)
    ensures |r| == |windows|
    ensures forall k :: 0 <= k < |windows| ==> r[k] == BucketOf(orders, windows[k])
  {
    seq(|windows|, k requires 0 <= k < |windows| => BucketOf(orders, windows[k]))
  }

  /** The sort comparator `a.amount - b.amount`, as an order. */
  predicate AmountLe(a: Bucket, b: Bucket) {
    a.amount <= b.amount
  }

  /** `chartData()`: nothing without orders; otherwise the bars, sorted by amount only for "asc". */
  function ChartData(orders: Option<seq<Order>>, windows: seq<MonthWindow>, sortOrder: SortOrder): (r: seq<Bucket>)
    ensures orders.None? || orders.value == [] ==> r == []
    ensures orders.Some? && orders.value != [] && sortOrder == Desc ==> r == Buckets(orders.value, windows)
    ensures orders.Some? && orders.value != [] ==> multiset(r) == multiset(Buckets(orders.value, windows))
  {
    if orders.None? || orders.value == [] then []
    else
      var data := Buckets(orders.value, windows);
      if sortOrder == Asc then InsertionSort(data, AmountLe) else data
  }

  /** With orders and the six windows there are six bars, and "asc" orders them by amount. */
  lemma {:induction false} AscendingIsSorted(orders: seq<Order>, windows: seq<MonthWindow>)
    requires orders != [] && |windows| == MonthCount
    ensures |ChartData(Some(orders), windows, Asc)| == MonthCount
    ensures |ChartData(Some(orders), windows, Desc)| == MonthCount
    ensures SortedBy(ChartData(Some(orders), windows, Asc), AmountLe)
  {
    var data := Buckets(orders, windows);
    InsertionSortSorted(data, AmountLe);
    assert |multiset(ChartData(Some(orders), windows, Asc))| == |multiset(data)|;
  }

  /** Sorting in the "asc" view is a no-op when the chronological bars already rise. */
  lemma {:induction false} AscendingKeepsRisingMonths(orders: seq<Order>, windows: seq<MonthWindow>)
    requires orders != [] && SortedBy(Buckets(orders, windows), AmountLe)
    ensures ChartData(Some(orders), windows, Asc) == ChartData(Some(orders), windows, Desc)
  {
    InsertionSortOfSorted(Buckets(orders, windows), AmountLe);
  }

  /** Σ of the totals distributes over concatenation. */
  lemma {:induction false} SumTotalsConcat(a: seq<Order>, b: seq<Order>)
    ensures SumTotals(a + b) == SumTotals(a) + SumTotals(b)
    decreases |b|
  {
    if b != [] {
      var b' := b[..|b| - 1];
      assert (a + b)[..|a + b| - 1] == a + b';
      SumTotalsConcat(a, b');
    } else {
      assert a + b == a;
    }
  }

  /** A sub-list of orders with non-negative totals sums to no more than the whole list. */
  lemma {:induction false} SubseqSumBounded(a: seq<Order>, b: seq<Order>)
    requires IsSubseq(a, b)
    requires forall i :: 0 <= i < |b| ==> b[i].total >= 0
    ensures 0 <= SumTotals(a) <= SumTotals(b)
    decreases |b|
  {
    if a == [] {
      NonNegativeSum(b);
    } else {
      assert b == [b[0]] + b[1..];
      SumTotalsConcat([b[0]], b[1..]);
      assert SumTotals([b[0]]) == b[0].total by {
        assert [b[0]][..0] == [];
      }
      if a[0] == b[0] && IsSubseq(a[1..], b[1..]) {
        SubseqSumBounded(a[1..], b[1..]);
        assert a == [a[0]] + a[1..];
        SumTotalsConcat([a[0]], a[1..]);
        assert SumTotals([a[0]]) == a[0].total by {
          assert [a[0]][..0] == [];
        }
      } else {
        SubseqSumBounded(a, b[1..]);
      }
    }
  }

  lemma {:induction false} NonNegativeSum(b: seq<Order>)
    requires forall i :: 0 <= i < |b| ==> b[i].total >= 0
    ensures SumTotals(b) >= 0
  {
    if b != [] {
      NonNegativeSum(b[..|b| - 1]);
    }
  }

  /** With non-negative totals, each bar lies between zero and the sum of all orders. */
  lemma BucketAmountBounded(orders: seq<Order>, w: MonthWindow)
    requires forall i :: 0 <= i < |orders| ==> orders[i].total >= 0
    ensures 0 <= BucketOf(orders, w).amount <= SumTotals(orders)
    ensures BucketOf(orders, w).orders <= |orders|
  {
    SubseqSumBounded(MonthOrders(orders, w), orders);
    FilterIsSubseq(orders, (o: Order) => InWindow(w, o));
  }

  /** The bar chart's error: "No order data available" when the orders are missing and not loading. */
  function ChartError(orders: Option<seq<Order>>, isLoading: bool): (e: Option<string>)
    ensures e.Some? <==> orders.None? && !isLoading
    ensures e.Some? ==> e.value == "No order data available"
  {
    if orders.None? && !isLoading then Some("No order data available") else None
  }

  /** The card's state: the sort order, initially descending. */
  class Chart {
    var sortOrder: SortOrder

    constructor ()
      ensures sortOrder == Desc
    {
      sortOrder := Desc;
    }

    /** The sort button flips between ascending and descending. */
    method ToggleSort()
      modifies this
      ensures sortOrder != old(sortOrder)
    {
      sortOrder := if sortOrder == Asc then Desc else Asc;
    }
  }
}
