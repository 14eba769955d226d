/** The admin's settlement summary for one vendor (`GET /api/admin/payouts`):
    the vendor's line items in payout-eligible orders created within the
    date range, one row each, and four sums over them.  Without a vendor id
    the route lists the approved vendors instead.

    The rows are defined functionally, item by item and order by order;
    `Summarize` is the route's nested loop and is proved to compute them. */
module SettlementSummary {
  import opened Base
  import opened Model
  import opened Commission
  import opened PayoutService
  import opened Sorting

  /** One row of the response's `items`. */
  datatype PayoutRow = PayoutRow(
    orderId: OrderId, orderDate: int, productName: string, price: int, quantity: int,
    total: int, commission: int, net: int, status: PayoutStatus, isRefunded: bool,
    payoutReference: Option<string>, payoutDate: Option<int>, isLocked: bool)

  datatype Metrics = Metrics(grossSales: int, totalCommission: int, totalRefunds: int, amountToPay: int, totalOrders: nat)

  datatype SummaryResponse =
    | ApprovedVendors(ids: set<VendorId>)
    | Summary(metrics: Metrics, vendorName: Option<string>, bankDetails: Option<PayoutDetails>, items: seq<PayoutRow>)

  /** A row with the read-side commission and net fallbacks. */
  function RowOf(o: Order, it: LineItem): (r: PayoutRow)
    ensures r.total == it.price * it.quantity
    ensures r.commission == ReadSideCommission(it.commissionAmount, r.total)
    ensures r.net == ReadSideNet(it.netAmount, r.total, r.commission)
    ensures r.orderId == o.id && r.status == it.payoutStatus && r.isRefunded == it.refunded
  {
    var total := it.price * it.quantity;
    var commission := ReadSideCommission(it.commissionAmount, total);
    var net := ReadSideNet(it.netAmount, total, commission);
    PayoutRow(o.id, o.createdAt, it.name, it.price, it.quantity, total, commission, net,
              it.payoutStatus, it.refunded, it.payoutReference, it.payoutDate, it.isLocked)
  }

  predicate HasVendor(o: Order, v: VendorId)
  {
    exists k :: 0 <= k < |o.products| && o.products[k].vendor == v
  }

  /** The order query: the vendor appears, the status is payout-eligible and
      the order was created within [start, end]. */
  predicate OrderCounted(o: Order, v: VendorId, start: int, end: int)
  {
    HasVendor(o, v) && IsSettleable(o.status) && start <= o.createdAt <= end
  }

  /** Rows for the vendor's items among `items` of order o, in item order. */
  function ItemRows(o: Order, items: seq<LineItem>, v: VendorId): seq<PayoutRow>
  {
    if |items| == 0 then []
    else
      var last := items[|items| - 1];
      ItemRows(o, items[..|items| - 1], v) + (if last.vendor == v then [RowOf(o, last)] else [])
  }

  /** Rows for all counted orders among `orders`, in store order. */
  function Rows(orders: seq<Order>, v: VendorId, start: int, end: int): seq<PayoutRow>
  {
    if |orders| == 0 then []
    else
      var last := orders[|orders| - 1];
      Rows(orders[..|orders| - 1], v, start, end)
        + (if OrderCounted(last, v, start, end) then ItemRows(last, last.products, v) else [])
  }

  function CountedOrders(orders: seq<Order>, v: VendorId, start: int, end: int): nat
  {
    if |orders| == 0 then 0
    else CountedOrders(orders[..|orders| - 1], v, start, end) + (if OrderCounted(orders[|orders| - 1], v, start, end) then 1 else 0)
  }

  /** Gross sales: totals of non-refunded rows. */
  function GrossSales(rows: seq<PayoutRow>): int
  {
    if |rows| == 0 then 0
    else GrossSales(rows[..|rows| - 1]) + (if rows[|rows| - 1].isRefunded then 0 else rows[|rows| - 1].total)
  }

  /** Commission: of non-refunded rows. */
  function TotalCommission(rows: seq<PayoutRow>): int
  {
    if |rows| == 0 then 0
    else TotalCommission(rows[..|rows| - 1]) + (if rows[|rows| - 1].isRefunded then 0 else rows[|rows| - 1].commission)
  }

  /** Refunds: nets of refunded rows, and nothing else. */
  function TotalRefunds(rows: seq<PayoutRow>): int
  {
    if |rows| == 0 then 0
    else TotalRefunds(rows[..|rows| - 1]) + (if rows[|rows| - 1].isRefunded then rows[|rows| - 1].net else 0)
  }

  /** Amount to pay: nets of non-refunded rows not yet COMPLETED. */
  function AmountToPay(rows: seq<PayoutRow>): int
  {
    if |rows| == 0 then 0
    else
      var r := rows[|rows| - 1];
      AmountToPay(rows[..|rows| - 1]) + (if !r.isRefunded && r.status != COMPLETED then r.net else 0)
  }

  /** Nets of non-refunded rows, paid or not. */
  function NonRefundedNet(rows: seq<PayoutRow>): int
  {
    if |rows| == 0 then 0
    else NonRefundedNet(rows[..|rows| - 1]) + (if rows[|rows| - 1].isRefunded then 0 else rows[|rows| - 1].net)
  }

  function MetricsOf(rows: seq<PayoutRow>, totalOrders: nat): Metrics
  {
    Metrics(GrossSales(rows), TotalCommission(rows), TotalRefunds(rows), AmountToPay(rows), totalOrders)
  }

  /** With non-negative nets, what is still to pay never exceeds the net
      of the vendor's non-refunded sales. */
  lemma {:induction false} AmountToPayAtMostNet(rows: seq<PayoutRow>)
    requires forall k :: 0 <= k < |rows| ==> rows[k].net >= 0
    ensures AmountToPay(rows) <= NonRefundedNet(rows)
    decreases |rows|
  {
    if |rows| > 0 {
      AmountToPayAtMostNet(rows[..|rows| - 1]);
    }
  }

  /** Positions below n of the vendor's items. */
  function VendorPositions(items: seq<LineItem>, v: VendorId, n: nat): set<nat>
    requires n <= |items|
  {
    set k: nat | k < n && items[k].vendor == v
  }

  lemma {:induction false} ItemRowsCountUpTo(o: Order, items: seq<LineItem>, v: VendorId, n: nat)
    requires n <= |items|
    ensures |ItemRows(o, items[..n], v)| == |VendorPositions(items, v, n)|
  {
    if n > 0 {
      ItemRowsCountUpTo(o, items, v, n - 1);
      assert items[..n][..n - 1] == items[..n - 1];
      var prev := VendorPositions(items, v, n - 1);
      if items[n - 1].vendor == v {
        assert VendorPositions(items, v, n) == prev + {n - 1};
        assert n - 1 !in prev;
      } else {
        assert VendorPositions(items, v, n) == prev;
      }
    }
  }

  /** Every item of the vendor in a counted order gets exactly one row. */
  lemma ItemRowsCount(o: Order, items: seq<LineItem>, v: VendorId)
    ensures |ItemRows(o, items, v)| == |set k | 0 <= k < |items| && items[k].vendor == v|
  {
    ItemRowsCountUpTo(o, items, v, |items|);
    assert items[..|items|] == items;
    assert VendorPositions(items, v, |items|) == set k | 0 <= k < |items| && items[k].vendor == v;
  }

  /** The four running sums of the route's loop. */
  datatype Sums = Sums(gross: int, commission: int, refunds: int, toPay: int)

  function SumsOf(rows: seq<PayoutRow>): Sums
  {
    Sums(GrossSales(rows), TotalCommission(rows), TotalRefunds(rows), AmountToPay(rows))
  }

  /** What one row adds: a refunded row only to the refunds, any other row
      to gross and commission, and to the amount to pay unless COMPLETED. */
  function AddRow(acc: Sums, r: PayoutRow): Sums
  {
    if r.isRefunded then acc.(refunds := acc.refunds + r.net)
    else
      Sums(acc.gross + r.total, acc.commission + r.commission, acc.refunds,
           acc.toPay + (if r.status != COMPLETED then r.net else 0))
  }

  lemma SumsAppend(rows: seq<PayoutRow>, r: PayoutRow)
    ensures SumsOf(rows + [r]) == AddRow(SumsOf(rows), r)
  {
    assert (rows + [r])[..|rows|] == rows;
  }

  /** The inner loop: the vendor's items of one counted order. */
  method AddOrderRows(o: Order, v: VendorId, rows0: seq<PayoutRow>, acc0: Sums)
    returns (rows: seq<PayoutRow>, acc: Sums)
    requires acc0 == SumsOf(rows0)
    ensures rows == rows0 + ItemRows(o, o.products, v)
    ensures acc == SumsOf(rows)
  {
    rows, acc := rows0, acc0;
    var j := 0;
    while j < |o.products|
      invariant 0 <= j <= |o.products|
      invariant rows == rows0 + ItemRows(o, o.products[..j], v)
      invariant acc == SumsOf(rows)
    {
      var it := o.products[j];
      assert o.products[..j + 1][..j] == o.products[..j];
      if it.vendor == v {
        var r := RowOf(o, it);
        SumsAppend(rows, r);
        acc := AddRow(acc, r);
        rows := rows + [r];
      }
      j := j + 1;
    }
    assert o.products[..|o.products|] == o.products;
  }

  /** The route's loop over the orders, counting those it sums over. */
  method Summarize(orders: seq<Order>, v: VendorId, start: int, end: int) returns (m: Metrics, rows: seq<PayoutRow>)
    ensures rows == Rows(orders, v, start, end)
    ensures m == MetricsOf(rows, CountedOrders(orders, v, start, end))
  {
    rows := [];
    var acc := Sums(0, 0, 0, 0);
    var count: nat := 0;
    var i := 0;
    while i < |orders|
      invariant 0 <= i <= |orders|
      invariant rows == Rows(orders[..i], v, start, end)
      invariant count == CountedOrders(orders[..i], v, start, end)
      invariant acc == SumsOf(rows)
    {
      var o := orders[i];
      assert orders[..i + 1][..i] == orders[..i];
      if OrderCounted(o, v, start, end) {
        count := count + 1;
        rows, acc := AddOrderRows(o, v, rows, acc);
      }
      i := i + 1;
    }
    assert orders[..|orders|] == orders;
    m := Metrics(acc.gross, acc.commission, acc.refunds, acc.toPay, count);
  }

  function CreatedAt(o: Order): int
  {
    o.createdAt
  }

  /** The route: no vendor id lists the approved vendors; otherwise the
      summary over the given range (the caller supplies the month bounds
      when the query has none), over the orders newest first. */
  method SettlementRoute(st: Store, vendorId: Option<string>, start: int, end: int) returns (r: SummaryResponse)
    ensures !Truthy(vendorId) ==> r == ApprovedVendors(set id | id in st.vendors && st.vendors[id].status == "approved")
    ensures Truthy(vendorId) ==>
      && r.Summary?
      && r.items == Rows(SortDesc(st.orders, CreatedAt), vendorId.value, start, end)
      && r.metrics == MetricsOf(r.items, CountedOrders(SortDesc(st.orders, CreatedAt), vendorId.value, start, end))
      && r.vendorName == (if vendorId.value in st.vendors then Some(st.vendors[vendorId.value].businessName) else None)
  {
    if !Truthy(vendorId) {
      return ApprovedVendors(set id | id in st.vendors && st.vendors[id].status == "approved");
    }
    var v := vendorId.value;
    var m, rows := Summarize(SortDesc(st.orders, CreatedAt), v, start, end);
    var name := if v in st.vendors then Some(st.vendors[v].businessName) else None;
    var bank := if v in st.vendors then st.vendors[v].payoutDetails else None;
    r := Summary(m, name, bank, rows);
  }
}
