/** Manual settlement (`POST /api/admin/payouts/mark-paid`): for each
    selected (order, product name) pair, one conditional update marks the
    item COMPLETED and locks it, and each success appends one COMPLETED
    ledger entry carrying the admin's transaction reference.

    The filter of the conditional update has no `$elemMatch`, so each of
    its array conditions is matched by any element independently:
    `products.name` by some item with that name, and the `$ne` on
    `products.payoutStatus` only when no item of the order is COMPLETED.
    The positional `$` hits the first item with the name.  `MarkOne` models
    that filter as written, and the route as written, `MarkPaidRoute` with
    `AsWritten`, composes it.  `MarkOneElemMatch` is the corrected per-item
    filter, which settles the item the admin selected; `MarkPaidRoute` with
    `PerItem` composes that one instead. */
module MarkPaid {
  import opened Base
  import opened Model

  /** One selected pair of the request body. */
  datatype MarkRequest = MarkRequest(orderId: OrderId, productName: string)

  datatype MarkDetail = MarkDetail(orderId: OrderId, success: bool)

  datatype MarkResponse = NoItemsSelected400 | Processed(successCount: nat, details: seq<MarkDetail>)

  datatype MarkStep = MarkStep(store: Store, success: bool)

  datatype MarkResult = MarkResult(store: Store, response: MarkResponse)

  /** Position of the first item with this name (the positional `$` of a
      match on `products.name`, and the `find` that reads it back). */
  function FirstNamed(items: seq<LineItem>, name: string): (r: Option<nat>)
    ensures r.Some? ==> r.value < |items| && items[r.value].name == name
    ensures r.Some? ==> forall k :: 0 <= k < r.value ==> items[k].name != name
    ensures r.None? ==> forall k :: 0 <= k < |items| ==> items[k].name != name
  {
    if |items| == 0 then None
    else if items[0].name == name then Some(0)
    else
      match FirstNamed(items[1..], name)
      case Some(k) => Some(k + 1)
      case None => None
  }

  /** `"products.payoutStatus": { $ne: "COMPLETED" }` on an array: true only
      when no element is COMPLETED. */
  predicate NoItemCompleted(items: seq<LineItem>)
  {
    forall k :: 0 <= k < |items| ==> items[k].payoutStatus != COMPLETED
  }

  /** The `$set` of the positional update. */
  function SettleItem(it: LineItem, reference: string, date: int): (s: LineItem)
    ensures s.payoutStatus == COMPLETED && s.isLocked
    ensures s.payoutReference == Some(reference) && s.payoutDate == Some(date)
    ensures s.(payoutStatus := it.payoutStatus, isLocked := it.isLocked,
               payoutReference := it.payoutReference, payoutDate := it.payoutDate) == it
  {
    it.(payoutStatus := COMPLETED, payoutDate := Some(date), payoutReference := Some(reference), isLocked := true)
  }

  /** `payoutDate || new Date()`. */
  function EffectiveDate(payoutDate: Option<int>, now: int): (d: int)
    ensures payoutDate.Some? ==> d == payoutDate.value
    ensures payoutDate.None? ==> d == now
  {
    if payoutDate.Some? then payoutDate.value else now
  }

  /** The audit entry of one success: the item's frozen net and commission,
      with the reference stored as the payout id. */
  function ManualEntry(st: Store, o: Order, it: LineItem, reference: string, date: int, now: int): (e: PayoutEntry)
    ensures e.order == o.id && e.vendor == it.vendor
    ensures e.amount == it.netAmount && e.platformFee == it.commissionAmount && e.payoutStatus == COMPLETED
    ensures e.razorpayPayoutId == Some(reference) && e.razorpayTransferId.None? && e.processedAt == Some(date)
  {
    PayoutEntry(LedgerEntryId(|st.ledger|), o.id, it.vendor, it.netAmount, it.commissionAmount,
                COMPLETED, None, None, Some(reference), 0, Some(date), now)
  }

  /** The filter of the conditional update, as written. */
  predicate MatchesAsWritten(st: Store, req: MarkRequest)
  {
    && FindOrder(st.orders, req.orderId).Some?
    && FirstNamed(st.orders[FindOrder(st.orders, req.orderId).value].products, req.productName).Some?
    && NoItemCompleted(st.orders[FindOrder(st.orders, req.orderId).value].products)
  }

  /** One pair: the conditional update and, when it matched, the ledger entry. */
  function MarkOne(st: Store, req: MarkRequest, reference: string, payoutDate: Option<int>, now: int): (r: MarkStep)
    ensures r.success <==> MatchesAsWritten(st, req)
    ensures !r.success ==> r.store == st
    ensures r.success ==>
      var oi := FindOrder(st.orders, req.orderId).value;
      var k := FirstNamed(st.orders[oi].products, req.productName).value;
      var it := st.orders[oi].products[k];
      && r.store.orders == st.orders[oi := st.orders[oi].(
           products := st.orders[oi].products[k := SettleItem(it, reference, EffectiveDate(payoutDate, now))],
           updatedAt := now)]
      && r.store.ledger == st.ledger + [ManualEntry(st, st.orders[oi], it, reference, EffectiveDate(payoutDate, now), now)]
      && r.store == st.(orders := r.store.orders, ledger := r.store.ledger)
  {
    match FindOrder(st.orders, req.orderId)
    case None => MarkStep(st, false)
    case Some(oi) =>
      var o := st.orders[oi];
      match FirstNamed(o.products, req.productName)
      case None => MarkStep(st, false)
      case Some(k) =>
        if !NoItemCompleted(o.products) then MarkStep(st, false)
        else
          var date := EffectiveDate(payoutDate, now);
          var it := o.products[k];
          var st1 := WriteItem(st, oi, k, SettleItem(it, reference, date), now);
          MarkStep(AppendEntry(st1, ManualEntry(st, o, it, reference, date, now)), true)
  }

  /** Marking the same pair again finds the item COMPLETED and fails without
      writing, so a repeated request never adds a second ledger entry. */
  lemma {:induction false} MarkTwiceIsMarkOnce(st: Store, req: MarkRequest, ref1: string, ref2: string,
                                               d1: Option<int>, d2: Option<int>, now1: int, now2: int)
    ensures var r1 := MarkOne(st, req, ref1, d1, now1);
            var r2 := MarkOne(r1.store, req, ref2, d2, now2);
            !r2.success && r2.store == r1.store
  {
    var r1 := MarkOne(st, req, ref1, d1, now1);
    if r1.success {
      var oi := FindOrder(st.orders, req.orderId).value;
      var k := FirstNamed(st.orders[oi].products, req.productName).value;
      assert r1.store.orders[oi].id == req.orderId;
      var oi' := FindOrder(r1.store.orders, req.orderId).value;
      assert oi' == oi by {
        forall j | 0 <= j < oi ensures r1.store.orders[j].id != req.orderId {
          assert r1.store.orders[j] == st.orders[j];
        }
      }
      assert r1.store.orders[oi].products[k].payoutStatus == COMPLETED;
      assert !NoItemCompleted(r1.store.orders[oi].products);
    }
  }

  /** Which filter the conditional update uses: the route's own, or the
      per-item `$elemMatch` that settles the selected item. */
  datatype Filter = AsWritten | PerItem

  /** One pair under the chosen filter. */
  function MarkWith(filter: Filter, st: Store, req: MarkRequest, reference: string, payoutDate: Option<int>, now: int)
    : (r: MarkStep)
    ensures !r.success ==> r.store == st
    ensures r.success ==> |r.store.ledger| == |st.ledger| + 1 && st.ledger <= r.store.ledger
    ensures |r.store.orders| == |st.orders|
    ensures r.store == st.(orders := r.store.orders, ledger := r.store.ledger)
  {
    match filter
    case AsWritten => MarkOne(st, req, reference, payoutDate, now)
    case PerItem => MarkOneElemMatch(st, req, reference, payoutDate, now)
  }

  /** The pairs in input order, each on the store the previous one left;
      the route runs this with `AsWritten`. */
  function MarkAll(filter: Filter, st: Store, reqs: seq<MarkRequest>, reference: string, payoutDate: Option<int>, now: int)
    : (r: MarkResult)
    ensures r.response.Processed?
    ensures |r.response.details| == |reqs|
    ensures forall k :: 0 <= k < |reqs| ==> r.response.details[k].orderId == reqs[k].orderId
    ensures r.response.successCount == |SuccessfulDetails(r.response.details)|
    ensures |r.store.ledger| == |st.ledger| + r.response.successCount
    ensures st.ledger <= r.store.ledger
    ensures |r.store.orders| == |st.orders|
    ensures r.store == st.(orders := r.store.orders, ledger := r.store.ledger)
    ensures |reqs| > 0 ==> r.response.details[0].success == MarkWith(filter, st, reqs[0], reference, payoutDate, now).success
    decreases |reqs|
  {
    if |reqs| == 0 then MarkResult(st, Processed(0, []))
    else
      var s := MarkWith(filter, st, reqs[0], reference, payoutDate, now);
      var rest := MarkAll(filter, s.store, reqs[1..], reference, payoutDate, now);
      var d := [MarkDetail(reqs[0].orderId, s.success)] + rest.response.details;
      assert SuccessfulDetails(d) == (if s.success then [d[0]] else []) + SuccessfulDetails(rest.response.details);
      MarkResult(rest.store, Processed((if s.success then 1 else 0) + rest.response.successCount, d))
  }

  /** The details reported as successes, in order. */
  function SuccessfulDetails(ds: seq<MarkDetail>): (r: seq<MarkDetail>)
    ensures |r| <= |ds|
    ensures forall d :: d in r <==> d in ds && d.success
  {
    if |ds| == 0 then []
    else (if ds[0].success then [ds[0]] else []) + SuccessfulDetails(ds[1..])
  }

  /** The route: a missing or empty selection is refused before any write;
      otherwise every pair is attempted and the response reports the number
      of successes, even when that number is zero.  The program is
      `MarkPaidRoute(AsWritten, ...)`; `PerItem` gives the corrected route. */
  function MarkPaidRoute(filter: Filter, st: Store, orderItems: Option<seq<MarkRequest>>, reference: string,
                         payoutDate: Option<int>, now: int): (r: MarkResult)
    ensures (orderItems.None? || |orderItems.value| == 0) <==> r.response == NoItemsSelected400
    ensures r.response == NoItemsSelected400 ==> r.store == st
    ensures r.response.Processed? ==>
      && |r.response.details| == |orderItems.value|
      && |r.store.ledger| == |st.ledger| + r.response.successCount
      && r.response.successCount <= |orderItems.value|
  {
    if orderItems.None? || |orderItems.value| == 0 then MarkResult(st, NoItemsSelected400)
    else MarkAll(filter, st, orderItems.value, reference, payoutDate, now)
  }

  /** The filter with `$elemMatch`: some item has the name and is itself not
      COMPLETED, and the positional `$` hits the first such item. */
  function FirstOpenNamed(items: seq<LineItem>, name: string): (r: Option<nat>)
    ensures r.Some? ==> r.value < |items| && items[r.value].name == name && items[r.value].payoutStatus != COMPLETED
    ensures r.Some? ==> forall k :: 0 <= k < r.value ==> items[k].name != name || items[k].payoutStatus == COMPLETED
    ensures r.None? ==> forall k :: 0 <= k < |items| ==> items[k].name != name || items[k].payoutStatus == COMPLETED
  {
    if |items| == 0 then None
    else if items[0].name == name && items[0].payoutStatus != COMPLETED then Some(0)
    else
      match FirstOpenNamed(items[1..], name)
      case Some(k) => Some(k + 1)
      case None => None
  }

  /** One pair with the per-item filter: whether an item can be settled
      depends on that item alone, not on its siblings. */
  function MarkOneElemMatch(st: Store, req: MarkRequest, reference: string, payoutDate: Option<int>, now: int)
    : (r: MarkStep)
    ensures r.success <==>
      && FindOrder(st.orders, req.orderId).Some?
      && exists k :: 0 <= k < |st.orders[FindOrder(st.orders, req.orderId).value].products|
           && st.orders[FindOrder(st.orders, req.orderId).value].products[k].name == req.productName
           && st.orders[FindOrder(st.orders, req.orderId).value].products[k].payoutStatus != COMPLETED
    ensures !r.success ==> r.store == st
    ensures r.success ==>
      var oi := FindOrder(st.orders, req.orderId).value;
      var k := FirstOpenNamed(st.orders[oi].products, req.productName).value;
      var it := st.orders[oi].products[k];
      && r.store.orders == st.orders[oi := st.orders[oi].(
           products := st.orders[oi].products[k := SettleItem(it, reference, EffectiveDate(payoutDate, now))],
           updatedAt := now)]
      && r.store.ledger == st.ledger + [ManualEntry(st, st.orders[oi], it, reference, EffectiveDate(payoutDate, now), now)]
      && r.store == st.(orders := r.store.orders, ledger := r.store.ledger)
  {
    match FindOrder(st.orders, req.orderId)
    case None => MarkStep(st, false)
    case Some(oi) =>
      var o := st.orders[oi];
      match FirstOpenNamed(o.products, req.productName)
      case None => MarkStep(st, false)
      case Some(k) =>
        var date := EffectiveDate(payoutDate, now);
        var it := o.products[k];
        var st1 := WriteItem(st, oi, k, SettleItem(it, reference, date), now);
        MarkStep(AppendEntry(st1, ManualEntry(st, o, it, reference, date, now)), true)
  }

  /** With the per-item filter, settling one item of an order leaves every
      other open item of it settleable. */
  lemma {:induction false} ElemMatchSettlesSiblings(st: Store, a: MarkRequest, b: MarkRequest, reference: string,
                                                    payoutDate: Option<int>, now: int, j: nat)
    requires a.orderId == b.orderId
    requires FindOrder(st.orders, a.orderId).Some?
    requires var o := st.orders[FindOrder(st.orders, a.orderId).value];
             j < |o.products| && o.products[j].name == b.productName && o.products[j].name != a.productName
             && o.products[j].payoutStatus != COMPLETED
    ensures MarkOneElemMatch(MarkOneElemMatch(st, a, reference, payoutDate, now).store, b, reference, payoutDate, now).success
  {
    var r1 := MarkOneElemMatch(st, a, reference, payoutDate, now);
    var oi := FindOrder(st.orders, a.orderId).value;
    if r1.success {
      assert r1.store.orders[oi].id == a.orderId;
      assert FindOrder(r1.store.orders, b.orderId) == Some(oi) by {
        forall i | 0 <= i < oi ensures r1.store.orders[i].id != b.orderId {
          assert r1.store.orders[i] == st.orders[i];
        }
      }
      var k := FirstOpenNamed(st.orders[oi].products, a.productName).value;
      assert k != j;
      assert r1.store.orders[oi].products[j] == st.orders[oi].products[j];
    }
  }

  /** The order of the counterexample: one item already COMPLETED (by an
      earlier manual settlement or transfer) and a second one still PENDING. */
  const HalfPaidOrder := Order("o1", "u1", [
      LineItem("p1", "vA", "Bamboo Brush", 1, 500, COMPLETED, None, None, false, 50, 450, None, None, true),
      LineItem("p2", "vB", "Jute Bag", 1, 300, PENDING, None, None, false, 30, 270, None, None, false)],
    800, Delivered, Card, 0, 0, None, None, None, None, None, None, None, None)

  const HalfPaidStore := Store([HalfPaidOrder], [], map[], map[], map[], None)

  /** As written, the PENDING "Jute Bag" can never be marked paid: the `$ne`
      on the array sees the COMPLETED sibling and the filter fails; the
      per-item filter settles it. */
  lemma SiblingCompletedBlocksManualSettlement()
    ensures !MarkOne(HalfPaidStore, MarkRequest("o1", "Jute Bag"), "UTR123", None, 10).success
    ensures MarkOneElemMatch(HalfPaidStore, MarkRequest("o1", "Jute Bag"), "UTR123", None, 10).success
  {
    assert FindOrder(HalfPaidStore.orders, "o1") == Some(0);
    assert HalfPaidOrder.products[0].payoutStatus == COMPLETED;
    assert HalfPaidOrder.products[1].name == "Jute Bag" && HalfPaidOrder.products[1].payoutStatus != COMPLETED;
  }

  /** The same store through the whole route: as written the request for
      "Jute Bag" is reported failed and nothing is written; the corrected
      route reports one success and appends one ledger entry. */
  lemma SiblingCompletedFailsRoute()
    ensures var r := MarkPaidRoute(AsWritten, HalfPaidStore, Some([MarkRequest("o1", "Jute Bag")]), "UTR123", None, 10);
            r.response == Processed(0, [MarkDetail("o1", false)]) && r.store == HalfPaidStore
    ensures var r := MarkPaidRoute(PerItem, HalfPaidStore, Some([MarkRequest("o1", "Jute Bag")]), "UTR123", None, 10);
            r.response == Processed(1, [MarkDetail("o1", true)]) && |r.store.ledger| == 1
  {
    var reqs := [MarkRequest("o1", "Jute Bag")];
    SiblingCompletedBlocksManualSettlement();
    assert reqs[1..] == [];
  }
}
