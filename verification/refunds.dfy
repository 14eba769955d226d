/** The admin's refund decision (`PATCH /api/admin/refunds`): the decision
    and notes are saved on the request; an approval also marks the line
    item refunded and FAILED and puts its quantity back in stock.  Neither
    the request's earlier status nor the item's payout status is consulted.

    The order schema's line item declares no `refunded` path, and Mongoose's
    strict mode drops an assignment to an undeclared path when the order is
    saved.  So, as written, an approval stores only FAILED and the reason,
    and the payout loop's skip on `refunded` never fires: the next payout of
    the order pays the refunded item again.  `ItemSchema` selects between the
    schema as written (`AsDeclared`) and the corrected one that declares the
    path (`DeclaresRefunded`). */
module Refunds {
  import opened Base
  import opened Model
  import opened BankCheck
  import opened PayoutService

  const ItemRefunded := "Order Item Refunded"

  datatype RefundResponse = InvalidStatus400 | RefundNotFound404 | Decided200(message: string)

  datatype RefundResult = RefundResult(store: Store, response: RefundResponse)

  /** The decisions the route accepts, as sent by the client. */
  function ParseDecision(status: string): (r: Option<RefundStatus>)
    ensures r.Some? <==> status == "APPROVED" || status == "REJECTED"
    ensures r == Some(RefundApproved) <==> status == "APPROVED"
  {
    if status == "APPROVED" then Some(RefundApproved)
    else if status == "REJECTED" then Some(RefundRejected)
    else None
  }

  /** The order schema the save goes through: as declared, without a
      `refunded` path, or corrected to declare it. */
  datatype ItemSchema = AsDeclared | DeclaresRefunded

  /** The item as saved after an approval sets its flags: FAILED with the
      refund reason always, and `refunded` only when the schema declares it. */
  function RefundItem(schema: ItemSchema, it: LineItem): (r: LineItem)
    ensures r.payoutStatus == FAILED && r.payoutBlockReason == Some(ItemRefunded)
    ensures r.refunded <==> schema == DeclaresRefunded || it.refunded
    ensures r.(refunded := it.refunded, payoutStatus := it.payoutStatus, payoutBlockReason := it.payoutBlockReason) == it
  {
    var kept := if schema == DeclaresRefunded then true else it.refunded;
    it.(refunded := kept, payoutStatus := FAILED, payoutBlockReason := Some(ItemRefunded))
  }

  /** `$inc` of stock by id; an unknown product is left alone. */
  function Restock(products: map<ProductId, Product>, id: ProductId, quantity: int): (r: map<ProductId, Product>)
    ensures r.Keys == products.Keys
    ensures id in products ==> r[id] == products[id].(stock := products[id].stock + quantity)
    ensures forall p :: p in products && p != id ==> r[p] == products[p]
  {
    if id in products then products[id := products[id].(stock := products[id].stock + quantity)] else products
  }

  /** The approval's effect on orders and stock: when the request's order
      exists and has an item at the index, that item is flagged and its
      product restocked.  `save` writes only modified paths, so the order's
      `updatedAt` moves only when the flags were not already set. */
  function ApplyApproval(schema: ItemSchema, st: Store, rf: Refund, now: int): (r: Store)
    ensures r.ledger == st.ledger && r.vendors == st.vendors && r.refunds == st.refunds && r.settings == st.settings
    ensures |r.orders| == |st.orders|
    ensures (FindOrder(st.orders, rf.order).None? ||
             !(0 <= rf.itemIndex < |st.orders[FindOrder(st.orders, rf.order).value].products|)) ==> r == st
    ensures FindOrder(st.orders, rf.order).Some? &&
            0 <= rf.itemIndex < |st.orders[FindOrder(st.orders, rf.order).value].products| ==>
      var oi := FindOrder(st.orders, rf.order).value;
      var it := st.orders[oi].products[rf.itemIndex];
      && r.orders[oi].products == st.orders[oi].products[rf.itemIndex := RefundItem(schema, it)]
      && r.orders[oi].updatedAt == (if RefundItem(schema, it) == it then st.orders[oi].updatedAt else now)
      && r.orders[oi] == st.orders[oi].(products := r.orders[oi].products, updatedAt := r.orders[oi].updatedAt)
      && (forall j :: 0 <= j < |st.orders| && j != oi ==> r.orders[j] == st.orders[j])
      && r.products == Restock(st.products, it.product, it.quantity)
  {
    match FindOrder(st.orders, rf.order)
    case None => st
    case Some(oi) =>
      if !(0 <= rf.itemIndex < |st.orders[oi].products|) then st
      else
        var it := st.orders[oi].products[rf.itemIndex];
        var st1 := if RefundItem(schema, it) == it then st else WriteItem(st, oi, rf.itemIndex, RefundItem(schema, it), now);
        st1.(products := Restock(st.products, it.product, it.quantity))
  }

  /** `status.toLowerCase()` of the two accepted decisions. */
  function DecisionWord(d: RefundStatus): string
  {
    if d == RefundApproved then "approved" else "rejected"
  }

  /** The route, after the admin check; the program is
      `DecideRefund(AsDeclared, ...)`. */
  function DecideRefund(schema: ItemSchema, st: Store, refundId: string, status: string, adminNotes: Option<string>, now: int)
    : (r: RefundResult)
    ensures ParseDecision(status).None? ==> r == RefundResult(st, InvalidStatus400)
    ensures ParseDecision(status).Some? && refundId !in st.refunds ==> r == RefundResult(st, RefundNotFound404)
    ensures r.response.Decided200? <==> ParseDecision(status).Some? && refundId in st.refunds
    ensures r.response.Decided200? ==>
      && r.store.refunds == st.refunds[refundId := st.refunds[refundId].(
           status := ParseDecision(status).value, adminNotes := adminNotes)]
      && r.store.ledger == st.ledger && r.store.vendors == st.vendors && r.store.settings == st.settings
      && r.response.message == "Refund " + DecisionWord(ParseDecision(status).value) + " successfully"
    // a rejection never touches an order or the stock
    ensures status == "REJECTED" && refundId in st.refunds ==>
      r.store.orders == st.orders && r.store.products == st.products
    ensures status == "APPROVED" && refundId in st.refunds ==>
      r.store == ApplyApproval(schema, st, st.refunds[refundId], now).(refunds := r.store.refunds)
  {
    match ParseDecision(status)
    case None => RefundResult(st, InvalidStatus400)
    case Some(d) =>
      if refundId !in st.refunds then RefundResult(st, RefundNotFound404)
      else
        var rf := st.refunds[refundId];
        var st1 := st.(refunds := st.refunds[refundId := rf.(status := d, adminNotes := adminNotes)]);
        var st2 := if d == RefundApproved then ApplyApproval(schema, st1, rf, now) else st1;
        RefundResult(st2, Decided200("Refund " + DecisionWord(d) + " successfully"))
  }

  /** Approving the same request twice restocks twice: the second approval
      finds the flags already set, so the order is not written again, but
      the stock is incremented again. */
  lemma {:induction false} ReapprovalRestocksAgain(schema: ItemSchema, st: Store, refundId: string, n1: Option<string>, n2: Option<string>,
                                                   t1: int, t2: int)
    requires refundId in st.refunds
    requires var rf := st.refunds[refundId];
             FindOrder(st.orders, rf.order).Some?
             && 0 <= rf.itemIndex < |st.orders[FindOrder(st.orders, rf.order).value].products|
             && st.orders[FindOrder(st.orders, rf.order).value].products[rf.itemIndex].product in st.products
    ensures var rf := st.refunds[refundId];
            var it := st.orders[FindOrder(st.orders, rf.order).value].products[rf.itemIndex];
            var r1 := DecideRefund(schema, st, refundId, "APPROVED", n1, t1);
            var r2 := DecideRefund(schema, r1.store, refundId, "APPROVED", n2, t2);
            && r2.store.orders == r1.store.orders
            && r2.store.products[it.product].stock == st.products[it.product].stock + 2 * it.quantity
  {
    var rf := st.refunds[refundId];
    var oi := FindOrder(st.orders, rf.order).value;
    var it := st.orders[oi].products[rf.itemIndex];
    var r1 := DecideRefund(schema, st, refundId, "APPROVED", n1, t1);
    assert r1.store.refunds[refundId].order == rf.order && r1.store.refunds[refundId].itemIndex == rf.itemIndex;
    assert FindOrder(r1.store.orders, rf.order) == Some(oi) by {
      forall j | 0 <= j < oi ensures r1.store.orders[j].id != rf.order {
        assert r1.store.orders[j] == st.orders[j];
      }
    }
    var it1 := r1.store.orders[oi].products[rf.itemIndex];
    assert it1 == RefundItem(schema, it);
    assert RefundItem(schema, it1) == it1;
  }

  /** With the corrected schema an approved item is settled for good as far
      as the automatic payout is concerned: it is refunded, so every later
      payout run skips it. */
  lemma ApprovedItemIsSkipped(st: Store, refundId: string, notes: Option<string>, now: int)
    requires refundId in st.refunds
    requires var rf := st.refunds[refundId];
             FindOrder(st.orders, rf.order).Some?
             && 0 <= rf.itemIndex < |st.orders[FindOrder(st.orders, rf.order).value].products|
    ensures var rf := st.refunds[refundId];
            var r := DecideRefund(DeclaresRefunded, st, refundId, "APPROVED", notes, now);
            Skipped(r.store.orders[FindOrder(st.orders, rf.order).value].products[rf.itemIndex])
  {
  }

  /** As written, an approved item that was not refunded before is still not
      refunded, and being FAILED rather than COMPLETED it is not skipped. */
  lemma ApprovedItemStaysUnskipped(st: Store, refundId: string, notes: Option<string>, now: int)
    requires refundId in st.refunds
    requires var rf := st.refunds[refundId];
             FindOrder(st.orders, rf.order).Some?
             && 0 <= rf.itemIndex < |st.orders[FindOrder(st.orders, rf.order).value].products|
    ensures var rf := st.refunds[refundId];
            var oi := FindOrder(st.orders, rf.order).value;
            var r := DecideRefund(AsDeclared, st, refundId, "APPROVED", notes, now);
            Skipped(r.store.orders[oi].products[rf.itemIndex]) <==> st.orders[oi].products[rf.itemIndex].refunded
  {
  }

  /** As written, the refund does not stop the money: once its order is past
      the gate again, a payout run of the order that throws nothing sends the
      approved item's vendor exactly one more transfer of its live share,
      when the vendor's bank details pass and it has a linked account. */
  lemma ApprovedItemIsPaidAgain(st: Store, refundId: string, notes: Option<string>, now: int,
                                later: int, oracle: Oracle)
    requires refundId in st.refunds
    requires var rf := st.refunds[refundId];
             FindOrder(st.orders, rf.order).Some?
             && 0 <= rf.itemIndex < |st.orders[FindOrder(st.orders, rf.order).value].products|
    ensures var rf := st.refunds[refundId];
            var oi := FindOrder(st.orders, rf.order).value;
            var it := st.orders[oi].products[rf.itemIndex];
            var after := DecideRefund(AsDeclared, st, refundId, "APPROVED", notes, now).store;
            var r := ProcessOrderPayouts(after, rf.order, later, oracle);
            && !it.refunded && it.vendor in st.vendors
            && ValidateBankDetails(st.vendors[it.vendor]) == Valid
            && Truthy(st.vendors[it.vendor].razorpayAccountId)
            && IsSettleable(st.orders[oi].status) && !WithinReturnWindow(later, after.orders[oi].updatedAt)
            && r.thrown.None?
            ==> SentFor(r.sent, rf.itemIndex)
                  == [Transfer(oi, rf.itemIndex, st.vendors[it.vendor].razorpayAccountId.value,
                               100 * LiveSplit(after, RefundItem(AsDeclared, it), oracle(rf.order, rf.itemIndex)).net,
                               rf.order, it.product)]
  {
    var rf := st.refunds[refundId];
    var oi := FindOrder(st.orders, rf.order).value;
    var after := DecideRefund(AsDeclared, st, refundId, "APPROVED", notes, now).store;
    assert FindOrder(after.orders, rf.order) == Some(oi) by {
      assert after.orders[oi].id == rf.order;
      forall j | 0 <= j < oi ensures after.orders[j].id != rf.order {
        assert after.orders[j] == st.orders[j];
      }
    }
    PayoutAttemptsEveryUnsettledItem(after, rf.order, later, oracle);
  }

  /** The approval has no guard on the payout status: an item already paid
      out (COMPLETED) is turned FAILED. */
  lemma ApprovalFlipsCompletedToFailed(st: Store, refundId: string, notes: Option<string>, now: int)
    requires refundId in st.refunds
    requires var rf := st.refunds[refundId];
             FindOrder(st.orders, rf.order).Some?
             && 0 <= rf.itemIndex < |st.orders[FindOrder(st.orders, rf.order).value].products|
             && st.orders[FindOrder(st.orders, rf.order).value].products[rf.itemIndex].payoutStatus == COMPLETED
    ensures var rf := st.refunds[refundId];
            var r := DecideRefund(AsDeclared, st, refundId, "APPROVED", notes, now);
            r.store.orders[FindOrder(st.orders, rf.order).value].products[rf.itemIndex].payoutStatus == FAILED
  {
  }
}
