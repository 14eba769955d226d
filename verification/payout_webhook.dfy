/** The provider's payout webhook (`POST /api/webhooks/razorpay/payout`):
    a secret and signature gate, then one of four event handlers that copy
    the provider's verdict onto the ledger entry and, for transfers, onto
    the order item that carries the transfer id.

    The HMAC of the body is not computed: whether the signature header
    equals it is given as a boolean. */
module PayoutWebhook {
  import opened Base
  import opened Model

  const TransferProcessedEvent := "transfer.processed"
  const TransferFailedEvent := "transfer.failed"
  const PayoutProcessedEvent := "payout.processed"
  const PayoutFailedEvent := "payout.failed"

  const UnknownTransferError := "Unknown transfer error"

  /** The entity of the payload: `payload.transfer.entity` for transfer
      events, `payload.payout.entity` for payout events. */
  datatype Entity = Entity(id: string, errorDescription: Option<string>, failureReason: Option<string>)

  /** A parsed body; `entity` is None when the payload lacks the entity the
      event type reads. */
  datatype Event = Event(eventType: string, entity: Option<Entity>)

  /** The configured secret, the signature header, whether the header
      equals the HMAC of the body, and the body parsed as JSON (None when it
      is not JSON). */
  datatype WebhookRequest = WebhookRequest(
    secret: Option<string>, signature: Option<string>, signatureMatches: bool, body: Option<Event>)

  datatype WebhookResponse = Ok200 | BadRequest400(message: string) | ServerError500(message: string)

  datatype WebhookResult = WebhookResult(store: Store, response: WebhookResponse)

  predicate IsHandled(eventType: string)
  {
    eventType in {TransferProcessedEvent, TransferFailedEvent, PayoutProcessedEvent, PayoutFailedEvent}
  }

  /** Position of the first ledger entry with this transfer id. */
  function EntryByTransfer(ledger: seq<PayoutEntry>, id: string): (r: Option<nat>)
    ensures r.Some? ==> r.value < |ledger| && ledger[r.value].razorpayTransferId == Some(id)
    ensures r.Some? ==> forall k :: 0 <= k < r.value ==> ledger[k].razorpayTransferId != Some(id)
    ensures r.None? ==> forall k :: 0 <= k < |ledger| ==> ledger[k].razorpayTransferId != Some(id)
  {
    if |ledger| == 0 then None
    else if ledger[0].razorpayTransferId == Some(id) then Some(0)
    else
      match EntryByTransfer(ledger[1..], id)
      case Some(k) => Some(k + 1)
      case None => None
  }

  /** Position of the first ledger entry with this payout id. */
  function EntryByPayout(ledger: seq<PayoutEntry>, id: string): (r: Option<nat>)
    ensures r.Some? ==> r.value < |ledger| && ledger[r.value].razorpayPayoutId == Some(id)
    ensures r.Some? ==> forall k :: 0 <= k < r.value ==> ledger[k].razorpayPayoutId != Some(id)
    ensures r.None? ==> forall k :: 0 <= k < |ledger| ==> ledger[k].razorpayPayoutId != Some(id)
  {
    if |ledger| == 0 then None
    else if ledger[0].razorpayPayoutId == Some(id) then Some(0)
    else
      match EntryByPayout(ledger[1..], id)
      case Some(k) => Some(k + 1)
      case None => None
  }

  /** Position of the first item carrying this transfer id. */
  function ItemByTransfer(items: seq<LineItem>, id: string): (r: Option<nat>)
    ensures r.Some? ==> r.value < |items| && items[r.value].razorpayTransferId == Some(id)
    ensures r.Some? ==> forall k :: 0 <= k < r.value ==> items[k].razorpayTransferId != Some(id)
    ensures r.None? ==> forall k :: 0 <= k < |items| ==> items[k].razorpayTransferId != Some(id)
  {
    if |items| == 0 then None
    else if items[0].razorpayTransferId == Some(id) then Some(0)
    else
      match ItemByTransfer(items[1..], id)
      case Some(k) => Some(k + 1)
      case None => None
  }

  /** Position of the first order with an item carrying this transfer id. */
  function OrderByTransfer(orders: seq<Order>, id: string): (r: Option<nat>)
    ensures r.Some? ==> r.value < |orders| && ItemByTransfer(orders[r.value].products, id).Some?
    ensures r.Some? ==> forall j :: 0 <= j < r.value ==> ItemByTransfer(orders[j].products, id).None?
    ensures r.None? ==> forall j :: 0 <= j < |orders| ==> ItemByTransfer(orders[j].products, id).None?
  {
    if |orders| == 0 then None
    else if ItemByTransfer(orders[0].products, id).Some? then Some(0)
    else
      match OrderByTransfer(orders[1..], id)
      case Some(k) => Some(k + 1)
      case None => None
  }

  /** The ledger half of a handler: the first entry found by `at` gets the
      status, and, when given, the processing time and the reason. */
  function SetEntry(ledger: seq<PayoutEntry>, at: Option<nat>, status: PayoutStatus,
                    processedAt: Option<int>, setReason: bool, reason: Option<string>): (r: seq<PayoutEntry>)
    requires at.Some? ==> at.value < |ledger|
    ensures |r| == |ledger|
    ensures at.None? ==> r == ledger
    ensures at.Some? ==>
      && r[at.value].payoutStatus == status
      && r[at.value].processedAt == (if processedAt.Some? then processedAt else ledger[at.value].processedAt)
      && r[at.value].blockReason == (if setReason then reason else ledger[at.value].blockReason)
      && r[at.value].razorpayTransferId == ledger[at.value].razorpayTransferId
      && r[at.value].razorpayPayoutId == ledger[at.value].razorpayPayoutId
      && r[at.value].amount == ledger[at.value].amount && r[at.value].platformFee == ledger[at.value].platformFee
      && forall k :: 0 <= k < |ledger| && k != at.value ==> r[k] == ledger[k]
  {
    match at
    case None => ledger
    case Some(k) =>
      var e := ledger[k];
      var e1 := e.(payoutStatus := status);
      var e2 := if processedAt.Some? then e1.(processedAt := processedAt) else e1;
      var e3 := if setReason then e2.(blockReason := reason) else e2;
      ledger[k := e3]
  }

  /** The order half of a transfer handler: the first item carrying the
      transfer id gets the status, and the reason when given; the order's
      `updatedAt` moves to `now`. */
  function SetTransferItem(st: Store, id: string, status: PayoutStatus, reason: Option<string>, now: int)
    : (r: Store)
    ensures r == st.(orders := r.orders) && |r.orders| == |st.orders|
    ensures OrderByTransfer(st.orders, id).None? ==> r == st
    ensures OrderByTransfer(st.orders, id).Some? ==>
      var oi := OrderByTransfer(st.orders, id).value;
      var k := ItemByTransfer(st.orders[oi].products, id).value;
      var it := st.orders[oi].products[k];
      r.orders == st.orders[oi := st.orders[oi].(
        products := st.orders[oi].products[k := if reason.Some? then it.(payoutStatus := status, payoutBlockReason := reason)
                                                 else it.(payoutStatus := status)],
        updatedAt := now)]
  {
    match OrderByTransfer(st.orders, id)
    case None => st
    case Some(oi) =>
      var k := ItemByTransfer(st.orders[oi].products, id).value;
      var it := st.orders[oi].products[k];
      var it' := if reason.Some? then it.(payoutStatus := status, payoutBlockReason := reason) else it.(payoutStatus := status);
      WriteItem(st, oi, k, it', now)
  }

  /** `transfer.error_description || "Unknown transfer error"`. */
  function TransferFailureReason(e: Entity): (r: string)
    ensures r != ""
    ensures Truthy(e.errorDescription) ==> r == e.errorDescription.value
  {
    if Truthy(e.errorDescription) then e.errorDescription.value else UnknownTransferError
  }

  /** One handled event applied to the store.  Unknown ids match nothing and
      change nothing. */
  function ApplyEvent(st: Store, eventType: string, e: Entity, now: int): (r: Store)
    requires IsHandled(eventType)
    ensures r.vendors == st.vendors && r.products == st.products && r.refunds == st.refunds && r.settings == st.settings
    ensures |r.ledger| == |st.ledger| && |r.orders| == |st.orders|
    // payout events never touch an order
    ensures eventType in {PayoutProcessedEvent, PayoutFailedEvent} ==> r.orders == st.orders
    ensures eventType == TransferProcessedEvent ==>
      && r.ledger == SetEntry(st.ledger, EntryByTransfer(st.ledger, e.id), COMPLETED, Some(now), false, None)
      && r == SetTransferItem(st, e.id, COMPLETED, None, now).(ledger := r.ledger)
    ensures eventType == TransferFailedEvent ==>
      && r.ledger == SetEntry(st.ledger, EntryByTransfer(st.ledger, e.id), FAILED, None, true, Some(TransferFailureReason(e)))
      && r == SetTransferItem(st, e.id, FAILED, Some(TransferFailureReason(e)), now).(ledger := r.ledger)
    ensures eventType == PayoutProcessedEvent ==>
      r == st.(ledger := SetEntry(st.ledger, EntryByPayout(st.ledger, e.id), COMPLETED, Some(now), false, None))
    ensures eventType == PayoutFailedEvent ==>
      r == st.(ledger := SetEntry(st.ledger, EntryByPayout(st.ledger, e.id), FAILED, None, true, e.failureReason))
  {
    if eventType == TransferProcessedEvent then
      var l := SetEntry(st.ledger, EntryByTransfer(st.ledger, e.id), COMPLETED, Some(now), false, None);
      SetTransferItem(st, e.id, COMPLETED, None, now).(ledger := l)
    else if eventType == TransferFailedEvent then
      var reason := TransferFailureReason(e);
      var l := SetEntry(st.ledger, EntryByTransfer(st.ledger, e.id), FAILED, None, true, Some(reason));
      SetTransferItem(st, e.id, FAILED, Some(reason), now).(ledger := l)
    else if eventType == PayoutProcessedEvent then
      st.(ledger := SetEntry(st.ledger, EntryByPayout(st.ledger, e.id), COMPLETED, Some(now), false, None))
    else
      st.(ledger := SetEntry(st.ledger, EntryByPayout(st.ledger, e.id), FAILED, None, true, e.failureReason))
  }

  /** The route: the gates in order, then the handler.  A payload without
      the entity its event type reads makes the handler throw, answered 500
      with nothing written; a body that is not JSON throws before the
      handler's try and is answered 500 as well. */
  function Webhook(st: Store, req: WebhookRequest, now: int): (r: WebhookResult)
    ensures !Truthy(req.secret) ==> r == WebhookResult(st, ServerError500("Webhook secret not configured"))
    ensures Truthy(req.secret) && !Truthy(req.signature) ==> r == WebhookResult(st, BadRequest400("Signature missing"))
    ensures Truthy(req.secret) && Truthy(req.signature) && !req.signatureMatches ==>
              r == WebhookResult(st, BadRequest400("Invalid signature"))
    ensures r.response != Ok200 ==> r.store == st
    ensures r.response == Ok200 <==>
      && Truthy(req.secret) && Truthy(req.signature) && req.signatureMatches && req.body.Some?
      && (IsHandled(req.body.value.eventType) ==> req.body.value.entity.Some?)
    ensures r.response == Ok200 && IsHandled(req.body.value.eventType) ==>
      r.store == ApplyEvent(st, req.body.value.eventType, req.body.value.entity.value, now)
    ensures r.response == Ok200 && !IsHandled(req.body.value.eventType) ==> r.store == st
  {
    if !Truthy(req.secret) then WebhookResult(st, ServerError500("Webhook secret not configured"))
    else if !Truthy(req.signature) then WebhookResult(st, BadRequest400("Signature missing"))
    else if !req.signatureMatches then WebhookResult(st, BadRequest400("Invalid signature"))
    else match req.body
      case None => WebhookResult(st, ServerError500("Unexpected token in JSON"))
      case Some(ev) =>
        if !IsHandled(ev.eventType) then WebhookResult(st, Ok200)
        else match ev.entity
          case None => WebhookResult(st, ServerError500("Cannot read properties of undefined (reading 'entity')"))
          case Some(e) => WebhookResult(ApplyEvent(st, ev.eventType, e, now), Ok200)
  }

  /** The handlers never change a transfer or payout id, so the entry and
      item an event finds are found again by the same event. */
  lemma {:induction false} LookupsSurviveEvent(st: Store, eventType: string, e: Entity, now: int, id: string)
    requires IsHandled(eventType)
    ensures var r := ApplyEvent(st, eventType, e, now);
            && EntryByTransfer(r.ledger, id) == EntryByTransfer(st.ledger, id)
            && EntryByPayout(r.ledger, id) == EntryByPayout(st.ledger, id)
            && OrderByTransfer(r.orders, id) == OrderByTransfer(st.orders, id)
            && (OrderByTransfer(st.orders, id).Some? ==>
                  ItemByTransfer(r.orders[OrderByTransfer(st.orders, id).value].products, id)
                  == ItemByTransfer(st.orders[OrderByTransfer(st.orders, id).value].products, id))
  {
    var r := ApplyEvent(st, eventType, e, now);
    EventKeepsIds(st, eventType, e, now);
    EntryLookupsAgree(st.ledger, r.ledger, id);
    forall j | 0 <= j < |st.orders|
      ensures ItemByTransfer(r.orders[j].products, id) == ItemByTransfer(st.orders[j].products, id)
    {
      ItemLookupAgrees(st.orders[j].products, r.orders[j].products, id);
    }
    OrderLookupAgrees(st.orders, r.orders, id);
  }

  /** No handler changes an entry's ids or an item's transfer id. */
  lemma EventKeepsIds(st: Store, eventType: string, e: Entity, now: int)
    requires IsHandled(eventType)
    ensures var r := ApplyEvent(st, eventType, e, now);
            && (forall k :: 0 <= k < |st.ledger| ==>
                  r.ledger[k].razorpayTransferId == st.ledger[k].razorpayTransferId
                  && r.ledger[k].razorpayPayoutId == st.ledger[k].razorpayPayoutId)
            && (forall j :: 0 <= j < |st.orders| ==> |r.orders[j].products| == |st.orders[j].products|)
            && (forall j, k :: 0 <= j < |st.orders| && 0 <= k < |st.orders[j].products| ==>
                  r.orders[j].products[k].razorpayTransferId == st.orders[j].products[k].razorpayTransferId)
  {
    if eventType == TransferProcessedEvent || eventType == TransferFailedEvent {
      var r := ApplyEvent(st, eventType, e, now);
      match OrderByTransfer(st.orders, e.id)
      case None =>
      case Some(oi) =>
        var k0 := ItemByTransfer(st.orders[oi].products, e.id).value;
        assert r.orders[oi].products[k0].razorpayTransferId == st.orders[oi].products[k0].razorpayTransferId;
    }
  }

  lemma {:induction false} EntryLookupsAgree(a: seq<PayoutEntry>, b: seq<PayoutEntry>, id: string)
    requires |a| == |b|
    requires forall k :: 0 <= k < |a| ==>
      b[k].razorpayTransferId == a[k].razorpayTransferId && b[k].razorpayPayoutId == a[k].razorpayPayoutId
    ensures EntryByTransfer(b, id) == EntryByTransfer(a, id)
    ensures EntryByPayout(b, id) == EntryByPayout(a, id)
    decreases |a|
  {
    if |a| > 0 {
      EntryLookupsAgree(a[1..], b[1..], id);
    }
  }

  lemma {:induction false} ItemLookupAgrees(a: seq<LineItem>, b: seq<LineItem>, id: string)
    requires |a| == |b|
    requires forall k :: 0 <= k < |a| ==> b[k].razorpayTransferId == a[k].razorpayTransferId
    ensures ItemByTransfer(b, id) == ItemByTransfer(a, id)
    decreases |a|
  {
    if |a| > 0 {
      ItemLookupAgrees(a[1..], b[1..], id);
    }
  }

  lemma {:induction false} OrderLookupAgrees(a: seq<Order>, b: seq<Order>, id: string)
    requires |a| == |b|
    requires forall j :: 0 <= j < |a| ==> ItemByTransfer(b[j].products, id) == ItemByTransfer(a[j].products, id)
    ensures OrderByTransfer(b, id) == OrderByTransfer(a, id)
    decreases |a|
  {
    if |a| > 0 {
      OrderLookupAgrees(a[1..], b[1..], id);
    }
  }

  /** Redelivery: the second delivery of an event leaves the store exactly
      as a single delivery at the later time would; the statuses are
      constant and only the times move. */
  lemma {:induction false} RedeliveryIsIdempotent(st: Store, eventType: string, e: Entity, t1: int, t2: int)
    requires IsHandled(eventType)
    ensures ApplyEvent(ApplyEvent(st, eventType, e, t1), eventType, e, t2) == ApplyEvent(st, eventType, e, t2)
  {
    RedeliveryLedger(st, eventType, e, t1, t2);
    RedeliveryOrders(st, eventType, e, t1, t2);
  }

  /** The ledger half of redelivery. */
  lemma RedeliveryLedger(st: Store, eventType: string, e: Entity, t1: int, t2: int)
    requires IsHandled(eventType)
    ensures ApplyEvent(ApplyEvent(st, eventType, e, t1), eventType, e, t2).ledger == ApplyEvent(st, eventType, e, t2).ledger
  {
    LookupsSurviveEvent(st, eventType, e, t1, e.id);
  }

  /** The orders half of redelivery. */
  lemma RedeliveryOrders(st: Store, eventType: string, e: Entity, t1: int, t2: int)
    requires IsHandled(eventType)
    ensures ApplyEvent(ApplyEvent(st, eventType, e, t1), eventType, e, t2).orders == ApplyEvent(st, eventType, e, t2).orders
  {
    if eventType == TransferProcessedEvent || eventType == TransferFailedEvent {
      if OrderByTransfer(st.orders, e.id).Some? {
        TransferRedeliveryOrders(st, eventType, e, t1, t2);
      }
    }
  }

  /** A transfer event that finds its item writes the same item the second
      time, with the same status and reason, and only the time moves. */
  lemma TransferRedeliveryOrders(st: Store, eventType: string, e: Entity, t1: int, t2: int)
    requires eventType == TransferProcessedEvent || eventType == TransferFailedEvent
    requires OrderByTransfer(st.orders, e.id).Some?
    ensures ApplyEvent(ApplyEvent(st, eventType, e, t1), eventType, e, t2).orders == ApplyEvent(st, eventType, e, t2).orders
  {
    var status := if eventType == TransferProcessedEvent then COMPLETED else FAILED;
    var reason := if eventType == TransferProcessedEvent then None else Some(TransferFailureReason(e));
    var s1 := ApplyEvent(st, eventType, e, t1);
    LookupsSurviveEvent(st, eventType, e, t1, e.id);
    assert s1.orders == SetTransferItem(st, e.id, status, reason, t1).orders;
    assert ApplyEvent(s1, eventType, e, t2).orders == SetTransferItem(s1, e.id, status, reason, t2).orders;
    assert ApplyEvent(st, eventType, e, t2).orders == SetTransferItem(st, e.id, status, reason, t2).orders;
    SetTransferItemTwice(st, s1, e.id, status, reason, t1, t2);
  }

  /** Writing the item a second time, found at the same place, gives what
      one write at the later time gives. */
  lemma SetTransferItemTwice(st: Store, s1: Store, id: string, status: PayoutStatus, reason: Option<string>, t1: int, t2: int)
    requires OrderByTransfer(st.orders, id).Some?
    requires s1.orders == SetTransferItem(st, id, status, reason, t1).orders
    requires OrderByTransfer(s1.orders, id) == OrderByTransfer(st.orders, id)
    requires ItemByTransfer(s1.orders[OrderByTransfer(st.orders, id).value].products, id)
             == ItemByTransfer(st.orders[OrderByTransfer(st.orders, id).value].products, id)
    ensures SetTransferItem(s1, id, status, reason, t2).orders == SetTransferItem(st, id, status, reason, t2).orders
  {
    var oi := OrderByTransfer(st.orders, id).value;
    assert SetTransferItem(s1, id, status, reason, t2).orders[oi] == SetTransferItem(st, id, status, reason, t2).orders[oi];
  }

  /** `transfer.failed` has no guard: an item an earlier automatic payout
      or `transfer.processed` left COMPLETED is turned FAILED, and so is its
      ledger entry. */
  lemma FailedOverwritesCompleted(st: Store, e: Entity, now: int)
    requires OrderByTransfer(st.orders, e.id).Some?
    requires var oi := OrderByTransfer(st.orders, e.id).value;
             st.orders[oi].products[ItemByTransfer(st.orders[oi].products, e.id).value].payoutStatus == COMPLETED
    ensures var r := ApplyEvent(st, TransferFailedEvent, e, now);
            var oi := OrderByTransfer(st.orders, e.id).value;
            var k := ItemByTransfer(st.orders[oi].products, e.id).value;
            && r.orders[oi].products[k].payoutStatus == FAILED
            && r.orders[oi].products[k].payoutBlockReason == Some(TransferFailureReason(e))
  {
  }

  /** An id that no entry and no item carries changes nothing. */
  lemma UnknownIdIsNoOp(st: Store, eventType: string, e: Entity, now: int)
    requires IsHandled(eventType)
    requires forall k :: 0 <= k < |st.ledger| ==>
               st.ledger[k].razorpayTransferId != Some(e.id) && st.ledger[k].razorpayPayoutId != Some(e.id)
    requires forall j, k :: 0 <= j < |st.orders| && 0 <= k < |st.orders[j].products| ==>
               st.orders[j].products[k].razorpayTransferId != Some(e.id)
    ensures ApplyEvent(st, eventType, e, now) == st
  {
    assert EntryByTransfer(st.ledger, e.id).None?;
    assert EntryByPayout(st.ledger, e.id).None?;
    assert forall j :: 0 <= j < |st.orders| ==> ItemByTransfer(st.orders[j].products, e.id).None?;
  }
}
