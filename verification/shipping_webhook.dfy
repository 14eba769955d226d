/** The courier's status webhook (`POST /api/webhooks/shiprocket`): after a
    shared-key check, the order with the courier's order id gets the
    tracking fields and an order status mapped from the courier's code.
    The mapping is total and always written, and the write moves
    `updatedAt`, the anchor of the payout return window. */
module ShippingWebhook {
  import opened Base
  import opened Model
  import opened PayoutService

  const SecretMissing := "Webhook secret not configured"
  const InternalError := "Internal Server Error"

  /** The fields the route reads from the body. */
  datatype ShipEvent = ShipEvent(
    orderId: string, status: string, awb: Option<string>, courierName: Option<string>, trackingUrl: Option<string>)

  /** `body` is None when the body is not JSON; `secret` is the configured
      shared key and `apiKey` the `x-api-key` header. */
  datatype ShipRequest = ShipRequest(apiKey: Option<string>, secret: Option<string>, body: Option<ShipEvent>)

  datatype ShipResponse = Success200 | Unauthorized401 | OrderNotFound404 | ServerError500(message: string)

  datatype ShipResult = ShipResult(store: Store, response: ShipResponse)

  /** The three checks run in turn, each overriding the default Processing;
      the codes are distinct, so at most one applies. */
  function MapStatus(code: string): (s: OrderStatus)
    ensures s == Shipped <==> code == "6" || code == "Shipped"
    ensures s == Delivered <==> code == "7" || code == "Delivered"
    ensures s == Cancelled <==> code == "8" || code == "Cancelled"
    ensures s == Shipped || s == Delivered || s == Cancelled || s == Processing
  {
    var s0 := Processing;
    var s1 := if code == "6" || code == "Shipped" then Shipped else s0;
    var s2 := if code == "7" || code == "Delivered" then Delivered else s1;
    if code == "8" || code == "Cancelled" then Cancelled else s2
  }

  /** Index of the first order carrying the courier's order id. */
  function FindByShipment(orders: seq<Order>, id: string): (r: Option<nat>)
    ensures r.Some? ==> r.value < |orders| && orders[r.value].shiprocketOrderId == Some(id)
    ensures r.Some? ==> forall j :: 0 <= j < r.value ==> orders[j].shiprocketOrderId != Some(id)
    ensures r.None? ==> forall j :: 0 <= j < |orders| ==> orders[j].shiprocketOrderId != Some(id)
  {
    if |orders| == 0 then None
    else if orders[0].shiprocketOrderId == Some(id) then Some(0)
    else match FindByShipment(orders[1..], id)
      case None => None
      case Some(k) => Some(k + 1)
  }

  /** The update: tracking fields, the raw code and the mapped status. */
  function ApplyShipment(o: Order, e: ShipEvent, now: int): (r: Order)
    ensures r.status == MapStatus(e.status) && r.shippingStatus == Some(e.status)
    ensures r.shiprocketAWB == e.awb && r.shiprocketCourier == e.courierName && r.trackingUrl == e.trackingUrl
    ensures r.updatedAt == now
    ensures r.(status := o.status, shippingStatus := o.shippingStatus, shiprocketAWB := o.shiprocketAWB,
               shiprocketCourier := o.shiprocketCourier, trackingUrl := o.trackingUrl, updatedAt := o.updatedAt) == o
  {
    o.(shiprocketAWB := e.awb, shiprocketCourier := e.courierName, trackingUrl := e.trackingUrl,
       shippingStatus := Some(e.status), status := MapStatus(e.status), updatedAt := now)
  }

  /** The route.  The body is parsed before the key check, so a body that is
      not JSON fails with 500 whatever the key. */
  function ShiprocketWebhook(st: Store, req: ShipRequest, now: int): (r: ShipResult)
    ensures r.response != Success200 ==> r.store == st
    ensures req.body.None? ==> r.response == ServerError500(InternalError)
    ensures req.body.Some? && !Truthy(req.secret) ==> r.response == ServerError500(SecretMissing)
    ensures req.body.Some? && Truthy(req.secret) && req.apiKey != req.secret ==> r.response == Unauthorized401
    ensures r.response == OrderNotFound404 <==>
      req.body.Some? && Truthy(req.secret) && req.apiKey == req.secret
      && FindByShipment(st.orders, req.body.value.orderId).None?
    ensures r.response == Success200 ==>
      var oi := FindByShipment(st.orders, req.body.value.orderId).value;
      && Truthy(req.secret) && req.apiKey == req.secret
      && r.store == st.(orders := st.orders[oi := ApplyShipment(st.orders[oi], req.body.value, now)])
  {
    match req.body
    case None => ShipResult(st, ServerError500(InternalError))
    case Some(e) =>
      if !Truthy(req.secret) then ShipResult(st, ServerError500(SecretMissing))
      else if req.apiKey != req.secret then ShipResult(st, Unauthorized401)
      else
        match FindByShipment(st.orders, e.orderId)
        case None => ShipResult(st, OrderNotFound404)
        case Some(oi) => ShipResult(st.(orders := st.orders[oi := ApplyShipment(st.orders[oi], e, now)]), Success200)
  }

  /** An unrecognised code regresses a delivered order: it becomes
      Processing, which the payout engine does not settle. */
  lemma UnrecognisedCodeRegresses(st: Store, req: ShipRequest, now: int)
    requires req.body.Some? && Truthy(req.secret) && req.apiKey == req.secret
    requires FindByShipment(st.orders, req.body.value.orderId).Some?
    requires req.body.value.status !in ["6", "7", "8", "Shipped", "Delivered", "Cancelled"]
    ensures var oi := FindByShipment(st.orders, req.body.value.orderId).value;
            var r := ShiprocketWebhook(st, req, now);
            r.response == Success200
            && r.store.orders[oi].status == Processing
            && !IsSettleable(r.store.orders[oi].status)
  {
  }

  /** A repeated delivery notification restarts the return window: the
      order is Delivered, but written at `now`, so a payout run at `now`
      defers it. */
  lemma RedeliveryRestartsReturnWindow(st: Store, req: ShipRequest, now: int)
    requires req.body.Some? && Truthy(req.secret) && req.apiKey == req.secret
    requires FindByShipment(st.orders, req.body.value.orderId).Some?
    requires req.body.value.status == "7"
    ensures var oi := FindByShipment(st.orders, req.body.value.orderId).value;
            var o := ShiprocketWebhook(st, req, now).store.orders[oi];
            o.status == Delivered && WithinReturnWindow(now, o.updatedAt)
  {
  }

  /** Delivering the same notification again leaves the store as a single
      delivery at the later time would. */
  lemma {:induction false} RedeliveryIsIdempotent(st: Store, req: ShipRequest, t1: int, t2: int)
    requires req.body.Some? && Truthy(req.secret) && req.apiKey == req.secret
    ensures ShiprocketWebhook(ShiprocketWebhook(st, req, t1).store, req, t2).store == ShiprocketWebhook(st, req, t2).store
  {
    var e := req.body.value;
    var r1 := ShiprocketWebhook(st, req, t1);
    match FindByShipment(st.orders, e.orderId)
    case None =>
    case Some(oi) =>
      assert FindByShipment(r1.store.orders, e.orderId) == Some(oi) by {
        assert r1.store.orders[oi].shiprocketOrderId == st.orders[oi].shiprocketOrderId;
        forall j | 0 <= j < oi ensures r1.store.orders[j].shiprocketOrderId != Some(e.orderId) {
          assert r1.store.orders[j] == st.orders[j];
        }
      }
  }
}
