/** Order creation after payment (`POST /api/payment/verify`): the payment
    signature gate, a stock pre-check that prices every line from the
    catalog, one conditional stock decrement per line, and the new order
    whose items freeze the commission split at the rate of the moment.

    The HMAC comparison is a boolean input; the decrements, which the
    source issues concurrently, are applied in input order; the
    shipping-provider call is an input answer. */
module Checkout {
  import opened Base
  import opened Model
  import opened Commission
  import opened PayoutService

  /** A cart line as the client sends it; the product is `id || productId`. */
  datatype CartLine = CartLine(id: Option<string>, productId: Option<string>, name: string, quantity: int)

  /** A line after the pre-check, with the catalog's vendor, name and price. */
  datatype PricedLine = PricedLine(product: ProductId, vendor: VendorId, name: string, price: int, quantity: int)

  datatype Precheck = Priced(lines: seq<PricedLine>) | NotFound(name: string) | ShortOfStock(name: string)

  /** The shipping provider's answer to `createOrder`. */
  datatype ShipmentAnswer = Shipment(orderId: Option<string>, shipmentId: Option<string>) | ShipmentError(message: string)

  datatype CheckoutRequest = CheckoutRequest(
    user: Option<string>, signatureMatches: bool, razorpayOrderId: string, razorpayPaymentId: string,
    items: seq<CartLine>)

  datatype CheckoutResponse =
    | Unauthenticated401
    | VerificationFailed400
    | ProductNotFound404(message: string)
    | InsufficientStock400(message: string)
    | InternalError500
    | Created200(orderId: OrderId)

  datatype CheckoutResult = CheckoutResult(store: Store, response: CheckoutResponse)

  /** `item.id || item.productId`. */
  function LineProduct(l: CartLine): Option<ProductId>
  {
    if Truthy(l.id) then l.id else l.productId
  }

  /** The pre-check accepts a line when its product exists with enough stock. */
  predicate LineAvailable(products: map<ProductId, Product>, l: CartLine)
  {
    LineProduct(l).Some? && LineProduct(l).value in products && products[LineProduct(l).value].stock >= l.quantity
  }

  /** The pre-check loop: the first failing line decides the answer; no
      stock is touched either way. */
  function PriceLines(products: map<ProductId, Product>, lines: seq<CartLine>): (r: Precheck)
    ensures r.Priced? <==> forall k :: 0 <= k < |lines| ==> LineAvailable(products, lines[k])
    ensures r.Priced? ==> |r.lines| == |lines| && forall k :: 0 <= k < |lines| ==>
      var p := products[LineProduct(lines[k]).value];
      r.lines[k] == PricedLine(LineProduct(lines[k]).value, p.vendor, p.name, p.price, lines[k].quantity)
    ensures r.NotFound? ==>
      exists k :: 0 <= k < |lines|
        && (forall j :: 0 <= j < k ==> LineAvailable(products, lines[j]))
        && (LineProduct(lines[k]).None? || LineProduct(lines[k]).value !in products)
        && r.name == lines[k].name
    ensures r.ShortOfStock? ==>
      exists k :: 0 <= k < |lines|
        && (forall j :: 0 <= j < k ==> LineAvailable(products, lines[j]))
        && LineProduct(lines[k]).Some? && LineProduct(lines[k]).value in products
        && products[LineProduct(lines[k]).value].stock < lines[k].quantity
        && r.name == products[LineProduct(lines[k]).value].name
  {
    if |lines| == 0 then Priced([])
    else
      var l := lines[0];
      var id := LineProduct(l);
      if id.None? || id.value !in products then NotFound(l.name)
      else if products[id.value].stock < l.quantity then ShortOfStock(products[id.value].name)
      else
        var p := products[id.value];
        match PriceLines(products, lines[1..])
        case Priced(rest) =>
          assert forall k :: 1 <= k < |lines| ==> lines[k] == lines[1..][k - 1];
          Priced([PricedLine(id.value, p.vendor, p.name, p.price, l.quantity)] + rest)
        case NotFound(n) =>
          assert forall k :: 0 <= k < |lines| - 1 ==> lines[1..][k] == lines[k + 1];
          NotFound(n)
        case ShortOfStock(n) =>
          assert forall k :: 0 <= k < |lines| - 1 ==> lines[1..][k] == lines[k + 1];
          ShortOfStock(n)
  }

  /** The running total of the pre-check: the catalog price times the
      requested quantity, summed over the lines. */
  function Total(lines: seq<PricedLine>): int
  {
    if |lines| == 0 then 0 else lines[0].price * lines[0].quantity + Total(lines[1..])
  }

  /** The conditional decrement of one line: it applies only while the stock
      still covers the quantity. */
  function Decrement(products: map<ProductId, Product>, l: PricedLine): (r: (map<ProductId, Product>, bool))
    ensures r.0.Keys == products.Keys
    ensures r.1 <==> l.product in products && products[l.product].stock >= l.quantity
    ensures r.1 ==> r.0 == products[l.product := products[l.product].(stock := products[l.product].stock - l.quantity)]
    ensures !r.1 ==> r.0 == products
  {
    if l.product in products && products[l.product].stock >= l.quantity then
      (products[l.product := products[l.product].(stock := products[l.product].stock - l.quantity)], true)
    else (products, false)
  }

  /** The quantities the lines ask of one product, in line order. */
  function QuantitiesFor(lines: seq<PricedLine>, id: ProductId): (qs: seq<int>)
    ensures |qs| <= |lines|
  {
    if |lines| == 0 then []
    else (if lines[0].product == id then [lines[0].quantity] else []) + QuantitiesFor(lines[1..], id)
  }

  /** One product's stock after its guarded decrements, each applied only
      when the stock left by the earlier ones covers it. */
  function StockAfter(stock: int, qs: seq<int>): int
    decreases |qs|
  {
    if |qs| == 0 then stock
    else StockAfter(if stock >= qs[0] then stock - qs[0] else stock, qs[1..])
  }

  /** Every one of the product's guarded decrements passes its guard. */
  predicate AllFit(stock: int, qs: seq<int>)
    decreases |qs|
  {
    |qs| == 0 || (stock >= qs[0] && AllFit(stock - qs[0], qs[1..]))
  }

  /** Every line's decrement is attempted; a failed one does not undo the
      others.  The flag says whether all of them applied. */
  function DecrementAll(products: map<ProductId, Product>, lines: seq<PricedLine>): (r: (map<ProductId, Product>, bool))
    ensures r.0.Keys == products.Keys
    ensures forall p :: p in products ==> r.0[p] == products[p].(stock := r.0[p].stock)
    decreases |lines|
  {
    if |lines| == 0 then (products, true)
    else
      var d := Decrement(products, lines[0]);
      var rest := DecrementAll(d.0, lines[1..]);
      (rest.0, d.1 && rest.1)
  }

  /** Products evolve independently under `DecrementAll`: each one's stock
      is its own guarded decrements applied in line order, and the flag says
      that every line named a known product and passed its guard on the
      stock the earlier lines left. */
  lemma {:induction false} DecrementAllPerProduct(products: map<ProductId, Product>, lines: seq<PricedLine>)
    ensures var r := DecrementAll(products, lines);
            && (forall p :: p in products ==> r.0[p].stock == StockAfter(products[p].stock, QuantitiesFor(lines, p)))
            && (r.1 <==>
                 && (forall k :: 0 <= k < |lines| ==> lines[k].product in products)
                 && (forall p :: p in products ==> AllFit(products[p].stock, QuantitiesFor(lines, p))))
    decreases |lines|
  {
    if |lines| > 0 {
      var d := Decrement(products, lines[0]);
      var rest := DecrementAll(d.0, lines[1..]);
      DecrementAllPerProduct(d.0, lines[1..]);
      DecrementStep(products, lines, d.0, d.1, rest.0, rest.1);
    }
  }

  /** The induction step of `DecrementAll`: the first line touches only its
      own product, so the other products' histories are those of the tail. */
  lemma {:induction false} DecrementStep(products: map<ProductId, Product>, lines: seq<PricedLine>,
                                         after: map<ProductId, Product>, ok: bool,
                                         fin: map<ProductId, Product>, restOk: bool)
    requires |lines| > 0 && (after, ok) == Decrement(products, lines[0])
    requires fin.Keys == after.Keys
    requires forall p :: p in after ==> fin[p] == after[p].(stock := fin[p].stock)
    requires forall p :: p in after ==> fin[p].stock == StockAfter(after[p].stock, QuantitiesFor(lines[1..], p))
    requires restOk <==>
      && (forall k :: 0 <= k < |lines[1..]| ==> lines[1..][k].product in after)
      && (forall p :: p in after ==> AllFit(after[p].stock, QuantitiesFor(lines[1..], p)))
    ensures fin.Keys == products.Keys
    ensures forall p :: p in products ==> fin[p] == products[p].(stock := fin[p].stock)
    ensures forall p :: p in products ==> fin[p].stock == StockAfter(products[p].stock, QuantitiesFor(lines, p))
    ensures (ok && restOk) <==>
      && (forall k :: 0 <= k < |lines| ==> lines[k].product in products)
      && (forall p :: p in products ==> AllFit(products[p].stock, QuantitiesFor(lines, p)))
  {
    var l := lines[0];
    var tail := lines[1..];
    forall p | p in products
      ensures fin[p].stock == StockAfter(products[p].stock, QuantitiesFor(lines, p))
      ensures AllFit(products[p].stock, QuantitiesFor(lines, p)) <==>
                (p == l.product ==> ok) && AllFit(after[p].stock, QuantitiesFor(tail, p))
    {
      ProductHistoryStep(products, lines, after, ok, p);
    }
    LinesKnownStep(products, lines, after);
    if !ok && l.product in products {
      assert !AllFit(products[l.product].stock, QuantitiesFor(lines, l.product));
    }
  }

  /** One product's history across the first line. */
  lemma {:induction false} ProductHistoryStep(products: map<ProductId, Product>, lines: seq<PricedLine>,
                                              after: map<ProductId, Product>, ok: bool, p: ProductId)
    requires |lines| > 0 && (after, ok) == Decrement(products, lines[0]) && p in products
    ensures StockAfter(products[p].stock, QuantitiesFor(lines, p)) == StockAfter(after[p].stock, QuantitiesFor(lines[1..], p))
    ensures AllFit(products[p].stock, QuantitiesFor(lines, p)) <==>
              (p == lines[0].product ==> ok) && AllFit(after[p].stock, QuantitiesFor(lines[1..], p))
  {
    var l := lines[0];
    var tail := lines[1..];
    if p == l.product {
      var qs := QuantitiesFor(lines, p);
      assert qs == [l.quantity] + QuantitiesFor(tail, p);
      assert qs[0] == l.quantity && qs[1..] == QuantitiesFor(tail, p);
    } else {
      assert QuantitiesFor(lines, p) == QuantitiesFor(tail, p);
    }
  }

  /** Every line names a known product exactly when the first one does and
      the tail's do; the decrement keeps the keys. */
  lemma {:induction false} LinesKnownStep(products: map<ProductId, Product>, lines: seq<PricedLine>,
                                          after: map<ProductId, Product>)
    requires |lines| > 0 && after.Keys == products.Keys
    ensures (forall k :: 0 <= k < |lines| ==> lines[k].product in products) <==>
            lines[0].product in products && (forall k :: 0 <= k < |lines[1..]| ==> lines[1..][k].product in after)
  {
    var tail := lines[1..];
    forall k | 0 <= k < |tail| ensures tail[k] == lines[k + 1] { }
    if lines[0].product in products && (forall k :: 0 <= k < |tail| ==> tail[k].product in after) {
      forall k | 0 <= k < |lines| ensures lines[k].product in products {
        if k > 0 { assert lines[k] == tail[k - 1]; }
      }
    }
  }

  /** Stock consumed by the lines for one product. */
  function Demand(lines: seq<PricedLine>, id: ProductId): int
  {
    if |lines| == 0 then 0 else (if lines[0].product == id then lines[0].quantity else 0) + Demand(lines[1..], id)
  }

  /** When every product's stock covers the whole demand for it and no line
      asks for a negative quantity, every decrement applies and each stock
      falls by exactly its demand. */
  lemma {:induction false} DecrementsApplyExactly(products: map<ProductId, Product>, lines: seq<PricedLine>)
    requires forall k :: 0 <= k < |lines| ==> lines[k].product in products && lines[k].quantity >= 0
    requires forall k :: 0 <= k < |lines| ==> products[lines[k].product].stock >= Demand(lines, lines[k].product)
    ensures DecrementAll(products, lines).1
    ensures forall p :: p in products ==> DecrementAll(products, lines).0[p].stock == products[p].stock - Demand(lines, p)
    decreases |lines|
  {
    if |lines| > 0 {
      var l := lines[0];
      DemandCoversLine(lines, l.product);
      var d := Decrement(products, l);
      assert d.1;
      var tail := lines[1..];
      forall k | 0 <= k < |tail|
        ensures d.0[tail[k].product].stock >= Demand(tail, tail[k].product)
      {
        assert tail[k] == lines[k + 1];
      }
      forall k | 0 <= k < |tail| ensures tail[k].product in d.0 && tail[k].quantity >= 0 {
        assert tail[k] == lines[k + 1];
      }
      DecrementsApplyExactly(d.0, tail);
    }
  }

  lemma {:induction false} DemandCoversLine(lines: seq<PricedLine>, id: ProductId)
    requires |lines| > 0 && lines[0].product == id
    requires forall k :: 0 <= k < |lines| ==> lines[k].quantity >= 0
    ensures Demand(lines, id) >= lines[0].quantity
  {
    DemandNonNegative(lines[1..], id);
  }

  lemma {:induction false} DemandNonNegative(lines: seq<PricedLine>, id: ProductId)
    requires forall k :: 0 <= k < |lines| ==> lines[k].quantity >= 0
    ensures Demand(lines, id) >= 0
    decreases |lines|
  {
    if |lines| > 0 {
      DemandNonNegative(lines[1..], id);
    }
  }

  /** A new item: the frozen split at the rate of the moment, PENDING and
      unlocked. */
  function FrozenItem(l: PricedLine, rate: int): (it: LineItem)
    ensures it.payoutStatus == PENDING && !it.isLocked && !it.refunded
    ensures it.commissionAmount == Fee(l.price * l.quantity, rate)
    ensures it.commissionAmount + it.netAmount == l.price * l.quantity
    ensures it.product == l.product && it.vendor == l.vendor && it.price == l.price && it.quantity == l.quantity
  {
    var s := ComputeSplit(l.price, l.quantity, rate);
    NewLineItem(l.product, l.vendor, l.name, l.quantity, l.price).(commissionAmount := s.fee, netAmount := s.net)
  }

  function FrozenItems(lines: seq<PricedLine>, rate: int): (items: seq<LineItem>)
    ensures |items| == |lines|
    ensures forall k :: 0 <= k < |lines| ==> items[k] == FrozenItem(lines[k], rate)
  {
    if |lines| == 0 then [] else [FrozenItem(lines[0], rate)] + FrozenItems(lines[1..], rate)
  }

  /** Sum of the frozen splits of the items. */
  function SplitSum(items: seq<LineItem>): int
  {
    if |items| == 0 then 0 else items[0].commissionAmount + items[0].netAmount + SplitSum(items[1..])
  }

  /** The order total is what the items' commissions and nets add up to. */
  lemma {:induction false} TotalIsSumOfSplits(lines: seq<PricedLine>, rate: int)
    ensures SplitSum(FrozenItems(lines, rate)) == Total(lines)
    decreases |lines|
  {
    if |lines| > 0 {
      var items := FrozenItems(lines, rate);
      assert items[1..] == FrozenItems(lines[1..], rate);
      TotalIsSumOfSplits(lines[1..], rate);
    }
  }

  /** `Order.create`: the schema's minimum quantity is checked here, after
      the stock has already been decremented. */
  predicate QuantitiesValid(lines: seq<PricedLine>)
  {
    forall k :: 0 <= k < |lines| ==> lines[k].quantity >= 1
  }

  function NewOrder(id: OrderId, user: string, lines: seq<PricedLine>, rate: int, req: CheckoutRequest, now: int): (o: Order)
    ensures o.status == completed && o.paymentMethod == Card
    ensures o.totalAmount == Total(lines)
    ensures o.createdAt == now && o.updatedAt == now
    ensures |o.products| == |lines|
    ensures forall k :: 0 <= k < |lines| ==> o.products[k] == FrozenItem(lines[k], rate)
  {
    Order(id, user, FrozenItems(lines, rate), Total(lines), completed, Card, now, now,
          Some(req.razorpayOrderId), Some(req.razorpayPaymentId), None, None, None, None, None, None)
  }

  /** The shipping sync: an answer with an order id is copied onto the new
      order; an error or an answer without one leaves it alone. */
  function SyncShipment(st: Store, oi: nat, answer: ShipmentAnswer, now: int): (r: Store)
    requires oi < |st.orders|
    ensures |r.orders| == |st.orders|
    ensures r == st.(orders := r.orders)
    ensures r.orders[oi].products == st.orders[oi].products && r.orders[oi].status == st.orders[oi].status
    ensures r.orders[oi].totalAmount == st.orders[oi].totalAmount && r.orders[oi].id == st.orders[oi].id
    ensures forall j :: 0 <= j < |st.orders| && j != oi ==> r.orders[j] == st.orders[j]
    ensures (answer.ShipmentError? || !Truthy(answer.orderId)) ==> r == st
  {
    match answer
    case ShipmentError(_) => st
    case Shipment(srId, shipmentId) =>
      if !Truthy(srId) then st
      else
        var o := st.orders[oi];
        st.(orders := st.orders[oi := o.(shiprocketOrderId := srId, shiprocketShipmentId := shipmentId,
                                         shippingStatus := Some("Processing"), updatedAt := now)])
  }

  /** The route.  `newId` is the id the database gives the new order. */
  function VerifyPayment(st: Store, req: CheckoutRequest, newId: OrderId, shipment: ShipmentAnswer, now: int)
    : (r: CheckoutResult)
    ensures req.user.None? ==> r == CheckoutResult(st, Unauthenticated401)
    ensures req.user.Some? && !req.signatureMatches ==> r == CheckoutResult(st, VerificationFailed400)
    // a failed pre-check answers before any stock is touched
    ensures r.response.ProductNotFound404? || r.response.InsufficientStock400? ==> r.store == st
    ensures req.user.Some? && req.signatureMatches && !PriceLines(st.products, req.items).Priced? ==>
              r.response.ProductNotFound404? || r.response.InsufficientStock400?
    ensures r.response.Created200? ==>
      var lines := PriceLines(st.products, req.items).lines;
      && req.user.Some? && req.signatureMatches && PriceLines(st.products, req.items).Priced?
      && DecrementAll(st.products, lines).1 && QuantitiesValid(lines)
      && r.response.orderId == newId
      && r.store.products == DecrementAll(st.products, lines).0
      && |r.store.orders| == |st.orders| + 1 && r.store.orders[..|st.orders|] == st.orders
      && r.store.orders[|st.orders|].id == newId
      && r.store.orders[|st.orders|].totalAmount == Total(lines)
      && r.store.orders[|st.orders|].status == completed
      && r.store.orders[|st.orders|].products == FrozenItems(lines, CurrentRate(StoredRate(st)))
      && r.store.ledger == st.ledger && r.store.vendors == st.vendors
    // a failed decrement or a rejected quantity is a 500 that keeps the decrements made
    ensures r.response == InternalError500 ==>
      && PriceLines(st.products, req.items).Priced?
      && r.store == st.(products := DecrementAll(st.products, PriceLines(st.products, req.items).lines).0)
  {
    if req.user.None? then CheckoutResult(st, Unauthenticated401)
    else if !req.signatureMatches then CheckoutResult(st, VerificationFailed400)
    else
      match PriceLines(st.products, req.items)
      case NotFound(name) => CheckoutResult(st, ProductNotFound404("Product " + name + " not found"))
      case ShortOfStock(name) => CheckoutResult(st, InsufficientStock400("Insufficient stock for " + name))
      case Priced(lines) =>
        var rate := CurrentRate(StoredRate(st));
        var dec := DecrementAll(st.products, lines);
        var st1 := st.(products := dec.0);
        if !dec.1 || !QuantitiesValid(lines) then CheckoutResult(st1, InternalError500)
        else
          var st2 := st1.(orders := st1.orders + [NewOrder(newId, req.user.value, lines, rate, req, now)]);
          CheckoutResult(SyncShipment(st2, |st1.orders|, shipment, now), Created200(newId))
  }

  /** The shipping sync never decides the outcome: the same order is created
      and the same answer given whatever the provider answers. */
  lemma ShipmentDoesNotChangeOutcome(st: Store, req: CheckoutRequest, newId: OrderId, a1: ShipmentAnswer,
                                     a2: ShipmentAnswer, now: int)
    ensures var r1 := VerifyPayment(st, req, newId, a1, now);
            var r2 := VerifyPayment(st, req, newId, a2, now);
            && r1.response == r2.response
            && |r1.store.orders| == |r2.store.orders|
            && r1.store.products == r2.store.products
            && (r1.response.Created200? ==>
                  r1.store.orders[|st.orders|].products == r2.store.orders[|st.orders|].products
                  && r1.store.orders[|st.orders|].totalAmount == r2.store.orders[|st.orders|].totalAmount)
  {
  }

  /** The same product twice in one cart: each line passes the pre-check
      on its own, but together they ask for more than the stock.  The second
      decrement fails, the route answers 500, and the first decrement is
      kept: three units become one and no order exists. */
  lemma DoubleLineLosesStock()
    ensures var products := map["p1" := Product("p1", "Bamboo Brush", 100, 3, "vA")];
            var st := Store([], [], map[], products, map[], None);
            var line := CartLine(Some("p1"), None, "Bamboo Brush", 2);
            var r := VerifyPayment(st, CheckoutRequest(Some("u1"), true, "order_1", "pay_1", [line, line]),
                                   "o1", ShipmentError("offline"), 0);
            && r.response == InternalError500
            && r.store.orders == []
            && r.store.products["p1"].stock == 1
  {
    var products := map["p1" := Product("p1", "Bamboo Brush", 100, 3, "vA")];
    var line := CartLine(Some("p1"), None, "Bamboo Brush", 2);
    var pl := PricedLine("p1", "vA", "Bamboo Brush", 100, 2);
    assert PriceLines(products, [line, line]) == Priced([pl, pl]) by {
      assert PriceLines(products, [line]) == Priced([pl]);
    }
    TwoLinesOverdraw(products, pl);
  }

  /** The decrements of that cart: the first applies, the second fails. */
  lemma TwoLinesOverdraw(products: map<ProductId, Product>, pl: PricedLine)
    requires products == map["p1" := Product("p1", "Bamboo Brush", 100, 3, "vA")]
    requires pl == PricedLine("p1", "vA", "Bamboo Brush", 100, 2)
    ensures DecrementAll(products, [pl, pl]) == (map["p1" := Product("p1", "Bamboo Brush", 100, 1, "vA")], false)
  {
    var d1 := Decrement(products, pl);
    assert d1.0 == map["p1" := Product("p1", "Bamboo Brush", 100, 1, "vA")];
    assert DecrementAll(d1.0, [pl]) == (d1.0, false);
    assert [pl, pl][1..] == [pl];
  }

  /** A new order is payout-eligible by status at once and, while it still
      has an item, a sweep candidate's status; only the return window,
      measured from its creation, holds it back. */
  lemma NewOrderIsSettleable(st: Store, req: CheckoutRequest, newId: OrderId, shipment: ShipmentAnswer, now: int)
    requires VerifyPayment(st, req, newId, shipment, now).response.Created200?
    ensures var o := VerifyPayment(st, req, newId, shipment, now).store.orders[|st.orders|];
            && IsSettleable(o.status)
            && (forall k :: 0 <= k < |o.products| ==> o.products[k].payoutStatus == PENDING && !o.products[k].isLocked)
            && WithinReturnWindow(now, o.updatedAt)
  {
  }
}
