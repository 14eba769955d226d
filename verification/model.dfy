/** The persisted records the payout engine reads and writes: orders with
    their embedded line items, the payout ledger, vendors, products, refund
    requests and the platform settings, gathered into one `Store`.

    Collections that the database scans in natural order (orders, ledger)
    are sequences, so "the first document that matches" is the first index;
    collections only ever fetched by id are maps. */
module Model {
  import opened Base

  type OrderId = string
  type VendorId = string
  type ProductId = string

  /** Payout status of a line item and of a ledger entry; default PENDING. */
  datatype PayoutStatus = PENDING | BLOCKED | COMPLETED | FAILED

  /** Order status, with the source's mixed case (`completed` is lower-case);
      default Pending. */
  datatype OrderStatus = Pending | Processing | Shipped | Delivered | Cancelled | completed

  datatype PaymentMethod = COD | Card | UPI

  /** One product-quantity entry inside an order, tracked for payout. */
  datatype LineItem = LineItem(
    product: ProductId,
    vendor: VendorId,
    name: string,
    quantity: int,
    price: int,
    payoutStatus: PayoutStatus,
    payoutBlockReason: Option<string>,
    razorpayTransferId: Option<string>,
    refunded: bool,
    commissionAmount: int,
    netAmount: int,
    payoutDate: Option<int>,
    payoutReference: Option<string>,
    isLocked: bool)

  /** A line item as the schema defaults it: PENDING, unlocked, not refunded,
      zero commission and net. */
  function NewLineItem(product: ProductId, vendor: VendorId, name: string, quantity: int, price: int): (it: LineItem)
    ensures it.payoutStatus == PENDING && !it.isLocked && !it.refunded
    ensures it.commissionAmount == 0 && it.netAmount == 0
    ensures it.payoutBlockReason.None? && it.razorpayTransferId.None?
  {
    LineItem(product, vendor, name, quantity, price, PENDING, None, None, false, 0, 0, None, None, false)
  }

  /** The schema's lower bound on quantity. */
  predicate ValidLineItem(it: LineItem)
  {
    it.quantity >= 1
  }

  /** An order.  `updatedAt` is maintained by the timestamps option: every
      write to the order moves it to the time of the write. */
  datatype Order = Order(
    id: OrderId,
    user: string,
    products: seq<LineItem>,
    totalAmount: int,
    status: OrderStatus,
    paymentMethod: PaymentMethod,
    createdAt: int,
    updatedAt: int,
    razorpayOrderId: Option<string>,
    razorpayPaymentId: Option<string>,
    shiprocketOrderId: Option<string>,
    shiprocketShipmentId: Option<string>,
    shiprocketAWB: Option<string>,
    shiprocketCourier: Option<string>,
    trackingUrl: Option<string>,
    shippingStatus: Option<string>)

  /** One record of the payout ledger. */
  datatype PayoutEntry = PayoutEntry(
    id: string,
    order: OrderId,
    vendor: VendorId,
    amount: int,
    platformFee: int,
    payoutStatus: PayoutStatus,
    blockReason: Option<string>,
    razorpayTransferId: Option<string>,
    razorpayPayoutId: Option<string>,
    retryCount: nat,
    processedAt: Option<int>,
    createdAt: int)

  /** The bank fields of a vendor; an absent field is the empty string. */
  datatype PayoutDetails = PayoutDetails(accountNumber: string, ifscCode: string, accountHolder: string)

  datatype Vendor = Vendor(
    id: VendorId,
    businessName: string,
    status: string,
    payoutDetails: Option<PayoutDetails>,
    isBankVerified: bool,
    razorpayAccountId: Option<string>)

  datatype Product = Product(id: ProductId, name: string, price: int, stock: int, vendor: VendorId)

  /** The platform settings singleton.  The rate is a required field; the
      other three may hold `null`. */
  datatype Settings = Settings(commissionRate: int, supportEmail: Option<string>, supportPhone: Option<string>,
                               lowStockThreshold: Option<int>)

  /** The settings document the schema defaults produce. */
  const DefaultSettings := Settings(10, Some("support@ecosaro.com"), Some("+91 999 999 9999"), Some(5))

  datatype RefundStatus = RefundPending | RefundApproved | RefundRejected

  /** A customer's refund request for one line item of one order. */
  datatype Refund = Refund(id: string, order: OrderId, itemIndex: int, status: RefundStatus, adminNotes: Option<string>)

  datatype Store = Store(
    orders: seq<Order>,
    ledger: seq<PayoutEntry>,
    vendors: map<VendorId, Vendor>,
    products: map<ProductId, Product>,
    refunds: map<string, Refund>,
    settings: Option<Settings>)

  /** The rate stored in the settings document, if there is one. */
  function StoredRate(st: Store): Option<int>
  {
    if st.settings.Some? then Some(st.settings.value.commissionRate) else None
  }

  /** The identifier the database gives the ledger entry created at this
      position; distinct positions get distinct identifiers. */
  function LedgerEntryId(position: nat): string
  {
    "payout-" + NatToString(position)
  }

  /** Index of the first order with this id (`findById`). */
  function FindOrder(orders: seq<Order>, id: OrderId): (r: Option<nat>)
    ensures r.Some? ==> r.value < |orders| && orders[r.value].id == id
    ensures r.Some? ==> forall j :: 0 <= j < r.value ==> orders[j].id != id
    ensures r.None? ==> forall j :: 0 <= j < |orders| ==> orders[j].id != id
  {
    if |orders| == 0 then None
    else if orders[0].id == id then Some(0)
    else
      match FindOrder(orders[1..], id)
      case Some(k) => Some(k + 1)
      case None => None
  }

  predicate ValidItemPos(st: Store, oi: nat, ii: nat)
  {
    oi < |st.orders| && ii < |st.orders[oi].products|
  }

  /** Positional `$set` on one line item: the item is replaced and the order's
      `updatedAt` moves to `now`; nothing else in the store changes. */
  function WriteItem(st: Store, oi: nat, ii: nat, item: LineItem, now: int): (st': Store)
    requires ValidItemPos(st, oi, ii)
    ensures |st'.orders| == |st.orders|
    ensures st'.orders[oi].products == st.orders[oi].products[ii := item]
    ensures st'.orders[oi] == st.orders[oi].(products := st'.orders[oi].products, updatedAt := now)
    ensures forall j :: 0 <= j < |st.orders| && j != oi ==> st'.orders[j] == st.orders[j]
    ensures st' == st.(orders := st'.orders)
  {
    var o := st.orders[oi];
    st.(orders := st.orders[oi := o.(products := o.products[ii := item], updatedAt := now)])
  }

  /** `Payout.create`: appends one entry to the ledger. */
  function AppendEntry(st: Store, e: PayoutEntry): (st': Store)
    ensures st'.ledger == st.ledger + [e]
    ensures st' == st.(ledger := st'.ledger)
  {
    st.(ledger := st.ledger + [e])
  }

  /** Shape of the store is unchanged: same orders, each with as many items. */
  predicate SameShape(st: Store, st': Store)
  {
    && |st'.orders| == |st.orders|
    && forall j :: 0 <= j < |st.orders| ==>
         st'.orders[j].id == st.orders[j].id && |st'.orders[j].products| == |st.orders[j].products|
  }
}
