/** The vendor's earnings page data (`GET /api/vendor/payments`): three
    buckets over the vendor's items in orders that are not Cancelled, a
    transaction list merging those sales with the vendor's latest ledger
    entries, newest first, and two flags about the bank details.

    The vendor share here ignores the frozen commission and always takes
    ten percent. */
module VendorPayments {
  import opened Base
  import opened Model
  import opened Commission
  import opened BankCheck
  import opened Sorting

  /** Ledger entries the history query keeps (`limit(50)`). */
  const HistoryLimit := 50

  /** One of the vendor's line items, as the route reads it. */
  datatype Sale = Sale(orderId: OrderId, product: ProductId, date: int, share: int, status: PayoutStatus, refunded: bool)

  datatype TxKind = SaleTx | PayoutTx

  /** One entry of the transaction list. */
  datatype Transaction = Transaction(
    id: string, date: int, amount: int, kind: TxKind, status: string, reference: string, isRefunded: Option<bool>)

  datatype EarningsMetrics = EarningsMetrics(totalEarnings: int, pendingPayouts: int, refundsTotal: int, availableBalance: int)

  datatype VendorFlags = VendorFlags(isBankVerified: bool, hasBankDetails: bool, payoutBlockReason: Option<string>)

  datatype PaymentsResponse =
    | VendorNotFound404
    | Payments(metrics: EarningsMetrics, transactions: seq<Transaction>, vendor: VendorFlags)

  /** `total - Math.round(total * 0.1)`. */
  function VendorShare(total: int): (share: int)
    ensures 100 * (total - share) - 50 <= total * 10 < 100 * (total - share) + 50
  {
    total - Fee(total, DefaultRate)
  }

  /** The order query: the vendor appears and the order is not Cancelled. */
  predicate OrderListed(o: Order, v: VendorId)
  {
    o.status != Cancelled && exists k :: 0 <= k < |o.products| && o.products[k].vendor == v
  }

  function ItemSales(o: Order, items: seq<LineItem>, v: VendorId): (r: seq<Sale>)
    ensures forall k :: 0 <= k < |r| ==> r[k].orderId == o.id
  {
    if |items| == 0 then []
    else
      var it := items[0];
      (if it.vendor == v then [Sale(o.id, it.product, o.createdAt, VendorShare(it.price * it.quantity), it.payoutStatus, it.refunded)] else [])
        + ItemSales(o, items[1..], v)
  }

  /** The vendor's items in listed orders, in the order given. */
  function Sales(orders: seq<Order>, v: VendorId): seq<Sale>
  {
    if |orders| == 0 then []
    else (if OrderListed(orders[0], v) then ItemSales(orders[0], orders[0].products, v) else []) + Sales(orders[1..], v)
  }

  /** Shares of COMPLETED items. */
  function Earnings(s: seq<Sale>): (e: int)
    ensures (forall k :: 0 <= k < |s| ==> s[k].share >= 0) ==> e >= 0
    ensures (forall k :: 0 <= k < |s| ==> s[k].status != COMPLETED) ==> e == 0
  {
    if |s| == 0 then 0 else (if s[0].status == COMPLETED then s[0].share else 0) + Earnings(s[1..])
  }

  /** Shares of PENDING or BLOCKED items. */
  function Pending(s: seq<Sale>): (p: int)
    ensures (forall k :: 0 <= k < |s| ==> s[k].share >= 0) ==> p >= 0
    ensures (forall k :: 0 <= k < |s| ==> s[k].status != PENDING && s[k].status != BLOCKED) ==> p == 0
  {
    if |s| == 0 then 0
    else (if s[0].status == PENDING || s[0].status == BLOCKED then s[0].share else 0) + Pending(s[1..])
  }

  /** Shares of refunded items, whatever their status. */
  function RefundsTotal(s: seq<Sale>): (t: int)
    ensures (forall k :: 0 <= k < |s| ==> s[k].share >= 0) ==> t >= 0
    ensures (forall k :: 0 <= k < |s| ==> !s[k].refunded) ==> t == 0
  {
    if |s| == 0 then 0 else (if s[0].refunded then s[0].share else 0) + RefundsTotal(s[1..])
  }

  /** Shares of FAILED items, which no bucket shows. */
  function FailedShares(s: seq<Sale>): int
  {
    if |s| == 0 then 0 else (if s[0].status == FAILED then s[0].share else 0) + FailedShares(s[1..])
  }

  function TotalShare(s: seq<Sale>): int
  {
    if |s| == 0 then 0 else s[0].share + TotalShare(s[1..])
  }

  /** The status buckets split every share exactly once, with FAILED shares
      in no visible bucket; the refund total overlaps them. */
  lemma {:induction false} BucketsPartitionShares(s: seq<Sale>)
    ensures Earnings(s) + Pending(s) + FailedShares(s) == TotalShare(s)
    decreases |s|
  {
    if |s| > 0 {
      BucketsPartitionShares(s[1..]);
    }
  }

  /** `payoutStatus.toLowerCase()`. */
  function StatusWord(s: PayoutStatus): string
  {
    match s
    case PENDING => "pending"
    case BLOCKED => "blocked"
    case COMPLETED => "completed"
    case FAILED => "failed"
  }

  /** The sale's id: the last 8 characters of the order id, a dash, the
      last 4 of the product id, upper-cased, prefixed with "S-". */
  function SaleId(orderId: OrderId, product: ProductId): (id: string)
    ensures 3 <= |id| <= 15
    ensures id[..2] == "S-"
    ensures |orderId| >= 8 && |product| >= 4 ==> |id| == 15 && id[10] == '-'

    ensures forall i :: 2 <= i < |id| ==> !('a' <= id[i] <= 'z')
  {
    "S-" + Upper(TakeLast(orderId, 8) + "-" + TakeLast(product, 4))
  }

  function SaleTransaction(s: Sale): Transaction
  {
    Transaction(SaleId(s.orderId, s.product), s.date, s.share, SaleTx, StatusWord(s.status),
                "Order #" + Upper(TakeLast(s.orderId, 6)), Some(s.refunded))
  }

  /** A ledger entry as a transaction: the id's last 8 characters upper-cased
      after "P-", and the amount negated. */
  function EntryTransaction(e: PayoutEntry): (t: Transaction)
    ensures t.amount == -e.amount && t.date == e.createdAt && t.kind == PayoutTx
  {
    Transaction("P-" + Upper(TakeLast(e.id, 8)), e.createdAt, -e.amount, PayoutTx, StatusWord(e.payoutStatus),
                if Truthy(e.razorpayTransferId) then "Transfer: " + e.razorpayTransferId.value else "Scheduled Payout",
                None)
  }

  function VendorEntries(ledger: seq<PayoutEntry>, v: VendorId): (r: seq<PayoutEntry>)
    ensures forall k :: 0 <= k < |r| ==> r[k].vendor == v
    ensures forall e :: e in ledger && e.vendor == v ==> e in r
  {
    if |ledger| == 0 then []
    else (if ledger[0].vendor == v then [ledger[0]] else []) + VendorEntries(ledger[1..], v)
  }

  function EntryDate(e: PayoutEntry): int
  {
    e.createdAt
  }

  function OrderDate(o: Order): int
  {
    o.createdAt
  }

  function TxDate(t: Transaction): int
  {
    t.date
  }

  function MapSales(s: seq<Sale>): (r: seq<Transaction>)
    ensures |r| == |s| && forall k :: 0 <= k < |s| ==> r[k] == SaleTransaction(s[k])
  {
    if |s| == 0 then [] else [SaleTransaction(s[0])] + MapSales(s[1..])
  }

  function MapEntries(s: seq<PayoutEntry>): (r: seq<Transaction>)
    ensures |r| == |s| && forall k :: 0 <= k < |s| ==> r[k] == EntryTransaction(s[k])
  {
    if |s| == 0 then [] else [EntryTransaction(s[0])] + MapEntries(s[1..])
  }

  /** The bank flags: details count as present when the account number is
      non-empty, but the block reason only looks at whether details exist. */
  function Flags(v: Vendor): (f: VendorFlags)
    ensures f.hasBankDetails <==> v.payoutDetails.Some? && v.payoutDetails.value.accountNumber != ""
    ensures f.payoutBlockReason == (if v.payoutDetails.None? then Some(BankDetailsMissing) else None)
    ensures f.isBankVerified == v.isBankVerified
  {
    VendorFlags(v.isBankVerified, v.payoutDetails.Some? && v.payoutDetails.value.accountNumber != "",
                if v.payoutDetails.None? then Some(BankDetailsMissing) else None)
  }

  /** The two flags disagree for details saved with an empty account number:
      no bank details, yet no block reason, while the payout engine would
      block the item as BANK_DETAILS_MISSING. */
  lemma FlagsDisagreeOnEmptyAccount(v: Vendor)
    requires v.payoutDetails.Some? && v.payoutDetails.value.accountNumber == ""
    ensures !Flags(v).hasBankDetails && Flags(v).payoutBlockReason.None?
    ensures ValidateBankDetails(v) == Invalid(BankDetailsMissing)
  {
  }

  /** The route, for the vendor record of the signed-in user (None when the
      user has none). */
  function VendorPaymentsRoute(st: Store, vendor: Option<Vendor>): (r: PaymentsResponse)
    ensures vendor.None? <==> r == VendorNotFound404
    ensures vendor.Some? ==>
      var sales := Sales(SortDesc(st.orders, OrderDate), vendor.value.id);
      var history := TopN(VendorEntries(st.ledger, vendor.value.id), HistoryLimit, EntryDate);
      && r.metrics == EarningsMetrics(Earnings(sales), Pending(sales), RefundsTotal(sales), 0)
      && SortedDesc(r.transactions, TxDate)
      && multiset(r.transactions) == multiset(MapSales(sales) + MapEntries(history))
      && |history| <= HistoryLimit
      && r.vendor == Flags(vendor.value)
  {
    match vendor
    case None => VendorNotFound404
    case Some(v) =>
      var sales := Sales(SortDesc(st.orders, OrderDate), v.id);
      var history := TopN(VendorEntries(st.ledger, v.id), HistoryLimit, EntryDate);
      var txs := SortDesc(MapSales(sales) + MapEntries(history), TxDate);
      Payments(EarningsMetrics(Earnings(sales), Pending(sales), RefundsTotal(sales), 0), txs, Flags(v))
  }
}
