/** The automatic payout of one order (`processOrderPayouts`) and of one of
    its line items (`handleVendorPayout`).

    Calls into the payment provider and database writes that can throw are
    not executed: for each (order id, item index) an `ItemOracle` says what
    the provider answered and which write threw.  Every transfer request the
    model issues is recorded in the outcome, with the position of the item
    it pays for. */
module PayoutService {
  import opened Base
  import opened Model
  import opened Commission
  import opened BankCheck

  /** Days that must pass after the order's last write. */
  const ReturnWindowDays := 7

  /** `1000 * 60 * 60 * 24`. */
  const MsPerDay := 86400000

  const OrderNotFound := "Order not found"

  /** The TypeError raised when the populated vendor of an item is null. */
  const VendorNullError := "Cannot read properties of null (reading '_id')"

  const AccountCreationFailed := "Razorpay Account Creation Failed: "

  /** `Math.floor((now - since) / MsPerDay)` on millisecond timestamps. */
  function DaysSince(now: int, since: int): (d: int)
    ensures MsPerDay * d <= now - since < MsPerDay * (d + 1)
  {
    (now - since) / MsPerDay
  }

  predicate WithinReturnWindow(now: int, updatedAt: int)
  {
    DaysSince(now, updatedAt) < ReturnWindowDays
  }

  /** The floor makes the window exact: an order is deferred precisely while
      less than seven whole days have passed since its last write, so a
      difference of exactly seven days proceeds. */
  lemma ReturnWindowIsSevenDays(now: int, updatedAt: int)
    ensures WithinReturnWindow(now, updatedAt) <==> now - updatedAt < ReturnWindowDays * MsPerDay
  {
    var d := now - updatedAt;
    var q := d / MsPerDay;
    assert MsPerDay * q <= d < MsPerDay * q + MsPerDay;
    if q < ReturnWindowDays {
      assert MsPerDay * q + MsPerDay <= MsPerDay * ReturnWindowDays;
    } else {
      assert MsPerDay * ReturnWindowDays <= MsPerDay * q;
    }
  }

  /** Order statuses after which a payout may be released. */
  predicate IsSettleable(s: OrderStatus)
  {
    s == Delivered || s == completed
  }

  /** The per-item skip of the automatic payout.  `isLocked` is not part of it. */
  predicate Skipped(it: LineItem)
  {
    it.payoutStatus == COMPLETED || it.refunded
  }

  /** What the outside world does while one item is paid out:
      `account` answers `accounts.create` (used only when the vendor has no
      cached account) and `transfer` answers `transfers.create`.  The other
      fields say which database call throws, if any, and with what message:
      the BLOCKED write of a failed bank check, the `vendor.save()` of a
      newly created account, the COMPLETED write after a transfer, the
      success-path `Payout.create`, and in the catch block the FAILED write
      (`recoveryWriteError`) and the FAILED `Payout.create`
      (`failureEntryError`).  `settingsReadFails` makes the settings read of
      `getCommissionRate` throw, which that function turns into the
      default rate. */
  datatype ItemOracle = ItemOracle(
    account: ProviderResult,
    transfer: ProviderResult,
    blockWriteError: Option<string>,
    settingsReadFails: bool,
    vendorSaveError: Option<string>,
    completedWriteError: Option<string>,
    ledgerWriteError: Option<string>,
    recoveryWriteError: Option<string>,
    failureEntryError: Option<string>)

  /** The oracle of a whole run, by order id and item index. */
  type Oracle = (OrderId, nat) -> ItemOracle

  /** A transfer request sent to the provider, with the position of the line
      item it pays for. */
  datatype Transfer = Transfer(
    orderIndex: nat, itemIndex: nat, account: string, amountPaise: int, orderId: OrderId, productId: ProductId)

  /** The store after a run, the transfers it requested, and the error that
      escaped it, if any. */
  datatype Outcome = Outcome(store: Store, sent: seq<Transfer>, thrown: Option<string>)

  /** `getCommissionRate`: `settings?.commissionRate ?? 10`, and 10 as well
      when reading the settings throws. */
  function PayoutRate(st: Store, orc: ItemOracle): (rate: int)
    ensures orc.settingsReadFails || st.settings.None? ==> rate == DefaultRate
    ensures !orc.settingsReadFails && st.settings.Some? ==> rate == st.settings.value.commissionRate
  {
    if orc.settingsReadFails then DefaultRate else CurrentRate(StoredRate(st))
  }

  /** Fee and vendor share at transfer time, from the live rate rather than
      the split frozen on the item at checkout. */
  function LiveSplit(st: Store, it: LineItem, orc: ItemOracle): (s: Split)
    ensures s.gross == it.price * it.quantity && s.fee + s.net == s.gross
    ensures s.fee == Fee(it.price * it.quantity, PayoutRate(st, orc))
  {
    ComputeSplit(it.price, it.quantity, PayoutRate(st, orc))
  }

  /** The vendor map changes only by caching a newly created account on a
      vendor that had none. */
  predicate VendorsEvolve(vs: map<VendorId, Vendor>, vs': map<VendorId, Vendor>)
  {
    && vs'.Keys == vs.Keys
    && forall id :: id in vs ==>
         vs'[id] == vs[id] || (!Truthy(vs[id].razorpayAccountId) && vs'[id] == vs[id].(razorpayAccountId := vs'[id].razorpayAccountId))
  }

  /** Settled items (COMPLETED or refunded) are left exactly as they were,
      the ledger only grows, and nothing else but vendor accounts changes. */
  predicate KeepsSettled(st: Store, st': Store)
  {
    && SameShape(st, st')
    && (forall j, k :: 0 <= j < |st.orders| && 0 <= k < |st.orders[j].products| && Skipped(st.orders[j].products[k]) ==>
          st'.orders[j].products[k] == st.orders[j].products[k])
    && st.ledger <= st'.ledger
    && VendorsEvolve(st.vendors, st'.vendors)
    && st'.products == st.products && st'.refunds == st.refunds && st'.settings == st.settings
  }

  /** Every transfer requested pays for an item of the store that was not settled. */
  predicate SentOnlyUnsettled(st: Store, sent: seq<Transfer>)
  {
    forall t :: t in sent ==>
      ValidItemPos(st, t.orderIndex, t.itemIndex) && !Skipped(st.orders[t.orderIndex].products[t.itemIndex])
  }

  lemma KeepsSettledTransitive(a: Store, b: Store, c: Store)
    requires KeepsSettled(a, b) && KeepsSettled(b, c)
    ensures KeepsSettled(a, c)
  {
    forall id | id in a.vendors
      ensures c.vendors[id] == a.vendors[id]
           || (!Truthy(a.vendors[id].razorpayAccountId) && c.vendors[id] == a.vendors[id].(razorpayAccountId := c.vendors[id].razorpayAccountId))
    {
    }
  }

  /** A transfer request valid for a later store is valid for an earlier one
      whose settled items that store kept. */
  lemma SentOnlyUnsettledBackwards(a: Store, b: Store, sent: seq<Transfer>)
    requires KeepsSettled(a, b) && SentOnlyUnsettled(b, sent)
    ensures SentOnlyUnsettled(a, sent)
  {
    forall t | t in sent
      ensures ValidItemPos(a, t.orderIndex, t.itemIndex) && !Skipped(a.orders[t.orderIndex].products[t.itemIndex])
    {
      assert ValidItemPos(b, t.orderIndex, t.itemIndex);
      assert a.orders[t.orderIndex].id == b.orders[t.orderIndex].id;
    }
  }

  /** The zero FAILED entry the catch block appends. */
  function FailedEntry(st: Store, oi: nat, vendor: VendorId, message: string, now: int): PayoutEntry
    requires oi < |st.orders|
  {
    PayoutEntry(LedgerEntryId(|st.ledger|), st.orders[oi].id, vendor, 0, 0, FAILED, Some(message), None, None, 0, None, now)
  }

  /** The catch block: the item becomes FAILED (nothing else on it changes)
      and a FAILED entry with zero amounts and the error message is appended.
      Either write can throw in turn; that error escapes, and what was
      written before it stays. */
  function FailurePath(st: Store, oi: nat, ii: nat, vendor: VendorId, message: string,
                       sent: seq<Transfer>, now: int, orc: ItemOracle): (r: Outcome)
    requires ValidItemPos(st, oi, ii)
    ensures SameShape(st, r.store) && r.store.vendors == st.vendors
    ensures r.sent == sent
    ensures orc.recoveryWriteError.Some? ==> r == Outcome(st, sent, orc.recoveryWriteError)
    ensures orc.recoveryWriteError.None? ==>
      && r.thrown == orc.failureEntryError
      && r.store.orders[oi].products[ii] == st.orders[oi].products[ii].(payoutStatus := FAILED)
      && r.store.ledger == st.ledger + (if orc.failureEntryError.Some? then [] else [FailedEntry(st, oi, vendor, message, now)])
    ensures forall j :: 0 <= j < |st.orders| && j != oi ==> r.store.orders[j] == st.orders[j]
    ensures forall k :: 0 <= k < |st.orders[oi].products| && k != ii ==>
              r.store.orders[oi].products[k] == st.orders[oi].products[k]
    ensures r.store.products == st.products && r.store.refunds == st.refunds && r.store.settings == st.settings
    ensures st.ledger <= r.store.ledger && |r.store.ledger| <= |st.ledger| + 1
  {
    if orc.recoveryWriteError.Some? then Outcome(st, sent, orc.recoveryWriteError)
    else
      var cur := st.orders[oi].products[ii];
      var st1 := WriteItem(st, oi, ii, cur.(payoutStatus := FAILED), now);
      if orc.failureEntryError.Some? then Outcome(st1, sent, orc.failureEntryError)
      else Outcome(AppendEntry(st1, FailedEntry(st, oi, vendor, message, now)), sent, None)
  }

  /** After a successful transfer: the item is written COMPLETED with the
      transfer id, then the COMPLETED entry is appended.  When the COMPLETED
      write throws, the catch block runs on the item as it was; when the
      append throws, it turns the COMPLETED item FAILED. */
  function PaidStep(st: Store, oi: nat, ii: nat, it: LineItem, tid: string, t: Transfer, now: int, orc: ItemOracle): (r: Outcome)
    requires ValidItemPos(st, oi, ii)
    ensures SameShape(st, r.store) && r.store.vendors == st.vendors && r.sent == [t]
    ensures orc.completedWriteError.Some? ==>
      r == FailurePath(st, oi, ii, it.vendor, orc.completedWriteError.value, [t], now, orc)
    ensures orc.completedWriteError.None? && orc.ledgerWriteError.None? ==>
      && r.thrown.None?
      && r.store.orders[oi].products[ii] == st.orders[oi].products[ii].(
           payoutStatus := COMPLETED, razorpayTransferId := Some(tid), payoutBlockReason := None)
      && r.store.ledger == st.ledger + [PayoutEntry(LedgerEntryId(|st.ledger|), st.orders[oi].id, it.vendor,
           LiveSplit(st, it, orc).net, LiveSplit(st, it, orc).fee, COMPLETED, None, Some(tid), None, 0, None, now)]
    ensures orc.completedWriteError.None? && orc.ledgerWriteError.Some? && orc.recoveryWriteError.None? ==>
      && r.thrown == orc.failureEntryError
      && r.store.orders[oi].products[ii] == st.orders[oi].products[ii].(
           payoutStatus := FAILED, razorpayTransferId := Some(tid), payoutBlockReason := None)
      && r.store.ledger == st.ledger + (if orc.failureEntryError.Some? then []
                                        else [FailedEntry(st, oi, it.vendor, orc.ledgerWriteError.value, now)])
    ensures forall j :: 0 <= j < |st.orders| && j != oi ==> r.store.orders[j] == st.orders[j]
    ensures forall k :: 0 <= k < |st.orders[oi].products| && k != ii ==>
              r.store.orders[oi].products[k] == st.orders[oi].products[k]
    ensures r.store.products == st.products && r.store.refunds == st.refunds && r.store.settings == st.settings
    ensures st.ledger <= r.store.ledger && |r.store.ledger| <= |st.ledger| + 1
  {
    if orc.completedWriteError.Some? then
      FailurePath(st, oi, ii, it.vendor, orc.completedWriteError.value, [t], now, orc)
    else
      var split := LiveSplit(st, it, orc);
      var cur := st.orders[oi].products[ii];
      var st1 := WriteItem(st, oi, ii, cur.(payoutStatus := COMPLETED, razorpayTransferId := Some(tid), payoutBlockReason := None), now);
      if orc.ledgerWriteError.Some? then
        FailurePath(st1, oi, ii, it.vendor, orc.ledgerWriteError.value, [t], now, orc)
      else
        var e := PayoutEntry(LedgerEntryId(|st1.ledger|), st.orders[oi].id, it.vendor, split.net, split.fee,
                             COMPLETED, None, Some(tid), None, 0, None, now);
        Outcome(AppendEntry(st1, e), [t], None)
  }

  /** The transfer and what follows it, once an account id is known. */
  function TransferStep(st: Store, oi: nat, ii: nat, it: LineItem, account: string,
                        now: int, orc: ItemOracle): (r: Outcome)
    requires ValidItemPos(st, oi, ii)
    ensures SameShape(st, r.store) && r.store.vendors == st.vendors
    ensures r.sent == [Transfer(oi, ii, account, 100 * LiveSplit(st, it, orc).net, st.orders[oi].id, it.product)]
    ensures orc.transfer.Ok? ==> r == PaidStep(st, oi, ii, it, orc.transfer.id, r.sent[0], now, orc)
    ensures orc.transfer.Err? ==> r == FailurePath(st, oi, ii, it.vendor, orc.transfer.message, r.sent, now, orc)
    ensures forall j :: 0 <= j < |st.orders| && j != oi ==> r.store.orders[j] == st.orders[j]
    ensures forall k :: 0 <= k < |st.orders[oi].products| && k != ii ==>
              r.store.orders[oi].products[k] == st.orders[oi].products[k]
    ensures r.store.products == st.products && r.store.refunds == st.refunds && r.store.settings == st.settings
    ensures st.ledger <= r.store.ledger && |r.store.ledger| <= |st.ledger| + 1
  {
    var split := LiveSplit(st, it, orc);
    var t := Transfer(oi, ii, account, split.net * 100, st.orders[oi].id, it.product);
    match orc.transfer
    case Err(m) => FailurePath(st, oi, ii, it.vendor, m, [t], now, orc)
    case Ok(tid) => PaidStep(st, oi, ii, it, tid, t, now, orc)
  }

  /** A failed bank check: the item is BLOCKED with the reason, and nothing
      else is written or sent; when that write throws, the error escapes
      and nothing is written at all. */
  function BlockItem(st: Store, oi: nat, ii: nat, reason: string, now: int, orc: ItemOracle): (r: Outcome)
    requires ValidItemPos(st, oi, ii)
    ensures SameShape(st, r.store) && r.store.vendors == st.vendors && r.store.ledger == st.ledger
    ensures r.sent == [] && r.thrown == orc.blockWriteError
    ensures orc.blockWriteError.Some? ==> r.store == st
    ensures orc.blockWriteError.None? ==>
      r.store.orders[oi].products[ii] == st.orders[oi].products[ii].(payoutStatus := BLOCKED, payoutBlockReason := Some(reason))
    ensures forall j :: 0 <= j < |st.orders| && j != oi ==> r.store.orders[j] == st.orders[j]
    ensures forall k :: 0 <= k < |st.orders[oi].products| && k != ii ==>
              r.store.orders[oi].products[k] == st.orders[oi].products[k]
    ensures r.store.products == st.products && r.store.refunds == st.refunds && r.store.settings == st.settings
  {
    if orc.blockWriteError.Some? then Outcome(st, [], orc.blockWriteError)
    else
      var cur := st.orders[oi].products[ii];
      Outcome(WriteItem(st, oi, ii, cur.(payoutStatus := BLOCKED, payoutBlockReason := Some(reason)), now), [], None)
  }

  /** A newly created account is saved on the vendor, then the transfer runs
      with it.  When the save throws, the catch block runs and nothing is
      stored on the vendor or sent. */
  function NewAccountStep(st: Store, oi: nat, ii: nat, it: LineItem, account: string, now: int, orc: ItemOracle): (r: Outcome)
    requires ValidItemPos(st, oi, ii) && it.vendor in st.vendors
    ensures SameShape(st, r.store)
    ensures orc.vendorSaveError.Some? ==>
      r == FailurePath(st, oi, ii, it.vendor, orc.vendorSaveError.value, [], now, orc)
    ensures orc.vendorSaveError.None? ==>
      && r.store.vendors == st.vendors[it.vendor := st.vendors[it.vendor].(razorpayAccountId := Some(account))]
      && r.sent == [Transfer(oi, ii, account, 100 * LiveSplit(st, it, orc).net, st.orders[oi].id, it.product)]
    ensures forall j :: 0 <= j < |st.orders| && j != oi ==> r.store.orders[j] == st.orders[j]
    ensures forall k :: 0 <= k < |st.orders[oi].products| && k != ii ==>
              r.store.orders[oi].products[k] == st.orders[oi].products[k]
    ensures r.store.products == st.products && r.store.refunds == st.refunds && r.store.settings == st.settings
    ensures st.ledger <= r.store.ledger && |r.store.ledger| <= |st.ledger| + 1
  {
    if orc.vendorSaveError.Some? then
      FailurePath(st, oi, ii, it.vendor, orc.vendorSaveError.value, [], now, orc)
    else
      var st1 := st.(vendors := st.vendors[it.vendor := st.vendors[it.vendor].(razorpayAccountId := Some(account))]);
      TransferStep(st1, oi, ii, it, account, now, orc)
  }

  /** `handleVendorPayout` for the item at position (oi, ii), whose fields as
      loaded with the order are `it`. */
  function HandleVendorPayout(st: Store, oi: nat, ii: nat, it: LineItem, now: int, orc: ItemOracle): (r: Outcome)
    requires ValidItemPos(st, oi, ii)
    ensures SameShape(st, r.store) && VendorsEvolve(st.vendors, r.store.vendors)
    // an unresolved vendor reference throws before anything is written
    ensures it.vendor !in st.vendors ==> r == Outcome(st, [], Some(VendorNullError))
    // a failed bank check blocks only this item, with the reason, and stops there
    ensures it.vendor in st.vendors && ValidateBankDetails(st.vendors[it.vendor]).Invalid? ==>
      r == BlockItem(st, oi, ii, ValidateBankDetails(st.vendors[it.vendor]).reason, now, orc)
    // with valid details, a cached account is reused as it is
    ensures it.vendor in st.vendors && ValidateBankDetails(st.vendors[it.vendor]) == Valid
            && Truthy(st.vendors[it.vendor].razorpayAccountId) ==>
      r == TransferStep(st, oi, ii, it, st.vendors[it.vendor].razorpayAccountId.value, now, orc)
    // otherwise an account is created, and saved on the vendor before the transfer
    ensures it.vendor in st.vendors && ValidateBankDetails(st.vendors[it.vendor]) == Valid
            && !Truthy(st.vendors[it.vendor].razorpayAccountId) && orc.account.Ok? ==>
      r == NewAccountStep(st, oi, ii, it, orc.account.id, now, orc)
    // and a failed creation stores nothing on the vendor and takes the failure path
    ensures it.vendor in st.vendors && ValidateBankDetails(st.vendors[it.vendor]) == Valid
            && !Truthy(st.vendors[it.vendor].razorpayAccountId) && orc.account.Err? ==>
      r == FailurePath(st, oi, ii, it.vendor, AccountCreationFailed + orc.account.message, [], now, orc)
    ensures forall j :: 0 <= j < |st.orders| && j != oi ==> r.store.orders[j] == st.orders[j]
    ensures forall k :: 0 <= k < |st.orders[oi].products| && k != ii ==>
              r.store.orders[oi].products[k] == st.orders[oi].products[k]
    ensures r.store.products == st.products && r.store.refunds == st.refunds && r.store.settings == st.settings
    ensures st.ledger <= r.store.ledger && |r.store.ledger| <= |st.ledger| + 1
    ensures |r.sent| <= 1 && forall t :: t in r.sent ==> t.orderIndex == oi && t.itemIndex == ii
  {
    if it.vendor !in st.vendors then Outcome(st, [], Some(VendorNullError))
    else
      var v := st.vendors[it.vendor];
      match ValidateBankDetails(v)
      case Invalid(reason) => BlockItem(st, oi, ii, reason, now, orc)
      case Valid =>
        if Truthy(v.razorpayAccountId) then
          TransferStep(st, oi, ii, it, v.razorpayAccountId.value, now, orc)
        else
          match orc.account
          case Err(m) => FailurePath(st, oi, ii, it.vendor, AccountCreationFailed + m, [], now, orc)
          case Ok(acc) => NewAccountStep(st, oi, ii, it, acc, now, orc)
  }

  /** Paying an item that is not settled leaves every settled item alone. */
  lemma HandleKeepsSettled(st: Store, oi: nat, ii: nat, it: LineItem, now: int, orc: ItemOracle)
    requires ValidItemPos(st, oi, ii) && !Skipped(st.orders[oi].products[ii])
    ensures KeepsSettled(st, HandleVendorPayout(st, oi, ii, it, now, orc).store)
  {
    var r := HandleVendorPayout(st, oi, ii, it, now, orc);
    forall j, k | 0 <= j < |st.orders| && 0 <= k < |st.orders[j].products| && Skipped(st.orders[j].products[k])
      ensures r.store.orders[j].products[k] == st.orders[j].products[k]
    {
      if j == oi {
        assert k != ii;
      }
    }
  }

  /** Number of items the automatic payout would attempt, from position i on. */
  function CountUnsettled(items: seq<LineItem>, i: nat): (n: nat)
    requires i <= |items|
    ensures n <= |items| - i
    decreases |items| - i
  {
    if i == |items| then 0
    else (if Skipped(items[i]) then 0 else 1) + CountUnsettled(items, i + 1)
  }

  /** The item loop of `processOrderPayouts`, from position i, over the
      order `snap` as it was loaded (stored at position oi). */
  function ProcessItems(st: Store, oi: nat, snap: Order, i: nat, now: int, oracle: Oracle): (r: Outcome)
    requires oi < |st.orders| && |st.orders[oi].products| == |snap.products| && i <= |snap.products|
    requires st.orders[oi].id == snap.id
    requires forall k :: i <= k < |snap.products| ==> st.orders[oi].products[k] == snap.products[k]
    ensures SameShape(st, r.store) && st.ledger <= r.store.ledger
    ensures KeepsSettled(st, r.store)
    ensures VendorsEvolve(st.vendors, r.store.vendors)
    ensures r.store.products == st.products && r.store.refunds == st.refunds && r.store.settings == st.settings
    ensures forall j :: 0 <= j < |st.orders| && j != oi ==> r.store.orders[j] == st.orders[j]
    ensures forall k :: 0 <= k < |snap.products| && (k < i || Skipped(snap.products[k])) ==>
              r.store.orders[oi].products[k] == st.orders[oi].products[k]
    ensures |r.store.ledger| <= |st.ledger| + CountUnsettled(snap.products, i)
    ensures forall t :: t in r.sent ==>
              t.orderIndex == oi && i <= t.itemIndex < |snap.products| && !Skipped(snap.products[t.itemIndex])
    ensures CountUnsettled(snap.products, i) == 0 ==> r == Outcome(st, [], None)
    decreases |snap.products| - i
  {
    if i == |snap.products| then Outcome(st, [], None)
    else if Skipped(snap.products[i]) then ProcessItems(st, oi, snap, i + 1, now, oracle)
    else
      var h := HandleVendorPayout(st, oi, i, snap.products[i], now, oracle(snap.id, i));
      HandleKeepsSettled(st, oi, i, snap.products[i], now, oracle(snap.id, i));
      if h.thrown.Some? then h
      else
        var rest := ProcessItems(h.store, oi, snap, i + 1, now, oracle);
        KeepsSettledTransitive(st, h.store, rest.store);
        Outcome(rest.store, h.sent + rest.sent, rest.thrown)
  }

  /** `processOrderPayouts`: the status gate, the return window on
      `updatedAt`, then every item not skipped, in order. */
  function ProcessOrderPayouts(st: Store, id: OrderId, now: int, oracle: Oracle): (r: Outcome)
    ensures FindOrder(st.orders, id).None? ==> r == Outcome(st, [], Some(OrderNotFound))
    ensures FindOrder(st.orders, id).Some? &&
            (!IsSettleable(st.orders[FindOrder(st.orders, id).value].status)
             || WithinReturnWindow(now, st.orders[FindOrder(st.orders, id).value].updatedAt)) ==>
              r == Outcome(st, [], None)
    ensures KeepsSettled(st, r.store)
    ensures SentOnlyUnsettled(st, r.sent)
    ensures FindOrder(st.orders, id).Some? ==>
              |r.store.ledger| <= |st.ledger| + CountUnsettled(st.orders[FindOrder(st.orders, id).value].products, 0)
    ensures forall j :: 0 <= j < |st.orders| && st.orders[j].id != id ==> r.store.orders[j] == st.orders[j]
  {
    match FindOrder(st.orders, id)
    case None => Outcome(st, [], Some(OrderNotFound))
    case Some(oi) =>
      var o := st.orders[oi];
      if !IsSettleable(o.status) || WithinReturnWindow(now, o.updatedAt) then Outcome(st, [], None)
      else ProcessItems(st, oi, o, 0, now, oracle)
  }

  /** The transfers of a run that pay for the item at index ii. */
  function SentFor(sent: seq<Transfer>, ii: nat): (r: seq<Transfer>)
    ensures forall t :: t in r <==> t in sent && t.itemIndex == ii
    ensures |r| <= |sent|
  {
    if |sent| == 0 then []
    else (if sent[0].itemIndex == ii then [sent[0]] else []) + SentFor(sent[1..], ii)
  }

  lemma {:induction false} SentForAppend(a: seq<Transfer>, b: seq<Transfer>, ii: nat)
    ensures SentFor(a + b, ii) == SentFor(a, ii) + SentFor(b, ii)
  {
    if |a| == 0 {
      assert a + b == b;
    } else {
      assert (a + b)[1..] == a[1..] + b;
      SentForAppend(a[1..], b, ii);
    }
  }

  /** A run whose transfers all pay for item ii: all of them are its own. */
  lemma {:induction false} SentForOwn(sent: seq<Transfer>, ii: nat)
    requires forall t :: t in sent ==> t.itemIndex == ii
    ensures SentFor(sent, ii) == sent
  {
    if |sent| > 0 {
      assert forall t :: t in sent[1..] ==> t in sent;
      SentForOwn(sent[1..], ii);
      assert sent == [sent[0]] + sent[1..];
    }
  }

  /** A run none of whose transfers pays for item ii sends it nothing. */
  lemma {:induction false} SentForOthers(sent: seq<Transfer>, ii: nat)
    requires forall t :: t in sent ==> t.itemIndex != ii
    ensures SentFor(sent, ii) == []
  {
    if |sent| > 0 {
      assert forall t :: t in sent[1..] ==> t in sent;
      SentForOthers(sent[1..], ii);
    }
  }

  /** What a run that returned normally did for the unsettled item `it` at
      position (oi, ii) of `st`, as seen in the item it left (`fin`) and in
      the transfers it sent:
      - invalid bank details: the item is BLOCKED with the reason and
        nothing is sent for it;
      - valid details: the item ends COMPLETED or FAILED, and at most one
        transfer of the live vendor share is sent for it, exactly one when it
        ends COMPLETED (with a transfer id) or when the vendor already had a
        linked account, which that transfer goes to. */
  predicate Attempted(st: Store, oi: nat, ii: nat, it: LineItem, orc: ItemOracle, fin: LineItem, sent: seq<Transfer>)
    requires oi < |st.orders|
  {
    && it.vendor in st.vendors
    && match ValidateBankDetails(st.vendors[it.vendor])
       case Invalid(reason) =>
         fin == it.(payoutStatus := BLOCKED, payoutBlockReason := Some(reason)) && SentFor(sent, ii) == []
       case Valid =>
         && (fin.payoutStatus == COMPLETED || fin.payoutStatus == FAILED)
         && |SentFor(sent, ii)| <= 1
         && (forall t :: t in SentFor(sent, ii) ==>
               t == Transfer(oi, ii, t.account, 100 * LiveSplit(st, it, orc).net, st.orders[oi].id, it.product))
         && (fin.payoutStatus == COMPLETED ==> |SentFor(sent, ii)| == 1 && fin.razorpayTransferId.Some?)
         && (Truthy(st.vendors[it.vendor].razorpayAccountId) ==>
               SentFor(sent, ii) == [Transfer(oi, ii, st.vendors[it.vendor].razorpayAccountId.value,
                                              100 * LiveSplit(st, it, orc).net, st.orders[oi].id, it.product)])
  }

  /** An item whose bank details passed ends FAILED, or COMPLETED with the
      transfer id. */
  predicate Finished(fin: LineItem)
  {
    fin.payoutStatus == FAILED || (fin.payoutStatus == COMPLETED && fin.razorpayTransferId.Some?)
  }

  lemma PaidStepFinishes(st: Store, oi: nat, ii: nat, it: LineItem, tid: string, t: Transfer, now: int, orc: ItemOracle)
    requires ValidItemPos(st, oi, ii)
    ensures var r := PaidStep(st, oi, ii, it, tid, t, now, orc);
            r.thrown.None? ==> Finished(r.store.orders[oi].products[ii])
  {
  }

  lemma TransferStepFinishes(st: Store, oi: nat, ii: nat, it: LineItem, account: string, now: int, orc: ItemOracle)
    requires ValidItemPos(st, oi, ii)
    ensures var r := TransferStep(st, oi, ii, it, account, now, orc);
            r.thrown.None? ==> Finished(r.store.orders[oi].products[ii])
  {
    if orc.transfer.Ok? {
      var r := TransferStep(st, oi, ii, it, account, now, orc);
      PaidStepFinishes(st, oi, ii, it, orc.transfer.id, r.sent[0], now, orc);
    }
  }

  /** A newly linked account: one transfer of the live share at most, and
      the item finished. */
  lemma NewAccountStepFinishes(st: Store, oi: nat, ii: nat, it: LineItem, account: string, now: int, orc: ItemOracle)
    requires ValidItemPos(st, oi, ii) && it.vendor in st.vendors
    ensures var r := NewAccountStep(st, oi, ii, it, account, now, orc);
            && (r.thrown.None? ==> Finished(r.store.orders[oi].products[ii]))
            && |r.sent| <= 1
            && forall t :: t in r.sent ==> t == Transfer(oi, ii, account, 100 * LiveSplit(st, it, orc).net, st.orders[oi].id, it.product)
  {
    if orc.vendorSaveError.None? {
      var st1 := st.(vendors := st.vendors[it.vendor := st.vendors[it.vendor].(razorpayAccountId := Some(account))]);
      TransferStepFinishes(st1, oi, ii, it, account, now, orc);
    }
  }

  /** One `handleVendorPayout` that returns normally attempts its item. */
  lemma HandleAttempts(st: Store, oi: nat, ii: nat, it: LineItem, now: int, orc: ItemOracle)
    requires ValidItemPos(st, oi, ii) && st.orders[oi].products[ii] == it
    ensures var h := HandleVendorPayout(st, oi, ii, it, now, orc);
            h.thrown.None? ==> Attempted(st, oi, ii, it, orc, h.store.orders[oi].products[ii], h.sent)
  {
    var h := HandleVendorPayout(st, oi, ii, it, now, orc);
    SentForOwn(h.sent, ii);
    if h.thrown.None? && it.vendor in st.vendors && ValidateBankDetails(st.vendors[it.vendor]) == Valid {
      var v := st.vendors[it.vendor];
      if Truthy(v.razorpayAccountId) {
        TransferStepFinishes(st, oi, ii, it, v.razorpayAccountId.value, now, orc);
      } else if orc.account.Ok? {
        NewAccountStepFinishes(st, oi, ii, it, orc.account.id, now, orc);
      }
    }
  }

  /** Attempted depends on the run's transfers only through those for its
      own item. */
  lemma AttemptedSameSent(st: Store, oi: nat, ii: nat, it: LineItem, orc: ItemOracle, fin: LineItem, a: seq<Transfer>, b: seq<Transfer>)
    requires oi < |st.orders| && SentFor(a, ii) == SentFor(b, ii)
    requires Attempted(st, oi, ii, it, orc, fin, a)
    ensures Attempted(st, oi, ii, it, orc, fin, b)
  {
  }

  /** Attempts are judged against the store the run started from: the
      steps in between change neither bank checks nor rates, and keep every
      account that was already linked. */
  lemma AttemptedEarlier(st: Store, st': Store, oi: nat, ii: nat, it: LineItem, orc: ItemOracle, fin: LineItem, sent: seq<Transfer>)
    requires KeepsSettled(st, st') && oi < |st.orders|
    requires Attempted(st', oi, ii, it, orc, fin, sent)
    ensures Attempted(st, oi, ii, it, orc, fin, sent)
  {
    var v := st.vendors[it.vendor];
    var v' := st'.vendors[it.vendor];
    assert v' == v || v' == v.(razorpayAccountId := v'.razorpayAccountId);
    assert ValidateBankDetails(v') == ValidateBankDetails(v);
    assert LiveSplit(st', it, orc) == LiveSplit(st, it, orc);
  }

  /** The handled item's attempt survives the transfers of the rest of the
      loop, which pay for other items. */
  lemma KeepHereAttempt(st: Store, oi: nat, i: nat, it: LineItem, orc: ItemOracle, fin: LineItem,
                        hsent: seq<Transfer>, rsent: seq<Transfer>)
    requires oi < |st.orders| && Attempted(st, oi, i, it, orc, fin, hsent)
    requires forall t :: t in rsent ==> t.itemIndex != i
    ensures Attempted(st, oi, i, it, orc, fin, hsent + rsent)
  {
    SentForAppend(hsent, rsent, i);
    SentForOthers(rsent, i);
    AttemptedSameSent(st, oi, i, it, orc, fin, hsent, hsent + rsent);
  }

  /** A later item's attempt, made on the store the handled item left,
      holds of the store before it too. */
  lemma KeepLaterAttempt(st: Store, st': Store, oi: nat, k: nat, it: LineItem, orc: ItemOracle, fin: LineItem,
                         hsent: seq<Transfer>, rsent: seq<Transfer>)
    requires KeepsSettled(st, st') && oi < |st.orders|
    requires Attempted(st', oi, k, it, orc, fin, rsent)
    requires forall t :: t in hsent ==> t.itemIndex != k
    ensures Attempted(st, oi, k, it, orc, fin, hsent + rsent)
  {
    SentForAppend(hsent, rsent, k);
    SentForOthers(hsent, k);
    AttemptedSameSent(st', oi, k, it, orc, fin, rsent, hsent + rsent);
    AttemptedEarlier(st, st', oi, k, it, orc, fin, hsent + rsent);
  }

  /** One step of the item loop keeps every attempt: the handled item's own,
      and those the rest of the loop made on the store it left. */
  lemma StepAttempts(st: Store, st': Store, oi: nat, snap: Order, i: nat, oracle: Oracle,
                     fin: seq<LineItem>, hsent: seq<Transfer>, rsent: seq<Transfer>)
    requires oi < |st.orders| && i < |snap.products| == |fin| && KeepsSettled(st, st')
    requires forall t :: t in hsent ==> t.itemIndex == i
    requires forall t :: t in rsent ==> t.itemIndex > i
    requires Attempted(st, oi, i, snap.products[i], oracle(snap.id, i), fin[i], hsent)
    requires forall k :: i + 1 <= k < |snap.products| && !Skipped(snap.products[k]) ==>
               Attempted(st', oi, k, snap.products[k], oracle(snap.id, k), fin[k], rsent)
    ensures forall k :: i <= k < |snap.products| && !Skipped(snap.products[k]) ==>
              Attempted(st, oi, k, snap.products[k], oracle(snap.id, k), fin[k], hsent + rsent)
  {
    forall k | i <= k < |snap.products| && !Skipped(snap.products[k])
      ensures Attempted(st, oi, k, snap.products[k], oracle(snap.id, k), fin[k], hsent + rsent)
    {
      if k == i {
        KeepHereAttempt(st, oi, i, snap.products[i], oracle(snap.id, i), fin[i], hsent, rsent);
      } else {
        KeepLaterAttempt(st, st', oi, k, snap.products[k], oracle(snap.id, k), fin[k], hsent, rsent);
      }
    }
  }

  /** Every item of the loop from position i on that is not skipped is
      attempted, when the loop returns normally. */
  lemma {:induction false} ProcessItemsAttempts(st: Store, oi: nat, snap: Order, i: nat, now: int, oracle: Oracle)
    requires oi < |st.orders| && |st.orders[oi].products| == |snap.products| && i <= |snap.products|
    requires st.orders[oi].id == snap.id
    requires forall k :: i <= k < |snap.products| ==> st.orders[oi].products[k] == snap.products[k]
    ensures var r := ProcessItems(st, oi, snap, i, now, oracle);
            r.thrown.None? ==>
              forall k :: i <= k < |snap.products| && !Skipped(snap.products[k]) ==>
                Attempted(st, oi, k, snap.products[k], oracle(snap.id, k), r.store.orders[oi].products[k], r.sent)
    decreases |snap.products| - i
  {
    if i < |snap.products| {
      if Skipped(snap.products[i]) {
        ProcessItemsAttempts(st, oi, snap, i + 1, now, oracle);
      } else {
        var h := HandleVendorPayout(st, oi, i, snap.products[i], now, oracle(snap.id, i));
        if h.thrown.None? {
          var rest := ProcessItems(h.store, oi, snap, i + 1, now, oracle);
          ProcessItemsAttempts(h.store, oi, snap, i + 1, now, oracle);
          if rest.thrown.None? {
            HandleAttempts(st, oi, i, snap.products[i], now, oracle(snap.id, i));
            HandleKeepsSettled(st, oi, i, snap.products[i], now, oracle(snap.id, i));
            StepAttempts(st, h.store, oi, snap, i, oracle, rest.store.orders[oi].products, h.sent, rest.sent);
          }
        }
      }
    }
  }

  /** `processOrderPayouts` does the work, not just no harm: when the order
      is payable and the run returns normally, every item that was neither
      COMPLETED nor refunded when the order was loaded has been attempted. */
  lemma PayoutAttemptsEveryUnsettledItem(st: Store, id: OrderId, now: int, oracle: Oracle)
    ensures var r := ProcessOrderPayouts(st, id, now, oracle);
            FindOrder(st.orders, id).Some? && r.thrown.None? ==>
              var oi := FindOrder(st.orders, id).value;
              var o := st.orders[oi];
              IsSettleable(o.status) && !WithinReturnWindow(now, o.updatedAt) ==>
                forall k :: 0 <= k < |o.products| && !Skipped(o.products[k]) ==>
                  Attempted(st, oi, k, o.products[k], oracle(id, k), r.store.orders[oi].products[k], r.sent)
  {
    if FindOrder(st.orders, id).Some? {
      var oi := FindOrder(st.orders, id).value;
      ProcessItemsAttempts(st, oi, st.orders[oi], 0, now, oracle);
    }
  }

  /** The indices, from i on, of the items the loop does not skip. */
  function Unskipped(items: seq<LineItem>, i: nat): (ks: seq<nat>)
    requires i <= |items|
    ensures forall k :: k in ks <==> i <= k < |items| && !Skipped(items[k])
    ensures forall j :: 0 <= j < |ks| ==> i <= ks[j] < |items|
    ensures forall a, b :: 0 <= a < b < |ks| ==> ks[a] < ks[b]
    decreases |items| - i
  {
    if i == |items| then []
    else if Skipped(items[i]) then Unskipped(items, i + 1)
    else [i] + Unskipped(items, i + 1)
  }

  /** `handleVendorPayout` on each listed item in turn, each on the store
      the previous one left, stopping at the first that throws. */
  function HandleEach(st: Store, oi: nat, snap: Order, ks: seq<nat>, now: int, oracle: Oracle): (r: Outcome)
    requires oi < |st.orders| && |st.orders[oi].products| == |snap.products|
    requires forall j :: 0 <= j < |ks| ==> ks[j] < |snap.products|
    ensures SameShape(st, r.store)
    decreases |ks|
  {
    if |ks| == 0 then Outcome(st, [], None)
    else
      var h := HandleVendorPayout(st, oi, ks[0], snap.products[ks[0]], now, oracle(snap.id, ks[0]));
      if h.thrown.Some? then h
      else
        var rest := HandleEach(h.store, oi, snap, ks[1..], now, oracle);
        Outcome(rest.store, h.sent + rest.sent, rest.thrown)
  }

  /** A handled step of the item loop is the first step of the fold. */
  lemma HandledStepIsHandleEach(st: Store, oi: nat, snap: Order, i: nat, now: int, oracle: Oracle)
    requires oi < |st.orders| && |st.orders[oi].products| == |snap.products| && i < |snap.products|
    requires st.orders[oi].id == snap.id && !Skipped(snap.products[i])
    requires forall k :: i <= k < |snap.products| ==> st.orders[oi].products[k] == snap.products[k]
    requires var h := HandleVendorPayout(st, oi, i, snap.products[i], now, oracle(snap.id, i));
             h.thrown.None? ==>
               ProcessItems(h.store, oi, snap, i + 1, now, oracle) == HandleEach(h.store, oi, snap, Unskipped(snap.products, i + 1), now, oracle)
    ensures ProcessItems(st, oi, snap, i, now, oracle) == HandleEach(st, oi, snap, Unskipped(snap.products, i), now, oracle)
  {
    var ks := Unskipped(snap.products, i);
    assert ks == [i] + Unskipped(snap.products, i + 1);
    assert ks[0] == i && ks[1..] == Unskipped(snap.products, i + 1);
  }

  /** A skipped item is not part of the fold. */
  lemma SkippedStepIsHandleEach(st: Store, oi: nat, snap: Order, i: nat, now: int, oracle: Oracle)
    requires oi < |st.orders| && |st.orders[oi].products| == |snap.products| && i < |snap.products|
    requires st.orders[oi].id == snap.id && Skipped(snap.products[i])
    requires forall k :: i <= k < |snap.products| ==> st.orders[oi].products[k] == snap.products[k]
    requires ProcessItems(st, oi, snap, i + 1, now, oracle) == HandleEach(st, oi, snap, Unskipped(snap.products, i + 1), now, oracle)
    ensures ProcessItems(st, oi, snap, i, now, oracle) == HandleEach(st, oi, snap, Unskipped(snap.products, i), now, oracle)
  {
    assert Unskipped(snap.products, i) == Unskipped(snap.products, i + 1);
  }

  /** The item loop is the handling of exactly the unskipped items, in
      order, on the order as it was loaded, stopping at the first error. */
  lemma {:induction false} ProcessItemsIsHandleEach(st: Store, oi: nat, snap: Order, i: nat, now: int, oracle: Oracle)
    requires oi < |st.orders| && |st.orders[oi].products| == |snap.products| && i <= |snap.products|
    requires st.orders[oi].id == snap.id
    requires forall k :: i <= k < |snap.products| ==> st.orders[oi].products[k] == snap.products[k]
    ensures ProcessItems(st, oi, snap, i, now, oracle) == HandleEach(st, oi, snap, Unskipped(snap.products, i), now, oracle)
    decreases |snap.products| - i
  {
    if i == |snap.products| {
      assert Unskipped(snap.products, i) == [];
    } else if Skipped(snap.products[i]) {
      ProcessItemsIsHandleEach(st, oi, snap, i + 1, now, oracle);
      SkippedStepIsHandleEach(st, oi, snap, i, now, oracle);
    } else {
      var h := HandleVendorPayout(st, oi, i, snap.products[i], now, oracle(snap.id, i));
      if h.thrown.None? {
        ProcessItemsIsHandleEach(h.store, oi, snap, i + 1, now, oracle);
      }
      HandledStepIsHandleEach(st, oi, snap, i, now, oracle);
    }
  }
}
