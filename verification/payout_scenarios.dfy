/** Worked runs of the sweep on small concrete stores: a settled item, a
    vendor who is verified between two sweeps, an order still inside the
    return window, and the second transfer that follows a failed ledger
    write. */
module PayoutScenarios {
  import opened Base
  import opened Model
  import opened Commission
  import opened BankCheck
  import opened PayoutService
  import opened Sweep

  const Day := MsPerDay

  const GoodIfsc := "HDFC0001234"

  lemma GoodIfscMatches()
    ensures IsIfsc(GoodIfsc)
  {
    assert forall i :: 0 <= i < 11 ==> IfscCharOk(i, GoodIfsc[i]) by {
      forall i | 0 <= i < 11 ensures IfscCharOk(i, GoodIfsc[i]) {
        if i < 4 {} else if i == 4 {} else {}
      }
    }
  }

  /** A store holding one candidate order sweeps exactly that order. */
  lemma SingleCandidate(st: Store)
    requires |st.orders| == 1 && IsCandidate(st.orders[0])
    ensures Candidates(st.orders) == [st.orders[0].id]
  {
    assert CandidateIndices(st.orders, 1) == [];
    assert CandidateIndices(st.orders, 0) == [0];
  }

  /** A payable order with one unsettled item runs as one `handleVendorPayout`
      call on that item. */
  lemma OneItemOrder(st: Store, now: int, oracle: Oracle)
    requires |st.orders| == 1 && |st.orders[0].products| == 1
    requires IsSettleable(st.orders[0].status) && !WithinReturnWindow(now, st.orders[0].updatedAt)
    requires !Skipped(st.orders[0].products[0])
    ensures var h := HandleVendorPayout(st, 0, 0, st.orders[0].products[0], now, oracle(st.orders[0].id, 0));
            ProcessOrderPayouts(st, st.orders[0].id, now, oracle) == (if h.thrown.Some? then h else Outcome(h.store, h.sent, None))
  {
    var o := st.orders[0];
    assert FindOrder(st.orders, o.id) == Some(0);
    var h := HandleVendorPayout(st, 0, 0, o.products[0], now, oracle(o.id, 0));
    assert CountUnsettled(o.products, 1) == 0;
    if h.thrown.None? {
      assert ProcessItems(h.store, 0, o, 1, now, oracle) == Outcome(h.store, [], None);
    }
  }

  /** One paid step of the item loop: a handled item that does not throw is
      followed by the rest of the loop on the store it leaves. */
  lemma PaidItemStep(st: Store, oi: nat, snap: Order, i: nat, now: int, oracle: Oracle, h: Outcome, rest: Outcome)
    requires oi < |st.orders| && |st.orders[oi].products| == |snap.products| && i < |snap.products|
    requires st.orders[oi].id == snap.id && !Skipped(snap.products[i])
    requires forall k :: i <= k < |snap.products| ==> st.orders[oi].products[k] == snap.products[k]
    requires h == HandleVendorPayout(st, oi, i, snap.products[i], now, oracle(snap.id, i)) && h.thrown.None?
    requires rest == ProcessItems(h.store, oi, snap, i + 1, now, oracle)
    ensures ProcessItems(st, oi, snap, i, now, oracle) == Outcome(rest.store, h.sent + rest.sent, rest.thrown)
  {
  }

  /** The last step of the item loop: a handled last item that does not
      throw ends the loop. */
  lemma LastItemStep(st: Store, oi: nat, snap: Order, now: int, oracle: Oracle)
    requires oi < |st.orders| && |st.orders[oi].products| == |snap.products| > 0
    requires st.orders[oi].id == snap.id
    requires var i := |snap.products| - 1; !Skipped(snap.products[i]) && st.orders[oi].products[i] == snap.products[i]
    ensures var i := |snap.products| - 1;
            var h := HandleVendorPayout(st, oi, i, snap.products[i], now, oracle(snap.id, i));
            h.thrown.None? ==> ProcessItems(st, oi, snap, i, now, oracle) == Outcome(h.store, h.sent, None)
  {
    var i := |snap.products| - 1;
    var h := HandleVendorPayout(st, oi, i, snap.products[i], now, oracle(snap.id, i));
    if h.thrown.None? {
      var tail := ProcessItems(h.store, oi, snap, i + 1, now, oracle);
      assert tail == Outcome(h.store, [], None);
      PaidItemStep(st, oi, snap, i, now, oracle, h, tail);
      assert h.sent + [] == h.sent;
    }
  }

  /** The item loop over two unsettled items that both return normally. */
  lemma TwoItemLoop(st: Store, now: int, oracle: Oracle)
    requires |st.orders| == 1 && |st.orders[0].products| == 2
    requires !Skipped(st.orders[0].products[0]) && !Skipped(st.orders[0].products[1])
    ensures var o := st.orders[0];
            var h0 := HandleVendorPayout(st, 0, 0, o.products[0], now, oracle(o.id, 0));
            var h1 := HandleVendorPayout(h0.store, 0, 1, o.products[1], now, oracle(o.id, 1));
            h0.thrown.None? && h1.thrown.None? ==>
              ProcessItems(st, 0, o, 0, now, oracle) == Outcome(h1.store, h0.sent + h1.sent, None)
  {
    var o := st.orders[0];
    var h0 := HandleVendorPayout(st, 0, 0, o.products[0], now, oracle(o.id, 0));
    if h0.thrown.None? {
      LastItemStep(h0.store, 0, o, now, oracle);
      PaidItemStep(st, 0, o, 0, now, oracle, h0, ProcessItems(h0.store, 0, o, 1, now, oracle));
    }
  }

  /** A payable order with two unsettled items runs as two
      `handleVendorPayout` calls, the second on the store the first leaves. */
  lemma TwoItemOrder(st: Store, now: int, oracle: Oracle)
    requires |st.orders| == 1 && |st.orders[0].products| == 2
    requires IsSettleable(st.orders[0].status) && !WithinReturnWindow(now, st.orders[0].updatedAt)
    requires !Skipped(st.orders[0].products[0]) && !Skipped(st.orders[0].products[1])
    ensures var o := st.orders[0];
            var h0 := HandleVendorPayout(st, 0, 0, o.products[0], now, oracle(o.id, 0));
            var h1 := HandleVendorPayout(h0.store, 0, 1, o.products[1], now, oracle(o.id, 1));
            h0.thrown.None? && h1.thrown.None? ==>
              ProcessOrderPayouts(st, o.id, now, oracle) == Outcome(h1.store, h0.sent + h1.sent, None)
  {
    assert FindOrder(st.orders, st.orders[0].id) == Some(0);
    TwoItemLoop(st, now, oracle);
  }

  function VendorA(verified: bool): Vendor
  {
    Vendor("vA", "Green Leaf", "approved", Some(PayoutDetails("123456", GoodIfsc, "Asha")), verified, Some("acc_A"))
  }

  function Item(vendor: VendorId, status: PayoutStatus): LineItem
  {
    LineItem("p1", vendor, "Bamboo Brush", 1, 1000, status, None, None, false, 100, 900, None, None, false)
  }

  function OneOrder(items: seq<LineItem>, updatedAt: int): Order
  {
    Order("o1", "u1", items, 1000, Delivered, Card, 0, updatedAt, None, None, None, None, None, None, None, None)
  }

  function StoreWith(items: seq<LineItem>, updatedAt: int, vendors: map<VendorId, Vendor>): Store
  {
    Store([OneOrder(items, updatedAt)], [], vendors, map[], map[], Some(DefaultSettings))
  }

  const Dev := CronRequest(None, None, false)

  function AllOk(id: OrderId, i: nat): ItemOracle
  {
    ItemOracle(Ok("acc_new"), Ok("trf_" + NatToString(i)), None, false, None, None, None, None, None)
  }

  /** Vendor A, verified and with a cached account, is paid for a 1000-rupee
      item: 90000 paise to "acc_A", the item COMPLETED without a block
      reason, and a COMPLETED entry of 900 with a fee of 100. */
  lemma VerifiedVendorItemStep(st: Store, now: int)
    requires |st.orders| == 1 && |st.orders[0].products| == 1 && st.orders[0].id == "o1"
    requires var it := st.orders[0].products[0];
             it.vendor == "vA" && it.product == "p1" && it.price == 1000 && it.quantity == 1
    requires st.vendors == map["vA" := VendorA(true)] && st.settings == Some(DefaultSettings)
    ensures var h := HandleVendorPayout(st, 0, 0, st.orders[0].products[0], now, AllOk("o1", 0));
            && h.thrown.None? && h.sent == [Transfer(0, 0, "acc_A", 90000, "o1", "p1")]
            && h.store.orders[0].products[0].payoutStatus == COMPLETED
            && h.store.orders[0].products[0].payoutBlockReason == None
            && |h.store.ledger| == |st.ledger| + 1
            && h.store.ledger[|st.ledger|].amount == 900 && h.store.ledger[|st.ledger|].platformFee == 100
            && h.store.ledger[|st.ledger|].payoutStatus == COMPLETED
  {
    GoodIfscMatches();
    assert ValidateBankDetails(VendorA(true)) == Valid;
    assert LiveSplit(st, st.orders[0].products[0], AllOk("o1", 0)) == Split(1000, 100, 900);
  }

  /** A 1000-rupee item of a verified vendor, delivered eight days ago, is
      paid: 90000 paise to the cached account, the item COMPLETED, and a
      COMPLETED entry of 900 with a fee of 100. */
  lemma DeliveredEightDaysAgoSettles()
    ensures var st := StoreWith([Item("vA", PENDING)], 0, map["vA" := VendorA(true)]);
            var r := RunAutomation(Dev, st, 8 * Day, AllOk);
            && r.sent == [Transfer(0, 0, "acc_A", 90000, "o1", "p1")]
            && r.response == Report(1, [Detail("o1", None)])
            && r.store.orders[0].products[0].payoutStatus == COMPLETED
            && |r.store.ledger| == 1
            && r.store.ledger[0].amount == 900 && r.store.ledger[0].platformFee == 100
            && r.store.ledger[0].payoutStatus == COMPLETED
  {
    var st := StoreWith([Item("vA", PENDING)], 0, map["vA" := VendorA(true)]);
    assert IsCandidate(st.orders[0]) by { assert Unsettled(st.orders[0].products[0]); }
    SweepOfOneOrder(Dev, st, 8 * Day, AllOk);
    assert !WithinReturnWindow(8 * Day, 0);
    OneItemOrder(st, 8 * Day, AllOk);
    VerifiedVendorItemStep(st, 8 * Day);
  }

  const UnverifiedStore := StoreWith([Item("vA", PENDING)], 0, map["vA" := VendorA(false)])

  const BlockedStore := StoreWith([Item("vA", PENDING).(payoutStatus := BLOCKED, payoutBlockReason := Some(BankDetailsUnverified))],
                                  8 * Day, map["vA" := VendorA(false)])

  /** The unverified vendor's item is only blocked. */
  lemma UnverifiedItemStep()
    ensures HandleVendorPayout(UnverifiedStore, 0, 0, UnverifiedStore.orders[0].products[0], 8 * Day, AllOk("o1", 0))
            == Outcome(BlockedStore, [], None)
  {
    GoodIfscMatches();
    var st := UnverifiedStore;
    assert ValidateBankDetails(st.vendors["vA"]) == Invalid(BankDetailsUnverified);
    var blocked := st.orders[0].products[0].(payoutStatus := BLOCKED, payoutBlockReason := Some(BankDetailsUnverified));
    assert WriteItem(st, 0, 0, blocked, 8 * Day).orders[0] == BlockedStore.orders[0];
  }

  /** Eight days after delivery, an unverified vendor's item becomes BLOCKED
      with BANK_DETAILS_UNVERIFIED, and nothing is sent or recorded. */
  lemma UnverifiedVendorIsBlocked()
    ensures RunAutomation(Dev, UnverifiedStore, 8 * Day, AllOk) == SweepResult(BlockedStore, [], Report(1, [Detail("o1", None)]))
  {
    var st := UnverifiedStore;
    assert IsCandidate(st.orders[0]) by { assert Unsettled(st.orders[0].products[0]); }
    SweepOfOneOrder(Dev, st, 8 * Day, AllOk);
    assert !WithinReturnWindow(8 * Day, 0);
    OneItemOrder(st, 8 * Day, AllOk);
    UnverifiedItemStep();
  }

  lemma VerifiedVendorIsSettled()
    ensures var r := RunAutomation(Dev, BlockedStore.(vendors := map["vA" := VendorA(true)]), 16 * Day, AllOk);
            r.sent == [Transfer(0, 0, "acc_A", 90000, "o1", "p1")]
            && r.store.orders[0].products[0].payoutStatus == COMPLETED
            && r.store.orders[0].products[0].payoutBlockReason == None
  {
    var st := BlockedStore.(vendors := map["vA" := VendorA(true)]);
    assert IsCandidate(st.orders[0]) by { assert Unsettled(st.orders[0].products[0]); }
    SweepOfOneOrder(Dev, st, 16 * Day, AllOk);
    assert !WithinReturnWindow(16 * Day, 8 * Day);
    OneItemOrder(st, 16 * Day, AllOk);
    VerifiedVendorItemStep(st, 16 * Day);
  }

  /** An unverified vendor's item is BLOCKED with BANK_DETAILS_UNVERIFIED and
      nothing is sent or recorded; once the admin verifies the vendor, the
      next sweep settles it. */
  lemma VerificationBetweenSweepsSettles()
    ensures var r1 := RunAutomation(Dev, UnverifiedStore, 8 * Day, AllOk);
            var r2 := RunAutomation(Dev, r1.store.(vendors := map["vA" := VendorA(true)]), 16 * Day, AllOk);
            && r1.sent == []
            && r1.store.orders[0].products[0].payoutStatus == BLOCKED
            && r1.store.orders[0].products[0].payoutBlockReason == Some(BankDetailsUnverified)
            && r1.store.ledger == []
            && |r2.sent| == 1
            && r2.store.orders[0].products[0].payoutStatus == COMPLETED
  {
    UnverifiedVendorIsBlocked();
    VerifiedVendorIsSettled();
  }

  /** Delivered two days ago: the order is selected but deferred, and the
      store is left exactly as it was. */
  lemma InsideReturnWindowDefers()
    ensures var st := StoreWith([Item("vA", PENDING)], 0, map["vA" := VendorA(true)]);
            var r := RunAutomation(Dev, st, 2 * Day, AllOk);
            r.store == st && r.sent == [] && r.response == Report(1, [Detail("o1", None)])
  {
    var st := StoreWith([Item("vA", PENDING)], 0, map["vA" := VendorA(true)]);
    assert IsCandidate(st.orders[0]) by { assert Unsettled(st.orders[0].products[0]); }
    SingleCandidate(st);
  }

  function LedgerWriteThrows(id: OrderId, i: nat): ItemOracle
  {
    ItemOracle(Ok("acc_new"), Ok("trf_1"), None, false, None, None, Some("write conflict"), None, None)
  }

  const VendorsAB := map["vA" := VendorA(true), "vB" := VendorA(true).(id := "vB", payoutDetails := None)]

  /** The bank checks of the two vendors: vA passes, vB has no details. */
  lemma VendorsABChecks()
    ensures ValidateBankDetails(VendorsAB["vA"]) == Valid
    ensures ValidateBankDetails(VendorsAB["vB"]) == Invalid(BankDetailsMissing)
  {
    GoodIfscMatches();
  }

  const TwoItemStore := StoreWith([Item("vA", PENDING), Item("vB", PENDING)], 0, VendorsAB)

  const AfterLedgerFailure := Store(
    [OneOrder([Item("vA", FAILED).(razorpayTransferId := Some("trf_1")),
               Item("vB", BLOCKED).(payoutBlockReason := Some(BankDetailsMissing))], 8 * Day)],
    [PayoutEntry(LedgerEntryId(0), "o1", "vA", 0, 0, FAILED, Some("write conflict"), None, None, 0, None, 8 * Day)],
    VendorsAB, map[], map[], Some(DefaultSettings))

  const FirstTransfer := Transfer(0, 0, "acc_A", 90000, "o1", "p1")

  /** The store between the two items of the first run. */
  const AfterFirstItem := AfterLedgerFailure.(orders := [OneOrder([AfterLedgerFailure.orders[0].products[0], Item("vB", PENDING)], 8 * Day)])

  /** Item 0: the transfer succeeds, the ledger write throws, and the catch
      block flips the item to FAILED with a zero entry. */
  lemma FirstItemLosesLedgerWrite()
    ensures HandleVendorPayout(TwoItemStore, 0, 0, Item("vA", PENDING), 8 * Day, LedgerWriteThrows("o1", 0))
            == Outcome(AfterFirstItem, [FirstTransfer], None)
  {
    VendorsABChecks();
    var st := TwoItemStore;
    assert LiveSplit(st, Item("vA", PENDING), LedgerWriteThrows("o1", 0)) == Split(1000, 100, 900);
    var h0 := HandleVendorPayout(st, 0, 0, Item("vA", PENDING), 8 * Day, LedgerWriteThrows("o1", 0));
    assert h0.thrown.None? && h0.sent == [FirstTransfer];
    assert h0.store.orders[0].products[0] == AfterFirstItem.orders[0].products[0];
    assert h0.store.orders[0].products[1] == AfterFirstItem.orders[0].products[1];
    assert h0.store.orders[0].products == AfterFirstItem.orders[0].products;
    assert h0.store.orders == AfterFirstItem.orders;
    assert h0.store.ledger == AfterFirstItem.ledger;
  }

  /** Item 1: vendor vB has no bank details, so the item is BLOCKED. */
  lemma SecondItemIsBlocked()
    ensures HandleVendorPayout(AfterFirstItem, 0, 1, Item("vB", PENDING), 8 * Day, LedgerWriteThrows("o1", 1))
            == Outcome(AfterLedgerFailure, [], None)
  {
    var st := AfterFirstItem;
    VendorsABChecks();
    var h1 := HandleVendorPayout(st, 0, 1, Item("vB", PENDING), 8 * Day, LedgerWriteThrows("o1", 1));
    assert h1.store.orders[0].products[1] == AfterLedgerFailure.orders[0].products[1];
    assert h1.store.orders[0].products == AfterLedgerFailure.orders[0].products;
    assert h1.store.orders == AfterLedgerFailure.orders;
  }

  /** The order-level run behind the first sweep. */
  lemma FirstRunLosesLedgerWrite()
    ensures ProcessOrderPayouts(TwoItemStore, "o1", 8 * Day, LedgerWriteThrows) == Outcome(AfterLedgerFailure, [FirstTransfer], None)
  {
    var o := TwoItemStore.orders[0];
    assert o.products[0] == Item("vA", PENDING) && o.products[1] == Item("vB", PENDING) && o.id == "o1";
    assert !WithinReturnWindow(8 * Day, 0);
    FirstItemLosesLedgerWrite();
    SecondItemIsBlocked();
    TwoItemOrder(TwoItemStore, 8 * Day, LedgerWriteThrows);
    assert [FirstTransfer] + [] == [FirstTransfer];
  }

  lemma FirstSweepLosesLedgerWrite()
    ensures var r := RunAutomation(Dev, TwoItemStore, 8 * Day, LedgerWriteThrows);
            r.store == AfterLedgerFailure && r.sent == [FirstTransfer]
  {
    var st := TwoItemStore;
    assert IsCandidate(st.orders[0]) by { assert Unsettled(st.orders[0].products[0]); }
    SweepOfOneOrder(Dev, st, 8 * Day, LedgerWriteThrows);
    FirstRunLosesLedgerWrite();
  }

  /** On the second sweep item 0, FAILED with its transfer id, is paid again
      through the vendor's cached account. */
  lemma RetryTransfersAgain()
    ensures var st := AfterLedgerFailure;
            var h0 := HandleVendorPayout(st, 0, 0, st.orders[0].products[0], 16 * Day, AllOk("o1", 0));
            && h0.thrown.None? && h0.sent == [FirstTransfer]
            && h0.store.vendors == st.vendors
            && h0.store.orders[0].products[1] == st.orders[0].products[1]
  {
    VendorsABChecks();
    var st := AfterLedgerFailure;
    assert LiveSplit(st, st.orders[0].products[0], AllOk("o1", 0)) == Split(1000, 100, 900);
  }

  /** Item 1 of the second run: vendor vB still has no bank details. */
  lemma SecondItemBlockedAgain(st: Store)
    requires |st.orders| == 1 && |st.orders[0].products| == 2 && st.vendors == VendorsAB
    requires st.orders[0].products[1] == AfterLedgerFailure.orders[0].products[1]
    ensures var h1 := HandleVendorPayout(st, 0, 1, AfterLedgerFailure.orders[0].products[1], 16 * Day, AllOk("o1", 1));
            h1.thrown.None? && h1.sent == []
  {
    VendorsABChecks();
  }

  /** The order-level run behind the second sweep: item 0 is FAILED, hence
      not skipped, and is transferred again. */
  lemma SecondRunPaysAgain()
    ensures ProcessOrderPayouts(AfterLedgerFailure, "o1", 16 * Day, AllOk).sent == [FirstTransfer]
  {
    var st := AfterLedgerFailure;
    var o := st.orders[0];
    assert o.id == "o1" && !Skipped(o.products[0]) && !Skipped(o.products[1]);
    assert !WithinReturnWindow(16 * Day, 8 * Day);
    RetryTransfersAgain();
    var h0 := HandleVendorPayout(st, 0, 0, o.products[0], 16 * Day, AllOk("o1", 0));
    SecondItemBlockedAgain(h0.store);
    TwoItemOrder(st, 16 * Day, AllOk);
    assert [FirstTransfer] + [] == [FirstTransfer];
  }

  lemma SecondSweepPaysAgain()
    ensures RunAutomation(Dev, AfterLedgerFailure, 16 * Day, AllOk).sent == [FirstTransfer]
  {
    var st := AfterLedgerFailure;
    assert IsCandidate(st.orders[0]) by { assert Unsettled(st.orders[0].products[1]); }
    SweepOfOneOrder(Dev, st, 16 * Day, AllOk);
    SecondRunPaysAgain();
  }

  /** One try/catch covers the transfer and the ledger write.  The transfer
      succeeds, the ledger write throws, and the item is flipped from
      COMPLETED to FAILED with a zero FAILED entry.  A sibling item that
      stays BLOCKED keeps the order a candidate, so the next sweep transfers
      the same item's share a second time. */
  lemma LedgerWriteFailureLeadsToSecondTransfer()
    ensures var r1 := RunAutomation(Dev, TwoItemStore, 8 * Day, LedgerWriteThrows);
            var r2 := RunAutomation(Dev, r1.store, 16 * Day, AllOk);
            && r1.sent == [FirstTransfer]
            && r1.store == AfterLedgerFailure
            && r1.store.orders[0].products[0].payoutStatus == FAILED
            && r1.store.orders[0].products[0].razorpayTransferId == Some("trf_1")
            && r1.store.ledger[0].payoutStatus == FAILED && r1.store.ledger[0].amount == 0
            && r2.sent == r1.sent
  {
    var r1 := RunAutomation(Dev, TwoItemStore, 8 * Day, LedgerWriteThrows);
    var a := AfterLedgerFailure;
    assert r1.store == a && r1.sent == [FirstTransfer] by { FirstSweepLosesLedgerWrite(); }
    assert a.orders[0].products[0].payoutStatus == FAILED && a.orders[0].products[0].razorpayTransferId == Some("trf_1");
    assert a.ledger[0].payoutStatus == FAILED && a.ledger[0].amount == 0;
    assert RunAutomation(Dev, a, 16 * Day, AllOk).sent == [FirstTransfer] by { SecondSweepPaysAgain(); }
  }
}
