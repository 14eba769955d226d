# Vendor payout engine of the eco-saro marketplace, in Dafny

This project models the money path of a multi-vendor marketplace. A buyer pays
by card. The order freezes each line item's commission split. A courier
webhook moves the order to Delivered. Seven days later a scheduled sweep pays
each vendor their share of every item that is not yet settled, through the
payment provider's transfer API. The provider's webhook confirms or fails the
transfers. Admins can settle items by hand, approve refunds and export a
settlement CSV. Vendors see their earnings.

The state of the database is one immutable `Model.Store`. It holds the orders
with their line items, the payout ledger, the vendors, the products, the
refund requests and the settings document. Every route and service function is
a pure function from a store and its request to a new store and a response.
Everything outside that is a parameter:
- the clock (`now`, in milliseconds);
- what the payment provider answers (an oracle per order and item);
- whether a signature matched;
- the date range of a query.

Modules follow the source's structure:

- `Base`: options, JS truthiness, string helpers.
- `Model`: the order, line item, payout entry, vendor, product, refund and
  settings records, with the positional writes Mongo's `$` operator makes.
- `Commission`: the fee split and the read-side fallbacks.
- `BankCheck`: bank-detail validation.
- `PayoutService`: `processOrderPayouts` and `handleVendorPayout`.
- `Sweep`: the cron route that runs the service over all candidate orders.
- `MarkPaid`: manual settlement.
- `PayoutWebhook`: the payment provider's events.
- `Refunds`: the admin refund decision.
- `Checkout`: payment verification and order creation.
- `SettlementSummary` and `PayoutsPage`: the admin's settlement summary, its
  page's selection, and the CSV export.
- `Csv`: the field quoting of RFC 4180, section 2, rule 7.
- `VendorPayments`: the vendor's earnings.
- `AdminStats`: the admin dashboard statistics.
- `ShippingWebhook`: the courier's status webhook.
- `Otp`: the email OTP check.
- `AdminSettings`: the settings routes.
- `VendorStore`: the vendor's store profile update.
- `Whitelist`: the shared field whitelist.
- `Profile`: the checkout profile gate.
- `Sorting`: the stable newest-first sort and top-N.
- `PayoutScenarios`: concrete runs of the sweep.

Amounts are whole rupees as `int`. The provider gets paise: the rupee amount
times 100. The fee is the exact value gross × rate / 100 rounded half-up,
written `(gross * rate + 50) / 100`. The program rounds a double instead,
`Math.round(itemTotal * (commissionRate / 100))`; the two differ at some
half-rupee ties (see "## Left out").

## Model

| member | source | states |
|---|---|---|
| Commission.RoundHundredths | lib/payout-service.ts:94 | the result is the integer nearest to x/100, halves rounding up |
| Commission.Fee | lib/payout-service.ts:92-95 | the platform fee is within half a rupee of gross × rate / 100 |
| Commission.ComputeSplit | lib/payout-service.ts:93-95 | gross is price × quantity; fee and vendor share add up to gross exactly; the fee is the rounded percentage |
| Commission.CurrentRate | lib/payout-service.ts:20-27 | a stored rate is used whatever its value, including 0, because of `??`; only a missing settings document gives the default 10 |
| Commission.FeeIsUnique | lib/payout-service.ts:94 | any integer within half a rupee of gross × rate / 100 is the fee, so the rounding is determined |
| Commission.SplitBounds | lib/payout-service.ts:93-95 | for non-negative price and quantity and a rate in 0..100, fee and share each lie between 0 and gross |
| Commission.ZeroRateReadsBackAsTenPercent | app/api/admin/payouts/route.ts:54-56 | an item frozen at rate 0 stores commission 0, which `||` reads back as ten percent, so the shown commission plus net exceeds the gross |
| Commission.ReadSideCommission | app/api/admin/payouts/route.ts:55 | a non-zero stored commission is shown as stored; a zero one is replaced by the integer nearest to ten percent of the gross |
| Commission.ReadSideNet | app/api/admin/payouts/route.ts:56 | a non-zero stored net is shown as stored; a zero one is the gross minus the shown commission |
| BankCheck.MatchIfsc | lib/payout-service.ts:170-171 | the loop accepts exactly the strings of four capitals, a '0', then six capitals or digits |
| BankCheck.ValidateBankDetails | lib/payout-service.ts:163-180 | Valid iff account number, IFSC and holder are all non-empty, the IFSC matches and the vendor is verified; each failure reason holds iff the checks before it passed and its own failed |
| BankCheck.VerificationUnblocks | lib/payout-service.ts:175-177 | a vendor blocked only as unverified becomes Valid once verified |
| Model.NewLineItem | models/order.model.ts:56-67 | a new line item is PENDING, unlocked, not refunded, with zero commission and net and no transfer id |
| Model.FindOrder | models/order.model.ts:84 | finds the first order with the id; None means no order has it |
| Model.WriteItem | lib/payout-service.ts:121-130 | a positional update changes that one item and the order's updatedAt, and nothing else in the store |
| Model.AppendEntry | models/payout.model.ts:19-33 | creating a ledger entry appends it and leaves the rest of the store alone |
| PayoutService.ReturnWindowIsSevenDays | lib/payout-service.ts:45-52 | an order is deferred iff fewer than seven whole days (in ms) have passed since its updatedAt |
| PayoutService.KeepsSettledTransitive | lib/payout-service.ts:54-59 | "settled items stay settled" composes across runs |
| PayoutService.SentOnlyUnsettledBackwards | lib/payout-service.ts:54-59 | a transfer for an item unsettled later was for an item unsettled earlier |
| PayoutService.HandleKeepsSettled | lib/payout-service.ts:54-59 | handling an item that is not settled leaves every settled item of the store as it was |
| PayoutService.FailurePath | lib/payout-service.ts:144-160 | the catch marks only this item FAILED and appends a zero-amount FAILED entry carrying the error message; if the FAILED write throws, that error propagates with the store unchanged; if the FAILED entry write throws, the item stays FAILED, no entry is added and that error propagates |
| PayoutService.BlockItem | lib/payout-service.ts:74-87 | a failed bank check marks only this item BLOCKED with the reason; nothing is sent, the ledger and vendors are unchanged; a throwing BLOCKED write propagates out of the loop with the store unchanged |
| PayoutService.NewAccountStep | lib/payout-service.ts:101-118 | a created account is saved on this vendor only, then exactly one transfer of the share in paise goes to it; a throwing `vendor.save()` sends nothing and takes the failure path |
| PayoutService.PaidStep | lib/payout-service.ts:120-160 | after a successful transfer the item is COMPLETED with the transfer id and a COMPLETED entry with share and fee is appended; a throwing COMPLETED write leaves the transfer sent and the item FAILED without a transfer id; a throwing entry write turns the item FAILED, still with the transfer id, with a zero FAILED entry instead |
| PayoutService.TransferStep | lib/payout-service.ts:108-140 | exactly one transfer of the share in paise to the account; on success the item is COMPLETED with the transfer id and a COMPLETED entry with share and fee is appended; a throwing ledger write leaves the item FAILED with the transfer id and a zero FAILED entry |
| PayoutService.HandleVendorPayout | lib/payout-service.ts:65-161 | an unresolved vendor throws before any write; a failed bank check blocks the item with the reason and sends nothing; a cached account is reused; a created account is saved on the vendor before the transfer; a failed creation or save takes the failure path; at most one transfer, only for this item; every write the oracle fails is handled as the source's `try`/`catch` handles it |
| PayoutService.PayoutRate | lib/payout-service.ts:20-27 | the rate is the stored one when the settings read succeeds and a document exists, and 10 when the read throws or there is no document |
| PayoutService.LiveSplit | lib/payout-service.ts:92-95 | the live split is price × quantity, split into the fee rounded at the rate in force at payout time and the rest |
| PayoutService.DaysSince | lib/payout-service.ts:47 | the whole days since the write are the floor of the difference over a day in milliseconds: that many days fit in it and one more does not |
| PayoutService.SentFor | lib/payout-service.ts:110-118 | the transfers of one item are exactly those sent with that item's position |
| PayoutService.SentForAppend | lib/payout-service.ts:54-59 | the transfers of one item in two batches are its transfers in each |
| PayoutService.SentForOwn | lib/payout-service.ts:54-59 | a batch sent only for one item holds all of that item's transfers |
| PayoutService.SentForOthers | lib/payout-service.ts:54-59 | a batch sent only for one item holds none of another item's transfers |
| PayoutService.PaidStepFinishes | lib/payout-service.ts:120-160 | after a transfer the item ends COMPLETED with a transfer id, or FAILED |
| PayoutService.TransferStepFinishes | lib/payout-service.ts:108-160 | a transfer attempt sends exactly one transfer of the share in paise and leaves the item COMPLETED with a transfer id, or FAILED |
| PayoutService.NewAccountStepFinishes | lib/payout-service.ts:101-160 | an attempt without a cached account sends at most one transfer of the share and leaves the item COMPLETED or FAILED |
| PayoutService.HandleAttempts | lib/payout-service.ts:65-161 | when nothing is thrown, one handling either blocks the item with the bank-check reason and sends nothing, or leaves it COMPLETED (with exactly one transfer and its id) or FAILED (with at most one transfer); every transfer is of the live share in paise, and a cached account gets exactly one |
| PayoutService.AttemptedSameSent | lib/payout-service.ts:54-59 | an item's attempt is described only by its own transfers, so other items' transfers do not change it |
| PayoutService.AttemptedEarlier | lib/payout-service.ts:54-59 | an item's attempt is unaffected by the later items' handlings |
| PayoutService.KeepHereAttempt | lib/payout-service.ts:54-59 | the current item's attempt survives the handling of the rest of the order |
| PayoutService.KeepLaterAttempt | lib/payout-service.ts:54-59 | the later items' attempts hold after the current item is handled first |
| PayoutService.StepAttempts | lib/payout-service.ts:54-59 | one step of the loop: the current item's attempt and the later ones together give every unskipped item from here on |
| PayoutService.ProcessItemsAttempts | lib/payout-service.ts:54-59 | when the loop throws nothing, every unskipped item from the start position on is attempted: blocked, COMPLETED or FAILED, with its transfers as above |
| PayoutService.PayoutAttemptsEveryUnsettledItem | lib/payout-service.ts:32-59 | for an order that exists, is Delivered or completed and is past the return window, a run that throws nothing attempts every item that is neither COMPLETED nor refunded |
| PayoutService.Unskipped | lib/payout-service.ts:54-56 | the positions the loop handles: exactly the items from the start on that are neither COMPLETED nor refunded, in increasing order |
| PayoutService.HandleEach | lib/payout-service.ts:54-59 | handling a list of positions in turn, stopping at the first throw, keeps the store's shape |
| PayoutService.HandledStepIsHandleEach | lib/payout-service.ts:56-58 | an unskipped item is handled first and the loop continues from the store it leaves |
| PayoutService.SkippedStepIsHandleEach | lib/payout-service.ts:56 | a skipped item contributes nothing to the loop |
| PayoutService.ProcessItemsIsHandleEach | lib/payout-service.ts:54-59 | the item loop is exactly `handleVendorPayout` applied in order to the unskipped positions of the loaded order, stopping at the first throw |
| PayoutService.ProcessItems | lib/payout-service.ts:54-59 | COMPLETED or refunded items are never touched or paid; settled items stay settled; every transfer is for an unskipped item of this order; at most one ledger entry per unskipped item |
| PayoutService.ProcessOrderPayouts | lib/payout-service.ts:32-60 | a missing order throws "Order not found"; a non-Delivered/completed order or one inside the return window is a no-op; otherwise only unsettled items are paid, settled items stay settled, other orders are untouched |
| Sweep.RunSweep | app/api/admin/payouts/automate/route.ts:30-38 | one detail per candidate id, in order; an order's error is recorded and the sweep goes on; settled items stay settled |
| Sweep.RunAutomation | app/api/admin/payouts/automate/route.ts:13-43 | in production a wrong bearer secret is a 401 with nothing written; otherwise the report counts and lists exactly the candidate orders, in store order |
| Sweep.IsCandidate | app/api/admin/payouts/automate/route.ts:23-26 | a candidate is Delivered or completed and has items; an order whose items are all COMPLETED or FAILED is never a candidate |
| Sweep.CandidateIndices | app/api/admin/payouts/automate/route.ts:23-26 | exactly the positions of the candidate orders, in increasing (store) order |
| Sweep.Candidates | app/api/admin/payouts/automate/route.ts:23-26 | every listed id belongs to a candidate order and every candidate order's id is listed |
| Sweep.ExpectedAuthorization | app/api/admin/payouts/automate/route.ts:14 | the expected header is "Bearer " followed by the secret, and "Bearer undefined" when the secret is unset |
| Sweep.Authorized | app/api/admin/payouts/automate/route.ts:14 | outside production every request passes; in production a missing header fails, and with the secret unset the literal "Bearer undefined" passes |
| Sweep.SweepPrefix | app/api/admin/payouts/automate/route.ts:30-38 | the loop after k ids has k details |
| Sweep.SweepPrefixShift | app/api/admin/payouts/automate/route.ts:30-38 | running the first id and then the loop over the rest is the loop over all ids |
| Sweep.SweepPrefixCons | app/api/admin/payouts/automate/route.ts:30-38 | the same, for the whole list, with the first outcome given |
| Sweep.RunSweepIsLoop | app/api/admin/payouts/automate/route.ts:30-38 | the sweep is exactly the route's `for` loop calling `processOrderPayouts` on each id in turn, on the store the previous call left |
| Sweep.SweepPrefixDetails | app/api/admin/payouts/automate/route.ts:32-37 | the j-th detail of a longer loop is what the j-th id threw on the store the first j ids left |
| Sweep.SweepRecordsEveryError | app/api/admin/payouts/automate/route.ts:30-38 | the sweep ends on the loop's store with the loop's transfers, and the k-th detail is the k-th order's own error, or none |
| Sweep.AutomationProcessesEveryCandidate | app/api/admin/payouts/automate/route.ts:21-43 | an authorized request runs the payout on every candidate in store order, returns a report, and records against each candidate the error its own run threw |
| Sweep.SweepOfOneOrder | app/api/admin/payouts/automate/route.ts:23-43 | a store holding one candidate order sweeps as exactly one `processOrderPayouts` call |
| Sweep.FailedOnlyOrdersAreNotCandidates | app/api/admin/payouts/automate/route.ts:23-26 | an order whose items are all FAILED or COMPLETED is never picked up again |
| Sweep.RerunNeverPaysSettledItems | lib/payout-service.ts:56 | a second sweep only sends transfers for items that were unsettled both before the first sweep and after it |
| PayoutScenarios.DeliveredEightDaysAgoSettles | lib/payout-service.ts:92-140 | a 1000-rupee item of a verified vendor, delivered eight days ago, is paid 90000 paise with fee 100 and a COMPLETED entry |
| PayoutScenarios.UnverifiedVendorIsBlocked | lib/payout-service.ts:73-88 | an unverified vendor's item becomes BLOCKED and nothing is sent or recorded |
| PayoutScenarios.VerifiedVendorIsSettled | lib/payout-service.ts:54-59 | a BLOCKED item is retried and clears its block reason once the vendor is verified |
| PayoutScenarios.VerificationBetweenSweepsSettles | lib/payout-service.ts:73-130 | blocked in the first sweep, paid in the second after verification |
| PayoutScenarios.InsideReturnWindowDefers | lib/payout-service.ts:49-52 | two days after delivery nothing changes and the order is still reported |
| PayoutScenarios.FirstItemLosesLedgerWrite | lib/payout-service.ts:121-160 | the transfer is sent, then a throwing ledger write turns the item FAILED with its transfer id and records a zero FAILED entry |
| PayoutScenarios.SecondItemIsBlocked | lib/payout-service.ts:73-88 | the second item of that order, for an unverified vendor, is only blocked |
| PayoutScenarios.FirstRunLosesLedgerWrite | lib/payout-service.ts:32-60 | the whole order run ends in that state, with one transfer sent |
| PayoutScenarios.FirstSweepLosesLedgerWrite | app/api/admin/payouts/automate/route.ts:30-38 | the sweep ends in that state |
| PayoutScenarios.SecondRunPaysAgain | lib/payout-service.ts:56 | a FAILED item is not skipped, so the next run transfers the same share again |
| PayoutScenarios.SecondSweepPaysAgain | app/api/admin/payouts/automate/route.ts:23-38 | the next sweep sends that same transfer again |
| PayoutScenarios.LedgerWriteFailureLeadsToSecondTransfer | lib/payout-service.ts:110-160 | end to end, a failed ledger write after a successful transfer leads the next sweep to pay the vendor twice |
| PayoutScenarios.GoodIfscMatches | lib/payout-service.ts:170 | the IFSC used in the scenarios is well-formed |
| PayoutScenarios.SingleCandidate | app/api/admin/payouts/automate/route.ts:23-26 | a single candidate order is the whole candidate list |
| PayoutScenarios.OneItemOrder | lib/payout-service.ts:32-60 | a payable order with one unsettled item runs as one `handleVendorPayout` call on it |
| PayoutScenarios.PaidItemStep | lib/payout-service.ts:54-59 | an item handled without an error is followed by the rest of the loop on the store it leaves, and the transfers add up |
| PayoutScenarios.LastItemStep | lib/payout-service.ts:54-59 | a last item handled without an error ends the loop with that item's store and transfers |
| PayoutScenarios.TwoItemLoop | lib/payout-service.ts:54-59 | two unsettled items handled without errors run in order, the second on the store the first leaves |
| PayoutScenarios.TwoItemOrder | lib/payout-service.ts:32-60 | a payable order with two unsettled items runs as those two calls in order |
| PayoutScenarios.VerifiedVendorItemStep | lib/payout-service.ts:90-140 | a verified vendor with a cached account is paid 90000 paise for a 1000-rupee item, and the item and a 900/100 entry are COMPLETED |
| PayoutScenarios.UnverifiedItemStep | lib/payout-service.ts:73-88 | an unverified vendor's item is only BLOCKED with BANK_DETAILS_UNVERIFIED |
| PayoutScenarios.VendorsABChecks | lib/payout-service.ts:163-176 | the bank check passes vendor A and reports vendor B's missing details |
| PayoutScenarios.RetryTransfersAgain | lib/payout-service.ts:56 | the FAILED item that keeps its transfer id is handled again and transferred again to the cached account |
| PayoutScenarios.SecondItemBlockedAgain | lib/payout-service.ts:73-88 | on the second run vendor B's item is blocked again and nothing is sent for it |
| MarkPaid.FirstNamed | app/api/admin/payouts/mark-paid/route.ts:46 | finds the first item with the name; None means no item has it |
| MarkPaid.SettleItem | app/api/admin/payouts/mark-paid/route.ts:35-40 | the item becomes COMPLETED and locked, with the reference and date, and keeps every other field |
| MarkPaid.MarkOne | app/api/admin/payouts/mark-paid/route.ts:28-62 | as written: succeeds iff the order exists, has an item of that name, and no item of the order is COMPLETED; on success it settles the first item of that name and appends one COMPLETED entry with its net and commission; on failure nothing changes |
| MarkPaid.MarkTwiceIsMarkOnce | app/api/admin/payouts/mark-paid/route.ts:32 | marking the same item twice fails the second time and changes nothing |
| MarkPaid.MarkAll | app/api/admin/payouts/mark-paid/route.ts:24-63 | one detail per request, in order, the first with the first pair's own outcome; the success count equals the successful details and the number of ledger entries appended; only orders and ledger change; `AsWritten` composes the route's filter, `PerItem` the corrected one |
| MarkPaid.SuccessfulDetails | app/api/admin/payouts/mark-paid/route.ts:67 | keeps exactly the successful details |
| MarkPaid.MarkPaidRoute | app/api/admin/payouts/mark-paid/route.ts:18-69 | a missing or empty item list is a 400 with nothing written; otherwise one detail per item and one entry per success; `MarkPaidRoute(AsWritten, ...)` is the route as written |
| MarkPaid.FirstOpenNamed | app/api/admin/payouts/mark-paid/route.ts:28-33 | finds the first item with the name that is not COMPLETED |
| MarkPaid.MarkOneElemMatch | app/api/admin/payouts/mark-paid/route.ts:28-62 | corrected: succeeds iff the order has an uncompleted item of that name; settles the first such item and appends its COMPLETED entry; on failure nothing changes |
| MarkPaid.ElemMatchSettlesSiblings | app/api/admin/payouts/mark-paid/route.ts:24-43 | corrected: settling one item never stops a differently named open sibling from being settled next |
| MarkPaid.SiblingCompletedBlocksManualSettlement | app/api/admin/payouts/mark-paid/route.ts:28-33 | as written: in an order with one paid item, the unpaid sibling cannot be marked paid; the corrected query settles it |
| MarkPaid.SiblingCompletedFailsRoute | app/api/admin/payouts/mark-paid/route.ts:24-69 | as written, the whole route reports the "Jute Bag" request failed and writes nothing; with the corrected filter it reports one success and appends one ledger entry |
| MarkPaid.MarkWith | app/api/admin/payouts/mark-paid/route.ts:28-62 | under either filter, one pair either changes nothing or appends exactly one ledger entry, and changes only orders and ledger |
| MarkPaid.EffectiveDate | app/api/admin/payouts/mark-paid/route.ts:37 | the given payout date, or the current time when none is given |
| MarkPaid.ManualEntry | app/api/admin/payouts/mark-paid/route.ts:49-57 | the audit entry is COMPLETED for this order and the item's vendor, with the item's frozen net and commission, the reference as payout id and the effective date |
| PayoutWebhook.EntryByTransfer | app/api/webhooks/razorpay/payout/route.ts:69-72 | the first ledger entry with the transfer id; None means none has it |
| PayoutWebhook.EntryByPayout | app/api/webhooks/razorpay/payout/route.ts:98-101 | the first ledger entry with the payout id; None means none has it |
| PayoutWebhook.ItemByTransfer | app/api/webhooks/razorpay/payout/route.ts:75-78 | the first item with the transfer id |
| PayoutWebhook.OrderByTransfer | app/api/webhooks/razorpay/payout/route.ts:75-78 | the first order holding an item with the transfer id |
| PayoutWebhook.SetEntry | app/api/webhooks/razorpay/payout/route.ts:69-72 | updates the status (and processedAt or reason) of the one matched entry, keeping its ids and amounts and every other entry |
| PayoutWebhook.SetTransferItem | app/api/webhooks/razorpay/payout/route.ts:90-93 | updates the first matching item's status (and reason) and that order's updatedAt; no match changes nothing |
| PayoutWebhook.TransferFailureReason | app/api/webhooks/razorpay/payout/route.ts:82 | the provider's description when non-empty, else a fixed non-empty reason |
| PayoutWebhook.ApplyEvent | app/api/webhooks/razorpay/payout/route.ts:37-109 | each of the four events updates the matched ledger entry, and the transfer events also the matched item; payout events never touch an order; nothing else changes |
| PayoutWebhook.Webhook | app/api/webhooks/razorpay/payout/route.ts:9-63 | a missing secret is 500, a missing or wrong signature 400, all with nothing written; 200 iff the signature checks and the body parses; an unhandled event type writes nothing |
| PayoutWebhook.LookupsSurviveEvent | app/api/webhooks/razorpay/payout/route.ts:65-109 | applying an event never changes which entry, order or item any id finds |
| PayoutWebhook.EventKeepsIds | app/api/webhooks/razorpay/payout/route.ts:65-109 | no handler changes an entry's transfer or payout id or an item's transfer id |
| PayoutWebhook.EntryLookupsAgree | app/api/webhooks/razorpay/payout/route.ts:69-70 | ledger lookups depend only on the entries' ids |
| PayoutWebhook.ItemLookupAgrees | app/api/webhooks/razorpay/payout/route.ts:76 | item lookups depend only on the items' transfer ids |
| PayoutWebhook.OrderLookupAgrees | app/api/webhooks/razorpay/payout/route.ts:76 | order lookups depend only on their items' transfer ids |
| PayoutWebhook.RedeliveryIsIdempotent | app/api/webhooks/razorpay/payout/route.ts:65-109 | a redelivered event leaves the store as a single delivery at the later time would |
| PayoutWebhook.RedeliveryLedger | app/api/webhooks/razorpay/payout/route.ts:65-109 | the ledger after a redelivery equals the ledger after one delivery at the later time |
| PayoutWebhook.RedeliveryOrders | app/api/webhooks/razorpay/payout/route.ts:74-94 | the orders after a redelivery equal the orders after one delivery at the later time |
| PayoutWebhook.TransferRedeliveryOrders | app/api/webhooks/razorpay/payout/route.ts:74-94 | a transfer event that finds its item finds it again and writes the same status and reason, so only the time moves |
| PayoutWebhook.SetTransferItemTwice | app/api/webhooks/razorpay/payout/route.ts:90-93 | writing the same item twice gives what one write at the later time gives |
| PayoutWebhook.FailedOverwritesCompleted | app/api/webhooks/razorpay/payout/route.ts:81-94 | a late transfer.failed turns a COMPLETED item FAILED with the reason; there is no status guard |
| PayoutWebhook.UnknownIdIsNoOp | app/api/webhooks/razorpay/payout/route.ts:65-109 | an event for an id nothing carries changes nothing |
| Refunds.ParseDecision | app/api/admin/refunds/route.ts:45-47 | accepts exactly "APPROVED" and "REJECTED" |
| Refunds.RefundItem | app/api/admin/refunds/route.ts:62-66 | the saved item is FAILED with the refund reason, keeping every other field; it is refunded iff the schema declares the path or it already was, so as declared the flag is lost |
| Refunds.Restock | app/api/admin/refunds/route.ts:69-71 | adds the quantity to that product's stock only; a missing product changes nothing |
| Refunds.ApplyApproval | app/api/admin/refunds/route.ts:58-72 | with an existing order and item index, saves the approved item and restocks its quantity, touching no other item or order; otherwise nothing changes |
| Refunds.DecideRefund | app/api/admin/refunds/route.ts:43-90 | a bad status is 400 and an unknown refund 404, with nothing written; otherwise the refund gets the status and notes; a rejection touches no order or stock; an approval applies the item change and restock; `AsDeclared` is the route as written |
| Refunds.ReapprovalRestocksAgain | app/api/admin/refunds/route.ts:54-72 | approving the same refund twice restocks its quantity twice, with nothing guarding the second time |
| Refunds.ApprovedItemIsSkipped | lib/payout-service.ts:56 | with a schema that declares `refunded`, an approved refund's item is skipped by every later payout run |
| Refunds.ApprovedItemStaysUnskipped | lib/payout-service.ts:56 | as written, an approved item is skipped by the payout loop only if it was already refunded before, which the program never stores |
| Refunds.ApprovedItemIsPaidAgain | lib/payout-service.ts:56-118 | as written, after an approval the next payout run of the order that passes the gate and throws nothing sends the item's vendor exactly one more transfer of its live share, when the bank details pass and an account is linked |
| Refunds.ApprovalFlipsCompletedToFailed | app/api/admin/refunds/route.ts:64 | approving a refund on an already-paid item turns it FAILED, though the money was sent |
| Checkout.PriceLines | app/api/payment/verify/route.ts:53-72 | Priced iff every line's product exists with enough stock, each line then priced from the product; otherwise the first failing line is named, as not found or short of stock |
| Checkout.Decrement | app/api/payment/verify/route.ts:76-84 | the guarded decrement succeeds iff stock covers the quantity, and then lowers that product's stock by it |
| Checkout.DecrementAll | app/api/payment/verify/route.ts:75-84 | the decrements change only stock, and keep the product set |
| Checkout.DecrementAllPerProduct | app/api/payment/verify/route.ts:75-84 | each product's final stock is its own lines' guarded decrements applied in line order, a failed one skipped and the earlier ones kept; the flag is true iff every line names a known product and passes its guard on the stock the earlier lines left |
| Checkout.DecrementStep | app/api/payment/verify/route.ts:76-84 | the first line's decrement extends the per-product account of the rest |
| Checkout.ProductHistoryStep | app/api/payment/verify/route.ts:76-84 | the first line changes only its own product's history |
| Checkout.LinesKnownStep | app/api/payment/verify/route.ts:76-84 | every line names a known product iff the first does and the rest do |
| Checkout.TwoLinesOverdraw | app/api/payment/verify/route.ts:75-84 | two lines of 2 against a stock of 3: the first decrement applies, the second fails, stock ends at 1 |
| Checkout.DecrementsApplyExactly | app/api/payment/verify/route.ts:75-84 | when stock covers each product's total demand, every decrement succeeds and stock drops by exactly that demand |
| Checkout.DemandCoversLine | app/api/payment/verify/route.ts:77 | a product's total demand is at least any one of its lines |
| Checkout.DemandNonNegative | app/api/payment/verify/route.ts:77 | demand from non-negative quantities is non-negative |
| Checkout.FrozenItem | app/api/payment/verify/route.ts:86-101 | the frozen item is PENDING and unlocked, keeps product, vendor, price and quantity; its commission is the fee rounded at the checkout rate and commission plus net equals price × quantity |
| Checkout.FrozenItems | app/api/payment/verify/route.ts:104-106 | one frozen item per priced line, in order |
| Checkout.TotalIsSumOfSplits | app/api/payment/verify/route.ts:63-107 | the order total equals the sum of the frozen commissions and nets |
| Checkout.NewOrder | app/api/payment/verify/route.ts:104-121 | the new order is `completed`, paid by Card, created now, with the computed total and one frozen item per line |
| Checkout.SyncShipment | app/api/payment/verify/route.ts:123-165 | the courier sync only adds shipment fields to the new order; a failed or empty answer changes nothing |
| Checkout.VerifyPayment | app/api/payment/verify/route.ts:11-177 | no session is 401 and a bad signature 400; a failed pre-check answers before any stock changes; on success stock drops by the decrements and one order is appended with the current rate frozen; a failed decrement is a 500 that keeps every decrement whose guard passed, later lines included |
| Checkout.ShipmentDoesNotChangeOutcome | app/api/payment/verify/route.ts:162-165 | the courier answer never changes the response, the stock or the order's items and total |
| Checkout.DoubleLineLosesStock | app/api/payment/verify/route.ts:53-102 | a cart with the same product twice passes the per-line pre-check, fails the second decrement with 500, and keeps the first decrement without an order |
| Checkout.NewOrderIsSettleable | app/api/payment/verify/route.ts:104-121 | a new order is already payout-eligible with all items PENDING, and its return window starts at creation |
| SettlementSummary.RowOf | app/api/admin/payouts/route.ts:54-83 | a row's total is price × quantity, with the `||` fallbacks for commission and net |
| SettlementSummary.AmountToPayAtMostNet | app/api/admin/payouts/route.ts:58-67 | with non-negative nets, the amount to pay never exceeds the net of non-refunded rows |
| SettlementSummary.ItemRowsCount | app/api/admin/payouts/route.ts:49-53 | each of the vendor's items in a counted order gets exactly one row |
| SettlementSummary.ItemRowsCountUpTo | app/api/admin/payouts/route.ts:49-53 | the rows of the first n items are as many as the vendor's positions among them |
| SettlementSummary.SumsAppend | app/api/admin/payouts/route.ts:58-67 | one loop step adds a row's contribution to the four running sums |
| SettlementSummary.AddOrderRows | app/api/admin/payouts/route.ts:49-84 | the inner loop appends the rows of one order and keeps the sums equal to their definition |
| SettlementSummary.Summarize | app/api/admin/payouts/route.ts:42-85 | the loop's rows are the vendor's items of the counted orders, in order, and its metrics are the four sums over them with the order count |
| SettlementSummary.SettlementRoute | app/api/admin/payouts/route.ts:18-100 | no vendor id lists the approved vendors; otherwise the counted orders, newest first, give the rows and metrics, with the vendor's name when it exists |
| PayoutsPage.RemoveKey | app/admin/payouts/page.tsx:116 | removes every selected row with the same order and product name and keeps all others |
| PayoutsPage.Toggle | app/admin/payouts/page.tsx:110-121 | an unpayable row leaves the selection alone; a selected row is removed; an unselected row is appended |
| PayoutsPage.RemoveShrinks | app/admin/payouts/page.tsx:116 | removing a present key shrinks the selection |
| PayoutsPage.RemoveAtMost | app/admin/payouts/page.tsx:116 | removing never grows the selection |
| PayoutsPage.ToggleTwiceRestores | app/admin/payouts/page.tsx:110-121 | toggling an unselected row twice restores the selection |
| PayoutsPage.RemoveAppended | app/admin/payouts/page.tsx:113-119 | removing a just-appended unselected key gives back the earlier selection |
| PayoutsPage.ToggleKeepsSelectionValid | app/admin/payouts/page.tsx:110-121 | the selection stays free of duplicate keys and unpayable rows |
| PayoutsPage.RemoveKeepsValid | app/admin/payouts/page.tsx:116 | removing keeps the selection valid |
| PayoutsPage.SelectAddsNet | app/admin/payouts/page.tsx:445 | selecting a row adds its net to the displayed total, and deselecting takes it off again |
| PayoutsPage.SettleRequest | app/admin/payouts/page.tsx:123-138 | an empty reference sends nothing; otherwise one request per selected row with its order id and product name |
| PayoutsPage.CsvFields | app/admin/payouts/page.tsx:160-170 | eight fields matching the headers, the product name quoted and the status last |
| PayoutsPage.CsvLines | app/admin/payouts/page.tsx:161-174 | one comma-joined line per row |
| PayoutsPage.ExportCsv | app/admin/payouts/page.tsx:157-175 | no rows exports nothing; otherwise the header line then one line per row, joined by newlines |
| PayoutsPage.ExportKeepsProductName | app/admin/payouts/page.tsx:163 | a row's line reads back the product name exactly, whatever quotes it contains |
| Csv.EscapeQuotes | app/admin/payouts/page.tsx:163 | every non-quote character survives the escaping, and nothing is dropped |
| Csv.QuoteField | app/admin/payouts/page.tsx:163 | the quoted field starts and ends with a double quote |
| Csv.ReadQuoted | app/admin/payouts/page.tsx:163 | a reader for a quoted field under RFC 4180 section 2 rule 7, always consuming input |
| Csv.ReadEscaped | app/admin/payouts/page.tsx:163 | reading an escaped string then its closing quote gives back the string and the rest |
| Csv.QuotedFieldRoundTrip | app/admin/payouts/page.tsx:163 | any quoted field reads back as the original string |
| Csv.Join | app/admin/payouts/page.tsx:172-175 | joining one field gives it back, and no fields give the empty string |
| VendorPayments.ItemSales | app/api/vendor/payments/route.ts:42-49 | every sale of an order carries that order's id |
| VendorPayments.BucketsPartitionShares | app/api/vendor/payments/route.ts:51-55 | earnings, pending and failed shares add up to all shares, so FAILED shares appear in no bucket |
| VendorPayments.VendorShare | app/api/vendor/payments/route.ts:47-48 | the vendor share is the item total minus the integer nearest to ten percent of it |
| VendorPayments.Earnings | app/api/vendor/payments/route.ts:51-52 | earnings are non-negative for non-negative shares and zero when no item is COMPLETED |
| VendorPayments.Pending | app/api/vendor/payments/route.ts:53-54 | pending payouts are non-negative for non-negative shares and zero when no item is PENDING or BLOCKED |
| VendorPayments.RefundsTotal | app/api/vendor/payments/route.ts:57-58 | the refund total is non-negative for non-negative shares and zero when no item is refunded |
| VendorPayments.SaleId | app/api/vendor/payments/route.ts:63 | "S-" then upper case; 15 characters with a dash at position 10 for ids long enough |
| VendorPayments.EntryTransaction | app/api/vendor/payments/route.ts:77-86 | a ledger entry becomes a payout transaction with the negated amount and the entry's date |
| VendorPayments.VendorEntries | app/api/vendor/payments/route.ts:25-27 | exactly the vendor's ledger entries |
| VendorPayments.MapSales | app/api/vendor/payments/route.ts:62-70 | one transaction per sale, in order |
| VendorPayments.MapEntries | app/api/vendor/payments/route.ts:77-86 | one transaction per ledger entry, in order |
| VendorPayments.Flags | app/api/vendor/payments/route.ts:100-102 | bank details count iff the account number is non-empty, but the block reason looks only at whether details exist |
| VendorPayments.FlagsDisagreeOnEmptyAccount | app/api/vendor/payments/route.ts:100-102 | details saved with an empty account number show no details and no block reason, while the payout engine blocks them as missing |
| VendorPayments.VendorPaymentsRoute | app/api/vendor/payments/route.ts:18-104 | no vendor record is 404; otherwise the buckets over the vendor's sales and a newest-first list that is a permutation of the sales and the latest 50 ledger entries, with available balance 0 |
| Sorting.Insert | app/api/vendor/payments/route.ts:87 | inserting keeps the sequence sorted newest first and adds exactly that element |
| Sorting.SortDesc | app/api/vendor/payments/route.ts:87 | the result is a permutation of the input, sorted by descending key |
| Sorting.TopN | app/api/admin/stats/route.ts:74-76 | the first min(n, size) elements of the sorted input, a sub-multiset of it |
| Sorting.TopNKeepsLargest | app/api/admin/stats/route.ts:74-76 | an element left out has a key no larger than any element kept |
| AdminStats.SoldOf | app/api/admin/stats/route.ts:43-46 | one entry per item of the order, carrying whether the order is payout-eligible |
| AdminStats.IndexOf | app/api/admin/stats/route.ts:50 | finds the vendor's position in the tally; None means it is not there |
| AdminStats.AbsentVendorIsZero | app/api/admin/stats/route.ts:48-61 | a vendor with no items in range has all-zero reference figures |
| AdminStats.OtherVendorKeepsReference | app/api/admin/stats/route.ts:48-61 | another vendor's item does not change a vendor's reference figures |
| AdminStats.SoldVendorsAppend | app/api/admin/stats/route.ts:48-52 | one more item adds its vendor, when it has one, to the vendors seen |
| AdminStats.StepWithoutVendor | app/api/admin/stats/route.ts:48 | an item with no vendor keeps the tally in agreement with the reference |
| AdminStats.StepNewVendor | app/api/admin/stats/route.ts:50-52 | a first item of a vendor adds one entry and keeps agreement |
| AdminStats.StepKnownVendor | app/api/admin/stats/route.ts:53-61 | a later item of a vendor updates its entry and keeps agreement |
| AdminStats.TallyIsReference | app/api/admin/stats/route.ts:48-61 | the per-vendor loop produces one entry per vendor seen, with revenue, commission and pending payout equal to the reference sums over that vendor's items |
| AdminStats.Tally | app/api/admin/stats/route.ts:40-61 | the tally has at most one entry per counted item |
| AdminStats.Named | app/api/admin/stats/route.ts:66-72 | an existing vendor's business name replaces the placeholder, and nothing else changes |
| AdminStats.AdminStatsRoute | app/api/admin/stats/route.ts:29-76 | revenue and commission over in-range orders, counts of the collections, pending vendors, and at most five top vendors sorted by revenue |
| AdminStats.TopVendorsAreReference | app/api/admin/stats/route.ts:48-76 | the top vendors are distinct and each shows its reference revenue, commission and pending payout |
| AdminStats.TopDistinct | app/api/admin/stats/route.ts:74-76 | taking a sub-multiset of a tally with distinct ids keeps the ids distinct |
| AdminStats.TwiceInMultiset | app/api/admin/stats/route.ts:74-76 | an element at two positions occurs at least twice |
| AdminStats.CountAtMostOne | app/api/admin/stats/route.ts:50-52 | in a tally with distinct ids, each entry occurs once |
| ShippingWebhook.MapStatus | app/api/webhooks/shiprocket/route.ts:41-44 | Shipped, Delivered and Cancelled each iff one of their two codes; any other code maps to Processing |
| ShippingWebhook.FindByShipment | app/api/webhooks/shiprocket/route.ts:46-56 | the first order with the courier's order id; None means none has it |
| ShippingWebhook.ApplyShipment | app/api/webhooks/shiprocket/route.ts:46-56 | writes the tracking fields, the raw code, the mapped status and updatedAt, and nothing else |
| ShippingWebhook.ShiprocketWebhook | app/api/webhooks/shiprocket/route.ts:10-68 | a body that is not JSON is 500 before any key check; a missing secret is 500 and a wrong key 401; an unknown order is 404; only success writes, and only that order |
| ShippingWebhook.UnrecognisedCodeRegresses | app/api/webhooks/shiprocket/route.ts:41-44 | an unrecognised code turns the order back to Processing, which payouts do not settle |
| ShippingWebhook.RedeliveryRestartsReturnWindow | app/api/webhooks/shiprocket/route.ts:46-56 | a repeated delivery update restarts the seven-day return window |
| ShippingWebhook.RedeliveryIsIdempotent | app/api/webhooks/shiprocket/route.ts:46-56 | delivering the same update twice is the same as once at the later time |
| Otp.AttemptsSoFar | app/api/otp/verify/route.ts:24 | an unset or zero counter reads as 0 |
| Otp.VerifyOtp | app/api/otp/verify/route.ts:11-49 | 401 without a session email; 400 without a pending code; 429 iff five attempts are used, which clears the code; expiry is refused without counting; a wrong code counts one attempt and reports what is left; 200 iff a live code matches, which verifies the email |
| Otp.FiveMissesLockOut | app/api/otp/verify/route.ts:24-38 | five wrong codes lock the code out: the right code is then refused with 429 and the code is cleared |
| Otp.SuccessKeepsAttempts | app/api/otp/verify/route.ts:40-49 | a success does not reset the attempt counter |
| Otp.ExpiredCodeCountsNothing | app/api/otp/verify/route.ts:30-32 | an expired code is refused and the record is unchanged |
| Whitelist.Pick | app/api/admin/settings/route.ts:39-46 | keeps exactly the allowed keys of the body, with their values |
| Whitelist.PickTwiceIsPickOnce | app/api/vendor/store/route.ts:64-68 | the whitelist is idempotent and never lets a protected key through |
| Whitelist.ParseInteger | models/settings.model.ts:11 | a string of digits with an optional sign reads as that integer; nothing else reads as one |
| Whitelist.CastNumber | models/settings.model.ts:11-14 | the number cast keeps a number, turns a boolean into 1 or 0 and a numeric string into its value, stores `null` for null or "", and fails on anything else |
| Whitelist.CastString | models/settings.model.ts:12-13 | the string cast keeps a string, renders a number or boolean as `String` does, stores `null` for null, and fails on an object |
| Whitelist.DigitsOfNat | models/settings.model.ts:11 | the decimal rendering of a natural number reads back as that number |
| Whitelist.NumberStringRoundTrip | models/settings.model.ts:11-14 | an integer sent as its decimal string is stored as that integer, and a number cast to a string casts back to itself |
| AdminSettings.Assign | app/api/admin/settings/route.ts:52-59 | each of the four fields takes the cast value of the update when present, including a stored `null` for the optional fields, and keeps its old value otherwise |
| AdminSettings.GetSettings | app/api/admin/settings/route.ts:15-19 | shows the stored document, or creates one with the defaults, rate 10 |
| AdminSettings.PatchSettings | app/api/admin/settings/route.ts:39-59 | no allowed field is 400; a value that does not cast, or a rate cast to `null`, is 500 with nothing written; otherwise the cast fields are merged over the stored document or the defaults and saved |
| AdminSettings.PatchIsIdempotent | app/api/admin/settings/route.ts:52-59 | repeating a patch stores the same settings |
| AdminSettings.AnyRateIsStored | app/api/admin/settings/route.ts:39-59 | any number is accepted as the commission rate, and the payout engine then uses it as is |
| AdminSettings.NumericStringRateIsStored | app/api/admin/settings/route.ts:52-59 | a rate sent as a numeric string is saved as that number |
| AdminSettings.NumericPhoneIsText | app/api/admin/settings/route.ts:52-59 | a support phone sent as a number is saved as its digits |
| AdminSettings.NullsInPatch | app/api/admin/settings/route.ts:52-59 | a `null` threshold is saved as `null`; a `null` or empty rate fails the required check with 500 and nothing saved |
| VendorStore.SetFields | app/api/vendor/store/route.ts:64-75 | the whitelisted fields are set; id, status, verification flag and account id are kept |
| VendorStore.UpdateStore | app/api/vendor/store/route.ts:43-75 | no vendor is 404 and no allowed field 400, with nothing written; a value that does not cast fails; otherwise the cast fields are set |
| VendorStore.ProtectedFieldsUnchanged | app/api/vendor/store/route.ts:50-68 | no body can change a vendor's id, status, verification flag or provider account |
| VendorStore.NewDetailsStayVerified | app/api/vendor/store/route.ts:50-75 | new bank details are saved while the vendor stays verified and keeps its old provider account, so payouts go to that account |
| VendorStore.StoredDetails | app/api/vendor/store/route.ts:75 | bank details sent as an object are stored; `null` clears them |
| VendorStore.NumericNameIsText | app/api/vendor/store/route.ts:75 | a business name sent as a number is stored as its decimal text |
| VendorStore.BooleanNameIsText | app/api/vendor/store/route.ts:75 | a business name sent as a boolean is stored as "true" or "false" |
| VendorStore.NullDetailsBlockPayouts | app/api/vendor/store/route.ts:75 | `null` bank details clear them, and the bank check then reports them missing, so the next payout blocks |
| Profile.IsProfileComplete | lib/utils.ts:8-18 | complete iff the user has a first address with non-empty street, city and pincode |
| Profile.OnlyFirstAddressCounts | lib/utils.ts:12-15 | an incomplete first address fails however complete the later ones are |

## Left out

- Signatures: HMAC-SHA256 checks of the payment and webhook signatures are a boolean `signatureMatches` parameter.
- Payment provider and courier: the provider's transfer and account APIs and the courier API are an oracle of answers. The account payload at lib/payout-service.ts:187-207 is not modelled, only its error message at line 212.
- Email: OTP and refund notification emails are not modelled.
- Clock and dates: the clock is `now` in milliseconds. The month bounds that date-fns computes when a query has no dates are the `start` and `end` parameters. The stats route's date parsing is also done by the caller.
- Database behaviour: ObjectId casting, `populate`, connections and the `products._id` matcher (items are addressed by position) are not modelled.
- Database reads: `Order.findById`, `Vendor.findById`, `Settings.findOne` in the routes and the other lookups are assumed to answer; only the settings read of `getCommissionRate` may fail (its own `catch` returns 10).
- Request bodies: the refund decision, mark-paid, payment verification, OTP verification, settings and store routes take an already parsed body. In the program a body that is not JSON, or a JSON `null` that cannot be destructured or indexed, makes `req.json()` or the next line throw inside the route's `try`, and the answer is 500 with nothing written. The calls are at app/api/admin/refunds/route.ts:43, app/api/admin/payouts/mark-paid/route.ts:16, app/api/payment/verify/route.ts:18-24, app/api/otp/verify/route.ts:15, app/api/admin/settings/route.ts:36 and app/api/vendor/store/route.ts:47. Checkout's `for…of` over an absent `items` (line 53) throws the same way.
- Stored refund flags: a store in the model may carry `refunded` set on an item, and the payout skip, the settlement summary, the vendor earnings and the stats read it as the program reads it. With the order schema as declared the program never stores that flag (see "## Findings").
- Database writes: outside `handleVendorPayout`, every write is assumed to succeed. Not modelled:
  - mark-paid's `Payout.create` (app/api/admin/payouts/mark-paid/route.ts:49) throwing after its `findOneAndUpdate`. The item would stay COMPLETED and locked with no ledger entry, the remaining pairs would be skipped and the answer would be 500, with the earlier pairs committed.
  - the payment provider webhook's item update after its ledger update.
  - the refund route's refund save, order save and restock.
  - checkout's `Order.create` and its shipment `findByIdAndUpdate`.
  - the courier webhook's, settings', store profile's and OTP writes.
- Concurrency: `Promise.all` in checkout runs the decrements in input order, one after the other. Concurrent requests are not modelled.
- User count: the stats route's user count is a parameter.
- Floats: only whole-rupee amounts are modelled; the vendor payments route's floating-point `processingFees` figure (app/api/vendor/payments/route.ts:96) is left out.
- Commission.Fee: computes gross × rate / 100 exactly and rounds half-up. The program rounds the double `itemTotal * (commissionRate / 100)` (lib/payout-service.ts:94, app/api/payment/verify/route.ts:87). For rates whose double `rate / 100` lies below the exact value, a product that is exactly a half-rupee tie comes out just below it and rounds down. At rate 29 a ₹50 item gives 14.499999999999998, so the program's fee is 14 where the model's is 15; rate 35 on ₹90 gives 31 against 32; rates 41, 57, 58, 69, 70, 82 and 94 have such ties too. Binary floating point is not modelled, so the model does not promise the program's fee at these ties.
- Commission.ComputeSplit: inherits Fee's exact rounding, so at those ties its fee is one rupee higher and its net one rupee lower than the program's. The same holds for PayoutService.LiveSplit and Checkout.FrozenItem. The read-side fallbacks multiply by `0.1`, whose double lies above one tenth, so their half-up ties agree with the model.
- Object order: JavaScript's `Object.values` ordering of vendor tallies (integer-like keys first) is not modelled. Tallies keep first-seen order before the stable sort.
- Timestamps: the settings document's `updatedAt` and the ledger entries' `updatedAt` are not modelled.
- Undefined reference: the mark-paid route's undefined `transactionReference` is a string parameter.
- Absent webhook fields: an absent webhook entity field is modelled as an absent entity, not as a thrown TypeError per field.
- Vendor lookup: the code dereferences the populated vendor at lib/payout-service.ts:67 before its own `if (!vendor)` check at line 70. So an unresolved vendor throws and is recorded per order by the sweep rather than returning silently. The model follows the code.
- Order creation helpers: the shipping-address defaults and the courier payload (app/api/payment/verify/route.ts:112-152) are not modelled; only which answer fields are stored is.
- VendorPayments.VendorPaymentsRoute: states the transaction list as a sorted permutation of sales and history, not which of two equal-date transactions comes first.
- Sweep.RunAutomation: the production-only authorization is a flag in the request; how the environment is read is not modelled.
- Sessions and roles: every admin and vendor route first answers 401 (or 403) without a session of the right role; the model assumes that check passed. This covers mark-paid, refunds, admin payouts, admin stats, admin settings, vendor payments and vendor store.
- AdminSettings.PatchSettings: the number cast reads only an optional sign and decimal digits; `Number()` also accepts surrounding whitespace, exponents, hexadecimal and fractions, which the model answers with 500.
- VendorStore.UpdateStore: a `null` business name is answered with 500 instead of being stored, because the model's vendor name is a plain string; the vendor schema is not part of this model, so the other profile fields are stored as sent.
- PayoutService.HandleVendorPayout: the provider's account payload and the `Vendor.findById` read are assumed to succeed; every write of the function, the transfer, the account creation and the settings read may fail through the oracle.

## Findings

| source | as written | input that shows it | evidently intended | confidence | as-written member | corrected member |
|---|---|---|---|---|---|---|
| app/api/admin/payouts/mark-paid/route.ts:28-43 | `"products.payoutStatus": { $ne: "COMPLETED" }` on the array matches only when no item of the order is COMPLETED | order o1 with "Bamboo Brush" COMPLETED and "Jute Bag" PENDING; marking "Jute Bag" paid fails with "Item already paid or not found" | match the named item only if that item is not COMPLETED (an `$elemMatch` on name and status) | high, not executed | MarkPaid.SiblingCompletedBlocksManualSettlement, MarkPaid.SiblingCompletedFailsRoute, MarkPaid.MarkOne | MarkPaid.MarkOneElemMatch, MarkPaid.ElemMatchSettlesSiblings |
| app/api/admin/refunds/route.ts:62-66 | `order.products[i].refunded = true` sets a path the line-item schema (models/order.model.ts:46-69) does not declare, so `order.save()` in strict mode drops it and only FAILED and the reason are stored | a Delivered order past its return window with item A COMPLETED (already paid) and item B PENDING; approving a refund of A leaves A FAILED and not refunded, so the next sweep selects the order for B and transfers A's share to A's vendor again | declare `refunded` on the line item so the approval is stored and every later payout skips the item | high, not executed | Refunds.ApprovedItemStaysUnskipped, Refunds.ApprovedItemIsPaidAgain | Refunds.RefundItem, Refunds.ApprovedItemIsSkipped |
