/** The payout sweep behind the cron endpoint: select the candidate orders,
    then run the automatic payout on each, recording per order whether it
    succeeded or threw, without letting one order's error stop the rest. */
module Sweep {
  import opened Base
  import opened Model
  import opened PayoutService

  /** An item the candidate query looks for. */
  predicate Unsettled(it: LineItem)
  {
    it.payoutStatus == PENDING || it.payoutStatus == BLOCKED
  }

  /** The candidate query: a settleable status and at least one PENDING or
      BLOCKED item (array semantics: any element matches). */
  predicate IsCandidate(o: Order)
    ensures IsCandidate(o) ==> (o.status == Delivered || o.status == completed) && |o.products| > 0
    ensures (forall k :: 0 <= k < |o.products| ==> o.products[k].payoutStatus == COMPLETED || o.products[k].payoutStatus == FAILED)
            ==> !IsCandidate(o)
  {
    IsSettleable(o.status) && exists k :: 0 <= k < |o.products| && Unsettled(o.products[k])
  }

  /** Positions, from `from` on, of the candidate orders, in store order. */
  function CandidateIndices(orders: seq<Order>, from: nat): (idx: seq<nat>)
    requires from <= |orders|
    ensures forall k :: 0 <= k < |idx| ==> from <= idx[k] < |orders| && IsCandidate(orders[idx[k]])
    ensures forall j :: from <= j < |orders| && IsCandidate(orders[j]) ==> j in idx
    ensures forall a, b :: 0 <= a < b < |idx| ==> idx[a] < idx[b]
    decreases |orders| - from
  {
    if from == |orders| then []
    else if IsCandidate(orders[from]) then [from] + CandidateIndices(orders, from + 1)
    else CandidateIndices(orders, from + 1)
  }

  function IdsAt(orders: seq<Order>, idx: seq<nat>): (ids: seq<OrderId>)
    requires forall k :: 0 <= k < |idx| ==> idx[k] < |orders|
    ensures |ids| == |idx| && forall k :: 0 <= k < |idx| ==> ids[k] == orders[idx[k]].id
  {
    if |idx| == 0 then [] else [orders[idx[0]].id] + IdsAt(orders, idx[1..])
  }

  /** The ids the sweep will process, in store order. */
  function Candidates(orders: seq<Order>): (ids: seq<OrderId>)
    ensures forall k :: 0 <= k < |ids| ==> exists j :: 0 <= j < |orders| && IsCandidate(orders[j]) && orders[j].id == ids[k]
    ensures forall j :: 0 <= j < |orders| && IsCandidate(orders[j]) ==> orders[j].id in ids
  {
    IdsAt(orders, CandidateIndices(orders, 0))
  }

  /** One entry of the report: the order, and the error it threw if any. */
  datatype Detail = Detail(orderId: OrderId, error: Option<string>)

  datatype SweepRun = SweepRun(store: Store, sent: seq<Transfer>, details: seq<Detail>)

  /** The best-effort loop: every id is processed on the store the previous
      one left, and its error, if any, is recorded instead of propagated. */
  function RunSweep(st: Store, ids: seq<OrderId>, now: int, oracle: Oracle): (r: SweepRun)
    ensures |r.details| == |ids|
    ensures forall k :: 0 <= k < |ids| ==> r.details[k].orderId == ids[k]
    ensures KeepsSettled(st, r.store)
    ensures SentOnlyUnsettled(st, r.sent)
    decreases |ids|
  {
    if |ids| == 0 then SweepRun(st, [], [])
    else
      var o := ProcessOrderPayouts(st, ids[0], now, oracle);
      var rest := RunSweep(o.store, ids[1..], now, oracle);
      KeepsSettledTransitive(st, o.store, rest.store);
      SentOnlyUnsettledBackwards(st, o.store, rest.sent);
      SweepRun(rest.store, o.sent + rest.sent, [Detail(ids[0], o.thrown)] + rest.details)
  }

  /** The automatic payout of one order, as the step the sweep repeats. */
  function PayoutStep(now: int, oracle: Oracle): (Store, OrderId) -> Outcome
  {
    (s: Store, id: OrderId) => ProcessOrderPayouts(s, id, now, oracle)
  }

  /** The sweep as the route's `for` loop runs it: after the first k ids,
      the store, the transfers so far and one detail per processed id.  Each
      id runs on the store the previous one left, whatever it threw. */
  function SweepPrefix(step: (Store, OrderId) -> Outcome, st: Store, ids: seq<OrderId>, k: nat): (r: SweepRun)
    requires k <= |ids|
    ensures |r.details| == k
    decreases k
  {
    if k == 0 then SweepRun(st, [], [])
    else
      var p := SweepPrefix(step, st, ids, k - 1);
      var o := step(p.store, ids[k - 1]);
      SweepRun(o.store, p.sent + o.sent, p.details + [Detail(ids[k - 1], o.thrown)])
  }

  /** Running the first id, then the loop over the rest from the store it
      leaves, is the loop over all ids. */
  lemma {:induction false} SweepPrefixShift(step: (Store, OrderId) -> Outcome, st: Store, ids: seq<OrderId>, k: nat)
    requires 1 <= k <= |ids|
    ensures var o := step(st, ids[0]);
            var p := SweepPrefix(step, o.store, ids[1..], k - 1);
            SweepPrefix(step, st, ids, k) == SweepRun(p.store, o.sent + p.sent, [Detail(ids[0], o.thrown)] + p.details)
    decreases k
  {
    var o := step(st, ids[0]);
    if k == 1 {
      assert SweepPrefix(step, o.store, ids[1..], 0) == SweepRun(o.store, [], []);
      assert [] + o.sent == o.sent + [];
      assert [] + [Detail(ids[0], o.thrown)] == [Detail(ids[0], o.thrown)] + [];
    } else {
      SweepPrefixShift(step, st, ids, k - 1);
      var p := SweepPrefix(step, o.store, ids[1..], k - 2);
      var q := step(p.store, ids[k - 1]);
      assert ids[1..][k - 2] == ids[k - 1];
      assert SweepPrefix(step, o.store, ids[1..], k - 1)
          == SweepRun(q.store, p.sent + q.sent, p.details + [Detail(ids[k - 1], q.thrown)]);
      assert o.sent + p.sent + q.sent == o.sent + (p.sent + q.sent);
      assert [Detail(ids[0], o.thrown)] + p.details + [Detail(ids[k - 1], q.thrown)]
          == [Detail(ids[0], o.thrown)] + (p.details + [Detail(ids[k - 1], q.thrown)]);
    }
  }

  /** The recursive sweep is the route's loop over all ids. */
  lemma {:induction false} RunSweepIsLoop(st: Store, ids: seq<OrderId>, now: int, oracle: Oracle)
    ensures RunSweep(st, ids, now, oracle) == SweepPrefix(PayoutStep(now, oracle), st, ids, |ids|)
    decreases |ids|
  {
    if |ids| > 0 {
      var o := ProcessOrderPayouts(st, ids[0], now, oracle);
      var rest := RunSweep(o.store, ids[1..], now, oracle);
      RunSweepIsLoop(o.store, ids[1..], now, oracle);
      SweepPrefixCons(PayoutStep(now, oracle), st, ids, o, rest);
    }
  }

  /** `SweepPrefixShift` for the whole list, with the first outcome and the
      rest of the loop given by name. */
  lemma SweepPrefixCons(step: (Store, OrderId) -> Outcome, st: Store, ids: seq<OrderId>, o: Outcome, rest: SweepRun)
    requires |ids| > 0 && o == step(st, ids[0]) && rest == SweepPrefix(step, o.store, ids[1..], |ids| - 1)
    ensures SweepPrefix(step, st, ids, |ids|) == SweepRun(rest.store, o.sent + rest.sent, [Detail(ids[0], o.thrown)] + rest.details)
  {
    SweepPrefixShift(step, st, ids, |ids|);
  }

  /** A longer loop extends a shorter one's details. */
  lemma {:induction false} SweepPrefixDetails(step: (Store, OrderId) -> Outcome, st: Store, ids: seq<OrderId>, j: nat, k: nat)
    requires j < k <= |ids|
    ensures SweepPrefix(step, st, ids, k).details[j] == Detail(ids[j], step(SweepPrefix(step, st, ids, j).store, ids[j]).thrown)
    decreases k
  {
    if j < k - 1 {
      SweepPrefixDetails(step, st, ids, j, k - 1);
    }
  }

  /** Every id is processed and its own error recorded: the k-th detail is
      what the automatic payout of the k-th id threw, run on the store the
      earlier ids left, and the sweep ends on the store the last one left. */
  lemma SweepRecordsEveryError(st: Store, ids: seq<OrderId>, now: int, oracle: Oracle)
    ensures var r := RunSweep(st, ids, now, oracle);
            var run := SweepPrefix(PayoutStep(now, oracle), st, ids, |ids|);
            && r.store == run.store && r.sent == run.sent
            && forall k :: 0 <= k < |ids| ==>
                 var before := SweepPrefix(PayoutStep(now, oracle), st, ids, k).store;
                 r.details[k] == Detail(ids[k], ProcessOrderPayouts(before, ids[k], now, oracle).thrown)
  {
    RunSweepIsLoop(st, ids, now, oracle);
    forall k | 0 <= k < |ids|
      ensures var before := SweepPrefix(PayoutStep(now, oracle), st, ids, k).store;
              RunSweep(st, ids, now, oracle).details[k] == Detail(ids[k], ProcessOrderPayouts(before, ids[k], now, oracle).thrown)
    {
      SweepPrefixDetails(PayoutStep(now, oracle), st, ids, k, |ids|);
    }
  }

  /** The cron request: its Authorization header and the environment. */
  datatype CronRequest = CronRequest(authorization: Option<string>, cronSecret: Option<string>, production: bool)

  datatype SweepResponse = Unauthorized401 | Report(processedCount: nat, details: seq<Detail>)

  datatype SweepResult = SweepResult(store: Store, sent: seq<Transfer>, response: SweepResponse)

  /** The template string `Bearer ${process.env.CRON_SECRET}`; an unset
      secret prints as "undefined". */
  function ExpectedAuthorization(secret: Option<string>): (h: string)
    ensures secret.Some? ==> h == "Bearer " + secret.value && h[7..] == secret.value
    ensures secret.None? ==> h == "Bearer undefined"
  {
    "Bearer " + (if secret.Some? then secret.value else "undefined")
  }

  /** The header check applies in production only. */
  predicate Authorized(req: CronRequest)
    ensures !req.production ==> Authorized(req)
    ensures req.production && req.authorization.None? ==> !Authorized(req)
    ensures req.production && req.cronSecret.None? ==> (Authorized(req) <==> req.authorization == Some("Bearer undefined"))
  {
    !req.production || req.authorization == Some(ExpectedAuthorization(req.cronSecret))
  }

  /** `GET /api/admin/payouts/automate`. */
  function RunAutomation(req: CronRequest, st: Store, now: int, oracle: Oracle): (r: SweepResult)
    ensures !Authorized(req) ==> r == SweepResult(st, [], Unauthorized401)
    ensures !req.production ==> r.response.Report?
    ensures r.response.Report? ==>
      && r.response.processedCount == |Candidates(st.orders)|
      && |r.response.details| == |Candidates(st.orders)|
      && forall k :: 0 <= k < |Candidates(st.orders)| ==> r.response.details[k].orderId == Candidates(st.orders)[k]
    ensures KeepsSettled(st, r.store)
    ensures SentOnlyUnsettled(st, r.sent)
  {
    if !Authorized(req) then SweepResult(st, [], Unauthorized401)
    else
      var ids := Candidates(st.orders);
      var run := RunSweep(st, ids, now, oracle);
      SweepResult(run.store, run.sent, Report(|ids|, run.details))
  }

  /** A sweep over a store holding a single candidate order is one run of
      the automatic payout on that order, reported as one detail. */
  lemma {:induction false} SweepOfOneOrder(req: CronRequest, st: Store, now: int, oracle: Oracle)
    requires Authorized(req)
    requires |st.orders| == 1 && IsCandidate(st.orders[0])
    ensures var p := ProcessOrderPayouts(st, st.orders[0].id, now, oracle);
            RunAutomation(req, st, now, oracle) == SweepResult(p.store, p.sent, Report(1, [Detail(st.orders[0].id, p.thrown)]))
  {
    assert CandidateIndices(st.orders, 1) == [];
    assert CandidateIndices(st.orders, 0) == [0];
    assert Candidates(st.orders) == [st.orders[0].id];
    var p := ProcessOrderPayouts(st, st.orders[0].id, now, oracle);
    assert RunSweep(p.store, [], now, oracle) == SweepRun(p.store, [], []);
    assert RunSweep(st, [st.orders[0].id], now, oracle) == SweepRun(p.store, p.sent, [Detail(st.orders[0].id, p.thrown)]);
  }

  /** An order whose items are all FAILED or COMPLETED is never picked up,
      even though the automatic payout would retry its FAILED items. */
  lemma FailedOnlyOrdersAreNotCandidates(o: Order)
    requires forall k :: 0 <= k < |o.products| ==> o.products[k].payoutStatus in {FAILED, COMPLETED}
    ensures !IsCandidate(o)
  {
  }

  /** Re-running the sweep never pays an item again that the first run
      settled (or that was settled before it): every transfer of the second
      run is for an item that neither store had COMPLETED or refunded. */
  lemma RerunNeverPaysSettledItems(req: CronRequest, st: Store, now1: int, now2: int, o1: Oracle, o2: Oracle)
    ensures var r1 := RunAutomation(req, st, now1, o1);
            var r2 := RunAutomation(req, r1.store, now2, o2);
            forall t :: t in r2.sent ==>
              && ValidItemPos(st, t.orderIndex, t.itemIndex)
              && !Skipped(r1.store.orders[t.orderIndex].products[t.itemIndex])
              && !Skipped(st.orders[t.orderIndex].products[t.itemIndex])
  {
    var r1 := RunAutomation(req, st, now1, o1);
    var r2 := RunAutomation(req, r1.store, now2, o2);
    SentOnlyUnsettledBackwards(st, r1.store, r2.sent);
  }

  /** The cron route processes every candidate in store order, each on the
      store the earlier ones left, and reports what each one threw. */
  lemma AutomationProcessesEveryCandidate(req: CronRequest, st: Store, now: int, oracle: Oracle)
    ensures var r := RunAutomation(req, st, now, oracle);
            var ids := Candidates(st.orders);
            Authorized(req) ==>
              && r.store == SweepPrefix(PayoutStep(now, oracle), st, ids, |ids|).store
              && r.response.Report?
              && forall k :: 0 <= k < |ids| ==>
                   var before := SweepPrefix(PayoutStep(now, oracle), st, ids, k).store;
                   r.response.details[k].error == ProcessOrderPayouts(before, ids[k], now, oracle).thrown
  {
    var ids := Candidates(st.orders);
    if Authorized(req) {
      var run := RunSweep(st, ids, now, oracle);
      assert RunAutomation(req, st, now, oracle) == SweepResult(run.store, run.sent, Report(|ids|, run.details));
      SweepRecordsEveryError(st, ids, now, oracle);
    }
  }
}
