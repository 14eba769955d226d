/** The admin dashboard's platform stats (`GET /api/admin/stats`): revenue
    and commission over the month's orders that are not Cancelled, a
    per-vendor tally kept in first-seen order, and the five vendors with
    the most revenue.

    The tally is defined the way the route builds it, one item at a time;
    `TallyIsReference` proves that each entry holds exactly the sums a
    direct per-vendor definition gives. */
module AdminStats {
  import opened Base
  import opened Model
  import opened Commission
  import opened PayoutService
  import opened Sorting

  const TopVendorCount := 5

  /** The name an entry carries until the vendor lookup fills it in. */
  const PlaceholderName := "Loading..."

  datatype VendorStat = VendorStat(id: VendorId, name: string, revenue: int, commission: int, pendingPayout: int)

  /** One line item of a counted order, with whether that order is
      settleable (Delivered or completed). */
  datatype Sold = Sold(settleable: bool, item: LineItem)

  datatype StatsResponse = Stats(
    users: nat, vendors: nat, products: nat, orders: nat,
    totalRevenue: int, platformCommission: int, pendingVendors: nat, topVendors: seq<VendorStat>)

  /** The order query: not Cancelled and created within [start, end]. */
  predicate OrderInRange(o: Order, start: int, end: int)
  {
    o.status != Cancelled && start <= o.createdAt <= end
  }

  function ItemTotal(it: LineItem): int
  {
    it.price * it.quantity
  }

  /** `commissionAmount || Math.round(total * 0.1)`. */
  function ItemCommission(it: LineItem): int
  {
    ReadSideCommission(it.commissionAmount, ItemTotal(it))
  }

  /** `netAmount || (total - commission)`. */
  function ItemNet(it: LineItem): int
  {
    ReadSideNet(it.netAmount, ItemTotal(it), ItemCommission(it))
  }

  /** Whether the item's net counts toward the vendor's pending payout. */
  predicate CountsToPay(s: Sold)
  {
    s.settleable && s.item.payoutStatus != COMPLETED && !s.item.refunded
  }

  function SoldOf(o: Order): (r: seq<Sold>)
    ensures |r| == |o.products|
    ensures forall k :: 0 <= k < |r| ==> r[k] == Sold(IsSettleable(o.status), o.products[k])
  {
    seq(|o.products|, k requires 0 <= k < |o.products| => Sold(IsSettleable(o.status), o.products[k]))
  }

  /** The items of the counted orders, in store order. */
  function SoldItems(orders: seq<Order>, start: int, end: int): seq<Sold>
  {
    if |orders| == 0 then []
    else
      var last := orders[|orders| - 1];
      SoldItems(orders[..|orders| - 1], start, end) + (if OrderInRange(last, start, end) then SoldOf(last) else [])
  }

  /** `Σ (totalAmount || 0)` over the counted orders. */
  function Revenue(orders: seq<Order>, start: int, end: int): int
  {
    if |orders| == 0 then 0
    else
      var last := orders[|orders| - 1];
      Revenue(orders[..|orders| - 1], start, end) + (if OrderInRange(last, start, end) then last.totalAmount else 0)
  }

  /** Commission of every counted item, refunded or not, with or without a
      vendor. */
  function PlatformCommission(sold: seq<Sold>): int
  {
    if |sold| == 0 then 0 else PlatformCommission(sold[..|sold| - 1]) + ItemCommission(sold[|sold| - 1].item)
  }

  /** The first entry for vendor v. */
  function IndexOf(stats: seq<VendorStat>, v: VendorId): (r: Option<nat>)
    ensures r.Some? ==> r.value < |stats| && stats[r.value].id == v
    ensures r.None? <==> forall j :: 0 <= j < |stats| ==> stats[j].id != v
  {
    if |stats| == 0 then None
    else if stats[0].id == v then Some(0)
    else match IndexOf(stats[1..], v)
      case None => None
      case Some(k) => Some(k + 1)
  }

  /** What one item contributes: nothing without a vendor (an empty id is
      falsy); otherwise its vendor's entry, created with zeros on first
      sight, gains the item's total and commission, and its net when it
      still counts toward the pending payout. */
  function AddSold(stats: seq<VendorStat>, s: Sold): seq<VendorStat>
  {
    var v := s.item.vendor;
    if v == "" then stats
    else
      var pending := if CountsToPay(s) then ItemNet(s.item) else 0;
      match IndexOf(stats, v)
      case None => stats + [VendorStat(v, PlaceholderName, ItemTotal(s.item), ItemCommission(s.item), pending)]
      case Some(k) =>
        stats[k := stats[k].(revenue := stats[k].revenue + ItemTotal(s.item),
                             commission := stats[k].commission + ItemCommission(s.item),
                             pendingPayout := stats[k].pendingPayout + pending)]
  }

  /** The route's loop over the counted items. */
  function Tally(sold: seq<Sold>): (stats: seq<VendorStat>)
    ensures |stats| <= |sold|
  {
    if |sold| == 0 then [] else AddSold(Tally(sold[..|sold| - 1]), sold[|sold| - 1])
  }

  /** The reference definition: vendor v's sums taken directly over the items. */
  function Reference(sold: seq<Sold>, v: VendorId): VendorStat
  {
    if |sold| == 0 then VendorStat(v, PlaceholderName, 0, 0, 0)
    else
      var r := Reference(sold[..|sold| - 1], v);
      var s := sold[|sold| - 1];
      if s.item.vendor != v then r
      else r.(revenue := r.revenue + ItemTotal(s.item),
              commission := r.commission + ItemCommission(s.item),
              pendingPayout := r.pendingPayout + (if CountsToPay(s) then ItemNet(s.item) else 0))
  }

  function Ids(stats: seq<VendorStat>): set<VendorId>
  {
    set k | 0 <= k < |stats| :: stats[k].id
  }

  /** The vendors of the items that have one. */
  function SoldVendors(sold: seq<Sold>): set<VendorId>
  {
    set k | 0 <= k < |sold| && sold[k].item.vendor != "" :: sold[k].item.vendor
  }

  predicate DistinctIds(stats: seq<VendorStat>)
  {
    forall i, j :: 0 <= i < j < |stats| ==> stats[i].id != stats[j].id
  }

  /** A vendor with no item among `sold` has an all-zero reference entry. */
  lemma {:induction false} AbsentVendorIsZero(sold: seq<Sold>, v: VendorId)
    requires forall k :: 0 <= k < |sold| ==> sold[k].item.vendor != v
    ensures Reference(sold, v) == VendorStat(v, PlaceholderName, 0, 0, 0)
    decreases |sold|
  {
    if |sold| > 0 {
      AbsentVendorIsZero(sold[..|sold| - 1], v);
    }
  }

  /** Appending an item of another vendor leaves v's reference entry alone. */
  lemma OtherVendorKeepsReference(sold: seq<Sold>, s: Sold, v: VendorId)
    requires s.item.vendor != v
    ensures Reference(sold + [s], v) == Reference(sold, v)
  {
    assert (sold + [s])[..|sold|] == sold;
  }

  lemma SoldVendorsAppend(sold: seq<Sold>, s: Sold)
    ensures SoldVendors(sold + [s]) == SoldVendors(sold) + (if s.item.vendor != "" then {s.item.vendor} else {})
  {
    var all := sold + [s];
    forall v | v in SoldVendors(all) ensures v in SoldVendors(sold) || (s.item.vendor != "" && v == s.item.vendor) {
      var k :| 0 <= k < |all| && all[k].item.vendor != "" && all[k].item.vendor == v;
      if k < |sold| {
        assert all[k] == sold[k];
      }
    }
    forall v | v in SoldVendors(sold) ensures v in SoldVendors(all) {
      var k :| 0 <= k < |sold| && sold[k].item.vendor != "" && sold[k].item.vendor == v;
      assert all[k] == sold[k];
    }
    if s.item.vendor != "" {
      assert all[|sold|] == s;
    }
  }

  /** The tally agrees with the reference over `sold`: no vendor twice,
      exactly the vendors seen, and each entry holding its vendor's sums. */
  predicate Agrees(stats: seq<VendorStat>, sold: seq<Sold>)
  {
    && DistinctIds(stats)
    && Ids(stats) == SoldVendors(sold)
    && forall k :: 0 <= k < |stats| ==> stats[k] == Reference(sold, stats[k].id)
  }

  lemma StepWithoutVendor(prev: seq<VendorStat>, p: seq<Sold>, s: Sold)
    requires Agrees(prev, p)
    requires s.item.vendor == ""
    ensures Agrees(AddSold(prev, s), p + [s])
  {
    SoldVendorsAppend(p, s);
    var t := AddSold(prev, s);
    forall k | 0 <= k < |t| ensures t[k] == Reference(p + [s], t[k].id) {
      assert t[k].id in Ids(prev);
      OtherVendorKeepsReference(p, s, t[k].id);
    }
  }

  lemma StepNewVendor(prev: seq<VendorStat>, p: seq<Sold>, s: Sold)
    requires Agrees(prev, p)
    requires s.item.vendor != "" && IndexOf(prev, s.item.vendor).None?
    ensures Agrees(AddSold(prev, s), p + [s])
  {
    var v := s.item.vendor;
    SoldVendorsAppend(p, s);
    var t := AddSold(prev, s);
    assert v !in Ids(prev);
    assert forall k :: 0 <= k < |p| ==> p[k].item.vendor != v;
    AbsentVendorIsZero(p, v);
    assert (p + [s])[..|p|] == p;
    forall k | 0 <= k < |t| ensures t[k] == Reference(p + [s], t[k].id) {
      if k < |prev| {
        OtherVendorKeepsReference(p, s, t[k].id);
      }
    }
    assert Ids(t) == Ids(prev) + {v} by {
      forall x | x in Ids(t) ensures x in Ids(prev) + {v} {
        var k :| 0 <= k < |t| && t[k].id == x;
        if k < |prev| {
          assert t[k] == prev[k];
        }
      }
      forall x | x in Ids(prev) ensures x in Ids(t) {
        var k :| 0 <= k < |prev| && prev[k].id == x;
        assert t[k] == prev[k];
      }
      assert t[|prev|].id == v;
    }
  }

  lemma StepKnownVendor(prev: seq<VendorStat>, p: seq<Sold>, s: Sold)
    requires Agrees(prev, p)
    requires s.item.vendor != "" && IndexOf(prev, s.item.vendor).Some?
    ensures Agrees(AddSold(prev, s), p + [s])
  {
    var v := s.item.vendor;
    var i := IndexOf(prev, v).value;
    SoldVendorsAppend(p, s);
    var t := AddSold(prev, s);
    assert (p + [s])[..|p|] == p;
    forall k | 0 <= k < |t| ensures t[k] == Reference(p + [s], t[k].id) {
      if k != i {
        OtherVendorKeepsReference(p, s, t[k].id);
      }
    }
    assert Ids(t) == Ids(prev) by {
      forall x | x in Ids(t) ensures x in Ids(prev) {
        var k :| 0 <= k < |t| && t[k].id == x;
        assert t[k].id == prev[k].id;
      }
      forall x | x in Ids(prev) ensures x in Ids(t) {
        var k :| 0 <= k < |prev| && prev[k].id == x;
        assert t[k].id == prev[k].id;
      }
    }
  }

  /** The tally is the reference: one entry per vendor seen, no vendor twice,
      and each entry's revenue, commission and pending payout are exactly
      that vendor's sums over the items. */
  lemma {:induction false} TallyIsReference(sold: seq<Sold>)
    ensures Agrees(Tally(sold), sold)
    decreases |sold|
  {
    if |sold| > 0 {
      var p := sold[..|sold| - 1];
      var s := sold[|sold| - 1];
      assert sold == p + [s];
      TallyIsReference(p);
      var prev := Tally(p);
      if s.item.vendor == "" {
        StepWithoutVendor(prev, p, s);
      } else if IndexOf(prev, s.item.vendor).None? {
        StepNewVendor(prev, p, s);
      } else {
        StepKnownVendor(prev, p, s);
      }
    }
  }

  /** Entries after the vendor lookup: a vendor that still exists gets its
      business name; one that does not keeps the placeholder. */
  function Named(stats: seq<VendorStat>, vendors: map<VendorId, Vendor>): (r: seq<VendorStat>)
    ensures |r| == |stats|
    ensures forall k :: 0 <= k < |r| ==>
      r[k] == stats[k].(name := if stats[k].id in vendors then vendors[stats[k].id].businessName else stats[k].name)
  {
    if |stats| == 0 then []
    else
      var last := stats[|stats| - 1];
      Named(stats[..|stats| - 1], vendors)
        + [last.(name := if last.id in vendors then vendors[last.id].businessName else last.name)]
  }

  function StatRevenue(s: VendorStat): int
  {
    s.revenue
  }

  function TopVendors(st: Store, start: int, end: int): seq<VendorStat>
  {
    TopN(Named(Tally(SoldItems(st.orders, start, end)), st.vendors), TopVendorCount, StatRevenue)
  }

  /** The route, for the month [start, end] the clock gives; the user count
      comes from a collection this model does not hold. */
  function AdminStatsRoute(st: Store, users: nat, start: int, end: int): (r: StatsResponse)
    ensures r.totalRevenue == Revenue(st.orders, start, end)
    ensures r.platformCommission == PlatformCommission(SoldItems(st.orders, start, end))
    ensures r.vendors == |st.vendors| && r.products == |st.products| && r.orders == |st.orders| && r.users == users
    ensures r.pendingVendors == |set id | id in st.vendors && st.vendors[id].status == "pending"|
    ensures |r.topVendors| <= TopVendorCount
    ensures SortedDesc(r.topVendors, StatRevenue)
    ensures r.topVendors == TopVendors(st, start, end)
  {
    var sold := SoldItems(st.orders, start, end);
    Stats(users, |st.vendors|, |st.products|, |st.orders|, Revenue(st.orders, start, end),
          PlatformCommission(sold), |set id | id in st.vendors && st.vendors[id].status == "pending"|,
          TopVendors(st, start, end))
  }

  /** Each of the top vendors is a distinct vendor of the month's items, and
      its revenue, commission and pending payout are that vendor's sums. */
  lemma TopVendorsAreReference(st: Store, start: int, end: int)
    ensures DistinctIds(TopVendors(st, start, end))
    ensures forall k :: 0 <= k < |TopVendors(st, start, end)| ==>
      var sold := SoldItems(st.orders, start, end);
      var top := TopVendors(st, start, end);
      var ref := Reference(sold, top[k].id);
      && top[k].id in SoldVendors(sold)
      && top[k].revenue == ref.revenue
      && top[k].commission == ref.commission
      && top[k].pendingPayout == ref.pendingPayout
  {
    var sold := SoldItems(st.orders, start, end);
    var tally := Tally(sold);
    var stats := Named(tally, st.vendors);
    var top := TopVendors(st, start, end);
    TallyIsReference(sold);
    assert DistinctIds(stats) by {
      forall i, j | 0 <= i < j < |stats| ensures stats[i].id != stats[j].id {
        assert stats[i].id == tally[i].id && stats[j].id == tally[j].id;
      }
    }
    forall k | 0 <= k < |top|
      ensures top[k] in stats
    {
      assert top[k] in multiset(top);
    }
    forall k | 0 <= k < |top|
      ensures top[k].id in SoldVendors(sold)
      ensures top[k].revenue == Reference(sold, top[k].id).revenue
      ensures top[k].commission == Reference(sold, top[k].id).commission
      ensures top[k].pendingPayout == Reference(sold, top[k].id).pendingPayout
    {
      var a :| 0 <= a < |stats| && stats[a] == top[k];
      assert tally[a].id in Ids(tally);
    }
    forall i, j | 0 <= i < j < |top| ensures top[i].id != top[j].id {
      TopDistinct(stats, top, i, j);
    }
  }

  /** Two positions of a sub-multiset of a list without repeated ids hold
      different ids. */
  lemma TopDistinct(stats: seq<VendorStat>, top: seq<VendorStat>, i: nat, j: nat)
    requires DistinctIds(stats)
    requires multiset(top) <= multiset(stats)
    requires i < j < |top|
    ensures top[i].id != top[j].id
  {
    if top[i].id == top[j].id {
      TwiceInMultiset(top, i, j);
      assert top[i] in multiset(top) && top[j] in multiset(top);
      var a :| 0 <= a < |stats| && stats[a] == top[i];
      CountAtMostOne(stats, a);
      assert false;
    }
  }

  lemma TwiceInMultiset(s: seq<VendorStat>, i: nat, j: nat)
    requires i < j < |s|
    ensures s[i] == s[j] ==> multiset(s)[s[i]] >= 2
  {
    assert s == s[..i] + [s[i]] + s[i + 1..j] + [s[j]] + s[j + 1..];
  }

  /** With no repeated ids, an entry occurs at most once. */
  lemma {:induction false} CountAtMostOne(stats: seq<VendorStat>, a: nat)
    requires DistinctIds(stats)
    requires a < |stats|
    ensures multiset(stats)[stats[a]] <= 1
    decreases |stats|
  {
    var x := stats[a];
    var n := |stats| - 1;
    assert stats == stats[..n] + [stats[n]];
    if a == n {
      assert x !in stats[..n] by {
        forall k | 0 <= k < n ensures stats[..n][k] != x {
          assert stats[k].id != stats[n].id;
        }
      }
    } else {
      CountAtMostOne(stats[..n], a);
      assert stats[n].id != x.id;
    }
  }
}
