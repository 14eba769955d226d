/** The admin payout page's client logic: which rows may be selected, the
    selection toggle keyed on (order id, product name), the total shown
    before settling, the guard on the transaction reference, and the CSV
    export of the summary rows. */
module PayoutsPage {
  import opened Base
  import opened Model
  import opened Csv
  import opened SettlementSummary
  import opened MarkPaid

  const CsvHeaders := ["Order ID", "Product", "Price", "Qty", "Gross", "Commission", "Net Payable", "Status"]

  /** A row can be paid by hand: not locked, not refunded, not COMPLETED. */
  predicate IsPayable(r: PayoutRow)
  {
    !r.isLocked && !r.isRefunded && r.status != COMPLETED
  }

  predicate SameKey(a: PayoutRow, b: PayoutRow)
  {
    a.orderId == b.orderId && a.productName == b.productName
  }

  predicate HasKey(sel: seq<PayoutRow>, x: PayoutRow)
  {
    exists k :: 0 <= k < |sel| && SameKey(sel[k], x)
  }

  /** `prev.filter(p => !(same key))`. */
  function RemoveKey(sel: seq<PayoutRow>, x: PayoutRow): (r: seq<PayoutRow>)
    ensures !HasKey(r, x)
    ensures forall k :: 0 <= k < |r| ==> r[k] in sel
    ensures forall k :: 0 <= k < |sel| && !SameKey(sel[k], x) ==> sel[k] in r
    ensures !HasKey(sel, x) ==> r == sel
  {
    if |sel| == 0 then []
    else
      var rest := RemoveKey(sel[1..], x);
      if SameKey(sel[0], x) then rest else [sel[0]] + rest
  }

  /** `toggleItemSelection`: a row that is not payable leaves the selection
      alone; otherwise rows with its key are removed if there are any, and
      the row is appended if there are none. */
  function Toggle(sel: seq<PayoutRow>, x: PayoutRow): (r: seq<PayoutRow>)
    ensures !IsPayable(x) ==> r == sel
    ensures IsPayable(x) && HasKey(sel, x) ==> !HasKey(r, x) && |r| < |sel|
    ensures IsPayable(x) && !HasKey(sel, x) ==> r == sel + [x]
  {
    if !IsPayable(x) then sel
    else if HasKey(sel, x) then
      var r := RemoveKey(sel, x);
      assert |r| < |sel| by { RemoveShrinks(sel, x); }
      r
    else sel + [x]
  }

  lemma {:induction false} RemoveShrinks(sel: seq<PayoutRow>, x: PayoutRow)
    requires HasKey(sel, x)
    ensures |RemoveKey(sel, x)| < |sel|
    decreases |sel|
  {
    if !SameKey(sel[0], x) {
      var k :| 0 <= k < |sel| && SameKey(sel[k], x);
      assert SameKey(sel[1..][k - 1], x);
      RemoveShrinks(sel[1..], x);
    } else {
      RemoveAtMost(sel[1..], x);
    }
  }

  lemma {:induction false} RemoveAtMost(sel: seq<PayoutRow>, x: PayoutRow)
    ensures |RemoveKey(sel, x)| <= |sel|
    decreases |sel|
  {
    if |sel| > 0 {
      RemoveAtMost(sel[1..], x);
    }
  }

  /** Toggling a payable row that is not selected, and then toggling it
      again, gives back the selection. */
  lemma ToggleTwiceRestores(sel: seq<PayoutRow>, x: PayoutRow)
    requires !HasKey(sel, x)
    ensures Toggle(Toggle(sel, x), x) == sel
  {
    if IsPayable(x) {
      assert HasKey(sel + [x], x) by {
        assert SameKey((sel + [x])[|sel|], x);
      }
      RemoveAppended(sel, x);
    }
  }

  lemma {:induction false} RemoveAppended(sel: seq<PayoutRow>, x: PayoutRow)
    requires !HasKey(sel, x)
    ensures RemoveKey(sel + [x], x) == sel
    decreases |sel|
  {
    if |sel| == 0 {
      assert RemoveKey([x], x) == RemoveKey([], x);
    } else {
      assert (sel + [x])[1..] == sel[1..] + [x];
      assert !HasKey(sel[1..], x) by {
        forall k | 0 <= k < |sel[1..]| ensures !SameKey(sel[1..][k], x) {
          assert sel[1..][k] == sel[k + 1];
        }
      }
      RemoveAppended(sel[1..], x);
      assert !SameKey(sel[0], x);
    }
  }

  /** The selection only ever holds payable rows, one per key. */
  predicate ValidSelection(sel: seq<PayoutRow>)
  {
    && (forall k :: 0 <= k < |sel| ==> IsPayable(sel[k]))
    && (forall i, j :: 0 <= i < j < |sel| ==> !SameKey(sel[i], sel[j]))
  }

  lemma ToggleKeepsSelectionValid(sel: seq<PayoutRow>, x: PayoutRow)
    requires ValidSelection(sel)
    ensures ValidSelection(Toggle(sel, x))
  {
    if IsPayable(x) && HasKey(sel, x) {
      RemoveKeepsValid(sel, x);
    }
  }

  lemma {:induction false} RemoveKeepsValid(sel: seq<PayoutRow>, x: PayoutRow)
    requires ValidSelection(sel)
    ensures ValidSelection(RemoveKey(sel, x))
    decreases |sel|
  {
    if |sel| > 0 {
      assert ValidSelection(sel[1..]) by {
        forall i, j | 0 <= i < j < |sel[1..]| ensures !SameKey(sel[1..][i], sel[1..][j]) {
          assert sel[1..][i] == sel[i + 1] && sel[1..][j] == sel[j + 1];
        }
      }
      RemoveKeepsValid(sel[1..], x);
      var rest := RemoveKey(sel[1..], x);
      if !SameKey(sel[0], x) {
        var r := [sel[0]] + rest;
        forall i, j | 0 <= i < j < |r| ensures !SameKey(r[i], r[j]) {
          if i == 0 {
            assert r[j] in sel[1..];
          }
        }
      }
    }
  }

  /** The modal's total: `selected.reduce((acc, r) => acc + r.net, 0)`. */
  function SelectedTotal(sel: seq<PayoutRow>): int
  {
    if |sel| == 0 then 0 else SelectedTotal(sel[..|sel| - 1]) + sel[|sel| - 1].net
  }

  /** Selecting a new payable row adds its net to the total, and toggling
      it off again takes it away. */
  lemma SelectAddsNet(sel: seq<PayoutRow>, x: PayoutRow)
    requires IsPayable(x) && !HasKey(sel, x)
    ensures SelectedTotal(Toggle(sel, x)) == SelectedTotal(sel) + x.net
    ensures SelectedTotal(Toggle(Toggle(sel, x), x)) == SelectedTotal(sel)
  {
    assert (sel + [x])[..|sel|] == sel;
    ToggleTwiceRestores(sel, x);
  }

  /** `handleMarkAsPaid`: nothing is sent without a reference; otherwise
      the selection goes to the settle route keyed by order id and name. */
  function SettleRequest(sel: seq<PayoutRow>, reference: string): (r: Option<seq<MarkRequest>>)
    ensures r.None? <==> reference == ""
    ensures r.Some? ==> |r.value| == |sel|
    ensures r.Some? ==> forall k :: 0 <= k < |sel| ==> r.value[k] == MarkRequest(sel[k].orderId, sel[k].productName)
  {
    if reference == "" then None
    else Some(seq(|sel|, k requires 0 <= k < |sel| => MarkRequest(sel[k].orderId, sel[k].productName)))
  }

  function StatusText(s: PayoutStatus): string
  {
    match s
    case PENDING => "PENDING"
    case BLOCKED => "BLOCKED"
    case COMPLETED => "COMPLETED"
    case FAILED => "FAILED"
  }

  /** The eight fields of a row; only the product name is quoted. */
  function CsvFields(r: PayoutRow): (f: seq<string>)
    ensures |f| == |CsvHeaders|
    ensures f[0] == r.orderId && f[1] == QuoteField(r.productName) && f[7] == StatusText(r.status)
  {
    [r.orderId, QuoteField(r.productName), IntToString(r.price), IntToString(r.quantity),
     IntToString(r.total), IntToString(r.commission), IntToString(r.net), StatusText(r.status)]
  }

  function CsvLines(rows: seq<PayoutRow>): (lines: seq<string>)
    ensures |lines| == |rows|
    ensures forall k :: 0 <= k < |rows| ==> lines[k] == Join(CsvFields(rows[k]), ",")
  {
    if |rows| == 0 then [] else [Join(CsvFields(rows[0]), ",")] + CsvLines(rows[1..])
  }

  /** The export: nothing when there are no rows; otherwise the header line
      and one line per row, joined with newlines. */
  function ExportCsv(rows: seq<PayoutRow>): (r: Option<(seq<string>, string)>)
    ensures r.None? <==> |rows| == 0
    ensures r.Some? ==>
      var lines := r.value.0;
      && |lines| == 1 + |rows|
      && lines[0] == Join(CsvHeaders, ",")
      && (forall k :: 0 <= k < |rows| ==> lines[k + 1] == Join(CsvFields(rows[k]), ","))
      && r.value.1 == Join(lines, "\n")
  {
    if |rows| == 0 then None
    else
      var lines := [Join(CsvHeaders, ",")] + CsvLines(rows);
      Some((lines, Join(lines, "\n")))
  }

  /** The product name survives the export: a row's line is the order id,
      a comma, the quoted name and the other fields after a comma, and
      reading the quoted field gives the name back and stops at that comma. */
  lemma ExportKeepsProductName(r: PayoutRow)
    ensures var q := QuoteField(r.productName);
            var rest := "," + Join(CsvFields(r)[2..], ",");
            && Join(CsvFields(r), ",") == r.orderId + "," + q + rest
            && ReadQuoted(q[1..] + rest) == Some((r.productName, rest))
  {
    var f := CsvFields(r);
    var q := QuoteField(r.productName);
    var rest := "," + Join(f[2..], ",");
    assert Join(f[1..], ",") == q + rest by {
      assert f[1..][1..] == f[2..];
    }
    QuotedFieldRoundTrip(r.productName, rest);
  }
}
