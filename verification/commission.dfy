/** The platform's commission split: the fee is gross × rate / 100 rounded
    to the nearest rupee, halves up as JavaScript's `Math.round` rounds them,
    and the vendor's net is gross − fee.  Money is in whole rupees and the
    rate in whole percent.  The arithmetic is exact: the program computes the
    product in binary floating point, which differs at some half-rupee ties
    (see README, "Left out"). */
module Commission {
  import opened Base

  /** Platform fee applied when no settings document exists. */
  const DefaultRate := 10

  /** x / 100 rounded to the nearest integer, halves up, in exact
      arithmetic.  Dafny's division by a positive constant is floor division,
      so `(x + 50) / 100` equals `floor(x / 100 + 1/2)` for every sign of x. */
  function RoundHundredths(x: int): (r: int)
    ensures 100 * r - 50 <= x < 100 * r + 50
  {
    (x + 50) / 100
  }

  /** The fee on a gross amount at a rate in percent: the exact value
      gross × rate / 100 rounded half-up.  The program rounds the double
      `gross * (rate / 100)` instead; the two agree except at some ties. */
  function Fee(gross: int, rate: int): (fee: int)
    ensures 100 * fee - 50 <= gross * rate < 100 * fee + 50
  {
    RoundHundredths(gross * rate)
  }

  /** The split of one line item. */
  datatype Split = Split(gross: int, fee: int, net: int)

  /** Price times quantity, split into platform fee and vendor share. */
  function ComputeSplit(price: int, quantity: int, rate: int): (s: Split)
    ensures s.gross == price * quantity
    ensures s.fee + s.net == s.gross
    ensures 100 * s.fee - 50 <= s.gross * rate < 100 * s.fee + 50
  {
    var gross := price * quantity;
    var fee := Fee(gross, rate);
    Split(gross, fee, gross - fee)
  }

  /** `settings?.commissionRate ?? 10`: a stored rate, even 0, wins. */
  function CurrentRate(stored: Option<int>): (rate: int)
    ensures stored.Some? ==> rate == stored.value
    ensures stored.None? ==> rate == DefaultRate
  {
    match stored
    case Some(r) => r
    case None => DefaultRate
  }

  /** The read-side commission `commissionAmount || Math.round(gross * 0.1)`:
      a stored 0 is falsy and falls back to ten percent. */
  function ReadSideCommission(stored: int, gross: int): (c: int)
    ensures stored != 0 ==> c == stored
    ensures stored == 0 ==> 100 * c - 50 <= gross * 10 < 100 * c + 50
  {
    if stored != 0 then stored else Fee(gross, 10)
  }

  /** The read-side net `netAmount || (gross - commission)`. */
  function ReadSideNet(stored: int, gross: int, commission: int): (n: int)
    ensures stored != 0 ==> n == stored
    ensures stored == 0 ==> n + commission == gross
  {
    if stored != 0 then stored else gross - commission
  }

  /** The rounding is exact: the fee is the unique integer within half a
      rupee of `gross × rate / 100`, with halves going up. */
  lemma FeeIsUnique(gross: int, rate: int, f: int)
    requires 100 * f - 50 <= gross * rate < 100 * f + 50
    ensures f == Fee(gross, rate)
  {
  }

  /** For a rate between 0 and 100 percent and a non-negative gross, the fee
      and the vendor share are both between 0 and the gross. */
  lemma {:induction false} SplitBounds(price: int, quantity: int, rate: int)
    requires price >= 0 && quantity >= 0 && 0 <= rate <= 100
    ensures var s := ComputeSplit(price, quantity, rate);
      0 <= s.fee <= s.gross && 0 <= s.net <= s.gross
  {
    var s := ComputeSplit(price, quantity, rate);
    var g := price * quantity;
    assert g >= 0 by {
      assert price >= 0 && quantity >= 0;
    }
    assert 0 <= g * rate <= g * 100 by {
      assert g * rate <= g * 100 by {
        assert g * (100 - rate) >= 0;
      }
    }
  }

  /** `??` and `||` disagree on a stored zero: a zero rate setting charges no
      fee at transfer time, while a zero commission stored on an item is read
      back as ten percent; when the read-side ten percent is not zero, the
      read-side commission and net then add up to more than the gross. */
  lemma ZeroRateReadsBackAsTenPercent(price: int, quantity: int)
    requires Fee(price * quantity, 10) > 0
    ensures var frozen := ComputeSplit(price, quantity, CurrentRate(Some(0)));
      frozen.fee == 0 &&
      ReadSideCommission(frozen.fee, frozen.gross) == Fee(frozen.gross, 10) &&
      ReadSideCommission(frozen.fee, frozen.gross)
        + ReadSideNet(frozen.net, frozen.gross, ReadSideCommission(frozen.fee, frozen.gross))
        > frozen.gross
  {
    var frozen := ComputeSplit(price, quantity, 0);
    assert frozen.gross * 0 == 0;
    FeeIsUnique(frozen.gross, 0, 0);
  }
}
