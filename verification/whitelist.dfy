/** Mass-assignment protection shared by the settings and store routes:
    only the listed keys of a JSON body are copied into the update, and
    only when the body defines them. */
module Whitelist {
  import opened Base
  import opened Model

  /** A JSON value of the request body, as far as the routes tell them
      apart: an integral number, a string, a boolean, `null`, an object
      with the bank fields, or anything else (an array, another object). */
  datatype Value = Num(n: int) | Text(s: string) | Bool(b: bool) | Null | Details(d: PayoutDetails) | Other

  /** What a schema cast makes of a value: the value to store, `None` for
      a stored `null`, or a cast error that fails the save. */
  datatype Cast<T> = Cast(stored: Option<T>) | CastError

  /** A parsed JSON object body; a key that is absent is `undefined`. */
  type Body = map<string, Value>

  /** `allowed.forEach(f => { if (body[f] !== undefined) update[f] = body[f] })`. */
  function Pick(body: Body, allowed: set<string>): (upd: Body)
    ensures upd.Keys == body.Keys * allowed
    ensures forall k :: k in upd ==> upd[k] == body[k]
  {
    map k | k in body && k in allowed :: body[k]
  }

  /** Picking is idempotent, and nothing outside the list ever gets through. */
  lemma PickTwiceIsPickOnce(body: Body, allowed: set<string>, k: string)
    ensures Pick(Pick(body, allowed), allowed) == Pick(body, allowed)
    ensures k !in allowed ==> k !in Pick(body, allowed)
  {
  }

  /** The value of a string of decimal digits. */
  function DigitsValue(s: string): int
    requires forall i :: 0 <= i < |s| ==> IsDigit(s[i])
  {
    if |s| == 0 then 0 else 10 * DigitsValue(s[..|s| - 1]) + (s[|s| - 1] as int - '0' as int)
  }

  predicate AllDigits(s: string)
  {
    |s| > 0 && forall i :: 0 <= i < |s| ==> IsDigit(s[i])
  }

  /** The integers a string spells in plain decimal: an optional sign and
      at least one digit. */
  function ParseInteger(s: string): (r: Option<int>)
    ensures AllDigits(s) ==> r == Some(DigitsValue(s))
    ensures |s| > 0 && s[0] == '-' && AllDigits(s[1..]) ==> r == Some(-DigitsValue(s[1..]))
    ensures |s| > 0 && s[0] == '+' && AllDigits(s[1..]) ==> r == Some(DigitsValue(s[1..]))
    ensures r.Some? ==> AllDigits(s) || (|s| > 0 && (s[0] == '-' || s[0] == '+') && AllDigits(s[1..]))
  {
    if AllDigits(s) then Some(DigitsValue(s))
    else if |s| > 0 && s[0] == '-' && AllDigits(s[1..]) then Some(-DigitsValue(s[1..]))
    else if |s| > 0 && s[0] == '+' && AllDigits(s[1..]) then Some(DigitsValue(s[1..]))
    else None
  }

  /** Mongoose's number cast: `null` and the empty string store `null`, a
      boolean becomes 1 or 0, a numeric string its value; anything else is
      a cast error. */
  function CastNumber(v: Value): (r: Cast<int>)
    ensures v.Num? ==> r == Cast(Some(v.n))
    ensures v.Null? || v == Text("") ==> r == Cast(None)
    ensures v.Bool? ==> r == Cast(Some(if v.b then 1 else 0))
    ensures v.Text? && v.s != "" ==> (r.Cast? <==> ParseInteger(v.s).Some?)
    ensures v.Text? && v.s != "" && r.Cast? ==> r.stored == ParseInteger(v.s)
    ensures v.Details? || v.Other? ==> r == CastError
  {
    match v
    case Num(n) => Cast(Some(n))
    case Null => Cast(None)
    case Bool(b) => Cast(Some(if b then 1 else 0))
    case Text(s) =>
      if s == "" then Cast(None)
      else if ParseInteger(s).Some? then Cast(ParseInteger(s)) else CastError
    case _ => CastError
  }

  /** Mongoose's string cast: a number or a boolean is rendered as
      `String(v)` does, `null` stores `null`, and an object is a cast
      error. */
  function CastString(v: Value): (r: Cast<string>)
    ensures v.Text? ==> r == Cast(Some(v.s))
    ensures v.Num? ==> r == Cast(Some(IntToString(v.n)))
    ensures v.Bool? ==> r == Cast(Some(if v.b then "true" else "false"))
    ensures v.Null? ==> r == Cast(None)
    ensures v.Details? || v.Other? ==> r == CastError
  {
    match v
    case Text(s) => Cast(Some(s))
    case Num(n) => Cast(Some(IntToString(n)))
    case Bool(b) => Cast(Some(if b then "true" else "false"))
    case Null => Cast(None)
    case _ => CastError
  }

  lemma {:induction false} DigitsOfNat(n: nat)
    ensures AllDigits(NatToString(n)) && DigitsValue(NatToString(n)) == n
    decreases n
  {
    if n >= 10 {
      var s := NatToString(n);
      DigitsOfNat(n / 10);
      assert s[..|s| - 1] == NatToString(n / 10);
    }
  }

  /** A number sent as its decimal string is stored as that number, and
      a number stored in a string field reads back as the same number:
      the string cast and the number cast are inverse on integers. */
  lemma {:induction false} NumberStringRoundTrip(n: int)
    ensures CastNumber(Text(IntToString(n))) == Cast(Some(n))
    ensures CastString(Num(n)).Cast? && CastNumber(Text(CastString(Num(n)).stored.value)) == Cast(Some(n))
  {
    if n < 0 {
      DigitsOfNat(-n);
      var s := IntToString(n);
      assert s[1..] == NatToString(-n);
      assert !AllDigits(s) by { assert !IsDigit(s[0]); }
    } else {
      DigitsOfNat(n);
    }
  }
}
