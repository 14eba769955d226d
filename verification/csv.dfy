/** CSV field quoting as the payout export writes it: the field is wrapped
    in double quotes and every double quote inside it is doubled, the
    escaping of section 2 rule 7 of RFC 4180.  `ReadQuoted` is the reading
    side of the same rule, and `QuotedFieldRoundTrip` proves that it gives
    the original text back. */
module Csv {
  import opened Base

  const Quote := '"'

  /** `replaceAll(/"/g, '""')`. */
  function EscapeQuotes(s: string): (r: string)
    ensures |r| >= |s|
    ensures forall i :: 0 <= i < |s| && s[i] != Quote ==> s[i] in r
  {
    if |s| == 0 then ""
    else (if s[0] == Quote then [Quote, Quote] else [s[0]]) + EscapeQuotes(s[1..])
  }

  /** The quoted form of a field. */
  function QuoteField(s: string): (r: string)
    ensures |r| >= 2 && r[0] == Quote && r[|r| - 1] == Quote
  {
    [Quote] + EscapeQuotes(s) + [Quote]
  }

  /** Reads the inside of a quoted field, starting just after its opening
      quote: a doubled quote stands for one quote, a single quote closes the
      field.  Returns the field's text and what follows the closing quote,
      or None when the field is never closed. */
  function ReadQuoted(t: string): (r: Option<(string, string)>)
    ensures r.Some? ==> |r.value.1| < |t|
    decreases |t|
  {
    if |t| == 0 then None
    else if t[0] == Quote then
      if |t| >= 2 && t[1] == Quote then
        match ReadQuoted(t[2..])
        case None => None
        case Some(p) => Some(([Quote] + p.0, p.1))
      else Some(("", t[1..]))
    else
      match ReadQuoted(t[1..])
      case None => None
      case Some(p) => Some(([t[0]] + p.0, p.1))
  }

  /** The reading side inverts the escaping: after the escaped text and a
      closing quote, `ReadQuoted` stops with the original text, provided
      what follows does not itself start with a quote. */
  lemma {:induction false} ReadEscaped(s: string, rest: string)
    requires |rest| == 0 || rest[0] != Quote
    ensures ReadQuoted(EscapeQuotes(s) + [Quote] + rest) == Some((s, rest))
    decreases |s|
  {
    if |s| == 0 {
      assert EscapeQuotes(s) + [Quote] + rest == [Quote] + rest;
      assert ([Quote] + rest)[1..] == rest;
    } else {
      ReadEscaped(s[1..], rest);
      var tail := EscapeQuotes(s[1..]) + [Quote] + rest;
      var head := if s[0] == Quote then [Quote, Quote] else [s[0]];
      assert EscapeQuotes(s) == head + EscapeQuotes(s[1..]);
      assert EscapeQuotes(s) + [Quote] + rest == head + tail;
      assert s == [s[0]] + s[1..];
      if s[0] == Quote {
        assert (head + tail)[2..] == tail;
      } else {
        assert (head + tail)[1..] == tail;
      }
    }
  }

  /** Reading a quoted field back gives the original text and leaves the
      rest of the line; in the export the rest starts with a comma. */
  lemma QuotedFieldRoundTrip(s: string, rest: string)
    requires |rest| == 0 || rest[0] != Quote
    ensures var q := QuoteField(s);
            q[0] == Quote && ReadQuoted(q[1..] + rest) == Some((s, rest))
  {
    var q := QuoteField(s);
    var e := EscapeQuotes(s);
    assert q == [Quote] + (e + [Quote]);
    assert q[1..] == e + [Quote];
    assert q[1..] + rest == e + [Quote] + rest;
    ReadEscaped(s, rest);
  }

  /** `fields.join(sep)`. */
  function Join(fields: seq<string>, sep: string): (r: string)
    ensures |fields| == 1 ==> r == fields[0]
    ensures |fields| == 0 ==> r == ""
  {
    if |fields| == 0 then ""
    else if |fields| == 1 then fields[0]
    else fields[0] + sep + Join(fields[1..], sep)
  }
}
