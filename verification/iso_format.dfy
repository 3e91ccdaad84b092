/** The text form of dates the aggregation run hands to its stages:
    `strftime('%Y-%m-%d')` for calculation dates and `strftime('%Y-%m-01')` for the MBT
    month, together with the reading of such text back into a date, so that the text is
    shown to carry exactly the date it was made from. */
module IsoFormat {
  import opened Wrappers
  import opened Calendar

  predicate IsDigit(c: char) {
    '0' <= c <= '9'
  }

  function DigitChar(n: int): (c: char)
    requires 0 <= n <= 9
    ensures IsDigit(c)
  {
    ('0' as int + n) as char
  }

  function DigitValue(c: char): (n: int)
    requires IsDigit(c)
    ensures 0 <= n <= 9
  {
    c as int - '0' as int
  }

  lemma DigitRoundTrip(n: int, c: char)
    requires 0 <= n <= 9 && IsDigit(c)
    ensures DigitValue(DigitChar(n)) == n
    ensures DigitChar(DigitValue(c)) == c
  {
  }

  predicate AllDigits(s: string) {
    forall i :: 0 <= i < |s| ==> IsDigit(s[i])
  }

  /** A number below 100 as two zero-padded digits. */
  function Pad2(n: int): (s: string)
    requires 0 <= n < 100
    ensures |s| == 2 && AllDigits(s)
  {
    [DigitChar(n / 10), DigitChar(n % 10)]
  }

  /** A number below 10000 as four zero-padded digits. */
  function Pad4(n: int): (s: string)
    requires 0 <= n < 10000
    ensures |s| == 4 && AllDigits(s)
  {
    Pad2(n / 100) + Pad2(n % 100)
  }

  function Number2(s: string): (n: int)
    requires |s| == 2 && AllDigits(s)
    ensures 0 <= n < 100
  {
    10 * DigitValue(s[0]) + DigitValue(s[1])
  }

  function Number4(s: string): (n: int)
    requires |s| == 4 && AllDigits(s)
    ensures 0 <= n < 10000
  {
    100 * Number2(s[..2]) + Number2(s[2..])
  }

  lemma Pad2RoundTrip(n: int, s: string)
    requires 0 <= n < 100
    requires |s| == 2 && AllDigits(s)
    ensures Number2(Pad2(n)) == n
    ensures Pad2(Number2(s)) == s
  {
    DigitRoundTrip(n / 10, s[0]);
    DigitRoundTrip(n % 10, s[1]);
    var a, b := DigitValue(s[0]), DigitValue(s[1]);
    assert (10 * a + b) / 10 == a && (10 * a + b) % 10 == b;
  }

  lemma Pad4RoundTrip(n: int, s: string)
    requires 0 <= n < 10000
    requires |s| == 4 && AllDigits(s)
    ensures Number4(Pad4(n)) == n
    ensures Pad4(Number4(s)) == s
  {
    var p := Pad4(n);
    assert p[..2] == Pad2(n / 100) && p[2..] == Pad2(n % 100);
    Pad2RoundTrip(n / 100, s[..2]);
    Pad2RoundTrip(n % 100, s[2..]);
    var hi, lo := Number2(s[..2]), Number2(s[2..]);
    assert (100 * hi + lo) / 100 == hi && (100 * hi + lo) % 100 == lo;
    assert s == s[..2] + s[2..];
  }

  /** `d.strftime('%Y-%m-%d')` */
  function FormatDate(d: Date): (s: string)
    requires Valid(d)
    ensures |s| == 10
  {
    Pad4(d.year) + "-" + Pad2(d.month) + "-" + Pad2(d.day)
  }

  /** `d.strftime('%Y-%m-01')`: the text of the first day of `d`'s month. */
  function FormatMonthStart(d: Date): (s: string)
    requires Valid(d)
    ensures s == FormatDate(FirstOfMonth(d))
  {
    Pad4(d.year) + "-" + Pad2(d.month) + "-01"
  }

  /** The reader that inverts `FormatDate`: `YYYY-MM-DD` text of a calendar day gives that
      day, anything else gives `None`. It exists to show that formatting is injective, so
      that the date texts of different months differ. */
  function ParseDate(s: string): (r: Option<Date>)
    ensures r.Some? ==> Valid(r.value)
  {
    if |s| == 10 && s[4] == '-' && s[7] == '-'
      && AllDigits(s[..4]) && AllDigits(s[5..7]) && AllDigits(s[8..])
    then
      var d := Date(Number4(s[..4]), Number2(s[5..7]), Number2(s[8..]));
      if Valid(d) then Some(d) else None
    else None
  }

  /** Formatting then reading gives back the date. */
  lemma ParseFormattedDate(d: Date)
    requires Valid(d)
    ensures ParseDate(FormatDate(d)) == Some(d)
  {
    var s := FormatDate(d);
    assert s[..4] == Pad4(d.year);
    assert s[5..7] == Pad2(d.month);
    assert s[8..] == Pad2(d.day);
    Pad4RoundTrip(d.year, s[..4]);
    Pad2RoundTrip(d.month, s[5..7]);
    Pad2RoundTrip(d.day, s[8..]);
  }

  /** Text that reads as a date is exactly that date's formatted text. */
  lemma FormatParsedDate(s: string)
    requires ParseDate(s).Some?
    ensures FormatDate(ParseDate(s).value) == s
  {
    var d := ParseDate(s).value;
    Pad4RoundTrip(d.year, s[..4]);
    Pad2RoundTrip(d.month, s[5..7]);
    Pad2RoundTrip(d.day, s[8..]);
    assert s == s[..4] + "-" + s[5..7] + "-" + s[8..];
  }

  /** Different dates never share a text. */
  lemma FormatDateInjective(a: Date, b: Date)
    requires Valid(a) && Valid(b)
    ensures FormatDate(a) == FormatDate(b) <==> a == b
  {
    ParseFormattedDate(a);
    ParseFormattedDate(b);
  }
}
