/**
 * Calendar dates in the layout "2006-01-02" (`YYYY-MM-DD`) that the sign-in
 * ledger stores, and the `nextDay` successor the streak computation uses.
 *
 * Go's `time.Parse` with that layout accepts exactly four year digits, two
 * month digits and two day digits separated by '-', and rejects a month
 * outside 1..12 or a day beyond the month's length. On failure `nextDay`
 * ignores the error and works on Go's zero time, 0001-01-01.
 */
module Dates {
  import opened Basics

  datatype Date = Date(year: int, month: int, day: int)

  /** The Gregorian leap-year rule. */
  predicate IsLeapYear(y: int) {
    y % 4 == 0 && (y % 100 != 0 || y % 400 == 0)
  }

  function DaysInMonth(y: int, m: int): (n: int)
    requires 1 <= m <= 12
    ensures 28 <= n <= 31
    ensures n == 29 <==> m == 2 && IsLeapYear(y)
  {
    if m == 2 then (if IsLeapYear(y) then 29 else 28)
    else if m == 4 || m == 6 || m == 9 || m == 11 then 30
    else 31
  }

  /** A real calendar date with a non-negative year. */
  predicate ValidDate(d: Date) {
    0 <= d.year && 1 <= d.month <= 12 && 1 <= d.day <= DaysInMonth(d.year, d.month)
  }

  /** Chronological order on dates. */
  predicate Before(d: Date, e: Date) {
    d.year < e.year
    || (d.year == e.year && d.month < e.month)
    || (d.year == e.year && d.month == e.month && d.day < e.day)
  }

  /** The zero time of Go's `time.Time`, used when parsing fails. */
  const ZeroDate := Date(1, 1, 1)

  /** The next calendar day: valid, later, and no valid date lies strictly between. */
  function Succ(d: Date): (e: Date)
    requires ValidDate(d)
    ensures ValidDate(e) && Before(d, e)
    ensures forall x :: ValidDate(x) && Before(d, x) ==> !Before(x, e)
  {
    if d.day < DaysInMonth(d.year, d.month) then Date(d.year, d.month, d.day + 1)
    else if d.month < 12 then Date(d.year, d.month + 1, 1)
    else Date(d.year + 1, 1, 1)
  }

  // ---------------------------------------------------------------------
  // Text form
  // ---------------------------------------------------------------------

  predicate IsDigit(c: char) {
    '0' <= c <= '9'
  }

  function DigitChar(k: int): (c: char)
    requires 0 <= k < 10
    ensures IsDigit(c)
  {
    (k + '0' as int) as char
  }

  function DigitValue(c: char): (k: int)
    requires IsDigit(c)
    ensures 0 <= k < 10
  {
    c as int - '0' as int
  }

  /** Decimal digits of `n` without padding (Go prints years past 9999 in full). */
  function Decimal(n: nat): (s: string)
    ensures |s| >= 1
    decreases n
  {
    if n < 10 then [DigitChar(n)] else Decimal(n / 10) + [DigitChar(n % 10)]
  }

  /** The year, zero-padded to four digits. */
  function YearText(y: nat): string {
    if y < 10000 then [DigitChar(y / 10 / 10 / 10), DigitChar(y / 10 / 10 % 10), DigitChar(y / 10 % 10), DigitChar(y % 10)]
    else Decimal(y)
  }

  function TwoDigits(n: nat): string
    requires n < 100
  {
    [DigitChar(n / 10), DigitChar(n % 10)]
  }

  /** `t.Format("2006-01-02")`. */
  function Format(d: Date): (s: string)
    requires ValidDate(d)
    ensures d.year < 10000 ==> |s| == 10
  {
    YearText(d.year) + "-" + TwoDigits(d.month) + "-" + TwoDigits(d.day)
  }

  /** The shape the layout demands: digits everywhere except '-' at positions 4 and 7. */
  predicate WellShaped(s: string) {
    |s| == 10 && s[4] == '-' && s[7] == '-'
    && forall i :: 0 <= i < 10 && i != 4 && i != 7 ==> IsDigit(s[i])
  }

  /** `time.Parse("2006-01-02", s)`: `None` stands for the error. */
  function Parse(s: string): (r: Option<Date>)
    ensures r.Some? ==> ValidDate(r.value) && r.value.year < 10000
  {
    if !WellShaped(s) then None
    else
      var d := Date(
        ((DigitValue(s[0]) * 10 + DigitValue(s[1])) * 10 + DigitValue(s[2])) * 10 + DigitValue(s[3]),
        DigitValue(s[5]) * 10 + DigitValue(s[6]),
        DigitValue(s[8]) * 10 + DigitValue(s[9]));
      if ValidDate(d) then Some(d) else None
  }

  /** `nextDay`: parse (falling back to the zero time), add one day, format. */
  function NextDay(s: string): string {
    var d := match Parse(s) case Some(d) => d case None => ZeroDate;
    Format(Succ(d))
  }

  lemma DigitRoundTrip(k: int)
    requires 0 <= k < 10
    ensures DigitValue(DigitChar(k)) == k
  {
  }

  /** Appending a decimal digit and dropping it again. */
  lemma ShiftDigit(q: int, r: int)
    requires 0 <= r < 10
    ensures (q * 10 + r) / 10 == q && (q * 10 + r) % 10 == r
  {
  }

  /** The text form of a date with a four-digit year has the layout's shape. */
  lemma FormatShaped(d: Date)
    requires ValidDate(d) && d.year < 10000
    ensures var s := Format(d); var y := d.year;
      && WellShaped(s)
      && s[0] == DigitChar(y / 10 / 10 / 10) && s[1] == DigitChar(y / 10 / 10 % 10)
      && s[2] == DigitChar(y / 10 % 10) && s[3] == DigitChar(y % 10)
      && s[5] == DigitChar(d.month / 10) && s[6] == DigitChar(d.month % 10)
      && s[8] == DigitChar(d.day / 10) && s[9] == DigitChar(d.day % 10)
  {
  }

  /** Every valid date with a four-digit year is read back from its text form. */
  lemma ParseFormat(d: Date)
    requires ValidDate(d) && d.year < 10000
    ensures Parse(Format(d)) == Some(d)
  {
    var s := Format(d);
    var y := d.year;
    FormatShaped(d);
    var t1 := y / 10;
    var t2 := t1 / 10;
    var t3 := t2 / 10;
    DigitRoundTrip(t3);
    DigitRoundTrip(t2 % 10);
    DigitRoundTrip(t1 % 10);
    DigitRoundTrip(y % 10);
    DigitRoundTrip(d.month / 10);
    DigitRoundTrip(d.month % 10);
    DigitRoundTrip(d.day / 10);
    DigitRoundTrip(d.day % 10);
    assert t2 == t3 * 10 + t2 % 10;
    assert t1 == t2 * 10 + t1 % 10;
    assert y == t1 * 10 + y % 10;
    assert ((DigitValue(s[0]) * 10 + DigitValue(s[1])) * 10 + DigitValue(s[2])) * 10 + DigitValue(s[3]) == y;
    assert DigitValue(s[5]) * 10 + DigitValue(s[6]) == d.month;
    assert DigitValue(s[8]) * 10 + DigitValue(s[9]) == d.day;
  }

  lemma CharRoundTrip(c: char)
    requires IsDigit(c)
    ensures DigitChar(DigitValue(c)) == c
  {
  }

  /** Every string `Parse` accepts is exactly the text form of the date it yields. */
  lemma FormatParse(s: string)
    requires Parse(s).Some?
    ensures Format(Parse(s).value) == s
  {
    var d := Parse(s).value;
    assert WellShaped(s);
    var a, b, c, e := DigitValue(s[0]), DigitValue(s[1]), DigitValue(s[2]), DigitValue(s[3]);
    var y := d.year;
    assert y == ((a * 10 + b) * 10 + c) * 10 + e;
    ShiftDigit((a * 10 + b) * 10 + c, e);
    ShiftDigit(a * 10 + b, c);
    ShiftDigit(a, b);
    ShiftDigit(DigitValue(s[5]), DigitValue(s[6]));
    ShiftDigit(DigitValue(s[8]), DigitValue(s[9]));
    CharRoundTrip(s[0]);
    CharRoundTrip(s[1]);
    CharRoundTrip(s[2]);
    CharRoundTrip(s[3]);
    CharRoundTrip(s[5]);
    CharRoundTrip(s[6]);
    CharRoundTrip(s[8]);
    CharRoundTrip(s[9]);
    var t := Format(d);
    FormatShaped(d);
    assert t[0] == s[0] && t[1] == s[1] && t[2] == s[2] && t[3] == s[3] && t[4] == s[4];
    assert t[5] == s[5] && t[6] == s[6] && t[7] == s[7] && t[8] == s[8] && t[9] == s[9];
  }

  /** `nextDay` of a date written in the layout is the layout text of the following day. */
  lemma NextDayOfFormat(d: Date)
    requires ValidDate(d) && d.year < 10000
    ensures NextDay(Format(d)) == Format(Succ(d))
  {
    ParseFormat(d);
  }

  /** `nextDay` of text the layout rejects is "0001-01-02", the day after Go's zero time. */
  lemma NextDayOfMalformed(s: string)
    requires Parse(s).None?
    ensures NextDay(s) == "0001-01-02"
  {
  }
}
