/** `java.time.LocalDate` (ordering only) and the `YYYY-MM` form that
    `java.time.YearMonth.parse` accepts. */
module Dates {
  import opened Options

  /** A `LocalDate` as its year, month and day. Only the order of dates
      matters to the validators, so any triple is admitted. */
  datatype Date = Date(year: int, month: int, day: int)

  /** `a.isAfter(b)`: `a` comes strictly later, comparing year, then month,
      then day. */
  predicate IsAfter(a: Date, b: Date) {
    a.year > b.year
    || (a.year == b.year && a.month > b.month)
    || (a.year == b.year && a.month == b.month && a.day > b.day)
  }

  /** `isAfter` is a strict total order on dates. */
  lemma IsAfterStrictTotalOrder(a: Date, b: Date, c: Date)
    ensures !IsAfter(a, a)
    ensures IsAfter(a, b) ==> !IsAfter(b, a)
    ensures IsAfter(a, b) && IsAfter(b, c) ==> IsAfter(a, c)
    ensures a == b || IsAfter(a, b) || IsAfter(b, a)
  {
  }

  /** A parsed `YearMonth`. */
  datatype YearMonth = YearMonth(year: int, month: int)

  predicate IsDigit(c: char) {
    '0' <= c <= '9'
  }

  function DigitValue(c: char): (n: nat)
    requires IsDigit(c)
    ensures n <= 9
  {
    c as int - '0' as int
  }

  function DigitChar(n: nat): (c: char)
    requires n <= 9
    ensures IsDigit(c) && DigitValue(c) == n
  {
    ('0' as int + n) as char
  }

  /** `YearMonth.parse(s)` succeeds on the ISO 8601 extended form `YYYY-MM`
      (ISO 8601:2004 section 4.1.2.3 a): four digits of year, a hyphen, and a
      two-digit month from 01 to 12. */
  function ParseYearMonth(s: string): (r: Option<YearMonth>)
    ensures r.Some? ==> 0 <= r.value.year <= 9999 && 1 <= r.value.month <= 12
  {
    if |s| == 7 && IsDigit(s[0]) && IsDigit(s[1]) && IsDigit(s[2]) && IsDigit(s[3])
       && s[4] == '-' && IsDigit(s[5]) && IsDigit(s[6])
    then
      var year := 1000 * DigitValue(s[0]) + 100 * DigitValue(s[1])
                  + 10 * DigitValue(s[2]) + DigitValue(s[3]);
      var month := 10 * DigitValue(s[5]) + DigitValue(s[6]);
      if 1 <= month <= 12 then Some(YearMonth(year, month)) else None
    else None
  }

  /** `YearMonth.toString` for a four-digit year. */
  function FormatYearMonth(ym: YearMonth): (s: string)
    requires 0 <= ym.year <= 9999 && 1 <= ym.month <= 12
    ensures |s| == 7 && s[4] == '-'
  {
    [DigitChar(ym.year / 1000), DigitChar(ym.year / 100 % 10),
     DigitChar(ym.year / 10 % 10), DigitChar(ym.year % 10), '-',
     DigitChar(ym.month / 10), DigitChar(ym.month % 10)]
  }

  /** A number below 10000 is the sum of its four decimal digits. */
  lemma DecimalCompose(y: nat)
    requires y <= 9999
    ensures y == 1000 * (y / 1000) + 100 * (y / 100 % 10) + 10 * (y / 10 % 10) + y % 10
  {
    assert y == 10 * (y / 10) + y % 10;
    assert y / 10 == 10 * (y / 100) + y / 10 % 10;
    assert y / 100 == 10 * (y / 1000) + y / 100 % 10;
  }

  /** Every four-digit year-month parses back from its text. */
  lemma ParseFormat(ym: YearMonth)
    requires 0 <= ym.year <= 9999 && 1 <= ym.month <= 12
    ensures ParseYearMonth(FormatYearMonth(ym)) == Some(ym)
  {
    DecimalCompose(ym.year);
    DecimalCompose(ym.month);
  }

  /** The decimal digits of a four-digit number are recovered by division. */
  lemma DecimalDigits(a: nat, b: nat, c: nat, d: nat)
    requires a <= 9 && b <= 9 && c <= 9 && d <= 9
    ensures var y := 1000 * a + 100 * b + 10 * c + d;
      y / 1000 == a && y / 100 % 10 == b && y / 10 % 10 == c && y % 10 == d
  {
    var y := 1000 * a + 100 * b + 10 * c + d;
    assert y / 10 == 100 * a + 10 * b + c;
    assert y / 100 == 10 * a + b;
  }

  /** Whatever parses is the text of what it parses to: the accepted texts
      and the year-months correspond one to one. */
  lemma FormatParse(s: string)
    requires ParseYearMonth(s).Some?
    ensures FormatYearMonth(ParseYearMonth(s).value) == s
  {
    var ym := ParseYearMonth(s).value;
    var a, b, c, d := DigitValue(s[0]), DigitValue(s[1]), DigitValue(s[2]), DigitValue(s[3]);
    var e, f := DigitValue(s[5]), DigitValue(s[6]);
    DecimalDigits(a, b, c, d);
    DecimalDigits(0, 0, e, f);
    assert ym == YearMonth(1000 * a + 100 * b + 10 * c + d, 10 * e + f);
    var t := FormatYearMonth(ym);
    assert t == [DigitChar(a), DigitChar(b), DigitChar(c), DigitChar(d), '-', DigitChar(e), DigitChar(f)];
  }

  /** The pay-period examples: the base payslip's period parses, free text
      and an out-of-range month do not. */
  lemma ParseYearMonthExamples()
    ensures ParseYearMonth("2025-05") == Some(YearMonth(2025, 5))
    ensures ParseYearMonth("dfsasd").None?
    ensures ParseYearMonth("invalid-date").None?
    ensures ParseYearMonth("2025-13").None?
    ensures ParseYearMonth("2025-5").None?
  {
  }
}
