/** Proleptic Gregorian calendar dates as JavaScript's UTC date functions
    handle them: `Date.UTC`, `setUTCDate(getUTCDate() + 1)` and the date part
    of `toISOString()`. */
module Calendar {
  import opened Collections
  import opened Text

  datatype Date = Date(year: int, month: int, day: int)

  predicate IsLeapYear(y: int)
  {
    y % 4 == 0 && (y % 100 != 0 || y % 400 == 0)
  }

  function DaysInMonth(y: int, m: int): (n: int)
    requires 1 <= m <= 12
    ensures 28 <= n <= 31
  {
    if m == 2 then (if IsLeapYear(y) then 29 else 28)
    else if m == 4 || m == 6 || m == 9 || m == 11 then 30
    else 31
  }

  function DaysInYear(y: int): int
  {
    if IsLeapYear(y) then 366 else 365
  }

  predicate IsValid(d: Date)
  {
    1 <= d.month <= 12 && 1 <= d.day <= DaysInMonth(d.year, d.month)
  }

  /** The calendar day after `d` (one `setUTCDate(getUTCDate() + 1)`). */
  function NextDay(d: Date): (r: Date)
    requires IsValid(d)
    ensures IsValid(r)
  {
    if d.day < DaysInMonth(d.year, d.month) then Date(d.year, d.month, d.day + 1)
    else if d.month < 12 then Date(d.year, d.month + 1, 1)
    else Date(d.year + 1, 1, 1)
  }

  /** Days in the months of year `y` before month `m`. */
  function DaysBeforeMonth(y: int, m: int): int
    requires 1 <= m <= 12
  {
    var common := [0, 31, 59, 90, 120, 151, 181, 212, 243, 273, 304, 334][m - 1];
    if m > 2 && IsLeapYear(y) then common + 1 else common
  }

  /** Leap years among 1..n (counted with floor division, so negative `n` works too). */
  function LeapYearsThrough(n: int): int
  {
    n / 4 - n / 100 + n / 400
  }

  /** Days from 1970-01-01 to the first of January of year `y`. */
  function DaysBeforeYear(y: int): int
  {
    365 * (y - 1970) + LeapYearsThrough(y - 1) - LeapYearsThrough(1969)
  }

  /** The day number of `d` counted from 1970-01-01 (the UTC epoch day); what
      `Date.UTC` returns, divided by 86 400 000 ms. */
  function DayNumber(d: Date): int
    requires 1 <= d.month <= 12
  {
    DaysBeforeYear(d.year) + DaysBeforeMonth(d.year, d.month) + d.day - 1
  }

  lemma DivisibilityChain(y: int)
    ensures y % 400 == 0 ==> y % 100 == 0
    ensures y % 100 == 0 ==> y % 4 == 0
  {
    if y % 400 == 0 {
      var q := y / 400;
      assert y == 100 * (4 * q);
    }
    if y % 100 == 0 {
      var q := y / 100;
      assert y == 4 * (25 * q);
    }
  }

  lemma FloorDivStep(y: int, k: int)
    requires k == 4 || k == 100 || k == 400
    ensures y / k - (y - 1) / k == if y % k == 0 then 1 else 0
  {
  }

  /** Consecutive new-year days are a year's length apart. */
  lemma DaysBeforeNextYear(y: int)
    ensures DaysBeforeYear(y + 1) == DaysBeforeYear(y) + DaysInYear(y)
  {
    FloorDivStep(y, 4);
    FloorDivStep(y, 100);
    FloorDivStep(y, 400);
    DivisibilityChain(y);
  }

  /** The day after `d` is a valid date and its day number is exactly one more:
      month ends, year ends and 29 February are all crossed correctly. */
  lemma NextDayIsOneDayLater(d: Date)
    requires IsValid(d)
    ensures DayNumber(NextDay(d)) == DayNumber(d) + 1
  {
    if d.day == DaysInMonth(d.year, d.month) && d.month == 12 {
      DaysBeforeNextYear(d.year);
    }
  }

  /** The day number grows strictly with the date, so distinct valid dates have
      distinct day numbers. */
  lemma DayNumberBounds(d: Date)
    requires IsValid(d)
    ensures DaysBeforeYear(d.year) <= DayNumber(d) < DaysBeforeYear(d.year + 1)
  {
    DaysBeforeNextYear(d.year);
  }

  /** Exactly four digits, for `0 <= n <= 9999`. */
  function FourDigits(n: nat): (s: string)
    requires n < 10000
    ensures |s| == 4 && AllDigits(s)
  {
    TwoDigits(n / 100) + TwoDigits(n % 100)
  }

  /** Exactly six digits, for `0 <= n <= 999999`. */
  function SixDigits(n: nat): (s: string)
    requires n < 1000000
    ensures |s| == 6 && AllDigits(s)
  {
    TwoDigits(n / 10000) + FourDigits(n % 10000)
  }

  /** The year as `toISOString` writes it: four digits for 0..9999, otherwise
      a sign and six digits. */
  function YearText(y: int): string
  {
    if 0 <= y <= 9999 then FourDigits(y)
    else
      var a := if y < 0 then -y else y;
      (if y < 0 then "-" else "+") + (if a < 1000000 then SixDigits(a) else NatToString(a))
  }

  /** `toISOString().split('T')[0]`: "YYYY-MM-DD". */
  function FormatIso(d: Date): (s: string)
    requires IsValid(d)
  {
    YearText(d.year) + "-" + TwoDigits(d.month) + "-" + TwoDigits(d.day)
  }

  /** `s.split('-').map(p => parseInt(p, 10))` for text of the shape
      "DDDD-DD-DD"; the numbers are not range-checked. */
  function ParseIsoParts(s: string): (r: Option<Date>)
  {
    if |s| == 10 && s[4] == '-' && s[7] == '-'
       && AllDigits(s[..4]) && AllDigits(s[5..7]) && AllDigits(s[8..])
    then Some(Date(DigitsValue(s[..4]), DigitsValue(s[5..7]), DigitsValue(s[8..])))
    else None
  }

  lemma FourDigitsValue(n: nat)
    requires n < 10000
    ensures DigitsValue(FourDigits(n)) == n
  {
    var s := FourDigits(n);
    DigitsValueAppend(TwoDigits(n / 100), TwoDigits(n % 100));
    TwoDigitsValue(n / 100);
    TwoDigitsValue(n % 100);
  }

  /** Appending two digits multiplies the value of the prefix by 100. */
  lemma DigitsValueAppend(a: string, b: string)
    requires AllDigits(a) && |b| == 2 && AllDigits(b)
    ensures AllDigits(a + b)
    ensures DigitsValue(a + b) == DigitsValue(a) * 100 + DigitsValue(b)
  {
    var s := a + b;
    assert s[..|s| - 1] == a + [b[0]];
    assert (a + [b[0]])[..|a|] == a;
    assert b[..1] == [b[0]];
    assert b[..1][..0] == [];
    var ab0 := a + [b[0]];
    assert ab0[..|ab0| - 1] == a;
    assert DigitsValue(ab0) == DigitsValue(a) * 10 + DigitValue(b[0]);
    assert DigitsValue(s) == DigitsValue(ab0) * 10 + DigitValue(b[1]);
    assert DigitsValue(b[..1]) == DigitValue(b[0]);
    assert DigitsValue(b) == DigitsValue(b[..1]) * 10 + DigitValue(b[1]);
  }

  /** Reading back a formatted date gives the same date, for four-digit years. */
  lemma IsoRoundTrip(d: Date)
    requires IsValid(d) && 0 <= d.year <= 9999
    ensures ParseIsoParts(FormatIso(d)) == Some(d)
  {
    var s := FormatIso(d);
    var y, m, dd := FourDigits(d.year), TwoDigits(d.month), TwoDigits(d.day);
    assert s == y + "-" + m + "-" + dd;
    assert s[..4] == y;
    assert s[5..7] == m;
    assert s[8..] == dd;
    FourDigitsValue(d.year);
    TwoDigitsValue(d.month);
    TwoDigitsValue(d.day);
  }
}
