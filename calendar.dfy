/**
 * The part of Python's `datetime` the fallback plan uses: parsing with
 * `strptime(s, "%Y-%m-%d")`, adding `timedelta(days=i)`, and formatting
 * with `strftime("%Y-%m-%d")`, on the proleptic Gregorian calendar with
 * years 1 through 9999.
 */
module Calendar {
  import opened Wrappers
  import opened Strings

  datatype Date = Date(year: int, month: int, day: int)

  const MaxYear := 9999

  /** The last date `datetime` can represent; one day later overflows. */
  const MaxDate := Date(MaxYear, 12, 31)

  predicate IsLeapYear(y: int) {
    y % 4 == 0 && (y % 100 != 0 || y % 400 == 0)
  }

  function DaysInYear(y: int): int {
    if IsLeapYear(y) then 366 else 365
  }

  function DaysInMonth(y: int, m: int): (n: int)
    requires 1 <= m <= 12
    ensures 28 <= n <= 31
  {
    if m == 2 then (if IsLeapYear(y) then 29 else 28)
    else if m == 4 || m == 6 || m == 9 || m == 11 then 30
    else 31
  }

  predicate Valid(d: Date) {
    1 <= d.year <= MaxYear && 1 <= d.month <= 12 && 1 <= d.day <= DaysInMonth(d.year, d.month)
  }

  /** The number of days in the years before year `y`. */
  function DaysBeforeYear(y: int): nat
    decreases y
  {
    if y <= 1 then 0 else DaysBeforeYear(y - 1) + DaysInYear(y - 1)
  }

  /** The number of days in year `y` before the first of month `m`. */
  function DaysBeforeMonth(y: int, m: int): nat
    requires 1 <= m <= 12
  {
    [0, 31, 59, 90, 120, 151, 181, 212, 243, 273, 304, 334][m - 1] +
    (if m > 2 && IsLeapYear(y) then 1 else 0)
  }

  /** `date.toordinal()`: 0001-01-01 is day 1. */
  function Ordinal(d: Date): int
    requires Valid(d)
  {
    DaysBeforeYear(d.year) + DaysBeforeMonth(d.year, d.month) + d.day
  }

  /** The date one day later, or None when that would leave year 9999. */
  function NextDay(d: Date): (r: Option<Date>)
    requires Valid(d)
    ensures r.Some? ==> Valid(r.value)
    ensures r.None? <==> d == MaxDate
  {
    if d.day < DaysInMonth(d.year, d.month) then Some(Date(d.year, d.month, d.day + 1))
    else if d.month < 12 then Some(Date(d.year, d.month + 1, 1))
    else if d.year < MaxYear then Some(Date(d.year + 1, 1, 1))
    else None
  }

  /** `d + timedelta(days=n)`, or None where Python raises OverflowError. */
  function AddDays(d: Date, n: nat): (r: Option<Date>)
    requires Valid(d)
    ensures r.Some? ==> Valid(r.value)
  {
    if n == 0 then Some(d)
    else match AddDays(d, n - 1)
      case None => None
      case Some(e) => NextDay(e)
  }

  lemma DaysBeforeMonthStep(y: int, m: int)
    requires 1 <= m < 12
    ensures DaysBeforeMonth(y, m + 1) == DaysBeforeMonth(y, m) + DaysInMonth(y, m)
  {
  }

  lemma DaysBeforeMonthLast(y: int)
    ensures DaysBeforeMonth(y, 12) + 31 == DaysInYear(y)
  {
  }

  /** The ordinal of the next day is one more. */
  lemma NextDayOrdinal(d: Date)
    requires Valid(d) && NextDay(d).Some?
    ensures Ordinal(NextDay(d).value) == Ordinal(d) + 1
  {
    if d.day == DaysInMonth(d.year, d.month) {
      if d.month < 12 {
        DaysBeforeMonthStep(d.year, d.month);
      } else {
        DaysBeforeMonthLast(d.year);
      }
    }
  }

  lemma {:induction false} DaysBeforeYearMonotone(a: int, b: int)
    requires 1 <= a <= b
    ensures DaysBeforeYear(a) <= DaysBeforeYear(b)
    decreases b - a
  {
    if a < b {
      DaysBeforeYearMonotone(a, b - 1);
    }
  }

  lemma DayOfYearBound(d: Date)
    requires Valid(d)
    ensures DaysBeforeMonth(d.year, d.month) + d.day <= DaysInYear(d.year)
    ensures DaysBeforeMonth(d.year, d.month) + d.day == DaysInYear(d.year) ==> d.month == 12 && d.day == 31
  {
  }

  /** No representable date lies after MaxDate, and only MaxDate has its ordinal. */
  lemma OrdinalAtMostMax(d: Date)
    requires Valid(d)
    ensures Ordinal(d) <= Ordinal(MaxDate)
    ensures Ordinal(d) == Ordinal(MaxDate) ==> d == MaxDate
  {
    DayOfYearBound(d);
    DaysBeforeMonthLast(MaxYear);
    if d.year < MaxYear {
      DaysBeforeYearMonotone(d.year + 1, MaxYear);
    }
  }

  /**
   * Adding `n` days moves the ordinal by exactly `n`, and fails exactly
   * when the result would lie after MaxDate.
   */
  lemma {:induction false} AddDaysOrdinal(d: Date, n: nat)
    requires Valid(d)
    ensures AddDays(d, n).Some? <==> Ordinal(d) + n <= Ordinal(MaxDate)
    ensures AddDays(d, n).Some? ==> Ordinal(AddDays(d, n).value) == Ordinal(d) + n
  {
    if n == 0 {
      OrdinalAtMostMax(d);
    } else {
      AddDaysOrdinal(d, n - 1);
      match AddDays(d, n - 1)
      case None =>
      case Some(e) =>
        OrdinalAtMostMax(e);
        if NextDay(e).Some? {
          NextDayOrdinal(e);
          OrdinalAtMostMax(NextDay(e).value);
        }
    }
  }

  /** Once adding days overflows, adding more days overflows too. */
  lemma {:induction false} AddDaysDefinedBelow(d: Date, m: nat, n: nat)
    requires Valid(d) && m <= n && AddDays(d, n).Some?
    ensures AddDays(d, m).Some?
  {
    AddDaysOrdinal(d, m);
    AddDaysOrdinal(d, n);
  }

  /** Two digits, zero-padded: `%m` and `%d` in `strftime`. */
  function TwoDigits(n: int): (r: string)
    requires 0 <= n < 100
    ensures |r| == 2 && AllDigits(r)
  {
    [DigitChar(n / 10), DigitChar(n % 10)]
  }

  /** Four digits, zero-padded: `%Y` in `strftime`. */
  function FourDigits(n: int): (r: string)
    requires 0 <= n < 10000
    ensures |r| == 4 && AllDigits(r)
  {
    [DigitChar(n / 1000), DigitChar(n / 100 % 10), DigitChar(n / 10 % 10), DigitChar(n % 10)]
  }

  /** `d.strftime("%Y-%m-%d")`. */
  function FormatDate(d: Date): (r: string)
    requires Valid(d)
  {
    FourDigits(d.year) + "-" + TwoDigits(d.month) + "-" + TwoDigits(d.day)
  }

  /**
   * The month field of `%m`, which `strptime` matches with
   * `1[0-2]|0[1-9]|[1-9]`.
   */
  function MonthField(t: string): (r: Option<int>)
    ensures r.Some? ==> 1 <= r.value <= 12
  {
    if |t| == 1 && '1' <= t[0] <= '9' then Some(DigitValue(t[0]))
    else if |t| == 2 && t[0] == '1' && '0' <= t[1] <= '2' then Some(10 + DigitValue(t[1]))
    else if |t| == 2 && t[0] == '0' && '1' <= t[1] <= '9' then Some(DigitValue(t[1]))
    else None
  }

  /**
   * The day field of `%d`, which `strptime` matches with
   * `3[01]|[12]\d|0[1-9]|[1-9]| [1-9]`.
   */
  function DayField(t: string): (r: Option<int>)
    ensures r.Some? ==> 1 <= r.value <= 31
  {
    if |t| == 1 && '1' <= t[0] <= '9' then Some(DigitValue(t[0]))
    else if |t| == 2 && t[0] == '3' && '0' <= t[1] <= '1' then Some(30 + DigitValue(t[1]))
    else if |t| == 2 && '1' <= t[0] <= '2' && '0' <= t[1] <= '9' then Some(DigitValue(t[0]) * 10 + DigitValue(t[1]))
    else if |t| == 2 && (t[0] == '0' || t[0] == ' ') && '1' <= t[1] <= '9' then Some(DigitValue(t[1]))
    else None
  }

  /**
   * `datetime.strptime(s, "%Y-%m-%d")`: exactly four digits of year, a
   * dash, the month field up to the next dash, and the day field filling
   * the rest of the text (anything left over is "unconverted data"); the
   * fields must then name an existing date. None is the ValueError.
   */
  function ParseDate(s: string): (r: Option<Date>)
    ensures r.Some? ==> Valid(r.value)
  {
    if |s| < 5 || !AllDigits(s[..4]) || s[4] != '-' then None
    else
      var k := Find(s, "-", 5);
      if k < 0 then None
      else
        match (MonthField(s[5..k]), DayField(s[k + 1..]))
        case (Some(m), Some(d)) =>
          var date := Date(DecimalValue(s[..4]), m, d);
          if Valid(date) then Some(date) else None
        case _ => None
  }

  lemma FourDigitsValue(n: int)
    requires 0 <= n < 10000
    ensures DecimalValue(FourDigits(n)) == n
  {
    var t := FourDigits(n);
    assert t[..1][..0] == [] && t[..2][..1] == t[..1] && t[..3][..2] == t[..2] && t[..3] == t[..|t| - 1];
    assert DecimalValue(t[..1]) == n / 1000;
    assert n / 1000 * 10 + n / 100 % 10 == n / 100;
    assert DecimalValue(t[..2]) == n / 100;
    assert n / 100 * 10 + n / 10 % 10 == n / 10;
    assert DecimalValue(t[..3]) == n / 10;
  }

  /** Parsing a formatted date gives the date back. */
  lemma ParseFormat(d: Date)
    requires Valid(d)
    ensures ParseDate(FormatDate(d)) == Some(d)
  {
    var s := FormatDate(d);
    assert s[..4] == FourDigits(d.year);
    FourDigitsValue(d.year);
    OccursAtChar(s, '-', 5);
    OccursAtChar(s, '-', 6);
    OccursAtChar(s, '-', 7);
    assert Find(s, "-", 5) == 7;
    assert s[5..7] == TwoDigits(d.month);
    assert s[8..] == TwoDigits(d.day);
    MonthFieldFormatted(d.month);
    DayFieldFormatted(d.day);
    assert Date(DecimalValue(s[..4]), d.month, d.day) == d;
  }

  lemma MonthFieldFormatted(m: int)
    requires 1 <= m <= 12
    ensures MonthField(TwoDigits(m)) == Some(m)
  {
    var t := TwoDigits(m);
    assert DigitValue(t[0]) == m / 10 && DigitValue(t[1]) == m % 10;
  }

  lemma DayFieldFormatted(n: int)
    requires 1 <= n <= 31
    ensures DayField(TwoDigits(n)) == Some(n)
  {
    var t := TwoDigits(n);
    assert DigitValue(t[0]) == n / 10 && DigitValue(t[1]) == n % 10;
  }
}
