/**
 * The proleptic Gregorian calendar as the generator uses it through Python's
 * `datetime`: a date is a (year, month, day) triple, `Ordinal` is the day
 * number that `date.toordinal()` gives (0001-01-01 is day 1), `Weekday` is
 * `date.weekday()` (Monday = 0), `Next` is `date + timedelta(days=1)` and
 * `LessEq` is the comparison `a <= b` between two dates.
 */
module Calendar {

  datatype Date = Date(year: int, month: int, day: int)

  /** Gregorian leap-year rule: every fourth year, except centuries not divisible by 400. */
  predicate IsLeapYear(y: int) {
    y % 4 == 0 && (y % 100 != 0 || y % 400 == 0)
  }

  function DaysInYear(y: int): int {
    if IsLeapYear(y) then 366 else 365
  }

  function DaysInMonth(y: int, m: int): (n: int)
    requires 1 <= m <= 12
    ensures 28 <= n <= 31
  {
    if m == 2 then (if IsLeapYear(y) then 29 else 28)
    else if m == 4 || m == 6 || m == 9 || m == 11 then 30
    else 31
  }

  /** A date that `datetime.date` accepts (years before 1 do not exist there). */
  predicate ValidDate(d: Date) {
    1 <= d.year && 1 <= d.month <= 12 && 1 <= d.day <= DaysInMonth(d.year, d.month)
  }

  /** Number of days in the years 1 .. y-1. */
  function DaysBeforeYear(y: int): int
    requires 1 <= y
  {
    var n := y - 1;
    n * 365 + n / 4 - n / 100 + n / 400
  }

  /** Number of days in year y before the first day of month m. */
  function DaysBeforeMonth(y: int, m: int): (n: int)
    requires 1 <= m <= 12
    ensures 0 <= n <= 335
  {
    var common :=
      if m == 1 then 0 else if m == 2 then 31 else if m == 3 then 59
      else if m == 4 then 90 else if m == 5 then 120 else if m == 6 then 151
      else if m == 7 then 181 else if m == 8 then 212 else if m == 9 then 243
      else if m == 10 then 273 else if m == 11 then 304 else 334;
    common + (if m > 2 && IsLeapYear(y) then 1 else 0)
  }

  /** The day number of a date; 0001-01-01 is day 1. */
  function Ordinal(d: Date): int
    requires ValidDate(d)
  {
    DaysBeforeYear(d.year) + DaysBeforeMonth(d.year, d.month) + d.day
  }

  /** Day of the week, Monday = 0 .. Sunday = 6. */
  function Weekday(d: Date): (w: int)
    requires ValidDate(d)
    ensures 0 <= w < 7
  {
    (Ordinal(d) + 6) % 7
  }

  /** Lexicographic comparison of dates, as `datetime` compares them. */
  predicate LessEq(a: Date, b: Date) {
    a.year < b.year ||
    (a.year == b.year && (a.month < b.month || (a.month == b.month && a.day <= b.day)))
  }

  /** The following calendar day. */
  function Next(d: Date): (r: Date)
    requires ValidDate(d)
    ensures ValidDate(r)
    ensures Ordinal(r) == Ordinal(d) + 1
    ensures !LessEq(r, d)
  {
    if d.day < DaysInMonth(d.year, d.month) then
      Date(d.year, d.month, d.day + 1)
    else if d.month < 12 then
      Date(d.year, d.month + 1, 1)
    else
      DaysBeforeYearStep(d.year);
      Date(d.year + 1, 1, 1)
  }

  /** The date k days after d, by k single-day steps. */
  function DateAfter(d: Date, k: nat): (r: Date)
    requires ValidDate(d)
    ensures ValidDate(r)
    ensures Ordinal(r) == Ordinal(d) + k
  {
    if k == 0 then d else Next(DateAfter(d, k - 1))
  }

  lemma DaysBeforeYearStep(y: int)
    requires 1 <= y
    ensures DaysBeforeYear(y + 1) == DaysBeforeYear(y) + DaysInYear(y)
  {
    QuotientStep(y - 1, 4);
    QuotientStep(y - 1, 100);
    QuotientStep(y - 1, 400);
    DivisibilityChain(y);
  }

  /** A multiple of 400 is a multiple of 100, and a multiple of 100 is a multiple of 4. */
  lemma DivisibilityChain(y: int)
    ensures y % 400 == 0 ==> y % 100 == 0
    ensures y % 100 == 0 ==> y % 4 == 0
  {
    if y % 400 == 0 {
      // y is 400 q, so y / 100 is 4 q with nothing left over.
      assert y == 400 * (y / 400);
      assert 100 * (y / 100) <= y < 100 * (y / 100) + 100;
      assert y / 100 == 4 * (y / 400);
    }
    if y % 100 == 0 {
      assert y == 100 * (y / 100);
      assert 4 * (y / 4) <= y < 4 * (y / 4) + 4;
      assert y / 4 == 25 * (y / 100);
    }
  }

  /** Integer division by k moves up by one exactly when n + 1 is a multiple of k. */
  lemma QuotientStep(n: int, k: int)
    requires 0 <= n && k in {4, 100, 400}
    ensures (n + 1) / k == n / k + (if (n + 1) % k == 0 then 1 else 0)
  {
    if k == 4 {
      assert 4 * (n / 4) <= n < 4 * (n / 4) + 4;
      assert 4 * ((n + 1) / 4) <= n + 1 < 4 * ((n + 1) / 4) + 4;
    } else if k == 100 {
      assert 100 * (n / 100) <= n < 100 * (n / 100) + 100;
      assert 100 * ((n + 1) / 100) <= n + 1 < 100 * ((n + 1) / 100) + 100;
    } else {
      assert 400 * (n / 400) <= n < 400 * (n / 400) + 400;
      assert 400 * ((n + 1) / 400) <= n + 1 < 400 * ((n + 1) / 400) + 400;
    }
  }

  lemma {:induction false} DaysBeforeYearGrows(y1: int, y2: int)
    requires 1 <= y1 <= y2
    ensures DaysBeforeYear(y2) - DaysBeforeYear(y1) >= 365 * (y2 - y1)
    decreases y2 - y1
  {
    if y1 < y2 {
      DaysBeforeYearStep(y1);
      DaysBeforeYearGrows(y1 + 1, y2);
    }
  }

  /** A date that comes strictly earlier in the calendar has a smaller day number. */
  lemma OrdinalStrictlyIncreasing(a: Date, b: Date)
    requires ValidDate(a) && ValidDate(b)
    requires LessEq(a, b) && a != b
    ensures Ordinal(a) < Ordinal(b)
  {
    if a.year < b.year {
      // The days of a's month all come before the next year starts.
      if a.month < 12 {
        DaysBeforeMonthGrows(a.year, a.month, 12);
      }
      assert DaysBeforeMonth(a.year, a.month) + a.day <= DaysInYear(a.year);
      DaysBeforeYearStep(a.year);
      DaysBeforeYearGrows(a.year + 1, b.year);
      assert Ordinal(a) <= DaysBeforeYear(b.year) < Ordinal(b);
    } else if a.month < b.month {
      DaysBeforeMonthGrows(a.year, a.month, b.month);
    }
  }

  /** The days of month m all come before month m + 1 starts. */
  lemma MonthStep(y: int, m: int)
    requires 1 <= m < 12
    ensures DaysBeforeMonth(y, m) + DaysInMonth(y, m) == DaysBeforeMonth(y, m + 1)
  {
  }

  /** The days of month m1 all come before any later month m2 of the same year starts. */
  lemma {:induction false} DaysBeforeMonthGrows(y: int, m1: int, m2: int)
    requires 1 <= m1 < m2 <= 12
    ensures DaysBeforeMonth(y, m1) + DaysInMonth(y, m1) <= DaysBeforeMonth(y, m2)
    decreases m2 - m1
  {
    MonthStep(y, m1);
    if m1 + 1 < m2 {
      DaysBeforeMonthGrows(y, m1 + 1, m2);
    }
  }

  /** Comparing dates agrees with comparing their day numbers. */
  lemma OrdinalOrder(a: Date, b: Date)
    requires ValidDate(a) && ValidDate(b)
    ensures LessEq(a, b) <==> Ordinal(a) <= Ordinal(b)
  {
    if LessEq(a, b) && a != b {
      OrdinalStrictlyIncreasing(a, b);
    } else if !LessEq(a, b) {
      OrdinalStrictlyIncreasing(b, a);
    }
  }

  /** Distinct valid dates have distinct day numbers. */
  lemma OrdinalInjective(a: Date, b: Date)
    requires ValidDate(a) && ValidDate(b)
    requires Ordinal(a) == Ordinal(b)
    ensures a == b
  {
    if a != b {
      if LessEq(a, b) {
        OrdinalStrictlyIncreasing(a, b);
      } else {
        OrdinalStrictlyIncreasing(b, a);
      }
    }
  }

  /** Stepping one day forward moves the weekday one place on, Sunday wrapping to Monday. */
  lemma WeekdayOfNext(d: Date)
    requires ValidDate(d)
    ensures Weekday(Next(d)) == (Weekday(d) + 1) % 7
  {
    ModSevenStep(Ordinal(d) + 6);
  }

  lemma ModSevenStep(o: int)
    ensures (o + 1) % 7 == (o % 7 + 1) % 7
  {
    var q, r := o / 7, o % 7;
    if r == 6 {
      assert o + 1 == 7 * (q + 1);
    } else {
      assert o + 1 == 7 * q + (r + 1);
    }
  }
}
