/**
 * The multiplicative price factors that depend on the date: a seasonal
 * factor by calendar month, a weekday factor, and a linear growth trend over
 * the simulated range. The source's decimal constants are exact reals here.
 */
module Factors {
  import opened Calendar
  import opened SalesConfig

  /** Year-end and new-year boost, the March rush, the quiet summer, 1.0 otherwise. */
  function SeasonalFactor(d: Date): (f: real)
    ensures f == 1.4 <==> d.month == 12 || d.month == 1
    ensures f == 1.3 <==> d.month == 3
    ensures f == 0.8 <==> d.month == 7 || d.month == 8
    ensures f == 1.0 <==> !(d.month in {12, 1, 3, 7, 8})
    ensures 0.8 <= f <= 1.4
  {
    var month := d.month;
    if month == 12 || month == 1 then 1.4
    else if month == 3 then 1.3
    else if month == 7 || month == 8 then 0.8
    else 1.0
  }

  /** Busy Monday, ordinary Tuesday to Thursday, busy Friday, slow weekend. */
  function WeekdayFactor(d: Date): (f: real)
    requires ValidDate(d)
    ensures f == 1.1 <==> Weekday(d) == 0
    ensures f == 1.0 <==> 1 <= Weekday(d) <= 3
    ensures f == 1.15 <==> Weekday(d) == 4
    ensures f == 0.6 <==> Weekday(d) == 5 || Weekday(d) == 6
    ensures 0.6 <= f <= 1.15
  {
    var weekday := Weekday(d);
    if weekday == 0 then 1.1
    else if weekday in {1, 2, 3} then 1.0
    else if weekday == 4 then 1.15
    else 0.6
  }

  const GROWTH_RATE: real := 0.20

  /**
   * The linear growth ramp `1.0 + growth_rate * days_from_start / total_days`.
   * A zero span is a division by zero in the source, hence the precondition.
   */
  function Trend(daysFromStart: int, totalDays: int): (f: real)
    requires totalDays != 0
  {
    1.0 + (GROWTH_RATE * daysFromStart as real) / totalDays as real
  }

  /** The ramp starts at exactly 1.0 and ends at exactly 1.0 plus the growth rate. */
  lemma TrendEndpoints(totalDays: int)
    requires totalDays != 0
    ensures Trend(0, totalDays) == 1.0
    ensures Trend(totalDays, totalDays) == 1.2
  {
  }

  /** Over a positive span the ramp never falls as the day count grows. */
  lemma TrendMonotone(a: int, b: int, totalDays: int)
    requires totalDays > 0 && a <= b
    ensures Trend(a, totalDays) <= Trend(b, totalDays)
  {
    var t := totalDays as real;
    assert GROWTH_RATE * a as real <= GROWTH_RATE * b as real;
    assert (GROWTH_RATE * a as real) / t <= (GROWTH_RATE * b as real) / t;
  }

  /** Inside the span the ramp stays between its two endpoint values. */
  lemma TrendBounds(daysFromStart: int, totalDays: int)
    requires totalDays > 0
    ensures 0 <= daysFromStart <= totalDays ==>
      1.0 <= Trend(daysFromStart, totalDays) <= 1.0 + GROWTH_RATE
  {
    if 0 <= daysFromStart <= totalDays {
      TrendEndpoints(totalDays);
      TrendMonotone(0, daysFromStart, totalDays);
      TrendMonotone(daysFromStart, totalDays, totalDays);
    }
  }

  /** Days from START_DATE to d, as `(d - START_DATE).days`. */
  function DaysFromStart(d: Date): (n: int)
    requires ValidDate(d)
    ensures InRange(d) <==> 0 <= n <= 1460
  {
    DateRangeSpan();
    OrdinalOrder(START_DATE, d);
    OrdinalOrder(d, END_DATE);
    Ordinal(d) - Ordinal(START_DATE)
  }

  /** Days from START_DATE to END_DATE. */
  function TotalDays(): (n: int)
    ensures n == 1460
  {
    DateRangeSpan();
    Ordinal(END_DATE) - Ordinal(START_DATE)
  }

  /** The trend factor of a date: 1.0 on START_DATE, growing linearly to 1.2 on END_DATE. */
  function TrendFactor(d: Date): (f: real)
    requires ValidDate(d)
    ensures InRange(d) ==> 1.0 <= f <= 1.2
  {
    TrendBounds(DaysFromStart(d), TotalDays());
    Trend(DaysFromStart(d), TotalDays())
  }

  /** The trend factor is exactly 1.0 on the first day and 1.2 on the last. */
  lemma TrendFactorEndpoints()
    ensures TrendFactor(START_DATE) == 1.0
    ensures TrendFactor(END_DATE) == 1.2
  {
    DateRangeSpan();
    TrendEndpoints(TotalDays());
  }

  /** A later date never has a smaller trend factor. */
  lemma TrendFactorMonotone(a: Date, b: Date)
    requires ValidDate(a) && ValidDate(b)
    requires LessEq(a, b)
    ensures TrendFactor(a) <= TrendFactor(b)
  {
    OrdinalOrder(a, b);
    TrendMonotone(DaysFromStart(a), DaysFromStart(b), TotalDays());
  }
}
