# Realistic sales data generator — Dafny model

This project models the core of `generate_realistic_data.py`, a script that
builds a list of dummy sales records. There is one record per transaction for
every day from 2022-01-01 to 2025-12-31, with 27 to 30 transactions a day.

For each transaction the script does the following:

- It picks a region by weight, a sales person and a product, and draws a base
  price from the product's price range.
- It multiplies the base price by four factors and truncates the result to an
  integer unit price:
  - a seasonal factor by month;
  - a weekday factor;
  - a linear growth trend over the four years;
  - the person's performance factor.
- It draws a quantity from 1 to 5 and stores the total, the weekday, the month
  and the quarter.

The model has five modules:

- `Calendar` (`calendar.dfy`) covers the parts of Python's `datetime` that the
  generator uses on a proleptic Gregorian date:
  - `toordinal` as `Ordinal`;
  - `weekday()` as `Weekday`;
  - `+ timedelta(days=1)` as `Next`;
  - `<=` as `LessEq`;
  - the date k steps on as `DateAfter`.
- `WeightedChoice` (`weighted_choice.dfy`) is `random.choices(population,
  weights)[0]` as CPython computes it. It accumulates the weights and then runs
  `bisect_right` over all running totals except the last, using the scaled draw
  `random() * total`.
- `SalesConfig` (`sales_config.dfy`) holds the date range and the lookup tables
  as one `Tables` value:
  - `DefaultTables` holds the script's own constants.
  - `ValidTables` states what the script needs of the tables: non-empty
    lists, keys that are present, price ranges with min <= max, and region
    weights with a positive total. It adds what the record guarantees need:
    positive factors and minimum prices, and a listed category per product.
- `Factors` (`factors.dfy`) has the seasonal, weekday and trend factors.
- `Generator` (`generator.dfy`) has the record, the per-transaction computation
  and the generated list:
  - `SalesData` is the list as a value: the records of each day, day after day.
  - `GenerateSalesData` is the script's loops. It is a `while` loop over dates
    that calls `AppendDayRecords`, the inner `for` loop over one day's
    transactions. It is proved to produce exactly `SalesData`.

Every call into `random` becomes an explicit draw passed in by the caller. A
precondition bounds each draw to the range the call can return:

- `randint(27, 30)`;
- the index that `choice` picks;
- `randint(min, max)` over the product's range;
- `randint(1, 5)`;
- `random() * total`, restricted to [0, total).

Prices are exact reals. `int()` is truncation toward zero.

The script compares `datetime` values whose time of day is always midnight.
Such comparisons agree with comparing the dates alone, so the model uses
`(year, month, day)` values.

The trend is modelled as the code writes it, `1.0 + (growth * days) / total`.
Over exact reals this equals `1.0 + growth * (days / total)`.

## Model

| member | source | states |
|---|---|---|
| Calendar.DaysInMonth | generate_realistic_data.py:164 | every month has between 28 and 31 days |
| Calendar.DaysBeforeMonth | generate_realistic_data.py:105 | the days of a year before the first of a month number between 0 and 335 |
| Calendar.MonthStep | generate_realistic_data.py:164 | month m+1 starts right after the last day of month m |
| Calendar.DaysBeforeMonthGrows | generate_realistic_data.py:118 | every day of a month comes before any later month of the same year starts |
| Calendar.Ordinal | generate_realistic_data.py:105-106 | computes `toordinal()`, whose differences are the `.days` of a date subtraction; OrdinalOrder, OrdinalInjective and Next state its properties |
| Calendar.LessEq | generate_realistic_data.py:118 | computes the date comparison of the loop guard; OrdinalOrder states that it agrees with the day numbers |
| Calendar.Weekday | generate_realistic_data.py:87 | `date.weekday()` is an index from 0 (Monday) to 6 |
| Calendar.Next | generate_realistic_data.py:164 | adding one day gives a valid date whose day number is one greater, and the new date compares strictly later |
| Calendar.DateAfter | generate_realistic_data.py:116-118 | k single-day steps from a valid date give a valid date exactly k day numbers later |
| Calendar.DaysBeforeYearStep | generate_realistic_data.py:164 | the day count before year y+1 exceeds the count before year y by the length of year y, leap years included |
| Calendar.OrdinalStrictlyIncreasing | generate_realistic_data.py:105 | a date strictly earlier in the calendar has a strictly smaller day number |
| Calendar.OrdinalOrder | generate_realistic_data.py:118 | `a <= b` on dates holds exactly when a's day number is at most b's |
| Calendar.OrdinalInjective | generate_realistic_data.py:105 | two valid dates with the same day number are the same date |
| Calendar.WeekdayOfNext | generate_realistic_data.py:164 | moving one day forward moves the weekday one place on, with Sunday wrapping to Monday |
| WeightedChoice.Accumulate | generate_realistic_data.py:124 | the running fold of `itertools.accumulate` gives, at index i, the sum of weights 0..i; over non-negative weights the totals never decrease |
| WeightedChoice.BisectRight | generate_realistic_data.py:124 | `bisect_right`'s binary search on a sorted range returns the index that splits it: every entry before it is <= x and every entry from it on exceeds x |
| WeightedChoice.Choose | generate_realistic_data.py:124 | for a draw in [0, total) the chosen index is in range and its weight is positive |
| WeightedChoice.ChooseInSlice | generate_realistic_data.py:124 | the draw lies in the chosen index's slice [sum of earlier weights, that sum plus its weight) |
| WeightedChoice.ChooseUnique | generate_realistic_data.py:124 | any index whose slice holds the draw is the one chosen, so the slice condition determines the choice |
| WeightedChoice.PrefixSumsMonotone | generate_realistic_data.py:124 | running totals of non-negative weights never decrease |
| SalesConfig.DefaultTables | generate_realistic_data.py:11-64 | holds the script's constant tables; DefaultTablesValid, DefaultRegionWeights and DefaultRegionsAllSelectable state their properties |
| SalesConfig.DefaultRegionWeights | generate_realistic_data.py:19-28 | the weights are 0.08, 0.10, 0.35, 0.15, 0.20, 0.05, 0.03, 0.04 in order and sum to exactly 1 |
| SalesConfig.DefaultTablesValid | generate_realistic_data.py:11-64 | the script's tables satisfy every requirement of generation |
| SalesConfig.DefaultRegionsDistinct | generate_realistic_data.py:13 | the eight region names are pairwise distinct |
| SalesConfig.DefaultPersonsAndProducts | generate_realistic_data.py:31-64 | every person has a positive performance factor; every product has a positive price range with min <= max and a category from the category list |
| SalesConfig.DefaultRegionsAllSelectable | generate_realistic_data.py:13-28 | the regions with a positive weight are exactly the region list |
| SalesConfig.DateRangeSpan | generate_realistic_data.py:11-12 | both ends of the range are valid dates 1460 day numbers apart, and 2022-01-01 is a Saturday |
| Factors.SeasonalFactor | generate_realistic_data.py:67-82 | the factor is 1.4 exactly in December and January, 1.3 exactly in March, 0.8 exactly in July and August, and 1.0 exactly in every other month; it always lies in [0.8, 1.4] |
| Factors.WeekdayFactor | generate_realistic_data.py:85-100 | the factor is 1.1 exactly on Monday, 1.0 exactly Tuesday to Thursday, 1.15 exactly on Friday, and 0.6 exactly at the weekend; it always lies in [0.6, 1.15] |
| Factors.Trend | generate_realistic_data.py:110 | computes `1.0 + growth_rate * days_from_start / total_days`; TrendEndpoints, TrendMonotone and TrendBounds state its properties |
| Factors.TrendEndpoints | generate_realistic_data.py:108-110 | the growth ramp is 1.0 at day 0 and 1.2 at the last day of the span |
| Factors.TrendMonotone | generate_realistic_data.py:110 | over a positive span the ramp never decreases as the day count grows |
| Factors.TrendBounds | generate_realistic_data.py:110 | inside the span the ramp stays between 1.0 and 1.0 plus the growth rate |
| Factors.DaysFromStart | generate_realistic_data.py:105 | a date is in the simulated range exactly when it is 0 to 1460 days from the start |
| Factors.TotalDays | generate_realistic_data.py:106 | the range spans 1460 days |
| Factors.TrendFactor | generate_realistic_data.py:103-110 | for every date in the range the trend factor lies in [1.0, 1.2] |
| Factors.TrendFactorEndpoints | generate_realistic_data.py:103-110 | the trend factor is exactly 1.0 on 2022-01-01 and exactly 1.2 on 2025-12-31 |
| Factors.TrendFactorMonotone | generate_realistic_data.py:103-110 | a later date never has a smaller trend factor |
| Generator.Truncate | generate_realistic_data.py:144 | `int()` rounds toward zero: the result is the largest integer not above a non-negative value, and the smallest not below a negative one |
| Generator.Quarter | generate_realistic_data.py:161 | the quarter q is the one with 3(q-1) < month <= 3q, and it lies in 1..4 for months 1..12 |
| Generator.PriceProduct | generate_realistic_data.py:144 | computes `base_price * seasonal * weekday * trend * person_factor` left to right; PriceProductPositive and DecemberMondayPricing state its properties |
| Generator.PriceProductPositive | generate_realistic_data.py:144 | a positive base price times positive factors is positive |
| Generator.PriceBeforeTruncation | generate_realistic_data.py:139-144 | the product of the drawn base price with the date's seasonal, weekday and trend factors and the person's factor is positive |
| Generator.MakeRecord | generate_realistic_data.py:124-161 | computes one transaction's record, the body of the inner loop; MakeRecordOk states its properties |
| Generator.MakeRecordOk | generate_realistic_data.py:122-162 | every record has a region of positive weight, the drawn person and product, the product's own category, the drawn quantity in 1..5, and a unit price that is the truncated product and is not negative; its total is unit price times quantity, and its weekday, month and quarter match its date |
| Generator.DayRecords | generate_realistic_data.py:120-162 | a day yields exactly its drawn number of records, record i built from transaction draw i, all dated that day |
| Generator.DayDate | generate_realistic_data.py:116-118 | after k loop steps the date is k days after 2022-01-01, and it is still <= 2025-12-31 exactly when k < 1461 |
| Generator.DayDateOrder | generate_realistic_data.py:118 | day dates compare as their step numbers do, and different steps give different dates |
| Generator.DayDateOfRangeDate | generate_realistic_data.py:118 | every date of the range is visited, at step DaysFromStart |
| Generator.FlattenLength | generate_realistic_data.py:120-150 | the flattened list is as long as the sum of the drawn daily counts |
| Generator.TotalTransactionsBounds | generate_realistic_data.py:120 | n days of 27 to 30 transactions give between 27n and 30n transactions |
| Generator.FlattenChronological | generate_realistic_data.py:150-164 | blocks of successive days flatten into a list in date order |
| Generator.FlattenCountOn | generate_realistic_data.py:150-164 | day k of the flattened list holds exactly as many records as block k |
| Generator.DailyRecordsOk | generate_realistic_data.py:118-164 | every block holds records of its own day only, and each of them is well formed |
| Generator.SalesData | generate_realistic_data.py:113-166 | computes the returned `data` as the records of each day, day after day; GenerateSalesData computes it by the loops, and SalesDataSize, SalesDataRecordsOk, SalesDataChronological and SalesDataPerDay state its properties |
| Generator.SalesDataSize | generate_realistic_data.py:118-122 | the list holds one record per drawn transaction, between 39447 and 43830 in all |
| Generator.DecemberMonday | generate_realistic_data.py:87-91 | 2022-12-05 is a Monday in December inside the range |
| Generator.DecemberMondayPricing | generate_realistic_data.py:139-144 | on any Monday in December the unit price is the truncated product of the base price, 1.4, 1.1, the trend factor and the person's factor |
| Generator.SalesDataRecordsOk | generate_realistic_data.py:113-166 | every record of the generated list is well formed in the sense of MakeRecordOk |
| Generator.SalesDataChronological | generate_realistic_data.py:113-166 | the generated list is in date order |
| Generator.SalesDataPerDay | generate_realistic_data.py:113-166 | each date of the range has exactly the number of records drawn for it, and no date is missed |
| Generator.DailyRecordsStep | generate_realistic_data.py:150-164 | one more loop iteration appends exactly that day's records |
| Generator.AppendDayRecords | generate_realistic_data.py:122-162 | the inner loop appends the day's records, in draw order, to the list it was given |
| Generator.GenerateSalesData | generate_realistic_data.py:113-166 | the day-by-day loop ends and returns exactly `SalesData`, the records of every day of the range in order |

## Left out

- `save_to_csv` (generate_realistic_data.py:169-180) is left out. It is file output through `csv.DictWriter` plus a console message.
- `print_summary` (generate_realistic_data.py:183-195) is left out because it only prints. It divides by the record count, which would fail on an empty list. `SalesDataSize` shows the generated list always holds at least 39447 records.
- The `__main__` block (generate_realistic_data.py:198-223) is left out. It resolves a path under the home directory, prints, and calls the two functions above.
- `strftime` formatting (generate_realistic_data.py:151, 159) is not modelled. A record keeps its date as a `Date` value and the weekday as an index, Monday = 0. The CSV shows the ISO date and the English day name.
- IEEE-754 arithmetic is not modelled. The model computes the factors, the trend division and the price product as exact reals. Python's float rounding can change a truncated price by one where the exact product sits at an integer boundary.
- Distributions are not modelled: the uniformity of `random.choice` and `random.randint`, and the weighted proportions of `random.choices`. The draws are inputs, constrained only to the values each call can return.
- `datetime.MAXYEAR` is not modelled. `Next` never overflows in the model; the script's range ends in 2025, far from that limit.
- Generator.GenerateSalesData: the tables are a parameter rather than module globals. The draws come grouped per day, in the order the script makes them within a day: the count, then per transaction the region, person, product, base price and quantity. The method's contract is equality with `SalesData`; the properties of that list are proved in `SalesDataSize`, `SalesDataRecordsOk`, `SalesDataChronological` and `SalesDataPerDay`.
- The script's list is mutated in place by `data.append` (generate_realistic_data.py:150). In the model it is a `seq` value that each loop iteration extends and reassigns.
