/**
 * The sales-record generator. Every random call of the source becomes an
 * explicit draw handed in by the caller, with the range the call can
 * produce as a precondition: a per-day transaction count, and per
 * transaction a scaled region draw, a person index, a product index, a base
 * price and a quantity. With the draws fixed, the generated list is one
 * deterministic value (`SalesData`), and `GenerateSalesData` computes it with
 * the source's day-by-day `while` loop and per-transaction `for` loop.
 */
module Generator {
  import opened Calendar
  import opened WeightedChoice
  import opened SalesConfig
  import opened Factors

  const MIN_TRANSACTIONS: int := 27
  const MAX_TRANSACTIONS: int := 30
  const MIN_QUANTITY: int := 1
  const MAX_QUANTITY: int := 5
  /** Number of days from START_DATE to END_DATE, both included. */
  const DAY_COUNT: int := 1461

  /** The random draws of one transaction. */
  datatype TransactionDraw = TransactionDraw(
    regionDraw: real,   // random() * total weight, inside random.choices
    personIndex: int,   // the index random.choice(PERSONS) picks
    productIndex: int,  // the index random.choice(PRODUCTS) picks
    basePrice: int,     // random.randint(min, max) over the product's range
    quantity: int)      // random.randint(1, 5)

  /** The random draws of one day: randint(27, 30), then that many transactions. */
  datatype DayDraw = DayDraw(numTransactions: int, transactions: seq<TransactionDraw>)

  datatype SalesRecord = SalesRecord(
    date: Date,
    region: string,
    person: string,
    product: string,
    category: string,
    quantity: int,
    unitPrice: int,
    totalSales: int,
    dayOfWeek: int,  // Monday = 0; the CSV shows its English name
    month: int,
    quarter: int)

  /** Each draw lies in the range its random call produces. */
  predicate ValidTransactionDraw(t: Tables, x: TransactionDraw)
    requires ValidTables(t)
  {
    && 0.0 <= x.regionDraw < Sum(RegionWeightValues(t))
    && 0 <= x.personIndex < |t.persons|
    && 0 <= x.productIndex < |t.products|
    && t.productPrices[t.products[x.productIndex]].min <= x.basePrice
    && x.basePrice <= t.productPrices[t.products[x.productIndex]].max
    && MIN_QUANTITY <= x.quantity <= MAX_QUANTITY
  }

  predicate ValidDayDraw(t: Tables, dd: DayDraw)
    requires ValidTables(t)
  {
    && MIN_TRANSACTIONS <= dd.numTransactions <= MAX_TRANSACTIONS
    && |dd.transactions| == dd.numTransactions
    && forall i :: 0 <= i < |dd.transactions| ==> ValidTransactionDraw(t, dd.transactions[i])
  }

  predicate ValidDraws(t: Tables, draws: seq<DayDraw>)
    requires ValidTables(t)
  {
    forall k :: 0 <= k < |draws| ==> ValidDayDraw(t, draws[k])
  }

  /** Python's `int(x)` on a real: truncation toward zero. */
  function Truncate(x: real): (n: int)
    ensures x >= 0.0 ==> 0 <= n && n as real <= x < n as real + 1.0
    ensures x < 0.0 ==> n <= 0 && n as real - 1.0 < x <= n as real
  {
    if x >= 0.0 then x.Floor else -((-x).Floor)
  }

  /** The quarter of a month: the q with 3(q-1) < month <= 3q, so 1 to 4 for a real month. */
  function Quarter(month: int): (q: int)
    ensures 3 * (q - 1) < month <= 3 * q
    ensures 1 <= month <= 12 ==> 1 <= q <= 4
  {
    (month - 1) / 3 + 1
  }

  /** What every generated record satisfies, whatever the draws. */
  predicate RecordOk(t: Tables, r: SalesRecord)
    requires ValidTables(t)
  {
    && ValidDate(r.date) && InRange(r.date)
    && r.region in PositiveWeightRegions(t)
    && r.person in t.persons
    && r.product in t.products
    && r.category == t.productCategories[r.product]
    && r.category in t.categories
    && MIN_QUANTITY <= r.quantity <= MAX_QUANTITY
    && r.unitPrice >= 0
    && r.totalSales == r.unitPrice * r.quantity
    && r.dayOfWeek == Weekday(r.date)
    && r.month == r.date.month && 1 <= r.month <= 12
    && r.quarter == Quarter(r.month) && 1 <= r.quarter <= 4
  }

  /** `base_price * seasonal * weekday * trend * person_factor`, multiplied left to right. */
  function PriceProduct(base: real, seasonal: real, weekday: real, trend: real, person: real): real {
    base * seasonal * weekday * trend * person
  }

  /** The price of a transaction before truncation: the base price times all four factors. */
  function PriceBeforeTruncation(t: Tables, d: Date, x: TransactionDraw): (p: real)
    requires ValidTables(t) && ValidDate(d) && InRange(d) && ValidTransactionDraw(t, x)
    ensures p > 0.0
  {
    var base := x.basePrice as real;
    var seasonal := SeasonalFactor(d);
    var weekday := WeekdayFactor(d);
    var trend := TrendFactor(d);
    var person := t.personPerformance[t.persons[x.personIndex]];
    PriceProductPositive(base, seasonal, weekday, trend, person);
    PriceProduct(base, seasonal, weekday, trend, person)
  }

  /** Positive prices and factors give a positive product. */
  lemma PriceProductPositive(base: real, seasonal: real, weekday: real, trend: real, person: real)
    requires base > 0.0 && seasonal > 0.0 && weekday > 0.0 && trend > 0.0 && person > 0.0
    ensures PriceProduct(base, seasonal, weekday, trend, person) > 0.0
  {
    assert base * seasonal > 0.0;
    assert base * seasonal * weekday > 0.0;
    assert base * seasonal * weekday * trend > 0.0;
  }

  /** One transaction's record: the body of the source's inner loop. */
  function MakeRecord(t: Tables, d: Date, x: TransactionDraw): SalesRecord
    requires ValidTables(t) && ValidDate(d) && InRange(d) && ValidTransactionDraw(t, x)
  {
    var region := t.regions[Choose(RegionWeightValues(t), x.regionDraw)];
    var person := t.persons[x.personIndex];
    var product := t.products[x.productIndex];
    var category := t.productCategories[product];
    var finalPrice := Truncate(PriceBeforeTruncation(t, d, x));
    SalesRecord(d, region, person, product, category, x.quantity, finalPrice,
                finalPrice * x.quantity, Weekday(d), d.month, Quarter(d.month))
  }

  /**
   * Every record is well formed: the region is one with a positive weight,
   * the category is the product's, the quantity is in [1, 5], the unit price
   * is the truncated product of base price and factors and is not negative,
   * the total is unit price times quantity, and month and quarter agree.
   */
  lemma MakeRecordOk(t: Tables, d: Date, x: TransactionDraw)
    requires ValidTables(t) && ValidDate(d) && InRange(d) && ValidTransactionDraw(t, x)
    ensures var r := MakeRecord(t, d, x);
      && RecordOk(t, r)
      && r.date == d && r.quantity == x.quantity
      && r.person == t.persons[x.personIndex] && r.product == t.products[x.productIndex]
      && r.unitPrice == Truncate(PriceBeforeTruncation(t, d, x))
  {
    var ri := Choose(RegionWeightValues(t), x.regionDraw);
    assert t.regions[ri] in PositiveWeightRegions(t);
  }

  /** The records of one day, in transaction order. */
  function DayRecords(t: Tables, d: Date, dd: DayDraw): (rs: seq<SalesRecord>)
    requires ValidTables(t) && ValidDate(d) && InRange(d) && ValidDayDraw(t, dd)
    ensures |rs| == dd.numTransactions
    ensures forall i :: 0 <= i < |rs| ==> rs[i] == MakeRecord(t, d, dd.transactions[i])
    ensures forall r :: r in rs ==> r.date == d
  {
    seq(dd.numTransactions, i requires 0 <= i < dd.numTransactions =>
      MakeRecord(t, d, dd.transactions[i]))
  }

  // ---------------------------------------------------------------------------
  // The generated list

  /** Day k of the range, START_DATE being day 0: the date after k loop steps. */
  function DayDate(k: nat): (d: Date)
    ensures ValidDate(d) && Ordinal(d) == Ordinal(START_DATE) + k
    ensures LessEq(START_DATE, d)
    ensures LessEq(d, END_DATE) <==> k < DAY_COUNT
  {
    var d := DateAfter(START_DATE, k);
    DateRangeSpan();
    OrdinalOrder(START_DATE, d);
    OrdinalOrder(d, END_DATE);
    d
  }

  /** Day numbers and dates of the range correspond one to one, in the same order. */
  lemma DayDateOrder(j: nat, k: nat)
    ensures LessEq(DayDate(j), DayDate(k)) <==> j <= k
    ensures DayDate(j) == DayDate(k) <==> j == k
  {
    OrdinalOrder(DayDate(j), DayDate(k));
  }

  /** Every date of the range is day DaysFromStart(e) of it. */
  lemma DayDateOfRangeDate(e: Date)
    requires ValidDate(e) && InRange(e)
    ensures 0 <= DaysFromStart(e) < DAY_COUNT
    ensures DayDate(DaysFromStart(e)) == e
  {
    OrdinalInjective(DayDate(DaysFromStart(e)), e);
  }

  /** The records of each day of the range, day k drawn with draws[k]. */
  function DailyRecords(t: Tables, draws: seq<DayDraw>): seq<seq<SalesRecord>>
    requires ValidTables(t) && |draws| == DAY_COUNT && ValidDraws(t, draws)
  {
    seq(DAY_COUNT, k requires 0 <= k < DAY_COUNT => DayRecords(t, DayDate(k), draws[k]))
  }

  /** The blocks one after the other, as repeated appends build them. */
  function Flatten<T>(blocks: seq<seq<T>>): seq<T> {
    if blocks == [] then [] else Flatten(blocks[..|blocks| - 1]) + blocks[|blocks| - 1]
  }

  /** The whole generated list for the given draws: every day's records, day after day. */
  function SalesData(t: Tables, draws: seq<DayDraw>): seq<SalesRecord>
    requires ValidTables(t) && |draws| == DAY_COUNT && ValidDraws(t, draws)
  {
    Flatten(DailyRecords(t, draws))
  }

  /** Total of the daily transaction counts. */
  function TotalTransactions(draws: seq<DayDraw>): int {
    if draws == [] then 0
    else TotalTransactions(draws[..|draws| - 1]) + draws[|draws| - 1].numTransactions
  }

  /** Number of records dated d. */
  function CountOn(rs: seq<SalesRecord>, d: Date): nat {
    if rs == [] then 0
    else (if rs[0].date == d then 1 else 0) + CountOn(rs[1..], d)
  }

  predicate Chronological(rs: seq<SalesRecord>) {
    forall i, j :: 0 <= i <= j < |rs| ==> LessEq(rs[i].date, rs[j].date)
  }

  /** Block k holds records of day k only. */
  predicate OnTheirDays(blocks: seq<seq<SalesRecord>>) {
    forall k, r :: 0 <= k < |blocks| && r in blocks[k] ==> r.date == DayDate(k)
  }

  // ---------------------------------------------------------------------------
  // Properties of the generated list

  /** Flattening one more block appends that block. */
  lemma FlattenStep<T>(blocks: seq<seq<T>>, n: int)
    requires 0 <= n < |blocks|
    ensures Flatten(blocks[..n + 1]) == Flatten(blocks[..n]) + blocks[n]
  {
    assert blocks[..n + 1][..n] == blocks[..n];
  }

  /** Every element of the flattened list comes from one of the blocks. */
  lemma {:induction false} FlattenMember<T>(blocks: seq<seq<T>>, x: T)
    requires x in Flatten(blocks)
    ensures exists k :: 0 <= k < |blocks| && x in blocks[k]
    decreases |blocks|
  {
    var n := |blocks| - 1;
    if x !in blocks[n] {
      var init := blocks[..n];
      FlattenMember(init, x);
      var k :| 0 <= k < |init| && x in init[k];
      assert init[k] == blocks[k];
    }
  }

  /** The flattened list is as long as the blocks' drawn counts add up to. */
  lemma {:induction false} FlattenLength(blocks: seq<seq<SalesRecord>>, draws: seq<DayDraw>)
    requires |blocks| == |draws|
    requires forall k :: 0 <= k < |blocks| ==> |blocks[k]| == draws[k].numTransactions
    ensures |Flatten(blocks)| == TotalTransactions(draws)
    decreases |blocks|
  {
    if blocks != [] {
      var n := |blocks| - 1;
      FlattenLength(blocks[..n], draws[..n]);
    }
  }

  /** With 27 to 30 transactions a day, the total lies between 27 and 30 per day. */
  lemma {:induction false} TotalTransactionsBounds(t: Tables, draws: seq<DayDraw>)
    requires ValidTables(t) && ValidDraws(t, draws)
    ensures MIN_TRANSACTIONS * |draws| <= TotalTransactions(draws) <= MAX_TRANSACTIONS * |draws|
  {
    if draws != [] {
      var n := |draws| - 1;
      assert ValidDayDraw(t, draws[n]);
      TotalTransactionsBounds(t, draws[..n]);
    }
  }

  /** Ordered records up to day d, followed by records of day d, are in order. */
  lemma ChronologicalAppend(head: seq<SalesRecord>, tail: seq<SalesRecord>, d: Date)
    requires Chronological(head)
    requires forall r :: r in head ==> LessEq(r.date, d)
    requires forall r :: r in tail ==> r.date == d
    ensures Chronological(head + tail)
  {
    var rs := head + tail;
    forall i, j | 0 <= i <= j < |rs|
      ensures LessEq(rs[i].date, rs[j].date)
    {
      if j >= |head| {
        assert rs[j] == tail[j - |head|];
        if i < |head| {
          assert rs[i] in head;
        } else {
          assert rs[i] == tail[i - |head|];
        }
      }
    }
  }

  /** Blocks of successive days flatten to a list in date order. */
  lemma {:induction false} FlattenChronological(blocks: seq<seq<SalesRecord>>)
    requires OnTheirDays(blocks)
    ensures Chronological(Flatten(blocks))
    decreases |blocks|
  {
    if blocks != [] {
      var n := |blocks| - 1;
      var init := blocks[..n];
      assert OnTheirDays(init) by {
        forall k | 0 <= k < n ensures init[k] == blocks[k] { }
      }
      FlattenChronological(init);
      forall r | r in Flatten(init)
        ensures LessEq(r.date, DayDate(n))
      {
        FlattenMember(init, r);
        var k :| 0 <= k < |init| && r in init[k];
        DayDateOrder(k, n);
      }
      ChronologicalAppend(Flatten(init), blocks[n], DayDate(n));
    }
  }

  lemma {:induction false} CountOnAppend(a: seq<SalesRecord>, b: seq<SalesRecord>, d: Date)
    ensures CountOn(a + b, d) == CountOn(a, d) + CountOn(b, d)
    decreases |a|
  {
    if a == [] {
      assert a + b == b;
    } else {
      assert (a + b)[0] == a[0];
      assert (a + b)[1..] == a[1..] + b;
      CountOnAppend(a[1..], b, d);
    }
  }

  /** A list whose records all carry date d has all of them on d and none on any other day. */
  lemma {:induction false} CountOnSameDay(rs: seq<SalesRecord>, d: Date, e: Date)
    requires forall r :: r in rs ==> r.date == d
    ensures CountOn(rs, e) == if e == d then |rs| else 0
  {
    var k := |rs|;
    while k > 0
      invariant 0 <= k <= |rs|
      invariant CountOn(rs[k..], e) == if e == d then |rs| - k else 0
    {
      k := k - 1;
      assert rs[k] in rs;
      assert rs[k..][1..] == rs[k + 1..];
    }
    assert rs[0..] == rs;
  }

  /** A list whose records all fall on some day other than e has none on e. */
  lemma {:induction false} CountOnAbsent(rs: seq<SalesRecord>, e: Date)
    requires forall r :: r in rs ==> r.date != e
    ensures CountOn(rs, e) == 0
    decreases |rs|
  {
    if rs != [] {
      assert forall r :: r in rs[1..] ==> r in rs;
      CountOnAbsent(rs[1..], e);
    }
  }

  /** Day k of the flattened list holds exactly the records of block k. */
  lemma {:induction false} FlattenCountOn(blocks: seq<seq<SalesRecord>>, k: nat)
    requires OnTheirDays(blocks) && k < |blocks|
    ensures CountOn(Flatten(blocks), DayDate(k)) == |blocks[k]|
    decreases |blocks|
  {
    var n := |blocks| - 1;
    var init := blocks[..n];
    var e := DayDate(k);
    assert OnTheirDays(init) by {
      forall j | 0 <= j < n ensures init[j] == blocks[j] { }
    }
    assert Flatten(blocks) == Flatten(init) + blocks[n];
    CountOnAppend(Flatten(init), blocks[n], e);
    DayDateOrder(k, n);
    CountOnSameDay(blocks[n], DayDate(n), e);
    if k == n {
      forall r | r in Flatten(init)
        ensures r.date != e
      {
        FlattenMember(init, r);
        var j :| 0 <= j < |init| && r in init[j];
        DayDateOrder(j, n);
      }
      CountOnAbsent(Flatten(init), e);
      assert CountOn(blocks[n], e) == |blocks[k]|;
    } else {
      FlattenCountOn(init, k);
      assert init[k] == blocks[k];
      assert CountOn(Flatten(init), e) == |blocks[k]| && CountOn(blocks[n], e) == 0;
    }
  }

  /** Every generated record is dated on its own day and is well formed. */
  lemma DailyRecordsOk(t: Tables, draws: seq<DayDraw>)
    requires ValidTables(t) && |draws| == DAY_COUNT && ValidDraws(t, draws)
    ensures OnTheirDays(DailyRecords(t, draws))
    ensures forall k, r :: 0 <= k < DAY_COUNT && r in DailyRecords(t, draws)[k] ==> RecordOk(t, r)
  {
    var blocks := DailyRecords(t, draws);
    forall k, r | 0 <= k < DAY_COUNT && r in blocks[k]
      ensures RecordOk(t, r)
    {
      var i :| 0 <= i < |blocks[k]| && blocks[k][i] == r;
      MakeRecordOk(t, DayDate(k), draws[k].transactions[i]);
    }
  }

  /** For the repository's fixed range the list holds between 39447 and 43830 records. */
  lemma SalesDataSize(t: Tables, draws: seq<DayDraw>)
    requires ValidTables(t) && |draws| == DAY_COUNT && ValidDraws(t, draws)
    ensures |SalesData(t, draws)| == TotalTransactions(draws)
    ensures 39447 <= |SalesData(t, draws)| <= 43830
  {
    FlattenLength(DailyRecords(t, draws), draws);
    TotalTransactionsBounds(t, draws);
  }

  /** 2022-12-05 is a Monday in December inside the range. */
  lemma DecemberMonday()
    ensures var d := Date(2022, 12, 5);
      ValidDate(d) && InRange(d) && d.month == 12 && Weekday(d) == 0
  {
    var d := Date(2022, 12, 5);
    assert Ordinal(d) == 738494;
    DateRangeSpan();
  }

  /**
   * A Monday in December: a record of such a day is priced with the
   * seasonal factor 1.4 and the weekday factor 1.1.
   */
  lemma DecemberMondayPricing(t: Tables, d: Date, x: TransactionDraw)
    requires ValidTables(t) && ValidDate(d) && InRange(d) && ValidTransactionDraw(t, x)
    requires d.month == 12 && Weekday(d) == 0
    ensures MakeRecord(t, d, x).unitPrice ==
      Truncate(PriceProduct(x.basePrice as real, 1.4, 1.1, TrendFactor(d),
                            t.personPerformance[t.persons[x.personIndex]]))
  {
    assert SeasonalFactor(d) == 1.4 && WeekdayFactor(d) == 1.1;
  }

  /** Every record of the generated list is well formed. */
  lemma SalesDataRecordsOk(t: Tables, draws: seq<DayDraw>)
    requires ValidTables(t) && |draws| == DAY_COUNT && ValidDraws(t, draws)
    ensures forall r :: r in SalesData(t, draws) ==> RecordOk(t, r)
  {
    var blocks := DailyRecords(t, draws);
    DailyRecordsOk(t, draws);
    forall r | r in Flatten(blocks)
      ensures RecordOk(t, r)
    {
      FlattenMember(blocks, r);
    }
  }

  /** The generated list is in date order. */
  lemma SalesDataChronological(t: Tables, draws: seq<DayDraw>)
    requires ValidTables(t) && |draws| == DAY_COUNT && ValidDraws(t, draws)
    ensures Chronological(SalesData(t, draws))
  {
    DailyRecordsOk(t, draws);
    FlattenChronological(DailyRecords(t, draws));
  }

  /** Each date of the range holds exactly the number of transactions drawn for it. */
  lemma SalesDataPerDay(t: Tables, draws: seq<DayDraw>)
    requires ValidTables(t) && |draws| == DAY_COUNT && ValidDraws(t, draws)
    ensures forall e :: ValidDate(e) && InRange(e) ==>
      CountOn(SalesData(t, draws), e) == draws[DaysFromStart(e)].numTransactions
  {
    var blocks := DailyRecords(t, draws);
    DailyRecordsOk(t, draws);
    forall e | ValidDate(e) && InRange(e)
      ensures CountOn(Flatten(blocks), e) == draws[DaysFromStart(e)].numTransactions
    {
      var k := DaysFromStart(e);
      DayDateOfRangeDate(e);
      assert |blocks[k]| == draws[k].numTransactions;
      FlattenCountOn(blocks, k);
    }
  }

  // ---------------------------------------------------------------------------
  // The generator

  /** Day k + 1 of the range is the day after day k. */
  lemma DayDateNext(k: nat)
    ensures DayDate(k + 1) == Next(DayDate(k))
  {
  }

  /** Flattening the blocks of days 0..k appends day k's records to those of days 0..k-1. */
  lemma DailyRecordsStep(t: Tables, draws: seq<DayDraw>, k: nat)
    requires ValidTables(t) && |draws| == DAY_COUNT && ValidDraws(t, draws) && k < DAY_COUNT
    ensures Flatten(DailyRecords(t, draws)[..k + 1])
         == Flatten(DailyRecords(t, draws)[..k]) + DayRecords(t, DayDate(k), draws[k])
  {
    FlattenStep(DailyRecords(t, draws), k);
  }

  /** Flattening the prefix of every block is flattening all of them. */
  lemma FlattenWhole<T>(blocks: seq<seq<T>>)
    ensures Flatten(blocks[..|blocks|]) == Flatten(blocks)
  {
    assert blocks[..|blocks|] == blocks;
  }

  /** Appending element i to a list holding the first i elements gives the first i + 1. */
  lemma AppendNext(before: seq<SalesRecord>, s: seq<SalesRecord>, i: int)
    requires 0 <= i < |s|
    ensures before + s[..i] + [s[i]] == before + s[..i + 1]
  {
    assert s[..i + 1] == s[..i] + [s[i]];
  }

  /**
   * The inner loop of `generate_sales_data`: appends one record per drawn
   * transaction of day d, in draw order.
   */
  method AppendDayRecords(t: Tables, d: Date, dayDraw: DayDraw, data: seq<SalesRecord>)
      returns (result: seq<SalesRecord>)
    requires ValidTables(t) && ValidDate(d) && InRange(d) && ValidDayDraw(t, dayDraw)
    ensures result == data + DayRecords(t, d, dayDraw)
  {
    result := data;
    ghost var todays := DayRecords(t, d, dayDraw);
    for i := 0 to dayDraw.numTransactions
      invariant result == data + todays[..i]
    {
      result := result + [MakeRecord(t, d, dayDraw.transactions[i])];
      AppendNext(data, todays, i);
    }
    assert todays[..dayDraw.numTransactions] == todays;
  }

  /**
   * Walks the calendar from START_DATE to END_DATE one day at a time and
   * appends each day's records, as `generate_sales_data` does.
   */
  method GenerateSalesData(t: Tables, draws: seq<DayDraw>) returns (data: seq<SalesRecord>)
    requires ValidTables(t) && |draws| == DAY_COUNT && ValidDraws(t, draws)
    ensures data == SalesData(t, draws)
  {
    data := [];
    var currentDate := START_DATE;
    var day := 0;
    while LessEq(currentDate, END_DATE)
      invariant 0 <= day <= DAY_COUNT && currentDate == DayDate(day)
      invariant data == Flatten(DailyRecords(t, draws)[..day])
      decreases DAY_COUNT - day
    {
      data := AppendDayRecords(t, currentDate, draws[day], data);
      DailyRecordsStep(t, draws, day);
      DayDateNext(day);
      currentDate := Next(currentDate);
      day := day + 1;
    }
    FlattenWhole(DailyRecords(t, draws));
  }
}
