/**
 * The generator's fixed configuration: the simulated date range and the
 * lookup tables of regions, sales persons and products. The tables are a
 * value (`Tables`) handed to the generator; `DefaultTables` holds the
 * repository's own constants and `ValidTables` states what the generator
 * relies on them for.
 */
module SalesConfig {
  import opened Calendar
  import opened WeightedChoice

  const START_DATE: Date := Date(2022, 1, 1)
  const END_DATE: Date := Date(2025, 12, 31)

  /** The date lies in the simulated range, both ends included. */
  predicate InRange(d: Date) {
    LessEq(START_DATE, d) && LessEq(d, END_DATE)
  }

  /** Smallest and largest base price of a product, both inclusive. */
  datatype PriceRange = PriceRange(min: int, max: int)

  datatype Tables = Tables(
    regions: seq<string>,
    // An insertion-ordered dictionary: region name and its selection weight.
    regionWeights: seq<(string, real)>,
    persons: seq<string>,
    personPerformance: map<string, real>,
    products: seq<string>,
    productPrices: map<string, PriceRange>,
    categories: seq<string>,
    productCategories: map<string, string>)

  /** The weights in dictionary order, as `list(REGION_WEIGHTS.values())`. */
  function RegionWeightValues(t: Tables): seq<real> {
    seq(|t.regionWeights|, i requires 0 <= i < |t.regionWeights| => t.regionWeights[i].1)
  }

  /**
   * What the script needs of the tables, plus what the record guarantees
   * need. The script needs non-empty lists to choose from, every key it looks
   * up present, a price range with min <= max for `randint`, and
   * non-negative region weights with a positive total for `random.choices`.
   * The weight dictionary lists exactly the regions in the same order, since
   * the script pairs weights with regions by position; its keys are distinct
   * as a dictionary's keys are, hence so are the region names. The record
   * guarantees add positive performance factors and a positive minimum price,
   * which make the unit price non-negative, and a listed category for every
   * product.
   */
  predicate ValidTables(t: Tables) {
    && |t.regions| > 0
    && |t.regionWeights| == |t.regions|
    && (forall i :: 0 <= i < |t.regions| ==> t.regionWeights[i].0 == t.regions[i])
    && (forall i, j :: 0 <= i < j < |t.regions| ==> t.regions[i] != t.regions[j])
    && NonNegative(RegionWeightValues(t))
    && Sum(RegionWeightValues(t)) > 0.0
    && |t.persons| > 0
    && (forall i :: 0 <= i < |t.persons| ==>
          t.persons[i] in t.personPerformance && t.personPerformance[t.persons[i]] > 0.0)
    && |t.products| > 0
    && (forall i :: 0 <= i < |t.products| ==>
          t.products[i] in t.productPrices && 0 < t.productPrices[t.products[i]].min <= t.productPrices[t.products[i]].max)
    && (forall i :: 0 <= i < |t.products| ==>
          t.products[i] in t.productCategories && t.productCategories[t.products[i]] in t.categories)
  }

  /** The regions whose weight in the weight dictionary is positive. */
  function PositiveWeightRegions(t: Tables): set<string>
    requires |t.regionWeights| == |t.regions|
  {
    set i | 0 <= i < |t.regions| && t.regionWeights[i].1 > 0.0 :: t.regions[i]
  }

  function DefaultTables(): Tables {
    Tables(
      ["北海道", "東北", "関東", "中部", "近畿", "中国", "四国", "九州"],
      [("北海道", 0.08), ("東北", 0.10), ("関東", 0.35), ("中部", 0.15),
       ("近畿", 0.20), ("中国", 0.05), ("四国", 0.03), ("九州", 0.04)],
      ["田中太郎", "佐藤花子", "鈴木一郎", "高橋美咲", "伊藤健太",
       "渡辺さくら", "山本大輔", "中村愛", "小林直樹", "加藤美穂"],
      map["田中太郎" := 1.3, "佐藤花子" := 1.2, "鈴木一郎" := 1.0, "高橋美咲" := 1.1,
          "伊藤健太" := 0.9, "渡辺さくら" := 1.15, "山本大輔" := 0.85, "中村愛" := 1.05,
          "小林直樹" := 1.25, "加藤美穂" := 0.95],
      ["製品A", "製品B", "製品C", "製品D", "製品E", "サービスX", "サービスY"],
      map["製品A" := PriceRange(30000, 50000), "製品B" := PriceRange(50000, 80000),
          "製品C" := PriceRange(20000, 40000), "製品D" := PriceRange(60000, 100000),
          "製品E" := PriceRange(15000, 30000), "サービスX" := PriceRange(100000, 200000),
          "サービスY" := PriceRange(80000, 150000)],
      ["サブスク", "単発", "追加オプション", "保守", "その他"],
      map["製品A" := "サブスク", "製品B" := "単発", "製品C" := "サブスク",
          "製品D" := "単発", "製品E" := "追加オプション", "サービスX" := "保守",
          "サービスY" := "保守"])
  }

  /** The repository's region weights, in dictionary order, total exactly 1. */
  lemma DefaultRegionWeights()
    ensures RegionWeightValues(DefaultTables()) == [0.08, 0.10, 0.35, 0.15, 0.20, 0.05, 0.03, 0.04]
    ensures Sum(RegionWeightValues(DefaultTables())) == 1.0
  {
    var w := RegionWeightValues(DefaultTables());
    assert w == [0.08, 0.10, 0.35, 0.15, 0.20, 0.05, 0.03, 0.04];
    assert Sum(w[..1]) == 0.08 by { assert w[..1][..0] == []; }
    assert Sum(w[..2]) == 0.18 by { assert w[..2][..1] == w[..1]; }
    assert Sum(w[..3]) == 0.53 by { assert w[..3][..2] == w[..2]; }
    assert Sum(w[..4]) == 0.68 by { assert w[..4][..3] == w[..3]; }
    assert Sum(w[..5]) == 0.88 by { assert w[..5][..4] == w[..4]; }
    assert Sum(w[..6]) == 0.93 by { assert w[..6][..5] == w[..5]; }
    assert Sum(w[..7]) == 0.96 by { assert w[..7][..6] == w[..6]; }
    assert w[..8] == w;
  }

  /** The repository's own tables meet every requirement. */
  lemma DefaultTablesValid()
    ensures ValidTables(DefaultTables())
  {
    var t := DefaultTables();
    DefaultRegionWeights();
    DefaultRegionsDistinct();
    DefaultPersonsAndProducts();
  }

  lemma DefaultRegionsDistinct()
    ensures forall i, j :: 0 <= i < j < |DefaultTables().regions| ==>
      DefaultTables().regions[i] != DefaultTables().regions[j]
  {
  }

  lemma DefaultPersonsAndProducts()
    ensures var t := DefaultTables();
      && (forall i :: 0 <= i < |t.persons| ==>
            t.persons[i] in t.personPerformance && t.personPerformance[t.persons[i]] > 0.0)
      && (forall i :: 0 <= i < |t.products| ==>
            t.products[i] in t.productPrices && 0 < t.productPrices[t.products[i]].min <= t.productPrices[t.products[i]].max)
      && (forall i :: 0 <= i < |t.products| ==>
            t.products[i] in t.productCategories && t.productCategories[t.products[i]] in t.categories)
  {
  }

  /** Every one of the repository's regions has a positive weight, so each can be selected. */
  lemma DefaultRegionsAllSelectable()
    ensures PositiveWeightRegions(DefaultTables()) == set r | r in DefaultTables().regions
  {
    DefaultRegionWeights();
  }

  /** Day numbers of the two ends of the range: 1460 days apart, so 1461 days in all. */
  lemma DateRangeSpan()
    ensures ValidDate(START_DATE) && ValidDate(END_DATE)
    ensures Ordinal(START_DATE) == 738156
    ensures Ordinal(END_DATE) == 739616
    ensures Ordinal(END_DATE) - Ordinal(START_DATE) == 1460
    ensures Weekday(START_DATE) == 5
  {
  }
}
