/** The HEDIS gap analyser page: the measure catalog, the portfolio overview
    aggregates, the measure overview with its three-way status, and the gap
    analysis with its four improvement scenarios and star impact. Rates,
    gaps and money are `real`; Python's `round` gives an `int`. */
module HedisAnalyzer {
  import opened Rounding

  /** One HEDIS measure with its current performance. */
  datatype HedisMeasure = HedisMeasure(
    code: string,
    name: string,
    category: string,
    currentRate: real,
    benchmark: real,
    nationalAvg: real,
    weight: string,
    starImpact: real,
    roiPerPoint: real,
    population: nat,
    difficulty: string)

  /** The seven measures, in the catalog's (insertion) order. */
  const Measures: seq<HedisMeasure> := [
    HedisMeasure("CCS", "Colorectal Cancer Screening", "Preventive Care",
      67.3, 75.0, 70.2, "High", 0.5, 125000.0, 8450, "Medium"),
    HedisMeasure("HBD", "Hemoglobin A1c Control for Diabetes", "Diabetes Care",
      58.2, 70.0, 64.5, "High", 0.6, 95000.0, 5230, "High"),
    HedisMeasure("MAD", "Medication Adherence - Diabetes", "Medication Management",
      71.5, 80.0, 75.8, "Medium", 0.4, 110000.0, 4890, "Low"),
    HedisMeasure("BCS", "Breast Cancer Screening", "Preventive Care",
      73.8, 78.0, 76.2, "High", 0.5, 105000.0, 6720, "Low"),
    HedisMeasure("CBP", "Controlling High Blood Pressure", "Chronic Disease Management",
      62.4, 72.0, 68.1, "High", 0.7, 140000.0, 7650, "Medium"),
    HedisMeasure("OMW", "Osteoporosis Management in Women", "Chronic Disease Management",
      55.6, 68.0, 62.3, "Medium", 0.3, 85000.0, 3420, "High"),
    HedisMeasure("COL", "Follow-Up After ED Visit - Mental Health", "Care Coordination",
      48.9, 65.0, 58.7, "Medium", 0.4, 75000.0, 2180, "High")
  ]

  /** The position of the first measure with `code`, or -1 when there is none
      (a dictionary lookup that would raise). */
  function IndexOf(s: seq<HedisMeasure>, code: string): (i: int)
    ensures -1 <= i < |s|
    ensures i >= 0 ==> s[i].code == code
    ensures forall j :: 0 <= j < |s| && (i < 0 || j < i) ==> s[j].code != code
  {
    if s == [] then -1
    else if s[0].code == code then 0
    else
      var k := IndexOf(s[1..], code);
      if k < 0 then -1 else k + 1
  }

  // ---------------------------------------------------------------------
  // Gap and status
  // ---------------------------------------------------------------------

  /** Percentage points to the benchmark; negative once the benchmark is
      exceeded (no floor). */
  function Gap(m: HedisMeasure): real
  {
    m.benchmark - m.currentRate
  }

  datatype Status = ExceedingBenchmark | AboveNationalAverage | BelowNationalAverage

  /** The status card, tested in order: benchmark first, then the national
      average. */
  function StatusOf(m: HedisMeasure): (st: Status)
    ensures st == ExceedingBenchmark <==> m.currentRate >= m.benchmark
    ensures st == AboveNationalAverage <==> m.currentRate < m.benchmark && m.currentRate >= m.nationalAvg
    ensures st == BelowNationalAverage <==> m.currentRate < m.benchmark && m.currentRate < m.nationalAvg
  {
    if m.currentRate >= m.benchmark then ExceedingBenchmark
    else if m.currentRate >= m.nationalAvg then AboveNationalAverage
    else BelowNationalAverage
  }

  /** A measure is shown as exceeding its benchmark exactly when its gap is
      not positive. */
  lemma ExceedingIffNoGap(m: HedisMeasure)
    ensures StatusOf(m) == ExceedingBenchmark <==> Gap(m) <= 0.0
  {
  }

  /** The statuses of the shipped catalog: every measure is below its
      benchmark and below the national average. */
  lemma CatalogStatuses()
    ensures forall i :: 0 <= i < |Measures| ==> StatusOf(Measures[i]) == BelowNationalAverage && Gap(Measures[i]) > 0.0
  {
  }

  /** What the measure overview shows. */
  datatype Overview =
    | NoOverview
    | UnknownMeasure
    | Details(measure: HedisMeasure, gap: real, status: Status)

  /** The measure overview: nothing for an empty selection, a failed lookup
      for a code that is not in the catalog, else the gap and status. */
  function MeasureOverview(code: string): (r: Overview)
    ensures code == "" <==> r == NoOverview
    ensures r == UnknownMeasure <==> code != "" && forall i :: 0 <= i < |Measures| ==> Measures[i].code != code
    ensures r.Details? ==>
      r.measure in Measures && r.measure.code == code
      && r.gap == r.measure.benchmark - r.measure.currentRate && r.status == StatusOf(r.measure)
  {
    if code == "" then NoOverview
    else
      var i := IndexOf(Measures, code);
      if i < 0 then UnknownMeasure
      else Details(Measures[i], Gap(Measures[i]), StatusOf(Measures[i]))
  }

  // ---------------------------------------------------------------------
  // Gap analysis
  // ---------------------------------------------------------------------

  datatype Level = Conservative | Moderate | Aggressive | FullClosure

  /** One improvement scenario card. */
  datatype Scenario = Scenario(
    level: Level,
    improvement: real,
    newRate: real,
    revenue: int,
    effort: string,
    timeline: string)

  /** The four scenario cards, always in this order: 1, 3 and 5 points and
      the full gap. */
  function Scenarios(m: HedisMeasure): (r: seq<Scenario>)
    ensures |r| == 4
    ensures r[0].level == Conservative && r[0].improvement == 1.0
    ensures r[1].level == Moderate && r[1].improvement == 3.0
    ensures r[2].level == Aggressive && r[2].improvement == 5.0
    ensures r[3].level == FullClosure && r[3].improvement == Gap(m) && r[3].newRate == m.benchmark
    ensures forall i :: 0 <= i < 4 ==> r[i].newRate == m.currentRate + r[i].improvement
    ensures forall i :: 0 <= i < 4 ==> r[i].revenue == ScenarioRevenue(m, r[i].improvement)
  {
    var gap := Gap(m);
    [
      Scenario(Conservative, 1.0, m.currentRate + 1.0, ScenarioRevenue(m, 1.0), "Low", "3-6 months"),
      Scenario(Moderate, 3.0, m.currentRate + 3.0, ScenarioRevenue(m, 3.0), "Medium", "6-9 months"),
      Scenario(Aggressive, 5.0, m.currentRate + 5.0, ScenarioRevenue(m, 5.0), "High", "9-12 months"),
      Scenario(FullClosure, gap, m.benchmark, ScenarioRevenue(m, gap), "Very High", "12-18 months")
    ]
  }

  /** The revenue of an improvement: revenue per point times the points,
      rounded to whole dollars. */
  function ScenarioRevenue(m: HedisMeasure, improvement: real): int
  {
    RoundHalfEven(m.roiPerPoint * improvement)
  }

  /** A scenario's revenue is within half a dollar of revenue per point
      times the points. */
  lemma ScenarioRevenueIsNear(m: HedisMeasure, improvement: real)
    ensures m.roiPerPoint * improvement - 0.5 <= ScenarioRevenue(m, improvement) as real <= m.roiPerPoint * improvement + 0.5
  {
    RoundIsNearest(m.roiPerPoint * improvement);
  }

  /** Product step of `ScenarioRevenueIsMonotone`. */
  lemma ScaleOrder(k: real, a: real, b: real)
    requires k >= 0.0 && a <= b
    ensures k * a <= k * b
  {
    assert k * b - k * a == k * (b - a);
  }

  /** With a non-negative revenue per point, a scenario with the larger
      improvement never shows the smaller revenue. */
  lemma RevenueIsMonotone(m: HedisMeasure, a: real, b: real)
    requires m.roiPerPoint >= 0.0 && a <= b
    ensures ScenarioRevenue(m, a) <= ScenarioRevenue(m, b)
  {
    ScaleOrder(m.roiPerPoint, a, b);
    RoundIsMonotone(m.roiPerPoint * a, m.roiPerPoint * b);
    RoundsProduct(m, a);
    RoundsProduct(m, b);
  }

  /** `ScenarioRevenue` rounds the product; stated apart so that the proofs
      that use it do not have to unfold the rounding. */
  lemma RoundsProduct(m: HedisMeasure, a: real)
    ensures ScenarioRevenue(m, a) == RoundHalfEven(m.roiPerPoint * a)
  {
  }

  /** The cards of the same measure: the one with the larger improvement
      never shows the smaller revenue. */
  lemma ScenarioRevenueIsMonotone(m: HedisMeasure, i: nat, j: nat)
    requires i < 4 && j < 4
    requires m.roiPerPoint >= 0.0
    requires Scenarios(m)[i].improvement <= Scenarios(m)[j].improvement
    ensures Scenarios(m)[i].revenue <= Scenarios(m)[j].revenue
  {
    var sc := Scenarios(m);
    RevenueIsMonotone(m, sc[i].improvement, sc[j].improvement);
  }

  /** Stars the full gap could add: the star weight times a tenth of the gap. */
  function StarImpact(m: HedisMeasure): real
  {
    m.starImpact * (Gap(m) / 10.0)
  }

  /** For a positive star weight the star impact has the sign of the gap, and
      it grows with the gap. */
  lemma StarImpactFollowsGap(m: HedisMeasure, n: HedisMeasure)
    requires m.starImpact > 0.0 && n.starImpact == m.starImpact
    ensures StarImpact(m) > 0.0 <==> Gap(m) > 0.0
    ensures StarImpact(m) == 0.0 <==> Gap(m) == 0.0
    ensures Gap(m) <= Gap(n) ==> StarImpact(m) <= StarImpact(n)
  {
    var w, g := m.starImpact, Gap(m) / 10.0;
    if Gap(m) <= Gap(n) {
      ScaleOrder(w, g, Gap(n) / 10.0);
    }
    if g > 0.0 {
      assert w * g > 0.0;
    } else if g < 0.0 {
      assert w * (-g) > 0.0;
    }
  }

  /** What the gap analysis shows. */
  datatype GapAnalysis =
    | SelectionRequired
    | UnknownCode
    | Analysis(
        measure: HedisMeasure,
        gap: real,
        starImpact: real,
        relativeToNational: real,
        revenueAtRisk: int,
        scenarios: seq<Scenario>)

  /** The gap analysis: a warning for an empty selection, a failed lookup for
      a code that is not in the catalog, else the gap details, the revenue
      at risk and the four scenarios. */
  function AnalyzeGaps(code: string): (r: GapAnalysis)
    ensures code == "" <==> r == SelectionRequired
    ensures r == UnknownCode <==> code != "" && forall i :: 0 <= i < |Measures| ==> Measures[i].code != code
    ensures r.Analysis? ==>
      r.measure in Measures && r.measure.code == code
      && r.gap == Gap(r.measure)
      && r.relativeToNational == r.measure.currentRate - r.measure.nationalAvg
      && r.scenarios == Scenarios(r.measure)
      && r.revenueAtRisk == r.scenarios[3].revenue
      && r.starImpact == StarImpact(r.measure)
  {
    if code == "" then SelectionRequired
    else
      var i := IndexOf(Measures, code);
      if i < 0 then UnknownCode
      else
        var m := Measures[i];
        Analysis(m, Gap(m), StarImpact(m), m.currentRate - m.nationalAvg,
          ScenarioRevenue(m, Gap(m)), Scenarios(m))
  }

  /** The overview card and the gap analysis agree on whether a measure is
      shown, on the measure and on its gap. */
  lemma OverviewMatchesAnalysis(code: string)
    ensures MeasureOverview(code).Details? <==> AnalyzeGaps(code).Analysis?
    ensures MeasureOverview(code).Details? ==> AnalyzeGaps(code).measure == MeasureOverview(code).measure
    ensures MeasureOverview(code).Details? ==> AnalyzeGaps(code).gap == MeasureOverview(code).gap
  {
  }

  /** CBP: a 9.6-point gap, 0.672 stars, and 1,344,000 of revenue at risk. */
  lemma CbpAnalysis()
    ensures AnalyzeGaps("CBP").Analysis?
    ensures AnalyzeGaps("CBP").gap == 9.6
    ensures AnalyzeGaps("CBP").starImpact == 0.672
    ensures AnalyzeGaps("CBP").revenueAtRisk == 1344000
    ensures AnalyzeGaps("CBP").scenarios[0].revenue == 140000
  {
    assert IndexOf(Measures, "CBP") == 4;
  }

  // ---------------------------------------------------------------------
  // Portfolio overview
  // ---------------------------------------------------------------------

  function SumGaps(s: seq<HedisMeasure>): real
  {
    if s == [] then 0.0 else SumGaps(s[..|s| - 1]) + Gap(s[|s| - 1])
  }

  function SumBenchmarks(s: seq<HedisMeasure>): real
  {
    if s == [] then 0.0 else SumBenchmarks(s[..|s| - 1]) + s[|s| - 1].benchmark
  }

  function SumRates(s: seq<HedisMeasure>): real
  {
    if s == [] then 0.0 else SumRates(s[..|s| - 1]) + s[|s| - 1].currentRate
  }

  /** The mean gap over a non-empty catalog. */
  function AverageGap(s: seq<HedisMeasure>): real
    requires s != []
  {
    SumGaps(s) / |s| as real
  }

  function TotalPopulation(s: seq<HedisMeasure>): nat
  {
    if s == [] then 0 else TotalPopulation(s[..|s| - 1]) + s[|s| - 1].population
  }

  /** Summing the gaps is summing the benchmarks minus summing the rates. */
  lemma {:induction false} GapSumSplits(s: seq<HedisMeasure>)
    ensures SumGaps(s) == SumBenchmarks(s) - SumRates(s)
  {
    if s != [] {
      GapSumSplits(s[..|s| - 1]);
    }
  }

  /** The average gap is the average benchmark minus the average rate. */
  lemma AverageGapIsDifferenceOfMeans(s: seq<HedisMeasure>)
    requires s != []
    ensures AverageGap(s) == SumBenchmarks(s) / |s| as real - SumRates(s) / |s| as real
  {
    GapSumSplits(s);
  }

  /** The population of a catalog is at least that of each of its measures. */
  lemma {:induction false} PopulationBoundsEach(s: seq<HedisMeasure>, i: nat)
    requires i < |s|
    ensures s[i].population <= TotalPopulation(s)
  {
    if i < |s| - 1 {
      PopulationBoundsEach(s[..|s| - 1], i);
    }
  }

  /** The shipped overview: 7 measures, 38,540 members and gaps summing to
      70.3 points (an average of about 10.0). */
  lemma CatalogOverview()
    ensures |Measures| == 7
    ensures TotalPopulation(Measures) == 38540
    ensures SumGaps(Measures) == 70.3
    ensures AverageGap(Measures) == 70.3 / 7.0
  {
    var c := Measures;
    assert c[..7] == c;
    assert TotalPopulation(c[..1]) == 8450 && SumGaps(c[..1]) == 7.7 by { assert c[..1][..0] == []; }
    assert TotalPopulation(c[..2]) == 13680 && SumGaps(c[..2]) == 19.5 by { assert c[..2][..1] == c[..1]; }
    assert TotalPopulation(c[..3]) == 18570 && SumGaps(c[..3]) == 28.0 by { assert c[..3][..2] == c[..2]; }
    assert TotalPopulation(c[..4]) == 25290 && SumGaps(c[..4]) == 32.2 by { assert c[..4][..3] == c[..3]; }
    assert TotalPopulation(c[..5]) == 32940 && SumGaps(c[..5]) == 41.8 by { assert c[..5][..4] == c[..4]; }
    assert TotalPopulation(c[..6]) == 36360 && SumGaps(c[..6]) == 54.2 by { assert c[..6][..5] == c[..5]; }
    assert TotalPopulation(c) == 38540 && SumGaps(c) == 70.3 by { assert c[..7][..6] == c[..6]; }
  }
}
