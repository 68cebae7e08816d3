/** The ROI portfolio optimizer page: the impact/effort priority matrix, the
    allocation sliders with their three preset scenarios, and the budget
    allocation and revenue projection shown in the scenario table, the
    portfolio forecast and the constraint status. Money and percentages are
    `real`. */
module RoiPortfolioOptimizer {

  /** One measure of the portfolio catalog. */
  datatype PortfolioMeasure = PortfolioMeasure(
    code: string,
    name: string,
    impact: real,
    effort: real,
    currentRate: real,
    benchmark: real,
    roiPerPoint: real,
    starImpact: real,
    population: nat)

  /** The seven measures, in the catalog's (insertion) order. */
  const Catalog: seq<PortfolioMeasure> := [
    PortfolioMeasure("CCS", "Colorectal Cancer Screening", 7.2, 2.0, 67.3, 75.0, 125000.0, 0.5, 8450),
    PortfolioMeasure("HBD", "Hemoglobin A1c Control", 8.1, 3.0, 58.2, 70.0, 95000.0, 0.6, 5230),
    PortfolioMeasure("MAD", "Medication Adherence - Diabetes", 6.5, 1.0, 71.5, 80.0, 110000.0, 0.4, 4890),
    PortfolioMeasure("BCS", "Breast Cancer Screening", 6.8, 1.0, 73.8, 78.0, 105000.0, 0.5, 6720),
    PortfolioMeasure("CBP", "Controlling High Blood Pressure", 8.7, 2.0, 62.4, 72.0, 140000.0, 0.7, 7650),
    PortfolioMeasure("OMW", "Osteoporosis Management", 5.4, 3.0, 55.6, 68.0, 85000.0, 0.3, 3420),
    PortfolioMeasure("COL", "Follow-Up After ED - Mental Health", 5.8, 3.0, 48.9, 65.0, 75000.0, 0.4, 2180)
  ]

  /** The codes of a catalog (or of a prefix of it). */
  function CodeSet(s: seq<PortfolioMeasure>): set<string>
  {
    if s == [] then {} else CodeSet(s[..|s| - 1]) + {s[|s| - 1].code}
  }

  // ---------------------------------------------------------------------
  // Priority matrix
  // ---------------------------------------------------------------------

  datatype Quadrant = QuickWins | MajorProjects | FillIns | HardSlogs

  /** Impact at or above this is "high impact". */
  const HighImpact: real := 6.5
  /** Effort at or below this is "low effort". */
  const LowEffort: real := 2.0

  /** The impact/effort classifier; both thresholds are inclusive. */
  function QuadrantOf(impact: real, effort: real): (q: Quadrant)
    ensures q == QuickWins <==> impact >= 6.5 && effort <= 2.0
    ensures q == MajorProjects <==> impact >= 6.5 && effort > 2.0
    ensures q == FillIns <==> impact < 6.5 && effort <= 2.0
    ensures q == HardSlogs <==> impact < 6.5 && effort > 2.0
  {
    var hi, le := impact >= HighImpact, effort <= LowEffort;
    if hi && le then QuickWins
    else if hi && !le then MajorProjects
    else if !hi && le then FillIns
    else HardSlogs
  }

  function QuadrantOfMeasure(m: PortfolioMeasure): Quadrant
  {
    QuadrantOf(m.impact, m.effort)
  }

  /** The measures of `s` that fall in quadrant `q`, in catalog order. */
  function InQuadrant(s: seq<PortfolioMeasure>, q: Quadrant): seq<PortfolioMeasure>
  {
    if s == [] then []
    else
      var last := s[|s| - 1];
      InQuadrant(s[..|s| - 1], q) + (if QuadrantOfMeasure(last) == q then [last] else [])
  }

  /** A measure is listed in quadrant `q` exactly when it is in the catalog
      and classifies as `q`. */
  lemma {:induction false} InQuadrantMembers(s: seq<PortfolioMeasure>, q: Quadrant, m: PortfolioMeasure)
    ensures m in InQuadrant(s, q) <==> m in s && QuadrantOfMeasure(m) == q
  {
    if s != [] {
      InQuadrantMembers(s[..|s| - 1], q, m);
      assert s == s[..|s| - 1] + [s[|s| - 1]];
    }
  }

  /** Groups the catalog into the four quadrant lists, appending each measure
      to the list of its quadrant. */
  method PriorityMatrix(catalog: seq<PortfolioMeasure>) returns (quadrants: map<Quadrant, seq<PortfolioMeasure>>)
    ensures quadrants.Keys == {QuickWins, MajorProjects, FillIns, HardSlogs}
    ensures forall q :: q in quadrants ==> quadrants[q] == InQuadrant(catalog, q)
  {
    quadrants := map[QuickWins := [], MajorProjects := [], FillIns := [], HardSlogs := []];
    for i := 0 to |catalog|
      invariant quadrants.Keys == {QuickWins, MajorProjects, FillIns, HardSlogs}
      invariant forall q :: q in quadrants ==> quadrants[q] == InQuadrant(catalog[..i], q)
    {
      var m := catalog[i];
      var q := QuadrantOf(m.impact, m.effort);
      quadrants := quadrants[q := quadrants[q] + [m]];
      assert catalog[..i + 1][..i] == catalog[..i];
    }
    assert catalog[..|catalog|] == catalog;
  }

  /** `[m]` when `m` falls in quadrant `q`, else nothing. */
  function Selected(m: PortfolioMeasure, q: Quadrant): seq<PortfolioMeasure>
  {
    if QuadrantOfMeasure(m) == q then [m] else []
  }

  /** The four quadrant lists together hold every measure exactly as often
      as the catalog does. */
  lemma {:induction false} QuadrantsPartitionCatalog(s: seq<PortfolioMeasure>)
    ensures multiset(InQuadrant(s, QuickWins)) + multiset(InQuadrant(s, MajorProjects))
          + multiset(InQuadrant(s, FillIns)) + multiset(InQuadrant(s, HardSlogs)) == multiset(s)
  {
    if s != [] {
      var init, last := s[..|s| - 1], s[|s| - 1];
      var a1, a2 := multiset(InQuadrant(init, QuickWins)), multiset(InQuadrant(init, MajorProjects));
      var a3, a4 := multiset(InQuadrant(init, FillIns)), multiset(InQuadrant(init, HardSlogs));
      var b1, b2 := multiset(Selected(last, QuickWins)), multiset(Selected(last, MajorProjects));
      var b3, b4 := multiset(Selected(last, FillIns)), multiset(Selected(last, HardSlogs));
      calc {
        multiset(InQuadrant(s, QuickWins)) + multiset(InQuadrant(s, MajorProjects))
          + multiset(InQuadrant(s, FillIns)) + multiset(InQuadrant(s, HardSlogs));
        { InQuadrantStep(s, QuickWins); InQuadrantStep(s, MajorProjects);
          InQuadrantStep(s, FillIns); InQuadrantStep(s, HardSlogs); }
        (a1 + b1) + (a2 + b2) + (a3 + b3) + (a4 + b4);
        { Regroup(a1, a2, a3, a4, b1, b2, b3, b4); }
        (a1 + a2 + a3 + a4) + (b1 + b2 + b3 + b4);
        { QuadrantsPartitionCatalog(init); SelectedOnce(last); }
        multiset(init) + multiset{last};
        { assert s == init + [last]; }
        multiset(s);
      }
    }
  }

  lemma InQuadrantStep(s: seq<PortfolioMeasure>, q: Quadrant)
    requires s != []
    ensures multiset(InQuadrant(s, q)) == multiset(InQuadrant(s[..|s| - 1], q)) + multiset(Selected(s[|s| - 1], q))
  {
  }

  /** Four lists that each gain a part: the parts can be added last. */
  lemma Regroup(a1: multiset<PortfolioMeasure>, a2: multiset<PortfolioMeasure>,
                a3: multiset<PortfolioMeasure>, a4: multiset<PortfolioMeasure>,
                b1: multiset<PortfolioMeasure>, b2: multiset<PortfolioMeasure>,
                b3: multiset<PortfolioMeasure>, b4: multiset<PortfolioMeasure>)
    ensures (a1 + b1) + (a2 + b2) + (a3 + b3) + (a4 + b4) == (a1 + a2 + a3 + a4) + (b1 + b2 + b3 + b4)
  {
  }

  /** A measure is selected by exactly one quadrant. */
  lemma SelectedOnce(m: PortfolioMeasure)
    ensures multiset(Selected(m, QuickWins)) + multiset(Selected(m, MajorProjects))
          + multiset(Selected(m, FillIns)) + multiset(Selected(m, HardSlogs)) == multiset{m}
  {
  }

  /** So the four lists are as long as the catalog together. */
  lemma QuadrantsCoverCatalog(s: seq<PortfolioMeasure>)
    ensures |InQuadrant(s, QuickWins)| + |InQuadrant(s, MajorProjects)|
          + |InQuadrant(s, FillIns)| + |InQuadrant(s, HardSlogs)| == |s|
  {
    QuadrantsPartitionCatalog(s);
    assert |multiset(s)| == |s|;
  }

  /** One quadrant of the shipped catalog, measure by measure. */
  lemma CatalogQuadrant(q: Quadrant)
    ensures InQuadrant(Catalog, q)
         == Selected(Catalog[0], q) + Selected(Catalog[1], q) + Selected(Catalog[2], q) + Selected(Catalog[3], q)
          + Selected(Catalog[4], q) + Selected(Catalog[5], q) + Selected(Catalog[6], q)
  {
    var c := Catalog;
    assert InQuadrant(c[..1], q) == Selected(c[0], q) by { assert c[..1][..0] == []; }
    assert InQuadrant(c[..2], q) == InQuadrant(c[..1], q) + Selected(c[1], q) by { assert c[..2][..1] == c[..1]; }
    assert InQuadrant(c[..3], q) == InQuadrant(c[..2], q) + Selected(c[2], q) by { assert c[..3][..2] == c[..2]; }
    assert InQuadrant(c[..4], q) == InQuadrant(c[..3], q) + Selected(c[3], q) by { assert c[..4][..3] == c[..3]; }
    assert InQuadrant(c[..5], q) == InQuadrant(c[..4], q) + Selected(c[4], q) by { assert c[..5][..4] == c[..4]; }
    assert InQuadrant(c[..6], q) == InQuadrant(c[..5], q) + Selected(c[5], q) by { assert c[..6][..5] == c[..5]; }
    assert InQuadrant(c, q) == InQuadrant(c[..6], q) + Selected(c[6], q) by { assert c[..7] == c; }
  }

  /** The matrix of the shipped catalog: MAD (impact exactly 6.5) is a Quick
      Win and no measure is a Fill-In. */
  lemma CatalogMatrix()
    ensures InQuadrant(Catalog, QuickWins) == [Catalog[0], Catalog[2], Catalog[3], Catalog[4]]
    ensures InQuadrant(Catalog, MajorProjects) == [Catalog[1]]
    ensures InQuadrant(Catalog, FillIns) == []
    ensures InQuadrant(Catalog, HardSlogs) == [Catalog[5], Catalog[6]]
  {
    CatalogQuadrant(QuickWins);
    CatalogQuadrant(MajorProjects);
    CatalogQuadrant(FillIns);
    CatalogQuadrant(HardSlogs);
  }

  // ---------------------------------------------------------------------
  // Slider state and presets
  // ---------------------------------------------------------------------

  datatype Preset = Conservative | Balanced | Aggressive

  /** Each preset as code/percentage pairs, in the order the preset lists them. */
  function PresetEntries(p: Preset): seq<(string, real)>
  {
    match p
    case Conservative =>
      [("CCS", 15.0), ("HBD", 10.0), ("MAD", 20.0), ("BCS", 15.0), ("CBP", 20.0), ("OMW", 10.0), ("COL", 10.0)]
    case Balanced =>
      [("CCS", 18.0), ("HBD", 18.0), ("MAD", 15.0), ("BCS", 15.0), ("CBP", 20.0), ("OMW", 7.0), ("COL", 7.0)]
    case Aggressive =>
      [("CCS", 10.0), ("HBD", 22.0), ("MAD", 12.0), ("BCS", 10.0), ("CBP", 28.0), ("OMW", 10.0), ("COL", 8.0)]
  }

  /** The map built by writing the pairs one after the other. */
  function EntriesToMap(entries: seq<(string, real)>): map<string, real>
  {
    if entries == [] then map[]
    else
      var last := entries[|entries| - 1];
      EntriesToMap(entries[..|entries| - 1])[last.0 := last.1]
  }

  function EntriesTotal(entries: seq<(string, real)>): real
  {
    if entries == [] then 0.0 else EntriesTotal(entries[..|entries| - 1]) + entries[|entries| - 1].1
  }

  function PresetAllocation(p: Preset): map<string, real>
  {
    EntriesToMap(PresetEntries(p))
  }

  /** The slider value used when a slider is missing or cannot be read:
      `100 // len(catalog)`. */
  const DefaultPct: real := (100 / |Catalog|) as real

  /** What reading one slider yields. */
  function SliderValue(sliders: map<string, real>, code: string): real
  {
    if code in sliders then sliders[code] else DefaultPct
  }

  /** The allocation map read from the sliders: one entry per catalog code. */
  function AllocationsFrom(sliders: map<string, real>, s: seq<PortfolioMeasure>): map<string, real>
  {
    map c | c in CodeSet(s) :: SliderValue(sliders, c)
  }

  /** The allocation map used when the budget input itself cannot be read. */
  function DefaultAllocations(s: seq<PortfolioMeasure>): map<string, real>
  {
    map c | c in CodeSet(s) :: DefaultPct
  }

  /** Writing pairs whose keys are the catalog codes, in any values, gives
      a map over exactly the catalog codes. */
  lemma {:induction false} EntriesCoverCodes(entries: seq<(string, real)>, s: seq<PortfolioMeasure>)
    requires |entries| == |s|
    requires forall i :: 0 <= i < |s| ==> entries[i].0 == s[i].code
    ensures EntriesToMap(entries).Keys == CodeSet(s)
  {
    if s != [] {
      EntriesCoverCodes(entries[..|entries| - 1], s[..|s| - 1]);
    }
  }

  /** Every preset names exactly the seven catalog codes, in catalog order. */
  lemma PresetCoversCatalog(p: Preset)
    ensures PresetAllocation(p).Keys == CodeSet(Catalog)
  {
    EntriesCoverCodes(PresetEntries(p), Catalog);
  }

  /** Every preset's percentages add up to 100. */
  lemma PresetSumsToHundred(p: Preset)
    ensures EntriesTotal(PresetEntries(p)) == 100.0
  {
    var e := PresetEntries(p);
    assert EntriesTotal(e[..1]) == e[0].1 by { assert e[..1][..0] == []; }
    assert EntriesTotal(e[..2]) == EntriesTotal(e[..1]) + e[1].1 by { assert e[..2][..1] == e[..1]; }
    assert EntriesTotal(e[..3]) == EntriesTotal(e[..2]) + e[2].1 by { assert e[..3][..2] == e[..2]; }
    assert EntriesTotal(e[..4]) == EntriesTotal(e[..3]) + e[3].1 by { assert e[..4][..3] == e[..3]; }
    assert EntriesTotal(e[..5]) == EntriesTotal(e[..4]) + e[4].1 by { assert e[..5][..4] == e[..4]; }
    assert EntriesTotal(e[..6]) == EntriesTotal(e[..5]) + e[5].1 by { assert e[..6][..5] == e[..5]; }
    assert EntriesTotal(e) == EntriesTotal(e[..6]) + e[6].1 by { assert e[..7] == e; }
  }

  lemma PresetIsComplete(p: Preset)
    ensures PresetAllocation(p).Keys == CodeSet(Catalog)
    ensures EntriesTotal(PresetEntries(p)) == 100.0
  {
    PresetCoversCatalog(p);
    PresetSumsToHundred(p);
  }

  /** The slider panel of the page: one slider per measure code, keyed by
      code. A code that is absent stands for a slider that is not rendered
      or whose read raises. */
  class RoiOptimizer {
    var sliders: map<string, real>

    constructor (initial: map<string, real>)
      ensures sliders == initial
    {
      sliders := initial;
    }

    /** Sets the slider of every code the preset names to the preset's
        value, one code after the other; other sliders keep their value. */
    method ApplyScenario(p: Preset)
      modifies this
      ensures sliders == old(sliders) + PresetAllocation(p)
    {
      var entries := PresetEntries(p);
      for i := 0 to |entries|
        invariant sliders == old(sliders) + EntriesToMap(entries[..i])
      {
        var (code, pct) := entries[i];
        sliders := sliders[code := pct];
        assert entries[..i + 1][..i] == entries[..i];
      }
      assert entries[..|entries|] == entries;
    }

    /** Reads every catalog slider, substituting the default for any that is
        missing. */
    method GetAllocations() returns (out: map<string, real>)
      ensures out.Keys == CodeSet(Catalog)
      ensures forall c :: c in out ==> out[c] == (if c in sliders then sliders[c] else DefaultPct)
      ensures out == AllocationsFrom(sliders, Catalog)
    {
      out := map[];
      for i := 0 to |Catalog|
        invariant out == AllocationsFrom(sliders, Catalog[..i])
      {
        var code := Catalog[i].code;
        out := out[code := if code in sliders then sliders[code] else DefaultPct];
        assert Catalog[..i + 1][..i] == Catalog[..i];
      }
      assert Catalog[..|Catalog|] == Catalog;
    }

    /** The scenario table as the page shows it: the budget input (its
        default when it is empty, zero or unreadable), the sliders (or the
        fallback map when the budget read raises), then the per-measure
        table. The budget is never zero, so the ROI card always shows a
        ratio. */
    method ScenarioResults(budgetIn: NumericInput)
      returns (budget: real, rows: seq<MeasureRow>, totalRevenue: real, roi: RoiDisplay)
      ensures budget == (if budgetIn.Unreadable? then DefaultBudget else OrDefault(budgetIn, DefaultBudget))
      ensures budget != 0.0
      ensures var alloc := ReadAllocations(budgetIn, sliders);
        rows == Rows(budget, alloc, Catalog, TotalPct(alloc, Catalog))
        && totalRevenue == TotalRevenue(alloc, Catalog)
      ensures roi == Ratio(totalRevenue / budget)
    {
      var alloc;
      if budgetIn.Unreadable? {
        budget, alloc := DefaultBudget, DefaultAllocations(Catalog);
      } else {
        budget := OrDefault(budgetIn, DefaultBudget);
        alloc := GetAllocations();
      }
      rows, totalRevenue, roi := ScenarioTable(budget, alloc, Catalog);
    }

    /** The portfolio forecast as the page shows it, with the same inputs
        as the scenario table. */
    method PortfolioForecast(budgetIn: NumericInput)
      returns (budget: real, totalRevenue: real, roiRatio: real, netBenefit: real)
      ensures budget == (if budgetIn.Unreadable? then DefaultBudget else OrDefault(budgetIn, DefaultBudget))
      ensures totalRevenue == TotalRevenue(ReadAllocations(budgetIn, sliders), Catalog)
      ensures roiRatio * budget == totalRevenue
      ensures netBenefit + budget == totalRevenue
    {
      var alloc;
      if budgetIn.Unreadable? {
        budget, alloc := DefaultBudget, DefaultAllocations(Catalog);
      } else {
        budget := OrDefault(budgetIn, DefaultBudget);
        alloc := GetAllocations();
      }
      totalRevenue, roiRatio, netBenefit := Forecast(budget, alloc, Catalog);
    }
  }

  /** After a preset is applied, the allocations read back are exactly the
      preset, whatever the sliders held before. */
  lemma {:induction false} AppliedPresetIsRead(sliders: map<string, real>, p: Preset)
    ensures AllocationsFrom(sliders + PresetAllocation(p), Catalog) == PresetAllocation(p)
  {
    PresetIsComplete(p);
  }

  // ---------------------------------------------------------------------
  // Allocation and revenue projection
  // ---------------------------------------------------------------------

  /** `allocations.get(code, 0)`. */
  function Pct(alloc: map<string, real>, code: string): real
  {
    if code in alloc then alloc[code] else 0.0
  }

  /** The sum of the allocation percentages over the catalog codes. */
  function TotalPct(alloc: map<string, real>, s: seq<PortfolioMeasure>): real
  {
    if s == [] then 0.0 else TotalPct(alloc, s[..|s| - 1]) + Pct(alloc, s[|s| - 1].code)
  }

  /** The normaliser; it falls back to 1 when the percentages sum to zero. */
  function Scale(totalPct: real): (r: real)
    ensures r != 0.0
    ensures totalPct != 0.0 ==> r * 100.0 == totalPct
    ensures totalPct == 0.0 ==> r == 1.0
  {
    if totalPct != 0.0 then totalPct / 100.0 else 1.0
  }

  /** Dollars allocated to a measure: `budget * (pct / 100) / scale`. */
  function AllocDollars(budget: real, pct: real, totalPct: real): real
  {
    budget * (pct / 100.0) / Scale(totalPct)
  }

  /** A measure's dollars are its share `pct / totalPct` of the budget; with
      a zero total the normaliser is 1 and the raw `pct / 100` is used. */
  lemma AllocDollarsIsShare(budget: real, pct: real, totalPct: real)
    ensures totalPct != 0.0 ==> AllocDollars(budget, pct, totalPct) * totalPct == budget * pct
    ensures totalPct == 0.0 ==> AllocDollars(budget, pct, totalPct) * 100.0 == budget * pct
  {
    var d := AllocDollars(budget, pct, totalPct);
    var sc := Scale(totalPct);
    assert d * sc == budget * (pct / 100.0);
  }

  function Gap(m: PortfolioMeasure): real
  {
    m.benchmark - m.currentRate
  }

  /** The modelled improvement: the gap, capped at 3 points and not floored. */
  function Improvement(m: PortfolioMeasure): (r: real)
    ensures r <= 3.0 && r <= Gap(m)
    ensures r == 3.0 || r == Gap(m)
  {
    var gap := Gap(m);
    if gap <= 3.0 then gap else 3.0
  }

  /** Revenue from one measure, from its raw percentage. */
  function RevenueImpact(m: PortfolioMeasure, pct: real): real
  {
    m.roiPerPoint * Improvement(m) * (pct / 100.0)
  }

  function TotalRevenue(alloc: map<string, real>, s: seq<PortfolioMeasure>): real
  {
    if s == [] then 0.0
    else TotalRevenue(alloc, s[..|s| - 1]) + RevenueImpact(s[|s| - 1], Pct(alloc, s[|s| - 1].code))
  }

  /** One line of the "By Measure" breakdown. */
  datatype MeasureRow = MeasureRow(code: string, dollars: real, revenue: real)

  function RowOf(budget: real, alloc: map<string, real>, totalPct: real, m: PortfolioMeasure): MeasureRow
  {
    var pct := Pct(alloc, m.code);
    MeasureRow(m.code, AllocDollars(budget, pct, totalPct), RevenueImpact(m, pct))
  }

  /** The rows for the measures of `s`, with the normaliser fixed at `totalPct`. */
  function Rows(budget: real, alloc: map<string, real>, s: seq<PortfolioMeasure>, totalPct: real): (r: seq<MeasureRow>)
    ensures |r| == |s|
    ensures forall i :: 0 <= i < |s| ==> r[i] == RowOf(budget, alloc, totalPct, s[i])
  {
    if s == [] then []
    else Rows(budget, alloc, s[..|s| - 1], totalPct) + [RowOf(budget, alloc, totalPct, s[|s| - 1])]
  }

  function SumDollars(rows: seq<MeasureRow>): real
  {
    if rows == [] then 0.0 else SumDollars(rows[..|rows| - 1]) + rows[|rows| - 1].dollars
  }

  function SumRevenue(rows: seq<MeasureRow>): real
  {
    if rows == [] then 0.0 else SumRevenue(rows[..|rows| - 1]) + rows[|rows| - 1].revenue
  }

  /** The ROI card of the scenario table. */
  datatype RoiDisplay = Ratio(value: real) | NotAvailable

  /** The scenario table: per-measure dollars and revenue, total revenue and
      the ROI card, accumulated measure by measure. */
  method ScenarioTable(budget: real, alloc: map<string, real>, catalog: seq<PortfolioMeasure>)
    returns (rows: seq<MeasureRow>, totalRevenue: real, roi: RoiDisplay)
    ensures rows == Rows(budget, alloc, catalog, TotalPct(alloc, catalog))
    ensures totalRevenue == TotalRevenue(alloc, catalog)
    ensures budget != 0.0 ==> roi == Ratio(totalRevenue / budget)
    ensures budget == 0.0 ==> roi == NotAvailable
  {
    var totalPct := TotalPct(alloc, catalog);
    rows, totalRevenue := [], 0.0;
    for i := 0 to |catalog|
      invariant rows == Rows(budget, alloc, catalog[..i], totalPct)
      invariant totalRevenue == TotalRevenue(alloc, catalog[..i])
    {
      var m := catalog[i];
      var pct := Pct(alloc, m.code);
      var allocDollars := AllocDollars(budget, pct, totalPct);
      var revImpact := RevenueImpact(m, pct);
      totalRevenue := totalRevenue + revImpact;
      rows := rows + [MeasureRow(m.code, allocDollars, revImpact)];
      assert catalog[..i + 1][..i] == catalog[..i];
    }
    assert catalog[..|catalog|] == catalog;
    roi := if budget != 0.0 then Ratio(totalRevenue / budget) else NotAvailable;
  }

  /** The portfolio forecast: total revenue, ROI (0 for a zero budget) and
      net benefit. */
  method Forecast(budget: real, alloc: map<string, real>, catalog: seq<PortfolioMeasure>)
    returns (totalRevenue: real, roiRatio: real, netBenefit: real)
    ensures totalRevenue == TotalRevenue(alloc, catalog)
    ensures budget != 0.0 ==> roiRatio * budget == totalRevenue
    ensures budget == 0.0 ==> roiRatio == 0.0
    ensures netBenefit + budget == totalRevenue
  {
    totalRevenue := 0.0;
    for i := 0 to |catalog|
      invariant totalRevenue == TotalRevenue(alloc, catalog[..i])
    {
      var m := catalog[i];
      totalRevenue := totalRevenue + RevenueImpact(m, Pct(alloc, m.code));
      assert catalog[..i + 1][..i] == catalog[..i];
    }
    assert catalog[..|catalog|] == catalog;
    roiRatio := if budget != 0.0 then totalRevenue / budget else 0.0;
    netBenefit := totalRevenue - budget;
  }

  // ---------------------------------------------------------------------
  // Properties of the projection
  // ---------------------------------------------------------------------

  /** Scaling the budget scales one measure's dollars by the same factor. */
  lemma AllocDollarsIsLinear(budget: real, k: real, pct: real, totalPct: real)
    ensures AllocDollars(k * budget, pct, totalPct) == k * AllocDollars(budget, pct, totalPct)
  {
    var sc := Scale(totalPct);
    calc {
      AllocDollars(k * budget, pct, totalPct);
      (k * budget) * (pct / 100.0) / sc;
      { assert (k * budget) * (pct / 100.0) == k * (budget * (pct / 100.0)); }
      k * (budget * (pct / 100.0)) / sc;
      k * (budget * (pct / 100.0) / sc);
    }
  }

  /** The dollars of the measures of `s`, summed in order. */
  function TotalDollars(budget: real, alloc: map<string, real>, s: seq<PortfolioMeasure>, totalPct: real): real
  {
    if s == [] then 0.0
    else TotalDollars(budget, alloc, s[..|s| - 1], totalPct) + AllocDollars(budget, Pct(alloc, s[|s| - 1].code), totalPct)
  }

  /** The dollar column of the table sums to `TotalDollars`. */
  lemma {:induction false} RowDollarsSum(budget: real, alloc: map<string, real>, s: seq<PortfolioMeasure>, totalPct: real)
    ensures SumDollars(Rows(budget, alloc, s, totalPct)) == TotalDollars(budget, alloc, s, totalPct)
  {
    if s != [] {
      var rows := Rows(budget, alloc, s, totalPct);
      RowDollarsSum(budget, alloc, s[..|s| - 1], totalPct);
      assert rows[..|rows| - 1] == Rows(budget, alloc, s[..|s| - 1], totalPct);
    }
  }

  /** Arithmetic step of `DollarsAreShare`, kept apart from the sequences. */
  lemma ShareStep(x: real, prev: real, y: real, before: real, pct: real, t: real, budget: real)
    requires (x - prev) * t == budget * pct
    requires prev * t == budget * before
    requires y == before + pct
    ensures x * t == budget * y
  {
    assert x * t == (x - prev) * t + prev * t;
  }

  /** The dollars summed so far, times the normaliser, are the budget times
      the percentages summed so far. */
  lemma {:induction false} DollarsAreShare(budget: real, alloc: map<string, real>, s: seq<PortfolioMeasure>, totalPct: real)
    requires totalPct != 0.0
    ensures TotalDollars(budget, alloc, s, totalPct) * totalPct == budget * TotalPct(alloc, s)
  {
    if s != [] {
      var init := s[..|s| - 1];
      DollarsAreShare(budget, alloc, init, totalPct);
      var pct := Pct(alloc, s[|s| - 1].code);
      AllocDollarsIsShare(budget, pct, totalPct);
      ShareStep(TotalDollars(budget, alloc, s, totalPct), TotalDollars(budget, alloc, init, totalPct),
        TotalPct(alloc, s), TotalPct(alloc, init), pct, totalPct, budget);
    }
  }

  /** When the percentages do not sum to zero, the per-measure dollars add
      up to the whole budget, whatever the percentages sum to. */
  lemma DollarsSumToBudget(budget: real, alloc: map<string, real>, catalog: seq<PortfolioMeasure>)
    requires TotalPct(alloc, catalog) != 0.0
    ensures SumDollars(Rows(budget, alloc, catalog, TotalPct(alloc, catalog))) == budget
  {
    var t := TotalPct(alloc, catalog);
    RowDollarsSum(budget, alloc, catalog, t);
    DollarsAreShare(budget, alloc, catalog, t);
    CancelShare(TotalDollars(budget, alloc, catalog, t), budget, t, TotalPct(alloc, catalog));
  }

  /** The step of `DollarsSumToBudget` over plain reals: dollars times the
      total equal the budget times the same total, so dollars equal budget. */
  lemma CancelShare(d: real, budget: real, t: real, tp: real)
    requires t == tp && t != 0.0 && d * t == budget * tp
    ensures d == budget
  {
    CancelFactor(d, budget, t);
  }

  lemma CancelFactor(x: real, y: real, t: real)
    requires t != 0.0 && x * t == y * t
    ensures x == y
  {
    assert (x - y) * t == 0.0;
  }

  /** Scaling the budget by `k` scales the summed dollars by `k`. */
  lemma {:induction false} DollarsScaleWithBudget(budget: real, k: real, alloc: map<string, real>, s: seq<PortfolioMeasure>, totalPct: real)
    ensures TotalDollars(k * budget, alloc, s, totalPct) == k * TotalDollars(budget, alloc, s, totalPct)
  {
    if s != [] {
      var init, pct := s[..|s| - 1], Pct(alloc, s[|s| - 1].code);
      DollarsScaleWithBudget(budget, k, alloc, init, totalPct);
      AllocDollarsIsLinear(budget, k, pct, totalPct);
      ScaleSum(k, TotalDollars(budget, alloc, init, totalPct), AllocDollars(budget, pct, totalPct));
    }
  }

  /** Arithmetic step of `DollarsScaleWithBudget`. */
  lemma ScaleSum(k: real, x: real, y: real)
    ensures k * x + k * y == k * (x + y)
  {
  }

  /** Scaling the budget by `k` scales a measure's row dollars by `k` and
      leaves its revenue unchanged; every table row is `RowOf` its measure
      (the contract of `Rows`). */
  lemma RowScales(budget: real, k: real, alloc: map<string, real>, totalPct: real, m: PortfolioMeasure)
    ensures RowOf(k * budget, alloc, totalPct, m).dollars == k * RowOf(budget, alloc, totalPct, m).dollars
    ensures RowOf(k * budget, alloc, totalPct, m).revenue == RowOf(budget, alloc, totalPct, m).revenue
  {
    AllocDollarsIsLinear(budget, k, Pct(alloc, m.code), totalPct);
  }

  /** The revenue column of the table adds up to the total revenue card. */
  lemma {:induction false} RowRevenueSumsToTotal(budget: real, alloc: map<string, real>, s: seq<PortfolioMeasure>, totalPct: real)
    ensures SumRevenue(Rows(budget, alloc, s, totalPct)) == TotalRevenue(alloc, s)
  {
    if s != [] {
      var rows := Rows(budget, alloc, s, totalPct);
      RowRevenueSumsToTotal(budget, alloc, s[..|s| - 1], totalPct);
      assert rows[..|rows| - 1] == Rows(budget, alloc, s[..|s| - 1], totalPct);
    }
  }

  /** Slider values are never negative. */
  predicate NonNegative(alloc: map<string, real>)
  {
    forall c :: c in alloc ==> alloc[c] >= 0.0
  }

  /** With non-negative percentages that sum to zero, every measure gets no
      dollars and no revenue, and the total revenue is zero. */
  lemma {:induction false} ZeroTotalGivesZeroRows(budget: real, alloc: map<string, real>, s: seq<PortfolioMeasure>)
    requires NonNegative(alloc)
    requires TotalPct(alloc, s) == 0.0
    ensures forall i :: 0 <= i < |s| ==> Rows(budget, alloc, s, 0.0)[i] == MeasureRow(s[i].code, 0.0, 0.0)
    ensures TotalRevenue(alloc, s) == 0.0
  {
    if s != [] {
      var init, m := s[..|s| - 1], s[|s| - 1];
      TotalPctNonNegative(alloc, init);
      ZeroTotalGivesZeroRows(budget, alloc, init);
      assert Pct(alloc, m.code) == 0.0;
      forall i | 0 <= i < |s|
        ensures Rows(budget, alloc, s, 0.0)[i] == MeasureRow(s[i].code, 0.0, 0.0)
      {
        if i < |s| - 1 {
          assert s[i] == init[i];
        }
      }
    }
  }

  lemma {:induction false} TotalPctNonNegative(alloc: map<string, real>, s: seq<PortfolioMeasure>)
    requires NonNegative(alloc)
    ensures TotalPct(alloc, s) >= 0.0
  {
    if s != [] {
      TotalPctNonNegative(alloc, s[..|s| - 1]);
    }
  }

  /** Two allocations added code by code. */
  function AddAllocations(a: map<string, real>, b: map<string, real>): map<string, real>
  {
    map c | c in a.Keys + b.Keys :: Pct(a, c) + Pct(b, c)
  }

  /** Total revenue is additive in the allocations: it is linear in the raw
      percentages and does not involve the budget at all. */
  lemma {:induction false} RevenueIsAdditive(a: map<string, real>, b: map<string, real>, s: seq<PortfolioMeasure>)
    ensures TotalRevenue(AddAllocations(a, b), s) == TotalRevenue(a, s) + TotalRevenue(b, s)
  {
    if s != [] {
      var m := s[|s| - 1];
      RevenueIsAdditive(a, b, s[..|s| - 1]);
      var pa, pb := Pct(a, m.code), Pct(b, m.code);
      assert Pct(AddAllocations(a, b), m.code) == pa + pb;
      var w := m.roiPerPoint * Improvement(m);
      assert w * ((pa + pb) / 100.0) == w * (pa / 100.0) + w * (pb / 100.0);
    }
  }

  /** A measure already past its benchmark has a negative modelled
      improvement, so a positive allocation to it lowers total revenue. */
  lemma ExceedingMeasureSubtractsRevenue(m: PortfolioMeasure, pct: real)
    requires m.currentRate > m.benchmark && m.roiPerPoint > 0.0 && pct > 0.0
    ensures Improvement(m) < 0.0
    ensures RevenueImpact(m, pct) < 0.0
  {
    var w := m.roiPerPoint * Improvement(m);
    assert w < 0.0;
  }

  /** Every measure of the shipped catalog is more than 3 points below its
      benchmark, so each is capped at exactly 3. */
  lemma CatalogImprovementsAreCapped()
    ensures forall i :: 0 <= i < |Catalog| ==> Gap(Catalog[i]) > 3.0 && Improvement(Catalog[i]) == 3.0
  {
  }

  /** Total revenue over the shipped catalog, measure by measure. */
  lemma CatalogRevenue(alloc: map<string, real>)
    ensures TotalRevenue(alloc, Catalog)
         == RevenueImpact(Catalog[0], Pct(alloc, "CCS")) + RevenueImpact(Catalog[1], Pct(alloc, "HBD"))
          + RevenueImpact(Catalog[2], Pct(alloc, "MAD")) + RevenueImpact(Catalog[3], Pct(alloc, "BCS"))
          + RevenueImpact(Catalog[4], Pct(alloc, "CBP")) + RevenueImpact(Catalog[5], Pct(alloc, "OMW"))
          + RevenueImpact(Catalog[6], Pct(alloc, "COL"))
  {
    var c := Catalog;
    assert TotalRevenue(alloc, c[..1]) == RevenueImpact(c[0], Pct(alloc, c[0].code)) by { assert c[..1][..0] == []; }
    assert TotalRevenue(alloc, c[..2]) == TotalRevenue(alloc, c[..1]) + RevenueImpact(c[1], Pct(alloc, c[1].code)) by { assert c[..2][..1] == c[..1]; }
    assert TotalRevenue(alloc, c[..3]) == TotalRevenue(alloc, c[..2]) + RevenueImpact(c[2], Pct(alloc, c[2].code)) by { assert c[..3][..2] == c[..2]; }
    assert TotalRevenue(alloc, c[..4]) == TotalRevenue(alloc, c[..3]) + RevenueImpact(c[3], Pct(alloc, c[3].code)) by { assert c[..4][..3] == c[..3]; }
    assert TotalRevenue(alloc, c[..5]) == TotalRevenue(alloc, c[..4]) + RevenueImpact(c[4], Pct(alloc, c[4].code)) by { assert c[..5][..4] == c[..4]; }
    assert TotalRevenue(alloc, c[..6]) == TotalRevenue(alloc, c[..5]) + RevenueImpact(c[5], Pct(alloc, c[5].code)) by { assert c[..6][..5] == c[..5]; }
    assert TotalRevenue(alloc, c) == TotalRevenue(alloc, c[..6]) + RevenueImpact(c[6], Pct(alloc, c[6].code)) by { assert c[..7] == c; }
  }

  /** CBP at 60% and OMW at 40% on a 500,000 budget: 252,000 + 102,000 =
      354,000 of revenue, an ROI of 0.708 and a net benefit of -146,000. */
  lemma CbpOmwExample()
    ensures var alloc := map["CCS" := 0.0, "HBD" := 0.0, "MAD" := 0.0, "BCS" := 0.0, "CBP" := 60.0, "OMW" := 40.0, "COL" := 0.0];
      && RevenueImpact(Catalog[4], 60.0) == 252000.0
      && RevenueImpact(Catalog[5], 40.0) == 102000.0
      && TotalRevenue(alloc, Catalog) == 354000.0
      && TotalRevenue(alloc, Catalog) / 500000.0 == 0.708
      && TotalRevenue(alloc, Catalog) - 500000.0 == -146000.0
  {
    var alloc := map["CCS" := 0.0, "HBD" := 0.0, "MAD" := 0.0, "BCS" := 0.0, "CBP" := 60.0, "OMW" := 40.0, "COL" := 0.0];
    CatalogRevenue(alloc);
  }

  /** For a positive budget the forecast's net benefit is non-negative
      exactly when its ROI ratio is at least 1. */
  lemma NetBenefitMatchesRoi(budget: real, totalRevenue: real, roiRatio: real)
    requires budget > 0.0
    requires roiRatio * budget == totalRevenue
    ensures totalRevenue - budget >= 0.0 <==> roiRatio >= 1.0
  {
    assert totalRevenue - budget == (roiRatio - 1.0) * budget;
  }

  /** Every measure's code is among the codes of its catalog. */
  lemma {:induction false} CodeInCodeSet(s: seq<PortfolioMeasure>, i: nat)
    requires i < |s|
    ensures s[i].code in CodeSet(s)
  {
    if i < |s| - 1 {
      CodeInCodeSet(s[..|s| - 1], i);
    }
  }

  /** When every measure reads the same percentage `v`, the total is `|s| * v`. */
  lemma {:induction false} UniformTotal(alloc: map<string, real>, s: seq<PortfolioMeasure>, v: real)
    requires forall i :: 0 <= i < |s| ==> Pct(alloc, s[i].code) == v
    ensures TotalPct(alloc, s) == |s| as real * v
  {
    if s != [] {
      UniformTotal(alloc, s[..|s| - 1], v);
    }
  }

  /** The fallback allocation gives each of the seven measures 14%, so its
      percentages sum to 98, not 100. */
  lemma DefaultTotalIsNinetyEight()
    ensures DefaultPct == 14.0
    ensures TotalPct(DefaultAllocations(Catalog), Catalog) == 98.0
  {
    forall i | 0 <= i < |Catalog|
      ensures Pct(DefaultAllocations(Catalog), Catalog[i].code) == DefaultPct
    {
      CodeInCodeSet(Catalog, i);
    }
    UniformTotal(DefaultAllocations(Catalog), Catalog, DefaultPct);
  }

  /** No two pairs name the same code. */
  predicate DistinctCodes(entries: seq<(string, real)>)
  {
    forall i, j :: 0 <= i < j < |entries| ==> entries[i].0 != entries[j].0
  }

  /** With distinct codes, the built map holds each pair's value. */
  lemma {:induction false} EntriesLookup(entries: seq<(string, real)>, i: nat)
    requires DistinctCodes(entries) && i < |entries|
    ensures entries[i].0 in EntriesToMap(entries)
    ensures EntriesToMap(entries)[entries[i].0] == entries[i].1
  {
    if i < |entries| - 1 {
      var init := entries[..|entries| - 1];
      assert forall a, b :: 0 <= a < b < |init| ==> init[a].0 == entries[a].0 && init[b].0 == entries[b].0;
      EntriesLookup(init, i);
    }
  }

  /** Reading an allocation that holds each pair's value over a catalog
      whose codes the pairs list in order sums to the pairs' total. */
  lemma {:induction false} TotalMatchesEntries(alloc: map<string, real>, entries: seq<(string, real)>, s: seq<PortfolioMeasure>)
    requires |entries| == |s|
    requires forall i :: 0 <= i < |s| ==> entries[i].0 == s[i].code && Pct(alloc, s[i].code) == entries[i].1
    ensures TotalPct(alloc, s) == EntriesTotal(entries)
  {
    if s != [] {
      TotalMatchesEntries(alloc, entries[..|entries| - 1], s[..|s| - 1]);
    }
  }

  /** Every preset sums to exactly 100%, so under a preset the normaliser
      is 1 and each measure receives `budget * pct / 100`. */
  lemma PresetTotalIsHundred(p: Preset)
    ensures TotalPct(PresetAllocation(p), Catalog) == 100.0
    ensures Scale(TotalPct(PresetAllocation(p), Catalog)) == 1.0
  {
    var e := PresetEntries(p);
    assert DistinctCodes(e);
    forall i | 0 <= i < |Catalog|
      ensures e[i].0 == Catalog[i].code && Pct(PresetAllocation(p), Catalog[i].code) == e[i].1
    {
      EntriesLookup(e, i);
    }
    TotalMatchesEntries(PresetAllocation(p), e, Catalog);
    PresetIsComplete(p);
  }

  // ---------------------------------------------------------------------
  // Numeric inputs and the constraint status
  // ---------------------------------------------------------------------

  /** A numeric input as the page reads it: reading it raises, it is empty,
      or it holds a number. */
  datatype NumericInput = Unreadable | Blank | Entered(value: real)

  const DefaultBudget: real := 500000.0
  const DefaultMaxBudget: real := 750000.0
  const DefaultMinPct: real := 5.0

  /** `input() or default` for a readable input: an empty input or a zero
      falls back to the default. */
  function OrDefault(input: NumericInput, default: real): (r: real)
    ensures r == default || (input.Entered? && r == input.value)
    ensures input.Entered? && input.value != 0.0 ==> r == input.value
    ensures default != 0.0 ==> r != 0.0
  {
    if input.Entered? && input.value != 0.0 then input.value else default
  }

  /** The allocations the scenario table and the forecast use: the default
      map when the budget input raises, the sliders otherwise. */
  function ReadAllocations(budgetIn: NumericInput, sliders: map<string, real>): map<string, real>
  {
    if budgetIn.Unreadable? then DefaultAllocations(Catalog) else AllocationsFrom(sliders, Catalog)
  }

  datatype ConstraintReport = ConstraintReport(totalBudget: real, maxBudget: real, minPct: real, overBudget: bool)

  /** The constraint card: the three inputs, each falling back to its
      default, all three defaults if any read raises, and whether the total
      strictly exceeds the maximum. */
  function ConstraintStatus(totalIn: NumericInput, maxIn: NumericInput, minIn: NumericInput): (r: ConstraintReport)
    ensures r.overBudget <==> r.totalBudget > r.maxBudget
    ensures totalIn.Unreadable? || maxIn.Unreadable? || minIn.Unreadable? ==>
      r == ConstraintReport(500000.0, 750000.0, 5.0, false)
    ensures !totalIn.Unreadable? && !maxIn.Unreadable? && !minIn.Unreadable? ==>
      r.totalBudget == OrDefault(totalIn, 500000.0) && r.maxBudget == OrDefault(maxIn, 750000.0)
      && r.minPct == OrDefault(minIn, 5.0)
  {
    var (total, max, minPct) :=
      if totalIn.Unreadable? || maxIn.Unreadable? || minIn.Unreadable?
      then (DefaultBudget, DefaultMaxBudget, DefaultMinPct)
      else (OrDefault(totalIn, DefaultBudget), OrDefault(maxIn, DefaultMaxBudget), OrDefault(minIn, DefaultMinPct));
    ConstraintReport(total, max, minPct, total > max)
  }
}
