# StarGuard Mobile: the calculation core, modelled in Dafny

StarGuard Mobile is a set of Shiny pages for Medicare Advantage quality
teams. This project models the logic behind five of them. It proves what
those pages compute from their inputs and sample data.

- **ROI portfolio optimizer** (`roi_portfolio_optimizer.dfy`, module
  `RoiPortfolioOptimizer`):
  - the impact/effort quadrant of each measure, and the priority matrix
    that groups the catalog by quadrant;
  - the three allocation presets;
  - the class `RoiOptimizer`, which holds the slider state (a map from
    measure code to percentage);
  - reading the allocations, with the fallback of `100 // 7 = 14`;
  - the scenario table, the portfolio forecast and the budget-constraint
    status.
- **HEDIS gap analyzer** (`hedis_analyzer.dfy`, module `HedisAnalyzer`):
  - the measure catalog and the overview aggregates;
  - the gap and the three-way status of the measure overview;
  - the gap analysis, with its four improvement scenarios, revenue at risk
    and star impact.
- **Provider scorecard** (`provider_scorecard.dfy`, module
  `ProviderScorecard`):
  - the network metrics;
  - the specialty filter, and the stable sort by quality in descending
    order;
  - the "Showing N provider(s)" line;
  - the top-performers card and the improvement-opportunities card.
- **Care gap workflow** (`care_gap_workflow.dfy`, module `CareGapWorkflow`):
  - the queue summary;
  - the priority filter, its count line and its alert;
  - the gap-name lookup and the invariants of the sample queue;
  - the campaign totals.
- **Star rating predictor** (`star_predictor.dfy`, module `StarPredictor`):
  - the guards for an empty selection;
  - the steps after the random draw: clamp, rounding to tenths, confidence
    interval, change, category and quality bonus.

Three small shared modules hold concepts that several pages use:

- `Wording` (`wording.dfy`): the "noun" / "nouns" pluralisation and the
  "Showing N noun(s)" line.
- `Filters` (`filters.dfy`): `Where`, a list comprehension with a condition, generic in the element type. It is used by the specialty filter, the top/support groups and the priority filter, with lemmas for length, membership, order and disjoint tests.
- `Rounding` (`rounding.dfy`): Python's `round`, which rounds half to even.
  The lemma `RoundIsNearest` proves that the result is the nearest integer,
  that a tie goes to the even integer, and that an integral value is left
  unchanged. The lemma `RoundIsMonotone` proves that rounding keeps order.

Modelling conventions:

- Percentages, rates and money are `real`.
- Star ratings are whole tenths of a star (`35` is 3.5 stars).
- Counts are `nat`.
- A numeric input that may be empty or may raise is a `NumericInput`:
  `Unreadable` (the read raises), `Blank` (the read is falsy) or
  `Entered(x)`.
- A dictionary lookup that raises `KeyError` on an unknown key becomes its
  own constructor of the result datatype (`UnknownMeasure`,
  `UnknownContract`, `NotInTable`).

Three consequences of the code as written:

- The ROI optimizer's gap is `benchmark - current_rate` with no floor at
  zero. A measure already above its benchmark therefore subtracts revenue;
  see `ExceedingMeasureSubtractsRevenue`.
- Per-measure revenue is `roi_per_point * improvement * pct / 100`. It uses
  the raw slider percentage, not the share normalised by the total. Total
  revenue is therefore additive in the allocations and independent of the
  budget.
- The budget input falls back to 500000 on an empty or zero entry, and the
  allocations fall back to 14 each. The effective budget is therefore never
  0, and the "N/A" ROI branch cannot be reached from the page. `ScenarioTable`
  still models that branch, for a budget passed in directly.

## Model

| member | source | states |
|---|---|---|
| RoiPortfolioOptimizer.QuadrantOf | app/pages/roi_portfolio_optimizer.py:107-116 | Total, with inclusive thresholds. Quick Wins iff impact ≥ 6.5 and effort ≤ 2; Major Projects iff impact ≥ 6.5 and effort > 2; Fill-Ins iff impact < 6.5 and effort ≤ 2; Hard Slogs otherwise. |
| RoiPortfolioOptimizer.PriorityMatrix | app/pages/roi_portfolio_optimizer.py:203-211 | The loop builds exactly the four quadrant keys. Each list is the catalog measures of that quadrant, in catalog order. |
| RoiPortfolioOptimizer.InQuadrantMembers | app/pages/roi_portfolio_optimizer.py:203-211 | A measure is listed in quadrant q iff it is in the catalog and classifies as q. |
| RoiPortfolioOptimizer.QuadrantsPartitionCatalog | app/pages/roi_portfolio_optimizer.py:203-211 | The four lists together are a permutation of the catalog, so every measure lands in exactly one list. |
| RoiPortfolioOptimizer.QuadrantsCoverCatalog | app/pages/roi_portfolio_optimizer.py:203-211 | The four list lengths add up to the catalog length. |
| RoiPortfolioOptimizer.CatalogMatrix | app/pages/roi_portfolio_optimizer.py:18-96 | Shipped catalog: CCS, MAD, BCS and CBP are Quick Wins; HBD is a Major Project; OMW and COL are Hard Slogs; there are no Fill-Ins. |
| RoiPortfolioOptimizer.CatalogQuadrant | app/pages/roi_portfolio_optimizer.py:209-211 | Each quadrant of the shipped catalog is the measure-by-measure selection, in catalog order. |
| RoiPortfolioOptimizer.PresetCoversCatalog | app/pages/roi_portfolio_optimizer.py:92-96 | Every preset maps exactly the seven catalog codes. |
| RoiPortfolioOptimizer.PresetSumsToHundred | app/pages/roi_portfolio_optimizer.py:92-96 | The values of every preset add up to 100. |
| RoiPortfolioOptimizer.PresetIsComplete | app/pages/roi_portfolio_optimizer.py:92-96 | Both of the above facts together. |
| RoiPortfolioOptimizer.PresetTotalIsHundred | app/pages/roi_portfolio_optimizer.py:346-347 | After a preset, total_pct is 100, so scale is 1. |
| RoiPortfolioOptimizer.RoiOptimizer.ApplyScenario | app/pages/roi_portfolio_optimizer.py:168-172 | Sets each preset code's slider to the preset value and changes no other slider. |
| RoiPortfolioOptimizer.AppliedPresetIsRead | app/pages/roi_portfolio_optimizer.py:267-276 | Reading the sliders after a preset gives exactly the preset's allocation, whatever the sliders held before. |
| RoiPortfolioOptimizer.RoiOptimizer.GetAllocations | app/pages/roi_portfolio_optimizer.py:267-276 | One entry per catalog code: the slider value where there is one, else 100 // 7. |
| RoiPortfolioOptimizer.DefaultTotalIsNinetyEight | app/pages/roi_portfolio_optimizer.py:345-346 | The fallback `100 // len(PORTFOLIO_MEASURES)` is 14 for the seven-measure catalog, so the all-fallback allocation totals 98, not 100. |
| RoiPortfolioOptimizer.UniformTotal | app/pages/roi_portfolio_optimizer.py:346 | Equal percentages v over n codes total n·v. |
| RoiPortfolioOptimizer.TotalMatchesEntries | app/pages/roi_portfolio_optimizer.py:346 | total_pct equals the sum of the values of the pairs that define the allocation. |
| RoiPortfolioOptimizer.Scale | app/pages/roi_portfolio_optimizer.py:347 | The scale is never 0: when total_pct ≠ 0 it is total_pct / 100, and when total_pct = 0 it is 1. |
| RoiPortfolioOptimizer.AllocDollarsIsShare | app/pages/roi_portfolio_optimizer.py:346-352 | A measure's dollars are budget·pct/total_pct. When total_pct = 0 the fallback scale of 1 gives budget·pct/100, with no division by zero. |
| RoiPortfolioOptimizer.DollarsAreShare | app/pages/roi_portfolio_optimizer.py:346-352 | The summed dollars times total_pct equal budget times the summed percentages (proved by induction). |
| RoiPortfolioOptimizer.DollarsSumToBudget | app/pages/roi_portfolio_optimizer.py:346-352 | When total_pct ≠ 0, the dollar column of the table sums to the budget. |
| RoiPortfolioOptimizer.RowDollarsSum | app/pages/roi_portfolio_optimizer.py:350-352 | The table's dollar column sums to the directly defined dollar total. |
| RoiPortfolioOptimizer.AllocDollarsIsLinear | app/pages/roi_portfolio_optimizer.py:352 | A measure's dollars scale linearly with the budget. |
| RoiPortfolioOptimizer.DollarsScaleWithBudget | app/pages/roi_portfolio_optimizer.py:350-352 | The dollar total scales linearly with the budget. |
| RoiPortfolioOptimizer.RowScales | app/pages/roi_portfolio_optimizer.py:350-357 | Multiplying the budget by k multiplies a measure's row dollars by k and leaves its revenue unchanged (each table row is RowOf its measure, by the contract of Rows). |
| RoiPortfolioOptimizer.ZeroTotalGivesZeroRows | app/pages/roi_portfolio_optimizer.py:346-357 | When the non-negative percentages total 0, every row has 0 dollars and 0 revenue, and the total revenue is 0. |
| RoiPortfolioOptimizer.TotalPctNonNegative | app/pages/roi_portfolio_optimizer.py:346 | Non-negative sliders give a non-negative total_pct. |
| RoiPortfolioOptimizer.Improvement | app/pages/roi_portfolio_optimizer.py:353-355 | The improvement is at most 3 and at most the gap, and it equals one of the two. |
| RoiPortfolioOptimizer.ExceedingMeasureSubtractsRevenue | app/pages/roi_portfolio_optimizer.py:353-357 | The gap has no floor: a measure above its benchmark has a negative improvement and a negative revenue. |
| RoiPortfolioOptimizer.CatalogImprovementsAreCapped | app/pages/roi_portfolio_optimizer.py:353-355 | Every shipped measure has a gap above 3, so its improvement is exactly 3. |
| RoiPortfolioOptimizer.Rows | app/pages/roi_portfolio_optimizer.py:350-357 | One row per catalog measure, in catalog order, each computed from its own measure. |
| RoiPortfolioOptimizer.ScenarioTable | app/pages/roi_portfolio_optimizer.py:346-374 | The loop yields exactly the specified rows and revenue total. ROI is revenue/budget, or "N/A" when the budget is 0. |
| RoiPortfolioOptimizer.RowRevenueSumsToTotal | app/pages/roi_portfolio_optimizer.py:349-357 | The table's revenue column sums to the total revenue, which is also the forecast's total. |
| RoiPortfolioOptimizer.Forecast | app/pages/roi_portfolio_optimizer.py:390-400 | The loop yields the same total revenue as the table; roi_ratio·budget = revenue (0 when the budget is 0); net benefit = revenue − budget. |
| RoiPortfolioOptimizer.RevenueIsAdditive | app/pages/roi_portfolio_optimizer.py:356-357 | Total revenue is additive in the allocations. |
| RoiPortfolioOptimizer.CatalogRevenue | app/pages/roi_portfolio_optimizer.py:393-398 | The total over the shipped catalog is the sum of the seven per-measure revenues. |
| RoiPortfolioOptimizer.CbpOmwExample | app/pages/roi_portfolio_optimizer.py:393-400 | CBP = 60 and OMW = 40 give 252000 + 102000 = 354000. With the 500000 default budget, ROI is 0.708 and net benefit is −146000. |
| RoiPortfolioOptimizer.NetBenefitMatchesRoi | app/pages/roi_portfolio_optimizer.py:399-400 | For a positive budget, net benefit ≥ 0 iff ROI ≥ 1. |
| RoiPortfolioOptimizer.RoiOptimizer.ScenarioResults | app/pages/roi_portfolio_optimizer.py:337-374 | The budget is the entry, or 500000 when the entry is empty, zero or unreadable, so it is never 0. The allocations fall back to 14 each when the budget cannot be read. Rows, total and ROI are those of the table. |
| RoiPortfolioOptimizer.RoiOptimizer.PortfolioForecast | app/pages/roi_portfolio_optimizer.py:381-400 | Same inputs as the table. ROI times budget is the total revenue, and net benefit plus budget is the total revenue. |
| RoiPortfolioOptimizer.OrDefault | app/pages/roi_portfolio_optimizer.py:314-318 | `x or default`: a non-zero entry is kept, anything else gives the default, and a non-zero default never gives 0. |
| RoiPortfolioOptimizer.ConstraintStatus | app/pages/roi_portfolio_optimizer.py:310-319 | over_budget iff total > max, strictly. Any unreadable input resets all three values to 500000 / 750000 / 5. |
| HedisAnalyzer.IndexOf | app/pages/hedis_analyzer.py:185 | The first catalog position with the code, or −1 when no measure has it. |
| HedisAnalyzer.StatusOf | app/pages/hedis_analyzer.py:189-197 | Exceeding iff current ≥ benchmark. Otherwise Above National Average iff current ≥ national average. Otherwise Below. |
| HedisAnalyzer.ExceedingIffNoGap | app/pages/hedis_analyzer.py:186-191 | The status is Exceeding iff the gap is ≤ 0. |
| HedisAnalyzer.CatalogStatuses | app/pages/hedis_analyzer.py:189-197 | Every shipped measure has a positive gap and is Below National Average. |
| HedisAnalyzer.MeasureOverview | app/pages/hedis_analyzer.py:176-197 | An empty selection gives no overview and indexes nothing. An unknown code is a failed lookup. Otherwise the overview shows the measure, its gap and its status. |
| HedisAnalyzer.Scenarios | app/pages/hedis_analyzer.py:269-302 | Four scenarios in order, with improvements 1, 3, 5 and the gap. Each new rate is current + improvement, so the full-closure rate is the benchmark. Each revenue is round(roi_per_point·improvement). |
| HedisAnalyzer.ScenarioRevenueIsNear | app/pages/hedis_analyzer.py:274-298 | A scenario's revenue is within 0.5 of roi_per_point·improvement. |
| HedisAnalyzer.RevenueIsMonotone | app/pages/hedis_analyzer.py:274-298 | With roi_per_point ≥ 0, a larger improvement never earns less revenue. |
| HedisAnalyzer.ScenarioRevenueIsMonotone | app/pages/hedis_analyzer.py:269-302 | With roi_per_point ≥ 0, of two scenarios the one with the larger improvement never shows less revenue. |
| HedisAnalyzer.StarImpactFollowsGap | app/pages/hedis_analyzer.py:305 | For a positive star weight, the star impact is positive iff the gap is, and zero iff the gap is. Of two measures with the same weight, the larger gap never has the smaller impact. |
| HedisAnalyzer.AnalyzeGaps | app/pages/hedis_analyzer.py:249-328 | An empty selection gives "Selection Required". Otherwise the analysis carries the gap, the star impact, current − national, the four scenarios, and a revenue at risk equal to the full-closure revenue. |
| HedisAnalyzer.OverviewMatchesAnalysis | app/pages/hedis_analyzer.py:256-266 | The overview and the analysis agree on selection, lookup failure, measure and gap. |
| HedisAnalyzer.CbpAnalysis | app/pages/hedis_analyzer.py:266-328 | CBP: gap 9.6, star impact 0.672, 1,344,000 at risk, 140,000 in the first scenario. |
| HedisAnalyzer.GapSumSplits | app/pages/hedis_analyzer.py:107 | The summed gaps are the summed benchmarks minus the summed rates. |
| HedisAnalyzer.AverageGapIsDifferenceOfMeans | app/pages/hedis_analyzer.py:107 | The average gap is the mean benchmark minus the mean rate. |
| HedisAnalyzer.PopulationBoundsEach | app/pages/hedis_analyzer.py:108 | The total population is at least each measure's population. |
| HedisAnalyzer.CatalogOverview | app/pages/hedis_analyzer.py:107-108 | The shipped catalog has 7 measures and 38,540 members. Its gaps sum to 70.3, so the average gap is 70.3/7. |
| Rounding.RoundIsNearest | app/pages/hedis_analyzer.py:274 | Python's round: within 0.5 of its argument, ties to even, integers unchanged. |
| Rounding.RoundIsMonotone | app/pages/hedis_analyzer.py:274 | Rounding preserves ≤. |
| ProviderScorecard.MetricsOf | app/pages/provider_scorecard.py:129-136 | The provider count is the list length, the panel total is the sum of panel sizes, each average is the `Mean` of its sum over the count, top performers are the quality ≥ 90 group and improvement-needed the quality < 85 group, and these two never exceed the count. |
| ProviderScorecard.Mean | app/pages/provider_scorecard.py:132-133 | An average times the number of providers gives back the sum it was taken from. |
| Filters.DisjointFilters | app/pages/provider_scorecard.py:134-135 | Two filters that no element passes both select at most as many elements together as the list holds. |
| ProviderScorecard.AverageQualityInRange | app/pages/provider_scorecard.py:132 | When every quality score lies in [lo, hi], so does the average. |
| ProviderScorecard.SumQualityBounds | app/pages/provider_scorecard.py:132 | Bounds on each score bound the sum by n·lo and n·hi. |
| ProviderScorecard.NetworkSample | app/pages/provider_scorecard.py:17-136 | Shipped network: 6 providers, 5,175 panel members, mean quality 546.3/6, mean gap closure 460.9/6, 4 top performers, 0 needing improvement. |
| ProviderScorecard.NetworkTop | app/pages/provider_scorecard.py:134 | The sample's top performers are Mitchell, Chen, Thompson and Wilson, in network order. |
| ProviderScorecard.NetworkNoneNeedSupport | app/pages/provider_scorecard.py:135 | Nobody in the sample is below 85. |
| ProviderScorecard.NetworkTopSorted | app/pages/provider_scorecard.py:401 | Sorting the sample's top performers gives Chen, Wilson, Mitchell, Thompson. |
| ProviderScorecard.NetworkPanel | app/pages/provider_scorecard.py:131 | The shipped panel sizes total 5,175. |
| ProviderScorecard.NetworkQuality | app/pages/provider_scorecard.py:132 | The shipped quality scores total 546.3. |
| ProviderScorecard.NetworkGapClosure | app/pages/provider_scorecard.py:133 | The shipped gap-closure rates total 460.9. |
| Filters.WhereIsShorter | app/pages/provider_scorecard.py:272 | A filtered list is never longer than its input. |
| Filters.WhereMembers | app/pages/provider_scorecard.py:294 | A list comprehension keeps x iff x is in the list and passes the test. |
| Filters.WhereAppend | app/pages/provider_scorecard.py:294 | Filtering distributes over concatenation, so order is kept. |
| Filters.WhereAllKept | app/pages/provider_scorecard.py:294 | A filter that every element passes returns the list unchanged. |
| ProviderScorecard.FilterBySpecialtyMembers | app/pages/provider_scorecard.py:288-294 | "All" gives the whole network. Otherwise a provider is kept iff it is in the network and has that specialty. |
| ProviderScorecard.FilterBySpecialtyKeepsOrder | app/pages/provider_scorecard.py:288-294 | The filter keeps network order: it distributes over concatenation. |
| ProviderScorecard.InsertIsPermutation | app/pages/provider_scorecard.py:297 | Inserting adds exactly the inserted provider. |
| ProviderScorecard.InsertKeepsDescending | app/pages/provider_scorecard.py:297 | Inserting into a list of non-increasing quality keeps it non-increasing. |
| ProviderScorecard.SortIsPermutation | app/pages/provider_scorecard.py:297 | The sorted list holds the same providers as its input, each as often. |
| ProviderScorecard.SortIsDescending | app/pages/provider_scorecard.py:297 | The sorted list has non-increasing quality. |
| ProviderScorecard.SortIsDescendingPermutation | app/pages/provider_scorecard.py:297 | The sorted list is a permutation of its input, with quality non-increasing. |
| ProviderScorecard.InsertIsStable | app/pages/provider_scorecard.py:297 | Among equal scores, the inserted provider goes before those already there. |
| ProviderScorecard.SortIsStable | app/pages/provider_scorecard.py:297 | `sorted(..., reverse=True)` is stable: providers with equal quality keep their original order. |
| ProviderScorecard.FilteredProviderCount | app/pages/provider_scorecard.py:262-276 | The count is the length of the specialty filter: at most the network size, and equal to it for "All". The noun is "provider" iff the count is 1. |
| ProviderScorecard.CountMatchesList | app/pages/provider_scorecard.py:267-297 | The count shown equals the length of the rendered list, which is the filtered list sorted best first. |
| ProviderScorecard.TopPerformers | app/pages/provider_scorecard.py:395-422 | The headline counts all providers with quality ≥ 90. The cards shown are the first min(3, count) of that group sorted by quality, as `sorted_top[:3]`. |
| ProviderScorecard.TopPerformersShowBest | app/pages/provider_scorecard.py:400-422 | Each shown provider is a network provider with quality ≥ 90. They are shown highest first, and every shown card scores at least as high as every top performer after it in the sorted group. |
| ProviderScorecard.ImprovementOpportunities | app/pages/provider_scorecard.py:428-443 | A success alert iff nobody is below 85. Otherwise the list is exactly the providers below 85, in network order, with a count and a pluralised noun. |
| ProviderScorecard.OpportunitiesAreBelowThreshold | app/pages/provider_scorecard.py:433 | A provider is listed iff it is in the network with quality < 85. |
| ProviderScorecard.NetworkCards | app/pages/provider_scorecard.py:395-443 | Shipped network: opportunities show the success alert; the top card counts 4 and shows Chen, Wilson and Mitchell. |
| Wording.Plural | app/pages/provider_scorecard.py:443 | The noun gets a trailing "s" iff the count is not 1. |
| Wording.PluralEndsInS | app/pages/care_gap_workflow.py:398 | For a noun not ending in "s", the text ends in "s" iff the count is not 1. |
| Wording.Showing | app/pages/care_gap_workflow.py:294 | "Showing N noun(s)": keeps the count; the noun is singular iff the count is 1. |
| CareGapWorkflow.SummaryOf | app/pages/care_gap_workflow.py:265-268 | Total is the queue length. Open gaps is the sum of the members' open gaps. High priority is the number of "High" members, at most the total. Average risk times total is the risk sum. |
| CareGapWorkflow.QueueSample | app/pages/care_gap_workflow.py:265-268 | Sample queue: 8 members, 16 open gaps, 3 high priority, average risk 19.0/8. |
| CareGapWorkflow.QueueOpenGaps | app/pages/care_gap_workflow.py:266 | The sample queue has 16 open gaps in total. |
| CareGapWorkflow.QueueRisk | app/pages/care_gap_workflow.py:268 | The sample queue's risk scores sum to 19.0. |
| CareGapWorkflow.QueueHighPriority | app/pages/care_gap_workflow.py:267 | The sample's high-priority members are its first, second and sixth, in queue order. |
| CareGapWorkflow.FilterByPriorityMembers | app/pages/care_gap_workflow.py:309-312 | "All" gives the whole queue. Otherwise a member is kept iff it is in the queue with that priority. |
| CareGapWorkflow.FilterByPriorityKeepsOrder | app/pages/care_gap_workflow.py:309-312 | The priority filter keeps queue order. |
| CareGapWorkflow.FilteredCount | app/pages/care_gap_workflow.py:280-294 | The count is the length of the priority filter: at most the queue length, and equal to it for "All". The noun is "member" iff the count is 1. |
| CareGapWorkflow.MemberQueue | app/pages/care_gap_workflow.py:306-403 | Renders exactly the filtered members. The alert is "No members match…" iff the list is empty; otherwise it is "N member(s) ready for outreach", with N the list length and the noun singular iff N = 1. |
| CareGapWorkflow.CountMatchesQueue | app/pages/care_gap_workflow.py:285-403 | "Showing N member(s)" and the rendered queue use the same filter, so N is its length, and the alert repeats N and its noun. |
| CareGapWorkflow.GapNames | app/pages/care_gap_workflow.py:352-356 | When all of a member's gaps are defined, there is one name per gap, each looked up from the definitions. |
| CareGapWorkflow.QueueIsWellFormed | app/pages/care_gap_workflow.py:17-154 | Sample queue: every gap code has a definition (line 355 indexes without a guard), open_gaps = len(gaps), and every priority has a colour. |
| CareGapWorkflow.OpenGapsAreListed | app/pages/care_gap_workflow.py:266 | When open_gaps = len(gaps) for each member, the summed open gaps are the number of listed gaps. |
| CareGapWorkflow.CampaignTotalsAdd | app/pages/care_gap_workflow.py:552 | The campaign totals are additive over concatenation of campaign lists. |
| CareGapWorkflow.CampaignSample | app/pages/care_gap_workflow.py:469-552 | The shipped campaigns close 419 gaps and capture 369,860. |
| StarPredictor.ContractDetails | app/pages/star_predictor.py:107-130 | Nothing for an empty selection. A failed lookup for an id outside the table. Otherwise the selected contract. |
| StarPredictor.Clamped | app/pages/star_predictor.py:161-162 | The clamped value lies in [1.0, 5.0]. It equals base + drift when that is already inside, and 1.0 or 5.0 when it is beyond that bound. |
| StarPredictor.PredictionInRange | app/pages/star_predictor.py:161-162 | The prediction is between 10 and 50 tenths, within half a tenth of the clamped value. |
| StarPredictor.PredictionIsMonotone | app/pages/star_predictor.py:161-162 | A larger draw never lowers the prediction. |
| StarPredictor.NoDriftKeepsRating | app/pages/star_predictor.py:161-162 | With zero drift, a rating in [1.0, 5.0] is predicted unchanged. |
| StarPredictor.DrawBoundsChange | app/pages/star_predictor.py:158-162 | For a draw in [−0.5, 0.8], the prediction is between base − 5 and base + 8 tenths. |
| StarPredictor.ConfidenceInterval | app/pages/star_predictor.py:165-166 | low = max(1.0, p − 0.3) and high = min(5.0, p + 0.3): low is p − 0.3 iff p ≥ 1.3, else 1.0; high is p + 0.3 iff p ≤ 4.7, else 5.0; and 1.0 ≤ low ≤ p ≤ high ≤ 5.0. |
| StarPredictor.ChangeFrom | app/pages/star_predictor.py:169-171 | The change is p − base. "+" is shown iff it is > 0. Green iff > 0, red iff < 0, grey iff 0. |
| StarPredictor.CategoryOf | app/pages/star_predictor.py:174-188 | Exactly one of five categories, by thresholds 4.5 / 4.0 / 3.5 / 3.0 tested in descending order. |
| StarPredictor.CategoryIsMonotone | app/pages/star_predictor.py:174-188 | A higher rating never gets a lower category. |
| StarPredictor.HalfStarsIsNearest | app/pages/star_predictor.py:192 | round(p·2) is the nearest half star, never a tie, equal to (p + 2) / 5 in tenths. |
| StarPredictor.BonusPerMember | app/pages/star_predictor.py:191-193 | Levels 3.0–5.0 give 25·(half stars − 4), i.e. 50–150. Any other level gives the default 25. |
| StarPredictor.BonusIsMonotone | app/pages/star_predictor.py:191-194 | For predictions up to 5.0, a higher rating never earns a lower per-member or total bonus. |
| StarPredictor.PredictionResults | app/pages/star_predictor.py:135-194 | An empty selection gives "Selection Required" and computes nothing, and an identifier outside the table fails the lookup. Otherwise the card holds the clamped and rounded prediction p (`PredictedRating`), its interval `ConfidenceInterval(p)` within 1.0 ≤ low ≤ p ≤ high ≤ 5.0, the change `ChangeFrom(base, p)`, the category of p, the half stars `HalfStars(p)`, the bonus `BonusPerMember` of those half stars (25..150 per member), and total = members × bonus. |
| StarPredictor.DetailsMatchPrediction | app/pages/star_predictor.py:107-151 | The details panel and the prediction agree on whether a contract is selected, and on which. |
| StarPredictor.SamplePrediction | app/pages/star_predictor.py:151-194 | H1234 with a draw of +0.2: 3.7 stars, "Good", +0.2 in green, interval 3.4–4.0, 75 per member, 3,392,250 in total. |

## Left out

- Shiny plumbing is not modelled: the `@render.ui` / `@reactive` wiring, the `_is_on_*_page` / `get_current_page()` guards, HTML and CSS construction, colour maps and number formatting. These are user interface with no behaviour to state beyond routing.
- `random.seed(hash(contract_id))` and the two `random.uniform` draws are not modelled. Their sum is the parameter `drift`; `DrawBoundsChange` states what the draw's range implies.
- Floating point is not modelled: every quantity is an exact `real`. Python's `round(x, 1)` on the clamped prediction is rounding half to even of the exact value times 10. A binary float can sit just beside a decimal tie, so it may round the other way from the model.
- `StarPredictor.HalfStars` uses `round(p * 2)` on exact tenths, which is never a tie. The float computation agrees except where float error crosses a half.
- The HEDIS performance page, the static-display pages, the navigation app, the theme configuration and the layout widget builders are not part of this model.
- ROI sliders are a map from code to percentage. The slider widgets and their `min` / `max` bounds are not modelled, so a slider value can be any real.
- TotalPct: sums the percentages of the catalog codes, where the page sums every value of the allocation map. The two agree when the map's keys are exactly the catalog codes, which `GetAllocations`, the presets and the default allocation all guarantee. `ScenarioTable`, `Forecast` and `DollarsSumToBudget` are stated for any map, and for a map with extra keys they describe the catalog-code sum.
- `RoiPortfolioOptimizer.RoiOptimizer.ScenarioResults` and `PortfolioForecast` take the budget input as a parameter. The page reads it from the widget at call time.
- The count headline of `ProviderScorecard.TopPerformers` always reads "providers", even for a count of 1, as the page does. The model keeps the count only.
- Each provider's per-measure HEDIS scores (`hedis_performance`) are displayed by the scorecard but are not part of the `Provider` datatype. The model proves nothing about them.
- The member cards' phone, contact method and last contact are data only. The model proves nothing about them.
