/** The star rating predictor page: contract selection, and the steps after
    the random draw that turn a drifted rating into the prediction card
    (clamp, rounding, confidence interval, change, category, bonus).
    Ratings are whole tenths of a star (`35` is 3.5 stars); the random draw
    `trend + variance` is the real parameter `drift`. */
module StarPredictor {
  import opened Rounding

  /** One Medicare Advantage contract; `currentStars` in tenths. */
  datatype Contract = Contract(name: string, currentStars: int, members: nat, state: string)

  const SampleContracts: map<string, Contract> := map[
    "H1234" := Contract("BlueCross Medicare Advantage Plus", 35, 45230, "Pennsylvania"),
    "H5678" := Contract("UnitedHealthcare MA Premier", 40, 78450, "California"),
    "H9012" := Contract("Humana Gold Plus", 45, 62180, "Florida"),
    "H3456" := Contract("Aetna Medicare Advantage", 30, 38920, "Texas"),
    "H7890" := Contract("Cigna HealthSpring", 35, 51340, "Arizona")
  ]

  // ---------------------------------------------------------------------
  // Contract details
  // ---------------------------------------------------------------------

  /** The details panel: nothing before a selection, the lookup failing for
      an identifier outside the table, else the contract. */
  datatype Details = NoDetails | NotInTable | Shown(contractId: string, contract: Contract)

  function ContractDetails(contracts: map<string, Contract>, contractId: string): (r: Details)
    ensures r == NoDetails <==> contractId == ""
    ensures r == NotInTable <==> contractId != "" && contractId !in contracts
    ensures r.Shown? ==> contractId in contracts && r.contract == contracts[contractId] && r.contractId == contractId
  {
    if contractId == "" then NoDetails
    else if contractId !in contracts then NotInTable
    else Shown(contractId, contracts[contractId])
  }

  // ---------------------------------------------------------------------
  // Predicted rating
  // ---------------------------------------------------------------------

  /** The drifted rating `base + drift`, held to [1.0, 5.0] stars. */
  function Clamped(base: int, drift: real): (c: real)
    ensures 1.0 <= c <= 5.0
    ensures 1.0 <= base as real / 10.0 + drift <= 5.0 ==> c == base as real / 10.0 + drift
    ensures c == 1.0 <== base as real / 10.0 + drift <= 1.0
    ensures c == 5.0 <== base as real / 10.0 + drift >= 5.0
  {
    var x := base as real / 10.0 + drift;
    if x > 5.0 then 5.0 else if x < 1.0 then 1.0 else x
  }

  /** The clamped rating rounded to one decimal, in tenths. */
  function PredictedRating(base: int, drift: real): int
  {
    RoundHalfEven(Clamped(base, drift) * 10.0)
  }

  /** The prediction is a rating between 1.0 and 5.0 stars, and the nearest
      tenth to the clamped value. */
  lemma PredictionInRange(base: int, drift: real)
    ensures 10 <= PredictedRating(base, drift) <= 50
    ensures Clamped(base, drift) * 10.0 - 0.5 <= PredictedRating(base, drift) as real <= Clamped(base, drift) * 10.0 + 0.5
  {
    var x := Clamped(base, drift) * 10.0;
    RoundIsNearest(x);
    RoundIsNearest(10.0);
    RoundIsNearest(50.0);
    RoundIsMonotone(10.0, x);
    RoundIsMonotone(x, 50.0);
  }

  /** A larger draw never predicts a lower rating. */
  lemma PredictionIsMonotone(base: int, d1: real, d2: real)
    requires d1 <= d2
    ensures PredictedRating(base, d1) <= PredictedRating(base, d2)
  {
    RoundIsMonotone(Clamped(base, d1) * 10.0, Clamped(base, d2) * 10.0);
  }

  /** With no drift a rating between 1.0 and 5.0 is predicted unchanged. */
  lemma NoDriftKeepsRating(base: int)
    requires 10 <= base <= 50
    ensures PredictedRating(base, 0.0) == base
  {
    var x := Clamped(base, 0.0) * 10.0;
    assert x == base as real;
    RoundIsNearest(x);
  }

  /** The draw `uniform(-0.3, 0.6) + uniform(-0.2, 0.2)` lies in
      [-0.5, 0.8], so a prediction moves a rating by at most five tenths
      down and eight tenths up. */
  lemma DrawBoundsChange(base: int, drift: real)
    requires 10 <= base <= 50
    requires -0.5 <= drift <= 0.8
    ensures base - 5 <= PredictedRating(base, drift) <= base + 8
  {
    var x := Clamped(base, drift) * 10.0;
    assert (base - 5) as real <= x <= (base + 8) as real;
    RoundIsMonotone((base - 5) as real, x);
    RoundIsMonotone(x, (base + 8) as real);
    RoundIsNearest((base - 5) as real);
    RoundIsNearest((base + 8) as real);
  }

  // ---------------------------------------------------------------------
  // Confidence interval, change and category
  // ---------------------------------------------------------------------

  datatype Interval = Interval(low: int, high: int)

  /** Three tenths either side of the prediction, held to [1.0, 5.0]. */
  function ConfidenceInterval(p: int): (r: Interval)
    ensures 10 <= r.low && r.high <= 50
    ensures 10 <= p <= 50 ==> r.low <= p <= r.high
    ensures r.low == p - 3 <==> p >= 13
    ensures r.high == p + 3 <==> p <= 47
    ensures p < 13 ==> r.low == 10
    ensures p > 47 ==> r.high == 50
  {
    Interval(if p - 3 > 10 then p - 3 else 10, if p + 3 < 50 then p + 3 else 50)
  }

  datatype ChangeColour = Green | Red | Grey

  /** The change from the current rating, in tenths, with its sign shown. */
  datatype Change = Change(tenths: int, plus: bool, colour: ChangeColour)

  function ChangeFrom(base: int, p: int): (r: Change)
    ensures base + r.tenths == p
    ensures r.plus <==> p > base
    ensures r.colour == Green <==> p > base
    ensures r.colour == Red <==> p < base
    ensures r.colour == Grey <==> p == base
  {
    var change := p - base;
    Change(change, change > 0, if change > 0 then Green else if change < 0 then Red else Grey)
  }

  datatype Category = Excellent | VeryGood | Good | Fair | NeedsImprovement

  /** The rating category, thresholds tested from the top. */
  function CategoryOf(p: int): (c: Category)
    ensures c == Excellent <==> p >= 45
    ensures c == VeryGood <==> 40 <= p < 45
    ensures c == Good <==> 35 <= p < 40
    ensures c == Fair <==> 30 <= p < 35
    ensures c == NeedsImprovement <==> p < 30
  {
    if p >= 45 then Excellent
    else if p >= 40 then VeryGood
    else if p >= 35 then Good
    else if p >= 30 then Fair
    else NeedsImprovement
  }

  /** Categories from the lowest (0) to the highest (4). */
  function Rank(c: Category): nat
  {
    match c
    case NeedsImprovement => 0
    case Fair => 1
    case Good => 2
    case VeryGood => 3
    case Excellent => 4
  }

  /** A higher rating never falls in a lower category. */
  lemma CategoryIsMonotone(p: int, q: int)
    requires p <= q
    ensures Rank(CategoryOf(p)) <= Rank(CategoryOf(q))
  {
  }

  // ---------------------------------------------------------------------
  // Quality bonus
  // ---------------------------------------------------------------------

  /** `round(p * 2)`: the rating in half stars. */
  function HalfStars(p: int): int
  {
    RoundHalfEven(p as real * 2.0 / 10.0)
  }

  /** The rating in half stars is the nearest half star: a rating in tenths
      is never a tie, so it is `(p + 2) / 5` rounded down. */
  lemma HalfStarsIsNearest(p: int)
    ensures -2 <= p - 5 * HalfStars(p) <= 2
    ensures HalfStars(p) == (p + 2) / 5
  {
    var x := p as real * 2.0 / 10.0;
    var h := HalfStars(p);
    RoundIsNearest(x);
    assert (p as real) - 2.5 <= (5 * h) as real <= (p as real) + 2.5;
  }

  /** The bonus per member for a level in half stars, 25 when the level is
      not in the table. */
  function BonusPerMember(h: int): (b: nat)
    ensures 6 <= h <= 10 ==> b == 25 * (h - 4)
    ensures h < 6 || h > 10 ==> b == 25
    ensures 25 <= b <= 150
  {
    if h == 10 then 150
    else if h == 9 then 125
    else if h == 8 then 100
    else if h == 7 then 75
    else if h == 6 then 50
    else 25
  }

  /** Over the ratings a prediction can take, a higher rating never earns a
      lower bonus per member, nor a lower total. */
  lemma BonusIsMonotone(p: int, q: int, members: nat)
    requires p <= q <= 50
    ensures BonusPerMember(HalfStars(p)) <= BonusPerMember(HalfStars(q))
    ensures members * BonusPerMember(HalfStars(p)) <= members * BonusPerMember(HalfStars(q))
  {
    HalfStarsIsNearest(p);
    HalfStarsIsNearest(q);
    var bp, bq := BonusPerMember(HalfStars(p)), BonusPerMember(HalfStars(q));
    assert bp <= bq;
    MultiplyOrder(members, bp, bq);
  }

  lemma MultiplyOrder(k: nat, a: nat, b: nat)
    requires a <= b
    ensures k * a <= k * b
  {
  }

  // ---------------------------------------------------------------------
  // Prediction card
  // ---------------------------------------------------------------------

  datatype Prediction = Prediction(
    predicted: int,
    interval: Interval,
    change: Change,
    category: Category,
    halfStars: int,
    bonusPerMember: nat,
    totalBonus: nat)

  /** The result card: a warning before a selection, the lookup failing for
      an identifier outside the table, else the prediction. */
  datatype PredictionCard = SelectionRequired | UnknownContract | Forecast(contractId: string, contract: Contract, prediction: Prediction)

  function PredictionResults(contracts: map<string, Contract>, contractId: string, drift: real): (r: PredictionCard)
    ensures r == SelectionRequired <==> contractId == ""
    ensures r == UnknownContract <==> contractId != "" && contractId !in contracts
    ensures r.Forecast? ==>
      && contractId in contracts
      && r.contract == contracts[contractId]
      && var pr := r.prediction;
      && pr.predicted == PredictedRating(r.contract.currentStars, drift)
      && pr.interval == ConfidenceInterval(pr.predicted)
      && pr.change == ChangeFrom(r.contract.currentStars, pr.predicted)
      && pr.halfStars == HalfStars(pr.predicted)
      && pr.bonusPerMember == BonusPerMember(pr.halfStars)
      && 10 <= pr.interval.low <= pr.predicted <= pr.interval.high <= 50
      && r.contract.currentStars + pr.change.tenths == pr.predicted
      && pr.category == CategoryOf(pr.predicted)
      && 25 <= pr.bonusPerMember <= 150
      && pr.totalBonus == r.contract.members * pr.bonusPerMember
  {
    if contractId == "" then SelectionRequired
    else if contractId !in contracts then UnknownContract
    else
      var contract := contracts[contractId];
      var p := PredictedRating(contract.currentStars, drift);
      PredictionInRange(contract.currentStars, drift);
      var h := HalfStars(p);
      var bonus := BonusPerMember(h);
      Forecast(contractId, contract, Prediction(p, ConfidenceInterval(p), ChangeFrom(contract.currentStars, p), CategoryOf(p), h, bonus, contract.members * bonus))
  }

  /** The details panel and the prediction card agree on whether a
      contract is selected and which one. */
  lemma DetailsMatchPrediction(contracts: map<string, Contract>, contractId: string, drift: real)
    ensures ContractDetails(contracts, contractId).Shown? <==> PredictionResults(contracts, contractId, drift).Forecast?
    ensures ContractDetails(contracts, contractId).Shown? ==>
      ContractDetails(contracts, contractId).contract == PredictionResults(contracts, contractId, drift).contract
  {
  }

  /** H1234 (3.5 stars, 45,230 members) drawn 0.2 up: 3.7 stars, "Good",
      +0.2 in green, interval 3.4 to 4.0, 7 half stars, 75 per member and
      3,392,250 in total. */
  lemma SamplePrediction()
    ensures PredictionResults(SampleContracts, "H1234", 0.2)
      == Forecast("H1234", SampleContracts["H1234"],
           Prediction(37, Interval(34, 40), Change(2, true, Green), Good, 7, 75, 3392250))
  {
    var x := Clamped(35, 0.2) * 10.0;
    assert x == 37.0;
    RoundIsNearest(x);
    assert PredictedRating(35, 0.2) == 37;
    HalfStarsIsNearest(37);
  }
}
