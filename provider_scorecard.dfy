/** The provider scorecard page: the network summary metrics, the specialty
    filter and the quality-sorted provider list, the top performers card and
    the improvement opportunities card. Scores and rates are `real`. */
module ProviderScorecard {
  import opened Wording
  import opened Filters

  /** One provider of the network. The per-measure HEDIS scores are only
      displayed and are not part of this model. */
  datatype Provider = Provider(
    providerId: string,
    name: string,
    specialty: string,
    panelSize: nat,
    avgRiskScore: real,
    qualityScore: real,
    gapClosureRate: real,
    starContribution: real,
    peerRanking: string)

  /** The sample network, in its listed order. */
  const Network: seq<Provider> := [
    Provider("NPI-1234567", "Dr. Sarah Mitchell", "Family Medicine", 847, 2.3, 92.4, 78.3, 0.18, "Top 10%"),
    Provider("NPI-2345678", "Dr. James Rodriguez", "Internal Medicine", 1203, 2.8, 88.6, 71.5, 0.15, "Top 25%"),
    Provider("NPI-3456789", "Dr. Emily Chen", "Cardiology", 564, 3.1, 95.2, 84.7, 0.22, "Top 5%"),
    Provider("NPI-4567890", "Dr. Michael Thompson", "Endocrinology", 423, 2.6, 90.1, 76.8, 0.16, "Top 15%"),
    Provider("NPI-5678901", "Dr. Jennifer Davis", "Family Medicine", 982, 2.1, 86.3, 68.2, 0.12, "Top 35%"),
    Provider("NPI-6789012", "Dr. Robert Wilson", "Internal Medicine", 1156, 2.4, 93.7, 81.4, 0.19, "Top 10%")
  ]

  /** Quality at or above this is a top performer. */
  const TopThreshold: real := 90.0
  /** Quality below this needs support. */
  const SupportThreshold: real := 85.0

  predicate IsTop(p: Provider)
  {
    p.qualityScore >= TopThreshold
  }

  predicate NeedsSupport(p: Provider)
  {
    p.qualityScore < SupportThreshold
  }

  // ---------------------------------------------------------------------
  // Specialty filter
  // ---------------------------------------------------------------------

  /** The test of the specialty filter. */
  function SpecialtyIs(specialty: string): Provider -> bool
  {
    (p: Provider) => p.specialty == specialty
  }

  /** The specialty filter: the whole network for "All", else the providers
      of that specialty. */
  function FilterBySpecialty(network: seq<Provider>, specialty: string): seq<Provider>
  {
    if specialty == "All" then network else Where(network, SpecialtyIs(specialty))
  }

  /** "All" returns the network unchanged; any other choice returns exactly
      the providers of that specialty. */
  lemma FilterBySpecialtyMembers(network: seq<Provider>, specialty: string, p: Provider)
    ensures specialty == "All" ==> FilterBySpecialty(network, specialty) == network
    ensures specialty != "All" ==>
      (p in FilterBySpecialty(network, specialty) <==> p in network && p.specialty == specialty)
  {
    if specialty != "All" {
      WhereMembers(network, SpecialtyIs(specialty), p);
    }
  }

  /** Filtering a network made of two parts keeps the first part's providers
      ahead of the second's. */
  lemma FilterBySpecialtyKeepsOrder(a: seq<Provider>, b: seq<Provider>, specialty: string)
    ensures FilterBySpecialty(a + b, specialty) == FilterBySpecialty(a, specialty) + FilterBySpecialty(b, specialty)
  {
    if specialty != "All" {
      WhereAppend(a, b, SpecialtyIs(specialty));
    }
  }

  // ---------------------------------------------------------------------
  // Sorting by quality, highest first, stable
  // ---------------------------------------------------------------------

  /** Quality never increases along `s`. */
  predicate QualityDescending(s: seq<Provider>)
  {
    forall i, j :: 0 <= i < j < |s| ==> s[i].qualityScore >= s[j].qualityScore
  }

  /** Places `x` before the first provider whose quality is at most its own,
      so that among equal scores `x` comes first. */
  function Insert(x: Provider, t: seq<Provider>): seq<Provider>
  {
    if t == [] || x.qualityScore >= t[0].qualityScore then [x] + t
    else [t[0]] + Insert(x, t[1..])
  }

  /** `sorted(s, key=quality, reverse=True)`: each provider is inserted into
      the sorted rest of the list. */
  function SortByQuality(s: seq<Provider>): seq<Provider>
  {
    if s == [] then [] else Insert(s[0], SortByQuality(s[1..]))
  }

  lemma {:induction false} InsertIsPermutation(x: Provider, t: seq<Provider>)
    ensures multiset(Insert(x, t)) == multiset(t) + multiset{x}
    ensures |Insert(x, t)| == |t| + 1
  {
    if t != [] && x.qualityScore < t[0].qualityScore {
      InsertIsPermutation(x, t[1..]);
      assert t == [t[0]] + t[1..];
    }
  }

  lemma {:induction false} InsertKeepsDescending(x: Provider, t: seq<Provider>)
    requires QualityDescending(t)
    ensures QualityDescending(Insert(x, t))
  {
    if t != [] && x.qualityScore < t[0].qualityScore {
      InsertKeepsDescending(x, t[1..]);
      InsertIsPermutation(x, t[1..]);
      var r := Insert(x, t[1..]);
      forall k | 0 <= k < |r|
        ensures t[0].qualityScore >= r[k].qualityScore
      {
        assert r[k] in multiset(r);
        assert r[k] == x || r[k] in t[1..];
      }
    }
  }

  lemma {:induction false} SortIsPermutation(s: seq<Provider>)
    ensures multiset(SortByQuality(s)) == multiset(s)
  {
    if s != [] {
      var rest := SortByQuality(s[1..]);
      calc {
        multiset(SortByQuality(s));
        multiset(Insert(s[0], rest));
        { InsertIsPermutation(s[0], rest); }
        multiset(rest) + multiset{s[0]};
        { SortIsPermutation(s[1..]); }
        multiset(s[1..]) + multiset{s[0]};
        { assert s == [s[0]] + s[1..]; }
        multiset(s);
      }
    }
  }

  lemma {:induction false} SortIsDescending(s: seq<Provider>)
    ensures QualityDescending(SortByQuality(s))
  {
    if s != [] {
      SortIsDescending(s[1..]);
      InsertKeepsDescending(s[0], SortByQuality(s[1..]));
    }
  }

  /** The sorted list is a permutation of its input with quality never
      increasing. */
  lemma SortIsDescendingPermutation(s: seq<Provider>)
    ensures multiset(SortByQuality(s)) == multiset(s)
    ensures |SortByQuality(s)| == |s|
    ensures QualityDescending(SortByQuality(s))
  {
    SortIsPermutation(s);
    SortIsDescending(s);
    assert |multiset(SortByQuality(s))| == |multiset(s)|;
  }

  /** The providers of `s` with exactly quality `q`, in order. */
  function WithQuality(s: seq<Provider>, q: real): seq<Provider>
  {
    if s == [] then [] else (if s[0].qualityScore == q then [s[0]] else []) + WithQuality(s[1..], q)
  }

  lemma WithQualityCons(y: Provider, r: seq<Provider>, q: real)
    ensures WithQuality([y] + r, q) == (if y.qualityScore == q then [y] else []) + WithQuality(r, q)
  {
    assert ([y] + r)[1..] == r;
  }

  /** Inserting keeps the order among the providers that share a score, with
      the inserted one first. */
  lemma {:induction false} InsertIsStable(x: Provider, t: seq<Provider>, q: real)
    ensures WithQuality(Insert(x, t), q) == (if x.qualityScore == q then [x] else []) + WithQuality(t, q)
  {
    if t != [] && x.qualityScore < t[0].qualityScore {
      var r := Insert(x, t[1..]);
      InsertIsStable(x, t[1..], q);
      WithQualityCons(t[0], r, q);
      WithQualityCons(t[0], t[1..], q);
      assert [t[0]] + t[1..] == t;
    } else {
      WithQualityCons(x, t, q);
    }
  }

  /** Sorting is stable: the providers that share a score appear in the
      sorted list in their original order. */
  lemma {:induction false} SortIsStable(s: seq<Provider>, q: real)
    ensures WithQuality(SortByQuality(s), q) == WithQuality(s, q)
  {
    if s != [] {
      SortIsStable(s[1..], q);
      InsertIsStable(s[0], SortByQuality(s[1..]), q);
    }
  }

  // ---------------------------------------------------------------------
  // The filtered list and its count
  // ---------------------------------------------------------------------

  /** The provider list: the specialty filter, sorted by quality. */
  function ProviderList(network: seq<Provider>, specialty: string): seq<Provider>
  {
    SortByQuality(FilterBySpecialty(network, specialty))
  }

  /** "Showing N provider(s)" for the filtered list. */
  function FilteredProviderCount(network: seq<Provider>, specialty: string): (r: CountLine)
    ensures r.count == |FilterBySpecialty(network, specialty)| <= |network|
    ensures specialty == "All" ==> r.count == |network|
    ensures r.noun == "provider" <==> r.count == 1
  {
    WhereIsShorter(network, SpecialtyIs(specialty));
    Showing(|FilterBySpecialty(network, specialty)|, "provider")
  }

  /** The count line and the rendered list always agree, and the list holds
      exactly the filtered providers, best first. */
  lemma CountMatchesList(network: seq<Provider>, specialty: string)
    ensures FilteredProviderCount(network, specialty).count == |ProviderList(network, specialty)|
    ensures multiset(ProviderList(network, specialty)) == multiset(FilterBySpecialty(network, specialty))
    ensures QualityDescending(ProviderList(network, specialty))
  {
    SortIsDescendingPermutation(FilterBySpecialty(network, specialty));
  }

  // ---------------------------------------------------------------------
  // Top performers and improvement opportunities
  // ---------------------------------------------------------------------

  /** The top performers card: the headline count of all top performers and
      the (at most three) cards shown. */
  datatype TopCard = TopCard(count: nat, shown: seq<Provider>)

  function TopPerformers(network: seq<Provider>): (r: TopCard)
    ensures r.count == |Where(network, IsTop)|
    ensures |r.shown| == if r.count < 3 then r.count else 3
    ensures |r.shown| <= |SortByQuality(Where(network, IsTop))| && r.shown == SortByQuality(Where(network, IsTop))[..|r.shown|]
  {
    var top := Where(network, IsTop);
    var sorted := SortByQuality(top);
    SortIsDescendingPermutation(top);
    TopCard(|top|, sorted[..if |sorted| < 3 then |sorted| else 3])
  }

  /** A prefix of a best-first list is best first, and beats the rest. */
  lemma DescendingPrefix(sorted: seq<Provider>, k: nat)
    requires QualityDescending(sorted) && k <= |sorted|
    ensures QualityDescending(sorted[..k])
    ensures forall i, j :: 0 <= i < k <= j < |sorted| ==> sorted[..k][i].qualityScore >= sorted[j].qualityScore
  {
  }

  /** Every shown card is a top performer of the network, highest first, and
      no top performer left out scores above one that is shown. */
  lemma TopPerformersShowBest(network: seq<Provider>)
    ensures forall p :: p in TopPerformers(network).shown ==> p in network && IsTop(p)
    ensures QualityDescending(TopPerformers(network).shown)
    ensures var sorted := SortByQuality(Where(network, IsTop));
      forall i, j :: 0 <= i < |TopPerformers(network).shown| <= j < |sorted| ==>
        TopPerformers(network).shown[i].qualityScore >= sorted[j].qualityScore
  {
    var top := Where(network, IsTop);
    var sorted := SortByQuality(top);
    SortIsDescendingPermutation(top);
    var shown := TopPerformers(network).shown;
    assert shown == sorted[..|shown|];
    DescendingPrefix(sorted, |shown|);
    forall p | p in shown
      ensures p in network && IsTop(p)
    {
      assert p in multiset(sorted);
      WhereMembers(network, IsTop, p);
    }
  }

  /** What the improvement opportunities card shows. */
  datatype Opportunities =
    | AllMeetingStandard
    | NeedSupportList(count: nat, noun: string, providers: seq<Provider>)

  function ImprovementOpportunities(network: seq<Provider>): (r: Opportunities)
    ensures r == AllMeetingStandard <==> Where(network, NeedsSupport) == []
    ensures r.NeedSupportList? ==>
      r.providers == Where(network, NeedsSupport) && r.count == |r.providers|
      && (r.noun == "provider" <==> r.count == 1)
  {
    var need := Where(network, NeedsSupport);
    if |need| == 0 then AllMeetingStandard
    else NeedSupportList(|need|, Plural(|need|, "provider"), need)
  }

  /** The listed providers are exactly those below the support threshold. */
  lemma OpportunitiesAreBelowThreshold(network: seq<Provider>, p: Provider)
    ensures ImprovementOpportunities(network).NeedSupportList? ==>
      (p in ImprovementOpportunities(network).providers <==> p in network && p.qualityScore < SupportThreshold)
    ensures ImprovementOpportunities(network) == AllMeetingStandard ==>
      (p in network ==> p.qualityScore >= SupportThreshold)
  {
    WhereMembers(network, NeedsSupport, p);
  }

  // ---------------------------------------------------------------------
  // Network metrics
  // ---------------------------------------------------------------------

  function SumPanel(s: seq<Provider>): nat
  {
    if s == [] then 0 else SumPanel(s[..|s| - 1]) + s[|s| - 1].panelSize
  }

  function SumQuality(s: seq<Provider>): real
  {
    if s == [] then 0.0 else SumQuality(s[..|s| - 1]) + s[|s| - 1].qualityScore
  }

  function SumGapClosure(s: seq<Provider>): real
  {
    if s == [] then 0.0 else SumGapClosure(s[..|s| - 1]) + s[|s| - 1].gapClosureRate
  }

  /** The average of `n` values summing to `sum`. */
  function Mean(sum: real, n: nat): (m: real)
    requires n > 0
    ensures m * n as real == sum
  {
    sum / n as real
  }

  datatype NetworkMetrics = NetworkMetrics(
    totalProviders: nat,
    totalPanel: nat,
    avgQualityScore: real,
    avgGapClosure: real,
    topPerformers: nat,
    improvementNeeded: nat)

  /** The summary metrics of a non-empty network. */
  function MetricsOf(network: seq<Provider>): (r: NetworkMetrics)
    requires network != []
    ensures r.totalProviders == |network| && r.totalPanel == SumPanel(network)
    ensures r.avgQualityScore == Mean(SumQuality(network), |network|)
    ensures r.avgGapClosure == Mean(SumGapClosure(network), |network|)
    ensures r.topPerformers == |Where(network, IsTop)|
    ensures r.improvementNeeded == |Where(network, NeedsSupport)|
    ensures r.topPerformers + r.improvementNeeded <= r.totalProviders
  {
    DisjointFilters(network, IsTop, NeedsSupport);
    NetworkMetrics(
      |network|,
      SumPanel(network),
      Mean(SumQuality(network), |network|),
      Mean(SumGapClosure(network), |network|),
      |Where(network, IsTop)|,
      |Where(network, NeedsSupport)|)
  }

  /** When every score lies in a range, so does the average. */
  lemma {:induction false} SumQualityBounds(s: seq<Provider>, lo: real, hi: real)
    requires forall i :: 0 <= i < |s| ==> lo <= s[i].qualityScore <= hi
    ensures |s| as real * lo <= SumQuality(s) <= |s| as real * hi
  {
    if s != [] {
      SumQualityBounds(s[..|s| - 1], lo, hi);
    }
  }

  /** The average quality lies between the lowest and the highest score. */
  lemma AverageQualityInRange(network: seq<Provider>, lo: real, hi: real)
    requires network != []
    requires forall i :: 0 <= i < |network| ==> lo <= network[i].qualityScore <= hi
    ensures lo <= MetricsOf(network).avgQualityScore <= hi
  {
    SumQualityBounds(network, lo, hi);
    MeanBounds(SumQuality(network), |network| as real, lo, hi);
  }

  /** A sum between `n * lo` and `n * hi`, divided by `n`, lies between `lo`
      and `hi`. */
  lemma MeanBounds(sum: real, n: real, lo: real, hi: real)
    requires n > 0.0 && n * lo <= sum <= n * hi
    ensures lo <= sum / n <= hi
  {
    assert sum / n * n == sum;
  }

  lemma NetworkPanel()
    ensures SumPanel(Network) == 5175
  {
    var c := Network;
    assert SumPanel(c[..1]) == 847 by { assert c[..1][..0] == []; }
    assert SumPanel(c[..2]) == 2050 by { assert c[..2][..1] == c[..1]; }
    assert SumPanel(c[..3]) == 2614 by { assert c[..3][..2] == c[..2]; }
    assert SumPanel(c[..4]) == 3037 by { assert c[..4][..3] == c[..3]; }
    assert SumPanel(c[..5]) == 4019 by { assert c[..5][..4] == c[..4]; }
    assert SumPanel(c) == 5175 by { assert c[..6] == c; assert c[..6][..5] == c[..5]; }
  }

  lemma NetworkQuality()
    ensures SumQuality(Network) == 546.3
  {
    var c := Network;
    assert SumQuality(c[..1]) == 92.4 by { assert c[..1][..0] == []; }
    assert SumQuality(c[..2]) == 181.0 by { assert c[..2][..1] == c[..1]; }
    assert SumQuality(c[..3]) == 276.2 by { assert c[..3][..2] == c[..2]; }
    assert SumQuality(c[..4]) == 366.3 by { assert c[..4][..3] == c[..3]; }
    assert SumQuality(c[..5]) == 452.6 by { assert c[..5][..4] == c[..4]; }
    assert SumQuality(c) == 546.3 by { assert c[..6] == c; assert c[..6][..5] == c[..5]; }
  }

  lemma NetworkGapClosure()
    ensures SumGapClosure(Network) == 460.9
  {
    var c := Network;
    assert SumGapClosure(c[..1]) == 78.3 by { assert c[..1][..0] == []; }
    assert SumGapClosure(c[..2]) == 149.8 by { assert c[..2][..1] == c[..1]; }
    assert SumGapClosure(c[..3]) == 234.5 by { assert c[..3][..2] == c[..2]; }
    assert SumGapClosure(c[..4]) == 311.3 by { assert c[..4][..3] == c[..3]; }
    assert SumGapClosure(c[..5]) == 379.5 by { assert c[..5][..4] == c[..4]; }
    assert SumGapClosure(c) == 460.9 by { assert c[..6] == c; assert c[..6][..5] == c[..5]; }
  }

  /** The sample's top performers are Mitchell, Chen, Thompson and Wilson. */
  lemma NetworkTop()
    ensures Where(Network, IsTop) == [Network[0], Network[2], Network[3], Network[5]]
  {
    var c := Network;
    assert Where(c[5..], IsTop) == [c[5]] by { assert c[5..][1..] == []; }
    assert Where(c[4..], IsTop) == [c[5]] by { assert c[4..][1..] == c[5..]; }
    assert Where(c[3..], IsTop) == [c[3], c[5]] by { assert c[3..][1..] == c[4..]; }
    assert Where(c[2..], IsTop) == [c[2], c[3], c[5]] by { assert c[2..][1..] == c[3..]; }
    assert Where(c[1..], IsTop) == [c[2], c[3], c[5]] by { assert c[1..][1..] == c[2..]; }
  }

  /** Nobody in the sample is below 85. */
  lemma NetworkNoneNeedSupport()
    ensures Where(Network, NeedsSupport) == []
  {
    var c := Network;
    forall p | p in Where(c, NeedsSupport)
      ensures false
    {
      WhereMembers(c, NeedsSupport, p);
    }
  }

  /** The shipped metrics: 6 providers, 5,175 members, 4 top performers,
      none needing improvement, quality summing to 546.3 and gap closure to
      460.9. */
  lemma NetworkSample()
    ensures MetricsOf(Network) == NetworkMetrics(6, 5175, 546.3 / 6.0, 460.9 / 6.0, 4, 0)
  {
    NetworkPanel();
    NetworkQuality();
    NetworkGapClosure();
    NetworkTop();
    NetworkNoneNeedSupport();
  }

  /** The sample network has nobody below 85, so the card is the success
      alert; its top performers card names Chen, Wilson and Mitchell. */
  lemma NetworkCards()
    ensures ImprovementOpportunities(Network) == AllMeetingStandard
    ensures TopPerformers(Network).count == 4
    ensures TopPerformers(Network).shown == [Network[2], Network[5], Network[0]]
  {
    NetworkTop();
    NetworkNoneNeedSupport();
    NetworkTopSorted();
  }

  /** Sorting the sample's top performers puts Chen, Wilson, Mitchell and
      Thompson in that order. */
  lemma NetworkTopSorted()
    ensures SortByQuality([Network[0], Network[2], Network[3], Network[5]])
         == [Network[2], Network[5], Network[0], Network[3]]
  {
    var c := Network;
    var top := [c[0], c[2], c[3], c[5]];
    assert Insert(c[5], []) == [c[5]];
    assert SortByQuality(top[3..]) == [c[5]] by { assert top[3..][1..] == []; }
    assert Insert(c[3], [c[5]]) == [c[5], c[3]] by { assert [c[5]][1..] == []; assert Insert(c[3], []) == [c[3]]; }
    assert SortByQuality(top[2..]) == [c[5], c[3]] by { assert top[2..][1..] == top[3..]; }
    assert SortByQuality(top[1..]) == [c[2], c[5], c[3]] by { assert top[1..][1..] == top[2..]; }
    assert Insert(c[0], [c[3]]) == [c[0], c[3]];
    assert Insert(c[0], [c[5], c[3]]) == [c[5], c[0], c[3]] by { assert [c[5], c[3]][1..] == [c[3]]; }
    assert Insert(c[0], [c[2], c[5], c[3]]) == [c[2], c[5], c[0], c[3]] by { assert [c[2], c[5], c[3]][1..] == [c[5], c[3]]; }
  }
}
