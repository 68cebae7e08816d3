/** The care-gap closure workflow page: the member queue with its summary
    metrics, the priority filter with its count line and its alert, the gap
    definitions the queue cards look up, and the campaign totals. */
module CareGapWorkflow {
  import opened Wording
  import opened Filters

  /** One member of the outreach queue. */
  datatype Member = Member(
    memberId: string,
    name: string,
    age: nat,
    riskScore: real,
    openGaps: nat,
    priority: string,
    gaps: seq<string>,
    lastContact: string,
    phone: string,
    preferredContact: string)

  /** The sample queue, in its listed order. */
  const Queue: seq<Member> := [
    Member("M001847", "Patricia Anderson", 68, 3.2, 3, "High", ["HBD", "CBP", "BCS"], "14 days ago", "(412) 555-0198", "Phone"),
    Member("M002156", "James Martinez", 72, 2.8, 2, "High", ["CCS", "HBD"], "8 days ago", "(412) 555-0234", "Phone"),
    Member("M003421", "Mary Johnson", 65, 1.9, 2, "Medium", ["MAD", "BCS"], "21 days ago", "(412) 555-0167", "Mail"),
    Member("M004892", "Robert Chen", 70, 2.5, 1, "Medium", ["CBP"], "6 days ago", "(412) 555-0289", "Portal"),
    Member("M005234", "Linda Williams", 66, 1.4, 1, "Low", ["CCS"], "45 days ago", "(412) 555-0312", "Phone"),
    Member("M006745", "David Thompson", 69, 3.5, 4, "High", ["HBD", "CBP", "CCS", "OMW"], "3 days ago", "(412) 555-0445", "Phone"),
    Member("M007123", "Sarah Davis", 67, 2.1, 2, "Medium", ["BCS", "MAD"], "12 days ago", "(412) 555-0556", "Mail"),
    Member("M008901", "Michael Brown", 71, 1.6, 1, "Low", ["CCS"], "30 days ago", "(412) 555-0678", "Portal")
  ]

  /** What a queue card shows about one open gap. */
  datatype GapDefinition = GapDefinition(name: string, dueDate: string, closureValue: string, difficulty: string)

  const GapDefinitions: map<string, GapDefinition> := map[
    "HBD" := GapDefinition("Hemoglobin A1c Control", "30 days", "$890", "Medium"),
    "CBP" := GapDefinition("Controlling Blood Pressure", "45 days", "$1,120", "Medium"),
    "CCS" := GapDefinition("Colorectal Cancer Screening", "60 days", "$780", "Low"),
    "BCS" := GapDefinition("Breast Cancer Screening", "90 days", "$650", "Low"),
    "MAD" := GapDefinition("Medication Adherence - Diabetes", "15 days", "$420", "High"),
    "OMW" := GapDefinition("Osteoporosis Management", "60 days", "$560", "High")
  ]

  // ---------------------------------------------------------------------
  // Queue summary
  // ---------------------------------------------------------------------

  function SumOpenGaps(s: seq<Member>): nat
  {
    if s == [] then 0 else SumOpenGaps(s[..|s| - 1]) + s[|s| - 1].openGaps
  }

  function SumRisk(s: seq<Member>): real
  {
    if s == [] then 0.0 else SumRisk(s[..|s| - 1]) + s[|s| - 1].riskScore
  }

  /** The summary metrics of a non-empty queue. */
  datatype QueueSummary = QueueSummary(totalMembers: nat, openGaps: nat, highPriority: nat, avgRisk: real)

  function SummaryOf(queue: seq<Member>): (r: QueueSummary)
    requires queue != []
    ensures r.totalMembers == |queue|
    ensures r.openGaps == SumOpenGaps(queue)
    ensures r.highPriority == |Where(queue, PriorityIs("High"))| <= r.totalMembers
    ensures r.avgRisk * r.totalMembers as real == SumRisk(queue)
  {
    WhereIsShorter(queue, PriorityIs("High"));
    QueueSummary(|queue|, SumOpenGaps(queue), |Where(queue, PriorityIs("High"))|, SumRisk(queue) / |queue| as real)
  }

  // ---------------------------------------------------------------------
  // Priority filter
  // ---------------------------------------------------------------------

  /** The test of the priority filter. */
  function PriorityIs(priority: string): Member -> bool
  {
    (m: Member) => m.priority == priority
  }

  /** The priority filter: the whole queue for "All", else the members with
      that priority. */
  function FilterByPriority(queue: seq<Member>, priority: string): seq<Member>
  {
    if priority == "All" then queue else Where(queue, PriorityIs(priority))
  }

  lemma FilterByPriorityMembers(queue: seq<Member>, priority: string, m: Member)
    ensures priority == "All" ==> FilterByPriority(queue, priority) == queue
    ensures priority != "All" ==>
      (m in FilterByPriority(queue, priority) <==> m in queue && m.priority == priority)
  {
    WhereMembers(queue, PriorityIs(priority), m);
  }

  lemma FilterByPriorityKeepsOrder(a: seq<Member>, b: seq<Member>, priority: string)
    ensures FilterByPriority(a + b, priority) == FilterByPriority(a, priority) + FilterByPriority(b, priority)
  {
    WhereAppend(a, b, PriorityIs(priority));
  }

  /** "Showing N member(s)". */
  function FilteredCount(queue: seq<Member>, priority: string): (r: CountLine)
    ensures r.count == |FilterByPriority(queue, priority)| <= |queue|
    ensures priority == "All" ==> r.count == |queue|
    ensures r.noun == "member" <==> r.count == 1
  {
    WhereIsShorter(queue, PriorityIs(priority));
    Showing(|FilterByPriority(queue, priority)|, "member")
  }

  /** The alert under the queue. */
  datatype QueueAlert = ReadyForOutreach(count: nat, noun: string) | NoMatch

  /** The rendered queue: the filtered members and the alert under them. */
  datatype QueueView = QueueView(members: seq<Member>, alert: QueueAlert)

  function MemberQueue(queue: seq<Member>, priority: string): (r: QueueView)
    ensures r.members == FilterByPriority(queue, priority)
    ensures r.alert == NoMatch <==> r.members == []
    ensures r.alert.ReadyForOutreach? ==>
      r.alert.count == |r.members| > 0 && (r.alert.noun == "member" <==> r.alert.count == 1)
  {
    var filtered := FilterByPriority(queue, priority);
    var alert := if |filtered| > 0 then ReadyForOutreach(|filtered|, Plural(|filtered|, "member")) else NoMatch;
    QueueView(filtered, alert)
  }

  /** The count line counts exactly the members the queue renders, and the
      alert repeats that count whenever there is one. */
  lemma CountMatchesQueue(queue: seq<Member>, priority: string)
    ensures FilteredCount(queue, priority).count == |MemberQueue(queue, priority).members|
    ensures FilteredCount(queue, priority).count > 0 ==>
      MemberQueue(queue, priority).alert == ReadyForOutreach(FilteredCount(queue, priority).count, FilteredCount(queue, priority).noun)
  {
  }

  // ---------------------------------------------------------------------
  // Gap names and the sample-data invariants
  // ---------------------------------------------------------------------

  /** Every gap of the member has a definition. */
  predicate GapsDefined(m: Member)
  {
    forall i :: 0 <= i < |m.gaps| ==> m.gaps[i] in GapDefinitions
  }

  /** The names a queue card lists, one per gap, looked up without a guard. */
  function GapNames(m: Member): (r: seq<string>)
    requires GapsDefined(m)
    ensures |r| == |m.gaps|
    ensures forall i :: 0 <= i < |r| ==> r[i] == GapDefinitions[m.gaps[i]].name
  {
    seq(|m.gaps|, i requires 0 <= i < |m.gaps| => GapDefinitions[m.gaps[i]].name)
  }

  /** The member's open-gap count is the number of gaps it lists. */
  predicate CountsMatch(m: Member)
  {
    m.openGaps == |m.gaps|
  }

  function SumGapCounts(s: seq<Member>): nat
  {
    if s == [] then 0 else SumGapCounts(s[..|s| - 1]) + |s[|s| - 1].gaps|
  }

  /** When every member's count matches its list, the summary's open gaps
      are the number of listed gaps. */
  lemma {:induction false} OpenGapsAreListed(s: seq<Member>)
    requires forall i :: 0 <= i < |s| ==> CountsMatch(s[i])
    ensures SumOpenGaps(s) == SumGapCounts(s)
  {
    if s != [] {
      OpenGapsAreListed(s[..|s| - 1]);
    }
  }

  /** The sample queue keeps both invariants, and every priority it uses has
      a card colour. */
  lemma QueueIsWellFormed()
    ensures forall i :: 0 <= i < |Queue| ==> GapsDefined(Queue[i]) && CountsMatch(Queue[i])
    ensures forall i :: 0 <= i < |Queue| ==> Queue[i].priority in {"High", "Medium", "Low"}
  {
  }

  /** The sample summary: 8 members, 16 open gaps, 3 of high priority and
      risk scores summing to 19.0. */
  lemma QueueSample()
    ensures SummaryOf(Queue) == QueueSummary(8, 16, 3, 19.0 / 8.0)
  {
    QueueOpenGaps();
    QueueRisk();
    QueueHighPriority();
  }

  lemma QueueOpenGaps()
    ensures SumOpenGaps(Queue) == 16
  {
    var c := Queue;
    assert c[..8] == c;
    assert SumOpenGaps(c[..1]) == 3 by { assert c[..1][..0] == []; }
    assert SumOpenGaps(c[..2]) == 5 by { assert c[..2][..1] == c[..1]; }
    assert SumOpenGaps(c[..3]) == 7 by { assert c[..3][..2] == c[..2]; }
    assert SumOpenGaps(c[..4]) == 8 by { assert c[..4][..3] == c[..3]; }
    assert SumOpenGaps(c[..5]) == 9 by { assert c[..5][..4] == c[..4]; }
    assert SumOpenGaps(c[..6]) == 13 by { assert c[..6][..5] == c[..5]; }
    assert SumOpenGaps(c[..7]) == 15 by { assert c[..7][..6] == c[..6]; }
    assert SumOpenGaps(c) == 16 by { assert c[..8][..7] == c[..7]; }
  }

  lemma QueueRisk()
    ensures SumRisk(Queue) == 19.0
  {
    var c := Queue;
    assert c[..8] == c;
    assert SumRisk(c[..1]) == 3.2 by { assert c[..1][..0] == []; }
    assert SumRisk(c[..2]) == 6.0 by { assert c[..2][..1] == c[..1]; }
    assert SumRisk(c[..3]) == 7.9 by { assert c[..3][..2] == c[..2]; }
    assert SumRisk(c[..4]) == 10.4 by { assert c[..4][..3] == c[..3]; }
    assert SumRisk(c[..5]) == 11.8 by { assert c[..5][..4] == c[..4]; }
    assert SumRisk(c[..6]) == 15.3 by { assert c[..6][..5] == c[..5]; }
    assert SumRisk(c[..7]) == 17.4 by { assert c[..7][..6] == c[..6]; }
    assert SumRisk(c) == 19.0 by { assert c[..8][..7] == c[..7]; }
  }

  lemma QueueHighPriority()
    ensures Where(Queue, PriorityIs("High")) == [Queue[0], Queue[1], Queue[5]]
  {
    HighAtZeroOneFive(Queue);
  }

  /** In a queue of eight whose members 0, 1 and 5 alone are of high
      priority, the high-priority filter picks exactly those three. */
  lemma HighAtZeroOneFive(c: seq<Member>)
    requires |c| == 8
    requires c[0].priority == "High" && c[1].priority == "High" && c[5].priority == "High"
    requires c[2].priority != "High" && c[3].priority != "High" && c[4].priority != "High"
    requires c[6].priority != "High" && c[7].priority != "High"
    ensures Where(c, PriorityIs("High")) == [c[0], c[1], c[5]]
  {
    var high := PriorityIs("High");
    assert Where(c[7..], high) == [] by { assert c[7..][1..] == []; }
    assert Where(c[6..], high) == [] by { assert c[6..][1..] == c[7..]; }
    assert Where(c[5..], high) == [c[5]] by { assert c[5..][1..] == c[6..]; }
    assert Where(c[4..], high) == [c[5]] by { assert c[4..][1..] == c[5..]; }
    assert Where(c[3..], high) == [c[5]] by { assert c[3..][1..] == c[4..]; }
    assert Where(c[2..], high) == [c[5]] by { assert c[2..][1..] == c[3..]; }
    assert Where(c[1..], high) == [c[1], c[5]] by { assert c[1..][1..] == c[2..]; }
  }

  // ---------------------------------------------------------------------
  // Campaigns
  // ---------------------------------------------------------------------

  datatype Campaign = Campaign(name: string, activeMembers: nat, gapsClosed: nat, closureRate: real, revenueCaptured: nat)

  const Campaigns: seq<Campaign> := [
    Campaign("Q1 Diabetes Control", 156, 87, 55.8, 77580),
    Campaign("Blood Pressure Outreach", 203, 98, 48.3, 109760),
    Campaign("Cancer Screening Push", 412, 234, 56.8, 182520)
  ]

  function TotalGapsClosed(cs: seq<Campaign>): nat
  {
    if cs == [] then 0 else TotalGapsClosed(cs[..|cs| - 1]) + cs[|cs| - 1].gapsClosed
  }

  function TotalRevenueCaptured(cs: seq<Campaign>): nat
  {
    if cs == [] then 0 else TotalRevenueCaptured(cs[..|cs| - 1]) + cs[|cs| - 1].revenueCaptured
  }

  /** The totals of two lists of campaigns together are the sums of their
      totals. */
  lemma {:induction false} CampaignTotalsAdd(a: seq<Campaign>, b: seq<Campaign>)
    ensures TotalGapsClosed(a + b) == TotalGapsClosed(a) + TotalGapsClosed(b)
    ensures TotalRevenueCaptured(a + b) == TotalRevenueCaptured(a) + TotalRevenueCaptured(b)
  {
    if b == [] {
      assert a + b == a;
    } else {
      CampaignTotalsAdd(a, b[..|b| - 1]);
      assert (a + b)[..|a + b| - 1] == a + b[..|b| - 1];
    }
  }

  /** The totals alert: 419 gaps closed and 369,860 of revenue captured. */
  lemma CampaignSample()
    ensures TotalGapsClosed(Campaigns) == 419
    ensures TotalRevenueCaptured(Campaigns) == 369860
  {
    var c := Campaigns;
    assert TotalGapsClosed(c[..1]) == 87 && TotalRevenueCaptured(c[..1]) == 77580 by { assert c[..1][..0] == []; }
    assert TotalGapsClosed(c[..2]) == 185 && TotalRevenueCaptured(c[..2]) == 187340 by { assert c[..2][..1] == c[..1]; }
    assert TotalGapsClosed(c) == 419 && TotalRevenueCaptured(c) == 369860 by { assert c[..3] == c; assert c[..3][..2] == c[..2]; }
  }
}
