/** The detail view of one saved comparison
    (src/pages/Freelancer/ComparisonDetailPage.tsx): finding the entry by
    the id in the route, the benchmark values with their defaults, the
    score shown for the entry, and "Recompare", which saves a new entry
    for the current profile and opens it. Its subtitle is
    ProfileComparison.RoleHeading of the entry's role. */
module ComparisonDetail {
  import opened Common
  import opened Domain
  import opened History
  import PC = ProfileComparison

  function HasId(id: string): Entry -> bool
  {
    (e: Entry) => e.id == id
  }

  /** `entries.find(e => e.id === id)`; None renders "Comparison not
      found". */
  function FindEntry(es: seq<Entry>, id: string): (r: Option<Entry>)
    ensures r.Some? ==> r.value.id == id && exists k :: 0 <= k < |es| && es[k] == r.value && forall j :: 0 <= j < k ==> es[j].id != id
    ensures r.None? <==> forall e :: e in es ==> e.id != id
  {
    match FindIndex(es, HasId(id))
    case None => None
    case Some(k) => Some(es[k])
  }

  /** The newest entry is found by its own id. */
  lemma FindHead(e: Entry, es: seq<Entry>)
    ensures FindEntry([e] + es, e.id) == Some(e)
  {
  }

  /** The five benchmark values the page compares against. */
  datatype Benchmarks = Benchmarks(
    profileCompleteness: real,
    proposalSuccessRate: real,
    portfolioItems: real,
    hourlyRate: real,
    repeatClientsRate: real)

  /** `entry.topFreelancersAverage?.field ?? default`, field by field. */
  function Top(t: Option<MetricsPatch>): (b: Benchmarks)
    ensures t.Some? && t.value.profileCompleteness.Some? ==> b.profileCompleteness == t.value.profileCompleteness.value
    ensures t.Some? && t.value.proposalSuccessRate.Some? ==> b.proposalSuccessRate == t.value.proposalSuccessRate.value
    ensures t.Some? && t.value.portfolioItems.Some? ==> b.portfolioItems == t.value.portfolioItems.value
    ensures t.Some? && t.value.hourlyRate.Some? ==> b.hourlyRate == t.value.hourlyRate.value
    ensures t.Some? && t.value.repeatClientsRate.Some? ==> b.repeatClientsRate == t.value.repeatClientsRate.value
    ensures (t.None? || t.value.profileCompleteness.None?) ==> b.profileCompleteness == 92.0
    ensures (t.None? || t.value.proposalSuccessRate.None?) ==> b.proposalSuccessRate == 35.0
    ensures (t.None? || t.value.portfolioItems.None?) ==> b.portfolioItems == 15.0
    ensures (t.None? || t.value.hourlyRate.None?) ==> b.hourlyRate == 75.0
    ensures (t.None? || t.value.repeatClientsRate.None?) ==> b.repeatClientsRate == 45.0
  {
    match t
    case None => Benchmarks(92.0, 35.0, 15.0, 75.0, 45.0)
    case Some(p) =>
      Benchmarks(
        OrElse(p.profileCompleteness, 92.0),
        OrElse(p.proposalSuccessRate, 35.0),
        OrElse(p.portfolioItems, 15.0),
        OrElse(p.hourlyRate, 75.0),
        OrElse(p.repeatClientsRate, 45.0))
  }

  /** The defaults are the averages of the profile comparison page. */
  lemma TopDefaultsAreComparisonAverages()
    ensures Top(None) == Benchmarks(PC.TopCompleteness, PC.TopProposalRate, PC.TopPortfolio, PC.TopHourlyRate, PC.TopRepeatRate)
  {
  }

  /** `entry.userScore ?? calcScore(entry.userMetrics)`: a stored score,
      0 included, wins over the formula. */
  function ShownScore(e: Entry): (s: real)
    ensures e.userScore.Some? ==> s == e.userScore.value
    ensures e.userScore.None? ==> s == PC.UserScore(e.userMetrics) as real
  {
    OrElse(e.userScore, PC.UserScore(e.userMetrics) as real)
  }

  const DetailPath: string := "/freelancer/comparison-history/"

  /** recompare: a new head entry with the old entry's role, benchmarks and
      competitor URL, the current profile and its score, then the route to
      that entry. The fresh id and the clock are parameters. */
  method Recompare(h: ComparisonHistory, entry: Entry, profile: Metrics, id: string, createdAt: int)
    returns (created: Entry, path: string)
    requires h.Valid()
    modifies h
    ensures h.Valid()
    ensures created.id == id && created.createdAt == createdAt
    ensures created.role == entry.role && created.topFreelancersAverage == entry.topFreelancersAverage
    ensures created.competitorUrl == entry.competitorUrl
    ensures created.userMetrics == profile && created.userScore == Some(PC.UserScore(profile) as real)
    ensures h.entries == [created] + old(h.entries) && h.seedFlag == old(h.seedFlag)
    ensures path == DetailPath + id
    ensures FindEntry(h.entries, id) == Some(created)
  {
    var newScore := PC.UserScore(profile);
    created := h.AddEntry(EntryFields(entry.role, profile, entry.topFreelancersAverage,
                                      Some(newScore as real), entry.competitorUrl), id, createdAt);
    path := DetailPath + created.id;
    FindHead(created, old(h.entries));
  }
}
