/** The entities the application passes between its pages: a freelancer's
    metrics, a partial update of them, roadmap milestones, the signed-in user
    and an analysed client review. Numbers are JavaScript numbers, modelled as
    reals; instants (Date values) are milliseconds since the epoch. */
module Domain {
  import opened Common

  datatype Metrics = Metrics(
    profileCompleteness: real,
    profileViews: real,
    proposalSuccessRate: real,
    jobInvitations: real,
    hourlyRate: real,
    skills: seq<string>,
    portfolioItems: real,
    repeatClientsRate: real)

  /** Partial<FreelancerMetrics>: None is a key the object does not have. */
  datatype MetricsPatch = MetricsPatch(
    profileCompleteness: Option<real>,
    profileViews: Option<real>,
    proposalSuccessRate: Option<real>,
    jobInvitations: Option<real>,
    hourlyRate: Option<real>,
    skills: Option<seq<string>>,
    portfolioItems: Option<real>,
    repeatClientsRate: Option<real>)

  const EmptyPatch := MetricsPatch(None, None, None, None, None, None, None, None)

  function OrElse<T>(o: Option<T>, d: T): T
  {
    match o
    case Some(v) => v
    case None => d
  }

  /** `{ ...prev, ...patch }`: every key of the patch overwrites, the rest stays. */
  function Merge(prev: Metrics, patch: MetricsPatch): (m: Metrics)
    ensures patch.profileCompleteness.Some? ==> m.profileCompleteness == patch.profileCompleteness.value
    ensures patch.profileCompleteness.None? ==> m.profileCompleteness == prev.profileCompleteness
    ensures patch.profileViews.Some? ==> m.profileViews == patch.profileViews.value
    ensures patch.profileViews.None? ==> m.profileViews == prev.profileViews
    ensures patch.proposalSuccessRate.Some? ==> m.proposalSuccessRate == patch.proposalSuccessRate.value
    ensures patch.proposalSuccessRate.None? ==> m.proposalSuccessRate == prev.proposalSuccessRate
    ensures patch.jobInvitations.Some? ==> m.jobInvitations == patch.jobInvitations.value
    ensures patch.jobInvitations.None? ==> m.jobInvitations == prev.jobInvitations
    ensures patch.hourlyRate.Some? ==> m.hourlyRate == patch.hourlyRate.value
    ensures patch.hourlyRate.None? ==> m.hourlyRate == prev.hourlyRate
    ensures patch.skills.Some? ==> m.skills == patch.skills.value
    ensures patch.skills.None? ==> m.skills == prev.skills
    ensures patch.portfolioItems.Some? ==> m.portfolioItems == patch.portfolioItems.value
    ensures patch.portfolioItems.None? ==> m.portfolioItems == prev.portfolioItems
    ensures patch.repeatClientsRate.Some? ==> m.repeatClientsRate == patch.repeatClientsRate.value
    ensures patch.repeatClientsRate.None? ==> m.repeatClientsRate == prev.repeatClientsRate
  {
    Metrics(
      OrElse(patch.profileCompleteness, prev.profileCompleteness),
      OrElse(patch.profileViews, prev.profileViews),
      OrElse(patch.proposalSuccessRate, prev.proposalSuccessRate),
      OrElse(patch.jobInvitations, prev.jobInvitations),
      OrElse(patch.hourlyRate, prev.hourlyRate),
      OrElse(patch.skills, prev.skills),
      OrElse(patch.portfolioItems, prev.portfolioItems),
      OrElse(patch.repeatClientsRate, prev.repeatClientsRate))
  }

  /** Merging an empty patch changes nothing, and merging the same patch twice
      is merging it once. */
  lemma MergeLaws(m: Metrics, p: MetricsPatch)
    ensures Merge(m, EmptyPatch) == m
    ensures Merge(Merge(m, p), p) == Merge(m, p)
  {
  }

  datatype Milestone = Milestone(
    id: string,
    title: string,
    description: string,
    estimatedEffort: string,
    completed: bool,
    order: int)

  datatype User = User(id: string, name: string, email: string, createdAt: int)

  /** The three labels analyzeSentiment produces. A review loaded from the
      backend may carry any other string, since nothing validates it. */
  const Positive: string := "positive"
  const Neutral: string := "neutral"
  const Negative: string := "negative"

  datatype SentimentReview = SentimentReview(
    id: string,
    text: string,
    createdAt: int,
    score: real,
    sentimentLabel: string,
    categories: seq<string>,
    suggestions: seq<string>)

  /** `reviews.filter(r => r.id !== id)`: every review with that id is
      removed (see Common.Filter and its lemmas). */
  function WithoutReview(rs: seq<SentimentReview>, id: string): (r: seq<SentimentReview>)
    ensures forall x :: x in r <==> x in rs && x.id != id
  {
    Filter(rs, (x: SentimentReview) => x.id != id)
  }

  /** Deleting works list piece by list piece, so the remaining reviews keep
      their order; deleting an id no review carries changes nothing; deleting
      twice is deleting once. */
  lemma WithoutReviewLaws(rs: seq<SentimentReview>, more: seq<SentimentReview>, id: string)
    ensures WithoutReview(rs + more, id) == WithoutReview(rs, id) + WithoutReview(more, id)
    ensures (forall x :: x in rs ==> x.id != id) ==> WithoutReview(rs, id) == rs
    ensures WithoutReview(WithoutReview(rs, id), id) == WithoutReview(rs, id)
  {
    var keep := (x: SentimentReview) => x.id != id;
    FilterAppend(rs, more, keep);
    FilterIdempotent(rs, keep);
    if forall x :: x in rs ==> x.id != id {
      FilterAllKept(rs, keep);
    }
  }
}
