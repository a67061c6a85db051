/** The application state container of src/context/AppContext.tsx: the
    signed-in user, the freelancer's metrics, the roadmap milestones, the
    ranking saved before a re-evaluation and the analysed client feedback,
    with the pseudo-ranking formula and the operations that replace those
    fields. Browser storage is an abstract map from key to stored text. */
module App {
  import opened Common
  import opened Domain
  import opened Sentiment

  const InitialProfile := Metrics(
    72.0, 135.0, 18.0, 6.0, 45.0,
    ["React", "TypeScript", "Node.js", "UI/UX Design"],
    8.0, 25.0)

  const InitialRoadmap: seq<Milestone> := [
    Milestone("1", "Fix Profile Basics",
      "Complete your headline, overview, and add 3 strong portfolio items", "2-3 days", false, 1),
    Milestone("2", "Skill Upgrade",
      "Complete a course and build 1-2 showcase projects in trending skills", "1-2 weeks", false, 2),
    Milestone("3", "Proposal Optimization",
      "Improve proposal quality, create templates, and track performance", "3-5 days", false, 3),
    Milestone("4", "Build Case Studies",
      "Document your best projects with detailed case studies", "1 week", false, 4)]

  // ---------------------------------------------------------------------
  // calculatePseudoRanking
  // ---------------------------------------------------------------------

  /** `milestones.filter(m => m.completed).length` */
  function CompletedCount(ms: seq<Milestone>): (n: nat)
    ensures n <= |ms|
  {
    if ms == [] then 0 else CompletedCount(ms[..|ms| - 1]) + (if ms[|ms| - 1].completed then 1 else 0)
  }

  /** `(completed / milestones.length) * 15`: the completed share of 15
      points. */
  function MilestoneBonus(ms: seq<Milestone>): (b: real)
    requires |ms| > 0
    ensures 0.0 <= b <= 15.0
  {
    var c := CompletedCount(ms) as real;
    RatioBounds(c, c, |ms| as real);
    (c / |ms| as real) * 15.0
  }

  function ProposalTerm(p: Metrics): real { MinReal(p.proposalSuccessRate * 2.0, 30.0) }
  function PortfolioTerm(p: Metrics): real { MinReal(p.portfolioItems * 3.0, 20.0) }
  function RepeatTerm(p: Metrics): real { MinReal(p.repeatClientsRate, 15.0) }

  /** calculatePseudoRanking: the capped terms and the milestone bonus added
      up, rounded, and capped at 100. The roadmap must not be empty: the code
      divides by its length. */
  function PseudoRanking(p: Metrics, ms: seq<Milestone>): (r: int)
    requires |ms| > 0
    ensures r <= 100
    ensures var x := p.profileCompleteness * 0.25 + ProposalTerm(p) + PortfolioTerm(p) + RepeatTerm(p) + MilestoneBonus(ms);
      r < 100 ==> x - 0.5 < r as real <= x + 0.5
    ensures var x := p.profileCompleteness * 0.25 + ProposalTerm(p) + PortfolioTerm(p) + RepeatTerm(p) + MilestoneBonus(ms);
      r == 100 <==> x + 0.5 >= 100.0
  {
    MinInt(100, Round(p.profileCompleteness * 0.25 + ProposalTerm(p) + PortfolioTerm(p) + RepeatTerm(p) + MilestoneBonus(ms)))
  }

  lemma MilestoneBonusBounds(ms: seq<Milestone>)
    requires |ms| > 0
    ensures 0.0 <= MilestoneBonus(ms) <= 15.0
    ensures MilestoneBonus(ms) == 15.0 <==> CompletedCount(ms) == |ms|
  {
    var c := CompletedCount(ms) as real;
    var n := |ms| as real;
    var q := c / n;
    assert MilestoneBonus(ms) == q * 15.0;
    RatioBounds(c, c, n);
    if c == n {
      assert q == 1.0;
    }
  }

  /** A roadmap with nothing completed counts zero. */
  lemma {:induction false} NoneCompleted(ms: seq<Milestone>)
    requires forall i :: 0 <= i < |ms| ==> !ms[i].completed
    ensures CompletedCount(ms) == 0
  {
    if ms != [] {
      NoneCompleted(ms[..|ms| - 1]);
    }
  }

  /** The ranking never exceeds 100, each capped term stays under its cap and
      the milestone bonus lies in [0, 15]. */
  lemma PseudoRankingBounds(p: Metrics, ms: seq<Milestone>)
    requires |ms| > 0
    ensures PseudoRanking(p, ms) <= 100
    ensures ProposalTerm(p) <= 30.0 && PortfolioTerm(p) <= 20.0 && RepeatTerm(p) <= 15.0
    ensures 0.0 <= MilestoneBonus(ms) <= 15.0
  {
    MilestoneBonusBounds(ms);
  }

  /** There is no lower clamp: a negative completeness drives the ranking
      below zero. */
  lemma PseudoRankingHasNoFloor()
    ensures PseudoRanking(InitialProfile.(profileCompleteness := -400.0, proposalSuccessRate := 0.0,
                                          portfolioItems := 0.0, repeatClientsRate := 0.0), InitialRoadmap) == -100
  {
    var p := InitialProfile.(profileCompleteness := -400.0, proposalSuccessRate := 0.0,
                             portfolioItems := 0.0, repeatClientsRate := 0.0);
    NoneCompleted(InitialRoadmap);
    assert MilestoneBonus(InitialRoadmap) == 0.0;
  }

  /** The initial profile with no milestone done ranks 83:
      18 + 30 + 20 + 15 + 0. */
  lemma InitialRanking()
    ensures PseudoRanking(InitialProfile, InitialRoadmap) == 83
  {
    NoneCompleted(InitialRoadmap);
    assert MilestoneBonus(InitialRoadmap) == 0.0;
    assert InitialProfile.profileCompleteness * 0.25 == 18.0;
    RoundOfInt(83);
  }

  lemma {:induction false} CompletedCountMonotone(a: seq<Milestone>, b: seq<Milestone>)
    requires |a| == |b|
    requires forall i :: 0 <= i < |a| && a[i].completed ==> b[i].completed
    ensures CompletedCount(a) <= CompletedCount(b)
  {
    if a != [] {
      CompletedCountMonotone(a[..|a| - 1], b[..|b| - 1]);
    }
  }

  /** Completing milestones never lowers the ranking. */
  lemma RankingMonotoneInMilestones(p: Metrics, a: seq<Milestone>, b: seq<Milestone>)
    requires |a| == |b| > 0
    requires forall i :: 0 <= i < |a| && a[i].completed ==> b[i].completed
    ensures PseudoRanking(p, a) <= PseudoRanking(p, b)
  {
    CompletedCountMonotone(a, b);
    RatioBounds(CompletedCount(a) as real, CompletedCount(b) as real, |a| as real);
    var base := p.profileCompleteness * 0.25 + ProposalTerm(p) + PortfolioTerm(p) + RepeatTerm(p);
    RoundMonotonic(base + MilestoneBonus(a), base + MilestoneBonus(b));
  }

  // ---------------------------------------------------------------------
  // Milestones and feedback lists
  // ---------------------------------------------------------------------

  /** `prev.map(m => m.id === id ? { ...m, completed: !m.completed } : m)` */
  function Toggled(ms: seq<Milestone>, id: string): (r: seq<Milestone>)
    ensures |r| == |ms|
    ensures forall i :: 0 <= i < |ms| ==> r[i] == (if ms[i].id == id then ms[i].(completed := !ms[i].completed) else ms[i])
  {
    if ms == [] then []
    else
      var m := ms[0];
      [if m.id == id then m.(completed := !m.completed) else m] + Toggled(ms[1..], id)
  }

  /** Toggling flips `completed` on the milestones with that id and keeps every
      other field and milestone; toggling twice restores the list. */
  lemma ToggledFacts(ms: seq<Milestone>, id: string)
    ensures forall i :: 0 <= i < |ms| ==>
      Toggled(ms, id)[i].id == ms[i].id && Toggled(ms, id)[i].order == ms[i].order &&
      Toggled(ms, id)[i].title == ms[i].title &&
      (Toggled(ms, id)[i].completed != ms[i].completed <==> ms[i].id == id)
    ensures Toggled(Toggled(ms, id), id) == ms
  {
  }

  /** Toggling a milestone that is not yet done completes it, so the ranking
      does not go down. */
  lemma ToggleIncompleteRaisesRanking(p: Metrics, ms: seq<Milestone>, id: string)
    requires |ms| > 0
    requires forall i :: 0 <= i < |ms| && ms[i].id == id ==> !ms[i].completed
    ensures PseudoRanking(p, ms) <= PseudoRanking(p, Toggled(ms, id))
  {
    RankingMonotoneInMilestones(p, ms, Toggled(ms, id));
  }

  // ---------------------------------------------------------------------
  // The state container
  // ---------------------------------------------------------------------

  /** What `JSON.parse` makes of a stored text: it throws, or gives a value. */
  datatype ParseResult<T> = Throws | Value(v: T)

  /** `localStorage.getItem(key)` used as a condition: the stored text when
      there is one and it is not empty. */
  function StoredText(store: map<string, string>, key: string): (t: Option<string>)
    ensures t.Some? <==> key in store && store[key] != ""
    ensures t.Some? ==> t.value == store[key]
  {
    if key in store && store[key] != "" then Some(store[key]) else None
  }

  const UserKey: string := "user"
  const ProfileKey: string := "ff_freelancer_profile"
  const FeedbackKey: string := "ff_client_feedback"

  /** `stored ? { ...initial, ...JSON.parse(stored) } : initial` inside a
      try whose catch falls back to the initial profile. */
  function LoadedProfile(store: map<string, string>, parse: string -> ParseResult<MetricsPatch>): (p: Metrics)
    ensures StoredText(store, ProfileKey).Some? && parse(store[ProfileKey]).Value? ==>
      p == Merge(InitialProfile, parse(store[ProfileKey]).v)
    ensures StoredText(store, ProfileKey).None? || parse(store[ProfileKey]).Throws? ==> p == InitialProfile
  {
    match StoredText(store, ProfileKey)
    case None => InitialProfile
    case Some(t) =>
      match parse(t)
      case Throws => InitialProfile
      case Value(patch) => Merge(InitialProfile, patch)
  }

  /** The stored feedback when there is a text that parses to a list (the
      `map` over a non-list throws too); [] in every other case. The
      conversion of createdAt back to a Date is part of `parse`. */
  function LoadedFeedback(store: map<string, string>, parse: string -> ParseResult<seq<SentimentReview>>): (rs: seq<SentimentReview>)
    ensures StoredText(store, FeedbackKey).Some? && parse(store[FeedbackKey]).Value? ==>
      rs == parse(store[FeedbackKey]).v
    ensures StoredText(store, FeedbackKey).None? || parse(store[FeedbackKey]).Throws? ==> rs == []
  {
    match StoredText(store, FeedbackKey)
    case None => []
    case Some(t) =>
      match parse(t)
      case Throws => []
      case Value(rs) => rs
  }

  /** The user initializer parses without a try, so a stored "user" text
      that does not parse throws out of the provider; the state exists only
      when it does not. JSON `null` parses to no user. */
  predicate UserLoads(store: map<string, string>, parse: string -> ParseResult<Option<User>>)
  {
    StoredText(store, UserKey).Some? ==> parse(store[UserKey]).Value?
  }

  const SessionKeys: set<string> := {"user", "accessToken", "refreshToken"}

  class AppState {
    var user: Option<User>
    var profile: Metrics
    var milestones: seq<Milestone>
    var previousPseudoRanking: Option<int>
    var clientFeedback: seq<SentimentReview>
    var storage: map<string, string>

    predicate Valid()
      reads this
    {
      |milestones| > 0
    }

    /** The provider's initial state, read from storage: the stored user
        (none without a text), the stored profile merged over the initial
        one, the initial roadmap, no saved ranking, and the stored feedback.
        JSON parsing is given as the three `parse` functions. */
    constructor(store: map<string, string>,
                parseUser: string -> ParseResult<Option<User>>,
                parseProfile: string -> ParseResult<MetricsPatch>,
                parseFeedback: string -> ParseResult<seq<SentimentReview>>)
      requires UserLoads(store, parseUser)
      ensures Valid()
      ensures StoredText(store, UserKey).None? ==> user == None
      ensures StoredText(store, UserKey).Some? ==> user == parseUser(store[UserKey]).v
      ensures profile == LoadedProfile(store, parseProfile)
      ensures milestones == InitialRoadmap && previousPseudoRanking == None
      ensures clientFeedback == LoadedFeedback(store, parseFeedback)
      ensures storage == store
    {
      var stored := StoredText(store, UserKey);
      user := if stored.Some? then parseUser(stored.value).v else None;
      profile := LoadedProfile(store, parseProfile);
      milestones := InitialRoadmap;
      previousPseudoRanking := None;
      clientFeedback := LoadedFeedback(store, parseFeedback);
      storage := store;
    }

    function CalculatePseudoRanking(): int
      reads this
      requires Valid()
    {
      PseudoRanking(profile, milestones)
    }

    method UpdateFreelancerProfile(patch: MetricsPatch)
      requires Valid()
      modifies this
      ensures Valid()
      ensures profile == Merge(old(profile), patch)
      ensures user == old(user) && milestones == old(milestones) && previousPseudoRanking == old(previousPseudoRanking)
      ensures clientFeedback == old(clientFeedback) && storage == old(storage)
    {
      profile := Merge(profile, patch);
    }

    method ToggleMilestone(id: string)
      requires Valid()
      modifies this
      ensures Valid()
      ensures milestones == Toggled(old(milestones), id)
      ensures user == old(user) && profile == old(profile) && previousPseudoRanking == old(previousPseudoRanking)
      ensures clientFeedback == old(clientFeedback) && storage == old(storage)
    {
      milestones := Toggled(milestones, id);
    }

    method SavePreviousRanking()
      requires Valid()
      modifies this
      ensures Valid()
      ensures previousPseudoRanking == Some(old(CalculatePseudoRanking()))
      ensures previousPseudoRanking.value <= 100
      ensures user == old(user) && profile == old(profile) && milestones == old(milestones)
      ensures clientFeedback == old(clientFeedback) && storage == old(storage)
    {
      PseudoRankingBounds(profile, milestones);
      previousPseudoRanking := Some(CalculatePseudoRanking());
    }

    /** addClientFeedback; the fresh id and the current time are parameters. */
    method AddClientFeedback(text: string, id: string, now: int) returns (review: SentimentReview)
      requires Valid() && IsAscii(text)
      modifies this
      ensures Valid()
      ensures review.id == id && review.createdAt == now
      ensures var a := Analyze(text);
        review.text == a.text && review.score == a.score && review.sentimentLabel == a.sentimentLabel &&
        review.categories == a.categories && review.suggestions == a.suggestions
      ensures clientFeedback == [review] + old(clientFeedback)
      ensures user == old(user) && profile == old(profile) && milestones == old(milestones)
      ensures previousPseudoRanking == old(previousPseudoRanking) && storage == old(storage)
    {
      var analyzed := AnalyzeSentiment(text);
      review := SentimentReview(id, analyzed.text, now, analyzed.score, analyzed.sentimentLabel,
                                analyzed.categories, analyzed.suggestions);
      clientFeedback := [review] + clientFeedback;
    }

    method DeleteClientFeedback(id: string)
      requires Valid()
      modifies this
      ensures Valid()
      ensures clientFeedback == WithoutReview(old(clientFeedback), id)
      ensures user == old(user) && profile == old(profile) && milestones == old(milestones)
      ensures previousPseudoRanking == old(previousPseudoRanking) && storage == old(storage)
    {
      clientFeedback := WithoutReview(clientFeedback, id);
    }

    method Logout()
      requires Valid()
      modifies this
      ensures Valid()
      ensures user == None
      ensures storage == old(storage) - SessionKeys
      ensures profile == old(profile) && milestones == old(milestones)
      ensures previousPseudoRanking == old(previousPseudoRanking) && clientFeedback == old(clientFeedback)
    {
      storage := storage - {"user"};
      storage := storage - {"accessToken"};
      storage := storage - {"refreshToken"};
      user := None;
    }
  }
}
