/** The backend-connected comparison page (src/pages/Freelancer/a.tsx): the
    freelancer profile read from the backend and normalised over the
    context's profile, the backend ranking that overrides the local score,
    the tier wording of this page ("Top-tier"), the six suggested
    competitors of a role, the identifier sent when a comparison starts, and
    the comparison row, which here prints "+" only for a strict gain. */
module CompetitorComparison {
  import opened Common
  import opened Domain
  import PC = ProfileComparison

  // ---------------------------------------------------------------------
  // Profile normalisation
  // ---------------------------------------------------------------------

  /** One numeric metric as the backend may spell it: snake_case and
      camelCase keys, None where the key is null or undefined. */
  datatype Spellings = Spellings(snake: Option<real>, camel: Option<real>)

  /** The backend's freelancer profile. skills is None when it is not an
      array. */
  datatype BackendProfile = BackendProfile(
    profileCompleteness: Spellings,
    profileViews: Spellings,
    proposalSuccessRate: Spellings,
    jobInvitations: Spellings,
    hourlyRate: Spellings,
    skills: Option<seq<string>>,
    portfolioItems: Spellings,
    repeatClientsRate: Spellings)

  /** `p.snake ?? p.camel ?? current`: `??` only skips null and undefined,
      so a 0 from the backend is kept. */
  function Coalesce(s: Spellings, current: real): (r: real)
    ensures s.snake.Some? ==> r == s.snake.value
    ensures s.snake.None? && s.camel.Some? ==> r == s.camel.value
    ensures s.snake.None? && s.camel.None? ==> r == current
  {
    OrElse(s.snake, OrElse(s.camel, current))
  }

  /** A backend 0 wins over a non-zero context value. */
  lemma CoalesceKeepsZero(camel: Option<real>, current: real)
    ensures Coalesce(Spellings(Some(0.0), camel), current) == 0.0
    ensures Coalesce(Spellings(None, Some(0.0)), current) == 0.0
  {
  }

  /** The normalised profile: every metric through Coalesce over the
      context's value, skills only when the backend sent an array. */
  function Normalize(p: BackendProfile, ctx: Metrics): (m: Metrics)
    ensures m.profileCompleteness == Coalesce(p.profileCompleteness, ctx.profileCompleteness)
    ensures m.profileViews == Coalesce(p.profileViews, ctx.profileViews)
    ensures m.proposalSuccessRate == Coalesce(p.proposalSuccessRate, ctx.proposalSuccessRate)
    ensures m.jobInvitations == Coalesce(p.jobInvitations, ctx.jobInvitations)
    ensures m.hourlyRate == Coalesce(p.hourlyRate, ctx.hourlyRate)
    ensures p.skills.Some? ==> m.skills == p.skills.value
    ensures p.skills.None? ==> m.skills == ctx.skills
    ensures m.portfolioItems == Coalesce(p.portfolioItems, ctx.portfolioItems)
    ensures m.repeatClientsRate == Coalesce(p.repeatClientsRate, ctx.repeatClientsRate)
  {
    Metrics(
      Coalesce(p.profileCompleteness, ctx.profileCompleteness),
      Coalesce(p.profileViews, ctx.profileViews),
      Coalesce(p.proposalSuccessRate, ctx.proposalSuccessRate),
      Coalesce(p.jobInvitations, ctx.jobInvitations),
      Coalesce(p.hourlyRate, ctx.hourlyRate),
      OrElse(p.skills, ctx.skills),
      Coalesce(p.portfolioItems, ctx.portfolioItems),
      Coalesce(p.repeatClientsRate, ctx.repeatClientsRate))
  }

  /** A backend profile with every key missing normalises to the context's
      profile. */
  lemma NormalizeEmptyIsContext(ctx: Metrics)
    ensures var none := Spellings(None, None);
      Normalize(BackendProfile(none, none, none, none, none, None, none, none), ctx) == ctx
  {
  }

  // ---------------------------------------------------------------------
  // Score and tier
  // ---------------------------------------------------------------------

  /** `if (res?.score) setBackendScore(res.score)`: a score is kept only
      when truthy, so a backend 0 leaves the earlier value in place. */
  function StoredBackendScore(res: Option<real>, prev: Option<real>): (r: Option<real>)
    ensures res.Some? && res.value != 0.0 ==> r == res
    ensures res.None? || res.value == 0.0 ==> r == prev
  {
    if res.Some? && res.value != 0.0 then res else prev
  }

  /** `backendScore ?? Math.round(...)` over `serverProfile ?? context`. */
  function ShownScore(backend: Option<real>, server: Option<Metrics>, ctx: Metrics): (s: real)
    ensures backend.Some? ==> s == backend.value
    ensures backend.None? && server.Some? ==> s == PC.UserScore(server.value) as real
    ensures backend.None? && server.None? ==> s == PC.UserScore(ctx) as real
  {
    OrElse(backend, PC.UserScore(OrElse(server, ctx)) as real)
  }

  /** A backend ranking of 0 is never shown: the local formula is. */
  lemma BackendZeroFallsBack(server: Option<Metrics>, ctx: Metrics)
    ensures ShownScore(StoredBackendScore(Some(0.0), None), server, ctx) == PC.UserScore(OrElse(server, ctx)) as real
  {
  }

  const TopTier: string := "Top-tier"

  /** getTier of this page: "Top-tier", "Competitive", "Emerging". */
  function GetTier(score: real): (t: string)
    ensures t == TopTier <==> score >= 80.0
    ensures t == PC.Competitive <==> 60.0 <= score < 80.0
    ensures t == PC.Emerging <==> score < 60.0
  {
    if score >= 80.0 then TopTier
    else if score >= 60.0 then PC.Competitive
    else PC.Emerging
  }

  /** The same bands as the other comparison page under a different top
      label. */
  lemma GetTierMatchesOtherPage(score: real)
    ensures GetTier(score) == TopTier <==> PC.GetTier(score) == PC.TopTierReady
    ensures GetTier(score) != TopTier ==> GetTier(score) == PC.GetTier(score)
  {
  }

  // ---------------------------------------------------------------------
  // Suggested competitors
  // ---------------------------------------------------------------------

  datatype Competitor = Competitor(tier: string, name: string, url: string)

  const UrlBase: string := "https://example.com/"

  /** make(tier, i), with the 1-based number already written out. */
  function Make(role: string, tier: string, n: string): (c: Competitor)
    ensures c.tier == tier
    ensures c.name == ReplaceAll(role, '-', ' ') + " Freelancer " + n
    ensures c.url == UrlBase + role + "/" + (tier + "-" + n)
  {
    Competitor(tier, ReplaceAll(role, '-', ' ') + " Freelancer " + n, UrlBase + role + "/" + tier + "-" + n)
  }

  /** The six suggestions: Top, Mid and Low, numbered 1 and 2. */
  function SuggestedCompetitors(role: string): (cs: seq<Competitor>)
    ensures |cs| == 6
    ensures cs[0].tier == "Top" && cs[1].tier == "Top"
    ensures cs[2].tier == "Mid" && cs[3].tier == "Mid"
    ensures cs[4].tier == "Low" && cs[5].tier == "Low"
  {
    [Make(role, "Top", "1"), Make(role, "Top", "2"),
     Make(role, "Mid", "1"), Make(role, "Mid", "2"),
     Make(role, "Low", "1"), Make(role, "Low", "2")]
  }

  /** The tier and number suffixes of the six URLs. */
  const Suffixes: seq<string> := ["Top-1", "Top-2", "Mid-1", "Mid-2", "Low-1", "Low-2"]

  lemma SuffixesDistinct()
    ensures forall i, j :: 0 <= i < j < 6 ==> Suffixes[i] != Suffixes[j]
  {
    assert Suffixes[0][0] == 'T' && Suffixes[1][0] == 'T';
    assert Suffixes[2][0] == 'M' && Suffixes[3][0] == 'M';
    assert Suffixes[4][0] == 'L' && Suffixes[5][0] == 'L';
    assert forall k :: 0 <= k < 6 ==> |Suffixes[k]| == 5;
    assert Suffixes[0][4] == '1' && Suffixes[1][4] == '2';
    assert Suffixes[2][4] == '1' && Suffixes[3][4] == '2';
    assert Suffixes[4][4] == '1' && Suffixes[5][4] == '2';
  }

  /** Each URL is the role's common prefix followed by its suffix, and the
      names of each tier are numbered 1 and 2. */
  lemma SuggestedShape(role: string)
    ensures forall k :: 0 <= k < 6 ==> SuggestedCompetitors(role)[k].url == UrlBase + role + "/" + Suffixes[k]
    ensures forall k :: 0 <= k < 6 ==>
      SuggestedCompetitors(role)[k].name == ReplaceAll(role, '-', ' ') + " Freelancer " + (if k % 2 == 0 then "1" else "2")
  {
  }

  /** No two suggestions share a URL (the list's React keys are unique). */
  lemma SuggestedUrlsDistinct(role: string)
    ensures forall i, j :: 0 <= i < j < 6 ==> SuggestedCompetitors(role)[i].url != SuggestedCompetitors(role)[j].url
  {
    var cs := SuggestedCompetitors(role);
    var p := UrlBase + role + "/";
    SuggestedShape(role);
    SuffixesDistinct();
    forall i, j | 0 <= i < j < 6
      ensures cs[i].url != cs[j].url
    {
      assert (p + Suffixes[i])[|p|..] == Suffixes[i];
      assert (p + Suffixes[j])[|p|..] == Suffixes[j];
    }
  }

  // ---------------------------------------------------------------------
  // Starting a comparison
  // ---------------------------------------------------------------------

  /** `selectedCompetitor || competitorUrl || "suggested:" + role` */
  function Identifier(selected: Option<string>, url: string, role: string): (id: string)
    ensures selected.Some? && selected.value != "" ==> id == selected.value
    ensures !(selected.Some? && selected.value != "") && url != "" ==> id == url
    ensures !(selected.Some? && selected.value != "") && url == "" ==> id == "suggested:" + role
  {
    if selected.Some? && selected.value != "" then selected.value
    else if url != "" then url
    else "suggested:" + role
  }

  /** The identifier is never empty. */
  lemma IdentifierNonEmpty(selected: Option<string>, url: string, role: string)
    ensures Identifier(selected, url, role) != ""
  {
    if !(selected.Some? && selected.value != "") && url == "" {
      assert |"suggested:" + role| >= 10;
    }
  }

  /** The body of createComparison. */
  datatype ComparisonRequest = ComparisonRequest(
    competitorIdentifier: string,
    competitorRole: string,
    pseudoRanking: real,
    snapshot: Metrics)

  // ---------------------------------------------------------------------
  // ComparisonRow
  // ---------------------------------------------------------------------

  /** ComparisonRow of this page: the arrow is up for diff >= 0, but the
      "+" needs diff > 0. */
  function Row(user: real, top: real): (v: PC.RowView)
    ensures v.difference == user - top
    ensures v.trend == PC.Up <==> user >= top
    ensures v.sign == "+" <==> user > top
    ensures v.sign == "" <==> user <= top
  {
    var diff := user - top;
    PC.RowView(if diff >= 0.0 then PC.Up else PC.Down, if diff > 0.0 then "+" else "", diff)
  }

  /** On a tie this page shows an up arrow and no "+", where the other
      comparison page shows "+". */
  lemma TieContrast(x: real)
    ensures Row(x, x) == PC.RowView(PC.Up, "", 0.0)
    ensures PC.Row(x, x).sign == "+"
  {
  }

  // ---------------------------------------------------------------------
  // The page state
  // ---------------------------------------------------------------------

  class ComparisonPage {
    var selectedRole: string
    var competitorUrl: string
    /** null is None. */
    var selectedCompetitor: Option<string>
    var comparisonStarted: bool
    var serverProfile: Option<Metrics>
    var backendScore: Option<real>

    constructor()
      ensures selectedRole == "web-developer" && competitorUrl == "" && selectedCompetitor == None
      ensures !comparisonStarted && serverProfile == None && backendScore == None
    {
      selectedRole := "web-developer";
      competitorUrl := "";
      selectedCompetitor := None;
      comparisonStarted := false;
      serverProfile := None;
      backendScore := None;
    }

    /** `serverProfile ?? freelancerProfile` */
    function CurrentMetrics(ctx: Metrics): Metrics
      reads this
    {
      OrElse(serverProfile, ctx)
    }

    function UserScore(ctx: Metrics): real
      reads this
    {
      ShownScore(backendScore, serverProfile, ctx)
    }

    /** The ranking effect. */
    method ReceiveRanking(res: Option<real>)
      modifies this
      ensures backendScore == StoredBackendScore(res, old(backendScore))
      ensures selectedRole == old(selectedRole) && competitorUrl == old(competitorUrl)
      ensures selectedCompetitor == old(selectedCompetitor) && comparisonStarted == old(comparisonStarted)
      ensures serverProfile == old(serverProfile)
    {
      if res.Some? && res.value != 0.0 {
        backendScore := res;
      }
    }

    /** The profile effect; `if (!p) return` keeps the state for a missing
      profile. */
    method ReceiveProfile(p: Option<BackendProfile>, ctx: Metrics)
      modifies this
      ensures p.Some? ==> serverProfile == Some(Normalize(p.value, ctx))
      ensures p.None? ==> serverProfile == old(serverProfile)
      ensures selectedRole == old(selectedRole) && competitorUrl == old(competitorUrl)
      ensures selectedCompetitor == old(selectedCompetitor) && comparisonStarted == old(comparisonStarted)
      ensures backendScore == old(backendScore)
    {
      if p.None? {
        return;
      }
      serverProfile := Some(Normalize(p.value, ctx));
    }

    /** Choosing a role drops the selected competitor. */
    method ChangeRole(v: string)
      modifies this
      ensures selectedRole == v && selectedCompetitor == None
      ensures competitorUrl == old(competitorUrl) && comparisonStarted == old(comparisonStarted)
      ensures serverProfile == old(serverProfile) && backendScore == old(backendScore)
    {
      selectedRole := v;
      selectedCompetitor := None;
    }

    /** Typing a URL drops the selected competitor too. */
    method TypeUrl(v: string)
      modifies this
      ensures competitorUrl == v && selectedCompetitor == None
      ensures selectedRole == old(selectedRole) && comparisonStarted == old(comparisonStarted)
      ensures serverProfile == old(serverProfile) && backendScore == old(backendScore)
    {
      competitorUrl := v;
      selectedCompetitor := None;
    }

    method PickCompetitor(url: string)
      modifies this
      ensures selectedCompetitor == Some(url)
      ensures selectedRole == old(selectedRole) && competitorUrl == old(competitorUrl)
      ensures comparisonStarted == old(comparisonStarted)
      ensures serverProfile == old(serverProfile) && backendScore == old(backendScore)
    {
      selectedCompetitor := Some(url);
    }

    /** "Start Comparison": marks the comparison started and returns what is
      sent to the backend; the call's outcome only shows a toast. */
    method StartComparison(ctx: Metrics) returns (req: ComparisonRequest)
      modifies this
      ensures comparisonStarted
      ensures req.competitorIdentifier == Identifier(selectedCompetitor, competitorUrl, selectedRole)
      ensures req.competitorRole == selectedRole
      ensures req.pseudoRanking == UserScore(ctx) && req.snapshot == CurrentMetrics(ctx)
      ensures selectedRole == old(selectedRole) && competitorUrl == old(competitorUrl)
      ensures selectedCompetitor == old(selectedCompetitor)
      ensures serverProfile == old(serverProfile) && backendScore == old(backendScore)
    {
      comparisonStarted := true;
      req := ComparisonRequest(Identifier(selectedCompetitor, competitorUrl, selectedRole),
                               selectedRole, UserScore(ctx), CurrentMetrics(ctx));
    }
  }
}
