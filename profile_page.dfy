/** The freelancer's profile page (src/pages/Freelancer/ProfilePage.tsx):
    the hourly-rate suggestion computed from the skills, the portfolio, the
    repeat-client rate and the pseudo-ranking, the two buttons that copy a
    suggestion into the rate field, and the form filled from the backend
    profile on load. */
module ProfilePage {
  import opened Common
  import opened Domain
  import App

  // ---------------------------------------------------------------------
  // computePricingSuggestion
  // ---------------------------------------------------------------------

  const BaseMedian: real := 55.0

  /** Breadth of skills: 2.5 per skill, at most 20. */
  function SkillBonus(skills: nat): (b: real)
    ensures 0.0 <= b <= 20.0
    ensures b == 20.0 <==> skills >= 8
  {
    MinReal(skills as real * 2.5, 20.0)
  }

  /** 1.2 per portfolio item, at most 18. */
  function PortfolioBonus(items: real): (b: real)
    ensures b <= 18.0 && (items >= 0.0 ==> b >= 0.0)
    ensures b == 18.0 <==> items >= 15.0
  {
    MinReal(items * 1.2, 18.0)
  }

  /** A quarter of the repeat-client rate, at most 12. */
  function RepeatBonus(rate: real): (b: real)
    ensures b <= 12.0 && (rate >= 0.0 ==> b >= 0.0)
    ensures b == 12.0 <==> rate >= 48.0
  {
    MinReal(rate * 0.25, 12.0)
  }

  /** `(pseudoRanking / 100) * 25`: a quarter of the ranking, with no clamp
      of its own. */
  function RankingFactor(ranking: int): (f: real)
    ensures f * 4.0 == ranking as real
  {
    (ranking as real / 100.0) * 25.0
  }

  /** The unrounded suggestion. */
  function RawPrice(skills: nat, items: real, repeatRate: real, ranking: int): real
  {
    BaseMedian + SkillBonus(skills) + PortfolioBonus(items) + RepeatBonus(repeatRate) + RankingFactor(ranking)
  }

  /** With a non-negative portfolio, repeat rate and ranking the raw value
      is at least the market median; with a ranking of at most 100 it is at
      most 55 + 20 + 18 + 12 + 25 = 130. */
  lemma RawPriceBounds(skills: nat, items: real, repeatRate: real, ranking: int)
    ensures items >= 0.0 && repeatRate >= 0.0 && ranking >= 0 ==> RawPrice(skills, items, repeatRate, ranking) >= 55.0
    ensures ranking <= 100 ==> RawPrice(skills, items, repeatRate, ranking) <= 130.0
  {
  }

  /** The ranking has no floor, so a low ranking pulls the suggestion below
      the median: a ranking of -100 and nothing else gives 30. */
  lemma NegativeRankingBelowMedian()
    ensures RawPrice(0, 0.0, 0.0, -100) == 30.0
  {
  }

  datatype PricingSuggestion = PricingSuggestion(suggestedMin: int, suggestedMax: int, raw: int)

  /** The band: 90% and 115% of the raw value, and the raw value itself,
      each rounded by Math.round, so each lies within a half of its exact
      value. For a non-negative raw value the band is ordered and contains
      the rounded raw value. */
  function ComputePricingSuggestion(skills: nat, items: real, repeatRate: real, ranking: int): (p: PricingSuggestion)
    ensures var raw := RawPrice(skills, items, repeatRate, ranking);
      raw * 0.9 - 0.5 < p.suggestedMin as real <= raw * 0.9 + 0.5
    ensures var raw := RawPrice(skills, items, repeatRate, ranking);
      raw * 1.15 - 0.5 < p.suggestedMax as real <= raw * 1.15 + 0.5
    ensures var raw := RawPrice(skills, items, repeatRate, ranking);
      raw - 0.5 < p.raw as real <= raw + 0.5 &&
      (raw >= 0.0 ==> p.suggestedMin <= p.raw <= p.suggestedMax)
  {
    var raw := RawPrice(skills, items, repeatRate, ranking);
    assert raw >= 0.0 ==> Round(raw * 0.9) <= Round(raw) <= Round(raw * 1.15) by {
      if raw >= 0.0 {
        RoundMonotonic(raw * 0.9, raw);
        RoundMonotonic(raw, raw * 1.15);
      }
    }
    PricingSuggestion(Round(raw * 0.9), Round(raw * 1.15), Round(raw))
  }

  /** For the initial profile (4 skills, 8 portfolio items, 25% repeat
      clients, ranking 83) the raw suggestion is 101.6, shown as 102 within
      91 to 117. */
  lemma InitialSuggestion()
    ensures RawPrice(4, 8.0, 25.0, 83) == 101.6
    ensures ComputePricingSuggestion(4, 8.0, 25.0, 83) == PricingSuggestion(91, 117, 102)
  {
    assert SkillBonus(4) == 10.0;
    assert PortfolioBonus(8.0) == 9.6;
    assert RepeatBonus(25.0) == 6.25;
    assert RankingFactor(83) == 20.75;
    assert 101.6 * 0.9 == 91.44;
    assert 101.6 * 1.15 == 116.84;
  }

  // ---------------------------------------------------------------------
  // The form
  // ---------------------------------------------------------------------

  /** The backend profile as the load effect reads it: None for a field
      that is null or undefined. Number() of a non-numeric value is not
      modelled, so the numeric fields are already numbers. */
  datatype BackendProfile = BackendProfile(
    name: Option<string>,
    email: Option<string>,
    hourlyRate: Option<real>,
    portfolioItems: Option<real>,
    proposalSuccessRate: Option<real>,
    repeatClientsRate: Option<real>,
    skills: Option<seq<string>>)

  /** `a || b?.x || ""` over strings: the first non-empty one. */
  function FirstText(a: Option<string>, b: Option<string>): (r: string)
    ensures a.Some? && a.value != "" ==> r == a.value
    ensures !(a.Some? && a.value != "") && b.Some? && b.value != "" ==> r == b.value
    ensures !(a.Some? && a.value != "") && !(b.Some? && b.value != "") ==> r == ""
  {
    if a.Some? && a.value != "" then a.value
    else if b.Some? && b.value != "" then b.value
    else ""
  }

  function UserName(u: Option<User>): Option<string>
  {
    if u.Some? then Some(u.value.name) else None
  }

  function UserEmail(u: Option<User>): Option<string>
  {
    if u.Some? then Some(u.value.email) else None
  }

  class ProfileForm {
    var name: string
    var email: string
    var hourlyRate: real
    var portfolioItems: real
    var proposalSuccessRate: real
    var repeatClientsRate: real

    /** The form starts from the signed-in user and the context's profile. */
    constructor(user: Option<User>, profile: Metrics)
      ensures name == FirstText(UserName(user), None) && email == FirstText(UserEmail(user), None)
      ensures hourlyRate == profile.hourlyRate && portfolioItems == profile.portfolioItems
      ensures proposalSuccessRate == profile.proposalSuccessRate && repeatClientsRate == profile.repeatClientsRate
    {
      name := FirstText(UserName(user), None);
      email := FirstText(UserEmail(user), None);
      hourlyRate := profile.hourlyRate;
      portfolioItems := profile.portfolioItems;
      proposalSuccessRate := profile.proposalSuccessRate;
      repeatClientsRate := profile.repeatClientsRate;
    }

    /** The suggestion as the page computes it: skills and ranking from the
      context, portfolio and repeat rate from the form. */
    function Pricing(skills: nat, ranking: int): PricingSuggestion
      reads this
    {
      ComputePricingSuggestion(skills, portfolioItems, repeatClientsRate, ranking)
    }

    /** "Apply": the rate becomes the rounded raw suggestion. */
    method ApplySuggestedRate(skills: nat, ranking: int)
      modifies this
      ensures hourlyRate == old(Pricing(skills, ranking)).raw as real
      ensures name == old(name) && email == old(email) && portfolioItems == old(portfolioItems)
      ensures proposalSuccessRate == old(proposalSuccessRate) && repeatClientsRate == old(repeatClientsRate)
    {
      hourlyRate := Pricing(skills, ranking).raw as real;
    }

    /** "Use Max": the rate becomes the top of the band. */
    method UseMax(skills: nat, ranking: int)
      modifies this
      ensures hourlyRate == old(Pricing(skills, ranking)).suggestedMax as real
      ensures name == old(name) && email == old(email) && portfolioItems == old(portfolioItems)
      ensures proposalSuccessRate == old(proposalSuccessRate) && repeatClientsRate == old(repeatClientsRate)
    {
      hourlyRate := Pricing(skills, ranking).suggestedMax as real;
    }

    /** The load effect: nothing for a missing profile; otherwise name and
      email fall back to the user's and then to "", each numeric field to
      its current value, and skills go to the context only when the backend
      sent an array. The pricing inputs of the form are unaffected by
      skills, which the context holds. The effect runs once, on mount, and
      falls back to the values captured then; the model falls back to the
      current form values, which are the same when the load arrives before
      any edit, as the atomic-step reading of handlers has it. */
    method LoadBackend(data: Option<BackendProfile>, app: App.AppState)
      requires app.Valid()
      modifies this, app
      ensures app.Valid()
      ensures data.None? ==>
        name == old(name) && email == old(email) && hourlyRate == old(hourlyRate) &&
        portfolioItems == old(portfolioItems) && proposalSuccessRate == old(proposalSuccessRate) &&
        repeatClientsRate == old(repeatClientsRate) && app.profile == old(app.profile)
      ensures data.Some? ==>
        name == FirstText(data.value.name, UserName(old(app.user))) &&
        email == FirstText(data.value.email, UserEmail(old(app.user))) &&
        hourlyRate == OrElse(data.value.hourlyRate, old(hourlyRate)) &&
        portfolioItems == OrElse(data.value.portfolioItems, old(portfolioItems)) &&
        proposalSuccessRate == OrElse(data.value.proposalSuccessRate, old(proposalSuccessRate)) &&
        repeatClientsRate == OrElse(data.value.repeatClientsRate, old(repeatClientsRate))
      ensures data.Some? && data.value.skills.Some? ==>
        app.profile == Merge(old(app.profile), EmptyPatch.(skills := data.value.skills))
      ensures data.Some? && data.value.skills.None? ==> app.profile == old(app.profile)
      ensures app.user == old(app.user) && app.milestones == old(app.milestones)
      ensures app.previousPseudoRanking == old(app.previousPseudoRanking)
      ensures app.clientFeedback == old(app.clientFeedback) && app.storage == old(app.storage)
    {
      if data.None? {
        return;
      }
      var d := data.value;
      name := FirstText(d.name, UserName(app.user));
      email := FirstText(d.email, UserEmail(app.user));
      hourlyRate := OrElse(d.hourlyRate, hourlyRate);
      portfolioItems := OrElse(d.portfolioItems, portfolioItems);
      proposalSuccessRate := OrElse(d.proposalSuccessRate, proposalSuccessRate);
      repeatClientsRate := OrElse(d.repeatClientsRate, repeatClientsRate);
      if d.skills.Some? {
        app.UpdateFreelancerProfile(EmptyPatch.(skills := d.skills));
      }
    }
  }

  /** Loading skills changes only the skills of the profile. */
  lemma SkillsPatchTouchesOnlySkills(m: Metrics, s: seq<string>)
    ensures Merge(m, EmptyPatch.(skills := Some(s))) == m.(skills := s)
  {
  }
}
