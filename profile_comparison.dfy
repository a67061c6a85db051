/** The formulas of the profile comparison page
    (src/pages/Freelancer/ProfileComparisonPage.tsx): the freelancer's user
    score, its tier banding, the per-metric comparison row against the fixed
    top-freelancer averages, and the role heading. The same score formula is
    written out again in a.tsx and ComparisonDetailPage.tsx; those modules
    use UserScore from here. */
module ProfileComparison {
  import opened Common
  import opened Domain

  /** calculateUserScore: Math.round((completeness * 0.3 + proposal * 2 +
      portfolio * 2 + repeat * 0.5) / 2). Views, invitations, rate and
      skills do not count. */
  function UserScore(m: Metrics): (r: int)
    ensures var x := (m.profileCompleteness * 0.3 + m.proposalSuccessRate * 2.0 + m.portfolioItems * 2.0 + m.repeatClientsRate * 0.5) / 2.0;
      x - 0.5 < r as real <= x + 0.5
  {
    Round((m.profileCompleteness * 0.3 + m.proposalSuccessRate * 2.0 + m.portfolioItems * 2.0 + m.repeatClientsRate * 0.5) / 2.0)
  }

  /** Raising any one of the four metrics that count never lowers the
      score (nor does raising all of them together). */
  lemma UserScoreMonotone(a: Metrics, b: Metrics)
    requires a.profileCompleteness <= b.profileCompleteness
    requires a.proposalSuccessRate <= b.proposalSuccessRate
    requires a.portfolioItems <= b.portfolioItems
    requires a.repeatClientsRate <= b.repeatClientsRate
    ensures UserScore(a) <= UserScore(b)
  {
    RoundMonotonic(
      (a.profileCompleteness * 0.3 + a.proposalSuccessRate * 2.0 + a.portfolioItems * 2.0 + a.repeatClientsRate * 0.5) / 2.0,
      (b.profileCompleteness * 0.3 + b.proposalSuccessRate * 2.0 + b.portfolioItems * 2.0 + b.repeatClientsRate * 0.5) / 2.0);
  }

  /** The score has no upper clamp: a proposal success rate of 200 alone
      already gives 200, so the position marker can leave the 0-100 bar. */
  lemma UserScoreHasNoCeiling(m: Metrics)
    requires m.profileCompleteness == 0.0 && m.portfolioItems == 0.0 && m.repeatClientsRate == 0.0
    requires m.proposalSuccessRate == 200.0
    ensures UserScore(m) == 200
  {
    RoundOfInt(200);
  }

  /** The tier labels of this page. */
  const TopTierReady: string := "Top-tier ready"
  const Competitive: string := "Competitive"
  const Emerging: string := "Emerging"

  /** getTier: 80 and above, 60 and above, the rest. */
  function GetTier(score: real): (t: string)
    ensures t == TopTierReady <==> score >= 80.0
    ensures t == Competitive <==> 60.0 <= score < 80.0
    ensures t == Emerging <==> score < 60.0
  {
    if score >= 80.0 then TopTierReady
    else if score >= 60.0 then Competitive
    else Emerging
  }

  /** Position of a label on the bar, Emerging lowest. */
  function TierRank(t: string): nat
  {
    if t == TopTierReady then 2 else if t == Competitive then 1 else 0
  }

  /** The tier never goes down as the score goes up. */
  lemma GetTierMonotone(a: real, b: real)
    requires a <= b
    ensures TierRank(GetTier(a)) <= TierRank(GetTier(b))
  {
  }

  /** The initial profile (completeness 72, proposal rate 18, 8 portfolio
      items, 25% repeat clients) scores 43, which is "Emerging". */
  lemma InitialProfileScore(m: Metrics)
    requires m.profileCompleteness == 72.0 && m.proposalSuccessRate == 18.0
    requires m.portfolioItems == 8.0 && m.repeatClientsRate == 25.0
    ensures UserScore(m) == 43
    ensures GetTier(UserScore(m) as real) == Emerging
  {
    assert (m.profileCompleteness * 0.3 + m.proposalSuccessRate * 2.0 + m.portfolioItems * 2.0 + m.repeatClientsRate * 0.5) / 2.0 == 43.05;
  }

  // ---------------------------------------------------------------------
  // ComparisonRow
  // ---------------------------------------------------------------------

  datatype Trend = Up | Down

  /** What one comparison row shows: the arrow, the sign prefix and the
      difference user - top (rendered with toFixed(0), not modelled). */
  datatype RowView = RowView(trend: Trend, sign: string, difference: real)

  /** ComparisonRow of this page: a difference of 0 counts as positive, so
      a tie shows an up arrow and "+0". */
  function Row(user: real, top: real): (v: RowView)
    ensures v.difference == user - top
    ensures v.trend == Up <==> user >= top
    ensures v.sign == "+" <==> user >= top
    ensures v.sign == "" <==> user < top
  {
    var difference := user - top;
    var isPositive := difference >= 0.0;
    RowView(if isPositive then Up else Down, if isPositive then "+" else "", difference)
  }

  /** A metric equal to the top average is shown as a gain. */
  lemma TieShowsPlus(x: real)
    ensures Row(x, x) == RowView(Up, "+", 0.0)
  {
  }

  /** The fixed top-freelancer averages this page compares against. */
  const TopCompleteness: real := 92.0
  const TopProposalRate: real := 35.0
  const TopPortfolio: real := 15.0
  const TopHourlyRate: real := 75.0
  const TopRepeatRate: real := 45.0

  /** The five rows, in display order: completeness, proposal success,
      portfolio depth, hourly rate, repeat clients. */
  function Rows(m: Metrics): (rs: seq<RowView>)
    ensures |rs| == 5
    ensures rs[0].difference == m.profileCompleteness - TopCompleteness
    ensures rs[1].difference == m.proposalSuccessRate - TopProposalRate
    ensures rs[2].difference == m.portfolioItems - TopPortfolio
    ensures rs[3].difference == m.hourlyRate - TopHourlyRate
    ensures rs[4].difference == m.repeatClientsRate - TopRepeatRate
  {
    [Row(m.profileCompleteness, TopCompleteness),
     Row(m.proposalSuccessRate, TopProposalRate),
     Row(m.portfolioItems, TopPortfolio),
     Row(m.hourlyRate, TopHourlyRate),
     Row(m.repeatClientsRate, TopRepeatRate)]
  }

  /** Every row shows a gain exactly when the metric reaches its average. */
  lemma RowsShowGainIffAtLeastAverage(m: Metrics)
    ensures Rows(m)[0].trend == Up <==> m.profileCompleteness >= TopCompleteness
    ensures Rows(m)[1].trend == Up <==> m.proposalSuccessRate >= TopProposalRate
    ensures Rows(m)[2].trend == Up <==> m.portfolioItems >= TopPortfolio
    ensures Rows(m)[3].trend == Up <==> m.hourlyRate >= TopHourlyRate
    ensures Rows(m)[4].trend == Up <==> m.repeatClientsRate >= TopRepeatRate
  {
  }

  // ---------------------------------------------------------------------
  // Heading
  // ---------------------------------------------------------------------

  /** `selectedRole.replace("-", " ")`: a string pattern, so only the first
      hyphen becomes a space. */
  function RoleHeading(role: string): (h: string)
    ensures |h| == |role|
    ensures forall i :: 0 <= i < |role| && '-' in role[..i] ==> h[i] == role[i]
    ensures forall i :: 0 <= i < |role| && '-' !in role[..i] ==> h[i] == (if role[i] == '-' then ' ' else role[i])
  {
    ReplaceFirst(role, '-', ' ')
  }

  /** For a role with at most one hyphen (every role this page offers) the
      heading equals replacing every hyphen. */
  lemma {:induction false} HeadingOfSingleHyphen(role: string)
    requires Count(role, '-') <= 1
    ensures RoleHeading(role) == ReplaceAll(role, '-', ' ')
  {
    ReplaceFirstIsAll(role, '-', ' ');
  }

  /** Replacing the first occurrence replaces all of them when there is at
      most one. */
  lemma {:induction false} ReplaceFirstIsAll(s: string, a: char, b: char)
    requires Count(s, a) <= 1
    ensures ReplaceFirst(s, a, b) == ReplaceAll(s, a, b)
  {
    if s != [] {
      if s[0] == a {
        assert Count(s[1..], a) == 0;
        assert a !in s[1..];
        NoOccurrenceUnchanged(s[1..], a, b);
      } else {
        ReplaceFirstIsAll(s[1..], a, b);
      }
    }
  }

  lemma {:induction false} NoOccurrenceUnchanged(s: string, a: char, b: char)
    requires a !in s
    ensures ReplaceAll(s, a, b) == s
  {
    if s != [] {
      assert a !in s[1..];
      NoOccurrenceUnchanged(s[1..], a, b);
    }
  }

  /** With two hyphens the heading keeps the second one. */
  lemma HeadingKeepsSecondHyphen()
    ensures RoleHeading("a-b-c") == "a b-c"
    ensures ReplaceAll("a-b-c", '-', ' ') == "a b c"
  {
    assert "a-b-c"[1..] == "-b-c";
    assert ReplaceFirst("-b-c", '-', ' ') == " b-c";
    assert ReplaceFirst("a-b-c", '-', ' ') == "a" + " b-c";
  }
}
