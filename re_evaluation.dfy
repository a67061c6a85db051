/** The re-evaluation page (src/pages/Freelancer/ReEvaluationPage.tsx): the
    improvement since the ranking saved on the roadmap page, the previous
    ranking shown beside the current one, the improvement banner, and the
    change of three metrics against fixed baselines. */
module ReEvaluation {
  import opened Common
  import opened Domain
  import PC = ProfileComparison

  /** `previousPseudoRanking ? current - previous : 0`: a saved 0 is falsy
      and counts as no saved ranking. */
  function Improvement(current: int, previous: Option<int>): (d: int)
    ensures previous.Some? && previous.value != 0 ==> d == current - previous.value
    ensures previous.None? || previous.value == 0 ==> d == 0
  {
    if previous.Some? && previous.value != 0 then current - previous.value else 0
  }

  const FallbackPrevious: int := 68

  /** `previousPseudoRanking || 68` */
  function ShownPrevious(previous: Option<int>): (p: int)
    ensures previous.Some? && previous.value != 0 ==> p == previous.value
    ensures previous.None? || previous.value == 0 ==> p == FallbackPrevious
  {
    if previous.Some? && previous.value != 0 then previous.value else FallbackPrevious
  }

  /** With a saved ranking the improvement is exactly the new ranking minus
      the one shown as previous. */
  lemma ImprovementMatchesShown(current: int, previous: Option<int>)
    requires previous.Some? && previous.value != 0
    ensures Improvement(current, previous) == current - ShownPrevious(previous)
  {
  }

  /** Without one the two disagree: the page shows 68 as previous and an
      improvement of 0 whenever the current ranking is not 68. */
  lemma FallbackDisagrees(current: int)
    requires current != FallbackPrevious
    ensures Improvement(current, None) == 0
    ensures Improvement(current, None) != current - ShownPrevious(None)
  {
  }

  // ---------------------------------------------------------------------
  // The improvement banner
  // ---------------------------------------------------------------------

  /** Decimal digits of a natural number. */
  function NatText(n: nat): (s: string)
    ensures |s| > 0 && forall i :: 0 <= i < |s| ==> '0' <= s[i] <= '9'
  {
    var d := ['0' + (n % 10) as char];
    if n < 10 then d else NatText(n / 10) + d
  }

  /** How JavaScript writes an integer: a minus sign and the digits. */
  function IntText(i: int): (s: string)
    ensures |s| > 0
    ensures s[0] == '-' <==> i < 0
    ensures i >= 0 ==> '0' <= s[0] <= '9'
  {
    if i < 0 then "-" + NatText(-i) else NatText(i)
  }

  /** The banner as written: `+{improvement}` whatever the sign, so a
      ranking that went down reads "+-5 points improvement". */
  function BannerAsWritten(improvement: int): string
  {
    "+" + IntText(improvement) + " points improvement"
  }

  lemma BannerAsWrittenShowsPlusMinus()
    ensures BannerAsWritten(-5)[..2] == "+-"
  {
    assert IntText(-5)[0] == '-';
  }

  /** The banner as evidently intended: a "+" only before a gain, so the
      sign shown is the sign of the change. */
  function Banner(improvement: int): (s: string)
    ensures |s| > 1
    ensures s[0] == '+' <==> improvement > 0
    ensures s[0] == '-' <==> improvement < 0
    ensures improvement > 0 ==> s[1..] == IntText(improvement) + " points improvement"
    ensures improvement <= 0 ==> s == IntText(improvement) + " points improvement"
  {
    var t := IntText(improvement) + " points improvement";
    if improvement > 0 then
      var s := "+" + t;
      assert s[1..] == t;
      s
    else t
  }

  // ---------------------------------------------------------------------
  // Key metric changes
  // ---------------------------------------------------------------------

  const BaselineCompleteness: real := 72.0
  const BaselinePortfolio: real := 8.0
  const BaselineProposalRate: real := 18.0

  /** One metric row: the change against its baseline, up and with "+"
      only for a strict gain. */
  function Change(current: real, baseline: real): (v: PC.RowView)
    ensures v.difference == current - baseline
    ensures v.trend == PC.Up <==> current > baseline
    ensures v.sign == "+" <==> current > baseline
    ensures v.sign == "" <==> current <= baseline
  {
    var change := current - baseline;
    var isPositive := change > 0.0;
    PC.RowView(if isPositive then PC.Up else PC.Down, if isPositive then "+" else "", change)
  }

  /** The three rows: completeness, portfolio items, proposal success. */
  function Changes(m: Metrics): (rs: seq<PC.RowView>)
    ensures |rs| == 3
    ensures rs[0].difference == m.profileCompleteness - BaselineCompleteness
    ensures rs[1].difference == m.portfolioItems - BaselinePortfolio
    ensures rs[2].difference == m.proposalSuccessRate - BaselineProposalRate
  {
    [Change(m.profileCompleteness, BaselineCompleteness),
     Change(m.portfolioItems, BaselinePortfolio),
     Change(m.proposalSuccessRate, BaselineProposalRate)]
  }

  /** The baselines are the initial profile's values, so an unchanged
      profile shows three flat rows, drawn as not improved. */
  lemma UnchangedProfileShowsNoGain(m: Metrics)
    requires m.profileCompleteness == 72.0 && m.portfolioItems == 8.0 && m.proposalSuccessRate == 18.0
    ensures forall k :: 0 <= k < 3 ==> Changes(m)[k] == PC.RowView(PC.Down, "", 0.0)
  {
  }
}
