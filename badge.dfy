/** The label of the pseudo-ranking badge
    (src/components/freelancer/PseudoRankingBadge.tsx). Its lowest band is
    called "Growing", where the comparison pages say "Emerging". */
module Badge {

  const TopTierReady: string := "Top-tier ready"
  const Competitive: string := "Competitive"
  const Growing: string := "Growing"

  /** getLabel: 80 and above, 60 and above, the rest. */
  function GetLabel(score: real): (t: string)
    ensures t == TopTierReady <==> score >= 80.0
    ensures t == Competitive <==> 60.0 <= score < 80.0
    ensures t == Growing <==> score < 60.0
  {
    if score >= 80.0 then TopTierReady
    else if score >= 60.0 then Competitive
    else Growing
  }

  /** Position of a label, Growing lowest. */
  function LabelRank(t: string): nat
  {
    if t == TopTierReady then 2 else if t == Competitive then 1 else 0
  }

  /** Every score gets exactly one of the three labels, and the label never
      goes down as the score goes up. */
  lemma GetLabelMonotone(a: real, b: real)
    requires a <= b
    ensures GetLabel(a) in {TopTierReady, Competitive, Growing}
    ensures LabelRank(GetLabel(a)) <= LabelRank(GetLabel(b))
  {
  }
}
