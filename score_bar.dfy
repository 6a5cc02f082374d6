/**
  The MUI palette colours the result screens pick from, ordered from best to worst
  tier, and the `ScoreBar` component (components/smarttrip/ScoreBar.tsx), which
  draws one 0–10 sub-score as a progress bar coloured by tier.
 */
module Palette {

  /** The colour names `'success' | 'warning' | 'error' | 'default'` passed to MUI. */
  datatype Color = Success | Warning | Error | Default

  /** Position of a score tier, best first: success, then warning, then error. */
  function TierRank(c: Color): (n: nat)
    requires c != Default
    ensures n <= 2
    ensures n == 0 <==> c == Success
    ensures n == 2 <==> c == Error
  {
    match c
    case Success => 0
    case Warning => 1
    case Error => 2
  }
}

module ScoreBar {
  import opened Palette

  /** The bar's `value`: the 0–10 score as a percentage, `(score / 10) * 100`. */
  function Percentage(score: real): (p: real)
    ensures p == score * 10.0
    ensures 0.0 <= score <= 10.0 ==> 0.0 <= p <= 100.0
  {
    (score / 10.0) * 100.0
  }

  /** `getColor`: the tier of a 0–10 sub-score, with lower bounds 7 and 5 inclusive. */
  function GetColor(score: real): (c: Color)
    ensures c == Success <==> score >= 7.0
    ensures c == Warning <==> 5.0 <= score < 7.0
    ensures c == Error <==> score < 5.0
  {
    if score >= 7.0 then Success
    else if score >= 5.0 then Warning
    else Error
  }

  /** A higher score never gets a worse tier, and gets a longer bar. */
  lemma GetColorMonotone(s1: real, s2: real)
    requires s1 <= s2
    ensures TierRank(GetColor(s2)) <= TierRank(GetColor(s1))
    ensures Percentage(s1) <= Percentage(s2)
  {
  }

  /** The boundary cases: exactly 7 is success, exactly 5 is warning, negatives are errors. */
  lemma GetColorBoundaries(s: real)
    ensures GetColor(7.0) == Success && GetColor(6.9) == Warning
    ensures GetColor(5.0) == Warning && GetColor(4.9) == Error
    ensures s < 0.0 ==> GetColor(s) == Error
  {
  }

  /** What one `ScoreBar` shows: its caption (the `label` prop), the bar's value and the bar's colour. */
  datatype Bar = Bar(caption: string, value: real, color: Color)

  function Render(caption: string, score: real): (b: Bar)
    ensures b.caption == caption
    ensures b.value == score * 10.0
    ensures b.color == GetColor(score)
  {
    Bar(caption, Percentage(score), GetColor(score))
  }
}
