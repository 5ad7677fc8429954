/** components/ReportDetail.tsx: the score badge, the score's reading and when the findings
    are shown. */
module ReportDetail {
  import opened Wrappers

  /** `bg-green-500`, `bg-red-500`, `bg-yellow-500`. */
  datatype Badge = GreenBadge | RedBadge | YellowBadge

  const IdealText: string := "理想 (Ideal)"
  const GoodText: string := "良好 (Good)"
  const ConstipatedText: string := "干硬 (Constipated)"
  const LooseText: string := "软便/腹泻 (Loose/Diarrhea)"

  /** `getScoreColor` (components/ReportDetail.tsx:11-15). */
  function ScoreColor(score: real): (b: Badge)
    ensures b == GreenBadge <==> score == 2.0
    ensures b == RedBadge <==> score == 1.0 || score >= 4.0
    ensures b == YellowBadge <==> score != 1.0 && score != 2.0 && score < 4.0
  {
    if score == 2.0 then GreenBadge
    else if score >= 4.0 || score == 1.0 then RedBadge
    else YellowBadge
  }

  /** `getScoreText` (components/ReportDetail.tsx:17-22). */
  function ScoreText(score: real): (t: string)
    ensures t == IdealText <==> score == 2.0
    ensures t == GoodText <==> score == 3.0
    ensures t == ConstipatedText <==> score == 1.0
    ensures t == LooseText <==> score != 1.0 && score != 2.0 && score != 3.0
  {
    if score == 2.0 then IdealText
    else if score == 3.0 then GoodText
    else if score == 1.0 then ConstipatedText
    else LooseText
  }

  /** The badge and the text agree at the ideal score, and a red badge reads as constipated
      or loose; the defaulted score 0 and the fallback score 3 are both yellow, one read as
      loose and the other as good. */
  lemma BadgeAndText(score: real)
    ensures ScoreColor(score) == GreenBadge <==> ScoreText(score) == IdealText
    ensures ScoreColor(score) == RedBadge ==> ScoreText(score) == ConstipatedText || ScoreText(score) == LooseText
    ensures ScoreColor(0.0) == YellowBadge && ScoreText(0.0) == LooseText
    ensures ScoreColor(3.0) == YellowBadge && ScoreText(3.0) == GoodText
  {
  }

  /** The "显著发现" section (components/ReportDetail.tsx:68-77): rendered only for a non-empty
      list, with its items in list order. */
  function ShownFindings(findings: seq<string>): (shown: Option<seq<string>>)
    ensures shown.Some? <==> |findings| > 0
    ensures shown.Some? ==> shown.value == findings
  {
    if |findings| > 0 then Some(findings) else None
  }
}
