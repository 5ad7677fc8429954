/** components/DailySummaryCard.tsx: the healthy-range test and what follows from it. */
module DailySummary {
  import opened Types
  import opened ReportFields
  import opened ReportDetail
  import DeepSeekService

  const GreatLabel: string := "状态极佳"
  const AttentionLabel: string := "建议关注"

  /** `bg-emerald-*` or `bg-amber-*`. */
  datatype Scheme = Emerald | Amber

  /** `isHealthy` (components/DailySummaryCard.tsx:13): a range, not a set of whole scores. */
  predicate IsHealthy(score: real) {
    2.0 <= score && score <= 3.0
  }

  /** The status line (components/DailySummaryCard.tsx:40). */
  function StatusLabel(score: real): (text: string)
    ensures text == GreatLabel <==> IsHealthy(score)
    ensures text == AttentionLabel <==> !IsHealthy(score)
  {
    if IsHealthy(score) then GreatLabel else AttentionLabel
  }

  /** The card's colours (components/DailySummaryCard.tsx:30-31). */
  function CardScheme(score: real): (s: Scheme)
    ensures s == Emerald <==> IsHealthy(score)
  {
    if IsHealthy(score) then Emerald else Amber
  }

  /** Scores between the whole numbers count: 2.5 is healthy, 3.5 is not. */
  lemma HealthyIsARange()
    ensures IsHealthy(2.5) && !IsHealthy(3.5) && !IsHealthy(1.9)
  {
  }

  /** A response without a score is reported with 0, which asks for attention. */
  lemma DefaultedScoreNeedsAttention(dogId: string, image: string, id: string, date: string)
    ensures var r := Assemble(NoFields, dogId, image, id, date);
      r.score == 0.0 && !IsHealthy(r.score) && StatusLabel(r.score) == AttentionLabel
  {
  }

  /** The record used when the DeepSeek reply cannot be read has score 3, which the card
      calls healthy. */
  lemma FallbackRecordHealthy(dogId: string, image: string, id: string, date: string)
    ensures var r := Assemble(DeepSeekService.FallbackFields, dogId, image, id, date);
      r.score == 3.0 && IsHealthy(r.score) && StatusLabel(r.score) == GreatLabel
  {
  }

  /** A score the card calls healthy never gets the red badge of the detail view. */
  lemma HealthyNeverRed(score: real)
    requires IsHealthy(score)
    ensures ScoreColor(score) != RedBadge
  {
  }
}
