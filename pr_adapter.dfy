/**
 * The dashboard's adapter from the analysis response to what a pull
 * request card shows (`frontend/ai-repo-supervisor/src/adapters/prAdapter.ts`):
 * score thresholds and the fallbacks for missing or empty fields.
 */
module PrAdapter {
  import opened Wrappers
  import opened Text

  /** Scores above this are low risk, and healthy. */
  const LOW_ABOVE: real := 85.0
  /** Scores from this up are medium risk, and at risk; below it they are high risk, and critical. */
  const MEDIUM_FROM: real := 65.0

  datatype RiskLabel = Low | Medium | High
  datatype HealthLabel = Healthy | AtRisk | Critical

  /** `riskLabelFromScore`. */
  function RiskLabelOf(score: real): RiskLabel {
    if score > LOW_ABOVE then Low else if score >= MEDIUM_FROM then Medium else High
  }

  /** `getHealthLabelFromScore`. */
  function HealthLabelOf(score: real): HealthLabel {
    if score > LOW_ABOVE then Healthy else if score >= MEDIUM_FROM then AtRisk else Critical
  }

  function RiskRank(l: RiskLabel): nat {
    match l
    case Low => 0
    case Medium => 1
    case High => 2
  }

  /** The three bands partition the scores: each label holds on exactly its band. */
  lemma Bands(score: real)
    ensures RiskLabelOf(score) == Low <==> score > LOW_ABOVE
    ensures RiskLabelOf(score) == Medium <==> MEDIUM_FROM <= score <= LOW_ABOVE
    ensures RiskLabelOf(score) == High <==> score < MEDIUM_FROM
  {
  }

  /** The health label uses the same bands as the risk label: Healthy is Low, At Risk is Medium, Critical is High. */
  lemma LabelsAgree(score: real)
    ensures HealthLabelOf(score) == Healthy <==> RiskLabelOf(score) == Low
    ensures HealthLabelOf(score) == AtRisk <==> RiskLabelOf(score) == Medium
    ensures HealthLabelOf(score) == Critical <==> RiskLabelOf(score) == High
  {
  }

  /** A higher score never shows a higher risk. */
  lemma RiskLabelMonotone(a: real, b: real)
    requires a <= b
    ensures RiskRank(RiskLabelOf(b)) <= RiskRank(RiskLabelOf(a))
  {
  }

  const NO_SUMMARY: string := "No summary available."
  const NO_ACTIONS: string := "No immediate actions suggested."

  /**
   * The response as the adapter reads it. None stands for a missing or
   * null field where the adapter guards with `?.`; `semanticScore` is
   * None for `null`.
   */
  datatype Response = Response(
    summary: Option<string>, risks: Option<seq<string>>, suggestions: Option<seq<string>>,
    healthDelta: int, baselineScore: real, semanticScore: Option<real>)

  datatype DeltaLabel = Improved | Declined | NoChange

  datatype Card = Card(
    summaryText: string, primaryRisk: Option<string>, suggestedActions: seq<string>,
    baselineRiskLabel: RiskLabel, semanticRiskLabel: Option<RiskLabel>,
    healthDelta: int, healthDeltaLabel: DeltaLabel)

  /** `adaptPRAnalysis`. */
  function Adapt(r: Response): (c: Card)
    ensures c.summaryText != []
    ensures r.summary.Some? && Strip(r.summary.value, JsWhitespace) != [] ==>
      c.summaryText == Strip(r.summary.value, JsWhitespace)
    ensures c.summaryText == NO_SUMMARY <==> r.summary.None? || Strip(r.summary.value, JsWhitespace) == [] || Strip(r.summary.value, JsWhitespace) == NO_SUMMARY
    ensures c.primaryRisk.None? <==> r.risks.None? || r.risks.value == []
    ensures c.primaryRisk.Some? ==> c.primaryRisk.value == r.risks.value[0]
    ensures c.suggestedActions != []
    ensures r.suggestions.Some? && r.suggestions.value != [] ==> c.suggestedActions == r.suggestions.value
    ensures r.suggestions.None? || r.suggestions.value == [] ==> c.suggestedActions == [NO_ACTIONS]
    ensures c.baselineRiskLabel == RiskLabelOf(r.baselineScore)
    ensures c.semanticRiskLabel.None? <==> r.semanticScore.None?
    ensures c.semanticRiskLabel.Some? ==> c.semanticRiskLabel.value == RiskLabelOf(r.semanticScore.value)
    ensures c.healthDelta == r.healthDelta
    ensures c.healthDeltaLabel == Improved <==> r.healthDelta > 0
    ensures c.healthDeltaLabel == Declined <==> r.healthDelta < 0
    ensures c.healthDeltaLabel == NoChange <==> r.healthDelta == 0
  {
    var trimmed := if r.summary.Some? then Strip(r.summary.value, JsWhitespace) else "";
    Card(
      if trimmed != [] then trimmed else NO_SUMMARY,
      if r.risks.Some? && r.risks.value != [] then Some(r.risks.value[0]) else None,
      if r.suggestions.Some? && |r.suggestions.value| > 0 then r.suggestions.value else [NO_ACTIONS],
      RiskLabelOf(r.baselineScore),
      if r.semanticScore.None? then None else Some(RiskLabelOf(r.semanticScore.value)),
      r.healthDelta,
      if r.healthDelta > 0 then Improved else if r.healthDelta < 0 then Declined else NoChange)
  }

  /** A summary that is already trimmed is shown as it is. */
  lemma TrimmedSummaryShown(r: Response)
    requires r.summary.Some? && r.summary.value != []
    requires r.summary.value[0] !in JsWhitespace && r.summary.value[|r.summary.value| - 1] !in JsWhitespace
    ensures Adapt(r).summaryText == r.summary.value
  {
    StripUntouched(r.summary.value, JsWhitespace);
  }
}
