/**
 * The analysis record that the remote analysis service returns and every
 * view and exporter reads. Every field may be missing (`None`). A list field
 * that holds something other than an array is also `None`: the exporters
 * check `Array.isArray` and treat such a value like a missing one. (The
 * sensitivity view tests only truthiness and would throw on it; that case
 * is not represented.) List entries may themselves be `null` (`None`).
 *
 * JSON keys: documentType is `document_type`, labelText is `label`, overallConfidence is
 * `overall_confidence`, and so on (camelCase here, snake_case on the wire);
 * creditAnalysis5Cs is `credit_analysis_5cs`, kept as its entries in
 * `Object.entries` order.
 */
module AnalysisRecord {
  import opened JsCore

  datatype Metadata = Metadata(overallConfidence: Option<Number>, pagesAnalyzed: Option<Number>)

  datatype Summary = Summary(
    executiveSummary: Option<string>,
    keyTakeaways: Option<seq<Option<string>>>,
    recommendation: Option<string>,
    recommendationJustification: Option<string>)

  /** One of the 5Cs; its text sits in one of four alternative fields. */
  datatype Assessment = Assessment(
    assessment: Option<string>,
    equityPosition: Option<string>,
    loanPurpose: Option<string>,
    repaymentSource: Option<string>,
    highlights: Option<seq<Option<string>>>)

  /** A financial metric; `value` is the text `String(value)` of the value the service sent. */
  datatype Metric = Metric(
    category: Option<string>,
    labelText: Option<string>,
    name: Option<string>,
    value: Option<string>,
    unit: Option<string>,
    status: Option<string>)

  datatype RedFlag = RedFlag(issue: Option<string>, severity: Option<string>, mitigant: Option<string>)

  datatype TextItem = TextItem(text: Option<string>)

  datatype RiskAssessment = RiskAssessment(
    redFlags: Option<seq<Option<RedFlag>>>,
    strengths: Option<seq<Option<TextItem>>>,
    weaknesses: Option<seq<Option<TextItem>>>)

  datatype Record = Record(
    documentType: Option<string>,
    metadata: Option<Metadata>,
    summary: Option<Summary>,
    creditAnalysis5Cs: Option<seq<(string, Option<Assessment>)>>,
    financialMetrics: Option<seq<Option<Metric>>>,
    riskAssessment: Option<RiskAssessment>)

  /** `data.summary?.executive_summary` */
  function ExecutiveSummaryOf(d: Record): Option<string>
  {
    if d.summary.Some? then d.summary.value.executiveSummary else None
  }

  /** `data.summary?.key_takeaways`, when it is an array. */
  function KeyTakeawaysOf(d: Record): Option<seq<Option<string>>>
  {
    if d.summary.Some? then d.summary.value.keyTakeaways else None
  }

  /** `data.summary?.recommendation` */
  function RecommendationOf(d: Record): Option<string>
  {
    if d.summary.Some? then d.summary.value.recommendation else None
  }

  /** `data.summary?.recommendation_justification` */
  function JustificationOf(d: Record): Option<string>
  {
    if d.summary.Some? then d.summary.value.recommendationJustification else None
  }

  /** `item?.text`: the text of a strength or weakness entry. */
  function ItemText(item: Option<TextItem>): Option<string>
  {
    if item.Some? then item.value.text else None
  }

  /** `data.metadata?.overall_confidence` */
  function ConfidenceOf(d: Record): Option<Number>
  {
    if d.metadata.Some? then d.metadata.value.overallConfidence else None
  }
}
