/**
 * The Markdown credit memo (`generateMarkdownSummary`, src/api.js:9-104).
 *
 * `MarkdownSummary` and the section functions below state what the report
 * is, section by section; `GenerateMarkdownSummary` builds it the way the
 * source does, appending to one string inside `forEach` loops, and is
 * proved to produce exactly `MarkdownSummary`.
 */
module MarkdownReport {
  import opened JsCore
  import opened JsStrings
  import opened AnalysisRecord
  import opened ReportFields

  const ErrorMarkdown: string := "# Error: No Data Available"

  const Title: string := "# Credit Memo Report\n\n"

  const FiveCsHeading: string := "## 2. Credit Analysis (5Cs)\n\n"

  /** The header's third character is the `C` of the title. */
  lemma HeaderStartsWithTitle(d: Record)
    ensures |Header(d)| > 2 && Header(d)[2] == 'C'
  {
    assert Title[2] == 'C';
  }

  /** Title, document type and confidence level. */
  function Header(d: Record): string
  {
    Title
    + ("**Document Type:** " + Safe(d.documentType, "Financial Document") + "\n")
    + ("**Confidence Level:** " + ConfidenceLabel(ConfidenceOf(d)) + "\n\n")
  }

  /** A bullet for a list entry; falsy entries contribute nothing. */
  function Bullet(item: Option<string>): string
  {
    if TruthyText(item) then BulletText(item.value) else ""
  }

  function BulletText(s: string): string
  {
    "- " + s + "\n"
  }

  /** The executive summary paragraph, or its placeholder. */
  function ExecutiveParagraph(d: Record): string
  {
    if TruthyText(ExecutiveSummaryOf(d)) then ExecutiveSummaryOf(d).value + "\n\n"
    else "_No executive summary available._\n\n"
  }

  function TakeawaysBlock(d: Record): string
  {
    if KeyTakeawaysOf(d).Some? then ("**Key Takeaways:**\n" + ConcatMap(KeyTakeawaysOf(d).value, Bullet)) + "\n"
    else ""
  }

  /** Section 1: always present. */
  function ExecutiveSection(d: Record): string
  {
    "## 1. Executive Summary\n\n" + ExecutiveParagraph(d) + TakeawaysBlock(d)
  }

  function HighlightsBlock(highlights: Option<seq<Option<string>>>): string
  {
    if highlights.Some? then ("**Highlights:**\n" + ConcatMap(highlights.value, Bullet)) + "\n" else ""
  }

  /** One 5Cs entry: upper-cased key as heading, its text, its highlights; null entries skipped. */
  function FiveCsEntry(entry: (string, Option<Assessment>)): string
  {
    if entry.1.None? then ""
    else "### " + Upper(entry.0) + "\n" + FiveCsContent(entry.1.value) + "\n\n" + HighlightsBlock(entry.1.value.highlights)
  }

  /** Section 2: present when `credit_analysis_5cs` is. */
  function FiveCsSection(d: Record): string
  {
    if d.creditAnalysis5Cs.Some? then FiveCsHeading + ConcatMap(d.creditAnalysis5Cs.value, FiveCsEntry)
    else ""
  }

  /** `- **name:** value<unit> (status)`; defaults "N/A" and "Unknown"; null metrics skipped. */
  function MetricLine(metric: Option<Metric>): (line: string)
    ensures line == "" <==> metric.None?
    ensures metric.Some? ==> "- **" + MetricName(metric.value) + ":** " <= line
  {
    if metric.None? then ""
    else
      var m := metric.value;
      "- **" + MetricName(m) + ":** " + Safe(m.value, "N/A") + UnitSuffix(m.unit) + " (" + Safe(m.status, "Unknown") + ")\n"
  }

  /** Section 3: present when `financial_metrics` is an array. */
  function MetricsSection(d: Record): string
  {
    if d.financialMetrics.Some? then ("## 3. Financial Metrics\n\n" + ConcatMap(d.financialMetrics.value, MetricLine)) + "\n"
    else ""
  }

  /** `- **issue** (severity Risk): mitigant` with defaults "Issue", "Medium", "No mitigant listed". */
  function RedFlagLine(flag: Option<RedFlag>): (line: string)
    ensures line == "" <==> flag.None?
    ensures flag.Some? ==> "- **" + Safe(flag.value.issue, "Issue") + "** (" <= line
  {
    if flag.None? then ""
    else
      var f := flag.value;
      "- **" + Safe(f.issue, "Issue") + "** (" + Safe(f.severity, "Medium") + " Risk): "
      + Safe(f.mitigant, "No mitigant listed") + "\n"
  }

  function RedFlagsBlock(flags: Option<seq<Option<RedFlag>>>): string
  {
    if flags.Some? then ("**Red Flags:**\n" + ConcatMap(flags.value, RedFlagLine)) + "\n" else ""
  }

  /** A strength or weakness; entries without truthy `text` are skipped. */
  function TextItemLine(item: Option<TextItem>): string
  {
    if item.Some? && TruthyText(item.value.text) then BulletText(item.value.text.value) else ""
  }

  /** The Strengths or Weaknesses block: its heading appears for every array, even an empty one. */
  function TextList(heading: string, items: Option<seq<Option<TextItem>>>): (block: string)
    ensures block == "" <==> items.None?
  {
    if items.Some? then (heading + ConcatMap(items.value, TextItemLine)) + "\n" else ""
  }

  /** Section 4: present when `risk_assessment` is. */
  function RiskSection(d: Record): string
  {
    if d.riskAssessment.Some? then
      var ra := d.riskAssessment.value;
      "## 4. Risk Assessment\n\n" + RedFlagsBlock(ra.redFlags) + TextList("**Strengths:**\n", ra.strengths)
      + TextList("**Weaknesses:**\n", ra.weaknesses)
    else ""
  }

  /** The justification line: present exactly when the justification is truthy, and then showing it. */
  function JustificationLine(d: Record): (line: string)
    ensures line != "" <==> TruthyText(JustificationOf(d))
    ensures TruthyText(JustificationOf(d)) ==> "**Justification:** " + JustificationOf(d).value <= line
  {
    if TruthyText(JustificationOf(d)) then "**Justification:** " + JustificationOf(d).value + "\n" else ""
  }

  /** Section 5: always present and last; "Pending" only when the recommendation is missing. */
  function RecommendationSection(d: Record): string
  {
    "## 5. Final Recommendation\n\n"
    + ("**Recommendation:** " + Safe(RecommendationOf(d), "Pending") + "\n\n")
    + JustificationLine(d)
  }

  /** A record with neither recommendation nor justification gets a "Pending" section 5 and nothing more. */
  lemma PendingRecommendationSection(d: Record)
    requires RecommendationOf(d).None? && JustificationOf(d).None?
    ensures RecommendationSection(d) == "## 5. Final Recommendation\n\n**Recommendation:** Pending\n\n"
  {
    assert JustificationLine(d) == "";
  }

  /**
   * The whole report: the fixed error text for a missing record, otherwise
   * the header and sections 1 to 5 in order. Only a missing record gives
   * the error text.
   */
  function MarkdownSummary(data: Option<Record>): (markdown: string)
    ensures markdown == ErrorMarkdown <==> data.None?
  {
    if data.None? then ErrorMarkdown
    else
      var d := data.value;
      var header := Header(d);
      HeaderStartsWithTitle(d);
      var markdown := header + ExecutiveSection(d) + FiveCsSection(d) + MetricsSection(d) + RiskSection(d)
                      + RecommendationSection(d);
      assert markdown[2] == 'C' && ErrorMarkdown[2] == 'E';
      markdown
  }

  /**
   * `generateMarkdownSummary`: builds the report by appending, as the source
   * does; each section is assembled by its own builder before it is appended.
   */
  method GenerateMarkdownSummary(data: Option<Record>) returns (markdown: string)
    ensures markdown == MarkdownSummary(data)
  {
    if data.None? {
      return ErrorMarkdown;
    }
    var d := data.value;
    markdown := Title;
    markdown := markdown + ("**Document Type:** " + Safe(d.documentType, "Financial Document") + "\n");
    markdown := markdown + ("**Confidence Level:** " + ConfidenceLabel(ConfidenceOf(d)) + "\n\n");
    var section := BuildExecutive(d);
    markdown := markdown + section;
    section := "";
    if d.creditAnalysis5Cs.Some? {
      section := AppendEach(FiveCsHeading, d.creditAnalysis5Cs.value, FiveCsEntry);
    }
    markdown := markdown + section;
    section := "";
    if d.financialMetrics.Some? {
      section := AppendEach("## 3. Financial Metrics\n\n", d.financialMetrics.value, MetricLine);
      section := section + "\n";
    }
    markdown := markdown + section;
    section := BuildRisk(d);
    markdown := markdown + section;
    section := BuildRecommendation(d);
    markdown := markdown + section;
  }

  /** Section 1 as the source appends it. */
  method BuildExecutive(d: Record) returns (executive: string)
    ensures executive == ExecutiveSection(d)
  {
    executive := "## 1. Executive Summary\n\n";
    var summaryText := ExecutiveSummaryOf(d);
    if TruthyText(summaryText) {
      executive := executive + (summaryText.value + "\n\n");
    } else {
      executive := executive + "_No executive summary available._\n\n";
    }
    var takeaways := KeyTakeawaysOf(d);
    if takeaways.Some? {
      var block := AppendEach("**Key Takeaways:**\n", takeaways.value, Bullet);
      executive := executive + (block + "\n");
    } else {
      executive := executive + "";
    }
  }

  /** Section 4 as the source appends it: red flags, strengths, weaknesses. */
  method BuildRisk(d: Record) returns (risk: string)
    ensures risk == RiskSection(d)
  {
    risk := "";
    if d.riskAssessment.Some? {
      var ra := d.riskAssessment.value;
      var flags, strengths, weaknesses := "", "", "";
      if ra.redFlags.Some? {
        flags := AppendEach("**Red Flags:**\n", ra.redFlags.value, RedFlagLine);
        flags := flags + "\n";
      }
      if ra.strengths.Some? {
        strengths := AppendEach("**Strengths:**\n", ra.strengths.value, TextItemLine);
        strengths := strengths + "\n";
      }
      if ra.weaknesses.Some? {
        weaknesses := AppendEach("**Weaknesses:**\n", ra.weaknesses.value, TextItemLine);
        weaknesses := weaknesses + "\n";
      }
      risk := "## 4. Risk Assessment\n\n" + flags + strengths + weaknesses;
    }
  }

  /** Section 5 as the source appends it. */
  method BuildRecommendation(d: Record) returns (recommendation: string)
    ensures recommendation == RecommendationSection(d)
  {
    recommendation := "## 5. Final Recommendation\n\n";
    recommendation := recommendation + ("**Recommendation:** " + Safe(RecommendationOf(d), "Pending") + "\n\n");
    var justification := JustificationOf(d);
    if TruthyText(justification) {
      recommendation := recommendation + ("**Justification:** " + justification.value + "\n");
    } else {
      recommendation := recommendation + "";
    }
  }

  /**
   * The report of a record whose every field is missing: the defaults
   * "Financial Document", "Draft" and "Pending", the executive summary
   * placeholder, and no section 2, 3 or 4.
   */
  lemma EmptyRecordReport()
    ensures MarkdownSummary(Some(Record(None, None, None, None, None, None)))
         == Title
            + ("**Document Type:** " + "Financial Document" + "\n")
            + ("**Confidence Level:** " + "Draft" + "\n\n")
            + ("## 1. Executive Summary\n\n" + "_No executive summary available._\n\n" + "")
            + "" + "" + ""
            + ("## 5. Final Recommendation\n\n" + ("**Recommendation:** " + "Pending" + "\n\n") + "")
  {
    var d := Record(None, None, None, None, None, None);
    assert ConfidenceLabel(ConfidenceOf(d)) == "Draft";
  }

  /**
   * Layout: the report is the header followed by sections 1 to 5 in that
   * order; sections 2, 3 and 4 are empty exactly when their field is
   * missing and otherwise open with their heading; section 5 always opens
   * with its heading and ends the report.
   */
  lemma SectionLayout(d: Record)
    ensures MarkdownSummary(Some(d)) == Header(d) + ExecutiveSection(d) + FiveCsSection(d) + MetricsSection(d)
                                        + RiskSection(d) + RecommendationSection(d)
    ensures FiveCsSection(d) == "" <==> d.creditAnalysis5Cs.None?
    ensures MetricsSection(d) == "" <==> d.financialMetrics.None?
    ensures RiskSection(d) == "" <==> d.riskAssessment.None?
    ensures d.creditAnalysis5Cs.Some? ==> FiveCsHeading <= FiveCsSection(d)
    ensures d.financialMetrics.Some? ==> "## 3. Financial Metrics\n\n" <= MetricsSection(d)
    ensures d.riskAssessment.Some? ==> "## 4. Risk Assessment\n\n" <= RiskSection(d)
    ensures "## 5. Final Recommendation\n\n" <= RecommendationSection(d)
  {
  }

  /**
   * The key takeaways block lists exactly the truthy takeaways, in order,
   * one bullet each: skipping inside the loop is filtering.
   */
  lemma TakeawaysAreTruthyBullets(d: Record)
    requires KeyTakeawaysOf(d).Some?
    ensures TakeawaysBlock(d) == "**Key Takeaways:**\n" + ConcatMap(FilterTruthy(KeyTakeawaysOf(d).value), BulletText) + "\n"
  {
    SkipFalsyIsFilter(KeyTakeawaysOf(d).value, Bullet, BulletText);
  }

  /**
   * A highlights list shows exactly the truthy highlights, in order, one
   * bullet each.
   */
  lemma HighlightsAreTruthyBullets(highlights: seq<Option<string>>)
    ensures HighlightsBlock(Some(highlights)) == "**Highlights:**\n" + ConcatMap(FilterTruthy(highlights), BulletText) + "\n"
  {
    SkipFalsyIsFilter(highlights, Bullet, BulletText);
  }

  /**
   * A strengths or weaknesses block shows exactly the entries with a truthy
   * `text`, in order, one bullet each: null entries and entries without
   * text are skipped.
   */
  lemma TextItemsAreTruthyBullets(heading: string, items: seq<Option<TextItem>>)
    ensures TextList(heading, Some(items)) == heading + ConcatMap(FilterTruthy(MapSeq(items, ItemText)), BulletText) + "\n"
  {
    ConcatMapCompose(items, ItemText, Bullet, TextItemLine);
    SkipFalsyIsFilter(MapSeq(items, ItemText), Bullet, BulletText);
  }
}
