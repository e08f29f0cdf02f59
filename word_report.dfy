/**
 * The Word document export (`generateWordHTML`, src/api.js:109-241): an
 * HTML page with Office namespaces that Word opens as a document.
 *
 * `WordHtml` and the section functions state the page section by section;
 * `GenerateWordHtml` and its section builders append as the source does and
 * are proved to produce exactly `WordHtml`. The module ends with the ways
 * the Word export and the Markdown export treat the same record differently.
 */
module WordReport {
  import opened JsCore
  import opened JsStrings
  import opened AnalysisRecord
  import opened ReportFields
  import MarkdownReport

  const ErrorHtml: string := "<html><body><h1>Error</h1><p>No data to export</p></body></html>"

  /** The page head: the `html` element with the Office namespaces, then the head, up to `<body>`. */
  const DocumentHead: string := "\n" + HtmlOpening + HeadElement

  const HtmlOpening: string := "    <html xmlns:o='urn:schemas-microsoft-com:office:office' xmlns:w='urn:schemas-microsoft-com:office:word' xmlns='http://www.w3.org/TR/REC-html40'>"

  /** The document title, Word's print-view settings and the style sheet. */
  const HeadElement: string := @"
    <head>
        <meta charset=""UTF-8"">
        <title>Credit Memo Report</title>
        <!--[if gte mso 9]>
        <xml>
        <w:WordDocument>
        <w:View>Print</w:View>
        <w:Zoom>100</w:Zoom>
        <w:DoNotOptimizeForBrowser/>
        </w:WordDocument>
        </xml>
        <![endif]-->
        <style>
            body { font-family: 'Calibri', 'Arial', sans-serif; font-size: 11pt; }
            h1 { color: #1e3a8a; font-size: 16pt; border-bottom: 2px solid #e5e7eb; padding-bottom: 10px; }
            h2 { color: #374151; font-size: 14pt; margin-top: 20px; border-bottom: 1px solid #e5e7eb; }
            h3 { color: #4b5563; font-size: 12pt; font-weight: bold; margin-top: 15px; }
            table { width: 100%; border-collapse: collapse; margin: 15px 0; }
            th, td { border: 1px solid #d1d5db; padding: 8px; text-align: left; }
            th { background-color: #f3f4f6; font-weight: bold; }
            .metric-value { font-weight: bold; color: #059669; }
            .risk-high { color: #dc2626; font-weight: bold; }
            .risk-medium { color: #f59e0b; font-weight: bold; }
            ul { margin: 10px 0; padding-left: 20px; }
            li { margin-bottom: 5px; }
            .recommendation { 
                padding: 15px; 
                border: 1px solid #ccc;
                background-color: #f9fafb;
                margin: 15px 0;
            }
        </style>
    </head>
    <body>"

  const Closing: string := "</body></html>"

  /** Head, title, document type and confidence level. */
  function Header(d: Record): string
  {
    DocumentHead
    + ("\n        <h1>Credit Memo Report</h1>\n        <p><strong>Document Type:</strong> "
       + Safe(d.documentType, "Financial Document")
       + "</p>\n        <p><strong>Confidence Level:</strong> "
       + ConfidenceLabel(ConfidenceOf(d)) + "</p>\n    ")
  }

  /** A list item for a list entry; falsy entries contribute nothing. */
  function ListItem(item: Option<string>): string
  {
    if TruthyText(item) then ListItemText(item.value) else ""
  }

  function ListItemText(s: string): string
  {
    "<li>" + s + "</li>"
  }

  function ExecutiveParagraph(d: Record): string
  {
    if TruthyText(ExecutiveSummaryOf(d)) then "<p>" + ExecutiveSummaryOf(d).value + "</p>"
    else "<p><em>No executive summary available.</em></p>"
  }

  function TakeawaysBlock(d: Record): string
  {
    if KeyTakeawaysOf(d).Some? then ("<h3>Key Takeaways</h3><ul>" + ConcatMap(KeyTakeawaysOf(d).value, ListItem)) + "</ul>"
    else ""
  }

  /** Section 1: always present. */
  function ExecutiveSection(d: Record): string
  {
    "<h2>1. Executive Summary</h2>" + ExecutiveParagraph(d) + TakeawaysBlock(d)
  }

  function HighlightsList(highlights: Option<seq<Option<string>>>): string
  {
    if highlights.Some? then ("<ul>" + ConcatMap(highlights.value, ListItem)) + "</ul>" else ""
  }

  /** One 5Cs entry: upper-cased key, its text in a paragraph, its highlights; null entries skipped. */
  function FiveCsEntry(entry: (string, Option<Assessment>)): string
  {
    if entry.1.None? then ""
    else "<h3>" + Upper(entry.0) + "</h3>" + ("<p>" + FiveCsContent(entry.1.value) + "</p>") + HighlightsList(entry.1.value.highlights)
  }

  const FiveCsHeading: string := "<h2>2. Credit Analysis (5Cs)</h2>"

  /** Section 2: present when `credit_analysis_5cs` is. */
  function FiveCsSection(d: Record): string
  {
    if d.creditAnalysis5Cs.Some? then FiveCsHeading + ConcatMap(d.creditAnalysis5Cs.value, FiveCsEntry) else ""
  }

  /** The class of a metric's value cell: green only for the status "healthy". */
  function StatusClass(status: Option<string>): (cls: string)
    ensures cls == "metric-value" <==> status == Some("healthy")
    ensures cls == "risk-medium" <==> status != Some("healthy")
  {
    if status == Some("healthy") then "metric-value" else "risk-medium"
  }

  /** A table row: name, value with unit (default "0"), status (default "-"); null metrics skipped. */
  function MetricRow(metric: Option<Metric>): (row: string)
    ensures row == "" <==> metric.None?
    ensures metric.Some? ==> "<tr><td>" + MetricName(metric.value) + "</td><td class=\"" + StatusClass(metric.value.status) + "\">" <= row
  {
    if metric.None? then ""
    else
      var m := metric.value;
      "<tr><td>" + MetricName(m) + "</td><td class=\"" + StatusClass(m.status) + "\">" + Safe(m.value, "0")
      + UnitSuffix(m.unit) + "</td><td>" + Safe(m.status, "-") + "</td></tr>"
  }

  const MetricsHeading: string := "<h2>3. Financial Metrics</h2>"

  const MetricsOpening: string := MetricsHeading + "<table><tr><th>Metric</th><th>Value</th><th>Status</th></tr>"

  /** Section 3: present when `financial_metrics` is an array. */
  function MetricsSection(d: Record): string
  {
    if d.financialMetrics.Some? then (MetricsOpening + ConcatMap(d.financialMetrics.value, MetricRow)) + "</table>" else ""
  }

  /** The class of a red flag's issue: red only for the severity "High". */
  function SeverityClass(severity: Option<string>): (cls: string)
    ensures cls == "risk-high" <==> severity == Some("High")
    ensures cls == "risk-medium" <==> severity != Some("High")
  {
    if severity == Some("High") then "risk-high" else "risk-medium"
  }

  /** A red flag; missing fields print as empty text; null flags skipped. */
  function RedFlagItem(flag: Option<RedFlag>): (item: string)
    ensures item == "" <==> flag.None?
    ensures flag.Some? ==> "<li><span class=\"" + SeverityClass(flag.value.severity) + "\">" <= item
  {
    if flag.None? then ""
    else
      var f := flag.value;
      "<li><span class=\"" + SeverityClass(f.severity) + "\">" + Safe(f.issue, "") + "</span> (" + Safe(f.severity, "")
      + "): " + Safe(f.mitigant, "") + "</li>"
  }

  function RedFlagsList(flags: Option<seq<Option<RedFlag>>>): string
  {
    if flags.Some? then ("<h3>Red Flags</h3><ul>" + ConcatMap(flags.value, RedFlagItem)) + "</ul>" else ""
  }

  /** A strength or weakness; entries without truthy `text` are skipped. */
  function TextListItem(item: Option<TextItem>): string
  {
    if item.Some? && TruthyText(item.value.text) then ListItemText(item.value.text.value) else ""
  }

  /** `renderList`: a titled list, omitted altogether for a missing or empty array. */
  function RenderList(title: string, list: Option<seq<Option<TextItem>>>): (block: string)
    ensures block == "" <==> list.None? || |list.value| == 0
  {
    if list.Some? && |list.value| > 0 then (("<h3>" + title + "</h3><ul>") + ConcatMap(list.value, TextListItem)) + "</ul>"
    else ""
  }

  /** Section 4: present when `risk_assessment` is. */
  function RiskSection(d: Record): string
  {
    if d.riskAssessment.Some? then
      var ra := d.riskAssessment.value;
      "<h2>4. Risk Assessment</h2>" + RedFlagsList(ra.redFlags) + RenderList("Strengths", ra.strengths)
      + RenderList("Weaknesses", ra.weaknesses)
    else ""
  }

  /** `data.summary?.recommendation || 'Pending'`: any falsy recommendation, the empty text included, shows "Pending". */
  function RecommendationText(d: Record): (text: string)
    ensures TruthyText(RecommendationOf(d)) ==> text == RecommendationOf(d).value
    ensures !TruthyText(RecommendationOf(d)) ==> text == "Pending"
  {
    OrChain([RecommendationOf(d)], "Pending")
  }

  /** The justification paragraph: present exactly when the justification is truthy, and then showing it. */
  function JustificationParagraph(d: Record): (paragraph: string)
    ensures paragraph != "" <==> TruthyText(JustificationOf(d))
    ensures TruthyText(JustificationOf(d)) ==> "<p><strong>Justification:</strong> " + JustificationOf(d).value <= paragraph
  {
    if TruthyText(JustificationOf(d)) then "<p><strong>Justification:</strong> " + JustificationOf(d).value + "</p>" else ""
  }

  const RecommendationOpening: string := "<div class=\"recommendation\">"

  /** Section 5: always present, in its bordered block, and last before the closing tags. */
  function RecommendationSection(d: Record): string
  {
    RecommendationOpening + "\n        <h2>5. Final Recommendation</h2>\n        <p><strong>Recommendation:</strong> "
    + RecommendationText(d) + "</p>\n        " + JustificationParagraph(d) + "\n    </div>"
  }

  /**
   * The whole page: the fixed error page for a missing record, otherwise the
   * Office document head, sections 1 to 5 in order, then the closing tags.
   */
  function WordHtml(data: Option<Record>): (html: string)
    ensures data.None? ==> html == ErrorHtml
  {
    if data.None? then ErrorHtml
    else
      var d := data.value;
      Header(d) + ExecutiveSection(d) + FiveCsSection(d) + MetricsSection(d) + RiskSection(d)
      + RecommendationSection(d) + Closing
  }

  /** `generateWordHTML`: builds the page by appending, as the source does. */
  method GenerateWordHtml(data: Option<Record>) returns (html: string)
    ensures html == WordHtml(data)
  {
    if data.None? {
      return ErrorHtml;
    }
    var d := data.value;
    html := DocumentHead
            + ("\n        <h1>Credit Memo Report</h1>\n        <p><strong>Document Type:</strong> "
               + Safe(d.documentType, "Financial Document")
               + "</p>\n        <p><strong>Confidence Level:</strong> "
               + ConfidenceLabel(ConfidenceOf(d)) + "</p>\n    ");
    assert html == Header(d);
    var section := BuildExecutive(d);
    html := html + section;
    assert html == Header(d) + ExecutiveSection(d);
    section := "";
    if d.creditAnalysis5Cs.Some? {
      section := AppendEach(FiveCsHeading, d.creditAnalysis5Cs.value, FiveCsEntry);
    }
    html := html + section;
    section := "";
    if d.financialMetrics.Some? {
      section := AppendEach(MetricsOpening, d.financialMetrics.value, MetricRow);
      section := section + "</table>";
    }
    html := html + section;
    assert html == Header(d) + ExecutiveSection(d) + FiveCsSection(d) + MetricsSection(d);
    section := BuildRisk(d);
    html := html + section;
    assert html == Header(d) + ExecutiveSection(d) + FiveCsSection(d) + MetricsSection(d) + RiskSection(d);
    section := BuildRecommendation(d);
    html := html + section;
    html := html + Closing;
  }

  /** Section 1 as the source appends it. */
  method BuildExecutive(d: Record) returns (executive: string)
    ensures executive == ExecutiveSection(d)
  {
    executive := "<h2>1. Executive Summary</h2>";
    var summaryText := ExecutiveSummaryOf(d);
    if TruthyText(summaryText) {
      executive := executive + ("<p>" + summaryText.value + "</p>");
    } else {
      executive := executive + "<p><em>No executive summary available.</em></p>";
    }
    var takeaways := KeyTakeawaysOf(d);
    if takeaways.Some? {
      var block := AppendEach("<h3>Key Takeaways</h3><ul>", takeaways.value, ListItem);
      executive := executive + (block + "</ul>");
    } else {
      executive := executive + "";
    }
  }

  /** Section 5 as the source appends it. */
  method BuildRecommendation(d: Record) returns (block: string)
    ensures block == RecommendationSection(d)
  {
    var recommendation := OrChain([RecommendationOf(d)], "Pending");
    var justification := "";
    if TruthyText(JustificationOf(d)) {
      justification := "<p><strong>Justification:</strong> " + JustificationOf(d).value + "</p>";
    }
    block := RecommendationOpening + "\n        <h2>5. Final Recommendation</h2>\n        <p><strong>Recommendation:</strong> "
             + recommendation + "</p>\n        " + justification + "\n    </div>";
  }

  /** `renderList(title, list)` as the source appends it. */
  method BuildList(title: string, list: Option<seq<Option<TextItem>>>) returns (block: string)
    ensures block == RenderList(title, list)
  {
    block := "";
    if list.Some? && |list.value| > 0 {
      block := AppendEach("<h3>" + title + "</h3><ul>", list.value, TextListItem);
      block := block + "</ul>";
    }
  }

  /** Section 4 as the source appends it: red flags, strengths, weaknesses. */
  method BuildRisk(d: Record) returns (risk: string)
    ensures risk == RiskSection(d)
  {
    risk := "";
    if d.riskAssessment.Some? {
      var ra := d.riskAssessment.value;
      var flags := "";
      if ra.redFlags.Some? {
        flags := AppendEach("<h3>Red Flags</h3><ul>", ra.redFlags.value, RedFlagItem);
        flags := flags + "</ul>";
      }
      var strengths := BuildList("Strengths", ra.strengths);
      var weaknesses := BuildList("Weaknesses", ra.weaknesses);
      risk := "<h2>4. Risk Assessment</h2>" + flags + strengths + weaknesses;
    }
  }

  /** Only a missing record gives the error page: every other page is longer than it. */
  lemma OnlyMissingRecordGivesErrorPage(data: Option<Record>)
    ensures WordHtml(data) == ErrorHtml <==> data.None?
  {
    if data.Some? {
      PageOutgrowsErrorPage(data.value);
    }
  }

  lemma PageOutgrowsErrorPage(d: Record)
    ensures |WordHtml(Some(d))| > |ErrorHtml|
  {
    HeaderOutgrowsErrorPage(d);
  }

  lemma HeaderOutgrowsErrorPage(d: Record)
    ensures |Header(d)| > |ErrorHtml|
  {
    OpeningOutgrowsErrorPage();
    assert |Header(d)| >= |DocumentHead| > |HtmlOpening|;
  }

  lemma OpeningOutgrowsErrorPage()
    ensures |HtmlOpening| > |ErrorHtml|
  {
  }

  /** Every page for a record ends with the closing tags. */
  lemma PageIsClosed(d: Record)
    ensures Closing <= WordHtml(Some(d))[|WordHtml(Some(d))| - |Closing|..]
  {
    var body := Header(d) + ExecutiveSection(d) + FiveCsSection(d) + MetricsSection(d) + RiskSection(d)
                + RecommendationSection(d);
    assert WordHtml(Some(d)) == body + Closing;
    assert (body + Closing)[|body|..] == Closing;
  }

  /**
   * The two exports show the same recommendation except for an empty one:
   * the Markdown report keeps `""` (it defaults only a missing value), the
   * Word page shows "Pending".
   */
  lemma RecommendationFallbacksDiffer(d: Record)
    ensures Safe(RecommendationOf(d), "Pending") == RecommendationText(d) <==> RecommendationOf(d) != Some("")
  {
    SafeVersusOr(RecommendationOf(d), "Pending");
  }

  /**
   * An empty strengths or weaknesses array keeps its heading in the Markdown
   * report and disappears from the Word page.
   */
  lemma EmptyListHeadings(title: string)
    ensures MarkdownReport.TextList("**" + title + ":**\n", Some([])) == "**" + title + ":**\n" + "\n"
    ensures RenderList(title, Some([])) == ""
  {
  }

  /**
   * A metric without value or status: the Markdown line shows "N/A" and
   * "Unknown", the Word row "0" and "-", in the amber class.
   */
  lemma MetricDefaultsDiffer(m: Metric)
    requires m.value.None? && m.status.None?
    ensures MarkdownReport.MetricLine(Some(m))
         == "- **" + MetricName(m) + ":** " + "N/A" + UnitSuffix(m.unit) + " (" + "Unknown" + ")\n"
    ensures MetricRow(Some(m))
         == "<tr><td>" + MetricName(m) + "</td><td class=\"" + "risk-medium" + "\">" + "0"
            + UnitSuffix(m.unit) + "</td><td>" + "-" + "</td></tr>"
  {
  }

  /**
   * A red flag with no issue, severity or mitigant: the Markdown line
   * fills in "Issue", "Medium" and "No mitigant listed", the Word item
   * leaves all three empty, in the amber class.
   */
  lemma RedFlagDefaultsDiffer()
    ensures MarkdownReport.RedFlagLine(Some(RedFlag(None, None, None)))
         == "- **" + "Issue" + "** (" + "Medium" + " Risk): " + "No mitigant listed" + "\n"
    ensures RedFlagItem(Some(RedFlag(None, None, None)))
         == "<li><span class=\"" + "risk-medium" + "\">" + "" + "</span> (" + "" + "): " + "" + "</li>"
  {
    var flag := RedFlag(None, None, None);
    assert Safe(flag.issue, "Issue") == "Issue" && Safe(flag.severity, "Medium") == "Medium";
    assert Safe(flag.mitigant, "No mitigant listed") == "No mitigant listed";
    assert Safe(flag.issue, "") == "" && Safe(flag.severity, "") == "" && Safe(flag.mitigant, "") == "";
    assert SeverityClass(flag.severity) == "risk-medium";
  }

  /**
   * Layout: sections 2, 3 and 4 of the page are empty exactly when their
   * field is missing and otherwise open with their heading; section 5
   * always opens the bordered recommendation block.
   */
  lemma SectionLayout(d: Record)
    ensures FiveCsSection(d) == "" <==> d.creditAnalysis5Cs.None?
    ensures MetricsSection(d) == "" <==> d.financialMetrics.None?
    ensures RiskSection(d) == "" <==> d.riskAssessment.None?
    ensures d.creditAnalysis5Cs.Some? ==> "<h2>2. Credit Analysis (5Cs)</h2>" <= FiveCsSection(d)
    ensures d.financialMetrics.Some? ==> MetricsHeading <= MetricsSection(d)
    ensures d.riskAssessment.Some? ==> "<h2>4. Risk Assessment</h2>" <= RiskSection(d)
    ensures RecommendationOpening <= RecommendationSection(d)
  {
    FiveCsLayout(d);
    MetricsLayout(d);
    RiskLayout(d);
    RecommendationOpensBlock(d);
  }

  /** Section 2 of the page. */
  lemma FiveCsLayout(d: Record)
    ensures FiveCsSection(d) == "" <==> d.creditAnalysis5Cs.None?
    ensures d.creditAnalysis5Cs.Some? ==> FiveCsHeading <= FiveCsSection(d)
  {
    if d.creditAnalysis5Cs.Some? {
      PrefixExtends(FiveCsHeading, FiveCsHeading, ConcatMap(d.creditAnalysis5Cs.value, FiveCsEntry));
    }
  }

  /** Section 3 of the page. */
  lemma MetricsLayout(d: Record)
    ensures MetricsSection(d) == "" <==> d.financialMetrics.None?
    ensures d.financialMetrics.Some? ==> MetricsHeading <= MetricsSection(d)
  {
    if d.financialMetrics.Some? {
      var rows := ConcatMap(d.financialMetrics.value, MetricRow);
      PrefixExtends(MetricsHeading, MetricsHeading, MetricsOpening[|MetricsHeading|..]);
      PrefixExtends(MetricsHeading, MetricsOpening, rows);
      PrefixExtends(MetricsHeading, MetricsOpening + rows, "</table>");
    }
  }

  /** Section 4 of the page. */
  lemma RiskLayout(d: Record)
    ensures RiskSection(d) == "" <==> d.riskAssessment.None?
    ensures d.riskAssessment.Some? ==> "<h2>4. Risk Assessment</h2>" <= RiskSection(d)
  {
    if d.riskAssessment.Some? {
      var ra := d.riskAssessment.value;
      var heading := "<h2>4. Risk Assessment</h2>";
      var flags := heading + RedFlagsList(ra.redFlags);
      var strengths := flags + RenderList("Strengths", ra.strengths);
      PrefixExtends(heading, heading, RedFlagsList(ra.redFlags));
      PrefixExtends(heading, flags, RenderList("Strengths", ra.strengths));
      PrefixExtends(heading, strengths, RenderList("Weaknesses", ra.weaknesses));
    }
  }

  /** Section 5 opens the bordered recommendation block. */
  lemma RecommendationOpensBlock(d: Record)
    ensures RecommendationOpening <= RecommendationSection(d)
  {
    var part := RecommendationOpening;
    PrefixExtends(part, part, "\n        <h2>5. Final Recommendation</h2>\n        <p><strong>Recommendation:</strong> ");
    part := part + "\n        <h2>5. Final Recommendation</h2>\n        <p><strong>Recommendation:</strong> ";
    PrefixExtends(RecommendationOpening, part, RecommendationText(d));
    part := part + RecommendationText(d);
    PrefixExtends(RecommendationOpening, part, "</p>\n        ");
    part := part + "</p>\n        ";
    PrefixExtends(RecommendationOpening, part, JustificationParagraph(d));
    part := part + JustificationParagraph(d);
    PrefixExtends(RecommendationOpening, part, "\n    </div>");
  }

  /** The key takeaways list shows exactly the truthy takeaways, in order. */
  lemma TakeawaysAreTruthyItems(d: Record)
    requires KeyTakeawaysOf(d).Some?
    ensures TakeawaysBlock(d) == "<h3>Key Takeaways</h3><ul>" + ConcatMap(FilterTruthy(KeyTakeawaysOf(d).value), ListItemText) + "</ul>"
  {
    SkipFalsyIsFilter(KeyTakeawaysOf(d).value, ListItem, ListItemText);
  }

  /** A highlights list shows exactly the truthy highlights, in order. */
  lemma HighlightsAreTruthyItems(highlights: seq<Option<string>>)
    ensures HighlightsList(Some(highlights)) == "<ul>" + ConcatMap(FilterTruthy(highlights), ListItemText) + "</ul>"
  {
    SkipFalsyIsFilter(highlights, ListItem, ListItemText);
  }

  /**
   * A non-empty strengths or weaknesses list shows exactly the entries with
   * a truthy `text`, in order; null entries and entries without text are
   * skipped.
   */
  lemma TextItemsAreTruthyItems(title: string, items: seq<Option<TextItem>>)
    requires |items| > 0
    ensures RenderList(title, Some(items)) == "<h3>" + title + "</h3><ul>" + ConcatMap(FilterTruthy(MapSeq(items, ItemText)), ListItemText) + "</ul>"
  {
    ConcatMapCompose(items, ItemText, ListItem, TextListItem);
    SkipFalsyIsFilter(MapSeq(items, ItemText), ListItem, ListItemText);
  }
}
