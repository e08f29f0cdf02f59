/**
 * The analysis dashboard (src/components/AnalysisDashboard.jsx): the record
 * it shows, the tabs the report preferences allow, the colour classes of
 * statuses and recommendations, the executive-summary editor with its
 * edited exports, and the dotted-path value lookup.
 */
module Dashboard {
  import opened JsCore
  import opened JsNumbers
  import opened JsStrings
  import opened AnalysisRecord
  import opened SettingsStore
  import MarkdownReport
  import WordReport
  import ReportFields

  /** `data || defaultMockData`: the record passed in, or the bundled sample when none is. */
  function DisplayData(data: Option<Record>, mock: Record): (d: Record)
    ensures data.Some? ==> d == data.value
    ensures data.None? ==> d == mock
  {
    if data.Some? then data.value else mock
  }

  // Tabs

  datatype Tab = SummaryTab | FiveCsTab | FinancialsTab | RisksTab

  /** The tab's `id`. */
  function TabId(t: Tab): string
  {
    match t
    case SummaryTab => "summary"
    case FiveCsTab => "5cs"
    case FinancialsTab => "financials"
    case RisksTab => "risks"
  }

  /** The tab's caption. */
  function TabLabel(t: Tab): string
  {
    match t
    case SummaryTab => "Summary"
    case FiveCsTab => "5Cs Analysis"
    case FinancialsTab => "Financials"
    case RisksTab => "Risk Factors"
  }

  /** The position of a tab in the bar. */
  function TabRank(t: Tab): nat
  {
    match t
    case SummaryTab => 0
    case FiveCsTab => 1
    case FinancialsTab => 2
    case RisksTab => 3
  }

  /** A settings value used as a condition; a missing key is `undefined`, which is falsy. */
  predicate Enabled(prefs: Section, key: string)
  {
    key in prefs &&
    match prefs[key]
    case Flag(b) => b
    case Num(n) => TruthyNumber(n)
    case Text(s) => s != ""
    case Null => false
  }

  /** `cond && tab` inside the list that `filter(Boolean)` then thins out. */
  function TabIf(cond: bool, t: Tab): seq<Tab>
  {
    if cond then [t] else []
  }

  /**
   * The tab bar. Destructuring `settings.reportPreferences` throws a
   * TypeError when that section is missing. Otherwise Financials is always
   * shown, Summary, 5Cs and Risks exactly when their preference is truthy,
   * and the tabs keep the order summary, 5cs, financials, risks.
   */
  function Tabs(settings: Settings): (r: Outcome<seq<Tab>>)
    ensures r.ThrewTypeError? <==> "reportPreferences" !in settings
    ensures r.Returned? ==> FinancialsTab in r.value
    ensures r.Returned? ==> (SummaryTab in r.value <==> Enabled(settings["reportPreferences"], "includeExecutiveSummary"))
    ensures r.Returned? ==> (FiveCsTab in r.value <==> Enabled(settings["reportPreferences"], "include5Cs"))
    ensures r.Returned? ==> (RisksTab in r.value <==> Enabled(settings["reportPreferences"], "includeRiskAssessment"))
    ensures r.Returned? ==> forall i, j :: 0 <= i < j < |r.value| ==> TabRank(r.value[i]) < TabRank(r.value[j])
  {
    if "reportPreferences" !in settings then ThrewTypeError
    else
      var prefs := settings["reportPreferences"];
      var summary := Enabled(prefs, "includeExecutiveSummary");
      var fiveCs := Enabled(prefs, "include5Cs");
      var risks := Enabled(prefs, "includeRiskAssessment");
      TabListOrdered(summary, fiveCs, risks);
      Returned(TabList(summary, fiveCs, risks))
  }

  /** The tab list once the three preferences are read. */
  function TabList(summary: bool, fiveCs: bool, risks: bool): seq<Tab>
  {
    TabIf(summary, SummaryTab) + TabIf(fiveCs, FiveCsTab) + [FinancialsTab] + TabIf(risks, RisksTab)
  }

  /** Each optional tab is present exactly when its flag is set, and the ranks increase. */
  lemma TabListOrdered(summary: bool, fiveCs: bool, risks: bool)
    ensures FinancialsTab in TabList(summary, fiveCs, risks)
    ensures SummaryTab in TabList(summary, fiveCs, risks) <==> summary
    ensures FiveCsTab in TabList(summary, fiveCs, risks) <==> fiveCs
    ensures RisksTab in TabList(summary, fiveCs, risks) <==> risks
    ensures forall i, j :: 0 <= i < j < |TabList(summary, fiveCs, risks)| ==>
              TabRank(TabList(summary, fiveCs, risks)[i]) < TabRank(TabList(summary, fiveCs, risks)[j])
  {
    var tabs := TabList(summary, fiveCs, risks);
    if summary {
      if fiveCs {
        if risks { assert tabs == [SummaryTab, FiveCsTab, FinancialsTab, RisksTab]; }
        else { assert tabs == [SummaryTab, FiveCsTab, FinancialsTab]; }
      } else {
        if risks { assert tabs == [SummaryTab, FinancialsTab, RisksTab]; }
        else { assert tabs == [SummaryTab, FinancialsTab]; }
      }
    } else {
      if fiveCs {
        if risks { assert tabs == [FiveCsTab, FinancialsTab, RisksTab]; }
        else { assert tabs == [FiveCsTab, FinancialsTab]; }
      } else {
        if risks { assert tabs == [FinancialsTab, RisksTab]; }
        else { assert tabs == [FinancialsTab]; }
      }
    }
  }

  /** With the default settings every tab is shown. */
  lemma DefaultSettingsShowEveryTab()
    ensures Tabs(DefaultSettings) == Returned([SummaryTab, FiveCsTab, FinancialsTab, RisksTab])
  {
    var prefs := DefaultSettings["reportPreferences"];
    assert TabList(true, true, true) == [SummaryTab, FiveCsTab, FinancialsTab, RisksTab];
    assert Enabled(prefs, "includeExecutiveSummary") && Enabled(prefs, "include5Cs") && Enabled(prefs, "includeRiskAssessment");
  }

  // Colour classes

  /** The three colour families the dashboard paints values with. */
  datatype Tone = Emerald | Amber | Rose

  /** A metric's colour: emerald for `healthy`, rose for `critical`, amber for anything else. */
  function StatusTone(status: Option<string>): (tone: Tone)
    ensures tone == Emerald <==> status == Some("healthy")
    ensures tone == Rose <==> status == Some("critical")
    ensures tone == Amber <==> status != Some("healthy") && status != Some("critical")
  {
    if status == Some("healthy") then Emerald
    else if status == Some("critical") then Rose
    else Amber
  }

  /**
   * A metric card's value line, `{metric.value}{suffix}`: the value (nothing
   * when it is missing) followed by "%" for unit '%', "x" for unit 'ratio',
   * and nothing for any other unit.
   */
  function MetricCardValue(m: Metric): (text: string)
    ensures m.unit == Some("%") ==> text == ReportFields.Safe(m.value, "") + "%"
    ensures m.unit == Some("ratio") ==> text == ReportFields.Safe(m.value, "") + "x"
    ensures m.unit != Some("%") && m.unit != Some("ratio") ==> text == ReportFields.Safe(m.value, "")
  {
    ReportFields.Safe(m.value, "") + ReportFields.UnitSuffix(m.unit)
  }

  /**
   * The recommendation badge: emerald for Approve and Positive, amber for
   * Conditional Approval and Neutral, rose for anything else, a missing
   * recommendation included.
   */
  function RecommendationTone(recommendation: Option<string>): (tone: Tone)
    ensures tone == Emerald <==> recommendation == Some("Approve") || recommendation == Some("Positive")
    ensures tone == Amber <==> recommendation == Some("Conditional Approval") || recommendation == Some("Neutral")
    ensures tone == Rose <==> recommendation !in {Some("Approve"), Some("Positive"), Some("Conditional Approval"), Some("Neutral")}
  {
    if recommendation == Some("Approve") || recommendation == Some("Positive") then Emerald
    else if recommendation == Some("Conditional Approval") || recommendation == Some("Neutral") then Amber
    else Rose
  }

  /**
   * The summary tab reads `displayData.summary.recommendation` without a
   * guard, so a record without a summary throws a TypeError there.
   */
  function SummaryBadge(d: Record): (r: Outcome<Tone>)
    ensures r.ThrewTypeError? <==> d.summary.None?
    ensures r.Returned? ==> r.value == RecommendationTone(RecommendationOf(d))
  {
    if d.summary.None? then ThrewTypeError else Returned(RecommendationTone(d.summary.value.recommendation))
  }

  // The executive-summary editor

  /** `editedData`: edited fields by top-level key (only `summary` is ever written). */
  type Edits = map<string, map<string, string>>

  /** `editedData.summary?.[field]` */
  function EditedField(edits: Edits, field: string): (r: Option<string>)
    ensures r.Some? <==> "summary" in edits && field in edits["summary"]
    ensures r.Some? ==> r.value == edits["summary"][field]
  {
    if "summary" in edits && field in edits["summary"] then Some(edits["summary"][field]) else None
  }

  /**
   * The text in the editor: the edited executive summary when it is truthy,
   * else the record's own when that is truthy, else the empty text.
   */
  function EditorText(edits: Edits, d: Record): (text: string)
    ensures TruthyText(EditedField(edits, "executive_summary")) ==> text == EditedField(edits, "executive_summary").value
    ensures !TruthyText(EditedField(edits, "executive_summary")) && TruthyText(ExecutiveSummaryOf(d)) ==> text == ExecutiveSummaryOf(d).value
    ensures !TruthyText(EditedField(edits, "executive_summary")) && !TruthyText(ExecutiveSummaryOf(d)) ==> text == ""
  {
    var alternatives := [EditedField(edits, "executive_summary"), ExecutiveSummaryOf(d)];
    assert !TruthyText(alternatives[0]) && TruthyText(alternatives[1]) ==> FirstTruthyAt(alternatives, 1);
    OrChain(alternatives, "")
  }

  /** The summary object that `editedData.summary` becomes when it stands in for a whole summary. */
  function OverlaySummary(overlay: map<string, string>): Summary
  {
    Summary(
      if "executive_summary" in overlay then Some(overlay["executive_summary"]) else None,
      None,
      if "recommendation" in overlay then Some(overlay["recommendation"]) else None,
      if "recommendation_justification" in overlay then Some(overlay["recommendation_justification"]) else None)
  }

  /**
   * The record the edited exports hand to the generators, as written:
   * `editedData.summary ? { ...displayData, summary: editedData.summary } : displayData`.
   * The edited summary replaces the whole original summary, so every
   * summary field that was not edited is lost.
   */
  function EditedRecord(d: Record, edits: Edits): (r: Record)
    ensures "summary" !in edits ==> r == d
    ensures r.(summary := d.summary) == d
    ensures "summary" in edits ==>
              ExecutiveSummaryOf(r) == EditedField(edits, "executive_summary")
              && RecommendationOf(r) == EditedField(edits, "recommendation")
              && JustificationOf(r) == EditedField(edits, "recommendation_justification")
              && KeyTakeawaysOf(r).None?
  {
    if "summary" in edits then d.(summary := Some(OverlaySummary(edits["summary"]))) else d
  }

  /**
   * The record the edited exports are meant to carry,
   * `{ ...displayData, summary: { ...displayData.summary, ...editedData.summary } }`:
   * each edited summary field replaces the original one and every other
   * field of the record and of its summary is kept.
   */
  function MergedRecord(d: Record, edits: Edits): (r: Record)
    ensures "summary" !in edits ==> r == d
    ensures r.(summary := d.summary) == d
    ensures forall field :: field in {"executive_summary", "recommendation", "recommendation_justification"} && EditedField(edits, field).Some? ==>
              SummaryField(r, field) == EditedField(edits, field)
    ensures forall field :: field in {"executive_summary", "recommendation", "recommendation_justification"} && EditedField(edits, field).None? ==>
              SummaryField(r, field) == SummaryField(d, field)
    ensures EditedField(edits, "key_takeaways").None? ==> KeyTakeawaysOf(r) == KeyTakeawaysOf(d)
  {
    if "summary" !in edits then d
    else
      var overlay := edits["summary"];
      var base := if d.summary.Some? then d.summary.value else Summary(None, None, None, None);
      var merged := Summary(
        if "executive_summary" in overlay then Some(overlay["executive_summary"]) else base.executiveSummary,
        if "key_takeaways" in overlay then None else base.keyTakeaways,
        if "recommendation" in overlay then Some(overlay["recommendation"]) else base.recommendation,
        if "recommendation_justification" in overlay then Some(overlay["recommendation_justification"]) else base.recommendationJustification);
      d.(summary := Some(merged))
  }

  /** The text fields of a record's summary by their JSON key. */
  function SummaryField(d: Record, field: string): Option<string>
  {
    if field == "executive_summary" then ExecutiveSummaryOf(d)
    else if field == "recommendation" then RecommendationOf(d)
    else if field == "recommendation_justification" then JustificationOf(d)
    else None
  }

  /**
   * Editing only the executive summary and exporting drops the
   * recommendation: the exported record has none, so the Markdown export
   * prints "Pending" with no justification, and the Word page built from
   * that record prints "Pending" too.
   */
  lemma EditedExportDropsRecommendation(d: Record, text: string)
    requires TruthyText(RecommendationOf(d))
    ensures RecommendationOf(EditedRecord(d, SetNested(map[], "summary", "executive_summary", text))) == None
    ensures MarkdownReport.RecommendationSection(EditedRecord(d, SetNested(map[], "summary", "executive_summary", text)))
            == "## 5. Final Recommendation\n\n**Recommendation:** Pending\n\n"
    ensures WordReport.RecommendationText(EditedRecord(d, SetNested(map[], "summary", "executive_summary", text))) == "Pending"
  {
    var edits: Edits := SetNested(map[], "summary", "executive_summary", text);
    var written := EditedRecord(d, edits);
    assert EditedField(edits, "recommendation") == None;
    assert EditedField(edits, "recommendation_justification") == None;
    assert RecommendationOf(written) == None;
    assert JustificationOf(written) == None;
    MarkdownReport.PendingRecommendationSection(written);
  }

  /** The same edit on the merged record keeps the original recommendation in both exports. */
  lemma MergedExportKeepsRecommendation(d: Record, text: string)
    requires TruthyText(RecommendationOf(d))
    ensures WordReport.RecommendationText(MergedRecord(d, SetNested(map[], "summary", "executive_summary", text))) == RecommendationOf(d).value
    ensures MarkdownReport.RecommendationSection(MergedRecord(d, SetNested(map[], "summary", "executive_summary", text)))
            == MarkdownReport.RecommendationSection(d)
  {
    var edits: Edits := SetNested(map[], "summary", "executive_summary", text);
    var merged := MergedRecord(d, edits);
    assert EditedField(edits, "recommendation") == None;
    assert EditedField(edits, "recommendation_justification") == None;
    assert SummaryField(merged, "recommendation") == SummaryField(d, "recommendation");
    assert SummaryField(merged, "recommendation_justification") == SummaryField(d, "recommendation_justification");
  }

  /**
   * With the merged record, editing the executive summary changes only the
   * executive paragraph of the Markdown report: the header, the takeaways
   * and sections 2 to 5 are those of the original record.
   */
  lemma MergedEditChangesOnlyParagraph(d: Record, text: string)
    ensures ExecutiveSummaryOf(MergedRecord(d, SetNested(map[], "summary", "executive_summary", text))) == Some(text)
    ensures MarkdownReport.MarkdownSummary(Some(MergedRecord(d, SetNested(map[], "summary", "executive_summary", text))))
            == MarkdownReport.Header(d)
               + ("## 1. Executive Summary\n\n"
                  + MarkdownReport.ExecutiveParagraph(MergedRecord(d, SetNested(map[], "summary", "executive_summary", text)))
                  + MarkdownReport.TakeawaysBlock(d))
               + MarkdownReport.FiveCsSection(d) + MarkdownReport.MetricsSection(d) + MarkdownReport.RiskSection(d)
               + MarkdownReport.RecommendationSection(d)
  {
    var edits: Edits := SetNested(map[], "summary", "executive_summary", text);
    var merged := MergedRecord(d, edits);
    assert EditedField(edits, "executive_summary") == Some(text);
    assert SummaryField(merged, "executive_summary") == Some(text);
    assert SummaryField(merged, "recommendation") == SummaryField(d, "recommendation");
    assert SummaryField(merged, "recommendation_justification") == SummaryField(d, "recommendation_justification");
    assert MarkdownReport.Header(merged) == MarkdownReport.Header(d);
    assert MarkdownReport.TakeawaysBlock(merged) == MarkdownReport.TakeawaysBlock(d);
    assert MarkdownReport.FiveCsSection(merged) == MarkdownReport.FiveCsSection(d);
    assert MarkdownReport.MetricsSection(merged) == MarkdownReport.MetricsSection(d);
    assert MarkdownReport.RiskSection(merged) == MarkdownReport.RiskSection(d);
    assert MarkdownReport.RecommendationSection(merged) == MarkdownReport.RecommendationSection(d);
  }

  /** Typing a non-empty text into the editor shows exactly that text. */
  lemma EditorShowsTypedText(edits: Edits, d: Record, text: string)
    requires text != ""
    ensures EditorText(SetNested(edits, "summary", "executive_summary", text), d) == text
  {
    assert EditedField(SetNested(edits, "summary", "executive_summary", text), "executive_summary") == Some(text);
  }

  /**
   * Clearing the editor does not clear it: the empty edit is falsy, so the
   * record's own executive summary is shown again, while the export record
   * carries the empty text.
   */
  lemma ClearedEditorShowsOriginal(edits: Edits, d: Record)
    requires TruthyText(ExecutiveSummaryOf(d))
    ensures EditorText(SetNested(edits, "summary", "executive_summary", ""), d) == ExecutiveSummaryOf(d).value
    ensures ExecutiveSummaryOf(EditedRecord(d, SetNested(edits, "summary", "executive_summary", ""))) == Some("")
    ensures ExecutiveSummaryOf(MergedRecord(d, SetNested(edits, "summary", "executive_summary", ""))) == Some("")
  {
    var cleared := SetNested(edits, "summary", "executive_summary", "");
    assert EditedField(cleared, "executive_summary") == Some("");
    assert SummaryField(MergedRecord(d, cleared), "executive_summary") == Some("");
  }

  /** After a reset the editor shows the record's own summary and the exports carry the record itself. */
  lemma ResetRestoresRecord(d: Record)
    ensures EditorText(map[], d) == OrChain([ExecutiveSummaryOf(d)], "")
    ensures EditedRecord(d, map[]) == d && MergedRecord(d, map[]) == d
  {
    var edits: Edits := map[];
    assert EditedField(edits, "executive_summary") == None;
    assert !TruthyText(None);
    assert TruthyText(ExecutiveSummaryOf(d)) ==> OrChain([ExecutiveSummaryOf(d)], "") == ExecutiveSummaryOf(d).value;
  }

  /** The dashboard's state: the tab shown, the edit panel and the edits made in it. */
  class AnalysisDashboard {
    var activeTab: Tab
    var editMode: bool
    var editedData: Edits
    const displayData: Record

    /** The dashboard opens on the summary tab with no edits and the panel closed. */
    constructor(data: Option<Record>, mock: Record)
      ensures displayData == DisplayData(data, mock)
      ensures activeTab == SummaryTab && !editMode && editedData == map[]
    {
      displayData := DisplayData(data, mock);
      activeTab := SummaryTab;
      editMode := false;
      editedData := map[];
    }

    /** Clicking a tab makes it the active one. */
    method SelectTab(t: Tab)
      modifies this
      ensures activeTab == t
      ensures editMode == old(editMode) && editedData == old(editedData)
    {
      activeTab := t;
    }

    /** The Edit button opens or closes the panel; the edits are kept. */
    method ToggleEditMode()
      modifies this
      ensures editMode == !old(editMode)
      ensures activeTab == old(activeTab) && editedData == old(editedData)
    {
      editMode := !editMode;
    }

    /**
     * `handleEditSummary(field, value)`: sets one field of the edited
     * summary, keeping its other fields and every other key of the edits.
     */
    method HandleEditSummary(field: string, value: string)
      modifies this
      ensures editedData == SetNested(old(editedData), "summary", field, value)
      ensures EditedField(editedData, field) == Some(value)
      ensures forall other :: other != field ==> EditedField(editedData, other) == EditedField(old(editedData), other)
      ensures activeTab == old(activeTab) && editMode == old(editMode)
    {
      editedData := SetNested(editedData, "summary", field, value);
    }

    /** `handleResetEdits`: drops every edit and closes the panel. */
    method HandleResetEdits()
      modifies this
      ensures editedData == map[] && !editMode
      ensures activeTab == old(activeTab)
    {
      editedData := map[];
      editMode := false;
    }

    /** The editor's text for the current edits. */
    method CurrentEditorText() returns (text: string)
      ensures text == EditorText(editedData, displayData)
    {
      text := OrChain([EditedField(editedData, "executive_summary"), ExecutiveSummaryOf(displayData)], "");
    }

    /**
     * The record behind "Save as Markdown" and "Save as Word" in the edit
     * panel: the shown record with its summary replaced by the edited one.
     */
    method EditedExportRecord() returns (record: Record)
      ensures record == EditedRecord(displayData, editedData)
    {
      record := displayData;
      if "summary" in editedData {
        record := displayData.(summary := Some(OverlaySummary(editedData["summary"])));
      }
    }

    /** The Markdown text of the edited export; a record is always present, so it is never the error text. */
    method ExportEditedMarkdown() returns (markdown: string)
      ensures markdown == MarkdownReport.MarkdownSummary(Some(EditedRecord(displayData, editedData)))
      ensures markdown != MarkdownReport.ErrorMarkdown
    {
      var record := EditedExportRecord();
      markdown := MarkdownReport.GenerateMarkdownSummary(Some(record));
    }

    /** The Markdown text of the plain export, built from the record shown. */
    method ExportMarkdown() returns (markdown: string)
      ensures markdown == MarkdownReport.MarkdownSummary(Some(displayData))
      ensures markdown != MarkdownReport.ErrorMarkdown
    {
      markdown := MarkdownReport.GenerateMarkdownSummary(Some(displayData));
    }
  }

  // Dotted-path lookup

  /** A JSON value as the dashboard walks it; a missing property (`undefined`) is `None` around it. */
  datatype Json = JNull | JBool(b: bool) | JNum(n: Number) | JStr(s: string) | JArr(items: seq<Json>) | JObj(fields: map<string, Json>)

  /** A JSON value used as a condition. */
  predicate TruthyJson(v: Json)
  {
    match v
    case JNull => false
    case JBool(b) => b
    case JNum(n) => TruthyNumber(n)
    case JStr(s) => s != ""
    case JArr(_) => true
    case JObj(_) => true
  }

  /** A property name that reads an element of an array or a string: a canonical decimal index. */
  predicate IsIndex(key: string)
  {
    |key| > 0 && AllDigits(key) && (key[0] != '0' || key == "0")
  }

  /**
   * `value?.[key]`: `undefined` on `undefined` and `null`; an own property
   * of an object; an element or the `length` of an array or a string;
   * `undefined` for anything else.
   */
  function Step(value: Option<Json>, key: string): (r: Option<Json>)
    ensures value.None? || value == Some(JNull) ==> r.None?
    ensures value.Some? && value.value.JObj? ==> (r.Some? <==> key in value.value.fields)
    ensures value.Some? && (value.value.JArr? || value.value.JStr?) && key == "length" ==> r.Some? && r.value.JNum?
    ensures value.Some? && value.value.JStr? && key == "length" ==> r == Some(JNum(Finite(Utf16Length(value.value.s) as real)))
    ensures value.Some? && value.value.JStr? && r.Some? && key != "length" ==>
              r.value.JStr? && |r.value.s| == 1 && r.value.s[0] in value.value.s
  {
    if value.None? then None
    else
      match value.value
      case JObj(fields) => if key in fields then Some(fields[key]) else None
      case JArr(items) =>
        if key == "length" then Some(JNum(Finite(|items| as real)))
        else if IsIndex(key) && DigitsValue(key) < |items| then Some(items[DigitsValue(key)])
        else None
      case JStr(s) =>
        if key == "length" then Some(JNum(Finite(Utf16Length(s) as real)))
        else if IsIndex(key) && DigitsValue(key) < Utf16Length(s) then Some(JStr([CharAtUnit(s, DigitsValue(key))]))
        else None
      case _ => None
  }

  /**
   * Reading a string counts UTF-16 code units, as JavaScript does: an
   * astral character has length 2, and the units after it are shifted.
   */
  lemma StringStepsCountCodeUnits()
    ensures Step(Some(JStr("\U{1F600}")), "length") == Some(JNum(Finite(2.0)))
    ensures Step(Some(JStr("a\U{1F600}b")), "length") == Some(JNum(Finite(4.0)))
    ensures Step(Some(JStr("a\U{1F600}b")), "3") == Some(JStr("b"))
    ensures Step(Some(JStr("ab")), "1") == Some(JStr("b"))
  {
    var s := "a\U{1F600}b";
    assert s[..|s| - 1] == "a\U{1F600}" && s[..|s| - 1][..1] == "a";
    assert Utf16Length("a") == 1;
    assert Utf16Length("a\U{1F600}") == 3;
    assert DigitsValue("3") == 3 && IsIndex("3");
    assert DigitsValue("1") == 1 && IsIndex("1");
  }

  /** The value reached by following `keys` one step at a time. */
  function Walk(root: Option<Json>, keys: seq<string>): (r: Option<Json>)
    ensures |keys| == 0 ==> r == root
    ensures root.None? ==> r.None?
  {
    if |keys| == 0 then root else Step(Walk(root, keys[..|keys| - 1]), keys[|keys| - 1])
  }

  /** Once a step is `undefined`, every longer walk is too. */
  lemma {:induction false} WalkPrefixUndefined(root: Option<Json>, keys: seq<string>, i: nat)
    requires i <= |keys|
    requires Walk(root, keys[..i]).None?
    ensures Walk(root, keys).None?
    decreases |keys|
  {
    if i == |keys| {
      assert keys[..i] == keys;
    } else {
      var init := keys[..|keys| - 1];
      assert init[..i] == keys[..i];
      WalkPrefixUndefined(root, init, i);
    }
  }

  /** Walking a path in two parts is walking the first part, then the second from there. */
  lemma {:induction false} WalkAppend(root: Option<Json>, first: seq<string>, second: seq<string>)
    ensures Walk(root, first + second) == Walk(Walk(root, first), second)
    decreases |second|
  {
    if |second| == 0 {
      assert first + second == first;
    } else {
      assert (first + second)[..|first + second| - 1] == first + second[..|second| - 1];
      WalkAppend(root, first, second[..|second| - 1]);
    }
  }

  /** What `getDisplayValue(path, defaultValue)` returns for the record `root`. */
  function DisplayValue(root: Json, path: string, default: Json): (r: Json)
    ensures TruthyJson(r) || r == default
    ensures r != default ==> Walk(Some(root), Split(path, '.')) == Some(r)
    ensures Walk(Some(root), Split(path, '.')).Some? && TruthyJson(Walk(Some(root), Split(path, '.')).value) ==>
              r == Walk(Some(root), Split(path, '.')).value
  {
    var found := Walk(Some(root), Split(path, '.'));
    if found.Some? && TruthyJson(found.value) then found.value else default
  }

  /** Any step of the path that reaches `undefined` makes the result the default. */
  lemma UndefinedStepGivesDefault(root: Json, path: string, default: Json, i: nat)
    requires i <= |Split(path, '.')|
    requires Walk(Some(root), Split(path, '.')[..i]).None?
    ensures DisplayValue(root, path, default) == default
  {
    WalkPrefixUndefined(Some(root), Split(path, '.'), i);
  }

  /**
   * `getDisplayValue`: splits the path at the dots, follows it one key at
   * a time and returns the default as soon as a step is `undefined`, or when
   * the value it ends on is falsy.
   */
  method GetDisplayValue(root: Json, path: string, default: Json) returns (r: Json)
    ensures r == DisplayValue(root, path, default)
    ensures TruthyJson(r) || r == default
  {
    var keys := Split(path, '.');
    var value := Some(root);
    for i := 0 to |keys|
      invariant value == Walk(Some(root), keys[..i])
      invariant value.Some?
    {
      assert keys[..i + 1][..i] == keys[..i];
      value := Step(value, keys[i]);
      if value.None? {
        WalkPrefixUndefined(Some(root), keys, i + 1);
        return default;
      }
    }
    assert keys[..|keys|] == keys;
    r := if TruthyJson(value.value) then value.value else default;
  }
}
