# Credit memo front end — a verified model

This project models the core of a React front end for credit analysis. An
analysis service returns an analysis record: summary, 5Cs assessment,
financial metrics and risk assessment. The front end shows the record on a
dashboard, exports it as a Markdown credit memo or a Word-compatible HTML
page, lets the user edit the executive summary before exporting, stress-tests
the metrics in a sensitivity view, searches the uploaded PDF, and keeps
user settings in a store that is mirrored to browser storage.

Modules (one file each):

- `JsCore` (`js_core.dfy`): the JavaScript notions the code relies on.
  - Missing values (`Option`) and thrown TypeErrors (`Outcome`).
  - Numbers with NaN, and truthiness.
  - The `a || b || fallback` chain and the nested object-spread update.
- `JsStrings`, `JsNumbers`: the runtime functions the code calls.
  - ASCII `toLowerCase`, `includes`, and the count of a global literal regex.
  - `join` and `split`, `filter(Boolean)`, and `forEach` appending to a string.
  - `Math.round`, `String(int)`, `parseFloat`, and the strip of non-numeric characters.
- `AnalysisRecord`: the record. Every field may be missing, and so may every list entry.
- `ReportFields`: field rules both exporters share (`src/api.js`).
- `MarkdownReport`, `WordReport`: `generateMarkdownSummary` and `generateWordHTML`.
  - Each section is specified by a function.
  - Imperative builders append as the source does and are proved to produce those functions.
- `SettingsStore`: the settings context (`src/context/AnalysisContext.jsx`).
  - Default settings and the lazy initial state.
  - `updateSettings` as a shallow merge, with the stored JSON copy (NaN is stored as `null`).
- `SettingsForm`: the settings page (`src/components/Settings.jsx`). It edits a local copy and saves it.
- `Sensitivity`: the sensitivity view (`src/components/SensitivityAnalysis.jsx`).
  - Keyword extraction of metrics, including the TypeErrors it can throw.
  - Scenario editing and reset.
  - The weighted risk classifier.
- `Dashboard`: the analysis dashboard (`src/components/AnalysisDashboard.jsx`).
  - The tab filter and the colour classifiers.
  - The summary editor and its edited exports.
  - The dotted-path value lookup.
- `PdfViewer`: the PDF viewer's search, match navigation, debounced search trigger, file-change reset and zoom (`src/components/PDFViewer.jsx`).

Modelling choices:

- Components whose state React updates in place are classes: `AnalysisStore`, `SettingsPage`, `SensitivityView`, `AnalysisDashboard`, `PdfViewer`.
- Each state setter is a method whose `ensures` gives the new state.
- Asynchronous steps (page loading, timers) are methods the environment calls.

The model follows the code as written, including two places where it evidently misbehaves (see Findings):

- The risk classifier's fallback thresholds name the wrong key (SensitivityAnalysis.jsx:65). `Sensitivity.CalculateRisk` uses the fallback as written. The corrected fallback is `Sensitivity.CorrectedThresholds`.
- The edited exports replace the summary with the edited fields alone (AnalysisDashboard.jsx:328 and 338-342). `Dashboard.AnalysisDashboard.EditedExportRecord` returns that record, `Dashboard.EditedRecord`. The editor itself overlays the edit on the original text (line 320), so the evident intent is a merge, `Dashboard.MergedRecord`, whose effect is proved separately.

## Model

| member | source | states |
|---|---|---|
| JsCore.OrChain | src/api.js:43 | `a \|\| b \|\| … \|\| fallback` yields the first truthy alternative, with every earlier one falsy, or the fallback when none is truthy |
| JsCore.SetNested | src/components/Settings.jsx:12-21 | the nested spread update sets exactly one inner key; every other key of that inner object and every other outer key keeps its value; a missing inner object starts empty |
| JsCore.SetNestedLastWriteWins | src/components/Settings.jsx:12-21 | two edits of the same key leave only the second |
| JsStrings.Lower | src/components/PDFViewer.jsx:41-48 | `toLowerCase` keeps the length and maps each character by itself |
| JsStrings.Upper | src/api.js:42 | `toUpperCase` keeps the length and maps each character by itself |
| JsStrings.CharAtUnit | src/components/AnalysisDashboard.jsx:94 | the character holding code unit `u` is a character of the text, and on text inside the Basic Multilingual Plane it is the `u`-th character |
| JsStrings.Utf16Length | src/components/PDFViewer.jsx:72 | `length` counts between one and two units per character, zero only for the empty text, and one per character when none lies outside the Basic Multilingual Plane |
| JsStrings.CountFrom | src/components/PDFViewer.jsx:53-54 | the global match count never exceeds the room for non-overlapping matches: count × query length ≤ remaining text |
| JsStrings.Join | src/components/PDFViewer.jsx:46 | `join` yields "" for no parts; otherwise it starts with the first part and is as long as the parts plus one separator between each pair |
| JsStrings.CountFromPositive | src/components/PDFViewer.jsx:53-54 | the non-overlapping scan finds a match from position i exactly when the query occurs at some position ≥ i |
| JsStrings.CountPositiveIffContains | src/components/PDFViewer.jsx:48-54 | the regex match count is positive exactly when `includes` is true |
| JsStrings.Split | src/components/AnalysisDashboard.jsx:91 | `split('.')` always yields at least one part |
| JsStrings.SplitJoinRoundTrip | src/components/AnalysisDashboard.jsx:91 | joining the parts of `path.split('.')` with '.' gives the path back |
| JsStrings.SplitPartsLackSeparator | src/components/AnalysisDashboard.jsx:91 | no part of `path.split('.')` contains a dot |
| JsStrings.FilterTruthy | src/api.js:61 | `filter(Boolean)` keeps only non-empty strings |
| JsStrings.JoinEmptyIff | src/api.js:61 | joining non-empty parts is empty exactly when there are no parts, which is when the 'Unknown Metric' fallback applies |
| JsStrings.AppendEach | src/api.js:31-33 | the `forEach` loop that appends to the report yields the accumulator followed by each item's rendering, in order |
| JsStrings.SkipFalsyIsFilter | src/api.js:31-33 | skipping falsy items inside the loop renders the same text as filtering them first |
| JsNumbers.ParseFloat | src/components/SensitivityAnalysis.jsx:35 | NaN for empty text and for text starting with anything but a digit, '-' or '.'; a string of digits parses to its value |
| JsNumbers.StringToNumber | src/components/SensitivityAnalysis.jsx:67-70 | `Number(text)`, applied when a comparison meets text: blank text is 0, and a finite result comes from text ending (after trimming) in a digit or '.' |
| JsNumbers.IntToStringToNumber | src/components/SensitivityAnalysis.jsx:67-70 | the text of any integer converts back to that integer |
| JsNumbers.Round | src/api.js:17 | `Math.round` yields the integer n with n ≤ x + 0.5 < n + 1 |
| JsNumbers.DigitsValueOfNatToString | src/api.js:17 | the decimal text of a natural number reads back as that number |
| JsNumbers.IntToStringParses | src/api.js:17 | `parseFloat(String(i))` is i for every integer i |
| JsNumbers.StripNonNumeric | src/components/SensitivityAnalysis.jsx:35 | the stripped value contains only digits, '.' and '-', and text with no other characters is unchanged |
| JsNumbers.StripIdempotent | src/components/SensitivityAnalysis.jsx:35 | stripping a second time changes nothing |
| ReportFields.Safe | src/api.js:7 | the default replaces exactly a missing (`undefined` or `null`) value; any present value, even a falsy one, is kept |
| ReportFields.SafeVersusOr | src/api.js:7 | `safe(v, d)` and `v \|\| d` agree except when v is the empty string and d is not |
| ReportFields.ConfidenceLabel | src/api.js:16-18 | the label is "Draft" exactly when the confidence is missing, zero or NaN; otherwise it ends in '%' and parses back to the rounded percentage |
| ReportFields.PercentSignIgnored | src/api.js:17 | `parseFloat` ignores the '%' after the printed percentage |
| ReportFields.FiveCsContent | src/api.js:43 | the 5Cs text is the first truthy of assessment, equity_position, loan_purpose and repayment_source, else "No analysis provided."; it is never empty |
| ReportFields.UnitSuffix | src/api.js:60 | the suffix is '%' exactly for unit '%', 'x' exactly for 'ratio', and empty for anything else |
| ReportFields.MetricName | src/api.js:61 | category and `label \|\| name` are joined with " - " when both are truthy; the one that is truthy otherwise; else "Unknown Metric"; the name is never empty |
| MarkdownReport.TextList | src/api.js:79-93 | a strengths or weaknesses block is empty exactly when the list is missing or not an array |
| MarkdownReport.MarkdownSummary | src/api.js:9-104 | the error text is returned exactly when the record is missing |
| MarkdownReport.GenerateMarkdownSummary | src/api.js:9-104 | the appending generator builds exactly the specified report |
| MarkdownReport.BuildExecutive | src/api.js:21-35 | the executive-summary builder produces its section |
| MarkdownReport.BuildRisk | src/api.js:67-94 | the risk builder produces its section |
| MarkdownReport.BuildRecommendation | src/api.js:96-101 | the recommendation builder produces its section |
| MarkdownReport.PendingRecommendationSection | src/api.js:96-101 | without recommendation and justification, section 5 is exactly the heading and "**Recommendation:** Pending" |
| MarkdownReport.MetricLine | src/api.js:58-62 | a null metric adds nothing; any other starts its bullet with the metric name |
| MarkdownReport.RedFlagLine | src/api.js:72-75 | a null flag adds nothing; any other starts its bullet with the issue, "Issue" when missing |
| MarkdownReport.EmptyRecordReport | src/api.js:9-104 | the exact report for a record with no fields: default document type, "Draft", the no-summary note and "Pending" |
| MarkdownReport.SectionLayout | src/api.js:9-104 | (1) the report is the header followed by sections 1 to 5 in order; (2) sections 2, 3 and 4 are empty exactly when their field is missing, and otherwise start with their heading; (3) section 5 is always present |
| MarkdownReport.TakeawaysAreTruthyBullets | src/api.js:29-35 | the takeaways block is its heading followed by one bullet per truthy takeaway, in order |
| MarkdownReport.HighlightsAreTruthyBullets | src/api.js:45-51 | a highlights block is its heading followed by one bullet per truthy highlight, in order |
| MarkdownReport.TextItemsAreTruthyBullets | src/api.js:79-93 | a strengths or weaknesses block lists one bullet per entry with a truthy `text`, in order; null entries and entries without text add nothing |
| MarkdownReport.JustificationLine | src/api.js:99-101 | the justification line is present exactly when the justification is truthy, and then shows it after its label |
| WordReport.StatusClass | src/api.js:195 | the value cell has class metric-value exactly for status 'healthy', and risk-medium otherwise |
| WordReport.SeverityClass | src/api.js:211 | a red flag has class risk-high exactly for severity 'High', and risk-medium otherwise |
| WordReport.RenderList | src/api.js:217-225 | `renderList` emits nothing exactly when the list is missing, not an array, or empty |
| WordReport.RecommendationText | src/api.js:232 | the recommendation shown is the record's when it is truthy, else "Pending" |
| WordReport.WordHtml | src/api.js:109-241 | a missing record gives the error page |
| WordReport.GenerateWordHtml | src/api.js:109-241 | the appending generator builds exactly the specified page |
| WordReport.BuildExecutive | src/api.js:154-168 | the executive-summary builder produces its section |
| WordReport.BuildRecommendation | src/api.js:231-237 | the recommendation builder produces its block |
| WordReport.BuildList | src/api.js:217-225 | the `renderList` loop produces the specified list |
| WordReport.BuildRisk | src/api.js:204-229 | the risk builder produces its section |
| WordReport.MetricRow | src/api.js:193-199 | a null metric adds no row; any other row starts with the metric name and the cell's status class |
| WordReport.RedFlagItem | src/api.js:209-213 | a null flag adds no item; any other item starts with a span of the severity class |
| WordReport.OnlyMissingRecordGivesErrorPage | src/api.js:110 | the error page is returned exactly when the record is missing |
| WordReport.PageOutgrowsErrorPage | src/api.js:109-152 | every page for a record is longer than the error page |
| WordReport.HeaderOutgrowsErrorPage | src/api.js:113-152 | the document head and header alone are longer than the error page |
| WordReport.PageIsClosed | src/api.js:239 | every page for a record ends with `</body></html>` |
| WordReport.RecommendationFallbacksDiffer | src/api.js:232 | the Markdown and Word recommendations agree except for an empty recommendation, which Markdown keeps and Word replaces by "Pending" |
| WordReport.EmptyListHeadings | src/api.js:218 | an empty strengths list keeps its heading in Markdown and disappears from the Word page |
| WordReport.RedFlagDefaultsDiffer | src/api.js:212 | a red flag with no fields reads "Issue", "Medium Risk" and "No mitigant listed" in Markdown (api.js:74), and has empty issue, severity and mitigant in the amber class in Word |
| WordReport.SectionLayout | src/api.js:171-229 | sections 2, 3 and 4 of the page are empty exactly when their field is missing and otherwise open with their `<h2>`; section 5 always opens the recommendation block |
| WordReport.TakeawaysAreTruthyItems | src/api.js:162-168 | the takeaways list holds one item per truthy takeaway, in order |
| WordReport.HighlightsAreTruthyItems | src/api.js:179-185 | a highlights list holds one item per truthy highlight, in order |
| WordReport.TextItemsAreTruthyItems | src/api.js:217-225 | a non-empty strengths or weaknesses list holds one item per entry with a truthy `text`, in order |
| WordReport.JustificationParagraph | src/api.js:236 | the justification paragraph is present exactly when the justification is truthy, and then shows it after its label |
| WordReport.MetricDefaultsDiffer | src/api.js:199 | a metric without value or status shows "N/A (Unknown)" in Markdown, and "0", "-" and the amber class in Word |
| SettingsStore.Merge | src/context/AnalysisContext.jsx:33 | (1) the merged settings have the keys of both; (2) sections named in the update replace the current ones whole; (3) the other sections are kept |
| SettingsStore.MergeEmpty | src/context/AnalysisContext.jsx:32-36 | an empty update changes nothing |
| SettingsStore.MergeIdempotent | src/context/AnalysisContext.jsx:32-36 | applying the same update twice equals applying it once |
| SettingsStore.MergeCoveringUpdate | src/context/AnalysisContext.jsx:32-36 | an update naming every current section becomes the settings |
| SettingsStore.PersistedValue | src/context/AnalysisContext.jsx:35 | `JSON.stringify` keeps a value exactly when it is not NaN |
| SettingsStore.Persisted | src/context/AnalysisContext.jsx:35 | the stored copy has the same sections and keys, and each value is passed through the JSON round trip |
| SettingsStore.PersistedRoundTrip | src/context/AnalysisContext.jsx:27-35 | the stored settings read back unchanged exactly when no value is NaN |
| SettingsStore.PersistedIdempotent | src/context/AnalysisContext.jsx:35 | storing the stored copy again changes nothing |
| SettingsStore.AnalysisStore.constructor | src/context/AnalysisContext.jsx:27-30 | the initial settings are the stored ones when present, else the defaults |
| SettingsStore.AnalysisStore.UpdateSettings | src/context/AnalysisContext.jsx:32-36 | the settings become the merge, and storage holds their JSON copy |
| SettingsForm.SettingsPage.constructor | src/components/Settings.jsx:9-10 | the form starts from the store's settings, not saved |
| SettingsForm.SettingsPage.HandleChange | src/components/Settings.jsx:12-21 | the local copy takes the nested update and `saved` is cleared |
| SettingsForm.SettingsPage.OnThresholdInput | src/components/Settings.jsx:64 | a threshold input stores `parseFloat` of its text in riskThresholds |
| SettingsForm.SettingsPage.OnPreferenceToggle | src/components/Settings.jsx:106 | a checkbox stores its checked state in reportPreferences |
| SettingsForm.SettingsPage.OnApiInput | src/components/Settings.jsx:148 | the API key and model inputs store their text in apiSettings |
| SettingsForm.SettingsPage.HandleSave | src/components/Settings.jsx:23-27 | (1) the store receives the merge of the local copy; (2) a copy naming every store section becomes the store's settings; (3) storage is written and `saved` is set |
| SettingsForm.SettingsPage.SavedTimerFired | src/components/Settings.jsx:26 | the timer clears `saved` and nothing else |
| Sensitivity.MatchesKeyword | src/components/SensitivityAnalysis.jsx:31-34 | the `find` test throws for a null metric or a missing label; with both fields present it is label-contains or category-contains, case ignored; a hit always comes from one of them |
| Sensitivity.GetMetric | src/components/SensitivityAnalysis.jsx:30-36 | `getMetric` throws only at the first metric whose test throws before any match, or at a matching metric without a value |
| Sensitivity.FindFrom | src/components/SensitivityAnalysis.jsx:31-34 | `find` returns the first matching metric, or nothing when none matches, or the TypeError of the first metric whose test throws before any match |
| Sensitivity.GetMetricUsesFirstMatch | src/components/SensitivityAnalysis.jsx:30-36 | `getMetric` is null exactly when no metric matches, and otherwise `parseFloat` of the first match's stripped value |
| Sensitivity.LoadField | src/components/SensitivityAnalysis.jsx:39-43 | a loaded field is truthy or the default; a non-default value comes from one of its keywords; the default is used when every keyword yields a falsy value |
| Sensitivity.LoadedMetrics | src/components/SensitivityAnalysis.jsx:38-44 | every loaded field is truthy: never 0, NaN or null |
| Sensitivity.EmptyMetricListLoadsDefaults | src/components/SensitivityAnalysis.jsx:38-44 | an empty metric list loads `defaultMetrics` |
| Sensitivity.ThresholdNumber | src/components/SensitivityAnalysis.jsx:67-70 | a stored threshold compares as a number: itself, 0 for `null` and `false`, 1 for `true`, `Number(text)` for text |
| Sensitivity.Threshold | src/components/SensitivityAnalysis.jsx:67-70 | a present key compares as its value; a missing key is `undefined`, which satisfies neither `<` nor `>` |
| Sensitivity.TextThresholdComparesAsNumber | src/components/SensitivityAnalysis.jsx:67-70 | a threshold stored as the text of an integer compares as that integer |
| Sensitivity.TextThresholdsScore | src/components/SensitivityAnalysis.jsx:67 | a stored text threshold "2" scores a debt-to-equity of 3, and a blank text threshold acts as 0 |
| Sensitivity.WrittenThresholds | src/components/SensitivityAnalysis.jsx:65 | the stored thresholds when present; otherwise line 65's fallback, which has no `liquidityRatio` key |
| Sensitivity.CorrectedThresholds | src/components/SensitivityAnalysis.jsx:65 | the stored thresholds when present; otherwise exactly the default risk thresholds |
| Sensitivity.RiskScore | src/components/SensitivityAnalysis.jsx:62-70 | the score is at most 6 |
| Sensitivity.TierOf | src/components/SensitivityAnalysis.jsx:72-74 | High for a score ≥ 4, Medium for 2–3, Low below 2, each iff |
| Sensitivity.CalculateRisk | src/components/SensitivityAnalysis.jsx:62-75 | with the thresholds as written (stored ones, else line 65's fallback), the returned label and classes are those of the score's tier, and each label is given exactly for its score range |
| Sensitivity.RiskMonotone | src/components/SensitivityAnalysis.jsx:67-70 | a scenario no safer in every figure scores at least as high and is in a tier at least as high |
| Sensitivity.DefaultMetricsAreLowRisk | src/components/SensitivityAnalysis.jsx:12-18 | the default metrics score 0 (Low Risk) under the default thresholds |
| Sensitivity.ClassificationExamples | src/components/SensitivityAnalysis.jsx:62-75 | the three sample scenarios score 0, 2 and 6: Low, Medium and High Risk |
| Sensitivity.WrittenFallbackIgnoresLiquidity | src/components/SensitivityAnalysis.jsx:65-68 | with the fallback as written, the liquidity test is never true and liquidity never affects the score |
| Sensitivity.WrittenFallbackMissesLowLiquidity | src/components/SensitivityAnalysis.jsx:65-68 | liquidity 0.5 without stored thresholds scores 0 as written, and 2 with the corrected fallback |
| Sensitivity.CorrectedFallbackMatchesDefaults | src/components/SensitivityAnalysis.jsx:65 | with the corrected fallback, missing thresholds score every scenario as the default thresholds do |
| Sensitivity.With | src/components/SensitivityAnalysis.jsx:52-55 | the spread update sets the named field and keeps the other four |
| Sensitivity.SensitivityView.constructor | src/components/SensitivityAnalysis.jsx:20-21 | the base and scenario metrics both start as the defaults |
| Sensitivity.SensitivityView.Load | src/components/SensitivityAnalysis.jsx:24-49 | (1) with a metric list, both records become the loaded metrics; (2) without one, nothing changes; (3) when extraction throws, neither record is set and the exception is reported |
| Sensitivity.SensitivityView.HandleChange | src/components/SensitivityAnalysis.jsx:51-56 | the scenario field takes `parseFloat` of the input; the base metrics are untouched |
| Sensitivity.SensitivityView.ResetValues | src/components/SensitivityAnalysis.jsx:58-60 | the scenario becomes the base metrics again |
| Dashboard.DisplayData | src/components/AnalysisDashboard.jsx:51 | the record passed in, or the sample record when none is |
| Dashboard.Tabs | src/components/AnalysisDashboard.jsx:357-362 | (1) a TypeError exactly when reportPreferences is missing; (2) Financials is always present; (3) Summary, 5Cs and Risks are present iff their preference is truthy; (4) the tabs are in the order summary, 5cs, financials, risks |
| Dashboard.TabListOrdered | src/components/AnalysisDashboard.jsx:357-362 | the filtered list contains each optional tab exactly when its flag is set, and its ranks strictly increase |
| Dashboard.DefaultSettingsShowEveryTab | src/components/AnalysisDashboard.jsx:357-362 | the default settings show all four tabs in order |
| Dashboard.StatusTone | src/components/AnalysisDashboard.jsx:205-206 | emerald exactly for 'healthy', rose exactly for 'critical', amber for everything else |
| Dashboard.MetricCardValue | src/components/AnalysisDashboard.jsx:208 | a metric card shows the value followed by '%' for unit '%', 'x' for unit 'ratio', and nothing for any other unit, the rule the reports use |
| Dashboard.RecommendationTone | src/components/AnalysisDashboard.jsx:106-108 | emerald exactly for Approve and Positive, amber exactly for Conditional Approval and Neutral, rose for everything else |
| Dashboard.SummaryBadge | src/components/AnalysisDashboard.jsx:106 | the summary tab throws exactly when the record has no summary; otherwise it shows the recommendation's tone |
| Dashboard.EditedField | src/components/AnalysisDashboard.jsx:75-83 | an edited summary field is present exactly when the editor has set it, with the value set |
| Dashboard.EditorText | src/components/AnalysisDashboard.jsx:320 | the editor shows the edited executive summary if truthy, else the record's own if truthy, else '' |
| Dashboard.EditedRecord | src/components/AnalysisDashboard.jsx:338-342 | (1) with no edited summary, the export is the shown record; (2) otherwise only the summary changes, and it holds just the edited fields, so the takeaways are gone and the executive summary, recommendation and justification are exactly the edited ones (missing when not edited) |
| Dashboard.MergedRecord | src/components/AnalysisDashboard.jsx:338-342 | (1) edited summary fields replace the originals; (2) every other field of the record and of its summary is kept; (3) with no edits, it is the record itself |
| Dashboard.EditedExportDropsRecommendation | src/components/AnalysisDashboard.jsx:328-342 | after editing only the executive summary, the exported record has no recommendation; its Markdown section 5 is exactly "Pending" with no justification, and a Word page built from it says "Pending" |
| Dashboard.MergedExportKeepsRecommendation | src/components/AnalysisDashboard.jsx:320 | the same edit on the merged record keeps the original recommendation section in Markdown and the original recommendation in the Word page |
| Dashboard.MergedEditChangesOnlyParagraph | src/components/AnalysisDashboard.jsx:320-328 | with the merged record, an executive-summary edit changes only the executive paragraph of the Markdown report |
| Dashboard.EditorShowsTypedText | src/components/AnalysisDashboard.jsx:320-321 | after typing a non-empty text, the editor shows exactly that text |
| Dashboard.ClearedEditorShowsOriginal | src/components/AnalysisDashboard.jsx:320-321 | after clearing the editor, it shows the original summary again, while the export carries the empty text |
| Dashboard.ResetRestoresRecord | src/components/AnalysisDashboard.jsx:85-88 | after a reset, the editor shows the record's own summary and both export records are the record itself |
| Dashboard.AnalysisDashboard.constructor | src/components/AnalysisDashboard.jsx:45-51 | the dashboard opens on the summary tab, with no edits and the edit panel closed |
| Dashboard.AnalysisDashboard.SelectTab | src/components/AnalysisDashboard.jsx:365 | clicking a tab makes it active and changes nothing else |
| Dashboard.AnalysisDashboard.ToggleEditMode | src/components/AnalysisDashboard.jsx:292 | the Edit button flips the panel and keeps the edits |
| Dashboard.AnalysisDashboard.HandleEditSummary | src/components/AnalysisDashboard.jsx:75-83 | one summary field takes the value; every other edited field and top-level key is kept |
| Dashboard.AnalysisDashboard.HandleResetEdits | src/components/AnalysisDashboard.jsx:85-88 | the edits become `{}` and edit mode is off |
| Dashboard.AnalysisDashboard.CurrentEditorText | src/components/AnalysisDashboard.jsx:320 | the editor's text for the current state |
| Dashboard.AnalysisDashboard.EditedExportRecord | src/components/AnalysisDashboard.jsx:338-342 | the edited exports carry the shown record with its summary replaced by the edited fields, or the shown record when nothing was edited |
| Dashboard.AnalysisDashboard.ExportEditedMarkdown | src/components/AnalysisDashboard.jsx:328-329 | the edited Markdown export is the report of that replaced record, and is never the error text |
| Dashboard.AnalysisDashboard.ExportMarkdown | src/components/AnalysisDashboard.jsx:56-64 | the plain Markdown export is the report of the shown record, and is never the error text |
| Dashboard.Step | src/components/AnalysisDashboard.jsx:94 | `value?.[key]` is undefined on undefined and on null; on an object it is defined exactly for its own keys; a string's `length` is its number of UTF-16 code units, and its index yields a one-character string taken from it |
| Dashboard.StringStepsCountCodeUnits | src/components/AnalysisDashboard.jsx:94 | "😀" has length 2 and "a😀b" length 4, and index 3 of "a😀b" is "b", as JavaScript counts them |
| Dashboard.Walk | src/components/AnalysisDashboard.jsx:93-96 | the empty path yields the root; an undefined root stays undefined |
| Dashboard.WalkPrefixUndefined | src/components/AnalysisDashboard.jsx:93-96 | once a step is undefined, the whole walk is undefined |
| Dashboard.WalkAppend | src/components/AnalysisDashboard.jsx:93-96 | walking a path in two parts equals walking it at once |
| Dashboard.UndefinedStepGivesDefault | src/components/AnalysisDashboard.jsx:95 | any undefined step makes `getDisplayValue` return the default |
| Dashboard.DisplayValue | src/components/AnalysisDashboard.jsx:90-98 | the result is truthy or the default; anything but the default is the value the path leads to; and a truthy value at the end of the path is returned |
| Dashboard.GetDisplayValue | src/components/AnalysisDashboard.jsx:90-98 | the loop returns the value at the end of the path when it is truthy, and the default otherwise |
| PdfViewer.PageText | src/components/PDFViewer.jsx:46 | a page's text is its items joined with single spaces: as long as the items plus one space between each pair |
| PdfViewer.PageCount | src/components/PDFViewer.jsx:48-54 | a page contributes entries exactly when its lower-cased text contains the lower-cased query, and never more than fit without overlapping |
| PdfViewer.PageCountIsOccurrences | src/components/PDFViewer.jsx:48-54 | the `includes` guard never hides a match: a page contributes exactly its count of case-insensitive, non-overlapping occurrences |
| PdfViewer.PageMatches | src/components/PDFViewer.jsx:56-58 | a page's entries are (page, 0), …, (page, count − 1) |
| PdfViewer.AllMatches | src/components/PDFViewer.jsx:43-60 | every entry of the match list names one of the pages searched |
| PdfViewer.AllMatchesLength | src/components/PDFViewer.jsx:43-60 | the match list is as long as the sum of the page counts |
| PdfViewer.AllMatchesSound | src/components/PDFViewer.jsx:43-60 | every entry names an existing page and a hit that page has |
| PdfViewer.AllMatchesComplete | src/components/PDFViewer.jsx:43-60 | every hit of every page has an entry |
| PdfViewer.AllMatchesSorted | src/components/PDFViewer.jsx:43-60 | the entries are in strictly ascending (page, hit) order, so no entry repeats |
| PdfViewer.BuildMatches | src/components/PDFViewer.jsx:43-60 | the nested loops build exactly the specified match list |
| PdfViewer.NextIndex | src/components/PDFViewer.jsx:82-86 | next stays in range, moves one forward, and wraps from the last match to the first |
| PdfViewer.PrevIndex | src/components/PDFViewer.jsx:88-92 | prev stays in range, moves one back, and wraps from the first match to the last |
| PdfViewer.NavigationInverse | src/components/PDFViewer.jsx:82-92 | prev after next, and next after prev, both return to the same match |
| PdfViewer.NextTimesShifts | src/components/PDFViewer.jsx:82-86 | k ≤ n presses of next move k matches on, wrapping once |
| PdfViewer.NextVisitsEveryMatch | src/components/PDFViewer.jsx:82-86 | n presses of next return to the start, and every match is reached within n presses |
| PdfViewer.ZoomedIn | src/components/PDFViewer.jsx:173 | zooming in adds a tenth, never beyond 2.0 |
| PdfViewer.ZoomedOut | src/components/PDFViewer.jsx:166 | zooming out removes a tenth, never below 0.5 |
| PdfViewer.ZoomRoundTrip | src/components/PDFViewer.jsx:166-173 | zooming in and then out, below the maximum, restores the scale |
| PdfViewer.TriggerFor | src/components/PDFViewer.jsx:70-79 | (1) searches exactly for text longer than 2 UTF-16 code units with a document loaded; (2) clears exactly for empty text; (3) does nothing otherwise |
| PdfViewer.TriggerCountsCodeUnits | src/components/PDFViewer.jsx:72 | two emoji (four code units) search, two letters do nothing |
| PdfViewer.PdfViewer.constructor | src/components/PDFViewer.jsx:13-22 | the initial state: no document, no search, scale 1.0 |
| PdfViewer.PdfViewer.OnFileChange | src/components/PDFViewer.jsx:25-29 | a new file clears the matches, the search text and the index; the loaded document stays |
| PdfViewer.PdfViewer.OnDocumentLoadSuccess | src/components/PDFViewer.jsx:31-34 | the document and its page count are kept |
| PdfViewer.PdfViewer.SetSearchText | src/components/PDFViewer.jsx:140 | typing changes only the search text |
| PdfViewer.PdfViewer.ToggleSearch | src/components/PDFViewer.jsx:127 | the search box opens or closes; nothing else changes |
| PdfViewer.PdfViewer.PerformSearch | src/components/PDFViewer.jsx:36-67 | (1) a no-op for an empty query or no document; (2) otherwise the matches become the document's match list; (3) the index becomes 0 when there are matches |
| PdfViewer.PdfViewer.SearchTimerFired | src/components/PDFViewer.jsx:70-79 | the debounced effect searches, clears or does nothing, as the trigger rule says |
| PdfViewer.PdfViewer.NextMatch | src/components/PDFViewer.jsx:82-86 | a no-op without matches; otherwise the index becomes the next one, and it stays in range |
| PdfViewer.PdfViewer.PrevMatch | src/components/PDFViewer.jsx:88-92 | a no-op without matches; otherwise the index becomes the previous one, and it stays in range |
| PdfViewer.PdfViewer.ZoomIn | src/components/PDFViewer.jsx:172-174 | the scale takes one zoom-in step and stays within 0.5–2.0 |
| PdfViewer.PdfViewer.ZoomOut | src/components/PDFViewer.jsx:165-167 | the scale takes one zoom-out step and stays within 0.5–2.0 |

## Left out

- Downloads are browser I/O and are not modelled: `downloadFile`, `downloadAsWord` (a POST to a remote rendering service), `htmlToText` and `simplifyText`. The exports are modelled up to the text they hand over.
- Rendering is not modelled: JSX markup, CSS classes beyond the colour families, the charts, `SourceBadge` and the PDF page canvases.
- The match highlighter (`textRenderer`, PDFViewer.jsx:106-118) splits each text item separately, so a match across two items is counted but not highlighted. Scrolling to a match (`querySelectorAll`, `scrollIntoView`) is DOM work and is left out too.
- Concurrency is not modelled. `performSearch` awaits each page, and the model reads the pages in one step.
  - A file change or a new query while a search runs is not modelled.
  - Neither is the `isIndexing` flag, which is true only during that wait.
- Timers are methods the environment calls (`SearchTimerFired`, `SavedTimerFired`). Cancelling a pending timer is not modelled.
- Numbers are exact reals.
  - Floating-point rounding is not modelled. In particular the zoom steps of 0.1 are kept in exact tenths.
  - `parseFloat` handles only sign, digits and one decimal point. Exponents, leading whitespace and `Infinity` are not modelled.
- JsStrings.Lower: case folding covers ASCII letters only. `toLowerCase` and the regex `i` flag fold more of Unicode.
- JsStrings.Upper: case mapping covers ASCII letters only, so a 5Cs key with other letters is upper-cased differently than `toUpperCase` does.
- JsNumbers.StringToNumber: exponents, hexadecimal, binary and octal literals, and `Infinity` give NaN here, while `Number` reads them as numbers.
- Sensitivity.SensitivityView.Load: a truthy `financial_metrics` that is not an array (an object or a string) throws at SensitivityAnalysis.jsx:31. The record type cannot hold such a value, so `Load` does not model that throw.
- Sensitivity.SensitivityView.Load: an exception in the load effect propagates out of React's effect. The model returns it as `failed` with both records unchanged; what React does next is not modelled.
- Dashboard.Step: inherited properties of built-in prototypes (`toString`, `constructor`, …) are not modelled and read as undefined.
- Dashboard.Step: an index that falls on either half of a surrogate pair yields the whole astral character, since a string here cannot hold a lone surrogate; JavaScript yields the lone surrogate, a one-unit string. Both are truthy, so `DisplayValue` decides alike.
- Dashboard.GetDisplayValue walks a generic JSON value. The conversion of the analysis record to JSON is not modelled, and the function has no caller in the source.
- Dashboard.DisplayData: the bundled sample record (`src/data/mockAnalysis.json`) is not part of this model and is a parameter.
- The mock analysis data and the `AuthContext`, `Login`, `Sidebar`, `Header`, `FileUpload`, `ReportEditor` and `App` components are not part of this model.
- Values in settings are numbers, booleans, strings or null. Stored JSON of another shape (arrays, nested objects, a non-object section) is not modelled.
- Parsing invalid stored JSON (which throws at start-up) is not modelled.
- The sensitivity view's computed chart data (SensitivityAnalysis.jsx:80-91) only restates the two metric records, so it is not modelled separately.

## Findings

| source | as written | input that shows it | evidently intended | confidence | as-written member | corrected member |
|---|---|---|---|---|---|---|
| src/components/SensitivityAnalysis.jsx:65 | The fallback thresholds name the liquidity threshold `liquidity`, but line 68 reads `thresholds.liquidityRatio`. That is undefined, so `metrics.liquidity < undefined` is always false. | Settings without `riskThresholds`, with liquidity 0.5 and the other figures at their defaults: Low Risk (score 0) instead of Medium Risk (score 2). See `Sensitivity.WrittenFallbackMissesLowLiquidity`. | The fallback supplies `liquidityRatio: 1.0`, as the default settings do. | not executed; high | Sensitivity.WrittenFallbackIgnoresLiquidity | Sensitivity.CorrectedFallbackMatchesDefaults |
| src/components/AnalysisDashboard.jsx:338-342 | The edited exports pass `{ ...displayData, summary: editedData.summary }`. The summary holding only the edited fields replaces the whole original summary. | Edit only the executive summary of a record recommending "Approve". The edited Markdown export then says "Pending" and loses the takeaways and justification, and the record sent for the Word download has no recommendation. See `Dashboard.EditedExportDropsRecommendation`. | Merge the edits into the original summary, as the dashboard's editor text does for the executive summary. | not executed; medium | Dashboard.EditedRecord | Dashboard.MergedRecord |
