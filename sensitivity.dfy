/**
 * The sensitivity analysis view (src/components/SensitivityAnalysis.jsx):
 * metrics extracted from the analysis record by keyword, a scenario copy
 * the user adjusts, and the weighted-threshold risk classifier.
 */
module Sensitivity {
  import opened JsCore
  import opened JsStrings
  import opened JsNumbers
  import opened AnalysisRecord
  import opened SettingsStore

  /** The five figures the view works with. */
  datatype Metrics = Metrics(
    liquidity: Number,
    ebitdaMargin: Number,
    debtToEquity: Number,
    netProfitMargin: Number,
    cash: Number)

  /** `defaultMetrics`: used before (or instead of) loading from a record. */
  const DefaultMetrics: Metrics := Metrics(Finite(1.5), Finite(15.0), Finite(1.8), Finite(10.0), Finite(500000.0))

  // ---------------------------------------------------------------------
  // Metric extraction
  // ---------------------------------------------------------------------

  /**
   * The `find` callback: the metric's lower-cased label contains the
   * lower-cased keyword, or else its category does. Reading `label` of a
   * null metric, lower-casing a missing label, or (after a label miss) a
   * missing category throws a TypeError.
   */
  function MatchesKeyword(metric: Option<Metric>, keyword: string): (r: Outcome<bool>)
    ensures metric.None? || metric.value.labelText.None? ==> r.ThrewTypeError?
    ensures metric.Some? && metric.value.labelText.Some? && metric.value.category.Some? ==>
              r == Returned(Contains(Lower(metric.value.labelText.value), Lower(keyword))
                            || Contains(Lower(metric.value.category.value), Lower(keyword)))
    ensures r == Returned(true) ==>
              (metric.Some? && metric.value.labelText.Some?
               && (Contains(Lower(metric.value.labelText.value), Lower(keyword))
                   || (metric.value.category.Some? && Contains(Lower(metric.value.category.value), Lower(keyword)))))
  {
    if metric.None? || metric.value.labelText.None? then ThrewTypeError
    else if Contains(Lower(metric.value.labelText.value), Lower(keyword)) then Returned(true)
    else if metric.value.category.None? then ThrewTypeError
    else Returned(Contains(Lower(metric.value.category.value), Lower(keyword)))
  }

  /** No metric in positions `lo` up to `hi` matches, and none throws. */
  predicate NoMatchBetween(metrics: seq<Option<Metric>>, keyword: string, lo: int, hi: int)
  {
    forall j :: lo <= j < hi && 0 <= j < |metrics| ==> MatchesKeyword(metrics[j], keyword) == Returned(false)
  }

  /**
   * `metrics.find(...)` from position `i`: the first metric that matches,
   * `None` when no metric matches, or the TypeError of the first metric
   * whose test throws.
   */
  function FindFrom(metrics: seq<Option<Metric>>, keyword: string, i: nat): (r: Outcome<Option<Metric>>)
    requires i <= |metrics|
    decreases |metrics| - i
    ensures r == Returned(None) <==> NoMatchBetween(metrics, keyword, i, |metrics|)
    ensures r.Returned? && r.value.Some? ==>
              exists j :: i <= j < |metrics| && NoMatchBetween(metrics, keyword, i, j)
                          && MatchesKeyword(metrics[j], keyword) == Returned(true) && r.value == metrics[j]
    ensures r.ThrewTypeError? ==>
              exists j :: i <= j < |metrics| && NoMatchBetween(metrics, keyword, i, j)
                          && MatchesKeyword(metrics[j], keyword).ThrewTypeError?
  {
    if i == |metrics| then Returned(None)
    else
      match MatchesKeyword(metrics[i], keyword)
      case ThrewTypeError =>
        assert NoMatchBetween(metrics, keyword, i, i);
        ThrewTypeError
      case Returned(found) =>
        if found then
          assert NoMatchBetween(metrics, keyword, i, i);
          Returned(metrics[i])
        else
          FindFrom(metrics, keyword, i + 1)
  }

  /**
   * `getMetric(keyword)`: the value of the first matching metric, stripped
   * to `[0-9.-]` and parsed; `None` (null) when no metric matches. Calling
   * `toString` on a missing value throws.
   */
  function GetMetric(metrics: seq<Option<Metric>>, keyword: string): (r: Outcome<Option<Number>>)
    ensures r.ThrewTypeError? ==>
              exists j :: 0 <= j < |metrics| && NoMatchBetween(metrics, keyword, 0, j)
                          && (MatchesKeyword(metrics[j], keyword).ThrewTypeError?
                              || (MatchesKeyword(metrics[j], keyword) == Returned(true) && metrics[j].value.value.None?))
  {
    match FindFrom(metrics, keyword, 0)
    case ThrewTypeError => ThrewTypeError
    case Returned(found) =>
      if found.None? then Returned(None)
      else if found.value.value.None? then ThrewTypeError
      else Returned(Some(ParseFloat(StripNonNumeric(found.value.value.value))))
  }

  /**
   * What `getMetric` returns: a number parsed from the stripped value of the
   * first metric whose label or category contains the keyword (case
   * ignored), with every earlier metric tested and not matching; null
   * exactly when no metric matches.
   */
  lemma GetMetricUsesFirstMatch(metrics: seq<Option<Metric>>, keyword: string)
    ensures GetMetric(metrics, keyword) == Returned(None) <==> NoMatchBetween(metrics, keyword, 0, |metrics|)
    ensures GetMetric(metrics, keyword).Returned? && GetMetric(metrics, keyword).value.Some? ==>
              exists j :: 0 <= j < |metrics| && NoMatchBetween(metrics, keyword, 0, j)
                          && MatchesKeyword(metrics[j], keyword) == Returned(true)
                          && metrics[j].value.value.Some?
                          && GetMetric(metrics, keyword).value.value == ParseFloat(StripNonNumeric(metrics[j].value.value.value))
  {
    var found := FindFrom(metrics, keyword, 0);
    if found.Returned? && found.value.Some? {
      var j :| 0 <= j < |metrics| && NoMatchBetween(metrics, keyword, 0, j)
               && MatchesKeyword(metrics[j], keyword) == Returned(true) && found.value == metrics[j];
      if found.value.value.value.Some? {
        assert metrics[j].value.value.Some?;
      }
    }
  }

  /**
   * Keywords `lo` up to `hi` all fall through the `||` chain: each
   * `getMetric` returns without throwing, and returns null, zero or NaN.
   */
  predicate FallsThrough(metrics: seq<Option<Metric>>, keywords: seq<string>, lo: int, hi: int)
  {
    forall k :: lo <= k < hi && 0 <= k < |keywords| ==>
      GetMetric(metrics, keywords[k]).Returned? && !TruthyOptNumber(GetMetric(metrics, keywords[k]).value)
  }

  /** Once keyword `i` falls through, the chain from `i` falls through as far as the chain from `i + 1`. */
  lemma FallsThroughFrom(metrics: seq<Option<Metric>>, keywords: seq<string>, i: nat)
    requires FallsThrough(metrics, keywords, i, i + 1)
    ensures forall k :: i < k ==> (FallsThrough(metrics, keywords, i, k) <==> FallsThrough(metrics, keywords, i + 1, k))
  {
  }

  /**
   * `getMetric(k0) || getMetric(k1) || ... || default`, evaluated from
   * keyword `i`: the result of the first keyword whose `getMetric` is
   * truthy, every earlier one falling through; the default when all fall
   * through; a TypeError exactly when some `getMetric` throws before any
   * truthy one.
   */
  function LoadField(metrics: seq<Option<Metric>>, keywords: seq<string>, i: nat, default: real): (r: Outcome<Number>)
    requires i <= |keywords|
    decreases |keywords| - i
    ensures r.Returned? ==> r.value == Finite(default) || TruthyNumber(r.value)
    ensures FallsThrough(metrics, keywords, i, |keywords|) ==> r == Returned(Finite(default))
    ensures r.Returned? && !FallsThrough(metrics, keywords, i, |keywords|) ==>
              exists k :: i <= k < |keywords| && FallsThrough(metrics, keywords, i, k)
                          && GetMetric(metrics, keywords[k]) == Returned(Some(r.value)) && TruthyNumber(r.value)
    ensures r.ThrewTypeError? <==>
              exists k :: i <= k < |keywords| && FallsThrough(metrics, keywords, i, k)
                          && GetMetric(metrics, keywords[k]).ThrewTypeError?
  {
    if i == |keywords| then Returned(Finite(default))
    else
      match GetMetric(metrics, keywords[i])
      case ThrewTypeError =>
        assert FallsThrough(metrics, keywords, i, i);
        ThrewTypeError
      case Returned(v) =>
        if TruthyOptNumber(v) then
          assert FallsThrough(metrics, keywords, i, i);
          assert !FallsThrough(metrics, keywords, i, |keywords|);
          Returned(v.value)
        else
          assert FallsThrough(metrics, keywords, i, i + 1);
          FallsThroughFrom(metrics, keywords, i);
          LoadField(metrics, keywords, i + 1, default)
  }

  /**
   * `loadedMetrics`: each field by its keyword chain and default;
   * liquidity tries "Current Ratio" before "Liquidity". Every loaded field
   * is a non-zero number, never NaN.
   */
  function LoadedMetrics(metrics: seq<Option<Metric>>): (r: Outcome<Metrics>)
    ensures r.Returned? ==>
              TruthyNumber(r.value.liquidity) && TruthyNumber(r.value.ebitdaMargin) && TruthyNumber(r.value.debtToEquity)
              && TruthyNumber(r.value.netProfitMargin) && TruthyNumber(r.value.cash)
  {
    var liquidity := LoadField(metrics, ["Current Ratio", "Liquidity"], 0, 1.5);
    var ebitda := LoadField(metrics, ["EBITDA"], 0, 15.0);
    var leverage := LoadField(metrics, ["Debt-to-Equity"], 0, 1.8);
    var netProfit := LoadField(metrics, ["Net Profit"], 0, 10.0);
    var cash := LoadField(metrics, ["Cash"], 0, 500000.0);
    if liquidity.ThrewTypeError? || ebitda.ThrewTypeError? || leverage.ThrewTypeError?
       || netProfit.ThrewTypeError? || cash.ThrewTypeError? then ThrewTypeError
    else Returned(Metrics(liquidity.value, ebitda.value, leverage.value, netProfit.value, cash.value))
  }

  /** A record with an empty metric list loads the default metrics. */
  lemma EmptyMetricListLoadsDefaults()
    ensures LoadedMetrics([]) == Returned(DefaultMetrics)
  {
  }

  // ---------------------------------------------------------------------
  // Risk classification
  // ---------------------------------------------------------------------

  /**
   * A threshold value as the comparison operators see it: `null` is 0, a
   * boolean is 0 or 1, text is `Number(text)`.
   */
  function ThresholdNumber(v: Setting): (n: Number)
    ensures v.Num? ==> n == v.n
    ensures v == Null || v == Flag(false) ==> n == Finite(0.0)
    ensures v == Flag(true) ==> n == Finite(1.0)
    ensures v.Text? ==> n == StringToNumber(v.s)
  {
    match v
    case Num(n) => n
    case Flag(b) => Finite(if b then 1.0 else 0.0)
    case Null => Finite(0.0)
    case Text(t) => StringToNumber(t)
  }

  /** A threshold key: a missing one is `undefined`, which no comparison satisfies. */
  function Threshold(thresholds: Section, key: string): (n: Number)
    ensures key in thresholds ==> n == ThresholdNumber(thresholds[key])
    ensures key !in thresholds ==> forall x :: !Less(x, n) && !Greater(x, n)
  {
    if key in thresholds then ThresholdNumber(thresholds[key]) else NaN
  }

  /** A threshold stored as the text of an integer compares as that integer does. */
  lemma TextThresholdComparesAsNumber(i: int)
    ensures ThresholdNumber(Text(IntToString(i))) == ThresholdNumber(Num(Finite(i as real)))
  {
    IntToStringToNumber(i);
  }

  /**
   * A stored debt-to-equity threshold of "2" (text) still scores a
   * debt-to-equity of 3, and a blank one acts as 0.
   */
  lemma TextThresholdsScore()
    ensures RiskScore(DefaultMetrics.(debtToEquity := Finite(3.0)), map["debtToEquity" := Text("2")]) == 2
    ensures RiskScore(DefaultMetrics, map["debtToEquity" := Text("")]) == 2
  {
    IntToStringToNumber(2);
    assert IntToString(2) == "2";
  }

  /** The fallback thresholds exactly as written: the liquidity key is `liquidity`. */
  const WrittenFallback: Section := map[
    "debtToEquity" := Num(Finite(2.5)),
    "liquidity" := Num(Finite(1.0)),
    "netProfitMargin" := Num(Finite(5.0))]

  /** The fallback thresholds with the key the classifier reads, `liquidityRatio`. */
  const CorrectedFallback: Section := map[
    "debtToEquity" := Num(Finite(2.5)),
    "liquidityRatio" := Num(Finite(1.0)),
    "netProfitMargin" := Num(Finite(5.0))]

  /** `settings?.riskThresholds || fallback`, with the fallback as written. */
  function WrittenThresholds(settings: Settings): (thresholds: Section)
    ensures "riskThresholds" in settings ==> thresholds == settings["riskThresholds"]
    ensures "riskThresholds" !in settings ==> "liquidityRatio" !in thresholds
  {
    if "riskThresholds" in settings then settings["riskThresholds"] else WrittenFallback
  }

  /** `settings?.riskThresholds || fallback`, with the corrected fallback. */
  function CorrectedThresholds(settings: Settings): (thresholds: Section)
    ensures "riskThresholds" in settings ==> thresholds == settings["riskThresholds"]
    ensures "riskThresholds" !in settings ==> thresholds == DefaultSettings["riskThresholds"]
  {
    if "riskThresholds" in settings then settings["riskThresholds"] else CorrectedFallback
  }

  /**
   * The risk score: +2 when debt-to-equity is above its threshold, +2 when
   * liquidity is below `liquidityRatio`, +1 when the EBITDA margin is below
   * the fixed 10, +1 when the net profit margin is below its threshold.
   */
  function RiskScore(m: Metrics, thresholds: Section): (score: nat)
    ensures score <= 6
  {
    (if Greater(m.debtToEquity, Threshold(thresholds, "debtToEquity")) then 2 else 0)
    + (if Less(m.liquidity, Threshold(thresholds, "liquidityRatio")) then 2 else 0)
    + (if Less(m.ebitdaMargin, Finite(10.0)) then 1 else 0)
    + (if Less(m.netProfitMargin, Threshold(thresholds, "netProfitMargin")) then 1 else 0)
  }

  datatype Tier = LowRisk | MediumRisk | HighRisk

  /** The tier of a score: High from 4, Medium from 2, Low below. */
  function TierOf(score: int): (tier: Tier)
    ensures tier == HighRisk <==> score >= 4
    ensures tier == MediumRisk <==> 2 <= score < 4
    ensures tier == LowRisk <==> score < 2
  {
    if score >= 4 then HighRisk else if score >= 2 then MediumRisk else LowRisk
  }

  function TierRank(tier: Tier): nat
  {
    match tier
    case LowRisk => 0
    case MediumRisk => 1
    case HighRisk => 2
  }

  /** The object `calculateRisk` returns: its `label` and the classes it is shown with. */
  datatype Risk = Risk(labelText: string, color: string, bg: string, border: string)

  function Presentation(tier: Tier): Risk
  {
    match tier
    case HighRisk => Risk("High Risk", "text-rose-600", "bg-rose-100", "border-rose-200")
    case MediumRisk => Risk("Medium Risk", "text-amber-600", "bg-amber-100", "border-amber-200")
    case LowRisk => Risk("Low Risk", "text-emerald-600", "bg-emerald-100", "border-emerald-200")
  }

  /**
   * `calculateRisk(metrics)`: accumulates the score term by term and returns
   * the presentation of its tier; "High Risk" exactly from score 4,
   * "Medium Risk" exactly from 2 to 3, "Low Risk" otherwise.
   */
  method CalculateRisk(metrics: Metrics, settings: Settings) returns (risk: Risk)
    ensures risk == Presentation(TierOf(RiskScore(metrics, WrittenThresholds(settings))))
    ensures risk.labelText == "High Risk" <==> RiskScore(metrics, WrittenThresholds(settings)) >= 4
    ensures risk.labelText == "Medium Risk" <==> 2 <= RiskScore(metrics, WrittenThresholds(settings)) < 4
    ensures risk.labelText == "Low Risk" <==> RiskScore(metrics, WrittenThresholds(settings)) < 2
  {
    var riskScore := 0;
    var thresholds := WrittenThresholds(settings);
    if Greater(metrics.debtToEquity, Threshold(thresholds, "debtToEquity")) {
      riskScore := riskScore + 2;
    }
    if Less(metrics.liquidity, Threshold(thresholds, "liquidityRatio")) {
      riskScore := riskScore + 2;
    }
    if Less(metrics.ebitdaMargin, Finite(10.0)) {
      riskScore := riskScore + 1;
    }
    if Less(metrics.netProfitMargin, Threshold(thresholds, "netProfitMargin")) {
      riskScore := riskScore + 1;
    }
    if riskScore >= 4 {
      return Risk("High Risk", "text-rose-600", "bg-rose-100", "border-rose-200");
    }
    if riskScore >= 2 {
      return Risk("Medium Risk", "text-amber-600", "bg-amber-100", "border-amber-200");
    }
    return Risk("Low Risk", "text-emerald-600", "bg-emerald-100", "border-emerald-200");
  }

  /** `x` is at least `y`: equal, or both numbers and ordered. */
  predicate AtLeast(x: Number, y: Number)
  {
    x == y || (x.Finite? && y.Finite? && x.r >= y.r)
  }

  /** `a` is no safer than `b`: more leverage, less liquidity, lower margins. */
  predicate NoSaferThan(a: Metrics, b: Metrics)
  {
    AtLeast(a.debtToEquity, b.debtToEquity) && AtLeast(b.liquidity, a.liquidity)
    && AtLeast(b.ebitdaMargin, a.ebitdaMargin) && AtLeast(b.netProfitMargin, a.netProfitMargin)
  }

  /**
   * Monotonicity: raising debt-to-equity or lowering liquidity or either
   * margin never lowers the score, and so never lowers the tier.
   */
  lemma RiskMonotone(a: Metrics, b: Metrics, thresholds: Section)
    requires NoSaferThan(a, b)
    ensures RiskScore(a, thresholds) >= RiskScore(b, thresholds)
    ensures TierRank(TierOf(RiskScore(a, thresholds))) >= TierRank(TierOf(RiskScore(b, thresholds)))
  {
  }

  /** The default metrics score 0 under the default thresholds: "Low Risk". */
  lemma DefaultMetricsAreLowRisk()
    ensures RiskScore(DefaultMetrics, WrittenThresholds(DefaultSettings)) == 0
    ensures TierOf(RiskScore(DefaultMetrics, WrittenThresholds(DefaultSettings))) == LowRisk
  {
    assert WrittenThresholds(DefaultSettings) == DefaultSettings["riskThresholds"];
  }

  /**
   * The three classification examples under the default thresholds: the
   * defaults score 0; a liquidity of 0.5 alone scores 2 ("Medium Risk");
   * breaching all four thresholds scores 6 ("High Risk").
   */
  lemma ClassificationExamples()
    ensures RiskScore(Metrics(Finite(1.5), Finite(15.0), Finite(1.8), Finite(10.0), NaN), DefaultSettings["riskThresholds"]) == 0
    ensures RiskScore(Metrics(Finite(0.5), Finite(15.0), Finite(1.8), Finite(10.0), NaN), DefaultSettings["riskThresholds"]) == 2
    ensures TierOf(RiskScore(Metrics(Finite(0.5), Finite(15.0), Finite(1.8), Finite(10.0), NaN), DefaultSettings["riskThresholds"])) == MediumRisk
    ensures RiskScore(Metrics(Finite(0.5), Finite(5.0), Finite(3.0), Finite(2.0), NaN), DefaultSettings["riskThresholds"]) == 6
    ensures TierOf(RiskScore(Metrics(Finite(0.5), Finite(5.0), Finite(3.0), Finite(2.0), NaN), DefaultSettings["riskThresholds"])) == HighRisk
  {
  }

  /**
   * As written, when no thresholds are configured the liquidity term never
   * contributes: the fallback has no `liquidityRatio` key, so the
   * comparison is with `undefined` and always false.
   */
  lemma WrittenFallbackIgnoresLiquidity(m: Metrics, settings: Settings)
    requires "riskThresholds" !in settings
    ensures !Less(m.liquidity, Threshold(WrittenThresholds(settings), "liquidityRatio"))
    ensures forall x :: RiskScore(m.(liquidity := x), WrittenThresholds(settings)) == RiskScore(m, WrittenThresholds(settings))
  {
  }

  /**
   * The input that shows it: with no thresholds configured, a liquidity of
   * 0.5 (far below the 1.0 the fallback lists) is still "Low Risk".
   */
  lemma WrittenFallbackMissesLowLiquidity()
    ensures RiskScore(Metrics(Finite(0.5), Finite(15.0), Finite(1.8), Finite(10.0), Finite(500000.0)), WrittenThresholds(map[])) == 0
    ensures RiskScore(Metrics(Finite(0.5), Finite(15.0), Finite(1.8), Finite(10.0), Finite(500000.0)), CorrectedThresholds(map[])) == 2
  {
  }

  /**
   * With the corrected fallback, missing thresholds classify every scenario
   * exactly as the default settings do.
   */
  lemma CorrectedFallbackMatchesDefaults(m: Metrics, settings: Settings)
    requires "riskThresholds" !in settings
    ensures RiskScore(m, CorrectedThresholds(settings)) == RiskScore(m, CorrectedThresholds(DefaultSettings))
  {
    assert CorrectedThresholds(settings) == DefaultSettings["riskThresholds"];
  }

  // ---------------------------------------------------------------------
  // View state
  // ---------------------------------------------------------------------

  /** The fields a slider can set. */
  datatype Field = Liquidity | EbitdaMargin | DebtToEquity | NetProfitMargin | Cash

  function Get(m: Metrics, f: Field): Number
  {
    match f
    case Liquidity => m.liquidity
    case EbitdaMargin => m.ebitdaMargin
    case DebtToEquity => m.debtToEquity
    case NetProfitMargin => m.netProfitMargin
    case Cash => m.cash
  }

  /** `{ ...m, [f]: v }`: the named field takes `v`, every other field is kept. */
  function With(m: Metrics, f: Field, v: Number): (r: Metrics)
    ensures Get(r, f) == v
    ensures forall g :: g != f ==> Get(r, g) == Get(m, g)
  {
    match f
    case Liquidity => m.(liquidity := v)
    case EbitdaMargin => m.(ebitdaMargin := v)
    case DebtToEquity => m.(debtToEquity := v)
    case NetProfitMargin => m.(netProfitMargin := v)
    case Cash => m.(cash := v)
  }

  /** The view's two metric records: the loaded baseline and the adjusted scenario. */
  class SensitivityView {
    var baseMetrics: Metrics
    var scenarios: Metrics

    /** Both records start as the default metrics. */
    constructor()
      ensures baseMetrics == DefaultMetrics && scenarios == DefaultMetrics
    {
      baseMetrics := DefaultMetrics;
      scenarios := DefaultMetrics;
    }

    /**
     * The load effect: when the record has a metric list, both records
     * become the loaded metrics. Without a list nothing changes; when
     * extraction throws, `failed` reports the exception that leaves the
     * effect, and neither record has been set.
     */
    method Load(data: Option<Record>) returns (failed: bool)
      modifies this
      ensures (data.None? || data.value.financialMetrics.None?) ==>
                !failed && baseMetrics == old(baseMetrics) && scenarios == old(scenarios)
      ensures data.Some? && data.value.financialMetrics.Some? ==>
                match LoadedMetrics(data.value.financialMetrics.value)
                case Returned(loaded) => !failed && baseMetrics == loaded && scenarios == loaded
                case ThrewTypeError => failed && baseMetrics == old(baseMetrics) && scenarios == old(scenarios)
    {
      failed := false;
      if data.Some? && data.value.financialMetrics.Some? {
        var loaded := LoadedMetrics(data.value.financialMetrics.value);
        if loaded.ThrewTypeError? {
          failed := true;
        } else {
          baseMetrics := loaded.value;
          scenarios := loaded.value;
        }
      }
    }

    /** `handleChange(field, text)`: the scenario field takes `parseFloat(text)`; nothing else changes. */
    method HandleChange(f: Field, text: string)
      modifies this
      ensures scenarios == With(old(scenarios), f, ParseFloat(text))
      ensures baseMetrics == old(baseMetrics)
    {
      scenarios := With(scenarios, f, ParseFloat(text));
    }

    /** `resetValues`: the scenario becomes the baseline again. */
    method ResetValues()
      modifies this
      ensures scenarios == baseMetrics
      ensures baseMetrics == old(baseMetrics)
    {
      scenarios := baseMetrics;
    }
  }
}
