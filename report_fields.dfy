/**
 * Field rules of the report exporters (src/api.js) that both the Markdown
 * and the Word HTML generator apply in the same way, and that the
 * dashboard shares: null-defaulting, the confidence label, the 5Cs text
 * priority, the unit suffix and the metric name.
 */
module ReportFields {
  import opened JsCore
  import opened JsStrings
  import opened JsNumbers
  import opened AnalysisRecord

  /** `safe(v, d)`: the default replaces only a missing (`undefined`/`null`) value. */
  function Safe<T>(v: Option<T>, default: T): (r: T)
    ensures v.Some? ==> r == v.value
    ensures v.None? ==> r == default
  {
    if v.None? then default else v.value
  }

  /**
   * `safe` and `||` disagree exactly on an empty string with a non-empty
   * default: `safe` keeps the `""`, `||` replaces it.
   */
  lemma SafeVersusOr(v: Option<string>, default: string)
    ensures Safe(v, default) == OrChain([v], default) <==> !(v == Some("") && default != "")
  {
    if v == Some("") && default != "" {
      assert OrChain([v], default) == default;
    }
  }

  /**
   * The confidence label: when `overall_confidence` is truthy, its rounded
   * percentage followed by `%`, which parses back to that percentage;
   * otherwise (missing, zero, NaN) the word "Draft".
   */
  function ConfidenceLabel(confidence: Option<Number>): (text: string)
    ensures text == "Draft" <==> !TruthyOptNumber(confidence)
    ensures TruthyOptNumber(confidence) ==>
              |text| > 0 && text[|text| - 1] == '%'
              && ParseFloat(text) == Finite(Round(confidence.value.r * 100.0) as real)
  {
    if TruthyOptNumber(confidence) then
      var percent := Round(confidence.value.r * 100.0);
      var shown := IntToString(percent) + "%";
      IntToStringParses(percent);
      PercentSignIgnored(percent);
      assert shown[|shown| - 1] == '%';
      assert shown != "Draft" by { assert "Draft"[4] == 't'; }
      shown
    else "Draft"
  }

  /** `parseFloat` stops at the `%` that follows a printed integer. */
  lemma PercentSignIgnored(i: int)
    ensures ParseFloat(IntToString(i) + "%") == ParseFloat(IntToString(i))
  {
    var digits := NatToString(if i < 0 then -i else i);
    var body := digits + "%";
    if i < 0 {
      assert IntToString(i) + "%" == "-" + body;
      assert ("-" + body)[1..] == body;
      assert IntToString(i)[1..] == digits;
    } else {
      assert IntToString(i) + "%" == body;
    }
    LeadingDigitsAppend(digits, "%");
    LeadingDigitsAppend(digits, "");
    assert digits + "" == digits;
    assert body[..|digits|] == digits;
  }

  /** A run of digits in front of some text adds its length to that text's digit run. */
  lemma {:induction false} LeadingDigitsAppend(digits: string, rest: string)
    requires AllDigits(digits)
    ensures LeadingDigits(digits + rest) == |digits| + LeadingDigits(rest)
  {
    if |digits| > 0 {
      assert (digits + rest)[1..] == digits[1..] + rest;
      assert (digits + rest)[0] == digits[0];
      LeadingDigitsAppend(digits[1..], rest);
    } else {
      assert digits + rest == rest;
    }
  }

  /** The four alternative text fields of a 5Cs entry, in priority order. */
  function Alternatives(a: Assessment): seq<Option<string>>
  {
    [a.assessment, a.equityPosition, a.loanPurpose, a.repaymentSource]
  }

  /**
   * The text of a 5Cs entry: the first truthy field among `assessment`,
   * `equity_position`, `loan_purpose`, `repayment_source`, otherwise
   * "No analysis provided."; it is never empty.
   */
  function FiveCsContent(a: Assessment): (content: string)
    ensures content != ""
    ensures (exists i :: 0 <= i < 4 && FirstTruthyAt(Alternatives(a), i) && content == Alternatives(a)[i].value)
         || ((forall i :: 0 <= i < 4 ==> !TruthyText(Alternatives(a)[i])) && content == "No analysis provided.")
  {
    OrChain(Alternatives(a), "No analysis provided.")
  }

  /** The suffix printed after a metric value. */
  function UnitSuffix(unit: Option<string>): (suffix: string)
    ensures suffix == "%" <==> unit == Some("%")
    ensures suffix == "x" <==> unit == Some("ratio")
    ensures suffix == "" <==> unit != Some("%") && unit != Some("ratio")
  {
    if unit == Some("%") then "%" else if unit == Some("ratio") then "x" else ""
  }

  /** `metric.label || metric.name` */
  function LabelOrName(m: Metric): Option<string>
  {
    if TruthyText(m.labelText) then m.labelText else m.name
  }

  /**
   * `[category, label || name].filter(Boolean).join(' - ') || 'Unknown Metric'`:
   * both parts joined when both are present, the present one alone, or
   * "Unknown Metric" when neither is.
   */
  function MetricName(m: Metric): (name: string)
    ensures TruthyText(m.category) && TruthyText(LabelOrName(m)) ==> name == m.category.value + " - " + LabelOrName(m).value
    ensures TruthyText(m.category) && !TruthyText(LabelOrName(m)) ==> name == m.category.value
    ensures !TruthyText(m.category) && TruthyText(LabelOrName(m)) ==> name == LabelOrName(m).value
    ensures !TruthyText(m.category) && !TruthyText(LabelOrName(m)) ==> name == "Unknown Metric"
    ensures name != ""
  {
    var kept := FilterTruthy([m.category, LabelOrName(m)]);
    FilterTruthyPair(m.category, LabelOrName(m));
    JoinEmptyIff(kept, " - ");
    var joined := Join(kept, " - ");
    assert |kept| == 2 ==> joined == Join(kept[..1], " - ") + " - " + kept[1];
    if joined == "" then "Unknown Metric" else joined
  }

  /** Filtering a pair keeps its truthy members in order. */
  lemma FilterTruthyPair(a: Option<string>, b: Option<string>)
    ensures FilterTruthy([a, b]) == (if TruthyText(a) then [a.value] else []) + (if TruthyText(b) then [b.value] else [])
  {
    assert [a, b][..1] == [a];
    assert [a][..0] == [];
    assert FilterTruthy([a]) == (if TruthyText(a) then [a.value] else []);
  }
}
