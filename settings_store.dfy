/**
 * The process-wide settings store (src/context/AnalysisContext.jsx): risk
 * thresholds, report preferences and API settings, kept in memory and
 * mirrored to durable storage under the key `appSettings`.
 *
 * Settings are a JSON object of sections, each a JSON object of values. The
 * stored copy is modelled as the settings that parsing it back would give:
 * writing to storage goes through `JSON.stringify`, which turns NaN into
 * `null`.
 */
module SettingsStore {
  import opened JsCore

  /** A value inside a settings section. */
  datatype Setting = Num(n: Number) | Flag(b: bool) | Text(s: string) | Null

  type Section = map<string, Setting>

  type Settings = map<string, Section>

  /** `defaultSettings`: the values used when nothing is stored. */
  const DefaultSettings: Settings := map[
    "riskThresholds" := map[
      "liquidityRatio" := Num(Finite(1.0)),
      "debtToEquity" := Num(Finite(2.5)),
      "netProfitMargin" := Num(Finite(5.0))],
    "reportPreferences" := map[
      "include5Cs" := Flag(true),
      "includeRiskAssessment" := Flag(true),
      "includeExecutiveSummary" := Flag(true)],
    "apiSettings" := map[
      "model" := Text("meta-llama/llama-4-scout-17b-16e-instruct"),
      "apiKey" := Text("")]]

  /**
   * `{ ...current, ...update }`: every section named in the update replaces
   * the current one whole (a partial section drops the keys it omits); the
   * other sections are kept.
   */
  function Merge(current: Settings, update: Settings): (merged: Settings)
    ensures merged.Keys == current.Keys + update.Keys
    ensures forall k :: k in update ==> merged[k] == update[k]
    ensures forall k :: k in current && k !in update ==> merged[k] == current[k]
  {
    current + update
  }

  /** Merging an empty update changes nothing. */
  lemma MergeEmpty(s: Settings)
    ensures Merge(s, map[]) == s
  {
  }

  /** Applying the same update twice is applying it once. */
  lemma MergeIdempotent(s: Settings, update: Settings)
    ensures Merge(Merge(s, update), update) == Merge(s, update)
  {
  }

  /** An update that names every current section replaces the settings outright. */
  lemma MergeCoveringUpdate(s: Settings, update: Settings)
    requires s.Keys <= update.Keys
    ensures Merge(s, update) == update
  {
  }

  /** What `JSON.stringify` keeps of a value: NaN is written as `null`. */
  function PersistedValue(v: Setting): (p: Setting)
    ensures p == v <==> v != Num(NaN)
  {
    if v == Num(NaN) then Null else v
  }

  /** The settings that parsing the stored JSON text gives back. */
  function Persisted(s: Settings): (p: Settings)
    ensures p.Keys == s.Keys
    ensures forall k :: k in s ==> p[k].Keys == s[k].Keys
    ensures forall k, key :: k in s && key in s[k] ==> p[k][key] == PersistedValue(s[k][key])
  {
    map k | k in s :: map key | key in s[k] :: PersistedValue(s[k][key])
  }

  predicate HasNaN(s: Settings)
  {
    exists k, key :: k in s && key in s[k] && s[k][key] == Num(NaN)
  }

  /**
   * The stored copy reads back as the in-memory settings exactly when no
   * value is NaN (a cleared number field stores `parseFloat('')`).
   */
  lemma PersistedRoundTrip(s: Settings)
    ensures Persisted(s) == s <==> !HasNaN(s)
  {
    if HasNaN(s) {
      var k, key :| k in s && key in s[k] && s[k][key] == Num(NaN);
      assert Persisted(s)[k][key] == Null;
    } else {
      forall k | k in s
        ensures Persisted(s)[k] == s[k]
      {
      }
    }
  }

  /** Writing the stored copy again changes nothing. */
  lemma PersistedIdempotent(s: Settings)
    ensures Persisted(Persisted(s)) == Persisted(s)
  {
    PersistedRoundTrip(Persisted(s));
  }

  /** The settings state of `AnalysisProvider` and its stored copy. */
  class AnalysisStore {
    var settings: Settings
    /** `localStorage['appSettings']`, as the settings it parses to; `None` when nothing is stored. */
    var stored: Option<Settings>

    /**
     * The lazy initial state: the stored settings when there are any,
     * otherwise the defaults; nothing is written.
     */
    constructor(saved: Option<Settings>)
      ensures settings == (if saved.Some? then saved.value else DefaultSettings)
      ensures stored == saved
    {
      settings := if saved.Some? then saved.value else DefaultSettings;
      stored := saved;
    }

    /** `updateSettings`: merge the update, then store the whole result. */
    method UpdateSettings(update: Settings)
      modifies this
      ensures settings == Merge(old(settings), update)
      ensures stored == Some(Persisted(settings))
    {
      var updated := Merge(settings, update);
      settings := updated;
      stored := Some(Persisted(updated));
    }
  }
}
