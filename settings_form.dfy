/**
 * The settings page (src/components/Settings.jsx): a local copy of the
 * settings that the inputs edit, pushed to the store on save.
 */
module SettingsForm {
  import opened JsCore
  import opened JsNumbers
  import opened SettingsStore

  /** The form: the edited settings, whether they were just saved, and the store it saves to. */
  class SettingsPage {
    var localSettings: Settings
    var saved: bool
    const store: AnalysisStore

    /** The form starts from the store's settings, not yet saved. */
    constructor(store: AnalysisStore)
      ensures this.store == store
      ensures localSettings == store.settings
      ensures !saved
    {
      this.store := store;
      localSettings := store.settings;
      saved := false;
    }

    /** `handleChange(section, key, value)`: edits one key and clears `saved`; the store is untouched. */
    method HandleChange(section: string, key: string, value: Setting)
      modifies this
      ensures localSettings == SetNested(old(localSettings), section, key, value)
      ensures !saved
    {
      localSettings := SetNested(localSettings, section, key, value);
      saved := false;
    }

    /** A threshold input stores `parseFloat` of its text (NaN for a cleared field). */
    method OnThresholdInput(key: string, text: string)
      modifies this
      ensures localSettings == SetNested(old(localSettings), "riskThresholds", key, Num(ParseFloat(text)))
      ensures !saved
    {
      HandleChange("riskThresholds", key, Num(ParseFloat(text)));
    }

    /** A report-preference checkbox stores its checked state. */
    method OnPreferenceToggle(key: string, checked: bool)
      modifies this
      ensures localSettings == SetNested(old(localSettings), "reportPreferences", key, Flag(checked))
      ensures !saved
    {
      HandleChange("reportPreferences", key, Flag(checked));
    }

    /** The API key field and the model selector store their text. */
    method OnApiInput(key: string, text: string)
      modifies this
      ensures localSettings == SetNested(old(localSettings), "apiSettings", key, Text(text))
      ensures !saved
    {
      HandleChange("apiSettings", key, Text(text));
    }

    /**
     * `handleSave`: hands the whole local copy to `updateSettings` and sets
     * `saved`; when the copy names every section the store has (as one
     * started from the store always does), the store's settings become the
     * copy itself.
     */
    method HandleSave()
      modifies this, store
      ensures store.settings == Merge(old(store.settings), localSettings)
      ensures old(store.settings).Keys <= localSettings.Keys ==> store.settings == localSettings
      ensures store.stored == Some(Persisted(store.settings))
      ensures localSettings == old(localSettings)
      ensures saved
    {
      store.UpdateSettings(localSettings);
      if old(store.settings).Keys <= localSettings.Keys {
        MergeCoveringUpdate(old(store.settings), localSettings);
      }
      saved := true;
    }

    /** The timer started by a save clears `saved` two seconds later. */
    method SavedTimerFired()
      modifies this
      ensures !saved
      ensures localSettings == old(localSettings)
    {
      saved := false;
    }
  }
}
