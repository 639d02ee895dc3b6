/**
 * The performance profile screen: one list of profiles whose current value lives in the settings
 * store, with the chosen profile's label as its summary.
 */
module PerformanceProfileScreen {
  import opened Wrappers
  import opened SettingsStore
  import opened Preferences

  /**
   * `getCurrentPerformanceProfile`: the stored profile, or the configured default when nothing
   * or the empty string is stored.
   */
  function CurrentProfile(t: Table, defaultEntry: string): (p: string)
    ensures GetString(t, PerformanceProfile).None? ==> p == defaultEntry
    ensures GetString(t, PerformanceProfile) == Some("") ==> p == defaultEntry
    ensures PerformanceProfile in t && t[PerformanceProfile] != "" ==> p == t[PerformanceProfile]
  {
    match GetString(t, PerformanceProfile)
    case None => defaultEntry
    case Some(value) => if value == "" then defaultEntry else value
  }

  /**
   * The last position below `n` where `values` holds `v` and `entries` has a label, or `None`
   * when there is none.
   */
  function LastMatchBefore(values: seq<string>, entries: seq<string>, v: string, n: nat): (r: Option<nat>)
    requires n <= |values|
    ensures r.Some? ==> r.value < n && r.value < |entries| && values[r.value] == v
    ensures r.Some? ==> forall j :: r.value < j < n && j < |entries| ==> values[j] != v
    ensures r.None? ==> forall j :: 0 <= j < n && j < |entries| ==> values[j] != v
  {
    if n == 0 then None
    else if n - 1 < |entries| && values[n - 1] == v then Some(n - 1)
    else LastMatchBefore(values, entries, v, n - 1)
  }

  /**
   * The profile summary: the label paired with the last value equal to the profile, skipping
   * values past the end of the labels; the empty string when no value matches.
   */
  function ProfileSummary(values: seq<string>, entries: seq<string>, v: string): string
  {
    match LastMatchBefore(values, entries, v, |values|)
    case None => ""
    case Some(i) => entries[i]
  }

  /** The summary is the label at the last matching position that has one. */
  lemma ProfileSummaryIsLastMatch(values: seq<string>, entries: seq<string>, v: string, i: nat)
    requires i < |values| && i < |entries| && values[i] == v
    requires forall j :: i < j < |values| && j < |entries| ==> values[j] != v
    ensures ProfileSummary(values, entries, v) == entries[i]
  {
  }

  /** The summary is empty exactly when no value that has a label equals the profile. */
  lemma ProfileSummaryEmpty(values: seq<string>, entries: seq<string>, v: string)
    requires forall i :: 0 <= i < |entries| ==> entries[i] != ""
    ensures ProfileSummary(values, entries, v) == "" <==>
      forall j :: 0 <= j < |values| && j < |entries| ==> values[j] != v
  {
  }

  /** What the profile list shows: its value and its summary. */
  datatype Shown = Shown(value: Option<string>, summary: Option<string>)

  class PerformanceProfile {
    const store: Store
    /** `config_perf_profile_default_entry`. */
    const defaultEntry: string
    /** The labels and the values of the profiles, from two resource arrays that may differ in length. */
    const entries: seq<string>
    const values: seq<string>

    var shown: Shown

    constructor (store: Store, defaultEntry: string, entries: seq<string>, values: seq<string>)
      ensures this.store == store && this.defaultEntry == defaultEntry
      ensures this.entries == entries && this.values == values
      ensures shown == Shown(None, None)
    {
      this.store := store;
      this.defaultEntry := defaultEntry;
      this.entries := entries;
      this.values := values;
      shown := Shown(None, None);
    }

    /** `getCurrentPerformanceProfile`. */
    method GetCurrentPerformanceProfile() returns (value: string)
      ensures value == CurrentProfile(store.table, defaultEntry)
    {
      var stored := GetString(store.table, PerformanceProfile);
      if stored.None? || stored.value == "" {
        return defaultEntry;
      }
      return stored.value;
    }

    /**
     * `setCurrentPerfProfileSummary`: every value is compared with the current profile and each
     * match with a label replaces the summary, so the last one wins; a match past the end of the
     * labels throws an exception that the loop catches and ignores.
     */
    method SetCurrentPerfProfileSummary()
      modifies this`shown
      ensures shown == old(shown).(summary := Some(ProfileSummary(values, entries, CurrentProfile(store.table, defaultEntry))))
    {
      var value := GetCurrentPerformanceProfile();
      var summary := "";
      var count := |values|;
      for i := 0 to count
        invariant summary == match LastMatchBefore(values, entries, value, i)
          case None => ""
          case Some(j) => entries[j]
      {
        if values[i] == value {
          if i < |entries| {
            summary := entries[i];
          }
        }
      }
      shown := shown.(summary := Some(summary));
    }

    /**
     * `setCurrentValue`, run when the screen is created or resumed and when the stored profile
     * changes: the list selects the current profile and shows its summary.
     */
    method SetCurrentValue()
      modifies this`shown
      ensures var current := CurrentProfile(store.table, defaultEntry);
        shown == Shown(Some(current), Some(ProfileSummary(values, entries, current)))
    {
      var value := GetCurrentPerformanceProfile();
      shown := shown.(value := Some(value));
      SetCurrentPerfProfileSummary();
    }

    /**
     * `onPreferenceChange`: a null value is declined with nothing written; a value for the profile
     * list is stored and the summary refreshed from the store, so an empty value shows the
     * default profile's label; a change of another preference is declined.
     */
    method OnPreferenceChange(isProfilePref: bool, newValue: Option<string>) returns (handled: bool)
      modifies store, this`shown
      ensures handled <==> newValue.Some? && isProfilePref
      ensures !handled ==> store.table == old(store.table) && shown == old(shown)
      ensures handled ==>
        && store.table == old(store.table)[PerformanceProfile := newValue.value]
        && shown == old(shown).(summary := Some(ProfileSummary(values, entries,
             if newValue.value == "" then defaultEntry else newValue.value)))
    {
      if newValue.Some? {
        if isProfilePref {
          var ok := store.PutString(PerformanceProfile, newValue.value);
          SetCurrentPerfProfileSummary();
          return true;
        }
      }
      return false;
    }
  }
}
