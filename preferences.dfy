/**
 * The parts of the preference widgets whose behaviour the screens rely on: the list preference's
 * entries (shown labels) and entry values (stored values), and the outcome of a change handler.
 */
module Preferences {
  import opened Wrappers
  import opened Decimal
  import opened SettingsStore

  /** A list preference: labels paired with values, as its two resource arrays give them. */
  datatype ListPref = ListPref(entries: seq<string>, entryValues: seq<string>)

  /** The resource arrays of a list preference have one label per value. */
  type ListPreference = l: ListPref | |l.entries| == |l.entryValues| witness ListPref([], [])

  /**
   * `findIndexOfValue(v)`: the position of `v` among the values, searching from the end, so the
   * last position when a value is listed twice; -1 when it is not listed.
   */
  function FindIndexOfValue(values: seq<string>, v: string): (i: int)
    ensures -1 <= i < |values|
    ensures i == -1 <==> v !in values
    ensures 0 <= i ==> values[i] == v && forall j :: i < j < |values| ==> values[j] != v
  {
    if values == [] then -1
    else if values[|values| - 1] == v then |values| - 1
    else FindIndexOfValue(values[..|values| - 1], v)
  }

  /** `setValue(v)` then `getEntry()`: the label paired with `v`, or `None` (null). */
  function EntryFor(list: ListPreference, v: string): (r: Option<string>)
    ensures r.None? <==> v !in list.entryValues
    ensures r.Some? ==> exists i :: 0 <= i < |list.entries| && list.entryValues[i] == v && r.value == list.entries[i]
    ensures r.Some? ==> r.value == list.entries[FindIndexOfValue(list.entryValues, v)]
  {
    var i := FindIndexOfValue(list.entryValues, v);
    if i < 0 then None else Some(list.entries[i])
  }

  /** How a change handler ends: it returns a result, or an exception escapes it. */
  datatype Outcome = Returned(handled: bool) | Threw

  /** What a checkbox click stores: `isChecked() ? 1 : 0`. */
  function Flag(checked: bool): (s: string)
    ensures ParseInt(s) == Some(if checked then 1 else 0)
  {
    ParseIntOfDecimal(if checked then 1 else 0);
    IntToDecimal(if checked then 1 else 0)
  }

  /**
   * A list preference's new value is parsed (`Integer.valueOf`, which throws on text that is not
   * a number) and stored; its entry is looked up afterwards, so a value missing from the list
   * throws (an index of -1 into the entries) only after the write.
   */
  method PutListChoice(store: Store, list: ListPreference, k: Key, value: string) returns (result: Outcome, entry: string)
    modifies store
    ensures ParseInt(value).None? ==> store.table == old(store.table)
    ensures ParseInt(value).Some? ==> store.table == old(store.table)[k := IntToDecimal(ParseInt(value).value)]
    ensures result == Threw <==> ParseInt(value).None? || value !in list.entryValues
    ensures result != Threw ==> result == Returned(true) && EntryFor(list, value) == Some(entry)
  {
    var parsed := ParseInt(value);
    if parsed.None? {
      return Threw, "";
    }
    var index := FindIndexOfValue(list.entryValues, value);
    var ok := store.PutInt(k, parsed.value);
    if index < 0 {
      return Threw, "";
    }
    return Returned(true), list.entries[index];
  }

  /** A number-valued preference: the parsed value is stored and `putInt`'s result returned. */
  method PutParsed(store: Store, k: Key, value: string) returns (result: Outcome)
    modifies store
    ensures ParseInt(value).None? ==> result == Threw && store.table == old(store.table)
    ensures ParseInt(value).Some? ==>
      result == Returned(true) && store.table == old(store.table)[k := IntToDecimal(ParseInt(value).value)]
  {
    var parsed := ParseInt(value);
    if parsed.None? {
      return Threw;
    }
    var ok := store.PutInt(k, parsed.value);
    return Returned(ok);
  }
}
