# CyanogenMod settings screens, modelled in Dafny

This project models four settings screens of the CyanogenMod Settings application:

- the status bar screen (`StatusBar.java`);
- the quick settings panel screen (`QuickSettings.java`);
- the system UI screen (`SystemUiSettings.java`);
- the performance profile screen (`PerformanceProfile.java`).

Each screen reads settings from the system settings table (`Settings.System`) to show its widgets, and writes the table when the user changes a widget.

The model has these layers:

- **The settings table** (`SettingsStore`). It is a map from setting name to text, shared by reference as the `Store` class.
  - `putInt` stores the decimal text of the number (`Decimal.IntToDecimal`).
  - `getInt` parses it back with `Integer.parseInt` semantics (`Decimal.ParseInt`). A missing or unparsable value falls back to the caller's default.
  - What `putInt` writes, `getInt` reads back, for every 32-bit value.
- **List preferences** (`Preferences`). A list preference is labels paired with values, with `findIndexOfValue` and `getEntry`.
  - A change handler either returns a result or lets an exception escape (`Outcome`).
  - Writes made before the exception stay in the table.
- **The colour summary** (`ColorHex`). `"#%08x"` of a 32-bit colour is a hash sign and eight lowercase hex digits of its unsigned value. The digits decode back to that value, so different colours get different summaries.
- **The ring-mode codec** (`Separated`, `RingMode`).
  - The quick settings screen sorts the selected ring modes by their position in the option list and joins them with the separator `OV=I=XseparatorX=I=VO`.
  - Reading splits the stored text again.
  - The summary shows the entry each stored index names, joined with `" | "`.
  - The model proves three things:
    - the sort really sorts and is a permutation;
    - the stored text does not depend on the order in which the set hands out its elements;
    - splitting restores the selected set.
  - The round trip holds for values that can stand before the separator (`Separated.Separable`). Not containing the separator is not enough, and `RingMode.NotContainingIsNotEnough` gives the value that breaks it.
- **The four screens** (`StatusBarScreen`, `QuickSettingsScreen`, `SystemUiScreen`, `PerformanceProfileScreen`). Each is a class holding the shared store and a `shown` record: what the widgets display (summaries, checked, enabled).
  - Each lifecycle method and change handler is a method. Its contract gives the new table and the new `shown` state.
  - The decision tables (battery style to circle options, auto-hide, pulldown, pie, clock and expanded desktop summaries) are functions with if-and-only-if contracts.
  - The change dispatchers state four things:
    - only the settings of the preference that fired change;
    - exactly which inputs make an exception escape;
    - which changes are handled;
    - that the screen's agreement with the store (`Consistent`) is kept.

Inputs the screens get from the outside are constructor parameters:

- device queries (`isPhone`, `hasNavigationBar`, `isLargeRAM`);
- the notification service's reply;
- resource arrays and default colours;
- the colour picker's conversions.

Remote calls that can fail are `Option` values, where `None` is the RemoteException. Writes to the settings provider are taken to succeed.

## Model

| member | source | states |
|---|---|---|
| Decimal.IntToDecimal | src/com/android/settings/cyanogenmod/StatusBar.java:143-145 | `String.valueOf` of an int: non-empty, starts with '-' exactly when negative, digits after that |
| Decimal.ParseInt | src/com/android/settings/cyanogenmod/StatusBar.java:238 | `Integer.valueOf`/`parseInt`: a parsed value is a 32-bit int read from non-empty text, and a negative one had a leading '-' |
| Decimal.ParseIntOfDecimal | src/com/android/settings/cyanogenmod/QuickSettings.java:165-167 | parsing the decimal text of any 32-bit value gives that value back |
| Decimal.IntToDecimalInjective | src/com/android/settings/cyanogenmod/StatusBar.java:143-146 | different ints are stored as different text |
| ColorHex.Unsigned | src/com/android/settings/cyanogenmod/StatusBar.java:108 | `0xffffffff & color` read as unsigned: below 2^32 and congruent to the colour modulo 2^32 |
| ColorHex.HexDigits | src/com/android/settings/cyanogenmod/StatusBar.java:108 | `%08x` pads to exactly the width, all lowercase hex digits |
| ColorHex.HexDigitsValue | src/com/android/settings/cyanogenmod/StatusBar.java:108 | the padded digits of a value below 16^width denote that value |
| ColorHex.FormatColor | src/com/android/settings/cyanogenmod/StatusBar.java:108 | the colour summary is 9 characters: '#' and 8 lowercase hex digits |
| ColorHex.FormatColorDecodes | src/com/android/settings/cyanogenmod/StatusBar.java:117 | the 8 digits decode to the colour's unsigned 32-bit value |
| ColorHex.FormatColorInjective | src/com/android/settings/cyanogenmod/StatusBar.java:336-338 | two different colours never share a summary |
| Separated.FindFrom | src/com/android/settings/cyanogenmod/QuickSettings.java:365 | the first occurrence of the separator at or after a position, or none at all |
| Separated.Pieces | src/com/android/settings/cyanogenmod/QuickSettings.java:128 | splitting with empty pieces kept gives at least one piece |
| Separated.Join | src/com/android/settings/cyanogenmod/QuickSettings.java:269 | `TextUtils.join`: no elements give "", one element gives itself |
| Separated.SplitKeepingEmpty | src/com/android/settings/cyanogenmod/QuickSettings.java:128 | `TextUtils.split` gives no pieces exactly for the empty string |
| Separated.DropTrailingEmpty | src/com/android/settings/cyanogenmod/QuickSettings.java:365 | keeps a prefix that does not end in "" and drops only empty pieces |
| Separated.Split | src/com/android/settings/cyanogenmod/QuickSettings.java:365 | `String.split` of text without the separator is that text alone |
| Separated.PiecesOfJoin | src/com/android/settings/cyanogenmod/QuickSettings.java:269 | splitting the join of separable values gives them back |
| Separated.SplitKeepingEmptyOfJoin | src/com/android/settings/cyanogenmod/QuickSettings.java:128 | `TextUtils.split` undoes `TextUtils.join`, except for a single empty value |
| Separated.SplitOfJoin | src/com/android/settings/cyanogenmod/QuickSettings.java:365 | `String.split` undoes `TextUtils.join` when the last value is not empty |
| Separated.JoinSnoc | src/com/android/settings/cyanogenmod/QuickSettings.java:334-337 | appending an entry to the summary appends the summary separator and the entry to the join |
| SettingsStore.GetString | src/com/android/settings/cyanogenmod/QuickSettings.java:125-127 | `getString` is non-null exactly when the setting is stored |
| SettingsStore.GetInt | src/com/android/settings/cyanogenmod/StatusBar.java:133-141 | `getInt` without a default has no value (SettingNotFoundException) for a setting that is not stored |
| SettingsStore.GetIntOr | src/com/android/settings/cyanogenmod/StatusBar.java:143-144 | `getInt` with a default: the parsed value, or the default when there is none |
| SettingsStore.GetIntAfterPutInt | src/com/android/settings/cyanogenmod/StatusBar.java:240-241 | after `putInt(k, v)`, `getInt(k, def)` reads `v`, whatever the default |
| SettingsStore.Store.PutInt | src/com/android/settings/cyanogenmod/StatusBar.java:240-241 | only setting `k` changes, to the decimal text of `v`, and the write succeeds |
| SettingsStore.Store.PutString | src/com/android/settings/cyanogenmod/PerformanceProfile.java:137-138 | only setting `k` changes, to the text given |
| SettingsStore.Store.PutBoolean | src/com/android/settings/cyanogenmod/SystemUiSettings.java:238-239 | only setting `k` changes, to "1" or "0" |
| Preferences.FindIndexOfValue | src/com/android/settings/cyanogenmod/StatusBar.java:239 | -1 exactly when the value is not listed, otherwise the last position holding it |
| Preferences.EntryFor | src/com/android/settings/cyanogenmod/StatusBar.java:145-146 | `getEntry` is null exactly for an unlisted value; otherwise it is the label at `findIndexOfValue`, the last position holding the value |
| Preferences.Flag | src/com/android/settings/cyanogenmod/StatusBar.java:343-347 | a checkbox stores text that reads back as 1 when checked and 0 when not |
| Preferences.PutListChoice | src/com/android/settings/cyanogenmod/StatusBar.java:237-244 | unparsable text throws with nothing written; otherwise the number is stored, an unlisted value then throws, and a listed one yields its entry and `true` |
| Preferences.PutParsed | src/com/android/settings/cyanogenmod/StatusBar.java:297-308 | unparsable text throws with nothing written; otherwise the number is stored and `true` returned |
| RingMode.SelectionList | src/com/android/settings/cyanogenmod/QuickSettings.java:267 | a new list holding each selected value exactly once |
| RingMode.SortBy | src/com/android/settings/cyanogenmod/QuickSettings.java:268 | `Collections.sort` with the comparator: the list ends sorted by key and is a permutation of what it held |
| RingMode.InsertLast | src/com/android/settings/cyanogenmod/QuickSettings.java:268 | one insertion step extends the sorted prefix by one element and permutes the list |
| RingMode.SortedListedUnique | src/com/android/settings/cyanogenmod/QuickSettings.java:250-262 | two lists of the same listed values, both sorted by list position, are equal |
| RingMode.EncodingDetermined | src/com/android/settings/cyanogenmod/QuickSettings.java:266-270 | for a selection of listed values, the stored text does not depend on the set's iteration order |
| RingMode.RestoresSelection | src/com/android/settings/cyanogenmod/QuickSettings.java:125-129 | reading back the stored text gives exactly the selected set, for non-empty separable values |
| RingMode.DecimalIsSeparable | src/com/android/settings/cyanogenmod/QuickSettings.java:333 | ring modes written as decimal indices always meet the round-trip condition |
| RingMode.NotContainingIsNotEnough | src/com/android/settings/cyanogenmod/QuickSettings.java:58 | a value free of the separator can still break the round trip, because the separator overlaps itself |
| RingMode.ParseStoredValue | src/com/android/settings/cyanogenmod/QuickSettings.java:361-367 | `parseStoredValue` is null exactly for null or empty text |
| RingMode.ParseStoredValueOfJoin | src/com/android/settings/cyanogenmod/QuickSettings.java:361-367 | `parseStoredValue` of a stored join returns the values, or null for none |
| RingMode.EntryLabels | src/com/android/settings/cyanogenmod/QuickSettings.java:332-333 | every piece names an entry exactly when a label list exists; it has one label per piece, the entry at that index |
| RingMode.SummaryOf | src/com/android/settings/cyanogenmod/QuickSettings.java:325-343 | the default summary exactly for empty text, and an exception exactly when a piece names no entry |
| RingMode.BuildSummary | src/com/android/settings/cyanogenmod/QuickSettings.java:329-339 | the loop fails exactly when a piece names no entry; otherwise it yields the labels joined with the summary separator |
| RingMode.SummaryOfPositions | src/com/android/settings/cyanogenmod/QuickSettings.java:333 | indices stored as decimal text show the entries at those indices, in stored order |
| QuickSettingsScreen.PulldownLabelFor | src/com/android/settings/cyanogenmod/QuickSettings.java:345-359 | 0 off, 3 always, 2 left, any other value right, each an if-and-only-if |
| QuickSettingsScreen.StoredTileColor | src/com/android/settings/cyanogenmod/QuickSettings.java:169-189 | a stored -2, or nothing stored, shows the default preview and "none"; any other colour becomes the preview |
| QuickSettingsScreen.ResetShowsNoColor | src/com/android/settings/cyanogenmod/QuickSettings.java:203-207 | after the reset, both tile colours read as "none" with the default previews |
| QuickSettingsScreen.QuickSettings.OnActivityCreated | src/com/android/settings/cyanogenmod/QuickSettings.java:97-192 | it throws exactly when the stored ring modes name no entry, and then only the pulldown, floating window and ring-mode selection have changed; otherwise every widget follows the store and the screen ends consistent |
| QuickSettingsScreen.QuickSettings.ShowPulldownAndFloating | src/com/android/settings/cyanogenmod/QuickSettings.java:108-121 | the pulldown is shown only on a phone, from the stored value, and the floating window box from its setting |
| QuickSettingsScreen.QuickSettings.ShowRingMode | src/com/android/settings/cyanogenmod/QuickSettings.java:124-132 | stored ring modes select their pieces and set the summary; nothing stored changes nothing |
| QuickSettingsScreen.QuickSettings.ShowListsAndTiles | src/com/android/settings/cyanogenmod/QuickSettings.java:134-189 | the flip box, the list summaries, the column value and both tile colours follow the store; nothing else changes |
| QuickSettingsScreen.QuickSettings.ShowTileColor | src/com/android/settings/cyanogenmod/QuickSettings.java:169-178 | the picker shows what `StoredTileColor` describes |
| QuickSettingsScreen.QuickSettings.UpdatePulldownSummary | src/com/android/settings/cyanogenmod/QuickSettings.java:345-359 | only the pulldown summary changes, to the label for the value |
| QuickSettingsScreen.QuickSettings.UpdateRingModeSummary | src/com/android/settings/cyanogenmod/QuickSettings.java:325-343 | it throws exactly when `SummaryOf` has no summary; otherwise it shows that summary |
| QuickSettingsScreen.QuickSettings.OnOptionsItemSelected | src/com/android/settings/cyanogenmod/QuickSettings.java:201-219 | the reset item stores -2 for both tile colours and restores both default previews; any other item changes nothing |
| QuickSettingsScreen.QuickSettings.OnPreferenceTreeClick | src/com/android/settings/cyanogenmod/QuickSettings.java:235-248 | a checkbox click stores 1 or 0 under its own setting only and returns true; other clicks change nothing |
| QuickSettingsScreen.QuickSettings.OnPreferenceChange | src/com/android/settings/cyanogenmod/QuickSettings.java:264-323 | only the fired preference's setting changes; ring modes are stored sorted and joined; it throws exactly per `Throws`; unknown preferences return false with nothing written |
| QuickSettingsScreen.QuickSettings.OnRingModeChange | src/com/android/settings/cyanogenmod/QuickSettings.java:266-272 | only the ring-mode setting changes; it holds an encoding of the selection; the summary follows it |
| QuickSettingsScreen.QuickSettings.OnListChange | src/com/android/settings/cyanogenmod/QuickSettings.java:273-296 | the parsed value is stored, an unlisted value throws after the write, a listed one shows its entry; an absent network list is not handled |
| QuickSettingsScreen.QuickSettings.OnPulldownChange | src/com/android/settings/cyanogenmod/QuickSettings.java:279-284 | unparsable text throws with nothing written; otherwise the value is stored and its label shown |
| QuickSettingsScreen.QuickSettings.OnTileColorChange | src/com/android/settings/cyanogenmod/QuickSettings.java:297-320 | the picked colour is stored under that picker's setting only and its ARGB text becomes the summary |
| SystemUiScreen.ExpandedDesktopLabelFor | src/com/android/settings/cyanogenmod/SystemUiSettings.java:336-351 | modes 0, 1 and 2 each have their own summary; every other mode has none |
| SystemUiScreen.ExpandedDesktopTable | src/com/android/settings/cyanogenmod/SystemUiSettings.java:329-352 | the style is always stored; 0 also zeroes the power-menu flag and the state; 1 and 2 set the flag to 1 and leave the state; no other setting changes |
| SystemUiScreen.NoNavbarMode | src/com/android/settings/cyanogenmod/SystemUiSettings.java:217-220 | a checked box asks for mode 2 and an unchecked one for mode 0 |
| SystemUiScreen.NoNavbarRoundTrip | src/com/android/settings/cyanogenmod/SystemUiSettings.java:118 | the mode a click stores shows the checkbox in the same state on the next `onCreate` |
| SystemUiScreen.IsHaloPolicyBlack | src/com/android/settings/cyanogenmod/SystemUiSettings.java:197-204 | the service's reply, or black when the call fails |
| SystemUiScreen.HaloStateBlack | src/com/android/settings/cyanogenmod/SystemUiSettings.java:228-229 | unparsable text throws; otherwise black exactly for the number 1 |
| SystemUiScreen.HaloStateRoundTrip | src/com/android/settings/cyanogenmod/SystemUiSettings.java:145 | choosing the value the list shows for a policy asks for that policy |
| SystemUiScreen.PieLabelFor | src/com/android/settings/cyanogenmod/SystemUiSettings.java:316-327 | the pie summary says enabled exactly for a non-zero value |
| SystemUiScreen.StoredHaloAfterClick | src/com/android/settings/cyanogenmod/SystemUiSettings.java:291-310 | a halo checkbox click stores a state that the next `onCreate` shows again |
| SystemUiScreen.SystemUi.UpdateExpandedDesktop | src/com/android/settings/cyanogenmod/SystemUiSettings.java:329-352 | the table becomes `ExpandedDesktopTable`; the summary changes only for modes 0, 1 and 2 |
| SystemUiScreen.SystemUi.OnCreate | src/com/android/settings/cyanogenmod/SystemUiSettings.java:88-195 | with a navigation bar the stored mode is written back through `updateExpandedDesktop`; without one the checkbox shows it and pie is removed; a failed query leaves both; every other widget follows the store |
| SystemUiScreen.SystemUi.ShowExpandedDesktop | src/com/android/settings/cyanogenmod/SystemUiSettings.java:104-129 | the expanded-desktop part of `onCreate`, by navigation bar answer |
| SystemUiScreen.SystemUi.ShowStoredValues | src/com/android/settings/cyanogenmod/SystemUiSettings.java:132-193 | the height, halo state, halo boxes and notification toggles follow the store and the service, with their defaults |
| SystemUiScreen.SystemUi.OnResume | src/com/android/settings/cyanogenmod/SystemUiSettings.java:207-210 | the pie summary is refreshed only while the pie control is present |
| SystemUiScreen.SystemUi.OnPreferenceChange | src/com/android/settings/cyanogenmod/SystemUiSettings.java:212-287 | only the fired preference's settings change; it throws exactly per `Throws`; unknown preferences return false; per branch, the new table and display: the expanded desktop writes of the parsed mode or of 2/0 for the checkbox with their summary, the height and its entry, "1"/"0" for a toggle, a halo colour and its ARGB text, nothing for the halo state; only the halo effect colour restarts the UI; the halo state sends one policy request |
| SystemUiScreen.SystemUi.OnExpandedDesktopChange | src/com/android/settings/cyanogenmod/SystemUiSettings.java:213-216 | unparsable text throws with nothing written or shown; otherwise the table is `ExpandedDesktopTable` of the mode and the summary is that mode's label when it has one |
| SystemUiScreen.SystemUi.OnNavigationBarHeightChange | src/com/android/settings/cyanogenmod/SystemUiSettings.java:221-227 | the parsed height is stored, an unlisted one throws after the write, a listed one shows its entry |
| SystemUiScreen.SystemUi.OnHaloStateChange | src/com/android/settings/cyanogenmod/SystemUiSettings.java:228-235 | unparsable text throws; otherwise one policy request (black for 1) is sent and nothing is stored |
| SystemUiScreen.SystemUi.OnHaloColorChange | src/com/android/settings/cyanogenmod/SystemUiSettings.java:251-283 | the colour is stored under that picker's setting only and shown; only the effect colour restarts the UI |
| SystemUiScreen.SystemUi.OnPreferenceTreeClick | src/com/android/settings/cyanogenmod/SystemUiSettings.java:290-314 | a halo click stores 1 or 0 under its own setting only; only the colours box restarts the UI; the answer is always the framework's |
| PerformanceProfileScreen.CurrentProfile | src/com/android/settings/cyanogenmod/PerformanceProfile.java:125-132 | the stored profile, or the default when it is null or empty |
| PerformanceProfileScreen.LastMatchBefore | src/com/android/settings/cyanogenmod/PerformanceProfile.java:113-121 | the last index below `n` whose value matches and that has a label, or none such |
| PerformanceProfileScreen.ProfileSummaryIsLastMatch | src/com/android/settings/cyanogenmod/PerformanceProfile.java:112-122 | the summary is the label at the last matching index that has one |
| PerformanceProfileScreen.ProfileSummaryEmpty | src/com/android/settings/cyanogenmod/PerformanceProfile.java:111-122 | with non-empty labels, the summary is empty exactly when no labelled value matches |
| PerformanceProfileScreen.PerformanceProfile.GetCurrentPerformanceProfile | src/com/android/settings/cyanogenmod/PerformanceProfile.java:125-132 | returns `CurrentProfile` of the store |
| PerformanceProfileScreen.PerformanceProfile.SetCurrentPerfProfileSummary | src/com/android/settings/cyanogenmod/PerformanceProfile.java:109-123 | the loop leaves the summary at `ProfileSummary` of the current profile, skipping indices past the labels |
| PerformanceProfileScreen.PerformanceProfile.SetCurrentValue | src/com/android/settings/cyanogenmod/PerformanceProfile.java:87-91 | the list selects the current profile and shows its summary |
| PerformanceProfileScreen.PerformanceProfile.OnPreferenceChange | src/com/android/settings/cyanogenmod/PerformanceProfile.java:134-144 | handled exactly for a non-null value of the profile list; that value is stored and its summary shown, with "" showing the default's; otherwise nothing changes |
| StatusBarScreen.CircleOptionsFor | src/com/android/settings/cyanogenmod/StatusBar.java:404-424 | styles 0, 1 and 5 disable all four options; 2 disables only the text colour; any other style enables all; colour, speed and reset always agree |
| StatusBarScreen.AutoHideLabelFor | src/com/android/settings/cyanogenmod/StatusBar.java:387-396 | 0 off, 1 non-permanent, anything else all, each an if-and-only-if |
| StatusBarScreen.ClockLabelFor | src/com/android/settings/cyanogenmod/StatusBar.java:378-385 | the clock summary says enabled exactly for a stored 1 |
| StatusBarScreen.LoadedChecksAfterClick | src/com/android/settings/cyanogenmod/StatusBar.java:341-373 | after a click, the next `onCreate` shows the clicked checkbox in its new state and every other checkbox as before |
| StatusBarScreen.LoadedValuesAfterStore | src/com/android/settings/cyanogenmod/StatusBar.java:297-324 | a number a list handler stores is the value the next `onCreate` selects in that list, and the other lists keep theirs |
| StatusBarScreen.StoredCheckedAfterClick | src/com/android/settings/cyanogenmod/StatusBar.java:341-373 | a click stores a state that the next `onCreate` shows again, for every checkbox and default |
| StatusBarScreen.GetBoolean | src/com/android/settings/cyanogenmod/StatusBar.java:204-205 | `getBoolean`: the default when nothing is stored, otherwise true exactly for "1" |
| StatusBarScreen.StatusBar.OnCreate | src/com/android/settings/cyanogenmod/StatusBar.java:88-233 | widgets follow the store, every list selecting its stored number or its default; a set reset flag resets both circle colours; brightness is disabled only in automatic mode; the screen ends consistent |
| StatusBarScreen.StatusBar.ShowStoredValues | src/com/android/settings/cyanogenmod/StatusBar.java:102-209 | colour summaries, list values (defaults 3, 0, 0, 0, 0, 1, 0 and 10000) and summaries, brightness state and checkboxes follow the store; a missing brightness mode changes nothing |
| StatusBarScreen.StatusBar.ShowDerivedState | src/com/android/settings/cyanogenmod/StatusBar.java:196-232 | auto-hide summary, colour reset on request, clock description when present, and circle options |
| StatusBarScreen.StatusBar.UpdateBatteryIconOptions | src/com/android/settings/cyanogenmod/StatusBar.java:404-424 | only the circle options change, to `CircleOptionsFor` of the stored style |
| StatusBarScreen.StatusBar.UpdateStatusBarAutoHideSummary | src/com/android/settings/cyanogenmod/StatusBar.java:387-396 | only the auto-hide summary changes, to the label for the value |
| StatusBarScreen.StatusBar.UpdateClockStyleDescription | src/com/android/settings/cyanogenmod/StatusBar.java:378-385 | only the clock summary changes, to the label for the stored clock value |
| StatusBarScreen.StatusBar.CircleColorResetAction | src/com/android/settings/cyanogenmod/StatusBar.java:329-339 | both circle colours get the same default, stored, with the same `#%08x` summary |
| StatusBarScreen.StatusBar.OnResumeAsWritten | src/com/android/settings/cyanogenmod/StatusBar.java:398-402 | throws exactly when the layout lacks the clock style screen |
| StatusBarScreen.StatusBar.OnResume | src/com/android/settings/cyanogenmod/StatusBar.java:398-402 | refreshes the clock description when the layout has the clock style screen, else changes nothing |
| StatusBarScreen.StatusBar.OnPreferenceChange | src/com/android/settings/cyanogenmod/StatusBar.java:235-327 | only the fired preference's settings change; it throws exactly per `Throws`; unknown preferences return false with nothing written; the new table is `TableAfter` and the display `ShownAfter` unless it throws, when the display is unchanged; consistency is kept |
| StatusBarScreen.StatusBar.OnValueChange | src/com/android/settings/cyanogenmod/StatusBar.java:297-324 | a parsed list value is stored under its own setting even when it then throws; an exception leaves the display alone; otherwise the entry, circle options or auto-hide label is shown and true returned |
| StatusBarScreen.StatusBar.OnColorChange | src/com/android/settings/cyanogenmod/StatusBar.java:245-289 | the picked colour is stored under its setting, a circle colour also clears the reset flag, its ARGB text is shown, and true is returned |
| StatusBarScreen.StatusBar.TableAfterWritesOnlyItsKeys | src/com/android/settings/cyanogenmod/StatusBar.java:235-327 | the table after a change differs from the old one only in the settings `KeysWrittenBy` names |
| StatusBarScreen.StatusBar.PutPickedColor | src/com/android/settings/cyanogenmod/StatusBar.java:246-252 | the summary is the ARGB text, and the colour converted back from it is stored |
| StatusBarScreen.StatusBar.OnBatteryStyleChange | src/com/android/settings/cyanogenmod/StatusBar.java:237-244 | the style is stored; an unlisted one throws after the write; a listed one shows its entry and the circle options for it |
| StatusBarScreen.StatusBar.OnSignalStyleChange | src/com/android/settings/cyanogenmod/StatusBar.java:267-273 | the style is stored; an unlisted one throws after the write; a listed one shows its entry |
| StatusBarScreen.StatusBar.OnCircleAnimationSpeedChange | src/com/android/settings/cyanogenmod/StatusBar.java:290-296 | the speed is stored; an unlisted one throws after the write; a listed one shows its entry |
| StatusBarScreen.StatusBar.OnCircleColorChange | src/com/android/settings/cyanogenmod/StatusBar.java:245-255 | the circle colour is stored and shown, and the reset flag becomes 0 |
| StatusBarScreen.StatusBar.OnCircleTextColorChange | src/com/android/settings/cyanogenmod/StatusBar.java:256-266 | the text colour is stored and shown, and the reset flag becomes 0 |
| StatusBarScreen.StatusBar.OnBatteryBarColorChange | src/com/android/settings/cyanogenmod/StatusBar.java:281-289 | only the battery bar colour is stored, and it is shown |
| StatusBarScreen.StatusBar.OnCircleColorResetChange | src/com/android/settings/cyanogenmod/StatusBar.java:309-313 | the reset flag becomes 1 and both circle colours are reset |
| StatusBarScreen.StatusBar.OnAutoHideChange | src/com/android/settings/cyanogenmod/StatusBar.java:319-324 | unparsable text throws with nothing written; otherwise the mode is stored and its label shown |
| StatusBarScreen.StatusBar.OnPreferenceTreeClick | src/com/android/settings/cyanogenmod/StatusBar.java:341-376 | a checkbox click stores 1 or 0 under its own setting only and returns true; other clicks change nothing |

## Left out

- Widget plumbing is not modelled: inflating layouts, `findPreference`, `removePreference`, listener registration, options-menu inflation and resource string lookup. Widgets are fields of the `shown` record, and resource strings are constructors of label datatypes.
- The content observer of the performance profile screen is not modelled, nor its registration in `onResume` and removal in `onPause`. Its callback is `SetCurrentValue`, and `onCreate` and `onResume` only call `SetCurrentValue` besides that plumbing.
- `Helpers.restartSystemUI` is a call into code outside these files. The system UI screen counts the restarts it asks for. In the quick settings reset, the restart and `PowerManager.goToSleep` are not modelled.
- The quick settings `onResume` is not modelled. It adds or removes the network mode tile from `QuickSettingsUtil`, which is not part of this model. `onActivityCreated`'s removal of unsupported dynamic tiles (`QSUtils`) is left out for the same reason.
- Device queries are constructor inputs: `Utils.isPhone`, `isWifiOnly`, `isTablet`, `ActivityManager.isLargeRAM`, and the window manager and notification service answers. `isWifiOnly` and `isTablet` only remove widgets, so they do not appear.
- `ColorPickerPreference.convertToARGB` and `convertToColorInt` are not part of this model. They are opaque function inputs.
- `StatusBar.onPreferenceChange` has a branch for `mStatusBarClock`, a field that is never assigned. That branch can never run and has no `Change` constructor.
- The framework's own steps around a handler are not modelled. It stores a handled list value into the widget, and it toggles a checkbox before `onPreferenceTreeClick` runs. The click handlers take the toggled state from `shown`.
- The network mode and screen timeout lists keep their values in the preference's own file. Those values are constructor inputs.
- `SystemUiSettings.java` does not compile as written: a missing semicolon, an undefined `prefSet`, and fields and imports that are not declared. The model follows the evident intent.
- `updateExpandedDesktop` checks the expanded desktop list for null before setting the summary. The list is always in the layout, so the model leaves that check out.
- Colour pickers pass their new colour as an `int`. `Integer.valueOf(String.valueOf(x))` is the identity on it, so the model passes the colour directly.
- The quick settings options menu passes other items to `onContextItemSelected`, not `onOptionsItemSelected`. Its answer is the `superResult` input.
- RingMode.SortBy: states that the result is sorted and a permutation, but not that `Collections.sort` is stable. For a selection of listed values, `RingMode.EncodingDetermined` shows the order is forced anyway.
- QuickSettingsScreen.QuickSettings.OnPreferenceChange: for ring modes it states that the stored text is one of the sorted encodings of the selection (`IsEncoding`), not which one when unlisted values tie. The exact summaries are stated by the per-branch members.
- Decimal.ParseInt: reads only the ASCII digits 0-9. `Integer.parseInt` reads digits with `Character.digit`, so it also accepts other Unicode decimal digits, such as Arabic-Indic ones. The screens' list values and the text `putInt` writes are ASCII, so nothing in the model depends on this. A leading `+` is accepted, as in Java 7; whether the targeted Android runtime accepts it cannot be settled from these files.
- SettingsStore.Store.PutInt, PutString, PutBoolean: a write to the settings provider always succeeds and returns true. `Settings.System.putInt` returns false when the provider fails, and the status bar's battery bar, battery bar style and battery bar thickness branches (StatusBar.java:298-308) return that answer, so on a provider failure they would answer false where `Preferences.PutParsed` and `StatusBarScreen.StatusBar.OnValueChange` answer true.
- Preferences.PutParsed: answers true after every successful parse, because the write it makes cannot fail in this model (see the line above).

## Findings

| source | as written | input that shows it | evidently intended | confidence | as-written member | corrected member |
|---|---|---|---|---|---|---|
| src/com/android/settings/cyanogenmod/StatusBar.java:398-402 | `onResume` calls `updateClockStyleDescription`, which calls `mClockStyle.setSummary` without the null check that `onCreate` makes at :225 | a layout without the `clock_style_pref` screen (`hasClockStyle == false`): `onResume` throws a NullPointerException | refresh the clock description only when the clock style screen exists, as `onCreate` does | not executed | StatusBarScreen.StatusBar.OnResumeAsWritten | StatusBarScreen.StatusBar.OnResume |
