/**
 * The system UI settings screen: the expanded desktop mode (a list on devices with a navigation
 * bar, a "no navigation bar" checkbox on the others), the navigation bar height, the pie control
 * summary, the halo checkboxes, policy and colours, and the notification toggles.
 */
module SystemUiScreen {
  import opened Wrappers
  import opened Decimal
  import opened SettingsStore
  import opened Preferences

  /** The expanded desktop summaries. */
  datatype ExpandedDesktopLabel = ExpandedDesktopDisabled | StatusBarVisible | StatusBarHidden

  /** The summary `updateExpandedDesktop` picks: one for each of the modes 0, 1 and 2, none otherwise. */
  function ExpandedDesktopLabelFor(value: int): (l: Option<ExpandedDesktopLabel>)
    ensures l == Some(ExpandedDesktopDisabled) <==> value == 0
    ensures l == Some(StatusBarVisible) <==> value == 1
    ensures l == Some(StatusBarHidden) <==> value == 2
    ensures l.None? <==> value !in {0, 1, 2}
  {
    if value == 0 then Some(ExpandedDesktopDisabled)
    else if value == 1 then Some(StatusBarVisible)
    else if value == 2 then Some(StatusBarHidden)
    else None
  }

  /** The settings `updateExpandedDesktop(value)` writes. */
  function ExpandedDesktopKeys(value: int): set<Key>
  {
    if value == 0 then {ExpandedDesktopStyle, PowerMenuExpandedDesktopEnabled, ExpandedDesktopState}
    else if value == 1 || value == 2 then {ExpandedDesktopStyle, PowerMenuExpandedDesktopEnabled}
    else {ExpandedDesktopStyle}
  }

  /**
   * The table after `updateExpandedDesktop(value)`: the style is always stored; mode 0 also turns
   * off the power menu entry and the expanded desktop state; modes 1 and 2 turn the power menu
   * entry on and leave the state alone; any other mode writes nothing else.
   */
  function ExpandedDesktopTable(t: Table, value: Int32): (r: Table)
    ensures GetInt(r, ExpandedDesktopStyle) == Some(value)
    ensures value == 0 ==>
      GetInt(r, PowerMenuExpandedDesktopEnabled) == Some(0) && GetInt(r, ExpandedDesktopState) == Some(0)
    ensures value == 1 || value == 2 ==>
      GetInt(r, PowerMenuExpandedDesktopEnabled) == Some(1) && GetString(r, ExpandedDesktopState) == GetString(t, ExpandedDesktopState)
    ensures forall k :: k !in ExpandedDesktopKeys(value) ==> GetString(r, k) == GetString(t, k)
  {
    ParseIntOfDecimal(value);
    ParseIntOfDecimal(0);
    ParseIntOfDecimal(1);
    var styled := t[ExpandedDesktopStyle := IntToDecimal(value)];
    if value == 0 then
      styled[PowerMenuExpandedDesktopEnabled := IntToDecimal(0)][ExpandedDesktopState := IntToDecimal(0)]
    else if value == 1 || value == 2 then
      styled[PowerMenuExpandedDesktopEnabled := IntToDecimal(1)]
    else styled
  }

  /** The mode the "no navigation bar" checkbox asks for: 2 (no status bar) when checked, 0 when not. */
  function NoNavbarMode(checked: bool): (m: Int32)
    ensures m == 2 <==> checked
    ensures m == 0 <==> !checked
  {
    if checked then 2 else 0
  }

  /** The checkbox reads a stored mode above 0 as checked. */
  function NoNavbarChecked(t: Table): bool
  {
    GetIntOr(t, ExpandedDesktopStyle, 0) > 0
  }

  /** Ticking the "no navigation bar" checkbox stores a mode that shows it in the same state again. */
  lemma NoNavbarRoundTrip(t: Table, checked: bool)
    ensures NoNavbarChecked(ExpandedDesktopTable(t, NoNavbarMode(checked))) == checked
  {
  }

  /**
   * `isHaloPolicyBlack`: the notification service's answer, or "black" when the call fails
   * (`None`, a RemoteException).
   */
  function IsHaloPolicyBlack(reply: Option<bool>): (black: bool)
    ensures reply.None? ==> black
    ensures reply.Some? ==> black == reply.value
  {
    match reply
    case None => true
    case Some(b) => b
  }

  /** The halo state list's value for a policy: "1" for black, "0" for white. */
  function HaloStateValue(black: bool): string
  {
    if black then "1" else "0"
  }

  /** The policy a chosen halo state asks for: black exactly when the value is the number 1. */
  function HaloStateBlack(value: string): (r: Option<bool>)
    ensures r.None? <==> ParseInt(value).None?
    ensures r.Some? ==> (r.value <==> ParseInt(value) == Some(1))
  {
    match ParseInt(value)
    case None => None
    case Some(n) => Some(n == 1)
  }

  /** Choosing the value the halo state list shows for a policy asks for that policy again. */
  lemma HaloStateRoundTrip(black: bool)
    ensures HaloStateBlack(HaloStateValue(black)) == Some(black)
  {
    assert IntToDecimal(1) == "1" by { assert NatToDecimal(1) == [DigitChar(1)]; }
    assert IntToDecimal(0) == "0" by { assert NatToDecimal(0) == [DigitChar(0)]; }
    ParseIntOfDecimal(1);
    ParseIntOfDecimal(0);
  }

  /** The pie control summaries. */
  datatype PieLabel = PieEnabled | PieDisabled

  function PieLabelFor(value: int): (l: PieLabel)
    ensures l == PieEnabled <==> value != 0
  {
    if value != 0 then PieEnabled else PieDisabled
  }

  /** The halo checkboxes, whose clicks the screen stores. */
  datatype HaloCheckbox = HaloEnabledBox | HaloHideBox | HaloReversedBox | HaloPauseBox | HaloColorsBox

  function HaloKey(b: HaloCheckbox): Key
  {
    match b
    case HaloEnabledBox => HaloEnabled
    case HaloHideBox => HaloHide
    case HaloReversedBox => HaloReversed
    case HaloPauseBox => HaloPause
    case HaloColorsBox => HaloColors
  }

  /** The checkboxes whose new state arrives through `onPreferenceChange`. */
  datatype Toggle = MmsBreathToggle | MissedCallBreathToggle | PopupsToggle

  function ToggleKey(g: Toggle): Key
  {
    match g
    case MmsBreathToggle => MmsBreath
    case MissedCallBreathToggle => MissedCallBreath
    case PopupsToggle => WeWantPopups
  }

  /** The halo colour pickers. */
  datatype HaloColorPicker = CirclePicker | EffectPicker | BubblePicker | BubbleTextPicker

  function HaloColorKey(p: HaloColorPicker): Key
  {
    match p
    case CirclePicker => HaloCircleColor
    case EffectPicker => HaloEffectColor
    case BubblePicker => HaloBubbleColor
    case BubbleTextPicker => HaloBubbleTextColor
  }

  /** A preference change: which preference fired, with its new value. */
  datatype Change =
    | ExpandedDesktopChange(value: string)
    | NoNavbarChange(checked: bool)
    | NavigationBarHeightChange(value: string)
    | HaloStateChange(value: string)
    | ToggleChange(toggle: Toggle, checked: bool)
    | HaloColorChange(picker: HaloColorPicker, color: Int32)
    | OtherPreference

  /** The settings a change may write. */
  function KeysWrittenBy(c: Change): set<Key>
  {
    match c
    case ExpandedDesktopChange(v) =>
      if ParseInt(v).Some? then ExpandedDesktopKeys(ParseInt(v).value) else {}
    case NoNavbarChange(b) => ExpandedDesktopKeys(NoNavbarMode(b))
    case NavigationBarHeightChange(_) => {NavigationBarHeight}
    case ToggleChange(g, _) => {ToggleKey(g)}
    case HaloColorChange(p, _) => {HaloColorKey(p)}
    case _ => {}
  }

  /** The halo checkboxes' states. */
  datatype HaloChecks = HaloChecks(enabled: bool, hide: bool, reversed: bool, pause: bool, colors: bool)

  function HaloChecked(c: HaloChecks, b: HaloCheckbox): bool
  {
    match b
    case HaloEnabledBox => c.enabled
    case HaloHideBox => c.hide
    case HaloReversedBox => c.reversed
    case HaloPauseBox => c.pause
    case HaloColorsBox => c.colors
  }

  /** The halo colour pickers' summaries. */
  datatype HaloColorSummaries = HaloColorSummaries(
    circle: Option<string>, effect: Option<string>, bubble: Option<string>, bubbleText: Option<string>)

  function WithHaloColorSummary(s: HaloColorSummaries, p: HaloColorPicker, hex: string): HaloColorSummaries
  {
    match p
    case CirclePicker => s.(circle := Some(hex))
    case EffectPicker => s.(effect := Some(hex))
    case BubblePicker => s.(bubble := Some(hex))
    case BubbleTextPicker => s.(bubbleText := Some(hex))
  }

  /** What the screen's widgets show; `None` where a widget keeps what the layout gives it. */
  datatype Shown = Shown(
    expandedDesktopValue: Option<string>,
    expandedDesktopSummary: Option<ExpandedDesktopLabel>,
    noNavbarChecked: bool,
    pieAvailable: bool,
    pieSummary: Option<PieLabel>,
    navigationBarHeightValue: Option<string>,
    navigationBarHeightSummary: Option<string>,
    haloStateValue: Option<string>,
    halo: HaloChecks,
    haloColorSummaries: HaloColorSummaries,
    popups: bool,
    mmsBreath: bool,
    missedCallBreath: bool)

  /** The layout's widgets before `onCreate`: the pie control screen is present. */
  const Inflated: Shown := Shown(None, None, false, true, None, None, None, None,
                                 HaloChecks(false, false, false, false, false),
                                 HaloColorSummaries(None, None, None, None), false, false, false)

  /** How `onCreate` reads the halo checkboxes: a stored 1, with 1 as the default for reversing and, on a device without a large amount of RAM, for pausing. */
  function StoredHalo(t: Table, isLargeRam: bool): HaloChecks
  {
    HaloChecks(
      GetIntOr(t, HaloEnabled, 0) == 1,
      GetIntOr(t, HaloHide, 0) == 1,
      GetIntOr(t, HaloReversed, 1) == 1,
      GetIntOr(t, HaloPause, if isLargeRam then 0 else 1) == 1,
      GetIntOr(t, HaloColors, 0) == 1)
  }

  /** A halo checkbox click stores its state so that the next `onCreate` shows it again. */
  lemma StoredHaloAfterClick(t: Table, isLargeRam: bool, b: HaloCheckbox, checked: bool)
    ensures HaloChecked(StoredHalo(t[HaloKey(b) := Flag(checked)], isLargeRam), b) == checked
  {
  }

  class SystemUi {
    const store: Store
    /**
     * The window manager's answer to `hasNavigationBar`, or `None` when the call fails
     * (RemoteException).
     */
    const hasNavBar: Option<bool>
    /** The notification service's answer to `isHaloPolicyBlack`, `None` when the call fails. */
    const haloPolicyReply: Option<bool>
    /** `ActivityManager.isLargeRAM`. */
    const isLargeRam: bool
    const navigationBarHeightList: ListPreference
    /** The colour picker's own conversions, whose code is not part of this model. */
    const convertToARGB: Int32 -> string
    const convertToColorInt: string -> Int32

    var shown: Shown
    /** How many times the screen asked for the system UI to restart. */
    var restarts: nat
    /** The halo policies sent to the notification service, in order, whether or not they reached it. */
    var haloPolicyRequests: seq<bool>

    constructor (store: Store, hasNavBar: Option<bool>, haloPolicyReply: Option<bool>, isLargeRam: bool,
                 navigationBarHeightList: ListPreference, convertToARGB: Int32 -> string,
                 convertToColorInt: string -> Int32)
      ensures this.store == store && this.hasNavBar == hasNavBar && this.haloPolicyReply == haloPolicyReply
      ensures this.isLargeRam == isLargeRam && this.navigationBarHeightList == navigationBarHeightList
      ensures this.convertToARGB == convertToARGB && this.convertToColorInt == convertToColorInt
      ensures shown == Inflated && restarts == 0 && haloPolicyRequests == []
    {
      this.store := store;
      this.hasNavBar := hasNavBar;
      this.haloPolicyReply := haloPolicyReply;
      this.isLargeRam := isLargeRam;
      this.navigationBarHeightList := navigationBarHeightList;
      this.convertToARGB := convertToARGB;
      this.convertToColorInt := convertToColorInt;
      shown := Inflated;
      restarts := 0;
      haloPolicyRequests := [];
    }

    /**
     * `updateExpandedDesktop`: the settings `ExpandedDesktopTable` describes are written, and the
     * summary is set only for the modes 0, 1 and 2.
     */
    method UpdateExpandedDesktop(value: Int32)
      modifies store, this`shown
      ensures store.table == ExpandedDesktopTable(old(store.table), value)
      ensures shown == old(shown).(expandedDesktopSummary :=
        if ExpandedDesktopLabelFor(value).Some? then ExpandedDesktopLabelFor(value) else old(shown.expandedDesktopSummary))
    {
      var summary: Option<ExpandedDesktopLabel> := None;
      var ok := store.PutInt(ExpandedDesktopStyle, value);
      if value == 0 {
        ok := store.PutInt(PowerMenuExpandedDesktopEnabled, 0);
        ok := store.PutInt(ExpandedDesktopState, 0);
        summary := Some(ExpandedDesktopDisabled);
      } else if value == 1 {
        ok := store.PutInt(PowerMenuExpandedDesktopEnabled, 1);
        summary := Some(StatusBarVisible);
      } else if value == 2 {
        ok := store.PutInt(PowerMenuExpandedDesktopEnabled, 1);
        summary := Some(StatusBarHidden);
      }
      if summary.Some? {
        shown := shown.(expandedDesktopSummary := summary);
      }
    }

    /**
     * `onCreate`: the expanded desktop widgets follow the navigation bar query (a device with a
     * navigation bar runs `updateExpandedDesktop` on the stored mode, which writes it back), and
     * every other widget takes its state from the store.
     */
    method OnCreate()
      modifies store, this`shown
      ensures var t := old(store.table);
        store.table == if hasNavBar == Some(true) then ExpandedDesktopTable(t, GetIntOr(t, ExpandedDesktopStyle, 0)) else t
      ensures var t := old(store.table);
        var mode := GetIntOr(t, ExpandedDesktopStyle, 0);
        && shown.expandedDesktopValue ==
             (if hasNavBar == Some(true) then Some(IntToDecimal(mode)) else old(shown.expandedDesktopValue))
        && shown.expandedDesktopSummary ==
             (if hasNavBar == Some(true) && ExpandedDesktopLabelFor(mode).Some? then ExpandedDesktopLabelFor(mode)
              else old(shown.expandedDesktopSummary))
        && shown.noNavbarChecked == (if hasNavBar == Some(false) then NoNavbarChecked(t) else old(shown.noNavbarChecked))
        && shown.pieAvailable == (old(shown.pieAvailable) && hasNavBar != Some(false))
      ensures var t := old(store.table);
        && shown.navigationBarHeightValue == Some(IntToDecimal(GetIntOr(t, NavigationBarHeight, 48)))
        && shown.navigationBarHeightSummary ==
             EntryFor(navigationBarHeightList, IntToDecimal(GetIntOr(t, NavigationBarHeight, 48)))
        && shown.haloStateValue == Some(HaloStateValue(IsHaloPolicyBlack(haloPolicyReply)))
        && shown.halo == StoredHalo(t, isLargeRam)
      ensures var t := old(store.table);
        && shown.popups == (GetIntOr(t, WeWantPopups, 1) > 0)
        && shown.mmsBreath == (GetIntOr(t, MmsBreath, 1) > 0)
        && shown.missedCallBreath == (GetIntOr(t, MissedCallBreath, 1) > 0)
      ensures shown.pieSummary == old(shown.pieSummary) && shown.haloColorSummaries == old(shown.haloColorSummaries)
    {
      var t := store.table;
      ShowExpandedDesktop();
      ShowStoredValues(t);
    }

    /** The expanded desktop part of `onCreate`; a failed navigation bar query leaves it as it is. */
    method ShowExpandedDesktop()
      modifies store, this`shown
      ensures var t := old(store.table);
        store.table == if hasNavBar == Some(true) then ExpandedDesktopTable(t, GetIntOr(t, ExpandedDesktopStyle, 0)) else t
      ensures var t := old(store.table);
        var mode := GetIntOr(t, ExpandedDesktopStyle, 0);
        shown == old(shown).(
          expandedDesktopValue := if hasNavBar == Some(true) then Some(IntToDecimal(mode)) else old(shown.expandedDesktopValue),
          expandedDesktopSummary :=
            if hasNavBar == Some(true) && ExpandedDesktopLabelFor(mode).Some? then ExpandedDesktopLabelFor(mode)
            else old(shown.expandedDesktopSummary),
          noNavbarChecked := if hasNavBar == Some(false) then NoNavbarChecked(t) else old(shown.noNavbarChecked),
          pieAvailable := old(shown.pieAvailable) && hasNavBar != Some(false))
    {
      var expandedDesktopValue := GetIntOr(store.table, ExpandedDesktopStyle, 0);
      match hasNavBar {
        case None =>
        case Some(true) =>
          shown := shown.(expandedDesktopValue := Some(IntToDecimal(expandedDesktopValue)));
          UpdateExpandedDesktop(expandedDesktopValue);
        case Some(false) =>
          shown := shown.(noNavbarChecked := expandedDesktopValue > 0, pieAvailable := false);
      }
    }

    /** The rest of `onCreate`: the navigation bar height, the halo widgets and the notification toggles. */
    method ShowStoredValues(t: Table)
      modifies this`shown
      ensures shown == old(shown).(
        navigationBarHeightValue := Some(IntToDecimal(GetIntOr(t, NavigationBarHeight, 48))),
        navigationBarHeightSummary := EntryFor(navigationBarHeightList, IntToDecimal(GetIntOr(t, NavigationBarHeight, 48))),
        haloStateValue := Some(HaloStateValue(IsHaloPolicyBlack(haloPolicyReply))),
        halo := StoredHalo(t, isLargeRam),
        popups := GetIntOr(t, WeWantPopups, 1) > 0,
        mmsBreath := GetIntOr(t, MmsBreath, 1) > 0,
        missedCallBreath := GetIntOr(t, MissedCallBreath, 1) > 0)
    {
      var statusNavigationBarHeight := GetIntOr(t, NavigationBarHeight, 48);
      var isLowRam: Int32 := if isLargeRam then 0 else 1;
      shown := shown.(
        navigationBarHeightValue := Some(IntToDecimal(statusNavigationBarHeight)),
        navigationBarHeightSummary := EntryFor(navigationBarHeightList, IntToDecimal(statusNavigationBarHeight)),
        haloStateValue := Some(if IsHaloPolicyBlack(haloPolicyReply) then "1" else "0"),
        halo := HaloChecks(
          GetIntOr(t, HaloEnabled, 0) == 1, GetIntOr(t, HaloHide, 0) == 1, GetIntOr(t, HaloReversed, 1) == 1,
          GetIntOr(t, HaloPause, isLowRam) == 1, GetIntOr(t, HaloColors, 0) == 1),
        popups := GetIntOr(t, WeWantPopups, 1) > 0,
        mmsBreath := GetIntOr(t, MmsBreath, 1) > 0,
        missedCallBreath := GetIntOr(t, MissedCallBreath, 1) > 0);
    }

    /** `onResume`: the pie control summary, when the screen still has the pie control. */
    method OnResume()
      modifies this`shown
      ensures shown == old(shown).(pieSummary :=
        if shown.pieAvailable then Some(PieLabelFor(GetIntOr(store.table, PieControls, 0))) else old(shown.pieSummary))
    {
      if shown.pieAvailable {
        var enabled := GetIntOr(store.table, PieControls, 0) != 0;
        shown := shown.(pieSummary := Some(if enabled then PieEnabled else PieDisabled));
      }
    }

    /** Which changes end in an exception: a list value that is not a number, or a height that is not listed. */
    function Throws(c: Change): bool
      reads this
    {
      match c
      case ExpandedDesktopChange(v) => ParseInt(v).None?
      case NavigationBarHeightChange(v) => ParseInt(v).None? || v !in navigationBarHeightList.entryValues
      case HaloStateChange(v) => ParseInt(v).None?
      case _ => false
    }

    /**
     * `onPreferenceChange`: only the settings of the preference that fired are written, an
     * exception escapes exactly for the inputs `Throws` names, every known preference is handled,
     * and only the halo effect colour restarts the system UI.
     */
    method OnPreferenceChange(c: Change) returns (result: Outcome)
      modifies store, this`shown, this`restarts, this`haloPolicyRequests
      ensures forall k :: k !in KeysWrittenBy(c) ==> GetString(store.table, k) == GetString(old(store.table), k)
      ensures result == Threw <==> Throws(c)
      ensures result.Returned? ==> (result.handled <==> c != OtherPreference)
      ensures restarts == old(restarts) + (if c.HaloColorChange? && c.picker == EffectPicker then 1 else 0)
      ensures haloPolicyRequests == old(haloPolicyRequests) +
        (if c.HaloStateChange? && HaloStateBlack(c.value).Some? then [HaloStateBlack(c.value).value] else [])
      ensures c == OtherPreference ==> store.table == old(store.table) && shown == old(shown)
      ensures c.ExpandedDesktopChange? && ParseInt(c.value).None? ==>
        store.table == old(store.table) && shown == old(shown)
      ensures c.ExpandedDesktopChange? && ParseInt(c.value).Some? ==>
        var mode := ParseInt(c.value).value;
        && store.table == ExpandedDesktopTable(old(store.table), mode)
        && shown == old(shown).(expandedDesktopSummary :=
             if ExpandedDesktopLabelFor(mode).Some? then ExpandedDesktopLabelFor(mode) else old(shown.expandedDesktopSummary))
      ensures c.NoNavbarChange? ==>
        && store.table == ExpandedDesktopTable(old(store.table), NoNavbarMode(c.checked))
        && shown == old(shown).(expandedDesktopSummary := Some(if c.checked then StatusBarHidden else ExpandedDesktopDisabled))
      ensures c.NavigationBarHeightChange? && ParseInt(c.value).Some? ==>
        store.table == old(store.table)[NavigationBarHeight := IntToDecimal(ParseInt(c.value).value)]
      ensures c.NavigationBarHeightChange? && ParseInt(c.value).None? ==> store.table == old(store.table)
      ensures c.NavigationBarHeightChange? ==>
        shown == if result == Threw then old(shown)
                 else old(shown).(navigationBarHeightSummary := EntryFor(navigationBarHeightList, c.value))
      ensures c.HaloStateChange? ==> store.table == old(store.table) && shown == old(shown)
      ensures c.ToggleChange? ==>
        && store.table == old(store.table)[ToggleKey(c.toggle) := if c.checked then "1" else "0"]
        && shown == old(shown)
      ensures c.HaloColorChange? ==>
        && store.table == old(store.table)[HaloColorKey(c.picker) := IntToDecimal(convertToColorInt(convertToARGB(c.color)))]
        && shown == old(shown).(haloColorSummaries :=
             WithHaloColorSummary(old(shown.haloColorSummaries), c.picker, convertToARGB(c.color)))
    {
      match c
      case ExpandedDesktopChange(v) => result := OnExpandedDesktopChange(v);
      case NoNavbarChange(b) =>
        UpdateExpandedDesktop(NoNavbarMode(b));
        result := Returned(true);
      case NavigationBarHeightChange(v) => result := OnNavigationBarHeightChange(v);
      case HaloStateChange(v) => result := OnHaloStateChange(v);
      case ToggleChange(g, b) =>
        var ok := store.PutBoolean(ToggleKey(g), b);
        result := Returned(true);
      case HaloColorChange(p, color) => result := OnHaloColorChange(p, color);
      case OtherPreference => result := Returned(false);
    }

    /** The expanded desktop list: the parsed mode goes through `updateExpandedDesktop`. */
    method OnExpandedDesktopChange(value: string) returns (result: Outcome)
      modifies store, this`shown
      ensures ParseInt(value).None? ==> result == Threw && store.table == old(store.table) && shown == old(shown)
      ensures ParseInt(value).Some? ==>
        && result == Returned(true)
        && store.table == ExpandedDesktopTable(old(store.table), ParseInt(value).value)
        && shown == old(shown).(expandedDesktopSummary :=
             var mode := ParseInt(value).value;
             if ExpandedDesktopLabelFor(mode).Some? then ExpandedDesktopLabelFor(mode) else old(shown.expandedDesktopSummary))
    {
      var expandedDesktopValue := ParseInt(value);
      if expandedDesktopValue.None? {
        return Threw;
      }
      UpdateExpandedDesktop(expandedDesktopValue.value);
      return Returned(true);
    }

    /** The navigation bar height: stored, and the entry for it shown. */
    method OnNavigationBarHeightChange(value: string) returns (result: Outcome)
      modifies store, this`shown
      ensures ParseInt(value).None? ==> store.table == old(store.table)
      ensures ParseInt(value).Some? ==>
        store.table == old(store.table)[NavigationBarHeight := IntToDecimal(ParseInt(value).value)]
      ensures result == Threw <==> ParseInt(value).None? || value !in navigationBarHeightList.entryValues
      ensures result == Threw ==> shown == old(shown)
      ensures result != Threw ==>
        && result == Returned(true)
        && shown == old(shown).(navigationBarHeightSummary := EntryFor(navigationBarHeightList, value))
    {
      var entry;
      result, entry := PutListChoice(store, navigationBarHeightList, NavigationBarHeight, value);
      if result != Threw {
        shown := shown.(navigationBarHeightSummary := Some(entry));
      }
    }

    /**
     * The halo state: the policy is sent to the notification service, whose failure is ignored;
     * nothing is stored.
     */
    method OnHaloStateChange(value: string) returns (result: Outcome)
      modifies this`haloPolicyRequests
      ensures HaloStateBlack(value).None? ==> result == Threw && haloPolicyRequests == old(haloPolicyRequests)
      ensures HaloStateBlack(value).Some? ==>
        result == Returned(true) && haloPolicyRequests == old(haloPolicyRequests) + [HaloStateBlack(value).value]
    {
      var parsed := ParseInt(value);
      if parsed.None? {
        return Threw;
      }
      var state := parsed.value == 1;
      haloPolicyRequests := haloPolicyRequests + [state];
      return Returned(true);
    }

    /**
     * A halo colour: its ARGB text becomes the summary and its colour is stored; the effect colour
     * also restarts the system UI.
     */
    method OnHaloColorChange(p: HaloColorPicker, color: Int32) returns (result: Outcome)
      modifies store, this`shown, this`restarts
      ensures result == Returned(true)
      ensures store.table == old(store.table)[HaloColorKey(p) := IntToDecimal(convertToColorInt(convertToARGB(color)))]
      ensures shown == old(shown).(haloColorSummaries :=
        WithHaloColorSummary(old(shown.haloColorSummaries), p, convertToARGB(color)))
      ensures restarts == old(restarts) + (if p == EffectPicker then 1 else 0)
    {
      var hex := convertToARGB(color);
      shown := shown.(haloColorSummaries := WithHaloColorSummary(shown.haloColorSummaries, p, hex));
      var intHex := convertToColorInt(hex);
      var ok := store.PutInt(HaloColorKey(p), intHex);
      if p == EffectPicker {
        restarts := restarts + 1;
      }
      return Returned(true);
    }

    /**
     * `onPreferenceTreeClick`: a click on a halo checkbox stores its state as 1 or 0 under its own
     * setting, and the halo colours checkbox also restarts the system UI; every click, handled or
     * not, then returns the framework handler's answer `superResult`.
     */
    method OnPreferenceTreeClick(clicked: Option<HaloCheckbox>, superResult: bool) returns (handled: bool)
      modifies store, this`restarts
      ensures handled == superResult
      ensures clicked.Some? ==>
        store.table == old(store.table)[HaloKey(clicked.value) := Flag(HaloChecked(shown.halo, clicked.value))]
      ensures clicked.None? ==> store.table == old(store.table)
      ensures restarts == old(restarts) + (if clicked == Some(HaloColorsBox) then 1 else 0)
    {
      if clicked.Some? {
        var b := clicked.value;
        var ok := store.PutInt(HaloKey(b), if HaloChecked(shown.halo, b) then 1 else 0);
        if b == HaloColorsBox {
          restarts := restarts + 1;
        }
      }
      return superResult;
    }
  }
}
