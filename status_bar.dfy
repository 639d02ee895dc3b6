/**
 * The status bar settings screen: battery icon style and the circle battery options it enables,
 * circle colours and their reset, the auto-hide mode, and the checkboxes that store 1 or 0.
 */
module StatusBarScreen {
  import opened Wrappers
  import opened Decimal
  import opened ColorHex
  import opened SettingsStore
  import opened Preferences

  /** `SCREEN_BRIGHTNESS_MODE_AUTOMATIC`. */
  const ScreenBrightnessModeAutomatic: Int32 := 1

  /** Which circle battery options can be used. */
  datatype CircleOptions = CircleOptions(color: bool, textColor: bool, animationSpeed: bool, reset: bool)

  /**
   * The options a battery icon style enables: none for the plain icon styles 0, 1 and 5; the
   * circle without its percentage text for style 2; everything for any other style.
   */
  function CircleOptionsFor(style: int): (o: CircleOptions)
    ensures o.color == o.animationSpeed == o.reset
    ensures o.color <==> style !in {0, 1, 5}
    ensures o.textColor <==> style !in {0, 1, 2, 5}
  {
    if style == 0 || style == 1 || style == 5 then CircleOptions(false, false, false, false)
    else if style == 2 then CircleOptions(true, false, true, true)
    else CircleOptions(true, true, true, true)
  }

  /** The auto-hide summaries. */
  datatype AutoHideLabel = AutoHideOff | AutoHideNonPermanent | AutoHideAll

  function AutoHideLabelFor(value: int): (l: AutoHideLabel)
    ensures l == AutoHideOff <==> value == 0
    ensures l == AutoHideNonPermanent <==> value == 1
    ensures l == AutoHideAll <==> value != 0 && value != 1
  {
    if value == 0 then AutoHideOff else if value == 1 then AutoHideNonPermanent else AutoHideAll
  }

  /** The clock style summaries. */
  datatype ClockLabel = ClockEnabled | ClockDisabled

  function ClockLabelFor(value: int): (l: ClockLabel)
    ensures l == ClockEnabled <==> value == 1
  {
    if value == 1 then ClockEnabled else ClockDisabled
  }

  /** The checkboxes whose clicks the screen handles. */
  datatype Checkbox =
    | BrightnessControl | NotifCount | BatteryBarAnimate | Fullscreen
    | TrafficEnable | TrafficHide

  /** The setting each checkbox stores its state under. */
  function CheckboxKey(b: Checkbox): Key
  {
    match b
    case BrightnessControl => StatusBarBrightnessControl
    case NotifCount => StatusBarNotifCount
    case BatteryBarAnimate => StatusbarBatteryBarAnimate
    case Fullscreen => FullscreenStatusbar
    case TrafficEnable => StatusBarTrafficEnable
    case TrafficHide => StatusBarTrafficHide
  }

  /** The list preferences, whose new value arrives as the chosen value's text. */
  datatype ValuePreference =
    | BatteryStyle | SignalStyle | CircleAnimationSpeed | BatteryBar | BatteryBarStyle
    | BatteryBarThickness | FullscreenTimeout | AutoHide

  /** The colour pickers, whose new value arrives as an `int`. */
  datatype ColorPicker = CircleColor | CircleTextColor | BatteryBarColor

  /** A preference change: which preference fired, with its new value. */
  datatype Change =
    | ValueChange(pref: ValuePreference, value: string)
    | ColorChange(picker: ColorPicker, color: Int32)
    | CircleColorReset
    | OtherPreference

  /** The setting a list preference stores its value under. */
  function ValueKey(p: ValuePreference): Key
  {
    match p
    case BatteryStyle => StatusBarBattery
    case SignalStyle => StatusBarSignalText
    case CircleAnimationSpeed => StatusBarCircleBatteryAnimationSpeed
    case BatteryBar => StatusbarBatteryBar
    case BatteryBarStyle => StatusbarBatteryBarStyle
    case BatteryBarThickness => StatusbarBatteryBarThickness
    case FullscreenTimeout => FullscreenStatusbarTimeout
    case AutoHide => AutoHideStatusbar
  }

  /** The setting a colour picker stores its colour under. */
  function ColorKey(p: ColorPicker): Key
  {
    match p
    case CircleColor => StatusBarCircleBatteryColor
    case CircleTextColor => StatusBarCircleBatteryTextColor
    case BatteryBarColor => StatusbarBatteryBarColor
  }

  /** The only settings a change may write. */
  function KeysWrittenBy(c: Change): set<Key>
  {
    match c
    case ValueChange(p, _) => {ValueKey(p)}
    case ColorChange(BatteryBarColor, _) => {StatusbarBatteryBarColor}
    case ColorChange(p, _) => {ColorKey(p), StatusBarCircleBatteryReset}
    case CircleColorReset =>
      {StatusBarCircleBatteryReset, StatusBarCircleBatteryColor, StatusBarCircleBatteryTextColor}
    case OtherPreference => {}
  }

  /** The state of each checkbox, as the screen shows it. */
  datatype CheckStates = CheckStates(
    brightnessControl: bool, notifCount: bool, batteryBarAnimate: bool,
    fullscreen: bool, trafficEnable: bool, trafficHide: bool)

  function Checked(c: CheckStates, b: Checkbox): bool
  {
    match b
    case BrightnessControl => c.brightnessControl
    case NotifCount => c.notifCount
    case BatteryBarAnimate => c.batteryBarAnimate
    case Fullscreen => c.fullscreen
    case TrafficEnable => c.trafficEnable
    case TrafficHide => c.trafficHide
  }

  /**
   * How `onCreate` reads a checkbox's state from the store: a stored 1, with 0 as the default
   * except for the traffic-hide flag (default 1); the full-screen flag is read with `getBoolean`
   * (default true).
   */
  function StoredChecked(t: Table, b: Checkbox): bool
  {
    match b
    case Fullscreen => GetBoolean(t, CheckboxKey(b), true)
    case TrafficHide => GetIntOr(t, CheckboxKey(b), 1) == 1
    case _ => GetIntOr(t, CheckboxKey(b), 0) == 1
  }

  /** The states `onCreate` gives the checkboxes, one `StoredChecked` per box, as `LoadedChecksAfterClick` uses them. */
  function LoadedChecks(t: Table): (c: CheckStates)
    ensures forall b: Checkbox :: Checked(c, b) == StoredChecked(t, b)
  {
    CheckStates(
      StoredChecked(t, BrightnessControl), StoredChecked(t, NotifCount),
      StoredChecked(t, BatteryBarAnimate), StoredChecked(t, Fullscreen),
      StoredChecked(t, TrafficEnable), StoredChecked(t, TrafficHide))
  }

  /** A click stores the checkbox state so that the next `onCreate` shows it again. */
  lemma StoredCheckedAfterClick(t: Table, b: Checkbox, checked: bool)
    ensures StoredChecked(t[CheckboxKey(b) := Flag(checked)], b) == checked
  {
  }

  /**
   * After a click, the next `onCreate` shows the clicked checkbox in its new state and every other
   * checkbox as before.
   */
  lemma LoadedChecksAfterClick(t: Table, b: Checkbox, checked: bool)
    ensures Checked(LoadedChecks(t[CheckboxKey(b) := Flag(checked)]), b) == checked
    ensures forall other: Checkbox :: other != b ==>
      Checked(LoadedChecks(t[CheckboxKey(b) := Flag(checked)]), other) == Checked(LoadedChecks(t), other)
  {
    StoredCheckedAfterClick(t, b, checked);
  }

  /** The number a list shows when nothing is stored for it. */
  function ListDefault(p: ValuePreference): Int32
  {
    match p
    case CircleAnimationSpeed => 3
    case BatteryBarThickness => 1
    case FullscreenTimeout => 10000
    case _ => 0
  }

  /** The values the lists select. */
  datatype ListValues = ListValues(
    battery: string, signal: string, animationSpeed: string, batteryBar: string,
    batteryBarStyle: string, batteryBarThickness: string, fullscreenTimeout: string, autoHide: string)

  function ListValue(l: ListValues, p: ValuePreference): string
  {
    match p
    case BatteryStyle => l.battery
    case SignalStyle => l.signal
    case CircleAnimationSpeed => l.animationSpeed
    case BatteryBar => l.batteryBar
    case BatteryBarStyle => l.batteryBarStyle
    case BatteryBarThickness => l.batteryBarThickness
    case FullscreenTimeout => l.fullscreenTimeout
    case AutoHide => l.autoHide
  }

  /** The decimal text of the number stored for a list, or of its default. */
  function StoredValue(t: Table, p: ValuePreference): string
  {
    IntToDecimal(GetIntOr(t, ValueKey(p), ListDefault(p)))
  }

  /** The values `onCreate` selects in the lists. */
  function LoadedValues(t: Table): ListValues
  {
    ListValues(
      StoredValue(t, BatteryStyle), StoredValue(t, SignalStyle), StoredValue(t, CircleAnimationSpeed),
      StoredValue(t, BatteryBar), StoredValue(t, BatteryBarStyle), StoredValue(t, BatteryBarThickness),
      StoredValue(t, FullscreenTimeout), StoredValue(t, AutoHide))
  }

  /**
   * Storing a number for one list makes the next `onCreate` select that number in it and leaves
   * the other lists' values as they were.
   */
  lemma LoadedValuesAfterStore(t: Table, p: ValuePreference, n: Int32)
    ensures ListValue(LoadedValues(t[ValueKey(p) := IntToDecimal(n)]), p) == IntToDecimal(n)
    ensures forall q: ValuePreference :: q != p ==>
      ListValue(LoadedValues(t[ValueKey(p) := IntToDecimal(n)]), q) == ListValue(LoadedValues(t), q)
  {
    var t' := t[ValueKey(p) := IntToDecimal(n)];
    GetIntAfterPutInt(t, ValueKey(p), n, ListDefault(p));
    forall q: ValuePreference | q != p
      ensures ListValue(LoadedValues(t'), q) == ListValue(LoadedValues(t), q)
    {
      assert GetString(t', ValueKey(q)) == GetString(t, ValueKey(q));
    }
  }

  /** The brightness control checkbox's availability. */
  datatype BrightnessState = BrightnessState(enabled: bool, showsToggleInfo: bool)

  /** What the screen's widgets show; the summaries the layout inflates with are `None`. */
  datatype Shown = Shown(
    circleColorSummary: Option<string>,
    circleTextColorSummary: Option<string>,
    batteryBarColorSummary: Option<string>,
    circleOptions: CircleOptions,
    batterySummary: Option<string>,
    signalSummary: Option<string>,
    animationSpeedSummary: Option<string>,
    autoHideSummary: Option<AutoHideLabel>,
    clockSummary: Option<ClockLabel>,
    brightness: BrightnessState,
    checks: CheckStates,
    listValues: Option<ListValues>)

  const Inflated: Shown := Shown(None, None, None, CircleOptions(true, true, true, true),
                                 None, None, None, None, None, BrightnessState(true, false),
                                 CheckStates(false, false, false, false, false, true), None)

  /**
   * `getBoolean(name, def)` of the platform's settings table: a stored "1" is true, any other
   * stored text false, and `def` applies when nothing is stored.
   */
  function GetBoolean(t: Table, k: Key, def: bool): (b: bool)
    ensures k !in t ==> b == def
    ensures k in t ==> (b <==> t[k] == "1")
  {
    match GetString(t, k)
    case None => def
    case Some(v) => v == "1"
  }

  /** Whether the store asks for the circle colours to be reset. */
  function ResetRequested(t: Table): bool
  {
    GetIntOr(t, StatusBarCircleBatteryReset, 0) == 1
  }

  class StatusBar {
    const store: Store
    /** The `holo_blue_dark` colour resource: the default of both circle colours. */
    const defaultColor: Int32
    const batteryList: ListPreference
    const signalList: ListPreference
    const animationSpeedList: ListPreference
    /** Whether the layout holds the clock style screen (`findPreference` may return null). */
    const hasClockStyle: bool
    /** The colour picker's own conversions, whose code is not part of this model. */
    const convertToARGB: Int32 -> string
    const convertToColorInt: string -> Int32

    var shown: Shown

    constructor (store: Store, defaultColor: Int32, batteryList: ListPreference,
                 signalList: ListPreference, animationSpeedList: ListPreference,
                 hasClockStyle: bool, convertToARGB: Int32 -> string,
                 convertToColorInt: string -> Int32)
      ensures this.store == store && this.defaultColor == defaultColor
      ensures this.batteryList == batteryList && this.signalList == signalList
      ensures this.animationSpeedList == animationSpeedList && this.hasClockStyle == hasClockStyle
      ensures this.convertToARGB == convertToARGB && this.convertToColorInt == convertToColorInt
      ensures shown == Inflated
    {
      this.store := store;
      this.defaultColor := defaultColor;
      this.batteryList := batteryList;
      this.signalList := signalList;
      this.animationSpeedList := animationSpeedList;
      this.hasClockStyle := hasClockStyle;
      this.convertToARGB := convertToARGB;
      this.convertToColorInt := convertToColorInt;
      shown := Inflated;
    }

    /** The table after both circle colours are put back to the default. */
    function ResetColors(t: Table): Table
    {
      t[StatusBarCircleBatteryColor := IntToDecimal(defaultColor)]
       [StatusBarCircleBatteryTextColor := IntToDecimal(defaultColor)]
    }

    /**
     * What the screen shows agrees with the store: the auto-hide summary and the enabled circle
     * options follow the stored values, and a set reset flag means both circle colours are the
     * default, stored and shown.
     */
    ghost predicate Consistent()
      reads this, store
    {
      var t := store.table;
      && shown.autoHideSummary == Some(AutoHideLabelFor(GetIntOr(t, AutoHideStatusbar, 0)))
      && shown.circleOptions == CircleOptionsFor(GetIntOr(t, StatusBarBattery, 0))
      && (ResetRequested(t) ==>
            && GetString(t, StatusBarCircleBatteryColor) == Some(IntToDecimal(defaultColor))
            && GetString(t, StatusBarCircleBatteryTextColor) == Some(IntToDecimal(defaultColor))
            && shown.circleColorSummary == Some(FormatColor(defaultColor))
            && shown.circleTextColorSummary == Some(FormatColor(defaultColor)))
    }

    /** `onCreate`: every widget takes its state from the store, the lists their values included. */
    method OnCreate()
      modifies this, store
      ensures Consistent()
      ensures var t := old(store.table);
        store.table == if ResetRequested(t) then ResetColors(t) else t
      ensures var t := old(store.table);
        && shown.circleColorSummary == Some(FormatColor(
             if ResetRequested(t) then defaultColor else GetIntOr(t, StatusBarCircleBatteryColor, defaultColor)))
        && shown.circleTextColorSummary == Some(FormatColor(
             if ResetRequested(t) then defaultColor else GetIntOr(t, StatusBarCircleBatteryTextColor, defaultColor)))
      ensures var t := old(store.table);
        var automatic := GetInt(t, ScreenBrightnessMode) == Some(ScreenBrightnessModeAutomatic);
        shown.brightness == BrightnessState(old(shown.brightness.enabled) && !automatic,
                                            old(shown.brightness.showsToggleInfo) || automatic)
      ensures var t := old(store.table);
        && shown.batterySummary == EntryFor(batteryList, IntToDecimal(GetIntOr(t, StatusBarBattery, 0)))
        && shown.signalSummary == EntryFor(signalList, IntToDecimal(GetIntOr(t, StatusBarSignalText, 0)))
        && shown.animationSpeedSummary ==
             EntryFor(animationSpeedList, IntToDecimal(GetIntOr(t, StatusBarCircleBatteryAnimationSpeed, 3)))
      ensures shown.checks == LoadedChecks(old(store.table))
      ensures shown.listValues == Some(LoadedValues(old(store.table)))
      ensures var t := old(store.table);
        && shown.circleOptions == CircleOptionsFor(GetIntOr(t, StatusBarBattery, 0))
        && shown.autoHideSummary == Some(AutoHideLabelFor(GetIntOr(t, AutoHideStatusbar, 0)))
        && shown.clockSummary ==
             if hasClockStyle then Some(ClockLabelFor(GetIntOr(t, StatusBarClock, 0))) else old(shown.clockSummary)
      ensures shown.batteryBarColorSummary == old(shown.batteryBarColorSummary)
    {
      var t := store.table;
      ShowStoredValues(t);
      ShowDerivedState(t);
    }

    /**
     * The rest of `onCreate`: the auto-hide summary, the colour reset the store may ask for, the
     * clock description when the layout has it, and the circle options.
     */
    method ShowDerivedState(t: Table)
      requires store.table == t
      modifies store, this`shown
      ensures Consistent()
      ensures store.table == if ResetRequested(t) then ResetColors(t) else t
      ensures shown == old(shown).(
        circleColorSummary := if ResetRequested(t) then Some(FormatColor(defaultColor)) else old(shown.circleColorSummary),
        circleTextColorSummary :=
          if ResetRequested(t) then Some(FormatColor(defaultColor)) else old(shown.circleTextColorSummary),
        circleOptions := CircleOptionsFor(GetIntOr(t, StatusBarBattery, 0)),
        autoHideSummary := Some(AutoHideLabelFor(GetIntOr(t, AutoHideStatusbar, 0))),
        clockSummary :=
          if hasClockStyle then Some(ClockLabelFor(GetIntOr(t, StatusBarClock, 0))) else old(shown.clockSummary))
    {
      UpdateStatusBarAutoHideSummary(GetIntOr(t, AutoHideStatusbar, 0));
      if ResetRequested(t) {
        CircleColorResetAction();
      }
      if hasClockStyle {
        UpdateClockStyleDescription();
      }
      UpdateBatteryIconOptions();
    }

    /**
     * The part of `onCreate` that shows stored values: the lists' values and summaries, the colour
     * summaries, the brightness control and the checkboxes.
     */
    method ShowStoredValues(t: Table)
      modifies this`shown
      ensures shown.circleColorSummary == Some(FormatColor(GetIntOr(t, StatusBarCircleBatteryColor, defaultColor)))
      ensures shown.circleTextColorSummary == Some(FormatColor(GetIntOr(t, StatusBarCircleBatteryTextColor, defaultColor)))
      ensures var automatic := GetInt(t, ScreenBrightnessMode) == Some(ScreenBrightnessModeAutomatic);
        shown.brightness == BrightnessState(old(shown.brightness.enabled) && !automatic,
                                            old(shown.brightness.showsToggleInfo) || automatic)
      ensures shown.batterySummary == EntryFor(batteryList, IntToDecimal(GetIntOr(t, StatusBarBattery, 0)))
      ensures shown.signalSummary == EntryFor(signalList, IntToDecimal(GetIntOr(t, StatusBarSignalText, 0)))
      ensures shown.animationSpeedSummary ==
                EntryFor(animationSpeedList, IntToDecimal(GetIntOr(t, StatusBarCircleBatteryAnimationSpeed, 3)))
      ensures shown.checks == LoadedChecks(t)
      ensures shown.listValues == Some(LoadedValues(t))
      ensures shown.batteryBarColorSummary == old(shown.batteryBarColorSummary)
      ensures shown.clockSummary == old(shown.clockSummary)
    {
      var circleColor := GetIntOr(t, StatusBarCircleBatteryColor, defaultColor);
      var circleTextColor := GetIntOr(t, StatusBarCircleBatteryTextColor, defaultColor);
      var speed := GetIntOr(t, StatusBarCircleBatteryAnimationSpeed, 3);
      var brightness := shown.brightness;
      var mode := GetInt(t, ScreenBrightnessMode);
      if mode.Some? && mode.value == ScreenBrightnessModeAutomatic {
        brightness := BrightnessState(false, true);
      }
      var statusBarBattery := GetIntOr(t, StatusBarBattery, 0);
      var signalStyle := GetIntOr(t, StatusBarSignalText, 0);
      shown := shown.(
        circleColorSummary := Some(FormatColor(circleColor)),
        circleTextColorSummary := Some(FormatColor(circleTextColor)),
        animationSpeedSummary := EntryFor(animationSpeedList, IntToDecimal(speed)),
        brightness := brightness,
        batterySummary := EntryFor(batteryList, IntToDecimal(statusBarBattery)),
        signalSummary := EntryFor(signalList, IntToDecimal(signalStyle)),
        checks := LoadedChecks(t),
        listValues := Some(LoadedValues(t)));
    }

    /** `updateBatteryIconOptions`: the circle options follow the stored battery style. */
    method UpdateBatteryIconOptions()
      modifies this`shown
      ensures shown == old(shown).(circleOptions := shown.circleOptions)
      ensures shown.circleOptions == CircleOptionsFor(GetIntOr(store.table, StatusBarBattery, 0))
    {
      var batteryIconStat := GetIntOr(store.table, StatusBarBattery, 0);
      if batteryIconStat == 0 || batteryIconStat == 1 || batteryIconStat == 5 {
        shown := shown.(circleOptions := CircleOptions(false, false, false, false));
      } else if batteryIconStat == 2 {
        shown := shown.(circleOptions := CircleOptions(true, false, true, true));
      } else {
        shown := shown.(circleOptions := CircleOptions(true, true, true, true));
      }
    }

    /** `updateStatusBarAutoHideSummary`. */
    method UpdateStatusBarAutoHideSummary(value: Int32)
      modifies this`shown
      ensures shown == old(shown).(autoHideSummary := Some(AutoHideLabelFor(value)))
    {
      if value == 0 {
        shown := shown.(autoHideSummary := Some(AutoHideOff));
      } else {
        shown := shown.(autoHideSummary := Some(if value == 1 then AutoHideNonPermanent else AutoHideAll));
      }
    }

    /** `updateClockStyleDescription`, for a layout that holds the clock style screen. */
    method UpdateClockStyleDescription()
      requires hasClockStyle
      modifies this`shown
      ensures shown == old(shown).(clockSummary := Some(ClockLabelFor(GetIntOr(store.table, StatusBarClock, 0))))
    {
      if GetIntOr(store.table, StatusBarClock, 0) == 1 {
        shown := shown.(clockSummary := Some(ClockEnabled));
      } else {
        shown := shown.(clockSummary := Some(ClockDisabled));
      }
    }

    /**
     * `circleColorReset`: both circle colours get the same default, stored and shown with the same
     * `#%08x` summary.
     */
    method CircleColorResetAction()
      modifies store, this`shown
      ensures store.table == ResetColors(old(store.table))
      ensures shown == old(shown).(circleColorSummary := Some(FormatColor(defaultColor)),
                                   circleTextColorSummary := Some(FormatColor(defaultColor)))
    {
      var ok := store.PutInt(StatusBarCircleBatteryColor, defaultColor);
      ok := store.PutInt(StatusBarCircleBatteryTextColor, defaultColor);
      var hexColor := FormatColor(defaultColor);
      shown := shown.(circleColorSummary := Some(hexColor), circleTextColorSummary := Some(hexColor));
    }

    /** `onResume` as written: the clock description is refreshed without the null check `onCreate` makes. */
    method OnResumeAsWritten() returns (threw: bool)
      modifies this`shown
      ensures threw <==> !hasClockStyle
      ensures threw ==> shown == old(shown)
      ensures !threw ==>
        shown == old(shown).(clockSummary := Some(ClockLabelFor(GetIntOr(store.table, StatusBarClock, 0))))
    {
      if !hasClockStyle {
        return true;
      }
      UpdateClockStyleDescription();
      return false;
    }

    /** `onResume`, guarded like `onCreate`: the clock description is refreshed when the layout has it. */
    method OnResume()
      modifies this`shown
      ensures shown == old(shown).(clockSummary :=
        if hasClockStyle then Some(ClockLabelFor(GetIntOr(store.table, StatusBarClock, 0))) else old(shown.clockSummary))
    {
      if hasClockStyle {
        UpdateClockStyleDescription();
      }
    }

    /**
     * Which changes end in an exception: text that is not a number, and a value missing from the
     * battery style, signal style or animation speed list.
     */
    function Throws(change: Change): bool
    {
      match change
      case ValueChange(BatteryStyle, v) => ParseInt(v).None? || v !in batteryList.entryValues
      case ValueChange(SignalStyle, v) => ParseInt(v).None? || v !in signalList.entryValues
      case ValueChange(CircleAnimationSpeed, v) => ParseInt(v).None? || v !in animationSpeedList.entryValues
      case ValueChange(_, v) => ParseInt(v).None?
      case _ => false
    }

    /**
     * The table after a change that does not throw, and after one that throws once its write is
     * made: a parsed list value is stored under its own setting, a picked colour is stored (the
     * circle colours also clear the reset flag), and the reset preference sets the flag and resets
     * both circle colours.
     */
    function TableAfter(t: Table, change: Change): Table
    {
      match change
      case ValueChange(p, v) =>
        if ParseInt(v).Some? then t[ValueKey(p) := IntToDecimal(ParseInt(v).value)] else t
      case ColorChange(p, color) =>
        var stored := t[ColorKey(p) := IntToDecimal(convertToColorInt(convertToARGB(color)))];
        if p == BatteryBarColor then stored else stored[StatusBarCircleBatteryReset := IntToDecimal(0)]
      case CircleColorReset => ResetColors(t[StatusBarCircleBatteryReset := IntToDecimal(1)])
      case OtherPreference => t
    }

    /**
     * What the screen shows after a change that does not throw: the list entry (with the circle
     * options for the battery style), the auto-hide label, the picked colour's ARGB text, or the
     * default colour's text after a reset.
     */
    function ShownAfter(s: Shown, change: Change): Shown
    {
      match change
      case ValueChange(BatteryStyle, v) =>
        if ParseInt(v).Some? then
          s.(batterySummary := EntryFor(batteryList, v), circleOptions := CircleOptionsFor(ParseInt(v).value))
        else s
      case ValueChange(SignalStyle, v) => s.(signalSummary := EntryFor(signalList, v))
      case ValueChange(CircleAnimationSpeed, v) => s.(animationSpeedSummary := EntryFor(animationSpeedList, v))
      case ValueChange(AutoHide, v) =>
        if ParseInt(v).Some? then s.(autoHideSummary := Some(AutoHideLabelFor(ParseInt(v).value))) else s
      case ValueChange(_, _) => s
      case ColorChange(CircleColor, color) => s.(circleColorSummary := Some(convertToARGB(color)))
      case ColorChange(CircleTextColor, color) => s.(circleTextColorSummary := Some(convertToARGB(color)))
      case ColorChange(BatteryBarColor, color) => s.(batteryBarColorSummary := Some(convertToARGB(color)))
      case CircleColorReset =>
        s.(circleColorSummary := Some(FormatColor(defaultColor)), circleTextColorSummary := Some(FormatColor(defaultColor)))
      case OtherPreference => s
    }

    /** A change writes nothing outside the settings `KeysWrittenBy` names. */
    lemma TableAfterWritesOnlyItsKeys(t: Table, change: Change)
      ensures forall k :: k !in KeysWrittenBy(change) ==> GetString(TableAfter(t, change), k) == GetString(t, k)
    {
    }

    /**
     * `onPreferenceChange`: only the settings of the preference that fired are written, an
     * exception escapes exactly for the inputs `Throws` names, every other change of a known
     * preference is handled, and a change of another preference is declined with nothing written.
     */
    method OnPreferenceChange(change: Change) returns (result: Outcome)
      modifies store, this`shown
      ensures forall k :: k !in KeysWrittenBy(change) ==> GetString(store.table, k) == GetString(old(store.table), k)
      ensures result == Threw <==> Throws(change)
      ensures result.Returned? ==> (result.handled <==> change != OtherPreference)
      ensures change == OtherPreference ==> store.table == old(store.table) && shown == old(shown)
      ensures old(Consistent()) && result != Threw ==> Consistent()
      ensures store.table == TableAfter(old(store.table), change)
      ensures shown == if result == Threw then old(shown) else ShownAfter(old(shown), change)
    {
      match change
      case ValueChange(p, v) => result := OnValueChange(p, v);
      case ColorChange(p, c) => result := OnColorChange(p, c);
      case CircleColorReset => result := OnCircleColorResetChange();
      case OtherPreference => result := Returned(false);
    }

    /** The list preferences' branches of `onPreferenceChange`. */
    method OnValueChange(pref: ValuePreference, value: string) returns (result: Outcome)
      modifies store, this`shown
      ensures forall k :: k != ValueKey(pref) ==> GetString(store.table, k) == GetString(old(store.table), k)
      ensures result == Threw <==> Throws(ValueChange(pref, value))
      ensures result != Threw ==> result == Returned(true)
      ensures old(Consistent()) && result != Threw ==> Consistent()
      ensures store.table == TableAfter(old(store.table), ValueChange(pref, value))
      ensures shown == if result == Threw then old(shown) else ShownAfter(old(shown), ValueChange(pref, value))
    {
      match pref
      case BatteryStyle => result := OnBatteryStyleChange(value);
      case SignalStyle => result := OnSignalStyleChange(value);
      case CircleAnimationSpeed => result := OnCircleAnimationSpeedChange(value);
      case BatteryBar => result := PutParsed(store, StatusbarBatteryBar, value);
      case BatteryBarStyle => result := PutParsed(store, StatusbarBatteryBarStyle, value);
      case BatteryBarThickness => result := PutParsed(store, StatusbarBatteryBarThickness, value);
      case FullscreenTimeout => result := PutParsed(store, FullscreenStatusbarTimeout, value);
      case AutoHide => result := OnAutoHideChange(value);
    }

    /** The colour pickers' branches of `onPreferenceChange`. */
    method OnColorChange(picker: ColorPicker, color: Int32) returns (result: Outcome)
      modifies store, this`shown
      ensures forall k :: k !in KeysWrittenBy(ColorChange(picker, color)) ==>
        GetString(store.table, k) == GetString(old(store.table), k)
      ensures result == Returned(true)
      ensures old(Consistent()) ==> Consistent()
      ensures store.table == TableAfter(old(store.table), ColorChange(picker, color))
      ensures shown == ShownAfter(old(shown), ColorChange(picker, color))
    {
      match picker
      case CircleColor => result := OnCircleColorChange(color);
      case CircleTextColor => result := OnCircleTextColorChange(color);
      case BatteryBarColor => result := OnBatteryBarColorChange(color);
    }

    /** A colour picker's new colour: its ARGB text becomes the summary, and its colour is stored. */
    method PutPickedColor(k: Key, color: Int32) returns (hex: string)
      modifies store
      ensures hex == convertToARGB(color)
      ensures store.table == old(store.table)[k := IntToDecimal(convertToColorInt(hex))]
    {
      hex := convertToARGB(color);
      var intHex := convertToColorInt(hex);
      var ok := store.PutInt(k, intHex);
    }

    /** The battery style: stored, its entry shown, and the circle options updated to it. */
    method OnBatteryStyleChange(value: string) returns (result: Outcome)
      modifies store, this`shown
      ensures ParseInt(value).None? ==> store.table == old(store.table)
      ensures ParseInt(value).Some? ==>
        store.table == old(store.table)[StatusBarBattery := IntToDecimal(ParseInt(value).value)]
      ensures result == Threw <==> ParseInt(value).None? || value !in batteryList.entryValues
      ensures result == Threw ==> shown == old(shown)
      ensures result != Threw ==>
        && result == Returned(true)
        && shown == old(shown).(batterySummary := EntryFor(batteryList, value),
                                circleOptions := CircleOptionsFor(ParseInt(value).value))
      ensures old(Consistent()) && result != Threw ==> Consistent()
    {
      var entry;
      result, entry := PutListChoice(store, batteryList, StatusBarBattery, value);
      if result != Threw {
        GetIntAfterPutInt(old(store.table), StatusBarBattery, ParseInt(value).value, 0);
        shown := shown.(batterySummary := Some(entry));
        UpdateBatteryIconOptions();
      }
    }

    /** The signal style: stored and its entry shown. */
    method OnSignalStyleChange(value: string) returns (result: Outcome)
      modifies store, this`shown
      ensures ParseInt(value).None? ==> store.table == old(store.table)
      ensures ParseInt(value).Some? ==>
        store.table == old(store.table)[StatusBarSignalText := IntToDecimal(ParseInt(value).value)]
      ensures result == Threw <==> ParseInt(value).None? || value !in signalList.entryValues
      ensures result == Threw ==> shown == old(shown)
      ensures result != Threw ==>
        && result == Returned(true)
        && shown == old(shown).(signalSummary := EntryFor(signalList, value))
      ensures old(Consistent()) && result != Threw ==> Consistent()
    {
      var entry;
      result, entry := PutListChoice(store, signalList, StatusBarSignalText, value);
      if result != Threw {
        shown := shown.(signalSummary := Some(entry));
      }
    }

    /** The circle animation speed: stored and its entry shown. */
    method OnCircleAnimationSpeedChange(value: string) returns (result: Outcome)
      modifies store, this`shown
      ensures ParseInt(value).None? ==> store.table == old(store.table)
      ensures ParseInt(value).Some? ==>
        store.table == old(store.table)[StatusBarCircleBatteryAnimationSpeed := IntToDecimal(ParseInt(value).value)]
      ensures result == Threw <==> ParseInt(value).None? || value !in animationSpeedList.entryValues
      ensures result == Threw ==> shown == old(shown)
      ensures result != Threw ==>
        && result == Returned(true)
        && shown == old(shown).(animationSpeedSummary := EntryFor(animationSpeedList, value))
      ensures old(Consistent()) && result != Threw ==> Consistent()
    {
      var entry;
      result, entry := PutListChoice(store, animationSpeedList, StatusBarCircleBatteryAnimationSpeed, value);
      if result != Threw {
        shown := shown.(animationSpeedSummary := Some(entry));
      }
    }

    /** A picked circle colour is stored and shown, and clears the reset flag. */
    method OnCircleColorChange(color: Int32) returns (result: Outcome)
      modifies store, this`shown
      ensures result == Returned(true)
      ensures store.table == old(store.table)
        [StatusBarCircleBatteryColor := IntToDecimal(convertToColorInt(convertToARGB(color)))]
        [StatusBarCircleBatteryReset := IntToDecimal(0)]
      ensures shown == old(shown).(circleColorSummary := Some(convertToARGB(color)))
      ensures !ResetRequested(store.table)
      ensures old(Consistent()) ==> Consistent()
    {
      var hex := PutPickedColor(StatusBarCircleBatteryColor, color);
      shown := shown.(circleColorSummary := Some(hex));
      var ok := store.PutInt(StatusBarCircleBatteryReset, 0);
      GetIntAfterPutInt(old(store.table)[StatusBarCircleBatteryColor := IntToDecimal(convertToColorInt(hex))],
                        StatusBarCircleBatteryReset, 0, 0);
      return Returned(true);
    }

    /** A picked circle text colour is stored and shown, and clears the reset flag. */
    method OnCircleTextColorChange(color: Int32) returns (result: Outcome)
      modifies store, this`shown
      ensures result == Returned(true)
      ensures store.table == old(store.table)
        [StatusBarCircleBatteryTextColor := IntToDecimal(convertToColorInt(convertToARGB(color)))]
        [StatusBarCircleBatteryReset := IntToDecimal(0)]
      ensures shown == old(shown).(circleTextColorSummary := Some(convertToARGB(color)))
      ensures !ResetRequested(store.table)
      ensures old(Consistent()) ==> Consistent()
    {
      var hex := PutPickedColor(StatusBarCircleBatteryTextColor, color);
      shown := shown.(circleTextColorSummary := Some(hex));
      var ok := store.PutInt(StatusBarCircleBatteryReset, 0);
      GetIntAfterPutInt(old(store.table)[StatusBarCircleBatteryTextColor := IntToDecimal(convertToColorInt(hex))],
                        StatusBarCircleBatteryReset, 0, 0);
      return Returned(true);
    }

    /** A picked battery bar colour is stored and shown. */
    method OnBatteryBarColorChange(color: Int32) returns (result: Outcome)
      modifies store, this`shown
      ensures result == Returned(true)
      ensures store.table ==
        old(store.table)[StatusbarBatteryBarColor := IntToDecimal(convertToColorInt(convertToARGB(color)))]
      ensures shown == old(shown).(batteryBarColorSummary := Some(convertToARGB(color)))
      ensures old(Consistent()) ==> Consistent()
    {
      var hex := PutPickedColor(StatusbarBatteryBarColor, color);
      shown := shown.(batteryBarColorSummary := Some(hex));
      return Returned(true);
    }

    /**
     * The reset preference: the reset flag is set, then both circle colours are reset, so the
     * store keeps asking for the reset until a colour is picked.
     */
    method OnCircleColorResetChange() returns (result: Outcome)
      modifies store, this`shown
      ensures result == Returned(true)
      ensures store.table == ResetColors(old(store.table)[StatusBarCircleBatteryReset := IntToDecimal(1)])
      ensures shown == old(shown).(circleColorSummary := Some(FormatColor(defaultColor)),
                                   circleTextColorSummary := Some(FormatColor(defaultColor)))
      ensures ResetRequested(store.table)
      ensures old(Consistent()) ==> Consistent()
    {
      var ok := store.PutInt(StatusBarCircleBatteryReset, 1);
      GetIntAfterPutInt(old(store.table), StatusBarCircleBatteryReset, 1, 0);
      CircleColorResetAction();
      return Returned(true);
    }

    /** The auto-hide mode: stored and its summary shown. */
    method OnAutoHideChange(value: string) returns (result: Outcome)
      modifies store, this`shown
      ensures ParseInt(value).None? ==> result == Threw && store.table == old(store.table) && shown == old(shown)
      ensures ParseInt(value).Some? ==>
        && result == Returned(true)
        && store.table == old(store.table)[AutoHideStatusbar := IntToDecimal(ParseInt(value).value)]
        && shown == old(shown).(autoHideSummary := Some(AutoHideLabelFor(ParseInt(value).value)))
      ensures old(Consistent()) && result != Threw ==> Consistent()
    {
      var parsed := ParseInt(value);
      if parsed.None? {
        return Threw;
      }
      var ok := store.PutInt(AutoHideStatusbar, parsed.value);
      GetIntAfterPutInt(old(store.table), AutoHideStatusbar, parsed.value, 0);
      UpdateStatusBarAutoHideSummary(parsed.value);
      return Returned(true);
    }

    /**
     * `onPreferenceTreeClick`: a click on one of the checkboxes stores its state as 1 or 0 and is
     * handled; any other click is left to the framework's own handler, whose answer is `superResult`.
     */
    method OnPreferenceTreeClick(clicked: Option<Checkbox>, superResult: bool) returns (handled: bool)
      modifies store
      ensures clicked.Some? ==>
        && handled
        && store.table == old(store.table)[CheckboxKey(clicked.value) := Flag(Checked(shown.checks, clicked.value))]
      ensures clicked.None? ==> handled == superResult && store.table == old(store.table)
      ensures old(Consistent()) ==> Consistent()
    {
      if clicked.None? {
        return superResult;
      }
      var value := Checked(shown.checks, clicked.value);
      var ok := store.PutInt(CheckboxKey(clicked.value), if value then 1 else 0);
      return true;
    }
  }
}
