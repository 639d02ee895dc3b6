/**
 * The system settings table the four screens read and write (`Settings.System`). Like the
 * platform's table it maps a setting name to text: `putInt` stores the decimal form of the number
 * and `getInt` parses it back.
 */
module SettingsStore {
  import opened Wrappers
  import opened Decimal

  /** The settings the screens touch, named after their `Settings.System` constants. */
  datatype Key =
    // status bar
    | StatusBarBattery | StatusBarCircleBatteryColor | StatusBarCircleBatteryTextColor
    | StatusBarCircleBatteryAnimationSpeed | StatusBarCircleBatteryReset
    | StatusBarBrightnessControl | ScreenBrightnessMode | StatusBarSignalText | StatusBarClock
    | StatusBarNotifCount | StatusBarTrafficEnable | StatusBarTrafficHide
    | StatusbarBatteryBar | StatusbarBatteryBarStyle | StatusbarBatteryBarColor
    | StatusbarBatteryBarAnimate | StatusbarBatteryBarThickness
    | AutoHideStatusbar | FullscreenStatusbar | FullscreenStatusbarTimeout
    // quick settings
    | QsQuickPulldown | QsFloatingWindow | ExpandedRingMode | QuickSettingsTilesFlip
    | ExpandedNetworkMode | ExpandedScreentimeoutMode | QuickSettingsColumns
    | QuickTilesBgColor | QuickTilesBgPressedColor
    // system UI
    | ExpandedDesktopStyle | ExpandedDesktopState | PowerMenuExpandedDesktopEnabled
    | NavigationBarHeight | PieControls
    | HaloEnabled | HaloHide | HaloReversed | HaloPause | HaloColors
    | HaloCircleColor | HaloEffectColor | HaloBubbleColor | HaloBubbleTextColor
    | WeWantPopups | MmsBreath | MissedCallBreath
    // performance
    | PerformanceProfile

  type Table = map<Key, string>

  /** `getString(name)`: the stored text, or `None` (null) when the setting is absent. */
  function GetString(t: Table, k: Key): (r: Option<string>)
    ensures r.Some? <==> k in t
  {
    if k in t then Some(t[k]) else None
  }

  /**
   * `getInt(name)`: the parsed number, or `None` where the platform throws
   * SettingNotFoundException (absent or not a number).
   */
  function GetInt(t: Table, k: Key): (r: Option<Int32>)
    ensures k !in t ==> r.None?
  {
    if k in t then ParseInt(t[k]) else None
  }

  /** `getInt(name, def)`: like `GetInt`, with `def` in place of the exception. */
  function GetIntOr(t: Table, k: Key, def: Int32): (n: Int32)
    ensures GetInt(t, k).None? ==> n == def
    ensures GetInt(t, k).Some? ==> n == GetInt(t, k).value
  {
    match GetInt(t, k)
    case Some(n) => n
    case None => def
  }

  /** What `putInt` writes, `getInt` reads back; no default is consulted. */
  lemma GetIntAfterPutInt(t: Table, k: Key, v: Int32, def: Int32)
    ensures GetInt(t[k := IntToDecimal(v)], k) == Some(v)
    ensures GetIntOr(t[k := IntToDecimal(v)], k, def) == v
  {
    ParseIntOfDecimal(v);
  }

  /** The settings provider, shared by every screen that holds a reference to it. */
  class Store {
    var table: Table

    constructor (initial: Table)
      ensures table == initial
    {
      table := initial;
    }

    /** `putInt`: the provider stores the decimal text; the write is reported as successful. */
    method PutInt(k: Key, v: Int32) returns (ok: bool)
      modifies this
      ensures table == old(table)[k := IntToDecimal(v)]
      ensures ok
    {
      table := table[k := IntToDecimal(v)];
      ok := true;
    }

    /** `putString`. */
    method PutString(k: Key, s: string) returns (ok: bool)
      modifies this
      ensures table == old(table)[k := s]
      ensures ok
    {
      table := table[k := s];
      ok := true;
    }

    /** `putBoolean`: stored as the number 1 or 0. */
    method PutBoolean(k: Key, b: bool) returns (ok: bool)
      modifies this
      ensures table == old(table)[k := if b then "1" else "0"]
      ensures ok
    {
      ok := PutInt(k, if b then 1 else 0);
    }
  }
}
