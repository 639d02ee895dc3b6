/**
 * The quick settings panel screen: the quick pulldown, the ring modes offered by the sound tile,
 * the network, screen timeout and column lists, the flip and floating-window checkboxes, and the
 * tile background colours with their reset.
 */
module QuickSettingsScreen {
  import opened Wrappers
  import opened Decimal
  import opened Separated
  import opened SettingsStore
  import opened Preferences
  import opened RingMode

  /** `DEFAULT_QUICK_TILES_BG_COLOR`, 0xff161616 as a Java `int`. */
  const DefaultTilesBgColor: Int32 := 0xff16_1616 - 0x1_0000_0000
  /** `DEFAULT_QUICK_TILES_BG_PRESSED_COLOR`, 0xff212121 as a Java `int`. */
  const DefaultTilesBgPressedColor: Int32 := 0xff21_2121 - 0x1_0000_0000
  /** The stored tile colour that means "no colour chosen". */
  const NoTileColor: Int32 := -2

  /** The quick pulldown summaries. */
  datatype PulldownLabel = PulldownOff | PulldownAlways | PulldownLeft | PulldownRight

  /** `updatePulldownSummary`'s choice: 0 off, 3 always, 2 from the left, anything else from the right. */
  function PulldownLabelFor(value: int): (l: PulldownLabel)
    ensures l == PulldownOff <==> value == 0
    ensures l == PulldownAlways <==> value == 3
    ensures l == PulldownLeft <==> value == 2
    ensures l == PulldownRight <==> value != 0 && value != 2 && value != 3
  {
    if value == 0 then PulldownOff
    else if value == 3 then PulldownAlways
    else if value == 2 then PulldownLeft
    else PulldownRight
  }

  /** A tile colour picker's summary: the "none" text, or the colour's text. */
  datatype ColorSummary = NoColor | ColorText(text: string)

  /** What a tile colour picker shows. */
  datatype TileColorState = TileColorState(preview: Int32, summary: Option<ColorSummary>)

  /**
   * How `onActivityCreated` shows a stored tile colour: the default preview and the "none"
   * summary for the sentinel -2 (also the value read when nothing is stored), the stored colour
   * as the preview otherwise.
   */
  function StoredTileColor(t: Table, k: Key, def: Int32, summary: Option<ColorSummary>): (c: TileColorState)
    ensures GetIntOr(t, k, NoTileColor) == NoTileColor ==> c == TileColorState(def, Some(NoColor))
    ensures GetIntOr(t, k, NoTileColor) != NoTileColor ==> c == TileColorState(GetIntOr(t, k, NoTileColor), summary)
  {
    var intColor := GetIntOr(t, k, NoTileColor);
    if intColor == NoTileColor then TileColorState(def, Some(NoColor)) else TileColorState(intColor, summary)
  }

  /** The table after the reset menu item: both tile colours hold the sentinel. */
  function ResetTileColors(t: Table): Table
  {
    t[QuickTilesBgColor := IntToDecimal(NoTileColor)][QuickTilesBgPressedColor := IntToDecimal(NoTileColor)]
  }

  /** After the reset, the next `onActivityCreated` shows both tile colours as "none" with the default preview. */
  lemma ResetShowsNoColor(t: Table, bgSummary: Option<ColorSummary>, pressedSummary: Option<ColorSummary>)
    ensures StoredTileColor(ResetTileColors(t), QuickTilesBgColor, DefaultTilesBgColor, bgSummary)
      == TileColorState(DefaultTilesBgColor, Some(NoColor))
    ensures StoredTileColor(ResetTileColors(t), QuickTilesBgPressedColor, DefaultTilesBgPressedColor, pressedSummary)
      == TileColorState(DefaultTilesBgPressedColor, Some(NoColor))
  {
    GetIntAfterPutInt(t[QuickTilesBgColor := IntToDecimal(NoTileColor)], QuickTilesBgPressedColor, NoTileColor, NoTileColor);
    GetIntAfterPutInt(t, QuickTilesBgColor, NoTileColor, NoTileColor);
  }

  /** The checkboxes whose clicks the screen handles. */
  datatype Checkbox = FlipTiles | FloatingWindow

  function CheckboxKey(b: Checkbox): Key
  {
    match b
    case FlipTiles => QuickSettingsTilesFlip
    case FloatingWindow => QsFloatingWindow
  }

  /** How `onActivityCreated` reads a checkbox: a stored 1, with 1 as the default for flipping tiles. */
  function StoredChecked(t: Table, b: Checkbox): bool
  {
    match b
    case FlipTiles => GetIntOr(t, QuickSettingsTilesFlip, 1) == 1
    case FloatingWindow => GetIntOr(t, QsFloatingWindow, 0) == 1
  }

  /** The plain list preferences. */
  datatype ListChoice = NetworkMode | ScreenTimeout | Columns

  function ListKey(l: ListChoice): Key
  {
    match l
    case NetworkMode => ExpandedNetworkMode
    case ScreenTimeout => ExpandedScreentimeoutMode
    case Columns => QuickSettingsColumns
  }

  /** The tile colour pickers. */
  datatype TilePicker = TilesBg | TilesBgPressed

  function TileKey(p: TilePicker): Key
  {
    match p
    case TilesBg => QuickTilesBgColor
    case TilesBgPressed => QuickTilesBgPressedColor
  }

  /** A preference change: which preference fired, with its new value. */
  datatype Change =
    | RingModeChange(selection: set<string>)
    | ListChange(list: ListChoice, value: string)
    | PulldownChange(value: string)
    | TileColorChange(picker: TilePicker, color: Int32)
    | OtherPreference

  /** The options menu items. */
  datatype MenuItem = ResetItem | OtherItem

  /** The entry a list preference shows for its current value (`getEntry`), `None` for null. */
  function EntryOf(list: ListPreference, value: Option<string>): Option<string>
  {
    match value
    case None => None
    case Some(v) => EntryFor(list, v)
  }

  /** What the screen's widgets show; `None` where a widget keeps what the layout gives it. */
  datatype Shown = Shown(
    pulldownValue: Option<string>,
    pulldownSummary: Option<PulldownLabel>,
    floatingWindow: bool,
    ringModeSelection: set<string>,
    ringModeSummary: Option<Summary>,
    flipTiles: bool,
    networkModeSummary: Option<string>,
    screenTimeoutSummary: Option<string>,
    columnsValue: Option<string>,
    columnsSummary: Option<string>,
    tilesBg: TileColorState,
    tilesBgPressed: TileColorState)

  const Inflated: Shown := Shown(None, None, false, {}, None, false, None, None, None, None,
                                 TileColorState(0, None), TileColorState(0, None))

  class QuickSettings {
    const store: Store
    /** Whether the device is a phone (`Utils.isPhone`): only phones offer the quick pulldown. */
    const isPhone: bool
    /** The ring mode choices: labels for the summary, values for the comparator. */
    const ringModeList: ListPreference
    /** Whether the layout holds the network mode list (`findPreference` may return null). */
    const hasNetworkMode: bool
    const networkModeList: ListPreference
    const screenTimeoutList: ListPreference
    const columnsList: ListPreference
    /** The values the network mode and screen timeout lists hold in their own preferences file. */
    const networkModeValue: Option<string>
    const screenTimeoutValue: Option<string>
    /** The colour picker's own conversions, whose code is not part of this model. */
    const convertToARGB: Int32 -> string
    const convertToColorInt: string -> Int32

    var shown: Shown

    constructor (store: Store, isPhone: bool, ringModeList: ListPreference, hasNetworkMode: bool,
                 networkModeList: ListPreference, screenTimeoutList: ListPreference,
                 columnsList: ListPreference, networkModeValue: Option<string>,
                 screenTimeoutValue: Option<string>, convertToARGB: Int32 -> string,
                 convertToColorInt: string -> Int32)
      ensures this.store == store && this.isPhone == isPhone && this.ringModeList == ringModeList
      ensures this.hasNetworkMode == hasNetworkMode && this.networkModeList == networkModeList
      ensures this.screenTimeoutList == screenTimeoutList && this.columnsList == columnsList
      ensures this.networkModeValue == networkModeValue && this.screenTimeoutValue == screenTimeoutValue
      ensures this.convertToARGB == convertToARGB && this.convertToColorInt == convertToColorInt
      ensures shown == Inflated
    {
      this.store := store;
      this.isPhone := isPhone;
      this.ringModeList := ringModeList;
      this.hasNetworkMode := hasNetworkMode;
      this.networkModeList := networkModeList;
      this.screenTimeoutList := screenTimeoutList;
      this.columnsList := columnsList;
      this.networkModeValue := networkModeValue;
      this.screenTimeoutValue := screenTimeoutValue;
      this.convertToARGB := convertToARGB;
      this.convertToColorInt := convertToColorInt;
      shown := Inflated;
    }

    /** The list preference a choice names. */
    function ListFor(l: ListChoice): ListPreference
    {
      match l
      case NetworkMode => networkModeList
      case ScreenTimeout => screenTimeoutList
      case Columns => columnsList
    }

    /**
     * What the screen shows agrees with the store: the pulldown summary (on a phone) and both
     * checkboxes follow the stored values.
     */
    ghost predicate Consistent()
      reads this, store
    {
      var t := store.table;
      && (isPhone ==> shown.pulldownSummary == Some(PulldownLabelFor(GetIntOr(t, QsQuickPulldown, 0))))
      && shown.flipTiles == StoredChecked(t, FlipTiles)
      && shown.floatingWindow == StoredChecked(t, FloatingWindow)
    }

    function Checked(b: Checkbox): bool
      reads this
    {
      match b
      case FlipTiles => shown.flipTiles
      case FloatingWindow => shown.floatingWindow
    }

    /**
     * `onActivityCreated`: every widget takes its state from the store. A stored ring mode string
     * whose summary cannot be built ends it with an exception, before the widgets after it are set.
     */
    method OnActivityCreated() returns (threw: bool)
      modifies this`shown
      ensures var t := store.table;
        threw <==> ExpandedRingMode in t && SummaryOf(t[ExpandedRingMode], ringModeList.entries).None?
      ensures var t := store.table;
        && shown.pulldownValue ==
             (if isPhone then Some(IntToDecimal(GetIntOr(t, QsQuickPulldown, 0))) else old(shown.pulldownValue))
        && shown.pulldownSummary ==
             (if isPhone then Some(PulldownLabelFor(GetIntOr(t, QsQuickPulldown, 0))) else old(shown.pulldownSummary))
        && shown.floatingWindow == StoredChecked(t, FloatingWindow)
      ensures var t := store.table;
        && shown.ringModeSelection ==
             (if ExpandedRingMode in t then SelectionOf(t[ExpandedRingMode])
              else old(shown.ringModeSelection))
      ensures var t := store.table;
        !threw ==> (shown.ringModeSummary ==
          if ExpandedRingMode in t then SummaryOf(t[ExpandedRingMode], ringModeList.entries)
          else old(shown.ringModeSummary))
      ensures !threw ==> Consistent()
      ensures !threw ==> ShowsLists(store.table, old(shown))
      ensures threw ==> shown == old(shown).(
        pulldownValue := shown.pulldownValue, pulldownSummary := shown.pulldownSummary,
        floatingWindow := shown.floatingWindow, ringModeSelection := shown.ringModeSelection)
      ensures !threw ==> shown == old(shown).(
        pulldownValue := shown.pulldownValue, pulldownSummary := shown.pulldownSummary,
        floatingWindow := shown.floatingWindow, ringModeSelection := shown.ringModeSelection,
        ringModeSummary := shown.ringModeSummary, flipTiles := shown.flipTiles,
        networkModeSummary := shown.networkModeSummary, screenTimeoutSummary := shown.screenTimeoutSummary,
        columnsValue := shown.columnsValue, tilesBg := shown.tilesBg, tilesBgPressed := shown.tilesBgPressed)
    {
      var t := store.table;
      ShowPulldownAndFloating(t);
      threw := ShowRingMode(t);
      if !threw {
        ShowListsAndTiles(t);
      }
    }

    /**
     * The part of `onActivityCreated` after the ring modes: the flip checkbox, the lists'
     * summaries and the columns value, and both tile colours.
     */
    ghost predicate ShowsLists(t: Table, before: Shown)
      reads this
    {
      && shown.flipTiles == StoredChecked(t, FlipTiles)
      && shown.networkModeSummary ==
           (if hasNetworkMode then EntryOf(networkModeList, networkModeValue) else before.networkModeSummary)
      && shown.screenTimeoutSummary == EntryOf(screenTimeoutList, screenTimeoutValue)
      && shown.columnsValue == Some(IntToDecimal(GetIntOr(t, QuickSettingsColumns, 3)))
      && shown.columnsSummary == before.columnsSummary
      && shown.tilesBg == StoredTileColor(t, QuickTilesBgColor, DefaultTilesBgColor, before.tilesBg.summary)
      && shown.tilesBgPressed ==
           StoredTileColor(t, QuickTilesBgPressedColor, DefaultTilesBgPressedColor, before.tilesBgPressed.summary)
    }

    /** The quick pulldown (only on a phone) and the floating window checkbox. */
    method ShowPulldownAndFloating(t: Table)
      modifies this`shown
      ensures shown == old(shown).(
        pulldownValue := if isPhone then Some(IntToDecimal(GetIntOr(t, QsQuickPulldown, 0))) else old(shown.pulldownValue),
        pulldownSummary :=
          if isPhone then Some(PulldownLabelFor(GetIntOr(t, QsQuickPulldown, 0))) else old(shown.pulldownSummary),
        floatingWindow := StoredChecked(t, FloatingWindow))
    {
      if isPhone {
        var quickPulldownValue := GetIntOr(t, QsQuickPulldown, 0);
        shown := shown.(pulldownValue := Some(IntToDecimal(quickPulldownValue)));
        UpdatePulldownSummary(quickPulldownValue);
      }
      shown := shown.(floatingWindow := GetIntOr(t, QsFloatingWindow, 0) == 1);
    }

    /** The ring modes: a stored string selects its pieces and is summarised. */
    method ShowRingMode(t: Table) returns (threw: bool)
      modifies this`shown
      ensures threw <==> ExpandedRingMode in t && SummaryOf(t[ExpandedRingMode], ringModeList.entries).None?
      ensures ExpandedRingMode !in t ==> shown == old(shown)
      ensures ExpandedRingMode in t ==>
        var stored := t[ExpandedRingMode];
        shown == old(shown).(
          ringModeSelection := SelectionOf(stored),
          ringModeSummary := if threw then old(shown.ringModeSummary) else SummaryOf(stored, ringModeList.entries))
    {
      var storedRingMode := GetString(t, ExpandedRingMode);
      threw := false;
      if storedRingMode.Some? {
        shown := shown.(ringModeSelection := SelectionOf(storedRingMode.value));
        threw := UpdateRingModeSummary(storedRingMode.value);
      }
    }

    /** The flip checkbox, the network, screen timeout and column lists, and both tile colours. */
    method ShowListsAndTiles(t: Table)
      modifies this`shown
      ensures ShowsLists(t, old(shown))
      ensures shown == old(shown).(
        flipTiles := shown.flipTiles, networkModeSummary := shown.networkModeSummary,
        screenTimeoutSummary := shown.screenTimeoutSummary, columnsValue := shown.columnsValue,
        tilesBg := shown.tilesBg, tilesBgPressed := shown.tilesBgPressed)
    {
      var networkModeSummary := shown.networkModeSummary;
      if hasNetworkMode {
        networkModeSummary := EntryOf(networkModeList, networkModeValue);
      }
      var quickSettingsColumnsValue := GetIntOr(t, QuickSettingsColumns, 3);
      shown := shown.(
        flipTiles := GetIntOr(t, QuickSettingsTilesFlip, 1) == 1,
        networkModeSummary := networkModeSummary,
        screenTimeoutSummary := EntryOf(screenTimeoutList, screenTimeoutValue),
        columnsValue := Some(IntToDecimal(quickSettingsColumnsValue)));
      var bg := ShowTileColor(t, QuickTilesBgColor, DefaultTilesBgColor, shown.tilesBg.summary);
      var pressed := ShowTileColor(t, QuickTilesBgPressedColor, DefaultTilesBgPressedColor, shown.tilesBgPressed.summary);
      shown := shown.(tilesBg := bg, tilesBgPressed := pressed);
    }

    /** A tile colour picker: the default preview, then the stored colour or the "none" summary. */
    method ShowTileColor(t: Table, k: Key, def: Int32, summary: Option<ColorSummary>) returns (c: TileColorState)
      ensures c == StoredTileColor(t, k, def, summary)
    {
      c := TileColorState(def, summary);
      var intColor := GetIntOr(t, k, NoTileColor);
      if intColor == NoTileColor {
        c := c.(summary := Some(NoColor));
      } else {
        c := c.(preview := intColor);
      }
    }

    /** `updatePulldownSummary`. */
    method UpdatePulldownSummary(value: Int32)
      modifies this`shown
      ensures shown == old(shown).(pulldownSummary := Some(PulldownLabelFor(value)))
    {
      if value == 0 {
        shown := shown.(pulldownSummary := Some(PulldownOff));
      } else if value == 3 {
        shown := shown.(pulldownSummary := Some(PulldownAlways));
      } else {
        shown := shown.(pulldownSummary := Some(if value == 2 then PulldownLeft else PulldownRight));
      }
    }

    /**
     * `updateSummary` for the ring modes: the default summary when nothing is stored, otherwise
     * the entries the stored pieces name; an exception escapes when a piece names no entry.
     */
    method UpdateRingModeSummary(val: string) returns (threw: bool)
      modifies this`shown
      ensures threw <==> SummaryOf(val, ringModeList.entries).None?
      ensures shown == old(shown).(ringModeSummary :=
        if threw then old(shown.ringModeSummary) else SummaryOf(val, ringModeList.entries))
    {
      var values := ParseStoredValue(Some(val));
      if values.None? {
        shown := shown.(ringModeSummary := Some(DefaultSummary));
        return false;
      }
      var summary := BuildSummary(values.value, ringModeList.entries);
      if summary.None? {
        return true;
      }
      shown := shown.(ringModeSummary := Some(EntryList(summary.value)));
      return false;
    }

    /**
     * `onOptionsItemSelected`: the reset item stores the sentinel for both tile colours and puts
     * both previews back to their defaults; their summaries are left as they are. Another item is
     * passed to the framework's handler, whose answer is `superResult`.
     */
    method OnOptionsItemSelected(item: MenuItem, superResult: bool) returns (handled: bool)
      modifies store, this`shown
      ensures item == ResetItem ==>
        && handled
        && store.table == ResetTileColors(old(store.table))
        && shown == old(shown).(tilesBg := old(shown.tilesBg).(preview := DefaultTilesBgColor),
                                tilesBgPressed := old(shown.tilesBgPressed).(preview := DefaultTilesBgPressedColor))
      ensures item == OtherItem ==> handled == superResult && store.table == old(store.table) && shown == old(shown)
      ensures old(Consistent()) ==> Consistent()
    {
      if item == OtherItem {
        return superResult;
      }
      var ok := store.PutInt(QuickTilesBgColor, NoTileColor);
      ok := store.PutInt(QuickTilesBgPressedColor, NoTileColor);
      shown := shown.(tilesBg := shown.tilesBg.(preview := DefaultTilesBgColor),
                      tilesBgPressed := shown.tilesBgPressed.(preview := DefaultTilesBgPressedColor));
      return true;
    }

    /**
     * `onPreferenceTreeClick`: a click on either checkbox stores its state as 1 or 0 under its own
     * setting and is handled; any other click goes to the framework's handler.
     */
    method OnPreferenceTreeClick(clicked: Option<Checkbox>, superResult: bool) returns (handled: bool)
      modifies store
      ensures clicked.Some? ==>
        && handled
        && store.table == old(store.table)[CheckboxKey(clicked.value) := Flag(Checked(clicked.value))]
      ensures clicked.None? ==> handled == superResult && store.table == old(store.table)
      ensures old(Consistent()) ==> Consistent()
    {
      if clicked.None? {
        return superResult;
      }
      var ok := store.PutInt(CheckboxKey(clicked.value), if Checked(clicked.value) then 1 else 0);
      return true;
    }

    /**
     * Which changes end in an exception, given the table after the change: stored ring modes that
     * name no entry, a value that is not a number, or a list value that is not listed.
     */
    function Throws(change: Change, t: Table): bool
      reads this
    {
      match change
      case RingModeChange(_) => ExpandedRingMode in t && SummaryOf(t[ExpandedRingMode], ringModeList.entries).None?
      case ListChange(l, v) =>
        (l != NetworkMode || hasNetworkMode) && (ParseInt(v).None? || v !in ListFor(l).entryValues)
      case PulldownChange(v) => ParseInt(v).None?
      case _ => false
    }

    /** The settings a change may write. */
    function KeysWrittenBy(change: Change): set<Key>
      reads this
    {
      match change
      case RingModeChange(_) => {ExpandedRingMode}
      case ListChange(l, _) => if l == NetworkMode && !hasNetworkMode then {} else {ListKey(l)}
      case PulldownChange(_) => {QsQuickPulldown}
      case TileColorChange(p, _) => {TileKey(p)}
      case OtherPreference => {}
    }

    /** Whether a change is one the screen handles: a known preference that is in the layout. */
    predicate Handles(change: Change)
      reads this
    {
      match change
      case ListChange(NetworkMode, _) => hasNetworkMode
      case OtherPreference => false
      case _ => true
    }

    /** The widgets a list preference's new entry is shown on. */
    function WithListSummary(s: Shown, l: ListChoice, entry: Option<string>): Shown
    {
      match l
      case NetworkMode => s.(networkModeSummary := entry)
      case ScreenTimeout => s.(screenTimeoutSummary := entry)
      case Columns => s.(columnsSummary := entry)
    }

    /**
     * `onPreferenceChange`: only the setting of the preference that fired is written, the ring
     * modes are stored in the comparator's order, an exception escapes exactly for the inputs
     * `Throws` names, and a preference the screen does not handle is declined with nothing written.
     */
    method OnPreferenceChange(change: Change) returns (result: Outcome)
      modifies store, this`shown
      ensures forall k :: k !in KeysWrittenBy(change) ==> GetString(store.table, k) == GetString(old(store.table), k)
      ensures change.RingModeChange? ==>
        ExpandedRingMode in store.table &&
        IsEncoding(change.selection, ringModeList.entryValues, store.table[ExpandedRingMode])
      ensures result == Threw <==> Throws(change, store.table)
      ensures result.Returned? ==> (result.handled <==> Handles(change))
      ensures !Handles(change) ==> store.table == old(store.table) && shown == old(shown)
      ensures old(Consistent()) ==> Consistent()
    {
      match change
      case RingModeChange(selection) => result := OnRingModeChange(selection);
      case ListChange(l, v) => result := OnListChange(l, v);
      case PulldownChange(v) => result := OnPulldownChange(v);
      case TileColorChange(p, c) => result := OnTileColorChange(p, c);
      case OtherPreference => result := Returned(false);
    }

    /**
     * The ring modes: the selected set is copied into a list, sorted by position in the value
     * list, joined, stored, and summarised.
     */
    method OnRingModeChange(selection: set<string>) returns (result: Outcome)
      modifies store, this`shown
      ensures ExpandedRingMode in store.table
      ensures store.table == old(store.table)[ExpandedRingMode := store.table[ExpandedRingMode]]
      ensures IsEncoding(selection, ringModeList.entryValues, store.table[ExpandedRingMode])
      ensures var summary := SummaryOf(store.table[ExpandedRingMode], ringModeList.entries);
        && (result == Threw <==> summary.None?)
        && (result != Threw ==> result == Returned(true))
        && shown == old(shown).(ringModeSummary := if result == Threw then old(shown.ringModeSummary) else summary)
    {
      var arrValue := SelectionList(selection);
      SortBy(arrValue, Rank(ringModeList.entryValues));
      var value := Join(arrValue[..], Separator);
      assert SortedBy(arrValue[..], Rank(ringModeList.entryValues)) && multiset(arrValue[..]) == multiset(selection);
      var ok := store.PutString(ExpandedRingMode, value);
      var threw := UpdateRingModeSummary(value);
      result := if threw then Threw else Returned(true);
    }

    /**
     * The network mode, screen timeout and column lists: the parsed value is stored and the entry
     * for it shown. The network mode list is not handled when the layout lacks it.
     */
    method OnListChange(l: ListChoice, value: string) returns (result: Outcome)
      modifies store, this`shown
      ensures l == NetworkMode && !hasNetworkMode ==>
        result == Returned(false) && store.table == old(store.table) && shown == old(shown)
      ensures l != NetworkMode || hasNetworkMode ==>
        && (ParseInt(value).None? ==> store.table == old(store.table))
        && (ParseInt(value).Some? ==> store.table == old(store.table)[ListKey(l) := IntToDecimal(ParseInt(value).value)])
        && (result == Threw <==> ParseInt(value).None? || value !in ListFor(l).entryValues)
        && (result != Threw ==> result == Returned(true))
        && shown == if result == Threw then old(shown) else WithListSummary(old(shown), l, EntryFor(ListFor(l), value))
    {
      if l == NetworkMode && !hasNetworkMode {
        return Returned(false);
      }
      var entry;
      result, entry := PutListChoice(store, ListFor(l), ListKey(l), value);
      if result != Threw {
        shown := WithListSummary(shown, l, Some(entry));
      }
    }

    /** The quick pulldown: the parsed value is stored and its summary shown. */
    method OnPulldownChange(value: string) returns (result: Outcome)
      modifies store, this`shown
      ensures ParseInt(value).None? ==> result == Threw && store.table == old(store.table) && shown == old(shown)
      ensures ParseInt(value).Some? ==>
        && result == Returned(true)
        && store.table == old(store.table)[QsQuickPulldown := IntToDecimal(ParseInt(value).value)]
        && shown == old(shown).(pulldownSummary := Some(PulldownLabelFor(ParseInt(value).value)))
      ensures old(Consistent()) ==> Consistent()
    {
      var quickPulldownValue := ParseInt(value);
      if quickPulldownValue.None? {
        return Threw;
      }
      var ok := store.PutInt(QsQuickPulldown, quickPulldownValue.value);
      GetIntAfterPutInt(old(store.table), QsQuickPulldown, quickPulldownValue.value, 0);
      UpdatePulldownSummary(quickPulldownValue.value);
      return Returned(true);
    }

    /** A tile colour: its ARGB text becomes the summary, and its colour is stored. */
    method OnTileColorChange(p: TilePicker, color: Int32) returns (result: Outcome)
      modifies store, this`shown
      ensures result == Returned(true)
      ensures store.table == old(store.table)[TileKey(p) := IntToDecimal(convertToColorInt(convertToARGB(color)))]
      ensures shown == match p
        case TilesBg => old(shown).(tilesBg := old(shown.tilesBg).(summary := Some(ColorText(convertToARGB(color)))))
        case TilesBgPressed =>
          old(shown).(tilesBgPressed := old(shown.tilesBgPressed).(summary := Some(ColorText(convertToARGB(color)))))
    {
      var hex := convertToARGB(color);
      match p {
        case TilesBg => shown := shown.(tilesBg := shown.tilesBg.(summary := Some(ColorText(hex))));
        case TilesBgPressed => shown := shown.(tilesBgPressed := shown.tilesBgPressed.(summary := Some(ColorText(hex))));
      }
      var intHex := convertToColorInt(hex);
      var ok := store.PutInt(TileKey(p), intHex);
      return Returned(true);
    }
  }
}
