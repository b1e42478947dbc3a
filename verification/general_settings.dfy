/**
 * RealGeneralSettingsManager: the general settings record, its key-value
 * encoding (`writeSettings`), its decoding with defaults (`loadGeneralSettings`)
 * and the single-field setters.
 *
 * Storage is a map from key to a stored value; enums are stored by name.
 * The legacy background-operations mode and the quiet-time clock check are
 * not read from storage: they enter as parameters.
 */
module GeneralSettingsStore {
  import opened Wrappers

  datatype Value = BoolValue(b: bool) | StringValue(s: string)

  type Storage = map<string, Value>

  datatype AppTheme = ThemeLight | ThemeDark | ThemeFollowSystem
  datatype SubTheme = SubThemeLight | SubThemeDark | SubThemeUseGlobal
  datatype BackgroundSync = SyncAlways | SyncNever | SyncFollowSystemAutoSync

  /** The legacy `K9.BACKGROUND_OPS` modes. */
  datatype BackgroundOps = OpsAlways | OpsNever | OpsWhenCheckedAutoSync

  datatype GeneralSettings = GeneralSettings(
    backgroundSync: BackgroundSync,
    showRecentChanges: bool,
    appTheme: AppTheme,
    messageViewTheme: SubTheme,
    messageComposeTheme: SubTheme,
    fixedMessageViewTheme: bool,
    isShowUnifiedInbox: bool,
    isShowStarredCount: bool,
    isShowMessageListStars: bool,
    isShowAnimations: bool,
    isShowCorrespondentNames: bool,
    shouldShowSetupArchiveFolderDialog: bool,
    isMessageListSenderAboveSubject: bool,
    isShowContactName: bool,
    isShowContactPicture: bool,
    isChangeContactNameColor: bool,
    isColorizeMissingContactPictures: bool,
    isUseBackgroundAsUnreadIndicator: bool,
    isShowComposeButtonOnMessageList: bool,
    isThreadedViewEnabled: bool,
    isUseMessageViewFixedWidthFont: bool,
    isAutoFitWidth: bool,
    quietTimeEnds: string,
    quietTimeStarts: string,
    isQuietTimeEnabled: bool,
    isQuietTime: bool
  )

  // ---------------------------------------------------------------- enums by name

  function AppThemeName(t: AppTheme): string {
    match t
    case ThemeLight => "LIGHT"
    case ThemeDark => "DARK"
    case ThemeFollowSystem => "FOLLOW_SYSTEM"
  }

  function ParseAppTheme(name: string): (t: Option<AppTheme>)
    ensures t.Some? ==> AppThemeName(t.value) == name
  {
    if name == "LIGHT" then Some(ThemeLight)
    else if name == "DARK" then Some(ThemeDark)
    else if name == "FOLLOW_SYSTEM" then Some(ThemeFollowSystem)
    else None
  }

  function SubThemeName(t: SubTheme): string {
    match t
    case SubThemeLight => "LIGHT"
    case SubThemeDark => "DARK"
    case SubThemeUseGlobal => "USE_GLOBAL"
  }

  function ParseSubTheme(name: string): (t: Option<SubTheme>)
    ensures t.Some? ==> SubThemeName(t.value) == name
  {
    if name == "LIGHT" then Some(SubThemeLight)
    else if name == "DARK" then Some(SubThemeDark)
    else if name == "USE_GLOBAL" then Some(SubThemeUseGlobal)
    else None
  }

  /** Parsing a written name gives back the enum value. */
  lemma EnumNamesRoundTrip(t: AppTheme, u: SubTheme)
    ensures ParseAppTheme(AppThemeName(t)) == Some(t)
    ensures ParseSubTheme(SubThemeName(u)) == Some(u)
  {
    match t
    case ThemeLight =>
    case ThemeDark =>
    case ThemeFollowSystem =>
  }

  /** The mapping from the legacy mode to the new background-sync setting. */
  function ToBackgroundSync(ops: BackgroundOps): (s: BackgroundSync)
    ensures FromBackgroundSync(s) == ops
  {
    match ops
    case OpsAlways => SyncAlways
    case OpsNever => SyncNever
    case OpsWhenCheckedAutoSync => SyncFollowSystemAutoSync
  }

  /** The legacy mode a background-sync setting corresponds to. */
  function FromBackgroundSync(s: BackgroundSync): BackgroundOps {
    match s
    case SyncAlways => OpsAlways
    case SyncNever => OpsNever
    case SyncFollowSystemAutoSync => OpsWhenCheckedAutoSync
  }

  /** The mapping is total, one-to-one and onto: it has a two-sided inverse. */
  lemma ToBackgroundSyncBijective(ops: BackgroundOps, s: BackgroundSync)
    ensures FromBackgroundSync(ToBackgroundSync(ops)) == ops
    ensures ToBackgroundSync(FromBackgroundSync(s)) == s
  {
  }

  // ---------------------------------------------------------------- storage reads

  /** A stored boolean, or the default when the key is missing or holds a string. */
  function GetBoolean(st: Storage, key: string, default: bool): (b: bool)
    ensures key in st && st[key].BoolValue? ==> b == st[key].b
    ensures key !in st || !st[key].BoolValue? ==> b == default
  {
    if key in st && st[key].BoolValue? then st[key].b else default
  }

  /** A stored string, or the default when the key is missing or holds a boolean. */
  function GetStringOrDefault(st: Storage, key: string, default: string): (s: string)
    ensures key in st && st[key].StringValue? ==> s == st[key].s
    ensures key !in st || !st[key].StringValue? ==> s == default
  {
    if key in st && st[key].StringValue? then st[key].s else default
  }

  /**
   * `Storage.getEnum`: the stored name parsed as an enum value; a missing key
   * or a value that cannot be read as a name of the enum gives the default.
   */
  function GetAppTheme(st: Storage, key: string, default: AppTheme): (t: AppTheme)
    ensures key in st && st[key].StringValue? && ParseAppTheme(st[key].s).Some? ==> t == ParseAppTheme(st[key].s).value
    ensures (key !in st || !st[key].StringValue? || ParseAppTheme(st[key].s).None?) ==> t == default
  {
    if key in st && st[key].StringValue? then ParseAppTheme(st[key].s).GetOr(default) else default
  }

  function GetSubTheme(st: Storage, key: string, default: SubTheme): (t: SubTheme)
    ensures key in st && st[key].StringValue? && ParseSubTheme(st[key].s).Some? ==> t == ParseSubTheme(st[key].s).value
    ensures (key !in st || !st[key].StringValue? || ParseSubTheme(st[key].s).None?) ==> t == default
  {
    if key in st && st[key].StringValue? then ParseSubTheme(st[key].s).GetOr(default) else default
  }

  // The storage keys, one per persisted field.
  const KeyShowRecentChanges: string := "showRecentChanges"
  const KeyTheme: string := "theme"
  const KeyMessageViewTheme: string := "messageViewTheme"
  const KeyMessageComposeTheme: string := "messageComposeTheme"
  const KeyFixedMessageViewTheme: string := "fixedMessageViewTheme"
  const KeyShowUnifiedInbox: string := "showUnifiedInbox"
  const KeyShowStarredCount: string := "showStarredCount"
  const KeyMessageListStars: string := "messageListStars"
  const KeyAnimations: string := "animations"
  const KeyShowCorrespondentNames: string := "showCorrespondentNames"
  const KeyShouldShowSetupArchiveFolderDialog: string := "shouldShowSetupArchiveFolderDialog"
  const KeyMessageListSenderAboveSubject: string := "messageListSenderAboveSubject"
  const KeyShowContactName: string := "showContactName"
  const KeyShowContactPicture: string := "showContactPicture"
  const KeyChangeRegisteredNameColor: string := "changeRegisteredNameColor"
  const KeyColorizeMissingContactPictures: string := "colorizeMissingContactPictures"
  const KeyIsUseBackgroundAsUnreadIndicator: string := "isUseBackgroundAsUnreadIndicator"
  const KeyShowComposeButtonOnMessageList: string := "showComposeButtonOnMessageList"
  const KeyIsThreadedViewEnabled: string := "isThreadedViewEnabled"
  const KeyMessageViewFixedWidthFont: string := "messageViewFixedWidthFont"
  const KeyAutofitWidth: string := "autofitWidth"
  const KeyQuietTimeEnds: string := "quietTimeEnds"
  const KeyQuietTimeStarts: string := "quietTimeStarts"
  const KeyQuietTimeEnabled: string := "quietTimeEnabled"

  // ---------------------------------------------------------------- writing

  /** The 24 keys `writeSettings` writes, in the order it writes them. */
  const SettingKeys: seq<string> := [
    KeyShowRecentChanges,
    KeyTheme,
    KeyMessageViewTheme,
    KeyMessageComposeTheme,
    KeyFixedMessageViewTheme,
    KeyShowUnifiedInbox,
    KeyShowStarredCount,
    KeyMessageListStars,
    KeyAnimations,
    KeyShowCorrespondentNames,
    KeyShouldShowSetupArchiveFolderDialog,
    KeyMessageListSenderAboveSubject,
    KeyShowContactName,
    KeyShowContactPicture,
    KeyChangeRegisteredNameColor,
    KeyColorizeMissingContactPictures,
    KeyIsUseBackgroundAsUnreadIndicator,
    KeyShowComposeButtonOnMessageList,
    KeyIsThreadedViewEnabled,
    KeyMessageViewFixedWidthFont,
    KeyAutofitWidth,
    KeyQuietTimeEnds,
    KeyQuietTimeStarts,
    KeyQuietTimeEnabled
  ]

  /** Every key is written exactly once: there are 24 pairwise distinct keys. */
  lemma SettingKeysDistinct()
    ensures |SettingKeys| == 24
    ensures forall i, j :: 0 <= i < j < |SettingKeys| ==> SettingKeys[i] != SettingKeys[j]
  {
  }

  /** The editor calls `writeSettings` makes, in order. */
  function Puts(s: GeneralSettings): (puts: seq<(string, Value)>)
    ensures |puts| == |SettingKeys|
    ensures forall i :: 0 <= i < |puts| ==> puts[i].0 == SettingKeys[i]
  {
    [ (KeyShowRecentChanges, BoolValue(s.showRecentChanges)),
      (KeyTheme, StringValue(AppThemeName(s.appTheme))),
      (KeyMessageViewTheme, StringValue(SubThemeName(s.messageViewTheme))),
      (KeyMessageComposeTheme, StringValue(SubThemeName(s.messageComposeTheme))),
      (KeyFixedMessageViewTheme, BoolValue(s.fixedMessageViewTheme)),
      (KeyShowUnifiedInbox, BoolValue(s.isShowUnifiedInbox)),
      (KeyShowStarredCount, BoolValue(s.isShowStarredCount)),
      (KeyMessageListStars, BoolValue(s.isShowMessageListStars)),
      (KeyAnimations, BoolValue(s.isShowAnimations)),
      (KeyShowCorrespondentNames, BoolValue(s.isShowCorrespondentNames)),
      (KeyShouldShowSetupArchiveFolderDialog, BoolValue(s.shouldShowSetupArchiveFolderDialog)),
      (KeyMessageListSenderAboveSubject, BoolValue(s.isMessageListSenderAboveSubject)),
      (KeyShowContactName, BoolValue(s.isShowContactName)),
      (KeyShowContactPicture, BoolValue(s.isShowContactPicture)),
      (KeyChangeRegisteredNameColor, BoolValue(s.isChangeContactNameColor)),
      (KeyColorizeMissingContactPictures, BoolValue(s.isColorizeMissingContactPictures)),
      (KeyIsUseBackgroundAsUnreadIndicator, BoolValue(s.isUseBackgroundAsUnreadIndicator)),
      (KeyShowComposeButtonOnMessageList, BoolValue(s.isShowComposeButtonOnMessageList)),
      (KeyIsThreadedViewEnabled, BoolValue(s.isThreadedViewEnabled)),
      (KeyMessageViewFixedWidthFont, BoolValue(s.isUseMessageViewFixedWidthFont)),
      (KeyAutofitWidth, BoolValue(s.isAutoFitWidth)),
      (KeyQuietTimeEnds, StringValue(s.quietTimeEnds)),
      (KeyQuietTimeStarts, StringValue(s.quietTimeStarts)),
      (KeyQuietTimeEnabled, BoolValue(s.isQuietTimeEnabled)) ]
  }

  /** Apply a sequence of editor puts, later puts overwriting earlier ones. */
  function PutAll(st: Storage, puts: seq<(string, Value)>): (st': Storage)
    ensures st'.Keys == st.Keys + (set i | 0 <= i < |puts| :: puts[i].0)
    decreases |puts|
  {
    if puts == [] then st else PutAll(st[puts[0].0 := puts[0].1], puts[1..])
  }

  /** `writeSettings` followed by the commit. */
  function Write(st: Storage, s: GeneralSettings): (st': Storage)
    ensures st'.Keys == st.Keys + (set i | 0 <= i < |SettingKeys| :: SettingKeys[i])
  {
    PutAll(st, Puts(s))
  }

  /** With distinct keys, each put's value is what the storage ends up holding. */
  lemma {:induction false} PutAllLookup(st: Storage, puts: seq<(string, Value)>, i: nat)
    requires i < |puts|
    requires forall a, b :: 0 <= a < b < |puts| ==> puts[a].0 != puts[b].0
    ensures puts[i].0 in PutAll(st, puts) && PutAll(st, puts)[puts[i].0] == puts[i].1
    decreases |puts|
  {
    if i == 0 {
      PutAllUntouched(st[puts[0].0 := puts[0].1], puts[1..], puts[0].0);
    } else {
      PutAllLookup(st[puts[0].0 := puts[0].1], puts[1..], i - 1);
    }
  }

  /** A key no put mentions keeps its old value. */
  lemma {:induction false} PutAllUntouched(st: Storage, puts: seq<(string, Value)>, k: string)
    requires forall a :: 0 <= a < |puts| ==> puts[a].0 != k
    ensures k in st ==> k in PutAll(st, puts) && PutAll(st, puts)[k] == st[k]
    decreases |puts|
  {
    if puts != [] {
      PutAllUntouched(st[puts[0].0 := puts[0].1], puts[1..], k);
    }
  }

  /** `writeSettings` leaves every other key of the storage as it was. */
  lemma WriteKeepsOtherKeys(st: Storage, s: GeneralSettings, k: string)
    requires k in st && k !in SettingKeys
    ensures k in Write(st, s) && Write(st, s)[k] == st[k]
  {
    PutAllUntouched(st, Puts(s), k);
  }

  // ---------------------------------------------------------------- loading

  /** `getIsQuietTime`: the clock is consulted only when quiet time is enabled. */
  function GetIsQuietTime(enabled: bool, starts: string, ends: string, isQuietTimeAt: (string, string) -> bool): (q: bool)
    ensures !enabled ==> !q
    ensures enabled ==> q == isQuietTimeAt(starts, ends)
  {
    if !enabled then false else isQuietTimeAt(starts, ends)
  }

  /**
   * `loadGeneralSettings`: the background mode comes from the legacy mode,
   * and the quiet-time verdict is computed from the quiet-time fields just
   * loaded, so it is never set while quiet time is disabled.
   */
  function LoadGeneralSettings(st: Storage, ops: BackgroundOps, isQuietTimeAt: (string, string) -> bool): (s: GeneralSettings)
    ensures s.backgroundSync == ToBackgroundSync(ops)
    ensures s.isQuietTime == GetIsQuietTime(s.isQuietTimeEnabled, s.quietTimeStarts, s.quietTimeEnds, isQuietTimeAt)
    ensures s.isQuietTime ==> s.isQuietTimeEnabled
  {
    var quietTimeEnds := GetStringOrDefault(st, KeyQuietTimeEnds, "7:00");
    var quietTimeStarts := GetStringOrDefault(st, KeyQuietTimeStarts, "21:00");
    var isQuietTimeEnabled := GetBoolean(st, KeyQuietTimeEnabled, false);
    GeneralSettings(
      backgroundSync := ToBackgroundSync(ops),
      showRecentChanges := GetBoolean(st, KeyShowRecentChanges, true),
      appTheme := GetAppTheme(st, KeyTheme, ThemeFollowSystem),
      messageViewTheme := GetSubTheme(st, KeyMessageViewTheme, SubThemeUseGlobal),
      messageComposeTheme := GetSubTheme(st, KeyMessageComposeTheme, SubThemeUseGlobal),
      fixedMessageViewTheme := GetBoolean(st, KeyFixedMessageViewTheme, true),
      isShowUnifiedInbox := GetBoolean(st, KeyShowUnifiedInbox, false),
      isShowStarredCount := GetBoolean(st, KeyShowStarredCount, false),
      isShowMessageListStars := GetBoolean(st, KeyMessageListStars, true),
      isShowAnimations := GetBoolean(st, KeyAnimations, true),
      isShowCorrespondentNames := GetBoolean(st, KeyShowCorrespondentNames, true),
      shouldShowSetupArchiveFolderDialog := GetBoolean(st, KeyShouldShowSetupArchiveFolderDialog, true),
      isMessageListSenderAboveSubject := GetBoolean(st, KeyMessageListSenderAboveSubject, false),
      isShowContactName := GetBoolean(st, KeyShowContactName, false),
      isShowContactPicture := GetBoolean(st, KeyShowContactPicture, true),
      isChangeContactNameColor := GetBoolean(st, KeyChangeRegisteredNameColor, false),
      isColorizeMissingContactPictures := GetBoolean(st, KeyColorizeMissingContactPictures, true),
      isUseBackgroundAsUnreadIndicator := GetBoolean(st, KeyIsUseBackgroundAsUnreadIndicator, false),
      isShowComposeButtonOnMessageList := GetBoolean(st, KeyShowComposeButtonOnMessageList, true),
      isThreadedViewEnabled := GetBoolean(st, KeyIsThreadedViewEnabled, true),
      isUseMessageViewFixedWidthFont := GetBoolean(st, KeyMessageViewFixedWidthFont, false),
      isAutoFitWidth := GetBoolean(st, KeyAutofitWidth, true),
      quietTimeEnds := quietTimeEnds,
      quietTimeStarts := quietTimeStarts,
      isQuietTimeEnabled := isQuietTimeEnabled,
      isQuietTime := GetIsQuietTime(isQuietTimeEnabled, quietTimeStarts, quietTimeEnds, isQuietTimeAt)
    )
  }

  /**
   * Empty storage loads the documented defaults: quiet time from "21:00" to
   * "7:00" and disabled, theme following the system, recent changes shown.
   */
  lemma LoadDefaults(ops: BackgroundOps, isQuietTimeAt: (string, string) -> bool)
    ensures var s := LoadGeneralSettings(map[], ops, isQuietTimeAt);
            && s.quietTimeEnds == "7:00" && s.quietTimeStarts == "21:00"
            && !s.isQuietTimeEnabled && !s.isQuietTime
            && s.appTheme == ThemeFollowSystem
            && s.messageViewTheme == SubThemeUseGlobal && s.messageComposeTheme == SubThemeUseGlobal
            && s.showRecentChanges && s.fixedMessageViewTheme
            && !s.isShowUnifiedInbox && !s.isShowStarredCount && s.isShowMessageListStars
            && s.isShowAnimations && s.isShowCorrespondentNames && s.shouldShowSetupArchiveFolderDialog
            && !s.isMessageListSenderAboveSubject && !s.isShowContactName && s.isShowContactPicture
            && !s.isChangeContactNameColor && s.isColorizeMissingContactPictures
            && !s.isUseBackgroundAsUnreadIndicator && s.isShowComposeButtonOnMessageList
            && s.isThreadedViewEnabled && !s.isUseMessageViewFixedWidthFont && s.isAutoFitWidth
            && s.backgroundSync == ToBackgroundSync(ops)
  {
  }

  /** An unreadable theme name falls back to following the system. */
  lemma UnreadableThemeFallsBack(st: Storage, ops: BackgroundOps, isQuietTimeAt: (string, string) -> bool)
    requires KeyTheme in st ==> st[KeyTheme].BoolValue? || st[KeyTheme].s !in {"LIGHT", "DARK", "FOLLOW_SYSTEM"}
    ensures LoadGeneralSettings(st, ops, isQuietTimeAt).appTheme == ThemeFollowSystem
  {
  }

  /** The value the storage holds for the i-th written key. */
  lemma WriteAt(st: Storage, s: GeneralSettings, i: nat)
    requires i < |SettingKeys|
    ensures SettingKeys[i] in Write(st, s) && Write(st, s)[SettingKeys[i]] == Puts(s)[i].1
  {
    SettingKeysDistinct();
    PutAllLookup(st, Puts(s), i);
  }

  /**
   * Round trip: loading what `writeSettings` wrote returns every persisted
   * field; only the background-sync mode and the quiet-time verdict come
   * from outside the storage.
   */
  lemma WriteThenLoad(st: Storage, s: GeneralSettings, ops: BackgroundOps, isQuietTimeAt: (string, string) -> bool)
    ensures LoadGeneralSettings(Write(st, s), ops, isQuietTimeAt)
         == s.(backgroundSync := ToBackgroundSync(ops),
               isQuietTime := GetIsQuietTime(s.isQuietTimeEnabled, s.quietTimeStarts, s.quietTimeEnds, isQuietTimeAt))
  {
    WrittenFieldsReadBack(st, s);
    LoadFromReadBack(Write(st, s), s, ops, isQuietTimeAt);
  }

  /** Read-back of the keys 0 to 2 of the written sequence. */
  lemma ReadBackPart1(w: Storage, s: GeneralSettings)
    requires forall i :: 0 <= i < |SettingKeys| ==> SettingKeys[i] in w && w[SettingKeys[i]] == Puts(s)[i].1
    ensures GetBoolean(w, KeyShowRecentChanges, true) == s.showRecentChanges
    ensures GetAppTheme(w, KeyTheme, ThemeFollowSystem) == s.appTheme
    ensures GetSubTheme(w, KeyMessageViewTheme, SubThemeUseGlobal) == s.messageViewTheme
  {
    var p := Puts(s);
    EnumNamesRoundTrip(s.appTheme, s.messageViewTheme);
    assert SettingKeys[0] == KeyShowRecentChanges && w[SettingKeys[0]] == p[0].1;
    assert SettingKeys[1] == KeyTheme && w[SettingKeys[1]] == p[1].1;
    assert SettingKeys[2] == KeyMessageViewTheme && w[SettingKeys[2]] == p[2].1;
  }

  /** Read-back of the keys 3 to 5 of the written sequence. */
  lemma ReadBackPart2(w: Storage, s: GeneralSettings)
    requires forall i :: 0 <= i < |SettingKeys| ==> SettingKeys[i] in w && w[SettingKeys[i]] == Puts(s)[i].1
    ensures GetSubTheme(w, KeyMessageComposeTheme, SubThemeUseGlobal) == s.messageComposeTheme
    ensures GetBoolean(w, KeyFixedMessageViewTheme, true) == s.fixedMessageViewTheme
    ensures GetBoolean(w, KeyShowUnifiedInbox, false) == s.isShowUnifiedInbox
  {
    var p := Puts(s);
    EnumNamesRoundTrip(s.appTheme, s.messageComposeTheme);
    assert SettingKeys[3] == KeyMessageComposeTheme && w[SettingKeys[3]] == p[3].1;
    assert SettingKeys[4] == KeyFixedMessageViewTheme && w[SettingKeys[4]] == p[4].1;
    assert SettingKeys[5] == KeyShowUnifiedInbox && w[SettingKeys[5]] == p[5].1;
  }

  /** Read-back of the keys 6 to 8 of the written sequence. */
  lemma ReadBackPart3(w: Storage, s: GeneralSettings)
    requires forall i :: 0 <= i < |SettingKeys| ==> SettingKeys[i] in w && w[SettingKeys[i]] == Puts(s)[i].1
    ensures GetBoolean(w, KeyShowStarredCount, false) == s.isShowStarredCount
    ensures GetBoolean(w, KeyMessageListStars, true) == s.isShowMessageListStars
    ensures GetBoolean(w, KeyAnimations, true) == s.isShowAnimations
  {
    var p := Puts(s);
    assert SettingKeys[6] == KeyShowStarredCount && w[SettingKeys[6]] == p[6].1;
    assert SettingKeys[7] == KeyMessageListStars && w[SettingKeys[7]] == p[7].1;
    assert SettingKeys[8] == KeyAnimations && w[SettingKeys[8]] == p[8].1;
  }

  /** Read-back of the keys 9 to 11 of the written sequence. */
  lemma ReadBackPart4(w: Storage, s: GeneralSettings)
    requires forall i :: 0 <= i < |SettingKeys| ==> SettingKeys[i] in w && w[SettingKeys[i]] == Puts(s)[i].1
    ensures GetBoolean(w, KeyShowCorrespondentNames, true) == s.isShowCorrespondentNames
    ensures GetBoolean(w, KeyShouldShowSetupArchiveFolderDialog, true) == s.shouldShowSetupArchiveFolderDialog
    ensures GetBoolean(w, KeyMessageListSenderAboveSubject, false) == s.isMessageListSenderAboveSubject
  {
    var p := Puts(s);
    assert SettingKeys[9] == KeyShowCorrespondentNames && w[SettingKeys[9]] == p[9].1;
    assert SettingKeys[10] == KeyShouldShowSetupArchiveFolderDialog && w[SettingKeys[10]] == p[10].1;
    assert SettingKeys[11] == KeyMessageListSenderAboveSubject && w[SettingKeys[11]] == p[11].1;
  }

  /** Read-back of the keys 12 to 14 of the written sequence. */
  lemma ReadBackPart5(w: Storage, s: GeneralSettings)
    requires forall i :: 0 <= i < |SettingKeys| ==> SettingKeys[i] in w && w[SettingKeys[i]] == Puts(s)[i].1
    ensures GetBoolean(w, KeyShowContactName, false) == s.isShowContactName
    ensures GetBoolean(w, KeyShowContactPicture, true) == s.isShowContactPicture
    ensures GetBoolean(w, KeyChangeRegisteredNameColor, false) == s.isChangeContactNameColor
  {
    var p := Puts(s);
    assert SettingKeys[12] == KeyShowContactName && w[SettingKeys[12]] == p[12].1;
    assert SettingKeys[13] == KeyShowContactPicture && w[SettingKeys[13]] == p[13].1;
    assert SettingKeys[14] == KeyChangeRegisteredNameColor && w[SettingKeys[14]] == p[14].1;
  }

  /** Read-back of the keys 15 to 17 of the written sequence. */
  lemma ReadBackPart6(w: Storage, s: GeneralSettings)
    requires forall i :: 0 <= i < |SettingKeys| ==> SettingKeys[i] in w && w[SettingKeys[i]] == Puts(s)[i].1
    ensures GetBoolean(w, KeyColorizeMissingContactPictures, true) == s.isColorizeMissingContactPictures
    ensures GetBoolean(w, KeyIsUseBackgroundAsUnreadIndicator, false) == s.isUseBackgroundAsUnreadIndicator
    ensures GetBoolean(w, KeyShowComposeButtonOnMessageList, true) == s.isShowComposeButtonOnMessageList
  {
    var p := Puts(s);
    assert SettingKeys[15] == KeyColorizeMissingContactPictures && w[SettingKeys[15]] == p[15].1;
    assert SettingKeys[16] == KeyIsUseBackgroundAsUnreadIndicator && w[SettingKeys[16]] == p[16].1;
    assert SettingKeys[17] == KeyShowComposeButtonOnMessageList && w[SettingKeys[17]] == p[17].1;
  }

  /** Read-back of the keys 18 to 20 of the written sequence. */
  lemma ReadBackPart7(w: Storage, s: GeneralSettings)
    requires forall i :: 0 <= i < |SettingKeys| ==> SettingKeys[i] in w && w[SettingKeys[i]] == Puts(s)[i].1
    ensures GetBoolean(w, KeyIsThreadedViewEnabled, true) == s.isThreadedViewEnabled
    ensures GetBoolean(w, KeyMessageViewFixedWidthFont, false) == s.isUseMessageViewFixedWidthFont
    ensures GetBoolean(w, KeyAutofitWidth, true) == s.isAutoFitWidth
  {
    var p := Puts(s);
    assert SettingKeys[18] == KeyIsThreadedViewEnabled && w[SettingKeys[18]] == p[18].1;
    assert SettingKeys[19] == KeyMessageViewFixedWidthFont && w[SettingKeys[19]] == p[19].1;
    assert SettingKeys[20] == KeyAutofitWidth && w[SettingKeys[20]] == p[20].1;
  }

  /** Read-back of the keys 21 to 23 of the written sequence. */
  lemma ReadBackPart8(w: Storage, s: GeneralSettings)
    requires forall i :: 0 <= i < |SettingKeys| ==> SettingKeys[i] in w && w[SettingKeys[i]] == Puts(s)[i].1
    ensures GetStringOrDefault(w, KeyQuietTimeEnds, "7:00") == s.quietTimeEnds
    ensures GetStringOrDefault(w, KeyQuietTimeStarts, "21:00") == s.quietTimeStarts
    ensures GetBoolean(w, KeyQuietTimeEnabled, false) == s.isQuietTimeEnabled
  {
    var p := Puts(s);
    assert SettingKeys[21] == KeyQuietTimeEnds && w[SettingKeys[21]] == p[21].1;
    assert SettingKeys[22] == KeyQuietTimeStarts && w[SettingKeys[22]] == p[22].1;
    assert SettingKeys[23] == KeyQuietTimeEnabled && w[SettingKeys[23]] == p[23].1;
  }

  /** Every persisted field reads back from `w` as it is in `s`. */
  ghost predicate ReadsBack(w: Storage, s: GeneralSettings) {
    && GetBoolean(w, KeyShowRecentChanges, true) == s.showRecentChanges
    && GetAppTheme(w, KeyTheme, ThemeFollowSystem) == s.appTheme
    && GetSubTheme(w, KeyMessageViewTheme, SubThemeUseGlobal) == s.messageViewTheme
    && GetSubTheme(w, KeyMessageComposeTheme, SubThemeUseGlobal) == s.messageComposeTheme
    && GetBoolean(w, KeyFixedMessageViewTheme, true) == s.fixedMessageViewTheme
    && GetBoolean(w, KeyShowUnifiedInbox, false) == s.isShowUnifiedInbox
    && GetBoolean(w, KeyShowStarredCount, false) == s.isShowStarredCount
    && GetBoolean(w, KeyMessageListStars, true) == s.isShowMessageListStars
    && GetBoolean(w, KeyAnimations, true) == s.isShowAnimations
    && GetBoolean(w, KeyShowCorrespondentNames, true) == s.isShowCorrespondentNames
    && GetBoolean(w, KeyShouldShowSetupArchiveFolderDialog, true) == s.shouldShowSetupArchiveFolderDialog
    && GetBoolean(w, KeyMessageListSenderAboveSubject, false) == s.isMessageListSenderAboveSubject
    && GetBoolean(w, KeyShowContactName, false) == s.isShowContactName
    && GetBoolean(w, KeyShowContactPicture, true) == s.isShowContactPicture
    && GetBoolean(w, KeyChangeRegisteredNameColor, false) == s.isChangeContactNameColor
    && GetBoolean(w, KeyColorizeMissingContactPictures, true) == s.isColorizeMissingContactPictures
    && GetBoolean(w, KeyIsUseBackgroundAsUnreadIndicator, false) == s.isUseBackgroundAsUnreadIndicator
    && GetBoolean(w, KeyShowComposeButtonOnMessageList, true) == s.isShowComposeButtonOnMessageList
    && GetBoolean(w, KeyIsThreadedViewEnabled, true) == s.isThreadedViewEnabled
    && GetBoolean(w, KeyMessageViewFixedWidthFont, false) == s.isUseMessageViewFixedWidthFont
    && GetBoolean(w, KeyAutofitWidth, true) == s.isAutoFitWidth
    && GetStringOrDefault(w, KeyQuietTimeEnds, "7:00") == s.quietTimeEnds
    && GetStringOrDefault(w, KeyQuietTimeStarts, "21:00") == s.quietTimeStarts
    && GetBoolean(w, KeyQuietTimeEnabled, false) == s.isQuietTimeEnabled
  }

  /** The storage `writeSettings` produced reads back every persisted field. */
  lemma WrittenFieldsReadBack(st: Storage, s: GeneralSettings)
    ensures ReadsBack(Write(st, s), s)
  {
    var w := Write(st, s);
    forall i | 0 <= i < |SettingKeys|
      ensures SettingKeys[i] in w && w[SettingKeys[i]] == Puts(s)[i].1
    {
      WriteAt(st, s, i);
    }
    ReadBackPart1(w, s);
    ReadBackPart2(w, s);
    ReadBackPart3(w, s);
    ReadBackPart4(w, s);
    ReadBackPart5(w, s);
    ReadBackPart6(w, s);
    ReadBackPart7(w, s);
    ReadBackPart8(w, s);
  }

  /** Loading from a storage whose every persisted field reads back. */
  lemma LoadFromReadBack(w: Storage, s: GeneralSettings, ops: BackgroundOps, isQuietTimeAt: (string, string) -> bool)
    requires ReadsBack(w, s)
    ensures LoadGeneralSettings(w, ops, isQuietTimeAt)
         == s.(backgroundSync := ToBackgroundSync(ops),
               isQuietTime := GetIsQuietTime(s.isQuietTimeEnabled, s.quietTimeStarts, s.quietTimeEnds, isQuietTimeAt))
  {
  }

  // ---------------------------------------------------------------- setters

  /**
   * `a` and `b` agree on every field except possibly the persisted field at
   * position `i` of the written key sequence.
   */
  ghost predicate AgreeExcept(a: GeneralSettings, b: GeneralSettings, i: nat) {
    && a.backgroundSync == b.backgroundSync
    && a.isQuietTime == b.isQuietTime
    && (i == 0 || a.showRecentChanges == b.showRecentChanges)
    && (i == 1 || a.appTheme == b.appTheme)
    && (i == 2 || a.messageViewTheme == b.messageViewTheme)
    && (i == 3 || a.messageComposeTheme == b.messageComposeTheme)
    && (i == 4 || a.fixedMessageViewTheme == b.fixedMessageViewTheme)
    && (i == 5 || a.isShowUnifiedInbox == b.isShowUnifiedInbox)
    && (i == 6 || a.isShowStarredCount == b.isShowStarredCount)
    && (i == 7 || a.isShowMessageListStars == b.isShowMessageListStars)
    && (i == 8 || a.isShowAnimations == b.isShowAnimations)
    && (i == 9 || a.isShowCorrespondentNames == b.isShowCorrespondentNames)
    && (i == 10 || a.shouldShowSetupArchiveFolderDialog == b.shouldShowSetupArchiveFolderDialog)
    && (i == 11 || a.isMessageListSenderAboveSubject == b.isMessageListSenderAboveSubject)
    && (i == 12 || a.isShowContactName == b.isShowContactName)
    && (i == 13 || a.isShowContactPicture == b.isShowContactPicture)
    && (i == 14 || a.isChangeContactNameColor == b.isChangeContactNameColor)
    && (i == 15 || a.isColorizeMissingContactPictures == b.isColorizeMissingContactPictures)
    && (i == 16 || a.isUseBackgroundAsUnreadIndicator == b.isUseBackgroundAsUnreadIndicator)
    && (i == 17 || a.isShowComposeButtonOnMessageList == b.isShowComposeButtonOnMessageList)
    && (i == 18 || a.isThreadedViewEnabled == b.isThreadedViewEnabled)
    && (i == 19 || a.isUseMessageViewFixedWidthFont == b.isUseMessageViewFixedWidthFont)
    && (i == 20 || a.isAutoFitWidth == b.isAutoFitWidth)
    && (i == 21 || a.quietTimeEnds == b.quietTimeEnds)
    && (i == 22 || a.quietTimeStarts == b.quietTimeStarts)
    && (i == 23 || a.isQuietTimeEnabled == b.isQuietTimeEnabled)
  }

  // Each `set*` call copies the current settings with one field replaced.
  // Its contract says that the entry `writeSettings` produces for that
  // field's key carries the new value and that every other field, persisted
  // or not, is unchanged.

  function SetShowRecentChanges(s: GeneralSettings, showRecentChanges: bool): (r: GeneralSettings)
    ensures Puts(r)[0].1 == BoolValue(showRecentChanges)
    ensures AgreeExcept(r, s, 0)
  {
    s.(showRecentChanges := showRecentChanges)
  }

  function SetAppTheme(s: GeneralSettings, appTheme: AppTheme): (r: GeneralSettings)
    ensures Puts(r)[1].1 == StringValue(AppThemeName(appTheme))
    ensures AgreeExcept(r, s, 1)
  {
    s.(appTheme := appTheme)
  }

  function SetMessageViewTheme(s: GeneralSettings, messageViewTheme: SubTheme): (r: GeneralSettings)
    ensures Puts(r)[2].1 == StringValue(SubThemeName(messageViewTheme))
    ensures AgreeExcept(r, s, 2)
  {
    s.(messageViewTheme := messageViewTheme)
  }

  function SetMessageComposeTheme(s: GeneralSettings, messageComposeTheme: SubTheme): (r: GeneralSettings)
    ensures Puts(r)[3].1 == StringValue(SubThemeName(messageComposeTheme))
    ensures AgreeExcept(r, s, 3)
  {
    s.(messageComposeTheme := messageComposeTheme)
  }

  function SetFixedMessageViewTheme(s: GeneralSettings, fixedMessageViewTheme: bool): (r: GeneralSettings)
    ensures Puts(r)[4].1 == BoolValue(fixedMessageViewTheme)
    ensures AgreeExcept(r, s, 4)
  {
    s.(fixedMessageViewTheme := fixedMessageViewTheme)
  }

  function SetIsShowUnifiedInbox(s: GeneralSettings, isShowUnifiedInbox: bool): (r: GeneralSettings)
    ensures Puts(r)[5].1 == BoolValue(isShowUnifiedInbox)
    ensures AgreeExcept(r, s, 5)
  {
    s.(isShowUnifiedInbox := isShowUnifiedInbox)
  }

  function SetIsShowStarredCount(s: GeneralSettings, isShowStarredCount: bool): (r: GeneralSettings)
    ensures Puts(r)[6].1 == BoolValue(isShowStarredCount)
    ensures AgreeExcept(r, s, 6)
  {
    s.(isShowStarredCount := isShowStarredCount)
  }

  function SetIsShowMessageListStars(s: GeneralSettings, isShowMessageListStars: bool): (r: GeneralSettings)
    ensures Puts(r)[7].1 == BoolValue(isShowMessageListStars)
    ensures AgreeExcept(r, s, 7)
  {
    s.(isShowMessageListStars := isShowMessageListStars)
  }

  function SetIsShowAnimations(s: GeneralSettings, isShowAnimations: bool): (r: GeneralSettings)
    ensures Puts(r)[8].1 == BoolValue(isShowAnimations)
    ensures AgreeExcept(r, s, 8)
  {
    s.(isShowAnimations := isShowAnimations)
  }

  function SetIsShowCorrespondentNames(s: GeneralSettings, isShowCorrespondentNames: bool): (r: GeneralSettings)
    ensures Puts(r)[9].1 == BoolValue(isShowCorrespondentNames)
    ensures AgreeExcept(r, s, 9)
  {
    s.(isShowCorrespondentNames := isShowCorrespondentNames)
  }

  function SetSetupArchiveShouldNotShowAgain(s: GeneralSettings, shouldShowSetupArchiveFolderDialog: bool): (r: GeneralSettings)
    ensures Puts(r)[10].1 == BoolValue(shouldShowSetupArchiveFolderDialog)
    ensures AgreeExcept(r, s, 10)
  {
    s.(shouldShowSetupArchiveFolderDialog := shouldShowSetupArchiveFolderDialog)
  }

  function SetIsMessageListSenderAboveSubject(s: GeneralSettings, isMessageListSenderAboveSubject: bool): (r: GeneralSettings)
    ensures Puts(r)[11].1 == BoolValue(isMessageListSenderAboveSubject)
    ensures AgreeExcept(r, s, 11)
  {
    s.(isMessageListSenderAboveSubject := isMessageListSenderAboveSubject)
  }

  function SetIsShowContactName(s: GeneralSettings, isShowContactName: bool): (r: GeneralSettings)
    ensures Puts(r)[12].1 == BoolValue(isShowContactName)
    ensures AgreeExcept(r, s, 12)
  {
    s.(isShowContactName := isShowContactName)
  }

  function SetIsShowContactPicture(s: GeneralSettings, isShowContactPicture: bool): (r: GeneralSettings)
    ensures Puts(r)[13].1 == BoolValue(isShowContactPicture)
    ensures AgreeExcept(r, s, 13)
  {
    s.(isShowContactPicture := isShowContactPicture)
  }

  function SetIsChangeContactNameColor(s: GeneralSettings, isChangeContactNameColor: bool): (r: GeneralSettings)
    ensures Puts(r)[14].1 == BoolValue(isChangeContactNameColor)
    ensures AgreeExcept(r, s, 14)
  {
    s.(isChangeContactNameColor := isChangeContactNameColor)
  }

  function SetIsColorizeMissingContactPictures(s: GeneralSettings, isColorizeMissingContactPictures: bool): (r: GeneralSettings)
    ensures Puts(r)[15].1 == BoolValue(isColorizeMissingContactPictures)
    ensures AgreeExcept(r, s, 15)
  {
    s.(isColorizeMissingContactPictures := isColorizeMissingContactPictures)
  }

  function SetIsUseBackgroundAsUnreadIndicator(s: GeneralSettings, isUseBackgroundAsUnreadIndicator: bool): (r: GeneralSettings)
    ensures Puts(r)[16].1 == BoolValue(isUseBackgroundAsUnreadIndicator)
    ensures AgreeExcept(r, s, 16)
  {
    s.(isUseBackgroundAsUnreadIndicator := isUseBackgroundAsUnreadIndicator)
  }

  function SetIsShowComposeButtonOnMessageList(s: GeneralSettings, isShowComposeButtonOnMessageList: bool): (r: GeneralSettings)
    ensures Puts(r)[17].1 == BoolValue(isShowComposeButtonOnMessageList)
    ensures AgreeExcept(r, s, 17)
  {
    s.(isShowComposeButtonOnMessageList := isShowComposeButtonOnMessageList)
  }

  function SetIsThreadedViewEnabled(s: GeneralSettings, isThreadedViewEnabled: bool): (r: GeneralSettings)
    ensures Puts(r)[18].1 == BoolValue(isThreadedViewEnabled)
    ensures AgreeExcept(r, s, 18)
  {
    s.(isThreadedViewEnabled := isThreadedViewEnabled)
  }

  function SetIsUseMessageViewFixedWidthFont(s: GeneralSettings, isUseMessageViewFixedWidthFont: bool): (r: GeneralSettings)
    ensures Puts(r)[19].1 == BoolValue(isUseMessageViewFixedWidthFont)
    ensures AgreeExcept(r, s, 19)
  {
    s.(isUseMessageViewFixedWidthFont := isUseMessageViewFixedWidthFont)
  }

  function SetIsAutoFitWidth(s: GeneralSettings, isAutoFitWidth: bool): (r: GeneralSettings)
    ensures Puts(r)[20].1 == BoolValue(isAutoFitWidth)
    ensures AgreeExcept(r, s, 20)
  {
    s.(isAutoFitWidth := isAutoFitWidth)
  }

  function SetQuietTimeEnds(s: GeneralSettings, quietTimeEnds: string): (r: GeneralSettings)
    ensures Puts(r)[21].1 == StringValue(quietTimeEnds)
    ensures AgreeExcept(r, s, 21)
  {
    s.(quietTimeEnds := quietTimeEnds)
  }

  function SetQuietTimeStarts(s: GeneralSettings, quietTimeStarts: string): (r: GeneralSettings)
    ensures Puts(r)[22].1 == StringValue(quietTimeStarts)
    ensures AgreeExcept(r, s, 22)
  {
    s.(quietTimeStarts := quietTimeStarts)
  }

  function SetIsQuietTimeEnabled(s: GeneralSettings, isQuietTimeEnabled: bool): (r: GeneralSettings)
    ensures Puts(r)[23].1 == BoolValue(isQuietTimeEnabled)
    ensures AgreeExcept(r, s, 23)
  {
    s.(isQuietTimeEnabled := isQuietTimeEnabled)
  }
}
