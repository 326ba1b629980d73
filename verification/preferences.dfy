/**
 * `PreferencesRepository`: the DataStore preferences file as a map from
 * typed key to value, the readers with their defaults, the setters,
 * `clearAllPreferences` and `allPreferences`.
 */
module Preferences {
  import opened Nullable

  /** The type a DataStore key is declared with. */
  datatype ValueKind = StringKind | BooleanKind | IntKind

  datatype PreferenceKey =
    | ThemeModeKey | DefaultViewKey | SortOrderKey
    | NotificationsEnabledKey | NotificationTimeHoursKey | NotificationTimeMinutesKey
    | ShowCompletedKey | AutoDeleteCompletedKey | LastSyncTimestampKey
  {
    /** The key's name in the preferences file. */
    function Name(): string {
      match this
      case ThemeModeKey => "theme_mode"
      case DefaultViewKey => "default_view"
      case SortOrderKey => "sort_order"
      case NotificationsEnabledKey => "notifications_enabled"
      case NotificationTimeHoursKey => "notification_time_hours"
      case NotificationTimeMinutesKey => "notification_time_minutes"
      case ShowCompletedKey => "show_completed"
      case AutoDeleteCompletedKey => "auto_delete_completed"
      case LastSyncTimestampKey => "last_sync_timestamp"
    }

    /** `stringPreferencesKey`, `booleanPreferencesKey` or `intPreferencesKey`. */
    function Kind(): ValueKind {
      match this
      case ThemeModeKey | DefaultViewKey | SortOrderKey | LastSyncTimestampKey => StringKind
      case NotificationsEnabledKey | ShowCompletedKey | AutoDeleteCompletedKey => BooleanKind
      case NotificationTimeHoursKey | NotificationTimeMinutesKey => IntKind
    }
  }

  /** The key with a given name, if there is one. */
  function KeyNamed(name: string): (k: Option<PreferenceKey>)
    ensures k.Some? ==> k.value.Name() == name
  {
    if name == "theme_mode" then Some(ThemeModeKey)
    else if name == "default_view" then Some(DefaultViewKey)
    else if name == "sort_order" then Some(SortOrderKey)
    else if name == "notifications_enabled" then Some(NotificationsEnabledKey)
    else if name == "notification_time_hours" then Some(NotificationTimeHoursKey)
    else if name == "notification_time_minutes" then Some(NotificationTimeMinutesKey)
    else if name == "show_completed" then Some(ShowCompletedKey)
    else if name == "auto_delete_completed" then Some(AutoDeleteCompletedKey)
    else if name == "last_sync_timestamp" then Some(LastSyncTimestampKey)
    else None
  }

  /**
   * The nine keys have nine different names, so keying the file by name and
   * keying it by `PreferenceKey` are the same thing.
   */
  lemma KeyNamesDistinct()
    ensures forall k: PreferenceKey :: KeyNamed(k.Name()) == Some(k)
    ensures forall k1: PreferenceKey, k2: PreferenceKey :: k1.Name() == k2.Name() ==> k1 == k2
  {
    forall k: PreferenceKey
      ensures KeyNamed(k.Name()) == Some(k)
    {
      match k
      case ThemeModeKey =>
      case DefaultViewKey =>
      case SortOrderKey =>
      case NotificationsEnabledKey =>
      case NotificationTimeHoursKey =>
      case NotificationTimeMinutesKey =>
      case ShowCompletedKey =>
      case AutoDeleteCompletedKey =>
      case LastSyncTimestampKey =>
    }
  }

  datatype PrefValue = StringValue(s: string) | BooleanValue(b: bool) | IntValue(i: int) {
    function Kind(): (kind: ValueKind)
      ensures kind == StringKind <==> StringValue?
      ensures kind == BooleanKind <==> BooleanValue?
      ensures kind == IntKind <==> IntValue?
    {
      match this
      case StringValue(_) => StringKind
      case BooleanValue(_) => BooleanKind
      case IntValue(_) => IntKind
    }
  }

  /** The preferences file: the keys that have been written, and their values. */
  type Prefs = map<PreferenceKey, PrefValue>

  /**
   * Every stored value has its key's declared type. Writes go through typed
   * keys, so this always holds for the file the repository owns.
   */
  ghost predicate WellTyped(p: Prefs) {
    forall k :: k in p ==> p[k].Kind() == k.Kind()
  }

  /** Keys outside `keys` have the same entry (or none) in both files. */
  ghost predicate SameExcept(p: Prefs, p': Prefs, keys: set<PreferenceKey>) {
    forall k :: k !in keys ==> (k in p <==> k in p') && (k in p ==> p[k] == p'[k])
  }

  const DefaultTheme: string := "SYSTEM"
  const DefaultViewFilter: string := "PENDING"
  const DefaultSortOrder: string := "DATE_ASC"
  const DefaultNotificationHour: int := 9
  const DefaultNotificationMinute: int := 0

  // ---------------------------------------------------------------------
  // Readers: the stored value, or the default when the key is absent
  // ---------------------------------------------------------------------

  function StringOr(p: Prefs, k: PreferenceKey, default: string): string
    requires WellTyped(p) && k.Kind() == StringKind
  {
    if k in p then p[k].s else default
  }

  function BooleanOr(p: Prefs, k: PreferenceKey, default: bool): bool
    requires WellTyped(p) && k.Kind() == BooleanKind
  {
    if k in p then p[k].b else default
  }

  function IntOr(p: Prefs, k: PreferenceKey, default: int): int
    requires WellTyped(p) && k.Kind() == IntKind
  {
    if k in p then p[k].i else default
  }

  function ThemeMode(p: Prefs): string
    requires WellTyped(p)
  {
    StringOr(p, ThemeModeKey, DefaultTheme)
  }

  function DefaultView(p: Prefs): string
    requires WellTyped(p)
  {
    StringOr(p, DefaultViewKey, DefaultViewFilter)
  }

  function SortOrder(p: Prefs): string
    requires WellTyped(p)
  {
    StringOr(p, SortOrderKey, DefaultSortOrder)
  }

  function ShowCompleted(p: Prefs): bool
    requires WellTyped(p)
  {
    BooleanOr(p, ShowCompletedKey, true)
  }

  function NotificationsEnabled(p: Prefs): bool
    requires WellTyped(p)
  {
    BooleanOr(p, NotificationsEnabledKey, true)
  }

  function NotificationTimeHours(p: Prefs): int
    requires WellTyped(p)
  {
    IntOr(p, NotificationTimeHoursKey, DefaultNotificationHour)
  }

  function NotificationTimeMinutes(p: Prefs): int
    requires WellTyped(p)
  {
    IntOr(p, NotificationTimeMinutesKey, DefaultNotificationMinute)
  }

  function AutoDeleteCompleted(p: Prefs): bool
    requires WellTyped(p)
  {
    BooleanOr(p, AutoDeleteCompletedKey, false)
  }

  /** The one reader without a default: absent until a sync is recorded. */
  function LastSyncTimestamp(p: Prefs): Option<string>
    requires WellTyped(p)
  {
    if LastSyncTimestampKey in p then Some(p[LastSyncTimestampKey].s) else None
  }

  // ---------------------------------------------------------------------
  // Setters
  // ---------------------------------------------------------------------

  /** One `edit { preferences[key] = value }`. */
  function Put(p: Prefs, k: PreferenceKey, v: PrefValue): (p': Prefs)
    requires WellTyped(p) && v.Kind() == k.Kind()
    ensures WellTyped(p')
    ensures k in p' && p'[k] == v
    ensures SameExcept(p, p', {k})
  {
    p[k := v]
  }

  function SetThemeMode(p: Prefs, mode: string): (p': Prefs)
    requires WellTyped(p)
    ensures WellTyped(p') && ThemeMode(p') == mode
    ensures SameExcept(p, p', {ThemeModeKey})
  {
    Put(p, ThemeModeKey, StringValue(mode))
  }

  function SetDefaultView(p: Prefs, view: string): (p': Prefs)
    requires WellTyped(p)
    ensures WellTyped(p') && DefaultView(p') == view
    ensures SameExcept(p, p', {DefaultViewKey})
  {
    Put(p, DefaultViewKey, StringValue(view))
  }

  function SetSortOrder(p: Prefs, order: string): (p': Prefs)
    requires WellTyped(p)
    ensures WellTyped(p') && SortOrder(p') == order
    ensures SameExcept(p, p', {SortOrderKey})
  {
    Put(p, SortOrderKey, StringValue(order))
  }

  function SetShowCompleted(p: Prefs, show: bool): (p': Prefs)
    requires WellTyped(p)
    ensures WellTyped(p') && ShowCompleted(p') == show
    ensures SameExcept(p, p', {ShowCompletedKey})
  {
    Put(p, ShowCompletedKey, BooleanValue(show))
  }

  function SetNotificationsEnabled(p: Prefs, enabled: bool): (p': Prefs)
    requires WellTyped(p)
    ensures WellTyped(p') && NotificationsEnabled(p') == enabled
    ensures SameExcept(p, p', {NotificationsEnabledKey})
  {
    Put(p, NotificationsEnabledKey, BooleanValue(enabled))
  }

  /** Hours and minutes are written in one edit, with no range check. */
  function SetNotificationTime(p: Prefs, hours: int, minutes: int): (p': Prefs)
    requires WellTyped(p)
    ensures WellTyped(p') && NotificationTimeHours(p') == hours && NotificationTimeMinutes(p') == minutes
    ensures SameExcept(p, p', {NotificationTimeHoursKey, NotificationTimeMinutesKey})
  {
    Put(Put(p, NotificationTimeHoursKey, IntValue(hours)), NotificationTimeMinutesKey, IntValue(minutes))
  }

  function SetAutoDeleteCompleted(p: Prefs, autoDelete: bool): (p': Prefs)
    requires WellTyped(p)
    ensures WellTyped(p') && AutoDeleteCompleted(p') == autoDelete
    ensures SameExcept(p, p', {AutoDeleteCompletedKey})
  {
    Put(p, AutoDeleteCompletedKey, BooleanValue(autoDelete))
  }

  function SetLastSyncTimestamp(p: Prefs, timestamp: string): (p': Prefs)
    requires WellTyped(p)
    ensures WellTyped(p') && LastSyncTimestamp(p') == Some(timestamp)
    ensures SameExcept(p, p', {LastSyncTimestampKey})
  {
    Put(p, LastSyncTimestampKey, StringValue(timestamp))
  }

  /** `clearAllPreferences`: every key removed. */
  function ClearAllPreferences(p: Prefs): (p': Prefs)
    ensures WellTyped(p') && p'.Keys == {}
  {
    map[]
  }

  // ---------------------------------------------------------------------
  // allPreferences
  // ---------------------------------------------------------------------

  datatype UserPreferences = UserPreferences(
    themeMode: string,
    defaultView: string,
    sortOrder: string,
    notificationsEnabled: bool,
    notificationHours: int,
    notificationMinutes: int,
    showCompleted: bool,
    autoDeleteCompleted: bool,
    lastSyncTimestamp: Option<string>
  )

  /** What every reader yields on a file with no keys. */
  const Defaults: UserPreferences :=
    UserPreferences(DefaultTheme, DefaultViewFilter, DefaultSortOrder, true,
                    DefaultNotificationHour, DefaultNotificationMinute, true, false, None)

  /** `allPreferences`: all nine values read in one pass, each with its own default. */
  function AllPreferences(p: Prefs): UserPreferences
    requires WellTyped(p)
  {
    UserPreferences(
      if ThemeModeKey in p then p[ThemeModeKey].s else DefaultTheme,
      if DefaultViewKey in p then p[DefaultViewKey].s else DefaultViewFilter,
      if SortOrderKey in p then p[SortOrderKey].s else DefaultSortOrder,
      if NotificationsEnabledKey in p then p[NotificationsEnabledKey].b else true,
      if NotificationTimeHoursKey in p then p[NotificationTimeHoursKey].i else DefaultNotificationHour,
      if NotificationTimeMinutesKey in p then p[NotificationTimeMinutesKey].i else DefaultNotificationMinute,
      if ShowCompletedKey in p then p[ShowCompletedKey].b else true,
      if AutoDeleteCompletedKey in p then p[AutoDeleteCompletedKey].b else false,
      if LastSyncTimestampKey in p then Some(p[LastSyncTimestampKey].s) else None)
  }

  /** `allPreferences` applies the same defaults as the nine individual readers. */
  lemma AllPreferencesAgrees(p: Prefs)
    requires WellTyped(p)
    ensures var u := AllPreferences(p);
      && u.themeMode == ThemeMode(p) && u.defaultView == DefaultView(p) && u.sortOrder == SortOrder(p)
      && u.notificationsEnabled == NotificationsEnabled(p)
      && u.notificationHours == NotificationTimeHours(p) && u.notificationMinutes == NotificationTimeMinutes(p)
      && u.showCompleted == ShowCompleted(p) && u.autoDeleteCompleted == AutoDeleteCompleted(p)
      && u.lastSyncTimestamp == LastSyncTimestamp(p)
  {
  }

  /** A reader of a key that was never written yields that key's default. */
  lemma AbsentKeysReadDefaults(p: Prefs)
    requires WellTyped(p)
    ensures ThemeModeKey !in p ==> ThemeMode(p) == "SYSTEM"
    ensures DefaultViewKey !in p ==> DefaultView(p) == "PENDING"
    ensures SortOrderKey !in p ==> SortOrder(p) == "DATE_ASC"
    ensures NotificationsEnabledKey !in p ==> NotificationsEnabled(p)
    ensures NotificationTimeHoursKey !in p ==> NotificationTimeHours(p) == 9
    ensures NotificationTimeMinutesKey !in p ==> NotificationTimeMinutes(p) == 0
    ensures ShowCompletedKey !in p ==> ShowCompleted(p)
    ensures AutoDeleteCompletedKey !in p ==> !AutoDeleteCompleted(p)
    ensures LastSyncTimestampKey !in p ==> LastSyncTimestamp(p).None?
  {
  }

  /** After `clearAllPreferences` every reader is back at its default. */
  lemma ClearRestoresDefaults(p: Prefs)
    ensures AllPreferences(ClearAllPreferences(p)) == Defaults
    ensures ThemeMode(ClearAllPreferences(p)) == "SYSTEM"
    ensures NotificationTimeHours(ClearAllPreferences(p)) == 9
    ensures NotificationTimeMinutes(ClearAllPreferences(p)) == 0
  {
  }

  /**
   * A setter changes only what its own reader sees: writing the theme, for
   * one, leaves the eight other values as they were.
   */
  lemma SetThemeModeLeavesOthers(p: Prefs, mode: string)
    requires WellTyped(p)
    ensures AllPreferences(SetThemeMode(p, mode)) == AllPreferences(p).(themeMode := mode)
  {
    var p' := SetThemeMode(p, mode);
    assert forall k :: k != ThemeModeKey ==> (k in p <==> k in p');
  }

  /** Writing the notification time changes the two time values and nothing else. */
  lemma SetNotificationTimeLeavesOthers(p: Prefs, hours: int, minutes: int)
    requires WellTyped(p)
    ensures AllPreferences(SetNotificationTime(p, hours, minutes))
         == AllPreferences(p).(notificationHours := hours, notificationMinutes := minutes)
  {
  }
}
