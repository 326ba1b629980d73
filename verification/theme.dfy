/** The theme-mode preference as `MainActivity` applies it. */
module Theme {
  import opened Preferences

  /**
   * Whether the app is drawn dark: "LIGHT" never, "DARK" always, and
   * "SYSTEM" or any other string as the system says.
   */
  function DarkTheme(themeMode: string, systemInDarkTheme: bool): (dark: bool)
    ensures themeMode == "LIGHT" ==> !dark
    ensures themeMode == "DARK" ==> dark
    ensures themeMode != "LIGHT" && themeMode != "DARK" ==> dark == systemInDarkTheme
  {
    if themeMode == "LIGHT" then false
    else if themeMode == "DARK" then true
    else if themeMode == "SYSTEM" then systemInDarkTheme
    else systemInDarkTheme
  }

  /** An explicit mode pins the theme; only the two explicit modes do. */
  lemma OnlyExplicitModesIgnoreSystem(themeMode: string)
    ensures DarkTheme(themeMode, true) == DarkTheme(themeMode, false) <==>
      themeMode == "LIGHT" || themeMode == "DARK"
  {
  }

  /** With nothing stored, or after clearing, the theme follows the system. */
  lemma ClearedPreferencesFollowSystem(p: Prefs, systemInDarkTheme: bool)
    ensures DarkTheme(ThemeMode(ClearAllPreferences(p)), systemInDarkTheme) == systemInDarkTheme
  {
  }

  /** Storing "DARK" or "LIGHT" decides the theme whatever the system says. */
  lemma StoredModeDecidesTheme(p: Prefs, systemInDarkTheme: bool)
    requires WellTyped(p)
    ensures DarkTheme(ThemeMode(SetThemeMode(p, "DARK")), systemInDarkTheme)
    ensures !DarkTheme(ThemeMode(SetThemeMode(p, "LIGHT")), systemInDarkTheme)
  {
  }
}
