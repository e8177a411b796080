// Typed application settings (src/lib/settings/app-settings.ts): booleans,
// strings and the UI theme stored as text in the `settings` key-value table,
// read back with defaults.

module AppSettings {
  import opened Common

  /** The `settings` table: a key maps to its text; an absent key reads as null. */
  class SettingsTable {
    var values: map<string, string>

    constructor()
      ensures values == map[]
    {
      values := map[];
    }

    /** `settings.get`. */
    function Get(key: string): (r: Option<string>)
      reads this
      ensures r.Some? <==> key in values
      ensures r.Some? ==> r.value == values[key]
    {
      if key in values then Some(values[key]) else None
    }

    /** `settings.set`: insert or overwrite one row. */
    method Set(key: string, value: string)
      modifies this
      ensures values == old(values)[key := value]
    {
      values := values[key := value];
    }
  }

  // ---------------------------------------------------------------------
  // keys and defaults
  // ---------------------------------------------------------------------

  const UiThemeKey: string := "ui.theme"
  const AlwaysAskBackupKey: string := "prompts.alwaysAsk.backup"
  const LastBackupPathKey: string := "paths.last.backup"
  const AlwaysAskRestoreKey: string := "prompts.alwaysAsk.restore"
  const LastRestorePathKey: string := "paths.last.restore"

  /** `UiTheme`. */
  datatype UiTheme = System | Light | Dark

  function ThemeName(t: UiTheme): (r: string)
  {
    match t
    case System => "system"
    case Light => "light"
    case Dark => "dark"
  }

  // ---------------------------------------------------------------------
  // parsing a stored value
  // ---------------------------------------------------------------------

  /** A JavaScript string is falsy exactly when it is empty; null is falsy. */
  predicate Present(value: Option<string>)
  {
    value.Some? && value.value != ""
  }

  const TrueWords: set<string> := {"true", "1", "yes"}
  const FalseWords: set<string> := {"false", "0", "no"}

  /** The body of `getBool` after the read. */
  function ParseBool(value: Option<string>, default: bool): (r: bool)
    ensures !Present(value) ==> r == default
    ensures r != default ==> Present(value) && ToLower(value.value) in TrueWords + FalseWords
  {
    if !Present(value) then default
    else
      var lower := ToLower(value.value);
      if lower in TrueWords then true
      else if lower in FalseWords then false
      else default
  }

  /** The text `setBool` writes. */
  function BoolText(b: bool): (r: string)
    ensures r in (if b then TrueWords else FalseWords)
  {
    if b then "true" else "false"
  }

  /** The body of `getUiTheme` after the read. */
  function ParseTheme(value: Option<string>): (r: UiTheme)
    ensures Present(value) && value.value in {"light", "dark"} ==> ThemeName(r) == value.value
    ensures !(Present(value) && value.value in {"light", "dark"}) ==> r == System
  {
    if !Present(value) then System
    else if value.value == "system" then System
    else if value.value == "light" then Light
    else if value.value == "dark" then Dark
    else System
  }

  /** `value ?? defaultValue`. */
  function ParseString(value: Option<string>, default: string): (r: string)
    ensures value.Some? ==> r == value.value
    ensures value.None? ==> r == default
  {
    match value
    case Some(v) => v
    case None => default
  }

  // ---------------------------------------------------------------------
  // the helpers over the table
  // ---------------------------------------------------------------------

  function GetBool(t: SettingsTable, key: string, default: bool): (r: bool)
    reads t
    ensures key !in t.values ==> r == default
  {
    ParseBool(t.Get(key), default)
  }

  method SetBool(t: SettingsTable, key: string, value: bool)
    modifies t
    ensures t.values == old(t.values)[key := BoolText(value)]
    ensures forall d: bool :: GetBool(t, key, d) == value
  {
    t.Set(key, BoolText(value));
    forall d: bool
      ensures GetBool(t, key, d) == value
    {
      BoolRoundTrip(value, d);
    }
  }

  function GetString(t: SettingsTable, key: string, default: string): (r: string)
    reads t
    ensures key in t.values ==> r == t.values[key]
    ensures key !in t.values ==> r == default
  {
    ParseString(t.Get(key), default)
  }

  method SetString(t: SettingsTable, key: string, value: string)
    modifies t
    ensures t.values == old(t.values)[key := value]
    ensures forall d: string :: GetString(t, key, d) == value
  {
    t.Set(key, value);
  }

  function GetUiTheme(t: SettingsTable): (r: UiTheme)
    reads t
    ensures UiThemeKey !in t.values ==> r == System
  {
    ParseTheme(t.Get(UiThemeKey))
  }

  method SetUiTheme(t: SettingsTable, theme: UiTheme)
    modifies t
    ensures t.values == old(t.values)[UiThemeKey := ThemeName(theme)]
    ensures GetUiTheme(t) == theme
  {
    t.Set(UiThemeKey, ThemeName(theme));
    ThemeRoundTrip(theme);
  }

  function GetAlwaysAskBackup(t: SettingsTable): (r: bool)
    reads t
  {
    GetBool(t, AlwaysAskBackupKey, true)
  }

  method SetAlwaysAskBackup(t: SettingsTable, value: bool)
    modifies t
    ensures t.values == old(t.values)[AlwaysAskBackupKey := BoolText(value)]
    ensures GetAlwaysAskBackup(t) == value
  {
    SetBool(t, AlwaysAskBackupKey, value);
  }

  function GetLastBackupPath(t: SettingsTable): (r: string)
    reads t
  {
    GetString(t, LastBackupPathKey, "")
  }

  method SetLastBackupPath(t: SettingsTable, path: string)
    modifies t
    ensures t.values == old(t.values)[LastBackupPathKey := path]
    ensures GetLastBackupPath(t) == path
  {
    SetString(t, LastBackupPathKey, path);
  }

  function GetAlwaysAskRestore(t: SettingsTable): (r: bool)
    reads t
  {
    GetBool(t, AlwaysAskRestoreKey, true)
  }

  method SetAlwaysAskRestore(t: SettingsTable, value: bool)
    modifies t
    ensures t.values == old(t.values)[AlwaysAskRestoreKey := BoolText(value)]
    ensures GetAlwaysAskRestore(t) == value
  {
    SetBool(t, AlwaysAskRestoreKey, value);
  }

  function GetLastRestorePath(t: SettingsTable): (r: string)
    reads t
  {
    GetString(t, LastRestorePathKey, "")
  }

  method SetLastRestorePath(t: SettingsTable, path: string)
    modifies t
    ensures t.values == old(t.values)[LastRestorePathKey := path]
    ensures GetLastRestorePath(t) == path
  {
    SetString(t, LastRestorePathKey, path);
  }

  // ---------------------------------------------------------------------
  // properties
  // ---------------------------------------------------------------------

  /** A word is recognised whatever its letter case. */
  lemma BoolWordsIgnoreCase(s: string, default: bool)
    ensures ToLower(s) in TrueWords ==> ParseBool(Some(s), default)
    ensures ToLower(s) in FalseWords ==> !ParseBool(Some(s), default)
  {
    if ToLower(s) in TrueWords + FalseWords {
      assert s != "" by { assert |ToLower(s)| == |s|; }
    }
  }

  /** `setBool` writes a word `getBool` reads back, whatever the default. */
  lemma BoolRoundTrip(b: bool, default: bool)
    ensures ParseBool(Some(BoolText(b)), default) == b
  {
    assert ToLower(BoolText(b)) == BoolText(b);
  }

  /** The theme read back is one of the three names, and the stored name when it is one. */
  lemma ThemeIsValid(value: Option<string>)
    ensures ThemeName(ParseTheme(value)) in {"system", "light", "dark"}
    ensures value.Some? && value.value in {"system", "light", "dark"} ==> ThemeName(ParseTheme(value)) == value.value
  {
  }

  lemma ThemeRoundTrip(t: UiTheme)
    ensures ParseTheme(Some(ThemeName(t))) == t
  {
  }

  /** A stored empty string is a value, not a missing one. */
  lemma EmptyStringKept(default: string)
    ensures ParseString(Some(""), default) == ""
    ensures ParseBool(Some(""), true) && !ParseBool(Some(""), false)
  {
  }

  /** On a fresh table the prompts default to on and the paths to empty. */
  lemma Defaults(t: SettingsTable)
    requires t.values == map[]
    ensures GetAlwaysAskBackup(t) && GetAlwaysAskRestore(t)
    ensures GetLastBackupPath(t) == "" && GetLastRestorePath(t) == ""
    ensures GetUiTheme(t) == System
  {
  }
}
