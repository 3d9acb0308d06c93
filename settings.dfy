/**
 * `SettingsStore`: the theme and the set of blocked folders, kept in a
 * preferences store under the keys `theme` (a string) and `blocked_folders`
 * (a string set). Reads are maps over the stored preferences; the three
 * editing operations assign one key in place.
 */
module Settings {
  import opened Wrappers

  /** `ThemeConfig`. */
  datatype ThemeConfig = Light | Dark | System

  const ThemeKey: string := "theme"
  const BlockedFoldersKey: string := "blocked_folders"

  /** The enum constant's `name`. */
  function ThemeName(t: ThemeConfig): string {
    match t
    case Light => "LIGHT"
    case Dark => "DARK"
    case System => "SYSTEM"
  }

  /** `ThemeConfig.valueOf`: the constant with exactly this name; any other name throws. */
  function ThemeValueOf(name: string): (r: Result<ThemeConfig>)
    ensures r.Ok? <==> name == "LIGHT" || name == "DARK" || name == "SYSTEM"
    ensures r.Ok? ==> ThemeName(r.value) == name
  {
    if name == "LIGHT" then Ok(Light)
    else if name == "DARK" then Ok(Dark)
    else if name == "SYSTEM" then Ok(System)
    else Err("No enum constant ThemeConfig." + name)
  }

  /** `valueOf` reads back every name `name` writes. */
  lemma ThemeNameRoundTrip(t: ThemeConfig)
    ensures ThemeValueOf(ThemeName(t)) == Ok(t)
  {
  }

  /** The stored preferences: the string-valued keys and the string-set-valued keys. */
  datatype Preferences = Preferences(strings: map<string, string>, stringSets: map<string, set<string>>)

  const NoPreferences: Preferences := Preferences(map[], map[])

  /** `themeFlow`: the stored name, `SYSTEM` when there is none, converted by `valueOf`. */
  function ThemeOf(p: Preferences): (r: Result<ThemeConfig>)
    ensures ThemeKey !in p.strings ==> r == Ok(System)
    ensures ThemeKey in p.strings ==> (r.Ok? <==> p.strings[ThemeKey] in {"LIGHT", "DARK", "SYSTEM"})
    ensures r.Ok? ==> ThemeKey !in p.strings || p.strings[ThemeKey] == ThemeName(r.value)
  {
    ThemeValueOf(if ThemeKey in p.strings then p.strings[ThemeKey] else ThemeName(System))
  }

  /** `blockedFoldersFlow`: the stored set, empty when there is none. */
  function BlockedFoldersOf(p: Preferences): (r: set<string>)
    ensures BlockedFoldersKey !in p.stringSets ==> r == {}
    ensures BlockedFoldersKey in p.stringSets ==> r == p.stringSets[BlockedFoldersKey]
  {
    if BlockedFoldersKey in p.stringSets then p.stringSets[BlockedFoldersKey] else {}
  }

  /** The edit `setTheme` makes: the theme reads back as `t`, and nothing else changes. */
  function WithTheme(p: Preferences, t: ThemeConfig): (q: Preferences)
    ensures ThemeOf(q) == Ok(t)
    ensures q.stringSets == p.stringSets && BlockedFoldersOf(q) == BlockedFoldersOf(p)
    ensures forall k :: k != ThemeKey ==> (k in q.strings <==> k in p.strings)
    ensures forall k :: k != ThemeKey && k in p.strings ==> q.strings[k] == p.strings[k]
  {
    p.(strings := p.strings[ThemeKey := ThemeName(t)])
  }

  /** The edit `addBlockedFolder` makes: the stored set becomes the union with `{path}`. */
  function WithFolderAdded(p: Preferences, path: string): (q: Preferences)
    ensures BlockedFoldersOf(q) == BlockedFoldersOf(p) + {path}
    ensures path in BlockedFoldersOf(q)
    ensures q.strings == p.strings && ThemeOf(q) == ThemeOf(p)
    ensures forall k :: k != BlockedFoldersKey ==> (k in q.stringSets <==> k in p.stringSets)
    ensures forall k :: k != BlockedFoldersKey && k in p.stringSets ==> q.stringSets[k] == p.stringSets[k]
  {
    p.(stringSets := p.stringSets[BlockedFoldersKey := BlockedFoldersOf(p) + {path}])
  }

  /** The edit `removeBlockedFolder` makes: the stored set becomes the difference with `{path}`. */
  function WithFolderRemoved(p: Preferences, path: string): (q: Preferences)
    ensures BlockedFoldersOf(q) == BlockedFoldersOf(p) - {path}
    ensures path !in BlockedFoldersOf(q)
    ensures q.strings == p.strings && ThemeOf(q) == ThemeOf(p)
    ensures forall k :: k != BlockedFoldersKey ==> (k in q.stringSets <==> k in p.stringSets)
    ensures forall k :: k != BlockedFoldersKey && k in p.stringSets ==> q.stringSets[k] == p.stringSets[k]
  {
    p.(stringSets := p.stringSets[BlockedFoldersKey := BlockedFoldersOf(p) - {path}])
  }

  /** With nothing stored the theme follows the system and nothing is blocked. */
  lemma DefaultSettings()
    ensures ThemeOf(NoPreferences) == Ok(System)
    ensures BlockedFoldersOf(NoPreferences) == {}
  {
  }

  /** Every theme written is read back, whatever was stored before, even a name that failed to read. */
  lemma ThemeRoundTrip(p: Preferences, t: ThemeConfig, u: ThemeConfig)
    ensures ThemeOf(WithTheme(p, t)) == Ok(t)
    ensures WithTheme(WithTheme(p, u), t) == WithTheme(p, t)
  {
  }

  /** A stored name other than the three constants' names makes the read fail. */
  lemma UnknownThemeFails(p: Preferences, name: string)
    requires name != "LIGHT" && name != "DARK" && name != "SYSTEM"
    ensures ThemeOf(p.(strings := p.strings[ThemeKey := name])).Err?
  {
  }

  /** Adding a folder twice is adding it once. */
  lemma AddIdempotent(p: Preferences, path: string)
    ensures WithFolderAdded(WithFolderAdded(p, path), path) == WithFolderAdded(p, path)
  {
    var once := BlockedFoldersOf(p) + {path};
    assert once + {path} == once;
  }

  /**
   * Removing a folder that is not blocked leaves the blocked set as it was;
   * when the set is stored, the preferences are left exactly as they were.
   */
  lemma RemoveAbsentChangesNothing(p: Preferences, path: string)
    requires path !in BlockedFoldersOf(p)
    ensures BlockedFoldersOf(WithFolderRemoved(p, path)) == BlockedFoldersOf(p)
    ensures BlockedFoldersKey in p.stringSets ==> WithFolderRemoved(p, path) == p
  {
    var s := BlockedFoldersOf(p);
    assert s - {path} == s;
  }

  /** Removing a folder undoes adding it, when it was not blocked before. */
  lemma RemoveUndoesAdd(p: Preferences, path: string)
    requires path !in BlockedFoldersOf(p)
    ensures BlockedFoldersOf(WithFolderRemoved(WithFolderAdded(p, path), path)) == BlockedFoldersOf(p)
  {
    var s := BlockedFoldersOf(p);
    assert (s + {path}) - {path} == s;
  }

  /** Edits of different folders commute. */
  lemma FolderEditsCommute(p: Preferences, a: string, b: string)
    requires a != b
    ensures BlockedFoldersOf(WithFolderRemoved(WithFolderAdded(p, a), b)) ==
            BlockedFoldersOf(WithFolderAdded(WithFolderRemoved(p, b), a))
  {
    var s := BlockedFoldersOf(p);
    assert (s + {a}) - {b} == (s - {b}) + {a};
  }

  /** The settings store: the preferences the `edit` blocks update in place. */
  class SettingsStore {
    var preferences: Preferences

    constructor (stored: Preferences)
      ensures preferences == stored
    {
      preferences := stored;
    }

    /** `themeFlow`'s current value. */
    function Theme(): Result<ThemeConfig>
      reads this
    {
      ThemeOf(preferences)
    }

    /** `blockedFoldersFlow`'s current value. */
    function BlockedFolders(): set<string>
      reads this
    {
      BlockedFoldersOf(preferences)
    }

    /** `setTheme`: the theme key is assigned the constant's name. */
    method SetTheme(theme: ThemeConfig)
      modifies this
      ensures preferences == WithTheme(old(preferences), theme)
      ensures Theme() == Ok(theme) && BlockedFolders() == old(BlockedFolders())
    {
      var strings := preferences.strings;
      strings := strings[ThemeKey := ThemeName(theme)];
      preferences := preferences.(strings := strings);
    }

    /** `addBlockedFolder`: the stored set, or the empty set, plus the path. */
    method AddBlockedFolder(path: string)
      modifies this
      ensures preferences == WithFolderAdded(old(preferences), path)
      ensures BlockedFolders() == old(BlockedFolders()) + {path} && Theme() == old(Theme())
    {
      var current := if BlockedFoldersKey in preferences.stringSets then preferences.stringSets[BlockedFoldersKey] else {};
      preferences := preferences.(stringSets := preferences.stringSets[BlockedFoldersKey := current + {path}]);
    }

    /** `removeBlockedFolder`: the stored set, or the empty set, minus the path. */
    method RemoveBlockedFolder(path: string)
      modifies this
      ensures preferences == WithFolderRemoved(old(preferences), path)
      ensures BlockedFolders() == old(BlockedFolders()) - {path} && Theme() == old(Theme())
    {
      var current := if BlockedFoldersKey in preferences.stringSets then preferences.stringSets[BlockedFoldersKey] else {};
      preferences := preferences.(stringSets := preferences.stringSets[BlockedFoldersKey := current - {path}]);
    }
  }
}
