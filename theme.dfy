/**
 * The theme preference: light, dark or following the device, persisted in the
 * device's key-value store and restored at start-up.
 */
module Theme {
  import opened Wrappers

  datatype Preference = Light | Dark | System

  /** An applied colour scheme. */
  datatype Scheme = LightScheme | DarkScheme

  /** The key the preference is stored under. */
  const StorageKey: string := "mealpins.theme"

  /** How a preference is stored. */
  function PreferenceName(p: Preference): string {
    match p
    case Light => "light"
    case Dark => "dark"
    case System => "system"
  }

  /** The stored values start-up adopts: exactly "light", "dark" or "system". */
  function ParsePreference(s: string): (r: Option<Preference>)
    ensures r.Some? ==> PreferenceName(r.value) == s
    ensures r.None? ==> s != "light" && s != "dark" && s != "system"
  {
    if s == "light" then Some(Light)
    else if s == "dark" then Some(Dark)
    else if s == "system" then Some(System)
    else None
  }

  /** A stored preference reads back as itself. */
  lemma ParsePreferenceName(p: Preference)
    ensures ParsePreference(PreferenceName(p)) == Some(p)
  {
    match p
    case Light =>
    case Dark => assert "dark" != "light";
    case System => assert "system" != "light" && "system" != "dark";
  }

  /** The scheme a setting shows: a fixed setting shows itself, `System` follows the
      device, and an unknown device scheme shows light. */
  function SchemeShown(setting: Preference, device: Option<Scheme>): (s: Option<Scheme>)
    ensures setting == Light ==> s == Some(LightScheme)
    ensures setting == Dark ==> s == Some(DarkScheme)
    ensures setting == System ==> s == device
  {
    match setting
    case Light => Some(LightScheme)
    case Dark => Some(DarkScheme)
    case System => device
  }

  /** The device's asynchronous key-value store. */
  class KeyValueStore {
    var entries: map<string, string>

    constructor (entries: map<string, string>)
      ensures this.entries == entries
    {
      this.entries := entries;
    }

    /** `getItem`: the stored value or none; a failed read is an error. */
    method GetItem(key: string, ok: bool) returns (r: Result<Option<string>, ()>)
      ensures !ok ==> r.Err?
      ensures ok ==> r.Ok? && (r.value.Some? <==> key in entries)
      ensures ok && key in entries ==> r.value == Some(entries[key])
    {
      if !ok { return Err(()); }
      r := Ok(if key in entries then Some(entries[key]) else None);
    }

    /** `setItem`: the key takes the value; a failed write changes nothing. */
    method SetItem(key: string, value: string, ok: bool)
      modifies this
      ensures ok ==> entries == old(entries)[key := value]
      ensures !ok ==> entries == old(entries)
    {
      if ok {
        entries := entries[key := value];
      }
    }
  }

  class ThemeProvider {
    const store: KeyValueStore
    var theme: Preference
    /** The setting handed to the styling library, which decides the shown scheme. */
    var colorSetting: Preference
    var hydrated: bool

    constructor (store: KeyValueStore)
      ensures this.store == store && theme == System && colorSetting == System && !hydrated
    {
      this.store := store;
      theme := System;
      colorSetting := System;
      hydrated := false;
    }

    /** `loadTheme`: a stored preference is adopted and applied; anything else, a failed
        read included, leaves the theme as it was. Hydration ends either way. */
    method LoadTheme(readOk: bool)
      modifies this
      ensures hydrated
      ensures readOk && StorageKey in store.entries && ParsePreference(store.entries[StorageKey]).Some? ==>
                theme == ParsePreference(store.entries[StorageKey]).value && colorSetting == theme
      ensures !(readOk && StorageKey in store.entries && ParsePreference(store.entries[StorageKey]).Some?) ==>
                theme == old(theme) && colorSetting == old(colorSetting)
    {
      var saved := store.GetItem(StorageKey, readOk);
      if saved.Ok? && saved.value.Some? {
        var parsed := ParsePreference(saved.value.value);
        if parsed.Some? {
          theme := parsed.value;
          colorSetting := parsed.value;
        }
      }
      hydrated := true;
    }

    /** `setTheme`: the preference is taken and applied at once, then stored; a failed
        write leaves the store as it was. */
    method SetTheme(next: Preference, writeOk: bool)
      modifies this, store
      ensures theme == next && colorSetting == next && hydrated == old(hydrated)
      ensures writeOk ==> store.entries == old(store.entries)[StorageKey := PreferenceName(next)]
      ensures !writeOk ==> store.entries == old(store.entries)
    {
      theme := next;
      colorSetting := next;
      store.SetItem(StorageKey, PreferenceName(next), writeOk);
    }

    /** `resolvedScheme`: dark exactly when the shown scheme is dark, light otherwise. */
    function ResolvedScheme(device: Option<Scheme>): (s: Scheme)
      reads this
      ensures s == DarkScheme <==> SchemeShown(colorSetting, device) == Some(DarkScheme)
    {
      if SchemeShown(colorSetting, device) == Some(DarkScheme) then DarkScheme else LightScheme
    }
  }

  /** A preference that was stored is the one the next start-up restores. */
  method ThemeSurvivesRestart(store: KeyValueStore, next: Preference) returns (restarted: ThemeProvider)
    modifies store
    ensures restarted.store == store && restarted.hydrated
    ensures restarted.theme == next && restarted.colorSetting == next
    ensures store.entries == old(store.entries)[StorageKey := PreferenceName(next)]
  {
    var running := new ThemeProvider(store);
    running.SetTheme(next, true);
    restarted := new ThemeProvider(store);
    ParsePreferenceName(next);
    restarted.LoadTheme(true);
  }
}
