/**
  The theme hook: the chosen setting ("light", "dark" or "system"), the
  theme actually shown, the root element's class list as a set and the local
  storage as a map. The operating system's preference (`matchMedia`) is the
  parameter `prefersDark`. A stored value is read without checking it is a
  setting (`getItem('theme') as Theme` is an unchecked cast), so settings are
  plain strings here.
 */
module UseTheme {

  const Light := "light"
  const Dark := "dark"
  const System := "system"
  const ThemeKey := "theme"

  /** The theme the operating system asks for. */
  function SystemTheme(prefersDark: bool): (t: string)
    ensures t == Light || t == Dark
    ensures t == Dark <==> prefersDark
  {
    if prefersDark then Dark else Light
  }

  /** The theme shown for a setting: the system's for "system", the setting itself otherwise. */
  function Resolve(setting: string, prefersDark: bool): (t: string)
    ensures setting == System ==> t == SystemTheme(prefersDark)
    ensures setting != System ==> t == setting
  {
    if setting == System then SystemTheme(prefersDark) else setting
  }

  /** The setting `toggleTheme` moves to. */
  function NextTheme(setting: string): (n: string)
    ensures n == Light || n == Dark
    ensures n == Dark <==> setting == Light
  {
    if setting == System then Light
    else if setting == Light then Dark
    else Light
  }

  /** Toggling never selects "system", always changes the setting, and alternates after the first toggle. */
  lemma ToggleProperties(setting: string)
    ensures NextTheme(setting) != System
    ensures NextTheme(setting) != setting
    ensures NextTheme(NextTheme(Light)) == Light
    ensures NextTheme(NextTheme(NextTheme(setting))) == NextTheme(setting)
  {
  }

  /** A toggled setting is shown as itself whatever the system prefers. */
  lemma ToggledIsShownAsIs(setting: string, prefersDark: bool)
    ensures Resolve(NextTheme(setting), prefersDark) == NextTheme(setting)
  {
  }

  /** `classList.remove('light', 'dark')` followed by `classList.add(t)`. */
  function WithThemeClass(classes: set<string>, t: string): (r: set<string>)
    ensures t in r
    ensures forall c :: c in r <==> c == t || (c in classes && c != Light && c != Dark)
  {
    (classes - {Light, Dark}) + {t}
  }

  /** After applying light or dark, exactly that one of the two is a class of the root. */
  lemma ExactlyOneThemeClass(classes: set<string>, t: string)
    requires t == Light || t == Dark
    ensures Light in WithThemeClass(classes, t) <==> t == Light
    ensures Dark in WithThemeClass(classes, t) <==> t == Dark
  {
  }

  /** `localStorage.getItem('theme') || 'system'`: a missing or empty entry means "system". */
  function StoredTheme(storage: map<string, string>): (t: string)
    ensures ThemeKey !in storage ==> t == System
    ensures ThemeKey in storage && storage[ThemeKey] != "" ==> t == storage[ThemeKey]
    ensures t != ""
  {
    if ThemeKey in storage && storage[ThemeKey] != "" then storage[ThemeKey] else System
  }

  /** What `updateTheme` stores is what the next mount reads back. */
  lemma StoredSettingReadBack(storage: map<string, string>, setting: string)
    requires setting != ""
    ensures StoredTheme(storage[ThemeKey := setting]) == setting
  {
  }

  /** A stored value that is no setting is taken as it is and shown as a class of its own. */
  lemma UncheckedStoredValue(storage: map<string, string>, classes: set<string>, prefersDark: bool)
    requires ThemeKey in storage
    requires storage[ThemeKey] != "" && storage[ThemeKey] != Light
    requires storage[ThemeKey] != Dark && storage[ThemeKey] != System
    ensures StoredTheme(storage) == storage[ThemeKey]
    ensures Resolve(StoredTheme(storage), prefersDark) == storage[ThemeKey]
    ensures storage[ThemeKey] in WithThemeClass(classes, Resolve(StoredTheme(storage), prefersDark))
    ensures Light !in WithThemeClass(classes, Resolve(StoredTheme(storage), prefersDark))
    ensures Dark !in WithThemeClass(classes, Resolve(StoredTheme(storage), prefersDark))
  {
  }

  class ThemeHook {
    var theme: string
    var resolvedTheme: string
    var mounted: bool
    var classList: set<string>
    var storage: map<string, string>

    /** The shown theme is a class of the root and neither other theme class is. */
    predicate Applied()
      reads this
    {
      resolvedTheme in classList
      && (Light in classList ==> resolvedTheme == Light)
      && (Dark in classList ==> resolvedTheme == Dark)
    }

    /** The hook's initial state, over the document's classes and the browser's storage. */
    constructor(classes: set<string>, stored: map<string, string>)
      ensures theme == System && resolvedTheme == Light && !mounted
      ensures classList == classes && storage == stored
    {
      theme := System;
      resolvedTheme := Light;
      mounted := false;
      classList := classes;
      storage := stored;
    }

    method ApplyTheme(t: string)
      modifies this
      ensures classList == WithThemeClass(old(classList), t) && resolvedTheme == t
      ensures theme == old(theme) && mounted == old(mounted) && storage == old(storage)
      ensures Applied()
    {
      classList := WithThemeClass(classList, t);
      resolvedTheme := t;
    }

    method UpdateTheme(setting: string, prefersDark: bool)
      modifies this
      ensures theme == setting && storage == old(storage)[ThemeKey := setting]
      ensures resolvedTheme == Resolve(setting, prefersDark)
      ensures classList == WithThemeClass(old(classList), resolvedTheme)
      ensures mounted == old(mounted)
      ensures Applied()
    {
      theme := setting;
      storage := storage[ThemeKey := setting];
      if setting == System {
        ApplyTheme(SystemTheme(prefersDark));
      } else {
        ApplyTheme(setting);
      }
    }

    method ToggleTheme(prefersDark: bool)
      modifies this
      ensures theme == NextTheme(old(theme)) && theme != System
      ensures storage == old(storage)[ThemeKey := theme]
      ensures resolvedTheme == theme
      ensures classList == WithThemeClass(old(classList), theme)
      ensures mounted == old(mounted)
      ensures Applied()
    {
      if theme == System {
        UpdateTheme(Light, prefersDark);
      } else if theme == Light {
        UpdateTheme(Dark, prefersDark);
      } else {
        UpdateTheme(Light, prefersDark);
      }
    }

    /** The mount effect: read the stored setting, show it and adopt it. */
    method Mount(prefersDark: bool)
      modifies this
      ensures mounted && theme == StoredTheme(old(storage)) && storage == old(storage)
      ensures resolvedTheme == Resolve(theme, prefersDark)
      ensures classList == WithThemeClass(old(classList), resolvedTheme)
      ensures Applied()
    {
      mounted := true;
      var stored := StoredTheme(storage);
      if stored == System {
        ApplyTheme(SystemTheme(prefersDark));
      } else {
        ApplyTheme(stored);
      }
      theme := stored;
    }

    /** The listener for a change of the system preference: only the "system" setting follows it. */
    method OnSystemThemeChange(prefersDark: bool)
      modifies this
      ensures old(theme) == System ==>
        resolvedTheme == SystemTheme(prefersDark) && classList == WithThemeClass(old(classList), resolvedTheme)
      ensures old(theme) != System ==> resolvedTheme == old(resolvedTheme) && classList == old(classList)
      ensures theme == old(theme) && storage == old(storage) && mounted == old(mounted)
    {
      if theme == System {
        ApplyTheme(SystemTheme(prefersDark));
      }
    }
  }

  /** The effect re-run that follows a change of setting keeps the setting and what is shown. */
  method UpdateThenRemount(h: ThemeHook, setting: string, prefersDark: bool)
    requires setting != ""
    modifies h
    ensures h.theme == setting && h.resolvedTheme == Resolve(setting, prefersDark)
    ensures h.classList == WithThemeClass(old(h.classList), h.resolvedTheme)
    ensures h.mounted && h.Applied()
  {
    h.UpdateTheme(setting, prefersDark);
    StoredSettingReadBack(old(h.storage), setting);
    h.Mount(prefersDark);
  }
}
