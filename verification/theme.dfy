/** The theme controller (src/hooks/useTheme.ts): the chosen theme, the resolved dark flag, the
    document's `dark` class and the stored preference. The system colour-scheme preference is a
    parameter read whenever the theme effect runs. */
module Theme {
  import opened Wrappers
  import opened Text
  import opened Domain
  import opened Storage
  import opened Session

  const SystemTheme: string := "system"
  const DarkTheme: string := "dark"

  /** The lazy initial state: the stored theme when truthy, otherwise "system". */
  function InitialTheme(saved: Option<string>): (t: string)
    ensures t != ""
    ensures IsTruthy(saved) ==> t == saved.value
    ensures !IsTruthy(saved) ==> t == SystemTheme
  {
    if IsTruthy(saved) then saved.value else SystemTheme
  }

  /** Whether the page is dark under `theme`. */
  function ResolveDark(theme: string, systemDark: bool): (dark: bool)
    ensures theme == SystemTheme ==> dark == systemDark
    ensures theme != SystemTheme ==> (dark <==> theme == DarkTheme)
  {
    if theme == SystemTheme then systemDark else theme == DarkTheme
  }

  class ThemeController {
    var theme: string
    var isDark: bool
    /** Whether the document element carries the `dark` class. */
    var darkClass: bool
    const storage: LocalStorage

    /** What holds after every run of the effect. */
    predicate Settled(systemDark: bool)
      reads this, storage
    {
      && isDark == ResolveDark(theme, systemDark)
      && darkClass == isDark
      && Lookup(storage.entries, ThemeKey) == Some(theme)
    }

    /** Mounting: the initial theme from storage, then the effect's first run. */
    constructor (storage: LocalStorage, systemDark: bool)
      modifies storage
      ensures this.storage == storage
      ensures theme == InitialTheme(Lookup(old(storage.entries), ThemeKey))
      ensures Settled(systemDark)
      ensures storage.entries == old(storage.entries)[ThemeKey := theme]
    {
      theme := InitialTheme(Lookup(storage.entries, ThemeKey));
      isDark := false;
      darkClass := false;
      this.storage := storage;
      new;
      Apply(systemDark);
    }

    /** The effect on `[theme]`: resolve, toggle the class, persist. */
    method Apply(systemDark: bool)
      modifies this, storage
      ensures theme == old(theme)
      ensures Settled(systemDark)
      ensures storage.entries == old(storage.entries)[ThemeKey := theme]
    {
      var dark := if theme == SystemTheme then systemDark else theme == DarkTheme;
      isDark := dark;
      darkClass := dark;
      storage.SetItem(ThemeKey, theme);
    }

    /** `setTheme`: React skips the effect when the value does not change. */
    method SetTheme(t: string, systemDark: bool)
      modifies this, storage
      ensures theme == t
      ensures t != old(theme) ==> Settled(systemDark) && storage.entries == old(storage.entries)[ThemeKey := t]
      ensures t == old(theme) ==>
        && isDark == old(isDark) && darkClass == old(darkClass)
        && storage.entries == old(storage.entries)
    {
      if t != theme {
        theme := t;
        Apply(systemDark);
      }
    }
  }

  /** A chosen theme comes back on the next start, unless it was the empty string, which is
      falsy and reads back as "system". */
  method ChoiceSurvivesRestart(entries: map<string, string>, t: string, systemDark: bool, laterSystemDark: bool)
    returns (restored: string, dark: bool)
    ensures restored == if t == "" then SystemTheme else t
    ensures dark == ResolveDark(restored, laterSystemDark)
  {
    var storage := new LocalStorage(entries);
    var first := new ThemeController(storage, systemDark);
    first.SetTheme(t, systemDark);
    var second := new ThemeController(storage, laterSystemDark);
    restored, dark := second.theme, second.isDark;
  }

  /** Signing out does not reset the theme: the next start shows the same one. */
  method ThemeSurvivesSignOut(entries: map<string, string>, email: string, password: string,
                              response: AuthResponse, systemDark: bool)
    returns (before: string, after: string)
    ensures before == after
  {
    var storage := new LocalStorage(entries);
    var controller := new ThemeController(storage, systemDark);
    before := controller.theme;
    var session := new SessionStore(storage);
    var _ := session.Login(email, password, Ok(response));
    session.SignOut(Ok(()));
    var next := new ThemeController(storage, systemDark);
    after := next.theme;
  }
}
