/**
 * The theme store: a light/dark theme name held by the provider, a copy
 * persisted under `app-theme-preference`, and the `dark` class on the
 * document's root element.
 */
module Theme {

  import opened Wrappers

  datatype ThemeName = Light | Dark

  /** A theme object; only its `name` field is modelled, not its style tokens. */
  datatype AppTheme = AppTheme(name: ThemeName)

  const LightTheme: AppTheme := AppTheme(Light)
  const DarkTheme: AppTheme := AppTheme(Dark)

  /** The key under which the preference is persisted. */
  const PreferenceKey: string := "app-theme-preference"

  /** The toggle updater: light becomes dark and anything else becomes light. */
  function Flip(t: ThemeName): (r: ThemeName)
    ensures r != t
  {
    if t == Light then Dark else Light
  }

  /** Toggling twice restores the original theme. */
  lemma FlipTwice(t: ThemeName)
    ensures Flip(Flip(t)) == t
  {
  }

  /** The `activeTheme` selection. */
  function ActiveTheme(t: ThemeName): (theme: AppTheme)
    ensures theme == LightTheme <==> t == Light
    ensures theme.name == t
  {
    match t
    case Light => LightTheme
    case Dark => assert DarkTheme.name == Dark; DarkTheme
  }

  /** The capitalised name used in user-facing messages. */
  function Label(t: ThemeName): string {
    if t == Light then "Light" else "Dark"
  }

  /**
   * The theme provider. Its state is the current theme name; the
   * persisted preference and the root element's `dark` class are plain
   * fields standing for browser storage and the document.
   */
  class ThemeProvider {
    var currentThemeName: ThemeName
    /** The site's local storage, restricted to theme names; the preference lives under `PreferenceKey`. */
    var storage: map<string, ThemeName>
    /** Whether the document's root element carries the `dark` class. */
    var hasDarkClass: bool

    /** Storage and the document reflect the current theme. */
    ghost predicate Valid()
      reads this
    {
      PreferenceKey in storage && storage[PreferenceKey] == currentThemeName && hasDarkClass == (currentThemeName == Dark)
    }

    /**
     * Mounting the provider: the state starts as `Light`; the persistence
     * effect runs for it, and a saved preference, when there is one, then
     * replaces it and is persisted in turn.
     */
    constructor Mount(saved: map<string, ThemeName>, darkClass: bool)
      ensures Valid()
      ensures currentThemeName == (if PreferenceKey in saved then saved[PreferenceKey] else Light)
      ensures storage == saved[PreferenceKey := currentThemeName]
    {
      currentThemeName := Light;
      storage := saved;
      hasDarkClass := darkClass;
      new;
      var savedTheme := if PreferenceKey in storage then Some(storage[PreferenceKey]) else None;
      Persist();
      if savedTheme.Some? {
        currentThemeName := savedTheme.value;
        Persist();
      }
    }

    /** The persistence effect: store the name and set or remove the `dark` class. */
    method Persist()
      modifies this
      ensures Valid()
      ensures currentThemeName == old(currentThemeName)
      ensures storage == old(storage)[PreferenceKey := currentThemeName]
    {
      storage := storage[PreferenceKey := currentThemeName];
      if currentThemeName == Dark {
        hasDarkClass := true;
      } else {
        hasDarkClass := false;
      }
    }

    /** `toggleTheme`, followed by the persistence effect for the new name. */
    method ToggleTheme()
      requires Valid()
      modifies this
      ensures Valid()
      ensures currentThemeName == Flip(old(currentThemeName))
      ensures storage == old(storage)[PreferenceKey := currentThemeName]
    {
      currentThemeName := Flip(currentThemeName);
      Persist();
    }

    /** The theme object the provider hands to its consumers. */
    function Theme(): (theme: AppTheme)
      reads this
      ensures theme.name == currentThemeName
    {
      ActiveTheme(currentThemeName)
    }
  }
}
