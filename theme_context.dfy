/** The theme provider: the theme chosen on mount from the saved preference
    and the system setting, the dark-mode toggle, and the effect that puts
    the theme's class on the document root and saves the theme. The saved
    value is cast to a theme without being checked, so a theme is any string
    here. */
module ThemeContext {
  import opened Common

  const StorageKey := "bloodmatch-theme"

  /** The classes the provider manages on the root element. */
  const ThemeClasses: set<string> := {"dark", "emergency", "healthcare"}

  /** The theme after mount: a saved non-empty value wins, then a dark
      system preference, then light. */
  function InitialTheme(saved: Option<string>, prefersDark: bool): (t: string)
    ensures saved.Some? && saved.value != "" ==> t == saved.value
    ensures (saved.None? || saved.value == "") && prefersDark ==> t == "dark"
    ensures (saved.None? || saved.value == "") && !prefersDark ==> t == "light"
  {
    if saved.Some? && saved.value != "" then saved.value
    else if prefersDark then "dark"
    else "light"
  }

  /** `toggleDarkMode`'s choice: dark goes to light, everything else to dark. */
  function NextTheme(theme: string): (t: string)
    ensures t == "dark" <==> theme != "dark"
    ensures t == "light" <==> theme == "dark"
  {
    if theme == "dark" then "light" else "dark"
  }

  /** Toggling twice returns to dark or light, but the emergency and
      healthcare themes are not restored. */
  lemma ToggleTwice(theme: string)
    ensures theme in {"dark", "light"} ==> NextTheme(NextTheme(theme)) == theme
    ensures theme !in {"dark", "light"} ==> NextTheme(NextTheme(theme)) == "light"
  {
  }

  predicate IsDarkMode(theme: string) {
    theme == "dark"
  }

  /** The root's classes after the effect: the three theme classes removed,
      then the theme's own one added if it is one of them. */
  function AppliedClasses(classes: set<string>, theme: string): (r: set<string>)
    ensures r * ThemeClasses == (if theme in ThemeClasses then {theme} else {})
    ensures r - ThemeClasses == classes - ThemeClasses
  {
    var cleared := classes - ThemeClasses;
    if theme == "dark" then cleared + {"dark"}
    else if theme == "emergency" then cleared + {"emergency"}
    else if theme == "healthcare" then cleared + {"healthcare"}
    else cleared
  }

  /** The root has the dark class exactly in dark mode. */
  lemma DarkClassIffDarkMode(classes: set<string>, theme: string)
    ensures "dark" in AppliedClasses(classes, theme) <==> IsDarkMode(theme)
  {
  }

  /** Running the effect again changes nothing. */
  lemma ApplyIdempotent(classes: set<string>, theme: string)
    ensures AppliedClasses(AppliedClasses(classes, theme), theme) == AppliedClasses(classes, theme)
  {
  }

  class ThemeProvider {
    var theme: string
    /** The class list of the document root. */
    var rootClasses: set<string>
    /** Local storage. */
    var storage: map<string, string>

    /** Mounting: the state starts at light, the first effect chooses the
        initial theme, and the class effect runs for it. */
    constructor (saved: Option<string>, prefersDark: bool, classes: set<string>, storage: map<string, string>)
      ensures theme == InitialTheme(saved, prefersDark)
      ensures rootClasses == AppliedClasses(classes, theme)
      ensures this.storage == storage[StorageKey := theme]
    {
      theme := InitialTheme(saved, prefersDark);
      rootClasses := AppliedClasses(classes, InitialTheme(saved, prefersDark));
      this.storage := storage[StorageKey := InitialTheme(saved, prefersDark)];
    }

    /** The class effect, run whenever the theme changes. */
    method ApplyTheme()
      modifies this
      ensures theme == old(theme)
      ensures rootClasses == AppliedClasses(old(rootClasses), theme)
      ensures rootClasses * ThemeClasses == (if theme in ThemeClasses then {theme} else {})
      ensures rootClasses - ThemeClasses == old(rootClasses) - ThemeClasses
      ensures storage == old(storage)[StorageKey := theme]
    {
      rootClasses := AppliedClasses(rootClasses, theme);
      storage := storage[StorageKey := theme];
    }

    /** `setTheme`: a new value re-renders and runs the class effect. */
    method SetTheme(t: string)
      modifies this
      ensures theme == t
      ensures t != old(theme) ==>
        rootClasses == AppliedClasses(old(rootClasses), t) && storage == old(storage)[StorageKey := t]
      ensures t == old(theme) ==> rootClasses == old(rootClasses) && storage == old(storage)
    {
      if t != theme {
        theme := t;
        ApplyTheme();
      }
    }

    /** `toggleDarkMode`: always changes the theme, so the effect runs. */
    method ToggleDarkMode()
      modifies this
      ensures theme == NextTheme(old(theme))
      ensures IsDarkMode(theme) <==> !IsDarkMode(old(theme))
      ensures rootClasses == AppliedClasses(old(rootClasses), theme)
      ensures storage == old(storage)[StorageKey := theme]
    {
      SetTheme(NextTheme(theme));
    }
  }

  /** An unrecognised saved value is taken as the theme: no theme class is
      applied, dark mode is off, and it is written back as it was. */
  method UnknownSavedTheme() returns (theme: string, classes: set<string>, stored: string)
    ensures theme == "purple" && classes * ThemeClasses == {} && !IsDarkMode(theme) && stored == "purple"
  {
    var p := new ThemeProvider(Some("purple"), true, {"dark"}, map[]);
    theme := p.theme;
    classes := p.rootClasses;
    stored := p.storage[StorageKey];
  }
}
