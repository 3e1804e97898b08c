/** The theme button: on mount it resolves the theme from the stored
    preference or the system preference, and each press flips the theme,
    stores it and puts exactly one of the classes "dark" and "light" on both
    the root and the body element. */
module ThemeToggle {
  import opened Common
  import Dom

  const ThemeKey := "theme"
  const DarkClass := "dark"
  const LightClass := "light"

  /** `localStorage.getItem('theme')`. */
  function SavedTheme(storage: map<string, string>): Option<string> {
    if ThemeKey in storage then Some(storage[ThemeKey]) else None
  }

  /** A non-empty stored value decides, and only "dark" means dark; with
      nothing stored the system preference decides. */
  function ResolveTheme(saved: Option<string>, prefersDark: bool): bool {
    if Truthy(saved) then saved.value == "dark" else prefersDark
  }

  /** The value a press stores. */
  function ThemeName(dark: bool): (r: string)
    ensures r == "dark" <==> dark
    ensures r != ""
  {
    if dark then "dark" else "light"
  }

  /** Storing a theme and resolving it again gives the same theme, whatever
      the system preference. */
  lemma StoredThemeWins(storage: map<string, string>, dark: bool, prefersDark: bool)
    ensures ResolveTheme(SavedTheme(storage[ThemeKey := ThemeName(dark)]), prefersDark) == dark
  {
  }

  /** A stored value other than "dark" means light, and an empty one is the
      same as none. */
  lemma ResolveExamples(prefersDark: bool)
    ensures ResolveTheme(Some("dark"), false) && !ResolveTheme(Some("light"), true)
    ensures !ResolveTheme(Some("Dark"), true)
    ensures ResolveTheme(Some(""), prefersDark) == prefersDark
    ensures ResolveTheme(None, prefersDark) == prefersDark
  {
  }

  /** The system preference as the component reads it: `false` when
      `matchMedia` does not exist. */
  function PrefersDark(matchMedia: Option<bool>): bool {
    matchMedia.Some? && matchMedia.value
  }

  /** The class list after the four class-list calls for a theme. */
  function WithTheme(classes: set<string>, dark: bool): set<string> {
    if dark then (classes + {DarkClass}) - {LightClass} else (classes - {DarkClass}) + {LightClass}
  }

  /** Exactly one of the two theme classes is present, the one for the theme,
      and no other class is touched. */
  lemma WithThemeExactlyOne(classes: set<string>, dark: bool)
    ensures DarkClass in WithTheme(classes, dark) <==> dark
    ensures LightClass in WithTheme(classes, dark) <==> !dark
    ensures forall c :: c != DarkClass && c != LightClass ==> (c in WithTheme(classes, dark) <==> c in classes)
  {
  }

  /** Both elements carry exactly the classes for `dark`. */
  predicate ShowsTheme(page: Dom.Page, dark: bool)
    reads page
  {
    (DarkClass in page.htmlClasses <==> dark) && (LightClass in page.htmlClasses <==> !dark)
    && (DarkClass in page.bodyClasses <==> dark) && (LightClass in page.bodyClasses <==> !dark)
  }

  /** Puts the classes for `dark` on the root and the body element. */
  method ApplyTheme(page: Dom.Page, dark: bool)
    modifies page
    ensures page.htmlClasses == WithTheme(old(page.htmlClasses), dark)
    ensures page.bodyClasses == WithTheme(old(page.bodyClasses), dark)
    ensures page.localStorage == old(page.localStorage) && page.bodyOverflow == old(page.bodyOverflow)
    ensures ShowsTheme(page, dark)
  {
    if dark {
      page.htmlClasses := page.htmlClasses + {DarkClass};
      page.htmlClasses := page.htmlClasses - {LightClass};
      page.bodyClasses := page.bodyClasses + {DarkClass};
      page.bodyClasses := page.bodyClasses - {LightClass};
    } else {
      page.htmlClasses := page.htmlClasses - {DarkClass};
      page.htmlClasses := page.htmlClasses + {LightClass};
      page.bodyClasses := page.bodyClasses - {DarkClass};
      page.bodyClasses := page.bodyClasses + {LightClass};
    }
  }

  class ThemeButton {
    var mounted: bool
    var isDark: bool
    const page: Dom.Page

    /** After mounting, the page shows the theme the button holds. */
    ghost predicate Valid()
      reads this, page
    {
      mounted ==> ShowsTheme(page, isDark)
    }

    /** Before mounting the button starts dark and disabled. */
    constructor (page: Dom.Page)
      ensures this.page == page && !mounted && isDark
      ensures !Enabled()
      ensures Valid()
    {
      this.page := page;
      mounted := false;
      isDark := true;
    }

    /** The button only reacts once mounted. */
    predicate Enabled()
      reads this
    {
      mounted
    }

    /** The mount effect: resolve, remember and show the theme; storage is
        read, not written. */
    method Mount(matchMedia: Option<bool>)
      modifies this, page
      ensures mounted
      ensures isDark == ResolveTheme(SavedTheme(old(page.localStorage)), PrefersDark(matchMedia))
      ensures page.localStorage == old(page.localStorage) && page.bodyOverflow == old(page.bodyOverflow)
      ensures page.htmlClasses == WithTheme(old(page.htmlClasses), isDark)
      ensures page.bodyClasses == WithTheme(old(page.bodyClasses), isDark)
      ensures Valid()
    {
      mounted := true;
      var savedTheme := SavedTheme(page.localStorage);
      var prefersDark := matchMedia.Some? && matchMedia.value;
      var shouldBeDark := if Truthy(savedTheme) then savedTheme.value == "dark" else prefersDark;
      isDark := shouldBeDark;
      ApplyTheme(page, shouldBeDark);
    }

    /** `toggleTheme`: flip, show and store the new theme. Reloading then
        resolves to the same theme. */
    method Toggle()
      requires Enabled() && Valid()
      modifies this, page
      ensures mounted && isDark == !old(isDark)
      ensures page.localStorage == old(page.localStorage)[ThemeKey := ThemeName(isDark)]
      ensures page.bodyOverflow == old(page.bodyOverflow)
      ensures page.htmlClasses == WithTheme(old(page.htmlClasses), isDark)
      ensures page.bodyClasses == WithTheme(old(page.bodyClasses), isDark)
      ensures forall prefers :: ResolveTheme(SavedTheme(page.localStorage), prefers) == isDark
      ensures Valid()
    {
      var newTheme := !isDark;
      isDark := newTheme;
      ApplyTheme(page, newTheme);
      page.localStorage := page.localStorage[ThemeKey := if newTheme then "dark" else "light"];
    }
  }
}
