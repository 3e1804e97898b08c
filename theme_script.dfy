/** The inline script that sets the theme before the page hydrates. It
    resolves the theme the way the theme button's mount step does, but calls
    `matchMedia` unguarded, so without it the script throws before touching
    the page. It then themes the root element and, through `document.body`,
    the body; the site places the script in the document head, where the body
    has not been parsed yet, so that second step throws. It never writes
    storage. */
module ThemeScript {
  import opened Common
  import opened ThemeToggle
  import Dom

  /** The site renders the script inside `<head>`: when it runs, the body
      element does not exist yet. */
  const BodyParsedInHead := false

  /** The script's theme, or `None` when it throws before resolving one. */
  function ScriptTheme(saved: Option<string>, matchMedia: Option<bool>): (r: Option<bool>)
    ensures r.None? <==> matchMedia.None?
  {
    match matchMedia
    case None => None
    case Some(prefersDark) => Some(ResolveTheme(saved, prefersDark))
  }

  /** Wherever `matchMedia` exists, the script and the button's mount step
      settle on the same theme, so the page does not flash. */
  lemma ScriptAgreesWithButton(storage: map<string, string>, matchMedia: Option<bool>)
    requires matchMedia.Some?
    ensures ScriptTheme(SavedTheme(storage), matchMedia) == Some(ResolveTheme(SavedTheme(storage), PrefersDark(matchMedia)))
  {
  }

  /** What one run of the script does: the theme it puts on the root element
      and on the body (`None` where the element is left alone), and whether
      it throws. */
  datatype ScriptRun = ScriptRun(rootTheme: Option<bool>, bodyTheme: Option<bool>, threw: bool)

  /** The two class-list updates run in order: the root's as soon as the theme
      is resolved, the body's only if `document.body` exists. */
  function ScriptEffect(saved: Option<string>, matchMedia: Option<bool>, bodyParsed: bool): (r: ScriptRun)
    ensures r.threw <==> matchMedia.None? || !bodyParsed
    ensures r.rootTheme == ScriptTheme(saved, matchMedia)
    ensures r.bodyTheme.Some? <==> !r.threw
    ensures r.bodyTheme.Some? ==> r.bodyTheme == r.rootTheme
  {
    var theme := ScriptTheme(saved, matchMedia);
    if theme.None? then ScriptRun(None, None, true)
    else if !bodyParsed then ScriptRun(theme, None, true)
    else ScriptRun(theme, theme, false)
  }

  /** As the site places it, the script always throws: it may theme the root
      element, but it never reaches the body. */
  lemma HeadScriptMissesBody(saved: Option<string>, matchMedia: Option<bool>)
    ensures var run := ScriptEffect(saved, matchMedia, BodyParsedInHead);
      run.threw && run.bodyTheme.None?
      && (matchMedia.Some? ==> run.rootTheme == Some(ResolveTheme(saved, matchMedia.value)))
  {
  }

  /** Runs the script against the page; `bodyParsed` says whether the body
      element exists yet. */
  method RunScript(page: Dom.Page, matchMedia: Option<bool>, bodyParsed: bool) returns (threw: bool)
    modifies page
    ensures var run := ScriptEffect(SavedTheme(old(page.localStorage)), matchMedia, bodyParsed);
      && threw == run.threw
      && page.htmlClasses == (if run.rootTheme.Some? then WithTheme(old(page.htmlClasses), run.rootTheme.value) else old(page.htmlClasses))
      && page.bodyClasses == (if run.bodyTheme.Some? then WithTheme(old(page.bodyClasses), run.bodyTheme.value) else old(page.bodyClasses))
    ensures page.localStorage == old(page.localStorage) && page.bodyOverflow == old(page.bodyOverflow)
    ensures !threw ==> ShowsTheme(page, ScriptTheme(SavedTheme(old(page.localStorage)), matchMedia).value)
  {
    if matchMedia.None? {
      return true;
    }
    var theme := SavedTheme(page.localStorage);
    var prefersDark := matchMedia.value;
    var shouldBeDark := if Truthy(theme) then theme.value == "dark" else prefersDark;
    if shouldBeDark {
      page.htmlClasses := page.htmlClasses + {DarkClass};
      page.htmlClasses := page.htmlClasses - {LightClass};
    } else {
      page.htmlClasses := page.htmlClasses - {DarkClass};
      page.htmlClasses := page.htmlClasses + {LightClass};
    }
    if !bodyParsed {
      return true;
    }
    if shouldBeDark {
      page.bodyClasses := page.bodyClasses + {DarkClass};
      page.bodyClasses := page.bodyClasses - {LightClass};
    } else {
      page.bodyClasses := page.bodyClasses - {DarkClass};
      page.bodyClasses := page.bodyClasses + {LightClass};
    }
    return false;
  }
}
