/**
 * The site header: its navigation labels and the language toggle, which
 * flips the locale, stores the preference and moves the browser to the
 * same page in the other language.
 */
module Header {
  import opened Wrappers
  import opened Strings
  import opened I18n

  // ---------------------------------------------------------------------
  // Path rewriting
  // ---------------------------------------------------------------------

  /** The English page of a path: "/en" in front, with "/" becoming "/en". */
  function EnglishPath(path: string): (r: string)
    ensures StartsWith(r, "/en")
    ensures path == "/" ==> r == "/en"
    ensures path != "/" ==> r[3..] == path
  {
    "/en" + (if path == "/" then "" else path)
  }

  /**
   * The path rewrite of the toggle as written: towards English it prefixes
   * "/en"; towards Portuguese it removes the first "/en" wherever it
   * occurs, and an empty result becomes "/".
   */
  function ToggledPathAsWritten(newLocale: Locale, path: string): (r: string)
    ensures newLocale == EnUS ==> r == EnglishPath(path)
    ensures newLocale == PtBR && !Includes(path, "/en") ==> r == if path == "" then "/" else path
  {
    if newLocale == EnUS then EnglishPath(path)
    else
      var stripped := ReplaceFirst(path, "/en", "");
      if stripped == "" then "/" else stripped
  }

  /**
   * Towards Portuguese the rewrite as written removes the first "/en" of
   * the path, wherever it starts, and keeps everything around it.
   */
  lemma ToggledPathAsWrittenRemovesFirst(a: string, b: string)
    requires !Includes(a + "/e", "/en")
    ensures ToggledPathAsWritten(PtBR, a + "/en" + b) == if a + b == "" then "/" else a + b
  {
    assert "/en"[..2] == "/e";
    assert NoDollar("");
    ReplaceFirstOnlyFirst(a, "/en", b, "");
    assert a + "" + b == a + b;
  }

  /**
   * Removing "/en" anywhere mangles a Portuguese page whose path contains
   * it later on, such as the article "/articles/entendendo", whose slug
   * starts with "en": the page it sends the reader to is "/articlestendendo".
   */
  lemma ToggledPathAsWrittenMangles()
    ensures ToggledPathAsWritten(PtBR, "/articles" + "/en" + "tendendo") == "/articles" + "tendendo"
  {
    NoEnBeforeSlug();
    ToggledPathAsWrittenRemovesFirst("/articles", "tendendo");
  }

  lemma NoEnBeforeSlug()
    ensures !Includes("/articles" + "/e", "/en")
  {
    var w := "/articles" + "/e";
    forall j | 0 <= j ensures !OccursAt(w, "/en", j) {
      if j + 3 <= |w| {
        assert w[j..j + 3][2] == w[j + 2] != 'n';
      }
    }
  }

  /** The leading language segment "/en" of a path removed; other paths are left alone. */
  function StripEnglishPrefix(path: string): (r: string)
    ensures path == "/en" ==> r == ""
    ensures StartsWith(path, "/en/") ==> "/en" + r == path
    ensures path != "/en" && !StartsWith(path, "/en/") ==> r == path
  {
    if path == "/en" then ""
    else if StartsWith(path, "/en/") then path[3..]
    else path
  }

  /**
   * The path rewrite of the toggle: towards English "/en" is put in front;
   * towards Portuguese only a leading "/en" segment is removed, and an
   * empty result becomes "/".
   */
  function ToggledPath(newLocale: Locale, path: string): (r: string)
    ensures newLocale == EnUS ==> r == EnglishPath(path)
    ensures newLocale == PtBR && path != "/en" && !StartsWith(path, "/en/") ==>
      r == if path == "" then "/" else path
  {
    if newLocale == EnUS then EnglishPath(path)
    else
      var stripped := StripEnglishPrefix(path);
      if stripped == "" then "/" else stripped
  }

  /** Going to English and back returns to any site path. */
  lemma ToggleRoundTrip(path: string)
    requires StartsWith(path, "/")
    ensures ToggledPath(PtBR, ToggledPath(EnUS, path)) == path
  {
    var en := ToggledPath(EnUS, path);
    if path != "/" {
      assert en[..4] == "/en" + path[..1];
      assert en[3..] == path;
    }
  }

  /**
   * Going to Portuguese and back returns to any English path ("/en/" comes
   * back without its trailing slash, as "/en").
   */
  lemma ToggleRoundTripFromEnglish(path: string)
    requires path == "/en" || (StartsWith(path, "/en/") && path != "/en/")
    ensures ToggledPath(EnUS, ToggledPath(PtBR, path)) == path
  {
    if path != "/en" {
      var pt := ToggledPath(PtBR, path);
      assert pt == path[3..];
      assert pt != "/" by {
        assert |path| >= 5 || path == "/en/";
      }
      assert "/en" + pt == path;
    }
  }

  /** The rewrite as written leaves the same round trip intact: the first "/en" is the one it added. */
  lemma ToggleRoundTripAsWritten(path: string)
    ensures ToggledPathAsWritten(PtBR, ToggledPathAsWritten(EnUS, path)) == if path == "" then "/" else path
  {
    var rest := if path == "/" then "" else path;
    var en := "/en" + rest;
    assert OccursAt(en, "/en", 0);
    assert IndexOf(en, "/en") == Some(0);
    assert en[3..] == rest;
  }

  /**
   * The two rewrites agree unless the path contains "/en" somewhere other
   * than as its leading segment.
   */
  lemma ToggledPathsAgree(newLocale: Locale, path: string)
    requires newLocale == EnUS || path == "/en" || StartsWith(path, "/en/") || !Includes(path, "/en")
    ensures ToggledPathAsWritten(newLocale, path) == ToggledPath(newLocale, path)
  {
    if newLocale == PtBR && (path == "/en" || StartsWith(path, "/en/")) {
      var rest := path[3..];
      assert path == "" + "/en" + rest;
      assert !Includes("" + "/e", "/en");
      ToggledPathAsWrittenRemovesFirst("", rest);
    }
  }

  // ---------------------------------------------------------------------
  // Labels
  // ---------------------------------------------------------------------

  datatype NavLabels = NavLabels(studies: string, articles: string, langToggle: string)

  /** `navText`: Portuguese labels under pt-BR, English ones otherwise. */
  function NavText(l: Locale): (r: NavLabels)
    ensures l == PtBR <==> r.studies == "Estudos"
    ensures l == PtBR ==> r == NavLabels("Estudos", "Artigos", "EN")
    ensures l == EnUS ==> r == NavLabels("Studies", "Articles", "PT")
  {
    if l == PtBR then NavLabels("Estudos", "Artigos", "EN") else NavLabels("Studies", "Articles", "PT")
  }

  /** The toggle button names the language it switches to. */
  lemma ToggleLabelNamesTarget(l: Locale)
    ensures NavText(l).langToggle == if ToggleLocale(l) == EnUS then "EN" else "PT"
  {
  }

  // ---------------------------------------------------------------------
  // The component
  // ---------------------------------------------------------------------

  /** The header's state: the locale it shows and the browser it lives in. */
  class Header {
    var locale: Locale
    const currentPath: string
    const browser: Browser
    /** `window.location.href`. */
    var location: string

    /** The first render: pt-BR, on the current page. */
    constructor(currentPath: string, browser: Browser)
      ensures locale == PtBR && location == currentPath
      ensures this.currentPath == currentPath && this.browser == browser
    {
      locale := PtBR;
      this.currentPath := currentPath;
      this.browser := browser;
      location := currentPath;
    }

    /**
     * The mount effect: adopts the current locale. When the detection
     * throws, `ok` is false: the error escapes the effect and the state is
     * left as it was.
     */
    method Mount() returns (ok: bool)
      modifies this
      ensures ok <==> browser.CurrentLocale().Ok?
      ensures ok ==> locale == browser.CurrentLocale().value
      ensures !ok ==> locale == old(locale)
      ensures location == old(location)
    {
      var current := browser.CurrentLocale();
      ok := current.Ok?;
      if ok {
        locale := current.value;
      }
    }

    /**
     * `handleToggleLanguage`: the other locale becomes the header's state
     * and the stored preference, and the browser goes to the page's path
     * rewritten as the component does it: "/en" put in front, or the first
     * "/en" of the path removed.
     */
    method ToggleLanguage()
      modifies this, browser
      ensures locale == ToggleLocale(old(locale))
      ensures browser.storage == if browser.hasWindow then old(browser.storage)[StorageKey := Tag(locale)]
                                 else old(browser.storage)
      ensures browser.hasWindow ==> browser.StoredLocale() == Some(locale)
      ensures location == ToggledPathAsWritten(locale, currentPath)
    {
      var newLocale := ToggleLocale(locale);
      locale := newLocale;
      browser.SetStoredLocale(newLocale);
      location := ToggledPathAsWritten(newLocale, currentPath);
    }
  }
}
