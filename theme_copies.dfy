/** The theme hook and the home page each carry a copy of the same theme
    logic. They apply a well-formed theme identically, but they resolve the
    stored preference differently: the page accepts only `"light"` and
    `"dark"`, the hook any non-empty string. This module relates the two
    copies, shows what the hook does with a stored value that is not a
    theme, and walks both through a first visit. */
module ThemeCopies {
  import opened Wrappers
  import opened Dom
  import opened Themes
  import opened ThemeManager
  import opened HomePage

  /** The two resolutions agree exactly when the stored value is absent,
      empty, `"light"` or `"dark"`. */
  lemma ResolutionsAgree(stored: Option<string>, prefersDark: bool)
    ensures InitialTheme(stored, prefersDark) == Name(ResolveInitialTheme(stored, prefersDark))
      <==> stored.None? || stored.value == "" || stored.value == "light" || stored.value == "dark"
  {
    if stored.Some? && stored.value != "" && stored.value != "light" && stored.value != "dark" {
      assert InitialTheme(stored, prefersDark) == stored.value;
      assert Name(ResolveInitialTheme(stored, prefersDark)) in {"light", "dark"};
    }
  }

  /** On such a stored value, the hook's mount followed by its effect leaves
      the same state as the page's. */
  lemma CopiesApplyAlike(s: Snapshot, prefersDark: bool)
    requires var stored := GetItem(s.storage, StorageKey);
      stored.None? || stored.value == "" || stored.value == "light" || stored.value == "dark"
    ensures var stored := GetItem(s.storage, StorageKey);
      StylesApplied(s, InitialTheme(stored, prefersDark)) == ApplyTheme(s, ResolveInitialTheme(stored, prefersDark))
  {
    var stored := GetItem(s.storage, StorageKey);
    var t := ResolveInitialTheme(stored, prefersDark);
    ResolutionsAgree(stored, prefersDark);
    StylesAppliedIsApplyTheme(s, t);
  }

  /** As written, the hook takes any non-empty stored string as the theme.
      For a class token that is neither `"light"` nor `"dark"`, on a body
      without the `dark` class, the hook's effect leaves the body with
      neither theme class, stores the string again, and sets the dark
      palette. */
  lemma HookAcceptsUnknownStoredTheme(s: Snapshot, x: string, prefersDark: bool)
    requires ValidToken(x) && x != "light" && x != "dark"
    requires "dark" !in s.bodyClasses
    ensures var r := StylesApplied(s, InitialTheme(Some(x), prefersDark));
      && "light" !in r.bodyClasses && "dark" !in r.bodyClasses
      && x in r.bodyClasses
      && GetItem(r.storage, StorageKey) == Some(x)
      && forall k :: k in TokenNames ==> GetItem(r.style, k) == Some(Tokens(Dark)[k])
  {
    assert InitialTheme(Some(x), prefersDark) == x;
    assert PaletteTheme(x) == Dark;
  }

  /** The concrete case: `"blue"` stored and a light body. */
  lemma BlueStoredTheme(prefersDark: bool)
    ensures var s := Snapshot(map[], {"light"}, map[StorageKey := "blue"]);
      var r := StylesApplied(s, InitialTheme(GetItem(s.storage, StorageKey), prefersDark));
      && r.bodyClasses == {"blue"}
      && GetItem(r.storage, StorageKey) == Some("blue")
      && GetItem(r.style, "--button-primary-bg") == Some("#FFA000")
  {
    var s := Snapshot(map[], {"light"}, map[StorageKey := "blue"]);
    assert GetItem(s.storage, StorageKey) == Some("blue");
    HookAcceptsUnknownStoredTheme(s, "blue", prefersDark);
    var r := StylesApplied(s, "blue");
    assert r.bodyClasses == {"light"} - {"light"} + {"blue"};
    assert "--button-primary-bg" in TokenNames;
  }

  /** As written, a stored string holding ASCII whitespace is taken as the
      theme too, and `classList.add` throws on it: the effect fails, only
      the `light` class is removed, and nothing is stored or set. The string
      stays in storage, so the next mount picks it again and the effect
      fails again, on every visit. */
  lemma HookFailsOnEveryVisit(s: Snapshot, x: string, prefersDark: bool, laterPrefersDark: bool)
    requires exists i :: 0 <= i < |x| && IsAsciiWhitespace(x[i])
    requires GetItem(s.storage, StorageKey) == Some(x)
    ensures var current := InitialTheme(GetItem(s.storage, StorageKey), prefersDark);
      var r := StylesApplied(s, current);
      && current == x && !ValidToken(current)
      && r == Snapshot(s.style, s.bodyClasses - {"light"}, s.storage)
      && InitialTheme(GetItem(r.storage, StorageKey), laterPrefersDark) == x
  {
    var i :| 0 <= i < |x| && IsAsciiWhitespace(x[i]);
    assert x != "";
    assert !ValidToken(x);
  }

  /** The concrete case: `"blue sky"` stored and a light body. */
  lemma BlueSkyStoredTheme(prefersDark: bool)
    ensures var s := Snapshot(map[], {"light"}, map[StorageKey := "blue sky"]);
      var r := StylesApplied(s, InitialTheme(GetItem(s.storage, StorageKey), prefersDark));
      && r.bodyClasses == {}
      && r.style == map[]
      && GetItem(r.storage, StorageKey) == Some("blue sky")
  {
    var s := Snapshot(map[], {"light"}, map[StorageKey := "blue sky"]);
    assert GetItem(s.storage, StorageKey) == Some("blue sky");
    assert IsAsciiWhitespace("blue sky"[4]);
    HookFailsOnEveryVisit(s, "blue sky", prefersDark, prefersDark);
  }

  /** The page's resolution always yields a class token `classList.add`
      accepts, so its effect never throws, whatever was stored. */
  lemma PageThemeIsValidToken(stored: Option<string>, prefersDark: bool)
    ensures ValidToken(Name(ResolveInitialTheme(stored, prefersDark)))
  {
    NameIsToken(ResolveInitialTheme(stored, prefersDark));
  }

  /** The page's resolution followed by its effect always leaves exactly one
      theme class on the body, the one it stored, whatever was stored
      before. */
  lemma PageLeavesOneThemeClass(s: Snapshot, prefersDark: bool)
    ensures var t := ResolveInitialTheme(GetItem(s.storage, StorageKey), prefersDark);
      var r := ApplyTheme(s, t);
      && ("light" in r.bodyClasses) != ("dark" in r.bodyClasses)
      && (GetItem(r.storage, StorageKey) == Some("light") <==> "light" in r.bodyClasses)
      && (GetItem(r.storage, StorageKey) == Some("dark") <==> "dark" in r.bodyClasses)
  {
    var t := ResolveInitialTheme(GetItem(s.storage, StorageKey), prefersDark);
    assert Name(Other(t)) != Name(t);
  }

  /** The primary background and the stored preference after the hook
      applies a theme's name. */
  lemma AppliedPrimaryBackground(s: Snapshot, t: Theme)
    ensures var r := StylesApplied(s, Name(t));
      && GetItem(r.style, "--button-primary-bg") == Some(if t == Dark then "#FFA000" else "#FFD700")
      && GetItem(r.storage, StorageKey) == Some(Name(t))
  {
    StylesAppliedIsApplyTheme(s, t);
    PrimaryBackgrounds();
    assert "--button-primary-bg" in TokenNames;
  }

  /** A first visit with a dark system preference through the hook: the
      mount picks `"dark"` and the effect sets the dark primary background;
      switching to light then sets the light one and stores `"light"`. */
  method HookFirstVisitThenLight() returns (darkBg: Option<string>, lightBg: Option<string>, stored: Option<string>)
    ensures darkBg == Some("#FFA000")
    ensures lightBg == Some("#FFD700")
    ensures stored == Some("light")
  {
    var browser := new Browser(map[], {}, map[], true, true);
    var hook := new ThemeHook(browser);
    var beforeMount := hook.ThemeEffect();
    hook.MountEffect();
    assert hook.theme == Name(Dark);
    var s0 := browser.Snap();
    var darkApplied := hook.ThemeEffect();
    AppliedPrimaryBackground(s0, Dark);
    darkBg := GetItem(browser.style, "--button-primary-bg");
    hook.SetTheme(Light);
    var s1 := browser.Snap();
    var lightApplied := hook.ThemeEffect();
    AppliedPrimaryBackground(s1, Light);
    lightBg := GetItem(browser.style, "--button-primary-bg");
    stored := GetItem(browser.storage, StorageKey);
  }

  /** A first visit to the page in a browser without `matchMedia`: the
      loading screen first, then the light page with the light palette
      applied and `"light"` stored. */
  method PageFirstVisitWithoutMatchMedia() returns (before: Screen, after: Screen, bg: Option<string>, stored: Option<string>)
    ensures before == Loading
    ensures after.Main? && after.logoTheme == Light && after.background == "light-theme-bg"
    ensures bg == Some("#FFD700")
    ensures stored == Some("light")
  {
    var browser := new Browser(map[], {}, map[], false, true);
    var home := new Home(browser);
    before := home.View();
    home.ThemeEffect();
    home.MountEffect();
    assert home.theme == Light;
    home.ThemeEffect();
    assert "--button-primary-bg" in TokenNames;
    after := home.View();
    bg := GetItem(browser.style, "--button-primary-bg");
    stored := GetItem(browser.storage, StorageKey);
  }
}
