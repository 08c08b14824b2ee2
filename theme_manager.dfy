/** The `useThemeManager` hook: it keeps the current theme and a mounted
    flag, resolves the starting theme once when it mounts, and re-applies
    the theme's styles to the shared browser state whenever the theme or the
    flag changes. The React effects are modelled as explicit method calls:
    `MountEffect` is the mount-time effect, `ThemeEffect` the effect that
    runs after every change of `theme` or `isMounted`.

    The hook types its theme as `"light" | "dark"` but fills it from
    storage with a cast, so at run time it can hold any string; the model
    therefore keeps the theme as a `string`. */
module ThemeManager {
  import opened Wrappers
  import opened Dom
  import opened Themes

  /** The starting theme: a non-empty stored string is taken as it is,
      otherwise the system's dark preference decides, otherwise `"light"`. */
  function InitialTheme(stored: Option<string>, prefersDark: bool): (r: string)
    ensures stored.Some? && stored.value != "" ==> r == stored.value
    ensures stored.None? || stored.value == "" ==>
      (r == "dark" <==> prefersDark) && (r == "light" <==> !prefersDark)
  {
    if stored.Some? && stored.value != "" then stored.value
    else if prefersDark then "dark"
    else "light"
  }

  /** The palette `applyThemeStyles` picks: light for `"light"`, dark for
      any other string. */
  function PaletteTheme(current: string): (t: Theme)
    ensures t == Light <==> current == "light"
  {
    if current == "light" then Light else Dark
  }

  /** The state after `applyThemeStyles(current)`: the class of the other
      theme is removed from the body and `current` is added, `current` is
      stored, and the twelve properties take the palette `PaletteTheme`
      picks; nothing else changes. When `current` is not a valid class
      token, `classList.add` throws right after the removal, so the removal
      is the only change. */
  function StylesApplied(s: Snapshot, current: string): (r: Snapshot)
    ensures Name(Other(PaletteTheme(current))) !in r.bodyClasses
    ensures ValidToken(current) ==> current in r.bodyClasses
    ensures ValidToken(current) ==>
      r.bodyClasses - {current} == s.bodyClasses - {current, Name(Other(PaletteTheme(current)))}
    ensures ValidToken(current) ==> GetItem(r.storage, StorageKey) == Some(current)
    ensures forall k :: k != StorageKey ==> GetItem(r.storage, k) == GetItem(s.storage, k)
    ensures ValidToken(current) ==>
      forall k :: k in TokenNames ==> GetItem(r.style, k) == Some(Tokens(PaletteTheme(current))[k])
    ensures forall k :: k !in TokenNames ==> GetItem(r.style, k) == GetItem(s.style, k)
    ensures !ValidToken(current) ==>
      r.bodyClasses == s.bodyClasses - {Name(Other(PaletteTheme(current)))}
      && r.storage == s.storage && r.style == s.style
  {
    var removed := if current == "light" then "dark" else "light";
    if !ValidToken(current) then
      Snapshot(s.style, s.bodyClasses - {removed}, s.storage)
    else
      Snapshot(
        s.style + Tokens(PaletteTheme(current)),
        s.bodyClasses - {removed} + {current},
        s.storage[StorageKey := current])
  }

  /** For a well-formed theme string the hook's application is the shared
      definition of applying a theme. */
  lemma StylesAppliedIsApplyTheme(s: Snapshot, t: Theme)
    ensures StylesApplied(s, Name(t)) == ApplyTheme(s, t)
  {
    NameIsToken(t);
    assert PaletteTheme(Name(t)) == t;
  }

  /** Every write of `applyThemeStyles` is an overwrite, so applying the
      same string twice leaves the state of applying it once. */
  lemma StylesAppliedIdempotent(s: Snapshot, current: string)
    ensures StylesApplied(StylesApplied(s, current), current) == StylesApplied(s, current)
  {
    var once := StylesApplied(s, current);
    var twice := StylesApplied(once, current);
    assert twice.style == once.style by {
      assert twice.style.Keys == once.style.Keys;
    }
  }

  /** The next session's mount reads back the string this session's
      `applyThemeStyles` stored, when it was a valid class token. Otherwise
      `classList.add` threw before `setItem`, so the next mount resolves
      from what was stored before, whatever the dark preference. */
  lemma StoredThemeSurvivesSession(s: Snapshot, current: string, prefersDark: bool)
    ensures ValidToken(current) ==>
      InitialTheme(GetItem(StylesApplied(s, current).storage, StorageKey), prefersDark) == current
    ensures !ValidToken(current) ==>
      InitialTheme(GetItem(StylesApplied(s, current).storage, StorageKey), prefersDark)
      == InitialTheme(GetItem(s.storage, StorageKey), prefersDark)
  {
  }

  class ThemeHook {
    const browser: Browser
    /** `theme`, set by `setThemeState`. */
    var theme: string
    /** `isMounted`, set by `setIsMounted`; returned as `isThemeReady`. */
    var isMounted: bool

    /** The first render: `useState("light")` and `useState(false)`. */
    constructor (browser: Browser)
      ensures this.browser == browser
      ensures theme == "light" && !isMounted && !IsThemeReady()
    {
      this.browser := browser;
      theme := "light";
      isMounted := false;
    }

    /** `isThemeReady`, exactly the mounted flag. */
    function IsThemeReady(): bool
      reads this
    {
      isMounted
    }

    /** The mount effect: sets the mounted flag and the starting theme. It
        only reads the browser. */
    method MountEffect()
      modifies this
      ensures isMounted && IsThemeReady()
      ensures theme == InitialTheme(
        GetItem(browser.storage, StorageKey),
        PrefersDark(browser.hasMatchMedia, browser.darkQueryMatches))
    {
      isMounted := true;
      var prefersDark := browser.hasMatchMedia && browser.darkQueryMatches;
      var storedTheme := GetItem(browser.storage, StorageKey);
      theme := InitialTheme(storedTheme, prefersDark);
    }

    /** `applyThemeStyles(currentTheme)`: the straight-line sequence of
        class, storage and style writes. `ok` is false when
        `classList.add` throws; the writes after it are then skipped. */
    method ApplyThemeStyles(currentTheme: string) returns (ok: bool)
      modifies browser
      ensures ok <==> ValidToken(currentTheme)
      ensures browser.Snap() == StylesApplied(old(browser.Snap()), currentTheme)
    {
      browser.ClassListRemove(if currentTheme == "light" then "dark" else "light");
      ok := browser.ClassListAdd(currentTheme);
      if !ok {
        return;
      }
      browser.SetItem(StorageKey, currentTheme);
      var palette := PaletteTheme(currentTheme);
      SetTokenProperties(browser, ButtonColorsFor(palette), ListItemColorsFor(palette));
    }

    /** The effect run after a change of `theme` or `isMounted`: the styles
        are applied only once mounted, and before that nothing of the
        browser changes. `ok` is false when the effect throws. */
    method ThemeEffect() returns (ok: bool)
      modifies browser
      ensures ok <==> !isMounted || ValidToken(theme)
      ensures isMounted ==> browser.Snap() == StylesApplied(old(browser.Snap()), theme)
      ensures !isMounted ==> unchanged(browser)
    {
      ok := true;
      if isMounted {
        ok := ApplyThemeStyles(theme);
      }
    }

    /** `setTheme`: only records the new theme; the styles follow when
        `ThemeEffect` runs. It does not wait for the mounted flag. */
    method SetTheme(newTheme: Theme)
      modifies this`theme
      ensures theme == Name(newTheme)
    {
      theme := Name(newTheme);
    }
  }
}
