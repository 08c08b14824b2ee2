/** The home page (`Home`). It carries its own inline copy of the theme
    logic: a mount effect that sets `isClient` and resolves the starting
    theme, an effect that applies the theme once `isClient` holds, and a
    render that shows only a loading screen until then. Unlike the hook it
    accepts a stored theme only when it is exactly `"dark"` or `"light"`.
    The page also turns each game of its list into a row for display. */
module HomePage {
  import opened Wrappers
  import opened Dom
  import opened Themes

  /** The starting theme: the stored string when it is exactly `"dark"` or
      `"light"`; for anything else (nothing stored, an empty or unknown
      string) the system's dark preference; otherwise light. */
  function ResolveInitialTheme(stored: Option<string>, prefersDark: bool): (t: Theme)
    ensures stored == Some("dark") ==> t == Dark
    ensures stored == Some("light") ==> t == Light
    ensures stored != Some("dark") && stored != Some("light") ==> (t == Dark <==> prefersDark)
  {
    if stored == Some("dark") || stored == Some("light") then
      (if stored.value == "dark" then Dark else Light)
    else if prefersDark then Dark
    else Light
  }

  /** A theme the page applied is the theme the next visit starts with,
      whatever the system preference then is. */
  lemma NextVisitRestoresTheme(s: Snapshot, t: Theme, prefersDark: bool)
    ensures ResolveInitialTheme(GetItem(ApplyTheme(s, t).storage, StorageKey), prefersDark) == t
  {
  }

  /** Without `window.matchMedia` and without a valid stored theme the page
      starts light. */
  lemma NoMatchMediaStartsLight(stored: Option<string>, darkQueryMatches: bool)
    requires stored != Some("dark") && stored != Some("light")
    ensures ResolveInitialTheme(stored, PrefersDark(false, darkQueryMatches)) == Light
  {
  }

  /** One game as the list shows it. */
  datatype GameInfo = GameInfo(id: string, status: string, playerCount: int, createdAt: string)

  /** `game.id.substring(0, 8)`: the first eight characters of the id, or
      the whole id when it is shorter. */
  function ShortId(id: string): (r: string)
    ensures r <= id
    ensures |r| == if |id| < 8 then |id| else 8
  {
    if |id| <= 8 then id else id[..8]
  }

  /** `game.status.replace(/_/g, " ")`: every underscore becomes a space. */
  function StatusText(status: string): (r: string)
    ensures |r| == |status|
    ensures forall i :: 0 <= i < |r| ==> r[i] == (if status[i] == '_' then ' ' else status[i])
  {
    if status == [] then []
    else [if status[0] == '_' then ' ' else status[0]] + StatusText(status[1..])
  }

  /** The displayed status has no underscore left, and a status without
      underscores is shown as it is. */
  lemma StatusTextHasNoUnderscore(status: string)
    ensures '_' !in StatusText(status)
    ensures '_' !in status ==> StatusText(status) == status
  {
  }

  /** What one list entry shows: a link to the game, the shortened id, the
      player count and the readable status. */
  datatype GameRow = GameRow(key: string, href: string, shortId: string, playerCount: int, status: string)

  function Row(g: GameInfo): (r: GameRow)
    ensures r.key == g.id && r.href == "/spill/" + g.id && r.playerCount == g.playerCount
    ensures r.shortId == ShortId(g.id) && r.status == StatusText(g.status)
    ensures r.shortId <= g.id && |r.shortId| <= 8
    ensures |r.status| == |g.status| && '_' !in r.status
  {
    StatusTextHasNoUnderscore(g.status);
    GameRow(g.id, "/spill/" + g.id, ShortId(g.id), g.playerCount, StatusText(g.status))
  }

  /** The games section: a loading notice, the rows, or a notice that there
      are no games. */
  datatype GamesSection = LoadingGames | Rows(rows: seq<GameRow>) | NoGames

  /** What the page renders. The loading screen carries nothing that depends
      on the theme. */
  datatype Screen =
    | Loading
    | Main(background: string, logoTheme: Theme, sloganTheme: Theme, games: GamesSection)

  function Render(isClient: bool, theme: Theme, isLoadingActiveGames: bool, activeGames: seq<GameInfo>): (r: Screen)
    ensures r.Loading? <==> !isClient
    ensures r.Main? ==> r.logoTheme == theme && r.sloganTheme == theme
    ensures r.Main? ==> (r.background == "dark-theme-bg" <==> theme == Dark)
    ensures r.Main? ==> (r.games.LoadingGames? <==> isLoadingActiveGames)
    ensures r.Main? && !isLoadingActiveGames ==> (r.games.Rows? <==> |activeGames| > 0)
    ensures r.Main? && r.games.Rows? ==>
      |r.games.rows| == |activeGames| > 0 &&
      forall i :: 0 <= i < |activeGames| ==> r.games.rows[i] == Row(activeGames[i])
  {
    if !isClient then Loading
    else
      var games :=
        if isLoadingActiveGames then LoadingGames
        else if |activeGames| > 0 then Rows(seq(|activeGames|, i requires 0 <= i < |activeGames| => Row(activeGames[i])))
        else NoGames;
      Main(if theme == Dark then "dark-theme-bg" else "light-theme-bg", theme, theme, games)
  }

  /** Before the client is ready the page looks the same whatever the theme
      and the games: nothing theme-dependent is shown. */
  lemma LoadingScreenIgnoresTheme(t1: Theme, t2: Theme, l1: bool, l2: bool, g1: seq<GameInfo>, g2: seq<GameInfo>)
    ensures Render(false, t1, l1, g1) == Render(false, t2, l2, g2) == Loading
  {
  }

  class Home {
    const browser: Browser
    var theme: Theme
    var isClient: bool
    var isLoadingActiveGames: bool
    var activeGames: seq<GameInfo>

    /** The first render: `theme` is `"light"`, `isClient` false, the games
        list empty and loading. */
    constructor (browser: Browser)
      ensures this.browser == browser && theme == Light && !isClient
      ensures isLoadingActiveGames && activeGames == []
      ensures View() == Loading
    {
      this.browser := browser;
      theme := Light;
      isClient := false;
      isLoadingActiveGames := true;
      activeGames := [];
    }

    /** The mount effect: marks the client ready and resolves the starting
        theme. It only reads the browser. */
    method MountEffect()
      modifies this`isClient, this`theme
      ensures isClient
      ensures theme == ResolveInitialTheme(
        GetItem(browser.storage, StorageKey),
        PrefersDark(browser.hasMatchMedia, browser.darkQueryMatches))
    {
      isClient := true;
      var prefersDark := browser.hasMatchMedia && browser.darkQueryMatches;
      var storedTheme := GetItem(browser.storage, StorageKey);
      theme := ResolveInitialTheme(storedTheme, prefersDark);
    }

    /** The effect run after a change of `theme` or `isClient`: the class,
        storage and style writes, only once the client is ready. */
    method ThemeEffect()
      modifies browser
      ensures isClient ==> browser.Snap() == ApplyTheme(old(browser.Snap()), theme)
      ensures !isClient ==> unchanged(browser)
    {
      if isClient {
        browser.ClassListRemove(if theme == Light then "dark" else "light");
        NameIsToken(theme);
        var added := browser.ClassListAdd(Name(theme));
        browser.SetItem(StorageKey, Name(theme));
        SetTokenProperties(browser, ButtonColorsFor(theme), ListItemColorsFor(theme));
      }
    }

    /** The page as rendered from the current state. */
    function View(): Screen
      reads this
    {
      Render(isClient, theme, isLoadingActiveGames, activeGames)
    }
  }
}
