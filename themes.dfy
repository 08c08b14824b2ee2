/** The two visual themes, their fixed colour palettes, and what applying a
    theme does to the shared browser state: one theme class on the body,
    twelve CSS custom properties on the root element, and the stored
    preference under `"goGameTheme"`. The theme hook and the home page each
    carry their own copy of these palettes; the copies hold the same values,
    so they are written down once here. */
module Themes {
  import opened Wrappers
  import opened Dom

  datatype Theme = Light | Dark

  /** The string a theme is known by in class names and in storage. */
  function Name(t: Theme): string {
    match t
    case Light => "light"
    case Dark => "dark"
  }

  function Other(t: Theme): Theme {
    match t
    case Light => Dark
    case Dark => Light
  }

  /** Both theme names are class tokens `classList.add` accepts. */
  lemma NameIsToken(t: Theme)
    ensures ValidToken(Name(t))
  {
  }

  /** The localStorage key of the stored preference. */
  const StorageKey: string := "goGameTheme"

  /** Colours of the two button variants. */
  datatype ButtonColors = ButtonColors(
    primaryBg: string, primaryText: string, primaryBorder: string, primaryShadow: string,
    secondaryBg: string, secondaryText: string, secondaryBorder: string, secondaryShadow: string)

  /** Colours of one entry of the games list. */
  datatype ListItemColors = ListItemColors(bg: string, text: string, border: string, hoverBg: string)

  const LightButtonColors: ButtonColors := ButtonColors(
    "#FFD700", "#2c2c2c", "#B8860B", "rgba(0,0,0,0.25)",
    "#4ECDC4", "#FFFFFF", "#3AAFA9", "rgba(0,0,0,0.2)")

  const DarkButtonColors: ButtonColors := ButtonColors(
    "#FFA000", "#FFFFFF", "#D46F00", "rgba(0,0,0,0.35)",
    "#20B2AA", "#FFFFFF", "#1A8C84", "rgba(0,0,0,0.3)")

  const LightListItemColors: ListItemColors := ListItemColors("#f9f9f9", "#333333", "#e0e0e0", "#efefef")

  const DarkListItemColors: ListItemColors := ListItemColors("#2d3748", "#e2e8f0", "#4A5568", "#374151")

  function ButtonColorsFor(t: Theme): ButtonColors {
    if t == Light then LightButtonColors else DarkButtonColors
  }

  function ListItemColorsFor(t: Theme): ListItemColors {
    if t == Light then LightListItemColors else DarkListItemColors
  }

  /** The names of the twelve custom properties a theme sets. */
  const ButtonTokenNames: seq<string> := [
    "--button-primary-bg", "--button-primary-text", "--button-primary-border",
    "--button-primary-shadow-color", "--button-secondary-bg", "--button-secondary-text",
    "--button-secondary-border", "--button-secondary-shadow-color"]

  const ListItemTokenNames: seq<string> := [
    "--list-item-bg", "--list-item-text", "--list-item-border-color", "--list-item-hover-bg"]

  const TokenNames: set<string> := set n | n in ButtonTokenNames + ListItemTokenNames

  /** The custom properties and their values for a pair of palettes. */
  function TokenMap(b: ButtonColors, l: ListItemColors): map<string, string> {
    map[
      "--button-primary-bg" := b.primaryBg,
      "--button-primary-text" := b.primaryText,
      "--button-primary-border" := b.primaryBorder,
      "--button-primary-shadow-color" := b.primaryShadow,
      "--button-secondary-bg" := b.secondaryBg,
      "--button-secondary-text" := b.secondaryText,
      "--button-secondary-border" := b.secondaryBorder,
      "--button-secondary-shadow-color" := b.secondaryShadow,
      "--list-item-bg" := l.bg,
      "--list-item-text" := l.text,
      "--list-item-border-color" := l.border,
      "--list-item-hover-bg" := l.hoverBg]
  }

  /** The token set of a theme: exactly the twelve names, each with the
      theme's palette value. */
  function Tokens(t: Theme): (m: map<string, string>)
    ensures m.Keys == TokenNames
  {
    TokenMap(ButtonColorsFor(t), ListItemColorsFor(t))
  }

  /** The primary button background of each theme. */
  lemma PrimaryBackgrounds()
    ensures Tokens(Dark)["--button-primary-bg"] == "#FFA000"
    ensures Tokens(Light)["--button-primary-bg"] == "#FFD700"
  {
  }

  /** The twelve names are distinct, so a theme sets twelve properties. */
  lemma TwelveTokens()
    ensures |TokenNames| == 12
    ensures |ButtonTokenNames| == 8 && |ListItemTokenNames| == 4
  {
    var names := ButtonTokenNames + ListItemTokenNames;
    assert TokenNames == set i | 0 <= i < |names| :: names[i];
    assert forall i, j :: 0 <= i < j < |names| ==> names[i] != names[j];
    DistinctCount(names);
  }

  lemma {:induction false} DistinctCount(names: seq<string>)
    requires forall i, j :: 0 <= i < j < |names| ==> names[i] != names[j]
    ensures |set i | 0 <= i < |names| :: names[i]| == |names|
  {
    if names != [] {
      var rest := names[..|names| - 1];
      DistinctCount(rest);
      var all := set i | 0 <= i < |names| :: names[i];
      var front := set i | 0 <= i < |rest| :: rest[i];
      assert all == front + {names[|names| - 1]};
      assert names[|names| - 1] !in front;
    }
  }

  /** Overwriting a property after a batch of overwrites extends the batch. */
  lemma OverwriteExtends(m: map<string, string>, written: map<string, string>, k: string, v: string)
    ensures (m + written)[k := v] == m + written[k := v]
  {
  }

  /** The twelve `root.style.setProperty` calls, in source order. */
  method SetTokenProperties(doc: Browser, b: ButtonColors, l: ListItemColors)
    modifies doc`style
    ensures doc.style == old(doc.style) + TokenMap(b, l)
  {
    ghost var before := doc.style;
    ghost var written: map<string, string> := map[];
    assert doc.style == before + written;
    doc.SetProperty("--button-primary-bg", b.primaryBg);
    OverwriteExtends(before, written, "--button-primary-bg", b.primaryBg);
    written := written["--button-primary-bg" := b.primaryBg];
    doc.SetProperty("--button-primary-text", b.primaryText);
    OverwriteExtends(before, written, "--button-primary-text", b.primaryText);
    written := written["--button-primary-text" := b.primaryText];
    doc.SetProperty("--button-primary-border", b.primaryBorder);
    OverwriteExtends(before, written, "--button-primary-border", b.primaryBorder);
    written := written["--button-primary-border" := b.primaryBorder];
    doc.SetProperty("--button-primary-shadow-color", b.primaryShadow);
    OverwriteExtends(before, written, "--button-primary-shadow-color", b.primaryShadow);
    written := written["--button-primary-shadow-color" := b.primaryShadow];
    doc.SetProperty("--button-secondary-bg", b.secondaryBg);
    OverwriteExtends(before, written, "--button-secondary-bg", b.secondaryBg);
    written := written["--button-secondary-bg" := b.secondaryBg];
    doc.SetProperty("--button-secondary-text", b.secondaryText);
    OverwriteExtends(before, written, "--button-secondary-text", b.secondaryText);
    written := written["--button-secondary-text" := b.secondaryText];
    doc.SetProperty("--button-secondary-border", b.secondaryBorder);
    OverwriteExtends(before, written, "--button-secondary-border", b.secondaryBorder);
    written := written["--button-secondary-border" := b.secondaryBorder];
    doc.SetProperty("--button-secondary-shadow-color", b.secondaryShadow);
    OverwriteExtends(before, written, "--button-secondary-shadow-color", b.secondaryShadow);
    written := written["--button-secondary-shadow-color" := b.secondaryShadow];
    doc.SetProperty("--list-item-bg", l.bg);
    OverwriteExtends(before, written, "--list-item-bg", l.bg);
    written := written["--list-item-bg" := l.bg];
    doc.SetProperty("--list-item-text", l.text);
    OverwriteExtends(before, written, "--list-item-text", l.text);
    written := written["--list-item-text" := l.text];
    doc.SetProperty("--list-item-border-color", l.border);
    OverwriteExtends(before, written, "--list-item-border-color", l.border);
    written := written["--list-item-border-color" := l.border];
    doc.SetProperty("--list-item-hover-bg", l.hoverBg);
    OverwriteExtends(before, written, "--list-item-hover-bg", l.hoverBg);
    written := written["--list-item-hover-bg" := l.hoverBg];
    assert written == TokenMap(b, l);
  }

  /** The state after theme `t` is applied to state `s`: the body carries
      the class of `t` and not that of the other theme, the stored
      preference is `t`, the twelve properties hold `t`'s palette, and
      nothing else changes. */
  function ApplyTheme(s: Snapshot, t: Theme): (r: Snapshot)
    ensures Name(t) in r.bodyClasses && Name(Other(t)) !in r.bodyClasses
    ensures ("light" in r.bodyClasses) != ("dark" in r.bodyClasses)
    ensures r.bodyClasses - {Name(t)} == s.bodyClasses - {"light", "dark"}
    ensures GetItem(r.storage, StorageKey) == Some(Name(t))
    ensures forall k :: k != StorageKey ==> GetItem(r.storage, k) == GetItem(s.storage, k)
    ensures forall k :: k in TokenNames ==> GetItem(r.style, k) == Some(Tokens(t)[k])
    ensures forall k :: k !in TokenNames ==> GetItem(r.style, k) == GetItem(s.style, k)
  {
    Snapshot(
      s.style + Tokens(t),
      s.bodyClasses - {Name(Other(t))} + {Name(t)},
      s.storage[StorageKey := Name(t)])
  }

  /** Applying a theme overwrites everything an earlier application wrote:
      no value of the earlier theme survives. */
  lemma ApplyThemeOverwrites(s: Snapshot, t1: Theme, t2: Theme)
    ensures ApplyTheme(ApplyTheme(s, t1), t2) == ApplyTheme(s, t2)
  {
    var once := ApplyTheme(s, t2);
    var twice := ApplyTheme(ApplyTheme(s, t1), t2);
    assert twice.style == once.style by {
      assert twice.style.Keys == once.style.Keys;
    }
    assert twice.bodyClasses == once.bodyClasses by {
      if t1 != t2 {
        assert Name(Other(t2)) == Name(t1);
      }
    }
  }

  /** Applying the same theme twice is the same as applying it once. */
  lemma ApplyThemeIdempotent(s: Snapshot, t: Theme)
    ensures ApplyTheme(ApplyTheme(s, t), t) == ApplyTheme(s, t)
  {
    ApplyThemeOverwrites(s, t, t);
  }
}
