# Theme handling and the pressed-button state of the Go front-end

This project is a Dafny model of the theme logic of the Go game's web front
end, and of its `StyledButton` component.

- **Theme resolution.** The starting theme, `light` or `dark`, is chosen from
  three inputs, in order:
  1. the preference stored under `"goGameTheme"`;
  2. the browser's dark colour-scheme preference;
  3. a default of light.
- **Theme application.** Applying a theme writes three pieces of shared browser state:
  - exactly one theme class on `document.body`;
  - twelve CSS custom properties on the root element (eight button tokens and
    four list-item tokens) from a fixed palette per theme;
  - the stored preference.
- **Ready flag.** A flag (`isMounted` in the hook, `isClient` in the page) gates
  both the application and the rendering.
- **Two copies.** The logic exists twice: in the `useThemeManager` hook and
  inline in the home page. The two copies have drifted, and each is modelled
  as written. The module `ThemeCopies` relates them.

The button is a link or a `<button>`. Its pressed look is driven by an
`isPressed` state, which the mouse and focus handlers switch and which does
not change while the button is disabled. Its class string is a template
literal, trimmed and with every whitespace run collapsed to one space.

Modules:
- `Wrappers`: `Option`.
- `Dom`: the `Browser` class. It holds:
  - the root element's inline style, as a map;
  - the body class list, as a set;
  - `localStorage`, as a map;
  - the `matchMedia` inputs.

  Each `Browser` method is one DOM or storage call.
- `Themes`: the `Theme` datatype, the palettes, the twelve tokens, the
  `SetTokenProperties` method (the twelve `setProperty` calls) and the
  specification function `ApplyTheme`.
- `ThemeManager`: the hook, a `ThemeHook` class with the `theme` and `isMounted`
  fields. React effects are explicit method calls.
- `HomePage`: the page, a `Home` class with the page's own resolution and
  application, its render gate and the game-row display transforms.
- `JsStrings`: `String.prototype.trim` and `replace(/\s+/g, " ")`, with a
  one-pass reference reading (`Squash`).
- `ButtonStyles` and `StyledButton`: the button's class pieces, the class
  string, the render, clicks, and a `Button` class whose handlers update
  `isPressed`.
- `ThemeCopies`: where the hook and the page agree and where they differ, plus
  two first-visit scenarios.

## Model

| member | source | states |
|---|---|---|
| Dom.GetItem | src/app/hooks/useThemeManager.ts:61-64 | `getItem` gives the stored string exactly when the key is present, and `null` otherwise |
| Dom.PrefersDark | src/app/page.tsx:55-57 | without `matchMedia` there is no dark preference; with it, the media query decides |
| Dom.Browser.SetProperty | src/app/hooks/useThemeManager.ts:93-96 | one `setProperty` overwrites one custom property and leaves the others |
| Dom.Browser.ClassListAdd | src/app/hooks/useThemeManager.ts:80 | `classList.add` adds the class to the body's set exactly when it is a valid token (not empty, no ASCII whitespace); otherwise it throws and the set is unchanged |
| Dom.Browser.ClassListRemove | src/app/hooks/useThemeManager.ts:79 | `classList.remove` removes the class from the body's set |
| Dom.Browser.SetItem | src/app/hooks/useThemeManager.ts:81 | `setItem` overwrites one storage entry and leaves the others |
| Themes.NameIsToken | src/app/page.tsx:71-72 | both theme names are class tokens `classList.add` accepts |
| Themes.Tokens | src/app/hooks/useThemeManager.ts:7-41 | a theme's token map has exactly the twelve custom-property names as keys |
| Themes.PrimaryBackgrounds | src/app/page.tsx:14-34 | `--button-primary-bg` is `#FFA000` in the dark palette and `#FFD700` in the light one |
| Themes.TwelveTokens | src/app/hooks/useThemeManager.ts:93-138 | the twelve property names are distinct: 8 button tokens and 4 list-item tokens |
| Themes.SetTokenProperties | src/app/hooks/useThemeManager.ts:93-138 | after the twelve `setProperty` calls in order, the style is the old style overwritten by the palette's twelve values |
| Themes.ApplyTheme | src/app/page.tsx:68-131 | after applying `t`: the body has `t`'s class and not the other's, so exactly one of `light`/`dark`; other classes are kept; storage holds `t` and no other key changes; all twelve tokens hold `t`'s palette and no other property changes |
| Themes.ApplyThemeOverwrites | src/app/page.tsx:68-131 | applying a theme after any other leaves the same state as applying it alone: every write overwrites |
| Themes.ApplyThemeIdempotent | src/app/page.tsx:68-131 | applying the same theme twice equals applying it once |
| ThemeManager.InitialTheme | src/app/hooks/useThemeManager.ts:61-71 | a non-empty stored string wins, whatever it is; with nothing or `""` stored, the result is `"dark"` iff dark is preferred and `"light"` iff it is not |
| ThemeManager.PaletteTheme | src/app/hooks/useThemeManager.ts:83-84 | the light palette is chosen exactly for `"light"`, the dark one for any other string |
| ThemeManager.StylesApplied | src/app/hooks/useThemeManager.ts:75-144 | after `applyThemeStyles(c)` the other palette's class is gone. If `c` is a valid class token: `c` is a body class and other classes are kept; storage holds `c` and nothing else changes; all twelve tokens hold the chosen palette and no other property changes. Otherwise `classList.add` throws: the removal is the only change |
| ThemeManager.StylesAppliedIsApplyTheme | src/app/hooks/useThemeManager.ts:75-144 | on `"light"`/`"dark"` the hook's application is exactly the page's |
| ThemeManager.StylesAppliedIdempotent | src/app/hooks/useThemeManager.ts:75-144 | applying the same string twice equals applying it once |
| ThemeManager.StoredThemeSurvivesSession | src/app/hooks/useThemeManager.ts:61-81 | the next mount starts with the string this session applied when it is a valid class token; otherwise nothing was stored and the next mount resolves as this one did |
| ThemeManager.ThemeHook.constructor | src/app/hooks/useThemeManager.ts:51-52 | the first render has theme `"light"` and is not ready |
| ThemeManager.ThemeHook.MountEffect | src/app/hooks/useThemeManager.ts:54-73 | the mount sets the ready flag and the theme from storage and the dark preference; the browser is only read |
| ThemeManager.ThemeHook.ApplyThemeStyles | src/app/hooks/useThemeManager.ts:75-144 | the sequence of class, storage and style writes produces `StylesApplied` of the old browser state; it fails exactly when the theme is not a valid class token, and then skips the writes after `classList.add` |
| ThemeManager.ThemeHook.ThemeEffect | src/app/hooks/useThemeManager.ts:146-149 | once mounted the styles of the current theme are applied, and the effect fails exactly when the theme is not a valid class token; before that, style, classes and storage are unchanged |
| ThemeManager.ThemeHook.SetTheme | src/app/hooks/useThemeManager.ts:158-160 | `setTheme` records the new theme and changes nothing else: the ready flag is never reset |
| HomePage.ResolveInitialTheme | src/app/page.tsx:58-64 | exactly `"dark"` or `"light"` stored wins; any other value falls through to the dark preference, then to light |
| HomePage.NextVisitRestoresTheme | src/app/page.tsx:58-73 | the theme the page applied is the theme the next visit starts with, whatever the preference then |
| HomePage.NoMatchMediaStartsLight | src/app/page.tsx:55-64 | without `matchMedia` and without a valid stored theme the page starts light |
| HomePage.ShortId | src/app/page.tsx:252 | the shown id is a prefix of the id, of length 8 or the whole id when shorter |
| HomePage.StatusText | src/app/page.tsx:256 | same length as the status, each `_` replaced by a space and every other character kept |
| HomePage.StatusTextHasNoUnderscore | src/app/page.tsx:256 | the shown status has no underscore; a status without one is shown unchanged |
| HomePage.Row | src/app/page.tsx:240-257 | a row is keyed by the game id, links to `/spill/<id>`, shows `ShortId` of the id (a prefix of at most 8 characters) and `StatusText` of the status (same length, no underscores) |
| HomePage.Render | src/app/page.tsx:187-274 | the loading screen exactly while not on the client; otherwise logo and slogan get the theme, the background is dark iff the theme is, the games section is "loading" exactly while loading; otherwise it lists rows exactly when there are games, one row per game in order |
| HomePage.LoadingScreenIgnoresTheme | src/app/page.tsx:187-193 | before the client is ready, the render is the same for every theme and game list |
| HomePage.Home.constructor | src/app/page.tsx:44-51 | the first render has theme light, is not on the client, and shows the loading screen |
| HomePage.Home.MountEffect | src/app/page.tsx:53-66 | the mount sets `isClient` and the theme from the page's own resolution; the browser is only read |
| HomePage.Home.ThemeEffect | src/app/page.tsx:68-131 | on the client the browser becomes `ApplyTheme` of its old state; before that nothing of it changes |
| JsStrings.Trim | src/app/components/home/StyledButton.tsx:75 | `trim` keeps one infix of the input, starting after its leading whitespace, and every character outside it is whitespace; the result has no whitespace at either end and keeps every non-whitespace character in order |
| JsStrings.CollapseLeavesSingleSpaces | src/app/components/home/StyledButton.tsx:76 | after `replace(/\s+/g, " ")` every whitespace character is a plain space and no two are adjacent |
| JsStrings.CollapseKeepsNonWhitespace | src/app/components/home/StyledButton.tsx:76 | the replace keeps every non-whitespace character, in order |
| JsStrings.TrimAndCollapse | src/app/components/home/StyledButton.tsx:75-76 | the result has no whitespace at either end and single spaces between words, and keeps every non-whitespace character in order |
| JsStrings.TrimAndCollapseIsSquash | src/app/components/home/StyledButton.tsx:75-76 | trim then collapse equals the one-pass reference reading |
| JsStrings.NormalizedIsFixpoint | src/app/components/home/StyledButton.tsx:75-76 | a string already in that shape is left unchanged |
| JsStrings.TrimAndCollapseIdempotent | src/app/components/home/StyledButton.tsx:75-76 | normalising twice equals normalising once |
| ButtonStyles.ClassParts | src/app/components/home/StyledButton.tsx:60-74 | the template interpolates nine pieces: the base classes first, then the variant's background, text, border and focus ring, and the caller's `className` last |
| ButtonStyles.PressedLookOnlyWhenEnabled | src/app/components/home/StyledButton.tsx:66-72 | the pressed shadow and `translate-y-1` are chosen iff pressed and enabled, the base shadow and `translate-y-0` otherwise; `opacity-50 cursor-not-allowed` iff disabled, `cursor-pointer` otherwise |
| StyledButton.EffectiveTag | src/app/components/home/StyledButton.tsx:23 | an explicit `as` wins; without it the tag is `"a"` exactly when `href` is truthy |
| StyledButton.LinkBranch | src/app/components/home/StyledButton.tsx:102 | without `as`, a link iff `href` is truthy; with `as="button"` never; with `as="a"` only with a truthy `href` |
| StyledButton.TemplateAddsOnlyWhitespace | src/app/components/home/StyledButton.tsx:60-74 | the template adds only whitespace around the pieces |
| StyledButton.CombinedClasses | src/app/components/home/StyledButton.tsx:60-76 | the class string has no whitespace at either end and no run of two whitespace characters; it keeps every class character of the pieces, in order; it is the reference reading of the template |
| StyledButton.CombinedClassesStable | src/app/components/home/StyledButton.tsx:75-76 | normalising the class string again changes nothing |
| StyledButton.Step | src/app/components/home/StyledButton.tsx:78-100 | while disabled nothing changes; enabled, mouse-down presses, mouse-up, leave and blur release, and focus releases unless the target is the active element |
| StyledButton.DisabledRunKeepsState | src/app/components/home/StyledButton.tsx:78-100 | while disabled, no sequence of events changes `isPressed` |
| StyledButton.EnabledRunFollowsLastEvent | src/app/components/home/StyledButton.tsx:78-93 | while enabled, a sequence ending in mouse-down leaves the button pressed; one ending in mouse-up, leave or blur leaves it released |
| StyledButton.Render | src/app/components/home/StyledButton.tsx:102-152 | a link exactly when `as === "a" && href`, else a `<button>` with the given type (default `"button"`), both with the class string; a disabled link points to `"#"`, is `aria-disabled` and has tab index -1; an enabled one keeps its `href` and has no tab index |
| StyledButton.Click | src/app/components/home/StyledButton.tsx:106-114 | a click on a disabled link is prevented and does not call `onClick`; otherwise nothing is prevented; `onClick` runs iff given and enabled |
| StyledButton.Button.constructor | src/app/components/home/StyledButton.tsx:26 | a new button is not pressed |
| StyledButton.Button.Rerender | src/app/components/home/StyledButton.tsx:16-25 | new props replace the old ones; `isPressed` survives |
| StyledButton.Button.HandleMouseDown | src/app/components/home/StyledButton.tsx:78-81 | `isPressed` becomes `Step` of its old value for mouse-down |
| StyledButton.Button.HandleMouseUp | src/app/components/home/StyledButton.tsx:83-86 | `isPressed` becomes `Step` of its old value for mouse-up |
| StyledButton.Button.HandleMouseLeave | src/app/components/home/StyledButton.tsx:88-93 | `isPressed` becomes `Step` of its old value for mouse-leave |
| StyledButton.Button.HandleFocus | src/app/components/home/StyledButton.tsx:95-100 | `isPressed` becomes `Step` of its old value for focus |
| StyledButton.Button.HandleBlur | src/app/components/home/StyledButton.tsx:124-126 | `isPressed` becomes `Step` of its old value for blur |
| ThemeCopies.ResolutionsAgree | src/app/hooks/useThemeManager.ts:61-71 | the hook's and the page's resolutions agree iff the stored value is absent, empty, `"light"` or `"dark"` |
| ThemeCopies.CopiesApplyAlike | src/app/hooks/useThemeManager.ts:54-149 | on such a stored value, the hook's mount and effect leave the same browser state as the page's |
| ThemeCopies.HookAcceptsUnknownStoredTheme | src/app/hooks/useThemeManager.ts:61-84 | a stored class token other than `light`/`dark`, on a body without `dark`, leaves the body with neither theme class; the string itself becomes a class and is stored again; the dark palette is set |
| ThemeCopies.BlueStoredTheme | src/app/hooks/useThemeManager.ts:61-84 | with `"blue"` stored and a `light` body, the body ends with only the class `blue`, `"blue"` stays stored and the primary background is dark |
| ThemeCopies.HookFailsOnEveryVisit | src/app/hooks/useThemeManager.ts:61-81 | a stored string holding ASCII whitespace becomes the theme; `classList.add` throws, only `light` is removed, nothing is stored or set, and the next mount picks the same string again |
| ThemeCopies.BlueSkyStoredTheme | src/app/hooks/useThemeManager.ts:61-81 | with `"blue sky"` stored and a `light` body, the body ends with no class, no property is set and `"blue sky"` stays stored |
| ThemeCopies.PageThemeIsValidToken | src/app/page.tsx:58-73 | the page's resolution always yields a valid class token, so its `classList.add` never throws |
| ThemeCopies.PageLeavesOneThemeClass | src/app/page.tsx:58-73 | after the page's resolution and application the body has exactly one theme class, and it is the stored one |
| ThemeCopies.HookFirstVisitThenLight | src/app/hooks/useThemeManager.ts:54-160 | with nothing stored and dark preferred, the mounted hook applies `#FFA000`; after `setTheme(light)`, `#FFD700` is applied and `"light"` stored |
| ThemeCopies.PageFirstVisitWithoutMatchMedia | src/app/page.tsx:53-198 | without `matchMedia` the page first shows the loading screen, then the light page with `#FFD700` applied and `"light"` stored |

## Left out

- React scheduling is not modelled: state batching, re-render timing and the order of effects. Each effect is a method the caller runs, and the scenarios run them in React's order.
- `ThemeManager.ThemeHook.ApplyThemeStyles` does not model the `typeof window === "undefined"` early return (src/app/hooks/useThemeManager.ts:76), because the model always runs in a browser.
- What happens after an effect throws (`ThemeManager.ThemeHook.ThemeEffect` returning failure) is not modelled: React's error handling and unmounting. Storage exceptions are not modelled. Neither are changes to the colour-scheme preference after the mount: the preference is an input read once.
- The JavaScript strings are sequences of Unicode code points, not UTF-16 code units. So `HomePage.ShortId` counts code points where `substring(0, 8)` counts code units; the two differ only for ids outside the Basic Multilingual Plane.
- The page's `fetchActiveGames` and `handleStartNewGame` (src/app/page.tsx:136-185) are not modelled: timers, logging, navigation, random ids and dummy data. The game list and its loading flag are fields of `Home` and inputs of the render.
- Locale date and time formatting of a game's creation time (src/app/page.tsx:260-264) is not modelled, because it depends on the host locale.
- The player-count text of a row (src/app/page.tsx:255) is not modelled; it is carried as a number.
- The logo, slogan and play-icon components are not part of this model; the render only records which theme each component is given. Nor are the layout and the Next.js configuration.
- JSX markup and class content outside the class selection are not modelled: the page's fixed class strings and the list-item classes.
- `ButtonStyles.PressedLookOnlyWhenEnabled` is stated for the pieces interpolated into the template, not for the words of the final class string. `StyledButton.CombinedClasses` then states that every class character of the pieces survives, in order.
- `StyledButton.Click` does not model a click on a disabled `<button>`: the browser does not deliver it, and the component does not guard `onClick` there.
- The page calls `setTheme` only in its mount effect (src/app/page.tsx:65). Its user toggle (src/app/page.tsx:277-283) is commented out, so `Home` has no method for it.

## Findings

| source | as written | input that shows it | evidently intended | confidence | as-written member | corrected member |
|---|---|---|---|---|---|---|
| src/app/hooks/useThemeManager.ts:61-68 | the stored value is cast to the light-or-dark type without a check, and any non-empty string becomes the theme | `"goGameTheme"` holds `"blue"` and the body has class `light`: the body ends with class `blue` and neither theme class, the dark palette is applied and `"blue"` is stored again | accept only `"light"` or `"dark"` and fall through to the dark preference otherwise, as the page does; then the body always holds exactly one theme class (`ThemeCopies.PageLeavesOneThemeClass`) | not executed | ThemeCopies.HookAcceptsUnknownStoredTheme | HomePage.ResolveInitialTheme |
| src/app/hooks/useThemeManager.ts:61-81 | a stored value holding whitespace becomes the theme too, and `classList.add` throws on it before `setItem` runs | `"goGameTheme"` holds `"blue sky"` and the body has class `light`: the effect throws after removing `light`, no property is set, `"blue sky"` stays stored, and every later mount throws the same way | accept only `"light"` or `"dark"`, as the page does; its theme is always a valid class token (`ThemeCopies.PageThemeIsValidToken`) | not executed | ThemeCopies.HookFailsOnEveryVisit | HomePage.ResolveInitialTheme |
