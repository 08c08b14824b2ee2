/** The fixed class names of `StyledButton`: the classes every button
    has, the classes of each variant, and the nine pieces the class
    template is built from for a given variant and state.

    The class strings are written as concatenations of short pieces (one
    Tailwind class, or one part of a class, per piece); the values are the
    strings of the component, character for character. */
module ButtonStyles {
  datatype Variant = Primary | Secondary

  /** The variant's name inside its custom-property names. */
  function VariantName(v: Variant): string {
    match v
    case Primary => "primary"
    case Secondary => "secondary"
  }

  /** `var(--button-<variant>-<token>)`. */
  function TokenVar(v: Variant, token: string): string {
    "var(--button-" + VariantName(v) + "-" + token + ")"
  }

  /** The classes of one variant that do not depend on the state. */
  datatype VariantStyle = VariantStyle(bg: string, text: string, border: string, ringFocus: string)

  /** `variantStyles[variant]`: background, text colour, border and focus
      ring, each taken from the variant's custom properties. */
  function StyleOf(v: Variant): VariantStyle {
    VariantStyle(
      "bg-[" + TokenVar(v, "bg") + "]",
      "text-[" + TokenVar(v, "text") + "]",
      "border-[3px] " + "border-[" + TokenVar(v, "border") + "]",
      "focus-visible:" + "ring-[" + TokenVar(v, "border") + "]")
  }

  /** The variant's `shadowPressed` for the pressed look, its `shadowBase`
      otherwise. Both read
      `shadow-[0px_<drop>_0px_var(--button-<variant>-border),_<glow>_var(--button-<variant>-shadow-color)]`:
      the pressed shadow drops by `2px` with glow `1px_3px_5px`, the base
      shadow by `6px` with glow `2px_8px_10px`. */
  function ShadowClass(v: Variant, pressedLook: bool): string {
    var drop := if pressedLook then "2px" else "6px";
    var glow := if pressedLook then "1px_3px_5px" else "2px_8px_10px";
    "shadow-[0px_" + (drop + ShadowRest(v, glow))
  }

  function ShadowRest(v: Variant, glow: string): string {
    "_0px_" + TokenVar(v, "border") + ",_" + glow + "_" + TokenVar(v, "shadow-color") + "]"
  }

  /** `translate-y-1` for the pressed look, `translate-y-0` otherwise. */
  function TranslateClass(pressedLook: bool): string {
    if pressedLook then "translate-y-1" else "translate-y-0"
  }

  /** The classes that show whether the button is disabled. */
  function CursorClass(disabled: bool): string {
    if disabled then "opacity-50 " + "cursor-not-allowed" else "cursor-pointer"
  }

  /** `baseClasses`: the classes every button has, laid out over four
      indented lines as written, with the line breaks and indentation of
      the template literal. */
  function BaseClasses(): string {
    "\n    "
    + "py-[10px] " + "px-[20px] " + "rounded-xl " + "font-bold " + "inline-flex "
    + "items-center " + "justify-center"
    + "\n    "
    + "uppercase " + "tracking-[0.5px] " + "transition-transform "
    + "transition-shadow " + "duration-[80ms]"
    + "\n    "
    + "ease-out " + "text-base " + "leading-normal " + "min-w-[180px]"
    + "\n    "
    + "focus:outline-none " + "focus-visible:ring-2 " + "focus-visible:ring-offset-2"
    + "\n  "
  }

  /** The nine pieces interpolated into the class template, in order. */
  function ClassParts(v: Variant, isPressed: bool, disabled: bool, className: string): (parts: seq<string>)
    ensures |parts| == 9
    ensures parts[0] == BaseClasses() && parts[8] == className
    ensures parts[1..5] == [StyleOf(v).bg, StyleOf(v).text, StyleOf(v).border, StyleOf(v).ringFocus]
  {
    var style := StyleOf(v);
    var pressedLook := isPressed && !disabled;
    [ BaseClasses(), style.bg, style.text, style.border, style.ringFocus,
      ShadowClass(v, pressedLook), TranslateClass(pressedLook), CursorClass(disabled),
      className ]
  }

  /** The pressed look (the variant's `shadowPressed` and `translate-y-1`)
      is chosen exactly when the button is pressed and enabled, and the base
      look (`shadowBase`, `translate-y-0`) otherwise; `opacity-50
      cursor-not-allowed` is chosen exactly when the button is disabled, and
      `cursor-pointer` otherwise. */
  lemma PressedLookOnlyWhenEnabled(v: Variant, isPressed: bool, disabled: bool, className: string)
    ensures var parts := ClassParts(v, isPressed, disabled, className);
      && (parts[5] == ShadowClass(v, true) <==> isPressed && !disabled)
      && (parts[5] == ShadowClass(v, false) <==> !(isPressed && !disabled))
      && (parts[6] == TranslateClass(true) <==> isPressed && !disabled)
      && (parts[6] == TranslateClass(false) <==> !(isPressed && !disabled))
      && (parts[7] == CursorClass(true) <==> disabled)
      && (parts[7] == CursorClass(false) <==> !disabled)
  {
    ShadowsDiffer(v);
    TranslationsDiffer();
    CursorsDiffer();
  }

  /** The two shadows of a variant differ (in their drop). */
  lemma ShadowsDiffer(v: Variant)
    ensures ShadowClass(v, true) != ShadowClass(v, false)
  {
    assert ShadowClass(v, true)[12] == '2' && ShadowClass(v, false)[12] == '6';
  }

  lemma TranslationsDiffer()
    ensures TranslateClass(true) != TranslateClass(false)
  {
    assert TranslateClass(true)[12] == '1';
  }

  lemma CursorsDiffer()
    ensures CursorClass(true) != CursorClass(false)
  {
    assert CursorClass(false)[0] == 'c';
  }
}
