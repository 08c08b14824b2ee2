/** `StyledButton`: a button or link with a pressed look. Its props pick the
    element (`<Link>` or `<button>`) and the variant's colours; a piece of
    state, `isPressed`, is switched by the mouse and focus handlers, each of
    which does nothing while the button is disabled; and all of it is folded
    into one class string that is trimmed and has its whitespace runs
    collapsed. */
module StyledButton {
  import opened Wrappers
  import opened JsStrings
  import opened ButtonStyles

  datatype ButtonType = ButtonType | SubmitType | ResetType

  /** The `as` prop: `"button"` or `"a"`. */
  datatype Tag = ButtonTag | AnchorTag

  /** The props as the caller passes them; `None` is a prop left out. */
  datatype Props = Props(
    href: Option<string>,
    hasOnClick: bool,
    variant: Option<Variant>,
    className: Option<string>,
    buttonType: Option<ButtonType>,
    asTag: Option<Tag>,
    disabled: Option<bool>)

  /** JavaScript truthiness of the `href` prop: given and not empty. */
  predicate HrefGiven(href: Option<string>) {
    href.Some? && href.value != ""
  }

  /** The `as` prop after its default `href ? "a" : "button"`. */
  function EffectiveTag(asTag: Option<Tag>, href: Option<string>): (r: Tag)
    ensures asTag.Some? ==> r == asTag.value
    ensures asTag.None? ==> (r == AnchorTag <==> HrefGiven(href))
  {
    match asTag
    case Some(t) => t
    case None => if HrefGiven(href) then AnchorTag else ButtonTag
  }

  function IsDisabled(p: Props): bool {
    p.disabled.GetOr(false)
  }

  /** The link branch is taken when `as === "a" && href`. */
  predicate RendersLink(p: Props) {
    EffectiveTag(p.asTag, p.href) == AnchorTag && HrefGiven(p.href)
  }

  /** Without an explicit `as`, the component is a link exactly when an
      `href` is given; with `as="button"` it never is, and with `as="a"` it
      still needs an `href`. */
  lemma LinkBranch(p: Props)
    ensures p.asTag.None? ==> (RendersLink(p) <==> HrefGiven(p.href))
    ensures p.asTag == Some(ButtonTag) ==> !RendersLink(p)
    ensures p.asTag == Some(AnchorTag) ==> (RendersLink(p) <==> HrefGiven(p.href))
  {
  }

  /** The template literal: each piece on a line of its own, indented by
      four spaces, and a final line break with two spaces. */
  function Template(parts: seq<string>): string {
    if parts == [] then "\n  " else "\n    " + parts[0] + Template(parts[1..])
  }

  function Concat(parts: seq<string>): string {
    if parts == [] then "" else parts[0] + Concat(parts[1..])
  }

  /** The template adds only whitespace around the pieces. */
  lemma {:induction false} TemplateAddsOnlyWhitespace(parts: seq<string>)
    ensures NonWhitespace(Template(parts)) == NonWhitespace(Concat(parts))
  {
    if parts == [] {
      NoWhitespaceLeft("\n  ");
    } else {
      var rest := parts[1..];
      TemplateAddsOnlyWhitespace(rest);
      var indent := "\n    ";
      assert forall i :: 0 <= i < |indent| ==> IsWhitespace(indent[i]);
      assert Template(parts) == indent + (parts[0] + Template(rest));
      NonWhitespaceOfDropped(parts[0] + Template(rest), indent);
      NonWhitespaceAppend(parts[0], Template(rest));
      NonWhitespaceAppend(parts[0], Concat(rest));
    }
  }

  /** `combinedClasses`: the template, trimmed, with each whitespace run
      replaced by one space. The result has no whitespace at either end, no
      run of two whitespace characters, and every class character of the
      pieces in order; it is the one-pass reading of the template. */
  function CombinedClasses(v: Variant, isPressed: bool, disabled: bool, className: string): (r: string)
    ensures IsNormalized(r)
    ensures NonWhitespace(r) == NonWhitespace(Concat(ClassParts(v, isPressed, disabled, className)))
    ensures r == Squash(Template(ClassParts(v, isPressed, disabled, className)), BeforeFirstWord)
  {
    var template := Template(ClassParts(v, isPressed, disabled, className));
    TemplateAddsOnlyWhitespace(ClassParts(v, isPressed, disabled, className));
    TrimAndCollapseIsSquash(template);
    TrimAndCollapse(template)
  }

  /** The class string is already in normal form: trimming and collapsing
      it again gives it back unchanged. */
  lemma CombinedClassesStable(v: Variant, isPressed: bool, disabled: bool, className: string)
    ensures var r := CombinedClasses(v, isPressed, disabled, className);
      TrimAndCollapse(r) == r
  {
    NormalizedIsFixpoint(CombinedClasses(v, isPressed, disabled, className));
  }

  /** An event a handler of the component reacts to. `Focus` carries
      whether the focused element is already `document.activeElement`. */
  datatype Event = MouseDown | MouseUp | MouseLeave | Focus(targetIsActive: bool) | Blur

  /** The value of `isPressed` after one event: nothing changes while
      disabled; otherwise mouse-down presses, mouse-up, mouse-leave and blur
      release, and focus releases only when the target is not the active
      element. */
  function Step(isPressed: bool, disabled: bool, e: Event): (r: bool)
    ensures disabled ==> r == isPressed
    ensures !disabled && e == MouseDown ==> r
    ensures !disabled && (e == MouseUp || e == MouseLeave || e == Blur) ==> !r
    ensures !disabled && e.Focus? ==> (r <==> isPressed && e.targetIsActive)
  {
    if disabled then isPressed
    else match e
      case MouseDown => true
      case MouseUp => false
      case MouseLeave => if isPressed then false else isPressed
      case Focus(targetIsActive) => if isPressed && !targetIsActive then false else isPressed
      case Blur => false
  }

  /** `isPressed` after a sequence of events under fixed props. */
  function Run(isPressed: bool, disabled: bool, events: seq<Event>): bool
    decreases |events|
  {
    if events == [] then isPressed else Run(Step(isPressed, disabled, events[0]), disabled, events[1..])
  }

  /** While disabled, no sequence of events changes `isPressed`. */
  lemma {:induction false} DisabledRunKeepsState(isPressed: bool, events: seq<Event>)
    ensures Run(isPressed, true, events) == isPressed
    decreases |events|
  {
    if events != [] {
      DisabledRunKeepsState(Step(isPressed, true, events[0]), events[1..]);
    }
  }

  /** While enabled, the last of mouse-down, mouse-up, mouse-leave and blur
      decides: a sequence ending in mouse-down leaves the button pressed, one
      ending in a release leaves it released. */
  lemma {:induction false} EnabledRunFollowsLastEvent(isPressed: bool, events: seq<Event>)
    requires events != [] && !events[|events| - 1].Focus?
    ensures Run(isPressed, false, events) <==> events[|events| - 1] == MouseDown
    decreases |events|
  {
    if |events| > 1 {
      EnabledRunFollowsLastEvent(Step(isPressed, false, events[0]), events[1..]);
    }
  }

  /** The element the component renders. */
  datatype Element =
    | LinkElement(href: string, className: string, ariaDisabled: bool, tabIndex: Option<int>)
    | ButtonElement(buttonType: ButtonType, className: string, disabled: bool)

  /** The render: a `<Link>` when `as === "a" && href`, a `<button>`
      otherwise, both with the same class string. A disabled link points to
      `"#"` and is taken out of the tab order. */
  function Render(p: Props, isPressed: bool): (e: Element)
    ensures e.LinkElement? <==> RendersLink(p)
    ensures e.className == CombinedClasses(p.variant.GetOr(Primary), isPressed, IsDisabled(p), p.className.GetOr(""))
    ensures e.LinkElement? ==> e.ariaDisabled == IsDisabled(p)
    ensures e.LinkElement? && IsDisabled(p) ==> e.href == "#" && e.tabIndex == Some(-1)
    ensures e.LinkElement? && !IsDisabled(p) ==> e.href == p.href.value && e.tabIndex.None?
    ensures e.ButtonElement? ==> e.disabled == IsDisabled(p) && e.buttonType == p.buttonType.GetOr(ButtonType)
  {
    var disabled := IsDisabled(p);
    var classes := CombinedClasses(p.variant.GetOr(Primary), isPressed, disabled, p.className.GetOr(""));
    if RendersLink(p) then
      LinkElement(if disabled then "#" else p.href.value, classes, disabled, if disabled then Some(-1) else None)
    else
      ButtonElement(p.buttonType.GetOr(ButtonType), classes, disabled)
  }

  /** What a click does. */
  datatype ClickResult = ClickResult(defaultPrevented: bool, onClickCalled: bool)

  /** A click on the rendered element. On a link, `handleClickForLink`
      cancels the navigation and skips `onClick` when disabled, and calls
      `onClick` otherwise. A `<button>` gets `onClick` as it is; the browser
      does not deliver clicks to a disabled button. */
  function Click(p: Props): (r: ClickResult)
    ensures RendersLink(p) && IsDisabled(p) ==> r.defaultPrevented && !r.onClickCalled
    ensures !(RendersLink(p) && IsDisabled(p)) ==> !r.defaultPrevented
    ensures r.onClickCalled <==> p.hasOnClick && !IsDisabled(p)
  {
    if RendersLink(p) then
      if IsDisabled(p) then ClickResult(true, false)
      else ClickResult(false, p.hasOnClick)
    else
      ClickResult(false, p.hasOnClick && !IsDisabled(p))
  }

  /** One mounted instance: the props of the latest render and the
      `isPressed` state, which survives re-renders. */
  class Button {
    var props: Props
    var isPressed: bool

    constructor (props: Props)
      ensures this.props == props && !isPressed
    {
      this.props := props;
      isPressed := false;
    }

    function Disabled(): bool
      reads this
    {
      IsDisabled(props)
    }

    /** The element for the current props and state. */
    function View(): Element
      reads this
    {
      Render(props, isPressed)
    }

    /** A re-render with new props keeps `isPressed`. */
    method Rerender(newProps: Props)
      modifies this`props
      ensures props == newProps
    {
      props := newProps;
    }

    method HandleMouseDown()
      modifies this`isPressed
      ensures isPressed == Step(old(isPressed), Disabled(), MouseDown)
    {
      if Disabled() {
        return;
      }
      isPressed := true;
    }

    method HandleMouseUp()
      modifies this`isPressed
      ensures isPressed == Step(old(isPressed), Disabled(), MouseUp)
    {
      if Disabled() {
        return;
      }
      isPressed := false;
    }

    method HandleMouseLeave()
      modifies this`isPressed
      ensures isPressed == Step(old(isPressed), Disabled(), MouseLeave)
    {
      if Disabled() {
        return;
      }
      if isPressed {
        isPressed := false;
      }
    }

    method HandleFocus(targetIsActive: bool)
      modifies this`isPressed
      ensures isPressed == Step(old(isPressed), Disabled(), Focus(targetIsActive))
    {
      if Disabled() {
        return;
      }
      if isPressed && !targetIsActive {
        isPressed := false;
      }
    }

    method HandleBlur()
      modifies this`isPressed
      ensures isPressed == Step(old(isPressed), Disabled(), Blur)
    {
      if !Disabled() {
        isPressed := false;
      }
    }
  }
}
