/** The parts of the browser that the theme code reads and writes: the
    inline style of the root element (`document.documentElement.style`), the
    class list of `document.body`, the origin's `localStorage`, and the
    `(prefers-color-scheme: dark)` media query. All of them are shared by
    every component of the page. */
module Dom {
  import opened Wrappers

  /** `localStorage.getItem(key)`: the stored string, or `null`. The same
      lookup reads one custom property of a style declaration. */
  function GetItem(storage: map<string, string>, key: string): (r: Option<string>)
    ensures r.Some? <==> key in storage
    ensures r.Some? ==> r.value == storage[key]
  {
    if key in storage then Some(storage[key]) else None
  }

  /** `window.matchMedia && window.matchMedia("(prefers-color-scheme: dark)").matches`:
      a browser without `matchMedia` counts as not preferring dark. */
  function PrefersDark(hasMatchMedia: bool, darkQueryMatches: bool): (r: bool)
    ensures r ==> hasMatchMedia
    ensures hasMatchMedia ==> r == darkQueryMatches
  {
    hasMatchMedia && darkQueryMatches
  }

  /** ASCII whitespace as the DOM defines it: tab, line feed, form feed,
      carriage return and space. */
  predicate IsAsciiWhitespace(c: char) {
    c == '\t' || c == '\n' || c == '\U{C}' || c == '\r' || c == ' '
  }

  /** A token `DOMTokenList.add` accepts: not empty and free of ASCII
      whitespace. */
  predicate ValidToken(c: string) {
    c != "" && forall i :: 0 <= i < |c| ==> !IsAsciiWhitespace(c[i])
  }

  /** The observable state the theme code writes. */
  datatype Snapshot = Snapshot(
    style: map<string, string>,
    bodyClasses: set<string>,
    storage: map<string, string>)

  class Browser {
    /** Custom properties set on the root element's inline style. */
    var style: map<string, string>
    /** `document.body.classList`. */
    var bodyClasses: set<string>
    /** `localStorage`. */
    var storage: map<string, string>
    /** Whether `window.matchMedia` exists. */
    const hasMatchMedia: bool
    /** What the dark color-scheme query reports, when it can be asked. */
    const darkQueryMatches: bool

    constructor (style: map<string, string>, bodyClasses: set<string>,
                 storage: map<string, string>, hasMatchMedia: bool, darkQueryMatches: bool)
      ensures this.style == style && this.bodyClasses == bodyClasses && this.storage == storage
      ensures this.hasMatchMedia == hasMatchMedia && this.darkQueryMatches == darkQueryMatches
    {
      this.style := style;
      this.bodyClasses := bodyClasses;
      this.storage := storage;
      this.hasMatchMedia := hasMatchMedia;
      this.darkQueryMatches := darkQueryMatches;
    }

    function Snap(): Snapshot
      reads this
    {
      Snapshot(style, bodyClasses, storage)
    }

    /** `root.style.setProperty(name, value)`: overwrites one property. */
    method SetProperty(name: string, value: string)
      modifies this`style
      ensures style == old(style)[name := value]
    {
      style := style[name := value];
    }

    /** `document.body.classList.add(c)`. A token that is empty or holds
        ASCII whitespace makes the call throw (a `SyntaxError` or an
        `InvalidCharacterError`) before the list changes; `ok` is false
        exactly then. */
    method ClassListAdd(c: string) returns (ok: bool)
      modifies this`bodyClasses
      ensures ok <==> ValidToken(c)
      ensures ok ==> bodyClasses == old(bodyClasses) + {c}
      ensures !ok ==> bodyClasses == old(bodyClasses)
    {
      if !ValidToken(c) {
        return false;
      }
      bodyClasses := bodyClasses + {c};
      return true;
    }

    /** `document.body.classList.remove(c)`. */
    method ClassListRemove(c: string)
      modifies this`bodyClasses
      ensures bodyClasses == old(bodyClasses) - {c}
    {
      bodyClasses := bodyClasses - {c};
    }

    /** `localStorage.setItem(key, value)`. */
    method SetItem(key: string, value: string)
      modifies this`storage
      ensures storage == old(storage)[key := value]
    {
      storage := storage[key := value];
    }
  }
}
