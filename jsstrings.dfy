/** The JavaScript string built-ins that the button's class string is run
    through: `String.prototype.trim` followed by `replace(/\s+/g, " ")`.
    Both use one notion of whitespace, the ECMAScript WhiteSpace and
    LineTerminator code points, so one predicate serves for both. */
module JsStrings {

  /** A code point matched by `\s` and removed by `trim`. */
  predicate IsWhitespace(c: char) {
    || c == '\t' || c == '\n' || c == '\U{B}' || c == '\U{C}' || c == '\r'
    || c == ' ' || c == '\U{A0}' || c == '\U{1680}'
    || ('\U{2000}' <= c <= '\U{200A}')
    || c == '\U{2028}' || c == '\U{2029}' || c == '\U{202F}' || c == '\U{205F}'
    || c == '\U{3000}' || c == '\U{FEFF}'
  }

  /** The characters of `s` that are not whitespace, in order. */
  function NonWhitespace(s: string): string {
    if s == [] then []
    else (if IsWhitespace(s[0]) then [] else [s[0]]) + NonWhitespace(s[1..])
  }

  lemma {:induction false} NonWhitespaceAppend(a: string, b: string)
    ensures NonWhitespace(a + b) == NonWhitespace(a) + NonWhitespace(b)
  {
    if a == [] {
      assert a + b == b;
    } else {
      assert (a + b)[0] == a[0];
      assert (a + b)[1..] == a[1..] + b;
      NonWhitespaceAppend(a[1..], b);
    }
  }

  /** How many whitespace characters `s` starts with. */
  function LeadingWhitespace(s: string): (n: nat)
    ensures n <= |s|
    ensures forall i :: 0 <= i < n ==> IsWhitespace(s[i])
    ensures n == |s| || !IsWhitespace(s[n])
  {
    if s != [] && IsWhitespace(s[0]) then 1 + LeadingWhitespace(s[1..]) else 0
  }

  /** How many whitespace characters `s` ends with. */
  function TrailingWhitespace(s: string): (n: nat)
    ensures n <= |s|
    ensures forall i :: |s| - n <= i < |s| ==> IsWhitespace(s[i])
    ensures n == |s| || !IsWhitespace(s[|s| - n - 1])
  {
    if s != [] && IsWhitespace(s[|s| - 1]) then 1 + TrailingWhitespace(s[..|s| - 1]) else 0
  }

  /** `s` with its leading whitespace removed. */
  function TrimStart(s: string): string {
    s[LeadingWhitespace(s)..]
  }

  /** `s` with its trailing whitespace removed. */
  function TrimEnd(s: string): string {
    s[..|s| - TrailingWhitespace(s)]
  }

  /** Dropping whitespace keeps every other character. */
  lemma {:induction false} NonWhitespaceOfDropped(kept: string, dropped: string)
    requires forall i :: 0 <= i < |dropped| ==> IsWhitespace(dropped[i])
    ensures NonWhitespace(dropped + kept) == NonWhitespace(kept)
    ensures NonWhitespace(kept + dropped) == NonWhitespace(kept)
  {
    NonWhitespaceAppend(dropped, kept);
    NonWhitespaceAppend(kept, dropped);
    NoWhitespaceLeft(dropped);
  }

  lemma {:induction false} NoWhitespaceLeft(w: string)
    requires forall i :: 0 <= i < |w| ==> IsWhitespace(w[i])
    ensures NonWhitespace(w) == []
  {
    if w != [] {
      NoWhitespaceLeft(w[1..]);
    }
  }

  /** `String.prototype.trim`: whitespace removed at both ends, and nothing else. */
  function Trim(s: string): (r: string)
    ensures |r| <= |s|
    ensures r == [] || (!IsWhitespace(r[0]) && !IsWhitespace(r[|r| - 1]))
    ensures NonWhitespace(r) == NonWhitespace(s)
    ensures LeadingWhitespace(s) + |r| <= |s| && r == s[LeadingWhitespace(s)..LeadingWhitespace(s) + |r|]
    ensures forall i :: 0 <= i < |s| && !(LeadingWhitespace(s) <= i < LeadingWhitespace(s) + |r|) ==> IsWhitespace(s[i])
  {
    var t := TrimStart(s);
    var r := TrimEnd(t);
    TrimIsInfix(s);
    TrimStartSplits(s);
    NonWhitespaceOfDropped(t, s[..|s| - |t|]);
    TrimEndSplits(t);
    NonWhitespaceOfDropped(r, t[|r|..]);
    TrimEndEnds(t);
    r
  }

  /** Trimming keeps one infix of `s`, starting after the leading
      whitespace; every character outside it is whitespace. */
  lemma TrimIsInfix(s: string)
    ensures var n := LeadingWhitespace(s);
      var r := TrimEnd(TrimStart(s));
      && n + |r| <= |s| && r == s[n..n + |r|]
      && forall i :: 0 <= i < |s| && !(n <= i < n + |r|) ==> IsWhitespace(s[i])
  {
    var n := LeadingWhitespace(s);
    var t := TrimStart(s);
    var m := TrailingWhitespace(t);
    assert |TrimEnd(t)| == |t| - m;
    forall i | n + |t| - m <= i < |s|
      ensures IsWhitespace(s[i])
    {
      assert s[i] == t[i - n];
    }
  }

  /** What `TrimStart` drops is whitespace. */
  lemma TrimStartSplits(s: string)
    ensures var w := s[..|s| - |TrimStart(s)|];
      && s == w + TrimStart(s)
      && forall i :: 0 <= i < |w| ==> IsWhitespace(w[i])
  {
  }

  /** `TrimEnd` keeps the first character and ends on a non-whitespace
      one. */
  lemma TrimEndEnds(t: string)
    ensures var r := TrimEnd(t);
      r == [] || (r[0] == t[0] && !IsWhitespace(r[|r| - 1]))
  {
  }

  /** `replace(/\s+/g, " ")`: every maximal run of whitespace becomes one space. */
  function CollapseWhitespace(s: string): (r: string)
    decreases |s|
  {
    if s == [] then []
    else if IsWhitespace(s[0]) then " " + CollapseWhitespace(TrimStart(s))
    else [s[0]] + CollapseWhitespace(s[1..])
  }

  /** `replace(/\s+/g, " ")` keeps a non-whitespace character at either end
      and turns leading whitespace into one space. */
  lemma {:induction false} CollapseKeepsEnds(s: string)
    ensures var r := CollapseWhitespace(s);
      && |r| <= |s|
      && (s == [] <==> r == [])
      && (s != [] && !IsWhitespace(s[0]) ==> r[0] == s[0])
      && (s != [] && IsWhitespace(s[0]) ==> r[0] == ' ')
      && (s != [] && !IsWhitespace(s[|s| - 1]) ==> r[|r| - 1] == s[|s| - 1])
    decreases |s|
  {
    if s == [] {
    } else if IsWhitespace(s[0]) {
      var rest := TrimStart(s);
      CollapseKeepsEnds(rest);
      if !IsWhitespace(s[|s| - 1]) {
        assert rest != [] && rest[|rest| - 1] == s[|s| - 1];
      }
    } else {
      var tail := s[1..];
      CollapseKeepsEnds(tail);
      if tail != [] {
        assert tail[|tail| - 1] == s[|s| - 1];
      }
    }
  }

  /** Every whitespace character of `s` is a plain space. */
  predicate SpacesOnly(s: string) {
    forall i :: 0 <= i < |s| && IsWhitespace(s[i]) ==> s[i] == ' '
  }

  /** No two whitespace characters of `s` are adjacent. */
  predicate NoWhitespaceRun(s: string) {
    forall i :: 0 <= i < |s| - 1 ==> !IsWhitespace(s[i]) || !IsWhitespace(s[i + 1])
  }

  /** Putting a word character, or a space before a word, in front keeps
      both shapes. */
  lemma ConsKeepsSingleSpaces(x: char, c: string)
    requires SpacesOnly(c) && NoWhitespaceRun(c)
    requires IsWhitespace(x) ==> x == ' ' && (c == [] || !IsWhitespace(c[0]))
    ensures SpacesOnly([x] + c) && NoWhitespaceRun([x] + c)
  {
    var r := [x] + c;
    assert forall i :: 1 <= i < |r| ==> r[i] == c[i - 1];
  }

  /** After `replace(/\s+/g, " ")` every whitespace character is a plain
      space and no two of them are adjacent. */
  lemma {:induction false} CollapseLeavesSingleSpaces(s: string)
    ensures SpacesOnly(CollapseWhitespace(s)) && NoWhitespaceRun(CollapseWhitespace(s))
    decreases |s|
  {
    if s != [] {
      var rest := if IsWhitespace(s[0]) then TrimStart(s) else s[1..];
      CollapseLeavesSingleSpaces(rest);
      CollapseKeepsEnds(rest);
      var c := CollapseWhitespace(rest);
      if IsWhitespace(s[0]) {
        assert rest == [] || !IsWhitespace(rest[0]);
        ConsKeepsSingleSpaces(' ', c);
        assert CollapseWhitespace(s) == [' '] + c;
      } else {
        ConsKeepsSingleSpaces(s[0], c);
        assert CollapseWhitespace(s) == [s[0]] + c;
      }
    }
  }

  /** `replace(/\s+/g, " ")` keeps every non-whitespace character, in order. */
  lemma {:induction false} CollapseKeepsNonWhitespace(s: string)
    ensures NonWhitespace(CollapseWhitespace(s)) == NonWhitespace(s)
    decreases |s|
  {
    if s == [] {
    } else if IsWhitespace(s[0]) {
      var rest := TrimStart(s);
      CollapseKeepsNonWhitespace(rest);
      var c := CollapseWhitespace(rest);
      assert (" " + c)[1..] == c;
      assert s == s[..|s| - |rest|] + rest;
      NonWhitespaceOfDropped(rest, s[..|s| - |rest|]);
    } else {
      CollapseKeepsNonWhitespace(s[1..]);
      var c := CollapseWhitespace(s[1..]);
      assert ([s[0]] + c)[1..] == c;
    }
  }

  /** The shape `trim()` followed by `replace(/\s+/g, " ")` leaves behind:
      no whitespace at either end, and every gap between two words is a
      single plain space. */
  predicate IsNormalized(s: string) {
    && (s == [] || (!IsWhitespace(s[0]) && !IsWhitespace(s[|s| - 1])))
    && SpacesOnly(s)
    && NoWhitespaceRun(s)
  }

  /** `s.trim().replace(/\s+/g, " ")`. */
  function TrimAndCollapse(s: string): (r: string)
    ensures IsNormalized(r)
    ensures NonWhitespace(r) == NonWhitespace(s)
  {
    var t := Trim(s);
    CollapseKeepsEnds(t);
    CollapseLeavesSingleSpaces(t);
    CollapseKeepsNonWhitespace(t);
    CollapseWhitespace(t)
  }

  /** Where a left-to-right reading of the string stands. */
  datatype Phase = BeforeFirstWord | InWord | AfterWord

  /** A reference reading of the same normalisation, one character at a
      time: whitespace before the first word and after the last is dropped,
      and whitespace between two words is written as one space when the
      next word starts. */
  function Squash(s: string, phase: Phase): string {
    if s == [] then []
    else if IsWhitespace(s[0]) then
      Squash(s[1..], if phase == BeforeFirstWord then BeforeFirstWord else AfterWord)
    else
      (if phase == AfterWord then " " else "") + [s[0]] + Squash(s[1..], InWord)
  }

  /** Leading whitespace is skipped without output outside a word. */
  lemma {:induction false} SquashSkipsLeading(s: string, phase: Phase)
    requires phase != InWord
    ensures Squash(s, phase) == Squash(TrimStart(s), phase)
  {
    if s != [] && IsWhitespace(s[0]) {
      SquashSkipsLeading(s[1..], phase);
    }
  }

  /** Whitespace alone produces nothing, whatever the phase. */
  lemma {:induction false} SquashOfWhitespace(w: string, phase: Phase)
    requires forall i :: 0 <= i < |w| ==> IsWhitespace(w[i])
    ensures Squash(w, phase) == []
  {
    if w != [] {
      SquashOfWhitespace(w[1..], if phase == BeforeFirstWord then BeforeFirstWord else AfterWord);
    }
  }

  /** Trailing whitespace produces nothing. */
  lemma {:induction false} SquashIgnoresTrailing(a: string, w: string, phase: Phase)
    requires forall i :: 0 <= i < |w| ==> IsWhitespace(w[i])
    ensures Squash(a + w, phase) == Squash(a, phase)
  {
    if a == [] {
      assert a + w == w;
      SquashOfWhitespace(w, phase);
    } else {
      assert (a + w)[0] == a[0];
      assert (a + w)[1..] == a[1..] + w;
      var next := if IsWhitespace(a[0]) then (if phase == BeforeFirstWord then BeforeFirstWord else AfterWord) else InWord;
      SquashIgnoresTrailing(a[1..], w, next);
    }
  }

  /** Within or after a word, a run of whitespace followed by more text
      reads as one space. */
  lemma SquashGapIsOneSpace(u: string)
    requires u != [] && IsWhitespace(u[0])
    requires LeadingWhitespace(u) < |u|
    ensures Squash(u, InWord) == " " + Squash(TrimStart(u), InWord)
  {
    var rest := TrimStart(u);
    TrimStartOfTail(u);
    SquashSkipsLeading(u[1..], AfterWord);
    SquashNextWord(rest);
  }

  /** Dropping one leading whitespace character does not change what
      `TrimStart` leaves. */
  lemma TrimStartOfTail(u: string)
    requires u != [] && IsWhitespace(u[0])
    ensures TrimStart(u[1..]) == TrimStart(u)
  {
    var n := LeadingWhitespace(u);
    assert LeadingWhitespace(u[1..]) == n - 1;
    assert u[1..][n - 1..] == u[n..];
  }

  /** After a word, the next word is preceded by one space. */
  lemma SquashNextWord(w: string)
    requires w != [] && !IsWhitespace(w[0])
    ensures Squash(w, AfterWord) == " " + Squash(w, InWord)
  {
    var tail := Squash(w[1..], InWord);
    assert Squash(w, AfterWord) == " " + [w[0]] + tail;
    assert Squash(w, InWord) == "" + [w[0]] + tail;
    assert " " + [w[0]] + tail == " " + ([w[0]] + tail);
  }

  /** Inside a word, collapsing whitespace runs agrees with the reference,
      for text that does not end in whitespace. */
  lemma {:induction false} CollapseIsSquash(u: string)
    requires u == [] || !IsWhitespace(u[|u| - 1])
    ensures CollapseWhitespace(u) == Squash(u, InWord)
    decreases |u|
  {
    if u == [] {
    } else if IsWhitespace(u[0]) {
      var rest := TrimStart(u);
      assert LeadingWhitespace(u) < |u|;
      assert rest[|rest| - 1] == u[|u| - 1];
      CollapseIsSquash(rest);
      SquashGapIsOneSpace(u);
    } else {
      assert u[1..] == [] || u[1..][|u[1..]| - 1] == u[|u| - 1];
      CollapseIsSquash(u[1..]);
    }
  }

  /** What `TrimEnd` drops is whitespace. */
  lemma TrimEndSplits(t: string)
    ensures var w := t[|TrimEnd(t)|..];
      && t == TrimEnd(t) + w
      && forall i :: 0 <= i < |w| ==> IsWhitespace(w[i])
  {
    var w := t[|TrimEnd(t)|..];
    assert forall i :: 0 <= i < |w| ==> w[i] == t[|TrimEnd(t)| + i];
  }

  /** Text that starts with a word reads the same before the first word
      and inside a word. */
  lemma SquashFromWordStart(u: string)
    requires u == [] || !IsWhitespace(u[0])
    ensures Squash(u, BeforeFirstWord) == Squash(u, InWord)
  {
  }

  /** The reference reading skips what `trim` removes, and once the text
      starts with a word it reads as from inside a word. */
  lemma SquashOfTrim(s: string)
    ensures Squash(s, BeforeFirstWord) == Squash(Trim(s), InWord)
  {
    var t := TrimStart(s);
    var u := Trim(s);
    assert u == TrimEnd(t);
    SquashSkipsLeading(s, BeforeFirstWord);
    TrimEndSplits(t);
    SquashIgnoresTrailing(u, t[|u|..], BeforeFirstWord);
    SquashFromWordStart(u);
  }

  /** `trim()` then `replace(/\s+/g, " ")` is the one-pass reference reading. */
  lemma TrimAndCollapseIsSquash(s: string)
    ensures TrimAndCollapse(s) == Squash(s, BeforeFirstWord)
  {
    SquashOfTrim(s);
    CollapseIsSquash(Trim(s));
  }

  /** Collapsing changes nothing once runs are single spaces. */
  lemma {:induction false} CollapseFixpoint(s: string)
    requires SpacesOnly(s) && NoWhitespaceRun(s)
    ensures CollapseWhitespace(s) == s
  {
    if s != [] {
      var tail := s[1..];
      assert forall i :: 0 <= i < |tail| ==> tail[i] == s[i + 1];
      assert SpacesOnly(tail) && NoWhitespaceRun(tail);
      CollapseFixpoint(tail);
      if IsWhitespace(s[0]) {
        assert tail == [] || !IsWhitespace(tail[0]);
        assert TrimStart(tail) == tail;
        assert TrimStart(s) == tail;
        assert CollapseWhitespace(s) == " " + tail;
      } else {
        assert CollapseWhitespace(s) == [s[0]] + tail;
      }
    }
  }

  /** Normalising an already normalised string changes nothing; in
      particular `TrimAndCollapse` is idempotent. */
  lemma NormalizedIsFixpoint(s: string)
    requires IsNormalized(s)
    ensures TrimAndCollapse(s) == s
  {
    if s != [] {
      assert LeadingWhitespace(s) == 0;
      assert TrailingWhitespace(s) == 0;
    }
    assert Trim(s) == s;
    CollapseFixpoint(s);
  }

  lemma TrimAndCollapseIdempotent(s: string)
    ensures TrimAndCollapse(TrimAndCollapse(s)) == TrimAndCollapse(s)
  {
    NormalizedIsFixpoint(TrimAndCollapse(s));
  }
}
