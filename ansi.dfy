// The terminal pane's rendering of the compiler's coloured log as HTML
// (`escapeHtml` and `ansiToHtml` in web/root/src/terminal.ts, repeated
// verbatim in web/root/editor.js). Select Graphic Rendition sequences
// `ESC [ params m` (section 8.3.117 of ECMA-48) update a style of bold,
// dim, foreground and background; the text between sequences is escaped
// and wrapped in a span carrying the style's classes.
//
// Text is a sequence of UTF-16 code units, as JavaScript strings are.

module Ansi {
  import opened Common

  // ---------------------------------------------------------------------
  // Escaping.

  /** `s.replace(/c/g, rep)`. */
  function ReplaceAll(s: string, c: char, rep: string): (r: string)
    decreases |s|
  {
    if s == [] then [] else (if s[0] == c then rep else [s[0]]) + ReplaceAll(s[1..], c, rep)
  }

  /** `escapeHtml`: `&` first, then `<` and `>`. */
  function EscapeHtml(s: string): string
  {
    ReplaceAll(ReplaceAll(ReplaceAll(s, '&', "&amp;"), '<', "&lt;"), '>', "&gt;")
  }

  /** The entity, or the character itself, for one character. */
  function EscapeChar(c: char): string
  {
    if c == '&' then "&amp;" else if c == '<' then "&lt;" else if c == '>' then "&gt;" else [c]
  }

  /** Escaping character by character: the reference for `EscapeHtml`. */
  function EscapeEach(s: string): string
    decreases |s|
  {
    if s == [] then [] else EscapeChar(s[0]) + EscapeEach(s[1..])
  }

  lemma {:induction false} ReplaceAllConcat(a: string, b: string, c: char, rep: string)
    ensures ReplaceAll(a + b, c, rep) == ReplaceAll(a, c, rep) + ReplaceAll(b, c, rep)
    decreases |a|
  {
    if a != [] {
      assert (a + b)[1..] == a[1..] + b;
      ReplaceAllConcat(a[1..], b, c, rep);
    } else {
      assert a + b == b;
    }
  }

  lemma {:induction false} ReplaceAbsent(s: string, c: char, rep: string)
    requires forall k :: 0 <= k < |s| ==> s[k] != c
    ensures ReplaceAll(s, c, rep) == s
    decreases |s|
  {
    if s != [] {
      ReplaceAbsent(s[1..], c, rep);
    }
  }

  lemma EscapeHtmlConcat(a: string, b: string)
    ensures EscapeHtml(a + b) == EscapeHtml(a) + EscapeHtml(b)
  {
    var r1a, r1b := ReplaceAll(a, '&', "&amp;"), ReplaceAll(b, '&', "&amp;");
    ReplaceAllConcat(a, b, '&', "&amp;");
    var r2a, r2b := ReplaceAll(r1a, '<', "&lt;"), ReplaceAll(r1b, '<', "&lt;");
    ReplaceAllConcat(r1a, r1b, '<', "&lt;");
    ReplaceAllConcat(r2a, r2b, '>', "&gt;");
  }

  lemma ReplaceSingle(c: char, x: char, rep: string)
    ensures ReplaceAll([c], x, rep) == if c == x then rep else [c]
  {
    assert [c][1..] == [];
  }

  lemma EscapeHtmlChar(c: char)
    ensures EscapeHtml([c]) == EscapeChar(c)
  {
    hide ReplaceAll;
    var amp, lt, gt := "&amp;", "&lt;", "&gt;";
    ReplaceSingle(c, '&', amp);
    if c == '&' {
      ReplaceAbsent(amp, '<', lt);
      ReplaceAbsent(amp, '>', gt);
    } else {
      ReplaceSingle(c, '<', lt);
      if c == '<' {
        ReplaceAbsent(lt, '>', gt);
      } else {
        ReplaceSingle(c, '>', gt);
      }
    }
  }

  /** The three passes of `escapeHtml` escape each character on its own. */
  lemma {:induction false} EscapeHtmlPerChar(s: string)
    ensures EscapeHtml(s) == EscapeEach(s)
    decreases |s|
  {
    if s != [] {
      assert s == [s[0]] + s[1..];
      EscapeHtmlConcat([s[0]], s[1..]);
      EscapeHtmlChar(s[0]);
      EscapeHtmlPerChar(s[1..]);
    } else {
      assert EscapeHtml(s) == [];
    }
  }

  /** Escaped text holds no markup: no `<` and no `>`. */
  lemma {:induction false} EscapedHasNoTags(s: string)
    ensures forall k :: 0 <= k < |EscapeHtml(s)| ==> EscapeHtml(s)[k] != '<' && EscapeHtml(s)[k] != '>'
    decreases |s|
  {
    EscapeHtmlPerChar(s);
    if s != [] {
      EscapedHasNoTags(s[1..]);
      EscapeHtmlPerChar(s[1..]);
      var head := EscapeChar(s[0]);
      assert forall k :: 0 <= k < |head| ==> head[k] != '<' && head[k] != '>';
    }
  }

  /** Decoding the three entities `escapeHtml` writes. */
  function Unescape(s: string): string
    decreases |s|
  {
    if s == [] then []
    else if |s| >= 5 && s[..5] == "&amp;" then "&" + Unescape(s[5..])
    else if |s| >= 4 && s[..4] == "&lt;" then "<" + Unescape(s[4..])
    else if |s| >= 4 && s[..4] == "&gt;" then ">" + Unescape(s[4..])
    else [s[0]] + Unescape(s[1..])
  }

  lemma UnescapeStep(c: char, t: string)
    ensures Unescape(EscapeChar(c) + t) == [c] + Unescape(t)
  {
    var s := EscapeChar(c) + t;
    if c == '&' {
      assert s[..5] == "&amp;" && s[5..] == t;
    } else if c == '<' {
      assert s[..4] == "&lt;" && s[4..] == t;
      if |s| >= 5 {
        assert s[..5][1] == 'l';
      }
    } else if c == '>' {
      assert s[..4] == "&gt;" && s[4..] == t;
      assert s[..4][1] == 'g';
      if |s| >= 5 {
        assert s[..5][1] == 'g';
      }
    } else {
      assert s[0] == c && s[1..] == t;
    }
  }

  /** Escaping loses nothing: the entities decode to the original text. */
  lemma {:induction false} UnescapeEscape(s: string)
    ensures Unescape(EscapeHtml(s)) == s
    decreases |s|
  {
    EscapeHtmlPerChar(s);
    if s != [] {
      UnescapeStep(s[0], EscapeEach(s[1..]));
      UnescapeEscape(s[1..]);
      EscapeHtmlPerChar(s[1..]);
      assert s == [s[0]] + s[1..];
    }
  }

  // ---------------------------------------------------------------------
  // Styles and SGR codes.

  /** `fg`, `bg`, `bold` and `dim` of `ansiToHtml`. */
  datatype Style = Style(fg: Option<nat>, bg: Option<nat>, bold: bool, dim: bool)

  function Plain(): Style
  {
    Style(None, None, false, false)
  }

  predicate IsFgCode(code: nat)
  {
    (30 <= code <= 37) || (90 <= code <= 97)
  }

  predicate IsBgCode(code: nat)
  {
    (40 <= code <= 47) || (100 <= code <= 107)
  }

  /** One pass of the loop of `applyCodes`. */
  function ApplyCode(st: Style, code: nat): Style
  {
    if code == 0 then Plain()
    else if code == 1 then st.(bold := true)
    else if code == 2 then st.(dim := true)
    else if code == 22 then st.(bold := false, dim := false)
    else if code == 39 then st.(fg := None)
    else if code == 49 then st.(bg := None)
    else if IsFgCode(code) then st.(fg := Some(code))
    else if IsBgCode(code) then st.(bg := Some(code))
    else st
  }

  /** The codes applied in order. */
  function Fold(st: Style, codes: seq<nat>): Style
    decreases |codes|
  {
    if codes == [] then st else ApplyCode(Fold(st, codes[..|codes| - 1]), codes[|codes| - 1])
  }

  /** `applyCodes`: an empty list of codes acts as a single 0. */
  function ApplyCodes(st: Style, codes: seq<nat>): Style
  {
    Fold(st, if codes == [] then [0] else codes)
  }

  /** The four attributes of a style. */
  datatype Attr = Bold | Dim | Fg | Bg

  predicate SameAttr(a: Style, b: Style, attr: Attr)
  {
    match attr
    case Bold => a.bold == b.bold
    case Dim => a.dim == b.dim
    case Fg => a.fg == b.fg
    case Bg => a.bg == b.bg
  }

  /** Whether `code` sets `attr`. */
  predicate Sets(code: nat, attr: Attr)
  {
    match attr
    case Bold => code == 0 || code == 1 || code == 22
    case Dim => code == 0 || code == 2 || code == 22
    case Fg => code == 0 || code == 39 || IsFgCode(code)
    case Bg => code == 0 || code == 49 || IsBgCode(code)
  }

  predicate Touched(codes: seq<nat>, attr: Attr)
  {
    exists k :: 0 <= k < |codes| && Sets(codes[k], attr)
  }

  lemma {:induction false} FoldKeepsUntouched(st: Style, codes: seq<nat>, attr: Attr)
    requires !Touched(codes, attr)
    ensures SameAttr(Fold(st, codes), st, attr)
    decreases |codes|
  {
    if codes != [] {
      var init := codes[..|codes| - 1];
      assert !Sets(codes[|codes| - 1], attr);
      assert !Touched(init, attr) by {
        forall k | 0 <= k < |init| ensures !Sets(init[k], attr) {
          assert init[k] == codes[k];
        }
      }
      FoldKeepsUntouched(st, init, attr);
    }
  }

  /** An attribute the codes set no longer depends on the style they
      started from. */
  lemma {:induction false} FoldForgets(a: Style, b: Style, codes: seq<nat>, attr: Attr)
    requires SameAttr(a, b, attr) || Touched(codes, attr)
    ensures SameAttr(Fold(a, codes), Fold(b, codes), attr)
    decreases |codes|
  {
    if codes != [] {
      var init := codes[..|codes| - 1];
      var last := codes[|codes| - 1];
      if !Sets(last, attr) {
        assert SameAttr(a, b, attr) || Touched(init, attr) by {
          if Touched(codes, attr) {
            var k :| 0 <= k < |codes| && Sets(codes[k], attr);
            assert k < |init| && init[k] == codes[k];
          }
        }
        FoldForgets(a, b, init, attr);
      }
    }
  }

  /** Applying the same codes twice is applying them once. */
  lemma ApplyCodesIdempotent(st: Style, codes: seq<nat>)
    ensures ApplyCodes(ApplyCodes(st, codes), codes) == ApplyCodes(st, codes)
  {
    var cs := if codes == [] then [0] else codes;
    var once := Fold(st, cs);
    forall attr: Attr ensures SameAttr(Fold(once, cs), once, attr) {
      if Touched(cs, attr) {
        FoldForgets(once, st, cs, attr);
      } else {
        FoldKeepsUntouched(once, cs, attr);
      }
    }
    assert SameAttr(Fold(once, cs), once, Bold) && SameAttr(Fold(once, cs), once, Dim);
    assert SameAttr(Fold(once, cs), once, Fg) && SameAttr(Fold(once, cs), once, Bg);
  }

  /** A 0 wipes out everything before it, whatever the starting style. */
  lemma {:induction false} ResetForgets(st: Style, before: seq<nat>, after: seq<nat>)
    ensures Fold(st, before + [0] + after) == Fold(Plain(), after)
    decreases |after|
  {
    var cs := before + [0] + after;
    if after == [] {
      assert cs[..|cs| - 1] == before && cs[|cs| - 1] == 0;
    } else {
      assert cs[..|cs| - 1] == before + [0] + after[..|after| - 1];
      ResetForgets(st, before, after[..|after| - 1]);
    }
  }

  // ---------------------------------------------------------------------
  // Spans.

  /** The classes of a style, in the order bold, dim, fg, bg. */
  function Classes(st: Style): (r: seq<string>)
    ensures r == [] <==> st == Plain()
  {
    (if st.bold then ["ansi-bold"] else [])
    + (if st.dim then ["ansi-dim"] else [])
    + (if st.fg.Some? then ["ansi-fg-" + NatToString(st.fg.value)] else [])
    + (if st.bg.Some? then ["ansi-bg-" + NatToString(st.bg.value)] else [])
  }

  /** `classes.join(" ")`. */
  function JoinSpaced(parts: seq<string>): string
  {
    if parts == [] then [] else if |parts| == 1 then parts[0] else parts[0] + " " + JoinSpaced(parts[1..])
  }

  /** `openSpanIfNeeded`: nothing for empty text, the escaped text when no
      style is active, else one span carrying the style's classes. */
  function OpenSpan(st: Style, text: string): (r: string)
    ensures text == [] ==> r == []
    ensures text != [] && st == Plain() ==> r == EscapeHtml(text)
    ensures text != [] && st != Plain() ==>
      r == "<span class=\"" + JoinSpaced(Classes(st)) + "\">" + EscapeHtml(text) + "</span>"
  {
    if |text| == 0 then ""
    else
      var classes := Classes(st);
      if |classes| == 0 then EscapeHtml(text)
      else "<span class=\"" + JoinSpaced(classes) + "\">" + EscapeHtml(text) + "</span>"
  }

  // ---------------------------------------------------------------------
  // Finding the sequences: the regular expression `\x1b\[([0-9;]*)m`.

  const Esc: char := '\U{001B}'

  predicate IsParam(c: char)
  {
    IsAsciiDigit(c) || c == ';'
  }

  /** The end of the run of parameter characters from `j`. */
  function ParamEnd(s: string, j: nat): (r: nat)
    requires j <= |s|
    ensures j <= r <= |s| && (r < |s| ==> !IsParam(s[r]))
    ensures forall k :: j <= k < r ==> IsParam(s[k])
    decreases |s| - j
  {
    if j < |s| && IsParam(s[j]) then ParamEnd(s, j + 1) else j
  }

  /** The end of the sequence that starts at `i`, if one does. */
  function MatchAt(s: string, i: nat): (r: Option<nat>)
    requires i <= |s|
    ensures r.Some? ==> i + 3 <= r.value <= |s|
  {
    if i + 1 < |s| && s[i] == Esc && s[i + 1] == '[' then
      var j := ParamEnd(s, i + 2);
      if j < |s| && s[j] == 'm' then Some(j + 1) else None
    else None
  }

  /** `ESC_RE.exec` from `lastIndex` = `from`: the first sequence at or
      after `from`, as its start and its end. */
  function NextMatch(s: string, from: nat): (r: Option<(nat, nat)>)
    requires from <= |s|
    ensures r.Some? ==> from <= r.value.0 < |s| && MatchAt(s, r.value.0) == Some(r.value.1)
    ensures r.Some? ==> forall i :: from <= i < r.value.0 ==> MatchAt(s, i).None?
    ensures r.None? ==> forall i :: from <= i <= |s| ==> MatchAt(s, i).None?
    decreases |s| - from
  {
    match MatchAt(s, from)
    case Some(k) => Some((from, k))
    case None => if from == |s| then None else NextMatch(s, from + 1)
  }

  /** `str.split(";")`. */
  function SplitOn(s: string, c: char): (r: seq<string>)
    ensures |r| >= 1
    ensures (forall k :: 0 <= k < |s| ==> IsParam(s[k])) && c == ';' ==>
      forall i :: 0 <= i < |r| ==> AllDigits(r[i])
    decreases |s|
  {
    var j := FindFrom(s, c, 0);
    if j == |s| then
      FindFromSkips(s, c, 0);
      [s]
    else
      FindFromSkips(s, c, 0);
      [s[..j]] + SplitOn(s[j + 1..], c)
  }

  /** The codes of a sequence's parameters: none for an empty parameter
      string, else `Number` of each `;`-separated piece, where an empty
      piece is 0. */
  function ParseCodes(params: string): (r: seq<nat>)
    requires forall k :: 0 <= k < |params| ==> IsParam(params[k])
    ensures params == [] ==> r == []
  {
    if params == [] then []
    else
      var pieces := SplitOn(params, ';');
      seq(|pieces|, i requires 0 <= i < |pieces| => DecimalValue(pieces[i]))
  }

  /** The codes of the sequence from `i` to `k`. */
  function CodesOf(s: string, i: nat, k: nat): seq<nat>
    requires i <= |s| && MatchAt(s, i) == Some(k)
  {
    ParseCodes(s[i + 2..k - 1])
  }

  // ---------------------------------------------------------------------
  // The whole translation.

  /** The output from `from` on in style `st`: each stretch of text before
      a sequence in the style in force, then the rest after the codes of
      that sequence. */
  function Render(s: string, from: nat, st: Style): string
    requires from <= |s|
    decreases |s| - from
  {
    match NextMatch(s, from)
    case None => OpenSpan(st, s[from..])
    case Some((i, k)) => OpenSpan(st, s[from..i]) + Render(s, k, ApplyCodes(st, CodesOf(s, i, k)))
  }

  lemma RenderStep(s: string, from: nat, st: Style, i: nat, k: nat)
    requires from <= |s| && NextMatch(s, from) == Some((i, k))
    ensures Render(s, from, st) == OpenSpan(st, s[from..i]) + Render(s, k, ApplyCodes(st, CodesOf(s, i, k)))
  {
  }

  lemma RenderLast(s: string, from: nat, st: Style)
    requires from <= |s| && NextMatch(s, from).None?
    ensures Render(s, from, st) == OpenSpan(st, s[from..])
  {
  }

  /** `ansiToHtml`: the style starts plain and persists from one stretch of
      text to the next. */
  method AnsiToHtml(input: string) returns (out: string)
    ensures out == Render(input, 0, Plain())
  {
    hide Render, OpenSpan, ParseCodes, ApplyCodes, NextMatch;
    out := "";
    var lastIndex := 0;
    var style := Plain();
    var m := NextMatch(input, 0);
    while m.Some?
      invariant lastIndex <= |input| && m == NextMatch(input, lastIndex)
      invariant out + Render(input, lastIndex, style) == Render(input, 0, Plain())
      decreases |input| - lastIndex
    {
      var (i, k) := m.value;
      RenderStep(input, lastIndex, style, i, k);
      var chunk := input[lastIndex..i];
      out := out + OpenSpan(style, chunk);
      var codes := ParseCodes(input[i + 2..k - 1]);
      style := ApplyCodesTo(style, codes);
      lastIndex := k;
      m := NextMatch(input, lastIndex);
    }
    RenderLast(input, lastIndex, style);
    out := out + OpenSpan(style, input[lastIndex..]);
  }

  /** The loop of `applyCodes` over the style variables. */
  method ApplyCodesTo(st: Style, codes: seq<nat>) returns (r: Style)
    ensures r == ApplyCodes(st, codes)
  {
    var cs := if |codes| == 0 then [0] else codes;
    r := st;
    var i := 0;
    while i < |cs|
      invariant i <= |cs| && r == Fold(st, cs[..i])
    {
      assert cs[..i + 1][..i] == cs[..i];
      r := ApplyCode(r, cs[i]);
      i := i + 1;
    }
    assert cs[..i] == cs;
  }

  // ---------------------------------------------------------------------
  // What the translation shows.

  /** The text with every sequence removed. */
  function Strip(s: string, from: nat): string
    requires from <= |s|
    decreases |s| - from
  {
    match NextMatch(s, from)
    case None => s[from..]
    case Some((i, k)) => s[from..i] + Strip(s, k)
  }

  /** Every sequence from `from` on leaves a plain style plain. */
  predicate StaysPlain(s: string, from: nat)
    requires from <= |s|
    decreases |s| - from
  {
    match NextMatch(s, from)
    case None => true
    case Some((i, k)) => ApplyCodes(Plain(), CodesOf(s, i, k)) == Plain() && StaysPlain(s, k)
  }

  /** While no style is ever active, the output is the escaped text with the
      sequences taken out: the sequences are removed and the text between
      them kept, in order. */
  lemma {:induction false} PlainRendering(s: string, from: nat)
    requires from <= |s| && StaysPlain(s, from)
    ensures Render(s, from, Plain()) == EscapeHtml(Strip(s, from))
    decreases |s| - from
  {
    match NextMatch(s, from)
    case None =>
      assert EscapeHtml([]) == [];
    case Some((i, k)) =>
      PlainRendering(s, k);
      EscapeHtmlConcat(s[from..i], Strip(s, k));
      assert EscapeHtml([]) == [];
  }

  lemma {:induction false} NoEscapeNoMatch(s: string, from: nat)
    requires from <= |s| && forall k :: 0 <= k < |s| ==> s[k] != Esc
    ensures NextMatch(s, from).None?
    decreases |s| - from
  {
    assert MatchAt(s, from).None?;
    if from < |s| {
      NoEscapeNoMatch(s, from + 1);
    }
  }

  /** Text without an escape character is only escaped. */
  lemma NoSequenceOnlyEscapes(s: string)
    requires forall k :: 0 <= k < |s| ==> s[k] != Esc
    ensures Render(s, 0, Plain()) == EscapeHtml(s)
  {
    NoEscapeNoMatch(s, 0);
    assert s[0..] == s;
    assert EscapeHtml([]) == [];
  }
}
