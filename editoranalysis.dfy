// The editor's analysis of the source (web/root/editor.js): CSS classes for
// the lexer's tokens and for diagnostics by severity, and the marks laid
// over the document, each range clamped into the document first.

module EditorAnalysis {
  import opened Common

  /** `tokenClass`: the class for a token kind; the six bracket kinds share
      the prefix "rb-", and an unknown kind is styled as an identifier. */
  function TokenClass(kind: string): (r: string)
    ensures r == "rb-" <==> kind in {"lpar", "lbrace", "lbracket", "rpar", "rbrace", "rbracket"}
  {
    if kind == "comment" then "tok-comment"
    else if kind == "keyword" then "tok-keyword"
    else if kind == "error" then "tok-error"
    else if kind == "ident" then "tok-ident"
    else if kind == "punc" then "tok-punc"
    else if kind == "string" then "tok-string"
    else if kind in {"lpar", "lbrace", "lbracket", "rpar", "rbrace", "rbracket"} then "rb-"
    else "tok-ident"
  }

  /** The class of a token's mark: a bracket's class ends in its scope
      level. */
  function TokenMarkClass(kind: string, scopeLevel: nat): string
  {
    var tc := TokenClass(kind);
    if tc == "rb-" then tc + NatToString(scopeLevel) else tc
  }

  /** Brackets at different scope levels get different classes. */
  lemma BracketClassesByLevel(kind: string, a: nat, b: nat)
    requires TokenClass(kind) == "rb-" && TokenMarkClass(kind, a) == TokenMarkClass(kind, b)
    ensures a == b
  {
    assert NatToString(a) == TokenMarkClass(kind, a)[3..];
    assert NatToString(b) == TokenMarkClass(kind, b)[3..];
    NatToStringInjective(a, b);
  }

  /** `toLowerCase` on the letters A to Z. */
  function ToLower(s: string): (r: string)
    ensures |r| == |s|
    ensures forall k :: 0 <= k < |s| ==>
      if 'A' <= s[k] <= 'Z' then 'a' <= r[k] <= 'z' && r[k] as int - 'a' as int == s[k] as int - 'A' as int
      else r[k] == s[k]
  {
    seq(|s|, k requires 0 <= k < |s| => if 'A' <= s[k] <= 'Z' then (s[k] as int + 32) as char else s[k])
  }

  /** `severityClass`: a missing or empty severity counts as "error";
      warning and info, in any case, have their own classes. */
  function SeverityClass(sev: Option<string>): (r: string)
    ensures r == "cm-diag-warning" <==> sev.Some? && ToLower(sev.value) == "warning"
    ensures r == "cm-diag-info" <==> sev.Some? && ToLower(sev.value) == "info"
    ensures sev.None? ==> r == "cm-diag-error"
  {
    var s := ToLower(if sev.None? || sev.value == "" then "error" else sev.value);
    if s == "warning" then "cm-diag-warning"
    else if s == "info" then "cm-diag-info"
    else "cm-diag-error"
  }

  /** `sevRank`. */
  function SevRank(sev: string): (r: nat)
    ensures 1 <= r <= 3
    ensures r == 3 <==> sev == "error"
    ensures r == 2 <==> sev == "warning"
  {
    if sev == "error" then 3 else if sev == "warning" then 2 else 1
  }

  /** A lexer token as the editor receives it: UTF-16 offsets. */
  datatype Token = Token(start: int, end: int, scopeLevel: nat, kind: string)

  /** A compiler diagnostic; an absent offset is `undefined`. */
  datatype Diagnostic = Diagnostic(level: Option<string>, message: string, start: Option<int>, end: Option<int>)

  /** A decoration over `[from, to)` with a class. */
  datatype Mark = Mark(from: int, to: int, cls: string)

  function Max(a: int, b: int): int
  {
    if a >= b then a else b
  }

  function Min(a: int, b: int): int
  {
    if a <= b then a else b
  }

  /** The start clamped into `[0, docLen]`, and the end into
      `[start, docLen]`. */
  function Clamp(start: int, end: int, docLen: nat): (r: (int, int))
    ensures 0 <= r.0 <= r.1 <= docLen
    ensures 0 <= start <= end <= docLen ==> r == (start, end)
  {
    var s := Max(0, Min(docLen, start));
    (s, Max(s, Min(docLen, end)))
  }

  /** Clamping a clamped range changes nothing. */
  lemma ClampIdempotent(start: int, end: int, docLen: nat)
    ensures var (s, e) := Clamp(start, end, docLen); Clamp(s, e, docLen) == (s, e)
  {
  }

  /** The mark for a token, when its clamped range is not empty. */
  function TokenMark(t: Token, docLen: nat): (r: Option<Mark>)
    ensures r.Some? ==> 0 <= r.value.from < r.value.to <= docLen
  {
    var (s, e) := Clamp(t.start, t.end, docLen);
    if e > s then Some(Mark(s, e, TokenMarkClass(t.kind, t.scopeLevel))) else None
  }

  /** The mark for a diagnostic with both offsets: its clamped range, or one
      character from its start when that range is empty. */
  function DiagnosticMark(d: Diagnostic, docLen: nat): (r: Option<Mark>)
    ensures r.Some? ==> 0 <= r.value.from < r.value.to <= docLen
  {
    if d.start.None? || d.end.None? then None
    else
      var (s, e) := Clamp(d.start.value, d.end.value, docLen);
      var cls := SeverityClass(d.level);
      if e > s then Some(Mark(s, e, cls))
      else
        var widened := Min(docLen, s + 1);
        if widened > s then Some(Mark(s, widened, cls)) else None
  }

  /** A diagnostic with both offsets is shown unless its start clamps to the
      end of the document; an empty range becomes one character wide. */
  lemma DiagnosticShown(d: Diagnostic, docLen: nat)
    requires d.start.Some? && d.end.Some?
    ensures var (s, e) := Clamp(d.start.value, d.end.value, docLen);
      && (DiagnosticMark(d, docLen).Some? <==> s < docLen)
      && (s < docLen && e == s ==> DiagnosticMark(d, docLen).value.to == s + 1)
      && (DiagnosticMark(d, docLen).Some? ==> DiagnosticMark(d, docLen).value.from == s)
  {
  }

  /** The marks of a sequence of tokens, in order. */
  function TokenMarks(tokens: seq<Token>, docLen: nat): seq<Mark>
    decreases |tokens|
  {
    if tokens == [] then []
    else
      var init := TokenMarks(tokens[..|tokens| - 1], docLen);
      match TokenMark(tokens[|tokens| - 1], docLen)
      case Some(m) => init + [m]
      case None => init
  }

  function DiagnosticMarks(log: seq<Diagnostic>, docLen: nat): seq<Mark>
    decreases |log|
  {
    if log == [] then []
    else
      var init := DiagnosticMarks(log[..|log| - 1], docLen);
      match DiagnosticMark(log[|log| - 1], docLen)
      case Some(m) => init + [m]
      case None => init
  }

  /** Every mark lies inside the document and covers at least one unit. */
  ghost predicate Inside(marks: seq<Mark>, docLen: nat)
  {
    forall k :: 0 <= k < |marks| ==> 0 <= marks[k].from < marks[k].to <= docLen
  }

  lemma {:induction false} TokenMarksInside(tokens: seq<Token>, docLen: nat)
    ensures Inside(TokenMarks(tokens, docLen), docLen)
    ensures |TokenMarks(tokens, docLen)| <= |tokens|
    decreases |tokens|
  {
    if tokens != [] {
      TokenMarksInside(tokens[..|tokens| - 1], docLen);
    }
  }

  lemma {:induction false} DiagnosticMarksInside(log: seq<Diagnostic>, docLen: nat)
    ensures Inside(DiagnosticMarks(log, docLen), docLen)
    ensures |DiagnosticMarks(log, docLen)| <= |log|
    decreases |log|
  {
    if log != [] {
      DiagnosticMarksInside(log[..|log| - 1], docLen);
    }
  }

  /** The two loops of `buildAnalysis` that fill `marks`: the tokens' marks,
      then the diagnostics'. */
  method BuildMarks(tokens: seq<Token>, log: seq<Diagnostic>, docLen: nat) returns (marks: seq<Mark>)
    ensures marks == TokenMarks(tokens, docLen) + DiagnosticMarks(log, docLen)
    ensures Inside(marks, docLen)
  {
    var tokenMarks := MarkTokens(tokens, docLen);
    marks := MarkDiagnostics(tokenMarks, log, docLen);
    TokenMarksInside(tokens, docLen);
    DiagnosticMarksInside(log, docLen);
  }

  /** The loop over the tokens. */
  method MarkTokens(tokens: seq<Token>, docLen: nat) returns (marks: seq<Mark>)
    ensures marks == TokenMarks(tokens, docLen)
  {
    hide TokenClass, NatToString;
    marks := [];
    var i := 0;
    while i < |tokens|
      invariant i <= |tokens| && marks == TokenMarks(tokens[..i], docLen)
    {
      var tok := tokens[i];
      var start := Max(0, Min(docLen, tok.start));
      var end := Max(start, Min(docLen, tok.end));
      var tc := TokenClass(tok.kind);
      if tc == "rb-" {
        tc := tc + NatToString(tok.scopeLevel);
      }
      if end > start {
        marks := marks + [Mark(start, end, tc)];
      }
      assert tokens[..i + 1][..i] == tokens[..i];
      i := i + 1;
    }
    assert tokens[..i] == tokens;
  }

  /** The loop over the diagnostics, appending to the tokens' marks. */
  method MarkDiagnostics(init: seq<Mark>, log: seq<Diagnostic>, docLen: nat) returns (marks: seq<Mark>)
    ensures marks == init + DiagnosticMarks(log, docLen)
  {
    hide SeverityClass;
    marks := init;
    var j := 0;
    while j < |log|
      invariant j <= |log| && marks == init + DiagnosticMarks(log[..j], docLen)
    {
      var d := log[j];
      assert log[..j + 1][..j] == log[..j];
      j := j + 1;
      if d.start.None? || d.end.None? {
        continue;
      }
      var start := Max(0, Min(docLen, d.start.value));
      var end := Max(start, Min(docLen, d.end.value));
      var cls := SeverityClass(d.level);
      if end > start {
        marks := marks + [Mark(start, end, cls)];
      } else {
        var widened := Min(docLen, start + 1);
        if widened > start {
          marks := marks + [Mark(start, widened, cls)];
        }
      }
    }
    assert log[..j] == log;
  }
}
