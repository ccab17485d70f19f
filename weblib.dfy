// The WebAssembly bindings the web editor calls (web_lib/src/lib.rs):
// `lex`, which turns the loader's token stream into highlighting tokens
// carrying a class and a bracket depth, and `compile`, which runs the
// universal loader and hands back its diagnostics.
//
// The loader's spans are byte offsets into UTF-8 text, while JavaScript
// indexes strings by UTF-16 code units, so every offset handed to the
// editor has to be converted.

module WebLib {
  import opened Common
  import Lexer
  import Log
  import LoaderContext
  import LP = LegacyParserSpec
  import ParserSpec
  import Automatan
  import Loader
  import FiniteAutomata
  import PushdownAutomata
  import TuringMachines

  /** The highlighting class of a token. */
  datatype Kind = Ident | Keyword | Error | Comment | Punc | LPar | LBrace | LBracket | RPar | RBrace | RBracket

  /** `Tok`: a highlighted range, in UTF-16 code units. */
  datatype Tok = Tok(start: nat, end: nat, scopeLevel: nat, kind: Kind)

  predicate Opening(k: Kind)
  {
    k == LPar || k == LBrace || k == LBracket
  }

  predicate Closing(k: Kind)
  {
    k == RPar || k == RBrace || k == RBracket
  }

  /** Identifiers highlighted as keywords wherever they stand. */
  const KEYWORD_NAMES: set<string> := {
    LP.EPSILON_LOWER, "epsilon", LoaderContext.DELTA_LOWER, "delta",
    LoaderContext.GAMMA_UPPER, "gamma", LP.GAMMA_LOWER, LoaderContext.SIGMA_UPPER, "sigma"}

  // ---------------------------------------------------------------------
  // Offsets.

  /** The characters of `s` that lie within its first `b` bytes. */
  function BytePrefix(s: string, b: nat): (r: string)
    ensures r <= s && Utf8Width(r) <= b
    ensures |r| < |s| ==> b < Utf8Width(s[..|r| + 1])
    decreases |s|
  {
    if Utf8Width(s) <= b then s
    else
      var r := BytePrefix(s[..|s| - 1], b);
      assert |r| < |s| - 1 ==> s[..|s| - 1][..|r| + 1] == s[..|r| + 1];
      assert |r| == |s| - 1 ==> s[..|r| + 1] == s;
      r
  }

  /** At a character boundary the byte prefix is exactly the characters before it. */
  lemma BytePrefixOffset(s: string, k: nat)
    requires k <= |s|
    ensures BytePrefix(s, Offset(s, k)) == s[..k]
  {
    var r := BytePrefix(s, Offset(s, k));
    assert r == s[..|r|];
    if |r| < k {
      OffsetMonotone(s, |r| + 1, k);
      assert false;
    } else if |r| > k {
      OffsetMonotone(s, k, |r|);
      assert false;
    }
  }

  /** A byte offset in UTF-16 code units, as `lex` counts it. */
  function Utf16Offset(s: string, b: nat): nat
  {
    Utf16Width(BytePrefix(s, b))
  }

  lemma Utf16OffsetAt(s: string, k: nat)
    requires k <= |s|
    ensures Utf16Offset(s, Offset(s, k)) == Utf16Width(s[..k])
  {
    BytePrefixOffset(s, k);
  }

  /** A string is as long in UTF-16 code units as in characters exactly
      when it has no character outside the Basic Multilingual Plane. */
  lemma {:induction false} Utf16WidthCounts(t: string)
    ensures |t| <= Utf16Width(t)
    ensures Utf16Width(t) == |t| <==> forall k :: 0 <= k < |t| ==> t[k] as int < 0x10000
    decreases |t|
  {
    if t != [] {
      var init := t[..|t| - 1];
      Utf16WidthCounts(init);
      assert forall k :: 0 <= k < |init| ==> init[k] == t[k];
    }
  }

  // ---------------------------------------------------------------------
  // Classes and bracket depth.

  /** The text after the last line feed of `p`, what
      `split("\n").last()` yields. */
  function LastLine(p: string): (r: string)
    ensures |r| <= |p| && r == p[|p| - |r|..]
    ensures '\n' !in r
    ensures |r| < |p| ==> p[|p| - |r| - 1] == '\n'
    decreases |p|
  {
    if p == [] || p[|p| - 1] == '\n' then []
    else
      var init := p[..|p| - 1];
      var r := LastLine(init);
      assert p[|p| - |r| - 1..] == init[|init| - |r|..] + [p[|p| - 1]];
      r + [p[|p| - 1]]
  }

  /** Only white space stands between the start of the line and the end of `before`. */
  predicate StartsLine(before: string)
  {
    AllWhitespace(LastLine(before))
  }

  /** The class of a lexed item; `first` tells whether only white space
      precedes it on its line. */
  function KindOf(res: Lexer.LexResult, first: bool): (r: Kind)
    ensures r == Error <==> res.Err?
    ensures r == Keyword <==> res == Lexer.Ok(Lexer.Tilde) || (res.Ok? && res.token.Ident? && (first || res.token.name in KEYWORD_NAMES))
    ensures r == Ident <==> res.Ok? && res.token.Ident? && !first && res.token.name !in KEYWORD_NAMES
    ensures r == Comment <==> res.Ok? && res.token.Comment?
    ensures r == Punc <==> res.Ok? && res.token in {Lexer.Eq, Lexer.Comma, Lexer.Or, Lexer.Plus, Lexer.Star, Lexer.And, Lexer.LSmallArrow, Lexer.LBigArrow, Lexer.LineEnd}
    ensures Opening(r) <==> res.Ok? && res.token in {Lexer.LPar, Lexer.LBrace, Lexer.LBracket}
    ensures Closing(r) <==> res.Ok? && res.token in {Lexer.RPar, Lexer.RBrace, Lexer.RBracket}
  {
    match res
    case Err(_) => Error
    case Ok(t) =>
      match t
      case LPar => LPar
      case RPar => RPar
      case LBrace => LBrace
      case RBrace => RBrace
      case LBracket => LBracket
      case RBracket => RBracket
      case Tilde => Keyword
      case Comment(_) => Comment
      case Ident(name) => if first || name in KEYWORD_NAMES then Keyword else Ident
      case _ => Punc
  }

  /** A token of class `k` met at bracket depth `depth`: the level it
      reports and the depth after it. An opener reports the depth outside
      it, a closer the depth it returns to, never below zero. */
  function Scoped(depth: nat, k: Kind): (r: (nat, nat))
    ensures Opening(k) ==> r.1 == depth + 1 && r.0 == depth
    ensures Closing(k) ==> r.0 == r.1 && r.1 == (if depth == 0 then 0 else depth - 1)
    ensures !Opening(k) && !Closing(k) ==> r == (depth, depth)
  {
    if Opening(k) then (depth, depth + 1)
    else if Closing(k) then (if depth == 0 then (0, 0) else (depth - 1, depth - 1))
    else (depth, depth)
  }

  function ItemKind(s: string, item: Lexer.LexItem): Kind
  {
    KindOf(item.value, StartsLine(BytePrefix(s, item.span.start)))
  }

  /** The bracket depth after the items `items`. */
  function Depth(s: string, items: seq<Lexer.LexItem>): nat
    decreases |items|
  {
    if items == [] then 0
    else Scoped(Depth(s, items[..|items| - 1]), ItemKind(s, items[|items| - 1])).1
  }

  /** The highlighting tokens of the items `items` lexed from `s`. */
  function Toks(s: string, items: seq<Lexer.LexItem>): (r: seq<Tok>)
    ensures |r| == |items|
    decreases |items|
  {
    if items == [] then []
    else
      var init, it := items[..|items| - 1], items[|items| - 1];
      var k := ItemKind(s, it);
      Toks(s, init) + [Tok(Utf16Offset(s, it.span.start), Utf16Offset(s, it.span.end), Scoped(Depth(s, init), k).0, k)]
  }

  /** Token `k` converts item `k`: its offsets in UTF-16 units, its class,
      and the level the depth before it gives. */
  lemma {:induction false} TokAt(s: string, items: seq<Lexer.LexItem>, k: nat)
    requires k < |items|
    ensures Toks(s, items)[k] == Tok(Utf16Offset(s, items[k].span.start), Utf16Offset(s, items[k].span.end),
      Scoped(Depth(s, items[..k]), ItemKind(s, items[k])).0, ItemKind(s, items[k]))
    decreases |items|
  {
    hide ItemKind, Utf16Offset, Scoped, Depth;
    var init := items[..|items| - 1];
    if k < |init| {
      TokAt(s, init, k);
      assert init[..k] == items[..k];
    }
  }

  lemma DepthSnoc(s: string, items: seq<Lexer.LexItem>, it: Lexer.LexItem)
    ensures Depth(s, items + [it]) == Scoped(Depth(s, items), ItemKind(s, it)).1
    ensures Toks(s, items + [it]) == Toks(s, items) + [Tok(Utf16Offset(s, it.span.start), Utf16Offset(s, it.span.end),
      Scoped(Depth(s, items), ItemKind(s, it)).0, ItemKind(s, it))]
  {
    hide ItemKind, Utf16Offset, Scoped;
    assert (items + [it])[..|items|] == items;
  }

  /** Token `k` is classed by the text of its line before it, and a lexical
      error is highlighted at the depth the items before it leave. */
  lemma TokClass(s: string, items: seq<Lexer.LexItem>, k: nat, j: nat)
    requires k < |items| && j <= |s| && items[k].span.start == Offset(s, j)
    ensures Toks(s, items)[k].kind == KindOf(items[k].value, StartsLine(s[..j]))
    ensures items[k].value.Err? ==> Toks(s, items)[k].kind == Error && Toks(s, items)[k].scopeLevel == Depth(s, items[..k])
  {
    TokAt(s, items, k);
    ItemKindAt(s, items[k], j);
  }

  /** An opener and the closer that brings the depth back to where the
      opener found it report the same level, so matching brackets share a
      colour. */
  lemma MatchingBracketsShareLevel(s: string, items: seq<Lexer.LexItem>, i: nat, j: nat)
    requires i < j < |items|
    requires Opening(ItemKind(s, items[i])) && Closing(ItemKind(s, items[j]))
    requires Depth(s, items[..j]) == Depth(s, items[..i]) + 1
    ensures Toks(s, items)[i].scopeLevel == Toks(s, items)[j].scopeLevel == Depth(s, items[..i])
  {
    hide ItemKind, Utf16Offset, Scoped, Depth;
    TokAt(s, items, i);
    TokAt(s, items, j);
  }

  // ---------------------------------------------------------------------
  // `lex`.

  /** One scan of the lexer, in terms of the items it leaves to lex. */
  lemma LexAllStep(s: string, i: nat, step: Lexer.LexStep, done: seq<Lexer.LexItem>)
    requires i <= |s| && step == Lexer.Scan(s, i)
    ensures step.End? ==> Lexer.LexAll(s, i) == Some([]) && done + Lexer.LexAll(s, i).value == done
    ensures step.Panic? ==> Lexer.LexAll(s, i).None?
    ensures step.Emit? ==> (Lexer.LexAll(s, i).Some? <==> Lexer.LexAll(s, step.next).Some?)
    ensures step.Emit? && Lexer.LexAll(s, i).Some? ==>
      done + Lexer.LexAll(s, i).value == (done + [step.item]) + Lexer.LexAll(s, step.next).value
  {
    if step.Emit? && Lexer.LexAll(s, i).Some? {
      assert Lexer.LexAll(s, i).value == [step.item] + Lexer.LexAll(s, step.next).value;
    }
  }

  /** The running UTF-16 index of `lex` meets the converted span of an item
      whose characters are `j..n`. */
  lemma ItemOffsets(s: string, i: nat, j: nat, n: nat, index16: nat)
    requires i <= j <= n <= |s| && index16 == Utf16Width(s[..i])
    ensures Utf16Offset(s, Offset(s, j)) == index16 + Utf16Width(s[i..j])
    ensures Utf16Offset(s, Offset(s, n)) == index16 + Utf16Width(s[i..j]) + Utf16Width(s[j..n]) == Utf16Width(s[..n])
  {
    assert s[..j] == s[..i] + s[i..j] && s[..n] == s[..j] + s[j..n];
    Utf16WidthConcat(s[..i], s[i..j]);
    Utf16WidthConcat(s[..j], s[j..n]);
    Utf16OffsetAt(s, j);
    Utf16OffsetAt(s, n);
  }

  /** `lex` classifies an item starting at character `j` by the text of its line before `j`. */
  lemma ItemKindAt(s: string, item: Lexer.LexItem, j: nat)
    requires j <= |s| && item.span.start == Offset(s, j)
    ensures ItemKind(s, item) == KindOf(item.value, StartsLine(s[..j]))
  {
    BytePrefixOffset(s, j);
  }

  /** What `lex` computes for one more item, from the running UTF-16 index
      `index16` of character `i` and the item's characters `j..n`. */
  lemma LexStepToks(s: string, done: seq<Lexer.LexItem>, item: Lexer.LexItem, i: nat, j: nat, n: nat,
                    index16: nat, start: nat, end: nat, kind: Kind, level: nat, depth: nat)
    requires i <= j <= n <= |s| && index16 == Utf16Width(s[..i])
    requires item.span == Span(Offset(s, j), Offset(s, n))
    requires start == index16 + Utf16Width(s[i..j]) && end == start + Utf16Width(s[j..n])
    requires kind == KindOf(item.value, StartsLine(s[..j]))
    requires (level, depth) == Scoped(Depth(s, done), kind)
    ensures end == Utf16Width(s[..n])
    ensures Depth(s, done + [item]) == depth
    ensures Toks(s, done + [item]) == Toks(s, done) + [Tok(start, end, level, kind)]
  {
    hide *;
    ItemKindAt(s, item, j);
    ItemOffsets(s, i, j, n, index16);
    DepthSnoc(s, done, item);
  }

  /** The closure `lex` maps over the lexer: one item, whose characters
      are `j..n`, met with the UTF-16 index `index16` of character `i` and
      the bracket depth `scopeLevel` the items `done` before it leave. */
  method Convert(input: string, ghost done: seq<Lexer.LexItem>, item: Lexer.LexItem, i: nat, j: nat, n: nat, index16: nat, scopeLevel: nat)
    returns (tok: Tok, index16After: nat, scopeAfter: nat)
    requires i <= j <= n <= |input| && index16 == Utf16Width(input[..i])
    requires item.span == Span(Offset(input, j), Offset(input, n))
    requires scopeLevel == Depth(input, done)
    ensures index16After == Utf16Width(input[..n])
    ensures scopeAfter == Depth(input, done + [item])
    ensures Toks(input, done + [item]) == Toks(input, done) + [tok]
  {
    var start := index16 + Utf16Width(input[i..j]);
    var end := start + Utf16Width(input[j..n]);
    var kind := KindOf(item.value, StartsLine(input[..j]));
    var level, depth := Scoped(scopeLevel, kind).0, Scoped(scopeLevel, kind).1;
    LexStepToks(input, done, item, i, j, n, index16, start, end, kind, level, depth);
    tok, index16After, scopeAfter := Tok(start, end, level, kind), end, depth;
  }

  /** `lex`: the highlighting tokens of `input`, or None where the loader's
      lexer panics (a line comment that runs to the end of the input). */
  method Lex(input: string) returns (r: Option<seq<Tok>>)
    ensures r.Some? <==> Lexer.LexAll(input, 0).Some?
    ensures r.Some? ==> r.value == Toks(input, Lexer.LexAll(input, 0).value)
  {
    assert Toks(input, []) == [] && Depth(input, []) == 0;
    var scopeLevel: nat := 0;
    var index16: nat := 0;
    var i: nat := 0;
    var toks: seq<Tok> := [];
    ghost var done: seq<Lexer.LexItem> := [];
    while true
      invariant i <= |input| && index16 == Utf16Width(input[..i])
      invariant toks == Toks(input, done) && scopeLevel == Depth(input, done)
      invariant Lexer.LexAll(input, 0).Some? <==> Lexer.LexAll(input, i).Some?
      invariant Lexer.LexAll(input, 0).Some? ==> Lexer.LexAll(input, 0).value == done + Lexer.LexAll(input, i).value
      decreases |input| - i
    {
      var step := Lexer.Scan(input, i);
      LexAllStep(input, i, step, done);
      if step.End? {
        return Some(toks);
      } else if step.Panic? {
        return None;
      }
      var item, n := step.item, step.next;
      var j := Lexer.SkipBlank(input, i);
      var tok;
      tok, index16, scopeLevel := Convert(input, done, item, i, j, n, index16, scopeLevel);
      toks := toks + [tok];
      done := done + [item];
      i := n;
    }
  }

  /** A token's offsets in the editor are the UTF-16 lengths of the text
      before it and of its own text. */
  lemma {:induction false} TokOffsets(s: string, items: seq<Lexer.LexItem>, k: nat, a: nat, b: nat)
    requires k < |items| && a <= b <= |s|
    requires items[k].span == Span(Offset(s, a), Offset(s, b))
    ensures Toks(s, items)[k].start == Utf16Width(s[..a])
    ensures Toks(s, items)[k].end == Toks(s, items)[k].start + Utf16Width(s[a..b])
  {
    hide ItemKind, Utf16Offset, Scoped, Depth;
    TokAt(s, items, k);
    Utf16OffsetAt(s, a);
    Utf16OffsetAt(s, b);
    assert s[..b] == s[..a] + s[a..b];
    Utf16WidthConcat(s[..a], s[a..b]);
  }

  // ---------------------------------------------------------------------
  // `compile`.

  /** `LogLevel` of the bindings; the loader's Help level has no counterpart. */
  datatype Level = InfoLevel | WarningLevel | ErrorLevel

  function LevelOf(l: Log.LogLevel): (r: Option<Level>)
    ensures r.None? <==> l == Log.Help
    ensures r == Some(ErrorLevel) <==> l == Log.Error
  {
    match l
    case Info => Some(InfoLevel)
    case Warning => Some(WarningLevel)
    case Error => Some(ErrorLevel)
    case Help => None
  }

  datatype CompileLog = CompileLog(level: Option<Level>, message: string, start: Option<nat>, end: Option<nat>)

  /** `machine` stays the loaded machine; its JSON text is not modelled. */
  datatype CompileResult = CompileResult(log: seq<CompileLog>, ansiLog: string, machine: Option<Loader.Machine>)

  /** A diagnostic with its span in UTF-16 code units, the unit `lex` uses. */
  function Diagnostic(s: string, e: Log.LogEntry): CompileLog
  {
    CompileLog(LevelOf(e.level), e.message,
      if e.span.Some? then Some(Utf16Offset(s, e.span.value.start)) else None,
      if e.span.Some? then Some(Utf16Offset(s, e.span.value.end)) else None)
  }

  /** A diagnostic as lib.rs converts it: `map(char::len_utf16).count()`
      counts the characters before the offset, not their UTF-16 units. */
  function DiagnosticAsWritten(s: string, e: Log.LogEntry): CompileLog
  {
    CompileLog(LevelOf(e.level), e.message,
      if e.span.Some? then Some(|BytePrefix(s, e.span.value.start)|) else None,
      if e.span.Some? then Some(|BytePrefix(s, e.span.value.end)|) else None)
  }

  function Diagnostics(s: string, entries: seq<Log.LogEntry>): (r: seq<CompileLog>)
    ensures |r| == |entries|
    ensures forall k :: 0 <= k < |entries| ==> r[k] == Diagnostic(s, entries[k])
  {
    seq(|entries|, k requires 0 <= k < |entries| => Diagnostic(s, entries[k]))
  }

  /** The rendered log: every entry displayed, in order. */
  function AnsiLog(s: string, entries: seq<Log.LogEntry>): string
    decreases |entries|
  {
    if entries == [] then [] else AnsiLog(s, entries[..|entries| - 1]) + Log.Render(s, entries[|entries| - 1])
  }

  /** What the loader logs for `input` on a fresh context. */
  ghost function LoaderLog(input: string): seq<Log.LogEntry>
    requires Lexer.LexAll(input, 0).Some?
  {
    var eof := EofSpan(Utf8Width(input));
    var parsed := ParserSpec.Elements(ParserSpec.Input(Lexer.LexAll(input, 0).value, eof), ParserSpec.PState(0, None, []), []);
    if !Automatan.NoErrors(parsed.1.log) then parsed.1.log else parsed.1.log + Loader.Universal(parsed.0, eof).1
  }

  /** The machine the loader compiles `input` to on a fresh context, when
      parsing logged no error and a type was read. */
  ghost function LoaderMachine(input: string): Option<Loader.Machine>
    requires Lexer.LexAll(input, 0).Some?
  {
    var eof := EofSpan(Utf8Width(input));
    var parsed := ParserSpec.Elements(ParserSpec.Input(Lexer.LexAll(input, 0).value, eof), ParserSpec.PState(0, None, []), []);
    var u := Loader.Universal(parsed.0, eof).0;
    if !Automatan.NoErrors(parsed.1.log) || u.None? then None else Some(u.value.1)
  }

  /** A diagnostic over a token's span lands exactly on the range `lex`
      highlights for that token. */
  lemma DiagnosticOnToken(s: string, items: seq<Lexer.LexItem>, k: nat, e: Log.LogEntry)
    requires k < |items| && e.span == Some(items[k].span)
    ensures Diagnostic(s, e).start == Some(Toks(s, items)[k].start)
    ensures Diagnostic(s, e).end == Some(Toks(s, items)[k].end)
  {
    hide ItemKind, Utf16Offset, Scoped, Depth;
    TokAt(s, items, k);
  }

  /** The conversion as written agrees with `lex` exactly when no character
      before the offset lies outside the Basic Multilingual Plane. */
  lemma DiagnosticAsWrittenOffset(s: string, k: nat)
    requires k <= |s|
    ensures |BytePrefix(s, Offset(s, k))| == k
    ensures Utf16Offset(s, Offset(s, k)) == Utf16Width(s[..k])
    ensures k == Utf16Offset(s, Offset(s, k)) <==> forall c :: 0 <= c < k ==> s[c] as int < 0x10000
  {
    BytePrefixOffset(s, k);
    Utf16WidthCounts(s[..k]);
    assert forall c :: 0 <= c < k ==> s[..k][c] == s[c];
  }

  /** An emoji before a stray `-`: the lexer reports the `-` at bytes 4..5,
      which `lex` places at UTF-16 offset 2 while the diagnostic as written
      says 1. */
  lemma DiagnosticAsWrittenMisplaced()
    ensures var s := "\U{1F600}-"; var e := Log.ErrorAt("invalid character", Span(4, 5));
      DiagnosticAsWritten(s, e).start == Some(1) && Diagnostic(s, e).start == Some(2)
  {
    var s := "\U{1F600}-";
    assert Offset(s, 1) == 4 by {
      assert s[..1] == ['\U{1F600}'];
    }
    DiagnosticAsWrittenOffset(s, 1);
    assert Utf16Width(s[..1]) == 2 by {
      assert s[..1] == ['\U{1F600}'];
    }
  }

  lemma AnsiLogSnoc(s: string, entries: seq<Log.LogEntry>, k: nat)
    requires k < |entries|
    ensures AnsiLog(s, entries[..k + 1]) == AnsiLog(s, entries[..k]) + Log.Render(s, entries[k])
  {
    assert entries[..k + 1][..k] == entries[..k];
  }

  lemma DiagnosticsSnoc(s: string, entries: seq<Log.LogEntry>, k: nat)
    requires k < |entries|
    ensures Diagnostics(s, entries[..k + 1]) == Diagnostics(s, entries[..k]) + [Diagnostic(s, entries[k])]
  {
  }

  /** The two folds of `compile` over the loader's log: the rendered text
      and the converted diagnostics. */
  method Report(input: string, entries: seq<Log.LogEntry>) returns (log: seq<CompileLog>, ansi: string)
    ensures log == Diagnostics(input, entries)
    ensures ansi == AnsiLog(input, entries)
  {
    assert AnsiLog(input, entries[..0]) == [] && Diagnostics(input, entries[..0]) == [];
    hide AnsiLog, Log.Render, Diagnostic, Diagnostics;
    ansi := "";
    log := [];
    var k := 0;
    while k < |entries|
      invariant k <= |entries|
      invariant ansi == AnsiLog(input, entries[..k])
      invariant log == Diagnostics(input, entries[..k])
    {
      var shown := Log.Display(input, entries[k]);
      AnsiLogSnoc(input, entries, k);
      DiagnosticsSnoc(input, entries, k);
      ansi := ansi + shown;
      log := log + [Diagnostic(input, entries[k])];
      k := k + 1;
    }
    assert entries[..k] == entries;
  }

  /** `compile`: load `input` on a fresh context, then hand back every
      diagnostic with UTF-16 offsets, the rendered log, and the machine,
      which exists exactly when no diagnostic is an error. */
  method Compile(input: string) returns (r: CompileResult)
    requires Lexer.LexAll(input, 0).Some?
    ensures r.log == Diagnostics(input, LoaderLog(input))
    ensures r.ansiLog == AnsiLog(input, LoaderLog(input))
    ensures r.machine.Some? <==> forall k :: 0 <= k < |r.log| ==> r.log[k].level != Some(ErrorLevel)
    ensures r.machine.Some? ==> r.machine == LoaderMachine(input)
  {
    hide FiniteAutomata.Compiled, PushdownAutomata.Compiled, TuringMachines.Compiled;
    var ctx := new LoaderContext.Context(input);
    var machine := Loader.ParseUniversal(ctx);
    assert ctx.logs.entries == LoaderLog(input);
    var log, ansi := Report(input, ctx.logs.entries);
    r := CompileResult(log, ansi, machine);
  }
}
