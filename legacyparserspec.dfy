// The behaviour of the first loader's parser (src/loader/parser.rs) as
// functions of an explicit parser state: the position in the lexer's item
// stream, the one-token peek slot, and the entries of the log. The
// `LegacyParser` class in legacyparser.dfy is proved to follow these
// functions step for step.
//
// Unlike the current parser, this one hands out no token at all at the end
// of input (`None`), and a line end that has been pulled stays in the peek
// slot until `advance_line` empties it. The lexer is the line-aware one of
// lexer.dfy; it is deterministic, so its lazy pulls are reads from its
// item stream.

module LegacyParserSpec {
  import opened Common
  import opened Lexer
  import opened LegacyLog
  import A = LegacyAst

  /** The alias constants of src/loader/mod.rs. */
  const EPSILON_LOWER := "\U{0190}"
  const DELTA_LOWER := "\U{03B4}"
  const SIGMA_UPPER := "\U{03A3}"
  const GAMMA_UPPER := "\U{0393}"
  const GAMMA_LOWER := "\U{03B3}"

  type Tok = Spanned<Token>

  /** What the parser reads: the lexer's items and the end-of-input span. */
  datatype Input = Input(stream: seq<LexItem>, eof: Span)

  datatype PState = PState(next: nat, peek: Option<Tok>, log: seq<LogEntry>)

  /** The parser never holds a comment. */
  ghost predicate Fits(e: Input, st: PState)
  {
    st.next <= |e.stream| && (st.peek.Some? ==> !st.peek.value.value.Comment?)
  }

  /** Twice the items left plus one for a held token. */
  function Measure(e: Input, st: PState): nat
    requires st.next <= |e.stream|
  {
    2 * (|e.stream| - st.next) + (if st.peek.Some? then 1 else 0)
  }

  /** A state right after a peek: a token is held, or the input is used up. */
  ghost predicate Settled(e: Input, st: PState)
  {
    st.peek.Some? || st.next == |e.stream|
  }

  function ErrorEntry(message: string, span: Span): LogEntry
  {
    LogEntry(message, Some(span), Error)
  }

  function Log1(st: PState, entry: LogEntry): (r: PState)
    ensures r.next == st.next && r.peek == st.peek && r.log == st.log + [entry]
  {
    st.(log := st.log + [entry])
  }

  /** `unexpected {got:#}, expected {expected}`. */
  function Unexpected(got: Token, expected: string): string
  {
    "unexpected " + Describe(got, true) + ", expected " + expected
  }

  function LexMessage(err: LexError): string
  {
    "lexer: " + DebugLexError(err)
  }

  /** Items the parser never hands out. */
  predicate Skipped(item: LexItem)
  {
    item.value.Err? || item.value.token.Comment?
  }

  /** The errors logged for the lexical errors among items `[i, j)`. */
  function LexErrors(stream: seq<LexItem>, i: nat, j: nat): seq<LogEntry>
    requires i <= j <= |stream|
    decreases j - i
  {
    if i == j then []
    else
      (if stream[i].value.Err? then [ErrorEntry(LexMessage(stream[i].value.error), stream[i].span)] else [])
      + LexErrors(stream, i + 1, j)
  }

  // ---------------------------------------------------------------------
  // Tokens.

  /** The lexer loop of `next_token`: comments are dropped, errors logged,
      and a line end is also put in the peek slot. */
  function Pull(e: Input, st: PState): (r: (Option<Tok>, PState))
    requires Fits(e, st) && st.peek.None?
    ensures Fits(e, r.1) && st.next <= r.1.next
    ensures r.0.None? ==> r.1.next == |e.stream|
    ensures r.0.Some? ==> st.next < r.1.next && !r.0.value.value.Comment?
    ensures r.1.peek == if r.0.Some? && r.0.value.value == LineEnd then r.0 else None
    decreases |e.stream| - st.next
  {
    if st.next == |e.stream| then (None, st)
    else
      var item := e.stream[st.next];
      var st1 := st.(next := st.next + 1);
      if item.value.Err? then Pull(e, Log1(st1, ErrorEntry(LexMessage(item.value.error), item.span)))
      else if item.value.token.Comment? then Pull(e, st1)
      else if item.value.token == LineEnd then (Some(Spanned(LineEnd, item.span)), st1.(peek := Some(Spanned(LineEnd, item.span))))
      else (Some(Spanned(item.value.token, item.span)), st1)
  }

  /** Each lexical error passed over is logged once, in order. */
  lemma {:induction false} PullLogs(e: Input, st: PState)
    requires Fits(e, st) && st.peek.None?
    ensures Pull(e, st).1.log == st.log + LexErrors(e.stream, st.next, Pull(e, st).1.next)
    decreases |e.stream| - st.next
  {
    hide LexMessage;
    if st.next < |e.stream| {
      var item := e.stream[st.next];
      var st1 := st.(next := st.next + 1);
      var j := Pull(e, st).1.next;
      if item.value.Err? {
        var err := ErrorEntry(LexMessage(item.value.error), item.span);
        var st2 := Log1(st1, err);
        assert Pull(e, st) == Pull(e, st2);
        PullLogs(e, st2);
        assert LexErrors(e.stream, st.next, j) == [err] + LexErrors(e.stream, st1.next, j);
        assert st2.log + LexErrors(e.stream, st1.next, j) == st.log + LexErrors(e.stream, st.next, j);
      } else if item.value.token.Comment? {
        assert Pull(e, st) == Pull(e, st1);
        PullLogs(e, st1);
        assert LexErrors(e.stream, st.next, j) == [] + LexErrors(e.stream, st1.next, j);
      } else {
        assert j == st.next + 1;
        assert LexErrors(e.stream, st.next, j) == [] + LexErrors(e.stream, j, j);
      }
    }
  }

  /** Comments and lexical errors are passed over, and the token handed out
      is the first item that is neither. */
  lemma {:induction false} PullSkips(e: Input, st: PState)
    requires Fits(e, st) && st.peek.None?
    ensures Pull(e, st).0.None? ==> forall k :: st.next <= k < |e.stream| ==> Skipped(e.stream[k])
    ensures Pull(e, st).0.Some? ==>
      var last := e.stream[Pull(e, st).1.next - 1];
      !Skipped(last) && Pull(e, st).0.value == Spanned(last.value.token, last.span)
      && forall k :: st.next <= k < Pull(e, st).1.next - 1 ==> Skipped(e.stream[k])
    decreases |e.stream| - st.next
  {
    if st.next < |e.stream| {
      var item := e.stream[st.next];
      var st1 := st.(next := st.next + 1);
      if item.value.Err? {
        var st2 := Log1(st1, ErrorEntry(LexMessage(item.value.error), item.span));
        assert Pull(e, st) == Pull(e, st2);
        PullSkips(e, st2);
      } else if item.value.token.Comment? {
        assert Pull(e, st) == Pull(e, st1);
        PullSkips(e, st1);
      } else {
        assert Pull(e, st) == (Some(Spanned(item.value.token, item.span)), Pull(e, st).1);
        assert Pull(e, st).1.next == st.next + 1;
      }
    }
  }

  /** `next_token`: a held line end stays held; any other held token is
      handed out; otherwise the lexer is pulled. */
  function NextTok(e: Input, st: PState): (r: (Option<Tok>, PState))
    requires Fits(e, st)
    ensures Fits(e, r.1) && Measure(e, r.1) <= Measure(e, st)
    ensures r.0.Some? && r.0.value.value != LineEnd ==> Measure(e, r.1) < Measure(e, st)
    ensures r.0.Some? && r.0.value.value == LineEnd ==> r.1.peek == r.0
    ensures r.0.Some? ==> !r.0.value.value.Comment?
    ensures r.0.None? ==> r.1.next == |e.stream| && r.1.peek.None?
  {
    match st.peek
    case Some(t) => if t.value == LineEnd then (st.peek, st) else (st.peek, st.(peek := None))
    case None => Pull(e, st)
  }

  /** `peek_token`: it settles the state, and changes nothing when the
      state is already settled. */
  function PeekTok(e: Input, st: PState): (r: (Option<Tok>, PState))
    requires Fits(e, st)
    ensures Fits(e, r.1) && Measure(e, r.1) <= Measure(e, st)
    ensures Settled(e, r.1) && r.1.peek == r.0
    ensures Settled(e, st) ==> r.1 == st
  {
    if st.peek.None? then
      var (t, st1) := NextTok(e, st);
      (t, st1.(peek := t))
    else (st.peek, st)
  }

  /** The token the next `peek_token` shows, if any. */
  function Upcoming(e: Input, st: PState): Option<Tok>
    requires Fits(e, st)
  {
    PeekTok(e, st).0
  }

  /** Whether the next token is `t`. */
  predicate UpcomingIs(e: Input, st: PState, t: Token)
    requires Fits(e, st)
  {
    Upcoming(e, st).Some? && Upcoming(e, st).value.value == t
  }

  /** Peeking twice shows the same token and changes nothing the second
      time; the peeked token is the one `next_token` hands out, with the
      same log. */
  lemma PeekIdempotent(e: Input, st: PState)
    requires Fits(e, st)
    ensures PeekTok(e, PeekTok(e, st).1) == PeekTok(e, st)
    ensures NextTok(e, PeekTok(e, st).1).0 == PeekTok(e, st).0 == NextTok(e, st).0
    ensures NextTok(e, PeekTok(e, st).1).1.log == NextTok(e, st).1.log
  {
  }

  /** Once a line end is held it is handed out again and again, and only
      `advance_line` lets the parser past it. */
  lemma LineEndIsSticky(e: Input, st: PState)
    requires Fits(e, st) && st.peek.Some? && st.peek.value.value == LineEnd
    ensures NextTok(e, st) == (st.peek, st) && PeekTok(e, st) == (st.peek, st)
    ensures AdvanceLine(e, st) == st.(peek := None)
  {
  }

  /** `expect_token`: on a match the token is consumed; otherwise one error
      is logged and the token stays where it was. At the end of input the
      error is at the end-of-input span. */
  function Expect(e: Input, st: PState, expected: Token): (r: (bool, Span, PState))
    requires Fits(e, st)
    ensures Fits(e, r.2) && Measure(e, r.2) <= Measure(e, st)
    ensures r.0 <==> UpcomingIs(e, st, expected)
    ensures r.1 == if Upcoming(e, st).Some? then Upcoming(e, st).value.span else e.eof
    ensures r.0 && expected != LineEnd ==> Measure(e, r.2) < Measure(e, st)
    ensures r.0 ==> r.2.log == PeekTok(e, st).1.log
    ensures !r.0 ==> r.2 == Log1(PeekTok(e, st).1, ErrorEntry(ExpectMessage(Upcoming(e, st), expected), r.1))
  {
    var (t, st1) := PeekTok(e, st);
    match t
    case None => (false, e.eof, Log1(st1, ErrorEntry(ExpectMessage(t, expected), e.eof)))
    case Some(tok) =>
      if tok.value != expected then (false, tok.span, Log1(st1, ErrorEntry(ExpectMessage(t, expected), tok.span)))
      else (true, tok.span, NextTok(e, st1).1)
  }

  /** The error `expect_token` logs for what it found instead. */
  function ExpectMessage(found: Option<Tok>, expected: Token): string
  {
    if found.None? then "unexpected eof expected " + Describe(expected, true)
    else Unexpected(found.value.value, Describe(expected, false))
  }

  /** `advance_line`: nothing at the end of input; otherwise the line end
      is expected, and on a match the peek slot is emptied. */
  function AdvanceLine(e: Input, st: PState): (r: PState)
    requires Fits(e, st)
    ensures Fits(e, r) && Measure(e, r) <= Measure(e, st)
    ensures Upcoming(e, st).None? ==> r == PeekTok(e, st).1
    ensures UpcomingIs(e, st, LineEnd) ==> r == PeekTok(e, st).1.(peek := None)
    ensures Upcoming(e, st).Some? && !UpcomingIs(e, st, LineEnd) ==>
      r == Log1(PeekTok(e, st).1, ErrorEntry(Unexpected(Upcoming(e, st).value.value, Describe(LineEnd, false)), Upcoming(e, st).value.span))
  {
    var (t, st1) := PeekTok(e, st);
    if t.None? then st1
    else
      var (ok, _, st2) := Expect(e, st1, LineEnd);
      if ok then st2.(peek := None) else st2
  }

  /** At the end of input `advance_line` changes nothing. */
  lemma AdvanceLineAtEof(e: Input, st: PState)
    requires Fits(e, st) && st.next == |e.stream| && st.peek.None?
    ensures AdvanceLine(e, st) == st
  {
  }

  // ---------------------------------------------------------------------
  // Symbols, tuples, items and lists.

  const SYMBOL_EXPECTED := "'~' | ident (symbol)"
  const ITEM_EXPECTED := "'~' | ident | '(' | '{' | '[' (item)"
  const LIST_EXPECTED := "'}' | ']'"

  /** The spellings of epsilon this parser knows. */
  predicate IsEpsilon(t: Token)
  {
    t == Tilde || (t.Ident? && (t.name == "epsilon" || t.name == EPSILON_LOWER))
  }

  /** `parse_symbol`: `~` and the epsilon spellings are epsilon, other
      identifiers are themselves, and anything else is logged. */
  function ParseSymbol(e: Input, st: PState): (r: (Spanned<A.Symbol>, PState))
    requires Fits(e, st)
    ensures Fits(e, r.1) && Measure(e, r.1) <= Measure(e, st)
    ensures Upcoming(e, st).Some? && Upcoming(e, st).value.value != LineEnd ==> Measure(e, r.1) < Measure(e, st)
    ensures var t := NextTok(e, st).0;
      && (r.0.value.Epsilon? <==> t.Some? && IsEpsilon(t.value.value))
      && (t.Some? && t.value.value.Ident? && !IsEpsilon(t.value.value) ==> r.0.value == A.Ident(t.value.value.name))
      && r.0.span == (if t.Some? then t.value.span else e.eof)
      && r.1.log == NextTok(e, st).1.log + (if t.Some? && (t.value.value == Tilde || t.value.value.Ident?) then []
           else if t.Some? then [ErrorEntry(Unexpected(t.value.value, SYMBOL_EXPECTED), t.value.span)]
           else [ErrorEntry("unexpected eof expected " + SYMBOL_EXPECTED, e.eof)])
  {
    var (t, st1) := NextTok(e, st);
    match t
    case None =>
      (Spanned(A.Ident("<INVALID>"), e.eof), Log1(st1, ErrorEntry("unexpected eof expected " + SYMBOL_EXPECTED, e.eof)))
    case Some(tok) =>
      if IsEpsilon(tok.value) then (Spanned(A.Epsilon, tok.span), st1)
      else if tok.value.Ident? then (Spanned(A.Ident(tok.value.name), tok.span), st1)
      else (Spanned(A.Ident("<INVALID>"), tok.span), Log1(st1, ErrorEntry(Unexpected(tok.value, SYMBOL_EXPECTED), tok.span)))
  }

  function ListKindOf(comma: bool, close: Token): A.ListKind
  {
    if close == RBrace then (if comma then A.BraceComma else A.Brace)
    else (if comma then A.BracketComma else A.Bracket)
  }

  /** What a cut-off `parse_tupple` or `parse_list` expected. */
  function CutMessage(found: Option<Tok>, close: Token): string
  {
    (if found.None? then "unexpected eof expected " else "unexpected eol expected ") + Describe(close, false)
  }

  /** Whether the line or the input ends at the peeked token. */
  predicate Cut(t: Option<Tok>)
  {
    t.None? || t.value.value == LineEnd
  }

  /** `parse_item`: the upcoming token decides the form of the item. Unless
      the input or the line has ended, at least one token is consumed. */
  function ParseItem(e: Input, st: PState): (r: (Spanned<A.Item>, PState))
    requires Fits(e, st)
    ensures Fits(e, r.1) && Measure(e, r.1) <= Measure(e, st)
    ensures !Cut(Upcoming(e, st)) ==> Measure(e, r.1) < Measure(e, st)
    ensures Cut(Upcoming(e, st)) ==> Upcoming(e, r.1) == Upcoming(e, st)
    decreases Measure(e, st), 2
  {
    var (t, st1) := PeekTok(e, st);
    match t
    case None =>
      (Spanned(A.SymbolItem(A.Ident("<INVALID>")), e.eof), Log1(st1, ErrorEntry("unexpected eof expected " + ITEM_EXPECTED, e.eof)))
    case Some(tok) =>
      if tok.value.Ident? || tok.value == Tilde then
        var (sym, st2) := ParseSymbol(e, st1);
        (Spanned(A.SymbolItem(sym.value), sym.span), st2)
      else if tok.value == LPar then
        var (tu, st2) := ParseTupple(e, st1);
        (Spanned(A.TupleItem(tu.value), tu.span), st2)
      else if tok.value == LBrace || tok.value == LBracket then
        var (l, st2) := ParseList(e, st1);
        (Spanned(A.ListItem(l.value.0, l.value.1), l.span), st2)
      else
        var st2 := NextTok(e, st1).1;
        (Spanned(A.SymbolItem(A.Ident("<INVALID>")), tok.span), Log1(st2, ErrorEntry(Unexpected(tok.value, ITEM_EXPECTED), tok.span)))
  }

  /** `parse_tupple`: without an opening parenthesis, the empty tuple at the
      offending token (or at the end of input), which is left unconsumed. */
  function ParseTupple(e: Input, st: PState): (r: (Spanned<A.Tuple>, PState))
    requires Fits(e, st)
    ensures Fits(e, r.1) && Measure(e, r.1) <= Measure(e, st)
    ensures UpcomingIs(e, st, LPar) ==> Measure(e, r.1) < Measure(e, st)
    decreases Measure(e, st), 1
  {
    var (matched, start, st1) := Expect(e, st, LPar);
    if !matched then (Spanned(A.Tuple([]), start), st1)
    else TuppleLoop(e, st1, [], start)
  }

  /** The optional comma after an item. */
  function SkipComma(e: Input, st: PState): (r: (bool, PState))
    requires Fits(e, st)
    ensures Fits(e, r.1) && Measure(e, r.1) <= Measure(e, st)
    ensures r.0 <==> UpcomingIs(e, st, Comma)
    ensures Cut(Upcoming(e, st)) ==> Upcoming(e, r.1) == Upcoming(e, st)
  {
    var (c, st1) := PeekTok(e, st);
    if c.Some? && c.value.value == Comma then (true, NextTok(e, st1).1) else (false, st1)
  }

  /** The loop of `parse_tupple` after the opening parenthesis. */
  function TuppleLoop(e: Input, st: PState, items: seq<Spanned<A.Item>>, start: Span): (r: (Spanned<A.Tuple>, PState))
    requires Fits(e, st)
    ensures Fits(e, r.1) && Measure(e, r.1) <= Measure(e, st)
    decreases Measure(e, st), 4
  {
    var (t, st1) := PeekTok(e, st);
    if t.Some? && t.value.value == RPar then
      var (_, end, st2) := Expect(e, st1, RPar);
      (Spanned(A.Tuple(items), Join(start, end)), st2)
    else
      match TuppleTurn(e, st1, items, start)
      case Ended(result, after) => (Spanned(A.Tuple(result.0), result.1), after)
      case Goes(it, _, after) => TuppleLoop(e, after, items + [it], start)
  }

  /** How one turn of a loop of `parse_tupple` or `parse_list` ends: the
      sequence is over (closed, or cut off by the end of the line or of the
      input), or an item has been parsed and the loop goes on. */
  datatype Turn =
    | Ended(result: (seq<Spanned<A.Item>>, Span), after: PState)
    | Goes(item: Spanned<A.Item>, comma: bool, after: PState)

  /** What follows an item: the end of the line or of the input cuts the
      sequence off with an error, anything else lets the loop go on. */
  function AfterItem(e: Input, st: PState, items: seq<Spanned<A.Item>>, it: Spanned<A.Item>, start: Span, close: Token, comma: bool): (r: Turn)
    requires Fits(e, st)
    ensures Fits(e, r.after) && Measure(e, r.after) <= Measure(e, st)
    ensures r.Goes? <==> !Cut(Upcoming(e, st))
    ensures r.Goes? ==> r.item == it && r.comma == comma
    ensures r.Ended? ==> r.result.0 == items + [it] && r.result.1.start == start.start
  {
    var (l, st1) := PeekTok(e, st);
    if l.None? then
      Ended((items + [it], Join(start, e.eof)), Log1(st1, ErrorEntry(CutMessage(l, close), e.eof)))
    else if l.value.value == LineEnd then
      Ended((items + [it], Join(start, l.value.span)), Log1(st1, ErrorEntry(CutMessage(l, close), l.value.span)))
    else
      Goes(it, comma, st1)
  }

  /** A turn of the loop of `parse_tupple`: an item, an optional comma, and
      the test for the end of the line. */
  function TuppleTurn(e: Input, st: PState, items: seq<Spanned<A.Item>>, start: Span): (r: Turn)
    requires Fits(e, st)
    ensures Fits(e, r.after) && Measure(e, r.after) <= Measure(e, st)
    ensures r.Goes? ==> Measure(e, r.after) < Measure(e, st)
    ensures r.Ended? ==> items <= r.result.0 && r.result.1.start == start.start
    decreases Measure(e, st), 3
  {
    var (it, st1) := ParseItem(e, st);
    var (_, st2) := SkipComma(e, st1);
    AfterItem(e, st2, items, it, start, RPar, false)
  }

  /** `parse_list`: the opening token decides the closing one. A missing
      opening token is logged and gives the empty `BracketComma` list. */
  function ParseList(e: Input, st: PState): (r: (Spanned<(seq<Spanned<A.Item>>, A.ListKind)>, PState))
    requires Fits(e, st)
    ensures Fits(e, r.1) && Measure(e, r.1) <= Measure(e, st)
    ensures var t := NextTok(e, st).0; t.Some? && t.value.value != LineEnd ==> Measure(e, r.1) < Measure(e, st)
    decreases Measure(e, st), 1
  {
    var (t, st1) := NextTok(e, st);
    match t
    case None =>
      (Spanned(([], A.BracketComma), e.eof), Log1(st1, ErrorEntry("unexpected eof expected " + LIST_EXPECTED, e.eof)))
    case Some(tok) =>
      if tok.value == LBrace then ListLoop(e, st1, [], tok.span, RBrace, false)
      else if tok.value == LBracket then ListLoop(e, st1, [], tok.span, RBracket, false)
      else (Spanned(([], A.BracketComma), tok.span), Log1(st1, ErrorEntry(Unexpected(tok.value, LIST_EXPECTED), tok.span)))
  }

  /** A turn of the loop of `parse_list`: an item, an optional comma that is
      remembered, and the test for the end of the line. A list cut off
      this way is tagged `BraceComma`, whichever token opened it. */
  function ListTurn(e: Input, st: PState, list: seq<Spanned<A.Item>>, start: Span, close: Token, comma: bool): (r: Turn)
    requires Fits(e, st)
    ensures Fits(e, r.after) && Measure(e, r.after) <= Measure(e, st)
    ensures r.Goes? ==> Measure(e, r.after) < Measure(e, st)
    ensures r.Goes? ==> (comma ==> r.comma)
    ensures r.Ended? ==> list <= r.result.0 && r.result.1.start == start.start
    decreases Measure(e, st), 3
  {
    var (it, st1) := ParseItem(e, st);
    var (c, st2) := SkipComma(e, st1);
    AfterItem(e, st2, list, it, start, close, comma || c)
  }

  /** The loop of `parse_list` after the opening token. */
  function ListLoop(e: Input, st: PState, list: seq<Spanned<A.Item>>, start: Span, close: Token, comma: bool)
    : (r: (Spanned<(seq<Spanned<A.Item>>, A.ListKind)>, PState))
    requires Fits(e, st)
    ensures Fits(e, r.1) && Measure(e, r.1) <= Measure(e, st)
    decreases Measure(e, st), 4
  {
    var (t, st1) := PeekTok(e, st);
    if t.Some? && t.value.value == close then
      var (_, end, st2) := Expect(e, st1, close);
      (Spanned((list, ListKindOf(comma, close)), Join(start, end)), st2)
    else
      match ListTurn(e, st1, list, start, close, comma)
      case Ended(result, after) => (Spanned((result.0, A.BraceComma), result.1), after)
      case Goes(it, comma', after) => ListLoop(e, after, list + [it], start, close, comma')
  }

  // ---------------------------------------------------------------------
  // Properties of items, tuples and lists.

  /** The kind a list closed by `close` may have: its kind follows its
      closing token, except that a cut-off list is always `BraceComma`;
      once a comma has been consumed, the kind is a comma kind. */
  predicate KindFits(kind: A.ListKind, close: Token, comma: bool)
  {
    (close == RBrace ==> kind.Brace? || kind.BraceComma?)
    && (close != RBrace ==> !kind.Brace?)
    && (comma ==> kind.BraceComma? || kind.BracketComma?)
  }

  /** A list keeps the items parsed before each turn, starts where its
      opening token does, and has a kind that fits its closing token and
      its commas. */
  lemma {:induction false} ListLoopShape(e: Input, st: PState, list: seq<Spanned<A.Item>>, start: Span, close: Token, comma: bool)
    requires Fits(e, st)
    ensures var r := ListLoop(e, st, list, start, close, comma).0;
      r.span.start == start.start && list <= r.value.0 && KindFits(r.value.1, close, comma)
    decreases Measure(e, st)
  {
    hide ListTurn, Expect, PeekTok, NextTok, ParseItem, SkipComma, AfterItem, Fits;
    var (t, st1) := PeekTok(e, st);
    if !(t.Some? && t.value.value == close) {
      match ListTurn(e, st1, list, start, close, comma)
      case Ended(result, after) =>
      case Goes(it, comma', after) =>
        ListLoopShape(e, after, list + [it], start, close, comma');
        assert list <= list + [it];
    }
  }

  /** The opening token decides the kind: a list opened by `{` is a brace
      list, and one opened by `[` is never `Brace`. */
  lemma ListKindMatchesOpener(e: Input, st: PState)
    requires Fits(e, st)
    ensures var t := NextTok(e, st).0;
      (t.Some? && t.value.value == LBrace ==> ParseList(e, st).0.value.1 in {A.Brace, A.BraceComma})
      && (t.Some? && t.value.value == LBracket ==> ParseList(e, st).0.value.1 != A.Brace)
      && (t.Some? ==> ParseList(e, st).0.span.start == t.value.span.start)
  {
    var (t, st1) := NextTok(e, st);
    if t.Some? && t.value.value == LBrace {
      ListLoopShape(e, st1, [], t.value.span, RBrace, false);
    } else if t.Some? && t.value.value == LBracket {
      ListLoopShape(e, st1, [], t.value.span, RBracket, false);
    }
  }

  /** A tuple keeps the items parsed before each turn, also when it is cut
      off, and starts where its opening parenthesis does. */
  lemma {:induction false} TuppleLoopKeeps(e: Input, st: PState, items: seq<Spanned<A.Item>>, start: Span)
    requires Fits(e, st)
    ensures TuppleLoop(e, st, items, start).0.span.start == start.start
    ensures items <= TuppleLoop(e, st, items, start).0.value.items
    decreases Measure(e, st)
  {
    var (t, st1) := PeekTok(e, st);
    if !(t.Some? && t.value.value == RPar) {
      match TuppleTurn(e, st1, items, start)
      case Ended(_, _) =>
      case Goes(it, _, after) =>
        TuppleLoopKeeps(e, after, items + [it], start);
        assert items <= items + [it];
    }
  }

  /** A tuple starts at the token where it was expected; without an opening
      parenthesis it is the empty tuple there, and the token is left. */
  lemma TuppleShape(e: Input, st: PState)
    requires Fits(e, st)
    ensures UpcomingIs(e, st, LPar) ==> ParseTupple(e, st).0.span.start == Upcoming(e, st).value.span.start
    ensures !UpcomingIs(e, st, LPar) ==>
      ParseTupple(e, st).0.value.items == [] && Upcoming(e, ParseTupple(e, st).1) == Upcoming(e, st)
  {
    var (matched, start, st1) := Expect(e, st, LPar);
    if matched {
      TuppleLoopKeeps(e, st1, [], start);
    }
  }

  /** The upcoming token decides the kind of item: a tuple exactly at `(`,
      a list exactly at `{` or `[`. */
  lemma ItemKind(e: Input, st: PState)
    requires Fits(e, st)
    ensures ParseItem(e, st).0.value.TupleItem? <==> UpcomingIs(e, st, LPar)
    ensures ParseItem(e, st).0.value.ListItem? <==> UpcomingIs(e, st, LBrace) || UpcomingIs(e, st, LBracket)
  {
  }

  // ---------------------------------------------------------------------
  // Production rules and transition functions.

  /** Symbols up to the end of the input or a token in `stops`. */
  function SymbolRun(e: Input, st: PState, stops: set<Token>, run: seq<Spanned<A.Symbol>>): (r: (seq<Spanned<A.Symbol>>, PState))
    requires Fits(e, st) && LineEnd in stops
    ensures Fits(e, r.1) && Measure(e, r.1) <= Measure(e, st)
    ensures run <= r.0 && Settled(e, r.1)
    ensures r.1.peek.None? || r.1.peek.value.value in stops
    decreases Measure(e, st)
  {
    var (t, st1) := PeekTok(e, st);
    if t.None? || t.value.value in stops then (run, st1)
    else
      var (sym, st2) := ParseSymbol(e, st1);
      SymbolRun(e, st2, stops, run + [sym])
  }

  /** The span of a group: from its first to its last symbol, or `start`
      for an empty one. */
  function GroupSpan<T>(group: seq<Spanned<T>>, start: Span): Span
  {
    Join(if |group| == 0 then start else group[0].span, if |group| == 0 then start else group[|group| - 1].span)
  }

  /** One alternative of the right-hand side; an empty one is logged at
      the token that ends it, and kept. */
  function OneGroup(e: Input, st: PState, start: Span): (r: (Spanned<A.ProductionGroup>, PState))
    requires Fits(e, st)
    ensures Fits(e, r.1) && Measure(e, r.1) <= Measure(e, st)
    ensures Settled(e, r.1) && (r.1.peek.None? || r.1.peek.value.value in {LineEnd, Or})
    ensures r.0.span == GroupSpan(r.0.value.symbols, start)
  {
    var (g, st1) := SymbolRun(e, st, {LineEnd, Or}, []);
    var (p, st2) := PeekTok(e, st1);
    var st3 := if |g| == 0 then Log1(st2, ErrorEntry("cannot have empty production group", if p.Some? then p.value.span else e.eof)) else st2;
    (Spanned(A.ProductionGroup(g), GroupSpan(g, start)), st3)
  }

  /** The alternatives of the right-hand side, separated by `|`. */
  function GroupsLoop(e: Input, st: PState, groups: seq<Spanned<A.ProductionGroup>>, start: Span)
    : (r: (seq<Spanned<A.ProductionGroup>>, PState))
    requires Fits(e, st)
    ensures Fits(e, r.1) && Measure(e, r.1) <= Measure(e, st)
    ensures groups <= r.0 && |r.0| > |groups|
    decreases Measure(e, st)
  {
    var (g, st1) := OneGroup(e, st, start);
    var (q, st2) := PeekTok(e, st1);
    if q.Some? && q.value.value == Or then GroupsLoop(e, NextTok(e, st2).1, groups + [g], start)
    else (groups + [g], st2)
  }

  /** `parse_production_rule`: always gives a rule, whose left-hand side
      starts with the symbol already taken. Without `->` the right-hand side
      is empty and the missing arrow is logged. */
  function ProductionRule(e: Input, st: PState, sym: A.Symbol, start: Span): (r: (Spanned<A.TopLevel>, PState))
    requires Fits(e, st)
    ensures Fits(e, r.1) && Measure(e, r.1) <= Measure(e, st)
    ensures r.0.value.ProductionRule? && r.0.span.start == start.start
    ensures |r.0.value.lhs.value.symbols| >= 1 && r.0.value.lhs.value.symbols[0] == Spanned(sym, start)
  {
    var (lhs, st1) := SymbolRun(e, st, {LSmallArrow, LineEnd}, [Spanned(sym, start)]);
    var lhsEnd := lhs[|lhs| - 1].span;
    var lhsGroup := Spanned(A.ProductionGroup(lhs), Join(start, lhsEnd));
    var (ok, _, st2) := Expect(e, st1, LSmallArrow);
    if !ok then
      (Spanned(A.ProductionRule(lhsGroup, Spanned([], lhsEnd)), Join(start, lhsEnd)), st2)
    else
      RuleRhs(e, st2, lhsGroup, lhsEnd, start)
  }

  /** The right-hand side of a production rule, after `->`: its
      alternatives, and the rule they complete. */
  function RuleRhs(e: Input, st: PState, lhsGroup: Spanned<A.ProductionGroup>, lhsEnd: Span, start: Span): (r: (Spanned<A.TopLevel>, PState))
    requires Fits(e, st)
    ensures Fits(e, r.1) && Measure(e, r.1) <= Measure(e, st)
    ensures r.0.value.ProductionRule? && r.0.span.start == start.start && r.0.value.lhs == lhsGroup
    ensures |r.0.value.rhs.value| >= 1
  {
    var (groups, st3) := GroupsLoop(e, st, [], start);
    var st4 := if |groups| == 0 then Log1(st3, ErrorEntry("cannot have empty production rule", Join(start, lhsEnd))) else st3;
    var rulesEnd := if |groups| == 0 then start else groups[|groups| - 1].span;
    (Spanned(A.ProductionRule(lhsGroup, Spanned(groups, GroupSpan(groups, start))), Join(start, rulesEnd)), st4)
  }

  /** With `->` present, the right-hand side has at least one alternative,
      so the test for an empty rule never logs. */
  lemma RuleHasAlternatives(e: Input, st: PState, sym: A.Symbol, start: Span)
    requires Fits(e, st)
    ensures var (lhs, st1) := SymbolRun(e, st, {LSmallArrow, LineEnd}, [Spanned(sym, start)]);
      UpcomingIs(e, st1, LSmallArrow) ==> |ProductionRule(e, st, sym, start).0.value.rhs.value| >= 1
  {
  }

  /** `parse_transition_function`: the name, its argument tuple, `=` and
      the item; nothing when `=` is missing. */
  function TransitionFunction(e: Input, st: PState, ident: string, start: Span): (r: (Option<Spanned<A.TopLevel>>, PState))
    requires Fits(e, st)
    ensures Fits(e, r.1) && Measure(e, r.1) <= Measure(e, st)
    ensures r.0.Some? ==>
      r.0.value.value.TransitionFunc? && r.0.value.value.dest.value.0 == Spanned(ident, start)
      && r.0.value.span.start == start.start
  {
    var (tuple, st1) := ParseTupple(e, st);
    var dest := Spanned((Spanned(ident, start), tuple), Join(start, tuple.span));
    var (ok, _, st2) := Expect(e, st1, Eq);
    if !ok then (None, st2)
    else
      var (item, st3) := ParseItem(e, st2);
      (Some(Spanned(A.TransitionFunc(dest, item), Join(start, item.span))), st3)
  }

  // ---------------------------------------------------------------------
  // Top-level elements.

  /** The recovery loop: tokens are dropped up to the end of the input or a
      line end, which stays held. */
  function SkipLine(e: Input, st: PState): (r: PState)
    requires Fits(e, st)
    ensures Fits(e, r) && Measure(e, r) <= Measure(e, st)
    ensures (r.next == |e.stream| && r.peek.None?) || (r.peek.Some? && r.peek.value.value == LineEnd)
    decreases Measure(e, st)
  {
    var (t, st1) := NextTok(e, st);
    if t.None? || t.value.value == LineEnd then st1 else SkipLine(e, st1)
  }

  /** A token after which a production rule goes on. */
  predicate RuleGoesOn(p: Option<Tok>)
  {
    p.Some? && (p.value.value == LSmallArrow || p.value.value.Ident? || p.value.value == Tilde)
  }

  /** How one pass of the loop of `next_element` ends. */
  datatype Round =
    | AtEof(after: PState)
    | Found(element: Spanned<A.TopLevel>, after: PState)
    | Again(after: PState)

  /** One pass of the loop of `next_element`, given the token taken and the
      one after it; the arms are tried in the source's order. */
  function ElementStep(e: Input, st: PState, next: Tok, p: Option<Tok>): (r: Round)
    requires Fits(e, st) && Settled(e, st) && st.peek == p && !next.value.Comment?
    requires next.value == LineEnd ==> p == Some(next)
    ensures !r.AtEof?
    ensures Fits(e, r.after) && Measure(e, r.after) <= Measure(e, st)
    ensures next.value == LineEnd ==> r.Again? && Measure(e, r.after) < Measure(e, st)
    ensures r.Found? && next.value.Ident? && p.Some? && p.value.value == LPar ==> r.element.value.TransitionFunc?
    ensures r.Found? && IsEpsilon(next.value) && RuleGoesOn(p) ==>
      r.element.value.ProductionRule? && |r.element.value.lhs.value.symbols| >= 1 && r.element.value.lhs.value.symbols[0].value == A.Epsilon
    ensures r.Found? && next.value.Ident? && !IsEpsilon(next.value) && RuleGoesOn(p) ==>
      r.element.value.ProductionRule? && |r.element.value.lhs.value.symbols| >= 1 && r.element.value.lhs.value.symbols[0].value == A.Ident(next.value.name)
    ensures r.Found? && next.value.Ident? && p.Some? && p.value.value == Eq ==> r.element.value.ItemDecl?
    ensures r.Found? ==> next.value.Ident? || next.value == Tilde
  {
    if next.value == LineEnd then
      Again(AdvanceLine(e, st))
    else if next.value.Ident? && p.Some? && p.value.value == LPar then
      var (tf, st1) := TransitionFunction(e, st, next.value.name, next.span);
      if tf.Some? then Found(tf.value, st1) else Again(st1)
    else if IsEpsilon(next.value) && RuleGoesOn(p) then
      var (rule, st1) := ProductionRule(e, st, A.Epsilon, next.span);
      Found(rule, st1)
    else if next.value.Ident? && RuleGoesOn(p) then
      var (rule, st1) := ProductionRule(e, st, A.Ident(next.value.name), next.span);
      Found(rule, st1)
    else if next.value.Ident? && p.Some? && p.value.value == Eq then
      var (ok, _, st1) := Expect(e, st, Eq);
      if !ok then Again(st1)
      else
        var (item, st2) := ParseItem(e, st1);
        Found(Spanned(A.ItemDecl(Spanned(next.value.name, next.span), item), Join(next.span, item.span)), st2)
    else if next.value.Ident? then
      var entry := if p.Some? then ErrorEntry(Unexpected(p.value.value, "'=' | '->'"), p.value.span)
                   else ErrorEntry("unexpected eof, expected '=' | '->'", e.eof);
      Again(SkipLine(e, Log1(st, entry)))
    else
      Again(SkipLine(e, Log1(st, ErrorEntry(Unexpected(next.value, "ident"), next.span))))
  }

  /** One pass of the loop of `next_element`: nothing at the end of input,
      and otherwise the step for the token taken and the one after it. */
  function ElementRound(e: Input, st: PState): (r: Round)
    requires Fits(e, st)
    ensures Fits(e, r.after) && Measure(e, r.after) <= Measure(e, st)
    ensures !r.AtEof? ==> Measure(e, r.after) < Measure(e, st)
    ensures r.AtEof? ==> r.after.next == |e.stream| && r.after.peek.None?
  {
    var (n, st1) := NextTok(e, st);
    if n.None? then AtEof(st1)
    else
      var (p, st2) := PeekTok(e, st1);
      ElementStep(e, st2, n.value, p)
  }

  /** `next_element`: the first element found, after which the line is
      expected to end; nothing only at the end of input. */
  function NextElement(e: Input, st: PState): (r: (Option<Spanned<A.TopLevel>>, PState))
    requires Fits(e, st)
    ensures Fits(e, r.1) && Measure(e, r.1) <= Measure(e, st)
    ensures r.0.Some? ==> Measure(e, r.1) < Measure(e, st) && !r.0.value.value.Table?
    ensures r.0.None? ==> r.1.next == |e.stream| && r.1.peek.None?
    decreases Measure(e, st)
  {
    match ElementRound(e, st)
    case AtEof(after) => (None, after)
    case Found(element, after) => (Some(element), AdvanceLine(e, after))
    case Again(after) => NextElement(e, after)
  }

  /** `parse_elements`: the elements in source order, until the input is
      used up. */
  function Elements(e: Input, st: PState, found: seq<Spanned<A.TopLevel>>): (r: (seq<Spanned<A.TopLevel>>, PState))
    requires Fits(e, st)
    ensures Fits(e, r.1) && r.1.next == |e.stream|
    decreases Measure(e, st)
  {
    var (element, st1) := NextElement(e, st);
    if element.None? then (found, st1)
    else Elements(e, st1, found + [element.value])
  }

  /** No element of `s` from index `from` on is a table. */
  predicate NoTablesFrom(s: seq<Spanned<A.TopLevel>>, from: nat)
  {
    forall i :: from <= i < |s| ==> !s[i].value.Table?
  }

  /** Draining the parser keeps what was found before and adds
      declarations, transition functions and production rules only. */
  lemma {:induction false} ElementsAreNotTables(e: Input, st: PState, found: seq<Spanned<A.TopLevel>>)
    requires Fits(e, st)
    ensures found <= Elements(e, st, found).0 && NoTablesFrom(Elements(e, st, found).0, |found|)
    decreases Measure(e, st)
  {
    var next := NextElement(e, st);
    if next.0.Some? {
      var more := found + [next.0.value];
      ElementsAreNotTables(e, next.1, more);
      var r := Elements(e, next.1, more).0;
      assert Elements(e, st, found).0 == r;
      assert found <= more <= r;
      assert NoTablesFrom(r, |found|) by {
        forall i | |found| <= i < |r|
          ensures !r[i].value.Table?
        {
          if i == |found| {
            assert r[i] == more[i];
          }
        }
      }
    }
  }

  /** The state a parser starts in. */
  function Start(): PState
  {
    PState(0, None, [])
  }
}
