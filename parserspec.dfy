// The behaviour of the current parser (automata/src/loader/parser.rs) as
// functions of an explicit parser state: the position in the lexer's item
// stream, the one-token peek slot, and the log. The `Parser` class in
// parser.dfy is proved to follow these functions step for step.
//
// The lexer is deterministic, so the parser's lazy pulls from it are modelled
// as reads from the lexer's full item stream.

module ParserSpec {
  import opened Common
  import opened Lexer
  import opened Log
  import opened LoaderContext
  import Ast

  type Tok = Spanned<Token>

  /** What the parser reads: the lexer's items and the end-of-input span. */
  datatype Input = Input(stream: seq<LexItem>, eof: Span)

  datatype PState = PState(next: nat, peek: Option<Tok>, log: seq<LogEntry>)

  /** The parser never holds a comment. */
  ghost predicate Fits(e: Input, st: PState)
  {
    st.next <= |e.stream| && (st.peek.Some? ==> !st.peek.value.value.Comment?)
  }

  /** Twice the items left plus one for a held token: taking a token lowers
      it, and filling the peek slot from the stream does too. */
  function Measure(e: Input, st: PState): nat
    requires st.next <= |e.stream|
  {
    2 * (|e.stream| - st.next) + (if st.peek.Some? then 1 else 0)
  }

  /** A state right after a peek: a token is held, or the input is used up. */
  ghost predicate Settled(e: Input, st: PState)
  {
    st.peek.Some? || st.next == |e.stream|
  }

  /** The token a settled state shows: the held one, or a line end at the
      end-of-input span. */
  function Shown(e: Input, st: PState): Tok
  {
    if st.peek.Some? then st.peek.value else Spanned(LineEnd, e.eof)
  }

  function Log1(st: PState, entry: LogEntry): (r: PState)
    ensures r.next == st.next && r.peek == st.peek && r.log == st.log + [entry]
  {
    st.(log := st.log + [entry])
  }

  function Unexpected(got: Token, expected: string): string
  {
    "unexpected " + Describe(got, true) + " expected " + expected
  }

  /** The errors logged for the lexical errors among items `[i, j)`. */
  function LexErrors(stream: seq<LexItem>, i: nat, j: nat): seq<LogEntry>
    requires i <= j <= |stream|
    decreases j - i
  {
    if i == j then []
    else
      (if stream[i].value.Err? then [ErrorAt("lexer: " + DebugLexError(stream[i].value.error), stream[i].span)] else [])
      + LexErrors(stream, i + 1, j)
  }

  /** Items the parser never sees as tokens. */
  predicate Skipped(item: LexItem)
  {
    item.value.Err? || item.value.token.Comment?
  }

  // ---------------------------------------------------------------------
  // Tokens.

  /** The lexer loop of `next_token_optional`. */
  function Pull(e: Input, st: PState): (r: (Option<Tok>, PState))
    requires Fits(e, st) && st.peek.None?
    ensures Fits(e, r.1) && st.next <= r.1.next
    ensures r.0.None? ==> r.1.next == |e.stream|
    ensures r.0.Some? ==> st.next < r.1.next && !r.0.value.value.Comment?
    ensures r.1.peek == if r.0.Some? && r.0.value.value == LineEnd then r.0 else None
    decreases |e.stream| - st.next
  {
    if st.next == |e.stream| then (None, st)
    else
      var item := e.stream[st.next];
      var st1 := st.(next := st.next + 1);
      if item.value.Err? then Pull(e, Log1(st1, ErrorAt("lexer: " + DebugLexError(item.value.error), item.span)))
      else if item.value.token.Comment? then Pull(e, st1)
      else if item.value.token == LineEnd then (Some(Spanned(LineEnd, item.span)), st1.(peek := Some(Spanned(LineEnd, item.span))))
      else (Some(Spanned(item.value.token, item.span)), st1)
  }

  /** Each lexical error passed over is logged once, in order. */
  lemma {:induction false} PullLogs(e: Input, st: PState)
    requires Fits(e, st) && st.peek.None?
    ensures Pull(e, st).1.log == st.log + LexErrors(e.stream, st.next, Pull(e, st).1.next)
    decreases |e.stream| - st.next
  {
    if st.next < |e.stream| {
      var item := e.stream[st.next];
      var st1 := st.(next := st.next + 1);
      var j := Pull(e, st).1.next;
      if item.value.Err? {
        var err := ErrorAt("lexer: " + DebugLexError(item.value.error), item.span);
        var st2 := Log1(st1, err);
        assert Pull(e, st) == Pull(e, st2);
        PullLogs(e, st2);
        assert LexErrors(e.stream, st.next, j) == [err] + LexErrors(e.stream, st1.next, j);
        assert st2.log + LexErrors(e.stream, st1.next, j) == st.log + LexErrors(e.stream, st.next, j);
      } else if item.value.token.Comment? {
        assert Pull(e, st) == Pull(e, st1);
        PullLogs(e, st1);
        assert LexErrors(e.stream, st.next, j) == [] + LexErrors(e.stream, st1.next, j);
      } else {
        assert j == st.next + 1;
        assert LexErrors(e.stream, st.next, j) == [] + LexErrors(e.stream, j, j);
      }
    }
  }

  /** Comments and lexical errors are passed over, and the token handed out
      is the first item that is neither. */
  lemma {:induction false} PullSkips(e: Input, st: PState)
    requires Fits(e, st) && st.peek.None?
    ensures Pull(e, st).0.None? ==> forall k :: st.next <= k < |e.stream| ==> Skipped(e.stream[k])
    ensures Pull(e, st).0.Some? ==>
      var last := e.stream[Pull(e, st).1.next - 1];
      !Skipped(last) && Pull(e, st).0.value == Spanned(last.value.token, last.span)
      && forall k :: st.next <= k < Pull(e, st).1.next - 1 ==> Skipped(e.stream[k])
    decreases |e.stream| - st.next
  {
    if st.next < |e.stream| {
      var item := e.stream[st.next];
      var st1 := st.(next := st.next + 1);
      if item.value.Err? {
        var st2 := Log1(st1, ErrorAt("lexer: " + DebugLexError(item.value.error), item.span));
        assert Pull(e, st) == Pull(e, st2);
        PullSkips(e, st2);
      } else if item.value.token.Comment? {
        assert Pull(e, st) == Pull(e, st1);
        PullSkips(e, st1);
      } else {
        assert Pull(e, st) == (Some(Spanned(item.value.token, item.span)), Pull(e, st).1);
        assert Pull(e, st).1.next == st.next + 1;
      }
    }
  }

  /** `next_token_optional`: a held line end stays held; any other held
      token is handed out; otherwise the lexer is pulled. */
  function NextOpt(e: Input, st: PState): (r: (Option<Tok>, PState))
    requires Fits(e, st)
    ensures Fits(e, r.1) && Measure(e, r.1) <= Measure(e, st)
    ensures r.0.Some? && r.0.value.value != LineEnd ==> Measure(e, r.1) < Measure(e, st)
    ensures r.0.Some? && r.0.value.value == LineEnd ==> r.1.peek == r.0
    ensures r.0.Some? ==> !r.0.value.value.Comment?
    ensures r.0.None? ==> r.1.next == |e.stream| && r.1.peek.None?
  {
    match st.peek
    case Some(t) => if t.value == LineEnd then (st.peek, st) else (st.peek, st.(peek := None))
    case None => Pull(e, st)
  }

  /** `peek_token_optional`. */
  function PeekOpt(e: Input, st: PState): (r: (Option<Tok>, PState))
    requires Fits(e, st)
    ensures Fits(e, r.1) && Measure(e, r.1) <= Measure(e, st)
    ensures r.1.peek == r.0 && (r.0.None? ==> r.1.next == |e.stream|)
    ensures Settled(e, st) ==> r.1 == st
  {
    if st.peek.None? then
      var (t, st1) := NextOpt(e, st);
      (t, st1.(peek := t))
    else (st.peek, st)
  }

  /** `next_token`: at the end of input, a line end at the eof span. From a
      settled state it hands out the shown token, and a line end stays. */
  function NextTok(e: Input, st: PState): (r: (Tok, PState))
    requires Fits(e, st)
    ensures Fits(e, r.1) && Measure(e, r.1) <= Measure(e, st)
    ensures r.0.value != LineEnd ==> Measure(e, r.1) < Measure(e, st)
    ensures !r.0.value.Comment?
    ensures Settled(e, st) ==>
      r.0 == Shown(e, st) && r.1 == if r.0.value == LineEnd then st else st.(peek := None)
  {
    var (t, st1) := NextOpt(e, st);
    (if t.Some? then t.value else Spanned(LineEnd, e.eof), st1)
  }

  /** `peek_token`: it settles the state, shows what it holds, and changes
      nothing when the state is already settled. */
  function PeekTok(e: Input, st: PState): (r: (Tok, PState))
    requires Fits(e, st)
    ensures Fits(e, r.1) && Measure(e, r.1) <= Measure(e, st)
    ensures Settled(e, r.1) && r.0 == Shown(e, r.1) && !r.0.value.Comment?
    ensures Settled(e, st) ==> r.1 == st
  {
    var (t, st1) := PeekOpt(e, st);
    (if t.Some? then t.value else Spanned(LineEnd, e.eof), st1)
  }

  /** The token the next `peek_token` shows. */
  function Upcoming(e: Input, st: PState): Tok
    requires Fits(e, st)
  {
    PeekTok(e, st).0
  }

  /** Peeking twice shows the same token and changes nothing the second
      time, and the peeked token is the one `next_token` hands out. */
  lemma PeekIdempotent(e: Input, st: PState)
    requires Fits(e, st)
    ensures PeekTok(e, PeekTok(e, st).1) == PeekTok(e, st)
    ensures NextTok(e, PeekTok(e, st).1).0 == PeekTok(e, st).0
  {
  }

  /** Once a line end is held it is handed out again and again, and only
      `advance_line` lets the parser past it. */
  lemma LineEndIsSticky(e: Input, st: PState)
    requires Fits(e, st) && st.peek.Some? && st.peek.value.value == LineEnd
    ensures NextOpt(e, st) == (st.peek, st)
    ensures NextTok(e, st) == (st.peek.value, st) && PeekTok(e, st) == (st.peek.value, st)
    ensures AdvanceLine(e, st) == st.(peek := None)
  {
  }

  /** `expect_token`: on a match the token is consumed; otherwise one error
      is logged and the token stays where it was. */
  function Expect(e: Input, st: PState, expected: Token): (r: (bool, Span, PState))
    requires Fits(e, st)
    ensures Fits(e, r.2) && Measure(e, r.2) <= Measure(e, st)
    ensures r.0 <==> Upcoming(e, st).value == expected
    ensures r.1 == Upcoming(e, st).span
    ensures r.0 && expected != LineEnd ==> Measure(e, r.2) < Measure(e, st)
    ensures r.0 ==> r.2.log == PeekTok(e, st).1.log
    ensures !r.0 ==> r.2 == Log1(PeekTok(e, st).1, ErrorAt(Unexpected(Upcoming(e, st).value, Describe(expected, false)), r.1))
  {
    var (t, st1) := PeekTok(e, st);
    if t.value == expected then
      var (_, st2) := NextTok(e, st1);
      (true, t.span, st2)
    else
      (false, t.span, Log1(st1, ErrorAt(Unexpected(t.value, Describe(expected, false)), t.span)))
  }

  /** `advance_line`: consumes the line end and empties the peek slot. */
  function AdvanceLine(e: Input, st: PState): (r: PState)
    requires Fits(e, st)
    ensures Fits(e, r) && Measure(e, r) <= Measure(e, st)
    ensures Settled(e, st) && Shown(e, st).value == LineEnd ==> r == st.(peek := None)
  {
    var (ok, _, st1) := Expect(e, st, LineEnd);
    if ok then st1.(peek := None) else st1
  }

  // ---------------------------------------------------------------------
  // Symbols, tuples, items and lists.

  /** `parse_as_symbol`: `~` and the epsilon spellings are epsilon, other
      identifiers are themselves, and anything else is logged. */
  function AsSymbol(st: PState, tok: Tok): (r: (Spanned<Ast.Symbol>, PState))
    ensures r.0.span == tok.span && r.1.next == st.next && r.1.peek == st.peek
    ensures r.0.value.Epsilon? <==> tok.value == Tilde || (tok.value.Ident? && tok.value.name in EPSILON_ALIASES)
    ensures tok.value.Ident? && r.0.value.Ident? ==> r.0.value.name == tok.value.name
    ensures tok.value.Ident? && r.0.value.Epsilon? ==> r.0.value.repr == tok.value.name
    ensures r.1.log == if tok.value == Tilde || tok.value.Ident? then st.log
                       else st.log + [ErrorAt(Unexpected(tok.value, "symbol ( " + Describe(Tilde, false) + " | "
                                                         + Describe(Ident(""), false) + " )"), tok.span)]
  {
    match tok.value
    case Tilde => (Spanned(Ast.Epsilon("~"), tok.span), st)
    case Ident(s) =>
      if s in EPSILON_ALIASES then (Spanned(Ast.Epsilon(s), tok.span), st)
      else (Spanned(Ast.Ident(s), tok.span), st)
    case _ =>
      (Spanned(Ast.Ident("<INVALID>"), tok.span),
       Log1(st, ErrorAt(Unexpected(tok.value, "symbol ( " + Describe(Tilde, false) + " | "
                                   + Describe(Ident(""), false) + " )"), tok.span)))
  }

  /** `parse_symbol`. */
  function ParseSymbol(e: Input, st: PState): (r: (Spanned<Ast.Symbol>, PState))
    requires Fits(e, st)
    ensures Fits(e, r.1) && Measure(e, r.1) <= Measure(e, st)
    ensures NextTok(e, st).0.value != LineEnd ==> Measure(e, r.1) < Measure(e, st)
  {
    var (t, st1) := NextTok(e, st);
    AsSymbol(st1, t)
  }

  function ItemExpected(): string
  {
    "item ( " + Describe(Tilde, false) + " | " + Describe(Ident(""), false) + " | " + Describe(LPar, false)
    + " | " + Describe(LBrace, false) + " | " + Describe(LBracket, false) + " )"
  }

  function ListKindOf(comma: bool, close: Token): Ast.ListKind
  {
    if close == RBrace then (if comma then Ast.BraceComma else Ast.Brace)
    else (if comma then Ast.BracketComma else Ast.Bracket)
  }

  /** `parse_item`: the upcoming token decides the form of the item. Unless
      that token is a line end, at least one token is consumed; a line end
      is left in place. */
  function ParseItem(e: Input, st: PState): (r: (Spanned<Ast.Item>, PState))
    requires Fits(e, st)
    ensures Fits(e, r.1) && Measure(e, r.1) <= Measure(e, st)
    ensures Upcoming(e, st).value != LineEnd ==> Measure(e, r.1) < Measure(e, st)
    ensures Upcoming(e, st).value == LineEnd ==> Upcoming(e, r.1).value == LineEnd
    decreases Measure(e, st), 2
  {
    var (t, st1) := PeekTok(e, st);
    if t.value.Ident? || t.value == Tilde then
      var (sym, st2) := ParseSymbol(e, st1);
      (Spanned(Ast.SymbolItem(sym.value), sym.span), st2)
    else if t.value == LPar then
      var (tu, st2) := ParseTupple(e, st1);
      (Spanned(Ast.TupleItem(tu.value), tu.span), st2)
    else if t.value == LBrace || t.value == LBracket then
      var (l, st2) := ParseList(e, st1);
      (Spanned(Ast.ListItem(l.value.0, l.value.1), l.span), st2)
    else
      var (got, st2) := NextTok(e, st1);
      (Spanned(Ast.SymbolItem(Ast.Ident("<INVALID>")), got.span),
       Log1(st2, ErrorAt(Unexpected(got.value, ItemExpected()), got.span)))
  }

  /** `parse_tupple`: without an opening parenthesis, the empty tuple at the
      offending token, which is logged and left unconsumed. */
  function ParseTupple(e: Input, st: PState): (r: (Spanned<Ast.Tuple>, PState))
    requires Fits(e, st)
    ensures Fits(e, r.1) && Measure(e, r.1) <= Measure(e, st)
    ensures Upcoming(e, st).value == LPar ==> Measure(e, r.1) < Measure(e, st)
    decreases Measure(e, st), 1
  {
    var (matched, start, st1) := Expect(e, st, LPar);
    if !matched then (Spanned(Ast.Tuple([]), start), st1)
    else TuppleLoop(e, st1, [], start)
  }

  /** The optional comma after an item of a tuple. */
  function SkipComma(e: Input, st: PState): (r: PState)
    requires Fits(e, st)
    ensures Fits(e, r) && Measure(e, r) <= Measure(e, st)
    ensures Upcoming(e, st).value == LineEnd ==> Upcoming(e, r).value == LineEnd
  {
    var (c, st1) := PeekTok(e, st);
    if c.value == Comma then NextTok(e, st1).1 else st1
  }

  /** The loop of `parse_tupple` after the opening parenthesis. The items
      parsed so far are kept when the line ends before the closing one. */
  function TuppleLoop(e: Input, st: PState, items: seq<Spanned<Ast.Item>>, start: Span): (r: (Spanned<Ast.Tuple>, PState))
    requires Fits(e, st)
    ensures Fits(e, r.1) && Measure(e, r.1) <= Measure(e, st)
    decreases Measure(e, st), 4
  {
    var (t, st1) := PeekTok(e, st);
    if t.value == RPar then
      var (_, end, st2) := Expect(e, st1, RPar);
      (Spanned(Ast.Tuple(items), Join(start, end)), st2)
    else
      match TuppleTurn(e, st1, items, start)
      case TupleCut(result, after) => (result, after)
      case TupleGoes(it, after) => TuppleLoop(e, after, items + [it], start)
  }

  /** How one turn of the loop of `parse_tupple` ends: cut off by the end
      of the line, or with an item parsed and the loop going on. */
  datatype TupleTurn =
    | TupleCut(result: Spanned<Ast.Tuple>, after: PState)
    | TupleGoes(item: Spanned<Ast.Item>, after: PState)

  /** A turn of the loop of `parse_tupple` that parses an item and an
      optional comma, with `items` parsed so far. Unless the line has
      ended, it consumes at least one token. */
  function TuppleTurn(e: Input, st: PState, items: seq<Spanned<Ast.Item>>, start: Span): (r: TupleTurn)
    requires Fits(e, st)
    ensures Fits(e, r.after) && Measure(e, r.after) <= Measure(e, st)
    ensures r.TupleGoes? ==> Measure(e, r.after) < Measure(e, st)
    decreases Measure(e, st), 3
  {
    var (it, st1) := ParseItem(e, st);
    var st2 := SkipComma(e, st1);
    var (l, st3) := PeekTok(e, st2);
    if l.value == LineEnd then
      TupleCut(Spanned(Ast.Tuple(items + [it]), Join(start, l.span)),
               Log1(st3, ErrorAt("unexpected eol expected " + Describe(RPar, false), l.span)))
    else
      TupleGoes(it, st3)
  }

  /** `parse_list`: the opening token decides the closing one, and a list
      opened by `{` is never a bracket list. A missing opening token is
      logged and gives the empty list. */
  function ParseList(e: Input, st: PState): (r: (Spanned<(seq<Spanned<Ast.Item>>, Ast.ListKind)>, PState))
    requires Fits(e, st)
    ensures Fits(e, r.1) && Measure(e, r.1) <= Measure(e, st)
    ensures NextTok(e, st).0.value != LineEnd ==> Measure(e, r.1) < Measure(e, st)
    decreases Measure(e, st), 1
  {
    var (t, st1) := NextTok(e, st);
    if t.value == LBrace then ListLoop(e, st1, [], t.span, RBrace, false)
    else if t.value == LBracket then ListLoop(e, st1, [], t.span, RBracket, false)
    else
      (Spanned(([], Ast.BracketComma), t.span),
       Log1(st1, ErrorAt(Unexpected(t.value, "list start ( " + Describe(RBrace, false) + " | "
                                    + Describe(RBracket, false) + " )"), t.span)))
  }

  const COMMA_WARNING := "inconsistent comma delimiting. use commas to delimit all or no items"

  /** What follows the `count`-th item of a list: a warning when the comma
      usage changes after the first item, then the optional comma.
      The result records whether any comma has been consumed. */
  function ListSeparator(e: Input, st: PState, count: nat, close: Token, comma: bool): (r: (bool, PState))
    requires Fits(e, st)
    ensures Fits(e, r.1) && Measure(e, r.1) <= Measure(e, st)
    ensures Upcoming(e, st).value == LineEnd ==> Upcoming(e, r.1).value == LineEnd
    ensures r.0 <==> comma || Upcoming(e, st).value == Comma
  {
    var (p, st1) := PeekTok(e, st);
    var st2 := if count != 1 && p.value != close && p.value != LineEnd && (p.value == Comma) != comma
               then Log1(st1, WarningAt(COMMA_WARNING, p.span)) else st1;
    if p.value == Comma then (true, NextTok(e, st2).1) else (comma, st2)
  }

  /** The error for a list cut off by the end of the line. `parse_list`
      only ever closes a list with `}` or `]`. */
  function EolInList(close: Token): string
    requires close == RBrace || close == RBracket
  {
    "unexpected eol expected list close ( " + (if close == RBrace then Describe(RBrace, false) else Describe(RBracket, false)) + " )"
  }

  /** One pass of the loop of `parse_list`: an item and what follows it.
      Unless the line has ended, it consumes at least one token. */
  function ListPass(e: Input, st: PState, count: nat, close: Token, comma: bool): (r: (Spanned<Ast.Item>, bool, PState))
    requires Fits(e, st)
    ensures Fits(e, r.2) && Measure(e, r.2) <= Measure(e, st)
    ensures Upcoming(e, st).value != LineEnd ==> Measure(e, r.2) < Measure(e, st)
    ensures Upcoming(e, st).value == LineEnd ==> Upcoming(e, r.2).value == LineEnd
    decreases Measure(e, st), 3
  {
    var (it, st1) := ParseItem(e, st);
    var (comma', st2) := ListSeparator(e, st1, count, close, comma);
    (it, comma', st2)
  }

  /** How one turn of the loop of `parse_list` ends: the list is over
      (closed, or cut off by the end of the line), or an item has been
      parsed and the loop goes on. */
  datatype Turn =
    | Ended(result: Spanned<(seq<Spanned<Ast.Item>>, Ast.ListKind)>, after: PState)
    | Goes(item: Spanned<Ast.Item>, comma: bool, after: PState)

  /** One turn of the loop of `parse_list`, with `list` parsed so far. */
  function ListRound(e: Input, st: PState, list: seq<Spanned<Ast.Item>>, start: Span, close: Token, comma: bool): (r: Turn)
    requires Fits(e, st) && (close == RBrace || close == RBracket)
    ensures Fits(e, r.after) && Measure(e, r.after) <= Measure(e, st)
    ensures r.Goes? ==> Measure(e, r.after) < Measure(e, st)
    decreases Measure(e, st), 5
  {
    var (t, st1) := PeekTok(e, st);
    if t.value == close then
      var (_, end, st2) := Expect(e, st1, close);
      Ended(Spanned((list, ListKindOf(comma, close)), Join(start, end)), st2)
    else ListItemTurn(e, st1, list, start, close, comma)
  }

  /** A turn that parses an item. A list cut off by the end of the line
      keeps its items and is tagged `BraceComma`, whichever token opened
      it. */
  function ListItemTurn(e: Input, st: PState, list: seq<Spanned<Ast.Item>>, start: Span, close: Token, comma: bool): (r: Turn)
    requires Fits(e, st) && (close == RBrace || close == RBracket)
    requires Settled(e, st) && Shown(e, st).value != close
    ensures Fits(e, r.after) && Measure(e, r.after) <= Measure(e, st)
    ensures r.Goes? ==> Measure(e, r.after) < Measure(e, st)
    decreases Measure(e, st), 4
  {
    var (it, comma', st2) := ListPass(e, st, |list| + 1, close, comma);
    AfterListItem(e, st2, list, it, start, close, comma')
  }

  /** What follows an item of a list: the end of the line cuts the list
      off, anything else lets the loop go on. */
  function AfterListItem(e: Input, st: PState, list: seq<Spanned<Ast.Item>>, it: Spanned<Ast.Item>, start: Span, close: Token, comma: bool): (r: Turn)
    requires Fits(e, st) && (close == RBrace || close == RBracket)
    ensures Fits(e, r.after) && Measure(e, r.after) <= Measure(e, st)
    ensures r.Goes? <==> Upcoming(e, st).value != LineEnd
  {
    var (l, st1) := PeekTok(e, st);
    if l.value == LineEnd then
      Ended(Spanned((list + [it], Ast.BraceComma), Join(start, l.span)), Log1(st1, ErrorAt(EolInList(close), l.span)))
    else
      Goes(it, comma, st1)
  }

  /** The loop of `parse_list` after the opening token. */
  function ListLoop(e: Input, st: PState, list: seq<Spanned<Ast.Item>>, start: Span, close: Token, comma: bool)
    : (r: (Spanned<(seq<Spanned<Ast.Item>>, Ast.ListKind)>, PState))
    requires Fits(e, st) && (close == RBrace || close == RBracket)
    ensures Fits(e, r.1) && Measure(e, r.1) <= Measure(e, st)
    decreases Measure(e, st), 6
  {
    match ListRound(e, st, list, start, close, comma)
    case Ended(result, after) => (result, after)
    case Goes(it, comma', after) => ListLoop(e, after, list + [it], start, close, comma')
  }

  /** The kind a list closed by `close` may have: its kind follows its
      closing token, except that a list cut off by the end of the line is
      always `BraceComma`; and once a comma has been consumed, the kind is a
      comma kind. */
  predicate KindFits(kind: Ast.ListKind, close: Token, comma: bool)
  {
    (close == RBrace ==> kind.Brace? || kind.BraceComma?)
    && (close != RBrace ==> !kind.Brace?)
    && (comma ==> kind.BraceComma? || kind.BracketComma?)
  }

  /** A turn that ends the list keeps the items parsed so far, starts the
      list at its opening token and gives it a kind that fits; a turn that
      goes on never forgets a comma. */
  lemma ListRoundShape(e: Input, st: PState, list: seq<Spanned<Ast.Item>>, start: Span, close: Token, comma: bool)
    requires Fits(e, st) && (close == RBrace || close == RBracket)
    ensures var r := ListRound(e, st, list, start, close, comma);
      (r.Ended? ==> r.result.span.start == start.start && list <= r.result.value.0 && KindFits(r.result.value.1, close, comma))
      && (r.Goes? ==> (comma ==> r.comma))
  {
    var (t, st1) := PeekTok(e, st);
    if t.value != close {
      ListItemTurnShape(e, st1, list, start, close, comma);
    }
  }

  /** The same for a turn that parses an item: cut off by the end of the
      line, the list keeps its items and is `BraceComma`. */
  lemma ListItemTurnShape(e: Input, st: PState, list: seq<Spanned<Ast.Item>>, start: Span, close: Token, comma: bool)
    requires Fits(e, st) && (close == RBrace || close == RBracket)
    requires Settled(e, st) && Shown(e, st).value != close
    ensures var r := ListItemTurn(e, st, list, start, close, comma);
      (r.Ended? ==> r.result.span.start == start.start && list <= r.result.value.0 && r.result.value.1 == Ast.BraceComma)
      && (r.Goes? ==> (comma ==> r.comma))
  {
    var (it, comma', st2) := ListPass(e, st, |list| + 1, close, comma);
    assert list <= list + [it];
  }

  /** A list keeps the items parsed before each turn, starts where its
      opening token does, and has a kind that fits its closing token and
      its commas. */
  lemma {:induction false} ListLoopShape(e: Input, st: PState, list: seq<Spanned<Ast.Item>>, start: Span, close: Token, comma: bool)
    requires Fits(e, st) && (close == RBrace || close == RBracket)
    ensures var r := ListLoop(e, st, list, start, close, comma).0;
      r.span.start == start.start && list <= r.value.0 && KindFits(r.value.1, close, comma)
    decreases Measure(e, st)
  {
    ListRoundShape(e, st, list, start, close, comma);
    var t := ListRound(e, st, list, start, close, comma);
    if t.Goes? {
      ListLoopShape(e, t.after, list + [t.item], start, close, t.comma);
    }
  }

  /** The opening token decides the kind: a list opened by `{` is a brace
      list, and one opened by `[` is never `Brace`. */
  lemma ListKindMatchesOpener(e: Input, st: PState)
    requires Fits(e, st)
    ensures NextTok(e, st).0.value == LBrace ==> ParseList(e, st).0.value.1.Brace? || ParseList(e, st).0.value.1.BraceComma?
    ensures NextTok(e, st).0.value == LBracket ==> !ParseList(e, st).0.value.1.Brace?
    ensures ParseList(e, st).0.span.start == NextTok(e, st).0.span.start
  {
    var (t, st1) := NextTok(e, st);
    if t.value == LBrace {
      ListLoopShape(e, st1, [], t.span, RBrace, false);
    } else if t.value == LBracket {
      ListLoopShape(e, st1, [], t.span, RBracket, false);
    }
  }

  /** The upcoming token decides the kind of item: a tuple exactly at `(`,
      a bare symbol exactly when neither `(`, `{` nor `[` is upcoming. */
  lemma ItemKind(e: Input, st: PState)
    requires Fits(e, st)
    ensures ParseItem(e, st).0.value.SymbolItem? <==> !(Upcoming(e, st).value in {LPar, LBrace, LBracket})
    ensures ParseItem(e, st).0.value.TupleItem? <==> Upcoming(e, st).value == LPar
  {
    var (t, st1) := PeekTok(e, st);
    if t.value == LPar {
      assert ParseItem(e, st).0.value == Ast.TupleItem(ParseTupple(e, st1).0.value);
    } else if t.value == LBrace || t.value == LBracket {
      assert ParseItem(e, st).0.value.ListItem?;
    }
  }

  /** A tuple starts at the token where it was expected; without an opening
      parenthesis it is the empty tuple at that token, which is logged as
      unexpected and left unconsumed. */
  lemma TuppleShape(e: Input, st: PState)
    requires Fits(e, st)
    ensures ParseTupple(e, st).0.span.start == Upcoming(e, st).span.start
    ensures Upcoming(e, st).value != LPar ==>
      ParseTupple(e, st).0 == Spanned(Ast.Tuple([]), Upcoming(e, st).span)
      && ParseTupple(e, st).1 == Log1(PeekTok(e, st).1, ErrorAt(Unexpected(Upcoming(e, st).value, Describe(LPar, false)), Upcoming(e, st).span))
  {
    var (matched, start, st1) := Expect(e, st, LPar);
    if matched {
      TuppleLoopKeeps(e, st1, [], start);
    }
  }

  /** A tuple keeps the items parsed before each pass and starts where its
      opening parenthesis does. */
  lemma {:induction false} TuppleLoopKeeps(e: Input, st: PState, items: seq<Spanned<Ast.Item>>, start: Span)
    requires Fits(e, st)
    ensures TuppleLoop(e, st, items, start).0.span.start == start.start
    ensures items <= TuppleLoop(e, st, items, start).0.value.items
    decreases Measure(e, st)
  {
    var (t, st1) := PeekTok(e, st);
    if t.value != RPar {
      match TuppleTurn(e, st1, items, start)
      case TupleCut(_, _) =>
      case TupleGoes(it, after) =>
        TuppleLoopKeeps(e, after, items + [it], start);
    }
  }

  /** A list that does not start with `{` or `[` is logged, names both
      closing tokens in its message (as the source does), and is the empty
      `BracketComma` list at the offending token. */
  lemma ListWrongOpener(e: Input, st: PState)
    requires Fits(e, st)
    ensures !(NextTok(e, st).0.value in {LBrace, LBracket}) ==>
      ParseList(e, st).0 == Spanned(([], Ast.BracketComma), NextTok(e, st).0.span)
      && ParseList(e, st).1 == Log1(NextTok(e, st).1, ErrorAt(Unexpected(NextTok(e, st).0.value, "list start ( "
                     + Describe(RBrace, false) + " | " + Describe(RBracket, false) + " )"), NextTok(e, st).0.span))
  {
  }

  // ---------------------------------------------------------------------
  // Production rules and transition functions.

  /** The left-hand side of `parse_production_rule`: symbols up to `->` or
      the end of the line. */
  function LhsLoop(e: Input, st: PState, group: seq<Spanned<Ast.Symbol>>, groupEnd: Span)
    : (r: (seq<Spanned<Ast.Symbol>>, Span, PState))
    requires Fits(e, st)
    ensures Fits(e, r.2) && Measure(e, r.2) <= Measure(e, st)
    ensures group <= r.0 && Settled(e, r.2) && Shown(e, r.2).value in {LSmallArrow, LineEnd}
    decreases Measure(e, st)
  {
    var (t, st1) := PeekTok(e, st);
    if t.value == LSmallArrow || t.value == LineEnd then (group, groupEnd, st1)
    else
      var (sym, st2) := ParseSymbol(e, st1);
      LhsLoop(e, st2, group + [sym], sym.span)
  }

  /** The symbols of one alternative: up to `|` or the end of the line. */
  function GroupSymbols(e: Input, st: PState, group: seq<Spanned<Ast.Symbol>>): (r: (seq<Spanned<Ast.Symbol>>, PState))
    requires Fits(e, st)
    ensures Fits(e, r.1) && Measure(e, r.1) <= Measure(e, st)
    ensures group <= r.0 && Settled(e, r.1) && Shown(e, r.1).value in {Or, LineEnd}
    decreases Measure(e, st)
  {
    var (t, st1) := PeekTok(e, st);
    if t.value == LineEnd || t.value == Or then (group, st1)
    else
      var (sym, st2) := ParseSymbol(e, st1);
      GroupSymbols(e, st2, group + [sym])
  }

  /** The span of a group: from its first to its last symbol, or `start`
      for an empty one. */
  function GroupSpan<T>(group: seq<Spanned<T>>, start: Span): Span
  {
    Join(if |group| == 0 then start else group[0].span, if |group| == 0 then start else group[|group| - 1].span)
  }

  /** One alternative of the right-hand side; an empty one is logged and
      kept. */
  function OneGroup(e: Input, st: PState, start: Span): (r: (Spanned<Ast.ProductionGroup>, PState))
    requires Fits(e, st)
    ensures Fits(e, r.1) && Measure(e, r.1) <= Measure(e, st)
    ensures Settled(e, r.1) && Shown(e, r.1).value in {Or, LineEnd}
    ensures r.0.span == GroupSpan(r.0.value.symbols, start)
  {
    var (g, st1) := GroupSymbols(e, st, []);
    var (p, st2) := PeekTok(e, st1);
    var st3 := if |g| == 0 then Log1(st2, ErrorAt("cannot have empty production group", p.span)) else st2;
    (Spanned(Ast.ProductionGroup(g), GroupSpan(g, start)), st3)
  }

  /** The alternatives of the right-hand side, separated by `|`. */
  function GroupsLoop(e: Input, st: PState, groups: seq<Spanned<Ast.ProductionGroup>>, start: Span)
    : (r: (seq<Spanned<Ast.ProductionGroup>>, PState))
    requires Fits(e, st)
    ensures Fits(e, r.1) && Measure(e, r.1) <= Measure(e, st)
    ensures groups <= r.0 && |r.0| > |groups|
    ensures Settled(e, r.1) && Shown(e, r.1).value == LineEnd
    decreases Measure(e, st)
  {
    var (g, st1) := OneGroup(e, st, start);
    var (q, st2) := PeekTok(e, st1);
    if q.value == Or then GroupsLoop(e, NextTok(e, st2).1, groups + [g], start)
    else (groups + [g], st2)
  }

  /** `parse_production_rule`: always gives a rule. Without `->` the
      right-hand side is empty and the missing arrow is logged. */
  function ProductionRule(e: Input, st: PState, sym: Spanned<Ast.Symbol>): (r: (Option<Spanned<Ast.TopLevel>>, PState))
    requires Fits(e, st)
    ensures Fits(e, r.1) && Measure(e, r.1) <= Measure(e, st)
    ensures r.0.Some? && r.0.value.value.ProductionRule?
    ensures r.0.value.span.start == sym.span.start
    ensures |r.0.value.value.lhs.value.symbols| >= 1 && r.0.value.value.lhs.value.symbols[0] == sym
    ensures Settled(e, r.1) && Shown(e, r.1).value == LineEnd
  {
    var (lhs, lhsEnd, st1) := LhsLoop(e, st, [sym], sym.span);
    var start := sym.span;
    var lhsGroup := Spanned(Ast.ProductionGroup(lhs), Join(start, lhsEnd));
    var (ok, _, st2) := Expect(e, st1, LSmallArrow);
    if !ok then
      (Some(Spanned(Ast.ProductionRule(lhsGroup, Spanned([], lhsEnd)), Join(start, lhsEnd))), st2)
    else
      var (groups, st3) := GroupsLoop(e, st2, [], start);
      var st4 := if |groups| == 0 then Log1(st3, ErrorAt("cannot have empty production rule", Join(start, lhsEnd))) else st3;
      var rules := GroupSpan(groups, start);
      var rulesEnd := if |groups| == 0 then start else groups[|groups| - 1].span;
      (Some(Spanned(Ast.ProductionRule(lhsGroup, Spanned(groups, rules)), Join(start, rulesEnd))), st4)
  }

  /** `parse_transition_function`: the name, its argument tuple, `=` and
      the item; nothing when `=` is missing. */
  function TransitionFunction(e: Input, st: PState, ident: string, start: Span): (r: (Option<Spanned<Ast.TopLevel>>, PState))
    requires Fits(e, st)
    ensures Fits(e, r.1) && Measure(e, r.1) <= Measure(e, st)
    ensures r.0.Some? ==>
      (r.0.value.value.TransitionFunc? && r.0.value.value.dest.value.0 == Spanned(ident, start)
       && r.0.value.span.start == start.start)
  {
    var (tuple, st1) := ParseTupple(e, st);
    var dest := Spanned((Spanned(ident, start), tuple), Join(start, tuple.span));
    var (ok, _, st2) := Expect(e, st1, Eq);
    if !ok then (None, st2)
    else
      var (item, st3) := ParseItem(e, st2);
      (Some(Spanned(Ast.TransitionFunc(dest, item), Join(start, item.span))), st3)
  }

  // ---------------------------------------------------------------------
  // Top-level elements.

  /** The recovery loop: tokens are dropped up to and including a line end. */
  function SkipLine(e: Input, st: PState): (r: PState)
    requires Fits(e, st)
    ensures Fits(e, r) && Measure(e, r) <= Measure(e, st)
    decreases Measure(e, st)
  {
    var (t, st1) := NextTok(e, st);
    if t.value == LineEnd then st1 else SkipLine(e, st1)
  }

  /** One pass of the loop of `next_element`, given the token taken and the
      one after it: an empty line is passed over, a line that starts no
      element is logged and dropped, and otherwise an element is parsed. */
  function ElementStep(e: Input, st: PState, next: Tok, p: Tok): (r: (Option<Spanned<Ast.TopLevel>>, PState))
    requires Fits(e, st) && Settled(e, st) && Shown(e, st) == p
    ensures Fits(e, r.1) && Measure(e, r.1) <= Measure(e, st)
    ensures next.value == LineEnd ==> r.0.None?
    ensures next.value == LineEnd && p.value == LineEnd && st.peek.Some? ==> Measure(e, r.1) < Measure(e, st)
    ensures r.0.Some? ==> !r.0.value.value.Table?
    ensures r.0.Some? && next.value.Ident? && p.value == LPar ==> r.0.value.value.TransitionFunc?
    ensures r.0.Some? && next.value.Ident? && p.value == Eq ==> r.0.value.value.ItemDecl?
    ensures r.0.Some? && !(next.value.Ident? && p.value in {LPar, Eq}) ==> r.0.value.value.ProductionRule?
  {
    if next.value == LineEnd then
      (None, AdvanceLine(e, st))
    else if next.value.Ident? && p.value == LPar then
      TransitionFunction(e, st, next.value.name, next.span)
    else if next.value.Ident? && p.value == Eq then
      var (ok, _, st1) := Expect(e, st, Eq);
      if !ok then (None, st1)
      else
        var (item, st2) := ParseItem(e, st1);
        (Some(Spanned(Ast.ItemDecl(Spanned(next.value.name, next.span), item), Join(next.span, item.span))), st2)
    else if (next.value.Ident? || next.value == Tilde) && (p.value == LSmallArrow || p.value.Ident? || p.value == Tilde) then
      var (sym, st1) := AsSymbol(st, next);
      ProductionRule(e, st1, sym)
    else if next.value.Ident? then
      var msg := Unexpected(p.value, Describe(Eq, false) + " | " + Describe(LSmallArrow, false));
      (None, SkipLine(e, Log1(st, ErrorAt(msg, p.span))))
    else
      (None, SkipLine(e, Log1(st, ErrorAt(Unexpected(next.value, Describe(Ident(""), false)), next.span))))
  }

  /** The loop of `next_element`: the first element found is returned, and
      nothing is returned only at the end of input. */
  function ElementLoop(e: Input, st: PState): (r: (Option<Spanned<Ast.TopLevel>>, PState))
    requires Fits(e, st)
    ensures Fits(e, r.1) && Measure(e, r.1) <= Measure(e, st)
    ensures r.0.Some? ==> Measure(e, r.1) < Measure(e, st) && !r.0.value.value.Table?
    ensures r.0.None? ==> r.1.next == |e.stream| && r.1.peek.None?
    decreases Measure(e, st)
  {
    var (n, st1) := NextOpt(e, st);
    if n.None? then (None, st1)
    else
      var (p, st2) := PeekTok(e, st1);
      var (found, st3) := ElementStep(e, st2, n.value, p);
      if found.Some? then (found, st3) else ElementLoop(e, st3)
  }

  /** `next_element`: the element found, after which the rest of its line
      is expected to be empty. */
  function NextElement(e: Input, st: PState): (r: (Option<Spanned<Ast.TopLevel>>, PState))
    requires Fits(e, st)
    ensures Fits(e, r.1) && Measure(e, r.1) <= Measure(e, st)
    ensures r.0.Some? ==> Measure(e, r.1) < Measure(e, st) && !r.0.value.value.Table?
    ensures r.0.None? ==> r.1.next == |e.stream|
  {
    var (found, st1) := ElementLoop(e, st);
    if found.None? then (None, st1) else (found, AdvanceLine(e, st1))
  }

  /** Iterating the parser to the end, appending every element in order to
      `found`. The input is used up. */
  function Elements(e: Input, st: PState, found: seq<Spanned<Ast.TopLevel>>): (r: (seq<Spanned<Ast.TopLevel>>, PState))
    requires Fits(e, st)
    ensures Fits(e, r.1) && r.1.next == |e.stream|
    decreases Measure(e, st)
  {
    var (element, st1) := NextElement(e, st);
    if element.None? then (found, st1)
    else Elements(e, st1, found + [element.value])
  }

  /** No element of `s` from index `from` on is a table. */
  predicate NoTablesFrom(s: seq<Spanned<Ast.TopLevel>>, from: nat)
  {
    forall i :: from <= i < |s| ==> !s[i].value.Table?
  }

  /** Draining the parser keeps what was found before and adds
      declarations, transition functions and production rules only: no
      element is a table. */
  lemma {:induction false} ElementsAreNotTables(e: Input, st: PState, found: seq<Spanned<Ast.TopLevel>>)
    requires Fits(e, st)
    ensures found <= Elements(e, st, found).0 && NoTablesFrom(Elements(e, st, found).0, |found|)
    decreases Measure(e, st)
  {
    var next := NextElement(e, st);
    if next.0.Some? {
      var more := found + [next.0.value];
      ElementsAreNotTables(e, next.1, more);
      var r := Elements(e, next.1, more).0;
      assert Elements(e, st, found).0 == r;
      assert found <= more <= r;
      assert NoTablesFrom(r, |found|) by {
        forall i | |found| <= i < |r|
          ensures !r[i].value.Table?
        {
          if i == |found| {
            assert r[i] == more[i];
          }
        }
      }
    }
  }

  /** The state a parser starts in. */
  function Start(): PState
  {
    PState(0, None, [])
  }
}
