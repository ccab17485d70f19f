// The oldest parser (src/parser.rs) as functions of an explicit parser
// state: the position in the lexer's item stream and the log. The source
// wraps the lexer in a `Peekable`; since the lexer is deterministic, its
// one-item buffer is the item at `next`, and peeking leaves `next` alone.
//
// Two places of the source do not terminate on some inputs: `peek_token`
// on a lexical error, and `parse_list` on a token that cannot start an
// item. Both are modelled as written (`PeekRoundAsWritten`,
// `ListRoundAsWritten`) together with the lemmas that exhibit the endless
// loop; the parser itself uses the corrected `PeekTok` and `ParseItem`.
// The class EarlyParser.Parser is proved against these functions.

module EarlyParserSpec {
  import opened Common
  import opened EarlyLexer
  import A = EarlyAst

  type Tok = Spanned<Token>

  /** The lexer's items for the whole source, and the end-of-input span. */
  datatype Input = Input(stream: seq<LexItem>, eof: Span)

  datatype PState = PState(next: nat, log: seq<A.Log>)

  ghost predicate Fits(e: Input, st: PState)
  {
    st.next <= |e.stream|
  }

  function Measure(e: Input, st: PState): nat
    requires Fits(e, st)
  {
    |e.stream| - st.next
  }

  /** Every record this parser logs is an error of kind `Lexer`. */
  function ErrorLog(message: string, range: Span): A.Log
  {
    A.Log(message, range, A.Error, A.LexerKind)
  }

  function Log1(st: PState, entry: A.Log): (r: PState)
    ensures r.next == st.next && r.log == st.log + [entry]
  {
    st.(log := st.log + [entry])
  }

  /** An item `next_token` passes over: a comment or a lexical error. */
  predicate Passed(item: LexItem)
  {
    item.value.Err? || item.value.token.Comment?
  }

  /** The records logged for the lexical errors among `stream[i..j]`. */
  function LexErrors(stream: seq<LexItem>, i: nat, j: nat): seq<A.Log>
    requires i <= j <= |stream|
    decreases j - i
  {
    if i == j then []
    else
      var item := stream[i];
      (if item.value.Err? then [ErrorLog(DebugLexError(item.value.error), item.span)] else [])
      + LexErrors(stream, i + 1, j)
  }

  // ---------------------------------------------------------------------
  // Tokens.

  /** The loop of `next_token` up to the token it returns: comments are
      dropped and lexical errors are logged and dropped. */
  function Settle(e: Input, st: PState): (r: PState)
    requires Fits(e, st)
    ensures Fits(e, r) && st.next <= r.next
    ensures r.next < |e.stream| ==> !Passed(e.stream[r.next])
    decreases |e.stream| - st.next
  {
    if st.next == |e.stream| then st
    else
      var item := e.stream[st.next];
      var st1 := st.(next := st.next + 1);
      if item.value.Err? then Settle(e, Log1(st1, ErrorLog(DebugLexError(item.value.error), item.span)))
      else if item.value.token.Comment? then Settle(e, st1)
      else st
  }

  /** The token at `next` of a settled state, if any. */
  function Front(e: Input, st: PState): (r: Option<Tok>)
    requires Fits(e, st)
  {
    if st.next < |e.stream| && e.stream[st.next].value.Ok? then
      Some(Spanned(e.stream[st.next].value.token, e.stream[st.next].span))
    else None
  }

  /** `next_token`: the first item that is neither a comment nor an error,
      which is taken. */
  function NextTok(e: Input, st: PState): (r: (Option<Tok>, PState))
    requires Fits(e, st)
    ensures Fits(e, r.1) && st.next <= r.1.next
    ensures r.0.None? ==> r.1.next == |e.stream|
    ensures r.0.Some? ==> st.next < r.1.next && !r.0.value.value.Comment?
  {
    var st1 := Settle(e, st);
    if st1.next == |e.stream| then (None, st1)
    else (Front(e, st1), st1.(next := st1.next + 1))
  }

  /** `peek_token` as intended: the token `next_token` would return, with
      the comments and errors before it passed over. */
  function PeekTok(e: Input, st: PState): (r: (Option<Tok>, PState))
    requires Fits(e, st)
    ensures Fits(e, r.1) && st.next <= r.1.next
    ensures r.0.None? <==> r.1.next == |e.stream|
    ensures r.0.Some? ==> !r.0.value.value.Comment?
  {
    var st1 := Settle(e, st);
    (Front(e, st1), st1)
  }

  /** The token the next `peek_token` shows, if any. */
  function Upcoming(e: Input, st: PState): Option<Tok>
    requires Fits(e, st)
  {
    PeekTok(e, st).0
  }

  predicate UpcomingIs(e: Input, st: PState, t: Token)
    requires Fits(e, st)
  {
    Upcoming(e, st).Some? && Upcoming(e, st).value.value == t
  }

  lemma {:induction false} SettleIdempotent(e: Input, st: PState)
    requires Fits(e, st)
    ensures Settle(e, Settle(e, st)) == Settle(e, st)
    decreases |e.stream| - st.next
  {
    if st.next < |e.stream| {
      var item := e.stream[st.next];
      var st1 := st.(next := st.next + 1);
      if item.value.Err? {
        SettleIdempotent(e, Log1(st1, ErrorLog(DebugLexError(item.value.error), item.span)));
      } else if item.value.token.Comment? {
        SettleIdempotent(e, st1);
      }
    }
  }

  /** Peeking shows the token `next_token` returns, and after a peek
      `next_token` returns it with no further log records. */
  lemma PeekAgreesWithNext(e: Input, st: PState)
    requires Fits(e, st)
    ensures PeekTok(e, st).0 == NextTok(e, st).0
    ensures NextTok(e, PeekTok(e, st).1) == NextTok(e, st)
    ensures PeekTok(e, PeekTok(e, st).1) == PeekTok(e, st)
  {
    SettleIdempotent(e, st);
  }

  /** Comments and lexical errors before the token are passed over, and
      each error is logged once, in order. */
  lemma {:induction false} SettleLogs(e: Input, st: PState)
    requires Fits(e, st)
    ensures forall k :: st.next <= k < Settle(e, st).next ==> Passed(e.stream[k])
    ensures Settle(e, st).log == st.log + LexErrors(e.stream, st.next, Settle(e, st).next)
    decreases |e.stream| - st.next
  {
    hide DebugLexError;
    var j := Settle(e, st).next;
    if st.next < |e.stream| {
      var item := e.stream[st.next];
      var st1 := st.(next := st.next + 1);
      if item.value.Err? {
        var entry := ErrorLog(DebugLexError(item.value.error), item.span);
        var st2 := Log1(st1, entry);
        SettleLogs(e, st2);
        assert LexErrors(e.stream, st.next, j) == [entry] + LexErrors(e.stream, st1.next, j);
        assert st2.log + LexErrors(e.stream, st1.next, j) == st.log + LexErrors(e.stream, st.next, j);
      } else if item.value.token.Comment? {
        SettleLogs(e, st1);
        assert LexErrors(e.stream, st.next, j) == [] + LexErrors(e.stream, st1.next, j);
      }
    }
  }

  // ---------------------------------------------------------------------
  // `peek_token` as written: on a lexical error it logs the error and
  // peeks again at the same item, and it shows comments.

  datatype PeekRound =
    | Shown(token: Option<Tok>)
    | Relogged(after: PState)

  /** One pass of the loop of `peek_token` as written. */
  function PeekRoundAsWritten(e: Input, st: PState): (r: PeekRound)
    requires Fits(e, st)
    ensures r.Relogged? ==> Fits(e, r.after)
  {
    if st.next == |e.stream| then Shown(None)
    else
      var item := e.stream[st.next];
      if item.value.Ok? then Shown(Some(Spanned(item.value.token, item.span)))
      else Relogged(Log1(st, ErrorLog(DebugLexError(item.value.error), item.span)))
  }

  /** The loop of `peek_token` as written after `rounds` passes: the token
      shown, or the state while it is still looping. */
  function PeekAsWritten(e: Input, st: PState, rounds: nat): PeekRound
    requires Fits(e, st)
    decreases rounds
  {
    if rounds == 0 then Relogged(st)
    else
      match PeekRoundAsWritten(e, st)
      case Shown(t) => Shown(t)
      case Relogged(after) => PeekAsWritten(e, after, rounds - 1)
  }

  function Repeat(entry: A.Log, n: nat): (r: seq<A.Log>)
    ensures |r| == n
  {
    if n == 0 then [] else [entry] + Repeat(entry, n - 1)
  }

  /** As written, `peek_token` on a lexical error never returns: after any
      number of passes it is still at the same item, and has logged the
      same error once per pass. */
  lemma {:induction false} PeekAsWrittenNeverReturns(e: Input, st: PState, rounds: nat)
    requires Fits(e, st) && st.next < |e.stream| && e.stream[st.next].value.Err?
    ensures var item := e.stream[st.next];
      PeekAsWritten(e, st, rounds)
        == Relogged(st.(log := st.log + Repeat(ErrorLog(DebugLexError(item.value.error), item.span), rounds)))
    decreases rounds
  {
    var item := e.stream[st.next];
    var entry := ErrorLog(DebugLexError(item.value.error), item.span);
    if rounds > 0 {
      var st1 := Log1(st, entry);
      PeekAsWrittenNeverReturns(e, st1, rounds - 1);
      assert st.log + [entry] + Repeat(entry, rounds - 1) == st.log + Repeat(entry, rounds);
    }
  }

  /** As written, `peek_token` shows a comment, which `next_token` then
      passes over: the two disagree. */
  lemma PeekAsWrittenShowsComments(e: Input, st: PState)
    requires Fits(e, st) && st.next < |e.stream|
    requires e.stream[st.next].value.Ok? && e.stream[st.next].value.token.Comment?
    ensures PeekRoundAsWritten(e, st).Shown? && PeekRoundAsWritten(e, st).token.Some?
    ensures PeekRoundAsWritten(e, st).token.value.value.Comment?
    ensures PeekRoundAsWritten(e, st).token != NextTok(e, st).0
  {
  }

  // ---------------------------------------------------------------------
  // Expecting tokens and parsing symbols.

  /** `expect_token`: the next token is taken whether or not it is the one
      expected; a mismatch, or the end of input, is logged. */
  function Expect(e: Input, st: PState, expected: Token): (r: (bool, Span, PState))
    requires Fits(e, st)
    ensures Fits(e, r.2) && r.2.next == NextTok(e, st).1.next
    ensures r.0 <==> NextTok(e, st).0 == Some(Spanned(expected, r.1))
    ensures r.1 == if NextTok(e, st).0.Some? then NextTok(e, st).0.value.span else e.eof
    ensures r.0 ==> r.2 == NextTok(e, st).1
    ensures !r.0 ==> r.2.log == NextTok(e, st).1.log + [ErrorLog(ExpectMessage(NextTok(e, st).0, expected), r.1)]
  {
    var (t, st1) := NextTok(e, st);
    match t
    case None => (false, e.eof, Log1(st1, ErrorLog(ExpectMessage(t, expected), e.eof)))
    case Some(tok) =>
      if tok.value != expected then (false, tok.span, Log1(st1, ErrorLog(ExpectMessage(t, expected), tok.span)))
      else (true, tok.span, st1)
  }

  /** What `expect_token` logs for what it found instead. */
  function ExpectMessage(found: Option<Tok>, expected: Token): string
  {
    if found.None? then "unexpected eof expected " + DescribeAsWritten(expected, true)
    else "unexpected token " + DescribeAsWritten(found.value.value, true) + ", expected " + DescribeAsWritten(expected, false)
  }

  /** The spellings of epsilon: `~`, `epsilon` and the Greek small letter
      epsilon. */
  predicate IsEpsilon(t: Token)
  {
    t == Tilde || t == Ident("epsilon") || t == Ident("ε")
  }

  function SymbolExpected(): string
  {
    DescribeAsWritten(Tilde, false) + "|" + DescribeAsWritten(Ident(""), false)
  }

  /** `parse_symbol`: epsilon for its spellings, other identifiers as
      themselves; anything else is logged (at the end-of-input span) and
      gives `<INVALID>`. The token is taken in every case. */
  function ParseSymbol(e: Input, st: PState): (r: (Spanned<A.Symbol>, PState))
    requires Fits(e, st)
    ensures Fits(e, r.1) && r.1.next == NextTok(e, st).1.next
    ensures var t := NextTok(e, st).0;
      && (r.0.value.Epsilon? <==> t.Some? && IsEpsilon(t.value.value))
      && (t.Some? && t.value.value.Ident? && !IsEpsilon(t.value.value) ==> r.0.value == A.Ident(t.value.value.name))
      && r.0.span == (if t.Some? then t.value.span else e.eof)
      && r.1.log == NextTok(e, st).1.log + (if t.Some? && (t.value.value == Tilde || t.value.value.Ident?) then []
           else if t.Some? then [ErrorLog("unexpected token " + DescribeAsWritten(t.value.value, true) + ", expected " + SymbolExpected(), e.eof)]
           else [ErrorLog("unexpected eof expected " + SymbolExpected(), e.eof)])
  {
    var (t, st1) := NextTok(e, st);
    match t
    case None =>
      (Spanned(A.Ident("<INVALID>"), e.eof), Log1(st1, ErrorLog("unexpected eof expected " + SymbolExpected(), e.eof)))
    case Some(tok) =>
      if IsEpsilon(tok.value) then (Spanned(A.Epsilon, tok.span), st1)
      else if tok.value.Ident? then (Spanned(A.Ident(tok.value.name), tok.span), st1)
      else (Spanned(A.Ident("<INVALID>"), tok.span),
            Log1(st1, ErrorLog("unexpected token " + DescribeAsWritten(tok.value, true) + ", expected " + SymbolExpected(), e.eof)))
  }

  /** The optional comma after a tuple or list element. */
  function SkipComma(e: Input, st: PState): (r: PState)
    requires Fits(e, st)
    ensures Fits(e, r) && PeekTok(e, st).1.next <= r.next
    ensures UpcomingIs(e, st, Comma) <==> r.next > PeekTok(e, st).1.next
  {
    var (c, st1) := PeekTok(e, st);
    if c.Some? && c.value.value == Comma then NextTok(e, st1).1 else st1
  }

  // ---------------------------------------------------------------------
  // Tuples.

  /** `parse_tupple`: without an opening parenthesis (which is taken
      anyway), the empty tuple at the token found. */
  function ParseTupple(e: Input, st: PState): (r: (Spanned<A.Tuple>, PState))
    requires Fits(e, st)
    ensures Fits(e, r.1) && NextTok(e, st).1.next <= r.1.next
  {
    var (matched, start, st1) := Expect(e, st, LPar);
    if !matched then (Spanned(A.Tuple([]), start), st1)
    else TuppleLoop(e, st1, [], start)
  }

  /** The closing parenthesis, expected after the loop. */
  function TuppleClose(e: Input, st: PState, symbols: seq<Spanned<A.Symbol>>, start: Span): (r: (Spanned<A.Tuple>, PState))
    requires Fits(e, st)
    ensures Fits(e, r.1) && st.next <= r.1.next && r.0.value.symbols == symbols
  {
    var (_, end, st1) := Expect(e, st, RPar);
    (Spanned(A.Tuple(symbols), Join(start, end)), st1)
  }

  /** The loop of `parse_tupple` after the opening parenthesis: symbols up
      to `)`; running into the end of input logs an error and stops the
      loop, and the `)` is then expected (and logged missing) as well. */
  function TuppleLoop(e: Input, st: PState, symbols: seq<Spanned<A.Symbol>>, start: Span): (r: (Spanned<A.Tuple>, PState))
    requires Fits(e, st)
    ensures Fits(e, r.1) && st.next <= r.1.next
    ensures symbols <= r.0.value.symbols
    decreases Measure(e, st)
  {
    PeekAgreesWithNext(e, st);
    var (p, st1) := PeekTok(e, st);
    if p.Some? && p.value.value == RPar then TuppleClose(e, st1, symbols, start)
    else
      var (sym, st2) := ParseSymbol(e, st1);
      var st3 := SkipComma(e, st2);
      var (q, st4) := PeekTok(e, st3);
      if q.None? then
        TuppleClose(e, Log1(st4, ErrorLog("unexpected eof expected " + DescribeAsWritten(RPar, false), e.eof)), symbols + [sym], start)
      else TuppleLoop(e, st4, symbols + [sym], start)
  }

  // ---------------------------------------------------------------------
  // Items and lists.

  predicate StartsItem(t: Token)
  {
    t.Ident? || t == Tilde || t == LPar || t == LBrace
  }

  function ItemExpected(): string
  {
    DescribeAsWritten(Tilde, false) + "|" + DescribeAsWritten(Ident(""), false) + "|" + DescribeAsWritten(LPar, false) + "|" + DescribeAsWritten(LBrace, false)
  }

  /** `parse_item`: the upcoming token decides the form. A token that
      cannot start an item is logged (at the end-of-input span) and taken,
      so that every call with a token left consumes one. */
  function ParseItem(e: Input, st: PState): (r: (Spanned<A.Item>, PState))
    requires Fits(e, st)
    ensures Fits(e, r.1) && st.next <= r.1.next
    ensures Upcoming(e, st).Some? ==> st.next < r.1.next
    ensures Upcoming(e, st).None? ==> r.1.next == |e.stream|
    decreases Measure(e, st), 2
  {
    var (t, st1) := PeekTok(e, st);
    match t
    case None =>
      (Spanned(A.SymbolItem(A.Ident("<INVALID>")), e.eof), Log1(st1, ErrorLog("unexpected eof expected " + ItemExpected(), e.eof)))
    case Some(tok) =>
      PeekAgreesWithNext(e, st);
      if tok.value.Ident? || tok.value == Tilde then
        var (sym, st2) := ParseSymbol(e, st1);
        (Spanned(A.SymbolItem(sym.value), sym.span), st2)
      else if tok.value == LPar then
        var (tu, st2) := ParseTupple(e, st1);
        (Spanned(A.TupleItem(tu.value), tu.span), st2)
      else if tok.value == LBrace then
        var (l, st2) := ParseList(e, st1);
        (Spanned(A.ListItem(l.value), l.span), st2)
      else
        (Spanned(A.SymbolItem(A.Ident("<INVALID>")), tok.span),
         Log1(NextTok(e, st1).1, ErrorLog("unexpected token " + DescribeAsWritten(tok.value, true) + ", expected " + ItemExpected(), e.eof)))
  }

  /** `parse_list`: without an opening brace (which is taken anyway), the
      empty list at the token found. */
  function ParseList(e: Input, st: PState): (r: (Spanned<A.List>, PState))
    requires Fits(e, st)
    ensures Fits(e, r.1) && NextTok(e, st).1.next <= r.1.next
    decreases Measure(e, st), 1
  {
    var (matched, start, st1) := Expect(e, st, LBrace);
    if !matched then (Spanned(A.List([]), start), st1)
    else ListLoop(e, st1, [], start)
  }

  /** The closing brace, expected after the loop. */
  function ListClose(e: Input, st: PState, items: seq<Spanned<A.Item>>, start: Span): (r: (Spanned<A.List>, PState))
    requires Fits(e, st)
    ensures Fits(e, r.1) && st.next <= r.1.next && r.0.value.items == items
  {
    var (_, end, st1) := Expect(e, st, RBrace);
    (Spanned(A.List(items), Join(start, end)), st1)
  }

  /** The loop of `parse_list` after the opening brace. */
  function ListLoop(e: Input, st: PState, items: seq<Spanned<A.Item>>, start: Span): (r: (Spanned<A.List>, PState))
    requires Fits(e, st)
    ensures Fits(e, r.1) && st.next <= r.1.next
    ensures items <= r.0.value.items
    decreases Measure(e, st), 3
  {
    PeekAgreesWithNext(e, st);
    var (p, st1) := PeekTok(e, st);
    if p.Some? && p.value.value == RBrace then ListClose(e, st1, items, start)
    else
      var (it, st2) := ParseItem(e, st1);
      var st3 := SkipComma(e, st2);
      var (q, st4) := PeekTok(e, st3);
      if q.None? then
        ListClose(e, Log1(st4, ErrorLog("unexpected eof expected " + DescribeAsWritten(RBrace, false), e.eof)), items + [it], start)
      else ListLoop(e, st4, items + [it], start)
  }

  // ---------------------------------------------------------------------
  // `parse_item` and `parse_list` as written: a token that cannot start an
  // item is logged but left where it is.

  /** `parse_item` as written. */
  function ParseItemAsWritten(e: Input, st: PState): (r: (Spanned<A.Item>, PState))
    requires Fits(e, st)
    ensures Fits(e, r.1)
  {
    var (t, st1) := PeekTok(e, st);
    if t.Some? && !StartsItem(t.value.value) then
      (Spanned(A.SymbolItem(A.Ident("<INVALID>")), t.value.span),
       Log1(st1, ErrorLog("unexpected token " + DescribeAsWritten(t.value.value, true) + ", expected " + ItemExpected(), e.eof)))
    else ParseItem(e, st)
  }

  /** How one pass of the loop of `parse_list` ends. */
  datatype ListRound =
    | Exits(items: seq<Spanned<A.Item>>, after: PState)
    | Repeats(items: seq<Spanned<A.Item>>, after: PState)

  /** One pass of the loop of `parse_list` as written. */
  function ListRoundAsWritten(e: Input, st: PState, items: seq<Spanned<A.Item>>): (r: ListRound)
    requires Fits(e, st)
    ensures Fits(e, r.after)
  {
    var (p, st1) := PeekTok(e, st);
    if p.Some? && p.value.value == RBrace then Exits(items, st1)
    else
      var (it, st2) := ParseItemAsWritten(e, st1);
      var st3 := SkipComma(e, st2);
      var (q, st4) := PeekTok(e, st3);
      if q.None? then Exits(items + [it], Log1(st4, ErrorLog("unexpected eof expected " + DescribeAsWritten(RBrace, false), e.eof)))
      else Repeats(items + [it], st4)
  }

  /** As written, a list whose next token cannot start an item and is
      neither `}` nor `,` (`{ = }`, say) goes round without end: each pass
      logs an error, adds an `<INVALID>` item and comes back to the same
      token. */
  lemma ListAsWrittenSpins(e: Input, st: PState, items: seq<Spanned<A.Item>>)
    requires Fits(e, st) && Upcoming(e, st).Some?
    requires var t := Upcoming(e, st).value.value; !StartsItem(t) && t != RBrace && t != Comma
    ensures var r := ListRoundAsWritten(e, st, items);
      r.Repeats? && |r.items| == |items| + 1 && r.after.next == PeekTok(e, st).1.next
      && Upcoming(e, r.after) == Upcoming(e, st)
      && |r.after.log| == |PeekTok(e, st).1.log| + 1
  {
    PeekAgreesWithNext(e, st);
  }

  /** With `parse_item` corrected, every pass of the list loop that goes on
      has consumed at least one token. */
  lemma ListRoundProgresses(e: Input, st: PState, items: seq<Spanned<A.Item>>)
    requires Fits(e, st) && Upcoming(e, st).Some? && !UpcomingIs(e, st, RBrace)
    ensures var st1 := PeekTok(e, st).1; st.next < ParseItem(e, st1).1.next
  {
    PeekAgreesWithNext(e, st);
  }

  // ---------------------------------------------------------------------
  // Top-level elements.

  /** The destination and item of an assignment whose identifier has been
      taken: a function destination when `(` follows, then `=` (whose
      absence is logged) and the item, which is parsed either way. */
  function Assignment(e: Input, st: PState, ident: string, range: Span): (r: (Spanned<A.TopLevel>, PState))
    requires Fits(e, st)
    ensures Fits(e, r.1) && st.next <= r.1.next
    ensures r.0.value.Assignment? && r.0.span.start == range.start
    ensures r.0.value.dest.value.Named? <==> !UpcomingIs(e, st, LPar)
    ensures r.0.value.dest.value.Named? ==> r.0.value.dest == Spanned(A.Named(ident), range)
    ensures r.0.value.dest.value.Function? ==> r.0.value.dest.value.name == Spanned(ident, range)
  {
    var (p, st1) := PeekTok(e, st);
    var (dest, st2) :=
      if p.Some? && p.value.value == LPar then
        var (tuple, s) := ParseTupple(e, st1);
        (Spanned(A.Function(Spanned(ident, range), tuple), Join(range, tuple.span)), s)
      else (Spanned(A.Named(ident), range), st1);
    var (_, _, st3) := Expect(e, st2, Eq);
    var (item, st4) := ParseItem(e, st3);
    (Spanned(A.Assignment(dest, item), Join(dest.span, item.span)), st4)
  }

  /** `parse_elements`: an assignment for each top-level identifier, in
      source order; any other top-level token is logged and dropped. */
  function Elements(e: Input, st: PState, found: seq<Spanned<A.TopLevel>>): (r: (seq<Spanned<A.TopLevel>>, PState))
    requires Fits(e, st)
    ensures Fits(e, r.1) && r.1.next == |e.stream|
    ensures found <= r.0
    decreases Measure(e, st)
  {
    var (n, st1) := NextTok(e, st);
    match n
    case None => (found, st1)
    case Some(tok) =>
      if tok.value.Ident? then
        var (element, st2) := Assignment(e, st1, tok.value.name, tok.span);
        Elements(e, st2, found + [element])
      else
        Elements(e, Log1(st1, ErrorLog("unexpected token " + DescribeAsWritten(tok.value, true) + ", expected " + DescribeAsWritten(Ident(""), false), tok.span)), found)
  }

  /** No element of `s` from index `from` on is a table. */
  predicate AssignmentsFrom(s: seq<Spanned<A.TopLevel>>, from: nat)
  {
    forall i :: from <= i < |s| ==> s[i].value.Assignment?
  }

  /** Every element `parse_elements` adds is an assignment. */
  lemma {:induction false} ElementsAreAssignments(e: Input, st: PState, found: seq<Spanned<A.TopLevel>>)
    requires Fits(e, st)
    ensures AssignmentsFrom(Elements(e, st, found).0, |found|)
    decreases Measure(e, st)
  {
    var (n, st1) := NextTok(e, st);
    if n.Some? {
      var tok := n.value;
      if tok.value.Ident? {
        var (element, st2) := Assignment(e, st1, tok.value.name, tok.span);
        var more := found + [element];
        ElementsAreAssignments(e, st2, more);
        var r := Elements(e, st2, more).0;
        assert Elements(e, st, found).0 == r;
        assert AssignmentsFrom(r, |found|) by {
          forall i | |found| <= i < |r|
            ensures r[i].value.Assignment?
          {
            if i == |found| {
              assert r[i] == more[i];
            }
          }
        }
      } else {
        var entry := ErrorLog("unexpected token " + DescribeAsWritten(tok.value, true) + ", expected " + DescribeAsWritten(Ident(""), false), tok.span);
        ElementsAreAssignments(e, Log1(st1, entry), found);
      }
    }
  }

  /** The state a parser starts in. */
  function Start(): PState
  {
    PState(0, [])
  }
}
