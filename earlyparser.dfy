// The oldest parser (src/parser.rs): a cursor over the oldest lexer's items
// and the log it pushes records into. Every method is proved to do exactly
// what the function of the same step in EarlyParserSpec does to the state
// `(next, log)`; `peek_token` and `parse_item` are the corrected ones
// described there.

module EarlyParser {
  import opened Common
  import opened EarlyLexer
  import opened EarlyParserSpec
  import A = EarlyAst

  class Parser {
    /** The items the lexer produces for the whole source. */
    const stream: seq<LexItem>
    const eof: Span
    var next: nat
    var log: seq<A.Log>

    function In(): Input
    {
      Input(stream, eof)
    }

    function State(): PState
      reads this
    {
      PState(next, log)
    }

    ghost predicate Valid()
      reads this
    {
      Fits(In(), State())
    }

    /** `Parser::new`: the lexer's items, its end-of-input span, an empty
        log. */
    constructor (src: string, cls: Classes)
      ensures Valid() && stream == LexAll(cls, src, 0) && eof == Common.EofSpan(Utf8Width(src))
      ensures State() == Start()
    {
      stream := LexAll(cls, src, 0);
      eof := Common.EofSpan(Utf8Width(src));
      next := 0;
      log := [];
    }

    method NextToken() returns (r: Option<Tok>)
      requires Valid()
      modifies this
      ensures Valid() && (r, State()) == NextTok(In(), old(State()))
    {
      ghost var goal := NextTok(In(), State());
      while true
        invariant Valid() && NextTok(In(), State()) == goal
        decreases |stream| - next
      {
        if next == |stream| {
          return None;
        }
        var item := stream[next];
        next := next + 1;
        if item.value.Err? {
          log := log + [ErrorLog(DebugLexError(item.value.error), item.span)];
        } else if !item.value.token.Comment? {
          return Some(Spanned(item.value.token, item.span));
        }
      }
    }

    /** `peek_token`, corrected: comments and lexical errors before the
        token are passed over (the errors logged), as `next_token` does. */
    method PeekToken() returns (r: Option<Tok>)
      requires Valid()
      modifies this
      ensures Valid() && (r, State()) == PeekTok(In(), old(State()))
    {
      while next < |stream| && Passed(stream[next])
        invariant Valid() && Settle(In(), State()) == Settle(In(), old(State()))
        decreases |stream| - next
      {
        var item := stream[next];
        if item.value.Err? {
          log := log + [ErrorLog(DebugLexError(item.value.error), item.span)];
        }
        next := next + 1;
      }
      r := if next < |stream| then Some(Spanned(stream[next].value.token, stream[next].span)) else None;
    }

    method ExpectToken(expected: Token) returns (matched: bool, range: Span)
      requires Valid()
      modifies this
      ensures Valid() && (matched, range, State()) == Expect(In(), old(State()), expected)
    {
      var t := NextToken();
      if t.None? {
        log := log + [ErrorLog(ExpectMessage(t, expected), eof)];
        return false, eof;
      }
      if t.value.value != expected {
        log := log + [ErrorLog(ExpectMessage(t, expected), t.value.span)];
        return false, t.value.span;
      }
      return true, t.value.span;
    }

    method ParseSymbol() returns (r: Spanned<A.Symbol>)
      requires Valid()
      modifies this
      ensures Valid() && (r, State()) == EarlyParserSpec.ParseSymbol(In(), old(State()))
    {
      var t := NextToken();
      if t.None? {
        log := log + [ErrorLog("unexpected eof expected " + SymbolExpected(), eof)];
        return Spanned(A.Ident("<INVALID>"), eof);
      }
      var tok := t.value;
      if IsEpsilon(tok.value) {
        r := Spanned(A.Epsilon, tok.span);
      } else if tok.value.Ident? {
        r := Spanned(A.Ident(tok.value.name), tok.span);
      } else {
        log := log + [ErrorLog("unexpected token " + DescribeAsWritten(tok.value, true) + ", expected " + SymbolExpected(), eof)];
        r := Spanned(A.Ident("<INVALID>"), tok.span);
      }
    }

    /** The optional comma after a tuple or list element. */
    method SkipComma()
      requires Valid()
      modifies this
      ensures Valid() && State() == EarlyParserSpec.SkipComma(In(), old(State()))
    {
      var c := PeekToken();
      if c.Some? && c.value.value == Comma {
        var _ := NextToken();
      }
    }

    method ParseTupple() returns (r: Spanned<A.Tuple>)
      requires Valid()
      modifies this
      ensures Valid() && (r, State()) == EarlyParserSpec.ParseTupple(In(), old(State()))
    {
      var matched, start := ExpectToken(LPar);
      if !matched {
        return Spanned(A.Tuple([]), start);
      }
      r := TuppleSymbols(start);
    }

    /** The loop of `parse_tupple` after the opening parenthesis. */
    method TuppleSymbols(start: Span) returns (r: Spanned<A.Tuple>)
      requires Valid()
      modifies this
      ensures Valid() && (r, State()) == TuppleLoop(In(), old(State()), [], start)
    {
      hide EarlyParserSpec.ParseSymbol, EarlyParserSpec.SkipComma, Expect, DescribeAsWritten, Describe;
      ghost var goal := TuppleLoop(In(), State(), [], start);
      var symbols: seq<Spanned<A.Symbol>> := [];
      while true
        invariant Valid() && TuppleLoop(In(), State(), symbols, start) == goal
        decreases Measure(In(), State())
      {
        PeekAgreesWithNext(In(), State());
        var p := PeekToken();
        if p.Some? && p.value.value == RPar {
          break;
        }
        var sym := ParseSymbol();
        SkipComma();
        var q := PeekToken();
        symbols := symbols + [sym];
        if q.None? {
          log := log + [ErrorLog("unexpected eof expected " + DescribeAsWritten(RPar, false), eof)];
          break;
        }
      }
      var _, end := ExpectToken(RPar);
      r := Spanned(A.Tuple(symbols), Join(start, end));
    }

    /** `parse_item`, corrected: a token that cannot start an item is taken. */
    method ParseItem() returns (r: Spanned<A.Item>)
      requires Valid()
      modifies this
      ensures Valid() && (r, State()) == EarlyParserSpec.ParseItem(In(), old(State()))
      decreases Measure(In(), State()), 2
    {
      PeekAgreesWithNext(In(), State());
      var t := PeekToken();
      if t.None? {
        log := log + [ErrorLog("unexpected eof expected " + ItemExpected(), eof)];
        return Spanned(A.SymbolItem(A.Ident("<INVALID>")), eof);
      }
      var tok := t.value;
      if tok.value.Ident? || tok.value == Tilde {
        var sym := ParseSymbol();
        r := Spanned(A.SymbolItem(sym.value), sym.span);
      } else if tok.value == LPar {
        var tuple := ParseTupple();
        r := Spanned(A.TupleItem(tuple.value), tuple.span);
      } else if tok.value == LBrace {
        var list := ParseList();
        r := Spanned(A.ListItem(list.value), list.span);
      } else {
        var _ := NextToken();
        log := log + [ErrorLog("unexpected token " + DescribeAsWritten(tok.value, true) + ", expected " + ItemExpected(), eof)];
        r := Spanned(A.SymbolItem(A.Ident("<INVALID>")), tok.span);
      }
    }

    method ParseList() returns (r: Spanned<A.List>)
      requires Valid()
      modifies this
      ensures Valid() && (r, State()) == EarlyParserSpec.ParseList(In(), old(State()))
      decreases Measure(In(), State()), 1
    {
      var matched, start := ExpectToken(LBrace);
      if !matched {
        return Spanned(A.List([]), start);
      }
      r := ListItems(start);
    }

    /** The loop of `parse_list` after the opening brace. */
    method ListItems(start: Span) returns (r: Spanned<A.List>)
      requires Valid()
      modifies this
      ensures Valid() && (r, State()) == ListLoop(In(), old(State()), [], start)
      decreases Measure(In(), State()), 3
    {
      hide EarlyParserSpec.ParseItem, EarlyParserSpec.SkipComma, Expect, DescribeAsWritten, Describe;
      ghost var e := In();
      ghost var goal := ListLoop(e, State(), [], start);
      var items: seq<Spanned<A.Item>> := [];
      while true
        invariant Valid() && ListLoop(e, State(), items, start) == goal
        invariant Measure(e, State()) <= old(Measure(In(), State()))
        decreases Measure(e, State())
      {
        PeekAgreesWithNext(e, State());
        var p := PeekToken();
        if p.Some? && p.value.value == RBrace {
          break;
        }
        var item := ParseItem();
        SkipComma();
        var q := PeekToken();
        items := items + [item];
        if q.None? {
          log := log + [ErrorLog("unexpected eof expected " + DescribeAsWritten(RBrace, false), eof)];
          break;
        }
      }
      var _, end := ExpectToken(RBrace);
      r := Spanned(A.List(items), Join(start, end));
    }

    /** An assignment whose identifier has been taken. */
    method ParseAssignment(ident: string, range: Span) returns (r: Spanned<A.TopLevel>)
      requires Valid()
      modifies this
      ensures Valid() && (r, State()) == Assignment(In(), old(State()), ident, range)
    {
      var p := PeekToken();
      var dest;
      if p.Some? && p.value.value == LPar {
        var tuple := ParseTupple();
        dest := Spanned(A.Function(Spanned(ident, range), tuple), Join(range, tuple.span));
      } else {
        dest := Spanned(A.Named(ident), range);
      }
      var _, _ := ExpectToken(Eq);
      var item := ParseItem();
      r := Spanned(A.Assignment(dest, item), Join(dest.span, item.span));
    }

    /** `parse_elements`: the elements in source order. */
    method ParseElements() returns (r: seq<Spanned<A.TopLevel>>)
      requires Valid()
      modifies this
      ensures Valid() && (r, State()) == Elements(In(), old(State()), [])
    {
      ghost var goal := Elements(In(), State(), []);
      r := [];
      while true
        invariant Valid() && Elements(In(), State(), r) == goal
        decreases Measure(In(), State())
      {
        var n := NextToken();
        if n.None? {
          return;
        }
        var tok := n.value;
        if tok.value.Ident? {
          var element := ParseAssignment(tok.value.name, tok.span);
          r := r + [element];
        } else {
          log := log + [ErrorLog("unexpected token " + DescribeAsWritten(tok.value, true) + ", expected " + DescribeAsWritten(Ident(""), false), tok.span)];
        }
      }
    }
  }
}
