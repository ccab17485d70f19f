// The current parser (automata/src/loader/parser.rs): a cursor over the
// lexer's items with a one-token peek slot, logging into the loader's
// context. Every method is proved to do exactly what the function of the
// same step in ParserSpec does to the state `(next, peek, log)`.

module Parser {
  import opened Common
  import opened Lexer
  import opened Log
  import opened LoaderContext
  import opened ParserSpec
  import Ast

  class Parser {
    const ctx: Context
    /** The items the lexer produces for the whole source. */
    const stream: seq<LexItem>
    var next: nat
    var peek: Option<Tok>

    function In(): Input
    {
      Input(stream, ctx.Eof())
    }

    function State(): PState
      reads this, ctx.logs
    {
      PState(next, peek, ctx.logs.entries)
    }

    ghost predicate Valid()
      reads this, ctx, ctx.logs
    {
      ctx.Valid() && Fits(In(), State())
    }

    /** `Parser::new`: at the start of the source, nothing held. */
    constructor (ctx: Context)
      requires ctx.Valid() && LexAll(ctx.src, 0).Some?
      ensures Valid() && this.ctx == ctx && stream == LexAll(ctx.src, 0).value
      ensures next == 0 && peek.None?
    {
      this.ctx := ctx;
      stream := LexAll(ctx.src, 0).value;
      next := 0;
      peek := None;
    }

    method NextTokenOptional() returns (r: Option<Tok>)
      requires Valid()
      modifies this, ctx.logs
      ensures Valid() && (r, State()) == NextOpt(In(), old(State()))
    {
      if peek.Some? {
        if peek.value.value == LineEnd {
          return peek;
        }
        r := peek;
        peek := None;
        return;
      }
      while true
        invariant Valid() && peek.None?
        invariant Pull(In(), State()) == NextOpt(In(), old(State()))
        decreases |stream| - next
      {
        if next == |stream| {
          return None;
        }
        var item := stream[next];
        next := next + 1;
        if item.value.Err? {
          var _ := ctx.logs.Emit(ErrorAt("lexer: " + DebugLexError(item.value.error), item.span));
        } else if item.value.token == LineEnd {
          peek := Some(Spanned(LineEnd, item.span));
          return peek;
        } else if !item.value.token.Comment? {
          return Some(Spanned(item.value.token, item.span));
        }
      }
    }

    method PeekTokenOptional() returns (r: Option<Tok>)
      requires Valid()
      modifies this, ctx.logs
      ensures Valid() && (r, State()) == PeekOpt(In(), old(State()))
    {
      if peek.None? {
        peek := NextTokenOptional();
      }
      r := peek;
    }

    method NextToken() returns (r: Tok)
      requires Valid()
      modifies this, ctx.logs
      ensures Valid() && (r, State()) == NextTok(In(), old(State()))
    {
      var t := NextTokenOptional();
      r := if t.Some? then t.value else Spanned(LineEnd, ctx.Eof());
    }

    method PeekToken() returns (r: Tok)
      requires Valid()
      modifies this, ctx.logs
      ensures Valid() && (r, State()) == PeekTok(In(), old(State()))
    {
      var t := PeekTokenOptional();
      r := if t.Some? then t.value else Spanned(LineEnd, ctx.Eof());
    }

    method ExpectToken(expected: Token) returns (matched: bool, span: Span)
      requires Valid()
      modifies this, ctx.logs
      ensures Valid() && (matched, span, State()) == Expect(In(), old(State()), expected)
    {
      var t := PeekToken();
      if t.value == expected {
        var _ := NextToken();
        return true, t.span;
      }
      var _ := ctx.logs.Emit(ErrorAt(Unexpected(t.value, Describe(expected, false)), t.span));
      return false, t.span;
    }

    method AdvanceLine()
      requires Valid()
      modifies this, ctx.logs
      ensures Valid() && State() == ParserSpec.AdvanceLine(In(), old(State()))
    {
      var ok, _ := ExpectToken(LineEnd);
      if ok {
        peek := None;
      }
    }

    method ParseAsSymbol(tok: Tok) returns (r: Spanned<Ast.Symbol>)
      requires Valid()
      modifies ctx.logs
      ensures Valid() && (r, State()) == AsSymbol(old(State()), tok)
    {
      if tok.value == Tilde {
        r := Spanned(Ast.Epsilon("~"), tok.span);
      } else if tok.value.Ident? {
        var s := tok.value.name;
        r := if s in EPSILON_ALIASES then Spanned(Ast.Epsilon(s), tok.span) else Spanned(Ast.Ident(s), tok.span);
      } else {
        var msg := Unexpected(tok.value, "symbol ( " + Describe(Tilde, false) + " | " + Describe(Ident(""), false) + " )");
        var _ := ctx.logs.Emit(ErrorAt(msg, tok.span));
        r := Spanned(Ast.Ident("<INVALID>"), tok.span);
      }
    }

    method ParseSymbol() returns (r: Spanned<Ast.Symbol>)
      requires Valid()
      modifies this, ctx.logs
      ensures Valid() && (r, State()) == ParserSpec.ParseSymbol(In(), old(State()))
    {
      var t := NextToken();
      r := ParseAsSymbol(t);
    }

    /** The optional comma after an item of a tuple. */
    method SkipComma()
      requires Valid()
      modifies this, ctx.logs
      ensures Valid() && State() == ParserSpec.SkipComma(In(), old(State()))
    {
      var c := PeekToken();
      if c.value == Comma {
        var _ := NextToken();
      }
    }

    /** What follows the `count`-th item of a list. The source peeks once
        per condition; peeking again changes nothing. */
    method ListSeparator(count: nat, close: Token, comma: bool) returns (comma': bool)
      requires Valid()
      modifies this, ctx.logs
      ensures Valid() && (comma', State()) == ParserSpec.ListSeparator(In(), old(State()), count, close, comma)
    {
      var p := PeekToken();
      if count != 1 && p.value != close && p.value != LineEnd && (p.value == Comma) != comma {
        var _ := ctx.logs.Emit(WarningAt(COMMA_WARNING, p.span));
      }
      comma' := comma;
      if p.value == Comma {
        comma' := true;
        var _ := NextToken();
      }
    }

    method ParseTupple() returns (r: Spanned<Ast.Tuple>)
      requires Valid()
      modifies this, ctx.logs
      ensures Valid() && (r, State()) == ParserSpec.ParseTupple(In(), old(State()))
      decreases Measure(In(), State()), 1
    {
      var matched, start := ExpectToken(LPar);
      if !matched {
        return Spanned(Ast.Tuple([]), start);
      }
      r := ParseTuppleItems(start);
    }

    /** A turn of the loop of `parse_tupple` that parses an item. */
    method TuppleTurn(items: seq<Spanned<Ast.Item>>, start: Span) returns (done: bool, r: Spanned<Ast.Tuple>, item: Spanned<Ast.Item>)
      requires Valid()
      modifies this, ctx.logs
      ensures Valid()
      ensures var t := ParserSpec.TuppleTurn(In(), old(State()), items, start);
        State() == t.after && done == t.TupleCut? && (done ==> r == t.result) && (!done ==> item == t.item)
      decreases Measure(In(), State()), 3
    {
      item := ParseItem();
      SkipComma();
      var l := PeekToken();
      if l.value == LineEnd {
        var _ := ctx.logs.Emit(ErrorAt("unexpected eol expected " + Describe(RPar, false), l.span));
        return true, Spanned(Ast.Tuple(items + [item]), Join(start, l.span)), item;
      }
      done, r := false, Spanned(Ast.Tuple(items), start);
    }

    /** The loop of `parse_tupple` after the opening parenthesis. */
    method ParseTuppleItems(start: Span) returns (r: Spanned<Ast.Tuple>)
      requires Valid()
      modifies this, ctx.logs
      ensures Valid() && (r, State()) == TuppleLoop(In(), old(State()), [], start)
      decreases Measure(In(), State()), 4
    {
      ghost var e := In();
      ghost var goal := TuppleLoop(e, State(), [], start);
      var items: seq<Spanned<Ast.Item>> := [];
      while true
        invariant Valid() && TuppleLoop(e, State(), items, start) == goal
        invariant Measure(e, State()) <= old(Measure(In(), State()))
        decreases Measure(e, State())
      {
        var t := PeekToken();
        if t.value == RPar {
          break;
        }
        var done, item;
        done, r, item := TuppleTurn(items, start);
        if done {
          return;
        }
        items := items + [item];
      }
      var _, end := ExpectToken(RPar);
      r := Spanned(Ast.Tuple(items), Join(start, end));
    }

    method ParseItem() returns (r: Spanned<Ast.Item>)
      requires Valid()
      modifies this, ctx.logs
      ensures Valid() && (r, State()) == ParserSpec.ParseItem(In(), old(State()))
      decreases Measure(In(), State()), 2
    {
      var t := PeekToken();
      if t.value.Ident? || t.value == Tilde {
        var sym := ParseSymbol();
        r := Spanned(Ast.SymbolItem(sym.value), sym.span);
      } else if t.value == LPar {
        var tuple := ParseTupple();
        r := Spanned(Ast.TupleItem(tuple.value), tuple.span);
      } else if t.value == LBrace || t.value == LBracket {
        var list := ParseList();
        r := Spanned(Ast.ListItem(list.value.0, list.value.1), list.span);
      } else {
        var got := NextToken();
        var _ := ctx.logs.Emit(ErrorAt(Unexpected(got.value, ItemExpected()), got.span));
        r := Spanned(Ast.SymbolItem(Ast.Ident("<INVALID>")), got.span);
      }
    }

    method ParseList() returns (r: Spanned<(seq<Spanned<Ast.Item>>, Ast.ListKind)>)
      requires Valid()
      modifies this, ctx.logs
      ensures Valid() && (r, State()) == ParserSpec.ParseList(In(), old(State()))
      decreases Measure(In(), State()), 1
    {
      var t := NextToken();
      if t.value == LBrace {
        r := ParseListItems(t.span, RBrace);
      } else if t.value == LBracket {
        r := ParseListItems(t.span, RBracket);
      } else {
        var msg := Unexpected(t.value, "list start ( " + Describe(RBrace, false) + " | " + Describe(RBracket, false) + " )");
        var _ := ctx.logs.Emit(ErrorAt(msg, t.span));
        r := Spanned(([], Ast.BracketComma), t.span);
      }
    }

    /** The loop of `parse_list` after the opening token. */
    method ParseListItems(start: Span, close: Token) returns (r: Spanned<(seq<Spanned<Ast.Item>>, Ast.ListKind)>)
      requires Valid() && (close == RBrace || close == RBracket)
      modifies this, ctx.logs
      ensures Valid() && (r, State()) == ListLoop(In(), old(State()), [], start, close, false)
      decreases Measure(In(), State()), 6
    {
      ghost var e := In();
      ghost var goal := ListLoop(e, State(), [], start, close, false);
      var list: seq<Spanned<Ast.Item>> := [];
      var comma := false;
      while true
        invariant Valid() && ListLoop(e, State(), list, start, close, comma) == goal
        invariant Measure(e, State()) <= old(Measure(In(), State()))
        decreases Measure(e, State())
      {
        var done, res, item, comma' := ListRound(list, start, close, comma);
        if done {
          return res;
        }
        list, comma := list + [item], comma';
      }
    }

    /** One turn of the loop of `parse_list`. */
    method ListRound(list: seq<Spanned<Ast.Item>>, start: Span, close: Token, comma: bool)
      returns (done: bool, r: Spanned<(seq<Spanned<Ast.Item>>, Ast.ListKind)>, item: Spanned<Ast.Item>, comma': bool)
      requires Valid() && (close == RBrace || close == RBracket)
      modifies this, ctx.logs
      ensures Valid()
      ensures var t := ParserSpec.ListRound(In(), old(State()), list, start, close, comma);
        State() == t.after && done == t.Ended? && (done ==> r == t.result) && (!done ==> item == t.item && comma' == t.comma)
      decreases Measure(In(), State()), 5
    {
      var t := PeekToken();
      if t.value == close {
        var _, end := ExpectToken(close);
        return true, Spanned((list, ListKindOf(comma, close)), Join(start, end)), Spanned(Ast.SymbolItem(Ast.Ident([])), end), comma;
      }
      done, r, item, comma' := ListItemTurn(list, start, close, comma);
    }

    /** A turn of the loop of `parse_list` that parses an item. */
    method ListItemTurn(list: seq<Spanned<Ast.Item>>, start: Span, close: Token, comma: bool)
      returns (done: bool, r: Spanned<(seq<Spanned<Ast.Item>>, Ast.ListKind)>, item: Spanned<Ast.Item>, comma': bool)
      requires Valid() && (close == RBrace || close == RBracket)
      requires Settled(In(), State()) && Shown(In(), State()).value != close
      modifies this, ctx.logs
      ensures Valid()
      ensures var t := ParserSpec.ListItemTurn(In(), old(State()), list, start, close, comma);
        State() == t.after && done == t.Ended? && (done ==> r == t.result) && (!done ==> item == t.item && comma' == t.comma)
      decreases Measure(In(), State()), 4
    {
      item, comma' := ListPass(|list| + 1, close, comma);
      done, r := AfterListItem(list, item, start, close, comma');
    }

    /** After an item of a list: at the end of the line, the list is cut
        off with an error. */
    method AfterListItem(list: seq<Spanned<Ast.Item>>, item: Spanned<Ast.Item>, start: Span, close: Token, comma: bool)
      returns (done: bool, r: Spanned<(seq<Spanned<Ast.Item>>, Ast.ListKind)>)
      requires Valid() && (close == RBrace || close == RBracket)
      modifies this, ctx.logs
      ensures Valid()
      ensures var t := ParserSpec.AfterListItem(In(), old(State()), list, item, start, close, comma);
        State() == t.after && done == t.Ended? && (done ==> r == t.result)
    {
      var l := PeekToken();
      if l.value == LineEnd {
        var _ := ctx.logs.Emit(ErrorAt(EolInList(close), l.span));
        return true, Spanned((list + [item], Ast.BraceComma), Join(start, l.span));
      }
      done, r := false, Spanned((list, Ast.BraceComma), start);
    }

    /** One pass of the loop of `parse_list`. */
    method ListPass(count: nat, close: Token, comma: bool) returns (item: Spanned<Ast.Item>, comma': bool)
      requires Valid()
      modifies this, ctx.logs
      ensures Valid() && (item, comma', State()) == ParserSpec.ListPass(In(), old(State()), count, close, comma)
      decreases Measure(In(), State()), 3
    {
      item := ParseItem();
      comma' := ListSeparator(count, close, comma);
    }

    method ParseProductionRule(sym: Spanned<Ast.Symbol>) returns (r: Option<Spanned<Ast.TopLevel>>)
      requires Valid()
      modifies this, ctx.logs
      ensures Valid() && (r, State()) == ProductionRule(In(), old(State()), sym)
    {
      var start := sym.span;
      ghost var lhsGoal := LhsLoop(In(), State(), [sym], start);
      var lhs := [sym];
      var lhsEnd := start;
      while true
        invariant Valid() && LhsLoop(In(), State(), lhs, lhsEnd) == lhsGoal
        decreases Measure(In(), State())
      {
        var t := PeekToken();
        if t.value == LSmallArrow || t.value == LineEnd {
          break;
        }
        var s := ParseSymbol();
        lhsEnd := s.span;
        lhs := lhs + [s];
      }
      var lhsGroup := Spanned(Ast.ProductionGroup(lhs), Join(start, lhsEnd));
      var ok, _ := ExpectToken(LSmallArrow);
      if !ok {
        return Some(Spanned(Ast.ProductionRule(lhsGroup, Spanned([], lhsEnd)), Join(start, lhsEnd)));
      }
      ghost var groupsGoal := GroupsLoop(In(), State(), [], start);
      var groups: seq<Spanned<Ast.ProductionGroup>> := [];
      while true
        invariant Valid() && GroupsLoop(In(), State(), groups, start) == groupsGoal
        decreases Measure(In(), State())
      {
        var group := ParseGroup(start);
        groups := groups + [group];
        var q := PeekToken();
        if q.value == Or {
          var _ := NextToken();
        } else {
          break;
        }
      }
      // The loop above adds a group on every pass, so the source's check for
      // an empty rule never fires.
      if |groups| == 0 {
        assert false;
      }
      var rulesEnd := if |groups| == 0 then start else groups[|groups| - 1].span;
      r := Some(Spanned(Ast.ProductionRule(lhsGroup, Spanned(groups, GroupSpan(groups, start))), Join(start, rulesEnd)));
    }

    /** One alternative of a production rule's right-hand side. */
    method ParseGroup(start: Span) returns (r: Spanned<Ast.ProductionGroup>)
      requires Valid()
      modifies this, ctx.logs
      ensures Valid() && (r, State()) == OneGroup(In(), old(State()), start)
    {
      ghost var goal := GroupSymbols(In(), State(), []);
      var group: seq<Spanned<Ast.Symbol>> := [];
      while true
        invariant Valid() && GroupSymbols(In(), State(), group) == goal
        decreases Measure(In(), State())
      {
        var t := PeekToken();
        if t.value == LineEnd || t.value == Or {
          break;
        }
        var s := ParseSymbol();
        group := group + [s];
      }
      if |group| == 0 {
        var p := PeekToken();
        var _ := ctx.logs.Emit(ErrorAt("cannot have empty production group", p.span));
      }
      r := Spanned(Ast.ProductionGroup(group), GroupSpan(group, start));
    }

    method ParseTransitionFunction(ident: string, start: Span) returns (r: Option<Spanned<Ast.TopLevel>>)
      requires Valid()
      modifies this, ctx.logs
      ensures Valid() && (r, State()) == TransitionFunction(In(), old(State()), ident, start)
    {
      var tuple := ParseTupple();
      var dest := Spanned((Spanned(ident, start), tuple), Join(start, tuple.span));
      var ok, _ := ExpectToken(Eq);
      if !ok {
        return None;
      }
      var item := ParseItem();
      r := Some(Spanned(Ast.TransitionFunc(dest, item), Join(start, item.span)));
    }

    /** The recovery loop of `next_element`. */
    method SkipLine()
      requires Valid()
      modifies this, ctx.logs
      ensures Valid() && State() == ParserSpec.SkipLine(In(), old(State()))
    {
      while true
        invariant Valid() && ParserSpec.SkipLine(In(), State()) == ParserSpec.SkipLine(In(), old(State()))
        decreases Measure(In(), State())
      {
        var t := NextToken();
        if t.value == LineEnd {
          return;
        }
      }
    }

    /** One pass of the loop of `next_element`, given the token taken and
        the one after it. */
    method ElementStep(next: Tok, p: Tok) returns (r: Option<Spanned<Ast.TopLevel>>)
      requires Valid() && Settled(In(), State()) && Shown(In(), State()) == p
      modifies this, ctx.logs
      ensures Valid() && (r, State()) == ParserSpec.ElementStep(In(), old(State()), next, p)
    {
      r := None;
      if next.value == LineEnd {
        AdvanceLine();
      } else if next.value.Ident? && p.value == LPar {
        r := ParseTransitionFunction(next.value.name, next.span);
      } else if next.value.Ident? && p.value == Eq {
        var ok, _ := ExpectToken(Eq);
        if ok {
          var item := ParseItem();
          r := Some(Spanned(Ast.ItemDecl(Spanned(next.value.name, next.span), item), Join(next.span, item.span)));
        }
      } else if (next.value.Ident? || next.value == Tilde) && (p.value == LSmallArrow || p.value.Ident? || p.value == Tilde) {
        var sym := ParseAsSymbol(next);
        r := ParseProductionRule(sym);
      } else if next.value.Ident? {
        var msg := Unexpected(p.value, Describe(Eq, false) + " | " + Describe(LSmallArrow, false));
        var _ := ctx.logs.Emit(ErrorAt(msg, p.span));
        SkipLine();
      } else {
        var _ := ctx.logs.Emit(ErrorAt(Unexpected(next.value, Describe(Ident(""), false)), next.span));
        SkipLine();
      }
    }

    method NextElement() returns (r: Option<Spanned<Ast.TopLevel>>)
      requires Valid()
      modifies this, ctx.logs
      ensures Valid() && (r, State()) == ParserSpec.NextElement(In(), old(State()))
    {
      ghost var goal := ElementLoop(In(), State());
      while true
        invariant Valid() && ElementLoop(In(), State()) == goal
        decreases Measure(In(), State())
      {
        var n := NextTokenOptional();
        if n.None? {
          return None;
        }
        var p := PeekToken();
        r := ElementStep(n.value, p);
        if r.Some? {
          break;
        }
      }
      AdvanceLine();
    }

    /** Draining the parser as an iterator. */
    method Collect() returns (r: seq<Spanned<Ast.TopLevel>>)
      requires Valid()
      modifies this, ctx.logs
      ensures Valid() && (r, State()) == Elements(In(), old(State()), [])
    {
      ghost var e := In();
      ghost var goal := Elements(e, State(), []);
      r := [];
      while true
        invariant Valid() && Elements(e, State(), r) == goal
        decreases Measure(e, State())
      {
        var found := NextElement();
        if found.None? {
          return;
        }
        r := r + [found.value];
      }
    }
  }
}
