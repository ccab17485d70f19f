// The first loader's parser (src/loader/parser.rs): a cursor over the
// line-aware lexer's items with a one-token peek slot, logging into a flat
// log it owns. Every method is proved to do exactly what the function of the
// same step in LegacyParserSpec does to the state `(next, peek, log)`.

module LegacyParser {
  import opened Common
  import opened Lexer
  import opened LegacyLog
  import opened LegacyParserSpec
  import A = LegacyAst

  class Parser {
    const logs: Logs
    /** The items the lexer produces for the whole source. */
    const stream: seq<LexItem>
    const eof: Span
    var next: nat
    var peek: Option<Tok>

    function In(): Input
    {
      Input(stream, eof)
    }

    function State(): PState
      reads this, logs
    {
      PState(next, peek, logs.entries)
    }

    ghost predicate Valid()
      reads this, logs
    {
      logs.Valid() && Fits(In(), State())
    }

    /** `Parser::new`: a fresh log over the source, nothing held. */
    constructor (src: string)
      requires LexAll(src, 0).Some?
      ensures Valid() && fresh(logs) && logs.src == src
      ensures stream == LexAll(src, 0).value && eof == EofSpan(Utf8Width(src))
      ensures State() == Start()
    {
      logs := new Logs(src);
      stream := LexAll(src, 0).value;
      eof := EofSpan(Utf8Width(src));
      next := 0;
      peek := None;
    }

    method NextToken() returns (r: Option<Tok>)
      requires Valid()
      modifies this, logs
      ensures Valid() && (r, State()) == NextTok(In(), old(State()))
    {
      if peek.Some? {
        if peek.value.value == LineEnd {
          return peek;
        }
        r := peek;
        peek := None;
        return;
      }
      while true
        invariant Valid() && peek.None?
        invariant Pull(In(), State()) == NextTok(In(), old(State()))
        decreases |stream| - next
      {
        if next == |stream| {
          return None;
        }
        var item := stream[next];
        next := next + 1;
        if item.value.Err? {
          logs.EmitError(LexMessage(item.value.error), item.span);
        } else if item.value.token == LineEnd {
          peek := Some(Spanned(LineEnd, item.span));
          return peek;
        } else if !item.value.token.Comment? {
          return Some(Spanned(item.value.token, item.span));
        }
      }
    }

    method PeekToken() returns (r: Option<Tok>)
      requires Valid()
      modifies this, logs
      ensures Valid() && (r, State()) == PeekTok(In(), old(State()))
    {
      if peek.None? {
        peek := NextToken();
      }
      r := peek;
    }

    method ExpectToken(expected: Token) returns (matched: bool, span: Span)
      requires Valid()
      modifies this, logs
      ensures Valid() && (matched, span, State()) == Expect(In(), old(State()), expected)
    {
      var t := PeekToken();
      if t.None? {
        logs.EmitError(ExpectMessage(t, expected), eof);
        return false, eof;
      }
      if t.value.value != expected {
        logs.EmitError(ExpectMessage(t, expected), t.value.span);
        return false, t.value.span;
      }
      var _ := NextToken();
      return true, t.value.span;
    }

    method AdvanceLine()
      requires Valid()
      modifies this, logs
      ensures Valid() && State() == LegacyParserSpec.AdvanceLine(In(), old(State()))
    {
      var t := PeekToken();
      if t.None? {
        return;
      }
      var ok, _ := ExpectToken(LineEnd);
      if ok {
        peek := None;
      }
    }

    method ParseSymbol() returns (r: Spanned<A.Symbol>)
      requires Valid()
      modifies this, logs
      ensures Valid() && (r, State()) == LegacyParserSpec.ParseSymbol(In(), old(State()))
    {
      var t := NextToken();
      if t.None? {
        logs.EmitError("unexpected eof expected " + SYMBOL_EXPECTED, eof);
        return Spanned(A.Ident("<INVALID>"), eof);
      }
      var tok := t.value;
      if IsEpsilon(tok.value) {
        r := Spanned(A.Epsilon, tok.span);
      } else if tok.value.Ident? {
        r := Spanned(A.Ident(tok.value.name), tok.span);
      } else {
        logs.EmitError(Unexpected(tok.value, SYMBOL_EXPECTED), tok.span);
        r := Spanned(A.Ident("<INVALID>"), tok.span);
      }
    }

    method ParseItem() returns (r: Spanned<A.Item>)
      requires Valid()
      modifies this, logs
      ensures Valid() && (r, State()) == LegacyParserSpec.ParseItem(In(), old(State()))
      decreases Measure(In(), State()), 2
    {
      var t := PeekToken();
      if t.None? {
        logs.EmitError("unexpected eof expected " + ITEM_EXPECTED, eof);
        return Spanned(A.SymbolItem(A.Ident("<INVALID>")), eof);
      }
      var tok := t.value;
      if tok.value.Ident? || tok.value == Tilde {
        var sym := ParseSymbol();
        r := Spanned(A.SymbolItem(sym.value), sym.span);
      } else if tok.value == LPar {
        var tuple := ParseTupple();
        r := Spanned(A.TupleItem(tuple.value), tuple.span);
      } else if tok.value == LBrace || tok.value == LBracket {
        var list := ParseList();
        r := Spanned(A.ListItem(list.value.0, list.value.1), list.span);
      } else {
        var _ := NextToken();
        logs.EmitError(Unexpected(tok.value, ITEM_EXPECTED), tok.span);
        r := Spanned(A.SymbolItem(A.Ident("<INVALID>")), tok.span);
      }
    }

    method ParseTupple() returns (r: Spanned<A.Tuple>)
      requires Valid()
      modifies this, logs
      ensures Valid() && (r, State()) == LegacyParserSpec.ParseTupple(In(), old(State()))
      decreases Measure(In(), State()), 1
    {
      var matched, start := ExpectToken(LPar);
      if !matched {
        return Spanned(A.Tuple([]), start);
      }
      r := TuppleItems(start);
    }

    /** The optional comma after an item. */
    method SkipComma() returns (seen: bool)
      requires Valid()
      modifies this, logs
      ensures Valid() && (seen, State()) == LegacyParserSpec.SkipComma(In(), old(State()))
    {
      var c := PeekToken();
      seen := c.Some? && c.value.value == Comma;
      if seen {
        var _ := NextToken();
      }
    }

    /** After an item: at the end of the line or of the input, the
        sequence is cut off with an error. */
    method AfterItem(items: seq<Spanned<A.Item>>, item: Spanned<A.Item>, start: Span, close: Token, ghost comma: bool)
      returns (done: bool, r: (seq<Spanned<A.Item>>, Span))
      requires Valid()
      modifies this, logs
      ensures Valid()
      ensures var t := LegacyParserSpec.AfterItem(In(), old(State()), items, item, start, close, comma);
        State() == t.after && done == t.Ended? && (done ==> r == t.result)
    {
      var l := PeekToken();
      if l.None? {
        logs.EmitError(CutMessage(l, close), eof);
        return true, (items + [item], Join(start, eof));
      }
      if l.value.value == LineEnd {
        logs.EmitError(CutMessage(l, close), l.value.span);
        return true, (items + [item], Join(start, l.value.span));
      }
      done, r := false, (items, start);
    }

    /** The loop of `parse_tupple` after the opening parenthesis. */
    method TuppleItems(start: Span) returns (r: Spanned<A.Tuple>)
      requires Valid()
      modifies this, logs
      ensures Valid() && (r, State()) == TuppleLoop(In(), old(State()), [], start)
      decreases Measure(In(), State()), 4
    {
      ghost var e := In();
      ghost var goal := TuppleLoop(e, State(), [], start);
      var items: seq<Spanned<A.Item>> := [];
      while true
        invariant Valid() && TuppleLoop(e, State(), items, start) == goal
        invariant Measure(e, State()) <= old(Measure(In(), State()))
        decreases Measure(e, State())
      {
        var t := PeekToken();
        if t.Some? && t.value.value == RPar {
          break;
        }
        var done, cut, item := TuppleTurn(items, start);
        if done {
          return Spanned(A.Tuple(cut.0), cut.1);
        }
        items := items + [item];
      }
      var _, end := ExpectToken(RPar);
      r := Spanned(A.Tuple(items), Join(start, end));
    }

    /** A turn of the loop of `parse_tupple`. */
    method TuppleTurn(items: seq<Spanned<A.Item>>, start: Span) returns (done: bool, r: (seq<Spanned<A.Item>>, Span), item: Spanned<A.Item>)
      requires Valid()
      modifies this, logs
      ensures Valid()
      ensures var t := LegacyParserSpec.TuppleTurn(In(), old(State()), items, start);
        State() == t.after && done == t.Ended? && (done ==> r == t.result) && (!done ==> item == t.item)
      decreases Measure(In(), State()), 3
    {
      item := ParseItem();
      var _ := SkipComma();
      done, r := AfterItem(items, item, start, RPar, false);
    }

    method ParseList() returns (r: Spanned<(seq<Spanned<A.Item>>, A.ListKind)>)
      requires Valid()
      modifies this, logs
      ensures Valid() && (r, State()) == LegacyParserSpec.ParseList(In(), old(State()))
      decreases Measure(In(), State()), 1
    {
      var t := NextToken();
      if t.None? {
        logs.EmitError("unexpected eof expected " + LIST_EXPECTED, eof);
        return Spanned(([], A.BracketComma), eof);
      }
      var tok := t.value;
      if tok.value == LBrace {
        r := ListItems(tok.span, RBrace);
      } else if tok.value == LBracket {
        r := ListItems(tok.span, RBracket);
      } else {
        logs.EmitError(Unexpected(tok.value, LIST_EXPECTED), tok.span);
        r := Spanned(([], A.BracketComma), tok.span);
      }
    }

    /** The loop of `parse_list` after the opening token. */
    method ListItems(start: Span, close: Token) returns (r: Spanned<(seq<Spanned<A.Item>>, A.ListKind)>)
      requires Valid()
      modifies this, logs
      ensures Valid() && (r, State()) == ListLoop(In(), old(State()), [], start, close, false)
      decreases Measure(In(), State()), 4
    {
      ghost var e := In();
      ghost var goal := ListLoop(e, State(), [], start, close, false);
      var list: seq<Spanned<A.Item>> := [];
      var comma := false;
      while true
        invariant Valid() && ListLoop(e, State(), list, start, close, comma) == goal
        invariant Measure(e, State()) <= old(Measure(In(), State()))
        decreases Measure(e, State())
      {
        var t := PeekToken();
        if t.Some? && t.value.value == close {
          break;
        }
        var done, cut, item, comma' := ListTurn(list, start, close, comma);
        if done {
          return Spanned((cut.0, A.BraceComma), cut.1);
        }
        list, comma := list + [item], comma';
      }
      var _, end := ExpectToken(close);
      r := Spanned((list, ListKindOf(comma, close)), Join(start, end));
    }

    /** A turn of the loop of `parse_list`. */
    method ListTurn(list: seq<Spanned<A.Item>>, start: Span, close: Token, comma: bool)
      returns (done: bool, r: (seq<Spanned<A.Item>>, Span), item: Spanned<A.Item>, comma': bool)
      requires Valid()
      modifies this, logs
      ensures Valid()
      ensures var t := LegacyParserSpec.ListTurn(In(), old(State()), list, start, close, comma);
        State() == t.after && done == t.Ended? && (done ==> r == t.result) && (!done ==> item == t.item && comma' == t.comma)
      decreases Measure(In(), State()), 3
    {
      item := ParseItem();
      var seen := SkipComma();
      comma' := comma || seen;
      done, r := AfterItem(list, item, start, close, comma');
    }

    /** Symbols up to the end of the input or a token in `stops`. */
    method SymbolRun(stops: set<Token>, first: seq<Spanned<A.Symbol>>) returns (run: seq<Spanned<A.Symbol>>)
      requires Valid() && LineEnd in stops
      modifies this, logs
      ensures Valid() && (run, State()) == LegacyParserSpec.SymbolRun(In(), old(State()), stops, first)
    {
      ghost var goal := LegacyParserSpec.SymbolRun(In(), State(), stops, first);
      run := first;
      while true
        invariant Valid() && LegacyParserSpec.SymbolRun(In(), State(), stops, run) == goal
        decreases Measure(In(), State())
      {
        var t := PeekToken();
        if t.None? || t.value.value in stops {
          return;
        }
        var s := ParseSymbol();
        run := run + [s];
      }
    }

    /** One alternative of a production rule's right-hand side. */
    method ParseGroup(start: Span) returns (r: Spanned<A.ProductionGroup>)
      requires Valid()
      modifies this, logs
      ensures Valid() && (r, State()) == OneGroup(In(), old(State()), start)
    {
      var group := SymbolRun({LineEnd, Or}, []);
      if |group| == 0 {
        var p := PeekToken();
        logs.EmitError("cannot have empty production group", if p.Some? then p.value.span else eof);
      }
      r := Spanned(A.ProductionGroup(group), GroupSpan(group, start));
    }

    /** The alternatives of the right-hand side, separated by `|`. */
    method ParseGroups(start: Span) returns (groups: seq<Spanned<A.ProductionGroup>>)
      requires Valid()
      modifies this, logs
      ensures Valid() && (groups, State()) == GroupsLoop(In(), old(State()), [], start)
    {
      ghost var goal := GroupsLoop(In(), State(), [], start);
      groups := [];
      while true
        invariant Valid() && GroupsLoop(In(), State(), groups, start) == goal
        decreases Measure(In(), State())
      {
        var group := ParseGroup(start);
        groups := groups + [group];
        var q := PeekToken();
        if q.Some? && q.value.value == Or {
          var _ := NextToken();
        } else {
          return;
        }
      }
    }

    method ParseProductionRule(sym: A.Symbol, start: Span) returns (r: Spanned<A.TopLevel>)
      requires Valid()
      modifies this, logs
      ensures Valid() && (r, State()) == ProductionRule(In(), old(State()), sym, start)
    {
      var lhs := SymbolRun({LSmallArrow, LineEnd}, [Spanned(sym, start)]);
      var lhsEnd := lhs[|lhs| - 1].span;
      var lhsGroup := Spanned(A.ProductionGroup(lhs), Join(start, lhsEnd));
      var ok, _ := ExpectToken(LSmallArrow);
      if !ok {
        return Spanned(A.ProductionRule(lhsGroup, Spanned([], lhsEnd)), Join(start, lhsEnd));
      }
      r := ParseRuleRhs(lhsGroup, lhsEnd, start);
    }

    method ParseRuleRhs(lhsGroup: Spanned<A.ProductionGroup>, lhsEnd: Span, start: Span) returns (r: Spanned<A.TopLevel>)
      requires Valid()
      modifies this, logs
      ensures Valid() && (r, State()) == RuleRhs(In(), old(State()), lhsGroup, lhsEnd, start)
    {
      var groups := ParseGroups(start);
      // Every pass of the loop adds a group, so the source's check for an
      // empty rule never fires.
      var rulesEnd := groups[|groups| - 1].span;
      r := Spanned(A.ProductionRule(lhsGroup, Spanned(groups, GroupSpan(groups, start))), Join(start, rulesEnd));
    }

    method ParseTransitionFunction(ident: string, start: Span) returns (r: Option<Spanned<A.TopLevel>>)
      requires Valid()
      modifies this, logs
      ensures Valid() && (r, State()) == TransitionFunction(In(), old(State()), ident, start)
    {
      var tuple := ParseTupple();
      var dest := Spanned((Spanned(ident, start), tuple), Join(start, tuple.span));
      var ok, _ := ExpectToken(Eq);
      if !ok {
        return None;
      }
      var item := ParseItem();
      r := Some(Spanned(A.TransitionFunc(dest, item), Join(start, item.span)));
    }

    /** The recovery loop of `next_element`. */
    method SkipLine()
      requires Valid()
      modifies this, logs
      ensures Valid() && State() == LegacyParserSpec.SkipLine(In(), old(State()))
    {
      while true
        invariant Valid() && LegacyParserSpec.SkipLine(In(), State()) == LegacyParserSpec.SkipLine(In(), old(State()))
        decreases Measure(In(), State())
      {
        var t := NextToken();
        if t.None? || t.value.value == LineEnd {
          return;
        }
      }
    }

    /** One pass of the loop of `next_element`, given the token taken and
        the one after it. */
    method ElementStep(next: Tok, p: Option<Tok>) returns (found: bool, r: Spanned<A.TopLevel>)
      requires Valid() && Settled(In(), State()) && peek == p && !next.value.Comment?
      requires next.value == LineEnd ==> p == Some(next)
      modifies this, logs
      ensures Valid()
      ensures var t := LegacyParserSpec.ElementStep(In(), old(State()), next, p);
        State() == t.after && found == t.Found? && (found ==> r == t.element)
    {
      found, r := false, Spanned(A.Table, next.span);
      if next.value == LineEnd {
        AdvanceLine();
      } else if next.value.Ident? && p.Some? && p.value.value == LPar {
        var tf := ParseTransitionFunction(next.value.name, next.span);
        if tf.Some? {
          found, r := true, tf.value;
        }
      } else if IsEpsilon(next.value) && RuleGoesOn(p) {
        found := true;
        r := ParseProductionRule(A.Epsilon, next.span);
      } else if next.value.Ident? && RuleGoesOn(p) {
        found := true;
        r := ParseProductionRule(A.Ident(next.value.name), next.span);
      } else if next.value.Ident? && p.Some? && p.value.value == Eq {
        var ok, _ := ExpectToken(Eq);
        if ok {
          var item := ParseItem();
          found, r := true, Spanned(A.ItemDecl(Spanned(next.value.name, next.span), item), Join(next.span, item.span));
        }
      } else if next.value.Ident? {
        if p.Some? {
          logs.EmitError(Unexpected(p.value.value, "'=' | '->'"), p.value.span);
        } else {
          logs.EmitError("unexpected eof, expected '=' | '->'", eof);
        }
        SkipLine();
      } else {
        logs.EmitError(Unexpected(next.value, "ident"), next.span);
        SkipLine();
      }
    }

    method NextElement() returns (r: Option<Spanned<A.TopLevel>>)
      requires Valid()
      modifies this, logs
      ensures Valid() && (r, State()) == LegacyParserSpec.NextElement(In(), old(State()))
    {
      ghost var goal := LegacyParserSpec.NextElement(In(), State());
      while true
        invariant Valid() && LegacyParserSpec.NextElement(In(), State()) == goal
        decreases Measure(In(), State())
      {
        var n := NextToken();
        if n.None? {
          return None;
        }
        var p := PeekToken();
        var found, element := ElementStep(n.value, p);
        if found {
          AdvanceLine();
          return Some(element);
        }
      }
    }

    /** `parse_elements`: the elements in source order, and the log. */
    method ParseElements() returns (r: seq<Spanned<A.TopLevel>>)
      requires Valid()
      modifies this, logs
      ensures Valid() && (r, State()) == Elements(In(), old(State()), [])
    {
      ghost var e := In();
      ghost var goal := Elements(e, State(), []);
      r := [];
      while true
        invariant Valid() && Elements(e, State(), r) == goal
        decreases Measure(e, State())
      {
        var found := NextElement();
        if found.None? {
          return;
        }
        r := r + [found.value];
      }
    }
  }
}
