// The syntax tree of the first loader (src/loader/ast.rs) and its accessors.
// They log into the first loader's flat log (LegacyLog): the `Context` they
// take is not part of this model, and its `emit_error` is modelled as the
// `EmitError` of that log.

module LegacyAst {
  import opened Common
  import opened LegacyLog

  datatype ListKind = Brace | Bracket | BraceComma | BracketComma

  /** In this loader an epsilon does not keep its spelling. */
  datatype Symbol = Epsilon | Ident(name: string)

  datatype Item =
    | SymbolItem(symbol: Symbol)
    | TupleItem(tuple: Tuple)
    | ListItem(elems: seq<Spanned<Item>>, kind: ListKind)

  datatype Tuple = Tuple(items: seq<Spanned<Item>>)

  datatype ProductionGroup = ProductionGroup(symbols: seq<Spanned<Symbol>>)

  datatype TopLevel =
    | ItemDecl(name: Spanned<string>, item: Spanned<Item>)
    | TransitionFunc(dest: Spanned<(Spanned<string>, Spanned<Tuple>)>, item: Spanned<Item>)
    | ProductionRule(lhs: Spanned<ProductionGroup>, rhs: Spanned<seq<Spanned<ProductionGroup>>>)
    | Table

  const NPDA_SOURCE_SHAPE := "expected NPDA transition function (ident, ident|~, ident)"
  const NPDA_TARGET_SHAPE := "expected NPDA transition (ident, item|[item])"

  function Found(item: Item): string
  {
    match item
    case SymbolItem(Ident(_)) => "ident"
    case SymbolItem(Epsilon) => "epsilon"
    case TupleItem(_) => "tuple"
    case ListItem(_, _) => "list"
  }

  /** The one error an accessor logs for an item of another shape. */
  function Mismatch(expected: string, item: Spanned<Item>): LogEntry
  {
    LogEntry("expected " + expected + " found " + Found(item.value), Some(item.span), Error)
  }

  function AsIdent(item: Item): Option<string>
  {
    if item.SymbolItem? && item.symbol.Ident? then Some(item.symbol.name) else None
  }

  function AsElements(item: Item): Option<seq<Spanned<Item>>>
  {
    if item.ListItem? then Some(item.elems) else None
  }

  function AsTuple(item: Spanned<Item>): Option<Spanned<Tuple>>
  {
    if item.value.TupleItem? then Some(Spanned(item.value.tuple, item.span)) else None
  }

  /** `list_weak` and `set_weak`: a list's elements, or the item alone. */
  function Weak(item: Spanned<Item>): (r: seq<Spanned<Item>>)
  {
    match item.value
    case ListItem(elems, _) => elems
    case _ => [item]
  }

  /** The weak view is what `expect_set` returns when that succeeds, and the
      item alone otherwise; it never logs anything. */
  lemma WeakAgreesWithExpectSet(item: Spanned<Item>)
    ensures AsElements(item.value).Some? ==> Weak(item) == AsElements(item.value).value
    ensures AsElements(item.value).None? ==> Weak(item) == [item]
  {
  }

  /** An accessor's error names the shape that was expected and the shape
      that was found, and is the only thing it logs. */
  lemma MismatchNamesShapes(expected: string, item: Spanned<Item>)
    ensures Mismatch(expected, item).level == Error && Mismatch(expected, item).span == Some(item.span)
    ensures Found(item.value) == "ident" <==> AsIdent(item.value).Some?
    ensures Found(item.value) == "list" <==> AsElements(item.value).Some?
    ensures Found(item.value) == "tuple" <==> AsTuple(item).Some?
  {
  }

  // ---------------------------------------------------------------------
  // The NPDA shapes.

  /** `expect_npda_transition_function`: exactly an identifier, a symbol and
      an identifier. */
  function NpdaSource(t: Spanned<Tuple>): (r: Option<(Spanned<string>, Spanned<Symbol>, Spanned<string>)>)
    ensures r.Some? <==> (|t.value.items| == 3 && AsIdent(t.value.items[0].value).Some? &&
      t.value.items[1].value.SymbolItem? && AsIdent(t.value.items[2].value).Some?)
    ensures r.Some? ==> (r.value.0.value == AsIdent(t.value.items[0].value).value &&
      r.value.1.value == t.value.items[1].value.symbol && r.value.2.value == AsIdent(t.value.items[2].value).value)
  {
    var items := t.value.items;
    if |items| == 3 && AsIdent(items[0].value).Some? && items[1].value.SymbolItem? && AsIdent(items[2].value).Some? then
      Some((Spanned(items[0].value.symbol.name, items[0].span),
            Spanned(items[1].value.symbol, items[1].span),
            Spanned(items[2].value.symbol.name, items[2].span)))
    else None
  }

  /** `expect_npda_transition`: exactly an identifier and an item, whose
      weak view is what is pushed. */
  function NpdaMove(t: Spanned<Tuple>): (r: Option<(Spanned<string>, seq<Spanned<Item>>)>)
    ensures r.Some? <==> |t.value.items| == 2 && AsIdent(t.value.items[0].value).Some?
    ensures r.Some? ==> r.value.0.value == AsIdent(t.value.items[0].value).value && r.value.1 == Weak(t.value.items[1])
  {
    var items := t.value.items;
    if |items| == 2 && AsIdent(items[0].value).Some? then
      Some((Spanned(items[0].value.symbol.name, items[0].span), Weak(items[1])))
    else None
  }

  // ---------------------------------------------------------------------
  // The accessors: each returns what it accepts and otherwise logs one
  // error at the item's span.

  method ExpectIdent(item: Spanned<Item>, ctx: Logs) returns (r: Option<string>)
    requires ctx.Valid()
    modifies ctx
    ensures ctx.Valid()
    ensures r == AsIdent(item.value)
    ensures ctx.entries == old(ctx.entries) + (if r.Some? then [] else [Mismatch("ident", item)])
  {
    match item.value {
      case SymbolItem(Ident(ident)) =>
        return Some(ident);
      case SymbolItem(Epsilon) =>
        ctx.Emit(Mismatch("ident", item));
      case TupleItem(_) =>
        ctx.Emit(Mismatch("ident", item));
      case ListItem(_, _) =>
        ctx.Emit(Mismatch("ident", item));
    }
    r := None;
  }

  method ExpectSet(item: Spanned<Item>, ctx: Logs) returns (r: Option<seq<Spanned<Item>>>)
    requires ctx.Valid()
    modifies ctx
    ensures ctx.Valid()
    ensures r == AsElements(item.value)
    ensures ctx.entries == old(ctx.entries) + (if r.Some? then [] else [Mismatch("set", item)])
  {
    match item.value {
      case SymbolItem(Ident(_)) =>
        ctx.Emit(Mismatch("set", item));
      case SymbolItem(Epsilon) =>
        ctx.Emit(Mismatch("set", item));
      case TupleItem(_) =>
        ctx.Emit(Mismatch("set", item));
      case ListItem(elems, _) =>
        return Some(elems);
    }
    r := None;
  }

  method ExpectList(item: Spanned<Item>, ctx: Logs) returns (r: Option<seq<Spanned<Item>>>)
    requires ctx.Valid()
    modifies ctx
    ensures ctx.Valid()
    ensures r == AsElements(item.value)
    ensures ctx.entries == old(ctx.entries) + (if r.Some? then [] else [Mismatch("list", item)])
  {
    match item.value {
      case SymbolItem(Ident(_)) =>
        ctx.Emit(Mismatch("list", item));
      case SymbolItem(Epsilon) =>
        ctx.Emit(Mismatch("list", item));
      case TupleItem(_) =>
        ctx.Emit(Mismatch("list", item));
      case ListItem(elems, _) =>
        return Some(elems);
    }
    r := None;
  }

  method ExpectTuple(item: Spanned<Item>, ctx: Logs) returns (r: Option<Spanned<Tuple>>)
    requires ctx.Valid()
    modifies ctx
    ensures ctx.Valid()
    ensures r == AsTuple(item)
    ensures r.Some? ==> r.value.span == item.span
    ensures ctx.entries == old(ctx.entries) + (if r.Some? then [] else [Mismatch("tuple", item)])
  {
    match item.value {
      case SymbolItem(Ident(_)) =>
        ctx.Emit(Mismatch("tuple", item));
      case SymbolItem(Epsilon) =>
        ctx.Emit(Mismatch("tuple", item));
      case TupleItem(tuple) =>
        return Some(Spanned(tuple, item.span));
      case ListItem(_, _) =>
        ctx.Emit(Mismatch("tuple", item));
    }
    r := None;
  }

  method ExpectNpdaSource(t: Spanned<Tuple>, ctx: Logs) returns (r: Option<(Spanned<string>, Spanned<Symbol>, Spanned<string>)>)
    requires ctx.Valid()
    modifies ctx
    ensures ctx.Valid()
    ensures r == NpdaSource(t)
    ensures ctx.entries == old(ctx.entries) + (if r.Some? then [] else [LogEntry(NPDA_SOURCE_SHAPE, Some(t.span), Error)])
  {
    r := NpdaSource(t);
    if r.None? {
      ctx.EmitError(NPDA_SOURCE_SHAPE, t.span);
    }
  }

  method ExpectNpdaMove(t: Spanned<Tuple>, ctx: Logs) returns (r: Option<(Spanned<string>, seq<Spanned<Item>>)>)
    requires ctx.Valid()
    modifies ctx
    ensures ctx.Valid()
    ensures r == NpdaMove(t)
    ensures ctx.entries == old(ctx.entries) + (if r.Some? then [] else [LogEntry(NPDA_TARGET_SHAPE, Some(t.span), Error)])
  {
    r := NpdaMove(t);
    if r.None? {
      ctx.EmitError(NPDA_TARGET_SHAPE, t.span);
    }
  }
}
