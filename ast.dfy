// The syntax tree of the current loader (automata/src/loader/ast.rs) and the
// accessors that read a typed view out of an item, logging one error when
// the item has another shape.

module Ast {
  import opened Common
  import opened Log
  import opened LoaderContext

  datatype ListKind = Brace | Bracket | BraceComma | BracketComma

  /** An epsilon keeps the spelling it was written with. */
  datatype Symbol = Epsilon(repr: string) | Ident(name: string)

  datatype Item =
    | SymbolItem(symbol: Symbol)
    | TupleItem(tuple: Tuple)
    | ListItem(elems: seq<Spanned<Item>>, kind: ListKind)

  datatype Tuple = Tuple(items: seq<Spanned<Item>>)

  datatype ProductionGroup = ProductionGroup(symbols: seq<Spanned<Symbol>>)

  datatype TopLevel =
    | ItemDecl(name: Spanned<string>, item: Spanned<Item>)
    | TransitionFunc(dest: Spanned<(Spanned<string>, Spanned<Tuple>)>, item: Spanned<Item>)
    | ProductionRule(lhs: Spanned<ProductionGroup>, rhs: Spanned<seq<Spanned<ProductionGroup>>>)
    | Table

  /** How an item is named in the accessors' error messages. */
  function Found(item: Item): string
  {
    match item
    case SymbolItem(Ident(_)) => "ident"
    case SymbolItem(Epsilon(_)) => "epsilon"
    case TupleItem(_) => "tuple"
    case ListItem(_, _) => "list"
  }

  function Mismatch(expected: string, item: Spanned<Item>): LogEntry
  {
    ErrorAt("expected " + expected + " found " + Found(item.value), item.span)
  }

  // ---------------------------------------------------------------------
  // What each accessor accepts.

  function AsSymbol(item: Item): Option<Symbol>
  {
    if item.SymbolItem? then Some(item.symbol) else None
  }

  function AsIdent(item: Item): Option<string>
  {
    if item.SymbolItem? && item.symbol.Ident? then Some(item.symbol.name) else None
  }

  function AsElements(item: Item): Option<seq<Spanned<Item>>>
  {
    if item.ListItem? then Some(item.elems) else None
  }

  function AsTuple(item: Spanned<Item>): Option<Spanned<Tuple>>
  {
    if item.value.TupleItem? then Some(Spanned(item.value.tuple, item.span)) else None
  }

  /** `list_weak` and `set_weak`: a list's elements, or the item alone. */
  function Weak(item: Spanned<Item>): (r: seq<Spanned<Item>>)
    ensures item.value.ListItem? ==> r == item.value.elems
    ensures !item.value.ListItem? ==> r == [item]
  {
    match item.value
    case ListItem(elems, _) => elems
    case _ => [item]
  }

  /** The weak view agrees with `expect_set` whenever the latter succeeds,
      and otherwise wraps the item. */
  lemma WeakAgreesWithExpectSet(item: Spanned<Item>)
    ensures AsElements(item.value).Some? ==> Weak(item) == AsElements(item.value).value
    ensures AsElements(item.value).None? ==> |Weak(item)| == 1 && Weak(item)[0] == item
  {
  }

  /** Exactly one of an ident, an epsilon, a tuple and a list is accepted
      by each accessor. */
  lemma AccessorsPartition(item: Item)
    ensures AsIdent(item).Some? ==> AsSymbol(item).Some?
    ensures AsSymbol(item).Some? && AsIdent(item).None? <==> item.SymbolItem? && item.symbol.Epsilon?
    ensures AsElements(item).Some? <==> AsSymbol(item).None? && !item.TupleItem?
  {
  }

  // ---------------------------------------------------------------------
  // The accessors. Each returns what it accepts and otherwise logs one
  // error at the item's span.

  method ExpectSymbol(item: Spanned<Item>, ctx: Context) returns (r: Option<Symbol>)
    requires ctx.Valid()
    modifies ctx.logs
    ensures ctx.Valid()
    ensures r == AsSymbol(item.value)
    ensures ctx.logs.entries == old(ctx.logs.entries) + (if r.Some? then [] else [Mismatch("ident", item)])
  {
    match item.value {
      case SymbolItem(sym) =>
        return Some(sym);
      case TupleItem(_) =>
        var _ := ctx.logs.Emit(Mismatch("ident", item));
      case ListItem(_, _) =>
        var _ := ctx.logs.Emit(Mismatch("ident", item));
    }
    r := None;
  }

  method ExpectIdent(item: Spanned<Item>, ctx: Context) returns (r: Option<string>)
    requires ctx.Valid()
    modifies ctx.logs
    ensures ctx.Valid()
    ensures r == AsIdent(item.value)
    ensures ctx.logs.entries == old(ctx.logs.entries) + (if r.Some? then [] else [Mismatch("ident", item)])
  {
    match item.value {
      case SymbolItem(Ident(ident)) =>
        return Some(ident);
      case SymbolItem(Epsilon(_)) =>
        var _ := ctx.logs.Emit(Mismatch("ident", item));
      case TupleItem(_) =>
        var _ := ctx.logs.Emit(Mismatch("ident", item));
      case ListItem(_, _) =>
        var _ := ctx.logs.Emit(Mismatch("ident", item));
    }
    r := None;
  }

  method ExpectSet(item: Spanned<Item>, ctx: Context) returns (r: Option<seq<Spanned<Item>>>)
    requires ctx.Valid()
    modifies ctx.logs
    ensures ctx.Valid()
    ensures r == AsElements(item.value)
    ensures ctx.logs.entries == old(ctx.logs.entries) + (if r.Some? then [] else [Mismatch("set", item)])
  {
    match item.value {
      case SymbolItem(Ident(_)) =>
        var _ := ctx.logs.Emit(Mismatch("set", item));
      case SymbolItem(Epsilon(_)) =>
        var _ := ctx.logs.Emit(Mismatch("set", item));
      case TupleItem(_) =>
        var _ := ctx.logs.Emit(Mismatch("set", item));
      case ListItem(elems, _) =>
        return Some(elems);
    }
    r := None;
  }

  method ExpectList(item: Spanned<Item>, ctx: Context) returns (r: Option<seq<Spanned<Item>>>)
    requires ctx.Valid()
    modifies ctx.logs
    ensures ctx.Valid()
    ensures r == AsElements(item.value)
    ensures ctx.logs.entries == old(ctx.logs.entries) + (if r.Some? then [] else [Mismatch("list", item)])
  {
    match item.value {
      case SymbolItem(Ident(_)) =>
        var _ := ctx.logs.Emit(Mismatch("list", item));
      case SymbolItem(Epsilon(_)) =>
        var _ := ctx.logs.Emit(Mismatch("list", item));
      case TupleItem(_) =>
        var _ := ctx.logs.Emit(Mismatch("list", item));
      case ListItem(elems, _) =>
        return Some(elems);
    }
    r := None;
  }

  method ExpectTuple(item: Spanned<Item>, ctx: Context) returns (r: Option<Spanned<Tuple>>)
    requires ctx.Valid()
    modifies ctx.logs
    ensures ctx.Valid()
    ensures r == AsTuple(item)
    ensures r.Some? ==> r.value.span == item.span
    ensures ctx.logs.entries == old(ctx.logs.entries) + (if r.Some? then [] else [Mismatch("tuple", item)])
  {
    match item.value {
      case SymbolItem(Ident(_)) =>
        var _ := ctx.logs.Emit(Mismatch("tuple", item));
      case SymbolItem(Epsilon(_)) =>
        var _ := ctx.logs.Emit(Mismatch("tuple", item));
      case TupleItem(tuple) =>
        return Some(Spanned(tuple, item.span));
      case ListItem(_, _) =>
        var _ := ctx.logs.Emit(Mismatch("tuple", item));
    }
    r := None;
  }
}
