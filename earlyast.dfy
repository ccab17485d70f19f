// The syntax tree and log records of the oldest parser (src/parser.rs).
// A tuple holds symbols only, a list holds items, and every top-level
// element is an assignment.

module EarlyAst {
  import opened Common

  datatype Symbol = Epsilon | Ident(name: string)

  datatype Tuple = Tuple(symbols: seq<Spanned<Symbol>>)

  /** What an assignment assigns to: a plain name (`Dest::Ident`), or a
      function applied to a tuple. */
  datatype Dest =
    | Named(ident: string)
    | Function(name: Spanned<string>, args: Spanned<Tuple>)

  datatype Item =
    | SymbolItem(symbol: Symbol)
    | TupleItem(tuple: Tuple)
    | ListItem(list: List)

  datatype List = List(items: seq<Spanned<Item>>)

  datatype TopLevel =
    | Assignment(dest: Spanned<Dest>, item: Spanned<Item>)
    | Table

  /** `LogKind::Lexer` and `LogKind::UnexpectedToken`. */
  datatype LogKind = LexerKind | UnexpectedToken

  datatype LogLevel = Info | Warning | Error

  datatype Log = Log(message: string, range: Span, level: LogLevel, kind: LogKind)
}
