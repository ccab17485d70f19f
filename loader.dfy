// The loader's entry point (automata/src/loader/mod.rs): parse the whole
// source, stop if that logged an error, read the machine type from the
// first declaration, and hand the remaining declarations to the compiler of
// that type with the options the type implies.
//
// The dispatcher calls a `compile` function of each machine; the FA and PDA
// files define that entry point under the name `parse`, and it is those
// (`FiniteAutomata.Parse`, `PushdownAutomata.Parse`) that are called here.

module Loader {
  import opened Common
  import opened Log
  import opened LoaderContext
  import opened Automatan
  import Lexer
  import ParserSpec
  import Parser
  import Ast
  import FiniteAutomata
  import PushdownAutomata
  import TuringMachines

  datatype Kind = Dfa | Nfa | Dpda | Npda | Tm | Ntm

  datatype Machine =
    | FaMachine(fa: FiniteAutomata.Fa)
    | PdaMachine(pda: PushdownAutomata.Pda)
    | TmMachine(tm: TuringMachines.Tm)

  const EXPECTED_TYPE := "expected type=<type> as first item"
  const UNKNOWN_TYPE := "unknown type, expected 'DFA' | 'NFA' | 'DPDA' | 'NPDA' | 'TM' | 'NTM'"

  /** The spellings of each type. The nondeterministic PDA is spelled
      `npdaA` in lower case. */
  function Spellings(k: Kind): set<string>
  {
    match k
    case Dfa => {"dfa", "DFA"}
    case Nfa => {"nfa", "NFA"}
    case Dpda => {"dpda", "DPDA"}
    case Npda => {"npdaA", "NPDA"}
    case Tm => {"tm", "TM"}
    case Ntm => {"ntm", "NTM"}
  }

  function KindOf(name: string): Option<Kind>
  {
    if name == "dfa" || name == "DFA" then Some(Dfa)
    else if name == "nfa" || name == "NFA" then Some(Nfa)
    else if name == "dpda" || name == "DPDA" then Some(Dpda)
    else if name == "npdaA" || name == "NPDA" then Some(Npda)
    else if name == "tm" || name == "TM" then Some(Tm)
    else if name == "ntm" || name == "NTM" then Some(Ntm)
    else None
  }

  /** A name is read as a type exactly when it is one of that type's
      spellings; lower-case `npda` is none. */
  lemma KindOfSpellings(name: string, k: Kind)
    ensures KindOf(name) == Some(k) <==> name in Spellings(k)
    ensures KindOf("npda").None?
  {
  }

  /** `D` for the deterministic types, `N` for the others: nondeterminism
      and epsilon moves are permitted together or not at all. */
  function OptionsOf(k: Kind): (r: Options)
    ensures r.nonDeterministic == r.epsilonMoves
    ensures r.nonDeterministic <==> k in {Nfa, Npda, Ntm}
  {
    match k
    case Dfa => Options(false, false)
    case Dpda => Options(false, false)
    case Tm => Options(false, false)
    case Nfa => Options(true, true)
    case Npda => Options(true, true)
    case Ntm => Options(true, true)
  }

  /** `parse_type`: the first declaration must be `type = <ident>` naming a
      known type. Any other first declaration, or none, is an error at its
      span (or at the end of the source), with a hint. */
  function TypeOf(first: Option<Spanned<Ast.TopLevel>>, eof: Span): (r: (Option<Kind>, seq<LogEntry>))
    ensures r.0.Some? ==> r.1 == []
    ensures r.0.None? ==> |r.1| == 1 && r.1[0].level == Error
  {
    match first
    case None => (None, [Chained(ErrorAt(EXPECTED_TYPE, eof), HelpLogless("add: type = ..."))])
    case Some(decl) =>
      if decl.value.ItemDecl? && decl.value.name.value == "type" then
        var item := decl.value.item;
        match Ast.AsIdent(item.value)
        case None => (None, [Ast.Mismatch("ident", item)])
        case Some(name) =>
          match KindOf(name)
          case None => (None, [ErrorAt(UNKNOWN_TYPE, item.span)])
          case Some(k) => (Some(k), [])
      else (None, [Chained(ErrorAt(EXPECTED_TYPE, decl.span), HelpLogless("add: type = ..."))])
  }

  /** A type is read exactly from a first declaration `type = <spelling>`. */
  lemma TypeOfReads(first: Option<Spanned<Ast.TopLevel>>, eof: Span, k: Kind)
    ensures TypeOf(first, eof).0 == Some(k) <==>
      first.Some? && first.value.value.ItemDecl? && first.value.value.name.value == "type" &&
      Ast.AsIdent(first.value.value.item.value).Some? && Ast.AsIdent(first.value.value.item.value).value in Spellings(k)
  {
    if first.Some? && first.value.value.ItemDecl? && Ast.AsIdent(first.value.value.item.value).Some? {
      KindOfSpellings(Ast.AsIdent(first.value.value.item.value).value, k);
    }
  }

  /** The machine the compiler of type `k` builds from `rest`, and what it logs. */
  function Dispatched(k: Kind, rest: seq<Spanned<Ast.TopLevel>>): (Machine, seq<LogEntry>)
  {
    match k
    case Dfa => var (m, l) := FiniteAutomata.Compiled(rest, OptionsOf(k)); (FaMachine(m), l)
    case Nfa => var (m, l) := FiniteAutomata.Compiled(rest, OptionsOf(k)); (FaMachine(m), l)
    case Dpda => var (m, l) := PushdownAutomata.Compiled(rest, OptionsOf(k)); (PdaMachine(m), l)
    case Npda => var (m, l) := PushdownAutomata.Compiled(rest, OptionsOf(k)); (PdaMachine(m), l)
    case Tm => var (m, l) := TuringMachines.Compiled(rest, OptionsOf(k)); (TmMachine(m), l)
    case Ntm => var (m, l) := TuringMachines.Compiled(rest, OptionsOf(k)); (TmMachine(m), l)
  }

  /** The first declaration of `items`, if any. */
  function First(items: seq<Spanned<Ast.TopLevel>>): Option<Spanned<Ast.TopLevel>>
  {
    if items == [] then None else Some(items[0])
  }

  /** The declarations after the first. */
  function Rest(items: seq<Spanned<Ast.TopLevel>>): seq<Spanned<Ast.TopLevel>>
  {
    if items == [] then [] else items[1..]
  }

  /** The declarations after the parse: the type, then the compiler's run
      over every later declaration. */
  function Universal(items: seq<Spanned<Ast.TopLevel>>, eof: Span): (r: (Option<(Kind, Machine)>, seq<LogEntry>))
  {
    var (k, logs) := TypeOf(First(items), eof);
    match k
    case None => (None, logs)
    case Some(kind) =>
      var (m, l) := Dispatched(kind, Rest(items));
      (Some((kind, m)), l)
  }

  /** A machine of the family that type `k` selects, well formed under the
      options `k` implies. */
  predicate WellFormedAs(m: Machine, k: Kind)
  {
    match m
    case FaMachine(fa) => k in {Dfa, Nfa} && FiniteAutomata.WellFormed(fa, OptionsOf(k))
    case PdaMachine(pda) => k in {Dpda, Npda} && PushdownAutomata.WellFormed(pda, OptionsOf(k))
    case TmMachine(tm) => k in {Tm, Ntm} && TuringMachines.WellFormed(tm, OptionsOf(k))
  }

  /** `parse_type` on the first declaration, if any. */
  method ParseType(first: Option<Spanned<Ast.TopLevel>>, ctx: Context) returns (r: Option<Kind>)
    requires ctx.Valid()
    modifies ctx.logs
    ensures ctx.Valid()
    ensures r == TypeOf(first, ctx.Eof()).0
    ensures ctx.logs.entries == old(ctx.logs.entries) + TypeOf(first, ctx.Eof()).1
  {
    if first.None? {
      EmitChained(ctx.logs, ErrorAt(EXPECTED_TYPE, ctx.Eof()), HelpLogless("add: type = ..."));
      return None;
    }
    var decl := first.value;
    if !(decl.value.ItemDecl? && decl.value.name.value == "type") {
      EmitChained(ctx.logs, ErrorAt(EXPECTED_TYPE, decl.span), HelpLogless("add: type = ..."));
      return None;
    }
    var name := Ast.ExpectIdent(decl.value.item, ctx);
    if name.None? {
      return None;
    }
    r := KindOf(name.value);
    if r.None? {
      var _ := ctx.logs.Emit(ErrorAt(UNKNOWN_TYPE, decl.value.item.span));
    }
  }

  /** The compiler type `k` selects, run over `rest`. */
  method Dispatch(k: Kind, rest: seq<Spanned<Ast.TopLevel>>, ctx: Context) returns (r: Option<Machine>)
    requires ctx.Valid()
    modifies ctx.logs
    ensures ctx.Valid()
    ensures ctx.logs.entries == old(ctx.logs.entries) + Dispatched(k, rest).1
    ensures r.Some? <==> !ctx.ContainsErrors()
    ensures r.Some? ==> r.value == Dispatched(k, rest).0 && WellFormedAs(r.value, k)
  {
    hide FiniteAutomata.Compiled, PushdownAutomata.Compiled, TuringMachines.Compiled;
    var o := OptionsOf(k);
    if k == Dfa || k == Nfa {
      var m := FiniteAutomata.Parse(rest, ctx, o);
      r := if m.Some? then Some(FaMachine(m.value)) else None;
    } else if k == Dpda || k == Npda {
      var m := PushdownAutomata.Parse(rest, ctx, o);
      r := if m.Some? then Some(PdaMachine(m.value)) else None;
    } else {
      var m := TuringMachines.Compile(rest, ctx, o);
      r := if m.Some? then Some(TmMachine(m.value)) else None;
    }
  }

  /** The part of `parse_universal` after the parse, on the first
      declaration and the ones after it: the type, then the compiler it
      selects. A machine is returned exactly when the log holds no error,
      and it is a well formed machine of the family of the type read. */
  method CompileDeclarations(first: Option<Spanned<Ast.TopLevel>>, rest: seq<Spanned<Ast.TopLevel>>, ctx: Context)
    returns (r: Option<Machine>)
    requires ctx.Valid()
    modifies ctx.logs
    ensures ctx.Valid()
    ensures r.Some? <==> !ctx.ContainsErrors()
    ensures var t := TypeOf(first, ctx.Eof());
      if t.0.None? then r.None? && ctx.logs.entries == old(ctx.logs.entries) + t.1
      else (ctx.logs.entries == old(ctx.logs.entries) + Dispatched(t.0.value, rest).1 &&
        (r.Some? ==> r.value == Dispatched(t.0.value, rest).0 && WellFormedAs(r.value, t.0.value)))
  {
    hide FiniteAutomata.Compiled, PushdownAutomata.Compiled, TuringMachines.Compiled;
    var kind := ParseType(first, ctx);
    if kind.None? {
      assert ctx.logs.entries[|old(ctx.logs.entries)|].level == Error;
      return None;
    }
    r := Dispatch(kind.value, rest, ctx);
  }

  /** `parse_universal`: when parsing the source logs an error, nothing is
      compiled and there is no machine; otherwise the declarations go on to
      the type and its compiler. A machine is returned exactly when the log
      holds no error. */
  method ParseUniversal(ctx: Context) returns (r: Option<Machine>)
    requires ctx.Valid() && Lexer.LexAll(ctx.src, 0).Some?
    modifies ctx.logs
    ensures ctx.Valid()
    ensures r.Some? <==> !ctx.ContainsErrors()
    ensures var (items, st) := ParserSpec.Elements(ParserSpec.Input(Lexer.LexAll(ctx.src, 0).value, ctx.Eof()), ParserSpec.PState(0, None, old(ctx.logs.entries)), []);
      if !NoErrors(st.log) then r.None? && ctx.logs.entries == st.log
      else (ctx.logs.entries == st.log + Universal(items, ctx.Eof()).1 &&
        (r.Some? ==> (Universal(items, ctx.Eof()).0.Some? && r.value == Universal(items, ctx.Eof()).0.value.1 &&
                      WellFormedAs(r.value, Universal(items, ctx.Eof()).0.value.0))))
  {
    hide FiniteAutomata.Compiled, PushdownAutomata.Compiled, TuringMachines.Compiled;
    var parser := new Parser.Parser(ctx);
    var items := parser.Collect();
    if ctx.logs.hasError {
      return None;
    }
    r := CompileDeclarations(First(items), Rest(items), ctx);
  }
}
