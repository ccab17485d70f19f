// The Turing-machine compiler (automata/src/automatan/tm.rs): a compiler
// object whose fields (the states, the tape symbols, the final states, the
// initial state, the blank symbol, the definition spans of the three sets
// and the transition table) are filled in by one method per kind of
// declaration, followed by the defaults and a machine only if no error was
// logged anywhere in the context.
//
// Each method of `TmCompiler` is proved to change the fields exactly as a
// function on a `Draft` of those fields does, and to append exactly the
// entries that function lists to the context's log. Two choices of the
// compiler are followed as written: the tape-symbol section is the one named
// by a spelling of delta (so `T = {...}` is an unknown item), and the blank
// symbol must be a declared state.

module TuringMachines {
  import opened Common
  import opened Log
  import opened LoaderContext
  import opened Automatan
  import Ast

  /** `Direction`; the source's `Direction::None` (stay in place) is `Stay`. */
  datatype Direction = Left | Right | Stay

  /** A starting point: a state and the symbol under the head. */
  datatype From = From(state: string, symbol: string)

  /** A target: the next state, the symbol written, the head move, and the
      spans of the target item and of the function. */
  datatype To = To(state: string, symbol: string, direction: Direction, transition: Span, func: Span)

  datatype Tm = Tm(
    initialState: string,
    blankSymbol: string,
    states: map<string, Span>,
    symbols: map<string, Span>,
    finalStates: map<string, Span>,
    transitions: map<From, set<To>>)

  /** The fields of a `TmCompiler`. */
  datatype Draft = Draft(
    initial: Option<(string, Span)>,
    blank: Option<(string, Span)>,
    states: map<string, Span>,
    statesDef: Option<Span>,
    symbols: map<string, Span>,
    symbolsDef: Option<Span>,
    finals: map<string, Span>,
    finalsDef: Option<Span>,
    transitions: map<From, set<To>>)

  const EMPTY: Draft := Draft(None, None, map[], None, map[], None, map[], None, map[])

  const PREVIOUS := "previously defined here"
  const EMPTY_SET := "states cannot be empty"
  const SOURCE_SHAPE := "expected TM transition function (state, symbol)"
  const TARGET_SHAPE := "expected TM transition function (state, symbol, direction)"
  const UNDECLARED_STATE := "transition state not defined as state"
  const UNDECLARED_SYMBOL := "transition tape symbol not defined as tape symbol"

  /** `maker!(str: ...)`: each name between single quotes, separated by `|`. */
  function Alternatives(names: seq<string>): (r: string)
    requires names != []
    ensures |r| >= 2 && r[0] == '\'' && r[|r| - 1] == '\''
  {
    if |names| == 1 then "'" + names[0] + "'"
    else "'" + names[0] + "' | " + Alternatives(names[1..])
  }

  // ---------------------------------------------------------------------
  // Named sets: `Q` and the tape symbols. A name that is already present is
  // overwritten, and the error carries a note at the span it had before.

  function ChainedName(m: map<string, Span>, item: Spanned<Ast.Item>, redefined: string): (r: (map<string, Span>, seq<LogEntry>))
  {
    match Ast.AsIdent(item.value)
    case None => (m, [Ast.Mismatch("ident", item)])
    case Some(name) =>
      (m[name := item.span], if name in m then [Chained(ErrorAt(redefined, item.span), InfoAt(PREVIOUS, m[name]))] else [])
  }

  function ChainedNames(m: map<string, Span>, items: seq<Spanned<Ast.Item>>, redefined: string): (r: (map<string, Span>, seq<LogEntry>))
    decreases |items|
  {
    if items == [] then (m, [])
    else
      var (m1, logs1) := ChainedNames(m, items[..|items| - 1], redefined);
      var (m2, logs2) := ChainedName(m1, items[|items| - 1], redefined);
      (m2, logs1 + logs2)
  }

  /** After a named set, the names are exactly the earlier ones and the
      identifiers of the set, and each identifier's span is the one of its
      last occurrence. */
  lemma {:induction false} ChainedNamesKeys(m: map<string, Span>, items: seq<Spanned<Ast.Item>>, redefined: string)
    ensures ChainedNames(m, items, redefined).0.Keys == m.Keys + Idents(items)
    ensures items != [] && Ast.AsIdent(items[|items| - 1].value).Some? ==>
      ChainedNames(m, items, redefined).0[Ast.AsIdent(items[|items| - 1].value).value] == items[|items| - 1].span
    decreases |items|
  {
    if items != [] {
      ChainedNamesKeys(m, items[..|items| - 1], redefined);
      IdentsSnoc(items);
    }
  }

  /** The "already set" error of a section defined before, with a note at
      the earlier definition. */
  function Again(def: Option<Span>, already: string, top: Span): seq<LogEntry>
  {
    if def.Some? then [Chained(ErrorAt(already, top), InfoAt(PREVIOUS, def.value))] else []
  }

  /** A named set after the "already set" check: the new names and the
      section's definition span, which is set only when the item is a set. */
  function SetBody(m: map<string, Span>, def: Option<Span>, list: Spanned<Ast.Item>, top: Span, redefined: string)
    : (r: (map<string, Span>, Option<Span>, seq<LogEntry>))
  {
    match Ast.AsElements(list.value)
    case None => (m, def, [Ast.Mismatch("set", list)])
    case Some(elems) =>
      var (m1, logs) := ChainedNames(m, elems, redefined);
      (m1, Some(top), logs + (if elems == [] then [ErrorAt(EMPTY_SET, top)] else []))
  }

  /** A section of names never forgets one, records the identifiers of a
      set, and is marked as defined exactly when its item is a set. */
  lemma SetBodyGrows(m: map<string, Span>, def: Option<Span>, list: Spanned<Ast.Item>, top: Span, redefined: string)
    ensures var (m1, def1, _) := SetBody(m, def, list, top, redefined);
      && m.Keys <= m1.Keys
      && (list.value.ListItem? ==> m1.Keys == m.Keys + Idents(list.value.elems) && def1 == Some(top))
      && (!list.value.ListItem? ==> m1 == m && def1 == def)
  {
    if list.value.ListItem? {
      ChainedNamesKeys(m, list.value.elems, redefined);
    }
  }

  // ---------------------------------------------------------------------
  // The sections.

  /** `Q`: the set of states. */
  function StatesDecl(d: Draft, list: Spanned<Ast.Item>, top: Span): (r: (Draft, seq<LogEntry>))
  {
    var (m, def, logs) := SetBody(d.states, d.statesDef, list, top, "state redefined");
    (d.(states := m, statesDef := def), Again(d.statesDef, "states already set", top) + logs)
  }

  /** The tape symbols. Their emptiness is reported with the message of the
      states section. */
  function SymbolsDecl(d: Draft, list: Spanned<Ast.Item>, top: Span): (r: (Draft, seq<LogEntry>))
  {
    var (m, def, logs) := SetBody(d.symbols, d.symbolsDef, list, top, "stack symbol redefined");
    (d.(symbols := m, symbolsDef := def), Again(d.symbolsDef, "stack symbols already set", top) + logs)
  }

  /** `F`: added to the final states read so far, each a declared state. */
  function FinalsDecl(d: Draft, list: Spanned<Ast.Item>, top: Span): (r: (Draft, seq<LogEntry>))
  {
    var pre := if d.finalsDef.Some? then [Chained(ErrorAt("final states already set", top), HelpAt(PREVIOUS, d.finalsDef.value))] else [];
    match Ast.AsElements(list.value)
    case None => (d, pre + [Ast.Mismatch("set", list)])
    case Some(elems) =>
      var (f, logs) := FinalEntries(d.states, d.finals, elems);
      (d.(finals := f, finalsDef := Some(top)), pre + logs)
  }

  /** A choice of one declared name, remembered with the span of its
      declaration; a second choice is also reported, with a note at the
      first. */
  function Choice(current: Option<(string, Span)>, declared: map<string, Span>, item: Spanned<Ast.Item>, top: Span, already: string, undeclared: string)
    : (r: (Option<(string, Span)>, seq<LogEntry>))
    ensures r.0 == current || (r.0.Some? && r.0.value.0 in declared && r.0.value.1 == top)
    ensures NoErrors(r.1) <==> current.None? && Ast.AsIdent(item.value).Some? && Ast.AsIdent(item.value).value in declared
  {
    match Ast.AsIdent(item.value)
    case None =>
      var logs := [ErrorAt("expected ident", item.span)];
      assert logs[0].level == Error;
      (current, logs)
    case Some(name) =>
      var pre := if current.Some? then [Chained(ErrorAt(already, top), HelpAt(PREVIOUS, current.value.1))] else [];
      assert current.Some? ==> pre[0].level == Error;
      if name in declared then (Some((name, top)), pre)
      else
        var logs := pre + [ErrorAt(undeclared, item.span)];
        assert logs[|pre|].level == Error;
        (current, logs)
  }

  /** `q0`: the initial state, which must be a declared state. */
  function InitialDecl(d: Draft, item: Spanned<Ast.Item>, top: Span): (r: (Draft, seq<LogEntry>))
  {
    var (c, logs) := Choice(d.initial, d.states, item, top, "initial state already set", "initial state symbol not defined as a state");
    (d.(initial := c), logs)
  }

  /** `B`: the blank symbol, which must be a declared state. */
  function BlankDecl(d: Draft, item: Spanned<Ast.Item>, top: Span): (r: (Draft, seq<LogEntry>))
  {
    var (c, logs) := Choice(d.blank, d.states, item, top, "blank symbol already set", "blank symbol not defined as a state");
    (d.(blank := c), logs)
  }

  // ---------------------------------------------------------------------
  // Transitions.

  /** The spellings of each head move. */
  function Spellings(dir: Direction): set<string>
  {
    match dir
    case Left => {"left", "L", "<"}
    case Right => {"right", "R", ">"}
    case Stay => {"~"}
  }

  /** The head move a symbol names; `None` for an identifier that names
      none. Epsilon, in any spelling, stays in place. */
  function DirectionOf(sym: Ast.Symbol): Option<Direction>
  {
    if sym.Epsilon? then Some(Stay)
    else if sym.name == "left" || sym.name == "L" || sym.name == "<" then Some(Left)
    else if sym.name == "right" || sym.name == "R" || sym.name == ">" then Some(Right)
    else if sym.name == "~" then Some(Stay)
    else None
  }

  /** An identifier names a move exactly when it is one of that move's
      spellings, and the spellings of different moves are disjoint. */
  lemma DirectionSpellings(name: string, dir: Direction)
    ensures DirectionOf(Ast.Ident(name)) == Some(dir) <==> name in Spellings(dir)
    ensures DirectionOf(Ast.Ident(name)).None? <==> name !in Spellings(Left) + Spellings(Right) + Spellings(Stay)
  {
  }

  function InvalidDirection(name: string): string
  {
    "invalid direction specified '" + name + "'"
  }

  /** `expect_tm_transition_function`: exactly two identifiers. */
  function Source(t: Spanned<Ast.Tuple>): (r: Option<(Spanned<string>, Spanned<string>)>)
    ensures r.Some? <==> |t.value.items| == 2 && Ast.AsIdent(t.value.items[0].value).Some? && Ast.AsIdent(t.value.items[1].value).Some?
    ensures r.Some? ==> r.value.0 == Spanned(Ast.AsIdent(t.value.items[0].value).value, t.value.items[0].span)
    ensures r.Some? ==> r.value.1 == Spanned(Ast.AsIdent(t.value.items[1].value).value, t.value.items[1].span)
  {
    var items := t.value.items;
    if |items| == 2 && Ast.AsIdent(items[0].value).Some? && Ast.AsIdent(items[1].value).Some? then
      Some((Spanned(items[0].value.symbol.name, items[0].span), Spanned(items[1].value.symbol.name, items[1].span)))
    else None
  }

  /** `expect_tm_transition`: two identifiers and a symbol naming the move.
      A symbol that names no move is reported, and the target still moves
      nowhere. */
  function Move(t: Spanned<Ast.Tuple>): (r: (Option<(Spanned<string>, Spanned<string>, Spanned<Direction>)>, seq<LogEntry>))
    ensures r.0.Some? <==> |t.value.items| == 3 && Ast.AsIdent(t.value.items[0].value).Some? && Ast.AsIdent(t.value.items[1].value).Some? && t.value.items[2].value.SymbolItem?
    ensures r.0.None? ==> r.1 == [ErrorAt(TARGET_SHAPE, t.span)]
    ensures r.0.Some? ==> r.0.value.2.value == (if DirectionOf(t.value.items[2].value.symbol).Some? then DirectionOf(t.value.items[2].value.symbol).value else Stay)
    ensures r.0.Some? ==> (r.1 == [] <==> DirectionOf(t.value.items[2].value.symbol).Some?) && |r.1| <= 1
    ensures forall i :: 0 <= i < |r.1| ==> r.1[i].level == Error
  {
    var items := t.value.items;
    if |items| == 3 && Ast.AsIdent(items[0].value).Some? && Ast.AsIdent(items[1].value).Some? && items[2].value.SymbolItem? then
      var sym := items[2].value.symbol;
      var dir := DirectionOf(sym);
      (Some((Spanned(items[0].value.symbol.name, items[0].span), Spanned(items[1].value.symbol.name, items[1].span),
             Spanned(if dir.Some? then dir.value else Stay, items[2].span))),
       if dir.None? then [ErrorAt(InvalidDirection(sym.name), items[2].span)] else [])
    else (None, [ErrorAt(TARGET_SHAPE, t.span)])
  }

  /** One target of a transition function. A target naming an undeclared
      state is skipped; the symbol written is not checked. */
  function Target(states: map<string, Span>, from: From, func: Span, trans: map<From, set<To>>, o: Options, item: Spanned<Ast.Item>)
    : (r: (map<From, set<To>>, seq<LogEntry>))
  {
    match Ast.AsTuple(item)
    case None => (trans, [Ast.Mismatch("tuple", item)])
    case Some(t) =>
      var (m, logs) := Move(t);
      match m
      case None => (trans, logs)
      case Some((next, written, dir)) =>
        if next.value !in states then (trans, logs + [ErrorAt(UNDECLARED_STATE, next.span)])
        else
          var (t2, logs2) := AddTarget(trans, from, To(next.value, written.value, dir.value, item.span, func), item.span, o);
          (t2, logs + logs2)
  }

  function TargetList(states: map<string, Span>, from: From, func: Span, trans: map<From, set<To>>, o: Options, items: seq<Spanned<Ast.Item>>)
    : (r: (map<From, set<To>>, seq<LogEntry>))
    decreases |items|
  {
    if items == [] then (trans, [])
    else
      var (t1, logs1) := TargetList(states, from, func, trans, o, items[..|items| - 1]);
      var (t2, logs2) := Target(states, from, func, t1, o, items[|items| - 1]);
      (t2, logs1 + logs2)
  }

  /** A transition function `d(state, symbol) = targets`. An undeclared
      state or symbol skips the whole function after one error. */
  function TransitionDecl(d: Draft, args: Spanned<Ast.Tuple>, list: Spanned<Ast.Item>, o: Options): (r: (Draft, seq<LogEntry>))
    ensures r.0 == d.(transitions := r.0.transitions)
  {
    match Source(args)
    case None => (d, [ErrorAt(SOURCE_SHAPE, args.span)])
    case Some((state, symbol)) =>
      if state.value !in d.states then (d, [ErrorAt(UNDECLARED_STATE, state.span)])
      else if symbol.value !in d.symbols then (d, [ErrorAt(UNDECLARED_SYMBOL, symbol.span)])
      else
        var (t, logs) := TargetList(d.states, From(state.value, symbol.value), args.span, d.transitions, o, Ast.Weak(list));
        (d.(transitions := t), logs)
  }

  /** The transition function's skip rules: a source that is not two
      identifiers, or whose state or symbol is undeclared, changes nothing
      and is one error. */
  lemma TransitionDeclSkips(d: Draft, args: Spanned<Ast.Tuple>, list: Spanned<Ast.Item>, o: Options)
    ensures Source(args).None? || Source(args).value.0.value !in d.states || Source(args).value.1.value !in d.symbols ==>
      && TransitionDecl(d, args, list, o).0 == d
      && |TransitionDecl(d, args, list, o).1| == 1
      && TransitionDecl(d, args, list, o).1[0].level == Error
      && TransitionDecl(d, args, list, o).1[0].message in {SOURCE_SHAPE, UNDECLARED_STATE, UNDECLARED_SYMBOL}
  {
  }

  // ---------------------------------------------------------------------
  // Declarations.

  /** The sections an item declaration can set. The tape symbols are named
      by the spellings of delta. */
  datatype Section = States | Symbols | Finals | Initial | Blank | Unknown

  function SectionOf(name: string): Section
  {
    if name == "Q" then States
    else if name in DELTA_ALIASES then Symbols
    else if name == "F" then Finals
    else if name == INITIAL_STATE then Initial
    else if name == BLANK_SYMBOL then Blank
    else Unknown
  }

  function UnknownTmItem(name: string): string
  {
    "unknown item " + Quoted(name) + ", expected states, symbols, final states, initial state, blank symbol"
  }

  function UnknownFunction(name: string): string
  {
    "unknown function " + Quoted(name) + ", expected transition function ( " + Alternatives(DELTA_ALIASES) + " )"
  }

  /** `compile_top_level`. */
  function Declare(d: Draft, decl: Spanned<Ast.TopLevel>, o: Options): (r: (Draft, seq<LogEntry>))
  {
    match decl.value
    case ItemDecl(name, item) => ItemDecl(d, SectionOf(name.value), name, item, decl.span)
    case TransitionFunc(dest, list) => FunctionDecl(d, dest.value.0.value in DELTA_ALIASES, dest, list, o)
    case ProductionRule(_, _) => (d, [ErrorAt("unexpected production rule", decl.span)])
    case Table => (d, [ErrorAt("unexpected table", decl.span)])
  }

  /** `name = item`, for the section `k` that `name` selects. */
  function ItemDecl(d: Draft, k: Section, name: Spanned<string>, item: Spanned<Ast.Item>, top: Span): (r: (Draft, seq<LogEntry>))
  {
    match k
    case States => StatesDecl(d, item, top)
    case Symbols => SymbolsDecl(d, item, top)
    case Finals => FinalsDecl(d, item, top)
    case Initial => InitialDecl(d, item, top)
    case Blank => BlankDecl(d, item, top)
    case Unknown => (d, [ErrorAt(UnknownTmItem(name.value), name.span)])
  }

  /** `name(args) = list`, where `delta` says whether `name` spells delta. */
  function FunctionDecl(d: Draft, delta: bool, dest: Spanned<(Spanned<string>, Spanned<Ast.Tuple>)>, list: Spanned<Ast.Item>, o: Options)
    : (r: (Draft, seq<LogEntry>))
  {
    if delta then TransitionDecl(d, dest.value.1, list, o)
    else (d, [ErrorAt(UnknownFunction(dest.value.0.value), dest.span)])
  }

  function Declarations(d0: Draft, items: seq<Spanned<Ast.TopLevel>>, o: Options): (r: (Draft, seq<LogEntry>))
    decreases |items|
  {
    if items == [] then (d0, [])
    else
      var (d1, logs1) := Declarations(d0, items[..|items| - 1], o);
      var (d2, logs2) := Declare(d1, items[|items| - 1], o);
      (d2, logs1 + logs2)
  }

  // ---------------------------------------------------------------------
  // After the loop.

  /** A missing `F` is an error, with a hint. */
  function MissingFinals(d: Draft): seq<LogEntry>
  {
    if d.finalsDef.None? then [Chained(ErrorLocless("final states never defined"), HelpLogless("add: F = {...}"))] else []
  }

  /** A missing initial state becomes `q0`: a warning if that is a state,
      else an error (whose hint names the blank symbol's declaration). */
  function DefaultInitial(d: Draft): (string, seq<LogEntry>)
  {
    match d.initial
    case Some((name, _)) => (name, [])
    case None =>
      (INITIAL_STATE,
       if INITIAL_STATE in d.states then [Chained(WarningLocless("initial state not defined, defaulting to 'q0'"), HelpLogless("add: " + INITIAL_STATE + " = q0"))]
       else [Chained(ErrorLocless("initial state not defined"), HelpLogless("add: " + BLANK_SYMBOL + " = ..."))])
  }

  /** A missing blank symbol becomes `B`: a warning if that is a tape
      symbol, else an error. */
  function DefaultBlank(d: Draft): (string, seq<LogEntry>)
  {
    match d.blank
    case Some((name, _)) => (name, [])
    case None =>
      (BLANK_SYMBOL,
       if BLANK_SYMBOL in d.symbols then [Chained(WarningLocless("blank symbol not defined, defaulting to 'B'"), HelpLogless("add: " + BLANK_SYMBOL + " = B"))]
       else [Chained(ErrorLocless("blank symbol not defined"), HelpLogless("add: " + BLANK_SYMBOL + " = ..."))])
  }

  const CONSIDER := "consider defining one: d(state, symbol) = (state, symbol, direction) | {(state, symbol, direction), ...}"

  /** An empty transition table is only a warning, with a hint and a note
      below the hint. */
  function NoTransitions(d: Draft): seq<LogEntry>
  {
    if |d.transitions| == 0 then
      [Chained(WarningLocless("no transitions defined"), Chained(HelpLogless(CONSIDER), InfoLogless("d can be " + Alternatives(DELTA_ALIASES))))]
    else []
  }

  function Finish(d: Draft): (r: (Tm, seq<LogEntry>))
  {
    (Tm(DefaultInitial(d).0, DefaultBlank(d).0, d.states, d.symbols, d.finals, d.transitions),
     MissingFinals(d) + DefaultInitial(d).1 + DefaultBlank(d).1 + NoTransitions(d))
  }

  /** The machine a fresh compiler builds from the declarations, and
      everything logged on the way. */
  function Compiled(items: seq<Spanned<Ast.TopLevel>>, o: Options): (r: (Tm, seq<LogEntry>))
  {
    var (d, logs1) := Declarations(EMPTY, items, o);
    var (tm, logs2) := Finish(d);
    (tm, logs1 + logs2)
  }

  // ---------------------------------------------------------------------
  // What a machine compiled without errors satisfies.

  /** The invariant of the declaration loop. Chosen names, final states,
      starting points and targets are always declared (the blank symbol as a
      state); each starting point has one target unless non-determinism is
      permitted or an error was reported. */
  predicate Sound(d: Draft, o: Options, errors: bool)
  {
    && (d.initial.Some? ==> d.initial.value.0 in d.states)
    && (d.blank.Some? ==> d.blank.value.0 in d.states)
    && d.finals.Keys <= d.states.Keys
    && Branching(d.transitions, o, errors)
    && (forall f :: f in d.transitions ==> f.state in d.states && f.symbol in d.symbols)
    && (forall f, t :: f in d.transitions && t in d.transitions[f] ==> t.state in d.states)
  }

  /** A compiled machine: its initial state and final states are states, its
      blank symbol is a tape symbol when it was defaulted and a state when it
      was declared, its starting points are declared states and tape
      symbols, its targets go to declared states and, unless
      non-determinism is permitted, every starting point has one target. */
  predicate WellFormed(tm: Tm, o: Options)
  {
    && tm.initialState in tm.states
    && (tm.blankSymbol in tm.states || tm.blankSymbol in tm.symbols)
    && tm.finalStates.Keys <= tm.states.Keys
    && Branching(tm.transitions, o, false)
    && (forall f :: f in tm.transitions ==> f.state in tm.states && f.symbol in tm.symbols)
    && (forall f, t :: f in tm.transitions && t in tm.transitions[f] ==> t.state in tm.states)
  }

  lemma SoundWeakens(d: Draft, o: Options, errors: bool, later: bool)
    requires Sound(d, o, errors)
    requires errors ==> later
    ensures Sound(d, o, later)
  {
  }

  /** Targets added under `from` go to declared states, and only `from`
      gains targets. */
  lemma {:induction false} TargetListSound(states: map<string, Span>, from: From, func: Span, trans: map<From, set<To>>, o: Options, items: seq<Spanned<Ast.Item>>, errors: bool)
    requires Branching(trans, o, errors)
    requires forall f, t :: f in trans && t in trans[f] ==> t.state in states
    ensures var (t, logs) := TargetList(states, from, func, trans, o, items);
      && Branching(t, o, errors || !NoErrors(logs))
      && t.Keys <= trans.Keys + {from}
      && (forall f, x :: f in t && x in t[f] ==> x.state in states)
    decreases |items|
  {
    if items != [] {
      var init := items[..|items| - 1];
      var item := items[|items| - 1];
      TargetListSound(states, from, func, trans, o, init, errors);
      var (t1, logs1) := TargetList(states, from, func, trans, o, init);
      var (t2, logs2) := Target(states, from, func, t1, o, item);
      NoErrorsConcat(logs1, logs2);
      if Ast.AsTuple(item).Some? {
        var (m, mlogs) := Move(Ast.AsTuple(item).value);
        if m.Some? && m.value.0.value in states {
          var (next, written, dir) := m.value;
          var to := To(next.value, written.value, dir.value, item.span, func);
          AddTargetKeeps(t1, from, to, item.span, o, errors || !NoErrors(logs1));
          NoErrorsConcat(mlogs, AddTarget(t1, from, to, item.span, o).1);
        }
      }
    }
  }

  /** Every well-shaped target naming a declared state is recorded under
      the starting point, with the symbol it writes and its head move. */
  lemma {:induction false} TargetListComplete(states: map<string, Span>, from: From, func: Span, trans: map<From, set<To>>, o: Options, items: seq<Spanned<Ast.Item>>)
    ensures forall i :: (0 <= i < |items| && Ast.AsTuple(items[i]).Some? && Move(Ast.AsTuple(items[i]).value).0.Some? &&
        Move(Ast.AsTuple(items[i]).value).0.value.0.value in states) ==>
      var (next, written, dir) := Move(Ast.AsTuple(items[i]).value).0.value;
      var t := TargetList(states, from, func, trans, o, items).0;
      from in t && To(next.value, written.value, dir.value, items[i].span, func) in t[from]
    decreases |items|
  {
    if items != [] {
      var init := items[..|items| - 1];
      TargetListComplete(states, from, func, trans, o, init);
      forall i | 0 <= i < |items| && Ast.AsTuple(items[i]).Some? && Move(Ast.AsTuple(items[i]).value).0.Some? &&
          Move(Ast.AsTuple(items[i]).value).0.value.0.value in states
        ensures var (next, written, dir) := Move(Ast.AsTuple(items[i]).value).0.value;
          var t := TargetList(states, from, func, trans, o, items).0;
          from in t && To(next.value, written.value, dir.value, items[i].span, func) in t[from]
      {
        if i < |init| {
          assert items[i] == init[i];
        }
      }
    }
  }

  lemma TransitionDeclSound(d: Draft, args: Spanned<Ast.Tuple>, list: Spanned<Ast.Item>, o: Options, errors: bool)
    requires Sound(d, o, errors)
    ensures Sound(TransitionDecl(d, args, list, o).0, o, errors || !NoErrors(TransitionDecl(d, args, list, o).1))
  {
    match Source(args)
    case None =>
    case Some((state, symbol)) =>
      if state.value in d.states && symbol.value in d.symbols {
        TargetListSound(d.states, From(state.value, symbol.value), args.span, d.transitions, o, Ast.Weak(list), errors);
      }
  }

  lemma StatesDeclSound(d: Draft, list: Spanned<Ast.Item>, top: Span, o: Options, errors: bool)
    requires Sound(d, o, errors)
    ensures Sound(StatesDecl(d, list, top).0, o, errors)
  {
    SetBodyGrows(d.states, d.statesDef, list, top, "state redefined");
  }

  lemma SymbolsDeclSound(d: Draft, list: Spanned<Ast.Item>, top: Span, o: Options, errors: bool)
    requires Sound(d, o, errors)
    ensures Sound(SymbolsDecl(d, list, top).0, o, errors)
  {
    SetBodyGrows(d.symbols, d.symbolsDef, list, top, "stack symbol redefined");
  }

  lemma FinalsDeclSound(d: Draft, list: Spanned<Ast.Item>, top: Span, o: Options, errors: bool)
    requires Sound(d, o, errors)
    ensures Sound(FinalsDecl(d, list, top).0, o, errors)
  {
    if list.value.ListItem? {
      FinalEntriesWithinStates(d.states, d.finals, list.value.elems);
    }
  }

  lemma ItemDeclSound(d: Draft, k: Section, name: Spanned<string>, item: Spanned<Ast.Item>, top: Span, o: Options, errors: bool)
    requires Sound(d, o, errors)
    ensures Sound(ItemDecl(d, k, name, item, top).0, o, errors || !NoErrors(ItemDecl(d, k, name, item, top).1))
  {
    match k
    case States => StatesDeclSound(d, item, top, o, errors);
    case Symbols => SymbolsDeclSound(d, item, top, o, errors);
    case Finals => FinalsDeclSound(d, item, top, o, errors);
    case Initial =>
    case Blank =>
    case Unknown =>
  }

  lemma DeclareSound(d: Draft, decl: Spanned<Ast.TopLevel>, o: Options, errors: bool)
    requires Sound(d, o, errors)
    ensures Sound(Declare(d, decl, o).0, o, errors || !NoErrors(Declare(d, decl, o).1))
  {
    match decl.value
    case ItemDecl(name, item) => ItemDeclSound(d, SectionOf(name.value), name, item, decl.span, o, errors);
    case TransitionFunc(dest, list) =>
      if dest.value.0.value in DELTA_ALIASES {
        TransitionDeclSound(d, dest.value.1, list, o, errors);
      } else {
        SoundWeakens(d, o, errors, errors || !NoErrors(Declare(d, decl, o).1));
      }
    case ProductionRule(_, _) => SoundWeakens(d, o, errors, errors || !NoErrors(Declare(d, decl, o).1));
    case Table => SoundWeakens(d, o, errors, errors || !NoErrors(Declare(d, decl, o).1));
  }

  /** The declaration loop keeps its invariant. */
  lemma {:induction false} DeclarationsSound(d0: Draft, items: seq<Spanned<Ast.TopLevel>>, o: Options)
    requires Sound(d0, o, false)
    ensures Sound(Declarations(d0, items, o).0, o, !NoErrors(Declarations(d0, items, o).1))
    decreases |items|
  {
    if items != [] {
      var init := items[..|items| - 1];
      DeclarationsSound(d0, init, o);
      var (d1, logs1) := Declarations(d0, init, o);
      DeclareSound(d1, items[|items| - 1], o, !NoErrors(logs1));
      NoErrorsConcat(logs1, Declare(d1, items[|items| - 1], o).1);
    }
  }

  /** The checks after the loop: no error means `F` was given, and the
      initial state is a state and the blank symbol a state or a tape
      symbol; an empty table is never an error. */
  lemma FinishChecks(d: Draft)
    requires d.initial.Some? ==> d.initial.value.0 in d.states
    requires d.blank.Some? ==> d.blank.value.0 in d.states
    ensures NoErrors(NoTransitions(d))
    ensures NoErrors(Finish(d).1) ==>
      d.finalsDef.Some? && Finish(d).0.initialState in d.states && (Finish(d).0.blankSymbol in d.states || Finish(d).0.blankSymbol in d.symbols)
  {
    var a := MissingFinals(d);
    var b := DefaultInitial(d).1;
    var c := DefaultBlank(d).1;
    NoErrorsConcat(a, b);
    NoErrorsConcat(a + b, c);
    NoErrorsConcat(a + b + c, NoTransitions(d));
    if d.finalsDef.None? {
      assert a[0].level == Error;
    }
    if d.initial.None? {
      assert b[0].level != Error ==> INITIAL_STATE in d.states;
    }
    if d.blank.None? {
      assert c[0].level != Error ==> BLANK_SYMBOL in d.symbols;
    }
    if |d.transitions| == 0 {
      assert NoTransitions(d)[0].level == Warning;
    }
  }

  /** A machine compiled without an error is well formed. */
  lemma CompiledWellFormed(items: seq<Spanned<Ast.TopLevel>>, o: Options)
    requires NoErrors(Compiled(items, o).1)
    ensures WellFormed(Compiled(items, o).0, o)
  {
    var (d, logs1) := Declarations(EMPTY, items, o);
    DeclarationsSound(EMPTY, items, o);
    NoErrorsConcat(logs1, Finish(d).1);
    FinishChecks(d);
  }

  /** The tape alphabet of the repository's examples, `T = {...}`, selects no
      section, while `d = {...}` declares tape symbols. */
  lemma TapeSectionNamedByDelta()
    ensures SectionOf("T") == Unknown
    ensures SectionOf("d") == Symbols
  {
    assert "T" != "Q" && "T" != "F" && "T" != INITIAL_STATE && "T" != BLANK_SYMBOL;
    assert "T" !in DELTA_ALIASES;
  }

  /** `B = B` with `B` a tape symbol but not a state is an error and leaves
      the blank symbol unset. */
  lemma BlankMustBeState(d: Draft, item: Spanned<Ast.Item>, top: Span)
    requires Ast.AsIdent(item.value).Some? && Ast.AsIdent(item.value).value !in d.states
    ensures BlankDecl(d, item, top).0 == d
    ensures ErrorAt("blank symbol not defined as a state", item.span) in BlankDecl(d, item, top).1
  {
  }

  // ---------------------------------------------------------------------
  // The compiler.

  lemma TargetListStep(states: map<string, Span>, from: From, func: Span, trans: map<From, set<To>>, o: Options, items: seq<Spanned<Ast.Item>>, i: nat)
    requires i < |items|
    ensures TargetList(states, from, func, trans, o, items[..i + 1]) ==
      (Target(states, from, func, TargetList(states, from, func, trans, o, items[..i]).0, o, items[i]).0,
       TargetList(states, from, func, trans, o, items[..i]).1 + Target(states, from, func, TargetList(states, from, func, trans, o, items[..i]).0, o, items[i]).1)
  {
    assert items[..i + 1][..i] == items[..i];
  }

  lemma DeclarationsStep(d0: Draft, items: seq<Spanned<Ast.TopLevel>>, o: Options, i: nat)
    requires i < |items|
    ensures Declarations(d0, items[..i + 1], o) ==
      (Declare(Declarations(d0, items[..i], o).0, items[i], o).0,
       Declarations(d0, items[..i], o).1 + Declare(Declarations(d0, items[..i], o).0, items[i], o).1)
  {
    assert items[..i + 1][..i] == items[..i];
  }

  lemma ChainedNamesStep(m0: map<string, Span>, items: seq<Spanned<Ast.Item>>, i: nat, redefined: string)
    requires i < |items|
    ensures ChainedNames(m0, items[..i + 1], redefined) ==
      (ChainedName(ChainedNames(m0, items[..i], redefined).0, items[i], redefined).0,
       ChainedNames(m0, items[..i], redefined).1 + ChainedName(ChainedNames(m0, items[..i], redefined).0, items[i], redefined).1)
  {
    assert items[..i + 1][..i] == items[..i];
  }

  /** An entry with a note, and a note below that note. */
  method EmitTwoNotes(logs: Logs, entry: LogEntry, note: LogEntry, last: LogEntry)
    requires logs.Valid() && entry.child.None? && note.child.None?
    modifies logs
    ensures logs.Valid()
    ensures logs.entries == old(logs.entries) + [Chained(entry, Chained(note, last))]
  {
    var h := logs.Emit(entry);
    var h1 := logs.EmitOn(h, note);
    var _ := logs.EmitOn(h1, last);
  }

  /** `expect_tm_transition_function`. */
  method ExpectSource(args: Spanned<Ast.Tuple>, ctx: Context) returns (r: Option<(Spanned<string>, Spanned<string>)>)
    requires ctx.Valid()
    modifies ctx.logs
    ensures ctx.Valid()
    ensures r == Source(args)
    ensures ctx.logs.entries == old(ctx.logs.entries) + (if r.None? then [ErrorAt(SOURCE_SHAPE, args.span)] else [])
  {
    r := Source(args);
    if r.None? {
      var _ := ctx.logs.Emit(ErrorAt(SOURCE_SHAPE, args.span));
    }
  }

  /** `expect_tm_transition`. */
  method ExpectMove(t: Spanned<Ast.Tuple>, ctx: Context) returns (r: Option<(Spanned<string>, Spanned<string>, Spanned<Direction>)>)
    requires ctx.Valid()
    modifies ctx.logs
    ensures ctx.Valid()
    ensures r == Move(t).0
    ensures ctx.logs.entries == old(ctx.logs.entries) + Move(t).1
  {
    var items := t.value.items;
    if |items| == 3 && Ast.AsIdent(items[0].value).Some? && Ast.AsIdent(items[1].value).Some? && items[2].value.SymbolItem? {
      var sym := items[2].value.symbol;
      var dir := DirectionOf(sym);
      if dir.None? {
        var _ := ctx.logs.Emit(ErrorAt(InvalidDirection(sym.name), items[2].span));
      }
      r := Some((Spanned(items[0].value.symbol.name, items[0].span), Spanned(items[1].value.symbol.name, items[1].span),
                 Spanned(if dir.Some? then dir.value else Stay, items[2].span)));
    } else {
      var _ := ctx.logs.Emit(ErrorAt(TARGET_SHAPE, t.span));
      r := None;
    }
  }

  /** `TmCompiler`: the fields the declarations fill in, and the context
      whose log receives the diagnostics. */
  class TmCompiler {
    const ctx: Context
    const options: Options

    var initialState: Option<(string, Span)>
    var blankSymbol: Option<(string, Span)>
    var states: map<string, Span>
    var statesDef: Option<Span>
    var symbols: map<string, Span>
    var symbolsDef: Option<Span>
    var finalStates: map<string, Span>
    var finalStatesDef: Option<Span>
    var transitions: map<From, set<To>>

    ghost predicate Valid()
      reads this, ctx, ctx.logs
    {
      ctx.Valid()
    }

    function Fields(): Draft
      reads this
    {
      Draft(initialState, blankSymbol, states, statesDef, symbols, symbolsDef, finalStates, finalStatesDef, transitions)
    }

    /** `TmCompiler::new`: nothing declared yet. */
    constructor (ctx: Context, options: Options)
      requires ctx.Valid()
      ensures Valid() && this.ctx == ctx && this.options == options
      ensures Fields() == EMPTY
    {
      this.ctx := ctx;
      this.options := options;
      initialState := None;
      blankSymbol := None;
      states := map[];
      statesDef := None;
      symbols := map[];
      symbolsDef := None;
      finalStates := map[];
      finalStatesDef := None;
      transitions := map[];
    }

    /** `compile`: every declaration in order, then the defaults; the machine
        if and only if the context's log holds no error, and then it is well
        formed. */
    method Compile(items: seq<Spanned<Ast.TopLevel>>) returns (r: Option<Tm>)
      requires Valid() && Fields() == EMPTY
      modifies this, ctx.logs
      ensures Valid()
      ensures ctx.logs.entries == old(ctx.logs.entries) + Compiled(items, options).1
      ensures r.Some? <==> !ctx.ContainsErrors()
      ensures r.Some? ==> r.value == Compiled(items, options).0 && WellFormed(r.value, options)
    {
      for i := 0 to |items|
        invariant Valid()
        invariant Fields() == Declarations(EMPTY, items[..i], options).0
        invariant ctx.logs.entries == old(ctx.logs.entries) + Declarations(EMPTY, items[..i], options).1
      {
        DeclarationsStep(EMPTY, items, options, i);
        ghost var step := Declare(Fields(), items[i], options).1;
        CompileTopLevel(items[i]);
        Appended(old(ctx.logs.entries), Declarations(EMPTY, items[..i], options).1, step);
      }
      assert items[..|items|] == items;
      ghost var d := Fields();
      var tm := FinishAll();
      Appended(old(ctx.logs.entries), Declarations(EMPTY, items, options).1, Finish(d).1);
      if ctx.logs.hasError {
        return None;
      }
      NoErrorsConcat(old(ctx.logs.entries), Compiled(items, options).1);
      CompiledWellFormed(items, options);
      r := Some(tm);
    }

    /** The checks and defaults after the declaration loop. */
    method FinishAll() returns (tm: Tm)
      requires Valid()
      modifies ctx.logs
      ensures Valid()
      ensures tm == Finish(Fields()).0
      ensures ctx.logs.entries == old(ctx.logs.entries) + Finish(Fields()).1
    {
      ghost var d := Fields();
      FinishFinals();
      var initial := FinishInitial();
      Appended(old(ctx.logs.entries), MissingFinals(d), DefaultInitial(d).1);
      var blank := FinishBlank();
      Appended(old(ctx.logs.entries), MissingFinals(d) + DefaultInitial(d).1, DefaultBlank(d).1);
      FinishTransitions();
      Appended(old(ctx.logs.entries), MissingFinals(d) + DefaultInitial(d).1 + DefaultBlank(d).1, NoTransitions(d));
      tm := Tm(initial, blank, states, symbols, finalStates, transitions);
    }

    method FinishFinals()
      requires Valid()
      modifies ctx.logs
      ensures Valid()
      ensures ctx.logs.entries == old(ctx.logs.entries) + MissingFinals(Fields())
    {
      if finalStatesDef.None? {
        EmitChained(ctx.logs, ErrorLocless("final states never defined"), HelpLogless("add: F = {...}"));
      }
    }

    method FinishTransitions()
      requires Valid()
      modifies ctx.logs
      ensures Valid()
      ensures ctx.logs.entries == old(ctx.logs.entries) + NoTransitions(Fields())
    {
      if |transitions| == 0 {
        EmitTwoNotes(ctx.logs, WarningLocless("no transitions defined"), HelpLogless(CONSIDER), InfoLogless("d can be " + Alternatives(DELTA_ALIASES)));
      }
    }

    method FinishInitial() returns (name: string)
      requires Valid()
      modifies ctx.logs
      ensures Valid()
      ensures name == DefaultInitial(Fields()).0
      ensures ctx.logs.entries == old(ctx.logs.entries) + DefaultInitial(Fields()).1
    {
      if initialState.Some? {
        return initialState.value.0;
      }
      if INITIAL_STATE in states {
        EmitChained(ctx.logs, WarningLocless("initial state not defined, defaulting to 'q0'"), HelpLogless("add: " + INITIAL_STATE + " = q0"));
      } else {
        EmitChained(ctx.logs, ErrorLocless("initial state not defined"), HelpLogless("add: " + BLANK_SYMBOL + " = ..."));
      }
      name := INITIAL_STATE;
    }

    method FinishBlank() returns (name: string)
      requires Valid()
      modifies ctx.logs
      ensures Valid()
      ensures name == DefaultBlank(Fields()).0
      ensures ctx.logs.entries == old(ctx.logs.entries) + DefaultBlank(Fields()).1
    {
      if blankSymbol.Some? {
        return blankSymbol.value.0;
      }
      if BLANK_SYMBOL in symbols {
        EmitChained(ctx.logs, WarningLocless("blank symbol not defined, defaulting to 'B'"), HelpLogless("add: " + BLANK_SYMBOL + " = B"));
      } else {
        EmitChained(ctx.logs, ErrorLocless("blank symbol not defined"), HelpLogless("add: " + BLANK_SYMBOL + " = ..."));
      }
      name := BLANK_SYMBOL;
    }

    /** `compile_top_level`. */
    method CompileTopLevel(element: Spanned<Ast.TopLevel>)
      requires Valid()
      modifies this, ctx.logs
      ensures Valid()
      ensures Fields() == Declare(old(Fields()), element, options).0
      ensures ctx.logs.entries == old(ctx.logs.entries) + Declare(old(Fields()), element, options).1
    {
      match element.value {
        case ItemDecl(name, item) =>
          CompileItem(SectionOf(name.value), name, item, element.span);
        case TransitionFunc(dest, list) =>
          if dest.value.0.value in DELTA_ALIASES {
            CompileTransitionFunction(dest.value.1, list);
          } else {
            var _ := ctx.logs.Emit(ErrorAt(UnknownFunction(dest.value.0.value), dest.span));
          }
        case ProductionRule(_, _) =>
          var _ := ctx.logs.Emit(ErrorAt("unexpected production rule", element.span));
        case Table =>
          var _ := ctx.logs.Emit(ErrorAt("unexpected table", element.span));
      }
    }

    method CompileItem(k: Section, name: Spanned<string>, item: Spanned<Ast.Item>, top: Span)
      requires Valid()
      modifies this, ctx.logs
      ensures Valid()
      ensures Fields() == ItemDecl(old(Fields()), k, name, item, top).0
      ensures ctx.logs.entries == old(ctx.logs.entries) + ItemDecl(old(Fields()), k, name, item, top).1
    {
      match k {
        case States => CompileStates(item, top);
        case Symbols => CompileSymbols(item, top);
        case Finals => CompileFinalStates(item, top);
        case Initial => CompileInitialState(item, top);
        case Blank => CompileBlankSymbol(item, top);
        case Unknown =>
          var _ := ctx.logs.Emit(ErrorAt(UnknownTmItem(name.value), name.span));
      }
    }

    /** The loop of `compile_states` and `compile_symbols`. */
    method InsertNames(m0: map<string, Span>, items: seq<Spanned<Ast.Item>>, redefined: string) returns (m: map<string, Span>)
      requires Valid()
      modifies ctx.logs
      ensures Valid()
      ensures m == ChainedNames(m0, items, redefined).0
      ensures ctx.logs.entries == old(ctx.logs.entries) + ChainedNames(m0, items, redefined).1
    {
      m := m0;
      for i := 0 to |items|
        invariant Valid()
        invariant m == ChainedNames(m0, items[..i], redefined).0
        invariant ctx.logs.entries == old(ctx.logs.entries) + ChainedNames(m0, items[..i], redefined).1
      {
        ChainedNamesStep(m0, items, i, redefined);
        ghost var step := ChainedName(m, items[i], redefined).1;
        var ident := Ast.ExpectIdent(items[i], ctx);
        if ident.Some? {
          var previous := if ident.value in m then Some(m[ident.value]) else None;
          m := m[ident.value := items[i].span];
          if previous.Some? {
            EmitChained(ctx.logs, ErrorAt(redefined, items[i].span), InfoAt(PREVIOUS, previous.value));
          }
        }
        Appended(old(ctx.logs.entries), ChainedNames(m0, items[..i], redefined).1, step);
      }
      assert items[..|items|] == items;
    }

    /** A set of names after the "already set" check. */
    method CompileSet(m0: map<string, Span>, def0: Option<Span>, list: Spanned<Ast.Item>, top: Span, redefined: string)
      returns (m: map<string, Span>, def: Option<Span>)
      requires Valid()
      modifies ctx.logs
      ensures Valid()
      ensures (m, def) == (SetBody(m0, def0, list, top, redefined).0, SetBody(m0, def0, list, top, redefined).1)
      ensures ctx.logs.entries == old(ctx.logs.entries) + SetBody(m0, def0, list, top, redefined).2
    {
      m, def := m0, def0;
      var elems := Ast.ExpectSet(list, ctx);
      if elems.None? {
        return;
      }
      m := InsertNames(m0, elems.value, redefined);
      if elems.value == [] {
        var _ := ctx.logs.Emit(ErrorAt(EMPTY_SET, top));
        Appended(old(ctx.logs.entries), ChainedNames(m0, elems.value, redefined).1, [ErrorAt(EMPTY_SET, top)]);
      }
      def := Some(top);
    }

    /** `compile_states`. */
    method CompileStates(list: Spanned<Ast.Item>, top: Span)
      requires Valid()
      modifies this, ctx.logs
      ensures Valid()
      ensures Fields() == StatesDecl(old(Fields()), list, top).0
      ensures ctx.logs.entries == old(ctx.logs.entries) + StatesDecl(old(Fields()), list, top).1
    {
      if statesDef.Some? {
        EmitChained(ctx.logs, ErrorAt("states already set", top), InfoAt(PREVIOUS, statesDef.value));
      }
      var m, def := CompileSet(states, statesDef, list, top, "state redefined");
      Appended(old(ctx.logs.entries), Again(old(statesDef), "states already set", top), SetBody(old(states), old(statesDef), list, top, "state redefined").2);
      states, statesDef := m, def;
    }

    /** `compile_symbols`. */
    method CompileSymbols(list: Spanned<Ast.Item>, top: Span)
      requires Valid()
      modifies this, ctx.logs
      ensures Valid()
      ensures Fields() == SymbolsDecl(old(Fields()), list, top).0
      ensures ctx.logs.entries == old(ctx.logs.entries) + SymbolsDecl(old(Fields()), list, top).1
    {
      if symbolsDef.Some? {
        EmitChained(ctx.logs, ErrorAt("stack symbols already set", top), InfoAt(PREVIOUS, symbolsDef.value));
      }
      var m, def := CompileSet(symbols, symbolsDef, list, top, "stack symbol redefined");
      Appended(old(ctx.logs.entries), Again(old(symbolsDef), "stack symbols already set", top), SetBody(old(symbols), old(symbolsDef), list, top, "stack symbol redefined").2);
      symbols, symbolsDef := m, def;
    }

    /** `compile_final_states`. */
    method CompileFinalStates(list: Spanned<Ast.Item>, top: Span)
      requires Valid()
      modifies this, ctx.logs
      ensures Valid()
      ensures Fields() == FinalsDecl(old(Fields()), list, top).0
      ensures ctx.logs.entries == old(ctx.logs.entries) + FinalsDecl(old(Fields()), list, top).1
    {
      ghost var pre := if finalStatesDef.Some? then [Chained(ErrorAt("final states already set", top), HelpAt(PREVIOUS, finalStatesDef.value))] else [];
      if finalStatesDef.Some? {
        EmitChained(ctx.logs, ErrorAt("final states already set", top), HelpAt(PREVIOUS, finalStatesDef.value));
      }
      var elems := Ast.ExpectSet(list, ctx);
      if elems.None? {
        Appended(old(ctx.logs.entries), pre, [Ast.Mismatch("set", list)]);
        return;
      }
      var f := ParseFinalEntries(states, finalStates, elems.value, ctx);
      Appended(old(ctx.logs.entries), pre, FinalEntries(states, finalStates, elems.value).1);
      finalStates, finalStatesDef := f, Some(top);
    }

    /** The body shared by `compile_initial_state` and `compile_blank_symbol`. */
    method CompileChoice(current: Option<(string, Span)>, declared: map<string, Span>, item: Spanned<Ast.Item>, top: Span, already: string, undeclared: string)
      returns (c: Option<(string, Span)>)
      requires Valid()
      modifies ctx.logs
      ensures Valid()
      ensures c == Choice(current, declared, item, top, already, undeclared).0
      ensures ctx.logs.entries == old(ctx.logs.entries) + Choice(current, declared, item, top, already, undeclared).1
    {
      c := current;
      if Ast.AsIdent(item.value).None? {
        var _ := ctx.logs.Emit(ErrorAt("expected ident", item.span));
        return;
      }
      var name := item.value.symbol.name;
      ghost var pre := if current.Some? then [Chained(ErrorAt(already, top), HelpAt(PREVIOUS, current.value.1))] else [];
      if current.Some? {
        EmitChained(ctx.logs, ErrorAt(already, top), HelpAt(PREVIOUS, current.value.1));
      }
      if name in declared {
        c := Some((name, top));
      } else {
        var _ := ctx.logs.Emit(ErrorAt(undeclared, item.span));
        Appended(old(ctx.logs.entries), pre, [ErrorAt(undeclared, item.span)]);
      }
    }

    /** `compile_initial_state`. */
    method CompileInitialState(item: Spanned<Ast.Item>, top: Span)
      requires Valid()
      modifies this, ctx.logs
      ensures Valid()
      ensures Fields() == InitialDecl(old(Fields()), item, top).0
      ensures ctx.logs.entries == old(ctx.logs.entries) + InitialDecl(old(Fields()), item, top).1
    {
      initialState := CompileChoice(initialState, states, item, top, "initial state already set", "initial state symbol not defined as a state");
    }

    /** `compile_blank_symbol`: the name is looked up among the states. */
    method CompileBlankSymbol(item: Spanned<Ast.Item>, top: Span)
      requires Valid()
      modifies this, ctx.logs
      ensures Valid()
      ensures Fields() == BlankDecl(old(Fields()), item, top).0
      ensures ctx.logs.entries == old(ctx.logs.entries) + BlankDecl(old(Fields()), item, top).1
    {
      blankSymbol := CompileChoice(blankSymbol, states, item, top, "blank symbol already set", "blank symbol not defined as a state");
    }

    /** `compile_transition_function`. */
    method CompileTransitionFunction(args: Spanned<Ast.Tuple>, list: Spanned<Ast.Item>)
      requires Valid()
      modifies this, ctx.logs
      ensures Valid()
      ensures Fields() == TransitionDecl(old(Fields()), args, list, options).0
      ensures ctx.logs.entries == old(ctx.logs.entries) + TransitionDecl(old(Fields()), args, list, options).1
    {
      var items := Ast.Weak(list);
      var source := ExpectSource(args, ctx);
      if source.None? {
        return;
      }
      var (state, symbol) := source.value;
      if state.value !in states {
        var _ := ctx.logs.Emit(ErrorAt(UNDECLARED_STATE, state.span));
        return;
      }
      if symbol.value !in symbols {
        var _ := ctx.logs.Emit(ErrorAt(UNDECLARED_SYMBOL, symbol.span));
        return;
      }
      var from := From(state.value, symbol.value);
      for i := 0 to |items|
        invariant Valid()
        invariant Fields() == old(Fields()).(transitions := TargetList(states, from, args.span, old(transitions), options, items[..i]).0)
        invariant ctx.logs.entries == old(ctx.logs.entries) + TargetList(states, from, args.span, old(transitions), options, items[..i]).1
      {
        TargetListStep(states, from, args.span, old(transitions), options, items, i);
        ghost var step := Target(states, from, args.span, transitions, options, items[i]).1;
        CompileTarget(from, args.span, items[i]);
        Appended(old(ctx.logs.entries), TargetList(states, from, args.span, old(transitions), options, items[..i]).1, step);
      }
      assert items[..|items|] == items;
    }

    /** One target of `compile_transition_function`'s loop. */
    method CompileTarget(from: From, func: Span, item: Spanned<Ast.Item>)
      requires Valid()
      modifies this, ctx.logs
      ensures Valid()
      ensures Fields() == old(Fields()).(transitions := Target(states, from, func, old(transitions), options, item).0)
      ensures ctx.logs.entries == old(ctx.logs.entries) + Target(states, from, func, old(transitions), options, item).1
    {
      var t := Ast.ExpectTuple(item, ctx);
      if t.None? {
        return;
      }
      var m := ExpectMove(t.value, ctx);
      if m.None? {
        return;
      }
      var (next, written, dir) := m.value;
      if next.value !in states {
        var _ := ctx.logs.Emit(ErrorAt(UNDECLARED_STATE, next.span));
        Appended(old(ctx.logs.entries), Move(t.value).1, [ErrorAt(UNDECLARED_STATE, next.span)]);
        return;
      }
      ghost var mid := ctx.logs.entries;
      transitions := ParseAddTarget(transitions, from, To(next.value, written.value, dir.value, item.span, func), item.span, options, ctx);
      Appended(old(ctx.logs.entries), Move(t.value).1, AddTarget(old(transitions), from, To(next.value, written.value, dir.value, item.span, func), item.span, options).1);
    }
  }

  /** `Tm::compile`: a fresh compiler run over the declarations. */
  method Compile(items: seq<Spanned<Ast.TopLevel>>, ctx: Context, o: Options) returns (r: Option<Tm>)
    requires ctx.Valid()
    modifies ctx.logs
    ensures ctx.Valid()
    ensures ctx.logs.entries == old(ctx.logs.entries) + Compiled(items, o).1
    ensures r.Some? <==> !ctx.ContainsErrors()
    ensures r.Some? ==> r.value == Compiled(items, o).0 && WellFormed(r.value, o)
  {
    var compiler := new TmCompiler(ctx, o);
    r := compiler.Compile(items);
  }
}
