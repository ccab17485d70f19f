// The pushdown-automaton compiler (automata/src/automatan/pda.rs): the finite
// automaton's sections plus stack symbols and an initial stack symbol, and
// transition functions keyed by state, letter and popped symbol whose
// targets push a list of stack symbols.

module PushdownAutomata {
  import opened Common
  import opened Log
  import opened LoaderContext
  import opened Automatan
  import Ast

  /** A starting point: a state, a letter (none for an epsilon move) and the
      symbol popped off the stack. */
  datatype From = From(state: string, letter: Option<string>, symbol: string)

  /** A target: the next state and the symbols pushed, the one written
      first last, with the spans of the target item and of the function. */
  datatype To = To(state: string, stack: seq<string>, transition: Span, func: Span)

  datatype Pda = Pda(
    initialState: string,
    initialStack: string,
    states: map<string, Span>,
    symbols: map<string, Span>,
    alphabet: map<string, Span>,
    finalStates: Option<map<string, Span>>,
    transitions: map<From, set<To>>)

  /** The locals of `Pda::parse` while the declarations are read. */
  datatype Draft = Draft(
    initial: Option<string>,
    stack: Option<string>,
    states: map<string, Span>,
    symbols: map<string, Span>,
    alphabet: map<string, Span>,
    finals: Option<map<string, Span>>,
    transitions: map<From, set<To>>)

  const EMPTY: Draft := Draft(None, None, map[], map[], map[], None, map[])

  const SOURCE_SHAPE := "expected PDA transition function (ident, ident|~, ident)"
  const TARGET_SHAPE := "expected PDA transition (ident, item|[item])"
  const UNDECLARED_STATE := "transition state not defined as state"
  const UNDECLARED_POPPED := "transition stack symbol not defined as stack symbol"
  const UNDECLARED_PUSHED := "transition stack symbol not defined"

  // ---------------------------------------------------------------------
  // The symbols a transition pushes.

  /** An identifier naming a stack symbol. */
  predicate Declared(symbols: map<string, Span>, item: Spanned<Ast.Item>)
  {
    Ast.AsIdent(item.value).Some? && Ast.AsIdent(item.value).value in symbols
  }

  predicate IsEpsilon(item: Spanned<Ast.Item>)
  {
    item.value.SymbolItem? && item.value.symbol.Epsilon?
  }

  /** One pushed item: an epsilon is dropped silently, anything but a declared
      stack symbol is dropped with an error. */
  function PushSymbol(symbols: map<string, Span>, item: Spanned<Ast.Item>): (r: (seq<string>, seq<LogEntry>))
  {
    if IsEpsilon(item) then ([], [])
    else
      match Ast.AsIdent(item.value)
      case None => ([], [Ast.Mismatch("ident", item)])
      case Some(name) =>
        if name in symbols then ([name], []) else ([], [ErrorAt(UNDECLARED_PUSHED, item.span)])
  }

  /** The pushed list, read from its last item to its first. */
  function PushList(symbols: map<string, Span>, items: seq<Spanned<Ast.Item>>): (r: (seq<string>, seq<LogEntry>))
    decreases |items|
  {
    if items == [] then ([], [])
    else
      var (s1, logs1) := PushList(symbols, items[1..]);
      var (s2, logs2) := PushSymbol(symbols, items[0]);
      (s1 + s2, logs1 + logs2)
  }

  /** The declared stack symbols of a list, in the order they are written. */
  function Kept(symbols: map<string, Span>, items: seq<Spanned<Ast.Item>>): seq<string>
    decreases |items|
  {
    if items == [] then []
    else (if Declared(symbols, items[0]) then [Ast.AsIdent(items[0].value).value] else []) + Kept(symbols, items[1..])
  }

  function Reverse<T>(s: seq<T>): seq<T>
    decreases |s|
  {
    if s == [] then [] else Reverse(s[1..]) + [s[0]]
  }

  /** What is pushed is exactly the declared stack symbols of the list,
      reversed. */
  lemma {:induction false} PushListReversed(symbols: map<string, Span>, items: seq<Spanned<Ast.Item>>)
    ensures PushList(symbols, items).0 == Reverse(Kept(symbols, items))
    decreases |items|
  {
    if items != [] {
      PushListReversed(symbols, items[1..]);
      var head := if Declared(symbols, items[0]) then [Ast.AsIdent(items[0].value).value] else [];
      var s := head + Kept(symbols, items[1..]);
      if head != [] {
        assert s[0] == head[0] && s[1..] == Kept(symbols, items[1..]);
      } else {
        assert s == Kept(symbols, items[1..]);
      }
    }
  }

  /** Nothing is reported exactly when every item is an epsilon or a declared
      stack symbol. */
  lemma {:induction false} PushListQuiet(symbols: map<string, Span>, items: seq<Spanned<Ast.Item>>)
    ensures PushList(symbols, items).1 == [] <==> forall i :: 0 <= i < |items| ==> IsEpsilon(items[i]) || Declared(symbols, items[i])
    decreases |items|
  {
    if items != [] {
      PushListQuiet(symbols, items[1..]);
      assert forall i :: 1 <= i < |items| ==> items[i] == items[1..][i - 1];
    }
  }

  /** Every symbol pushed is a declared stack symbol. */
  lemma {:induction false} PushListDeclared(symbols: map<string, Span>, items: seq<Spanned<Ast.Item>>)
    ensures forall k :: 0 <= k < |PushList(symbols, items).0| ==> PushList(symbols, items).0[k] in symbols
    decreases |items|
  {
    if items != [] {
      PushListDeclared(symbols, items[1..]);
    }
  }

  // ---------------------------------------------------------------------
  // Transitions.

  /** `expect_pda_transition_function`: an identifier, a symbol and an identifier. */
  function Source(t: Spanned<Ast.Tuple>): (r: Option<(Spanned<string>, Spanned<Ast.Symbol>, Spanned<string>)>)
    ensures r.Some? <==> |t.value.items| == 3 && Ast.AsIdent(t.value.items[0].value).Some? && t.value.items[1].value.SymbolItem? && Ast.AsIdent(t.value.items[2].value).Some?
  {
    var items := t.value.items;
    if |items| == 3 && Ast.AsIdent(items[0].value).Some? && items[1].value.SymbolItem? && Ast.AsIdent(items[2].value).Some? then
      Some((Spanned(items[0].value.symbol.name, items[0].span), Spanned(items[1].value.symbol, items[1].span), Spanned(items[2].value.symbol.name, items[2].span)))
    else None
  }

  /** `expect_pda_transition`: an identifier and what to push, one item or a list. */
  function Move(t: Spanned<Ast.Tuple>): (r: Option<(Spanned<string>, seq<Spanned<Ast.Item>>)>)
    ensures r.Some? <==> |t.value.items| == 2 && Ast.AsIdent(t.value.items[0].value).Some?
  {
    var items := t.value.items;
    if |items| == 2 && Ast.AsIdent(items[0].value).Some? then
      Some((Spanned(items[0].value.symbol.name, items[0].span), Ast.Weak(items[1])))
    else None
  }

  /** One target: a tuple of a declared state and the symbols to push. */
  function Target(states: map<string, Span>, symbols: map<string, Span>, from: From, func: Span, trans: map<From, set<To>>, o: Options, item: Spanned<Ast.Item>)
    : (r: (map<From, set<To>>, seq<LogEntry>))
  {
    match Ast.AsTuple(item)
    case None => (trans, [Ast.Mismatch("tuple", item)])
    case Some(t) => TupleTarget(states, symbols, from, func, trans, o, t, item.span)
  }

  /** The part of `Target` after the item turned out to be a tuple. */
  function TupleTarget(states: map<string, Span>, symbols: map<string, Span>, from: From, func: Span, trans: map<From, set<To>>, o: Options, t: Spanned<Ast.Tuple>, at: Span)
    : (r: (map<From, set<To>>, seq<LogEntry>))
  {
    match Move(t)
    case None => (trans, [ErrorAt(TARGET_SHAPE, t.span)])
    case Some((next, push)) =>
      if next.value !in states then (trans, [ErrorAt(UNDECLARED_STATE, next.span)])
      else
        var (stack, logs1) := PushList(symbols, push);
        var (t2, logs2) := AddTarget(trans, from, To(next.value, stack, at, func), at, o);
        (t2, logs1 + logs2)
  }

  function TargetList(states: map<string, Span>, symbols: map<string, Span>, from: From, func: Span, trans: map<From, set<To>>, o: Options, items: seq<Spanned<Ast.Item>>)
    : (r: (map<From, set<To>>, seq<LogEntry>))
    decreases |items|
  {
    if items == [] then (trans, [])
    else
      var (t1, logs1) := TargetList(states, symbols, from, func, trans, o, items[..|items| - 1]);
      var (t2, logs2) := Target(states, symbols, from, func, t1, o, items[|items| - 1]);
      (t2, logs1 + logs2)
  }

  /** A transition function `d(state, letter, symbol) = targets`. */
  function TransitionDecl(d: Draft, tuple: Spanned<Ast.Tuple>, targets: seq<Spanned<Ast.Item>>, o: Options): (r: (Draft, seq<LogEntry>))
    ensures r.0 == d.(transitions := r.0.transitions)
  {
    match Source(tuple)
    case None => (d, [ErrorAt(SOURCE_SHAPE, tuple.span)])
    case Some((state, letter, symbol)) =>
      if state.value !in d.states then (d, [ErrorAt(UNDECLARED_STATE, state.span)])
      else if symbol.value !in d.symbols then (d, [ErrorAt(UNDECLARED_POPPED, symbol.span)])
      else
        var (l, logs1) := LetterOf(d.alphabet, letter, o);
        var (t, logs2) := TargetList(d.states, d.symbols, From(state.value, l, symbol.value), tuple.span, d.transitions, o, targets);
        (d.(transitions := t), logs1 + logs2)
  }

  // ---------------------------------------------------------------------
  // Declarations.

  /** The sections an item declaration can set. */
  datatype Section = States | Alphabet | Finals | StackSymbols | Initial | InitialStack | Unknown

  function SectionOf(name: string): Section
  {
    if name == "Q" then States
    else if name == "E" || name == SIGMA_UPPER || name == "sigma" then Alphabet
    else if name == "F" then Finals
    else if name == "T" || name == GAMMA_UPPER || name == "gamma" then StackSymbols
    else if name == "I" || name == INITIAL_STATE then Initial
    else if name == "S" || name == INITIAL_STACK then InitialStack
    else Unknown
  }

  /** One declaration of the loop in `Pda::parse`. */
  function Declare(d: Draft, decl: Spanned<Ast.TopLevel>, o: Options): (r: (Draft, seq<LogEntry>))
  {
    match decl.value
    case ItemDecl(name, item) => ItemDecl(d, SectionOf(name.value), name, item, decl.span)
    case TransitionFunc(dest, list) =>
      if ShortDelta(dest.value.0.value) then TransitionDecl(d, dest.value.1, Ast.Weak(list), o)
      else (d, [ErrorAt(UnknownShortFunction(dest.value.0.value), dest.span)])
    case ProductionRule(_, _) => (d, [ErrorAt("unexpected production rule", decl.span)])
    case Table => (d, [ErrorAt("unexpected table", decl.span)])
  }

  /** `name = item`. */
  function ItemDecl(d: Draft, k: Section, name: Spanned<string>, item: Spanned<Ast.Item>, span: Span): (r: (Draft, seq<LogEntry>))
  {
    match k
    case States => StatesDecl(d, item, span)
    case Alphabet => AlphabetDecl(d, item, span)
    case Finals => FinalsDecl(d, item, span)
    case StackSymbols => SymbolsDecl(d, item, span)
    case Initial => InitialDecl(d, item, span)
    case InitialStack => InitialStackDecl(d, item, span)
    case Unknown => (d, [ErrorAt(UnknownItem(name.value), name.span)])
  }

  function StatesDecl(d: Draft, list: Spanned<Ast.Item>, span: Span): (r: (Draft, seq<LogEntry>))
  {
    var (m, logs) := NamesSection(d.states, list, span, "states already set", "state redefined", "states cannot be empty");
    (d.(states := m), logs)
  }

  function AlphabetDecl(d: Draft, list: Spanned<Ast.Item>, span: Span): (r: (Draft, seq<LogEntry>))
  {
    var (m, logs) := LettersSection(d.alphabet, list, span);
    (d.(alphabet := m), logs)
  }

  /** `T`, `gamma` or capital gamma: the stack symbols. */
  function SymbolsDecl(d: Draft, list: Spanned<Ast.Item>, span: Span): (r: (Draft, seq<LogEntry>))
  {
    var (m, logs) := NamesSection(d.symbols, list, span, "stack symbols already set", "stack symbol redefined", "stack symbols cannot be empty");
    (d.(symbols := m), logs)
  }

  /** `F`: a fresh set of final states, each a declared state; a set that
      cannot be read leaves the previous one in place. */
  function FinalsDecl(d: Draft, list: Spanned<Ast.Item>, span: Span): (r: (Draft, seq<LogEntry>))
  {
    var pre := if d.finals.Some? then [ErrorAt("final states already set", span)] else [];
    match Ast.AsElements(list.value)
    case None => (d, pre + [Ast.Mismatch("set", list)])
    case Some(elems) =>
      var (f, logs) := FinalEntries(d.states, map[], elems);
      (d.(finals := Some(f)), pre + logs)
  }

  function InitialDecl(d: Draft, item: Spanned<Ast.Item>, span: Span): (r: (Draft, seq<LogEntry>))
  {
    var (c, logs) := ChoiceSection(d.initial, d.states, item, span, "initial state already set", "initial state symbol not defined as a state");
    (d.(initial := c), logs)
  }

  /** `S` or `z0`: the symbol on the stack at the start. */
  function InitialStackDecl(d: Draft, item: Spanned<Ast.Item>, span: Span): (r: (Draft, seq<LogEntry>))
  {
    var (c, logs) := ChoiceSection(d.stack, d.symbols, item, span, "initial stack already set", "initial stack symbol not defined as a stack symbol");
    (d.(stack := c), logs)
  }

  function Declarations(items: seq<Spanned<Ast.TopLevel>>, o: Options): (r: (Draft, seq<LogEntry>))
    decreases |items|
  {
    if items == [] then (EMPTY, [])
    else
      var (d1, logs1) := Declarations(items[..|items| - 1], o);
      var (d2, logs2) := Declare(d1, items[|items| - 1], o);
      (d2, logs1 + logs2)
  }

  /** What is missing after the loop. */
  function Missing(d: Draft): (r: seq<LogEntry>)
  {
    Check(|d.symbols| != 0, "stack symbols never defined") +
    Check(|d.alphabet| != 0, "alphabet never defined") +
    Check(|d.states| != 0, "states never defined")
  }

  /** After the loop: missing sections are errors, a missing initial stack
      symbol becomes `z0` and a missing initial state `q0`. */
  function Finish(d: Draft): (r: (Pda, seq<LogEntry>))
  {
    var (stack, logs1) := DefaultChoice(d.stack, d.symbols, INITIAL_STACK, "initial stack symbol not defined, defaulting to 'z0'", "initial stack symbol not defined");
    var (initial, logs2) := DefaultChoice(d.initial, d.states, INITIAL_STATE, "initial state not defined, defaulting to 'q0'", "initial state not defined");
    (Pda(initial, stack, d.states, d.symbols, d.alphabet, d.finals, d.transitions), Missing(d) + logs1 + logs2)
  }

  function Compiled(items: seq<Spanned<Ast.TopLevel>>, o: Options): (r: (Pda, seq<LogEntry>))
  {
    var (d, logs1) := Declarations(items, o);
    var (pda, logs2) := Finish(d);
    (pda, logs1 + logs2)
  }

  // ---------------------------------------------------------------------
  // What a machine compiled without errors satisfies.

  predicate LetterAllowed(alphabet: map<string, Span>, o: Options, letter: Option<string>)
  {
    if letter.None? then o.epsilonMoves else letter.value in alphabet
  }

  predicate AllDeclared(stack: seq<string>, symbols: map<string, Span>)
  {
    forall k :: 0 <= k < |stack| ==> stack[k] in symbols
  }

  /** A starting point's state and popped symbol are declared; its letter is
      allowed unless an error was reported. */
  predicate GoodStart(f: From, states: map<string, Span>, symbols: map<string, Span>, alphabet: map<string, Span>, o: Options, errors: bool)
  {
    f.state in states && f.symbol in symbols && (!errors ==> LetterAllowed(alphabet, o, f.letter))
  }

  predicate GoodTarget(t: To, states: map<string, Span>, symbols: map<string, Span>)
  {
    t.state in states && AllDeclared(t.stack, symbols)
  }

  predicate GoodTable(trans: map<From, set<To>>, states: map<string, Span>, symbols: map<string, Span>, alphabet: map<string, Span>, o: Options, errors: bool)
  {
    && Branching(trans, o, errors)
    && (forall f :: f in trans ==> GoodStart(f, states, symbols, alphabet, o, errors))
    && (forall f, t :: f in trans && t in trans[f] ==> GoodTarget(t, states, symbols))
  }

  /** The invariant of the declaration loop: as for the finite automaton, and
      popped and pushed symbols and the initial stack symbol are declared
      stack symbols. */
  predicate Sound(d: Draft, o: Options, errors: bool)
  {
    && (d.initial.Some? ==> d.initial.value in d.states)
    && (d.stack.Some? ==> d.stack.value in d.symbols)
    && (d.finals.Some? ==> d.finals.value.Keys <= d.states.Keys)
    && (!errors ==> OneCharKeys(d.alphabet))
    && GoodTable(d.transitions, d.states, d.symbols, d.alphabet, o, errors)
  }

  predicate WellFormed(pda: Pda, o: Options)
  {
    && pda.initialState in pda.states
    && pda.initialStack in pda.symbols
    && |pda.alphabet| != 0 && OneCharKeys(pda.alphabet)
    && (pda.finalStates.Some? ==> pda.finalStates.value.Keys <= pda.states.Keys)
    && GoodTable(pda.transitions, pda.states, pda.symbols, pda.alphabet, o, false)
  }

  lemma {:induction false} TargetSound(states: map<string, Span>, symbols: map<string, Span>, from: From, func: Span, trans: map<From, set<To>>, o: Options, item: Spanned<Ast.Item>, errors: bool)
    requires Branching(trans, o, errors)
    requires forall f, t :: f in trans && t in trans[f] ==> GoodTarget(t, states, symbols)
    ensures var (t, logs) := Target(states, symbols, from, func, trans, o, item);
      && Branching(t, o, errors || !NoErrors(logs))
      && t.Keys <= trans.Keys + {from}
      && (forall f, x :: f in t && x in t[f] ==> GoodTarget(x, states, symbols))
  {
    var tuple := Ast.AsTuple(item);
    if tuple.Some? {
      TupleTargetSound(states, symbols, from, func, trans, o, tuple.value, item.span, errors);
    }
  }

  lemma {:induction false} TupleTargetSound(states: map<string, Span>, symbols: map<string, Span>, from: From, func: Span, trans: map<From, set<To>>, o: Options, t: Spanned<Ast.Tuple>, at: Span, errors: bool)
    requires Branching(trans, o, errors)
    requires forall f, t :: f in trans && t in trans[f] ==> GoodTarget(t, states, symbols)
    ensures var (t, logs) := TupleTarget(states, symbols, from, func, trans, o, t, at);
      && Branching(t, o, errors || !NoErrors(logs))
      && t.Keys <= trans.Keys + {from}
      && (forall f, x :: f in t && x in t[f] ==> GoodTarget(x, states, symbols))
  {
    if Move(t).Some? {
      var (next, push) := Move(t).value;
      if next.value in states {
        var (stack, logs1) := PushList(symbols, push);
        PushListDeclared(symbols, push);
        var to := To(next.value, stack, at, func);
        AddTargetKeeps(trans, from, to, at, o, errors);
        NoErrorsConcat(logs1, AddTarget(trans, from, to, at, o).1);
      }
    }
  }

  lemma {:induction false} TargetListSound(states: map<string, Span>, symbols: map<string, Span>, from: From, func: Span, trans: map<From, set<To>>, o: Options, items: seq<Spanned<Ast.Item>>, errors: bool)
    requires Branching(trans, o, errors)
    requires forall f, t :: f in trans && t in trans[f] ==> GoodTarget(t, states, symbols)
    ensures var (t, logs) := TargetList(states, symbols, from, func, trans, o, items);
      && Branching(t, o, errors || !NoErrors(logs))
      && t.Keys <= trans.Keys + {from}
      && (forall f, x :: f in t && x in t[f] ==> GoodTarget(x, states, symbols))
    decreases |items|
  {
    if items != [] {
      var init := items[..|items| - 1];
      TargetListSound(states, symbols, from, func, trans, o, init, errors);
      var (t1, logs1) := TargetList(states, symbols, from, func, trans, o, init);
      TargetSound(states, symbols, from, func, t1, o, items[|items| - 1], errors || !NoErrors(logs1));
      NoErrorsConcat(logs1, Target(states, symbols, from, func, t1, o, items[|items| - 1]).1);
    }
  }

  lemma TransitionDeclSound(d: Draft, tuple: Spanned<Ast.Tuple>, targets: seq<Spanned<Ast.Item>>, o: Options, errors: bool)
    requires Sound(d, o, errors)
    ensures Sound(TransitionDecl(d, tuple, targets, o).0, o, errors || !NoErrors(TransitionDecl(d, tuple, targets, o).1))
  {
    match Source(tuple)
    case None =>
    case Some((state, letter, symbol)) =>
      if state.value in d.states && symbol.value in d.symbols {
        var (l, logs1) := LetterOf(d.alphabet, letter, o);
        OnlyErrors(logs1);
        TransitionTargetsSound(d, From(state.value, l, symbol.value), tuple.span, targets, o, errors, errors || !NoErrors(logs1));
        NoErrorsConcat(logs1, TargetList(d.states, d.symbols, From(state.value, l, symbol.value), tuple.span, d.transitions, o, targets).1);
      }
  }

  lemma TransitionTargetsSound(d: Draft, from: From, func: Span, targets: seq<Spanned<Ast.Item>>, o: Options, errors: bool, errors1: bool)
    requires Sound(d, o, errors)
    requires errors ==> errors1
    requires GoodStart(from, d.states, d.symbols, d.alphabet, o, errors1)
    ensures var (t, logs) := TargetList(d.states, d.symbols, from, func, d.transitions, o, targets);
      Sound(d.(transitions := t), o, errors1 || !NoErrors(logs))
  {
    TargetListSound(d.states, d.symbols, from, func, d.transitions, o, targets, errors1);
  }

  lemma SoundWeakens(d: Draft, o: Options, errors: bool, later: bool)
    requires Sound(d, o, errors)
    requires errors ==> later
    ensures Sound(d, o, later)
  {
  }

  lemma DeclareSound(d: Draft, decl: Spanned<Ast.TopLevel>, o: Options, errors: bool)
    requires Sound(d, o, errors)
    ensures Sound(Declare(d, decl, o).0, o, errors || !NoErrors(Declare(d, decl, o).1))
  {
    match decl.value
    case ItemDecl(name, item) => ItemDeclSound(d, SectionOf(name.value), name, item, decl.span, o, errors);
    case TransitionFunc(dest, list) =>
      if ShortDelta(dest.value.0.value) {
        TransitionDeclSound(d, dest.value.1, Ast.Weak(list), o, errors);
      } else {
        SoundWeakens(d, o, errors, errors || !NoErrors(Declare(d, decl, o).1));
      }
    case ProductionRule(_, _) => SoundWeakens(d, o, errors, errors || !NoErrors(Declare(d, decl, o).1));
    case Table => SoundWeakens(d, o, errors, errors || !NoErrors(Declare(d, decl, o).1));
  }

  lemma ItemDeclSound(d: Draft, k: Section, name: Spanned<string>, item: Spanned<Ast.Item>, span: Span, o: Options, errors: bool)
    requires Sound(d, o, errors)
    ensures Sound(ItemDecl(d, k, name, item, span).0, o, errors || !NoErrors(ItemDecl(d, k, name, item, span).1))
  {
    match k
    case States => StatesDeclSound(d, item, span, o, errors);
    case Alphabet => AlphabetDeclSound(d, item, span, o, errors);
    case Finals => FinalsDeclSound(d, item, span, o, errors);
    case StackSymbols => SymbolsDeclSound(d, item, span, o, errors);
    case Initial => InitialDeclSound(d, item, span, o, errors);
    case InitialStack => InitialStackDeclSound(d, item, span, o, errors);
    case Unknown =>
  }

  lemma InitialDeclSound(d: Draft, item: Spanned<Ast.Item>, span: Span, o: Options, errors: bool)
    requires Sound(d, o, errors)
    ensures Sound(InitialDecl(d, item, span).0, o, errors)
  {
  }

  lemma InitialStackDeclSound(d: Draft, item: Spanned<Ast.Item>, span: Span, o: Options, errors: bool)
    requires Sound(d, o, errors)
    ensures Sound(InitialStackDecl(d, item, span).0, o, errors)
  {
  }

  lemma StatesDeclSound(d: Draft, list: Spanned<Ast.Item>, span: Span, o: Options, errors: bool)
    requires Sound(d, o, errors)
    ensures Sound(StatesDecl(d, list, span).0, o, errors)
  {
    NamesSectionGrows(d.states, list, span, "states already set", "state redefined", "states cannot be empty");
    GrowsSound(d, StatesDecl(d, list, span).0, o, errors);
  }

  lemma SymbolsDeclSound(d: Draft, list: Spanned<Ast.Item>, span: Span, o: Options, errors: bool)
    requires Sound(d, o, errors)
    ensures Sound(SymbolsDecl(d, list, span).0, o, errors)
  {
    NamesSectionGrows(d.symbols, list, span, "stack symbols already set", "stack symbol redefined", "stack symbols cannot be empty");
    GrowsSound(d, SymbolsDecl(d, list, span).0, o, errors);
  }

  lemma AlphabetDeclSound(d: Draft, list: Spanned<Ast.Item>, span: Span, o: Options, errors: bool)
    requires Sound(d, o, errors)
    ensures Sound(AlphabetDecl(d, list, span).0, o, errors || !NoErrors(AlphabetDecl(d, list, span).1))
  {
    var (m, logs) := LettersSection(d.alphabet, list, span);
    LettersSectionSound(d.alphabet, list, span);
    GrowsSound(d, d.(alphabet := m), o, errors || !NoErrors(logs));
  }

  lemma FinalsDeclSound(d: Draft, list: Spanned<Ast.Item>, span: Span, o: Options, errors: bool)
    requires Sound(d, o, errors)
    ensures Sound(FinalsDecl(d, list, span).0, o, errors)
  {
    if list.value.ListItem? {
      FinalEntriesWithinStates(d.states, map[], list.value.elems);
    }
  }

  /** More states, stack symbols or letters keep the invariant, while the
      letters are single characters. */
  lemma GrowsSound(d: Draft, e: Draft, o: Options, errors: bool)
    requires Sound(d, o, errors)
    requires e == d.(states := e.states, symbols := e.symbols, alphabet := e.alphabet)
    requires d.states.Keys <= e.states.Keys && d.symbols.Keys <= e.symbols.Keys && d.alphabet.Keys <= e.alphabet.Keys
    requires !errors ==> OneCharKeys(e.alphabet)
    ensures Sound(e, o, errors)
  {
    forall f | f in e.transitions
      ensures GoodStart(f, e.states, e.symbols, e.alphabet, o, errors)
    {
      assert GoodStart(f, d.states, d.symbols, d.alphabet, o, errors);
    }
    forall f, t | f in e.transitions && t in e.transitions[f]
      ensures GoodTarget(t, e.states, e.symbols)
    {
      assert GoodTarget(t, d.states, d.symbols);
    }
  }

  lemma {:induction false} DeclarationsSound(items: seq<Spanned<Ast.TopLevel>>, o: Options)
    ensures Sound(Declarations(items, o).0, o, !NoErrors(Declarations(items, o).1))
    decreases |items|
  {
    if items != [] {
      var init := items[..|items| - 1];
      DeclarationsSound(init, o);
      var (d1, logs1) := Declarations(init, o);
      DeclareSound(d1, items[|items| - 1], o, !NoErrors(logs1));
      NoErrorsConcat(logs1, Declare(d1, items[|items| - 1], o).1);
    }
  }

  /** The checks after the loop: no error means stack symbols, an alphabet,
      states, and initial symbols among them. */
  lemma FinishChecks(d: Draft)
    requires d.initial.Some? ==> d.initial.value in d.states
    requires d.stack.Some? ==> d.stack.value in d.symbols
    ensures NoErrors(Finish(d).1) ==>
      |d.symbols| != 0 && |d.alphabet| != 0 && |d.states| != 0 &&
      Finish(d).0.initialState in d.states && Finish(d).0.initialStack in d.symbols
  {
    var missing := Missing(d);
    var (stack, logs1) := DefaultChoice(d.stack, d.symbols, INITIAL_STACK, "initial stack symbol not defined, defaulting to 'z0'", "initial stack symbol not defined");
    var (initial, logs2) := DefaultChoice(d.initial, d.states, INITIAL_STATE, "initial state not defined, defaulting to 'q0'", "initial state not defined");
    NoErrorsConcat(missing, logs1);
    NoErrorsConcat(missing + logs1, logs2);
    MissingChecks(d);
    if d.stack.None? {
      assert logs1[0].level != Error ==> stack in d.symbols;
    }
    if d.initial.None? {
      assert logs2[0].level != Error ==> initial in d.states;
    }
  }

  lemma MissingChecks(d: Draft)
    ensures NoErrors(Missing(d)) ==> |d.symbols| != 0 && |d.alphabet| != 0 && |d.states| != 0
  {
    var a := Check(|d.symbols| != 0, "stack symbols never defined");
    var b := Check(|d.alphabet| != 0, "alphabet never defined");
    NoErrorsConcat(a, b);
    NoErrorsConcat(a + b, Check(|d.states| != 0, "states never defined"));
  }

  /** A machine compiled without an error is well formed: its initial state
      and final states are states, its initial stack symbol and every popped
      and pushed symbol are stack symbols, its alphabet is non-empty and made
      of single characters, its letters are declared, epsilon moves appear
      only when permitted and, unless non-determinism is permitted, every
      starting point has one target. */
  lemma CompiledWellFormed(items: seq<Spanned<Ast.TopLevel>>, o: Options)
    requires NoErrors(Compiled(items, o).1)
    ensures WellFormed(Compiled(items, o).0, o)
  {
    var (d, logs1) := Declarations(items, o);
    DeclarationsSound(items, o);
    NoErrorsConcat(logs1, Finish(d).1);
    FinishChecks(d);
  }

  // ---------------------------------------------------------------------
  // `Pda::parse`.

  method ParsePushSymbol(symbols: map<string, Span>, item: Spanned<Ast.Item>, ctx: Context) returns (s: seq<string>)
    requires ctx.Valid()
    modifies ctx.logs
    ensures ctx.Valid()
    ensures s == PushSymbol(symbols, item).0
    ensures ctx.logs.entries == old(ctx.logs.entries) + PushSymbol(symbols, item).1
  {
    s := [];
    if IsEpsilon(item) {
      return;
    }
    var name := Ast.ExpectIdent(item, ctx);
    if name.None? {
      return;
    }
    if name.value !in symbols {
      var _ := ctx.logs.Emit(ErrorAt(UNDECLARED_PUSHED, item.span));
      return;
    }
    s := [name.value];
  }

  lemma PushListStep(symbols: map<string, Span>, items: seq<Spanned<Ast.Item>>, i: nat)
    requires i < |items|
    ensures PushList(symbols, items[i..]) ==
      (PushList(symbols, items[i + 1..]).0 + PushSymbol(symbols, items[i]).0,
       PushList(symbols, items[i + 1..]).1 + PushSymbol(symbols, items[i]).1)
  {
    assert items[i..][1..] == items[i + 1..];
  }

  method ParsePushList(symbols: map<string, Span>, items: seq<Spanned<Ast.Item>>, ctx: Context) returns (stack: seq<string>)
    requires ctx.Valid()
    modifies ctx.logs
    ensures ctx.Valid()
    ensures stack == PushList(symbols, items).0
    ensures ctx.logs.entries == old(ctx.logs.entries) + PushList(symbols, items).1
  {
    stack := [];
    var i := |items|;
    while i > 0
      invariant 0 <= i <= |items|
      invariant ctx.Valid()
      invariant stack == PushList(symbols, items[i..]).0
      invariant ctx.logs.entries == old(ctx.logs.entries) + PushList(symbols, items[i..]).1
    {
      i := i - 1;
      PushListStep(symbols, items, i);
      ghost var step := PushSymbol(symbols, items[i]).1;
      var s := ParsePushSymbol(symbols, items[i], ctx);
      Appended(old(ctx.logs.entries), PushList(symbols, items[i + 1..]).1, step);
      stack := stack + s;
    }
    assert items[0..] == items;
  }

  method ParseTarget(states: map<string, Span>, symbols: map<string, Span>, from: From, func: Span, trans: map<From, set<To>>, o: Options, item: Spanned<Ast.Item>, ctx: Context)
    returns (r: map<From, set<To>>)
    requires ctx.Valid()
    modifies ctx.logs
    ensures ctx.Valid()
    ensures r == Target(states, symbols, from, func, trans, o, item).0
    ensures ctx.logs.entries == old(ctx.logs.entries) + Target(states, symbols, from, func, trans, o, item).1
  {
    r := trans;
    var tuple := Ast.ExpectTuple(item, ctx);
    if tuple.None? {
      return;
    }
    r := ParseTupleTarget(states, symbols, from, func, trans, o, tuple.value, item.span, ctx);
  }

  method ParseTupleTarget(states: map<string, Span>, symbols: map<string, Span>, from: From, func: Span, trans: map<From, set<To>>, o: Options, t: Spanned<Ast.Tuple>, at: Span, ctx: Context)
    returns (r: map<From, set<To>>)
    requires ctx.Valid()
    modifies ctx.logs
    ensures ctx.Valid()
    ensures r == TupleTarget(states, symbols, from, func, trans, o, t, at).0
    ensures ctx.logs.entries == old(ctx.logs.entries) + TupleTarget(states, symbols, from, func, trans, o, t, at).1
  {
    r := trans;
    var move := Move(t);
    if move.None? {
      var _ := ctx.logs.Emit(ErrorAt(TARGET_SHAPE, t.span));
      return;
    }
    var (next, push) := move.value;
    if next.value !in states {
      var _ := ctx.logs.Emit(ErrorAt(UNDECLARED_STATE, next.span));
      return;
    }
    var stack := ParsePushList(symbols, push, ctx);
    r := ParseAddTarget(trans, from, To(next.value, stack, at, func), at, o, ctx);
    Appended(old(ctx.logs.entries), PushList(symbols, push).1, AddTarget(trans, from, To(next.value, stack, at, func), at, o).1);
  }

  lemma TargetListStep(states: map<string, Span>, symbols: map<string, Span>, from: From, func: Span, trans: map<From, set<To>>, o: Options, items: seq<Spanned<Ast.Item>>, i: nat)
    requires i < |items|
    ensures TargetList(states, symbols, from, func, trans, o, items[..i + 1]) ==
      (Target(states, symbols, from, func, TargetList(states, symbols, from, func, trans, o, items[..i]).0, o, items[i]).0,
       TargetList(states, symbols, from, func, trans, o, items[..i]).1 + Target(states, symbols, from, func, TargetList(states, symbols, from, func, trans, o, items[..i]).0, o, items[i]).1)
  {
    assert items[..i + 1][..i] == items[..i];
  }

  method ParseTargetList(states: map<string, Span>, symbols: map<string, Span>, from: From, func: Span, t0: map<From, set<To>>, o: Options, items: seq<Spanned<Ast.Item>>, ctx: Context)
    returns (trans: map<From, set<To>>)
    requires ctx.Valid()
    modifies ctx.logs
    ensures ctx.Valid()
    ensures trans == TargetList(states, symbols, from, func, t0, o, items).0
    ensures ctx.logs.entries == old(ctx.logs.entries) + TargetList(states, symbols, from, func, t0, o, items).1
  {
    trans := t0;
    for i := 0 to |items|
      invariant ctx.Valid()
      invariant trans == TargetList(states, symbols, from, func, t0, o, items[..i]).0
      invariant ctx.logs.entries == old(ctx.logs.entries) + TargetList(states, symbols, from, func, t0, o, items[..i]).1
    {
      TargetListStep(states, symbols, from, func, t0, o, items, i);
      ghost var step := Target(states, symbols, from, func, trans, o, items[i]).1;
      trans := ParseTarget(states, symbols, from, func, trans, o, items[i], ctx);
      Appended(old(ctx.logs.entries), TargetList(states, symbols, from, func, t0, o, items[..i]).1, step);
    }
    assert items[..|items|] == items;
  }

  method ParseTransitionDecl(d: Draft, tuple: Spanned<Ast.Tuple>, targets: seq<Spanned<Ast.Item>>, o: Options, ctx: Context) returns (r: Draft)
    requires ctx.Valid()
    modifies ctx.logs
    ensures ctx.Valid()
    ensures r == TransitionDecl(d, tuple, targets, o).0
    ensures ctx.logs.entries == old(ctx.logs.entries) + TransitionDecl(d, tuple, targets, o).1
  {
    r := d;
    var source := Source(tuple);
    if source.None? {
      var _ := ctx.logs.Emit(ErrorAt(SOURCE_SHAPE, tuple.span));
      return;
    }
    var (state, letter, symbol) := source.value;
    if state.value !in d.states {
      var _ := ctx.logs.Emit(ErrorAt(UNDECLARED_STATE, state.span));
      return;
    }
    if symbol.value !in d.symbols {
      var _ := ctx.logs.Emit(ErrorAt(UNDECLARED_POPPED, symbol.span));
      return;
    }
    var l := ParseLetterOf(d.alphabet, letter, o, ctx);
    var from := From(state.value, l, symbol.value);
    var t := ParseTargetList(d.states, d.symbols, from, tuple.span, d.transitions, o, targets, ctx);
    Appended(old(ctx.logs.entries), LetterOf(d.alphabet, letter, o).1, TargetList(d.states, d.symbols, from, tuple.span, d.transitions, o, targets).1);
    r := d.(transitions := t);
  }

  method ParseFinalsDecl(d: Draft, list: Spanned<Ast.Item>, span: Span, ctx: Context) returns (r: Draft)
    requires ctx.Valid()
    modifies ctx.logs
    ensures ctx.Valid()
    ensures r == FinalsDecl(d, list, span).0
    ensures ctx.logs.entries == old(ctx.logs.entries) + FinalsDecl(d, list, span).1
  {
    r := d;
    ghost var pre := if d.finals.Some? then [ErrorAt("final states already set", span)] else [];
    if d.finals.Some? {
      var _ := ctx.logs.Emit(ErrorAt("final states already set", span));
    }
    var elems := Ast.ExpectSet(list, ctx);
    if elems.None? {
      return;
    }
    var f := ParseFinalEntries(d.states, map[], elems.value, ctx);
    Appended(old(ctx.logs.entries), pre, FinalEntries(d.states, map[], elems.value).1);
    r := d.(finals := Some(f));
  }

  method ParseItemDecl(d: Draft, k: Section, name: Spanned<string>, item: Spanned<Ast.Item>, span: Span, ctx: Context) returns (r: Draft)
    requires ctx.Valid()
    modifies ctx.logs
    ensures ctx.Valid()
    ensures r == ItemDecl(d, k, name, item, span).0
    ensures ctx.logs.entries == old(ctx.logs.entries) + ItemDecl(d, k, name, item, span).1
  {
    r := d;
    match k {
      case States =>
        var m := ParseNamesSection(d.states, item, span, "states already set", "state redefined", "states cannot be empty", ctx);
        r := d.(states := m);
      case Alphabet =>
        var m := ParseLettersSection(d.alphabet, item, span, ctx);
        r := d.(alphabet := m);
      case Finals =>
        r := ParseFinalsDecl(d, item, span, ctx);
      case StackSymbols =>
        var m := ParseNamesSection(d.symbols, item, span, "stack symbols already set", "stack symbol redefined", "stack symbols cannot be empty", ctx);
        r := d.(symbols := m);
      case Initial =>
        var c := ParseChoiceSection(d.initial, d.states, item, span, "initial state already set", "initial state symbol not defined as a state", ctx);
        r := d.(initial := c);
      case InitialStack =>
        var c := ParseChoiceSection(d.stack, d.symbols, item, span, "initial stack already set", "initial stack symbol not defined as a stack symbol", ctx);
        r := d.(stack := c);
      case Unknown =>
        var _ := ctx.logs.Emit(ErrorAt(UnknownItem(name.value), name.span));
    }
  }

  method ParseDeclaration(d: Draft, decl: Spanned<Ast.TopLevel>, o: Options, ctx: Context) returns (r: Draft)
    requires ctx.Valid()
    modifies ctx.logs
    ensures ctx.Valid()
    ensures r == Declare(d, decl, o).0
    ensures ctx.logs.entries == old(ctx.logs.entries) + Declare(d, decl, o).1
  {
    r := d;
    match decl.value {
      case ItemDecl(name, item) =>
        r := ParseItemDecl(d, SectionOf(name.value), name, item, decl.span, ctx);
      case TransitionFunc(dest, list) =>
        if ShortDelta(dest.value.0.value) {
          r := ParseTransitionDecl(d, dest.value.1, Ast.Weak(list), o, ctx);
        } else {
          var _ := ctx.logs.Emit(ErrorAt(UnknownShortFunction(dest.value.0.value), dest.span));
        }
      case ProductionRule(_, _) =>
        var _ := ctx.logs.Emit(ErrorAt("unexpected production rule", decl.span));
      case Table =>
        var _ := ctx.logs.Emit(ErrorAt("unexpected table", decl.span));
    }
  }

  lemma DeclarationsStep(items: seq<Spanned<Ast.TopLevel>>, o: Options, i: nat)
    requires i < |items|
    ensures Declarations(items[..i + 1], o) ==
      (Declare(Declarations(items[..i], o).0, items[i], o).0,
       Declarations(items[..i], o).1 + Declare(Declarations(items[..i], o).0, items[i], o).1)
  {
    assert items[..i + 1][..i] == items[..i];
  }

  method ParseMissing(d: Draft, ctx: Context)
    requires ctx.Valid()
    modifies ctx.logs
    ensures ctx.Valid()
    ensures ctx.logs.entries == old(ctx.logs.entries) + Missing(d)
  {
    ParseCheck(|d.symbols| != 0, "stack symbols never defined", ctx);
    ghost var a := Check(|d.symbols| != 0, "stack symbols never defined");
    ParseCheck(|d.alphabet| != 0, "alphabet never defined", ctx);
    ghost var b := Check(|d.alphabet| != 0, "alphabet never defined");
    Appended(old(ctx.logs.entries), a, b);
    ParseCheck(|d.states| != 0, "states never defined", ctx);
    Appended(old(ctx.logs.entries), a + b, Check(|d.states| != 0, "states never defined"));
  }

  method ParseFinish(d: Draft, ctx: Context) returns (pda: Pda)
    requires ctx.Valid()
    modifies ctx.logs
    ensures ctx.Valid()
    ensures pda == Finish(d).0
    ensures ctx.logs.entries == old(ctx.logs.entries) + Finish(d).1
  {
    ParseMissing(d, ctx);
    var stack := ParseDefaultChoice(d.stack, d.symbols, INITIAL_STACK, "initial stack symbol not defined, defaulting to 'z0'", "initial stack symbol not defined", ctx);
    var initial := ParseDefaultChoice(d.initial, d.states, INITIAL_STATE, "initial state not defined, defaulting to 'q0'", "initial state not defined", ctx);
    pda := Pda(initial, stack, d.states, d.symbols, d.alphabet, d.finals, d.transitions);
  }

  /** `Pda::parse`: the machine the declarations describe, if and only if no
      error is in the context's log once they are read; such a machine is
      well formed. */
  method Parse(items: seq<Spanned<Ast.TopLevel>>, ctx: Context, o: Options) returns (r: Option<Pda>)
    requires ctx.Valid()
    modifies ctx.logs
    ensures ctx.Valid()
    ensures ctx.logs.entries == old(ctx.logs.entries) + Compiled(items, o).1
    ensures r.Some? <==> !ctx.ContainsErrors()
    ensures r.Some? ==> r.value == Compiled(items, o).0 && WellFormed(r.value, o)
  {
    var d := EMPTY;
    for i := 0 to |items|
      invariant ctx.Valid()
      invariant d == Declarations(items[..i], o).0
      invariant ctx.logs.entries == old(ctx.logs.entries) + Declarations(items[..i], o).1
    {
      DeclarationsStep(items, o, i);
      ghost var step := Declare(d, items[i], o).1;
      d := ParseDeclaration(d, items[i], o, ctx);
      Appended(old(ctx.logs.entries), Declarations(items[..i], o).1, step);
    }
    assert items[..|items|] == items;
    var pda := ParseFinish(d, ctx);
    Appended(old(ctx.logs.entries), Declarations(items, o).1, Finish(d).1);
    if ctx.logs.hasError {
      return None;
    }
    NoErrorsConcat(old(ctx.logs.entries), Compiled(items, o).1);
    CompiledWellFormed(items, o);
    r := Some(pda);
  }
}
