// The finite-automaton compiler (automata/src/automatan/fa.rs): one pass
// over the declarations, each validated into the name-keyed maps and the
// transition table, then the defaults, and a machine only if no error was
// logged anywhere in the context.

module FiniteAutomata {
  import opened Common
  import opened Log
  import opened LoaderContext
  import opened Automatan
  import Ast

  /** A starting point: a state and a letter, or no letter for an epsilon move. */
  datatype From = From(state: string, letter: Option<string>)

  /** A target, with the spans of the target item and of the function. */
  datatype To = To(state: string, transition: Span, func: Span)

  datatype Fa = Fa(
    initialState: string,
    states: map<string, Span>,
    alphabet: map<string, Span>,
    finalStates: map<string, Span>,
    transitions: map<From, set<To>>)

  /** The locals of `Fa::parse` while the declarations are read. */
  datatype Draft = Draft(
    initial: Option<string>,
    states: map<string, Span>,
    alphabet: map<string, Span>,
    finals: map<string, Span>,
    transitions: map<From, set<To>>)

  const EMPTY: Draft := Draft(None, map[], map[], map[], map[])

  const SOURCE_SHAPE := "expected FA transition function (ident, ident|~)"
  const UNDECLARED_STATE := "transition state not defined as state"

  // ---------------------------------------------------------------------
  // Transitions.

  /** `expect_fa_transition_function`: exactly an identifier and a symbol. */
  function Source(t: Spanned<Ast.Tuple>): (r: Option<(Spanned<string>, Spanned<Ast.Symbol>)>)
    ensures r.Some? <==> |t.value.items| == 2 && Ast.AsIdent(t.value.items[0].value).Some? && t.value.items[1].value.SymbolItem?
  {
    var items := t.value.items;
    if |items| == 2 && Ast.AsIdent(items[0].value).Some? && items[1].value.SymbolItem? then
      Some((Spanned(items[0].value.symbol.name, items[0].span), Spanned(items[1].value.symbol, items[1].span)))
    else None
  }

  /** One target of a transition function: an identifier naming a state. */
  function Target(states: map<string, Span>, from: From, func: Span, trans: map<From, set<To>>, o: Options, item: Spanned<Ast.Item>)
    : (r: (map<From, set<To>>, seq<LogEntry>))
  {
    match Ast.AsIdent(item.value)
    case None => (trans, [Ast.Mismatch("ident", item)])
    case Some(next) =>
      if next !in states then (trans, [ErrorAt(UNDECLARED_STATE, item.span)])
      else AddTarget(trans, from, To(next, item.span, func), item.span, o)
  }

  function TargetList(states: map<string, Span>, from: From, func: Span, trans: map<From, set<To>>, o: Options, items: seq<Spanned<Ast.Item>>)
    : (r: (map<From, set<To>>, seq<LogEntry>))
    decreases |items|
  {
    if items == [] then (trans, [])
    else
      var (t1, logs1) := TargetList(states, from, func, trans, o, items[..|items| - 1]);
      var (t2, logs2) := Target(states, from, func, t1, o, items[|items| - 1]);
      (t2, logs1 + logs2)
  }

  /** A transition function `d(state, letter) = targets`. */
  function TransitionDecl(d: Draft, tuple: Spanned<Ast.Tuple>, targets: seq<Spanned<Ast.Item>>, o: Options): (r: (Draft, seq<LogEntry>))
    ensures r.0 == d.(transitions := r.0.transitions)
    ensures Source(tuple).None? || Source(tuple).value.0.value !in d.states ==> r.0 == d && |r.1| == 1 && r.1[0].level == Error
  {
    match Source(tuple)
    case None => (d, [ErrorAt(SOURCE_SHAPE, tuple.span)])
    case Some((state, letter)) =>
      if state.value !in d.states then (d, [ErrorAt(UNDECLARED_STATE, state.span)])
      else
        var (l, logs1) := LetterOf(d.alphabet, letter, o);
        var (t, logs2) := TargetList(d.states, From(state.value, l), tuple.span, d.transitions, o, targets);
        (d.(transitions := t), logs1 + logs2)
  }

  // ---------------------------------------------------------------------
  // Declarations.

  /** The sections an item declaration can set. */
  datatype Section = States | Alphabet | Finals | Initial | Unknown

  function SectionOf(name: string): Section
  {
    if name == "Q" then States
    else if name == "E" || name == SIGMA_UPPER || name == "sigma" then Alphabet
    else if name == "F" then Finals
    else if name == "I" || name == INITIAL_STATE then Initial
    else Unknown
  }

  /** One declaration of the loop in `Fa::parse`. */
  function Declare(d: Draft, decl: Spanned<Ast.TopLevel>, o: Options): (r: (Draft, seq<LogEntry>))
  {
    match decl.value
    case ItemDecl(name, item) => ItemDecl(d, SectionOf(name.value), name, item, decl.span)
    case TransitionFunc(dest, list) =>
      if ShortDelta(dest.value.0.value) then TransitionDecl(d, dest.value.1, Ast.Weak(list), o)
      else (d, [ErrorAt(UnknownShortFunction(dest.value.0.value), dest.span)])
    case ProductionRule(_, _) => (d, [ErrorAt("unexpected production rule", decl.span)])
    case Table => (d, [ErrorAt("unexpected table", decl.span)])
  }

  /** `name = item`. */
  function ItemDecl(d: Draft, k: Section, name: Spanned<string>, item: Spanned<Ast.Item>, span: Span): (r: (Draft, seq<LogEntry>))
  {
    match k
    case States => StatesDecl(d, item, span)
    case Alphabet => AlphabetDecl(d, item, span)
    case Finals => FinalsDecl(d, item, span)
    case Initial => InitialDecl(d, item, span)
    case Unknown => (d, [ErrorAt(UnknownItem(name.value), name.span)])
  }

  /** `Q`: the set of states. */
  function StatesDecl(d: Draft, list: Spanned<Ast.Item>, span: Span): (r: (Draft, seq<LogEntry>))
  {
    var (m, logs) := NamesSection(d.states, list, span, "states already set", "state redefined", "states cannot be empty");
    (d.(states := m), logs)
  }

  /** `E`, `sigma` or capital sigma: the alphabet. */
  function AlphabetDecl(d: Draft, list: Spanned<Ast.Item>, span: Span): (r: (Draft, seq<LogEntry>))
  {
    var (m, logs) := LettersSection(d.alphabet, list, span);
    (d.(alphabet := m), logs)
  }

  /** `I` or `q0`: the initial state. */
  function InitialDecl(d: Draft, item: Spanned<Ast.Item>, span: Span): (r: (Draft, seq<LogEntry>))
  {
    var (c, logs) := ChoiceSection(d.initial, d.states, item, span, "initial state already set", "initial state symbol not defined as a state");
    (d.(initial := c), logs)
  }

  /** `F`: added to the final states read so far, each a declared state. */
  function FinalsDecl(d: Draft, list: Spanned<Ast.Item>, span: Span): (r: (Draft, seq<LogEntry>))
  {
    var pre := if |d.finals| != 0 then [ErrorAt("final states already set", span)] else [];
    match Ast.AsElements(list.value)
    case None => (d, pre + [Ast.Mismatch("set", list)])
    case Some(elems) =>
      var (f, logs) := FinalEntries(d.states, d.finals, elems);
      (d.(finals := f), pre + logs)
  }

  function Declarations(items: seq<Spanned<Ast.TopLevel>>, o: Options): (r: (Draft, seq<LogEntry>))
    decreases |items|
  {
    if items == [] then (EMPTY, [])
    else
      var (d1, logs1) := Declarations(items[..|items| - 1], o);
      var (d2, logs2) := Declare(d1, items[|items| - 1], o);
      (d2, logs1 + logs2)
  }

  /** After the loop: a missing alphabet or set of states is an error, and a
      missing initial state becomes `q0`. */
  function Finish(d: Draft): (r: (Fa, seq<LogEntry>))
  {
    var (initial, logs) := DefaultChoice(d.initial, d.states, INITIAL_STATE, "initial state not defined, defaulting to 'q0'", "initial state not defined");
    (Fa(initial, d.states, d.alphabet, d.finals, d.transitions),
     Check(|d.alphabet| != 0, "alphabet never defined") + Check(|d.states| != 0, "states never defined") + logs)
  }

  /** The machine the declarations describe and everything logged on the way. */
  function Compiled(items: seq<Spanned<Ast.TopLevel>>, o: Options): (r: (Fa, seq<LogEntry>))
  {
    var (d, logs1) := Declarations(items, o);
    var (fa, logs2) := Finish(d);
    (fa, logs1 + logs2)
  }

  // ---------------------------------------------------------------------
  // What a machine compiled without errors satisfies.

  predicate LetterAllowed(alphabet: map<string, Span>, o: Options, letter: Option<string>)
  {
    if letter.None? then o.epsilonMoves else letter.value in alphabet
  }

  /** The invariant of the declaration loop. Starting points and targets are
      always declared states and final states always states; the letters,
      the epsilon moves and the number of targets are right unless an error
      was reported. */
  predicate Sound(d: Draft, o: Options, errors: bool)
  {
    && (d.initial.Some? ==> d.initial.value in d.states)
    && d.finals.Keys <= d.states.Keys
    && (!errors ==> OneCharKeys(d.alphabet))
    && Branching(d.transitions, o, errors)
    && (forall f :: f in d.transitions ==> f.state in d.states && (!errors ==> LetterAllowed(d.alphabet, o, f.letter)))
    && (forall f, t :: f in d.transitions && t in d.transitions[f] ==> t.state in d.states)
  }

  predicate WellFormed(fa: Fa, o: Options)
  {
    && fa.initialState in fa.states
    && |fa.alphabet| != 0 && OneCharKeys(fa.alphabet)
    && fa.finalStates.Keys <= fa.states.Keys
    && Branching(fa.transitions, o, false)
    && (forall f :: f in fa.transitions ==> f.state in fa.states && LetterAllowed(fa.alphabet, o, f.letter))
    && (forall f, t :: f in fa.transitions && t in fa.transitions[f] ==> t.state in fa.states)
  }

  /** Targets added under `from` are declared states; every identifier among
      the targets that names a state ends up in the table. */
  lemma {:induction false} TargetListSound(states: map<string, Span>, from: From, func: Span, trans: map<From, set<To>>, o: Options, items: seq<Spanned<Ast.Item>>, errors: bool)
    requires Branching(trans, o, errors)
    requires forall f, t :: f in trans && t in trans[f] ==> t.state in states
    ensures var (t, logs) := TargetList(states, from, func, trans, o, items);
      && Branching(t, o, errors || !NoErrors(logs))
      && t.Keys <= trans.Keys + {from}
      && (forall f, x :: f in t && x in t[f] ==> x.state in states)
    decreases |items|
  {
    if items != [] {
      var init := items[..|items| - 1];
      var item := items[|items| - 1];
      TargetListSound(states, from, func, trans, o, init, errors);
      var (t1, logs1) := TargetList(states, from, func, trans, o, init);
      var (t2, logs2) := Target(states, from, func, t1, o, item);
      NoErrorsConcat(logs1, logs2);
      var next := Ast.AsIdent(item.value);
      if next.Some? && next.value in states {
        AddTargetKeeps(t1, from, To(next.value, item.span, func), item.span, o, errors || !NoErrors(logs1));
      }
    }
  }

  /** Every identifier among the targets that names a state is recorded under
      the starting point, with its own span and the function's. */
  lemma {:induction false} TargetListComplete(states: map<string, Span>, from: From, func: Span, trans: map<From, set<To>>, o: Options, items: seq<Spanned<Ast.Item>>)
    ensures forall i :: 0 <= i < |items| && Ast.AsIdent(items[i].value).Some? && Ast.AsIdent(items[i].value).value in states ==>
      var t := TargetList(states, from, func, trans, o, items).0;
      from in t && To(Ast.AsIdent(items[i].value).value, items[i].span, func) in t[from]
    decreases |items|
  {
    if items != [] {
      var init := items[..|items| - 1];
      var item := items[|items| - 1];
      TargetListComplete(states, from, func, trans, o, init);
      var t1 := TargetList(states, from, func, trans, o, init).0;
      forall i | 0 <= i < |items| && Ast.AsIdent(items[i].value).Some? && Ast.AsIdent(items[i].value).value in states
        ensures var t := TargetList(states, from, func, trans, o, items).0;
          from in t && To(Ast.AsIdent(items[i].value).value, items[i].span, func) in t[from]
      {
        if i < |init| {
          assert items[i] == init[i];
        }
      }
    }
  }

  lemma DeclareSound(d: Draft, decl: Spanned<Ast.TopLevel>, o: Options, errors: bool)
    requires Sound(d, o, errors)
    ensures Sound(Declare(d, decl, o).0, o, errors || !NoErrors(Declare(d, decl, o).1))
  {
    match decl.value
    case ItemDecl(name, item) => ItemDeclSound(d, SectionOf(name.value), name, item, decl.span, o, errors);
    case TransitionFunc(dest, list) =>
      if ShortDelta(dest.value.0.value) {
        TransitionDeclSound(d, dest.value.1, Ast.Weak(list), o, errors);
      } else {
        SoundWeakens(d, o, errors, errors || !NoErrors(Declare(d, decl, o).1));
      }
    case ProductionRule(_, _) => SoundWeakens(d, o, errors, errors || !NoErrors(Declare(d, decl, o).1));
    case Table => SoundWeakens(d, o, errors, errors || !NoErrors(Declare(d, decl, o).1));
  }

  /** The invariant is weaker once an error has been reported. */
  lemma SoundWeakens(d: Draft, o: Options, errors: bool, later: bool)
    requires Sound(d, o, errors)
    requires errors ==> later
    ensures Sound(d, o, later)
  {
  }

  lemma ItemDeclSound(d: Draft, k: Section, name: Spanned<string>, item: Spanned<Ast.Item>, span: Span, o: Options, errors: bool)
    requires Sound(d, o, errors)
    ensures Sound(ItemDecl(d, k, name, item, span).0, o, errors || !NoErrors(ItemDecl(d, k, name, item, span).1))
  {
    match k
    case States => StatesDeclSound(d, item, span, o, errors);
    case Alphabet => AlphabetDeclSound(d, item, span, o, errors);
    case Finals => FinalsDeclSound(d, item, span, o, errors);
    case Initial => InitialDeclSound(d, item, span, o, errors);
    case Unknown =>
  }

  lemma StatesDeclSound(d: Draft, list: Spanned<Ast.Item>, span: Span, o: Options, errors: bool)
    requires Sound(d, o, errors)
    ensures Sound(StatesDecl(d, list, span).0, o, errors)
  {
    var m := NamesSection(d.states, list, span, "states already set", "state redefined", "states cannot be empty").0;
    NamesSectionGrows(d.states, list, span, "states already set", "state redefined", "states cannot be empty");
    StatesGrowSound(d, m, o, errors);
  }

  lemma AlphabetDeclSound(d: Draft, list: Spanned<Ast.Item>, span: Span, o: Options, errors: bool)
    requires Sound(d, o, errors)
    ensures Sound(AlphabetDecl(d, list, span).0, o, errors || !NoErrors(AlphabetDecl(d, list, span).1))
  {
    var (m, logs) := LettersSection(d.alphabet, list, span);
    LettersSectionSound(d.alphabet, list, span);
    AlphabetGrowsSound(d, m, o, errors || !NoErrors(logs));
  }

  lemma InitialDeclSound(d: Draft, item: Spanned<Ast.Item>, span: Span, o: Options, errors: bool)
    requires Sound(d, o, errors)
    ensures Sound(InitialDecl(d, item, span).0, o, errors)
  {
  }

  /** More states keep the invariant. */
  lemma StatesGrowSound(d: Draft, m: map<string, Span>, o: Options, errors: bool)
    requires Sound(d, o, errors)
    requires d.states.Keys <= m.Keys
    ensures Sound(d.(states := m), o, errors)
  {
  }

  /** More letters keep the invariant, while they are single characters. */
  lemma AlphabetGrowsSound(d: Draft, m: map<string, Span>, o: Options, errors: bool)
    requires Sound(d, o, errors)
    requires d.alphabet.Keys <= m.Keys
    requires !errors ==> OneCharKeys(m)
    ensures Sound(d.(alphabet := m), o, errors)
  {
  }

  lemma FinalsDeclSound(d: Draft, list: Spanned<Ast.Item>, span: Span, o: Options, errors: bool)
    requires Sound(d, o, errors)
    ensures Sound(FinalsDecl(d, list, span).0, o, errors)
  {
    if list.value.ListItem? {
      FinalEntriesWithinStates(d.states, d.finals, list.value.elems);
    }
  }

  lemma TransitionDeclSound(d: Draft, tuple: Spanned<Ast.Tuple>, targets: seq<Spanned<Ast.Item>>, o: Options, errors: bool)
    requires Sound(d, o, errors)
    ensures Sound(TransitionDecl(d, tuple, targets, o).0, o, errors || !NoErrors(TransitionDecl(d, tuple, targets, o).1))
  {
    match Source(tuple)
    case None =>
    case Some((state, letter)) =>
      if state.value in d.states {
        var (l, logs1) := LetterOf(d.alphabet, letter, o);
        var from := From(state.value, l);
        var errors1 := errors || !NoErrors(logs1);
        TargetListSound(d.states, from, tuple.span, d.transitions, o, targets, errors1);
        var (t, logs2) := TargetList(d.states, from, tuple.span, d.transitions, o, targets);
        NoErrorsConcat(logs1, logs2);
        OnlyErrors(logs1);
      }
  }

  /** The declaration loop keeps its invariant. */
  lemma {:induction false} DeclarationsSound(items: seq<Spanned<Ast.TopLevel>>, o: Options)
    ensures Sound(Declarations(items, o).0, o, !NoErrors(Declarations(items, o).1))
    decreases |items|
  {
    if items != [] {
      var init := items[..|items| - 1];
      DeclarationsSound(init, o);
      var (d1, logs1) := Declarations(init, o);
      DeclareSound(d1, items[|items| - 1], o, !NoErrors(logs1));
      NoErrorsConcat(logs1, Declare(d1, items[|items| - 1], o).1);
    }
  }

  /** A machine compiled without an error is well formed: its initial state,
      final states, starting points and targets are declared states, its
      alphabet is non-empty and made of single characters, its letters are
      declared, epsilon moves appear only when permitted and, unless
      non-determinism is permitted, every starting point has one target. */
  lemma CompiledWellFormed(items: seq<Spanned<Ast.TopLevel>>, o: Options)
    requires NoErrors(Compiled(items, o).1)
    ensures WellFormed(Compiled(items, o).0, o)
  {
    var (d, logs1) := Declarations(items, o);
    DeclarationsSound(items, o);
    NoErrorsConcat(logs1, Finish(d).1);
    FinishChecks(d);
  }

  /** The checks after the loop: no error means an alphabet, states and an
      initial state among them. */
  lemma FinishChecks(d: Draft)
    requires d.initial.Some? ==> d.initial.value in d.states
    ensures NoErrors(Finish(d).1) ==> |d.alphabet| != 0 && |d.states| != 0 && Finish(d).0.initialState in d.states
  {
    var missing := Check(|d.alphabet| != 0, "alphabet never defined") + Check(|d.states| != 0, "states never defined");
    var (initial, logs) := DefaultChoice(d.initial, d.states, INITIAL_STATE, "initial state not defined, defaulting to 'q0'", "initial state not defined");
    NoErrorsConcat(Check(|d.alphabet| != 0, "alphabet never defined"), Check(|d.states| != 0, "states never defined"));
    NoErrorsConcat(missing, logs);
    if d.initial.None? {
      assert logs[0].level != Error ==> initial in d.states;
    }
  }

  // ---------------------------------------------------------------------
  // `Fa::parse`.

  lemma TargetListStep(states: map<string, Span>, from: From, func: Span, trans: map<From, set<To>>, o: Options, items: seq<Spanned<Ast.Item>>, i: nat)
    requires i < |items|
    ensures TargetList(states, from, func, trans, o, items[..i + 1]) ==
      (Target(states, from, func, TargetList(states, from, func, trans, o, items[..i]).0, o, items[i]).0,
       TargetList(states, from, func, trans, o, items[..i]).1 + Target(states, from, func, TargetList(states, from, func, trans, o, items[..i]).0, o, items[i]).1)
  {
    assert items[..i + 1][..i] == items[..i];
  }

  method ParseTarget(states: map<string, Span>, from: From, func: Span, trans: map<From, set<To>>, o: Options, item: Spanned<Ast.Item>, ctx: Context)
    returns (r: map<From, set<To>>)
    requires ctx.Valid()
    modifies ctx.logs
    ensures ctx.Valid()
    ensures r == Target(states, from, func, trans, o, item).0
    ensures ctx.logs.entries == old(ctx.logs.entries) + Target(states, from, func, trans, o, item).1
  {
    r := trans;
    var next := Ast.ExpectIdent(item, ctx);
    if next.None? {
      return;
    }
    if next.value !in states {
      var _ := ctx.logs.Emit(ErrorAt(UNDECLARED_STATE, item.span));
      return;
    }
    r := ParseAddTarget(trans, from, To(next.value, item.span, func), item.span, o, ctx);
  }

  method ParseTargetList(states: map<string, Span>, from: From, func: Span, t0: map<From, set<To>>, o: Options, items: seq<Spanned<Ast.Item>>, ctx: Context)
    returns (trans: map<From, set<To>>)
    requires ctx.Valid()
    modifies ctx.logs
    ensures ctx.Valid()
    ensures trans == TargetList(states, from, func, t0, o, items).0
    ensures ctx.logs.entries == old(ctx.logs.entries) + TargetList(states, from, func, t0, o, items).1
  {
    trans := t0;
    for i := 0 to |items|
      invariant ctx.Valid()
      invariant trans == TargetList(states, from, func, t0, o, items[..i]).0
      invariant ctx.logs.entries == old(ctx.logs.entries) + TargetList(states, from, func, t0, o, items[..i]).1
    {
      TargetListStep(states, from, func, t0, o, items, i);
      ghost var step := Target(states, from, func, trans, o, items[i]).1;
      trans := ParseTarget(states, from, func, trans, o, items[i], ctx);
      Appended(old(ctx.logs.entries), TargetList(states, from, func, t0, o, items[..i]).1, step);
    }
    assert items[..|items|] == items;
  }

  method ParseTransitionDecl(d: Draft, tuple: Spanned<Ast.Tuple>, targets: seq<Spanned<Ast.Item>>, o: Options, ctx: Context) returns (r: Draft)
    requires ctx.Valid()
    modifies ctx.logs
    ensures ctx.Valid()
    ensures r == TransitionDecl(d, tuple, targets, o).0
    ensures ctx.logs.entries == old(ctx.logs.entries) + TransitionDecl(d, tuple, targets, o).1
  {
    r := d;
    var source := Source(tuple);
    if source.None? {
      var _ := ctx.logs.Emit(ErrorAt(SOURCE_SHAPE, tuple.span));
      return;
    }
    var (state, letter) := source.value;
    if state.value !in d.states {
      var _ := ctx.logs.Emit(ErrorAt(UNDECLARED_STATE, state.span));
      return;
    }
    var l := ParseLetterOf(d.alphabet, letter, o, ctx);
    ghost var mid := ctx.logs.entries;
    var t := ParseTargetList(d.states, From(state.value, l), tuple.span, d.transitions, o, targets, ctx);
    Appended(old(ctx.logs.entries), LetterOf(d.alphabet, letter, o).1, TargetList(d.states, From(state.value, l), tuple.span, d.transitions, o, targets).1);
    r := d.(transitions := t);
  }

  method ParseFinalsDecl(d: Draft, list: Spanned<Ast.Item>, span: Span, ctx: Context) returns (r: Draft)
    requires ctx.Valid()
    modifies ctx.logs
    ensures ctx.Valid()
    ensures r == FinalsDecl(d, list, span).0
    ensures ctx.logs.entries == old(ctx.logs.entries) + FinalsDecl(d, list, span).1
  {
    r := d;
    ghost var pre := if |d.finals| != 0 then [ErrorAt("final states already set", span)] else [];
    if |d.finals| != 0 {
      var _ := ctx.logs.Emit(ErrorAt("final states already set", span));
    }
    var elems := Ast.ExpectSet(list, ctx);
    if elems.None? {
      return;
    }
    var f := ParseFinalEntries(d.states, d.finals, elems.value, ctx);
    Appended(old(ctx.logs.entries), pre, FinalEntries(d.states, d.finals, elems.value).1);
    r := d.(finals := f);
  }

  method ParseItemDecl(d: Draft, k: Section, name: Spanned<string>, item: Spanned<Ast.Item>, span: Span, ctx: Context) returns (r: Draft)
    requires ctx.Valid()
    modifies ctx.logs
    ensures ctx.Valid()
    ensures r == ItemDecl(d, k, name, item, span).0
    ensures ctx.logs.entries == old(ctx.logs.entries) + ItemDecl(d, k, name, item, span).1
  {
    r := d;
    match k {
      case States =>
        var m := ParseNamesSection(d.states, item, span, "states already set", "state redefined", "states cannot be empty", ctx);
        r := d.(states := m);
      case Alphabet =>
        var m := ParseLettersSection(d.alphabet, item, span, ctx);
        r := d.(alphabet := m);
      case Finals =>
        r := ParseFinalsDecl(d, item, span, ctx);
      case Initial =>
        var c := ParseChoiceSection(d.initial, d.states, item, span, "initial state already set", "initial state symbol not defined as a state", ctx);
        r := d.(initial := c);
      case Unknown =>
        var _ := ctx.logs.Emit(ErrorAt(UnknownItem(name.value), name.span));
    }
  }

  method ParseDeclaration(d: Draft, decl: Spanned<Ast.TopLevel>, o: Options, ctx: Context) returns (r: Draft)
    requires ctx.Valid()
    modifies ctx.logs
    ensures ctx.Valid()
    ensures r == Declare(d, decl, o).0
    ensures ctx.logs.entries == old(ctx.logs.entries) + Declare(d, decl, o).1
  {
    r := d;
    match decl.value {
      case ItemDecl(name, item) =>
        r := ParseItemDecl(d, SectionOf(name.value), name, item, decl.span, ctx);
      case TransitionFunc(dest, list) =>
        if ShortDelta(dest.value.0.value) {
          r := ParseTransitionDecl(d, dest.value.1, Ast.Weak(list), o, ctx);
        } else {
          var _ := ctx.logs.Emit(ErrorAt(UnknownShortFunction(dest.value.0.value), dest.span));
        }
      case ProductionRule(_, _) =>
        var _ := ctx.logs.Emit(ErrorAt("unexpected production rule", decl.span));
      case Table =>
        var _ := ctx.logs.Emit(ErrorAt("unexpected table", decl.span));
    }
  }

  lemma DeclarationsStep(items: seq<Spanned<Ast.TopLevel>>, o: Options, i: nat)
    requires i < |items|
    ensures Declarations(items[..i + 1], o) ==
      (Declare(Declarations(items[..i], o).0, items[i], o).0,
       Declarations(items[..i], o).1 + Declare(Declarations(items[..i], o).0, items[i], o).1)
  {
    assert items[..i + 1][..i] == items[..i];
  }

  method ParseFinish(d: Draft, ctx: Context) returns (fa: Fa)
    requires ctx.Valid()
    modifies ctx.logs
    ensures ctx.Valid()
    ensures fa == Finish(d).0
    ensures ctx.logs.entries == old(ctx.logs.entries) + Finish(d).1
  {
    ParseCheck(|d.alphabet| != 0, "alphabet never defined", ctx);
    ghost var a := Check(|d.alphabet| != 0, "alphabet never defined");
    ParseCheck(|d.states| != 0, "states never defined", ctx);
    ghost var b := Check(|d.states| != 0, "states never defined");
    Appended(old(ctx.logs.entries), a, b);
    var initial := ParseDefaultChoice(d.initial, d.states, INITIAL_STATE, "initial state not defined, defaulting to 'q0'", "initial state not defined", ctx);
    Appended(old(ctx.logs.entries), a + b, DefaultChoice(d.initial, d.states, INITIAL_STATE, "initial state not defined, defaulting to 'q0'", "initial state not defined").1);
    fa := Fa(initial, d.states, d.alphabet, d.finals, d.transitions);
  }

  /** `Fa::parse`: the machine the declarations describe, if and only if no
      error is in the context's log once they are read; such a machine is
      well formed. */
  method Parse(items: seq<Spanned<Ast.TopLevel>>, ctx: Context, o: Options) returns (r: Option<Fa>)
    requires ctx.Valid()
    modifies ctx.logs
    ensures ctx.Valid()
    ensures ctx.logs.entries == old(ctx.logs.entries) + Compiled(items, o).1
    ensures r.Some? <==> !ctx.ContainsErrors()
    ensures r.Some? ==> r.value == Compiled(items, o).0 && WellFormed(r.value, o)
  {
    var d := EMPTY;
    for i := 0 to |items|
      invariant ctx.Valid()
      invariant d == Declarations(items[..i], o).0
      invariant ctx.logs.entries == old(ctx.logs.entries) + Declarations(items[..i], o).1
    {
      DeclarationsStep(items, o, i);
      ghost var step := Declare(d, items[i], o).1;
      d := ParseDeclaration(d, items[i], o, ctx);
      Appended(old(ctx.logs.entries), Declarations(items[..i], o).1, step);
    }
    assert items[..|items|] == items;
    var fa := ParseFinish(d, ctx);
    Appended(old(ctx.logs.entries), Declarations(items, o).1, Finish(d).1);
    if ctx.logs.hasError {
      return None;
    }
    NoErrorsConcat(old(ctx.logs.entries), Compiled(items, o).1);
    CompiledWellFormed(items, o);
    r := Some(fa);
  }
}
