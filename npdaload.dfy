// The first loader of the pushdown automaton (`Npda::load_from_ast` in
// src/automata/npda.rs): states and stack symbols are numbered densely in the
// order they are declared, transitions are gathered into sets keyed by
// state, letter and popped symbol, and the machine is then laid out in the
// dense tables of DenseMaps.
//
// The loop over the declarations is specified by functions of the loader's
// locals (a `Draft`) returning the log entries each declaration appends.
// The tables are filled from hash maps and sets whose iteration order is
// unspecified, so the methods that fill them pick their next key freely and
// promise only what holds in every order.

module NpdaLoader {
  import opened Common
  import opened LegacyLog
  import opened DenseMaps
  import opened NpdaSimulator
  import LegacyAst
  import Automatan
  import PushdownAutomata

  /** A starting point: a state, a letter (none for an epsilon move) and the
      popped stack symbol. */
  datatype Key = Key(state: State, letter: Option<char>, symbol: Symbol)

  /** The locals of `load_from_ast` while the declarations are read. */
  datatype Draft = Draft(
    initialState: Option<u16>,
    initialStack: Option<u16>,
    states: map<string, u16>,
    symbols: map<string, u16>,
    alphabet: set<char>,
    finals: Option<set<u16>>,
    transitions: map<Key, set<To>>)

  const EMPTY: Draft := Draft(None, None, map[], map[], {}, None, map[])

  const UNDECLARED_STATE := "transition state not defined as state"
  const UNDECLARED_POPPED := "transition stack symbol not defined as stack symbol"
  const UNDECLARED_PUSHED := "transition stack symbol not defined"

  function ErrorAt(message: string, span: Span): LogEntry
  {
    LogEntry(message, Some(span), Error)
  }

  /** The identifiers among `items`. */
  function Idents(items: seq<Spanned<LegacyAst.Item>>): set<string>
  {
    set i | 0 <= i < |items| && LegacyAst.AsIdent(items[i].value).Some? :: LegacyAst.AsIdent(items[i].value).value
  }

  lemma IdentsSnoc(items: seq<Spanned<LegacyAst.Item>>)
    requires items != []
    ensures Idents(items) == Idents(items[..|items| - 1]) + Idents([items[|items| - 1]])
  {
    var init := items[..|items| - 1];
    forall x | x in Idents(items) ensures x in Idents(init) + Idents([items[|items| - 1]]) {
      var i :| 0 <= i < |items| && LegacyAst.AsIdent(items[i].value).Some? && LegacyAst.AsIdent(items[i].value).value == x;
      if i < |init| {
        assert init[i] == items[i];
      } else {
        assert [items[|items| - 1]][0] == items[i];
      }
    }
    forall x | x in Idents(init) ensures x in Idents(items) {
      var i :| 0 <= i < |init| && LegacyAst.AsIdent(init[i].value).Some? && LegacyAst.AsIdent(init[i].value).value == x;
      assert items[i] == init[i];
    }
    forall x | x in Idents([items[|items| - 1]]) ensures x in Idents(items) {
      assert items[|items| - 1] == [items[|items| - 1]][0];
    }
  }

  // ---------------------------------------------------------------------
  // Dense numbering: `Q` and `T` (or gamma).

  /** Every index is below the number of names. */
  predicate Bounded(m: map<string, u16>)
  {
    forall k :: k in m ==> (m[k] as int) < |m|
  }

  /** No two names share an index. */
  predicate Injective(m: map<string, u16>)
  {
    forall a, b :: a in m && b in m && a != b ==> m[a] != m[b]
  }

  /** The index a new name gets: the number of names so far, or 0 with an
      error once every 16-bit index is taken. */
  function NextIndex(m: map<string, u16>, at: Span, tooMany: string): (u16, seq<LogEntry>)
  {
    if |m| < 0x1_0000 then (|m| as u16, []) else (0, [ErrorAt(tooMany, at)])
  }

  /** One name: a new name gets the next index, a name already present keeps
      its index and is reported. */
  function NumberEntry(m: map<string, u16>, item: Spanned<LegacyAst.Item>, tooMany: string, redefined: string): (r: (map<string, u16>, seq<LogEntry>))
  {
    match LegacyAst.AsIdent(item.value)
    case None => (m, [LegacyAst.Mismatch("ident", item)])
    case Some(name) =>
      var (index, logs) := NextIndex(m, item.span, tooMany);
      if name in m then (m, logs + [ErrorAt(redefined, item.span)]) else (m[name := index], logs)
  }

  function NumberEntries(m: map<string, u16>, items: seq<Spanned<LegacyAst.Item>>, tooMany: string, redefined: string): (r: (map<string, u16>, seq<LogEntry>))
    decreases |items|
  {
    if items == [] then (m, [])
    else
      var (m1, logs1) := NumberEntries(m, items[..|items| - 1], tooMany, redefined);
      var (m2, logs2) := NumberEntry(m1, items[|items| - 1], tooMany, redefined);
      (m2, logs1 + logs2)
  }

  /** The elements of a numbered section, and the error for an empty one. */
  function NumbersBody(m: map<string, u16>, list: Spanned<LegacyAst.Item>, span: Span, tooMany: string, redefined: string, empty: string)
    : (r: (map<string, u16>, seq<LogEntry>))
  {
    match LegacyAst.AsElements(list.value)
    case None => (m, [LegacyAst.Mismatch("set", list)])
    case Some(elems) =>
      var (m1, logs) := NumberEntries(m, elems, tooMany, redefined);
      (m1, logs + (if elems == [] then [ErrorAt(empty, span)] else []))
  }

  /** A numbered section; a second one is reported and adds to the first. */
  function NumbersSection(m: map<string, u16>, list: Spanned<LegacyAst.Item>, span: Span, already: string, tooMany: string, redefined: string, empty: string)
    : (r: (map<string, u16>, seq<LogEntry>))
  {
    var (m1, logs) := NumbersBody(m, list, span, tooMany, redefined, empty);
    (m1, (if |m| != 0 then [ErrorAt(already, span)] else []) + logs)
  }

  /** One name keeps the numbering bounded and every earlier index, and
      keeps it injective unless it reports an error. A new name gets the
      number of names before it, and a name already present changes nothing
      and is reported. */
  lemma NumberEntrySound(m: map<string, u16>, item: Spanned<LegacyAst.Item>, tooMany: string, redefined: string)
    requires Bounded(m)
    ensures var (m1, logs) := NumberEntry(m, item, tooMany, redefined);
      && Bounded(m1)
      && (forall k :: k in m ==> k in m1 && m1[k] == m[k])
      && (Injective(m) && NoErrors(logs) ==> Injective(m1))
      && (LegacyAst.AsIdent(item.value).Some? && LegacyAst.AsIdent(item.value).value in m ==> m1 == m && !NoErrors(logs))
      && (LegacyAst.AsIdent(item.value).Some? && LegacyAst.AsIdent(item.value).value !in m && |m| < 0x1_0000 ==>
            m1 == m[LegacyAst.AsIdent(item.value).value := |m| as u16])
  {
    var (m1, logs) := NumberEntry(m, item, tooMany, redefined);
    match LegacyAst.AsIdent(item.value)
    case None =>
    case Some(name) =>
      if name in m {
        assert (logs[|logs| - 1]).level == Error;
      } else if |m| < 0x1_0000 {
        assert |m1| == |m| + 1;
        if Injective(m) {
          forall a, b | a in m1 && b in m1 && a != b ensures m1[a] != m1[b] {
            if a == name {
              assert (m[b] as int) < |m|;
            } else if b == name {
              assert (m[a] as int) < |m|;
            }
          }
        }
      } else {
        assert logs[0].level == Error;
      }
  }

  /** A section's names: the earlier ones keep their index, and the
      numbering stays bounded, and injective unless an error was reported. */
  lemma {:induction false} NumberEntriesSound(m: map<string, u16>, items: seq<Spanned<LegacyAst.Item>>, tooMany: string, redefined: string)
    requires Bounded(m)
    ensures var (m1, logs) := NumberEntries(m, items, tooMany, redefined);
      && Bounded(m1)
      && (forall k :: k in m ==> k in m1 && m1[k] == m[k])
      && (Injective(m) && NoErrors(logs) ==> Injective(m1))
    decreases |items|
  {
    if items != [] {
      var init := items[..|items| - 1];
      var last := items[|items| - 1];
      NumberEntriesSound(m, init, tooMany, redefined);
      var r1 := NumberEntries(m, init, tooMany, redefined);
      NumberEntrySound(r1.0, last, tooMany, redefined);
      var r2 := NumberEntry(r1.0, last, tooMany, redefined);
      assert NumberEntries(m, items, tooMany, redefined) == (r2.0, r1.1 + r2.1);
      NoErrorsConcat(r1.1, r2.1);
    }
  }

  /** The names after a section are exactly the earlier ones and the
      identifiers of the section. */
  lemma {:induction false} NumberEntriesKeys(m: map<string, u16>, items: seq<Spanned<LegacyAst.Item>>, tooMany: string, redefined: string)
    ensures NumberEntries(m, items, tooMany, redefined).0.Keys == m.Keys + Idents(items)
    decreases |items|
  {
    if items == [] {
      assert Idents(items) == {};
    } else {
      var init := items[..|items| - 1];
      var last := items[|items| - 1];
      NumberEntriesKeys(m, init, tooMany, redefined);
      var m1 := NumberEntries(m, init, tooMany, redefined).0;
      NumberEntryKeys(m1, last, tooMany, redefined);
      IdentsSnoc(items);
    }
  }

  lemma NumberEntryKeys(m: map<string, u16>, item: Spanned<LegacyAst.Item>, tooMany: string, redefined: string)
    ensures NumberEntry(m, item, tooMany, redefined).0.Keys == m.Keys + Idents([item])
  {
    assert [item][0] == item;
    match LegacyAst.AsIdent(item.value)
    case None =>
      assert Idents([item]) == {};
    case Some(name) =>
      assert Idents([item]) == {name};
  }

  lemma NumbersSectionSound(m: map<string, u16>, list: Spanned<LegacyAst.Item>, span: Span, already: string, tooMany: string, redefined: string, empty: string)
    requires Bounded(m)
    ensures var (m1, logs) := NumbersSection(m, list, span, already, tooMany, redefined, empty);
      && Bounded(m1)
      && |m| <= |m1|
      && (forall k :: k in m ==> k in m1 && m1[k] == m[k])
      && (Injective(m) && NoErrors(logs) ==> Injective(m1))
  {
    var pre := if |m| != 0 then [ErrorAt(already, span)] else [];
    if list.value.ListItem? {
      NumberEntriesSound(m, list.value.elems, tooMany, redefined);
      NumbersSectionShape(m, list, span, already, tooMany, redefined, empty);
      var r := NumberEntries(m, list.value.elems, tooMany, redefined);
      assert r.0.Keys == m.Keys + (r.0.Keys - m.Keys);
      var tail := if list.value.elems == [] then [ErrorAt(empty, span)] else [];
      NoErrorsConcat(pre + r.1, tail);
      NoErrorsConcat(pre, r.1);
    }
  }

  // ---------------------------------------------------------------------
  // The alphabet: `E`, sigma or capital sigma.

  /** The letter a name stands for: its first character, or the NUL
      character for an empty name. */
  function FirstChar(name: string): char
  {
    if name == [] then '\0' else name[0]
  }

  /** One letter: a name of several characters is reported but its first
      character is still added; a letter already present is reported. */
  function LetterEntry(a: set<char>, item: Spanned<LegacyAst.Item>): (r: (set<char>, seq<LogEntry>))
  {
    match LegacyAst.AsIdent(item.value)
    case None => (a, [LegacyAst.Mismatch("ident", item)])
    case Some(name) =>
      var logs := if |name| != 1 then [ErrorAt("letter cannot be longer than one char", item.span)] else [];
      if FirstChar(name) in a then (a, logs + [ErrorAt("letter redefined", item.span)]) else (a + {FirstChar(name)}, logs)
  }

  function LetterEntries(a: set<char>, items: seq<Spanned<LegacyAst.Item>>): (r: (set<char>, seq<LogEntry>))
    decreases |items|
  {
    if items == [] then (a, [])
    else
      var (a1, logs1) := LetterEntries(a, items[..|items| - 1]);
      var (a2, logs2) := LetterEntry(a1, items[|items| - 1]);
      (a2, logs1 + logs2)
  }

  /** The first characters of the identifiers among `items`. */
  function Letters(items: seq<Spanned<LegacyAst.Item>>): set<char>
  {
    set i | 0 <= i < |items| && LegacyAst.AsIdent(items[i].value).Some? :: FirstChar(LegacyAst.AsIdent(items[i].value).value)
  }

  /** An identifier of exactly one character. */
  predicate OneChar(item: Spanned<LegacyAst.Item>)
  {
    LegacyAst.AsIdent(item.value).Some? && |LegacyAst.AsIdent(item.value).value| == 1
  }

  lemma LettersSnoc(items: seq<Spanned<LegacyAst.Item>>)
    requires items != []
    ensures Letters(items) == Letters(items[..|items| - 1]) + Letters([items[|items| - 1]])
  {
    var init := items[..|items| - 1];
    forall x | x in Letters(items) ensures x in Letters(init) + Letters([items[|items| - 1]]) {
      var i :| 0 <= i < |items| && LegacyAst.AsIdent(items[i].value).Some? && FirstChar(LegacyAst.AsIdent(items[i].value).value) == x;
      if i < |init| {
        assert init[i] == items[i];
      } else {
        assert [items[|items| - 1]][0] == items[i];
      }
    }
    forall x | x in Letters(init) ensures x in Letters(items) {
      var i :| 0 <= i < |init| && LegacyAst.AsIdent(init[i].value).Some? && FirstChar(LegacyAst.AsIdent(init[i].value).value) == x;
      assert items[i] == init[i];
    }
    forall x | x in Letters([items[|items| - 1]]) ensures x in Letters(items) {
      assert items[|items| - 1] == [items[|items| - 1]][0];
    }
  }

  /** The alphabet gains exactly the first characters of the section's
      identifiers, and without an error every element is a one-character
      identifier. */
  lemma {:induction false} LetterEntriesSound(a: set<char>, items: seq<Spanned<LegacyAst.Item>>)
    ensures LetterEntries(a, items).0 == a + Letters(items)
    ensures NoErrors(LetterEntries(a, items).1) ==> forall i :: 0 <= i < |items| ==> OneChar(items[i])
    decreases |items|
  {
    if items == [] {
      assert Letters(items) == {};
    } else {
      var init := items[..|items| - 1];
      var last := items[|items| - 1];
      LetterEntriesSound(a, init);
      LettersSnoc(items);
      var (a1, logs1) := LetterEntries(a, init);
      var (a2, logs2) := LetterEntry(a1, last);
      NoErrorsConcat(logs1, logs2);
      assert [last][0] == last;
      match LegacyAst.AsIdent(last.value)
      case None =>
        assert Letters([last]) == {};
        assert logs2[0].level == Error;
      case Some(name) =>
        assert Letters([last]) == {FirstChar(name)};
        if |name| != 1 {
          assert logs2[0].level == Error;
        }
      if NoErrors(logs1 + logs2) {
        forall i | 0 <= i < |items| ensures OneChar(items[i]) {
          if i < |init| {
            assert items[i] == init[i];
          }
        }
      }
    }
  }

  function AlphabetBody(a: set<char>, list: Spanned<LegacyAst.Item>, span: Span): (r: (set<char>, seq<LogEntry>))
  {
    match LegacyAst.AsElements(list.value)
    case None => (a, [LegacyAst.Mismatch("set", list)])
    case Some(elems) =>
      var (a1, logs) := LetterEntries(a, elems);
      (a1, logs + (if elems == [] then [ErrorAt("alphabet cannot be empty", span)] else []))
  }

  function AlphabetSection(a: set<char>, list: Spanned<LegacyAst.Item>, span: Span): (r: (set<char>, seq<LogEntry>))
  {
    var (a1, logs) := AlphabetBody(a, list, span);
    (a1, (if |a| != 0 then [ErrorAt("alphabet already set", span)] else []) + logs)
  }

  // ---------------------------------------------------------------------
  // Final states: `F`.

  /** Every index of `f` is below `n`. */
  predicate Below(f: set<u16>, n: nat)
  {
    forall q :: q in f ==> (q as int) < n
  }

  function FinalEntry(states: map<string, u16>, f: set<u16>, item: Spanned<LegacyAst.Item>): (r: (set<u16>, seq<LogEntry>))
  {
    match LegacyAst.AsIdent(item.value)
    case None => (f, [LegacyAst.Mismatch("ident", item)])
    case Some(name) =>
      if name !in states then (f, [ErrorAt("final state not defined in set of states", item.span)])
      else if states[name] in f then (f, [ErrorAt("final state redefined", item.span)])
      else (f + {states[name]}, [])
  }

  function FinalEntries(states: map<string, u16>, f: set<u16>, items: seq<Spanned<LegacyAst.Item>>): (r: (set<u16>, seq<LogEntry>))
    decreases |items|
  {
    if items == [] then (f, [])
    else
      var (f1, logs1) := FinalEntries(states, f, items[..|items| - 1]);
      var (f2, logs2) := FinalEntry(states, f1, items[|items| - 1]);
      (f2, logs1 + logs2)
  }

  /** Final states are always states. */
  lemma {:induction false} FinalEntriesWithin(states: map<string, u16>, f: set<u16>, items: seq<Spanned<LegacyAst.Item>>)
    requires Bounded(states) && Below(f, |states|)
    ensures Below(FinalEntries(states, f, items).0, |states|)
    decreases |items|
  {
    if items != [] {
      FinalEntriesWithin(states, f, items[..|items| - 1]);
    }
  }

  /** `F`: a fresh set each time, which replaces the previous one once the
      list is read. */
  function FinalsSection(finals: Option<set<u16>>, states: map<string, u16>, list: Spanned<LegacyAst.Item>, span: Span)
    : (r: (Option<set<u16>>, seq<LogEntry>))
  {
    var pre := if finals.Some? then [ErrorAt("final states already set", span)] else [];
    var (f, logs) := FinalsList(states, list);
    (if f.Some? then f else finals, pre + logs)
  }

  /** The set of final states itself; nothing when the item is not a set. */
  function FinalsList(states: map<string, u16>, list: Spanned<LegacyAst.Item>): (r: (Option<set<u16>>, seq<LogEntry>))
  {
    match LegacyAst.AsElements(list.value)
    case None => (None, [LegacyAst.Mismatch("set", list)])
    case Some(elems) =>
      var (f, logs) := FinalEntries(states, {}, elems);
      (Some(f), logs)
  }

  // ---------------------------------------------------------------------
  // The initial state (`I`, `q0`) and initial stack symbol (`S`, `z0`).

  /** The item must be an identifier naming a declared entry; a second
      choice is reported, and an undeclared one keeps the previous choice. */
  function ChoiceSection(current: Option<u16>, m: map<string, u16>, item: Spanned<LegacyAst.Item>, span: Span, already: string, undeclared: string)
    : (r: (Option<u16>, seq<LogEntry>))
  {
    match LegacyAst.AsIdent(item.value)
    case None => (current, [ErrorAt("expected ident", item.span)])
    case Some(name) =>
      var pre := if current.Some? then [ErrorAt(already, span)] else [];
      if name in m then (Some(m[name]), pre) else (current, pre + [ErrorAt(undeclared, item.span)])
  }

  /** A choice is the earlier one or the index of a declared name. */
  lemma ChoiceSectionDeclared(current: Option<u16>, m: map<string, u16>, item: Spanned<LegacyAst.Item>, span: Span, already: string, undeclared: string)
    ensures var c := ChoiceSection(current, m, item, span, already, undeclared).0;
      c.Some? ==> c == current || exists k :: k in m && m[k] == c.value
  {
    if LegacyAst.AsIdent(item.value).Some? && LegacyAst.AsIdent(item.value).value in m {
      var k := LegacyAst.AsIdent(item.value).value;
      assert m[k] == ChoiceSection(current, m, item, span, already, undeclared).0.value;
    }
  }

  // ---------------------------------------------------------------------
  // Transitions: `d`, `delta` or small delta.

  /** The letter of a starting point: none for an epsilon, the character of
      a one-character name (reported when it is not in the alphabet), and
      for any other name an error and none. */
  function LetterKey(alphabet: set<char>, letter: Spanned<LegacyAst.Symbol>): (r: (Option<char>, seq<LogEntry>))
  {
    match letter.value
    case Epsilon => (None, [])
    case Ident(name) =>
      if |name| == 1 then (Some(name[0]), if name[0] in alphabet then [] else [ErrorAt("transition letter not defined in alphabet", letter.span)])
      else (None, [ErrorAt("transition letter can only be single character", letter.span)])
  }

  /** Without an error, the letter is an epsilon or a letter of the
      alphabet; a name of several characters always reports one. */
  lemma LetterKeySound(alphabet: set<char>, letter: Spanned<LegacyAst.Symbol>)
    ensures var (c, logs) := LetterKey(alphabet, letter);
      && (NoErrors(logs) ==> c.None? || c.value in alphabet)
      && (c.None? <==> letter.value.Epsilon? || |letter.value.name| != 1)
      && (letter.value.Ident? && |letter.value.name| != 1 ==> !NoErrors(logs))
  {
    var (c, logs) := LetterKey(alphabet, letter);
    if logs != [] {
      assert logs[0].level == Error;
    }
  }

  predicate IsEpsilon(item: Spanned<LegacyAst.Item>)
  {
    item.value.SymbolItem? && item.value.symbol.Epsilon?
  }

  /** An identifier naming a stack symbol. */
  predicate Declared(symbols: map<string, u16>, item: Spanned<LegacyAst.Item>)
  {
    LegacyAst.AsIdent(item.value).Some? && LegacyAst.AsIdent(item.value).value in symbols
  }

  /** One pushed item: an epsilon is dropped silently, anything but a
      declared stack symbol is dropped with an error. */
  function PushSymbol(symbols: map<string, u16>, item: Spanned<LegacyAst.Item>): (r: (seq<Symbol>, seq<LogEntry>))
  {
    if IsEpsilon(item) then ([], [])
    else
      match LegacyAst.AsIdent(item.value)
      case None => ([], [LegacyAst.Mismatch("ident", item)])
      case Some(name) =>
        if name in symbols then ([Symbol(symbols[name])], []) else ([], [ErrorAt(UNDECLARED_PUSHED, item.span)])
  }

  /** The pushed list, read from its last item to its first. */
  function PushList(symbols: map<string, u16>, items: seq<Spanned<LegacyAst.Item>>): (r: (seq<Symbol>, seq<LogEntry>))
    decreases |items|
  {
    if items == [] then ([], [])
    else
      var (s1, logs1) := PushList(symbols, items[1..]);
      var (s2, logs2) := PushSymbol(symbols, items[0]);
      (s1 + s2, logs1 + logs2)
  }

  /** The declared stack symbols of a list, in the order they are written. */
  function Kept(symbols: map<string, u16>, items: seq<Spanned<LegacyAst.Item>>): seq<Symbol>
    decreases |items|
  {
    if items == [] then []
    else (if Declared(symbols, items[0]) then [Symbol(symbols[LegacyAst.AsIdent(items[0].value).value])] else []) + Kept(symbols, items[1..])
  }

  /** What is pushed is exactly the declared stack symbols of the list,
      reversed, so that the first one written ends on top. */
  lemma {:induction false} PushListReversed(symbols: map<string, u16>, items: seq<Spanned<LegacyAst.Item>>)
    ensures PushList(symbols, items).0 == PushdownAutomata.Reverse(Kept(symbols, items))
    decreases |items|
  {
    if items != [] {
      PushListReversed(symbols, items[1..]);
      var head := if Declared(symbols, items[0]) then [Symbol(symbols[LegacyAst.AsIdent(items[0].value).value])] else [];
      var s := head + Kept(symbols, items[1..]);
      if head != [] {
        assert s[0] == head[0] && s[1..] == Kept(symbols, items[1..]);
      } else {
        assert s == Kept(symbols, items[1..]);
      }
    }
  }

  /** Nothing is reported exactly when every item is an epsilon or a
      declared stack symbol. */
  lemma {:induction false} PushListQuiet(symbols: map<string, u16>, items: seq<Spanned<LegacyAst.Item>>)
    ensures PushList(symbols, items).1 == [] <==> forall i :: 0 <= i < |items| ==> IsEpsilon(items[i]) || Declared(symbols, items[i])
    decreases |items|
  {
    if items != [] {
      PushListQuiet(symbols, items[1..]);
      assert forall i :: 1 <= i < |items| ==> items[i] == items[1..][i - 1];
    }
  }

  /** Every symbol of `s` is below `n`. */
  predicate SymbolsBelow(s: seq<Symbol>, n: nat)
  {
    forall i :: 0 <= i < |s| ==> (s[i].index as int) < n
  }

  /** Every pushed symbol is a declared stack symbol. */
  lemma {:induction false} PushListDeclared(symbols: map<string, u16>, items: seq<Spanned<LegacyAst.Item>>)
    requires Bounded(symbols)
    ensures SymbolsBelow(PushList(symbols, items).0, |symbols|)
    decreases |items|
  {
    if items != [] {
      PushListDeclared(symbols, items[1..]);
      var s1 := PushList(symbols, items[1..]).0;
      var s2 := PushSymbol(symbols, items[0]).0;
      assert SymbolsBelow(s2, |symbols|);
      assert PushList(symbols, items).0 == s1 + s2;
      forall i | 0 <= i < |s1 + s2| ensures ((s1 + s2)[i].index as int) < |symbols| {
        if i >= |s1| {
          assert (s1 + s2)[i] == s2[i - |s1|];
        } else {
          assert (s1 + s2)[i] == s1[i];
        }
      }
    }
  }

  /** One target: a tuple of a declared state and the symbols to push. A
      target already present is only a warning. */
  function Target(states: map<string, u16>, symbols: map<string, u16>, key: Key, trans: map<Key, set<To>>, item: Spanned<LegacyAst.Item>)
    : (r: (map<Key, set<To>>, seq<LogEntry>))
  {
    match LegacyAst.AsTuple(item)
    case None => (trans, [LegacyAst.Mismatch("tuple", item)])
    case Some(t) => Move(states, symbols, key, trans, t, item.span)
  }

  /** The target tuple `(state, pushed)` of the item at `span`. */
  function Move(states: map<string, u16>, symbols: map<string, u16>, key: Key, trans: map<Key, set<To>>, t: Spanned<LegacyAst.Tuple>, span: Span)
    : (r: (map<Key, set<To>>, seq<LogEntry>))
  {
    match LegacyAst.NpdaMove(t)
    case None => (trans, [ErrorAt(LegacyAst.NPDA_TARGET_SHAPE, t.span)])
    case Some((next, push)) =>
      if next.value !in states then (trans, [ErrorAt(UNDECLARED_STATE, next.span)])
      else MoveTo(symbols, key, trans, states[next.value], push, span)
  }

  /** A target whose state is declared: the pushed symbols are resolved and
      the target joins the set under `key`. */
  function MoveTo(symbols: map<string, u16>, key: Key, trans: map<Key, set<To>>, next: u16, push: seq<Spanned<LegacyAst.Item>>, span: Span)
    : (r: (map<Key, set<To>>, seq<LogEntry>))
  {
    var (stack, logs) := PushList(symbols, push);
    var entry := if key in trans then trans[key] else {};
    var to := To(State(next), stack);
    (trans[key := entry + {to}], logs + (if to in entry then [LogEntry("duplicate transition", Some(span), Warning)] else []))
  }

  function TargetList(states: map<string, u16>, symbols: map<string, u16>, key: Key, trans: map<Key, set<To>>, items: seq<Spanned<LegacyAst.Item>>)
    : (r: (map<Key, set<To>>, seq<LogEntry>))
    decreases |items|
  {
    if items == [] then (trans, [])
    else
      var (t1, logs1) := TargetList(states, symbols, key, trans, items[..|items| - 1]);
      var (t2, logs2) := Target(states, symbols, key, t1, items[|items| - 1]);
      (t2, logs1 + logs2)
  }

  /** A transition function `d(state, letter, symbol) = targets`. */
  function TransitionDecl(d: Draft, tuple: Spanned<LegacyAst.Tuple>, targets: seq<Spanned<LegacyAst.Item>>): (r: (Draft, seq<LogEntry>))
    ensures r.0 == d.(transitions := r.0.transitions)
  {
    match LegacyAst.NpdaSource(tuple)
    case None => (d, [ErrorAt(LegacyAst.NPDA_SOURCE_SHAPE, tuple.span)])
    case Some((state, letter, symbol)) =>
      if state.value !in d.states then (d, [ErrorAt(UNDECLARED_STATE, state.span)])
      else if symbol.value !in d.symbols then (d, [ErrorAt(UNDECLARED_POPPED, symbol.span)])
      else
        var (c, logs1) := LetterKey(d.alphabet, letter);
        var key := Key(State(d.states[state.value]), c, Symbol(d.symbols[symbol.value]));
        var (t, logs2) := TargetList(d.states, d.symbols, key, d.transitions, targets);
        (d.(transitions := t), logs1 + logs2)
  }

  // ---------------------------------------------------------------------
  // Declarations.

  /** `name = item`; the section names are those of the current PDA
      compiler. */
  function ItemDecl(d: Draft, k: PushdownAutomata.Section, name: Spanned<string>, item: Spanned<LegacyAst.Item>, span: Span): (r: (Draft, seq<LogEntry>))
  {
    match k
    case States =>
      var (m, logs) := NumbersSection(d.states, item, span, "states already set", "too many states defined", "state redefined", "states cannot be empty");
      (d.(states := m), logs)
    case Alphabet =>
      var (a, logs) := AlphabetSection(d.alphabet, item, span);
      (d.(alphabet := a), logs)
    case Finals =>
      var (f, logs) := FinalsSection(d.finals, d.states, item, span);
      (d.(finals := f), logs)
    case StackSymbols =>
      var (m, logs) := NumbersSection(d.symbols, item, span, "stack symbols already set", "too many stack symbols defined", "stack symbol redefined", "stack symbols cannot be empty");
      (d.(symbols := m), logs)
    case Initial =>
      var (c, logs) := ChoiceSection(d.initialState, d.states, item, span, "initial state already set", "initial state symbol not defined as a state");
      (d.(initialState := c), logs)
    case InitialStack =>
      var (c, logs) := ChoiceSection(d.initialStack, d.symbols, item, span, "initial stack already set", "initial stack symbol not defined as a stack symbol");
      (d.(initialStack := c), logs)
    case Unknown => (d, [ErrorAt(Automatan.UnknownItem(name.value), name.span)])
  }

  /** One declaration of the loop in `load_from_ast`. */
  function Declare(d: Draft, decl: Spanned<LegacyAst.TopLevel>): (r: (Draft, seq<LogEntry>))
  {
    match decl.value
    case ItemDecl(name, item) => ItemDecl(d, PushdownAutomata.SectionOf(name.value), name, item, decl.span)
    case TransitionFunc(dest, list) =>
      if Automatan.ShortDelta(dest.value.0.value) then TransitionDecl(d, dest.value.1, LegacyAst.Weak(list))
      else (d, [ErrorAt(Automatan.UnknownShortFunction(dest.value.0.value), dest.span)])
    case ProductionRule(_, _) => (d, [ErrorAt("unexpected production rule", decl.span)])
    case Table => (d, [ErrorAt("unexpected table", decl.span)])
  }

  function Declarations(items: seq<Spanned<LegacyAst.TopLevel>>): (r: (Draft, seq<LogEntry>))
    decreases |items|
  {
    if items == [] then (EMPTY, [])
    else
      var (d1, logs1) := Declarations(items[..|items| - 1]);
      var (d2, logs2) := Declare(d1, items[|items| - 1]);
      (d2, logs1 + logs2)
  }

  /** The error a check after the loop reports when it fails. */
  function Check(ok: bool, message: string): (r: seq<LogEntry>)
    ensures NoErrors(r) <==> ok
  {
    if ok then []
    else
      var r := [LogEntry(message, None, Error)];
      assert r[0].level == Error;
      r
  }

  /** What is missing after the loop. */
  function Missing(d: Draft): (r: seq<LogEntry>)
  {
    Check(|d.symbols| != 0, "stack symbols never defined") +
    Check(|d.alphabet| != 0, "alphabet never defined") +
    Check(|d.states| != 0, "states never defined")
  }

  /** A missing choice falls back to the index of `fallback`: a warning when
      that name is declared, an error and index 0 otherwise. */
  function DefaultIndex(current: Option<u16>, m: map<string, u16>, fallback: string, warning: string, error: string)
    : (r: (u16, seq<LogEntry>))
    ensures current.Some? ==> r == (current.value, [])
    ensures current.None? ==> |r.1| == 1 && (r.1[0].level == Error <==> fallback !in m)
    ensures current.None? && fallback in m ==> r.0 == m[fallback]
  {
    match current
    case Some(i) => (i, [])
    case None =>
      if fallback in m then (m[fallback], [LogEntry(warning, None, Warning)])
      else (0, [LogEntry(error, None, Error)])
  }

  /** After the loop: the checks, then the initial stack symbol, then the
      initial state. */
  function Ending(d: Draft): (r: (u16, u16, seq<LogEntry>))
  {
    var (stack, logs1) := DefaultIndex(d.initialStack, d.symbols, "z0", "initial stack symbol not defined, defaulting to 'z0'", "initial stack symbol not defined");
    var (state, logs2) := DefaultIndex(d.initialState, d.states, "q0", "initial state not defined, defaulting to 'q0'", "initial state not defined");
    (stack, state, Missing(d) + logs1 + logs2)
  }

  /** Everything `load_from_ast` logs. */
  function LoadLogs(items: seq<Spanned<LegacyAst.TopLevel>>): seq<LogEntry>
  {
    var (d, logs) := Declarations(items);
    logs + Ending(d).2
  }

  // ---------------------------------------------------------------------
  // What the declarations keep true.

  predicate InRange(k: Key, nStates: nat, nSymbols: nat)
  {
    (k.state.index as int) < nStates && (k.symbol.index as int) < nSymbols
  }

  predicate GoodTarget(x: To, nStates: nat, nSymbols: nat)
  {
    (x.state.index as int) < nStates && SymbolsBelow(x.stack, nSymbols)
  }

  /** Every starting point and every target names a state and stack
      symbols that are numbered. */
  predicate GoodTable(t: map<Key, set<To>>, nStates: nat, nSymbols: nat)
  {
    && (forall k :: k in t ==> InRange(k, nStates, nSymbols))
    && (forall k, x :: k in t && x in t[k] ==> GoodTarget(x, nStates, nSymbols))
  }

  /** Every letter of a starting point is in the alphabet. */
  predicate LettersDeclared(t: map<Key, set<To>>, alphabet: set<char>)
  {
    forall k :: k in t && k.letter.Some? ==> k.letter.value in alphabet
  }

  /** The invariant of the declaration loop: the numberings are bounded,
      and injective unless an error was reported; every index held refers to
      a numbered state or stack symbol; and unless an error was reported
      every letter of a transition is in the alphabet. */
  predicate Sound(d: Draft, errors: bool)
  {
    && Bounded(d.states) && Bounded(d.symbols)
    && (!errors ==> Injective(d.states) && Injective(d.symbols))
    && (d.initialState.Some? ==> (d.initialState.value as int) < |d.states|)
    && (d.initialStack.Some? ==> (d.initialStack.value as int) < |d.symbols|)
    && (d.finals.Some? ==> Below(d.finals.value, |d.states|))
    && GoodTable(d.transitions, |d.states|, |d.symbols|)
    && (!errors ==> LettersDeclared(d.transitions, d.alphabet))
  }

  lemma TargetSound(states: map<string, u16>, symbols: map<string, u16>, key: Key, trans: map<Key, set<To>>, item: Spanned<LegacyAst.Item>)
    requires Bounded(states) && Bounded(symbols)
    requires GoodTable(trans, |states|, |symbols|) && InRange(key, |states|, |symbols|)
    ensures var t := Target(states, symbols, key, trans, item).0;
      GoodTable(t, |states|, |symbols|) && t.Keys <= trans.Keys + {key}
  {
    var tuple := LegacyAst.AsTuple(item);
    if tuple.Some? && LegacyAst.NpdaMove(tuple.value).Some? {
      assert Target(states, symbols, key, trans, item) == Move(states, symbols, key, trans, tuple.value, item.span);
      var (next, push) := LegacyAst.NpdaMove(tuple.value).value;
      if next.value in states {
        PushListDeclared(symbols, push);
      }
    }
  }

  lemma {:induction false} TargetListSound(states: map<string, u16>, symbols: map<string, u16>, key: Key, trans: map<Key, set<To>>, items: seq<Spanned<LegacyAst.Item>>)
    requires Bounded(states) && Bounded(symbols)
    requires GoodTable(trans, |states|, |symbols|) && InRange(key, |states|, |symbols|)
    ensures var t := TargetList(states, symbols, key, trans, items).0;
      GoodTable(t, |states|, |symbols|) && t.Keys <= trans.Keys + {key}
    decreases |items|
  {
    if items != [] {
      var init := items[..|items| - 1];
      TargetListSound(states, symbols, key, trans, init);
      TargetSound(states, symbols, key, TargetList(states, symbols, key, trans, init).0, items[|items| - 1]);
    }
  }

  lemma TransitionDeclSound(d: Draft, tuple: Spanned<LegacyAst.Tuple>, targets: seq<Spanned<LegacyAst.Item>>, errors: bool)
    requires Sound(d, errors)
    ensures Sound(TransitionDecl(d, tuple, targets).0, errors || !NoErrors(TransitionDecl(d, tuple, targets).1))
  {
    match LegacyAst.NpdaSource(tuple)
    case None =>
    case Some((state, letter, symbol)) =>
      if state.value in d.states && symbol.value in d.symbols {
        var (c, logs1) := LetterKey(d.alphabet, letter);
        LetterKeySound(d.alphabet, letter);
        var key := Key(State(d.states[state.value]), c, Symbol(d.symbols[symbol.value]));
        TargetListSound(d.states, d.symbols, key, d.transitions, targets);
        NoErrorsConcat(logs1, TargetList(d.states, d.symbols, key, d.transitions, targets).1);
      }
  }

  /** More states, stack symbols or letters keep the invariant, as long as
      the numberings stay bounded and, without an error, injective. */
  lemma GrowsSound(d: Draft, e: Draft, errors: bool)
    requires Sound(d, errors)
    requires e == d.(states := e.states, symbols := e.symbols, alphabet := e.alphabet)
    requires Bounded(e.states) && Bounded(e.symbols)
    requires |d.states| <= |e.states| && |d.symbols| <= |e.symbols| && d.alphabet <= e.alphabet
    requires !errors ==> Injective(e.states) && Injective(e.symbols)
    ensures Sound(e, errors)
  {
    forall k | k in e.transitions ensures InRange(k, |e.states|, |e.symbols|) {
      assert InRange(k, |d.states|, |d.symbols|);
    }
    forall k, x | k in e.transitions && x in e.transitions[k] ensures GoodTarget(x, |e.states|, |e.symbols|) {
      assert GoodTarget(x, |d.states|, |d.symbols|);
    }
  }

  lemma SoundWeakens(d: Draft, errors: bool, later: bool)
    requires Sound(d, errors)
    requires errors ==> later
    ensures Sound(d, later)
  {
  }

  lemma NumbersDeclSound(d: Draft, states: bool, list: Spanned<LegacyAst.Item>, span: Span, already: string, tooMany: string, redefined: string, empty: string, errors: bool)
    requires Sound(d, errors)
    ensures var (m, logs) := NumbersSection(if states then d.states else d.symbols, list, span, already, tooMany, redefined, empty);
      Sound(if states then d.(states := m) else d.(symbols := m), errors || !NoErrors(logs))
  {
    var m0 := if states then d.states else d.symbols;
    var (m, logs) := NumbersSection(m0, list, span, already, tooMany, redefined, empty);
    NumbersSectionSound(m0, list, span, already, tooMany, redefined, empty);
    GrowsSound(d, if states then d.(states := m) else d.(symbols := m), errors || !NoErrors(logs));
  }

  lemma AlphabetDeclSound(d: Draft, list: Spanned<LegacyAst.Item>, span: Span, errors: bool)
    requires Sound(d, errors)
    ensures Sound(d.(alphabet := AlphabetSection(d.alphabet, list, span).0), errors)
  {
    if list.value.ListItem? {
      LetterEntriesSound(d.alphabet, list.value.elems);
    }
    GrowsSound(d, d.(alphabet := AlphabetSection(d.alphabet, list, span).0), errors);
  }

  lemma ItemDeclSound(d: Draft, k: PushdownAutomata.Section, name: Spanned<string>, item: Spanned<LegacyAst.Item>, span: Span, errors: bool)
    requires Sound(d, errors)
    ensures Sound(ItemDecl(d, k, name, item, span).0, errors || !NoErrors(ItemDecl(d, k, name, item, span).1))
  {
    var r := ItemDecl(d, k, name, item, span);
    match k
    case States =>
      NumbersDeclSound(d, true, item, span, "states already set", "too many states defined", "state redefined", "states cannot be empty", errors);
    case StackSymbols =>
      NumbersDeclSound(d, false, item, span, "stack symbols already set", "too many stack symbols defined", "stack symbol redefined", "stack symbols cannot be empty", errors);
    case Alphabet =>
      AlphabetDeclSound(d, item, span, errors);
      SoundWeakens(r.0, errors, errors || !NoErrors(r.1));
    case Finals =>
      if item.value.ListItem? {
        FinalEntriesWithin(d.states, {}, item.value.elems);
      }
      SoundWeakens(r.0, errors, errors || !NoErrors(r.1));
    case Initial =>
      ChoiceSectionDeclared(d.initialState, d.states, item, span, "initial state already set", "initial state symbol not defined as a state");
      SoundWeakens(r.0, errors, errors || !NoErrors(r.1));
    case InitialStack =>
      ChoiceSectionDeclared(d.initialStack, d.symbols, item, span, "initial stack already set", "initial stack symbol not defined as a stack symbol");
      SoundWeakens(r.0, errors, errors || !NoErrors(r.1));
    case Unknown =>
      SoundWeakens(d, errors, errors || !NoErrors(r.1));
  }

  lemma DeclareSound(d: Draft, decl: Spanned<LegacyAst.TopLevel>, errors: bool)
    requires Sound(d, errors)
    ensures Sound(Declare(d, decl).0, errors || !NoErrors(Declare(d, decl).1))
  {
    match decl.value
    case ItemDecl(name, item) => ItemDeclSound(d, PushdownAutomata.SectionOf(name.value), name, item, decl.span, errors);
    case TransitionFunc(dest, list) =>
      if Automatan.ShortDelta(dest.value.0.value) {
        TransitionDeclSound(d, dest.value.1, LegacyAst.Weak(list), errors);
      } else {
        SoundWeakens(d, errors, errors || !NoErrors(Declare(d, decl).1));
      }
    case ProductionRule(_, _) => SoundWeakens(d, errors, errors || !NoErrors(Declare(d, decl).1));
    case Table => SoundWeakens(d, errors, errors || !NoErrors(Declare(d, decl).1));
  }

  /** After any declarations the invariant holds, with an error reported
      whenever a numbering stopped being injective or a transition's letter
      is not in the alphabet. */
  lemma {:induction false} DeclarationsSound(items: seq<Spanned<LegacyAst.TopLevel>>)
    ensures Sound(Declarations(items).0, !NoErrors(Declarations(items).1))
    decreases |items|
  {
    if items != [] {
      var init := items[..|items| - 1];
      DeclarationsSound(init);
      var (d1, logs1) := Declarations(init);
      DeclareSound(d1, items[|items| - 1], !NoErrors(logs1));
      NoErrorsConcat(logs1, Declare(d1, items[|items| - 1]).1);
    }
  }

  /** The checks after the loop: without an error there are stack symbols,
      an alphabet and states, and the initial indices are numbered. */
  lemma EndingChecks(d: Draft)
    requires Bounded(d.states) && Bounded(d.symbols)
    requires d.initialState.Some? ==> (d.initialState.value as int) < |d.states|
    requires d.initialStack.Some? ==> (d.initialStack.value as int) < |d.symbols|
    ensures var (stack, state, logs) := Ending(d);
      NoErrors(logs) ==>
        && |d.symbols| != 0 && |d.alphabet| != 0 && |d.states| != 0
        && (stack as int) < |d.symbols| && (state as int) < |d.states|
  {
    var a := Check(|d.symbols| != 0, "stack symbols never defined");
    var b := Check(|d.alphabet| != 0, "alphabet never defined");
    var c := Check(|d.states| != 0, "states never defined");
    var (stack, logs1) := DefaultIndex(d.initialStack, d.symbols, "z0", "initial stack symbol not defined, defaulting to 'z0'", "initial stack symbol not defined");
    var (state, logs2) := DefaultIndex(d.initialState, d.states, "q0", "initial state not defined, defaulting to 'q0'", "initial state not defined");
    NoErrorsConcat(a, b);
    NoErrorsConcat(a + b, c);
    NoErrorsConcat(a + b + c, logs1);
    NoErrorsConcat(a + b + c + logs1, logs2);
  }

  // ---------------------------------------------------------------------
  // The declaration loop of `load_from_ast`.

  method ParseNumberEntry(m: map<string, u16>, item: Spanned<LegacyAst.Item>, tooMany: string, redefined: string, ctx: Logs)
    returns (m1: map<string, u16>)
    requires ctx.Valid()
    modifies ctx
    ensures ctx.Valid()
    ensures m1 == NumberEntry(m, item, tooMany, redefined).0
    ensures ctx.entries == old(ctx.entries) + NumberEntry(m, item, tooMany, redefined).1
  {
    m1 := m;
    var name := LegacyAst.ExpectIdent(item, ctx);
    if name.None? {
      return;
    }
    var index: u16 := 0;
    if |m| < 0x1_0000 {
      index := |m| as u16;
    } else {
      ctx.EmitError(tooMany, item.span);
    }
    if name.value in m {
      ctx.EmitError(redefined, item.span);
    } else {
      m1 := m[name.value := index];
    }
  }

  lemma NumberEntriesStep(m: map<string, u16>, items: seq<Spanned<LegacyAst.Item>>, tooMany: string, redefined: string, i: nat)
    requires i < |items|
    ensures NumberEntries(m, items[..i + 1], tooMany, redefined) ==
      (NumberEntry(NumberEntries(m, items[..i], tooMany, redefined).0, items[i], tooMany, redefined).0,
       NumberEntries(m, items[..i], tooMany, redefined).1 + NumberEntry(NumberEntries(m, items[..i], tooMany, redefined).0, items[i], tooMany, redefined).1)
  {
    assert items[..i + 1][..i] == items[..i];
  }

  method ParseNumberEntries(m: map<string, u16>, items: seq<Spanned<LegacyAst.Item>>, tooMany: string, redefined: string, ctx: Logs)
    returns (m1: map<string, u16>)
    requires ctx.Valid()
    modifies ctx
    ensures ctx.Valid()
    ensures m1 == NumberEntries(m, items, tooMany, redefined).0
    ensures ctx.entries == old(ctx.entries) + NumberEntries(m, items, tooMany, redefined).1
  {
    m1 := m;
    for i := 0 to |items|
      invariant ctx.Valid()
      invariant m1 == NumberEntries(m, items[..i], tooMany, redefined).0
      invariant ctx.entries == old(ctx.entries) + NumberEntries(m, items[..i], tooMany, redefined).1
    {
      NumberEntriesStep(m, items, tooMany, redefined, i);
      ghost var step := NumberEntry(m1, items[i], tooMany, redefined).1;
      m1 := ParseNumberEntry(m1, items[i], tooMany, redefined, ctx);
      Appended(old(ctx.entries), NumberEntries(m, items[..i], tooMany, redefined).1, step);
    }
    assert items[..|items|] == items;
  }

  /** A numbered section is the `already` check, the names, then the
      `empty` check. */
  lemma NumbersSectionShape(m: map<string, u16>, list: Spanned<LegacyAst.Item>, span: Span, already: string, tooMany: string, redefined: string, empty: string)
    requires list.value.ListItem?
    ensures var r := NumberEntries(m, list.value.elems, tooMany, redefined);
      NumbersSection(m, list, span, already, tooMany, redefined, empty) ==
        (r.0, ((if |m| != 0 then [ErrorAt(already, span)] else []) + r.1) + (if list.value.elems == [] then [ErrorAt(empty, span)] else []))
  {
    Appended(if |m| != 0 then [ErrorAt(already, span)] else [], NumberEntries(m, list.value.elems, tooMany, redefined).1,
      if list.value.elems == [] then [ErrorAt(empty, span)] else []);
  }

  method ParseNumbersSection(m: map<string, u16>, list: Spanned<LegacyAst.Item>, span: Span, already: string, tooMany: string, redefined: string, empty: string, ctx: Logs)
    returns (m1: map<string, u16>)
    requires ctx.Valid()
    modifies ctx
    ensures ctx.Valid()
    ensures m1 == NumbersSection(m, list, span, already, tooMany, redefined, empty).0
    ensures ctx.entries == old(ctx.entries) + NumbersSection(m, list, span, already, tooMany, redefined, empty).1
  {
    ghost var pre: seq<LogEntry> := if |m| != 0 then [ErrorAt(already, span)] else [];
    if |m| != 0 {
      ctx.EmitError(already, span);
    }
    assert ctx.entries == old(ctx.entries) + pre;
    m1 := ParseNumbersBody(m, list, span, tooMany, redefined, empty, ctx);
    Appended(old(ctx.entries), pre, NumbersBody(m, list, span, tooMany, redefined, empty).1);
  }

  method ParseNumbersBody(m: map<string, u16>, list: Spanned<LegacyAst.Item>, span: Span, tooMany: string, redefined: string, empty: string, ctx: Logs)
    returns (m1: map<string, u16>)
    requires ctx.Valid()
    modifies ctx
    ensures ctx.Valid()
    ensures m1 == NumbersBody(m, list, span, tooMany, redefined, empty).0
    ensures ctx.entries == old(ctx.entries) + NumbersBody(m, list, span, tooMany, redefined, empty).1
  {
    m1 := m;
    var elems := LegacyAst.ExpectSet(list, ctx);
    if elems.None? {
      return;
    }
    m1 := ParseNumberEntries(m, elems.value, tooMany, redefined, ctx);
    ghost var mid := ctx.entries;
    if elems.value == [] {
      ctx.EmitError(empty, span);
    }
    Appended(old(ctx.entries), NumberEntries(m, elems.value, tooMany, redefined).1, if elems.value == [] then [ErrorAt(empty, span)] else []);
  }

  method ParseLetterEntry(a: set<char>, item: Spanned<LegacyAst.Item>, ctx: Logs) returns (a1: set<char>)
    requires ctx.Valid()
    modifies ctx
    ensures ctx.Valid()
    ensures a1 == LetterEntry(a, item).0
    ensures ctx.entries == old(ctx.entries) + LetterEntry(a, item).1
  {
    a1 := a;
    var name := LegacyAst.ExpectIdent(item, ctx);
    if name.None? {
      return;
    }
    if |name.value| != 1 {
      ctx.EmitError("letter cannot be longer than one char", item.span);
    }
    var c := FirstChar(name.value);
    if c in a {
      ctx.EmitError("letter redefined", item.span);
    } else {
      a1 := a + {c};
    }
  }

  lemma LetterEntriesStep(a: set<char>, items: seq<Spanned<LegacyAst.Item>>, i: nat)
    requires i < |items|
    ensures LetterEntries(a, items[..i + 1]) ==
      (LetterEntry(LetterEntries(a, items[..i]).0, items[i]).0,
       LetterEntries(a, items[..i]).1 + LetterEntry(LetterEntries(a, items[..i]).0, items[i]).1)
  {
    assert items[..i + 1][..i] == items[..i];
  }

  method ParseLetterEntries(a: set<char>, items: seq<Spanned<LegacyAst.Item>>, ctx: Logs) returns (a1: set<char>)
    requires ctx.Valid()
    modifies ctx
    ensures ctx.Valid()
    ensures a1 == LetterEntries(a, items).0
    ensures ctx.entries == old(ctx.entries) + LetterEntries(a, items).1
  {
    a1 := a;
    for i := 0 to |items|
      invariant ctx.Valid()
      invariant a1 == LetterEntries(a, items[..i]).0
      invariant ctx.entries == old(ctx.entries) + LetterEntries(a, items[..i]).1
    {
      LetterEntriesStep(a, items, i);
      ghost var step := LetterEntry(a1, items[i]).1;
      a1 := ParseLetterEntry(a1, items[i], ctx);
      Appended(old(ctx.entries), LetterEntries(a, items[..i]).1, step);
    }
    assert items[..|items|] == items;
  }

  lemma AlphabetSectionShape(a: set<char>, list: Spanned<LegacyAst.Item>, span: Span)
    requires list.value.ListItem?
    ensures var r := LetterEntries(a, list.value.elems);
      AlphabetSection(a, list, span) ==
        (r.0, ((if |a| != 0 then [ErrorAt("alphabet already set", span)] else []) + r.1) + (if list.value.elems == [] then [ErrorAt("alphabet cannot be empty", span)] else []))
  {
    Appended(if |a| != 0 then [ErrorAt("alphabet already set", span)] else [], LetterEntries(a, list.value.elems).1,
      if list.value.elems == [] then [ErrorAt("alphabet cannot be empty", span)] else []);
  }

  method ParseAlphabetSection(a: set<char>, list: Spanned<LegacyAst.Item>, span: Span, ctx: Logs) returns (a1: set<char>)
    requires ctx.Valid()
    modifies ctx
    ensures ctx.Valid()
    ensures a1 == AlphabetSection(a, list, span).0
    ensures ctx.entries == old(ctx.entries) + AlphabetSection(a, list, span).1
  {
    a1 := a;
    ghost var pre: seq<LogEntry> := if |a| != 0 then [ErrorAt("alphabet already set", span)] else [];
    if |a| != 0 {
      ctx.EmitError("alphabet already set", span);
    }
    assert ctx.entries == old(ctx.entries) + pre;
    var elems := LegacyAst.ExpectSet(list, ctx);
    if elems.None? {
      return;
    }
    AlphabetSectionShape(a, list, span);
    a1 := ParseLetterEntries(a, elems.value, ctx);
    Appended(old(ctx.entries), pre, LetterEntries(a, elems.value).1);
    if elems.value == [] {
      ctx.EmitError("alphabet cannot be empty", span);
    }
    Appended(old(ctx.entries), pre + LetterEntries(a, elems.value).1, if elems.value == [] then [ErrorAt("alphabet cannot be empty", span)] else []);
  }

  method ParseFinalEntry(states: map<string, u16>, f: set<u16>, item: Spanned<LegacyAst.Item>, ctx: Logs) returns (f1: set<u16>)
    requires ctx.Valid()
    modifies ctx
    ensures ctx.Valid()
    ensures f1 == FinalEntry(states, f, item).0
    ensures ctx.entries == old(ctx.entries) + FinalEntry(states, f, item).1
  {
    f1 := f;
    var name := LegacyAst.ExpectIdent(item, ctx);
    if name.None? {
      return;
    }
    if name.value in states {
      var q := states[name.value];
      if q in f {
        ctx.EmitError("final state redefined", item.span);
      } else {
        f1 := f + {q};
      }
    } else {
      ctx.EmitError("final state not defined in set of states", item.span);
    }
  }

  lemma FinalEntriesStep(states: map<string, u16>, f: set<u16>, items: seq<Spanned<LegacyAst.Item>>, i: nat)
    requires i < |items|
    ensures FinalEntries(states, f, items[..i + 1]) ==
      (FinalEntry(states, FinalEntries(states, f, items[..i]).0, items[i]).0,
       FinalEntries(states, f, items[..i]).1 + FinalEntry(states, FinalEntries(states, f, items[..i]).0, items[i]).1)
  {
    assert items[..i + 1][..i] == items[..i];
  }

  method ParseFinalEntries(states: map<string, u16>, items: seq<Spanned<LegacyAst.Item>>, ctx: Logs) returns (f: set<u16>)
    requires ctx.Valid()
    modifies ctx
    ensures ctx.Valid()
    ensures f == FinalEntries(states, {}, items).0
    ensures ctx.entries == old(ctx.entries) + FinalEntries(states, {}, items).1
  {
    f := {};
    for i := 0 to |items|
      invariant ctx.Valid()
      invariant f == FinalEntries(states, {}, items[..i]).0
      invariant ctx.entries == old(ctx.entries) + FinalEntries(states, {}, items[..i]).1
    {
      FinalEntriesStep(states, {}, items, i);
      ghost var step := FinalEntry(states, f, items[i]).1;
      f := ParseFinalEntry(states, f, items[i], ctx);
      Appended(old(ctx.entries), FinalEntries(states, {}, items[..i]).1, step);
    }
    assert items[..|items|] == items;
  }

  method ParseFinalsSection(finals: Option<set<u16>>, states: map<string, u16>, list: Spanned<LegacyAst.Item>, span: Span, ctx: Logs)
    returns (r: Option<set<u16>>)
    requires ctx.Valid()
    modifies ctx
    ensures ctx.Valid()
    ensures r == FinalsSection(finals, states, list, span).0
    ensures ctx.entries == old(ctx.entries) + FinalsSection(finals, states, list, span).1
  {
    r := finals;
    if finals.Some? {
      ctx.EmitError("final states already set", span);
    }
    ghost var pre := ctx.entries;
    var f := ParseFinalsList(states, list, ctx);
    if f.Some? {
      r := f;
    }
    Appended(old(ctx.entries), pre[|old(ctx.entries)|..], FinalsList(states, list).1);
  }

  method ParseFinalsList(states: map<string, u16>, list: Spanned<LegacyAst.Item>, ctx: Logs) returns (r: Option<set<u16>>)
    requires ctx.Valid()
    modifies ctx
    ensures ctx.Valid()
    ensures r == FinalsList(states, list).0
    ensures ctx.entries == old(ctx.entries) + FinalsList(states, list).1
  {
    var elems := LegacyAst.ExpectSet(list, ctx);
    if elems.None? {
      return None;
    }
    var f := ParseFinalEntries(states, elems.value, ctx);
    r := Some(f);
  }

  method ParseChoice(current: Option<u16>, m: map<string, u16>, item: Spanned<LegacyAst.Item>, span: Span, already: string, undeclared: string, ctx: Logs)
    returns (r: Option<u16>)
    requires ctx.Valid()
    modifies ctx
    ensures ctx.Valid()
    ensures r == ChoiceSection(current, m, item, span, already, undeclared).0
    ensures ctx.entries == old(ctx.entries) + ChoiceSection(current, m, item, span, already, undeclared).1
  {
    r := current;
    match LegacyAst.AsIdent(item.value) {
      case None =>
        ctx.EmitError("expected ident", item.span);
      case Some(name) =>
        if current.Some? {
          ctx.EmitError(already, span);
        }
        if name in m {
          r := Some(m[name]);
        } else {
          ctx.EmitError(undeclared, item.span);
        }
    }
  }

  method ParseLetterKey(alphabet: set<char>, letter: Spanned<LegacyAst.Symbol>, ctx: Logs) returns (c: Option<char>)
    requires ctx.Valid()
    modifies ctx
    ensures ctx.Valid()
    ensures c == LetterKey(alphabet, letter).0
    ensures ctx.entries == old(ctx.entries) + LetterKey(alphabet, letter).1
  {
    match letter.value {
      case Epsilon =>
        c := None;
      case Ident(name) =>
        if |name| == 1 {
          if name[0] !in alphabet {
            ctx.EmitError("transition letter not defined in alphabet", letter.span);
          }
          c := Some(name[0]);
        } else {
          ctx.EmitError("transition letter can only be single character", letter.span);
          c := None;
        }
    }
  }

  method ParsePushSymbol(symbols: map<string, u16>, item: Spanned<LegacyAst.Item>, ctx: Logs) returns (s: seq<Symbol>)
    requires ctx.Valid()
    modifies ctx
    ensures ctx.Valid()
    ensures s == PushSymbol(symbols, item).0
    ensures ctx.entries == old(ctx.entries) + PushSymbol(symbols, item).1
  {
    s := [];
    if IsEpsilon(item) {
      return;
    }
    var name := LegacyAst.ExpectIdent(item, ctx);
    if name.None? {
      return;
    }
    if name.value !in symbols {
      ctx.EmitError(UNDECLARED_PUSHED, item.span);
      return;
    }
    s := [Symbol(symbols[name.value])];
  }

  lemma PushListStep(symbols: map<string, u16>, items: seq<Spanned<LegacyAst.Item>>, i: nat)
    requires i < |items|
    ensures PushList(symbols, items[i..]) ==
      (PushList(symbols, items[i + 1..]).0 + PushSymbol(symbols, items[i]).0,
       PushList(symbols, items[i + 1..]).1 + PushSymbol(symbols, items[i]).1)
  {
    assert items[i..][1..] == items[i + 1..];
  }

  /** The pushed list, walked from its last item to its first. */
  method ParsePushList(symbols: map<string, u16>, items: seq<Spanned<LegacyAst.Item>>, ctx: Logs) returns (stack: seq<Symbol>)
    requires ctx.Valid()
    modifies ctx
    ensures ctx.Valid()
    ensures stack == PushList(symbols, items).0
    ensures ctx.entries == old(ctx.entries) + PushList(symbols, items).1
  {
    stack := [];
    var i := |items|;
    while i > 0
      invariant 0 <= i <= |items|
      invariant ctx.Valid()
      invariant stack == PushList(symbols, items[i..]).0
      invariant ctx.entries == old(ctx.entries) + PushList(symbols, items[i..]).1
    {
      i := i - 1;
      PushListStep(symbols, items, i);
      ghost var step := PushSymbol(symbols, items[i]).1;
      var s := ParsePushSymbol(symbols, items[i], ctx);
      Appended(old(ctx.entries), PushList(symbols, items[i + 1..]).1, step);
      stack := stack + s;
    }
    assert items[0..] == items;
  }

  method ParseTarget(states: map<string, u16>, symbols: map<string, u16>, key: Key, trans: map<Key, set<To>>, item: Spanned<LegacyAst.Item>, ctx: Logs)
    returns (r: map<Key, set<To>>)
    requires ctx.Valid()
    modifies ctx
    ensures ctx.Valid()
    ensures r == Target(states, symbols, key, trans, item).0
    ensures ctx.entries == old(ctx.entries) + Target(states, symbols, key, trans, item).1
  {
    r := trans;
    var tuple := LegacyAst.ExpectTuple(item, ctx);
    if tuple.None? {
      return;
    }
    r := ParseMove(states, symbols, key, trans, tuple.value, item.span, ctx);
  }

  method ParseMove(states: map<string, u16>, symbols: map<string, u16>, key: Key, trans: map<Key, set<To>>, t: Spanned<LegacyAst.Tuple>, span: Span, ctx: Logs)
    returns (r: map<Key, set<To>>)
    requires ctx.Valid()
    modifies ctx
    ensures ctx.Valid()
    ensures r == Move(states, symbols, key, trans, t, span).0
    ensures ctx.entries == old(ctx.entries) + Move(states, symbols, key, trans, t, span).1
  {
    r := trans;
    var move := LegacyAst.ExpectNpdaMove(t, ctx);
    if move.None? {
      return;
    }
    var (next, push) := move.value;
    if next.value !in states {
      ctx.EmitError(UNDECLARED_STATE, next.span);
      return;
    }
    r := ParseMoveTo(symbols, key, trans, states[next.value], push, span, ctx);
  }

  method ParseMoveTo(symbols: map<string, u16>, key: Key, trans: map<Key, set<To>>, next: u16, push: seq<Spanned<LegacyAst.Item>>, span: Span, ctx: Logs)
    returns (r: map<Key, set<To>>)
    requires ctx.Valid()
    modifies ctx
    ensures ctx.Valid()
    ensures r == MoveTo(symbols, key, trans, next, push, span).0
    ensures ctx.entries == old(ctx.entries) + MoveTo(symbols, key, trans, next, push, span).1
  {
    var stack := ParsePushList(symbols, push, ctx);
    ghost var entry := if key in trans then trans[key] else {};
    var to := To(State(next), stack);
    r := AddTo(trans, key, to, span, ctx);
    Appended(old(ctx.entries), PushList(symbols, push).1, if to in entry then [LogEntry("duplicate transition", Some(span), Warning)] else []);
  }

  /** `entry(key).or_insert(..).insert(to)`, warning about a duplicate. */
  method AddTo(trans: map<Key, set<To>>, key: Key, to: To, span: Span, ctx: Logs) returns (r: map<Key, set<To>>)
    requires ctx.Valid()
    modifies ctx
    ensures ctx.Valid()
    ensures key in r && r[key] == (if key in trans then trans[key] else {}) + {to}
    ensures forall k :: k != key ==> (k in r <==> k in trans) && (k in trans ==> r[k] == trans[k])
    ensures ctx.entries == old(ctx.entries) + (if key in trans && to in trans[key] then [LogEntry("duplicate transition", Some(span), Warning)] else [])
  {
    var entry := if key in trans then trans[key] else {};
    r := trans[key := entry + {to}];
    if to in entry {
      ctx.EmitWarning("duplicate transition", span);
    }
  }

  lemma TargetListStep(states: map<string, u16>, symbols: map<string, u16>, key: Key, trans: map<Key, set<To>>, items: seq<Spanned<LegacyAst.Item>>, i: nat)
    requires i < |items|
    ensures TargetList(states, symbols, key, trans, items[..i + 1]) ==
      (Target(states, symbols, key, TargetList(states, symbols, key, trans, items[..i]).0, items[i]).0,
       TargetList(states, symbols, key, trans, items[..i]).1 + Target(states, symbols, key, TargetList(states, symbols, key, trans, items[..i]).0, items[i]).1)
  {
    assert items[..i + 1][..i] == items[..i];
  }

  method ParseTargetList(states: map<string, u16>, symbols: map<string, u16>, key: Key, t0: map<Key, set<To>>, items: seq<Spanned<LegacyAst.Item>>, ctx: Logs)
    returns (trans: map<Key, set<To>>)
    requires ctx.Valid()
    modifies ctx
    ensures ctx.Valid()
    ensures trans == TargetList(states, symbols, key, t0, items).0
    ensures ctx.entries == old(ctx.entries) + TargetList(states, symbols, key, t0, items).1
  {
    trans := t0;
    for i := 0 to |items|
      invariant ctx.Valid()
      invariant trans == TargetList(states, symbols, key, t0, items[..i]).0
      invariant ctx.entries == old(ctx.entries) + TargetList(states, symbols, key, t0, items[..i]).1
    {
      TargetListStep(states, symbols, key, t0, items, i);
      ghost var step := Target(states, symbols, key, trans, items[i]).1;
      trans := ParseTarget(states, symbols, key, trans, items[i], ctx);
      Appended(old(ctx.entries), TargetList(states, symbols, key, t0, items[..i]).1, step);
    }
    assert items[..|items|] == items;
  }

  method ParseTransitionDecl(d: Draft, tuple: Spanned<LegacyAst.Tuple>, targets: seq<Spanned<LegacyAst.Item>>, ctx: Logs) returns (r: Draft)
    requires ctx.Valid()
    modifies ctx
    ensures ctx.Valid()
    ensures r == TransitionDecl(d, tuple, targets).0
    ensures ctx.entries == old(ctx.entries) + TransitionDecl(d, tuple, targets).1
  {
    r := d;
    var source := LegacyAst.ExpectNpdaSource(tuple, ctx);
    if source.None? {
      return;
    }
    var (state, letter, symbol) := source.value;
    if state.value !in d.states {
      ctx.EmitError(UNDECLARED_STATE, state.span);
      return;
    }
    if symbol.value !in d.symbols {
      ctx.EmitError(UNDECLARED_POPPED, symbol.span);
      return;
    }
    var c := ParseLetterKey(d.alphabet, letter, ctx);
    var key := Key(State(d.states[state.value]), c, Symbol(d.symbols[symbol.value]));
    var t := ParseTargetList(d.states, d.symbols, key, d.transitions, targets, ctx);
    Appended(old(ctx.entries), LetterKey(d.alphabet, letter).1, TargetList(d.states, d.symbols, key, d.transitions, targets).1);
    r := d.(transitions := t);
  }

  method ParseItemDecl(d: Draft, k: PushdownAutomata.Section, name: Spanned<string>, item: Spanned<LegacyAst.Item>, span: Span, ctx: Logs)
    returns (r: Draft)
    requires ctx.Valid()
    modifies ctx
    ensures ctx.Valid()
    ensures r == ItemDecl(d, k, name, item, span).0
    ensures ctx.entries == old(ctx.entries) + ItemDecl(d, k, name, item, span).1
  {
    match k {
      case States =>
        var m := ParseNumbersSection(d.states, item, span, "states already set", "too many states defined", "state redefined", "states cannot be empty", ctx);
        r := d.(states := m);
      case Alphabet =>
        var a := ParseAlphabetSection(d.alphabet, item, span, ctx);
        r := d.(alphabet := a);
      case Finals =>
        var f := ParseFinalsSection(d.finals, d.states, item, span, ctx);
        r := d.(finals := f);
      case StackSymbols =>
        var m := ParseNumbersSection(d.symbols, item, span, "stack symbols already set", "too many stack symbols defined", "stack symbol redefined", "stack symbols cannot be empty", ctx);
        r := d.(symbols := m);
      case Initial =>
        var c := ParseChoice(d.initialState, d.states, item, span, "initial state already set", "initial state symbol not defined as a state", ctx);
        r := d.(initialState := c);
      case InitialStack =>
        var c := ParseChoice(d.initialStack, d.symbols, item, span, "initial stack already set", "initial stack symbol not defined as a stack symbol", ctx);
        r := d.(initialStack := c);
      case Unknown =>
        ctx.EmitError(Automatan.UnknownItem(name.value), name.span);
        r := d;
    }
  }

  method ParseDeclaration(d: Draft, decl: Spanned<LegacyAst.TopLevel>, ctx: Logs) returns (r: Draft)
    requires ctx.Valid()
    modifies ctx
    ensures ctx.Valid()
    ensures r == Declare(d, decl).0
    ensures ctx.entries == old(ctx.entries) + Declare(d, decl).1
  {
    r := d;
    match decl.value {
      case ItemDecl(name, item) =>
        r := ParseItemDecl(d, PushdownAutomata.SectionOf(name.value), name, item, decl.span, ctx);
      case TransitionFunc(dest, list) =>
        if Automatan.ShortDelta(dest.value.0.value) {
          r := ParseTransitionDecl(d, dest.value.1, LegacyAst.Weak(list), ctx);
        } else {
          ctx.EmitError(Automatan.UnknownShortFunction(dest.value.0.value), dest.span);
        }
      case ProductionRule(_, _) =>
        ctx.EmitError("unexpected production rule", decl.span);
      case Table =>
        ctx.EmitError("unexpected table", decl.span);
    }
  }

  lemma DeclarationsStep(items: seq<Spanned<LegacyAst.TopLevel>>, i: nat)
    requires i < |items|
    ensures Declarations(items[..i + 1]) ==
      (Declare(Declarations(items[..i]).0, items[i]).0,
       Declarations(items[..i]).1 + Declare(Declarations(items[..i]).0, items[i]).1)
  {
    assert items[..i + 1][..i] == items[..i];
  }

  method ParseDeclarations(items: seq<Spanned<LegacyAst.TopLevel>>, ctx: Logs) returns (d: Draft)
    requires ctx.Valid()
    modifies ctx
    ensures ctx.Valid()
    ensures d == Declarations(items).0
    ensures ctx.entries == old(ctx.entries) + Declarations(items).1
  {
    d := EMPTY;
    for i := 0 to |items|
      invariant ctx.Valid()
      invariant d == Declarations(items[..i]).0
      invariant ctx.entries == old(ctx.entries) + Declarations(items[..i]).1
    {
      DeclarationsStep(items, i);
      ghost var step := Declare(d, items[i]).1;
      d := ParseDeclaration(d, items[i], ctx);
      Appended(old(ctx.entries), Declarations(items[..i]).1, step);
    }
    assert items[..|items|] == items;
  }

  // ---------------------------------------------------------------------
  // After the loop: the dense tables.

  /** `names` holds, at the index of every name of `m`, a name with that
      index (the last one the fold visits when several share it), and
      nothing but such names. */
  predicate NamesOf(m: map<string, u16>, names: seq<string>)
  {
    && |names| == |m|
    && (forall k :: k in m ==> (m[k] as int) < |names| && names[m[k]] in m && m[names[m[k]]] == m[k])
    && (forall i :: 0 <= i < |names| ==> names[i] == "" || (names[i] in m && m[names[i]] as int == i))
  }

  /** The fold that writes every name at its index, over the names in any
      order. */
  method NameTable(m: map<string, u16>) returns (names: seq<string>)
    requires Bounded(m)
    ensures NamesOf(m, names)
  {
    names := seq(|m|, _ => "");
    var todo := m.Keys;
    while todo != {}
      invariant todo <= m.Keys && |names| == |m|
      invariant forall k :: k in m && k !in todo ==> names[m[k]] in m && m[names[m[k]]] == m[k]
      invariant forall i :: 0 <= i < |names| ==> names[i] == "" || (names[i] in m && m[names[i]] as int == i)
      decreases |todo|
    {
      var k :| k in todo;
      names := names[m[k] as int := k];
      todo := todo - {k};
    }
  }

  /** With an injective numbering the table reads every name back from its
      index, and every entry is a name. */
  lemma NamesOfInjective(m: map<string, u16>, names: seq<string>)
    requires NamesOf(m, names) && Injective(m)
    ensures forall k :: k in m ==> names[m[k]] == k
  {
    forall k | k in m ensures names[m[k]] == k {
      var other := names[m[k]];
      assert other in m && m[other] == m[k];
    }
  }

  /** The flags of the final states: `flags[i]` exactly when state `i` is
      final. */
  predicate FlagsOf(n: nat, f: set<u16>, flags: seq<bool>)
  {
    |flags| == n && forall i :: 0 <= i < n ==> (flags[i] <==> i < 0x1_0000 && (i as u16) in f)
  }

  method FinalFlags(n: nat, f: set<u16>) returns (flags: seq<bool>)
    requires Below(f, n)
    ensures FlagsOf(n, f, flags)
  {
    flags := seq(n, _ => false);
    var todo := f;
    while todo != {}
      invariant todo <= f && |flags| == n
      invariant forall i :: 0 <= i < n ==> (flags[i] <==> i < 0x1_0000 && (i as u16) in f - todo)
      decreases |todo|
    {
      var q :| q in todo;
      flags := flags[q as int := true];
      todo := todo - {q};
    }
  }

  /** The targets of a letter in one cell of the table; a letter without an
      entry has none. */
  function Cell(m: CharEpsilonMap<seq<To>>, c: Option<char>): seq<To>
  {
    if c in m.entries then m.entries[c] else []
  }

  /** The slot a starting point is stored at in a table `width` states
      wide. */
  function KeySlot(width: nat, k: Key): nat
  {
    Slot(width, k.state.index as nat, k.symbol.index as nat)
  }

  /** `x` is a target, under letter `c`, of some starting point of `done`
      stored at slot `j`. */
  predicate Lands(trans: map<Key, set<To>>, done: set<Key>, width: nat, j: nat, c: Option<char>, x: To)
  {
    exists k :: k in done && k in trans && KeySlot(width, k) == j && k.letter == c && x in trans[k]
  }

  /** In every cell, under every letter, exactly the targets of the
      starting points of `done` stored there by a table `width` states
      wide. */
  ghost predicate CellsFrom(trans: map<Key, set<To>>, done: set<Key>, width: nat, items: seq<CharEpsilonMap<seq<To>>>)
  {
    forall j, c, x :: 0 <= j < |items| ==> (x in Cell(items[j], c) <==> Lands(trans, done, width, j, c, x))
  }

  ghost predicate CellsOf(trans: map<Key, set<To>>, width: nat, items: seq<CharEpsilonMap<seq<To>>>)
  {
    CellsFrom(trans, trans.Keys, width, items)
  }

  /** The table the loader lays out: `symbols * states` cells, a width of
      the number of states cut to 16 bits, and the cells that width gives. */
  ghost predicate TableOf(trans: map<Key, set<To>>, nStates: nat, nSymbols: nat, t: StateSymbolMap<CharEpsilonMap<seq<To>>>)
  {
    && |t.items| == nSymbols * nStates
    && t.maxState as int == nStates % 0x1_0000
    && CellsOf(trans, t.maxState as nat, t.items)
  }

  lemma LandsAdd(trans: map<Key, set<To>>, done: set<Key>, k0: Key, width: nat, j: nat, c: Option<char>, x: To)
    requires k0 in trans
    ensures Lands(trans, done + {k0}, width, j, c, x) <==>
      Lands(trans, done, width, j, c, x) || (KeySlot(width, k0) == j && k0.letter == c && x in trans[k0])
  {
    if Lands(trans, done + {k0}, width, j, c, x) {
      var k :| k in done + {k0} && k in trans && KeySlot(width, k) == j && k.letter == c && x in trans[k];
      if k != k0 {
        assert k in done;
      }
    }
    if KeySlot(width, k0) == j && k0.letter == c && x in trans[k0] {
      assert k0 in done + {k0};
    }
  }

  /** Every starting point of a good table has its slot inside the table,
      however the width was cut. */
  lemma KeySlotInTable(width: nat, nStates: nat, nSymbols: nat, k: Key)
    requires width <= nStates && InRange(k, nStates, nSymbols)
    ensures KeySlot(width, k) < nSymbols * nStates
  {
    var q := k.state.index as nat;
    var s := k.symbol.index as nat;
    MulMonotone(s, width, nStates);
    MulMonotone(nStates, s + 1, nSymbols);
    assert nStates * (s + 1) == nStates * s + nStates;
    assert nSymbols * nStates == nStates * nSymbols;
  }

  lemma KeyInTable(trans: map<Key, set<To>>, width: nat, nStates: nat, nSymbols: nat, k: Key)
    requires GoodTable(trans, nStates, nSymbols) && k in trans && width <= nStates
    ensures KeySlot(width, k) < nSymbols * nStates
  {
    KeySlotInTable(width, nStates, nSymbols, k);
  }

  /** Pushes every element of `xs`, in any order, after `cell`. */
  method PushAll(cell: seq<To>, xs: set<To>) returns (out: seq<To>)
    ensures |out| == |cell| + |xs|
    ensures forall x :: x in out <==> x in cell || x in xs
  {
    out := cell;
    var todo := xs;
    while todo != {}
      invariant todo <= xs
      invariant |out| == |cell| + |xs - todo|
      invariant forall x :: x in out <==> x in cell || x in xs - todo
      decreases |todo|
    {
      var x :| x in todo;
      assert xs - (todo - {x}) == (xs - todo) + {x};
      out := out + [x];
      todo := todo - {x};
    }
  }

  /** The table of `load_from_ast`: every starting point's targets are
      pushed into the cell of its state and popped symbol, under its letter,
      in the iteration order of the maps, which this model leaves open. */
  method BuildTable(nStates: nat, nSymbols: nat, trans: map<Key, set<To>>) returns (t: StateSymbolMap<CharEpsilonMap<seq<To>>>)
    requires GoodTable(trans, nStates, nSymbols)
    ensures TableOf(trans, nStates, nSymbols, t)
  {
    var width := (nStates % 0x1_0000) as u16;
    var items := BuildCells(nStates, nSymbols, width as nat, trans);
    t := StateSymbolMap(items, width);
  }

  /** The cells of a table `width` states wide. */
  method BuildCells(nStates: nat, nSymbols: nat, width: nat, trans: map<Key, set<To>>) returns (items: seq<CharEpsilonMap<seq<To>>>)
    requires GoodTable(trans, nStates, nSymbols) && width <= nStates
    ensures |items| == nSymbols * nStates && CellsOf(trans, width, items)
  {
    hide KeySlot, Slot, GoodTable, CellsFrom;
    items := seq(nSymbols * nStates, _ => CharEpsilonMap(map[]));
    CellsEmpty(trans, width, items);
    var todo := trans.Keys;
    assert trans.Keys - todo == {};
    while todo != {}
      invariant todo <= trans.Keys && |items| == nSymbols * nStates
      invariant CellsFrom(trans, trans.Keys - todo, width, items)
      decreases |todo|
    {
      var k :| k in todo;
      ghost var done := trans.Keys - todo;
      KeyInTable(trans, width, nStates, nSymbols, k);
      var j0 := KeySlot(width, k);
      var pushed := PushAll(Cell(items[j0], k.letter), trans[k]);
      ghost var before := items;
      items := items[j0 := CharEpsilonMap(items[j0].entries[k.letter := pushed])];
      CellsStep(trans, done, width, k, before, pushed, items);
      todo := todo - {k};
      assert trans.Keys - todo == done + {k};
    }
    assert trans.Keys - todo == trans.Keys;
  }

  /** Empty cells hold no starting point. */
  lemma CellsEmpty(trans: map<Key, set<To>>, width: nat, items: seq<CharEpsilonMap<seq<To>>>)
    requires forall j :: 0 <= j < |items| ==> items[j].entries == map[]
    ensures CellsFrom(trans, {}, width, items)
  {
  }

  /** Pushing one starting point's targets into its cell adds it to the
      starting points the cells hold. */
  lemma CellsStep(trans: map<Key, set<To>>, done: set<Key>, width: nat, k: Key, before: seq<CharEpsilonMap<seq<To>>>, pushed: seq<To>,
                  items: seq<CharEpsilonMap<seq<To>>>)
    requires k in trans && KeySlot(width, k) < |before|
    requires CellsFrom(trans, done, width, before)
    requires forall x :: x in pushed <==> x in Cell(before[KeySlot(width, k)], k.letter) || x in trans[k]
    requires items == before[KeySlot(width, k) := CharEpsilonMap(before[KeySlot(width, k)].entries[k.letter := pushed])]
    ensures CellsFrom(trans, done + {k}, width, items)
  {
    forall j, c, x | 0 <= j < |items|
      ensures x in Cell(items[j], c) <==> Lands(trans, done + {k}, width, j, c, x)
    {
      LandsAdd(trans, done, k, width, j, c, x);
      assert x in Cell(before[j], c) <==> Lands(trans, done, width, j, c, x);
    }
  }

  // ---------------------------------------------------------------------
  // `load_from_ast`.

  method ParseMissing(d: Draft, ctx: Logs)
    requires ctx.Valid()
    modifies ctx
    ensures ctx.Valid()
    ensures ctx.entries == old(ctx.entries) + Missing(d)
  {
    if |d.symbols| == 0 {
      ctx.EmitErrorLocless("stack symbols never defined");
    }
    if |d.alphabet| == 0 {
      ctx.EmitErrorLocless("alphabet never defined");
    }
    if |d.states| == 0 {
      ctx.EmitErrorLocless("states never defined");
    }
  }

  method ParseDefault(current: Option<u16>, m: map<string, u16>, fallback: string, warning: string, error: string, ctx: Logs) returns (i: u16)
    requires ctx.Valid()
    modifies ctx
    ensures ctx.Valid()
    ensures i == DefaultIndex(current, m, fallback, warning, error).0
    ensures ctx.entries == old(ctx.entries) + DefaultIndex(current, m, fallback, warning, error).1
  {
    match current {
      case Some(some) =>
        i := some;
      case None =>
        if fallback in m {
          ctx.EmitWarningLocless(warning);
          i := m[fallback];
        } else {
          ctx.EmitErrorLocless(error);
          i := 0;
        }
    }
  }

  /** The machine `load_from_ast` builds from the loader's locals `d`. */
  ghost predicate Loaded(d: Draft, m: Npda)
  {
    && m.initialStack == Symbol(Ending(d).0) && m.initialState == State(Ending(d).1)
    && NamesOf(d.states, m.stateNames.items) && NamesOf(d.symbols, m.symbolNames.items)
    && m.alphabet == d.alphabet
    && (d.finals.None? ==> m.finalStates.None?)
    && (d.finals.Some? ==> m.finalStates.Some? && FlagsOf(|d.states|, d.finals.value, m.finalStates.value.items))
    && TableOf(d.transitions, |d.states|, |d.symbols|, m.transitions)
  }

  /** The log of `load_from_ast`, piece by piece, and the defaults it
      picks. */
  lemma LoadShape(items: seq<Spanned<LegacyAst.TopLevel>>)
    ensures var d := Declarations(items).0;
      var stack := DefaultIndex(d.initialStack, d.symbols, "z0", "initial stack symbol not defined, defaulting to 'z0'", "initial stack symbol not defined");
      var state := DefaultIndex(d.initialState, d.states, "q0", "initial state not defined, defaulting to 'q0'", "initial state not defined");
      && Ending(d) == (stack.0, state.0, Missing(d) + stack.1 + state.1)
      && LoadLogs(items) == Declarations(items).1 + Ending(d).2
  {
  }

  /** What building the tables needs of the declarations. */
  lemma LoadReady(items: seq<Spanned<LegacyAst.TopLevel>>)
    ensures var d := Declarations(items).0;
      && Bounded(d.states) && Bounded(d.symbols)
      && (d.finals.Some? ==> Below(d.finals.value, |d.states|))
      && GoodTable(d.transitions, |d.states|, |d.symbols|)
  {
    DeclarationsSound(items);
  }

  /** `Npda::load_from_ast`: the declarations, the checks and defaults, the
      tables, and a machine exactly when the log holds no error. */
  method Load(items: seq<Spanned<LegacyAst.TopLevel>>, ctx: Logs) returns (r: Option<Npda>)
    requires ctx.Valid()
    modifies ctx
    ensures ctx.Valid()
    ensures ctx.entries == old(ctx.entries) + LoadLogs(items)
    ensures r.Some? <==> !ctx.hasError
    ensures r.Some? ==> Loaded(Declarations(items).0, r.value)
  {
    hide Sound, Declare, CellsFrom, TableOf, NamesOf, FlagsOf, Ending, LoadLogs, DefaultIndex, Missing;
    var d := ParseDeclarations(items, ctx);
    LoadReady(items);
    LoadShape(items);
    ghost var afterLoop := ctx.entries;
    ParseMissing(d, ctx);
    ghost var l1 := DefaultIndex(d.initialStack, d.symbols, "z0", "initial stack symbol not defined, defaulting to 'z0'", "initial stack symbol not defined").1;
    var stack := ParseDefault(d.initialStack, d.symbols, "z0", "initial stack symbol not defined, defaulting to 'z0'", "initial stack symbol not defined", ctx);
    Appended(afterLoop, Missing(d), l1);
    ghost var l2 := DefaultIndex(d.initialState, d.states, "q0", "initial state not defined, defaulting to 'q0'", "initial state not defined").1;
    var state := ParseDefault(d.initialState, d.states, "q0", "initial state not defined, defaulting to 'q0'", "initial state not defined", ctx);
    Appended(afterLoop, Missing(d) + l1, l2);
    assert ctx.entries == afterLoop + Ending(d).2;
    Appended(old(ctx.entries), Declarations(items).1, Ending(d).2);
    assert ctx.entries == old(ctx.entries) + LoadLogs(items);
    var stateNames := NameTable(d.states);
    var symbolNames := NameTable(d.symbols);
    var finals: Option<StateMap<bool>> := None;
    if d.finals.Some? {
      var flags := FinalFlags(|d.states|, d.finals.value);
      finals := Some(StateMap(flags));
    }
    var table := BuildTable(|d.states|, |d.symbols|, d.transitions);
    if ctx.ContainsErrors() {
      return None;
    }
    r := Some(Npda(State(state), Symbol(stack), StateMap(stateNames), SymbolMap(symbolNames), d.alphabet, finals, table));
  }

  // ---------------------------------------------------------------------
  // What a loaded machine is.

  /** A machine loaded without an error starts in a named state with a
      named stack symbol, has letters, reads every state's and stack
      symbol's name back from its index, has a flag per state, and every
      transition it holds reads a letter of its alphabet and leads to a
      named state pushing named stack symbols. */
  lemma LoadedSound(items: seq<Spanned<LegacyAst.TopLevel>>, m: Npda)
    requires Loaded(Declarations(items).0, m) && NoErrors(LoadLogs(items))
    ensures var d := Declarations(items).0;
      && (m.initialState.index as int) < |m.stateNames.items| && (m.initialStack.index as int) < |m.symbolNames.items|
      && |m.alphabet| != 0
      && (forall k :: k in d.states ==> m.stateNames.items[d.states[k]] == k)
      && (forall k :: k in d.symbols ==> m.symbolNames.items[d.symbols[k]] == k)
      && (m.finalStates.Some? ==> |m.finalStates.value.items| == |m.stateNames.items|)
  {
    var d := Declarations(items).0;
    DeclarationsSound(items);
    LoadShape(items);
    NoErrorsConcat(Declarations(items).1, Ending(d).2);
    EndingChecks(d);
    NamesOfInjective(d.states, m.stateNames.items);
    NamesOfInjective(d.symbols, m.symbolNames.items);
  }

  /** Every transition a machine loaded without an error holds reads a
      letter of its alphabet (or none) and leads to a named state pushing
      named stack symbols. */
  lemma LoadedTransitionsSound(items: seq<Spanned<LegacyAst.TopLevel>>, m: Npda, j: nat, c: Option<char>, x: To)
    requires Loaded(Declarations(items).0, m) && NoErrors(LoadLogs(items))
    requires j < |m.transitions.items| && x in Cell(m.transitions.items[j], c)
    ensures c.Some? ==> c.value in m.alphabet
    ensures (x.state.index as int) < |m.stateNames.items| && SymbolsBelow(x.stack, |m.symbolNames.items|)
  {
    var d := Declarations(items).0;
    DeclarationsSound(items);
    LoadShape(items);
    NoErrorsConcat(Declarations(items).1, Ending(d).2);
    assert Lands(d.transitions, d.transitions.Keys, m.transitions.maxState as nat, j, c, x);
    var k :| k in d.transitions && KeySlot(m.transitions.maxState as nat, k) == j && k.letter == c && x in d.transitions[k];
    assert GoodTarget(x, |d.states|, |d.symbols|);
  }

  /** The lookup of a table laid out `width` states wide. */
  function WideTargets(items: seq<CharEpsilonMap<seq<To>>>, width: nat, q: State, s: Symbol, c: Option<char>): seq<To>
  {
    match At(items, Slot(width, q.index as nat, s.index as nat))
    case None => []
    case Some(cm) => Cell(cm, c)
  }

  /** Laid out at the full width of the number of states, the table gives
      for every state, popped symbol and letter exactly the targets declared
      for that starting point. */
  lemma FullWidthTargets(trans: map<Key, set<To>>, nStates: nat, nSymbols: nat, items: seq<CharEpsilonMap<seq<To>>>, q: State, s: Symbol, c: Option<char>, x: To)
    requires GoodTable(trans, nStates, nSymbols) && |items| == nSymbols * nStates && CellsOf(trans, nStates, items)
    requires (q.index as int) < nStates && (s.index as int) < nSymbols
    ensures x in WideTargets(items, nStates, q, s, c) <==> Key(q, c, s) in trans && x in trans[Key(q, c, s)]
  {
    var j := Slot(nStates, q.index as nat, s.index as nat);
    SlotInTable(nStates, nSymbols, q.index as nat, s.index as nat);
    assert nStates * nSymbols == nSymbols * nStates;
    assert WideTargets(items, nStates, q, s, c) == Cell(items[j], c);
    if x in Cell(items[j], c) {
      assert Lands(trans, trans.Keys, nStates, j, c, x);
      var k :| k in trans.Keys && k in trans && KeySlot(nStates, k) == j && k.letter == c && x in trans[k];
      assert InRange(k, nStates, nSymbols);
      SlotInjective(nStates, k.state.index as nat, k.symbol.index as nat, q.index as nat, s.index as nat);
      assert k == Key(q, c, s);
    }
    if Key(q, c, s) in trans && x in trans[Key(q, c, s)] {
      assert KeySlot(nStates, Key(q, c, s)) == j;
      assert Lands(trans, trans.Keys, nStates, j, c, x);
    }
  }

  /** With fewer than 65536 states the loaded machine's lookup gives for
      every state, popped symbol and letter exactly the targets declared for
      that starting point. */
  lemma LoadedTargets(items: seq<Spanned<LegacyAst.TopLevel>>, m: Npda, q: State, s: Symbol, c: Option<char>, x: To)
    requires Loaded(Declarations(items).0, m)
    requires |Declarations(items).0.states| < 0x1_0000
    requires (q.index as int) < |Declarations(items).0.states| && (s.index as int) < |Declarations(items).0.symbols|
    ensures var t := Declarations(items).0.transitions;
      x in Targets(m, q, s, c) <==> Key(q, c, s) in t && x in t[Key(q, c, s)]
  {
    hide Declarations, Sound, Declare;
    var d := Declarations(items).0;
    LoadReady(items);
    assert Targets(m, q, s, c) == WideTargets(m.transitions.items, |d.states|, q, s, c);
    FullWidthTargets(d.transitions, |d.states|, |d.symbols|, m.transitions.items, q, s, c, x);
  }

  /** With exactly 65536 states the width `states.len() as u16` is 0, so
      every popped symbol reads the cell of stack symbol 0: a target
      declared for popping stack symbol 0 is also taken when popping any
      other stack symbol. */
  lemma WideTableAliases(items: seq<Spanned<LegacyAst.TopLevel>>, m: Npda, q: State, s: Symbol, c: Option<char>, x: To)
    requires Loaded(Declarations(items).0, m)
    requires |Declarations(items).0.states| == 0x1_0000 && (s.index as int) < |Declarations(items).0.symbols|
    requires var t := Declarations(items).0.transitions;
      Key(q, c, Symbol(0)) in t && x in t[Key(q, c, Symbol(0))]
    ensures x in Targets(m, q, s, c)
  {
    var d := Declarations(items).0;
    var t := m.transitions;
    assert t.maxState == 0;
    var j := q.index as nat;
    assert Slot(0, q.index as nat, s.index as nat) == j;
    assert |t.items| == |d.symbols| * 0x1_0000;
    assert KeySlot(0, Key(q, c, Symbol(0))) == j;
    assert Lands(d.transitions, d.transitions.Keys, 0, j, c, x);
  }

  /** The 65536th state gets index 65535 without an error, so a machine
      with 65536 states loads. */
  lemma LastIndexQuiet(m: map<string, u16>, item: Spanned<LegacyAst.Item>, tooMany: string, redefined: string)
    requires Bounded(m) && |m| == 0xFFFF
    requires LegacyAst.AsIdent(item.value).Some? && LegacyAst.AsIdent(item.value).value !in m
    ensures var (m1, logs) := NumberEntry(m, item, tooMany, redefined);
      logs == [] && |m1| == 0x1_0000 && m1[LegacyAst.AsIdent(item.value).value] == 0xFFFF
  {
  }
}
