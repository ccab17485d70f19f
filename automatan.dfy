// What the three machine compilers (automata/src/automatan/{fa,pda,tm}.rs)
// share: the compile options, the declaration sections that the FA and PDA
// compilers spell out identically, the insertion of one transition into a
// map of target sets, and the defaulting of a missing initial name.
//
// Every section is specified by a function returning the new value together
// with the log entries it appends, and executed by a method proved to do
// exactly that to the context's log. Folds run from the left, one element
// at a time, so that a loop over `items[..i]` unfolds by one step.

module Automatan {
  import opened Common
  import opened Log
  import opened LoaderContext
  import Ast

  /** `Options`: whether several targets per starting point, and epsilon
      moves, are permitted. */
  datatype Options = Options(nonDeterministic: bool, epsilonMoves: bool)

  /** No entry of `logs` is an error. */
  predicate NoErrors(logs: seq<LogEntry>)
  {
    forall i :: 0 <= i < |logs| ==> logs[i].level != Error
  }

  lemma NoErrorsConcat(a: seq<LogEntry>, b: seq<LogEntry>)
    ensures NoErrors(a + b) <==> NoErrors(a) && NoErrors(b)
  {
    forall i | 0 <= i < |a| ensures a[i] == (a + b)[i] {
    }
    forall i | 0 <= i < |b| ensures b[i] == (a + b)[|a| + i] {
    }
    if NoErrors(a) && NoErrors(b) {
      forall i | 0 <= i < |a + b| ensures (a + b)[i].level != Error {
        if i >= |a| {
          assert (a + b)[i] == b[i - |a|];
        }
      }
    }
  }

  /** A log made only of errors is free of errors exactly when it is empty. */
  lemma OnlyErrors(logs: seq<LogEntry>)
    requires forall i :: 0 <= i < |logs| ==> logs[i].level == Error
    ensures NoErrors(logs) <==> logs == []
  {
    if logs != [] {
      assert logs[0].level == Error;
    }
  }

  /** The error a check after the loop reports when it fails. */
  function Check(ok: bool, message: string): (r: seq<LogEntry>)
    ensures NoErrors(r) <==> ok
  {
    if ok then []
    else
      var r := [ErrorLocless(message)];
      assert r[0].level == Error;
      r
  }

  method ParseCheck(ok: bool, message: string, ctx: Context)
    requires ctx.Valid()
    modifies ctx.logs
    ensures ctx.Valid()
    ensures ctx.logs.entries == old(ctx.logs.entries) + Check(ok, message)
  {
    if !ok {
      var _ := ctx.logs.Emit(ErrorLocless(message));
    }
  }

  /** Appending in two steps is appending once. */
  lemma Appended(before: seq<LogEntry>, done: seq<LogEntry>, more: seq<LogEntry>)
    ensures (before + done) + more == before + (done + more)
  {
  }

  /** `{name:?}` for a name: the name between double quotes. */
  function Quoted(name: string): string
  {
    "\"" + name + "\""
  }

  /** `entry.emit(child)`: the entry with `child` hung below it. */
  function Chained(entry: LogEntry, child: LogEntry): (r: LogEntry)
    ensures r.level == entry.level && r.child == Some(child)
  {
    entry.(child := Some(child))
  }

  /** Emitting an entry on the log and then a note on the entry just
      emitted leaves the log with the chained entry at its end. */
  method EmitChained(logs: Logs, entry: LogEntry, child: LogEntry)
    requires logs.Valid() && entry.child.None?
    modifies logs
    ensures logs.Valid()
    ensures logs.entries == old(logs.entries) + [Chained(entry, child)]
  {
    var h := logs.Emit(entry);
    var _ := logs.EmitOn(h, child);
  }

  // ---------------------------------------------------------------------
  // Named sets: `Q` (and `T`/Γ in the PDA). Each element must be an
  // identifier; inserting a name that is already present overwrites its
  // span and logs `redefined`.

  function NameEntry(m: map<string, Span>, item: Spanned<Ast.Item>, redefined: string): (r: (map<string, Span>, seq<LogEntry>))
  {
    match Ast.AsIdent(item.value)
    case None => (m, [Ast.Mismatch("ident", item)])
    case Some(name) => (m[name := item.span], if name in m then [ErrorAt(redefined, item.span)] else [])
  }

  function NameEntries(m: map<string, Span>, items: seq<Spanned<Ast.Item>>, redefined: string): (r: (map<string, Span>, seq<LogEntry>))
    decreases |items|
  {
    if items == [] then (m, [])
    else
      var (m1, logs1) := NameEntries(m, items[..|items| - 1], redefined);
      var (m2, logs2) := NameEntry(m1, items[|items| - 1], redefined);
      (m2, logs1 + logs2)
  }

  /** The identifiers among `items`. */
  function Idents(items: seq<Spanned<Ast.Item>>): set<string>
  {
    set i | 0 <= i < |items| && Ast.AsIdent(items[i].value).Some? :: Ast.AsIdent(items[i].value).value
  }

  /** After a named set, the names are exactly the earlier ones and the
      identifiers of the set. */
  lemma {:induction false} NameEntriesKeys(m: map<string, Span>, items: seq<Spanned<Ast.Item>>, redefined: string)
    ensures NameEntries(m, items, redefined).0.Keys == m.Keys + Idents(items)
    decreases |items|
  {
    if items != [] {
      var init := items[..|items| - 1];
      NameEntriesKeys(m, init, redefined);
      IdentsSnoc(items);
    }
  }

  lemma IdentsSnoc(items: seq<Spanned<Ast.Item>>)
    requires items != []
    ensures Idents(items) == Idents(items[..|items| - 1]) + Idents([items[|items| - 1]])
  {
    var init := items[..|items| - 1];
    forall n | n in Idents(items) ensures n in Idents(init) + Idents([items[|items| - 1]]) {
      var i :| 0 <= i < |items| && Ast.AsIdent(items[i].value).Some? && Ast.AsIdent(items[i].value).value == n;
      if i < |init| {
        assert items[i] == init[i];
      } else {
        assert items[i] == [items[|items| - 1]][0];
      }
    }
    forall n | n in Idents(init) ensures n in Idents(items) {
      var i :| 0 <= i < |init| && Ast.AsIdent(init[i].value).Some? && Ast.AsIdent(init[i].value).value == n;
      assert init[i] == items[i];
    }
  }

  /** The entries a named set logs come after the ones of any prefix of it. */
  lemma {:induction false} NameEntriesPrefix(m: map<string, Span>, items: seq<Spanned<Ast.Item>>, k: nat, redefined: string)
    requires k <= |items|
    ensures NameEntries(m, items[..k], redefined).1 <= NameEntries(m, items, redefined).1
    decreases |items|
  {
    if k < |items| {
      var init := items[..|items| - 1];
      assert init[..k] == items[..k];
      NameEntriesPrefix(m, init, k, redefined);
    } else {
      assert items[..k] == items;
    }
  }

  /** A name that occurs twice in a set is reported as redefined at its
      second occurrence. */
  lemma NameRepeatLogged(m: map<string, Span>, items: seq<Spanned<Ast.Item>>, i: nat, j: nat, redefined: string)
    requires i < j < |items|
    requires Ast.AsIdent(items[i].value).Some? && Ast.AsIdent(items[i].value) == Ast.AsIdent(items[j].value)
    ensures ErrorAt(redefined, items[j].span) in NameEntries(m, items, redefined).1
  {
    var before := items[..j];
    NameEntriesKeys(m, before, redefined);
    assert before[i] == items[i];
    assert Ast.AsIdent(items[j].value).value in NameEntries(m, before, redefined).0;
    assert items[..j + 1][..j] == before;
    NameEntriesPrefix(m, items, j + 1, redefined);
  }

  /** A named set in a section: `already` is logged first when names were
      set before, a non-list is one error, an empty list another. */
  function NamesSection(m: map<string, Span>, list: Spanned<Ast.Item>, span: Span, already: string, redefined: string, empty: string)
    : (r: (map<string, Span>, seq<LogEntry>))
  {
    var (m1, logs) := NamesBody(m, list, span, redefined, empty);
    (m1, (if |m| != 0 then [ErrorAt(already, span)] else []) + logs)
  }

  /** A names section never forgets a name. */
  lemma NamesSectionGrows(m: map<string, Span>, list: Spanned<Ast.Item>, span: Span, already: string, redefined: string, empty: string)
    ensures m.Keys <= NamesSection(m, list, span, already, redefined, empty).0.Keys
  {
    if list.value.ListItem? {
      NameEntriesKeys(m, list.value.elems, redefined);
    }
  }

  lemma NameEntriesStep(m0: map<string, Span>, items: seq<Spanned<Ast.Item>>, i: nat, redefined: string)
    requires i < |items|
    ensures NameEntries(m0, items[..i + 1], redefined) ==
      (NameEntry(NameEntries(m0, items[..i], redefined).0, items[i], redefined).0,
       NameEntries(m0, items[..i], redefined).1 + NameEntry(NameEntries(m0, items[..i], redefined).0, items[i], redefined).1)
  {
    assert items[..i + 1][..i] == items[..i];
  }

  method ParseNameEntry(m0: map<string, Span>, item: Spanned<Ast.Item>, redefined: string, ctx: Context) returns (m: map<string, Span>)
    requires ctx.Valid()
    modifies ctx.logs
    ensures ctx.Valid()
    ensures m == NameEntry(m0, item, redefined).0
    ensures ctx.logs.entries == old(ctx.logs.entries) + NameEntry(m0, item, redefined).1
  {
    m := m0;
    var ident := Ast.ExpectIdent(item, ctx);
    if ident.Some? {
      var present := ident.value in m;
      m := m[ident.value := item.span];
      if present {
        var _ := ctx.logs.Emit(ErrorAt(redefined, item.span));
      }
    }
  }

  method ParseNameEntries(m0: map<string, Span>, items: seq<Spanned<Ast.Item>>, redefined: string, ctx: Context) returns (m: map<string, Span>)
    requires ctx.Valid()
    modifies ctx.logs
    ensures ctx.Valid()
    ensures m == NameEntries(m0, items, redefined).0
    ensures ctx.logs.entries == old(ctx.logs.entries) + NameEntries(m0, items, redefined).1
  {
    m := m0;
    for i := 0 to |items|
      invariant ctx.Valid()
      invariant m == NameEntries(m0, items[..i], redefined).0
      invariant ctx.logs.entries == old(ctx.logs.entries) + NameEntries(m0, items[..i], redefined).1
    {
      NameEntriesStep(m0, items, i, redefined);
      ghost var step := NameEntry(m, items[i], redefined).1;
      m := ParseNameEntry(m, items[i], redefined, ctx);
      Appended(old(ctx.logs.entries), NameEntries(m0, items[..i], redefined).1, step);
    }
    assert items[..|items|] == items;
  }

  /** A names section after the `already` check. */
  function NamesBody(m: map<string, Span>, list: Spanned<Ast.Item>, span: Span, redefined: string, empty: string)
    : (r: (map<string, Span>, seq<LogEntry>))
  {
    match Ast.AsElements(list.value)
    case None => (m, [Ast.Mismatch("set", list)])
    case Some(elems) =>
      var (m1, logs) := NameEntries(m, elems, redefined);
      (m1, logs + (if elems == [] then [ErrorAt(empty, span)] else []))
  }

  method ParseNamesBody(m0: map<string, Span>, list: Spanned<Ast.Item>, span: Span, redefined: string, empty: string, ctx: Context)
    returns (m: map<string, Span>)
    requires ctx.Valid()
    modifies ctx.logs
    ensures ctx.Valid()
    ensures m == NamesBody(m0, list, span, redefined, empty).0
    ensures ctx.logs.entries == old(ctx.logs.entries) + NamesBody(m0, list, span, redefined, empty).1
  {
    m := m0;
    var elems := Ast.ExpectSet(list, ctx);
    if elems.None? {
      return;
    }
    m := ParseNameEntries(m0, elems.value, redefined, ctx);
    if elems.value == [] {
      var _ := ctx.logs.Emit(ErrorAt(empty, span));
      Appended(old(ctx.logs.entries), NameEntries(m0, elems.value, redefined).1, [ErrorAt(empty, span)]);
    }
  }

  method ParseNamesSection(m0: map<string, Span>, list: Spanned<Ast.Item>, span: Span, already: string, redefined: string, empty: string, ctx: Context)
    returns (m: map<string, Span>)
    requires ctx.Valid()
    modifies ctx.logs
    ensures ctx.Valid()
    ensures m == NamesSection(m0, list, span, already, redefined, empty).0
    ensures ctx.logs.entries == old(ctx.logs.entries) + NamesSection(m0, list, span, already, redefined, empty).1
  {
    ghost var pre := if |m0| != 0 then [ErrorAt(already, span)] else [];
    if |m0| != 0 {
      var _ := ctx.logs.Emit(ErrorAt(already, span));
    }
    m := ParseNamesBody(m0, list, span, redefined, empty, ctx);
    Appended(old(ctx.logs.entries), pre, NamesBody(m0, list, span, redefined, empty).1);
  }

  // ---------------------------------------------------------------------
  // The alphabet (`E`, Σ, `sigma`): like a named set, and a letter that is
  // not exactly one character is an error but is still inserted.

  function LetterEntry(m: map<string, Span>, item: Spanned<Ast.Item>): (r: (map<string, Span>, seq<LogEntry>))
  {
    match Ast.AsIdent(item.value)
    case None => (m, [Ast.Mismatch("ident", item)])
    case Some(name) =>
      (m[name := item.span],
       (if |name| != 1 then [ErrorAt("letter cannot be longer than one char", item.span)] else []) +
       (if name in m then [ErrorAt("letter redefined", item.span)] else []))
  }

  function LetterEntries(m: map<string, Span>, items: seq<Spanned<Ast.Item>>): (r: (map<string, Span>, seq<LogEntry>))
    decreases |items|
  {
    if items == [] then (m, [])
    else
      var (m1, logs1) := LetterEntries(m, items[..|items| - 1]);
      var (m2, logs2) := LetterEntry(m1, items[|items| - 1]);
      (m2, logs1 + logs2)
  }

  /** Every identifier of the alphabet becomes a letter, whether or not it
      is a single character. */
  lemma {:induction false} LetterEntriesKeys(m: map<string, Span>, items: seq<Spanned<Ast.Item>>)
    ensures LetterEntries(m, items).0.Keys == m.Keys + Idents(items)
    decreases |items|
  {
    if items != [] {
      LetterEntriesKeys(m, items[..|items| - 1]);
      IdentsSnoc(items);
    }
  }

  /** A letter of an alphabet is a single character. */
  predicate IsLetter(a: string)
  {
    |a| == 1
  }

  predicate OneCharKeys(m: map<string, Span>)
  {
    forall a :: a in m ==> IsLetter(a)
  }

  /** Letters are never dropped, and when nothing was reported every letter
      is a single character. */
  lemma {:induction false} LetterEntriesSound(m: map<string, Span>, items: seq<Spanned<Ast.Item>>)
    ensures m.Keys <= LetterEntries(m, items).0.Keys
    ensures OneCharKeys(m) && NoErrors(LetterEntries(m, items).1) ==> OneCharKeys(LetterEntries(m, items).0)
    decreases |items|
  {
    if items != [] {
      var init := items[..|items| - 1];
      LetterEntriesSound(m, init);
      var (m1, logs1) := LetterEntries(m, init);
      var (m2, logs2) := LetterEntry(m1, items[|items| - 1]);
      NoErrorsConcat(logs1, logs2);
      if Ast.AsIdent(items[|items| - 1].value).Some? {
        var name := Ast.AsIdent(items[|items| - 1].value).value;
        if |name| != 1 {
          assert logs2[0].level == Error;
        }
      }
    }
  }

  function LettersSection(m: map<string, Span>, list: Spanned<Ast.Item>, span: Span): (r: (map<string, Span>, seq<LogEntry>))
  {
    var (m1, logs) := LettersBody(m, list, span);
    (m1, (if |m| != 0 then [ErrorAt("alphabet already set", span)] else []) + logs)
  }

  /** The alphabet section after the `already` check. */
  function LettersBody(m: map<string, Span>, list: Spanned<Ast.Item>, span: Span): (r: (map<string, Span>, seq<LogEntry>))
  {
    match Ast.AsElements(list.value)
    case None => (m, [Ast.Mismatch("set", list)])
    case Some(elems) =>
      var (m1, logs) := LetterEntries(m, elems);
      (m1, logs + (if elems == [] then [ErrorAt("alphabet cannot be empty", span)] else []))
  }

  lemma LettersSectionSound(m: map<string, Span>, list: Spanned<Ast.Item>, span: Span)
    ensures m.Keys <= LettersSection(m, list, span).0.Keys
    ensures OneCharKeys(m) && NoErrors(LettersSection(m, list, span).1) ==> OneCharKeys(LettersSection(m, list, span).0)
  {
    var pre := if |m| != 0 then [ErrorAt("alphabet already set", span)] else [];
    NoErrorsConcat(pre, LettersBody(m, list, span).1);
    if list.value.ListItem? {
      var elems := list.value.elems;
      LetterEntriesSound(m, elems);
      var tail := if elems == [] then [ErrorAt("alphabet cannot be empty", span)] else [];
      NoErrorsConcat(LetterEntries(m, elems).1, tail);
    }
  }

  lemma LetterEntriesStep(m0: map<string, Span>, items: seq<Spanned<Ast.Item>>, i: nat)
    requires i < |items|
    ensures LetterEntries(m0, items[..i + 1]) ==
      (LetterEntry(LetterEntries(m0, items[..i]).0, items[i]).0,
       LetterEntries(m0, items[..i]).1 + LetterEntry(LetterEntries(m0, items[..i]).0, items[i]).1)
  {
    assert items[..i + 1][..i] == items[..i];
  }

  method ParseLetterEntry(m0: map<string, Span>, item: Spanned<Ast.Item>, ctx: Context) returns (m: map<string, Span>)
    requires ctx.Valid()
    modifies ctx.logs
    ensures ctx.Valid()
    ensures m == LetterEntry(m0, item).0
    ensures ctx.logs.entries == old(ctx.logs.entries) + LetterEntry(m0, item).1
  {
    m := m0;
    var ident := Ast.ExpectIdent(item, ctx);
    if ident.Some? {
      if |ident.value| != 1 {
        var _ := ctx.logs.Emit(ErrorAt("letter cannot be longer than one char", item.span));
      }
      var present := ident.value in m;
      m := m[ident.value := item.span];
      if present {
        var _ := ctx.logs.Emit(ErrorAt("letter redefined", item.span));
      }
    }
  }

  method ParseLetterEntries(m0: map<string, Span>, items: seq<Spanned<Ast.Item>>, ctx: Context) returns (m: map<string, Span>)
    requires ctx.Valid()
    modifies ctx.logs
    ensures ctx.Valid()
    ensures m == LetterEntries(m0, items).0
    ensures ctx.logs.entries == old(ctx.logs.entries) + LetterEntries(m0, items).1
  {
    m := m0;
    for i := 0 to |items|
      invariant ctx.Valid()
      invariant m == LetterEntries(m0, items[..i]).0
      invariant ctx.logs.entries == old(ctx.logs.entries) + LetterEntries(m0, items[..i]).1
    {
      LetterEntriesStep(m0, items, i);
      ghost var step := LetterEntry(m, items[i]).1;
      m := ParseLetterEntry(m, items[i], ctx);
      Appended(old(ctx.logs.entries), LetterEntries(m0, items[..i]).1, step);
    }
    assert items[..|items|] == items;
  }

  method ParseLettersBody(m0: map<string, Span>, list: Spanned<Ast.Item>, span: Span, ctx: Context) returns (m: map<string, Span>)
    requires ctx.Valid()
    modifies ctx.logs
    ensures ctx.Valid()
    ensures m == LettersBody(m0, list, span).0
    ensures ctx.logs.entries == old(ctx.logs.entries) + LettersBody(m0, list, span).1
  {
    m := m0;
    var elems := Ast.ExpectSet(list, ctx);
    if elems.None? {
      return;
    }
    m := ParseLetterEntries(m0, elems.value, ctx);
    if elems.value == [] {
      var _ := ctx.logs.Emit(ErrorAt("alphabet cannot be empty", span));
      Appended(old(ctx.logs.entries), LetterEntries(m0, elems.value).1, [ErrorAt("alphabet cannot be empty", span)]);
    }
  }

  method ParseLettersSection(m0: map<string, Span>, list: Spanned<Ast.Item>, span: Span, ctx: Context) returns (m: map<string, Span>)
    requires ctx.Valid()
    modifies ctx.logs
    ensures ctx.Valid()
    ensures m == LettersSection(m0, list, span).0
    ensures ctx.logs.entries == old(ctx.logs.entries) + LettersSection(m0, list, span).1
  {
    ghost var pre := if |m0| != 0 then [ErrorAt("alphabet already set", span)] else [];
    if |m0| != 0 {
      var _ := ctx.logs.Emit(ErrorAt("alphabet already set", span));
    }
    m := ParseLettersBody(m0, list, span, ctx);
    Appended(old(ctx.logs.entries), pre, LettersBody(m0, list, span).1);
  }

  // ---------------------------------------------------------------------
  // Final states: a name is accepted only if it is already a state.

  function FinalEntry(states: map<string, Span>, finals: map<string, Span>, item: Spanned<Ast.Item>): (r: (map<string, Span>, seq<LogEntry>))
  {
    match Ast.AsIdent(item.value)
    case None => (finals, [Ast.Mismatch("ident", item)])
    case Some(name) =>
      if name in states then
        (finals[name := item.span], if name in finals then [ErrorAt("final state redefined", item.span)] else [])
      else (finals, [ErrorAt("final state not defined in set of states", item.span)])
  }

  function FinalEntries(states: map<string, Span>, finals: map<string, Span>, items: seq<Spanned<Ast.Item>>): (r: (map<string, Span>, seq<LogEntry>))
    decreases |items|
  {
    if items == [] then (finals, [])
    else
      var (f1, logs1) := FinalEntries(states, finals, items[..|items| - 1]);
      var (f2, logs2) := FinalEntry(states, f1, items[|items| - 1]);
      (f2, logs1 + logs2)
  }

  /** Final states stay among the states, whatever is logged; an identifier
      that is not a state is reported at its own span. */
  lemma {:induction false} FinalEntriesWithinStates(states: map<string, Span>, finals: map<string, Span>, items: seq<Spanned<Ast.Item>>)
    requires finals.Keys <= states.Keys
    ensures FinalEntries(states, finals, items).0.Keys <= states.Keys
    ensures forall i :: 0 <= i < |items| && Ast.AsIdent(items[i].value).Some? && Ast.AsIdent(items[i].value).value !in states ==>
      ErrorAt("final state not defined in set of states", items[i].span) in FinalEntries(states, finals, items).1
    decreases |items|
  {
    if items != [] {
      var init := items[..|items| - 1];
      FinalEntriesWithinStates(states, finals, init);
      forall i | 0 <= i < |items| - 1
        ensures items[i] == init[i]
      {
      }
    }
  }

  lemma FinalEntriesStep(states: map<string, Span>, f0: map<string, Span>, items: seq<Spanned<Ast.Item>>, i: nat)
    requires i < |items|
    ensures FinalEntries(states, f0, items[..i + 1]) ==
      (FinalEntry(states, FinalEntries(states, f0, items[..i]).0, items[i]).0,
       FinalEntries(states, f0, items[..i]).1 + FinalEntry(states, FinalEntries(states, f0, items[..i]).0, items[i]).1)
  {
    assert items[..i + 1][..i] == items[..i];
  }

  method ParseFinalEntry(states: map<string, Span>, f0: map<string, Span>, item: Spanned<Ast.Item>, ctx: Context) returns (finals: map<string, Span>)
    requires ctx.Valid()
    modifies ctx.logs
    ensures ctx.Valid()
    ensures finals == FinalEntry(states, f0, item).0
    ensures ctx.logs.entries == old(ctx.logs.entries) + FinalEntry(states, f0, item).1
  {
    finals := f0;
    var ident := Ast.ExpectIdent(item, ctx);
    if ident.Some? {
      if ident.value in states {
        var present := ident.value in finals;
        finals := finals[ident.value := item.span];
        if present {
          var _ := ctx.logs.Emit(ErrorAt("final state redefined", item.span));
        }
      } else {
        var _ := ctx.logs.Emit(ErrorAt("final state not defined in set of states", item.span));
      }
    }
  }

  method ParseFinalEntries(states: map<string, Span>, f0: map<string, Span>, items: seq<Spanned<Ast.Item>>, ctx: Context) returns (finals: map<string, Span>)
    requires ctx.Valid()
    modifies ctx.logs
    ensures ctx.Valid()
    ensures finals == FinalEntries(states, f0, items).0
    ensures ctx.logs.entries == old(ctx.logs.entries) + FinalEntries(states, f0, items).1
  {
    finals := f0;
    for i := 0 to |items|
      invariant ctx.Valid()
      invariant finals == FinalEntries(states, f0, items[..i]).0
      invariant ctx.logs.entries == old(ctx.logs.entries) + FinalEntries(states, f0, items[..i]).1
    {
      FinalEntriesStep(states, f0, items, i);
      ghost var step := FinalEntry(states, finals, items[i]).1;
      finals := ParseFinalEntry(states, finals, items[i], ctx);
      Appended(old(ctx.logs.entries), FinalEntries(states, f0, items[..i]).1, step);
    }
    assert items[..|items|] == items;
  }

  // ---------------------------------------------------------------------
  // A named choice (`I`/`q0`, and `S`/`z0` in the PDA): the item must be an
  // identifier naming a declared entry; a second choice is also reported.

  function ChoiceSection(current: Option<string>, declared: map<string, Span>, item: Spanned<Ast.Item>, span: Span, already: string, undeclared: string)
    : (r: (Option<string>, seq<LogEntry>))
    ensures r.0.Some? ==> r.0 == current || r.0.value in declared
  {
    match Ast.AsIdent(item.value)
    case None => (current, [ErrorAt("expected ident", item.span)])
    case Some(name) =>
      var pre := if current.Some? then [ErrorAt(already, span)] else [];
      if name in declared then (Some(name), pre) else (current, pre + [ErrorAt(undeclared, item.span)])
  }

  method ParseChoiceSection(current: Option<string>, declared: map<string, Span>, item: Spanned<Ast.Item>, span: Span, already: string, undeclared: string, ctx: Context)
    returns (choice: Option<string>)
    requires ctx.Valid()
    modifies ctx.logs
    ensures ctx.Valid()
    ensures choice == ChoiceSection(current, declared, item, span, already, undeclared).0
    ensures ctx.logs.entries == old(ctx.logs.entries) + ChoiceSection(current, declared, item, span, already, undeclared).1
  {
    choice := current;
    if Ast.AsIdent(item.value).None? {
      var _ := ctx.logs.Emit(ErrorAt("expected ident", item.span));
      return;
    }
    var name := item.value.symbol.name;
    if current.Some? {
      var _ := ctx.logs.Emit(ErrorAt(already, span));
    }
    if name in declared {
      choice := Some(name);
    } else {
      var _ := ctx.logs.Emit(ErrorAt(undeclared, item.span));
    }
  }

  /** A missing choice falls back to `fallback`: a warning when that name is
      declared, an error otherwise. */
  function DefaultChoice(current: Option<string>, declared: map<string, Span>, fallback: string, warning: string, error: string)
    : (r: (string, seq<LogEntry>))
    ensures current.Some? ==> r == (current.value, [])
    ensures current.None? ==> r.0 == fallback && |r.1| == 1 && (r.1[0].level == Error <==> fallback !in declared)
  {
    match current
    case Some(name) => (name, [])
    case None => (fallback, if fallback in declared then [WarningLocless(warning)] else [ErrorLocless(error)])
  }

  method ParseDefaultChoice(current: Option<string>, declared: map<string, Span>, fallback: string, warning: string, error: string, ctx: Context)
    returns (name: string)
    requires ctx.Valid()
    modifies ctx.logs
    ensures ctx.Valid()
    ensures name == DefaultChoice(current, declared, fallback, warning, error).0
    ensures ctx.logs.entries == old(ctx.logs.entries) + DefaultChoice(current, declared, fallback, warning, error).1
  {
    if current.Some? {
      return current.value;
    }
    if fallback in declared {
      var _ := ctx.logs.Emit(WarningLocless(warning));
    } else {
      var _ := ctx.logs.Emit(ErrorLocless(error));
    }
    name := fallback;
  }

  // ---------------------------------------------------------------------
  // Transitions.

  const NONDETERMINISM := "transition already defined for this starting point (non determinism not permitted)"

  /** Adding target `to` under the starting point `from`: any second target
      is an error unless non-determinism is permitted, and a target already
      present is a warning. */
  function AddTarget<K, V>(trans: map<K, set<V>>, from: K, to: V, at: Span, o: Options): (r: (map<K, set<V>>, seq<LogEntry>))
  {
    var entry := if from in trans then trans[from] else {};
    (trans[from := entry + {to}],
     (if entry != {} && !o.nonDeterministic then [ErrorAt(NONDETERMINISM, at)] else []) +
     (if to in entry then [WarningAt("duplicate transition", at)] else []))
  }

  /** Re-adding a target that is present changes nothing and is only a
      warning. */
  lemma AddTargetDuplicate<K, V>(trans: map<K, set<V>>, from: K, to: V, at: Span, o: Options)
    requires from in trans && to in trans[from]
    ensures AddTarget(trans, from, to, at, o).0 == trans
    ensures WarningAt("duplicate transition", at) in AddTarget(trans, from, to, at, o).1
    ensures o.nonDeterministic ==> NoErrors(AddTarget(trans, from, to, at, o).1)
  {
    assert trans[from] + {to} == trans[from];
  }

  /** Every starting point has at least one target, and exactly one unless
      non-determinism is permitted or an error was reported. */
  predicate Branching<K, V>(trans: map<K, set<V>>, o: Options, errors: bool)
  {
    forall k :: k in trans ==> trans[k] != {} && (!o.nonDeterministic && !errors ==> |trans[k]| == 1)
  }

  /** Adding a target keeps the branching discipline, records the target
      under its starting point and leaves every other starting point alone. */
  lemma AddTargetKeeps<K, V>(trans: map<K, set<V>>, from: K, to: V, at: Span, o: Options, errors: bool)
    requires Branching(trans, o, errors)
    ensures Branching(AddTarget(trans, from, to, at, o).0, o, errors || !NoErrors(AddTarget(trans, from, to, at, o).1))
    ensures AddTarget(trans, from, to, at, o).0.Keys == trans.Keys + {from}
    ensures to in AddTarget(trans, from, to, at, o).0[from]
    ensures forall k :: k in trans && k != from ==> AddTarget(trans, from, to, at, o).0[k] == trans[k]
  {
    var entry := if from in trans then trans[from] else {};
    if entry != {} && !o.nonDeterministic {
      assert AddTarget(trans, from, to, at, o).1[0].level == Error;
    }
  }

  method ParseAddTarget<K, V>(trans: map<K, set<V>>, from: K, to: V, at: Span, o: Options, ctx: Context) returns (r: map<K, set<V>>)
    requires ctx.Valid()
    modifies ctx.logs
    ensures ctx.Valid()
    ensures r == AddTarget(trans, from, to, at, o).0
    ensures ctx.logs.entries == old(ctx.logs.entries) + AddTarget(trans, from, to, at, o).1
  {
    var entry := if from in trans then trans[from] else {};
    if entry != {} && !o.nonDeterministic {
      var _ := ctx.logs.Emit(ErrorAt(NONDETERMINISM, at));
    }
    r := trans[from := entry + {to}];
    if to in entry {
      var _ := ctx.logs.Emit(WarningAt("duplicate transition", at));
    }
  }

  /** The letter of a transition: epsilon is reported unless epsilon moves
      are permitted; an undeclared letter is reported but still used. */
  function LetterOf(alphabet: map<string, Span>, letter: Spanned<Ast.Symbol>, o: Options): (r: (Option<string>, seq<LogEntry>))
    ensures letter.value.Ident? ==> r.0 == Some(letter.value.name)
    ensures letter.value.Epsilon? ==> r.0.None?
    ensures |r.1| <= 1 && (r.1 == [] <==> if letter.value.Epsilon? then o.epsilonMoves else letter.value.name in alphabet)
    ensures forall i :: 0 <= i < |r.1| ==> r.1[i].level == Error
  {
    if letter.value.Epsilon? then
      (None, if !o.epsilonMoves then [ErrorAt("epsilon moves not permitted", letter.span)] else [])
    else
      (Some(letter.value.name), if letter.value.name !in alphabet then [ErrorAt("transition letter not defined in alphabet", letter.span)] else [])
  }

  method ParseLetterOf(alphabet: map<string, Span>, letter: Spanned<Ast.Symbol>, o: Options, ctx: Context) returns (r: Option<string>)
    requires ctx.Valid()
    modifies ctx.logs
    ensures ctx.Valid()
    ensures r == LetterOf(alphabet, letter, o).0
    ensures ctx.logs.entries == old(ctx.logs.entries) + LetterOf(alphabet, letter, o).1
  {
    if letter.value.Epsilon? {
      if !o.epsilonMoves {
        var _ := ctx.logs.Emit(ErrorAt("epsilon moves not permitted", letter.span));
      }
      return None;
    }
    if letter.value.name !in alphabet {
      var _ := ctx.logs.Emit(ErrorAt("transition letter not defined in alphabet", letter.span));
    }
    r := Some(letter.value.name);
  }

  /** The names the FA and PDA accept for the transition function. */
  predicate ShortDelta(name: string)
  {
    name == "d" || name == DELTA_LOWER || name == "delta"
  }

  /** The message for a declaration name no section accepts. */
  function UnknownItem(name: string): string
  {
    "unknown item " + Quoted(name) + ", expected 'Q' | 'E' | '" + SIGMA_UPPER + "' | 'sigma' | 'F' | 'T' | '" + GAMMA_UPPER + "' | 'gamma' | 'I' | 'q0' | 'S' | 'z0'"
  }

  function UnknownShortFunction(name: string): string
  {
    "unknown function " + Quoted(name) + ", expected 'd' | 'delta' | '" + DELTA_LOWER + "'"
  }
}
