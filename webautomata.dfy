// The machines as the web front end receives them (web/root/src/automata.ts):
// the compiler's JSON, whose transition relation is a list of
// (from, targets) pairs, and `parse_machine_from_json`, which groups those
// pairs into the lookup layers the simulators walk (`transitions_components`)
// and into the edges the visualiser draws (`edges`).

module WebAutomata {
  import opened Common

  /** `FaTransFrom`: a state and a letter, or none for an epsilon move. */
  datatype FaFrom = FaFrom(state: string, letter: Option<string>)

  /** `FaTransTo`, with the spans of the target item and of the function. */
  datatype FaTo = FaTo(state: string, transition: Span, func: Span)

  /** `PdaTransFrom`. */
  datatype PdaFrom = PdaFrom(state: string, letter: Option<string>, symbol: string)

  /** `PdaTransTo`: the symbols to push, the last one ending on top. */
  datatype PdaTo = PdaTo(state: string, stack: seq<string>, transition: Span, func: Span)

  /** `TmTransFrom`. */
  datatype TmFrom = TmFrom(state: string, symbol: string)

  /** `TmTransTo`; the direction is kept as the string the JSON carries. */
  datatype TmTo = TmTo(state: string, symbol: string, direction: string, transition: Span, func: Span)

  /** An arrow of the drawn graph. */
  datatype Edge = Edge(repr: string, func: Span, transition: Span)

  type Edges = map<string, seq<Edge>>

  type FaLayers = map<string, map<Option<string>, seq<FaTo>>>
  type PdaLayers = map<string, map<string, map<Option<string>, seq<PdaTo>>>>
  type TmLayers = map<string, map<string, seq<TmTo>>>

  datatype Fa = Fa(
    initialState: string,
    states: map<string, Span>,
    alphabet: map<string, Span>,
    finalStates: map<string, Span>,
    transitions: seq<(FaFrom, seq<FaTo>)>,
    components: FaLayers,
    edges: Edges)

  /** `final_states` is null when the machine accepts by empty stack. */
  datatype Pda = Pda(
    initialState: string,
    initialStack: string,
    states: map<string, Span>,
    symbols: map<string, Span>,
    alphabet: map<string, Span>,
    finalStates: Option<map<string, Span>>,
    transitions: seq<(PdaFrom, seq<PdaTo>)>,
    components: PdaLayers,
    edges: Edges)

  /** The fields the compiler serialises for a Turing machine. */
  datatype Tm = Tm(
    initialState: string,
    blankSymbol: string,
    states: map<string, Span>,
    symbols: map<string, Span>,
    finalStates: map<string, Span>,
    transitions: seq<(TmFrom, seq<TmTo>)>,
    components: TmLayers,
    edges: Edges)

  datatype Machine = FaMachine(fa: Fa) | PdaMachine(pda: Pda) | TmMachine(tm: Tm)

  // ---------------------------------------------------------------------
  // Grouping a list of entries into maps of lists, one layer per key.

  function Lookup<K(==), V>(m: map<K, seq<V>>, k: K): seq<V>
  {
    if k in m then m[k] else []
  }

  function Layer<K(==), L(==), V>(m: map<K, map<L, V>>, k: K): map<L, V>
  {
    if k in m then m[k] else map[]
  }

  /** Append `v` to the list under `k`, creating the list if missing. */
  function Insert<K(==), V>(m: map<K, seq<V>>, k: K, v: V): map<K, seq<V>>
  {
    m[k := Lookup(m, k) + [v]]
  }

  function Insert2<A(==), B(==), V>(m: map<A, map<B, seq<V>>>, a: A, b: B, v: V): map<A, map<B, seq<V>>>
  {
    m[a := Insert(Layer(m, a), b, v)]
  }

  function Insert3<A(==), B(==), C(==), V>(m: map<A, map<B, map<C, seq<V>>>>, a: A, b: B, c: C, v: V): map<A, map<B, map<C, seq<V>>>>
  {
    m[a := Insert2(Layer(m, a), b, c, v)]
  }

  function Group<K(==), V>(es: seq<(K, V)>): map<K, seq<V>>
    decreases |es|
  {
    if es == [] then map[]
    else
      var e := es[|es| - 1];
      Insert(Group(es[..|es| - 1]), e.0, e.1)
  }

  function Group2<A(==), B(==), V>(es: seq<(A, (B, V))>): map<A, map<B, seq<V>>>
    decreases |es|
  {
    if es == [] then map[]
    else
      var e := es[|es| - 1];
      Insert2(Group2(es[..|es| - 1]), e.0, e.1.0, e.1.1)
  }

  function Group3<A(==), B(==), C(==), V>(es: seq<(A, (B, (C, V)))>): map<A, map<B, map<C, seq<V>>>>
    decreases |es|
  {
    if es == [] then map[]
    else
      var e := es[|es| - 1];
      Insert3(Group3(es[..|es| - 1]), e.0, e.1.0, e.1.1.0, e.1.1.1)
  }

  /** The values of the entries under `a`, in order: the reference the
      groupings are measured against. */
  function Select<A(==), X>(es: seq<(A, X)>, a: A): seq<X>
    decreases |es|
  {
    if es == [] then []
    else
      var e := es[|es| - 1];
      Select(es[..|es| - 1], a) + (if e.0 == a then [e.1] else [])
  }

  lemma {:induction false} SelectEmpty<A, X>(es: seq<(A, X)>, a: A)
    ensures Select(es, a) != [] <==> exists i :: 0 <= i < |es| && es[i].0 == a
    decreases |es|
  {
    if es != [] {
      var init := es[..|es| - 1];
      SelectEmpty(init, a);
      if exists i :: 0 <= i < |init| && init[i].0 == a {
        var i :| 0 <= i < |init| && init[i].0 == a;
        assert es[i].0 == a;
      }
      if exists i :: 0 <= i < |es| && es[i].0 == a {
        var i :| 0 <= i < |es| && es[i].0 == a;
        if i < |init| {
          assert init[i].0 == a;
        }
      }
    }
  }

  /** Every value selected under `a` comes from an entry under `a`. */
  lemma {:induction false} SelectMembers<A, X>(es: seq<(A, X)>, a: A)
    ensures forall x :: x in Select(es, a) ==> (a, x) in es
    decreases |es|
  {
    if es != [] {
      SelectMembers(es[..|es| - 1], a);
      assert forall e :: e in es[..|es| - 1] ==> e in es;
    }
  }

  /** A grouped map lists, under each key, exactly the entries with that
      key, in order, and has no other keys. */
  lemma {:induction false} GroupSelects<K, V>(es: seq<(K, V)>, k: K)
    ensures k in Group(es) <==> Select(es, k) != []
    ensures Lookup(Group(es), k) == Select(es, k)
    decreases |es|
  {
    if es != [] {
      GroupSelects(es[..|es| - 1], k);
    }
  }

  /** The first layer of a two-level grouping is the grouping of the
      entries under each first key. */
  lemma {:induction false} Group2Selects<A, B, V>(es: seq<(A, (B, V))>, a: A)
    ensures a in Group2(es) <==> Select(es, a) != []
    ensures Layer(Group2(es), a) == Group(Select(es, a))
    decreases |es|
  {
    if es != [] {
      var init := es[..|es| - 1];
      var e := es[|es| - 1];
      Group2Selects(init, a);
      assert Select(es, a) == Select(init, a) + (if e.0 == a then [e.1] else []);
      if e.0 == a {
        GroupSnoc(Select(init, a), e.1);
      } else {
        assert Select(es, a) == Select(init, a);
      }
    }
  }

  lemma {:induction false} Group3Selects<A, B, C, V>(es: seq<(A, (B, (C, V)))>, a: A)
    ensures a in Group3(es) <==> Select(es, a) != []
    ensures Layer(Group3(es), a) == Group2(Select(es, a))
    decreases |es|
  {
    if es != [] {
      var init := es[..|es| - 1];
      var e := es[|es| - 1];
      Group3Selects(init, a);
      assert Select(es, a) == Select(init, a) + (if e.0 == a then [e.1] else []);
      if e.0 == a {
        Group2Snoc(Select(init, a), e.1);
      } else {
        assert Select(es, a) == Select(init, a);
      }
    }
  }

  lemma SelectSnoc<A, X>(es: seq<(A, X)>, e: (A, X), a: A)
    ensures Select(es + [e], a) == Select(es, a) + (if e.0 == a then [e.1] else [])
  {
    assert (es + [e])[..|es|] == es;
  }

  lemma GroupSnoc<K, V>(es: seq<(K, V)>, e: (K, V))
    ensures Group(es + [e]) == Insert(Group(es), e.0, e.1)
  {
    assert (es + [e])[..|es|] == es;
  }

  lemma Group2Snoc<A, B, V>(es: seq<(A, (B, V))>, e: (A, (B, V)))
    ensures Group2(es + [e]) == Insert2(Group2(es), e.0, e.1.0, e.1.1)
  {
    assert (es + [e])[..|es|] == es;
  }

  lemma Group3Snoc<A, B, C, V>(es: seq<(A, (B, (C, V)))>, e: (A, (B, (C, V))))
    ensures Group3(es + [e]) == Insert3(Group3(es), e.0, e.1.0, e.1.1.0, e.1.1.1)
  {
    assert (es + [e])[..|es|] == es;
  }

  // ---------------------------------------------------------------------
  // The (from, to) pairs of a transition list, in the order the loops of
  // `parse_machine_from_json` visit them.

  function Pairs<F, T>(f: F, tos: seq<T>): (r: seq<(F, T)>)
    ensures |r| == |tos| && forall k :: 0 <= k < |tos| ==> r[k] == (f, tos[k])
  {
    seq(|tos|, k requires 0 <= k < |tos| => (f, tos[k]))
  }

  function Flat<F, T>(ts: seq<(F, seq<T>)>): seq<(F, T)>
    decreases |ts|
  {
    if ts == [] then [] else Flat(ts[..|ts| - 1]) + Pairs(ts[|ts| - 1].0, ts[|ts| - 1].1)
  }

  lemma FlatStep<F, T>(ts: seq<(F, seq<T>)>, i: nat)
    requires i < |ts|
    ensures Flat(ts[..i + 1]) == Flat(ts[..i]) + Pairs(ts[i].0, ts[i].1)
  {
    assert ts[..i + 1][..i] == ts[..i];
  }

  lemma PairsStep<F, T>(f: F, tos: seq<T>, j: nat)
    requires j < |tos|
    ensures Pairs(f, tos[..j + 1]) == Pairs(f, tos[..j]) + [(f, tos[j])]
  {
  }

  /** The bounds of the inner loop: no target visited yet, and all of them. */
  lemma PairsBounds<F, T>(ts: seq<(F, seq<T>)>, i: nat)
    requires i < |ts|
    ensures Flat(ts[..i]) + Pairs(ts[i].0, ts[i].1[..0]) == Flat(ts[..i])
    ensures Flat(ts[..i]) + Pairs(ts[i].0, ts[i].1[..|ts[i].1|]) == Flat(ts[..i + 1])
  {
    FlatStep(ts, i);
    assert ts[i].1[..|ts[i].1|] == ts[i].1;
  }

  lemma FlatBounds<F, T>(ts: seq<(F, seq<T>)>)
    ensures Flat(ts[..0]) == [] && ts[..|ts|] == ts
  {
    assert ts[..0] == [];
  }

  /** `from.state + "#" + to.state`. */
  function EdgeKey(from: string, to: string): string
  {
    from + "#" + to
  }

  lemma {:induction false} FirstHash(x: string, y: string, i: nat)
    requires '#' !in x && i <= |x|
    ensures FindFrom(EdgeKey(x, y), '#', i) == |x|
    decreases |x| - i
  {
    var s := EdgeKey(x, y);
    if i < |x| {
      assert s[i] == x[i];
      FirstHash(x, y, i + 1);
    } else {
      assert s[i] == '#';
    }
  }

  /** When state names hold no `#`, an edge key names one pair of states. */
  lemma EdgeKeyInjective(a: string, b: string, c: string, d: string)
    requires '#' !in a && '#' !in c && EdgeKey(a, b) == EdgeKey(c, d)
    ensures a == c && b == d
  {
    FirstHash(a, b, 0);
    FirstHash(c, d, 0);
    var s := EdgeKey(a, b);
    assert a == s[..|a|] == c;
    assert b == s[|a| + 1..] == d;
  }

  /** `x ? x : "ε"` on a letter: a missing or empty letter shows as ε. */
  function LetterOrEpsilon(letter: Option<string>): (r: string)
    ensures letter.Some? && letter.value != "" ==> r == letter.value
    ensures letter.None? || letter.value == "" ==> r == "ε"
  {
    if letter.Some? && letter.value != "" then letter.value else "ε"
  }

  /** `Array.prototype.join` (and an array's `toString`, with ","). */
  function Joined(parts: seq<string>, sep: string): string
    decreases |parts|
  {
    if parts == [] then ""
    else if |parts| == 1 then parts[0]
    else Joined(parts[..|parts| - 1], sep) + sep + parts[|parts| - 1]
  }

  // ---------------------------------------------------------------------
  // The entries each kind of machine files its pairs under.

  function FaEntry(p: (FaFrom, FaTo)): (string, (Option<string>, FaTo))
  {
    (p.0.state, (p.0.letter, p.1))
  }

  function FaEdge(p: (FaFrom, FaTo)): (string, Edge)
  {
    (EdgeKey(p.0.state, p.1.state), Edge(LetterOrEpsilon(p.0.letter), p.1.func, p.1.transition))
  }

  function FaEntries(ps: seq<(FaFrom, FaTo)>): seq<(string, (Option<string>, FaTo))>
  {
    seq(|ps|, k requires 0 <= k < |ps| => FaEntry(ps[k]))
  }

  function FaEdges(ps: seq<(FaFrom, FaTo)>): seq<(string, Edge)>
  {
    seq(|ps|, k requires 0 <= k < |ps| => FaEdge(ps[k]))
  }

  function PdaEntry(p: (PdaFrom, PdaTo)): (string, (string, (Option<string>, PdaTo)))
  {
    (p.0.state, (p.0.symbol, (p.0.letter, p.1)))
  }

  /** `letter-or-ε,symbol->[pushed]`. */
  function PdaLabel(from: PdaFrom, to: PdaTo): string
  {
    LetterOrEpsilon(from.letter) + "," + from.symbol + "->[" + Joined(to.stack, ",") + "]"
  }

  function PdaEdge(p: (PdaFrom, PdaTo)): (string, Edge)
  {
    (EdgeKey(p.0.state, p.1.state), Edge(PdaLabel(p.0, p.1), p.1.func, p.1.transition))
  }

  function PdaEntries(ps: seq<(PdaFrom, PdaTo)>): seq<(string, (string, (Option<string>, PdaTo)))>
  {
    seq(|ps|, k requires 0 <= k < |ps| => PdaEntry(ps[k]))
  }

  function PdaEdges(ps: seq<(PdaFrom, PdaTo)>): seq<(string, Edge)>
  {
    seq(|ps|, k requires 0 <= k < |ps| => PdaEdge(ps[k]))
  }

  function TmEntry(p: (TmFrom, TmTo)): (string, (string, TmTo))
  {
    (p.0.state, (p.0.symbol, p.1))
  }

  /** `symbol->symbol,direction`. */
  function TmLabel(from: TmFrom, to: TmTo): string
  {
    from.symbol + "->" + to.symbol + "," + to.direction
  }

  function TmEdge(p: (TmFrom, TmTo)): (string, Edge)
  {
    (EdgeKey(p.0.state, p.1.state), Edge(TmLabel(p.0, p.1), p.1.func, p.1.transition))
  }

  function TmEntries(ps: seq<(TmFrom, TmTo)>): seq<(string, (string, TmTo))>
  {
    seq(|ps|, k requires 0 <= k < |ps| => TmEntry(ps[k]))
  }

  function TmEdges(ps: seq<(TmFrom, TmTo)>): seq<(string, Edge)>
  {
    seq(|ps|, k requires 0 <= k < |ps| => TmEdge(ps[k]))
  }

  // ---------------------------------------------------------------------
  // What the groupings hold, in terms of the transition list.

  lemma {:induction false} FaSelect(ps: seq<(FaFrom, FaTo)>, s: string, l: Option<string>)
    ensures Select(Select(FaEntries(ps), s), l) == Select(ps, FaFrom(s, l))
    decreases |ps|
  {
    if ps != [] {
      var init, p := ps[..|ps| - 1], ps[|ps| - 1];
      FaSelect(init, s, l);
      var e := FaEntry(p);
      assert ps == init + [p];
      assert FaEntries(ps) == FaEntries(init) + [e];
      SelectSnoc(FaEntries(init), e, s);
      SelectSnoc(init, p, FaFrom(s, l));
      var x := Select(FaEntries(init), s);
      if e.0 == s {
        SelectSnoc(x, e.1, l);
      } else {
        assert x + [] == x;
      }
    }
  }

  lemma {:induction false} PdaSelect(ps: seq<(PdaFrom, PdaTo)>, s: string, sym: string, l: Option<string>)
    ensures Select(Select(Select(PdaEntries(ps), s), sym), l) == Select(ps, PdaFrom(s, l, sym))
    decreases |ps|
  {
    if ps != [] {
      var init, p := ps[..|ps| - 1], ps[|ps| - 1];
      PdaSelect(init, s, sym, l);
      var e := PdaEntry(p);
      assert ps == init + [p];
      assert PdaEntries(ps) == PdaEntries(init) + [e];
      SelectSnoc(PdaEntries(init), e, s);
      SelectSnoc(init, p, PdaFrom(s, l, sym));
      var x := Select(PdaEntries(init), s);
      if e.0 == s {
        SelectSnoc(x, e.1, sym);
        var y := Select(x, sym);
        if e.1.0 == sym {
          SelectSnoc(y, e.1.1, l);
        } else {
          assert y + [] == y;
        }
      } else {
        assert x + [] == x;
      }
    }
  }

  lemma {:induction false} TmSelect(ps: seq<(TmFrom, TmTo)>, s: string, sym: string)
    ensures Select(Select(TmEntries(ps), s), sym) == Select(ps, TmFrom(s, sym))
    decreases |ps|
  {
    if ps != [] {
      var init, p := ps[..|ps| - 1], ps[|ps| - 1];
      TmSelect(init, s, sym);
      var e := TmEntry(p);
      assert ps == init + [p];
      assert TmEntries(ps) == TmEntries(init) + [e];
      SelectSnoc(TmEntries(init), e, s);
      SelectSnoc(init, p, TmFrom(s, sym));
      var x := Select(TmEntries(init), s);
      if e.0 == s {
        SelectSnoc(x, e.1, sym);
      } else {
        assert x + [] == x;
      }
    }
  }

  /** `transitions_components` of an FA has a layer for exactly the states
      some transition leaves, and lists under `[s][l]` every target of the
      transitions from `(s, l)`, once each, in order. */
  lemma FaLayersExact(ts: seq<(FaFrom, seq<FaTo>)>, s: string, l: Option<string>)
    ensures var ps := Flat(ts);
      && (s in Group2(FaEntries(ps)) <==> exists i :: 0 <= i < |ps| && ps[i].0.state == s)
      && Lookup(Layer(Group2(FaEntries(ps)), s), l) == Select(ps, FaFrom(s, l))
  {
    var ps := Flat(ts);
    var es := FaEntries(ps);
    Group2Selects(es, s);
    GroupSelects(Select(es, s), l);
    FaSelect(ps, s, l);
    SelectEmpty(es, s);
    if exists i :: 0 <= i < |es| && es[i].0 == s {
      var i :| 0 <= i < |es| && es[i].0 == s;
      assert ps[i].0.state == s;
    }
    if exists i :: 0 <= i < |ps| && ps[i].0.state == s {
      var i :| 0 <= i < |ps| && ps[i].0.state == s;
      assert es[i].0 == s;
    }
  }

  /** A PDA's layers are state, then stack top, then letter. */
  lemma PdaLayersExact(ts: seq<(PdaFrom, seq<PdaTo>)>, s: string, sym: string, l: Option<string>)
    ensures var ps := Flat(ts);
      && (s in Group3(PdaEntries(ps)) <==> exists i :: 0 <= i < |ps| && ps[i].0.state == s)
      && Lookup(Layer(Layer(Group3(PdaEntries(ps)), s), sym), l) == Select(ps, PdaFrom(s, l, sym))
  {
    var ps := Flat(ts);
    var es := PdaEntries(ps);
    Group3Selects(es, s);
    Group2Selects(Select(es, s), sym);
    GroupSelects(Select(Select(es, s), sym), l);
    PdaSelect(ps, s, sym, l);
    SelectEmpty(es, s);
    if exists i :: 0 <= i < |es| && es[i].0 == s {
      var i :| 0 <= i < |es| && es[i].0 == s;
      assert ps[i].0.state == s;
    }
    if exists i :: 0 <= i < |ps| && ps[i].0.state == s {
      var i :| 0 <= i < |ps| && ps[i].0.state == s;
      assert es[i].0 == s;
    }
  }

  /** A Turing machine's layers are state, then the symbol read. */
  lemma TmLayersExact(ts: seq<(TmFrom, seq<TmTo>)>, s: string, sym: string)
    ensures var ps := Flat(ts);
      && (s in Group2(TmEntries(ps)) <==> exists i :: 0 <= i < |ps| && ps[i].0.state == s)
      && Lookup(Layer(Group2(TmEntries(ps)), s), sym) == Select(ps, TmFrom(s, sym))
  {
    var ps := Flat(ts);
    var es := TmEntries(ps);
    Group2Selects(es, s);
    GroupSelects(Select(es, s), sym);
    TmSelect(ps, s, sym);
    SelectEmpty(es, s);
    if exists i :: 0 <= i < |es| && es[i].0 == s {
      var i :| 0 <= i < |es| && es[i].0 == s;
      assert ps[i].0.state == s;
    }
    if exists i :: 0 <= i < |ps| && ps[i].0.state == s {
      var i :| 0 <= i < |ps| && ps[i].0.state == s;
      assert es[i].0 == s;
    }
  }

  /** Every pair adds exactly one edge, under the key of its two states, and
      each key lists exactly the edges of the pairs between those states. */
  lemma EdgesExact(es: seq<(string, Edge)>, key: string)
    ensures key in Group(es) <==> exists i :: 0 <= i < |es| && es[i].0 == key
    ensures Lookup(Group(es), key) == Select(es, key)
  {
    GroupSelects(es, key);
    SelectEmpty(es, key);
  }

  /** One edge per pair, carrying the pair's spans. */
  lemma FaEdgePerPair(ps: seq<(FaFrom, FaTo)>, i: nat)
    requires i < |ps|
    ensures |FaEdges(ps)| == |ps|
    ensures FaEdges(ps)[i] == (EdgeKey(ps[i].0.state, ps[i].1.state), Edge(LetterOrEpsilon(ps[i].0.letter), ps[i].1.func, ps[i].1.transition))
  {
  }

  // ---------------------------------------------------------------------
  // The grouping loops of `parse_machine_from_json`.

  /** The machine with its layers and edges built from its transitions;
      every other field is kept. */
  method ParseMachine(raw: Machine) returns (m: Machine)
    ensures raw.FaMachine? ==> m == FaMachine(raw.fa.(
      components := Group2(FaEntries(Flat(raw.fa.transitions))),
      edges := Group(FaEdges(Flat(raw.fa.transitions)))))
    ensures raw.PdaMachine? ==> m == PdaMachine(raw.pda.(
      components := Group3(PdaEntries(Flat(raw.pda.transitions))),
      edges := Group(PdaEdges(Flat(raw.pda.transitions)))))
    ensures raw.TmMachine? ==> m == TmMachine(raw.tm.(
      components := Group2(TmEntries(Flat(raw.tm.transitions))),
      edges := Group(TmEdges(Flat(raw.tm.transitions)))))
  {
    match raw
    case FaMachine(fa) =>
      var components, edges := GroupFa(fa.transitions);
      m := FaMachine(fa.(components := components, edges := edges));
    case PdaMachine(pda) =>
      var components, edges := GroupPda(pda.transitions);
      m := PdaMachine(pda.(components := components, edges := edges));
    case TmMachine(tm) =>
      var components, edges := GroupTm(tm.transitions);
      m := TmMachine(tm.(components := components, edges := edges));
  }

  lemma FaPairStep(done: seq<(FaFrom, FaTo)>, from: FaFrom, tos: seq<FaTo>, j: nat)
    requires j < |tos|
    ensures var ps := done + Pairs(from, tos[..j]);
      && Group2(FaEntries(done + Pairs(from, tos[..j + 1]))) == Insert2(Group2(FaEntries(ps)), from.state, from.letter, tos[j])
      && Group(FaEdges(done + Pairs(from, tos[..j + 1]))) == Insert(Group(FaEdges(ps)), EdgeKey(from.state, tos[j].state), FaEdge((from, tos[j])).1)
  {
    var ps := done + Pairs(from, tos[..j]);
    PairsStep(from, tos, j);
    assert done + Pairs(from, tos[..j + 1]) == ps + [(from, tos[j])];
    assert FaEntries(ps + [(from, tos[j])]) == FaEntries(ps) + [FaEntry((from, tos[j]))];
    assert FaEdges(ps + [(from, tos[j])]) == FaEdges(ps) + [FaEdge((from, tos[j]))];
    Group2Snoc(FaEntries(ps), FaEntry((from, tos[j])));
    GroupSnoc(FaEdges(ps), FaEdge((from, tos[j])));
  }

  lemma PdaPairStep(done: seq<(PdaFrom, PdaTo)>, from: PdaFrom, tos: seq<PdaTo>, j: nat)
    requires j < |tos|
    ensures var ps := done + Pairs(from, tos[..j]);
      && Group3(PdaEntries(done + Pairs(from, tos[..j + 1]))) == Insert3(Group3(PdaEntries(ps)), from.state, from.symbol, from.letter, tos[j])
      && Group(PdaEdges(done + Pairs(from, tos[..j + 1]))) == Insert(Group(PdaEdges(ps)), EdgeKey(from.state, tos[j].state), PdaEdge((from, tos[j])).1)
  {
    var ps := done + Pairs(from, tos[..j]);
    PairsStep(from, tos, j);
    assert done + Pairs(from, tos[..j + 1]) == ps + [(from, tos[j])];
    assert PdaEntries(ps + [(from, tos[j])]) == PdaEntries(ps) + [PdaEntry((from, tos[j]))];
    assert PdaEdges(ps + [(from, tos[j])]) == PdaEdges(ps) + [PdaEdge((from, tos[j]))];
    Group3Snoc(PdaEntries(ps), PdaEntry((from, tos[j])));
    GroupSnoc(PdaEdges(ps), PdaEdge((from, tos[j])));
  }

  lemma TmPairStep(done: seq<(TmFrom, TmTo)>, from: TmFrom, tos: seq<TmTo>, j: nat)
    requires j < |tos|
    ensures var ps := done + Pairs(from, tos[..j]);
      && Group2(TmEntries(done + Pairs(from, tos[..j + 1]))) == Insert2(Group2(TmEntries(ps)), from.state, from.symbol, tos[j])
      && Group(TmEdges(done + Pairs(from, tos[..j + 1]))) == Insert(Group(TmEdges(ps)), EdgeKey(from.state, tos[j].state), TmEdge((from, tos[j])).1)
  {
    var ps := done + Pairs(from, tos[..j]);
    PairsStep(from, tos, j);
    assert done + Pairs(from, tos[..j + 1]) == ps + [(from, tos[j])];
    assert TmEntries(ps + [(from, tos[j])]) == TmEntries(ps) + [TmEntry((from, tos[j]))];
    assert TmEdges(ps + [(from, tos[j])]) == TmEdges(ps) + [TmEdge((from, tos[j]))];
    Group2Snoc(TmEntries(ps), TmEntry((from, tos[j])));
    GroupSnoc(TmEdges(ps), TmEdge((from, tos[j])));
  }

  /** The FA case: each (from, to) pair appended to its layer and given its edge. */
  method GroupFa(ts: seq<(FaFrom, seq<FaTo>)>) returns (components: FaLayers, edges: Edges)
    ensures components == Group2(FaEntries(Flat(ts)))
    ensures edges == Group(FaEdges(Flat(ts)))
  {
    components, edges := map[], map[];
    FlatBounds(ts);
    assert components == Group2(FaEntries(Flat(ts[..0]))) && edges == Group(FaEdges(Flat(ts[..0])));
    hide Group2, Group, FaEntries, FaEdges, Pairs, Flat;
    var i := 0;
    while i < |ts|
      invariant i <= |ts|
      invariant components == Group2(FaEntries(Flat(ts[..i])))
      invariant edges == Group(FaEdges(Flat(ts[..i])))
    {
      PairsBounds(ts, i);
      components, edges := FaTargets(components, edges, Flat(ts[..i]), ts[i].0, ts[i].1);
      i := i + 1;
    }
  }

  /** The inner loop, over the targets of one `from`. */
  method FaTargets(components0: FaLayers, edges0: Edges, ghost done: seq<(FaFrom, FaTo)>, from: FaFrom, tos: seq<FaTo>)
      returns (components: FaLayers, edges: Edges)
    requires done + Pairs(from, tos[..0]) == done
    requires components0 == Group2(FaEntries(done)) && edges0 == Group(FaEdges(done))
    ensures components == Group2(FaEntries(done + Pairs(from, tos[..|tos|])))
    ensures edges == Group(FaEdges(done + Pairs(from, tos[..|tos|])))
  {
    hide Group2, Group, FaEntries, FaEdges, Pairs;
    components, edges := components0, edges0;
    var j := 0;
    while j < |tos|
      invariant j <= |tos|
      invariant components == Group2(FaEntries(done + Pairs(from, tos[..j])))
      invariant edges == Group(FaEdges(done + Pairs(from, tos[..j])))
    {
      var to := tos[j];
      FaPairStep(done, from, tos, j);
      var layer1 := if from.state in components then components[from.state] else map[];
      var layer2 := if from.letter in layer1 then layer1[from.letter] else [];
      components := components[from.state := layer1[from.letter := layer2 + [to]]];
      var key := from.state + "#" + to.state;
      var list := if key in edges then edges[key] else [];
      edges := edges[key := list + [Edge(if from.letter.Some? && from.letter.value != "" then from.letter.value else "ε", to.func, to.transition)]];
      j := j + 1;
    }
  }

  /** The PDA case: layers by state, stack symbol and letter. */
  method GroupPda(ts: seq<(PdaFrom, seq<PdaTo>)>) returns (components: PdaLayers, edges: Edges)
    ensures components == Group3(PdaEntries(Flat(ts)))
    ensures edges == Group(PdaEdges(Flat(ts)))
  {
    components, edges := map[], map[];
    FlatBounds(ts);
    assert components == Group3(PdaEntries(Flat(ts[..0]))) && edges == Group(PdaEdges(Flat(ts[..0])));
    hide Group3, Group, PdaEntries, PdaEdges, Pairs, Flat;
    var i := 0;
    while i < |ts|
      invariant i <= |ts|
      invariant components == Group3(PdaEntries(Flat(ts[..i])))
      invariant edges == Group(PdaEdges(Flat(ts[..i])))
    {
      PairsBounds(ts, i);
      components, edges := PdaTargets(components, edges, Flat(ts[..i]), ts[i].0, ts[i].1);
      i := i + 1;
    }
  }

  /** The inner loop, over the targets of one `from`. */
  method PdaTargets(components0: PdaLayers, edges0: Edges, ghost done: seq<(PdaFrom, PdaTo)>, from: PdaFrom, tos: seq<PdaTo>)
      returns (components: PdaLayers, edges: Edges)
    requires done + Pairs(from, tos[..0]) == done
    requires components0 == Group3(PdaEntries(done)) && edges0 == Group(PdaEdges(done))
    ensures components == Group3(PdaEntries(done + Pairs(from, tos[..|tos|])))
    ensures edges == Group(PdaEdges(done + Pairs(from, tos[..|tos|])))
  {
    hide Group3, Group, PdaEntries, PdaEdges, Pairs, PdaLabel;
    components, edges := components0, edges0;
    var j := 0;
    while j < |tos|
      invariant j <= |tos|
      invariant components == Group3(PdaEntries(done + Pairs(from, tos[..j])))
      invariant edges == Group(PdaEdges(done + Pairs(from, tos[..j])))
    {
      var to := tos[j];
      PdaPairStep(done, from, tos, j);
      var layer1 := if from.state in components then components[from.state] else map[];
      var layer2 := if from.symbol in layer1 then layer1[from.symbol] else map[];
      var layer3 := if from.letter in layer2 then layer2[from.letter] else [];
      components := components[from.state := layer1[from.symbol := layer2[from.letter := layer3 + [to]]]];
      var key := from.state + "#" + to.state;
      var list := if key in edges then edges[key] else [];
      edges := edges[key := list + [Edge(PdaLabel(from, to), to.func, to.transition)]];
      j := j + 1;
    }
  }

  /** The Turing machine case: layers by state and symbol read. */
  method GroupTm(ts: seq<(TmFrom, seq<TmTo>)>) returns (components: TmLayers, edges: Edges)
    ensures components == Group2(TmEntries(Flat(ts)))
    ensures edges == Group(TmEdges(Flat(ts)))
  {
    components, edges := map[], map[];
    FlatBounds(ts);
    assert components == Group2(TmEntries(Flat(ts[..0]))) && edges == Group(TmEdges(Flat(ts[..0])));
    hide Group2, Group, TmEntries, TmEdges, Pairs, Flat;
    var i := 0;
    while i < |ts|
      invariant i <= |ts|
      invariant components == Group2(TmEntries(Flat(ts[..i])))
      invariant edges == Group(TmEdges(Flat(ts[..i])))
    {
      PairsBounds(ts, i);
      components, edges := TmTargets(components, edges, Flat(ts[..i]), ts[i].0, ts[i].1);
      i := i + 1;
    }
  }

  /** The inner loop, over the targets of one `from`. */
  method TmTargets(components0: TmLayers, edges0: Edges, ghost done: seq<(TmFrom, TmTo)>, from: TmFrom, tos: seq<TmTo>)
      returns (components: TmLayers, edges: Edges)
    requires done + Pairs(from, tos[..0]) == done
    requires components0 == Group2(TmEntries(done)) && edges0 == Group(TmEdges(done))
    ensures components == Group2(TmEntries(done + Pairs(from, tos[..|tos|])))
    ensures edges == Group(TmEdges(done + Pairs(from, tos[..|tos|])))
  {
    hide Group2, Group, TmEntries, TmEdges, Pairs;
    components, edges := components0, edges0;
    var j := 0;
    while j < |tos|
      invariant j <= |tos|
      invariant components == Group2(TmEntries(done + Pairs(from, tos[..j])))
      invariant edges == Group(TmEdges(done + Pairs(from, tos[..j])))
    {
      var to := tos[j];
      TmPairStep(done, from, tos, j);
      var layer1 := if from.state in components then components[from.state] else map[];
      var layer2 := if from.symbol in layer1 then layer1[from.symbol] else [];
      components := components[from.state := layer1[from.symbol := layer2 + [to]]];
      var key := from.state + "#" + to.state;
      var list := if key in edges then edges[key] else [];
      edges := edges[key := list + [Edge(from.symbol + "->" + to.symbol + "," + to.direction, to.func, to.transition)]];
      j := j + 1;
    }
  }
}
