// The dense tables of the first simulator (src/automata/mod.rs): states and
// stack symbols are 16-bit indices, per-state and per-symbol tables are
// vectors read by index, and the table keyed by a state and a symbol is one
// vector read at `state + max_state * symbol`.

module DenseMaps {
  import opened Common

  newtype u16 = x: int | 0 <= x < 0x1_0000

  datatype State = State(index: u16)

  datatype Symbol = Symbol(index: u16)

  datatype StateMap<T> = StateMap(items: seq<T>)

  datatype SymbolMap<T> = SymbolMap(items: seq<T>)

  datatype StateSymbolMap<T> = StateSymbolMap(items: seq<T>, maxState: u16)

  datatype CharMap<T> = CharMap(entries: map<char, T>)

  datatype CharEpsilonMap<T> = CharEpsilonMap(entries: map<Option<char>, T>)

  /** `Vec::get`: the element at `i`, or nothing past the end. */
  function At<T>(items: seq<T>, i: nat): (r: Option<T>)
    ensures r.Some? <==> i < |items|
    ensures r.Some? ==> r.value == items[i]
  {
    if i < |items| then Some(items[i]) else None
  }

  function GetState<T>(m: StateMap<T>, s: State): Option<T>
  {
    At(m.items, s.index as nat)
  }

  function GetSymbol<T>(m: SymbolMap<T>, s: Symbol): Option<T>
  {
    At(m.items, s.index as nat)
  }

  /** The slot of a (state, symbol) pair: the state varies fastest. */
  function Slot(maxState: nat, q: nat, s: nat): nat
  {
    q + maxState * s
  }

  function GetPair<T>(m: StateSymbolMap<T>, q: State, s: Symbol): Option<T>
  {
    At(m.items, Slot(m.maxState as nat, q.index as nat, s.index as nat))
  }

  function GetChar<T>(m: CharMap<T>, c: char): Option<T>
  {
    if c in m.entries then Some(m.entries[c]) else None
  }

  /** The lookup with an optional letter; `None` is the epsilon entry. */
  function GetLetter<T>(m: CharEpsilonMap<T>, c: Option<char>): Option<T>
  {
    if c in m.entries then Some(m.entries[c]) else None
  }

  /** The lookup with a letter. */
  function GetEpsilonChar<T>(m: CharEpsilonMap<T>, c: char): Option<T>
  {
    GetLetter(m, Some(c))
  }

  // ---------------------------------------------------------------------
  // Properties.

  /** A state-indexed table answers exactly for the states it has room
      for, with the element at that state's index. */
  lemma GetStateInRange<T>(m: StateMap<T>, s: State)
    ensures GetState(m, s).Some? <==> (s.index as nat) < |m.items|
    ensures GetState(m, s).Some? ==> GetState(m, s).value == m.items[s.index]
  {
  }

  lemma GetSymbolInRange<T>(m: SymbolMap<T>, s: Symbol)
    ensures GetSymbol(m, s).Some? <==> (s.index as nat) < |m.items|
    ensures GetSymbol(m, s).Some? ==> GetSymbol(m, s).value == m.items[s.index]
  {
  }

  /** Reading a character, or the same character as an optional letter, is
      the same lookup. */
  lemma GetEpsilonCharIsSome<T>(m: CharEpsilonMap<T>, c: char)
    ensures GetEpsilonChar(m, c) == GetLetter(m, Some(c))
    ensures GetLetter(m, Some(c)).Some? <==> Some(c) in m.entries
    ensures GetLetter(m, None).Some? <==> None in m.entries
  {
  }

  /** A character map answers exactly for its keys. */
  lemma GetCharIsLookup<T>(m: CharMap<T>, c: char)
    ensures GetChar(m, c).Some? <==> c in m.entries
    ensures GetChar(m, c).Some? ==> GetChar(m, c).value == m.entries[c]
  {
  }

  /** The slot determines the pair when the state is below `maxState`. */
  lemma SlotInjective(maxState: nat, q1: nat, s1: nat, q2: nat, s2: nat)
    requires q1 < maxState && q2 < maxState
    requires Slot(maxState, q1, s1) == Slot(maxState, q2, s2)
    ensures q1 == q2 && s1 == s2
  {
    SlotDecomposes(maxState, q1, s1);
    SlotDecomposes(maxState, q2, s2);
  }

  /** The state is the slot modulo `maxState`, and the symbol the quotient. */
  lemma SlotDecomposes(maxState: nat, q: nat, s: nat)
    requires q < maxState
    ensures Slot(maxState, q, s) / maxState == s
    ensures Slot(maxState, q, s) % maxState == q
  {
    var n := Slot(maxState, q, s);
    assert n == maxState * s + q;
    DivModUnique(n, maxState, s, q);
  }

  lemma DivModUnique(n: nat, d: nat, a: nat, b: nat)
    requires d > 0 && b < d && n == d * a + b
    ensures n / d == a && n % d == b
  {
    var a' := n / d;
    var b' := n % d;
    assert n == d * a' + b';
    if a' > a {
      assert d * a' >= d * (a + 1) by { MulMonotone(d, a + 1, a'); }
      assert false;
    } else if a' < a {
      assert d * a >= d * (a' + 1) by { MulMonotone(d, a' + 1, a); }
      assert false;
    }
  }

  lemma MulMonotone(d: nat, x: nat, y: nat)
    requires x <= y
    ensures d * x <= d * y
  {
  }

  /** Every pair of a state below `maxState` and a symbol below `symbols`
      has its slot inside a table of `maxState * symbols` entries. */
  lemma SlotInTable(maxState: nat, symbols: nat, q: nat, s: nat)
    requires q < maxState && s < symbols
    ensures Slot(maxState, q, s) < maxState * symbols
  {
    MulMonotone(maxState, s + 1, symbols);
  }

  /** The table of `maxState * symbols` entries that holds `f(q, s)` for
      every pair. */
  function Tabulate<T>(maxState: u16, symbols: nat, f: (nat, nat) -> T): (m: StateSymbolMap<T>)
    requires maxState > 0
    ensures |m.items| == maxState as nat * symbols && m.maxState == maxState
  {
    StateSymbolMap(seq(maxState as nat * symbols, i requires 0 <= i => f(i % maxState as nat, i / maxState as nat)), maxState)
  }

  /** A tabulated table gives back, for every state below `maxState` and
      symbol below `symbols`, what it was built from. */
  lemma TabulateGet<T>(maxState: u16, symbols: nat, f: (nat, nat) -> T, q: State, s: Symbol)
    requires maxState > 0
    requires q.index < maxState && (s.index as nat) < symbols
    ensures GetPair(Tabulate(maxState, symbols, f), q, s) == Some(f(q.index as nat, s.index as nat))
  {
    var n := Slot(maxState as nat, q.index as nat, s.index as nat);
    SlotInTable(maxState as nat, symbols, q.index as nat, s.index as nat);
    SlotDecomposes(maxState as nat, q.index as nat, s.index as nat);
  }
}
