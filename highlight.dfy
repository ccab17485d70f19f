// The editor's highlight registry (web/root/src/highlight.ts): a map from a
// key naming a span and a kind to a reference count. Adding a highlight
// counts it, removing it uncounts it and drops it at zero, and the map is
// cleared whenever a new automaton is shown. A handler "signals" when it
// emits `highlight/update`, that is, when the set of shown highlights
// changes.

module Highlight {
  import opened Common

  /** `HighlightKind`. */
  datatype Kind = Focus | Error | Warning | Success

  datatype Highlight = Highlight(span: Span, kind: Kind)

  /** `HighlightEntry`: the highlight and how many holders it has. */
  datatype Entry = Entry(span: Span, kind: Kind, count: int)

  function KindName(k: Kind): string
  {
    match k
    case Focus => "focus"
    case Error => "error"
    case Warning => "warning"
    case Success => "success"
  }

  /** `x:y`. */
  function Colon(x: string, y: string): string
  {
    x + ":" + y
  }

  /** `asKey`: the start, the end and the kind, separated by colons. */
  function AsKey(h: Highlight): string
  {
    Colon(NatToString(h.span.start), Colon(NatToString(h.span.end), KindName(h.kind)))
  }

  /** The first colon of `x:y` at or after `i` is the one after `x`. */
  lemma {:induction false} FirstColon(x: string, y: string, i: nat)
    requires AllDigits(x) && i <= |x|
    ensures FindFrom(Colon(x, y), ':', i) == |x|
    decreases |x| - i
  {
    var s := Colon(x, y);
    if i < |x| {
      assert s[i] == x[i];
      FirstColon(x, y, i + 1);
    } else {
      assert s[i] == ':';
    }
  }

  /** A string of digits ends before the first colon. */
  lemma SplitAtColon(x: string, y: string, u: string, v: string)
    requires AllDigits(x) && AllDigits(u) && Colon(x, y) == Colon(u, v)
    ensures x == u && y == v
  {
    FirstColon(x, y, 0);
    FirstColon(u, v, 0);
    var s := Colon(x, y);
    assert x == s[..|x|] == u;
    assert y == s[|x| + 1..] == v;
  }

  lemma KindNameInjective(a: Kind, b: Kind)
    requires KindName(a) == KindName(b)
    ensures a == b
  {
    var n := KindName(a);
    assert n[0] == KindName(b)[0];
    assert n[0] == 'e' ==> a == b;
    assert n[0] == 'f' ==> a == b;
    assert n[0] == 's' ==> a == b;
  }

  /** Different highlights have different keys, so the map never merges
      two of them. */
  lemma AsKeyInjective(a: Highlight, b: Highlight)
    requires AsKey(a) == AsKey(b)
    ensures a == b
  {
    var a1, a2 := NatToString(a.span.start), NatToString(a.span.end);
    var b1, b2 := NatToString(b.span.start), NatToString(b.span.end);
    SplitAtColon(a1, Colon(a2, KindName(a.kind)), b1, Colon(b2, KindName(b.kind)));
    SplitAtColon(a2, KindName(a.kind), b2, KindName(b.kind));
    NatToStringInjective(a.span.start, b.span.start);
    NatToStringInjective(a.span.end, b.span.end);
    KindNameInjective(a.kind, b.kind);
  }

  /** Every entry is stored under its own key and has at least one holder. */
  ghost predicate Valid(m: map<string, Entry>)
  {
    forall k :: k in m ==> m[k].count >= 1 && k == AsKey(Highlight(m[k].span, m[k].kind))
  }

  /** How many holders `h` has. */
  function Count(m: map<string, Entry>, h: Highlight): int
  {
    var key := AsKey(h);
    if key in m then m[key].count else 0
  }

  /** The entries under keys other than `key` are those of `m`. */
  ghost predicate OthersUnchanged(m: map<string, Entry>, r: map<string, Entry>, key: string)
  {
    forall k :: k != key ==> (k in r <==> k in m) && (k in m ==> r[k] == m[k])
  }

  /** The `highlight/one/add` handler: the new map and whether it signals. */
  function Added(m: map<string, Entry>, h: Highlight): (r: (map<string, Entry>, bool))
    ensures Valid(m) ==> Valid(r.0)
    ensures Count(r.0, h) == Count(m, h) + 1
    ensures OthersUnchanged(m, r.0, AsKey(h))
    ensures r.1 <==> AsKey(h) !in m
  {
    var key := AsKey(h);
    if key in m then (m[key := m[key].(count := m[key].count + 1)], false)
    else (m[key := Entry(h.span, h.kind, 1)], true)
  }

  /** The `highlight/one/remove` handler. */
  function Removed(m: map<string, Entry>, h: Highlight): (r: (map<string, Entry>, bool))
    ensures Valid(m) ==> Valid(r.0)
    ensures Valid(m) ==> Count(r.0, h) == if Count(m, h) == 0 then 0 else Count(m, h) - 1
    ensures OthersUnchanged(m, r.0, AsKey(h))
    ensures r.1 <==> AsKey(h) in m && Count(m, h) == 1
  {
    var key := AsKey(h);
    if key !in m then (m, false)
    else if m[key].count - 1 == 0 then (m - {key}, true)
    else (m[key := m[key].(count := m[key].count - 1)], false)
  }

  /** The `highlight/all/remove` handler. */
  function Cleared(m: map<string, Entry>): (r: (map<string, Entry>, bool))
    ensures r.0 == map[]
    ensures r.1 <==> m != map[]
  {
    if |m| != 0 then (map[], true) else (m, false)
  }

  /** Removing a highlight right after adding it restores the registry. */
  lemma RemoveUndoesAdd(m: map<string, Entry>, h: Highlight)
    requires Valid(m)
    ensures Removed(Added(m, h).0, h).0 == m
  {
    var key := AsKey(h);
    var r := Removed(Added(m, h).0, h).0;
    assert r.Keys == m.Keys;
  }

  /** A handler signals exactly when the set of shown highlights changes. */
  lemma SignalsIffKeysChange(m: map<string, Entry>, h: Highlight)
    requires Valid(m)
    ensures Added(m, h).1 <==> Added(m, h).0.Keys != m.Keys
    ensures Removed(m, h).1 <==> Removed(m, h).0.Keys != m.Keys
  {
    var key := AsKey(h);
    if key in m && Count(m, h) == 1 {
      assert key !in Removed(m, h).0;
    }
    if key !in m {
      assert key in Added(m, h).0;
    }
  }

  class Highlights {
    /** The module-level `current` map. */
    var current: map<string, Entry>

    constructor ()
      ensures current == map[]
    {
      current := map[];
    }

    method Add(h: Highlight) returns (updated: bool)
      modifies this
      ensures (current, updated) == Added(old(current), h)
    {
      var key := AsKey(h);
      if key in current {
        current := current[key := current[key].(count := current[key].count + 1)];
        updated := false;
      } else {
        current := current[key := Entry(h.span, h.kind, 1)];
        updated := true;
      }
    }

    method Remove(h: Highlight) returns (updated: bool)
      modifies this
      ensures (current, updated) == Removed(old(current), h)
    {
      var key := AsKey(h);
      updated := false;
      if key in current {
        var value := current[key].(count := current[key].count - 1);
        if value.count == 0 {
          current := current - {key};
          updated := true;
        } else {
          current := current[key := value];
        }
      }
    }

    method RemoveAll() returns (updated: bool)
      modifies this
      ensures (current, updated) == Cleared(old(current))
    {
      updated := false;
      if |current| != 0 {
        current := map[];
        updated := true;
      }
    }

    /** `automata/update`: a new automaton drops every highlight. */
    method AutomatonUpdated() returns (updated: bool)
      modifies this
      ensures current == map[] && (updated <==> old(current) != map[])
    {
      updated := RemoveAll();
    }
  }
}
