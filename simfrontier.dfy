// The bookkeeping the three web simulators share (web/root/src/simulation/
// fa.ts, pda.ts, tm.ts): the frontier of live paths, the same paths grouped
// by state for the visualiser (`current_states`), and the paths accepted and
// rejected so far. A simulator's paths are its own configurations `C`; the
// state a path is in and whether it accepts are passed as functions.

module SimFrontier {
  import W = WebAutomata

  /** `SimStepResult`. */
  datatype Outcome = Pending | Accept | Reject

  datatype Sim<C> = Sim(paths: seq<C>, current: map<string, seq<C>>, accepted: seq<C>, rejected: seq<C>)

  function Empty<C>(): Sim<C>
  {
    Sim([], map[], [], [])
  }

  /** What `init_state` does with a completed path: it joins the frontier
      and its state's group, and the accepted list when it accepts. */
  function Enter<C>(s: Sim<C>, c: C, key: string, accepting: bool): Sim<C>
  {
    Sim(s.paths + [c], W.Insert(s.current, key, c), if accepting then s.accepted + [c] else s.accepted, s.rejected)
  }

  /** Entering the paths `cs`, in order. */
  function Enters<C>(s: Sim<C>, cs: seq<C>, key: C -> string, accepts: C -> bool): Sim<C>
    decreases |cs|
  {
    if cs == [] then s
    else
      var c := cs[|cs| - 1];
      Enter(Enters(s, cs[..|cs| - 1], key, accepts), c, key(c), accepts(c))
  }

  /** `rejected.push(from)`. */
  function Refused<C>(s: Sim<C>, c: C): Sim<C>
  {
    s.(rejected := s.rejected + [c])
  }

  /** The start of a step: `paths = []` and `current_states.clear()`. */
  function Cleared<C>(s: Sim<C>): Sim<C>
  {
    s.(paths := [], current := map[])
  }

  /** `status`: accepted as soon as anything was ever accepted, rejected
      when nothing is left to run. */
  function Status<C>(s: Sim<C>): (r: Outcome)
    ensures r == Accept <==> s.accepted != []
    ensures r == Reject <==> s.accepted == [] && s.paths == []
  {
    if |s.accepted| != 0 then Accept else if |s.paths| == 0 then Reject else Pending
  }

  /** The paths of `cs` that accept, in order. */
  function Accepting<C>(cs: seq<C>, accepts: C -> bool): seq<C>
    decreases |cs|
  {
    if cs == [] then []
    else Accepting(cs[..|cs| - 1], accepts) + (if accepts(cs[|cs| - 1]) then [cs[|cs| - 1]] else [])
  }

  /** Each path filed under its state. */
  function Keyed<C>(cs: seq<C>, key: C -> string): seq<(string, C)>
  {
    seq(|cs|, k requires 0 <= k < |cs| => (key(cs[k]), cs[k]))
  }

  lemma KeyedSingle<C>(c: C, key: C -> string)
    ensures Keyed([c], key) == [] + [(key(c), c)]
  {
    var kc := Keyed([c], key);
    assert |kc| == 1 && kc[0] == (key(c), c);
  }

  /** `current_states` groups exactly the frontier by state, in order. */
  ghost predicate Grouped<C>(s: Sim<C>, key: C -> string)
  {
    s.current == W.Group(Keyed(s.paths, key))
  }

  lemma EnterGrouped<C>(s: Sim<C>, c: C, key: C -> string, accepting: bool)
    requires Grouped(s, key)
    ensures Grouped(Enter(s, c, key(c), accepting), key)
  {
    assert Keyed(s.paths + [c], key) == Keyed(s.paths, key) + [(key(c), c)];
    W.GroupSnoc(Keyed(s.paths, key), (key(c), c));
  }

  lemma EntersSnoc<C>(s: Sim<C>, cs: seq<C>, c: C, key: C -> string, accepts: C -> bool)
    ensures Enters(s, cs + [c], key, accepts) == Enter(Enters(s, cs, key, accepts), c, key(c), accepts(c))
  {
    assert (cs + [c])[..|cs|] == cs;
  }

  lemma AcceptingSnoc<C>(cs: seq<C>, c: C, accepts: C -> bool)
    ensures Accepting(cs + [c], accepts) == Accepting(cs, accepts) + (if accepts(c) then [c] else [])
  {
    assert (cs + [c])[..|cs|] == cs;
  }

  lemma {:induction false} AcceptingConcat<C>(a: seq<C>, b: seq<C>, accepts: C -> bool)
    ensures Accepting(a + b, accepts) == Accepting(a, accepts) + Accepting(b, accepts)
    decreases |b|
  {
    if b == [] {
      assert a + b == a;
    } else {
      var init, c := b[..|b| - 1], b[|b| - 1];
      AcceptingConcat(a, init, accepts);
      assert a + b == (a + init) + [c];
      assert b == init + [c];
      AcceptingSnoc(a + init, c, accepts);
      AcceptingSnoc(init, c, accepts);
    }
  }

  /** `Accepting(cs)` holds paths of `cs` that accept. */
  lemma {:induction false} AcceptingAccepts<C>(cs: seq<C>, accepts: C -> bool)
    ensures forall c :: c in Accepting(cs, accepts) ==> c in cs && accepts(c)
    decreases |cs|
  {
    if cs != [] {
      AcceptingAccepts(cs[..|cs| - 1], accepts);
      assert forall c :: c in cs[..|cs| - 1] ==> c in cs;
    }
  }

  /** Entering paths appends them to the frontier, keeps the grouping
      exact, adds the accepting ones to `accepted` and rejects nothing. */
  lemma {:induction false} EntersSpec<C>(s: Sim<C>, cs: seq<C>, key: C -> string, accepts: C -> bool)
    ensures Enters(s, cs, key, accepts).paths == s.paths + cs
    ensures Enters(s, cs, key, accepts).accepted == s.accepted + Accepting(cs, accepts)
    ensures Enters(s, cs, key, accepts).rejected == s.rejected
    ensures Grouped(s, key) ==> Grouped(Enters(s, cs, key, accepts), key)
    decreases |cs|
  {
    if cs == [] {
      assert s.paths + cs == s.paths;
      assert s.accepted + Accepting(cs, accepts) == s.accepted;
    } else {
      var init, c := cs[..|cs| - 1], cs[|cs| - 1];
      EntersSpec(s, init, key, accepts);
      assert cs == init + [c];
      AcceptingSnoc(init, c, accepts);
      if Grouped(s, key) {
        EnterGrouped(Enters(s, init, key, accepts), c, key, accepts(c));
      }
    }
  }

  /** `t` is `s` after the paths `cs` were entered and the paths `dead`
      rejected, in some interleaving. */
  ghost predicate Extends<C>(s: Sim<C>, t: Sim<C>, cs: seq<C>, dead: seq<C>, key: C -> string, accepts: C -> bool)
  {
    && t.paths == s.paths + cs
    && t.accepted == s.accepted + Accepting(cs, accepts)
    && t.rejected == s.rejected + dead
    && (Grouped(s, key) ==> Grouped(t, key))
  }

  lemma ExtendsNothing<C>(s: Sim<C>, key: C -> string, accepts: C -> bool)
    ensures Extends(s, s, [], [], key, accepts)
  {
    assert s.paths + [] == s.paths && s.accepted + [] == s.accepted && s.rejected + [] == s.rejected;
  }

  lemma ExtendsEnters<C>(s: Sim<C>, cs: seq<C>, key: C -> string, accepts: C -> bool)
    ensures Extends(s, Enters(s, cs, key, accepts), cs, [], key, accepts)
  {
    EntersSpec(s, cs, key, accepts);
    assert s.rejected + [] == s.rejected;
  }

  lemma ExtendsEnter<C>(s: Sim<C>, t: Sim<C>, cs: seq<C>, dead: seq<C>, c: C, key: C -> string, accepts: C -> bool)
    requires Extends(s, t, cs, dead, key, accepts)
    ensures Extends(s, Enter(t, c, key(c), accepts(c)), cs + [c], dead, key, accepts)
  {
    AcceptingSnoc(cs, c, accepts);
    if Grouped(s, key) {
      EnterGrouped(t, c, key, accepts(c));
    }
  }

  lemma ExtendsRefused<C>(s: Sim<C>, t: Sim<C>, cs: seq<C>, dead: seq<C>, c: C, key: C -> string, accepts: C -> bool)
    requires Extends(s, t, cs, dead, key, accepts)
    ensures Extends(s, Refused(t, c), cs, dead + [c], key, accepts)
  {
  }

  lemma ExtendsChain<C>(s: Sim<C>, t: Sim<C>, u: Sim<C>, a: seq<C>, b: seq<C>, d: seq<C>, e: seq<C>, key: C -> string, accepts: C -> bool)
    requires Extends(s, t, a, d, key, accepts) && Extends(t, u, b, e, key, accepts)
    ensures Extends(s, u, a + b, d + e, key, accepts)
  {
    AcceptingConcat(a, b, accepts);
  }
}
