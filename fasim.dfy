// The web FA simulator (web/root/src/simulation/fa.ts): every path of a
// nondeterministic run is kept, and one step replaces the frontier by the
// successors of all its paths. The class is proved to do what StepResult
// says; StepResult is then proved to produce, from each path in order, its
// epsilon successors and then its successors on the next letter, taken from
// the machine's transition list, and to reject exactly the paths that have
// none.

module FaSimulation {
  import opened Common
  import opened SimFrontier
  import W = WebAutomata

  /** `FaState`: a path of the run. */
  datatype Config = Config(state: string, position: nat, accepted: bool, repr: string, path: seq<W.FaTo>)

  function Key(c: Config): string
  {
    c.state
  }

  function IsAccepted(c: Config): bool
  {
    c.accepted
  }

  /** `accept`: the whole input is read and the state is final. */
  function Accepts(m: W.Fa, input: string, state: string, position: nat): bool
  {
    position == |input| && state in m.finalStates
  }

  /** `input.substring(position)`. */
  function Rest(input: string, position: nat): string
  {
    if position <= |input| then input[position..] else ""
  }

  /** The path `init_state` completes. */
  function Make(m: W.Fa, input: string, state: string, position: nat, path: seq<W.FaTo>): Config
  {
    Config(state, position, Accepts(m, input, state, position), state + " >" + Rest(input, position), path)
  }

  /** `initial`: the initial state at position 0 with an empty path. */
  function Initial(m: W.Fa, input: string): Sim<Config>
  {
    var c := Make(m, input, m.initialState, 0, []);
    Enter(Empty(), c, c.state, c.accepted)
  }

  /** `transition`: a letter move advances the position, an epsilon move
      does not; the path grows by the transition taken. */
  function Successor(m: W.Fa, input: string, from: Config, to: W.FaTo, consume: bool): Config
  {
    Make(m, input, to.state, from.position + (if consume then 1 else 0), from.path + [to])
  }

  function Successors(m: W.Fa, input: string, from: Config, tos: seq<W.FaTo>, consume: bool): (r: seq<Config>)
    ensures |r| == |tos|
  {
    seq(|tos|, k requires 0 <= k < |tos| => Successor(m, input, from, tos[k], consume))
  }

  /** One turn of the loop of `step`, for the path `from`. */
  function Expanded(m: W.Fa, input: string, s: Sim<Config>, from: Config): Sim<Config>
  {
    if from.state !in m.components then Refused(s, from)
    else
      var letters := m.components[from.state];
      var eps := W.Lookup(letters, None);
      var s1 := Enters(s, Successors(m, input, from, eps, false), Key, IsAccepted);
      if from.position >= |input| then
        if |eps| == 0 then Refused(s1, from) else s1
      else
        var trs := W.Lookup(letters, Some([input[from.position]]));
        var s2 := Enters(s1, Successors(m, input, from, trs, true), Key, IsAccepted);
        if |eps| == 0 && |trs| == 0 then Refused(s2, from) else s2
  }

  function ExpandedAll(m: W.Fa, input: string, s: Sim<Config>, ps: seq<Config>): Sim<Config>
    decreases |ps|
  {
    if ps == [] then s else Expanded(m, input, ExpandedAll(m, input, s, ps[..|ps| - 1]), ps[|ps| - 1])
  }

  /** `step`: the outcome and the simulator after it. */
  function StepResult(m: W.Fa, input: string, s: Sim<Config>): (Outcome, Sim<Config>)
  {
    if |s.accepted| != 0 then (Accept, s)
    else if |s.paths| == 0 then (Reject, s)
    else
      var t := ExpandedAll(m, input, Cleared(s), s.paths);
      (Status(t), t)
  }

  // ---------------------------------------------------------------------
  // The run described from the machine's transition list.

  /** The layers were built from the transition list. */
  ghost predicate Parsed(m: W.Fa)
  {
    m.components == W.Group2(W.FaEntries(W.Flat(m.transitions)))
  }

  /** The targets of the transitions from `(state, letter)`, in the order
      the compiler listed them. */
  function Targets(m: W.Fa, state: string, letter: Option<string>): seq<W.FaTo>
  {
    W.Select(W.Flat(m.transitions), W.FaFrom(state, letter))
  }

  /** The paths one step of `from` leads to: its epsilon moves, then, before
      the end of the input, its moves on the next letter. */
  function Next(m: W.Fa, input: string, from: Config): seq<Config>
  {
    var eps := Successors(m, input, from, Targets(m, from.state, None), false);
    if from.position >= |input| then eps
    else eps + Successors(m, input, from, Targets(m, from.state, Some([input[from.position]])), true)
  }

  /** The successors of all of `ps`, path after path. */
  function Frontier(m: W.Fa, input: string, ps: seq<Config>): seq<Config>
    decreases |ps|
  {
    if ps == [] then [] else Frontier(m, input, ps[..|ps| - 1]) + Next(m, input, ps[|ps| - 1])
  }

  /** The paths of `ps` that have no successor. */
  function DeadEnds(m: W.Fa, input: string, ps: seq<Config>): seq<Config>
    decreases |ps|
  {
    if ps == [] then []
    else DeadEnds(m, input, ps[..|ps| - 1]) + (if Next(m, input, ps[|ps| - 1]) == [] then [ps[|ps| - 1]] else [])
  }

  /** One turn of the loop appends the path's successors, accepts the
      accepting ones, and rejects the path exactly when it has none. */
  lemma ExpandedSpec(m: W.Fa, input: string, s: Sim<Config>, from: Config)
    requires Parsed(m)
    ensures Extends(s, Expanded(m, input, s, from), Next(m, input, from),
                    if Next(m, input, from) == [] then [from] else [], Key, IsAccepted)
  {
    W.FaLayersExact(m.transitions, from.state, None);
    var e := Successors(m, input, from, Targets(m, from.state, None), false);
    var l := if from.position < |input| then Some([input[from.position]]) else None;
    W.FaLayersExact(m.transitions, from.state, l);
    var t := Successors(m, input, from, Targets(m, from.state, l), true);
    assert Next(m, input, from) == if from.position >= |input| then e else e + t;
    hide Enters, Successors, Extends, Next;
    ExtendsEnters(s, e, Key, IsAccepted);
    var s1 := Enters(s, e, Key, IsAccepted);
    if from.state !in m.components {
      ExtendsNothing(s, Key, IsAccepted);
      ExtendsRefused(s, s, [], [], from, Key, IsAccepted);
    } else if from.position >= |input| {
      if e == [] {
        ExtendsRefused(s, s1, e, [], from, Key, IsAccepted);
      }
    } else {
      ExtendsEnters(s1, t, Key, IsAccepted);
      var s2 := Enters(s1, t, Key, IsAccepted);
      ExtendsChain(s, s1, s2, e, t, [], [], Key, IsAccepted);
      if e == [] && t == [] {
        ExtendsRefused(s, s2, e + t, [], from, Key, IsAccepted);
      }
    }
  }

  lemma {:induction false} ExpandedAllSpec(m: W.Fa, input: string, s: Sim<Config>, ps: seq<Config>)
    requires Parsed(m)
    ensures Extends(s, ExpandedAll(m, input, s, ps), Frontier(m, input, ps), DeadEnds(m, input, ps), Key, IsAccepted)
    decreases |ps|
  {
    if ps == [] {
      ExtendsNothing(s, Key, IsAccepted);
    } else {
      hide Expanded, Next, Extends;
      var init, p := ps[..|ps| - 1], ps[|ps| - 1];
      ExpandedAllSpec(m, input, s, init);
      var t := ExpandedAll(m, input, s, init);
      ExpandedSpec(m, input, t, p);
      ExtendsChain(s, t, Expanded(m, input, t, p), Frontier(m, input, init), Next(m, input, p),
                   DeadEnds(m, input, init), if Next(m, input, p) == [] then [p] else [], Key, IsAccepted);
    }
  }

  /** `step`: with a path accepted it reports acceptance and changes
      nothing, with no path left it reports rejection; otherwise the new
      frontier is the successors of the old one, `accepted` and `rejected`
      grow by the accepting successors and the dead ends, `current_states`
      groups the new frontier, and the outcome is the new status. */
  lemma StepSpec(m: W.Fa, input: string, s: Sim<Config>)
    requires Parsed(m)
    ensures var (r, t) := StepResult(m, input, s);
      && (s.accepted != [] ==> r == Accept && t == s)
      && (s.accepted == [] && s.paths == [] ==> r == Reject && t == s)
      && (s.accepted == [] && s.paths != [] ==>
            && t.paths == Frontier(m, input, s.paths)
            && t.accepted == Accepting(t.paths, IsAccepted)
            && t.rejected == s.rejected + DeadEnds(m, input, s.paths)
            && Grouped(t, Key)
            && r == Status(t))
  {
    if s.accepted == [] && s.paths != [] {
      var c := Cleared(s);
      assert Keyed(c.paths, Key) == [];
      ExpandedAllSpec(m, input, c, s.paths);
    }
  }

  // ---------------------------------------------------------------------
  // Every path the simulator holds is well formed.

  /** A path's flag and text are those `init_state` computes, its position
      lies within the input, and it is in the state its last transition
      leads to (the initial state for the empty path). */
  ghost predicate WellFormed(m: W.Fa, input: string, c: Config)
  {
    && c.position <= |input|
    && c == Make(m, input, c.state, c.position, c.path)
    && (if c.path == [] then c.state == m.initialState else c.path[|c.path| - 1].state == c.state)
  }

  ghost predicate Valid(m: W.Fa, input: string, s: Sim<Config>)
  {
    && Grouped(s, Key)
    && (forall c :: c in s.paths ==> WellFormed(m, input, c))
    && (forall c :: c in s.accepted ==> WellFormed(m, input, c) && c.accepted)
    && (forall c :: c in s.rejected ==> WellFormed(m, input, c))
  }

  lemma NextWellFormed(m: W.Fa, input: string, from: Config)
    requires WellFormed(m, input, from)
    ensures forall c :: c in Next(m, input, from) ==> WellFormed(m, input, c)
  {
  }

  lemma {:induction false} FrontierWellFormed(m: W.Fa, input: string, ps: seq<Config>)
    requires forall c :: c in ps ==> WellFormed(m, input, c)
    ensures forall c :: c in Frontier(m, input, ps) ==> WellFormed(m, input, c)
    ensures forall c :: c in DeadEnds(m, input, ps) ==> c in ps
    decreases |ps|
  {
    if ps != [] {
      var init, p := ps[..|ps| - 1], ps[|ps| - 1];
      assert forall c :: c in init ==> c in ps;
      FrontierWellFormed(m, input, init);
      NextWellFormed(m, input, p);
    }
  }

  lemma InitialValid(m: W.Fa, input: string)
    ensures Valid(m, input, Initial(m, input))
  {
    var c := Make(m, input, m.initialState, 0, []);
    KeyedSingle(c, Key);
    W.GroupSnoc([], (c.state, c));
  }

  /** A step keeps every path well formed, so an accepted path has read the
      whole input and stands in a final state. */
  lemma StepKeepsValid(m: W.Fa, input: string, s: Sim<Config>)
    requires Parsed(m) && Valid(m, input, s)
    ensures Valid(m, input, StepResult(m, input, s).1)
    ensures forall c :: c in StepResult(m, input, s).1.accepted ==> c.position == |input| && c.state in m.finalStates
  {
    StepSpec(m, input, s);
    var t := StepResult(m, input, s).1;
    if s.accepted == [] && s.paths != [] {
      FrontierWellFormed(m, input, s.paths);
      AcceptingAccepts(t.paths, IsAccepted);
    }
  }

  // ---------------------------------------------------------------------
  // The simulator object.

  class FaSim {
    const machine: W.Fa
    const input: string
    var paths: seq<Config>
    var currentStates: map<string, seq<Config>>
    var accepted: seq<Config>
    var rejected: seq<Config>

    function State(): Sim<Config>
      reads this
    {
      Sim(paths, currentStates, accepted, rejected)
    }

    constructor (machine: W.Fa, input: string)
      ensures this.machine == machine && this.input == input
      ensures State() == Initial(machine, input)
    {
      this.machine := machine;
      this.input := input;
      paths, currentStates, accepted, rejected := [], map[], [], [];
      new;
      InitState(machine.initialState, 0, []);
    }

    /** `init_state`, given the fields `initial` or `transition` fills in. */
    method InitState(state: string, position: nat, path: seq<W.FaTo>)
      modifies this
      ensures var c := Make(machine, input, state, position, path);
        State() == Enter(old(State()), c, c.state, c.accepted)
    {
      var acc := position == |input| && state in machine.finalStates;
      var frozen := Config(state, position, acc, state + " >" + (if position <= |input| then input[position..] else ""), path);
      if acc {
        accepted := accepted + [frozen];
      }
      paths := paths + [frozen];
      if state !in currentStates {
        currentStates := currentStates[state := []];
      }
      currentStates := currentStates[state := currentStates[state] + [frozen]];
    }

    method Transition(from: Config, to: W.FaTo, consume: bool)
      modifies this
      ensures var c := Successor(machine, input, from, to, consume);
        State() == Enter(old(State()), c, c.state, c.accepted)
    {
      InitState(to.state, from.position + (if consume then 1 else 0), from.path + [to]);
    }

    /** `for (const to of tos) this.transition(from, to, consume)`. */
    method TransitionAll(from: Config, tos: seq<W.FaTo>, consume: bool)
      modifies this
      ensures State() == Enters(old(State()), Successors(machine, input, from, tos, consume), Key, IsAccepted)
    {
      hide Make;
      var j := 0;
      while j < |tos|
        invariant j <= |tos|
        invariant State() == Enters(old(State()), Successors(machine, input, from, tos[..j], consume), Key, IsAccepted)
      {
        ghost var done := Successors(machine, input, from, tos[..j], consume);
        assert Successors(machine, input, from, tos[..j + 1], consume) == done + [Successor(machine, input, from, tos[j], consume)];
        EntersSnoc(old(State()), done, Successor(machine, input, from, tos[j], consume), Key, IsAccepted);
        Transition(from, tos[j], consume);
        j := j + 1;
      }
      assert tos[..j] == tos;
    }

    /** One turn of the loop of `step`. */
    method Expand(from: Config)
      modifies this
      ensures State() == Expanded(machine, input, old(State()), from)
    {
      hide Enters, Successors;
      if from.state !in machine.components {
        rejected := rejected + [from];
        return;
      }
      var letterMap := machine.components[from.state];
      var eps := if None in letterMap then letterMap[None] else [];
      TransitionAll(from, eps, false);
      if from.position >= |input| {
        if |eps| == 0 {
          rejected := rejected + [from];
        }
        return;
      }
      var ch := [input[from.position]];
      var trs := if Some(ch) in letterMap then letterMap[Some(ch)] else [];
      TransitionAll(from, trs, true);
      if |eps| == 0 && |trs| == 0 {
        rejected := rejected + [from];
      }
    }

    method Step() returns (r: Outcome)
      modifies this
      ensures (r, State()) == StepResult(machine, input, old(State()))
    {
      hide Expanded;
      if |accepted| != 0 {
        return Accept;
      }
      if |paths| == 0 {
        return Reject;
      }
      var ps := paths;
      paths := [];
      currentStates := map[];
      var i := 0;
      while i < |ps|
        invariant i <= |ps|
        invariant State() == ExpandedAll(machine, input, Cleared(old(State())), ps[..i])
      {
        assert ps[..i + 1][..i] == ps[..i];
        Expand(ps[i]);
        i := i + 1;
      }
      assert ps[..i] == ps;
      r := if |accepted| != 0 then Accept else if |paths| == 0 then Reject else Pending;
    }
  }
}
