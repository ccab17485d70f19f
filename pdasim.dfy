// The web PDA simulator (web/root/src/simulation/pda.ts). As for the finite
// automaton, every path of the nondeterministic run is kept and one step
// replaces the frontier by the successors of all its paths. A move pops the
// top of the stack and pushes the transition's symbols; a move that would
// leave the stack empty creates no path and rejects its parent instead. The
// class is proved to do what StepResult says, and StepResult is proved to
// compute, from each path in order, its moves taken from the machine's
// transition list.

module PdaSimulation {
  import opened Common
  import opened SimFrontier
  import W = WebAutomata

  /** `Step`: a transition taken, with the state, the letter (None for an
      epsilon move) and the stack top it was taken from. */
  datatype PathStep = PathStep(fromState: string, fromLetter: Option<string>, fromStack: string, to: W.PdaTo)

  /** `PdaState`: a path of the run; the top of the stack is its last
      element. */
  datatype Config = Config(state: string, stack: seq<string>, position: nat, accepted: bool, repr: string, path: seq<PathStep>)

  function Key(c: Config): string
  {
    c.state
  }

  function IsAccepted(c: Config): bool
  {
    c.accepted
  }

  /** `accept`: the whole input is read, and the state is final when the
      machine lists final states, or else the stack holds exactly the
      initial stack symbol. */
  function Accepts(m: W.Pda, input: string, state: string, stack: seq<string>, position: nat): (r: bool)
    ensures r ==> position == |input|
    ensures m.finalStates.Some? ==> (r <==> position == |input| && state in m.finalStates.value)
    ensures m.finalStates.None? ==> (r <==> position == |input| && stack == [m.initialStack])
  {
    if position != |input| then false
    else match m.finalStates
      case Some(f) => state in f
      case None => |stack| == 1 && stack[0] == m.initialStack
  }

  /** `input.substring(position)`. */
  function Rest(input: string, position: nat): string
  {
    if position <= |input| then input[position..] else ""
  }

  /** The path `init_state` completes. */
  function Make(m: W.Pda, input: string, state: string, stack: seq<string>, position: nat, path: seq<PathStep>): Config
  {
    Config(state, stack, position, Accepts(m, input, state, stack, position),
           state + " [" + W.Joined(stack, ",") + "] >" + Rest(input, position), path)
  }

  /** `initial`: the initial state with the initial stack symbol, at
      position 0, with an empty path. */
  function Initial(m: W.Pda, input: string): Sim<Config>
  {
    var c := Make(m, input, m.initialState, [m.initialStack], 0, []);
    Enter(Empty(), c, c.state, c.accepted)
  }

  function Top(stack: seq<string>): string
    requires stack != []
  {
    stack[|stack| - 1]
  }

  /** `transition`: the path a move leads to, or None when popping the top
      and pushing the transition's symbols leaves the stack empty. Only a
      letter move advances the position. */
  function Successor(m: W.Pda, input: string, from: Config, to: W.PdaTo, letter: Option<string>): (r: Option<Config>)
    requires from.stack != []
    ensures r.None? <==> |from.stack| == 1 && to.stack == []
    ensures r.Some? ==>
      var n := |from.stack| - 1;
      && r.value.state == to.state
      && |r.value.stack| == n + |to.stack|
      && r.value.stack[..n] == from.stack[..n]
      && r.value.stack[n..] == to.stack
      && r.value.position == from.position + (if letter.Some? then 1 else 0)
      && r.value.path == from.path + [PathStep(from.state, letter, Top(from.stack), to)]
  {
    var next := from.stack[..|from.stack| - 1] + to.stack;
    if next == [] then None
    else
      Some(Make(m, input, to.state, next, from.position + (if letter.Some? then 1 else 0),
                from.path + [PathStep(from.state, letter, Top(from.stack), to)]))
  }

  /** One call of `transition`: the new path enters, or the parent is
      rejected. */
  function Transitioned(m: W.Pda, input: string, s: Sim<Config>, from: Config, to: W.PdaTo, letter: Option<string>): Sim<Config>
    requires from.stack != []
  {
    match Successor(m, input, from, to, letter)
    case None => Refused(s, from)
    case Some(c) => Enter(s, c, c.state, c.accepted)
  }

  /** `for (const to of tos) this.transition(from, to, letter)`. */
  function TransitionedAll(m: W.Pda, input: string, s: Sim<Config>, from: Config, tos: seq<W.PdaTo>, letter: Option<string>): Sim<Config>
    requires from.stack != []
    decreases |tos|
  {
    if tos == [] then s
    else Transitioned(m, input, TransitionedAll(m, input, s, from, tos[..|tos| - 1], letter), from, tos[|tos| - 1], letter)
  }

  /** One turn of the loop of `step`, for the path `from`. */
  function Expanded(m: W.Pda, input: string, s: Sim<Config>, from: Config): Sim<Config>
  {
    if from.stack == [] || from.state !in m.components || Top(from.stack) !in m.components[from.state] then
      Refused(s, from)
    else
      var letters := m.components[from.state][Top(from.stack)];
      var eps := W.Lookup(letters, None);
      var s1 := TransitionedAll(m, input, s, from, eps, None);
      if from.position >= |input| then
        if |eps| == 0 then Refused(s1, from) else s1
      else
        var ch := [input[from.position]];
        var trs := W.Lookup(letters, Some(ch));
        var s2 := TransitionedAll(m, input, s1, from, trs, Some(ch));
        if |eps| == 0 && |trs| == 0 then Refused(s2, from) else s2
  }

  function ExpandedAll(m: W.Pda, input: string, s: Sim<Config>, ps: seq<Config>): Sim<Config>
    decreases |ps|
  {
    if ps == [] then s else Expanded(m, input, ExpandedAll(m, input, s, ps[..|ps| - 1]), ps[|ps| - 1])
  }

  /** `step`: unlike the other simulators it sweeps the frontier even after
      a path was accepted, and then reports the status. */
  function StepResult(m: W.Pda, input: string, s: Sim<Config>): (Outcome, Sim<Config>)
  {
    var t := ExpandedAll(m, input, Cleared(s), s.paths);
    (Status(t), t)
  }

  // ---------------------------------------------------------------------
  // The run described from the machine's transition list.

  /** The layers were built from the transition list. */
  ghost predicate Parsed(m: W.Pda)
  {
    m.components == W.Group3(W.PdaEntries(W.Flat(m.transitions)))
  }

  /** The targets of the transitions from `(state, letter, top)`, in the
      order the compiler listed them. */
  function Targets(m: W.Pda, state: string, top: string, letter: Option<string>): seq<W.PdaTo>
  {
    W.Select(W.Flat(m.transitions), W.PdaFrom(state, letter, top))
  }

  /** The paths the moves to `tos` create. */
  function Moves(m: W.Pda, input: string, from: Config, tos: seq<W.PdaTo>, letter: Option<string>): seq<Config>
    requires from.stack != []
    decreases |tos|
  {
    if tos == [] then []
    else
      Moves(m, input, from, tos[..|tos| - 1], letter)
      + match Successor(m, input, from, tos[|tos| - 1], letter) case Some(c) => [c] case None => []
  }

  /** `from` once for each move to `tos` that would empty the stack. */
  function Stuck(m: W.Pda, input: string, from: Config, tos: seq<W.PdaTo>, letter: Option<string>): seq<Config>
    requires from.stack != []
    decreases |tos|
  {
    if tos == [] then []
    else
      Stuck(m, input, from, tos[..|tos| - 1], letter)
      + if Successor(m, input, from, tos[|tos| - 1], letter).None? then [from] else []
  }

  /** The paths one step of `from` leads to: its epsilon moves, then, before
      the end of the input, its moves on the next letter. */
  function Next(m: W.Pda, input: string, from: Config): seq<Config>
  {
    if from.stack == [] then []
    else
      var e := Moves(m, input, from, Targets(m, from.state, Top(from.stack), None), None);
      if from.position >= |input| then e
      else
        var l := Some([input[from.position]]);
        e + Moves(m, input, from, Targets(m, from.state, Top(from.stack), l), l)
  }

  /** The rejections of `from` in one step: one for each move that would
      empty the stack, and one more when no transition applies at all. */
  function Dead(m: W.Pda, input: string, from: Config): seq<Config>
  {
    if from.stack == [] then [from]
    else
      var e := Targets(m, from.state, Top(from.stack), None);
      if from.position >= |input| then
        Stuck(m, input, from, e, None) + (if e == [] then [from] else [])
      else
        var l := Some([input[from.position]]);
        var t := Targets(m, from.state, Top(from.stack), l);
        Stuck(m, input, from, e, None) + Stuck(m, input, from, t, l) + (if e == [] && t == [] then [from] else [])
  }

  function Frontier(m: W.Pda, input: string, ps: seq<Config>): seq<Config>
    decreases |ps|
  {
    if ps == [] then [] else Frontier(m, input, ps[..|ps| - 1]) + Next(m, input, ps[|ps| - 1])
  }

  function DeadEnds(m: W.Pda, input: string, ps: seq<Config>): seq<Config>
    decreases |ps|
  {
    if ps == [] then [] else DeadEnds(m, input, ps[..|ps| - 1]) + Dead(m, input, ps[|ps| - 1])
  }

  /** Each move either creates a path or rejects the parent, never both. */
  lemma {:induction false} MovesAccounted(m: W.Pda, input: string, from: Config, tos: seq<W.PdaTo>, letter: Option<string>)
    requires from.stack != []
    ensures |Moves(m, input, from, tos, letter)| + |Stuck(m, input, from, tos, letter)| == |tos|
    ensures |from.stack| > 1 ==> Stuck(m, input, from, tos, letter) == []
    decreases |tos|
  {
    if tos != [] {
      MovesAccounted(m, input, from, tos[..|tos| - 1], letter);
    }
  }

  /** A path with a transition that applies yields, per transition, one
      path or one rejection; a path with none is rejected exactly once. */
  lemma StepAccounted(m: W.Pda, input: string, from: Config)
    requires from.stack != []
    ensures var e := |Targets(m, from.state, Top(from.stack), None)|;
      var t := if from.position < |input| then |Targets(m, from.state, Top(from.stack), Some([input[from.position]]))| else 0;
      |Next(m, input, from)| + |Dead(m, input, from)| == if e + t == 0 then 1 else e + t
  {
    var e := Targets(m, from.state, Top(from.stack), None);
    MovesAccounted(m, input, from, e, None);
    if from.position < |input| {
      var l := Some([input[from.position]]);
      MovesAccounted(m, input, from, Targets(m, from.state, Top(from.stack), l), l);
    }
  }

  lemma {:induction false} TransitionedAllSpec(m: W.Pda, input: string, s: Sim<Config>, from: Config, tos: seq<W.PdaTo>, letter: Option<string>)
    requires from.stack != []
    ensures Extends(s, TransitionedAll(m, input, s, from, tos, letter),
                    Moves(m, input, from, tos, letter), Stuck(m, input, from, tos, letter), Key, IsAccepted)
    decreases |tos|
  {
    if tos == [] {
      ExtendsNothing(s, Key, IsAccepted);
    } else {
      var init, to := tos[..|tos| - 1], tos[|tos| - 1];
      TransitionedAllSpec(m, input, s, from, init, letter);
      var t := TransitionedAll(m, input, s, from, init, letter);
      var a, d := Moves(m, input, from, init, letter), Stuck(m, input, from, init, letter);
      match Successor(m, input, from, to, letter)
      case None =>
        assert a + [] == a;
        ExtendsRefused(s, t, a, d, from, Key, IsAccepted);
      case Some(c) =>
        assert d + [] == d;
        ExtendsEnter(s, t, a, d, c, Key, IsAccepted);
    }
  }

  /** One turn of the loop appends the path's successors, accepts the
      accepting ones and records the path's rejections. */
  lemma ExpandedSpec(m: W.Pda, input: string, s: Sim<Config>, from: Config)
    requires Parsed(m)
    ensures Extends(s, Expanded(m, input, s, from), Next(m, input, from), Dead(m, input, from), Key, IsAccepted)
  {
    if from.stack == [] {
      ExtendsNothing(s, Key, IsAccepted);
      ExtendsRefused(s, s, [], [], from, Key, IsAccepted);
    } else {
      var top := Top(from.stack);
      var l := if from.position < |input| then Some([input[from.position]]) else None;
      W.PdaLayersExact(m.transitions, from.state, top, None);
      W.PdaLayersExact(m.transitions, from.state, top, l);
      var e, t := Targets(m, from.state, top, None), Targets(m, from.state, top, l);
      var me, de := Moves(m, input, from, e, None), Stuck(m, input, from, e, None);
      var mt, dt := Moves(m, input, from, t, l), Stuck(m, input, from, t, l);
      var stop := if e == [] && (from.position >= |input| || t == []) then [from] else [];
      assert Next(m, input, from) == if from.position >= |input| then me else me + mt;
      assert Dead(m, input, from) == if from.position >= |input| then de + stop else de + dt + stop;
      assert Moves(m, input, from, [], None) == [] && Stuck(m, input, from, [], None) == [];
      hide TransitionedAll, Moves, Stuck, Extends, Next, Dead, Targets;
      TransitionedAllSpec(m, input, s, from, e, None);
      var s1 := TransitionedAll(m, input, s, from, e, None);
      if from.state !in m.components || top !in m.components[from.state] {
        ExtendsNothing(s, Key, IsAccepted);
        ExtendsRefused(s, s, [], [], from, Key, IsAccepted);
      } else if from.position >= |input| {
        if e == [] {
          ExtendsRefused(s, s1, me, de, from, Key, IsAccepted);
        } else {
          assert de + stop == de;
        }
      } else {
        TransitionedAllSpec(m, input, s1, from, t, l);
        var s2 := TransitionedAll(m, input, s1, from, t, l);
        ExtendsChain(s, s1, s2, me, mt, de, dt, Key, IsAccepted);
        if e == [] && t == [] {
          ExtendsRefused(s, s2, me + mt, de + dt, from, Key, IsAccepted);
        } else {
          assert de + dt + stop == de + dt;
        }
      }
    }
  }

  lemma {:induction false} ExpandedAllSpec(m: W.Pda, input: string, s: Sim<Config>, ps: seq<Config>)
    requires Parsed(m)
    ensures Extends(s, ExpandedAll(m, input, s, ps), Frontier(m, input, ps), DeadEnds(m, input, ps), Key, IsAccepted)
    decreases |ps|
  {
    if ps == [] {
      ExtendsNothing(s, Key, IsAccepted);
    } else {
      hide Expanded, Next, Dead, Extends;
      var init, p := ps[..|ps| - 1], ps[|ps| - 1];
      ExpandedAllSpec(m, input, s, init);
      var t := ExpandedAll(m, input, s, init);
      ExpandedSpec(m, input, t, p);
      ExtendsChain(s, t, Expanded(m, input, t, p), Frontier(m, input, init), Next(m, input, p),
                   DeadEnds(m, input, init), Dead(m, input, p), Key, IsAccepted);
    }
  }

  /** `step`: the new frontier is the successors of the old one, `accepted`
      and `rejected` grow by the accepting successors and the rejections,
      `current_states` groups the new frontier, and the outcome is the new
      status, so a run that accepted once keeps reporting acceptance. */
  lemma StepSpec(m: W.Pda, input: string, s: Sim<Config>)
    requires Parsed(m)
    ensures var (r, t) := StepResult(m, input, s);
      && t.paths == Frontier(m, input, s.paths)
      && t.accepted == s.accepted + Accepting(t.paths, IsAccepted)
      && t.rejected == s.rejected + DeadEnds(m, input, s.paths)
      && Grouped(t, Key)
      && r == Status(t)
      && (s.accepted != [] ==> r == Accept)
  {
    var c := Cleared(s);
    assert Keyed(c.paths, Key) == [];
    ExpandedAllSpec(m, input, c, s.paths);
  }

  // ---------------------------------------------------------------------
  // Every path the simulator holds is well formed.

  /** The number of letter moves on a path. */
  function Consumed(path: seq<PathStep>): nat
    decreases |path|
  {
    if path == [] then 0
    else Consumed(path[..|path| - 1]) + if path[|path| - 1].fromLetter.Some? then 1 else 0
  }

  /** A path's flag and text are those `init_state` computes; its stack is
      never empty; its position counts its letter moves and lies within the
      input; and it is in the state its last move leads to, or in the
      initial configuration when it has made none. */
  ghost predicate WellFormed(m: W.Pda, input: string, c: Config)
  {
    && c.position <= |input|
    && c.stack != []
    && c.position == Consumed(c.path)
    && c == Make(m, input, c.state, c.stack, c.position, c.path)
    && (if c.path == [] then c.state == m.initialState && c.stack == [m.initialStack]
        else c.path[|c.path| - 1].to.state == c.state)
  }

  ghost predicate Valid(m: W.Pda, input: string, s: Sim<Config>)
  {
    && Grouped(s, Key)
    && (forall c :: c in s.paths ==> WellFormed(m, input, c))
    && (forall c :: c in s.accepted ==> WellFormed(m, input, c) && c.accepted)
    && (forall c :: c in s.rejected ==> WellFormed(m, input, c))
  }

  lemma {:induction false} MovesWellFormed(m: W.Pda, input: string, from: Config, tos: seq<W.PdaTo>, letter: Option<string>)
    requires WellFormed(m, input, from)
    requires letter.Some? ==> from.position < |input|
    ensures forall c :: c in Moves(m, input, from, tos, letter) ==> WellFormed(m, input, c)
    ensures forall c :: c in Stuck(m, input, from, tos, letter) ==> c == from
    decreases |tos|
  {
    if tos != [] {
      var to := tos[|tos| - 1];
      MovesWellFormed(m, input, from, tos[..|tos| - 1], letter);
      match Successor(m, input, from, to, letter)
      case None =>
      case Some(c) =>
        var p := from.path + [PathStep(from.state, letter, Top(from.stack), to)];
        assert p[..|p| - 1] == from.path;
    }
  }

  lemma NextWellFormed(m: W.Pda, input: string, from: Config)
    requires WellFormed(m, input, from)
    ensures forall c :: c in Next(m, input, from) ==> WellFormed(m, input, c)
    ensures forall c :: c in Dead(m, input, from) ==> c == from
  {
    var e := Targets(m, from.state, Top(from.stack), None);
    MovesWellFormed(m, input, from, e, None);
    if from.position < |input| {
      var l := Some([input[from.position]]);
      MovesWellFormed(m, input, from, Targets(m, from.state, Top(from.stack), l), l);
    }
  }

  lemma {:induction false} FrontierWellFormed(m: W.Pda, input: string, ps: seq<Config>)
    requires forall c :: c in ps ==> WellFormed(m, input, c)
    ensures forall c :: c in Frontier(m, input, ps) ==> WellFormed(m, input, c)
    ensures forall c :: c in DeadEnds(m, input, ps) ==> c in ps
    decreases |ps|
  {
    if ps != [] {
      var init, p := ps[..|ps| - 1], ps[|ps| - 1];
      assert forall c :: c in init ==> c in ps;
      FrontierWellFormed(m, input, init);
      NextWellFormed(m, input, p);
    }
  }

  lemma InitialValid(m: W.Pda, input: string)
    ensures Valid(m, input, Initial(m, input))
  {
    var c := Make(m, input, m.initialState, [m.initialStack], 0, []);
    KeyedSingle(c, Key);
    W.GroupSnoc([], (c.state, c));
  }

  /** A step keeps every path well formed, so an accepted path has read the
      whole input and stands in a final state, or, without final states,
      holds just the initial stack symbol. */
  lemma StepKeepsValid(m: W.Pda, input: string, s: Sim<Config>)
    requires Parsed(m) && Valid(m, input, s)
    ensures Valid(m, input, StepResult(m, input, s).1)
    ensures forall c :: c in StepResult(m, input, s).1.accepted ==>
      && c.position == |input|
      && (m.finalStates.Some? ==> c.state in m.finalStates.value)
      && (m.finalStates.None? ==> c.stack == [m.initialStack])
  {
    StepSpec(m, input, s);
    var t := StepResult(m, input, s).1;
    FrontierWellFormed(m, input, s.paths);
    AcceptingAccepts(t.paths, IsAccepted);
  }

  // ---------------------------------------------------------------------
  // The simulator object.

  class PdaSim {
    const machine: W.Pda
    const input: string
    var paths: seq<Config>
    var currentStates: map<string, seq<Config>>
    var accepted: seq<Config>
    var rejected: seq<Config>

    function State(): Sim<Config>
      reads this
    {
      Sim(paths, currentStates, accepted, rejected)
    }

    constructor (machine: W.Pda, input: string)
      ensures this.machine == machine && this.input == input
      ensures State() == Initial(machine, input)
    {
      this.machine := machine;
      this.input := input;
      paths, currentStates, accepted, rejected := [], map[], [], [];
      new;
      InitState(machine.initialState, [machine.initialStack], 0, []);
    }

    /** `init_state`, given the fields `initial` or `transition` fills in. */
    method InitState(state: string, stack: seq<string>, position: nat, path: seq<PathStep>)
      modifies this
      ensures var c := Make(machine, input, state, stack, position, path);
        State() == Enter(old(State()), c, c.state, c.accepted)
    {
      var acc := false;
      if position == |input| {
        if machine.finalStates.Some? {
          acc := state in machine.finalStates.value;
        } else {
          acc := |stack| == 1 && stack[0] == machine.initialStack;
        }
      }
      var frozen := Config(state, stack, position, acc,
                           state + " [" + W.Joined(stack, ",") + "] >" + (if position <= |input| then input[position..] else ""), path);
      if acc {
        accepted := accepted + [frozen];
      }
      paths := paths + [frozen];
      if state !in currentStates {
        currentStates := currentStates[state := []];
      }
      currentStates := currentStates[state := currentStates[state] + [frozen]];
    }

    method Transition(from: Config, to: W.PdaTo, letter: Option<string>)
      requires from.stack != []
      modifies this
      ensures State() == Transitioned(machine, input, old(State()), from, to, letter)
    {
      var nextStack := from.stack[..|from.stack| - 1] + to.stack;
      if |nextStack| == 0 {
        rejected := rejected + [from];
        return;
      }
      InitState(to.state, nextStack, from.position + (if letter.Some? then 1 else 0),
                from.path + [PathStep(from.state, letter, from.stack[|from.stack| - 1], to)]);
    }

    method TransitionAll(from: Config, tos: seq<W.PdaTo>, letter: Option<string>)
      requires from.stack != []
      modifies this
      ensures State() == TransitionedAll(machine, input, old(State()), from, tos, letter)
    {
      hide Transitioned;
      var j := 0;
      while j < |tos|
        invariant j <= |tos|
        invariant State() == TransitionedAll(machine, input, old(State()), from, tos[..j], letter)
      {
        assert tos[..j + 1][..j] == tos[..j];
        Transition(from, tos[j], letter);
        j := j + 1;
      }
      assert tos[..j] == tos;
    }

    /** One turn of the loop of `step`. */
    method Expand(from: Config)
      modifies this
      ensures State() == Expanded(machine, input, old(State()), from)
    {
      hide TransitionedAll;
      if |from.stack| == 0 || from.state !in machine.components
         || from.stack[|from.stack| - 1] !in machine.components[from.state] {
        rejected := rejected + [from];
        return;
      }
      var letterMap := machine.components[from.state][from.stack[|from.stack| - 1]];
      var eps := if None in letterMap then letterMap[None] else [];
      TransitionAll(from, eps, None);
      if from.position >= |input| {
        if |eps| == 0 {
          rejected := rejected + [from];
        }
        return;
      }
      var ch := [input[from.position]];
      var trs := if Some(ch) in letterMap then letterMap[Some(ch)] else [];
      TransitionAll(from, trs, Some(ch));
      if |eps| == 0 && |trs| == 0 {
        rejected := rejected + [from];
      }
    }

    method Step() returns (r: Outcome)
      modifies this
      ensures (r, State()) == StepResult(machine, input, old(State()))
    {
      hide Expanded;
      var ps := paths;
      paths := [];
      currentStates := map[];
      var i := 0;
      while i < |ps|
        invariant i <= |ps|
        invariant State() == ExpandedAll(machine, input, Cleared(old(State())), ps[..i])
      {
        assert ps[..i + 1][..i] == ps[..i];
        Expand(ps[i]);
        i := i + 1;
      }
      assert ps[..i] == ps;
      r := if |accepted| != 0 then Accept else if |paths| == 0 then Reject else Pending;
    }
  }
}
