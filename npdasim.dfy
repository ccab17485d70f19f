// The nondeterministic pushdown automaton of the first simulator
// (src/automata/npda.rs) and its frontier stepper: every configuration of
// the frontier pops its top symbol and branches on the epsilon moves and on
// the moves of the next input character, and at the end of the input the
// first configuration that the acceptance test admits ends the run.
//
// Positions are byte offsets into the input; the character at a position is
// read as `input.get(position..)` and its first character.

module NpdaSimulator {
  import opened Common
  import opened SourceText
  import opened DenseMaps

  /** A target: the next state and the symbols pushed, the last one on top. */
  datatype To = To(state: State, stack: seq<Symbol>)

  datatype Npda = Npda(
    initialState: State,
    initialStack: Symbol,
    stateNames: StateMap<string>,
    symbolNames: SymbolMap<string>,
    alphabet: set<char>,
    finalStates: Option<StateMap<bool>>,
    transitions: StateSymbolMap<CharEpsilonMap<seq<To>>>)

  /** A configuration (`NpdaState`): the top of the stack is its last symbol. */
  datatype Config = Config(state: State, stack: seq<Symbol>, position: nat)

  datatype Outcome = Pending | Reject | Accept(config: Config)

  /** The character at byte `position`, if that is a boundary before the end. */
  function NextChar(input: string, position: nat): Option<char>
  {
    match IndexAt(input, position)
    case None => None
    case Some(k) => if k < |input| then Some(input[k]) else None
  }

  /** The targets for state `q`, popped symbol `top` and letter `c` (none
      for the epsilon moves); a missing entry has none. */
  function Targets(m: Npda, q: State, top: Symbol, c: Option<char>): seq<To>
  {
    match GetPair(m.transitions, q, top)
    case None => []
    case Some(cm) =>
      match GetLetter(cm, c)
      case None => []
      case Some(ts) => ts
  }

  /** The configurations the targets lead to from the stack `rest` left
      after the pop, at byte `position`. */
  function Moves(rest: seq<Symbol>, ts: seq<To>, position: nat): (r: seq<Config>)
    ensures |r| == |ts|
  {
    seq(|ts|, i requires 0 <= i < |ts| => Config(ts[i].state, rest + ts[i].stack, position))
  }

  /** The acceptance test as the source writes it: a final state, or else
      a stack equal to the initial stack, where `stack` is what is left
      after the pop. */
  predicate AcceptsAtEnd(m: Npda, q: State, stack: seq<Symbol>)
  {
    (m.finalStates.Some? && GetState(m.finalStates.value, q) == Some(true)) || stack == [m.initialStack]
  }

  /** One round of `step` over the configurations still to drain, with
      the new frontier built so far. `corrected` tests the stack before the
      pop instead of after it. */
  function StepFrom(m: Npda, input: string, todo: seq<Config>, next: seq<Config>, corrected: bool): (r: (Outcome, seq<Config>))
    decreases |todo|
  {
    if todo == [] then (if next == [] then Reject else Pending, next)
    else
      var c := todo[0];
      if c.stack == [] then StepFrom(m, input, todo[1..], next, corrected)
      else
        var top := c.stack[|c.stack| - 1];
        var rest := c.stack[..|c.stack| - 1];
        var next1 := next + Moves(rest, Targets(m, c.state, top, None), c.position);
        match NextChar(input, c.position)
        case None =>
          if AcceptsAtEnd(m, c.state, if corrected then c.stack else rest) then (Accept(Config(c.state, rest, c.position)), [])
          else StepFrom(m, input, todo[1..], next1, corrected)
        case Some(ch) =>
          StepFrom(m, input, todo[1..], next1 + Moves(rest, Targets(m, c.state, top, Some(ch)), c.position + Utf8Len(ch)), corrected)
  }

  /** `Simulator::step` as written: the outcome and the new frontier. */
  function StepResult(m: Npda, input: string, running: seq<Config>): (Outcome, seq<Config>)
  {
    StepFrom(m, input, running, [], false)
  }

  /** The step with the empty-stack test on the stack before the pop. */
  function StepCorrected(m: Npda, input: string, running: seq<Config>): (Outcome, seq<Config>)
  {
    StepFrom(m, input, running, [], true)
  }

  // ---------------------------------------------------------------------
  // What a step does.

  /** `c2` is one of the configurations that `c` steps to. */
  predicate Successor(m: Npda, input: string, c: Config, c2: Config)
  {
    && c.stack != []
    && var top := c.stack[|c.stack| - 1];
       var rest := c.stack[..|c.stack| - 1];
       || c2 in Moves(rest, Targets(m, c.state, top, None), c.position)
       || (NextChar(input, c.position).Some? &&
           c2 in Moves(rest, Targets(m, c.state, top, NextChar(input, c.position)), c.position + Utf8Len(NextChar(input, c.position).value)))
  }

  /** `c` ends the run: it has a top to pop, the input is over, and the
      acceptance test admits it. */
  predicate Ends(m: Npda, input: string, c: Config, corrected: bool)
  {
    && c.stack != []
    && NextChar(input, c.position).None?
    && AcceptsAtEnd(m, c.state, if corrected then c.stack else c.stack[..|c.stack| - 1])
  }

  /** A step accepts exactly when some configuration ends the run, and then
      the frontier is left empty. */
  lemma {:induction false} StepFromAccepts(m: Npda, input: string, todo: seq<Config>, next: seq<Config>, corrected: bool)
    ensures StepFrom(m, input, todo, next, corrected).0.Accept? <==> exists i :: 0 <= i < |todo| && Ends(m, input, todo[i], corrected)
    ensures StepFrom(m, input, todo, next, corrected).0.Accept? ==> StepFrom(m, input, todo, next, corrected).1 == []
    decreases |todo|
  {
    if todo != [] {
      var c := todo[0];
      if c.stack == [] {
        StepFromAccepts(m, input, todo[1..], next, corrected);
        assert forall i :: 1 <= i < |todo| ==> todo[i] == todo[1..][i - 1];
      } else {
        var top := c.stack[|c.stack| - 1];
        var rest := c.stack[..|c.stack| - 1];
        var next1 := next + Moves(rest, Targets(m, c.state, top, None), c.position);
        match NextChar(input, c.position)
        case None =>
          if !AcceptsAtEnd(m, c.state, if corrected then c.stack else rest) {
            StepFromAccepts(m, input, todo[1..], next1, corrected);
            assert forall i :: 1 <= i < |todo| ==> todo[i] == todo[1..][i - 1];
          } else {
            assert Ends(m, input, todo[0], corrected);
          }
        case Some(ch) =>
          StepFromAccepts(m, input, todo[1..], next1 + Moves(rest, Targets(m, c.state, top, Some(ch)), c.position + Utf8Len(ch)), corrected);
          assert forall i :: 1 <= i < |todo| ==> todo[i] == todo[1..][i - 1];
      }
    }
  }

  /** When a step does not accept, the new frontier is exactly the
      successors of the old one, and the step rejects exactly when there
      are none. */
  lemma {:induction false} StepFromFrontier(m: Npda, input: string, todo: seq<Config>, next: seq<Config>, corrected: bool, c2: Config)
    requires !StepFrom(m, input, todo, next, corrected).0.Accept?
    ensures c2 in StepFrom(m, input, todo, next, corrected).1 <==>
      c2 in next || exists i :: 0 <= i < |todo| && Successor(m, input, todo[i], c2)
    ensures StepFrom(m, input, todo, next, corrected).0 == Reject <==> StepFrom(m, input, todo, next, corrected).1 == []
    decreases |todo|
  {
    if todo != [] {
      var c := todo[0];
      assert forall i :: 1 <= i < |todo| ==> todo[i] == todo[1..][i - 1];
      if c.stack == [] {
        StepFromFrontier(m, input, todo[1..], next, corrected, c2);
      } else {
        var top := c.stack[|c.stack| - 1];
        var rest := c.stack[..|c.stack| - 1];
        var next1 := next + Moves(rest, Targets(m, c.state, top, None), c.position);
        match NextChar(input, c.position)
        case None =>
          StepFromFrontier(m, input, todo[1..], next1, corrected, c2);
        case Some(ch) =>
          StepFromFrontier(m, input, todo[1..], next1 + Moves(rest, Targets(m, c.state, top, Some(ch)), c.position + Utf8Len(ch)), corrected, c2);
      }
    }
  }

  /** A step that accepts leaves no frontier, so the step after it rejects. */
  lemma AcceptThenReject(m: Npda, input: string, running: seq<Config>)
    requires StepResult(m, input, running).0.Accept?
    ensures StepResult(m, input, StepResult(m, input, running).1) == (Reject, [])
  {
    StepFromAccepts(m, input, running, [], false);
  }

  // ---------------------------------------------------------------------
  // Positions stay on character boundaries.

  predicate Aligned(input: string, running: seq<Config>)
  {
    forall i :: 0 <= i < |running| ==> IndexAt(input, running[i].position).Some?
  }

  lemma NextCharAdvances(input: string, position: nat)
    requires IndexAt(input, position).Some? && NextChar(input, position).Some?
    ensures IndexAt(input, position + Utf8Len(NextChar(input, position).value)).Some?
  {
    var k := IndexAt(input, position).value;
    OffsetStep(input, k);
    assert Offset(input, k + 1) == position + Utf8Len(input[k]);
  }

  /** Every configuration of the new frontier sits on a character boundary
      when every configuration of the old one did. */
  lemma {:induction false} StepFromAligned(m: Npda, input: string, todo: seq<Config>, next: seq<Config>, corrected: bool)
    requires Aligned(input, todo) && Aligned(input, next)
    ensures Aligned(input, StepFrom(m, input, todo, next, corrected).1)
    decreases |todo|
  {
    if todo != [] {
      var c := todo[0];
      assert Aligned(input, todo[1..]) by {
        assert forall i :: 1 <= i < |todo| ==> todo[i] == todo[1..][i - 1];
      }
      if c.stack == [] {
        StepFromAligned(m, input, todo[1..], next, corrected);
      } else {
        var top := c.stack[|c.stack| - 1];
        var rest := c.stack[..|c.stack| - 1];
        var eps := Moves(rest, Targets(m, c.state, top, None), c.position);
        var next1 := next + eps;
        assert IndexAt(input, c.position).Some? by { assert c == todo[0]; }
        assert Aligned(input, next1);
        match NextChar(input, c.position)
        case None =>
          StepFromAligned(m, input, todo[1..], next1, corrected);
        case Some(ch) =>
          NextCharAdvances(input, c.position);
          var letters := Moves(rest, Targets(m, c.state, top, Some(ch)), c.position + Utf8Len(ch));
          assert Aligned(input, next1 + letters);
          StepFromAligned(m, input, todo[1..], next1 + letters, corrected);
      }
    }
  }

  /** On a boundary, there is no next character exactly at the end of the
      input: a run is accepted only once all of its input is read. */
  lemma NoNextCharAtEnd(input: string, position: nat)
    requires IndexAt(input, position).Some?
    ensures NextChar(input, position).None? <==> position == Utf8Width(input)
  {
    var k := IndexAt(input, position).value;
    assert input[..|input|] == input;
    if k < |input| {
      OffsetMonotone(input, k, |input|);
    }
  }

  // ---------------------------------------------------------------------
  // The empty-stack test.

  /** A machine with no transitions and no final states. */
  function Bare(): Npda
  {
    Npda(State(0), Symbol(0), StateMap(["q0"]), SymbolMap(["z0"]), {}, None, StateSymbolMap([CharEpsilonMap(map[])], 1))
  }

  /** As written, the bare machine rejects the empty input at once: after
      the pop the stack is empty, which is not the initial stack. */
  lemma EmptyStackAsWritten()
    ensures StepResult(Bare(), "", [Config(State(0), [Symbol(0)], 0)]) == (Reject, [])
  {
    var c := Config(State(0), [Symbol(0)], 0);
    assert IndexAt("", 0) == Some(0) by { assert Offset("", 0) == 0; }
    assert Targets(Bare(), State(0), Symbol(0), None) == [];
    assert !AcceptsAtEnd(Bare(), State(0), []);
  }

  /** With the test on the stack before the pop, the same run accepts. */
  lemma EmptyStackCorrected()
    ensures StepCorrected(Bare(), "", [Config(State(0), [Symbol(0)], 0)]).0.Accept?
  {
    assert IndexAt("", 0) == Some(0) by { assert Offset("", 0) == 0; }
  }

  /** With the correction, a configuration holding exactly the initial
      stack at the end of the input is accepted. */
  lemma CorrectedAcceptsInitialStack(m: Npda, input: string, running: seq<Config>, i: nat)
    requires i < |running| && running[i].stack == [m.initialStack] && NextChar(input, running[i].position).None?
    ensures StepCorrected(m, input, running).0.Accept?
  {
    assert Ends(m, input, running[i], true);
    StepFromAccepts(m, input, running, [], true);
  }

  // ---------------------------------------------------------------------
  // The simulator.

  class Simulator {
    const input: string
    const machine: Npda
    var running: seq<Config>

    /** `Simulator::begin`: one configuration, the initial state over the
        initial stack symbol at the start of the input. */
    constructor Begin(input: string, machine: Npda)
      ensures this.input == input && this.machine == machine
      ensures running == [Config(machine.initialState, [machine.initialStack], 0)]
      ensures Aligned(input, running)
    {
      this.input := input;
      this.machine := machine;
      running := [Config(machine.initialState, [machine.initialStack], 0)];
      assert Offset(input, 0) == 0 by { assert input[..0] == []; }
    }

    /** `Simulator::step`. */
    method Step() returns (r: Outcome)
      modifies this
      ensures (r, running) == StepResult(machine, input, old(running))
    {
      var next: seq<Config> := [];
      var i := 0;
      while i < |running|
        invariant i <= |running| && running == old(running)
        invariant StepFrom(machine, input, running[i..], next, false) == StepResult(machine, input, running)
      {
        assert running[i..][1..] == running[i + 1..];
        var c := running[i];
        if c.stack == [] {
          i := i + 1;
          continue;
        }
        var top := c.stack[|c.stack| - 1];
        var rest := c.stack[..|c.stack| - 1];
        next := PushMoves(next, rest, Targets(machine, c.state, top, None), c.position);
        var letter := NextChar(input, c.position);
        if letter.None? {
          if AcceptsAtEnd(machine, c.state, rest) {
            running := [];
            return Accept(Config(c.state, rest, c.position));
          }
          i := i + 1;
          continue;
        }
        next := PushMoves(next, rest, Targets(machine, c.state, top, letter), c.position + Utf8Len(letter.value));
        i := i + 1;
      }
      running := next;
      r := if next == [] then Reject else Pending;
    }
  }

  /** The inner loop of `step`: one new configuration per target. */
  method PushMoves(next: seq<Config>, rest: seq<Symbol>, ts: seq<To>, position: nat) returns (out: seq<Config>)
    ensures out == next + Moves(rest, ts, position)
  {
    out := next;
    var j := 0;
    while j < |ts|
      invariant j <= |ts|
      invariant out == next + Moves(rest, ts[..j], position)
    {
      assert Moves(rest, ts[..j + 1], position) == Moves(rest, ts[..j], position) + [Config(ts[j].state, rest + ts[j].stack, position)];
      out := out + [Config(ts[j].state, rest + ts[j].stack, position)];
      j := j + 1;
    }
    assert ts[..j] == ts;
  }
}
