// The web Turing machine simulator (web/root/src/simulation/tm.ts). Every
// path of the nondeterministic run is kept; one step replaces the frontier
// by the successors of all its paths. A path's tape is a finite window of
// the tape with the head inside it, and a move off either end of the window
// adds a blank cell there.
//
// The move left from the first cell is modelled twice: `MoveAsWritten` is
// what the source does (the new path gets an empty tape and the parent's
// tape is changed), and `Move` is the move the rest of the model uses. A
// direction other than "_", "<" and ">" leaves the new path without a tape,
// so `init_state` throws; the model reports that as `Threw`.

module TmSimulation {
  import opened Common
  import opened SimFrontier
  import W = WebAutomata
  import TuringMachines

  /** `TmState`: a path of the run. */
  datatype Config = Config(state: string, tape: seq<string>, head: nat, accepted: bool, repr: string, path: seq<W.TmTo>)

  /** How `step` ends: it returns a status, or a path without a tape makes
      it throw. */
  datatype StepOutcome = Returned(outcome: Outcome) | Threw

  /** The simulator after a sweep, and whether the sweep threw. */
  datatype Swept = Swept(sim: Sim<Config>, threw: bool)

  function Key(c: Config): string
  {
    c.state
  }

  function IsAccepted(c: Config): bool
  {
    c.accepted
  }

  /** The directions `transition` handles. */
  const Directions: set<string> := {"_", "<", ">"}

  /** The cells as `init_state` shows them, the one under the head in
      brackets. */
  function Cells(tape: seq<string>, head: nat): (r: seq<string>)
    ensures |r| == |tape|
  {
    seq(|tape|, i requires 0 <= i < |tape| => if i == head then "[" + tape[i] + "]" else tape[i])
  }

  /** The path `init_state` completes; it is accepted exactly when its state
      is final. */
  function Make(m: W.Tm, state: string, tape: seq<string>, head: nat, path: seq<W.TmTo>): Config
  {
    Config(state, tape, head, state in m.finalStates,
           state + " [ " + m.blankSymbol + " " + W.Joined(Cells(tape, head), " ") + " " + m.blankSymbol + " ]", path)
  }

  /** `input.split('')`, or a single blank for the empty input. */
  function InitialTape(input: string, blank: string): (r: seq<string>)
    ensures |r| == if input == [] then 1 else |input|
    ensures forall i :: 0 <= i < |input| ==> r[i] == [input[i]]
    ensures input == [] ==> r == [blank]
  {
    if input == [] then [blank] else seq(|input|, i requires 0 <= i < |input| => [input[i]])
  }

  /** `initial`: the initial state over the input, the head on the first
      cell, with an empty path. */
  function Initial(m: W.Tm, input: string): Sim<Config>
  {
    var c := Make(m, m.initialState, InitialTape(input, m.blankSymbol), 0, []);
    Enter(Empty(), c, c.state, c.accepted)
  }

  /** A move: write `sym` under the head, then stay ("_"), go left ("<") or
      go right (">"), adding a blank cell when the head leaves the window.
      Seen on the unbounded tape, the written cell and every other cell keep
      their place, new cells are blank, and the head moves by one cell in
      the direction given. */
  function Move(tape: seq<string>, head: nat, sym: string, dir: string, blank: string): (r: (seq<string>, nat))
    requires head < |tape| && dir in Directions
    ensures var (t, h) := r;
      var shift := if dir == "<" && head == 0 then 1 else 0;
      var grow := if dir == ">" && head + 1 == |tape| then 1 else 0;
      && |t| == |tape| + shift + grow
      && h < |t|
      && h + (if dir == "<" then 1 else 0) == head + shift + (if dir == ">" then 1 else 0)
      && t[head + shift] == sym
      && (forall i :: 0 <= i < |tape| && i != head ==> t[i + shift] == tape[i])
      && (shift == 1 ==> t[0] == blank)
      && (grow == 1 ==> t[|t| - 1] == blank)
  {
    if dir == "_" then (tape[head := sym], head)
    else if dir == "<" then
      if head == 0 then ([blank] + tape[0 := sym], 0) else (tape[head := sym], head - 1)
    else
      var t := tape[head := sym];
      (if head + 1 == |tape| then t + [blank] else t, head + 1)
  }

  /** The move as the source writes it: the new path's tape and head, and
      the parent's tape afterwards. Going left from the first cell, the
      source takes the new tape from `splice`, which returns the removed
      cells (none), and the insertion lands in the parent's tape. */
  function MoveAsWritten(tape: seq<string>, head: nat, sym: string, dir: string, blank: string): (seq<string>, nat, seq<string>)
    requires head < |tape| && dir in Directions
  {
    if dir == "<" && head == 0 then ([], 0, [sym] + tape)
    else
      var (t, h) := Move(tape, head, sym, dir, blank);
      (t, h, tape)
  }

  /** Going left from the first cell, the source leaves the new path with
      an empty tape, its head off the tape (so the next step rejects it),
      and changes the parent's tape, which its later moves then read. */
  lemma LeftFromFirstCellAsWritten(tape: seq<string>, sym: string, blank: string)
    requires tape != []
    ensures var (t, h, parent) := MoveAsWritten(tape, 0, sym, "<", blank);
      t == [] && h >= |t| && parent == [sym] + tape && parent != tape
  {
    assert |[sym] + tape| != |tape|;
  }

  /** The machine `(q0, a) -> (q1, b, <)` on the input "a": as written the
      new path has no cells; the corrected move gives the tape `_ b` with
      the head on the new blank. */
  lemma LeftFromFirstCellExample()
    ensures MoveAsWritten(["a"], 0, "b", "<", "_") == ([], 0, ["b", "a"])
    ensures Move(["a"], 0, "b", "<", "_") == (["_", "b"], 0)
  {
    assert ["b"] + ["a"] == ["b", "a"];
    assert ["_"] + ["a"][0 := "b"] == ["_", "b"];
  }

  /** `transition` for a direction it handles. */
  function Successor(m: W.Tm, from: Config, to: W.TmTo): Config
    requires from.head < |from.tape| && to.direction in Directions
  {
    var (t, h) := Move(from.tape, from.head, to.symbol, to.direction, m.blankSymbol);
    Make(m, to.state, t, h, from.path + [to])
  }

  /** The number of leading targets whose direction `transition` handles:
      the index of the first that makes it throw, or all of them. */
  function KnownCount(tos: seq<W.TmTo>): (r: nat)
    ensures r <= |tos|
    ensures forall k :: 0 <= k < r ==> tos[k].direction in Directions
    ensures r < |tos| ==> tos[r].direction !in Directions
    decreases |tos|
  {
    if tos == [] then 0
    else
      var k := KnownCount(tos[..|tos| - 1]);
      if k < |tos| - 1 || tos[|tos| - 1].direction !in Directions then k else |tos|
  }

  /** The paths the moves to `tos` create, in order, up to the first move
      that throws, and whether one does. */
  function Moves(m: W.Tm, from: Config, tos: seq<W.TmTo>): (seq<Config>, bool)
    requires from.head < |from.tape|
    decreases |tos|
  {
    if tos == [] then ([], false)
    else
      var (cs, threw) := Moves(m, from, tos[..|tos| - 1]);
      var to := tos[|tos| - 1];
      if threw || to.direction !in Directions then (cs, true) else (cs + [Successor(m, from, to)], false)
  }

  /** The moves are the successors of the targets before the first one with
      an unknown direction, and they throw exactly when there is one. */
  lemma {:induction false} MovesSpec(m: W.Tm, from: Config, tos: seq<W.TmTo>)
    requires from.head < |from.tape|
    ensures var (cs, threw) := Moves(m, from, tos);
      var k := KnownCount(tos);
      && (threw <==> k < |tos|)
      && |cs| == k
      && forall i :: 0 <= i < k ==> cs[i] == Successor(m, from, tos[i])
    decreases |tos|
  {
    hide Successor;
    if tos != [] {
      var init := tos[..|tos| - 1];
      MovesSpec(m, from, init);
      assert forall i :: 0 <= i < |init| ==> init[i] == tos[i];
    }
  }

  /** `for (const to of transitions) this.transition(from, to)`, which stops
      at the first move that throws. */
  function TransitionedAll(m: W.Tm, s: Sim<Config>, from: Config, tos: seq<W.TmTo>): Swept
    requires from.head < |from.tape|
    decreases |tos|
  {
    if tos == [] then Swept(s, false)
    else
      var r := TransitionedAll(m, s, from, tos[..|tos| - 1]);
      var to := tos[|tos| - 1];
      if r.threw then r
      else if to.direction !in Directions then Swept(r.sim, true)
      else
        var c := Successor(m, from, to);
        Swept(Enter(r.sim, c, c.state, c.accepted), false)
  }

  /** One turn of the loop of `step`: a path whose head is off its tape, or
      that has no transition for the symbol under the head, is rejected. */
  function Expanded(m: W.Tm, s: Sim<Config>, from: Config): Swept
  {
    if from.head >= |from.tape| then Swept(Refused(s, from), false)
    else
      var trs := W.Lookup(W.Layer(m.components, from.state), from.tape[from.head]);
      if |trs| == 0 then Swept(Refused(s, from), false)
      else TransitionedAll(m, s, from, trs)
  }

  function ExpandedAll(m: W.Tm, s: Sim<Config>, ps: seq<Config>): Swept
    decreases |ps|
  {
    if ps == [] then Swept(s, false)
    else
      var r := ExpandedAll(m, s, ps[..|ps| - 1]);
      if r.threw then r else Expanded(m, r.sim, ps[|ps| - 1])
  }

  /** `step`: the outcome and the simulator after it. */
  function StepResult(m: W.Tm, s: Sim<Config>): (StepOutcome, Sim<Config>)
  {
    if |s.accepted| != 0 then (Returned(Accept), s)
    else if |s.paths| == 0 then (Returned(Reject), s)
    else
      var r := ExpandedAll(m, Cleared(s), s.paths);
      if r.threw then (Threw, r.sim) else (Returned(Status(r.sim)), r.sim)
  }

  // ---------------------------------------------------------------------
  // The run described from the machine's transition list.

  ghost predicate Parsed(m: W.Tm)
  {
    m.components == W.Group2(W.TmEntries(W.Flat(m.transitions)))
  }

  /** The targets of the transitions from `(state, symbol)`, in the order
      the compiler listed them. */
  function Targets(m: W.Tm, state: string, symbol: string): seq<W.TmTo>
  {
    W.Select(W.Flat(m.transitions), W.TmFrom(state, symbol))
  }

  /** The paths one step of `from` leads to, up to the first target with a
      direction the simulator does not handle. */
  function Next(m: W.Tm, from: Config): seq<Config>
  {
    if from.head >= |from.tape| then []
    else
      Moves(m, from, Targets(m, from.state, from.tape[from.head])).0
  }

  /** A path with nothing to read or no transition is rejected. */
  function Dead(m: W.Tm, from: Config): seq<Config>
  {
    if from.head >= |from.tape| || Targets(m, from.state, from.tape[from.head]) == [] then [from] else []
  }

  /** Stepping `from` throws: one of its targets has an unknown direction. */
  function Throws(m: W.Tm, from: Config): bool
  {
    && from.head < |from.tape|
    && Moves(m, from, Targets(m, from.state, from.tape[from.head])).1
  }

  /** The sweep over `ps`: the successors and rejections up to and
      including the first path that throws, and whether one did. */
  function Sweep(m: W.Tm, ps: seq<Config>): (seq<Config>, seq<Config>, bool)
    decreases |ps|
  {
    if ps == [] then ([], [], false)
    else
      var (f, d, t) := Sweep(m, ps[..|ps| - 1]);
      var p := ps[|ps| - 1];
      if t then (f, d, t) else (f + Next(m, p), d + Dead(m, p), Throws(m, p))
  }

  /** A sweep throws exactly when one of its paths throws. */
  lemma {:induction false} SweepThrows(m: W.Tm, ps: seq<Config>)
    ensures Sweep(m, ps).2 <==> exists i :: 0 <= i < |ps| && Throws(m, ps[i])
    decreases |ps|
  {
    hide Next, Dead, Throws;
    if ps != [] {
      var init := ps[..|ps| - 1];
      SweepThrows(m, init);
      if exists i :: 0 <= i < |init| && Throws(m, init[i]) {
        var i :| 0 <= i < |init| && Throws(m, init[i]);
        assert ps[i] == init[i];
      }
      if exists i :: 0 <= i < |ps| && Throws(m, ps[i]) {
        var i :| 0 <= i < |ps| && Throws(m, ps[i]);
        if i < |init| {
          assert init[i] == ps[i];
        }
      }
    }
  }

  lemma {:induction false} TransitionedAllSpec(m: W.Tm, s: Sim<Config>, from: Config, tos: seq<W.TmTo>)
    requires from.head < |from.tape|
    ensures var r := TransitionedAll(m, s, from, tos);
      && r.threw == Moves(m, from, tos).1
      && Extends(s, r.sim, Moves(m, from, tos).0, [], Key, IsAccepted)
    decreases |tos|
  {
    if tos == [] {
      ExtendsNothing(s, Key, IsAccepted);
    } else {
      var init, to := tos[..|tos| - 1], tos[|tos| - 1];
      TransitionedAllSpec(m, s, from, init);
      var r := TransitionedAll(m, s, from, init);
      if !r.threw && to.direction in Directions {
        var c := Successor(m, from, to);
        ExtendsEnter(s, r.sim, Moves(m, from, init).0, [], c, Key, IsAccepted);
      }
    }
  }

  /** One turn of the loop: the path's successors enter up to the first
      move that throws, and the path is rejected when it has no move. */
  lemma ExpandedSpec(m: W.Tm, s: Sim<Config>, from: Config)
    requires Parsed(m)
    ensures var r := Expanded(m, s, from);
      (r.threw <==> Throws(m, from)) && Extends(s, r.sim, Next(m, from), Dead(m, from), Key, IsAccepted)
  {
    if from.head >= |from.tape| {
      ExtendsNothing(s, Key, IsAccepted);
      ExtendsRefused(s, s, [], [], from, Key, IsAccepted);
    } else {
      W.TmLayersExact(m.transitions, from.state, from.tape[from.head]);
      var ts := Targets(m, from.state, from.tape[from.head]);
      if ts == [] {
        ExtendsNothing(s, Key, IsAccepted);
        ExtendsRefused(s, s, [], [], from, Key, IsAccepted);
      } else {
        TransitionedAllSpec(m, s, from, ts);
      }
    }
  }

  lemma {:induction false} ExpandedAllSpec(m: W.Tm, s: Sim<Config>, ps: seq<Config>)
    requires Parsed(m)
    ensures var r := ExpandedAll(m, s, ps);
      var (f, d, t) := Sweep(m, ps);
      r.threw == t && Extends(s, r.sim, f, d, Key, IsAccepted)
    decreases |ps|
  {
    if ps == [] {
      ExtendsNothing(s, Key, IsAccepted);
    } else {
      hide Expanded, Next, Dead, Throws, Extends;
      var init, p := ps[..|ps| - 1], ps[|ps| - 1];
      ExpandedAllSpec(m, s, init);
      var r := ExpandedAll(m, s, init);
      var (f, d, t) := Sweep(m, init);
      if !r.threw {
        ExpandedSpec(m, r.sim, p);
        ExtendsChain(s, r.sim, Expanded(m, r.sim, p).sim, f, Next(m, p), d, Dead(m, p), Key, IsAccepted);
      }
    }
  }

  /** `step`: with a path accepted it reports acceptance and changes
      nothing, with no path left it reports rejection; otherwise the new
      frontier is the successors of the old one up to the first move that
      throws, `accepted` gets the accepting ones and `rejected` the paths
      without a move, `current_states` groups the new frontier, and the
      outcome is the new status unless a move threw. */
  lemma StepSpec(m: W.Tm, s: Sim<Config>)
    requires Parsed(m)
    ensures var (r, t) := StepResult(m, s);
      && (s.accepted != [] ==> r == Returned(Accept) && t == s)
      && (s.accepted == [] && s.paths == [] ==> r == Returned(Reject) && t == s)
      && (s.accepted == [] && s.paths != [] ==>
            var (f, d, th) := Sweep(m, s.paths);
            && t.paths == f
            && t.accepted == Accepting(f, IsAccepted)
            && t.rejected == s.rejected + d
            && Grouped(t, Key)
            && (r == Threw <==> th)
            && (!th ==> r == Returned(Status(t))))
  {
    if s.accepted == [] && s.paths != [] {
      var c := Cleared(s);
      assert Keyed(c.paths, Key) == [];
      ExpandedAllSpec(m, c, s.paths);
    }
  }

  /** The name serde gives each of the compiler's directions. */
  function SerializedDirection(d: TuringMachines.Direction): string
  {
    match d
    case Left => "Left"
    case Right => "Right"
    case Stay => "None"
  }

  /** No direction the compiler emits is one the simulator handles, so a
      path with a compiled transition to follow makes `step` throw. */
  lemma CompiledDirectionsThrow(m: W.Tm, from: Config)
    requires from.head < |from.tape|
    requires forall p :: p in W.Flat(m.transitions) ==> exists d :: p.1.direction == SerializedDirection(d)
    requires Targets(m, from.state, from.tape[from.head]) != []
    ensures Throws(m, from) && Next(m, from) == []
  {
    var ts := Targets(m, from.state, from.tape[from.head]);
    W.SelectMembers(W.Flat(m.transitions), W.TmFrom(from.state, from.tape[from.head]));
    assert ts[0] in ts;
    var d :| ts[0].direction == SerializedDirection(d);
    assert ts[0].direction !in Directions;
    hide Successor;
    MovesSpec(m, from, ts);
  }

  // ---------------------------------------------------------------------
  // Every path the simulator holds is well formed.

  /** A path's flag and text are those `init_state` computes, its head is on
      its tape, the tape is never shorter than the input, and the path is in
      the state its last move leads to (the initial state for the empty
      path). */
  ghost predicate WellFormed(m: W.Tm, input: string, c: Config)
  {
    && c.head < |c.tape|
    && |c.tape| >= |input|
    && c == Make(m, c.state, c.tape, c.head, c.path)
    && (if c.path == [] then c.state == m.initialState else c.path[|c.path| - 1].state == c.state)
  }

  ghost predicate Valid(m: W.Tm, input: string, s: Sim<Config>)
  {
    && Grouped(s, Key)
    && (forall c :: c in s.paths ==> WellFormed(m, input, c))
    && (forall c :: c in s.accepted ==> WellFormed(m, input, c) && c.accepted)
    && (forall c :: c in s.rejected ==> WellFormed(m, input, c))
  }

  lemma NextWellFormed(m: W.Tm, input: string, from: Config)
    requires WellFormed(m, input, from)
    ensures forall c :: c in Next(m, from) ==> WellFormed(m, input, c)
    ensures forall c :: c in Dead(m, from) ==> c == from
  {
    var ts := Targets(m, from.state, from.tape[from.head]);
    var next := Moves(m, from, ts).0;
    MovesSpec(m, from, ts);
    forall c | c in next
      ensures WellFormed(m, input, c)
    {
      var k :| 0 <= k < |next| && next[k] == c;
      assert (from.path + [ts[k]])[|from.path|] == ts[k];
    }
  }

  lemma {:induction false} SweepWellFormed(m: W.Tm, input: string, ps: seq<Config>)
    requires forall c :: c in ps ==> WellFormed(m, input, c)
    ensures forall c :: c in Sweep(m, ps).0 ==> WellFormed(m, input, c)
    ensures forall c :: c in Sweep(m, ps).1 ==> c in ps
    decreases |ps|
  {
    if ps != [] {
      var init, p := ps[..|ps| - 1], ps[|ps| - 1];
      assert forall c :: c in init ==> c in ps;
      SweepWellFormed(m, input, init);
      NextWellFormed(m, input, p);
    }
  }

  lemma InitialValid(m: W.Tm, input: string)
    ensures Valid(m, input, Initial(m, input))
  {
    var c := Make(m, m.initialState, InitialTape(input, m.blankSymbol), 0, []);
    KeyedSingle(c, Key);
    W.GroupSnoc([], (c.state, c));
  }

  /** A step keeps every path well formed, whether or not it throws, so an
      accepted path stands in a final state. */
  lemma StepKeepsValid(m: W.Tm, input: string, s: Sim<Config>)
    requires Parsed(m) && Valid(m, input, s)
    ensures Valid(m, input, StepResult(m, s).1)
    ensures forall c :: c in StepResult(m, s).1.accepted ==> c.state in m.finalStates
  {
    StepSpec(m, s);
    var t := StepResult(m, s).1;
    if s.accepted == [] && s.paths != [] {
      SweepWellFormed(m, input, s.paths);
      AcceptingAccepts(t.paths, IsAccepted);
    }
  }

  // ---------------------------------------------------------------------
  // The simulator object.

  class TmSim {
    const machine: W.Tm
    const input: string
    var paths: seq<Config>
    var currentStates: map<string, seq<Config>>
    var accepted: seq<Config>
    var rejected: seq<Config>

    function State(): Sim<Config>
      reads this
    {
      Sim(paths, currentStates, accepted, rejected)
    }

    constructor (machine: W.Tm, input: string)
      ensures this.machine == machine && this.input == input
      ensures State() == Initial(machine, input)
    {
      this.machine := machine;
      this.input := input;
      paths, currentStates, accepted, rejected := [], map[], [], [];
      new;
      var tape := seq(|input|, i requires 0 <= i < |input| => [input[i]]);
      if |tape| == 0 {
        tape := tape + [machine.blankSymbol];
      }
      assert tape == InitialTape(input, machine.blankSymbol);
      InitState(machine.initialState, machine.initialState in machine.finalStates, tape, 0, []);
    }

    /** `init_state`, given the fields `initial` or `transition` fills in. */
    method InitState(state: string, acc: bool, tape: seq<string>, head: nat, path: seq<W.TmTo>)
      requires acc == (state in machine.finalStates)
      modifies this
      ensures var c := Make(machine, state, tape, head, path);
        State() == Enter(old(State()), c, c.state, c.accepted)
    {
      var frozen := Config(state, tape, head, acc,
                           state + " [ " + machine.blankSymbol + " " + W.Joined(Cells(tape, head), " ") + " " + machine.blankSymbol + " ]", path);
      if acc {
        accepted := accepted + [frozen];
      }
      paths := paths + [frozen];
      if state !in currentStates {
        currentStates := currentStates[state := []];
      }
      currentStates := currentStates[state := currentStates[state] + [frozen]];
    }

    /** `transition`; `threw` reports a direction it does not handle. */
    method Transition(from: Config, to: W.TmTo) returns (threw: bool)
      requires from.head < |from.tape|
      modifies this
      ensures threw <==> to.direction !in Directions
      ensures threw ==> State() == old(State())
      ensures !threw ==> var c := Successor(machine, from, to);
        State() == Enter(old(State()), c, c.state, c.accepted)
    {
      if to.direction !in Directions {
        return true;
      }
      var tape, head := MoveTape(from.tape, from.head, to.symbol, to.direction, machine.blankSymbol);
      InitState(to.state, to.state in machine.finalStates, tape, head, from.path + [to]);
      return false;
    }

    /** The `switch` of `transition`, for the directions it handles. */
    static method MoveTape(tape: seq<string>, head: nat, sym: string, dir: string, blank: string) returns (t: seq<string>, h: nat)
      requires head < |tape| && dir in Directions
      ensures (t, h) == Move(tape, head, sym, dir, blank)
    {
      if dir == "_" {
        t := tape[head := sym];
        h := head;
      } else if dir == "<" {
        if head == 0 {
          t := [blank] + tape[0 := sym];
          h := 0;
        } else {
          t := tape[head := sym];
          h := head - 1;
        }
      } else {
        h := head + 1;
        t := tape[head := sym];
        if h == |tape| {
          t := t + [blank];
        }
      }
    }

    method TransitionAll(from: Config, tos: seq<W.TmTo>) returns (threw: bool)
      requires from.head < |from.tape|
      modifies this
      ensures Swept(State(), threw) == TransitionedAll(machine, old(State()), from, tos)
    {
      hide Successor;
      var j := 0;
      threw := false;
      while j < |tos|
        invariant j <= |tos|
        invariant Swept(State(), false) == TransitionedAll(machine, old(State()), from, tos[..j])
      {
        assert tos[..j + 1][..j] == tos[..j];
        threw := Transition(from, tos[j]);
        if threw {
          assert TransitionedAll(machine, old(State()), from, tos[..j + 1]) == Swept(State(), true);
          TransitionedAllStops(machine, old(State()), from, tos, j + 1);
          return;
        }
        j := j + 1;
      }
      assert tos[..j] == tos;
    }

    /** One turn of the loop of `step`. */
    method Expand(from: Config) returns (threw: bool)
      modifies this
      ensures Swept(State(), threw) == Expanded(machine, old(State()), from)
    {
      hide TransitionedAll;
      threw := false;
      if from.head >= |from.tape| {
        rejected := rejected + [from];
        return;
      }
      var symbol := from.tape[from.head];
      var transitions := if from.state in machine.components && symbol in machine.components[from.state]
                         then machine.components[from.state][symbol] else [];
      if |transitions| == 0 {
        rejected := rejected + [from];
        return;
      }
      threw := TransitionAll(from, transitions);
    }

    method Step() returns (r: StepOutcome)
      modifies this
      ensures (r, State()) == StepResult(machine, old(State()))
    {
      hide Expanded;
      if |accepted| != 0 {
        return Returned(Accept);
      }
      if |paths| == 0 {
        return Returned(Reject);
      }
      var ps := paths;
      paths := [];
      currentStates := map[];
      var i := 0;
      while i < |ps|
        invariant i <= |ps|
        invariant Swept(State(), false) == ExpandedAll(machine, Cleared(old(State())), ps[..i])
      {
        assert ps[..i + 1][..i] == ps[..i];
        var threw := Expand(ps[i]);
        if threw {
          ExpandedAllStops(machine, Cleared(old(State())), ps, i + 1);
          return Threw;
        }
        i := i + 1;
      }
      assert ps[..i] == ps;
      r := Returned(if |accepted| != 0 then Accept else if |paths| == 0 then Reject else Pending);
    }
  }

  /** Once a move has thrown, the rest of the targets change nothing. */
  lemma {:induction false} TransitionedAllStops(m: W.Tm, s: Sim<Config>, from: Config, tos: seq<W.TmTo>, j: nat)
    requires from.head < |from.tape| && j <= |tos|
    requires TransitionedAll(m, s, from, tos[..j]).threw
    ensures TransitionedAll(m, s, from, tos) == TransitionedAll(m, s, from, tos[..j])
    decreases |tos| - j
  {
    if j < |tos| {
      assert tos[..j + 1][..j] == tos[..j];
      TransitionedAllStops(m, s, from, tos, j + 1);
    } else {
      assert tos[..j] == tos;
    }
  }

  /** Once a path has thrown, the rest of the frontier changes nothing. */
  lemma {:induction false} ExpandedAllStops(m: W.Tm, s: Sim<Config>, ps: seq<Config>, i: nat)
    requires i <= |ps|
    requires ExpandedAll(m, s, ps[..i]).threw
    ensures ExpandedAll(m, s, ps) == ExpandedAll(m, s, ps[..i])
    decreases |ps| - i
  {
    if i < |ps| {
      assert ps[..i + 1][..i] == ps[..i];
      ExpandedAllStops(m, s, ps, i + 1);
    } else {
      assert ps[..i] == ps;
    }
  }
}
