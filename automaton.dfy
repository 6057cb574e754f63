/**
 * A deterministic pushdown automaton as a mutable object: the state
 * registry, the transition builder that refuses anything breaking
 * determinism, renaming of one state, and the bounded acceptance run.
 */
module Automaton {
  import opened Table
  import opened Engine

  /** Why a builder call is refused. */
  datatype BuildError =
    | UnknownState         // an endpoint is not a state
    | DuplicateState       // the state is already registered
    | DuplicateTransition  // the exact key is already in the table
    | LambdaExists         // a symbol move where an ε move already leaves (state, top)
    | SymbolExists         // an ε move where a symbol move already leaves (state, top)

  datatype Outcome = Ok | Fail(error: BuildError)

  /** The stack symbol a new automaton starts with. */
  const BottomSymbol: char := '⊥'

  class Dpda<S(==)> {
    var states: set<S>
    var initial: Option<S>
    var finals: set<S>
    var transitions: Table<S>
    var inputAlphabet: set<char>
    var stackAlphabet: set<char>
    var initialStackSymbol: char

    /** What the builder methods maintain. */
    ghost predicate Valid()
      reads this
    {
      finals <= states &&
      (initial.Some? ==> initial.value in states) &&
      EndpointsIn(transitions, states) &&
      SymbolsIn(transitions, inputAlphabet) &&
      StackSymbolsIn(transitions, stackAlphabet) &&
      NoConflict(transitions)
    }

    constructor ()
      ensures states == {} && initial == None && finals == {}
      ensures transitions == map[] && inputAlphabet == {} && stackAlphabet == {}
      ensures initialStackSymbol == BottomSymbol
      ensures Valid()
    {
      states := {};
      initial := None;
      finals := {};
      transitions := map[];
      inputAlphabet := {};
      stackAlphabet := {};
      initialStackSymbol := BottomSymbol;
    }

    /** The number of states. */
    function Size(): (n: nat)
      reads this
    {
      |states|
    }

    /** Registers a new state, final or not; a state already present is refused. */
    method AddState(q: S, final: bool) returns (o: Outcome)
      modifies this
      ensures o == Fail(DuplicateState) <==> q in old(states)
      ensures o.Ok? <==> q !in old(states)
      ensures o.Fail? ==> unchanged(this)
      ensures o.Ok? ==> states == old(states) + {q}
      ensures o.Ok? ==> finals == if final then old(finals) + {q} else old(finals)
      ensures initial == old(initial) && transitions == old(transitions)
      ensures inputAlphabet == old(inputAlphabet) && stackAlphabet == old(stackAlphabet)
      ensures initialStackSymbol == old(initialStackSymbol)
      ensures old(Valid()) ==> Valid()
    {
      if q in states {
        return Fail(DuplicateState);
      }
      states := states + {q};
      if final {
        finals := finals + {q};
      }
      return Ok;
    }

    /** Makes a registered state the initial one, replacing any earlier choice. */
    method MarkInitialState(q: S) returns (o: Outcome)
      modifies this
      ensures o == Fail(UnknownState) <==> q !in old(states)
      ensures o.Ok? <==> q in old(states)
      ensures o.Fail? ==> unchanged(this)
      ensures o.Ok? ==> initial == Some(q)
      ensures states == old(states) && finals == old(finals) && transitions == old(transitions)
      ensures inputAlphabet == old(inputAlphabet) && stackAlphabet == old(stackAlphabet)
      ensures initialStackSymbol == old(initialStackSymbol)
      ensures old(Valid()) ==> Valid()
    {
      if q !in states {
        return Fail(UnknownState);
      }
      initial := Some(q);
      return Ok;
    }

    /** Sets the symbol the stack starts with and adds it to the stack alphabet. */
    method SetInitialStackSymbol(x: char)
      modifies this
      ensures initialStackSymbol == x && stackAlphabet == old(stackAlphabet) + {x}
      ensures states == old(states) && initial == old(initial) && finals == old(finals)
      ensures transitions == old(transitions) && inputAlphabet == old(inputAlphabet)
      ensures old(Valid()) ==> Valid()
    {
      initialStackSymbol := x;
      stackAlphabet := stackAlphabet + {x};
    }

    /** Adds the transition (state, symbol, top) -> (newState, push), checking,
        in this order, that both endpoints are states, that the key is new and
        that no ε/symbol conflict arises; nothing changes unless every check
        passes. */
    method AddTransition(state: S, newState: S, symbol: Option<char>, top: char, push: seq<char>) returns (o: Outcome)
      modifies this
      ensures o == Fail(UnknownState) <==> state !in old(states) || newState !in old(states)
      ensures o == Fail(DuplicateTransition) <==>
        state in old(states) && newState in old(states) && Key(state, symbol, top) in old(transitions)
      ensures o == Fail(LambdaExists) <==>
        state in old(states) && newState in old(states) && Key(state, symbol, top) !in old(transitions) &&
        symbol.Some? && Key(state, None, top) in old(transitions)
      ensures o == Fail(SymbolExists) <==>
        state in old(states) && newState in old(states) && Key(state, symbol, top) !in old(transitions) &&
        symbol.None? && exists a :: a in old(inputAlphabet) && Key(state, Some(a), top) in old(transitions)
      ensures o.Ok? <==>
        state in old(states) && newState in old(states) && Key(state, symbol, top) !in old(transitions) &&
        (symbol.Some? ==> Key(state, None, top) !in old(transitions)) &&
        (symbol.None? ==> forall a :: a in old(inputAlphabet) ==> Key(state, Some(a), top) !in old(transitions))
      ensures o.Fail? ==> unchanged(this)
      ensures o.Ok? ==> transitions == old(transitions)[Key(state, symbol, top) := Move(newState, push)]
      ensures o.Ok? ==> inputAlphabet == old(inputAlphabet) + SymbolSet(symbol)
      ensures o.Ok? ==> stackAlphabet == old(stackAlphabet) + {top} + Chars(push)
      ensures states == old(states) && initial == old(initial) && finals == old(finals)
      ensures initialStackSymbol == old(initialStackSymbol)
      ensures old(Valid()) ==> Valid()
    {
      if state !in states || newState !in states {
        return Fail(UnknownState);
      }
      var key := Key(state, symbol, top);
      if key in transitions {
        return Fail(DuplicateTransition);
      }
      if symbol.Some? {
        if Key(state, None, top) in transitions {
          return Fail(LambdaExists);
        }
      } else {
        var rest := inputAlphabet;
        while rest != {}
          invariant rest <= inputAlphabet
          invariant forall a :: a in inputAlphabet && a !in rest ==> Key(state, Some(a), top) !in transitions
          decreases rest
        {
          var a :| a in rest;
          if Key(state, Some(a), top) in transitions {
            return Fail(SymbolExists);
          }
          rest := rest - {a};
        }
      }
      var gamma := stackAlphabet + {top};
      for i := 0 to |push|
        invariant gamma == stackAlphabet + {top} + Chars(push[..i])
      {
        assert Chars(push[..i + 1]) == Chars(push[..i]) + {push[i]} by {
          assert push[..i + 1] == push[..i] + [push[i]];
        }
        gamma := gamma + {push[i]};
      }
      assert push[..|push|] == push;
      ghost var t0, sigma0 := transitions, inputAlphabet;
      transitions := transitions[key := Move(newState, push)];
      inputAlphabet := inputAlphabet + SymbolSet(symbol);
      stackAlphabet := gamma;
      if SymbolsIn(t0, sigma0) && NoConflict(t0) {
        InsertKeepsDeterminism(t0, sigma0, key, Move(newState, push));
      }
      return Ok;
    }

    /** The lookup `get_transition` performs. */
    function GetTransitionOf(state: S, symbol: Option<char>, top: char): (r: Option<Move<S>>)
      reads this
      ensures r.Some? <==> Key(state, symbol, top) in transitions
      ensures r.Some? ==> r.value == transitions[Key(state, symbol, top)]
    {
      GetTransition(transitions, state, symbol, top)
    }

    /** No ε-transition shares (state, top) with a symbol transition on a
        symbol of the input alphabet. */
    predicate IsDeterministic()
      reads this
    {
      forall k, a :: k in transitions && k.symbol.None? && a in inputAlphabet ==>
        Key(k.source, Some(a), k.top) !in transitions
    }

    /** The scan `is_deterministic` performs agrees with the determinism
        invariant whenever every symbol key is in the input alphabet. */
    lemma DeterministicIffNoConflict()
      requires SymbolsIn(transitions, inputAlphabet)
      ensures IsDeterministic() <==> NoConflict(transitions)
    {
      if IsDeterministic() {
        forall k | k in transitions && k.symbol.Some? ensures Key(k.source, None, k.top) !in transitions {
          assert k.symbol.value in inputAlphabet;
          assert k == Key(k.source, Some(k.symbol.value), k.top);
        }
      }
      if NoConflict(transitions) {
        forall k, a | k in transitions && k.symbol.None? && a in inputAlphabet
          ensures Key(k.source, Some(a), k.top) !in transitions
        {
          assert k == Key(k.source, None, k.top);
        }
      }
    }

    /** An automaton built through the builder methods passes `is_deterministic`. */
    lemma ValidIsDeterministic()
      requires Valid()
      ensures IsDeterministic()
    {
      DeterministicIffNoConflict();
    }

    /** Rebuilds the table with `from` replaced by `to` in every key and every
        target. When two keys collapse into one, the source keeps the entry it
        inserted later; a map keeps no insertion order, so which of the two
        entries is kept is left open here. */
    method RenameStateInTransitions(from: S, to: S)
      modifies this
      ensures transitions.Keys == set k | k in old(transitions) :: RelabelKey(k, from, to)
      ensures forall k :: k in transitions ==>
        exists k0 :: k0 in old(transitions) && k == RelabelKey(k0, from, to) &&
          transitions[k] == RelabelMove(old(transitions)[k0], from, to)
      ensures NoKeyClash(old(transitions), from, to) ==>
        transitions == RenameTransitions(old(transitions), from, to)
      ensures states == old(states) && initial == old(initial) && finals == old(finals)
      ensures inputAlphabet == old(inputAlphabet) && stackAlphabet == old(stackAlphabet)
      ensures initialStackSymbol == old(initialStackSymbol)
    {
      var built := RelabelledTable(transitions, from, to);
      RebuiltTable(transitions, built, from, to);
      transitions := built;
    }

    /** Renames one state everywhere it appears. Renaming a state to itself
        does nothing; renaming an unknown state fails and changes nothing. */
    method RenameState(from: S, to: S) returns (ok: bool)
      modifies this
      ensures ok <==> from == to || from in old(states)
      ensures !ok || from == to ==> unchanged(this)
      ensures ok && from != to ==> states == old(states) - {from} + {to}
      ensures ok && from != to ==> initial == RenamedOpt(old(initial), from, to)
      ensures ok && from != to ==> finals == RenamedSet(old(finals), from, to)
      ensures ok && from != to ==> transitions.Keys == set k | k in old(transitions) :: RelabelKey(k, from, to)
      ensures ok && from != to && NoKeyClash(old(transitions), from, to) ==>
        transitions == RenameTransitions(old(transitions), from, to)
      ensures inputAlphabet == old(inputAlphabet) && stackAlphabet == old(stackAlphabet)
      ensures initialStackSymbol == old(initialStackSymbol)
      ensures old(Valid()) && (from == to || to !in old(states)) ==> Valid()
    {
      if from == to {
        return true;
      }
      if from !in states {
        return false;
      }
      ghost var valid0 := Valid();
      ghost var q0 := states;
      states := states - {from} + {to};
      if initial == Some(from) {
        initial := Some(to);
      }
      if from in finals {
        finals := finals - {from} + {to};
      }
      ghost var t0 := transitions;
      if valid0 && to !in q0 {
        RenameKeepsInvariants(t0, q0, inputAlphabet, stackAlphabet, from, to);
      }
      RenameStateInTransitions(from, to);
      return true;
    }

    /** Runs the automaton on `word` for at most MaxSteps(|word|) moves and
        reports whether a reached configuration with the whole word consumed
        is accepting under `mode`. */
    method Accepts(word: seq<char>, mode: string) returns (accepted: bool)
      ensures accepted <==> (initial.Some? &&
        RunAccepts(transitions, finals, mode, Config(initial.value, word, [initialStackSymbol]), MaxSteps(|word|)))
    {
      if initial.None? {
        return false;
      }
      var c := Config(initial.value, word, [initialStackSymbol]);
      ghost var c0 := c;
      var maxSteps := |word| * 100 + 1000;
      var steps := 0;
      ghost var left: nat := maxSteps;
      while steps < maxSteps
        invariant 0 <= steps <= maxSteps && maxSteps == MaxSteps(|word|) && left == maxSteps - steps
        invariant RunAccepts(transitions, finals, mode, c0, maxSteps) ==
          RunAccepts(transitions, finals, mode, c, left)
      {
        steps := steps + 1;
        if c.input == [] {
          if mode == "final_state" {
            if c.state in finals {
              assert Accepting(c, mode, finals);
              return true;
            }
          } else if mode == "empty_stack" {
            if c.stack == [] {
              assert Accepting(c, mode, finals);
              return true;
            }
          }
        }
        assert !Accepting(c, mode, finals);
        RunAcceptsNext(transitions, finals, mode, c, left);
        var r := Step(transitions, c);
        if r.None? {
          break;
        }
        c := r.value;
        left := left - 1;
      }
      assert RunAccepts(transitions, finals, mode, c0, maxSteps) == Accepting(c, mode, finals);
      if c.input == [] {
        if mode == "final_state" {
          return c.state in finals;
        } else if mode == "empty_stack" {
          return c.stack == [];
        }
      }
      return false;
    }
  }

  /** The loop of `_rename_state_in_transitions`: a new table with every
      transition's key and move relabelled. The source visits the keys in
      insertion order, which a map does not keep; any order is allowed. */
  method RelabelledTable<S(==)>(t: Table<S>, from: S, to: S) returns (built: Table<S>)
    ensures PartlyRelabelled(t, {}, built, from, to)
  {
    var rest := t.Keys;
    built := map[];
    while rest != {}
      invariant PartlyRelabelled(t, rest, built, from, to)
      decreases rest
    {
      var k0 :| k0 in rest;
      RelabelOne(t, rest, built, from, to, k0);
      built := built[RelabelKey(k0, from, to) := RelabelMove(t[k0], from, to)];
      rest := rest - {k0};
    }
  }
}
