/**
 * What the complement construction does to runs, for an automaton P
 * without ε transitions (the shape of the automata the repository's
 * complement tests use): C accepts a word exactly when P reads the whole
 * word and stops in a state that is not final, with a non-empty stack.
 */
module ComplementRuns {
  import opened Table
  import opened Engine
  import opened Complement

  /** No transition of `t` is an ε transition. */
  ghost predicate EpsFree<S>(t: Table<S>) {
    forall k :: k in t ==> k.symbol.Some?
  }

  /** The configuration P reaches after reading all of `c.input`, one symbol
      per move, or None when it gets stuck (or makes an ε move) first. */
  function ReadAll<S(==)>(t: Table<S>, c: Config<S>): Option<Config<S>>
    decreases |c.input|
  {
    if c.input == [] then Some(c)
    else if Step(t, c).Some? && |Step(t, c).value.input| < |c.input| then ReadAll(t, Step(t, c).value)
    else None
  }

  /** Without ε transitions every move reads one symbol. */
  lemma EpsFreeStep<S>(t: Table<S>, c: Config<S>)
    requires EpsFree(t)
    ensures Step(t, c).Some? ==> c.input != [] && Step(t, c).value.input == c.input[1..]
  {
    if c.stack != [] && (c.input == [] || Key(c.state, Some(c.input[0]), Top(c.stack)) !in t) {
      assert Key(c.state, None, Top(c.stack)) !in t;
    }
  }

  /** P accepts exactly when it reads the whole word and stops in a final state. */
  lemma {:induction false} EpsFreeAccepts<S>(t: Table<S>, finals: set<S>, c: Config<S>, fuel: nat)
    requires EpsFree(t) && fuel >= |c.input|
    ensures RunAccepts(t, finals, "final_state", c, fuel) <==>
      ReadAll(t, c).Some? && ReadAll(t, c).value.state in finals
    decreases |c.input|
  {
    EpsFreeStep(t, c);
    if !Accepting(c, "final_state", finals) {
      RunAcceptsNext(t, finals, "final_state", c, fuel);
      if Step(t, c).Some? {
        EpsFreeAccepts(t, finals, Step(t, c).value, fuel - 1);
      }
    }
  }

  /** Whether C, entering a stopped configuration `e` of P, has somewhere to go:
      rule (iii) needs a non-empty stack, a state of P and a known top. */
  predicate CanReset<S(==)>(e: Config<S>, q: set<S>, gamma: set<char>) {
    e.stack != [] && e.state in q && Top(e.stack) in gamma
  }

  /** The moves of C from the three copies of `c`, as the complement table
      gives them (StepFromMarkerOne, StepFromMarkerTwo, StepFromMarkerZero). */
  ghost predicate FollowsAt<S>(r: Table<(S, nat)>, t: Table<S>, finals: set<S>, q: set<S>, gamma: set<char>, c: Config<S>) {
    (Step(t, c).None? ==> Step(r, Marked(c, 1)).None?) &&
    (Step(t, c).Some? ==>
      Step(r, Marked(c, 1)) == Some(Marked(Step(t, c).value, if Reads(c, Step(t, c).value) then Mark(Step(t, c).value.state, finals) else 1))) &&
    (Step(t, c).Some? && Reads(c, Step(t, c).value) ==>
      Step(r, Marked(c, 2)) == Some(Marked(Step(t, c).value, Mark(Step(t, c).value.state, finals)))) &&
    (!(Step(t, c).Some? && Reads(c, Step(t, c).value)) ==> Step(r, Marked(c, 2)).None?) &&
    (Step(t, c).Some? && !Reads(c, Step(t, c).value) ==>
      Step(r, Marked(c, 0)) == Some(Marked(Step(t, c).value, Mark(Step(t, c).value.state, finals)))) &&
    (!(Step(t, c).Some? && !Reads(c, Step(t, c).value)) ==>
      Step(r, Marked(c, 0)) == if CanReset(c, q, gamma) then Some(Marked(c, 2)) else None)
  }

  ghost predicate Follows<S(!new)>(r: Table<(S, nat)>, t: Table<S>, finals: set<S>, q: set<S>, gamma: set<char>) {
    forall c: Config<S> :: FollowsAt(r, t, finals, q, gamma, c)
  }

  /** Every complement table of a deterministic P makes C follow P this way. */
  lemma ComplementFollows<S(!new)>(r: Table<(S, nat)>, t: Table<S>, finals: set<S>, q: set<S>, gamma: set<char>)
    requires IsComplementTable(r, t, finals, q, gamma) && NoConflict(t)
    ensures Follows(r, t, finals, q, gamma)
  {
    forall c: Config<S> ensures FollowsAt(r, t, finals, q, gamma, c) {
      StepFromMarkerOne(r, t, finals, q, gamma, c);
      StepFromMarkerTwo(r, t, finals, q, gamma, c);
      StepFromMarkerZero(r, t, finals, q, gamma, c);
    }
  }

  /** Without ε transitions in P, the moves of C from the three markers of `c`. */
  lemma MarkedMoves<S(!new)>(r: Table<(S, nat)>, t: Table<S>, finals: set<S>, q: set<S>, gamma: set<char>, c: Config<S>)
    requires Follows(r, t, finals, q, gamma) && EpsFree(t) && EndpointsIn(t, q) && StackSymbolsIn(t, gamma) && c.state in q
    ensures Step(t, c).Some? ==> c.input != [] && Step(t, c).value.input == c.input[1..] && Step(t, c).value.state in q
    ensures Step(t, c).Some? ==> CanReset(c, q, gamma)
    ensures Step(t, c).None? ==> Step(r, Marked(c, 1)).None? && Step(r, Marked(c, 2)).None?
    ensures Step(t, c).Some? ==>
      Step(r, Marked(c, 1)) == Some(Marked(Step(t, c).value, Mark(Step(t, c).value.state, finals))) &&
      Step(r, Marked(c, 2)) == Some(Marked(Step(t, c).value, Mark(Step(t, c).value.state, finals)))
    ensures Step(r, Marked(c, 0)) == if CanReset(c, q, gamma) then Some(Marked(c, 2)) else None
  {
    EpsFreeStep(t, c);
    assert FollowsAt(r, t, finals, q, gamma, c);
    if Step(t, c).Some? {
      assert Key(c.state, Some(c.input[0]), Top(c.stack)) in t;
    }
  }

  /** A symbol read of P from `c`, and the same read of C from marker 1 or 2. */
  lemma ReadMove<S(!new)>(r: Table<(S, nat)>, t: Table<S>, finals: set<S>, q: set<S>, gamma: set<char>, c: Config<S>, i: nat)
    requires Follows(r, t, finals, q, gamma) && EpsFree(t) && EndpointsIn(t, q) && StackSymbolsIn(t, gamma) && c.state in q
    requires Step(t, c).Some? && (i == 1 || i == 2)
    ensures c.input != [] && Step(t, c).value.input == c.input[1..] && Step(t, c).value.state in q
    ensures Step(r, Marked(c, i)) == Some(Marked(Step(t, c).value, Mark(Step(t, c).value.state, finals)))
    ensures ReadAll(t, c) == ReadAll(t, Step(t, c).value)
  {
    MarkedMoves(r, t, finals, q, gamma, c);
    ReadAllNext(t, c);
  }

  /** Without ε transitions, reading the word from `c` is one move and then
      reading the rest. */
  lemma ReadAllNext<S>(t: Table<S>, c: Config<S>)
    requires EpsFree(t)
    ensures Step(t, c).Some? ==> ReadAll(t, c) == ReadAll(t, Step(t, c).value)
    ensures Step(t, c).None? ==> ReadAll(t, c) == if c.input == [] then Some(c) else None
  {
    EpsFreeStep(t, c);
  }

  /** From marker 2, C accepts exactly when P reads the whole word and
      C can take the reset move (or is already done) at the end. */
  lemma {:induction false} FromMarkerTwo<S(!new)>(r: Table<(S, nat)>, t: Table<S>, finals: set<S>, q: set<S>, gamma: set<char>,
                                           c: Config<S>, fuel: nat)
    requires Follows(r, t, finals, q, gamma) && EpsFree(t)
    requires EndpointsIn(t, q) && StackSymbolsIn(t, gamma) && c.state in q
    requires fuel >= 2 * |c.input|
    ensures RunAccepts(r, ComplementFinals(q), "final_state", Marked(c, 2), fuel) <==>
      ReadAll(t, c).Some? && (c.input == [] || (ReadAll(t, c).value.state !in finals && CanReset(ReadAll(t, c).value, q, gamma)))
    decreases |c.input|, 1
  {
    var cf := ComplementFinals(q);
    MarkedMoves(r, t, finals, q, gamma, c);
    ReadAllNext(t, c);
    if c.input != [] {
      if Step(t, c).Some? {
        ReadOn(r, t, finals, q, gamma, c, 2, fuel);
      } else {
        assert !Accepting(Marked(c, 2), "final_state", cf);
        RunRejectsStuck(r, cf, "final_state", Marked(c, 2), fuel);
      }
    }
  }

  /** Entering a state `p` of P with marker Mark(p), C accepts exactly when
      P reads the whole word and stops in a state that is not final, from
      which C can take the reset move. */
  lemma {:induction false} FromMarked<S(!new)>(r: Table<(S, nat)>, t: Table<S>, finals: set<S>, q: set<S>, gamma: set<char>,
                                        c: Config<S>, fuel: nat)
    requires Follows(r, t, finals, q, gamma) && EpsFree(t)
    requires EndpointsIn(t, q) && StackSymbolsIn(t, gamma) && c.state in q
    requires fuel >= 2 * |c.input| + 1
    ensures RunAccepts(r, ComplementFinals(q), "final_state", Marked(c, Mark(c.state, finals)), fuel) <==>
      ReadAll(t, c).Some? && ReadAll(t, c).value.state !in finals && CanReset(ReadAll(t, c).value, q, gamma)
    decreases |c.input|, 3
  {
    if c.state in finals {
      FromMarkerOne(r, t, finals, q, gamma, c, fuel);
    } else {
      FromMarkerZero(r, t, finals, q, gamma, c, fuel);
    }
  }

  /** In a final state of P, C follows P with marker 1 and never accepts on the spot. */
  lemma {:induction false} FromMarkerOne<S(!new)>(r: Table<(S, nat)>, t: Table<S>, finals: set<S>, q: set<S>, gamma: set<char>,
                                           c: Config<S>, fuel: nat)
    requires Follows(r, t, finals, q, gamma) && EpsFree(t)
    requires EndpointsIn(t, q) && StackSymbolsIn(t, gamma) && c.state in q && c.state in finals
    requires fuel >= 2 * |c.input| + 1
    ensures RunAccepts(r, ComplementFinals(q), "final_state", Marked(c, 1), fuel) <==>
      ReadAll(t, c).Some? && ReadAll(t, c).value.state !in finals && CanReset(ReadAll(t, c).value, q, gamma)
    decreases |c.input|, 2
  {
    var cf := ComplementFinals(q);
    MarkedMoves(r, t, finals, q, gamma, c);
    if Step(t, c).Some? {
      ReadOn(r, t, finals, q, gamma, c, 1, fuel);
    } else {
      ReadAllNext(t, c);
      assert !Accepting(Marked(c, 1), "final_state", cf);
      RunRejectsStuck(r, cf, "final_state", Marked(c, 1), fuel);
    }
  }

  /** When P reads a symbol from `c`, C reads it too from markers 1 and 2,
      and goes on from the target with its mark. */
  lemma {:induction false} ReadOn<S(!new)>(r: Table<(S, nat)>, t: Table<S>, finals: set<S>, q: set<S>, gamma: set<char>,
                                    c: Config<S>, i: nat, fuel: nat)
    requires Follows(r, t, finals, q, gamma) && EpsFree(t)
    requires EndpointsIn(t, q) && StackSymbolsIn(t, gamma) && c.state in q
    requires Step(t, c).Some? && (i == 1 || i == 2)
    requires fuel >= 2 * |c.input|
    ensures RunAccepts(r, ComplementFinals(q), "final_state", Marked(c, i), fuel) <==>
      ReadAll(t, c).Some? && ReadAll(t, c).value.state !in finals && CanReset(ReadAll(t, c).value, q, gamma)
    decreases |c.input|, 0
  {
    var cf := ComplementFinals(q);
    ReadMove(r, t, finals, q, gamma, c, i);
    var d := Step(t, c).value;
    FromMarked(r, t, finals, q, gamma, d, fuel - 1);
    RunAcceptsVia(r, cf, "final_state", Marked(c, i), Marked(d, Mark(d.state, finals)), fuel);
  }

  /** In a state of P that is not final, C first takes the reset move to marker 2. */
  lemma {:induction false} FromMarkerZero<S(!new)>(r: Table<(S, nat)>, t: Table<S>, finals: set<S>, q: set<S>, gamma: set<char>,
                                            c: Config<S>, fuel: nat)
    requires Follows(r, t, finals, q, gamma) && EpsFree(t)
    requires EndpointsIn(t, q) && StackSymbolsIn(t, gamma) && c.state in q && c.state !in finals
    requires fuel >= 2 * |c.input| + 1
    ensures RunAccepts(r, ComplementFinals(q), "final_state", Marked(c, 0), fuel) <==>
      ReadAll(t, c).Some? && ReadAll(t, c).value.state !in finals && CanReset(ReadAll(t, c).value, q, gamma)
    decreases |c.input|, 2
  {
    var cf := ComplementFinals(q);
    MarkedMoves(r, t, finals, q, gamma, c);
    ReadAllNext(t, c);
    assert !Accepting(Marked(c, 0), "final_state", cf);
    if CanReset(c, q, gamma) {
      FromMarkerTwo(r, t, finals, q, gamma, c, fuel - 1);
      RunAcceptsVia(r, cf, "final_state", Marked(c, 0), Marked(c, 2), fuel);
    } else {
      RunRejectsStuck(r, cf, "final_state", Marked(c, 0), fuel);
    }
  }

  /** The complement theorem for automata without ε transitions: when C
      follows P as every complement table makes it (ComplementFollows), and
      at least 2|w| + 1 moves are allowed, C accepts from its initial
      configuration exactly when P reads the whole word, stops in a state
      that is not final and C can take the reset move there; P accepts
      exactly when it reads the whole word and stops in a final state. So
      on every word that P reads to the end with a stack top C knows, C
      accepts iff P rejects. */
  lemma ComplementOfEpsFree<S(!new)>(r: Table<(S, nat)>, t: Table<S>, finals: set<S>, q: set<S>, gamma: set<char>,
                                     c: Config<S>, fuel: nat)
    requires Follows(r, t, finals, q, gamma) && EpsFree(t)
    requires EndpointsIn(t, q) && StackSymbolsIn(t, gamma) && c.state in q
    requires fuel >= 2 * |c.input| + 1
    ensures RunAccepts(r, ComplementFinals(q), "final_state", Marked(c, Mark(c.state, finals)), fuel) <==>
      ReadAll(t, c).Some? && ReadAll(t, c).value.state !in finals && CanReset(ReadAll(t, c).value, q, gamma)
    ensures RunAccepts(t, finals, "final_state", c, fuel) <==>
      ReadAll(t, c).Some? && ReadAll(t, c).value.state in finals
    ensures ReadAll(t, c).Some? && CanReset(ReadAll(t, c).value, q, gamma) ==>
      (RunAccepts(r, ComplementFinals(q), "final_state", Marked(c, Mark(c.state, finals)), fuel) <==>
       !RunAccepts(t, finals, "final_state", c, fuel))
  {
    FromMarked(r, t, finals, q, gamma, c, fuel);
    EpsFreeAccepts(t, finals, c, fuel);
  }

  /** The move on a key of the table. */
  lemma StepBy<S>(t: Table<S>, c: Config<S>, target: S, push: seq<char>)
    requires c.stack != [] && c.input != []
    requires Key(c.state, Some(c.input[0]), Top(c.stack)) in t && t[Key(c.state, Some(c.input[0]), Top(c.stack))] == Move(target, push)
    ensures Step(t, c) == Some(Config(target, c.input[1..], Replace(c.stack, push)))
  {
  }

  /** Pushing back the top leaves the stack as it was. */
  lemma Keep<S>(t: Table<S>, c: Config<S>, target: S)
    requires c.stack != [] && c.input != []
    requires Key(c.state, Some(c.input[0]), Top(c.stack)) in t && t[Key(c.state, Some(c.input[0]), Top(c.stack))] == Move(target, [Top(c.stack)])
    ensures Step(t, c) == Some(Config(target, c.input[1..], c.stack))
  {
    ReplaceSameTop(c.stack);
    StepBy(t, c, target, [Top(c.stack)]);
  }
}
