/**
 * The second automaton of test_complemento.py: an ε-free automaton for
 * { aa, bb } made continuous by a trap state, and its complement. P
 * accepts exactly aa and bb, and C exactly the other words over { a, b }.
 * Every move pushes back the Z it pops, so the stack stays Z throughout.
 */
module AaBbComplementExample {
  import opened Table
  import opened Engine
  import opened Automaton
  import opened Complement
  import opened ComplementRuns
  import opened Script

  /** The states q0, q1, q2, q3, q4 and trap of the test script. */
  datatype St = Q0 | Q1 | Q2 | Q3 | Q4 | Trap

  function AaBbStates(): set<St> {
    {Q0, Q1, Q2, Q3, Q4, Trap}
  }

  lemma AaBbStatesCount()
    ensures |AaBbStates()| == 6
  {
    assert AaBbStates() == {Q0, Q1, Q2, Q3, Q4} + {Trap};
    assert {Q0, Q1, Q2, Q3, Q4} == {Q0, Q1, Q2, Q3} + {Q4};
    assert {Q0, Q1, Q2, Q3} == {Q0, Q1, Q2} + {Q3};
  }

  function AaBbFinals(): set<St> {
    {Q2, Q4}
  }

  /** The `add_transition` calls of the script (test_complemento.py, lines 165-183), in its order. */
  function AaBbCalls(): seq<Call<St>> {
    [Call(Q0, Q1, 'a', 'Z', "Z"), Call(Q1, Q2, 'a', 'Z', "Z"),
     Call(Q0, Q3, 'b', 'Z', "Z"), Call(Q3, Q4, 'b', 'Z', "Z"),
     Call(Q1, Trap, 'b', 'Z', "Z"), Call(Q3, Trap, 'a', 'Z', "Z"),
     Call(Q2, Trap, 'a', 'Z', "Z"), Call(Q2, Trap, 'b', 'Z', "Z"),
     Call(Q4, Trap, 'a', 'Z', "Z"), Call(Q4, Trap, 'b', 'Z', "Z"),
     Call(Trap, Trap, 'a', 'Z', "Z"), Call(Trap, Trap, 'b', 'Z', "Z")]
  }

  /** The table the calls build. */
  function AaBbTable(): Table<St> {
    Applied(map[], AaBbCalls())
  }

  /** No two calls of the script share a key. */
  lemma AaBbDistinctKeys()
    ensures DistinctKeys(AaBbCalls())
  {
  }

  /** Every call of the script goes between its states. */
  lemma AaBbCallsWithin()
    ensures Within(AaBbCalls(), AaBbStates()) && NewKeys(AaBbCalls(), map[])
  {
    forall s: St ensures s in AaBbStates() {
      assert s.Q0? || s.Q1? || s.Q2? || s.Q3? || s.Q4? || s.Trap?;
    }
  }

  /** The calls bring in the input symbols a, b and no stack symbol but Z. */
  lemma AaBbCallAlphabets()
    ensures CallSymbols(AaBbCalls()) == {'a', 'b'}
    ensures CallStackSymbols(AaBbCalls()) == {'Z'}
  {
    var calls := AaBbCalls();
    assert calls[0].symbol == 'a' && calls[2].symbol == 'b';
    assert 'Z' in {calls[0].top} + Chars(calls[0].push);
    forall i | 0 <= i < |calls| ensures {calls[i].top} + Chars(calls[i].push) <= {'Z'} {
    }
  }

  /** The states (lines 155-160), the initial state and the bottom symbol (lines 162-163). */
  method AaBbStatesBuilt() returns (a: Dpda<St>)
    ensures fresh(a) && a.Valid()
    ensures a.states == AaBbStates() && a.finals == AaBbFinals() && a.initial == Some(Q0)
    ensures a.transitions == map[] && a.initialStackSymbol == 'Z'
    ensures a.inputAlphabet == {} && a.stackAlphabet == {'Z'}
  {
    a := new Dpda<St>();
    var o := a.AddState(Q0, false);
    assert o.Ok?;
    o := a.AddState(Q1, false);
    assert o.Ok?;
    o := a.AddState(Q2, true);
    assert o.Ok?;
    o := a.AddState(Q3, false);
    assert o.Ok?;
    o := a.AddState(Q4, true);
    assert o.Ok?;
    o := a.AddState(Trap, false);
    assert o.Ok?;
    o := a.MarkInitialState(Q0);
    assert o.Ok?;
    a.SetInitialStackSymbol('Z');
  }

  /** The automaton of the script, built through the builder methods. */
  method BuildAaBb() returns (a: Dpda<St>)
    ensures fresh(a) && a.Valid()
    ensures a.states == AaBbStates() && a.finals == AaBbFinals() && a.initial == Some(Q0)
    ensures a.transitions == AaBbTable() && a.initialStackSymbol == 'Z'
    ensures a.inputAlphabet == {'a', 'b'} && a.stackAlphabet == {'Z'}
    ensures EpsFree(a.transitions)
  {
    a := AaBbStatesBuilt();
    AaBbDistinctKeys();
    AaBbCallAlphabets();
    AaBbCallsWithin();
    AddCalls(a, AaBbCalls());
  }

  /** The state P moves to on reading `x` in state `s`. */
  function Next(s: St, x: char): St {
    match s
    case Q0 => if x == 'a' then Q1 else Q3
    case Q1 => if x == 'a' then Q2 else Trap
    case Q3 => if x == 'a' then Trap else Q4
    case Q2 => Trap
    case Q4 => Trap
    case Trap => Trap
  }

  /** The twelve moves of the table, whatever else a table holds. */
  predicate AaBbMoves(t: Table<St>) {
    Key(Q0, Some('a'), 'Z') in t && t[Key(Q0, Some('a'), 'Z')] == Move(Q1, "Z") &&
    Key(Q1, Some('a'), 'Z') in t && t[Key(Q1, Some('a'), 'Z')] == Move(Q2, "Z") &&
    Key(Q0, Some('b'), 'Z') in t && t[Key(Q0, Some('b'), 'Z')] == Move(Q3, "Z") &&
    Key(Q3, Some('b'), 'Z') in t && t[Key(Q3, Some('b'), 'Z')] == Move(Q4, "Z") &&
    Key(Q1, Some('b'), 'Z') in t && t[Key(Q1, Some('b'), 'Z')] == Move(Trap, "Z") &&
    Key(Q3, Some('a'), 'Z') in t && t[Key(Q3, Some('a'), 'Z')] == Move(Trap, "Z") &&
    Key(Q2, Some('a'), 'Z') in t && t[Key(Q2, Some('a'), 'Z')] == Move(Trap, "Z") &&
    Key(Q2, Some('b'), 'Z') in t && t[Key(Q2, Some('b'), 'Z')] == Move(Trap, "Z") &&
    Key(Q4, Some('a'), 'Z') in t && t[Key(Q4, Some('a'), 'Z')] == Move(Trap, "Z") &&
    Key(Q4, Some('b'), 'Z') in t && t[Key(Q4, Some('b'), 'Z')] == Move(Trap, "Z") &&
    Key(Trap, Some('a'), 'Z') in t && t[Key(Trap, Some('a'), 'Z')] == Move(Trap, "Z") &&
    Key(Trap, Some('b'), 'Z') in t && t[Key(Trap, Some('b'), 'Z')] == Move(Trap, "Z")
  }

  lemma AaBbTableMoves()
    ensures AaBbMoves(AaBbTable())
  {
    AaBbDistinctKeys();
    AppliedLookup(map[], AaBbCalls(), 0);
    AppliedLookup(map[], AaBbCalls(), 1);
    AppliedLookup(map[], AaBbCalls(), 2);
    AppliedLookup(map[], AaBbCalls(), 3);
    AppliedLookup(map[], AaBbCalls(), 4);
    AppliedLookup(map[], AaBbCalls(), 5);
    AppliedLookup(map[], AaBbCalls(), 6);
    AppliedLookup(map[], AaBbCalls(), 7);
    AppliedLookup(map[], AaBbCalls(), 8);
    AppliedLookup(map[], AaBbCalls(), 9);
    AppliedLookup(map[], AaBbCalls(), 10);
    AppliedLookup(map[], AaBbCalls(), 11);
  }

  /** The state P stops in after reading `w` from `s`. */
  function Lands(s: St, w: string): St
    decreases |w|
  {
    if w == [] then s else Lands(Next(s, w[0]), w[1..])
  }

  /** With Z alone on the stack, P reads a or b, to the next state and Z alone again. */
  lemma StackStep(t: Table<St>, c: Config<St>)
    requires AaBbMoves(t) && c.stack == "Z" && c.input != [] && (c.input[0] == 'a' || c.input[0] == 'b')
    ensures Step(t, c) == Some(Config(Next(c.state, c.input[0]), c.input[1..], "Z"))
  {
    var x := c.input[0];
    assert Top(c.stack) == 'Z';
    assert Key(c.state, Some(x), 'Z') in t && t[Key(c.state, Some(x), 'Z')] == Move(Next(c.state, x), "Z") by {
      match c.state
      case Q0 =>
      case Q1 =>
      case Q2 =>
      case Q3 =>
      case Q4 =>
      case Trap =>
    }
    Keep(t, c, Next(c.state, x));
  }

  /** On a word over { a, b }, P reads to the end and stops where `Lands` says, with Z alone on the stack. */
  lemma {:induction false} ReadsToTheEnd(t: Table<St>, c: Config<St>)
    requires AaBbMoves(t) && c.stack == "Z" && OverAB(c.input)
    ensures ReadAll(t, c).Some?
    ensures ReadAll(t, c).value.state == Lands(c.state, c.input)
    ensures ReadAll(t, c).value.stack == "Z"
    decreases |c.input|
  {
    if c.input != [] {
      StackStep(t, c);
      var d := Step(t, c).value;
      assert OverAB(d.input) by {
        forall i | 0 <= i < |d.input| ensures d.input[i] == 'a' || d.input[i] == 'b' {
          assert d.input[i] == c.input[i + 1];
        }
      }
      ReadsToTheEnd(t, d);
    }
  }

  /** The words of the language. */
  predicate InL(w: string) {
    w == "aa" || w == "bb"
  }

  lemma {:induction false} LandsFromTrap(w: string)
    ensures Lands(Trap, w) == Trap
    decreases |w|
  {
    if w != [] {
      LandsFromTrap(w[1..]);
    }
  }

  /** From q2 or q4, P stays in a final state only on the empty word. */
  lemma LandsFromFinal(s: St, w: string)
    requires s in AaBbFinals()
    ensures Lands(s, w) in AaBbFinals() <==> w == []
  {
    if w != [] {
      LandsFromTrap(w[1..]);
    }
  }

  /** From q1 (after an a), P stops in a final state exactly on one more a. */
  lemma LandsFromQ1(w: string)
    requires OverAB(w)
    ensures Lands(Q1, w) in AaBbFinals() <==> w == "a"
  {
    if w != [] {
      if w[0] == 'a' {
        LandsFromFinal(Q2, w[1..]);
        assert w == "a" <==> w[1..] == [];
      } else {
        LandsFromTrap(w[1..]);
      }
    }
  }

  /** From q3 (after a b), P stops in a final state exactly on one more b. */
  lemma LandsFromQ3(w: string)
    requires OverAB(w)
    ensures Lands(Q3, w) in AaBbFinals() <==> w == "b"
  {
    if w != [] {
      if w[0] == 'b' {
        LandsFromFinal(Q4, w[1..]);
        assert w == "b" <==> w[1..] == [];
      } else {
        LandsFromTrap(w[1..]);
      }
    }
  }

  /** From q0, P stops in a final state exactly on aa and bb. */
  lemma LandsFromQ0(w: string)
    requires OverAB(w)
    ensures Lands(Q0, w) in AaBbFinals() <==> InL(w)
  {
    if w != [] {
      var rest := w[1..];
      assert OverAB(rest) by {
        assert forall i :: 0 <= i < |rest| ==> rest[i] == w[i + 1];
      }
      assert w == [w[0]] + rest;
      if w[0] == 'a' {
        LandsFromQ1(rest);
        assert w == "aa" <==> rest == "a";
        assert w != "bb";
      } else {
        LandsFromQ3(rest);
        assert w == "bb" <==> rest == "b";
        assert w != "aa";
      }
    }
  }

  /** P reads every word over { a, b } to the end, stops in a final state
      exactly on aa and bb, and leaves C a reset move there. */
  lemma AaBbReadsAll(t: Table<St>, w: string)
    requires AaBbMoves(t) && OverAB(w)
    ensures ReadAll(t, Config(Q0, w, "Z")).Some?
    ensures ReadAll(t, Config(Q0, w, "Z")).value.state in AaBbFinals() <==> InL(w)
    ensures CanReset(ReadAll(t, Config(Q0, w, "Z")).value, AaBbStates(), {'Z'})
  {
    ReadsToTheEnd(t, Config(Q0, w, "Z"));
    LandsFromQ0(w);
  }

  /** On every word over { a, b }, for a table holding the twelve moves of
      the script, no ε moves, endpoints among the six states and no stack
      symbol but Z (the table the builder makes): P accepts exactly aa and
      bb, and the complement C accepts exactly the other words. */
  lemma AaBbComplement(r: Table<(St, nat)>, t: Table<St>, w: string, fuel: nat)
    requires AaBbMoves(t) && EpsFree(t) && EndpointsIn(t, AaBbStates()) && StackSymbolsIn(t, {'Z'})
    requires Follows(r, t, AaBbFinals(), AaBbStates(), {'Z'})
    requires OverAB(w) && fuel >= 2 * |w| + 1
    ensures RunAccepts(t, AaBbFinals(), "final_state", Config(Q0, w, "Z"), fuel) <==> InL(w)
    ensures RunAccepts(r, ComplementFinals(AaBbStates()), "final_state", Marked(Config(Q0, w, "Z"), 0), fuel) <==> !InL(w)
  {
    AaBbReadsAll(t, w);
    assert Mark(Q0, AaBbFinals()) == 0;
    ComplementOfEpsFree(r, t, AaBbFinals(), AaBbStates(), {'Z'}, Config(Q0, w, "Z"), fuel);
  }

  /** The words of the script (test_complemento.py, lines 196-207), and whether each belongs to the language. */
  function ScriptWords(): seq<string> {
    ["", "aa", "bb", "a", "b", "ab", "ba", "aaa", "bbb", "aabb"]
  }

  function ScriptInL(): seq<bool> {
    [false, true, true, false, false, false, false, false, false, false]
  }

  lemma ScriptWordsFacts()
    ensures |ScriptWords()| == |ScriptInL()|
    ensures forall j :: 0 <= j < |ScriptWords()| ==> OverAB(ScriptWords()[j]) && (InL(ScriptWords()[j]) <==> ScriptInL()[j])
  {
    forall j | 0 <= j < |ScriptWords()|
      ensures OverAB(ScriptWords()[j]) && (InL(ScriptWords()[j]) <==> ScriptInL()[j])
    {
      var w := ScriptWords()[j];
      if j == 5 {
        assert w[1] != "aa"[1] && w[0] != "bb"[0];
      } else if j == 6 {
        assert w[0] != "aa"[0] && w[1] != "bb"[1];
      }
    }
  }

  /** `accepts` on P and on C for one word over { a, b }. */
  method CheckWord(p: Dpda<St>, c: Dpda<(St, nat)>, w: string) returns (inP: bool, inC: bool)
    requires AaBbMoves(p.transitions) && EpsFree(p.transitions) && p.Valid()
    requires p.states == AaBbStates() && p.stackAlphabet == {'Z'}
    requires p.finals == AaBbFinals() && p.initial == Some(Q0) && p.initialStackSymbol == 'Z'
    requires Follows(c.transitions, p.transitions, AaBbFinals(), AaBbStates(), {'Z'})
    requires c.finals == ComplementFinals(AaBbStates()) && c.initial == Some((Q0, 0)) && c.initialStackSymbol == 'Z'
    requires OverAB(w)
    ensures inP == InL(w) && inC == !InL(w)
  {
    AaBbComplement(c.transitions, p.transitions, w, MaxSteps(|w|));
    inP := p.Accepts(w, "final_state");
    inC := c.Accepts(w, "final_state");
  }

  /** P built by the script's calls and C made from it by `crear_automata_complemento`
      (line 189), with three times P's states (the size printed at line 193). */
  method BuildBoth() returns (p: Dpda<St>, c: Dpda<(St, nat)>)
    ensures AaBbMoves(p.transitions) && EpsFree(p.transitions) && p.Valid()
    ensures p.states == AaBbStates() && p.stackAlphabet == {'Z'}
    ensures p.finals == AaBbFinals() && p.initial == Some(Q0) && p.initialStackSymbol == 'Z'
    ensures Follows(c.transitions, p.transitions, AaBbFinals(), AaBbStates(), {'Z'})
    ensures c.finals == ComplementFinals(AaBbStates()) && c.initial == Some((Q0, 0)) && c.initialStackSymbol == 'Z'
    ensures c.Size() == 3 * p.Size() == 18
  {
    p := BuildAaBb();
    AaBbStatesCount();
    c := BuildComplement(p);
    AaBbTableMoves();
  }

  /** The script's checks on both automata: the answers of `accepts` on its
      ten words, in order, for P and for its complement C. */
  method ComplementScript() returns (pAnswers: seq<bool>, cAnswers: seq<bool>)
    ensures pAnswers == [false, true, true, false, false, false, false, false, false, false]
    ensures cAnswers == [true, false, false, true, true, true, true, true, true, true]
  {
    var p, c := BuildBoth();
    ScriptWordsFacts();
    var words := ScriptWords();
    pAnswers, cAnswers := [], [];
    for i := 0 to |words|
      invariant AaBbMoves(p.transitions) && EpsFree(p.transitions) && p.Valid()
      invariant p.states == AaBbStates() && p.stackAlphabet == {'Z'}
      invariant p.finals == AaBbFinals() && p.initial == Some(Q0) && p.initialStackSymbol == 'Z'
      invariant Follows(c.transitions, p.transitions, AaBbFinals(), AaBbStates(), {'Z'})
      invariant c.finals == ComplementFinals(AaBbStates()) && c.initial == Some((Q0, 0)) && c.initialStackSymbol == 'Z'
      invariant |pAnswers| == i && |cAnswers| == i
      invariant forall j :: 0 <= j < i ==> pAnswers[j] == ScriptInL()[j] && cAnswers[j] == !ScriptInL()[j]
    {
      var inP, inC := CheckWord(p, c, words[i]);
      pAnswers, cAnswers := pAnswers + [inP], cAnswers + [inC];
    }
  }
}
