/**
 * The first automaton of test_complemento.py: an ε-free automaton for
 * { a^n b | n >= 1 } made continuous by a trap state, and its complement.
 * P accepts exactly the words of the language, and C exactly the other
 * words over { a, b }.
 */
module AnbComplementExample {
  import opened Table
  import opened Engine
  import opened Automaton
  import opened Complement
  import opened ComplementRuns
  import opened Script

  /** The states q0, q1, q2 and trap of the test script. */
  datatype St = Q0 | Q1 | Q2 | Trap

  function AnbStates(): set<St> {
    {Q0, Q1, Q2, Trap}
  }

  /** The `add_transition` calls of the script (test_complemento.py, lines 44-62), in its order. */
  function AnbCalls(): seq<Call<St>> {
    [Call(Q0, Q1, 'a', 'Z', "AZ"), Call(Q1, Q1, 'a', 'Z', "AZ"), Call(Q1, Q1, 'a', 'A', "AA"),
     Call(Q1, Q2, 'b', 'Z', "Z"), Call(Q1, Q2, 'b', 'A', "A"), Call(Q0, Trap, 'b', 'Z', "Z"),
     Call(Q2, Trap, 'a', 'Z', "Z"), Call(Q2, Trap, 'b', 'Z', "Z"), Call(Q2, Trap, 'a', 'A', "A"),
     Call(Q2, Trap, 'b', 'A', "A"), Call(Trap, Trap, 'a', 'Z', "Z"), Call(Trap, Trap, 'b', 'Z', "Z"),
     Call(Trap, Trap, 'a', 'A', "A"), Call(Trap, Trap, 'b', 'A', "A")]
  }

  /** The table the calls build. */
  function AnbTable(): Table<St> {
    Applied(map[], AnbCalls())
  }

  /** No two calls of the script share a key. */
  lemma AnbDistinctKeys()
    ensures DistinctKeys(AnbCalls())
  {
  }

  /** Every call of the script goes between its states. */
  lemma AnbCallsWithin()
    ensures Within(AnbCalls(), AnbStates()) && NewKeys(AnbCalls(), map[])
  {
    forall s: St ensures s in AnbStates() {
      assert s.Q0? || s.Q1? || s.Q2? || s.Trap?;
    }
  }

  /** The calls bring in the input symbols a, b and the stack symbols Z, A. */
  lemma AnbCallAlphabets()
    ensures CallSymbols(AnbCalls()) == {'a', 'b'}
    ensures CallStackSymbols(AnbCalls()) == {'Z', 'A'}
  {
    var calls := AnbCalls();
    assert calls[0].symbol == 'a' && calls[3].symbol == 'b';
    assert 'A' in {calls[0].top} + Chars(calls[0].push);
    forall i | 0 <= i < |calls| ensures {calls[i].top} + Chars(calls[i].push) <= {'Z', 'A'} {
    }
  }

  /** The states, the initial state and the bottom symbol of the automaton. */
  method AnbStatesBuilt() returns (a: Dpda<St>)
    ensures fresh(a) && a.Valid()
    ensures a.states == AnbStates() && a.finals == {Q2} && a.initial == Some(Q0)
    ensures a.transitions == map[] && a.initialStackSymbol == 'Z'
    ensures a.inputAlphabet == {} && a.stackAlphabet == {'Z'}
  {
    a := new Dpda<St>();
    var o := a.AddState(Q0, false);
    assert o.Ok?;
    o := a.AddState(Q1, false);
    assert o.Ok?;
    o := a.AddState(Q2, true);
    assert o.Ok?;
    o := a.AddState(Trap, false);
    assert o.Ok?;
    o := a.MarkInitialState(Q0);
    assert o.Ok?;
    a.SetInitialStackSymbol('Z');
  }

  /** The automaton of the script, built through the builder methods. */
  method BuildAnb() returns (a: Dpda<St>)
    ensures fresh(a) && a.Valid()
    ensures a.states == AnbStates() && a.finals == {Q2} && a.initial == Some(Q0)
    ensures a.transitions == AnbTable() && a.initialStackSymbol == 'Z' && a.stackAlphabet == {'Z', 'A'}
    ensures EpsFree(a.transitions)
  {
    a := AnbStatesBuilt();
    AnbDistinctKeys();
    AnbCallAlphabets();
    AnbCallsWithin();
    AddCalls(a, AnbCalls());
  }

  /** The fourteen moves of the table, whatever else a table holds. */
  predicate AnbMoves(t: Table<St>) {
    Key(Q0, Some('a'), 'Z') in t && t[Key(Q0, Some('a'), 'Z')] == Move(Q1, "AZ") &&
    Key(Q1, Some('a'), 'Z') in t && t[Key(Q1, Some('a'), 'Z')] == Move(Q1, "AZ") &&
    Key(Q1, Some('a'), 'A') in t && t[Key(Q1, Some('a'), 'A')] == Move(Q1, "AA") &&
    Key(Q1, Some('b'), 'Z') in t && t[Key(Q1, Some('b'), 'Z')] == Move(Q2, "Z") &&
    Key(Q1, Some('b'), 'A') in t && t[Key(Q1, Some('b'), 'A')] == Move(Q2, "A") &&
    Key(Q0, Some('b'), 'Z') in t && t[Key(Q0, Some('b'), 'Z')] == Move(Trap, "Z") &&
    Key(Q2, Some('a'), 'Z') in t && t[Key(Q2, Some('a'), 'Z')] == Move(Trap, "Z") &&
    Key(Q2, Some('b'), 'Z') in t && t[Key(Q2, Some('b'), 'Z')] == Move(Trap, "Z") &&
    Key(Q2, Some('a'), 'A') in t && t[Key(Q2, Some('a'), 'A')] == Move(Trap, "A") &&
    Key(Q2, Some('b'), 'A') in t && t[Key(Q2, Some('b'), 'A')] == Move(Trap, "A") &&
    Key(Trap, Some('a'), 'Z') in t && t[Key(Trap, Some('a'), 'Z')] == Move(Trap, "Z") &&
    Key(Trap, Some('b'), 'Z') in t && t[Key(Trap, Some('b'), 'Z')] == Move(Trap, "Z") &&
    Key(Trap, Some('a'), 'A') in t && t[Key(Trap, Some('a'), 'A')] == Move(Trap, "A") &&
    Key(Trap, Some('b'), 'A') in t && t[Key(Trap, Some('b'), 'A')] == Move(Trap, "A")
  }

  lemma AnbTableMoves()
    ensures AnbMoves(AnbTable())
  {
    AnbDistinctKeys();
    AppliedLookup(map[], AnbCalls(), 0);
    AppliedLookup(map[], AnbCalls(), 1);
    AppliedLookup(map[], AnbCalls(), 2);
    AppliedLookup(map[], AnbCalls(), 3);
    AppliedLookup(map[], AnbCalls(), 4);
    AppliedLookup(map[], AnbCalls(), 5);
    AppliedLookup(map[], AnbCalls(), 6);
    AppliedLookup(map[], AnbCalls(), 7);
    AppliedLookup(map[], AnbCalls(), 8);
    AppliedLookup(map[], AnbCalls(), 9);
    AppliedLookup(map[], AnbCalls(), 10);
    AppliedLookup(map[], AnbCalls(), 11);
    AppliedLookup(map[], AnbCalls(), 12);
    AppliedLookup(map[], AnbCalls(), 13);
  }

  /** The state P moves to on reading `x` in state `s`. */
  function Next(s: St, x: char): St {
    match s
    case Q0 => if x == 'a' then Q1 else Trap
    case Q1 => if x == 'a' then Q1 else Q2
    case Q2 => Trap
    case Trap => Trap
  }

  /** The state P stops in after reading `w` from `s`. */
  function Lands(s: St, w: string): St
    decreases |w|
  {
    if w == [] then s else Lands(Next(s, w[0]), w[1..])
  }

  /** The configurations P reaches: Z at the bottom, A's above it, and only Z in q0. */
  predicate Good(c: Config<St>) {
    c.stack != [] && c.stack[0] == 'Z' && (forall i :: 1 <= i < |c.stack| ==> c.stack[i] == 'A') &&
    (c.state == Q0 ==> |c.stack| == 1)
  }

  /** From a reachable configuration P always reads a or b, to a reachable configuration. */
  lemma GoodStep(t: Table<St>, c: Config<St>)
    requires AnbMoves(t) && Good(c) && c.input != [] && (c.input[0] == 'a' || c.input[0] == 'b')
    ensures Step(t, c).Some?
    ensures Step(t, c).value.state == Next(c.state, c.input[0])
    ensures Step(t, c).value.input == c.input[1..]
    ensures Good(Step(t, c).value)
  {
    var top := Top(c.stack);
    assert top == 'Z' <==> |c.stack| == 1;
    assert top == 'Z' || top == 'A';
    if c.input[0] == 'a' && (c.state == Q0 || c.state == Q1) {
      PushStep(t, c);
    } else {
      KeepStep(t, c);
    }
  }

  /** Reading an a in q0 or q1 pushes an A. */
  lemma PushStep(t: Table<St>, c: Config<St>)
    requires AnbMoves(t) && Good(c) && c.input != [] && c.input[0] == 'a' && (c.state == Q0 || c.state == Q1)
    ensures Step(t, c) == Some(Config(Q1, c.input[1..], c.stack + "A"))
  {
    var top := Top(c.stack);
    assert top == 'Z' <==> |c.stack| == 1;
    if top == 'Z' {
      assert Reverse("AZ") == "ZA";
      assert c.stack == "Z";
      assert Replace(c.stack, "AZ") == c.stack + "A";
      StepBy(t, c, Q1, "AZ");
    } else {
      assert top == 'A';
      assert Reverse("AA") == "AA";
      assert Replace(c.stack, "AA") == c.stack[..|c.stack| - 1] + "AA" == c.stack + "A";
      StepBy(t, c, Q1, "AA");
    }
  }

  /** Every other move of the table pushes back the top it pops. */
  lemma KeepStep(t: Table<St>, c: Config<St>)
    requires AnbMoves(t) && Good(c) && c.input != [] && (c.input[0] == 'a' || c.input[0] == 'b')
    requires !(c.input[0] == 'a' && (c.state == Q0 || c.state == Q1))
    ensures Step(t, c) == Some(Config(Next(c.state, c.input[0]), c.input[1..], c.stack))
  {
    var top := Top(c.stack);
    assert top == 'Z' <==> |c.stack| == 1;
    assert top == 'Z' || top == 'A';
    assert t[Key(c.state, Some(c.input[0]), top)] == Move(Next(c.state, c.input[0]), [top]);
    Keep(t, c, Next(c.state, c.input[0]));
  }

  /** On a word over { a, b }, P reads to the end and stops where `Lands` says. */
  lemma {:induction false} ReadsToTheEnd(t: Table<St>, c: Config<St>)
    requires AnbMoves(t) && Good(c) && OverAB(c.input)
    ensures ReadAll(t, c).Some?
    ensures ReadAll(t, c).value.state == Lands(c.state, c.input)
    ensures Good(ReadAll(t, c).value)
    decreases |c.input|
  {
    if c.input != [] {
      GoodStep(t, c);
      var d := Step(t, c).value;
      assert OverAB(d.input) by {
        forall i | 0 <= i < |d.input| ensures d.input[i] == 'a' || d.input[i] == 'b' {
          assert d.input[i] == c.input[i + 1];
        }
      }
      ReadsToTheEnd(t, d);
    }
  }

  /** The words of the language: one or more a's, then one b. */
  predicate InL(w: string) {
    |w| >= 2 && w[|w| - 1] == 'b' && forall i :: 0 <= i < |w| - 1 ==> w[i] == 'a'
  }

  lemma {:induction false} LandsFromTrap(w: string)
    ensures Lands(Trap, w) == Trap
    decreases |w|
  {
    if w != [] {
      LandsFromTrap(w[1..]);
    }
  }

  lemma LandsFromQ2(w: string)
    ensures Lands(Q2, w) == Q2 <==> w == []
  {
    if w != [] {
      LandsFromTrap(w[1..]);
    }
  }

  /** From q1, P stops in q2 exactly on a's followed by one b. */
  lemma {:induction false} LandsFromQ1(w: string)
    requires OverAB(w)
    ensures Lands(Q1, w) == Q2 <==> (|w| >= 1 && w[|w| - 1] == 'b' && forall i :: 0 <= i < |w| - 1 ==> w[i] == 'a')
    decreases |w|
  {
    if w != [] {
      assert OverAB(w[1..]) by {
        assert forall i :: 0 <= i < |w| - 1 ==> w[1..][i] == w[i + 1];
      }
      if w[0] == 'a' {
        LandsFromQ1(w[1..]);
        if |w| >= 2 {
          assert w[|w| - 1] == w[1..][|w| - 2];
          assert forall i :: 1 <= i < |w| - 1 ==> w[i] == w[1..][i - 1];
        }
      } else {
        LandsFromQ2(w[1..]);
        if |w| >= 2 {
          assert w[0] != 'a';
        }
      }
    }
  }

  /** From q0, P stops in q2 exactly on the words of the language. */
  lemma LandsFromQ0(w: string)
    requires OverAB(w)
    ensures Lands(Q0, w) == Q2 <==> InL(w)
  {
    if w != [] {
      assert OverAB(w[1..]) by {
        assert forall i :: 0 <= i < |w| - 1 ==> w[1..][i] == w[i + 1];
      }
      if w[0] == 'a' {
        LandsFromQ1(w[1..]);
        if |w| >= 2 {
          assert w[|w| - 1] == w[1..][|w| - 2];
          assert forall i :: 1 <= i < |w| - 1 ==> w[i] == w[1..][i - 1];
        }
      } else {
        LandsFromTrap(w[1..]);
      }
    }
  }

  /** P reads every word over { a, b } to the end, stops in q2 exactly on
      the words of the language, and leaves C a reset move there. */
  lemma AnbReadsAll(t: Table<St>, w: string)
    requires AnbMoves(t) && OverAB(w)
    ensures ReadAll(t, Config(Q0, w, "Z")).Some?
    ensures ReadAll(t, Config(Q0, w, "Z")).value.state == Q2 <==> InL(w)
    ensures CanReset(ReadAll(t, Config(Q0, w, "Z")).value, AnbStates(), {'Z', 'A'})
  {
    var c := Config(Q0, w, "Z");
    ReadsToTheEnd(t, c);
    LandsFromQ0(w);
    var e := ReadAll(t, c).value;
    assert Top(e.stack) == 'Z' || Top(e.stack) == 'A';
  }

  /** On every word over { a, b }, for a table holding the fourteen moves
      of the script, no ε moves, endpoints among the four states and stack
      symbols Z and A (the table the builder makes): P accepts exactly the
      words of the language, and the complement C accepts exactly the
      others. */
  lemma AnbComplement(r: Table<(St, nat)>, t: Table<St>, w: string, fuel: nat)
    requires AnbMoves(t) && EpsFree(t) && EndpointsIn(t, AnbStates()) && StackSymbolsIn(t, {'Z', 'A'})
    requires Follows(r, t, {Q2}, AnbStates(), {'Z', 'A'})
    requires OverAB(w) && fuel >= 2 * |w| + 1
    ensures RunAccepts(t, {Q2}, "final_state", Config(Q0, w, "Z"), fuel) <==> InL(w)
    ensures RunAccepts(r, ComplementFinals(AnbStates()), "final_state", Marked(Config(Q0, w, "Z"), 0), fuel) <==> !InL(w)
  {
    var c := Config(Q0, w, "Z");
    AnbReadsAll(t, w);
    assert Mark(Q0, {Q2}) == 0;
    ComplementOfEpsFree(r, t, {Q2}, AnbStates(), {'Z', 'A'}, c, fuel);
  }

  /** The words of the script (test_complemento.py, lines 81-94), and whether each belongs to the language. */
  function ScriptWords(): seq<string> {
    ["", "a", "b", "ab", "aab", "aaab", "ba", "abb", "aabb", "aa", "bb"]
  }

  function ScriptInL(): seq<bool> {
    [false, false, false, true, true, true, false, false, false, false, false]
  }

  lemma ScriptWordsFacts()
    ensures |ScriptWords()| == |ScriptInL()|
    ensures forall j :: 0 <= j < |ScriptWords()| ==> OverAB(ScriptWords()[j]) && (InL(ScriptWords()[j]) <==> ScriptInL()[j])
  {
    forall j | 0 <= j < |ScriptWords()|
      ensures OverAB(ScriptWords()[j]) && (InL(ScriptWords()[j]) <==> ScriptInL()[j])
    {
      var w := ScriptWords()[j];
      if j == 6 || j == 10 {
        assert w[0] == 'b';
      } else if j == 7 {
        assert w[1] == 'b';
      } else if j == 8 {
        assert w[2] == 'b';
      }
    }
  }

  /** `accepts` on P and on C for one word over { a, b }. */
  method CheckWord(p: Dpda<St>, c: Dpda<(St, nat)>, w: string) returns (inP: bool, inC: bool)
    requires AnbMoves(p.transitions) && EpsFree(p.transitions) && p.Valid()
    requires p.states == AnbStates() && p.stackAlphabet == {'Z', 'A'}
    requires p.finals == {Q2} && p.initial == Some(Q0) && p.initialStackSymbol == 'Z'
    requires Follows(c.transitions, p.transitions, {Q2}, AnbStates(), {'Z', 'A'})
    requires c.finals == ComplementFinals(AnbStates()) && c.initial == Some((Q0, 0)) && c.initialStackSymbol == 'Z'
    requires OverAB(w)
    ensures inP == InL(w) && inC == !InL(w)
  {
    AnbComplement(c.transitions, p.transitions, w, MaxSteps(|w|));
    inP := p.Accepts(w, "final_state");
    inC := c.Accepts(w, "final_state");
  }

  /** P built by the script's calls and C made from it by `crear_automata_complemento`. */
  method BuildBoth() returns (p: Dpda<St>, c: Dpda<(St, nat)>)
    ensures AnbMoves(p.transitions) && EpsFree(p.transitions) && p.Valid()
    ensures p.states == AnbStates() && p.stackAlphabet == {'Z', 'A'}
    ensures p.finals == {Q2} && p.initial == Some(Q0) && p.initialStackSymbol == 'Z'
    ensures Follows(c.transitions, p.transitions, {Q2}, AnbStates(), {'Z', 'A'})
    ensures c.finals == ComplementFinals(AnbStates()) && c.initial == Some((Q0, 0)) && c.initialStackSymbol == 'Z'
  {
    p := BuildAnb();
    c := BuildComplement(p);
    AnbTableMoves();
  }

  /** The script's checks on both automata: the answers of `accepts` on its
      eleven words, in order, for P and for its complement C. */
  method ComplementScript() returns (pAnswers: seq<bool>, cAnswers: seq<bool>)
    ensures pAnswers == [false, false, false, true, true, true, false, false, false, false, false]
    ensures cAnswers == [true, true, true, false, false, false, true, true, true, true, true]
  {
    var p, c := BuildBoth();
    ScriptWordsFacts();
    var words := ScriptWords();
    pAnswers, cAnswers := [], [];
    for i := 0 to |words|
      invariant AnbMoves(p.transitions) && EpsFree(p.transitions) && p.Valid()
      invariant p.states == AnbStates() && p.stackAlphabet == {'Z', 'A'}
      invariant p.finals == {Q2} && p.initial == Some(Q0) && p.initialStackSymbol == 'Z'
      invariant Follows(c.transitions, p.transitions, {Q2}, AnbStates(), {'Z', 'A'})
      invariant c.finals == ComplementFinals(AnbStates()) && c.initial == Some((Q0, 0)) && c.initialStackSymbol == 'Z'
      invariant |pAnswers| == i && |cAnswers| == i
      invariant forall j :: 0 <= j < i ==> pAnswers[j] == ScriptInL()[j] && cAnswers[j] == !ScriptInL()[j]
    {
      var inP, inC := CheckWord(p, c, words[i]);
      pAnswers, cAnswers := pAnswers + [inP], cAnswers + [inC];
    }
  }
}
