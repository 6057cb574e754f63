/**
 * The a^n b^n automaton of test_pila_simple.py, built through the builder
 * methods, with the answers of `accepts` on the words the script tries and
 * the acceptance of every a^n b^n.
 */
module AnbnExample {
  import opened Table
  import opened Engine
  import opened Automaton
  import opened Runs

  /** The states q0, q1 and qf of the test script. */
  datatype St = Q0 | Q1 | QF

  /** The moves that push an `A` for each `a`, in the order the script adds them. */
  function AnbnPushTable(): Table<St> {
    map[Key(Q0, Some('a'), 'Z') := Move(Q0, "AZ")][Key(Q0, Some('a'), 'A') := Move(Q0, "AA")]
  }

  /** Then the moves that pop an `A` for each `b`. */
  function AnbnPopTable(): Table<St> {
    AnbnPushTable()[Key(Q0, Some('b'), 'A') := Move(Q1, "")][Key(Q1, Some('b'), 'A') := Move(Q1, "")]
  }

  /** The whole table: last, the ε move to the final state. */
  function AnbnTable(): Table<St> {
    AnbnPopTable()[Key(Q1, None, 'Z') := Move(QF, "Z")]
  }

  /** The states, the initial state and the bottom symbol of the a^n b^n automaton. */
  method AnbnStates() returns (a: Dpda<St>)
    ensures fresh(a) && a.Valid()
    ensures a.states == {Q0, Q1, QF} && a.finals == {QF} && a.initial == Some(Q0)
    ensures a.transitions == map[] && a.initialStackSymbol == 'Z'
    ensures a.inputAlphabet == {} && a.stackAlphabet == {'Z'}
  {
    a := new Dpda<St>();
    var o := a.AddState(Q0, false);
    assert o.Ok?;
    o := a.AddState(Q1, false);
    assert o.Ok?;
    o := a.AddState(QF, true);
    assert o.Ok?;
    o := a.MarkInitialState(Q0);
    assert o.Ok?;
    a.SetInitialStackSymbol('Z');
  }

  /** The moves of a^n b^n that push symbols. */
  method AnbnPushes(a: Dpda<St>)
    requires a.Valid() && a.states == {Q0, Q1, QF} && a.transitions == map[]
    requires a.inputAlphabet == {} && a.stackAlphabet == {'Z'}
    modifies a
    ensures a.Valid() && a.transitions == AnbnPushTable()
    ensures a.inputAlphabet == {'a'} && a.stackAlphabet == {'Z', 'A'}
    ensures a.states == old(a.states) && a.finals == old(a.finals) && a.initial == old(a.initial)
    ensures a.initialStackSymbol == old(a.initialStackSymbol)
  {
    var o := a.AddTransition(Q0, Q0, Some('a'), 'Z', "AZ");
    assert o.Ok?;
    o := a.AddTransition(Q0, Q0, Some('a'), 'A', "AA");
    assert o.Ok?;
  }

  /** The two moves that pop an `A` for each `b`. */
  method AnbnPops(a: Dpda<St>)
    requires a.Valid() && a.states == {Q0, Q1, QF}
    requires a.transitions == AnbnPushTable()
    modifies a
    ensures a.Valid() && a.transitions == AnbnPopTable()
    ensures a.inputAlphabet == old(a.inputAlphabet) + {'b'}
    ensures a.states == old(a.states) && a.finals == old(a.finals) && a.initial == old(a.initial)
    ensures a.initialStackSymbol == old(a.initialStackSymbol)
  {
    var o := a.AddTransition(Q0, Q1, Some('b'), 'A', "");
    assert o.Ok?;
    o := a.AddTransition(Q1, Q1, Some('b'), 'A', "");
    assert o.Ok?;
  }

  /** The ε move to the final state once only `Z` is left. */
  method AnbnFinish(a: Dpda<St>)
    requires a.Valid() && a.states == {Q0, Q1, QF}
    requires a.transitions == AnbnPopTable()
    requires a.inputAlphabet == {'a', 'b'}
    modifies a
    ensures a.Valid() && a.transitions == AnbnTable()
    ensures a.states == old(a.states) && a.finals == old(a.finals) && a.initial == old(a.initial)
    ensures a.initialStackSymbol == old(a.initialStackSymbol)
  {
    var o := a.AddTransition(Q1, QF, None, 'Z', "Z");
    assert o.Ok?;
  }

  /** The a^n b^n automaton of the test script, built through the builder methods. */
  method BuildAnbn() returns (a: Dpda<St>)
    ensures fresh(a) && a.Valid()
    ensures a.states == {Q0, Q1, QF} && a.finals == {QF} && a.initial == Some(Q0)
    ensures a.transitions == AnbnTable() && a.initialStackSymbol == 'Z'
  {
    a := AnbnStates();
    AnbnPushes(a);
    AnbnPops(a);
    AnbnFinish(a);
  }

  /** The string of `n` copies of `x`. */
  function Rep(x: char, n: nat): (s: seq<char>)
    ensures |s| == n && forall i :: 0 <= i < n ==> s[i] == x
  {
    seq(n, _ => x)
  }

  /** The five moves of a^n b^n, whatever else a table holds. */
  predicate AnbnMoves(t: Table<St>) {
    Key(Q0, Some('a'), 'Z') in t && t[Key(Q0, Some('a'), 'Z')] == Move(Q0, "AZ") &&
    Key(Q0, Some('a'), 'A') in t && t[Key(Q0, Some('a'), 'A')] == Move(Q0, "AA") &&
    Key(Q0, Some('b'), 'A') in t && t[Key(Q0, Some('b'), 'A')] == Move(Q1, "") &&
    Key(Q1, Some('b'), 'A') in t && t[Key(Q1, Some('b'), 'A')] == Move(Q1, "") &&
    Key(Q1, None, 'Z') in t && t[Key(Q1, None, 'Z')] == Move(QF, "Z")
  }

  /** In `q1` with `n` b's left and `n` A's on the stack, the run accepts. */
  lemma {:induction false} PopPhase(t: Table<St>, n: nat, fuel: nat)
    requires AnbnMoves(t) && fuel >= n + 1
    ensures RunAccepts(t, {QF}, "final_state", Config(Q1, Rep('b', n), "Z" + Rep('A', n)), fuel)
  {
    if n == 0 {
      assert Rep('b', 0) == [] && "Z" + Rep('A', 0) == "Z";
      Lambda(t, Config(Q1, "", "Z"), Config(QF, "", "Z"));
      AcceptsBack(t, {QF}, "final_state", Config(Q1, "", "Z"), Config(QF, "", "Z"), fuel - 1);
    } else {
      var c := Config(Q1, Rep('b', n), "Z" + Rep('A', n));
      var d := Config(Q1, Rep('b', n - 1), "Z" + Rep('A', n - 1));
      assert Rep('b', n)[1..] == Rep('b', n - 1);
      assert ("Z" + Rep('A', n))[..n] == "Z" + Rep('A', n - 1);
      Read(t, c, d);
      PopPhase(t, n - 1, fuel - 1);
      AcceptsBack(t, {QF}, "final_state", c, d, fuel - 1);
    }
  }

  /** The first b moves to `q1`, and the pops then accept. */
  lemma FirstB(t: Table<St>, n: nat, fuel: nat)
    requires AnbnMoves(t) && 1 <= n && fuel >= n + 1
    ensures RunAccepts(t, {QF}, "final_state", Config(Q0, Rep('b', n), "Z" + Rep('A', n)), fuel)
  {
    var c := Config(Q0, Rep('b', n), "Z" + Rep('A', n));
    var d := Config(Q1, Rep('b', n - 1), "Z" + Rep('A', n - 1));
    assert c.input[1..] == Rep('b', n - 1);
    assert ("Z" + Rep('A', n))[..n] == "Z" + Rep('A', n - 1);
    Read(t, c, d);
    PopPhase(t, n - 1, fuel - 1);
    AcceptsBack(t, {QF}, "final_state", c, d, fuel - 1);
  }

  /** Reading an a pushes one more A. */
  lemma PushMove(t: Table<St>, m: nat, n: nat)
    requires AnbnMoves(t) && 1 <= m <= n
    ensures Step(t, Config(Q0, Rep('a', m) + Rep('b', n), "Z" + Rep('A', n - m))) ==
      Some(Config(Q0, Rep('a', m - 1) + Rep('b', n), "Z" + Rep('A', n - (m - 1))))
  {
    var c := Config(Q0, Rep('a', m) + Rep('b', n), "Z" + Rep('A', n - m));
    var d := Config(Q0, Rep('a', m - 1) + Rep('b', n), "Z" + Rep('A', n - (m - 1)));
    assert c.input[1..] == d.input;
    if m == n {
      assert c.stack == "Z" && d.stack == "ZA";
    } else {
      assert c.stack[..n - m] + "AA" == d.stack;
    }
    Read(t, c, d);
  }

  /** In `q0` with `m` a's and then `n` b's left and `n - m` A's on the stack, the run accepts. */
  lemma {:induction false} PushPhase(t: Table<St>, m: nat, n: nat, fuel: nat)
    requires AnbnMoves(t) && 1 <= n && m <= n && fuel >= m + n + 1
    ensures RunAccepts(t, {QF}, "final_state", Config(Q0, Rep('a', m) + Rep('b', n), "Z" + Rep('A', n - m)), fuel)
    decreases m
  {
    if m == 0 {
      NoLeadingAs(n);
      FirstB(t, n, fuel);
    } else {
      var c := Config(Q0, Rep('a', m) + Rep('b', n), "Z" + Rep('A', n - m));
      var d := Config(Q0, Rep('a', m - 1) + Rep('b', n), "Z" + Rep('A', n - (m - 1)));
      PushMove(t, m, n);
      PushPhase(t, m - 1, n, fuel - 1);
      AcceptsBack(t, {QF}, "final_state", c, d, fuel - 1);
    }
  }

  lemma NoLeadingAs(n: nat)
    ensures Rep('a', 0) + Rep('b', n) == Rep('b', n) && "Z" + Rep('A', n - 0) == "Z" + Rep('A', n)
  {
    assert Rep('a', 0) == [];
  }

  /** Every word a^n b^n with n >= 1 is accepted, within 2n + 1 moves. */
  lemma AnbnAccepts(n: nat, fuel: nat)
    requires n >= 1 && fuel >= 2 * n + 1
    ensures RunAccepts(AnbnTable(), {QF}, "final_state", Config(Q0, Rep('a', n) + Rep('b', n), "Z"), fuel)
  {
    assert "Z" + Rep('A', n - n) == "Z";
    PushPhase(AnbnTable(), n, n, fuel);
  }

  lemma AnbnRejectsEmpty()
    ensures Rejects(AnbnTable(), {QF}, "final_state", Config(Q0, "", "Z"))
  {
    var t, F: set<St> := AnbnTable(), {QF};
    Stuck(t, Config(Q0, "", "Z"));
    RejectsStuck(t, F, "final_state", Config(Q0, "", "Z"));
  }

  lemma AnbnRejectsA()
    ensures Rejects(AnbnTable(), {QF}, "final_state", Config(Q0, "a", "Z"))
  {
    var t, F: set<St> := AnbnTable(), {QF};
    Stuck(t, Config(Q0, "", "ZA"));
    RejectsStuck(t, F, "final_state", Config(Q0, "", "ZA"));
    Read(t, Config(Q0, "a", "Z"), Config(Q0, "", "ZA"));
    RejectsBack(t, F, "final_state", Config(Q0, "a", "Z"), Config(Q0, "", "ZA"));
  }

  lemma AnbnRejectsB()
    ensures Rejects(AnbnTable(), {QF}, "final_state", Config(Q0, "b", "Z"))
  {
    var t, F: set<St> := AnbnTable(), {QF};
    Stuck(t, Config(Q0, "b", "Z"));
    RejectsStuck(t, F, "final_state", Config(Q0, "b", "Z"));
  }

  /** After `ab`, the ε move reaches qf with a `b` still unread. */
  lemma AnbnRejectsAbbTail()
    ensures Rejects(AnbnTable(), {QF}, "final_state", Config(Q1, "b", "Z"))
  {
    var t, F: set<St> := AnbnTable(), {QF};
    Stuck(t, Config(QF, "b", "Z"));
    RejectsStuck(t, F, "final_state", Config(QF, "b", "Z"));
    Lambda(t, Config(Q1, "b", "Z"), Config(QF, "b", "Z"));
    RejectsBack(t, F, "final_state", Config(Q1, "b", "Z"), Config(QF, "b", "Z"));
  }

  lemma AnbnRejectsAbb()
    ensures Rejects(AnbnTable(), {QF}, "final_state", Config(Q0, "abb", "Z"))
  {
    var t, F: set<St> := AnbnTable(), {QF};
    AnbnRejectsAbbTail();
    Read(t, Config(Q0, "bb", "ZA"), Config(Q1, "b", "Z"));
    RejectsBack(t, F, "final_state", Config(Q0, "bb", "ZA"), Config(Q1, "b", "Z"));
    Read(t, Config(Q0, "abb", "Z"), Config(Q0, "bb", "ZA"));
    RejectsBack(t, F, "final_state", Config(Q0, "abb", "Z"), Config(Q0, "bb", "ZA"));
  }

  /** After `aab`, an `A` is left and no move pops it. */
  lemma AnbnRejectsAabTail()
    ensures Rejects(AnbnTable(), {QF}, "final_state", Config(Q0, "b", "ZAA"))
  {
    var t, F: set<St> := AnbnTable(), {QF};
    Stuck(t, Config(Q1, "", "ZA"));
    RejectsStuck(t, F, "final_state", Config(Q1, "", "ZA"));
    Read(t, Config(Q0, "b", "ZAA"), Config(Q1, "", "ZA"));
    RejectsBack(t, F, "final_state", Config(Q0, "b", "ZAA"), Config(Q1, "", "ZA"));
  }

  lemma AnbnRejectsAab()
    ensures Rejects(AnbnTable(), {QF}, "final_state", Config(Q0, "aab", "Z"))
  {
    var t, F: set<St> := AnbnTable(), {QF};
    AnbnRejectsAabTail();
    Read(t, Config(Q0, "ab", "ZA"), Config(Q0, "b", "ZAA"));
    RejectsBack(t, F, "final_state", Config(Q0, "ab", "ZA"), Config(Q0, "b", "ZAA"));
    Read(t, Config(Q0, "aab", "Z"), Config(Q0, "ab", "ZA"));
    RejectsBack(t, F, "final_state", Config(Q0, "aab", "Z"), Config(Q0, "ab", "ZA"));
  }

  /** The eight words of the test script, with the moves `accepts` allows them. */
  lemma AnbnAnswers(w: string)
    requires w in ["", "ab", "aabb", "aaabbb", "a", "b", "abb", "aab"]
    ensures RunAccepts(AnbnTable(), {QF}, "final_state", Config(Q0, w, "Z"), MaxSteps(|w|)) <==> w in ["ab", "aabb", "aaabbb"]
  {
    if w in ["ab", "aabb", "aaabbb"] {
      AnbnAnswersYes(w);
    } else {
      AnbnAnswersNo(w);
      assert !RunAccepts(AnbnTable(), {QF}, "final_state", Config(Q0, w, "Z"), MaxSteps(|w|));
    }
  }

  lemma AnbnAnswersYes(w: string)
    requires w in ["ab", "aabb", "aaabbb"]
    ensures RunAccepts(AnbnTable(), {QF}, "final_state", Config(Q0, w, "Z"), MaxSteps(|w|))
  {
    var n := |w| / 2;
    assert w == Rep('a', n) + Rep('b', n);
    AnbnAccepts(n, MaxSteps(|w|));
  }

  lemma AnbnAnswersNo(w: string)
    requires w in ["", "a", "b", "abb", "aab"]
    ensures Rejects(AnbnTable(), {QF}, "final_state", Config(Q0, w, "Z"))
  {
    if w == "" {
      AnbnRejectsEmpty();
    } else if w == "a" {
      AnbnRejectsA();
    } else if w == "b" {
      AnbnRejectsB();
    } else if w == "abb" {
      AnbnRejectsAbb();
    } else {
      assert w == "aab";
      AnbnRejectsAab();
    }
  }

  /** Asks `a` about one of the script's words. */
  method CheckAnbnWord(a: Dpda<St>, w: string) returns (accepted: bool)
    requires a.transitions == AnbnTable() && a.finals == {QF} && a.initial == Some(Q0) && a.initialStackSymbol == 'Z'
    requires w in ["", "ab", "aabb", "aaabbb", "a", "b", "abb", "aab"]
    ensures accepted == (w in ["ab", "aabb", "aaabbb"])
  {
    accepted := a.Accepts(w, "final_state");
    AnbnAnswers(w);
  }

  /** The script's checks: the answers of `accepts` on its eight words, in order. */
  method AnbnScript() returns (answers: seq<bool>)
    ensures answers == [false, true, true, true, false, false, false, false]
  {
    var a := BuildAnbn();
    answers := [];
    var words := ["", "ab", "aabb", "aaabbb", "a", "b", "abb", "aab"];
    var expected := [false, true, true, true, false, false, false, false];
    assert forall j :: 0 <= j < |words| ==> expected[j] == (words[j] in ["ab", "aabb", "aaabbb"]);
    for i := 0 to |words|
      invariant a.transitions == AnbnTable() && a.finals == {QF} && a.initial == Some(Q0) && a.initialStackSymbol == 'Z'
      invariant answers == expected[..i]
    {
      var accepted := CheckAnbnWord(a, words[i]);
      answers := answers + [accepted];
    }
  }
}
