/**
 * The way the repository's test scripts build an automaton: a run of
 * `add_transition` calls, each one a symbol move whose key is new.
 */
module Script {
  import opened Table
  import opened Automaton
  import opened Complement
  import opened ComplementRuns

  /** One `add_transition(state, target, symbol, top, push)` call with an input symbol. */
  datatype Call<S> = Call(state: S, target: S, symbol: char, top: char, push: string)

  function CallKey<S>(c: Call<S>): Key<S> {
    Key(c.state, Some(c.symbol), c.top)
  }

  function CallMove<S>(c: Call<S>): Move<S> {
    Move(c.target, c.push)
  }

  /** The table `t` after the calls, made in order. */
  function Applied<S(==)>(t: Table<S>, calls: seq<Call<S>>): Table<S>
    decreases |calls|
  {
    if calls == [] then t
    else Applied(t, calls[..|calls| - 1])[CallKey(calls[|calls| - 1]) := CallMove(calls[|calls| - 1])]
  }

  /** No two calls share a key. */
  predicate DistinctKeys<S(==)>(calls: seq<Call<S>>) {
    forall i, j :: 0 <= i < j < |calls| ==> CallKey(calls[i]) != CallKey(calls[j])
  }

  /** Every call goes between states of `q`. */
  predicate Within<S(==)>(calls: seq<Call<S>>, q: set<S>) {
    forall i :: 0 <= i < |calls| ==> calls[i].state in q && calls[i].target in q
  }

  /** No call's key is in `t` yet. */
  predicate NewKeys<S(==)>(calls: seq<Call<S>>, t: Table<S>) {
    forall i :: 0 <= i < |calls| ==> CallKey(calls[i]) !in t
  }

  /** The input symbols the calls add to the input alphabet. */
  function CallSymbols<S>(calls: seq<Call<S>>): set<char> {
    set i | 0 <= i < |calls| :: calls[i].symbol
  }

  /** The stack tops and pushed characters the calls add to the stack alphabet. */
  function CallStackSymbols<S>(calls: seq<Call<S>>): set<char> {
    set i, x | 0 <= i < |calls| && x in {calls[i].top} + Chars(calls[i].push) :: x
  }

  /** With distinct keys, every call's move is in the table it builds. */
  lemma {:induction false} AppliedLookup<S>(t: Table<S>, calls: seq<Call<S>>, i: nat)
    requires DistinctKeys(calls) && i < |calls|
    ensures CallKey(calls[i]) in Applied(t, calls) && Applied(t, calls)[CallKey(calls[i])] == CallMove(calls[i])
    decreases |calls|
  {
    var n := |calls| - 1;
    if i < n {
      var init := calls[..n];
      assert DistinctKeys(init) by {
        forall j, k | 0 <= j < k < |init| ensures CallKey(init[j]) != CallKey(init[k]) {
          assert init[j] == calls[j] && init[k] == calls[k];
        }
      }
      assert init[i] == calls[i];
      AppliedLookup(t, init, i);
      assert CallKey(calls[i]) != CallKey(calls[n]);
    }
  }

  /** Makes the calls on `a` in order; each one's key and its ε key are free
      when it is made, so every call succeeds. */
  method AddCalls<S(==)>(a: Dpda<S>, calls: seq<Call<S>>)
    requires a.Valid() && EpsFree(a.transitions) && DistinctKeys(calls)
    requires Within(calls, a.states) && NewKeys(calls, a.transitions)
    modifies a
    ensures a.Valid() && EpsFree(a.transitions)
    ensures a.transitions == Applied(old(a.transitions), calls)
    ensures a.inputAlphabet == old(a.inputAlphabet) + CallSymbols(calls)
    ensures a.stackAlphabet == old(a.stackAlphabet) + CallStackSymbols(calls)
    ensures a.states == old(a.states) && a.finals == old(a.finals) && a.initial == old(a.initial)
    ensures a.initialStackSymbol == old(a.initialStackSymbol)
  {
    for i := 0 to |calls|
      invariant a.Valid() && EpsFree(a.transitions)
      invariant a.transitions == Applied(old(a.transitions), calls[..i])
      invariant a.inputAlphabet == old(a.inputAlphabet) + CallSymbols(calls[..i])
      invariant a.stackAlphabet == old(a.stackAlphabet) + CallStackSymbols(calls[..i])
      invariant a.states == old(a.states) && a.finals == old(a.finals) && a.initial == old(a.initial)
      invariant a.initialStackSymbol == old(a.initialStackSymbol)
      invariant forall j :: i <= j < |calls| ==> CallKey(calls[j]) !in a.transitions
    {
      var c := calls[i];
      assert calls[..i + 1][..i] == calls[..i];
      assert Key(c.state, None, c.top) !in a.transitions;
      var o := a.AddTransition(c.state, c.target, Some(c.symbol), c.top, c.push);
      assert o.Ok?;
      CallSymbolsSnoc(calls, i);
      forall j | i + 1 <= j < |calls| ensures CallKey(calls[j]) !in a.transitions {
        assert CallKey(calls[j]) != CallKey(c);
      }
    }
    assert calls[..|calls|] == calls;
  }

  /** The alphabets the first i + 1 calls add: those of the first i, and the i-th's. */
  lemma CallSymbolsSnoc<S>(calls: seq<Call<S>>, i: nat)
    requires i < |calls|
    ensures CallSymbols(calls[..i + 1]) == CallSymbols(calls[..i]) + {calls[i].symbol}
    ensures CallStackSymbols(calls[..i + 1]) == CallStackSymbols(calls[..i]) + {calls[i].top} + Chars(calls[i].push)
  {
    var s, s1 := calls[..i], calls[..i + 1];
    assert s1[i] == calls[i];
    assert forall j :: 0 <= j < i ==> s1[j] == s[j];
    forall x | x in CallStackSymbols(s1) ensures x in CallStackSymbols(s) + {calls[i].top} + Chars(calls[i].push) {
      var j :| 0 <= j < |s1| && x in {s1[j].top} + Chars(s1[j].push);
      if j < i {
        assert x in {s[j].top} + Chars(s[j].push);
      }
    }
    forall x | x in {calls[i].top} + Chars(calls[i].push) ensures x in CallStackSymbols(s1) {
      assert x in {s1[i].top} + Chars(s1[i].push);
    }
    forall x | x in CallStackSymbols(s) ensures x in CallStackSymbols(s1) {
      var j :| 0 <= j < |s| && x in {s[j].top} + Chars(s[j].push);
      assert x in {s1[j].top} + Chars(s1[j].push);
    }
  }

  /** A word over the scripts' input alphabet { a, b }. */
  predicate OverAB(w: string) {
    forall i :: 0 <= i < |w| ==> w[i] == 'a' || w[i] == 'b'
  }

  /** `C = P.crear_automata_complemento()` on a P with an initial state: C
      follows P marker by marker, starts in P's initial state with its mark,
      and has three times P's states. */
  method BuildComplement<S(==, !new)>(p: Dpda<S>) returns (c: Dpda<(S, nat)>)
    requires p.Valid() && p.initial.Some?
    ensures Follows(c.transitions, p.transitions, p.finals, p.states, p.stackAlphabet)
    ensures c.finals == ComplementFinals(p.states)
    ensures c.initial == Some((p.initial.value, Mark(p.initial.value, p.finals)))
    ensures c.initialStackSymbol == p.initialStackSymbol && c.Size() == 3 * p.Size()
  {
    var built := Complement.Complement(p);
    c := built.value;
    ComplementFollows(c.transitions, p.transitions, p.finals, p.states, p.stackAlphabet);
  }
}
