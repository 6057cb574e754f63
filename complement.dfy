/**
 * The complement construction of Theorem 2.23 of Aho and Ullman, "The
 * Theory of Parsing, Translation, and Compiling", Volume 1: the automaton C
 * runs P with a marker 0, 1 or 2 beside every state.
 *
 *   0 — since the last symbol read, P has not been in a final state;
 *   1 — since the last symbol read, P has been in a final state;
 *   2 — P will not accept, so C does (the only final states of C).
 *
 * C is filled through the builder in three passes over P: rule (i) copies
 * the symbol transitions to markers 1 and 2, rule (ii) copies the ε
 * transitions to markers 1 and 0, and rule (iii) sends marker 0 to marker
 * 2 on every (state, stack symbol) pair that has no ε transition in P.
 */
module Complement {
  import opened Table
  import opened Engine
  import opened Automaton

  /** Every state of P with each of the three markers. */
  function ComplementStates<S(==)>(q: set<S>): set<(S, nat)> {
    set x, i: nat | x in q && i < 3 :: (x, i)
  }

  /** The final states of C: every state of P with marker 2. */
  function ComplementFinals<S(==)>(q: set<S>): set<(S, nat)> {
    set x | x in q :: (x, 2)
  }

  /** The marker on entering `p` by a symbol read: 1 when `p` is final. */
  function Mark<S(==)>(p: S, finals: set<S>): nat {
    if p in finals then 1 else 0
  }

  /** The transition of P a key of C copies: same state, symbol and top. */
  function Origin<S>(k: Key<(S, nat)>): Key<S> {
    Key(k.source.0, k.symbol, k.top)
  }

  /** Rule (i), for the keys of P in `done`: a symbol transition of P from
      `q` is copied to `(q, 1)` and `(q, 2)`, the target marked by `Mark`. */
  function SymbolRule<S(==)>(t: Table<S>, finals: set<S>, done: set<Key<S>>, k: Key<(S, nat)>): Option<Move<(S, nat)>> {
    var pk := Origin(k);
    if k.symbol.Some? && (k.source.1 == 1 || k.source.1 == 2) && pk in done && pk in t then
      Some(Move((t[pk].target, Mark(t[pk].target, finals)), t[pk].push))
    else None
  }

  /** Rule (ii), for the keys of P in `done`: an ε transition of P from `q`
      goes from `(q, 1)` to marker 1 and from `(q, 0)` to the target's mark. */
  function LambdaRule<S(==)>(t: Table<S>, finals: set<S>, done: set<Key<S>>, k: Key<(S, nat)>): Option<Move<(S, nat)>> {
    var pk := Origin(k);
    if k.symbol.None? && (k.source.1 == 0 || k.source.1 == 1) && pk in done && pk in t then
      Some(Move((t[pk].target, if k.source.1 == 1 then 1 else Mark(t[pk].target, finals)), t[pk].push))
    else None
  }

  /** Rule (iii), for the (state, stack symbol) pairs in `done`: without an
      ε transition of P, `(q, 0)` moves by ε to `(q, 2)`, keeping the top. */
  function ResetRule<S(==)>(t: Table<S>, done: set<(S, char)>, k: Key<(S, nat)>): Option<Move<(S, nat)>> {
    if k.symbol.None? && k.source.1 == 0 && (k.source.0, k.top) in done && Origin(k) !in t then
      Some(Move((k.source.0, 2), [k.top]))
    else None
  }

  /** The entry of C under key `k` once the three rules have covered `d1`,
      `d2` and `d3`; the rules never produce the same key. */
  function Entry<S(==)>(t: Table<S>, finals: set<S>, d1: set<Key<S>>, d2: set<Key<S>>, d3: set<(S, char)>, k: Key<(S, nat)>): Option<Move<(S, nat)>> {
    if SymbolRule(t, finals, d1, k).Some? then SymbolRule(t, finals, d1, k)
    else if LambdaRule(t, finals, d2, k).Some? then LambdaRule(t, finals, d2, k)
    else ResetRule(t, d3, k)
  }

  /** Every entry of `r` is one the rules produce. */
  ghost predicate EntriesFollow<S>(r: Table<(S, nat)>, t: Table<S>, finals: set<S>, d1: set<Key<S>>, d2: set<Key<S>>, d3: set<(S, char)>) {
    forall k :: k in r ==> Entry(t, finals, d1, d2, d3, k) == Some(r[k])
  }

  /** Rule (i) produced its keys for the transitions in `d1`. */
  ghost predicate SymbolsCopied<S>(r: Table<(S, nat)>, t: Table<S>, d1: set<Key<S>>) {
    forall pk :: pk in d1 && pk in t && pk.symbol.Some? ==> At(pk, 1, pk.symbol) in r && At(pk, 2, pk.symbol) in r
  }

  /** Rule (ii) produced its keys for the transitions in `d2`. */
  ghost predicate LambdasCopied<S>(r: Table<(S, nat)>, t: Table<S>, d2: set<Key<S>>) {
    forall pk :: pk in d2 && pk in t && pk.symbol.None? ==> At(pk, 1, None) in r && At(pk, 0, None) in r
  }

  /** Rule (iii) produced its keys for the pairs in `d3`. */
  ghost predicate ResetsAdded<S>(r: Table<(S, nat)>, t: Table<S>, d3: set<(S, char)>) {
    forall e :: e in d3 && Key(e.0, None, e.1) !in t ==> Key((e.0, 0), None, e.1) in r
  }

  /** `r` holds exactly the entries the rules produce: every entry of `r`
      is one of them, and each rule produced its keys. */
  ghost predicate TableIs<S>(r: Table<(S, nat)>, t: Table<S>, finals: set<S>, d1: set<Key<S>>, d2: set<Key<S>>, d3: set<(S, char)>) {
    EntriesFollow(r, t, finals, d1, d2, d3) && SymbolsCopied(r, t, d1) && LambdasCopied(r, t, d2) && ResetsAdded(r, t, d3)
  }

  function Pairs<S(==)>(q: set<S>, gamma: set<char>): set<(S, char)> {
    set x, c | x in q && c in gamma :: (x, c)
  }

  /** The transition table of C, for P with table `t`, final states
      `finals`, states `q` and stack alphabet `gamma`. */
  ghost predicate IsComplementTable<S>(r: Table<(S, nat)>, t: Table<S>, finals: set<S>, q: set<S>, gamma: set<char>) {
    TableIs(r, t, finals, t.Keys, t.Keys, Pairs(q, gamma))
  }

  // ---------------------------------------------------------------------
  // Building C

  /** Adds `(q, 0)`, `(q, 1)` and `(q, 2)` for every state `q`, only the last final. */
  method AddIndexedStates<S(==)>(c: Dpda<(S, nat)>, q: set<S>)
    requires c.Valid() && c.states == {} && c.finals == {}
    modifies c
    ensures c.states == ComplementStates(q) && c.finals == ComplementFinals(q)
    ensures c.initial == old(c.initial) && c.transitions == old(c.transitions)
    ensures c.inputAlphabet == old(c.inputAlphabet) && c.stackAlphabet == old(c.stackAlphabet)
    ensures c.initialStackSymbol == old(c.initialStackSymbol)
    ensures c.Valid()
  {
    var rest := q;
    while rest != {}
      invariant rest <= q
      invariant c.states == ComplementStates(q - rest) && c.finals == ComplementFinals(q - rest)
      invariant c.initial == old(c.initial) && c.transitions == old(c.transitions)
      invariant c.inputAlphabet == old(c.inputAlphabet) && c.stackAlphabet == old(c.stackAlphabet)
      invariant c.initialStackSymbol == old(c.initialStackSymbol)
      invariant c.Valid()
      decreases rest
    {
      var x :| x in rest;
      IndexedStatesStep(q - rest, x);
      var o0 := c.AddState((x, 0), false);
      assert o0.Ok?;
      var o1 := c.AddState((x, 1), false);
      assert o1.Ok?;
      var o2 := c.AddState((x, 2), true);
      assert o2.Ok?;
      Visit(q, rest, x);
      rest := rest - {x};
    }
    assert q - rest == q;
  }

  lemma IndexedStatesStep<S>(done: set<S>, x: S)
    requires x !in done
    ensures ComplementStates(done + {x}) == ComplementStates(done) + {(x, 0), (x, 1), (x, 2)}
    ensures ComplementFinals(done + {x}) == ComplementFinals(done) + {(x, 2)}
    ensures (x, 0) !in ComplementStates(done) && (x, 1) !in ComplementStates(done) && (x, 2) !in ComplementStates(done)
  {
    forall y | y in ComplementStates(done + {x})
      ensures y in ComplementStates(done) + {(x, 0), (x, 1), (x, 2)}
    {
      if y.0 != x {
        assert y.0 in done && y.1 < 3;
      }
    }
    forall y | y in ComplementStates(done) + {(x, 0), (x, 1), (x, 2)}
      ensures y in ComplementStates(done + {x})
    {
      assert y.0 in done + {x} && y.1 < 3;
    }
  }

  /** The key of C that copies `pk` from marker `j` with input `symbol`. */
  function At<S>(pk: Key<S>, j: nat, symbol: Option<char>): Key<(S, nat)> {
    Key((pk.source, j), symbol, pk.top)
  }

  /** Rule (i): one pass over the transitions of P, skipping the ε ones. */
  method AddSymbolRules<S(==)>(c: Dpda<(S, nat)>, t: Table<S>, finals: set<S>, q: set<S>)
    requires c.Valid() && c.states == ComplementStates(q) && c.transitions == map[]
    requires EndpointsIn(t, q) && SymbolsIn(t, c.inputAlphabet) && StackSymbolsIn(t, c.stackAlphabet)
    modifies c
    ensures TableIs(c.transitions, t, finals, t.Keys, {}, {})
    ensures c.states == old(c.states) && c.initial == old(c.initial) && c.finals == old(c.finals)
    ensures c.inputAlphabet == old(c.inputAlphabet) && c.stackAlphabet == old(c.stackAlphabet)
    ensures c.initialStackSymbol == old(c.initialStackSymbol)
    ensures c.Valid()
  {
    var rest := t.Keys;
    while rest != {}
      invariant rest <= t.Keys
      invariant TableIs(c.transitions, t, finals, t.Keys - rest, {}, {})
      invariant c.states == old(c.states) && c.initial == old(c.initial) && c.finals == old(c.finals)
      invariant c.inputAlphabet == old(c.inputAlphabet) && c.stackAlphabet == old(c.stackAlphabet)
      invariant c.initialStackSymbol == old(c.initialStackSymbol)
      invariant c.Valid()
      decreases rest
    {
      var pk :| pk in rest;
      ghost var done := t.Keys - rest;
      if pk.symbol.Some? {
        CopySymbolTransition(c, t, finals, q, done, pk);
      } else {
        SymbolRuleSkip(c.transitions, t, finals, done, pk);
      }
      Visit(t.Keys, rest, pk);
      rest := rest - {pk};
    }
    assert t.Keys - rest == t.Keys;
  }

  /** Rule (i) for one symbol transition `pk` of P. */
  method CopySymbolTransition<S(==)>(c: Dpda<(S, nat)>, t: Table<S>, finals: set<S>, q: set<S>, ghost done: set<Key<S>>, pk: Key<S>)
    requires c.Valid() && c.states == ComplementStates(q) && TableIs(c.transitions, t, finals, done, {}, {})
    requires EndpointsIn(t, q) && SymbolsIn(t, c.inputAlphabet) && StackSymbolsIn(t, c.stackAlphabet)
    requires pk in t && pk !in done && pk.symbol.Some?
    modifies c
    ensures TableIs(c.transitions, t, finals, done + {pk}, {}, {})
    ensures c.states == old(c.states) && c.initial == old(c.initial) && c.finals == old(c.finals)
    ensures c.inputAlphabet == old(c.inputAlphabet) && c.stackAlphabet == old(c.stackAlphabet)
    ensures c.initialStackSymbol == old(c.initialStackSymbol)
    ensures c.Valid()
  {
    var m := t[pk];
    var i := Mark(m.target, finals);
    assert Chars(m.push) <= c.stackAlphabet && pk.top in c.stackAlphabet && pk.symbol.value in c.inputAlphabet;
    assert (pk.source, 1) in c.states && (pk.source, 2) in c.states && (m.target, i) in c.states;
    SymbolRuleStep(c.transitions, t, finals, done, pk);
    ghost var r2 := c.transitions[At(pk, 1, pk.symbol) := Move((m.target, i), m.push)][At(pk, 2, pk.symbol) := Move((m.target, i), m.push)];
    var o1 := c.AddTransition((pk.source, 1), (m.target, i), pk.symbol, pk.top, m.push);
    assert o1.Ok?;
    var o2 := c.AddTransition((pk.source, 2), (m.target, i), pk.symbol, pk.top, m.push);
    assert o2.Ok?;
    assert c.transitions == r2;
  }

  /** Rule (ii): a second pass over the transitions of P, skipping the symbol ones. */
  method AddLambdaRules<S(==)>(c: Dpda<(S, nat)>, t: Table<S>, finals: set<S>, q: set<S>)
    requires c.Valid() && c.states == ComplementStates(q) && TableIs(c.transitions, t, finals, t.Keys, {}, {})
    requires EndpointsIn(t, q) && StackSymbolsIn(t, c.stackAlphabet) && NoConflict(t)
    modifies c
    ensures TableIs(c.transitions, t, finals, t.Keys, t.Keys, {})
    ensures c.states == old(c.states) && c.initial == old(c.initial) && c.finals == old(c.finals)
    ensures c.inputAlphabet == old(c.inputAlphabet) && c.stackAlphabet == old(c.stackAlphabet)
    ensures c.initialStackSymbol == old(c.initialStackSymbol)
    ensures c.Valid()
  {
    var rest := t.Keys;
    ghost var done: set<Key<S>> := {};
    while rest != {}
      invariant rest <= t.Keys && done == t.Keys - rest
      invariant TableIs(c.transitions, t, finals, t.Keys, done, {})
      invariant c.states == old(c.states) && c.initial == old(c.initial) && c.finals == old(c.finals)
      invariant c.inputAlphabet == old(c.inputAlphabet) && c.stackAlphabet == old(c.stackAlphabet)
      invariant c.initialStackSymbol == old(c.initialStackSymbol)
      invariant c.Valid()
      decreases rest
    {
      var pk :| pk in rest;
      if pk.symbol.None? {
        CopyLambdaTransition(c, t, finals, q, done, pk);
      } else {
        LambdaRuleSkip(c.transitions, t, finals, done, pk);
      }
      Visit(t.Keys, rest, pk);
      done := done + {pk};
      rest := rest - {pk};
    }
    assert t.Keys - rest == t.Keys;
  }

  /** Rule (ii) for one ε transition `pk` of P. */
  method CopyLambdaTransition<S(==)>(c: Dpda<(S, nat)>, t: Table<S>, finals: set<S>, q: set<S>, ghost done: set<Key<S>>, pk: Key<S>)
    requires c.Valid() && c.states == ComplementStates(q) && TableIs(c.transitions, t, finals, t.Keys, done, {})
    requires EndpointsIn(t, q) && StackSymbolsIn(t, c.stackAlphabet) && NoConflict(t)
    requires pk in t && pk !in done && pk.symbol.None?
    modifies c
    ensures TableIs(c.transitions, t, finals, t.Keys, done + {pk}, {})
    ensures c.states == old(c.states) && c.initial == old(c.initial) && c.finals == old(c.finals)
    ensures c.inputAlphabet == old(c.inputAlphabet) && c.stackAlphabet == old(c.stackAlphabet)
    ensures c.initialStackSymbol == old(c.initialStackSymbol)
    ensures c.Valid()
  {
    var m := t[pk];
    var i := Mark(m.target, finals);
    assert Chars(m.push) <= c.stackAlphabet && pk.top in c.stackAlphabet;
    assert (pk.source, 0) in c.states && (pk.source, 1) in c.states && (m.target, 1) in c.states && (m.target, i) in c.states;
    LambdaRuleStep(c.transitions, t, finals, done, pk);
    ghost var r2 := c.transitions[At(pk, 1, None) := Move((m.target, 1), m.push)][At(pk, 0, None) := Move((m.target, i), m.push)];
    var o1 := c.AddTransition((pk.source, 1), (m.target, 1), None, pk.top, m.push);
    assert o1.Ok?;
    var o2 := c.AddTransition((pk.source, 0), (m.target, i), None, pk.top, m.push);
    assert o2.Ok?;
    assert c.transitions == r2;
  }

  /** Rule (iii) for state `x` and stack symbol `top`, which have no ε transition in P. */
  method AddReset<S(==)>(c: Dpda<(S, nat)>, t: Table<S>, finals: set<S>, q: set<S>, ghost done: set<(S, char)>, x: S, top: char)
    requires c.Valid() && c.states == ComplementStates(q) && TableIs(c.transitions, t, finals, t.Keys, t.Keys, done)
    requires x in q && top in c.stackAlphabet && (x, top) !in done && Key(x, None, top) !in t
    modifies c
    ensures TableIs(c.transitions, t, finals, t.Keys, t.Keys, done + {(x, top)})
    ensures c.states == old(c.states) && c.initial == old(c.initial) && c.finals == old(c.finals)
    ensures c.inputAlphabet == old(c.inputAlphabet) && c.stackAlphabet == old(c.stackAlphabet)
    ensures c.initialStackSymbol == old(c.initialStackSymbol)
    ensures c.Valid()
  {
    assert (x, 0) in c.states && (x, 2) in c.states;
    assert Chars([top]) == {top};
    ResetRuleStep(c.transitions, t, finals, done, x, top);
    var o := c.AddTransition((x, 0), (x, 2), None, top, [top]);
    assert o.Ok?;
  }

  /** Rule (iii): for every state and every stack symbol of P without an ε
      transition, marker 0 moves by ε to marker 2. */
  method AddResetRules<S(==)>(c: Dpda<(S, nat)>, t: Table<S>, finals: set<S>, q: set<S>, gamma: set<char>)
    requires c.Valid() && c.states == ComplementStates(q) && TableIs(c.transitions, t, finals, t.Keys, t.Keys, {})
    requires gamma <= c.stackAlphabet
    modifies c
    ensures TableIs(c.transitions, t, finals, t.Keys, t.Keys, Pairs(q, gamma))
    ensures c.states == old(c.states) && c.initial == old(c.initial) && c.finals == old(c.finals)
    ensures c.inputAlphabet == old(c.inputAlphabet) && c.stackAlphabet == old(c.stackAlphabet)
    ensures c.initialStackSymbol == old(c.initialStackSymbol)
    ensures c.Valid()
  {
    var rest := q;
    ghost var done: set<(S, char)> := {};
    while rest != {}
      invariant rest <= q && done == Pairs(q - rest, gamma)
      invariant TableIs(c.transitions, t, finals, t.Keys, t.Keys, done)
      invariant c.states == old(c.states) && c.initial == old(c.initial) && c.finals == old(c.finals)
      invariant c.inputAlphabet == old(c.inputAlphabet) && c.stackAlphabet == old(c.stackAlphabet)
      invariant c.initialStackSymbol == old(c.initialStackSymbol)
      invariant c.Valid()
      decreases rest
    {
      var x :| x in rest;
      PairsOther(q - rest, gamma, x);
      done := AddResetRow(c, t, finals, q, gamma, done, x);
      PairsStep(q - rest, gamma, x);
      Visit(q, rest, x);
      rest := rest - {x};
    }
    assert q - rest == q;
  }

  /** Rule (iii) for state `x` and every stack symbol of `gamma`. */
  method AddResetRow<S(==)>(c: Dpda<(S, nat)>, t: Table<S>, finals: set<S>, q: set<S>, gamma: set<char>, ghost done0: set<(S, char)>, x: S)
    returns (ghost done: set<(S, char)>)
    requires c.Valid() && c.states == ComplementStates(q) && TableIs(c.transitions, t, finals, t.Keys, t.Keys, done0)
    requires gamma <= c.stackAlphabet && x in q && forall e :: e in done0 ==> e.0 != x
    modifies c
    ensures done == done0 + Row(x, gamma)
    ensures TableIs(c.transitions, t, finals, t.Keys, t.Keys, done)
    ensures c.states == old(c.states) && c.initial == old(c.initial) && c.finals == old(c.finals)
    ensures c.inputAlphabet == old(c.inputAlphabet) && c.stackAlphabet == old(c.stackAlphabet)
    ensures c.initialStackSymbol == old(c.initialStackSymbol)
    ensures c.Valid()
  {
    done := done0;
    var symbols := gamma;
    while symbols != {}
      invariant symbols <= gamma
      invariant done == done0 + Row(x, gamma - symbols)
      invariant TableIs(c.transitions, t, finals, t.Keys, t.Keys, done)
      invariant c.states == old(c.states) && c.initial == old(c.initial) && c.finals == old(c.finals)
      invariant c.inputAlphabet == old(c.inputAlphabet) && c.stackAlphabet == old(c.stackAlphabet)
      invariant c.initialStackSymbol == old(c.initialStackSymbol)
      invariant c.Valid()
      decreases symbols
    {
      var top :| top in symbols;
      assert (x, top) !in done;
      if Key(x, None, top) !in t {
        AddReset(c, t, finals, q, done, x, top);
      } else {
        ResetRuleSkip(c.transitions, t, finals, done, x, top);
      }
      done := done + {(x, top)};
      RowStep(x, gamma - symbols, top);
      Visit(gamma, symbols, top);
      symbols := symbols - {top};
    }
    assert gamma - symbols == gamma;
  }

  /** The pairs of one state with the stack symbols in `g`. */
  function Row<S(==)>(x: S, g: set<char>): set<(S, char)> {
    set c | c in g :: (x, c)
  }

  lemma RowStep<S>(x: S, g: set<char>, c: char)
    ensures Row(x, g + {c}) == Row(x, g) + {(x, c)}
  {
  }

  lemma PairsStep<S>(done: set<S>, gamma: set<char>, x: S)
    ensures Pairs(done + {x}, gamma) == Pairs(done, gamma) + Row(x, gamma)
  {
    forall y | y in Pairs(done + {x}, gamma) ensures y in Pairs(done, gamma) + Row(x, gamma) {
      if y.0 != x {
        assert y.0 in done && y.1 in gamma;
      }
    }
  }

  lemma PairsOther<S>(done: set<S>, gamma: set<char>, x: S)
    requires x !in done
    ensures forall e :: e in Pairs(done, gamma) ==> e.0 != x
  {
  }

  // ---------------------------------------------------------------------
  // One rule application at a time

  lemma SymbolRuleStep<S>(r: Table<(S, nat)>, t: Table<S>, finals: set<S>, done: set<Key<S>>, pk: Key<S>)
    requires TableIs(r, t, finals, done, {}, {}) && pk in t && pk !in done && pk.symbol.Some?
    ensures At(pk, 1, pk.symbol) !in r && At(pk, 2, pk.symbol) !in r
    ensures At(pk, 1, None) !in r && At(pk, 2, None) !in r
    ensures TableIs(r[At(pk, 1, pk.symbol) := Move((t[pk].target, Mark(t[pk].target, finals)), t[pk].push)]
                     [At(pk, 2, pk.symbol) := Move((t[pk].target, Mark(t[pk].target, finals)), t[pk].push)],
                    t, finals, done + {pk}, {}, {})
  {
    var k1, k2 := At(pk, 1, pk.symbol), At(pk, 2, pk.symbol);
    var m := Move((t[pk].target, Mark(t[pk].target, finals)), t[pk].push);
    var r2 := r[k1 := m][k2 := m];
    var d1 := done + {pk};
    assert Entry(t, finals, done, {}, {}, k1).None?;
    assert Entry(t, finals, done, {}, {}, k2).None?;
    assert Entry(t, finals, done, {}, {}, At(pk, 1, None)).None?;
    assert Entry(t, finals, done, {}, {}, At(pk, 2, None)).None?;
    forall k | k in r2 ensures Entry(t, finals, d1, {}, {}, k) == Some(r2[k]) {
      if k != k1 && k != k2 {
        assert Entry(t, finals, done, {}, {}, k) == Some(r[k]);
        assert SymbolRule(t, finals, d1, k) == SymbolRule(t, finals, done, k);
      }
    }
    forall e | e in d1 && e in t && e.symbol.Some? ensures At(e, 1, e.symbol) in r2 && At(e, 2, e.symbol) in r2 {
      if e != pk {
        assert At(e, 1, e.symbol) in r && At(e, 2, e.symbol) in r;
      }
    }
  }

  lemma SymbolRuleSkip<S>(r: Table<(S, nat)>, t: Table<S>, finals: set<S>, done: set<Key<S>>, pk: Key<S>)
    requires TableIs(r, t, finals, done, {}, {}) && pk.symbol.None?
    ensures TableIs(r, t, finals, done + {pk}, {}, {})
  {
    forall k ensures Entry(t, finals, done, {}, {}, k) == Entry(t, finals, done + {pk}, {}, {}, k) {
    }
  }

  lemma LambdaRuleStep<S>(r: Table<(S, nat)>, t: Table<S>, finals: set<S>, done: set<Key<S>>, pk: Key<S>)
    requires TableIs(r, t, finals, t.Keys, done, {}) && NoConflict(t)
    requires pk in t && pk !in done && pk.symbol.None?
    ensures At(pk, 1, None) !in r && At(pk, 0, None) !in r
    ensures forall a :: At(pk, 1, Some(a)) !in r && At(pk, 0, Some(a)) !in r
    ensures TableIs(r[At(pk, 1, None) := Move((t[pk].target, 1), t[pk].push)]
                     [At(pk, 0, None) := Move((t[pk].target, Mark(t[pk].target, finals)), t[pk].push)],
                    t, finals, t.Keys, done + {pk}, {})
  {
    var k1, k0 := At(pk, 1, None), At(pk, 0, None);
    var r2 := r[k1 := Move((t[pk].target, 1), t[pk].push)][k0 := Move((t[pk].target, Mark(t[pk].target, finals)), t[pk].push)];
    var d2 := done + {pk};
    assert Entry(t, finals, t.Keys, done, {}, k1).None?;
    assert Entry(t, finals, t.Keys, done, {}, k0).None?;
    forall a ensures At(pk, 1, Some(a)) !in r && At(pk, 0, Some(a)) !in r {
      assert Key(pk.source, Some(a), pk.top) !in t;
      assert Entry(t, finals, t.Keys, done, {}, At(pk, 1, Some(a))).None?;
      assert Entry(t, finals, t.Keys, done, {}, At(pk, 0, Some(a))).None?;
    }
    forall k | k in r2 ensures Entry(t, finals, t.Keys, d2, {}, k) == Some(r2[k]) {
      if k != k1 && k != k0 {
        assert Entry(t, finals, t.Keys, done, {}, k) == Some(r[k]);
        assert LambdaRule(t, finals, d2, k) == LambdaRule(t, finals, done, k);
      }
    }
    forall e | e in t.Keys && e in t && e.symbol.Some? ensures At(e, 1, e.symbol) in r2 && At(e, 2, e.symbol) in r2 {
      assert At(e, 1, e.symbol) in r && At(e, 2, e.symbol) in r;
    }
    forall e | e in d2 && e in t && e.symbol.None? ensures At(e, 1, None) in r2 && At(e, 0, None) in r2 {
      if e != pk {
        assert At(e, 1, None) in r && At(e, 0, None) in r;
      }
    }
  }

  lemma LambdaRuleSkip<S>(r: Table<(S, nat)>, t: Table<S>, finals: set<S>, done: set<Key<S>>, pk: Key<S>)
    requires TableIs(r, t, finals, t.Keys, done, {}) && pk.symbol.Some?
    ensures TableIs(r, t, finals, t.Keys, done + {pk}, {})
  {
    forall k ensures Entry(t, finals, t.Keys, done, {}, k) == Entry(t, finals, t.Keys, done + {pk}, {}, k) {
    }
  }

  lemma ResetRuleStep<S>(r: Table<(S, nat)>, t: Table<S>, finals: set<S>, done: set<(S, char)>, x: S, top: char)
    requires TableIs(r, t, finals, t.Keys, t.Keys, done) && (x, top) !in done && Key(x, None, top) !in t
    ensures Key((x, 0), None, top) !in r
    ensures forall a :: Key((x, 0), Some(a), top) !in r
    ensures TableIs(r[Key((x, 0), None, top) := Move((x, 2), [top])], t, finals, t.Keys, t.Keys, done + {(x, top)})
  {
    var k := Key((x, 0), None, top);
    var r2 := r[k := Move((x, 2), [top])];
    assert Entry(t, finals, t.Keys, t.Keys, done, k).None?;
    forall a ensures Key((x, 0), Some(a), top) !in r {
      assert Entry(t, finals, t.Keys, t.Keys, done, Key((x, 0), Some(a), top)).None?;
    }
    ResetEntries(r, t, finals, done, x, top);
    CopiesGrow(r, r2, t, t.Keys, t.Keys, done);
  }

  lemma ResetEntries<S>(r: Table<(S, nat)>, t: Table<S>, finals: set<S>, done: set<(S, char)>, x: S, top: char)
    requires EntriesFollow(r, t, finals, t.Keys, t.Keys, done) && Key(x, None, top) !in t
    ensures EntriesFollow(r[Key((x, 0), None, top) := Move((x, 2), [top])], t, finals, t.Keys, t.Keys, done + {(x, top)})
  {
    var k := Key((x, 0), None, top);
    var r2 := r[k := Move((x, 2), [top])];
    var d3 := done + {(x, top)};
    forall k' | k' in r2 ensures Entry(t, finals, t.Keys, t.Keys, d3, k') == Some(r2[k']) {
      if k' != k {
        assert Entry(t, finals, t.Keys, t.Keys, done, k') == Some(r[k']);
        assert ResetRule(t, d3, k') == ResetRule(t, done, k');
      }
    }
  }

  /** Adding entries keeps the keys the rules produced. */
  lemma CopiesGrow<S>(r: Table<(S, nat)>, r2: Table<(S, nat)>, t: Table<S>, d1: set<Key<S>>, d2: set<Key<S>>, d3: set<(S, char)>)
    requires r.Keys <= r2.Keys
    requires SymbolsCopied(r, t, d1) && LambdasCopied(r, t, d2) && ResetsAdded(r, t, d3)
    ensures SymbolsCopied(r2, t, d1) && LambdasCopied(r2, t, d2) && ResetsAdded(r2, t, d3)
  {
  }

  lemma ResetRuleSkip<S>(r: Table<(S, nat)>, t: Table<S>, finals: set<S>, done: set<(S, char)>, x: S, top: char)
    requires TableIs(r, t, finals, t.Keys, t.Keys, done) && Key(x, None, top) in t
    ensures TableIs(r, t, finals, t.Keys, t.Keys, done + {(x, top)})
  {
    forall k ensures Entry(t, finals, t.Keys, t.Keys, done, k) == Entry(t, finals, t.Keys, t.Keys, done + {(x, top)}, k) {
    }
  }

  // ---------------------------------------------------------------------
  // The construction

  /** `crear_automata_complemento`: builds C through the builder. There is
      no result when P has no initial state, where marking `(None, 0)` as
      initial fails because it is not a state of C. */
  method Complement<S(==)>(p: Dpda<S>) returns (r: Option<Dpda<(S, nat)>>)
    requires p.Valid()
    ensures r.None? <==> p.initial.None?
    ensures r.Some? ==> fresh(r.value)
    ensures r.Some? ==> r.value.states == ComplementStates(p.states) && r.value.finals == ComplementFinals(p.states)
    ensures r.Some? ==> r.value.initial == Some((p.initial.value, Mark(p.initial.value, p.finals)))
    ensures r.Some? ==> r.value.inputAlphabet == p.inputAlphabet
    ensures r.Some? ==> r.value.stackAlphabet == p.stackAlphabet + {p.initialStackSymbol}
    ensures r.Some? ==> r.value.initialStackSymbol == p.initialStackSymbol
    ensures r.Some? ==> IsComplementTable(r.value.transitions, p.transitions, p.finals, p.states, p.stackAlphabet)
    ensures r.Some? ==> r.value.Valid() && r.value.IsDeterministic()
    ensures r.Some? ==> r.value.Size() == 3 * p.Size()
  {
    var c := new Dpda<(S, nat)>();
    AddIndexedStates(c, p.states);
    if p.initial.None? {
      return None;
    }
    var q0 := p.initial.value;
    var o := c.MarkInitialState((q0, if q0 in p.finals then 1 else 0));
    assert o.Ok?;
    c.inputAlphabet := p.inputAlphabet;
    c.stackAlphabet := p.stackAlphabet;
    c.SetInitialStackSymbol(p.initialStackSymbol);
    AddSymbolRules(c, p.transitions, p.finals, p.states);
    AddLambdaRules(c, p.transitions, p.finals, p.states);
    AddResetRules(c, p.transitions, p.finals, p.states, p.stackAlphabet);
    c.ValidIsDeterministic();
    ComplementCard(p.states);
    return Some(c);
  }

  // ---------------------------------------------------------------------
  // What the construction guarantees

  /** C has three states per state of P and one final state per state of P. */
  lemma {:induction false} ComplementCard<S>(q: set<S>)
    ensures |ComplementStates(q)| == 3 * |q| && |ComplementFinals(q)| == |q|
    decreases |q|
  {
    if q == {} {
      assert ComplementStates(q) == {};
      assert ComplementFinals(q) == {};
    } else {
      var x :| x in q;
      ComplementCard(q - {x});
      IndexedStatesStep(q - {x}, x);
      assert q - {x} + {x} == q;
      assert |{(x, 0), (x, 1), (x, 2)}| == 3;
      assert (x, 2) !in ComplementFinals(q - {x});
    }
  }

  /** A key the rules produce is in any table that satisfies the description. */
  lemma Covered<S>(r: Table<(S, nat)>, t: Table<S>, finals: set<S>, q: set<S>, gamma: set<char>, k: Key<(S, nat)>)
    requires IsComplementTable(r, t, finals, q, gamma)
    requires Entry(t, finals, t.Keys, t.Keys, Pairs(q, gamma), k).Some?
    ensures k in r
  {
    var pk := Origin(k);
    if SymbolRule(t, finals, t.Keys, k).Some? {
      assert k == At(pk, k.source.1, pk.symbol);
    } else if LambdaRule(t, finals, t.Keys, k).Some? {
      assert k == At(pk, k.source.1, None);
    } else {
      assert (k.source.0, k.top) in Pairs(q, gamma);
      assert k == Key((k.source.0, 0), None, k.top);
    }
  }

  /** The description determines the table of C completely. */
  lemma ComplementTableUnique<S>(r1: Table<(S, nat)>, r2: Table<(S, nat)>, t: Table<S>, finals: set<S>, q: set<S>, gamma: set<char>)
    requires IsComplementTable(r1, t, finals, q, gamma) && IsComplementTable(r2, t, finals, q, gamma)
    ensures r1 == r2
  {
    forall k | k in r1 ensures k in r2 {
      Covered(r2, t, finals, q, gamma, k);
    }
    forall k | k in r2 ensures k in r1 {
      Covered(r1, t, finals, q, gamma, k);
    }
  }

  /** The table of C has no ε/symbol conflict when the table of P has none:
      the three rules never trip the determinism checks. */
  lemma ComplementNoConflict<S>(r: Table<(S, nat)>, t: Table<S>, finals: set<S>, q: set<S>, gamma: set<char>)
    requires IsComplementTable(r, t, finals, q, gamma) && NoConflict(t)
    ensures NoConflict(r)
  {
    forall k | k in r && k.symbol.Some? ensures Key(k.source, None, k.top) !in r {
      var e := Key(k.source, None, k.top);
      assert SymbolRule(t, finals, t.Keys, k).Some?;
      assert Origin(k) in t && Key(k.source.0, None, k.top) !in t;
      assert Entry(t, finals, t.Keys, t.Keys, Pairs(q, gamma), e).None?;
    }
  }

  /** Rule (i) as a lookup: C reads a symbol from marker 1 or 2 exactly when
      P reads it, and enters the target with its mark. */
  lemma SymbolLookup<S>(r: Table<(S, nat)>, t: Table<S>, finals: set<S>, q: set<S>, gamma: set<char>, x: S, j: nat, a: char, top: char)
    requires IsComplementTable(r, t, finals, q, gamma)
    ensures Key((x, j), Some(a), top) in r <==> (j == 1 || j == 2) && Key(x, Some(a), top) in t
    ensures Key((x, j), Some(a), top) in r ==>
      r[Key((x, j), Some(a), top)] == Move((t[Key(x, Some(a), top)].target, Mark(t[Key(x, Some(a), top)].target, finals)), t[Key(x, Some(a), top)].push)
  {
    var k := Key((x, j), Some(a), top);
    if (j == 1 || j == 2) && Key(x, Some(a), top) in t {
      Covered(r, t, finals, q, gamma, k);
    }
  }

  /** Rules (ii) and (iii) as a lookup: C has an ε move from `(x, 1)` exactly
      when P has one from `x`; from `(x, 0)` it has one when P has one, and
      otherwise one to `(x, 2)` for every stack symbol; from `(x, 2)` none. */
  lemma LambdaLookup<S>(r: Table<(S, nat)>, t: Table<S>, finals: set<S>, q: set<S>, gamma: set<char>, x: S, j: nat, top: char)
    requires IsComplementTable(r, t, finals, q, gamma)
    ensures Key((x, j), None, top) in r <==>
      ((j == 0 || j == 1) && Key(x, None, top) in t) ||
      (j == 0 && x in q && top in gamma && Key(x, None, top) !in t)
    ensures Key((x, j), None, top) in r && Key(x, None, top) in t ==>
      r[Key((x, j), None, top)] == Move((t[Key(x, None, top)].target, if j == 1 then 1 else Mark(t[Key(x, None, top)].target, finals)), t[Key(x, None, top)].push)
    ensures Key((x, j), None, top) in r && Key(x, None, top) !in t ==>
      r[Key((x, j), None, top)] == Move((x, 2), [top])
  {
    var k := Key((x, j), None, top);
    if ((j == 0 || j == 1) && Key(x, None, top) in t) || (j == 0 && x in q && top in gamma && Key(x, None, top) !in t) {
      assert (x, top) in Pairs(q, gamma) || Key(x, None, top) in t;
      Covered(r, t, finals, q, gamma, k);
    }
  }

  // ---------------------------------------------------------------------
  // C runs P step by step

  /** The configuration of C that pairs a configuration of P with a marker. */
  function Marked<S>(c: Config<S>, i: nat): Config<(S, nat)> {
    Config((c.state, i), c.input, c.stack)
  }

  /** Whether the move from `c` to `d` read a symbol. */
  function Reads<S>(c: Config<S>, d: Config<S>): bool {
    |d.input| < |c.input|
  }

  lemma ReplaceSameTop(stack: seq<char>)
    requires stack != []
    ensures Replace(stack, [Top(stack)]) == stack
  {
    assert Reverse([Top(stack)]) == [Top(stack)];
  }

  /** From marker 1, C makes P's move; it keeps marker 1 on an ε move and
      takes the target's mark on a symbol read. */
  lemma StepFromMarkerOne<S>(r: Table<(S, nat)>, t: Table<S>, finals: set<S>, q: set<S>, gamma: set<char>, c: Config<S>)
    requires IsComplementTable(r, t, finals, q, gamma)
    ensures Step(t, c).None? ==> Step(r, Marked(c, 1)).None?
    ensures Step(t, c).Some? ==>
      Step(r, Marked(c, 1)) == Some(Marked(Step(t, c).value, if Reads(c, Step(t, c).value) then Mark(Step(t, c).value.state, finals) else 1))
  {
    if c.stack != [] {
      var top := Top(c.stack);
      if c.input != [] {
        SymbolLookup(r, t, finals, q, gamma, c.state, 1, c.input[0], top);
      }
      LambdaLookup(r, t, finals, q, gamma, c.state, 1, top);
    }
  }

  /** From marker 2, C follows P only on a symbol read; where P moves by ε
      or is stuck, C is stuck. */
  lemma StepFromMarkerTwo<S>(r: Table<(S, nat)>, t: Table<S>, finals: set<S>, q: set<S>, gamma: set<char>, c: Config<S>)
    requires IsComplementTable(r, t, finals, q, gamma)
    ensures Step(t, c).Some? && Reads(c, Step(t, c).value) ==>
      Step(r, Marked(c, 2)) == Some(Marked(Step(t, c).value, Mark(Step(t, c).value.state, finals)))
    ensures !(Step(t, c).Some? && Reads(c, Step(t, c).value)) ==> Step(r, Marked(c, 2)).None?
  {
    if c.stack != [] {
      var top := Top(c.stack);
      if c.input != [] {
        SymbolLookup(r, t, finals, q, gamma, c.state, 2, c.input[0], top);
      }
      LambdaLookup(r, t, finals, q, gamma, c.state, 2, top);
    }
  }

  /** From marker 0, C follows P's ε moves; where P reads a symbol or is
      stuck, C first moves by ε to marker 2 on a state and stack top of P. */
  lemma StepFromMarkerZero<S>(r: Table<(S, nat)>, t: Table<S>, finals: set<S>, q: set<S>, gamma: set<char>, c: Config<S>)
    requires IsComplementTable(r, t, finals, q, gamma) && NoConflict(t)
    ensures Step(t, c).Some? && !Reads(c, Step(t, c).value) ==>
      Step(r, Marked(c, 0)) == Some(Marked(Step(t, c).value, Mark(Step(t, c).value.state, finals)))
    ensures !(Step(t, c).Some? && !Reads(c, Step(t, c).value)) ==>
      Step(r, Marked(c, 0)) == if c.stack != [] && c.state in q && Top(c.stack) in gamma then Some(Marked(c, 2)) else None
  {
    if c.stack != [] {
      var top := Top(c.stack);
      if c.input != [] {
        SymbolLookup(r, t, finals, q, gamma, c.state, 0, c.input[0], top);
        if Key(c.state, Some(c.input[0]), top) in t {
          assert Key(c.state, None, top) !in t;
        }
      }
      LambdaLookup(r, t, finals, q, gamma, c.state, 0, top);
      ReplaceSameTop(c.stack);
    }
  }
}
