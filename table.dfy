/**
 * The transition table of a deterministic pushdown automaton, and the
 * relabelling of states inside it.
 *
 * A key is (state, input symbol or ε, stack top); ε is `None`. A value is
 * (next state, the string that replaces the stack top).
 */
module Table {

  datatype Option<T> = None | Some(value: T)

  /** Transition key: source state, input symbol (`None` is ε) and stack top. */
  datatype Key<S> = Key(source: S, symbol: Option<char>, top: char)

  /** Transition value: destination state and the string pushed in place of the top. */
  datatype Move<S> = Move(target: S, push: seq<char>)

  type Table<S(==)> = map<Key<S>, Move<S>>

  /** The characters of a string, as a set. */
  function Chars(s: seq<char>): set<char> {
    set c | c in s
  }

  /** The determinism invariant: no (state, stack top) pair carries both an
      ε-transition and a symbol transition. */
  predicate NoConflict<S(==)>(t: Table<S>) {
    forall k :: k in t && k.symbol.Some? ==> Key(k.source, None, k.top) !in t
  }

  /** Every endpoint of every transition lies in `q`. */
  predicate EndpointsIn<S(==)>(t: Table<S>, q: set<S>) {
    forall k :: k in t ==> k.source in q && t[k].target in q
  }

  /** Every input symbol of a symbol transition lies in `sigma`. */
  predicate SymbolsIn<S(==)>(t: Table<S>, sigma: set<char>) {
    forall k :: k in t && k.symbol.Some? ==> k.symbol.value in sigma
  }

  /** Every stack top and every pushed character lies in `gamma`. */
  predicate StackSymbolsIn<S(==)>(t: Table<S>, gamma: set<char>) {
    forall k :: k in t ==> k.top in gamma && Chars(t[k].push) <= gamma
  }

  // ---------------------------------------------------------------------
  // Renaming one state

  function Relabel<S(==)>(x: S, from: S, to: S): S {
    if x == from then to else x
  }

  function RelabelKey<S(==)>(k: Key<S>, from: S, to: S): Key<S> {
    Key(Relabel(k.source, from, to), k.symbol, k.top)
  }

  function RelabelMove<S(==)>(m: Move<S>, from: S, to: S): Move<S> {
    Move(Relabel(m.target, from, to), m.push)
  }

  /** `from` replaced by `to` in a set that may hold it. */
  function RenamedSet<S(==)>(x: set<S>, from: S, to: S): set<S> {
    if from in x then x - {from} + {to} else x
  }

  function RenamedOpt<S(==)>(o: Option<S>, from: S, to: S): Option<S> {
    if o == Some(from) then Some(to) else o
  }

  /** Relabelling the keys of `t` maps no two keys onto one. */
  predicate NoKeyClash<S(==)>(t: Table<S>, from: S, to: S) {
    from == to || forall k :: k in t && k.source == from ==> Key(to, k.symbol, k.top) !in t
  }

  lemma RelabelKeyInjective<S>(t: Table<S>, from: S, to: S, k1: Key<S>, k2: Key<S>)
    requires NoKeyClash(t, from, to) && k1 in t && k2 in t
    requires RelabelKey(k1, from, to) == RelabelKey(k2, from, to)
    ensures k1 == k2
  {
  }

  /** The table with `from` replaced by `to` in every key and every target. */
  function RenameTransitions<S(==)>(t: Table<S>, from: S, to: S): (r: Table<S>)
    requires NoKeyClash(t, from, to)
    ensures r.Keys == set k | k in t :: RelabelKey(k, from, to)
    ensures forall k :: k in t ==> RelabelKey(k, from, to) in r && r[RelabelKey(k, from, to)] == RelabelMove(t[k], from, to)
  {
    map k | k in t :: RelabelKey(k, from, to) := RelabelMove(t[k], from, to)
  }

  /** The keys of `t` outside `rest` have been relabelled into `built`, the
      last write winning when two relabel to the same key. */
  ghost predicate PartlyRelabelled<S>(t: Table<S>, rest: set<Key<S>>, built: Table<S>, from: S, to: S) {
    rest <= t.Keys &&
    (forall k :: k in t && k !in rest ==> RelabelKey(k, from, to) in built) &&
    (forall k :: k in built ==>
      exists k0 :: k0 in t && k0 !in rest && k == RelabelKey(k0, from, to) && built[k] == RelabelMove(t[k0], from, to))
  }

  lemma RelabelOne<S>(t: Table<S>, rest: set<Key<S>>, built: Table<S>, from: S, to: S, k0: Key<S>)
    requires PartlyRelabelled(t, rest, built, from, to) && k0 in rest
    ensures PartlyRelabelled(t, rest - {k0}, built[RelabelKey(k0, from, to) := RelabelMove(t[k0], from, to)], from, to)
  {
    var b2 := built[RelabelKey(k0, from, to) := RelabelMove(t[k0], from, to)];
    forall k | k in b2
      ensures exists k1 :: k1 in t && k1 !in rest - {k0} && k == RelabelKey(k1, from, to) && b2[k] == RelabelMove(t[k1], from, to)
    {
      if k != RelabelKey(k0, from, to) {
        var k1 :| k1 in t && k1 !in rest && k == RelabelKey(k1, from, to) && built[k] == RelabelMove(t[k1], from, to);
        assert k1 !in rest - {k0};
      } else {
        assert k0 !in rest - {k0};
      }
    }
  }

  /** A table holding a relabelled copy of every key of `t`, each mapped to the
      relabelled value of a key it comes from, has the relabelled keys; with
      no clash it is the renamed table. */
  lemma RebuiltTable<S>(t: Table<S>, built: Table<S>, from: S, to: S)
    requires PartlyRelabelled(t, {}, built, from, to)
    ensures built.Keys == set k | k in t :: RelabelKey(k, from, to)
    ensures forall k :: k in built ==>
      exists k0 :: k0 in t && k == RelabelKey(k0, from, to) && built[k] == RelabelMove(t[k0], from, to)
    ensures NoKeyClash(t, from, to) ==> built == RenameTransitions(t, from, to)
  {
    forall k | k in built
      ensures exists k0 :: k0 in t && k == RelabelKey(k0, from, to) && built[k] == RelabelMove(t[k0], from, to)
    {
      var k0 :| k0 in t && k0 !in {} && k == RelabelKey(k0, from, to) && built[k] == RelabelMove(t[k0], from, to);
    }
    if NoKeyClash(t, from, to) {
      forall k | k in built ensures built[k] == RenameTransitions(t, from, to)[k] {
        var k0 :| k0 in t && k == RelabelKey(k0, from, to) && built[k] == RelabelMove(t[k0], from, to);
      }
    }
  }

  /** A name that is not a state appears nowhere in a table whose endpoints are states. */
  lemma FreshNameNoClash<S>(t: Table<S>, q: set<S>, from: S, to: S)
    requires EndpointsIn(t, q) && to !in q
    ensures NoKeyClash(t, from, to)
  {
  }

  /** Renaming a state to an unused name keeps the endpoints among the
      renamed states, the alphabets and the determinism invariant. */
  lemma RenameKeepsInvariants<S>(t: Table<S>, q: set<S>, sigma: set<char>, gamma: set<char>, from: S, to: S)
    requires EndpointsIn(t, q) && (to == from || to !in q)
    requires SymbolsIn(t, sigma) && StackSymbolsIn(t, gamma) && NoConflict(t)
    ensures NoKeyClash(t, from, to)
    ensures EndpointsIn(RenameTransitions(t, from, to), RenamedSet(q, from, to))
    ensures SymbolsIn(RenameTransitions(t, from, to), sigma)
    ensures StackSymbolsIn(RenameTransitions(t, from, to), gamma)
    ensures NoConflict(RenameTransitions(t, from, to))
  {
    if to != from {
      FreshNameNoClash(t, q, from, to);
    }
    forall k | k in RenameTransitions(t, from, to)
      ensures k.source in RenamedSet(q, from, to) && RenameTransitions(t, from, to)[k].target in RenamedSet(q, from, to)
      ensures k.symbol.Some? ==> k.symbol.value in sigma && Key(k.source, None, k.top) !in RenameTransitions(t, from, to)
      ensures k.top in gamma && Chars(RenameTransitions(t, from, to)[k].push) <= gamma
    {
      var k0 :| k0 in t && k == RelabelKey(k0, from, to);
      assert t[k0].target in q;
      if k.symbol.Some? {
        assert Key(k0.source, None, k0.top) !in t;
        forall e | e in t ensures RelabelKey(e, from, to) != Key(k.source, None, k.top) {
          if e.symbol.None? && e.top == k0.top {
            assert e == Key(e.source, None, k0.top);
          }
        }
      }
    }
  }

  // ---------------------------------------------------------------------
  // Adding one transition

  /** The input symbol of a key, as a set (empty for ε). */
  function SymbolSet(o: Option<char>): set<char> {
    if o.Some? then {o.value} else {}
  }

  /** A new key that passes the checks of `add_transition` keeps the table
      free of ε/symbol conflicts. */
  lemma InsertKeepsDeterminism<S>(t: Table<S>, sigma: set<char>, k: Key<S>, m: Move<S>)
    requires SymbolsIn(t, sigma) && NoConflict(t) && k !in t
    requires k.symbol.Some? ==> Key(k.source, None, k.top) !in t
    requires k.symbol.None? ==> forall a :: a in sigma ==> Key(k.source, Some(a), k.top) !in t
    ensures SymbolsIn(t[k := m], sigma + SymbolSet(k.symbol))
    ensures NoConflict(t[k := m])
  {
    forall e | e in t[k := m] && e.symbol.Some? ensures Key(e.source, None, e.top) !in t[k := m] {
      if e != k {
        assert e in t;
        if k.symbol.None? {
          assert e.symbol.value in sigma;
          assert Key(k.source, Some(e.symbol.value), k.top) !in t;
        }
      }
    }
  }

  // ---------------------------------------------------------------------
  // Renaming every state at once, by an injective map

  ghost predicate Injective<S>(f: map<S, S>) {
    forall x, y :: x in f && y in f && f[x] == f[y] ==> x == y
  }

  ghost function ImageSet<S>(f: map<S, S>, x: set<S>): set<S>
    requires x <= f.Keys
  {
    set s | s in x :: f[s]
  }

  ghost function ImageOpt<S>(f: map<S, S>, o: Option<S>): Option<S>
    requires o.Some? ==> o.value in f
  {
    if o.Some? then Some(f[o.value]) else None
  }

  ghost function ImageKey<S>(f: map<S, S>, k: Key<S>): Key<S>
    requires k.source in f
  {
    Key(f[k.source], k.symbol, k.top)
  }

  ghost function ImageMove<S>(f: map<S, S>, m: Move<S>): Move<S>
    requires m.target in f
  {
    Move(f[m.target], m.push)
  }

  /** `r` is `t` with every key and every target replaced by its image under `f`. */
  ghost predicate IsImage<S>(f: map<S, S>, t: Table<S>, r: Table<S>)
    requires EndpointsIn(t, f.Keys)
  {
    (forall k :: k in t ==> ImageKey(f, k) in r && r[ImageKey(f, k)] == ImageMove(f, t[k])) &&
    (forall k :: k in r ==> exists k0 :: k0 in t && k == ImageKey(f, k0))
  }

  /** Every map is its own image under the identity on its states. */
  lemma IdentityImage<S>(t: Table<S>, q: set<S>)
    requires EndpointsIn(t, q)
    ensures EndpointsIn(t, Identity(q).Keys) && IsImage(Identity(q), t, t)
  {
    var f := Identity(q);
    forall k | k in t ensures ImageKey(f, k) == k && ImageMove(f, t[k]) == t[k] {
    }
    forall k | k in t ensures exists k0 :: k0 in t && k == ImageKey(f, k0) {
      assert k == ImageKey(f, k);
    }
  }

  ghost function Identity<S>(q: set<S>): (f: map<S, S>)
    ensures f.Keys == q && forall x :: x in q ==> f[x] == x
  {
    map x | x in q :: x
  }

  /** The image of a finite set under an injective map has the same size. */
  lemma {:induction false} ImageSetCard<S>(f: map<S, S>, x: set<S>)
    requires x <= f.Keys && Injective(f)
    ensures |ImageSet(f, x)| == |x|
  {
    if x != {} {
      var s :| s in x;
      ImageSetCard(f, x - {s});
      assert ImageSet(f, x) == ImageSet(f, x - {s}) + {f[s]};
      assert f[s] !in ImageSet(f, x - {s});
    }
  }

  /** Renaming the current name `f[s]` of one state to an unused name `n`
      acts on the set of current names as updating `f` at `s`. */
  lemma RenameImageSet<S>(f: map<S, S>, dom: set<S>, x: set<S>, s: S, n: S)
    requires f.Keys == dom && Injective(f) && x <= dom && s in dom
    requires n == f[s] || n !in ImageSet(f, dom)
    ensures RenamedSet(ImageSet(f, x), f[s], n) == ImageSet(f[s := n], x)
  {
    var g := f[s := n];
    if s in x {
      forall y | y in ImageSet(g, x) ensures y in RenamedSet(ImageSet(f, x), f[s], n) {
        var z :| z in x && g[z] == y;
        if z != s {
          assert f[z] in ImageSet(f, x);
        }
      }
    } else {
      forall y | y in ImageSet(f, x) ensures y in ImageSet(g, x) {
        var z :| z in x && f[z] == y;
        assert g[z] == y;
      }
      assert f[s] !in ImageSet(f, x);
    }
  }

  /** The same for an optional state, such as the initial one. */
  lemma RenameImageOpt<S>(f: map<S, S>, dom: set<S>, o: Option<S>, s: S, n: S)
    requires f.Keys == dom && Injective(f) && s in dom && (o.Some? ==> o.value in dom)
    ensures RenamedOpt(ImageOpt(f, o), f[s], n) == ImageOpt(f[s := n], o)
  {
  }

  lemma RenameImageInjective<S>(f: map<S, S>, dom: set<S>, s: S, n: S)
    requires f.Keys == dom && Injective(f) && s in dom
    requires n == f[s] || n !in ImageSet(f, dom)
    ensures Injective(f[s := n])
  {
    var g := f[s := n];
    forall x, y | x in g && y in g && x != y ensures g[x] != g[y] {
      if x == s {
        assert f[y] in ImageSet(f, dom);
      } else if y == s {
        assert f[x] in ImageSet(f, dom);
      }
    }
  }

  /** The keys and targets of an image table are images of states. */
  lemma ImageEndpoints<S>(f: map<S, S>, dom: set<S>, t: Table<S>, r: Table<S>)
    requires f.Keys == dom && EndpointsIn(t, dom) && IsImage(f, t, r)
    ensures EndpointsIn(r, ImageSet(f, dom))
  {
    forall k | k in r ensures k.source in ImageSet(f, dom) && r[k].target in ImageSet(f, dom) {
      var k0 :| k0 in t && k == ImageKey(f, k0);
      assert f[k0.source] in ImageSet(f, dom);
      assert f[t[k0].target] in ImageSet(f, dom);
    }
  }

  /** Renaming one current name `f[s]` to an unused name `n` inside an image
      table gives an image table of the updated map. */
  lemma RenameImage<S>(f: map<S, S>, dom: set<S>, t: Table<S>, r: Table<S>, s: S, n: S)
    requires f.Keys == dom && Injective(f) && EndpointsIn(t, dom) && s in dom
    requires n == f[s] || n !in ImageSet(f, dom)
    requires IsImage(f, t, r)
    ensures Injective(f[s := n])
    ensures NoKeyClash(r, f[s], n)
    ensures IsImage(f[s := n], t, RenameTransitions(r, f[s], n))
  {
    RenameImageInjective(f, dom, s, n);
    ImageEndpoints(f, dom, t, r);
    if n != f[s] {
      FreshNameNoClash(r, ImageSet(f, dom), f[s], n);
    }
    RenameImageForward(f, dom, t, r, s, n);
    RenameImageBack(f, dom, t, r, s, n);
  }

  lemma RenameImageForward<S>(f: map<S, S>, dom: set<S>, t: Table<S>, r: Table<S>, s: S, n: S)
    requires f.Keys == dom && Injective(f) && EndpointsIn(t, dom) && s in dom
    requires NoKeyClash(r, f[s], n) && IsImage(f, t, r)
    ensures forall k0 :: k0 in t ==>
      ImageKey(f[s := n], k0) in RenameTransitions(r, f[s], n) &&
      RenameTransitions(r, f[s], n)[ImageKey(f[s := n], k0)] == ImageMove(f[s := n], t[k0])
  {
    forall k0 | k0 in t ensures ImageKey(f[s := n], k0) in RenameTransitions(r, f[s], n) &&
      RenameTransitions(r, f[s], n)[ImageKey(f[s := n], k0)] == ImageMove(f[s := n], t[k0]) {
      RelabelImageEntry(f, dom, t, s, n, k0);
      assert ImageKey(f, k0) in r;
    }
  }

  lemma RenameImageBack<S>(f: map<S, S>, dom: set<S>, t: Table<S>, r: Table<S>, s: S, n: S)
    requires f.Keys == dom && Injective(f) && EndpointsIn(t, dom) && s in dom
    requires NoKeyClash(r, f[s], n) && IsImage(f, t, r)
    ensures forall k :: k in RenameTransitions(r, f[s], n) ==> exists k0 :: k0 in t && k == ImageKey(f[s := n], k0)
  {
    forall k | k in RenameTransitions(r, f[s], n) ensures exists k0 :: k0 in t && k == ImageKey(f[s := n], k0) {
      var ik := RenamedKeyOrigin(r, f[s], n, k);
      var k0 := RenameImageKeyBack(f, dom, t, r, s, n, ik);
    }
  }

  /** A relabelled key of the image is the image of a key of `t` under the updated map. */
  lemma RenameImageKeyBack<S>(f: map<S, S>, dom: set<S>, t: Table<S>, r: Table<S>, s: S, n: S, ik: Key<S>)
    returns (k0: Key<S>)
    requires f.Keys == dom && Injective(f) && EndpointsIn(t, dom) && s in dom
    requires IsImage(f, t, r) && ik in r
    ensures k0 in t && EndpointsIn(t, f[s := n].Keys)
    ensures RelabelKey(ik, f[s], n) == ImageKey(f[s := n], k0)
  {
    k0 :| k0 in t && ik == ImageKey(f, k0);
    RelabelImage(f, dom, s, n, k0.source);
  }

  /** Every key of a renamed table is the relabelling of a key of the original. */
  lemma RenamedKeyOrigin<S>(t: Table<S>, from: S, to: S, k: Key<S>) returns (k0: Key<S>)
    requires NoKeyClash(t, from, to) && k in RenameTransitions(t, from, to)
    ensures k0 in t && k == RelabelKey(k0, from, to)
  {
    k0 :| k0 in t && k == RelabelKey(k0, from, to);
  }

  lemma RelabelImageEntry<S>(f: map<S, S>, dom: set<S>, t: Table<S>, s: S, n: S, k0: Key<S>)
    requires f.Keys == dom && Injective(f) && s in dom && EndpointsIn(t, dom) && k0 in t
    ensures RelabelKey(ImageKey(f, k0), f[s], n) == ImageKey(f[s := n], k0)
    ensures RelabelMove(ImageMove(f, t[k0]), f[s], n) == ImageMove(f[s := n], t[k0])
  {
    RelabelImage(f, dom, s, n, k0.source);
    RelabelImage(f, dom, s, n, t[k0].target);
  }

  lemma RelabelImage<S>(f: map<S, S>, dom: set<S>, s: S, n: S, x: S)
    requires f.Keys == dom && Injective(f) && s in dom && x in dom
    ensures Relabel(f[x], f[s], n) == f[s := n][x]
  {
  }

  /** An image table under an injective map keeps the alphabets and the
      determinism invariant. */
  lemma ImageSymbols<S>(f: map<S, S>, t: Table<S>, r: Table<S>, sigma: set<char>, gamma: set<char>)
    requires EndpointsIn(t, f.Keys) && Injective(f) && IsImage(f, t, r)
    requires SymbolsIn(t, sigma) && StackSymbolsIn(t, gamma) && NoConflict(t)
    ensures SymbolsIn(r, sigma)
    ensures StackSymbolsIn(r, gamma)
    ensures NoConflict(r)
  {
    forall k | k in r
      ensures k.symbol.Some? ==> k.symbol.value in sigma && Key(k.source, None, k.top) !in r
      ensures k.top in gamma && Chars(r[k].push) <= gamma
    {
      var k0 :| k0 in t && k == ImageKey(f, k0);
      if k.symbol.Some? {
        assert Key(k0.source, None, k0.top) !in t;
        forall e | e in r ensures e != Key(k.source, None, k.top) {
          var e0 :| e0 in t && e == ImageKey(f, e0);
          if e0.symbol.None? && e0.top == k0.top {
            assert e0 == Key(e0.source, None, k0.top);
          }
        }
      }
    }
  }

  // ---------------------------------------------------------------------
  // Loops that visit a set one element at a time

  /** Taking `x` out of the elements still to visit adds it to those visited. */
  lemma Visit<T>(all: set<T>, rest: set<T>, x: T)
    requires x in rest && rest <= all
    ensures all - (rest - {x}) == (all - rest) + {x}
  {
  }
}
