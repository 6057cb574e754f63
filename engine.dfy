/**
 * Single-move semantics and the fuel-bounded run of a deterministic
 * pushdown automaton over a transition table.
 *
 * A configuration is (state, remaining input, stack); the LAST element of
 * the stack sequence is its top.
 */
module Engine {
  import opened Table

  datatype Config<S> = Config(state: S, input: seq<char>, stack: seq<char>)

  /** The reverse of a string. */
  function Reverse(s: seq<char>): (r: seq<char>)
    ensures |r| == |s|
    ensures forall i :: 0 <= i < |s| ==> r[i] == s[|s| - 1 - i]
  {
    if s == [] then [] else Reverse(s[1..]) + [s[0]]
  }

  lemma {:induction false} ReverseReverse(s: seq<char>)
    ensures Reverse(Reverse(s)) == s
  {
    var r := Reverse(s);
    assert |Reverse(r)| == |s|;
    forall i | 0 <= i < |s| ensures Reverse(r)[i] == s[i] {
      assert Reverse(r)[i] == r[|s| - 1 - i];
    }
  }

  /** The stack after popping its top and pushing `push` so that the first
      character of `push` ends on top. */
  function Replace(stack: seq<char>, push: seq<char>): (r: seq<char>)
    requires stack != []
    ensures |r| == |stack| - 1 + |push|
    ensures r[..|stack| - 1] == stack[..|stack| - 1]
    ensures forall i :: 0 <= i < |push| ==> r[|r| - 1 - i] == push[i]
  {
    stack[..|stack| - 1] + Reverse(push)
  }

  /** Dictionary lookup of one transition. */
  function GetTransition<S(==)>(t: Table<S>, state: S, symbol: Option<char>, top: char): (r: Option<Move<S>>)
    ensures r.Some? <==> Key(state, symbol, top) in t
    ensures r.Some? ==> r.value == t[Key(state, symbol, top)]
  {
    var k := Key(state, symbol, top);
    if k in t then Some(t[k]) else None
  }

  function Top(stack: seq<char>): char
    requires stack != []
  {
    stack[|stack| - 1]
  }

  /** One move, as `step` performs it: nothing on an empty stack, a move on
      the next input symbol when there is one, and an ε move otherwise. */
  function Step<S(==)>(t: Table<S>, c: Config<S>): (r: Option<Config<S>>)
    ensures c.stack == [] ==> r.None?
    ensures r.Some? ==> MovesTo(t, c, r.value)
    ensures r.Some? && c.input != [] && Key(c.state, Some(c.input[0]), Top(c.stack)) in t ==>
      r.value.input == c.input[1..]
  {
    if c.stack == [] then None
    else
      var top := Top(c.stack);
      var bySymbol := if c.input != [] then GetTransition(t, c.state, Some(c.input[0]), top) else None;
      if bySymbol.Some? then
        Some(Config(bySymbol.value.target, c.input[1..], Replace(c.stack, bySymbol.value.push)))
      else
        var byLambda := GetTransition(t, c.state, None, top);
        if byLambda.Some? then
          Some(Config(byLambda.value.target, c.input, Replace(c.stack, byLambda.value.push)))
        else
          None
  }

  /** The move relation ⊢ of a pushdown automaton: `d` follows from `c` by
      one transition that reads the next input symbol or reads nothing. */
  ghost predicate MovesTo<S>(t: Table<S>, c: Config<S>, d: Config<S>) {
    c.stack != [] &&
    ((c.input != [] && SymbolMove(t, c, d)) || LambdaMove(t, c, d))
  }

  ghost predicate SymbolMove<S>(t: Table<S>, c: Config<S>, d: Config<S>)
    requires c.stack != [] && c.input != []
  {
    var k := Key(c.state, Some(c.input[0]), Top(c.stack));
    k in t && d == Config(t[k].target, c.input[1..], Replace(c.stack, t[k].push))
  }

  ghost predicate LambdaMove<S>(t: Table<S>, c: Config<S>, d: Config<S>)
    requires c.stack != []
  {
    var k := Key(c.state, None, Top(c.stack));
    k in t && d == Config(t[k].target, c.input, Replace(c.stack, t[k].push))
  }

  /** On a table without ε/symbol conflicts, `Step` is exactly the move
      relation: every configuration has at most one successor. */
  lemma StepIsTheMove<S>(t: Table<S>, c: Config<S>, d: Config<S>)
    requires NoConflict(t)
    ensures Step(t, c) == Some(d) <==> MovesTo(t, c, d)
  {
    if MovesTo(t, c, d) && c.input != [] && SymbolMove(t, c, d) {
      assert Key(c.state, Some(c.input[0]), Top(c.stack)) in t;
    } else if MovesTo(t, c, d) {
      assert LambdaMove(t, c, d);
      if c.input != [] {
        var k := Key(c.state, Some(c.input[0]), Top(c.stack));
        assert Key(k.source, None, k.top) in t;
        assert k !in t;
      }
    }
  }

  /** When `Step` finds nothing, no transition applies at all. */
  lemma StepStuck<S>(t: Table<S>, c: Config<S>, d: Config<S>)
    requires Step(t, c).None?
    ensures !MovesTo(t, c, d)
  {
  }

  /** The configuration after `n` moves, if the run does not get stuck first. */
  function Run<S(==)>(t: Table<S>, c: Config<S>, n: nat): Option<Config<S>>
    decreases n
  {
    if n == 0 then Some(c)
    else
      var s := Step(t, c);
      if s.None? then None else Run(t, s.value, n - 1)
  }

  /** Whether `accepts` takes a configuration as accepting in the given mode. */
  predicate Accepting<S(==)>(c: Config<S>, mode: string, finals: set<S>) {
    c.input == [] &&
    ((mode == "final_state" && c.state in finals) || (mode == "empty_stack" && c.stack == []))
  }

  /** Some configuration reached within `fuel` moves is accepting. */
  predicate RunAccepts<S(==)>(t: Table<S>, finals: set<S>, mode: string, c: Config<S>, fuel: nat)
    decreases fuel
  {
    Accepting(c, mode, finals) ||
    (fuel > 0 && Step(t, c).Some? && RunAccepts(t, finals, mode, Step(t, c).value, fuel - 1))
  }

  /** One unfolding of `RunAccepts` at a configuration that is not accepting. */
  lemma RunAcceptsNext<S>(t: Table<S>, finals: set<S>, mode: string, c: Config<S>, fuel: nat)
    requires !Accepting(c, mode, finals)
    ensures RunAccepts(t, finals, mode, c, fuel) <==>
      fuel > 0 && Step(t, c).Some? && RunAccepts(t, finals, mode, Step(t, c).value, fuel - 1)
  {
  }
  /** Through a configuration that is not accepting, the run accepts exactly
      when it accepts from the configuration after the move. */
  lemma RunAcceptsVia<S>(t: Table<S>, finals: set<S>, mode: string, c: Config<S>, d: Config<S>, fuel: nat)
    requires !Accepting(c, mode, finals) && Step(t, c) == Some(d) && fuel > 0
    ensures RunAccepts(t, finals, mode, c, fuel) == RunAccepts(t, finals, mode, d, fuel - 1)
  {
  }

  /** A configuration that is not accepting and has no move rejects. */
  lemma RunRejectsStuck<S>(t: Table<S>, finals: set<S>, mode: string, c: Config<S>, fuel: nat)
    requires !Accepting(c, mode, finals) && Step(t, c).None?
    ensures !RunAccepts(t, finals, mode, c, fuel)
  {
  }

  /** The number of moves `accepts` allows for a word of length `n`. */
  function MaxSteps(n: nat): nat {
    n * 100 + 1000
  }

  /** `RunAccepts` holds exactly when some configuration reached in at most
      `fuel` moves is accepting. */
  lemma RunAcceptsIff<S>(t: Table<S>, finals: set<S>, mode: string, c: Config<S>, fuel: nat)
    ensures RunAccepts(t, finals, mode, c, fuel) <==>
      exists j :: 0 <= j <= fuel && Run(t, c, j).Some? && Accepting(Run(t, c, j).value, mode, finals)
  {
    if RunAccepts(t, finals, mode, c, fuel) {
      var j := AcceptingIndex(t, finals, mode, c, fuel);
    }
    if exists j :: 0 <= j <= fuel && Run(t, c, j).Some? && Accepting(Run(t, c, j).value, mode, finals) {
      var j :| 0 <= j <= fuel && Run(t, c, j).Some? && Accepting(Run(t, c, j).value, mode, finals);
      AcceptedAt(t, finals, mode, c, fuel, j);
    }
  }

  /** An accepting run yields the number of moves after which it accepts. */
  lemma {:induction false} AcceptingIndex<S>(t: Table<S>, finals: set<S>, mode: string, c: Config<S>, fuel: nat) returns (j: nat)
    requires RunAccepts(t, finals, mode, c, fuel)
    ensures j <= fuel && Run(t, c, j).Some? && Accepting(Run(t, c, j).value, mode, finals)
    decreases fuel
  {
    if Accepting(c, mode, finals) {
      j := 0;
    } else {
      var i := AcceptingIndex(t, finals, mode, Step(t, c).value, fuel - 1);
      j := i + 1;
    }
  }

  /** An accepting configuration reached within the fuel makes the run accept. */
  lemma {:induction false} AcceptedAt<S>(t: Table<S>, finals: set<S>, mode: string, c: Config<S>, fuel: nat, j: nat)
    requires j <= fuel && Run(t, c, j).Some? && Accepting(Run(t, c, j).value, mode, finals)
    ensures RunAccepts(t, finals, mode, c, fuel)
    decreases j
  {
    if j > 0 {
      AcceptedAt(t, finals, mode, Step(t, c).value, fuel - 1, j - 1);
    }
  }

  /** A mode other than "final_state" and "empty_stack" accepts nothing. */
  lemma {:induction false} UnknownModeRejects<S>(t: Table<S>, finals: set<S>, mode: string, c: Config<S>, fuel: nat)
    requires mode != "final_state" && mode != "empty_stack"
    ensures !RunAccepts(t, finals, mode, c, fuel)
    decreases fuel
  {
    if fuel > 0 && Step(t, c).Some? {
      UnknownModeRejects(t, finals, mode, Step(t, c).value, fuel - 1);
    }
  }

  /** More fuel never loses an acceptance. */
  lemma {:induction false} FuelMonotone<S>(t: Table<S>, finals: set<S>, mode: string, c: Config<S>, n: nat, m: nat)
    requires n <= m && RunAccepts(t, finals, mode, c, n)
    ensures RunAccepts(t, finals, mode, c, m)
    decreases n
  {
    if !Accepting(c, mode, finals) {
      FuelMonotone(t, finals, mode, Step(t, c).value, n - 1, m - 1);
    }
  }

  // ---------------------------------------------------------------------
  // Renaming states does not change what is accepted

  /** A configuration with its state replaced by the state's image. */
  ghost function ImageConfig<S>(f: map<S, S>, c: Config<S>): Config<S>
    requires c.state in f
  {
    Config(f[c.state], c.input, c.stack)
  }

  /** Looking up a renamed key in an image table is looking up the original key. */
  lemma ImageLookup<S>(f: map<S, S>, t: Table<S>, r: Table<S>, q: S, symbol: Option<char>, top: char)
    requires EndpointsIn(t, f.Keys) && Injective(f) && IsImage(f, t, r) && q in f
    ensures Key(f[q], symbol, top) in r <==> Key(q, symbol, top) in t
    ensures Key(q, symbol, top) in t ==> r[Key(f[q], symbol, top)] == ImageMove(f, t[Key(q, symbol, top)])
  {
    var k := Key(q, symbol, top);
    if k in t {
      assert ImageKey(f, k) == Key(f[q], symbol, top);
    }
    if Key(f[q], symbol, top) in r {
      var k0 :| k0 in t && Key(f[q], symbol, top) == ImageKey(f, k0);
      assert f[k0.source] == f[q];
      assert k0 == k;
    }
  }

  /** One move of the renamed automaton is the renamed move. */
  lemma ImageStep<S>(f: map<S, S>, t: Table<S>, r: Table<S>, c: Config<S>)
    requires EndpointsIn(t, f.Keys) && Injective(f) && IsImage(f, t, r) && c.state in f
    ensures Step(t, c).Some? ==> Step(t, c).value.state in f
    ensures Step(r, ImageConfig(f, c)) ==
      if Step(t, c).None? then None else Some(ImageConfig(f, Step(t, c).value))
  {
    if c.stack != [] {
      if c.input != [] {
        ImageLookup(f, t, r, c.state, Some(c.input[0]), Top(c.stack));
      }
      ImageLookup(f, t, r, c.state, None, Top(c.stack));
    }
  }

  /** The renamed automaton, started in the renamed configuration, accepts
      within the same fuel exactly when the original does. */
  lemma {:induction false} ImageRunAccepts<S>(f: map<S, S>, t: Table<S>, r: Table<S>, finals: set<S>, mode: string, c: Config<S>, fuel: nat)
    requires EndpointsIn(t, f.Keys) && Injective(f) && IsImage(f, t, r) && c.state in f && finals <= f.Keys
    ensures RunAccepts(r, ImageSet(f, finals), mode, ImageConfig(f, c), fuel) == RunAccepts(t, finals, mode, c, fuel)
    decreases fuel
  {
    ImageStep(f, t, r, c);
    assert f[c.state] in ImageSet(f, finals) <==> c.state in finals;
    if fuel > 0 && Step(t, c).Some? {
      ImageRunAccepts(f, t, r, finals, mode, Step(t, c).value, fuel - 1);
    }
  }
}
