/**
 * Lemmas for following a run of the engine move by move on a concrete
 * automaton: one lemma per kind of move, and two that carry an answer of
 * `accepts` back along a move.
 */
module Runs {
  import opened Table
  import opened Engine

  /** `push` reversed, for the push strings of at most two symbols used here. */
  function ReverseShort(push: seq<char>): seq<char> {
    if |push| == 2 then [push[1], push[0]] else push
  }

  lemma ReplaceShort(stack: seq<char>, push: seq<char>)
    requires stack != [] && |push| <= 2
    ensures Replace(stack, push) == stack[..|stack| - 1] + ReverseShort(push)
  {
    if |push| == 2 {
      assert Reverse(push) == [push[1], push[0]];
    } else if |push| == 1 {
      assert Reverse(push) == push;
    }
  }

  /** A move that reads the next symbol. */
  lemma Read<S>(t: Table<S>, c: Config<S>, d: Config<S>)
    requires c.stack != [] && c.input != [] && Key(c.state, Some(c.input[0]), Top(c.stack)) in t
    requires |t[Key(c.state, Some(c.input[0]), Top(c.stack))].push| <= 2
    requires d.state == t[Key(c.state, Some(c.input[0]), Top(c.stack))].target && d.input == c.input[1..]
    requires d.stack == c.stack[..|c.stack| - 1] + ReverseShort(t[Key(c.state, Some(c.input[0]), Top(c.stack))].push)
    ensures Step(t, c) == Some(d)
  {
    ReplaceShort(c.stack, t[Key(c.state, Some(c.input[0]), Top(c.stack))].push);
  }

  /** A move that reads nothing. */
  lemma Lambda<S>(t: Table<S>, c: Config<S>, d: Config<S>)
    requires c.stack != [] && (c.input == [] || Key(c.state, Some(c.input[0]), Top(c.stack)) !in t)
    requires Key(c.state, None, Top(c.stack)) in t && |t[Key(c.state, None, Top(c.stack))].push| <= 2
    requires d.state == t[Key(c.state, None, Top(c.stack))].target && d.input == c.input
    requires d.stack == c.stack[..|c.stack| - 1] + ReverseShort(t[Key(c.state, None, Top(c.stack))].push)
    ensures Step(t, c) == Some(d)
  {
    ReplaceShort(c.stack, t[Key(c.state, None, Top(c.stack))].push);
  }

  /** No move applies. */
  lemma Stuck<S>(t: Table<S>, c: Config<S>)
    requires c.stack != [] && (c.input == [] || Key(c.state, Some(c.input[0]), Top(c.stack)) !in t)
    requires Key(c.state, None, Top(c.stack)) !in t
    ensures Step(t, c).None?
  {
  }

  /** No number of moves lets the run from `c` accept. */
  ghost predicate Rejects<S>(t: Table<S>, finals: set<S>, mode: string, c: Config<S>) {
    forall fuel: nat :: !RunAccepts(t, finals, mode, c, fuel)
  }

  /** A configuration that is not accepting and has no move rejects. */
  lemma RejectsStuck<S>(t: Table<S>, finals: set<S>, mode: string, c: Config<S>)
    requires Step(t, c).None? && !Accepting(c, mode, finals)
    ensures Rejects(t, finals, mode, c)
  {
  }

  /** A configuration that is not accepting and moves to one that rejects rejects too. */
  lemma RejectsBack<S>(t: Table<S>, finals: set<S>, mode: string, c: Config<S>, d: Config<S>)
    requires Step(t, c) == Some(d) && !Accepting(c, mode, finals) && Rejects(t, finals, mode, d)
    ensures Rejects(t, finals, mode, c)
  {
    forall fuel: nat
      ensures !RunAccepts(t, finals, mode, c, fuel)
    {
      if fuel > 0 {
        assert !RunAccepts(t, finals, mode, d, fuel - 1);
      }
    }
  }

  /** A configuration one move before an accepting run accepts with one more move allowed. */
  lemma AcceptsBack<S>(t: Table<S>, finals: set<S>, mode: string, c: Config<S>, d: Config<S>, fuel: nat)
    requires Step(t, c) == Some(d) && RunAccepts(t, finals, mode, d, fuel)
    ensures RunAccepts(t, finals, mode, c, fuel + 1)
  {
  }
}
