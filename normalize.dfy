/**
 * `normalize_states`: renames the states of an automaton with string-named
 * states to q0, q1, ... in four phases: plan a target name for every state,
 * order the single-state renames so that none lands on a state still
 * waiting to be renamed, apply them (parking a state under a `temp:` name
 * when the pending renames form a cycle), and strip the temporary prefixes.
 */
module Normalize {
  import opened Table
  import opened Engine
  import opened Names
  import opened Automaton

  /** One scheduled rename; `useTemp` parks the state under a temporary name. */
  datatype Rename = Rename(source: string, target: string, useTemp: bool)

  /** The parts of the automaton as they were before normalising. */
  datatype Snapshot = Snapshot(states: set<string>, initial: Option<string>, finals: set<string>, transitions: Table<string>)

  predicate Distinct(s: seq<string>) {
    forall i, j :: 0 <= i < j < |s| ==> s[i] != s[j]
  }

  /** The first number handed out: 0 when there is an initial state, else 1. */
  function Offset(initial: Option<string>): nat {
    if initial.Some? then 0 else 1
  }

  // ---------------------------------------------------------------------
  // Phase 1: the target name of every state

  /** The initial state gets `q0`; the other states, in an arbitrary order,
      get `q1`, `q2`, ... (`q1`, `q2`, ... for all of them when there is no
      initial state). `order` is the insertion order of the name dictionary. */
  method PlanNames(states: set<string>, initial: Option<string>) returns (order: seq<string>, names: map<string, string>)
    requires initial.Some? ==> initial.value in states
    ensures Distinct(order) && |order| == |states|
    ensures forall x :: x in order <==> x in states
    ensures names.Keys == states
    ensures forall i :: 0 <= i < |order| ==> names[order[i]] == QName(i + Offset(initial))
    ensures initial.Some? ==> order[0] == initial.value && names[initial.value] == QName(0)
  {
    order := [];
    names := map[];
    if initial.Some? {
      order := [initial.value];
      names := map[initial.value := QName(0)];
    }
    var rest := if initial.Some? then states - {initial.value} else states;
    ghost var start := order;
    order, names := PlanRest(states, rest, order, names, Offset(initial));
    if initial.Some? {
      assert order[0] == order[..|start|][0];
    }
  }

  /** Names the states of `rest`, in an arbitrary order, after those of `order0`. */
  method PlanRest(states: set<string>, rest0: set<string>, order0: seq<string>, names0: map<string, string>, d: nat)
    returns (order: seq<string>, names: map<string, string>)
    requires PlanInv(states, rest0, order0, names0, d, order0)
    ensures PlanSoFar(order, names, d) && names.Keys == states && |order| == |states|
    ensures |order0| <= |order| && order[..|order0|] == order0
  {
    order, names := order0, names0;
    var rest := rest0;
    while rest != {}
      invariant PlanInv(states, rest, order, names, d, order0)
      decreases rest
    {
      var s :| s in rest;
      PlanAdvance(states, rest, order, names, d, order0, s);
      names := names[s := QName(|order| + d)];
      order := order + [s];
      rest := rest - {s};
    }
  }

  /** The plan so far covers `states` except `rest`, and extends `order0`. */
  ghost predicate PlanInv(states: set<string>, rest: set<string>, order: seq<string>, names: map<string, string>, d: nat, order0: seq<string>) {
    rest <= states && names.Keys == states - rest &&
    PlanSoFar(order, names, d) && |order| + |rest| == |states| &&
    |order0| <= |order| && order[..|order0|] == order0
  }

  lemma PlanAdvance(states: set<string>, rest: set<string>, order: seq<string>, names: map<string, string>, d: nat, order0: seq<string>, s: string)
    requires PlanInv(states, rest, order, names, d, order0) && s in rest
    ensures PlanInv(states, rest - {s}, order + [s], names[s := QName(|order| + d)], d, order0)
  {
    PlanStep(order, names, d, s);
    Visit(states, rest, s);
    assert (order + [s])[..|order0|] == order[..|order0|];
  }

  /** `order` lists the keys of `names` once each, the j-th named q<j + d>. */
  ghost predicate PlanSoFar(order: seq<string>, names: map<string, string>, d: nat) {
    Distinct(order) && (forall x :: x in order <==> x in names) &&
    forall j :: 0 <= j < |order| ==> order[j] in names && names[order[j]] == QName(j + d)
  }

  /** Naming one more state keeps the plan. */
  lemma PlanStep(order: seq<string>, names: map<string, string>, d: nat, s: string)
    requires PlanSoFar(order, names, d) && s !in names
    ensures PlanSoFar(order + [s], names[s := QName(|order| + d)], d)
  {
    var order2, names2 := order + [s], names[s := QName(|order| + d)];
    forall j | 0 <= j < |order2| ensures order2[j] in names2 && names2[order2[j]] == QName(j + d) {
      if j < |order| {
        assert order2[j] == order[j] && order[j] != s;
      }
    }
  }

  /** The planned names are pairwise distinct, so the plan is injective. */
  lemma PlanInjective(order: seq<string>, names: map<string, string>, d: nat)
    requires Distinct(order) && names.Keys == set x | x in order
    requires forall i :: 0 <= i < |order| ==> names[order[i]] == QName(i + d)
    ensures Injective(names)
  {
    forall x, y | x in names && y in names && x != y ensures names[x] != names[y] {
      var i :| 0 <= i < |order| && order[i] == x;
      var j :| 0 <= j < |order| && order[j] == y;
      if names[x] == names[y] {
        QNameInjective(i + d, j + d);
      }
    }
  }

  /** The names q<lo> ... q<lo + n - 1>. */
  function QNames(lo: nat, n: nat): set<string> {
    set i | lo <= i < lo + n :: QName(i)
  }

  /** The planned names are exactly q<d> ... q<d + n - 1>. */
  lemma PlanNamesSet(order: seq<string>, names: map<string, string>, d: nat)
    requires Distinct(order) && names.Keys == set x | x in order
    requires forall i :: 0 <= i < |order| ==> names[order[i]] == QName(i + d)
    ensures ImageSet(names, names.Keys) == QNames(d, |order|)
  {
    forall y | y in ImageSet(names, names.Keys) ensures y in QNames(d, |order|) {
      var x :| x in names && names[x] == y;
      var i :| 0 <= i < |order| && order[i] == x;
      assert y == QName(i + d);
    }
    forall i | d <= i < |order| + d ensures QName(i) in ImageSet(names, names.Keys) {
      assert names[order[i - d]] == QName(i);
    }
  }

  // ---------------------------------------------------------------------
  // Phase 2: the order of the renames

  function Sources(rs: seq<Rename>): seq<string> {
    seq(|rs|, i requires 0 <= i < |rs| => rs[i].source)
  }

  /** Each state of `q` is the source of exactly one rename of `rs`. */
  predicate RenamesEach(rs: seq<Rename>, q: set<string>) {
    (forall i, j :: 0 <= i < j < |rs| ==> rs[i].source != rs[j].source) &&
    (forall j :: 0 <= j < |rs| ==> rs[j].source in q) &&
    (forall x :: x in q ==> exists j :: 0 <= j < |rs| && rs[j].source == x)
  }

  /** No rename that is not parked moves a state onto the name of a state
      renamed after it. */
  predicate SafeOrder(rs: seq<Rename>) {
    forall j, l :: 0 <= j < l < |rs| && !rs[j].useTemp && rs[j].source != rs[j].target ==>
      rs[l].source != rs[j].target
  }

  /** Repeatedly takes the first pending rename that is a no-op or whose
      target is not a pending source; when every pending rename is blocked
      (a cycle), takes the first one and parks it. Each round removes one
      pending entry. */
  method OrderRenames(order: seq<string>, names: map<string, string>) returns (ordered: seq<Rename>)
    requires Distinct(order) && forall x :: x in order ==> x in names
    ensures |ordered| == |order| && multiset(Sources(ordered)) == multiset(order)
    ensures forall j :: 0 <= j < |ordered| ==> ordered[j].source in names && ordered[j].target == names[ordered[j].source]
    ensures SafeOrder(ordered)
  {
    var pending := order;
    ordered := [];
    assert Sources(ordered) == [];
    while |pending| > 0
      invariant OrderInv(order, names, pending, ordered)
      decreases |pending|
    {
      var i := FirstReady(pending, names);
      var pick := if i < |pending| then i else 0;
      var entry := Rename(pending[pick], names[pending[pick]], i == |pending|);
      OrderAdvance(order, names, pending, ordered, pick, entry);
      ordered := ordered + [entry];
      pending := pending[..pick] + pending[pick + 1..];
    }
  }

  /** The loop invariant of `OrderRenames`: `ordered` and `pending` together
      hold every state of `order` once, and no rename taken so far lands on a
      pending state. */
  ghost predicate OrderInv(order: seq<string>, names: map<string, string>, pending: seq<string>, ordered: seq<Rename>) {
    Distinct(pending) && (forall x :: x in pending ==> x in names) &&
    multiset(Sources(ordered)) + multiset(pending) == multiset(order) &&
    |ordered| + |pending| == |order| &&
    (forall j :: 0 <= j < |ordered| ==> ordered[j].source in names && ordered[j].target == names[ordered[j].source]) &&
    SafeOrder(ordered) &&
    (forall j :: 0 <= j < |ordered| && !ordered[j].useTemp && ordered[j].source != ordered[j].target ==>
      ordered[j].target !in pending)
  }

  /** Taking pending entry `pick` keeps the invariant when the rename is
      parked, a no-op, or lands outside the pending states. */
  lemma OrderAdvance(order: seq<string>, names: map<string, string>, pending: seq<string>, ordered: seq<Rename>, pick: nat, entry: Rename)
    requires OrderInv(order, names, pending, ordered) && pick < |pending|
    requires entry.source == pending[pick] && entry.target == names[pending[pick]]
    requires !entry.useTemp ==> entry.source == entry.target || entry.target !in pending
    ensures OrderInv(order, names, pending[..pick] + pending[pick + 1..], ordered + [entry])
  {
    TakeOut(ordered, entry, pending, pick);
    var ordered2 := ordered + [entry];
    forall j, l | 0 <= j < l < |ordered2| && !ordered2[j].useTemp && ordered2[j].source != ordered2[j].target
      ensures ordered2[l].source != ordered2[j].target
    {
      if l < |ordered| {
        assert ordered2[j] == ordered[j] && ordered2[l] == ordered[l];
      } else {
        assert ordered2[j] == ordered[j] && ordered2[l] == entry;
      }
    }
  }

  /** The index of the first pending rename that is a no-op or whose target
      is not pending, or `|pending|` when there is none. */
  method FirstReady(pending: seq<string>, names: map<string, string>) returns (i: nat)
    requires forall x :: x in pending ==> x in names
    ensures i <= |pending|
    ensures i < |pending| ==> pending[i] == names[pending[i]] || names[pending[i]] !in pending
    ensures forall j :: 0 <= j < i ==> pending[j] != names[pending[j]] && names[pending[j]] in pending
  {
    i := 0;
    while i < |pending| && !(pending[i] == names[pending[i]] || names[pending[i]] !in pending)
      invariant 0 <= i <= |pending|
      invariant forall j :: 0 <= j < i ==> pending[j] != names[pending[j]] && names[pending[j]] in pending
    {
      i := i + 1;
    }
  }

  /** Moving entry `pick` of `pending` to the end of `ordered` keeps the
      sources, counted with multiplicity. */
  lemma TakeOut(ordered: seq<Rename>, entry: Rename, pending: seq<string>, pick: nat)
    requires pick < |pending| && entry.source == pending[pick]
    ensures multiset(Sources(ordered + [entry])) + multiset(pending[..pick] + pending[pick + 1..])
      == multiset(Sources(ordered)) + multiset(pending)
    ensures Distinct(pending) ==> Distinct(pending[..pick] + pending[pick + 1..])
    ensures forall x :: x in pending[..pick] + pending[pick + 1..] ==> x in pending
    ensures Distinct(pending) ==> entry.source !in pending[..pick] + pending[pick + 1..]
  {
    assert pending == pending[..pick] + [pending[pick]] + pending[pick + 1..];
    assert Sources(ordered + [entry]) == Sources(ordered) + [entry.source];
    var rest := pending[..pick] + pending[pick + 1..];
    forall x | x in rest ensures x in pending {
      var k :| 0 <= k < |rest| && rest[k] == x;
      if k < pick {
        assert rest[k] == pending[k];
      } else {
        assert rest[k] == pending[k + 1];
      }
    }
    if Distinct(pending) {
      forall k, l | 0 <= k < l < |rest| ensures rest[k] != rest[l] {
        var k' := if k < pick then k else k + 1;
        var l' := if l < pick then l else l + 1;
        assert rest[k] == pending[k'] && rest[l] == pending[l'];
      }
      forall k | 0 <= k < |rest| ensures rest[k] != entry.source {
        var k' := if k < pick then k else k + 1;
        assert rest[k] == pending[k'];
      }
    }
  }

  // ---------------------------------------------------------------------
  // Tracking the renaming

  /** The automaton is the snapshot with every state `x` renamed to `cur[x]`. */
  ghost predicate Tracks(a: Dpda<string>, cur: map<string, string>, s0: Snapshot)
    reads a
  {
    s0.finals <= s0.states && (s0.initial.Some? ==> s0.initial.value in s0.states) &&
    EndpointsIn(s0.transitions, s0.states) &&
    cur.Keys == s0.states && Injective(cur) &&
    a.states == ImageSet(cur, s0.states) &&
    a.finals == ImageSet(cur, s0.finals) &&
    a.initial == ImageOpt(cur, s0.initial) &&
    IsImage(cur, s0.transitions, a.transitions) &&
    a.Valid()
  }

  /** `_rename_state` on a tracked automaton: the state `s`, currently named
      `from`, becomes `to`. */
  method RenameTracked(a: Dpda<string>, from: string, to: string, ghost s: string, ghost cur: map<string, string>, ghost s0: Snapshot)
    returns (ghost next: map<string, string>)
    requires Tracks(a, cur, s0) && s in s0.states && cur[s] == from
    requires to == from || to !in a.states
    modifies a
    ensures next == cur[s := to] && Tracks(a, next, s0)
    ensures a.inputAlphabet == old(a.inputAlphabet) && a.stackAlphabet == old(a.stackAlphabet)
    ensures a.initialStackSymbol == old(a.initialStackSymbol)
  {
    RenameImageSet(cur, s0.states, s0.states, s, to);
    RenameImageSet(cur, s0.states, s0.finals, s, to);
    RenameImageOpt(cur, s0.states, s0.initial, s, to);
    RenameImage(cur, s0.states, s0.transitions, a.transitions, s, to);
    assert from in a.states;
    var ok := a.RenameState(from, to);
    next := cur[s := to];
    if from == to {
      assert next == cur;
    }
  }

  // ---------------------------------------------------------------------
  // Phase 3: applying the renames

  /** A non-temporary name other than `base` is not `base` behind temporary prefixes. */
  lemma TempOfOther(y: string, base: string, q: string)
    requires TempOf(y, base) && q != base && !StartsWith(q, TempPrefix)
    ensures y != q
  {
  }

  /** When rename `idx` is not parked and not a no-op, no state currently
      bears its target. */
  lemma TargetIsFree(ordered: seq<Rename>, names: map<string, string>, cur: map<string, string>, s0: Snapshot, idx: nat)
    requires idx < |ordered| && !ordered[idx].useTemp && ordered[idx].source != ordered[idx].target
    requires RenamesEach(ordered, s0.states)
    requires names.Keys == s0.states && Injective(names) && SafeOrder(ordered)
    requires forall j :: 0 <= j < |ordered| ==> ordered[j].target == names[ordered[j].source]
    requires forall x :: x in names ==> !StartsWith(names[x], TempPrefix)
    requires cur.Keys == s0.states
    requires forall j :: 0 <= j < idx ==> TempOf(cur[ordered[j].source], ordered[j].target)
    requires forall j :: idx <= j < |ordered| ==> cur[ordered[j].source] == ordered[j].source
    ensures ordered[idx].target !in ImageSet(cur, s0.states)
  {
    var q := ordered[idx].target;
    forall x | x in s0.states ensures cur[x] != q {
      var l :| 0 <= l < |ordered| && ordered[l].source == x;
      if l < idx {
        assert names[ordered[l].source] != names[ordered[idx].source];
        TempOfOther(cur[x], ordered[l].target, q);
      } else if l == idx {
        assert cur[x] == ordered[idx].source;
      } else {
        assert cur[x] == ordered[l].source;
      }
    }
  }

  /** Puts `temp:` in front of `base` until the name is not in `states`. */
  method FreeTempName(states: set<string>, base: string) returns (n: string)
    ensures TempOf(n, base) && n !in states
  {
    n := base;
    while n in states
      invariant TempOf(n, base)
      decreases set x | x in states && |x| >= |n|
    {
      TempStep(n, base);
      ghost var longer := set x | x in states && |x| >= |n|;
      ghost var parked := n;
      n := TempPrefix + n;
      assert parked in longer && parked !in set x | x in states && |x| >= |n|;
    }
  }

  /** Renaming the source of entry `idx` to a temporary form of its target
      extends the progress of the renames by one entry. */
  lemma AdvanceRenames(ordered: seq<Rename>, prev: map<string, string>, cur: map<string, string>, idx: nat, newName: string)
    requires idx < |ordered| && (forall i, j :: 0 <= i < j < |ordered| ==> ordered[i].source != ordered[j].source)
    requires forall j :: 0 <= j < |ordered| ==> ordered[j].source in prev
    requires cur == prev[ordered[idx].source := newName] && TempOf(newName, ordered[idx].target)
    requires forall j :: 0 <= j < idx ==> TempOf(prev[ordered[j].source], ordered[j].target)
    requires forall j :: idx <= j < |ordered| ==> prev[ordered[j].source] == ordered[j].source
    ensures forall j :: 0 <= j < idx + 1 ==> TempOf(cur[ordered[j].source], ordered[j].target)
    ensures forall j :: idx + 1 <= j < |ordered| ==> cur[ordered[j].source] == ordered[j].source
  {
    forall j | 0 <= j < idx + 1 ensures TempOf(cur[ordered[j].source], ordered[j].target) {
      if j < idx {
        assert ordered[j].source != ordered[idx].source;
      }
    }
    forall j | idx + 1 <= j < |ordered| ensures cur[ordered[j].source] == ordered[j].source {
      assert ordered[idx].source != ordered[j].source;
    }
  }

  /** What phase 3 relies on about the ordered renames and the planned names. */
  ghost predicate RenamesPlanned(ordered: seq<Rename>, names: map<string, string>, states: set<string>) {
    RenamesEach(ordered, states) &&
    names.Keys == states && Injective(names) && SafeOrder(ordered) &&
    (forall j :: 0 <= j < |ordered| ==> ordered[j].target == names[ordered[j].source]) &&
    (forall x :: x in names ==> !StartsWith(names[x], TempPrefix))
  }

  /** The first `idx` renames are done (up to temporary prefixes), the others
      still wait with their source under its original name. */
  ghost predicate RenamedUpTo(a: Dpda<string>, ordered: seq<Rename>, cur: map<string, string>, s0: Snapshot, idx: nat)
    reads a
  {
    Tracks(a, cur, s0) && idx <= |ordered| &&
    (forall j :: 0 <= j < |ordered| ==> ordered[j].source in cur) &&
    (forall j :: 0 <= j < idx ==> TempOf(cur[ordered[j].source], ordered[j].target)) &&
    (forall j :: idx <= j < |ordered| ==> cur[ordered[j].source] == ordered[j].source)
  }

  /** Performs the renames in order; a parked rename first grows its target
      with `temp:` prefixes until it names no state. */
  method ApplyRenames(a: Dpda<string>, ordered: seq<Rename>, names: map<string, string>, ghost s0: Snapshot, ghost cur0: map<string, string>)
    returns (ghost cur: map<string, string>)
    requires Tracks(a, cur0, s0) && RenamesPlanned(ordered, names, s0.states)
    requires forall x :: x in s0.states ==> cur0[x] == x
    modifies a
    ensures Tracks(a, cur, s0)
    ensures forall x :: x in s0.states ==> TempOf(cur[x], names[x])
    ensures a.inputAlphabet == old(a.inputAlphabet) && a.stackAlphabet == old(a.stackAlphabet)
    ensures a.initialStackSymbol == old(a.initialStackSymbol)
  {
    cur := cur0;
    for idx := 0 to |ordered|
      invariant RenamedUpTo(a, ordered, cur, s0, idx)
      invariant a.inputAlphabet == old(a.inputAlphabet) && a.stackAlphabet == old(a.stackAlphabet)
      invariant a.initialStackSymbol == old(a.initialStackSymbol)
    {
      cur := ApplyOne(a, ordered, names, s0, cur, idx);
    }
    forall x | x in s0.states ensures TempOf(cur[x], names[x]) {
      var l :| 0 <= l < |ordered| && ordered[l].source == x;
    }
  }

  /** Performs rename `idx`. */
  method ApplyOne(a: Dpda<string>, ordered: seq<Rename>, names: map<string, string>, ghost s0: Snapshot, ghost cur: map<string, string>, idx: nat)
    returns (ghost next: map<string, string>)
    requires RenamesPlanned(ordered, names, s0.states) && RenamedUpTo(a, ordered, cur, s0, idx) && idx < |ordered|
    modifies a
    ensures RenamedUpTo(a, ordered, next, s0, idx + 1)
    ensures a.inputAlphabet == old(a.inputAlphabet) && a.stackAlphabet == old(a.stackAlphabet)
    ensures a.initialStackSymbol == old(a.initialStackSymbol)
  {
    var e := ordered[idx];
    var newName := e.target;
    if e.useTemp {
      newName := FreeTempName(a.states, e.target);
    } else if e.source != e.target {
      TargetIsFree(ordered, names, cur, s0, idx);
    }
    next := RenameTracked(a, e.source, newName, e.source, cur, s0);
    AdvanceRenames(ordered, cur, next, idx, newName);
  }

  // ---------------------------------------------------------------------
  // Phase 4: stripping the temporary prefixes

  /** While the prefixes are stripped, no state other than the one named
      `cur0[x]` bears the name `names[x]`. */
  lemma StripTargetFree(names: map<string, string>, s0: Snapshot, cur0: map<string, string>, cur: map<string, string>, rest: set<string>, x: string)
    requires cur0.Keys == s0.states && Injective(cur0) && x in s0.states && cur0[x] in rest
    requires names.Keys == s0.states && Injective(names)
    requires forall z :: z in names ==> !StartsWith(names[z], TempPrefix)
    requires forall z :: z in s0.states ==> TempOf(cur0[z], names[z])
    requires cur.Keys == s0.states
    requires forall z :: z in s0.states && cur0[z] in rest ==> cur[z] == cur0[z]
    requires forall z :: z in s0.states && cur0[z] !in rest ==> cur[z] == names[z]
    ensures forall z :: z in s0.states && z != x ==> cur[z] != names[x]
  {
    forall z | z in s0.states && z != x ensures cur[z] != names[x] {
      assert names[z] != names[x];
      if cur0[z] in rest {
        TempOfOther(cur0[z], names[z], names[x]);
      }
    }
  }

  /** Strips the prefixes of the state `x`, currently named `y`. */
  method StripOne(a: Dpda<string>, names: map<string, string>, y: string, ghost x: string, ghost s0: Snapshot, ghost cur: map<string, string>)
    returns (ghost next: map<string, string>)
    requires Tracks(a, cur, s0) && x in s0.states && cur[x] == y
    requires x in names && TempOf(y, names[x]) && ':' !in names[x] && !StartsWith(names[x], TempPrefix)
    requires forall z :: z in s0.states && z != x ==> cur[z] != names[x]
    modifies a
    ensures next == cur[x := names[x]] && Tracks(a, next, s0)
    ensures a.inputAlphabet == old(a.inputAlphabet) && a.stackAlphabet == old(a.stackAlphabet)
    ensures a.initialStackSymbol == old(a.initialStackSymbol)
  {
    if StartsWith(y, TempPrefix) {
      LastSegmentOfTemp(y, names[x]);
      assert LastSegment(y) !in a.states || LastSegment(y) == y;
      next := RenameTracked(a, y, LastSegment(y), x, cur, s0);
    } else {
      TempOfNonTemp(y, names[x]);
      next := cur;
      assert next == cur[x := names[x]];
    }
  }

  /** Taking `cur0[x]` out of the names still to strip keeps the progress invariant. */
  lemma StripAdvances(names: map<string, string>, s0: Snapshot, cur0: map<string, string>, cur: map<string, string>, rest: set<string>, x: string)
    requires cur0.Keys == s0.states && Injective(cur0) && x in s0.states && cur0[x] in rest
    requires cur.Keys == s0.states && names.Keys == s0.states
    requires forall z :: z in s0.states && cur0[z] in rest ==> cur[z] == cur0[z]
    requires forall z :: z in s0.states && cur0[z] !in rest ==> cur[z] == names[z]
    ensures forall z :: z in s0.states && cur0[z] in rest - {cur0[x]} ==> cur[x := names[x]][z] == cur0[z]
    ensures forall z :: z in s0.states && cur0[z] !in rest - {cur0[x]} ==> cur[x := names[x]][z] == names[z]
  {
    forall z | z in s0.states && z != x ensures (cur0[z] in rest - {cur0[x]} <==> cur0[z] in rest) {
      assert cur0[z] != cur0[x];
    }
  }

  /** Renames every state whose name starts with `temp:` to the last
      `:`-separated segment of its name. */
  method StripTemporaryNames(a: Dpda<string>, names: map<string, string>, ghost s0: Snapshot, ghost cur0: map<string, string>)
    returns (ghost cur: map<string, string>)
    requires Tracks(a, cur0, s0)
    requires names.Keys == s0.states && Injective(names)
    requires forall x :: x in names ==> !StartsWith(names[x], TempPrefix) && ':' !in names[x]
    requires forall x :: x in s0.states ==> TempOf(cur0[x], names[x])
    modifies a
    ensures Tracks(a, cur, s0)
    ensures forall x :: x in s0.states ==> cur[x] == names[x]
    ensures a.inputAlphabet == old(a.inputAlphabet) && a.stackAlphabet == old(a.stackAlphabet)
    ensures a.initialStackSymbol == old(a.initialStackSymbol)
  {
    var snapshot := a.states;
    var rest := snapshot;
    cur := cur0;
    while rest != {}
      invariant rest <= snapshot && snapshot == ImageSet(cur0, s0.states)
      invariant Tracks(a, cur, s0)
      invariant forall x :: x in s0.states && cur0[x] in rest ==> cur[x] == cur0[x]
      invariant forall x :: x in s0.states && cur0[x] !in rest ==> cur[x] == names[x]
      invariant a.inputAlphabet == old(a.inputAlphabet) && a.stackAlphabet == old(a.stackAlphabet)
      invariant a.initialStackSymbol == old(a.initialStackSymbol)
      decreases rest
    {
      var y :| y in rest;
      ghost var x :| x in s0.states && cur0[x] == y;
      StripTargetFree(names, s0, cur0, cur, rest, x);
      StripAdvances(names, s0, cur0, cur, rest, x);
      cur := StripOne(a, names, y, x, s0, cur);
      rest := rest - {y};
    }
  }

  // ---------------------------------------------------------------------
  // The whole operation

  lemma IdentityTracks(a: Dpda<string>, s0: Snapshot)
    requires a.Valid()
    requires s0 == Snapshot(a.states, a.initial, a.finals, a.transitions)
    ensures Tracks(a, Identity(a.states), s0)
    ensures forall x :: x in s0.states ==> Identity(a.states)[x] == x
  {
    var f := Identity(a.states);
    IdentityImage(a.transitions, a.states);
    assert ImageSet(f, a.states) == a.states;
    assert ImageSet(f, a.finals) == a.finals;
    forall x, y | x in f && y in f && x != y ensures f[x] != f[y] {
    }
  }

  /** Renames the states to q0, q1, ... without ever merging two states. The
      ghost result says which new name each original state received. */
  method NormalizeStates(a: Dpda<string>) returns (ghost renaming: map<string, string>)
    requires a.Valid()
    modifies a
    ensures renaming.Keys == old(a.states) && Injective(renaming)
    ensures a.states == ImageSet(renaming, old(a.states))
    ensures a.finals == ImageSet(renaming, old(a.finals))
    ensures a.initial == ImageOpt(renaming, old(a.initial))
    ensures EndpointsIn(old(a.transitions), renaming.Keys) && IsImage(renaming, old(a.transitions), a.transitions)
    ensures a.inputAlphabet == old(a.inputAlphabet) && a.stackAlphabet == old(a.stackAlphabet)
    ensures a.initialStackSymbol == old(a.initialStackSymbol)
    ensures old(a.initial).Some? ==> a.initial == Some(QName(0))
    ensures a.states == QNames(Offset(old(a.initial)), |old(a.states)|)
    ensures |a.states| == |old(a.states)| && |a.finals| == |old(a.finals)|
    ensures a.Size() == old(a.Size())
    ensures forall q :: q in a.states ==> !StartsWith(q, TempPrefix)
    ensures a.Valid()
  {
    ghost var s0 := Snapshot(a.states, a.initial, a.finals, a.transitions);
    var names, ordered := ScheduleRenames(a.states, a.initial);
    IdentityTracks(a, s0);
    ghost var cur := ApplyRenames(a, ordered, names, s0, Identity(a.states));
    cur := StripTemporaryNames(a, names, s0, cur);
    SameMap(cur, names, s0.states);
    renaming := cur;
    NormalizedShape(a, renaming, s0, |s0.states|);
  }

  /** The planned names are fresh canonical names, one per state. */
  ghost predicate NamesPlanned(names: map<string, string>, states: set<string>, initial: Option<string>) {
    names.Keys == states && Injective(names) &&
    ImageSet(names, names.Keys) == QNames(Offset(initial), |states|) &&
    (forall x :: x in names ==> !StartsWith(names[x], TempPrefix) && ':' !in names[x]) &&
    (initial.Some? ==> initial.value in names && names[initial.value] == QName(0))
  }

  /** Phases 1 and 2: the target names and the order of the renames. */
  method ScheduleRenames(states: set<string>, initial: Option<string>) returns (names: map<string, string>, ordered: seq<Rename>)
    requires initial.Some? ==> initial.value in states
    ensures NamesPlanned(names, states, initial) && RenamesPlanned(ordered, names, states)
  {
    var order;
    order, names := PlanNames(states, initial);
    assert names.Keys == set x | x in order;
    PlanFacts(order, names, Offset(initial));
    ordered := OrderRenames(order, names);
    PermutationRenamesEach(order, ordered, states);
  }

  /** What the plan of phase 1 guarantees about the target names. */
  lemma PlanFacts(order: seq<string>, names: map<string, string>, d: nat)
    requires Distinct(order) && names.Keys == set x | x in order
    requires forall i :: 0 <= i < |order| ==> names[order[i]] == QName(i + d)
    ensures Injective(names)
    ensures ImageSet(names, names.Keys) == QNames(d, |order|)
    ensures forall x :: x in names ==> !StartsWith(names[x], TempPrefix) && ':' !in names[x]
  {
    PlanInjective(order, names, d);
    PlanNamesSet(order, names, d);
    forall x | x in names ensures !StartsWith(names[x], TempPrefix) && ':' !in names[x] {
      var i :| 0 <= i < |order| && order[i] == x;
      QNameIsNotTemp(i + d);
    }
  }

  /** The automaton that tracks the planned names has exactly the planned
      states, as many of them and of final states as before, and no
      temporary name. */
  lemma NormalizedShape(a: Dpda<string>, renaming: map<string, string>, s0: Snapshot, n: nat)
    requires Tracks(a, renaming, s0) && n == |s0.states|
    requires ImageSet(renaming, renaming.Keys) == QNames(Offset(s0.initial), n)
    requires forall x :: x in renaming ==> !StartsWith(renaming[x], TempPrefix)
    requires s0.initial.Some? ==> renaming[s0.initial.value] == QName(0)
    ensures a.states == QNames(Offset(s0.initial), |s0.states|)
    ensures |a.states| == |s0.states| && |a.finals| == |s0.finals|
    ensures forall q :: q in a.states ==> !StartsWith(q, TempPrefix)
    ensures s0.initial.Some? ==> a.initial == Some(QName(0))
  {
    ImageSetCard(renaming, s0.states);
    ImageSetCard(renaming, s0.finals);
    forall q | q in a.states ensures !StartsWith(q, TempPrefix) {
      var x :| x in s0.states && renaming[x] == q;
    }
  }

  lemma SameMap(m1: map<string, string>, m2: map<string, string>, d: set<string>)
    requires m1.Keys == d && m2.Keys == d && forall x :: x in d ==> m1[x] == m2[x]
    ensures m1 == m2
  {
  }

  /** A rearrangement of a repetition-free enumeration of `q` renames each
      state of `q` once. */
  lemma PermutationRenamesEach(order: seq<string>, ordered: seq<Rename>, q: set<string>)
    requires Distinct(order) && (forall x :: x in order <==> x in q)
    requires multiset(Sources(ordered)) == multiset(order)
    ensures RenamesEach(ordered, q)
  {
    var src := Sources(ordered);
    forall x ensures multiset(src)[x] <= 1 {
      if x in order {
        DistinctCount(order, x);
      }
    }
    AtMostOnceDistinct(src);
    forall i, j | 0 <= i < j < |ordered| ensures ordered[i].source != ordered[j].source {
      assert src[i] != src[j];
    }
    forall j | 0 <= j < |ordered| ensures ordered[j].source in q {
      assert src[j] in multiset(src);
    }
    forall x | x in q ensures exists j :: 0 <= j < |ordered| && ordered[j].source == x {
      assert x in multiset(order);
      assert x in src;
      var j :| 0 <= j < |src| && src[j] == x;
      assert ordered[j].source == x;
    }
  }

  lemma {:induction false} DistinctCount(s: seq<string>, x: string)
    requires Distinct(s) && x in s
    ensures multiset(s)[x] == 1
  {
    var i :| 0 <= i < |s| && s[i] == x;
    assert s == s[..i] + [x] + s[i + 1..];
    assert x !in s[..i] && x !in s[i + 1..];
    assert multiset(s) == multiset(s[..i]) + multiset{x} + multiset(s[i + 1..]);
  }

  /** A sequence in which nothing occurs twice has no repetitions. */
  lemma {:induction false} AtMostOnceDistinct(s: seq<string>)
    requires forall x :: multiset(s)[x] <= 1
    ensures Distinct(s)
  {
    if s != [] {
      var r := s[1..];
      assert s == [s[0]] + r;
      assert multiset(s) == multiset{s[0]} + multiset(r);
      forall x ensures multiset(r)[x] <= 1 {
        assert multiset(r)[x] <= multiset(s)[x];
      }
      AtMostOnceDistinct(r);
      assert multiset(s)[s[0]] == 1 + multiset(r)[s[0]];
      forall i, j | 0 <= i < j < |s| ensures s[i] != s[j] {
        if i == 0 {
          assert s[j] == r[j - 1] && s[j] in multiset(r);
        } else {
          assert s[i] == r[i - 1] && s[j] == r[j - 1];
        }
      }
    }
  }

  /** The normalised automaton accepts a word, within a given number of
      moves, exactly when the original does. */
  lemma NormalizedRunAccepts(renaming: map<string, string>, s0: Snapshot, t: Table<string>, finals: set<string>, mode: string, c: Config<string>, fuel: nat)
    requires EndpointsIn(s0.transitions, renaming.Keys) && Injective(renaming) && s0.finals <= renaming.Keys
    requires IsImage(renaming, s0.transitions, t) && finals == ImageSet(renaming, s0.finals)
    requires c.state in renaming
    ensures RunAccepts(t, finals, mode, ImageConfig(renaming, c), fuel) == RunAccepts(s0.transitions, s0.finals, mode, c, fuel)
  {
    ImageRunAccepts(renaming, s0.transitions, t, s0.finals, mode, c, fuel);
  }
}
