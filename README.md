# Deterministic pushdown automata and their complement

A model of the automaton core of `lfac-tp-apd-complemento`. This is a small
Python library of deterministic pushdown automata (DPDA) that can build the
automaton of the complement language, after Theorem 2.23 of Aho and
Ullman's *The Theory of Parsing, Translation and Compiling*, volume 1.

The model has four parts:

- **The automaton object** (`Automaton.Dpda`). It is a class whose fields are
  the ones the Python object updates in place:
  - the set of states, an optional initial state and the final states;
  - the transition dictionary, keyed by (state, input symbol or ε, stack top);
  - the input and stack alphabets, and the initial stack symbol.

  Its builder methods refuse anything that would break determinism. It can
  rename one state everywhere, run one word for a bounded number of moves,
  and check determinism.
- **State renaming** (`Normalize`). `normalize_states` renames every state
  to `q0`, `q1`, ... in four phases:
  1. plan the new names;
  2. order the single-state renames;
  3. apply them, parking a state under `temp:` names when the renames form
     a cycle;
  4. strip the temporary prefixes.

  The model proves that no two states are ever merged and that the result
  is the original automaton relabelled by an injective map. It also proves
  that the relabelled automaton accepts exactly the same words.
- **The complement construction** (`Complement`, `ComplementRuns`).
  `crear_automata_complemento` pairs every state of P with a marker 0, 1
  or 2 and applies three rules:
  - rule (i) copies the symbol moves;
  - rule (ii) copies the ε moves;
  - rule (iii) adds the ε "reset" move from marker 0 to marker 2.

  The model proves facts about the table this builds:
  - it is described exactly and uniquely;
  - it is deterministic;
  - C has 3|Q| states;
  - C makes one move for each move of P.

  For an automaton P without ε moves, it proves the run-level theorem: C
  accepts a word exactly when P reads the whole word, stops in a non-final
  state and rule (iii) applies there. So on every word P reads to the end,
  C accepts exactly when P rejects.
- **The repository's test automata** (`AnbnExample`, `AnbComplementExample`,
  `AaBbComplementExample`). The a^n b^n automaton of test_pila_simple.py and
  both complement tests of test_complemento.py (the languages
  { a^n b | n >= 1 } and { aa, bb }) are built through the same builder
  calls the tests make (`Script.AddCalls` makes a run of symbol moves).
  For these three tests, the list of expected answers is proved. For the
  two complement automata it is also proved for every word over {a, b},
  not only the listed ones.

Several Python behaviours are written out explicitly:

- **Errors.** A raised `ValueError` becomes a `Fail(...)` outcome that
  leaves the object unchanged.
- **Iteration order.** Python sets have no order, so a loop over a set
  takes an arbitrary element (`:|`) and every proof holds for every order.
  Python dicts keep insertion order. Where that order matters, the model
  carries it explicitly: the planned names of `normalize_states` are
  visited in the order they were inserted (`Normalize.OrderRenames` starts
  from that sequence). A Dafny map keeps no insertion order, so the loop
  over the transition dictionary takes its keys in any order. That matters
  only when two keys collide, which `normalize_states` never causes.
- **Stack.** The stack is a string whose last character is the top, as
  with the Python list.
- **Initial stack symbol.** The symbol a fresh automaton starts with
  (`SpecialStackSymbol.EMPTY`) is the character `'⊥'` (`BottomSymbol`).

## Model

| member | source | states |
|---|---|---|
| Automaton.Dpda.constructor | automata/ap.py:18-26 | a new automaton has no states, no initial state, no finals, no transitions, empty alphabets and the bottom symbol as initial stack symbol; it satisfies the builder invariant |
| Automaton.Dpda.AddState | automata/ap.py:32-41 | fails with DuplicateState exactly when the state is already present, and then changes nothing; otherwise adds the state (and to the finals when `final`); keeps the builder invariant |
| Automaton.Dpda.MarkInitialState | automata/ap.py:43-47 | fails with UnknownState exactly when the state is not registered, changing nothing; otherwise the initial state becomes that state |
| Automaton.Dpda.SetInitialStackSymbol | automata/ap.py:49-52 | the initial stack symbol becomes `x` and `x` joins the stack alphabet; nothing else changes |
| Automaton.Dpda.AddTransition | automata/apd.py:17-75 | each refusal (unknown endpoint, existing key, ε move already at (state, top), symbol move already at (state, top)) happens exactly under its condition, in the source's order, and changes nothing; success adds exactly the new entry, the symbol to the input alphabet, and the top and pushed characters to the stack alphabet; the determinism invariant is kept |
| Automaton.Dpda.GetTransitionOf | automata/apd.py:77-86 | the lookup finds a move exactly when the key is in the table, and then it is the table's move |
| Automaton.Dpda.DeterministicIffNoConflict | automata/apd.py:177-192 | the scan of `is_deterministic` succeeds exactly when no (state, top) has both an ε move and a symbol move |
| Automaton.Dpda.ValidIsDeterministic | automata/apd.py:177-192 | every automaton the builder produces passes `is_deterministic` |
| Automaton.Dpda.RenameStateInTransitions | automata/apd.py:194-203 | the new keys are the relabelled old keys, every entry comes from an old entry with key and target relabelled, and without key collisions the table is exactly the relabelled table |
| Automaton.RelabelledTable | automata/apd.py:196-203 | the loop over the entries leaves every key relabelled into the new table, each mapped to its relabelled move |
| Automaton.Dpda.RenameState | automata/ap.py:161-172 | succeeds exactly when the names are equal or the old name is a state; renaming to itself changes nothing; otherwise states, initial, finals and transitions are relabelled; renaming to an unused name keeps the builder invariant |
| Automaton.Dpda.Accepts | automata/apd.py:128-175 | the answer is true exactly when there is an initial state and some configuration reached within `len(word) * 100 + 1000` moves has consumed the word and is accepting in the given mode |
| Table.RenameTransitions | automata/apd.py:194-203 | the relabelled table has exactly the relabelled keys, each mapped to its relabelled move |
| Table.RebuiltTable | automata/apd.py:196-203 | a table holding a relabelled copy of every entry has exactly the relabelled keys, and equals the relabelled table when no keys collide |
| Table.RelabelOne | automata/apd.py:198-201 | relabelling one more entry into the new table keeps the loop invariant |
| Table.RelabelKeyInjective | automata/apd.py:194-203 | with no collision, relabelling never maps two keys onto one |
| Table.FreshNameNoClash | automata/ap.py:161-172 | renaming to a name that is not a state never makes two keys collide |
| Table.RenameKeepsInvariants | automata/ap.py:161-172 | renaming a state to an unused name keeps endpoints among the renamed states, the alphabets and determinism |
| Table.InsertKeepsDeterminism | automata/apd.py:43-71 | a key that passes the checks of `add_transition` keeps the table free of ε/symbol conflicts |
| Table.IdentityImage | automata/ap.py:82-87 | before any rename the table is its own image under the identity |
| Table.ImageSetCard | automata/ap.py:54-94 | an injective renaming keeps the number of states and of final states |
| Table.RenameImageSet | automata/ap.py:161-172 | renaming the current name of one state to an unused name updates the image of any set of states |
| Table.RenameImageOpt | automata/ap.py:166-167 | the same for the initial state |
| Table.RenameImageInjective | automata/ap.py:82-87 | renaming to an unused name keeps the overall renaming injective |
| Table.ImageEndpoints | automata/ap.py:82-94 | the endpoints of an image table are images of states |
| Table.RenameImage | automata/ap.py:161-172 | renaming one state inside an image table gives the image under the updated map, with no key collision |
| Table.RenameImageForward | automata/ap.py:161-172 | every original entry appears, relabelled, in the renamed image table |
| Table.RenameImageBack | automata/ap.py:161-172 | every key of the renamed image table is the image of an original key |
| Table.RenamedKeyOrigin | automata/apd.py:194-203 | every key of a relabelled table comes from a key of the original |
| Table.RelabelImage | automata/ap.py:161-172 | relabelling the image of a state gives its image under the updated map |
| Table.ImageSymbols | automata/ap.py:54-94 | an image table under an injective map keeps the alphabets and determinism |
| Engine.Reverse | automata/apd.py:113-114 | the reverse has the same length and holds the characters in opposite order |
| Engine.ReverseReverse | automata/apd.py:113-114 | reversing twice gives back the string |
| Engine.Replace | automata/apd.py:111-114 | the new stack keeps everything below the top, and the first pushed character ends up on top |
| Engine.GetTransition | automata/apd.py:77-86 | the lookup finds a move exactly when the key is present, and returns the table's move |
| Engine.Step | automata/apd.py:88-126 | no move on an empty stack; every move is a move of the relation; a symbol move is preferred when it exists |
| Engine.StepIsTheMove | automata/apd.py:88-126 | on a table without ε/symbol conflicts, `step` returns exactly the unique successor in the move relation |
| Engine.StepStuck | automata/apd.py:126 | when `step` returns nothing, no move of the relation applies |
| Engine.RunAcceptsNext | automata/apd.py:148-166 | one loop iteration: a non-accepting configuration accepts exactly when its successor does with one move less |
| Engine.RunAcceptsVia | automata/apd.py:161-166 | through a non-accepting configuration, acceptance is that of the successor with one move less |
| Engine.RunRejectsStuck | automata/apd.py:162-175 | a stuck non-accepting configuration rejects |
| Engine.RunAcceptsIff | automata/apd.py:148-175 | bounded acceptance holds exactly when an accepting configuration is reached within the bound |
| Engine.AcceptingIndex | automata/apd.py:148-175 | an accepting run gives the number of moves after which it accepts |
| Engine.AcceptedAt | automata/apd.py:148-175 | an accepting configuration reached within the bound makes the run accept |
| Engine.UnknownModeRejects | automata/apd.py:152-158 | a mode other than "final_state" and "empty_stack" accepts nothing |
| Engine.FuelMonotone | automata/apd.py:145-148 | allowing more moves never loses an acceptance |
| Engine.ImageLookup | automata/apd.py:77-86 | a renamed key is in the renamed table exactly when the original key is in the original table, with the renamed move |
| Engine.ImageStep | automata/apd.py:88-126 | one move of the renamed automaton is the renamed move |
| Engine.ImageRunAccepts | automata/apd.py:128-175 | the renamed automaton accepts, within any bound, exactly when the original does |
| Runs.ReplaceShort | automata/apd.py:111-114 | for pushes of at most two symbols, the new stack is the old one without its top, followed by the reversed push |
| Runs.Read | automata/apd.py:106-115 | a symbol move applies as `step` performs it |
| Runs.Lambda | automata/apd.py:118-124 | an ε move applies when no symbol move does |
| Runs.Stuck | automata/apd.py:100-126 | `step` returns nothing when neither kind of move applies |
| Runs.RejectsStuck | automata/apd.py:162-175 | a stuck non-accepting configuration rejects for any number of moves |
| Runs.RejectsBack | automata/apd.py:148-166 | a non-accepting configuration whose successor rejects rejects too |
| Runs.AcceptsBack | automata/apd.py:148-166 | a configuration one move before an accepting run accepts with one more move allowed |
| Names.NatToString | automata/ap.py:64 | the decimal representation is non-empty and made of digits |
| Names.ParseNatToString | automata/ap.py:64 | reading the decimal representation gives back the number |
| Names.NatToStringInjective | automata/ap.py:64 | distinct numbers have distinct representations |
| Names.QName | automata/ap.py:62-65 | `q<n>` starts with `q`, is followed by the digits of n and has no `:` |
| Names.QNameInjective | automata/ap.py:60-65 | distinct numbers give distinct state names |
| Names.QNameIsNotTemp | automata/ap.py:89-92 | a planned name never starts with `temp:` |
| Names.TempStep | automata/ap.py:84-86 | one more `temp:` prefix keeps a name a temporary form of its base |
| Names.LastSegment | automata/ap.py:92 | the last `:`-separated segment has no `:`, is a suffix, and is preceded by `:` when shorter than the name |
| Names.LastSegmentOfColonFree | automata/ap.py:92 | a name without `:` is its own last segment |
| Names.LastSegmentAfterColon | automata/ap.py:92 | a prefix ending in `:` does not change the last segment |
| Names.LastSegmentOfTemp | automata/ap.py:89-92 | stripping a temporary name gives back its base when the base has no `:` |
| Names.TempOfNonTemp | automata/ap.py:89-92 | a name that does not start with `temp:` is its own base |
| Normalize.PlanNames | automata/ap.py:60-65 | the initial state is named `q0`; the others, in some order without repetition, are named `q1`, `q2`, ...; without an initial state every state is named from `q1` on |
| Normalize.PlanRest | automata/ap.py:63-65 | the remaining states are named in order after those already named |
| Normalize.PlanAdvance | automata/ap.py:63-65 | naming one more state keeps the plan's invariant |
| Normalize.PlanStep | automata/ap.py:63-65 | naming one more state keeps the plan |
| Normalize.PlanInjective | automata/ap.py:60-65 | the planned names are pairwise distinct |
| Normalize.PlanNamesSet | automata/ap.py:60-65 | the planned names are exactly `q<d>` ... `q<d+n-1>` |
| Normalize.PlanFacts | automata/ap.py:60-65 | the plan is injective, covers exactly the expected names and never uses `temp:` or `:` |
| Normalize.OrderRenames | automata/ap.py:67-80 | the ordered renames are a permutation of the planned ones, each with its planned target, and no unparked rename lands on a state still waiting to be renamed |
| Normalize.OrderAdvance | automata/ap.py:69-80 | taking a rename that is a no-op, targets a free name, or is parked keeps the ordering invariant |
| Normalize.FirstReady | automata/ap.py:70-74 | finds the first pending rename that is a no-op or targets a name not pending, or reports that none exists |
| Normalize.TakeOut | automata/ap.py:69-80 | removing a pending entry and appending it to the order keeps the multiset of sources and the absence of repetitions |
| Normalize.ScheduleRenames | automata/ap.py:60-80 | the names are planned and the renames ordered as phase 3 needs |
| Normalize.PermutationRenamesEach | automata/ap.py:67-80 | a rearrangement of a repetition-free enumeration renames each state exactly once |
| Normalize.DistinctCount | automata/ap.py:69-80 | an element of a repetition-free sequence occurs once |
| Normalize.AtMostOnceDistinct | automata/ap.py:69-80 | a sequence in which nothing occurs twice has no repetitions |
| Normalize.RenameTracked | automata/ap.py:161-172 | `_rename_state` on a tracked state to an unused name keeps the automaton the image of the original under the updated renaming |
| Normalize.TempOfOther | automata/ap.py:84-86 | a temporary form of one base is never a different canonical name |
| Normalize.TargetIsFree | automata/ap.py:83-87 | when an unparked, non-trivial rename is reached, its target is not the current name of any state |
| Normalize.FreeTempName | automata/ap.py:84-86 | the parked name is the target behind `temp:` prefixes and is not a current state |
| Normalize.AdvanceRenames | automata/ap.py:83-87 | one more rename performed keeps the progress invariant |
| Normalize.ApplyOne | automata/ap.py:83-87 | performing the next rename keeps the automaton tracked and advances the progress invariant |
| Normalize.ApplyRenames | automata/ap.py:82-87 | after the renames every state carries its planned name, possibly behind `temp:` prefixes, and the automaton is the image of the original |
| Normalize.StripTargetFree | automata/ap.py:89-92 | while prefixes are being stripped, no other state holds a state's planned name |
| Normalize.StripOne | automata/ap.py:91-92 | stripping one state's prefixes renames it to its planned name and keeps the automaton tracked |
| Normalize.StripAdvances | automata/ap.py:90-92 | stripping one more state keeps the progress invariant |
| Normalize.StripTemporaryNames | automata/ap.py:89-92 | after stripping, every state carries exactly its planned name |
| Normalize.IdentityTracks | automata/ap.py:54-94 | before normalising, the automaton is its own image under the identity |
| Normalize.NormalizeStates | automata/ap.py:54-94 | the states, finals, initial state and transitions are the images of the old ones under an injective renaming; the states are exactly `q0`/`q1` ... with as many states and finals as before (`size()` is kept); the initial state becomes `q0`; no `temp:` name stays; alphabets are kept and the invariant still holds |
| Normalize.NormalizedShape | automata/ap.py:54-94 | the tracked automaton has exactly the planned states, as many states and finals as before, and no temporary name |
| Normalize.SameMap | automata/ap.py:89-92 | two renamings that agree on every state are equal |
| Normalize.NormalizedRunAccepts | automata/ap.py:54-94 | the normalised automaton accepts a word exactly when the original does, within any bound |
| Complement.ComplementCard | automata/apdc.py:35-38 | C has three states and one final state per state of P |
| Complement.AddIndexedStates | automata/apdc.py:35-38 | every state of P is added with markers 0, 1 and 2, only marker 2 final |
| Complement.IndexedStatesStep | automata/apdc.py:35-38 | adding the three copies of one more state extends the state and final sets |
| Complement.AddSymbolRules | automata/apdc.py:60-65 | after rule (i), the table holds exactly the symbol moves of P copied to markers 1 and 2 |
| Complement.CopySymbolTransition | automata/apdc.py:60-65 | one symbol move of P adds its two copies, with the target marked 1 when final and 0 otherwise |
| Complement.AddLambdaRules | automata/apdc.py:72-77 | after rule (ii), the table also holds every ε move of P, from marker 1 to marker 1 and from marker 0 to the target's mark |
| Complement.CopyLambdaTransition | automata/apdc.py:72-77 | one ε move of P adds its two copies |
| Complement.AddResetRules | automata/apdc.py:82-86 | after rule (iii), every (state, stack symbol) without an ε move of P has the reset move from marker 0 to marker 2, keeping the top |
| Complement.AddResetRow | automata/apdc.py:83-86 | one state's pass over the stack alphabet adds its reset moves |
| Complement.AddReset | automata/apdc.py:84-86 | one reset move is added exactly when P has no ε move at that (state, top) |
| Complement.SymbolRuleStep | automata/apdc.py:60-65 | the description after one more symbol move copied |
| Complement.SymbolRuleSkip | automata/apdc.py:61-62 | skipping an ε move in rule (i) keeps the description |
| Complement.LambdaRuleStep | automata/apdc.py:72-77 | the description after one more ε move copied |
| Complement.LambdaRuleSkip | automata/apdc.py:73-74 | skipping a symbol move in rule (ii) keeps the description |
| Complement.ResetRuleStep | automata/apdc.py:82-86 | the description after one more reset considered |
| Complement.ResetEntries | automata/apdc.py:82-86 | adding one reset move keeps every entry of the table one the rules produce |
| Complement.ResetRuleSkip | automata/apdc.py:85 | a pair with an ε move of P adds nothing |
| Complement.RowStep | automata/apdc.py:83 | one more stack symbol of a state's row |
| Complement.PairsStep | automata/apdc.py:82-83 | one more state's row of (state, symbol) pairs |
| Complement.Complement | automata/apdc.py:15-88 | the result has the states and finals of C, the initial state `(q0, 1)` or `(q0, 0)` as q0 is final or not, the alphabets of P (the initial stack symbol included) and exactly the table of the three rules; it is valid and deterministic; its `size()` is three times that of P; there is no result when P has no initial state |
| Complement.Covered | automata/apdc.py:60-86 | every key the rules produce is in the table |
| Complement.ComplementTableUnique | automata/apdc.py:60-86 | the three rules determine the table of C completely |
| Complement.ComplementNoConflict | automata/apdc.py:60-86 | C has no ε/symbol conflict when P has none |
| Complement.SymbolLookup | automata/apdc.py:60-65 | C reads a symbol from marker 1 or 2 exactly when P reads it, and moves to the marked target |
| Complement.LambdaLookup | automata/apdc.py:72-86 | C has an ε move from marker 1 or 0 exactly where P has one, and a reset from marker 0 exactly where P has none and the top is in the stack alphabet |
| Complement.ReplaceSameTop | automata/apdc.py:86 | pushing the top back keeps the stack |
| Complement.StepFromMarkerOne | automata/apdc.py:60-77 | from marker 1, C makes P's move, keeping marker 1 on ε and marking the target on a read |
| Complement.StepFromMarkerTwo | automata/apdc.py:60-65 | from marker 2, C follows only P's symbol reads |
| Complement.StepFromMarkerZero | automata/apdc.py:72-86 | from marker 0, C follows P's ε moves, and otherwise resets to marker 2 when rule (iii) applies |
| ComplementRuns.EpsFreeStep | automata/apd.py:88-126 | without ε moves every move reads one symbol |
| ComplementRuns.EpsFreeAccepts | automata/apd.py:128-175 | without ε moves, P accepts exactly when it reads the whole word and stops in a final state |
| ComplementRuns.ComplementFollows | automata/apdc.py:60-86 | every complement table of a deterministic P makes C follow P marker by marker |
| ComplementRuns.MarkedMoves | automata/apdc.py:60-86 | the moves of C from the three markers of a configuration of an ε-free P |
| ComplementRuns.ReadMove | automata/apdc.py:60-65 | when P reads a symbol, C reads it from markers 1 and 2 |
| ComplementRuns.ReadAllNext | automata/apd.py:106-115 | one unfolding of reading the whole word |
| ComplementRuns.FromMarkerTwo | automata/apdc.py:60-65 | from marker 2, C accepts exactly when P reads the rest of the word and C can reset at the end, or is already done |
| ComplementRuns.FromMarked | automata/apdc.py:15-88 | entering a state with its mark, C accepts exactly when P reads the whole word and stops in a non-final state where the reset applies |
| ComplementRuns.FromMarkerOne | automata/apdc.py:60-77 | from marker 1, the same |
| ComplementRuns.ReadOn | automata/apdc.py:60-65 | a read keeps C and P in step |
| ComplementRuns.FromMarkerZero | automata/apdc.py:82-86 | from marker 0, the same, through the reset move |
| ComplementRuns.ComplementOfEpsFree | automata/apdc.py:15-88 | with at least 2\|w\|+1 moves allowed: C accepts exactly when P reads the whole word and stops in a non-final state where the reset applies; P accepts exactly when it reads the word and stops in a final state; hence on those words C accepts exactly when P rejects |
| AnbnExample.BuildAnbn | test_pila_simple.py:12-27 | the builder calls of the test produce exactly the a^n b^n automaton |
| AnbnExample.AnbnStates | test_pila_simple.py:16-20 | registers the three states, `qf` final, `q0` initial, `Z` as initial stack symbol |
| AnbnExample.AnbnPushes | test_pila_simple.py:23-24 | the two push moves are accepted by the builder |
| AnbnExample.AnbnPops | test_pila_simple.py:25-26 | the two pop moves are accepted by the builder |
| AnbnExample.AnbnFinish | test_pila_simple.py:27 | the final ε move is accepted by the builder |
| AnbnExample.PushPhase | test_pila_simple.py:23-24 | reading the a's pushes one A per a |
| AnbnExample.PopPhase | test_pila_simple.py:25-27 | reading as many b's as A's pops back to Z and reaches `qf` |
| AnbnExample.AnbnAccepts | test_pila_simple.py:30-39 | every a^n b^n with n >= 1 is accepted within 2n + 1 moves |
| AnbnExample.AnbnRejectsEmpty | test_pila_simple.py:31 | the empty word is rejected for every number of moves |
| AnbnExample.AnbnRejectsA | test_pila_simple.py:35 | `a` is rejected |
| AnbnExample.AnbnRejectsB | test_pila_simple.py:36 | `b` is rejected |
| AnbnExample.AnbnRejectsAbb | test_pila_simple.py:37 | `abb` is rejected |
| AnbnExample.AnbnRejectsAab | test_pila_simple.py:38 | `aab` is rejected |
| AnbnExample.AnbnRejectsAbbTail | test_pila_simple.py:37 | after `ab`, the ε move reaches `qf` with a `b` still unread, and no move applies there |
| AnbnExample.AnbnRejectsAabTail | test_pila_simple.py:38 | after `aa`, the `b` pops one A and the run stops in `q1` with an A left on the stack |
| AnbnExample.AnbnAnswers | test_pila_simple.py:30-47 | for each word of the test, bounded acceptance holds exactly for `ab`, `aabb` and `aaabbb` |
| AnbnExample.AnbnAnswersYes | test_pila_simple.py:32-34 | `ab`, `aabb` and `aaabbb` are accepted within the bound `accepts` allows |
| AnbnExample.AnbnAnswersNo | test_pila_simple.py:31-38 | the five other words of the test are rejected for every number of moves |
| AnbnExample.CheckAnbnWord | test_pila_simple.py:42-43 | on the eight test words, `accepts` answers true exactly for `ab`, `aabb` and `aaabbb` |
| AnbnExample.AnbnScript | test_pila_simple.py:30-47 | the eight answers are the expected ones, in order |
| AnbComplementExample.BuildAnb | test_complemento.py:32-62 | the builder calls of the test produce the automaton with the fourteen moves, no ε move and stack alphabet {Z, A} |
| AnbComplementExample.AnbStatesBuilt | test_complemento.py:35-41 | registers the four states, `q2` final, `q0` initial, `Z` as initial stack symbol |
| AnbComplementExample.AnbDistinctKeys | test_complemento.py:44-62 | no two of the fourteen calls share a key |
| AnbComplementExample.AnbCallAlphabets | test_complemento.py:44-62 | the calls bring in the input symbols a, b and the stack symbols Z, A |
| AnbComplementExample.AnbCallsWithin | test_complemento.py:35-62 | every call goes between registered states, and no key is in the empty table |
| AnbComplementExample.AnbTableMoves | test_complemento.py:44-62 | the built table holds the fourteen moves |
| AnbComplementExample.ReadsToTheEnd | test_complemento.py:50-62 | on a word over {a, b}, P never gets stuck: it reads to the end and stops in the state the moves predict |
| AnbComplementExample.LandsFromTrap | test_complemento.py:58-62 | the trap state consumes everything and stays put |
| AnbComplementExample.LandsFromQ2 | test_complemento.py:53-56 | from `q2`, P stays in `q2` only on the empty rest |
| AnbComplementExample.LandsFromQ1 | test_complemento.py:45-48 | from `q1`, P stops in `q2` exactly on a's followed by one b |
| AnbComplementExample.AnbReadsAll | test_complemento.py:32-62 | P reads every word over {a, b} to the end, stops in `q2` exactly on the words of the language, and rule (iii) applies there |
| AnbComplementExample.LandsFromQ0 | test_complemento.py:32-62 | reading a word from `q0` ends in the state the language predicts |
| AnbComplementExample.AnbComplement | test_complemento.py:73-103 | on every word over {a, b}, P accepts exactly the words of the language and its complement accepts exactly the others |
| AnbComplementExample.ScriptWordsFacts | test_complemento.py:81-94 | the test's words are over {a, b}, and its expected P answers are membership in the language |
| AnbComplementExample.BuildBoth | test_complemento.py:32-73 | P is built as in the test and C is its complement as `crear_automata_complemento` builds it |
| AnbComplementExample.CheckWord | test_complemento.py:101-103 | `accepts` of P gives membership and `accepts` of C its negation |
| AnbComplementExample.ComplementScript | test_complemento.py:81-103 | the eleven answers of P and of C are the expected ones, in order |
| Script.AppliedLookup | automata/apd.py:67 | among calls with distinct keys, each call's move is in the table they build |
| Script.AddCalls | automata/apd.py:17-75 | a run of symbol moves with distinct, new keys between registered states is accepted call by call: the table is the old one with the calls applied in order, the alphabets grow by their symbols, nothing else changes and the invariant is kept |
| Script.CallSymbolsSnoc | automata/apd.py:69-75 | one more call adds its symbol, top and pushed characters to the alphabets |
| Script.BuildComplement | automata/apdc.py:15-88 | on a P with an initial state, C follows P marker by marker, starts in P's initial state with its mark, keeps the initial stack symbol and has three times P's states |
| AaBbComplementExample.AaBbStatesCount | test_complemento.py:155-160 | P has six states |
| AaBbComplementExample.AaBbDistinctKeys | test_complemento.py:165-183 | no two of the twelve calls share a key |
| AaBbComplementExample.AaBbCallAlphabets | test_complemento.py:165-183 | the calls bring in the input symbols a, b and no stack symbol but Z |
| AaBbComplementExample.AaBbCallsWithin | test_complemento.py:155-183 | every call goes between registered states, and no key is in the empty table |
| AaBbComplementExample.AaBbStatesBuilt | test_complemento.py:151-163 | registers the six states, `q2` and `q4` final, `q0` initial, `Z` as initial stack symbol |
| AaBbComplementExample.BuildAaBb | test_complemento.py:151-183 | the builder calls of the test produce the automaton with the twelve moves, no ε move, input alphabet {a, b} and stack alphabet {Z} |
| AaBbComplementExample.AaBbTableMoves | test_complemento.py:165-183 | the built table holds the twelve moves |
| AaBbComplementExample.StackStep | test_complemento.py:165-183 | with Z alone on the stack, P reads a or b to the next state and Z stays alone |
| AaBbComplementExample.ReadsToTheEnd | test_complemento.py:173-183 | on a word over {a, b}, P never gets stuck: it reads to the end and stops in the state the moves predict |
| AaBbComplementExample.LandsFromTrap | test_complemento.py:182-183 | the trap state consumes everything and stays put |
| AaBbComplementExample.LandsFromFinal | test_complemento.py:176-179 | from `q2` or `q4`, P stays in a final state only on the empty rest |
| AaBbComplementExample.LandsFromQ1 | test_complemento.py:167-174 | from `q1`, P stops in a final state exactly on one more a |
| AaBbComplementExample.LandsFromQ3 | test_complemento.py:170-175 | from `q3`, P stops in a final state exactly on one more b |
| AaBbComplementExample.LandsFromQ0 | test_complemento.py:138-183 | from `q0`, P stops in a final state exactly on `aa` and `bb` |
| AaBbComplementExample.AaBbReadsAll | test_complemento.py:151-183 | P reads every word over {a, b} to the end, stops in a final state exactly on `aa` and `bb`, and rule (iii) applies there |
| AaBbComplementExample.AaBbComplement | test_complemento.py:186-222 | on every word over {a, b}, P accepts exactly `aa` and `bb` and its complement accepts exactly the others |
| AaBbComplementExample.ScriptWordsFacts | test_complemento.py:196-207 | the test's words are over {a, b}, and its expected P answers are membership in { aa, bb } |
| AaBbComplementExample.BuildBoth | test_complemento.py:151-193 | P is built as in the test, C is its complement as `crear_automata_complemento` builds it, and C has 18 states, three times P's |
| AaBbComplementExample.CheckWord | test_complemento.py:212-213 | `accepts` of P gives membership and `accepts` of C its negation |
| AaBbComplementExample.ComplementScript | test_complemento.py:195-222 | the ten answers of P and of C are the expected ones, in order |

## Left out

- Input and stack symbols are single characters. The source accepts any
  string as a symbol. A pushed string is split into characters, so a
  multi-character stack top never matches a pushed symbol. But a
  multi-character initial stack symbol (`set_initial_stack_symbol("Z0")`)
  starts the stack as one element, and in the source it matches a
  transition whose top is that same string until it is popped. Such an
  initial stack symbol is not modelled.
- States are generic values with equality. In the two test automata they
  are a small datatype rather than the strings `"q0"`, `"q1"`, ...
  Normalising is modelled for automata with string states, as the
  `temp:` prefixes need.
- A state named `None` is not modelled. The optional initial state is an
  `Option`.
- Automaton.Dpda.Accepts: when there is no initial state it returns false
  at once. In the source the run then starts from `None`, which is not a
  state, so the answer is false too.
- Automaton.Dpda.RenameStateInTransitions: when two keys collapse into one,
  the source keeps the entry inserted later in the dictionary. A Dafny map
  keeps no insertion order, so the model leaves open which entry is kept.
  The table is determined exactly only when no keys collide. That is the
  only case `normalize_states` produces, and it is proved.
- Automaton.Dpda.RenameState: renaming an unknown state reports
  `ok == false` and changes nothing. The source raises a `KeyError` from
  `set.remove`.
- Complement.Complement: when P has no initial state there is no result.
  The source raises, because `(None, 0)` is not a state of C. The method
  requires the builder invariant of P, which every automaton built through
  the builder methods satisfies.
- Normalize.NormalizeStates: the renaming it returns is ghost. The source
  returns the automaton itself, and the renaming only states what happened
  to it. The method requires the builder invariant.
- ComplementRuns.ComplementOfEpsFree: Theorem 2.23 is proved at the level
  of runs only for automata P without ε moves, the shape of the complement
  tests. For general continuous automata, only the one-move correspondence
  is proved: Complement.StepFromMarkerOne, StepFromMarkerTwo,
  StepFromMarkerZero and ComplementRuns.ComplementFollows.
- Rule (iii) ranges over the stack alphabet as recorded, which lacks the
  initial stack symbol when `set_initial_stack_symbol` was never called.
  The model keeps this (`CanReset` asks for the top to be in that
  alphabet).
- `transitions_table`, `__str__` and the `tabulate` formatting are output
  only and are not modelled.
- The abstract base class machinery (`ABC`, `abstractmethod`) is not
  modelled. The single class merges the state registry of the base class
  with the transitions of the deterministic subclass and of the
  complement subclass.
- tlengrep.py, the command-line front end, is not part of this model.
- `test_parentesis` in test_pila_simple.py is not modelled. The printing
  and the exit codes of the test scripts are not modelled either.
- `test_apdc` in test_pila_simple.py only prints properties of an automaton
  equal to the a^n b^n one. Its determinism is covered by
  Automaton.Dpda.ValidIsDeterministic.
