# Verification of the incremental Datalog engine

This project models the Datalog engine of the repository (crate `datalog`), the quad store under it
(`dag_rdf/src/quadtable.rs`) and the compiler from class inclusions to rules (crate `eli`), and proves that
the engine keeps what it promises.

The engine orders rules into strata, materialises each stratum semi-naively while recording every rule
instance, and then keeps the closure up to date: facts are inserted and deleted, rules are added and
retracted, derivations that a new fact falsifies are withdrawn, large deletions fall back to a rebuild, and
a contradiction is rolled back. The simple thing all of this must agree with is *recompute the perfect model
from the asserted facts under the enabled rules*.

## How the proofs are organised

- `Syntax`, `Matching`, `Grounding`: quads, patterns, rules; matching; the ground instances (`Clause`) of a rule.
- `Clauses`: the meaning of ground rules. `Perfect` completes stratum after stratum, `Stable` mentions no
  strata; on stratified programs they are the same (`PerfectIsStable`), so algorithms are proved against the
  second and mean the first.
- `Maintenance`: why sweeping, inserting, retracting, deleting and appending end in the right model, on ground rules.
- `QuadTables`, `DerivedFrom`, `RuleIndex`, `Joins`, `Reasoner`, `Stratifier`, `Incremental`: the stateful
  parts, as classes with the source's fields, each method tied to a function of the old state.
- `States`, `Insertion`, `Undo`, `Negation`, `ReverseIndex`, `Rounds`, `Deletion`, `Retraction`,
  `Reactivation`, `Appending`, `Refusals`: the same operations on values (`Snapshot`: quads in order, asserted quads,
  records of each program). The methods of `IncrementalReasoner` ensure predicates of these modules.
- `Runs`: whole sequences of updates. `Evaluation`: from a rule list to the perfect model.
- `Unification`: the dependency test. `RuleSort`, `SortRun`, `Listings`, `Layers`: the sort into strata on
  values - its steps and invariants, the whole run as a function of the rules, the listings it gets right, and
  when rules can be layered at all. The class `Stratifier.RulePartitioner` is proved to compute that run.
- `Eli`, `EliRules`: the compiler of class inclusions. `Frozen`: exactly when it preserves meaning.
- `Limits`, `Misorderings`: small inputs for which a tempting stronger statement fails.

A state is *sound* (`Insertion.Sound`) when the enabled ground rules are stratified, the store is the stable -
hence perfect - model of its own asserted facts, no contradiction rule's body holds, every satisfied instance
is on record, and every record of a derived quad is a satisfied instance. It is *exact* when no record at all
is stale.

Conditions that the source does not establish are hypotheses of the theorems that need them, with a
counterexample beside each: strata in order, which the sort gives for rules listed bottom up
(`Misorderings.UnstratifiableAccepted`, `Misorderings.StratifiableRefused`, `Misorderings.RecursionSplit`,
`Misorderings.TailReleased`); heads that share no variable name with the body of another rule
(`Unification.SharedNameMisses`); head variables bound by positive atoms (`Limits.UnsafeRulePasses`); no rule
deriving an asserted fact, for deletion (`Limits.AssertedFactFalls`); one layer of negation, for deletion and
retraction (`Limits.TwoLayersDeletion`); the marks of NOT rules intact, for insertion
(`Limits.LostMarksInsertion`); no record about to be blocked, for a refused insertion to be genuine
(`Limits.FalseAlarm`); existentials that do not share a variable (`EliRules.NestedClash`).

For each of these failures the exact condition is proved as well: `RuleSort.ReleasesExact` for the strata,
`Unification.UnifiableExact` for the dependency test, `Limits.SafetyGap` for safety, `Deletion.DeletionExact`,
`Deletion.DeletionReachesPromise`, `Deletion.DeletionKeepsPromise` and `Deletion.DeletionRollback` for deletion,
`Retraction.RetractionExact` for retraction, `Rounds.PendingSound` and `Rounds.InsertionExact` for insertion,
`Frozen.EntailedPreserves` with `Frozen.NotEntailedLoses` for the compiler.

Errors are characterised as well as successes. A sweep fails exactly when the model it heads for is contradictory
(`States.SweepVerdict`), and the rule named in the error is one whose whole body holds there; so do insertions
(`Incremental.IncrementalReasoner.InsertForward`), deletions, retractions, rebuilds and rule insertions, each about
the model it heads for. That this is the model of the facts asked for is proved where it is true
(`Rounds.GrownIsModel`, `Deletion.RefusalGenuine`, `Retraction.RetractionGenuine`, `Refusals.RulesRefused`).

Where the documentation and the code differ, the code is followed: `apply_insertions` on a quad that is
already derived leaves it derived (`Insertion.AfterInsert`); a rule whose body has only NOT and inequality
atoms never fires (`Grounding.Triggerable`); resetting an index with its default value also forgets which
rules have NOT atoms (`IncrementalReasoner.NoMarks`).

## Model

| member | source | states |
|---|---|---|
| Clauses.PerfectIsStable | datalog/src/reasoner.rs:536-544 | completing one stratum after the other gives the one stable model of a stratified program, and conversely |
| Clauses.StableUnique | datalog/src/reasoner.rs:536-544 | a stratified program has one stable model per base, so "the right closure" is well defined |
| Clauses.StratumExtends | datalog/src/reasoner.rs:536-544 | completing a stratum over settled ones equals proving with all strata up to it |
| Clauses.LeastIsLeast | datalog/src/reasoner.rs:316-382 | what is derivable by height is the least set that contains the base and is closed under the rules |
| Matching.MatchExact | datalog/src/datalog.rs:122-157 | a quad matches a pattern under a substitution exactly when a unique minimal extension turns the pattern into the quad |
| Matching.ReplayExact | datalog/src/incremental.rs:1250-1260 | replaying the witnesses of a substitution atom by atom gives that substitution back |
| Matching.ReplaySound | datalog/src/incremental.rs:1250-1260 | whatever replaying yields is a substitution with exactly those witnesses |
| Grounding.Reconstructs | datalog/src/incremental.rs:1250-1260 | from a recorded derivation the substitution that made it is recovered |
| Grounding.InstanceUnique | datalog/src/types.rs:226-243 | rule id and witnesses determine the ground instance, so records and instances correspond one to one |
| QuadTables.QuadTable.AddQuad | dag_rdf/src/quadtable.rs:106-117 | appends a quad that is missing, changes nothing otherwise; all five indexes stay exact |
| QuadTables.QuadTable.AddIntensionalQuad | dag_rdf/src/quadtable.rs:508-514 | adds a derived quad; an asserted quad is never downgraded |
| QuadTables.QuadTable.MarkIntensional | dag_rdf/src/quadtable.rs:497-501 | marking a stored quad changes no flag, since an asserted quad stays asserted |
| QuadTables.QuadTable.RemoveQuad | dag_rdf/src/quadtable.rs:205-263 | swap-removal: the last quad takes the freed position, every index is exact again without empty buckets, the flag goes, a missing quad changes nothing |
| QuadTables.QuadTable.RemoveFromIndexes | dag_rdf/src/quadtable.rs:209-256 | dropping the removed and relocating the moved position leaves the four indexes exactly those of the new list |
| QuadTables.SwapRemoveElements | dag_rdf/src/quadtable.rs:205-263 | swap-removal from a duplicate-free list removes that one quad and nothing else |
| QuadTables.RemoveFlatIndexEntry | dag_rdf/src/quadtable.rs:128-141 | one position leaves its bucket, and the bucket goes with its last position |
| QuadTables.RemoveNestedIndexEntry | dag_rdf/src/quadtable.rs:146-158 | likewise for two-level indexes |
| QuadTables.RelocateFlatIndexEntry | dag_rdf/src/quadtable.rs:163-174 | one position is renamed in place in its bucket |
| QuadTables.RelocateNestedIndexEntry | dag_rdf/src/quadtable.rs:178-188 | likewise for two-level indexes |
| QuadTables.QuadTable.TruncateTo | dag_rdf/src/quadtable.rs:279-296 | cuts the list back to a prefix with indexes and flags following; a longer length changes nothing |
| QuadTables.QuadTable.RemoveGraph | dag_rdf/src/quadtable.rs:452-474 | removes exactly the quads of one graph, keeping the order of the others and their flags |
| QuadTables.QuadTable.ExtensionalQuads | dag_rdf/src/quadtable.rs:522-527 | lists every asserted quad once and no other |
| QuadTables.QuadTable.GetQuadsWithSubject | dag_rdf/src/quadtable.rs:299-309 | lists exactly the quads with that subject, once each, through the two-level index |
| QuadTables.QuadTable.GetQuadsWithObject | dag_rdf/src/quadtable.rs:312-319 | likewise by object |
| QuadTables.QuadTable.GetQuadsWithPredicate | dag_rdf/src/quadtable.rs:322-331 | likewise by predicate |
| QuadTables.QuadTable.GetGraph | dag_rdf/src/quadtable.rs:334-340 | likewise by graph |
| QuadTables.QuadTable.GetQuadsWithSubjectPredicate | dag_rdf/src/quadtable.rs:343-354 | likewise by subject and predicate |
| QuadTables.QuadTable.GetQuadsWithObjectPredicate | dag_rdf/src/quadtable.rs:357-368 | likewise by object and predicate |
| QuadTables.QuadTable.GetQuadsWithIdSubjectObject | dag_rdf/src/quadtable.rs:422-430 | likewise by graph, subject and object, through an index and a filter |
| Joins.Datastore.QuadsMatching | dag_rdf/src/datastore.rs:298-419 | every one of the sixteen index choices lists exactly the matching quads, once each |
| Joins.EvaluatePattern | datalog/src/datalog.rs:199-292 | the sixteen-way index dispatch equals filtering all quads by the pattern |
| Joins.EvaluatePositive | datalog/src/datalog.rs:296-316 | from a trigger, exactly the extensions under which every positive atom is stored, once each |
| Joins.Evaluate | datalog/src/datalog.rs:323-392 | of those, exactly the ones under which no choice for the other variables of a NOT atom is stored and values that an inequality atom compares differ, said atom by atom |
| Joins.BodyMeans | datalog/src/datalog.rs:323-392 | what the join filters by says the same as the atoms of the body read one by one |
| Grounding.GuardsExact | datalog/src/datalog.rs:367-377 | the guards pass if and only if the two sides of every inequality atom, where both are bound, have different values |
| Grounding.AdmitsExact | datalog/src/datalog.rs:367-377 | so a rule has exactly the instances whose values differ where it demands that |
| Grounding.BlockersExact | datalog/src/datalog.rs:386-389 | a quad blocks an instance if and only if some choice for the unbound variables of a NOT atom turns the atom into it |
| Joins.QueryExecutor.ExecuteBgp | dag_rdf/src/query.rs:125-180 | the same answer set as the engine's join from the empty substitution |
| Joins.QueryExecutor.BindVar | dag_rdf/src/query.rs:189-196 | binding a variable agrees with the engine's matching of that variable |
| Joins.AnswersCommute | dag_rdf/src/query.rs:125-180 | the answers do not depend on the order of the patterns |
| RuleIndex.WildcardQuadPattern | datalog/src/datalog.rs:57-88 | the keys of a quad are exactly its sixteen generalisations, once each |
| RuleIndex.BuildMaps | datalog/src/reasoner.rs:97-143 | every positive and NOT atom is filed under its key, and exactly the rules with a NOT atom are marked |
| RuleIndex.GetRulesForFact | datalog/src/reasoner.rs:199-207 | the key lookup finds exactly the enabled (rule, positive atom) pairs the fact matches, once each when no rule repeats an atom |
| RuleIndex.NegativelyTriggeredRules | datalog/src/reasoner.rs:214-225 | finds exactly the enabled NOT atoms filed under one of the fact's keys |
| RuleIndex.KeyFound | datalog/src/datalog.rs:39-88 | a pattern that matches a quad is filed under one of that quad's keys |
| DerivedFrom.DerivedFromIndex.Record | datalog/src/types.rs:226-243 | adds a derivation once, says whether it was new, and keeps the counts by rule exact |
| DerivedFrom.DerivedFromIndex.Unrecord | datalog/src/types.rs:253-287 | removes one derivation; quads without derivations and rules without quads disappear |
| DerivedFrom.DerivedFromIndex.Remove | datalog/src/types.rs:300-311 | removes every derivation of a quad and its counts |
| DerivedFrom.DerivedFromIndex.QuadsForRuleExact | datalog/src/types.rs:323-328 | for a marked rule the reverse index finds what scanning every record would |
| DerivedFrom.DerivedFromIndex.MarkNegativelyTriggering | datalog/src/types.rs:210-212 | marking before anything was recorded keeps the counts exact |
| DerivedFrom.CountsUnique | datalog/src/types.rs:158-183 | the reverse index is a function of the forward index and the marks, whatever the history |
| DerivedFrom.UnmarkedMisses | datalog/src/types.rs:226-243 | a recorded derivation is found by rule if and only if its rule is marked |
| DerivedFrom.UndoExact | datalog/src/incremental.rs:723-735 | unrecording a log, in the order it was made, restores the index exactly |
| Reasoner.DatalogProgram.New | datalog/src/reasoner.rs:97-143 | succeeds exactly when every rule passes the safety check - always if all head variables occur in positive atoms - and then indexes and marks are right |
| Reasoner.SafetyExact | datalog/src/datalog.rs:91-119 | the safety check refuses exactly the rules with a head variable that occurs in no atom of the body |
| Reasoner.RestrictedIsSafe | datalog/src/datalog.rs:91-119 | it never refuses a rule whose head variables occur in positive atoms, nor a contradiction rule |
| Reasoner.DatalogProgram.GetFacts | datalog/src/reasoner.rs:227-237 | the heads of the enabled body-less rules, or a contradiction rule that is one of them |
| Reasoner.DatalogProgram.MaterialiseDeltaIteration | datalog/src/reasoner.rs:316-382 | every instance over the old quads that uses the delta fires or is blocked, with its record; a contradiction names an enabled contradiction rule whose whole body holds |
| Reasoner.DatalogProgram.MaterialiseOneIterationTracked | datalog/src/reasoner.rs:277-292 | one iteration from a position leaves every instance over the earlier quads processed |
| Reasoner.DatalogProgram.RunToFixpoint | datalog/src/reasoner.rs:454-473 | the loop ends (the quads are finitely many) with every instance over the store processed |
| Reasoner.DatalogProgram.MaterialiseSeminaiveTracked | datalog/src/reasoner.rs:415-473 | a stratum's closure over the store: everything satisfied has fired and is on record, nothing unfounded was added, the log lists exactly the new records |
| Reasoner.DatalogProgram.MaterialiseSeminaiveTrackedFromFacts | datalog/src/reasoner.rs:496-524 | seeding with an explicit delta gives the same closure, whether or not the delta was stored already |
| Reasoner.FactsRunMaterialised | datalog/src/reasoner.rs:496-524 | a delta iteration and a fixpoint after it materialise the stratum when every unfired instance uses the delta |
| Seminaive.RunMaterialised | datalog/src/reasoner.rs:454-473 | processed to the end, an append-only justified run is a materialisation of its stratum |
| Unification.QuadPatternsUnifiable | datalog/src/unification.rs:19-65 | the in-place unification, with its two maps threaded through subject, predicate, object and graph, equals its pure form; `Unification.UnifiableExact` says what that answers |
| Unification.SharedInstance | datalog/src/unification.rs:58-65 | patterns without a common variable that share an instance are unifiable |
| Unification.SharedNameMisses | datalog/src/unification.rs:58-65 | with a shared name the test can miss a common instance |
| Unification.UnifiableExact | datalog/src/unification.rs:19-65 | the test fails exactly when two constants differ in place or some name, resolved through the aliases so far, meets two different constants |
| Unification.MissesExactly | datalog/src/unification.rs:58-65 | so for patterns with a common instance, whatever their variables, exactly that makes the test miss it |
| Unification.LinearUnifiable | datalog/src/unification.rs:58-65 | for patterns without repeated or common variables the answer is true if and only if there is a common instance |
| Unification.UnifiableWithoutInstance | datalog/src/unification.rs:58-65 | with repeated variables a true answer need not have one |
| Unification.SelfApartMeans | datalog/src/unification.rs:88-114 | a rule whose head, with fresh names, unifies with none of its own NOT atoms never blocks an instance of itself |
| Unification.OrdinarySelfApart | datalog/src/unification.rs:88-114 | every rule whose NOT atoms have other predicates than its head is of that kind |
| Unification.DependingRules | datalog/src/unification.rs:88-114 | one edge per rule the head can feed or block, in rule order, negative exactly when it can block |
| Unification.NoMissedDependency | datalog/src/unification.rs:88-114 | if a ground head occurs in a ground body, the dependency test finds the edge |
| Stratifier.RulePartitioner.UpdateSuccessor | datalog/src/stratifier.rs:122-147 | following an edge once keeps counters, queues, flags and levels right, and is one step of the run |
| RuleSort.NoUnderflow | datalog/src/stratifier.rs:128-135 | the branch for a counter that is already zero is never reached |
| Stratifier.RulePartitioner.GetPartition | datalog/src/stratifier.rs:149-159 | empties the ready queue as the run does; the stratum is exactly what was taken, each rule once |
| RuleSort.StuckUnbounded | datalog/src/stratifier.rs:182-237 | an empty queue with rules left implies unbounded paths among them, so the search finds a cycle |
| Stratifier.RulePartitioner.FindCycle | datalog/src/stratifier.rs:182-197 | what the search of the run finds: a path of unreleased rules, each feeding the next, whose last one feeds a rule of the path; or an error naming an unreleased rule that can block an unreleased one; or nothing is left |
| Stratifier.RulePartitioner.HandleCycle | datalog/src/stratifier.rs:239-249 | releases exactly the path found; afterwards some rule is ready or all are out |
| Stratifier.RulePartitioner.OrderRules | datalog/src/stratifier.rs:257-283 | computes the run; an Ok result lists each distinct rule once and is in order if and only if every release was right; for rules listed bottom up - recursion with stratified negation included, acyclic rules in any order - and for positive rules it never fails and is in order |
| RuleSort.ReleasesExact | datalog/src/stratifier.rs:239-249 | only the release of a cycle can put strata out of order, and it does exactly when a rule left at that time feeds a released rule from another stratum or can block it |
| SortRun.SortableExact | datalog/src/stratifier.rs:257-283 | the sort has one run, so whether it accepts a rule list is a function of the list |
| SortRun.DfsCloses | datalog/src/stratifier.rs:202-237 | the path a search returns is a walk along positive edges whose last rule leads back into it |
| Listings.PlansHandled | datalog/src/stratifier.rs:182-249 | for rules listed bottom up a blocked sort always finds a path inside the lowest component that is left, through its first rule, and meets no NOT edge |
| Listings.PlansFilled | datalog/src/stratifier.rs:149-159 | and the partition filled after that release completes the whole component |
| Listings.PlansRight | datalog/src/stratifier.rs:257-283 | so every release was right |
| Listings.AcyclicBottomUp | datalog/src/stratifier.rs:257-283 | acyclic rules are listed bottom up in any order |
| Listings.SuffixBottomUp | datalog/src/incremental.rs:366-385 | if the active rules followed by the new ones are listed bottom up, so are the new ones alone |
| Layers.LayerableExact | datalog/src/stratifier.rs:209-229 | rules can be layered if and only if no NOT edge lies on a cycle: exactly then a refusal is not genuine |
| Layers.InOrderLayers | datalog/src/stratifier.rs:257-283 | strata in order are layers, so rules that cannot be layered never get them |
| Layers.BottomUpLayers | datalog/src/stratifier.rs:257-283 | rules listed bottom up can be layered |
| Misorderings.UnstratifiableAccepted | datalog/src/stratifier.rs:202-237 | a rule set that no layers exist for is accepted: a positive cycle is released before the NOT edge is met |
| Misorderings.StratifiableRefused | datalog/src/stratifier.rs:220-233 | a rule set with two layers is refused, because a NOT edge between waiting rules counts even off any cycle |
| Misorderings.RecursionSplit | datalog/src/stratifier.rs:239-249 | two recursive rules for one class end in different strata, the earlier one missing what the later one derives |
| Misorderings.TailReleased | datalog/src/stratifier.rs:202-237 | a rule that only leads to a cycle is released with it, before a rule that can block it |
| Limits.RecursionStratifiable | datalog/src/stratifier.rs:257-283 | recursion with stratified negation over variables meets the hypothesis under which valid strata are guaranteed |
| Evaluation.StrataStratify | datalog/src/stratifier.rs:257-283 | ordered strata stratify the ground rules, if heads share no variable with bodies of other rules and no rule can block itself |
| Evaluation.PositiveStratify | datalog/src/stratifier.rs:71-84 | without NOT atoms the single stratum is always valid |
| Evaluation.EvaluateRules | datalog/src/reasoner.rs:536-544 | over valid strata - which positive rules and rules listed bottom up with names apart get - the store becomes the perfect model, and a contradiction is reported exactly when some contradiction rule's whole body holds in that model, such a rule being named; rules are refused as not stratifiable exactly when the sort refuses them, and never as unsafe if their head variables occur in positive atoms |
| Maintenance.StratumStep | datalog/src/incremental.rs:561-595 | sweeping one more stratum keeps completeness, records and foundedness |
| Maintenance.SweepEnd | datalog/src/incremental.rs:940-989 | a finished sweep ends in the stable model over the store it started from, without contradiction |
| Maintenance.RebuildConsistent | datalog/src/types.rs:226-243 | after materialising from empty records, a record exists exactly when its instance is satisfied |
| Maintenance.RemovalExact | datalog/src/incremental.rs:940-989 | delete and re-derive is right if and only if the sweep added nothing that blocks a kept record |
| Maintenance.RemovalConsistent | datalog/src/incremental.rs:940-989 | so with one layer of negation it always is |
| Maintenance.RefilledStands | datalog/src/incremental.rs:940-989 | what survives and the remaining rules lead to the model of the remaining asserted facts, if no kept record is blocked there |
| Maintenance.SurvivorsStand | datalog/src/incremental.rs:836-869 | what survives keeps a well-founded derivation: cyclic support keeps no quad alive |
| Maintenance.RankAdvances | datalog/src/incremental.rs:611-639 | each round of negation retraction settles one more stratum: blocked records of marked rules then lie in later strata only |
| Maintenance.RoundIsPending | datalog/src/incremental.rs:611-639 | a round removes the cascade of the blocked records it sees and re-derives, leaving at most blocks by what it derived and on unmarked rules |
| Maintenance.PendingDone | datalog/src/incremental.rs:611-639 | once the search finds nothing blocked, only records of unmarked rules can be |
| Maintenance.PendingExact | datalog/src/incremental.rs:611-639 | a state between rounds is consistent exactly when no record of a derived quad is blocked |
| Maintenance.AppendConsistent | datalog/src/incremental.rs:451-473 | strata appended on top, whose heads no older rule uses, extend the model by splitting |
| Maintenance.SplitModel | datalog/src/incremental.rs:337-364 | if no old rule uses a new head, the model of old and new rules over a consistent store is their model over its asserted facts |
| Maintenance.InsertedConsistent | datalog/src/incremental.rs:403-449 | so does a rule enabled again in its old place, by running its own program only |
| States.ConsistentIsPerfect | datalog/src/incremental.rs:62-77 | a consistent store is the perfect model of its asserted facts, and no contradiction body holds |
| States.PathIndependent | datalog/src/incremental.rs:773-787 | two consistent states with the same asserted facts and rules hold the same quads |
| States.SeedsRedundant | datalog/src/reasoner.rs:461-463 | facts of body-less rules, which are stored as asserted, change nothing about the model |
| States.SweepVerdict | datalog/src/incremental.rs:971-987 | over valid strata a sweep fails if and only if the perfect model of what it starts with is contradictory, and names a rule that this model violates |
| States.ContradictionStays | datalog/src/reasoner.rs:335-346 | a contradiction met in stratum i is one of the perfect model |
| Insertion.ForwardEnd | datalog/src/incremental.rs:561-595 | after the forward sweep of an insertion only records blocked by new facts are wrong |
| Undo.UndoRestores | datalog/src/incremental.rs:723-735 | unrecording the logs and cutting the list restores quads, order, flags and records |
| Undo.RollbackExact | datalog/src/incremental.rs:1007-1035 | putting deleted and dropped quads back restores the store exactly when all were there and no asserted one was dropped |
| Negation.ReconstructSubstitution | datalog/src/incremental.rs:1250-1260 | the loop over the body is the replay of the witnesses |
| Negation.ProgramSeeds | datalog/src/incremental.rs:661-684 | indexed search finds exactly the quads with an enabled, marked derivation that the fact falsifies; with intact marks, all of them |
| Negation.SeedExact | datalog/src/incremental.rs:661-684 | indexed invalidation equals the brute-force description |
| Negation.MissedUnguarded | datalog/src/incremental.rs:661-684 | with every NOT rule marked the search misses no instance that can be blocked |
| ReverseIndex.Search | datalog/src/incremental.rs:694-713 | the worklist ends with everything whose recorded derivations trace back to the seeds, asserted quads spared or not as asked |
| ReverseIndex.CascadeMinimal | datalog/src/incremental.rs:836-853 | the cascade is the least set closed under recorded derivations |
| Rounds.RoundNext | datalog/src/incremental.rs:611-639 | one round from a state with r strata settled gives a state with r + 1 |
| Rounds.RoundIdles | datalog/src/incremental.rs:611-639 | once every stratum is settled a round derives nothing, so the loop stops |
| Rounds.PendingSound | datalog/src/incremental.rs:611-639 | the same for snapshots of all programs |
| Rounds.InsertionExact | datalog/src/incremental.rs:561-595 | the forward sweep alone reaches the model of everything stored and the inserts, and is sound if and only if, in the state before, no record of a derived quad is blocked in that model |
| Rounds.ForwardVerdict | datalog/src/incremental.rs:561-595 | the forward sweep stops exactly on a contradiction of everything stored and the inserts |
| Rounds.GrownIsModel | datalog/src/incremental.rs:561-595 | if no record is going to be blocked, that is the model of the old and the inserted asserted facts |
| Rounds.PositiveUnblocked | datalog/src/incremental.rs:561-595 | without NOT atoms no record ever is |
| Rounds.RoundFromSound | datalog/src/incremental.rs:611-639 | from a sound state a round removes nothing, derives nothing and cannot fail |
| Rounds.NoContradictionMissed | datalog/src/incremental.rs:561-595 | with the marks intact a contradiction of the new model is never missed |
| Incremental.IncrementalReasoner.New | datalog/src/incremental.rs:62-77 | from asserted facts, a state with exact records whose marks are intact, sound when the strata are valid - which they are for positive rules and for rules listed bottom up with names apart; over valid strata it reports a contradiction exactly when the perfect model is contradictory |
| Incremental.IncrementalReasoner.ApplyInsertions | datalog/src/incremental.rs:561-595 | from any sound state, whatever the marks: an Ok insertion ends sound if and only if no record of a derived quad is blocked at the end; with every NOT rule marked it always does, in the perfect model of old and inserted facts; with none marked exactly when no record of the state before is blocked in what the sweep reaches; it fails and leaves everything as it was when everything stored and the inserts lead to a contradiction; if no record is going to be blocked - always so without NOT atoms - it fails exactly when the model of old and inserted facts is contradictory |
| Incremental.IncrementalReasoner.InsertForward | datalog/src/incremental.rs:561-595 | the forward sweep with its exact rollback: from a sound state it fails if and only if the model of everything stored and the inserts is contradictory |
| Incremental.IncrementalReasoner.RetractNegationInvalidated | datalog/src/incremental.rs:611-639 | ends after at most one round more than there are strata, with nothing blocked that a marked rule derived, sound exactly when nothing recorded is blocked, and always so with the marks intact; it fails only on a rule that the store left behind violates, and never without NOT atoms, without marks or from a sound state |
| Incremental.IncrementalReasoner.NegationInvalidatedSeeds | datalog/src/incremental.rs:661-684 | exactly the quads with a derivation by an enabled, marked rule of any program that one of the facts falsifies |
| Incremental.IncrementalReasoner.CascadePd | datalog/src/incremental.rs:694-713 | the cascade of the seeds over all programs, asserted quads excepted |
| Incremental.IncrementalReasoner.UndoInsertions | datalog/src/incremental.rs:723-735 | undoes runs of the first programs and everything appended |
| Incremental.IncrementalReasoner.RebuildFromBase | datalog/src/incremental.rs:773-787 | Ok: sound and exact over the same asserted facts, retracted rules staying retracted; the marks are gone; over valid strata it fails exactly when the model of those facts is contradictory |
| Incremental.IncrementalReasoner.BuildReverseIndex | datalog/src/incremental.rs:857-869 | under each quad exactly the heads of records it witnesses |
| Incremental.IncrementalReasoner.BackwardPhase | datalog/src/incremental.rs:836-853 | exactly the quads with a recorded derivation from the deleted ones, directly or not |
| Incremental.IncrementalReasoner.ApplyDeletions | datalog/src/incremental.rs:90-120 | the outcome on both branches of the threshold: a rebuild, or the model that the sweep reaches over the quads left - right exactly when no kept record will be blocked and it contains the other asserted facts - or, exactly when that model is contradictory, a rollback |
| Incremental.IncrementalReasoner.ForwardPhase | datalog/src/incremental.rs:940-989 | removes the possibly-deleted quads and sweeps; exactly when what the sweep heads for is contradictory, restores them |
| Incremental.IncrementalReasoner.FullRematerialise | datalog/src/incremental.rs:1043-1074 | the fallback is a rebuild over the remaining asserted facts |
| Incremental.IncrementalReasoner.UndoDeletions | datalog/src/incremental.rs:1007-1035 | records restored exactly, dropped quads back as derived, deleted ones as asserted |
| Incremental.IncrementalReasoner.BackwardPhaseFromRuleRemoval | datalog/src/incremental.rs:897-927 | exactly what the targets derived with what depends on it, asserted quads excepted |
| Incremental.IncrementalReasoner.ApplyRuleDeletions | datalog/src/incremental.rs:151-198 | asserted quads stay on every path, rule ids stay, Ok ends in what the remaining rules reach, which is right exactly when no kept record will be blocked, or rebuilt; an error means exactly that this is contradictory, and restores records, flags and rules |
| Incremental.IncrementalReasoner.ForwardPhaseRules | datalog/src/incremental.rs:1082-1121 | sweeps with the targets disabled, or, exactly on a contradiction of what the sweep heads for, restores and enables them again |
| Incremental.IncrementalReasoner.FullRematerialiseRules | datalog/src/incremental.rs:1187-1231 | the fallback rebuilds, or restores every copy and enables the targets again |
| Incremental.IncrementalReasoner.UndoRuleDeletions | datalog/src/incremental.rs:1128-1156 | the undo log, then the targets enabled again |
| Incremental.IncrementalReasoner.ClassifyRules | datalog/src/incremental.rs:284-313 | requested rules are sorted into already active, to reactivate and new, each once |
| Incremental.IncrementalReasoner.CheckRules | datalog/src/incremental.rs:315-385 | nothing changes; rules are accepted if and only if no other active rule depends on an incoming head and the sort accepts the active rules in program order followed by the new ones, and the new ones alone; the sort never refuses positive rules, nor rules listed bottom up with names apart |
| Incremental.IncrementalReasoner.ApplyRuleInsertions | datalog/src/incremental.rs:275-473 | Ok: exactly the requested rules are active beside the old ones, and the store is the perfect model of old and new rules; once accepted it fails exactly when that model is contradictory; any error leaves store, records, programs and disabled rules as they were |
| Incremental.IncrementalReasoner.UndoRuleInsertions | datalog/src/incremental.rs:482-500 | runs unrecorded, list cut, appended programs dropped, reactivated rules disabled again |
| Deletion.DeletionIsRecomputation | datalog/src/incremental.rs:90-120 | on both branches, deletion equals recomputing the model of the old asserted facts minus the deleted ones |
| Deletion.DeletionExact | datalog/src/incremental.rs:940-989 | whatever the layers of negation, the incremental branch is right if and only if no kept record will be blocked, a condition on the state before |
| Deletion.AssertedKept | datalog/src/incremental.rs:841-851 | the other asserted facts stay asserted if and only if none of them is possibly deleted |
| Deletion.DeletionReachesPromise | datalog/src/incremental.rs:940-989 | the incremental branch is right over the old asserted facts minus the deleted ones if and only if no kept record will be blocked and the sweep reaches those facts |
| Deletion.DeletionKeepsPromise | datalog/src/incremental.rs:940-989 | without body-less rules it is right over them and keeps them asserted if and only if no kept record will be blocked and none of them is possibly deleted |
| Deletion.DeletionRollback | datalog/src/incremental.rs:1007-1035 | a failed incremental deletion restores quads and flags exactly when the deleted quads were asserted or possibly deleted and no asserted quad was possibly deleted |
| Deletion.RefilledIsModel | datalog/src/incremental.rs:940-989 | if no kept record will be blocked, the sweep of a deletion heads for the model of the asserted facts that are left |
| Deletion.RefusalGenuine | datalog/src/incremental.rs:90-120 | with one layer of negation and no rule deriving an asserted fact, a deletion is refused, on either branch, exactly when the model of the other asserted facts is contradictory |
| Deletion.DeletionNeverRefused | datalog/src/incremental.rs:90-120 | without NOT atoms a deletion from a sound state is never refused |
| Deletion.ThresholdExact | datalog/src/incremental.rs:108 | the comparison in whole numbers is that of the quotient with 0.25 |
| Retraction.RetractionIsRecomputation | datalog/src/incremental.rs:151-198 | retraction equals recomputing the model of the asserted facts under the remaining rules |
| Retraction.RetractionExact | datalog/src/incremental.rs:1082-1121 | whatever the layers of negation, an incremental retraction is right if and only if no record it keeps will be blocked, a condition on the state before |
| Retraction.RetractionGenuine | datalog/src/incremental.rs:151-198 | with one layer of negation a retraction is refused, on either branch, exactly when the model under the remaining rules is contradictory |
| Retraction.RetractionNeverRefused | datalog/src/incremental.rs:151-198 | without NOT atoms a retraction from a sound state is never refused |
| Retraction.RuleFalloutStored | datalog/src/incremental.rs:897-927 | what a retraction removes was stored, so a rollback restores the quad set |
| Reactivation.ReactivatedSound | datalog/src/incremental.rs:403-449 | enabling a rule and running its program makes the state sound for the rules with it |
| Reactivation.FedNeverStops | datalog/src/incremental.rs:403-449 | feeding what it derived through the later programs cannot meet a contradiction |
| Appending.DownstreamUnconsumed | datalog/src/incremental.rs:337-364 | if the check passes, no enabled ground rule uses a head that comes in |
| Appending.AppendedStratified | datalog/src/incremental.rs:366-385 | old strata followed by valid fresh strata are a valid stratification |
| Appending.RulesInsertedSound | datalog/src/incremental.rs:275-473 | accepted rules keep the state sound for old and new rules together |
| Refusals.RulesRefused | datalog/src/incremental.rs:403-473 | whatever stops an accepted insertion, in a rule that comes back or in a fresh stratum, the model of old and new rules violates it |
| Refusals.IncomingUnconsumed | datalog/src/incremental.rs:337-364 | no enabled ground rule of an old program uses a ground head of another rule that comes in |
| Appending.RequestedAreActive | datalog/src/incremental.rs:284-313 | afterwards a rule is active exactly when it was before or was requested |
| Appending.FailedUndone | datalog/src/incremental.rs:482-500 | undoing a failed insertion gives the state before, reactivations included |
| Runs.RunAgrees | datalog/src/incremental.rs:90-198 | along any run of Ok updates the state agrees with a machine that only keeps asserted facts and retracted rules |
| Runs.RunModel | datalog/src/incremental.rs:561-595 | the final store is the perfect model of the final asserted facts under the rules that are left |
| Runs.PositiveRunModel | datalog/src/incremental.rs:773-787 | for positive rules nothing is asked but that no fact of the run is derived |
| Runs.RunOrderIrrelevant | datalog/src/incremental.rs:90-198 | neither order nor path of the updates shows in the final store |
| Limits.SafetyGap | datalog/src/datalog.rs:91-119 | a rule that passes the safety check has a match that yields no head, where the engine panics, if and only if it can be matched and has a head variable under NOT or inequality only |
| Limits.UnsafeRulePasses | datalog/src/datalog.rs:91-119 | such a rule exists, with the match that yields no head |
| Limits.TwoLayersFail | datalog/src/incremental.rs:940-989 | with two layers of negation removing and sweeping can end in no model |
| Limits.TwoLayersDeletion | datalog/src/incremental.rs:940-989 | a deletion of one fact under two real rules, from a sound state with exact records, that succeeds and ends in no model |
| Limits.AssertedFactFalls | datalog/src/incremental.rs:841-851 | the cascade of a deletion takes an asserted quad that is derived as well |
| Limits.LostMarksMiss | datalog/src/incremental.rs:780-782 | after a reset the search for falsified derivations finds nothing |
| Limits.LostMarksInsertion | datalog/src/incremental.rs:561-595 | on the sound, exact state that a rebuild of one NOT rule leaves, an insertion is accepted and ends unsound |
| Limits.FalseAlarm | datalog/src/incremental.rs:561-595 | a refusal need not be genuine: an insertion whose facts have a model without contradiction is refused, because a quad that it falsifies is still there |
| Eli.ExtractMeans | eli/src/extractor.rs:28-44 | an extracted concept has the same instances as its class expression |
| Eli.SubClassMeans | eli/src/extractor.rs:56-99 | distributing unions, also out of existentials, keeps the instances |
| Eli.SuperClassMeans | eli/src/extractor.rs:102-112 | the extracted classes together are the super-class |
| Eli.SubClassExtracts | eli/src/extractor.rs:28-99 | every disjunct of a sub-class is extracted if and only if it is built from names, intersections, existentials and cardinality one, with unions only at the top, directly below each other, or directly below one quantifier there |
| Eli.AxiomExtracts | eli/src/extractor.rs:377-392 | an axiom takes the direct path if and only if its sub-class has that shape and its super-class is built from names and intersections |
| Eli.ExtractionPreserves | eli/src/extractor.rs:377-392 | the extracted inclusion holds in the same interpretations as the axiom |
| EliRules.GenerateAxiomRules | eli/src/eli2rl.rs:593-604 | one rule for every disjunct and every conjunct |
| EliRules.TranslationSound | eli/src/eli2rl.rs:390-417 | an assignment that satisfies the body shows an instance of the concept |
| EliRules.TranslationComplete | eli/src/eli2rl.rs:390-417 | an instance gives an assignment, if no two existentials share a variable |
| EliRules.RoleAtom | eli/src/eli2rl.rs:125-145 | a role atom with swapped ends says what the inverse role says |
| EliRules.RuleMeans | eli/src/eli2rl.rs:419-431 | a rule holds exactly when its concept is included in its class |
| EliRules.CompilationPreserves | eli/src/eli2rl.rs:591-604 | an interpretation satisfies the axiom if and only if it satisfies every generated rule |
| EliRules.CompilationSound | eli/src/eli2rl.rs:591-604 | without any condition, the rules are never stronger than the axiom |
| EliRules.NotNestedApart | eli/src/eli2rl.rs:402-414 | without directly nested intersections every existential gets a variable of its own |
| EliRules.FlatCompilationPreserves | eli/src/extractor.rs:377-392 | so for such class expressions compilation preserves meaning |
| EliRules.NestedClash | eli/src/eli2rl.rs:402-414 | with nested intersections two fillers can share a variable and the rules are too weak |
| EliRules.SafeIff | eli/src/eli2rl.rs:390-431 | the generated rule can be materialised exactly when the concept says something about the variable itself |
| EliRules.MaterialisedSatisfies | eli/src/lib.rs:21-25 | a consistent store in which the compiled rules are enabled is a model of the axiom, if no two existentials share a variable |
| Frozen.EntailedPreserves | eli/src/eli2rl.rs:591-604 | if the rules derive each inclusion on the tree that its concept describes, compilation preserves meaning in every interpretation, shared variables or not |
| Frozen.NotEntailedLoses | eli/src/eli2rl.rs:591-604 | and if they do not, some interpretation satisfies the rules and violates the axiom |
| Frozen.ApartEntailed | eli/src/eli2rl.rs:402-414 | variables that serve once meet the condition |
| Frozen.MapsToRoot | eli/src/eli2rl.rs:390-431 | for one rule and a class its body does not name, the condition is that the compiled body maps into the tree with the rule's variable at the root |
| Frozen.SharedHarmless | eli/src/eli2rl.rs:402-414 | a nested intersection whose existentials share a variable and that still compiles to an equivalent rule |
| Frozen.StageImage | eli/src/eli2rl.rs:419-431 | an instance in a model of the rules carries an image of the tree with everything the rules derive on it |
| Frozen.MaterialisedEntailed | eli/src/lib.rs:21-25 | under the exact condition the materialised store is a model of the axiom |

## Left out

- SPARQL filter atoms in rule bodies: they are evaluated by a crate that is not part of this model.
- Interning of resources: quads, classes and properties are named by their 32-bit identifiers.
- The order in which hash maps and sets are iterated: results are stated as sets, or by nondeterministic choice.
- Capacity hints, cloning cost, the datastore's generation counter, logging, and the counts the mutators return.
- Adding a single rule to a program (`add_rule`), and seed-fact and single-iteration entry points that only wrap the modelled ones.
- Retracting a body-less rule: its head lives on as an asserted fact, so the retraction theorems ask that retracted rules have bodies.
- Rounding in the 25% threshold: the quotient is that of real numbers (`Deletion.ThresholdExact`).
- Incremental.IncrementalReasoner.New: asks that rules passing the safety check bind their head variables positively, because for the others materialisation indexes a missing binding and panics (`Limits.SafetyGap`); the same holds for EvaluateRules and ApplyRuleInsertions.
- Reasoner.DatalogProgram.GetFacts: asks the same of the program's rules, because for the others the source panics.
- Reasoner.DatalogProgram.MaterialiseDeltaIteration: asks the same of the program's rules, because for the others the source panics.
- Reasoner.DatalogProgram.MaterialiseOneIterationTracked: asks the same of the program's rules, because for the others the source panics.
- Reasoner.DatalogProgram.RunToFixpoint: asks the same of the program's rules, because for the others the source panics.
- Reasoner.DatalogProgram.MaterialiseSeminaiveTracked: asks the same of the program's rules, because for the others the source panics.
- Reasoner.DatalogProgram.MaterialiseSeminaiveTrackedFromFacts: asks the same of the program's rules, because for the others the source panics.
- Stratifier.RulePartitioner.OrderRules: the exact condition for strata in order is on the releases of the run, and being listed bottom up, the condition on the input, is sufficient only.
- Runs.RunModel: adding rules is not among the updates of a run, because rules retracted before fresh ones were appended may later come back below their producers.
- Incremental.IncrementalReasoner.RetractNegationInvalidated: a failure is tied to the store it leaves behind, not to a model of the facts, because a round may meet quads that a later round would have withdrawn.
- Structural normalisation of axioms that do not extract directly: representative names come from the length of a debug string, so distinct concepts can collide.
- Property chains inside restrictions, has-value heads and the normalised rule forms of the compiler.
- Parsers, loaders, command line, output formats, notebook protocol and SPARQL evaluation beyond basic graph patterns.
