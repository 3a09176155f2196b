/** Whole runs: any sequence of successful updates of a reasoner ends in the model it should. */
module Runs {
  import opened Syntax
  import opened Clauses
  import opened Grounding
  import opened DerivedFrom
  import opened Seminaive
  import opened Maintenance
  import opened Reasoner
  import opened States
  import opened Insertion
  import opened Negation
  import opened Deletion
  import opened Retraction

  datatype Update =
    | InsertFacts(facts: seq<Quad>)
    | DeleteFacts(facts: seq<Quad>)
    | RetractRules(rules: seq<Rule>)
    | RebuildAll

  /** A reasoner with its store; `marked` says that the reverse index covers every rule with a NOT atom. */
  datatype State = State(progs: seq<Prog>, now: Snapshot, marked: bool)

  ghost predicate Formed(s: State) {
    Layered(s.progs) && WellFormed(s.progs, s.now)
  }

  /** One successful update, as far as the operations promise: the step relation of a run. */
  ghost predicate Updated(s: State, u: Update, t: State) {
    Formed(s) && Formed(t) &&
    match u
    case InsertFacts(facts) =>
      s.marked && Sound(s.progs, s.now) ==>
        t.progs == s.progs && t.marked && Sound(t.progs, t.now) && OnlySeeded(t.progs, AfterInsert(s.now, Elements(facts)), t.now.ext)
    case DeleteFacts(facts) =>
      && t.progs == s.progs && DeletionResult(s.progs, Ok, s.now, Elements(facts), t.now)
      && (KeepsMarks(s, FallsBack(TotalDerived(s.now.indexes), |PossiblyDeleted(s.progs, s.now, Elements(facts))|)) ==> t.marked)
    case RetractRules(rules) =>
      exists targets :: AreTargets(s.progs, rules, targets) && Retracted(s, Elements(targets), t)
    case RebuildAll =>
      && t.progs == s.progs && Rebuilt(s.progs, Ok, s.now.ext, t.now)
      && (NegationFree(s.progs) ==> t.marked)
  }

  /** Marks survive unless everything is rebuilt - and without NOT atoms there is nothing to mark. */
  ghost predicate KeepsMarks(s: State, rebuilt: bool) {
    s.marked && (rebuilt ==> NegationFree(s.progs))
  }

  ghost predicate Retracted(s: State, targets: set<Target>, t: State)
    requires |s.now.indexes| == |s.progs|
  {
    && RetractionResult(s.progs, Ok, s.now, targets, t.progs, t.now)
    && (KeepsMarks(s, RetractionFallsBack(s, targets)) ==> t.marked)
  }

  ghost predicate RetractionFallsBack(s: State, targets: set<Target>)
    requires |s.now.indexes| == |s.progs|
  {
    FallsBack(TotalDerived(s.now.indexes), |RuleFallout(s.progs, s.now, targets)|)
  }

  // ---- The operations are steps ----

  lemma InsertionIsUpdate(s: State, facts: seq<Quad>, t: State)
    requires Formed(s) && Formed(t) && t.progs == s.progs && t.marked && Sound(t.progs, t.now)
    requires OnlySeeded(t.progs, AfterInsert(s.now, Elements(facts)), t.now.ext)
    ensures Updated(s, InsertFacts(facts), t)
  {
    hide Formed, Sound, OnlySeeded, AfterInsert;
  }

  lemma DeletionIsUpdate(s: State, r: Outcome, facts: seq<Quad>, t: State)
    requires Formed(s) && Formed(t) && t.progs == s.progs && r.Ok? && DeletionResult(s.progs, r, s.now, Elements(facts), t.now)
    requires KeepsMarks(s, FallsBack(TotalDerived(s.now.indexes), |PossiblyDeleted(s.progs, s.now, Elements(facts))|)) ==> t.marked
    ensures Updated(s, DeleteFacts(facts), t)
  {
    hide Formed, DeletionResult, KeepsMarks;
  }

  lemma RetractionIsUpdate(s: State, r: Outcome, rules: seq<Rule>, targets: seq<Target>, t: State)
    requires Formed(s) && Formed(t) && r.Ok? && AreTargets(s.progs, rules, targets)
    requires RetractionResult(s.progs, r, s.now, Elements(targets), t.progs, t.now)
    requires KeepsMarks(s, RetractionFallsBack(s, Elements(targets))) ==> t.marked
    ensures Updated(s, RetractRules(rules), t)
  {
    hide Layered, RetractionResult, KeepsMarks, AreTargets, RetractionFallsBack;
    assert Retracted(s, Elements(targets), t);
  }

  lemma RebuiltIsUpdate(s: State, r: Outcome, t: State)
    requires Formed(s) && Formed(t) && r.Ok? && t.progs == s.progs && Rebuilt(s.progs, r, s.now.ext, t.now)
    requires NegationFree(s.progs) ==> t.marked
    ensures Updated(s, RebuildAll, t)
  {
    hide Formed, Rebuilt, NegationFree;
  }

  lemma MarksKept(s: State, targets: set<Target>)
    requires |s.now.indexes| == |s.progs|
    ensures KeepsMarks(s, RetractionFallsBack(s, targets)) <==>
            s.marked && (FallsBack(TotalDerived(s.now.indexes), |RuleFallout(s.progs, s.now, targets)|) ==> NegationFree(s.progs))
  {
    hide FallsBack, NegationFree, RuleFallout;
  }

  lemma MarksKeptIs(s: State)
    ensures KeepsMarks(s, false) <==> s.marked
    ensures KeepsMarks(s, true) <==> s.marked && NegationFree(s.progs)
  {
  }

  // ---- The simple machine ----

  /** The asserted facts after one update. */
  ghost function FactsAfter(facts: set<Quad>, u: Update): set<Quad> {
    match u
    case InsertFacts(qs) => facts + Elements(qs)
    case DeleteFacts(qs) => facts - Elements(qs)
    case _ => facts
  }

  ghost function FinalFacts(facts: set<Quad>, us: seq<Update>): set<Quad> {
    if us == [] then facts else FactsAfter(FinalFacts(facts, us[..|us| - 1]), us[|us| - 1])
  }

  /** The rules retracted at some time. */
  ghost function GoneRules(us: seq<Update>): set<Rule> {
    set u, r | u in us && u.RetractRules? && r in u.rules :: r
  }

  /** Every fact that is asserted at some time. */
  ghost function EverAsserted(facts: set<Quad>, us: seq<Update>): set<Quad> {
    facts + set u, q | u in us && u.InsertFacts? && q in u.facts :: q
  }

  /** The programs with every occurrence of the given rules disabled. */
  ghost function Without(progs: seq<Prog>, gone: set<Rule>): (r: seq<Prog>)
    ensures |r| == |progs|
  {
    seq(|progs|, i requires 0 <= i < |progs| => progs[i].(disabled := progs[i].disabled + Occurrences(progs[i].rules, gone)))
  }

  ghost function Occurrences(rules: seq<Rule>, gone: set<Rule>): set<nat> {
    set rid: nat | rid < |rules| && rules[rid] in gone
  }

  lemma WithoutTwice(progs: seq<Prog>, a: set<Rule>, b: set<Rule>)
    ensures Without(Without(progs, a), b) == Without(progs, a + b)
    ensures Without(progs, {}) == progs
  {
    forall i | 0 <= i < |progs| ensures Without(Without(progs, a), b)[i] == Without(progs, a + b)[i] && Without(progs, {})[i] == progs[i] {
      assert Occurrences(progs[i].rules, a + b) == Occurrences(progs[i].rules, a) + Occurrences(progs[i].rules, b);
      assert Occurrences(progs[i].rules, {}) == {};
    }
  }

  /** Disabling the targets of a retraction disables the rules. */
  lemma TargetsAreRules(progs: seq<Prog>, rules: seq<Rule>, targets: seq<Target>)
    requires AreTargets(progs, rules, targets)
    ensures Disabling(progs, Elements(targets)) == Without(progs, Elements(rules))
  {
    var ts, gone := Elements(targets), Elements(rules);
    forall i | 0 <= i < |progs| ensures Disabling(progs, ts)[i] == Without(progs, gone)[i] {
      forall rid: nat ensures rid in IdsOf(ts, i) <==> rid in Occurrences(progs[i].rules, gone) && rid !in progs[i].disabled {
        var t: Target := (i, rid);
        assert t in targets <==> IsTarget(progs, rules, t);
        if rid in IdsOf(ts, i) {
          var u :| u in ts && u.0 == i && u.1 == rid;
          assert u == t;
        } else {
          assert t !in ts;
        }
      }
      assert progs[i].disabled + IdsOf(ts, i) == progs[i].disabled + Occurrences(progs[i].rules, gone);
    }
  }

  // ---- What a run keeps ----

  /** The programs with every rule enabled. */
  ghost function AllOn(progs: seq<Prog>): (r: seq<Prog>)
    ensures |r| == |progs|
  {
    seq(|progs|, i requires 0 <= i < |progs| => progs[i].(disabled := {}))
  }

  /** No rule, retracted or not, derives one of the facts. */
  ghost predicate NeverDerived(progs: seq<Prog>, facts: set<Quad>) {
    HeadsDisjointFrom(AllEnabled(AllOn(progs)), facts)
  }

  ghost predicate HaveBodies(progs: seq<Prog>) {
    forall i, r | 0 <= i < |progs| && r in progs[i].rules :: !IsFact(r)
  }

  lemma EnabledOn(progs: seq<Prog>, indexes: seq<Index>)
    requires |indexes| == |progs|
    ensures AllEnabled(progs) <= AllEnabled(AllOn(progs)) && AllRecorded(progs, indexes) <= AllEnabled(AllOn(progs))
  {
    forall c | c in AllRecorded(progs, indexes) ensures c in AllEnabled(AllOn(progs)) {
      assert AllOn(progs)[c.prog].rules == progs[c.prog].rules;
    }
  }

  lemma BodylessInstance(rule: Rule, c: Clause)
    requires IsInstance(rule, c)
    ensures c.pos == [] ==> IsFact(rule)
  {
    if c.pos == [] {
      FactInstance(rule, c);
    }
  }

  lemma HaveBodiesPos(progs: seq<Prog>)
    requires HaveBodies(progs)
    ensures NoBodyless(progs) && forall c | c in AllEnabled(progs) :: c.pos != []
  {
    forall i, c | 0 <= i < |progs| && c in Enabled(progs[i]) ensures c.pos != [] {
      assert progs[i].rules[c.rid] in progs[i].rules;
      BodylessInstance(progs[i].rules[c.rid], c);
    }
  }

  /** The rules never change, only which of them are enabled. */
  ghost predicate SameRules(progs: seq<Prog>, progs': seq<Prog>) {
    |progs'| == |progs| && forall i | 0 <= i < |progs| :: progs'[i].rules == progs[i].rules && progs'[i].stratum == progs[i].stratum
  }

  lemma SameRulesKept(progs: seq<Prog>, progs': seq<Prog>, facts: set<Quad>)
    requires SameRules(progs, progs')
    ensures NeverDerived(progs, facts) <==> NeverDerived(progs', facts)
    ensures HaveBodies(progs) <==> HaveBodies(progs')
    ensures NegationFree(progs) <==> NegationFree(progs')
  {
    assert AllOn(progs) == AllOn(progs');
    if HaveBodies(progs) || HaveBodies(progs') {
      assert forall i | 0 <= i < |progs| :: progs'[i].rules == progs[i].rules;
    }
  }

  /** The programs do not derive the facts of the run, have bodies, and need one layer of negation at most. */
  ghost predicate Suited(progs: seq<Prog>, facts: set<Quad>) {
    NeverDerived(progs, facts) && HaveBodies(progs) && OneLayerRules(progs)
  }

  lemma FewerSuited(progs: seq<Prog>, gone: set<Rule>, facts: set<Quad>)
    requires Suited(progs, facts)
    ensures Suited(Without(progs, gone), facts)
  {
    var progs' := Without(progs, gone);
    SameRulesKept(progs, progs', facts);
    var t :| OneLayer(AllEnabled(progs), t);
    forall c | c in AllEnabled(progs') ensures c in AllEnabled(progs) {
    }
    assert OneLayer(AllEnabled(progs'), t);
  }

  /** A run so far: the state is sound, with exact records, and its asserted facts are those expected. */
  ghost predicate Agrees(s: State, progs: seq<Prog>, facts: set<Quad>) {
    s.progs == progs && s.now.ext == facts && Sound(progs, s.now) && ExactState(progs, s.now)
  }

  /** When no fact of the run is derived, records in a sound state are exact. */
  lemma SoundIsExact(progs: seq<Prog>, z: Snapshot, facts: set<Quad>)
    requires Sound(progs, z) && NeverDerived(progs, facts) && z.ext <= facts
    ensures ExactState(progs, z)
  {
    EnabledOn(progs, z.indexes);
    DisjointIsExact(AllEnabled(progs), z.ext, z.Stored(), AllRecorded(progs, z.indexes));
  }

  lemma SeedsNothing(progs: seq<Prog>, ext0: set<Quad>, ext: set<Quad>)
    requires HaveBodies(progs) && OnlySeeded(progs, ext0, ext)
    ensures ext == ext0
  {
    HaveBodiesPos(progs);
    forall q | q in ext ensures q in ext0 {
      assert !SomeFactHead(progs, q);
    }
  }

  /** A fact that no rule derives is stored only if it is asserted. */
  lemma StoredIsAsserted(progs: seq<Prog>, z: Snapshot, facts: set<Quad>, q: Quad)
    requires Sound(progs, z) && NeverDerived(progs, facts) && HaveBodies(progs) && |z.indexes| == |progs|
    requires q in facts && q in z.Stored()
    ensures q in z.ext
  {
    if q !in z.ext {
      LeastOrigin(AllEnabled(progs), z.ext, z.Stored(), q);
      var c :| c in AllEnabled(progs) && c.head == Some(q);
      EnabledOn(progs, z.indexes);
      HaveBodiesPos(progs);
    }
  }

  lemma InsertStep(s: State, qs: seq<Quad>, t: State, facts: set<Quad>)
    requires Updated(s, InsertFacts(qs), t) && Suited(s.progs, facts) && s.marked
    requires Agrees(s, s.progs, s.now.ext) && s.now.ext + Elements(qs) <= facts
    ensures Agrees(t, s.progs, s.now.ext + Elements(qs)) && t.marked
  {
    forall q | q in Elements(qs) && q in s.now.Stored() ensures q in s.now.ext {
      StoredIsAsserted(s.progs, s.now, facts, q);
    }
    assert AfterInsert(s.now, Elements(qs)) == s.now.ext + Elements(qs);
    SeedsNothing(t.progs, s.now.ext + Elements(qs), t.now.ext);
    SoundIsExact(t.progs, t.now, facts);
  }

  lemma DeleteStep(s: State, qs: seq<Quad>, t: State, facts: set<Quad>)
    requires Updated(s, DeleteFacts(qs), t) && Suited(s.progs, facts)
    requires Agrees(s, s.progs, s.now.ext) && s.now.ext <= facts
    ensures Agrees(t, s.progs, s.now.ext - Elements(qs)) && (s.marked && NegationFree(s.progs) ==> t.marked)
  {
    EnabledOn(s.progs, s.now.indexes);
    DeletionIsRecomputation(s.progs, s.now, Elements(qs), t.now);
    SeedsNothing(t.progs, s.now.ext - Elements(qs), t.now.ext);
  }

  lemma RetractStep(s: State, rules: seq<Rule>, t: State, facts: set<Quad>)
    requires Updated(s, RetractRules(rules), t) && Suited(s.progs, facts)
    requires Agrees(s, s.progs, s.now.ext) && s.now.ext <= facts
    ensures Agrees(t, Without(s.progs, Elements(rules)), s.now.ext) && (s.marked && NegationFree(s.progs) ==> t.marked)
  {
    var targets :| AreTargets(s.progs, rules, targets) && Retracted(s, Elements(targets), t);
    TargetsAreRules(s.progs, rules, targets);
    FewerSuited(s.progs, Elements(rules), facts);
    forall u: Target | u in Elements(targets)
      ensures u.0 < |s.progs| && u.1 < |s.progs[u.0].rules| && !IsFact(s.progs[u.0].rules[u.1])
    {
      assert IsTarget(s.progs, rules, u);
    }
    assert WithBodies(s.progs, Elements(targets));
    SeedsNothing(t.progs, s.now.ext, t.now.ext);
    SoundIsExact(t.progs, t.now, facts);
  }

  lemma RebuildStep(s: State, t: State, facts: set<Quad>)
    requires Updated(s, RebuildAll, t) && Suited(s.progs, facts)
    requires Agrees(s, s.progs, s.now.ext) && s.now.ext <= facts
    ensures Agrees(t, s.progs, s.now.ext) && (NegationFree(s.progs) ==> t.marked)
  {
    SeedsNothing(t.progs, s.now.ext, t.now.ext);
  }

  /** A run: each state comes from the one before by the update of that position. */
  ghost predicate IsRun(states: seq<State>, us: seq<Update>) {
    |states| == |us| + 1 && forall k | 0 <= k < |us| :: Updated(states[k], us[k], states[k + 1])
  }

  /** Whenever facts are inserted the marks are there. */
  ghost predicate MarkedWhenInserting(states: seq<State>, us: seq<Update>) {
    |states| == |us| + 1 && forall k | 0 <= k < |us| && us[k].InsertFacts? :: states[k].marked
  }

  lemma RunStep(s: State, u: Update, t: State, progs: seq<Prog>, gone: set<Rule>, facts: set<Quad>, all: set<Quad>)
    requires Updated(s, u, t) && Suited(progs, all) && Agrees(s, Without(progs, gone), facts)
    requires facts <= all && (u.InsertFacts? ==> s.marked && Elements(u.facts) <= all)
    ensures Agrees(t, Without(progs, gone + (if u.RetractRules? then Elements(u.rules) else {})), FactsAfter(facts, u))
    ensures s.marked && NegationFree(progs) ==> t.marked
  {
    FewerSuited(progs, gone, all);
    SameRulesKept(progs, Without(progs, gone), all);
    match u
    case InsertFacts(qs) =>
      InsertStep(s, qs, t, all);
      assert gone + {} == gone;
    case DeleteFacts(qs) =>
      DeleteStep(s, qs, t, all);
      assert gone + {} == gone;
    case RetractRules(rules) =>
      RetractStep(s, rules, t, all);
      WithoutTwice(progs, gone, Elements(rules));
    case RebuildAll =>
      RebuildStep(s, t, all);
      assert gone + {} == gone;
  }

  lemma UpdatesSplit(facts: set<Quad>, us: seq<Update>)
    requires us != []
    ensures var u, rest := us[|us| - 1], us[..|us| - 1];
            && GoneRules(us) == GoneRules(rest) + (if u.RetractRules? then Elements(u.rules) else {})
            && EverAsserted(facts, us) == EverAsserted(facts, rest) + (if u.InsertFacts? then Elements(u.facts) else {})
  {
    var u, rest := us[|us| - 1], us[..|us| - 1];
    assert us == rest + [u];
  }

  lemma {:induction false} FactsAsserted(facts: set<Quad>, us: seq<Update>)
    ensures FinalFacts(facts, us) <= EverAsserted(facts, us)
  {
    if us != [] {
      FactsAsserted(facts, us[..|us| - 1]);
      UpdatesSplit(facts, us);
    }
  }

  /**
   * Along a run the state always agrees with the simple machine, which only keeps the asserted facts and
   * the retracted rules.
   */
  lemma {:induction false} RunAgrees(states: seq<State>, us: seq<Update>)
    requires |states| == |us| + 1 && IsRun(states, us) && MarkedWhenInserting(states, us)
    requires Suited(states[0].progs, EverAsserted(states[0].now.ext, us))
    requires Agrees(states[0], states[0].progs, states[0].now.ext)
    ensures Agrees(states[|us|], Without(states[0].progs, GoneRules(us)), FinalFacts(states[0].now.ext, us))
    ensures states[0].marked && NegationFree(states[0].progs) ==> states[|us|].marked
  {
    hide *;
    var progs, facts := states[0].progs, states[0].now.ext;
    if us == [] {
      WithoutTwice(progs, {}, {});
      NothingYet(facts, us);
    } else {
      var n := |us| - 1;
      RunSplits(states, us);
      UpdatesSplit(facts, us);
      FewerFacts(progs, EverAsserted(facts, us[..n]), EverAsserted(facts, us));
      RunAgrees(states[..|us|], us[..n]);
      FactsAsserted(facts, us[..n]);
      RunStep(states[n], us[n], states[n + 1], progs, GoneRules(us[..n]), FinalFacts(facts, us[..n]), EverAsserted(facts, us));
      LastFacts(facts, us);
    }
  }

  lemma NothingYet(facts: set<Quad>, us: seq<Update>)
    requires us == []
    ensures GoneRules(us) == {} && FinalFacts(facts, us) == facts
  {
  }

  lemma LastFacts(facts: set<Quad>, us: seq<Update>)
    requires us != []
    ensures FinalFacts(facts, us) == FactsAfter(FinalFacts(facts, us[..|us| - 1]), us[|us| - 1])
  {
  }

  lemma RunSplitsAt(states: seq<State>, us: seq<Update>)
    requires us != [] && IsRun(states, us)
    ensures |states| == |us| + 1
    ensures var n := |us| - 1;
            && IsRun(states[..|us|], us[..n]) && Updated(states[n], us[n], states[n + 1])
            && states[..|us|][0] == states[0] && states[..|us|][n] == states[n]
  {
    hide Updated;
    assert forall k | 0 <= k < |us| - 1 :: us[..|us| - 1][k] == us[k] && states[..|us|][k] == states[k];
  }

  lemma RunSplits(states: seq<State>, us: seq<Update>)
    requires us != [] && IsRun(states, us) && MarkedWhenInserting(states, us)
    ensures |states| == |us| + 1
    ensures var n := |us| - 1;
            && IsRun(states[..|us|], us[..n]) && MarkedWhenInserting(states[..|us|], us[..n])
            && Updated(states[n], us[n], states[n + 1]) && (us[n].InsertFacts? ==> states[n].marked)
            && states[..|us|][0] == states[0] && states[..|us|][n] == states[n]
  {
    RunSplitsAt(states, us);
    hide Updated, IsRun;
    assert forall k | 0 <= k < |us| - 1 :: us[..|us| - 1][k] == us[k] && states[..|us|][k] == states[k];
  }

  lemma FewerFacts(progs: seq<Prog>, fewer: set<Quad>, all: set<Quad>)
    requires Suited(progs, all) && fewer <= all
    ensures Suited(progs, fewer)
  {
  }

  /**
   * Whole-run agreement: after any sequence of successful insertions, deletions, retractions and rebuilds
   * the store is the perfect model of the final asserted facts under the rules that are left.
   */
  lemma RunModel(states: seq<State>, us: seq<Update>)
    requires IsRun(states, us) && MarkedWhenInserting(states, us) && Formed(states[0])
    requires Suited(states[0].progs, EverAsserted(states[0].now.ext, us))
    requires Sound(states[0].progs, states[0].now)
    ensures states[|us|].now.Stored() ==
            Perfect(AllEnabled(Without(states[0].progs, GoneRules(us))), FinalFacts(states[0].now.ext, us), |states[0].progs|)
  {
    SoundIsExact(states[0].progs, states[0].now, EverAsserted(states[0].now.ext, us));
    RunAgrees(states, us);
    ConsistentIsPerfect(Without(states[0].progs, GoneRules(us)), states[|us|].now);
  }

  /** Without NOT atoms the marks never matter, so they need not be asked for. */
  lemma {:induction false} PositiveStaysMarked(states: seq<State>, us: seq<Update>)
    requires |states| == |us| + 1 && IsRun(states, us) && states[0].marked && NegationFree(states[0].progs)
    requires Suited(states[0].progs, EverAsserted(states[0].now.ext, us))
    requires Agrees(states[0], states[0].progs, states[0].now.ext)
    ensures MarkedWhenInserting(states, us)
  {
    hide *;
    if us == [] {
      NothingInserted(states, us);
    } else {
      var n := |us| - 1;
      RunSplitsAt(states, us);
      UpdatesSplit(states[0].now.ext, us);
      FewerFacts(states[0].progs, EverAsserted(states[0].now.ext, us[..n]), EverAsserted(states[0].now.ext, us));
      PositiveStaysMarked(states[..|us|], us[..n]);
      RunAgrees(states[..|us|], us[..n]);
      MarkedNext(states, us);
    }
  }

  lemma NothingInserted(states: seq<State>, us: seq<Update>)
    requires us == [] && |states| == 1
    ensures MarkedWhenInserting(states, us)
  {
  }

  lemma MarkedNext(states: seq<State>, us: seq<Update>)
    requires us != [] && |states| == |us| + 1 && MarkedWhenInserting(states[..|us|], us[..|us| - 1]) && states[|us| - 1].marked
    ensures MarkedWhenInserting(states, us)
  {
    assert forall k | 0 <= k < |us| - 1 :: us[..|us| - 1][k] == us[k] && states[..|us|][k] == states[k];
  }

  lemma PositiveOneLayer(progs: seq<Prog>)
    requires NegationFree(progs)
    ensures OneLayerRules(progs)
  {
    forall c | c in AllEnabled(progs) ensures c.neg == {} {
      assert progs[c.prog].rules[c.rid] in progs[c.prog].rules;
      assert Negatives(progs[c.prog].rules[c.rid].body) == [];
    }
    assert OneLayer(AllEnabled(progs), {});
  }

  /** For positive rules no more is asked than that no fact of the run can be derived. */
  lemma PositiveRunModel(states: seq<State>, us: seq<Update>)
    requires IsRun(states, us) && Formed(states[0]) && Sound(states[0].progs, states[0].now) && states[0].marked
    requires NegationFree(states[0].progs) && HaveBodies(states[0].progs)
    requires NeverDerived(states[0].progs, EverAsserted(states[0].now.ext, us))
    ensures states[|us|].now.Stored() ==
            Perfect(AllEnabled(Without(states[0].progs, GoneRules(us))), FinalFacts(states[0].now.ext, us), |states[0].progs|)
  {
    PositiveOneLayer(states[0].progs);
    SoundIsExact(states[0].progs, states[0].now, EverAsserted(states[0].now.ext, us));
    PositiveStaysMarked(states, us);
    RunModel(states, us);
  }

  /**
   * So neither the order of the updates nor the path they took shows in the store: it depends on the final
   * asserted facts and the rules that are left.
   */
  lemma RunOrderIrrelevant(states: seq<State>, us: seq<Update>, states': seq<State>, us': seq<Update>)
    requires IsRun(states, us) && MarkedWhenInserting(states, us) && IsRun(states', us') && MarkedWhenInserting(states', us')
    requires Formed(states[0]) && Formed(states'[0]) && states'[0].progs == states[0].progs
    requires Suited(states[0].progs, EverAsserted(states[0].now.ext, us))
    requires Suited(states'[0].progs, EverAsserted(states'[0].now.ext, us'))
    requires Sound(states[0].progs, states[0].now) && Sound(states'[0].progs, states'[0].now)
    requires FinalFacts(states[0].now.ext, us) == FinalFacts(states'[0].now.ext, us') && GoneRules(us) == GoneRules(us')
    ensures states[|us|].now.Stored() == states'[|us'|].now.Stored()
  {
    RunModel(states, us);
    RunModel(states', us');
  }
}
