/** From rules to strata to the perfect model. */
module Evaluation {
  import opened Syntax
  import opened Matching
  import opened Clauses
  import opened Grounding
  import opened QuadTables
  import opened DerivedFrom
  import opened RuleIndex
  import opened Seminaive
  import opened Maintenance
  import opened Reasoner
  import opened States
  import opened Unification
  import opened RuleSort
  import opened SortRun
  import opened Listings
  import opened Stratifier

  /** One program per stratum, nothing disabled. */
  ghost function ProgsOf(strata: seq<seq<Rule>>): (progs: seq<Prog>)
    ensures |progs| == |strata| && forall i | 0 <= i < |strata| :: progs[i] == Prog(i, strata[i], {})
  {
    seq(|strata|, i requires 0 <= i < |strata| => Prog(i, strata[i], {}))
  }

  /**
   * No head shares a variable name with the body of another rule, and no rule can block itself.  A head
   * may share names with its own body, as it has to in every rule that can be materialised.
   */
  ghost predicate AllRenamedApart(rules: seq<Rule>) {
    && (forall a, b | a in rules && b in rules && a != b && a.head.NormalHead? :: RenamedApart(a.head.pattern, b))
    && (forall a | a in rules :: SelfApart(a))
  }

  /**
   * Strata in order of the dependency edges stratify the ground rules, if variables are renamed apart: no
   * dependency between ground rules of different rules lacks an edge.
   */
  lemma StrataStratify(rules: seq<Rule>, strata: seq<seq<Rule>>)
    requires OnceEach(rules, strata) && StrataInOrder(strata, {}) && AllRenamedApart(rules)
    ensures Stratified(AllEnabled(ProgsOf(strata)))
  {
    var progs := ProgsOf(strata);
    forall c, d | c in AllEnabled(progs) && d in AllEnabled(progs) && c.head.Some?
      ensures c.head.value in d.pos ==> c.prog <= d.prog
      ensures c.head.value in d.neg ==> c.prog < d.prog
    {
      var a, b := strata[c.prog][c.rid], strata[d.prog][d.rid];
      assert a in strata[c.prog] && b in strata[d.prog];
      assert InSome(strata, a) && InSome(strata, b);
      assert IsInstance(a, c) && IsInstance(b, d);
      hide AllEnabled, Enabled, IsInstance, RenamedApart, SelfApart, CanFeed, CanBlock, StrataInOrder;
      HeadInstance(a, c);
      if a == b {
        SelfApartMeans(a, c, d);
      } else {
        NoMissedDependency(a, b, c, d);
        PairInOrder(strata, c.prog, d.prog, a, b);
      }
    }
  }

  lemma PairInOrder(strata: seq<seq<Rule>>, k: nat, l: nat, a: Rule, b: Rule)
    requires StrataInOrder(strata, {}) && k < |strata| && l < |strata|
    requires a in strata[k] && b in strata[l] && a.head.NormalHead?
    ensures CanFeed(a.head.pattern, b) ==> k <= l
    ensures CanBlock(a.head.pattern, b) ==> k < l
  {
    assert a in strata[k] && b in strata[l];
    var broken: set<Rule> := {};
    assert b !in broken;
  }

  /** Without NOT atoms nothing is asked of names: one stratum is always right. */
  lemma PositiveStratify(rules: seq<Rule>, strata: seq<seq<Rule>>)
    requires PurePositive(rules) && strata == (if rules == [] then [] else [rules])
    ensures Stratified(AllEnabled(ProgsOf(strata)))
  {
    var progs := ProgsOf(strata);
    forall d | d in AllEnabled(progs) ensures d.neg == {} && d.prog == 0 {
      assert strata[d.prog][d.rid] in rules;
      NoNegatives(strata[d.prog][d.rid], d);
    }
  }

  /**
   * Rules that are certain to be stratified well: no NOT, or listed bottom up with variables renamed apart.
   * Acyclic rules are listed bottom up in any order, and recursion with stratified negation may be.
   */
  ghost predicate Stratifiable(rules: seq<Rule>) {
    PurePositive(rules) || (BottomUp(Deduped(rules)) && AllRenamedApart(rules))
  }

  lemma SamePositive(rules: seq<Rule>)
    ensures PurePositive(rules) <==> PurePositive(Deduped(rules))
  {
    DedupedNoDup(rules);
    forall r ensures r in rules <==> r in Deduped(rules) {
      assert r in Elements(rules) <==> r in Elements(Deduped(rules));
    }
  }

  /** What the stratifier gives for a rule list. */
  lemma StratifiedWell(rules: seq<Rule>, strata: seq<seq<Rule>>)
    requires OnceEach(Deduped(rules), strata) && Stratifiable(rules) && StrataInOrder(strata, {})
    requires PurePositive(Deduped(rules)) ==> strata == if Deduped(rules) == [] then [] else [Deduped(rules)]
    ensures Stratified(AllEnabled(ProgsOf(strata)))
  {
    SamePositive(rules);
    if PurePositive(rules) {
      PositiveStratify(Deduped(rules), strata);
    } else {
      DedupedNoDup(rules);
      SameRules(Deduped(rules), rules, strata);
      StrataStratify(rules, strata);
    }
  }

  lemma NoNegatives(rule: Rule, d: Clause)
    requires IsInstance(rule, d) && forall p :: NotPattern(p) !in rule.body
    ensures d.neg == {}
  {
    var s :| Admits(rule, s) && d == ClauseFor(d.prog, d.rid, rule, s);
    forall q | q in d.neg ensures false {
      var p :| p in Negatives(rule.body) && GetSubstitutions(s, q, p).Some?;
      NegativesContain(rule.body, p);
    }
  }

  // ---- The evaluation loop ----

  /** The first `i` strata have been materialised, each from an empty index. */
  ghost predicate Evaluated(progs: seq<Prog>, i: nat, a: Snapshot, b: Snapshot, tracked: seq<seq<Entry>>) {
    && SweptSoFar(progs, i, a, b, tracked)
    && AllRecorded(progs, a.indexes) == iset{}
    && (forall k | i <= k < |progs| :: b.indexes[k] == map[])
  }

  ghost predicate EmptyIndexes(progs: seq<Prog>, a: Snapshot) {
    |a.indexes| == |progs| && forall i | 0 <= i < |progs| :: a.indexes[i] == map[]
  }

  lemma EvaluatedStart(progs: seq<Prog>, a: Snapshot)
    requires NoDup(a.list) && a.ext <= a.Stored() && EmptyIndexes(progs, a)
    ensures WellFormed(progs, a) && Evaluated(progs, 0, a, a, [])
  {
    SweptSoFarStart(progs, a);
  }

  /** The outcome of materialising the strata in order from the quads `s0`. */
  ghost predicate EvaluationResult(progs: seq<Prog>, r: Outcome, s0: set<Quad>, s: set<Quad>) {
    Layered(progs) && Stratified(AllEnabled(progs)) ==>
      && (r.Ok? ==> s == Perfect(AllEnabled(progs), s0, |progs|))
      && Verdict(progs, r, Perfect(AllEnabled(progs), s0, |progs|))
  }

  lemma EvaluatedOn(progs: seq<Prog>, i: nat, a: Snapshot, b: Snapshot, tracked: seq<seq<Entry>>, r: Outcome, c: Snapshot, log: seq<Entry>)
    requires Layered(progs) && i < |progs| && Evaluated(progs, i, a, b, tracked)
    requires RanProgram(progs, i, r, b, c, log)
    ensures r.Ok? ==> Evaluated(progs, i + 1, a, c, tracked + [log])
    ensures r.Err? ==> EvaluationResult(progs, r, a.Stored(), c.Stored())
  {
    SweptSoFarOn(progs, i, a, b, tracked, r, c, log);
    if r.Err? && Stratified(AllEnabled(progs)) {
      SweepVerdict(progs, r, a, c, tracked + [log]);
    }
  }

  lemma EvaluatedEnd(progs: seq<Prog>, a: Snapshot, b: Snapshot, tracked: seq<seq<Entry>>)
    requires Evaluated(progs, |progs|, a, b, tracked)
    ensures EvaluationResult(progs, Ok, a.Stored(), b.Stored())
  {
    if Layered(progs) && Stratified(AllEnabled(progs)) {
      SweptSoFarEnd(progs, a, b, tracked);
      SweepVerdict(progs, Ok, a, b, tracked);
    }
  }

  /** Rules that pass the safety check can be materialised. */
  ghost predicate SafeMeansRestricted(rules: seq<Rule>) {
    forall r | r in rules && IsSafeRule(r) :: RangeRestricted(r)
  }

  lemma StratumRestricted(rules: seq<Rule>, strata: seq<seq<Rule>>, k: nat)
    requires OnceEach(rules, strata) && k < |strata| && SafeMeansRestricted(rules)
    requires forall r | r in strata[k] :: IsSafeRule(r)
    ensures AllRestricted(strata[k])
  {
    forall r | r in strata[k] ensures RangeRestricted(r) {
      assert InSome(strata, r);
    }
  }

  /** A fresh program materialised on its own is a run of its stratum. */
  lemma FreshRun(progs: seq<Prog>, i: nat, r: Outcome, a: Snapshot, list: seq<Quad>, ext: set<Quad>, index': Index) returns (log: seq<Entry>)
    requires i < |progs| && |a.indexes| == |progs| && a.indexes[i] == map[]
    requires exists track :: RanFrom(progs[i], a.list, a.ext, map[], list, ext, index', track)
    requires r.Ok? ==> Materialised(Enabled(progs[i]), a.Stored(), Recorded(progs[i], map[]), Elements(list), Recorded(progs[i], index'))
    requires r.Err? ==> r.error.ContradictionFound? && Contradicted(progs[i], Elements(list), r.error.rule)
    ensures RanProgram(progs, i, r, a, Snapshot(list, ext, a.indexes[i := index']), log)
  {
    log :| RanFrom(progs[i], a.list, a.ext, map[], list, ext, index', log);
  }

  /** Build and materialise the program of one stratum. */
  method EvaluateStratum(table: QuadTable, ghost rules: seq<Rule>, strata: seq<seq<Rule>>, k: nat, ghost a: Snapshot)
    returns (r: Outcome, ghost b: Snapshot, ghost log: seq<Entry>)
    requires table.Valid() && OnceEach(rules, strata) && k < |strata| && SafeMeansRestricted(rules)
    requires a.list == table.quadList && a.ext == table.Extensional() && |a.indexes| == |strata| && a.indexes[k] == map[]
    modifies table
    ensures table.Valid()
    ensures b.list == table.quadList && b.ext == table.Extensional()
    ensures r.Err? && r.error.UnsafeRule? ==> r.error.rule in strata[k] && !IsSafeRule(r.error.rule)
    ensures r.Err? ==> r.error.ContradictionFound? || r.error.UnsafeRule?
    ensures r.Ok? || r.error.ContradictionFound? ==> AllRestricted(strata[k]) && RanProgram(ProgsOf(strata), k, r, a, b, log)
  {
    hide QuadTable.Valid, RanFrom, Materialised, Contradicted, Enabled, Recorded, DerivedFromIndex.Valid, DatalogProgram.Valid, IsSafeRule, OnceEach, SafeMeansRestricted, AllRestricted, RanProgram;
    b, log := a, [];
    var program;
    r, program := DatalogProgram.New(k, strata[k]);
    if r.Err? {
      return;
    }
    StratumRestricted(rules, strata, k);
    assert program.Value() == ProgsOf(strata)[k];
    r := program.MaterialiseSeminaive(table);
    ghost var index' := program.derivedFrom.index;
    b := Snapshot(table.quadList, table.Extensional(), a.indexes[k := index']);
    log := FreshRun(ProgsOf(strata), k, r, a, table.quadList, table.Extensional(), index');
  }

  lemma SameRules(distinct: seq<Rule>, rules: seq<Rule>, strata: seq<seq<Rule>>)
    requires Elements(distinct) == Elements(rules) && OnceEach(distinct, strata)
    ensures OnceEach(rules, strata)
  {
    forall r ensures r in distinct <==> r in rules {
      assert r in Elements(distinct) <==> r in Elements(rules);
    }
  }

  /** The outcome is an error exactly when the run of the sort is refused. */
  lemma SortDecides(rules: seq<Rule>, s0: Sort, r: Outcome, strata: seq<seq<Rule>>, run: Ordering)
    requires PurePositive(rules) ==> r.Ok?
    requires !PurePositive(rules) ==> Starts(rules, s0) && |s0.ordered| == |rules| && SortedAs(rules, s0, r, strata, run)
    ensures r.Ok? <==> Sortable(rules)
  {
    hide Starts, PurePositive, Order, StrataInOrder, ReleasesRight, NegativeEdgeFrom, Acyclic;
    if PurePositive(rules) {
      PositiveSortable(rules);
    } else {
      SortableExact(rules, s0);
    }
  }

  lemma PositiveSortable(rules: seq<Rule>)
    requires PurePositive(rules)
    ensures Sortable(rules)
  {
  }

  /** Order a rule list into strata. */
  method Stratify(rules: seq<Rule>) returns (r: Outcome, strata: seq<seq<Rule>>)
    ensures r.Ok? ==> OnceEach(rules, strata)
    ensures Stratifiable(rules) ==> r.Ok? && Stratified(AllEnabled(ProgsOf(strata)))
    ensures r.Err? ==> r.error.NotStratifiable?
    ensures r.Ok? <==> Sortable(Deduped(rules))
  {
    hide RulePartitioner.Valid, RulePartitioner.Settled, OnceEach, StrataInOrder, Acyclic, BottomUp, PurePositive, AllRenamedApart, SortedAs, Sortable, Starts;
    var partitioner := new RulePartitioner(rules);
    ghost var s0, run := partitioner.State(), Refused(0);
    r, strata, run := partitioner.OrderRules();
    SamePositive(rules);
    SortDecides(Deduped(rules), s0, r, strata, run);
    if r.Ok? {
      SameRules(Deduped(rules), rules, strata);
      if Stratifiable(rules) {
        StratifiedWell(rules, strata);
      }
    }
  }

  /** The loop over strata is an evaluation if all rules can be materialised. */
  ghost predicate Evaluating(progs: seq<Prog>, k: nat, a: Snapshot, b: Snapshot) {
    && |b.indexes| == |progs| && (forall j | k <= j < |progs| :: b.indexes[j] == map[])
    && (Layered(progs) ==> exists tracked :: Evaluated(progs, k, a, b, tracked))
  }

  lemma EvaluatingStart(progs: seq<Prog>, a: Snapshot)
    requires NoDup(a.list) && a.ext <= a.Stored() && EmptyIndexes(progs, a)
    ensures Evaluating(progs, 0, a, a)
  {
    EvaluatedStart(progs, a);
  }

  lemma EvaluatingOn(progs: seq<Prog>, k: nat, a: Snapshot, b: Snapshot, r: Outcome, c: Snapshot, log: seq<Entry>)
    requires k < |progs| && Evaluating(progs, k, a, b) && RanProgram(progs, k, r, b, c, log)
    ensures r.Ok? ==> Evaluating(progs, k + 1, a, c)
    ensures r.Err? ==> EvaluationResult(progs, r, a.Stored(), c.Stored())
  {
    if Layered(progs) {
      var tracked :| Evaluated(progs, k, a, b, tracked);
      EvaluatedOn(progs, k, a, b, tracked, r, c, log);
    }
  }

  lemma EvaluatingEnd(progs: seq<Prog>, a: Snapshot, b: Snapshot)
    requires Evaluating(progs, |progs|, a, b)
    ensures EvaluationResult(progs, Ok, a.Stored(), b.Stored())
  {
    if Layered(progs) {
      var tracked :| Evaluated(progs, |progs|, a, b, tracked);
      EvaluatedEnd(progs, a, b, tracked);
    }
  }

  method EvaluateStrata(ghost rules: seq<Rule>, strata: seq<seq<Rule>>, table: QuadTable) returns (r: Outcome)
    requires table.Valid() && OnceEach(rules, strata) && SafeMeansRestricted(rules)
    modifies table
    ensures table.Valid()
    ensures r.Ok? || r.error.ContradictionFound? ==> EvaluationResult(ProgsOf(strata), r, old(table.Stored()), table.Stored())
    ensures r.Err? && r.error.UnsafeRule? ==> r.error.rule in rules && !IsSafeRule(r.error.rule)
    ensures r.Err? ==> r.error.ContradictionFound? || r.error.UnsafeRule?
  {
    ghost var progs := ProgsOf(strata);
    ghost var a := Snapshot(table.quadList, table.Extensional(), seq(|strata|, i => map[]));
    assert NoDup(table.quadList) by { ReverseNoDup(table.quadList, table.fourKeysIndex); }
    EvaluatingStart(progs, a);
    ghost var b := a;
    hide QuadTable.Valid, OnceEach, SafeMeansRestricted, Evaluating, RanProgram, EvaluationResult, ProgsOf, IsSafeRule, AllRestricted;
    r := Ok;
    for k := 0 to |strata|
      invariant r.Ok? && table.Valid() && Evaluating(progs, k, a, b)
      invariant b.list == table.quadList && b.ext == table.Extensional()
    {
      ghost var c, log;
      EvaluatingParts(progs, k, a, b);
      r, c, log := EvaluateStratum(table, rules, strata, k, b);
      if r.Err? && r.error.UnsafeRule? {
        InStratum(rules, strata, k, r.error.rule);
        return;
      }
      EvaluatingOn(progs, k, a, b, r, c, log);
      b := c;
      if r.Err? {
        return;
      }
    }
    EvaluatingEnd(progs, a, b);
  }

  lemma EvaluatingParts(progs: seq<Prog>, k: nat, a: Snapshot, b: Snapshot)
    requires Evaluating(progs, k, a, b)
    ensures |b.indexes| == |progs| && forall j | k <= j < |progs| :: b.indexes[j] == map[]
  {
  }

  lemma InStratum(rules: seq<Rule>, strata: seq<seq<Rule>>, k: nat, r: Rule)
    requires OnceEach(rules, strata) && k < |strata| && r in strata[k]
    ensures r in rules
  {
    assert InSome(strata, r);
  }

  /**
   * Stratify the rules and materialise each stratum in order.  Over valid strata this computes the perfect
   * model of the quads that were stored, and it reports a contradiction exactly when the whole body of some
   * contradiction rule holds in that model.
   */
  method EvaluateRules(rules: seq<Rule>, table: QuadTable) returns (r: Outcome, ghost strata: seq<seq<Rule>>)
    requires table.Valid() && SafeMeansRestricted(rules)
    modifies table
    ensures table.Valid()
    ensures r.Ok? || !r.error.NotStratifiable? ==> OnceEach(rules, strata)
    ensures Stratifiable(rules) ==> Stratified(AllEnabled(ProgsOf(strata))) && (r.Ok? || !r.error.NotStratifiable?)
    ensures r.Ok? || r.error.ContradictionFound? ==> EvaluationResult(ProgsOf(strata), r, old(table.Stored()), table.Stored())
    ensures r.Err? && r.error.UnsafeRule? ==> r.error.rule in rules && !IsSafeRule(r.error.rule)
    ensures AllRestricted(rules) ==> r.Ok? || !r.error.UnsafeRule?
    ensures r.Err? && r.error.NotStratifiable? <==> !Sortable(Deduped(rules))
  {
    if AllRestricted(rules) { AllSafe(rules); }
    var parts;
    r, parts := Stratify(rules);
    strata := parts;
    if r.Err? {
      return;
    }
    r := EvaluateStrata(rules, parts, table);
  }

  // ---- Building programs ----

  /** Fresh programs for the strata, the first of which has position `n0`. */
  ghost predicate Built(programs: seq<DatalogProgram>, n0: nat, strata: seq<seq<Rule>>)
    reads programs, set p | p in programs :: p.derivedFrom
  {
    && |programs| == |strata|
    && (forall i | 0 <= i < |programs| ::
          && programs[i].Valid() && programs[i].rules == strata[i] && programs[i].stratum == n0 + i
          && programs[i].disabledRules == {} && programs[i].derivedFrom.index == map[]
          && MarksOk(strata[i], programs[i].derivedFrom.negativelyTriggeringRules))
    && (forall i, j | 0 <= i < j < |programs| :: programs[i] != programs[j] && programs[i].derivedFrom != programs[j].derivedFrom)
  }

  /** Build one program per stratum, unless a rule is unsafe. */
  method BuildPrograms(ghost n0: nat, strata: seq<seq<Rule>>) returns (r: Outcome, programs: seq<DatalogProgram>)
    ensures r.Ok? ==> Built(programs, n0, strata) && forall k | 0 <= k < |strata| :: forall x | x in strata[k] :: IsSafeRule(x)
    ensures forall p | p in programs :: fresh(p) && fresh(p.derivedFrom)
    ensures r.Err? ==> r.error.UnsafeRule? && !IsSafeRule(r.error.rule) && InSome(strata, r.error.rule)
  {
    hide DatalogProgram.Valid, MarksOk, IsSafeRule;
    r, programs := Ok, [];
    for k := 0 to |strata|
      invariant r.Ok? && Built(programs, n0, strata[..k])
      invariant forall p | p in programs :: fresh(p) && fresh(p.derivedFrom)
      invariant forall j | 0 <= j < k :: forall x | x in strata[j] :: IsSafeRule(x)
    {
      var program;
      r, program := DatalogProgram.New(n0 + k, strata[k]);
      if r.Err? {
        return;
      }
      assert program !in programs;
      programs := programs + [program];
      assert strata[..k + 1] == strata[..k] + [strata[k]];
    }
    assert strata[..|strata|] == strata;
  }
}
