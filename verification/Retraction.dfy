/** Retracting rules, on values. */
module Retraction {
  import opened Syntax
  import opened Clauses
  import opened Grounding
  import opened DerivedFrom
  import opened Seminaive
  import opened Maintenance
  import opened Reasoner
  import opened States
  import opened Insertion
  import opened ReverseIndex
  import opened Undo
  import opened Deletion
  import opened Negation

  /** A rule of a program: the program's position and the rule's id there. */
  type Target = (nat, nat)

  /** The enabled occurrences of the rules to retract. */
  ghost predicate IsTarget(progs: seq<Prog>, rules: seq<Rule>, t: Target) {
    t.0 < |progs| && t.1 < |progs[t.0].rules| && t.1 !in progs[t.0].disabled && progs[t.0].rules[t.1] in rules
  }

  ghost predicate AreTargets(progs: seq<Prog>, rules: seq<Rule>, targets: seq<Target>) {
    forall t :: t in targets <==> IsTarget(progs, rules, t)
  }

  ghost function IdsOf(targets: set<Target>, i: nat): set<nat> {
    set t | t in targets && t.0 == i :: t.1
  }

  /** The programs with the targets disabled; rules and rule ids stay as they are. */
  ghost function Disabling(progs: seq<Prog>, targets: set<Target>): (r: seq<Prog>)
    ensures |r| == |progs|
  {
    seq(|progs|, i requires 0 <= i < |progs| => progs[i].(disabled := progs[i].disabled + IdsOf(targets, i)))
  }

  ghost function Enabling(progs: seq<Prog>, targets: set<Target>): (r: seq<Prog>)
    ensures |r| == |progs|
  {
    seq(|progs|, i requires 0 <= i < |progs| => progs[i].(disabled := progs[i].disabled - IdsOf(targets, i)))
  }

  lemma IdsOfNext(targets: set<Target>, t: Target, i: nat)
    ensures IdsOf(targets + {t}, i) == if t.0 == i then IdsOf(targets, i) + {t.1} else IdsOf(targets, i)
  {
    forall x | x in IdsOf(targets, i) ensures x in IdsOf(targets + {t}, i) {
      assert (i, x) in targets + {t};
    }
    if t.0 == i { assert (i, t.1) in targets + {t}; }
    forall x | x in IdsOf(targets + {t}, i) && (t.0 != i || x != t.1) ensures x in IdsOf(targets, i) {
      var u :| u in targets + {t} && u.0 == i && u.1 == x;
      assert u in targets;
    }
  }

  lemma DisablingNext(progs: seq<Prog>, targets: set<Target>, t: Target)
    requires t.0 < |progs|
    ensures var p := Disabling(progs, targets);
            Disabling(progs, targets + {t}) == p[t.0 := p[t.0].(disabled := p[t.0].disabled + {t.1})]
    ensures var p := Enabling(progs, targets);
            Enabling(progs, targets + {t}) == p[t.0 := p[t.0].(disabled := p[t.0].disabled - {t.1})]
  {
    forall i | 0 <= i < |progs| { IdsOfNext(targets, t, i); }
    var p, e := Disabling(progs, targets), Enabling(progs, targets);
    forall i | 0 <= i < |progs|
      ensures Disabling(progs, targets + {t})[i] == p[t.0 := p[t.0].(disabled := p[t.0].disabled + {t.1})][i]
      ensures Enabling(progs, targets + {t})[i] == e[t.0 := e[t.0].(disabled := e[t.0].disabled - {t.1})][i]
    {
      IdsOfNext(targets, t, i);
      if i == t.0 {
        assert progs[i].disabled + IdsOf(targets, i) + {t.1} == progs[i].disabled + (IdsOf(targets, i) + {t.1});
        assert progs[i].disabled - IdsOf(targets, i) - {t.1} == progs[i].disabled - (IdsOf(targets, i) + {t.1});
      }
    }
    assert Disabling(progs, targets + {t}) == p[t.0 := p[t.0].(disabled := p[t.0].disabled + {t.1})];
    assert Enabling(progs, targets + {t}) == e[t.0 := e[t.0].(disabled := e[t.0].disabled - {t.1})];
  }

  lemma DisablingNone(progs: seq<Prog>)
    ensures Disabling(progs, {}) == progs && Enabling(progs, {}) == progs
  {
    forall i | 0 <= i < |progs| ensures Disabling(progs, {})[i] == progs[i] && Enabling(progs, {})[i] == progs[i] {
      assert IdsOf({}, i) == {};
    }
  }

  lemma TargetsInRange(progs: seq<Prog>, rules: seq<Rule>, targets: seq<Target>)
    requires AreTargets(progs, rules, targets)
    ensures forall t | t in targets :: t.0 < |progs|
  {
  }

  /** The targets were enabled before, so enabling them again undoes the retraction. */
  lemma EnablingUndoes(progs: seq<Prog>, rules: seq<Rule>, targets: seq<Target>)
    requires AreTargets(progs, rules, targets)
    ensures Enabling(Disabling(progs, Elements(targets)), Elements(targets)) == progs
  {
    var ts := Elements(targets);
    forall i | 0 <= i < |progs| ensures Enabling(Disabling(progs, ts), ts)[i] == progs[i] {
      assert IdsOf(ts, i) !! progs[i].disabled;
      assert progs[i].disabled + IdsOf(ts, i) - IdsOf(ts, i) == progs[i].disabled;
    }
  }

  // ---- The rules that remain ----

  lemma DisablingShrinks(progs: seq<Prog>, targets: set<Target>)
    ensures AllEnabled(Disabling(progs, targets)) <= AllEnabled(progs)
    ensures forall c | c in AllEnabled(progs) && c !in AllEnabled(Disabling(progs, targets)) :: (c.prog, c.rid) in targets
    ensures forall indexes | |indexes| == |progs| ::
              AllRecorded(Disabling(progs, targets), indexes) == AllRecorded(progs, indexes)
    ensures Layered(progs) ==> Layered(Disabling(progs, targets))
    ensures Stratified(AllEnabled(progs)) ==> Stratified(AllEnabled(Disabling(progs, targets)))
    ensures forall a :: WellFormed(progs, a) ==> WellFormed(Disabling(progs, targets), a)
  {
    var progs' := Disabling(progs, targets);
    forall c | c in AllEnabled(progs) && c !in AllEnabled(progs') ensures (c.prog, c.rid) in targets {
      assert c.rid in progs'[c.prog].disabled;
      assert c.rid in IdsOf(targets, c.prog);
      var t :| t in targets && t.0 == c.prog && t.1 == c.rid;
      assert t == (c.prog, c.rid);
    }
    forall indexes | |indexes| == |progs| ensures AllRecorded(progs', indexes) == AllRecorded(progs, indexes) {
      forall c ensures c in AllRecorded(progs', indexes) <==> c in AllRecorded(progs, indexes) {
      }
    }
  }

  // ---- Possibly-deleted quads ----

  /** `q` has a record by one of the targets. */
  ghost predicate MadeByTarget(indexes: seq<Index>, targets: set<Target>, q: Quad) {
    exists t :: t in targets && MadeBy(indexes, t, q)
  }

  ghost predicate MadeBy(indexes: seq<Index>, t: Target, q: Quad) {
    t.0 < |indexes| && exists d :: Holds(indexes[t.0], q, d) && d.ruleId == t.1
  }

  /** The derived quads a target made, with everything that depends on them, asserted facts excepted. */
  ghost function RuleFallout(progs: seq<Prog>, z: Snapshot, targets: set<Target>): set<Quad>
    requires |z.indexes| == |progs|
  {
    Cascade(AllRecorded(progs, z.indexes), z.ext, RuleSeeds(z, targets))
  }

  ghost function RuleSeeds(z: Snapshot, targets: set<Target>): set<Quad> {
    set q | q in AllQuads() && q !in z.ext && MadeByTarget(z.indexes, targets, q)
  }

  lemma RuleSeedsAre(z: Snapshot, targets: set<Target>, seeds: set<Quad>)
    requires forall q :: q in seeds <==> q !in z.ext && MadeByTarget(z.indexes, targets, q)
    ensures seeds == RuleSeeds(z, targets)
  {
    forall q ensures q in AllQuads() { EveryQuad(q); }
  }

  ghost predicate RecordBy(ds: seq<Derivation>, rid: nat) {
    exists d :: d in ds && d.ruleId == rid
  }

  /** Is some derivation of the list by rule `rid`? */
  function HasRule(ds: seq<Derivation>, rid: nat): (r: bool)
    ensures r <==> RecordBy(ds, rid)
  {
    if ds == [] then false
    else
      assert ds == [ds[0]] + ds[1..];
      ds[0].ruleId == rid || HasRule(ds[1..], rid)
  }

  lemma MadeByAt(indexes: seq<Index>, t: Target, q: Quad)
    requires t.0 < |indexes|
    ensures MadeBy(indexes, t, q) <==> q in indexes[t.0] && RecordBy(indexes[t.0][q], t.1)
  {
    if q in indexes[t.0] && RecordBy(indexes[t.0][q], t.1) {
      var d :| d in indexes[t.0][q] && d.ruleId == t.1;
      assert Holds(indexes[t.0], q, d);
    }
  }

  lemma MadeByNext(indexes: seq<Index>, targets: set<Target>, t: Target)
    ensures forall q :: MadeByTarget(indexes, targets + {t}, q) <==> MadeByTarget(indexes, targets, q) || MadeBy(indexes, t, q)
  {
    hide MadeBy;
    forall q ensures MadeByTarget(indexes, targets + {t}, q) <==> MadeByTarget(indexes, targets, q) || MadeBy(indexes, t, q) {
      if MadeByTarget(indexes, targets, q) {
        var u :| u in targets && MadeBy(indexes, u, q);
        assert u in targets + {t};
      }
      if MadeBy(indexes, t, q) { assert t in targets + {t}; }
    }
  }

  lemma RuleSearched(progs: seq<Prog>, z: Snapshot, targets: set<Target>, pd: set<Quad>)
    requires |z.indexes| == |progs|
    requires Searched(AllRecorded(progs, z.indexes), z.ext, RuleSeeds(z, targets), RuleSeeds(z, targets), pd)
    ensures pd == RuleFallout(progs, z, targets)
  {
    CascadeSearched(AllRecorded(progs, z.indexes), z.ext, RuleSeeds(z, targets), pd);
  }

  lemma DroppedUnasserted(progs: seq<Prog>, z: Snapshot)
    requires WellFormed(progs, z)
    ensures Unasserted(z, Elements([]), z)
  {
  }

  lemma ElementsOfNone()
    ensures Elements<Quad>([]) == {}
  {
  }

  lemma RuleFalloutSpares(progs: seq<Prog>, z: Snapshot, targets: set<Target>)
    requires |z.indexes| == |progs|
    ensures RuleFallout(progs, z, targets) !! z.ext
  {
    CascadeAvoids(AllRecorded(progs, z.indexes), z.ext, RuleSeeds(z, targets));
  }

  // ---- The incremental branch ----

  /** No body-less rule is retracted: those live on as asserted facts. */
  ghost predicate WithBodies(progs: seq<Prog>, targets: set<Target>) {
    forall t | t in targets :: t.0 < |progs| && t.1 < |progs[t.0].rules| && !IsFact(progs[t.0].rules[t.1])
  }

  lemma WithBodiesPos(progs: seq<Prog>, targets: set<Target>, c: Clause)
    requires WithBodies(progs, targets) && c in AllEnabled(progs) && (c.prog, c.rid) in targets
    ensures c.pos != []
  {
    if c.pos == [] {
      FactInstance(progs[c.prog].rules[c.rid], c);
    }
  }

  /**
   * With one layer of negation among the rules that remain, retracting rules incrementally ends in the
   * model of the same asserted facts under those rules.
   */
  lemma RetractionSound(progs: seq<Prog>, z: Snapshot, targets: set<Target>, mid: Snapshot, c: Snapshot, tracked: seq<seq<Entry>>)
    requires Layered(progs) && WellFormed(progs, z) && Sound(progs, z) && WithBodies(progs, targets)
    requires OneLayerRules(Disabling(progs, targets))
    requires Dropped(z, RuleFallout(progs, z, targets), mid)
    requires SweepResult(Disabling(progs, targets), Ok, mid, c, tracked)
    ensures Sound(Disabling(progs, targets), c)
  {
    var progs' := Disabling(progs, targets);
    var p, p', n, x := AllEnabled(progs), AllEnabled(progs'), |progs|, RuleFallout(progs, z, targets);
    var d, d2, d3 := AllRecorded(progs, z.indexes), AllRecorded(progs, mid.indexes), AllRecorded(progs', c.indexes);
    var t :| OneLayer(p', t);
    EnabledFacts(progs);
    EnabledBelow(progs);
    RetractionRemoves(progs, z, targets, mid, c, tracked);
    DisablingShrinks(progs, targets);
    assert z.ext - x == z.ext;
    RemovalConsistent(p, p', n, z.ext, z.Stored(), d, x, d2, c.Stored(), d3, t);
    LargerBase(p', z.ext, c.ext, c.Stored(), d3);
  }

  /** What the sweep under the remaining rules will reach once the fallout is removed. */
  ghost function RefilledWithout(progs: seq<Prog>, z: Snapshot, targets: set<Target>): set<Quad>
    requires |z.indexes| == |progs|
  {
    Refilled(Disabling(progs, targets), z, RuleFallout(progs, z, targets))
  }

  /** No record that a retraction keeps for a derived quad is blocked in what the sweep will reach. */
  ghost predicate RemainderUnblocked(progs: seq<Prog>, z: Snapshot, targets: set<Target>)
    requires |z.indexes| == |progs|
  {
    forall k | k in AllRecorded(progs, z.indexes) && k.head.Some? && k.head.value !in z.ext &&
               k.head.value !in RuleFallout(progs, z, targets) ::
      k.neg !! RefilledWithout(progs, z, targets)
  }

  /** Removing the fallout leaves clean records over which the remaining rules are swept. */
  lemma RetractionRemoves(progs: seq<Prog>, z: Snapshot, targets: set<Target>, mid: Snapshot, c: Snapshot, tracked: seq<seq<Entry>>)
    requires Layered(progs) && WellFormed(progs, z) && Sound(progs, z) && WithBodies(progs, targets)
    requires Dropped(z, RuleFallout(progs, z, targets), mid)
    requires SweepResult(Disabling(progs, targets), Ok, mid, c, tracked)
    ensures |mid.indexes| == |c.indexes| == |progs| && z.ext <= c.ext <= c.Stored()
    ensures CleanRemoval(AllEnabled(progs), AllEnabled(Disabling(progs, targets)), z.ext, z.Stored(), AllRecorded(progs, z.indexes),
                         RuleFallout(progs, z, targets), AllRecorded(progs, mid.indexes))
    ensures Swept(AllEnabled(Disabling(progs, targets)), |progs|, z.Stored() - RuleFallout(progs, z, targets),
                  AllRecorded(progs, mid.indexes), c.Stored(), AllRecorded(Disabling(progs, targets), c.indexes))
    ensures RuleFallout(progs, z, targets) !! z.ext
  {
    var progs', x := Disabling(progs, targets), RuleFallout(progs, z, targets);
    DisablingShrinks(progs, targets);
    RuleFalloutSpares(progs, z, targets);
    DroppedRecords(progs, z, x, mid);
    RemainderClean(progs, z, targets);
    assert AllRecorded(progs, mid.indexes) == RemainingRecords(progs, z, targets);
    ExtendedParts(progs', mid, c, tracked);
    assert mid.Stored() == z.Stored() - x && mid.ext == z.ext - x == z.ext;
  }

  /** The records that a retraction keeps. */
  ghost function RemainingRecords(progs: seq<Prog>, z: Snapshot, targets: set<Target>): Program
    requires |z.indexes| == |progs|
  {
    iset c | c in AllRecorded(progs, z.indexes) && c.head.Some? && c.head.value !in RuleFallout(progs, z, targets)
  }

  lemma RemainderClean(progs: seq<Prog>, z: Snapshot, targets: set<Target>)
    requires Sound(progs, z) && WithBodies(progs, targets)
    ensures CleanRemoval(AllEnabled(progs), AllEnabled(Disabling(progs, targets)), z.ext, z.Stored(), AllRecorded(progs, z.indexes),
                         RuleFallout(progs, z, targets), RemainingRecords(progs, z, targets))
  {
    var p, p', d := AllEnabled(progs), AllEnabled(Disabling(progs, targets)), AllRecorded(progs, z.indexes);
    DisablingShrinks(progs, targets);
    forall k | k in p && k !in p' ensures k.pos != [] { WithBodiesPos(progs, targets, k); }
    forall k | k in d && k !in p' && k.head.Some? && k.head.value !in z.ext ensures k.head.value in RuleSeeds(z, targets) {
      SeedRecorded(progs, z, targets, k);
    }
    RetractionIsClean(p, p', z.ext, z.Stored(), d, RuleFallout(progs, z, targets), RuleSeeds(z, targets), RemainingRecords(progs, z, targets));
  }

  /**
   * Whatever the layers of negation, an incremental retraction ends consistent over the same asserted facts
   * exactly when, in the state before, no record it keeps is going to be blocked.
   */
  lemma RetractionExact(progs: seq<Prog>, z: Snapshot, targets: set<Target>, mid: Snapshot, c: Snapshot, tracked: seq<seq<Entry>>)
    requires Layered(progs) && WellFormed(progs, z) && Sound(progs, z) && WithBodies(progs, targets)
    requires Dropped(z, RuleFallout(progs, z, targets), mid)
    requires SweepResult(Disabling(progs, targets), Ok, mid, c, tracked)
    ensures ConsistentOver(Disabling(progs, targets), z.ext, c) <==> RemainderUnblocked(progs, z, targets)
  {
    var progs' := Disabling(progs, targets);
    var p, p', n, x := AllEnabled(progs), AllEnabled(progs'), |progs|, RuleFallout(progs, z, targets);
    var d, d2, d3 := AllRecorded(progs, z.indexes), AllRecorded(progs, mid.indexes), AllRecorded(progs', c.indexes);
    EnabledFacts(progs);
    EnabledBelow(progs);
    DroppedRecords(progs, z, x, mid);
    RetractionRemoves(progs, z, targets, mid, c, tracked);
    DisablingShrinks(progs, targets);
    assert z.ext - x == z.ext;
    RemovalExact(p, p', n, z.ext, z.Stored(), d, x, d2, c.Stored(), d3);
    SweepEnd(p', n, z.Stored() - x, d2, c.Stored(), d3);
    PerfectIsStable(p', z.Stored() - x, c.Stored(), n);
  }

  lemma SeedRecorded(progs: seq<Prog>, z: Snapshot, targets: set<Target>, k: Clause)
    requires |z.indexes| == |progs| && ConsistentState(progs, z)
    requires k in AllRecorded(progs, z.indexes) && k !in AllEnabled(Disabling(progs, targets))
    requires k.head.Some? && k.head.value !in z.ext
    ensures k.head.value in RuleSeeds(z, targets)
  {
    DisablingShrinks(progs, targets);
    EveryQuad(k.head.value);
    assert k in AllEnabled(progs);
    assert Holds(z.indexes[k.prog], k.head.value, Derivation(k.rid, k.pos));
    assert MadeBy(z.indexes, (k.prog, k.rid), k.head.value);
  }

  // ---- What a retraction promises ----

  /** What the fallback leaves: a rebuild under the remaining rules, or everything as it was. */
  ghost predicate RulesRebuilt(progs: seq<Prog>, r: Outcome, z: Snapshot, targets: set<Target>, progs': seq<Prog>, c: Snapshot) {
    && Judged(Disabling(progs, targets), r, z.ext)
    && (r.Ok? ==> progs' == Disabling(progs, targets) && Rebuilt(progs', r, z.ext, c))
    && (r.Err? ==> r.error.ContradictionFound? && progs' == progs && c == z)
  }

  lemma RulesRebuiltOk(progs: seq<Prog>, r: Outcome, z: Snapshot, targets: set<Target>, c: Snapshot)
    requires r.Ok? && Rebuilt(Disabling(progs, targets), r, z.ext, c)
    ensures RulesRebuilt(progs, r, z, targets, Disabling(progs, targets), c)
  {
  }

  lemma RulesRebuiltErr(progs: seq<Prog>, r: Outcome, z: Snapshot, targets: set<Target>, c: Snapshot)
    requires r.Err? && Rebuilt(Disabling(progs, targets), r, z.ext, c)
    ensures RulesRebuilt(progs, r, z, targets, progs, z)
  {
  }

  /**
   * The outcome of retracting the targets: asserted facts stay on every path; success gives the model
   * under the remaining rules; failure leaves store, flags, records and rules as they were.  From a sound state
   * it ends with what the remaining rules reach, and fails exactly when that is contradictory.
   */
  ghost predicate RetractionResult(progs: seq<Prog>, r: Outcome, z: Snapshot, targets: set<Target>, progs': seq<Prog>, c: Snapshot)
    requires |z.indexes| == |progs|
  {
    && z.ext <= c.ext
    && (Layered(progs) && Sound(progs, z) ==> Verdict(Disabling(progs, targets), r, Reached(progs, z, targets)))
    && (r.Ok? ==>
          && progs' == Disabling(progs, targets) && OnlySeeded(progs', z.ext, c.ext)
          && (Layered(progs) && Sound(progs, z) ==> c.Stored() == Reached(progs, z, targets))
          && (Layered(progs) && Sound(progs, z) && WithBodies(progs, targets) ==>
                && (OneLayerRules(progs') ==> Sound(progs', c))
                && if FallsBack(TotalDerived(z.indexes), |RuleFallout(progs, z, targets)|) then Sound(progs', c)
                   else ConsistentOver(progs', z.ext, c) <==> RemainderUnblocked(progs, z, targets)))
    && (r.Err? ==>
          && r.error.ContradictionFound? && progs' == progs
          && c.indexes == z.indexes && c.ext == z.ext
          && (RuleFallout(progs, z, targets) <= z.Stored() ==> c.Stored() == z.Stored()))
  }

  /** What the sweep of a retraction reaches, by branch. */
  ghost function Reached(progs: seq<Prog>, z: Snapshot, targets: set<Target>): set<Quad>
    requires |z.indexes| == |progs|
  {
    if FallsBack(TotalDerived(z.indexes), |RuleFallout(progs, z, targets)|) then Perfect(AllEnabled(Disabling(progs, targets)), z.ext, |progs|)
    else RefilledWithout(progs, z, targets)
  }

  /** Without NOT atoms a retraction from a sound state is never refused. */
  lemma RetractionNeverRefused(progs: seq<Prog>, r: Outcome, z: Snapshot, targets: set<Target>, progs': seq<Prog>, c: Snapshot)
    requires Layered(progs) && WellFormed(progs, z) && Sound(progs, z) && NegationFree(progs)
    requires RetractionResult(progs, r, z, targets, progs', c)
    ensures r.Ok?
  {
    DisablingShrinks(progs, targets);
    LessIsConsistent(progs, Disabling(progs, targets), z, z.ext);
    LessIsConsistent(progs, Disabling(progs, targets), z, z.Stored() - RuleFallout(progs, z, targets));
  }

  /** With one layer of negation among the remaining rules, the sweep heads for the model of the asserted facts. */
  lemma RemainderIsModel(progs: seq<Prog>, z: Snapshot, targets: set<Target>)
    requires Layered(progs) && WellFormed(progs, z) && Sound(progs, z) && WithBodies(progs, targets) && OneLayerRules(Disabling(progs, targets))
    ensures RefilledWithout(progs, z, targets) == Perfect(AllEnabled(Disabling(progs, targets)), z.ext, |progs|)
  {
    var p, p', s, x, m := AllEnabled(progs), AllEnabled(Disabling(progs, targets)), z.Stored(), RuleFallout(progs, z, targets), RefilledWithout(progs, z, targets);
    var d, d2 := AllRecorded(progs, z.indexes), RemainingRecords(progs, z, targets);
    var t :| OneLayer(p', t);
    EnabledBelow(progs);
    EnabledFacts(progs);
    DisablingShrinks(progs, targets);
    RuleFalloutSpares(progs, z, targets);
    RemainderClean(progs, z, targets);
    hide AllEnabled, AllRecorded, CleanRemoval, Consistent, OneLayer, RuleFallout, Layered, WellFormed, WithBodies, Disabling;
    PerfectIsStable(p', s - x, m, |progs|);
    OneLayerUnblocked(p, p', z.ext, s, d, x, d2, m, t);
    RefilledStands(p, p', z.ext, s, d, x, d2, m);
    assert z.ext - x == z.ext;
    PerfectIsStable(p', z.ext, m, |progs|);
  }

  /** So a retraction is then refused, on either branch, exactly when the model under the remaining rules is contradictory. */
  lemma RetractionGenuine(progs: seq<Prog>, r: Outcome, z: Snapshot, targets: set<Target>, progs': seq<Prog>, c: Snapshot)
    requires Layered(progs) && WellFormed(progs, z) && Sound(progs, z) && WithBodies(progs, targets) && OneLayerRules(Disabling(progs, targets))
    requires RetractionResult(progs, r, z, targets, progs', c)
    ensures Verdict(Disabling(progs, targets), r, Perfect(AllEnabled(Disabling(progs, targets)), z.ext, |progs|))
  {
    RemainderIsModel(progs, z, targets);
    hide Verdict, RefilledWithout, RuleFallout, OneLayerRules, Perfect, Disabling;
  }

  lemma NothingRetracted(progs: seq<Prog>, z: Snapshot, targets: seq<Target>)
    requires |z.indexes| == |progs| && targets == []
    ensures RetractionResult(progs, Ok, z, Elements(targets), progs, z)
  {
    assert Elements(targets) == {};
    DisablingNone(progs);
    if Sound(progs, z) {
      assert RuleSeeds(z, {}) == {};
      CascadeMinimal(AllRecorded(progs, z.indexes), z.ext, {}, {});
      NothingRefilled(progs, z);
      SoundReaches(progs, z);
    }
  }

  lemma NothingToRetract(progs: seq<Prog>, rules: seq<Rule>, z: Snapshot)
    requires |z.indexes| == |progs| && rules == []
    ensures AreTargets(progs, rules, []) && RetractionResult(progs, Ok, z, Elements([]), progs, z)
  {
    NothingRetracted(progs, z, []);
  }

  /** What the forward phase leaves, from `z` with the targets disabled in `progs'`. */
  ghost predicate ForwardPhasedRules(progs': seq<Prog>, r: Outcome, z: Snapshot, pd: set<Quad>, targets: set<Target>, progs3: seq<Prog>, c: Snapshot) {
    && Judged(progs', r, z.Stored() - pd)
    && (r.Ok? ==> progs3 == progs' && exists mid, tracked :: Dropped(z, pd, mid) && SweepResult(progs', Ok, mid, c, tracked))
    && (r.Err? ==> r.error.ContradictionFound? && progs3 == Enabling(progs', targets) && RolledBack(z, {}, pd, c))
  }

  lemma PhasedRulesOk(progs': seq<Prog>, z: Snapshot, pd: set<Quad>, targets: set<Target>, mid: Snapshot, c: Snapshot, tracked: seq<seq<Entry>>)
    requires Dropped(z, pd, mid) && SweepResult(progs', Ok, mid, c, tracked)
    ensures ForwardPhasedRules(progs', Ok, z, pd, targets, progs', c)
  {
    SweepJudged(progs', Ok, mid, c, tracked);
  }

  lemma PhasedRulesErr(progs': seq<Prog>, r: Outcome, z: Snapshot, pd: set<Quad>, targets: set<Target>, mid: Snapshot, c: Snapshot)
    requires r.Err? && r.error.ContradictionFound? && Dropped(z, pd, mid) && Judged(progs', r, mid.Stored()) && RolledBack(z, {}, pd, c)
    ensures ForwardPhasedRules(progs', r, z, pd, targets, Enabling(progs', targets), c)
  {
    hide Judged, RolledBack;
  }

  lemma RetractedForward(progs: seq<Prog>, r: Outcome, z: Snapshot, targets: set<Target>, c: Snapshot)
    requires r.Ok? && WellFormed(progs, z)
    requires ForwardPhasedRules(Disabling(progs, targets), r, z, RuleFallout(progs, z, targets), targets, Disabling(progs, targets), c)
    requires !FallsBack(TotalDerived(z.indexes), |RuleFallout(progs, z, targets)|)
    ensures RetractionResult(progs, r, z, targets, Disabling(progs, targets), c)
  {
    var progs' := Disabling(progs, targets);
    assert Judged(progs', r, z.Stored() - RuleFallout(progs, z, targets));
    var mid, tracked :| Dropped(z, RuleFallout(progs, z, targets), mid) && SweepResult(progs', Ok, mid, c, tracked);
    RuleFalloutSpares(progs, z, targets);
    ExtendedParts(progs', mid, c, tracked);
    assert mid.ext == z.ext;
    RetractionVerdict(progs, r, z, targets);
    if Layered(progs) && Sound(progs, z) {
      DisablingShrinks(progs, targets);
      SweepVerdict(progs', Ok, mid, c, tracked);
    }
    if Layered(progs) && Sound(progs, z) && WithBodies(progs, targets) {
      RetractionExact(progs, z, targets, mid, c, tracked);
      if OneLayerRules(progs') {
        RetractionSound(progs, z, targets, mid, c, tracked);
      }
    }
  }

  lemma RetractionUndone(progs: seq<Prog>, r: Outcome, z: Snapshot, targets: set<Target>, progs3: seq<Prog>, c: Snapshot)
    requires r.Err? && WellFormed(progs, z)
    requires ForwardPhasedRules(Disabling(progs, targets), r, z, RuleFallout(progs, z, targets), targets, progs3, c)
    requires !FallsBack(TotalDerived(z.indexes), |RuleFallout(progs, z, targets)|)
    ensures RetractionResult(progs, r, z, targets, progs, c)
  {
    assert |z.indexes| == |progs|;
    assert r.error.ContradictionFound? && RolledBack(z, {}, RuleFallout(progs, z, targets), c);
    assert Judged(Disabling(progs, targets), r, z.Stored() - RuleFallout(progs, z, targets));
    hide Verdict, Sound, Layered, WellFormed, RuleFallout, Reached, FallsBack, Judged, Disabling, OneLayerRules, ConsistentOver, RemainderUnblocked, WithBodies;
    RuleFalloutSpares(progs, z, targets);
    RetractionVerdict(progs, r, z, targets);
    RolledBackSame(z, RuleFallout(progs, z, targets), c);
    hide RolledBack;
  }

  lemma RolledBackSame(z: Snapshot, x: set<Quad>, c: Snapshot)
    requires RolledBack(z, {}, x, c) && x !! z.ext
    ensures c.indexes == z.indexes && c.ext == z.ext && (x <= z.Stored() ==> c.Stored() == z.Stored())
  {
  }

  /** The verdict on the incremental branch. */
  lemma RetractionVerdict(progs: seq<Prog>, r: Outcome, z: Snapshot, targets: set<Target>)
    requires |z.indexes| == |progs| && !FallsBack(TotalDerived(z.indexes), |RuleFallout(progs, z, targets)|)
    requires Judged(Disabling(progs, targets), r, z.Stored() - RuleFallout(progs, z, targets))
    ensures Layered(progs) && Sound(progs, z) ==> Verdict(Disabling(progs, targets), r, Reached(progs, z, targets))
  {
    hide Verdict, AllEnabled, Stratified, ConsistentState, Layered, RuleFallout, Disabling, WellFormed;
    DisablingShrinks(progs, targets);
  }

  lemma RetractedByRebuild(progs: seq<Prog>, r: Outcome, z: Snapshot, targets: set<Target>, progs': seq<Prog>, c: Snapshot)
    requires |z.indexes| == |progs| && RulesRebuilt(progs, r, z, targets, progs', c)
    requires FallsBack(TotalDerived(z.indexes), |RuleFallout(progs, z, targets)|)
    ensures RetractionResult(progs, r, z, targets, progs', c)
  {
    DisablingShrinks(progs, targets);
    if r.Ok? && Layered(progs) && Sound(progs, z) {
      SoundModel(progs', z.ext, c);
    }
  }

  lemma PhasedProgs(progs': seq<Prog>, r: Outcome, z: Snapshot, pd: set<Quad>, targets: set<Target>, progs3: seq<Prog>, c: Snapshot)
    requires ForwardPhasedRules(progs', r, z, pd, targets, progs3, c)
    ensures progs3 == if r.Ok? then progs' else Enabling(progs', targets)
  {
    hide Judged, RolledBack, Enabling;
  }

  /** In a consistent state the possibly-deleted quads are stored, so a rollback is exact. */
  lemma RuleFalloutStored(progs: seq<Prog>, z: Snapshot, targets: set<Target>)
    requires Layered(progs) && WellFormed(progs, z) && ConsistentState(progs, z)
    ensures RuleFallout(progs, z, targets) <= z.Stored()
  {
    var d := AllRecorded(progs, z.indexes);
    forall q | q in RuleSeeds(z, targets) ensures q in z.Stored() {
      var t :| t in targets && MadeBy(z.indexes, t, q);
      var e :| Holds(z.indexes[t.0], q, e) && e.ruleId == t.1;
      KnownStored(progs, z, t.0, q, e);
    }
    forall w, q | w in z.Stored() && Derives(d, w, q) && q !in z.ext ensures q in z.Stored() {
      var k :| k in d && k.head == Some(q) && w in k.pos;
    }
    CascadeMinimal(d, z.ext, RuleSeeds(z, targets), z.Stored());
  }

  /** Retraction equals recomputation with the remaining rules. */
  lemma RetractionIsRecomputation(progs: seq<Prog>, z: Snapshot, targets: set<Target>, progs': seq<Prog>, c: Snapshot)
    requires Layered(progs) && WellFormed(progs, z) && Sound(progs, z) && WithBodies(progs, targets)
    requires OneLayerRules(Disabling(progs, targets))
    requires RetractionResult(progs, Ok, z, targets, progs', c)
    ensures c.Stored() == Perfect(AllEnabled(progs'), z.ext, |progs'|)
    ensures NoContradiction(AllEnabled(progs'), c.Stored())
  {
    DisablingShrinks(progs, targets);
    SeedsRedundant(progs', z.ext, c);
    ConsistentIsPerfect(progs', c);
  }
}
