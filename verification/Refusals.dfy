/** Why an insertion of rules that passed the checks fails: old and new rules together are contradictory. */
module Refusals {
  import opened Syntax
  import opened Clauses
  import opened Grounding
  import opened DerivedFrom
  import opened Seminaive
  import opened Maintenance
  import opened Reasoner
  import opened States
  import opened Insertion
  import opened Retraction
  import opened Reactivation
  import opened Unification
  import opened RuleSort
  import opened Listings
  import opened Stratifier
  import opened Evaluation
  import opened Appending

  // ---- Where an insertion stopped ----

  /** Bringing back the rule at position `k` stopped, in a sound state of what was enabled until then. */
  ghost predicate StoppedWith(progs: seq<Prog>, z: Snapshot, targets: seq<Target>, k: nat, b: Snapshot, rule: Rule) {
    && k < |targets| && targets[k].0 < |progs|
    && var progsK := Enabling(progs, Elements(targets[..k]));
       Sound(progsK, b) && OnlySeeded(progsK, z.ext, b.ext) && StoppedAt(progsK, targets[k], b.Stored(), rule)
  }

  ghost predicate ReactivationStopped(progs: seq<Prog>, z: Snapshot, targets: seq<Target>, rule: Rule) {
    exists k: nat, b :: StoppedWith(progs, z, targets, k, b, rule)
  }

  /** All rules came back, and then a fresh stratum stopped. */
  ghost predicate FreshStopped(progs: seq<Prog>, z: Snapshot, targets: seq<Target>, strata: seq<seq<Rule>>, rule: Rule) {
    exists z1 :: StoppedFrom(progs, z, targets, strata, z1, rule)
  }

  ghost predicate StoppedFrom(progs: seq<Prog>, z: Snapshot, targets: seq<Target>, strata: seq<seq<Rule>>, z1: Snapshot, rule: Rule) {
    var progs1 := Enabling(progs, Elements(targets));
    Sound(progs1, z1) && OnlySeeded(progs1, z.ext, z1.ext) && AppendStopped(progs1, strata, z1, rule)
  }

  ghost predicate InsertionStopped(progs: seq<Prog>, z: Snapshot, targets: seq<Target>, strata: seq<seq<Rule>>, rule: Rule) {
    Sound(progs, z) && AllReactivate(progs, targets) ==>
      ReactivationStopped(progs, z, targets, rule) || FreshStopped(progs, z, targets, strata, rule)
  }

  /** The parts of the state in which bringing a rule back stopped. */
  lemma StoppedHere(progs: seq<Prog>, z: Snapshot, targets: seq<Target>, k: nat, b: Snapshot, runs: seq<Run>, logs: seq<seq<Entry>>, rule: Rule)
    requires k < |targets| && targets[k].0 < |progs|
    requires Reviving(Enabling(progs, Elements(targets[..k])), z, b, runs, logs, true)
    requires StoppedAt(Enabling(progs, Elements(targets[..k])), targets[k], b.Stored(), rule)
    ensures ReactivationStopped(progs, z, targets, rule)
  {
    RevivingParts(Enabling(progs, Elements(targets[..k])), z, b, runs, logs, true);
    hide Sound, OnlySeeded, StoppedAt;
    assert StoppedWith(progs, z, targets, k, b, rule);
  }

  lemma StoppedReviving(progs: seq<Prog>, z: Snapshot, targets: seq<Target>, strata: seq<seq<Rule>>, rule: Rule)
    requires Sound(progs, z) && AllReactivate(progs, targets) ==> ReactivationStopped(progs, z, targets, rule)
    ensures InsertionStopped(progs, z, targets, strata, rule)
  {
  }

  lemma StoppedFresh(progs: seq<Prog>, z: Snapshot, targets: seq<Target>, strata: seq<seq<Rule>>, z1: Snapshot, rule: Rule)
    requires Sound(progs, z) && AllReactivate(progs, targets) ==> Sound(Enabling(progs, Elements(targets)), z1)
    requires OnlySeeded(Enabling(progs, Elements(targets)), z.ext, z1.ext)
    requires AppendStopped(Enabling(progs, Elements(targets)), strata, z1, rule)
    ensures InsertionStopped(progs, z, targets, strata, rule)
  {
    hide Sound, OnlySeeded, AppendStopped, AllReactivate;
    if Sound(progs, z) && AllReactivate(progs, targets) {
      assert StoppedFrom(progs, z, targets, strata, z1, rule);
    }
  }

  // ---- Nobody uses what comes in ----

  lemma ReturnedClause(progs: seq<Prog>, targets: set<Target>, e: Clause)
    requires e in AllEnabled(Enabling(progs, targets)) && e !in AllEnabled(progs)
    ensures e.prog < |progs| && e.rid < |progs[e.prog].rules| && (e.prog, e.rid) in targets && IsInstance(progs[e.prog].rules[e.rid], e)
  {
    assert e.rid in IdsOf(targets, e.prog);
    var t :| t in targets && t.0 == e.prog && t.1 == e.rid;
    assert t == (e.prog, e.rid);
  }

  /** An enabled ground rule of an old program uses no ground head of another rule that comes in. */
  lemma IncomingUnconsumed(progs: seq<Prog>, newRules: seq<Rule>, targets: seq<Target>, added: seq<Rule>, strata: seq<seq<Rule>>,
                           c: Clause, e: Clause)
    requires RulesOnce(progs) && InsertionChecked(progs, newRules, targets, added, strata) && InsertionNames(progs, newRules, targets)
    requires c in AllEnabled(Enabling(progs, Elements(targets)))
    requires e in AllEnabled(Requested(progs, targets, strata)) && e !in AllEnabled(progs) && e.head.Some?
    requires (c.prog, c.rid) != (e.prog, e.rid)
    ensures e.head.value !in c.pos && e.head.value !in c.neg
  {
    var active :| (forall b :: b in active <==> IsActive(progs, targets, b)) && AllDownstream(progs, active, targets, added);
    var progs1 := Enabling(progs, Elements(targets));
    TargetsDisabled(progs, newRules, targets, added);
    hide AllEnabled, InsertionChecked, IsActive, Downstream, RenamedApart, IsInstance;
    AppendedEnabled(progs1, strata);
    if e in AllEnabled(progs1) {
      ReturnedClause(progs, Elements(targets), e);
      var t: Target := (e.prog, e.rid);
      assert t in targets;
      ReturnedPair(progs, active, targets, t, c, e);
    } else {
      forall b ensures b in active <==> IsActive(progs1, [], b) { ActiveAfter(progs, targets, b); }
      forall a | a in added ensures !Occurs(progs1, a) { ActiveAfter(progs, targets, a); }
      DownstreamUnconsumed(progs1, active, added, strata);
    }
  }

  /** The enabled ground rules on the way to the requested programs. */
  lemma EnabledOnTheWay(progs: seq<Prog>, targets: seq<Target>, strata: seq<seq<Rule>>, k: nat)
    requires k <= |targets|
    ensures var progsK := Enabling(progs, Elements(targets[..k]));
            AllEnabled(progs) <= AllEnabled(progsK) <= AllEnabled(Enabling(progs, Elements(targets))) <= AllEnabled(Requested(progs, targets, strata))
  {
    var progs1 := Enabling(progs, Elements(targets));
    assert Elements(targets[..k]) <= Elements(targets) by {
      assert forall j | 0 <= j < k :: targets[..k][j] == targets[j] && targets[j] in targets;
    }
    DisablingNone(progs);
    SomeEnabled(progs, {}, Elements(targets[..k]));
    SomeEnabled(progs, Elements(targets[..k]), Elements(targets));
    AppendedEnabled(progs1, strata);
  }

  /** One rule is enabled or not, with all of its instances. */
  lemma SamePosition(progs: seq<Prog>, progs2: seq<Prog>, c: Clause, e: Clause)
    requires c in AllEnabled(progs) && e in AllEnabled(progs2) && (c.prog, c.rid) == (e.prog, e.rid)
    requires |progs| <= |progs2| && forall i | 0 <= i < |progs| :: progs[i].rules == progs2[i].rules && progs[i].stratum == progs2[i].stratum
    ensures e in AllEnabled(progs)
  {
  }

  ghost function Outside(p: Program, q: Program): Program {
    iset c | c in p && c !in q
  }

  /** What is enabled after `k` rules came back uses nothing of what is still to come. */
  lemma RestUnconsumed(progs: seq<Prog>, newRules: seq<Rule>, targets: seq<Target>, added: seq<Rule>, strata: seq<seq<Rule>>, k: nat)
    requires k <= |targets|
    requires RulesOnce(progs) && InsertionChecked(progs, newRules, targets, added, strata) && InsertionNames(progs, newRules, targets)
    ensures var progsK, p := Enabling(progs, Elements(targets[..k])), AllEnabled(Requested(progs, targets, strata));
            NotConsumed(AllEnabled(progsK), Outside(p, AllEnabled(progsK)))
  {
    var progsK, progs2 := Enabling(progs, Elements(targets[..k])), Requested(progs, targets, strata);
    EnabledOnTheWay(progs, targets, strata, k);
    forall c, e | c in AllEnabled(progsK) && e in Outside(AllEnabled(progs2), AllEnabled(progsK)) && e.head.Some?
      ensures e.head.value !in c.pos && e.head.value !in c.neg
    {
      hide AllEnabled, InsertionChecked, InsertionNames, RulesOnce;
      if (c.prog, c.rid) == (e.prog, e.rid) {
        SamePosition(progsK, progs2, c, e);
      }
      IncomingUnconsumed(progs, newRules, targets, added, strata, c, e);
    }
  }

  /** No rule of the old programs blocks on what the requested programs add to a store on the way. */
  lemma NegStays(progs: seq<Prog>, newRules: seq<Rule>, targets: seq<Target>, added: seq<Rule>, strata: seq<seq<Rule>>, k: nat,
                 s: set<Quad>, m: set<Quad>, c: Clause)
    requires k <= |targets|
    requires RulesOnce(progs) && InsertionChecked(progs, newRules, targets, added, strata) && InsertionNames(progs, newRules, targets)
    requires Stratified(AllEnabled(Requested(progs, targets, strata)))
    requires var p, pk := AllEnabled(Requested(progs, targets, strata)), AllEnabled(Enabling(progs, Elements(targets[..k])));
             forall q | q in m && q !in s :: exists e :: e in Outside(p, pk) && e.head == Some(q)
    requires c in AllEnabled(Enabling(progs, Elements(targets))) && c.neg !! s
    ensures c.neg !! m
  {
    var p, pk := AllEnabled(Requested(progs, targets, strata)), AllEnabled(Enabling(progs, Elements(targets[..k])));
    EnabledOnTheWay(progs, targets, strata, k);
    hide AllEnabled, InsertionChecked, InsertionNames, RulesOnce;
    forall x | x in c.neg ensures x !in m {
      if x in m {
        var e :| e in Outside(p, pk) && e.head == Some(x);
        assert e.prog < c.prog;
        IncomingUnconsumed(progs, newRules, targets, added, strata, c, e);
      }
    }
  }

  // ---- The contradiction is one of old and new rules ----

  /** The model of the requested programs over a sound store on the way is their model over the asserted facts. */
  lemma ModelOnTheWay(progs: seq<Prog>, z: Snapshot, newRules: seq<Rule>, targets: seq<Target>, added: seq<Rule>, strata: seq<seq<Rule>>,
                      k: nat, b: Snapshot) returns (m: set<Quad>)
    requires k <= |targets| && Layered(Requested(progs, targets, strata))
    requires RulesOnce(progs) && InsertionChecked(progs, newRules, targets, added, strata) && InsertionNames(progs, newRules, targets)
    requires Stratified(AllEnabled(Requested(progs, targets, strata)))
    requires var progsK := Enabling(progs, Elements(targets[..k])); Sound(progsK, b) && OnlySeeded(progsK, z.ext, b.ext)
    ensures var progs2, pk := Requested(progs, targets, strata), AllEnabled(Enabling(progs, Elements(targets[..k])));
            && m == Perfect(AllEnabled(progs2), z.ext, |progs2|) == Perfect(AllEnabled(progs2), b.Stored(), |progs2|)
            && b.Stored() <= m && Stable(AllEnabled(progs2), b.Stored(), m)
            && forall q | q in m && q !in b.Stored() :: exists e :: e in Outside(AllEnabled(progs2), pk) && e.head == Some(q)
  {
    var progs2, progsK := Requested(progs, targets, strata), Enabling(progs, Elements(targets[..k]));
    var p, pk := AllEnabled(progs2), AllEnabled(progsK);
    var f := Outside(p, pk);
    m := Perfect(p, b.Stored(), |progs2|);
    RestUnconsumed(progs, newRules, targets, added, strata, k);
    EnabledOnTheWay(progs, targets, strata, k);
    EnabledBelow(progs2);
    SeededOnTheWay(progs, targets, strata, k, z.ext, b.ext);
    hide AllEnabled, InsertionChecked, InsertionNames, RulesOnce, Layered, Stratified, NotConsumed, OnlySeeded, Enabling, Requested;
    assert p == pk + f;
    PerfectIsStable(p, b.Stored(), m, |progs2|);
    PerfectGrows(p, b.Stored(), 0, |progs2|);
    SplitModel(pk, f, b.ext, b.Stored(), AllRecorded(progsK, b.indexes), m);
    SeedsRebased(progs2, z.ext, b.ext, m);
  }

  lemma SeededOnTheWay(progs: seq<Prog>, targets: seq<Target>, strata: seq<seq<Rule>>, k: nat, ext0: set<Quad>, ext: set<Quad>)
    requires k <= |targets| && OnlySeeded(Enabling(progs, Elements(targets[..k])), ext0, ext)
    ensures OnlySeeded(Requested(progs, targets, strata), ext0, ext)
  {
    var progsK, progs2 := Enabling(progs, Elements(targets[..k])), Requested(progs, targets, strata);
    assert Elements(targets[..k]) <= Elements(targets) by {
      assert forall j | 0 <= j < k :: targets[..k][j] == targets[j] && targets[j] in targets;
    }
    forall q | SomeFactHead(progsK, q) ensures SomeFactHead(progs2, q) {
      var i :| 0 <= i < |progsK| && IsFactHead(progsK[i], q);
      var c :| c in Enabled(progsK[i]) && c.pos == [] && c.head == Some(q);
      assert IdsOf(Elements(targets[..k]), i) <= IdsOf(Elements(targets), i);
      assert c in Enabled(progs2[i]);
      assert IsFactHead(progs2[i], q);
    }
  }

  /** Bringing a rule back stops only on a rule that the model of old and new rules violates. */
  lemma ReactivationRefused(progs: seq<Prog>, z: Snapshot, newRules: seq<Rule>, targets: seq<Target>, added: seq<Rule>, strata: seq<seq<Rule>>,
                            k: nat, b: Snapshot, rule: Rule)
    requires Layered(Requested(progs, targets, strata))
    requires RulesOnce(progs) && InsertionChecked(progs, newRules, targets, added, strata) && InsertionNames(progs, newRules, targets)
    requires Stratified(AllEnabled(Requested(progs, targets, strata)))
    requires StoppedWith(progs, z, targets, k, b, rule)
    ensures var progs2 := Requested(progs, targets, strata); Violates(progs2, Perfect(AllEnabled(progs2), z.ext, |progs2|), rule)
  {
    var progs2, progsK, t := Requested(progs, targets, strata), Enabling(progs, Elements(targets[..k])), targets[k];
    var s, p := b.Stored(), Enabling(progsK, {t})[t.0];
    var w :| StoppedOn(p, s, w, rule);
    var m := ModelOnTheWay(progs, z, newRules, targets, added, strata, k, b);
    LeastIsModel(AllEnabled(progs2), s, m);
    forall c | c in Enabled(p) ensures c in Enabled(progs2[t.0]) && c in AllEnabled(progs2) && (c.neg !! s ==> c.neg !! m) {
      OneBack(progs, targets, strata, k, c);
      if c.neg !! s {
        NegStays(progs, newRules, targets, added, strata, k, s, m, c);
      }
    }
    hide AllEnabled, InsertionChecked, InsertionNames, RulesOnce, Layered, Stratified, Enabled, Enabling, Requested;
    LeastIsLeast(Enabled(p), s, s, m);
    var c :| c in Enabled(p) && c.head.None? && Sat(c, w) && p.rules[c.rid] == rule;
    assert Sat(c, m);
    RulesKept(progs, targets, strata, k, c);
    assert Contradicted(progs2[t.0], m, rule);
  }

  lemma RulesKept(progs: seq<Prog>, targets: seq<Target>, strata: seq<seq<Rule>>, k: nat, c: Clause)
    requires k < |targets| && targets[k].0 < |progs|
    ensures var t := targets[k];
            Enabling(Enabling(progs, Elements(targets[..k])), {t})[t.0].rules == Requested(progs, targets, strata)[t.0].rules
  {
  }

  lemma OneBack(progs: seq<Prog>, targets: seq<Target>, strata: seq<seq<Rule>>, k: nat, c: Clause)
    requires k < |targets| && targets[k].0 < |progs| && Layered(Requested(progs, targets, strata))
    requires c in Enabled(Enabling(Enabling(progs, Elements(targets[..k])), {targets[k]})[targets[k].0])
    ensures c in AllEnabled(Enabling(progs, Elements(targets))) && c in AllEnabled(Requested(progs, targets, strata))
    ensures c in Enabled(Requested(progs, targets, strata)[targets[k].0])
  {
    var t, progsK := targets[k], Enabling(progs, Elements(targets[..k]));
    assert targets[..k + 1] == targets[..k] + [t];
    assert Elements(targets[..k + 1]) == Elements(targets[..k]) + {t};
    EnablingMore(progs, Elements(targets[..k]), t);
    var progs1, progs2 := Enabling(progs, Elements(targets[..k + 1])), Requested(progs, targets, strata);
    assert progs2[t.0].stratum == t.0;
    assert c in AllEnabled(progs1);
    EnabledOnTheWay(progs, targets, strata, k + 1);
  }

  /** The same for fresh strata. */
  lemma FreshRefused(progs: seq<Prog>, z: Snapshot, newRules: seq<Rule>, targets: seq<Target>, added: seq<Rule>, strata: seq<seq<Rule>>,
                     z1: Snapshot, rule: Rule)
    requires Layered(Requested(progs, targets, strata))
    requires RulesOnce(progs) && InsertionChecked(progs, newRules, targets, added, strata) && InsertionNames(progs, newRules, targets)
    requires Stratified(AllEnabled(Requested(progs, targets, strata)))
    requires StoppedFrom(progs, z, targets, strata, z1, rule)
    ensures var progs2 := Requested(progs, targets, strata); Violates(progs2, Perfect(AllEnabled(progs2), z.ext, |progs2|), rule)
  {
    assert targets[..|targets|] == targets;
    var m := ModelOnTheWay(progs, z, newRules, targets, added, strata, |targets|, z1);
  }

  /** Whatever an accepted insertion stopped on, the model of old and new rules over the asserted facts violates it. */
  lemma RulesRefused(progs: seq<Prog>, r: Outcome, z: Snapshot, newRules: seq<Rule>, targets: seq<Target>, added: seq<Rule>, strata: seq<seq<Rule>>)
    requires r.Err? && r.error.ContradictionFound? && Layered(progs) && Layered(Requested(progs, targets, strata))
    requires InsertionChecked(progs, newRules, targets, added, strata)
    requires Stratifiable(added) ==> Stratified(AllEnabled(ProgsOf(strata)))
    requires InsertionStopped(progs, z, targets, strata, r.error.rule)
    ensures RuleVerdict(progs, r, z, newRules, targets, added, strata)
  {
    hide *;
    if Sound(progs, z) && RulesOnce(progs) && InsertionNames(progs, newRules, targets) &&
       Stratified(AllEnabled(Enabling(progs, Elements(targets)))) && Stratifiable(added) {
      InsertionStratified(progs, newRules, targets, added, strata);
      RequestedIs(progs, targets, strata);
      CheckedReactivate(progs, newRules, targets, added, strata);
      StopCases(progs, z, targets, strata, r.error.rule);
      if ReactivationStopped(progs, z, targets, r.error.rule) {
        var k, b := StopAt(progs, z, targets, r.error.rule);
        ReactivationRefused(progs, z, newRules, targets, added, strata, k, b, r.error.rule);
      } else {
        var z1 := StopFrom(progs, z, targets, strata, r.error.rule);
        FreshRefused(progs, z, newRules, targets, added, strata, z1, r.error.rule);
      }
      var progs2 := Requested(progs, targets, strata);
      ViolatesMeans(progs2, Perfect(AllEnabled(progs2), z.ext, |progs2|), r.error.rule);
    }
    VerdictIs(progs, r, z, newRules, targets, added, strata);
  }

  lemma RequestedIs(progs: seq<Prog>, targets: seq<Target>, strata: seq<seq<Rule>>)
    ensures Requested(progs, targets, strata) == AppendProgs(Enabling(progs, Elements(targets)), strata)
  {
  }

  lemma StopCases(progs: seq<Prog>, z: Snapshot, targets: seq<Target>, strata: seq<seq<Rule>>, rule: Rule)
    requires InsertionStopped(progs, z, targets, strata, rule) && Sound(progs, z) && AllReactivate(progs, targets)
    ensures ReactivationStopped(progs, z, targets, rule) || FreshStopped(progs, z, targets, strata, rule)
  {
  }

  lemma StopAt(progs: seq<Prog>, z: Snapshot, targets: seq<Target>, rule: Rule) returns (k: nat, b: Snapshot)
    requires ReactivationStopped(progs, z, targets, rule)
    ensures StoppedWith(progs, z, targets, k, b, rule)
  {
    k, b :| StoppedWith(progs, z, targets, k, b, rule);
  }

  lemma StopFrom(progs: seq<Prog>, z: Snapshot, targets: seq<Target>, strata: seq<seq<Rule>>, rule: Rule) returns (z1: Snapshot)
    requires FreshStopped(progs, z, targets, strata, rule)
    ensures StoppedFrom(progs, z, targets, strata, z1, rule)
  {
    z1 :| StoppedFrom(progs, z, targets, strata, z1, rule);
  }

  lemma VerdictIs(progs: seq<Prog>, r: Outcome, z: Snapshot, newRules: seq<Rule>, targets: seq<Target>, added: seq<Rule>, strata: seq<seq<Rule>>)
    requires r.Err? && r.error.ContradictionFound?
    requires Sound(progs, z) && RulesOnce(progs) && InsertionNames(progs, newRules, targets) &&
             Stratified(AllEnabled(Enabling(progs, Elements(targets)))) && Stratifiable(added) ==>
               var progs2 := Requested(progs, targets, strata);
               var m := Perfect(AllEnabled(progs2), z.ext, |progs2|);
               Violates(progs2, m, r.error.rule) && !NoContradiction(AllEnabled(progs2), m)
    ensures RuleVerdict(progs, r, z, newRules, targets, added, strata)
  {
    hide Sound, RulesOnce, InsertionNames, Stratified, AllEnabled, Stratifiable, Perfect, Enabling, Requested, Violates, NoContradiction;
  }
}
