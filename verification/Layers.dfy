/** When rules can be layered at all: exactly when no NOT edge lies on a cycle. */
module Layers {
  import opened Syntax
  import opened Unification
  import opened RuleSort
  import opened SortRun
  import opened Listings

  // ---- Layers and negative cycles ----

  /** No edge goes down, and a NOT edge goes up. */
  ghost predicate Layering(rules: seq<Rule>, layer: seq<nat>) {
    && |layer| == |rules|
    && forall i: nat, j: nat | Dep(rules, i, j) :: layer[i] <= layer[j] && (NegDep(rules, i, j) ==> layer[i] < layer[j])
  }

  ghost predicate Layerable(rules: seq<Rule>) {
    exists layer :: Layering(rules, layer)
  }

  ghost predicate ReachesIn(rules: seq<Rule>, i: nat, j: nat, n: nat)
    decreases n
  {
    if n == 0 then i == j else exists k: nat :: Dep(rules, i, k) && ReachesIn(rules, k, j, n - 1)
  }

  ghost predicate Reaches(rules: seq<Rule>, i: nat, j: nat) {
    exists n: nat :: ReachesIn(rules, i, j, n)
  }

  /** A NOT edge whose target leads back to its source. */
  ghost predicate NegativeCycle(rules: seq<Rule>) {
    exists i: nat, j: nat :: NegDep(rules, i, j) && Reaches(rules, j, i)
  }

  lemma {:induction false} PathClimbs(rules: seq<Rule>, layer: seq<nat>, i: nat, j: nat, n: nat)
    requires Layering(rules, layer) && ReachesIn(rules, i, j, n) && i < |rules|
    ensures j < |rules| && layer[i] <= layer[j]
    decreases n
  {
    hide Dep, NegDep;
    if n > 0 {
      var k: nat :| Dep(rules, i, k) && ReachesIn(rules, k, j, n - 1);
      DepInRange(rules, i, k);
      PathClimbs(rules, layer, k, j, n - 1);
    }
  }

  lemma {:induction false} PathOn(rules: seq<Rule>, i: nat, j: nat, k: nat, n: nat)
    requires ReachesIn(rules, i, j, n) && Dep(rules, j, k)
    ensures ReachesIn(rules, i, k, n + 1)
    decreases n
  {
    hide Dep;
    if n == 0 {
      assert ReachesIn(rules, k, k, 0);
    } else {
      var m: nat :| Dep(rules, i, m) && ReachesIn(rules, m, j, n - 1);
      PathOn(rules, m, j, k, n - 1);
    }
  }

  /** The NOT edges that lead to rule `x`. */
  ghost function NegativeBehind(rules: seq<Rule>, x: nat): set<(nat, nat)> {
    set i: nat, j: nat | i < |rules| && j < |rules| && NegDep(rules, i, j) && Reaches(rules, j, x) :: (i, j)
  }

  lemma BehindGrows(rules: seq<Rule>, i: nat, j: nat)
    requires Dep(rules, i, j) && !NegativeCycle(rules)
    ensures NegativeBehind(rules, i) <= NegativeBehind(rules, j)
    ensures NegDep(rules, i, j) ==> (i, j) in NegativeBehind(rules, j) && (i, j) !in NegativeBehind(rules, i)
  {
    hide Dep, NegDep, ReachesIn;
    assert Dep(rules, i, j) ==> i < |rules| && j < |rules| by { DepInRange(rules, i, j); }
    forall e | e in NegativeBehind(rules, i) ensures e in NegativeBehind(rules, j) {
      var n: nat :| ReachesIn(rules, e.1, i, n);
      PathOn(rules, e.1, i, j, n);
    }
    HereInNone(rules, j);
  }

  lemma DepInRange(rules: seq<Rule>, i: nat, j: nat)
    ensures Dep(rules, i, j) || NegDep(rules, i, j) ==> i < |rules| && j < |rules|
  {
  }

  lemma HereInNone(rules: seq<Rule>, j: nat)
    ensures Reaches(rules, j, j)
  {
    assert ReachesIn(rules, j, j, 0);
  }

  /** Rules can be layered exactly when no NOT edge lies on a cycle. */
  lemma LayerableExact(rules: seq<Rule>)
    ensures Layerable(rules) <==> !NegativeCycle(rules)
  {
    hide Dep, NegDep, Reaches;
    if Layerable(rules) && NegativeCycle(rules) {
      var layer :| Layering(rules, layer);
      var i: nat, j: nat :| NegDep(rules, i, j) && Reaches(rules, j, i);
      CycleRefutes(rules, layer, i, j);
    }
    if !NegativeCycle(rules) {
      var layer: seq<nat> := seq(|rules|, x requires 0 <= x < |rules| => |NegativeBehind(rules, x)|);
      forall i: nat, j: nat | Dep(rules, i, j)
        ensures i < |rules| && j < |rules| && layer[i] <= layer[j] && (NegDep(rules, i, j) ==> layer[i] < layer[j])
      {
        DepInRange(rules, i, j);
        BehindGrows(rules, i, j);
        var a, b := NegativeBehind(rules, i), NegativeBehind(rules, j);
        SubsetCardinality(a, b);
        if NegDep(rules, i, j) {
          SubsetCardinality(a, b - {(i, j)});
        }
      }
      assert Layering(rules, layer);
    }
  }

  lemma CycleRefutes(rules: seq<Rule>, layer: seq<nat>, i: nat, j: nat)
    requires NegDep(rules, i, j) && Reaches(rules, j, i)
    ensures !Layering(rules, layer)
  {
    NegIsDep(rules, i, j);
    if Layering(rules, layer) {
      var n: nat :| ReachesIn(rules, j, i, n);
      PathClimbs(rules, layer, j, i, n);
    }
  }

  /** So an error of the sort is genuine exactly when some NOT edge lies on a cycle; strata in order are layers. */
  lemma InOrderLayers(rules: seq<Rule>, strata: seq<seq<Rule>>)
    requires OnceEach(rules, strata) && StrataInOrder(strata, {})
    ensures Layerable(rules)
  {
    forall i: nat | i < |rules| ensures InSome(strata, rules[i]) {
      assert rules[i] in rules;
    }
    var layer: seq<nat> := seq(|rules|, i requires 0 <= i < |rules| => StratumOf(strata, rules[i]));
    forall i: nat, j: nat | Dep(rules, i, j) ensures layer[i] <= layer[j] && (NegDep(rules, i, j) ==> layer[i] < layer[j]) {
      var none: set<Rule> := {};
      assert rules[i] in strata[layer[i]] && rules[j] in strata[layer[j]] && rules[j] !in none;
      hide CanFeed, CanBlock;
    }
    assert Layering(rules, layer);
  }

  ghost function StratumOf(strata: seq<seq<Rule>>, r: Rule): (k: nat)
    ensures InSome(strata, r) ==> k < |strata| && r in strata[k]
  {
    if InSome(strata, r) then var k :| 0 <= k < |strata| && r in strata[k]; k else 0
  }

  /** Listings bottom up can be layered. */
  lemma BottomUpLayers(rules: seq<Rule>)
    requires BottomUp(rules)
    ensures Layerable(rules)
  {
    var plan :| BottomUpBy(rules, plan);
    hide BottomUpBy, Dep;
    forall i: nat, j: nat | Dep(rules, i, j)
      ensures |plan.comp| == |rules| && plan.comp[i] <= plan.comp[j] && (NegDep(rules, i, j) ==> plan.comp[i] < plan.comp[j])
    {
      PlanEdge(rules, plan, i, j);
    }
    PlanIs(rules, StartState([], []), plan);
    assert Layering(rules, plan.comp);
  }
}
