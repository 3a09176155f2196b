/**
 * Listings that the sort gets right, recursion with stratified negation included: rules are listed component
 * by component, a rule is never blocked from its own component, and every cycle of a component runs through
 * the component's first rule.
 */
module Listings {
  import opened Syntax
  import opened Unification
  import opened RuleSort
  import opened SortRun

  /**
   * `comp` numbers the components, `rank` orders the rules of one component, and `late` are the rules that
   * may depend on a recursive component.
   */
  datatype Plan = Plan(comp: seq<nat>, rank: seq<nat>, late: set<nat>)

  /** The first late rule of its component. */
  ghost predicate IsFirst(plan: Plan, f: nat)
  {
    f < |plan.comp| && f in plan.late && forall k: nat | k < f && k in plan.late :: plan.comp[k] != plan.comp[f]
  }

  /** Along an edge components go up, strictly for NOT, and inside one so do ranks - except into its first rule. */
  ghost predicate EdgeUp(rules: seq<Rule>, plan: Plan, i: nat, j: nat)
    requires |plan.comp| == |plan.rank| == |rules| && i < |rules| && j < |rules|
  {
    && plan.comp[i] <= plan.comp[j] && (NegDep(rules, i, j) ==> plan.comp[i] < plan.comp[j])
    && (i in plan.late ==> j in plan.late)
    && (plan.comp[i] == plan.comp[j] && !IsFirst(plan, j) ==> plan.rank[i] < plan.rank[j])
  }

  /** A cycle may run through `f`. */
  ghost predicate Recursive(rules: seq<Rule>, plan: Plan, f: nat)
    requires |plan.comp| == |plan.rank| == |rules| && f < |rules|
  {
    exists k: nat :: k < |rules| && Dep(rules, k, f) && plan.comp[k] == plan.comp[f] && plan.rank[k] >= plan.rank[f]
  }

  /** The rule feeds a rule of its component. */
  ghost predicate StaysIn(rules: seq<Rule>, plan: Plan, x: nat)
    requires |plan.comp| == |rules| && x < |rules|
  {
    exists y: nat :: y < |rules| && Dep(rules, x, y) && plan.comp[y] == plan.comp[x]
  }

  ghost predicate BottomUpBy(rules: seq<Rule>, plan: Plan) {
    && |plan.comp| == |plan.rank| == |rules|
    && (forall i: nat, j: nat | Dep(rules, i, j) :: EdgeUp(rules, plan, i, j))
    && (forall i: nat, j: nat | i < j < |rules| && i in plan.late && j in plan.late :: plan.comp[i] <= plan.comp[j])
    && (forall f: nat, x: nat | f < |rules| && x < |rules| && IsFirst(plan, f) && Recursive(rules, plan, f) &&
                                x in plan.late && plan.comp[x] == plan.comp[f] :: StaysIn(rules, plan, x))
  }

  ghost predicate BottomUp(rules: seq<Rule>) {
    exists plan :: BottomUpBy(rules, plan)
  }

  /** Acyclic rules may be listed in any order. */
  lemma AcyclicBottomUp(rules: seq<Rule>)
    requires Acyclic(rules)
    ensures BottomUp(rules)
  {
    var rank: seq<nat> :| |rank| == |rules| && Ascending(rules, rank);
    var plan := Plan(rank, rank, {});
    forall i: nat, j: nat | Dep(rules, i, j) ensures EdgeUp(rules, plan, i, j) {
    }
    assert BottomUpBy(rules, plan);
  }

  /** Rules listed bottom up stay so when the first ones are left out. */
  lemma SuffixBottomUp(a: seq<Rule>, b: seq<Rule>)
    requires BottomUp(a + b)
    ensures BottomUp(b)
  {
    var plan :| BottomUpBy(a + b, plan);
    var plan' := Shifted(plan, |a|, |b|);
    hide Dep, NegDep, IsFirst, EdgeUp, Recursive, StaysIn, Shifted;
    forall i: nat, j: nat | i < j < |b| && i in plan'.late && j in plan'.late ensures plan'.comp[i] <= plan'.comp[j] {
      assert LateAt(plan, |a|, i) && LateAt(plan, |a|, j);
    }
    forall i: nat, j: nat | Dep(b, i, j) ensures i < |b| && j < |b| && EdgeUp(b, plan', i, j) {
      ShiftedDep(a, b, i, j);
      ShiftedEdge(a, b, plan, i, j);
    }
    forall f: nat, x: nat | f < |b| && x < |b| && IsFirst(plan', f) && Recursive(b, plan', f) &&
                            x in plan'.late && plan'.comp[x] == plan'.comp[f]
      ensures StaysIn(b, plan', x)
    {
      ShiftedStays(a, b, plan, f, x);
    }
    assert BottomUpBy(b, plan');
  }

  ghost predicate LateAt(plan: Plan, n: nat, x: nat) {
    x + n in plan.late
  }

  /** The plan for the `m` rules after the first `n`. */
  ghost function Shifted(plan: Plan, n: nat, m: nat): (p: Plan)
    requires |plan.comp| == |plan.rank| == n + m
    ensures |p.comp| == |p.rank| == m
    ensures forall x: nat | x < m :: p.comp[x] == plan.comp[x + n] && p.rank[x] == plan.rank[x + n] && (x in p.late <==> LateAt(plan, n, x))
  {
    Plan(plan.comp[n..], plan.rank[n..], set x: nat | x < m && LateAt(plan, n, x))
  }

  lemma ShiftedDep(a: seq<Rule>, b: seq<Rule>, i: nat, j: nat)
    ensures Dep(b, i, j) <==> i < |b| && j < |b| && Dep(a + b, i + |a|, j + |a|)
    ensures NegDep(b, i, j) <==> i < |b| && j < |b| && NegDep(a + b, i + |a|, j + |a|)
  {
  }

  lemma ShiftedFirst(plan: Plan, n: nat, m: nat, f: nat)
    requires |plan.comp| == |plan.rank| == n + m && f < m && IsFirst(plan, f + n)
    ensures IsFirst(Shifted(plan, n, m), f)
  {
    forall k: nat | k < f && k in Shifted(plan, n, m).late ensures plan.comp[k + n] != plan.comp[f + n] {
      assert LateAt(plan, n, k);
    }
  }

  lemma ShiftedEdge(a: seq<Rule>, b: seq<Rule>, plan: Plan, i: nat, j: nat)
    requires |plan.comp| == |plan.rank| == |a| + |b| && BottomUpBy(a + b, plan) && Dep(b, i, j) && i < |b| && j < |b|
    ensures EdgeUp(b, Shifted(plan, |a|, |b|), i, j)
  {
    hide BottomUpBy, Dep, NegDep, IsFirst, Shifted;
    var n := |a|;
    ShiftedDep(a, b, i, j);
    PlanEdge(a + b, plan, i + n, j + n);
    assert LateAt(plan, n, i) ==> LateAt(plan, n, j);
    if IsFirst(plan, j + n) {
      ShiftedFirst(plan, n, |b|, j);
    }
  }

  /** Where the rest of a component is recursive, so is the component, and its first rule is the same. */
  lemma ShiftedRecursive(a: seq<Rule>, b: seq<Rule>, plan: Plan, f: nat)
    requires |plan.comp| == |plan.rank| == |a| + |b| && BottomUpBy(a + b, plan) && f < |b|
    requires Recursive(b, Shifted(plan, |a|, |b|), f)
    ensures IsFirst(plan, f + |a|) && Recursive(a + b, plan, f + |a|)
  {
    hide BottomUpBy, Dep, NegDep, IsFirst, Shifted;
    var n, plan' := |a|, Shifted(plan, |a|, |b|);
    var k: nat :| k < |b| && Dep(b, k, f) && plan'.comp[k] == plan'.comp[f] && plan'.rank[k] >= plan'.rank[f];
    ShiftedDep(a, b, k, f);
    PlanEdge(a + b, plan, k + n, f + n);
    assert k + n < |a + b| && Dep(a + b, k + n, f + n);
  }

  lemma ShiftedStays(a: seq<Rule>, b: seq<Rule>, plan: Plan, f: nat, x: nat)
    requires |plan.comp| == |plan.rank| == |a| + |b| && BottomUpBy(a + b, plan) && f < |b| && x < |b|
    requires var plan' := Shifted(plan, |a|, |b|);
             Recursive(b, plan', f) && x in plan'.late && plan'.comp[x] == plan'.comp[f]
    ensures StaysIn(b, Shifted(plan, |a|, |b|), x)
  {
    hide BottomUpBy, Dep, NegDep, Shifted, Recursive, IsFirst;
    var n := |a|;
    ShiftedRecursive(a, b, plan, f);
    assert LateAt(plan, n, x);
    var y := PlanStays(a + b, plan, f + n, x + n);
    ShiftedDep(a, b, x, y - n);
  }

  /** In a recursive component every late rule feeds one from the first on. */
  lemma PlanStays(rules: seq<Rule>, plan: Plan, f: nat, x: nat) returns (y: nat)
    requires BottomUpBy(rules, plan) && |plan.comp| == |plan.rank| == |rules| && f < |rules| && x < |rules|
    requires IsFirst(plan, f) && Recursive(rules, plan, f) && x in plan.late && plan.comp[x] == plan.comp[f]
    ensures f <= y < |rules| && Dep(rules, x, y) && plan.comp[y] == plan.comp[x]
  {
    assert StaysIn(rules, plan, x);
    hide Dep, NegDep, Recursive;
    y :| y < |rules| && Dep(rules, x, y) && plan.comp[y] == plan.comp[x];
    PlanEdge(rules, plan, x, y);
  }

  // ---- What holds between partitions ----

  /** The whole component of `b` is in partitions up to the one `b` is in. */
  ghost predicate ComponentDone(rules: seq<Rule>, s: Sort, plan: Plan, b: nat)
    requires |plan.comp| == |rules| && s.level.Keys == s.popped && b in s.popped && b < |rules|
  {
    forall x: nat | x < |rules| && plan.comp[x] == plan.comp[b] :: x in s.popped && s.level[x] <= s.level[b]
  }

  /** What was left when `b` was released is of its component or higher, and the first rule was released too. */
  ghost predicate ReleasedWell(rules: seq<Rule>, s: Sort, plan: Plan, b: nat)
    requires |plan.comp| == |rules| && b < |rules|
  {
    && b in plan.late && b in s.left
    && (forall x | x in s.left[b] :: x < |rules| && plan.comp[x] >= plan.comp[b])
    && exists f: nat :: IsFirst(plan, f) && plan.comp[f] == plan.comp[b] && f in s.broken
  }

  ghost predicate PlanOpen(rules: seq<Rule>, s: Sort, plan: Plan) {
    && |plan.comp| == |rules| && s.level.Keys == s.popped
    && (forall b | b in s.broken :: b < |rules| && ReleasedWell(rules, s, plan, b) && (b in s.popped ==> ComponentDone(rules, s, plan, b)))
  }

  /** Nothing that was released still waits. */
  ghost predicate PlanClosed(rules: seq<Rule>, s: Sort, plan: Plan) {
    PlanOpen(rules, s, plan) && s.broken <= s.popped
  }

  ghost predicate PlansOpen(rules: seq<Rule>, s: Sort) {
    forall plan | BottomUpBy(rules, plan) :: PlanOpen(rules, s, plan)
  }

  ghost predicate PlansClosed(rules: seq<Rule>, s: Sort) {
    forall plan | BottomUpBy(rules, plan) :: PlanClosed(rules, s, plan)
  }

  lemma PlansStart(rules: seq<Rule>, s: Sort)
    requires s.broken == {} && s.level.Keys == s.popped
    ensures PlansClosed(rules, s)
  {
  }

  lemma ClosedIsOpen(rules: seq<Rule>, s: Sort)
    requires PlansClosed(rules, s)
    ensures PlansOpen(rules, s)
  {
    hide PlanOpen, BottomUpBy;
  }

  // ---- Filling a partition completes the component that was released ----

  /** A partition was filled from a state in which nothing was in it yet. */
  ghost predicate Filled(rules: seq<Rule>, s: Sort, ids: seq<nat>, s1: Sort) {
    && Sorting(rules, s) && Unfilled(s) && Sorting(rules, s1) && Followed(rules, s1, {})
    && PartitionOf(rules, s, s1, ids) && s1.ready == []
  }

  /** Why a rule has to wait at the end of a partition: a rule that waits too, or one of this partition that can block it. */
  lemma WaitsFor(rules: seq<Rule>, s1: Sort, x: nat) returns (i: nat)
    requires Sorting(rules, s1) && Followed(rules, s1, {}) && s1.ready == []
    requires x < |rules| && x !in s1.popped
    ensures i < |rules| && if i in s1.popped then NegDep(rules, i, x) && s1.level[i] == s1.current else Dep(rules, i, x)
  {
    if x in s1.next {
      i :| i in s1.popped && i in s1.level && s1.level[i] == s1.current && NegDep(rules, i, x);
    } else {
      assert !Queued(s1, x);
      assert !Released(rules, s1, x);
      assert Pending(rules, s1.done, x) != {};
      i :| i in Pending(rules, s1.done, x);
    }
  }

  lemma PlanEdge(rules: seq<Rule>, plan: Plan, i: nat, j: nat)
    requires BottomUpBy(rules, plan) && Dep(rules, i, j)
    ensures i < |rules| && j < |rules| && |plan.comp| == |plan.rank| == |rules|
    ensures plan.comp[i] <= plan.comp[j] && (NegDep(rules, i, j) ==> plan.comp[i] < plan.comp[j])
    ensures i in plan.late ==> j in plan.late
    ensures plan.comp[i] == plan.comp[j] && !IsFirst(plan, j) ==> plan.rank[i] < plan.rank[j]
  {
    assert EdgeUp(rules, plan, i, j);
  }

  /** Of two rules of the component of `b`, an edge between them into a rule that waits comes from one that waits. */
  lemma WaitsInside(rules: seq<Rule>, s1: Sort, plan: Plan, b: nat, x: nat, i: nat)
    requires |plan.comp| == |rules| && s1.level.Keys == s1.popped && LeftRight(rules, s1)
    requires b in s1.broken && b < |rules| && b in s1.popped && s1.level[b] == s1.current && ReleasedWell(rules, s1, plan, b)
    requires i < |rules| && plan.comp[i] <= plan.comp[b] && (i in s1.popped ==> plan.comp[i] < plan.comp[b] && s1.level[i] == s1.current)
    ensures i !in s1.popped && plan.comp[i] == plan.comp[b]
  {
    assert LeftOf(s1, i, b);
  }

  lemma FirstCame(rules: seq<Rule>, s1: Sort, plan: Plan, b: nat, x: nat)
    requires |plan.comp| == |rules| && s1.level.Keys == s1.popped && LeftRight(rules, s1) && s1.ready == []
    requires b < |rules| && ReleasedWell(rules, s1, plan, b) && x < |rules| && plan.comp[x] == plan.comp[b] && x !in s1.popped
    ensures !IsFirst(plan, x)
  {
    var f: nat :| IsFirst(plan, f) && plan.comp[f] == plan.comp[b] && f in s1.broken;
  }

  /** The component of a released rule comes in one piece. */
  lemma {:induction false} ComponentComes(rules: seq<Rule>, s1: Sort, plan: Plan, b: nat, x: nat)
    requires |plan.comp| == |plan.rank| == |rules| && s1.level.Keys == s1.popped
    requires BottomUpBy(rules, plan) && Sorting(rules, s1) && Followed(rules, s1, {}) && s1.ready == []
    requires b in s1.broken && b < |rules| && b in s1.popped && s1.level[b] == s1.current && ReleasedWell(rules, s1, plan, b)
    requires x < |rules| && plan.comp[x] == plan.comp[b]
    ensures x in s1.popped
    decreases plan.rank[x]
  {
    hide *;
    if x !in s1.popped {
      SortingParts(rules, s1);
      var i := WaitsFor(rules, s1, x);
      NegIsDepIf(rules, i, x);
      PlanEdge(rules, plan, i, x);
      WaitsInside(rules, s1, plan, b, x, i);
      FirstCame(rules, s1, plan, b, x);
      ComponentComes(rules, s1, plan, b, i);
    }
  }

  lemma NegIsDepIf(rules: seq<Rule>, i: nat, j: nat)
    ensures NegDep(rules, i, j) ==> Dep(rules, i, j)
  {
  }

  lemma SortingParts(rules: seq<Rule>, s: Sort)
    requires Sorting(rules, s)
    ensures |s.ordered| == |rules| && s.level.Keys == s.popped && LeftRight(rules, s) && (forall i | i in s.popped :: i < |rules| && s.level[i] <= s.current)
    ensures PoppedInOrder(rules, s)
  {
  }

  lemma FilledIs(rules: seq<Rule>, s: Sort, ids: seq<nat>, s1: Sort)
    requires Sorting(rules, s) && Unfilled(s) && Sorting(rules, s1) && Followed(rules, s1, {})
    requires PartitionOf(rules, s, s1, ids) && s1.ready == []
    ensures Filled(rules, s, ids, s1)
  {
  }

  lemma FilledParts(rules: seq<Rule>, s: Sort, ids: seq<nat>, s1: Sort)
    requires Filled(rules, s, ids, s1)
    ensures Sorting(rules, s1) && Followed(rules, s1, {}) && s1.ready == []
    ensures |s.ordered| == |s1.ordered| == |rules| && s.level.Keys == s.popped && s1.level.Keys == s1.popped
    ensures s1.broken == s.broken && s1.left == s.left && s.popped <= s1.popped && s1.current == s.current
    ensures forall i | i in s.popped :: s1.level[i] == s.level[i]
    ensures forall i | i in s1.popped :: i < |rules| && s1.level[i] <= s1.current
    ensures forall b | b in s1.broken :: b < |rules| && b in s1.popped && (b !in s.popped ==> s1.level[b] == s1.current)
  {
    SortingParts(rules, s);
    SortingParts(rules, s1);
  }

  lemma ReleaseStays(rules: seq<Rule>, s: Sort, s1: Sort, t: Sort, plan: Plan, b: nat)
    requires |plan.comp| == |rules| && b < |rules| && ReleasedWell(rules, s, plan, b)
    requires s1.broken == s.broken && s1.left == s.left && t.broken == s.broken && t.left == s.left
    ensures ReleasedWell(rules, s1, plan, b) && ReleasedWell(rules, t, plan, b)
  {
  }

  lemma DoneStays(rules: seq<Rule>, s: Sort, s1: Sort, plan: Plan, b: nat)
    requires |plan.comp| == |rules| && s.level.Keys == s.popped && s1.level.Keys == s1.popped && b < |rules| && b in s.popped
    requires s.popped <= s1.popped && forall i | i in s.popped :: s1.level[i] == s.level[i]
    requires ComponentDone(rules, s, plan, b)
    ensures ComponentDone(rules, s1, plan, b)
  {
  }

  lemma DoneTurned(rules: seq<Rule>, s1: Sort, t: Sort, plan: Plan, b: nat)
    requires |plan.comp| == |rules| && s1.level.Keys == s1.popped && b < |rules| && b in s1.popped && ComponentDone(rules, s1, plan, b)
    requires t.popped == s1.popped && t.level == s1.level
    ensures ComponentDone(rules, t, plan, b)
  {
  }

  lemma ComponentCame(rules: seq<Rule>, s1: Sort, plan: Plan, b: nat)
    requires |plan.comp| == |plan.rank| == |rules| && s1.level.Keys == s1.popped && forall i | i in s1.popped :: s1.level[i] <= s1.current
    requires BottomUpBy(rules, plan) && Sorting(rules, s1) && Followed(rules, s1, {}) && s1.ready == []
    requires b in s1.broken && b < |rules| && b in s1.popped && s1.level[b] == s1.current && ReleasedWell(rules, s1, plan, b)
    ensures ComponentDone(rules, s1, plan, b)
  {
    hide BottomUpBy, Sorting, Followed, ReleasedWell;
    forall x: nat | x < |rules| && plan.comp[x] == plan.comp[b] ensures x in s1.popped {
      ComponentComes(rules, s1, plan, b, x);
    }
  }

  lemma PlanIs(rules: seq<Rule>, s: Sort, plan: Plan)
    ensures PlanOpen(rules, s, plan) <==>
            && |plan.comp| == |rules| && s.level.Keys == s.popped
            && (forall b | b in s.broken :: b < |rules| && ReleasedWell(rules, s, plan, b) && (b in s.popped ==> ComponentDone(rules, s, plan, b)))
    ensures PlanClosed(rules, s, plan) <==> PlanOpen(rules, s, plan) && s.broken <= s.popped
    ensures BottomUpBy(rules, plan) ==> |plan.comp| == |plan.rank| == |rules|
  {
  }

  lemma PlanFilled(rules: seq<Rule>, s: Sort, ids: seq<nat>, s1: Sort, plan: Plan)
    requires Filled(rules, s, ids, s1) && BottomUpBy(rules, plan) && PlanOpen(rules, s, plan)
    ensures PlanClosed(rules, Turned(s1), plan)
  {
    hide *;
    var t := Turned(s1);
    FilledParts(rules, s, ids, s1);
    TurnedParts(s1);
    PlanIs(rules, s, plan);
    PlanIs(rules, t, plan);
    forall b | b in t.broken ensures b < |rules| && b in t.popped && ReleasedWell(rules, t, plan, b) && ComponentDone(rules, t, plan, b) {
      ReleaseStays(rules, s, s1, t, plan, b);
      if b in s.popped {
        DoneStays(rules, s, s1, plan, b);
      } else {
        ComponentCame(rules, s1, plan, b);
      }
      DoneTurned(rules, s1, t, plan, b);
    }
  }

  lemma PlansFilled(rules: seq<Rule>, s: Sort, ids: seq<nat>, s1: Sort)
    requires Filled(rules, s, ids, s1) && PlansOpen(rules, s)
    ensures PlansClosed(rules, Turned(s1))
  {
    hide Filled, PlanOpen, PlanClosed, BottomUpBy, Turned;
    forall plan | BottomUpBy(rules, plan) ensures PlanClosed(rules, Turned(s1), plan) {
      PlanFilled(rules, s, ids, s1, plan);
    }
  }

  // ---- When nothing is ready, the search finds the next component ----

  /** The sort is blocked, everything released before is done, and the rules are listed well. */
  ghost predicate BlockedSort(rules: seq<Rule>, s: Sort, plan: Plan) {
    Sorting(rules, s) && Followed(rules, s, {}) && Stuck(s) && BottomUpBy(rules, plan) && PlanClosed(rules, s, plan)
  }

  ghost predicate Waits(rules: seq<Rule>, s: Sort, x: nat) {
    x < |rules| && x !in s.popped
  }

  lemma BlockedParts(rules: seq<Rule>, s: Sort, plan: Plan)
    requires BlockedSort(rules, s, plan)
    ensures |s.ordered| == |rules| == |plan.comp| == |plan.rank| && s.level.Keys == s.popped && BottomUpBy(rules, plan)
    ensures forall x: nat | x < |rules| && x in s.popped :: s.ordered[x].output || s.ordered[x].numPredecessors == 0
    ensures forall x: nat | Waits(rules, s, x) :: !s.ordered[x].output && s.ordered[x].numPredecessors > 0
    ensures forall x: nat, y: nat | Dep(rules, x, y) && !s.ordered[y].output :: Waits(rules, s, y)
    ensures s.broken <= s.popped && PlanOpen(rules, s, plan)
    ensures forall x: nat | x < |rules| :: x in s.popped <==> Released(rules, s, x)
  {
    assert forall x: nat | x < |rules| :: x in s.popped <==> Released(rules, s, x);
  }

  lemma WaitsOn(rules: seq<Rule>, s: Sort, plan: Plan, x: nat) returns (i: nat)
    requires BlockedSort(rules, s, plan) && Waits(rules, s, x)
    ensures Waits(rules, s, i) && Dep(rules, i, x)
  {
    BlockedParts(rules, s, plan);
    i := StuckPredecessor(rules, s, x);
  }

  /** Rules that wait are late. */
  lemma {:induction false} WaitsLate(rules: seq<Rule>, s: Sort, plan: Plan, x: nat)
    requires BlockedSort(rules, s, plan) && Waits(rules, s, x) && |plan.comp| == |plan.rank| == |rules|
    ensures x in plan.late
    decreases plan.comp[x], plan.rank[x]
  {
    hide *;
    hide BlockedSort;
    if x !in plan.late {
      BlockedParts(rules, s, plan);
      var i := WaitsOn(rules, s, plan, x);
      PlanEdge(rules, plan, i, x);
      NotFirst(plan, x);
      WaitsLate(rules, s, plan, i);
    }
  }

  lemma NotFirst(plan: Plan, x: nat)
    requires x !in plan.late
    ensures !IsFirst(plan, x)
  {
  }

  /** In the lowest component that waits, its first rule waits for the component itself. */
  lemma {:induction false} FirstWaits(rules: seq<Rule>, s: Sort, plan: Plan, x: nat) returns (f: nat)
    requires BlockedSort(rules, s, plan) && Waits(rules, s, x) && |plan.comp| == |plan.rank| == |rules|
    requires forall y: nat | Waits(rules, s, y) && y < |rules| :: plan.comp[y] >= plan.comp[x]
    ensures Waits(rules, s, f) && f < |rules| && plan.comp[f] == plan.comp[x] && IsFirst(plan, f) && Recursive(rules, plan, f)
    decreases plan.rank[x]
  {
    hide IsFirst, BottomUpBy, PlanClosed, Sorting, Followed, Stuck, Dep, BlockedSort;
    BlockedParts(rules, s, plan);
    var i := WaitsOn(rules, s, plan, x);
    PlanEdge(rules, plan, i, x);
    if IsFirst(plan, x) && plan.rank[i] >= plan.rank[x] {
      f := x;
    } else {
      f := FirstWaits(rules, s, plan, i);
    }
  }

  lemma {:induction false} LeastWaiting(rules: seq<Rule>, s: Sort, n: nat) returns (m: nat)
    requires n <= |rules| && exists x: nat :: x < n && Waits(rules, s, x)
    ensures m < n && Waits(rules, s, m) && forall k: nat | k < m :: !Waits(rules, s, k)
  {
    if x: nat :| x < n - 1 && Waits(rules, s, x) {
      m := LeastWaiting(rules, s, n - 1);
    } else {
      m := n - 1;
    }
  }

  /** The first rule that waits is the first rule of a recursive component, the lowest that waits. */
  ghost predicate Next(rules: seq<Rule>, s: Sort, plan: Plan, m: nat)
    requires |plan.comp| == |plan.rank| == |rules|
  {
    && Waits(rules, s, m) && IsFirst(plan, m) && Recursive(rules, plan, m)
    && (forall k: nat | k < m :: !Waits(rules, s, k))
    && (forall y: nat | Waits(rules, s, y) :: y in plan.late && plan.comp[y] >= plan.comp[m])
  }

  lemma NextComponent(rules: seq<Rule>, s: Sort, plan: Plan) returns (m: nat)
    requires BlockedSort(rules, s, plan) && exists x: nat :: Waits(rules, s, x)
    ensures |plan.comp| == |plan.rank| == |rules| && m < |rules| && Next(rules, s, plan, m)
  {
    hide BlockedSort, IsFirst, Recursive, BottomUpBy, Sorting, PlanOpen, Released, Dep;
    BlockedParts(rules, s, plan);
    m := LeastWaiting(rules, s, |rules|);
    WaitsLate(rules, s, plan, m);
    forall y: nat | Waits(rules, s, y) ensures y in plan.late && plan.comp[y] >= plan.comp[m] {
      WaitsLate(rules, s, plan, y);
      LaterIsHigher(rules, plan, m, y);
    }
    var f := FirstWaits(rules, s, plan, m);
    OneFirst(plan, f, m);
  }

  lemma LaterIsHigher(rules: seq<Rule>, plan: Plan, m: nat, y: nat)
    requires BottomUpBy(rules, plan) && m <= y < |rules| && m in plan.late && y in plan.late
    ensures |plan.comp| == |rules| && plan.comp[m] <= plan.comp[y]
  {
  }

  lemma OneFirst(plan: Plan, f: nat, m: nat)
    requires m <= f < |plan.comp| && IsFirst(plan, f) && m in plan.late && plan.comp[m] == plan.comp[f]
    ensures m == f
  {
  }

  /** What fed a rule of its own component came before it. */
  lemma FeedersCame(rules: seq<Rule>, s: Sort, plan: Plan, x: nat, y: nat)
    requires |plan.comp| == |rules| && s.level.Keys == s.popped && PoppedInOrder(rules, s) && PlanOpen(rules, s, plan)
    requires x < |rules| && y < |rules| && Dep(rules, x, y) && plan.comp[x] == plan.comp[y] && y in s.popped
    ensures x in s.popped
  {
    hide Dep, NegDep, ReleasedWell;
    if y in s.broken {
      assert ComponentDone(rules, s, plan, y);
    }
  }

  /** A rule of that component that waits feeds another one. */
  lemma StaysWaiting(rules: seq<Rule>, s: Sort, plan: Plan, m: nat, x: nat) returns (y: nat)
    requires BlockedSort(rules, s, plan) && |plan.comp| == |plan.rank| == |rules| && Next(rules, s, plan, m)
    requires Waits(rules, s, x) && plan.comp[x] == plan.comp[m]
    ensures Waits(rules, s, y) && y < |rules| && plan.comp[y] == plan.comp[m] && Dep(rules, x, y)
  {
    BlockedParts(rules, s, plan);
    assert Sorting(rules, s);
    hide Sorting, BlockedSort, Dep, IsFirst, Recursive, PlanOpen, Released;
    SortingParts(rules, s);
    assert StaysIn(rules, plan, x);
    y :| y < |rules| && Dep(rules, x, y) && plan.comp[y] == plan.comp[x];
    hide BottomUpBy;
    if y in s.popped {
      FeedersCame(rules, s, plan, x, y);
    }
  }

  /** The path of the dive: rules of the component that wait, from its first one. */
  ghost predicate InDive(rules: seq<Rule>, s: Sort, plan: Plan, m: nat, path: seq<nat>)
    requires |plan.comp| == |rules| && m < |rules|
  {
    (forall x | x in path :: Waits(rules, s, x) && plan.comp[x] == plan.comp[m]) && (path != [] ==> m in path)
  }

  lemma Deeper(rules: seq<Rule>, s: Sort, plan: Plan, m: nat, path: seq<nat>, x: nat)
    requires |plan.comp| == |rules| && m < |rules| && InDive(rules, s, plan, m, path)
    requires Waits(rules, s, x) && plan.comp[x] == plan.comp[m] && (path == [] ==> x == m)
    ensures InDive(rules, s, plan, m, path + [x]) && Elements(path + [x]) == Elements(path) + {x}
  {
    assert forall y :: y in path + [x] <==> y in path || y == x;
  }

  /** The search never leaves the component before it meets its path again. */
  lemma {:induction false} Dive(rules: seq<Rule>, s: Sort, plan: Plan, m: nat, x: nat, visited: set<nat>, path: seq<nat>)
    requires BlockedSort(rules, s, plan) && |s.ordered| == |plan.comp| == |plan.rank| == |rules| && m < |rules| && Next(rules, s, plan, m)
    requires x < |rules| && Waits(rules, s, x) && plan.comp[x] == plan.comp[m]
    requires visited == Elements(path) && InDive(rules, s, plan, m, path) && (path == [] ==> x == m)
    ensures var r := Dfs(rules, s, x, visited, path); r.Found? && r.path != [] && InDive(rules, s, plan, m, r.path)
    decreases Unpopped(rules, visited), 0, 0
  {
    hide Next, BlockedSort, InDive, Waits, Dep;
    if x !in visited {
      UnpoppedShrinks(rules, visited, x);
      var y := StaysWaiting(rules, s, plan, m, x);
      Deeper(rules, s, plan, m, path, x);
      DiveFrom(rules, s, plan, m, x, 0, y, visited + {x}, path + [x]);
    }
  }

  lemma {:induction false} DiveFrom(rules: seq<Rule>, s: Sort, plan: Plan, m: nat, x: nat, j: nat, y: nat, visited: set<nat>, path: seq<nat>)
    requires BlockedSort(rules, s, plan) && |s.ordered| == |plan.comp| == |plan.rank| == |rules| && m < |rules| && Next(rules, s, plan, m)
    requires Waits(rules, s, x) && x < |rules| && plan.comp[x] == plan.comp[m]
    requires Waits(rules, s, y) && y < |rules| && plan.comp[y] == plan.comp[m] && Dep(rules, x, y) && j <= y
    requires visited == Elements(path) && InDive(rules, s, plan, m, path) && path != []
    ensures var r := DfsFrom(rules, s, x, j, visited, path); r.Found? && r.path != [] && InDive(rules, s, plan, m, r.path)
    decreases Unpopped(rules, visited), 1, |rules| - j
  {
    hide Next, BlockedSort, InDive, Dep, BottomUpBy, NegDep, PlanOpen, Released;
    BlockedParts(rules, s, plan);
    if !Dep(rules, x, j) || s.ordered[j].output {
      DiveFrom(rules, s, plan, m, x, j + 1, y, visited, path);
    } else {
      SameComponent(rules, s, plan, m, x, j, y);
      Dive(rules, s, plan, m, j, visited, path);
    }
  }

  /** Listed before `y`, a successor of `x` that waits is of the same component. */
  lemma SameComponent(rules: seq<Rule>, s: Sort, plan: Plan, m: nat, x: nat, j: nat, y: nat)
    requires BottomUpBy(rules, plan) && |plan.comp| == |plan.rank| == |rules| && m < |rules| && Next(rules, s, plan, m)
    requires x < |rules| && plan.comp[x] == plan.comp[m] && Waits(rules, s, y) && plan.comp[y] == plan.comp[m]
    requires j <= y && Waits(rules, s, j) && Dep(rules, x, j)
    ensures plan.comp[j] == plan.comp[m] && !NegDep(rules, x, j)
  {
    PlanEdge(rules, plan, x, j);
  }

  lemma {:induction false} SearchReaches(rules: seq<Rule>, s: Sort, start: nat, m: nat)
    requires |s.ordered| == |rules| && start <= m < |rules|
    requires forall k: nat | start <= k < m :: s.ordered[k].output || s.ordered[k].numPredecessors == 0
    ensures SearchFrom(rules, s, start) == SearchFrom(rules, s, m)
    decreases m - start
  {
    if start < m {
      SearchReaches(rules, s, start + 1, m);
    }
  }

  lemma SearchFinds(rules: seq<Rule>, s: Sort, plan: Plan, m: nat)
    requires BlockedSort(rules, s, plan) && |s.ordered| == |plan.comp| == |plan.rank| == |rules| && m < |rules| && Next(rules, s, plan, m)
    ensures var r := SearchFrom(rules, s, 0); r.Found? && r.path != [] && InDive(rules, s, plan, m, r.path)
  {
    hide BlockedSort, BottomUpBy, Dep, IsFirst, Recursive, PlanOpen, Released;
    BlockedParts(rules, s, plan);
    SearchReaches(rules, s, 0, m);
    SearchNext(rules, s, m);
    Dive(rules, s, plan, m, m, {}, []);
  }

  // ---- Releasing it ----

  /** What is known of a rule on the path while the path is being released. */
  ghost predicate ReleasedNow(s: Sort, x: nat) {
    x in s.broken && x in s.left && s.left[x] == StillLeft(s)
  }

  lemma {:induction false} BreakAllParts(s: Sort, path: seq<nat>)
    requires forall x | x in path :: x < |s.ordered| && (s.ordered[x].output ==> ReleasedNow(s, x))
    ensures var s' := BreakAll(s, path);
            && s'.popped == s.popped && s'.level == s.level && s.broken <= s'.broken && s.left.Keys <= s'.left.Keys
            && StillLeft(s') == StillLeft(s)
            && (forall x | x in path :: ReleasedNow(s', x))
            && (forall b | b in s'.broken :: b in s.broken || b in path)
            && (forall b | b in s.left && b !in path :: s'.left[b] == s.left[b])
    decreases |path|
  {
    if path != [] {
      var s1 := BreakOne(s, path[0]);
      assert path == [path[0]] + path[1..];
      assert forall x :: x in path <==> x == path[0] || x in path[1..];
      assert path[0] in path;
      BreakOneParts(s, path[0]);
      forall x | x in path[1..] ensures x < |s1.ordered| && (s1.ordered[x].output ==> ReleasedNow(s1, x)) {
        BreakOneKeeps(s, path[0], x);
      }
      hide BreakOne, ReleasedNow, StillLeft;
      BreakAllParts(s1, path[1..]);
      ReleasedKept(s1, path[1..], path[0]);
    }
  }

  lemma BreakOneParts(s: Sort, x: nat)
    requires x < |s.ordered| && (s.ordered[x].output ==> ReleasedNow(s, x))
    ensures var s' := BreakOne(s, x);
            && |s'.ordered| == |s.ordered| && s'.popped == s.popped && s'.level == s.level && s.broken <= s'.broken <= s.broken + {x}
            && s.left.Keys <= s'.left.Keys && StillLeft(s') == StillLeft(s) && s'.ordered[x].output && ReleasedNow(s', x)
            && (forall b | b in s.left && b != x :: s'.left[b] == s.left[b])
  {
    assert StillLeft(BreakOne(s, x)) == StillLeft(s);
  }

  /** Releasing one rule keeps what is known of another. */
  lemma BreakOneKeeps(s: Sort, x: nat, y: nat)
    requires y < |s.ordered| && (s.ordered[y].output ==> ReleasedNow(s, y))
    ensures var s' := BreakOne(s, x); y < |s'.ordered| && (s'.ordered[y].output ==> ReleasedNow(s', y))
    ensures s.ordered[y].output ==> BreakOne(s, x).ordered[y].output
  {
    assert StillLeft(BreakOne(s, x)) == StillLeft(s);
  }

  /** A rule that is out stays as it was released. */
  lemma {:induction false} ReleasedKept(s: Sort, path: seq<nat>, x: nat)
    requires x < |s.ordered| && s.ordered[x].output && ReleasedNow(s, x)
    ensures ReleasedNow(BreakAll(s, path), x)
    decreases |path|
  {
    if path != [] {
      BreakOneKeeps(s, path[0], x);
      hide BreakOne, ReleasedNow;
      ReleasedKept(BreakOne(s, path[0]), path[1..], x);
    }
  }

  lemma PlanReleased(rules: seq<Rule>, s: Sort, plan: Plan, m: nat, path: seq<nat>)
    requires BlockedSort(rules, s, plan) && |s.ordered| == |plan.comp| == |plan.rank| == |rules| && m < |rules| && Next(rules, s, plan, m)
    requires path != [] && InDive(rules, s, plan, m, path)
    ensures PlanOpen(rules, BreakAll(s, path), plan)
  {
    hide *;
    var s' := BreakAll(s, path);
    BlockedParts(rules, s, plan);
    DiveParts(rules, s, plan, m, path);
    BreakAllParts(s, path);
    PlanIs(rules, s, plan);
    PlanIs(rules, s', plan);
    forall b | b in s'.broken
      ensures b < |rules| && ReleasedWell(rules, s', plan, b) && (b in s'.popped ==> ComponentDone(rules, s', plan, b))
    {
      if b in path {
        NewRelease(rules, s, s', plan, m, b);
      } else {
        OldRelease(rules, s, s', plan, b);
        DoneTurned(rules, s, s', plan, b);
      }
    }
  }

  lemma DiveParts(rules: seq<Rule>, s: Sort, plan: Plan, m: nat, path: seq<nat>)
    requires |plan.comp| == |plan.rank| == |rules| && m < |rules| && Next(rules, s, plan, m) && InDive(rules, s, plan, m, path)
    requires |s.ordered| == |rules| && forall x: nat | Waits(rules, s, x) :: !s.ordered[x].output
    ensures forall x | x in path :: x < |s.ordered| && !s.ordered[x].output && x !in s.popped && plan.comp[x] == plan.comp[m]
    ensures path != [] ==> m in path
    ensures IsFirst(plan, m) && m in plan.late && forall x | x in path :: x in plan.late
    ensures forall x | x in StillLeft(s) :: x < |rules| && plan.comp[x] >= plan.comp[m]
  {
    forall x | x in StillLeft(s) ensures x < |rules| && plan.comp[x] >= plan.comp[m] {
      assert Waits(rules, s, x);
    }
  }

  lemma NewRelease(rules: seq<Rule>, s: Sort, s': Sort, plan: Plan, m: nat, b: nat)
    requires |plan.comp| == |rules| && b < |rules| && m < |rules| && b in plan.late && plan.comp[b] == plan.comp[m]
    requires ReleasedNow(s', b) && ReleasedNow(s', m) && StillLeft(s') == StillLeft(s) && IsFirst(plan, m)
    requires forall x | x in StillLeft(s) :: x < |rules| && plan.comp[x] >= plan.comp[m]
    ensures ReleasedWell(rules, s', plan, b)
  {
    hide IsFirst, StillLeft;
  }

  lemma OldRelease(rules: seq<Rule>, s: Sort, s': Sort, plan: Plan, b: nat)
    requires |plan.comp| == |rules| && b < |rules| && ReleasedWell(rules, s, plan, b)
    requires s.broken <= s'.broken && s.left.Keys <= s'.left.Keys && (b in s.left ==> s'.left[b] == s.left[b])
    ensures ReleasedWell(rules, s', plan, b)
  {
  }

  /** For rules listed bottom up, what breaks a cycle is right; the search is never blocked. */
  lemma PlansHandled(rules: seq<Rule>, s: Sort, r: Outcome, s': Sort)
    requires Sorting(rules, s) && Followed(rules, s, {}) && Stuck(s) && PlansClosed(rules, s) && |s.ordered| == |rules|
    requires Handled(rules, s, r, s')
    ensures BottomUp(rules) ==> r.Ok?
    ensures r.Ok? ==> PlansOpen(rules, s')
  {
    forall plan | BottomUpBy(rules, plan) ensures r.Ok? && PlanOpen(rules, s', plan) {
      PlanHandled(rules, s, r, s', plan);
    }
  }

  lemma PlanHandled(rules: seq<Rule>, s: Sort, r: Outcome, s': Sort, plan: Plan)
    requires Sorting(rules, s) && Followed(rules, s, {}) && Stuck(s) && |s.ordered| == |rules|
    requires BottomUpBy(rules, plan) && PlanClosed(rules, s, plan) && Handled(rules, s, r, s')
    ensures r.Ok? && PlanOpen(rules, s', plan)
  {
    assert BlockedSort(rules, s, plan);
    hide Sorting, Followed, Stuck, BottomUpBy, Next, InDive, PlanOpen, BlockedSort, Dep, Released;
    BlockedParts(rules, s, plan);
    if x: nat :| Waits(rules, s, x) {
      var m := NextComponent(rules, s, plan);
      SearchFinds(rules, s, plan, m);
      PlanReleased(rules, s, plan, m, SearchFrom(rules, s, 0).path);
    } else {
      assert forall k: nat | k < |rules| :: !Waits(rules, s, k);
      NothingFound(rules, s, 0);
    }
  }

  lemma {:induction false} NothingFound(rules: seq<Rule>, s: Sort, start: nat)
    requires |s.ordered| == |rules| && start <= |rules|
    requires forall k: nat | k < |rules| :: s.ordered[k].output || s.ordered[k].numPredecessors == 0
    ensures SearchFrom(rules, s, start) == NotFound({})
    decreases |rules| - start
  {
    if start < |rules| {
      NothingFound(rules, s, start + 1);
    }
  }

  // ---- The end ----

  /** When all is done, every release was right. */
  lemma PlansRight(rules: seq<Rule>, s: Sort)
    requires BottomUp(rules) && Sorting(rules, s) && PlansOpen(rules, s) && forall i: nat | i < |rules| :: i in s.popped
    ensures s.level.Keys == s.popped && ReleasesRight(rules, s)
  {
    hide Sorting, BottomUpBy, PlanOpen, ReleasesRight;
    SortingParts(rules, s);
    var plan :| BottomUpBy(rules, plan);
    PlanIs(rules, s, plan);
    PlanRight(rules, s, plan);
  }

  lemma PlanRight(rules: seq<Rule>, s: Sort, plan: Plan)
    requires BottomUpBy(rules, plan) && PlanOpen(rules, s, plan) && s.level.Keys == s.popped && LeftRight(rules, s)
    ensures ReleasesRight(rules, s)
  {
    hide BottomUpBy, PlanOpen, LeftRight, Dep, NegDep, ReleasedWell, ComponentDone, IsFirst;
    PlanIs(rules, s, plan);
    forall a: nat, b: nat | b in s.broken && b in s.left && b in s.popped && a in s.left[b] && a in s.popped && Dep(rules, a, b)
      ensures s.level[a] == s.level[b] && !NegDep(rules, a, b)
    {
      PlanEdge(rules, plan, a, b);
      RightRelease(rules, s, plan, a, b);
    }
  }

  lemma RightRelease(rules: seq<Rule>, s: Sort, plan: Plan, a: nat, b: nat)
    requires |plan.comp| == |rules| && s.level.Keys == s.popped && LeftRight(rules, s) && b in s.broken && b < |rules| && b in s.popped
    requires ReleasedWell(rules, s, plan, b) && ComponentDone(rules, s, plan, b)
    requires a in s.left[b] && a in s.popped && a < |rules| && plan.comp[a] <= plan.comp[b]
    ensures s.level[a] == s.level[b] && plan.comp[a] == plan.comp[b]
  {
    assert LeftOf(s, a, b);
  }

  // ---- What the sort promises ----

  /**
   * The outcome of sorting from `s0`, as the run computes it.  The strata are in order if and only if at each
   * release of a cycle every rule left that feeds a released one came into the same stratum and none left
   * could block it; released rules aside they always are.
   */
  ghost predicate SortedAs(rules: seq<Rule>, s0: Sort, r: Outcome, strata: seq<seq<Rule>>, run: Ordering)
    requires |s0.ordered| == |rules|
  {
    && run == Order(rules, s0)
    && (r.Ok? ==>
          && Written(rules, run, strata)
          && (StrataInOrder(strata, {}) <==> ReleasesRight(rules, run.end))
          && StrataInOrder(strata, BrokenRules(rules, run.end))
          && (Acyclic(rules) ==> BrokenRules(rules, run.end) == {}))
    && (r.Err? ==> RefusedWith(rules, run, r) && NegativeEdgeFrom(rules, r.error.rule))
  }

  lemma SortedIs(rules: seq<Rule>, s0: Sort, r: Outcome, strata: seq<seq<Rule>>, run: Ordering)
    requires |s0.ordered| == |rules| && run == Order(rules, s0) && (r.Ok? || (RefusedWith(rules, run, r) && NegativeEdgeFrom(rules, r.error.rule)))
    requires r.Ok? ==>
               && Written(rules, run, strata)
               && (StrataInOrder(strata, {}) <==> ReleasesRight(rules, run.end))
               && StrataInOrder(strata, BrokenRules(rules, run.end))
               && (Acyclic(rules) ==> BrokenRules(rules, run.end) == {})
    ensures SortedAs(rules, s0, r, strata, run)
  {
  }
}
