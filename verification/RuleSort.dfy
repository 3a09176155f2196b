/** Kahn's algorithm on the dependency edges, with cycles broken as they block it: the steps, on values. */
module RuleSort {
  import opened Syntax
  import opened Unification

  datatype OrderedRule = OrderedRule(rule: Rule, successors: seq<PatternEdge>, numPredecessors: nat,
                                     usesIntensionalNegativeEdge: bool, output: bool)

  // ---- The dependency graph ----

  /** The head of rule `i` can feed or block rule `j`. */
  ghost predicate Dep(rules: seq<Rule>, i: nat, j: nat) {
    && i < |rules| && j < |rules| && rules[i].head.NormalHead?
    && (CanFeed(rules[i].head.pattern, rules[j]) || CanBlock(rules[i].head.pattern, rules[j]))
  }

  ghost predicate NegDep(rules: seq<Rule>, i: nat, j: nat) {
    && i < |rules| && j < |rules| && rules[i].head.NormalHead?
    && CanBlock(rules[i].head.pattern, rules[j])
  }

  ghost predicate NoPreds(rules: seq<Rule>, j: nat) {
    forall i :: !Dep(rules, i, j)
  }

  /** The edge records an edge out of rule `i`. */
  ghost predicate OutEdge(rules: seq<Rule>, i: nat, e: PatternEdge)
    requires i < |rules|
  {
    rules[i].head.NormalHead? && IsEdge(rules[i].head.pattern, rules, e)
  }

  ghost predicate IndexOf(rules: seq<Rule>, ruleIndex: map<Rule, nat>) {
    && NoDup(rules)
    && (forall r :: r in ruleIndex <==> r in rules)
    && (forall i | 0 <= i < |rules| :: rules[i] in ruleIndex && ruleIndex[rules[i]] == i)
  }

  /** What does not change while sorting. */
  ghost predicate GraphOk(rules: seq<Rule>, ruleIndex: map<Rule, nat>, ordered: seq<OrderedRule>) {
    && IndexOf(rules, ruleIndex) && |ordered| == |rules|
    && forall i | 0 <= i < |rules| ::
         && ordered[i].rule == rules[i] && NoDup(ordered[i].successors) && InRuleOrder(rules, ordered[i].successors)
         && forall e :: e in ordered[i].successors <==> OutEdge(rules, i, e)
  }

  lemma EdgeIsDep(rules: seq<Rule>, ruleIndex: map<Rule, nat>, i: nat, e: PatternEdge)
    requires IndexOf(rules, ruleIndex) && i < |rules| && OutEdge(rules, i, e)
    ensures e.rule in ruleIndex && ruleIndex[e.rule] < |rules| && rules[ruleIndex[e.rule]] == e.rule
    ensures Dep(rules, i, ruleIndex[e.rule])
    ensures e.NegativePatternEdge? <==> NegDep(rules, i, ruleIndex[e.rule])
  {
    var j :| 0 <= j < |rules| && rules[j] == e.rule;
  }

  lemma DepHasEdge(rules: seq<Rule>, i: nat, j: nat) returns (e: PatternEdge)
    requires Dep(rules, i, j)
    ensures i < |rules| && j < |rules| && OutEdge(rules, i, e) && e.rule == rules[j]
  {
    e := if CanBlock(rules[i].head.pattern, rules[j]) then NegativePatternEdge(rules[j]) else PositivePatternEdge(rules[j]);
    assert rules[j] in rules;
  }

  /** There is at most one edge between two rules. */
  lemma OneEdge(rules: seq<Rule>, i: nat, e: PatternEdge, e': PatternEdge)
    requires i < |rules| && OutEdge(rules, i, e) && OutEdge(rules, i, e') && e.rule == e'.rule
    ensures e == e'
  {
  }

  // ---- The state of the sort ----

  /**
   * `popped` rules are in a partition already, the one at position `level`; `current` is the position of
   * the partition being filled, `done` the edges that have been followed, `broken` the rules that were
   * released to break a cycle, and `left` the rules that were in no partition when such a rule was released.
   */
  datatype Sort = Sort(ordered: seq<OrderedRule>, ready: seq<nat>, next: seq<nat>, popped: set<nat>, level: map<nat, nat>,
                       current: nat, broken: set<nat>, left: map<nat, set<nat>>, done: set<(nat, nat)>)

  ghost function Pending(rules: seq<Rule>, done: set<(nat, nat)>, j: nat): set<nat> {
    set i: nat | i < |rules| && Dep(rules, i, j) && (i, j) !in done
  }

  ghost predicate Released(rules: seq<Rule>, s: Sort, j: nat)
    requires j < |s.ordered|
  {
    s.ordered[j].output || NoPreds(rules, j)
  }

  ghost predicate Queued(s: Sort, j: nat) {
    j in s.ready || j in s.next
  }

  ghost predicate QueuesOk(rules: seq<Rule>, s: Sort) {
    && |s.ordered| == |rules|
    && NoDup(s.ready + s.next)
    && (forall j: nat | j in s.popped :: j < |rules|)
    && (forall j: nat | Queued(s, j) :: j < |rules| && j !in s.popped)
    && (forall j: nat | j < |rules| :: (j in s.popped || Queued(s, j)) <==> Released(rules, s, j))
  }

  /** Predecessor counts are right, so decrementing one never underflows. */
  ghost predicate CountsRight(rules: seq<Rule>, s: Sort)
    requires |s.ordered| == |rules|
  {
    forall j: nat | j < |rules| ::
      && (NoPreds(rules, j) ==> s.ordered[j].numPredecessors == 0)
      && (!Released(rules, s, j) ==>
            s.ordered[j].numPredecessors == |Pending(rules, s.done, j)| && s.ordered[j].numPredecessors > 0)
  }

  ghost predicate LevelsOk(rules: seq<Rule>, s: Sort) {
    && s.level.Keys == s.popped && (forall i | i in s.popped :: s.level[i] <= s.current)
    && (forall e | e in s.done :: Dep(rules, e.0, e.1) && e.0 in s.popped)
  }

  /** The edges into a rule released in turn have all been followed. */
  ghost predicate FollowedInto(rules: seq<Rule>, s: Sort)
    requires |s.ordered| == |rules|
  {
    forall i: nat, j: nat | j < |rules| && Released(rules, s, j) && j !in s.broken && Dep(rules, i, j) :: (i, j) in s.done
  }

  /** A rule ready for the current partition is blocked only from earlier ones. */
  ghost predicate ReadyInOrder(rules: seq<Rule>, s: Sort)
    requires s.level.Keys == s.popped
  {
    forall i: nat, j: nat | j in s.ready && j !in s.broken && NegDep(rules, i, j) :: i in s.popped && s.level[i] < s.current
  }

  /** Rules that were not released to break a cycle come after their predecessors, strictly after a NOT. */
  ghost predicate PoppedInOrder(rules: seq<Rule>, s: Sort)
    requires s.level.Keys == s.popped
  {
    forall i: nat, j: nat | j in s.popped && j !in s.broken && Dep(rules, i, j) ::
      i in s.popped && s.level[i] <= s.level[j] && (NegDep(rules, i, j) ==> s.level[i] < s.level[j])
  }

  /** A waiting rule that a rule of this partition can block carries the flag. */
  ghost predicate FlagsRight(rules: seq<Rule>, s: Sort)
    requires |s.ordered| == |rules| && s.level.Keys == s.popped
  {
    forall i: nat, j: nat | j < |rules| && !Released(rules, s, j) && (i, j) in s.done && NegDep(rules, i, j) &&
                            !s.ordered[j].usesIntensionalNegativeEdge :: i in s.popped && s.level[i] < s.current
  }

  ghost predicate InOrder(rules: seq<Rule>, s: Sort)
    requires |s.ordered| == |rules| && s.level.Keys == s.popped
  {
    FollowedInto(rules, s) && ReadyInOrder(rules, s) && PoppedInOrder(rules, s) && FlagsRight(rules, s)
  }

  /** A rule of this partition that can block `j`. */
  ghost predicate BlockedNow(rules: seq<Rule>, s: Sort, j: nat) {
    exists i: nat :: i in s.popped && i in s.level && s.level[i] == s.current && NegDep(rules, i, j)
  }

  /** Conversely, flags and the next queue are due to rules of this partition. */
  ghost predicate FlagsMeant(rules: seq<Rule>, s: Sort)
    requires |s.ordered| == |rules|
  {
    forall j: nat | j < |rules| && (j in s.next || (!Released(rules, s, j) && s.ordered[j].usesIntensionalNegativeEdge)) ::
      BlockedNow(rules, s, j)
  }

  /** The partition in which a rule was released to break a cycle. */
  ghost function ReleasedIn(s: Sort, b: nat): nat
    requires s.level.Keys == s.popped
  {
    if b in s.popped then s.level[b] else s.current
  }

  /** `a` was in a partition before `b` was released, or comes in the same partition at the earliest. */
  ghost predicate LeftOf(s: Sort, a: nat, b: nat)
    requires s.level.Keys == s.popped && b in s.left
  {
    if a in s.left[b] then a in s.popped ==> s.level[a] >= ReleasedIn(s, b)
    else a in s.popped && s.level[a] < ReleasedIn(s, b)
  }

  /** What is known of the rules released to break a cycle. */
  ghost predicate LeftRight(rules: seq<Rule>, s: Sort)
    requires s.level.Keys == s.popped
  {
    && s.left.Keys == s.broken
    && (forall b | b in s.broken :: b < |rules| && (b in s.popped || b in s.ready))
    && (forall a: nat, b: nat | b in s.broken && a < |rules| :: LeftOf(s, a, b))
  }

  ghost predicate Sorting(rules: seq<Rule>, s: Sort) {
    QueuesOk(rules, s) && CountsRight(rules, s) && LevelsOk(rules, s) && InOrder(rules, s) && FlagsMeant(rules, s) && LeftRight(rules, s)
  }

  /** No rule has been taken for the current partition yet. */
  ghost predicate Unfilled(s: Sort) {
    forall i | i in s.popped && i in s.level :: s.level[i] < s.current
  }

  /** Every edge out of the popped rules, except possibly `busy`, has been followed. */
  ghost predicate Followed(rules: seq<Rule>, s: Sort, busy: set<nat>) {
    forall i: nat, j: nat | i in s.popped && i !in busy && Dep(rules, i, j) :: (i, j) in s.done
  }

  // ---- Taking a rule from the queue ----

  ghost function PopOne(s: Sort): Sort
    requires s.ready != []
  {
    s.(ready := s.ready[1..], popped := s.popped + {s.ready[0]}, level := s.level[s.ready[0] := s.current])
  }

  lemma NoDupHead(x: nat, rest: seq<nat>)
    requires NoDup([x] + rest)
    ensures x !in rest && NoDup(rest)
  {
    var a := [x] + rest;
    forall k | 0 <= k < |rest| ensures rest[k] != x {
      assert a[0] != a[k + 1];
    }
    forall k, l | 0 <= k < l < |rest| ensures rest[k] != rest[l] {
      assert a[k + 1] != a[l + 1];
    }
  }

  lemma PopNoDup(ready: seq<nat>, next: seq<nat>)
    requires ready != [] && NoDup(ready + next)
    ensures NoDup(ready[1..] + next) && ready[0] !in ready[1..] + next
  {
    assert ready + next == [ready[0]] + (ready[1..] + next);
    NoDupHead(ready[0], ready[1..] + next);
  }

  lemma PopFollowed(rules: seq<Rule>, s: Sort)
    requires Followed(rules, s, {}) && LevelsOk(rules, s) && s.ready != [] && s.ready[0] !in s.popped
    ensures Followed(rules, PopOne(s), {s.ready[0]})
    ensures forall e | e in s.done :: e.0 != s.ready[0]
  {
    hide Dep;
  }

  lemma PopStep(rules: seq<Rule>, s: Sort)
    requires Sorting(rules, s) && Followed(rules, s, {}) && s.ready != []
    ensures Sorting(rules, PopOne(s)) && Followed(rules, PopOne(s), {s.ready[0]})
    ensures s.ready[0] < |rules| && s.ready[0] !in s.popped
    ensures forall e | e in s.done :: e.0 != s.ready[0]
  {
    PopNoDup(s.ready, s.next);
    assert s.ready[0] in s.ready && Queued(s, s.ready[0]);
    PopQueues(rules, s);
    PopOrder(rules, s);
    PopFollowed(rules, s);
    PopLeft(rules, s);
    PopFlags(rules, s);
  }

  lemma PopLeft(rules: seq<Rule>, s: Sort)
    requires LevelsOk(rules, s) && LeftRight(rules, s) && s.ready != [] && s.ready[0] !in s.popped && s.ready[0] < |rules|
    ensures PopOne(s).level.Keys == PopOne(s).popped && LeftRight(rules, PopOne(s))
  {
    var s', idx := PopOne(s), s.ready[0];
    hide Dep;
    assert forall j :: j in s.ready <==> j == idx || j in s'.ready;
    forall a: nat, b: nat | b in s'.broken && a < |rules| ensures LeftOf(s', a, b) {
      assert LeftOf(s, a, b);
    }
  }

  lemma PopFlags(rules: seq<Rule>, s: Sort)
    requires QueuesOk(rules, s) && s.level.Keys == s.popped && FlagsMeant(rules, s) && s.ready != [] && s.ready[0] !in s.popped
    ensures FlagsMeant(rules, PopOne(s))
  {
    var s' := PopOne(s);
    hide NegDep, NoPreds;
    forall j: nat | j < |rules| && (j in s'.next || (!Released(rules, s', j) && s'.ordered[j].usesIntensionalNegativeEdge))
      ensures BlockedNow(rules, s', j)
    {
      assert Released(rules, s', j) == Released(rules, s, j);
      var i: nat :| i in s.popped && i in s.level && s.level[i] == s.current && NegDep(rules, i, j);
      assert i in s'.popped && s'.level[i] == s'.current;
    }
  }

  lemma PopQueues(rules: seq<Rule>, s: Sort)
    requires QueuesOk(rules, s) && CountsRight(rules, s) && LevelsOk(rules, s) && s.ready != []
    requires var s' := PopOne(s); NoDup(s'.ready + s'.next) && s.ready[0] !in s'.ready + s'.next
    ensures QueuesOk(rules, PopOne(s)) && CountsRight(rules, PopOne(s)) && LevelsOk(rules, PopOne(s))
  {
    var s', idx := PopOne(s), s.ready[0];
    assert forall j :: j in s.ready <==> j == idx || j in s'.ready;
    assert forall j :: Queued(s, j) <==> j == idx || Queued(s', j);
    assert idx in s.ready && Queued(s, idx);
    forall j | Queued(s', j) ensures j != idx {
      assert j in s'.ready + s'.next;
    }
    assert forall j: nat | j < |rules| :: Released(rules, s', j) == Released(rules, s, j);
  }

  lemma PopOrder(rules: seq<Rule>, s: Sort)
    requires Sorting(rules, s) && s.ready != []
    ensures PopOne(s).level.Keys == PopOne(s).popped && InOrder(rules, PopOne(s))
  {
    var s', idx := PopOne(s), s.ready[0];
    assert idx in s.ready && Queued(s, idx) && idx !in s.popped;
    assert forall j: nat | j < |rules| :: Released(rules, s', j) == Released(rules, s, j);
    forall i: nat | idx !in s.broken && Dep(rules, i, idx)
      ensures i in s'.popped && s'.level[i] <= s'.level[idx] && (NegDep(rules, i, idx) ==> s'.level[i] < s'.level[idx])
    {
      assert (i, idx) in s.done;
    }
  }

  // ---- Following one edge ----

  /** The same rules are in the same partitions, and were released in the same way. */
  ghost predicate SamePlaces(s: Sort, s': Sort) {
    && s'.popped == s.popped && s'.level == s.level && s'.current == s.current
    && s'.broken == s.broken && s'.left == s.left && |s'.ordered| == |s.ordered|
  }

  /** The counters and queues after the edge from `idx` to `j` was followed. */
  ghost function FollowOne(s: Sort, idx: nat, j: nat, negative: bool): (s': Sort)
    ensures SamePlaces(s, s')
  {
    if j >= |s.ordered| then s
    else
      var flagged := s.ordered[j].usesIntensionalNegativeEdge || negative;
      var o := s.ordered[j].(usesIntensionalNegativeEdge := flagged);
      var s' := s.(done := s.done + {(idx, j)});
      if o.output || o.numPredecessors == 0 then s'.(ordered := s.ordered[j := o])
      else if o.numPredecessors > 1 then s'.(ordered := s.ordered[j := o.(numPredecessors := o.numPredecessors - 1)])
      else
        var o' := o.(numPredecessors := 0, output := true);
        if flagged then s'.(ordered := s.ordered[j := o'], next := s.next + [j])
        else s'.(ordered := s.ordered[j := o'], ready := s.ready + [j])
  }

  /** The predecessor counter of a rule that is not out is positive while an edge into it is left. */
  lemma NoUnderflow(rules: seq<Rule>, s: Sort, idx: nat, j: nat)
    requires QueuesOk(rules, s) && CountsRight(rules, s) && Dep(rules, idx, j) && (idx, j) !in s.done
    ensures !s.ordered[j].output ==> s.ordered[j].numPredecessors > 0
  {
    assert !NoPreds(rules, j);
  }

  lemma PendingAfter(rules: seq<Rule>, done: set<(nat, nat)>, idx: nat, j: nat, k: nat)
    ensures Pending(rules, done + {(idx, j)}, k) == if k == j then Pending(rules, done, j) - {idx} else Pending(rules, done, k)
  {
  }

  /** Whether the edge releases its target. */
  ghost predicate Releases(s: Sort, j: nat)
    requires j < |s.ordered|
  {
    !s.ordered[j].output && s.ordered[j].numPredecessors <= 1
  }

  lemma FollowReleased(rules: seq<Rule>, s: Sort, idx: nat, j: nat, negative: bool, k: nat)
    requires |s.ordered| == |rules| && Dep(rules, idx, j) && k < |rules|
    requires !s.ordered[j].output ==> s.ordered[j].numPredecessors > 0
    ensures Released(rules, FollowOne(s, idx, j, negative), k) <==> Released(rules, s, k) || (k == j && Releases(s, j))
    ensures Releases(s, j) ==> !Released(rules, s, j)
  {
    assert !NoPreds(rules, j);
  }

  lemma FollowCounts(rules: seq<Rule>, s: Sort, idx: nat, j: nat, negative: bool)
    requires QueuesOk(rules, s) && CountsRight(rules, s) && Dep(rules, idx, j) && (idx, j) !in s.done
    requires !s.ordered[j].output ==> s.ordered[j].numPredecessors > 0
    ensures |FollowOne(s, idx, j, negative).ordered| == |rules| && CountsRight(rules, FollowOne(s, idx, j, negative))
    ensures Releases(s, j) ==> Pending(rules, s.done + {(idx, j)}, j) == {}
  {
    var s' := FollowOne(s, idx, j, negative);
    assert !NoPreds(rules, j);
    forall k: nat | k < |rules|
      ensures NoPreds(rules, k) ==> s'.ordered[k].numPredecessors == 0
      ensures !Released(rules, s', k) ==>
                s'.ordered[k].numPredecessors == |Pending(rules, s'.done, k)| && s'.ordered[k].numPredecessors > 0
    {
      PendingAfter(rules, s.done, idx, j, k);
      if k != j { assert Released(rules, s', k) == Released(rules, s, k); }
    }
    PendingAfter(rules, s.done, idx, j, j);
    if !Released(rules, s, j) {
      assert idx in Pending(rules, s.done, j);
      if s.ordered[j].numPredecessors == 1 { assert |Pending(rules, s.done, j) - {idx}| == 0; }
    }
  }

  lemma FollowQueues(rules: seq<Rule>, s: Sort, idx: nat, j: nat, negative: bool)
    requires QueuesOk(rules, s) && LevelsOk(rules, s) && Dep(rules, idx, j) && idx in s.popped
    requires !s.ordered[j].output ==> s.ordered[j].numPredecessors > 0
    ensures QueuesOk(rules, FollowOne(s, idx, j, negative)) && LevelsOk(rules, FollowOne(s, idx, j, negative))
  {
    var s' := FollowOne(s, idx, j, negative);
    forall k: nat | k < |rules| ensures Released(rules, s', k) <==> Released(rules, s, k) || (k == j && Releases(s, j)) {
      FollowReleased(rules, s, idx, j, negative, k);
    }
    FollowReleased(rules, s, idx, j, negative, j);
    hide Released, Dep, NoPreds;
    if Releases(s, j) {
      assert !Queued(s, j) && j !in s.popped;
      AppendQueued(s.ready, s.next, j);
      forall k ensures Queued(s', k) <==> Queued(s, k) || k == j {
      }
    } else {
      assert s'.ready == s.ready && s'.next == s.next;
      assert forall k :: Queued(s', k) == Queued(s, k);
      assert forall k: nat | k < |rules| :: Released(rules, s', k) == Released(rules, s, k);
    }
  }

  lemma NoDupConcat<T>(a: seq<T>, b: seq<T>)
    ensures NoDup(a + b) <==> NoDup(a) && NoDup(b) && forall x | x in a :: x !in b
  {
    var c := a + b;
    assert forall k | 0 <= k < |a| :: c[k] == a[k];
    assert forall k | 0 <= k < |b| :: c[|a| + k] == b[k];
    if NoDup(c) {
      forall i, j | 0 <= i < |a| && 0 <= j < |b| ensures a[i] != b[j] {
        assert c[i] != c[|a| + j];
      }
    } else {
      var i, j :| 0 <= i < j < |c| && c[i] == c[j];
      assert i >= |a| ==> b[i - |a|] == b[j - |a|];
      assert i < |a| <= j ==> b[j - |a|] in a;
    }
  }

  lemma AppendQueued(ready: seq<nat>, next: seq<nat>, j: nat)
    requires NoDup(ready + next) && j !in ready && j !in next
    ensures NoDup((ready + [j]) + next) && NoDup(ready + (next + [j]))
  {
    NoDupConcat(ready, next);
    NoDupConcat(ready, [j]);
    NoDupConcat(next, [j]);
    NoDupConcat(ready + [j], next);
    NoDupConcat(ready, next + [j]);
  }

  lemma FollowOrder(rules: seq<Rule>, s: Sort, idx: nat, j: nat, negative: bool)
    requires Sorting(rules, s) && Dep(rules, idx, j) && (idx, j) !in s.done
    requires idx in s.popped && s.level[idx] == s.current
    requires negative <==> NegDep(rules, idx, j)
    requires !s.ordered[j].output ==> s.ordered[j].numPredecessors > 0
    requires Releases(s, j) ==> Pending(rules, s.done + {(idx, j)}, j) == {}
    ensures FollowOne(s, idx, j, negative).level.Keys == FollowOne(s, idx, j, negative).popped
    ensures |FollowOne(s, idx, j, negative).ordered| == |rules| && InOrder(rules, FollowOne(s, idx, j, negative))
  {
    var s' := FollowOne(s, idx, j, negative);
    forall k: nat | k < |rules| ensures Released(rules, s', k) <==> Released(rules, s, k) || (k == j && Releases(s, j)) {
      FollowReleased(rules, s, idx, j, negative, k);
    }
    FollowReleased(rules, s, idx, j, negative, j);
    if Releases(s, j) {
      forall i: nat | Dep(rules, i, j) ensures (i, j) in s'.done {
        assert i !in Pending(rules, s'.done, j);
      }
    }
    FollowReady(rules, s, idx, j, negative);
    FollowFlags(rules, s, idx, j, negative);
    hide Released, Dep, NegDep, NoPreds, Pending, CountsRight, QueuesOk, ReadyInOrder, FlagsRight;
    forall i: nat, k: nat | k < |rules| && Released(rules, s', k) && k !in s'.broken && Dep(rules, i, k) ensures (i, k) in s'.done {
      if Released(rules, s, k) { assert (i, k) in s.done; }
    }
  }

  lemma FollowReady(rules: seq<Rule>, s: Sort, idx: nat, j: nat, negative: bool)
    requires Sorting(rules, s) && j < |rules| && s.level.Keys == s.popped
    requires negative <==> NegDep(rules, idx, j)
    requires !s.ordered[j].output ==> s.ordered[j].numPredecessors > 0
    requires Releases(s, j) ==> forall i: nat | Dep(rules, i, j) :: (i, j) in s.done + {(idx, j)}
    requires Releases(s, j) ==> !Released(rules, s, j)
    ensures ReadyInOrder(rules, FollowOne(s, idx, j, negative))
  {
    var s' := FollowOne(s, idx, j, negative);
    hide Released, Dep, NegDep, NoPreds, Pending, CountsRight, QueuesOk;
    forall i: nat, k: nat | k in s'.ready && k !in s'.broken && NegDep(rules, i, k) ensures i in s'.popped && s'.level[i] < s'.current {
      if k !in s.ready {
        assert k == j && Releases(s, j) && (i, j) in s'.done by { NegIsDep(rules, i, k); }
        assert i != idx && (i, j) in s.done;
      }
    }
  }

  lemma FollowFlags(rules: seq<Rule>, s: Sort, idx: nat, j: nat, negative: bool)
    requires Sorting(rules, s) && j < |rules| && s.level.Keys == s.popped
    requires negative <==> NegDep(rules, idx, j)
    requires !s.ordered[j].output ==> s.ordered[j].numPredecessors > 0
    requires forall k: nat | k < |rules| && Released(rules, s, k) :: Released(rules, FollowOne(s, idx, j, negative), k)
    ensures FlagsRight(rules, FollowOne(s, idx, j, negative))
  {
    var s' := FollowOne(s, idx, j, negative);
    assert |s.ordered| == |rules|;
    hide Released, Dep, NegDep, NoPreds, Pending, CountsRight, QueuesOk;
    forall i: nat, k: nat | k < |rules| && !Released(rules, s', k) && (i, k) in s'.done && NegDep(rules, i, k) &&
                            !s'.ordered[k].usesIntensionalNegativeEdge
      ensures i in s'.popped && s'.level[i] < s'.current
    {
      assert (i, k) in s.done;
    }
  }

  lemma NegIsDep(rules: seq<Rule>, i: nat, j: nat)
    requires NegDep(rules, i, j)
    ensures Dep(rules, i, j)
  {
  }

  lemma FollowStep(rules: seq<Rule>, s: Sort, idx: nat, j: nat, negative: bool)
    requires Sorting(rules, s) && Dep(rules, idx, j) && (idx, j) !in s.done
    requires idx in s.popped && s.level[idx] == s.current
    requires negative <==> NegDep(rules, idx, j)
    ensures !s.ordered[j].output ==> s.ordered[j].numPredecessors > 0
    ensures Sorting(rules, FollowOne(s, idx, j, negative))
    ensures Followed(rules, s, {idx}) ==> Followed(rules, FollowOne(s, idx, j, negative), {idx})
  {
    NoUnderflow(rules, s, idx, j);
    FollowCounts(rules, s, idx, j, negative);
    FollowQueues(rules, s, idx, j, negative);
    FollowOrder(rules, s, idx, j, negative);
    FollowMeant(rules, s, idx, j, negative);
    FollowLeft(rules, s, idx, j, negative);
  }

  lemma FollowMeant(rules: seq<Rule>, s: Sort, idx: nat, j: nat, negative: bool)
    requires |s.ordered| == |rules| && s.level.Keys == s.popped && FlagsMeant(rules, s) && Dep(rules, idx, j)
    requires idx in s.popped && s.level[idx] == s.current && (negative <==> NegDep(rules, idx, j))
    requires !s.ordered[j].output ==> s.ordered[j].numPredecessors > 0
    ensures |FollowOne(s, idx, j, negative).ordered| == |rules| && FlagsMeant(rules, FollowOne(s, idx, j, negative))
  {
    var s' := FollowOne(s, idx, j, negative);
    forall k: nat | k < |rules| ensures Released(rules, s', k) <==> Released(rules, s, k) || (k == j && Releases(s, j)) {
      FollowReleased(rules, s, idx, j, negative, k);
    }
    FollowReleased(rules, s, idx, j, negative, j);
    hide Released, NegDep, Dep, NoPreds;
    forall k: nat | k < |rules| && (k in s'.next || (!Released(rules, s', k) && s'.ordered[k].usesIntensionalNegativeEdge))
      ensures BlockedNow(rules, s', k)
    {
      if k == j && negative {
        assert idx in s'.popped && s'.level[idx] == s'.current;
      } else {
        assert BlockedNow(rules, s, k);
        var i: nat :| i in s.popped && i in s.level && s.level[i] == s.current && NegDep(rules, i, k);
        assert i in s'.popped && s'.level[i] == s'.current;
      }
    }
  }

  lemma FollowLeft(rules: seq<Rule>, s: Sort, idx: nat, j: nat, negative: bool)
    requires s.level.Keys == s.popped && LeftRight(rules, s)
    ensures LeftRight(rules, FollowOne(s, idx, j, negative))
  {
    var s' := FollowOne(s, idx, j, negative);
    forall a: nat, b: nat | b in s'.broken && a < |rules| ensures LeftOf(s', a, b) {
      assert LeftOf(s, a, b);
    }
  }

  // ---- Between partitions ----

  ghost function Unflagged(o: seq<OrderedRule>): (r: seq<OrderedRule>)
    ensures |r| == |o| && forall k | 0 <= k < |o| :: r[k] == o[k].(usesIntensionalNegativeEdge := false)
  {
    seq(|o|, k requires 0 <= k < |o| => o[k].(usesIntensionalNegativeEdge := false))
  }

  /** The flags are cleared and the next queue becomes the ready queue. */
  ghost function Turned(s: Sort): Sort {
    s.(ordered := Unflagged(s.ordered), ready := s.ready + s.next, next := [], current := s.current + 1)
  }

  lemma TurnStep(rules: seq<Rule>, s: Sort)
    requires Sorting(rules, s) && Followed(rules, s, {}) && s.ready == []
    ensures Sorting(rules, Turned(s)) && Followed(rules, Turned(s), {}) && Unfilled(Turned(s))
  {
    var s' := Turned(s);
    TurnLeft(rules, s);
    assert s'.ready == s.next && s'.ready + s'.next == s.ready + s.next;
    assert forall k: nat | k < |rules| :: Released(rules, s', k) == Released(rules, s, k);
    assert forall k :: Queued(s', k) == Queued(s, k);
    forall i: nat, j: nat | j in s'.ready && j !in s'.broken && NegDep(rules, i, j) ensures i in s'.popped && s'.level[i] < s'.current {
      assert Queued(s, j);
      assert (i, j) in s.done;
    }
  }

  lemma TurnLeft(rules: seq<Rule>, s: Sort)
    requires s.level.Keys == s.popped && LeftRight(rules, s) && s.ready == []
    ensures LeftRight(rules, Turned(s))
  {
    var s' := Turned(s);
    forall a: nat, b: nat | b in s'.broken && a < |rules| ensures LeftOf(s', a, b) {
      assert LeftOf(s, a, b);
    }
  }

  /** The rules that are in no partition yet. */
  ghost function StillLeft(s: Sort): set<nat> {
    set x: nat | x < |s.ordered| && x !in s.popped
  }

  /** Releasing a rule out of order, to break a cycle. */
  ghost function BreakOne(s: Sort, idx: nat): (s': Sort)
    ensures s'.popped == s.popped
  {
    if idx >= |s.ordered| || s.ordered[idx].output then s
    else s.(ordered := s.ordered[idx := s.ordered[idx].(output := true)], ready := s.ready + [idx],
            broken := s.broken + {idx}, left := s.left[idx := StillLeft(s)])
  }

  lemma BreakStep(rules: seq<Rule>, s: Sort, idx: nat)
    requires Sorting(rules, s) && idx < |rules| && !NoPreds(rules, idx) && Unfilled(s)
    ensures Sorting(rules, BreakOne(s, idx)) && Unfilled(BreakOne(s, idx))
    ensures Followed(rules, s, {}) ==> Followed(rules, BreakOne(s, idx), {})
  {
    var s' := BreakOne(s, idx);
    if !s.ordered[idx].output {
      assert forall k: nat | k < |rules| :: Released(rules, s', k) <==> Released(rules, s, k) || k == idx;
      assert !Queued(s, idx) && idx !in s.popped;
      BreakLeft(rules, s, idx);
      BreakFlags(rules, s, idx);
      BreakQueues(rules, s, idx);
      BreakCounts(rules, s, idx);
      BreakOrder(rules, s, idx);
    }
  }

  lemma BreakQueues(rules: seq<Rule>, s: Sort, idx: nat)
    requires QueuesOk(rules, s) && LevelsOk(rules, s) && idx < |rules| && !s.ordered[idx].output && !NoPreds(rules, idx)
    ensures QueuesOk(rules, BreakOne(s, idx)) && LevelsOk(rules, BreakOne(s, idx))
  {
    var s' := BreakOne(s, idx);
    assert forall k: nat | k < |rules| :: Released(rules, s', k) <==> Released(rules, s, k) || k == idx;
    assert !Released(rules, s, idx);
    hide Released, NoPreds, Dep;
    assert !Queued(s, idx);
    AppendQueued(s.ready, s.next, idx);
    forall k ensures Queued(s', k) <==> Queued(s, k) || k == idx {
    }
  }

  lemma BreakCounts(rules: seq<Rule>, s: Sort, idx: nat)
    requires |s.ordered| == |rules| && CountsRight(rules, s) && idx < |rules| && !s.ordered[idx].output
    ensures |BreakOne(s, idx).ordered| == |rules| && CountsRight(rules, BreakOne(s, idx))
  {
  }

  lemma BreakOrder(rules: seq<Rule>, s: Sort, idx: nat)
    requires |s.ordered| == |rules| && s.level.Keys == s.popped && InOrder(rules, s) && idx < |rules|
    requires idx !in s.popped && !s.ordered[idx].output
    requires forall k: nat | k < |rules| :: Released(rules, BreakOne(s, idx), k) <==> Released(rules, s, k) || k == idx
    ensures InOrder(rules, BreakOne(s, idx))
  {
    hide Released, Dep, NegDep;
  }

  lemma BreakLeft(rules: seq<Rule>, s: Sort, idx: nat)
    requires |s.ordered| == |rules| && s.level.Keys == s.popped && LeftRight(rules, s) && Unfilled(s)
    requires idx < |rules| && idx !in s.popped
    ensures LeftRight(rules, BreakOne(s, idx))
  {
    var s' := BreakOne(s, idx);
    forall a: nat, b: nat | b in s'.broken && a < |rules| ensures LeftOf(s', a, b) {
      if b in s.broken && s'.left[b] == s.left[b] {
        assert LeftOf(s, a, b);
      }
    }
  }

  lemma BreakFlags(rules: seq<Rule>, s: Sort, idx: nat)
    requires |s.ordered| == |rules| && FlagsMeant(rules, s) && idx < |rules|
    requires forall k: nat | k < |rules| :: Released(rules, BreakOne(s, idx), k) <== Released(rules, s, k)
    ensures |BreakOne(s, idx).ordered| == |rules| && FlagsMeant(rules, BreakOne(s, idx))
  {
    var s' := BreakOne(s, idx);
    hide Released, NegDep;
    forall j: nat | j < |rules| && (j in s'.next || (!Released(rules, s', j) && s'.ordered[j].usesIntensionalNegativeEdge))
      ensures BlockedNow(rules, s', j)
    {
      assert BlockedNow(rules, s, j);
    }
  }

  // ---- A blocked sort has a cycle ----

  ghost predicate Stuck(s: Sort) {
    s.ready == [] && s.next == []
  }

  /** When the queues are empty, every rule that is left waits for another one. */
  lemma StuckPredecessor(rules: seq<Rule>, s: Sort, j: nat) returns (i: nat)
    requires Sorting(rules, s) && Followed(rules, s, {}) && Stuck(s)
    requires j < |rules| && !Released(rules, s, j)
    ensures i < |rules| && !Released(rules, s, i) && Dep(rules, i, j)
  {
    var pending := Pending(rules, s.done, j);
    assert pending != {};
    i :| i in pending;
    assert i !in s.popped;
    assert !Queued(s, i);
  }

  /** Every path from `x` through rules that are left has at most `h` edges. */
  ghost predicate BoundedBy(rules: seq<Rule>, s: Sort, x: nat, h: nat)
    requires |s.ordered| == |rules|
    decreases h
  {
    forall y: nat | y < |rules| && Dep(rules, x, y) && !Released(rules, s, y) :: h > 0 && BoundedBy(rules, s, y, h - 1)
  }

  ghost predicate PathFrom(rules: seq<Rule>, s: Sort, x: nat, k: nat)
    requires |s.ordered| == |rules|
    decreases k
  {
    k == 0 || exists y: nat :: y < |rules| && Dep(rules, x, y) && !Released(rules, s, y) && PathFrom(rules, s, y, k - 1)
  }

  lemma {:induction false} BoundedShort(rules: seq<Rule>, s: Sort, x: nat, h: nat)
    requires |s.ordered| == |rules| && BoundedBy(rules, s, x, h)
    ensures !PathFrom(rules, s, x, h + 1)
    decreases h
  {
    forall y: nat | y < |rules| && Dep(rules, x, y) && !Released(rules, s, y) ensures !PathFrom(rules, s, y, h) {
      BoundedShort(rules, s, y, h - 1);
    }
  }

  lemma {:induction false} BoundedMore(rules: seq<Rule>, s: Sort, x: nat, h: nat, h': nat)
    requires |s.ordered| == |rules| && BoundedBy(rules, s, x, h) && h <= h'
    ensures BoundedBy(rules, s, x, h')
    decreases h
  {
    forall y: nat | y < |rules| && Dep(rules, x, y) && !Released(rules, s, y) ensures BoundedBy(rules, s, y, h' - 1) {
      BoundedMore(rules, s, y, h - 1, h' - 1);
    }
  }

  ghost predicate Bounded(rules: seq<Rule>, s: Sort, x: nat)
    requires |s.ordered| == |rules|
  {
    exists h: nat :: BoundedBy(rules, s, x, h)
  }

  lemma {:induction false} UniformBound(rules: seq<Rule>, s: Sort, m: nat) returns (h: nat)
    requires |s.ordered| == |rules| && m <= |rules|
    requires forall x: nat | x < m && !Released(rules, s, x) :: Bounded(rules, s, x)
    ensures forall x: nat | x < m && !Released(rules, s, x) :: BoundedBy(rules, s, x, h)
  {
    hide Released, Dep, BoundedBy;
    if m == 0 {
      h := 0;
    } else {
      var h0 := UniformBound(rules, s, m - 1);
      h := h0;
      if !Released(rules, s, m - 1) {
        var h1: nat :| BoundedBy(rules, s, m - 1, h1);
        h := if h0 < h1 then h1 else h0;
        BoundedMore(rules, s, m - 1, h1, h);
      }
      forall x: nat | x < m - 1 && !Released(rules, s, x) ensures BoundedBy(rules, s, x, h) {
        BoundedMore(rules, s, x, h0, h);
      }
    }
  }

  /** Walking backwards from a waiting rule gives paths of every length. */
  lemma {:induction false} StuckPaths(rules: seq<Rule>, s: Sort, j: nat, k: nat) returns (x: nat)
    requires |s.ordered| == |rules| && Sorting(rules, s) && Followed(rules, s, {}) && Stuck(s)
    requires j < |rules| && !Released(rules, s, j)
    ensures x < |rules| && !Released(rules, s, x) && PathFrom(rules, s, x, k)
    decreases k
  {
    hide Sorting, Followed, Stuck, Released, Dep;
    if k == 0 {
      x := j;
    } else {
      var y := StuckPaths(rules, s, j, k - 1);
      x := StuckPredecessor(rules, s, y);
      assert PathFrom(rules, s, x, k);
    }
  }

  /** So in a blocked sort some rule that is left starts an unbounded path. */
  lemma StuckUnbounded(rules: seq<Rule>, s: Sort, j: nat)
    requires Sorting(rules, s) && Followed(rules, s, {}) && Stuck(s)
    requires j < |rules| && !Released(rules, s, j)
    ensures exists x: nat :: x < |rules| && !Released(rules, s, x) && !Bounded(rules, s, x)
  {
    if forall x: nat | x < |rules| && !Released(rules, s, x) :: Bounded(rules, s, x) {
      var h := UniformBound(rules, s, |rules|);
      var x := StuckPaths(rules, s, j, h + 1);
      BoundedShort(rules, s, x, h);
    }
  }

  /** An acyclic dependency graph: positions can be given so that every edge goes up. */
  ghost predicate Acyclic(rules: seq<Rule>) {
    exists rank: seq<nat> :: |rank| == |rules| && Ascending(rules, rank)
  }

  ghost predicate Ascending(rules: seq<Rule>, rank: seq<nat>)
    requires |rank| == |rules|
  {
    forall i: nat, j: nat | Dep(rules, i, j) :: rank[i] < rank[j]
  }

  /** It never blocks the sort. */
  lemma {:induction false} AcyclicUnstuck(rules: seq<Rule>, s: Sort, rank: seq<nat>, j: nat)
    requires Sorting(rules, s) && Followed(rules, s, {}) && Stuck(s)
    requires |rank| == |rules| && Ascending(rules, rank) && j < |rules|
    ensures Released(rules, s, j)
    decreases rank[j]
  {
    if !Released(rules, s, j) {
      var i := StuckPredecessor(rules, s, j);
      AcyclicUnstuck(rules, s, rank, i);
    }
  }

  // ---- Building the graph ----

  ghost function Sources(n: nat, edges: set<(nat, nat)>, j: nat): set<nat> {
    set i: nat | i < n && (i, j) in edges
  }

  lemma OneMoreSource(n: nat, edges: set<(nat, nat)>, i: nat, j: nat, k: nat)
    requires i < n && (i, j) !in edges
    ensures |Sources(n, edges + {(i, j)}, k)| == |Sources(n, edges, k)| + (if k == j then 1 else 0)
  {
    if k == j {
      assert Sources(n, edges + {(i, j)}, j) == Sources(n, edges, j) + {i};
    } else {
      assert Sources(n, edges + {(i, j)}, k) == Sources(n, edges, k);
    }
  }

  /** The graph so far: the edges out of the rules before `i`, and `edges` as counted. */
  ghost predicate Building(rules: seq<Rule>, i: nat, ordered: seq<OrderedRule>, edges: set<(nat, nat)>) {
    && |ordered| == |rules|
    && (forall k | 0 <= k < |rules| ::
          && ordered[k].rule == rules[k] && !ordered[k].output && !ordered[k].usesIntensionalNegativeEdge
          && ordered[k].numPredecessors == |Sources(|rules|, edges, k)|
          && NoDup(ordered[k].successors) && InRuleOrder(rules, ordered[k].successors)
          && (k < i ==> forall e :: e in ordered[k].successors <==> OutEdge(rules, k, e))
          && (k >= i ==> ordered[k].successors == []))
    && (forall e | e in edges :: Dep(rules, e.0, e.1) && e.0 < i)
    && (forall x: nat, y: nat | x < i && Dep(rules, x, y) :: (x, y) in edges)
  }

  /** The first `k` edges out of rule `i` are counted. */
  ghost predicate CountedEdges(ruleIndex: map<Rule, nat>, i: nat, deps: seq<PatternEdge>, k: nat,
                               edges0: set<(nat, nat)>, edges: set<(nat, nat)>) {
    && edges0 <= edges
    && (forall e | e in edges && e !in edges0 :: e.0 == i && EnteredTarget(ruleIndex, deps, k, e.1))
    && (forall m | 0 <= m < k && m < |deps| :: deps[m].rule in ruleIndex && (i, ruleIndex[deps[m].rule]) in edges)
  }

  /** The first `k` edges out of rule `i` are entered. */
  ghost predicate EnteringEdges(rules: seq<Rule>, ruleIndex: map<Rule, nat>, i: nat, deps: seq<PatternEdge>, k: nat,
                                ordered0: seq<OrderedRule>, ordered: seq<OrderedRule>, edges0: set<(nat, nat)>, edges: set<(nat, nat)>) {
    && k <= |deps| && i < |rules| && |ordered| == |ordered0| == |rules|
    && ordered[i].successors == deps[..k]
    && (forall x | 0 <= x < |rules| ::
          && ordered[x].rule == rules[x] && !ordered[x].output && !ordered[x].usesIntensionalNegativeEdge
          && ordered[x].numPredecessors == |Sources(|rules|, edges, x)|
          && (x != i ==> ordered[x].successors == ordered0[x].successors))
    && CountedEdges(ruleIndex, i, deps, k, edges0, edges)
  }

  ghost predicate EnteredTarget(ruleIndex: map<Rule, nat>, deps: seq<PatternEdge>, k: nat, j: nat) {
    exists m :: 0 <= m < k && m < |deps| && deps[m].rule in ruleIndex && ruleIndex[deps[m].rule] == j
  }

  /** Different edges out of a rule lead to different rules. */
  lemma TargetsDiffer(rules: seq<Rule>, ruleIndex: map<Rule, nat>, i: nat, deps: seq<PatternEdge>, m: nat, k: nat)
    requires IndexOf(rules, ruleIndex) && i < |rules| && m < k < |deps|
    requires NoDup(deps) && forall e | e in deps :: OutEdge(rules, i, e)
    ensures deps[m].rule in ruleIndex && deps[k].rule in ruleIndex && ruleIndex[deps[m].rule] != ruleIndex[deps[k].rule]
  {
    assert deps[m] in deps && deps[k] in deps;
    EdgeIsDep(rules, ruleIndex, i, deps[m]);
    EdgeIsDep(rules, ruleIndex, i, deps[k]);
    if ruleIndex[deps[m].rule] == ruleIndex[deps[k].rule] {
      OneEdge(rules, i, deps[m], deps[k]);
    }
  }

  lemma NotYetEntered(rules: seq<Rule>, ruleIndex: map<Rule, nat>, i: nat, deps: seq<PatternEdge>, k: nat,
                      edges0: set<(nat, nat)>, edges: set<(nat, nat)>)
    requires IndexOf(rules, ruleIndex) && i < |rules| && k < |deps|
    requires NoDup(deps) && forall e | e in deps :: OutEdge(rules, i, e)
    requires forall e | e in edges0 :: e.0 < i
    requires CountedEdges(ruleIndex, i, deps, k, edges0, edges)
    requires deps[k].rule in ruleIndex
    ensures (i, ruleIndex[deps[k].rule]) !in edges
  {
    var j := ruleIndex[deps[k].rule];
    assert (i, j) !in edges0;
    if EnteredTarget(ruleIndex, deps, k, j) {
      var m :| 0 <= m < k && deps[m].rule in ruleIndex && ruleIndex[deps[m].rule] == j;
      TargetsDiffer(rules, ruleIndex, i, deps, m, k);
    }
  }

  lemma CountedNext(ruleIndex: map<Rule, nat>, i: nat, deps: seq<PatternEdge>, k: nat, edges0: set<(nat, nat)>, edges: set<(nat, nat)>)
    requires k < |deps| && deps[k].rule in ruleIndex && CountedEdges(ruleIndex, i, deps, k, edges0, edges)
    ensures CountedEdges(ruleIndex, i, deps, k + 1, edges0, edges + {(i, ruleIndex[deps[k].rule])})
  {
    var j := ruleIndex[deps[k].rule];
    var edges' := edges + {(i, j)};
    assert EnteredTarget(ruleIndex, deps, k + 1, j);
    forall e | e in edges' && e !in edges0 ensures e.0 == i && EnteredTarget(ruleIndex, deps, k + 1, e.1) {
      if e in edges {
        var m :| 0 <= m < k && m < |deps| && deps[m].rule in ruleIndex && ruleIndex[deps[m].rule] == e.1;
      }
    }
  }

  lemma EnteredEdge(rules: seq<Rule>, ruleIndex: map<Rule, nat>, i: nat, deps: seq<PatternEdge>, k: nat,
                    ordered0: seq<OrderedRule>, ordered1: seq<OrderedRule>, ordered: seq<OrderedRule>,
                    edges0: set<(nat, nat)>, edges1: set<(nat, nat)>, edges: set<(nat, nat)>)
    requires IndexOf(rules, ruleIndex) && i < |rules| && k < |deps|
    requires forall e | e in edges0 :: e.0 < i
    requires NoDup(deps) && forall e | e in deps :: OutEdge(rules, i, e)
    requires EnteringEdges(rules, ruleIndex, i, deps, k, ordered0, ordered1, edges0, edges1)
    requires deps[k].rule in ruleIndex && ruleIndex[deps[k].rule] < |rules|
    requires var j := ruleIndex[deps[k].rule];
             var o := ordered1[i := ordered1[i].(successors := ordered1[i].successors + [deps[k]])];
             ordered == o[j := o[j].(numPredecessors := o[j].numPredecessors + 1)] && edges == edges1 + {(i, j)}
    ensures EnteringEdges(rules, ruleIndex, i, deps, k + 1, ordered0, ordered, edges0, edges)
  {
    var j := ruleIndex[deps[k].rule];
    NotYetEntered(rules, ruleIndex, i, deps, k, edges0, edges1);
    CountedNext(ruleIndex, i, deps, k, edges0, edges1);
    forall x: nat | x < |rules| ensures |Sources(|rules|, edges, x)| == |Sources(|rules|, edges1, x)| + (if x == j then 1 else 0) {
      OneMoreSource(|rules|, edges1, i, j, x);
    }
    assert deps[..k + 1] == deps[..k] + [deps[k]];
    hide Dep, OutEdge, IndexOf, Sources, CountedEdges, NoDup;
  }

  lemma EnteredAll(rules: seq<Rule>, ruleIndex: map<Rule, nat>, i: nat, deps: seq<PatternEdge>, ordered0: seq<OrderedRule>,
                   ordered: seq<OrderedRule>, edges0: set<(nat, nat)>, edges: set<(nat, nat)>)
    requires IndexOf(rules, ruleIndex) && Building(rules, i, ordered0, edges0)
    requires NoDup(deps) && InRuleOrder(rules, deps) && i < |rules| && forall e :: e in deps <==> OutEdge(rules, i, e)
    requires EnteringEdges(rules, ruleIndex, i, deps, |deps|, ordered0, ordered, edges0, edges)
    ensures Building(rules, i + 1, ordered, edges)
  {
    hide Dep, OutEdge, InRuleOrder, NoDup, Sources;
    assert deps[..|deps|] == deps;
    forall e | e in edges ensures Dep(rules, e.0, e.1) && e.0 < i + 1 {
      if e !in edges0 {
        var m :| 0 <= m < |deps| && deps[m].rule in ruleIndex && ruleIndex[deps[m].rule] == e.1;
        assert deps[m] in deps;
        EdgeIsDep(rules, ruleIndex, i, deps[m]);
      }
    }
    forall x: nat, y: nat | x < i + 1 && Dep(rules, x, y) ensures (x, y) in edges {
      if x == i {
        EnteredDep(rules, ruleIndex, i, y, deps);
      }
    }
  }

  lemma EnteredDep(rules: seq<Rule>, ruleIndex: map<Rule, nat>, i: nat, y: nat, deps: seq<PatternEdge>)
    requires IndexOf(rules, ruleIndex) && Dep(rules, i, y) && i < |rules|
    requires forall e :: e in deps <==> OutEdge(rules, i, e)
    ensures EnteredTarget(ruleIndex, deps, |deps|, y)
  {
    hide Dep, OutEdge;
    var e := DepHasEdge(rules, i, y);
    assert e in deps;
    var m :| 0 <= m < |deps| && deps[m] == e;
  }

  ghost function StartState(ordered: seq<OrderedRule>, ready: seq<nat>): Sort {
    Sort(ordered, ready, [], {}, map[], 0, {}, map[], {})
  }

  /** A fresh graph with the rules without predecessors in the queue. */
  lemma StartSorting(rules: seq<Rule>, ruleIndex: map<Rule, nat>, ordered: seq<OrderedRule>, edges: set<(nat, nat)>, ready: seq<nat>)
    requires IndexOf(rules, ruleIndex) && Building(rules, |rules|, ordered, edges)
    requires NoDup(ready) && forall j: nat :: j in ready <==> j < |ordered| && ordered[j].numPredecessors == 0
    ensures GraphOk(rules, ruleIndex, ordered) && StartCounts(rules, ordered) && EdgesListed(rules, ordered)
    ensures Sorting(rules, StartState(ordered, ready)) && Followed(rules, StartState(ordered, ready), {})
  {
    forall j: nat | j < |rules|
      ensures ordered[j].numPredecessors == |Pending(rules, {}, j)|
      ensures NoPreds(rules, j) <==> ordered[j].numPredecessors == 0
    {
      StartCount(rules, ordered, edges, j);
    }
    StartQueues(rules, ordered, ready);
  }

  /** Nothing is out, and the counters are those of the dependency graph. */
  ghost predicate StartCounts(rules: seq<Rule>, ordered: seq<OrderedRule>) {
    && |ordered| == |rules|
    && forall k: nat | k < |rules| ::
         !ordered[k].output && !ordered[k].usesIntensionalNegativeEdge && ordered[k].numPredecessors == |Pending(rules, {}, k)|
  }

  /** The rules and, in rule order, their edges. */
  ghost predicate EdgesListed(rules: seq<Rule>, ordered: seq<OrderedRule>) {
    && |ordered| == |rules|
    && forall i | 0 <= i < |rules| ::
         && ordered[i].rule == rules[i] && NoDup(ordered[i].successors) && InRuleOrder(rules, ordered[i].successors)
         && forall e :: e in ordered[i].successors <==> OutEdge(rules, i, e)
  }

  /** Edges to rules of the list, in rule order, are determined by which edges there are. */
  lemma {:induction false} SameEdges(rules: seq<Rule>, a: seq<PatternEdge>, b: seq<PatternEdge>)
    requires NoDup(a) && InRuleOrder(rules, a) && NoDup(b) && InRuleOrder(rules, b)
    requires forall e | e in a :: e.rule in rules
    requires forall e :: e in a <==> e in b
    ensures a == b
    decreases |a|
  {
    hide InRuleOrder, NoDup;
    assert Elements(a) == Elements(b);
    NoDupCardinality(a);
    NoDupCardinality(b);
    if a != [] {
      FirstEdge(rules, a, b);
      EdgesAfter(rules, a);
      EdgesAfter(rules, b);
      SameEdges(rules, a[1..], b[1..]);
      assert a == [a[0]] + a[1..] && b == [b[0]] + b[1..];
    }
  }

  lemma EdgesAfter(rules: seq<Rule>, a: seq<PatternEdge>)
    requires a != [] && NoDup(a) && InRuleOrder(rules, a)
    ensures NoDup(a[1..]) && InRuleOrder(rules, a[1..])
    ensures forall e :: e in a[1..] <==> e in a && e != a[0]
  {
    var rest := a[1..];
    assert forall k | 0 <= k < |rest| :: rest[k] == a[k + 1];
    assert forall k | 0 < k < |a| :: a[k] == rest[k - 1];
    assert a[0] !in rest;
    forall k, l, i, j | 0 <= k < l < |rest| && 0 <= i < |rules| && 0 <= j < |rules| && rules[i] == rest[k].rule && rules[j] == rest[l].rule
      ensures i < j
    {
      assert rules[i] == a[k + 1].rule && rules[j] == a[l + 1].rule;
    }
  }

  lemma FirstEdge(rules: seq<Rule>, a: seq<PatternEdge>, b: seq<PatternEdge>)
    requires a != [] && InRuleOrder(rules, a) && InRuleOrder(rules, b)
    requires forall e | e in a :: e.rule in rules
    requires forall e :: e in a <==> e in b
    ensures b != [] && a[0] == b[0]
  {
    assert a[0] in a;
    var k :| 0 <= k < |b| && b[k] == a[0];
    assert b[0] in b;
    var l :| 0 <= l < |a| && a[l] == b[0];
    var i :| 0 <= i < |rules| && rules[i] == a[0].rule;
    var j :| 0 <= j < |rules| && rules[j] == b[0].rule;
    assert a[0] != b[0] ==> i < j;
    assert a[0] != b[0] ==> j < i;
  }

  lemma OrderedUnique(rules: seq<Rule>, a: seq<OrderedRule>, b: seq<OrderedRule>)
    requires EdgesListed(rules, a) && EdgesListed(rules, b) && StartCounts(rules, a) && StartCounts(rules, b)
    ensures a == b
  {
    forall k: nat | k < |rules| ensures a[k] == b[k] {
      hide InRuleOrder, NoDup;
      assert forall e | e in a[k].successors :: OutEdge(rules, k, e) && e.rule in rules;
      hide OutEdge;
      SameEdges(rules, a[k].successors, b[k].successors);
    }
  }

  lemma StartQueues(rules: seq<Rule>, ordered: seq<OrderedRule>, ready: seq<nat>)
    requires |ordered| == |rules| && forall j | 0 <= j < |rules| :: !ordered[j].output && !ordered[j].usesIntensionalNegativeEdge
    requires NoDup(ready) && forall j: nat :: j in ready <==> j < |ordered| && ordered[j].numPredecessors == 0
    requires forall j: nat | j < |rules| :: ordered[j].numPredecessors == |Pending(rules, {}, j)|
    requires forall j: nat | j < |rules| :: NoPreds(rules, j) <==> ordered[j].numPredecessors == 0
    ensures Sorting(rules, StartState(ordered, ready)) && Followed(rules, StartState(ordered, ready), {})
  {
    var s := StartState(ordered, ready);
    hide Pending, NegDep, Dep;
    assert ready + [] == ready;
    assert forall j: nat | j < |rules| :: Queued(s, j) <==> Released(rules, s, j);
    assert QueuesOk(rules, s);
    assert CountsRight(rules, s) && LevelsOk(rules, s) && FlagsMeant(rules, s) && LeftRight(rules, s);
    StartOrder(rules, s);
  }

  lemma StartOrder(rules: seq<Rule>, s: Sort)
    requires |s.ordered| == |rules| && s.popped == {} && s.level == map[] && s.done == {}
    requires forall j: nat | j < |rules| && Released(rules, s, j) :: NoPreds(rules, j)
    requires forall j | j in s.ready :: j < |rules| && NoPreds(rules, j)
    ensures InOrder(rules, s) && Followed(rules, s, {})
  {
    forall i: nat, j: nat | j in s.ready ensures !NegDep(rules, i, j) {
      assert !Dep(rules, i, j);
    }
  }

  lemma StartCount(rules: seq<Rule>, ordered: seq<OrderedRule>, edges: set<(nat, nat)>, j: nat)
    requires Building(rules, |rules|, ordered, edges) && j < |rules|
    ensures ordered[j].numPredecessors == |Pending(rules, {}, j)|
    ensures NoPreds(rules, j) <==> ordered[j].numPredecessors == 0
  {
    assert Sources(|rules|, edges, j) == Pending(rules, {}, j);
    if NoPreds(rules, j) {
      assert Sources(|rules|, edges, j) == {};
    }
    if ordered[j].numPredecessors == 0 {
      assert Sources(|rules|, edges, j) == {};
      forall i: nat ensures !Dep(rules, i, j) {
        assert i !in Sources(|rules|, edges, j);
      }
    }
  }

  /** The distinct rules, in order of first appearance. */
  function Deduped(rules: seq<Rule>): (r: seq<Rule>) {
    if rules == [] then []
    else
      var r, last := Deduped(rules[..|rules| - 1]), rules[|rules| - 1];
      if last in r then r else r + [last]
  }

  lemma {:induction false} DedupedNoDup(rules: seq<Rule>)
    ensures NoDup(Deduped(rules)) && Elements(Deduped(rules)) == Elements(rules)
  {
    if rules != [] {
      var front, last := rules[..|rules| - 1], rules[|rules| - 1];
      DedupedNoDup(front);
      assert rules == front + [last];
      assert Elements(rules) == Elements(front) + {last};
      if last !in Deduped(front) {
        NoDupConcat(Deduped(front), [last]);
        assert Elements(Deduped(front) + [last]) == Elements(Deduped(front)) + {last};
      } else {
        assert last in Elements(Deduped(front));
      }
    }
  }

  /** Distinct new rules at the end stay as they are. */
  lemma {:induction false} DedupedAppend(a: seq<Rule>, b: seq<Rule>)
    requires NoDup(b) && forall r | r in b :: r !in a
    ensures Deduped(a + b) == Deduped(a) + b
  {
    if b == [] {
      assert a + b == a;
    } else {
      var front, last := b[..|b| - 1], b[|b| - 1];
      assert b == front + [last] && (a + b)[..|a + b| - 1] == a + front && (a + b)[|a + b| - 1] == last;
      NoDupConcat(front, [last]);
      DedupedAppend(a, front);
      DedupedNoDup(a);
      assert last !in front && (last in Deduped(a) ==> last in Elements(Deduped(a)));
      assert last in b;
    }
  }

  ghost predicate PurePositive(rules: seq<Rule>) {
    forall r, p | r in rules :: NotPattern(p) !in r.body
  }

  // ---- What a stratification promises ----

  ghost function RulesAt(rules: seq<Rule>, ids: seq<nat>): (r: seq<Rule>)
    requires forall i | i in ids :: i < |rules|
    ensures |r| == |ids| && forall k | 0 <= k < |ids| :: ids[k] in ids && r[k] == rules[ids[k]]
  {
    seq(|ids|, k requires 0 <= k < |ids| => assert ids[k] in ids; rules[ids[k]])
  }

  /** The strata hold each of the rules exactly once, and nothing else. */
  ghost predicate OnceEach(rules: seq<Rule>, strata: seq<seq<Rule>>) {
    && (forall r :: r in rules <==> InSome(strata, r))
    && (forall k | 0 <= k < |strata| :: NoDup(strata[k]))
    && (forall k, l, r | 0 <= k < l < |strata| && r in strata[k] :: r !in strata[l])
  }

  ghost predicate InSome(strata: seq<seq<Rule>>, r: Rule) {
    exists k :: 0 <= k < |strata| && r in strata[k]
  }

  /** Every rule outside `broken` comes no earlier than what feeds it, and later than what can block it. */
  ghost predicate StrataInOrder(strata: seq<seq<Rule>>, broken: set<Rule>) {
    forall k, l, a, b | 0 <= k < |strata| && 0 <= l < |strata| && a in strata[k] && b in strata[l] && b !in broken && a.head.NormalHead? ::
      && (CanFeed(a.head.pattern, b) ==> k <= l)
      && (CanBlock(a.head.pattern, b) ==> k < l)
  }

  /** The partitions so far, as positions of rules. */
  ghost predicate PartsOk(rules: seq<Rule>, s: Sort, strata: seq<seq<Rule>>, parts: seq<seq<nat>>)
    requires s.level.Keys == s.popped
  {
    && |parts| == |strata| == s.current
    && (forall k | 0 <= k < |parts| :: NoDup(parts[k]) && forall i: nat :: i in parts[k] <==> i in s.popped && s.level[i] == k)
    && (forall i: nat | i in s.popped :: i < |rules| && s.level[i] < s.current)
    && (forall k | 0 <= k < |parts| :: (forall i | i in parts[k] :: i < |rules|) && strata[k] == RulesAt(rules, parts[k]))
  }

  lemma RulesAtContains(rules: seq<Rule>, ids: seq<nat>, r: Rule)
    requires forall i | i in ids :: i < |rules|
    ensures r in RulesAt(rules, ids) <==> exists i :: i in ids && rules[i] == r
  {
    if r in RulesAt(rules, ids) {
      var k :| 0 <= k < |ids| && RulesAt(rules, ids)[k] == r;
      assert ids[k] in ids;
    }
    forall i | i in ids && rules[i] == r ensures r in RulesAt(rules, ids) {
      var k :| 0 <= k < |ids| && ids[k] == i;
      assert RulesAt(rules, ids)[k] == r;
    }
  }

  lemma RulesAtNoDup(rules: seq<Rule>, ids: seq<nat>)
    requires NoDup(rules) && NoDup(ids) && forall i | i in ids :: i < |rules|
    ensures NoDup(RulesAt(rules, ids))
  {
    var r := RulesAt(rules, ids);
    forall k, l | 0 <= k < l < |r| ensures r[k] != r[l] {
      assert ids[k] in ids && ids[l] in ids;
    }
  }

  /**
   * What was left when a rule was released to break a cycle comes in the same partition if it feeds that rule,
   * and cannot block it.
   */
  ghost predicate ReleasesRight(rules: seq<Rule>, s: Sort)
    requires s.level.Keys == s.popped
  {
    forall a: nat, b: nat | b in s.broken && b in s.left && b in s.popped && a in s.left[b] && a in s.popped && Dep(rules, a, b) ::
      s.level[a] == s.level[b] && !NegDep(rules, a, b)
  }

  /** When every rule has been popped, the partitions are a stratification. */
  lemma AllPopped(rules: seq<Rule>, s: Sort, strata: seq<seq<Rule>>, parts: seq<seq<nat>>)
    requires NoDup(rules) && Sorting(rules, s) && PartsOk(rules, s, strata, parts)
    requires forall i: nat | i < |rules| :: i in s.popped
    ensures OnceEach(rules, strata)
    ensures StrataInOrder(strata, BrokenRules(rules, s))
    ensures StrataInOrder(strata, {}) <==> ReleasesRight(rules, s)
  {
    forall k, r | 0 <= k < |strata| ensures r in strata[k] <==> exists i: nat :: i < |rules| && rules[i] == r && s.level[i] == k {
      RulesAtContains(rules, parts[k], r);
      forall i: nat | i < |rules| && rules[i] == r && s.level[i] == k ensures r in strata[k] {
        assert i in parts[k];
      }
    }
    forall k | 0 <= k < |strata| ensures NoDup(strata[k]) { RulesAtNoDup(rules, parts[k]); }
    OncePopped(rules, s, strata);
    PoppedStrata(rules, s, strata);
    RightStrata(rules, s, strata);
  }

  /** Levels in order are strata in order. */
  ghost predicate LevelsInOrder(rules: seq<Rule>, s: Sort)
    requires s.level.Keys == s.popped
  {
    forall i: nat, j: nat | i in s.popped && j in s.popped && Dep(rules, i, j) ::
      s.level[i] <= s.level[j] && (NegDep(rules, i, j) ==> s.level[i] < s.level[j])
  }

  /** Only releases can be wrong, and exactly the wrong ones put strata out of order. */
  lemma ReleasesExact(rules: seq<Rule>, s: Sort)
    requires s.level.Keys == s.popped && PoppedInOrder(rules, s) && LeftRight(rules, s)
    requires forall i: nat | i < |rules| :: i in s.popped
    ensures LevelsInOrder(rules, s) <==> ReleasesRight(rules, s)
  {
    forall a: nat, b: nat | b in s.broken && Dep(rules, a, b)
      ensures LeftOf(s, a, b) && ReleasedIn(s, b) == s.level[b]
    {
    }
    forall i: nat, j: nat | NegDep(rules, i, j) ensures Dep(rules, i, j) {
      NegIsDep(rules, i, j);
    }
    hide Dep, NegDep;
  }

  /** Rule `r` is in stratum `k` when a rule at level `k` says so. */
  ghost predicate StrataByLevel(rules: seq<Rule>, s: Sort, strata: seq<seq<Rule>>)
    requires s.level.Keys == s.popped
  {
    && (forall i: nat | i < |rules| :: i in s.popped && s.level[i] < |strata|)
    && (forall i: nat | i in s.popped :: i < |rules|)
    && (forall k, r | 0 <= k < |strata| :: r in strata[k] <==> exists i: nat :: i < |rules| && rules[i] == r && s.level[i] == k)
  }

  lemma StrataFollowLevels(rules: seq<Rule>, s: Sort, strata: seq<seq<Rule>>)
    requires s.level.Keys == s.popped && StrataByLevel(rules, s, strata) && LevelsInOrder(rules, s)
    ensures StrataInOrder(strata, {})
  {
    forall k, l, a, b | 0 <= k < |strata| && 0 <= l < |strata| && a in strata[k] && b in strata[l] && a.head.NormalHead?
      ensures CanFeed(a.head.pattern, b) ==> k <= l
      ensures CanBlock(a.head.pattern, b) ==> k < l
    {
      var i: nat :| i < |rules| && rules[i] == a && s.level[i] == k;
      var j: nat :| j < |rules| && rules[j] == b && s.level[j] == l;
      hide CanFeed, CanBlock;
      assert CanFeed(a.head.pattern, b) || CanBlock(a.head.pattern, b) ==> Dep(rules, i, j);
      assert CanBlock(a.head.pattern, b) ==> NegDep(rules, i, j);
    }
  }

  lemma LevelsFollowStrata(rules: seq<Rule>, s: Sort, strata: seq<seq<Rule>>)
    requires s.level.Keys == s.popped && StrataByLevel(rules, s, strata) && StrataInOrder(strata, {})
    ensures LevelsInOrder(rules, s)
  {
    forall i: nat, j: nat | i in s.popped && j in s.popped && Dep(rules, i, j)
      ensures s.level[i] <= s.level[j] && (NegDep(rules, i, j) ==> s.level[i] < s.level[j])
    {
      assert rules[i] in strata[s.level[i]] && rules[j] in strata[s.level[j]];
      var none: set<Rule> := {};
      assert rules[j] !in none;
      hide CanFeed, CanBlock, StrataByLevel;
    }
  }

  lemma RightStrata(rules: seq<Rule>, s: Sort, strata: seq<seq<Rule>>)
    requires Sorting(rules, s) && StrataByLevel(rules, s, strata)
    ensures StrataInOrder(strata, {}) <==> ReleasesRight(rules, s)
  {
    ReleasesExact(rules, s);
    hide ReleasesRight, StrataInOrder, LevelsInOrder, StrataByLevel;
    if StrataInOrder(strata, {}) {
      LevelsFollowStrata(rules, s, strata);
    }
    if LevelsInOrder(rules, s) {
      StrataFollowLevels(rules, s, strata);
    }
  }

  lemma OncePopped(rules: seq<Rule>, s: Sort, strata: seq<seq<Rule>>)
    requires NoDup(rules) && s.level.Keys == s.popped
    requires forall i: nat | i < |rules| :: i in s.popped && s.level[i] < |strata|
    requires forall k, r | 0 <= k < |strata| :: r in strata[k] <==> exists i: nat :: i < |rules| && rules[i] == r && s.level[i] == k
    requires forall k | 0 <= k < |strata| :: NoDup(strata[k])
    ensures OnceEach(rules, strata)
  {
    forall r ensures r in rules <==> InSome(strata, r) {
      if r in rules {
        var i: nat :| i < |rules| && rules[i] == r;
        assert r in strata[s.level[i]];
      }
    }
    forall k, l, r | 0 <= k < l < |strata| && r in strata[k] ensures r !in strata[l] {
      var i: nat :| i < |rules| && rules[i] == r && s.level[i] == k;
    }
  }

  lemma PoppedStrata(rules: seq<Rule>, s: Sort, strata: seq<seq<Rule>>)
    requires NoDup(rules) && Sorting(rules, s)
    requires forall i: nat | i < |rules| :: i in s.popped
    requires forall k, r | 0 <= k < |strata| :: r in strata[k] <==> exists i: nat :: i < |rules| && rules[i] == r && s.level[i] == k
    ensures StrataInOrder(strata, BrokenRules(rules, s))
  {
    var broken := BrokenRules(rules, s);
    forall k, l, a, b | 0 <= k < |strata| && 0 <= l < |strata| && a in strata[k] && b in strata[l] && b !in broken && a.head.NormalHead?
      ensures CanFeed(a.head.pattern, b) ==> k <= l
      ensures CanBlock(a.head.pattern, b) ==> k < l
    {
      var i: nat :| i < |rules| && rules[i] == a && s.level[i] == k;
      var j: nat :| j < |rules| && rules[j] == b && s.level[j] == l;
      hide CanFeed, CanBlock;
      assert j !in s.broken;
      assert CanFeed(a.head.pattern, b) || CanBlock(a.head.pattern, b) ==> Dep(rules, i, j);
      assert CanBlock(a.head.pattern, b) ==> NegDep(rules, i, j);
    }
  }

  // ---- The search for a cycle ----

  ghost function Unvisited(visited: seq<bool>): set<nat> {
    set x: nat | x < |visited| && !visited[x]
  }

  /** Every rule the search has finished with starts bounded paths only. */
  ghost predicate Explored(rules: seq<Rule>, s: Sort, visited: seq<bool>, path: seq<nat>)
    requires |s.ordered| == |rules| == |visited|
  {
    forall x: nat | x < |rules| && visited[x] && x !in path :: Bounded(rules, s, x)
  }

  /** The path of the search: distinct visited rules that are left. */
  ghost predicate SearchPath(rules: seq<Rule>, s: Sort, visited: seq<bool>, path: seq<nat>)
    requires |s.ordered| == |rules| == |visited|
  {
    NoDup(path) && forall x | x in path :: x < |rules| && visited[x] && !Released(rules, s, x)
  }

  lemma {:induction false} BoundSuccessors(rules: seq<Rule>, s: Sort, x: nat, m: nat) returns (h: nat)
    requires |s.ordered| == |rules| && m <= |rules|
    requires forall y: nat | y < m && Dep(rules, x, y) && !Released(rules, s, y) :: Bounded(rules, s, y)
    ensures forall y: nat | y < m && Dep(rules, x, y) && !Released(rules, s, y) :: BoundedBy(rules, s, y, h)
  {
    hide Released, Dep, BoundedBy;
    if m == 0 {
      h := 0;
    } else {
      var h0 := BoundSuccessors(rules, s, x, m - 1);
      h := h0;
      if Dep(rules, x, m - 1) && !Released(rules, s, m - 1) {
        var h1: nat :| BoundedBy(rules, s, m - 1, h1);
        h := if h0 < h1 then h1 else h0;
        BoundedMore(rules, s, m - 1, h1, h);
      }
      forall y: nat | y < m - 1 && Dep(rules, x, y) && !Released(rules, s, y) ensures BoundedBy(rules, s, y, h) {
        BoundedMore(rules, s, y, h0, h);
      }
    }
  }

  /** A rule whose successors that are left all start bounded paths does so itself. */
  lemma SuccessorsBound(rules: seq<Rule>, s: Sort, x: nat)
    requires |s.ordered| == |rules|
    requires forall y: nat | y < |rules| && Dep(rules, x, y) && !Released(rules, s, y) :: Bounded(rules, s, y)
    ensures Bounded(rules, s, x)
  {
    var h := BoundSuccessors(rules, s, x, |rules|);
    assert BoundedBy(rules, s, x, h + 1);
  }

  /** The rule `r` is left and can block another rule that is left. */
  ghost predicate NegativeFrom(rules: seq<Rule>, s: Sort, r: Rule)
    requires |s.ordered| == |rules|
  {
    exists i: nat, j: nat :: NegDep(rules, i, j) && !Released(rules, s, i) && !Released(rules, s, j) && rules[i] == r
  }

  /** Marking a rule and putting it on the path. */
  lemma Visiting(rules: seq<Rule>, s: Sort, visited: seq<bool>, path: seq<nat>, idx: nat)
    requires |s.ordered| == |rules| == |visited| && idx < |rules| && !visited[idx] && !Released(rules, s, idx)
    requires SearchPath(rules, s, visited, path) && Explored(rules, s, visited, path)
    ensures SearchPath(rules, s, visited[idx := true], path + [idx]) && Explored(rules, s, visited[idx := true], path + [idx])
    ensures Unvisited(visited[idx := true]) < Unvisited(visited)
  {
    hide Bounded, Released;
    assert idx in Unvisited(visited);
    assert forall x :: x in path + [idx] <==> x in path || x == idx;
  }

  /** Taking a rule off the path again once it is known to start bounded paths only. */
  lemma Leaving(rules: seq<Rule>, s: Sort, visited: seq<bool>, path: seq<nat>, idx: nat)
    requires |s.ordered| == |rules| == |visited|
    requires SearchPath(rules, s, visited, path + [idx]) && Explored(rules, s, visited, path + [idx]) && Bounded(rules, s, idx)
    ensures SearchPath(rules, s, visited, path) && Explored(rules, s, visited, path)
  {
    hide Bounded, Released;
    assert forall x :: x in path + [idx] <==> x in path || x == idx;
    forall k, l | 0 <= k < l < |path| ensures path[k] != path[l] {
      assert (path + [idx])[k] == path[k] && (path + [idx])[l] == path[l];
    }
  }

  lemma UnvisitedShrinks(visited: seq<bool>, visited': seq<bool>)
    requires |visited| == |visited'| && forall x: nat | x < |visited| && visited[x] :: visited'[x]
    ensures Unvisited(visited') <= Unvisited(visited)
  {
  }

  /** The targets of the first `k` edges, as far as they are left, start bounded paths only. */
  ghost predicate SearchedUpTo(rules: seq<Rule>, ruleIndex: map<Rule, nat>, s: Sort, successors: seq<PatternEdge>, k: nat)
    requires |s.ordered| == |rules|
  {
    forall m | 0 <= m < k && m < |successors| && successors[m].rule in ruleIndex ::
      var j := ruleIndex[successors[m].rule];
      j < |rules| && !s.ordered[j].output ==> Bounded(rules, s, j)
  }

  lemma SearchedNext(rules: seq<Rule>, ruleIndex: map<Rule, nat>, s: Sort, successors: seq<PatternEdge>, k: nat)
    requires |s.ordered| == |rules| && k < |successors| && SearchedUpTo(rules, ruleIndex, s, successors, k)
    requires successors[k].rule in ruleIndex
    requires var j := ruleIndex[successors[k].rule]; j < |rules| && !s.ordered[j].output ==> Bounded(rules, s, j)
    ensures SearchedUpTo(rules, ruleIndex, s, successors, k + 1)
  {
  }

  lemma SuccessorIndex(rules: seq<Rule>, ruleIndex: map<Rule, nat>, s: Sort, idx: nat, successors: seq<PatternEdge>, k: nat)
    requires SuccessorsOf(rules, ruleIndex, idx, successors) && k < |successors| && |s.ordered| == |rules|
    ensures OutEdge(rules, idx, successors[k])
    ensures successors[k].rule in ruleIndex && ruleIndex[successors[k].rule] < |rules|
    ensures var j := ruleIndex[successors[k].rule]; !s.ordered[j].output ==> !Released(rules, s, j)
  {
    assert successors[k] in successors;
    EdgeIsDep(rules, ruleIndex, idx, successors[k]);
  }

  lemma NegativeLeft(rules: seq<Rule>, ruleIndex: map<Rule, nat>, s: Sort, idx: nat, edge: PatternEdge)
    requires IndexOf(rules, ruleIndex) && idx < |rules| && |s.ordered| == |rules| && OutEdge(rules, idx, edge) && edge.NegativePatternEdge?
    requires edge.rule in ruleIndex && ruleIndex[edge.rule] < |rules|
    requires !Released(rules, s, idx) && !Released(rules, s, ruleIndex[edge.rule])
    ensures NegativeFrom(rules, s, rules[idx])
  {
    EdgeIsDep(rules, ruleIndex, idx, edge);
  }

  lemma SearchedAll(rules: seq<Rule>, ruleIndex: map<Rule, nat>, s: Sort, idx: nat, successors: seq<PatternEdge>)
    requires SuccessorsOf(rules, ruleIndex, idx, successors) && |s.ordered| == |rules|
    requires SearchedUpTo(rules, ruleIndex, s, successors, |successors|)
    ensures forall y: nat | y < |rules| && Dep(rules, idx, y) && !Released(rules, s, y) :: Bounded(rules, s, y)
  {
    forall y: nat | y < |rules| && Dep(rules, idx, y) && !Released(rules, s, y) ensures Bounded(rules, s, y) {
      var e := DepHasEdge(rules, idx, y);
      var m :| 0 <= m < |successors| && successors[m] == e;
    }
  }

  lemma BreakKeepsGraph(rules: seq<Rule>, ruleIndex: map<Rule, nat>, s: Sort, idx: nat)
    requires GraphOk(rules, ruleIndex, s.ordered) && idx < |rules|
    ensures GraphOk(rules, ruleIndex, BreakOne(s, idx).ordered) && |BreakOne(s, idx).ordered| == |rules|
  {
  }

  lemma Revisited(rules: seq<Rule>, s: Sort, visited: seq<bool>, path: seq<nat>, idx: nat)
    requires |s.ordered| == |rules| == |visited| && idx < |rules| && visited[idx] && Explored(rules, s, visited, path)
    ensures if idx in path then path != [] else Bounded(rules, s, idx)
  {
  }

  lemma SearchedNone(rules: seq<Rule>, ruleIndex: map<Rule, nat>, s: Sort, successors: seq<PatternEdge>)
    requires |s.ordered| == |rules|
    ensures SearchedUpTo(rules, ruleIndex, s, successors, 0)
  {
  }

  /** The candidates of the cycle search are the rules that are left. */
  lemma WaitingCounts(rules: seq<Rule>, s: Sort)
    requires Sorting(rules, s)
    ensures forall j: nat | j < |rules| :: !Released(rules, s, j) <==> !s.ordered[j].output && s.ordered[j].numPredecessors > 0
  {
  }

  lemma StuckDone(rules: seq<Rule>, s: Sort)
    requires Sorting(rules, s) && Followed(rules, s, {}) && Stuck(s)
    ensures (forall x: nat | x < |rules| && !Released(rules, s, x) :: Bounded(rules, s, x)) ==>
              forall j: nat | j < |rules| :: Released(rules, s, j)
  {
    forall j: nat | j < |rules| && !Released(rules, s, j)
      ensures exists x: nat :: x < |rules| && !Released(rules, s, x) && !Bounded(rules, s, x)
    {
      StuckUnbounded(rules, s, j);
    }
  }

  lemma NothingVisited(rules: seq<Rule>, s: Sort, visited: seq<bool>)
    requires |s.ordered| == |rules| == |visited| && forall k | 0 <= k < |visited| :: !visited[k]
    ensures SearchPath(rules, s, visited, []) && Explored(rules, s, visited, [])
  {
  }

  lemma SearchPathLeft(rules: seq<Rule>, s: Sort, visited: seq<bool>, path: seq<nat>)
    requires |s.ordered| == |rules| == |visited| && SearchPath(rules, s, visited, path)
    ensures forall x | x in path :: x < |rules| && !Released(rules, s, x)
  {
  }

  lemma AcyclicDone(rules: seq<Rule>, s: Sort)
    requires Sorting(rules, s) && Followed(rules, s, {}) && Stuck(s)
    ensures Acyclic(rules) ==> forall j: nat | j < |rules| :: Released(rules, s, j)
  {
    if Acyclic(rules) {
      var rank: seq<nat> :| |rank| == |rules| && Ascending(rules, rank);
      forall j: nat | j < |rules| ensures Released(rules, s, j) {
        AcyclicUnstuck(rules, s, rank, j);
      }
    }
  }

  lemma OneStratum(rules: seq<Rule>, strata: seq<seq<Rule>>)
    requires NoDup(rules) && PurePositive(rules)
    requires strata == if rules == [] then [] else [rules]
    ensures OnceEach(rules, strata) && StrataInOrder(strata, {})
  {
    if rules != [] {
      assert strata[0] == rules;
      forall r ensures r in rules <==> InSome(strata, r) {
        if r in rules { assert r in strata[0]; }
      }
    }
  }

  lemma PartitionBroken(rules: seq<Rule>, s0: Sort, s: Sort, ids: seq<nat>)
    requires PartitionOf(rules, s0, s, ids)
    ensures s.broken == s0.broken && forall i | i in ids :: i < |rules|
  {
  }

  lemma TurnedParts(s: Sort)
    ensures Turned(s).popped == s.popped && Turned(s).level == s.level && Turned(s).broken == s.broken && Turned(s).next == []
    ensures Turned(s).left == s.left && |Turned(s).ordered| == |s.ordered|
  {
  }

  lemma StartParts(rules: seq<Rule>, s: Sort)
    requires s.popped == {} && s.current == 0 && s.level.Keys == s.popped
    ensures PartsOk(rules, s, [], [])
  {
  }

  lemma PartsSame(rules: seq<Rule>, s: Sort, s': Sort, strata: seq<seq<Rule>>, parts: seq<seq<nat>>)
    requires s.level.Keys == s.popped && PartsOk(rules, s, strata, parts)
    requires s'.popped == s.popped && s'.level == s.level && s'.current == s.current
    ensures PartsOk(rules, s', strata, parts)
  {
  }

  lemma UnpoppedAll(rules: seq<Rule>, s: Sort, s': Sort, ids: seq<nat>)
    requires PartitionOf(rules, s, s', ids) && ids != []
    ensures Unpopped(rules, s'.popped) < Unpopped(rules, s.popped)
  {
    assert ids[0] in ids && ids[0] in Unpopped(rules, s.popped) && ids[0] !in Unpopped(rules, s'.popped);
  }

  lemma PartsNext(rules: seq<Rule>, s: Sort, s1: Sort, strata: seq<seq<Rule>>, parts: seq<seq<nat>>, ids: seq<nat>, partition: seq<Rule>)
    requires s.level.Keys == s.popped && PartsOk(rules, s, strata, parts)
    requires PartitionOf(rules, s, s1, ids) && (forall i | i in ids :: i < |rules|) && partition == RulesAt(rules, ids)
    ensures Turned(s1).level.Keys == Turned(s1).popped && PartsOk(rules, Turned(s1), strata + [partition], parts + [ids])
  {
    var parts' := parts + [ids];
    forall k | 0 <= k < |parts'|
      ensures NoDup(parts'[k]) && forall i: nat :: i in parts'[k] <==> i in s1.popped && s1.level[i] == k
    {
      if k < |parts| {
        assert parts'[k] == parts[k];
      }
    }
    forall k | 0 <= k < |parts'| ensures (forall i | i in parts'[k] :: i < |rules|) && (strata + [partition])[k] == RulesAt(rules, parts'[k]) {
      if k < |parts| {
        assert parts'[k] == parts[k] && (strata + [partition])[k] == strata[k];
      }
    }
  }

  lemma WaitingOut(rules: seq<Rule>, s: Sort, cycle: seq<nat>)
    requires |s.ordered| == |rules| && forall x | x in cycle :: x < |rules| && !Released(rules, s, x)
    ensures forall x | x in cycle :: x < |rules| && !NoPreds(rules, x) && !s.ordered[x].output
  {
    hide NoPreds;
  }

  lemma PartsUnfilled(rules: seq<Rule>, s: Sort, strata: seq<seq<Rule>>, parts: seq<seq<nat>>)
    requires s.level.Keys == s.popped && PartsOk(rules, s, strata, parts)
    ensures Unfilled(s)
  {
  }

  lemma TurnedUnfilled(rules: seq<Rule>, s: Sort)
    requires Sorting(rules, s)
    ensures Unfilled(Turned(s)) && Turned(s).level.Keys == Turned(s).popped && |Turned(s).ordered| == |rules|
  {
  }

  lemma StuckIs(s: Sort)
    ensures Stuck(s) <==> s.ready == [] && s.next == []
  {
  }

  /** The rule can block some rule. */
  ghost predicate NegativeEdgeFrom(rules: seq<Rule>, r: Rule) {
    exists i: nat, j: nat :: NegDep(rules, i, j) && rules[i] == r
  }

  lemma NegativeFromIs(rules: seq<Rule>, s: Sort, r: Rule)
    requires |s.ordered| == |rules| && NegativeFrom(rules, s, r)
    ensures NegativeEdgeFrom(rules, r)
  {
  }

  ghost function BrokenRules(rules: seq<Rule>, s: Sort): set<Rule> {
    set i: nat | i < |rules| && i in s.broken :: rules[i]
  }

  lemma NoneBroken(rules: seq<Rule>, s: Sort)
    ensures s.broken == {} ==> BrokenRules(rules, s) == {}
  {
  }

  lemma AllReleasedPopped(rules: seq<Rule>, s: Sort)
    requires Sorting(rules, s) && Stuck(s) && forall j: nat | j < |rules| :: Released(rules, s, j)
    ensures forall j: nat | j < |rules| :: j in s.popped
  {
  }

  lemma TurnKeepsGraph(rules: seq<Rule>, ruleIndex: map<Rule, nat>, s: Sort)
    requires GraphOk(rules, ruleIndex, s.ordered)
    ensures GraphOk(rules, ruleIndex, Turned(s).ordered) && |Turned(s).ordered| == |rules|
  {
  }

  ghost predicate SuccessorsOf(rules: seq<Rule>, ruleIndex: map<Rule, nat>, idx: nat, successors: seq<PatternEdge>) {
    && IndexOf(rules, ruleIndex) && idx < |rules| && NoDup(successors) && InRuleOrder(rules, successors)
    && forall e :: e in successors <==> OutEdge(rules, idx, e)
  }

  /** Exactly the first `k` edges out of `idx` are done. */
  ghost predicate FollowedUpTo(ruleIndex: map<Rule, nat>, idx: nat, successors: seq<PatternEdge>, k: nat, done: set<(nat, nat)>) {
    && k <= |successors|
    && (forall m | 0 <= m < |successors| :: successors[m].rule in ruleIndex ==>
          ((idx, ruleIndex[successors[m].rule]) in done <==> m < k))
  }

  lemma NextSuccessor(rules: seq<Rule>, ruleIndex: map<Rule, nat>, idx: nat, successors: seq<PatternEdge>, k: nat, done: set<(nat, nat)>)
    requires SuccessorsOf(rules, ruleIndex, idx, successors) && k < |successors|
    requires FollowedUpTo(ruleIndex, idx, successors, k, done)
    ensures OutEdge(rules, idx, successors[k]) && successors[k].rule in ruleIndex
    ensures (idx, ruleIndex[successors[k].rule]) !in done
  {
    assert successors[k] in successors;
    EdgeIsDep(rules, ruleIndex, idx, successors[k]);
  }

  lemma FollowedNext(rules: seq<Rule>, ruleIndex: map<Rule, nat>, idx: nat, successors: seq<PatternEdge>, k: nat, done: set<(nat, nat)>)
    requires SuccessorsOf(rules, ruleIndex, idx, successors) && k < |successors| && successors[k].rule in ruleIndex
    requires FollowedUpTo(ruleIndex, idx, successors, k, done)
    ensures FollowedUpTo(ruleIndex, idx, successors, k + 1, done + {(idx, ruleIndex[successors[k].rule])})
  {
    forall m | 0 <= m < |successors| && m != k
      ensures successors[m].rule in ruleIndex ==> ruleIndex[successors[m].rule] != ruleIndex[successors[k].rule]
    {
      if m < k {
        TargetsDiffer(rules, ruleIndex, idx, successors, m, k);
      } else {
        TargetsDiffer(rules, ruleIndex, idx, successors, k, m);
      }
    }
  }

  lemma AllFollowed(rules: seq<Rule>, ruleIndex: map<Rule, nat>, idx: nat, successors: seq<PatternEdge>, s: Sort)
    requires SuccessorsOf(rules, ruleIndex, idx, successors)
    requires FollowedUpTo(ruleIndex, idx, successors, |successors|, s.done)
    requires Followed(rules, s, {idx})
    ensures Followed(rules, s, {})
  {
    forall j: nat | Dep(rules, idx, j) ensures (idx, j) in s.done {
      var e := DepHasEdge(rules, idx, j);
      var m :| 0 <= m < |successors| && successors[m] == e;
      EdgeIsDep(rules, ruleIndex, idx, e);
    }
  }

  /** From `s0` to `s` exactly the rules `ids` were taken, into the current partition. */
  ghost predicate PartitionOf(rules: seq<Rule>, s0: Sort, s: Sort, ids: seq<nat>) {
    && NoDup(ids) && (forall i | i in ids :: i < |rules| && i !in s0.popped)
    && s0.level.Keys == s0.popped && s.level.Keys == s.popped
    && s.popped == s0.popped + Elements(ids) && s.current == s0.current && s.broken == s0.broken && s.left == s0.left
    && (forall i | i in s0.popped :: s.level[i] == s0.level[i]) && (forall i | i in ids :: s.level[i] == s.current)
  }

  lemma PartitionNext(rules: seq<Rule>, s0: Sort, s: Sort, s': Sort, ids: seq<nat>, idx: nat)
    requires PartitionOf(rules, s0, s, ids) && idx < |rules| && idx !in s.popped
    requires s'.popped == s.popped + {idx} && s'.level == s.level[idx := s.current] && s'.current == s.current && s'.broken == s.broken && s'.left == s.left
    ensures PartitionOf(rules, s0, s', ids + [idx]) && forall i | i in ids + [idx] :: i < |rules|
    ensures RulesAt(rules, ids + [idx]) == RulesAt(rules, ids) + [rules[idx]]
  {
    assert forall i :: i in ids + [idx] <==> i in ids || i == idx;
    assert idx !in Elements(ids);
  }

  ghost function Unpopped(rules: seq<Rule>, popped: set<nat>): set<nat> {
    set i: nat | i < |rules| && i !in popped
  }

  lemma UnpoppedShrinks(rules: seq<Rule>, popped: set<nat>, idx: nat)
    requires idx < |rules| && idx !in popped
    ensures Unpopped(rules, popped + {idx}) < Unpopped(rules, popped)
  {
    assert idx in Unpopped(rules, popped);
  }

  lemma MoveOne(a: seq<nat>, b: seq<nat>)
    requires b != []
    ensures (a + [b[0]]) + b[1..] == a + b
  {
  }

  lemma PartitionNone(rules: seq<Rule>, s: Sort)
    requires Sorting(rules, s)
    ensures PartitionOf(rules, s, s, [])
  {
    assert s.popped == s.popped + Elements([]);
  }

  lemma FollowKeepsGraph(rules: seq<Rule>, ruleIndex: map<Rule, nat>, s: Sort, idx: nat, j: nat, negative: bool)
    requires GraphOk(rules, ruleIndex, s.ordered) && j < |rules|
    requires !s.ordered[j].output ==> s.ordered[j].numPredecessors > 0
    ensures GraphOk(rules, ruleIndex, FollowOne(s, idx, j, negative).ordered)
    ensures |FollowOne(s, idx, j, negative).ordered| == |s.ordered|
    ensures FollowOne(s, idx, j, negative).done == s.done + {(idx, j)}
  {
  }
}
