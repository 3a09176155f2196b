/** Ordering rules into strata: the class that sorts, step by step. */
module Stratifier {
  import opened Syntax
  import opened Unification
  import opened RuleSort
  import opened SortRun
  import opened Listings

  /** Enter the edges out of one rule. */
  method EnterEdges(rules: seq<Rule>, ruleIndex: map<Rule, nat>, i: nat, deps: seq<PatternEdge>, ordered0: seq<OrderedRule>, ghost edges0: set<(nat, nat)>)
    returns (ordered: seq<OrderedRule>, ghost edges: set<(nat, nat)>)
    requires IndexOf(rules, ruleIndex) && i < |rules| && Building(rules, i, ordered0, edges0)
    requires NoDup(deps) && InRuleOrder(rules, deps) && forall e :: e in deps <==> OutEdge(rules, i, e)
    ensures Building(rules, i + 1, ordered, edges)
  {
    ordered, edges := ordered0, edges0;
    hide Dep, OutEdge, NoDup, InRuleOrder;
    for k := 0 to |deps|
      invariant EnteringEdges(rules, ruleIndex, i, deps, k, ordered0, ordered, edges0, edges)
    {
      assert deps[k] in deps;
      EdgeIsDep(rules, ruleIndex, i, deps[k]);
      var j := ruleIndex[deps[k].rule];
      ghost var ordered1, edges1 := ordered, edges;
      ordered := ordered[i := ordered[i].(successors := ordered[i].successors + [deps[k]])];
      ordered := ordered[j := ordered[j].(numPredecessors := ordered[j].numPredecessors + 1)];
      edges := edges + {(i, j)};
      EnteredEdge(rules, ruleIndex, i, deps, k, ordered0, ordered1, ordered, edges0, edges1, edges);
    }
    EnteredAll(rules, ruleIndex, i, deps, ordered0, ordered, edges0, edges);
  }

  method BuildGraph(rules: seq<Rule>, ruleIndex: map<Rule, nat>) returns (ordered: seq<OrderedRule>, ghost edges: set<(nat, nat)>)
    requires IndexOf(rules, ruleIndex)
    ensures Building(rules, |rules|, ordered, edges)
  {
    ordered := seq(|rules|, k requires 0 <= k < |rules| => OrderedRule(rules[k], [], 0, false, false));
    edges := {};
    assert forall k :: Sources(|rules|, edges, k) == {};
    hide Dep, CanFeed, CanBlock, Unifiable, InRuleOrder;
    NoEdgesInOrder(rules);
    for i := 0 to |rules|
      invariant Building(rules, i, ordered, edges)
    {
      var deps: seq<PatternEdge> := [];
      if rules[i].head.NormalHead? {
        deps := DependingRules(rules, rules[i].head.pattern);
      }
      ordered, edges := EnterEdges(rules, ruleIndex, i, deps, ordered, edges);
    }
  }

  /** The distinct rules, in order of first appearance. */
  method Distinct(rules: seq<Rule>) returns (r: seq<Rule>)
    ensures r == Deduped(rules) && NoDup(r) && Elements(r) == Elements(rules)
  {
    r := [];
    for k := 0 to |rules|
      invariant r == Deduped(rules[..k])
    {
      assert rules[..k + 1][..k] == rules[..k];
      if rules[k] !in r {
        r := r + [rules[k]];
      }
    }
    assert rules[..|rules|] == rules;
    DedupedNoDup(rules);
  }

  method HasNegation(rules: seq<Rule>) returns (found: bool)
    ensures found <==> !PurePositive(rules)
  {
    found := false;
    for k := 0 to |rules|
      invariant !found
      invariant forall j, p | 0 <= j < k :: NotPattern(p) !in rules[j].body
    {
      for a := 0 to |rules[k].body|
        invariant !found
        invariant forall b | 0 <= b < a :: !rules[k].body[b].NotPattern?
      {
        if rules[k].body[a].NotPattern? {
          assert NotPattern(rules[k].body[a].pattern) in rules[k].body && rules[k] in rules;
          return true;
        }
      }
    }
  }

  class RulePartitioner {
    const rules: seq<Rule>
    const ruleIndex: map<Rule, nat>
    var ordered: seq<OrderedRule>
    var readyQueue: seq<nat>
    var nextQueue: seq<nat>
    /** No rule has a NOT atom, so one stratum will do. */
    const purePositive: bool

    ghost var popped: set<nat>
    ghost var level: map<nat, nat>
    ghost var current: nat
    ghost var broken: set<nat>
    ghost var left: map<nat, set<nat>>
    ghost var done: set<(nat, nat)>

    ghost function State(): Sort
      reads this
    {
      Sort(ordered, readyQueue, nextQueue, popped, level, current, broken, left, done)
    }

    ghost predicate Valid()
      reads this
    {
      && NoDup(rules) && (purePositive <==> PurePositive(rules))
      && (!purePositive ==> GraphOk(rules, ruleIndex, ordered) && Sorting(rules, State()) && |ordered| == |rules|)
    }

    /** Between two rules, no edge is left half followed. */
    ghost predicate Settled()
      reads this
    {
      Followed(rules, State(), {})
    }

    constructor (input: seq<Rule>)
      ensures Valid() && Settled() && rules == Deduped(input) && Elements(rules) == Elements(input)
      ensures !purePositive ==> Starts(rules, State())
      ensures purePositive <==> PurePositive(rules)
    {
      hide *;
      var distinct := Distinct(input);
      var negation := HasNegation(distinct);
      rules, purePositive := distinct, !negation;
      popped, level, current, broken, left, done := {}, map[], 0, {}, map[], {};
      nextQueue := [];
      if !negation {
        ruleIndex, ordered, readyQueue := map[], [], [];
      } else {
        var index := IndexRules(distinct);
        var o;
        ghost var edges;
        o, edges := BuildGraph(distinct, index);
        var ready := WithoutPredecessors(o);
        StartSorting(distinct, index, o, edges, ready);
        ruleIndex, ordered, readyQueue := index, o, ready;
      }
      new;
      if negation {
        StartValid();
      } else {
        PositiveValid();
      }
    }

    lemma PositiveValid()
      requires NoDup(rules) && purePositive && PurePositive(rules) && popped == {}
      ensures Valid() && Settled()
    {
    }

    lemma StartValid()
      requires NoDup(rules) && !purePositive && !PurePositive(rules) && GraphOk(rules, ruleIndex, ordered)
      requires nextQueue == [] && popped == {} && level == map[] && current == 0 && broken == {} && left == map[] && done == {}
      requires |ordered| == |rules| && readyQueue == ReadyRules(ordered, |ordered|)
      requires Sorting(rules, StartState(ordered, readyQueue)) && Followed(rules, StartState(ordered, readyQueue), {})
      requires StartCounts(rules, ordered) && EdgesListed(rules, ordered)
      ensures Valid() && Settled() && Starts(rules, State())
    {
      hide Sorting, GraphOk, Followed, PurePositive, NoDup;
      assert State() == StartState(ordered, readyQueue);
    }

    /** Count one predecessor of `depIdx` as done; without any left it joins a queue. */
    method CountDown(ghost idx: nat, depIdx: nat, negative: bool)
      requires depIdx < |ordered|
      modifies `ordered, `readyQueue, `nextQueue, `done
      ensures State() == FollowOne(old(State()), idx, depIdx, negative)
    {
      var o := ordered[depIdx];
      if negative {
        o := o.(usesIntensionalNegativeEdge := true);
      }
      if !o.output && o.numPredecessors > 0 {
        o := o.(numPredecessors := o.numPredecessors - 1);
        if o.numPredecessors == 0 {
          o := o.(output := true);
          if o.usesIntensionalNegativeEdge {
            nextQueue := nextQueue + [depIdx];
          } else {
            readyQueue := readyQueue + [depIdx];
          }
        }
      }
      ordered := ordered[depIdx := o];
      done := done + {(idx, depIdx)};
    }

    /** Follow one edge out of `idx`.  The predecessor counter never underflows. */
    method UpdateSuccessor(idx: nat, edge: PatternEdge)
      requires Valid() && !purePositive && idx < |rules| && OutEdge(rules, idx, edge)
      requires idx in popped && level[idx] == current && edge.rule in ruleIndex && (idx, ruleIndex[edge.rule]) !in done
      modifies `ordered, `readyQueue, `nextQueue, `done
      ensures Valid() && done == old(done) + {(idx, ruleIndex[edge.rule])}
      ensures old(Followed(rules, State(), {idx})) ==> Followed(rules, State(), {idx})
      ensures State() == FollowOne(old(State()), idx, ruleIndex[edge.rule], edge.NegativePatternEdge?)
    {
      ghost var s := State();
      var depIdx := ruleIndex[edge.rule];
      EdgeIsDep(rules, ruleIndex, idx, edge);
      FollowStep(rules, s, idx, depIdx, edge.NegativePatternEdge?);
      FollowKeepsGraph(rules, ruleIndex, s, idx, depIdx, edge.NegativePatternEdge?);
      assert GraphOk(rules, ruleIndex, ordered) && |ordered| == |rules|;
      hide Sorting, GraphOk, Followed, Dep, NegDep, OutEdge, PurePositive, IndexOf;
      CountDown(idx, depIdx, edge.NegativePatternEdge?);
    }

    lemma StateParts()
      requires Valid() && !purePositive
      ensures State().ordered == ordered && |ordered| == |rules| && IndexOf(rules, ruleIndex)
      ensures State().ready == readyQueue && State().popped == popped
      ensures Sorting(rules, State()) && (Settled() <==> Followed(rules, State(), {}))
      ensures forall idx: nat | idx < |rules| :: SuccessorsOf(rules, ruleIndex, idx, ordered[idx].successors)
    {
    }

    /** Follow every edge out of a rule that was just taken from the queue. */
    method FollowEdges(idx: nat)
      requires Valid() && !purePositive && idx < |rules| && idx in popped && level[idx] == current
      requires Followed(rules, State(), {idx}) && forall e | e in done :: e.0 != idx
      modifies `ordered, `readyQueue, `nextQueue, `done
      ensures Valid() && Settled() && State() == FollowFrom(rules, old(State()), idx, 0)
    {
      var successors := ordered[idx].successors;
      ghost var s0 := State();
      assert SuccessorsOf(rules, ruleIndex, idx, successors);
      hide *;
      StateValues();
      FollowStart(ruleIndex, idx, successors, done);
      for k := 0 to |successors|
        invariant Valid() && Followed(rules, State(), {idx}) && popped == s0.popped && level == s0.level && current == s0.current
        invariant FollowedUpTo(ruleIndex, idx, successors, k, done)
        invariant FollowFrom(rules, State(), idx, After(ruleIndex, successors, k)) == FollowFrom(rules, s0, idx, 0)
      {
        NextSuccessor(rules, ruleIndex, idx, successors, k, done);
        FollowedNext(rules, ruleIndex, idx, successors, k, done);
        FollowNext(rules, ruleIndex, State(), idx, successors, k);
        UpdateSuccessor(idx, successors[k]);
      }
      FollowEnd(rules, ruleIndex, State(), idx, successors);
      StateValues();
      AllFollowed(rules, ruleIndex, idx, successors, State());
      SettledIs();
    }

    lemma StateValues()
      ensures State().popped == popped && State().level == level && State().current == current && State().done == done
      ensures State().ready == readyQueue && State().next == nextQueue && State().ordered == ordered
      ensures State().broken == broken && State().left == left
    {
    }

    lemma SettledIs()
      ensures Settled() <==> Followed(rules, State(), {})
    {
    }

    /** Take the first ready rule and follow its edges. */
    method TakeRule() returns (idx: nat, rule: Rule)
      requires Valid() && !purePositive && Settled() && readyQueue != []
      modifies `ordered, `readyQueue, `nextQueue, `done, `popped, `level
      ensures Valid() && Settled() && idx == old(readyQueue[0]) && idx < |rules| && rule == rules[idx] && idx !in old(popped)
      ensures State() == TakeOne(rules, old(State()))
    {
      ghost var s := State();
      StateParts();
      PopStep(rules, s);
      StateValues();
      ValidIs();
      PoppedValues(s);
      hide *;
      idx := readyQueue[0];
      PopIdx();
      StateValues();
      ValidIs();
      FollowEdges(idx);
      TakenIs(rules, s);
      rule := RuleAt(idx);
    }

    method PopIdx()
      requires readyQueue != []
      modifies `readyQueue, `popped, `level
      ensures State() == PopOne(old(State()))
    {
      var idx := readyQueue[0];
      readyQueue := readyQueue[1..];
      popped, level := popped + {idx}, level[idx := current];
    }

    lemma ValidIs()
      ensures Valid() <==> NoDup(rules) && (purePositive <==> PurePositive(rules)) &&
                           (!purePositive ==> GraphOk(rules, ruleIndex, ordered) && Sorting(rules, State()) && |ordered| == |rules|)
    {
    }

    /** Empty the ready queue: one stratum, with everything that its rules release on the way. */
    method GetPartition() returns (partition: seq<Rule>, ghost ids: seq<nat>)
      requires Valid() && !purePositive && Settled()
      modifies `ordered, `readyQueue, `nextQueue, `done, `popped, `level
      ensures Valid() && Settled() && readyQueue == []
      ensures PartitionOf(rules, old(State()), State(), ids) && partition == RulesAt(rules, ids)
      ensures old(readyQueue) != [] ==> ids != []
      ensures Fill(rules, old(State())) == (State(), ids)
    {
      hide *;
      partition, ids := [], [];
      ghost var s0 := State();
      StateParts();
      PartitionNone(rules, s0);
      FillNone(rules, s0);
      while readyQueue != []
        invariant Valid() && Settled()
        invariant PartitionOf(rules, s0, State(), ids) && (forall i | i in ids :: i < |rules|) && partition == RulesAt(rules, ids)
        invariant s0.ready != [] && ids == [] ==> readyQueue != []
        invariant FillsOn(rules, s0, State(), ids)
        decreases Unpopped(rules, popped)
      {
        ghost var s := State();
        StateParts();
        StateValues();
        var idx, rule := TakeRule();
        UnpoppedShrinks(rules, s.popped, idx);
        FillNext(rules, s0, s, ids);
        StateValues();
        TakenPartition(rules, s0, s, ids);
        partition := partition + [rule];
        ids := ids + [idx];
      }
      StateValues();
      FillEnd(rules, s0, State(), ids);
    }

    method RuleAt(idx: nat) returns (r: Rule)
      requires Valid() && !purePositive && idx < |rules|
      ensures r == rules[idx]
    {
      r := ordered[idx].rule;
    }

    method Turn()
      modifies `ordered, `readyQueue, `nextQueue, `current
      ensures State() == Turned(old(State()))
    {
      ClearFlags();
      MoveQueue();
      current := current + 1;
    }

    /** Clear the flags; the rules held back become ready. */
    method ResetStratification()
      requires Valid() && !purePositive && Settled() && readyQueue == []
      modifies `ordered, `readyQueue, `nextQueue, `current
      ensures Valid() && Settled() && State() == Turned(old(State()))
    {
      ghost var s := State();
      TurnStep(rules, s);
      TurnKeepsGraph(rules, ruleIndex, s);
      assert NoDup(rules) && (purePositive <==> PurePositive(rules));
      hide Followed, Sorting, GraphOk, PurePositive, IndexOf, Turned, NoDup;
      Turn();
      assert ordered == Turned(s).ordered;
    }

    method MoveQueue()
      modifies `readyQueue, `nextQueue
      ensures readyQueue == old(readyQueue) + old(nextQueue) && nextQueue == []
    {
      while nextQueue != []
        invariant readyQueue + nextQueue == old(readyQueue) + old(nextQueue)
        decreases |nextQueue|
      {
        MoveOne(readyQueue, nextQueue);
        readyQueue, nextQueue := readyQueue + [nextQueue[0]], nextQueue[1..];
      }
      assert readyQueue == readyQueue + nextQueue;
    }

    method ClearFlags()
      modifies `ordered
      ensures ordered == Unflagged(old(ordered))
    {
      ghost var ordered0 := ordered;
      for k := 0 to |ordered|
        invariant |ordered| == |ordered0|
        invariant forall j | 0 <= j < |ordered| :: ordered[j] == if j < k then Unflagged(ordered0)[j] else ordered0[j]
      {
        ordered := ordered[k := ordered[k].(usesIntensionalNegativeEdge := false)];
      }
    }

    method TopologicalSortFinished() returns (finished: bool)
      requires Valid() && !purePositive
      ensures finished <==> forall j: nat | j < |rules| :: Released(rules, State(), j)
      ensures finished <==> AllOut(State())
    {
      hide Followed, GraphOk, PurePositive, IndexOf, NoPreds;
      finished := true;
      for k := 0 to |ordered|
        invariant finished <==> forall j: nat | j < k :: Released(rules, State(), j)
        invariant finished <==> forall j: nat | j < k :: ordered[j].output || ordered[j].numPredecessors == 0
      {
        assert Released(rules, State(), k) <==> ordered[k].output || ordered[k].numPredecessors == 0;
        if !(ordered[k].output || ordered[k].numPredecessors == 0) {
          finished := false;
        }
      }
    }

    /**
     * Depth-first search for a cycle among the rules that are left.  A NOT edge between two of them is
     * reported, whether or not it lies on a cycle.
     */
    method DfsCycle(idx: nat, visited: seq<bool>, path: seq<nat>)
      returns (r: Outcome, found: bool, visited': seq<bool>, path': seq<nat>)
      requires Valid() && !purePositive && idx < |rules| && !Released(rules, State(), idx) && |visited| == |rules|
      requires SearchPath(rules, State(), visited, path) && Explored(rules, State(), visited, path)
      ensures |visited'| == |rules| && SearchPath(rules, State(), visited', path')
      ensures forall x: nat | x < |rules| && visited[x] :: visited'[x]
      ensures r.Ok? && !found ==> path' == path && Explored(rules, State(), visited', path) && Bounded(rules, State(), idx)
      ensures r.Err? ==> r.error.NotStratifiable? && NegativeFrom(rules, State(), r.error.rule)
      ensures Answers(rules, Dfs(rules, State(), idx, Visited(visited), path), r, found, visited', path')
      decreases Unvisited(visited)
    {
      hide *;
      ghost var s := State();
      StateParts();
      r, visited', path' := Ok, visited, path;
      if visited[idx] {
        found := idx in path;
        Revisited(rules, s, visited, path, idx);
        DfsRevisited(rules, s, idx, visited, path);
        return;
      }
      Visiting(rules, s, visited, path, idx);
      DfsEntered(rules, s, ruleIndex, ordered[idx].successors, idx, visited, path);
      visited', path' := visited[idx := true], path + [idx];
      ghost var path1 := path';
      found := false;
      var successors := ordered[idx].successors;
      SearchedNone(rules, ruleIndex, s, successors);
      for k := 0 to |successors|
        invariant r.Ok? && path' == path1 && |visited'| == |rules| && Unvisited(visited') < Unvisited(visited)
        invariant SearchPath(rules, s, visited', path1) && Explored(rules, s, visited', path1)
        invariant forall x: nat | x < |rules| && visited[x] :: visited'[x]
        invariant SearchedUpTo(rules, ruleIndex, s, successors, k)
        invariant DfsFrom(rules, s, idx, After(ruleIndex, successors, k), Visited(visited'), path1) ==
                  Dfs(rules, s, idx, Visited(visited), path)
      {
        SuccessorIndex(rules, ruleIndex, s, idx, successors, k);
        DfsNext(rules, ruleIndex, s, idx, successors, k, Visited(visited'), path1);
        var edge := successors[k];
        var depIdx := ruleIndex[edge.rule];
        if !ordered[depIdx].output {
          if edge.NegativePatternEdge? {
            NegativeLeft(rules, ruleIndex, s, idx, edge);
            r := Err(NotStratifiable(rules[idx]));
            AnswersBlocked(rules, idx, r, found, visited', path');
            return;
          }
          ghost var visited2, a := visited', Dfs(rules, s, depIdx, Visited(visited'), path1);
          r, found, visited', path' := DfsCycle(depIdx, visited', path');
          UnvisitedShrinks(visited2, visited');
          AnswersParts(rules, a, r, found, visited', path');
          if r.Err? || found {
            return;
          }
        }
        SearchedNext(rules, ruleIndex, s, successors, k);
      }
      SearchedAll(rules, ruleIndex, s, idx, successors);
      SuccessorsBound(rules, s, idx);
      Leaving(rules, s, visited', path, idx);
      DfsEnd(rules, ruleIndex, s, idx, successors, Visited(visited'), path1);
      path', found := path, false;
      AnswersNotFound(rules, visited', path');
    }

    /**
     * A path through rules that still wait, if there is one that closes a cycle: each rule of it feeds the
     * next, and the last one feeds a rule of the path.
     */
    method FindCycle() returns (r: Outcome, path: Option<seq<nat>>)
      requires Valid() && !purePositive && Settled() && Stuck(State())
      ensures r.Ok? && path.None? ==> forall j: nat | j < |rules| :: Released(rules, State(), j)
      ensures r.Ok? && path.Some? ==> ClosesCycle(rules, State(), path.value)
      ensures r.Ok? && path.Some? ==> forall x | x in path.value :: x < |rules| && !Released(rules, State(), x)
      ensures r.Err? ==> r.error.NotStratifiable? && NegativeFrom(rules, State(), r.error.rule)
      ensures (forall j: nat | j < |rules| :: Released(rules, State(), j)) ==> r.Ok? && path.None?
      ensures CycleAnswer(rules, SearchFrom(rules, State(), 0), r, path)
    {
      hide *;
      ghost var s := State();
      StateParts();
      StateValues();
      WaitingCounts(rules, s);
      StuckDone(rules, s);
      for start := 0 to |rules|
        invariant forall x: nat | x < start && !Released(rules, s, x) :: Bounded(rules, s, x)
        invariant SearchFrom(rules, s, start) == SearchFrom(rules, s, 0)
      {
        SearchNext(rules, s, start);
        if !ordered[start].output && ordered[start].numPredecessors > 0 {
          var visited := seq(|rules|, k => false);
          NothingVisited(rules, s, visited);
          NoneVisited(visited);
          var res, found, visited', path' := DfsCycle(start, visited, []);
          CycleAnswered(rules, Dfs(rules, s, start, {}, []), res, found, visited', path');
          if res.Err? {
            return res, None;
          }
          if found {
            SearchPathLeft(rules, s, visited', path');
            SearchCloses(rules, s, 0);
            return Ok, Some(path');
          }
        }
      }
      SearchNext(rules, s, |rules|);
      r, path := Ok, None;
      NoCycleAnswer(rules);
    }

    /** Release the rules on a cycle, in the order of the search path. */
    method HandleCycle() returns (r: Outcome)
      requires Valid() && !purePositive && Settled() && Stuck(State()) && Unfilled(State())
      modifies `ordered, `readyQueue, `broken, `left
      ensures Valid() && Settled()
      ensures r.Ok? && readyQueue == [] ==> State() == old(State()) && forall j: nat | j < |rules| :: Released(rules, State(), j)
      ensures (forall j: nat | j < |rules| :: Released(rules, old(State()), j)) ==> r.Ok? && broken == old(broken)
      ensures r.Err? ==> r.error.NotStratifiable? && NegativeFrom(rules, old(State()), r.error.rule)
      ensures |old(ordered)| == |rules| && Handled(rules, old(State()), r, State())
    {
      hide *;
      StateParts();
      ghost var s := State();
      var path;
      r, path := FindCycle();
      CycleParts(rules, s, r, path);
      if r.Err? {
        return;
      }
      match path {
        case None =>
          StateValues();
        case Some(cycle) =>
          ReleaseCycle(cycle);
      }
    }

    method ReleaseCycle(cycle: seq<nat>)
      requires Valid() && !purePositive && Settled() && cycle != [] && Unfilled(State())
      requires forall x | x in cycle :: x < |rules| && !Released(rules, State(), x)
      modifies `ordered, `readyQueue, `broken, `left
      ensures Valid() && Settled() && readyQueue != [] && State() == BreakAll(old(State()), cycle)
    {
      hide *;
      ghost var ordered0, s0 := ordered, State();
      StateValues();
      StateParts();
      WaitingOut(rules, s0, cycle);
      BreakNone(s0, cycle);
      for k := 0 to |cycle|
        invariant Valid() && Settled() && |ordered| == |ordered0| && Unfilled(State())
        invariant k == 0 ==> ordered == ordered0
        invariant k > 0 ==> readyQueue != []
        invariant State() == BreakAll(s0, cycle[..k])
      {
        assert cycle[k] in cycle;
        BreakAllSnoc(s0, cycle[..k], cycle[k]);
        assert cycle[..k + 1] == cycle[..k] + [cycle[k]];
        ghost var s := State();
        StateValues();
        ReleaseOne(cycle[k]);
        StateValues();
        BrokenReady(s, cycle[k]);
      }
      assert cycle[..|cycle|] == cycle;
    }

    method ReleaseOne(idx: nat)
      requires Valid() && !purePositive && Settled() && idx < |rules| && !NoPreds(rules, idx) && Unfilled(State())
      modifies `ordered, `readyQueue, `broken, `left
      ensures Valid() && Settled() && Unfilled(State())
      ensures State() == BreakOne(old(State()), idx)
    {
      hide *;
      ghost var s := State();
      StateParts();
      ValidIs();
      BreakStep(rules, s, idx);
      BreakKeepsGraph(rules, ruleIndex, s, idx);
      SetOutput(idx);
      StateValues();
      ValidIs();
      SettledIs();
    }

    method SetOutput(idx: nat)
      requires idx < |ordered|
      modifies `ordered, `readyQueue, `broken, `left
      ensures State() == BreakOne(old(State()), idx)
    {
      hide Sorting, GraphOk;
      if !ordered[idx].output {
        left := left[idx := StillLeft(State())];
        broken := broken + {idx};
        ordered := ordered[idx := ordered[idx].(output := true)];
        readyQueue := readyQueue + [idx];
      }
    }

    /** Break the cycle that blocks the sort; an acyclic graph never blocks it. */
    method Unblock() returns (r: Outcome)
      requires Valid() && !purePositive && Settled() && Stuck(State()) && Unfilled(State()) && PlansClosed(rules, State())
      modifies `ordered, `readyQueue, `broken, `left
      ensures Valid() && Settled()
      ensures r.Ok? && readyQueue == [] ==> forall j: nat | j < |rules| :: Released(rules, State(), j)
      ensures Acyclic(rules) ==> r.Ok? && broken == old(broken)
      ensures r.Err? ==> r.error.NotStratifiable? && NegativeFrom(rules, old(State()), r.error.rule)
      ensures r.Ok? ==> PlansOpen(rules, State())
      ensures r.Err? ==> !BottomUp(rules)
      ensures |old(ordered)| == |rules| && Handled(rules, old(State()), r, State())
    {
      hide *;
      ghost var s := State();
      StateParts();
      AcyclicDone(rules, s);
      r := HandleCycle();
      PlansHandled(rules, s, r, State());
    }

    /** Fill one stratum and prepare the next, breaking a cycle if nothing is ready. */
    method NextStratum(ghost strata: seq<seq<Rule>>, ghost parts: seq<seq<nat>>)
      returns (r: Outcome, partition: seq<Rule>, ghost ids: seq<nat>)
      requires Valid() && !purePositive && Settled() && nextQueue == [] && readyQueue != []
      requires level.Keys == popped && PartsOk(rules, State(), strata, parts) && PlansOpen(rules, State())
      modifies this
      ensures Valid() && Settled() && nextQueue == [] && level.Keys == popped
      ensures PartsOk(rules, State(), strata + [partition], parts + [ids])
      ensures r.Ok? && readyQueue == [] ==> forall j: nat | j < |rules| :: Released(rules, State(), j)
      ensures Acyclic(rules) ==> r.Ok? && broken == old(broken)
      ensures r.Ok? ==> PlansOpen(rules, State())
      ensures BottomUp(rules) ==> r.Ok?
      ensures Unpopped(rules, popped) < Unpopped(rules, old(popped))
      ensures r.Err? ==> r.error.NotStratifiable? && NegativeEdgeFrom(rules, r.error.rule)
      ensures GoesOn(rules, old(State()), r, ids, State())
    {
      hide *;
      ghost var s := State();
      StateParts();
      StateValues();
      PartsUnfilled(rules, s, strata, parts);
      partition, ids := GetPartition();
      ghost var s1 := State();
      StateParts();
      StateValues();
      UnpoppedAll(rules, s, s1, ids);
      PartitionBroken(rules, s, s1, ids);
      FilledIs(rules, s, ids, s1);
      PlansFilled(rules, s, ids, s1);
      ResetStratification();
      StateValues();
      StateParts();
      TurnedParts(s1);
      TurnedUnfilled(rules, s1);
      PartsNext(rules, s, s1, strata, parts, ids, partition);
      ClosedIsOpen(rules, State());
      r := Ok;
      ghost var s2 := State();
      if readyQueue == [] {
        var finished := TopologicalSortFinished();
        if !finished {
          StuckIs(s2);
          r := Unblock();
          StateValues();
          HandledPlaces(rules, s2, r, State());
          PartsSame(rules, s2, State(), strata + [partition], parts + [ids]);
          if r.Err? {
            NegativeFromIs(rules, s2, r.error.rule);
          }
        }
      }
      PartitionGoesOn(rules, s, s1, ids, r, State());
    }

    /**
     * The strata, as the run computes them.  Every distinct rule is in exactly one.  They are in order, and
     * there is never an error, for rules listed bottom up - acyclic ones in any order.
     */
    method OrderRules() returns (r: Outcome, strata: seq<seq<Rule>>, ghost run: Ordering)
      requires Valid() && Settled() && (!purePositive ==> Starts(rules, State()))
      modifies this
      ensures r.Ok? ==> OnceEach(rules, strata)
      ensures PurePositive(rules) ==> r.Ok? && strata == if rules == [] then [] else [rules]
      ensures PurePositive(rules) || BottomUp(rules) || Acyclic(rules) ==> r.Ok? && StrataInOrder(strata, {})
      ensures !PurePositive(rules) ==> |old(ordered)| == |rules| && SortedAs(rules, old(State()), r, strata, run)
      ensures r.Err? ==> r.error.NotStratifiable?
    {
      hide *;
      ValidIs();
      run := Refused(0);
      if purePositive {
        strata := if rules == [] then [] else [rules];
        OneStratum(rules, strata);
        return Ok, strata, run;
      }
      ghost var s0 := State();
      StateParts();
      StateValues();
      StartsIs(rules, s0);
      StartParts(rules, s0);
      PlansStart(rules, s0);
      ClosedIsOpen(rules, s0);
      run := Order(rules, s0);
      r, strata := Ok, [];
      ghost var parts: seq<seq<nat>> := [];
      if readyQueue == [] {
        StuckIs(s0);
        r := Unblock();
        StateValues();
        HandledPlaces(rules, s0, r, State());
        PartsSame(rules, s0, State(), strata, parts);
      }
      OrderStart(rules, s0, r, State());
      StateParts();
      if r.Err? {
        NegativeFromIs(rules, s0, r.error.rule);
        RefusedIs(rules, run, r);
        SortedIs(rules, s0, r, strata, run);
        return;
      }
      while readyQueue != []
        invariant r.Ok? && Valid() && Settled() && nextQueue == []
        invariant State().level.Keys == State().popped && |State().ordered| == |rules|
        invariant level.Keys == popped && PartsOk(rules, State(), strata, parts) && PlansOpen(rules, State())
        invariant readyQueue == [] ==> forall j: nat | j < |rules| :: Released(rules, State(), j)
        invariant Acyclic(rules) ==> broken == {}
        invariant OrdersOn(rules, run, parts, State())
        decreases Unpopped(rules, popped)
      {
        ghost var s := State();
        var partition;
        ghost var ids;
        r, partition, ids := NextStratum(strata, parts);
        OrderNext(rules, run, parts, s, r, ids, State());
        StateParts();
        StateValues();
        if r.Err? {
          RefusedIs(rules, run, r);
          SortedIs(rules, s0, r, strata, run);
          return;
        }
        strata := strata + [partition];
        parts := parts + [ids];
      }
      StateParts();
      StateValues();
      StuckIs(State());
      AllReleasedPopped(rules, State());
      AllPopped(rules, State(), strata, parts);
      OrderEnd(rules, run, parts, State());
      WrittenIs(rules, run, State(), strata, parts);
      NoneBroken(rules, State());
      WrittenParts(rules, run, strata, State());
      SortedIs(rules, s0, r, strata, run);
      if BottomUp(rules) {
        PlansRight(rules, State());
      }
      if Acyclic(rules) {
        AcyclicBottomUp(rules);
        PlansRight(rules, State());
      }
    }
  }

  method IndexRules(rules: seq<Rule>) returns (index: map<Rule, nat>)
    requires NoDup(rules)
    ensures IndexOf(rules, index)
  {
    index := map[];
    for k := 0 to |rules|
      invariant forall r :: r in index <==> r in rules[..k]
      invariant forall i | 0 <= i < k :: rules[i] in index && index[rules[i]] == i
    {
      assert rules[..k + 1] == rules[..k] + [rules[k]];
      index := index[rules[k] := k];
    }
    assert rules[..|rules|] == rules;
  }

  method WithoutPredecessors(ordered: seq<OrderedRule>) returns (ready: seq<nat>)
    ensures NoDup(ready) && forall j: nat :: j in ready <==> j < |ordered| && ordered[j].numPredecessors == 0
    ensures ready == ReadyRules(ordered, |ordered|)
  {
    ready := [];
    for k := 0 to |ordered|
      invariant NoDup(ready) && forall j: nat :: j in ready <==> j < k && ordered[j].numPredecessors == 0
      invariant ready == ReadyRules(ordered, k)
    {
      if ordered[k].numPredecessors == 0 {
        ready := ready + [k];
      }
    }
  }
}
