/**
 * The whole sort as a function of the rules: which edges are followed in which order, where the search for a
 * cycle goes, which partitions come out.  The class `Stratifier.RulePartitioner` is proved to compute it.
 */
module SortRun {
  import opened Syntax
  import opened Unification
  import opened RuleSort

  // ---- Filling a partition ----

  /** Follow the edges from `idx` to the rules from `j` on. */
  ghost function FollowFrom(rules: seq<Rule>, s: Sort, idx: nat, j: nat): (s': Sort)
    ensures SamePlaces(s, s')
    decreases |rules| - j
  {
    if j >= |rules| then s
    else FollowFrom(rules, if Dep(rules, idx, j) then FollowOne(s, idx, j, NegDep(rules, idx, j)) else s, idx, j + 1)
  }

  lemma {:induction false} SkipFollow(rules: seq<Rule>, s: Sort, idx: nat, j: nat, k: nat)
    requires j <= k && forall m: nat | j <= m < k :: !Dep(rules, idx, m)
    ensures FollowFrom(rules, s, idx, j) == FollowFrom(rules, s, idx, k)
    decreases k - j
  {
    hide Dep;
    if j < k {
      if j < |rules| {
        SkipFollow(rules, s, idx, j + 1, k);
      }
    }
  }

  ghost function TakeOne(rules: seq<Rule>, s: Sort): (s': Sort)
    requires s.ready != []
    ensures SamePlaces(PopOne(s), s')
  {
    FollowFrom(rules, PopOne(s), s.ready[0], 0)
  }

  lemma TakenIs(rules: seq<Rule>, s: Sort)
    requires s.ready != []
    ensures TakeOne(rules, s) == FollowFrom(rules, PopOne(s), s.ready[0], 0)
    ensures SamePlaces(PopOne(s), TakeOne(rules, s))
  {
  }

  lemma PoppedValues(s: Sort)
    requires s.ready != []
    ensures var s' := PopOne(s);
            && s'.popped == s.popped + {s.ready[0]} && s'.level == s.level[s.ready[0] := s.current] && s'.current == s.current
            && s'.ordered == s.ordered && s'.done == s.done && s'.broken == s.broken && s'.left == s.left
  {
  }

  /** One more rule taken belongs to the partition. */
  lemma TakenPartition(rules: seq<Rule>, s0: Sort, s: Sort, ids: seq<nat>)
    requires s.ready != [] && s.ready[0] < |rules| && s.ready[0] !in s.popped
    requires PartitionOf(rules, s0, s, ids)
    ensures PartitionOf(rules, s0, TakeOne(rules, s), ids + [s.ready[0]]) && TakeOne(rules, s).popped == s.popped + {s.ready[0]}
    ensures (forall i | i in ids + [s.ready[0]] :: i < |rules|) && (forall i | i in ids :: i < |rules|)
    ensures RulesAt(rules, ids + [s.ready[0]]) == RulesAt(rules, ids) + [rules[s.ready[0]]]
  {
    TakenIs(rules, s);
    PoppedValues(s);
    assert TakeOne(rules, s).popped == s.popped + {s.ready[0]} && TakeOne(rules, s).current == s.current;
    hide TakeOne, PopOne;
    PartitionNext(rules, s0, s, TakeOne(rules, s), ids, s.ready[0]);
  }

  /** Empty the ready queue; the rules taken, in order. */
  ghost function Fill(rules: seq<Rule>, s: Sort): (f: (Sort, seq<nat>))
    ensures s.popped <= f.0.popped && (f.1 != [] ==> Unpopped(rules, f.0.popped) < Unpopped(rules, s.popped))
    decreases Unpopped(rules, s.popped)
  {
    if s.ready == [] || s.ready[0] >= |rules| || s.ready[0] in s.popped then (s, [])
    else
      UnpoppedShrinks(rules, s.popped, s.ready[0]);
      var f := Fill(rules, TakeOne(rules, s));
      (f.0, [s.ready[0]] + f.1)
  }

  /** Filling from `s0` has taken the rules `ids` and goes on from `s`. */
  ghost predicate FillsOn(rules: seq<Rule>, s0: Sort, s: Sort, ids: seq<nat>) {
    Fill(rules, s0) == (Fill(rules, s).0, ids + Fill(rules, s).1)
  }

  lemma FillNone(rules: seq<Rule>, s: Sort)
    ensures FillsOn(rules, s, s, [])
  {
    assert [] + Fill(rules, s).1 == Fill(rules, s).1;
  }

  lemma FillNext(rules: seq<Rule>, s0: Sort, s: Sort, ids: seq<nat>)
    requires FillsOn(rules, s0, s, ids) && s.ready != [] && s.ready[0] < |rules| && s.ready[0] !in s.popped
    ensures FillsOn(rules, s0, TakeOne(rules, s), ids + [s.ready[0]])
  {
    assert ids + ([s.ready[0]] + Fill(rules, TakeOne(rules, s)).1) == ids + [s.ready[0]] + Fill(rules, TakeOne(rules, s)).1;
  }

  lemma FillEnd(rules: seq<Rule>, s0: Sort, s: Sort, ids: seq<nat>)
    requires FillsOn(rules, s0, s, ids) && s.ready == []
    ensures Fill(rules, s0) == (s, ids)
  {
    assert ids + [] == ids;
  }

  // ---- Searching for a cycle ----

  /** `Found` has the path of the search, `Blocked` the rule a NOT edge starts from. */
  datatype Search = NotFound(visited: set<nat>) | Found(path: seq<nat>) | Blocked(rule: nat)

  ghost function Dfs(rules: seq<Rule>, s: Sort, x: nat, visited: set<nat>, path: seq<nat>): (r: Search)
    requires |s.ordered| == |rules|
    ensures r.NotFound? ==> visited <= r.visited
    decreases Unpopped(rules, visited), 0, 0
  {
    if x in visited || x >= |rules| then if x in path then Found(path) else NotFound(visited)
    else
      UnpoppedShrinks(rules, visited, x);
      DfsFrom(rules, s, x, 0, visited + {x}, path + [x])
  }

  /** The edges from `x` to the rules from `j` on. */
  ghost function DfsFrom(rules: seq<Rule>, s: Sort, x: nat, j: nat, visited: set<nat>, path: seq<nat>): (r: Search)
    requires |s.ordered| == |rules|
    ensures r.NotFound? ==> visited <= r.visited
    decreases Unpopped(rules, visited), 1, |rules| - j
  {
    if j >= |rules| then NotFound(visited)
    else if !Dep(rules, x, j) || s.ordered[j].output then DfsFrom(rules, s, x, j + 1, visited, path)
    else if NegDep(rules, x, j) then Blocked(x)
    else
      var r := Dfs(rules, s, j, visited, path);
      if r.NotFound? then
        UnpoppedFewer(rules, visited, r.visited);
        DfsFrom(rules, s, x, j + 1, r.visited, path)
      else r
  }

  lemma UnpoppedFewer(rules: seq<Rule>, a: set<nat>, b: set<nat>)
    requires a <= b
    ensures Unpopped(rules, b) <= Unpopped(rules, a)
  {
  }

  lemma {:induction false} SkipDfs(rules: seq<Rule>, s: Sort, x: nat, j: nat, k: nat, visited: set<nat>, path: seq<nat>)
    requires |s.ordered| == |rules|
    requires j <= k && forall m: nat | j <= m < k :: !Dep(rules, x, m)
    ensures DfsFrom(rules, s, x, j, visited, path) == DfsFrom(rules, s, x, k, visited, path)
    decreases k - j
  {
    hide Dep;
    if j < k && j < |rules| {
      SkipDfs(rules, s, x, j + 1, k, visited, path);
    }
  }

  /** The rules that wait, tried in order. */
  ghost function SearchFrom(rules: seq<Rule>, s: Sort, start: nat): Search
    requires |s.ordered| == |rules|
    decreases |rules| - start
  {
    if start >= |rules| then NotFound({})
    else if s.ordered[start].output || s.ordered[start].numPredecessors == 0 then SearchFrom(rules, s, start + 1)
    else
      var r := Dfs(rules, s, start, {}, []);
      if r.NotFound? then SearchFrom(rules, s, start + 1) else r
  }

  ghost function BreakAll(s: Sort, path: seq<nat>): (s': Sort)
    ensures s'.popped == s.popped && |s'.ordered| == |s.ordered|
    decreases |path|
  {
    if path == [] then s else BreakAll(BreakOne(s, path[0]), path[1..])
  }

  lemma {:induction false} BreakAllSnoc(s: Sort, path: seq<nat>, x: nat)
    ensures BreakAll(s, path + [x]) == BreakOne(BreakAll(s, path), x)
    decreases |path|
  {
    if path == [] {
      assert (path + [x])[1..] == [];
    } else {
      assert (path + [x])[1..] == path[1..] + [x];
      BreakAllSnoc(BreakOne(s, path[0]), path[1..], x);
    }
  }

  // ---- The run ----

  /** The partitions and the state at the end, or the rule the search reported. */
  datatype Ordering = Strata(parts: seq<seq<nat>>, end: Sort) | Refused(rule: nat)

  ghost function Before(ids: seq<nat>, o: Ordering): Ordering {
    if o.Strata? then o.(parts := [ids] + o.parts) else o
  }

  ghost predicate AllOut(s: Sort) {
    forall o | o in s.ordered :: o.output || o.numPredecessors == 0
  }

  /** The state after a search that was not blocked. */
  ghost function Unstuck(s: Sort, r: Search): (s': Sort)
    ensures s'.popped == s.popped
  {
    if r.Found? then BreakAll(s, r.path) else s
  }

  /** Fill partitions until nothing is ready any more. */
  ghost function OrderFrom(rules: seq<Rule>, s: Sort): Ordering
    decreases Unpopped(rules, s.popped)
  {
    var f := Fill(rules, s);
    var t := Turned(f.0);
    if f.1 == [] || |t.ordered| != |rules| then Strata([], s)
    else if t.ready != [] || AllOut(t) then Before(f.1, OrderFrom(rules, t))
    else
      var r := SearchFrom(rules, t, 0);
      if r.Blocked? then Refused(r.rule) else Before(f.1, OrderFrom(rules, Unstuck(t, r)))
  }

  /** The whole run. */
  ghost function Order(rules: seq<Rule>, s: Sort): Ordering
    requires |s.ordered| == |rules|
  {
    if s.ready != [] then OrderFrom(rules, s)
    else
      var r := SearchFrom(rules, s, 0);
      if r.Blocked? then Refused(r.rule) else OrderFrom(rules, Unstuck(s, r))
  }

  // ---- The start ----

  /** The first `n` rules without predecessors, in order. */
  ghost function ReadyRules(ordered: seq<OrderedRule>, n: nat): (ready: seq<nat>)
    requires n <= |ordered|
  {
    if n == 0 then []
    else if ordered[n - 1].numPredecessors == 0 then ReadyRules(ordered, n - 1) + [n - 1]
    else ReadyRules(ordered, n - 1)
  }

  /** The edges and counters are those of the dependency graph, and the rules without predecessors are ready. */
  ghost predicate Starts(rules: seq<Rule>, s: Sort) {
    EdgesListed(rules, s.ordered) && StartCounts(rules, s.ordered) && s == StartState(s.ordered, ReadyRules(s.ordered, |rules|))
  }

  /** The sort has one beginning, so one run. */
  lemma StartsUnique(rules: seq<Rule>, s: Sort, t: Sort)
    requires Starts(rules, s) && Starts(rules, t)
    ensures s == t
  {
    OrderedUnique(rules, s.ordered, t.ordered);
  }

  /** The sort accepts the rules: there is no NOT atom, or its run ends with strata. */
  ghost predicate Sortable(rules: seq<Rule>) {
    PurePositive(rules) || exists s :: Starts(rules, s) && Order(rules, s).Strata?
  }

  lemma SortableExact(rules: seq<Rule>, s: Sort)
    requires Starts(rules, s) && !PurePositive(rules)
    ensures Sortable(rules) <==> Order(rules, s).Strata?
  {
    if Sortable(rules) {
      var t :| Starts(rules, t) && Order(rules, t).Strata?;
      StartsUnique(rules, s, t);
    }
  }

  // ---- Walking the edge lists ----

  /** The position from which the edges after the first `k` go on. */
  ghost function After(ruleIndex: map<Rule, nat>, successors: seq<PatternEdge>, k: nat): nat
    requires k <= |successors|
  {
    if k == 0 || successors[k - 1].rule !in ruleIndex then 0 else ruleIndex[successors[k - 1].rule] + 1
  }

  /** The targets of the edge list, in ascending order. */
  ghost predicate Ascends(rules: seq<Rule>, ruleIndex: map<Rule, nat>, successors: seq<PatternEdge>) {
    && (forall m | 0 <= m < |successors| :: successors[m].rule in ruleIndex && ruleIndex[successors[m].rule] < |rules|)
    && (forall m, l | 0 <= m < l < |successors| :: ruleIndex[successors[m].rule] < ruleIndex[successors[l].rule])
  }

  lemma SuccessorsAscend(rules: seq<Rule>, ruleIndex: map<Rule, nat>, idx: nat, successors: seq<PatternEdge>)
    requires SuccessorsOf(rules, ruleIndex, idx, successors)
    ensures Ascends(rules, ruleIndex, successors)
  {
    hide Dep, NegDep, OutEdge;
    forall m | 0 <= m < |successors|
      ensures successors[m].rule in ruleIndex && ruleIndex[successors[m].rule] < |rules| && rules[ruleIndex[successors[m].rule]] == successors[m].rule
    {
      assert successors[m] in successors;
      EdgeIsDep(rules, ruleIndex, idx, successors[m]);
    }
    hide SuccessorsOf, IndexOf;
    assert InRuleOrder(rules, successors);
  }

  lemma TargetListed(rules: seq<Rule>, ruleIndex: map<Rule, nat>, idx: nat, successors: seq<PatternEdge>, j: nat) returns (m: nat)
    requires SuccessorsOf(rules, ruleIndex, idx, successors) && Dep(rules, idx, j)
    ensures m < |successors| && successors[m].rule in ruleIndex && ruleIndex[successors[m].rule] == j
  {
    var e := DepHasEdge(rules, idx, j);
    m :| 0 <= m < |successors| && successors[m] == e;
  }

  /** Between two edges of the list there is no dependency. */
  lemma NoneBetween(rules: seq<Rule>, ruleIndex: map<Rule, nat>, idx: nat, successors: seq<PatternEdge>, k: nat)
    requires SuccessorsOf(rules, ruleIndex, idx, successors) && k <= |successors|
    ensures k < |successors| ==> successors[k].rule in ruleIndex && After(ruleIndex, successors, k) <= ruleIndex[successors[k].rule]
    ensures forall j: nat | After(ruleIndex, successors, k) <= j && Dep(rules, idx, j) ::
              k < |successors| && ruleIndex[successors[k].rule] <= j
  {
    SuccessorsAscend(rules, ruleIndex, idx, successors);
    hide Dep, SuccessorsOf;
    forall j: nat | After(ruleIndex, successors, k) <= j && Dep(rules, idx, j) ensures k < |successors| && ruleIndex[successors[k].rule] <= j {
      var m := TargetListed(rules, ruleIndex, idx, successors, j);
    }
  }

  lemma FollowStart(ruleIndex: map<Rule, nat>, idx: nat, successors: seq<PatternEdge>, done: set<(nat, nat)>)
    requires forall e | e in done :: e.0 != idx
    ensures FollowedUpTo(ruleIndex, idx, successors, 0, done) && After(ruleIndex, successors, 0) == 0
  {
  }

  /** Following edge `k` of the list is the next step. */
  lemma FollowNext(rules: seq<Rule>, ruleIndex: map<Rule, nat>, s: Sort, idx: nat, successors: seq<PatternEdge>, k: nat)
    requires SuccessorsOf(rules, ruleIndex, idx, successors) && k < |successors|
    ensures successors[k].rule in ruleIndex
    ensures FollowFrom(rules, s, idx, After(ruleIndex, successors, k)) ==
            FollowFrom(rules, FollowOne(s, idx, ruleIndex[successors[k].rule], successors[k].NegativePatternEdge?), idx,
                       After(ruleIndex, successors, k + 1))
  {
    NoneBetween(rules, ruleIndex, idx, successors, k);
    assert successors[k] in successors;
    EdgeIsDep(rules, ruleIndex, idx, successors[k]);
    SkipFollow(rules, s, idx, After(ruleIndex, successors, k), ruleIndex[successors[k].rule]);
  }

  lemma FollowEnd(rules: seq<Rule>, ruleIndex: map<Rule, nat>, s: Sort, idx: nat, successors: seq<PatternEdge>)
    requires SuccessorsOf(rules, ruleIndex, idx, successors)
    ensures FollowFrom(rules, s, idx, After(ruleIndex, successors, |successors|)) == s
  {
    NoneBetween(rules, ruleIndex, idx, successors, |successors|);
    var j := After(ruleIndex, successors, |successors|);
    SkipFollow(rules, s, idx, j, j + |rules|);
  }

  /** Likewise for the search: an edge to a rule that is out is passed over. */
  lemma DfsNext(rules: seq<Rule>, ruleIndex: map<Rule, nat>, s: Sort, idx: nat, successors: seq<PatternEdge>, k: nat,
                visited: set<nat>, path: seq<nat>)
    requires SuccessorsOf(rules, ruleIndex, idx, successors) && k < |successors| && |s.ordered| == |rules|
    ensures successors[k].rule in ruleIndex && ruleIndex[successors[k].rule] < |rules|
    ensures DfsFrom(rules, s, idx, After(ruleIndex, successors, k), visited, path) ==
            var j := ruleIndex[successors[k].rule];
            if s.ordered[j].output then DfsFrom(rules, s, idx, After(ruleIndex, successors, k + 1), visited, path)
            else if successors[k].NegativePatternEdge? then Blocked(idx)
            else
              var r := Dfs(rules, s, j, visited, path);
              if r.NotFound? then DfsFrom(rules, s, idx, After(ruleIndex, successors, k + 1), r.visited, path) else r
  {
    NoneBetween(rules, ruleIndex, idx, successors, k);
    assert successors[k] in successors;
    EdgeIsDep(rules, ruleIndex, idx, successors[k]);
    SkipDfs(rules, s, idx, After(ruleIndex, successors, k), ruleIndex[successors[k].rule], visited, path);
  }

  lemma DfsEnd(rules: seq<Rule>, ruleIndex: map<Rule, nat>, s: Sort, idx: nat, successors: seq<PatternEdge>,
               visited: set<nat>, path: seq<nat>)
    requires SuccessorsOf(rules, ruleIndex, idx, successors) && |s.ordered| == |rules|
    ensures DfsFrom(rules, s, idx, After(ruleIndex, successors, |successors|), visited, path) == NotFound(visited)
  {
    NoneBetween(rules, ruleIndex, idx, successors, |successors|);
    var j := After(ruleIndex, successors, |successors|);
    SkipDfs(rules, s, idx, j, j + |rules|, visited, path);
  }

  ghost function Visited(visited: seq<bool>): set<nat> {
    set x: nat | x < |visited| && visited[x]
  }

  /** What the search method returns, in terms of its specification. */
  ghost predicate Answers(rules: seq<Rule>, a: Search, r: Outcome, found: bool, visited: seq<bool>, path: seq<nat>) {
    match a
    case NotFound(v) => r.Ok? && !found && Visited(visited) == v
    case Found(p) => r.Ok? && found && path == p
    case Blocked(x) => r.Err? && x < |rules| && r.error == NotStratifiable(rules[x])
  }

  lemma AnswersParts(rules: seq<Rule>, a: Search, r: Outcome, found: bool, visited: seq<bool>, path: seq<nat>)
    requires Answers(rules, a, r, found, visited, path)
    ensures r.Ok? && !found ==> a == NotFound(Visited(visited))
    ensures r.Err? || found ==> !a.NotFound?
  {
  }

  lemma AnswersBlocked(rules: seq<Rule>, idx: nat, r: Outcome, found: bool, visited: seq<bool>, path: seq<nat>)
    requires idx < |rules| && r == Err(NotStratifiable(rules[idx]))
    ensures Answers(rules, Blocked(idx), r, found, visited, path)
  {
  }

  lemma AnswersNotFound(rules: seq<Rule>, visited: seq<bool>, path: seq<nat>)
    ensures Answers(rules, NotFound(Visited(visited)), Ok, false, visited, path)
  {
  }

  lemma DfsRevisited(rules: seq<Rule>, s: Sort, idx: nat, visited: seq<bool>, path: seq<nat>)
    requires |s.ordered| == |rules| == |visited| && idx < |rules| && visited[idx]
    ensures Answers(rules, Dfs(rules, s, idx, Visited(visited), path), Ok, idx in path, visited, path)
  {
  }

  lemma DfsEntered(rules: seq<Rule>, s: Sort, ruleIndex: map<Rule, nat>, successors: seq<PatternEdge>, idx: nat,
                   visited: seq<bool>, path: seq<nat>)
    requires |s.ordered| == |rules| == |visited| && idx < |rules| && !visited[idx]
    ensures Visited(visited[idx := true]) == Visited(visited) + {idx}
    ensures DfsFrom(rules, s, idx, After(ruleIndex, successors, 0), Visited(visited[idx := true]), path + [idx]) ==
            Dfs(rules, s, idx, Visited(visited), path)
  {
    assert Visited(visited[idx := true]) == Visited(visited) + {idx};
  }

  lemma NoneVisited(visited: seq<bool>)
    requires forall k | 0 <= k < |visited| :: !visited[k]
    ensures Visited(visited) == {}
  {
  }

  lemma SearchNext(rules: seq<Rule>, s: Sort, start: nat)
    requires |s.ordered| == |rules| && start <= |rules|
    ensures start == |rules| ==> SearchFrom(rules, s, start) == NotFound({})
    ensures start < |rules| ==>
              SearchFrom(rules, s, start) ==
              if s.ordered[start].output || s.ordered[start].numPredecessors == 0 then SearchFrom(rules, s, start + 1)
              else if Dfs(rules, s, start, {}, []).NotFound? then SearchFrom(rules, s, start + 1)
              else Dfs(rules, s, start, {}, [])
  {
  }

  /** What the search over all rules returns, in terms of its specification. */
  ghost predicate CycleAnswer(rules: seq<Rule>, a: Search, r: Outcome, path: Option<seq<nat>>) {
    match a
    case NotFound(_) => r.Ok? && path.None?
    case Found(p) => r.Ok? && path == Some(p)
    case Blocked(x) => r.Err? && x < |rules| && r.error == NotStratifiable(rules[x])
  }

  lemma CycleAnswered(rules: seq<Rule>, a: Search, r: Outcome, found: bool, visited: seq<bool>, path: seq<nat>)
    requires Answers(rules, a, r, found, visited, path)
    ensures r.Err? ==> !a.NotFound? && CycleAnswer(rules, a, r, None)
    ensures r.Ok? && found ==> a == Found(path) && CycleAnswer(rules, a, Ok, Some(path))
    ensures r.Ok? && !found ==> a.NotFound?
  {
  }

  lemma NoCycleAnswer(rules: seq<Rule>)
    ensures CycleAnswer(rules, NotFound({}), Ok, None)
  {
  }

  // ---- The path that is found ----

  /** A positive edge to a rule that is not out. */
  ghost predicate Link(rules: seq<Rule>, s: Sort, i: nat, j: nat)
    requires |s.ordered| == |rules|
  {
    Dep(rules, i, j) && !NegDep(rules, i, j) && !s.ordered[j].output
  }

  ghost predicate Linked(rules: seq<Rule>, s: Sort, path: seq<nat>)
    requires |s.ordered| == |rules|
  {
    forall k | 0 <= k < |path| - 1 :: Link(rules, s, path[k], path[k + 1])
  }

  /** Each rule of the path feeds the next, and the last one feeds a rule of the path. */
  ghost predicate ClosesCycle(rules: seq<Rule>, s: Sort, path: seq<nat>)
    requires |s.ordered| == |rules|
  {
    path != [] && Linked(rules, s, path) && exists y :: y in path && Link(rules, s, path[|path| - 1], y)
  }

  lemma {:induction false} DfsCloses(rules: seq<Rule>, s: Sort, x: nat, visited: set<nat>, path: seq<nat>)
    requires |s.ordered| == |rules| && Dfs(rules, s, x, visited, path).Found? && Linked(rules, s, path)
    requires path != [] ==> Link(rules, s, path[|path| - 1], x)
    ensures ClosesCycle(rules, s, Dfs(rules, s, x, visited, path).path)
    decreases Unpopped(rules, visited), 0, 0
  {
    hide Link;
    if x in visited || x >= |rules| {
      assert x in path;
    } else {
      UnpoppedShrinks(rules, visited, x);
      assert Linked(rules, s, path + [x]);
      DfsFromCloses(rules, s, x, 0, visited + {x}, path + [x]);
    }
  }

  lemma {:induction false} DfsFromCloses(rules: seq<Rule>, s: Sort, x: nat, j: nat, visited: set<nat>, path: seq<nat>)
    requires |s.ordered| == |rules| && DfsFrom(rules, s, x, j, visited, path).Found? && Linked(rules, s, path)
    requires path != [] && path[|path| - 1] == x
    ensures ClosesCycle(rules, s, DfsFrom(rules, s, x, j, visited, path).path)
    decreases Unpopped(rules, visited), 1, |rules| - j
  {
    if !Dep(rules, x, j) || s.ordered[j].output {
      DfsFromCloses(rules, s, x, j + 1, visited, path);
    } else {
      assert Link(rules, s, x, j);
      var r := Dfs(rules, s, j, visited, path);
      if r.NotFound? {
        UnpoppedFewer(rules, visited, r.visited);
        DfsFromCloses(rules, s, x, j + 1, r.visited, path);
      } else {
        DfsCloses(rules, s, j, visited, path);
      }
    }
  }

  lemma {:induction false} SearchCloses(rules: seq<Rule>, s: Sort, start: nat)
    requires |s.ordered| == |rules| && SearchFrom(rules, s, start).Found?
    ensures ClosesCycle(rules, s, SearchFrom(rules, s, start).path)
    decreases |rules| - start
  {
    if s.ordered[start].output || s.ordered[start].numPredecessors == 0 || Dfs(rules, s, start, {}, []).NotFound? {
      SearchCloses(rules, s, start + 1);
    } else {
      DfsCloses(rules, s, start, {}, []);
    }
  }

  // ---- Breaking a cycle ----

  /** After the search from `s` either the error is out or the path is released. */
  ghost predicate Handled(rules: seq<Rule>, s: Sort, r: Outcome, s': Sort)
    requires |s.ordered| == |rules|
  {
    var a := SearchFrom(rules, s, 0);
    if a.Blocked? then r.Err? && a.rule < |rules| && r.error == NotStratifiable(rules[a.rule]) && s' == s
    else r.Ok? && s' == Unstuck(s, a)
  }

  lemma CycleParts(rules: seq<Rule>, s: Sort, r: Outcome, path: Option<seq<nat>>)
    requires |s.ordered| == |rules| && CycleAnswer(rules, SearchFrom(rules, s, 0), r, path)
    ensures r.Err? || path.None? ==> Handled(rules, s, r, s)
    ensures r.Ok? && path.Some? ==> Handled(rules, s, r, BreakAll(s, path.value))
    ensures r.Ok? && path.Some? && ClosesCycle(rules, s, path.value) ==> path.value != []
  {
  }

  lemma BreakNone(s: Sort, cycle: seq<nat>)
    ensures BreakAll(s, cycle[..0]) == s
  {
  }

  lemma BrokenReady(s: Sort, idx: nat)
    ensures |BreakOne(s, idx).ordered| == |s.ordered|
    ensures s.ready != [] || (idx < |s.ordered| && !s.ordered[idx].output) ==> BreakOne(s, idx).ready != []
  {
  }

  // ---- The run, partition by partition ----

  lemma NotReady(rules: seq<Rule>, s: Sort)
    requires s.ready == []
    ensures OrderFrom(rules, s) == Strata([], s)
  {
  }

  /** One partition: the run goes on from `s'`, or is refused. */
  ghost predicate GoesOn(rules: seq<Rule>, s: Sort, r: Outcome, ids: seq<nat>, s': Sort) {
    if r.Err? then exists x: nat :: x < |rules| && OrderFrom(rules, s) == Refused(x) && r.error == NotStratifiable(rules[x])
    else OrderFrom(rules, s) == Before(ids, OrderFrom(rules, s'))
  }

  lemma PartitionGoesOn(rules: seq<Rule>, s: Sort, s1: Sort, ids: seq<nat>, r: Outcome, s': Sort)
    requires Fill(rules, s) == (s1, ids) && ids != [] && |Turned(s1).ordered| == |rules|
    requires if Turned(s1).ready != [] || AllOut(Turned(s1)) then r.Ok? && s' == Turned(s1) else Handled(rules, Turned(s1), r, s')
    ensures GoesOn(rules, s, r, ids, s')
  {
    hide Fill, Turned, AllOut, SearchFrom, Unstuck;
  }

  ghost function BeforeAll(parts: seq<seq<nat>>, o: Ordering): Ordering {
    if o.Strata? then o.(parts := parts + o.parts) else o
  }

  /** The run from `s0` has put out `parts` and goes on from `s`. */
  ghost predicate OrdersOn(rules: seq<Rule>, run: Ordering, parts: seq<seq<nat>>, s: Sort) {
    run == BeforeAll(parts, OrderFrom(rules, s))
  }

  lemma OrderStart(rules: seq<Rule>, s: Sort, r: Outcome, s': Sort)
    requires |s.ordered| == |rules|
    requires if s.ready != [] then r.Ok? && s' == s else Handled(rules, s, r, s')
    ensures r.Ok? ==> OrdersOn(rules, Order(rules, s), [], s')
    ensures r.Err? ==> RefusedWith(rules, Order(rules, s), r)
  {
    var o := OrderFrom(rules, s');
    assert o.Strata? ==> [] + o.parts == o.parts;
  }

  ghost predicate RefusedWith(rules: seq<Rule>, run: Ordering, r: Outcome) {
    r.Err? && run.Refused? && run.rule < |rules| && r.error == NotStratifiable(rules[run.rule])
  }

  lemma OrderNext(rules: seq<Rule>, run: Ordering, parts: seq<seq<nat>>, s: Sort, r: Outcome, ids: seq<nat>, s': Sort)
    requires OrdersOn(rules, run, parts, s) && GoesOn(rules, s, r, ids, s')
    ensures r.Ok? ==> OrdersOn(rules, run, parts + [ids], s')
    ensures r.Err? ==> RefusedWith(rules, run, r)
  {
    var o := OrderFrom(rules, s');
    assert o.Strata? ==> parts + ([ids] + o.parts) == parts + [ids] + o.parts;
  }

  lemma OrderEnd(rules: seq<Rule>, run: Ordering, parts: seq<seq<nat>>, s: Sort)
    requires OrdersOn(rules, run, parts, s) && s.ready == []
    ensures run == Strata(parts, s)
  {
    NotReady(rules, s);
    assert parts + [] == parts;
  }

  lemma StartsIs(rules: seq<Rule>, s: Sort)
    requires Starts(rules, s)
    ensures |s.ordered| == |rules| && s.next == [] && s.popped == {} && s.level == map[] && s.current == 0 && s.broken == {}
    ensures s.level.Keys == s.popped && Unfilled(s)
  {
  }

  lemma HandledPlaces(rules: seq<Rule>, s: Sort, r: Outcome, s': Sort)
    requires |s.ordered| == |rules| && Handled(rules, s, r, s')
    ensures s'.popped == s.popped && s'.level == s.level && s'.current == s.current && s'.next == s.next
  {
    var a := SearchFrom(rules, s, 0);
    if a.Found? {
      BreakPlaces(s, a.path);
    }
  }

  lemma {:induction false} BreakPlaces(s: Sort, path: seq<nat>)
    ensures var s' := BreakAll(s, path); s'.popped == s.popped && s'.level == s.level && s'.current == s.current && s'.next == s.next
    decreases |path|
  {
    if path != [] {
      BreakPlaces(BreakOne(s, path[0]), path[1..]);
    }
  }

  /** The strata are the partitions of the run. */
  ghost predicate Written(rules: seq<Rule>, run: Ordering, strata: seq<seq<Rule>>) {
    && run.Strata? && |run.parts| == |strata| && run.end.level.Keys == run.end.popped
    && forall k | 0 <= k < |strata| :: (forall i | i in run.parts[k] :: i < |rules|) && strata[k] == RulesAt(rules, run.parts[k])
  }

  lemma WrittenIs(rules: seq<Rule>, run: Ordering, s: Sort, strata: seq<seq<Rule>>, parts: seq<seq<nat>>)
    requires s.level.Keys == s.popped && PartsOk(rules, s, strata, parts) && run == Strata(parts, s)
    ensures Written(rules, run, strata)
  {
  }

  lemma WrittenParts(rules: seq<Rule>, run: Ordering, strata: seq<seq<Rule>>, s: Sort)
    requires Written(rules, run, strata) && exists parts :: run == Strata(parts, s)
    ensures run.Strata? && run.end == s && run.end.level.Keys == run.end.popped
  {
  }

  lemma RefusedIs(rules: seq<Rule>, run: Ordering, r: Outcome)
    requires RefusedWith(rules, run, r)
    ensures r.Err? && r.error.NotStratifiable?
  {
  }
}
