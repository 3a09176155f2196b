/** Inputs on which the sort goes wrong, run step by step. */
module Misorderings {
  import opened Syntax
  import opened Matching
  import opened Unification
  import opened RuleSort
  import opened SortRun
  import opened Layers

  // ---- Rules over classes ----

  /** The rule `head(?name)` if all of `pos` and none of `neg` hold of `?name`. */
  datatype Unary = Unary(name: string, head: GraphElementId, pos: seq<GraphElementId>, neg: seq<GraphElementId>) {
    function Atom(class_: GraphElementId): QuadPattern {
      QuadPattern(Resource(0), Variable(name), Resource(0), Resource(class_))
    }

    function Body(): seq<RuleAtom> {
      seq(|pos|, k requires 0 <= k < |pos| => PositivePattern(Atom(pos[k]))) +
      seq(|neg|, k requires 0 <= k < |neg| => NotPattern(Atom(neg[k])))
    }

    function Rule(): Rule {
      Syntax.Rule(NormalHead(Atom(head)), Body())
    }
  }

  function Rules(us: seq<Unary>): (rules: seq<Rule>)
    ensures |rules| == |us| && forall k | 0 <= k < |us| :: rules[k] == us[k].Rule()
  {
    seq(|us|, k requires 0 <= k < |us| => us[k].Rule())
  }

  lemma UnaryAtoms(u: Unary)
    ensures forall p :: PositivePattern(p) in u.Rule().body <==> exists c :: c in u.pos && p == u.Atom(c)
    ensures forall p :: NotPattern(p) in u.Rule().body <==> exists c :: c in u.neg && p == u.Atom(c)
  {
    var body := u.Body();
    forall c | c in u.pos ensures PositivePattern(u.Atom(c)) in body {
      var k :| 0 <= k < |u.pos| && u.pos[k] == c;
      assert body[k] == PositivePattern(u.Atom(c));
    }
    forall c | c in u.neg ensures NotPattern(u.Atom(c)) in body {
      var k :| 0 <= k < |u.neg| && u.neg[k] == c;
      assert body[|u.pos| + k] == NotPattern(u.Atom(c));
    }
  }

  /** One rule feeds or blocks another when its class is among those the other one asks for. */
  lemma UnaryEdges(us: seq<Unary>, i: nat, j: nat)
    requires i < |us| && j < |us|
    ensures Dep(Rules(us), i, j) <==> us[i].head in us[j].pos || us[i].head in us[j].neg
    ensures NegDep(Rules(us), i, j) <==> us[i].head in us[j].neg
  {
    var a, b := us[i], us[j];
    UnaryAtoms(b);
    forall c ensures Unifiable(a.Atom(a.head), b.Atom(c)) <==> a.head == c { }
    hide Unifiable;
    if a.head in b.pos { assert PositivePattern(b.Atom(a.head)) in b.Rule().body; }
    if a.head in b.neg { assert NotPattern(b.Atom(a.head)) in b.Rule().body; }
  }

  // ---- States during a run ----

  /** What the edges and the counters are, rule by rule. */
  ghost predicate DepEdges(rules: seq<Rule>, pos: set<(nat, nat)>, neg: set<(nat, nat)>) {
    forall i: nat, j: nat :: (Dep(rules, i, j) <==> (i, j) in pos || (i, j) in neg) && (NegDep(rules, i, j) <==> (i, j) in neg)
  }

  /** The counter of a rule at the start. */
  lemma {:induction false} StartOf(rules: seq<Rule>, s: Sort, pos: set<(nat, nat)>, neg: set<(nat, nat)>, j: nat, from: set<nat>)
    requires DepEdges(rules, pos, neg) && Starts(rules, s) && j < |rules|
    requires forall i: nat :: i in from <==> (i, j) in pos || (i, j) in neg
    ensures !s.ordered[j].output && !s.ordered[j].usesIntensionalNegativeEdge && s.ordered[j].numPredecessors == |from|
  {
    hide Dep, NegDep;
    assert Pending(rules, {}, j) == from by { hide Starts; PendingIs(rules, pos, neg, j, from); }
  }

  lemma {:induction false} PendingIs(rules: seq<Rule>, pos: set<(nat, nat)>, neg: set<(nat, nat)>, j: nat, from: set<nat>)
    requires DepEdges(rules, pos, neg)
    requires forall i: nat :: i in from <==> (i, j) in pos || (i, j) in neg
    ensures Pending(rules, {}, j) == from
  {
    hide NegDep;
    forall i: nat ensures i in Pending(rules, {}, j) <==> i in from {
      assert Dep(rules, i, j) ==> i < |rules|;
    }
  }

  /** The parts of a state that decide how the sort goes on. */
  ghost predicate Looks(s: Sort, ready: seq<nat>, next: seq<nat>, popped: set<nat>, out: seq<bool>, waiting: seq<nat>, flagged: seq<bool>) {
    && s.ready == ready && s.next == next && s.popped == popped && |s.ordered| == |out| == |waiting| == |flagged|
    && forall k | 0 <= k < |out| ::
         s.ordered[k].output == out[k] && s.ordered[k].numPredecessors == waiting[k] && s.ordered[k].usesIntensionalNegativeEdge == flagged[k]
  }

  lemma {:induction false} LooksPopped(s: Sort, ready: seq<nat>, next: seq<nat>, popped: set<nat>, out: seq<bool>, waiting: seq<nat>, flagged: seq<bool>)
    requires Looks(s, ready, next, popped, out, waiting, flagged) && ready != []
    ensures Looks(PopOne(s), ready[1..], next, popped + {ready[0]}, out, waiting, flagged)
  {
  }

  /** Following an edge to a rule that is out, that still waits for others, or that comes free. */
  lemma {:induction false} LooksFollowed(s: Sort, ready: seq<nat>, next: seq<nat>, popped: set<nat>, out: seq<bool>, waiting: seq<nat>, flagged: seq<bool>,
                                         idx: nat, j: nat, negative: bool)
    requires Looks(s, ready, next, popped, out, waiting, flagged) && j < |out|
    ensures var flagged' := flagged[j := flagged[j] || negative];
            var s' := FollowOne(s, idx, j, negative);
            if out[j] || waiting[j] == 0 then Looks(s', ready, next, popped, out, waiting, flagged')
            else if waiting[j] > 1 then Looks(s', ready, next, popped, out, waiting[j := waiting[j] - 1], flagged')
            else Looks(s', if flagged'[j] then ready else ready + [j], if flagged'[j] then next + [j] else next, popped,
                       out[j := true], waiting[j := 0], flagged')
  {
  }

  lemma {:induction false} LooksTurned(s: Sort, next: seq<nat>, popped: set<nat>, out: seq<bool>, waiting: seq<nat>, flagged: seq<bool>)
    requires Looks(s, [], next, popped, out, waiting, flagged)
    ensures Looks(Turned(s), next, [], popped, out, waiting, seq(|out|, k => false))
  {
    assert [] + next == next;
  }

  lemma {:induction false} LooksBroken(s: Sort, ready: seq<nat>, next: seq<nat>, popped: set<nat>, out: seq<bool>, waiting: seq<nat>, flagged: seq<bool>, x: nat)
    requires Looks(s, ready, next, popped, out, waiting, flagged) && x < |out| && !out[x]
    ensures Looks(BreakAll(s, [x]), ready + [x], next, popped, out[x := true], waiting, flagged)
  {
    assert BreakAll(s, [x]) == BreakAll(BreakOne(s, x), [][..]);
  }

  /** A set of rules with the given edges. */
  lemma {:induction false} EdgesOf(us: seq<Unary>, pos: set<(nat, nat)>, neg: set<(nat, nat)>)
    requires forall e | e in pos + neg :: e.0 < |us| && e.1 < |us|
    requires forall i: nat, j: nat | i < |us| && j < |us| ::
               ((i, j) in pos || (i, j) in neg <==> us[i].head in us[j].pos || us[i].head in us[j].neg) &&
               ((i, j) in neg <==> us[i].head in us[j].neg)
    ensures DepEdges(Rules(us), pos, neg)
  {
    var rules := Rules(us);
    forall i: nat, j: nat
      ensures (Dep(rules, i, j) <==> (i, j) in pos || (i, j) in neg) && (NegDep(rules, i, j) <==> (i, j) in neg)
    {
      if i < |us| && j < |us| {
        UnaryEdges(us, i, j);
      } else {
        assert (i, j) !in pos + neg;
      }
    }
  }

  /** What order of the strata asks of two rules of the run. */
  lemma {:induction false} PlacesOf(rules: seq<Rule>, run: Ordering, strata: seq<seq<Rule>>, k: nat, l: nat, i: nat, j: nat)
    requires Written(rules, run, strata) && k < |run.parts| && l < |run.parts| && i in run.parts[k] && j in run.parts[l] && Dep(rules, i, j)
    ensures StrataInOrder(strata, {}) ==> k <= l && (NegDep(rules, i, j) ==> k < l)
  {
    RulesAtContains(rules, run.parts[k], rules[i]);
    RulesAtContains(rules, run.parts[l], rules[j]);
    var none: set<Rule> := {};
    assert rules[j] !in none && rules[i] in strata[k] && rules[j] in strata[l];
    hide CanFeed, CanBlock, RulesAt;
  }

  /** The ready rules of the given counters. */
  ghost function ReadyOf(waiting: seq<nat>, n: nat): (ready: seq<nat>)
    requires n <= |waiting|
  {
    if n == 0 then [] else if waiting[n - 1] == 0 then ReadyOf(waiting, n - 1) + [n - 1] else ReadyOf(waiting, n - 1)
  }

  lemma {:induction false} ReadyIs(ordered: seq<OrderedRule>, waiting: seq<nat>, n: nat)
    requires n <= |ordered| == |waiting| && forall k | 0 <= k < |ordered| :: ordered[k].numPredecessors == waiting[k]
    ensures ReadyRules(ordered, n) == ReadyOf(waiting, n)
    decreases n
  {
    if n > 0 {
      ReadyIs(ordered, waiting, n - 1);
    }
  }

  lemma {:induction false} StartLooks(rules: seq<Rule>, s: Sort, waiting: seq<nat>)
    requires Starts(rules, s) && |waiting| == |rules| && forall k | 0 <= k < |rules| :: s.ordered[k].numPredecessors == waiting[k]
    ensures Looks(s, ReadyOf(waiting, |waiting|), [], {}, seq(|rules|, k => false), waiting, seq(|rules|, k => false))
  {
    ReadyIs(s.ordered, waiting, |rules|);
  }

  lemma {:induction false} LooksSize(s: Sort, ready: seq<nat>, next: seq<nat>, popped: set<nat>, out: seq<bool>, waiting: seq<nat>, flagged: seq<bool>)
    requires Looks(s, ready, next, popped, out, waiting, flagged)
    ensures |s.ordered| == |out| && s.ready == ready
    ensures AllOut(s) <==> forall k | 0 <= k < |out| :: out[k] || waiting[k] == 0
  {
    if AllOut(s) {
      forall k | 0 <= k < |out| ensures out[k] || waiting[k] == 0 {
        assert s.ordered[k] in s.ordered;
      }
    }
  }

  lemma {:induction false} LooksBrokenTwo(s: Sort, ready: seq<nat>, next: seq<nat>, popped: set<nat>, out: seq<bool>, waiting: seq<nat>, flagged: seq<bool>,
                                          x: nat, y: nat)
    requires Looks(s, ready, next, popped, out, waiting, flagged) && x < |out| && y < |out| && x != y && !out[x] && !out[y]
    ensures Looks(BreakAll(s, [x, y]), ready + [x, y], next, popped, out[x := true][y := true], waiting, flagged)
  {
    LooksBroken(s, ready, next, popped, out, waiting, flagged, x);
    BreakAllSnoc(s, [x], y);
    assert [x] + [y] == [x, y] && ready + [x] + [y] == ready + [x, y];
  }

  /** One partition of the run. */
  lemma {:induction false} OrderStep(rules: seq<Rule>, s: Sort)
    ensures var f := Fill(rules, s);
            var t := Turned(f.0);
            f.1 != [] && |t.ordered| == |rules| ==>
              if t.ready != [] || AllOut(t) then OrderFrom(rules, s) == Before(f.1, OrderFrom(rules, t))
              else !SearchFrom(rules, t, 0).Blocked? ==>
                     OrderFrom(rules, s) == Before(f.1, OrderFrom(rules, Unstuck(t, SearchFrom(rules, t, 0))))
  {
    hide Fill, Turned, AllOut, SearchFrom, Unstuck;
  }

  // ---- Not stratifiable, and accepted ----

  lemma {:induction false} UnstratifiableStart(rules: seq<Rule>, s: Sort)
    requires |rules| == 2 && DepEdges(rules, {(0, 0), (1, 0)}, {(0, 1)}) && Starts(rules, s)
    ensures Looks(s, [], [], {}, [false, false], [2, 1], [false, false])
  {
    hide DepEdges, Starts, Dep, NegDep, StartCounts, Looks, Pending;
    StartOf(rules, s, {(0, 0), (1, 0)}, {(0, 1)}, 0, {0, 1});
    StartOf(rules, s, {(0, 0), (1, 0)}, {(0, 1)}, 1, {0});
    StartLooks(rules, s, [2, 1]);
    assert seq(2, k => false) == [false, false];
    var w := [2, 1];
  }

  lemma {:induction false} UnstratifiableSearch1(rules: seq<Rule>, s: Sort)
    requires |rules| == 2 && DepEdges(rules, {(0, 0), (1, 0)}, {(0, 1)})
    requires Looks(s, [], [], {}, [false, false], [2, 1], [false, false])
    ensures SearchFrom(rules, s, 0) == Found([0])
  {
    hide Dep, NegDep;
    assert {} + {0} == {0} && [] + [0] == [0];
    assert DfsFrom(rules, s, 0, 0, {0}, [0]) == Found([0]);
  }

  lemma {:induction false} UnstratifiableFill1(rules: seq<Rule>, s: Sort)
    requires |rules| == 2 && DepEdges(rules, {(0, 0), (1, 0)}, {(0, 1)})
    requires Looks(s, [0], [], {}, [true, false], [2, 1], [false, false])
    ensures Fill(rules, s).1 == [0] && Looks(Turned(Fill(rules, s).0), [1], [], {0}, [true, true], [2, 0], [false, false])
  {
    hide Dep, NegDep, PopOne, FollowOne, Turned;
    LooksPopped(s, [0], [], {}, [true, false], [2, 1], [false, false]);
    var s1 := PopOne(s);
    LooksFollowed(s1, [], [], {0}, [true, false], [2, 1], [false, false], 0, 0, false);
    var s2 := FollowOne(s1, 0, 0, false);
    LooksFollowed(s2, [], [], {0}, [true, false], [2, 1], [false, false], 0, 1, true);
    var s3 := FollowOne(s2, 0, 1, true);
    assert FollowFrom(rules, s3, 0, 2) == s3;
    assert FollowFrom(rules, s1, 0, 0) == s3;
    LooksTurned(s3, [1], {0}, [true, true], [2, 0], [false, true]);
  }

  lemma {:induction false} UnstratifiableFill2(rules: seq<Rule>, s: Sort)
    requires |rules| == 2 && DepEdges(rules, {(0, 0), (1, 0)}, {(0, 1)})
    requires Looks(s, [1], [], {0}, [true, true], [2, 0], [false, false])
    ensures Fill(rules, s).1 == [1] && Looks(Turned(Fill(rules, s).0), [], [], {0, 1}, [true, true], [2, 0], [false, false])
  {
    hide Dep, NegDep, PopOne, FollowOne, Turned;
    LooksPopped(s, [1], [], {0}, [true, true], [2, 0], [false, false]);
    var s1 := PopOne(s);
    LooksFollowed(s1, [], [], {0, 1}, [true, true], [2, 0], [false, false], 1, 0, false);
    var s2 := FollowOne(s1, 1, 0, false);
    assert FollowFrom(rules, s2, 1, 1) == s2;
    LooksTurned(s2, [], {0, 1}, [true, true], [2, 0], [false, false]);
  }

  lemma {:induction false} UnstratifiableRun(rules: seq<Rule>, s: Sort)
    requires |rules| == 2 && DepEdges(rules, {(0, 0), (1, 0)}, {(0, 1)}) && Starts(rules, s)
    ensures Order(rules, s).Strata? && Order(rules, s).parts == [[0], [1]]
  {
    hide Dep, NegDep, Fill, Turned, BreakAll, SearchFrom, Starts, Looks, OrderFrom;
    UnstratifiableStart(rules, s);
    LooksSize(s, [], [], {}, [false, false], [2, 1], [false, false]);
    UnstratifiableSearch1(rules, s);
    assert [false, false][0 := true] == [true, false] && [] + [0] == [0];
    LooksBroken(s, [], [], {}, [false, false], [2, 1], [false, false], 0);
    var s1 := BreakAll(s, [0]);
    UnstratifiableFill1(rules, s1);
    var s2 := Turned(Fill(rules, s1).0);
    LooksSize(s2, [1], [], {0}, [true, true], [2, 0], [false, false]);
    UnstratifiableFill2(rules, s2);
    var s3 := Turned(Fill(rules, s2).0);
    LooksSize(s3, [], [], {0, 1}, [true, true], [2, 0], [false, false]);
    NotReady(rules, s3);
    OrderStep(rules, s2);
    OrderStep(rules, s1);
  }

  // ---- Stratifiable, and refused ----

  lemma {:induction false} RefusedStart(rules: seq<Rule>, s: Sort)
    requires |rules| == 2 && DepEdges(rules, {(1, 1)}, {(1, 0)}) && Starts(rules, s)
    ensures Looks(s, [], [], {}, [false, false], [1, 1], [false, false])
  {
    hide DepEdges, Starts, Dep, NegDep, StartCounts, Looks, Pending;
    StartOf(rules, s, {(1, 1)}, {(1, 0)}, 0, {1});
    StartOf(rules, s, {(1, 1)}, {(1, 0)}, 1, {1});
    StartLooks(rules, s, [1, 1]);
    assert seq(2, k => false) == [false, false];
    var w := [1, 1];
  }

  lemma {:induction false} RefusedSearch1(rules: seq<Rule>, s: Sort)
    requires |rules| == 2 && DepEdges(rules, {(1, 1)}, {(1, 0)})
    requires Looks(s, [], [], {}, [false, false], [1, 1], [false, false])
    ensures SearchFrom(rules, s, 0) == Blocked(1)
  {
    hide Dep, NegDep;
    assert {} + {0} == {0} && [] + [0] == [0];
    assert DfsFrom(rules, s, 0, 1, {0}, [0]) == NotFound({0});
    assert Dfs(rules, s, 0, {}, []) == NotFound({0});
    assert Dfs(rules, s, 1, {}, []) == Blocked(1);
  }

  lemma {:induction false} RefusedRun(rules: seq<Rule>, s: Sort)
    requires |rules| == 2 && DepEdges(rules, {(1, 1)}, {(1, 0)}) && Starts(rules, s)
    ensures Order(rules, s) == Refused(1)
  {
    hide Dep, NegDep, Fill, Turned, BreakAll, SearchFrom, Starts, Looks, OrderFrom;
    RefusedStart(rules, s);
    LooksSize(s, [], [], {}, [false, false], [1, 1], [false, false]);
    RefusedSearch1(rules, s);
  }

  // ---- Two recursive rules of one class, split ----

  lemma {:induction false} SplitStart(rules: seq<Rule>, s: Sort)
    requires |rules| == 3 && DepEdges(rules, {(0, 0), (0, 1), (1, 0), (1, 1)}, {}) && Starts(rules, s)
    ensures Looks(s, [2], [], {}, [false, false, false], [2, 2, 0], [false, false, false])
  {
    hide DepEdges, Starts, Dep, NegDep, StartCounts, Looks, Pending;
    StartOf(rules, s, {(0, 0), (0, 1), (1, 0), (1, 1)}, {}, 0, {0, 1});
    StartOf(rules, s, {(0, 0), (0, 1), (1, 0), (1, 1)}, {}, 1, {0, 1});
    StartOf(rules, s, {(0, 0), (0, 1), (1, 0), (1, 1)}, {}, 2, {});
    StartLooks(rules, s, [2, 2, 0]);
    assert seq(3, k => false) == [false, false, false];
    var w := [2, 2, 0];
    assert ReadyOf(w, 3) == [2];
  }

  lemma {:induction false} SplitFill1(rules: seq<Rule>, s: Sort)
    requires |rules| == 3 && DepEdges(rules, {(0, 0), (0, 1), (1, 0), (1, 1)}, {})
    requires Looks(s, [2], [], {}, [false, false, false], [2, 2, 0], [false, false, false])
    ensures Fill(rules, s).1 == [2] && Looks(Turned(Fill(rules, s).0), [], [], {2}, [false, false, false], [2, 2, 0], [false, false, false])
  {
    hide Dep, NegDep, PopOne, FollowOne, Turned;
    LooksPopped(s, [2], [], {}, [false, false, false], [2, 2, 0], [false, false, false]);
    var s1 := PopOne(s);
    assert FollowFrom(rules, s1, 2, 2) == s1;
    assert FollowFrom(rules, s1, 2, 0) == s1;
    LooksTurned(s1, [], {2}, [false, false, false], [2, 2, 0], [false, false, false]);
  }

  lemma {:induction false} SplitSearch1(rules: seq<Rule>, s: Sort)
    requires |rules| == 3 && DepEdges(rules, {(0, 0), (0, 1), (1, 0), (1, 1)}, {})
    requires Looks(s, [], [], {2}, [false, false, false], [2, 2, 0], [false, false, false])
    ensures SearchFrom(rules, s, 0) == Found([0])
  {
    hide Dep, NegDep;
    assert {} + {0} == {0} && [] + [0] == [0];
    assert DfsFrom(rules, s, 0, 0, {0}, [0]) == Found([0]);
  }

  lemma {:induction false} SplitFill2(rules: seq<Rule>, s: Sort)
    requires |rules| == 3 && DepEdges(rules, {(0, 0), (0, 1), (1, 0), (1, 1)}, {})
    requires Looks(s, [0], [], {2}, [true, false, false], [2, 2, 0], [false, false, false])
    ensures Fill(rules, s).1 == [0] && Looks(Turned(Fill(rules, s).0), [], [], {0, 2}, [true, false, false], [2, 1, 0], [false, false, false])
  {
    hide Dep, NegDep, PopOne, FollowOne, Turned;
    LooksPopped(s, [0], [], {2}, [true, false, false], [2, 2, 0], [false, false, false]);
    var s1 := PopOne(s);
    LooksFollowed(s1, [], [], {0, 2}, [true, false, false], [2, 2, 0], [false, false, false], 0, 0, false);
    var s2 := FollowOne(s1, 0, 0, false);
    LooksFollowed(s2, [], [], {0, 2}, [true, false, false], [2, 2, 0], [false, false, false], 0, 1, false);
    var s3 := FollowOne(s2, 0, 1, false);
    assert FollowFrom(rules, s3, 0, 3) == s3;
    assert FollowFrom(rules, s2, 0, 1) == s3;
    LooksTurned(s3, [], {0, 2}, [true, false, false], [2, 1, 0], [false, false, false]);
  }

  lemma {:induction false} SplitSearch2(rules: seq<Rule>, s: Sort)
    requires |rules| == 3 && DepEdges(rules, {(0, 0), (0, 1), (1, 0), (1, 1)}, {})
    requires Looks(s, [], [], {0, 2}, [true, false, false], [2, 1, 0], [false, false, false])
    ensures SearchFrom(rules, s, 0) == Found([1])
  {
    hide Dep, NegDep;
    assert {} + {1} == {1} && [] + [1] == [1];
    assert DfsFrom(rules, s, 1, 1, {1}, [1]) == Found([1]);
    assert Dfs(rules, s, 1, {}, []) == Found([1]);
  }

  lemma {:induction false} SplitFill3(rules: seq<Rule>, s: Sort)
    requires |rules| == 3 && DepEdges(rules, {(0, 0), (0, 1), (1, 0), (1, 1)}, {})
    requires Looks(s, [1], [], {0, 2}, [true, true, false], [2, 1, 0], [false, false, false])
    ensures Fill(rules, s).1 == [1] && Looks(Turned(Fill(rules, s).0), [], [], {0, 1, 2}, [true, true, false], [2, 1, 0], [false, false, false])
  {
    hide Dep, NegDep, PopOne, FollowOne, Turned;
    LooksPopped(s, [1], [], {0, 2}, [true, true, false], [2, 1, 0], [false, false, false]);
    var s1 := PopOne(s);
    LooksFollowed(s1, [], [], {0, 1, 2}, [true, true, false], [2, 1, 0], [false, false, false], 1, 0, false);
    var s2 := FollowOne(s1, 1, 0, false);
    LooksFollowed(s2, [], [], {0, 1, 2}, [true, true, false], [2, 1, 0], [false, false, false], 1, 1, false);
    var s3 := FollowOne(s2, 1, 1, false);
    assert FollowFrom(rules, s3, 1, 2) == s3;
    assert FollowFrom(rules, s1, 1, 0) == s3;
    LooksTurned(s3, [], {0, 1, 2}, [true, true, false], [2, 1, 0], [false, false, false]);
  }

  lemma {:induction false} SplitRun(rules: seq<Rule>, s: Sort)
    requires |rules| == 3 && DepEdges(rules, {(0, 0), (0, 1), (1, 0), (1, 1)}, {}) && Starts(rules, s)
    ensures Order(rules, s).Strata? && Order(rules, s).parts == [[2], [0], [1]]
  {
    hide Dep, NegDep, Fill, Turned, BreakAll, SearchFrom, Starts, Looks, OrderFrom;
    SplitStart(rules, s);
    LooksSize(s, [2], [], {}, [false, false, false], [2, 2, 0], [false, false, false]);
    SplitFill1(rules, s);
    var s1 := Turned(Fill(rules, s).0);
    LooksSize(s1, [], [], {2}, [false, false, false], [2, 2, 0], [false, false, false]);
    SplitSearch1(rules, s1);
    assert [false, false, false][0 := true] == [true, false, false] && [] + [0] == [0];
    LooksBroken(s1, [], [], {2}, [false, false, false], [2, 2, 0], [false, false, false], 0);
    var s2 := BreakAll(s1, [0]);
    SplitFill2(rules, s2);
    var s3 := Turned(Fill(rules, s2).0);
    LooksSize(s3, [], [], {0, 2}, [true, false, false], [2, 1, 0], [false, false, false]);
    SplitSearch2(rules, s3);
    assert [true, false, false][1 := true] == [true, true, false] && [] + [1] == [1];
    LooksBroken(s3, [], [], {0, 2}, [true, false, false], [2, 1, 0], [false, false, false], 1);
    var s4 := BreakAll(s3, [1]);
    SplitFill3(rules, s4);
    var s5 := Turned(Fill(rules, s4).0);
    LooksSize(s5, [], [], {0, 1, 2}, [true, true, false], [2, 1, 0], [false, false, false]);
    NotReady(rules, s5);
    OrderStep(rules, s4);
    OrderStep(rules, s2);
    OrderStep(rules, s);
  }

  // ---- A way into a cycle, released with it ----

  lemma {:induction false} TailStart(rules: seq<Rule>, s: Sort)
    requires |rules| == 4 && DepEdges(rules, {(0, 1), (1, 1), (2, 3), (3, 3)}, {(2, 0), (3, 0)}) && Starts(rules, s)
    ensures Looks(s, [2], [], {}, [false, false, false, false], [2, 2, 0, 2], [false, false, false, false])
  {
    hide DepEdges, Starts, Dep, NegDep, StartCounts, Looks, Pending;
    StartOf(rules, s, {(0, 1), (1, 1), (2, 3), (3, 3)}, {(2, 0), (3, 0)}, 0, {2, 3});
    StartOf(rules, s, {(0, 1), (1, 1), (2, 3), (3, 3)}, {(2, 0), (3, 0)}, 1, {0, 1});
    StartOf(rules, s, {(0, 1), (1, 1), (2, 3), (3, 3)}, {(2, 0), (3, 0)}, 2, {});
    StartOf(rules, s, {(0, 1), (1, 1), (2, 3), (3, 3)}, {(2, 0), (3, 0)}, 3, {2, 3});
    StartLooks(rules, s, [2, 2, 0, 2]);
    assert seq(4, k => false) == [false, false, false, false];
    var w := [2, 2, 0, 2];
    assert ReadyOf(w, 4) == [2];
  }

  lemma {:induction false} TailFill1(rules: seq<Rule>, s: Sort)
    requires |rules| == 4 && DepEdges(rules, {(0, 1), (1, 1), (2, 3), (3, 3)}, {(2, 0), (3, 0)})
    requires Looks(s, [2], [], {}, [false, false, false, false], [2, 2, 0, 2], [false, false, false, false])
    ensures Fill(rules, s).1 == [2] && Looks(Turned(Fill(rules, s).0), [], [], {2}, [false, false, false, false], [1, 2, 0, 1], [false, false, false, false])
  {
    hide Dep, NegDep, PopOne, FollowOne, Turned;
    LooksPopped(s, [2], [], {}, [false, false, false, false], [2, 2, 0, 2], [false, false, false, false]);
    var s1 := PopOne(s);
    LooksFollowed(s1, [], [], {2}, [false, false, false, false], [2, 2, 0, 2], [false, false, false, false], 2, 0, true);
    var s2 := FollowOne(s1, 2, 0, true);
    LooksFollowed(s2, [], [], {2}, [false, false, false, false], [1, 2, 0, 2], [true, false, false, false], 2, 3, false);
    var s3 := FollowOne(s2, 2, 3, false);
    assert FollowFrom(rules, s3, 2, 4) == s3;
    assert FollowFrom(rules, s2, 2, 3) == s3;
    assert FollowFrom(rules, s2, 2, 2) == s3;
    assert FollowFrom(rules, s2, 2, 1) == s3;
    assert FollowFrom(rules, s1, 2, 0) == s3;
    assert TakeOne(rules, s) == s3;
    assert Fill(rules, s3) == (s3, []);
    assert [2] + [] == [2];
    LooksTurned(s3, [], {2}, [false, false, false, false], [1, 2, 0, 1], [true, false, false, false]);
  }

  lemma {:induction false} TailSearch1(rules: seq<Rule>, s: Sort)
    requires |rules| == 4 && DepEdges(rules, {(0, 1), (1, 1), (2, 3), (3, 3)}, {(2, 0), (3, 0)})
    requires Looks(s, [], [], {2}, [false, false, false, false], [1, 2, 0, 1], [false, false, false, false])
    ensures SearchFrom(rules, s, 0) == Found([0, 1])
  {
    hide Dep, NegDep;
    assert {} + {0} == {0} && [] + [0] == [0];
    assert DfsFrom(rules, s, 1, 1, {0, 1}, [0, 1]) == Found([0, 1]);
    assert {0} + {1} == {0, 1} && [0] + [1] == [0, 1];
    assert Dfs(rules, s, 1, {0}, [0]) == Found([0, 1]);
    assert DfsFrom(rules, s, 0, 0, {0}, [0]) == Found([0, 1]);
  }

  lemma {:induction false} TailFill2(rules: seq<Rule>, s: Sort)
    requires |rules| == 4 && DepEdges(rules, {(0, 1), (1, 1), (2, 3), (3, 3)}, {(2, 0), (3, 0)})
    requires Looks(s, [0, 1], [], {2}, [true, true, false, false], [1, 2, 0, 1], [false, false, false, false])
    ensures Fill(rules, s).1 == [0, 1] && Looks(Turned(Fill(rules, s).0), [], [], {0, 1, 2}, [true, true, false, false], [1, 2, 0, 1], [false, false, false, false])
  {
    hide Dep, NegDep, PopOne, FollowOne, Turned;
    LooksPopped(s, [0, 1], [], {2}, [true, true, false, false], [1, 2, 0, 1], [false, false, false, false]);
    var s1 := PopOne(s);
    LooksFollowed(s1, [1], [], {0, 2}, [true, true, false, false], [1, 2, 0, 1], [false, false, false, false], 0, 1, false);
    var s2 := FollowOne(s1, 0, 1, false);
    assert FollowFrom(rules, s2, 0, 4) == s2;
    assert FollowFrom(rules, s2, 0, 3) == s2;
    assert FollowFrom(rules, s2, 0, 2) == s2;
    assert FollowFrom(rules, s1, 0, 0) == s2;
    assert TakeOne(rules, s) == s2;
    LooksPopped(s2, [1], [], {0, 2}, [true, true, false, false], [1, 2, 0, 1], [false, false, false, false]);
    var s3 := PopOne(s2);
    LooksFollowed(s3, [], [], {0, 1, 2}, [true, true, false, false], [1, 2, 0, 1], [false, false, false, false], 1, 1, false);
    var s4 := FollowOne(s3, 1, 1, false);
    assert FollowFrom(rules, s4, 1, 3) == s4;
    assert FollowFrom(rules, s4, 1, 2) == s4;
    assert FollowFrom(rules, s3, 1, 1) == s4;
    assert FollowFrom(rules, s3, 1, 0) == s4;
    assert [1] + [] == [1];
    assert Fill(rules, s2) == (s4, [1]);
    LooksTurned(s4, [], {0, 1, 2}, [true, true, false, false], [1, 2, 0, 1], [false, false, false, false]);
  }

  lemma {:induction false} TailSearch2(rules: seq<Rule>, s: Sort)
    requires |rules| == 4 && DepEdges(rules, {(0, 1), (1, 1), (2, 3), (3, 3)}, {(2, 0), (3, 0)})
    requires Looks(s, [], [], {0, 1, 2}, [true, true, false, false], [1, 2, 0, 1], [false, false, false, false])
    ensures SearchFrom(rules, s, 0) == Found([3])
  {
    hide Dep, NegDep;
    assert {} + {3} == {3} && [] + [3] == [3];
    assert DfsFrom(rules, s, 3, 3, {3}, [3]) == Found([3]);
    assert DfsFrom(rules, s, 3, 1, {3}, [3]) == Found([3]);
    assert Dfs(rules, s, 3, {}, []) == Found([3]);
    assert SearchFrom(rules, s, 2) == Found([3]);
  }

  lemma {:induction false} TailFill3(rules: seq<Rule>, s: Sort)
    requires |rules| == 4 && DepEdges(rules, {(0, 1), (1, 1), (2, 3), (3, 3)}, {(2, 0), (3, 0)})
    requires Looks(s, [3], [], {0, 1, 2}, [true, true, false, true], [1, 2, 0, 1], [false, false, false, false])
    ensures Fill(rules, s).1 == [3] && Looks(Turned(Fill(rules, s).0), [], [], {0, 1, 2, 3}, [true, true, false, true], [1, 2, 0, 1], [false, false, false, false])
  {
    hide Dep, NegDep, PopOne, FollowOne, Turned;
    LooksPopped(s, [3], [], {0, 1, 2}, [true, true, false, true], [1, 2, 0, 1], [false, false, false, false]);
    var s1 := PopOne(s);
    LooksFollowed(s1, [], [], {0, 1, 2, 3}, [true, true, false, true], [1, 2, 0, 1], [false, false, false, false], 3, 0, true);
    var s2 := FollowOne(s1, 3, 0, true);
    LooksFollowed(s2, [], [], {0, 1, 2, 3}, [true, true, false, true], [1, 2, 0, 1], [true, false, false, false], 3, 3, false);
    var s3 := FollowOne(s2, 3, 3, false);
    assert FollowFrom(rules, s2, 3, 3) == s3;
    assert FollowFrom(rules, s2, 3, 1) == s3;
    LooksTurned(s3, [], {0, 1, 2, 3}, [true, true, false, true], [1, 2, 0, 1], [true, false, false, false]);
  }

  lemma {:induction false} TailRun(rules: seq<Rule>, s: Sort)
    requires |rules| == 4 && DepEdges(rules, {(0, 1), (1, 1), (2, 3), (3, 3)}, {(2, 0), (3, 0)}) && Starts(rules, s)
    ensures Order(rules, s).Strata? && Order(rules, s).parts == [[2], [0, 1], [3]]
  {
    hide Dep, NegDep, Fill, Turned, BreakAll, SearchFrom, Starts, Looks, OrderFrom;
    TailStart(rules, s);
    LooksSize(s, [2], [], {}, [false, false, false, false], [2, 2, 0, 2], [false, false, false, false]);
    TailFill1(rules, s);
    var s1 := Turned(Fill(rules, s).0);
    LooksSize(s1, [], [], {2}, [false, false, false, false], [1, 2, 0, 1], [false, false, false, false]);
    TailSearch1(rules, s1);
    assert [false, false, false, false][0 := true][1 := true] == [true, true, false, false] && [] + [0, 1] == [0, 1];
    LooksBrokenTwo(s1, [], [], {2}, [false, false, false, false], [1, 2, 0, 1], [false, false, false, false], 0, 1);
    var s2 := BreakAll(s1, [0, 1]);
    TailFill2(rules, s2);
    var s3 := Turned(Fill(rules, s2).0);
    LooksSize(s3, [], [], {0, 1, 2}, [true, true, false, false], [1, 2, 0, 1], [false, false, false, false]);
    TailSearch2(rules, s3);
    assert [true, true, false, false][3 := true] == [true, true, false, true] && [] + [3] == [3];
    LooksBroken(s3, [], [], {0, 1, 2}, [true, true, false, false], [1, 2, 0, 1], [false, false, false, false], 3);
    var s4 := BreakAll(s3, [3]);
    TailFill3(rules, s4);
    var s5 := Turned(Fill(rules, s4).0);
    LooksSize(s5, [], [], {0, 1, 2, 3}, [true, true, false, true], [1, 2, 0, 1], [false, false, false, false]);
    NotReady(rules, s5);
    OrderStep(rules, s4);
    OrderStep(rules, s2);
    OrderStep(rules, s);
  }

  // ---- The four inputs ----

  /** `b` if `a` and `b`; `a` if `s` and not `b`: no layers, yet the sort accepts it. */
  lemma {:induction false} UnstratifiableAccepted() returns (us: seq<Unary>)
    ensures !Layerable(Rules(us))
    ensures forall s | Starts(Rules(us), s) :: Order(Rules(us), s).Strata? && Order(Rules(us), s).parts == [[0], [1]]
  {
    var a, b, n: GraphElementId := 1, 2, 3;
    us := [Unary("x", b, [a, b], []), Unary("y", a, [n], [b])];
    EdgesOf(us, {(0, 0), (1, 0)}, {(0, 1)});
    var rules := Rules(us);
    hide Rules, Order, Starts;
    assert ReachesIn(rules, 0, 0, 0);
    assert Dep(rules, 1, 0) && ReachesIn(rules, 1, 0, 1);
    assert NegDep(rules, 0, 1) && Reaches(rules, 1, 0);
    LayerableExact(rules);
    forall s | Starts(rules, s) ensures Order(rules, s).Strata? && Order(rules, s).parts == [[0], [1]] {
      UnstratifiableRun(rules, s);
    }
  }

  /** `q` if `n` and not `p`; `p` if `p` and `e`: two layers will do, yet the sort refuses it. */
  lemma {:induction false} StratifiableRefused() returns (us: seq<Unary>)
    ensures Layerable(Rules(us))
    ensures forall s | Starts(Rules(us), s) :: Order(Rules(us), s) == Refused(1)
  {
    var q, p, n, e: GraphElementId := 1, 2, 3, 4;
    us := [Unary("x", q, [n], [p]), Unary("y", p, [p, e], [])];
    EdgesOf(us, {(1, 1)}, {(1, 0)});
    var rules := Rules(us);
    hide Rules, Order, Starts;
    assert Layering(rules, [1, 0]);
    forall s | Starts(rules, s) ensures Order(rules, s) == Refused(1) {
      RefusedRun(rules, s);
    }
  }

  /** Never in order, however the run is written out. */
  ghost predicate NeverInOrder(rules: seq<Rule>) {
    forall s, strata | Starts(rules, s) && Written(rules, Order(rules, s), strata) :: !StrataInOrder(strata, {})
  }

  lemma {:induction false} SplitNever(rules: seq<Rule>)
    requires |rules| == 3 && DepEdges(rules, {(0, 0), (0, 1), (1, 0), (1, 1)}, {})
    ensures Layerable(rules) && NeverInOrder(rules)
    ensures forall s | Starts(rules, s) :: Order(rules, s).Strata? && Order(rules, s).parts == [[2], [0], [1]]
  {
    assert Layering(rules, [0, 0, 0]);
    assert Dep(rules, 1, 0);
    hide Order, Starts, Written, StrataInOrder, DepEdges, Layering, Dep;
    forall s | Starts(rules, s) ensures Order(rules, s).Strata? && Order(rules, s).parts == [[2], [0], [1]] {
      SplitRun(rules, s);
    }
    forall s, strata | Starts(rules, s) && Written(rules, Order(rules, s), strata) ensures !StrataInOrder(strata, {}) {
      PlacesOf(rules, Order(rules, s), strata, 2, 1, 1, 0);
    }
  }

  /**
   * `p` if `p` and `e`; `p` if `p` and `f`; `q` if `n` and not `r`: the second rule comes in a later stratum
   * than the first one, which it feeds.
   */
  lemma {:induction false} RecursionSplit() returns (us: seq<Unary>)
    ensures Layerable(Rules(us)) && NeverInOrder(Rules(us))
    ensures forall s | Starts(Rules(us), s) :: Order(Rules(us), s).Strata? && Order(Rules(us), s).parts == [[2], [0], [1]]
  {
    var p, e, f, q, n, r: GraphElementId := 1, 2, 3, 4, 5, 6;
    us := [Unary("x", p, [p, e], []), Unary("y", p, [p, f], []), Unary("z", q, [n], [r])];
    hide Order, Starts, NeverInOrder, DepEdges, Layerable;
    EdgesOf(us, {(0, 0), (0, 1), (1, 0), (1, 1)}, {});
    SplitNever(Rules(us));
  }

  lemma {:induction false} TailLayers(rules: seq<Rule>)
    requires |rules| == 4 && DepEdges(rules, {(0, 1), (1, 1), (2, 3), (3, 3)}, {(2, 0), (3, 0)})
    ensures Layerable(rules) && Dep(rules, 3, 0) && NegDep(rules, 3, 0)
  {
    assert Layering(rules, [1, 1, 0, 0]);
  }

  lemma {:induction false} TailNever(rules: seq<Rule>)
    requires |rules| == 4 && DepEdges(rules, {(0, 1), (1, 1), (2, 3), (3, 3)}, {(2, 0), (3, 0)})
    ensures Layerable(rules) && NeverInOrder(rules)
    ensures forall s | Starts(rules, s) :: Order(rules, s).Strata? && Order(rules, s).parts == [[2], [0, 1], [3]]
  {
    TailLayers(rules);
    hide Order, Starts, Written, StrataInOrder, DepEdges, Layering, Dep, NegDep;
    forall s | Starts(rules, s) ensures Order(rules, s).Strata? && Order(rules, s).parts == [[2], [0, 1], [3]] {
      TailRun(rules, s);
    }
    forall s, strata | Starts(rules, s) && Written(rules, Order(rules, s), strata) ensures !StrataInOrder(strata, {}) {
      PlacesOf(rules, Order(rules, s), strata, 2, 1, 3, 0);
    }
  }

  /**
   * `a` if `n` and not `c`; `b` if `a` and `b`; `c` if `m`; `c` if `c` and `t`: the first rule only leads to
   * a cycle, is released with it, and comes before the last rule, which can block it.
   */
  lemma {:induction false} TailReleased() returns (us: seq<Unary>)
    ensures Layerable(Rules(us)) && NeverInOrder(Rules(us))
    ensures forall s | Starts(Rules(us), s) :: Order(Rules(us), s).Strata? && Order(Rules(us), s).parts == [[2], [0, 1], [3]]
  {
    var a, b, c, n, m, t: GraphElementId := 1, 2, 3, 4, 5, 6;
    us := [Unary("x", a, [n], [c]), Unary("y", b, [a, b], []), Unary("z", c, [m], []), Unary("v", c, [c, t], [])];
    hide Order, Starts, NeverInOrder, DepEdges, Layerable;
    EdgesOf(us, {(0, 1), (1, 1), (2, 3), (3, 3)}, {(2, 0), (3, 0)});
    TailNever(Rules(us));
  }
}
