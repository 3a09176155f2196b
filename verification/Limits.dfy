/** Where the algorithms fall short: small inputs outside the conditions of the main theorems. */
module Limits {
  import opened Syntax
  import opened Matching
  import opened Clauses
  import opened Grounding
  import opened DerivedFrom
  import opened RuleIndex
  import opened Maintenance
  import opened ReverseIndex
  import opened Seminaive
  import opened Reasoner
  import opened Negation
  import opened States
  import opened Insertion
  import opened Undo
  import opened Deletion
  import opened Rounds
  import opened Unification
  import opened RuleSort
  import opened Listings
  import opened Misorderings
  import opened Evaluation

  function Fact(n: nat): Quad
    requires n < 10
  {
    Quad(n, n, n, n)
  }

  function Pattern(q: Quad): QuadPattern {
    QuadPattern(Resource(q.graph), Resource(q.subject), Resource(q.pred), Resource(q.obj))
  }

  /** The ground rule `h` if `n` and not `b`. */
  function NotRule(h: Quad, n: Quad, b: Quad): Rule {
    Rule(NormalHead(Pattern(h)), [PositivePattern(Pattern(n)), NotPattern(Pattern(b))])
  }

  lemma GroundMatch(q: Quad, b: Quad)
    ensures GetSubstitutions(map[], q, Pattern(b)).Some? <==> q == b
  {
  }

  /** A ground rule is its own only instance. */
  lemma NotRuleInstance(h: Quad, n: Quad, b: Quad)
    ensures Positives(NotRule(h, n, b).body) == [Pattern(n)] && Negatives(NotRule(h, n, b).body) == [Pattern(b)]
    ensures RangeRestricted(NotRule(h, n, b))
    ensures Admits(NotRule(h, n, b), map[])
    ensures forall c :: IsInstance(NotRule(h, n, b), c) <==> c == Clause(c.prog, c.rid, Some(h), [n], {b})
  {
    var rule, s := NotRule(h, n, b), map[];
    var rest := rule.body[1..];
    assert rest == [NotPattern(Pattern(b))] && rest[1..] == [];
    assert Positives(rest) == Positives(rest[1..]) == [];
    assert Negatives(rest) == [Pattern(b)] + Negatives(rest[1..]) == [Pattern(b)];
    assert Positives(rule.body) == [Pattern(n)] && Negatives(rule.body) == [Pattern(b)];
    assert BoundVars(rule) == {};
    assert forall x: Substitution | x.Keys == {} :: x == map[];
    assert Witnesses(s, Positives(rule.body)) == [n];
    forall q ensures q in Blockers(rule, s) <==> q == b {
      GroundMatch(q, b);
      EveryQuad(q);
      assert BlockedBy(rule, s, q) <==> GetSubstitutions(s, q, Pattern(b)).Some?;
    }
    assert Blockers(rule, s) == {b};
    assert HeadOf(rule, s) == Some(h);
    forall c ensures IsInstance(rule, c) <==> c == Clause(c.prog, c.rid, Some(h), [n], {b}) {
      assert ClauseFor(c.prog, c.rid, rule, s) == Clause(c.prog, c.rid, Some(h), [n], {b});
    }
  }

  /** The program of one ground rule, without and with its instance on record. */
  lemma NotRuleProgram(stratum: nat, h: Quad, n: Quad, b: Quad)
    ensures var p, c := Prog(stratum, [NotRule(h, n, b)], {}), Clause(stratum, 0, Some(h), [n], {b});
            && Enabled(p) == iset{c} && AllRestricted(p.rules)
            && Recorded(p, map[]) == iset{} && IndexOk(p.rules, map[]) && IndexValid(map[])
            && var index := map[h := [Derivation(0, [n])]];
            && Recorded(p, index) == iset{c} && IndexOk(p.rules, index) && IndexValid(index)
  {
    var rule, p, c := NotRule(h, n, b), Prog(stratum, [NotRule(h, n, b)], {}), Clause(stratum, 0, Some(h), [n], {b});
    var index := map[h := [Derivation(0, [n])]];
    NotRuleInstance(h, n, b);
    assert Holds(index, h, Derivation(0, [n]));
    assert Witnesses(map[], Positives(rule.body)) == [n];
    assert EntryOk(p.rules, h, Derivation(0, [n]));
    assert IsInstance(rule, c);
  }

  // ---- The safety check ----

  /** A variable of the head that occurs in the body, but in no positive atom. */
  ghost predicate UnboundInHead(rule: Rule, v: string) {
    rule.head.NormalHead? && v in PatternVars(rule.head.pattern) && v in BodyVars(rule.body) && v !in BoundVars(rule)
  }

  /**
   * A rule that passes the safety check has a match of its body that yields no head, where the engine
   * panics, if and only if it can be matched at all and has such a variable.
   */
  lemma SafetyGap(rule: Rule)
    requires IsSafeRule(rule) && rule.head.NormalHead?
    ensures (exists s :: Admits(rule, s) && HeadOf(rule, s).None?) <==>
            (exists s :: Admits(rule, s)) && exists v :: UnboundInHead(rule, v)
  {
    if s, v :| Admits(rule, s) && UnboundInHead(rule, v) {
      assert HeadOf(rule, s).None?;
    }
    if s :| Admits(rule, s) && HeadOf(rule, s).None? {
      var v :| v in PatternVars(rule.head.pattern) && v !in s.Keys;
      assert UnboundInHead(rule, v);
    }
  }

  /** Such rules exist: a head variable that occurs under a NOT only, and a match that yields no head. */
  lemma UnsafeRulePasses() returns (rule: Rule, s: Substitution)
    ensures IsSafeRule(rule) && rule.head.NormalHead? && UnboundInHead(rule, "x")
    ensures Admits(rule, s) && HeadOf(rule, s).None?
  {
    var c := Resource(1);
    var head := QuadPattern(c, Variable("x"), c, c);
    rule := Rule(NormalHead(head), [PositivePattern(QuadPattern(c, c, c, c)), NotPattern(head)]);
    s := map[];
    assert rule.body[1..] == [NotPattern(head)] && rule.body[1..][1..] == [];
    assert Positives(rule.body[1..]) == [];
    assert Positives(rule.body) == [QuadPattern(c, c, c, c)];
    assert PatternVars(head) == {"x"} && AtomVars(NotPattern(head)) == {"x"};
    assert NotPattern(head) in rule.body;
    assert BoundVars(rule) == {};
  }

  // ---- What the stratifier is sure to do well ----

  /** Components 0, 1 and 2, the second one recursive. */
  function ThreePlan(): Plan {
    Plan([0, 1, 2], [0, 0, 0], {1, 2})
  }

  lemma {:induction false} ThreeFirst()
    ensures IsFirst(ThreePlan(), 1) && IsFirst(ThreePlan(), 2)
  {
  }

  lemma {:induction false} ThreeEdge(rules: seq<Rule>, i: nat, j: nat)
    requires |rules| == 3 && DepEdges(rules, {(0, 1), (1, 1)}, {(0, 2), (1, 2)}) && Dep(rules, i, j)
    ensures i < 3 && j < 3 && EdgeUp(rules, ThreePlan(), i, j) && (i, j) in {(0, 1), (1, 1), (0, 2), (1, 2)}
  {
    ThreeFirst();
    assert NegDep(rules, i, j) <==> (i, j) in {(0, 2), (1, 2)};
    hide Dep, NegDep, IsFirst;
  }

  lemma {:induction false} ThreeListed(rules: seq<Rule>)
    requires |rules| == 3 && DepEdges(rules, {(0, 1), (1, 1)}, {(0, 2), (1, 2)})
    ensures BottomUp(rules)
  {
    var plan := ThreePlan();
    ThreeFirst();
    forall i: nat, j: nat | Dep(rules, i, j) ensures i < 3 && j < 3 && EdgeUp(rules, plan, i, j) && (i, j) in {(0, 1), (1, 1), (0, 2), (1, 2)} {
      ThreeEdge(rules, i, j);
    }
    assert Dep(rules, 1, 1);
    hide Dep, NegDep, IsFirst, DepEdges, EdgeUp;
    assert Dep(rules, 1, 1) && StaysIn(rules, plan, 1);
    assert !Recursive(rules, plan, 2);
    assert BottomUpBy(rules, plan);
  }

  lemma {:induction false} UnaryRule(u: Unary)
    requires u.pos != [] && forall c | c in u.neg :: c != u.head
    ensures u.Rule().head.NormalHead? && RangeRestricted(u.Rule()) && PatternVars(u.Rule().head.pattern) == {u.name} && SelfApart(u.Rule())
    ensures forall v: Unary | v.name != u.name :: RenamedApart(v.Rule().head.pattern, u.Rule())
  {
    UnaryAtoms(u);
    assert PositivePattern(u.Atom(u.pos[0])) in u.Rule().body;
    PositivesContain(u.Rule().body, u.Atom(u.pos[0]));
    VarsInList(Positives(u.Rule().body), u.Atom(u.pos[0]));
    UnarySelfApart(u);
  }

  /** Heads and NOT atoms of one rule name different classes. */
  lemma {:induction false} UnarySelfApart(u: Unary)
    requires forall c | c in u.neg :: c != u.head
    ensures SelfApart(u.Rule())
  {
    UnaryAtoms(u);
    var head := u.Atom(u.head);
    var h := FreshCopy(head, {u.name});
    forall p | NotPattern(p) in u.Rule().body ensures PatternVars(h) !! PatternVars(p) && !Unifiable(h, p) {
    }
    assert Avoids(h, u.Rule());
  }

  /** Rules over classes with names of their own are renamed apart. */
  lemma {:induction false} UnaryApart(us: seq<Unary>)
    requires forall k | 0 <= k < |us| :: us[k].pos != [] && us[k].head !in us[k].neg
    requires forall k, l | 0 <= k < |us| && 0 <= l < |us| && k != l :: us[k].name != us[l].name
    ensures AllRenamedApart(Rules(us)) && Deduped(Rules(us)) == Rules(us)
    ensures forall r | r in Rules(us) :: RangeRestricted(r) && r.head.NormalHead? && PatternVars(r.head.pattern) != {}
  {
    var rules := Rules(us);
    hide RenamedApart, SelfApart, RangeRestricted, PatternVars, Deduped, Rules, Unary.Rule, Unary.Atom, Unary.Body;
    forall k | 0 <= k < |us| ensures RangeRestricted(rules[k]) && rules[k].head.NormalHead? && SelfApart(rules[k]) && PatternVars(rules[k].head.pattern) != {} {
      UnaryRule(us[k]);
    }
    forall a, b | a in rules && b in rules && a != b && a.head.NormalHead? ensures RenamedApart(a.head.pattern, b) {
      var k, l :| 0 <= k < |us| && 0 <= l < |us| && rules[k] == a && rules[l] == b;
      UnaryRule(us[l]);
    }
    DistinctRules(us);
    DedupedAppend([], rules);
    DedupedNone();
    assert [] + rules == rules;
  }

  lemma {:induction false} DistinctRules(us: seq<Unary>)
    requires forall k | 0 <= k < |us| :: us[k].pos != [] && us[k].head !in us[k].neg
    requires forall k, l | 0 <= k < |us| && 0 <= l < |us| && k != l :: us[k].name != us[l].name
    ensures NoDup(Rules(us))
  {
    forall k, l | 0 <= k < l < |us| ensures Rules(us)[k] != Rules(us)[l] {
      UnaryRule(us[k]);
      UnaryRule(us[l]);
    }
  }

  lemma {:induction false} DedupedNone()
    ensures Deduped([]) == []
  {
  }

  /** `p` if `e`; `p` if `p` and `f`; `q` if `n` and not `p`. */
  function ThreeRules(): seq<Unary> {
    var p, e, f, q, n: GraphElementId := 1, 2, 3, 4, 5;
    [Unary("x", p, [e], []), Unary("y", p, [p, f], []), Unary("z", q, [n], [p])]
  }

  lemma {:induction false} ThreeEdges()
    ensures DepEdges(Rules(ThreeRules()), {(0, 1), (1, 1)}, {(0, 2), (1, 2)})
  {
    hide DepEdges, Rules;
    EdgesOf(ThreeRules(), {(0, 1), (1, 1)}, {(0, 2), (1, 2)});
  }

  lemma {:induction false} ThreeParts()
    ensures var us := ThreeRules();
            && |us| == 3 && (forall k | 0 <= k < |us| :: us[k].pos != [] && us[k].head !in us[k].neg) && us[2].neg != []
            && forall k, l | 0 <= k < |us| && 0 <= l < |us| && k != l :: us[k].name != us[l].name
  {
  }

  lemma ListedStratifiable(rules: seq<Rule>)
    requires BottomUp(rules) && Deduped(rules) == rules && AllRenamedApart(rules)
    ensures Stratifiable(rules)
  {
  }

  lemma {:induction false} WithNot(us: seq<Unary>, k: nat)
    requires k < |us| && us[k].neg != []
    ensures !PurePositive(Rules(us))
  {
    UnaryAtoms(us[k]);
    assert NotPattern(us[k].Atom(us[k].neg[0])) in us[k].Rule().body && Rules(us)[k] in Rules(us);
  }

  /**
   * Recursion with stratified negation over variables meets the hypothesis under which the stratifier is
   * known to find valid strata.
   */
  lemma {:induction false} RecursionStratifiable()
    ensures Stratifiable(Rules(ThreeRules())) && !PurePositive(Rules(ThreeRules()))
    ensures forall r | r in Rules(ThreeRules()) :: RangeRestricted(r) && r.head.NormalHead? && PatternVars(r.head.pattern) != {}
  {
    hide *;
    var us := ThreeRules();
    ThreeParts();
    ThreeEdges();
    ThreeListed(Rules(us));
    UnaryApart(us);
    WithNot(us, 2);
    ListedStratifiable(Rules(us));
  }

  // ---- Two layers of negation ----

  /**
   * With two layers of negation an update that removes and sweeps can end in a state that is no model:
   * from `n` and `a`, with `b` if `n` and not `a`, and `e` if `n` and not `b`, deleting `a` brings `b` in
   * and leaves `e`.
   */
  lemma TwoLayersFail() returns (p: Program, base: set<Quad>, s: set<Quad>, d: Program, x: set<Quad>, s3: set<Quad>, d3: Program)
    ensures Stratified(p) && Consistent(p, base, s, d) && ExactRecords(p, s, d) && (forall c | c in p :: c.prog < 2)
    ensures x == Cascade(d, {}, x) && CleanRemoval(p, p, base, s, d, x, d) && Swept(p, 2, s - x, d, s3, d3)
    ensures !Stable(p, base - x, s3)
  {
    var n, a, b, e := Fact(0), Fact(1), Fact(2), Fact(3);
    var c0, c1 := Clause(0, 0, Some(b), [n], {a}), Clause(1, 0, Some(e), [n], {b});
    p, base, s, d, x, s3, d3 := iset{c0, c1}, {n, a}, {n, a, e}, iset{c1}, {a}, {n, b, e}, iset{c0, c1};
    TwoLayersBefore(n, a, b, e, c0, c1);
    TwoLayersAfter(n, a, b, e, c0, c1);
    NothingFalls(a, c1);
    assert s - x == {n, e} && base - x == {n};
  }

  lemma TwoLayersBefore(n: Quad, a: Quad, b: Quad, e: Quad, c0: Clause, c1: Clause)
    requires n != a && n != b && n != e && a != b && a != e && b != e
    requires c0 == Clause(0, 0, Some(b), [n], {a}) && c1 == Clause(1, 0, Some(e), [n], {b})
    ensures Consistent(iset{c0, c1}, {n, a}, {n, a, e}, iset{c1}) && ExactRecords(iset{c0, c1}, {n, a, e}, iset{c1})
  {
    var p, s := iset{c0, c1}, {n, a, e};
    LeastIsModel(p, {n, a}, s);
    LeastIsLeast(p, {n, a}, s, s);
    assert Within(c1.pos, Least(p, {n, a}, s)) && c1 in p;
  }

  lemma NothingFalls(a: Quad, c: Clause)
    requires a !in c.pos
    ensures {a} == Cascade(iset{c}, {}, {a})
  {
    LeastIsModel(Edges(iset{c}, {}), {a}, {});
    forall k | k in Edges(iset{c}, {}) ensures !Within(k.pos, {a}) {
      var w :| w in c.pos && k.pos == [w];
      assert w in k.pos;
    }
    LeastIsLeast(Edges(iset{c}, {}), {a}, {}, {a});
  }

  lemma TwoLayersAfter(n: Quad, a: Quad, b: Quad, e: Quad, c0: Clause, c1: Clause)
    requires n != a && n != b && n != e && a != b && a != e && b != e
    requires c0 == Clause(0, 0, Some(b), [n], {a}) && c1 == Clause(1, 0, Some(e), [n], {b})
    ensures Swept(iset{c0, c1}, 2, {n, e}, iset{c1}, {n, b, e}, iset{c0, c1})
    ensures !Stable(iset{c0, c1}, {n}, {n, b, e})
  {
    var p, s3 := iset{c0, c1}, {n, b, e};
    LeastIsModel(Vouched(p, p, 2), {n, e}, s3);
    assert c0 in Vouched(p, p, 2) && Within(c0.pos, Least(Vouched(p, p, 2), {n, e}, s3));
    LeastIsLeast(p, {n}, s3, {n, b});
  }

  /** Four quads; the two rules of `TwoLayersFail` in two strata; the states before, without `a`, and after. */
  datatype TwoLayers = TwoLayers(n: Quad, a: Quad, b: Quad, e: Quad) {
    ghost predicate Distinct() {
      n != a && n != b && n != e && a != b && a != e && b != e
    }

    function Progs(): seq<Prog> {
      [Prog(0, [NotRule(b, n, a)], {}), Prog(1, [NotRule(e, n, b)], {})]
    }

    function Clauses(): (Clause, Clause) {
      (Clause(0, 0, Some(b), [n], {a}), Clause(1, 0, Some(e), [n], {b}))
    }

    function Recording(q: Quad): Index {
      map[q := [Derivation(0, [n])]]
    }

    function Before(): Snapshot {
      Snapshot([n, a, e], {n, a}, [map[], Recording(e)])
    }

    function Without(): Snapshot {
      Snapshot([n, e], {n}, [map[], Recording(e)])
    }

    function After(): Snapshot {
      Snapshot([n, e, b], {n}, [Recording(b), Recording(e)])
    }

    function Log(): seq<seq<Entry>> {
      [[(b, Derivation(0, [n]))], []]
    }
  }

  lemma TwoPrograms(p0: Prog, p1: Prog, index0: Index, index1: Index)
    requires p0.stratum == 0 && p1.stratum == 1
    ensures AllEnabled([p0, p1]) == Enabled(p0) + Enabled(p1)
    ensures AllRecorded([p0, p1], [index0, index1]) == Recorded(p0, index0) + Recorded(p1, index1)
  {
    hide IsInstance, IndexOk;
  }

  lemma TwoLayersPrograms(t: TwoLayers)
    ensures |t.Progs()| == 2 && Layered(t.Progs()) && AllEnabled(t.Progs()) == iset{t.Clauses().0, t.Clauses().1}
    ensures AllRecorded(t.Progs(), [map[], t.Recording(t.e)]) == iset{t.Clauses().1}
    ensures AllRecorded(t.Progs(), [t.Recording(t.b), t.Recording(t.e)]) == iset{t.Clauses().0, t.Clauses().1}
    ensures WellFormedIndexes(t.Progs(), [map[], t.Recording(t.e)])
    ensures WellFormedIndexes(t.Progs(), [t.Recording(t.b), t.Recording(t.e)])
  {
    var p0, p1 := t.Progs()[0], t.Progs()[1];
    NotRuleProgram(0, t.b, t.n, t.a);
    NotRuleProgram(1, t.e, t.n, t.b);
    TwoPrograms(p0, p1, map[], t.Recording(t.e));
    TwoPrograms(p0, p1, t.Recording(t.b), t.Recording(t.e));
    hide AllEnabled, AllRecorded, IndexOk, IndexValid, AllRestricted, Enabled, Recorded, NotRule;
    assert t.Progs() == [p0, p1];
  }

  lemma TwoLayersShape(t: TwoLayers)
    requires t.Distinct()
    ensures t.Before().Stored() == {t.n, t.a, t.e} && t.Without().Stored() == {t.n, t.e} && t.After().Stored() == {t.n, t.b, t.e}
    ensures NoDup(t.Before().list) && NoDup(t.Without().list) && NoDup(t.After().list)
    ensures Unasserted(t.Before(), {t.a}, t.Without()) && Dropped(t.Without(), {}, t.Without())
    ensures !FallsBack(TotalDerived(t.Before().indexes), 0)
    ensures t.Before().ext == {t.n, t.a} && t.Before().ext - {t.a} == t.Without().ext == t.After().ext == {t.n}
    ensures t.Before().indexes == t.Without().indexes == [map[], t.Recording(t.e)] && t.After().indexes == [t.Recording(t.b), t.Recording(t.e)]
    ensures t.Without().list <= t.After().list && t.After().list == t.Without().list + [t.b]
  {
    var y, i := t.Without(), t.Before().indexes;
    assert y.indexes[0] - {} == y.indexes[0] && y.indexes[1] - {} == y.indexes[1];
    assert i[..1] == [map[]] && i[..1][..0] == [];
    assert TotalDerived(i[..1]) == 0;
  }

  lemma SoundFrom(progs: seq<Prog>, z: Snapshot, p: Program, d: Program)
    requires |z.indexes| == |progs| && AllEnabled(progs) == p && AllRecorded(progs, z.indexes) == d
    ensures Sound(progs, z) <==> Stratified(p) && Consistent(p, z.ext, z.Stored(), d)
    ensures ExactState(progs, z) <==> ExactRecords(p, z.Stored(), d)
    ensures Separate(progs, z.ext) <==> HeadsDisjointFrom(p, z.ext)
    ensures WellFormed(progs, z) <==> WellFormedIndexes(progs, z.indexes) && NoDup(z.list) && z.ext <= z.Stored()
  {
    hide AllEnabled, AllRecorded, Consistent, ExactRecords, Stratified;
  }

  lemma NothingPossiblyDeleted(progs: seq<Prog>, z: Snapshot, c: Clause, x: Quad)
    requires |z.indexes| == |progs| && AllRecorded(progs, z.indexes) == iset{c} && x !in c.pos
    ensures Fallout(progs, z, {x}) == {x} && PossiblyDeleted(progs, z, {x}) == {}
  {
    hide AllRecorded;
    NothingFalls(x, c);
  }

  lemma TwoLayersClauses(t: TwoLayers)
    requires t.Distinct()
    ensures Consistent(iset{t.Clauses().0, t.Clauses().1}, {t.n, t.a}, {t.n, t.a, t.e}, iset{t.Clauses().1})
    ensures ExactRecords(iset{t.Clauses().0, t.Clauses().1}, {t.n, t.a, t.e}, iset{t.Clauses().1})
    ensures Stratified(iset{t.Clauses().0, t.Clauses().1}) && HeadsDisjointFrom(iset{t.Clauses().0, t.Clauses().1}, {t.n, t.a})
    ensures Swept(iset{t.Clauses().0, t.Clauses().1}, 2, {t.n, t.e}, iset{t.Clauses().1}, {t.n, t.b, t.e}, iset{t.Clauses().0, t.Clauses().1})
    ensures !Consistent(iset{t.Clauses().0, t.Clauses().1}, {t.n}, {t.n, t.b, t.e}, iset{t.Clauses().0, t.Clauses().1})
    ensures t.a !in t.Clauses().1.pos
  {
    TwoLayersBefore(t.n, t.a, t.b, t.e, t.Clauses().0, t.Clauses().1);
    TwoLayersAfter(t.n, t.a, t.b, t.e, t.Clauses().0, t.Clauses().1);
  }

  lemma TwoLayersSound(t: TwoLayers)
    requires t.Distinct()
    ensures |t.Before().indexes| == |t.Progs()|
    ensures WellFormed(t.Progs(), t.Before()) && Sound(t.Progs(), t.Before()) && ExactState(t.Progs(), t.Before())
    ensures Separate(t.Progs(), t.Before().ext)
    ensures Fallout(t.Progs(), t.Before(), {t.a}) == {t.a} && PossiblyDeleted(t.Progs(), t.Before(), {t.a}) == {}
  {
    hide *;
    TwoLayersPrograms(t);
    TwoLayersShape(t);
    TwoLayersClauses(t);
    SoundFrom(t.Progs(), t.Before(), iset{t.Clauses().0, t.Clauses().1}, iset{t.Clauses().1});
    NothingPossiblyDeleted(t.Progs(), t.Before(), t.Clauses().1, t.a);
  }

  lemma TwoLayersLogged(t: TwoLayers)
    ensures FreshLog(map[], t.Log()[0]) && AddAll(map[], t.Log()[0]) == t.Recording(t.b)
    ensures FreshLog(t.Recording(t.e), t.Log()[1]) && AddAll(t.Recording(t.e), t.Log()[1]) == t.Recording(t.e)
    ensures t.Log() == [t.Log()[0], []] && (forall e: Entry | e in t.Log()[0] :: e.0 == t.b)
    ensures LoggedOrKnown(map[], t.Log()[0], t.b)
  {
    var log := t.Log()[0];
    assert log[..0] == [];
    assert AddAll(map[], log[..0]) == map[];
    assert [] + [Derivation(0, [t.n])] == [Derivation(0, [t.n])];
    assert (t.b, Derivation(0, [t.n])) in log;
  }

  /** One quad appended by the first of two programs. */
  lemma ExtendedByOne(progs: seq<Prog>, y: Snapshot, c: Snapshot, q: Quad, log: seq<Entry>)
    requires |progs| == 2 && WellFormed(progs, y) && WellFormed(progs, c)
    requires c.list == y.list + [q] && c.ext == y.ext && c.indexes[1] == y.indexes[1]
    requires FreshLog(y.indexes[0], log) && c.indexes[0] == AddAll(y.indexes[0], log) && LoggedOrKnown(y.indexes[0], log, q)
    requires FreshLog(y.indexes[1], []) && AddAll(y.indexes[1], []) == y.indexes[1] && forall e: Entry | e in log :: e.0 == q
    ensures Extended(progs, y, c, [log, []])
  {
    hide WellFormed, FreshLog, AddAll, LoggedOrKnown, SomeFactHead;
    assert WellFormed(progs, y) ==> |y.indexes| == |c.indexes| == 2 by { WellFormedIndexed(progs, y); WellFormedIndexed(progs, c); }
    forall x | x in c.list && x !in y.list ensures Accounted(y.indexes, [log, []], c.ext, x) {
      assert LoggedOrKnown(y.indexes[0], [log, []][0], x);
    }
  }

  lemma TwoLayersExtended(t: TwoLayers)
    requires t.Distinct()
    ensures Extended(t.Progs(), t.Without(), t.After(), t.Log())
  {
    hide *;
    TwoLayersPrograms(t);
    TwoLayersShape(t);
    TwoLayersLogged(t);
    SoundFrom(t.Progs(), t.Without(), AllEnabled(t.Progs()), AllRecorded(t.Progs(), t.Without().indexes));
    SoundFrom(t.Progs(), t.After(), AllEnabled(t.Progs()), AllRecorded(t.Progs(), t.After().indexes));
    ExtendedByOne(t.Progs(), t.Without(), t.After(), t.b, t.Log()[0]);
  }

  lemma SweptFrom(progs: seq<Prog>, y: Snapshot, c: Snapshot, tracked: seq<seq<Entry>>, p: Program, d: Program, d': Program)
    requires Extended(progs, y, c, tracked) && |tracked| == |progs|
    requires |y.indexes| == |c.indexes| == |progs|
    requires AllEnabled(progs) == p && AllRecorded(progs, y.indexes) == d && AllRecorded(progs, c.indexes) == d'
    requires Swept(p, |progs|, y.Stored(), d, c.Stored(), d') && !Consistent(p, c.ext, c.Stored(), d')
    ensures SweepResult(progs, Ok, y, c, tracked) && !ConsistentOver(progs, c.ext, c)
  {
  }

  lemma TwoLayersSwept(t: TwoLayers)
    requires t.Distinct()
    ensures SweepResult(t.Progs(), Ok, t.Without(), t.After(), t.Log())
    ensures !ConsistentOver(t.Progs(), {t.n}, t.After())
  {
    hide *;
    TwoLayersShape(t);
    TwoLayersPrograms(t);
    TwoLayersExtended(t);
    TwoLayersLogged(t);
    TwoLayersClauses(t);
    var p, d := iset{t.Clauses().0, t.Clauses().1}, iset{t.Clauses().1};
    SweptFrom(t.Progs(), t.Without(), t.After(), t.Log(), p, d, p);
  }

  lemma TwoLayersDeleted(t: TwoLayers)
    requires t.Distinct()
    ensures DeletedIncrementally(t.Progs(), t.Before(), {t.a}, t.Without(), t.Without(), t.After(), t.Log())
  {
    TwoLayersPrograms(t);
    TwoLayersShape(t);
    TwoLayersSound(t);
    TwoLayersSwept(t);
    hide AllEnabled, AllRecorded, Layered, PossiblyDeleted, SweepResult, WellFormed, ExactState, Separate, Fallout, Sound, Unasserted, Dropped;
    hide TwoLayers.Before, TwoLayers.Without, TwoLayers.After, TwoLayers.Log, TwoLayers.Progs;
  }

  lemma WrongMeansBlocked(progs: seq<Prog>, z: Snapshot, deletes: set<Quad>, y: Snapshot, c: Snapshot, tracked: seq<seq<Entry>>)
    requires DeletedIncrementally(progs, z, deletes, y, y, c, tracked)
    requires Sound(progs, z) && ExactState(progs, z)
    requires !ConsistentOver(progs, z.ext - deletes, c) && z.ext - deletes <= c.Stored()
    ensures !SurvivorsUnblocked(progs, z, deletes)
  {
    hide AllEnabled, AllRecorded, Sound, ExactState, PossiblyDeleted, Refilled, Fallout, Consistent;
    DeletionReachesPromise(progs, z, deletes, y, y, c, tracked);
    DeletionReaches(progs, z, deletes, y, y, c, tracked);
  }

  /**
   * An incremental deletion under two layers of real rules, from a sound state with exact records and no
   * asserted fact derived: it succeeds, and ends in a state that is no model.
   */
  lemma TwoLayersDeletion(t: TwoLayers)
    requires t.Distinct()
    ensures |t.Before().indexes| == |t.Progs()|
    ensures Sound(t.Progs(), t.Before()) && ExactState(t.Progs(), t.Before()) && Separate(t.Progs(), t.Before().ext)
    ensures !FallsBack(TotalDerived(t.Before().indexes), |PossiblyDeleted(t.Progs(), t.Before(), {t.a})|)
    ensures DeletedIncrementally(t.Progs(), t.Before(), {t.a}, t.Without(), t.Without(), t.After(), t.Log())
    ensures !ConsistentOver(t.Progs(), t.Before().ext - {t.a}, t.After()) &&
            !SurvivorsUnblocked(t.Progs(), t.Before(), {t.a})
  {
    hide *;
    TwoLayersPrograms(t);
    TwoLayersSound(t);
    TwoLayersShape(t);
    TwoLayersClauses(t);
    TwoLayersDeleted(t);
    TwoLayersSwept(t);
    WrongMeansBlocked(t.Progs(), t.Before(), {t.a}, t.Without(), t.After(), t.Log());
  }

  // ---- Asserted facts that are derived as well ----

  /**
   * The cascade of a deletion runs through asserted facts: with `q` asserted and also derived from `p`,
   * deleting `p` makes `q` possibly deleted, and only what rules prove comes back.
   */
  lemma AssertedFactFalls() returns (p: Program, base: set<Quad>, s: set<Quad>, d: Program, deleted: Quad, q: Quad)
    ensures Stratified(p) && Consistent(p, base, s, d) && ExactRecords(p, s, d)
    ensures q in base && q != deleted && DerivedFromSome(d, Cascade(d, {}, {deleted}), q)
    ensures q !in Least(p, base - Cascade(d, {}, {deleted}), {}) && q in Least(p, base - {deleted}, {})
  {
    deleted, q := Fact(0), Fact(1);
    var c := Clause(0, 0, Some(q), [deleted], {});
    p, base, s, d := iset{c}, {deleted, q}, {deleted, q}, iset{c};
    assert Within([deleted], s);
    LeastIsModel(p, base, s);
    LeastIsLeast(p, base, s, s);
    LeastIsModel(Edges(d, {}), {deleted}, {});
    assert Derives(d, deleted, q);
    CascadeStep(d, {}, {deleted}, deleted, q);
    LeastIsLeast(p, base - Cascade(d, {}, {deleted}), {}, {});
    LeastIsModel(p, base - {deleted}, {});
  }

  // ---- Lost marks ----

  /**
   * A reset empties the marks.  The rule `h if n and not b` recorded its instance again, yet when `b`
   * arrives the search for what to retract finds nothing.
   */
  lemma LostMarksMiss() returns (p: Prog, index: Index, fact: Quad, q: Quad)
    ensures IndexOk(p.rules, index) && BlockedRecord(p, index, fact, q)
    ensures forall x :: !MarkedBlocked(p, index, {}, fact, x)
  {
    var n, b, h := Fact(0), Fact(1), Fact(2);
    fact, q := b, h;
    p, index := Prog(0, [NotRule(h, n, b)], {}), map[h := [Derivation(0, [n])]];
    NotRuleProgram(0, h, n, b);
    assert Clause(0, 0, Some(h), [n], {b}) in Recorded(p, index);
  }

  /** One rule `h` if `n` and not `b`, over the asserted fact `n`: what a rebuild leaves. */
  function OneRule(h: Quad, n: Quad, b: Quad): seq<Prog> {
    [Prog(0, [NotRule(h, n, b)], {})]
  }

  function AfterRebuild(h: Quad, n: Quad): Snapshot {
    Snapshot([n, h], {n}, [map[h := [Derivation(0, [n])]]])
  }

  lemma OneRuleClauses(h: Quad, n: Quad, b: Quad) returns (c: Clause)
    ensures c == Clause(0, 0, Some(h), [n], {b}) && Layered(OneRule(h, n, b)) && |OneRule(h, n, b)| == |AfterRebuild(h, n).indexes| == 1
    ensures AllEnabled(OneRule(h, n, b)) == iset{c} && AllRecorded(OneRule(h, n, b), AfterRebuild(h, n).indexes) == iset{c}
    ensures WellFormedIndexes(OneRule(h, n, b), AfterRebuild(h, n).indexes)
  {
    c := Clause(0, 0, Some(h), [n], {b});
    NotRuleProgram(0, h, n, b);
    hide IsInstance, IndexOk, IndexValid, AllRestricted, RuleClauses, RecordedIn;
  }

  lemma OneRuleSound(h: Quad, n: Quad, b: Quad, c: Clause)
    requires h != n && h != b && n != b && c == Clause(0, 0, Some(h), [n], {b})
    ensures Stratified(iset{c}) && Consistent(iset{c}, {n}, {n, h}, iset{c}) && ExactRecords(iset{c}, {n, h}, iset{c})
  {
    var p, s := iset{c}, {n, h};
    LeastIsModel(p, {n}, s);
    LeastIsLeast(p, {n}, s, s);
    assert Within(c.pos, Least(p, {n}, s)) && c in p;
  }

  lemma AfterRebuildShape(h: Quad, n: Quad)
    requires h != n
    ensures var z := AfterRebuild(h, n); z.Stored() == {n, h} && z.ext == {n} && NoDup(z.list) && z.ext <= z.Stored()
  {
  }

  /**
   * After a rebuild the marks are gone.  The state is sound, with exact records, and yet the insertion of `b`
   * ends unsound: it is accepted, and the record of `h` stays although `b` blocks it.
   */
  lemma LostMarksInsertion(h: Quad, n: Quad, b: Quad)
    requires h != n && h != b && n != b
    ensures var progs, z := OneRule(h, n, b), AfterRebuild(h, n);
            && Layered(progs) && WellFormed(progs, z) && Sound(progs, z) && ExactState(progs, z) && Rebuilt(progs, Ok, {n}, z)
            && InsertionResult(progs, Ok, z, {b}, [{}], AfterBlocking(h, n, b))
            && forall marks, c | NoneMarked(marks) && InsertionResult(progs, Ok, z, {b}, marks, c) :: !Sound(progs, c)
  {
    hide *;
    var progs, z := OneRule(h, n, b), AfterRebuild(h, n);
    var k := OneRuleClauses(h, n, b);
    OneRuleSound(h, n, b, k);
    AfterRebuildShape(h, n);
    SoundFrom(progs, z, iset{k}, iset{k});
    IsRebuilt(progs, z);
    RecordBlocked(progs, z, k, h, b);
    BlockedOutcome(h, n, b, progs, z, k);
    forall marks, c | NoneMarked(marks) && InsertionResult(progs, Ok, z, {b}, marks, c) ensures !Sound(progs, c) {
      UnmarkedInsertion(progs, z, {b}, marks, c);
    }
  }

  /** The same records with `b` asserted. */
  function AfterBlocking(h: Quad, n: Quad, b: Quad): Snapshot {
    Snapshot([n, h, b], {n, b}, [map[h := [Derivation(0, [n])]]])
  }

  lemma BlockedOutcome(h: Quad, n: Quad, b: Quad, progs: seq<Prog>, z: Snapshot, k: Clause)
    requires h != n && h != b && n != b && z == AfterRebuild(h, n) && progs == OneRule(h, n, b) && k == Clause(0, 0, Some(h), [n], {b})
    requires |progs| == 1 && AllEnabled(progs) == iset{k} && AllRecorded(progs, z.indexes) == iset{k} && !InsertUnblocked(progs, z, {b})
    ensures InsertionResult(progs, Ok, z, {b}, [{}], AfterBlocking(h, n, b))
  {
    var c, s := AfterBlocking(h, n, b), {n, h, b};
    assert c.Stored() == s && z.Stored() + {b} == s && c.ext == AfterInsert(z, {b}) && c.indexes == z.indexes;
    hide AllEnabled, AllRecorded, Stratified, Stable, Complete, OneRule, MarksOk;
    assert k in AllRecorded(progs, c.indexes) && !NoneBlocked(progs, c) && !Sound(progs, c);
    LeastIsModel(StratumOf(iset{k}, 0), s, s);
    LeastIsLeast(StratumOf(iset{k}, 0), s, s, s);
    assert Perfect(iset{k}, s, 0) == s;
    assert Grown(progs, z, {b}) == s;
    NotMarked(h, n, b);
    OnlySeededRefl(progs, c.ext);
  }

  lemma NotMarked(h: Quad, n: Quad, b: Quad)
    ensures !AllMarked(OneRule(h, n, b), [{}])
  {
    NotRuleInstance(h, n, b);
    var progs, marks: Marks := OneRule(h, n, b), [{}];
    assert 0 < |progs[0].rules| && 0 !in marks[0];
  }

  lemma UnmarkedInsertion(progs: seq<Prog>, z: Snapshot, inserts: set<Quad>, marks: Marks, c: Snapshot)
    requires InsertionResult(progs, Ok, z, inserts, marks, c) && NoneMarked(marks)
    ensures Sound(progs, c) <==> InsertUnblocked(progs, z, inserts)
  {
  }

  lemma IsRebuilt(progs: seq<Prog>, z: Snapshot)
    requires Sound(progs, z) && ExactState(progs, z)
    ensures Rebuilt(progs, Ok, z.ext, z)
  {
    ConsistentIsPerfect(progs, z);
  }

  lemma RecordBlocked(progs: seq<Prog>, z: Snapshot, k: Clause, h: Quad, b: Quad)
    requires |z.indexes| == |progs| && k in AllRecorded(progs, z.indexes) && k.head == Some(h) && h !in z.ext && h != b && b in k.neg
    ensures !InsertUnblocked(progs, z, {b})
  {
    hide AllRecorded, AllEnabled;
    PerfectGrows(AllEnabled(progs), z.Stored() + {b}, 0, |progs|);
    assert b in Grown(progs, z, {b});
  }

  // ---- False alarms ----

  /** `h` and `b` exclude each other. */
  function ClashRule(h: Quad, b: Quad): Rule {
    Rule(Contradiction, [PositivePattern(Pattern(h)), PositivePattern(Pattern(b))])
  }

  lemma ClashProgram(stratum: nat, h: Quad, b: Quad)
    ensures var p, c := Prog(stratum, [ClashRule(h, b)], {}), Clause(stratum, 0, None, [h, b], {});
            && Enabled(p) == iset{c} && AllRestricted(p.rules) && Recorded(p, map[]) == iset{} && IndexOk(p.rules, map[]) && IndexValid(map[])
  {
    var rule, s: Substitution := ClashRule(h, b), map[];
    var p, c := Prog(stratum, [rule], {}), Clause(stratum, 0, None, [h, b], {});
    var rest := rule.body[1..];
    assert rest == [PositivePattern(Pattern(b))] && rest[1..] == [];
    assert Positives(rest) == [Pattern(b)] + Positives(rest[1..]) == [Pattern(b)];
    assert Positives(rule.body) == [Pattern(h)] + Positives(rest) == [Pattern(h), Pattern(b)];
    assert Negatives(rest) == Negatives(rest[1..]) == [] && Negatives(rule.body) == [];
    assert BoundVars(rule) == {};
    assert forall x: Substitution | x.Keys == {} :: x == map[];
    assert Witnesses(s, Positives(rule.body)) == [h, b] && Blockers(rule, s) == {} && HeadOf(rule, s) == None;
    assert Admits(rule, s);
    assert IsInstance(rule, c);
    forall d | d in Enabled(p) ensures d == c {
      var x :| Admits(rule, x) && d == ClauseFor(d.prog, d.rid, rule, x);
    }
  }

  /** `h` if `n` and not `b`; a contradiction if `h` and `b`. */
  function AlarmRules(h: Quad, n: Quad, b: Quad): seq<Prog> {
    [Prog(0, [NotRule(h, n, b)], {}), Prog(1, [ClashRule(h, b)], {})]
  }

  function BeforeAlarm(h: Quad, n: Quad): Snapshot {
    Snapshot([n, h], {n}, [map[h := [Derivation(0, [n])]], map[]])
  }

  lemma AlarmClauses(h: Quad, n: Quad, b: Quad) returns (k: Clause, f: Clause)
    ensures k == Clause(0, 0, Some(h), [n], {b}) && f == Clause(1, 0, None, [h, b], {})
    ensures var progs, z := AlarmRules(h, n, b), BeforeAlarm(h, n);
            && Layered(progs) && |progs| == |z.indexes| == 2
            && AllEnabled(progs) == iset{k, f} && AllRecorded(progs, z.indexes) == iset{k} && WellFormedIndexes(progs, z.indexes)
  {
    k, f := Clause(0, 0, Some(h), [n], {b}), Clause(1, 0, None, [h, b], {});
    var progs, z := AlarmRules(h, n, b), BeforeAlarm(h, n);
    NotRuleProgram(0, h, n, b);
    ClashProgram(1, h, b);
    TwoPrograms(progs[0], progs[1], z.indexes[0], map[]);
    hide AllEnabled, AllRecorded, IndexOk, IndexValid, AllRestricted, Enabled, Recorded, NotRule, ClashRule;
    assert progs == [progs[0], progs[1]] && z.indexes == [z.indexes[0], map[]];
    assert iset{k} + iset{f} == iset{k, f} && iset{k} + iset{} == iset{k};
  }

  lemma AlarmModels(h: Quad, n: Quad, b: Quad, k: Clause, f: Clause)
    requires h != n && h != b && n != b && k == Clause(0, 0, Some(h), [n], {b}) && f == Clause(1, 0, None, [h, b], {})
    ensures var p := iset{k, f};
            && Stratified(p) && Consistent(p, {n}, {n, h}, iset{k}) && ExactRecords(p, {n, h}, iset{k})
            && Perfect(p, {n, b}, 2) == {n, b} && NoContradiction(p, {n, b})
            && {n, h, b} <= Perfect(p, {n, h, b}, 2) && !NoContradiction(p, Perfect(p, {n, h, b}, 2))
  {
    var p, s := iset{k, f}, {n, h};
    LeastIsModel(p, {n}, s);
    LeastIsLeast(p, {n}, s, s);
    assert Within(k.pos, Least(p, {n}, s)) && k in p;
    LeastIsModel(p, {n, b}, {n, b});
    LeastIsLeast(p, {n, b}, {n, b}, {n, b});
    PerfectIsStable(p, {n, b}, {n, b}, 2);
    assert h in f.pos;
    PerfectGrows(p, {n, h, b}, 0, 2);
    assert Sat(f, Perfect(p, {n, h, b}, 2)) && f in p;
  }

  /**
   * A refusal need not be genuine.  With `n` asserted and `h` derived, `b` falsifies `h`, so the model of `n` and
   * `b` has no contradiction; but going forward comes first and meets `b` beside the stale `h`.  Whatever the
   * marks, the insertion is refused.
   */
  lemma FalseAlarm(h: Quad, n: Quad, b: Quad)
    requires h != n && h != b && n != b
    ensures var progs, z := AlarmRules(h, n, b), BeforeAlarm(h, n);
            && Layered(progs) && WellFormed(progs, z) && Sound(progs, z) && ExactState(progs, z) && !InsertUnblocked(progs, z, {b})
            && NoContradiction(AllEnabled(progs), Perfect(AllEnabled(progs), AfterInsert(z, {b}), |progs|))
            && forall r, marks, c | InsertionResult(progs, r, z, {b}, marks, c) :: r.Err? && c == z
  {
    hide *;
    var progs, z := AlarmRules(h, n, b), BeforeAlarm(h, n);
    var k, f := AlarmClauses(h, n, b);
    AlarmModels(h, n, b, k, f);
    AlarmShape(h, n, b);
    SoundFrom(progs, z, iset{k, f}, iset{k});
    RecordBlocked(progs, z, k, h, b);
    GrownIs(progs, z, {b});
    forall r, marks, c | InsertionResult(progs, r, z, {b}, marks, c) ensures r.Err? && c == z {
      Refused(progs, r, z, {b}, marks, c);
    }
  }

  lemma AlarmShape(h: Quad, n: Quad, b: Quad)
    requires h != n && h != b
    ensures var z := BeforeAlarm(h, n);
            z.Stored() == {n, h} && z.ext == {n} && NoDup(z.list) && z.ext <= z.Stored() && AfterInsert(z, {b}) == {n} + ({b} - {n, h}) &&
            z.Stored() + {b} == {n, h, b} && (n != b ==> AfterInsert(z, {b}) == {n, b})
  {
  }

  lemma GrownIs(progs: seq<Prog>, z: Snapshot, inserts: set<Quad>)
    ensures Grown(progs, z, inserts) == Perfect(AllEnabled(progs), z.Stored() + inserts, |progs|)
  {
  }

  lemma Refused(progs: seq<Prog>, r: Outcome, z: Snapshot, inserts: set<Quad>, marks: Marks, c: Snapshot)
    requires InsertionResult(progs, r, z, inserts, marks, c) && !NoContradiction(AllEnabled(progs), Grown(progs, z, inserts))
    ensures r.Err? && c == z
  {
  }
}
