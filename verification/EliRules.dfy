/**
 * Compiling class inclusions to rules, the second half: from concepts to Horn rules.
 *
 * A rule means what it says about the assignments of its variables.  `CompilationPreserves` says that the
 * axiom and its rules hold in the same interpretations, and `MaterialisedSatisfies` that the engine's
 * materialised store is one of them.
 */
module EliRules {
  import opened Syntax
  import opened Matching
  import opened Clauses
  import opened Grounding
  import opened Seminaive
  import opened Maintenance
  import opened States
  import opened Eli

  const DEFAULT_GRAPH: GraphElementId := 0

  // ---- Translation ----

  /** `typeId` is the identifier of `rdf:type`. */
  function TypePattern(typeId: GraphElementId, v: string, cls: GraphElementId): QuadPattern {
    QuadPattern(Resource(DEFAULT_GRAPH), Variable(v), Resource(typeId), Resource(cls))
  }

  /** One atom; an inverse swaps its ends. */
  function RolePattern(r: Role, subjectVar: string, objectVar: string): QuadPattern {
    match r
    case Property(id) => QuadPattern(Resource(DEFAULT_GRAPH), Variable(subjectVar), Resource(id), Variable(objectVar))
    case InverseOf(inner) => RolePattern(inner, objectVar, subjectVar)
  }

  function DigitOf(n: nat): char
    requires n < 10
  {
    ['0', '1', '2', '3', '4', '5', '6', '7', '8', '9'][n]
  }

  /** Decimal notation. */
  function Decimal(n: nat): (s: string)
    ensures s != [] && '_' !in s
  {
    if n < 10 then [DigitOf(n)] else Decimal(n / 10) + [DigitOf(n % 10)]
  }

  /** The variable for what an existential in position `clause` below `v` asks for. */
  function NewVar(v: string, clause: nat): string {
    v + "_" + Decimal(clause)
  }

  function TranslateEli(typeId: GraphElementId, c: Concept, v: string, clause: nat): (ps: seq<QuadPattern>)
    decreases c
  {
    match c
    case Top => []
    case AtomicConcept(cls) => [TypePattern(typeId, v, cls)]
    case Intersection(parts) => TranslateAll(typeId, parts, v, 1)
    case Existential(r, f) => [RolePattern(r, v, NewVar(v, clause))] + TranslateEli(typeId, f, NewVar(v, clause), 1)
  }

  /** The conjuncts from position `clause` on. */
  function TranslateAll(typeId: GraphElementId, cs: seq<Concept>, v: string, clause: nat): (ps: seq<QuadPattern>)
    decreases cs
  {
    if cs == [] then [] else TranslateEli(typeId, cs[0], v, clause) + TranslateAll(typeId, cs[1..], v, clause + 1)
  }

  function AsBody(ps: seq<QuadPattern>): (body: seq<RuleAtom>)
    ensures |body| == |ps| && forall k | 0 <= k < |ps| :: body[k] == PositivePattern(ps[k])
  {
    seq(|ps|, k requires 0 <= k < |ps| => PositivePattern(ps[k]))
  }

  function SimpleSubclass(typeId: GraphElementId, sub: Concept, sup: GraphElementId): Rule {
    Rule(NormalHead(TypePattern(typeId, "X", sup)), AsBody(TranslateEli(typeId, sub, "X", 1)))
  }

  /** One rule for every disjunct and every conjunct. */
  method GenerateAxiomRules(typeId: GraphElementId, f: Formula) returns (rules: seq<Rule>)
    ensures |rules| == |f.subs| * |f.sups|
    ensures forall r :: r in rules <==> IsCompiled(typeId, f, r)
  {
    rules := [];
    for j := 0 to |f.subs|
      invariant |rules| == j * |f.sups|
      invariant forall r :: r in rules <==> exists a, b :: 0 <= a < j && 0 <= b < |f.sups| && r == SimpleSubclass(typeId, f.subs[a], f.sups[b])
    {
      ghost var rules0 := rules;
      for k := 0 to |f.sups|
        invariant |rules| == j * |f.sups| + k
        invariant forall r :: r in rules <==> r in rules0 || exists b :: 0 <= b < k && r == SimpleSubclass(typeId, f.subs[j], f.sups[b])
      {
        rules := rules + [SimpleSubclass(typeId, f.subs[j], f.sups[k])];
      }
    }
  }

  ghost predicate IsCompiled(typeId: GraphElementId, f: Formula, r: Rule) {
    exists a, b :: 0 <= a < |f.subs| && 0 <= b < |f.sups| && r == SimpleSubclass(typeId, f.subs[a], f.sups[b])
  }

  // ---- What atoms and rules mean ----

  /** A type atom speaks of a class, a role atom of a property. */
  ghost predicate AtomHolds<D(!new)>(i: Interpretation<D>, p: QuadPattern, a: map<string, D>) {
    && p.subject.Variable? && p.subject.name in a && p.pred.Resource?
    && match p.obj
       case Resource(cls) => (cls, a[p.subject.name]) in i.classes
       case Variable(o) => o in a && (p.pred.id, a[p.subject.name], a[o]) in i.roles
  }

  ghost predicate BodyHolds<D(!new)>(i: Interpretation<D>, ps: seq<QuadPattern>, a: map<string, D>) {
    forall p | p in ps :: AtomHolds(i, p, a)
  }

  /** Whatever satisfies the body satisfies the head. */
  ghost predicate RuleHolds<D(!new)>(i: Interpretation<D>, r: Rule) {
    r.head.NormalHead? ==>
      forall a: map<string, D> | PatternVars(r.head.pattern) <= a.Keys && BodyHolds(i, Positives(r.body), a) ::
        AtomHolds(i, r.head.pattern, a)
  }

  ghost predicate Contained<D(!new)>(a: map<string, D>, b: map<string, D>) {
    forall v | v in a :: v in b && b[v] == a[v]
  }

  lemma BodyExtends<D(!new)>(i: Interpretation<D>, ps: seq<QuadPattern>, a: map<string, D>, b: map<string, D>)
    requires BodyHolds(i, ps, a) && Contained(a, b)
    ensures BodyHolds(i, ps, b)
  {
    forall p | p in ps ensures AtomHolds(i, p, b) {
      assert AtomHolds(i, p, a);
    }
  }

  lemma {:induction false} RoleAtom<D(!new)>(i: Interpretation<D>, r: Role, v: string, w: string, a: map<string, D>)
    requires v in a && w in a
    ensures AtomHolds(i, RolePattern(r, v, w), a) <==> Related(i, r, a[v], a[w])
    decreases r
  {
    if r.InverseOf? {
      RoleAtom(i, r.role, w, v, a);
    }
  }

  lemma {:induction false} RoleAtomVars<D(!new)>(i: Interpretation<D>, r: Role, v: string, w: string, a: map<string, D>)
    requires AtomHolds(i, RolePattern(r, v, w), a)
    ensures v in a && w in a
    decreases r
  {
    if r.InverseOf? {
      RoleAtomVars(i, r.role, w, v, a);
    }
  }

  // ---- Fresh variables ----

  /** The variables a translation makes up, in order. */
  ghost function MadeUp(c: Concept, v: string, clause: nat): seq<string>
    decreases c
  {
    match c
    case Top => []
    case AtomicConcept(_) => []
    case Intersection(parts) => MadeUpAll(parts, v, 1)
    case Existential(r, f) => [NewVar(v, clause)] + MadeUp(f, NewVar(v, clause), 1)
  }

  ghost function MadeUpAll(cs: seq<Concept>, v: string, clause: nat): seq<string>
    decreases cs
  {
    if cs == [] then [] else MadeUp(cs[0], v, clause) + MadeUpAll(cs[1..], v, clause + 1)
  }

  /** No two existentials of the concept share a variable. */
  ghost predicate VariablesApart(c: Concept) {
    NoDup(MadeUp(c, "X", 1))
  }

  /** Made-up names are longer than the name they start from. */
  lemma {:induction false} MadeUpLonger(c: Concept, v: string, clause: nat)
    ensures forall w | w in MadeUp(c, v, clause) :: |w| > |v|
    decreases c
  {
    match c
    case Intersection(parts) => MadeUpAllLonger(parts, v, 1);
    case Existential(r, f) => MadeUpLonger(f, NewVar(v, clause), 1);
    case _ =>
  }

  lemma {:induction false} MadeUpAllLonger(cs: seq<Concept>, v: string, clause: nat)
    ensures forall w | w in MadeUpAll(cs, v, clause) :: |w| > |v|
    decreases cs
  {
    if cs != [] {
      MadeUpLonger(cs[0], v, clause);
      MadeUpAllLonger(cs[1..], v, clause + 1);
    }
  }

  // ---- The body of a rule means its concept ----

  /** An assignment that satisfies the body shows an instance. */
  lemma {:induction false} TranslationSound<D(!new)>(i: Interpretation<D>, t: GraphElementId, c: Concept, v: string, clause: nat, a: map<string, D>)
    requires v in a && BodyHolds(i, TranslateEli(t, c, v, clause), a)
    ensures Instance(i, c, a[v])
    decreases c
  {
    match c
    case Top =>
    case AtomicConcept(cls) =>
      assert TypePattern(t, v, cls) in TranslateEli(t, c, v, clause);
    case Intersection(parts) =>
      TranslationAllSound(i, t, parts, v, 1, a);
    case Existential(r, f) =>
      var w, ps := NewVar(v, clause), TranslateEli(t, c, v, clause);
      assert ps[0] == RolePattern(r, v, w) && ps[0] in ps;
      assert forall p | p in TranslateEli(t, f, w, 1) :: p in ps;
      RoleAtomVars(i, r, v, w, a);
      RoleAtom(i, r, v, w, a);
      TranslationSound(i, t, f, w, 1, a);
  }

  lemma {:induction false} TranslationAllSound<D(!new)>(i: Interpretation<D>, t: GraphElementId, cs: seq<Concept>, v: string, clause: nat, a: map<string, D>)
    requires v in a && BodyHolds(i, TranslateAll(t, cs, v, clause), a)
    ensures forall k | 0 <= k < |cs| :: Instance(i, cs[k], a[v])
    decreases cs
  {
    if cs != [] {
      assert forall p | p in TranslateEli(t, cs[0], v, clause) :: p in TranslateAll(t, cs, v, clause);
      assert forall p | p in TranslateAll(t, cs[1..], v, clause + 1) :: p in TranslateAll(t, cs, v, clause);
      TranslationSound(i, t, cs[0], v, clause, a);
      TranslationAllSound(i, t, cs[1..], v, clause + 1, a);
    }
  }

  /** `a` assigns `x` to `v` and something to each made-up variable. */
  ghost predicate Assigns<D(!new)>(a: map<string, D>, v: string, x: D, names: seq<string>) {
    a.Keys == {v} + Elements(names) && v in a && a[v] == x
  }

  /** An instance gives an assignment, if no variable has to serve twice. */
  lemma {:induction false} TranslationComplete<D(!new)>(i: Interpretation<D>, t: GraphElementId, c: Concept, v: string, clause: nat, x: D)
    returns (a: map<string, D>)
    requires Instance(i, c, x) && NoDup(MadeUp(c, v, clause))
    ensures Assigns(a, v, x, MadeUp(c, v, clause)) && BodyHolds(i, TranslateEli(t, c, v, clause), a)
    decreases c
  {
    match c
    case Top =>
      a := map[v := x];
    case AtomicConcept(cls) =>
      a := map[v := x];
    case Intersection(parts) =>
      a := TranslationAllComplete(i, t, parts, v, 1, x);
    case Existential(r, f) =>
      var w := NewVar(v, clause);
      var y :| Related(i, r, x, y) && Instance(i, f, y);
      var names := MadeUp(f, w, 1);
      assert MadeUp(c, v, clause) == [w] + names;
      NoDupTail(w, names);
      var b := TranslationComplete(i, t, f, w, 1, y);
      MadeUpLonger(f, w, 1);
      a := b[v := x];
      BodyExtends(i, TranslateEli(t, f, w, 1), b, a);
      RoleAtom(i, r, v, w, a);
  }

  lemma NoDupTail<T>(x: T, s: seq<T>)
    requires NoDup([x] + s)
    ensures NoDup(s) && x !in s
  {
    var all := [x] + s;
    assert forall k | 0 <= k < |s| :: all[k + 1] == s[k];
    assert all[0] == x;
  }

  lemma NoDupParts<T>(a: seq<T>, b: seq<T>)
    requires NoDup(a + b)
    ensures NoDup(a) && NoDup(b) && forall x | x in a :: x !in b
  {
    var all := a + b;
    assert forall k | 0 <= k < |a| :: all[k] == a[k];
    assert forall k | 0 <= k < |b| :: all[|a| + k] == b[k];
  }

  lemma {:induction false} TranslationAllComplete<D(!new)>(i: Interpretation<D>, t: GraphElementId, cs: seq<Concept>, v: string, clause: nat, x: D)
    returns (a: map<string, D>)
    requires (forall k | 0 <= k < |cs| :: Instance(i, cs[k], x)) && NoDup(MadeUpAll(cs, v, clause))
    ensures Assigns(a, v, x, MadeUpAll(cs, v, clause)) && BodyHolds(i, TranslateAll(t, cs, v, clause), a)
    decreases cs
  {
    if cs == [] {
      a := map[v := x];
    } else {
      var first, rest := MadeUp(cs[0], v, clause), MadeUpAll(cs[1..], v, clause + 1);
      NoDupParts(first, rest);
      assert forall k | 0 <= k < |cs| - 1 :: cs[1..][k] == cs[k + 1];
      var b := TranslationComplete(i, t, cs[0], v, clause, x);
      var c := TranslationAllComplete(i, t, cs[1..], v, clause + 1, x);
      MadeUpLonger(cs[0], v, clause);
      MadeUpAllLonger(cs[1..], v, clause + 1);
      a := b + c;
      assert Contained(b, a) && Contained(c, a);
      BodyExtends(i, TranslateEli(t, cs[0], v, clause), b, a);
      BodyExtends(i, TranslateAll(t, cs[1..], v, clause + 1), c, a);
    }
  }

  lemma {:induction false} PositivesOfBody(ps: seq<QuadPattern>)
    ensures Positives(AsBody(ps)) == ps && Negatives(AsBody(ps)) == []
  {
    if ps != [] {
      PositivesOfBody(ps[1..]);
      assert AsBody(ps)[1..] == AsBody(ps[1..]);
    }
  }

  /** An inclusion implies its rule, whatever the variables. */
  lemma RuleFollows<D(!new)>(i: Interpretation<D>, t: GraphElementId, c: Concept, sup: GraphElementId)
    requires forall x | Instance(i, c, x) :: (sup, x) in i.classes
    ensures RuleHolds(i, SimpleSubclass(t, c, sup))
  {
    var rule, ps := SimpleSubclass(t, c, sup), TranslateEli(t, c, "X", 1);
    PositivesOfBody(ps);
    assert PatternVars(rule.head.pattern) == {"X"};
    forall a: map<string, D> | PatternVars(rule.head.pattern) <= a.Keys && BodyHolds(i, Positives(rule.body), a)
      ensures AtomHolds(i, rule.head.pattern, a)
    {
      assert "X" in a;
      TranslationSound(i, t, c, "X", 1, a);
    }
  }

  /** A compiled rule says that the concept is included in the class. */
  lemma RuleMeans<D(!new)>(i: Interpretation<D>, t: GraphElementId, c: Concept, sup: GraphElementId)
    requires VariablesApart(c)
    ensures RuleHolds(i, SimpleSubclass(t, c, sup)) <==> forall x | Instance(i, c, x) :: (sup, x) in i.classes
  {
    var rule, ps := SimpleSubclass(t, c, sup), TranslateEli(t, c, "X", 1);
    PositivesOfBody(ps);
    assert PatternVars(rule.head.pattern) == {"X"};
    if RuleHolds(i, rule) {
      forall x | Instance(i, c, x) ensures (sup, x) in i.classes {
        var a := TranslationComplete(i, t, c, "X", 1, x);
        assert AtomHolds(i, rule.head.pattern, a);
      }
    }
    if forall x | Instance(i, c, x) :: (sup, x) in i.classes {
      RuleFollows(i, t, c, sup);
    }
  }

  /** All compiled rules hold. */
  ghost predicate RulesHold<D(!new)>(i: Interpretation<D>, t: GraphElementId, f: Formula) {
    forall r | IsCompiled(t, f, r) :: RuleHolds(i, r)
  }

  /** In one direction nothing is asked of variables: the rules are never too strong. */
  lemma CompilationSound<D(!new)>(i: Interpretation<D>, t: GraphElementId, sub: ClassExpression, sup: ClassExpression)
    requires AxiomExtractor(sub, sup).Some? && Satisfies(i, sub, sup)
    ensures RulesHold(i, t, AxiomExtractor(sub, sup).value)
  {
    var f := AxiomExtractor(sub, sup).value;
    ExtractionPreserves(i, sub, sup);
    forall r | IsCompiled(t, f, r) ensures RuleHolds(i, r) {
      var a, b :| 0 <= a < |f.subs| && 0 <= b < |f.sups| && r == SimpleSubclass(t, f.subs[a], f.sups[b]);
      assert f.subs[a] in f.subs && f.sups[b] in f.sups;
      RuleFollows(i, t, f.subs[a], f.sups[b]);
    }
  }

  /**
   * Compilation preserves meaning: when both sides extract directly and no variable serves twice, an
   * interpretation satisfies the axiom if and only if it satisfies every generated rule.
   */
  lemma CompilationPreserves<D(!new)>(i: Interpretation<D>, t: GraphElementId, sub: ClassExpression, sup: ClassExpression)
    requires AxiomExtractor(sub, sup).Some?
    requires forall c | c in AxiomExtractor(sub, sup).value.subs :: VariablesApart(c)
    ensures Satisfies(i, sub, sup) <==> RulesHold(i, t, AxiomExtractor(sub, sup).value)
  {
    var f := AxiomExtractor(sub, sup).value;
    ExtractionPreserves(i, sub, sup);
    if Satisfies(i, sub, sup) {
      CompilationSound(i, t, sub, sup);
    }
    if RulesHold(i, t, f) {
      forall c, x | c in f.subs && Instance(i, c, x) ensures InAll(i, f.sups, x) {
        forall s | s in f.sups ensures (s, x) in i.classes {
          var a :| 0 <= a < |f.subs| && f.subs[a] == c;
          var b :| 0 <= b < |f.sups| && f.sups[b] == s;
          assert IsCompiled(t, f, SimpleSubclass(t, f.subs[a], f.sups[b]));
          RuleMeans(i, t, c, s);
        }
      }
    }
  }

  // ---- When variables are apart ----

  /** No intersection sits directly inside another. */
  ghost predicate NotNested(c: Concept)
    decreases c
  {
    match c
    case Top => true
    case AtomicConcept(_) => true
    case Intersection(parts) => forall k | 0 <= k < |parts| :: !parts[k].Intersection? && NotNested(parts[k])
    case Existential(_, f) => NotNested(f)
  }

  lemma {:induction false} DecimalInjective(m: nat, n: nat)
    requires Decimal(m) == Decimal(n)
    ensures m == n
    decreases m
  {
    if m >= 10 && n >= 10 {
      var a, b := Decimal(m / 10), Decimal(n / 10);
      assert Decimal(m) == a + [DigitOf(m % 10)] && Decimal(n) == b + [DigitOf(n % 10)];
      assert |a| == |b| && a == Decimal(m)[..|a|] && b == Decimal(n)[..|b|];
      assert Decimal(m)[|a|] == DigitOf(m % 10) && Decimal(n)[|b|] == DigitOf(n % 10);
      DecimalInjective(m / 10, n / 10);
    } else {
      assert |Decimal(m)| == 1 || |Decimal(n)| == 1;
    }
  }

  /** The name `p`, or one made up below it. */
  ghost predicate Under(p: string, w: string) {
    w == p || p + "_" <= w
  }

  lemma UnderOne(v: string, k: nat, l: nat, w: string)
    requires Under(NewVar(v, k), w) && Under(NewVar(v, l), w)
    ensures k == l
  {
    var dk, dl, n := Decimal(k), Decimal(l), |v| + 1;
    UnderSlice(v, dk, w);
    UnderSlice(v, dl, w);
    if |dk| < |dl| {
      UnderShorter(v, dk, dl, w);
    } else if |dl| < |dk| {
      UnderShorter(v, dl, dk, w);
    } else {
      DecimalInjective(k, l);
    }
  }

  lemma UnderSlice(v: string, d: string, w: string)
    requires Under(v + "_" + d, w)
    ensures |w| >= |v| + 1 + |d| && w[|v| + 1..|v| + 1 + |d|] == d && v + "_" + d <= w
  {
    var p := v + "_" + d;
    assert p <= w by { assert w == p || (p + "_")[..|p|] == p; }
    assert forall j | 0 <= j < |d| :: w[|v| + 1 + j] == p[|v| + 1 + j] == d[j];
  }

  lemma UnderShorter(v: string, d: string, e: string, w: string)
    requires |d| < |e| && Under(v + "_" + d, w) && v + "_" + e <= w
    ensures '_' in e
  {
    var n := |v| + 1 + |d|;
    assert (v + "_" + d + "_")[n] == '_' == w[n];
    assert (v + "_" + e)[n] == e[|d|] == w[n];
  }

  lemma {:induction false} MadeUpBelow(c: Concept, v: string, clause: nat)
    ensures forall w | w in MadeUp(c, v, clause) :: v + "_" <= w
    decreases c
  {
    match c
    case Intersection(parts) => MadeUpAllBelow(parts, v, 1);
    case Existential(r, f) =>
      var u := NewVar(v, clause);
      MadeUpBelow(f, u, 1);
      forall w | w in MadeUp(f, u, 1) ensures v + "_" <= w {
        assert u + "_" <= w && v + "_" <= u + "_";
      }
    case _ =>
  }

  lemma {:induction false} MadeUpAllBelow(cs: seq<Concept>, v: string, clause: nat)
    ensures forall w | w in MadeUpAll(cs, v, clause) :: v + "_" <= w
    decreases cs
  {
    if cs != [] {
      MadeUpBelow(cs[0], v, clause);
      MadeUpAllBelow(cs[1..], v, clause + 1);
    }
  }

  lemma MadeUpUnder(c: Concept, v: string, clause: nat)
    requires !c.Intersection?
    ensures forall w | w in MadeUp(c, v, clause) :: Under(NewVar(v, clause), w)
  {
    if c.Existential? {
      MadeUpBelow(c.filler, NewVar(v, clause), 1);
    }
  }

  /** Then every existential has a variable of its own. */
  lemma {:induction false} NotNestedApart(c: Concept, v: string, clause: nat)
    requires NotNested(c)
    ensures NoDup(MadeUp(c, v, clause))
    decreases c
  {
    match c
    case Intersection(parts) => NotNestedAllApart(parts, v, 1);
    case Existential(r, f) =>
      var u := NewVar(v, clause);
      NotNestedApart(f, u, 1);
      MadeUpLonger(f, u, 1);
      NoDupAppend([u], MadeUp(f, u, 1));
    case _ =>
  }

  lemma NoDupAppend<T>(a: seq<T>, b: seq<T>)
    requires NoDup(a) && NoDup(b) && forall x | x in a :: x !in b
    ensures NoDup(a + b)
  {
    forall i, j | 0 <= i < j < |a + b| ensures (a + b)[i] != (a + b)[j] {
      if i < |a| <= j {
        assert a[i] in a && b[j - |a|] in b;
      }
    }
  }

  lemma {:induction false} NotNestedAllApart(cs: seq<Concept>, v: string, clause: nat)
    requires forall k | 0 <= k < |cs| :: !cs[k].Intersection? && NotNested(cs[k])
    ensures NoDup(MadeUpAll(cs, v, clause))
    ensures forall w | w in MadeUpAll(cs, v, clause) :: exists k :: clause <= k && Under(NewVar(v, k), w)
    decreases cs
  {
    if cs != [] {
      var first, rest := MadeUp(cs[0], v, clause), MadeUpAll(cs[1..], v, clause + 1);
      NotNestedApart(cs[0], v, clause);
      NotNestedAllApart(cs[1..], v, clause + 1);
      MadeUpUnder(cs[0], v, clause);
      forall w | w in first ensures w !in rest {
        if w in rest {
          var k :| clause + 1 <= k && Under(NewVar(v, k), w);
          UnderOne(v, clause, k, w);
        }
      }
      NoDupAppend(first, rest);
    }
  }

  /** Nested intersections clash: `X_1` would have to be both fillers at once. */
  lemma NestedClash(t: GraphElementId) returns (i: Interpretation<nat>, sub: ClassExpression, sup: ClassExpression)
    ensures AxiomExtractor(sub, sup).Some? && !Satisfies(i, sub, sup)
    ensures RulesHold(i, t, AxiomExtractor(sub, sup).value)
  {
    var left, right := SomeValuesFrom(Property(1), ClassName(3)), SomeValuesFrom(Property(2), ClassName(4));
    var cl, cr := Existential(Property(1), AtomicConcept(3)), Existential(Property(2), AtomicConcept(4));
    var concept := Intersection([cl, Intersection([cr])]);
    sub, sup := IntersectionOf([left, IntersectionOf([right])]), ClassName(5);
    i := Interpretation(iset{(3, 1), (4, 2)}, iset{(1, 0, 1), (2, 0, 2)}, iset{});
    ClashExtracts(left, right, cl, cr);
    ClashUnsatisfied(i, left, right);
    hide *;
    forall rule | IsCompiled(t, DirectInclusion([concept], [5]), rule) ensures RuleHolds(i, rule) {
      CompiledOnly(t, concept, 5, rule);
      ClashNeverFires(i, t, cl, cr, concept, rule);
    }
    RulesHoldIs(i, t, DirectInclusion([concept], [5]));
  }

  lemma RulesHoldIs<D(!new)>(i: Interpretation<D>, t: GraphElementId, f: Formula)
    requires forall r | IsCompiled(t, f, r) :: RuleHolds(i, r)
    ensures RulesHold(i, t, f)
  {
  }

  lemma CompiledOnly(t: GraphElementId, c: Concept, sup: GraphElementId, rule: Rule)
    requires IsCompiled(t, DirectInclusion([c], [sup]), rule)
    ensures rule == SimpleSubclass(t, c, sup)
  {
  }

  lemma ClashExtracts(left: ClassExpression, right: ClassExpression, cl: Concept, cr: Concept)
    requires ClassExtractor(left) == Some(cl) && ClassExtractor(right) == Some(cr)
    ensures AxiomExtractor(IntersectionOf([left, IntersectionOf([right])]), ClassName(5)) ==
            Some(DirectInclusion([Intersection([cl, Intersection([cr])])], [5]))
  {
    var inner := IntersectionOf([right]);
    var concept := Intersection([cl, Intersection([cr])]);
    var sub := IntersectionOf([left, inner]);
    ExtractOne(right);
    ExtractTwo(left, inner);
    assert ClassExtractor(sub) == Some(concept);
    assert SubClassExtractor(sub) == [Some(concept)];
    FlattenOne(concept);
  }

  lemma ClashUnsatisfied(i: Interpretation<nat>, left: ClassExpression, right: ClassExpression)
    requires i == Interpretation(iset{(3, 1), (4, 2)}, iset{(1, 0, 1), (2, 0, 2)}, iset{})
    requires left == SomeValuesFrom(Property(1), ClassName(3)) && right == SomeValuesFrom(Property(2), ClassName(4))
    ensures !Satisfies(i, IntersectionOf([left, IntersectionOf([right])]), ClassName(5))
  {
    assert Related(i, Property(1), 0, 1) && Member(i, ClassName(3), 1);
    assert Related(i, Property(2), 0, 2) && Member(i, ClassName(4), 2);
    assert Member(i, IntersectionOf([right]), 0) && Member(i, left, 0);
    assert Member(i, IntersectionOf([left, IntersectionOf([right])]), 0);
    assert !Member(i, ClassName(5), 0);
  }

  // ---- On class expressions ----

  /** No intersection sits directly inside another. */
  ghost predicate FlatExpression(e: ClassExpression)
    decreases e
  {
    match e
    case IntersectionOf(ps) => forall k | 0 <= k < |ps| :: !ps[k].IntersectionOf? && FlatExpression(ps[k])
    case UnionOf(ps) => forall k | 0 <= k < |ps| :: FlatExpression(ps[k])
    case SomeValuesFrom(_, f) => FlatExpression(f)
    case MinQualifiedCardinality(_, _, f) => FlatExpression(f)
    case _ => true
  }

  lemma {:induction false} FlatExtract(e: ClassExpression)
    requires FlatExpression(e) && ClassExtractor(e).Some?
    ensures NotNested(ClassExtractor(e).value) && (ClassExtractor(e).value.Intersection? ==> e.IntersectionOf?)
    decreases e
  {
    match e
    case IntersectionOf(ps) => FlatExtractAll(ps);
    case SomeValuesFrom(_, f) => FlatExtract(f);
    case MinQualifiedCardinality(_, _, f) => FlatExtract(f);
    case _ =>
  }

  lemma {:induction false} FlatExtractAll(es: seq<ClassExpression>)
    requires (forall k | 0 <= k < |es| :: !es[k].IntersectionOf? && FlatExpression(es[k])) && ExtractAll(es).Some?
    ensures forall k | 0 <= k < |ExtractAll(es).value| :: !ExtractAll(es).value[k].Intersection? && NotNested(ExtractAll(es).value[k])
    decreases es
  {
    if es != [] {
      FlatExtract(es[0]);
      FlatExtractAll(es[1..]);
    }
  }

  ghost predicate NoneNested(cs: seq<Option<Concept>>) {
    forall k | 0 <= k < |cs| && cs[k].Some? :: NotNested(cs[k].value)
  }

  lemma {:induction false} FlatSub(e: ClassExpression)
    requires FlatExpression(e)
    ensures NoneNested(SubClassExtractor(e))
    decreases Size(e), 0
  {
    if ClassExtractor(e).Some? {
      FlatExtract(e);
    }
    match e
    case UnionOf(ps) => FlatSubs(ps);
    case SomeValuesFrom(r, f) =>
      if f.UnionOf? {
        assert Size(f) == 1 + SizeAll(f.parts);
        FlatSubsUnder(r, f.parts);
      }
    case MinQualifiedCardinality(n, r, f) =>
      if n == 1 && f.UnionOf? {
        assert Size(f) == 1 + SizeAll(f.parts);
        FlatSubsUnder(r, f.parts);
      }
    case _ =>
  }

  lemma {:induction false} FlatSubs(es: seq<ClassExpression>)
    requires forall k | 0 <= k < |es| :: FlatExpression(es[k])
    ensures NoneNested(SubClassesOf(es))
    decreases SizeAll(es), 1
  {
    if es != [] {
      FlatSub(es[0]);
      FlatSubs(es[1..]);
    }
  }

  lemma {:induction false} FlatSubsUnder(r: Role, es: seq<ClassExpression>)
    requires forall k | 0 <= k < |es| :: FlatExpression(es[k])
    ensures NoneNested(SubClassesUnder(r, es))
    decreases 1 + SizeAll(es), 1
  {
    if es != [] {
      FlatSub(SomeValuesFrom(r, es[0]));
      FlatSubsUnder(r, es[1..]);
    }
  }

  /** Without directly nested intersections, compilation preserves meaning. */
  lemma FlatCompilationPreserves<D(!new)>(i: Interpretation<D>, t: GraphElementId, sub: ClassExpression, sup: ClassExpression)
    requires AxiomExtractor(sub, sup).Some? && FlatExpression(sub)
    ensures Satisfies(i, sub, sup) <==> RulesHold(i, t, AxiomExtractor(sub, sup).value)
  {
    var f := AxiomExtractor(sub, sup).value;
    FlattenAll(SubClassExtractor(sub));
    FlatSub(sub);
    forall c | c in f.subs ensures VariablesApart(c) {
      var k :| 0 <= k < |f.subs| && f.subs[k] == c;
      assert SubClassExtractor(sub)[k] == Some(c);
      NotNestedApart(c, "X", 1);
    }
    CompilationPreserves(i, t, sub, sup);
  }

  lemma ExtractOne(e: ClassExpression)
    ensures ClassExtractor(e).Some? ==> ExtractAll([e]) == Some([ClassExtractor(e).value])
  {
    assert [e][1..] == [];
    if ClassExtractor(e).Some? {
      var c := ClassExtractor(e).value;
      assert [c] + [] == [c];
    }
  }

  lemma ExtractTwo(e: ClassExpression, e': ClassExpression)
    ensures ClassExtractor(e).Some? && ClassExtractor(e').Some? ==>
              ExtractAll([e, e']) == Some([ClassExtractor(e).value, ClassExtractor(e').value])
  {
    assert [e, e'][1..] == [e'];
    ExtractOne(e');
    if ClassExtractor(e).Some? && ClassExtractor(e').Some? {
      var c, c' := ClassExtractor(e).value, ClassExtractor(e').value;
      assert [c] + [c'] == [c, c'];
    }
  }

  lemma FlattenOne(c: Concept)
    ensures Flatten([Some(c)]) == Some([c])
  {
    assert [Some(c)][1..] == [];
    assert [c] + [] == [c];
  }

  lemma TranslateOne(t: GraphElementId, c: Concept, v: string, clause: nat)
    ensures TranslateAll(t, [c], v, clause) == TranslateEli(t, c, v, clause)
  {
    assert [c][1..] == [];
    assert TranslateAll(t, [c][1..], v, clause + 1) == [];
  }

  lemma ClashNeverFires(i: Interpretation<nat>, t: GraphElementId, cl: Concept, cr: Concept, concept: Concept, rule: Rule)
    requires i == Interpretation(iset{(3, 1), (4, 2)}, iset{(1, 0, 1), (2, 0, 2)}, iset{})
    requires cl == Existential(Property(1), AtomicConcept(3)) && cr == Existential(Property(2), AtomicConcept(4))
    requires concept == Intersection([cl, Intersection([cr])]) && rule == SimpleSubclass(t, concept, 5)
    ensures RuleHolds(i, rule)
  {
    var x1 := NewVar("X", 1);
    var nested := Intersection([cr]);
    var ps := TranslateEli(t, concept, "X", 1);
    assert [cl, nested][1..] == [nested];
    TranslateOne(t, cr, "X", 1);
    TranslateOne(t, nested, "X", 2);
    assert TranslateEli(t, cr, "X", 1) == [RolePattern(Property(2), "X", x1), TypePattern(t, x1, 4)];
    assert TranslateEli(t, cl, "X", 1) == [RolePattern(Property(1), "X", x1), TypePattern(t, x1, 3)];
    assert ps == TranslateAll(t, [cl, nested], "X", 1) == TranslateEli(t, cl, "X", 1) + TranslateEli(t, cr, "X", 1);
    assert TypePattern(t, x1, 3) == ps[1] && TypePattern(t, x1, 4) == ps[3];
    PositivesOfBody(ps);
    var p, q := ps[1], ps[3];
    assert p in ps && q in ps;
    forall a: map<string, nat> ensures !BodyHolds(i, ps, a) {
      assert !(AtomHolds(i, p, a) && AtomHolds(i, q, a));
    }
  }

  // ---- The engine's store as an interpretation ----

  /** A store of quads, read as an interpretation of the default graph. */
  ghost function StoreAs(t: GraphElementId, s: set<Quad>): Interpretation<GraphElementId> {
    Interpretation(iset k: (GraphElementId, GraphElementId) | Quad(DEFAULT_GRAPH, k.1, t, k.0) in s,
                   iset k: (GraphElementId, GraphElementId, GraphElementId) | Quad(DEFAULT_GRAPH, k.1, k.0, k.2) in s,
                   iset{})
  }

  /** The shape of every compiled atom. */
  ghost predicate EliPattern(t: GraphElementId, p: QuadPattern) {
    && p.graph == Resource(DEFAULT_GRAPH) && p.subject.Variable? && p.pred.Resource?
    && (p.obj.Resource? ==> p.pred.id == t)
  }

  lemma {:induction false} RolePatternShape(t: GraphElementId, r: Role, v: string, w: string)
    ensures EliPattern(t, RolePattern(r, v, w)) && PatternVars(RolePattern(r, v, w)) == {v, w}
    decreases r
  {
    if r.InverseOf? { RolePatternShape(t, r.role, w, v); }
  }

  lemma {:induction false} TranslationShape(t: GraphElementId, c: Concept, v: string, clause: nat)
    ensures forall p | p in TranslateEli(t, c, v, clause) :: EliPattern(t, p)
    decreases c
  {
    match c
    case Intersection(parts) => TranslationAllShape(t, parts, v, 1);
    case Existential(r, f) =>
      RolePatternShape(t, r, v, NewVar(v, clause));
      TranslationShape(t, f, NewVar(v, clause), 1);
    case _ =>
  }

  lemma {:induction false} TranslationAllShape(t: GraphElementId, cs: seq<Concept>, v: string, clause: nat)
    ensures forall p | p in TranslateAll(t, cs, v, clause) :: EliPattern(t, p)
    decreases cs
  {
    if cs != [] {
      TranslationShape(t, cs[0], v, clause);
      TranslationAllShape(t, cs[1..], v, clause + 1);
    }
  }

  /** An atom holds in the store when its quad is there. */
  lemma AtomStored(t: GraphElementId, s: set<Quad>, p: QuadPattern, a: Substitution)
    requires EliPattern(t, p)
    ensures AtomHolds(StoreAs(t, s), p, a) <==> PatternVars(p) <= a.Keys && ApplyQuad(a, p) in s
  {
    if AtomHolds(StoreAs(t, s), p, a) {
      assert PatternVars(p) <= a.Keys;
    }
  }

  /** Some conjunct says something about the variable itself. */
  ghost predicate Mentions(c: Concept)
    decreases c
  {
    match c
    case Top => false
    case AtomicConcept(_) => true
    case Intersection(parts) => exists k :: 0 <= k < |parts| && Mentions(parts[k])
    case Existential(_, _) => true
  }

  lemma {:induction false} MentionsVar(t: GraphElementId, c: Concept, v: string, clause: nat)
    ensures Mentions(c) ==> v in ListVars(TranslateEli(t, c, v, clause))
    ensures !Mentions(c) ==> TranslateEli(t, c, v, clause) == []
    decreases c
  {
    match c
    case Top =>
    case AtomicConcept(cls) =>
      assert PatternVars(TypePattern(t, v, cls)) == {v};
      ListVarsOf(TranslateEli(t, c, v, clause), 0);
    case Intersection(parts) => MentionsVarAll(t, parts, v, 1);
    case Existential(r, f) =>
      RolePatternShape(t, r, v, NewVar(v, clause));
      ListVarsOf(TranslateEli(t, c, v, clause), 0);
  }

  lemma {:induction false} MentionsVarAll(t: GraphElementId, cs: seq<Concept>, v: string, clause: nat)
    ensures (exists k :: 0 <= k < |cs| && Mentions(cs[k])) ==> v in ListVars(TranslateAll(t, cs, v, clause))
    ensures (forall k | 0 <= k < |cs| :: !Mentions(cs[k])) ==> TranslateAll(t, cs, v, clause) == []
    decreases cs
  {
    if cs != [] {
      MentionsVar(t, cs[0], v, clause);
      MentionsVarAll(t, cs[1..], v, clause + 1);
      ListVarsConcat(TranslateEli(t, cs[0], v, clause), TranslateAll(t, cs[1..], v, clause + 1));
      assert forall k | 0 < k < |cs| :: cs[k] == cs[1..][k - 1];
      assert forall k | 0 <= k < |cs| - 1 :: cs[1..][k] == cs[k + 1];
    }
  }

  lemma {:induction false} ListVarsOf(ps: seq<QuadPattern>, k: nat)
    requires k < |ps|
    ensures PatternVars(ps[k]) <= ListVars(ps)
  {
    if k > 0 { ListVarsOf(ps[1..], k - 1); }
  }

  lemma {:induction false} ListVarsConcat(a: seq<QuadPattern>, b: seq<QuadPattern>)
    ensures ListVars(a + b) == ListVars(a) + ListVars(b)
  {
    if a == [] {
      assert a + b == b;
    } else {
      assert (a + b)[1..] == a[1..] + b;
      ListVarsConcat(a[1..], b);
    }
  }

  /** The engine accepts the rule unless the concept is trivial. */
  lemma SafeIff(t: GraphElementId, c: Concept, sup: GraphElementId)
    ensures RangeRestricted(SimpleSubclass(t, c, sup)) <==> Mentions(c)
  {
    var ps := TranslateEli(t, c, "X", 1);
    PositivesOfBody(ps);
    MentionsVar(t, c, "X", 1);
    assert PatternVars(TypePattern(t, "X", sup)) == {"X"};
  }

  /** A store that has the head of every satisfied instance of a rule satisfies the rule. */
  lemma ClosedHolds(t: GraphElementId, s: set<Quad>, c: Concept, sup: GraphElementId)
    requires Mentions(c)
    requires forall k | IsInstance(SimpleSubclass(t, c, sup), k) && k.prog == 0 && k.rid == 0 && Sat(k, s) ::
               k.head.Some? && k.head.value in s
    ensures RuleHolds(StoreAs(t, s), SimpleSubclass(t, c, sup))
  {
    var rule, ps := SimpleSubclass(t, c, sup), TranslateEli(t, c, "X", 1);
    PositivesOfBody(ps);
    SafeIff(t, c, sup);
    TranslationShape(t, c, "X", 1);
    forall a: Substitution | PatternVars(rule.head.pattern) <= a.Keys && BodyHolds(StoreAs(t, s), ps, a)
      ensures AtomHolds(StoreAs(t, s), rule.head.pattern, a)
    {
      HeadStored(t, s, rule, ps, a);
    }
  }

  lemma HeadStored(t: GraphElementId, s: set<Quad>, rule: Rule, ps: seq<QuadPattern>, a: Substitution)
    requires rule.head.NormalHead? && EliPattern(t, rule.head.pattern) && RangeRestricted(rule) && PatternVars(rule.head.pattern) != {}
    requires rule.body == AsBody(ps) && Positives(rule.body) == ps && Negatives(rule.body) == []
    requires forall p | p in ps :: EliPattern(t, p)
    requires PatternVars(rule.head.pattern) <= a.Keys && BodyHolds(StoreAs(t, s), ps, a)
    requires forall k | IsInstance(rule, k) && k.prog == 0 && k.rid == 0 && Sat(k, s) :: k.head.Some? && k.head.value in s
    ensures AtomHolds(StoreAs(t, s), rule.head.pattern, a)
  {
    BodyStored(t, s, ps, a);
    var sub: Substitution := map v | v in ListVars(ps) :: a[v];
    assert Extends(sub, a);
    assert ps != [];
    assert Admits(rule, sub);
    var k := ClauseFor(0, 0, rule, sub);
    WitnessesStored(s, ps, a, sub);
    assert k.neg == {};
    assert IsInstance(rule, k) && Sat(k, s);
    ApplyQuadStable(sub, a, rule.head.pattern);
    AtomStored(t, s, rule.head.pattern, a);
  }

  lemma {:induction false} BodyStored(t: GraphElementId, s: set<Quad>, ps: seq<QuadPattern>, a: Substitution)
    requires (forall p | p in ps :: EliPattern(t, p)) && BodyHolds(StoreAs(t, s), ps, a)
    ensures ListVars(ps) <= a.Keys && forall p | p in ps :: PatternVars(p) <= a.Keys && ApplyQuad(a, p) in s
  {
    forall p | p in ps ensures PatternVars(p) <= a.Keys && ApplyQuad(a, p) in s {
      AtomStored(t, s, p, a);
    }
    if ps != [] {
      assert ps[0] in ps && forall p | p in ps[1..] :: p in ps;
      BodyStored(t, s, ps[1..], a);
    }
  }

  lemma WitnessesStored(s: set<Quad>, ps: seq<QuadPattern>, a: Substitution, sub: Substitution)
    requires ListVars(ps) <= sub.Keys && Extends(sub, a) && forall p | p in ps :: PatternVars(p) <= a.Keys && ApplyQuad(a, p) in s
    ensures Within(Witnesses(sub, ps), s)
  {
    forall j | 0 <= j < |ps| ensures Witnesses(sub, ps)[j] in s {
      VarsInList(ps, ps[j]);
      ApplyQuadStable(sub, a, ps[j]);
    }
  }

  ghost predicate EnabledSomewhere(progs: seq<Prog>, r: Rule) {
    exists i, rid: nat :: 0 <= i < |progs| && rid < |progs[i].rules| && rid !in progs[i].disabled && progs[i].rules[rid] == r
  }

  /** In a consistent state where the rules of an axiom are enabled, the store satisfies them. */
  lemma MaterialisedRules(progs: seq<Prog>, z: Snapshot, t: GraphElementId, f: Formula)
    requires Layered(progs) && ConsistentState(progs, z)
    requires forall c | c in f.subs :: Mentions(c)
    requires forall r | IsCompiled(t, f, r) :: EnabledSomewhere(progs, r)
    ensures RulesHold(StoreAs(t, z.Stored()), t, f)
  {
    var s := z.Stored();
    forall r | IsCompiled(t, f, r) ensures RuleHolds(StoreAs(t, s), r) {
      var a, b :| 0 <= a < |f.subs| && 0 <= b < |f.sups| && r == SimpleSubclass(t, f.subs[a], f.sups[b]);
      assert f.subs[a] in f.subs;
      forall k | IsInstance(r, k) && k.prog == 0 && k.rid == 0 && Sat(k, s) ensures k.head.Some? && k.head.value in s {
        InstanceFires(progs, z, r, k);
      }
      ClosedHolds(t, s, f.subs[a], f.sups[b]);
    }
  }

  /**
   * End to end: in a consistent state where the rules of an axiom are enabled, the store satisfies the
   * axiom - if no disjunct is trivial and no variable serves twice.
   */
  lemma MaterialisedSatisfies(progs: seq<Prog>, z: Snapshot, t: GraphElementId, sub: ClassExpression, sup: ClassExpression)
    requires Layered(progs) && ConsistentState(progs, z) && AxiomExtractor(sub, sup).Some?
    requires forall c | c in AxiomExtractor(sub, sup).value.subs :: VariablesApart(c) && Mentions(c)
    requires forall r | IsCompiled(t, AxiomExtractor(sub, sup).value, r) :: EnabledSomewhere(progs, r)
    ensures Satisfies(StoreAs(t, z.Stored()), sub, sup)
  {
    MaterialisedRules(progs, z, t, AxiomExtractor(sub, sup).value);
    CompilationPreserves(StoreAs(t, z.Stored()), t, sub, sup);
  }

  lemma InstanceFires(progs: seq<Prog>, z: Snapshot, r: Rule, k: Clause)
    requires Layered(progs) && ConsistentState(progs, z) && EnabledSomewhere(progs, r)
    requires IsInstance(r, k) && Sat(k, z.Stored())
    ensures k.head.Some? && k.head.value in z.Stored()
  {
    var i, rid: nat :| 0 <= i < |progs| && rid < |progs[i].rules| && rid !in progs[i].disabled && progs[i].rules[rid] == r;
    var s :| Admits(r, s) && k == ClauseFor(k.prog, k.rid, r, s);
    var k' := ClauseFor(i, rid, r, s);
    assert IsInstance(r, k');
    assert k' in Enabled(progs[i]);
    assert k' in AllEnabled(progs);
    assert Sat(k', z.Stored());
  }
}
