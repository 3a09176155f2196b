/**
 * Exactly when compiling class inclusions preserves meaning, whatever variables existentials share: the
 * generated rules must derive each inclusion on the tree that its concept describes.
 */
module Frozen {
  import opened Syntax
  import opened Matching
  import opened Grounding
  import opened Seminaive
  import opened States
  import opened Eli
  import opened EliRules

  // ---- The tree a concept describes ----

  /** Elements are named by the way to the existential that asks for them; the root is the empty way. */
  type Way = seq<nat>

  /** The tree of `c`, read at element `e` and position `p`, has `z` in class `cls`. */
  ghost predicate HasClass(c: Concept, e: Way, p: Way, cls: GraphElementId, z: Way)
    decreases c
  {
    match c
    case Top => false
    case AtomicConcept(k) => k == cls && z == e
    case Intersection(parts) => exists k :: 0 <= k < |parts| && HasClass(parts[k], e, p + [k], cls, z)
    case Existential(_, f) => HasClass(f, p + [0], p + [0], cls, z)
  }

  /** `z` to `z'` is what the role says of `a` and `b`. */
  ghost predicate RoleIs(r: Role, id: GraphElementId, a: Way, b: Way, z: Way, z': Way)
    decreases r
  {
    match r
    case Property(k) => k == id && z == a && z' == b
    case InverseOf(inner) => RoleIs(inner, id, b, a, z, z')
  }

  ghost predicate HasRole(c: Concept, e: Way, p: Way, id: GraphElementId, z: Way, z': Way)
    decreases c
  {
    match c
    case Top => false
    case AtomicConcept(_) => false
    case Intersection(parts) => exists k :: 0 <= k < |parts| && HasRole(parts[k], e, p + [k], id, z, z')
    case Existential(r, f) => RoleIs(r, id, e, p + [0], z, z') || HasRole(f, p + [0], p + [0], id, z, z')
  }

  /** The least interpretation in which the root is an instance. */
  ghost function Tree(c: Concept): Interpretation<Way> {
    Interpretation(iset k: (GraphElementId, Way) | HasClass(c, [], [], k.0, k.1),
                   iset k: (GraphElementId, Way, Way) | HasRole(c, [], [], k.0, k.1, k.2), iset{})
  }

  ghost predicate Includes(i: Interpretation<Way>, c: Concept, e: Way, p: Way) {
    && (forall cls: GraphElementId, z: Way | HasClass(c, e, p, cls, z) :: (cls, z) in i.classes)
    && (forall id: GraphElementId, z: Way, z': Way | HasRole(c, e, p, id, z, z') :: (id, z, z') in i.roles)
  }

  lemma {:induction false} RoleInTree(i: Interpretation<Way>, r: Role, a: Way, b: Way)
    requires forall id: GraphElementId, z: Way, z': Way | RoleIs(r, id, a, b, z, z') :: (id, z, z') in i.roles
    ensures Related(i, r, a, b)
    decreases r
  {
    match r
    case Property(k) => assert RoleIs(r, k, a, b, a, b);
    case InverseOf(inner) =>
      assert forall id: GraphElementId, z: Way, z': Way | RoleIs(inner, id, b, a, z, z') :: RoleIs(r, id, a, b, z, z');
      RoleInTree(i, inner, b, a);
  }

  lemma {:induction false} TreeInstance(i: Interpretation<Way>, c: Concept, e: Way, p: Way)
    requires Includes(i, c, e, p)
    ensures Instance(i, c, e)
    decreases c
  {
    match c
    case Top =>
    case AtomicConcept(k) => assert HasClass(c, e, p, k, e);
    case Intersection(parts) =>
      forall k | 0 <= k < |parts| ensures Instance(i, parts[k], e) {
        assert forall cls: GraphElementId, z: Way | HasClass(parts[k], e, p + [k], cls, z) :: HasClass(c, e, p, cls, z);
        assert forall id: GraphElementId, z: Way, z': Way | HasRole(parts[k], e, p + [k], id, z, z') :: HasRole(c, e, p, id, z, z');
        TreeInstance(i, parts[k], e, p + [k]);
      }
    case Existential(r, f) =>
      var w := p + [0];
      assert forall cls: GraphElementId, z: Way | HasClass(f, w, w, cls, z) :: HasClass(c, e, p, cls, z);
      assert forall id: GraphElementId, z: Way, z': Way | HasRole(f, w, w, id, z, z') || RoleIs(r, id, e, w, z, z') :: HasRole(c, e, p, id, z, z');
      TreeInstance(i, f, w, w);
      RoleInTree(i, r, e, w);
  }

  // ---- Closing the tree under the rules ----

  /** The body of rule `a`, `b` holds under `m` with `e` for the rule's variable. */
  ghost predicate FiresBy(j: Interpretation<Way>, t: GraphElementId, f: Formula, a: nat, b: nat, m: map<string, Way>) {
    a < |f.subs| && b < |f.sups| && "X" in m && BodyHolds(j, TranslateEli(t, f.subs[a], "X", 1), m)
  }

  ghost predicate Fires(j: Interpretation<Way>, t: GraphElementId, f: Formula, cls: GraphElementId, e: Way) {
    exists a: nat, b: nat, m: map<string, Way> :: FiresBy(j, t, f, a, b, m) && f.sups[b] == cls && m["X"] == e
  }

  /** The tree after `n` rounds of the rules. */
  ghost function Stage(t: GraphElementId, f: Formula, c: Concept, n: nat): Interpretation<Way> {
    if n == 0 then Tree(c)
    else
      var j := Stage(t, f, c, n - 1);
      Interpretation(j.classes + (iset k: (GraphElementId, Way) | Fires(j, t, f, k.0, k.1)), j.roles, iset{})
  }

  lemma {:induction false} StageGrows(t: GraphElementId, f: Formula, c: Concept, m: nat, n: nat)
    requires m <= n
    ensures Stage(t, f, c, m).classes <= Stage(t, f, c, n).classes && Stage(t, f, c, n).roles == Tree(c).roles
    decreases n
  {
    if n > 0 {
      StageGrows(t, f, c, if m == n then n - 1 else m, n - 1);
    }
  }

  ghost predicate AtSomeStage(t: GraphElementId, f: Formula, c: Concept, cls: GraphElementId, z: Way) {
    exists n: nat :: (cls, z) in Stage(t, f, c, n).classes
  }

  /** The tree closed under the rules. */
  ghost function Closed(t: GraphElementId, f: Formula, c: Concept): Interpretation<Way> {
    Interpretation((iset k: (GraphElementId, Way) | AtSomeStage(t, f, c, k.0, k.1)), Tree(c).roles, iset{})
  }

  /** Finitely many atoms hold at a common stage. */
  lemma {:induction false} CommonStage(t: GraphElementId, f: Formula, c: Concept, ps: seq<QuadPattern>, m: map<string, Way>) returns (n: nat)
    requires BodyHolds(Closed(t, f, c), ps, m)
    ensures BodyHolds(Stage(t, f, c, n), ps, m)
  {
    if ps == [] {
      n := 0;
    } else {
      var p := ps[0];
      assert p in ps && forall q | q in ps[1..] :: q in ps;
      var n1 := CommonStage(t, f, c, ps[1..], m);
      assert AtomHolds(Closed(t, f, c), p, m);
      var n0: nat := 0;
      if p.obj.Resource? {
        n0 :| (p.obj.id, m[p.subject.name]) in Stage(t, f, c, n0).classes;
      }
      n := if n0 < n1 then n1 else n0;
      StageGrows(t, f, c, n0, n);
      StageGrows(t, f, c, n1, n);
      StageGrows(t, f, c, n1, n1);
      AtLater(Stage(t, f, c, n1), Stage(t, f, c, n), ps[1..], m);
      assert AtomHolds(Stage(t, f, c, n), p, m);
      forall q | q in ps ensures AtomHolds(Stage(t, f, c, n), q, m) {
        if q != p { assert q in ps[1..]; }
      }
    }
  }

  lemma AtLater(i: Interpretation<Way>, j: Interpretation<Way>, ps: seq<QuadPattern>, m: map<string, Way>)
    requires i.classes <= j.classes && i.roles == j.roles && BodyHolds(i, ps, m)
    ensures BodyHolds(j, ps, m)
  {
    forall p | p in ps ensures AtomHolds(j, p, m) {
      assert AtomHolds(i, p, m);
    }
  }

  /** The closed tree satisfies every rule, and its root is an instance. */
  lemma ClosedModel(t: GraphElementId, f: Formula, c: Concept)
    ensures RulesHold(Closed(t, f, c), t, f) && Instance(Closed(t, f, c), c, [])
  {
    var i := Closed(t, f, c);
    forall r | IsCompiled(t, f, r) ensures RuleHolds(i, r) {
      var a: nat, b: nat :| a < |f.subs| && b < |f.sups| && r == SimpleSubclass(t, f.subs[a], f.sups[b]);
      ClosedRule(t, f, c, a, b);
    }
    assert forall cls: GraphElementId, z: Way | HasClass(c, [], [], cls, z) :: (cls, z) in Stage(t, f, c, 0).classes;
    TreeInstance(i, c, [], []);
  }

  lemma ClosedRule(t: GraphElementId, f: Formula, c: Concept, a: nat, b: nat)
    requires a < |f.subs| && b < |f.sups|
    ensures RuleHolds(Closed(t, f, c), SimpleSubclass(t, f.subs[a], f.sups[b]))
  {
    var i, rule, ps := Closed(t, f, c), SimpleSubclass(t, f.subs[a], f.sups[b]), TranslateEli(t, f.subs[a], "X", 1);
    PositivesOfBody(ps);
    assert PatternVars(rule.head.pattern) == {"X"};
    forall m: map<string, Way> | PatternVars(rule.head.pattern) <= m.Keys && BodyHolds(i, Positives(rule.body), m)
      ensures AtomHolds(i, rule.head.pattern, m)
    {
      var n := CommonStage(t, f, c, ps, m);
      assert "X" in m && FiresBy(Stage(t, f, c, n), t, f, a, b, m);
      assert (f.sups[b], m["X"]) in Stage(t, f, c, n + 1).classes;
    }
  }

  // ---- Every instance carries an image of the tree ----

  /** Some element that an instance of an existential relates to. */
  ghost function Filler<D(!new)>(i: Interpretation<D>, r: Role, f: Concept, x: D): (y: D)
    requires Instance(i, Existential(r, f), x)
    ensures Related(i, r, x, y) && Instance(i, f, y)
  {
    var y :| Related(i, r, x, y) && Instance(i, f, y);
    y
  }

  /** Where the element at position `q` of the tree of `c` goes when its root goes to `x`. */
  ghost function Image<D(!new)>(i: Interpretation<D>, c: Concept, x: D, q: Way): D
    requires Instance(i, c, x)
    decreases c
  {
    if q == [] then x
    else
      match c
      case Intersection(parts) => if q[0] < |parts| then Image(i, parts[q[0]], x, q[1..]) else x
      case Existential(r, f) => Image(i, f, Filler(i, r, f, x), q[1..])
      case _ => x
  }

  lemma {:induction false} RoleImage<D(!new)>(i: Interpretation<D>, r: Role, id: GraphElementId, a: Way, b: Way, z: Way, z': Way, h: Way -> D)
    requires RoleIs(r, id, a, b, z, z') && Related(i, r, h(a), h(b))
    ensures (id, h(z), h(z')) in i.roles
    decreases r
  {
    if r.InverseOf? {
      RoleImage(i, r.role, id, b, a, z, z', h);
    }
  }

  lemma {:induction false} ClassImage<D(!new)>(i: Interpretation<D>, c: Concept, x: D, e: Way, p: Way, h: Way -> D, cls: GraphElementId, z: Way)
    requires Instance(i, c, x) && h(e) == x && forall q: Way | q != [] :: h(p + q) == Image(i, c, x, q)
    requires HasClass(c, e, p, cls, z)
    ensures (cls, h(z)) in i.classes
    decreases c
  {
    match c
    case Intersection(parts) =>
      var k: nat :| k < |parts| && HasClass(parts[k], e, p + [k], cls, z);
      PartImage(i, c, x, p, h, k);
      ClassImage(i, parts[k], x, e, p + [k], h, cls, z);
    case Existential(r, f) =>
      var y := FillerImage(i, c, x, p, h);
      ClassImage(i, f, y, p + [0], p + [0], h, cls, z);
    case _ =>
  }

  lemma {:induction false} RolesImage<D(!new)>(i: Interpretation<D>, c: Concept, x: D, e: Way, p: Way, h: Way -> D, id: GraphElementId, z: Way, z': Way)
    requires Instance(i, c, x) && h(e) == x && forall q: Way | q != [] :: h(p + q) == Image(i, c, x, q)
    requires HasRole(c, e, p, id, z, z')
    ensures (id, h(z), h(z')) in i.roles
    decreases c
  {
    match c
    case Intersection(parts) =>
      var k: nat :| k < |parts| && HasRole(parts[k], e, p + [k], id, z, z');
      PartImage(i, c, x, p, h, k);
      RolesImage(i, parts[k], x, e, p + [k], h, id, z, z');
    case Existential(r, f) =>
      var y := FillerImage(i, c, x, p, h);
      if RoleIs(r, id, e, p + [0], z, z') {
        RoleImage(i, r, id, e, p + [0], z, z', h);
      } else {
        RolesImage(i, f, y, p + [0], p + [0], h, id, z, z');
      }
    case _ =>
  }

  lemma PartImage<D(!new)>(i: Interpretation<D>, c: Concept, x: D, p: Way, h: Way -> D, k: nat)
    requires Instance(i, c, x) && c.Intersection? && k < |c.parts| && forall q: Way | q != [] :: h(p + q) == Image(i, c, x, q)
    ensures forall q: Way | q != [] :: h(p + [k] + q) == Image(i, c.parts[k], x, q)
  {
    forall q: Way | q != [] ensures h(p + [k] + q) == Image(i, c.parts[k], x, q) {
      assert p + [k] + q == p + ([k] + q) && ([k] + q)[1..] == q;
    }
  }

  lemma FillerImage<D(!new)>(i: Interpretation<D>, c: Concept, x: D, p: Way, h: Way -> D) returns (y: D)
    requires Instance(i, c, x) && c.Existential? && forall q: Way | q != [] :: h(p + q) == Image(i, c, x, q)
    ensures Related(i, c.role, x, y) && Instance(i, c.filler, y) && h(p + [0]) == y
    ensures forall q: Way | q != [] :: h(p + [0] + q) == Image(i, c.filler, y, q)
  {
    y := Filler(i, c.role, c.filler, x);
    var one: Way := [0];
    assert one != [] && one[1..] == [];
    assert h(p + one) == Image(i, c, x, one) == y;
    assert one == [0];
    forall q: Way | q != [] ensures h(p + [0] + q) == Image(i, c.filler, y, q) {
      assert p + [0] + q == p + ([0] + q) && ([0] + q)[1..] == q;
    }
  }

  /** In an interpretation that satisfies the rules, the image of every stage is there. */
  lemma {:induction false} StageImage<D(!new)>(i: Interpretation<D>, t: GraphElementId, f: Formula, c: Concept, x: D, h: Way -> D, n: nat)
    requires RulesHold(i, t, f) && Instance(i, c, x) && forall q: Way :: h(q) == Image(i, c, x, q)
    ensures forall cls: GraphElementId, z: Way | (cls, z) in Stage(t, f, c, n).classes :: (cls, h(z)) in i.classes
    ensures forall id: GraphElementId, z: Way, z': Way | (id, z, z') in Stage(t, f, c, n).roles :: (id, h(z), h(z')) in i.roles
    decreases n
  {
    if n == 0 {
      assert forall q: Way :: [] + q == q;
      forall cls: GraphElementId, z: Way | HasClass(c, [], [], cls, z) ensures (cls, h(z)) in i.classes {
        ClassImage(i, c, x, [], [], h, cls, z);
      }
      forall id: GraphElementId, z: Way, z': Way | HasRole(c, [], [], id, z, z') ensures (id, h(z), h(z')) in i.roles {
        RolesImage(i, c, x, [], [], h, id, z, z');
      }
    } else {
      StageImage(i, t, f, c, x, h, n - 1);
      var j := Stage(t, f, c, n - 1);
      forall cls: GraphElementId, z: Way | Fires(j, t, f, cls, z) ensures (cls, h(z)) in i.classes {
        var a: nat, b: nat, m: map<string, Way> :| FiresBy(j, t, f, a, b, m) && f.sups[b] == cls && m["X"] == z;
        FiringImage(i, j, t, f, a, b, m, h);
      }
    }
  }

  lemma FiringImage<D(!new)>(i: Interpretation<D>, j: Interpretation<Way>, t: GraphElementId, f: Formula, a: nat, b: nat, m: map<string, Way>, h: Way -> D)
    requires RulesHold(i, t, f) && FiresBy(j, t, f, a, b, m)
    requires forall cls: GraphElementId, z: Way | (cls, z) in j.classes :: (cls, h(z)) in i.classes
    requires forall id: GraphElementId, z: Way, z': Way | (id, z, z') in j.roles :: (id, h(z), h(z')) in i.roles
    ensures (f.sups[b], h(m["X"])) in i.classes
  {
    var rule, ps := SimpleSubclass(t, f.subs[a], f.sups[b]), TranslateEli(t, f.subs[a], "X", 1);
    var m' := map v | v in m :: h(m[v]);
    PositivesOfBody(ps);
    assert IsCompiled(t, f, rule);
    assert PatternVars(rule.head.pattern) == {"X"};
    forall p | p in ps ensures AtomHolds(i, p, m') {
      assert AtomHolds(j, p, m);
    }
    assert AtomHolds(i, rule.head.pattern, m');
  }

  // ---- The exact condition ----

  /** On the tree of each disjunct the rules derive every class of the conjunction for the root. */
  ghost predicate Entailed(t: GraphElementId, f: Formula) {
    forall c, s | c in f.subs && s in f.sups :: AtSomeStage(t, f, c, s, [])
  }

  /** Then compilation preserves meaning, in every interpretation. */
  lemma EntailedPreserves<D(!new)>(i: Interpretation<D>, t: GraphElementId, sub: ClassExpression, sup: ClassExpression)
    requires AxiomExtractor(sub, sup).Some? && Entailed(t, AxiomExtractor(sub, sup).value)
    ensures Satisfies(i, sub, sup) <==> RulesHold(i, t, AxiomExtractor(sub, sup).value)
  {
    var f := AxiomExtractor(sub, sup).value;
    ExtractionPreserves(i, sub, sup);
    if Satisfies(i, sub, sup) {
      CompilationSound(i, t, sub, sup);
    }
    if RulesHold(i, t, f) {
      forall c, x | c in f.subs && Instance(i, c, x) ensures InAll(i, f.sups, x) {
        forall s | s in f.sups ensures (s, x) in i.classes {
          var n: nat :| (s, []) in Stage(t, f, c, n).classes;
          var h: Way -> D := q => if Instance(i, c, x) then Image(i, c, x, q) else x;
          StageImage(i, t, f, c, x, h, n);
        }
      }
    }
  }

  /** And otherwise it does not: some interpretation satisfies the rules and violates the axiom. */
  lemma NotEntailedLoses(t: GraphElementId, sub: ClassExpression, sup: ClassExpression) returns (i: Interpretation<Way>)
    requires AxiomExtractor(sub, sup).Some? && !Entailed(t, AxiomExtractor(sub, sup).value)
    ensures RulesHold(i, t, AxiomExtractor(sub, sup).value) && !Satisfies(i, sub, sup)
  {
    var f := AxiomExtractor(sub, sup).value;
    var c, s :| c in f.subs && s in f.sups && !AtSomeStage(t, f, c, s, []);
    i := Closed(t, f, c);
    ClosedModel(t, f, c);
    ExtractionPreserves(i, sub, sup);
  }

  /** Variables that serve once are one way to meet the condition. */
  lemma ApartEntailed(t: GraphElementId, f: Formula)
    requires forall c | c in f.subs :: VariablesApart(c)
    ensures Entailed(t, f)
  {
    forall c, s | c in f.subs && s in f.sups ensures AtSomeStage(t, f, c, s, []) {
      ClosedModel(t, f, c);
      var a :| 0 <= a < |f.subs| && f.subs[a] == c;
      var b :| 0 <= b < |f.sups| && f.sups[b] == s;
      assert IsCompiled(t, f, SimpleSubclass(t, f.subs[a], f.sups[b]));
      RuleMeans(Closed(t, f, c), t, c, s);
      var root: Way := [];
      assert Instance(Closed(t, f, c), c, root);
      assert (s, root) in Closed(t, f, c).classes;
    }
  }

  /** So a consistent store with the rules enabled satisfies the axiom, even where variables are shared. */
  lemma MaterialisedEntailed(progs: seq<Prog>, z: Snapshot, t: GraphElementId, sub: ClassExpression, sup: ClassExpression)
    requires Layered(progs) && ConsistentState(progs, z) && AxiomExtractor(sub, sup).Some?
    requires Entailed(t, AxiomExtractor(sub, sup).value) && forall c | c in AxiomExtractor(sub, sup).value.subs :: Mentions(c)
    requires forall r | IsCompiled(t, AxiomExtractor(sub, sup).value, r) :: EnabledSomewhere(progs, r)
    ensures Satisfies(StoreAs(t, z.Stored()), sub, sup)
  {
    MaterialisedRules(progs, z, t, AxiomExtractor(sub, sup).value);
    EntailedPreserves(StoreAs(t, z.Stored()), t, sub, sup);
  }

  // ---- One rule for a new class ----

  ghost predicate Names(c: Concept, cls: GraphElementId)
    decreases c
  {
    match c
    case Top => false
    case AtomicConcept(k) => k == cls
    case Intersection(parts) => exists k :: 0 <= k < |parts| && Names(parts[k], cls)
    case Existential(_, f) => Names(f, cls)
  }

  lemma {:induction false} TreeNames(c: Concept, e: Way, p: Way, cls: GraphElementId, z: Way)
    requires HasClass(c, e, p, cls, z)
    ensures Names(c, cls)
    decreases c
  {
    match c
    case Intersection(parts) =>
      var k: nat :| k < |parts| && HasClass(parts[k], e, p + [k], cls, z);
      TreeNames(parts[k], e, p + [k], cls, z);
    case Existential(_, f) => TreeNames(f, p + [0], p + [0], cls, z);
    case _ =>
  }

  lemma OutsideTree(c: Concept, cls: GraphElementId)
    ensures Names(c, cls) || forall z: Way :: (cls, z) !in Tree(c).classes
  {
    forall z: Way | HasClass(c, [], [], cls, z) ensures Names(c, cls) {
      TreeNames(c, [], [], cls, z);
    }
  }

  lemma {:induction false} RoleNames(r: Role, v: string, w: string)
    ensures RolePattern(r, v, w).obj.Variable?
    decreases r
  {
    if r.InverseOf? { RoleNames(r.role, w, v); }
  }

  lemma {:induction false} BodyNames(t: GraphElementId, c: Concept, v: string, clause: nat)
    ensures forall p | p in TranslateEli(t, c, v, clause) && p.obj.Resource? :: Names(c, p.obj.id)
    decreases c
  {
    match c
    case Intersection(parts) => BodyAllNames(t, parts, v, 1);
    case Existential(r, f) =>
      RoleNames(r, v, NewVar(v, clause));
      BodyNames(t, f, NewVar(v, clause), 1);
    case _ =>
  }

  lemma {:induction false} BodyAllNames(t: GraphElementId, cs: seq<Concept>, v: string, clause: nat)
    ensures forall p | p in TranslateAll(t, cs, v, clause) && p.obj.Resource? :: exists k :: 0 <= k < |cs| && Names(cs[k], p.obj.id)
    decreases cs
  {
    if cs != [] {
      BodyNames(t, cs[0], v, clause);
      BodyAllNames(t, cs[1..], v, clause + 1);
      forall p | p in TranslateAll(t, cs, v, clause) && p.obj.Resource? ensures exists k :: 0 <= k < |cs| && Names(cs[k], p.obj.id) {
        if p in TranslateEli(t, cs[0], v, clause) {
          assert Names(cs[0], p.obj.id);
        } else {
          var k :| 0 <= k < |cs| - 1 && Names(cs[1..][k], p.obj.id);
          assert Names(cs[k + 1], p.obj.id);
        }
      }
    }
  }

  /** What a rule for a class outside its body derives does not help it fire again. */
  lemma {:induction false} StageNames(t: GraphElementId, c: Concept, s: GraphElementId, n: nat)
    requires !Names(c, s)
    ensures var f := DirectInclusion([c], [s]);
            && (forall cls: GraphElementId, z: Way | cls != s && (cls, z) in Stage(t, f, c, n).classes :: (cls, z) in Tree(c).classes)
            && (forall z: Way | (s, z) in Stage(t, f, c, n).classes :: Fires(Tree(c), t, f, s, z))
    decreases n
  {
    var f, ps := DirectInclusion([c], [s]), TranslateEli(t, c, "X", 1);
    if n == 0 {
      OutsideTree(c, s);
    } else {
      StageNames(t, c, s, n - 1);
      StageGrows(t, f, c, n - 1, n - 1);
      BodyNames(t, c, "X", 1);
      forall z: Way | Fires(Stage(t, f, c, n - 1), t, f, s, z) ensures Fires(Tree(c), t, f, s, z) {
        var a: nat, b: nat, m: map<string, Way> :| FiresBy(Stage(t, f, c, n - 1), t, f, a, b, m) && f.sups[b] == s && m["X"] == z;
        forall p | p in ps ensures AtomHolds(Tree(c), p, m) {
          assert AtomHolds(Stage(t, f, c, n - 1), p, m);
        }
        assert FiresBy(Tree(c), t, f, a, b, m);
      }
    }
  }

  /**
   * For one concept and one class that it does not name, the condition is a homomorphism: the compiled body
   * maps into the tree of the concept with the rule's variable at the root.
   */
  lemma MapsToRoot(t: GraphElementId, c: Concept, s: GraphElementId)
    requires !Names(c, s)
    ensures Entailed(t, DirectInclusion([c], [s])) <==>
            exists m: map<string, Way> :: "X" in m && m["X"] == [] && BodyHolds(Tree(c), TranslateEli(t, c, "X", 1), m)
  {
    var f := DirectInclusion([c], [s]);
    if Entailed(t, f) {
      assert c in f.subs && s in f.sups;
      var n: nat :| (s, []) in Stage(t, f, c, n).classes;
      StageNames(t, c, s, n);
      var root: Way := [];
      var a: nat, b: nat, m: map<string, Way> :| FiresBy(Tree(c), t, f, a, b, m) && f.sups[b] == s && m["X"] == root;
    }
    if m: map<string, Way> :| "X" in m && m["X"] == [] && BodyHolds(Tree(c), TranslateEli(t, c, "X", 1), m) {
      assert FiresBy(Stage(t, f, c, 0), t, f, 0, 0, m);
      var root: Way := [];
      assert Fires(Stage(t, f, c, 0), t, f, s, root);
      assert (s, root) in Stage(t, f, c, 1).classes;
    }
  }

  /** A shared variable does no harm where one existential can stand for both. */
  lemma SharedHarmless(t: GraphElementId) returns (c: Concept)
    ensures !VariablesApart(c) && Entailed(t, DirectInclusion([c], [5]))
  {
    var e, b := Existential(Property(1), AtomicConcept(3)), AtomicConcept(4);
    var inner := Intersection([e, b]);
    c := Intersection([e, inner]);
    var x1 := NewVar("X", 1);
    SharedNames(e, b, inner, x1);
    SharedBody(t, e, b, inner, x1);
    var root: Way, way: Way := [], [0, 0];
    var m: map<string, Way> := map["X" := root, x1 := way];
    SharedTree(e, b, inner);
    assert x1 != "X" by { assert |x1| > 1; }
    assert BodyHolds(Tree(c), TranslateEli(t, c, "X", 1), m);
    assert "X" in m && m["X"] == root;
    MapsToRoot(t, c, 5);
  }

  lemma SharedNames(e: Concept, b: Concept, inner: Concept, x1: string)
    requires e == Existential(Property(1), AtomicConcept(3)) && b == AtomicConcept(4) && inner == Intersection([e, b]) && x1 == NewVar("X", 1)
    ensures !VariablesApart(Intersection([e, inner]))
  {
    assert MadeUp(e, "X", 1) == [x1] + [] == [x1];
    assert [e, b][1..] == [b] && [b][1..] == [] && [e, inner][1..] == [inner] && [inner][1..] == [];
    assert MadeUpAll([b], "X", 2) == [] + MadeUpAll([b][1..], "X", 3) == [];
    assert MadeUpAll([e, b], "X", 1) == [x1] + [];
    assert MadeUpAll([inner], "X", 2) == [x1] + MadeUpAll([inner][1..], "X", 3);
    var names := MadeUpAll([e, inner], "X", 1);
    assert names == [x1] + [x1];
    assert names[0] == names[1];
  }

  lemma SharedBody(t: GraphElementId, e: Concept, b: Concept, inner: Concept, x1: string)
    requires e == Existential(Property(1), AtomicConcept(3)) && b == AtomicConcept(4) && inner == Intersection([e, b]) && x1 == NewVar("X", 1)
    ensures forall p | p in TranslateEli(t, Intersection([e, inner]), "X", 1) ::
              p in [RolePattern(Property(1), "X", x1), TypePattern(t, x1, 3), TypePattern(t, "X", 4)]
  {
    assert [e, b][1..] == [b] && [e, inner][1..] == [inner];
    TranslateOne(t, b, "X", 2);
    TranslateOne(t, inner, "X", 2);
    var pr, pe, pb := RolePattern(Property(1), "X", x1), TypePattern(t, x1, 3), TypePattern(t, "X", 4);
    assert TranslateEli(t, e, "X", 1) == [pr] + [pe];
    assert TranslateEli(t, inner, "X", 2) == TranslateAll(t, [e, b], "X", 1) == ([pr] + [pe]) + [pb];
    assert TranslateEli(t, Intersection([e, inner]), "X", 1) == ([pr] + [pe]) + (([pr] + [pe]) + [pb]);
  }

  lemma SharedTree(e: Concept, b: Concept, inner: Concept)
    requires e == Existential(Property(1), AtomicConcept(3)) && b == AtomicConcept(4) && inner == Intersection([e, b])
    ensures var c, root: Way, way: Way := Intersection([e, inner]), [], [0, 0];
            && !Names(c, 5) && HasRole(c, root, root, 1, root, way) && HasClass(c, root, root, 3, way) && HasClass(c, root, root, 4, root)
  {
    var c := Intersection([e, inner]);
    var root: Way, way: Way := [], [0, 0];
    assert c.parts == [e, inner] && inner.parts == [e, b];
    assert root + [0] + [0] == way;
    assert RoleIs(e.role, 1, root, way, root, way);
    assert HasRole(c.parts[0], root, root + [0], 1, root, way);
    assert HasClass(c.parts[0], root, root + [0], 3, way);
    assert HasClass(inner.parts[1], root, root + [1] + [1], 4, root);
    assert HasClass(c.parts[1], root, root + [1], 4, root);
    assert !Names(e, 5) && !Names(b, 5) && !Names(inner, 5);
  }
}
