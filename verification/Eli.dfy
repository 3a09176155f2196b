/**
 * Compiling class inclusions to rules: the direct path from `SubClassOf` to Horn rules.
 *
 * The first half, from an axiom to an inclusion of simple concepts in a conjunction of classes.
 */
module Eli {
  import opened Syntax

  /** Classes and properties are named by their interned identifiers. */
  datatype Role = Property(id: GraphElementId) | InverseOf(role: Role)

  datatype ClassExpression =
    | ClassName(cls: GraphElementId)
    | IntersectionOf(parts: seq<ClassExpression>)
    | UnionOf(parts: seq<ClassExpression>)
    | SomeValuesFrom(role: Role, filler: ClassExpression)
    | MinQualifiedCardinality(card: int, role: Role, filler: ClassExpression)
    | OtherExpression(kind: nat)

  /** The sub-concepts that translate directly. */
  datatype Concept =
    | Top
    | AtomicConcept(cls: GraphElementId)
    | Intersection(parts: seq<Concept>)
    | Existential(role: Role, filler: Concept)

  /** A disjunction of concepts is included in a conjunction of classes. */
  datatype Formula = DirectInclusion(subs: seq<Concept>, sups: seq<GraphElementId>)

  // ---- Direct semantics ----

  /** What names denote over a domain `D`; expressions that are never translated are left to `others`. */
  datatype Interpretation<!D(==)> =
    Interpretation(classes: iset<(GraphElementId, D)>, roles: iset<(GraphElementId, D, D)>, others: iset<(nat, D)>)

  ghost predicate Related<D(!new)>(i: Interpretation<D>, r: Role, x: D, y: D) {
    match r
    case Property(id) => (id, x, y) in i.roles
    case InverseOf(p) => Related(i, p, y, x)
  }

  ghost predicate Member<D(!new)>(i: Interpretation<D>, e: ClassExpression, x: D)
    decreases e
  {
    match e
    case ClassName(c) => (c, x) in i.classes
    case IntersectionOf(ps) => forall k | 0 <= k < |ps| :: Member(i, ps[k], x)
    case UnionOf(ps) => exists k :: 0 <= k < |ps| && Member(i, ps[k], x)
    case SomeValuesFrom(r, f) => exists y :: Related(i, r, x, y) && Member(i, f, y)
    case MinQualifiedCardinality(n, r, f) =>
      exists ys: seq<D> :: |ys| >= n && NoDup(ys) && forall k | 0 <= k < |ys| :: Related(i, r, x, ys[k]) && Member(i, f, ys[k])
    case OtherExpression(kind) => (kind, x) in i.others
  }

  ghost predicate Satisfies<D(!new)>(i: Interpretation<D>, sub: ClassExpression, sup: ClassExpression) {
    forall x | Member(i, sub, x) :: Member(i, sup, x)
  }

  ghost predicate Instance<D(!new)>(i: Interpretation<D>, c: Concept, x: D)
    decreases c
  {
    match c
    case Top => true
    case AtomicConcept(cls) => (cls, x) in i.classes
    case Intersection(ps) => forall k | 0 <= k < |ps| :: Instance(i, ps[k], x)
    case Existential(r, f) => exists y :: Related(i, r, x, y) && Instance(i, f, y)
  }

  // ---- Extraction ----

  function ClassExtractor(e: ClassExpression): (c: Option<Concept>)
    decreases e
  {
    match e
    case ClassName(cls) => Some(AtomicConcept(cls))
    case IntersectionOf(ps) =>
      var parts := ExtractAll(ps);
      if parts.Some? then Some(Intersection(parts.value)) else None
    case SomeValuesFrom(r, f) =>
      var inner := ClassExtractor(f);
      if inner.Some? then Some(Existential(r, inner.value)) else None
    case MinQualifiedCardinality(n, r, f) =>
      if n != 1 then None
      else
        var inner := ClassExtractor(f);
        if inner.Some? then Some(Existential(r, inner.value)) else None
    case _ => None
  }

  /** All or nothing. */
  function ExtractAll(es: seq<ClassExpression>): (cs: Option<seq<Concept>>)
    decreases es
  {
    if es == [] then Some([])
    else
      var first, rest := ClassExtractor(es[0]), ExtractAll(es[1..]);
      if first.Some? && rest.Some? then Some([first.value] + rest.value) else None
  }

  function Size(e: ClassExpression): nat
    decreases e
  {
    match e
    case ClassName(_) => 0
    case IntersectionOf(ps) => 1 + SizeAll(ps)
    case UnionOf(ps) => 1 + SizeAll(ps)
    case SomeValuesFrom(_, f) => 1 + Size(f)
    case MinQualifiedCardinality(_, _, f) => 1 + Size(f)
    case OtherExpression(_) => 0
  }

  function SizeAll(es: seq<ClassExpression>): nat
    decreases es
  {
    if es == [] then 0 else 1 + Size(es[0]) + SizeAll(es[1..])
  }

  /** The disjuncts of a sub-class, with quantifiers distributed over the unions directly below them. */
  function SubClassExtractor(e: ClassExpression): (cs: seq<Option<Concept>>)
    decreases Size(e), 0
  {
    match e
    case UnionOf(ps) => SubClassesOf(ps)
    case SomeValuesFrom(r, f) =>
      if f.UnionOf? then
        assert Size(f) == 1 + SizeAll(f.parts);
        SubClassesUnder(r, f.parts)
      else [ClassExtractor(e)]
    case MinQualifiedCardinality(n, r, f) =>
      if n == 1 && f.UnionOf? then
        assert Size(f) == 1 + SizeAll(f.parts);
        SubClassesUnder(r, f.parts)
      else [ClassExtractor(e)]
    case _ => [ClassExtractor(e)]
  }

  function SubClassesOf(es: seq<ClassExpression>): (cs: seq<Option<Concept>>)
    decreases SizeAll(es), 1
  {
    if es == [] then [] else SubClassExtractor(es[0]) + SubClassesOf(es[1..])
  }

  function SubClassesUnder(r: Role, es: seq<ClassExpression>): (cs: seq<Option<Concept>>)
    decreases 1 + SizeAll(es), 1
  {
    if es == [] then [] else SubClassExtractor(SomeValuesFrom(r, es[0])) + SubClassesUnder(r, es[1..])
  }

  /** The conjuncts of a super-class. */
  function SuperClassExtractor(e: ClassExpression): (cs: Option<seq<GraphElementId>>)
    decreases e
  {
    match e
    case IntersectionOf(ps) => SuperClassesOf(ps)
    case ClassName(cls) => Some([cls])
    case _ => None
  }

  function SuperClassesOf(es: seq<ClassExpression>): (cs: Option<seq<GraphElementId>>)
    decreases es
  {
    if es == [] then Some([])
    else
      var first, rest := SuperClassExtractor(es[0]), SuperClassesOf(es[1..]);
      if first.Some? && rest.Some? then Some(first.value + rest.value) else None
  }

  function Flatten<T>(cs: seq<Option<T>>): Option<seq<T>> {
    if cs == [] then Some([])
    else
      var rest := Flatten(cs[1..]);
      if cs[0].Some? && rest.Some? then Some([cs[0].value] + rest.value) else None
  }

  /** The direct path; `None` stands for the structural normalisation, which is not part of this model. */
  function AxiomExtractor(sub: ClassExpression, sup: ClassExpression): Option<Formula> {
    var subs, sups := Flatten(SubClassExtractor(sub)), SuperClassExtractor(sup);
    if subs.Some? && sups.Some? then Some(DirectInclusion(subs.value, sups.value)) else None
  }

  // ---- What is extracted ----

  /** Built from names, intersections, existentials and cardinality exactly one. */
  predicate Simple(e: ClassExpression) {
    match e
    case ClassName(_) => true
    case IntersectionOf(ps) => forall k | 0 <= k < |ps| :: Simple(ps[k])
    case SomeValuesFrom(_, f) => Simple(f)
    case MinQualifiedCardinality(n, _, f) => n == 1 && Simple(f)
    case _ => false
  }

  /** Simple expressions, or unions of unions of them. */
  predicate Alternatives(e: ClassExpression) {
    match e
    case UnionOf(ps) => forall k | 0 <= k < |ps| :: Alternatives(ps[k])
    case _ => Simple(e)
  }

  /** Unions only at the top, directly below each other, or directly below one quantifier in such a place. */
  predicate SubClassShape(e: ClassExpression) {
    match e
    case UnionOf(ps) => forall k | 0 <= k < |ps| :: SubClassShape(ps[k])
    case SomeValuesFrom(_, f) => Alternatives(f)
    case MinQualifiedCardinality(n, _, f) => n == 1 && Alternatives(f)
    case _ => Simple(e)
  }

  /** Built from names and intersections. */
  predicate SuperClassShape(e: ClassExpression) {
    match e
    case ClassName(_) => true
    case IntersectionOf(ps) => forall k | 0 <= k < |ps| :: SuperClassShape(ps[k])
    case _ => false
  }

  lemma {:induction false} SimpleExtracts(e: ClassExpression)
    ensures ClassExtractor(e).Some? <==> Simple(e)
    decreases e
  {
    match e
    case IntersectionOf(ps) => AllSimpleExtract(ps);
    case SomeValuesFrom(_, f) => SimpleExtracts(f);
    case MinQualifiedCardinality(_, _, f) => SimpleExtracts(f);
    case _ =>
  }

  lemma {:induction false} AllSimpleExtract(es: seq<ClassExpression>)
    ensures ExtractAll(es).Some? <==> forall k | 0 <= k < |es| :: Simple(es[k])
    decreases es
  {
    if es != [] {
      SimpleExtracts(es[0]);
      AllSimpleExtract(es[1..]);
      assert forall k | 0 < k < |es| :: es[k] == es[1..][k - 1];
      assert forall k | 0 <= k < |es| - 1 :: es[1..][k] == es[k + 1];
    }
  }

  lemma ExtractedConcat(a: seq<Option<Concept>>, b: seq<Option<Concept>>)
    ensures AllExtracted(a + b) <==> AllExtracted(a) && AllExtracted(b)
  {
    assert forall k | 0 <= k < |a| :: (a + b)[k] == a[k];
    assert forall k | 0 <= k < |b| :: (a + b)[|a| + k] == b[k];
  }

  lemma OneExtracts(e: ClassExpression)
    ensures AllExtracted([ClassExtractor(e)]) <==> Simple(e)
  {
    var cs := [ClassExtractor(e)];
    assert AllExtracted(cs) <==> cs[0].Some?;
    SimpleExtracts(e);
  }

  /** Every disjunct of a sub-class is extracted exactly if it has that shape. */
  lemma {:induction false} SubClassExtracts(e: ClassExpression)
    ensures AllExtracted(SubClassExtractor(e)) <==> SubClassShape(e)
    decreases Size(e), 0
  {
    match e
    case UnionOf(ps) =>
      SubClassesExtract(ps);
    case SomeValuesFrom(r, f) =>
      if f.UnionOf? {
        assert Size(f) == 1 + SizeAll(f.parts);
        SubClassesUnderExtract(r, f.parts);
      } else {
        OneExtracts(e);
      }
    case MinQualifiedCardinality(n, r, f) =>
      if n == 1 && f.UnionOf? {
        assert Size(f) == 1 + SizeAll(f.parts);
        SubClassesUnderExtract(r, f.parts);
      } else {
        OneExtracts(e);
      }
    case _ =>
      OneExtracts(e);
  }

  lemma {:induction false} SubClassesExtract(es: seq<ClassExpression>)
    ensures AllExtracted(SubClassesOf(es)) <==> forall k | 0 <= k < |es| :: SubClassShape(es[k])
    decreases SizeAll(es), 1
  {
    if es != [] {
      ExtractedConcat(SubClassExtractor(es[0]), SubClassesOf(es[1..]));
      SubClassExtracts(es[0]);
      SubClassesExtract(es[1..]);
      assert forall k | 0 < k < |es| :: es[k] == es[1..][k - 1];
      assert forall k | 0 <= k < |es| - 1 :: es[1..][k] == es[k + 1];
    }
  }

  lemma {:induction false} SubClassesUnderExtract(r: Role, es: seq<ClassExpression>)
    ensures AllExtracted(SubClassesUnder(r, es)) <==> forall k | 0 <= k < |es| :: Alternatives(es[k])
    decreases 1 + SizeAll(es), 1
  {
    if es != [] {
      ExtractedConcat(SubClassExtractor(SomeValuesFrom(r, es[0])), SubClassesUnder(r, es[1..]));
      SubClassExtracts(SomeValuesFrom(r, es[0]));
      SubClassesUnderExtract(r, es[1..]);
      assert forall k | 0 < k < |es| :: es[k] == es[1..][k - 1];
      assert forall k | 0 <= k < |es| - 1 :: es[1..][k] == es[k + 1];
    }
  }

  lemma {:induction false} SuperClassExtracts(e: ClassExpression)
    ensures SuperClassExtractor(e).Some? <==> SuperClassShape(e)
    decreases e
  {
    match e
    case IntersectionOf(ps) => SuperClassesExtract(ps);
    case _ =>
  }

  lemma {:induction false} SuperClassesExtract(es: seq<ClassExpression>)
    ensures SuperClassesOf(es).Some? <==> forall k | 0 <= k < |es| :: SuperClassShape(es[k])
    decreases es
  {
    if es != [] {
      SuperClassExtracts(es[0]);
      SuperClassesExtract(es[1..]);
      assert forall k | 0 < k < |es| :: es[k] == es[1..][k - 1];
      assert forall k | 0 <= k < |es| - 1 :: es[1..][k] == es[k + 1];
    }
  }

  /** An axiom takes the direct path exactly if both of its sides have the right shape. */
  lemma AxiomExtracts(sub: ClassExpression, sup: ClassExpression)
    ensures AxiomExtractor(sub, sup).Some? <==> SubClassShape(sub) && SuperClassShape(sup)
  {
    FlattenAll(SubClassExtractor(sub));
    SubClassExtracts(sub);
    SuperClassExtracts(sup);
  }

  // ---- Extraction keeps the meaning ----

  lemma {:induction false} ExtractMeans<D(!new)>(i: Interpretation<D>, e: ClassExpression, x: D)
    requires ClassExtractor(e).Some?
    ensures Instance(i, ClassExtractor(e).value, x) <==> Member(i, e, x)
    decreases e
  {
    match e
    case ClassName(_) =>
    case IntersectionOf(ps) =>
      ExtractAllMeans(i, ps, x);
    case SomeValuesFrom(r, f) =>
      forall y { ExtractMeans(i, f, y); }
    case MinQualifiedCardinality(n, r, f) =>
      forall y { ExtractMeans(i, f, y); }
      AtLeastOne(i, r, f, x);
    case _ =>
  }

  lemma {:induction false} ExtractAllMeans<D(!new)>(i: Interpretation<D>, es: seq<ClassExpression>, x: D)
    requires ExtractAll(es).Some?
    ensures |ExtractAll(es).value| == |es|
    ensures forall k | 0 <= k < |es| :: Instance(i, ExtractAll(es).value[k], x) <==> Member(i, es[k], x)
    decreases es
  {
    if es != [] {
      ExtractMeans(i, es[0], x);
      ExtractAllMeans(i, es[1..], x);
    }
  }

  /** At least one is some. */
  lemma AtLeastOne<D(!new)>(i: Interpretation<D>, r: Role, f: ClassExpression, x: D)
    ensures Member(i, MinQualifiedCardinality(1, r, f), x) <==> Member(i, SomeValuesFrom(r, f), x)
  {
    if Member(i, MinQualifiedCardinality(1, r, f), x) {
      var ys: seq<D> :| |ys| >= 1 && NoDup(ys) && forall k | 0 <= k < |ys| :: Related(i, r, x, ys[k]) && Member(i, f, ys[k]);
      assert Related(i, r, x, ys[0]) && Member(i, f, ys[0]);
    }
    if Member(i, SomeValuesFrom(r, f), x) {
      var y :| Related(i, r, x, y) && Member(i, f, y);
      var ys := [y];
      assert |ys| >= 1 && NoDup(ys) && forall k | 0 <= k < |ys| :: Related(i, r, x, ys[k]) && Member(i, f, ys[k]);
    }
  }

  ghost predicate AllExtracted(cs: seq<Option<Concept>>) {
    forall k | 0 <= k < |cs| :: cs[k].Some?
  }

  /** `x` is an instance of one of the disjuncts. */
  ghost predicate SomeInstance<D(!new)>(i: Interpretation<D>, cs: seq<Option<Concept>>, x: D) {
    exists k :: 0 <= k < |cs| && cs[k].Some? && Instance(i, cs[k].value, x)
  }

  lemma SomeInstanceConcat<D(!new)>(i: Interpretation<D>, a: seq<Option<Concept>>, b: seq<Option<Concept>>, x: D)
    ensures AllExtracted(a + b) <==> AllExtracted(a) && AllExtracted(b)
    ensures SomeInstance(i, a + b, x) <==> SomeInstance(i, a, x) || SomeInstance(i, b, x)
  {
    assert forall k | 0 <= k < |a| :: (a + b)[k] == a[k];
    assert forall k | 0 <= k < |b| :: (a + b)[|a| + k] == b[k];
  }

  /** Distributing unions, also out of existentials, keeps the meaning. */
  lemma {:induction false} SubClassMeans<D(!new)>(i: Interpretation<D>, e: ClassExpression, x: D)
    requires AllExtracted(SubClassExtractor(e))
    ensures SomeInstance(i, SubClassExtractor(e), x) <==> Member(i, e, x)
    decreases Size(e), 0
  {
    match e
    case UnionOf(ps) =>
      SubClassesMean(i, ps, x);
    case SomeValuesFrom(r, f) =>
      if f.UnionOf? {
        assert Size(f) == 1 + SizeAll(f.parts);
        SubClassesUnderMean(i, r, f.parts, x);
        ExistentialUnion(i, r, f.parts, x);
      } else {
        OneDisjunct(i, e, x);
      }
    case MinQualifiedCardinality(n, r, f) =>
      if n == 1 && f.UnionOf? {
        assert Size(f) == 1 + SizeAll(f.parts);
        SubClassesUnderMean(i, r, f.parts, x);
        ExistentialUnion(i, r, f.parts, x);
        AtLeastOne(i, r, f, x);
      } else {
        OneDisjunct(i, e, x);
      }
    case _ =>
      OneDisjunct(i, e, x);
  }

  lemma OneDisjunct<D(!new)>(i: Interpretation<D>, e: ClassExpression, x: D)
    requires AllExtracted([ClassExtractor(e)])
    ensures SomeInstance(i, [ClassExtractor(e)], x) <==> Member(i, e, x)
  {
    var cs := [ClassExtractor(e)];
    assert cs[0].Some?;
    ExtractMeans(i, e, x);
  }

  lemma ExistentialUnion<D(!new)>(i: Interpretation<D>, r: Role, es: seq<ClassExpression>, x: D)
    ensures Member(i, SomeValuesFrom(r, UnionOf(es)), x) <==>
            exists k :: 0 <= k < |es| && Member(i, SomeValuesFrom(r, es[k]), x)
  {
    if Member(i, SomeValuesFrom(r, UnionOf(es)), x) {
      var y :| Related(i, r, x, y) && Member(i, UnionOf(es), y);
      var k :| 0 <= k < |es| && Member(i, es[k], y);
      assert Member(i, SomeValuesFrom(r, es[k]), x);
    }
    forall k | 0 <= k < |es| && Member(i, SomeValuesFrom(r, es[k]), x)
      ensures Member(i, SomeValuesFrom(r, UnionOf(es)), x)
    {
      var y :| Related(i, r, x, y) && Member(i, es[k], y);
      assert Member(i, UnionOf(es), y);
    }
  }

  lemma {:induction false} SubClassesMean<D(!new)>(i: Interpretation<D>, es: seq<ClassExpression>, x: D)
    requires AllExtracted(SubClassesOf(es))
    ensures SomeInstance(i, SubClassesOf(es), x) <==> exists k :: 0 <= k < |es| && Member(i, es[k], x)
    decreases SizeAll(es), 1
  {
    if es != [] {
      SomeInstanceConcat(i, SubClassExtractor(es[0]), SubClassesOf(es[1..]), x);
      SubClassMeans(i, es[0], x);
      SubClassesMean(i, es[1..], x);
      assert forall k | 0 <= k < |es| - 1 :: es[1..][k] == es[k + 1];
      assert forall k | 0 < k < |es| :: es[k] == es[1..][k - 1];
    }
  }

  lemma {:induction false} SubClassesUnderMean<D(!new)>(i: Interpretation<D>, r: Role, es: seq<ClassExpression>, x: D)
    requires AllExtracted(SubClassesUnder(r, es))
    ensures SomeInstance(i, SubClassesUnder(r, es), x) <==> exists k :: 0 <= k < |es| && Member(i, SomeValuesFrom(r, es[k]), x)
    decreases 1 + SizeAll(es), 1
  {
    if es != [] {
      SomeInstanceConcat(i, SubClassExtractor(SomeValuesFrom(r, es[0])), SubClassesUnder(r, es[1..]), x);
      SubClassMeans(i, SomeValuesFrom(r, es[0]), x);
      SubClassesUnderMean(i, r, es[1..], x);
      assert forall k | 0 <= k < |es| - 1 :: es[1..][k] == es[k + 1];
      assert forall k | 0 < k < |es| :: es[k] == es[1..][k - 1];
    }
  }

  ghost predicate InAll<D(!new)>(i: Interpretation<D>, cs: seq<GraphElementId>, x: D) {
    forall c | c in cs :: (c, x) in i.classes
  }

  lemma {:induction false} SuperClassMeans<D(!new)>(i: Interpretation<D>, e: ClassExpression, x: D)
    requires SuperClassExtractor(e).Some?
    ensures InAll(i, SuperClassExtractor(e).value, x) <==> Member(i, e, x)
    decreases e
  {
    match e
    case IntersectionOf(ps) => SuperClassesMean(i, ps, x);
    case _ =>
  }

  lemma {:induction false} SuperClassesMean<D(!new)>(i: Interpretation<D>, es: seq<ClassExpression>, x: D)
    requires SuperClassesOf(es).Some?
    ensures InAll(i, SuperClassesOf(es).value, x) <==> forall k | 0 <= k < |es| :: Member(i, es[k], x)
    decreases es
  {
    if es != [] {
      SuperClassMeans(i, es[0], x);
      SuperClassesMean(i, es[1..], x);
      assert forall k | 0 < k < |es| :: es[k] == es[1..][k - 1];
      assert forall k | 0 <= k < |es| - 1 :: es[1..][k] == es[k + 1];
    }
  }

  lemma {:induction false} FlattenAll<T>(cs: seq<Option<T>>)
    ensures Flatten(cs).Some? <==> forall k | 0 <= k < |cs| :: cs[k].Some?
    ensures Flatten(cs).Some? ==> |Flatten(cs).value| == |cs| && forall k | 0 <= k < |cs| :: cs[k] == Some(Flatten(cs).value[k])
  {
    if cs != [] {
      FlattenAll(cs[1..]);
      assert forall k | 0 < k < |cs| :: cs[k] == cs[1..][k - 1];
      assert forall k | 0 <= k < |cs| - 1 :: cs[1..][k] == cs[k + 1];
    }
  }

  ghost predicate FormulaHolds<D(!new)>(i: Interpretation<D>, f: Formula) {
    forall c, x | c in f.subs && Instance(i, c, x) :: InAll(i, f.sups, x)
  }

  /** The extracted inclusion says what the axiom says. */
  lemma ExtractionPreserves<D(!new)>(i: Interpretation<D>, sub: ClassExpression, sup: ClassExpression)
    requires AxiomExtractor(sub, sup).Some?
    ensures FormulaHolds(i, AxiomExtractor(sub, sup).value) <==> Satisfies(i, sub, sup)
  {
    var opts, f := SubClassExtractor(sub), AxiomExtractor(sub, sup).value;
    FlattenAll(opts);
    forall x
      ensures Member(i, sub, x) <==> exists c :: c in f.subs && Instance(i, c, x)
      ensures Member(i, sup, x) <==> InAll(i, f.sups, x)
    {
      SubClassMeans(i, sub, x);
      SuperClassMeans(i, sup, x);
      if SomeInstance(i, opts, x) {
        var k :| 0 <= k < |opts| && opts[k].Some? && Instance(i, opts[k].value, x);
        assert f.subs[k] in f.subs && Instance(i, f.subs[k], x);
      }
      forall c | c in f.subs && Instance(i, c, x) ensures SomeInstance(i, opts, x) {
        var k :| 0 <= k < |f.subs| && f.subs[k] == c;
        assert opts[k] == Some(c);
      }
    }
  }
}
