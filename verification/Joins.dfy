/** Joining patterns against the store: rule bodies and basic graph patterns. */
module Joins {
  import opened Syntax
  import opened Matching
  import opened QuadTables
  import opened Grounding

  /** The component a term fixes, if it is not a variable. */
  function Fixed(t: Term): Option<GraphElementId> {
    match t
    case Resource(id) => Some(id)
    case Variable(_) => None
  }

  /** `r` extends `sub` by the variables of `ps` and turns every pattern of `ps` into a stored quad. */
  ghost predicate IsAnswer(r: Substitution, sub: Substitution, ps: seq<QuadPattern>, stored: set<Quad>) {
    && Extends(sub, r) && r.Keys == sub.Keys + ListVars(ps)
    && forall p | p in ps :: PatternVars(p) <= r.Keys && ApplyQuad(r, p) in stored
  }

  /** `subs` are the answers, each once. */
  ghost predicate AllAnswers(subs: seq<Substitution>, sub: Substitution, ps: seq<QuadPattern>, stored: set<Quad>) {
    NoDup(subs) && forall r :: r in subs <==> IsAnswer(r, sub, ps, stored)
  }

  /** Which answers there are does not depend on the order of the patterns. */
  lemma AnswersCommute(r: Substitution, sub: Substitution, ps: seq<QuadPattern>, ps': seq<QuadPattern>, stored: set<Quad>)
    requires forall p :: p in ps <==> p in ps'
    ensures IsAnswer(r, sub, ps, stored) <==> IsAnswer(r, sub, ps', stored)
  {
    assert ListVars(ps) == ListVars(ps');
  }

  lemma SingleAnswer(r: Substitution, sub: Substitution, p: QuadPattern, stored: set<Quad>)
    ensures IsAnswer(r, sub, [p], stored) <==>
            exists q :: q in stored && GetSubstitutions(sub, q, p) == Some(r)
  {
    assert ListVars([p]) == PatternVars(p) by { ListVarsSnoc([], p); assert [] + [p] == [p]; }
    if IsAnswer(r, sub, [p], stored) {
      assert p in [p];
      MatchExact(sub, ApplyQuad(r, p), p, r);
    }
    forall q | q in stored && GetSubstitutions(sub, q, p) == Some(r) ensures IsAnswer(r, sub, [p], stored) {
      MatchExact(sub, q, p, r);
    }
  }

  function Restrict(r: Substitution, vs: set<string>): Substitution {
    map v | v in r && v in vs :: r[v]
  }

  lemma AnswerParts(r: Substitution, sub: Substitution, ps: seq<QuadPattern>, stored: set<Quad>)
    requires IsAnswer(r, sub, ps, stored)
    ensures Extends(sub, r) && r.Keys == sub.Keys + ListVars(ps)
  {
  }

  lemma AnswerAt(r: Substitution, sub: Substitution, ps: seq<QuadPattern>, stored: set<Quad>, p: QuadPattern)
    requires IsAnswer(r, sub, ps, stored) && p in ps
    ensures PatternVars(p) <= r.Keys && ApplyQuad(r, p) in stored
  {
  }

  lemma ExtendsTrans(a: Substitution, b: Substitution, c: Substitution)
    requires Extends(a, b) && Extends(b, c)
    ensures Extends(a, c)
  {
  }

  lemma SnocVars(ps: seq<QuadPattern>, p: QuadPattern)
    ensures ListVars(ps + [p]) == ListVars(ps) + ListVars([p])
  {
    ListVarsSnoc(ps, p);
    ListVarsSnoc([], p);
    assert [] + [p] == [p];
  }

  /** A pattern turned into a stored quad stays so under an extension. */
  lemma StoredLater(r0: Substitution, r: Substitution, p: QuadPattern, stored: set<Quad>)
    requires Extends(r0, r) && PatternVars(p) <= r0.Keys && ApplyQuad(r0, p) in stored
    ensures PatternVars(p) <= r.Keys && ApplyQuad(r, p) in stored
  {
    ApplyQuadStable(r0, r, p);
  }

  /** Answers to one more pattern extend answers to the patterns before it. */
  lemma AnswerStep(r: Substitution, r0: Substitution, sub: Substitution, ps: seq<QuadPattern>, p: QuadPattern, stored: set<Quad>)
    requires IsAnswer(r0, sub, ps, stored) && IsAnswer(r, r0, [p], stored)
    ensures IsAnswer(r, sub, ps + [p], stored)
  {
    AnswerParts(r0, sub, ps, stored);
    AnswerParts(r, r0, [p], stored);
    SnocVars(ps, p);
    ExtendsTrans(sub, r0, r);
    forall x | x in ps + [p] ensures PatternVars(x) <= r.Keys && ApplyQuad(r, x) in stored {
      hide *;
      if x in ps {
        AnswerAt(r0, sub, ps, stored, x);
        StoredLater(r0, r, x, stored);
      } else {
        AnswerAt(r, r0, [p], stored, x);
      }
    }
    hide ListVars, PatternVars, ApplyQuad, Extends;
  }

  /** A substitution between the two halves splits an answer. */
  lemma AnswerSplit(r: Substitution, r0: Substitution, sub: Substitution, ps: seq<QuadPattern>, p: QuadPattern, stored: set<Quad>)
    requires IsAnswer(r, sub, ps + [p], stored)
    requires Extends(sub, r0) && Extends(r0, r) && r0.Keys == sub.Keys + ListVars(ps)
    ensures IsAnswer(r0, sub, ps, stored) && IsAnswer(r, r0, [p], stored)
  {
    hide ListVars, PatternVars, ApplyQuad, Extends;
    AnswerParts(r, sub, ps + [p], stored);
    SnocVars(ps, p);
    forall x | x in ps ensures PatternVars(x) <= r0.Keys && ApplyQuad(r0, x) in stored {
      hide *;
      AnswerAt(r, sub, ps + [p], stored, x);
      VarsInList(ps, x);
      ApplyQuadStable(r0, r, x);
    }
    forall x | x in [p] ensures PatternVars(x) <= r.Keys && ApplyQuad(r, x) in stored {
      hide *;
      AnswerAt(r, sub, ps + [p], stored, x);
    }
  }

  lemma AnswerPrefix(r: Substitution, sub: Substitution, ps: seq<QuadPattern>, p: QuadPattern, stored: set<Quad>) returns (r0: Substitution)
    requires IsAnswer(r, sub, ps + [p], stored)
    ensures IsAnswer(r0, sub, ps, stored) && IsAnswer(r, r0, [p], stored)
  {
    AnswerParts(r, sub, ps + [p], stored);
    SnocVars(ps, p);
    hide IsAnswer, ListVars;
    r0 := Restrict(r, sub.Keys + ListVars(ps));
    AnswerSplit(r, r0, sub, ps, p, stored);
  }

  /** An extension has one restriction to the variables of the patterns before. */
  lemma PrefixUnique(r: Substitution, r0: Substitution, r1: Substitution)
    requires Extends(r0, r) && Extends(r1, r) && r0.Keys == r1.Keys
    ensures r0 == r1
  {
  }

  /** The quads that match a pattern, by the index for its bound components. */
  method MatchingQuads(rdf: QuadTable, mapped: QuadPattern) returns (quads: seq<Quad>)
    requires rdf.Valid()
    ensures Listing(quads, rdf.quadList, Fixed(mapped.graph), Fixed(mapped.subject), Fixed(mapped.pred), Fixed(mapped.obj))
  {
    match (mapped.graph, mapped.subject, mapped.pred, mapped.obj) {
      case (Resource(g), Resource(s), Variable(_), Variable(_)) => quads := rdf.GetQuadsWithIdSubject(g, s);
      case (Resource(g), Variable(_), Resource(p), Variable(_)) => quads := rdf.GetQuadsWithIdPredicate(g, p);
      case (Resource(g), Variable(_), Variable(_), Resource(o)) => quads := rdf.GetQuadsWithIdObject(g, o);
      case (Resource(g), Resource(s), Resource(p), Variable(_)) => quads := rdf.GetQuadsWithIdSubjectPredicate(g, s, p);
      case (Resource(g), Variable(_), Resource(p), Resource(o)) => quads := rdf.GetQuadsWithIdObjectPredicate(g, o, p);
      case (Resource(g), Resource(s), Resource(p), Resource(o)) =>
        var quad := Quad(g, s, p, o);
        quads := if rdf.Contains(quad) then [quad] else [];
      case (Resource(g), Resource(s), Variable(_), Resource(o)) => quads := rdf.GetQuadsWithIdSubjectObject(g, s, o);
      case (Resource(g), Variable(_), Variable(_), Variable(_)) => quads := rdf.GetGraph(g);
      case (Variable(_), Resource(s), Variable(_), Variable(_)) => quads := rdf.GetQuadsWithSubject(s);
      case (Variable(_), Variable(_), Resource(p), Variable(_)) => quads := rdf.GetQuadsWithPredicate(p);
      case (Variable(_), Variable(_), Variable(_), Resource(o)) => quads := rdf.GetQuadsWithObject(o);
      case (Variable(_), Resource(s), Resource(p), Variable(_)) => quads := rdf.GetQuadsWithSubjectPredicate(s, p);
      case (Variable(_), Variable(_), Resource(p), Resource(o)) => quads := rdf.GetQuadsWithObjectPredicate(o, p);
      case (Variable(_), Resource(s), Resource(p), Resource(o)) =>
        quads := rdf.GetQuadsWithSubjectPredicate(s, p);
        quads := FilterListing(quads, rdf.quadList, None, Some(s), Some(p), None, None, Some(o));
      case (Variable(_), Resource(s), Variable(_), Resource(o)) => quads := rdf.GetQuadsWithSubjectObject(s, o);
      case (Variable(_), Variable(_), Variable(_), Variable(_)) =>
        ReverseNoDup(rdf.quadList, rdf.fourKeysIndex);
        quads := rdf.quadList;
    }
  }

  /** A quad that matches a pattern under `sub` has the components the grounded pattern fixes. */
  lemma MatchFits(sub: Substitution, q: Quad, p: QuadPattern)
    requires GetSubstitutions(sub, q, p).Some?
    ensures var m := MappedPattern(sub, p);
            Fits(q, Fixed(m.graph), Fixed(m.subject), Fixed(m.pred), Fixed(m.obj))
  {
    MatchSound(sub, q, p);
  }

  /** All extensions of `sub` that turn `pattern` into a stored quad. */
  method EvaluatePattern(rdf: QuadTable, pattern: QuadPattern, sub: Substitution) returns (subs: seq<Substitution>)
    requires rdf.Valid()
    ensures AllAnswers(subs, sub, [pattern], rdf.Stored())
  {
    var mapped := MappedPattern(sub, pattern);
    var quads := MatchingQuads(rdf, mapped);
    subs := [];
    for k := 0 to |quads|
      invariant NoDup(subs)
      invariant forall r :: r in subs <==> exists j :: 0 <= j < k && GetSubstitutions(sub, quads[j], pattern) == Some(r)
    {
      MappedMatch(sub, quads[k], pattern);
      var r := GetSubstitutions(sub, quads[k], mapped);
      if r.Some? {
        forall j | 0 <= j < k ensures GetSubstitutions(sub, quads[j], pattern) != r {
          if GetSubstitutions(sub, quads[j], pattern) == r {
            MatchSound(sub, quads[j], pattern);
            MatchSound(sub, quads[k], pattern);
          }
        }
        subs := subs + [r.value];
      }
    }
    forall r ensures r in subs <==> IsAnswer(r, sub, [pattern], rdf.Stored()) {
      SingleAnswer(r, sub, pattern, rdf.Stored());
      forall q | q in rdf.Stored() && GetSubstitutions(sub, q, pattern) == Some(r) ensures r in subs {
        MatchFits(sub, q, pattern);
        assert q in quads;
        var j :| 0 <= j < |quads| && quads[j] == q;
      }
    }
  }

  /** Extending every answer to `ps` by every answer to `p` gives every answer to both, each once. */
  lemma JoinStep(subs: seq<Substitution>, parts: seq<seq<Substitution>>, sub: Substitution, ps: seq<QuadPattern>,
                 p: QuadPattern, stored: set<Quad>, r: Substitution)
    requires AllAnswers(subs, sub, ps, stored)
    requires |parts| == |subs| && forall k | 0 <= k < |subs| :: AllAnswers(parts[k], subs[k], [p], stored)
    ensures IsAnswer(r, sub, ps + [p], stored) <==> exists k :: 0 <= k < |parts| && r in parts[k]
  {
    if IsAnswer(r, sub, ps + [p], stored) {
      var r0 := AnswerPrefix(r, sub, ps, p, stored);
      var k :| 0 <= k < |subs| && subs[k] == r0;
      assert r in parts[k];
    }
    forall k | 0 <= k < |parts| && r in parts[k] ensures IsAnswer(r, sub, ps + [p], stored) {
      assert subs[k] in subs;
      AnswerStep(r, subs[k], sub, ps, p, stored);
    }
  }

  lemma PartsDisjoint(subs: seq<Substitution>, sub: Substitution, ps: seq<QuadPattern>, p: QuadPattern, stored: set<Quad>,
                      j: nat, k: nat, r: Substitution)
    requires AllAnswers(subs, sub, ps, stored) && j < k < |subs|
    requires IsAnswer(r, subs[j], [p], stored)
    ensures !IsAnswer(r, subs[k], [p], stored)
  {
    assert subs[j] in subs && subs[k] in subs;
    if IsAnswer(r, subs[k], [p], stored) {
      PrefixUnique(r, subs[j], subs[k]);
    }
  }

  /** One join: extend each substitution by the answers to `pattern`. */
  method JoinPattern(rdf: QuadTable, pattern: QuadPattern, subs: seq<Substitution>, ghost sub: Substitution, ghost ps: seq<QuadPattern>)
    returns (joined: seq<Substitution>)
    requires rdf.Valid() && AllAnswers(subs, sub, ps, rdf.Stored())
    ensures AllAnswers(joined, sub, ps + [pattern], rdf.Stored())
  {
    joined := [];
    ghost var parts: seq<seq<Substitution>> := [];
    for k := 0 to |subs|
      invariant |parts| == k && forall j | 0 <= j < k :: AllAnswers(parts[j], subs[j], [pattern], rdf.Stored())
      invariant NoDup(joined) && forall r :: r in joined <==> exists j :: 0 <= j < k && r in parts[j]
    {
      var part := EvaluatePattern(rdf, pattern, subs[k]);
      forall r | r in part ensures r !in joined {
        if r in joined {
          var j :| 0 <= j < k && r in parts[j];
          PartsDisjoint(subs, sub, ps, pattern, rdf.Stored(), j, k, r);
        }
      }
      ConcatNoDup(joined, part);
      joined := joined + part;
      parts := parts + [part];
    }
    forall r ensures r in joined <==> IsAnswer(r, sub, ps + [pattern], rdf.Stored()) {
      JoinStep(subs, parts, sub, ps, pattern, rdf.Stored(), r);
    }
  }

  lemma ConcatNoDup<T>(a: seq<T>, b: seq<T>)
    requires NoDup(a) && NoDup(b) && forall x | x in b :: x !in a
    ensures NoDup(a + b)
  {
    forall i, j | 0 <= i < j < |a + b| ensures (a + b)[i] != (a + b)[j] {
      if i < |a| <= j {
        assert (a + b)[i] in a && (a + b)[j] in b;
      }
    }
  }

  lemma NoPatterns(sub: Substitution, stored: set<Quad>)
    ensures AllAnswers([sub], sub, [], stored)
  {
    forall r ensures r in [sub] <==> IsAnswer(r, sub, [], stored) {
      if IsAnswer(r, sub, [], stored) {
        assert r == sub;
      }
    }
  }

  /** The positive atoms of a rule body, joined in body order from a triggering match. */
  method EvaluatePositive(rdf: QuadTable, rule: Rule, sub: Substitution) returns (subs: seq<Substitution>)
    requires rdf.Valid()
    ensures AllAnswers(subs, sub, Positives(rule.body), rdf.Stored())
  {
    var ps := Positives(rule.body);
    NoPatterns(sub, rdf.Stored());
    subs := [sub];
    for k := 0 to |ps|
      invariant AllAnswers(subs, sub, ps[..k], rdf.Stored())
    {
      subs := JoinPattern(rdf, ps[k], subs, sub, ps[..k]);
      assert ps[..k + 1] == ps[..k] + [ps[k]];
    }
    assert ps[..|ps|] == ps;
  }

  /** The whole body holds under `r`: positive atoms stored, guards pass, nothing stored is blocked. */
  ghost predicate BodyHolds(r: Substitution, sub: Substitution, rule: Rule, stored: set<Quad>) {
    && IsAnswer(r, sub, Positives(rule.body), stored)
    && GuardsHold(rule.body, r)
    && Blockers(rule, r) !! stored
  }

  /**
   * What that says, atom by atom: `r` binds the variables of the positive atoms beside those of `sub`; every
   * positive atom is stored, no choice for the other variables of a NOT atom is, and values that have to differ do.
   */
  ghost predicate AtomsHold(r: Substitution, sub: Substitution, body: seq<RuleAtom>, stored: set<Quad>) {
    && Extends(sub, r)
    && (forall v :: v in r <==> v in sub || BindsIn(body, v))
    && (forall p | PositivePattern(p) in body :: PatternVars(p) <= r.Keys && ApplyQuad(r, p) in stored)
    && (forall p, x | NotPattern(p) in body && Grounds(r, x, p) :: ApplyQuad(x, p) !in stored)
    && Distinguishes(body, r)
  }

  ghost predicate BindsIn(body: seq<RuleAtom>, v: string) {
    exists p :: PositivePattern(p) in body && v in PatternVars(p)
  }

  lemma BodyMeans(r: Substitution, sub: Substitution, rule: Rule, stored: set<Quad>)
    ensures BodyHolds(r, sub, rule, stored) <==> AtomsHold(r, sub, rule.body, stored)
  {
    var body := rule.body;
    var ps := Positives(body);
    forall p ensures p in ps <==> PositivePattern(p) in body { PositivesContain(body, p); }
    forall v ensures v in ListVars(ps) <==> BindsIn(body, v) { }
    GuardsExact(body, r);
    forall q ensures q in Blockers(rule, r) <==> exists p, x :: NotPattern(p) in body && Grounds(r, x, p) && ApplyQuad(x, p) == q {
      BlockersExact(rule, r, q);
    }
    hide ListVars, PatternVars, ApplyQuad, Blockers, GuardsHold, Distinguishes, Grounds, Extends, BindsIn;
    assert IsAnswer(r, sub, ps, stored) <==>
           Extends(sub, r) && r.Keys == sub.Keys + ListVars(ps) &&
           forall p | PositivePattern(p) in body :: PatternVars(p) <= r.Keys && ApplyQuad(r, p) in stored;
    assert (Blockers(rule, r) !! stored) <==> forall p, x | NotPattern(p) in body && Grounds(r, x, p) :: ApplyQuad(x, p) !in stored;
    if AtomsHold(r, sub, body, stored) {
      assert r.Keys == sub.Keys + ListVars(ps);
    }
  }

  lemma NotBlocked(rdf: QuadTable, rule: Rule, sub: Substitution, nots: seq<QuadPattern>, stored: set<Quad>)
    requires nots == Negatives(rule.body)
    ensures (Blockers(rule, sub) !! stored) <==> forall p | p in nots :: !exists r :: IsAnswer(r, sub, [p], stored)
  {
    if p, r :| p in nots && IsAnswer(r, sub, [p], stored) {
      SingleAnswer(r, sub, p, stored);
      var q :| q in stored && GetSubstitutions(sub, q, p) == Some(r);
      EveryQuad(q);
      assert q in Blockers(rule, sub);
    }
    if !(Blockers(rule, sub) !! stored) {
      var q :| q in Blockers(rule, sub) && q in stored;
      var p :| p in nots && GetSubstitutions(sub, q, p).Some?;
      SingleAnswer(GetSubstitutions(sub, q, p).value, sub, p, stored);
    }
  }

  /** No NOT atom of the body matches a stored quad under `sub`. */
  method NotAtomsHold(rdf: QuadTable, rule: Rule, sub: Substitution) returns (ok: bool)
    requires rdf.Valid()
    ensures ok <==> Blockers(rule, sub) !! rdf.Stored()
  {
    var nots := Negatives(rule.body);
    NotBlocked(rdf, rule, sub, nots, rdf.Stored());
    ok := true;
    for k := 0 to |nots|
      invariant ok <==> forall j | 0 <= j < k :: !exists r :: IsAnswer(r, sub, [nots[j]], rdf.Stored())
    {
      var found := EvaluatePattern(rdf, nots[k], sub);
      if found != [] {
        assert found[0] in found;
        ok := false;
      }
    }
  }

  /** Full evaluation from a triggering match: join, then guards, then NOT atoms. */
  method Evaluate(rdf: QuadTable, rule: Rule, sub: Substitution) returns (subs: seq<Substitution>)
    requires rdf.Valid()
    ensures NoDup(subs)
    ensures forall r :: r in subs <==> BodyHolds(r, sub, rule, rdf.Stored())
    ensures forall r :: r in subs <==> AtomsHold(r, sub, rule.body, rdf.Stored())
  {
    hide IsAnswer, Blockers, GuardsHold;
    var pos := EvaluatePositive(rdf, rule, sub);
    subs := [];
    for k := 0 to |pos|
      invariant NoDup(subs)
      invariant forall r :: r in subs <==> exists j :: 0 <= j < k && pos[j] == r && BodyHolds(r, sub, rule, rdf.Stored())
    {
      assert pos[k] in pos;
      if GuardsHold(rule.body, pos[k]) {
        var ok := NotAtomsHold(rdf, rule, pos[k]);
        if ok {
          assert pos[k] !in subs;
          ConcatNoDup(subs, [pos[k]]);
          subs := subs + [pos[k]];
        }
      }
    }
    hide BodyHolds, AtomsHold;
    forall r ensures r in subs <==> AtomsHold(r, sub, rule.body, rdf.Stored()) {
      BodyMeans(r, sub, rule, rdf.Stored());
    }
  }

  // ---- Basic graph patterns ----

  class Datastore {
    var namedGraphs: QuadTable

    constructor ()
      ensures fresh(namedGraphs) && namedGraphs.Valid() && namedGraphs.quadList == []
    {
      namedGraphs := new QuadTable();
    }

    /** All quads with the given components, by the index for them. */
    method QuadsMatching(graph: Option<GraphElementId>, subject: Option<GraphElementId>,
                         pred: Option<GraphElementId>, obj: Option<GraphElementId>)
      returns (quads: seq<Quad>)
      requires namedGraphs.Valid()
      ensures Listing(quads, namedGraphs.quadList, graph, subject, pred, obj)
    {
      match (graph, subject, pred, obj) {
        case (Some(g), Some(s), Some(p), Some(o)) =>
          quads := if namedGraphs.Contains(Quad(g, s, p, o)) then [Quad(g, s, p, o)] else [];
        case (Some(g), Some(s), Some(p), None) => quads := namedGraphs.GetQuadsWithIdSubjectPredicate(g, s, p);
        case (Some(g), Some(s), None, Some(o)) => quads := namedGraphs.GetQuadsWithIdSubjectObject(g, s, o);
        case (Some(g), None, Some(p), Some(o)) => quads := namedGraphs.GetQuadsWithIdObjectPredicate(g, o, p);
        case (Some(g), Some(s), None, None) => quads := namedGraphs.GetQuadsWithIdSubject(g, s);
        case (Some(g), None, Some(p), None) => quads := namedGraphs.GetQuadsWithIdPredicate(g, p);
        case (Some(g), None, None, Some(o)) => quads := namedGraphs.GetQuadsWithIdObject(g, o);
        case (Some(g), None, None, None) => quads := namedGraphs.GetGraph(g);
        case (None, Some(s), Some(p), Some(o)) =>
          ReverseNoDup(namedGraphs.quadList, namedGraphs.fourKeysIndex);
          FilterExact(namedGraphs.quadList, None, subject, pred, obj);
          quads := Filter(namedGraphs.quadList, None, subject, pred, obj);
        case (None, Some(s), Some(p), None) => quads := namedGraphs.GetQuadsWithSubjectPredicate(s, p);
        case (None, Some(s), None, Some(o)) => quads := namedGraphs.GetQuadsWithSubjectObject(s, o);
        case (None, None, Some(p), Some(o)) => quads := namedGraphs.GetQuadsWithObjectPredicate(o, p);
        case (None, Some(s), None, None) => quads := namedGraphs.GetQuadsWithSubject(s);
        case (None, None, Some(p), None) => quads := namedGraphs.GetQuadsWithPredicate(p);
        case (None, None, None, Some(o)) => quads := namedGraphs.GetQuadsWithObject(o);
        case (None, None, None, None) =>
          ReverseNoDup(namedGraphs.quadList, namedGraphs.fourKeysIndex);
          quads := namedGraphs.quadList;
      }
    }
  }

  class QueryExecutor {
    const datastore: Datastore

    constructor (datastore: Datastore)
      ensures this.datastore == datastore
    {
      this.datastore := datastore;
    }

    function Ground(t: Term, binding: Substitution): Option<GraphElementId> {
      match t
      case Resource(id) => Some(id)
      case Variable(v) => if v in binding then Some(binding[v]) else None
    }

    /** Bind `v` to `id` unless it is bound to something else. */
    method BindVar(binding: Substitution, v: string, id: GraphElementId) returns (extended: Substitution, possible: bool)
      ensures GetSubstitution(id, Variable(v), binding) == if possible then Some(extended) else None
    {
      if v in binding {
        extended, possible := binding, binding[v] == id;
      } else {
        extended, possible := binding[v := id], true;
      }
    }

    /** Bind the variables of `pattern` to the components of a quad that has its other components. */
    method BindPattern(binding: Substitution, pattern: QuadPattern, quad: Quad) returns (extended: Substitution, possible: bool)
      requires Fits(quad, Ground(pattern.graph, binding), Ground(pattern.subject, binding),
                    Ground(pattern.pred, binding), Ground(pattern.obj, binding))
      ensures GetSubstitutions(binding, quad, pattern) == if possible then Some(extended) else None
    {
      extended, possible := binding, true;
      if pattern.graph.Variable? {
        extended, possible := BindVar(extended, pattern.graph.name, quad.graph);
      }
      if possible && pattern.subject.Variable? {
        extended, possible := BindVar(extended, pattern.subject.name, quad.subject);
      }
      if possible && pattern.pred.Variable? {
        extended, possible := BindVar(extended, pattern.pred.name, quad.pred);
      }
      if possible && pattern.obj.Variable? {
        extended, possible := BindVar(extended, pattern.obj.name, quad.obj);
      }
    }

    /** The bindings that extend one binding by one pattern. */
    method ExtendBinding(pattern: QuadPattern, binding: Substitution) returns (next: seq<Substitution>)
      requires datastore.namedGraphs.Valid()
      ensures AllAnswers(next, binding, [pattern], datastore.namedGraphs.Stored())
    {
      var quads := datastore.QuadsMatching(Ground(pattern.graph, binding), Ground(pattern.subject, binding),
                                           Ground(pattern.pred, binding), Ground(pattern.obj, binding));
      ghost var stored := datastore.namedGraphs.Stored();
      next := [];
      for k := 0 to |quads|
        invariant NoDup(next)
        invariant forall r :: r in next <==> exists j :: 0 <= j < k && GetSubstitutions(binding, quads[j], pattern) == Some(r)
      {
        assert quads[k] in quads;
        var extended, possible := BindPattern(binding, pattern, quads[k]);
        if possible {
          forall j | 0 <= j < k ensures GetSubstitutions(binding, quads[j], pattern) != Some(extended) {
            if GetSubstitutions(binding, quads[j], pattern) == Some(extended) {
              MatchSound(binding, quads[j], pattern);
              MatchSound(binding, quads[k], pattern);
            }
          }
          next := next + [extended];
        }
      }
      forall r ensures r in next <==> IsAnswer(r, binding, [pattern], stored) {
        SingleAnswer(r, binding, pattern, stored);
        forall q | q in stored && GetSubstitutions(binding, q, pattern) == Some(r) ensures r in next {
          MatchFits(binding, q, pattern);
          assert q in quads;
        }
      }
    }

    /** Extend every binding found so far by one more pattern. */
    method ExtendBindings(pattern: QuadPattern, results: seq<Substitution>, ghost ps: seq<QuadPattern>) returns (next: seq<Substitution>)
      requires datastore.namedGraphs.Valid()
      requires AllAnswers(results, map[], ps, datastore.namedGraphs.Stored())
      ensures AllAnswers(next, map[], ps + [pattern], datastore.namedGraphs.Stored())
    {
      ghost var stored := datastore.namedGraphs.Stored();
      next := [];
      ghost var parts: seq<seq<Substitution>> := [];
      for b := 0 to |results|
        invariant |parts| == b && forall j | 0 <= j < b :: AllAnswers(parts[j], results[j], [pattern], stored)
        invariant NoDup(next) && forall r :: r in next <==> exists j :: 0 <= j < b && r in parts[j]
      {
        var part := ExtendBinding(pattern, results[b]);
        forall r | r in part ensures r !in next {
          if r in next {
            var j :| 0 <= j < b && r in parts[j];
            PartsDisjoint(results, map[], ps, pattern, stored, j, b, r);
          }
        }
        ConcatNoDup(next, part);
        next := next + part;
        parts := parts + [part];
      }
      forall r ensures r in next <==> IsAnswer(r, map[], ps + [pattern], stored) {
        JoinStep(results, parts, map[], ps, pattern, stored, r);
      }
    }

    /** Naive evaluation of a basic graph pattern, stopping early when no binding is left. */
    method ExecuteBgp(patterns: seq<QuadPattern>) returns (results: seq<Substitution>)
      requires datastore.namedGraphs.Valid()
      ensures AllAnswers(results, map[], patterns, datastore.namedGraphs.Stored())
    {
      hide AllAnswers;
      results := [map[]];
      NoPatterns(map[], datastore.namedGraphs.Stored());
      var k := 0;
      while k < |patterns|
        invariant k <= |patterns| && AllAnswers(results, map[], patterns[..k], datastore.namedGraphs.Stored())
      {
        results := ExtendBindings(patterns[k], results, patterns[..k]);
        assert patterns[..k + 1] == patterns[..k] + [patterns[k]];
        k := k + 1;
        if results == [] {
          NoMoreAnswers(map[], patterns, k, datastore.namedGraphs.Stored());
          return;
        }
      }
      assert patterns[..k] == patterns;
    }

    lemma NoMoreAnswers(sub: Substitution, patterns: seq<QuadPattern>, k: nat, stored: set<Quad>)
      requires k <= |patterns| && AllAnswers([], sub, patterns[..k], stored)
      ensures AllAnswers([], sub, patterns, stored)
      decreases |patterns| - k
    {
      if k < |patterns| {
        assert patterns[..k + 1] == patterns[..k] + [patterns[k]];
        var none: seq<Substitution> := [];
        forall r ensures r in none <==> IsAnswer(r, sub, patterns[..k + 1], stored) {
          if IsAnswer(r, sub, patterns[..k] + [patterns[k]], stored) {
            var r0 := AnswerPrefix(r, sub, patterns[..k], patterns[k], stored);
          }
        }
        NoMoreAnswers(sub, patterns, k + 1, stored);
      } else {
        assert patterns[..k] == patterns;
      }
    }
  }
}
