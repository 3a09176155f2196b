/** Substitutions and the matching of quads against patterns. */
module Matching {
  import opened Syntax

  type Substitution = map<string, GraphElementId>

  /** Extend `sub` by unifying `resource` with `term`. */
  function GetSubstitution(resource: GraphElementId, term: Term, sub: Substitution): Option<Substitution> {
    match term
    case Resource(r) => if r == resource then Some(sub) else None
    case Variable(v) =>
      if v in sub then
        if sub[v] == resource then Some(sub) else None
      else Some(sub[v := resource])
  }

  /** Extend `sub` so that `pattern` becomes `fact`: graph, subject, predicate, object in turn. */
  function GetSubstitutions(sub: Substitution, fact: Quad, pattern: QuadPattern): Option<Substitution> {
    match GetSubstitution(fact.graph, pattern.graph, sub)
    case None => None
    case Some(s1) =>
      match GetSubstitution(fact.subject, pattern.subject, s1)
      case None => None
      case Some(s2) =>
        match GetSubstitution(fact.pred, pattern.pred, s2)
        case None => None
        case Some(s3) => GetSubstitution(fact.obj, pattern.obj, s3)
  }

  function TermVars(t: Term): set<string> {
    match t
    case Resource(_) => {}
    case Variable(v) => {v}
  }

  function PatternVars(p: QuadPattern): set<string> {
    TermVars(p.graph) + TermVars(p.subject) + TermVars(p.pred) + TermVars(p.obj)
  }

  function ApplyTerm(sub: Substitution, t: Term): GraphElementId
    requires TermVars(t) <= sub.Keys
  {
    match t
    case Resource(r) => r
    case Variable(v) => assert v in TermVars(t); sub[v]
  }

  function ApplyQuad(sub: Substitution, p: QuadPattern): Quad
    requires PatternVars(p) <= sub.Keys
  {
    Quad(ApplyTerm(sub, p.graph), ApplyTerm(sub, p.subject), ApplyTerm(sub, p.pred), ApplyTerm(sub, p.obj))
  }

  /** Replace the variables that `sub` binds. */
  function MappedTerm(sub: Substitution, t: Term): Term {
    match t
    case Resource(_) => t
    case Variable(v) => if v in sub then Resource(sub[v]) else t
  }

  function MappedPattern(sub: Substitution, p: QuadPattern): QuadPattern {
    QuadPattern(MappedTerm(sub, p.graph), MappedTerm(sub, p.subject), MappedTerm(sub, p.pred), MappedTerm(sub, p.obj))
  }

  ghost predicate Extends(s: Substitution, s': Substitution) {
    s.Keys <= s'.Keys && forall v | v in s :: s'[v] == s[v]
  }

  /** `r` is `sub` with exactly the variables of `p` added, and turns `p` into `fact`. */
  ghost predicate Unifies(sub: Substitution, fact: Quad, p: QuadPattern, r: Substitution) {
    r.Keys == sub.Keys + PatternVars(p) && Extends(sub, r) && ApplyQuad(r, p) == fact
  }

  lemma TermMatch(resource: GraphElementId, t: Term, sub: Substitution, s: Substitution)
    ensures GetSubstitution(resource, t, sub).Some? ==>
              var r := GetSubstitution(resource, t, sub).value;
              r.Keys == sub.Keys + TermVars(t) && Extends(sub, r) && ApplyTerm(r, t) == resource
    ensures Extends(sub, s) && TermVars(t) <= s.Keys && ApplyTerm(s, t) == resource ==>
              GetSubstitution(resource, t, sub).Some? && Extends(GetSubstitution(resource, t, sub).value, s)
  {
  }

  lemma ApplyStable(s: Substitution, s': Substitution, t: Term)
    requires Extends(s, s') && TermVars(t) <= s.Keys
    ensures ApplyTerm(s', t) == ApplyTerm(s, t)
  {
  }

  lemma ApplyQuadStable(s: Substitution, s': Substitution, p: QuadPattern)
    requires Extends(s, s') && PatternVars(p) <= s.Keys
    ensures ApplyQuad(s', p) == ApplyQuad(s, p)
  {
  }

  lemma MatchSound(sub: Substitution, fact: Quad, p: QuadPattern)
    requires GetSubstitutions(sub, fact, p).Some?
    ensures Unifies(sub, fact, p, GetSubstitutions(sub, fact, p).value)
  {
    var s1 := GetSubstitution(fact.graph, p.graph, sub).value;
    var s2 := GetSubstitution(fact.subject, p.subject, s1).value;
    var s3 := GetSubstitution(fact.pred, p.pred, s2).value;
    var s4 := GetSubstitution(fact.obj, p.obj, s3).value;
    TermMatch(fact.graph, p.graph, sub, sub);
    TermMatch(fact.subject, p.subject, s1, s1);
    TermMatch(fact.pred, p.pred, s2, s2);
    TermMatch(fact.obj, p.obj, s3, s3);
    ApplyStable(s1, s4, p.graph);
    ApplyStable(s2, s4, p.subject);
    ApplyStable(s3, s4, p.pred);
  }

  lemma MatchComplete(sub: Substitution, fact: Quad, p: QuadPattern, s: Substitution)
    requires Extends(sub, s) && PatternVars(p) <= s.Keys && ApplyQuad(s, p) == fact
    ensures GetSubstitutions(sub, fact, p).Some?
    ensures Extends(GetSubstitutions(sub, fact, p).value, s)
  {
    TermMatch(fact.graph, p.graph, sub, s);
    var s1 := GetSubstitution(fact.graph, p.graph, sub).value;
    TermMatch(fact.subject, p.subject, s1, s);
    var s2 := GetSubstitution(fact.subject, p.subject, s1).value;
    TermMatch(fact.pred, p.pred, s2, s);
    var s3 := GetSubstitution(fact.pred, p.pred, s2).value;
    TermMatch(fact.obj, p.obj, s3, s);
  }

  /** Matching finds the one extension by the pattern's variables that turns it into the fact. */
  lemma MatchExact(sub: Substitution, fact: Quad, p: QuadPattern, r: Substitution)
    ensures GetSubstitutions(sub, fact, p) == Some(r) <==> Unifies(sub, fact, p, r)
  {
    if GetSubstitutions(sub, fact, p) == Some(r) {
      MatchSound(sub, fact, p);
    }
    if Unifies(sub, fact, p, r) {
      MatchComplete(sub, fact, p, r);
      MatchSound(sub, fact, p);
      assert GetSubstitutions(sub, fact, p).value == r;
    }
  }

  /** Grounding the pattern first changes nothing: the index lookup and the final check agree. */
  lemma MappedMatch(sub: Substitution, fact: Quad, p: QuadPattern)
    ensures GetSubstitutions(sub, fact, MappedPattern(sub, p)) == GetSubstitutions(sub, fact, p)
  {
    var m := MappedPattern(sub, p);
    if GetSubstitutions(sub, fact, p).Some? {
      var r := GetSubstitutions(sub, fact, p).value;
      MatchSound(sub, fact, p);
      assert ApplyQuad(r, m) == fact;
      MatchExact(sub, fact, m, r);
    }
    if GetSubstitutions(sub, fact, m).Some? {
      var r := GetSubstitutions(sub, fact, m).value;
      MatchSound(sub, fact, m);
      assert ApplyQuad(r, p) == fact;
      MatchExact(sub, fact, p, r);
    }
  }

  // ---- Lists of patterns ----

  function ListVars(ps: seq<QuadPattern>): set<string> {
    set p, v | p in ps && v in PatternVars(p) :: v
  }

  /** Match the patterns one after the other against the witnesses; too few witnesses fail. */
  function MatchFrom(sub: Substitution, ps: seq<QuadPattern>, ws: seq<Quad>): Option<Substitution>
    decreases |ps|
  {
    if ps == [] then Some(sub)
    else if ws == [] then None
    else
      match GetSubstitutions(sub, ws[0], ps[0])
      case None => None
      case Some(s) => MatchFrom(s, ps[1..], ws[1..])
  }

  lemma VarsInList(ps: seq<QuadPattern>, p: QuadPattern)
    requires p in ps
    ensures PatternVars(p) <= ListVars(ps)
  {
  }

  /** The quads that `s` turns the patterns into. */
  function Witnesses(s: Substitution, ps: seq<QuadPattern>): seq<Quad>
    requires ListVars(ps) <= s.Keys
  {
    seq(|ps|, j requires 0 <= j < |ps| => VarsInList(ps, ps[j]); ApplyQuad(s, ps[j]))
  }

  lemma ListVarsCons(ps: seq<QuadPattern>)
    requires ps != []
    ensures ListVars(ps) == PatternVars(ps[0]) + ListVars(ps[1..])
  {
    assert ps == [ps[0]] + ps[1..];
  }

  lemma ListVarsSnoc(ps: seq<QuadPattern>, p: QuadPattern)
    ensures ListVars(ps + [p]) == ListVars(ps) + PatternVars(p)
  {
  }

  /** Replaying the witnesses of a substitution gives the substitution back. */
  lemma {:induction false} ReplayExact(sub: Substitution, ps: seq<QuadPattern>, s: Substitution)
    requires Extends(sub, s) && s.Keys == sub.Keys + ListVars(ps)
    ensures MatchFrom(sub, ps, Witnesses(s, ps)) == Some(s)
    decreases |ps|
  {
    if ps == [] {
      assert s == sub;
    } else {
      var ws := Witnesses(s, ps);
      ListVarsCons(ps);
      MatchComplete(sub, ws[0], ps[0], s);
      MatchSound(sub, ws[0], ps[0]);
      var r := GetSubstitutions(sub, ws[0], ps[0]).value;
      assert ws[1..] == Witnesses(s, ps[1..]);
      ReplayExact(r, ps[1..], s);
    }
  }

  /** Conversely, witnesses that replay are the ones the resulting substitution produces. */
  lemma {:induction false} ReplaySound(sub: Substitution, ps: seq<QuadPattern>, ws: seq<Quad>)
    requires |ws| == |ps| && MatchFrom(sub, ps, ws).Some?
    ensures var s := MatchFrom(sub, ps, ws).value;
            Extends(sub, s) && s.Keys == sub.Keys + ListVars(ps) && Witnesses(s, ps) == ws
    decreases |ps|
  {
    if ps != [] {
      MatchSound(sub, ws[0], ps[0]);
      var r := GetSubstitutions(sub, ws[0], ps[0]).value;
      ReplaySound(r, ps[1..], ws[1..]);
      ListVarsCons(ps);
      var s := MatchFrom(sub, ps, ws).value;
      ApplyQuadStable(r, s, ps[0]);
      assert Witnesses(s, ps)[1..] == Witnesses(s, ps[1..]);
      assert Witnesses(s, ps) == [ws[0]] + ws[1..];
    }
  }
}
