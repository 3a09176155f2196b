/** Which rules a rule's head can feed or block. */
module Unification {
  import opened Syntax
  import opened Matching
  import opened Clauses
  import opened Grounding

  type Constants = map<string, GraphElementId>
  type Aliases = map<string, string>

  function Canonical(v: string, aliases: Aliases): string {
    if v in aliases then aliases[v] else v
  }

  method VariableConstantUnifiable(v: string, resource: GraphElementId, constants: Constants, aliases: Aliases)
    returns (ok: bool, constants': Constants)
    ensures (ok, constants') == UnifyConstant(v, resource, constants, aliases)
  {
    constants' := constants;
    var canonical := Canonical(v, aliases);
    if canonical !in constants {
      constants' := constants[canonical := resource];
      ok := true;
    } else {
      ok := constants[canonical] == resource;
    }
  }

  /** Bind the variable's canonical name, or compare with its binding. */
  function UnifyConstant(v: string, resource: GraphElementId, constants: Constants, aliases: Aliases): (bool, Constants) {
    var canonical := Canonical(v, aliases);
    if canonical in constants then (constants[canonical] == resource, constants)
    else (true, constants[canonical := resource])
  }

  datatype Maps = Maps(constants: Constants, aliases: Aliases)

  method TermsUnifiable(t1: Term, t2: Term, maps: Maps) returns (ok: bool, maps': Maps)
    ensures (ok, maps') == UnifyTerms(t1, t2, maps)
  {
    maps' := maps;
    match (t1, t2) {
      case (Variable(v), Resource(r)) =>
        var constants;
        ok, constants := VariableConstantUnifiable(v, r, maps.constants, maps.aliases);
        maps' := maps.(constants := constants);
      case (Resource(r), Variable(v)) =>
        var constants;
        ok, constants := VariableConstantUnifiable(v, r, maps.constants, maps.aliases);
        maps' := maps.(constants := constants);
      case (Resource(r1), Resource(r2)) =>
        ok := r1 == r2;
      case (Variable(v1), Variable(v2)) =>
        maps' := maps.(aliases := maps.aliases[v1 := v2]);
        ok := true;
    }
  }

  /** One step of the unification test, with the maps it leaves. */
  function UnifyTerms(t1: Term, t2: Term, maps: Maps): (bool, Maps) {
    match (t1, t2)
    case (Variable(v), Resource(r)) =>
      var u := UnifyConstant(v, r, maps.constants, maps.aliases);
      (u.0, maps.(constants := u.1))
    case (Resource(r), Variable(v)) =>
      var u := UnifyConstant(v, r, maps.constants, maps.aliases);
      (u.0, maps.(constants := u.1))
    case (Resource(r1), Resource(r2)) => (r1 == r2, maps)
    case (Variable(v1), Variable(v2)) => (true, maps.(aliases := maps.aliases[v1 := v2]))
  }

  /** The maps are true of `s`: bound names have their value, aliases have equal values. */
  ghost predicate Agrees(maps: Maps, s: Substitution) {
    && (forall v | v in maps.constants && v in s :: s[v] == maps.constants[v])
    && (forall v | v in maps.aliases && v in s :: maps.aliases[v] in s && s[maps.aliases[v]] == s[v])
  }

  /** A substitution that makes both terms equal keeps the test going. */
  lemma UnifyStep(t1: Term, t2: Term, maps: Maps, s: Substitution)
    requires Agrees(maps, s) && TermVars(t1) <= s.Keys && TermVars(t2) <= s.Keys
    requires ApplyTerm(s, t1) == ApplyTerm(s, t2)
    ensures UnifyTerms(t1, t2, maps).0 && Agrees(UnifyTerms(t1, t2, maps).1, s)
  {
  }

  /** The four components in the order subject, predicate, object, graph, with the maps threaded through. */
  predicate Unifiable(q1: QuadPattern, q2: QuadPattern) {
    var u1 := UnifyTerms(q1.subject, q2.subject, Maps(map[], map[]));
    u1.0 &&
    var u2 := UnifyTerms(q1.pred, q2.pred, u1.1);
    u2.0 &&
    var u3 := UnifyTerms(q1.obj, q2.obj, u2.1);
    u3.0 && UnifyTerms(q1.graph, q2.graph, u3.1).0
  }

  method QuadPatternsUnifiable(q1: QuadPattern, q2: QuadPattern) returns (ok: bool)
    ensures ok <==> Unifiable(q1, q2)
  {
    var maps := Maps(map[], map[]);
    ok, maps := TermsUnifiable(q1.subject, q2.subject, maps);
    if ok {
      ok, maps := TermsUnifiable(q1.pred, q2.pred, maps);
    }
    if ok {
      ok, maps := TermsUnifiable(q1.obj, q2.obj, maps);
    }
    if ok {
      ok, maps := TermsUnifiable(q1.graph, q2.graph, maps);
    }
  }

  /** Patterns that one substitution makes equal are judged unifiable. */
  lemma EqualIsUnifiable(q1: QuadPattern, q2: QuadPattern, s: Substitution)
    requires PatternVars(q1) <= s.Keys && PatternVars(q2) <= s.Keys
    requires ApplyQuad(s, q1) == ApplyQuad(s, q2)
    ensures Unifiable(q1, q2)
  {
    var m0 := Maps(map[], map[]);
    UnifyStep(q1.subject, q2.subject, m0, s);
    var m1 := UnifyTerms(q1.subject, q2.subject, m0).1;
    UnifyStep(q1.pred, q2.pred, m1, s);
    var m2 := UnifyTerms(q1.pred, q2.pred, m1).1;
    UnifyStep(q1.obj, q2.obj, m2, s);
    var m3 := UnifyTerms(q1.obj, q2.obj, m2).1;
    UnifyStep(q1.graph, q2.graph, m3, s);
  }

  ghost predicate IsInstanceOf(q: Quad, p: QuadPattern) {
    exists s: Substitution :: PatternVars(p) <= s.Keys && ApplyQuad(s, p) == q
  }

  /** Patterns without common variables that share an instance are judged unifiable. */
  lemma SharedInstance(q1: QuadPattern, q2: QuadPattern, q: Quad)
    requires PatternVars(q1) !! PatternVars(q2)
    requires IsInstanceOf(q, q1) && IsInstanceOf(q, q2)
    ensures Unifiable(q1, q2)
  {
    var s1: Substitution :| PatternVars(q1) <= s1.Keys && ApplyQuad(s1, q1) == q;
    var s2: Substitution :| PatternVars(q2) <= s2.Keys && ApplyQuad(s2, q2) == q;
    var s := map v | v in s1.Keys + s2.Keys :: if v in PatternVars(q1) then s1[v] else if v in s2 then s2[v] else s1[v];
    AgreeApply(s, s1, q1);
    AgreeApply(s, s2, q2);
    EqualIsUnifiable(q1, q2, s);
  }

  lemma AgreeApply(s: Substitution, s': Substitution, p: QuadPattern)
    requires PatternVars(p) <= s.Keys && PatternVars(p) <= s'.Keys
    requires forall v | v in PatternVars(p) :: s[v] == s'[v]
    ensures ApplyQuad(s, p) == ApplyQuad(s', p)
  {
    assert TermVars(p.graph) <= PatternVars(p) && TermVars(p.subject) <= PatternVars(p);
    assert TermVars(p.pred) <= PatternVars(p) && TermVars(p.obj) <= PatternVars(p);
  }

  /**
   * The condition on names is needed: head `[?x, p, c1]` and body atom `[c2, p, ?x]` have the common
   * instance `[c2, p, c1]`, but one name stands for two variables and the test says no.
   */
  lemma SharedNameMisses(g: GraphElementId, p: GraphElementId, c1: GraphElementId, c2: GraphElementId)
    requires c1 != c2
    ensures var head := QuadPattern(Resource(g), Variable("x"), Resource(p), Resource(c1));
            var atom := QuadPattern(Resource(g), Resource(c2), Resource(p), Variable("x"));
            && IsInstanceOf(Quad(g, c2, p, c1), head) && IsInstanceOf(Quad(g, c2, p, c1), atom)
            && !Unifiable(head, atom)
  {
    var head := QuadPattern(Resource(g), Variable("x"), Resource(p), Resource(c1));
    var atom := QuadPattern(Resource(g), Resource(c2), Resource(p), Variable("x"));
    var s1: Substitution := map["x" := c2];
    var s2: Substitution := map["x" := c1];
    assert PatternVars(head) <= s1.Keys && ApplyQuad(s1, head) == Quad(g, c2, p, c1);
    assert PatternVars(atom) <= s2.Keys && ApplyQuad(s2, atom) == Quad(g, c2, p, c1);
  }

  // ---- What the answer means ----

  /** The pairs of terms in the order in which they are compared. */
  function TermPairs(q1: QuadPattern, q2: QuadPattern): (ts: seq<(Term, Term)>)
    ensures |ts| == 4
  {
    [(q1.subject, q2.subject), (q1.pred, q2.pred), (q1.obj, q2.obj), (q1.graph, q2.graph)]
  }

  /** The aliases made by the first `i` pairs: a variable of the left stands for the last one it met. */
  function AliasesOf(ts: seq<(Term, Term)>, i: nat): Aliases
    requires i <= |ts|
  {
    if i == 0 then map[]
    else
      var earlier := AliasesOf(ts, i - 1);
      match ts[i - 1]
      case (Variable(v1), Variable(v2)) => earlier[v1 := v2]
      case _ => earlier
  }

  /** The name and the constant that pair `i` brings together, the name resolved through the aliases so far. */
  function Meeting(ts: seq<(Term, Term)>, i: nat): Option<(string, GraphElementId)>
    requires i < |ts|
  {
    match ts[i]
    case (Variable(v), Resource(r)) => Some((Canonical(v, AliasesOf(ts, i)), r))
    case (Resource(r), Variable(v)) => Some((Canonical(v, AliasesOf(ts, i)), r))
    case _ => None
  }

  ghost predicate ConstantsAgree(ts: seq<(Term, Term)>, n: nat)
    requires n <= |ts|
  {
    forall i | 0 <= i < n && ts[i].0.Resource? && ts[i].1.Resource? :: ts[i].0 == ts[i].1
  }

  /** One name meets two different constants. */
  ghost predicate Clash(ts: seq<(Term, Term)>, i: nat, j: nat)
    requires i < |ts| && j < |ts|
  {
    && Meeting(ts, i).Some? && Meeting(ts, j).Some?
    && Meeting(ts, i).value.0 == Meeting(ts, j).value.0 && Meeting(ts, i).value.1 != Meeting(ts, j).value.1
  }

  ghost predicate NoClash(ts: seq<(Term, Term)>, n: nat)
    requires n <= |ts|
  {
    forall i, j | 0 <= i < j < n :: !Clash(ts, i, j)
  }

  /** After `i` pairs the maps hold the aliases and what each name has met. */
  ghost predicate Reached(ts: seq<(Term, Term)>, i: nat, maps: Maps)
    requires i <= |ts|
  {
    && maps.aliases == AliasesOf(ts, i)
    && (forall k | 0 <= k < i && Meeting(ts, k).Some? ::
          Meeting(ts, k).value.0 in maps.constants && maps.constants[Meeting(ts, k).value.0] == Meeting(ts, k).value.1)
    && (forall v | v in maps.constants :: exists k :: 0 <= k < i && Meeting(ts, k) == Some((v, maps.constants[v])))
  }

  lemma ReachedNext(ts: seq<(Term, Term)>, i: nat, maps: Maps)
    requires i < |ts| && Reached(ts, i, maps) && ConstantsAgree(ts, i) && NoClash(ts, i)
    ensures var u := UnifyTerms(ts[i].0, ts[i].1, maps);
            && (u.0 <==> ConstantsAgree(ts, i + 1) && NoClash(ts, i + 1))
            && (u.0 ==> Reached(ts, i + 1, u.1))
  {
    var u := UnifyTerms(ts[i].0, ts[i].1, maps);
    hide AliasesOf;
    assert AliasesOf(ts, i + 1) == u.1.aliases by { AliasesNext(ts, i); }
    if Meeting(ts, i).Some? {
      var (v, r) := Meeting(ts, i).value;
      if v in maps.constants {
        var k :| 0 <= k < i && Meeting(ts, k) == Some((v, maps.constants[v]));
        assert maps.constants[v] != r ==> Clash(ts, k, i);
      }
      if u.0 {
        forall w | w in u.1.constants ensures exists k :: 0 <= k < i + 1 && Meeting(ts, k) == Some((w, u.1.constants[w])) {
          if w in maps.constants {
            var k :| 0 <= k < i && Meeting(ts, k) == Some((w, maps.constants[w]));
          }
        }
      }
    }
  }

  lemma AliasesNext(ts: seq<(Term, Term)>, i: nat)
    requires i < |ts|
    ensures AliasesOf(ts, i + 1) ==
            if ts[i].0.Variable? && ts[i].1.Variable? then AliasesOf(ts, i)[ts[i].0.name := ts[i].1.name] else AliasesOf(ts, i)
  {
  }

  /** The test fails exactly when two constants differ in place or some name meets two different constants. */
  lemma UnifiableExact(q1: QuadPattern, q2: QuadPattern)
    ensures var ts := TermPairs(q1, q2);
            Unifiable(q1, q2) <==> ConstantsAgree(ts, 4) && NoClash(ts, 4)
  {
    var ts, m0 := TermPairs(q1, q2), Maps(map[], map[]);
    hide ConstantsAgree, NoClash, Reached;
    ReachedStart(ts);
    ReachedNext(ts, 0, m0);
    var m1 := UnifyTerms(ts[0].0, ts[0].1, m0).1;
    if UnifyTerms(ts[0].0, ts[0].1, m0).0 {
      ReachedNext(ts, 1, m1);
      var m2 := UnifyTerms(ts[1].0, ts[1].1, m1).1;
      if UnifyTerms(ts[1].0, ts[1].1, m1).0 {
        ReachedNext(ts, 2, m2);
        var m3 := UnifyTerms(ts[2].0, ts[2].1, m2).1;
        if UnifyTerms(ts[2].0, ts[2].1, m2).0 {
          ReachedNext(ts, 3, m3);
        }
      }
    }
    ShorterAgree(ts);
  }

  lemma ReachedStart(ts: seq<(Term, Term)>)
    ensures Reached(ts, 0, Maps(map[], map[])) && ConstantsAgree(ts, 0) && NoClash(ts, 0)
  {
  }

  lemma ShorterAgree(ts: seq<(Term, Term)>)
    ensures forall m, n | 0 <= m <= n <= |ts| :: ConstantsAgree(ts, n) && NoClash(ts, n) ==> ConstantsAgree(ts, m) && NoClash(ts, m)
  {
    hide Clash;
  }

  /**
   * Patterns with a common instance, whatever their variables, are judged not unifiable exactly when some
   * name, resolved as the test does, meets two different constants.
   */
  lemma MissesExactly(q1: QuadPattern, q2: QuadPattern, q: Quad)
    requires IsInstanceOf(q, q1) && IsInstanceOf(q, q2)
    ensures !Unifiable(q1, q2) <==> exists i, j :: 0 <= i < j < 4 && Clash(TermPairs(q1, q2), i, j)
  {
    var ts := TermPairs(q1, q2);
    UnifiableExact(q1, q2);
    hide Clash, Unifiable;
    assert ConstantsAgree(ts, 4);
  }

  /** No variable occurs twice. */
  ghost predicate Linear(p: QuadPattern) {
    && TermVars(p.graph) !! TermVars(p.subject) && TermVars(p.graph) !! TermVars(p.pred) && TermVars(p.graph) !! TermVars(p.obj)
    && TermVars(p.subject) !! TermVars(p.pred) && TermVars(p.subject) !! TermVars(p.obj) && TermVars(p.pred) !! TermVars(p.obj)
  }

  /**
   * For patterns in which no variable occurs twice, neither within one nor across both, `true` means that
   * there is a common instance, and `false` that there is none.
   */
  lemma LinearUnifiable(q1: QuadPattern, q2: QuadPattern)
    requires PatternVars(q1) !! PatternVars(q2) && Linear(q1) && Linear(q2)
    ensures Unifiable(q1, q2) <==> exists q :: IsInstanceOf(q, q1) && IsInstanceOf(q, q2)
  {
    if q :| IsInstanceOf(q, q1) && IsInstanceOf(q, q2) {
      SharedInstance(q1, q2, q);
    }
    if Unifiable(q1, q2) {
      UnifiableExact(q1, q2);
      var ts := TermPairs(q1, q2);
      var q := Quad(Common(ts[3]), Common(ts[0]), Common(ts[1]), Common(ts[2]));
      hide Unifiable;
      LinearInstance(q1, q);
      LinearInstance(q2, q);
    }
  }

  /** A value that both terms of a pair can take when their constants agree. */
  function Common(t: (Term, Term)): GraphElementId {
    if t.0.Resource? then t.0.id else if t.1.Resource? then t.1.id else 0
  }

  lemma LinearInstance(p: QuadPattern, q: Quad)
    requires Linear(p)
    requires (p.graph.Resource? ==> p.graph.id == q.graph) && (p.subject.Resource? ==> p.subject.id == q.subject)
    requires (p.pred.Resource? ==> p.pred.id == q.pred) && (p.obj.Resource? ==> p.obj.id == q.obj)
    ensures IsInstanceOf(q, p)
  {
    var s: Substitution := map v | v in PatternVars(p) ::
      if p.graph == Variable(v) then q.graph else if p.subject == Variable(v) then q.subject
      else if p.pred == Variable(v) then q.pred else q.obj;
    assert ApplyQuad(s, p) == q;
  }

  /**
   * With repeated variables `true` promises less: `[?x, ?x, c2]` and `[c1, ?y, ?y]` would need `?x` to be
   * `c1` and `c2` at once, and the test says yes.
   */
  lemma UnifiableWithoutInstance(g: GraphElementId, c1: GraphElementId, c2: GraphElementId)
    requires c1 != c2
    ensures var q1 := QuadPattern(Resource(g), Variable("x"), Variable("x"), Resource(c2));
            var q2 := QuadPattern(Resource(g), Resource(c1), Variable("y"), Variable("y"));
            PatternVars(q1) !! PatternVars(q2) && Unifiable(q1, q2) && !exists q :: IsInstanceOf(q, q1) && IsInstanceOf(q, q2)
  {
  }

  // ---- Dependency edges ----

  datatype PatternEdge = PositivePatternEdge(rule: Rule) | NegativePatternEdge(rule: Rule)

  ghost predicate CanFeed(head: QuadPattern, rule: Rule) {
    exists p :: PositivePattern(p) in rule.body && Unifiable(head, p)
  }

  ghost predicate CanBlock(head: QuadPattern, rule: Rule) {
    exists p :: NotPattern(p) in rule.body && Unifiable(head, p)
  }

  /** The edge from a head to a rule: negative as soon as one NOT atom can be blocked. */
  ghost predicate IsEdge(head: QuadPattern, rules: seq<Rule>, e: PatternEdge) {
    && e.rule in rules
    && if e.NegativePatternEdge? then CanBlock(head, e.rule) else CanFeed(head, e.rule) && !CanBlock(head, e.rule)
  }

  /** Does the head feed, and does it block, the rule? */
  method ScanBody(rule: Rule, head: QuadPattern) returns (hasMatch: bool, hasNegative: bool)
    ensures hasNegative <==> CanBlock(head, rule)
    ensures hasMatch <==> CanFeed(head, rule) || CanBlock(head, rule)
  {
    hasNegative, hasMatch := false, false;
    for a := 0 to |rule.body|
      invariant hasNegative <==> exists j :: 0 <= j < a && rule.body[j].NotPattern? && Unifiable(head, rule.body[j].pattern)
      invariant hasMatch <==> exists j :: 0 <= j < a && !rule.body[j].NotEqualsAtom? && Unifiable(head, rule.body[j].pattern)
    {
      match rule.body[a] {
        case PositivePattern(p) =>
          var u := QuadPatternsUnifiable(head, p);
          if u {
            hasMatch := true;
          }
        case NotPattern(p) =>
          var u := QuadPatternsUnifiable(head, p);
          if u {
            hasMatch, hasNegative := true, true;
          }
        case NotEqualsAtom(_, _) =>
      }
    }
    ScanExact(rule, head);
  }

  lemma ScanExact(rule: Rule, head: QuadPattern)
    ensures CanBlock(head, rule) <==> exists j :: 0 <= j < |rule.body| && rule.body[j].NotPattern? && Unifiable(head, rule.body[j].pattern)
    ensures CanFeed(head, rule) || CanBlock(head, rule) <==>
            exists j :: 0 <= j < |rule.body| && !rule.body[j].NotEqualsAtom? && Unifiable(head, rule.body[j].pattern)
  {
    hide Unifiable;
    forall j | 0 <= j < |rule.body| && rule.body[j].NotPattern? && Unifiable(head, rule.body[j].pattern) ensures CanBlock(head, rule) {
      assert NotPattern(rule.body[j].pattern) in rule.body;
    }
    forall j | 0 <= j < |rule.body| && rule.body[j].PositivePattern? && Unifiable(head, rule.body[j].pattern) ensures CanFeed(head, rule) {
      assert PositivePattern(rule.body[j].pattern) in rule.body;
    }
    if CanBlock(head, rule) {
      var p :| NotPattern(p) in rule.body && Unifiable(head, p);
      var j :| 0 <= j < |rule.body| && rule.body[j] == NotPattern(p);
    }
    if CanFeed(head, rule) {
      var p :| PositivePattern(p) in rule.body && Unifiable(head, p);
      var j :| 0 <= j < |rule.body| && rule.body[j] == PositivePattern(p);
    }
  }

  /** The edges lead to the rules in the order in which those are listed. */
  ghost predicate InRuleOrder(rules: seq<Rule>, es: seq<PatternEdge>) {
    forall k, l, i, j | 0 <= k < l < |es| && 0 <= i < |rules| && 0 <= j < |rules| && rules[i] == es[k].rule && rules[j] == es[l].rule ::
      i < j
  }

  /** One edge for every rule with a body atom the head can feed or block, in the order of the rules. */
  method DependingRules(rules: seq<Rule>, head: QuadPattern) returns (result: seq<PatternEdge>)
    ensures forall e :: e in result <==> IsEdge(head, rules, e)
    ensures NoDup(rules) ==> NoDup(result) && InRuleOrder(rules, result)
  {
    result := [];
    assert forall e :: !IsEdge(head, rules[..0], e);
    hide CanFeed, CanBlock, InRuleOrder;
    assert InRuleOrder(rules, result) by { NoEdgesInOrder(rules); }
    for k := 0 to |rules|
      invariant forall e :: e in result <==> IsEdge(head, rules[..k], e)
      invariant NoDup(rules) ==> NoDup(result) && InRuleOrder(rules, result)
    {
      var hasMatch, hasNegative := ScanBody(rules[k], head);
      assert rules[..k + 1] == rules[..k] + [rules[k]];
      if NoDup(rules) {
        assert rules[k] !in rules[..k];
        assert forall e | e in result :: e.rule != rules[k];
        LaterEdge(rules, result, k, NegativePatternEdge(rules[k]));
        LaterEdge(rules, result, k, PositivePatternEdge(rules[k]));
      }
      ghost var before := result;
      if hasMatch {
        if hasNegative {
          result := result + [NegativePatternEdge(rules[k])];
        } else {
          result := result + [PositivePatternEdge(rules[k])];
        }
      }
      forall e ensures e in result <==> IsEdge(head, rules[..k + 1], e) {
        assert e.rule in rules[..k + 1] <==> e.rule in rules[..k] || e.rule == rules[k];
      }
    }
    assert rules[..|rules|] == rules;
  }

  lemma NoEdgesInOrder(rules: seq<Rule>)
    ensures InRuleOrder(rules, [])
  {
  }

  lemma LaterEdge(rules: seq<Rule>, es: seq<PatternEdge>, k: nat, e: PatternEdge)
    requires NoDup(rules) && k < |rules| && e.rule == rules[k] && InRuleOrder(rules, es)
    requires forall x | x in es :: x.rule in rules[..k]
    ensures InRuleOrder(rules, es + [e])
  {
    var es' := es + [e];
    forall m, l, i, j | 0 <= m < l < |es'| && 0 <= i < |rules| && 0 <= j < |rules| && rules[i] == es'[m].rule && rules[j] == es'[l].rule
      ensures i < j
    {
      if l == |es| {
        assert es'[m] == es[m] && es[m] in es;
        var n :| 0 <= n < k && rules[n] == es[m].rule;
      }
    }
  }

  // ---- No missed dependency ----

  /** No variable of a head occurs in the body patterns of a rule. */
  ghost predicate RenamedApart(head: QuadPattern, rule: Rule) {
    && (forall p | PositivePattern(p) in rule.body :: PatternVars(head) !! PatternVars(p))
    && (forall p | NotPattern(p) in rule.body :: PatternVars(head) !! PatternVars(p))
  }

  /** A ground head that a ground body uses comes with an edge between the rules. */
  lemma NoMissedDependency(a: Rule, b: Rule, c: Clause, d: Clause)
    requires IsInstance(a, c) && IsInstance(b, d) && c.head.Some?
    requires a.head.NormalHead? && RenamedApart(a.head.pattern, b)
    ensures c.head.value in d.pos ==> CanFeed(a.head.pattern, b)
    ensures c.head.value in d.neg ==> CanBlock(a.head.pattern, b)
  {
    var q := c.head.value;
    HeadInstance(a, c);
    var s :| Admits(b, s) && d == ClauseFor(d.prog, d.rid, b, s);
    if q in d.pos {
      var ps := Positives(b.body);
      var j :| 0 <= j < |d.pos| && d.pos[j] == q;
      VarsInList(ps, ps[j]);
      assert ApplyQuad(s, ps[j]) == q;
      assert IsInstanceOf(q, ps[j]);
      PositivesContain(b.body, ps[j]);
      SharedInstance(a.head.pattern, ps[j], q);
    }
    if q in d.neg {
      var p :| p in Negatives(b.body) && GetSubstitutions(s, q, p).Some?;
      MatchSound(s, q, p);
      assert IsInstanceOf(q, p);
      NegativesContain(b.body, p);
      SharedInstance(a.head.pattern, p, q);
    }
  }

  lemma HeadInstance(a: Rule, c: Clause)
    requires IsInstance(a, c) && c.head.Some?
    ensures a.head.NormalHead? && IsInstanceOf(c.head.value, a.head.pattern)
  {
    var s :| Admits(a, s) && c == ClauseFor(c.prog, c.rid, a, s);
    assert PatternVars(a.head.pattern) <= s.Keys && ApplyQuad(s, a.head.pattern) == c.head.value;
  }

  // ---- A rule and itself ----

  function RenameTerm(t: Term, names: map<string, string>): Term {
    if t.Variable? && t.name in names then Variable(names[t.name]) else t
  }

  function RenamePattern(p: QuadPattern, names: map<string, string>): QuadPattern {
    QuadPattern(RenameTerm(p.graph, names), RenameTerm(p.subject, names), RenameTerm(p.pred, names), RenameTerm(p.obj, names))
  }

  /** `h` is `p` with other variable names. */
  ghost predicate IsCopy(h: QuadPattern, p: QuadPattern) {
    exists names: map<string, string> :: PatternVars(h) <= names.Keys && RenamePattern(h, names) == p
  }

  lemma RenamedTerm(t: Term, names: map<string, string>, s: Substitution, s': Substitution)
    requires TermVars(t) <= names.Keys && TermVars(RenameTerm(t, names)) <= s.Keys
    requires forall v | v in TermVars(t) :: v in s' && (names[v] in s ==> s'[v] == s[names[v]])
    ensures ApplyTerm(s', t) == ApplyTerm(s, RenameTerm(t, names))
  {
  }

  lemma CopyInstance(h: QuadPattern, p: QuadPattern, q: Quad)
    requires IsCopy(h, p) && IsInstanceOf(q, p)
    ensures IsInstanceOf(q, h)
  {
    var names: map<string, string> :| PatternVars(h) <= names.Keys && RenamePattern(h, names) == p;
    var s: Substitution :| PatternVars(p) <= s.Keys && ApplyQuad(s, p) == q;
    var s': Substitution := map v | v in PatternVars(h) :: if names[v] in s then s[names[v]] else 0;
    RenamedTerm(h.graph, names, s, s');
    RenamedTerm(h.subject, names, s, s');
    RenamedTerm(h.pred, names, s, s');
    RenamedTerm(h.obj, names, s, s');
    assert ApplyQuad(s', h) == q;
  }

  /** A copy of the head, with names that its NOT atoms do not use, unifies with none of them. */
  ghost predicate SelfApart(rule: Rule) {
    rule.head.NormalHead? ==> exists h :: IsCopy(h, rule.head.pattern) && Avoids(h, rule)
  }

  ghost predicate Avoids(h: QuadPattern, rule: Rule) {
    forall p | NotPattern(p) in rule.body :: PatternVars(h) !! PatternVars(p) && !Unifiable(h, p)
  }

  /** Then no instance of the rule blocks an instance of the same rule. */
  lemma SelfApartMeans(rule: Rule, c: Clause, d: Clause)
    requires SelfApart(rule) && IsInstance(rule, c) && IsInstance(rule, d) && c.head.Some?
    ensures c.head.value !in d.neg
  {
    var q := c.head.value;
    HeadInstance(rule, c);
    var h :| IsCopy(h, rule.head.pattern) && Avoids(h, rule);
    CopyInstance(h, rule.head.pattern, q);
    var s :| Admits(rule, s) && d == ClauseFor(d.prog, d.rid, rule, s);
    forall p | p in Negatives(rule.body) ensures GetSubstitutions(s, q, p).None? {
      NegativesContain(rule.body, p);
      if GetSubstitutions(s, q, p).Some? {
        MatchSound(s, q, p);
        assert IsInstanceOf(q, p);
        SharedInstance(h, p, q);
      }
    }
  }

  /** A name longer than all of `names`. */
  lemma {:induction false} LongName(names: set<string>) returns (n: nat)
    ensures forall v | v in names :: |v| < n
  {
    if names == {} {
      n := 0;
    } else {
      var v :| v in names;
      var m := LongName(names - {v});
      n := if |v| < m then m else |v| + 1;
    }
  }

  function NewName(n: nat): (v: string)
    ensures |v| == n
  {
    seq(n, k => 'v')
  }

  function FreshTerm(t: Term, n: nat): Term {
    if t.Resource? then t else Variable(NewName(n))
  }

  /** Every pattern has copies whose names avoid any given ones. */
  lemma FreshCopy(p: QuadPattern, names: set<string>) returns (h: QuadPattern)
    ensures IsCopy(h, p) && PatternVars(h) !! names
    ensures (p.pred.Resource? ==> h.pred == p.pred) && (p.obj.Resource? ==> h.obj == p.obj)
  {
    var n := LongName(names);
    h := QuadPattern(FreshTerm(p.graph, n), FreshTerm(p.subject, n + 1), FreshTerm(p.pred, n + 2), FreshTerm(p.obj, n + 3));
    var back: map<string, string> := map[NewName(n) := NameOf(p.graph), NewName(n + 1) := NameOf(p.subject),
                                         NewName(n + 2) := NameOf(p.pred), NewName(n + 3) := NameOf(p.obj)];
    assert forall k: nat, m: nat :: k != m ==> |NewName(k)| != |NewName(m)|;
    hide NewName;
    assert RenamePattern(h, back) == p;
  }

  function NameOf(t: Term): string {
    if t.Variable? then t.name else ""
  }

  /** The usual rule with NOT: what it derives and what it negates have different predicates. */
  ghost predicate OtherPredicates(rule: Rule) {
    rule.head.NormalHead? ==>
      rule.head.pattern.pred.Resource? &&
      forall p | NotPattern(p) in rule.body :: p.pred.Resource? && p.pred != rule.head.pattern.pred
  }

  /** Such a rule is apart from itself, whatever variables its head and its body share. */
  lemma OrdinarySelfApart(rule: Rule)
    requires OtherPredicates(rule)
    ensures SelfApart(rule)
  {
    if rule.head.NormalHead? {
      var h := FreshCopy(rule.head.pattern, ListVars(Negatives(rule.body)));
      forall p | NotPattern(p) in rule.body ensures PatternVars(h) !! PatternVars(p) && !Unifiable(h, p) {
        NegativesContain(rule.body, p);
        VarsInList(Negatives(rule.body), p);
        var u1 := UnifyTerms(h.subject, p.subject, Maps(map[], map[]));
        assert !UnifyTerms(h.pred, p.pred, u1.1).0;
      }
      assert Avoids(h, rule);
    }
  }
}
