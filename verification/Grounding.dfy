/** From rules to their ground instances, and from recorded derivations back to instances. */
module Grounding {
  import opened Syntax
  import opened Matching
  import opened Clauses

  function Positives(body: seq<RuleAtom>): (ps: seq<QuadPattern>) {
    if body == [] then []
    else if body[0].PositivePattern? then [body[0].pattern] + Positives(body[1..])
    else Positives(body[1..])
  }

  function Negatives(body: seq<RuleAtom>): (ps: seq<QuadPattern>) {
    if body == [] then []
    else if body[0].NotPattern? then [body[0].pattern] + Negatives(body[1..])
    else Negatives(body[1..])
  }

  lemma {:induction false} PositivesContain(body: seq<RuleAtom>, p: QuadPattern)
    ensures p in Positives(body) <==> PositivePattern(p) in body
  {
    if body != [] {
      PositivesContain(body[1..], p);
      assert body == [body[0]] + body[1..];
    }
  }

  lemma {:induction false} NegativesContain(body: seq<RuleAtom>, p: QuadPattern)
    ensures p in Negatives(body) <==> NotPattern(p) in body
  {
    if body != [] {
      NegativesContain(body[1..], p);
      assert body == [body[0]] + body[1..];
    }
  }

  /** The variables the positive atoms bind. */
  function BoundVars(rule: Rule): set<string> {
    ListVars(Positives(rule.body))
  }

  function ResolveTerm(t: Term, sub: Substitution): Option<GraphElementId> {
    match t
    case Resource(id) => Some(id)
    case Variable(v) => if v in sub then Some(sub[v]) else None
  }

  /** An inequality guard holds unless both sides are bound and equal. */
  predicate GuardHolds(a: RuleAtom, sub: Substitution) {
    a.NotEqualsAtom? ==>
      var l, r := ResolveTerm(a.left, sub), ResolveTerm(a.right, sub);
      l.None? || r.None? || l != r
  }

  predicate GuardsHold(body: seq<RuleAtom>, sub: Substitution) {
    forall a | a in body :: GuardHolds(a, sub)
  }

  /** Where both sides of an inequality atom are bound, they have different values. */
  ghost predicate Distinguishes(body: seq<RuleAtom>, s: Substitution) {
    forall l, r | NotEqualsAtom(l, r) in body && TermVars(l) <= s.Keys && TermVars(r) <= s.Keys :: ApplyTerm(s, l) != ApplyTerm(s, r)
  }

  /** The guards pass exactly then; an unbound side lets them pass. */
  lemma GuardsExact(body: seq<RuleAtom>, s: Substitution)
    ensures GuardsHold(body, s) <==> Distinguishes(body, s)
  {
    forall t ensures ResolveTerm(t, s) == if TermVars(t) <= s.Keys then Some(ApplyTerm(s, t)) else None {
      if t.Variable? { assert t.name in TermVars(t); }
    }
    if Distinguishes(body, s) {
      forall a | a in body ensures GuardHolds(a, s) {
        if a.NotEqualsAtom? { assert NotEqualsAtom(a.left, a.right) in body; }
      }
    }
    if GuardsHold(body, s) {
      forall l, r | NotEqualsAtom(l, r) in body && TermVars(l) <= s.Keys && TermVars(r) <= s.Keys
        ensures ApplyTerm(s, l) != ApplyTerm(s, r)
      {
        assert GuardHolds(NotEqualsAtom(l, r), s);
      }
    }
  }

  predicate IsFact(rule: Rule) {
    rule.body == []
  }

  /**
   * Rules fire from a matched positive atom, and body-less rules are seeded.  A rule whose body has
   * only NOT and != atoms is never triggered.
   */
  predicate Triggerable(rule: Rule) {
    IsFact(rule) || Positives(rule.body) != []
  }

  /** Every head variable is bound by a positive atom. */
  predicate RangeRestricted(rule: Rule) {
    rule.head.NormalHead? ==> PatternVars(rule.head.pattern) <= BoundVars(rule)
  }

  /** The quads that would match some NOT atom under `s`; unbound variables match anything. */
  ghost function Blockers(rule: Rule, s: Substitution): set<Quad> {
    set q | q in AllQuads() && BlockedBy(rule, s, q)
  }

  ghost predicate BlockedBy(rule: Rule, s: Substitution, q: Quad) {
    exists p :: p in Negatives(rule.body) && GetSubstitutions(s, q, p).Some?
  }

  function HeadOf(rule: Rule, s: Substitution): Option<Quad> {
    match rule.head
    case Contradiction => None
    case NormalHead(p) => if PatternVars(p) <= s.Keys then Some(ApplyQuad(s, p)) else None
  }

  /** `s` binds the positive variables and no others, and passes the inequality guards. */
  ghost predicate Admits(rule: Rule, s: Substitution) {
    s.Keys == BoundVars(rule) && Triggerable(rule) && GuardsHold(rule.body, s)
  }

  /** So every instance has different values wherever its rule demands it. */
  lemma AdmitsExact(rule: Rule, s: Substitution)
    ensures Admits(rule, s) <==> s.Keys == BoundVars(rule) && Triggerable(rule) && Distinguishes(rule.body, s)
  {
    GuardsExact(rule.body, s);
  }

  /** A quad blocks an instance exactly when some choice for the unbound variables of a NOT atom turns the atom into it. */
  lemma BlockersExact(rule: Rule, s: Substitution, q: Quad)
    ensures q in Blockers(rule, s) <==> exists p, r :: NotPattern(p) in rule.body && Grounds(s, r, p) && ApplyQuad(r, p) == q
  {
    EveryQuad(q);
    if q in Blockers(rule, s) {
      var p :| p in Negatives(rule.body) && GetSubstitutions(s, q, p).Some?;
      NegativesContain(rule.body, p);
      var r := GetSubstitutions(s, q, p).value;
      MatchExact(s, q, p, r);
      assert Grounds(s, r, p);
    }
    forall p, r | NotPattern(p) in rule.body && Grounds(s, r, p) && ApplyQuad(r, p) == q ensures BlockedBy(rule, s, q) {
      NegativesContain(rule.body, p);
      MatchExact(s, q, p, r);
    }
  }

  /** `r` extends `s` by the variables of `p`. */
  ghost predicate Grounds(s: Substitution, r: Substitution, p: QuadPattern)
    ensures Grounds(s, r, p) ==> PatternVars(p) <= r.Keys
  {
    Extends(s, r) && r.Keys == s.Keys + PatternVars(p)
  }

  ghost function ClauseFor(prog: nat, rid: nat, rule: Rule, s: Substitution): Clause
    requires s.Keys == BoundVars(rule)
  {
    Clause(prog, rid, HeadOf(rule, s), Witnesses(s, Positives(rule.body)), Blockers(rule, s))
  }

  ghost predicate IsInstance(rule: Rule, c: Clause) {
    exists s :: Admits(rule, s) && c == ClauseFor(c.prog, c.rid, rule, s)
  }

  /** The ground instances of the enabled rules of one program. */
  ghost function RuleClauses(prog: nat, rules: seq<Rule>, disabled: set<nat>): Program {
    iset c: Clause | c.prog == prog && c.rid < |rules| && c.rid !in disabled && IsInstance(rules[c.rid], c)
  }

  type Index = map<Quad, seq<Derivation>>

  ghost predicate Holds(index: Index, q: Quad, d: Derivation) {
    q in index && d in index[q]
  }

  /** The ground instances on record in `index`. */
  ghost function RecordedIn(prog: nat, rules: seq<Rule>, index: Index): Program {
    iset c: Clause | c.prog == prog && c.rid < |rules| && c.head.Some? && IsInstance(rules[c.rid], c) &&
             Holds(index, c.head.value, Derivation(c.rid, c.pos))
  }

  /** A record names a rule of the program and is one of its instances. */
  ghost predicate EntryOk(rules: seq<Rule>, q: Quad, d: Derivation) {
    d.ruleId < |rules| && Positives(rules[d.ruleId].body) != [] &&
    exists s :: Admits(rules[d.ruleId], s) && HeadOf(rules[d.ruleId], s) == Some(q) &&
                Witnesses(s, Positives(rules[d.ruleId].body)) == d.bodyWitnesses
  }

  ghost predicate IndexOk(rules: seq<Rule>, index: Index) {
    forall q, d | Holds(index, q, d) :: EntryOk(rules, q, d)
  }

  /** The substitution of a recorded derivation is what replaying its witnesses gives. */
  lemma Reconstructs(rule: Rule, s: Substitution)
    requires s.Keys == BoundVars(rule)
    ensures MatchFrom(map[], Positives(rule.body), Witnesses(s, Positives(rule.body))) == Some(s)
  {
    ReplayExact(map[], Positives(rule.body), s);
  }

  /** An instance is determined by its rule and its positive witnesses. */
  lemma InstanceUnique(rule: Rule, s: Substitution, s': Substitution)
    requires s.Keys == BoundVars(rule) && s'.Keys == BoundVars(rule)
    requires Witnesses(s, Positives(rule.body)) == Witnesses(s', Positives(rule.body))
    ensures s == s'
  {
    Reconstructs(rule, s);
    Reconstructs(rule, s');
  }

  /** The instance a record stands for. */
  lemma EntryClause(prog: nat, rules: seq<Rule>, index: Index, q: Quad, d: Derivation) returns (c: Clause)
    requires IndexOk(rules, index) && Holds(index, q, d)
    ensures c in RecordedIn(prog, rules, index)
    ensures c.prog == prog && c.rid == d.ruleId && c.head == Some(q) && c.pos == d.bodyWitnesses && c.pos != []
    ensures MatchFrom(map[], Positives(rules[d.ruleId].body), d.bodyWitnesses).Some?
    ensures c.neg == Blockers(rules[d.ruleId], MatchFrom(map[], Positives(rules[d.ruleId].body), d.bodyWitnesses).value)
  {
    var rule := rules[d.ruleId];
    var s :| Admits(rule, s) && HeadOf(rule, s) == Some(q) && Witnesses(s, Positives(rule.body)) == d.bodyWitnesses;
    c := ClauseFor(prog, d.ruleId, rule, s);
    Reconstructs(rule, s);
  }

  lemma RecordedPos(prog: nat, rules: seq<Rule>, index: Index, c: Clause)
    requires IndexOk(rules, index) && c in RecordedIn(prog, rules, index)
    ensures c.pos != []
  {
    assert EntryOk(rules, c.head.value, Derivation(c.rid, c.pos));
  }

  /** Recording the derivation that `s` produces adds exactly its instance. */
  lemma RecordAdds(prog: nat, rid: nat, rules: seq<Rule>, index: Index, index': Index, s: Substitution)
    requires rid < |rules| && Admits(rules[rid], s) && Positives(rules[rid].body) != []
    requires HeadOf(rules[rid], s).Some?
    requires IndexOk(rules, index)
    requires forall q, d :: Holds(index', q, d) <==>
               Holds(index, q, d) ||
               (Some(q) == HeadOf(rules[rid], s) && d == Derivation(rid, Witnesses(s, Positives(rules[rid].body))))
    ensures IndexOk(rules, index')
    ensures RecordedIn(prog, rules, index') == RecordedIn(prog, rules, index) + iset{ClauseFor(prog, rid, rules[rid], s)}
  {
    var c0 := ClauseFor(prog, rid, rules[rid], s);
    assert IsInstance(rules[rid], c0);
    forall c | c in RecordedIn(prog, rules, index')
      ensures c in RecordedIn(prog, rules, index) || c == c0
    {
      if !Holds(index, c.head.value, Derivation(c.rid, c.pos)) {
        var s' :| Admits(rules[c.rid], s') && c == ClauseFor(c.prog, c.rid, rules[c.rid], s');
        InstanceUnique(rules[rid], s, s');
      }
    }
  }

  lemma FactInstance(rule: Rule, c: Clause)
    requires IsInstance(rule, c) && c.pos == []
    ensures rule.body == [] && c.neg == {}
  {
    var s :| Admits(rule, s) && c == ClauseFor(c.prog, c.rid, rule, s);
    assert |c.pos| == |Positives(rule.body)|;
  }
}
