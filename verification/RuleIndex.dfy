/** The wildcard index from facts to the rule atoms they can match. */
module RuleIndex {
  import opened Syntax
  import opened Matching
  import opened Grounding

  datatype ResourceOrWildcard = Exactly(id: GraphElementId) | Wildcard

  datatype QuadWildcard = QuadWildcard(graph: ResourceOrWildcard, subject: ResourceOrWildcard,
                                       pred: ResourceOrWildcard, obj: ResourceOrWildcard)

  /** A rule together with the body atom that a fact may trigger. */
  datatype PartialRule = PartialRule(rule: Rule, matchPattern: QuadPattern, ruleId: nat)

  datatype PartialRuleMatch = PartialRuleMatch(partialRule: PartialRule, substitution: Substitution)

  function ToWildcard(t: Term): ResourceOrWildcard {
    match t
    case Variable(_) => Wildcard
    case Resource(r) => Exactly(r)
  }

  /** The one index key of a rule atom. */
  function DirectWildcardPattern(p: QuadPattern): QuadWildcard {
    QuadWildcard(ToWildcard(p.graph), ToWildcard(p.subject), ToWildcard(p.pred), ToWildcard(p.obj))
  }

  function ConstantQuadPattern(q: Quad): QuadPattern {
    QuadPattern(Resource(q.graph), Resource(q.subject), Resource(q.pred), Resource(q.obj))
  }

  function Expand(t: Term): (ws: seq<ResourceOrWildcard>)
    ensures NoDup(ws)
  {
    match t
    case Variable(_) => [Wildcard]
    case Resource(r) => [Exactly(r), Wildcard]
  }

  ghost predicate KeyOf(w: QuadWildcard, p: QuadPattern) {
    w.graph in Expand(p.graph) && w.subject in Expand(p.subject) && w.pred in Expand(p.pred) && w.obj in Expand(p.obj)
  }

  /** Every key a pattern expands to, each once: 16 for a fact. */
  method WildcardQuadPattern(p: QuadPattern) returns (result: seq<QuadWildcard>)
    ensures NoDup(result)
    ensures forall w :: w in result <==> KeyOf(w, p)
  {
    var graphs, subjects, preds, objs := Expand(p.graph), Expand(p.subject), Expand(p.pred), Expand(p.obj);
    result := [];
    for g := 0 to |graphs|
      invariant NoDup(result)
      invariant forall w :: w in result <==> w.graph in graphs[..g] && w.subject in subjects && w.pred in preds && w.obj in objs
    {
      ghost var before := result;
      for s := 0 to |subjects|
        invariant NoDup(result)
        invariant forall w :: w in result <==>
                    (w in before || (w.graph == graphs[g] && w.subject in subjects[..s] && w.pred in preds && w.obj in objs))
      {
        var block := Block(graphs[g], subjects[s], preds, objs);
        forall w | w in block ensures w !in result {
          assert w.graph !in graphs[..g] && w.subject !in subjects[..s];
        }
        AppendNoDup(result, block);
        result := result + block;
        assert subjects[..s + 1] == subjects[..s] + [subjects[s]];
      }
      assert graphs[..g + 1] == graphs[..g] + [graphs[g]];
    }
  }

  /** The two inner loops: all keys with one graph and one subject component. */
  method Block(g: ResourceOrWildcard, s: ResourceOrWildcard, preds: seq<ResourceOrWildcard>, objs: seq<ResourceOrWildcard>)
    returns (result: seq<QuadWildcard>)
    requires NoDup(preds) && NoDup(objs)
    ensures NoDup(result)
    ensures forall w :: w in result <==> w.graph == g && w.subject == s && w.pred in preds && w.obj in objs
  {
    result := [];
    for p := 0 to |preds|
      invariant NoDup(result)
      invariant forall w :: w in result <==> w.graph == g && w.subject == s && w.pred in preds[..p] && w.obj in objs
    {
      for o := 0 to |objs|
        invariant NoDup(result)
        invariant forall w :: w in result <==>
                    (w.graph == g && w.subject == s &&
                     ((w.pred in preds[..p] && w.obj in objs) || (w.pred == preds[p] && w.obj in objs[..o])))
      {
        var w := QuadWildcard(g, s, preds[p], objs[o]);
        assert preds[p] !in preds[..p] && objs[o] !in objs[..o];
        AppendNoDup(result, [w]);
        result := result + [w];
        assert objs[..o + 1] == objs[..o] + [objs[o]];
      }
      assert preds[..p + 1] == preds[..p] + [preds[p]];
    }
  }

  lemma AppendNoDup<T>(a: seq<T>, b: seq<T>)
    requires NoDup(a) && NoDup(b) && forall x | x in b :: x !in a
    ensures NoDup(a + b)
  {
    forall i, j | 0 <= i < j < |a + b| ensures (a + b)[i] != (a + b)[j] {
      if i < |a| <= j {
        assert (a + b)[i] in a && (a + b)[j] in b;
      }
    }
  }

  /** A fact that matches an atom finds the atom's key among its own keys - and only there. */
  lemma KeyFound(q: Quad, p: QuadPattern)
    requires GetSubstitutions(map[], q, p).Some?
    ensures KeyOf(DirectWildcardPattern(p), ConstantQuadPattern(q))
  {
    MatchSound(map[], q, p);
  }

  // ---- The maps of a program ----

  type RuleMap = map<QuadWildcard, seq<PartialRule>>
  type NegRuleMap = map<QuadWildcard, seq<(nat, QuadPattern)>>

  function PartialsAt(m: RuleMap, w: QuadWildcard): seq<PartialRule> {
    if w in m then m[w] else []
  }

  function NegativesAt(m: NegRuleMap, w: QuadWildcard): seq<(nat, QuadPattern)> {
    if w in m then m[w] else []
  }

  ghost predicate IsPartial(rules: seq<Rule>, pr: PartialRule) {
    pr.ruleId < |rules| && pr.rule == rules[pr.ruleId] && pr.matchPattern in Positives(pr.rule.body)
  }

  ghost predicate IsNegative(rules: seq<Rule>, rid: nat, p: QuadPattern) {
    rid < |rules| && p in Negatives(rules[rid].body)
  }

  /** Each positive atom of each rule is filed under its key, and nothing else is. */
  ghost predicate PartialsExact(rules: seq<Rule>, m: RuleMap) {
    forall w, pr :: pr in PartialsAt(m, w) <==> IsPartial(rules, pr) && DirectWildcardPattern(pr.matchPattern) == w
  }

  /** No rule states the same atom twice. */
  ghost predicate AtomsOnce(rules: seq<Rule>) {
    forall r | r in rules :: NoDup(r.body)
  }

  ghost predicate PartialsOnce(m: RuleMap) {
    forall w :: NoDup(PartialsAt(m, w))
  }

  /** Nothing is missing from the map, nothing else is in it, and an atom is filed once for each time it is stated. */
  ghost predicate RuleMapOk(rules: seq<Rule>, m: RuleMap) {
    PartialsExact(rules, m) && (AtomsOnce(rules) ==> PartialsOnce(m))
  }

  ghost predicate NegRuleMapOk(rules: seq<Rule>, m: NegRuleMap) {
    forall w, rid: nat, p :: (rid, p) in NegativesAt(m, w) <==> IsNegative(rules, rid, p) && DirectWildcardPattern(p) == w
  }

  ghost predicate MarksOk(rules: seq<Rule>, marks: set<nat>) {
    forall rid :: rid in marks <==> 0 <= rid < |rules| && Negatives(rules[rid].body) != []
  }

  ghost predicate NewPartial(pr: PartialRule, rule: Rule, rid: nat, atoms: seq<RuleAtom>, w: QuadWildcard) {
    pr.ruleId == rid && pr.rule == rule && PositivePattern(pr.matchPattern) in atoms && DirectWildcardPattern(pr.matchPattern) == w
  }

  /** `m'` is `m` with the positive atoms of one rule filed. */
  ghost predicate PartialsFiled(m: RuleMap, m': RuleMap, rule: Rule, rid: nat, atoms: seq<RuleAtom>) {
    forall w, pr :: pr in PartialsAt(m', w) <==> (pr in PartialsAt(m, w) || NewPartial(pr, rule, rid, atoms, w))
  }

  /** `m'` is `m` with the NOT atoms of one rule filed. */
  ghost predicate NegativesFiled(m: NegRuleMap, m': NegRuleMap, rid: nat, atoms: seq<RuleAtom>) {
    forall w, r: nat, p :: (r, p) in NegativesAt(m', w) <==>
                           ((r, p) in NegativesAt(m, w) || (r == rid && NotPattern(p) in atoms && DirectWildcardPattern(p) == w))
  }

  ghost predicate HasNot(atoms: seq<RuleAtom>) {
    exists p :: NotPattern(p) in atoms
  }

  lemma HasNotSnoc(atoms: seq<RuleAtom>, a: RuleAtom)
    ensures HasNot(atoms + [a]) <==> HasNot(atoms) || a.NotPattern?
  {
    if a.NotPattern? { assert NotPattern(a.pattern) in atoms + [a]; }
    forall p | NotPattern(p) in atoms ensures HasNot(atoms + [a]) { assert NotPattern(p) in atoms + [a]; }
  }

  lemma PartialsStep(m: RuleMap, m': RuleMap, m2: RuleMap, rule: Rule, rid: nat, atoms: seq<RuleAtom>, a: RuleAtom)
    requires PartialsFiled(m, m', rule, rid, atoms)
    requires m2 == if a.PositivePattern?
                   then var w := DirectWildcardPattern(a.pattern);
                        m'[w := PartialsAt(m', w) + [PartialRule(rule, a.pattern, rid)]]
                   else m'
    ensures PartialsFiled(m, m2, rule, rid, atoms + [a])
  {
    forall w, pr ensures pr in PartialsAt(m2, w) <==> (pr in PartialsAt(m, w) || NewPartial(pr, rule, rid, atoms + [a], w)) {
      assert NewPartial(pr, rule, rid, atoms + [a], w) <==>
             NewPartial(pr, rule, rid, atoms, w) || NewPartial(pr, rule, rid, [a], w);
    }
  }

  /** An atom that is new in its rule is new in its bucket. */
  lemma PartialsOnceStep(rules: seq<Rule>, rid: nat, m: RuleMap, m': RuleMap, a: nat, m2: RuleMap)
    requires rid < |rules| && a < |rules[rid].body| && NoDup(rules[rid].body)
    requires PartialsExact(rules[..rid], m) && PartialsFiled(m, m', rules[rid], rid, rules[rid].body[..a]) && PartialsOnce(m')
    requires var atom := rules[rid].body[a];
             m2 == if atom.PositivePattern?
                   then var w := DirectWildcardPattern(atom.pattern);
                        m'[w := PartialsAt(m', w) + [PartialRule(rules[rid], atom.pattern, rid)]]
                   else m'
    ensures PartialsOnce(m2)
  {
    var atom := rules[rid].body[a];
    if atom.PositivePattern? {
      var w, pr := DirectWildcardPattern(atom.pattern), PartialRule(rules[rid], atom.pattern, rid);
      assert pr !in PartialsAt(m, w) by { assert !IsPartial(rules[..rid], pr); }
      assert !NewPartial(pr, rules[rid], rid, rules[rid].body[..a], w);
      AppendNoDup(PartialsAt(m', w), [pr]);
      forall k ensures NoDup(PartialsAt(m2, k)) {
        assert NoDup(PartialsAt(m', k));
      }
    }
  }

  lemma NegativesStep(m: NegRuleMap, m': NegRuleMap, m2: NegRuleMap, rid: nat, atoms: seq<RuleAtom>, a: RuleAtom)
    requires NegativesFiled(m, m', rid, atoms)
    requires m2 == if a.NotPattern?
                   then var w := DirectWildcardPattern(a.pattern);
                        m'[w := NegativesAt(m', w) + [(rid, a.pattern)]]
                   else m'
    ensures NegativesFiled(m, m2, rid, atoms + [a])
  {
    forall w, r: nat, p
      ensures (r, p) in NegativesAt(m2, w) <==>
              ((r, p) in NegativesAt(m, w) || (r == rid && NotPattern(p) in atoms + [a] && DirectWildcardPattern(p) == w))
    {
      assert NotPattern(p) in atoms + [a] <==> NotPattern(p) in atoms || NotPattern(p) == a;
      assert (r, p) in NegativesAt(m', w) <==>
             ((r, p) in NegativesAt(m, w) || (r == rid && NotPattern(p) in atoms && DirectWildcardPattern(p) == w));
    }
  }

  /** File the atoms of one rule. */
  method FileRule(rules: seq<Rule>, rid: nat, ruleMap: RuleMap, negRuleMap: NegRuleMap, marks: set<nat>)
    returns (ruleMap': RuleMap, negRuleMap': NegRuleMap, marks': set<nat>)
    requires rid < |rules|
    requires RuleMapOk(rules[..rid], ruleMap) && NegRuleMapOk(rules[..rid], negRuleMap) && MarksOk(rules[..rid], marks)
    ensures RuleMapOk(rules[..rid + 1], ruleMap') && NegRuleMapOk(rules[..rid + 1], negRuleMap') && MarksOk(rules[..rid + 1], marks')
  {
    var body := rules[rid].body;
    ruleMap', negRuleMap', marks' := ruleMap, negRuleMap, marks;
    assert rules[..rid + 1] == rules[..rid] + [rules[rid]];
    assert AtomsOnce(rules[..rid + 1]) ==> AtomsOnce(rules[..rid]) && NoDup(body);
    for a := 0 to |body|
      invariant PartialsFiled(ruleMap, ruleMap', rules[rid], rid, body[..a])
      invariant NegativesFiled(negRuleMap, negRuleMap', rid, body[..a])
      invariant AtomsOnce(rules[..rid + 1]) ==> PartialsOnce(ruleMap')
      invariant marks' == marks + (if HasNot(body[..a]) then {rid} else {})
    {
      assert body[..a + 1] == body[..a] + [body[a]];
      HasNotSnoc(body[..a], body[a]);
      ghost var ruleMap1, negRuleMap1 := ruleMap', negRuleMap';
      hide HasNot, PartialsExact, PartialsOnce, AtomsOnce, NoDup, NegRuleMapOk, MarksOk, PartialsFiled, NegativesFiled;
      match body[a] {
        case PositivePattern(p) =>
          var w := DirectWildcardPattern(p);
          ruleMap' := ruleMap'[w := PartialsAt(ruleMap', w) + [PartialRule(rules[rid], p, rid)]];
        case NotPattern(p) =>
          var w := DirectWildcardPattern(p);
          negRuleMap' := negRuleMap'[w := NegativesAt(negRuleMap', w) + [(rid, p)]];
          marks' := marks' + {rid};
        case NotEqualsAtom(_, _) =>
      }
      PartialsStep(ruleMap, ruleMap1, ruleMap', rules[rid], rid, body[..a], body[a]);
      NegativesStep(negRuleMap, negRuleMap1, negRuleMap', rid, body[..a], body[a]);
      if AtomsOnce(rules[..rid + 1]) {
        PartialsOnceStep(rules, rid, ruleMap, ruleMap1, a, ruleMap');
      }
    }
    assert body[..|body|] == body;
    hide PartialsExact, PartialsOnce, AtomsOnce, NegRuleMapOk, MarksOk, PartialsFiled, NegativesFiled;
    FiledOk(rules, rid, ruleMap, ruleMap', negRuleMap, negRuleMap', marks, marks');
  }

  lemma FiledOk(rules: seq<Rule>, rid: nat, ruleMap: RuleMap, ruleMap': RuleMap, negRuleMap: NegRuleMap,
                negRuleMap': NegRuleMap, marks: set<nat>, marks': set<nat>)
    requires rid < |rules|
    requires PartialsExact(rules[..rid], ruleMap) && NegRuleMapOk(rules[..rid], negRuleMap) && MarksOk(rules[..rid], marks)
    requires PartialsFiled(ruleMap, ruleMap', rules[rid], rid, rules[rid].body)
    requires NegativesFiled(negRuleMap, negRuleMap', rid, rules[rid].body)
    requires marks' == marks + (if HasNot(rules[rid].body) then {rid} else {})
    ensures PartialsExact(rules[..rid + 1], ruleMap') && NegRuleMapOk(rules[..rid + 1], negRuleMap') && MarksOk(rules[..rid + 1], marks')
  {
    var body := rules[rid].body;
    forall p ensures p in Positives(body) <==> PositivePattern(p) in body { PositivesContain(body, p); }
    forall p ensures p in Negatives(body) <==> NotPattern(p) in body { NegativesContain(body, p); }
    if Negatives(body) != [] {
      assert Negatives(body)[0] in Negatives(body);
    }
  }

  /** The maps of a whole program, filed rule by rule. */
  method BuildMaps(rules: seq<Rule>) returns (ruleMap: RuleMap, negRuleMap: NegRuleMap, marks: set<nat>)
    ensures RuleMapOk(rules, ruleMap) && NegRuleMapOk(rules, negRuleMap) && MarksOk(rules, marks)
  {
    ruleMap, negRuleMap, marks := map[], map[], {};
    for rid := 0 to |rules|
      invariant RuleMapOk(rules[..rid], ruleMap) && NegRuleMapOk(rules[..rid], negRuleMap) && MarksOk(rules[..rid], marks)
    {
      ruleMap, negRuleMap, marks := FileRule(rules, rid, ruleMap, negRuleMap, marks);
    }
    assert rules[..|rules|] == rules;
  }

  // ---- Fact-side lookup ----

  /** A match of `q` against one positive atom of one enabled rule. */
  ghost predicate IsTrigger(rules: seq<Rule>, disabled: set<nat>, q: Quad, m: PartialRuleMatch) {
    && IsPartial(rules, m.partialRule) && m.partialRule.ruleId !in disabled
    && GetSubstitutions(map[], q, m.partialRule.matchPattern) == Some(m.substitution)
  }

  /** Every enabled rule atom that `fact` matches, found through the fact's keys, once for each time it is stated. */
  method GetRulesForFact(rules: seq<Rule>, ruleMap: RuleMap, disabled: set<nat>, fact: Quad) returns (matches: seq<PartialRuleMatch>)
    requires RuleMapOk(rules, ruleMap)
    ensures forall m :: m in matches <==> IsTrigger(rules, disabled, fact, m)
    ensures AtomsOnce(rules) ==> NoDup(matches)
  {
    var keys := WildcardQuadPattern(ConstantQuadPattern(fact));
    matches := [];
    hide NoDup, AtomsOnce, PartialsOnce;
    assert NoDup<PartialRuleMatch>([]) by { NoDupNone<PartialRuleMatch>(); }
    for k := 0 to |keys|
      invariant AtomsOnce(rules) ==> NoDup(matches)
      invariant forall m :: m in matches <==>
                  (IsTrigger(rules, disabled, fact, m) && DirectWildcardPattern(m.partialRule.matchPattern) in keys[..k])
    {
      var found := MatchesIn(PartialsAt(ruleMap, keys[k]), disabled, fact);
      if AtomsOnce(rules) {
        OnceAt(ruleMap, keys[k]);
        NotAmong(keys, k);
        AppendNoDup(matches, found);
      }
      matches := matches + found;
      assert keys[..k + 1] == keys[..k] + [keys[k]];
    }
    assert keys[..|keys|] == keys;
    forall m | IsTrigger(rules, disabled, fact, m) ensures m in matches {
      KeyFound(fact, m.partialRule.matchPattern);
    }
  }

  lemma NoDupNone<T>()
    ensures NoDup<T>([])
  {
  }

  lemma OnceAt(m: RuleMap, w: QuadWildcard)
    requires PartialsOnce(m)
    ensures NoDup(PartialsAt(m, w))
  {
  }

  lemma NotAmong<T>(s: seq<T>, k: nat)
    requires NoDup(s) && k < |s|
    ensures s[k] !in s[..k]
  {
  }

  method MatchesIn(bucket: seq<PartialRule>, disabled: set<nat>, fact: Quad) returns (matches: seq<PartialRuleMatch>)
    ensures forall m :: m in matches <==>
              (m.partialRule in bucket && m.partialRule.ruleId !in disabled &&
               GetSubstitutions(map[], fact, m.partialRule.matchPattern) == Some(m.substitution))
    ensures NoDup(bucket) ==> NoDup(matches)
  {
    matches := [];
    for k := 0 to |bucket|
      invariant forall m :: m in matches <==>
                  (m.partialRule in bucket[..k] && m.partialRule.ruleId !in disabled &&
                   GetSubstitutions(map[], fact, m.partialRule.matchPattern) == Some(m.substitution))
      invariant NoDup(bucket) ==> NoDup(matches)
    {
      var pr := bucket[k];
      if pr.ruleId !in disabled {
        var sub := GetSubstitutions(map[], fact, pr.matchPattern);
        if sub.Some? {
          matches := matches + [PartialRuleMatch(pr, sub.value)];
        }
      }
      assert bucket[..k + 1] == bucket[..k] + [bucket[k]];
    }
    assert bucket[..|bucket|] == bucket;
  }

  /** An enabled rule's NOT atom whose key is among the keys of `fact`. */
  ghost predicate IsCandidate(rules: seq<Rule>, disabled: set<nat>, fact: Quad, rid: nat, p: QuadPattern) {
    IsNegative(rules, rid, p) && rid !in disabled && KeyOf(DirectWildcardPattern(p), ConstantQuadPattern(fact))
  }

  /** Every enabled NOT atom that `fact` could match. */
  method NegativelyTriggeredRules(rules: seq<Rule>, negRuleMap: NegRuleMap, disabled: set<nat>, fact: Quad)
    returns (found: seq<(nat, QuadPattern)>)
    requires NegRuleMapOk(rules, negRuleMap)
    ensures forall rid: nat, p :: (rid, p) in found <==> IsCandidate(rules, disabled, fact, rid, p)
  {
    var keys := WildcardQuadPattern(ConstantQuadPattern(fact));
    found := [];
    for k := 0 to |keys|
      invariant forall rid: nat, p :: (rid, p) in found <==>
                  (IsNegative(rules, rid, p) && rid !in disabled && DirectWildcardPattern(p) in keys[..k])
    {
      var bucket := NegativesAt(negRuleMap, keys[k]);
      for b := 0 to |bucket|
        invariant forall rid: nat, p :: (rid, p) in found <==>
                    (IsNegative(rules, rid, p) && rid !in disabled &&
                     (DirectWildcardPattern(p) in keys[..k] || (rid, p) in bucket[..b]))
      {
        assert (bucket[b].0, bucket[b].1) == bucket[b];
        if bucket[b].0 !in disabled {
          found := found + [bucket[b]];
        }
        assert bucket[..b + 1] == bucket[..b] + [bucket[b]];
      }
      assert bucket[..|bucket|] == bucket;
      assert keys[..k + 1] == keys[..k] + [keys[k]];
    }
    assert keys[..|keys|] == keys;
  }
}
