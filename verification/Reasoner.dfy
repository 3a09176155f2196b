/** One stratum's rules, with semi-naive materialisation over the quad store. */
module Reasoner {
  import opened Syntax
  import opened Matching
  import opened Clauses
  import opened Grounding
  import opened QuadTables
  import opened Joins
  import opened DerivedFrom
  import opened RuleIndex
  import opened Seminaive
  import opened Maintenance

  /** The variables of the body atoms, NOT and != atoms included: what the safety check looks at. */
  function AtomVars(a: RuleAtom): set<string> {
    match a
    case PositivePattern(p) => PatternVars(p)
    case NotPattern(p) => PatternVars(p)
    case NotEqualsAtom(l, r) => TermVars(l) + TermVars(r)
  }

  function BodyVars(body: seq<RuleAtom>): set<string> {
    set a, v | a in body && v in AtomVars(a) :: v
  }

  predicate IsSafeRule(rule: Rule) {
    rule.head.NormalHead? ==> PatternVars(rule.head.pattern) <= BodyVars(rule.body)
  }

  /** The variable stands in one of the four places. */
  predicate Mentions(p: QuadPattern, v: string) {
    p.graph == Variable(v) || p.subject == Variable(v) || p.pred == Variable(v) || p.obj == Variable(v)
  }

  /** The variable occurs in the atom, on whatever side and under whatever sign. */
  predicate OccursIn(a: RuleAtom, v: string) {
    match a
    case PositivePattern(p) => Mentions(p, v)
    case NotPattern(p) => Mentions(p, v)
    case NotEqualsAtom(l, r) => l == Variable(v) || r == Variable(v)
  }

  /** The check refuses exactly the rules with a head variable that occurs in no atom of the body. */
  lemma SafetyExact(rule: Rule)
    ensures IsSafeRule(rule) <==>
            forall v | rule.head.NormalHead? && Mentions(rule.head.pattern, v) :: exists a :: a in rule.body && OccursIn(a, v)
  {
    forall p: QuadPattern, v ensures v in PatternVars(p) <==> Mentions(p, v) { }
    forall a: RuleAtom, v ensures v in AtomVars(a) <==> OccursIn(a, v) { }
    hide PatternVars, Mentions, OccursIn, AtomVars;
    forall v ensures v in BodyVars(rule.body) <==> exists a :: a in rule.body && OccursIn(a, v) {
      if a :| a in rule.body && OccursIn(a, v) {
        assert v in AtomVars(a);
      }
    }
  }

  /** A rule whose head variables occur in positive atoms is never refused, nor is one without a head. */
  lemma RestrictedIsSafe(rule: Rule)
    requires forall v | rule.head.NormalHead? && Mentions(rule.head.pattern, v) ::
               exists p :: PositivePattern(p) in rule.body && Mentions(p, v)
    ensures IsSafeRule(rule)
  {
    forall v | rule.head.NormalHead? && Mentions(rule.head.pattern, v) ensures exists a :: a in rule.body && OccursIn(a, v) {
      var p :| PositivePattern(p) in rule.body && Mentions(p, v);
      assert OccursIn(PositivePattern(p), v);
    }
    SafetyExact(rule);
  }

  /** That is what range restriction says. */
  lemma RestrictedMeans(rule: Rule)
    ensures RangeRestricted(rule) <==>
            forall v | rule.head.NormalHead? && Mentions(rule.head.pattern, v) ::
              exists p :: PositivePattern(p) in rule.body && Mentions(p, v)
  {
    var ps := Positives(rule.body);
    forall p: QuadPattern, v ensures v in PatternVars(p) <==> Mentions(p, v) { }
    forall p ensures p in ps <==> PositivePattern(p) in rule.body { PositivesContain(rule.body, p); }
    hide PatternVars, Mentions, Positives;
    forall v ensures v in ListVars(ps) <==> exists p :: PositivePattern(p) in rule.body && Mentions(p, v) {
      if p :| PositivePattern(p) in rule.body && Mentions(p, v) {
        assert p in ps && v in PatternVars(p);
      }
    }
  }

  /** No rule of the set is refused if all are range restricted. */
  lemma AllSafe(rules: seq<Rule>)
    requires AllRestricted(rules)
    ensures forall r | r in rules :: IsSafeRule(r)
  {
    forall r | r in rules ensures IsSafeRule(r) {
      RestrictedMeans(r);
      RestrictedIsSafe(r);
    }
  }

  /** Materialisation applies the positive bindings to the head, so it needs this of every rule. */
  predicate AllRestricted(rules: seq<Rule>) {
    forall r | r in rules :: RangeRestricted(r)
  }

  /** Add the quads that are missing, as asserted quads. */
  method AddFacts(table: QuadTable, facts: seq<Quad>)
    requires table.Valid()
    modifies table
    ensures table.Valid() && old(table.quadList) <= table.quadList && NoDup(table.quadList)
    ensures table.Stored() == old(table.Stored()) + Elements(facts)
    ensures table.Extensional() == old(table.Extensional()) + (table.Stored() - old(table.Stored()))
  {
    hide ReverseOk, FlatOk, NestedOk;
    assert NoDup(table.quadList) by { ReverseNoDup(table.quadList, table.fourKeysIndex); }
    for k := 0 to |facts|
      invariant table.Valid() && old(table.quadList) <= table.quadList && NoDup(table.quadList)
      invariant table.intensionalQuads == old(table.intensionalQuads)
      invariant table.Stored() == old(table.Stored()) + Elements(facts[..k])
    {
      ghost var list1 := table.quadList;
      table.AddQuad(facts[k]);
      assert NoDup(table.quadList) by { ReverseNoDup(table.quadList, table.fourKeysIndex); }
      assert facts[..k + 1] == facts[..k] + [facts[k]];
      ElementsSnoc(facts[..k], facts[k]);
      ElementsSnoc(list1, facts[k]);
    }
    assert facts[..|facts|] == facts;
  }

  class DatalogProgram {
    const rules: seq<Rule>
    const ruleMap: RuleMap
    const negRuleMap: NegRuleMap
    var derivedFrom: DerivedFromIndex
    var disabledRules: set<nat>
    /** Where this program stands among the strata. */
    ghost const stratum: nat

    ghost predicate Valid()
      reads this, derivedFrom
    {
      && RuleMapOk(rules, ruleMap) && NegRuleMapOk(rules, negRuleMap)
      && derivedFrom.Valid() && IndexOk(rules, derivedFrom.index)
    }

    ghost function Value(): Prog
      reads this
    {
      Prog(stratum, rules, disabledRules)
    }

    constructor Build(ghost stratum: nat, rules: seq<Rule>, ruleMap: RuleMap, negRuleMap: NegRuleMap, marks: set<nat>)
      requires RuleMapOk(rules, ruleMap) && NegRuleMapOk(rules, negRuleMap) && MarksOk(rules, marks)
      ensures Valid() && fresh(derivedFrom) && this.stratum == stratum && this.rules == rules
      ensures derivedFrom.index == map[] && derivedFrom.negativelyTriggeringRules == marks && disabledRules == {}
    {
      this.stratum, this.rules, this.ruleMap, this.negRuleMap := stratum, rules, ruleMap, negRuleMap;
      disabledRules := {};
      derivedFrom := new DerivedFromIndex.WithNegativelyTriggeringRules(marks);
    }

    /** A program over `rules`, or the first unsafe rule. */
    static method New(ghost stratum: nat, rules: seq<Rule>) returns (r: Outcome, program: DatalogProgram?)
      ensures r.Ok? <==> forall rule | rule in rules :: IsSafeRule(rule)
      ensures r.Err? ==> r.error.UnsafeRule? && r.error.rule in rules && !IsSafeRule(r.error.rule)
      ensures AllRestricted(rules) ==> r.Ok?
      ensures r.Ok? ==>
                && program != null && fresh(program) && fresh(program.derivedFrom) && program.Valid()
                && program.rules == rules && program.stratum == stratum && program.disabledRules == {}
                && program.derivedFrom.index == map[] && MarksOk(rules, program.derivedFrom.negativelyTriggeringRules)
    {
      program := null;
      for k := 0 to |rules|
        invariant forall j | 0 <= j < k :: IsSafeRule(rules[j])
      {
        if !IsSafeRule(rules[k]) {
          if AllRestricted(rules) { AllSafe(rules); }
          return Err(UnsafeRule(rules[k])), null;
        }
      }
      var ruleMap, negRuleMap, marks := BuildMaps(rules);
      program := new DatalogProgram.Build(stratum, rules, ruleMap, negRuleMap, marks);
      r := Ok;
    }

    method DisableRule(rid: nat)
      modifies `disabledRules
      ensures disabledRules == old(disabledRules) + {rid}
    {
      disabledRules := disabledRules + {rid};
    }

    method EnableRule(rid: nat)
      modifies `disabledRules
      ensures disabledRules == old(disabledRules) - {rid}
    {
      disabledRules := disabledRules - {rid};
    }

    predicate IsRuleDisabled(rid: nat)
      reads this
    {
      rid in disabledRules
    }

    /** The ground facts of the enabled body-less rules, unless one of them is a contradiction. */
    method GetFacts() returns (r: Outcome, facts: seq<Quad>)
      requires AllRestricted(rules)
      ensures r.Ok? ==> (forall q | q in facts :: IsFactHead(Value(), q)) && FactsStored(Value(), Elements(facts))
      ensures r.Err? ==> r.error.ContradictionFound? && FactContradicted(Value(), r.error.rule)
    {
      r, facts := Ok, [];
      for k := 0 to |rules|
        invariant r.Ok?
        invariant forall q | q in facts :: IsFactHead(Value(), q)
        invariant forall c | c in Enabled(Value()) && c.pos == [] && c.rid < k :: c.head.Some? && c.head.value in facts
      {
        if IsFact(rules[k]) && k !in disabledRules {
          ghost var c := FactClause(Value(), k);
          match rules[k].head {
            case Contradiction =>
              return Err(ContradictionFound(rules[k])), [];
            case NormalHead(p) =>
              assert RangeRestricted(rules[k]) && BoundVars(rules[k]) == {};
              facts := facts + [ApplyQuad(map[], p)];
          }
        }
        forall c | c in Enabled(Value()) && c.pos == [] && c.rid == k
          ensures c.head.Some? && c.head.value in facts
        {
          FactInstance(rules[k], c);
          FactHead(rules[k], c);
        }
      }
    }

    /** Store a derived quad and record its derivation; the log takes it if the record is new. */
    method AddDerived(table: QuadTable, q: Quad, d: Derivation, log: seq<Entry>) returns (log': seq<Entry>)
      requires table.Valid() && derivedFrom.Valid()
      modifies table, derivedFrom`index, derivedFrom`byRule
      ensures table.Valid() && derivedFrom.Valid() && table.Extensional() == old(table.Extensional())
      ensures table.quadList == if q in old(table.quadList) then old(table.quadList) else old(table.quadList) + [q]
      ensures derivedFrom.index == AddEntry(old(derivedFrom.index), q, d)
      ensures log' == if Holds(old(derivedFrom.index), q, d) then log else log + [(q, d)]
    {
      hide DerivedFromIndex.Valid, QuadTable.Valid;
      table.AddIntensionalQuad(q);
      var isNew := derivedFrom.Record(q, d);
      log' := if isNew then log + [(q, d)] else log;
    }

    /** Apply one answer: add the derived quad and record its derivation. */
    method Fire(table: QuadTable, rid: nat, s: Substitution, ghost sub: Substitution, log: seq<Entry>,
                ghost list0: seq<Quad>, ghost index0: Index)
      returns (log': seq<Entry>)
      requires Valid() && table.Valid() && IndexValid(index0)
      requires rid < |rules| && rid !in disabledRules && RangeRestricted(rules[rid]) && rules[rid].head.NormalHead?
      requires Positives(rules[rid].body) != [] && sub.Keys <= BoundVars(rules[rid])
      requires s.Keys == BoundVars(rules[rid]) && BodyHolds(s, sub, rules[rid], Elements(list0))
      requires Evolves(Value(), list0, index0, table.quadList, derivedFrom.index, log)
      modifies table, derivedFrom`index, derivedFrom`byRule
      ensures Valid() && table.Valid() && table.Extensional() == old(table.Extensional())
      ensures Evolves(Value(), list0, index0, table.quadList, derivedFrom.index, log')
      ensures Fired(Value(), ClauseFor(stratum, rid, rules[rid], s), table.Stored(), derivedFrom.index)
      ensures old(table.quadList) <= table.quadList
      ensures exists e: Entry :: derivedFrom.index == AddEntry(old(derivedFrom.index), e.0, e.1)
    {
      var derived := ApplyQuad(s, rules[rid].head.pattern);
      var derivation := Derivation(rid, Witnesses(s, Positives(rules[rid].body)));
      ghost var list1, index1 := table.quadList, derivedFrom.index;
      hide Evolves, BodyHolds, Fired, RuleMapOk, NegRuleMapOk, IndexValid, CountsOk, Positives, QuadTable.Valid, IndexOk, AddEntry, ApplyQuad, Witnesses;
      log' := AddDerived(table, derived, derivation, log);
      FireEvolves(Value(), rid, s, sub, list0, index0, list1, index1, log, table.quadList, derivedFrom.index, log');
      EvolvesIndexOk(Value(), list0, index0, table.quadList, derivedFrom.index, log');
      assert EntryFor(rules[rid], rid, s) == (derived, derivation);
    }

    /** Evaluate one triggering match in full and apply its answers; a contradiction rule stops at the first. */
    method ApplyMatch(table: QuadTable, m: PartialRuleMatch) returns (r: Outcome, log: seq<Entry>)
      requires Valid() && table.Valid() && AllRestricted(rules)
      requires IsPartial(rules, m.partialRule) && m.partialRule.ruleId !in disabledRules
      requires m.substitution.Keys <= BoundVars(m.partialRule.rule)
      modifies table, derivedFrom`index, derivedFrom`byRule
      ensures Valid() && table.Valid() && table.Extensional() == old(table.Extensional())
      ensures Evolves(Value(), old(table.quadList), old(derivedFrom.index), table.quadList, derivedFrom.index, log)
      ensures r.Ok? ==> CoversMatch(Value(), m.partialRule.ruleId, m.substitution, old(table.Stored()), table.Stored(), derivedFrom.index)
      ensures r.Err? ==> r.error.ContradictionFound? && Contradicted(Value(), table.Stored(), r.error.rule)
    {
      hide Evolves, BodyHolds, Fired, RuleMapOk, NegRuleMapOk, CoversMatch, Contradicted, IndexOk, IndexValid, Enabled;
      var rid, rule, sub := m.partialRule.ruleId, m.partialRule.rule, m.substitution;
      ghost var list0, index0 := table.quadList, derivedFrom.index;
      ReverseNoDup(table.quadList, table.fourKeysIndex);
      EvolvesRefl(Value(), list0, index0);
      r, log := Ok, [];
      var subs := Evaluate(table, rule, sub);
      AnswersAdmitted(Value(), rid, sub, list0, subs);
      if rule.head.Contradiction? {
        if subs != [] {
          ContradictionHolds(Value(), rid, sub, list0, subs);
          return Err(ContradictionFound(rule)), [];
        }
      } else {
        for k := 0 to |subs|
          invariant Valid() && table.Valid() && table.Extensional() == old(table.Extensional())
          invariant Evolves(Value(), list0, index0, table.quadList, derivedFrom.index, log)
          invariant list0 <= table.quadList
          invariant AllFired(Value(), rid, subs[..k], table.Stored(), derivedFrom.index)
        {
          assert subs[k] in subs;
          ghost var list1, index1 := table.quadList, derivedFrom.index;
          log := Fire(table, rid, subs[k], sub, log, list0, index0);
          AllFiredMore(Value(), rid, subs, k, list1, index1, table.quadList, derivedFrom.index);
        }
        assert subs[..|subs|] == subs;
      }
      AnswersFired(Value(), rid, sub, list0, table.quadList, derivedFrom.index, subs);
    }

    /** Every rule atom that `q` triggers, one match after the other. */
    method MaterialiseQuad(table: QuadTable, q: Quad) returns (r: Outcome, log: seq<Entry>)
      requires Valid() && table.Valid() && AllRestricted(rules)
      modifies table, derivedFrom`index, derivedFrom`byRule
      ensures Valid() && table.Valid() && table.Extensional() == old(table.Extensional())
      ensures Evolves(Value(), old(table.quadList), old(derivedFrom.index), table.quadList, derivedFrom.index, log)
      ensures r.Ok? ==> Covers(Value(), old(table.Stored()), {q}, table.Stored(), derivedFrom.index)
      ensures r.Err? ==> r.error.ContradictionFound? && Contradicted(Value(), table.Stored(), r.error.rule)
    {
      hide Evolves, RuleMapOk, NegRuleMapOk, CoversMatch, Covers, Contradicted, IndexOk, IndexValid, Enabled, CountsOk;
      ghost var list0, index0, p := table.quadList, derivedFrom.index, Value();
      ReverseNoDup(table.quadList, table.fourKeysIndex);
      EvolvesRefl(p, list0, index0);
      var matches := GetRulesForFact(rules, ruleMap, disabledRules, q);
      r, log := Ok, [];
      for k := 0 to |matches|
        invariant r.Ok?
        invariant Valid() && table.Valid() && table.Extensional() == old(table.Extensional())
        invariant Evolves(p, list0, index0, table.quadList, derivedFrom.index, log)
        invariant list0 <= table.quadList
        invariant MatchesCovered(p, matches, k, q, Elements(list0), table.Stored(), derivedFrom.index)
      {
        assert matches[k] in matches;
        TriggerBound(rules, disabledRules, q, matches[k]);
        ghost var list1, index1, log0 := table.quadList, derivedFrom.index, log;
        var more;
        r, more := ApplyMatch(table, matches[k]);
        log := log + more;
        EvolvesTrans(p, list0, index0, list1, index1, log0, table.quadList, derivedFrom.index, more);
        EvolvesIndexOk(p, list0, index0, table.quadList, derivedFrom.index, log);
        if r.Err? {
          return;
        }
        MatchesCoveredMore(p, matches, k, q, list0, list1, index1, table.quadList, derivedFrom.index, more);
      }
      AllMatchesCovered(p, matches, q, Elements(list0), table.Stored(), derivedFrom.index);
    }

    /** One semi-naive iteration: every rule atom any quad of `delta` can bind, joined with the whole store. */
    method MaterialiseDeltaIteration(table: QuadTable, delta: seq<Quad>) returns (r: Outcome, log: seq<Entry>)
      requires Valid() && table.Valid() && AllRestricted(rules)
      modifies table, derivedFrom`index, derivedFrom`byRule
      ensures Valid() && table.Valid() && table.Extensional() == old(table.Extensional())
      ensures Evolves(Value(), old(table.quadList), old(derivedFrom.index), table.quadList, derivedFrom.index, log)
      ensures r.Ok? ==> Covers(Value(), old(table.Stored()), Elements(delta), table.Stored(), derivedFrom.index)
      ensures r.Err? ==> r.error.ContradictionFound? && Contradicted(Value(), table.Stored(), r.error.rule)
    {
      hide Evolves, RuleMapOk, NegRuleMapOk, Covers, Contradicted, IndexOk, IndexValid, Enabled, CountsOk;
      ghost var list0, index0, p := table.quadList, derivedFrom.index, Value();
      ReverseNoDup(table.quadList, table.fourKeysIndex);
      EvolvesRefl(p, list0, index0);
      CoversNone(p, Elements(list0), table.Stored(), derivedFrom.index);
      r, log := Ok, [];
      for k := 0 to |delta|
        invariant r.Ok?
        invariant Valid() && table.Valid() && table.Extensional() == old(table.Extensional())
        invariant Evolves(p, list0, index0, table.quadList, derivedFrom.index, log)
        invariant list0 <= table.quadList
        invariant Covers(p, Elements(list0), Elements(delta[..k]), table.Stored(), derivedFrom.index)
      {
        ghost var list1, index1, log0 := table.quadList, derivedFrom.index, log;
        var more;
        r, more := MaterialiseQuad(table, delta[k]);
        log := log + more;
        EvolvesTrans(p, list0, index0, list1, index1, log0, table.quadList, derivedFrom.index, more);
        EvolvesIndexOk(p, list0, index0, table.quadList, derivedFrom.index, log);
        if r.Err? {
          return;
        }
        CoversMore(p, delta, k, list0, list1, index1, table.quadList, derivedFrom.index, more);
      }
      assert delta[..|delta|] == delta;
    }

    /** The quads appended since `deltaStart` are the delta; `None` when there are none. */
    method MaterialiseOneIterationTracked(table: QuadTable, deltaStart: nat) returns (r: Outcome, next: Option<nat>, log: seq<Entry>)
      requires Valid() && table.Valid() && AllRestricted(rules) && deltaStart <= table.quadCount
      modifies table, derivedFrom`index, derivedFrom`byRule
      ensures Valid() && table.Valid() && table.Extensional() == old(table.Extensional())
      ensures Evolves(Value(), old(table.quadList), old(derivedFrom.index), table.quadList, derivedFrom.index, log)
      ensures r.Ok? ==> next == if deltaStart < |old(table.quadList)| then Some(|old(table.quadList)|) else None
      ensures r.Ok? && next.None? ==> table.quadList == old(table.quadList) && derivedFrom.index == old(derivedFrom.index)
      ensures r.Ok? && Processed(Value(), Elements(old(table.quadList)[..deltaStart]), old(table.Stored()), old(derivedFrom.index)) ==>
                Processed(Value(), old(table.Stored()), table.Stored(), derivedFrom.index)
      ensures r.Err? ==> r.error.ContradictionFound? && Contradicted(Value(), table.Stored(), r.error.rule)
    {
      hide Evolves, RuleMapOk, NegRuleMapOk, Covers, Processed, Contradicted, IndexOk, IndexValid, Enabled, CountsOk;
      ghost var list0, index0, p := table.quadList, derivedFrom.index, Value();
      var deltaEnd := table.quadCount;
      if deltaStart >= deltaEnd {
        ReverseNoDup(table.quadList, table.fourKeysIndex);
        EvolvesRefl(p, list0, index0);
        assert list0[..deltaStart] == list0;
        return Ok, None, [];
      }
      var delta := table.quadList[deltaStart..deltaEnd];
      assert delta == list0[deltaStart..];
      r, log := MaterialiseDeltaIteration(table, delta);
      next := Some(deltaEnd);
      if r.Ok? {
        IterationProcessed(p, list0, index0, deltaStart, table.quadList, derivedFrom.index, log);
      }
    }

    /** Iterate from `deltaStart` until an iteration appends nothing. */
    method RunToFixpoint(table: QuadTable, start: nat) returns (r: Outcome, log: seq<Entry>)
      requires Valid() && table.Valid() && AllRestricted(rules) && start <= table.quadCount
      modifies table, derivedFrom`index, derivedFrom`byRule
      ensures Valid() && table.Valid() && table.Extensional() == old(table.Extensional())
      ensures Evolves(Value(), old(table.quadList), old(derivedFrom.index), table.quadList, derivedFrom.index, log)
      ensures r.Ok? && Processed(Value(), Elements(old(table.quadList)[..start]), old(table.Stored()), old(derivedFrom.index)) ==>
                Processed(Value(), table.Stored(), table.Stored(), derivedFrom.index)
      ensures r.Err? ==> r.error.ContradictionFound? && Contradicted(Value(), table.Stored(), r.error.rule)
    {
      hide Evolves, RuleMapOk, NegRuleMapOk, Processed, Contradicted, IndexOk, IndexValid, Enabled, CountsOk, ReverseOk;
      ghost var list0, index0, p := table.quadList, derivedFrom.index, Value();
      ghost var primed := Processed(p, Elements(list0[..start]), Elements(list0), index0);
      assert NoDup(list0) by { ReverseNoDup(table.quadList, table.fourKeysIndex); }
      EvolvesRefl(p, list0, index0);
      ListBounded(list0);
      r, log := Ok, [];
      var deltaStart := start;
      while true
        invariant Valid() && table.Valid() && table.Extensional() == old(table.Extensional())
        invariant Evolves(p, list0, index0, table.quadList, derivedFrom.index, log)
        invariant deltaStart <= |table.quadList| <= |AllQuads()|
        invariant primed ==> Processed(p, Elements(table.quadList[..deltaStart]), table.Stored(), derivedFrom.index)
        decreases |AllQuads()| - deltaStart
      {
        ghost var list1, index1, log0 := table.quadList, derivedFrom.index, log;
        var next, more;
        r, next, more := MaterialiseOneIterationTracked(table, deltaStart);
        log := log + more;
        EvolvesTrans(p, list0, index0, list1, index1, log0, table.quadList, derivedFrom.index, more);
        EvolvesIndexOk(p, list1, index1, table.quadList, derivedFrom.index, more);
        if r.Err? {
          return;
        }
        match next {
          case None =>
            return;
          case Some(newStart) =>
            deltaStart := newStart;
            assert table.quadList[..deltaStart] == list1;
            ListBounded(table.quadList);
        }
      }
    }

    /** Seed the body-less rules and iterate to the fixpoint, with the whole store as the first delta. */
    method MaterialiseSeminaiveTracked(table: QuadTable) returns (r: Outcome, track: seq<Entry>)
      requires Valid() && table.Valid() && AllRestricted(rules)
      modifies table, derivedFrom`index, derivedFrom`byRule
      ensures Valid() && table.Valid()
      ensures RanFrom(Value(), old(table.quadList), old(table.Extensional()), old(derivedFrom.index),
                      table.quadList, table.Extensional(), derivedFrom.index, track)
      ensures r.Ok? ==> Materialised(Enabled(Value()), old(table.Stored()), Recorded(Value(), old(derivedFrom.index)),
                                     table.Stored(), Recorded(Value(), derivedFrom.index))
      ensures r.Err? ==> r.error.ContradictionFound? && Contradicted(Value(), table.Stored(), r.error.rule)
    {
      hide Evolves, Seeded, RuleMapOk, NegRuleMapOk, Processed, Contradicted, IndexOk, IndexValid, Enabled, CountsOk, ReverseOk, FactsStored, Materialised, FlatOk, NestedOk;
      ghost var list0, index0, p := table.quadList, derivedFrom.index, Value();
      assert NoDup(list0) by { ReverseNoDup(table.quadList, table.fourKeysIndex); }
      track := [];
      var facts;
      r, facts := GetFacts();
      SeededStart(p, list0);
      if r.Err? {
        EvolvesRefl(p, list0, index0);
        FactContradiction(p, table.Stored(), r.error.rule);
        return;
      }
      SeedFacts(table, facts);
      ghost var list1 := table.quadList;
      FactsStoredMore(p, Elements(facts), table.Stored());
      ProcessedNone(p, list1, index0);
      r, track := RunToFixpoint(table, 0);
      EvolvesIndexOk(p, list1, index0, table.quadList, derivedFrom.index, track);
      if r.Ok? {
        assert list1[..0] == [];
        RunMaterialised(p, list0, index0, list1, table.quadList, derivedFrom.index, track);
      }
    }

    /**
     * The same, with the explicit `deltaFacts` as the first delta.  They are added if missing, so it
     * makes no difference whether the caller had added them.
     */
    method MaterialiseSeminaiveTrackedFromFacts(table: QuadTable, deltaFacts: seq<Quad>) returns (r: Outcome, track: seq<Entry>)
      requires Valid() && table.Valid() && AllRestricted(rules)
      modifies table, derivedFrom`index, derivedFrom`byRule
      ensures Valid() && table.Valid()
      ensures RanFromFacts(Value(), Elements(deltaFacts), old(table.quadList), old(table.Extensional()), old(derivedFrom.index),
                           table.quadList, table.Extensional(), derivedFrom.index, track)
      ensures r.Ok? && FactsStored(Value(), old(table.Stored())) &&
              Primed(Value(), old(table.Stored()) + Elements(deltaFacts), Elements(deltaFacts), old(derivedFrom.index)) ==>
                Materialised(Enabled(Value()), old(table.Stored()) + Elements(deltaFacts), Recorded(Value(), old(derivedFrom.index)),
                             table.Stored(), Recorded(Value(), derivedFrom.index))
      ensures r.Err? ==> r.error.ContradictionFound? && Contradicted(Value(), table.Stored(), r.error.rule)
    {
      hide Evolves, Seeded, RuleMapOk, NegRuleMapOk, Processed, Covers, Primed, Contradicted, IndexOk, IndexValid, Enabled, CountsOk, ReverseOk, FactsStored, Materialised, FlatOk, NestedOk, StartsFrom;
      ghost var list0, index0, p := table.quadList, derivedFrom.index, Value();
      assert NoDup(list0) by { ReverseNoDup(table.quadList, table.fourKeysIndex); }
      track := [];
      var facts;
      r, facts := GetFacts();
      if r.Err? {
        EvolvesRefl(p, list0, index0);
        FactContradiction(p, table.Stored(), r.error.rule);
        StartsHere(p, Elements(deltaFacts), list0, table.Extensional());
        return;
      }
      AddSeedsAndFacts(table, facts, deltaFacts);
      ghost var list1 := table.quadList;
      var baseline := table.quadCount;
      var log1, log2;
      r, log1 := MaterialiseDeltaIteration(table, deltaFacts);
      track := log1;
      ghost var list2, index2 := table.quadList, derivedFrom.index;
      EvolvesIndexOk(p, list1, index0, list2, index2, log1);
      if r.Err? {
        return;
      }
      r, log2 := RunToFixpoint(table, baseline);
      track := log1 + log2;
      EvolvesTrans(p, list1, index0, list2, index2, log1, table.quadList, derivedFrom.index, log2);
      if r.Ok? {
        assert list2[..baseline] == list1;
        FactsRunMaterialised(p, list0, old(table.Extensional()), Elements(deltaFacts), list1, table.Extensional(), index0, list2, index2, log1, table.quadList, derivedFrom.index, track);
      }
    }

    method AddSeedsAndFacts(table: QuadTable, seeds: seq<Quad>, deltaFacts: seq<Quad>)
      requires table.Valid()
      requires forall q | q in seeds :: IsFactHead(Value(), q)
      modifies table
      ensures table.Valid()
      ensures StartsFrom(Value(), Elements(deltaFacts), old(table.quadList), old(table.Extensional()), table.quadList, table.Extensional())
      ensures Elements(deltaFacts) <= table.Stored()
    {
      hide ReverseOk, FlatOk, NestedOk, IsFactHead, Seeded;
      ghost var list0, ext0 := table.quadList, table.Extensional();
      SeedFacts(table, seeds);
      ghost var listF, extF := table.quadList, table.Extensional();
      SeededPrefix(Value(), list0, listF);
      AddFacts(table, deltaFacts);
      StartsBoth(Value(), Elements(deltaFacts), list0, ext0, listF, extF, table.quadList, table.Extensional());
    }

    method MaterialiseSeminaive(table: QuadTable) returns (r: Outcome)
      requires Valid() && table.Valid() && AllRestricted(rules)
      modifies table, derivedFrom`index, derivedFrom`byRule
      ensures Valid() && table.Valid()
      ensures exists track :: RanFrom(Value(), old(table.quadList), old(table.Extensional()), old(derivedFrom.index),
                                      table.quadList, table.Extensional(), derivedFrom.index, track)
      ensures r.Ok? ==> Materialised(Enabled(Value()), old(table.Stored()), Recorded(Value(), old(derivedFrom.index)),
                                     table.Stored(), Recorded(Value(), derivedFrom.index))
      ensures r.Err? ==> r.error.ContradictionFound? && Contradicted(Value(), table.Stored(), r.error.rule)
    {
      var track;
      r, track := MaterialiseSeminaiveTracked(table);
    }

    /** Add the facts that are missing, as asserted quads. */
    method SeedFacts(table: QuadTable, facts: seq<Quad>)
      requires table.Valid()
      requires forall q | q in facts :: IsFactHead(Value(), q)
      modifies table
      ensures table.Valid() && Seeded(Value(), old(table.quadList), table.quadList)
      ensures table.Extensional() == old(table.Extensional()) + (table.Stored() - old(table.Stored()))
      ensures Elements(facts) <= table.Stored()
    {
      hide ReverseOk, FlatOk, NestedOk, IsFactHead;
      assert NoDup(table.quadList) by { ReverseNoDup(table.quadList, table.fourKeysIndex); }
      for k := 0 to |facts|
        invariant table.Valid() && Seeded(Value(), old(table.quadList), table.quadList)
        invariant table.intensionalQuads == old(table.intensionalQuads)
        invariant Elements(facts[..k]) <= table.Stored()
      {
        ghost var list1 := table.quadList;
        assert facts[k] in facts;
        table.AddQuad(facts[k]);
        assert NoDup(table.quadList) by { ReverseNoDup(table.quadList, table.fourKeysIndex); }
        ElementsPrefix(list1, table.quadList);
        assert facts[..k + 1] == facts[..k] + [facts[k]];
      }
      assert facts[..|facts|] == facts;
      SeededStored(Value(), old(table.quadList), table.quadList);
    }
  }

  /**
   * Success or not, a run only appended: first asserted facts of body-less rules, then derived quads.
   */
  ghost predicate RanFrom(p: Prog, list0: seq<Quad>, ext0: set<Quad>, index0: Index,
                          list: seq<Quad>, ext: set<Quad>, index: Index, track: seq<Entry>) {
    exists seeded :: Seeded(p, list0, seeded) && Evolves(p, seeded, index0, list, index, track) &&
                     ext == ext0 + (Elements(seeded) - Elements(list0))
  }

  /** `start` is `list0` with asserted facts appended: heads of body-less rules and facts of `delta`. */
  ghost predicate StartsFrom(p: Prog, delta: set<Quad>, list0: seq<Quad>, ext0: set<Quad>, start: seq<Quad>, ext: set<Quad>) {
    && list0 <= start && NoDup(start)
    && (forall q | q in start && q !in list0 :: q in delta || IsFactHead(p, q))
    && ext == ext0 + (Elements(start) - Elements(list0))
  }

  /** Likewise, with the facts of an explicit delta added as asserted facts before the run. */
  ghost predicate RanFromFacts(p: Prog, delta: set<Quad>, list0: seq<Quad>, ext0: set<Quad>, index0: Index,
                               list: seq<Quad>, ext: set<Quad>, index: Index, track: seq<Entry>) {
    exists start :: StartsFrom(p, delta, list0, ext0, start, ext) && Evolves(p, start, index0, list, index, track)
  }

  lemma StartsHere(p: Prog, delta: set<Quad>, list0: seq<Quad>, ext0: set<Quad>)
    requires NoDup(list0)
    ensures StartsFrom(p, delta, list0, ext0, list0, ext0)
  {
  }

  lemma StartsBoth(p: Prog, delta: set<Quad>, list0: seq<Quad>, ext0: set<Quad>, listF: seq<Quad>, extF: set<Quad>,
                   start: seq<Quad>, ext: set<Quad>)
    requires list0 <= listF <= start && NoDup(start)
    requires forall q | q in listF && q !in list0 :: IsFactHead(p, q)
    requires Elements(start) == Elements(listF) + delta
    requires extF == ext0 + (Elements(listF) - Elements(list0)) && ext == extF + (Elements(start) - Elements(listF))
    ensures StartsFrom(p, delta, list0, ext0, start, ext)
    ensures delta <= Elements(start)
  {
    ElementsPrefix(list0, listF);
    ElementsPrefix(listF, start);
    forall q | q in start && q !in list0 ensures q in delta || IsFactHead(p, q) {
      assert q in Elements(start);
    }
  }

  lemma FactsRunMaterialised(p: Prog, list0: seq<Quad>, ext0: set<Quad>, delta: set<Quad>, list1: seq<Quad>, ext: set<Quad>, index0: Index,
                             list2: seq<Quad>, index2: Index, log1: seq<Entry>, list: seq<Quad>, index: Index, track: seq<Entry>)
    requires IndexValid(index0) && IndexOk(p.rules, index0)
    requires StartsFrom(p, delta, list0, ext0, list1, ext) && delta <= Elements(list1)
    requires Evolves(p, list1, index0, list2, index2, log1) && Evolves(p, list1, index0, list, index, track)
    requires Covers(p, Elements(list1), delta, Elements(list2), index2)
    requires Processed(p, Elements(list1), Elements(list2), index2) ==> Processed(p, Elements(list), Elements(list), index)
    ensures FactsStored(p, Elements(list0)) && Primed(p, Elements(list0) + delta, delta, index0) ==>
              Materialised(Enabled(p), Elements(list0) + delta, Recorded(p, index0), Elements(list), Recorded(p, index))
  {
    if FactsStored(p, Elements(list0)) && Primed(p, Elements(list0) + delta, delta, index0) {
      ElementsPrefix(list0, list1);
      forall q | q in list1 ensures q in Elements(list0) + delta {
        if q !in list0 && q !in delta { assert IsFactHead(p, q); }
      }
      assert Elements(list1) == Elements(list0) + delta;
      PrimedProcessed(p, list1, index0, delta, list2, index2, log1);
      FactsStoredMore(p, Elements(list0), Elements(list1));
      SeededStart(p, list1);
      ElementsPrefix(list1, list);
      RunMaterialised(p, list1, index0, list1, list, index, track);
    }
  }

  lemma SeededPrefix(p: Prog, list0: seq<Quad>, list: seq<Quad>)
    requires Seeded(p, list0, list)
    ensures list0 <= list && Elements(list0) <= Elements(list)
    ensures forall q | q in list && q !in list0 :: IsFactHead(p, q)
  {
    ElementsPrefix(list0, list);
    assert forall j | 0 <= j < |list0| :: list[j] == list0[j] && list0[j] in list0;
    forall q | q in list && q !in list0 ensures IsFactHead(p, q) {
      var k :| 0 <= k < |list| && list[k] == q;
    }
  }

  lemma ElementsSnoc<T>(s: seq<T>, x: T)
    ensures Elements(s + [x]) == Elements(s) + {x}
    ensures x in s ==> Elements(s) == Elements(s) + {x}
  {
  }

  lemma SeededStart(p: Prog, list: seq<Quad>)
    requires NoDup(list)
    ensures Seeded(p, list, list)
  {
  }

  lemma SeededStored(p: Prog, list0: seq<Quad>, list: seq<Quad>)
    requires Seeded(p, list0, list)
    ensures Elements(list0) <= Elements(list)
  {
    ElementsPrefix(list0, list);
  }

  lemma FactsStoredMore(p: Prog, facts: set<Quad>, stored: set<Quad>)
    requires FactsStored(p, facts) && facts <= stored
    ensures FactsStored(p, stored)
  {
  }

  /** `rule` is an enabled contradiction rule without a body. */
  ghost predicate FactContradicted(p: Prog, rule: Rule) {
    exists c :: c in Enabled(p) && c.pos == [] && c.head.None? && p.rules[c.rid] == rule
  }

  lemma FactContradiction(p: Prog, stored: set<Quad>, rule: Rule)
    requires FactContradicted(p, rule)
    ensures Contradicted(p, stored, rule)
  {
    var c :| c in Enabled(p) && c.pos == [] && c.head.None? && p.rules[c.rid] == rule;
    BodylessUnguarded(p, c);
    assert Sat(c, stored);
  }

  lemma ProcessedNone(p: Prog, list: seq<Quad>, index: Index)
    ensures Processed(p, Elements([]), Elements(list), index)
  {
    assert forall c: Clause | c.pos != [] :: c.pos[0] in c.pos;
  }

  /** The first `k` matches of `q` are covered. */
  ghost predicate MatchesCovered(p: Prog, matches: seq<PartialRuleMatch>, k: nat, q: Quad, upto: set<Quad>, stored: set<Quad>, index: Index) {
    && k <= |matches| && (forall m | m in matches :: IsTrigger(p.rules, p.disabled, q, m))
    && forall j | 0 <= j < k ::
         matches[j] in matches && CoversMatch(p, matches[j].partialRule.ruleId, matches[j].substitution, upto, stored, index)
  }

  lemma TriggerBound(rules: seq<Rule>, disabled: set<nat>, q: Quad, m: PartialRuleMatch)
    requires IsTrigger(rules, disabled, q, m)
    ensures m.substitution.Keys <= BoundVars(m.partialRule.rule)
  {
    MatchSound(map[], q, m.partialRule.matchPattern);
    VarsInList(Positives(m.partialRule.rule.body), m.partialRule.matchPattern);
  }

  lemma MatchesCoveredMore(p: Prog, matches: seq<PartialRuleMatch>, k: nat, q: Quad, list0: seq<Quad>,
                           list1: seq<Quad>, index1: Index, list: seq<Quad>, index: Index, log: seq<Entry>)
    requires k < |matches| && list0 <= list1
    requires MatchesCovered(p, matches, k, q, Elements(list0), Elements(list1), index1)
    requires matches[k] in matches
    requires IndexValid(index1) && Evolves(p, list1, index1, list, index, log)
    requires CoversMatch(p, matches[k].partialRule.ruleId, matches[k].substitution, Elements(list1), Elements(list), index)
    ensures MatchesCovered(p, matches, k + 1, q, Elements(list0), Elements(list), index)
  {
    forall j | 0 <= j < k
      ensures CoversMatch(p, matches[j].partialRule.ruleId, matches[j].substitution, Elements(list0), Elements(list), index)
    {
      assert matches[j] in matches;
      CoversMatchLater(p, matches[j].partialRule.ruleId, matches[j].substitution, Elements(list0), list1, index1, list, index, log);
    }
    ElementsPrefix(list0, list1);
    CoversMatchLess(p, matches[k].partialRule.ruleId, matches[k].substitution, Elements(list0), Elements(list1), Elements(list), index);
  }

  lemma CoversMatchLess(p: Prog, rid: nat, sub: Substitution, upto: set<Quad>, upto': set<Quad>, stored: set<Quad>, index: Index)
    requires rid < |p.rules| && upto <= upto'
    requires CoversMatch(p, rid, sub, upto', stored, index)
    ensures CoversMatch(p, rid, sub, upto, stored, index)
  {
    forall s | Admits(p.rules[rid], s) && Extends(sub, s) &&
               Within(ClauseFor(p.stratum, rid, p.rules[rid], s).pos, upto) &&
               ClauseFor(p.stratum, rid, p.rules[rid], s).neg !! stored
      ensures Fired(p, ClauseFor(p.stratum, rid, p.rules[rid], s), stored, index)
    {
      assert Within(ClauseFor(p.stratum, rid, p.rules[rid], s).pos, upto');
    }
  }

  lemma AllMatchesCovered(p: Prog, matches: seq<PartialRuleMatch>, q: Quad, upto: set<Quad>, stored: set<Quad>, index: Index)
    requires MatchesCovered(p, matches, |matches|, q, upto, stored, index)
    requires forall m :: m in matches <==> IsTrigger(p.rules, p.disabled, q, m)
    ensures Covers(p, upto, {q}, stored, index)
  {
    forall rid: nat, pat | rid < |p.rules| && rid !in p.disabled && pat in Positives(p.rules[rid].body) &&
                           GetSubstitutions(map[], q, pat).Some?
      ensures CoversMatch(p, rid, GetSubstitutions(map[], q, pat).value, upto, stored, index)
    {
      var m := PartialRuleMatch(PartialRule(p.rules[rid], pat, rid), GetSubstitutions(map[], q, pat).value);
      assert IsTrigger(p.rules, p.disabled, q, m);
      var j :| 0 <= j < |matches| && matches[j] == m;
    }
    MatchesCover(p, q, upto, stored, index);
  }

  lemma CoversNone(p: Prog, upto: set<Quad>, stored: set<Quad>, index: Index)
    ensures Covers(p, upto, Elements([]), stored, index)
  {
  }

  lemma CoversMore(p: Prog, delta: seq<Quad>, k: nat, list0: seq<Quad>, list1: seq<Quad>, index1: Index,
                   list: seq<Quad>, index: Index, log: seq<Entry>)
    requires k < |delta| && list0 <= list1
    requires Covers(p, Elements(list0), Elements(delta[..k]), Elements(list1), index1)
    requires IndexValid(index1) && Evolves(p, list1, index1, list, index, log)
    requires Covers(p, Elements(list1), {delta[k]}, Elements(list), index)
    ensures Covers(p, Elements(list0), Elements(delta[..k + 1]), Elements(list), index)
  {
    ElementsPrefix(list0, list1);
    CoversLater(p, Elements(list0), Elements(delta[..k]), list1, index1, list, index, log);
    CoversLess(p, Elements(list1), Elements(list0), {delta[k]}, Elements(list), index);
    CoversUnion(p, Elements(list0), Elements(delta[..k]), {delta[k]}, Elements(list), index);
    assert delta[..k + 1] == delta[..k] + [delta[k]];
    assert Elements(delta[..k + 1]) == Elements(delta[..k]) + {delta[k]};
  }

  lemma IterationProcessed(p: Prog, list0: seq<Quad>, index0: Index, start: nat, list: seq<Quad>, index: Index, log: seq<Entry>)
    requires start <= |list0| && IndexValid(index0)
    requires Evolves(p, list0, index0, list, index, log)
    requires Covers(p, Elements(list0), Elements(list0[start..]), Elements(list), index)
    ensures Processed(p, Elements(list0[..start]), Elements(list0), index0) ==> Processed(p, Elements(list0), Elements(list), index)
  {
    if Processed(p, Elements(list0[..start]), Elements(list0), index0) {
      ProcessedLater(p, Elements(list0[..start]), list0, index0, list, index, log);
      assert list0 == list0[..start] + list0[start..];
      assert Elements(list0) == Elements(list0[..start]) + Elements(list0[start..]);
      ProcessedMore(p, Elements(list0[..start]), Elements(list0[start..]), Elements(list), index);
    }
  }

  /** The instances of all these substitutions have fired. */
  ghost predicate AllFired(p: Prog, rid: nat, subs: seq<Substitution>, stored: set<Quad>, index: Index)
    requires rid < |p.rules|
  {
    forall s | s in subs :: s.Keys == BoundVars(p.rules[rid]) && Fired(p, ClauseFor(p.stratum, rid, p.rules[rid], s), stored, index)
  }

  lemma AllFiredMore(p: Prog, rid: nat, subs: seq<Substitution>, k: nat, list1: seq<Quad>, index1: Index, list: seq<Quad>, index: Index)
    requires rid < |p.rules| && k < |subs| && IndexValid(index1)
    requires AllFired(p, rid, subs[..k], Elements(list1), index1)
    requires subs[k].Keys == BoundVars(p.rules[rid])
    requires Fired(p, ClauseFor(p.stratum, rid, p.rules[rid], subs[k]), Elements(list), index)
    requires list1 <= list && exists e: Entry :: index == AddEntry(index1, e.0, e.1)
    ensures AllFired(p, rid, subs[..k + 1], Elements(list), index)
  {
    var e: Entry :| index == AddEntry(index1, e.0, e.1);
    assert subs[..k + 1] == subs[..k] + [subs[k]];
    forall s | s in subs[..k]
      ensures s.Keys == BoundVars(p.rules[rid]) && Fired(p, ClauseFor(p.stratum, rid, p.rules[rid], s), Elements(list), index)
    {
      FiredLater(p, ClauseFor(p.stratum, rid, p.rules[rid], s), list1, index1, list, index, e);
    }
  }

  lemma AnswersAdmitted(p: Prog, rid: nat, sub: Substitution, list: seq<Quad>, subs: seq<Substitution>)
    requires rid < |p.rules| && rid !in p.disabled && Positives(p.rules[rid].body) != []
    requires sub.Keys <= BoundVars(p.rules[rid])
    requires forall s :: s in subs <==> BodyHolds(s, sub, p.rules[rid], Elements(list))
    ensures forall s | s in subs :: s.Keys == BoundVars(p.rules[rid])
  {
    forall s | s in subs ensures s.Keys == BoundVars(p.rules[rid]) {
      BodyClause(p, rid, s, sub, Elements(list));
    }
  }

  lemma ContradictionHolds(p: Prog, rid: nat, sub: Substitution, list: seq<Quad>, subs: seq<Substitution>)
    requires rid < |p.rules| && rid !in p.disabled && Positives(p.rules[rid].body) != []
    requires sub.Keys <= BoundVars(p.rules[rid]) && p.rules[rid].head.Contradiction?
    requires forall s :: s in subs <==> BodyHolds(s, sub, p.rules[rid], Elements(list))
    requires subs != []
    ensures Contradicted(p, Elements(list), p.rules[rid])
  {
    assert subs[0] in subs;
    BodyClause(p, rid, subs[0], sub, Elements(list));
  }

  lemma AnswersFired(p: Prog, rid: nat, sub: Substitution, list0: seq<Quad>, list: seq<Quad>, index: Index, subs: seq<Substitution>)
    requires rid < |p.rules| && list0 <= list
    requires forall s :: s in subs <==> BodyHolds(s, sub, p.rules[rid], Elements(list0))
    requires AllFired(p, rid, subs, Elements(list), index)
    ensures CoversMatch(p, rid, sub, Elements(list0), Elements(list), index)
  {
    ElementsPrefix(list0, list);
    AnswersCover(p, rid, sub, Elements(list0), list, index, subs);
  }

  lemma EvolvesIndexOk(p: Prog, list0: seq<Quad>, index0: Index, list: seq<Quad>, index: Index, log: seq<Entry>)
    requires Evolves(p, list0, index0, list, index, log)
    ensures IndexOk(p.rules, index) && NoDup(list) && list0 <= list
  {
  }

  /** The instance of a body-less rule. */
  lemma FactClause(p: Prog, k: nat) returns (c: Clause)
    requires k < |p.rules| && IsFact(p.rules[k]) && k !in p.disabled
    ensures c in Enabled(p) && c.rid == k && c.pos == [] && c.head == HeadOf(p.rules[k], map[])
  {
    var s: Substitution := map[];
    assert Positives(p.rules[k].body) == [];
    assert Admits(p.rules[k], s);
    c := ClauseFor(p.stratum, k, p.rules[k], s);
    assert IsInstance(p.rules[k], c);
  }

  lemma FactHead(rule: Rule, c: Clause)
    requires IsInstance(rule, c) && rule.body == []
    ensures c.head == HeadOf(rule, map[])
  {
    var s :| Admits(rule, s) && c == ClauseFor(c.prog, c.rid, rule, s);
    assert s == map[];
  }
}
