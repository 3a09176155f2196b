/** Finding the derived quads whose recorded derivation a fact falsifies. */
module Negation {
  import opened Syntax
  import opened Matching
  import opened Clauses
  import opened Grounding
  import opened DerivedFrom
  import opened RuleIndex
  import opened Seminaive
  import opened Maintenance
  import opened Reasoner
  import opened States
  import opened Insertion

  /** The substitution a derivation used: its witnesses matched against the positive atoms in turn. */
  method ReconstructSubstitution(rule: Rule, d: Derivation) returns (r: Option<Substitution>)
    ensures r == MatchFrom(map[], Positives(rule.body), d.bodyWitnesses)
  {
    var sub: Substitution := map[];
    var next := 0;
    assert rule.body[0..] == rule.body && d.bodyWitnesses[0..] == d.bodyWitnesses;
    for a := 0 to |rule.body|
      invariant 0 <= next <= |d.bodyWitnesses|
      invariant MatchFrom(map[], Positives(rule.body), d.bodyWitnesses) ==
                MatchFrom(sub, Positives(rule.body[a..]), d.bodyWitnesses[next..])
    {
      assert rule.body[a..] == [rule.body[a]] + rule.body[a + 1..];
      if rule.body[a].PositivePattern? {
        if next == |d.bodyWitnesses| {
          return None;
        }
        assert d.bodyWitnesses[next..] == [d.bodyWitnesses[next]] + d.bodyWitnesses[next + 1..];
        var step := GetSubstitutions(sub, d.bodyWitnesses[next], rule.body[a].pattern);
        if step.None? {
          return None;
        }
        sub, next := step.value, next + 1;
      }
    }
    r := Some(sub);
  }

  /** `fact` matches the NOT pattern under the substitution the derivation used. */
  ghost predicate Falsified(rule: Rule, d: Derivation, fact: Quad, p: QuadPattern) {
    var s := MatchFrom(map[], Positives(rule.body), d.bodyWitnesses);
    s.Some? && GetSubstitutions(s.value, fact, p).Some?
  }

  ghost predicate FalsifiedBy(rules: seq<Rule>, index: Index, rid: nat, p: QuadPattern, fact: Quad, q: Quad)
    requires rid < |rules|
  {
    exists d :: Holds(index, q, d) && d.ruleId == rid && Falsified(rules[rid], d, fact, p)
  }

  /** Some derivation of one list, by the given rule, is falsified. */
  method SomeFalsified(rule: Rule, rid: nat, ds: seq<Derivation>, p: QuadPattern, fact: Quad) returns (found: bool)
    ensures found <==> exists d :: d in ds && d.ruleId == rid && Falsified(rule, d, fact, p)
  {
    found := false;
    for k := 0 to |ds|
      invariant found <==> exists j :: 0 <= j < k && ds[j].ruleId == rid && Falsified(rule, ds[j], fact, p)
    {
      if ds[k].ruleId == rid {
        var s := ReconstructSubstitution(rule, ds[k]);
        if s.Some? && GetSubstitutions(s.value, fact, p).Some? {
          assert Falsified(rule, ds[k], fact, p);
          found := true;
        }
      }
    }
  }

  /** The quads with a derivation by `rid` that `fact` falsifies, through the reverse index by rule. */
  method CandidateSeeds(rules: seq<Rule>, derivedFrom: DerivedFromIndex, rid: nat, p: QuadPattern, fact: Quad) returns (seeds: set<Quad>)
    requires derivedFrom.Valid() && rid < |rules|
    ensures forall q :: q in seeds <==> rid in derivedFrom.negativelyTriggeringRules && FalsifiedBy(rules, derivedFrom.index, rid, p, fact, q)
  {
    if rid !in derivedFrom.negativelyTriggeringRules {
      derivedFrom.QuadsForUnmarked(rid);
    } else {
      derivedFrom.QuadsForRuleExact(rid);
    }
    ghost var marks := derivedFrom.negativelyTriggeringRules;
    hide Falsified, DerivedFromIndex.Valid;
    var todo := derivedFrom.QuadsForRule(rid);
    ghost var index := derivedFrom.index;
    assert forall q | rid in marks && FalsifiedBy(rules, index, rid, p, fact, q) :: q in todo;
    assert todo != {} ==> rid in marks;
    hide FalsifiedBy, DerivedFromIndex.QuadsForRule;
    seeds := {};
    while todo != {}
      invariant forall q :: q in seeds ==> FalsifiedBy(rules, index, rid, p, fact, q)
      invariant forall q :: rid in marks && FalsifiedBy(rules, index, rid, p, fact, q) ==> q in todo || q in seeds
      invariant todo + seeds != {} ==> rid in marks
      decreases todo
    {
      var q :| q in todo;
      var found := SomeFalsified(rules[rid], rid, derivedFrom.DerivationsFor(q), p, fact);
      FalsifiedAt(rules, index, rid, p, fact, q);
      if found {
        seeds := seeds + {q};
      }
      todo := todo - {q};
    }
  }

  lemma FalsifiedAt(rules: seq<Rule>, index: Index, rid: nat, p: QuadPattern, fact: Quad, q: Quad)
    requires rid < |rules|
    ensures FalsifiedBy(rules, index, rid, p, fact, q) <==>
            exists d :: d in EntriesOf(index, q) && d.ruleId == rid && Falsified(rules[rid], d, fact, p)
  {
    hide Falsified;
    forall d ensures Holds(index, q, d) <==> d in EntriesOf(index, q) {
    }
  }

  /** `q` has a record by an enabled rule that `fact` blocks: the brute-force description. */
  ghost predicate BlockedRecord(p: Prog, index: Index, fact: Quad, q: Quad) {
    exists c :: c in Recorded(p, index) && c.head == Some(q) && c.rid !in p.disabled && fact in c.neg
  }

  /** Likewise, counting only rules the reverse index covers. */
  ghost predicate MarkedBlocked(p: Prog, index: Index, marks: set<nat>, fact: Quad, q: Quad) {
    exists c :: c in Recorded(p, index) && c.head == Some(q) && c.rid !in p.disabled && fact in c.neg && c.rid in marks
  }

  /** With the marks intact nothing is missed. */
  lemma MarkedIsBlocked(p: Prog, index: Index, marks: set<nat>, fact: Quad, q: Quad)
    requires MarksOk(p.rules, marks)
    ensures MarkedBlocked(p, index, marks, fact, q) <==> BlockedRecord(p, index, fact, q)
  {
    if BlockedRecord(p, index, fact, q) {
      var c :| c in Recorded(p, index) && c.head == Some(q) && c.rid !in p.disabled && fact in c.neg;
      var s :| Admits(p.rules[c.rid], s) && c == ClauseFor(c.prog, c.rid, p.rules[c.rid], s);
      assert BlockedBy(p.rules[c.rid], s, fact);
    }
  }

  /** `q` is found through one of the first `k` candidates. */
  ghost predicate FoundBy(rules: seq<Rule>, index: Index, marks: set<nat>, candidates: seq<(nat, QuadPattern)>, k: nat, fact: Quad, q: Quad) {
    exists j :: 0 <= j < k && j < |candidates| && candidates[j].0 < |rules| && candidates[j].0 in marks &&
                FalsifiedBy(rules, index, candidates[j].0, candidates[j].1, fact, q)
  }

  lemma FoundByNext(rules: seq<Rule>, index: Index, marks: set<nat>, candidates: seq<(nat, QuadPattern)>, k: nat, fact: Quad, q: Quad)
    requires k < |candidates| && candidates[k].0 < |rules|
    ensures FoundBy(rules, index, marks, candidates, k + 1, fact, q) <==>
            FoundBy(rules, index, marks, candidates, k, fact, q) ||
            (candidates[k].0 in marks && FalsifiedBy(rules, index, candidates[k].0, candidates[k].1, fact, q))
  {
    hide FalsifiedBy;
  }

  /** The quads of one program with an enabled-rule derivation that `fact` falsifies. */
  method ProgramSeeds(program: DatalogProgram, fact: Quad) returns (seeds: set<Quad>)
    requires program.Valid()
    ensures forall q :: q in seeds <==>
              MarkedBlocked(program.Value(), program.derivedFrom.index, program.derivedFrom.negativelyTriggeringRules, fact, q)
    ensures MarksOk(program.rules, program.derivedFrom.negativelyTriggeringRules) ==>
              forall q :: q in seeds <==> BlockedRecord(program.Value(), program.derivedFrom.index, fact, q)
  {
    var candidates := NegativelyTriggeredRules(program.rules, program.negRuleMap, program.disabledRules, fact);
    var rules := program.rules;
    ghost var index, marks := program.derivedFrom.index, program.derivedFrom.negativelyTriggeringRules;
    assert IndexOk(rules, index) && program.derivedFrom.Valid();
    assert forall q :: !FoundBy(rules, index, marks, candidates, 0, fact, q);
    hide MarksOk, MarkedBlocked, FoundBy, FalsifiedBy, DatalogProgram.Valid, DerivedFromIndex.Valid, IndexOk, BlockedRecord;
    seeds := {};
    for k := 0 to |candidates|
      invariant forall q :: q in seeds <==> FoundBy(rules, index, marks, candidates, k, fact, q)
    {
      assert (candidates[k].0, candidates[k].1) in candidates;
      assert IsCandidate(rules, program.disabledRules, fact, candidates[k].0, candidates[k].1);
      var found := CandidateSeeds(rules, program.derivedFrom, candidates[k].0, candidates[k].1, fact);
      forall q ensures q in seeds + found <==> FoundBy(rules, index, marks, candidates, k + 1, fact, q) {
        FoundByNext(rules, index, marks, candidates, k, fact, q);
      }
      seeds := seeds + found;
    }
    forall q
      ensures q in seeds <==> MarkedBlocked(program.Value(), index, marks, fact, q)
      ensures MarksOk(rules, marks) ==> (q in seeds <==> BlockedRecord(program.Value(), index, fact, q))
    {
      SeedExact(program.Value(), index, marks, candidates, fact, q);
      if MarksOk(rules, marks) { MarkedIsBlocked(program.Value(), index, marks, fact, q); }
    }
  }

  /** Indexed invalidation agrees with brute force, for one program and one fact. */
  lemma SeedExact(p: Prog, index: Index, marks: set<nat>, candidates: seq<(nat, QuadPattern)>, fact: Quad, q: Quad)
    requires IndexOk(p.rules, index)
    requires forall rid: nat, pat :: (rid, pat) in candidates <==> IsCandidate(p.rules, p.disabled, fact, rid, pat)
    ensures MarkedBlocked(p, index, marks, fact, q) <==> FoundBy(p.rules, index, marks, candidates, |candidates|, fact, q)
  {
    if MarkedBlocked(p, index, marks, fact, q) {
      var rid, pat := BlockedCandidate(p, index, marks, fact, q);
      assert (rid, pat) in candidates;
      var j :| 0 <= j < |candidates| && candidates[j] == (rid, pat);
    }
    forall j | 0 <= j < |candidates| && candidates[j].0 < |p.rules| && candidates[j].0 in marks &&
               FalsifiedBy(p.rules, index, candidates[j].0, candidates[j].1, fact, q)
      ensures MarkedBlocked(p, index, marks, fact, q)
    {
      assert (candidates[j].0, candidates[j].1) in candidates;
      CandidateBlocked(p, index, marks, candidates[j].0, candidates[j].1, fact, q);
    }
  }

  /** A blocked record has a NOT atom that the fact matches, so the fact's keys find that atom. */
  lemma BlockedCandidate(p: Prog, index: Index, marks: set<nat>, fact: Quad, q: Quad) returns (rid: nat, pat: QuadPattern)
    requires IndexOk(p.rules, index) && MarkedBlocked(p, index, marks, fact, q)
    ensures IsCandidate(p.rules, p.disabled, fact, rid, pat) && rid in marks && FalsifiedBy(p.rules, index, rid, pat, fact, q)
  {
    var c :| c in Recorded(p, index) && c.head == Some(q) && c.rid !in p.disabled && fact in c.neg && c.rid in marks;
    rid := c.rid;
    var rule := p.rules[rid];
    var s :| Admits(rule, s) && c == ClauseFor(c.prog, c.rid, rule, s);
    pat :| pat in Negatives(rule.body) && GetSubstitutions(s, fact, pat).Some?;
    Reconstructs(rule, s);
    MatchSound(s, fact, pat);
    MatchComplete(map[], fact, pat, GetSubstitutions(s, fact, pat).value);
    KeyFound(fact, pat);
    assert Falsified(rule, Derivation(rid, c.pos), fact, pat);
  }

  lemma CandidateBlocked(p: Prog, index: Index, marks: set<nat>, rid: nat, pat: QuadPattern, fact: Quad, q: Quad)
    requires IndexOk(p.rules, index)
    requires IsCandidate(p.rules, p.disabled, fact, rid, pat) && rid in marks && FalsifiedBy(p.rules, index, rid, pat, fact, q)
    ensures MarkedBlocked(p, index, marks, fact, q)
  {
    var d :| Holds(index, q, d) && d.ruleId == rid && Falsified(p.rules[rid], d, fact, pat);
    var c := EntryClause(p.stratum, p.rules, index, q, d);
    EveryQuad(fact);
    assert fact in c.neg;
  }

  /** The marks of each program's rules. */
  type Marks = seq<set<nat>>

  /** Every rule with a NOT atom is marked. */
  ghost predicate AllMarked(progs: seq<Prog>, marks: Marks) {
    |marks| == |progs| && forall i | 0 <= i < |progs| :: MarksOk(progs[i].rules, marks[i])
  }

  /** The instances that the search for blocked records does not see. */
  ghost function Missed(marks: Marks): Program {
    iset c: Clause | c.prog >= |marks| || c.rid !in marks[c.prog]
  }

  /** One of the first `k` programs has a record of `q`, by a marked rule, that `fact` blocks. */
  ghost predicate BlockedBelow(progs: seq<Prog>, indexes: seq<Index>, marks: Marks, k: nat, fact: Quad, q: Quad)
    requires |indexes| == |marks| == |progs|
  {
    exists i :: 0 <= i < k && i < |progs| && MarkedBlocked(progs[i], indexes[i], marks[i], fact, q)
  }

  lemma BlockedBelowNext(progs: seq<Prog>, indexes: seq<Index>, marks: Marks, k: nat, fact: Quad, q: Quad)
    requires |indexes| == |marks| == |progs| && k < |progs|
    ensures BlockedBelow(progs, indexes, marks, k + 1, fact, q) <==>
            BlockedBelow(progs, indexes, marks, k, fact, q) || MarkedBlocked(progs[k], indexes[k], marks[k], fact, q)
  {
    hide MarkedBlocked;
  }

  /** `seeds` are the quads with a record, by a marked rule of any program, that one of `facts` blocks. */
  ghost predicate SeedsFor(progs: seq<Prog>, indexes: seq<Index>, marks: Marks, facts: set<Quad>, seeds: set<Quad>)
    requires |indexes| == |marks| == |progs|
  {
    forall q :: q in seeds <==> exists f :: f in facts && BlockedBelow(progs, indexes, marks, |progs|, f, q)
  }

  lemma SeedsForNone(progs: seq<Prog>, indexes: seq<Index>, marks: Marks)
    requires |indexes| == |marks| == |progs|
    ensures SeedsFor(progs, indexes, marks, {}, {})
  {
  }

  lemma SeedsForNext(progs: seq<Prog>, indexes: seq<Index>, marks: Marks, facts: set<Quad>, seeds: set<Quad>, f: Quad, found: set<Quad>)
    requires |indexes| == |marks| == |progs| && SeedsFor(progs, indexes, marks, facts, seeds)
    requires forall q :: q in found <==> BlockedBelow(progs, indexes, marks, |progs|, f, q)
    ensures SeedsFor(progs, indexes, marks, facts + {f}, seeds + found)
  {
    hide BlockedBelow;
    forall q ensures q in seeds + found <==> exists x :: x in facts + {f} && BlockedBelow(progs, indexes, marks, |progs|, x, q) {
      if q in seeds {
        var x :| x in facts && BlockedBelow(progs, indexes, marks, |progs|, x, q);
        assert x in facts + {f};
      } else if q in found {
        assert f in facts + {f};
      }
    }
  }

  /** In a pending state these are the heads of the blocked records, missed ones aside. */
  lemma SeedsBlocked(progs: seq<Prog>, marks: Marks, b: Snapshot, check: set<Quad>, seeds: set<Quad>)
    requires Layered(progs) && |marks| == |progs| && PendingState(progs, b, check, Missed(marks))
    requires SeedsFor(progs, b.indexes, marks, check, seeds)
    ensures BlockedHeads(AllRecorded(progs, b.indexes), b.ext, check, seeds, Missed(marks))
  {
    var d := AllRecorded(progs, b.indexes);
    forall c | c in d && c.head.Some? && c.head.value !in b.ext && c !in Missed(marks) && !(c.neg !! check) ensures c.head.value in seeds {
      assert c in AllEnabled(progs);
      var f :| f in c.neg && f in check;
      assert MarkedBlocked(progs[c.prog], b.indexes[c.prog], marks[c.prog], f, c.head.value);
      assert BlockedBelow(progs, b.indexes, marks, |progs|, f, c.head.value);
    }
    forall q | q in seeds ensures exists c :: c in d && c !in Missed(marks) && c.head == Some(q) && !(c.neg !! check) {
      var f :| f in check && BlockedBelow(progs, b.indexes, marks, |progs|, f, q);
      var i :| 0 <= i < |progs| && MarkedBlocked(progs[i], b.indexes[i], marks[i], f, q);
      var c :| c in Recorded(progs[i], b.indexes[i]) && c.head == Some(q) && c.rid !in progs[i].disabled && f in c.neg && c.rid in marks[i];
      assert c in d;
    }
  }

  /** With all marks in place only instances without NOT atoms are missed. */
  lemma MissedUnguarded(progs: seq<Prog>, marks: Marks, indexes: seq<Index>, c: Clause)
    requires |indexes| == |progs| && AllMarked(progs, marks) && c in AllRecorded(progs, indexes) && c in Missed(marks)
    ensures c.neg == {}
  {
    var r := progs[c.prog].rules[c.rid];
    var s :| Admits(r, s) && c == ClauseFor(c.prog, c.rid, r, s);
    assert Negatives(r.body) == [];
    forall q ensures !BlockedBy(r, s, q) {
    }
  }

  /** Without NOT atoms there is nothing to invalidate. */
  ghost predicate NegationFree(progs: seq<Prog>) {
    forall i, r | 0 <= i < |progs| && r in progs[i].rules :: Negatives(r.body) == []
  }

  lemma UnguardedInstance(progs: seq<Prog>, c: Clause)
    requires NegationFree(progs) && c in AllEnabled(progs)
    ensures c.neg == {}
  {
    var rule := progs[c.prog].rules[c.rid];
    assert IsInstance(rule, c);
    var s :| Admits(rule, s) && c == ClauseFor(c.prog, c.rid, rule, s);
    assert Negatives(rule.body) == [];
  }

  lemma BlockedNegative(p: Prog, index: Index, fact: Quad, q: Quad)
    requires BlockedRecord(p, index, fact, q)
    ensures exists r :: r in p.rules && Negatives(r.body) != []
  {
    var c :| c in Recorded(p, index) && c.head == Some(q) && c.rid !in p.disabled && fact in c.neg;
    assert p.rules[c.rid] in p.rules;
    var s :| Admits(p.rules[c.rid], s) && c == ClauseFor(c.prog, c.rid, p.rules[c.rid], s);
    assert BlockedBy(p.rules[c.rid], s, fact);
  }

  lemma NoSeeds(progs: seq<Prog>, indexes: seq<Index>, marks: Marks, facts: set<Quad>, seeds: set<Quad>)
    requires |indexes| == |marks| == |progs| && NegationFree(progs) && SeedsFor(progs, indexes, marks, facts, seeds)
    ensures seeds == {}
  {
    forall i, f, q | 0 <= i < |progs| && f in facts
      ensures !MarkedBlocked(progs[i], indexes[i], marks[i], f, q)
    {
      if BlockedRecord(progs[i], indexes[i], f, q) {
        BlockedNegative(progs[i], indexes[i], f, q);
      }
    }
  }

  /** Without marks nothing is found. */
  lemma NoMarksNoSeeds(progs: seq<Prog>, indexes: seq<Index>, marks: Marks, facts: set<Quad>, seeds: set<Quad>)
    requires |indexes| == |marks| == |progs| && SeedsFor(progs, indexes, marks, facts, seeds)
    requires forall i | 0 <= i < |marks| :: marks[i] == {}
    ensures seeds == {}
  {
  }
}
