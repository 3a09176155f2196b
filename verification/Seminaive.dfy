/**
 * What a stretch of semi-naive evaluation of one program may do to the store and the index, and what
 * it must have done, on values.  `p` is the program's enabled ground rules.
 */
module Seminaive {
  import opened Syntax
  import opened Matching
  import opened Clauses
  import opened Grounding
  import opened Joins
  import opened DerivedFrom
  import opened Maintenance

  /** The identity of a program: its stratum, its rules and which of them are retracted. */
  datatype Prog = Prog(stratum: nat, rules: seq<Rule>, disabled: set<nat>)

  ghost function Enabled(p: Prog): Program {
    RuleClauses(p.stratum, p.rules, p.disabled)
  }

  ghost function Recorded(p: Prog, index: Index): Program {
    RecordedIn(p.stratum, p.rules, index)
  }

  /** `c` has fired: its head is stored and the derivation is on record. */
  ghost predicate Fired(p: Prog, c: Clause, stored: set<Quad>, index: Index) {
    c.head.Some? && c.head.value in stored && c in Recorded(p, index)
  }

  /** Why the quad at position `k` was appended: a recorded instance over earlier quads. */
  ghost predicate Justified(p: Prog, list0: seq<Quad>, list: seq<Quad>, index: Index, k: nat)
    requires k < |list|
  {
    exists c :: c in Enabled(p) && c in Recorded(p, index) && c.head == Some(list[k]) &&
                Within(c.pos, Elements(list[..k])) && c.neg !! Elements(list0)
  }

  /**
   * From (`list0`, `index0`) to (`list`, `index`): quads were only appended, each justified by quads
   * before it; records were only added, in the order of `log`, each one satisfied when it was made.
   */
  ghost predicate Evolves(p: Prog, list0: seq<Quad>, index0: Index, list: seq<Quad>, index: Index, log: seq<Entry>) {
    && list0 <= list && NoDup(list)
    && FreshLog(index0, log) && index == AddAll(index0, log)
    && IndexOk(p.rules, index)
    && (forall k | |list0| <= k < |list| :: Justified(p, list0, list, index, k))
    && (forall c | c in Recorded(p, index) && c !in Recorded(p, index0) ::
          c in Enabled(p) && Within(c.pos, Elements(list)) && c.neg !! Elements(list0) && c.head.value in list)
    && (forall k | |list0| <= k < |list| :: LoggedOrKnown(index0, log, list[k]))
    && (forall e | e in log :: e.0 in list)
  }

  ghost predicate LoggedOrKnown(index0: Index, log: seq<Entry>, q: Quad) {
    (exists d :: (q, d) in log) || (exists d :: Holds(index0, q, d))
  }

  /** The parts of an evolution that do not look into the rules. */
  lemma EvolvesParts(p: Prog, list0: seq<Quad>, index0: Index, list: seq<Quad>, index: Index, log: seq<Entry>)
    requires Evolves(p, list0, index0, list, index, log)
    ensures list0 <= list && NoDup(list) && FreshLog(index0, log) && index == AddAll(index0, log) && IndexOk(p.rules, index)
    ensures forall k | |list0| <= k < |list| :: LoggedOrKnown(index0, log, list[k])
    ensures forall e | e in log :: e.0 in list
  {
  }

  lemma EvolvesRefl(p: Prog, list: seq<Quad>, index: Index)
    requires NoDup(list) && IndexOk(p.rules, index)
    ensures Evolves(p, list, index, list, index, [])
  {
  }

  lemma {:induction false} AddAllConcat(index: Index, a: seq<Entry>, b: seq<Entry>)
    ensures AddAll(AddAll(index, a), b) == AddAll(index, a + b)
    decreases |b|
  {
    if b == [] {
      assert a + b == a;
    } else {
      AddAllConcat(index, a, b[..|b| - 1]);
      assert (a + b)[..|a + b| - 1] == a + b[..|b| - 1];
    }
  }

  lemma FreshConcat(index: Index, a: seq<Entry>, b: seq<Entry>)
    requires IndexValid(index) && FreshLog(index, a) && FreshLog(AddAll(index, a), b)
    ensures FreshLog(index, a + b)
  {
    AddAllHolds(index, a);
    forall e | e in b ensures e !in a && !Holds(index, e.0, e.1) {
      assert (e.0, e.1) == e;
    }
    ConcatNoDup(a, b);
  }

  lemma RecordedMonotone(p: Prog, index: Index, log: seq<Entry>)
    requires IndexValid(index)
    ensures Recorded(p, index) <= Recorded(p, AddAll(index, log))
  {
    AddAllHolds(index, log);
  }

  /** Justifications and logs of both stretches carry over to the whole. */
  lemma JustifiedTrans(p: Prog, list0: seq<Quad>, index0: Index, list1: seq<Quad>, index1: Index, log1: seq<Entry>,
                       list2: seq<Quad>, index2: Index, log2: seq<Entry>, k: nat)
    requires list0 <= list1 <= list2 && Elements(list0) <= Elements(list1)
    requires Recorded(p, index1) <= Recorded(p, index2)
    requires forall q, d :: Holds(index1, q, d) <==> Holds(index0, q, d) || (q, d) in log1
    requires |list0| <= k < |list2|
    requires k < |list1| ==> Justified(p, list0, list1, index1, k) && LoggedOrKnown(index0, log1, list1[k])
    requires k >= |list1| ==> Justified(p, list1, list2, index2, k) && LoggedOrKnown(index1, log2, list2[k])
    ensures Justified(p, list0, list2, index2, k) && LoggedOrKnown(index0, log1 + log2, list2[k])
  {
    hide Enabled, Recorded, Holds;
    if k < |list1| {
      assert list2[k] == list1[k] && list2[..k] == list1[..k];
    }
  }

  lemma EvolvesTrans(p: Prog, list0: seq<Quad>, index0: Index, list1: seq<Quad>, index1: Index, log1: seq<Entry>,
                     list2: seq<Quad>, index2: Index, log2: seq<Entry>)
    requires IndexValid(index0)
    requires Evolves(p, list0, index0, list1, index1, log1)
    requires Evolves(p, list1, index1, list2, index2, log2)
    ensures Evolves(p, list0, index0, list2, index2, log1 + log2)
  {
    AddAllConcat(index0, log1, log2);
    FreshConcat(index0, log1, log2);
    AddAllHolds(index0, log1);
    RecordedMonotone(p, index1, log2);
    ElementsPrefix(list0, list1);
    ElementsPrefix(list1, list2);
    hide Enabled, Recorded, IndexOk, FreshLog, AddAll, IndexValid, Justified, LoggedOrKnown, Holds;
    forall k | |list0| <= k < |list2|
      ensures Justified(p, list0, list2, index2, k) && LoggedOrKnown(index0, log1 + log2, list2[k])
    {
      JustifiedTrans(p, list0, index0, list1, index1, log1, list2, index2, log2, k);
    }
    forall e | e in log1 ensures e.0 in list2 {
      assert e.0 in Elements(list1);
    }
  }

  lemma ElementsPrefix<T>(a: seq<T>, b: seq<T>)
    requires a <= b
    ensures Elements(a) <= Elements(b)
  {
    forall x | x in a ensures x in b {
      var i :| 0 <= i < |a| && a[i] == x;
      assert b[i] == x;
    }
  }

  // ---- One rule firing ----

  /** The entry that firing rule `rid` under `s` records. */
  function EntryFor(rule: Rule, rid: nat, s: Substitution): Entry
    requires s.Keys == BoundVars(rule) && HeadOf(rule, s).Some?
  {
    (HeadOf(rule, s).value, Derivation(rid, Witnesses(s, Positives(rule.body))))
  }

  /** A body that holds makes an instance that is satisfied. */
  lemma BodyClause(p: Prog, rid: nat, s: Substitution, sub: Substitution, stored: set<Quad>)
    requires rid < |p.rules| && rid !in p.disabled
    requires Positives(p.rules[rid].body) != [] && sub.Keys <= BoundVars(p.rules[rid])
    requires BodyHolds(s, sub, p.rules[rid], stored)
    ensures s.Keys == BoundVars(p.rules[rid]) && Admits(p.rules[rid], s)
    ensures var c := ClauseFor(p.stratum, rid, p.rules[rid], s);
            c in Enabled(p) && Sat(c, stored) && c.pos != []
  {
    var rule := p.rules[rid];
    var c := ClauseFor(p.stratum, rid, rule, s);
    assert IsInstance(rule, c);
    var ps := Positives(rule.body);
    forall w | w in c.pos ensures w in stored {
      var j :| 0 <= j < |c.pos| && c.pos[j] == w;
      assert ps[j] in ps;
    }
  }

  lemma WitnessOf(s: Substitution, ps: seq<QuadPattern>, p: QuadPattern)
    requires ListVars(ps) <= s.Keys && p in ps
    ensures PatternVars(p) <= s.Keys && ApplyQuad(s, p) in Witnesses(s, ps)
  {
    VarsInList(ps, p);
    var j :| 0 <= j < |ps| && ps[j] == p;
    assert Witnesses(s, ps)[j] == ApplyQuad(s, p);
  }

  /** Conversely a satisfied instance is found from any match its substitution extends. */
  lemma ClauseBody(rule: Rule, s: Substitution, sub: Substitution, stored: set<Quad>, prog: nat, rid: nat)
    requires Admits(rule, s) && Extends(sub, s) && Sat(ClauseFor(prog, rid, rule, s), stored)
    ensures BodyHolds(s, sub, rule, stored)
  {
    hide ListVars, PatternVars, ApplyQuad, Witnesses, Blockers, GuardsHold, HeadOf;
    var ps := Positives(rule.body);
    forall p | p in ps ensures PatternVars(p) <= s.Keys && ApplyQuad(s, p) in stored {
      WitnessOf(s, ps, p);
    }
    assert s.Keys == sub.Keys + ListVars(ps);
  }

  /** What one firing does to the records. */
  lemma FireRecords(p: Prog, rid: nat, s: Substitution, index: Index, index': Index, log: seq<Entry>)
    requires rid < |p.rules| && Admits(p.rules[rid], s) && Positives(p.rules[rid].body) != []
    requires HeadOf(p.rules[rid], s).Some?
    requires IndexValid(index) && IndexOk(p.rules, index)
    requires var e := EntryFor(p.rules[rid], rid, s);
             && index' == AddEntry(index, e.0, e.1)
             && log == (if Holds(index, e.0, e.1) then [] else [e])
    ensures index' == AddAll(index, log) && FreshLog(index, log) && IndexOk(p.rules, index')
    ensures Recorded(p, index') == Recorded(p, index) + iset{ClauseFor(p.stratum, rid, p.rules[rid], s)}
  {
    var e := EntryFor(p.rules[rid], rid, s);
    assert forall q, d :: Holds(index', q, d) <==> Holds(index, q, d) || (q == e.0 && d == e.1);
    RecordAdds(p.stratum, rid, p.rules, index, index', s);
    if log == [e] { assert log[..0] == []; }
  }

  /** The step one firing takes, for a body that held when evaluation of its rule began at `list0`. */
  lemma FireEvolves(p: Prog, rid: nat, s: Substitution, sub: Substitution, list0: seq<Quad>, index0: Index,
                    list: seq<Quad>, index: Index, log: seq<Entry>, list': seq<Quad>, index': Index, log': seq<Entry>)
    requires rid < |p.rules| && rid !in p.disabled
    requires Positives(p.rules[rid].body) != [] && sub.Keys <= BoundVars(p.rules[rid])
    requires BodyHolds(s, sub, p.rules[rid], Elements(list0))
    requires s.Keys == BoundVars(p.rules[rid]) && HeadOf(p.rules[rid], s).Some?
    requires IndexValid(index0) && Evolves(p, list0, index0, list, index, log)
    requires var e := EntryFor(p.rules[rid], rid, s);
             && list' == (if e.0 in list then list else list + [e.0])
             && index' == AddEntry(index, e.0, e.1)
             && log' == (if Holds(index, e.0, e.1) then log else log + [e])
    ensures Evolves(p, list0, index0, list', index', log')
    ensures Fired(p, ClauseFor(p.stratum, rid, p.rules[rid], s), Elements(list'), index')
  {
    BodyClause(p, rid, s, sub, Elements(list0));
    AddAllHolds(index0, log);
    var e, c := EntryFor(p.rules[rid], rid, s), ClauseFor(p.stratum, rid, p.rules[rid], s);
    var step := if Holds(index, e.0, e.1) then [] else [e];
    FireRecords(p, rid, s, index, index', step);
    ElementsPrefix(list0, list);
    ElementsPrefix(list, list');
    AddAllConcat(index0, log, step);
    FreshConcat(index0, log, step);
    assert log' == log + step;
    FireJustified(p, list0, index0, list, index, log, list', index', log', e, c);
  }

  lemma FireJustified(p: Prog, list0: seq<Quad>, index0: Index, list: seq<Quad>, index: Index, log: seq<Entry>,
                      list': seq<Quad>, index': Index, log': seq<Entry>, e: Entry, c: Clause)
    requires Evolves(p, list0, index0, list, index, log)
    requires c in Enabled(p) && c.head == Some(e.0) && Within(c.pos, Elements(list0)) && c.neg !! Elements(list0)
    requires Elements(list0) <= Elements(list) <= Elements(list')
    requires list' == (if e.0 in list then list else list + [e.0])
    requires log' == log || log' == log + [e]
    requires log' == log ==> Holds(index, e.0, e.1)
    requires index' == AddAll(index0, log') && FreshLog(index0, log') && IndexOk(p.rules, index')
    requires Recorded(p, index') == Recorded(p, index) + iset{c}
    requires forall q, d | Holds(index, q, d) && !Holds(index0, q, d) :: (q, d) in log
    ensures Evolves(p, list0, index0, list', index', log')
  {
    hide Enabled, Recorded, IndexOk, FreshLog;
    forall k | |list0| <= k < |list'|
      ensures Justified(p, list0, list', index', k) && LoggedOrKnown(index0, log', list'[k])
    {
      if k < |list| {
        assert list'[k] == list[k] && list'[..k] == list[..k];
        assert Justified(p, list0, list, index, k) && LoggedOrKnown(index0, log, list[k]);
      } else {
        assert list'[..k] == list;
        if log' == log {
          assert Holds(index0, e.0, e.1) || (e.0, e.1) in log;
        } else {
          assert (e.0, e.1) == e && e in log';
        }
      }
    }
  }

  // ---- Completeness ----

  ghost predicate Touches(ws: seq<Quad>, delta: set<Quad>) {
    exists w :: w in ws && w in delta
  }

  /** Every instance over `upto` that uses a quad of `delta` has fired, unless it is blocked by now. */
  ghost predicate Covers(p: Prog, upto: set<Quad>, delta: set<Quad>, stored: set<Quad>, index: Index) {
    forall c | c in Enabled(p) && Within(c.pos, upto) && Touches(c.pos, delta) && c.neg !! stored ::
      Fired(p, c, stored, index)
  }

  /** Every instance over `upto` has fired, unless it is blocked by now. */
  ghost predicate Processed(p: Prog, upto: set<Quad>, stored: set<Quad>, index: Index) {
    forall c | c in Enabled(p) && c.pos != [] && Within(c.pos, upto) && c.neg !! stored ::
      Fired(p, c, stored, index)
  }

  /** Every satisfied instance that has not fired uses a quad of `delta`. */
  ghost predicate Primed(p: Prog, stored: set<Quad>, delta: set<Quad>, index: Index) {
    forall c | c in Enabled(p) && c.pos != [] && Sat(c, stored) ::
      Fired(p, c, stored, index) || Touches(c.pos, delta)
  }

  lemma CoversLater(p: Prog, upto: set<Quad>, delta: set<Quad>, list: seq<Quad>, index: Index,
                    list': seq<Quad>, index': Index, log: seq<Entry>)
    requires Covers(p, upto, delta, Elements(list), index)
    requires IndexValid(index) && Evolves(p, list, index, list', index', log)
    ensures Covers(p, upto, delta, Elements(list'), index')
  {
    ElementsPrefix(list, list');
    RecordedMonotone(p, index, log);
  }

  lemma ProcessedLater(p: Prog, upto: set<Quad>, list: seq<Quad>, index: Index,
                       list': seq<Quad>, index': Index, log: seq<Entry>)
    requires Processed(p, upto, Elements(list), index)
    requires IndexValid(index) && Evolves(p, list, index, list', index', log)
    ensures Processed(p, upto, Elements(list'), index')
  {
    ElementsPrefix(list, list');
    RecordedMonotone(p, index, log);
  }

  /** Processing one more slice of the list. */
  lemma ProcessedMore(p: Prog, done: set<Quad>, delta: set<Quad>, stored: set<Quad>, index: Index)
    requires Processed(p, done, stored, index)
    requires Covers(p, done + delta, delta, stored, index)
    ensures Processed(p, done + delta, stored, index)
  {
    forall c | c in Enabled(p) && c.pos != [] && Within(c.pos, done + delta) && c.neg !! stored
      ensures Fired(p, c, stored, index)
    {
      if !Touches(c.pos, delta) {
        assert Within(c.pos, done);
      }
    }
  }

  /** Seeding with an explicit delta processes the whole store when the rest had been processed before. */
  lemma PrimedProcessed(p: Prog, list1: seq<Quad>, index1: Index, delta: set<Quad>,
                        list2: seq<Quad>, index2: Index, log: seq<Entry>)
    requires Primed(p, Elements(list1), delta, index1)
    requires IndexValid(index1) && Evolves(p, list1, index1, list2, index2, log)
    requires Covers(p, Elements(list1), delta, Elements(list2), index2)
    ensures Processed(p, Elements(list1), Elements(list2), index2)
  {
    ElementsPrefix(list1, list2);
    RecordedMonotone(p, index1, log);
    forall c | c in Enabled(p) && c.pos != [] && Within(c.pos, Elements(list1)) && c.neg !! Elements(list2)
      ensures Fired(p, c, Elements(list2), index2)
    {
      assert Sat(c, Elements(list1));
    }
  }

  // ---- One program, start to end ----

  /** Body-less rules are seeded: their heads are stored, and none is a contradiction. */
  ghost predicate FactsStored(p: Prog, stored: set<Quad>) {
    forall c | c in Enabled(p) && c.pos == [] :: c.head.Some? && c.head.value in stored
  }

  ghost predicate IsFactHead(p: Prog, q: Quad) {
    exists c :: c in Enabled(p) && c.pos == [] && c.head == Some(q)
  }

  /** `seeded` is `list` with heads of body-less rules appended. */
  ghost predicate Seeded(p: Prog, list: seq<Quad>, seeded: seq<Quad>) {
    list <= seeded && NoDup(seeded) && forall k | |list| <= k < |seeded| :: IsFactHead(p, seeded[k])
  }

  lemma BodylessUnguarded(p: Prog, c: Clause)
    requires c in Enabled(p) && c.pos == []
    ensures c.neg == {}
  {
    FactInstance(p.rules[c.rid], c);
  }

  lemma {:induction false} JustifiedLeast(p: Prog, list0: seq<Quad>, list1: seq<Quad>, list: seq<Quad>, index: Index, k: nat)
    requires Seeded(p, list0, list1) && list1 <= list && k <= |list|
    requires forall j | |list1| <= j < |list| :: Justified(p, list1, list, index, j)
    ensures Elements(list[..k]) <= Least(Fireable(Enabled(p), Recorded(p, index)), Elements(list0), Elements(list0))
  {
    var least := Least(Fireable(Enabled(p), Recorded(p, index)), Elements(list0), Elements(list0));
    LeastIsModel(Fireable(Enabled(p), Recorded(p, index)), Elements(list0), Elements(list0));
    if k > 0 {
      JustifiedLeast(p, list0, list1, list, index, k - 1);
      assert list[..k] == list[..k - 1] + [list[k - 1]];
      var q := list[k - 1];
      ElementsPrefix(list0, list1);
      if k <= |list0| {
        assert list0[k - 1] == q;
      } else if k <= |list1| {
        assert list1[k - 1] == q;
        var c :| c in Enabled(p) && c.pos == [] && c.head == Some(q);
        BodylessUnguarded(p, c);
        assert c in Fireable(Enabled(p), Recorded(p, index)) && Within(c.pos, least);
      } else {
        assert Justified(p, list1, list, index, k - 1);
        var c :| c in Enabled(p) && c in Recorded(p, index) && c.head == Some(q) &&
                 Within(c.pos, Elements(list[..k - 1])) && c.neg !! Elements(list1);
        assert c in Fireable(Enabled(p), Recorded(p, index)) && Within(c.pos, least);
      }
      assert q in least;
    }
  }

  /** A run that seeded its facts and processed everything has materialised its program. */
  lemma RunMaterialised(p: Prog, list0: seq<Quad>, index0: Index, list1: seq<Quad>, list: seq<Quad>, index: Index, log: seq<Entry>)
    requires IndexValid(index0) && IndexOk(p.rules, index0)
    requires Seeded(p, list0, list1) && FactsStored(p, Elements(list1))
    requires Evolves(p, list1, index0, list, index, log)
    requires Processed(p, Elements(list), Elements(list), index)
    ensures Materialised(Enabled(p), Elements(list0), Recorded(p, index0), Elements(list), Recorded(p, index))
  {
    ElementsPrefix(list0, list1);
    ElementsPrefix(list1, list);
    RecordedMonotone(p, index0, log);
    JustifiedLeast(p, list0, list1, list, index, |list|);
    assert list[..|list|] == list;
    forall c | c in Recorded(p, index) && c !in Recorded(p, index0)
      ensures c.pos != []
    {
      RecordedPos(p.stratum, p.rules, index, c);
    }
    forall c | c in Enabled(p) && Sat(c, Elements(list))
      ensures c.head.Some? && c.head.value in Elements(list) && (c.pos != [] ==> c in Recorded(p, index))
    {
      if c.pos != [] {
        assert Fired(p, c, Elements(list), index);
      }
    }
  }

  // ---- Coverage of one triggering match ----

  /** Every instance of rule `rid` over `upto` that extends `sub` has fired, unless it is blocked by now. */
  ghost predicate CoversMatch(p: Prog, rid: nat, sub: Substitution, upto: set<Quad>, stored: set<Quad>, index: Index)
    requires rid < |p.rules|
  {
    forall s | Admits(p.rules[rid], s) && Extends(sub, s) ::
      var c := ClauseFor(p.stratum, rid, p.rules[rid], s);
      Within(c.pos, upto) && c.neg !! stored ==> Fired(p, c, stored, index)
  }

  /** All matches of one quad covered: every instance that uses the quad is. */
  lemma MatchesCover(p: Prog, q: Quad, upto: set<Quad>, stored: set<Quad>, index: Index)
    requires forall rid: nat, pat | rid < |p.rules| && rid !in p.disabled && pat in Positives(p.rules[rid].body) &&
                                    GetSubstitutions(map[], q, pat).Some? ::
               CoversMatch(p, rid, GetSubstitutions(map[], q, pat).value, upto, stored, index)
    ensures Covers(p, upto, {q}, stored, index)
  {
    forall c | c in Enabled(p) && Within(c.pos, upto) && Touches(c.pos, {q}) && c.neg !! stored
      ensures Fired(p, c, stored, index)
    {
      var rule := p.rules[c.rid];
      var s :| Admits(rule, s) && c == ClauseFor(c.prog, c.rid, rule, s);
      var ps := Positives(rule.body);
      var j :| 0 <= j < |c.pos| && c.pos[j] == q;
      assert c.pos[j] == ApplyQuad(s, ps[j]);
      VarsInList(ps, ps[j]);
      MatchComplete(map[], q, ps[j], s);
      assert CoversMatch(p, c.rid, GetSubstitutions(map[], q, ps[j]).value, upto, stored, index);
    }
  }

  lemma CoversMatchLater(p: Prog, rid: nat, sub: Substitution, upto: set<Quad>, list: seq<Quad>, index: Index,
                         list': seq<Quad>, index': Index, log: seq<Entry>)
    requires rid < |p.rules| && CoversMatch(p, rid, sub, upto, Elements(list), index)
    requires IndexValid(index) && Evolves(p, list, index, list', index', log)
    ensures CoversMatch(p, rid, sub, upto, Elements(list'), index')
  {
    ElementsPrefix(list, list');
    RecordedMonotone(p, index, log);
  }

  lemma CoversUnion(p: Prog, upto: set<Quad>, d1: set<Quad>, d2: set<Quad>, stored: set<Quad>, index: Index)
    requires Covers(p, upto, d1, stored, index) && Covers(p, upto, d2, stored, index)
    ensures Covers(p, upto, d1 + d2, stored, index)
  {
    forall c | c in Enabled(p) && Within(c.pos, upto) && Touches(c.pos, d1 + d2) && c.neg !! stored
      ensures Fired(p, c, stored, index)
    {
      assert Touches(c.pos, d1) || Touches(c.pos, d2);
    }
  }

  lemma CoversLess(p: Prog, upto: set<Quad>, upto': set<Quad>, delta: set<Quad>, stored: set<Quad>, index: Index)
    requires Covers(p, upto, delta, stored, index) && upto' <= upto
    ensures Covers(p, upto', delta, stored, index)
  {
    forall c | c in Enabled(p) && Within(c.pos, upto') && Touches(c.pos, delta) && c.neg !! stored
      ensures Fired(p, c, stored, index)
    {
      assert Within(c.pos, upto);
    }
  }

  /** Firing every answer of a match covers it. */
  lemma AnswersCover(p: Prog, rid: nat, sub: Substitution, upto: set<Quad>, list: seq<Quad>, index: Index, subs: seq<Substitution>)
    requires rid < |p.rules| && upto <= Elements(list)
    requires forall s :: s in subs <==> BodyHolds(s, sub, p.rules[rid], upto)
    requires forall s | s in subs :: s.Keys == BoundVars(p.rules[rid]) &&
               Fired(p, ClauseFor(p.stratum, rid, p.rules[rid], s), Elements(list), index)
    ensures CoversMatch(p, rid, sub, upto, Elements(list), index)
  {
    forall s | Admits(p.rules[rid], s) && Extends(sub, s) &&
               Within(ClauseFor(p.stratum, rid, p.rules[rid], s).pos, upto) &&
               ClauseFor(p.stratum, rid, p.rules[rid], s).neg !! Elements(list)
      ensures Fired(p, ClauseFor(p.stratum, rid, p.rules[rid], s), Elements(list), index)
    {
      ClauseBody(p.rules[rid], s, sub, upto, p.stratum, rid);
    }
  }

  /** `rule` is an enabled contradiction rule of the program, and its whole body is satisfied. */
  ghost predicate Contradicted(p: Prog, stored: set<Quad>, rule: Rule) {
    exists c :: c in Enabled(p) && c.head.None? && Sat(c, stored) && p.rules[c.rid] == rule
  }

  lemma FiredLater(p: Prog, c: Clause, list: seq<Quad>, index: Index, list': seq<Quad>, index': Index, e: Entry)
    requires Fired(p, c, Elements(list), index) && IndexValid(index)
    requires list <= list' && index' == AddEntry(index, e.0, e.1)
    ensures Fired(p, c, Elements(list'), index')
  {
    ElementsPrefix(list, list');
    assert index' == AddAll(index, [e]) by { assert [e][..0] == []; }
    RecordedMonotone(p, index, [e]);
  }
}
