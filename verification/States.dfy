/** The programs of all strata together, on values, and how running one of them moves the whole. */
module States {
  import opened Syntax
  import opened Clauses
  import opened Grounding
  import opened DerivedFrom
  import opened Seminaive
  import opened Maintenance
  import opened Reasoner

  /** Program `i` is the program of stratum `i`, and its rules can be materialised. */
  ghost predicate Layered(progs: seq<Prog>) {
    forall i | 0 <= i < |progs| :: progs[i].stratum == i && AllRestricted(progs[i].rules)
  }

  /** The enabled ground rules of every stratum. */
  ghost function AllEnabled(progs: seq<Prog>): Program {
    iset c: Clause | c.prog < |progs| && c in Enabled(progs[c.prog])
  }

  /** Everything on record. */
  ghost function AllRecorded(progs: seq<Prog>, indexes: seq<Index>): Program
    requires |indexes| == |progs|
  {
    iset c: Clause | c.prog < |progs| && c in Recorded(progs[c.prog], indexes[c.prog])
  }

  /** The quads in order, the asserted ones among them, and each program's records. */
  datatype Snapshot = Snapshot(list: seq<Quad>, ext: set<Quad>, indexes: seq<Index>) {
    ghost function Stored(): set<Quad> {
      Elements(list)
    }
  }

  /** A snapshot of these programs, with well-formed records. */
  ghost predicate WellFormed(progs: seq<Prog>, a: Snapshot) {
    && |a.indexes| == |progs| && NoDup(a.list) && a.ext <= Elements(a.list)
    && forall i | 0 <= i < |progs| :: IndexValid(a.indexes[i]) && IndexOk(progs[i].rules, a.indexes[i])
  }

  /** The store is the model of its asserted facts, and every satisfied instance is on record. */
  ghost predicate ConsistentState(progs: seq<Prog>, a: Snapshot) {
    |a.indexes| == |progs| && Consistent(AllEnabled(progs), a.ext, a.Stored(), AllRecorded(progs, a.indexes))
  }

  /** The records are exactly the satisfied instances of the enabled rules. */
  ghost predicate ExactState(progs: seq<Prog>, a: Snapshot) {
    |a.indexes| == |progs| && ExactRecords(AllEnabled(progs), a.Stored(), AllRecorded(progs, a.indexes))
  }

  lemma EnabledStratum(progs: seq<Prog>, i: nat)
    requires Layered(progs) && i < |progs|
    ensures StratumOf(AllEnabled(progs), i) == Enabled(progs[i])
  {
  }

  lemma EnabledBelow(progs: seq<Prog>)
    ensures forall c | c in AllEnabled(progs) :: c.prog < |progs|
  {
  }

  lemma EnabledFacts(progs: seq<Prog>)
    ensures FactsUnguarded(AllEnabled(progs))
  {
    forall c | c in AllEnabled(progs) && c.pos == [] ensures c.neg == {} {
      BodylessUnguarded(progs[c.prog], c);
    }
  }

  lemma RecordedSplit(progs: seq<Prog>, indexes: seq<Index>, i: nat, c: Clause)
    requires Layered(progs) && |indexes| == |progs| && i < |progs| && c.prog == i
    ensures c in AllRecorded(progs, indexes) <==> c in Recorded(progs[i], indexes[i])
  {
  }

  /**
   * A consistent store is the perfect model of its asserted facts under the enabled rules, and no
   * contradiction rule's body holds in it.
   */
  lemma ConsistentIsPerfect(progs: seq<Prog>, a: Snapshot)
    requires Stratified(AllEnabled(progs)) && ConsistentState(progs, a)
    ensures a.Stored() == Perfect(AllEnabled(progs), a.ext, |progs|)
    ensures NoContradiction(AllEnabled(progs), a.Stored())
  {
    EnabledBelow(progs);
    PerfectIsStable(AllEnabled(progs), a.ext, a.Stored(), |progs|);
  }

  /**
   * So whatever sequence of updates led there, two consistent states with the same asserted facts and
   * the same rules hold the same quads.
   */
  lemma PathIndependent(progs: seq<Prog>, a: Snapshot, b: Snapshot)
    requires Stratified(AllEnabled(progs))
    requires ConsistentState(progs, a) && ConsistentState(progs, b) && a.ext == b.ext
    ensures a.Stored() == b.Stored()
  {
    ConsistentIsPerfect(progs, a);
    ConsistentIsPerfect(progs, b);
  }

  /** Materialising program `i` materialises stratum `i` of the whole. */
  lemma MaterialisedWhole(progs: seq<Prog>, i: nat, s: set<Quad>, indexes: seq<Index>, s': set<Quad>, index': Index)
    requires Layered(progs) && |indexes| == |progs| && i < |progs|
    requires Materialised(Enabled(progs[i]), s, Recorded(progs[i], indexes[i]), s', Recorded(progs[i], index'))
    ensures Materialised(StratumOf(AllEnabled(progs), i), s, AllRecorded(progs, indexes), s', AllRecorded(progs, indexes[i := index']))
  {
    var d0, d := AllRecorded(progs, indexes), AllRecorded(progs, indexes[i := index']);
    EnabledStratum(progs, i);
    forall c: Clause | c.prog == i
      ensures c in d0 <==> c in Recorded(progs[i], indexes[i])
      ensures c in d <==> c in Recorded(progs[i], index')
    {
    }
    forall c: Clause | c.prog != i ensures c in d0 <==> c in d {
    }
    assert Fireable(Enabled(progs[i]), d) == Fireable(Enabled(progs[i]), Recorded(progs[i], index'));
  }

  /** One more stratum swept. */
  lemma SweepOn(progs: seq<Prog>, i: nat, s0: set<Quad>, indexes0: seq<Index>, s: set<Quad>, indexes: seq<Index>,
                s': set<Quad>, index': Index)
    requires Layered(progs) && |indexes| == |indexes0| == |progs| && i < |progs|
    requires Stratified(AllEnabled(progs))
    requires Swept(AllEnabled(progs), i, s0, AllRecorded(progs, indexes0), s, AllRecorded(progs, indexes))
    requires Materialised(Enabled(progs[i]), s, Recorded(progs[i], indexes[i]), s', Recorded(progs[i], index'))
    ensures Swept(AllEnabled(progs), i + 1, s0, AllRecorded(progs, indexes0), s', AllRecorded(progs, indexes[i := index']))
  {
    MaterialisedWhole(progs, i, s, indexes, s', index');
    StratumStep(AllEnabled(progs), i, s0, AllRecorded(progs, indexes0), s, AllRecorded(progs, indexes),
                s', AllRecorded(progs, indexes[i := index']));
  }

  // ---- What a sweep leaves behind for an undo ----

  ghost predicate SomeFactHead(progs: seq<Prog>, q: Quad) {
    exists i :: 0 <= i < |progs| && IsFactHead(progs[i], q)
  }

  /** The asserted facts only gained heads of body-less rules. */
  ghost predicate OnlySeeded(progs: seq<Prog>, ext0: set<Quad>, ext: set<Quad>) {
    ext0 <= ext && forall q | q in ext - ext0 :: SomeFactHead(progs, q)
  }

  lemma OnlySeededRefl(progs: seq<Prog>, ext: set<Quad>)
    ensures OnlySeeded(progs, ext, ext)
  {
  }

  lemma OnlySeededTrans(progs: seq<Prog>, e0: set<Quad>, e1: set<Quad>, e2: set<Quad>)
    requires OnlySeeded(progs, e0, e1) && OnlySeeded(progs, e1, e2)
    ensures OnlySeeded(progs, e0, e2)
  {
  }

  lemma FactHeadClause(progs: seq<Prog>, q: Quad) returns (c: Clause)
    requires Layered(progs) && SomeFactHead(progs, q)
    ensures c in AllEnabled(progs) && c.head == Some(q) && c.pos == [] && c.neg == {}
  {
    var i :| 0 <= i < |progs| && IsFactHead(progs[i], q);
    c :| c in Enabled(progs[i]) && c.pos == [] && c.head == Some(q);
    BodylessUnguarded(progs[i], c);
  }

  /** Heads of body-less rules add nothing to a base: the model is that of the other asserted facts. */
  lemma SeedsRedundant(progs: seq<Prog>, base: set<Quad>, a: Snapshot)
    requires Stratified(AllEnabled(progs)) && Layered(progs) && ConsistentState(progs, a)
    requires OnlySeeded(progs, base, a.ext)
    ensures a.Stored() == Perfect(AllEnabled(progs), base, |progs|)
  {
    SeedsRebased(progs, base, a.ext, a.Stored());
  }

  lemma SeedsRebased(progs: seq<Prog>, base: set<Quad>, ext: set<Quad>, m: set<Quad>)
    requires Stratified(AllEnabled(progs)) && Layered(progs)
    requires Stable(AllEnabled(progs), ext, m) && OnlySeeded(progs, base, ext)
    ensures m == Perfect(AllEnabled(progs), base, |progs|)
  {
    var p := AllEnabled(progs);
    LeastIsModel(p, base, m);
    forall q | q in ext ensures q in Least(p, base, m) {
      if q !in base {
        assert SomeFactHead(progs, q);
        var c := FactHeadClause(progs, q);
        assert Within(c.pos, Least(p, base, m));
      }
    }
    Rebase(p, ext, base, m);
    EnabledBelow(progs);
    PerfectIsStable(p, base, m, |progs|);
  }

  /** Appended quads are asserted, or a program's log or old index names them as derived. */
  ghost predicate Accounted(indexes0: seq<Index>, tracked: seq<seq<Entry>>, ext: set<Quad>, q: Quad)
    requires |tracked| <= |indexes0|
  {
    q in ext || exists i :: 0 <= i < |tracked| && LoggedOrKnown(indexes0[i], tracked[i], q)
  }

  /**
   * Runs of the first `|tracked|` programs, finished or not: the list and the logged records only grew,
   * and the flags of the old quads stayed.
   */
  ghost predicate Extended(progs: seq<Prog>, a: Snapshot, b: Snapshot, tracked: seq<seq<Entry>>) {
    && WellFormed(progs, a) && WellFormed(progs, b) && |tracked| <= |progs|
    && a.list <= b.list
    && a.ext <= b.ext && (b.ext - a.ext) !! a.Stored() && (forall q | q in b.ext - a.ext :: SomeFactHead(progs, q))
    && (forall i | 0 <= i < |tracked| :: FreshLog(a.indexes[i], tracked[i]) && b.indexes[i] == AddAll(a.indexes[i], tracked[i]))
    && (forall i | |tracked| <= i < |progs| :: b.indexes[i] == a.indexes[i])
    && (forall q | q in b.list && q !in a.list :: Accounted(a.indexes, tracked, b.ext, q))
    && (forall i, e | 0 <= i < |tracked| && e in tracked[i] :: e.0 in b.list)
  }

  lemma ExtendedStart(progs: seq<Prog>, a: Snapshot)
    requires WellFormed(progs, a)
    ensures Extended(progs, a, a, [])
  {
  }

  /** What was accounted for stays so with one more log; what the new run appended has its own. */
  lemma AccountedOn(indexes0: seq<Index>, tracked: seq<seq<Entry>>, log: seq<Entry>, ext: set<Quad>, ext': set<Quad>, q: Quad)
    requires |tracked| < |indexes0| && ext <= ext'
    requires Accounted(indexes0, tracked, ext, q) || LoggedOrKnown(indexes0[|tracked|], log, q)
    ensures Accounted(indexes0, tracked + [log], ext', q)
  {
    hide LoggedOrKnown;
    var tracked' := tracked + [log];
    if q in ext {
    } else if Accounted(indexes0, tracked, ext, q) {
      var j :| 0 <= j < |tracked| && LoggedOrKnown(indexes0[j], tracked[j], q);
      assert tracked'[j] == tracked[j];
    } else {
      assert LoggedOrKnown(indexes0[|tracked|], tracked'[|tracked|], q);
    }
  }

  lemma AllAccounted(indexes0: seq<Index>, tracked: seq<seq<Entry>>, log: seq<Entry>, list0: seq<Quad>, list: seq<Quad>,
                     start: seq<Quad>, list': seq<Quad>, ext: set<Quad>)
    requires |tracked| < |indexes0|
    requires list <= start && (forall q | q in list && q !in list0 :: Accounted(indexes0, tracked, ext, q))
    requires forall k | |start| <= k < |list'| :: LoggedOrKnown(indexes0[|tracked|], log, list'[k])
    requires start <= list'
    ensures forall q | q in list' && q !in list0 ::
              Accounted(indexes0, tracked + [log], ext + (Elements(start) - Elements(list)), q)
  {
    var ext' := ext + (Elements(start) - Elements(list));
    assert forall j | 0 <= j < |start| :: list'[j] == start[j];
    forall q | q in list' && q !in list0 ensures Accounted(indexes0, tracked + [log], ext', q) {
      hide LoggedOrKnown;
      if q in list {
        AccountedOn(indexes0, tracked, log, ext, ext', q);
      } else if q in start {
        assert q in ext';
      } else {
        var k :| 0 <= k < |list'| && list'[k] == q;
        AccountedOn(indexes0, tracked, log, ext, ext', q);
      }
    }
  }

  /** The parts of `Extended` about quads. */
  lemma ExtendedParts(progs: seq<Prog>, a: Snapshot, b: Snapshot, tracked: seq<seq<Entry>>)
    requires Extended(progs, a, b, tracked)
    ensures WellFormed(progs, a) && WellFormed(progs, b) && |tracked| <= |progs| && |a.indexes| == |b.indexes| == |progs|
    ensures a.list <= b.list && NoDup(b.list) && a.Stored() <= b.Stored() && a.ext <= b.ext <= b.Stored()
    ensures (b.ext - a.ext) !! a.Stored() && forall q | q in b.ext - a.ext :: SomeFactHead(progs, q)
    ensures forall q | q in b.list && q !in a.list :: Accounted(a.indexes, tracked, b.ext, q)
    ensures forall i, e: Entry | 0 <= i < |tracked| && e in tracked[i] :: e.0 in b.list
  {
    ElementsPrefix(a.list, b.list);
  }

  /** `start` is `list` with asserted facts appended, from which program `i` ran to `b`. */
  ghost predicate RanOn(progs: seq<Prog>, i: nat, a: Snapshot, start: seq<Quad>, b: Snapshot, log: seq<Entry>)
    requires i < |progs|
  {
    && |a.indexes| == |progs|
    && a.list <= start && (forall q | q in start && q !in a.list :: IsFactHead(progs[i], q))
    && b.ext == a.ext + (Elements(start) - a.Stored())
    && exists index' :: b.indexes == a.indexes[i := index'] && Evolves(progs[i], start, a.indexes[i], b.list, index', log)
  }

  lemma ExtendedBy(progs: seq<Prog>, a: Snapshot, b: Snapshot, tracked: seq<seq<Entry>>,
                   start: seq<Quad>, c: Snapshot, log: seq<Entry>)
    requires Extended(progs, a, b, tracked) && |tracked| < |progs|
    requires RanOn(progs, |tracked|, b, start, c, log)
    ensures Extended(progs, a, c, tracked + [log])
  {
    var i := |tracked|;
    var index' :| c.indexes == b.indexes[i := index'] && Evolves(progs[i], start, b.indexes[i], c.list, index', log);
    EvolvesParts(progs[i], start, b.indexes[i], c.list, index', log);
    hide Evolves, IsFactHead, FreshLog, IndexOk, IndexValid, LoggedOrKnown, Accounted, AddAll;
    ExtendedParts(progs, a, b, tracked);
    ElementsPrefix(b.list, start);
    ElementsPrefix(start, c.list);
    AllAccounted(a.indexes, tracked, log, a.list, b.list, start, c.list, b.ext);
    ExtendedFlags(progs, a, b, i, start, c);
    ExtendedHeads(b, c, tracked, log);
    ExtendedRecords(progs, a, b, tracked, c, index', log);
  }

  lemma ExtendedRecords(progs: seq<Prog>, a: Snapshot, b: Snapshot, tracked: seq<seq<Entry>>, c: Snapshot, index': Index, log: seq<Entry>)
    requires Extended(progs, a, b, tracked) && |tracked| < |progs|
    requires c.indexes == b.indexes[|tracked| := index'] && index' == AddAll(b.indexes[|tracked|], log)
    requires FreshLog(b.indexes[|tracked|], log) && IndexOk(progs[|tracked|].rules, index')
    ensures |c.indexes| == |progs| && forall j | 0 <= j < |progs| :: IndexValid(c.indexes[j]) && IndexOk(progs[j].rules, c.indexes[j])
    ensures forall j | 0 <= j < |tracked| + 1 :: FreshLog(a.indexes[j], (tracked + [log])[j]) && c.indexes[j] == AddAll(a.indexes[j], (tracked + [log])[j])
    ensures forall j | |tracked| + 1 <= j < |progs| :: c.indexes[j] == a.indexes[j]
  {
    AddAllHolds(b.indexes[|tracked|], log);
    hide FreshLog, IndexOk, IndexValid, AddAll, Accounted, SomeFactHead;
  }

  lemma ExtendedHeads(b: Snapshot, c: Snapshot, tracked: seq<seq<Entry>>, log: seq<Entry>)
    requires b.Stored() <= c.Stored() && forall e: Entry | e in log :: e.0 in c.list
    requires forall j, e: Entry | 0 <= j < |tracked| && e in tracked[j] :: e.0 in b.list
    ensures forall j, e: Entry | 0 <= j < |tracked + [log]| && e in (tracked + [log])[j] :: e.0 in c.list
  {
    forall j, e: Entry | 0 <= j < |tracked + [log]| && e in (tracked + [log])[j] ensures e.0 in c.list {
      if j < |tracked| {
        assert e in tracked[j];
        assert e.0 in b.Stored();
      }
    }
  }

  /** A run only adds heads of body-less rules to the asserted facts. */
  lemma ExtendedFlags(progs: seq<Prog>, a: Snapshot, b: Snapshot, i: nat, start: seq<Quad>, c: Snapshot)
    requires i < |progs| && a.Stored() <= b.Stored() && b.list <= start
    requires a.ext <= b.ext && (b.ext - a.ext) !! a.Stored() && forall q | q in b.ext - a.ext :: SomeFactHead(progs, q)
    requires forall q | q in start && q !in b.list :: IsFactHead(progs[i], q)
    requires c.ext == b.ext + (Elements(start) - b.Stored())
    ensures a.ext <= c.ext && (c.ext - a.ext) !! a.Stored() && forall q | q in c.ext - a.ext :: SomeFactHead(progs, q)
  {
    hide IsFactHead;
    forall q | q in c.ext - a.ext ensures q !in a.Stored() && SomeFactHead(progs, q) {
      if q !in b.ext { assert q in start && q !in b.list; }
    }
  }

  // ---- A sweep, stratum by stratum ----

  /** Program `i` ran from `a` to `b`, to completion if `r` is `Ok`. */
  ghost predicate RanProgram(progs: seq<Prog>, i: nat, r: Outcome, a: Snapshot, b: Snapshot, log: seq<Entry>)
    requires i < |progs|
  {
    && |a.indexes| == |progs|
    && (exists index' ::
          && b.indexes == a.indexes[i := index']
          && RanFrom(progs[i], a.list, a.ext, a.indexes[i], b.list, b.ext, index', log)
          && (r.Ok? ==> Materialised(Enabled(progs[i]), a.Stored(), Recorded(progs[i], a.indexes[i]), b.Stored(), Recorded(progs[i], index'))))
    && (r.Err? ==> r.error.ContradictionFound? && Contradicted(progs[i], b.Stored(), r.error.rule))
  }

  lemma RanProgramExtends(progs: seq<Prog>, a: Snapshot, b: Snapshot, tracked: seq<seq<Entry>>, r: Outcome, c: Snapshot, log: seq<Entry>)
    requires Extended(progs, a, b, tracked) && |tracked| < |progs|
    requires RanProgram(progs, |tracked|, r, b, c, log)
    ensures Extended(progs, a, c, tracked + [log])
  {
    var i := |tracked|;
    var index' :| c.indexes == b.indexes[i := index'] &&
                  RanFrom(progs[i], b.list, b.ext, b.indexes[i], c.list, c.ext, index', log);
    var seeded :| Seeded(progs[i], b.list, seeded) && Evolves(progs[i], seeded, b.indexes[i], c.list, index', log) &&
                  c.ext == b.ext + (Elements(seeded) - Elements(b.list));
    SeededPrefix(progs[i], b.list, seeded);
    ExtendedBy(progs, a, b, tracked, seeded, c, log);
  }

  /** The loop of a sweep from `a`: `i` programs have run to completion. */
  ghost predicate SweptSoFar(progs: seq<Prog>, i: nat, a: Snapshot, b: Snapshot, tracked: seq<seq<Entry>>) {
    && Extended(progs, a, b, tracked) && |tracked| == i
    && (Stratified(AllEnabled(progs)) ==>
          Swept(AllEnabled(progs), i, a.Stored(), AllRecorded(progs, a.indexes), b.Stored(), AllRecorded(progs, b.indexes)))
  }

  lemma SweptSoFarStart(progs: seq<Prog>, a: Snapshot)
    requires WellFormed(progs, a)
    ensures SweptSoFar(progs, 0, a, a, [])
  {
    ExtendedStart(progs, a);
    SweepStart(AllEnabled(progs), a.Stored(), AllRecorded(progs, a.indexes));
  }

  // ---- What a stopped run says ----

  /** `rule` is an enabled contradiction rule of one of the programs, and its whole body holds in `s`. */
  ghost predicate Violates(progs: seq<Prog>, s: set<Quad>, rule: Rule) {
    exists i :: 0 <= i < |progs| && Contradicted(progs[i], s, rule)
  }

  lemma ViolatesMeans(progs: seq<Prog>, s: set<Quad>, rule: Rule)
    requires Layered(progs) && Violates(progs, s, rule)
    ensures !NoContradiction(AllEnabled(progs), s)
  {
    var i :| 0 <= i < |progs| && Contradicted(progs[i], s, rule);
    var c :| c in Enabled(progs[i]) && c.head.None? && Sat(c, s) && progs[i].rules[c.rid] == rule;
    assert c in AllEnabled(progs);
  }

  /**
   * The outcome is right about `m`: an error if and only if the whole body of some enabled contradiction rule
   * holds in `m`, and it names such a rule.
   */
  ghost predicate Verdict(progs: seq<Prog>, r: Outcome, m: set<Quad>) {
    && (r.Err? <==> !NoContradiction(AllEnabled(progs), m))
    && (r.Err? ==> r.error.ContradictionFound? && Violates(progs, m, r.error.rule))
  }

  lemma {:induction false} PerfectOfBelow(p: Program, base: set<Quad>, n: nat, i: nat)
    requires i <= n
    ensures Perfect(Below(p, n), base, i) == Perfect(p, base, i)
  {
    if i > 0 {
      PerfectOfBelow(p, base, n, i - 1);
      assert StratumOf(Below(p, n), i - 1) == StratumOf(p, i - 1);
    }
  }

  /** When a sweep has dealt with the strata below `i`, the store is the perfect model of those strata. */
  lemma SweptIsPerfect(p: Program, i: nat, s0: set<Quad>, d0: Program, s: set<Quad>, d: Program)
    requires Stratified(p) && Swept(p, i, s0, d0, s, d)
    ensures s == Perfect(p, s0, i)
  {
    var lower := Below(p, i);
    LeastIsLeast(lower, s0, s, s);
    LeastMonotone(Vouched(p, d, i), lower, s0, s0, s, s);
    PerfectIsStable(lower, s0, s, i);
    PerfectOfBelow(p, s0, i, i);
  }

  /** What a run appends, finished or not, can be derived from what it started with. */
  lemma RunLeast(p: Prog, list: seq<Quad>, seeded: seq<Quad>, index: Index, list': seq<Quad>, index': Index, track: seq<Entry>)
    requires Seeded(p, list, seeded) && Evolves(p, seeded, index, list', index', track)
    ensures Elements(list) <= Elements(list') <= Least(Enabled(p), Elements(list), Elements(list))
  {
    JustifiedLeast(p, list, seeded, list', index', |list'|);
    assert list'[..|list'|] == list';
    ElementsPrefix(list, seeded);
    ElementsPrefix(seeded, list');
    LeastMonotone(Fireable(Enabled(p), Recorded(p, index')), Enabled(p), Elements(list), Elements(list), Elements(list), Elements(list));
  }

  /** So if the strata below are settled, it belongs to the perfect model. */
  lemma RunWithin(progs: seq<Prog>, i: nat, s0: set<Quad>, list: seq<Quad>, seeded: seq<Quad>, index: Index, list': seq<Quad>,
                  index': Index, track: seq<Entry>)
    requires Layered(progs) && i < |progs| && Elements(list) == Perfect(AllEnabled(progs), s0, i)
    requires Seeded(progs[i], list, seeded) && Evolves(progs[i], seeded, index, list', index', track)
    ensures Perfect(AllEnabled(progs), s0, i) <= Elements(list') <= Perfect(AllEnabled(progs), s0, |progs|)
  {
    RunLeast(progs[i], list, seeded, index, list', index', track);
    EnabledStratum(progs, i);
    hide Evolves, Seeded, AllEnabled, Enabled, Layered;
    PerfectGrows(AllEnabled(progs), s0, i + 1, |progs|);
  }

  /** A contradiction met in stratum `i` is one of the perfect model: its NOT atoms were settled before. */
  lemma ContradictionStays(progs: seq<Prog>, i: nat, s0: set<Quad>, s: set<Quad>, rule: Rule)
    requires Layered(progs) && i < |progs| && Stratified(AllEnabled(progs))
    requires Perfect(AllEnabled(progs), s0, i) <= s <= Perfect(AllEnabled(progs), s0, |progs|)
    requires Contradicted(progs[i], s, rule)
    ensures Violates(progs, Perfect(AllEnabled(progs), s0, |progs|), rule)
  {
    var p, m := AllEnabled(progs), Perfect(AllEnabled(progs), s0, |progs|);
    var c :| c in Enabled(progs[i]) && c.head.None? && Sat(c, s) && progs[i].rules[c.rid] == rule;
    assert c in p && c.prog == i;
    forall x | x in c.neg ensures x !in m {
      if x in m {
        PerfectAdds(p, s0, i, |progs|, x);
      }
    }
    assert Sat(c, m);
    assert Contradicted(progs[i], m, rule);
  }

  /** What a sweep reports and leaves behind, success or not. */
  ghost predicate SweepResult(progs: seq<Prog>, r: Outcome, a: Snapshot, b: Snapshot, tracked: seq<seq<Entry>>) {
    && Extended(progs, a, b, tracked)
    && (r.Ok? ==> SweptSoFar(progs, |progs|, a, b, tracked))
    && (r.Err? ==> Stopped(progs, a.Stored(), b.Stored(), r.error))
  }

  /**
   * The rule named is violated in what the sweep left behind - and, over valid strata, in the perfect model
   * that a complete sweep would have reached.
   */
  ghost predicate Stopped(progs: seq<Prog>, s0: set<Quad>, s: set<Quad>, error: ReasoningError) {
    && error.ContradictionFound? && Violates(progs, s, error.rule)
    && (Stratified(AllEnabled(progs)) ==> Violates(progs, Perfect(AllEnabled(progs), s0, |progs|), error.rule))
  }

  /** Over valid strata a sweep fails exactly when the perfect model of what it starts with is contradictory. */
  lemma SweepVerdict(progs: seq<Prog>, r: Outcome, a: Snapshot, b: Snapshot, tracked: seq<seq<Entry>>)
    requires Layered(progs) && Stratified(AllEnabled(progs)) && SweepResult(progs, r, a, b, tracked)
    ensures Verdict(progs, r, Perfect(AllEnabled(progs), a.Stored(), |progs|))
    ensures r.Ok? ==> b.Stored() == Perfect(AllEnabled(progs), a.Stored(), |progs|)
  {
    if r.Ok? {
      var p, d0, d := AllEnabled(progs), AllRecorded(progs, a.indexes), AllRecorded(progs, b.indexes);
      EnabledBelow(progs);
      SweepEnd(p, |progs|, a.Stored(), d0, b.Stored(), d);
      SweptIsPerfect(p, |progs|, a.Stored(), d0, b.Stored(), d);
    } else {
      ViolatesMeans(progs, Perfect(AllEnabled(progs), a.Stored(), |progs|), r.error.rule);
    }
  }

  /** Over valid strata, the outcome is right about the perfect model of `base`. */
  ghost predicate Judged(progs: seq<Prog>, r: Outcome, base: set<Quad>) {
    Layered(progs) && Stratified(AllEnabled(progs)) ==> Verdict(progs, r, Perfect(AllEnabled(progs), base, |progs|))
  }

  lemma SweepJudged(progs: seq<Prog>, r: Outcome, a: Snapshot, b: Snapshot, tracked: seq<seq<Entry>>)
    requires SweepResult(progs, r, a, b, tracked)
    ensures Judged(progs, r, a.Stored())
    ensures r.Err? ==> r.error.ContradictionFound? && Violates(progs, b.Stored(), r.error.rule)
  {
    if Layered(progs) && Stratified(AllEnabled(progs)) {
      SweepVerdict(progs, r, a, b, tracked);
    }
  }

  lemma RunStopped(progs: seq<Prog>, i: nat, a: Snapshot, b: Snapshot, tracked: seq<seq<Entry>>, r: Outcome, c: Snapshot, log: seq<Entry>)
    requires Layered(progs) && i < |progs|
    requires SweptSoFar(progs, i, a, b, tracked) && RanProgram(progs, i, r, b, c, log) && r.Err?
    ensures Stopped(progs, a.Stored(), c.Stored(), r.error)
  {
    assert Contradicted(progs[i], c.Stored(), r.error.rule);
    if Stratified(AllEnabled(progs)) {
      var index' :| c.indexes == b.indexes[i := index'] &&
                    RanFrom(progs[i], b.list, b.ext, b.indexes[i], c.list, c.ext, index', log);
      var seeded :| Seeded(progs[i], b.list, seeded) && Evolves(progs[i], seeded, b.indexes[i], c.list, index', log) &&
                    c.ext == b.ext + (Elements(seeded) - Elements(b.list));
      hide Evolves, Seeded, Contradicted, Extended, Layered, AllEnabled, AllRecorded, Stratified, Swept, RanFrom;
      SweptIsPerfect(AllEnabled(progs), i, a.Stored(), AllRecorded(progs, a.indexes), b.Stored(), AllRecorded(progs, b.indexes));
      RunWithin(progs, i, a.Stored(), b.list, seeded, b.indexes[i], c.list, index', log);
      ContradictionStays(progs, i, a.Stored(), c.Stored(), r.error.rule);
    }
  }

  lemma SweptSoFarOn(progs: seq<Prog>, i: nat, a: Snapshot, b: Snapshot, tracked: seq<seq<Entry>>, r: Outcome, c: Snapshot, log: seq<Entry>)
    requires Layered(progs) && i < |progs|
    requires SweptSoFar(progs, i, a, b, tracked) && RanProgram(progs, i, r, b, c, log)
    ensures r.Ok? ==> SweptSoFar(progs, i + 1, a, c, tracked + [log])
    ensures r.Err? ==> SweepResult(progs, r, a, c, tracked + [log])
  {
    RanProgramExtends(progs, a, b, tracked, r, c, log);
    if r.Err? {
      RunStopped(progs, i, a, b, tracked, r, c, log);
    } else if Stratified(AllEnabled(progs)) {
      var index' :| c.indexes == b.indexes[i := index'] &&
                    Materialised(Enabled(progs[i]), b.Stored(), Recorded(progs[i], b.indexes[i]), c.Stored(), Recorded(progs[i], index'));
      SweepOn(progs, i, a.Stored(), a.indexes, b.Stored(), b.indexes, c.Stored(), index');
    }
  }

  lemma SweptSoFarEnd(progs: seq<Prog>, a: Snapshot, b: Snapshot, tracked: seq<seq<Entry>>)
    requires SweptSoFar(progs, |progs|, a, b, tracked)
    ensures SweepResult(progs, Ok, a, b, tracked)
  {
  }
}
