/** The forward sweep of an insertion, on values. */
module Insertion {
  import opened Syntax
  import opened Clauses
  import opened Grounding
  import opened DerivedFrom
  import opened Seminaive
  import opened Maintenance
  import opened Reasoner
  import opened States

  function Heads(log: seq<Entry>): (qs: seq<Quad>)
    ensures |qs| == |log| && forall k | 0 <= k < |log| :: qs[k] == log[k].0
  {
    seq(|log|, k requires 0 <= k < |log| => log[k].0)
  }

  lemma HeadsContain(log: seq<Entry>, q: Quad)
    ensures q in Heads(log) <==> exists d :: (q, d) in log
  {
    if q in Heads(log) {
      var k :| 0 <= k < |log| && Heads(log)[k] == q;
      assert (log[k].0, log[k].1) == log[k] && (q, log[k].1) in log;
    }
    forall d | (q, d) in log ensures q in Heads(log) {
      var k :| 0 <= k < |log| && log[k] == (q, d);
      assert Heads(log)[k] == q;
    }
  }

  /** Every satisfied instance of a stratum from `i` on that is not on record uses a fact of `delta`. */
  ghost predicate PrimedFrom(p: Program, i: nat, s: set<Quad>, d: Program, delta: set<Quad>) {
    forall c | c in p && c.prog >= i && c.pos != [] && Sat(c, s) ::
      (c.head.Some? && c.head.value in s && c in d) || exists w :: w in c.pos && w in delta
  }

  /** What the insertion theorem assumes of the state before. */
  ghost predicate Sound(progs: seq<Prog>, z: Snapshot) {
    Stratified(AllEnabled(progs)) && ConsistentState(progs, z)
  }

  /** Facts of body-less rules aside, a sound store is the perfect model of `base`. */
  lemma SoundModel(progs: seq<Prog>, base: set<Quad>, a: Snapshot)
    requires Layered(progs) && Sound(progs, a) && OnlySeeded(progs, base, a.ext)
    ensures a.Stored() == Perfect(AllEnabled(progs), base, |progs|)
  {
    SeedsRedundant(progs, base, a);
  }

  /** A sweep over a sound store reaches nothing new, and no contradiction. */
  lemma SoundReaches(progs: seq<Prog>, z: Snapshot)
    requires Sound(progs, z)
    ensures Perfect(AllEnabled(progs), z.Stored(), |progs|) == z.Stored() && NoContradiction(AllEnabled(progs), z.Stored())
  {
    var p, s := AllEnabled(progs), z.Stored();
    EnabledBelow(progs);
    LeastMonotone(p, p, z.ext, s, s, s);
    LeastIsLeast(p, s, s, s);
    PerfectIsStable(p, s, s, |progs|);
  }

  /** `a` is `z` with the missing facts of `delta` appended as asserted facts. */
  ghost predicate Inserted(z: Snapshot, delta: set<Quad>, a: Snapshot) {
    && z.list <= a.list && a.Stored() == z.Stored() + delta
    && a.ext == z.ext + (delta - z.Stored()) && a.indexes == z.indexes
  }

  /** The asserted facts after an insertion: facts already derived stay derived. */
  ghost function AfterInsert(z: Snapshot, inserts: set<Quad>): set<Quad> {
    z.ext + (inserts - z.Stored())
  }

  /** From `a`, which is `z` with facts inserted, `i` programs have run; `delta` is what they passed on. */
  ghost predicate Forwarded(progs: seq<Prog>, i: nat, z: Snapshot, a: Snapshot, b: Snapshot, tracked: seq<seq<Entry>>, delta: set<Quad>) {
    && Extended(progs, a, b, tracked) && |tracked| == i
    && z.list <= a.list && z.indexes == a.indexes && delta <= b.Stored()
    && (Sound(progs, z) ==>
          && b.Stored() - z.Stored() <= delta && b.ext == a.ext
          && Swept(AllEnabled(progs), i, a.Stored(), AllRecorded(progs, a.indexes), b.Stored(), AllRecorded(progs, b.indexes))
          && PrimedFrom(AllEnabled(progs), i, b.Stored(), AllRecorded(progs, b.indexes), delta))
  }

  lemma ForwardStart(progs: seq<Prog>, z: Snapshot, a: Snapshot, delta: set<Quad>)
    requires WellFormed(progs, a) && Inserted(z, delta, a)
    ensures Forwarded(progs, 0, z, a, a, [], delta)
  {
    ExtendedStart(progs, a);
    if Sound(progs, z) {
      var p, d := AllEnabled(progs), AllRecorded(progs, a.indexes);
      SweepStart(p, a.Stored(), d);
      ElementsPrefix(z.list, a.list);
      forall c | c in p && c.pos != [] && Sat(c, a.Stored()) && !exists w :: w in c.pos && w in delta
        ensures c.head.Some? && c.head.value in a.Stored() && c in d
      {
        assert Sat(c, z.Stored());
      }
    }
  }

  /** In a sound state the seeds of body-less rules are stored already. */
  lemma SoundFacts(progs: seq<Prog>, z: Snapshot, i: nat, stored: set<Quad>)
    requires Layered(progs) && Sound(progs, z) && i < |progs| && z.Stored() <= stored
    ensures FactsStored(progs[i], stored)
  {
    forall c | c in Enabled(progs[i]) && c.pos == []
      ensures c.head.Some? && c.head.value in stored
    {
      BodylessUnguarded(progs[i], c);
      assert c in AllEnabled(progs) && Sat(c, z.Stored());
    }
  }

  /** The primed condition of one program, from the one of the whole. */
  lemma PrimedProgram(progs: seq<Prog>, indexes: seq<Index>, i: nat, s: set<Quad>, delta: set<Quad>)
    requires Layered(progs) && |indexes| == |progs| && i < |progs|
    requires PrimedFrom(AllEnabled(progs), i, s, AllRecorded(progs, indexes), delta)
    ensures Primed(progs[i], s, delta, indexes[i])
  {
    forall c | c in Enabled(progs[i]) && c.pos != [] && Sat(c, s)
      ensures Fired(progs[i], c, s, indexes[i]) || Touches(c.pos, delta)
    {
      assert c in AllEnabled(progs);
      RecordedSplit(progs, indexes, i, c);
    }
  }

  lemma PrimedOn(p: Program, i: nat, s: set<Quad>, d: Program, s': set<Quad>, d': Program, delta: set<Quad>, delta': set<Quad>)
    requires PrimedFrom(p, i, s, d, delta)
    requires s <= s' && d <= d' && delta <= delta' && s' - s <= delta'
    ensures PrimedFrom(p, i + 1, s', d', delta')
  {
    forall c | c in p && c.prog >= i + 1 && c.pos != [] && Sat(c, s') && !exists w :: w in c.pos && w in delta'
      ensures c.head.Some? && c.head.value in s' && c in d'
    {
      assert Sat(c, s);
    }
  }

  /** What one program appends in a sound state is in its log: nothing is seeded, nothing was known. */
  lemma SoundLogged(progs: seq<Prog>, z: Snapshot, i: nat, list: seq<Quad>, start: seq<Quad>, ext: set<Quad>, ext': set<Quad>,
                    list': seq<Quad>, index': Index, log: seq<Entry>, delta: set<Quad>)
    requires Layered(progs) && Sound(progs, z) && WellFormed(progs, z)
    requires i < |progs| && z.Stored() <= Elements(list) && delta <= Elements(list)
    requires StartsFrom(progs[i], delta, list, ext, start, ext')
    requires Evolves(progs[i], start, z.indexes[i], list', index', log)
    ensures start == list && ext' == ext
    ensures forall q | q in list' && q !in list :: q in Heads(log)
  {
    SoundFacts(progs, z, i, Elements(list));
    forall q | q in start ensures q in Elements(list) {
      if IsFactHead(progs[i], q) {
        FactHeadStored(progs[i], q, Elements(list));
      }
    }
    SamePrefix(list, start);
    assert forall j | 0 <= j < |start| :: list'[j] == start[j] && list'[j] in start;
    forall q | q in list' && q !in list ensures q in Heads(log) {
      var k :| 0 <= k < |list'| && list'[k] == q;
      assert LoggedOrKnown(z.indexes[i], log, q);
      HeadsContain(log, q);
      if exists d :: Holds(z.indexes[i], q, d) {
        var d :| Holds(z.indexes[i], q, d);
        KnownStored(progs, z, i, q, d);
      }
    }
  }

  lemma FactHeadStored(p: Prog, q: Quad, stored: set<Quad>)
    requires FactsStored(p, stored) && IsFactHead(p, q)
    ensures q in stored
  {
  }

  /** In a consistent state every record's head is stored. */
  lemma KnownStored(progs: seq<Prog>, z: Snapshot, i: nat, q: Quad, d: Derivation)
    requires Layered(progs) && ConsistentState(progs, z) && i < |progs| && WellFormed(progs, z)
    requires Holds(z.indexes[i], q, d)
    ensures q in z.Stored()
  {
    var c := EntryClause(progs[i].stratum, progs[i].rules, z.indexes[i], q, d);
    assert c in AllRecorded(progs, z.indexes);
  }

  lemma SamePrefix(list: seq<Quad>, start: seq<Quad>)
    requires list <= start && NoDup(start)
    requires forall q | q in start :: q in Elements(list)
    ensures start == list
  {
    assert forall j | 0 <= j < |list| :: list[j] == start[j];
    NoDupCardinality(list);
    NoDupCardinality(start);
    SubsetCardinality(Elements(start), Elements(list));
  }

  /** Program `i` ran from `a` to `b` with `delta` as the first delta. */
  ghost predicate RanProgramFromFacts(progs: seq<Prog>, i: nat, delta: set<Quad>, r: Outcome, a: Snapshot, b: Snapshot, log: seq<Entry>)
    requires i < |progs|
  {
    && |a.indexes| == |progs|
    && (exists index' ::
          && b.indexes == a.indexes[i := index']
          && RanFromFacts(progs[i], delta, a.list, a.ext, a.indexes[i], b.list, b.ext, index', log)
          && (r.Ok? && FactsStored(progs[i], a.Stored()) && Primed(progs[i], a.Stored() + delta, delta, a.indexes[i]) ==>
                Materialised(Enabled(progs[i]), a.Stored() + delta, Recorded(progs[i], a.indexes[i]), b.Stored(), Recorded(progs[i], index'))))
    && (r.Err? ==> r.error.ContradictionFound? && Contradicted(progs[i], b.Stored(), r.error.rule))
  }

  lemma ForwardOn(progs: seq<Prog>, i: nat, z: Snapshot, a: Snapshot, b: Snapshot, tracked: seq<seq<Entry>>, delta: set<Quad>,
                  r: Outcome, c: Snapshot, log: seq<Entry>)
    requires Layered(progs) && i < |progs| && WellFormed(progs, z)
    requires Forwarded(progs, i, z, a, b, tracked, delta)
    requires RanProgramFromFacts(progs, i, delta, r, b, c, log)
    ensures Extended(progs, a, c, tracked + [log])
    ensures r.Ok? ==> Forwarded(progs, i + 1, z, a, c, tracked + [log], delta + Elements(Heads(log)))
    ensures r.Err? ==> ForwardStops(progs, z, a.Stored(), r.error)
  {
    var index' :|
          && c.indexes == b.indexes[i := index']
          && RanFromFacts(progs[i], delta, b.list, b.ext, b.indexes[i], c.list, c.ext, index', log)
          && (r.Ok? && FactsStored(progs[i], b.Stored()) && Primed(progs[i], b.Stored() + delta, delta, b.indexes[i]) ==>
                Materialised(Enabled(progs[i]), b.Stored() + delta, Recorded(progs[i], b.indexes[i]), c.Stored(), Recorded(progs[i], index')));
    var start :| StartsFrom(progs[i], delta, b.list, b.ext, start, c.ext) && Evolves(progs[i], start, b.indexes[i], c.list, index', log);
    ExtendedParts(progs, a, b, tracked);
    ExtendedBy(progs, a, b, tracked, start, c, log);
    ElementsPrefix(b.list, start);
    ElementsPrefix(start, c.list);
    ExtendedParts(progs, a, c, tracked + [log]);
    HeadsLogged(tracked, log, c.list);
    if Sound(progs, z) {
      ElementsPrefix(z.list, a.list);
      if r.Ok? {
        ForwardSound(progs, i, z, a, b, tracked, delta, start, c, index', log);
      } else {
        ForwardStopped(progs, i, z, a, b, tracked, delta, start, c, index', log, r.error.rule);
      }
    }
  }

  /** Why a forward sweep stops: the model it was heading for is contradictory. */
  ghost predicate ForwardStops(progs: seq<Prog>, z: Snapshot, s0: set<Quad>, error: ReasoningError) {
    error.ContradictionFound? && (Sound(progs, z) ==> Violates(progs, Perfect(AllEnabled(progs), s0, |progs|), error.rule))
  }

  lemma ForwardStopped(progs: seq<Prog>, i: nat, z: Snapshot, a: Snapshot, b: Snapshot, tracked: seq<seq<Entry>>, delta: set<Quad>,
                       start: seq<Quad>, c: Snapshot, index': Index, log: seq<Entry>, rule: Rule)
    requires Layered(progs) && i < |progs| && WellFormed(progs, z) && Sound(progs, z)
    requires Forwarded(progs, i, z, a, b, tracked, delta) && z.Stored() <= a.Stored() <= b.Stored() && NoDup(b.list)
    requires StartsFrom(progs[i], delta, b.list, b.ext, start, c.ext) && Evolves(progs[i], start, b.indexes[i], c.list, index', log)
    requires Contradicted(progs[i], c.Stored(), rule)
    ensures Violates(progs, Perfect(AllEnabled(progs), a.Stored(), |progs|), rule)
  {
    assert b.indexes[i] == z.indexes[i];
    SoundLogged(progs, z, i, b.list, start, b.ext, c.ext, c.list, index', log, delta);
    SeededStart(progs[i], b.list);
    SweptIsPerfect(AllEnabled(progs), i, a.Stored(), AllRecorded(progs, a.indexes), b.Stored(), AllRecorded(progs, b.indexes));
    hide Evolves, Seeded, Contradicted, Extended, AllRecorded, Swept, StartsFrom;
    RunWithin(progs, i, a.Stored(), b.list, b.list, b.indexes[i], c.list, index', log);
    ContradictionStays(progs, i, a.Stored(), c.Stored(), rule);
  }

  lemma HeadsLogged(tracked: seq<seq<Entry>>, log: seq<Entry>, list: seq<Quad>)
    requires forall i, e: Entry | 0 <= i < |tracked + [log]| && e in (tracked + [log])[i] :: e.0 in list
    ensures Elements(Heads(log)) <= Elements(list)
  {
    forall q | q in Heads(log) ensures q in list {
      var k :| 0 <= k < |log| && Heads(log)[k] == q;
      assert log[k] in (tracked + [log])[|tracked|];
    }
  }

  lemma ForwardSound(progs: seq<Prog>, i: nat, z: Snapshot, a: Snapshot, b: Snapshot, tracked: seq<seq<Entry>>, delta: set<Quad>,
                     start: seq<Quad>, c: Snapshot, index': Index, log: seq<Entry>)
    requires Layered(progs) && i < |progs| && WellFormed(progs, z) && Sound(progs, z)
    requires Forwarded(progs, i, z, a, b, tracked, delta) && z.Stored() <= a.Stored() <= b.Stored() <= c.Stored()
    requires c.indexes == b.indexes[i := index'] && |c.indexes| == |progs|
    requires StartsFrom(progs[i], delta, b.list, b.ext, start, c.ext) && Evolves(progs[i], start, b.indexes[i], c.list, index', log)
    requires FactsStored(progs[i], b.Stored()) && Primed(progs[i], b.Stored() + delta, delta, b.indexes[i]) ==>
                Materialised(Enabled(progs[i]), b.Stored() + delta, Recorded(progs[i], b.indexes[i]), c.Stored(), Recorded(progs[i], index'))
    ensures c.Stored() - z.Stored() <= delta + Elements(Heads(log)) && c.ext == a.ext
    ensures Swept(AllEnabled(progs), i + 1, a.Stored(), AllRecorded(progs, a.indexes), c.Stored(), AllRecorded(progs, c.indexes))
    ensures PrimedFrom(AllEnabled(progs), i + 1, c.Stored(), AllRecorded(progs, c.indexes), delta + Elements(Heads(log)))
  {
    assert b.indexes[i] == z.indexes[i];
    SoundLogged(progs, z, i, b.list, start, b.ext, c.ext, c.list, index', log, delta);
    SoundFacts(progs, z, i, b.Stored());
    PrimedProgram(progs, b.indexes, i, b.Stored(), delta);
    assert b.Stored() + delta == b.Stored();
    SweepOn(progs, i, a.Stored(), a.indexes, b.Stored(), b.indexes, c.Stored(), index');
    MaterialisedWhole(progs, i, b.Stored(), b.indexes, c.Stored(), index');
    hide Sound, Swept, StartsFrom, Evolves, Stratified;
    PrimedOn(AllEnabled(progs), i, b.Stored(), AllRecorded(progs, b.indexes), c.Stored(),
             AllRecorded(progs, c.indexes), delta, delta + Elements(Heads(log)));
  }

  /** The state between rounds of negation retraction. */
  ghost predicate PendingState(progs: seq<Prog>, b: Snapshot, check: set<Quad>, miss: Program) {
    && Stratified(AllEnabled(progs)) && |b.indexes| == |progs| && check <= b.Stored()
    && Pending(AllEnabled(progs), b.ext, b.Stored(), AllRecorded(progs, b.indexes), check, miss)
  }

  /** The forward sweep of an insertion into a sound state ends pending. */
  lemma ForwardEnd(progs: seq<Prog>, z: Snapshot, delta0: set<Quad>, a: Snapshot, b: Snapshot, tracked: seq<seq<Entry>>, delta: set<Quad>, miss: Program)
    requires Sound(progs, z) && WellFormed(progs, z) && Inserted(z, delta0, a)
    requires Forwarded(progs, |progs|, z, a, b, tracked, delta)
    ensures PendingState(progs, b, delta, miss)
  {
    ExtendedParts(progs, a, b, tracked);
    EnabledBelow(progs);
    ForwardIsPending(AllEnabled(progs), |progs|, z.ext, z.Stored(), AllRecorded(progs, z.indexes),
                     a.Stored(), b.ext, b.Stored(), AllRecorded(progs, b.indexes), delta, miss);
  }
}
