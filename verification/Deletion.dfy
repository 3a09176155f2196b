/** Deleting asserted facts and retracting rules, on values. */
module Deletion {
  import opened Syntax
  import opened Clauses
  import opened Grounding
  import opened DerivedFrom
  import opened Seminaive
  import opened Maintenance
  import opened Reasoner
  import opened States
  import opened Insertion
  import opened ReverseIndex
  import opened Undo
  import opened Negation

  // ---- Possibly-deleted quads ----

  /** Everything a deletion of `deletes` could bring down, the deleted quads included. */
  ghost function Fallout(progs: seq<Prog>, z: Snapshot, deletes: set<Quad>): set<Quad>
    requires |z.indexes| == |progs|
  {
    Cascade(AllRecorded(progs, z.indexes), {}, deletes)
  }

  /** The quads with a recorded derivation from the fallout: the possibly-deleted set. */
  ghost function PossiblyDeleted(progs: seq<Prog>, z: Snapshot, deletes: set<Quad>): set<Quad>
    requires |z.indexes| == |progs|
  {
    set q | q in AllQuads() && DerivedFromSome(AllRecorded(progs, z.indexes), Fallout(progs, z, deletes), q)
  }

  lemma IsPossiblyDeleted(progs: seq<Prog>, z: Snapshot, deletes: set<Quad>, pd: set<Quad>)
    requires |z.indexes| == |progs|
    requires forall q :: q in pd <==> DerivedFromSome(AllRecorded(progs, z.indexes), Fallout(progs, z, deletes), q)
    ensures pd == PossiblyDeleted(progs, z, deletes)
  {
    forall q ensures q in AllQuads() { EveryQuad(q); }
  }

  /** Possibly-deleted quads are heads of records, so they are stored when record heads are. */
  lemma PossiblyDeletedStored(progs: seq<Prog>, z: Snapshot, deletes: set<Quad>)
    requires ConsistentState(progs, z)
    ensures PossiblyDeleted(progs, z, deletes) <= z.Stored()
  {
    var d := AllRecorded(progs, z.indexes);
    forall q | q in PossiblyDeleted(progs, z, deletes) ensures q in z.Stored() {
      var w :| w in Fallout(progs, z, deletes) && Derives(d, w, q);
      var c :| c in d && c.head == Some(q) && w in c.pos;
    }
  }

  /** No rule with a body derives an asserted fact. */
  ghost predicate Separate(progs: seq<Prog>, base: set<Quad>) {
    HeadsDisjointFrom(AllEnabled(progs), base)
  }

  /** Then no asserted fact is possibly deleted. */
  lemma SeparateSpared(progs: seq<Prog>, z: Snapshot, deletes: set<Quad>)
    requires ExactState(progs, z) && Separate(progs, z.ext)
    ensures PossiblyDeleted(progs, z, deletes) !! z.ext
  {
    var d := AllRecorded(progs, z.indexes);
    forall q | q in PossiblyDeleted(progs, z, deletes) ensures q !in z.ext {
      var w :| w in Fallout(progs, z, deletes) && Derives(d, w, q);
      var c :| c in d && c.head == Some(q) && w in c.pos;
      assert c in AllEnabled(progs);
    }
  }

  // ---- The incremental branch ----

  /** `y` is `z` without the deleted quads; records are untouched. */
  ghost predicate Unasserted(z: Snapshot, deletes: set<Quad>, y: Snapshot) {
    && NoDup(y.list) && y.Stored() == z.Stored() - deletes && y.ext == z.ext - deletes && y.indexes == z.indexes
  }

  lemma UnassertedNone(progs: seq<Prog>, z: Snapshot, deletes: seq<Quad>)
    requires WellFormed(progs, z)
    ensures Unasserted(z, Elements(deletes[..0]), z)
  {
  }

  lemma UnassertedNext(z: Snapshot, deletes: set<Quad>, y: Snapshot, q: Quad, y': Snapshot)
    requires Unasserted(z, deletes, y) && Unasserted(y, {q}, y')
    ensures Unasserted(z, deletes + {q}, y')
  {
  }

  ghost predicate OneLayerRules(progs: seq<Prog>) {
    exists t :: OneLayer(AllEnabled(progs), t)
  }

  /** Deleting facts incrementally from `z`: unassert, drop the possibly-deleted quads, sweep. */
  ghost predicate DeletedIncrementally(progs: seq<Prog>, z: Snapshot, deletes: set<Quad>, y: Snapshot, mid: Snapshot,
                                       c: Snapshot, tracked: seq<seq<Entry>>) {
    && Layered(progs) && WellFormed(progs, z)
    && Unasserted(z, deletes, y) && Dropped(y, PossiblyDeleted(progs, z, deletes), mid)
    && SweepResult(progs, Ok, mid, c, tracked)
  }

  lemma FalloutParts(progs: seq<Prog>, z: Snapshot, deletes: set<Quad>)
    requires |z.indexes| == |progs|
    ensures Fallout(progs, z, deletes) == deletes + PossiblyDeleted(progs, z, deletes)
  {
    var d, x, pd := AllRecorded(progs, z.indexes), Fallout(progs, z, deletes), PossiblyDeleted(progs, z, deletes);
    LeastIsModel(Edges(d, {}), deletes, {});
    forall q | q in pd ensures q in x {
      var w :| w in x && Derives(d, w, q);
      CascadeStep(d, {}, deletes, w, q);
    }
    forall w, q | w in deletes + pd && Derives(d, w, q) ensures q in deletes + pd {
      EveryQuad(q);
      assert w in x;
      assert DerivedFromSome(d, x, q);
    }
    CascadeMinimal(d, {}, deletes, deletes + pd);
  }

  lemma UnassertedWellFormed(progs: seq<Prog>, z: Snapshot, deletes: set<Quad>, y: Snapshot)
    requires WellFormed(progs, z) && Unasserted(z, deletes, y)
    ensures WellFormed(progs, y)
  {
  }

  /** The records that survive have no witness in the fallout; those of quads outside it survive. */
  lemma SurvivingRecords(progs: seq<Prog>, z: Snapshot, deletes: set<Quad>, y: Snapshot, mid: Snapshot)
    requires WellFormed(progs, z) && Unasserted(z, deletes, y) && Dropped(y, PossiblyDeleted(progs, z, deletes), mid)
    ensures |mid.indexes| == |progs| && AllRecorded(progs, mid.indexes) <= AllRecorded(progs, z.indexes)
    ensures forall c | c in AllRecorded(progs, mid.indexes) :: !exists w :: w in c.pos && w in Fallout(progs, z, deletes)
    ensures forall c | c in AllRecorded(progs, z.indexes) && c.head.Some? && c.head.value !in Fallout(progs, z, deletes) ::
              c in AllRecorded(progs, mid.indexes)
  {
    var d, x := AllRecorded(progs, z.indexes), Fallout(progs, z, deletes);
    UnassertedWellFormed(progs, z, deletes, y);
    DroppedRecords(progs, y, PossiblyDeleted(progs, z, deletes), mid);
    FalloutParts(progs, z, deletes);
    forall c | c in AllRecorded(progs, mid.indexes) ensures !exists w :: w in c.pos && w in x {
      if w :| w in c.pos && w in x {
        EveryQuad(c.head.value);
        assert Derives(d, w, c.head.value);
      }
    }
  }

  /**
   * With one layer of negation, an incremental deletion ends in the model of the asserted facts that are
   * neither deleted nor possibly deleted, with exact records.
   */
  lemma DeletionSound(progs: seq<Prog>, z: Snapshot, deletes: set<Quad>, y: Snapshot, mid: Snapshot,
                      c: Snapshot, tracked: seq<seq<Entry>>)
    requires DeletedIncrementally(progs, z, deletes, y, mid, c, tracked)
    requires Sound(progs, z) && ExactState(progs, z) && OneLayerRules(progs)
    ensures Sound(progs, c) && ExactState(progs, c)
  {
    var p, n, x := AllEnabled(progs), |progs|, Fallout(progs, z, deletes);
    var d, d2, d3 := AllRecorded(progs, z.indexes), AllRecorded(progs, mid.indexes), AllRecorded(progs, c.indexes);
    var t :| OneLayer(p, t);
    EnabledFacts(progs);
    EnabledBelow(progs);
    FalloutParts(progs, z, deletes);
    SurvivingRecords(progs, z, deletes, y, mid);
    DeletionIsClean(p, z.ext, z.Stored(), d, deletes, x, d2);
    ExtendedParts(progs, mid, c, tracked);
    assert mid.Stored() == z.Stored() - x && mid.ext == z.ext - x;
    RemovalConsistent(p, p, n, z.ext, z.Stored(), d, x, d2, c.Stored(), d3, t);
    LargerBase(p, z.ext - x, c.ext, c.Stored(), d3);
  }

  /** The model the sweep of an update reaches when `x` has been removed from `z`. */
  ghost function Refilled(progs: seq<Prog>, z: Snapshot, x: set<Quad>): set<Quad> {
    Perfect(AllEnabled(progs), z.Stored() - x, |progs|)
  }

  /** No record that a deletion keeps for a derived quad is blocked in what the sweep will reach. */
  ghost predicate SurvivorsUnblocked(progs: seq<Prog>, z: Snapshot, deletes: set<Quad>)
    requires |z.indexes| == |progs|
  {
    forall c | c in AllRecorded(progs, z.indexes) && c.head.Some? && c.head.value !in PossiblyDeleted(progs, z, deletes) &&
               c.head.value !in z.ext - Fallout(progs, z, deletes) ::
      c.neg !! Refilled(progs, z, Fallout(progs, z, deletes))
  }

  /** What the sweep of an incremental deletion reaches, and the records it still has. */
  lemma DeletionReaches(progs: seq<Prog>, z: Snapshot, deletes: set<Quad>, y: Snapshot, mid: Snapshot,
                        c: Snapshot, tracked: seq<seq<Entry>>)
    requires DeletedIncrementally(progs, z, deletes, y, mid, c, tracked)
    requires Sound(progs, z)
    ensures |c.indexes| == |progs| && c.Stored() == Refilled(progs, z, Fallout(progs, z, deletes))
    ensures forall k | k in AllRecorded(progs, z.indexes) && k.head.Some? && k.head.value !in PossiblyDeleted(progs, z, deletes) ::
              k in AllRecorded(progs, c.indexes)
  {
    var p, n, x := AllEnabled(progs), |progs|, Fallout(progs, z, deletes);
    var d2, d3 := AllRecorded(progs, mid.indexes), AllRecorded(progs, c.indexes);
    EnabledBelow(progs);
    FalloutParts(progs, z, deletes);
    UnassertedWellFormed(progs, z, deletes, y);
    DroppedRecords(progs, y, PossiblyDeleted(progs, z, deletes), mid);
    ExtendedParts(progs, mid, c, tracked);
    assert mid.Stored() == z.Stored() - x;
    SweepEnd(p, n, z.Stored() - x, d2, c.Stored(), d3);
    PerfectIsStable(p, z.Stored() - x, c.Stored(), n);
  }

  /**
   * Whatever the layers of negation, an incremental deletion ends consistent over the asserted facts that
   * are left exactly when, in the state before, no record it keeps is going to be blocked: a sweep never
   * takes anything away again.
   */
  lemma DeletionExact(progs: seq<Prog>, z: Snapshot, deletes: set<Quad>, y: Snapshot, mid: Snapshot,
                      c: Snapshot, tracked: seq<seq<Entry>>)
    requires DeletedIncrementally(progs, z, deletes, y, mid, c, tracked)
    requires Sound(progs, z) && ExactState(progs, z)
    ensures |c.indexes| == |progs|
    ensures Consistent(AllEnabled(progs), z.ext - Fallout(progs, z, deletes), c.Stored(), AllRecorded(progs, c.indexes)) <==>
            SurvivorsUnblocked(progs, z, deletes)
  {
    var p, n, x, pd := AllEnabled(progs), |progs|, Fallout(progs, z, deletes), PossiblyDeleted(progs, z, deletes);
    var d, d2, d3 := AllRecorded(progs, z.indexes), AllRecorded(progs, mid.indexes), AllRecorded(progs, c.indexes);
    EnabledFacts(progs);
    EnabledBelow(progs);
    FalloutParts(progs, z, deletes);
    SurvivingRecords(progs, z, deletes, y, mid);
    UnassertedWellFormed(progs, z, deletes, y);
    DroppedRecords(progs, y, pd, mid);
    DeletionIsClean(p, z.ext, z.Stored(), d, deletes, x, d2);
    ExtendedParts(progs, mid, c, tracked);
    assert mid.Stored() == z.Stored() - x && mid.ext == z.ext - x;
    RemovalExact(p, p, n, z.ext, z.Stored(), d, x, d2, c.Stored(), d3);
    DeletionReaches(progs, z, deletes, y, mid, c, tracked);
  }

  /** The asserted facts afterwards: those left, and heads of body-less rules. */
  lemma DeletionFlags(progs: seq<Prog>, r: Outcome, z: Snapshot, deletes: set<Quad>, y: Snapshot, pd: set<Quad>, mid: Snapshot,
                      c: Snapshot, tracked: seq<seq<Entry>>)
    requires Unasserted(z, deletes, y) && Dropped(y, pd, mid) && SweepResult(progs, r, mid, c, tracked)
    ensures OnlySeeded(progs, z.ext - deletes - pd, c.ext)
  {
    ExtendedParts(progs, mid, c, tracked);
  }

  ghost predicate NoBodyless(progs: seq<Prog>) {
    forall q :: !SomeFactHead(progs, q)
  }

  /**
   * Without body-less rules, an incremental deletion keeps exactly the other asserted facts asserted if
   * and only if none of them is possibly deleted.
   */
  lemma AssertedKept(progs: seq<Prog>, ext0: set<Quad>, deletes: set<Quad>, pd: set<Quad>, ext: set<Quad>)
    requires NoBodyless(progs) && OnlySeeded(progs, ext0 - deletes - pd, ext)
    ensures ext == ext0 - deletes <==> pd !! ext0 - deletes
  {
    hide SomeFactHead;
    forall q | q in ext ensures q in ext0 - deletes - pd {
      assert !SomeFactHead(progs, q);
    }
    assert ext == ext0 - deletes - pd;
    if ext == ext0 - deletes {
      assert forall q | q in pd :: q !in ext;
    }
  }

  /** Consistent over other asserted facts than the flagged ones. */
  ghost predicate ConsistentOver(progs: seq<Prog>, base: set<Quad>, a: Snapshot) {
    |a.indexes| == |progs| && Consistent(AllEnabled(progs), base, a.Stored(), AllRecorded(progs, a.indexes))
  }

  /** The end `c` is consistent over the facts to keep if and only if the state before allows it. */
  ghost predicate RightWhenUnblocked(progs: seq<Prog>, z: Snapshot, deletes: set<Quad>, c: Snapshot)
    requires |z.indexes| == |progs|
  {
    ConsistentOver(progs, z.ext - deletes, c) <==>
    SurvivorsUnblocked(progs, z, deletes) && z.ext - deletes <= Refilled(progs, z, Fallout(progs, z, deletes))
  }

  /**
   * So an incremental deletion ends consistent over the asserted facts it was told to keep exactly when no
   * kept record is going to be blocked and the sweep reaches all of those facts.
   */
  lemma DeletionReachesPromise(progs: seq<Prog>, z: Snapshot, deletes: set<Quad>, y: Snapshot, mid: Snapshot,
                               c: Snapshot, tracked: seq<seq<Entry>>)
    requires DeletedIncrementally(progs, z, deletes, y, mid, c, tracked)
    requires Sound(progs, z) && ExactState(progs, z)
    ensures RightWhenUnblocked(progs, z, deletes, c)
  {
    hide AllEnabled, AllRecorded, Sound, ExactState, PossiblyDeleted, Refilled, Fallout, Stable, Complete;
    DeletionExact(progs, z, deletes, y, mid, c, tracked);
    DeletionReaches(progs, z, deletes, y, mid, c, tracked);
    FalloutParts(progs, z, deletes);
    if SurvivorsUnblocked(progs, z, deletes) && z.ext - deletes <= c.Stored() {
      LargerBase(AllEnabled(progs), z.ext - Fallout(progs, z, deletes), z.ext - deletes, c.Stored(), AllRecorded(progs, c.indexes));
    }
  }

  /**
   * Without body-less rules it leaves exactly the promised asserted facts asserted, and is consistent over
   * them, if and only if no kept record is going to be blocked and none of those facts is possibly deleted.
   */
  lemma DeletionKeepsPromise(progs: seq<Prog>, z: Snapshot, deletes: set<Quad>, y: Snapshot, mid: Snapshot,
                             c: Snapshot, tracked: seq<seq<Entry>>)
    requires DeletedIncrementally(progs, z, deletes, y, mid, c, tracked)
    requires Sound(progs, z) && ExactState(progs, z) && NoBodyless(progs)
    ensures c.ext == z.ext - deletes && ConsistentOver(progs, z.ext - deletes, c) <==>
            SurvivorsUnblocked(progs, z, deletes) && PossiblyDeleted(progs, z, deletes) !! z.ext - deletes
  {
    ExtendedParts(progs, mid, c, tracked);
    DeletionFlags(progs, Ok, z, deletes, y, PossiblyDeleted(progs, z, deletes), mid, c, tracked);
    hide *;
    AssertedKept(progs, z.ext, deletes, PossiblyDeleted(progs, z, deletes), c.ext);
    DeletionReachesPromise(progs, z, deletes, y, mid, c, tracked);
    DeletionReaches(progs, z, deletes, y, mid, c, tracked);
  }

  // ---- The fallback ----

  /** More than a quarter of the derived quads are possibly deleted. */
  predicate FallsBack(totalDerived: nat, possiblyDeleted: nat) {
    totalDerived > 0 && 4 * possiblyDeleted > totalDerived
  }

  /** In whole numbers, what the source asks of the quotient. */
  lemma ThresholdExact(totalDerived: nat, possiblyDeleted: nat)
    ensures FallsBack(totalDerived, possiblyDeleted) <==>
            totalDerived > 0 && (possiblyDeleted as real) / (totalDerived as real) > 0.25
  {
    if totalDerived > 0 {
      QuotientAbove(possiblyDeleted as real, totalDerived as real);
      assert (4 * possiblyDeleted) as real == 4.0 * possiblyDeleted as real;
    }
  }

  lemma QuotientAbove(p: real, t: real)
    requires t > 0.0
    ensures p / t > 0.25 <==> 4.0 * p > t
  {
    var q := p / t;
    assert p == q * t;
    QuotientTimes(q, t);
  }

  lemma QuotientTimes(q: real, t: real)
    requires t > 0.0
    ensures q > 0.25 <==> 4.0 * (q * t) > t
  {
    var e := q - 0.25;
    assert 4.0 * (q * t) - t == 4.0 * (e * t);
    assert e > 0.0 ==> e * t > 0.0;
    assert e <= 0.0 ==> e * t <= 0.0;
  }

  /** How many quads have records, summed over the programs. */
  function TotalDerived(indexes: seq<Index>): nat {
    if indexes == [] then 0 else TotalDerived(indexes[..|indexes| - 1]) + |indexes[|indexes| - 1]|
  }

  /** `a` holds the asserted facts `base` and nothing else: no derived quads, no records. */
  ghost predicate Bare(base: set<Quad>, a: Snapshot) {
    NoDup(a.list) && a.Stored() == base && a.ext == base && forall i | 0 <= i < |a.indexes| :: a.indexes[i] == map[]
  }

  lemma BareWellFormed(progs: seq<Prog>, base: set<Quad>, a: Snapshot)
    requires Bare(base, a) && |a.indexes| == |progs|
    ensures WellFormed(progs, a) && AllRecorded(progs, a.indexes) == iset{}
  {
  }

  /**
   * What a rebuild over `base` leaves, success or not: over valid strata it fails exactly when the model of
   * `base` is contradictory.
   */
  ghost predicate Rebuilt(progs: seq<Prog>, r: Outcome, base: set<Quad>, c: Snapshot) {
    && OnlySeeded(progs, base, c.ext)
    && (r.Ok? && Stratified(AllEnabled(progs)) ==> Sound(progs, c) && ExactState(progs, c))
    && Judged(progs, r, base)
    && (r.Err? ==> r.error.ContradictionFound? && Violates(progs, c.Stored(), r.error.rule))
  }

  /** Sweeping from the bare facts ends in their model with exact records. */
  lemma BareSwept(progs: seq<Prog>, r: Outcome, base: set<Quad>, a: Snapshot, c: Snapshot, tracked: seq<seq<Entry>>)
    requires Layered(progs) && Bare(base, a) && SweepResult(progs, r, a, c, tracked)
    ensures Rebuilt(progs, r, base, c)
  {
    ExtendedParts(progs, a, c, tracked);
    SweepJudged(progs, r, a, c, tracked);
    if r.Ok? && Stratified(AllEnabled(progs)) {
      BareWellFormed(progs, base, a);
      EnabledBelow(progs);
      var d := AllRecorded(progs, c.indexes);
      RebuildConsistent(AllEnabled(progs), |progs|, base, c.Stored(), d);
      LargerBase(AllEnabled(progs), base, c.ext, c.Stored(), d);
    }
  }

  /** A run looks at the records of its own program only. */
  lemma RanProgramElsewhere(progs: seq<Prog>, i: nat, r: Outcome, b: Snapshot, c: Snapshot, log: seq<Entry>, b': Snapshot, c': Snapshot)
    requires i < |progs| && RanProgram(progs, i, r, b, c, log)
    requires b'.list == b.list && b'.ext == b.ext && |b'.indexes| == |progs| && b'.indexes[i] == b.indexes[i]
    requires c'.list == c.list && c'.ext == c.ext && |c.indexes| == |progs| && c'.indexes == b'.indexes[i := c.indexes[i]]
    ensures RanProgram(progs, i, r, b', c', log)
  {
    var index' :|
          && c.indexes == b.indexes[i := index']
          && RanFrom(progs[i], b.list, b.ext, b.indexes[i], c.list, c.ext, index', log)
          && (r.Ok? ==> Materialised(Enabled(progs[i]), b.Stored(), Recorded(progs[i], b.indexes[i]), c.Stored(), Recorded(progs[i], index')));
  }

  lemma UnassertedParts(z: Snapshot, deletes: set<Quad>, y: Snapshot)
    requires Unasserted(z, deletes, y)
    ensures y.ext == z.ext - deletes && y.indexes == z.indexes
  {
  }

  lemma SearchedIsPossiblyDeleted(progs: seq<Prog>, z: Snapshot, deletes: set<Quad>, pd: set<Quad>)
    requires |z.indexes| == |progs|
    requires Searched(AllRecorded(progs, z.indexes), {}, deletes, {}, pd)
    ensures pd == PossiblyDeleted(progs, z, deletes)
  {
    IsPossiblyDeleted(progs, z, deletes, pd);
  }

  /** The snapshot with the records from program `i` on left out: they will be reset before they are used. */
  ghost function UpTo(b: Snapshot, i: nat): Snapshot {
    b.(indexes := seq(|b.indexes|, j requires 0 <= j < |b.indexes| => if j < i then b.indexes[j] else map[]))
  }

  lemma ClearedBare(progs: seq<Prog>, b: Snapshot)
    requires WellFormed(progs, b) && b.ext == b.Stored()
    ensures Bare(b.ext, UpTo(b, 0)) && WellFormed(progs, UpTo(b, 0))
  {
    BareWellFormed(progs, b.ext, UpTo(b, 0));
  }

  lemma ClearedAll(b: Snapshot)
    ensures UpTo(b, |b.indexes|) == b
  {
    assert UpTo(b, |b.indexes|).indexes == b.indexes;
  }

  /** Resetting and running program `i` is running it with the later records left out. */
  lemma ClearedRun(progs: seq<Prog>, i: nat, r: Outcome, b: Snapshot, b': Snapshot, c: Snapshot, log: seq<Entry>)
    requires i < |progs| && |b.indexes| == |progs|
    requires b'.list == b.list && b'.ext == b.ext && b'.indexes == b.indexes[i := map[]]
    requires RanProgram(progs, i, r, b', c, log)
    ensures RanProgram(progs, i, r, UpTo(b, i), UpTo(c, i + 1), log)
    ensures |c.indexes| == |progs|
  {
    var index' :| c.indexes == b'.indexes[i := index'] && RanFrom(progs[i], b'.list, b'.ext, b'.indexes[i], c.list, c.ext, index', log);
    assert UpTo(c, i + 1).indexes == UpTo(b, i).indexes[i := c.indexes[i]];
    RanProgramElsewhere(progs, i, r, b', c, log, UpTo(b, i), UpTo(c, i + 1));
  }

  lemma ErrRebuilt(progs: seq<Prog>, r: Outcome, base: set<Quad>, a: Snapshot, i: nat, c: Snapshot, tracked: seq<seq<Entry>>)
    requires r.Err? && Bare(base, a) && SweepResult(progs, r, a, UpTo(c, i), tracked)
    ensures Rebuilt(progs, r, base, c)
  {
    ExtendedParts(progs, a, UpTo(c, i), tracked);
    SweepJudged(progs, r, a, UpTo(c, i), tracked);
    assert UpTo(c, i).Stored() == c.Stored();
  }

  // ---- What a deletion promises ----

  /**
   * The outcome of deleting `deletes` from `z`, by branch.  From a sound state the incremental branch ends with
   * what the sweep reaches over the quads left, and fails exactly when that is contradictory.
   */
  ghost predicate DeletionResult(progs: seq<Prog>, r: Outcome, z: Snapshot, deletes: set<Quad>, c: Snapshot)
    requires |z.indexes| == |progs|
  {
    var pd := PossiblyDeleted(progs, z, deletes);
    && (r.Err? ==> r.error.ContradictionFound?)
    && if FallsBack(TotalDerived(z.indexes), |pd|) then Rebuilt(progs, r, z.ext - deletes, c)
       else
         && (r.Ok? ==> OnlySeeded(progs, z.ext - deletes - pd, c.ext))
         && (r.Ok? && Sound(progs, z) && ExactState(progs, z) ==>
               && RightWhenUnblocked(progs, z, deletes, c) && c.Stored() == Refilled(progs, z, Fallout(progs, z, deletes))
               && (OneLayerRules(progs) ==> Sound(progs, c) && ExactState(progs, c)))
         && (r.Err? ==> RolledBack(z, deletes, pd, c))
         && (Layered(progs) && Sound(progs, z) ==> Verdict(progs, r, Refilled(progs, z, Fallout(progs, z, deletes))))
  }

  /** The state after the rollback of a failed incremental deletion. */
  ghost predicate RolledBack(z: Snapshot, deletes: set<Quad>, pd: set<Quad>, c: Snapshot) {
    && c.indexes == z.indexes
    && c.Stored() == (z.Stored() - deletes - pd) + pd + deletes
    && c.ext == (z.ext - deletes - pd) + (deletes - pd)
  }

  /**
   * Deletion equals recomputation, on both branches: with one layer of negation and no rule deriving an
   * asserted fact, a successful deletion ends in the perfect model of the other asserted facts.
   */
  lemma DeletionIsRecomputation(progs: seq<Prog>, z: Snapshot, deletes: set<Quad>, c: Snapshot)
    requires Layered(progs) && WellFormed(progs, z) && Sound(progs, z) && ExactState(progs, z)
    requires OneLayerRules(progs) && Separate(progs, z.ext)
    requires DeletionResult(progs, Ok, z, deletes, c)
    ensures Sound(progs, c) && ExactState(progs, c)
    ensures OnlySeeded(progs, z.ext - deletes, c.ext)
    ensures c.Stored() == Perfect(AllEnabled(progs), z.ext - deletes, |progs|)
  {
    SeparateSpared(progs, z, deletes);
    assert z.ext - deletes - PossiblyDeleted(progs, z, deletes) == z.ext - deletes;
    SeedsRedundant(progs, z.ext - deletes, c);
  }

  /** A failed incremental deletion of asserted facts that no rule derives leaves everything as it was. */
  lemma DeletionRollback(progs: seq<Prog>, r: Outcome, z: Snapshot, deletes: set<Quad>, c: Snapshot)
    requires WellFormed(progs, z) && ConsistentState(progs, z) && r.Err?
    requires !FallsBack(TotalDerived(z.indexes), |PossiblyDeleted(progs, z, deletes)|)
    requires DeletionResult(progs, r, z, deletes, c)
    ensures c.indexes == z.indexes
    ensures c.Stored() == z.Stored() && c.ext == z.ext <==>
            deletes <= z.ext + PossiblyDeleted(progs, z, deletes) && PossiblyDeleted(progs, z, deletes) !! z.ext
  {
    PossiblyDeletedStored(progs, z, deletes);
    RollbackExact(z, deletes, PossiblyDeleted(progs, z, deletes), c);
  }

  // ---- Refusals ----

  /** Fewer facts and fewer rules without NOT atoms never run into a contradiction. */
  lemma LessIsConsistent(progs: seq<Prog>, progs': seq<Prog>, z: Snapshot, base: set<Quad>)
    requires NegationFree(progs) && Sound(progs, z) && |progs'| == |progs|
    requires AllEnabled(progs') <= AllEnabled(progs) && base <= z.Stored()
    ensures NoContradiction(AllEnabled(progs'), Perfect(AllEnabled(progs'), base, |progs'|))
  {
    var p, s := AllEnabled(progs'), z.Stored();
    var m := Perfect(p, base, |progs'|);
    EnabledBelow(progs');
    forall c | c in p ensures c.neg == {} { UnguardedInstance(progs, c); }
    PerfectIsStable(p, base, m, |progs'|);
    forall c | c in p && c.head.Some? && c.neg !! m && Within(c.pos, s) ensures c.head.value in s {
      assert c in AllEnabled(progs) && Sat(c, s);
    }
    LeastIsLeast(p, base, m, s);
    forall c | c in p && c.head.None? ensures !Sat(c, m) {
      if Sat(c, m) {
        assert c in AllEnabled(progs) && Sat(c, s);
      }
    }
  }

  /** So without NOT atoms a deletion from a sound state is never refused. */
  lemma DeletionNeverRefused(progs: seq<Prog>, r: Outcome, z: Snapshot, deletes: set<Quad>, c: Snapshot)
    requires Layered(progs) && WellFormed(progs, z) && Sound(progs, z) && NegationFree(progs)
    requires DeletionResult(progs, r, z, deletes, c)
    ensures r.Ok?
  {
    LessIsConsistent(progs, progs, z, z.ext - deletes);
    LessIsConsistent(progs, progs, z, z.Stored() - Fallout(progs, z, deletes));
  }

  /** The records that a deletion keeps. */
  ghost function KeptRecords(progs: seq<Prog>, z: Snapshot, deletes: set<Quad>): Program
    requires |z.indexes| == |progs|
  {
    iset c | c in AllRecorded(progs, z.indexes) && c.head.Some? && c.head.value !in PossiblyDeleted(progs, z, deletes)
  }

  lemma KeptClean(progs: seq<Prog>, z: Snapshot, deletes: set<Quad>)
    requires Sound(progs, z) && ExactState(progs, z)
    ensures CleanRemoval(AllEnabled(progs), AllEnabled(progs), z.ext, z.Stored(), AllRecorded(progs, z.indexes), Fallout(progs, z, deletes), KeptRecords(progs, z, deletes))
  {
    var d, d2, x := AllRecorded(progs, z.indexes), KeptRecords(progs, z, deletes), Fallout(progs, z, deletes);
    FalloutParts(progs, z, deletes);
    forall c | c in d2 ensures !exists w :: w in c.pos && w in x {
      if w :| w in c.pos && w in x {
        EveryQuad(c.head.value);
        assert Derives(d, w, c.head.value);
      }
    }
    DeletionIsClean(AllEnabled(progs), z.ext, z.Stored(), d, deletes, x, d2);
  }

  /** With one layer of negation no record that a deletion keeps is going to be blocked. */
  lemma OneLayerSurvives(progs: seq<Prog>, z: Snapshot, deletes: set<Quad>)
    requires Sound(progs, z) && ExactState(progs, z) && OneLayerRules(progs)
    ensures SurvivorsUnblocked(progs, z, deletes)
  {
    var p, s, x, m := AllEnabled(progs), z.Stored(), Fallout(progs, z, deletes), Refilled(progs, z, Fallout(progs, z, deletes));
    var t :| OneLayer(p, t);
    EnabledBelow(progs);
    KeptClean(progs, z, deletes);
    PerfectIsStable(p, s - x, m, |progs|);
    OneLayerUnblocked(p, p, z.ext, s, AllRecorded(progs, z.indexes), x, KeptRecords(progs, z, deletes), m, t);
  }

  /** If none is, the sweep of the incremental branch heads for the model of the asserted facts that are left. */
  lemma RefilledIsModel(progs: seq<Prog>, z: Snapshot, deletes: set<Quad>)
    requires Sound(progs, z) && ExactState(progs, z) && SurvivorsUnblocked(progs, z, deletes)
    ensures Refilled(progs, z, Fallout(progs, z, deletes)) == Perfect(AllEnabled(progs), z.ext - Fallout(progs, z, deletes), |progs|)
  {
    var p, s, x, m := AllEnabled(progs), z.Stored(), Fallout(progs, z, deletes), Refilled(progs, z, Fallout(progs, z, deletes));
    EnabledBelow(progs);
    EnabledFacts(progs);
    KeptClean(progs, z, deletes);
    PerfectIsStable(p, s - x, m, |progs|);
    RefilledStands(p, p, z.ext, s, AllRecorded(progs, z.indexes), x, KeptRecords(progs, z, deletes), m);
    PerfectIsStable(p, z.ext - x, m, |progs|);
  }

  /**
   * So with one layer of negation and no rule deriving an asserted fact, a deletion is refused, on either branch,
   * exactly when the model of the other asserted facts is contradictory.
   */
  lemma RefusalGenuine(progs: seq<Prog>, r: Outcome, z: Snapshot, deletes: set<Quad>, c: Snapshot)
    requires Layered(progs) && WellFormed(progs, z) && Sound(progs, z) && ExactState(progs, z)
    requires OneLayerRules(progs) && Separate(progs, z.ext)
    requires DeletionResult(progs, r, z, deletes, c)
    ensures Verdict(progs, r, Perfect(AllEnabled(progs), z.ext - deletes, |progs|))
  {
    hide Verdict, Violates, OneLayerRules, Separate, Refilled, PossiblyDeleted, Layered, AllEnabled, ExactState, ConsistentState, SurvivorsUnblocked;
    OneLayerSurvives(progs, z, deletes);
    RefilledIsModel(progs, z, deletes);
    SeparateSpared(progs, z, deletes);
    FalloutParts(progs, z, deletes);
    assert z.ext - Fallout(progs, z, deletes) == z.ext - deletes;
  }

  // ---- Rollback ----

  /** The records one program had for a quad before it was dropped. */
  datatype RemovedEntry = RemovedEntry(quad: Quad, program: nat, derivations: seq<Derivation>)

  /** `removed` holds the records of every quad of `pd`. */
  ghost predicate Keeps(indexes0: seq<Index>, pd: set<Quad>, removed: seq<RemovedEntry>) {
    && (forall e | e in removed ::
          e.program < |indexes0| && e.quad in pd && e.quad in indexes0[e.program] && e.derivations == indexes0[e.program][e.quad])
    && (forall i, q | 0 <= i < |indexes0| && q in pd && q in indexes0[i] :: RemovedEntry(q, i, indexes0[i][q]) in removed)
  }

  lemma KeepsNone(indexes0: seq<Index>)
    ensures Keeps(indexes0, {}, [])
  {
  }

  /** `found` are the records of the one quad `q`. */
  ghost predicate RecordsOf(indexes: seq<Index>, q: Quad, k: nat, found: seq<RemovedEntry>)
  {
    && (forall e | e in found ::
          e.program < k && e.program < |indexes| && e.quad == q && q in indexes[e.program] && e.derivations == indexes[e.program][q])
    && (forall i | 0 <= i < k && i < |indexes| && q in indexes[i] :: RemovedEntry(q, i, indexes[i][q]) in found)
  }

  /** Records of a quad not dropped so far are the original ones. */
  lemma KeepsNext(a: Snapshot, done: set<Quad>, removed: seq<RemovedEntry>, b: Snapshot, q: Quad, found: seq<RemovedEntry>)
    requires Keeps(a.indexes, done, removed) && Dropped(a, done, b) && q !in done
    requires RecordsOf(b.indexes, q, |b.indexes|, found)
    ensures Keeps(a.indexes, done + {q}, removed + found)
  {
    forall e | e in removed + found
      ensures e.program < |a.indexes| && e.quad in done + {q} && e.quad in a.indexes[e.program] && e.derivations == a.indexes[e.program][e.quad]
    {
    }
    forall i, x | 0 <= i < |a.indexes| && x in done + {q} && x in a.indexes[i]
      ensures RemovedEntry(x, i, a.indexes[i][x]) in removed + found
    {
      if x == q {
        assert q in b.indexes[i];
      }
    }
  }

  ghost predicate Restored(removed: seq<RemovedEntry>, k: nat, i: nat, q: Quad) {
    exists j :: 0 <= j < k && j < |removed| && removed[j].quad == q && removed[j].program == i
  }

  /** The first `k` removed entries are back. */
  ghost predicate Restoring(indexes0: seq<Index>, pd: set<Quad>, removed: seq<RemovedEntry>, k: nat, indexes: seq<Index>) {
    && |indexes| == |indexes0|
    && forall i | 0 <= i < |indexes| ::
         && (forall q :: q in indexes[i] <==> q in indexes0[i] && (q !in pd || Restored(removed, k, i, q)))
         && (forall q | q in indexes[i] :: indexes[i][q] == indexes0[i][q])
  }

  lemma RestoreStart(indexes0: seq<Index>, pd: set<Quad>, removed: seq<RemovedEntry>, indexes: seq<Index>)
    requires |indexes| == |indexes0| && forall i | 0 <= i < |indexes0| :: indexes[i] == indexes0[i] - pd
    ensures Restoring(indexes0, pd, removed, 0, indexes)
  {
  }

  lemma RestoreStep(indexes0: seq<Index>, pd: set<Quad>, removed: seq<RemovedEntry>, k: nat, indexes: seq<Index>)
    requires Keeps(indexes0, pd, removed) && k < |removed|
    requires Restoring(indexes0, pd, removed, k, indexes)
    ensures var e := removed[k];
            && e.program < |indexes|
            && (e.quad in indexes[e.program] ==> indexes[e.program][e.quad] == e.derivations)
            && Restoring(indexes0, pd, removed, k + 1, indexes[e.program := indexes[e.program][e.quad := e.derivations]])
  {
    var e := removed[k];
    assert e in removed;
    var indexes' := indexes[e.program := indexes[e.program][e.quad := e.derivations]];
    forall i, q | 0 <= i < |indexes|
      ensures Restored(removed, k + 1, i, q) <==> Restored(removed, k, i, q) || (e.program == i && e.quad == q)
    {
      if e.program == i && e.quad == q { assert removed[k].quad == q && removed[k].program == i; }
    }
  }

  lemma RestoreEnd(indexes0: seq<Index>, pd: set<Quad>, removed: seq<RemovedEntry>, indexes: seq<Index>)
    requires Keeps(indexes0, pd, removed) && Restoring(indexes0, pd, removed, |removed|, indexes)
    ensures indexes == indexes0
  {
    forall i | 0 <= i < |indexes| ensures indexes[i] == indexes0[i] {
      forall q | q in indexes0[i] && q in pd ensures Restored(removed, |removed|, i, q) {
        var j :| 0 <= j < |removed| && removed[j] == RemovedEntry(q, i, indexes0[i][q]);
      }
    }
  }

  // ---- The forward phase of a deletion ----

  /** What the forward phase leaves, from `y` where the deleted quads are already unasserted. */
  ghost predicate ForwardPhased(progs: seq<Prog>, r: Outcome, z: Snapshot, deletes: set<Quad>, y: Snapshot, pd: set<Quad>, c: Snapshot) {
    && Judged(progs, r, y.Stored() - pd)
    && (r.Err? ==> r.error.ContradictionFound? && RolledBack(z, deletes, pd, c))
    && (r.Ok? ==> exists mid, tracked :: Dropped(y, pd, mid) && SweepResult(progs, Ok, mid, c, tracked))
  }

  lemma ForwardPhasedOk(progs: seq<Prog>, z: Snapshot, deletes: set<Quad>, y: Snapshot, pd: set<Quad>, mid: Snapshot, c: Snapshot,
                        tracked: seq<seq<Entry>>)
    requires Dropped(y, pd, mid) && SweepResult(progs, Ok, mid, c, tracked)
    ensures ForwardPhased(progs, Ok, z, deletes, y, pd, c)
  {
    SweepJudged(progs, Ok, mid, c, tracked);
  }

  lemma ForwardPhaseResult(progs: seq<Prog>, r: Outcome, z: Snapshot, deletes: set<Quad>, y: Snapshot, c: Snapshot)
    requires Layered(progs) && WellFormed(progs, z) && Unasserted(z, deletes, y)
    requires ForwardPhased(progs, r, z, deletes, y, PossiblyDeleted(progs, z, deletes), c)
    requires !FallsBack(TotalDerived(z.indexes), |PossiblyDeleted(progs, z, deletes)|)
    ensures DeletionResult(progs, r, z, deletes, c)
  {
    assert |z.indexes| == |progs|;
    hide *;
    PhasedParts(progs, r, z, deletes, y, PossiblyDeleted(progs, z, deletes), c);
    PhasedVerdict(progs, r, z, deletes, y);
    if r.Ok? {
      PhasedOk(progs, r, z, deletes, y, c);
    }
    PhasedIs(progs, r, z, deletes, c);
  }

  lemma PhasedParts(progs: seq<Prog>, r: Outcome, z: Snapshot, deletes: set<Quad>, y: Snapshot, pd: set<Quad>, c: Snapshot)
    requires WellFormed(progs, z) && ForwardPhased(progs, r, z, deletes, y, pd, c)
    ensures |z.indexes| == |progs| && Judged(progs, r, y.Stored() - pd)
    ensures r.Err? ==> r.error.ContradictionFound? && RolledBack(z, deletes, pd, c)
  {
  }

  lemma PhasedVerdict(progs: seq<Prog>, r: Outcome, z: Snapshot, deletes: set<Quad>, y: Snapshot)
    requires |z.indexes| == |progs| && Layered(progs) && Unasserted(z, deletes, y)
    requires Judged(progs, r, y.Stored() - PossiblyDeleted(progs, z, deletes))
    ensures Sound(progs, z) ==> Verdict(progs, r, Refilled(progs, z, Fallout(progs, z, deletes)))
  {
    hide Verdict, AllEnabled, Stratified, ConsistentState, Layered, PossiblyDeleted;
    FalloutParts(progs, z, deletes);
    assert y.Stored() - PossiblyDeleted(progs, z, deletes) == z.Stored() - Fallout(progs, z, deletes);
  }

  lemma PhasedIs(progs: seq<Prog>, r: Outcome, z: Snapshot, deletes: set<Quad>, c: Snapshot)
    requires |z.indexes| == |progs| && !FallsBack(TotalDerived(z.indexes), |PossiblyDeleted(progs, z, deletes)|)
    requires r.Err? ==> r.error.ContradictionFound? && RolledBack(z, deletes, PossiblyDeleted(progs, z, deletes), c)
    requires r.Ok? ==> OnlySeeded(progs, z.ext - deletes - PossiblyDeleted(progs, z, deletes), c.ext)
    requires r.Ok? && Sound(progs, z) && ExactState(progs, z) ==>
               && RightWhenUnblocked(progs, z, deletes, c) && c.Stored() == Refilled(progs, z, Fallout(progs, z, deletes))
               && (OneLayerRules(progs) ==> Sound(progs, c) && ExactState(progs, c))
    requires Sound(progs, z) ==> Verdict(progs, r, Refilled(progs, z, Fallout(progs, z, deletes)))
    ensures DeletionResult(progs, r, z, deletes, c)
  {
    hide Verdict, Sound, ExactState, RightWhenUnblocked, OneLayerRules, OnlySeeded, RolledBack, PossiblyDeleted, Refilled, Fallout, FallsBack, Layered;
  }

  lemma PhasedOk(progs: seq<Prog>, r: Outcome, z: Snapshot, deletes: set<Quad>, y: Snapshot, c: Snapshot)
    requires Layered(progs) && WellFormed(progs, z) && Unasserted(z, deletes, y) && r.Ok?
    requires ForwardPhased(progs, r, z, deletes, y, PossiblyDeleted(progs, z, deletes), c)
    ensures OnlySeeded(progs, z.ext - deletes - PossiblyDeleted(progs, z, deletes), c.ext)
    ensures Sound(progs, z) && ExactState(progs, z) ==>
              && RightWhenUnblocked(progs, z, deletes, c) && c.Stored() == Refilled(progs, z, Fallout(progs, z, deletes))
              && (OneLayerRules(progs) ==> Sound(progs, c) && ExactState(progs, c))
  {
    assert |z.indexes| == |progs|;
    hide Verdict, Judged, RolledBack, PossiblyDeleted, Refilled, Fallout, RightWhenUnblocked, SweepResult, Dropped, Sound, ExactState, OneLayerRules, Layered, WellFormed;
    if r.Ok? {
      var pd := PossiblyDeleted(progs, z, deletes);
      var mid, tracked :| Dropped(y, pd, mid) && SweepResult(progs, Ok, mid, c, tracked);
      DeletionFlags(progs, Ok, z, deletes, y, pd, mid, c, tracked);
      if Sound(progs, z) && ExactState(progs, z) {
        DeletionReachesPromise(progs, z, deletes, y, mid, c, tracked);
        DeletionReaches(progs, z, deletes, y, mid, c, tracked);
        if OneLayerRules(progs) {
          DeletionSound(progs, z, deletes, y, mid, c, tracked);
        }
      }
    }
  }

  /** A sweep over a sound store reaches nothing new. */
  lemma NothingRefilled(progs: seq<Prog>, z: Snapshot)
    requires Sound(progs, z)
    ensures Refilled(progs, z, {}) == z.Stored()
  {
    SoundReaches(progs, z);
    assert z.Stored() - {} == z.Stored();
  }

  /** Deleting nothing changes nothing. */
  lemma NothingDeleted(progs: seq<Prog>, z: Snapshot, deletes: seq<Quad>)
    requires |z.indexes| == |progs| && deletes == []
    ensures DeletionResult(progs, Ok, z, Elements(deletes), z)
  {
    assert Elements(deletes) == {};
    var pd := PossiblyDeleted(progs, z, {});
    CascadeMinimal(AllRecorded(progs, z.indexes), {}, {}, {});
    assert Fallout(progs, z, {}) == {};
    assert pd == {};
    if Sound(progs, z) {
      NothingRefilled(progs, z);
      SoundReaches(progs, z);
      assert z.ext - {} == z.ext;
    }
  }

  /** After the sweep is undone, the dropped quads and their records come back. */
  lemma PutBackAll(z: Snapshot, deletes: set<Quad>, y: Snapshot, pd: set<Quad>, mid: Snapshot, c: Snapshot)
    requires Unasserted(z, deletes, y) && Dropped(y, pd, mid)
    requires c.indexes == z.indexes && c.Stored() == mid.Stored() + pd + deletes && c.ext == mid.ext + (deletes - pd)
    ensures RolledBack(z, deletes, pd, c)
  {
  }

  lemma ForwardPhasedErr(progs: seq<Prog>, r: Outcome, z: Snapshot, deletes: set<Quad>, y: Snapshot, pd: set<Quad>, mid: Snapshot, c: Snapshot)
    requires r.Err? && r.error.ContradictionFound? && RolledBack(z, deletes, pd, c)
    requires Dropped(y, pd, mid) && Judged(progs, r, mid.Stored())
    ensures ForwardPhased(progs, r, z, deletes, y, pd, c)
  {
  }

  lemma FallbackResult(progs: seq<Prog>, r: Outcome, z: Snapshot, deletes: set<Quad>, c: Snapshot)
    requires |z.indexes| == |progs| && Rebuilt(progs, r, z.ext - deletes, c)
    requires FallsBack(TotalDerived(z.indexes), |PossiblyDeleted(progs, z, deletes)|)
    ensures DeletionResult(progs, r, z, deletes, c)
  {
  }

  lemma SweepParts(progs: seq<Prog>, r: Outcome, a: Snapshot, b: Snapshot, tracked: seq<seq<Entry>>)
    requires SweepResult(progs, r, a, b, tracked)
    ensures Extended(progs, a, b, tracked) && (r.Err? ==> r.error.ContradictionFound?)
    ensures Judged(progs, r, a.Stored())
    ensures r.Ok? ==> r == Ok
  {
    SweepJudged(progs, r, a, b, tracked);
  }

  ghost predicate WellFormedIndexes(progs: seq<Prog>, indexes: seq<Index>) {
    |indexes| == |progs| && forall i | 0 <= i < |progs| :: IndexValid(indexes[i]) && IndexOk(progs[i].rules, indexes[i])
  }

  lemma WellFormedIndexed(progs: seq<Prog>, z: Snapshot)
    requires WellFormed(progs, z)
    ensures WellFormedIndexes(progs, z.indexes)
  {
  }

  /** A kept entry can be recorded again. */
  lemma KeptEntryOk(progs: seq<Prog>, indexes0: seq<Index>, pd: set<Quad>, removed: seq<RemovedEntry>, k: nat)
    requires WellFormedIndexes(progs, indexes0) && Keeps(indexes0, pd, removed) && k < |removed|
    ensures var e := removed[k];
            && e.program < |progs| && e.derivations != [] && NoDup(e.derivations)
            && forall d | d in e.derivations :: EntryOk(progs[e.program].rules, e.quad, d)
  {
    var e := removed[k];
    assert e in removed;
    forall d | d in e.derivations ensures EntryOk(progs[e.program].rules, e.quad, d) {
      assert Holds(indexes0[e.program], e.quad, d);
    }
  }

  lemma RestoredIndexOk(rules: seq<Rule>, index: Index, q: Quad, ds: seq<Derivation>)
    requires IndexOk(rules, index) && forall d | d in ds :: EntryOk(rules, q, d)
    ensures IndexOk(rules, index[q := ds])
  {
    forall x, d | Holds(index[q := ds], x, d) ensures EntryOk(rules, x, d) {
      if x != q { assert Holds(index, x, d); }
    }
  }

  lemma MidDisjoint(z: Snapshot, deletes: set<Quad>, y: Snapshot, pd: set<Quad>, mid: Snapshot)
    requires Unasserted(z, deletes, y) && Dropped(y, pd, mid)
    ensures mid.Stored() !! pd + deletes
  {
  }

  lemma DroppedRestoring(z: Snapshot, deletes: set<Quad>, y: Snapshot, pd: set<Quad>, mid: Snapshot, removed: seq<RemovedEntry>)
    requires Unasserted(z, deletes, y) && Dropped(y, pd, mid)
    ensures Restoring(z.indexes, pd, removed, 0, mid.indexes)
  {
    RestoreStart(z.indexes, pd, removed, mid.indexes);
  }
}
