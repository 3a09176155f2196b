/** The rounds of negation retraction, on snapshots. */
module Rounds {
  import opened Syntax
  import opened Clauses
  import opened Grounding
  import opened DerivedFrom
  import opened Seminaive
  import opened Maintenance
  import opened Reasoner
  import opened States
  import opened Insertion
  import opened Negation
  import opened Undo

  /** Blocked records of derived quads, missed ones aside, belong to stratum `r` or later. */
  ghost predicate SettledBelow(progs: seq<Prog>, b: Snapshot, r: nat, miss: Program) {
    |b.indexes| == |progs| && BlockedFrom(b.ext, b.Stored(), AllRecorded(progs, b.indexes), r, miss)
  }

  ghost predicate HeadOfLog(tracked: seq<seq<Entry>>, q: Quad) {
    exists i, e: Entry :: 0 <= i < |tracked| && e in tracked[i] && e.0 == q
  }

  /** What one round does: remove the cascade of the blocked heads, then sweep everything. */
  ghost predicate RoundDone(progs: seq<Prog>, b: Snapshot, check: set<Quad>, seeds: set<Quad>, pd: set<Quad>,
                            mid: Snapshot, c: Snapshot, tracked: seq<seq<Entry>>, miss: Program) {
    && Layered(progs) && WellFormed(progs, b) && PendingState(progs, b, check, miss)
    && BlockedHeads(AllRecorded(progs, b.indexes), b.ext, check, seeds, miss)
    && pd == Cascade(AllRecorded(progs, b.indexes), b.ext, seeds - b.ext)
    && Dropped(b, pd, mid) && SweepResult(progs, Ok, mid, c, tracked)
  }

  /** New quads are heads of the logs: nothing known or asserted is missing from the store before. */
  lemma RoundLogged(progs: seq<Prog>, b: Snapshot, check: set<Quad>, seeds: set<Quad>, pd: set<Quad>,
                    mid: Snapshot, c: Snapshot, tracked: seq<seq<Entry>>, miss: Program, q: Quad)
    requires RoundDone(progs, b, check, seeds, pd, mid, c, tracked, miss)
    requires q in c.list && q !in b.list
    ensures HeadOfLog(tracked, q)
  {
    ExtendedParts(progs, mid, c, tracked);
    DroppedRecords(progs, b, pd, mid);
    assert q !in mid.Stored();
    assert Accounted(mid.indexes, tracked, c.ext, q);
    if q in c.ext {
      assert SomeFactHead(progs, q);
      FactHeadComplete(progs, b, check, miss, q);
    }
    var i :| 0 <= i < |tracked| && LoggedOrKnown(mid.indexes[i], tracked[i], q);
    if exists d :: Holds(mid.indexes[i], q, d) {
      var d :| Holds(mid.indexes[i], q, d);
      KnownBefore(progs, b, check, miss, pd, mid, i, q, d);
    }
    var d :| (q, d) in tracked[i];
    assert (q, d).0 == q;
  }

  /** The head of a record that a removal kept was stored. */
  lemma KnownBefore(progs: seq<Prog>, b: Snapshot, check: set<Quad>, miss: Program, pd: set<Quad>, mid: Snapshot, i: nat, q: Quad, d: Derivation)
    requires Layered(progs) && WellFormed(progs, b) && PendingState(progs, b, check, miss) && Dropped(b, pd, mid)
    requires i < |progs| && Holds(mid.indexes[i], q, d)
    ensures q in b.Stored()
  {
    DroppedRecords(progs, b, pd, mid);
    var k := EntryClause(progs[i].stratum, progs[i].rules, mid.indexes[i], q, d);
    assert k in AllRecorded(progs, mid.indexes);
  }

  /** A pending store holds the heads of the body-less rules. */
  lemma FactHeadComplete(progs: seq<Prog>, b: Snapshot, check: set<Quad>, miss: Program, q: Quad)
    requires Layered(progs) && PendingState(progs, b, check, miss) && SomeFactHead(progs, q)
    ensures q in b.Stored()
  {
    var i :| 0 <= i < |progs| && IsFactHead(progs[i], q);
    var c :| c in Enabled(progs[i]) && c.pos == [] && c.head == Some(q);
    BodylessUnguarded(progs[i], c);
    assert c in AllEnabled(progs) && Sat(c, b.Stored());
  }

  lemma RoundIsRound(progs: seq<Prog>, b: Snapshot, check: set<Quad>, seeds: set<Quad>, pd: set<Quad>,
                     mid: Snapshot, c: Snapshot, tracked: seq<seq<Entry>>, miss: Program)
    requires RoundDone(progs, b, check, seeds, pd, mid, c, tracked, miss)
    ensures |c.indexes| == |progs| && b.ext <= c.ext <= c.Stored() && mid.ext == b.ext
    ensures Round(AllEnabled(progs), |progs|, b.ext, b.Stored(), AllRecorded(progs, b.indexes), seeds, pd,
                  AllRecorded(progs, mid.indexes), c.Stored(), AllRecorded(progs, c.indexes))
  {
    ExtendedParts(progs, mid, c, tracked);
    DroppedRecords(progs, b, pd, mid);
    CascadeAvoids(AllRecorded(progs, b.indexes), b.ext, seeds - b.ext);
    assert b.ext - pd == b.ext;
  }

  /** A round leads from pending state to pending state and settles one more stratum. */
  lemma RoundOn(progs: seq<Prog>, b: Snapshot, check: set<Quad>, seeds: set<Quad>, pd: set<Quad>,
                mid: Snapshot, c: Snapshot, tracked: seq<seq<Entry>>, check': set<Quad>, r: nat, miss: Program)
    requires RoundDone(progs, b, check, seeds, pd, mid, c, tracked, miss)
    requires SettledBelow(progs, b, r, miss)
    requires forall q :: q in check' <==> HeadOfLog(tracked, q)
    ensures PendingState(progs, c, check', miss) && SettledBelow(progs, c, r + 1, miss)
    ensures r >= |progs| ==> check' == {}
  {
    var p, n := AllEnabled(progs), |progs|;
    EnabledFacts(progs);
    EnabledBelow(progs);
    RoundIsRound(progs, b, check, seeds, pd, mid, c, tracked, miss);
    ExtendedParts(progs, mid, c, tracked);
    forall q | q in c.Stored() - b.Stored() ensures q in check' {
      RoundLogged(progs, b, check, seeds, pd, mid, c, tracked, miss, q);
    }
    forall q | q in check' ensures q in c.Stored() {
      var i, e: Entry :| 0 <= i < |tracked| && e in tracked[i] && e.0 == q;
    }
    var d0, d2, d3 := AllRecorded(progs, b.indexes), AllRecorded(progs, mid.indexes), AllRecorded(progs, c.indexes);
    RoundIsPending(p, n, b.ext, b.Stored(), d0, check, seeds, pd, d2, c.Stored(), d3, c.ext, check', miss);
    RankAdvances(p, n, b.ext, b.Stored(), d0, check, seeds, pd, d2, c.Stored(), d3, c.ext, r, miss);
    if r >= n {
      RoundIdles(progs, b, check, seeds, pd, mid, c, tracked, check', r, miss);
    }
  }

  /** Once every stratum is settled, a round logs nothing. */
  lemma RoundIdles(progs: seq<Prog>, b: Snapshot, check: set<Quad>, seeds: set<Quad>, pd: set<Quad>,
                   mid: Snapshot, c: Snapshot, tracked: seq<seq<Entry>>, check': set<Quad>, r: nat, miss: Program)
    requires RoundDone(progs, b, check, seeds, pd, mid, c, tracked, miss)
    requires SettledBelow(progs, b, r, miss) && r >= |progs|
    requires forall q :: q in check' <==> HeadOfLog(tracked, q)
    ensures check' == {}
  {
    var p, n := AllEnabled(progs), |progs|;
    EnabledBelow(progs);
    RoundIsRound(progs, b, check, seeds, pd, mid, c, tracked, miss);
    IdleRound(p, n, b.ext, b.Stored(), AllRecorded(progs, b.indexes), check, seeds, pd, AllRecorded(progs, mid.indexes),
              c.Stored(), AllRecorded(progs, c.indexes), miss);
    if q :| q in check' {
      var i, e: Entry :| 0 <= i < |tracked| && e in tracked[i] && e.0 == q;
      LoggedIsNew(progs, mid, c, tracked, i, e);
      DroppedRecords(progs, b, pd, mid);
    }
  }

  /** A logged record is not among the records before. */
  lemma LoggedIsNew(progs: seq<Prog>, a: Snapshot, b: Snapshot, tracked: seq<seq<Entry>>, i: nat, e: Entry)
    requires Layered(progs) && Extended(progs, a, b, tracked) && i < |tracked| && e in tracked[i]
    ensures exists c :: c in AllRecorded(progs, b.indexes) && c !in AllRecorded(progs, a.indexes) && c.head == Some(e.0)
  {
    AddAllHolds(a.indexes[i], tracked[i]);
    assert (e.0, e.1) == e;
    assert Holds(b.indexes[i], e.0, e.1);
    var c := EntryClause(progs[i].stratum, progs[i].rules, b.indexes[i], e.0, e.1);
    assert Derivation(c.rid, c.pos) == e.1;
  }

  /** The state before round `r`, which is checked for facts of `check`. */
  ghost predicate RoundState(progs: seq<Prog>, b: Snapshot, check: set<Quad>, r: nat, miss: Program) {
    PendingState(progs, b, check, miss) && SettledBelow(progs, b, r, miss) && r <= |progs| + 1 && (r == |progs| + 1 ==> check == {})
  }

  lemma RoundFirst(progs: seq<Prog>, b: Snapshot, check: set<Quad>, miss: Program)
    requires PendingState(progs, b, check, miss)
    ensures RoundState(progs, b, check, 0, miss)
  {
  }

  /** From a sound state a round removes nothing and derives nothing, so it cannot fail. */
  lemma RoundFromSound(progs: seq<Prog>, r: Outcome, b: Snapshot, check: set<Quad>, seeds: set<Quad>, pd: set<Quad>,
                       mid: Snapshot, c: Snapshot, tracked: seq<seq<Entry>>, miss: Program)
    requires Layered(progs) && WellFormed(progs, b) && PendingState(progs, b, check, miss) && Sound(progs, b)
    requires BlockedHeads(AllRecorded(progs, b.indexes), b.ext, check, seeds, miss)
    requires pd == Cascade(AllRecorded(progs, b.indexes), b.ext, seeds - b.ext)
    requires Dropped(b, pd, mid) && SweepResult(progs, r, mid, c, tracked)
    ensures r.Ok? && c.Stored() == b.Stored() && Sound(progs, c)
  {
    var p, d := AllEnabled(progs), AllRecorded(progs, b.indexes);
    PendingSound(progs, b, check, miss);
    assert seeds - b.ext == {};
    CascadeIsLeast(d, b.ext, {}, {});
    assert mid.Stored() == b.Stored();
    SweepVerdict(progs, r, mid, c, tracked);
    SoundReaches(progs, b);
    hide Consistent, Stratified, Stable, Perfect, Swept, Extended, Layered, AllEnabled, AllRecorded, WellFormed, Verdict;
    assert r == Ok;
    RoundIsRound(progs, b, check, seeds, pd, mid, c, tracked, miss);
    SettledWhenSound(progs, b, miss);
    EnabledBelow(progs);
    IdleRound(p, |progs|, b.ext, b.Stored(), d, check, seeds, pd, AllRecorded(progs, mid.indexes), c.Stored(), AllRecorded(progs, c.indexes), miss);
    LargerBase(p, b.ext, c.ext, c.Stored(), AllRecorded(progs, c.indexes));
  }

  lemma SettledWhenSound(progs: seq<Prog>, b: Snapshot, miss: Program)
    requires Sound(progs, b)
    ensures BlockedFrom(b.ext, b.Stored(), AllRecorded(progs, b.indexes), |progs|, miss)
  {
  }

  /**
   * A round spares asserted facts, whether or not its sweep succeeds; if it does, the next round has one
   * more stratum settled.  If it does not, what it leaves behind violates the rule it names.
   */
  lemma RoundNext(progs: seq<Prog>, r: Outcome, b: Snapshot, check: set<Quad>, seeds: set<Quad>, pd: set<Quad>,
                  mid: Snapshot, c: Snapshot, tracked: seq<seq<Entry>>, check': set<Quad>, round: nat, miss: Program)
    requires Layered(progs) && WellFormed(progs, b) && RoundState(progs, b, check, round, miss) && round <= |progs|
    requires BlockedHeads(AllRecorded(progs, b.indexes), b.ext, check, seeds, miss)
    requires pd == Cascade(AllRecorded(progs, b.indexes), b.ext, seeds - b.ext)
    requires Dropped(b, pd, mid) && SweepResult(progs, r, mid, c, tracked)
    requires r.Ok? ==> forall q :: q in check' <==> HeadOfLog(tracked, q)
    ensures OnlySeeded(progs, b.ext, c.ext)
    ensures r.Ok? ==> RoundState(progs, c, check', round + 1, miss)
    ensures r.Err? ==> r.error.ContradictionFound? && Violates(progs, c.Stored(), r.error.rule)
    ensures Sound(progs, b) ==> r.Ok? && c.Stored() == b.Stored() && Sound(progs, c)
  {
    ExtendedParts(progs, mid, c, tracked);
    CascadeAvoids(AllRecorded(progs, b.indexes), b.ext, seeds - b.ext);
    assert b.ext - pd == b.ext;
    if r.Ok? {
      RoundOn(progs, b, check, seeds, pd, mid, c, tracked, check', round, miss);
    }
    if Sound(progs, b) {
      RoundFromSound(progs, r, b, check, seeds, pd, mid, c, tracked, miss);
    }
  }

  /** No record of a derived quad is blocked. */
  ghost predicate NoneBlocked(progs: seq<Prog>, b: Snapshot) {
    |b.indexes| == |progs| &&
    forall c | c in AllRecorded(progs, b.indexes) && c.head.Some? && c.head.value !in b.ext :: c.neg !! b.Stored()
  }

  /** None that the search does not miss. */
  ghost predicate OnlyMissedBlocked(progs: seq<Prog>, b: Snapshot, miss: Program) {
    |b.indexes| == |progs| &&
    forall c | c in AllRecorded(progs, b.indexes) && c !in miss && c.head.Some? && c.head.value !in b.ext :: c.neg !! b.Stored()
  }

  /** A pending state is sound exactly when no record of a derived quad is blocked. */
  lemma PendingSound(progs: seq<Prog>, b: Snapshot, check: set<Quad>, miss: Program)
    requires PendingState(progs, b, check, miss)
    ensures Sound(progs, b) <==> NoneBlocked(progs, b)
  {
    EnabledFacts(progs);
    PendingExact(AllEnabled(progs), b.ext, b.Stored(), AllRecorded(progs, b.indexes), check, miss);
  }

  /** No seeds: only missed records can be blocked. */
  lemma RoundsEnd(progs: seq<Prog>, b: Snapshot, check: set<Quad>, seeds: set<Quad>, miss: Program)
    requires PendingState(progs, b, check, miss) && seeds == {}
    requires BlockedHeads(AllRecorded(progs, b.indexes), b.ext, check, seeds, miss)
    ensures Sound(progs, b) <==> NoneBlocked(progs, b)
    ensures OnlyMissedBlocked(progs, b, miss)
    ensures (forall c | c in AllRecorded(progs, b.indexes) && c in miss :: c.neg == {}) ==> Sound(progs, b)
  {
    EnabledFacts(progs);
    PendingSound(progs, b, check, miss);
    PendingDone(AllEnabled(progs), b.ext, b.Stored(), AllRecorded(progs, b.indexes), check, miss);
  }

  // ---- What an insertion promises ----

  ghost predicate NoneMarked(marks: Marks) {
    forall i | 0 <= i < |marks| :: marks[i] == {}
  }

  /** What the forward sweep of an insertion reaches. */
  ghost function Grown(progs: seq<Prog>, z: Snapshot, inserts: set<Quad>): set<Quad> {
    Perfect(AllEnabled(progs), z.Stored() + inserts, |progs|)
  }

  /** No record that a derived quad has is blocked in what the forward sweep will reach. */
  ghost predicate InsertUnblocked(progs: seq<Prog>, z: Snapshot, inserts: set<Quad>) {
    |z.indexes| == |progs| &&
    forall c | c in AllRecorded(progs, z.indexes) && c.head.Some? && c.head.value !in AfterInsert(z, inserts) ::
      c.neg !! Grown(progs, z, inserts)
  }

  /** The store after the forward sweep, and whether it is sound, in terms of the state before. */
  ghost predicate GrownTo(progs: seq<Prog>, z: Snapshot, inserts: set<Quad>, b: Snapshot) {
    && b.Stored() == Grown(progs, z, inserts) && b.ext == AfterInsert(z, inserts)
    && (Sound(progs, b) <==> InsertUnblocked(progs, z, inserts))
  }

  /**
   * The forward sweep of an insertion, which is all that happens when no marked rule is found blocked, reaches
   * the model of everything that was stored and the inserts.  It ends sound exactly when, in the state before,
   * no record of a derived quad is going to be blocked.
   */
  lemma InsertionExact(progs: seq<Prog>, z: Snapshot, inserts: set<Quad>, a: Snapshot, b: Snapshot, tracked: seq<seq<Entry>>, delta: set<Quad>)
    requires Sound(progs, z) && WellFormed(progs, z) && Inserted(z, inserts, a)
    requires Forwarded(progs, |progs|, z, a, b, tracked, delta)
    ensures b.Stored() == Grown(progs, z, inserts) && b.ext == AfterInsert(z, inserts)
    ensures Sound(progs, b) <==> InsertUnblocked(progs, z, inserts)
    ensures NoContradiction(AllEnabled(progs), Grown(progs, z, inserts))
  {
    var p, n, d, d2 := AllEnabled(progs), |progs|, AllRecorded(progs, z.indexes), AllRecorded(progs, b.indexes);
    ExtendedParts(progs, a, b, tracked);
    EnabledBelow(progs);
    SweepEnd(p, n, a.Stored(), d, b.Stored(), d2);
    PerfectIsStable(p, a.Stored(), b.Stored(), n);
    assert d <= d2 && forall c | c in d2 && c !in d :: c.neg !! b.Stored();
    assert NoneBlocked(progs, b) <==> InsertUnblocked(progs, z, inserts);
    hide NoneBlocked, InsertUnblocked, AllEnabled, AllRecorded, Swept;
    ForwardEnd(progs, z, inserts, a, b, tracked, delta, iset{});
    PendingSound(progs, b, delta, iset{});
  }

  /**
   * The forward sweep reaches a contradiction exactly when the model of everything that was stored and the
   * inserts is contradictory.
   */
  lemma ForwardVerdict(progs: seq<Prog>, error: ReasoningError, z: Snapshot, inserts: set<Quad>, a: Snapshot)
    requires Layered(progs) && Sound(progs, z) && Inserted(z, inserts, a) && ForwardStops(progs, z, a.Stored(), error)
    ensures Verdict(progs, Err(error), Grown(progs, z, inserts))
  {
    hide Violates, AllEnabled, Layered, Perfect, NoContradiction, Sound;
    ViolatesMeans(progs, Grown(progs, z, inserts), error.rule);
  }

  // ---- When that is the model of the facts ----

  /** Without NOT atoms nothing is ever blocked. */
  lemma PositiveUnblocked(progs: seq<Prog>, z: Snapshot, inserts: set<Quad>)
    requires NegationFree(progs) && Sound(progs, z)
    ensures InsertUnblocked(progs, z, inserts)
  {
    forall c | c in AllRecorded(progs, z.indexes) && c.head.Some? && c.head.value !in AfterInsert(z, inserts)
      ensures c.neg !! Grown(progs, z, inserts)
    {
      assert c in AllEnabled(progs);
      UnguardedInstance(progs, c);
    }
  }

  /** If no record is going to be blocked, what the forward sweep heads for is the model of old and new facts. */
  lemma GrownIsModel(progs: seq<Prog>, z: Snapshot, inserts: set<Quad>)
    requires Layered(progs) && Sound(progs, z) && InsertUnblocked(progs, z, inserts)
    ensures Grown(progs, z, inserts) == Perfect(AllEnabled(progs), AfterInsert(z, inserts), |progs|)
  {
    var p, s, d, base, m := AllEnabled(progs), z.Stored(), AllRecorded(progs, z.indexes), AfterInsert(z, inserts), Grown(progs, z, inserts);
    EnabledBelow(progs);
    EnabledFacts(progs);
    PerfectIsStable(p, s + inserts, m, |progs|);
    var l := Least(p, base, m);
    LeastIsModel(p, base, m);
    LeastIsModel(p, z.ext, s);
    var kept := s * l;
    forall c | c in p && c.head.Some? && c.neg !! s && Within(c.pos, kept) ensures c.head.value in kept {
      assert Within(c.pos, s) && Sat(c, s);
      if c.head.value !in base {
        assert c.neg !! m;
        assert Within(c.pos, l);
      }
    }
    LeastIsLeast(p, z.ext, s, kept);
    Rebase(p, s + inserts, base, m);
    PerfectIsStable(p, base, m, |progs|);
  }

  /**
   * The outcome of inserting `inserts` into a sound state `z`, whatever the marks.  No record of a derived quad by
   * a marked rule is blocked at the end, and the state is sound exactly when none at all is: always if every NOT
   * rule is marked, and if none is, exactly when no record of the state before is blocked in what the forward sweep reaches.  It fails, and leaves
   * everything as it was, when that is contradictory; later it can only fail on a rule that is violated in what
   * it leaves behind, and only if some record was going to be blocked.  If none was, it fails exactly when the
   * model of old and new facts is contradictory.
   */
  ghost predicate InsertionResult(progs: seq<Prog>, r: Outcome, z: Snapshot, inserts: set<Quad>, marks: Marks, c: Snapshot) {
    && (!NoContradiction(AllEnabled(progs), Grown(progs, z, inserts)) ==>
          c == z && Verdict(progs, r, Grown(progs, z, inserts)))
    && (InsertUnblocked(progs, z, inserts) ==> Verdict(progs, r, Perfect(AllEnabled(progs), AfterInsert(z, inserts), |progs|)))
    && (r.Ok? ==>
          && OnlySeeded(progs, AfterInsert(z, inserts), c.ext)
          && (Sound(progs, c) <==> NoneBlocked(progs, c)) && OnlyMissedBlocked(progs, c, Missed(marks))
          && (AllMarked(progs, marks) ==> Sound(progs, c) && c.Stored() == Perfect(AllEnabled(progs), AfterInsert(z, inserts), |progs|))
          && (NoneMarked(marks) ==> GrownTo(progs, z, inserts, c)))
    && (r.Err? && NoContradiction(AllEnabled(progs), Grown(progs, z, inserts)) ==>
          && !NegationFree(progs) && !NoneMarked(marks) && !InsertUnblocked(progs, z, inserts)
          && r.error.ContradictionFound? && Violates(progs, c.Stored(), r.error.rule)
          && OnlySeeded(progs, AfterInsert(z, inserts), c.ext))
  }

  lemma InsertedOk(progs: seq<Prog>, z: Snapshot, inserts: set<Quad>, marks: Marks, b: Snapshot, c: Snapshot)
    requires Layered(progs) && Sound(progs, z) && NoContradiction(AllEnabled(progs), Grown(progs, z, inserts))
    requires GrownTo(progs, z, inserts, b) && OnlySeeded(progs, b.ext, c.ext) && OnlySeeded(progs, AfterInsert(z, inserts), b.ext)
    requires (Sound(progs, c) <==> NoneBlocked(progs, c)) && OnlyMissedBlocked(progs, c, Missed(marks))
    requires (AllMarked(progs, marks) ==> Sound(progs, c)) && (NoneMarked(marks) ==> c == b)
    ensures InsertionResult(progs, Ok, z, inserts, marks, c)
  {
    hide Sound, NoneBlocked, OnlyMissedBlocked, Missed, GrownTo, Layered, OnlySeeded, AfterInsert, InsertUnblocked, NoContradiction, Grown;
    OnlySeededTrans(progs, AfterInsert(z, inserts), b.ext, c.ext);
    if Sound(progs, c) {
      SoundModel(progs, AfterInsert(z, inserts), c);
    }
    if InsertUnblocked(progs, z, inserts) {
      GrownIsModel(progs, z, inserts);
    }
  }

  /** The forward sweep failed and was undone. */
  lemma InsertionRefused(progs: seq<Prog>, r: Outcome, z: Snapshot, inserts: set<Quad>, marks: Marks)
    requires Layered(progs) && Sound(progs, z) && r.Err? && Verdict(progs, r, Grown(progs, z, inserts))
    ensures InsertionResult(progs, r, z, inserts, marks, z)
  {
    hide Sound, Layered, InsertUnblocked, NoContradiction, Grown, AfterInsert, AllEnabled;
    if InsertUnblocked(progs, z, inserts) {
      GrownIsModel(progs, z, inserts);
    }
  }

  /** A round failed. */
  lemma InsertionStuck(progs: seq<Prog>, r: Outcome, z: Snapshot, inserts: set<Quad>, marks: Marks, b: Snapshot, c: Snapshot)
    requires Layered(progs) && Sound(progs, z) && NoContradiction(AllEnabled(progs), Grown(progs, z, inserts))
    requires GrownTo(progs, z, inserts, b) && !Sound(progs, b) && !NoneMarked(marks)
    requires r.Err? && r.error.ContradictionFound? && Violates(progs, c.Stored(), r.error.rule)
    requires OnlySeeded(progs, AfterInsert(z, inserts), c.ext)
    ensures InsertionResult(progs, r, z, inserts, marks, c)
  {
    hide Sound, Layered, InsertUnblocked, NoContradiction, Grown, AfterInsert, AllEnabled, OnlySeeded, Violates;
    assert !InsertUnblocked(progs, z, inserts);
    if NegationFree(progs) {
      PositiveUnblocked(progs, z, inserts);
    }
  }

  /** With the marks intact no contradiction of the new model is missed, whatever is blocked. */
  lemma NoContradictionMissed(progs: seq<Prog>, r: Outcome, z: Snapshot, inserts: set<Quad>, marks: Marks, c: Snapshot)
    requires Layered(progs) && Sound(progs, z) && AllMarked(progs, marks) && InsertionResult(progs, r, z, inserts, marks, c)
    requires !NoContradiction(AllEnabled(progs), Perfect(AllEnabled(progs), AfterInsert(z, inserts), |progs|))
    ensures r.Err?
  {
    if r.Ok? {
      SoundReaches(progs, c);
    }
  }
}
