/** Incremental maintenance of the materialised closure. */
module Incremental {
  import opened Syntax
  import opened Clauses
  import opened Grounding
  import opened QuadTables
  import opened Joins
  import opened DerivedFrom
  import opened RuleIndex
  import opened Seminaive
  import opened Maintenance
  import opened Reasoner
  import opened States
  import opened Insertion
  import opened Undo
  import opened Negation
  import opened ReverseIndex
  import opened Rounds
  import opened Deletion
  import opened Retraction
  import opened Unification
  import opened Reactivation
  import opened Appending
  import opened Refusals
  import opened RuleSort
  import SortRun
  import opened Stratifier
  import opened Evaluation
  import opened Runs

  class IncrementalReasoner {
    /** One program per stratum, in stratum order. */
    var programs: seq<DatalogProgram>

    /** The index objects of the programs. */
    ghost var records: set<DerivedFromIndex>

    ghost predicate Distinct()
      reads `programs, `records, programs`derivedFrom
    {
      && (forall i | 0 <= i < |programs| :: programs[i].derivedFrom in records)
      && (forall i, j | 0 <= i < j < |programs| ::
            programs[i] != programs[j] && programs[i].derivedFrom != programs[j].derivedFrom)
    }

    ghost predicate Valid()
      reads this, programs, records
      ensures Valid() ==> Distinct()
    {
      Distinct() && forall i | 0 <= i < |programs| :: ProgramOk(i)
    }

    ghost predicate ProgramOk(i: nat)
      requires Distinct() && i < |programs|
      reads this, programs, records
    {
      programs[i].Valid() && programs[i].stratum == i && AllRestricted(programs[i].rules)
    }

    ghost function Progs(): (ps: seq<Prog>)
      reads this, programs
      ensures |ps| == |programs|
    {
      seq(|programs|, i requires 0 <= i < |programs| reads this, programs => programs[i].Value())
    }

    ghost function Indexes(): (ixs: seq<Index>)
      requires Distinct()
      reads this, programs, records
      ensures |ixs| == |programs|
    {
      seq(|programs|, i requires Distinct() && 0 <= i < |programs| reads this, programs, records => programs[i].derivedFrom.index)
    }

    /** Every program's reverse index covers its rules with a NOT atom. */
    ghost predicate MarksIntact()
      requires Distinct()
      reads `programs, `records, programs`derivedFrom, records`negativelyTriggeringRules
    {
      forall i | 0 <= i < |programs| :: MarksOk(programs[i].rules, programs[i].derivedFrom.negativelyTriggeringRules)
    }

    /** The first `n` reverse indexes cover no rule. */
    ghost predicate NoMarks(n: nat)
      requires Distinct() && n <= |programs|
      reads `programs, `records, programs`derivedFrom, records`negativelyTriggeringRules
    {
      forall i | 0 <= i < n :: programs[i].derivedFrom.negativelyTriggeringRules == {}
    }

    /** What each reverse index covers. */
    ghost function MarksNow(): (marks: Marks)
      requires Distinct()
      reads `programs, `records, programs`derivedFrom, records`negativelyTriggeringRules
      ensures |marks| == |programs|
    {
      MarksUpTo(|programs|)
    }

    ghost function MarksUpTo(n: nat): (marks: Marks)
      requires Distinct() && n <= |programs|
      reads `programs, `records, programs`derivedFrom, records`negativelyTriggeringRules
      ensures |marks| == n && forall i | 0 <= i < n :: marks[i] == programs[i].derivedFrom.negativelyTriggeringRules
    {
      if n == 0 then [] else MarksUpTo(n - 1) + [programs[n - 1].derivedFrom.negativelyTriggeringRules]
    }

    lemma MarksAre()
      requires Distinct()
      ensures MarksIntact() <==> AllMarked(Progs(), MarksNow())
      ensures NoMarks(|programs|) <==> NoneMarked(MarksNow())
    {
      assert forall i | 0 <= i < |programs| :: Progs()[i].rules == programs[i].rules;
    }

    /** The state of a run: programs, snapshot, and whether the marks of NOT rules are intact. */
    ghost function StateNow(table: QuadTable): (s: State)
      requires Distinct()
      reads this, programs, records, table
      ensures s == State(Progs(), Now(table), MarksIntact())
    {
      State(Progs(), Now(table), MarksIntact())
    }

    lemma FormedNow(table: QuadTable)
      requires Valid() && table.Valid()
      ensures Formed(StateNow(table))
    {
      ValidValues(table);
    }

    lemma NoMarksYet()
      requires Distinct()
      ensures NoMarks(0)
    {
    }

    /** Lost marks matter only if there are NOT atoms. */
    lemma NoMarksNeeded()
      requires Distinct() && NoMarks(|programs|)
      ensures NegationFree(Progs()) ==> MarksIntact()
    {
      if NegationFree(Progs()) {
        forall i | 0 <= i < |programs| ensures MarksOk(programs[i].rules, programs[i].derivedFrom.negativelyTriggeringRules) {
          assert Progs()[i].rules == programs[i].rules;
        }
      }
    }

    ghost function Now(table: QuadTable): (z: Snapshot)
      requires Distinct()
      reads this, programs, records, table
      ensures |z.indexes| == |programs|
    {
      Snapshot(table.quadList, table.Extensional(), Indexes())
    }

    lemma ValidValues(table: QuadTable)
      requires Valid() && table.Valid()
      ensures Layered(Progs()) && WellFormed(Progs(), Now(table))
    {
      ReverseNoDup(table.quadList, table.fourKeysIndex);
      forall i | 0 <= i < |programs|
        ensures IndexValid(Indexes()[i]) && IndexOk(Progs()[i].rules, Indexes()[i])
        ensures Progs()[i].stratum == i && AllRestricted(Progs()[i].rules)
      {
        assert ProgramOk(i);
      }
    }

    lemma NowParts(table: QuadTable)
      requires Distinct()
      ensures Now(table).list == table.quadList && Now(table).ext == table.Extensional() && Now(table).indexes == Indexes()
    {
    }

    constructor FromPrograms(programs: seq<DatalogProgram>, ghost strata: seq<seq<Rule>>)
      requires Built(programs, 0, strata) && forall i | 0 <= i < |strata| :: AllRestricted(strata[i])
      ensures this.programs == programs && Valid() && MarksIntact()
      ensures records == set p | p in programs :: p.derivedFrom
      ensures Progs() == ProgsOf(strata) && EmptyRecords(Indexes())
    {
      this.programs := programs;
      records := set p | p in programs :: p.derivedFrom;
      new;
      hide *;
      BuiltDistinct(strata);
      BuiltValid(strata);
      BuiltValues(strata);
    }

    lemma BuiltDistinct(strata: seq<seq<Rule>>)
      requires Built(programs, 0, strata) && records == set p | p in programs :: p.derivedFrom
      ensures Distinct()
    {
      hide DatalogProgram.Valid, MarksOk;
    }

    lemma BuiltValid(strata: seq<seq<Rule>>)
      requires Distinct() && Built(programs, 0, strata) && forall i | 0 <= i < |strata| :: AllRestricted(strata[i])
      ensures Valid() && MarksIntact()
    {
      hide DatalogProgram.Valid, AllRestricted, MarksOk;
    }

    lemma BuiltValues(strata: seq<seq<Rule>>)
      requires Distinct() && Built(programs, 0, strata)
      ensures Progs() == ProgsOf(strata) && EmptyRecords(Indexes())
    {
      hide DatalogProgram.Valid, MarksOk;
      assert Progs() == ProgsOf(strata);
    }

    /**
     * Stratify the rules and materialise from scratch.  Starting from asserted facts only, the state is
     * consistent from the first moment.
     */
    static method New(rules: seq<Rule>, table: QuadTable) returns (r: Outcome, reasoner: IncrementalReasoner?, ghost strata: seq<seq<Rule>>)
      requires table.Valid() && SafeMeansRestricted(rules)
      modifies table
      ensures table.Valid()
      ensures r.Ok? ==>
                && reasoner != null && fresh(reasoner) && fresh(reasoner.records) && (forall p | p in reasoner.programs :: fresh(p))
                && reasoner.Valid() && reasoner.MarksIntact()
                && OnceEach(rules, strata) && reasoner.Progs() == ProgsOf(strata)
                && (Stratifiable(rules) ==> Stratified(AllEnabled(reasoner.Progs())))
                && (old(table.Extensional()) == old(table.Stored()) ==>
                      Rebuilt(reasoner.Progs(), r, old(table.Extensional()), reasoner.Now(table)))
      ensures Stratifiable(rules) ==> r.Ok? || !r.error.NotStratifiable?
      ensures r.Ok? || r.error.ContradictionFound? ==> OnceEach(rules, strata) && Judged(ProgsOf(strata), r, old(table.Stored()))
      ensures r.Err? && r.error.ContradictionFound? && Stratifiable(rules) ==> Stratified(AllEnabled(ProgsOf(strata)))
      ensures r.Err? && r.error.UnsafeRule? ==> r.error.rule in rules && !IsSafeRule(r.error.rule)
      ensures AllRestricted(rules) ==> r.Ok? || !r.error.UnsafeRule?
      ensures r.Err? && r.error.NotStratifiable? <==> !SortRun.Sortable(Deduped(rules))
    {
      hide *;
      if AllRestricted(rules) { AllSafe(rules); }
      reasoner, strata := null, [];
      var parts;
      r, parts := Stratify(rules);
      if r.Err? {
        return;
      }
      strata := parts;
      var programs;
      r, programs := BuildPrograms(0, parts);
      if r.Err? {
        BuildError(r);
        OfStrata(rules, parts, r.error.rule);
        return;
      }
      forall i | 0 <= i < |parts| ensures AllRestricted(parts[i]) {
        StratumRestricted(rules, parts, i);
      }
      reasoner := new IncrementalReasoner.FromPrograms(programs, parts);
      reasoner.NowParts(table);
      ghost var a := reasoner.Now(table);
      TableParts(table);
      BareStart(a);
      reasoner.ValidValues(table);
      var tracked;
      r, tracked := reasoner.Sweep(table);
      SweepParts(reasoner.Progs(), r, a, reasoner.Now(table), tracked);
      if a.ext == a.Stored() {
        BareSwept(reasoner.Progs(), r, a.ext, a, reasoner.Now(table), tracked);
      }
    }

    /** Materialise one program; the records of the others stay as they are. */
    method RunProgram(i: nat, table: QuadTable) returns (r: Outcome, log: seq<Entry>)
      requires Valid() && table.Valid() && i < |programs|
      modifies table, records`index, records`byRule
      ensures Valid() && table.Valid() && Progs() == old(Progs())
      ensures RanProgram(Progs(), i, r, old(Now(table)), Now(table), log)
    {
      hide RanFrom, Materialised, RuleMapOk, NegRuleMapOk, IndexOk, IndexValid, CountsOk, QuadTable.Valid, Contradicted, Enabled, Recorded, AllRestricted;
      assert ProgramOk(i);
      ghost var a := Now(table);
      r, log := programs[i].MaterialiseSeminaiveTracked(table);
      ghost var index' := programs[i].derivedFrom.index;
      assert Now(table).indexes == a.indexes[i := index'];
      assert Progs()[i] == programs[i].Value();
      assert RanFrom(Progs()[i], a.list, a.ext, a.indexes[i], table.quadList, table.Extensional(), index', log);
      assert r.Ok? ==> Materialised(Enabled(Progs()[i]), a.Stored(), Recorded(Progs()[i], a.indexes[i]), table.Stored(), Recorded(Progs()[i], index'));
      assert r.Err? ==> r.error.ContradictionFound? && Contradicted(Progs()[i], table.Stored(), r.error.rule);
      forall j | 0 <= j < |programs| ensures ProgramOk(j) {
        assert old(ProgramOk(j));
      }
    }

    /** Materialise every program in stratum order, logging the new records of each. */
    method Sweep(table: QuadTable) returns (r: Outcome, tracked: seq<seq<Entry>>)
      requires Valid() && table.Valid()
      modifies table, records`index, records`byRule
      ensures Valid() && table.Valid() && Progs() == old(Progs())
      ensures SweepResult(Progs(), r, old(Now(table)), Now(table), tracked)
    {
      ghost var progs, a := Progs(), Now(table);
      ValidValues(table);
      hide SweptSoFar, SweepResult, RanProgram, Layered, WellFormed, ProgramOk, QuadTable.Valid, Progs, Now, Indexes;
      SweptSoFarStart(progs, a);
      r, tracked := Ok, [];
      for i := 0 to |programs|
        invariant Valid() && table.Valid() && r.Ok? && Progs() == progs
        invariant SweptSoFar(progs, i, a, Now(table), tracked)
      {
        ghost var b := Now(table);
        var log;
        r, log := RunProgram(i, table);
        SweptSoFarOn(progs, i, a, b, tracked, r, Now(table), log);
        tracked := tracked + [log];
        if r.Err? {
          return;
        }
      }
      SweptSoFarEnd(progs, a, Now(table), tracked);
    }

    // ---- Undo ----

    /** Unrecord the entries of one program's log. */
    method UnrecordAll(i: nat, log: seq<Entry>)
      requires Valid() && i < |programs|
      modifies records`index, records`byRule
      ensures Valid() && Progs() == old(Progs())
      ensures Indexes() == old(Indexes())[i := DropAll(old(Indexes())[i], log)]
    {
      ghost var indexes0 := Indexes();
      var index := programs[i].derivedFrom;
      assert ProgramOk(i);
      hide CountsOk, RuleMapOk, NegRuleMapOk, AllRestricted;
      for k := 0 to |log|
        invariant index.Valid() && index.index == DropAll(indexes0[i], log[..k])
        invariant forall d | d in records && d != index :: unchanged(d)
      {
        index.Unrecord(log[k].0, log[k].1);
        assert log[..k + 1][..k] == log[..k];
      }
      assert log[..|log|] == log;
      DropAllIndexOk(programs[i].rules, indexes0[i], log);
      assert Indexes() == indexes0[i := index.index];
      forall j | 0 <= j < |programs| ensures ProgramOk(j) {
        assert old(ProgramOk(j));
      }
    }

    /** Unrecord every log and forget what was appended after the first `quadStart` quads. */
    method UndoInsertions(table: QuadTable, quadStart: nat, tracked: seq<seq<Entry>>)
      requires Valid() && table.Valid() && |tracked| <= |programs| && quadStart <= |table.quadList|
      modifies table, records`index, records`byRule
      ensures Valid() && table.Valid() && Progs() == old(Progs())
      ensures Now(table) == Undone(old(Now(table)), quadStart, tracked)
    {
      hide QuadTable.Valid, ProgramOk;
      for i := 0 to |tracked|
        modifies records`index, records`byRule
        invariant Valid() && table.Valid()
        invariant Indexes() == Unlogged(old(Indexes()), tracked[..i])
      {
        UnrecordAll(i, tracked[i]);
      }
      assert tracked[..|tracked|] == tracked;
      table.TruncateTo(quadStart);
    }

    // ---- Insertion ----

    /** Materialise one program from an explicit first delta. */
    method RunProgramFromFacts(i: nat, table: QuadTable, delta: seq<Quad>) returns (r: Outcome, log: seq<Entry>)
      requires Valid() && table.Valid() && i < |programs|
      modifies table, records`index, records`byRule
      ensures Valid() && table.Valid() && Progs() == old(Progs())
      ensures RanProgramFromFacts(Progs(), i, Elements(delta), r, old(Now(table)), Now(table), log)
    {
      hide RanFromFacts, Materialised, RuleMapOk, NegRuleMapOk, IndexOk, IndexValid, CountsOk, QuadTable.Valid, Contradicted, Enabled, Recorded, AllRestricted, FactsStored, Primed;
      assert ProgramOk(i);
      ghost var a := Now(table);
      r, log := programs[i].MaterialiseSeminaiveTrackedFromFacts(table, delta);
      ghost var index' := programs[i].derivedFrom.index;
      ghost var p := Progs()[i];
      assert Now(table).indexes == a.indexes[i := index'];
      assert p == programs[i].Value();
      assert RanFromFacts(p, Elements(delta), a.list, a.ext, a.indexes[i], table.quadList, table.Extensional(), index', log);
      assert r.Ok? && FactsStored(p, a.Stored()) && Primed(p, a.Stored() + Elements(delta), Elements(delta), a.indexes[i]) ==>
                Materialised(Enabled(p), a.Stored() + Elements(delta), Recorded(p, a.indexes[i]), table.Stored(), Recorded(p, index'));
      assert r.Err? ==> r.error.ContradictionFound? && Contradicted(p, table.Stored(), r.error.rule);
      forall j | 0 <= j < |programs| ensures ProgramOk(j) {
        assert old(ProgramOk(j));
      }
    }

    /** The forward sweep of an insertion: each stratum's output joins the delta of the next. */
    method SweepFromFacts(table: QuadTable, inserts: seq<Quad>, ghost z: Snapshot)
      returns (r: Outcome, tracked: seq<seq<Entry>>, deltaFacts: seq<Quad>)
      requires Valid() && table.Valid()
      requires WellFormed(Progs(), z) && Inserted(z, Elements(inserts), Now(table))
      modifies table, records`index, records`byRule
      ensures Valid() && table.Valid() && Progs() == old(Progs())
      ensures Extended(Progs(), old(Now(table)), Now(table), tracked)
      ensures r.Ok? ==> Forwarded(Progs(), |programs|, z, old(Now(table)), Now(table), tracked, Elements(deltaFacts))
      ensures r.Err? ==> ForwardStops(Progs(), z, old(Now(table)).Stored(), r.error)
    {
      hide *;
      ghost var progs, a := Progs(), Now(table);
      ValidValues(table);
      ForwardStart(progs, z, a, Elements(inserts));
      ExtendedStart(progs, a);
      r, tracked, deltaFacts := Ok, [], inserts;
      for i := 0 to |programs|
        invariant Valid() && table.Valid() && r.Ok? && Progs() == progs
        invariant Extended(progs, a, Now(table), tracked)
        invariant Forwarded(progs, i, z, a, Now(table), tracked, Elements(deltaFacts))
      {
        ghost var b := Now(table);
        var log;
        r, log := RunProgramFromFacts(i, table, deltaFacts);
        ForwardOn(progs, i, z, a, b, tracked, Elements(deltaFacts), r, Now(table), log);
        ConcatElements(deltaFacts, Heads(log));
        deltaFacts := deltaFacts + Heads(log);
        tracked := tracked + [log];
        if r.Err? {
          return;
        }
      }
    }

    /**
     * The first phase of an insertion, with its exact rollback.  From a sound state it fails exactly when the
     * model of everything stored and the inserts is contradictory.
     */
    method InsertForward(table: QuadTable, inserts: seq<Quad>) returns (r: Outcome, deltaFacts: seq<Quad>)
      requires Valid() && table.Valid()
      modifies table, records`index, records`byRule
      ensures Valid() && table.Valid() && Progs() == old(Progs())
      ensures r.Err? ==> r.error.ContradictionFound? && Now(table) == old(Now(table))
      ensures Sound(Progs(), old(Now(table))) ==> Verdict(Progs(), r, Grown(Progs(), old(Now(table)), Elements(inserts)))
      ensures r.Ok? ==> OnlySeeded(Progs(), AfterInsert(old(Now(table)), Elements(inserts)), table.Extensional())
      ensures MarksNow() == old(MarksNow())
      ensures r.Ok? && Sound(Progs(), old(Now(table))) ==>
                && PendingState(Progs(), Now(table), Elements(deltaFacts), Missed(MarksNow()))
                && GrownTo(Progs(), old(Now(table)), Elements(inserts), Now(table))
    {
      hide *;
      ghost var progs, z := Progs(), Now(table);
      ValidValues(table);
      NowParts(table);
      var quadStart := AddInserts(table, inserts);
      ghost var a := Now(table);
      var tracked;
      r, tracked, deltaFacts := SweepFromFacts(table, inserts, z);
      ghost var b := Now(table);
      NowParts(table);
      ExtendedSeeds(progs, a, b, tracked);
      InsertedFlags(progs, z, Elements(inserts), a);
      if r.Err? {
        StopIsContradiction(progs, z, a.Stored(), r.error);
        UndoInserted(progs, z, a, b, tracked);
        UndoInsertions(table, quadStart, tracked);
        if Sound(progs, z) {
          ForwardVerdict(progs, r.error, z, Elements(inserts), a);
          ErrIs(r);
        }
        return;
      }
      OkIs(r);
      if Sound(progs, z) {
        ForwardEnd(progs, z, Elements(inserts), a, b, tracked, Elements(deltaFacts), Missed(MarksNow()));
        InsertionExact(progs, z, Elements(inserts), a, b, tracked, Elements(deltaFacts));
        IsGrown(progs, z, Elements(inserts), b);
        FineIs(progs, Grown(progs, z, Elements(inserts)));
      }
    }

    /** Add the inserts as asserted facts; the position where they start is the rollback point. */
    method AddInserts(table: QuadTable, inserts: seq<Quad>) returns (quadStart: nat)
      requires Valid() && table.Valid()
      modifies table
      ensures Valid() && table.Valid() && quadStart == |old(table.quadList)|
      ensures Inserted(old(Now(table)), Elements(inserts), Now(table))
    {
      quadStart := table.quadCount;
      hide ProgramOk, ReverseOk, QuadTable.IndexesOf, QuadTable.Extensional;
      AddFacts(table, inserts);
    }

    // ---- Removing quads and their records ----

    /** Drop one program's records of `q`. */
    method DropRecords(i: nat, q: Quad)
      requires Valid() && i < |programs|
      modifies records`index, records`byRule
      ensures Valid() && Progs() == old(Progs())
      ensures Indexes() == old(Indexes())[i := old(Indexes())[i] - {q}]
    {
      ghost var indexes0 := Indexes();
      var index := programs[i].derivedFrom;
      assert ProgramOk(i);
      hide CountsOk, RuleMapOk, NegRuleMapOk, AllRestricted, IndexValid;
      index.Remove(q);
      DropIndexOk(programs[i].rules, indexes0[i], q);
      assert Indexes() == indexes0[i := index.index];
      forall j | 0 <= j < |programs| ensures ProgramOk(j) {
        assert old(ProgramOk(j));
      }
    }

    /** Remove one quad from the store and from every program's records. */
    method DropQuad(table: QuadTable, q: Quad)
      requires Valid() && table.Valid()
      modifies table, records`index, records`byRule
      ensures Valid() && table.Valid() && Progs() == old(Progs())
      ensures Dropped(old(Now(table)), {q}, Now(table))
    {
      hide ProgramOk, ReverseOk, QuadTable.IndexesOf;
      table.RemoveQuad(q);
      assert NoDup(table.quadList) by { ReverseNoDup(table.quadList, table.fourKeysIndex); }
      ghost var indexes0 := Indexes();
      for i := 0 to |programs|
        modifies records`index, records`byRule
        invariant Valid() && table.Valid()
        invariant forall j | 0 <= j < |programs| :: Indexes()[j] == if j < i then indexes0[j] - {q} else indexes0[j]
      {
        DropRecords(i, q);
      }
    }

    /** Remove every quad of `pd`, in any order. */
    method DropQuads(table: QuadTable, pd: set<Quad>)
      requires Valid() && table.Valid()
      modifies table, records`index, records`byRule
      ensures Valid() && table.Valid() && Progs() == old(Progs())
      ensures Dropped(old(Now(table)), pd, Now(table))
    {
      ghost var a := Now(table);
      ValidValues(table);
      DroppedNone(Progs(), a);
      hide ProgramOk, QuadTable.Valid, Dropped, Now;
      var todo := pd;
      while todo != {}
        invariant Valid() && table.Valid() && todo <= pd
        invariant Dropped(a, pd - todo, Now(table))
        decreases todo
      {
        var q :| q in todo;
        ghost var b, done := Now(table), pd - todo;
        DropQuad(table, q);
        DroppedTrans(a, done, b, {q}, Now(table));
        todo := todo - {q};
        assert pd - todo == done + {q};
      }
      assert pd - todo == pd;
    }

    // ---- Over-deletion ----

    /** The reverse witness index over every program's records. */
    method BuildReverseIndex() returns (rev: Reverse)
      requires Valid()
      ensures IsReverse(rev, AllRecorded(Progs(), Indexes()))
    {
      ghost var progs, indexes := Progs(), Indexes();
      assert Layered(progs) && forall i | 0 <= i < |progs| :: IndexOk(progs[i].rules, indexes[i]) by {
        forall i | 0 <= i < |programs| ensures IndexOk(progs[i].rules, indexes[i]) && progs[i].stratum == i && AllRestricted(progs[i].rules) {
          assert ProgramOk(i);
        }
      }
      hide Feeds, ProgramOk, Layered, IndexOk, DependentsOf;
      rev := map[];
      assert forall w :: DependentsOf(rev, w) == [] by { NoDependents(); }
      for i := 0 to |programs|
        invariant forall w, q :: q in DependentsOf(rev, w) <==> FeedsBelow(indexes, i, w, q)
      {
        assert indexes[i] == programs[i].derivedFrom.index;
        rev := EnterIndex(rev, programs[i].derivedFrom.index);
        forall w, q ensures FeedsBelow(indexes, i + 1, w, q) <==> FeedsBelow(indexes, i, w, q) || Feeds(indexes[i], w, q) {
          FeedsBelowNext(indexes, i, w, q);
        }
      }
      ReverseOfAll(progs, indexes, rev);
    }

    /** The falsified quads with everything that depends on them, asserted facts excepted. */
    method CascadePd(table: QuadTable, seeds: set<Quad>) returns (pd: set<Quad>)
      requires Valid() && table.Valid()
      ensures pd == Cascade(AllRecorded(Progs(), Now(table).indexes), Now(table).ext, seeds - Now(table).ext)
    {
      hide *;
      var rev := BuildReverseIndex();
      NowParts(table);
      var work := NotAsserted(table, seeds);
      ghost var d, z := AllRecorded(Progs(), Now(table).indexes), Now(table);
      SeedSet(work);
      pd := set q | q in work;
      pd := Search(rev, table, true, pd, work, d);
      CascadeSearched(d, z.ext, seeds - z.ext, pd);
    }

    // ---- Negation ----

    /** Every derived quad whose recorded derivation, by an enabled and marked rule, one of `facts` falsifies. */
    method NegationInvalidatedSeeds(facts: seq<Quad>) returns (seeds: set<Quad>)
      requires Valid()
      ensures SeedsFor(Progs(), Indexes(), MarksNow(), Elements(facts), seeds)
    {
      hide *;
      ghost var progs, indexes, marks := Progs(), Indexes(), MarksNow();
      SeedsForNone(progs, indexes, marks);
      assert Elements(facts[..0]) == {} by { ElementsNone(facts); }
      seeds := {};
      for k := 0 to |facts|
        invariant SeedsFor(progs, indexes, marks, Elements(facts[..k]), seeds)
      {
        var found := FactSeeds(facts[k]);
        SeedsForNext(progs, indexes, marks, Elements(facts[..k]), seeds, facts[k], found);
        ElementsTake(facts, k);
        seeds := seeds + found;
      }
      assert facts[..|facts|] == facts;
    }

    method FactSeeds(fact: Quad) returns (seeds: set<Quad>)
      requires Valid()
      ensures forall q :: q in seeds <==> BlockedBelow(Progs(), Indexes(), MarksNow(), |Progs()|, fact, q)
    {
      ghost var progs, indexes, marks := Progs(), Indexes(), MarksNow();
      hide BlockedRecord, MarkedBlocked, MarksOk, RuleMapOk, NegRuleMapOk, IndexOk, DerivedFromIndex.Valid;
      seeds := {};
      for i := 0 to |programs|
        invariant forall q :: q in seeds <==> BlockedBelow(progs, indexes, marks, i, fact, q)
      {
        assert ProgramOk(i);
        var found := ProgramSeeds(programs[i], fact);
        forall q ensures q in seeds + found <==> BlockedBelow(progs, indexes, marks, i + 1, fact, q) {
          BlockedBelowNext(progs, indexes, marks, i, fact, q);
        }
        seeds := seeds + found;
      }
    }

    /** Remove the falsified quads and everything that depends on them. */
    method RetractCascade(table: QuadTable, seeds: set<Quad>) returns (ghost pd: set<Quad>)
      requires Valid() && table.Valid()
      modifies table, records`index, records`byRule
      ensures Valid() && table.Valid() && Progs() == old(Progs())
      ensures pd == Cascade(AllRecorded(Progs(), old(Now(table)).indexes), old(Now(table)).ext, seeds - old(Now(table)).ext)
      ensures Dropped(old(Now(table)), pd, Now(table))
    {
      hide *;
      var removed := CascadePd(table, seeds);
      DropQuads(table, removed);
      pd := removed;
    }

    /** One round: remove the cascade of the seeds, sweep everything, and report what the sweep derived. */
    method RetractRound(table: QuadTable, seeds: set<Quad>, ghost check: set<Quad>, ghost round: nat) returns (r: Outcome, newDelta: seq<Quad>)
      requires Valid() && table.Valid()
      requires RoundState(Progs(), Now(table), check, round, Missed(MarksNow())) && round <= |programs|
      requires BlockedHeads(AllRecorded(Progs(), Now(table).indexes), Now(table).ext, check, seeds, Missed(MarksNow()))
      modifies table, records`index, records`byRule
      ensures Valid() && table.Valid() && Progs() == old(Progs()) && MarksNow() == old(MarksNow())
      ensures OnlySeeded(Progs(), old(Now(table)).ext, Now(table).ext)
      ensures r.Ok? ==> RoundState(Progs(), Now(table), Elements(newDelta), round + 1, Missed(MarksNow()))
      ensures r.Err? ==> r.error.ContradictionFound? && Violates(Progs(), Now(table).Stored(), r.error.rule)
      ensures Sound(Progs(), old(Now(table))) ==> r.Ok? && Now(table).Stored() == old(Now(table)).Stored() && Sound(Progs(), Now(table))
    {
      hide *;
      ghost var progs, b := Progs(), Now(table);
      ValidValues(table);
      ghost var pd := RetractCascade(table, seeds);
      ghost var mid := Now(table);
      var tracked;
      r, tracked := Sweep(table);
      newDelta := AllHeads(tracked);
      RoundNext(progs, r, b, check, seeds, pd, mid, Now(table), tracked, Elements(newDelta), round, Missed(MarksNow()));
    }

    /**
     * The second phase of an insertion: retract what the new facts falsify and everything that depends
     * on it, re-derive, and check what that derived, until nothing is found to be falsified.  Each round
     * settles one more stratum, so the loop ends.  Only marked rules are searched.  A failure leaves a store
     * that violates the rule it names; from a sound state there is none.
     */
    method RetractNegationInvalidated(table: QuadTable, deltaFacts: seq<Quad>) returns (r: Outcome)
      requires Valid() && table.Valid()
      requires PendingState(Progs(), Now(table), Elements(deltaFacts), Missed(MarksNow()))
      modifies table, records`index, records`byRule
      ensures Valid() && table.Valid() && Progs() == old(Progs()) && MarksNow() == old(MarksNow())
      ensures OnlySeeded(Progs(), old(Now(table)).ext, Now(table).ext)
      ensures r.Ok? ==> (Sound(Progs(), Now(table)) <==> NoneBlocked(Progs(), Now(table)))
      ensures r.Ok? ==> OnlyMissedBlocked(Progs(), Now(table), Missed(MarksNow()))
      ensures r.Ok? && AllMarked(Progs(), MarksNow()) ==> Sound(Progs(), Now(table))
      ensures NoneMarked(MarksNow()) ==> r.Ok? && Now(table) == old(Now(table))
      ensures r.Err? ==> r.error.ContradictionFound? && !NegationFree(Progs()) && Violates(Progs(), Now(table).Stored(), r.error.rule)
      ensures Sound(Progs(), old(Now(table))) ==> r.Ok? && Now(table).Stored() == old(Now(table)).Stored()
    {
      hide *;
      ghost var progs, z, marks := Progs(), Now(table), MarksNow();
      OnlySeededRefl(progs, z.ext);
      var checkFacts := deltaFacts;
      ghost var round := 0;
      RoundFirst(progs, z, Elements(deltaFacts), Missed(marks));
      while true
        invariant Valid() && table.Valid() && Progs() == progs && MarksNow() == marks
        invariant RoundState(progs, Now(table), Elements(checkFacts), round, Missed(marks)) && round <= |progs| + 1
        invariant OnlySeeded(progs, z.ext, Now(table).ext)
        invariant NoneMarked(marks) ==> Now(table) == z
        invariant Sound(progs, z) ==> Sound(progs, Now(table)) && Now(table).Stored() == z.Stored()
        decreases |progs| + 1 - round
      {
        ghost var b := Now(table);
        var seeds := RoundSeeds(table, checkFacts, round);
        if seeds == {} {
          return Ok;
        }
        r, checkFacts := RetractRound(table, seeds, Elements(checkFacts), round);
        OnlySeededTrans(progs, z.ext, b.ext, Now(table).ext);
        if r.Err? {
          return;
        }
        round := round + 1;
      }
    }

    /** The quads found falsified before a round; without any, only missed records can be blocked. */
    method RoundSeeds(table: QuadTable, facts: seq<Quad>, ghost round: nat) returns (seeds: set<Quad>)
      requires Valid() && table.Valid()
      requires RoundState(Progs(), Now(table), Elements(facts), round, Missed(MarksNow()))
      ensures BlockedHeads(AllRecorded(Progs(), Now(table).indexes), Now(table).ext, Elements(facts), seeds, Missed(MarksNow()))
      ensures seeds == {} ==> (Sound(Progs(), Now(table)) <==> NoneBlocked(Progs(), Now(table)))
      ensures seeds == {} ==> OnlyMissedBlocked(Progs(), Now(table), Missed(MarksNow()))
      ensures seeds == {} && AllMarked(Progs(), MarksNow()) ==> Sound(Progs(), Now(table))
      ensures NoneMarked(MarksNow()) ==> seeds == {}
      ensures seeds != {} ==> round <= |programs| && !NegationFree(Progs())
    {
      hide *;
      ghost var progs, b, marks := Progs(), Now(table), MarksNow();
      seeds := NegationInvalidatedSeeds(facts);
      ValidValues(table);
      NowParts(table);
      SeedsEnd(progs, marks, b, Elements(facts), seeds, round);
    }

    /**
     * Assert more facts, from a sound state.  With the marks of the NOT rules intact the store is again the
     * perfect model, now of the old and the inserted facts; without them, exactly when nothing recorded is
     * blocked.  A contradiction met while going forward rolls everything back; one met while retracting
     * leaves the asserted facts for a rebuild.  Without NOT atoms it fails exactly when the model of the old
     * and the inserted facts is contradictory.
     */
    method ApplyInsertions(table: QuadTable, inserts: seq<Quad>) returns (r: Outcome)
      requires Valid() && table.Valid() && Sound(Progs(), Now(table))
      modifies table, records`index, records`byRule
      ensures Valid() && table.Valid() && Progs() == old(Progs()) && MarksNow() == old(MarksNow()) && MarksIntact() == old(MarksIntact())
      ensures InsertionResult(Progs(), r, old(Now(table)), Elements(inserts), MarksNow(), Now(table))
      ensures NegationFree(Progs()) ==>
                Verdict(Progs(), r, Perfect(AllEnabled(Progs()), AfterInsert(old(Now(table)), Elements(inserts)), |programs|))
      ensures r.Ok? ==> Updated(old(StateNow(table)), InsertFacts(inserts), StateNow(table))
    {
      hide *;
      ghost var progs, z, marks := Progs(), Now(table), MarksNow();
      ValidValues(table);
      MarksAre();
      FormedNow(table);
      var deltaFacts;
      r, deltaFacts := InsertForward(table, inserts);
      MarksAre();
      if r.Err? {
        InsertionRefused(progs, r, z, Elements(inserts), marks);
        InsertionPositive(progs, r, z, Elements(inserts), marks, Now(table));
        return;
      }
      ghost var b := Now(table);
      NowParts(table);
      VerdictParts(progs, r, Grown(progs, z, Elements(inserts)));
      r := RetractNegationInvalidated(table, deltaFacts);
      OnlySeededTrans(progs, AfterInsert(z, Elements(inserts)), b.ext, Now(table).ext);
      MarksAre();
      if r.Ok? {
        FormedNow(table);
        OkIs(r);
        InsertedOk(progs, z, Elements(inserts), marks, b, Now(table));
        InsertedIsUpdate(old(StateNow(table)), inserts, marks, StateNow(table));
      } else {
        InsertionStuck(progs, r, z, Elements(inserts), marks, b, Now(table));
      }
      InsertionPositive(progs, r, z, Elements(inserts), marks, Now(table));
    }

    // ---- Rebuilding ----

    /** Forget one program's records - and, with the default value, its marks. */
    method ResetRecords(i: nat)
      requires Valid() && i < |programs|
      modifies records
      ensures Valid() && Progs() == old(Progs())
      ensures Indexes() == old(Indexes())[i := map[]]
      ensures old(NoMarks(i)) ==> NoMarks(i + 1)
    {
      ghost var indexes0 := Indexes();
      assert ProgramOk(i);
      hide CountsOk, RuleMapOk, NegRuleMapOk, AllRestricted, IndexValid;
      programs[i].derivedFrom.Reset();
      assert Indexes() == indexes0[i := map[]];
      forall j | 0 <= j < |programs| ensures ProgramOk(j) {
        assert old(ProgramOk(j));
      }
    }

    /** Keep only the asserted facts in the store. */
    method KeepAsserted(table: QuadTable)
      requires Valid() && table.Valid()
      modifies table
      ensures programs == old(programs) && records == old(records)
      ensures Valid() && table.Valid() && Progs() == old(Progs())
      ensures NoDup(table.quadList) && Now(table).Stored() == old(Now(table)).ext == Now(table).ext && Now(table).indexes == old(Now(table)).indexes
    {
      hide ProgramOk, ReverseOk, QuadTable.IndexesOf;
      var baseFacts := table.ExtensionalQuads();
      table.Rebuild(baseFacts);
    }

    /** Reset and materialise the programs one after the other. */
    method ResetAndSweep(table: QuadTable) returns (r: Outcome)
      requires Valid() && table.Valid()
      requires Now(table).ext == Now(table).Stored()
      modifies table, records
      ensures programs == old(programs) && records == old(records)
      ensures Valid() && table.Valid() && Progs() == old(Progs())
      ensures Rebuilt(Progs(), r, old(Now(table)).ext, Now(table)) && (r.Ok? ==> NoMarks(|programs|))
    {
      hide *;
      ghost var progs, base := Progs(), Now(table).ext;
      ghost var a := UpTo(Now(table), 0);
      ghost var tracked: seq<seq<Entry>> := [];
      ValidValues(table);
      ClearedBare(progs, Now(table));
      SweptSoFarStart(progs, a);
      NoMarksYet();
      r := Ok;
      for i := 0 to |programs|
        invariant Valid() && table.Valid() && r.Ok? && Progs() == progs
        invariant SweptSoFar(progs, i, a, UpTo(Now(table), i), tracked) && NoMarks(i)
      {
        ghost var b := Now(table);
        NowParts(table);
        ResetRecords(i);
        ghost var b' := Now(table);
        NowParts(table);
        var log;
        r, log := RunProgram(i, table);
        ClearedRun(progs, i, r, b, b', Now(table), log);
        SweptSoFarOn(progs, i, a, UpTo(b, i), tracked, r, UpTo(Now(table), i + 1), log);
        tracked := tracked + [log];
        if r.Err? {
          ErrRebuilt(progs, r, base, a, i + 1, Now(table), tracked);
          return;
        }
      }
      ClearedAll(Now(table));
      SweptSoFarEnd(progs, a, Now(table), tracked);
      BareSwept(progs, Ok, base, a, Now(table), tracked);
    }

    /** The fallback of a deletion: rebuild everything from the asserted facts that remain. */
    method FullRematerialise(table: QuadTable, deletes: seq<Quad>) returns (r: Outcome)
      requires Valid() && table.Valid()
      modifies table, records
      ensures Valid() && table.Valid() && Progs() == old(Progs())
      ensures Rebuilt(Progs(), r, old(Now(table)).ext - Elements(deletes), Now(table)) && (r.Ok? ==> NoMarks(|programs|))
    {
      hide *;
      Unassert(table, deletes);
      UnassertedParts(old(Now(table)), Elements(deletes), Now(table));
      KeepAsserted(table);
      r := ResetAndSweep(table);
    }

    /**
     * Rebuild the closure from the asserted facts, with every rule that was retracted staying retracted.
     * The marks of NOT rules are lost.
     */
    method RebuildFromBase(table: QuadTable) returns (r: Outcome)
      requires Valid() && table.Valid()
      modifies table, records
      ensures Valid() && table.Valid() && Progs() == old(Progs()) && NoMarks(|programs|)
      ensures Rebuilt(Progs(), r, old(Now(table)).ext, Now(table))
      ensures r.Ok? ==> Updated(old(StateNow(table)), RebuildAll, StateNow(table))
    {
      ghost var progs, base := Progs(), Now(table).ext;
      hide *;
      FormedNow(table);
      KeepAsserted(table);
      ResetAll(table);
      ghost var a := Now(table);
      var tracked;
      ValidValues(table);
      r, tracked := Sweep(table);
      BareSwept(progs, r, base, a, Now(table), tracked);
      FormedNow(table);
      NoMarksNeeded();
      if r.Ok? {
        RebuiltIsUpdate(old(StateNow(table)), r, StateNow(table));
      }
    }

    method ResetAll(table: QuadTable)
      requires Valid() && table.Valid()
      modifies records
      ensures Valid() && table.Valid() && Progs() == old(Progs())
      ensures NoDup(table.quadList) && Now(table).ext == Now(table).Stored() ==> Bare(Now(table).ext, Now(table))
      ensures Now(table).list == old(Now(table)).list && Now(table).ext == old(Now(table)).ext && NoMarks(|programs|)
    {
      hide ProgramOk, QuadTable.Valid, Progs;
      for i := 0 to |programs|
        invariant Valid() && table.Valid() && Progs() == old(Progs()) && NoMarks(i)
        invariant forall j | 0 <= j < i :: Indexes()[j] == map[]
      {
        ResetRecords(i);
      }
    }

    // ---- Deletion ----

    /** Remove one quad from the store alone; its records stay. */
    method UnassertOne(table: QuadTable, q: Quad)
      requires Valid() && table.Valid()
      modifies table
      ensures Valid() && table.Valid() && Progs() == old(Progs()) && MarksIntact() == old(MarksIntact())
      ensures Unasserted(old(Now(table)), {q}, Now(table))
    {
      hide ProgramOk, ReverseOk, QuadTable.IndexesOf;
      table.RemoveQuad(q);
      assert NoDup(table.quadList) by { ReverseNoDup(table.quadList, table.fourKeysIndex); }
    }

    method Unassert(table: QuadTable, deletes: seq<Quad>)
      requires Valid() && table.Valid()
      modifies table
      ensures Valid() && table.Valid() && Progs() == old(Progs()) && MarksIntact() == old(MarksIntact())
      ensures Unasserted(old(Now(table)), Elements(deletes), Now(table))
    {
      hide *;
      ghost var z := Now(table);
      ValidValues(table);
      UnassertedNone(Progs(), z, deletes);
      for k := 0 to |deletes|
        invariant Valid() && table.Valid() && Progs() == old(Progs()) && MarksIntact() == old(MarksIntact())
        invariant Unasserted(z, Elements(deletes[..k]), Now(table))
      {
        ghost var y := Now(table);
        UnassertOne(table, deletes[k]);
        UnassertedNext(z, Elements(deletes[..k]), y, deletes[k], Now(table));
        ElementsTake(deletes, k);
      }
      TakeAll(deletes);
    }

    /** Everything whose recorded derivation chain passes through a deleted quad. */
    method BackwardPhase(table: QuadTable, deletes: seq<Quad>) returns (pd: set<Quad>)
      requires Valid() && table.Valid()
      ensures pd == PossiblyDeleted(Progs(), Now(table), Elements(deletes))
    {
      hide *;
      var rev := BuildReverseIndex();
      NowParts(table);
      ghost var d := AllRecorded(Progs(), Now(table).indexes);
      pd := Search(rev, table, false, {}, deletes, d);
      SearchedIsPossiblyDeleted(Progs(), Now(table), Elements(deletes), pd);
    }

    /** How many quads have records, over all programs. */
    method CountDerived() returns (total: nat)
      requires Valid()
      ensures total == TotalDerived(Indexes())
    {
      ghost var indexes := Indexes();
      total := 0;
      for i := 0 to |programs|
        invariant total == TotalDerived(indexes[..i])
      {
        total := total + |programs[i].derivedFrom.index|;
        assert indexes[..i + 1][..i] == indexes[..i];
      }
      assert indexes[..|indexes|] == indexes;
    }

    /** The records every program has for one quad. */
    method CollectRecords(q: Quad) returns (found: seq<RemovedEntry>)
      requires Valid()
      ensures RecordsOf(Indexes(), q, |programs|, found)
    {
      ghost var indexes := Indexes();
      hide ProgramOk;
      found := [];
      for i := 0 to |programs|
        invariant RecordsOf(indexes, q, i, found)
      {
        assert indexes[i] == programs[i].derivedFrom.index;
        if q in programs[i].derivedFrom.index {
          found := found + [RemovedEntry(q, i, programs[i].derivedFrom.index[q])];
        }
      }
    }

    /** Remove the possibly-deleted quads, keeping their records for a rollback. */
    method DropQuadsKeeping(table: QuadTable, pd: set<Quad>) returns (removed: seq<RemovedEntry>)
      requires Valid() && table.Valid()
      modifies table, records`index, records`byRule
      ensures Valid() && table.Valid() && Progs() == old(Progs())
      ensures Dropped(old(Now(table)), pd, Now(table)) && Keeps(old(Now(table)).indexes, pd, removed)
    {
      ghost var progs, a := Progs(), Now(table);
      ValidValues(table);
      DroppedNone(progs, a);
      KeepsNone(a.indexes);
      removed := [];
      var todo := pd;
      assert pd - todo == {};
      hide Valid, QuadTable.Valid, Dropped, Now, Progs, Keeps, RecordsOf;
      while todo != {}
        invariant Valid() && table.Valid() && todo <= pd && Progs() == progs
        invariant Dropped(a, pd - todo, Now(table)) && Keeps(a.indexes, pd - todo, removed)
        decreases todo
      {
        var q :| q in todo;
        ghost var b, done := Now(table), pd - todo;
        NowParts(table);
        var found := CollectRecords(q);
        KeepsNext(a, done, removed, b, q, found);
        DropQuad(table, q);
        DroppedTrans(a, done, b, {q}, Now(table));
        removed := removed + found;
        todo := todo - {q};
        assert pd - todo == done + {q};
      }
      assert pd - todo == pd;
    }

    /** Record the kept derivations of one quad again. */
    method RestoreRecords(i: nat, q: Quad, ds: seq<Derivation>)
      requires Valid() && i < |programs| && ds != [] && NoDup(ds)
      requires q in Indexes()[i] ==> Indexes()[i][q] == ds
      requires forall d | d in ds :: EntryOk(Progs()[i].rules, q, d)
      modifies records`index, records`byRule
      ensures Valid() && Progs() == old(Progs())
      ensures Indexes() == old(Indexes())[i := old(Indexes())[i][q := ds]]
    {
      ghost var indexes0 := Indexes();
      var index := programs[i].derivedFrom;
      assert ProgramOk(i);
      hide CountsOk, RuleMapOk, NegRuleMapOk, AllRestricted, EntryOk;
      for k := 0 to |ds|
        invariant index.Valid()
        invariant index.index == if q in indexes0[i] || k == 0 then indexes0[i] else indexes0[i][q := ds[..k]]
        invariant forall d | d in records && d != index :: unchanged(d)
      {
        var isNew := index.Record(q, ds[k]);
        assert ds[..k + 1] == ds[..k] + [ds[k]];
        assert ds[k] !in ds[..k];
      }
      assert ds[..|ds|] == ds;
      if q in indexes0[i] { assert indexes0[i][q := ds] == indexes0[i]; }
      RestoredIndexOk(programs[i].rules, indexes0[i], q, ds);
      assert Indexes() == indexes0[i := index.index];
      forall j | 0 <= j < |programs| ensures ProgramOk(j) {
        assert old(ProgramOk(j));
      }
    }

    method RestoreAll(removed: seq<RemovedEntry>, ghost indexes0: seq<Index>, ghost pd: set<Quad>)
      requires Valid() && WellFormedIndexes(Progs(), indexes0)
      requires Keeps(indexes0, pd, removed) && Restoring(indexes0, pd, removed, 0, Indexes())
      modifies records`index, records`byRule
      ensures Valid() && Progs() == old(Progs())
      ensures Indexes() == indexes0
    {
      hide Valid, Restoring, Keeps, Progs, Indexes, WellFormedIndexes, EntryOk;
      for k := 0 to |removed|
        invariant Valid() && Progs() == old(Progs())
        invariant Restoring(indexes0, pd, removed, k, Indexes())
      {
        RestoreStep(indexes0, pd, removed, k, Indexes());
        KeptEntryOk(Progs(), indexes0, pd, removed, k);
        RestoreRecords(removed[k].program, removed[k].quad, removed[k].derivations);
      }
      RestoreEnd(indexes0, pd, removed, Indexes());
    }

    /** Put the dropped quads back as derived and the deleted ones as asserted. */
    method PutBackQuads(table: QuadTable, pd: set<Quad>, deletes: seq<Quad>)
      requires Valid() && table.Valid() && Now(table).Stored() !! pd + Elements(deletes)
      modifies table
      ensures Valid() && table.Valid() && Progs() == old(Progs())
      ensures Now(table).indexes == old(Now(table)).indexes
      ensures Now(table).Stored() == old(Now(table)).Stored() + pd + Elements(deletes)
      ensures Now(table).ext == old(Now(table)).ext + (Elements(deletes) - pd)
    {
      hide ProgramOk, ReverseOk, QuadTable.IndexesOf;
      ghost var stored0, ext0 := table.Stored(), table.Extensional();
      var todo := pd;
      while todo != {}
        invariant Valid() && table.Valid() && todo <= pd
        invariant table.Stored() == stored0 + (pd - todo) && table.Extensional() == ext0
        decreases todo
      {
        var q :| q in todo;
        ghost var list1 := table.quadList;
        table.AddIntensionalQuad(q);
        ElementsSnoc(list1, q);
        todo := todo - {q};
      }
      ghost var ext1 := table.Extensional();
      AddFacts(table, deletes);
    }

    /** Undo a failed re-derivation and restore what the deletion had removed. */
    method UndoDeletions(table: QuadTable, redeltaStart: nat, tracked: seq<seq<Entry>>, pd: set<Quad>, deletes: seq<Quad>,
                         removed: seq<RemovedEntry>, ghost z: Snapshot, ghost y: Snapshot, ghost mid: Snapshot)
      requires Valid() && table.Valid() && WellFormed(Progs(), z)
      requires Unasserted(z, Elements(deletes), y) && Dropped(y, pd, mid) && Keeps(z.indexes, pd, removed)
      requires redeltaStart == |mid.list| && Extended(Progs(), mid, Now(table), tracked)
      modifies table, records`index, records`byRule
      ensures Valid() && table.Valid() && Progs() == old(Progs())
      ensures RolledBack(z, Elements(deletes), pd, Now(table))
    {
      UndoRestores(Progs(), mid, Now(table), tracked);
      MidDisjoint(z, Elements(deletes), y, pd, mid);
      DroppedRestoring(z, Elements(deletes), y, pd, mid, removed);
      WellFormedIndexed(Progs(), z);
      hide *;
      UndoInsertions(table, redeltaStart, tracked);
      PutBackQuads(table, pd, deletes);
      NowParts(table);
      ghost var b := Now(table);
      RestoreAll(removed, z.indexes, pd);
      NowParts(table);
      PutBackAll(z, Elements(deletes), y, pd, mid, Now(table));
    }

    /** Remove the possibly-deleted quads and re-derive what still stands. */
    method ForwardPhase(table: QuadTable, pd: set<Quad>, deletes: seq<Quad>, ghost z: Snapshot) returns (r: Outcome)
      requires Valid() && table.Valid() && WellFormed(Progs(), z)
      requires Unasserted(z, Elements(deletes), Now(table))
      modifies table, records`index, records`byRule
      ensures Valid() && table.Valid() && Progs() == old(Progs()) && MarksIntact() == old(MarksIntact())
      ensures ForwardPhased(Progs(), r, z, Elements(deletes), old(Now(table)), pd, Now(table))
    {
      hide *;
      ghost var progs, y := Progs(), Now(table);
      UnassertedParts(z, Elements(deletes), y);
      var removed := DropQuadsKeeping(table, pd);
      ghost var mid := Now(table);
      NowParts(table);
      var redeltaStart := |table.quadList|;
      var tracked;
      r, tracked := Sweep(table);
      SweepParts(progs, r, mid, Now(table), tracked);
      if r.Err? {
        UndoDeletions(table, redeltaStart, tracked, pd, deletes, removed, z, y, mid);
        ForwardPhasedErr(progs, r, z, Elements(deletes), y, pd, mid, Now(table));
        return;
      }
      ForwardPhasedOk(progs, z, Elements(deletes), y, pd, mid, Now(table), tracked);
    }

    /** Retract asserted facts, incrementally or - when too much is possibly deleted - by a rebuild. */
    method ApplyDeletions(table: QuadTable, deletes: seq<Quad>) returns (r: Outcome)
      requires Valid() && table.Valid()
      modifies table, records
      ensures Valid() && table.Valid() && Progs() == old(Progs())
      ensures DeletionResult(Progs(), r, old(Now(table)), Elements(deletes), Now(table))
      ensures r.Ok? ==> Updated(old(StateNow(table)), DeleteFacts(deletes), StateNow(table))
    {
      hide *;
      FormedNow(table);
      MarksKeptIs(StateNow(table));
      if deletes == [] {
        NothingDeleted(Progs(), Now(table), deletes);
        DeletionIsUpdate(old(StateNow(table)), Ok, deletes, StateNow(table));
        return Ok;
      }
      r := DeleteFromStore(table, deletes);
      FormedNow(table);
      if r.Ok? {
        DeletionIsUpdate(old(StateNow(table)), r, deletes, StateNow(table));
      }
    }

    method DeleteFromStore(table: QuadTable, deletes: seq<Quad>) returns (r: Outcome)
      requires Valid() && table.Valid()
      modifies table, records
      ensures Valid() && table.Valid() && Progs() == old(Progs())
      ensures DeletionResult(Progs(), r, old(Now(table)), Elements(deletes), Now(table))
      ensures FallsBack(TotalDerived(old(Now(table)).indexes), |PossiblyDeleted(Progs(), old(Now(table)), Elements(deletes))|) || MarksIntact() == old(MarksIntact())
      ensures r.Ok? && NegationFree(Progs()) && old(MarksIntact()) ==> MarksIntact()
    {
      hide *;
      NowParts(table);
      var pd := BackwardPhase(table, deletes);
      var totalDerived := CountDerived();
      if FallsBack(totalDerived, |pd|) {
        ghost var progs, z := Progs(), Now(table);
        r := FullRematerialise(table, deletes);
        FallbackResult(progs, r, z, Elements(deletes), Now(table));
        if r.Ok? { NoMarksNeeded(); }
      } else {
        r := DeleteIncrementally(table, pd, deletes);
      }
    }

    method DeleteIncrementally(table: QuadTable, pd: set<Quad>, deletes: seq<Quad>) returns (r: Outcome)
      requires Valid() && table.Valid()
      requires pd == PossiblyDeleted(Progs(), Now(table), Elements(deletes)) && !FallsBack(TotalDerived(Now(table).indexes), |pd|)
      modifies table, records`index, records`byRule
      ensures Valid() && table.Valid() && Progs() == old(Progs()) && MarksIntact() == old(MarksIntact())
      ensures DeletionResult(Progs(), r, old(Now(table)), Elements(deletes), Now(table))
    {
      ghost var progs, z := Progs(), Now(table);
      ValidValues(table);
      hide *;
      Unassert(table, deletes);
      ghost var y := Now(table);
      r := ForwardPhase(table, pd, deletes, z);
      ForwardPhaseResult(progs, r, z, Elements(deletes), y, Now(table));
    }

    // ---- Rule retraction ----

    /** The enabled occurrences of the rules, over all strata. */
    method FindTargets(rules: seq<Rule>) returns (targets: seq<Target>)
      requires Valid()
      ensures AreTargets(Progs(), rules, targets)
    {
      ghost var progs := Progs();
      hide ProgramOk;
      targets := [];
      for i := 0 to |programs|
        invariant forall t: Target :: t in targets <==> IsTarget(progs, rules, t) && t.0 < i
      {
        var program := programs[i];
        assert progs[i] == program.Value();
        for rid := 0 to |program.rules|
          invariant forall t: Target :: t in targets <==> IsTarget(progs, rules, t) && (t.0 < i || (t.0 == i && t.1 < rid))
        {
          if !program.IsRuleDisabled(rid) && program.rules[rid] in rules {
            targets := targets + [(i, rid)];
          }
        }
      }
    }

    method DisableOne(i: nat, rid: nat)
      requires Valid() && i < |programs|
      modifies programs`disabledRules
      ensures Valid() && Progs() == old(Progs())[i := old(Progs())[i].(disabled := old(Progs())[i].disabled + {rid})]
      ensures Indexes() == old(Indexes())
    {
      ghost var progs := Progs();
      assert ProgramOk(i);
      hide AllRestricted, RuleMapOk, NegRuleMapOk, IndexOk, DerivedFromIndex.Valid;
      programs[i].DisableRule(rid);
      assert Progs() == progs[i := progs[i].(disabled := progs[i].disabled + {rid})];
      forall j | 0 <= j < |programs| ensures ProgramOk(j) {
        assert old(ProgramOk(j));
      }
    }

    method EnableOne(i: nat, rid: nat)
      requires Valid() && i < |programs|
      modifies programs`disabledRules
      ensures Valid() && Progs() == old(Progs())[i := old(Progs())[i].(disabled := old(Progs())[i].disabled - {rid})]
      ensures Indexes() == old(Indexes())
    {
      ghost var progs := Progs();
      assert ProgramOk(i);
      hide AllRestricted, RuleMapOk, NegRuleMapOk, IndexOk, DerivedFromIndex.Valid;
      programs[i].EnableRule(rid);
      assert Progs() == progs[i := progs[i].(disabled := progs[i].disabled - {rid})];
      forall j | 0 <= j < |programs| ensures ProgramOk(j) {
        assert old(ProgramOk(j));
      }
    }

    method DisableAll(targets: seq<Target>)
      requires Valid() && forall t | t in targets :: t.0 < |programs|
      modifies programs`disabledRules
      ensures programs == old(programs) && records == old(records)
      ensures Valid() && Progs() == Disabling(old(Progs()), Elements(targets))
      ensures Indexes() == old(Indexes()) && MarksIntact() == old(MarksIntact())
    {
      ghost var progs := Progs();
      DisablingNone(progs);
      ElementsNone(targets);
      hide Valid, Progs, Indexes, Disabling, MarksIntact;
      for k := 0 to |targets|
        invariant Valid() && Progs() == Disabling(progs, Elements(targets[..k])) && Indexes() == old(Indexes())
      {
        assert targets[k] in targets;
        DisablingNext(progs, Elements(targets[..k]), targets[k]);
        DisableOne(targets[k].0, targets[k].1);
        ElementsTake(targets, k);
      }
      assert targets[..|targets|] == targets;
    }

    method EnableAll(targets: seq<Target>)
      requires Valid() && forall t | t in targets :: t.0 < |programs|
      modifies programs`disabledRules
      ensures programs == old(programs) && records == old(records)
      ensures Valid() && Progs() == Enabling(old(Progs()), Elements(targets))
      ensures Indexes() == old(Indexes()) && MarksIntact() == old(MarksIntact())
    {
      ghost var progs := Progs();
      DisablingNone(progs);
      ElementsNone(targets);
      hide Valid, Progs, Indexes, Enabling, MarksIntact;
      for k := 0 to |targets|
        invariant Valid() && Progs() == Enabling(progs, Elements(targets[..k])) && Indexes() == old(Indexes())
      {
        assert targets[k] in targets;
        DisablingNext(progs, Elements(targets[..k]), targets[k]);
        EnableOne(targets[k].0, targets[k].1);
        ElementsTake(targets, k);
      }
      assert targets[..|targets|] == targets;
    }

    /** The derived quads with a record by one target, which the search starts from. */
    method TargetSeeds(table: QuadTable, t: Target, work: seq<Quad>) returns (work': seq<Quad>)
      requires Valid() && table.Valid() && t.0 < |programs|
      ensures forall q :: q in work' <==> q in work || (q !in table.Extensional() && MadeBy(Indexes(), t, q))
    {
      ghost var indexes, ext := Indexes(), table.Extensional();
      var index := programs[t.0].derivedFrom.index;
      assert index == indexes[t.0];
      hide Valid, ReverseOk, QuadTable.IndexesOf, Indexes, MadeBy;
      work' := work;
      var todo := index.Keys;
      while todo != {}
        invariant todo <= index.Keys
        invariant forall q :: q in work' <==> q in work || (q !in ext && q in index && q !in todo && RecordBy(index[q], t.1))
        decreases todo
      {
        var q :| q in todo;
        if HasRule(index[q], t.1) && !table.IsExtensional(q) {
          work' := work' + [q];
        }
        todo := todo - {q};
      }
      forall q ensures MadeBy(indexes, t, q) <==> q in index && RecordBy(index[q], t.1) {
        MadeByAt(indexes, t, q);
      }
    }

    method AllTargetSeeds(table: QuadTable, targets: seq<Target>) returns (work: seq<Quad>)
      requires Valid() && table.Valid() && forall t | t in targets :: t.0 < |programs|
      ensures Elements(work) == RuleSeeds(Now(table), Elements(targets))
    {
      ghost var z := Now(table);
      NowParts(table);
      hide Valid, QuadTable.Valid, Indexes, Now, MadeBy, QuadTable.Extensional, RuleSeeds;
      work := [];
      ElementsNone(targets);
      for k := 0 to |targets|
        invariant forall q :: q in work <==> q !in z.ext && MadeByTarget(z.indexes, Elements(targets[..k]), q)
      {
        assert targets[k] in targets;
        ElementsTake(targets, k);
        MadeByNext(z.indexes, Elements(targets[..k]), targets[k]);
        work := TargetSeeds(table, targets[k], work);
      }
      assert targets[..|targets|] == targets;
      RuleSeedsAre(z, Elements(targets), Elements(work));
    }

    /** The backward phase of a retraction: seeded from what the targets derived. */
    method BackwardPhaseFromRuleRemoval(table: QuadTable, targets: seq<Target>) returns (pd: set<Quad>)
      requires Valid() && table.Valid() && forall t | t in targets :: t.0 < |programs|
      ensures pd == RuleFallout(Progs(), Now(table), Elements(targets))
    {
      hide *;
      var rev := BuildReverseIndex();
      NowParts(table);
      var work := AllTargetSeeds(table, targets);
      ghost var d, z := AllRecorded(Progs(), Now(table).indexes), Now(table);
      SeedSet(work);
      pd := set q | q in work;
      pd := Search(rev, table, true, pd, work, d);
      RuleSearched(Progs(), z, Elements(targets), pd);
    }

    /** Undo a failed re-derivation after a retraction, and enable the rules again. */
    method UndoRuleDeletions(table: QuadTable, redeltaStart: nat, tracked: seq<seq<Entry>>, pd: set<Quad>, targets: seq<Target>,
                             removed: seq<RemovedEntry>, ghost z: Snapshot, ghost mid: Snapshot)
      requires Valid() && table.Valid() && WellFormed(Progs(), z)
      requires Dropped(z, pd, mid) && Keeps(z.indexes, pd, removed)
      requires redeltaStart == |mid.list| && Extended(Progs(), mid, Now(table), tracked)
      requires forall t | t in targets :: t.0 < |programs|
      modifies table, records`index, records`byRule, programs`disabledRules
      ensures Valid() && table.Valid() && Progs() == Enabling(old(Progs()), Elements(targets)) && MarksIntact() == old(MarksIntact())
      ensures RolledBack(z, {}, pd, Now(table))
    {
      hide *;
      DroppedUnasserted(Progs(), z);
      ElementsOfNone();
      UndoDeletions(table, redeltaStart, tracked, pd, [], removed, z, z, mid);
      NowParts(table);
      EnableAll(targets);
      NowParts(table);
      SameSnapshot(table);
    }

    lemma SameSnapshot(table: QuadTable)
      requires Distinct()
      ensures Now(table) == Snapshot(table.quadList, table.Extensional(), Indexes())
    {
    }

    /** The forward phase of a retraction, the targets being disabled already. */
    method ForwardPhaseRules(table: QuadTable, pd: set<Quad>, targets: seq<Target>) returns (r: Outcome)
      requires Valid() && table.Valid() && forall t | t in targets :: t.0 < |programs|
      modifies table, records`index, records`byRule, programs`disabledRules
      ensures Valid() && table.Valid() && MarksIntact() == old(MarksIntact())
      ensures ForwardPhasedRules(old(Progs()), r, old(Now(table)), pd, Elements(targets), Progs(), Now(table))
    {
      hide *;
      ghost var progs, z := Progs(), Now(table);
      ValidValues(table);
      var removed := DropQuadsKeeping(table, pd);
      ghost var mid := Now(table);
      NowParts(table);
      var redeltaStart := |table.quadList|;
      var tracked;
      r, tracked := Sweep(table);
      SweepParts(progs, r, mid, Now(table), tracked);
      if r.Err? {
        UndoRuleDeletions(table, redeltaStart, tracked, pd, targets, removed, z, mid);
        PhasedRulesErr(progs, r, z, pd, Elements(targets), mid, Now(table));
        return;
      }
      PhasedRulesOk(progs, z, pd, Elements(targets), mid, Now(table), tracked);
    }

    /** Copies of every program's records, marks included. */
    method SaveRecords() returns (saved: seq<SavedIndex>)
      requires Valid()
      ensures |saved| == |programs| && forall i | 0 <= i < |programs| :: saved[i] == programs[i].derivedFrom.Copy()
    {
      hide ProgramOk;
      saved := [];
      for i := 0 to |programs|
        invariant |saved| == i && forall j | 0 <= j < i :: saved[j] == programs[j].derivedFrom.Copy()
      {
        saved := saved + [programs[i].derivedFrom.Copy()];
      }
    }

    ghost predicate SavedOk(saved: seq<SavedIndex>)
      reads `programs
    {
      && |saved| == |programs|
      && forall i | 0 <= i < |programs| ::
           IndexValid(saved[i].index) && CountsOk(saved[i].byRule, saved[i].index, saved[i].marks) && IndexOk(programs[i].rules, saved[i].index)
    }

    method RestoreOneSaved(i: nat, saved: seq<SavedIndex>)
      requires Valid() && SavedOk(saved) && i < |programs|
      modifies records
      ensures programs == old(programs) && records == old(records)
      ensures Valid() && SavedOk(saved) && Progs() == old(Progs())
      ensures programs[i].derivedFrom.Copy() == saved[i]
      ensures forall j | 0 <= j < |programs| && j != i :: programs[j].derivedFrom.Copy() == old(programs[j].derivedFrom.Copy())
    {
      assert ProgramOk(i);
      hide CountsOk, RuleMapOk, NegRuleMapOk, AllRestricted, IndexValid, IndexOk;
      programs[i].derivedFrom.Restore(saved[i]);
      forall j | 0 <= j < |programs| ensures ProgramOk(j) {
        assert old(ProgramOk(j));
      }
    }

    method RestoreSaved(saved: seq<SavedIndex>)
      requires Valid() && SavedOk(saved)
      modifies records
      ensures programs == old(programs) && records == old(records)
      ensures Valid() && Progs() == old(Progs())
      ensures forall i | 0 <= i < |programs| :: programs[i].derivedFrom.Copy() == saved[i]
    {
      assert |saved| == |programs|;
      hide ProgramOk, SavedOk, Progs;
      for i := 0 to |programs|
        invariant Valid() && SavedOk(saved) && Progs() == old(Progs())
        invariant |saved| == |programs|
        invariant forall j | 0 <= j < i :: programs[j].derivedFrom.Copy() == saved[j]
      {
        RestoreOneSaved(i, saved);
      }
    }

    lemma SavedIsOk(saved: seq<SavedIndex>)
      requires Valid() && |saved| == |programs| && forall i | 0 <= i < |programs| :: saved[i] == programs[i].derivedFrom.Copy()
      ensures SavedOk(saved)
    {
      forall i | 0 <= i < |programs|
        ensures IndexValid(saved[i].index) && CountsOk(saved[i].byRule, saved[i].index, saved[i].marks) && IndexOk(programs[i].rules, saved[i].index)
      {
        assert ProgramOk(i);
      }
    }

    /** Copies agree with the table and the records: put back, they give the same snapshot and marks. */
    ghost predicate CopiesAgree(table: QuadTable, savedTable: SavedTable, saved: seq<SavedIndex>)
      requires Distinct() && table.Valid()
      reads `programs, `records, programs`derivedFrom, records, table
    {
      && table.Copy() == savedTable && |saved| == |programs|
      && forall i | 0 <= i < |programs| :: programs[i].derivedFrom.Copy() == saved[i]
    }

    lemma CopiesDetermine(table: QuadTable, savedTable: SavedTable, saved: seq<SavedIndex>)
      requires Distinct() && table.Valid() && CopiesAgree(table, savedTable, saved)
      ensures Now(table) == SavedSnapshot(savedTable, saved)
      ensures MarksIntact() <==> SavedMarks(Progs(), saved)
    {
      assert Now(table).indexes == SavedSnapshot(savedTable, saved).indexes;
      forall i | 0 <= i < |programs|
        ensures MarksOk(programs[i].rules, programs[i].derivedFrom.negativelyTriggeringRules) <==> MarksOk(Progs()[i].rules, saved[i].marks)
      {
        assert programs[i].derivedFrom.Copy() == saved[i];
      }
      if SavedMarks(Progs(), saved) {
        forall i | 0 <= i < |programs| ensures MarksOk(programs[i].rules, programs[i].derivedFrom.negativelyTriggeringRules) {
          assert MarksOk(Progs()[i].rules, saved[i].marks);
        }
      }
      if MarksIntact() {
        forall i | 0 <= i < |programs| ensures MarksOk(Progs()[i].rules, saved[i].marks) {
          assert MarksOk(programs[i].rules, programs[i].derivedFrom.negativelyTriggeringRules);
        }
      }
    }

    method SaveAll(table: QuadTable) returns (savedTable: SavedTable, saved: seq<SavedIndex>)
      requires Valid() && table.Valid()
      ensures SavedOk(saved) && TableSaved(savedTable)
      ensures Now(table) == SavedSnapshot(savedTable, saved) && (MarksIntact() <==> SavedMarks(Progs(), saved))
    {
      savedTable := table.Copy();
      saved := SaveRecords();
      SavedIsOk(saved);
      CopiesDetermine(table, savedTable, saved);
    }

    method RestoreAllSaved(table: QuadTable, savedTable: SavedTable, saved: seq<SavedIndex>)
      requires Valid() && TableSaved(savedTable) && SavedOk(saved)
      modifies table, records
      ensures programs == old(programs) && records == old(records)
      ensures Valid() && table.Valid() && Progs() == old(Progs())
      ensures Now(table) == SavedSnapshot(savedTable, saved) && (MarksIntact() <==> SavedMarks(Progs(), saved))
    {
      assert |saved| == |programs|;
      table.Restore(savedTable);
      hide ProgramOk, QuadTable.Valid, Progs, SavedOk, ReverseOk, FlatOk, NestedOk;
      RestoreSaved(saved);
      CopiesDetermine(table, savedTable, saved);
    }

    /** Restore the copies and enable the rules again. */
    method RollbackRules(table: QuadTable, savedTable: SavedTable, saved: seq<SavedIndex>, targets: seq<Target>,
                         ghost rules: seq<Rule>, ghost progs: seq<Prog>)
      requires Valid() && TableSaved(savedTable) && SavedOk(saved)
      requires AreTargets(progs, rules, targets) && Progs() == Disabling(progs, Elements(targets))
      modifies table, records, programs`disabledRules
      ensures programs == old(programs) && records == old(records)
      ensures Valid() && table.Valid() && Progs() == progs
      ensures Now(table) == SavedSnapshot(savedTable, saved) && (MarksIntact() <==> SavedMarks(progs, saved))
    {
      hide *;
      TargetsInRange(progs, rules, targets);
      EnablingUndoes(progs, rules, targets);
      MarksOfRules(progs, Elements(targets), saved);
      RestoreAllSaved(table, savedTable, saved);
      SameSnapshot(table);
      EnableAll(targets);
      SameSnapshot(table);
    }

    method DisableAndRebuild(table: QuadTable, targets: seq<Target>) returns (r: Outcome)
      requires Valid() && table.Valid() && forall t | t in targets :: t.0 < |programs|
      modifies table, records, programs`disabledRules
      ensures programs == old(programs) && records == old(records)
      ensures Valid() && table.Valid() && Progs() == Disabling(old(Progs()), Elements(targets))
      ensures Rebuilt(Progs(), r, old(Now(table)).ext, Now(table)) && (r.Ok? ==> NoMarks(|programs|))
    {
      hide *;
      NowParts(table);
      DisableAll(targets);
      NowParts(table);
      KeepAsserted(table);
      r := ResetAndSweep(table);
    }

    /** The fallback of a retraction.  Unlike the one of a deletion it restores everything on failure. */
    method FullRematerialiseRules(table: QuadTable, targets: seq<Target>, ghost rules: seq<Rule>) returns (r: Outcome)
      requires Valid() && table.Valid() && AreTargets(Progs(), rules, targets)
      modifies table, records, programs`disabledRules
      ensures Valid() && table.Valid() && (if r.Ok? then NoMarks(|programs|) else MarksIntact() == old(MarksIntact()))
      ensures RulesRebuilt(old(Progs()), r, old(Now(table)), Elements(targets), Progs(), Now(table))
    {
      hide *;
      ghost var progs, z := Progs(), Now(table);
      TargetsInRange(progs, rules, targets);
      var savedTable, saved := SaveAll(table);
      r := DisableAndRebuild(table, targets);
      if r.Ok? {
        RulesRebuiltOk(progs, r, z, Elements(targets), Now(table));
      } else {
        RulesRebuiltErr(progs, r, z, Elements(targets), Now(table));
        RollbackRules(table, savedTable, saved, targets, rules, progs);
      }
    }

    /** The incremental branch of a retraction. */
    method RetractIncrementally(table: QuadTable, pd: set<Quad>, targets: seq<Target>, ghost rules: seq<Rule>) returns (r: Outcome)
      requires Valid() && table.Valid() && AreTargets(Progs(), rules, targets)
      requires pd == RuleFallout(Progs(), Now(table), Elements(targets)) && !FallsBack(TotalDerived(Now(table).indexes), |pd|)
      modifies table, records`index, records`byRule, programs`disabledRules
      ensures Valid() && table.Valid() && MarksIntact() == old(MarksIntact())
      ensures RetractionResult(old(Progs()), r, old(Now(table)), Elements(targets), Progs(), Now(table))
    {
      ghost var progs, z := Progs(), Now(table);
      ValidValues(table);
      TargetsInRange(progs, rules, targets);
      EnablingUndoes(progs, rules, targets);
      NowParts(table);
      hide *;
      DisableAll(targets);
      SameSnapshot(table);
      ghost var progs1 := Progs();
      r := ForwardPhaseRules(table, pd, targets);
      PhasedProgs(progs1, r, z, pd, Elements(targets), Progs(), Now(table));
      if r.Ok? {
        RetractedForward(progs, r, z, Elements(targets), Now(table));
      } else {
        RetractionUndone(progs, r, z, Elements(targets), Progs(), Now(table));
      }
    }

    /**
     * Retract rules, wherever they occur and are enabled, incrementally or by a rebuild.  Asserted facts
     * stay, rule ids stay, and a contradiction while re-deriving restores everything.
     */
    method ApplyRuleDeletions(table: QuadTable, rules: seq<Rule>) returns (r: Outcome, ghost targets: seq<Target>)
      requires Valid() && table.Valid()
      modifies table, records, programs`disabledRules
      ensures Valid() && table.Valid()
      ensures AreTargets(old(Progs()), rules, targets)
      ensures RetractionResult(old(Progs()), r, old(Now(table)), Elements(targets), Progs(), Now(table))
      ensures r.Ok? ==> Updated(old(StateNow(table)), RetractRules(rules), StateNow(table))
      ensures r.Err? ==> MarksIntact() == old(MarksIntact())
    {
      hide *;
      FormedNow(table);
      if rules == [] {
        NothingToRetract(Progs(), rules, Now(table));
        targets := [];
        MarksKept(StateNow(table), Elements(targets));
        RetractionIsUpdate(old(StateNow(table)), Ok, rules, [], StateNow(table));
        return Ok, [];
      }
      var found := FindTargets(rules);
      targets := found;
      if found == [] {
        NothingRetracted(Progs(), Now(table), found);
        MarksKept(StateNow(table), Elements(targets));
        RetractionIsUpdate(old(StateNow(table)), Ok, rules, found, StateNow(table));
        return Ok, [];
      }
      r := RetractTargets(table, found, rules);
      FormedNow(table);
      if r.Ok? {
        RetractionIsUpdate(old(StateNow(table)), r, rules, found, StateNow(table));
      }
    }

    method RetractTargets(table: QuadTable, targets: seq<Target>, ghost rules: seq<Rule>) returns (r: Outcome)
      requires Valid() && table.Valid() && AreTargets(Progs(), rules, targets)
      modifies table, records, programs`disabledRules
      ensures Valid() && table.Valid()
      ensures RetractionResult(old(Progs()), r, old(Now(table)), Elements(targets), Progs(), Now(table))
      ensures r.Err? ==> MarksIntact() == old(MarksIntact())
      ensures r.Ok? && KeepsMarks(old(StateNow(table)), RetractionFallsBack(old(StateNow(table)), Elements(targets))) ==> MarksIntact()
    {
      hide *;
      NowParts(table);
      MarksKept(StateNow(table), Elements(targets));
      TargetsInRange(Progs(), rules, targets);
      var pd := BackwardPhaseFromRuleRemoval(table, targets);
      var totalDerived := CountDerived();
      if FallsBack(totalDerived, |pd|) {
        r := RetractByRebuild(table, targets, rules);
      } else {
        r := RetractIncrementally(table, pd, targets, rules);
      }
    }

    method RetractByRebuild(table: QuadTable, targets: seq<Target>, ghost rules: seq<Rule>) returns (r: Outcome)
      requires Valid() && table.Valid() && AreTargets(Progs(), rules, targets)
      requires FallsBack(TotalDerived(Now(table).indexes), |RuleFallout(Progs(), Now(table), Elements(targets))|)
      modifies table, records, programs`disabledRules
      ensures Valid() && table.Valid() && (r.Err? ==> MarksIntact() == old(MarksIntact()))
      ensures RetractionResult(old(Progs()), r, old(Now(table)), Elements(targets), Progs(), Now(table))
      ensures r.Ok? && NegationFree(old(Progs())) ==> MarksIntact()
    {
      ghost var progs, z := Progs(), Now(table);
      hide *;
      r := FullRematerialiseRules(table, targets, rules);
      if r.Ok? {
        NoMarksNeeded();
        NegationFreeDisabled(progs, Elements(targets));
        RebuiltProgs(progs, r, z, Elements(targets), Progs(), Now(table));
      }
      RetractedByRebuild(progs, r, z, Elements(targets), Progs(), Now(table));
    }

    // ---- Rule insertion: the checks ----

    /** The first place where a rule occurs. */
    method FindRule(rule: Rule) returns (at: Option<Target>)
      ensures at.Some? ==> FirstAt(Progs(), rule, at.value)
      ensures at.None? ==> !Occurs(Progs(), rule)
    {
      ghost var progs := Progs();
      for i := 0 to |programs|
        invariant forall t: Target | OccursAt(progs, rule, t) :: t.0 >= i
      {
        assert progs[i] == programs[i].Value();
        for rid := 0 to |programs[i].rules|
          invariant forall t: Target | OccursAt(progs, rule, t) :: t.0 > i || (t.0 == i && t.1 >= rid)
        {
          if programs[i].rules[rid] == rule {
            assert OccursAt(progs, rule, (i, rid));
            return Some((i, rid));
          }
        }
      }
      at := None;
    }

    /** Sort the requested rules into retracted ones to bring back and new ones to add. */
    method ClassifyRules(newRules: seq<Rule>) returns (reactivate: seq<Target>, added: seq<Rule>)
      ensures Classified(Progs(), newRules, reactivate, added)
    {
      ghost var progs := Progs();
      hide Progs, FirstAt, Occurs;
      reactivate, added := [], [];
      for k := 0 to |newRules|
        invariant Classified(progs, newRules[..k], reactivate, added)
      {
        var at := FindRule(newRules[k]);
        assert newRules[..k + 1] == newRules[..k] + [newRules[k]];
        ghost var reactivate0, added0 := reactivate, added;
        match at {
          case Some(t) =>
            FirstInRange(progs, newRules[k], t);
            assert progs[t.0] == programs[t.0].Value() by { ProgAt(t.0); }
            if programs[t.0].IsRuleDisabled(t.1) {
              if t !in reactivate {
                reactivate := reactivate + [t];
              }
            }
          case None =>
            if newRules[k] !in added {
              added := added + [newRules[k]];
            }
        }
        ClassifiedNext(progs, newRules, k, reactivate0, added0, at, reactivate, added);
      }
      assert newRules[..|newRules|] == newRules;
    }

    lemma ProgAt(i: nat)
      requires i < |programs|
      ensures Progs()[i] == programs[i].Value()
    {
    }

    /** Every rule that is enabled or about to be, program by program. */
    method ActiveRules(reactivate: seq<Target>) returns (active: seq<Rule>)
      ensures active == ActiveList(Progs(), reactivate)
    {
      active := [];
      for i := 0 to |programs|
        invariant active == ActiveUpTo(Progs(), reactivate, i)
      {
        var more := ActiveRulesOf(i, reactivate);
        active := active + more;
      }
    }

    method ActiveRulesOf(i: nat, reactivate: seq<Target>) returns (active: seq<Rule>)
      requires i < |programs|
      ensures active == ActiveOf(Progs(), reactivate, i, |Progs()[i].rules|)
    {
      ProgAt(i);
      active := [];
      for rid := 0 to |programs[i].rules|
        invariant active == ActiveOf(Progs(), reactivate, i, rid)
      {
        if (i, rid) in reactivate || !programs[i].IsRuleDisabled(rid) {
          active := active + [programs[i].rules[rid]];
        }
      }
    }

    // ---- Rule insertion: bringing rules back ----

    /** Enable one rule, run its program from scratch and feed what that derived through the later ones. */
    method ReactivateOne(table: QuadTable, t: Target, runs: seq<Run>, ghost z: Snapshot, ghost logs: seq<seq<Entry>>, ghost sound: bool)
      returns (r: Outcome, runs': seq<Run>, ghost logs': seq<seq<Entry>>)
      requires Valid() && table.Valid() && t.0 < |programs|
      requires Reviving(Progs(), z, Now(table), runs, logs, sound) && (sound ==> CanReactivate(Progs(), t))
      modifies table, records`index, records`byRule, programs`disabledRules
      ensures Valid() && table.Valid() && Progs() == Enabling(old(Progs()), {t}) && MarksIntact() == old(MarksIntact())
      ensures Reviving(Progs(), z, Now(table), runs', logs', sound && r.Ok?)
      ensures r.Err? ==> r.error.ContradictionFound?
      ensures r.Err? && sound ==> StoppedAt(old(Progs()), t, old(Now(table)).Stored(), r.error.rule)
    {
      hide *;
      ghost var progs := Progs();
      ValidValues(table);
      EnablingOne(progs, t);
      NowParts(table);
      ghost var b := Now(table);
      EnableOne(t.0, t.1);
      SameSnapshot(table);
      var buf;
      r, buf := RunProgram(t.0, table);
      var deltaFacts := Heads(buf);
      runs' := runs + [(t.0, buf)];
      logs' := LogsWith(logs, t.0, buf);
      RevivingRun(progs, t, z, b, runs, logs, sound, r, Now(table), buf);
      RunError(Progs(), t.0, r, b, Now(table), buf);
      if r.Err? {
        return;
      }
      ghost var progs1 := Progs();
      for later := t.0 + 1 to |programs|
        invariant r.Ok? && Valid() && table.Valid() && Progs() == progs1 && MarksIntact() == old(MarksIntact())
        invariant Reviving(progs1, z, Now(table), runs', logs', sound) && Elements(deltaFacts) <= Now(table).Stored()
      {
        if deltaFacts == [] {
          break;
        }
        ghost var b1, runs1, logs1 := Now(table), runs', logs';
        ValidValues(table);
        var laterBuf;
        r, laterBuf := RunProgramFromFacts(later, table, deltaFacts);
        RevivingFed(progs1, later, Elements(deltaFacts), z, b1, runs1, logs1, sound, r, Now(table), laterBuf);
        FedError(progs1, later, Elements(deltaFacts), r, b1, Now(table), laterBuf);
        ConcatElements(deltaFacts, Heads(laterBuf));
        deltaFacts := deltaFacts + Heads(laterBuf);
        runs' := runs' + [(later, laterBuf)];
        logs' := LogsWith(logs', later, laterBuf);
        if r.Err? {
          return;
        }
      }
    }

    /** Bring the rules back one after the other; stop at a contradiction. */
    method ReactivateAll(table: QuadTable, targets: seq<Target>, ghost z: Snapshot)
      returns (r: Outcome, runs: seq<Run>, reactivated: seq<Target>, ghost logs: seq<seq<Entry>>)
      requires Valid() && table.Valid() && Now(table) == z && forall t | t in targets :: t.0 < |programs|
      modifies table, records`index, records`byRule, programs`disabledRules
      ensures Valid() && table.Valid() && MarksIntact() == old(MarksIntact())
      ensures reactivated <= targets && (r.Ok? ==> reactivated == targets)
      ensures Progs() == Enabling(old(Progs()), Elements(reactivated))
      ensures Reviving(Progs(), z, Now(table), runs, logs, r.Ok? && Sound(old(Progs()), z) && AllReactivate(old(Progs()), targets))
      ensures r.Err? ==> r.error.ContradictionFound?
      ensures r.Err? && Sound(old(Progs()), z) && AllReactivate(old(Progs()), targets) ==> ReactivationStopped(old(Progs()), z, targets, r.error.rule)
    {
      hide *;
      ghost var progs := Progs();
      ghost var sound := Sound(progs, z) && AllReactivate(progs, targets);
      ValidValues(table);
      DisablingNone(progs);
      ElementsNone(targets);
      RevivingStart(progs, z);
      r, runs, reactivated, logs := Ok, [], [], NoLogs(|progs|);
      RevivingWeaker(progs, z, z, runs, logs, Sound(progs, z), sound);
      for k := 0 to |targets|
        invariant r.Ok? && Valid() && table.Valid() && MarksIntact() == old(MarksIntact())
        invariant reactivated == targets[..k] && Progs() == Enabling(progs, Elements(targets[..k]))
        invariant Reviving(Progs(), z, Now(table), runs, logs, sound)
      {
        if sound {
          NextReactivates(progs, targets, k);
        }
        EnablingMore(progs, Elements(targets[..k]), targets[k]);
        ElementsTake(targets, k);
        assert targets[k] in targets;
        reactivated := reactivated + [targets[k]];
        TakeNext(targets, k);
        ghost var b, runs0, logs0 := Now(table), runs, logs;
        r, runs, logs := ReactivateOne(table, targets[k], runs, z, logs, sound);
        if r.Err? {
          if sound {
            StoppedHere(progs, z, targets, k, b, runs0, logs0, r.error.rule);
          }
          return;
        }
      }
      assert targets[..|targets|] == targets;
    }

    // ---- Rule insertion: fresh strata ----

    /** Put one more program on top. */
    method PushProgram(program: DatalogProgram, table: QuadTable)
      requires Valid() && table.Valid() && program.Valid() && program !in programs && program.derivedFrom !in records
      requires program.stratum == |programs| && AllRestricted(program.rules) && program.derivedFrom.index == map[]
      modifies `programs, `records
      ensures Valid() && table.Valid()
      ensures programs == old(programs) + [program] && records == old(records) + {program.derivedFrom}
      ensures Progs() == old(Progs()) + [program.Value()]
      ensures Now(table).list == old(Now(table)).list && Now(table).ext == old(Now(table)).ext
      ensures Now(table).indexes == old(Now(table)).indexes + [map[]]
      ensures old(MarksIntact()) && MarksOk(program.rules, program.derivedFrom.negativelyTriggeringRules) ==> MarksIntact()
    {
      ghost var n, progs, indexes := |programs|, Progs(), Indexes();
      hide DatalogProgram.Valid, AllRestricted, MarksOk, QuadTable.Valid;
      assert forall i | 0 <= i < n :: ProgramOk(i);
      programs := programs + [program];
      records := records + {program.derivedFrom};
      assert forall i | 0 <= i < n :: programs[i] == old(programs)[i];
      assert forall i | 0 <= i < n :: Progs()[i] == progs[i] && Indexes()[i] == indexes[i];
      assert Progs() == progs + [program.Value()];
      assert Indexes() == indexes + [map[]];
      forall i | 0 <= i < n + 1 ensures ProgramOk(i) {
        assert i < n ==> old(ProgramOk(i));
      }
    }

    /** The fresh programs from position `k` on are still untouched and apart from everything else. */
    ghost predicate Waiting(added: seq<DatalogProgram>, k: nat, n0: nat, strata: seq<seq<Rule>>)
      reads `programs, `records, set p | p in added, set p | p in added :: p.derivedFrom
    {
      && |added| == |strata|
      && (forall i | k <= i < |added| ::
            && added[i].Valid() && added[i].rules == strata[i] && added[i].stratum == n0 + i && AllRestricted(strata[i])
            && added[i].disabledRules == {} && added[i].derivedFrom.index == map[]
            && MarksOk(strata[i], added[i].derivedFrom.negativelyTriggeringRules)
            && added[i] !in programs && added[i].derivedFrom !in records)
      && (forall i, j | 0 <= i < j < |added| :: added[i] != added[j] && added[i].derivedFrom != added[j].derivedFrom)
    }

    /** Append one fresh program and materialise it over everything that is there. */
    method AppendOne(table: QuadTable, added: seq<DatalogProgram>, k: nat, ghost n0: nat, ghost strata: seq<seq<Rule>>)
      returns (r: Outcome, buf: seq<Entry>, ghost b1: Snapshot)
      requires Valid() && table.Valid() && k < |added| && |programs| == n0 + k && Waiting(added, k, n0, strata)
      modifies `programs, `records, table, records, added[k].derivedFrom
      ensures Valid() && table.Valid() && Waiting(added, k + 1, n0, strata)
      ensures programs == old(programs) + [added[k]] && records == old(records) + {added[k].derivedFrom}
      ensures Progs() == old(Progs()) + [Prog(n0 + k, strata[k], {})]
      ensures b1.list == old(Now(table)).list && b1.ext == old(Now(table)).ext && b1.indexes == old(Now(table)).indexes + [map[]]
      ensures RanProgram(Progs(), n0 + k, r, b1, Now(table), buf)
      ensures old(MarksIntact()) ==> MarksIntact()
    {
      hide DatalogProgram.Valid, AllRestricted, MarksOk, QuadTable.Valid, ProgramOk, RanProgram, Progs, Now, MarksIntact;
      PushProgram(added[k], table);
      assert Waiting(added, k + 1, n0, strata);
      b1 := Now(table);
      r, buf := RunProgram(|programs| - 1, table);
    }

    /** Append the fresh programs in order; stop at a contradiction. */
    method AppendAll(table: QuadTable, added: seq<DatalogProgram>, runs0: seq<Run>, ghost strata: seq<seq<Rule>>)
      returns (r: Outcome, runs: seq<Run>, ghost tracked: seq<seq<Entry>>)
      requires Valid() && table.Valid() && Waiting(added, 0, |programs|, strata) && RunsBelow(runs0, |programs|)
      modifies `programs, `records, table, records, set p | p in added :: p.derivedFrom
      ensures Valid() && table.Valid() && old(programs) <= programs && RunsBelow(runs, |programs|)
      ensures records <= old(records) + (set p | p in added :: p.derivedFrom)
      ensures LogsKept(|old(programs)|, runs0, runs) && Progs()[..|old(programs)|] == old(Progs())
      ensures r.Ok? ==> AppendResult(old(Progs()), r, old(Now(table)), strata, Progs(), Now(table))
      ensures r.Err? ==> r.error.ContradictionFound? && AppendFailed(old(Progs()), strata, old(Now(table)), Now(table), tracked)
      ensures r.Err? ==> AppendStopped(old(Progs()), strata, old(Now(table)), r.error.rule)
      ensures old(MarksIntact()) ==> MarksIntact()
    {
      hide *;
      ghost var n0, progs, z := |programs|, Progs(), Now(table);
      ValidValues(table);
      AppendingStart(progs, strata, z);
      LogsKeptSelf(n0, runs0);
      WaitingSize(added, 0, n0, strata);
      AppendingSize(progs, strata, z, 0, progs, z, NoLogs(n0));
      r, runs, tracked := Ok, runs0, NoLogs(n0);
      for k := 0 to |added|
        invariant r.Ok? && Valid() && table.Valid() && Waiting(added, k, n0, strata)
        invariant |programs| == n0 + k && old(programs) <= programs
        invariant records <= old(records) + (set p | p in added :: p.derivedFrom)
        invariant Growing(progs, strata, z, k, Progs(), Now(table), tracked)
        invariant LogsKept(n0, runs0, runs) && RunsBelow(runs, n0 + k) && Progs()[..n0] == progs
        invariant old(MarksIntact()) ==> MarksIntact()
      {
        ghost var progs0, b, tracked0 := Progs(), Now(table), tracked;
        AppendingSize(progs, strata, z, k, progs0, b, tracked0);
        assert added[k] in added;
        var buf;
        ghost var b1;
        r, buf, b1 := AppendOne(table, added, k, n0, strata);
        AppendingOn(progs, strata, z, k, progs0, b, tracked0, Progs(), b1, r, Now(table), buf);
        RunError(Progs(), n0 + k, r, b1, Now(table), buf);
        LogsKeptNext(n0, runs0, runs, (|programs| - 1, buf));
        RunsBelowNext(runs, n0 + k, buf);
        runs := runs + [(|programs| - 1, buf)];
        tracked := tracked + [buf];
        if r.Err? {
          return;
        }
      }
      AppendingEnd(progs, strata, z, Progs(), Now(table), tracked);
    }

    lemma WaitingSize(added: seq<DatalogProgram>, k: nat, n0: nat, strata: seq<seq<Rule>>)
      requires Waiting(added, k, n0, strata)
      ensures |added| == |strata|
    {
    }

    // ---- Rule insertion: undo ----

    /** Unrecord every run, in order. */
    method UnrecordRuns(runs: seq<Run>)
      requires Valid() && RunsBelow(runs, |programs|)
      modifies records`index, records`byRule
      ensures Valid() && Progs() == old(Progs()) && MarksIntact() == old(MarksIntact())
      ensures UnrecordedRuns(old(Indexes()), runs, Indexes())
    {
      hide *;
      ghost var indexes0 := Indexes();
      NothingUnrecorded(indexes0, runs);
      for k := 0 to |runs|
        invariant Valid() && Progs() == old(Progs()) && MarksIntact() == old(MarksIntact())
        invariant UnrecordedRuns(indexes0, runs[..k], Indexes())
      {
        RunInRange(runs, |programs|, k);
        UnrecordedNext(indexes0, runs[..k], Indexes(), runs[k]);
        UnrecordAll(runs[k].0, runs[k].1);
        TakeNext(runs, k);
      }
      assert runs[..|runs|] == runs;
    }

    /** Drop the programs from position `n` on. */
    method TruncatePrograms(n: nat)
      requires Valid() && n <= |programs|
      modifies `programs
      ensures Valid() && programs == old(programs)[..n]
      ensures Progs() == old(Progs())[..n] && Indexes() == old(Indexes())[..n]
      ensures old(MarksIntact()) ==> MarksIntact()
    {
      ghost var progs, indexes := Progs(), Indexes();
      hide DatalogProgram.Valid, AllRestricted, MarksOk;
      assert forall i | 0 <= i < |programs| :: ProgramOk(i);
      programs := programs[..n];
      assert forall i | 0 <= i < n :: programs[i] == old(programs)[i] && Progs()[i] == progs[i] && Indexes()[i] == indexes[i];
      assert Progs() == progs[..n];
      assert Indexes() == indexes[..n];
      forall i | 0 <= i < n ensures ProgramOk(i) {
        assert old(ProgramOk(i));
      }
    }

    /** Undo a rule insertion: records, quads, appended programs and reactivated rules. */
    method UndoRuleInsertions(table: QuadTable, quadStart: nat, origProgramCount: nat, runs: seq<Run>, reactivated: seq<Target>)
      requires Valid() && table.Valid() && quadStart <= |table.quadList| && origProgramCount <= |programs|
      requires RunsBelow(runs, |programs|) && forall t | t in reactivated :: t.0 < origProgramCount
      modifies `programs, table, records`index, records`byRule, programs[..origProgramCount]`disabledRules
      ensures Valid() && table.Valid() && programs == old(programs)[..origProgramCount] && records == old(records)
      ensures Progs() == Disabling(old(Progs())[..origProgramCount], Elements(reactivated))
      ensures UndoneTo(old(Now(table)), quadStart, runs, origProgramCount, Now(table))
      ensures old(MarksIntact()) ==> MarksIntact()
    {
      hide *;
      NowParts(table);
      ghost var c := Now(table);
      UnrecordRuns(runs);
      ghost var undone := Indexes();
      NowParts(table);
      TruncateTable(table, quadStart);
      TruncatePrograms(origProgramCount);
      DisableAll(reactivated);
      NowParts(table);
      UndoneToIs(c, quadStart, runs, undone, origProgramCount, Now(table));
    }

    method TruncateTable(table: QuadTable, len: nat)
      requires table.Valid() && len <= |table.quadList|
      modifies table
      ensures table.Valid() && table.quadList == old(table.quadList)[..len]
      ensures table.Extensional() == old(table.Extensional()) * Elements(old(table.quadList)[..len])
    {
      hide ReverseOk, QuadTable.IndexesOf;
      ghost var list0 := table.quadList;
      table.TruncateTo(len);
      if len == |list0| { assert list0[..len] == list0; }
      ElementsPrefix(list0[..len], list0);
    }

    /** The mutating part of a rule insertion; on a contradiction everything is as before. */
    method InsertRules(table: QuadTable, targets: seq<Target>, added: seq<DatalogProgram>, ghost strata: seq<seq<Rule>>) returns (r: Outcome)
      requires Valid() && table.Valid() && Waiting(added, 0, |programs|, strata)
      requires forall p | p in added :: p !in programs && p.derivedFrom !in records
      requires forall t | t in targets :: t.0 < |programs| && t.1 in Progs()[t.0].disabled
      modifies `programs, `records, table, records, programs`disabledRules, set p | p in added :: p.derivedFrom
      ensures Valid() && table.Valid() && old(programs) <= programs
      ensures r.Ok? ==> RulesInserted(old(Progs()), old(Now(table)), targets, strata, Progs(), Now(table))
      ensures r.Err? ==>
                && r.error.ContradictionFound? && programs == old(programs) && Progs() == old(Progs()) && Now(table) == old(Now(table))
                && InsertionStopped(old(Progs()), old(Now(table)), targets, strata, r.error.rule)
      ensures old(MarksIntact()) ==> MarksIntact()
    {
      hide *;
      ghost var progs, z, n0 := Progs(), Now(table), |programs|;
      NowParts(table);
      var quadStart := |table.quadList|;
      var origProgramCount := |programs|;
      var runs, reactivated;
      ghost var logs;
      r, runs, reactivated, logs := ReactivateAll(table, targets, z);
      ghost var progs1, z1 := Progs(), Now(table);
      ghost var sound := r.Ok? && Sound(progs, z) && AllReactivate(progs, targets);
      RevivingParts(progs1, z, z1, runs, logs, sound);
      PrefixElements(reactivated, targets);
      DisablingUndoes(progs, Elements(reactivated));
      NowParts(table);
      if r.Err? {
        TakeAll(programs);
        TakeAll(progs1);
        StoppedReviving(progs, z, targets, strata, r.error.rule);
        UndoRuleInsertions(table, quadStart, origProgramCount, runs, reactivated);
        RevivedBack(progs1, z, z1, runs, logs, sound, n0, Now(table));
        return;
      }
      ghost var tracked;
      var allRuns;
      r, allRuns, tracked := AppendAll(table, added, runs, strata);
      NowParts(table);
      if r.Err? {
        StoppedFresh(progs, z, targets, strata, z1, r.error.rule);
        FailedSizes(progs1, strata, z1, Now(table), tracked, z);
        ghost var c := Now(table);
        TakePrefix(old(programs), programs);
        UndoRuleInsertions(table, quadStart, origProgramCount, allRuns, reactivated);
        FailedBack(progs1, z, z1, runs, logs, sound, strata, c, tracked, allRuns, Now(table));
        return;
      }
      OkIs(r);
      InsertedIs(progs, z, targets, z1, strata, Progs(), Now(table), runs, logs, sound);
    }

    /** The rules at the given places, after the new ones. */
    method RulesComingIn(targets: seq<Target>, added: seq<Rule>) returns (rules: seq<Rule>)
      requires forall t | t in targets :: t.0 < |programs| && t.1 < |Progs()[t.0].rules|
      ensures Incoming(Progs(), targets, added, rules)
    {
      ghost var progs := Progs();
      rules := added;
      for k := 0 to |targets|
        invariant forall a :: a in rules <==> a in added || exists j :: 0 <= j < k && OccursAt(progs, a, targets[j])
      {
        var t := targets[k];
        assert t in targets;
        ProgAt(t.0);
        rules := rules + [programs[t.0].rules[t.1]];
      }
    }

    /** The checks of a rule insertion: nothing is changed. */
    method CheckRules(newRules: seq<Rule>) returns (r: Outcome, reactivate: seq<Target>, added: seq<Rule>, strata: seq<seq<Rule>>)
      ensures Classified(Progs(), newRules, reactivate, added)
      ensures forall t | t in reactivate :: t.0 < |programs| && t.1 in Progs()[t.0].disabled
      ensures r.Ok? <==> Accepted(Progs(), reactivate, added)
      ensures r.Ok? ==> InsertionChecked(Progs(), newRules, reactivate, added, strata) && OnceEach(added, strata)
      ensures Stratifiable(added) && r.Ok? ==> Stratified(AllEnabled(ProgsOf(strata)))
      ensures r.Err? ==> r.error.NotStratifiable? && Rejected(Progs(), newRules, reactivate, added)
    {
      hide *;
      strata := [];
      reactivate, added := ClassifyRules(newRules);
      if reactivate == [] && added == [] {
        NothingToCheck(Progs(), newRules);
        NothingAccepted(Progs());
        return Ok, reactivate, added, [];
      }
      TargetsDisabled(Progs(), newRules, reactivate, added);
      var active := ActiveRules(reactivate);
      ActiveListHas(Progs(), reactivate);
      var rules := RulesComingIn(reactivate, added);
      var found := FindConsumer(active, rules);
      if found.Some? {
        RejectedIs(Progs(), newRules, reactivate, added, active, rules, found);
        ConsumerRefuses(Progs(), reactivate, added, rules, found.value);
        return Err(NotStratifiable(found.value)), reactivate, added, [];
      }
      var combined;
      r, combined := Stratify(active + added);
      if r.Err? {
        RejectedIs(Progs(), newRules, reactivate, added, active, rules, found);
        UnsortableRefuses(Progs(), reactivate, added);
        return;
      }
      if added != [] {
        r, strata := Stratify(added);
        if r.Err? {
          RejectedIs(Progs(), newRules, reactivate, added, active, rules, found);
          UnsortableRefuses(Progs(), reactivate, added);
          return;
        }
      } else {
        NoStrata();
      }
      ChecksPassed(Progs(), reactivate, added, rules);
      IncomingChecked(Progs(), newRules, reactivate, added, strata, active, rules);
    }

    /** Fresh programs wait to be appended. */
    lemma BuiltWaits(added: seq<DatalogProgram>, newRules: seq<Rule>, strata: seq<seq<Rule>>)
      requires Built(added, |programs|, strata) && OnceEach(newRules, strata) && SafeMeansRestricted(newRules)
      requires forall k | 0 <= k < |strata| :: forall x | x in strata[k] :: IsSafeRule(x)
      requires forall p | p in added :: p !in programs && p.derivedFrom !in records
      ensures Waiting(added, 0, |programs|, strata)
    {
      hide DatalogProgram.Valid, AllRestricted, MarksOk, OnceEach, SafeMeansRestricted, IsSafeRule;
      forall k | 0 <= k < |strata| ensures AllRestricted(strata[k]) {
        StratumRestricted(newRules, strata, k);
      }
    }

    /**
     * Add rules: retracted ones come back in place, new ones are stratified among themselves and appended.
     * What was rejected, unsafe or contradictory leaves everything as it was.
     */
    method ApplyRuleInsertions(table: QuadTable, newRules: seq<Rule>)
      returns (r: Outcome, ghost targets: seq<Target>, ghost added: seq<Rule>, ghost strata: seq<seq<Rule>>)
      requires Valid() && table.Valid() && SafeMeansRestricted(newRules)
      modifies `programs, `records, table, records, programs`disabledRules
      ensures Valid() && table.Valid() && old(programs) <= programs && (r.Err? ==> programs == old(programs))
      ensures RuleInsertionResult(old(Progs()), r, old(Now(table)), newRules, targets, added, strata, Progs(), Now(table))
      ensures r.Err? && r.error.NotStratifiable? ==> Rejected(old(Progs()), newRules, targets, added)
      ensures r.Err? && r.error.UnsafeRule? ==> r.error.rule in newRules && !IsSafeRule(r.error.rule)
      ensures AllRestricted(newRules) ==> r.Ok? || !r.error.UnsafeRule?
      ensures r.Err? && r.error.NotStratifiable? <==> !Accepted(old(Progs()), targets, added)
      ensures old(MarksIntact()) ==> MarksIntact()
    {
      hide *;
      ghost var progs, z := Progs(), Now(table);
      if AllRestricted(newRules) { AllSafe(newRules); }
      ValidValues(table);
      targets, added, strata := [], [], [];
      if newRules == [] {
        NothingRequested(progs, z, newRules);
        NothingAccepted(progs);
        return Ok, [], [], [];
      }
      var reactivate, fresh0, freshStrata;
      r, reactivate, fresh0, freshStrata := CheckRules(newRules);
      targets, added, strata := reactivate, fresh0, freshStrata;
      if reactivate == [] && fresh0 == [] {
        InsertionNothing(progs, z, newRules);
        NothingAccepted(progs);
        return Ok, [], [], [];
      }
      if r.Err? {
        NothingChanged(progs, r, z, newRules, targets, added, strata);
        return;
      }
      var freshPrograms;
      r, freshPrograms := BuildPrograms(|programs|, freshStrata);
      if r.Err? {
        NothingChanged(progs, r, z, newRules, targets, added, strata);
        UnsafeRequested(progs, newRules, targets, added, strata, r.error.rule);
        return;
      }
      AddedRestricted(progs, newRules, targets, added);
      BuiltWaits(freshPrograms, added, strata);
      RequestedLayered(progs, targets, added, strata);
      r := InsertRules(table, reactivate, freshPrograms, freshStrata);
      if r.Err? {
        RulesRefused(progs, r, z, newRules, targets, added, strata);
        InsertionRolledBack(progs, r, z, newRules, targets, added, strata);
        return;
      }
      ValidValues(table);
      InsertionSummary(progs, z, newRules, targets, added, strata, Progs(), Now(table));
      OkIs(r);
    }
  }

  lemma TakeAll<T>(s: seq<T>)
    ensures s[..|s|] == s
  {
  }

  lemma TakePrefix<T>(a: seq<T>, b: seq<T>)
    requires a <= b
    ensures b[..|a|] == a
  {
  }

  lemma TakeNext<T>(s: seq<T>, k: nat)
    requires k < |s|
    ensures s[..k + 1] == s[..k] + [s[k]] && s[..k] + [s[k]] <= s
  {
  }

  lemma RevivingWeaker(progs: seq<Prog>, z: Snapshot, b: Snapshot, runs: seq<Run>, logs: seq<seq<Entry>>, sound: bool, weaker: bool)
    requires Reviving(progs, z, b, runs, logs, sound) && (weaker ==> sound)
    ensures Reviving(progs, z, b, runs, logs, weaker)
  {
  }

  lemma LogsKeptSelf(n: nat, runs: seq<Run>)
    ensures LogsKept(n, runs, runs)
  {
  }

  lemma RunsBelowNext(runs: seq<Run>, n: nat, buf: seq<Entry>)
    requires RunsBelow(runs, n)
    ensures RunsBelow(runs + [(n, buf)], n + 1)
  {
  }

  lemma RunInRange(runs: seq<Run>, n: nat, k: nat)
    requires RunsBelow(runs, n) && k < |runs|
    ensures runs[k].0 < n
  {
  }

  lemma NothingUnrecorded(indexes: seq<Index>, runs: seq<Run>)
    ensures UnrecordedRuns(indexes, runs[..0], indexes)
  {
  }

  /** The state after the runs were unrecorded, the list cut back and the later programs dropped. */
  ghost predicate UndoneTo(c: Snapshot, quadStart: nat, runs: seq<Run>, n: nat, b: Snapshot) {
    && quadStart <= |c.list| && b.list == c.list[..quadStart] && b.ext == c.ext * Elements(c.list[..quadStart])
    && exists undone :: UnrecordedRuns(c.indexes, runs, undone) && n <= |undone| && b.indexes == undone[..n]
  }

  lemma UndoneToIs(c: Snapshot, quadStart: nat, runs: seq<Run>, undone: seq<Index>, n: nat, b: Snapshot)
    requires quadStart <= |c.list| && b.list == c.list[..quadStart] && b.ext == c.ext * Elements(c.list[..quadStart])
    requires UnrecordedRuns(c.indexes, runs, undone) && n <= |undone| && b.indexes == undone[..n]
    ensures UndoneTo(c, quadStart, runs, n, b)
  {
  }

  lemma PrefixElements(a: seq<Target>, b: seq<Target>)
    requires a <= b
    ensures forall t | t in Elements(a) :: t in b
    ensures forall t | t in a :: t in b
    ensures a == b ==> Elements(a) == Elements(b)
  {
    assert forall k | 0 <= k < |a| :: a[k] == b[k];
  }

  lemma OkIs(r: Outcome)
    ensures r.Ok? ==> r == Ok
  {
  }

  lemma ErrIs(r: Outcome)
    requires r.Err?
    ensures r == Err(r.error)
  {
  }

  lemma StopIsContradiction(progs: seq<Prog>, z: Snapshot, s0: set<Quad>, error: ReasoningError)
    requires ForwardStops(progs, z, s0, error)
    ensures error.ContradictionFound?
  {
  }

  lemma FineIs(progs: seq<Prog>, m: set<Quad>)
    requires NoContradiction(AllEnabled(progs), m)
    ensures Verdict(progs, Ok, m)
  {
  }

  lemma VerdictParts(progs: seq<Prog>, r: Outcome, m: set<Quad>)
    requires Verdict(progs, r, m)
    ensures r.Ok? <==> NoContradiction(AllEnabled(progs), m)
    ensures r.Err? ==> r.error.ContradictionFound?
  {
  }

  lemma InsertionPositive(progs: seq<Prog>, r: Outcome, z: Snapshot, inserts: set<Quad>, marks: Marks, c: Snapshot)
    requires Sound(progs, z) && InsertionResult(progs, r, z, inserts, marks, c)
    ensures NegationFree(progs) ==> Verdict(progs, r, Perfect(AllEnabled(progs), AfterInsert(z, inserts), |progs|))
  {
    hide Sound, InsertUnblocked, Verdict, NegationFree;
    if NegationFree(progs) {
      PositiveUnblocked(progs, z, inserts);
    }
  }

  lemma RevivedBack(progs: seq<Prog>, z: Snapshot, b: Snapshot, runs: seq<Run>, logs: seq<seq<Entry>>, sound: bool, n: nat, c: Snapshot)
    requires Reviving(progs, z, b, runs, logs, sound) && UndoneTo(b, |z.list|, runs, n, c) && n == |b.indexes|
    ensures c == z
  {
    var undone :| UnrecordedRuns(b.indexes, runs, undone) && n <= |undone| && c.indexes == undone[..n];
    RevivingUndone(progs, z, b, runs, logs, sound, undone);
    assert undone[..n] == undone;
  }

  lemma FailedSizes(progs: seq<Prog>, strata: seq<seq<Rule>>, z1: Snapshot, c: Snapshot, tracked: seq<seq<Entry>>, z: Snapshot)
    ensures AppendFailed(progs, strata, z1, c, tracked) && |z.list| <= |z1.list| ==> |z.list| <= |c.list| && |progs| <= |c.indexes|
  {
    if AppendFailed(progs, strata, z1, c, tracked) {
      ExtendedParts(AppendProgs(progs, strata), Padded(z1, |progs| + |strata|), Padded(c, |progs| + |strata|), tracked);
    }
  }

  lemma FailedBack(progs: seq<Prog>, z: Snapshot, z1: Snapshot, runs1: seq<Run>, logs: seq<seq<Entry>>, sound: bool,
                   strata: seq<seq<Rule>>, c: Snapshot, tracked: seq<seq<Entry>>, runs: seq<Run>, b: Snapshot)
    requires Reviving(progs, z, z1, runs1, logs, sound) && AppendFailed(progs, strata, z1, c, tracked)
    requires LogsKept(|progs|, runs1, runs) && UndoneTo(c, |z.list|, runs, |progs|, b)
    ensures b == z
  {
    var undone :| UnrecordedRuns(c.indexes, runs, undone) && |progs| <= |undone| && b.indexes == undone[..|progs|];
    FailedUndone(progs, z, z1, runs1, logs, sound, strata, c, tracked, runs, undone);
  }

  lemma NegationFreeDisabled(progs: seq<Prog>, targets: set<Target>)
    ensures NegationFree(progs) ==> NegationFree(Disabling(progs, targets))
  {
  }

  lemma RebuiltProgs(progs: seq<Prog>, r: Outcome, z: Snapshot, targets: set<Target>, progs': seq<Prog>, c: Snapshot)
    requires r.Ok? && RulesRebuilt(progs, r, z, targets, progs', c)
    ensures progs' == Disabling(progs, targets)
  {
  }

  lemma NoStrata()
    ensures OnceEach([], []) && Stratified(AllEnabled(ProgsOf([])))
  {
  }

  lemma NothingRequested(progs: seq<Prog>, z: Snapshot, newRules: seq<Rule>)
    requires newRules == [] && Layered(progs)
    ensures RuleInsertionResult(progs, Ok, z, newRules, [], [], [], progs, z)
  {
    assert Classified(progs, newRules, [], []);
    InsertionNothing(progs, z, newRules);
  }

  lemma NothingChanged(progs: seq<Prog>, r: Outcome, z: Snapshot, newRules: seq<Rule>, targets: seq<Target>, added: seq<Rule>,
                       strata: seq<seq<Rule>>)
    requires r.Err? && !r.error.ContradictionFound?
    ensures RuleInsertionResult(progs, r, z, newRules, targets, added, strata, progs, z)
  {
  }

  lemma InsertionRolledBack(progs: seq<Prog>, r: Outcome, z: Snapshot, newRules: seq<Rule>, targets: seq<Target>, added: seq<Rule>,
                            strata: seq<seq<Rule>>)
    requires r.Err? && RuleVerdict(progs, r, z, newRules, targets, added, strata)
    ensures RuleInsertionResult(progs, r, z, newRules, targets, added, strata, progs, z)
  {
    hide RuleVerdict;
  }

  /** Safe fresh rules make programs that can be materialised. */
  lemma RequestedLayered(progs: seq<Prog>, targets: seq<Target>, added: seq<Rule>, strata: seq<seq<Rule>>)
    requires Layered(progs) && OnceEach(added, strata) && SafeMeansRestricted(added)
    requires forall k | 0 <= k < |strata| :: forall x | x in strata[k] :: IsSafeRule(x)
    ensures Layered(Requested(progs, targets, strata))
  {
    hide AllRestricted, IsSafeRule, OnceEach, SafeMeansRestricted;
    var progs2 := Requested(progs, targets, strata);
    forall i | 0 <= i < |progs2| ensures progs2[i].stratum == i && AllRestricted(progs2[i].rules) {
      if i >= |progs| {
        StratumRestricted(added, strata, i - |progs|);
        assert progs2[|progs| + (i - |progs|)] == Prog(i, strata[i - |progs|], {});
      }
    }
  }

  lemma AddedRestricted(progs: seq<Prog>, newRules: seq<Rule>, targets: seq<Target>, added: seq<Rule>)
    requires Classified(progs, newRules, targets, added) && SafeMeansRestricted(newRules)
    ensures SafeMeansRestricted(added)
  {
  }

  lemma UnsafeRequested(progs: seq<Prog>, newRules: seq<Rule>, targets: seq<Target>, added: seq<Rule>, strata: seq<seq<Rule>>, x: Rule)
    requires Classified(progs, newRules, targets, added) && OnceEach(added, strata) && InSome(strata, x)
    ensures x in newRules
  {
  }

  lemma InsertedIs(progs: seq<Prog>, z: Snapshot, targets: seq<Target>, z1: Snapshot, strata: seq<seq<Rule>>, progs': seq<Prog>,
                   c: Snapshot, runs: seq<Run>, logs: seq<seq<Entry>>, sound: bool)
    requires Reviving(Enabling(progs, Elements(targets)), z, z1, runs, logs, sound)
    requires Sound(progs, z) && AllReactivate(progs, targets) ==> sound
    requires AppendResult(Enabling(progs, Elements(targets)), Ok, z1, strata, progs', c)
    ensures RulesInserted(progs, z, targets, strata, progs', c)
  {
    RevivingParts(Enabling(progs, Elements(targets)), z, z1, runs, logs, sound);
    assert InsertedThrough(progs, z, targets, z1, strata, progs', c);
  }

  lemma RunError(progs: seq<Prog>, i: nat, r: Outcome, b: Snapshot, c: Snapshot, log: seq<Entry>)
    requires i < |progs| && RanProgram(progs, i, r, b, c, log)
    ensures r.Err? ==> r.error.ContradictionFound?
  {
  }

  lemma FedError(progs: seq<Prog>, i: nat, delta: set<Quad>, r: Outcome, b: Snapshot, c: Snapshot, log: seq<Entry>)
    requires i < |progs| && RanProgramFromFacts(progs, i, delta, r, b, c, log)
    ensures r.Err? ==> r.error.ContradictionFound?
  {
  }

  ghost predicate EmptyRecords(indexes: seq<Index>) {
    forall i | 0 <= i < |indexes| :: indexes[i] == map[]
  }

  lemma BuildError(r: Outcome)
    requires r.Err? && r.error.UnsafeRule?
    ensures !r.error.NotStratifiable? && !r.error.ContradictionFound?
  {
  }

  lemma OfStrata(rules: seq<Rule>, strata: seq<seq<Rule>>, x: Rule)
    requires OnceEach(rules, strata) && InSome(strata, x)
    ensures x in rules
  {
  }

  lemma TableParts(table: QuadTable)
    requires table.Valid()
    ensures NoDup(table.quadList) && table.Stored() == Elements(table.quadList)
  {
    ReverseNoDup(table.quadList, table.fourKeysIndex);
  }

  lemma BareStart(a: Snapshot)
    ensures NoDup(a.list) && a.ext == a.Stored() && EmptyRecords(a.indexes) ==> Bare(a.ext, a)
    ensures a.Stored() == Elements(a.list)
  {
  }

  ghost function SavedSnapshot(savedTable: SavedTable, saved: seq<SavedIndex>): Snapshot {
    Snapshot(savedTable.list, Elements(savedTable.list) - savedTable.intensional,
             seq(|saved|, i requires 0 <= i < |saved| => saved[i].index))
  }

  ghost predicate SavedMarks(progs: seq<Prog>, saved: seq<SavedIndex>) {
    |saved| == |progs| && forall i | 0 <= i < |progs| :: MarksOk(progs[i].rules, saved[i].marks)
  }

  lemma MarksOfRules(progs: seq<Prog>, targets: set<Target>, saved: seq<SavedIndex>)
    ensures SavedMarks(progs, saved) <==> SavedMarks(Disabling(progs, targets), saved)
  {
    forall i | 0 <= i < |progs| ensures progs[i].rules == Disabling(progs, targets)[i].rules {
    }
  }

  /** The seeds of a cascade: the quads that are not asserted facts. */
  method NotAsserted(table: QuadTable, seeds: set<Quad>) returns (work: seq<Quad>)
    requires table.Valid()
    ensures Elements(work) == seeds - table.Extensional()
  {
    hide ReverseOk, QuadTable.IndexesOf;
    ghost var ext := table.Extensional();
    var todo := seeds;
    work := [];
    while todo != {}
      invariant todo <= seeds && Elements(work) == (seeds - todo) - ext
      decreases todo
    {
      var q :| q in todo;
      ghost var work0 := work;
      if !table.IsExtensional(q) {
        work := work + [q];
      }
      ElementsSnoc(work0, q);
      todo := todo - {q};
      assert (seeds - todo) - ext == Elements(work0) + (if q in ext then {} else {q});
    }
    assert seeds - todo == seeds;
  }

  lemma SeedSet<T>(s: seq<T>)
    ensures (set x | x in s) == Elements(s)
  {
  }

  lemma ElementsNone<T>(s: seq<T>)
    ensures Elements(s[..0]) == {}
  {
  }

  lemma ElementsTake<T>(s: seq<T>, k: nat)
    requires k < |s|
    ensures Elements(s[..k + 1]) == Elements(s[..k]) + {s[k]}
  {
    assert s[..k + 1] == s[..k] + [s[k]];
  }

  lemma ConcatElements<T>(a: seq<T>, b: seq<T>)
    ensures Elements(a + b) == Elements(a) + Elements(b)
  {
  }

  lemma IsGrown(progs: seq<Prog>, z: Snapshot, inserts: set<Quad>, b: Snapshot)
    requires b.Stored() == Grown(progs, z, inserts) && b.ext == AfterInsert(z, inserts)
    requires Sound(progs, b) <==> InsertUnblocked(progs, z, inserts)
    ensures GrownTo(progs, z, inserts, b)
  {
  }

  lemma ExtendedSeeds(progs: seq<Prog>, a: Snapshot, b: Snapshot, tracked: seq<seq<Entry>>)
    requires Extended(progs, a, b, tracked)
    ensures OnlySeeded(progs, a.ext, b.ext) && |tracked| <= |progs| == |b.indexes| && |a.list| <= |b.list|
  {
    ExtendedParts(progs, a, b, tracked);
  }

  lemma InsertedFlags(progs: seq<Prog>, z: Snapshot, delta: set<Quad>, a: Snapshot)
    requires WellFormed(progs, z) && Inserted(z, delta, a)
    ensures z.list <= a.list && z.indexes == a.indexes && a.ext * z.Stored() == z.ext && a.ext == AfterInsert(z, delta)
  {
  }

  lemma DropIndexOk(rules: seq<Rule>, index: Index, q: Quad)
    requires IndexOk(rules, index)
    ensures IndexOk(rules, index - {q})
  {
    forall x, d | Holds(index - {q}, x, d) ensures EntryOk(rules, x, d) {
      assert Holds(index, x, d);
    }
  }

  lemma NoDependents()
    ensures forall w :: DependentsOf(map[], w) == []
  {
  }

  /** Feeding in some index is being derived by some record. */
  lemma ReverseOfAll(progs: seq<Prog>, indexes: seq<Index>, rev: Reverse)
    requires Layered(progs) && |indexes| == |progs| && forall i | 0 <= i < |progs| :: IndexOk(progs[i].rules, indexes[i])
    requires forall w, q :: q in DependentsOf(rev, w) <==> FeedsBelow(indexes, |progs|, w, q)
    ensures IsReverse(rev, AllRecorded(progs, indexes))
  {
    var d := AllRecorded(progs, indexes);
    forall w, q ensures q in DependentsOf(rev, w) <==> Derives(d, w, q) {
      if Derives(d, w, q) {
        var c :| c in d && c.head == Some(q) && w in c.pos;
        assert Holds(indexes[c.prog], q, Derivation(c.rid, c.pos));
        assert Feeds(indexes[c.prog], w, q);
        assert FeedsBelow(indexes, |progs|, w, q);
      }
      forall j | 0 <= j < |progs| && Feeds(indexes[j], w, q) ensures Derives(d, w, q) {
        var e :| Holds(indexes[j], q, e) && w in e.bodyWitnesses;
        var c := EntryClause(progs[j].stratum, progs[j].rules, indexes[j], q, e);
        assert c in d;
      }
    }
  }

  /** What the seeds of a round say, by marks. */
  lemma SeedsEnd(progs: seq<Prog>, marks: Marks, b: Snapshot, check: set<Quad>, seeds: set<Quad>, round: nat)
    requires Layered(progs) && |marks| == |progs| == |b.indexes| && RoundState(progs, b, check, round, Missed(marks))
    requires SeedsFor(progs, b.indexes, marks, check, seeds)
    ensures BlockedHeads(AllRecorded(progs, b.indexes), b.ext, check, seeds, Missed(marks))
    ensures seeds == {} ==> (Sound(progs, b) <==> NoneBlocked(progs, b)) && (AllMarked(progs, marks) ==> Sound(progs, b))
    ensures seeds == {} ==> OnlyMissedBlocked(progs, b, Missed(marks))
    ensures NoneMarked(marks) || NegationFree(progs) ==> seeds == {}
    ensures seeds != {} ==> round <= |progs|
  {
    hide PendingState, SettledBelow, SeedsFor, BlockedHeads, Layered, Sound, NoneBlocked, OnlyMissedBlocked, NegationFree, AllRecorded, Missed;
    assert round == |progs| + 1 ==> seeds == {} by { NothingChecked(progs, marks, b, check, seeds); }
    SeedsBlocked(progs, marks, b, check, seeds);
    if NegationFree(progs) {
      NoSeeds(progs, b.indexes, marks, check, seeds);
    }
    if NoneMarked(marks) {
      NoMarksNoSeeds(progs, b.indexes, marks, check, seeds);
    }
    if seeds == {} {
      RoundsEnd(progs, b, check, seeds, Missed(marks));
      if AllMarked(progs, marks) {
        forall c | c in AllRecorded(progs, b.indexes) && c in Missed(marks) ensures c.neg == {} {
          MissedUnguarded(progs, marks, b.indexes, c);
        }
      }
    }
  }

  lemma NothingChecked(progs: seq<Prog>, marks: Marks, b: Snapshot, check: set<Quad>, seeds: set<Quad>)
    requires |marks| == |progs| == |b.indexes| && SeedsFor(progs, b.indexes, marks, check, seeds)
    ensures check == {} ==> seeds == {}
  {
  }

  lemma InsertedIsUpdate(s: State, facts: seq<Quad>, marks: Marks, t: State)
    requires Formed(s) && Formed(t) && t.progs == s.progs && t.marked == s.marked && (s.marked <==> AllMarked(s.progs, marks))
    requires InsertionResult(s.progs, Ok, s.now, Elements(facts), marks, t.now)
    ensures Updated(s, InsertFacts(facts), t)
  {
    hide Formed, Sound, OnlySeeded, AfterInsert, NoneBlocked, GrownTo;
    if s.marked {
      InsertionIsUpdate(s, facts, t);
    }
  }

  method AllHeads(tracked: seq<seq<Entry>>) returns (qs: seq<Quad>)
    ensures forall q :: q in Elements(qs) <==> HeadOfLog(tracked, q)
  {
    qs := [];
    for i := 0 to |tracked|
      invariant forall q :: q in qs <==> exists j, e: Entry :: 0 <= j < i && e in tracked[j] && e.0 == q
    {
      forall q ensures q in Heads(tracked[i]) <==> exists e: Entry :: e in tracked[i] && e.0 == q {
        HeadsContain(tracked[i], q);
        forall e: Entry | e in tracked[i] && e.0 == q ensures q in Heads(tracked[i]) { assert (e.0, e.1) == e; }
      }
      qs := qs + Heads(tracked[i]);
    }
  }
}
