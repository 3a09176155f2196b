/** Enabling retracted rules again, and what undoing it all takes - on values. */
module Reactivation {
  import opened Syntax
  import opened Clauses
  import opened Grounding
  import opened DerivedFrom
  import opened Seminaive
  import opened Maintenance
  import opened Reasoner
  import opened States
  import opened Insertion
  import opened Undo
  import opened Retraction

  // ---- The rules that come back ----

  /** The ground instances of one rule, once it is enabled. */
  ghost function Reactivated(progs: seq<Prog>, t: Target): Program {
    iset c: Clause | c in AllEnabled(Enabling(progs, {t})) && c.prog == t.0 && c.rid == t.1
  }

  lemma IdsOfOne(t: Target, i: nat)
    ensures IdsOf({t}, i) == if i == t.0 then {t.1} else {}
  {
    if i == t.0 { assert t in {t} && t.0 == i; }
  }

  lemma ReactivatedEnabled(progs: seq<Prog>, t: Target)
    ensures AllEnabled(Enabling(progs, {t})) == AllEnabled(progs) + Reactivated(progs, t)
    ensures forall indexes | |indexes| == |progs| :: AllRecorded(Enabling(progs, {t}), indexes) == AllRecorded(progs, indexes)
    ensures Layered(progs) ==> Layered(Enabling(progs, {t}))
    ensures forall a :: WellFormed(progs, a) ==> WellFormed(Enabling(progs, {t}), a)
  {
    var progs1 := Enabling(progs, {t});
    forall c: Clause ensures c in AllEnabled(progs1) <==> c in AllEnabled(progs) || c in Reactivated(progs, t) {
      if c.prog < |progs| {
        IdsOfOne(t, c.prog);
      }
    }
    forall indexes | |indexes| == |progs| ensures AllRecorded(progs1, indexes) == AllRecorded(progs, indexes) {
      forall c ensures c in AllRecorded(progs1, indexes) <==> c in AllRecorded(progs, indexes) {
      }
    }
  }

  /** No other enabled ground rule uses a head of the rule that comes back. */
  ghost predicate CanReactivate(progs: seq<Prog>, t: Target) {
    && t.0 < |progs| && Stratified(AllEnabled(Enabling(progs, {t})))
    && NotConsumed(AllEnabled(progs), Reactivated(progs, t))
  }

  /** Running its program from scratch makes the state consistent for the rules with it. */
  lemma ReactivatedSound(progs: seq<Prog>, t: Target, z: Snapshot, b: Snapshot, log: seq<Entry>)
    requires Layered(progs) && WellFormed(progs, z) && Sound(progs, z) && CanReactivate(progs, t)
    requires RanProgram(Enabling(progs, {t}), t.0, Ok, z, b, log)
    requires z.ext <= b.ext <= b.Stored()
    ensures Sound(Enabling(progs, {t}), b)
  {
    var progs1, i := Enabling(progs, {t}), t.0;
    var p, f := AllEnabled(progs), Reactivated(progs, t);
    ReactivatedEnabled(progs, t);
    EnabledBelow(progs1);
    var index' :|
          && b.indexes == z.indexes[i := index']
          && Materialised(Enabled(progs1[i]), z.Stored(), Recorded(progs1[i], z.indexes[i]), b.Stored(), Recorded(progs1[i], index'));
    MaterialisedWhole(progs1, i, z.Stored(), z.indexes, b.Stored(), index');
    hide Materialised, Enabled, Recorded, Layered, WellFormed, AllEnabled, Stratified, Reactivated, RanProgram;
    var d, d' := AllRecorded(progs, z.indexes), AllRecorded(progs1, b.indexes);
    ReactivatedIn(progs, t);
    InsertedConsistent(p, f, i, |progs|, z.ext, z.Stored(), d, b.Stored(), d');
    LargerBase(p + f, z.ext, b.ext, b.Stored(), d');
  }

  lemma ReactivatedIn(progs: seq<Prog>, t: Target)
    ensures forall c | c in Reactivated(progs, t) :: c.prog == t.0
  {
  }

  /** In a sound state, feeding facts that are stored forward through a program changes nothing that matters. */
  lemma FedSound(progs: seq<Prog>, k: nat, delta: set<Quad>, b: Snapshot, c: Snapshot, log: seq<Entry>)
    requires Layered(progs) && WellFormed(progs, b) && Sound(progs, b) && k < |progs| && delta <= b.Stored()
    requires RanProgramFromFacts(progs, k, delta, Ok, b, c, log)
    requires b.ext <= c.ext <= c.Stored()
    ensures Sound(progs, c)
  {
    var p: Program, none: Program := AllEnabled(progs), iset{};
    var index' :|
          && c.indexes == b.indexes[k := index']
          && (FactsStored(progs[k], b.Stored()) && Primed(progs[k], b.Stored() + delta, delta, b.indexes[k]) ==>
                Materialised(Enabled(progs[k]), b.Stored() + delta, Recorded(progs[k], b.indexes[k]), c.Stored(), Recorded(progs[k], index')));
    assert b.Stored() + delta == b.Stored();
    SoundFacts(progs, b, k, b.Stored());
    SoundPrimed(progs, b, k, delta);
    MaterialisedWhole(progs, k, b.Stored(), b.indexes, c.Stored(), index');
    EnabledBelow(progs);
    hide Materialised, Enabled, Recorded, Layered, WellFormed, AllEnabled, Stratified, RanProgramFromFacts, FactsStored, Primed;
    assert p + none == p;
    var d, d' := AllRecorded(progs, b.indexes), AllRecorded(progs, c.indexes);
    InsertedConsistent(p, none, k, |progs|, b.ext, b.Stored(), d, c.Stored(), d');
    LargerBase(p, b.ext, c.ext, c.Stored(), d');
  }

  /** And it cannot stop: there is nothing new to find a contradiction in. */
  lemma FedNeverStops(progs: seq<Prog>, k: nat, delta: set<Quad>, r: Outcome, b: Snapshot, c: Snapshot, log: seq<Entry>)
    requires Layered(progs) && WellFormed(progs, b) && Sound(progs, b) && k < |progs| && delta <= b.Stored()
    requires RanProgramFromFacts(progs, k, delta, r, b, c, log)
    ensures r.Ok?
  {
    if r.Err? {
      var s := b.Stored();
      var index' :| c.indexes == b.indexes[k := index'] &&
                    RanFromFacts(progs[k], delta, b.list, b.ext, b.indexes[k], c.list, c.ext, index', log);
      var start :| StartsFrom(progs[k], delta, b.list, b.ext, start, c.ext) && Evolves(progs[k], start, b.indexes[k], c.list, index', log);
      SoundLogged(progs, b, k, b.list, start, b.ext, c.ext, c.list, index', log, delta);
      SeededStart(progs[k], b.list);
      RunLeast(progs[k], b.list, b.list, b.indexes[k], c.list, index', log);
      forall e | e in Enabled(progs[k]) && e.head.Some? && e.neg !! s && Within(e.pos, s) ensures e.head.value in s {
        assert e in AllEnabled(progs) && Sat(e, s);
      }
      LeastIsLeast(Enabled(progs[k]), s, s, s);
      assert Violates(progs, s, r.error.rule);
      ViolatesMeans(progs, s, r.error.rule);
      SoundReaches(progs, b);
    }
  }

  /** The run of a rule enabled again stopped: something derived from `s` by its program violates `rule`. */
  ghost predicate StoppedAt(progs: seq<Prog>, t: Target, s: set<Quad>, rule: Rule)
    requires t.0 < |progs|
  {
    exists w :: StoppedOn(Enabling(progs, {t})[t.0], s, w, rule)
  }

  ghost predicate StoppedOn(p: Prog, s: set<Quad>, w: set<Quad>, rule: Rule) {
    s <= w <= Least(Enabled(p), s, s) && Contradicted(p, w, rule)
  }

  lemma RunStoppedAt(progs: seq<Prog>, t: Target, r: Outcome, b: Snapshot, c: Snapshot, log: seq<Entry>)
    requires t.0 < |progs| && RanProgram(Enabling(progs, {t}), t.0, r, b, c, log) && r.Err?
    ensures StoppedAt(progs, t, b.Stored(), r.error.rule)
  {
    var p := Enabling(progs, {t})[t.0];
    var index' :| c.indexes == b.indexes[t.0 := index'] && RanFrom(p, b.list, b.ext, b.indexes[t.0], c.list, c.ext, index', log);
    var seeded :| Seeded(p, b.list, seeded) && Evolves(p, seeded, b.indexes[t.0], c.list, index', log) &&
                  c.ext == b.ext + (Elements(seeded) - Elements(b.list));
    RunLeast(p, b.list, seeded, b.indexes[t.0], c.list, index', log);
    hide Evolves, Seeded, Contradicted, Enabled, RanFrom;
    assert StoppedOn(p, b.Stored(), c.Stored(), r.error.rule);
  }

  lemma SoundPrimed(progs: seq<Prog>, b: Snapshot, k: nat, delta: set<Quad>)
    requires Layered(progs) && Sound(progs, b) && k < |progs|
    ensures Primed(progs[k], b.Stored(), delta, b.indexes[k])
  {
    forall c | c in Enabled(progs[k]) && c.pos != [] && Sat(c, b.Stored())
      ensures Fired(progs[k], c, b.Stored(), b.indexes[k])
    {
      assert c in AllEnabled(progs);
      RecordedSplit(progs, b.indexes, k, c);
    }
  }

  // ---- Logs in any order ----

  /** From `a` to `b` with one log per program, whatever the order of the runs. */
  ghost predicate Logged(progs: seq<Prog>, a: Snapshot, b: Snapshot, logs: seq<seq<Entry>>) {
    |logs| == |progs| && Extended(progs, a, b, logs)
  }

  lemma LoggedStart(progs: seq<Prog>, a: Snapshot, logs: seq<seq<Entry>>)
    requires WellFormed(progs, a) && |logs| == |progs| && forall i | 0 <= i < |logs| :: logs[i] == []
    ensures Logged(progs, a, a, logs)
  {
  }

  lemma {:induction false} LoggedAccounted(indexes0: seq<Index>, logs: seq<seq<Entry>>, i: nat, log: seq<Entry>, ext: set<Quad>, ext': set<Quad>, q: Quad)
    requires |logs| == |indexes0| && i < |logs| && ext <= ext' && IndexValid(indexes0[i])
    requires Accounted(indexes0, logs, ext, q) || LoggedOrKnown(AddAll(indexes0[i], logs[i]), log, q)
    ensures Accounted(indexes0, logs[i := logs[i] + log], ext', q)
  {
    var logs' := logs[i := logs[i] + log];
    AddAllHolds(indexes0[i], logs[i]);
    if q in ext {
    } else if Accounted(indexes0, logs, ext, q) {
      var j :| 0 <= j < |logs| && LoggedOrKnown(indexes0[j], logs[j], q);
      if j == i && exists d :: (q, d) in logs[i] {
        var d :| (q, d) in logs[i];
        assert (q, d) in logs'[i];
      }
      assert LoggedOrKnown(indexes0[j], logs'[j], q);
    } else {
      assert !LoggedOrKnown(indexes0[i], logs[i], q);
      var d :| (q, d) in log;
      assert (q, d) in logs'[i];
    }
  }

  /** One more run of program `i`. */
  lemma LoggedRun(progs: seq<Prog>, a: Snapshot, b: Snapshot, logs: seq<seq<Entry>>, i: nat, start: seq<Quad>, c: Snapshot, log: seq<Entry>)
    requires Logged(progs, a, b, logs) && i < |progs| && RanOn(progs, i, b, start, c, log)
    ensures Logged(progs, a, c, logs[i := logs[i] + log])
  {
    var logs' := logs[i := logs[i] + log];
    var index' :| c.indexes == b.indexes[i := index'] && Evolves(progs[i], start, b.indexes[i], c.list, index', log);
    ExtendedParts(progs, a, b, logs);
    LoggedLists(progs, a, b, logs, i, start, c, index', log);
    LoggedRecords(progs, a, b, logs, i, start, c, index', log);
    LoggedHeads(b, logs, i, c, log, logs');
    ExtendedFlags(progs, a, b, i, start, c);
    hide Evolves, IsFactHead, FreshLog, IndexOk, IndexValid, LoggedOrKnown, Accounted, AddAll, SomeFactHead, RanOn;
  }

  lemma LoggedLists(progs: seq<Prog>, a: Snapshot, b: Snapshot, logs: seq<seq<Entry>>, i: nat, start: seq<Quad>, c: Snapshot,
                    index': Index, log: seq<Entry>)
    requires Logged(progs, a, b, logs) && i < |progs| && RanOn(progs, i, b, start, c, log)
    requires c.indexes == b.indexes[i := index'] && Evolves(progs[i], start, b.indexes[i], c.list, index', log)
    ensures a.list <= c.list && NoDup(c.list) && b.Stored() <= c.Stored() && c.ext <= c.Stored()
    ensures forall q | q in c.list && q !in a.list :: Accounted(a.indexes, logs[i := logs[i] + log], c.ext, q)
    ensures forall e: Entry | e in log :: e.0 in c.list
  {
    EvolvesParts(progs[i], start, b.indexes[i], c.list, index', log);
    ExtendedParts(progs, a, b, logs);
    ElementsPrefix(b.list, start);
    ElementsPrefix(start, c.list);
    LoggedQuads(a, b, logs, i, start, c, log);
  }

  lemma LoggedRecords(progs: seq<Prog>, a: Snapshot, b: Snapshot, logs: seq<seq<Entry>>, i: nat, start: seq<Quad>, c: Snapshot,
                      index': Index, log: seq<Entry>)
    requires Logged(progs, a, b, logs) && i < |progs|
    requires c.indexes == b.indexes[i := index'] && Evolves(progs[i], start, b.indexes[i], c.list, index', log)
    ensures |c.indexes| == |progs|
    ensures var logs' := logs[i := logs[i] + log];
            forall j | 0 <= j < |progs| ::
              && FreshLog(a.indexes[j], logs'[j]) && c.indexes[j] == AddAll(a.indexes[j], logs'[j])
              && IndexValid(c.indexes[j]) && IndexOk(progs[j].rules, c.indexes[j])
  {
    EvolvesParts(progs[i], start, b.indexes[i], c.list, index', log);
    AddAllHolds(b.indexes[i], log);
    AddAllConcat(a.indexes[i], logs[i], log);
    FreshConcat(a.indexes[i], logs[i], log);
    hide Evolves, FreshLog, IndexOk, IndexValid, AddAll;
  }

  lemma LoggedQuads(a: Snapshot, b: Snapshot, logs: seq<seq<Entry>>, i: nat, start: seq<Quad>, c: Snapshot, log: seq<Entry>)
    requires |logs| == |a.indexes| == |b.indexes| && i < |logs| && IndexValid(a.indexes[i])
    requires b.indexes[i] == AddAll(a.indexes[i], logs[i])
    requires b.list <= start <= c.list && c.ext == b.ext + (Elements(start) - b.Stored())
    requires forall q | q in b.list && q !in a.list :: Accounted(a.indexes, logs, b.ext, q)
    requires forall k | |start| <= k < |c.list| :: LoggedOrKnown(b.indexes[i], log, c.list[k])
    ensures forall q | q in c.list && q !in a.list :: Accounted(a.indexes, logs[i := logs[i] + log], c.ext, q)
  {
    assert forall j | 0 <= j < |start| :: c.list[j] == start[j];
    forall q | q in c.list && q !in a.list ensures Accounted(a.indexes, logs[i := logs[i] + log], c.ext, q) {
      hide LoggedOrKnown;
      if q in b.list {
        LoggedAccounted(a.indexes, logs, i, log, b.ext, c.ext, q);
      } else if q in start {
        assert q in c.ext;
      } else {
        var k :| 0 <= k < |c.list| && c.list[k] == q;
        LoggedAccounted(a.indexes, logs, i, log, b.ext, c.ext, q);
      }
    }
  }

  lemma LoggedHeads(b: Snapshot, logs: seq<seq<Entry>>, i: nat, c: Snapshot, log: seq<Entry>, logs': seq<seq<Entry>>)
    requires i < |logs| && b.Stored() <= c.Stored() && logs' == logs[i := logs[i] + log]
    requires forall j, e: Entry | 0 <= j < |logs| && e in logs[j] :: e.0 in b.list
    requires forall e: Entry | e in log :: e.0 in c.list
    ensures forall j, e: Entry | 0 <= j < |logs'| && e in logs'[j] :: e.0 in c.list
  {
    forall j, e: Entry | 0 <= j < |logs'| && e in logs'[j] ensures e.0 in c.list {
      if j != i || e in logs[i] {
        assert e in logs[j];
        assert e.0 in b.Stored();
      }
    }
  }

  /** A run from scratch, finished or not. */
  lemma LoggedProgram(progs: seq<Prog>, a: Snapshot, b: Snapshot, logs: seq<seq<Entry>>, i: nat, r: Outcome, c: Snapshot, log: seq<Entry>)
    requires Logged(progs, a, b, logs) && i < |progs| && RanProgram(progs, i, r, b, c, log)
    ensures Logged(progs, a, c, logs[i := logs[i] + log])
  {
    var index' :| c.indexes == b.indexes[i := index'] && RanFrom(progs[i], b.list, b.ext, b.indexes[i], c.list, c.ext, index', log);
    var seeded :| Seeded(progs[i], b.list, seeded) && Evolves(progs[i], seeded, b.indexes[i], c.list, index', log) &&
                  c.ext == b.ext + (Elements(seeded) - Elements(b.list));
    SeededPrefix(progs[i], b.list, seeded);
    LoggedRun(progs, a, b, logs, i, seeded, c, log);
  }

  /** A run from facts that are stored already. */
  lemma LoggedFed(progs: seq<Prog>, a: Snapshot, b: Snapshot, logs: seq<seq<Entry>>, i: nat, delta: set<Quad>, r: Outcome, c: Snapshot, log: seq<Entry>)
    requires Logged(progs, a, b, logs) && i < |progs| && delta <= b.Stored() && RanProgramFromFacts(progs, i, delta, r, b, c, log)
    ensures Logged(progs, a, c, logs[i := logs[i] + log])
  {
    var index' :| c.indexes == b.indexes[i := index'] && RanFromFacts(progs[i], delta, b.list, b.ext, b.indexes[i], c.list, c.ext, index', log);
    var start :| StartsFrom(progs[i], delta, b.list, b.ext, start, c.ext) && Evolves(progs[i], start, b.indexes[i], c.list, index', log);
    LoggedRun(progs, a, b, logs, i, start, c, log);
  }

  /** Enabling a rule keeps what was logged. */
  lemma LoggedEnabling(progs: seq<Prog>, a: Snapshot, b: Snapshot, logs: seq<seq<Entry>>, t: Target)
    requires Logged(progs, a, b, logs)
    ensures Logged(Enabling(progs, {t}), a, b, logs)
  {
    ReactivatedEnabled(progs, t);
    forall q | SomeFactHead(progs, q) ensures SomeFactHead(Enabling(progs, {t}), q) {
      FactHeadKept(progs, t, q);
    }
    LoggedElsewhere(progs, Enabling(progs, {t}), a, b, logs);
  }

  lemma FactHeadKept(progs: seq<Prog>, t: Target, q: Quad)
    requires SomeFactHead(progs, q)
    ensures SomeFactHead(Enabling(progs, {t}), q)
  {
    var progs1 := Enabling(progs, {t});
    var i :| 0 <= i < |progs| && IsFactHead(progs[i], q);
    var c :| c in Enabled(progs[i]) && c.pos == [] && c.head == Some(q);
    assert c in Enabled(progs1[i]);
    assert IsFactHead(progs1[i], q);
  }

  lemma LoggedElsewhere(progs: seq<Prog>, progs1: seq<Prog>, a: Snapshot, b: Snapshot, logs: seq<seq<Entry>>)
    requires Logged(progs, a, b, logs) && |progs1| == |progs| && WellFormed(progs1, a) && WellFormed(progs1, b)
    requires forall q | SomeFactHead(progs, q) :: SomeFactHead(progs1, q)
    ensures Logged(progs1, a, b, logs)
  {
    hide SomeFactHead, FreshLog, Accounted, IndexOk, IndexValid, AddAll;
  }

  // ---- Undoing a list of logs ----

  type Run = (nat, seq<Entry>)

  /** Everything the runs logged for program `i`, in order. */
  ghost function LogOf(runs: seq<Run>, i: nat): seq<Entry> {
    if runs == [] then []
    else
      var last := runs[|runs| - 1];
      LogOf(runs[..|runs| - 1], i) + (if last.0 == i then last.1 else [])
  }

  lemma LogOfNext(runs: seq<Run>, run: Run, i: nat)
    ensures LogOf(runs + [run], i) == LogOf(runs, i) + (if run.0 == i then run.1 else [])
  {
    assert (runs + [run])[..|runs + [run]| - 1] == runs;
  }

  lemma {:induction false} DropAllConcat(index: Index, a: seq<Entry>, b: seq<Entry>)
    ensures DropAll(DropAll(index, a), b) == DropAll(index, a + b)
    decreases |b|
  {
    if b == [] {
      assert a + b == a;
    } else {
      DropAllConcat(index, a, b[..|b| - 1]);
      assert (a + b)[..|a + b| - 1] == a + b[..|b| - 1];
    }
  }

  /** The indexes after the runs were unrecorded one after the other. */
  ghost predicate UnrecordedRuns(indexes0: seq<Index>, runs: seq<Run>, indexes: seq<Index>) {
    |indexes| == |indexes0| && forall i | 0 <= i < |indexes| :: indexes[i] == DropAll(indexes0[i], LogOf(runs, i))
  }

  lemma UnrecordedNext(indexes0: seq<Index>, runs: seq<Run>, indexes: seq<Index>, run: Run)
    requires UnrecordedRuns(indexes0, runs, indexes) && run.0 < |indexes|
    ensures UnrecordedRuns(indexes0, runs + [run], indexes[run.0 := DropAll(indexes[run.0], run.1)])
  {
    forall i | 0 <= i < |indexes|
      ensures indexes[run.0 := DropAll(indexes[run.0], run.1)][i] == DropAll(indexes0[i], LogOf(runs + [run], i))
    {
      LogOfNext(runs, run, i);
      if i == run.0 {
        DropAllConcat(indexes0[i], LogOf(runs, i), run.1);
      } else {
        assert LogOf(runs, i) + [] == LogOf(runs, i);
      }
    }
  }

  /** The logs are those of the runs. */
  ghost predicate LogsOf(runs: seq<Run>, logs: seq<seq<Entry>>) {
    (forall i | 0 <= i < |logs| :: logs[i] == LogOf(runs, i)) && forall k | 0 <= k < |runs| :: runs[k].0 < |logs|
  }

  lemma LogsOfNext(runs: seq<Run>, logs: seq<seq<Entry>>, i: nat, log: seq<Entry>)
    requires LogsOf(runs, logs) && i < |logs|
    ensures LogsOf(runs + [(i, log)], logs[i := logs[i] + log])
  {
    forall j | 0 <= j < |logs| ensures logs[i := logs[i] + log][j] == LogOf(runs + [(i, log)], j) {
      LogOfNext(runs, (i, log), j);
    }
  }
}
