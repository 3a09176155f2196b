/** Adding rules to a materialised state, on values. */
module Appending {
  import opened Syntax
  import opened Clauses
  import opened Grounding
  import opened DerivedFrom
  import opened Seminaive
  import opened Maintenance
  import opened Reasoner
  import opened States
  import opened Insertion
  import opened Undo
  import opened Retraction
  import opened Reactivation
  import opened Unification
  import opened RuleSort
  import opened SortRun
  import opened Listings
  import opened Stratifier
  import opened Evaluation

  // ---- Classification ----

  ghost predicate OccursAt(progs: seq<Prog>, r: Rule, t: Target) {
    t.0 < |progs| && t.1 < |progs[t.0].rules| && progs[t.0].rules[t.1] == r
  }

  /** The first program and rule id where the rule occurs. */
  ghost predicate FirstAt(progs: seq<Prog>, r: Rule, t: Target) {
    OccursAt(progs, r, t) && forall u: Target | OccursAt(progs, r, u) :: t.0 < u.0 || (t.0 == u.0 && t.1 <= u.1)
  }

  ghost predicate Occurs(progs: seq<Prog>, r: Rule) {
    exists t: Target :: OccursAt(progs, r, t)
  }

  /** A retracted rule that is asked for again. */
  ghost predicate ToReactivate(progs: seq<Prog>, newRules: seq<Rule>, t: Target) {
    t.0 < |progs| && t.1 in progs[t.0].disabled && exists r :: r in newRules && FirstAt(progs, r, t)
  }

  /** Requests are sorted into rules to reactivate, rules to add, and rules already active. */
  ghost predicate Classified(progs: seq<Prog>, newRules: seq<Rule>, reactivate: seq<Target>, added: seq<Rule>) {
    && NoDup(reactivate) && (forall t :: t in reactivate <==> ToReactivate(progs, newRules, t))
    && NoDup(added) && (forall r :: r in added <==> r in newRules && !Occurs(progs, r))
  }

  lemma FirstInRange(progs: seq<Prog>, r: Rule, t: Target)
    requires FirstAt(progs, r, t)
    ensures OccursAt(progs, r, t) && t.0 < |progs| && Occurs(progs, r)
    ensures forall u: Target | FirstAt(progs, r, u) :: u == t
  {
  }

  lemma ClassifiedNext(progs: seq<Prog>, newRules: seq<Rule>, k: nat, reactivate0: seq<Target>, added0: seq<Rule>, at: Option<Target>,
                       reactivate: seq<Target>, added: seq<Rule>)
    requires k < |newRules| && Classified(progs, newRules[..k], reactivate0, added0)
    requires at.Some? ==> FirstAt(progs, newRules[k], at.value)
    requires at.None? ==> !Occurs(progs, newRules[k])
    requires reactivate == if at.Some? && at.value.0 < |progs| && at.value.1 in progs[at.value.0].disabled && at.value !in reactivate0
                           then reactivate0 + [at.value] else reactivate0
    requires added == if at.None? && newRules[k] !in added0 then added0 + [newRules[k]] else added0
    ensures Classified(progs, newRules[..k + 1], reactivate, added)
  {
    var r := newRules[k];
    assert newRules[..k + 1] == newRules[..k] + [r];
    if at.Some? { FirstInRange(progs, r, at.value); }
    hide FirstAt, Occurs, OccursAt;
    forall t ensures t in reactivate <==> ToReactivate(progs, newRules[..k + 1], t) {
      if ToReactivate(progs, newRules[..k + 1], t) {
        var x :| x in newRules[..k + 1] && FirstAt(progs, x, t);
        if x in newRules[..k] {
          assert ToReactivate(progs, newRules[..k], t);
        } else {
          NoFirst(progs, r, t);
        }
      }
      if t in reactivate0 {
        var x :| x in newRules[..k] && FirstAt(progs, x, t);
        assert x in newRules[..k + 1];
      } else if t in reactivate {
        assert r in newRules[..k + 1];
      }
    }
    forall x ensures x in added <==> x in newRules[..k + 1] && !Occurs(progs, x) {
    }
  }

  lemma NoFirst(progs: seq<Prog>, r: Rule, t: Target)
    requires FirstAt(progs, r, t)
    ensures Occurs(progs, r)
  {
  }

  /** The rule is enabled, or about to be. */
  ghost predicate IsActive(progs: seq<Prog>, reactivate: seq<Target>, r: Rule) {
    exists t: Target :: OccursAt(progs, r, t) && (t in reactivate || t.1 !in progs[t.0].disabled)
  }

  /** No active rule other than itself has a body atom the head of `a` can feed or block. */
  ghost predicate Downstream(active: seq<Rule>, a: Rule) {
    a.head.NormalHead? ==> forall b | b in active && b != a :: !CanFeed(a.head.pattern, b) && !CanBlock(a.head.pattern, b)
  }

  /** The active rules other than `a`. */
  method OtherRules(active: seq<Rule>, a: Rule) returns (others: seq<Rule>)
    ensures forall b :: b in others <==> b in active && b != a
  {
    others := [];
    for k := 0 to |active|
      invariant forall b :: b in others <==> b in active[..k] && b != a
    {
      assert active[..k + 1] == active[..k] + [active[k]];
      if active[k] != a {
        others := others + [active[k]];
      }
    }
    assert active[..|active|] == active;
  }

  /** An active rule that depends on the head of one of the rules coming in. */
  ghost predicate Consumer(active: seq<Rule>, rules: seq<Rule>, b: Rule) {
    exists a :: a in rules && a.head.NormalHead? && b in active && b != a &&
                (CanFeed(a.head.pattern, b) || CanBlock(a.head.pattern, b))
  }

  /** The append check: no other active rule may depend on a head that comes in. */
  method FindConsumer(active: seq<Rule>, rules: seq<Rule>) returns (found: Option<Rule>)
    ensures found.None? ==> forall a | a in rules :: Downstream(active, a)
    ensures found.Some? ==> Consumer(active, rules, found.value)
  {
    hide CanFeed, CanBlock;
    for k := 0 to |rules|
      invariant forall j | 0 <= j < k :: Downstream(active, rules[j])
    {
      var a := rules[k];
      if a.head.NormalHead? {
        var others := OtherRules(active, a);
        var deps := DependingRules(others, a.head.pattern);
        if deps != [] {
          assert deps[0] in deps && IsEdge(a.head.pattern, others, deps[0]);
          assert a in rules;
          return Some(deps[0].rule);
        }
        NoConsumer(others, a.head.pattern, deps);
      }
    }
    found := None;
  }

  lemma NoConsumer(others: seq<Rule>, head: QuadPattern, deps: seq<PatternEdge>)
    requires deps == [] && forall e :: e in deps <==> IsEdge(head, others, e)
    ensures forall b | b in others :: !CanFeed(head, b) && !CanBlock(head, b)
  {
    hide CanFeed, CanBlock;
    forall b | b in others ensures !CanFeed(head, b) && !CanBlock(head, b) {
      assert !IsEdge(head, others, NegativePatternEdge(b));
      assert !IsEdge(head, others, PositivePatternEdge(b));
    }
  }

  // ---- Fresh strata on top ----

  ghost function AppendProgs(progs: seq<Prog>, strata: seq<seq<Rule>>): (r: seq<Prog>)
    ensures |r| == |progs| + |strata| && (forall i | 0 <= i < |progs| :: r[i] == progs[i])
    ensures forall k | 0 <= k < |strata| :: r[|progs| + k] == Prog(|progs| + k, strata[k], {})
  {
    progs + seq(|strata|, k requires 0 <= k < |strata| => Prog(|progs| + k, strata[k], {}))
  }

  /** The snapshot with empty records for programs still to come. */
  ghost function Padded(a: Snapshot, n: nat): (r: Snapshot)
    requires |a.indexes| <= n
    ensures |r.indexes| == n && r.list == a.list && r.ext == a.ext
    ensures forall i | 0 <= i < n :: r.indexes[i] == if i < |a.indexes| then a.indexes[i] else map[]
  {
    a.(indexes := a.indexes + seq(n - |a.indexes|, k => map[]))
  }

  ghost function FreshPart(progs: seq<Prog>, n: nat): Program {
    iset c: Clause | c in AllEnabled(progs) && c.prog >= n
  }

  lemma AppendedEnabled(progs: seq<Prog>, strata: seq<seq<Rule>>)
    ensures AllEnabled(AppendProgs(progs, strata)) == AllEnabled(progs) + FreshPart(AppendProgs(progs, strata), |progs|)
  {
    var progs2 := AppendProgs(progs, strata);
    forall c: Clause | c.prog < |progs| ensures c in AllEnabled(progs2) <==> c in AllEnabled(progs) {
      assert progs2[c.prog] == progs[c.prog];
    }
  }

  lemma PaddedRecords(progs: seq<Prog>, strata: seq<seq<Rule>>, a: Snapshot)
    requires |a.indexes| == |progs|
    ensures AllRecorded(AppendProgs(progs, strata), Padded(a, |progs| + |strata|).indexes) == AllRecorded(progs, a.indexes)
  {
    var progs2, a2 := AppendProgs(progs, strata), Padded(a, |progs| + |strata|);
    forall c: Clause ensures c in AllRecorded(progs2, a2.indexes) <==> c in AllRecorded(progs, a.indexes) {
      if c.prog < |progs| {
        assert progs2[c.prog] == progs[c.prog];
      }
    }
  }

  lemma PaddedWellFormed(progs: seq<Prog>, strata: seq<seq<Rule>>, a: Snapshot)
    requires WellFormed(progs, a)
    ensures WellFormed(AppendProgs(progs, strata), Padded(a, |progs| + |strata|))
  {
    var progs2, a2 := AppendProgs(progs, strata), Padded(a, |progs| + |strata|);
    forall i | 0 <= i < |progs2| ensures IndexValid(a2.indexes[i]) && IndexOk(progs2[i].rules, a2.indexes[i]) {
      if i < |progs| {
        assert progs2[i] == progs[i] && a2.indexes[i] == a.indexes[i];
      }
    }
  }

  ghost function NoLogs(n: nat): (r: seq<seq<Entry>>)
    ensures |r| == n && forall i | 0 <= i < n :: r[i] == []
  {
    seq(n, i => [])
  }

  /** A run of one of the first programs is a run of the whole. */
  lemma RanProgramPadded(progs: seq<Prog>, progs2: seq<Prog>, i: nat, r: Outcome, b: Snapshot, c: Snapshot, log: seq<Entry>)
    requires progs <= progs2 && i < |progs| && RanProgram(progs, i, r, b, c, log)
    ensures |b.indexes| <= |progs2| && |c.indexes| == |b.indexes|
    ensures RanProgram(progs2, i, r, Padded(b, |progs2|), Padded(c, |progs2|), log)
  {
    var index' :|
          && c.indexes == b.indexes[i := index']
          && RanFrom(progs[i], b.list, b.ext, b.indexes[i], c.list, c.ext, index', log)
          && (r.Ok? ==> Materialised(Enabled(progs[i]), b.Stored(), Recorded(progs[i], b.indexes[i]), c.Stored(), Recorded(progs[i], index')));
    assert Padded(c, |progs2|).indexes == Padded(b, |progs2|).indexes[i := index'];
    assert progs2[i] == progs[i];
  }

  /** Fresh programs appended to `z` so far: `i` programs of the whole have run. */
  ghost predicate AppendedSoFar(progs: seq<Prog>, strata: seq<seq<Rule>>, z: Snapshot, i: nat, b: Snapshot, tracked: seq<seq<Entry>>) {
    var progs2, n := AppendProgs(progs, strata), |progs| + |strata|;
    && |z.indexes| == |progs| <= i <= n && |b.indexes| == i && |tracked| == i
    && (forall k | 0 <= k < |progs| :: tracked[k] == [])
    && Extended(progs2, Padded(z, n), Padded(b, n), tracked)
    && (Sound(progs, z) && Layered(progs2) ==> SweptSoFar(progs2, i, Padded(z, n), Padded(b, n), tracked))
  }

  lemma AppendedStart(progs: seq<Prog>, strata: seq<seq<Rule>>, z: Snapshot)
    requires WellFormed(progs, z)
    ensures AppendedSoFar(progs, strata, z, |progs|, z, NoLogs(|progs|))
  {
    var progs2, n := AppendProgs(progs, strata), |progs| + |strata|;
    var a := Padded(z, n);
    PaddedWellFormed(progs, strata, z);
    forall i | 0 <= i < |progs| ensures AddAll(a.indexes[i], NoLogs(|progs|)[i]) == a.indexes[i] {
      assert NoLogs(|progs|)[i] == [];
    }
    assert Extended(progs2, a, a, NoLogs(|progs|));
    if Sound(progs, z) {
      AppendedEnabled(progs, strata);
      PaddedRecords(progs, strata, z);
      EnabledBelow(progs);
      AppendStart(AllEnabled(progs), FreshPart(progs2, |progs|), |progs|, z.ext, z.Stored(), AllRecorded(progs, z.indexes));
    }
  }

  lemma AppendedOn(progs: seq<Prog>, strata: seq<seq<Rule>>, z: Snapshot, k: nat, b: Snapshot, tracked: seq<seq<Entry>>,
                   progsK: seq<Prog>, r: Outcome, c: Snapshot, log: seq<Entry>)
    requires k < |strata| && AppendedSoFar(progs, strata, z, |progs| + k, b, tracked)
    requires progsK <= AppendProgs(progs, strata) && |progsK| == |progs| + k + 1
    requires RanProgram(progsK, |progs| + k, r, Padded(b, |progs| + k + 1), c, log)
    ensures r.Ok? ==> AppendedSoFar(progs, strata, z, |progs| + k + 1, c, tracked + [log])
    ensures r.Err? ==> |c.indexes| == |progs| + k + 1 &&
                       Extended(AppendProgs(progs, strata), Padded(z, |progs| + |strata|), Padded(c, |progs| + |strata|), tracked + [log])
    ensures r.Err? ==> AppendStopped(progs, strata, z, r.error.rule)
  {
    hide Sound, Layered, RanProgram, Extended, SweptSoFar, RanFrom, AppendStopped;
    var progs2, n, i := AppendProgs(progs, strata), |progs| + |strata|, |progs| + k;
    RanProgramPadded(progsK, progs2, i, r, Padded(b, i + 1), c, log);
    assert Padded(Padded(b, i + 1), n) == Padded(b, n) by {
      assert Padded(Padded(b, i + 1), n).indexes == Padded(b, n).indexes;
    }
    RanProgramExtends(progs2, Padded(z, n), Padded(b, n), tracked, r, Padded(c, n), log);
    if r.Ok? && Sound(progs, z) && Layered(progs2) {
      SweptSoFarOn(progs2, i, Padded(z, n), Padded(b, n), tracked, r, Padded(c, n), log);
    }
    if r.Err? {
      FreshStops(progs, strata, z, i, b, tracked, r, c, log);
    }
  }

  lemma FreshStops(progs: seq<Prog>, strata: seq<seq<Rule>>, z: Snapshot, i: nat, b: Snapshot, tracked: seq<seq<Entry>>,
                   r: Outcome, c: Snapshot, log: seq<Entry>)
    requires i < |progs| + |strata| && AppendedSoFar(progs, strata, z, i, b, tracked) && r.Err? && |c.indexes| <= |progs| + |strata|
    requires RanProgram(AppendProgs(progs, strata), i, r, Padded(b, |progs| + |strata|), Padded(c, |progs| + |strata|), log)
    ensures AppendStopped(progs, strata, z, r.error.rule)
  {
    hide Sound, Layered, RanProgram, Extended, SweptSoFar, Stratified, AllEnabled, Perfect, Violates;
    var progs2, n := AppendProgs(progs, strata), |progs| + |strata|;
    if Sound(progs, z) && Layered(progs2) {
      RunStopped(progs2, i, Padded(z, n), Padded(b, n), tracked, r, Padded(c, n), log);
      PaddedStored(z, n);
    }
  }

  lemma PaddedStored(z: Snapshot, n: nat)
    requires |z.indexes| <= n
    ensures Padded(z, n).Stored() == z.Stored()
  {
  }

  /** Fresh strata stopped: over valid strata, the model of old and new rules over the sound store `z` violates `rule`. */
  ghost predicate AppendStopped(progs: seq<Prog>, strata: seq<seq<Rule>>, z: Snapshot, rule: Rule) {
    var progs2 := AppendProgs(progs, strata);
    Sound(progs, z) && Layered(progs2) && Stratified(AllEnabled(progs2)) ==>
      Violates(progs2, Perfect(AllEnabled(progs2), z.Stored(), |progs2|), rule)
  }

  /** What adding fresh strata promises. */
  ghost predicate AppendResult(progs: seq<Prog>, r: Outcome, z: Snapshot, strata: seq<seq<Rule>>, progs': seq<Prog>, c: Snapshot) {
    && (r.Ok? ==>
          && progs' == AppendProgs(progs, strata) && OnlySeeded(progs', z.ext, c.ext)
          && (Layered(progs') && Sound(progs, z) && Stratified(AllEnabled(progs')) && NotConsumed(AllEnabled(progs), FreshPart(progs', |progs|)) ==>
                Sound(progs', c) && (ExactState(progs, z) ==> ExactState(progs', c))))
    && (r.Err? ==> progs' == progs && c == z)
  }

  lemma AppendedEnd(progs: seq<Prog>, strata: seq<seq<Rule>>, z: Snapshot, c: Snapshot, tracked: seq<seq<Entry>>)
    requires AppendedSoFar(progs, strata, z, |progs| + |strata|, c, tracked)
    ensures AppendResult(progs, Ok, z, strata, AppendProgs(progs, strata), c)
  {
    var progs2, n := AppendProgs(progs, strata), |progs| + |strata|;
    hide Extended, Layered, Stratified, NotConsumed, FreshPart, AllEnabled, Consistent, ExactRecords;
    assert Padded(c, n) == c by { assert Padded(c, n).indexes == c.indexes; }
    ExtendedParts(progs2, Padded(z, n), c, tracked);
    if Layered(progs2) && Sound(progs, z) && Stratified(AllEnabled(progs2)) && NotConsumed(AllEnabled(progs), FreshPart(progs2, |progs|)) {
      AppendedEnabled(progs, strata);
      PaddedRecords(progs, strata, z);
      EnabledBelow(progs2);
      var p, f, d, d3 := AllEnabled(progs), FreshPart(progs2, |progs|), AllRecorded(progs, z.indexes), AllRecorded(progs2, c.indexes);
      AppendConsistent(p, f, n, z.ext, z.Stored(), d, c.Stored(), d3);
      LargerBase(p + f, z.ext, c.ext, c.Stored(), d3);
    }
  }

  /** The records of the old programs are untouched, and the list is cut back: nothing has changed. */
  lemma AppendedUndone(progs: seq<Prog>, strata: seq<seq<Rule>>, z: Snapshot, c: Snapshot, tracked: seq<seq<Entry>>)
    requires |z.indexes| == |progs| <= |c.indexes| <= |progs| + |strata|
    requires |tracked| == |c.indexes|
    requires Extended(AppendProgs(progs, strata), Padded(z, |progs| + |strata|), Padded(c, |progs| + |strata|), tracked)
    ensures |z.list| <= |c.list| && Undone(c, |z.list|, tracked).list == z.list && Undone(c, |z.list|, tracked).ext == z.ext
    ensures Undone(c, |z.list|, tracked).indexes[..|progs|] == z.indexes
  {
    var n := |progs| + |strata|;
    UndoRestores(AppendProgs(progs, strata), Padded(z, n), Padded(c, n), tracked);
    var u := Unlogged(Padded(c, n).indexes, tracked);
    forall i | 0 <= i < |progs| ensures Unlogged(c.indexes, tracked)[i] == z.indexes[i] {
      assert Unlogged(c.indexes, tracked)[i] == u[i] == Padded(z, n).indexes[i];
    }
    assert Undone(c, |z.list|, tracked).indexes[..|progs|] == z.indexes;
  }

  // ---- The append check ----

  /** When no active rule consumes a fresh head, no enabled ground rule consumes a fresh ground head. */
  lemma DownstreamUnconsumed(progs: seq<Prog>, active: seq<Rule>, added: seq<Rule>, strata: seq<seq<Rule>>)
    requires forall b :: b in active <==> IsActive(progs, [], b)
    requires forall a | a in added :: !Occurs(progs, a) && Downstream(active, a)
    requires OnceEach(added, strata)
    requires NamesApart(active, added)
    ensures NotConsumed(AllEnabled(progs), FreshPart(AppendProgs(progs, strata), |progs|))
  {
    var progs2 := AppendProgs(progs, strata);
    forall c, e | c in AllEnabled(progs) && e in FreshPart(progs2, |progs|) && e.head.Some?
      ensures e.head.value !in c.pos && e.head.value !in c.neg
    {
      var b := progs[c.prog].rules[c.rid];
      var t: Target := (c.prog, c.rid);
      assert OccursAt(progs, b, t);
      assert IsActive(progs, [], b);
      var k := e.prog - |progs|;
      var a := strata[k][e.rid];
      assert progs2[e.prog] == Prog(e.prog, strata[k], {});
      assert a in strata[k];
      assert InSome(strata, a);
      assert a != b;
      HeadInstance(a, e);
      NoMissedDependency(a, b, e, c);
    }
  }

  /** So old strata followed by valid fresh strata are a valid stratification. */
  lemma AppendedStratified(progs: seq<Prog>, strata: seq<seq<Rule>>)
    requires Stratified(AllEnabled(progs)) && Stratified(AllEnabled(ProgsOf(strata)))
    requires NotConsumed(AllEnabled(progs), FreshPart(AppendProgs(progs, strata), |progs|))
    ensures Stratified(AllEnabled(AppendProgs(progs, strata)))
  {
    var progs2, n := AppendProgs(progs, strata), |progs|;
    var f := FreshPart(progs2, n);
    AppendedEnabled(progs, strata);
    EnabledBelow(progs);
    forall c, d | c in f && d in f && c.head.Some?
      ensures c.head.value in d.pos ==> c.prog <= d.prog
      ensures c.head.value in d.neg ==> c.prog < d.prog
    {
      ShiftedClause(progs, strata, c);
      ShiftedClause(progs, strata, d);
      var c', d' := c.(prog := c.prog - n), d.(prog := d.prog - n);
      assert c' in AllEnabled(ProgsOf(strata)) && d' in AllEnabled(ProgsOf(strata));
    }
    AppendStratified(AllEnabled(progs), f, n);
  }

  lemma ShiftedClause(progs: seq<Prog>, strata: seq<seq<Rule>>, c: Clause)
    requires c in FreshPart(AppendProgs(progs, strata), |progs|)
    ensures c.prog >= |progs| && c.(prog := c.prog - |progs|) in AllEnabled(ProgsOf(strata))
  {
    var k := c.prog - |progs|;
    var c' := c.(prog := k);
    assert AppendProgs(progs, strata)[c.prog] == Prog(c.prog, strata[k], {});
    var rule := strata[k][c.rid];
    var s :| Admits(rule, s) && c == ClauseFor(c.prog, c.rid, rule, s);
    assert c' == ClauseFor(k, c.rid, rule, s);
    assert IsInstance(rule, c');
  }

  // ---- Bringing rules back, one after the other ----

  lemma EnablingMore(progs: seq<Prog>, targets: set<Target>, t: Target)
    ensures Enabling(Enabling(progs, targets), {t}) == Enabling(progs, targets + {t})
  {
    forall i | 0 <= i < |progs| ensures Enabling(Enabling(progs, targets), {t})[i] == Enabling(progs, targets + {t})[i] {
      IdsOfNext(targets, t, i);
      IdsOfOne(t, i);
      if i == t.0 {
        assert progs[i].disabled - IdsOf(targets, i) - {t.1} == progs[i].disabled - (IdsOf(targets, i) + {t.1});
      } else {
        assert progs[i].disabled - IdsOf(targets, i) - {} == progs[i].disabled - IdsOf(targets, i);
      }
    }
  }

  /** Every rule that is to come back can do so, in this order. */
  ghost predicate AllReactivate(progs: seq<Prog>, targets: seq<Target>) {
    forall k | 0 <= k < |targets| :: CanReactivate(Enabling(progs, Elements(targets[..k])), targets[k])
  }

  /** While rules come back: what was logged since `z`, and soundness if `z` was sound. */
  ghost predicate Reviving(progs: seq<Prog>, z: Snapshot, b: Snapshot, runs: seq<Run>, logs: seq<seq<Entry>>, sound: bool) {
    Logged(progs, z, b, logs) && LogsOf(runs, logs) && (sound ==> Sound(progs, b))
  }

  lemma RevivingStart(progs: seq<Prog>, z: Snapshot)
    requires WellFormed(progs, z)
    ensures Reviving(progs, z, z, [], NoLogs(|progs|), Sound(progs, z))
  {
    LoggedStart(progs, z, NoLogs(|progs|));
  }

  ghost function LogsWith(logs: seq<seq<Entry>>, i: nat, log: seq<Entry>): (r: seq<seq<Entry>>)
    ensures i < |logs| ==> r == logs[i := logs[i] + log]
  {
    if i < |logs| then logs[i := logs[i] + log] else logs
  }

  lemma RevivingRun(progs: seq<Prog>, t: Target, z: Snapshot, b: Snapshot, runs: seq<Run>, logs: seq<seq<Entry>>, sound: bool,
                    r: Outcome, c: Snapshot, log: seq<Entry>)
    requires t.0 < |progs| && Layered(progs) && Reviving(progs, z, b, runs, logs, sound)
    requires RanProgram(Enabling(progs, {t}), t.0, r, b, c, log)
    requires sound ==> CanReactivate(progs, t)
    ensures Reviving(Enabling(progs, {t}), z, c, runs + [(t.0, log)], LogsWith(logs, t.0, log), sound && r.Ok?)
    ensures Elements(Heads(log)) <= c.Stored()
    ensures r.Err? ==> StoppedAt(progs, t, b.Stored(), r.error.rule)
  {
    var progs1 := Enabling(progs, {t});
    LoggedEnabling(progs, z, b, logs, t);
    LoggedProgram(progs1, z, b, logs, t.0, r, c, log);
    LogsOfNext(runs, logs, t.0, log);
    RanProgramParts(progs1, t.0, r, b, c, log);
    ExtendedParts(progs1, z, c, logs[t.0 := logs[t.0] + log]);
    NewHeads(c, logs, t.0, log, logs[t.0 := logs[t.0] + log]);
    if sound && r.Ok? {
      WellFormedFrom(progs, z, b, logs);
      ReactivatedSound(progs, t, b, c, log);
    }
    if r.Err? {
      RunStoppedAt(progs, t, r, b, c, log);
    }
  }

  lemma WellFormedFrom(progs: seq<Prog>, z: Snapshot, b: Snapshot, logs: seq<seq<Entry>>)
    requires Logged(progs, z, b, logs)
    ensures WellFormed(progs, b)
  {
  }

  lemma RanProgramParts(progs: seq<Prog>, i: nat, r: Outcome, b: Snapshot, c: Snapshot, log: seq<Entry>)
    requires i < |progs| && RanProgram(progs, i, r, b, c, log)
    ensures b.ext <= c.ext && (r.Ok? ==> r == Ok)
  {
  }

  lemma NewHeads(c: Snapshot, logs: seq<seq<Entry>>, i: nat, log: seq<Entry>, logs': seq<seq<Entry>>)
    requires i < |logs| && logs' == logs[i := logs[i] + log]
    requires forall j, e: Entry | 0 <= j < |logs'| && e in logs'[j] :: e.0 in c.list
    ensures Elements(Heads(log)) <= c.Stored()
  {
    forall q | q in Heads(log) ensures q in c.list {
      var k :| 0 <= k < |log| && Heads(log)[k] == q;
      assert log[k] in logs'[i];
    }
  }

  lemma RevivingFed(progs: seq<Prog>, i: nat, delta: set<Quad>, z: Snapshot, b: Snapshot, runs: seq<Run>, logs: seq<seq<Entry>>, sound: bool,
                    r: Outcome, c: Snapshot, log: seq<Entry>)
    requires i < |progs| && Layered(progs) && Reviving(progs, z, b, runs, logs, sound) && delta <= b.Stored()
    requires RanProgramFromFacts(progs, i, delta, r, b, c, log)
    ensures Reviving(progs, z, c, runs + [(i, log)], LogsWith(logs, i, log), sound && r.Ok?)
    ensures sound ==> r.Ok?
    ensures delta + Elements(Heads(log)) <= c.Stored()
  {
    LoggedFed(progs, z, b, logs, i, delta, r, c, log);
    LogsOfNext(runs, logs, i, log);
    FedParts(progs, i, delta, r, b, c, log);
    ExtendedParts(progs, z, c, logs[i := logs[i] + log]);
    NewHeads(c, logs, i, log, logs[i := logs[i] + log]);
    if sound {
      WellFormedFrom(progs, z, b, logs);
      FedNeverStops(progs, i, delta, r, b, c, log);
      OkOnly(r);
      FedSound(progs, i, delta, b, c, log);
    }
  }

  lemma OkOnly(r: Outcome)
    requires r.Ok?
    ensures r == Ok
  {
  }

  lemma FedParts(progs: seq<Prog>, i: nat, delta: set<Quad>, r: Outcome, b: Snapshot, c: Snapshot, log: seq<Entry>)
    requires i < |progs| && RanProgramFromFacts(progs, i, delta, r, b, c, log)
    ensures b.ext <= c.ext && b.Stored() <= c.Stored() && (r.Ok? ==> r == Ok)
  {
    var index' :| c.indexes == b.indexes[i := index'] && RanFromFacts(progs[i], delta, b.list, b.ext, b.indexes[i], c.list, c.ext, index', log);
    var start :| StartsFrom(progs[i], delta, b.list, b.ext, start, c.ext) && Evolves(progs[i], start, b.indexes[i], c.list, index', log);
    ElementsPrefix(b.list, start);
    ElementsPrefix(start, c.list);
  }

  // ---- The whole operation undone ----

  /** Undoing runs and appended programs together gives the state before. */
  lemma InsertionUndone(progs: seq<Prog>, z: Snapshot, z1: Snapshot, logs: seq<seq<Entry>>, runs1: seq<Run>, strata: seq<seq<Rule>>,
                        c: Snapshot, tracked: seq<seq<Entry>>, runs: seq<Run>, undone: seq<Index>)
    requires Logged(progs, z, z1, logs) && LogsOf(runs1, logs)
    requires |progs| <= |c.indexes| <= |progs| + |strata| && |tracked| == |c.indexes| && forall k | 0 <= k < |progs| :: tracked[k] == []
    requires Extended(AppendProgs(progs, strata), Padded(z1, |progs| + |strata|), Padded(c, |progs| + |strata|), tracked)
    requires forall i | 0 <= i < |progs| :: LogOf(runs, i) == LogOf(runs1, i)
    requires UnrecordedRuns(c.indexes, runs, undone)
    ensures |z.list| <= |c.list| && c.list[..|z.list|] == z.list && c.ext * Elements(z.list) == z.ext
    ensures undone[..|progs|] == z.indexes
  {
    UndoRestores(progs, z, z1, logs);
    ExtendedParts(progs, z, z1, logs);
    AppendedUndone(progs, strata, z1, c, tracked);
    ElementsPrefix(z.list, z1.list);
    assert c.list[..|z1.list|] == z1.list && c.list[..|z.list|] == z1.list[..|z.list|] == z.list;
    assert c.ext * Elements(z.list) == (c.ext * Elements(z1.list)) * Elements(z.list);
    forall i | 0 <= i < |progs| ensures undone[i] == z.indexes[i] {
      assert Unlogged(c.indexes, tracked)[i] == c.indexes[i];
      assert Undone(c, |z1.list|, tracked).indexes[..|progs|][i] == z1.indexes[i];
      assert c.indexes[i] == z1.indexes[i];
      assert Unlogged(z1.indexes, logs)[i] == z.indexes[i];
    }
    assert undone[..|progs|] == z.indexes;
  }

  // ---- The check in full ----

  /** No rule occurs twice. */
  ghost predicate RulesOnce(progs: seq<Prog>) {
    forall r, t: Target, u: Target | OccursAt(progs, r, t) && OccursAt(progs, r, u) :: t == u
  }

  /** The names of a head that comes in do not occur in the bodies of the other active rules. */
  ghost predicate NamesApart(active: seq<Rule>, added: seq<Rule>) {
    forall a, b | a in added && b in active && a != b && a.head.NormalHead? :: RenamedApart(a.head.pattern, b)
  }

  /** Retracted rules that passed the check can come back. */
  lemma DownstreamReactivates(progs: seq<Prog>, active: seq<Rule>, targets: seq<Target>, k: nat)
    requires k < |targets| && NoDup(targets) && RulesOnce(progs)
    requires forall t | t in targets :: t.0 < |progs| && t.1 < |progs[t.0].rules| && t.1 in progs[t.0].disabled
    requires forall b :: b in active <==> IsActive(progs, targets, b)
    requires Downstream(active, progs[targets[k].0].rules[targets[k].1])
    requires NamesApart(active, [progs[targets[k].0].rules[targets[k].1]])
    requires Stratified(AllEnabled(Enabling(progs, Elements(targets))))
    ensures CanReactivate(Enabling(progs, Elements(targets[..k])), targets[k])
  {
    var before, t := Elements(targets[..k]), targets[k];
    var progsK := Enabling(progs, before);
    assert t in targets;
    EnablingMore(progs, before, t);
    EnabledShrinks(progs, before + {t}, Elements(targets), targets, k);
    forall c, e | c in AllEnabled(progsK) && e in Reactivated(progsK, t) && e.head.Some?
      ensures e.head.value !in c.pos && e.head.value !in c.neg
    {
      NotConsumedPair(progs, active, targets, k, c, e);
    }
  }

  lemma EnabledShrinks(progs: seq<Prog>, some: set<Target>, all: set<Target>, targets: seq<Target>, k: nat)
    requires k < |targets| && some == Elements(targets[..k]) + {targets[k]} && all == Elements(targets)
    ensures Stratified(AllEnabled(Enabling(progs, all))) ==> Stratified(AllEnabled(Enabling(progs, some)))
  {
    forall t | t in some ensures t in all {
      if t in targets[..k] {
      } else {
        assert t == targets[k];
      }
    }
    SomeEnabled(progs, some, all);
  }

  /** No enabled ground rule uses a ground head of another rule that came back. */
  lemma ReturnedPair(progs: seq<Prog>, active: seq<Rule>, targets: seq<Target>, t: Target, c: Clause, e: Clause)
    requires t in targets && RulesOnce(progs)
    requires forall t | t in targets :: t.0 < |progs| && t.1 < |progs[t.0].rules| && t.1 in progs[t.0].disabled
    requires forall b :: b in active <==> IsActive(progs, targets, b)
    requires Downstream(active, progs[t.0].rules[t.1])
    requires NamesApart(active, [progs[t.0].rules[t.1]])
    requires c in AllEnabled(Enabling(progs, Elements(targets))) && IsInstance(progs[t.0].rules[t.1], e) && e.head.Some?
    requires (c.prog, c.rid) != t
    ensures e.head.value !in c.pos && e.head.value !in c.neg
  {
    var all := Elements(targets);
    var a := progs[t.0].rules[t.1];
    assert a in [a];
    var b := progs[c.prog].rules[c.rid];
    var u: Target := (c.prog, c.rid);
    assert OccursAt(progs, b, u) && IsInstance(b, c);
    assert IsActive(progs, targets, b) by {
      if c.rid in progs[c.prog].disabled {
        assert c.rid in IdsOf(all, c.prog);
        var v :| v in all && v.0 == c.prog && v.1 == c.rid;
        assert v == u && u in targets;
      }
    }
    assert OccursAt(progs, a, t);
    assert b != a;
    HeadInstance(a, e);
    NoMissedDependency(a, b, e, c);
  }

  lemma NotConsumedPair(progs: seq<Prog>, active: seq<Rule>, targets: seq<Target>, k: nat, c: Clause, e: Clause)
    requires k < |targets| && NoDup(targets) && RulesOnce(progs)
    requires forall t | t in targets :: t.0 < |progs| && t.1 < |progs[t.0].rules| && t.1 in progs[t.0].disabled
    requires forall b :: b in active <==> IsActive(progs, targets, b)
    requires Downstream(active, progs[targets[k].0].rules[targets[k].1])
    requires NamesApart(active, [progs[targets[k].0].rules[targets[k].1]])
    requires c in AllEnabled(Enabling(progs, Elements(targets[..k]))) && e in Reactivated(Enabling(progs, Elements(targets[..k])), targets[k])
    requires e.head.Some?
    ensures e.head.value !in c.pos && e.head.value !in c.neg
  {
    var before, t := Elements(targets[..k]), targets[k];
    assert t in targets;
    EnablingMore(progs, before, t);
    assert IsInstance(progs[t.0].rules[t.1], e);
    StillDisabled(progs, targets, k);
    SomeEnabled(progs, before, Elements(targets));
    ReturnedPair(progs, active, targets, t, c, e);
  }

  lemma SomeEnabled(progs: seq<Prog>, some: set<Target>, all: set<Target>)
    requires some <= all
    ensures AllEnabled(Enabling(progs, some)) <= AllEnabled(Enabling(progs, all))
  {
    forall i | 0 <= i < |progs| ensures IdsOf(some, i) <= IdsOf(all, i) {
    }
  }

  lemma StillDisabled(progs: seq<Prog>, targets: seq<Target>, k: nat)
    requires k < |targets| && NoDup(targets)
    requires forall t | t in targets :: t.0 < |progs| && t.1 in progs[t.0].disabled
    ensures targets[k].0 < |progs| && targets[k].1 in Enabling(progs, Elements(targets[..k]))[targets[k].0].disabled
  {
    var t := targets[k];
    assert t in targets;
  }

  lemma EnablingOne(progs: seq<Prog>, t: Target)
    requires t.0 < |progs|
    ensures Enabling(progs, {t}) == progs[t.0 := progs[t.0].(disabled := progs[t.0].disabled - {t.1})]
  {
    DisablingNone(progs);
    DisablingNext(progs, {}, t);
    assert {} + {t} == {t};
  }

  /** Disabling again what was disabled before undoes the reactivation. */
  lemma DisablingUndoes(progs: seq<Prog>, targets: set<Target>)
    requires forall t | t in targets :: t.0 < |progs| && t.1 in progs[t.0].disabled
    ensures Disabling(Enabling(progs, targets), targets) == progs
  {
    forall i | 0 <= i < |progs| ensures Disabling(Enabling(progs, targets), targets)[i] == progs[i] {
      assert IdsOf(targets, i) <= progs[i].disabled;
      assert progs[i].disabled - IdsOf(targets, i) + IdsOf(targets, i) == progs[i].disabled;
    }
  }

  lemma AppendProgsNext(progs: seq<Prog>, strata: seq<seq<Rule>>, k: nat)
    requires k < |strata|
    ensures AppendProgs(progs, strata[..k + 1]) == AppendProgs(progs, strata[..k]) + [Prog(|progs| + k, strata[k], {})]
    ensures AppendProgs(progs, strata[..k + 1]) <= AppendProgs(progs, strata)
  {
    var a, b := AppendProgs(progs, strata[..k + 1]), AppendProgs(progs, strata[..k]) + [Prog(|progs| + k, strata[k], {})];
    forall i | 0 <= i < |a| ensures a[i] == b[i] && a[i] == AppendProgs(progs, strata)[i] {
      if i >= |progs| {
        assert a[|progs| + (i - |progs|)] == Prog(i, strata[..k + 1][i - |progs|], {});
        assert AppendProgs(progs, strata)[|progs| + (i - |progs|)] == Prog(i, strata[i - |progs|], {});
        if i < |progs| + k { assert AppendProgs(progs, strata[..k])[|progs| + (i - |progs|)] == Prog(i, strata[..k][i - |progs|], {}); }
      }
    }
  }

  lemma AppendProgsNone(progs: seq<Prog>, strata: seq<seq<Rule>>)
    ensures AppendProgs(progs, strata[..0]) == progs && AppendProgs(progs, strata[..|strata|]) == AppendProgs(progs, strata)
  {
    assert strata[..|strata|] == strata;
  }

  /** Runs of programs from `n` on log nothing for the programs before. */
  ghost predicate LogsKept(n: nat, runs0: seq<Run>, runs: seq<Run>) {
    forall i: nat | i < n :: LogOf(runs, i) == LogOf(runs0, i)
  }

  lemma LogsKeptNext(n: nat, runs0: seq<Run>, runs: seq<Run>, run: Run)
    requires LogsKept(n, runs0, runs) && run.0 >= n
    ensures LogsKept(n, runs0, runs + [run])
  {
    forall i: nat | i < n ensures LogOf(runs + [run], i) == LogOf(runs0, i) {
      LogOfNext(runs, run, i);
    }
  }

  ghost predicate RunsBelow(runs: seq<Run>, n: nat) {
    forall k | 0 <= k < |runs| :: runs[k].0 < n
  }

  /** Rules come back in order: after the first `k`, the next is checked against what is enabled then. */
  lemma NextReactivates(progs: seq<Prog>, targets: seq<Target>, k: nat)
    requires k < |targets| && AllReactivate(progs, targets)
    ensures CanReactivate(Enabling(progs, Elements(targets[..k])), targets[k])
  {
  }

  /** Fresh programs being appended at run time: the first `k` are in place and have run. */
  ghost predicate Growing(progs: seq<Prog>, strata: seq<seq<Rule>>, z: Snapshot, k: nat, progsNow: seq<Prog>, b: Snapshot,
                            tracked: seq<seq<Entry>>) {
    && k <= |strata| && progsNow == AppendProgs(progs, strata[..k])
    && AppendedSoFar(progs, strata, z, |progs| + k, b, tracked)
  }

  /** A fresh program failed: what can be undone. */
  ghost predicate AppendFailed(progs: seq<Prog>, strata: seq<seq<Rule>>, z: Snapshot, b: Snapshot, tracked: seq<seq<Entry>>) {
    && |z.indexes| == |progs| <= |b.indexes| <= |progs| + |strata| && |tracked| == |b.indexes|
    && (forall k | 0 <= k < |progs| :: tracked[k] == [])
    && Extended(AppendProgs(progs, strata), Padded(z, |progs| + |strata|), Padded(b, |progs| + |strata|), tracked)
  }

  lemma AppendingStart(progs: seq<Prog>, strata: seq<seq<Rule>>, z: Snapshot)
    requires WellFormed(progs, z)
    ensures Growing(progs, strata, z, 0, progs, z, NoLogs(|progs|))
  {
    AppendProgsNone(progs, strata);
    AppendedStart(progs, strata, z);
  }

  lemma AppendingOn(progs: seq<Prog>, strata: seq<seq<Rule>>, z: Snapshot, k: nat, progs0: seq<Prog>, b: Snapshot, tracked: seq<seq<Entry>>,
                    progs1: seq<Prog>, b1: Snapshot, r: Outcome, c: Snapshot, log: seq<Entry>)
    requires k < |strata| && Growing(progs, strata, z, k, progs0, b, tracked)
    requires progs1 == progs0 + [Prog(|progs| + k, strata[k], {})]
    requires b1.list == b.list && b1.ext == b.ext && b1.indexes == b.indexes + [map[]]
    requires |progs0| == |progs| + k && RanProgram(progs1, |progs| + k, r, b1, c, log)
    ensures r.Ok? ==> Growing(progs, strata, z, k + 1, progs1, c, tracked + [log])
    ensures r.Err? ==> AppendFailed(progs, strata, z, c, tracked + [log]) && AppendStopped(progs, strata, z, r.error.rule)
  {
    hide *;
    GrowingParts(progs, strata, z, k, progs0, b, tracked);
    AppendProgsNext(progs, strata, k);
    AppendedSizes(progs, strata, z, |progs| + k, b, tracked);
    PaddedByOne(b, b1);
    AppendedOn(progs, strata, z, k, b, tracked, progs1, r, c, log);
    if r.Ok? {
      GrowingIs(progs, strata, z, k + 1, progs1, c, tracked + [log]);
    } else {
      AppendFailedIs(progs, strata, z, c, tracked, log);
    }
  }

  lemma GrowingParts(progs: seq<Prog>, strata: seq<seq<Rule>>, z: Snapshot, k: nat, progs0: seq<Prog>, b: Snapshot, tracked: seq<seq<Entry>>)
    requires Growing(progs, strata, z, k, progs0, b, tracked)
    ensures k <= |strata| && progs0 == AppendProgs(progs, strata[..k]) && AppendedSoFar(progs, strata, z, |progs| + k, b, tracked)
  {
    hide AppendedSoFar, AppendProgs;
  }

  lemma GrowingIs(progs: seq<Prog>, strata: seq<seq<Rule>>, z: Snapshot, k: nat, progs0: seq<Prog>, b: Snapshot, tracked: seq<seq<Entry>>)
    requires k <= |strata| && progs0 == AppendProgs(progs, strata[..k]) && AppendedSoFar(progs, strata, z, |progs| + k, b, tracked)
    ensures Growing(progs, strata, z, k, progs0, b, tracked)
  {
    hide AppendedSoFar, AppendProgs;
  }

  lemma AppendFailedIs(progs: seq<Prog>, strata: seq<seq<Rule>>, z: Snapshot, c: Snapshot, tracked: seq<seq<Entry>>, log: seq<Entry>)
    requires |z.indexes| == |progs| <= |tracked| < |c.indexes| <= |progs| + |strata| && |tracked| + 1 == |c.indexes|
    requires forall k | 0 <= k < |progs| :: tracked[k] == []
    requires Extended(AppendProgs(progs, strata), Padded(z, |progs| + |strata|), Padded(c, |progs| + |strata|), tracked + [log])
    ensures AppendFailed(progs, strata, z, c, tracked + [log])
  {
    hide Extended, AppendProgs, Padded;
    assert forall j | 0 <= j < |progs| :: (tracked + [log])[j] == tracked[j];
  }

  lemma AppendedSizes(progs: seq<Prog>, strata: seq<seq<Rule>>, z: Snapshot, i: nat, b: Snapshot, tracked: seq<seq<Entry>>)
    requires AppendedSoFar(progs, strata, z, i, b, tracked)
    ensures |z.indexes| == |progs| <= i <= |progs| + |strata| && |b.indexes| == i == |tracked|
    ensures forall k | 0 <= k < |progs| :: tracked[k] == []
  {
  }

  lemma PaddedByOne(b: Snapshot, b1: Snapshot)
    requires b1.list == b.list && b1.ext == b.ext && b1.indexes == b.indexes + [map[]]
    ensures b1 == Padded(b, |b.indexes| + 1)
  {
    assert b1.indexes == Padded(b, |b.indexes| + 1).indexes;
  }

  lemma AppendingEnd(progs: seq<Prog>, strata: seq<seq<Rule>>, z: Snapshot, progs1: seq<Prog>, c: Snapshot, tracked: seq<seq<Entry>>)
    requires Growing(progs, strata, z, |strata|, progs1, c, tracked)
    ensures AppendResult(progs, Ok, z, strata, progs1, c)
  {
    AppendProgsNone(progs, strata);
    AppendedEnd(progs, strata, z, c, tracked);
  }

  lemma AppendingSize(progs: seq<Prog>, strata: seq<seq<Rule>>, z: Snapshot, k: nat, progs0: seq<Prog>, b: Snapshot, tracked: seq<seq<Entry>>)
    requires Growing(progs, strata, z, k, progs0, b, tracked)
    ensures |progs0| == |progs| + k == |b.indexes| && k <= |strata|
  {
  }

  /** What a failed run of fresh programs on top of reactivated rules leaves can be undone to the beginning. */
  lemma FailedUndone(progs: seq<Prog>, z: Snapshot, z1: Snapshot, runs1: seq<Run>, logs: seq<seq<Entry>>, sound: bool,
                     strata: seq<seq<Rule>>, c: Snapshot, tracked: seq<seq<Entry>>, runs: seq<Run>, undone: seq<Index>)
    requires Reviving(progs, z, z1, runs1, logs, sound) && AppendFailed(progs, strata, z1, c, tracked)
    requires LogsKept(|progs|, runs1, runs) && UnrecordedRuns(c.indexes, runs, undone)
    ensures |z.list| <= |c.list| && c.list[..|z.list|] == z.list && c.ext * Elements(z.list) == z.ext
    ensures |undone| >= |progs| && undone[..|progs|] == z.indexes
  {
    InsertionUndone(progs, z, z1, logs, runs1, strata, c, tracked, runs, undone);
  }

  /** Likewise when bringing rules back failed. */
  lemma RevivingUndone(progs: seq<Prog>, z: Snapshot, b: Snapshot, runs: seq<Run>, logs: seq<seq<Entry>>, sound: bool, undone: seq<Index>)
    requires Reviving(progs, z, b, runs, logs, sound) && UnrecordedRuns(b.indexes, runs, undone)
    ensures |z.list| <= |b.list| && b.list[..|z.list|] == z.list && b.ext * Elements(z.list) == z.ext
    ensures undone == z.indexes
  {
    UndoRestores(progs, z, b, logs);
    ExtendedParts(progs, z, b, logs);
    forall i | 0 <= i < |undone| ensures undone[i] == z.indexes[i] {
      assert Unlogged(b.indexes, logs)[i] == z.indexes[i];
    }
  }

  lemma RevivingParts(progs: seq<Prog>, z: Snapshot, b: Snapshot, runs: seq<Run>, logs: seq<seq<Entry>>, sound: bool)
    requires Reviving(progs, z, b, runs, logs, sound)
    ensures RunsBelow(runs, |progs|) && (sound ==> Sound(progs, b)) && OnlySeeded(progs, z.ext, b.ext)
    ensures |z.indexes| == |progs| == |b.indexes| && |z.list| <= |b.list|
  {
    ExtendedParts(progs, z, b, logs);
  }

  // ---- What a rule insertion promises ----

  /** Bringing back `targets` and then appending `strata` led from `z` to `c`. */
  ghost predicate RulesInserted(progs: seq<Prog>, z: Snapshot, targets: seq<Target>, strata: seq<seq<Rule>>, progs': seq<Prog>, c: Snapshot) {
    exists z1 :: InsertedThrough(progs, z, targets, z1, strata, progs', c)
  }

  ghost predicate InsertedThrough(progs: seq<Prog>, z: Snapshot, targets: seq<Target>, z1: Snapshot, strata: seq<seq<Rule>>,
                                  progs': seq<Prog>, c: Snapshot) {
    var progs1 := Enabling(progs, Elements(targets));
    && OnlySeeded(progs1, z.ext, z1.ext)
    && (Sound(progs, z) && AllReactivate(progs, targets) ==> Sound(progs1, z1))
    && AppendResult(progs1, Ok, z1, strata, progs', c)
  }

  /** The names of a requested head do not occur in the bodies of the other active rules. */
  ghost predicate InsertionNames(progs: seq<Prog>, newRules: seq<Rule>, targets: seq<Target>) {
    forall a, b | a in newRules && a != b && a.head.NormalHead? && IsActive(progs, targets, b) :: RenamedApart(a.head.pattern, b)
  }

  /** The checks that passed before anything was changed. */
  ghost predicate InsertionChecked(progs: seq<Prog>, newRules: seq<Rule>, targets: seq<Target>, added: seq<Rule>, strata: seq<seq<Rule>>) {
    && Classified(progs, newRules, targets, added) && OnceEach(added, strata)
    && exists active :: (forall b :: b in active <==> IsActive(progs, targets, b)) && AllDownstream(progs, active, targets, added)
  }

  ghost predicate AllDownstream(progs: seq<Prog>, active: seq<Rule>, targets: seq<Target>, added: seq<Rule>) {
    && (forall a | a in added :: Downstream(active, a))
    && (forall t: Target, a | t in targets && OccursAt(progs, a, t) :: Downstream(active, a))
  }

  lemma TargetsDisabled(progs: seq<Prog>, newRules: seq<Rule>, targets: seq<Target>, added: seq<Rule>)
    requires Classified(progs, newRules, targets, added)
    ensures forall t | t in targets ::
              && t.0 < |progs| && t.1 < |progs[t.0].rules| && t.1 in progs[t.0].disabled
              && OccursAt(progs, progs[t.0].rules[t.1], t) && progs[t.0].rules[t.1] in newRules
  {
    forall t | t in targets
      ensures t.0 < |progs| && t.1 < |progs[t.0].rules| && t.1 in progs[t.0].disabled
      ensures OccursAt(progs, progs[t.0].rules[t.1], t) && progs[t.0].rules[t.1] in newRules
    {
      assert ToReactivate(progs, newRules, t);
      var r :| r in newRules && FirstAt(progs, r, t);
    }
  }

  /** The rules active before are those enabled once the targets are back. */
  lemma ActiveAfter(progs: seq<Prog>, targets: seq<Target>, b: Rule)
    requires forall t | t in targets :: t.0 < |progs| && t.1 < |progs[t.0].rules| && t.1 in progs[t.0].disabled
    ensures IsActive(progs, targets, b) <==> IsActive(Enabling(progs, Elements(targets)), [], b)
    ensures Occurs(progs, b) <==> Occurs(Enabling(progs, Elements(targets)), b)
  {
    var progs1 := Enabling(progs, Elements(targets));
    forall t: Target ensures OccursAt(progs, b, t) <==> OccursAt(progs1, b, t) {
    }
    forall t: Target | OccursAt(progs, b, t)
      ensures (t in targets || t.1 !in progs[t.0].disabled) <==> t.1 !in progs1[t.0].disabled
    {
      if t in targets { assert t.1 in IdsOf(Elements(targets), t.0); }
      if t.1 in IdsOf(Elements(targets), t.0) {
        var u :| u in Elements(targets) && u.0 == t.0 && u.1 == t.1;
        assert u == t;
      }
    }
  }

  /** Rules that passed the checks can come back one after the other. */
  lemma CheckedReactivate(progs: seq<Prog>, newRules: seq<Rule>, targets: seq<Target>, added: seq<Rule>, strata: seq<seq<Rule>>)
    requires RulesOnce(progs) && InsertionChecked(progs, newRules, targets, added, strata) && InsertionNames(progs, newRules, targets)
    requires Stratified(AllEnabled(Enabling(progs, Elements(targets))))
    ensures AllReactivate(progs, targets)
  {
    var active :| (forall b :: b in active <==> IsActive(progs, targets, b)) && AllDownstream(progs, active, targets, added);
    TargetsDisabled(progs, newRules, targets, added);
    forall k | 0 <= k < |targets| ensures CanReactivate(Enabling(progs, Elements(targets[..k])), targets[k]) {
      assert targets[k] in targets;
      DownstreamReactivates(progs, active, targets, k);
    }
  }

  /**
   * Adding rules is a splitting: when the checks passed, no name is shared and the resulting strata are
   * valid, the new state is sound for the old and the new rules together.
   */
  lemma RulesInsertedSound(progs: seq<Prog>, z: Snapshot, newRules: seq<Rule>, targets: seq<Target>, added: seq<Rule>,
                           strata: seq<seq<Rule>>, progs': seq<Prog>, c: Snapshot)
    requires Layered(progs) && Layered(progs') && Sound(progs, z) && RulesOnce(progs)
    requires InsertionChecked(progs, newRules, targets, added, strata)
    requires InsertionNames(progs, newRules, targets) && Stratified(AllEnabled(progs'))
    requires RulesInserted(progs, z, targets, strata, progs', c)
    ensures Sound(progs', c)
  {
    var z1 :| InsertedThrough(progs, z, targets, z1, strata, progs', c);
    var active :| (forall b :: b in active <==> IsActive(progs, targets, b)) && AllDownstream(progs, active, targets, added);
    var progs1 := Enabling(progs, Elements(targets));
    TargetsDisabled(progs, newRules, targets, added);
    AppendedEnabled(progs1, strata);
    CheckedReactivate(progs, newRules, targets, added, strata);
    forall b ensures b in active <==> IsActive(progs1, [], b) { ActiveAfter(progs, targets, b); }
    forall a | a in added ensures !Occurs(progs1, a) { ActiveAfter(progs, targets, a); }
    DownstreamUnconsumed(progs1, active, added, strata);
  }

  /** Valid fresh strata on what is valid once the retracted rules are back are enough. */
  lemma InsertionStratified(progs: seq<Prog>, newRules: seq<Rule>, targets: seq<Target>, added: seq<Rule>, strata: seq<seq<Rule>>)
    requires Stratified(AllEnabled(Enabling(progs, Elements(targets)))) && Stratified(AllEnabled(ProgsOf(strata)))
    requires InsertionChecked(progs, newRules, targets, added, strata) && InsertionNames(progs, newRules, targets)
    ensures Stratified(AllEnabled(AppendProgs(Enabling(progs, Elements(targets)), strata)))
  {
    var active :| (forall b :: b in active <==> IsActive(progs, targets, b)) && AllDownstream(progs, active, targets, added);
    var progs1 := Enabling(progs, Elements(targets));
    TargetsDisabled(progs, newRules, targets, added);
    forall b ensures b in active <==> IsActive(progs1, [], b) { ActiveAfter(progs, targets, b); }
    forall a | a in added ensures !Occurs(progs1, a) { ActiveAfter(progs, targets, a); }
    DownstreamUnconsumed(progs1, active, added, strata);
    AppendedStratified(progs1, strata);
  }

  lemma {:induction false} FirstFrom(progs: seq<Prog>, r: Rule, t: Target) returns (u: Target)
    requires OccursAt(progs, r, t)
    ensures FirstAt(progs, r, u)
    decreases t.0, t.1
  {
    if FirstAt(progs, r, t) {
      u := t;
    } else {
      var v: Target :| OccursAt(progs, r, v) && !(t.0 < v.0 || (t.0 == v.0 && t.1 <= v.1));
      u := FirstFrom(progs, r, v);
    }
  }

  /** Afterwards the active rules are those of before and the requested ones. */
  ghost predicate RequestedActive(progs: seq<Prog>, newRules: seq<Rule>, progs': seq<Prog>) {
    forall b :: IsActive(progs', [], b) <==> IsActive(progs, [], b) || b in newRules
  }

  lemma RequestedAreActive(progs: seq<Prog>, newRules: seq<Rule>, targets: seq<Target>, added: seq<Rule>, strata: seq<seq<Rule>>)
    requires Classified(progs, newRules, targets, added) && OnceEach(added, strata)
    ensures RequestedActive(progs, newRules, AppendProgs(Enabling(progs, Elements(targets)), strata))
  {
    var progs1 := Enabling(progs, Elements(targets));
    TargetsDisabled(progs, newRules, targets, added);
    forall b ensures IsActive(AppendProgs(progs1, strata), [], b) <==> IsActive(progs, [], b) || b in newRules {
      ActiveAfter(progs, targets, b);
      ActiveAppended(progs1, strata, b);
      assert InSome(strata, b) <==> b in added;
      ActiveOrTarget(progs, newRules, targets, b);
    }
  }

  lemma ActiveAppended(progs: seq<Prog>, strata: seq<seq<Rule>>, b: Rule)
    ensures IsActive(AppendProgs(progs, strata), [], b) <==> IsActive(progs, [], b) || InSome(strata, b)
  {
    var progs2 := AppendProgs(progs, strata);
    if IsActive(progs2, [], b) {
      var t: Target :| OccursAt(progs2, b, t) && (t in [] || t.1 !in progs2[t.0].disabled);
      if t.0 >= |progs| {
        assert progs2[|progs| + (t.0 - |progs|)].rules == strata[t.0 - |progs|];
        assert b in strata[t.0 - |progs|];
      } else {
        assert OccursAt(progs, b, t);
      }
    }
    if IsActive(progs, [], b) {
      var t: Target :| OccursAt(progs, b, t) && (t in [] || t.1 !in progs[t.0].disabled);
      assert OccursAt(progs2, b, t);
    }
    if InSome(strata, b) {
      var k :| 0 <= k < |strata| && b in strata[k];
      var j :| 0 <= j < |strata[k]| && strata[k][j] == b;
      assert progs2[|progs| + k].rules == strata[k];
      assert OccursAt(progs2, b, (|progs| + k, j));
    }
  }

  lemma ActiveOrTarget(progs: seq<Prog>, newRules: seq<Rule>, targets: seq<Target>, b: Rule)
    requires forall t :: t in targets <==> ToReactivate(progs, newRules, t)
    ensures IsActive(progs, targets, b) || (b in newRules && !Occurs(progs, b)) <==> IsActive(progs, [], b) || b in newRules
  {
    if IsActive(progs, targets, b) && !IsActive(progs, [], b) {
      var t: Target :| OccursAt(progs, b, t) && (t in targets || t.1 !in progs[t.0].disabled);
      assert ToReactivate(progs, newRules, t);
    }
    if b in newRules && Occurs(progs, b) {
      var t: Target :| OccursAt(progs, b, t);
      var u := FirstFrom(progs, b, t);
      assert u.1 in progs[u.0].disabled ==> ToReactivate(progs, newRules, u);
      assert OccursAt(progs, b, u);
    }
    if IsActive(progs, [], b) {
      var t: Target :| OccursAt(progs, b, t) && (t in [] || t.1 !in progs[t.0].disabled);
      assert OccursAt(progs, b, t);
    }
  }

  /** No rule comes to occur twice. */
  lemma RulesStayOnce(progs: seq<Prog>, newRules: seq<Rule>, targets: seq<Target>, added: seq<Rule>, strata: seq<seq<Rule>>)
    requires RulesOnce(progs) && Classified(progs, newRules, targets, added) && OnceEach(added, strata)
    ensures RulesOnce(AppendProgs(Enabling(progs, Elements(targets)), strata))
  {
    var n, progs1, progs2 := |progs|, Enabling(progs, Elements(targets)), AppendProgs(Enabling(progs, Elements(targets)), strata);
    forall r, t: Target, u: Target | OccursAt(progs2, r, t) && OccursAt(progs2, r, u) ensures t == u {
      OldOrFresh(progs1, strata, r, t);
      OldOrFresh(progs1, strata, r, u);
      if t.0 < n || u.0 < n {
        OnlyOld(progs, progs1, added, strata, r, if t.0 < n then t else u);
        assert OccursAt(progs, r, t) && OccursAt(progs, r, u);
      } else {
        SamePlace(added, strata, r, t.0 - n, t.1, u.0 - n, u.1);
      }
    }
  }

  lemma OnlyOld(progs: seq<Prog>, progs1: seq<Prog>, added: seq<Rule>, strata: seq<seq<Rule>>, r: Rule, t: Target)
    requires OnceEach(added, strata) && (forall x | x in added :: !Occurs(progs, x))
    requires |progs1| == |progs| && (forall i | 0 <= i < |progs| :: progs1[i].rules == progs[i].rules) && OccursAt(progs1, r, t)
    ensures !InSome(strata, r) && forall u: Target :: OccursAt(progs1, r, u) <==> OccursAt(progs, r, u)
  {
    assert OccursAt(progs, r, t);
    assert InSome(strata, r) ==> r in added;
  }

  /** One rule has one place in the strata. */
  lemma SamePlace(rules: seq<Rule>, strata: seq<seq<Rule>>, r: Rule, k: nat, i: nat, l: nat, j: nat)
    requires OnceEach(rules, strata) && k < |strata| && i < |strata[k]| && l < |strata| && j < |strata[l]|
    requires strata[k][i] == r && strata[l][j] == r
    ensures k == l && i == j
  {
    assert r in strata[k] && r in strata[l];
  }

  lemma OldOrFresh(progs: seq<Prog>, strata: seq<seq<Rule>>, r: Rule, t: Target)
    requires OccursAt(AppendProgs(progs, strata), r, t)
    ensures if t.0 < |progs| then OccursAt(progs, r, t)
            else t.0 - |progs| < |strata| && t.1 < |strata[t.0 - |progs|]| && strata[t.0 - |progs|][t.1] == r && InSome(strata, r)
  {
    if t.0 >= |progs| {
      assert AppendProgs(progs, strata)[|progs| + (t.0 - |progs|)].rules == strata[t.0 - |progs|];
      assert r in strata[t.0 - |progs|];
    }
  }

  // ---- The contract of a rule insertion ----

  /** The rules coming in: the new ones, and those brought back. */
  ghost predicate Incoming(progs: seq<Prog>, targets: seq<Target>, added: seq<Rule>, rules: seq<Rule>) {
    forall a :: a in rules <==> a in added || exists t: Target :: t in targets && OccursAt(progs, a, t)
  }

  lemma IncomingChecked(progs: seq<Prog>, newRules: seq<Rule>, targets: seq<Target>, added: seq<Rule>, strata: seq<seq<Rule>>,
                        active: seq<Rule>, rules: seq<Rule>)
    requires Classified(progs, newRules, targets, added) && OnceEach(added, strata) && Incoming(progs, targets, added, rules)
    requires (forall b :: b in active <==> IsActive(progs, targets, b)) && forall a | a in rules :: Downstream(active, a)
    ensures InsertionChecked(progs, newRules, targets, added, strata)
  {
    hide Classified, OnceEach, Downstream, OccursAt;
    assert AllDownstream(progs, active, targets, added);
  }

  /**
   * What the checks come down to: no other active rule depends on a head that comes in, and the sort accepts the
   * active rules followed by the new ones, and the new ones alone.
   */
  ghost predicate Accepted(progs: seq<Prog>, targets: seq<Target>, added: seq<Rule>) {
    (targets == [] && added == []) ||
    (AllDownstream(progs, ActiveList(progs, targets), targets, added) &&
     Sortable(Deduped(ActiveList(progs, targets) + added)) && Sortable(Deduped(added)))
  }

  /** A rule that the checks found to depend on a head that comes in stands against them. */
  lemma ConsumerRefuses(progs: seq<Prog>, targets: seq<Target>, added: seq<Rule>, rules: seq<Rule>, b: Rule)
    requires Incoming(progs, targets, added, rules) && Consumer(ActiveList(progs, targets), rules, b) && (targets != [] || added != [])
    ensures !Accepted(progs, targets, added)
  {
    var active := ActiveList(progs, targets);
    hide CanFeed, CanBlock, ActiveList, Sortable;
    var a :| a in rules && a.head.NormalHead? && b in active && b != a && (CanFeed(a.head.pattern, b) || CanBlock(a.head.pattern, b));
    assert !Downstream(active, a);
  }

  lemma UnsortableRefuses(progs: seq<Prog>, targets: seq<Target>, added: seq<Rule>)
    requires targets != [] || added != []
    requires !Sortable(Deduped(ActiveList(progs, targets) + added)) || !Sortable(Deduped(added))
    ensures !Accepted(progs, targets, added)
  {
    hide Sortable, ActiveList;
  }

  lemma ChecksPassed(progs: seq<Prog>, targets: seq<Target>, added: seq<Rule>, rules: seq<Rule>)
    requires Incoming(progs, targets, added, rules) && forall a | a in rules :: Downstream(ActiveList(progs, targets), a)
    requires Sortable(Deduped(ActiveList(progs, targets) + added)) && (added != [] ==> Sortable(Deduped(added)))
    ensures Accepted(progs, targets, added)
  {
    hide Sortable, ActiveList, Downstream, OccursAt;
    if added == [] {
      NothingSortable();
    }
  }

  lemma NothingSortable()
    ensures Sortable(Deduped([]))
  {
    assert Deduped([]) == [];
    PositiveSortable([]);
  }

  lemma NothingAccepted(progs: seq<Prog>)
    ensures Accepted(progs, [], [])
  {
  }

  /**
   * Why rules can be rejected: an active rule depends on one of them, or the active rules followed by the new
   * ones are not sure to be stratified well.
   */
  ghost predicate Rejected(progs: seq<Prog>, newRules: seq<Rule>, targets: seq<Target>, added: seq<Rule>) {
    && Classified(progs, newRules, targets, added)
    && ((exists rules, b :: Incoming(progs, targets, added, rules) && Consumer(ActiveList(progs, targets), rules, b)) ||
        !Stratifiable(ActiveList(progs, targets) + added))
  }

  lemma RejectedIs(progs: seq<Prog>, newRules: seq<Rule>, targets: seq<Target>, added: seq<Rule>, active: seq<Rule>, rules: seq<Rule>,
                   found: Option<Rule>)
    requires Classified(progs, newRules, targets, added) && Incoming(progs, targets, added, rules) && active == ActiveList(progs, targets)
    requires (found.Some? && Consumer(active, rules, found.value)) || !Stratifiable(active + added) || !Stratifiable(added)
    ensures Rejected(progs, newRules, targets, added)
  {
    ActiveListHas(progs, targets);
    assert forall r | IsActive(progs, targets, r) :: Occurs(progs, r);
    hide Stratifiable, Consumer, Incoming, IsActive, Occurs;
    if Stratifiable(active + added) {
      FewerStratifiable(active, added);
    }
  }

  lemma FewerStratifiable(active: seq<Rule>, added: seq<Rule>)
    requires NoDup(added) && (forall r | r in added :: r !in active) && Stratifiable(active + added)
    ensures Stratifiable(added)
  {
    hide RenamedApart, SelfApart, BottomUp;
    assert forall r | r in added :: r in active + added;
    if !PurePositive(active + added) {
      DedupedAppend(active, added);
      DedupedAppend([], added);
      assert [] + added == added;
      SuffixBottomUp(Deduped(active), added);
      assert AllRenamedApart(added);
    }
  }

  /** The programs that an accepted insertion leaves. */
  ghost function Requested(progs: seq<Prog>, targets: seq<Target>, strata: seq<seq<Rule>>): seq<Prog> {
    AppendProgs(Enabling(progs, Elements(targets)), strata)
  }

  /**
   * Once the checks have passed, names are not shared and the strata are valid, an insertion fails exactly when
   * the model of old and new rules is contradictory.
   */
  ghost predicate RuleVerdict(progs: seq<Prog>, r: Outcome, z: Snapshot, newRules: seq<Rule>, targets: seq<Target>, added: seq<Rule>,
                              strata: seq<seq<Rule>>) {
    (r.Ok? || r.error.ContradictionFound?) && Sound(progs, z) && RulesOnce(progs) && InsertionNames(progs, newRules, targets) &&
    Stratified(AllEnabled(Enabling(progs, Elements(targets)))) && Stratifiable(added) ==>
      var progs' := Requested(progs, targets, strata);
      Verdict(progs', r, Perfect(AllEnabled(progs'), z.ext, |progs'|))
  }

  /**
   * A rejected or failed insertion leaves everything as it was.  An accepted one leaves exactly the
   * requested rules active beside the old ones, and if names are not shared and the strata are valid, the
   * store is the perfect model of old and new rules together.
   */
  ghost predicate RuleInsertionResult(progs: seq<Prog>, r: Outcome, z: Snapshot, newRules: seq<Rule>, targets: seq<Target>,
                                      added: seq<Rule>, strata: seq<seq<Rule>>, progs': seq<Prog>, c: Snapshot) {
    && (r.Err? ==> progs' == progs && c == z)
    && RuleVerdict(progs, r, z, newRules, targets, added, strata)
    && (r.Ok? ==>
          && InsertionChecked(progs, newRules, targets, added, strata) && RulesInserted(progs, z, targets, strata, progs', c)
          && RequestedActive(progs, newRules, progs') && (RulesOnce(progs) ==> RulesOnce(progs'))
          && (Sound(progs, z) && RulesOnce(progs) && InsertionNames(progs, newRules, targets) &&
              Stratified(AllEnabled(Enabling(progs, Elements(targets)))) && Stratifiable(added) ==>
                Sound(progs', c) && c.Stored() == Perfect(AllEnabled(progs'), z.ext, |progs'|)))
  }

  /** The active ones among the first `m` rules of program `i`, in order. */
  ghost function ActiveOf(progs: seq<Prog>, targets: seq<Target>, i: nat, m: nat): seq<Rule>
    requires i < |progs| && m <= |progs[i].rules|
  {
    if m == 0 then []
    else if (i, m - 1) in targets || m - 1 !in progs[i].disabled then ActiveOf(progs, targets, i, m - 1) + [progs[i].rules[m - 1]]
    else ActiveOf(progs, targets, i, m - 1)
  }

  /** The active rules of the first `n` programs, in order. */
  ghost function ActiveUpTo(progs: seq<Prog>, targets: seq<Target>, n: nat): seq<Rule>
    requires n <= |progs|
  {
    if n == 0 then [] else ActiveUpTo(progs, targets, n - 1) + ActiveOf(progs, targets, n - 1, |progs[n - 1].rules|)
  }

  /** The active rules, program by program. */
  ghost function ActiveList(progs: seq<Prog>, targets: seq<Target>): seq<Rule> {
    ActiveUpTo(progs, targets, |progs|)
  }

  lemma {:induction false} ActiveOfHas(progs: seq<Prog>, targets: seq<Target>, i: nat, m: nat)
    requires i < |progs| && m <= |progs[i].rules|
    ensures forall b :: b in ActiveOf(progs, targets, i, m) <==>
              exists t: Target :: t.0 == i && t.1 < m && OccursAt(progs, b, t) && (t in targets || t.1 !in progs[t.0].disabled)
    decreases m
  {
    if m > 0 {
      ActiveOfHas(progs, targets, i, m - 1);
      var t: Target := (i, m - 1);
      assert OccursAt(progs, progs[i].rules[m - 1], t);
    }
  }

  lemma {:induction false} ActiveUpToHas(progs: seq<Prog>, targets: seq<Target>, n: nat)
    requires n <= |progs|
    ensures forall b :: b in ActiveUpTo(progs, targets, n) <==>
              exists t: Target :: t.0 < n && OccursAt(progs, b, t) && (t in targets || t.1 !in progs[t.0].disabled)
    decreases n
  {
    if n > 0 {
      ActiveUpToHas(progs, targets, n - 1);
      ActiveOfHas(progs, targets, n - 1, |progs[n - 1].rules|);
    }
  }

  lemma ActiveListHas(progs: seq<Prog>, targets: seq<Target>)
    ensures forall b :: b in ActiveList(progs, targets) <==> IsActive(progs, targets, b)
  {
    ActiveUpToHas(progs, targets, |progs|);
  }

  lemma NothingToCheck(progs: seq<Prog>, newRules: seq<Rule>)
    requires Classified(progs, newRules, [], [])
    ensures InsertionChecked(progs, newRules, [], [], []) && OnceEach([], []) && Stratified(AllEnabled(ProgsOf([])))
  {
    var active := ActiveList(progs, []);
    ActiveListHas(progs, []);
    assert AllDownstream(progs, active, [], []);
  }

  lemma InsertionNothing(progs: seq<Prog>, z: Snapshot, newRules: seq<Rule>)
    requires Classified(progs, newRules, [], []) && Layered(progs)
    ensures RuleInsertionResult(progs, Ok, z, newRules, [], [], [], progs, z)
  {
    NothingToCheck(progs, newRules);
    DisablingNone(progs);
    var none: seq<Target> := [];
    assert Elements(none) == {};
    var noStrata: seq<seq<Rule>> := [];
    assert AppendProgs(progs, noStrata) == progs;
    assert InsertedThrough(progs, z, [], z, [], progs, z);
    InsertionSummary(progs, z, newRules, [], [], [], progs, z);
  }

  lemma InsertionSummary(progs: seq<Prog>, z: Snapshot, newRules: seq<Rule>, targets: seq<Target>, added: seq<Rule>,
                         strata: seq<seq<Rule>>, progs': seq<Prog>, c: Snapshot)
    requires Layered(progs) && Layered(progs')
    requires InsertionChecked(progs, newRules, targets, added, strata) && RulesInserted(progs, z, targets, strata, progs', c)
    requires Stratifiable(added) ==> Stratified(AllEnabled(ProgsOf(strata)))
    ensures RuleInsertionResult(progs, Ok, z, newRules, targets, added, strata, progs', c)
  {
    hide *;
    InsertedParts(progs, z, newRules, targets, added, strata, progs', c);
    RequestedAreActive(progs, newRules, targets, added, strata);
    if RulesOnce(progs) {
      RulesStayOnce(progs, newRules, targets, added, strata);
      if Sound(progs, z) && InsertionNames(progs, newRules, targets) && Stratified(AllEnabled(Enabling(progs, Elements(targets)))) && Stratifiable(added) {
        InsertionStratified(progs, newRules, targets, added, strata);
        RulesInsertedSound(progs, z, newRules, targets, added, strata, progs', c);
        SoundModel(progs', z.ext, c);
      }
    }
    InsertionFine(progs, z, newRules, targets, added, strata, progs', c);
    InsertionSummaryIs(progs, z, newRules, targets, added, strata, progs', c);
  }

  lemma InsertionFine(progs: seq<Prog>, z: Snapshot, newRules: seq<Rule>, targets: seq<Target>, added: seq<Rule>, strata: seq<seq<Rule>>,
                      progs': seq<Prog>, c: Snapshot)
    requires progs' == Requested(progs, targets, strata)
    requires Sound(progs, z) && RulesOnce(progs) && InsertionNames(progs, newRules, targets) &&
             Stratified(AllEnabled(Enabling(progs, Elements(targets)))) && Stratifiable(added) ==>
               Sound(progs', c) && c.Stored() == Perfect(AllEnabled(progs'), z.ext, |progs'|)
    ensures RuleVerdict(progs, Ok, z, newRules, targets, added, strata)
  {
    hide RulesOnce, InsertionNames, Stratified, AllEnabled, Stratifiable, Perfect, Enabling, AppendProgs, ConsistentState;
    if Sound(progs', c) {
      SoundReaches(progs', c);
    }
  }

  lemma InsertedParts(progs: seq<Prog>, z: Snapshot, newRules: seq<Rule>, targets: seq<Target>, added: seq<Rule>,
                      strata: seq<seq<Rule>>, progs': seq<Prog>, c: Snapshot)
    requires InsertionChecked(progs, newRules, targets, added, strata) && RulesInserted(progs, z, targets, strata, progs', c)
    ensures Classified(progs, newRules, targets, added) && OnceEach(added, strata)
    ensures progs' == AppendProgs(Enabling(progs, Elements(targets)), strata) && OnlySeeded(progs', z.ext, c.ext)
    ensures progs' == Requested(progs, targets, strata)
  {
    var z1 :| InsertedThrough(progs, z, targets, z1, strata, progs', c);
    var progs1 := Enabling(progs, Elements(targets));
    hide IsFactHead, Sound, Classified, OnceEach, AllDownstream, AllReactivate;
    forall q | SomeFactHead(progs1, q) ensures SomeFactHead(progs', q) {
      var i :| 0 <= i < |progs1| && IsFactHead(progs1[i], q);
      assert progs'[i] == progs1[i];
    }
    assert OnlySeeded(progs', z.ext, z1.ext);
    OnlySeededTrans(progs', z.ext, z1.ext, c.ext);
  }

  lemma InsertionSummaryIs(progs: seq<Prog>, z: Snapshot, newRules: seq<Rule>, targets: seq<Target>, added: seq<Rule>,
                           strata: seq<seq<Rule>>, progs': seq<Prog>, c: Snapshot)
    requires InsertionChecked(progs, newRules, targets, added, strata) && RulesInserted(progs, z, targets, strata, progs', c)
    requires RequestedActive(progs, newRules, progs') && (RulesOnce(progs) ==> RulesOnce(progs'))
    requires RuleVerdict(progs, Ok, z, newRules, targets, added, strata)
    requires Sound(progs, z) && RulesOnce(progs) && InsertionNames(progs, newRules, targets) &&
             Stratified(AllEnabled(Enabling(progs, Elements(targets)))) && Stratifiable(added) ==>
               Sound(progs', c) && c.Stored() == Perfect(AllEnabled(progs'), z.ext, |progs'|)
    ensures RuleInsertionResult(progs, Ok, z, newRules, targets, added, strata, progs', c)
  {
    hide InsertionChecked, RulesInserted, RequestedActive, RuleVerdict, RulesOnce, Sound, InsertionNames, Stratified, AllEnabled, Stratifiable, Perfect;
  }
}
