/**
 * Why the incremental algorithms end in the right model, stated on ground rules.
 *
 * `s` is the store, `base` its extensional part, `d` the derivations on record.  A *sweep*
 * materialises strata in order; an update removes something, sweeps, and perhaps repeats.
 */
module Maintenance {
  import opened Syntax
  import opened Clauses

  /** Satisfied instances of the strata below `i` have fired and are on record. */
  ghost predicate CompleteBelow(p: Program, i: nat, s: set<Quad>, d: Program) {
    forall c | c in p && c.prog < i && Sat(c, s) ::
      c.head.Some? && c.head.value in s && (c.pos != [] ==> c in d)
  }

  /** Instances that stand behind a quad: recorded ones, and body-less rules. */
  ghost function Vouched(p: Program, d: Program, i: nat): Program {
    iset c | c in p && c.prog < i && (c.pos == [] || c in d)
  }

  /** New records are satisfied instances of `p` whose head is stored. */
  ghost predicate NewRecordsHold(p: Program, i: nat, s: set<Quad>, d0: Program, d: Program) {
    forall c | c in d && c !in d0 ::
      c in p && c.prog < i && c.pos != [] && Sat(c, s) && c.head.Some? && c.head.value in s
  }

  /** A sweep that started at store `s0` with records `d0` has dealt with the strata below `i`. */
  ghost predicate Swept(p: Program, i: nat, s0: set<Quad>, d0: Program, s: set<Quad>, d: Program) {
    && s0 <= s && d0 <= d
    && CompleteBelow(p, i, s, d)
    && NewRecordsHold(p, i, s, d0, d)
    && s <= Least(Vouched(p, d, i), s0, s)
  }

  /** What materialising one stratum `pi` from store `s0` and records `d0` achieves. */
  ghost predicate Materialised(pi: Program, s0: set<Quad>, d0: Program, s: set<Quad>, d: Program) {
    && s0 <= s && d0 <= d
    && (forall c | c in d && c !in d0 ::
          c in pi && c.pos != [] && Within(c.pos, s) && c.neg !! s0 && c.head.Some? && c.head.value in s)
    && (forall c | c in pi && Sat(c, s) ::
          c.head.Some? && c.head.value in s && (c.pos != [] ==> c in d))
    && s <= Least(Fireable(pi, d), s0, s0)
  }

  ghost function Fireable(pi: Program, d: Program): Program {
    iset c | c in pi && (c.pos == [] || c in d)
  }

  /** No rule of `p` blocks itself or an earlier one: what stratum `i` adds touches no NOT up to `i`. */
  lemma AddedIsHead(p: Program, i: nat, s0: set<Quad>, d: Program, s: set<Quad>, q: Quad)
    requires s <= Least(Fireable(StratumOf(p, i), d), s0, s0)
    requires q in s && q !in s0
    ensures exists c :: c in p && c.prog == i && c.head == Some(q)
  {
    LeastOrigin(Fireable(StratumOf(p, i), d), s0, s0, q);
  }

  lemma NegUnaffected(p: Program, i: nat, s0: set<Quad>, d: Program, s: set<Quad>, c: Clause)
    requires Stratified(p) && s0 <= s
    requires s <= Least(Fireable(StratumOf(p, i), d), s0, s0)
    requires c in p && c.prog <= i && c.neg !! s0
    ensures c.neg !! s
  {
    forall x | x in c.neg && x in s ensures false {
      AddedIsHead(p, i, s0, d, s, x);
    }
  }

  lemma PosUnaffected(p: Program, i: nat, s0: set<Quad>, d: Program, s: set<Quad>, c: Clause)
    requires Stratified(p) && s0 <= s
    requires s <= Least(Fireable(StratumOf(p, i), d), s0, s0)
    requires c in p && c.prog < i && Within(c.pos, s)
    ensures Within(c.pos, s0)
  {
    forall x | x in c.pos ensures x in s0 {
      if x !in s0 {
        AddedIsHead(p, i, s0, d, s, x);
      }
    }
  }

  /** Materialising the next stratum carries the sweep one stratum further. */
  lemma StratumStep(p: Program, i: nat, s0: set<Quad>, d0: Program, s: set<Quad>, d: Program, s': set<Quad>, d': Program)
    requires Stratified(p)
    requires Swept(p, i, s0, d0, s, d)
    requires Materialised(StratumOf(p, i), s, d, s', d')
    ensures Swept(p, i + 1, s0, d0, s', d')
  {
    forall c | c in p && c.prog < i + 1 && Sat(c, s')
      ensures c.head.Some? && c.head.value in s' && (c.pos != [] ==> c in d')
    {
      if c.prog == i {
        assert c in StratumOf(p, i);
      } else {
        PosUnaffected(p, i, s, d', s', c);
        assert Sat(c, s);
      }
    }
    forall c | c in d' && c !in d0
      ensures c in p && c.prog < i + 1 && c.pos != [] && Sat(c, s') && c.head.Some? && c.head.value in s'
    {
      if c in d {
        assert Sat(c, s) && Within(c.pos, s);
      } else {
        assert c in StratumOf(p, i);
      }
      NegUnaffected(p, i, s, d', s', c);
    }
    StepFounded(p, i, s0, d0, s, d, s', d');
  }

  lemma StepFounded(p: Program, i: nat, s0: set<Quad>, d0: Program, s: set<Quad>, d: Program, s': set<Quad>, d': Program)
    requires Stratified(p)
    requires Swept(p, i, s0, d0, s, d)
    requires Materialised(StratumOf(p, i), s, d, s', d')
    ensures s' <= Least(Vouched(p, d', i + 1), s0, s')
  {
    var m := Least(Vouched(p, d', i + 1), s0, s');
    LeastIsModel(Vouched(p, d', i + 1), s0, s');
    // the part already swept
    forall c | c in Vouched(p, d, i) && c.head.Some? && c.neg !! s && Within(c.pos, m)
      ensures c.head.value in m
    {
      NegUnaffected(p, i, s, d', s', c);
      assert c in Vouched(p, d', i + 1);
    }
    LeastIsLeast(Vouched(p, d, i), s0, s, m);
    // the new stratum
    forall c | c in Fireable(StratumOf(p, i), d') && c.head.Some? && c.neg !! s && Within(c.pos, m)
      ensures c.head.value in m
    {
      NegUnaffected(p, i, s, d', s', c);
      assert c in Vouched(p, d', i + 1);
    }
    LeastIsLeast(Fireable(StratumOf(p, i), d'), s, s, m);
  }

  /** Before any stratum, nothing has to be shown. */
  lemma SweepStart(p: Program, s: set<Quad>, d: Program)
    ensures Swept(p, 0, s, d, s, d)
  {
    LeastIsModel(Vouched(p, d, 0), s, s);
  }

  /** A finished sweep ends in the stable model over the store it started from, with no contradiction. */
  lemma SweepEnd(p: Program, n: nat, s0: set<Quad>, d0: Program, s: set<Quad>, d: Program)
    requires forall c | c in p :: c.prog < n
    requires Swept(p, n, s0, d0, s, d)
    ensures Stable(p, s0, s) && NoContradiction(p, s)
  {
    LeastIsLeast(p, s0, s, s);
    LeastMonotone(Vouched(p, d, n), p, s0, s0, s, s);
  }

  // ---- Consistent states ----

  /** A record whose head is not an asserted fact is a satisfied instance of a current rule. */
  ghost predicate RecordsHold(p: Program, base: set<Quad>, s: set<Quad>, d: Program) {
    forall c | c in d ::
      c.head.Some? && c.pos != [] && c.head.value in s && (c.head.value !in base ==> c in p && Sat(c, s))
  }

  ghost predicate Complete(p: Program, s: set<Quad>, d: Program) {
    forall c | c in p && Sat(c, s) :: c.head.Some? && c.head.value in s && (c.pos != [] ==> c in d)
  }

  /**
   * The state every operation should keep: the store is the model of its own asserted facts, every
   * satisfied instance is on record, and records are satisfied except that a record for an asserted
   * fact may be stale.
   */
  ghost predicate Consistent(p: Program, base: set<Quad>, s: set<Quad>, d: Program) {
    base <= s && Stable(p, base, s) && Complete(p, s, d) && RecordsHold(p, base, s, d)
  }

  /** The records are exactly the satisfied instances. */
  ghost predicate ExactRecords(p: Program, s: set<Quad>, d: Program) {
    forall c :: c in d <==> c in p && c.head.Some? && c.pos != [] && Sat(c, s)
  }

  /** No rule with a body has an asserted fact as its head. */
  ghost predicate HeadsDisjointFrom(p: Program, base: set<Quad>) {
    forall c | c in p && c.head.Some? && c.pos != [] :: c.head.value !in base
  }

  /** When no rule derives an asserted fact, no record can be stale. */
  lemma DisjointIsExact(p: Program, base: set<Quad>, s: set<Quad>, d: Program)
    requires Consistent(p, base, s, d)
    requires forall c | c in d :: c.head.Some? && c.head.value !in base
    ensures ExactRecords(p, s, d)
  {
  }

  /** A sweep from the asserted facts alone and no records ends consistent: building or rebuilding. */
  lemma RebuildConsistent(p: Program, n: nat, base: set<Quad>, s: set<Quad>, d: Program)
    requires forall c | c in p :: c.prog < n
    requires Swept(p, n, base, iset{}, s, d)
    ensures Consistent(p, base, s, d) && ExactRecords(p, s, d) && NoContradiction(p, s)
  {
    SweepEnd(p, n, base, iset{}, s, d);
  }

  /** Asserted facts may be added to the base as long as they are stored. */
  lemma LargerBase(p: Program, base: set<Quad>, base': set<Quad>, s: set<Quad>, d: Program)
    requires Consistent(p, base, s, d)
    requires base <= base' <= s
    ensures Consistent(p, base', s, d)
  {
    LeastMonotone(p, p, base, base', s, s);
    LeastIsLeast(p, base', s, s);
  }

  // ---- Over-deletion ----

  /**
   * The reverse witness index as ground rules: one edge from each witness of a recorded derivation
   * to its head, except into the quads of `keep`.
   */
  ghost function Edges(d: Program, keep: set<Quad>): Program {
    iset c, w | c in d && w in c.pos && c.head.Some? && c.head.value !in keep :: Clause(0, 0, c.head, [w], {})
  }

  /** Everything whose recorded derivations can be traced back to `seeds`. */
  ghost function Cascade(d: Program, keep: set<Quad>, seeds: set<Quad>): set<Quad> {
    Least(Edges(d, keep), seeds, {})
  }

  lemma CascadeClosed(d: Program, keep: set<Quad>, seeds: set<Quad>, c: Clause)
    requires c in d && c.head.Some? && c.head.value !in keep
    requires exists w :: w in c.pos && w in Cascade(d, keep, seeds)
    ensures c.head.value in Cascade(d, keep, seeds)
  {
    var w :| w in c.pos && w in Cascade(d, keep, seeds);
    LeastIsModel(Edges(d, keep), seeds, {});
    var e := Clause(0, 0, c.head, [w], {});
    assert e in Edges(d, keep);
    assert Within(e.pos, Cascade(d, keep, seeds));
  }

  /** A set that holds the seeds and swallows every dependent holds the cascade. */
  lemma CascadeIsLeast(d: Program, keep: set<Quad>, seeds: set<Quad>, m: set<Quad>)
    requires seeds <= m
    requires forall c, w | c in d && w in c.pos && w in m && c.head.Some? && c.head.value !in keep :: c.head.value in m
    ensures Cascade(d, keep, seeds) <= m
  {
    forall e | e in Edges(d, keep) && e.head.Some? && e.neg !! {} && Within(e.pos, m)
      ensures e.head.value in m
    {
      var c, w :| c in d && w in c.pos && c.head.Some? && c.head.value !in keep && e == Clause(0, 0, c.head, [w], {});
      assert w in e.pos;
    }
    LeastIsLeast(Edges(d, keep), seeds, {}, m);
  }

  // ---- Removal followed by a full sweep ----

  /** A rule without positive witnesses has no NOT either: it is a body-less rule. */
  ghost predicate FactsUnguarded(p: Program) {
    forall c | c in p && c.pos == [] :: c.neg == {}
  }

  /**
   * One layer of negation: there is a set `t` of quads that holds every head depending on a NOT, and
   * none of those quads is itself under a NOT.
   */
  ghost predicate OneLayer(p: Program, t: set<Quad>) {
    && (forall c | c in p && c.head.Some? :: c.neg != {} ==> c.head.value in t)
    && (forall c, w | c in p && c.head.Some? && w in c.pos && w in t :: c.head.value in t)
    && (forall c | c in p && c.head.Some? :: c.neg !! t)
  }

  /** `x` was removed from a consistent state, and what is left of it stands without `x`. */
  ghost predicate CleanRemoval(p: Program, p': Program, base: set<Quad>, s: set<Quad>, d: Program, x: set<Quad>, d2: Program) {
    && p' <= p && d2 <= d
    && (forall c | c in p && Sat(c, s) && c.head.Some? && c.head.value !in x && c.head.value !in base ::
          c in p' && Within(c.pos, s - x) && (c.pos != [] ==> c in d2))
    && (forall c | c in d2 && c.head.Some? && c.head.value !in base - x ::
          c in p' && Within(c.pos, s - x) && Sat(c, s))
  }

  /** No kept record of a derived quad is blocked in the new store. */
  ghost predicate KeptUnblocked(base: set<Quad>, s3: set<Quad>, d2: Program) {
    forall c | c in d2 && c.head.Some? && c.head.value !in base :: c.neg !! s3
  }

  /** What the sweep adds beyond the old store depends on a NOT. */
  lemma NewFactsTainted(p: Program, p': Program, base: set<Quad>, s: set<Quad>, d: Program, s2: set<Quad>, s3: set<Quad>, t: set<Quad>)
    requires Consistent(p, base, s, d) && p' <= p
    requires s2 <= s && Stable(p', s2, s3)
    requires OneLayer(p', t)
    ensures s3 - s <= t
  {
    var m := set q | q in s3 && (q in s || q in t);
    LeastIsModel(p', s2, s3);
    forall c | c in p' && c.head.Some? && c.neg !! s3 && Within(c.pos, m)
      ensures c.head.value in m
    {
      assert Within(c.pos, s3);
      if c.head.value !in s {
        assert !Sat(c, s);
      }
    }
    LeastIsLeast(p', s2, s3, m);
  }

  /** With one layer of negation the sweep adds nothing that blocks a kept record. */
  lemma OneLayerUnblocked(p: Program, p': Program, base: set<Quad>, s: set<Quad>, d: Program, x: set<Quad>,
                          d2: Program, s3: set<Quad>, t: set<Quad>)
    requires Consistent(p, base, s, d) && CleanRemoval(p, p', base, s, d, x, d2)
    requires Stable(p', s - x, s3) && OneLayer(p', t)
    ensures KeptUnblocked(base - x, s3, d2)
    ensures forall c | c in d2 && c in p' && Sat(c, s) && c.head.Some? :: c.neg !! s3
  {
    NewFactsTainted(p, p', base, s, d, s - x, s3, t);
  }

  /** What was kept is still provable without the removed quads. */
  lemma SurvivorsStand(p: Program, p': Program, base: set<Quad>, s: set<Quad>, d: Program, x: set<Quad>,
                       d2: Program, s3: set<Quad>)
    requires FactsUnguarded(p)
    requires Consistent(p, base, s, d) && CleanRemoval(p, p', base, s, d, x, d2)
    requires KeptUnblocked(base - x, s3, d2)
    ensures s - x <= Least(p', base - x, s3)
  {
    var l := Least(p', base - x, s3);
    LeastIsModel(p', base - x, s3);
    LeastIsModel(p, base, s);
    var m := set q | q in s && (q in x || q in l);
    forall c | c in p && c.head.Some? && c.neg !! s && Within(c.pos, m)
      ensures c.head.value in m
    {
      assert Within(c.pos, s) && Sat(c, s);
      if c.head.value !in x && c.head.value !in base {
        assert c in p' && Within(c.pos, s - x);
        forall w | w in c.pos ensures w in l { assert w in m && w in s - x; }
        assert c.neg !! s3;
      }
    }
    LeastIsLeast(p, base, s, m);
  }

  /** So what the survivors and the remaining rules lead to is the model of the remaining asserted facts. */
  lemma RefilledStands(p: Program, p': Program, base: set<Quad>, s: set<Quad>, d: Program, x: set<Quad>, d2: Program, s3: set<Quad>)
    requires FactsUnguarded(p)
    requires Consistent(p, base, s, d) && CleanRemoval(p, p', base, s, d, x, d2)
    requires Stable(p', s - x, s3) && KeptUnblocked(base - x, s3, d2)
    ensures Stable(p', base - x, s3)
  {
    SurvivorsStand(p, p', base, s, d, x, d2, s3);
    Rebase(p', s - x, base - x, s3);
  }

  /**
   * Delete and re-derive: after a clean removal, one full sweep ends consistent over the remaining
   * asserted facts exactly when it did not add a quad that blocks a kept record of a derived quad.
   */
  lemma RemovalExact(p: Program, p': Program, n: nat, base: set<Quad>, s: set<Quad>, d: Program, x: set<Quad>,
                     d2: Program, s3: set<Quad>, d3: Program)
    requires FactsUnguarded(p)
    requires Consistent(p, base, s, d) && CleanRemoval(p, p', base, s, d, x, d2)
    requires forall c | c in p :: c.prog < n
    requires Swept(p', n, s - x, d2, s3, d3)
    ensures Consistent(p', base - x, s3, d3) <==> KeptUnblocked(base - x, s3, d2)
  {
    if KeptUnblocked(base - x, s3, d2) {
      SweepEnd(p', n, s - x, d2, s3, d3);
      RefilledStands(p, p', base, s, d, x, d2, s3);
      LeastIsModel(p', base - x, s3);
    }
  }

  /** So with one layer of negation it always does. */
  lemma RemovalConsistent(p: Program, p': Program, n: nat, base: set<Quad>, s: set<Quad>, d: Program, x: set<Quad>,
                          d2: Program, s3: set<Quad>, d3: Program, t: set<Quad>)
    requires FactsUnguarded(p)
    requires Consistent(p, base, s, d) && CleanRemoval(p, p', base, s, d, x, d2)
    requires forall c | c in p :: c.prog < n
    requires Swept(p', n, s - x, d2, s3, d3)
    requires OneLayer(p', t)
    ensures Consistent(p', base - x, s3, d3)
    ensures ExactRecords(p, s, d) && (forall c | c in d2 :: c in p' && Within(c.pos, s - x)) ==> ExactRecords(p', s3, d3)
  {
    SweepEnd(p', n, s - x, d2, s3, d3);
    OneLayerUnblocked(p, p', base, s, d, x, d2, s3, t);
    RemovalExact(p, p', n, base, s, d, x, d2, s3, d3);
    forall c | c in d2 && c in p' && Within(c.pos, s - x) && Sat(c, s)
      ensures Sat(c, s3)
    {
      assert c.head.Some?;
    }
  }

  /** Deleting facts: the records outside the cascade make the removal clean. */
  lemma DeletionIsClean(p: Program, base: set<Quad>, s: set<Quad>, d: Program, deletes: set<Quad>, x: set<Quad>, d2: Program)
    requires Consistent(p, base, s, d) && ExactRecords(p, s, d)
    requires x == Cascade(d, {}, deletes)
    requires d2 <= d
    requires forall c | c in d2 :: !exists w :: w in c.pos && w in x
    requires forall c | c in d && c.head.Some? && c.head.value !in x :: c in d2
    ensures CleanRemoval(p, p, base, s, d, x, d2)
    ensures forall c | c in d2 :: c in p && Within(c.pos, s - x)
  {
    forall c | c in p && Sat(c, s) && c.head.Some? && c.head.value !in x && c.head.value !in base
      ensures Within(c.pos, s - x) && (c.pos != [] ==> c in d2)
    {
      if c.pos != [] {
        assert c in d;
        if exists w :: w in c.pos && w in x {
          CascadeClosed(d, {}, deletes, c);
        }
      }
    }
  }

  /** Retracting rules: likewise, with asserted facts kept out of the cascade. */
  lemma RetractionIsClean(p: Program, p': Program, base: set<Quad>, s: set<Quad>, d: Program, x: set<Quad>,
                          seeds: set<Quad>, d2: Program)
    requires Consistent(p, base, s, d) && p' <= p
    requires forall c | c in p && c !in p' :: c.pos != []
    requires seeds !! base && x == Cascade(d, base, seeds)
    requires forall c | c in d && c !in p' && c.head.Some? && c.head.value !in base :: c.head.value in seeds
    requires forall c :: c in d2 <==> c in d && c.head.Some? && c.head.value !in x
    ensures CleanRemoval(p, p', base, s, d, x, d2) && x !! base
  {
    LeastIsModel(Edges(d, base), seeds, {});
    forall c, w | c in d && w in c.pos && w in x - base && c.head.Some? && c.head.value !in base
      ensures c.head.value in x - base
    {
      CascadeClosed(d, base, seeds, c);
    }
    CascadeIsLeast(d, base, seeds, x - base);
    forall c | c in d && c.head.Some? && c.head.value !in x && c.head.value !in base && Sat(c, s)
      ensures Within(c.pos, s - x) && c in p'
    {
      if exists w :: w in c.pos && w in x {
        CascadeClosed(d, base, seeds, c);
      }
    }
  }

  // ---- Insertion ----

  /** Instances that stand behind a quad, whatever their NOT atoms say. */
  ghost function Backed(p: Program, d: Program): Program {
    iset c | (c in p && c.pos == []) || c in d
  }

  /**
   * The state between rounds of negation retraction: complete, every stored quad traced to the
   * asserted facts through records, but a record may be blocked - and then a quad of `check` blocks it, or it
   * is one of those in `miss`, which the search for blocked records does not see.
   */
  ghost predicate Pending(p: Program, base: set<Quad>, s: set<Quad>, d: Program, check: set<Quad>, miss: Program) {
    && base <= s
    && Complete(p, s, d)
    && (forall c | c in d ::
          c.head.Some? && c.pos != [] && c.head.value in s && (c.head.value !in base ==> c in p && Within(c.pos, s)))
    && s <= Least(Backed(p, d), base, {})
    && (forall c | c in d && c.head.Some? && c.head.value !in base && !(c.neg !! s) :: c in miss || !(c.neg !! check))
  }

  /** The forward sweep over new facts leaves a pending state. */
  lemma ForwardIsPending(p: Program, n: nat, base: set<Quad>, s: set<Quad>, d: Program,
                         s1: set<Quad>, base1: set<Quad>, s2: set<Quad>, d2: Program, check: set<Quad>, miss: Program)
    requires forall c | c in p :: c.prog < n
    requires Consistent(p, base, s, d)
    requires s <= s1 && Swept(p, n, s1, d, s2, d2)
    requires base <= base1 <= s2 && s1 - base1 <= s && s2 - s <= check
    ensures Pending(p, base1, s2, d2, check, miss)
  {
    var m := Least(Backed(p, d2), base1, {});
    LeastIsModel(Backed(p, d2), base1, {});
    LeastIsModel(p, base, s);
    var m0 := set q | q in s && q in m;
    forall c | c in p && c.head.Some? && c.neg !! s && Within(c.pos, m0)
      ensures c.head.value in m0
    {
      assert Within(c.pos, s) && Within(c.pos, m) && Sat(c, s);
      assert c in Backed(p, d2);
    }
    LeastIsLeast(p, base, s, m0);
    forall q | q in s1 ensures q in m {
      if q !in base1 { assert q in s && q in m0; }
    }
    forall c | c in Vouched(p, d2, n) && c.head.Some? && c.neg !! s2 && Within(c.pos, m)
      ensures c.head.value in m
    {
      assert c in Backed(p, d2);
    }
    LeastIsLeast(Vouched(p, d2, n), s1, s2, m);
    forall c | c in d2 && c.head.Some? && c.head.value !in base1 && !(c.neg !! s2)
      ensures !(c.neg !! check)
    {
      assert c in d && Sat(c, s);
      var y :| y in c.neg && y in s2;
      assert y in check;
    }
  }

  /** A pending state is consistent exactly when no record of a derived quad is blocked. */
  lemma PendingExact(p: Program, base: set<Quad>, s: set<Quad>, d: Program, check: set<Quad>, miss: Program)
    requires FactsUnguarded(p)
    requires Pending(p, base, s, d, check, miss)
    ensures Consistent(p, base, s, d) <==> forall c | c in d && c.head.Some? && c.head.value !in base :: c.neg !! s
  {
    if forall c | c in d && c.head.Some? && c.head.value !in base :: c.neg !! s {
      LeastIsModel(p, base, s);
      var l := Least(p, base, s);
      var m := set q | q in s && q in l;
      forall c | c in Backed(p, d) && c.head.Some? && Within(c.pos, m)
        ensures c.head.value in m
      {
        assert Within(c.pos, s) && Within(c.pos, l);
        if c in d {
          if c.head.value !in base {
            assert c.neg !! s;
          }
        }
      }
      LeastIsLeast(Backed(p, d), base, {}, m);
      LeastIsLeast(p, base, s, s);
    }
  }

  /** When the search sees no blocked record of a derived quad, only missed ones can be blocked. */
  lemma PendingDone(p: Program, base: set<Quad>, s: set<Quad>, d: Program, check: set<Quad>, miss: Program)
    requires FactsUnguarded(p)
    requires Pending(p, base, s, d, check, miss)
    requires forall c | c in d && c.head.Some? && c.head.value !in base && c !in miss :: c.neg !! check
    ensures forall c | c in d && c.head.Some? && c.head.value !in base && !(c.neg !! s) :: c in miss
    ensures (forall c | c in d && c.head.Some? && c.head.value !in base && c in miss :: c.neg == {}) ==> Consistent(p, base, s, d)
  {
    PendingExact(p, base, s, d, check, miss);
  }

  /** One round: remove the cascade of the blocked records' heads, then sweep everything again. */
  ghost predicate Round(p: Program, n: nat, base: set<Quad>, s: set<Quad>, d: Program, seeds: set<Quad>, x: set<Quad>,
                        d2: Program, s3: set<Quad>, d3: Program) {
    && x == Cascade(d, base, seeds - base)
    && (forall c :: c in d2 <==> c in d && c.head.Some? && c.head.value !in x)
    && Swept(p, n, s - x, d2, s3, d3)
  }

  /** `seeds` are the heads of the records outside `miss` that a quad of `check` blocks. */
  ghost predicate BlockedHeads(d: Program, base: set<Quad>, check: set<Quad>, seeds: set<Quad>, miss: Program) {
    && (forall c | c in d && c.head.Some? && c.head.value !in base && c !in miss && !(c.neg !! check) :: c.head.value in seeds)
    && (forall q | q in seeds && q !in base :: exists c :: c in d && c !in miss && c.head == Some(q) && !(c.neg !! check))
  }

  lemma CascadeAvoids(d: Program, keep: set<Quad>, seeds: set<Quad>)
    requires seeds !! keep
    ensures Cascade(d, keep, seeds) !! keep
  {
    var x := Cascade(d, keep, seeds);
    LeastIsModel(Edges(d, keep), seeds, {});
    forall c, w | c in d && w in c.pos && w in x - keep && c.head.Some? && c.head.value !in keep
      ensures c.head.value in x - keep
    {
      CascadeClosed(d, keep, seeds, c);
    }
    CascadeIsLeast(d, keep, seeds, x - keep);
  }

  /** After the removal of a round no remaining record of a derived quad lost a witness or is blocked, unless missed. */
  lemma RoundRemoval(p: Program, base: set<Quad>, s: set<Quad>, d: Program, check: set<Quad>, seeds: set<Quad>, x: set<Quad>, miss: Program, c: Clause)
    requires Pending(p, base, s, d, check, miss)
    requires BlockedHeads(d, base, check, seeds, miss) && x == Cascade(d, base, seeds - base)
    requires c in d && c.head.Some? && c.head.value !in base && c.head.value !in x
    ensures c in p && Within(c.pos, s - x) && (c in miss || c.neg !! s)
  {
    LeastIsModel(Edges(d, base), seeds - base, {});
    if exists w :: w in c.pos && w in x {
      CascadeClosed(d, base, seeds - base, c);
    }
  }

  /** What a round keeps is still traced to the asserted facts. */
  lemma SurvivorsBacked(p: Program, base: set<Quad>, s: set<Quad>, d: Program, check: set<Quad>, seeds: set<Quad>,
                        x: set<Quad>, d2: Program, miss: Program)
    requires FactsUnguarded(p)
    requires Pending(p, base, s, d, check, miss) && BlockedHeads(d, base, check, seeds, miss)
    requires x == Cascade(d, base, seeds - base)
    requires forall c :: c in d2 <==> c in d && c.head.Some? && c.head.value !in x
    ensures s - x <= Least(Backed(p, d2), base, {})
  {
    var m := Least(Backed(p, d2), base, {});
    LeastIsModel(Backed(p, d2), base, {});
    var m0 := set q | q in s && (q in x || q in m);
    forall c | c in Backed(p, d) && c.head.Some? && Within(c.pos, m0)
      ensures c.head.value in m0
    {
      if c !in d {
        assert Sat(c, s);
        assert c in Backed(p, d2) && Within(c.pos, m);
      } else if c.head.value !in x && c.head.value !in base {
        RoundRemoval(p, base, s, d, check, seeds, x, miss, c);
        assert c in Backed(p, d2) && Within(c.pos, m);
      }
    }
    LeastIsLeast(Backed(p, d), base, {}, m0);
  }

  lemma SweptBacked(p: Program, n: nat, base: set<Quad>, base3: set<Quad>, s2: set<Quad>, d2: Program, s3: set<Quad>, d3: Program)
    requires Swept(p, n, s2, d2, s3, d3)
    requires base <= base3 && s2 <= Least(Backed(p, d2), base, {})
    ensures s3 <= Least(Backed(p, d3), base3, {})
  {
    var m := Least(Backed(p, d3), base3, {});
    LeastIsModel(Backed(p, d3), base3, {});
    LeastMonotone(Backed(p, d2), Backed(p, d3), base, base3, {}, {});
    forall c | c in Vouched(p, d3, n) && c.head.Some? && c.neg !! s3 && Within(c.pos, m)
      ensures c.head.value in m
    {
      assert c in Backed(p, d3);
    }
    LeastIsLeast(Vouched(p, d3, n), s2, s3, m);
  }

  /** Rounds lead from pending state to pending state, with only the newly derived quads to check. */
  lemma RoundIsPending(p: Program, n: nat, base: set<Quad>, s: set<Quad>, d: Program, check: set<Quad>, seeds: set<Quad>,
                       x: set<Quad>, d2: Program, s3: set<Quad>, d3: Program, base3: set<Quad>, check3: set<Quad>, miss: Program)
    requires FactsUnguarded(p)
    requires forall c | c in p :: c.prog < n
    requires Pending(p, base, s, d, check, miss) && BlockedHeads(d, base, check, seeds, miss)
    requires Round(p, n, base, s, d, seeds, x, d2, s3, d3)
    requires base <= base3 <= s3 && s3 - s <= check3
    ensures Pending(p, base3, s3, d3, check3, miss)
  {
    SurvivorsBacked(p, base, s, d, check, seeds, x, d2, miss);
    SweptBacked(p, n, base, base3, s - x, d2, s3, d3);
    forall c | c in d2 && c.head.Some? && c.head.value !in base
      ensures c in p && Within(c.pos, s - x) && (c in miss || c.neg !! s)
    {
      RoundRemoval(p, base, s, d, check, seeds, x, miss, c);
    }
    CascadeAvoids(d, base, seeds - base);
    RoundRecords(p, n, base, s, d, x, d2, s3, d3, base3, check3, miss);
  }

  lemma RoundRecords(p: Program, n: nat, base: set<Quad>, s: set<Quad>, d: Program,
                     x: set<Quad>, d2: Program, s3: set<Quad>, d3: Program, base3: set<Quad>, check3: set<Quad>, miss: Program)
    requires forall c | c in p :: c.prog < n
    requires forall c | c in d :: c.head.Some? && c.pos != [] && c.head.value in s
    requires forall c :: c in d2 <==> c in d && c.head.Some? && c.head.value !in x
    requires forall c | c in d2 && c.head.Some? && c.head.value !in base :: c in p && Within(c.pos, s - x) && (c in miss || c.neg !! s)
    requires Swept(p, n, s - x, d2, s3, d3)
    requires base <= base3 <= s3 && s3 - s <= check3
    ensures Complete(p, s3, d3)
    ensures forall c | c in d3 ::
              c.head.Some? && c.pos != [] && c.head.value in s3 && (c.head.value !in base3 ==> c in p && Within(c.pos, s3))
    ensures forall c | c in d3 && c.head.Some? && c.head.value !in base3 && !(c.neg !! s3) :: c in miss || !(c.neg !! check3)
  {
    forall c | c in d3 && c.head.Some? && c.head.value !in base3 && !(c.neg !! s3) && c !in miss
      ensures !(c.neg !! check3)
    {
      assert c in d2;
      var y :| y in c.neg && y in s3;
      assert y in check3;
    }
  }

  // ---- Termination of negation retraction ----

  /** Blocked records of derived quads, missed ones aside, belong to stratum `r` or later. */
  ghost predicate BlockedFrom(base: set<Quad>, s: set<Quad>, d: Program, r: nat, miss: Program) {
    forall c | c in d && c !in miss && c.head.Some? && c.head.value !in base && !(c.neg !! s) :: c.prog >= r
  }

  ghost predicate HeadFrom(p: Program, q: Quad, r: nat) {
    exists c :: c in p && c.head == Some(q) && c.prog >= r
  }

  /** What a round removes is the head of a rule of stratum `r` or later. */
  lemma RemovedFrom(p: Program, base: set<Quad>, s: set<Quad>, d: Program, check: set<Quad>, seeds: set<Quad>,
                    x: set<Quad>, r: nat, miss: Program)
    requires Stratified(p)
    requires Pending(p, base, s, d, check, miss) && BlockedHeads(d, base, check, seeds, miss) && check <= s
    requires x == Cascade(d, base, seeds - base) && BlockedFrom(base, s, d, r, miss)
    ensures forall q | q in x :: HeadFrom(p, q, r)
  {
    var m := set q | q in x && HeadFrom(p, q, r);
    LeastIsModel(Edges(d, base), seeds - base, {});
    forall q | q in seeds - base ensures q in m {
      var c :| c in d && c !in miss && c.head == Some(q) && !(c.neg !! check);
      assert c in p && !(c.neg !! s) && c.prog >= r;
    }
    forall c, w | c in d && w in c.pos && w in m && c.head.Some? && c.head.value !in base
      ensures c.head.value in m
    {
      CascadeClosed(d, base, seeds - base, c);
      var e :| e in p && e.head == Some(w) && e.prog >= r;
      assert c in p && c.prog >= e.prog;
    }
    CascadeIsLeast(d, base, seeds - base, m);
  }

  /** An instance that only became satisfied by the removal of `x` belongs to stratum `r` or later. */
  lemma UnblockedRank(p: Program, s: set<Quad>, s3: set<Quad>, x: set<Quad>, c: Clause, r: nat)
    requires Stratified(p) && c in p && !Sat(c, s) && c.neg !! s3
    requires s - x <= s3 && forall q | q in x :: HeadFrom(p, q, r)
    requires forall w | w in c.pos :: w in s || HeadFrom(p, w, r)
    ensures c.prog >= r
  {
    if w :| w in c.pos && w !in s {
      assert HeadFrom(p, w, r);
    } else if y :| y in c.neg && y in s {
      assert y in x;
    }
  }

  /** And so is everything the following sweep adds. */
  lemma AddedFrom(p: Program, n: nat, base: set<Quad>, s: set<Quad>, d: Program, x: set<Quad>,
                  d2: Program, s3: set<Quad>, d3: Program, r: nat)
    requires Stratified(p)
    requires forall c | c in p :: c.prog < n
    requires Complete(p, s, d) && Swept(p, n, s - x, d2, s3, d3)
    requires forall q | q in x :: HeadFrom(p, q, r)
    ensures forall q | q in s3 && q !in s - x :: HeadFrom(p, q, r)
  {
    SweepEnd(p, n, s - x, d2, s3, d3);
    LeastIsModel(p, s - x, s3);
    var m := set q | q in s3 && (q in s - x || HeadFrom(p, q, r));
    forall c | c in p && c.head.Some? && c.neg !! s3 && Within(c.pos, m)
      ensures c.head.value in m
    {
      assert Within(c.pos, s3);
      if c.head.value !in s {
        assert !Sat(c, s);
        UnblockedRank(p, s, s3, x, c, r);
      }
    }
    LeastIsLeast(p, s - x, s3, m);
  }

  /** Each round settles one more stratum, so there are no more rounds than strata, plus one. */
  lemma RankAdvances(p: Program, n: nat, base: set<Quad>, s: set<Quad>, d: Program, check: set<Quad>, seeds: set<Quad>,
                     x: set<Quad>, d2: Program, s3: set<Quad>, d3: Program, base3: set<Quad>, r: nat, miss: Program)
    requires Stratified(p)
    requires forall c | c in p :: c.prog < n
    requires Pending(p, base, s, d, check, miss) && BlockedHeads(d, base, check, seeds, miss) && check <= s
    requires Round(p, n, base, s, d, seeds, x, d2, s3, d3)
    requires BlockedFrom(base, s, d, r, miss) && base <= base3
    ensures BlockedFrom(base3, s3, d3, r + 1, miss)
  {
    RemovedFrom(p, base, s, d, check, seeds, x, r, miss);
    AddedFrom(p, n, base, s, d, x, d2, s3, d3, r);
    forall c | c in d3 && c !in miss && c.head.Some? && c.head.value !in base3 && !(c.neg !! s3)
      ensures c.prog >= r + 1
    {
      assert c in d2;
      RoundRemoval(p, base, s, d, check, seeds, x, miss, c);
      var y :| y in c.neg && y in s3;
      assert HeadFrom(p, y, r);
    }
  }

  /** When only asserted facts have blocked records, a round changes nothing. */
  lemma IdleRound(p: Program, n: nat, base: set<Quad>, s: set<Quad>, d: Program, check: set<Quad>, seeds: set<Quad>,
                  x: set<Quad>, d2: Program, s3: set<Quad>, d3: Program, miss: Program)
    requires forall c | c in p :: c.prog < n
    requires Pending(p, base, s, d, check, miss) && BlockedHeads(d, base, check, seeds, miss) && check <= s
    requires Round(p, n, base, s, d, seeds, x, d2, s3, d3)
    requires BlockedFrom(base, s, d, n, miss)
    ensures s3 == s && d3 == d && x == {}
  {
    assert forall c | c in d && c !in miss && c.head.Some? && c.head.value !in base :: c in p && c.neg !! s;
    assert seeds - base == {};
    CascadeIsLeast(d, base, {}, {});
    assert s - x == s;
    SweepEnd(p, n, s, d2, s3, d3);
    forall c | c in p && c.head.Some? && c.neg !! s3 && Within(c.pos, s)
      ensures c.head.value in s
    {
      assert Sat(c, s);
    }
    LeastIsLeast(p, s, s3, s);
    assert d2 == d;
    forall c | c in d3 ensures c in d {
      assert c in d2 || Sat(c, s);
    }
  }

  // ---- Rule insertion ----

  /** No rule of `p` has a head of `f` in its body, under a NOT or not. */
  ghost predicate NotConsumed(p: Program, f: Program) {
    forall c, e | c in p && e in f && e.head.Some? :: e.head.value !in c.pos && e.head.value !in c.neg
  }

  ghost predicate From(f: Program, n: nat) {
    forall c | c in f :: c.prog >= n
  }

  /** Fresh strata on top: old strata followed by fresh ones stratify the union. */
  lemma AppendStratified(p: Program, f: Program, n: nat)
    requires Stratified(p) && Stratified(f) && NotConsumed(p, f)
    requires (forall c | c in p :: c.prog < n) && From(f, n)
    ensures Stratified(p + f)
  {
  }

  /** A consistent state is a finished sweep of the old strata, so only the fresh ones remain. */
  lemma AppendStart(p: Program, f: Program, n: nat, base: set<Quad>, s: set<Quad>, d: Program)
    requires Consistent(p, base, s, d)
    requires From(f, n)
    ensures Swept(p + f, n, s, d, s, d)
  {
    LeastIsModel(Vouched(p + f, d, n), s, s);
  }

  /** After a sweep that began in a consistent state for `p`, the union is consistent. */
  lemma AppendConsistent(p: Program, f: Program, n: nat, base: set<Quad>, s: set<Quad>, d: Program, s3: set<Quad>, d3: Program)
    requires Consistent(p, base, s, d)
    requires NotConsumed(p, f)
    requires forall c | c in p + f :: c.prog < n
    requires Swept(p + f, n, s, d, s3, d3)
    ensures Consistent(p + f, base, s3, d3)
    ensures ExactRecords(p, s, d) ==> ExactRecords(p + f, s3, d3)
  {
    SweepEnd(p + f, n, s, d, s3, d3);
    SplitModel(p, f, base, s, d, s3);
    forall c | c in p && Sat(c, s) ensures Sat(c, s3) { NegKept(p, f, s, s3, c); }
  }

  /** The model of the union over a consistent store is its model over the asserted facts. */
  lemma SplitModel(p: Program, f: Program, base: set<Quad>, s: set<Quad>, d: Program, m: set<Quad>)
    requires Consistent(p, base, s, d) && NotConsumed(p, f)
    requires s <= m && Stable(p + f, s, m)
    ensures Stable(p + f, base, m)
    ensures forall q | q in m && q !in s :: exists e :: e in f && e.head == Some(q)
  {
    LeastIsModel(p, base, s);
    AddedByFresh(p, f, base, s, d, m);
    var l := Least(p + f, base, m);
    LeastIsModel(p + f, base, m);
    var kept := s * l;
    forall c | c in p && c.head.Some? && c.neg !! s && Within(c.pos, kept) ensures c.head.value in kept {
      assert Within(c.pos, s) && Within(c.pos, l);
      NegKept(p, f, s, m, c);
    }
    LeastIsLeast(p, base, s, kept);
    Rebase(p + f, s, base, m);
  }

  lemma NegKept(p: Program, f: Program, s: set<Quad>, s3: set<Quad>, c: Clause)
    requires NotConsumed(p, f) && c in p && c.neg !! s
    requires forall q | q in s3 && q !in s :: exists e :: e in f && e.head == Some(q)
    ensures c.neg !! s3
  {
  }

  /** Everything added is the head of a fresh rule. */
  lemma AddedByFresh(p: Program, f: Program, base: set<Quad>, s: set<Quad>, d: Program, s3: set<Quad>)
    requires Consistent(p, base, s, d) && NotConsumed(p, f)
    requires s <= s3 && Stable(p + f, s, s3)
    ensures forall q | q in s3 && q !in s :: exists e :: e in f && e.head == Some(q)
  {
    var m := set q | q in s3 && (q in s || exists e :: e in f && e.head == Some(q));
    LeastIsModel(p + f, s, s3);
    forall c | c in p + f && c.head.Some? && c.neg !! s3 && Within(c.pos, m)
      ensures c.head.value in m
    {
      assert Within(c.pos, s3);
      if c in p {
        assert Sat(c, s);
      }
    }
    LeastIsLeast(p + f, s, s3, m);
  }

  ghost predicate HeadAt(f: Program, i: nat, q: Quad) {
    exists e :: e in f && e.prog == i && e.head == Some(q)
  }

  /** What completing one stratum with new rules `f` in it adds are heads of `f`. */
  lemma InsertedAdds(p: Program, f: Program, i: nat, base: set<Quad>, s: set<Quad>, d: Program, s': set<Quad>, d': Program)
    requires Consistent(p, base, s, d) && NotConsumed(p, f)
    requires Materialised(StratumOf(p + f, i), s, d, s', d')
    ensures forall q | q in s' && q !in s :: HeadAt(f, i, q)
  {
    var m := set q | q in AllQuads() && (q in s || HeadAt(f, i, q));
    forall q ensures q in AllQuads() { EveryQuad(q); }
    var pi := Fireable(StratumOf(p + f, i), d');
    forall c | c in pi && c.head.Some? && c.neg !! s && Within(c.pos, m)
      ensures c.head.value in m
    {
      if c in p {
        forall w | w in c.pos ensures w in s { assert w in m; }
        assert Sat(c, s);
      } else {
        assert HeadAt(f, i, c.head.value);
      }
    }
    LeastIsLeast(pi, s, s, m);
  }

  lemma HeadBlocksLater(p: Program, f: Program, i: nat, c: Clause, q: Quad)
    requires Stratified(p + f) && c in p + f && c.prog == i && HeadAt(f, i, q)
    ensures q !in c.neg
  {
  }

  lemma HeadUnconsumed(p: Program, f: Program, i: nat, c: Clause, q: Quad)
    requires NotConsumed(p, f) && c in p && HeadAt(f, i, q)
    ensures q !in c.pos
  {
  }

  /** A state consistent for `p` with stratum `i` completed for the new rules is a finished sweep of both. */
  lemma InsertedSwept(p: Program, f: Program, i: nat, n: nat, base: set<Quad>, s: set<Quad>, d: Program, s': set<Quad>, d': Program)
    requires Consistent(p, base, s, d) && Stratified(p + f) && NotConsumed(p, f) && i < n
    requires (forall c | c in f :: c.prog == i) && forall c | c in p + f :: c.prog < n
    requires Materialised(StratumOf(p + f, i), s, d, s', d')
    ensures Swept(p + f, n, s, d, s', d')
  {
    InsertedAdds(p, f, i, base, s, d, s', d');
    forall c | c in p + f && c.prog == i && c.neg !! s ensures c.neg !! s' {
      forall x | x in c.neg ensures x !in s' {
        if x in s' { HeadBlocksLater(p, f, i, c, x); }
      }
    }
    forall c | c in p + f && Sat(c, s') ensures c.head.Some? && c.head.value in s' && (c.pos != [] ==> c in d') {
      if c.prog == i {
        assert c in StratumOf(p + f, i);
      } else {
        forall w | w in c.pos ensures w in s {
          if w !in s { HeadUnconsumed(p, f, i, c, w); }
        }
        assert c in p && Sat(c, s);
      }
    }
    var m := Least(Vouched(p + f, d', n), s, s');
    LeastIsModel(Vouched(p + f, d', n), s, s');
    forall c | c in Fireable(StratumOf(p + f, i), d') && c.head.Some? && c.neg !! s && Within(c.pos, m) ensures c.head.value in m {
      assert c in Vouched(p + f, d', n);
    }
    LeastIsLeast(Fireable(StratumOf(p + f, i), d'), s, s, m);
  }

  /** Rules whose heads nobody else consumes can be completed where they stand: the union is consistent. */
  lemma InsertedConsistent(p: Program, f: Program, i: nat, n: nat, base: set<Quad>, s: set<Quad>, d: Program, s': set<Quad>, d': Program)
    requires Consistent(p, base, s, d) && Stratified(p + f) && NotConsumed(p, f) && i < n
    requires (forall c | c in f :: c.prog == i) && forall c | c in p + f :: c.prog < n
    requires Materialised(StratumOf(p + f, i), s, d, s', d')
    ensures Consistent(p + f, base, s', d')
    ensures ExactRecords(p, s, d) ==> ExactRecords(p + f, s', d')
  {
    InsertedSwept(p, f, i, n, base, s, d, s', d');
    AppendConsistent(p, f, n, base, s, d, s', d');
  }
}
