/** Removing quads with their records, undoing sweeps, and putting removed quads back - on values. */
module Undo {
  import opened Syntax
  import opened Clauses
  import opened Grounding
  import opened DerivedFrom
  import opened Seminaive
  import opened Maintenance
  import opened Reasoner
  import opened States

  lemma {:induction false} DropAllIndexOk(rules: seq<Rule>, index: Index, log: seq<Entry>)
    requires IndexValid(index) && IndexOk(rules, index)
    ensures IndexOk(rules, DropAll(index, log))
  {
    forall q, d | Holds(DropAll(index, log), q, d) ensures EntryOk(rules, q, d) {
      DropAllOnlyDrops(index, log, q, d);
    }
  }

  /** Each index with its log unrecorded. */
  ghost function Unlogged(indexes: seq<Index>, tracked: seq<seq<Entry>>): (r: seq<Index>)
    requires |tracked| <= |indexes|
    ensures |r| == |indexes|
  {
    seq(|indexes|, i requires 0 <= i < |indexes| => if i < |tracked| then DropAll(indexes[i], tracked[i]) else indexes[i])
  }

  /** `b` with the logs unrecorded and the list cut back to `len` quads. */
  ghost function Undone(b: Snapshot, len: nat, tracked: seq<seq<Entry>>): Snapshot
    requires |tracked| <= |b.indexes| && len <= |b.list|
  {
    Snapshot(b.list[..len], b.ext * Elements(b.list[..len]), Unlogged(b.indexes, tracked))
  }

  /** Undoing what a sweep did, finished or not, restores list, flags and records exactly. */
  lemma UndoRestores(progs: seq<Prog>, a: Snapshot, b: Snapshot, tracked: seq<seq<Entry>>)
    requires Extended(progs, a, b, tracked)
    ensures |tracked| <= |b.indexes| && |a.list| <= |b.list|
    ensures Undone(b, |a.list|, tracked) == a
  {
    ExtendedParts(progs, a, b, tracked);
    forall i | 0 <= i < |tracked| ensures DropAll(b.indexes[i], tracked[i]) == a.indexes[i] {
      UndoExact(a.indexes[i], tracked[i]);
    }
    assert Unlogged(b.indexes, tracked) == a.indexes;
    assert b.list[..|a.list|] == a.list;
    assert b.ext * a.Stored() == a.ext;
  }

  /** So does undoing an insertion and the sweep after it, back to before the insertion. */
  lemma UndoInserted(progs: seq<Prog>, z: Snapshot, a: Snapshot, b: Snapshot, tracked: seq<seq<Entry>>)
    requires Extended(progs, a, b, tracked)
    requires z.list <= a.list && a.ext * z.Stored() == z.ext && z.indexes == a.indexes
    ensures |tracked| <= |b.indexes| && |z.list| <= |b.list|
    ensures Undone(b, |z.list|, tracked) == z
  {
    UndoRestores(progs, a, b, tracked);
    ExtendedParts(progs, a, b, tracked);
    ElementsPrefix(z.list, a.list);
    assert b.list[..|z.list|] == z.list;
    assert b.ext * z.Stored() == z.ext by {
      forall q | q in b.ext * z.Stored() ensures q in z.ext { assert q in a.ext; }
    }
  }

  // ---- Removal ----

  /** `b` is `a` without the quads of `pd` and their records; the order of the list may differ. */
  ghost predicate Dropped(a: Snapshot, pd: set<Quad>, b: Snapshot) {
    && NoDup(b.list) && b.Stored() == a.Stored() - pd && b.ext == a.ext - pd
    && |b.indexes| == |a.indexes| && forall i | 0 <= i < |a.indexes| :: b.indexes[i] == a.indexes[i] - pd
  }

  lemma DroppedTrans(a: Snapshot, x: set<Quad>, b: Snapshot, y: set<Quad>, c: Snapshot)
    requires Dropped(a, x, b) && Dropped(b, y, c)
    ensures Dropped(a, x + y, c)
  {
    forall i | 0 <= i < |a.indexes| ensures c.indexes[i] == a.indexes[i] - (x + y) {
      assert a.indexes[i] - x - y == a.indexes[i] - (x + y);
    }
  }

  lemma DroppedNone(progs: seq<Prog>, a: Snapshot)
    requires WellFormed(progs, a)
    ensures Dropped(a, {}, a)
  {
    forall i | 0 <= i < |a.indexes| ensures a.indexes[i] == a.indexes[i] - {} {
    }
  }

  /** What is left on record are the derivations of the other quads. */
  lemma DroppedRecords(progs: seq<Prog>, a: Snapshot, pd: set<Quad>, b: Snapshot)
    requires WellFormed(progs, a) && Dropped(a, pd, b)
    ensures WellFormed(progs, b)
    ensures forall c :: c in AllRecorded(progs, b.indexes) <==>
                        c in AllRecorded(progs, a.indexes) && c.head.Some? && c.head.value !in pd
  {
    forall i | 0 <= i < |progs| ensures IndexValid(b.indexes[i]) && IndexOk(progs[i].rules, b.indexes[i]) {
      forall q, d ensures Holds(b.indexes[i], q, d) <==> Holds(a.indexes[i], q, d) && q !in pd {
      }
    }
  }

  // ---- Putting facts back after a failed deletion ----

  /**
   * The rollback of a failed deletion always restores the records; it restores the quads and their
   * flags exactly when the deleted quads were asserted or possibly-deleted, and no asserted fact was
   * possibly-deleted.
   */
  lemma RollbackExact(z: Snapshot, deletes: set<Quad>, pd: set<Quad>, b: Snapshot)
    requires z.ext <= z.Stored() && pd <= z.Stored()
    requires b.Stored() == (z.Stored() - deletes - pd) + pd + deletes
    requires b.ext == (z.ext - deletes - pd) + (deletes - pd)
    ensures b.Stored() == z.Stored() && b.ext == z.ext <==> deletes <= z.ext + pd && pd !! z.ext
  {
    if b.Stored() == z.Stored() && b.ext == z.ext {
      assert forall q | q in deletes && q !in pd :: q in b.ext;
      assert forall q | q in pd :: q !in b.ext;
    }
    if deletes <= z.ext + pd && pd !! z.ext {
      assert b.ext == z.ext;
    }
  }
}
