/** The record of how each derived quad was produced, with its reverse index by rule. */
module DerivedFrom {
  import opened Syntax
  import opened Grounding

  type Entry = (Quad, Derivation)

  function EntriesOf(index: Index, q: Quad): seq<Derivation> {
    if q in index then index[q] else []
  }

  /** No empty entry lists and no duplicates. */
  ghost predicate IndexValid(index: Index) {
    forall q | q in index :: index[q] != [] && NoDup(index[q])
  }

  function AddEntry(index: Index, q: Quad, d: Derivation): Index {
    if d in EntriesOf(index, q) then index else index[q := EntriesOf(index, q) + [d]]
  }

  function Retain(ds: seq<Derivation>, d: Derivation): seq<Derivation> {
    if ds == [] then []
    else if ds[0] == d then Retain(ds[1..], d)
    else [ds[0]] + Retain(ds[1..], d)
  }

  function DropEntry(index: Index, q: Quad, d: Derivation): Index {
    if q !in index then index
    else if Retain(index[q], d) == [] then index - {q}
    else index[q := Retain(index[q], d)]
  }

  lemma {:induction false} RetainExact(ds: seq<Derivation>, d: Derivation)
    ensures forall x :: x in Retain(ds, d) <==> x in ds && x != d
    ensures NoDup(ds) ==> NoDup(Retain(ds, d))
    ensures d !in ds ==> Retain(ds, d) == ds
  {
    if ds != [] {
      RetainExact(ds[1..], d);
      assert ds == [ds[0]] + ds[1..];
      if NoDup(ds) { assert ds[0] !in ds[1..]; }
    }
  }

  lemma {:induction false} RetainAppend(ds: seq<Derivation>, es: seq<Derivation>, d: Derivation)
    ensures Retain(ds + es, d) == Retain(ds, d) + Retain(es, d)
  {
    if ds == [] {
      assert ds + es == es;
    } else {
      assert (ds + es)[1..] == ds[1..] + es;
      RetainAppend(ds[1..], es, d);
    }
  }

  // ---- The reverse index ----

  function CountRule(ds: seq<Derivation>, rid: nat): nat {
    if ds == [] then 0
    else (if ds[0].ruleId == rid then 1 else 0) + CountRule(ds[1..], rid)
  }

  lemma {:induction false} CountAppend(ds: seq<Derivation>, es: seq<Derivation>, rid: nat)
    ensures CountRule(ds + es, rid) == CountRule(ds, rid) + CountRule(es, rid)
  {
    if ds == [] {
      assert ds + es == es;
    } else {
      assert (ds + es)[1..] == ds[1..] + es;
      CountAppend(ds[1..], es, rid);
    }
  }

  lemma {:induction false} CountPositive(ds: seq<Derivation>, rid: nat)
    ensures CountRule(ds, rid) > 0 <==> exists d :: d in ds && d.ruleId == rid
  {
    if ds != [] {
      CountPositive(ds[1..], rid);
      assert ds == [ds[0]] + ds[1..];
    }
  }

  lemma {:induction false} CountRetain(ds: seq<Derivation>, d: Derivation, rid: nat)
    requires NoDup(ds)
    ensures CountRule(Retain(ds, d), rid) ==
            CountRule(ds, rid) - (if d in ds && d.ruleId == rid then 1 else 0)
  {
    if ds != [] {
      assert ds == [ds[0]] + ds[1..];
      CountRetain(ds[1..], d, rid);
      if ds[0] == d {
        assert d !in ds[1..];
      }
    }
  }

  type Counts = map<nat, map<Quad, nat>>

  /** For one rule: every quad it has derivations for, and how many. */
  ghost function RuleCounts(index: Index, rid: nat): map<Quad, nat> {
    map q | q in index && CountRule(index[q], rid) > 0 :: CountRule(index[q], rid)
  }

  /** What the reverse index should be: the counts of the marked rules that have any. */
  ghost predicate CountsOk(byRule: Counts, index: Index, marks: set<nat>) {
    && (forall rid | rid in byRule :: rid in marks && byRule[rid] != map[] && byRule[rid] == RuleCounts(index, rid))
    && (forall rid | rid in marks && RuleCounts(index, rid) != map[] :: rid in byRule)
  }

  /** So it is a function of the forward index and the marks. */
  lemma CountsUnique(byRule: Counts, byRule': Counts, index: Index, marks: set<nat>)
    requires CountsOk(byRule, index, marks) && CountsOk(byRule', index, marks)
    ensures byRule == byRule'
  {
    assert byRule.Keys == byRule'.Keys;
  }

  /** Only the counts of `q` change when only its entries do. */
  lemma CountsElsewhere(index: Index, index': Index, q: Quad, rid: nat)
    requires index - {q} == index' - {q}
    ensures RuleCounts(index, rid) - {q} == RuleCounts(index', rid) - {q}
  {
    assert forall x | x != q :: x in index <==> x in index - {q};
    assert forall x | x != q :: x in index' <==> x in index' - {q};
    assert forall x | x != q && x in index :: index[x] == (index - {q})[x] == index'[x];
  }

  lemma CountsSplit(index: Index, rid: nat, q: Quad)
    ensures q in RuleCounts(index, rid) <==> CountRule(EntriesOf(index, q), rid) > 0
    ensures q in RuleCounts(index, rid) ==> RuleCounts(index, rid)[q] == CountRule(EntriesOf(index, q), rid)
  {
  }

  /** The counts of one rule after only the entries of `q` changed. */
  lemma CountsAfter(index: Index, index': Index, q: Quad, rid: nat)
    requires index - {q} == index' - {q}
    ensures var n := CountRule(EntriesOf(index', q), rid);
            RuleCounts(index', rid) == if n > 0 then RuleCounts(index, rid)[q := n] else RuleCounts(index, rid) - {q}
  {
    CountsElsewhere(index, index', q, rid);
    CountsSplit(index', rid, q);
    var a, b := RuleCounts(index, rid), RuleCounts(index', rid);
    forall x | x != q ensures (x in b <==> x in a) && (x in b ==> b[x] == a[x]) {
      assert x in b <==> x in b - {q};
      assert x in a <==> x in a - {q};
      assert x in b ==> b[x] == (b - {q})[x];
    }
  }

  /** Replacing the counts of one rule. */
  lemma OneRuleChanged(byRule: Counts, byRule': Counts, index: Index, index': Index, marks: set<nat>, rid: nat)
    requires CountsOk(byRule, index, marks)
    requires forall r | r != rid :: RuleCounts(index', r) == RuleCounts(index, r)
    requires byRule' == if rid in marks && RuleCounts(index', rid) != map[] then byRule[rid := RuleCounts(index', rid)]
                        else byRule - {rid}
    ensures CountsOk(byRule', index', marks)
  {
    hide RuleCounts;
  }

  lemma CountsUnchanged(index: Index, index': Index, q: Quad, rid: nat)
    requires index - {q} == index' - {q}
    requires CountRule(EntriesOf(index, q), rid) == CountRule(EntriesOf(index', q), rid)
    ensures RuleCounts(index, rid) == RuleCounts(index', rid)
  {
    CountsAfter(index, index', q, rid);
    CountsSplit(index, rid, q);
  }

  /** The counts `byRule` holds for a marked rule. */
  lemma Looked(byRule: Counts, index: Index, marks: set<nat>, rid: nat)
    requires CountsOk(byRule, index, marks) && rid in marks
    ensures RuleCounts(index, rid) == if rid in byRule then byRule[rid] else map[]
  {
  }

  lemma NotLooked(byRule: Counts, index: Index, marks: set<nat>, rid: nat)
    requires CountsOk(byRule, index, marks) && rid !in marks
    ensures rid !in byRule
  {
  }

  function Incremented(byRule: Counts, rid: nat, q: Quad): Counts {
    var quads := if rid in byRule then byRule[rid] else map[];
    byRule[rid := quads[q := (if q in quads then quads[q] else 0) + 1]]
  }

  lemma SingleCount(d: Derivation)
    ensures forall rid :: CountRule([d], rid) == if d.ruleId == rid then 1 else 0
  {
  }

  lemma ValidAt(index: Index, q: Quad)
    requires IndexValid(index) && q in index
    ensures index[q] != [] && NoDup(index[q])
  {
  }

  lemma AddCounts(byRule: Counts, index: Index, marks: set<nat>, q: Quad, d: Derivation)
    requires CountsOk(byRule, index, marks) && d !in EntriesOf(index, q)
    ensures CountsOk(if d.ruleId in marks then Incremented(byRule, d.ruleId, q) else byRule, AddEntry(index, q, d), marks)
  {
    hide RuleCounts, CountsOk, CountRule;
    var index', rid := AddEntry(index, q, d), d.ruleId;
    assert EntriesOf(index', q) == EntriesOf(index, q) + [d];
    SingleCount(d);
    assert index - {q} == index' - {q};
    forall r | r != rid ensures RuleCounts(index', r) == RuleCounts(index, r) {
      CountAppend(EntriesOf(index, q), [d], r);
      CountsUnchanged(index, index', q, r);
    }
    CountAppend(EntriesOf(index, q), [d], rid);
    CountsAfter(index, index', q, rid);
    CountsSplit(index, rid, q);
    if rid in marks {
      Looked(byRule, index, marks, rid);
    } else {
      NotLooked(byRule, index, marks, rid);
      assert byRule - {rid} == byRule;
    }
    var byRule' := if rid in marks then Incremented(byRule, rid, q) else byRule;
    assert RuleCounts(index', rid) != map[] by { assert q in RuleCounts(index', rid); }
    OneRuleChanged(byRule, byRule', index, index', marks, rid);
  }

  /** Decrement the count of `q` under `rid`, dropping it at zero and the rule with its last quad. */
  function Decremented(byRule: Counts, rid: nat, q: Quad): Counts {
    if rid !in byRule then byRule
    else
      var quads := byRule[rid];
      var quads' := if q !in quads then quads
                    else if quads[q] <= 1 then quads - {q}
                    else quads[q := quads[q] - 1];
      if quads' == map[] then byRule - {rid} else byRule[rid := quads']
  }

  lemma DropCounts(byRule: Counts, index: Index, marks: set<nat>, q: Quad, d: Derivation)
    requires IndexValid(index) && CountsOk(byRule, index, marks) && d in EntriesOf(index, q)
    ensures CountsOk(Decremented(byRule, d.ruleId, q), DropEntry(index, q, d), marks)
  {
    hide RuleCounts, CountsOk, CountRule, IndexValid;
    assert NoDup(index[q]) by { ValidAt(index, q); }
    var index', rid := DropEntry(index, q, d), d.ruleId;
    assert index - {q} == index' - {q};
    assert EntriesOf(index', q) == Retain(index[q], d);
    forall r | r != rid ensures RuleCounts(index', r) == RuleCounts(index, r) {
      CountRetain(index[q], d, r);
      CountsUnchanged(index, index', q, r);
    }
    CountRetain(index[q], d, rid);
    CountsAfter(index, index', q, rid);
    CountPositive(index[q], rid);
    CountsSplit(index, rid, q);
    if rid in marks {
      Looked(byRule, index, marks, rid);
    } else {
      NotLooked(byRule, index, marks, rid);
      assert byRule - {rid} == byRule;
    }
    OneRuleChanged(byRule, Decremented(byRule, rid, q), index, index', marks, rid);
  }

  function Cleared(byRule: Counts, rid: nat, q: Quad): Counts {
    if rid !in byRule then byRule
    else if byRule[rid] - {q} == map[] then byRule - {rid}
    else byRule[rid := byRule[rid] - {q}]
  }

  /** The reverse index with `q` cleared out of the rules of `rids`. */
  ghost predicate ClearedFrom(byRule': Counts, byRule: Counts, rids: set<nat>, q: Quad) {
    && (forall r | r in byRule' :: r in byRule && byRule'[r] == if r in rids then byRule[r] - {q} else byRule[r])
    && (forall r | r in byRule :: r in byRule' || (r in rids && byRule[r] - {q} == map[]))
    && (forall r | r in byRule' && r in rids :: byRule'[r] != map[])
  }

  lemma ClearStep(byRule': Counts, byRule: Counts, rids: set<nat>, q: Quad, rid: nat)
    requires ClearedFrom(byRule', byRule, rids, q)
    ensures ClearedFrom(Cleared(byRule', rid, q), byRule, rids + {rid}, q)
  {
    if rid in byRule' {
      assert byRule'[rid] - {q} == byRule[rid] - {q};
    }
  }

  lemma ClearCounts(byRule: Counts, byRule': Counts, index: Index, marks: set<nat>, q: Quad)
    requires CountsOk(byRule, index, marks) && q in index
    requires ClearedFrom(byRule', byRule, set d | d in index[q] :: d.ruleId, q)
    ensures CountsOk(byRule', index - {q}, marks)
  {
    var index' := index - {q};
    var rids := set d | d in index[q] :: d.ruleId;
    forall r ensures RuleCounts(index', r) == RuleCounts(index, r) - {q}
             ensures r !in rids ==> RuleCounts(index, r) - {q} == RuleCounts(index, r)
    {
      assert index - {q} == index' - {q};
      CountsAfter(index, index', q, r);
      CountPositive(index[q], r);
      CountsSplit(index, r, q);
    }
    ClearCountsFinish(byRule, byRule', index, index', marks, q, rids);
  }

  lemma ClearCountsFinish(byRule: Counts, byRule': Counts, index: Index, index': Index, marks: set<nat>, q: Quad, rids: set<nat>)
    requires CountsOk(byRule, index, marks) && ClearedFrom(byRule', byRule, rids, q)
    requires forall r :: RuleCounts(index', r) == RuleCounts(index, r) - {q}
    requires forall r | r !in rids :: RuleCounts(index, r) - {q} == RuleCounts(index, r)
    ensures CountsOk(byRule', index', marks)
  {
    hide RuleCounts;
    forall r | r in marks && RuleCounts(index', r) != map[] ensures r in byRule' {
      assert RuleCounts(index, r) != map[];
    }
  }

  /** A copy of an index with its reverse index and marks. */
  datatype SavedIndex = SavedIndex(index: Index, byRule: Counts, marks: set<nat>)

  class DerivedFromIndex {
    var index: Index
    /** For each marked rule, the quads it derived and in how many ways. */
    var byRule: Counts
    /** The rules with a NOT atom: the only ones `byRule` covers. */
    var negativelyTriggeringRules: set<nat>

    ghost predicate Valid()
      reads this
    {
      IndexValid(index) && CountsOk(byRule, index, negativelyTriggeringRules)
    }

    constructor WithNegativelyTriggeringRules(marks: set<nat>)
      ensures Valid() && index == map[] && negativelyTriggeringRules == marks
    {
      index, byRule, negativelyTriggeringRules := map[], map[], marks;
    }

    function Copy(): SavedIndex
      reads this
    {
      SavedIndex(index, byRule, negativelyTriggeringRules)
    }

    method Restore(saved: SavedIndex)
      requires IndexValid(saved.index) && CountsOk(saved.byRule, saved.index, saved.marks)
      modifies this
      ensures Valid() && Copy() == saved
    {
      index, byRule, negativelyTriggeringRules := saved.index, saved.byRule, saved.marks;
    }

    /** Start over with no records and - as the default value has none - no marks. */
    method Reset()
      modifies this
      ensures Valid() && index == map[] && negativelyTriggeringRules == {}
    {
      index, byRule, negativelyTriggeringRules := map[], map[], {};
    }

    /** Opt a rule in to the reverse index, before anything was recorded for it. */
    method MarkNegativelyTriggering(rid: nat)
      requires Valid() && RuleCounts(index, rid) == map[]
      modifies `negativelyTriggeringRules
      ensures Valid() && negativelyTriggeringRules == old(negativelyTriggeringRules) + {rid}
    {
      negativelyTriggeringRules := negativelyTriggeringRules + {rid};
    }

    /** Record one way `q` was produced; duplicates are ignored. */
    method Record(q: Quad, d: Derivation) returns (isNew: bool)
      requires Valid()
      modifies `index, `byRule
      ensures Valid() && index == AddEntry(old(index), q, d)
      ensures isNew <==> !Holds(old(index), q, d)
    {
      isNew := d !in EntriesOf(index, q);
      if isNew {
        AddCounts(byRule, index, negativelyTriggeringRules, q, d);
        AddValid(index, q, d);
        index := AddEntry(index, q, d);
        if d.ruleId in negativelyTriggeringRules {
          byRule := Incremented(byRule, d.ruleId, q);
        }
      }
    }

    /** Remove exactly one record, if present. */
    method Unrecord(q: Quad, d: Derivation)
      requires Valid()
      modifies `index, `byRule
      ensures Valid() && index == DropEntry(old(index), q, d)
    {
      var removed := d in EntriesOf(index, q);
      DropValid(index, q, d);
      if removed {
        DropCounts(byRule, index, negativelyTriggeringRules, q, d);
      }
      index := DropEntry(index, q, d);
      if removed {
        byRule := Decremented(byRule, d.ruleId, q);
      }
    }

    /** Remove every record of `q`. */
    method Remove(q: Quad)
      requires Valid()
      modifies `index, `byRule
      ensures Valid() && index == old(index) - {q}
    {
      if q in index {
        var ds := index[q];
        ghost var index0, byRule0 := index, byRule;
        for k := 0 to |ds|
          invariant index == index0 && IndexValid(index)
          invariant ClearedFrom(byRule, byRule0, RuleIds(ds[..k]), q)
        {
          ClearStep(byRule, byRule0, RuleIds(ds[..k]), q, ds[k].ruleId);
          assert RuleIds(ds[..k + 1]) == RuleIds(ds[..k]) + {ds[k].ruleId} by {
            assert ds[..k + 1] == ds[..k] + [ds[k]];
          }
          byRule := Cleared(byRule, ds[k].ruleId, q);
        }
        assert ds[..|ds|] == ds;
        ClearCounts(byRule0, byRule, index0, negativelyTriggeringRules, q);
        index := index - {q};
      }
    }

    function DerivationsFor(q: Quad): seq<Derivation>
      reads this
    {
      EntriesOf(index, q)
    }

    /** The quads with a record by `rid`, as far as the reverse index knows. */
    function QuadsForRule(rid: nat): set<Quad>
      reads this
    {
      if rid in byRule then byRule[rid].Keys else {}
    }

    /** For any other rule it finds nothing. */
    lemma QuadsForUnmarked(rid: nat)
      requires Valid() && rid !in negativelyTriggeringRules
      ensures QuadsForRule(rid) == {}
    {
    }

    /** For a marked rule the reverse index finds exactly what scanning every record would. */
    lemma QuadsForRuleExact(rid: nat)
      requires Valid() && rid in negativelyTriggeringRules
      ensures forall q :: q in QuadsForRule(rid) <==> exists d :: Holds(index, q, d) && d.ruleId == rid
    {
      forall q ensures q in QuadsForRule(rid) <==> exists d :: Holds(index, q, d) && d.ruleId == rid {
        Looked(byRule, index, negativelyTriggeringRules, rid);
        CountPositive(EntriesOf(index, q), rid);
        CountsSplit(index, rid, q);
      }
    }
  }

  function RuleIds(ds: seq<Derivation>): set<nat> {
    set d | d in ds :: d.ruleId
  }

  lemma AddValid(index: Index, q: Quad, d: Derivation)
    requires IndexValid(index)
    ensures IndexValid(AddEntry(index, q, d))
  {
  }

  lemma DropValid(index: Index, q: Quad, d: Derivation)
    requires IndexValid(index)
    ensures IndexValid(DropEntry(index, q, d))
    ensures d !in EntriesOf(index, q) ==> DropEntry(index, q, d) == index
  {
    if q in index {
      RetainExact(index[q], d);
    }
  }

  /**
   * The reverse index agrees with a scan, whatever was recorded, exactly for the marked rules: an
   * index that forgot its marks misses the first record of the rule.
   */
  lemma UnmarkedMisses(rid: nat, q: Quad, d: Derivation, index: Index, byRule: Counts, marks: set<nat>)
    requires d.ruleId == rid && CountsOk(byRule, index, marks) && Holds(index, q, d)
    ensures rid in marks <==> rid in byRule && q in byRule[rid]
  {
    CountPositive(EntriesOf(index, q), rid);
    CountsSplit(index, rid, q);
    if rid in marks {
      Looked(byRule, index, marks, rid);
    }
  }

  // ---- Undo logs ----

  /** Recording the entries of a log in order. */
  function AddAll(index: Index, log: seq<Entry>): Index {
    if log == [] then index
    else AddEntry(AddAll(index, log[..|log| - 1]), log[|log| - 1].0, log[|log| - 1].1)
  }

  /** Unrecording the entries of a log, in the same order. */
  function DropAll(index: Index, log: seq<Entry>): Index {
    if log == [] then index
    else DropEntry(DropAll(index, log[..|log| - 1]), log[|log| - 1].0, log[|log| - 1].1)
  }

  /** Every entry of the log was new when it was recorded. */
  ghost predicate FreshLog(index: Index, log: seq<Entry>) {
    NoDup(log) && forall e | e in log :: !Holds(index, e.0, e.1)
  }

  lemma DropAdd(index: Index, q: Quad, d: Derivation)
    requires IndexValid(index) && !Holds(index, q, d)
    ensures DropEntry(AddEntry(index, q, d), q, d) == index
  {
    var ds := EntriesOf(index, q);
    RetainAppend(ds, [d], d);
    RetainExact(ds, d);
    assert Retain([d], d) == [];
    assert Retain(ds + [d], d) == ds;
  }

  /** Dropping one entry commutes with appending another. */
  lemma DropAddCommute(index: Index, q: Quad, d: Derivation, q': Quad, d': Derivation)
    requires IndexValid(index) && (q, d) != (q', d') && !Holds(index, q, d)
    ensures DropEntry(AddEntry(index, q, d), q', d') == AddEntry(DropEntry(index, q', d'), q, d)
  {
    if q' in index {
      RetainExact(index[q'], d');
    }
    if q == q' {
      var ds := EntriesOf(index, q);
      RetainAppend(ds, [d], d');
      assert Retain([d], d') == [d] by { assert [d][1..] == []; }
      assert EntriesOf(DropEntry(index, q, d'), q) == Retain(ds, d');
      assert AddEntry(index, q, d)[q] == ds + [d];
    }
  }

  lemma {:induction false} DropAllOnlyDrops(index: Index, log: seq<Entry>, q: Quad, d: Derivation)
    requires IndexValid(index)
    ensures IndexValid(DropAll(index, log))
    ensures Holds(DropAll(index, log), q, d) ==> Holds(index, q, d)
    decreases |log|
  {
    if log != [] {
      var rest, e := log[..|log| - 1], log[|log| - 1];
      DropAllOnlyDrops(index, rest, q, d);
      var mid := DropAll(index, rest);
      DropValid(mid, e.0, e.1);
      if e.0 in mid {
        RetainExact(mid[e.0], e.1);
      }
    }
  }

  lemma {:induction false} DropAllCommute(index: Index, log: seq<Entry>, q: Quad, d: Derivation)
    requires IndexValid(index) && (q, d) !in log && !Holds(index, q, d)
    ensures DropAll(AddEntry(index, q, d), log) == AddEntry(DropAll(index, log), q, d)
    decreases |log|
  {
    if log != [] {
      var rest, e := log[..|log| - 1], log[|log| - 1];
      assert log == rest + [e];
      DropAllCommute(index, rest, q, d);
      DropAllOnlyDrops(index, rest, q, d);
      DropAddCommute(DropAll(index, rest), q, d, e.0, e.1);
    }
  }

  lemma {:induction false} AddAllHolds(index: Index, log: seq<Entry>)
    requires IndexValid(index)
    ensures IndexValid(AddAll(index, log))
    ensures forall q, d :: Holds(AddAll(index, log), q, d) <==> Holds(index, q, d) || (q, d) in log
    decreases |log|
  {
    if log != [] {
      var rest, e := log[..|log| - 1], log[|log| - 1];
      assert log == rest + [e];
      AddAllHolds(index, rest);
    }
  }

  /** Unrecording a log of fresh entries restores the index exactly, entry order included. */
  lemma {:induction false} UndoExact(index: Index, log: seq<Entry>)
    requires IndexValid(index) && FreshLog(index, log)
    ensures DropAll(AddAll(index, log), log) == index
    decreases |log|
  {
    if log != [] {
      var rest, e := log[..|log| - 1], log[|log| - 1];
      assert log == rest + [e];
      assert e !in rest && (e.0, e.1) == e;
      UndoExact(index, rest);
      AddAllHolds(index, rest);
      var mid := AddAll(index, rest);
      assert !Holds(mid, e.0, e.1);
      DropAllCommute(mid, rest, e.0, e.1);
      DropAdd(index, e.0, e.1);
    }
  }
}
