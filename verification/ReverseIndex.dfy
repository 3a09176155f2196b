/** Over-deletion: the reverse witness index and the breadth-first search through it. */
module ReverseIndex {
  import opened Syntax
  import opened Clauses
  import opened Grounding
  import opened QuadTables
  import opened DerivedFrom
  import opened Maintenance

  /** For each witness, the derived quads that use it. */
  type Reverse = map<Quad, seq<Quad>>

  function DependentsOf(rev: Reverse, w: Quad): seq<Quad> {
    if w in rev then rev[w] else []
  }

  /** `w` is a witness of a recorded derivation of `q`. */
  ghost predicate Feeds(index: Index, w: Quad, q: Quad) {
    exists d :: Holds(index, q, d) && w in d.bodyWitnesses
  }

  ghost predicate FeedsSome(ds: seq<Derivation>, w: Quad) {
    exists d :: d in ds && w in d.bodyWitnesses
  }

  /** `rev'` is `rev` with `q` entered under each of `ws`. */
  method EnterWitnesses(rev: Reverse, q: Quad, ws: seq<Quad>) returns (rev': Reverse)
    ensures forall w, x :: x in DependentsOf(rev', w) <==> x in DependentsOf(rev, w) || (x == q && w in ws)
  {
    rev' := rev;
    for k := 0 to |ws|
      invariant forall w, x :: x in DependentsOf(rev', w) <==> x in DependentsOf(rev, w) || (x == q && w in ws[..k])
    {
      rev' := rev'[ws[k] := DependentsOf(rev', ws[k]) + [q]];
      assert ws[..k + 1] == ws[..k] + [ws[k]];
    }
    assert ws[..|ws|] == ws;
  }

  method EnterDerivations(rev: Reverse, q: Quad, ds: seq<Derivation>) returns (rev': Reverse)
    ensures forall w, x :: x in DependentsOf(rev', w) <==> x in DependentsOf(rev, w) || (x == q && FeedsSome(ds, w))
  {
    rev' := rev;
    for k := 0 to |ds|
      invariant forall w, x :: x in DependentsOf(rev', w) <==> x in DependentsOf(rev, w) || (x == q && FeedsSome(ds[..k], w))
    {
      ghost var before := rev';
      rev' := EnterWitnesses(rev', q, ds[k].bodyWitnesses);
      forall w ensures FeedsSome(ds[..k + 1], w) <==> FeedsSome(ds[..k], w) || w in ds[k].bodyWitnesses {
        FeedsSnoc(ds, k, w);
      }
    }
    assert ds[..|ds|] == ds;
  }

  lemma FeedsSnoc(ds: seq<Derivation>, k: nat, w: Quad)
    requires k < |ds|
    ensures FeedsSome(ds[..k + 1], w) <==> FeedsSome(ds[..k], w) || w in ds[k].bodyWitnesses
  {
    assert ds[..k + 1] == ds[..k] + [ds[k]];
    forall d | d in ds[..k] && w in d.bodyWitnesses ensures FeedsSome(ds[..k + 1], w) {
      assert d in ds[..k + 1];
    }
    if w in ds[k].bodyWitnesses {
      assert ds[k] in ds[..k + 1];
    }
  }

  /** Enter every derivation of one program's index. */
  method EnterIndex(rev: Reverse, index: Index) returns (rev': Reverse)
    ensures forall w, x :: x in DependentsOf(rev', w) <==> x in DependentsOf(rev, w) || Feeds(index, w, x)
  {
    rev' := rev;
    var todo := index.Keys;
    while todo != {}
      invariant todo <= index.Keys
      invariant forall w, x :: x in DependentsOf(rev', w) <==> x in DependentsOf(rev, w) || (x !in todo && Feeds(index, w, x))
      decreases todo
    {
      var q :| q in todo;
      rev' := EnterDerivations(rev', q, index[q]);
      forall w ensures FeedsSome(index[q], w) <==> Feeds(index, w, q) {
        FeedsAt(index, q, w);
      }
      todo := todo - {q};
    }
    assert forall q :: q !in todo;
  }

  lemma FeedsAt(index: Index, q: Quad, w: Quad)
    requires q in index
    ensures FeedsSome(index[q], w) <==> Feeds(index, w, q)
  {
    forall d | d in index[q] && w in d.bodyWitnesses ensures Feeds(index, w, q) {
      assert Holds(index, q, d);
    }
  }

  /** One of the first `k` indexes feeds `q` from `w`. */
  ghost predicate FeedsBelow(indexes: seq<Index>, k: nat, w: Quad, q: Quad) {
    exists i :: 0 <= i < k && i < |indexes| && Feeds(indexes[i], w, q)
  }

  lemma FeedsBelowNext(indexes: seq<Index>, k: nat, w: Quad, q: Quad)
    requires k < |indexes|
    ensures FeedsBelow(indexes, k + 1, w, q) <==> FeedsBelow(indexes, k, w, q) || Feeds(indexes[k], w, q)
  {
    hide Feeds;
  }

  /** Some record derives `q` with `w` as a witness. */
  ghost predicate Derives(d: Program, w: Quad, q: Quad) {
    exists c :: c in d && c.head == Some(q) && w in c.pos
  }

  /** `rev` is the reverse index of the records `d`. */
  ghost predicate IsReverse(rev: Reverse, d: Program) {
    forall w, q :: q in DependentsOf(rev, w) <==> Derives(d, w, q)
  }

  /** The quads a record derives from a quad of `x`. */
  ghost predicate DerivedFromSome(d: Program, x: set<Quad>, q: Quad) {
    exists w :: w in x && Derives(d, w, q)
  }

  /** A cascade is closed under the derivations into quads not kept. */
  lemma CascadeStep(d: Program, keep: set<Quad>, seeds: set<Quad>, w: Quad, q: Quad)
    requires w in Cascade(d, keep, seeds) && Derives(d, w, q) && q !in keep
    ensures q in Cascade(d, keep, seeds)
  {
    var c :| c in d && c.head == Some(q) && w in c.pos;
    CascadeClosed(d, keep, seeds, c);
  }

  /** And it is the least such set. */
  lemma CascadeMinimal(d: Program, keep: set<Quad>, seeds: set<Quad>, m: set<Quad>)
    requires seeds <= m && forall w, q | w in m && Derives(d, w, q) && q !in keep :: q in m
    ensures Cascade(d, keep, seeds) <= m
  {
    forall c, w | c in d && w in c.pos && w in m && c.head.Some? && c.head.value !in keep ensures c.head.value in m {
      assert Derives(d, w, c.head.value);
    }
    CascadeIsLeast(d, keep, seeds, m);
  }

  /** The breadth-first search from `seeds`, of which `pd0` are taken for reached: `pd` and `work` so far. */
  ghost predicate Searching(d: Program, keep: set<Quad>, seeds: set<Quad>, pd0: set<Quad>, pd: set<Quad>, work: seq<Quad>) {
    && pd0 <= pd && pd0 <= seeds && Elements(work) <= seeds + pd
    && seeds + pd <= Cascade(d, keep, seeds)
    && (forall q | q in pd && q !in pd0 :: q !in keep && DerivedFromSome(d, seeds + pd, q))
    && (forall w, q | w in seeds + pd && w !in work && Derives(d, w, q) && q !in keep :: q in pd)
  }

  lemma SearchStart(d: Program, keep: set<Quad>, pd0: set<Quad>, work: seq<Quad>)
    requires pd0 <= Elements(work)
    ensures Searching(d, keep, Elements(work), pd0, pd0, work)
  {
    LeastIsModel(Edges(d, keep), Elements(work), {});
  }

  /** One step: the dependents of the first quad of the work list are taken up. */
  lemma SearchStep(d: Program, keep: set<Quad>, seeds: set<Quad>, pd0: set<Quad>, pd: set<Quad>, work: seq<Quad>,
                   pd': set<Quad>, added: seq<Quad>)
    requires work != [] && Searching(d, keep, seeds, pd0, pd, work)
    requires pd' == pd + Elements(added)
    requires forall q | q in added :: q !in keep && Derives(d, work[0], q)
    requires forall q | Derives(d, work[0], q) && q !in keep :: q in pd'
    ensures Searching(d, keep, seeds, pd0, pd', work[1..] + added)
  {
    hide Derives, Cascade;
    assert work == [work[0]] + work[1..];
    assert work[0] in Elements(work);
    forall q | q in added ensures q in Cascade(d, keep, seeds) {
      CascadeStep(d, keep, seeds, work[0], q);
    }
    forall q | q in pd' && q !in pd0 ensures DerivedFromSome(d, seeds + pd', q) {
      if q in pd {
        var w :| w in seeds + pd && Derives(d, w, q);
        assert w in seeds + pd';
      } else {
        assert work[0] in seeds + pd';
      }
    }
    forall w, q | w in seeds + pd' && w !in work[1..] + added && Derives(d, w, q) && q !in keep ensures q in pd' {
      if w != work[0] {
        assert w !in added && w !in work;
        assert w in seeds + pd;
      }
    }
    assert forall w :: w in work[1..] + added <==> w in work[1..] || w in added;
    forall q | q in work[1..] + added ensures q in seeds + pd' {
      if q in work[1..] { assert q in Elements(work); }
    }
  }

  /** What a search finds: the cascade of the seeds, apart from the seeds that are not in `pd0`. */
  ghost predicate Searched(d: Program, keep: set<Quad>, seeds: set<Quad>, pd0: set<Quad>, pd: set<Quad>) {
    && seeds + pd == Cascade(d, keep, seeds)
    && forall q :: q in pd <==> q in pd0 || (q !in keep && DerivedFromSome(d, Cascade(d, keep, seeds), q))
  }

  lemma SearchEnd(d: Program, keep: set<Quad>, seeds: set<Quad>, pd0: set<Quad>, pd: set<Quad>)
    requires Searching(d, keep, seeds, pd0, pd, [])
    ensures Searched(d, keep, seeds, pd0, pd)
  {
    CascadeMinimal(d, keep, seeds, seeds + pd);
  }

  lemma CascadeSearched(d: Program, keep: set<Quad>, seeds: set<Quad>, pd: set<Quad>)
    requires Searched(d, keep, seeds, seeds, pd)
    ensures pd == Cascade(d, keep, seeds)
  {
    assert seeds <= pd;
  }

  /**
   * Follow the reverse index from the work list; `guarded` searches never enter an asserted fact.
   * `seeds + pd` ends as the cascade of the seeds.
   */
  method Search(rev: Reverse, table: QuadTable, guarded: bool, pd0: set<Quad>, work0: seq<Quad>, ghost d: Program) returns (pd: set<Quad>)
    requires table.Valid() && IsReverse(rev, d) && pd0 <= Elements(work0)
    ensures Searched(d, if guarded then table.Extensional() else {}, Elements(work0), pd0, pd)
  {
    ghost var keep := if guarded then table.Extensional() else {};
    hide QuadTable.Valid, Searching, Searched, Derives, IsReverse, Cascade;
    var work := work0;
    pd := pd0;
    SearchStart(d, keep, pd0, work0);
    while work != []
      invariant Searching(d, keep, Elements(work0), pd0, pd, work)
      decreases AllQuads() - pd, |work|
    {
      var added;
      ghost var pd1 := pd;
      pd, added := TakeUp(DependentsOf(rev, work[0]), table, guarded, pd);
      DependentsExact(rev, d, work[0]);
      SearchStep(d, keep, Elements(work0), pd0, pd1, work, pd, added);
      GrowsWithin(pd1, added);
      work := work[1..] + added;
    }
    SearchEnd(d, keep, Elements(work0), pd0, pd);
  }

  lemma DependentsExact(rev: Reverse, d: Program, w: Quad)
    requires IsReverse(rev, d)
    ensures forall q :: q in DependentsOf(rev, w) <==> Derives(d, w, q)
  {
  }

  /** Either nothing was added or fewer quads remain to be reached. */
  lemma GrowsWithin(pd: set<Quad>, added: seq<Quad>)
    ensures added != [] && (forall q | q in added :: q !in pd) ==> AllQuads() - (pd + Elements(added)) < AllQuads() - pd
    ensures added == [] ==> pd + Elements(added) == pd
  {
    if added != [] {
      assert added[0] in added;
      EveryQuad(added[0]);
    }
  }

  /** The dependents not reached before: they join `pd` and the work list. */
  method TakeUp(dependents: seq<Quad>, table: QuadTable, guarded: bool, pd: set<Quad>) returns (pd': set<Quad>, added: seq<Quad>)
    requires table.Valid()
    ensures pd' == pd + Elements(added) && forall q | q in added :: q !in pd && q in dependents
    ensures guarded ==> table.Extensional() !! Elements(added)
    ensures forall q | q in dependents && (guarded ==> q !in table.Extensional()) :: q in pd'
  {
    pd', added := pd, [];
    hide ReverseOk, FlatOk, NestedOk;
    for k := 0 to |dependents|
      invariant pd' == pd + Elements(added) && forall q | q in added :: q !in pd && q in dependents
      invariant guarded ==> table.Extensional() !! Elements(added)
      invariant forall j | 0 <= j < k && (guarded ==> dependents[j] !in table.Extensional()) :: dependents[j] in pd'
    {
      var q := dependents[k];
      if (guarded ==> !table.IsExtensional(q)) && q !in pd' {
        pd' := pd' + {q};
        added := added + [q];
      }
    }
  }
}
