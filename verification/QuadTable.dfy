/** The multi-index quad store. */
module QuadTables {
  import opened Syntax

  type FlatIndex = map<GraphElementId, seq<nat>>
  type NestedIndex = map<GraphElementId, FlatIndex>

  /** `index` sends each key to exactly the positions that have it, with no empty bucket. */
  ghost predicate FlatOk(index: FlatIndex, keys: map<nat, GraphElementId>) {
    && (forall k | k in index :: BucketOk(index[k], keys, k))
    && (forall i | i in keys :: keys[i] in index && i in index[keys[i]])
  }

  ghost predicate BucketOk(bucket: seq<nat>, keys: map<nat, GraphElementId>, k: GraphElementId) {
    bucket != [] && NoDup(bucket) && forall i | i in bucket :: i in keys && keys[i] == k
  }

  type Pairs = map<nat, (GraphElementId, GraphElementId)>

  ghost function Inner(keys: Pairs, outer: GraphElementId): map<nat, GraphElementId> {
    map i | i in keys && keys[i].0 == outer :: keys[i].1
  }

  ghost predicate NestedOk(index: NestedIndex, keys: Pairs) {
    && (forall k | k in index :: index[k] != map[] && FlatOk(index[k], Inner(keys, k)))
    && (forall i | i in keys :: keys[i].0 in index)
  }

  ghost function GraphKeys(list: seq<Quad>): map<nat, GraphElementId> {
    map i: nat | i < |list| :: list[i].graph
  }
  ghost function PredKeys(list: seq<Quad>): map<nat, GraphElementId> {
    map i: nat | i < |list| :: list[i].pred
  }
  ghost function SubjectKeys(list: seq<Quad>): Pairs {
    map i: nat | i < |list| :: (list[i].subject, list[i].pred)
  }
  ghost function ObjectKeys(list: seq<Quad>): Pairs {
    map i: nat | i < |list| :: (list[i].obj, list[i].pred)
  }

  ghost predicate ReverseOk(list: seq<Quad>, fourKeys: map<Quad, nat>) {
    && (forall q | q in fourKeys :: fourKeys[q] < |list| && list[fourKeys[q]] == q)
    && (forall i | 0 <= i < |list| :: list[i] in fourKeys && fourKeys[list[i]] == i)
  }

  // ---- Bucket updates ----

  function Pushed(index: FlatIndex, key: GraphElementId, i: nat): FlatIndex {
    index[key := (if key in index then index[key] else []) + [i]]
  }

  function PushedNested(index: NestedIndex, outer: GraphElementId, inner: GraphElementId, i: nat): NestedIndex {
    index[outer := Pushed(if outer in index then index[outer] else map[], inner, i)]
  }

  lemma PushedOk(index: FlatIndex, keys: map<nat, GraphElementId>, key: GraphElementId, i: nat)
    requires FlatOk(index, keys) && i !in keys
    ensures FlatOk(Pushed(index, key, i), keys[i := key])
  {
    var index', keys' := Pushed(index, key, i), keys[i := key];
    forall k | k in index' ensures BucketOk(index'[k], keys', k) {
      if k in index { assert BucketOk(index[k], keys, k); }
    }
  }

  ghost predicate SameElsewhere(keys: Pairs, keys': Pairs, outer: GraphElementId) {
    forall k | k != outer :: Inner(keys, k) == Inner(keys', k)
  }

  /** Changing one inner index only concerns the positions with that outer key. */
  lemma ReplaceInner(index: NestedIndex, keys: Pairs, keys': Pairs, outer: GraphElementId, m: FlatIndex)
    requires NestedOk(index, keys) && SameElsewhere(keys, keys', outer)
    requires FlatOk(m, Inner(keys', outer)) && m != map[]
    ensures NestedOk(index[outer := m], keys')
  {
    forall i | i in keys' ensures keys'[i].0 in index[outer := m] {
      if keys'[i].0 != outer {
        assert i in Inner(keys', keys'[i].0);
        assert i in Inner(keys, keys'[i].0);
      }
    }
  }

  lemma DropInner(index: NestedIndex, keys: Pairs, keys': Pairs, outer: GraphElementId)
    requires NestedOk(index, keys) && SameElsewhere(keys, keys', outer)
    requires FlatOk(map[], Inner(keys', outer))
    ensures NestedOk(index - {outer}, keys')
  {
    forall i | i in keys' ensures keys'[i].0 in index - {outer} {
      assert i in Inner(keys', keys'[i].0);
      if keys'[i].0 != outer {
        assert i in Inner(keys, keys'[i].0);
      }
    }
  }

  lemma InnerWithout(keys: Pairs, from: nat, outer: GraphElementId)
    requires from in keys ==> keys[from].0 == outer
    ensures Inner(keys - {from}, outer) == Inner(keys, outer) - {from}
    ensures SameElsewhere(keys, keys - {from}, outer)
  {
  }

  lemma InnerWith(keys: Pairs, to: nat, outer: GraphElementId, inner: GraphElementId)
    requires to !in keys
    ensures Inner(keys[to := (outer, inner)], outer) == Inner(keys, outer)[to := inner]
    ensures SameElsewhere(keys, keys[to := (outer, inner)], outer)
  {
  }

  lemma PushedNestedOk(index: NestedIndex, keys: Pairs, outer: GraphElementId, inner: GraphElementId, i: nat)
    requires NestedOk(index, keys) && i !in keys
    ensures NestedOk(PushedNested(index, outer, inner, i), keys[i := (outer, inner)])
  {
    var bucket := if outer in index then index[outer] else map[];
    InnerWith(keys, i, outer, inner);
    PushedOk(bucket, Inner(keys, outer), inner, i);
    ReplaceInner(index, keys, keys[i := (outer, inner)], outer, Pushed(bucket, inner, i));
  }

  function PositionOf(v: seq<nat>, x: nat): (r: Option<nat>)
    ensures r.Some? ==> r.value < |v| && v[r.value] == x
    ensures r.None? ==> x !in v
  {
    if v == [] then None
    else if v[0] == x then Some(0)
    else
      match PositionOf(v[1..], x)
      case None => None
      case Some(j) => Some(j + 1)
  }

  /** The last entry fills the hole. */
  function SwapRemove<T>(v: seq<T>, pos: nat): seq<T>
    requires pos < |v|
  {
    v[pos := v[|v| - 1]][..|v| - 1]
  }

  lemma SwapRemoveExact<T>(v: seq<T>, pos: nat)
    requires pos < |v| && NoDup(v)
    ensures NoDup(SwapRemove(v, pos))
    ensures forall x :: x in SwapRemove(v, pos) <==> x in v && x != v[pos]
  {
    var r := SwapRemove(v, pos);
    forall x | x in v && x != v[pos] ensures x in r {
      var j :| 0 <= j < |v| && v[j] == x;
      if j == |v| - 1 { assert r[pos] == x; } else { assert r[j] == x; }
    }
  }

  lemma SwapRemoveElements<T>(v: seq<T>, pos: nat)
    requires pos < |v| && NoDup(v)
    ensures Elements(SwapRemove(v, pos)) == Elements(v) - {v[pos]}
  {
    SwapRemoveExact(v, pos);
  }

  /** Remove the entry equal to `from` from the bucket of `key`, pruning the bucket if it becomes empty. */
  method RemoveFlatIndexEntry(index: FlatIndex, key: GraphElementId, from: nat, ghost keys: map<nat, GraphElementId>)
    returns (index': FlatIndex)
    requires FlatOk(index, keys)
    requires from in keys ==> keys[from] == key
    ensures FlatOk(index', keys - {from})
  {
    index' := index;
    if key in index {
      assert BucketOk(index[key], keys, key);
      var v := index[key];
      var pos := PositionOf(v, from);
      if pos.Some? {
        SwapRemoveExact(v, pos.value);
        v := SwapRemove(v, pos.value);
      }
      index' := if v == [] then index - {key} else index[key := v];
      forall k | k in index' ensures BucketOk(index'[k], keys - {from}, k) {
        assert BucketOk(index[k], keys, k);
      }
    }
  }

  method RemoveNestedIndexEntry(index: NestedIndex, outer: GraphElementId, inner: GraphElementId, from: nat, ghost keys: Pairs)
    returns (index': NestedIndex)
    requires NestedOk(index, keys)
    requires from in keys && keys[from] == (outer, inner)
    ensures NestedOk(index', keys - {from})
  {
    index' := index;
    if outer in index {
      var m := RemoveFlatIndexEntry(index[outer], inner, from, Inner(keys, outer));
      InnerWithout(keys, from, outer);
      if m == map[] {
        DropInner(index, keys, keys - {from}, outer);
        index' := index - {outer};
      } else {
        ReplaceInner(index, keys, keys - {from}, outer, m);
        index' := index[outer := m];
      }
    }
  }

  /** Rewrite the entry equal to `from` to `to` in the bucket of `key`. */
  method RelocateFlatIndexEntry(index: FlatIndex, key: GraphElementId, from: nat, to: nat, ghost keys: map<nat, GraphElementId>)
    returns (index': FlatIndex)
    requires FlatOk(index, keys)
    requires from in keys && keys[from] == key && to !in keys
    ensures FlatOk(index', (keys - {from})[to := key])
  {
    assert BucketOk(index[key], keys, key);
    index' := index;
    if key in index {
      var pos := PositionOf(index[key], from);
      if pos.Some? {
        var v: seq<nat> := index[key][pos.value := to];
        RelocatedBucket(index[key], pos.value, to, keys, key);
        index' := index[key := v];
        forall k | k in index' && k != key ensures BucketOk(index'[k], (keys - {from})[to := key], k) {
          assert BucketOk(index[k], keys, k);
        }
      }
    }
  }

  lemma RelocatedBucket(v: seq<nat>, pos: nat, to: nat, keys: map<nat, GraphElementId>, key: GraphElementId)
    requires BucketOk(v, keys, key) && pos < |v| && to !in keys
    ensures BucketOk(v[pos := to], (keys - {v[pos]})[to := key], key)
    ensures forall x :: x in v[pos := to] <==> x == to || (x in v && x != v[pos])
  {
    var r := v[pos := to];
    assert r[pos] == to;
    forall x | x in v && x != v[pos] ensures x in r {
      var j :| 0 <= j < |v| && v[j] == x;
      assert r[j] == x;
    }
  }

  method RelocateNestedIndexEntry(index: NestedIndex, outer: GraphElementId, inner: GraphElementId, from: nat, to: nat, ghost keys: Pairs)
    returns (index': NestedIndex)
    requires NestedOk(index, keys)
    requires from in keys && keys[from] == (outer, inner) && to !in keys
    ensures NestedOk(index', (keys - {from})[to := (outer, inner)])
  {
    index' := index;
    if outer in index {
      var m := RelocateFlatIndexEntry(index[outer], inner, from, to, Inner(keys, outer));
      ghost var keys1 := keys - {from};
      ghost var keys2 := keys1[to := (outer, inner)];
      InnerWithout(keys, from, outer);
      InnerWith(keys1, to, outer, inner);
      assert SameElsewhere(keys, keys2, outer);
      assert to in Inner(keys2, outer);
      ReplaceInner(index, keys, keys2, outer, m);
      index' := index[outer := m];
    }
  }

  // ---- Filtering ----

  /** Does `q` have the given components, where given? */
  predicate Fits(q: Quad, g: Option<GraphElementId>, s: Option<GraphElementId>, p: Option<GraphElementId>, o: Option<GraphElementId>) {
    && (g.Some? ==> q.graph == g.value)
    && (s.Some? ==> q.subject == s.value)
    && (p.Some? ==> q.pred == p.value)
    && (o.Some? ==> q.obj == o.value)
  }

  /** `r` lists the quads of `list` with the given components, each once. */
  ghost predicate Listing(r: seq<Quad>, list: seq<Quad>, g: Option<GraphElementId>, s: Option<GraphElementId>,
                          p: Option<GraphElementId>, o: Option<GraphElementId>) {
    NoDup(r) && forall q :: q in r <==> q in list && Fits(q, g, s, p, o)
  }

  function Filter(qs: seq<Quad>, g: Option<GraphElementId>, s: Option<GraphElementId>,
                  p: Option<GraphElementId>, o: Option<GraphElementId>): seq<Quad> {
    if qs == [] then []
    else if Fits(qs[0], g, s, p, o) then [qs[0]] + Filter(qs[1..], g, s, p, o)
    else Filter(qs[1..], g, s, p, o)
  }

  lemma {:induction false} FilterExact(qs: seq<Quad>, g: Option<GraphElementId>, s: Option<GraphElementId>,
                                       p: Option<GraphElementId>, o: Option<GraphElementId>)
    ensures forall q :: q in Filter(qs, g, s, p, o) <==> q in qs && Fits(q, g, s, p, o)
    ensures NoDup(qs) ==> NoDup(Filter(qs, g, s, p, o))
  {
    if qs != [] {
      FilterExact(qs[1..], g, s, p, o);
      assert qs == [qs[0]] + qs[1..];
      if NoDup(qs) {
        assert qs[0] !in qs[1..];
      }
    }
  }

  function Either(a: Option<GraphElementId>, b: Option<GraphElementId>): Option<GraphElementId> {
    if a.Some? then a else b
  }

  /** Narrow a listing by further components. */
  method FilterListing(r: seq<Quad>, ghost list: seq<Quad>, ghost g: Option<GraphElementId>, ghost s: Option<GraphElementId>,
                       ghost p: Option<GraphElementId>, ghost o: Option<GraphElementId>,
                       g': Option<GraphElementId>, o': Option<GraphElementId>)
    returns (narrowed: seq<Quad>)
    requires Listing(r, list, g, s, p, o)
    requires (g.Some? ==> g'.None?) && (o.Some? ==> o'.None?)
    ensures Listing(narrowed, list, Either(g, g'), s, p, Either(o, o'))
  {
    FilterExact(r, g', None, None, o');
    narrowed := Filter(r, g', None, None, o');
  }

  /** The quads at the positions of one bucket. */
  function At(list: seq<Quad>, bucket: seq<nat>): seq<Quad>
    requires InRange(bucket, |list|)
  {
    seq(|bucket|, j requires 0 <= j < |bucket| => assert bucket[j] in bucket; list[bucket[j]])
  }

  ghost predicate InRange(bucket: seq<nat>, n: nat) {
    forall i | i in bucket :: i < n
  }

  /** The bucket of `k`, empty if it is absent. */
  function Bucket(index: FlatIndex, k: GraphElementId): seq<nat> {
    if k in index then index[k] else []
  }

  function InnerIndex(index: NestedIndex, k: GraphElementId): FlatIndex {
    if k in index then index[k] else map[]
  }

  /** A bucket holds the positions with its key. */
  lemma BucketExact(index: FlatIndex, keys: map<nat, GraphElementId>, k: GraphElementId)
    requires FlatOk(index, keys)
    ensures NoDup(Bucket(index, k))
    ensures forall i :: i in Bucket(index, k) <==> i in keys && keys[i] == k
  {
    if k in index {
      assert BucketOk(index[k], keys, k);
    }
  }

  /** Distinct positions of a duplicate-free list hold distinct quads. */
  lemma AtExact(list: seq<Quad>, bucket: seq<nat>)
    requires NoDup(list) && NoDup(bucket)
    requires InRange(bucket, |list|)
    ensures NoDup(At(list, bucket))
    ensures forall q :: q in At(list, bucket) <==> exists i :: i in bucket && i < |list| && list[i] == q
  {
    var r := At(list, bucket);
    forall i, j | 0 <= i < j < |r| ensures r[i] != r[j] {
      assert bucket[i] in bucket && bucket[j] in bucket && bucket[i] != bucket[j];
      assert r[i] == list[bucket[i]] && r[j] == list[bucket[j]];
    }
    forall i | i in bucket ensures list[i] in r {
      var j :| 0 <= j < |bucket| && bucket[j] == i;
      assert r[j] == list[i];
    }
    forall q | q in r ensures exists i :: i in bucket && i < |list| && list[i] == q {
      var j :| 0 <= j < |r| && r[j] == q;
      assert bucket[j] in bucket;
    }
  }

  lemma PredListing(list: seq<Quad>, index: FlatIndex, p: GraphElementId)
    requires NoDup(list) && FlatOk(index, PredKeys(list))
    ensures InRange(Bucket(index, p), |list|)
    ensures Listing(At(list, Bucket(index, p)), list, None, None, Some(p), None)
  {
    BucketExact(index, PredKeys(list), p);
    AtExact(list, Bucket(index, p));
    forall q | q in list && q.pred == p ensures q in At(list, Bucket(index, p)) {
      var i :| 0 <= i < |list| && list[i] == q;
      assert i in PredKeys(list);
    }
  }

  lemma GraphListing(list: seq<Quad>, index: FlatIndex, g: GraphElementId)
    requires NoDup(list) && FlatOk(index, GraphKeys(list))
    ensures InRange(Bucket(index, g), |list|)
    ensures Listing(At(list, Bucket(index, g)), list, Some(g), None, None, None)
  {
    BucketExact(index, GraphKeys(list), g);
    AtExact(list, Bucket(index, g));
    forall q | q in list && q.graph == g ensures q in At(list, Bucket(index, g)) {
      var i :| 0 <= i < |list| && list[i] == q;
      assert i in GraphKeys(list);
    }
  }

  lemma InnerOk(index: NestedIndex, keys: Pairs, k: GraphElementId)
    requires NestedOk(index, keys)
    ensures FlatOk(InnerIndex(index, k), Inner(keys, k))
  {
    forall i | i in Inner(keys, k) ensures k in index {
      assert keys[i].0 == k;
    }
  }

  lemma SubjectPredListing(list: seq<Quad>, index: NestedIndex, s: GraphElementId, p: GraphElementId)
    requires NoDup(list) && NestedOk(index, SubjectKeys(list))
    ensures InRange(Bucket(InnerIndex(index, s), p), |list|)
    ensures Listing(At(list, Bucket(InnerIndex(index, s), p)), list, None, Some(s), Some(p), None)
  {
    var bucket := Bucket(InnerIndex(index, s), p);
    InnerOk(index, SubjectKeys(list), s);
    BucketExact(InnerIndex(index, s), Inner(SubjectKeys(list), s), p);
    AtExact(list, bucket);
    forall q | q in list && q.subject == s && q.pred == p ensures q in At(list, bucket) {
      var i :| 0 <= i < |list| && list[i] == q;
      assert i in SubjectKeys(list) && i in Inner(SubjectKeys(list), s);
    }
  }

  lemma ObjectPredListing(list: seq<Quad>, index: NestedIndex, o: GraphElementId, p: GraphElementId)
    requires NoDup(list) && NestedOk(index, ObjectKeys(list))
    ensures InRange(Bucket(InnerIndex(index, o), p), |list|)
    ensures Listing(At(list, Bucket(InnerIndex(index, o), p)), list, None, None, Some(p), Some(o))
  {
    var bucket := Bucket(InnerIndex(index, o), p);
    InnerOk(index, ObjectKeys(list), o);
    BucketExact(InnerIndex(index, o), Inner(ObjectKeys(list), o), p);
    AtExact(list, bucket);
    forall q | q in list && q.obj == o && q.pred == p ensures q in At(list, bucket) {
      var i :| 0 <= i < |list| && list[i] == q;
      assert i in ObjectKeys(list) && i in Inner(ObjectKeys(list), o);
    }
  }

  /** Every predicate of a quad with subject `s` is a key of the inner index. */
  lemma InnerKeys(list: seq<Quad>, index: NestedIndex, keys: Pairs, k: GraphElementId, i: nat)
    requires NestedOk(index, keys) && i in keys && keys[i].0 == k
    ensures keys[i].1 in InnerIndex(index, k)
  {
    InnerOk(index, keys, k);
    assert i in Inner(keys, k);
  }

  /** A listing of the quads whose predicate is in `ps`. */
  ghost predicate PartListing(r: seq<Quad>, list: seq<Quad>, g: Option<GraphElementId>, s: Option<GraphElementId>,
                              o: Option<GraphElementId>, ps: set<GraphElementId>) {
    NoDup(r) && forall q :: q in r <==> q in list && Fits(q, g, s, None, o) && q.pred in ps
  }

  lemma PartGrows(r: seq<Quad>, part: seq<Quad>, list: seq<Quad>, g: Option<GraphElementId>, s: Option<GraphElementId>,
                  o: Option<GraphElementId>, ps: set<GraphElementId>, p: GraphElementId)
    requires PartListing(r, list, g, s, o, ps) && p !in ps
    requires Listing(part, list, g, s, Some(p), o)
    ensures PartListing(r + part, list, g, s, o, ps + {p})
  {
    forall i, j | 0 <= i < |r| && 0 <= j < |part| ensures r[i] != part[j] {
      assert r[i] in r && part[j] in part;
    }
  }

  lemma SubjectPartsComplete(list: seq<Quad>, index: NestedIndex, s: GraphElementId, r: seq<Quad>, ps: set<GraphElementId>)
    requires NestedOk(index, SubjectKeys(list)) && ps == InnerIndex(index, s).Keys
    requires PartListing(r, list, None, Some(s), None, ps)
    ensures Listing(r, list, None, Some(s), None, None)
  {
    forall q | q in list && q.subject == s ensures q.pred in ps {
      var i :| 0 <= i < |list| && list[i] == q;
      InnerKeys(list, index, SubjectKeys(list), s, i);
    }
  }

  lemma ObjectPartsComplete(list: seq<Quad>, index: NestedIndex, o: GraphElementId, r: seq<Quad>, ps: set<GraphElementId>)
    requires NestedOk(index, ObjectKeys(list)) && ps == InnerIndex(index, o).Keys
    requires PartListing(r, list, None, None, Some(o), ps)
    ensures Listing(r, list, None, None, None, Some(o))
  {
    forall q | q in list && q.obj == o ensures q.pred in ps {
      var i :| 0 <= i < |list| && list[i] == q;
      InnerKeys(list, index, ObjectKeys(list), o, i);
    }
  }

  /** The quads of the other graphs, in order. */
  function WithoutGraph(qs: seq<Quad>, id: GraphElementId): seq<Quad> {
    if qs == [] then []
    else if qs[0].graph != id then [qs[0]] + WithoutGraph(qs[1..], id)
    else WithoutGraph(qs[1..], id)
  }

  lemma {:induction false} WithoutGraphExact(qs: seq<Quad>, id: GraphElementId)
    ensures forall q :: q in WithoutGraph(qs, id) <==> q in qs && q.graph != id
    ensures NoDup(qs) ==> NoDup(WithoutGraph(qs, id))
    ensures (forall q | q in qs :: q.graph != id) ==> WithoutGraph(qs, id) == qs
  {
    if qs != [] {
      WithoutGraphExact(qs[1..], id);
      assert qs == [qs[0]] + qs[1..];
      if NoDup(qs) {
        assert qs[0] !in qs[1..];
      }
    }
  }

  lemma AbsentGraph(list: seq<Quad>, graphId: GraphElementId, index: FlatIndex)
    requires FlatOk(index, GraphKeys(list)) && graphId !in index
    ensures WithoutGraph(list, graphId) == list
  {
    forall q | q in list ensures q.graph != graphId {
      var i :| 0 <= i < |list| && list[i] == q;
      assert i in GraphKeys(list);
    }
    WithoutGraphExact(list, graphId);
  }

  lemma WithoutGraphNoDup(list: seq<Quad>, graphId: GraphElementId)
    requires NoDup(list)
    ensures NoDup(WithoutGraph(list, graphId))
  {
    WithoutGraphExact(list, graphId);
  }

  // ---- The list under swap-removal ----

  lemma GraphKeysAfter(list: seq<Quad>, t: nat)
    requires t < |list|
    ensures t in GraphKeys(list) && (t != |list| - 1 ==> |list| - 1 in GraphKeys(list) - {t})
    ensures GraphKeys(list)[t] == list[t].graph && GraphKeys(list)[|list| - 1] == list[|list| - 1].graph
    ensures var last := |list| - 1;
            GraphKeys(SwapRemove(list, t)) ==
            if t == last then GraphKeys(list) - {t} else (GraphKeys(list) - {t} - {last})[t := list[last].graph]
  {
  }
  lemma PredKeysAfter(list: seq<Quad>, t: nat)
    requires t < |list|
    ensures t in PredKeys(list) && (t != |list| - 1 ==> |list| - 1 in PredKeys(list) - {t})
    ensures PredKeys(list)[t] == list[t].pred && PredKeys(list)[|list| - 1] == list[|list| - 1].pred
    ensures var last := |list| - 1;
            PredKeys(SwapRemove(list, t)) ==
            if t == last then PredKeys(list) - {t} else (PredKeys(list) - {t} - {last})[t := list[last].pred]
  {
  }
  lemma SubjectKeysAfter(list: seq<Quad>, t: nat)
    requires t < |list|
    ensures t in SubjectKeys(list) && (t != |list| - 1 ==> |list| - 1 in SubjectKeys(list) - {t})
    ensures SubjectKeys(list)[t] == (list[t].subject, list[t].pred) && SubjectKeys(list)[|list| - 1] == (list[|list| - 1].subject, list[|list| - 1].pred)
    ensures var last := |list| - 1;
            SubjectKeys(SwapRemove(list, t)) ==
            if t == last then SubjectKeys(list) - {t}
            else (SubjectKeys(list) - {t} - {last})[t := (list[last].subject, list[last].pred)]
  {
  }
  lemma ObjectKeysAfter(list: seq<Quad>, t: nat)
    requires t < |list|
    ensures t in ObjectKeys(list) && (t != |list| - 1 ==> |list| - 1 in ObjectKeys(list) - {t})
    ensures ObjectKeys(list)[t] == (list[t].obj, list[t].pred) && ObjectKeys(list)[|list| - 1] == (list[|list| - 1].obj, list[|list| - 1].pred)
    ensures var last := |list| - 1;
            ObjectKeys(SwapRemove(list, t)) ==
            if t == last then ObjectKeys(list) - {t}
            else (ObjectKeys(list) - {t} - {last})[t := (list[last].obj, list[last].pred)]
  {
  }

  lemma ReverseAfter(list: seq<Quad>, fourKeys: map<Quad, nat>, target: Quad)
    requires ReverseOk(list, fourKeys) && target in fourKeys
    ensures var t, last := fourKeys[target], |list| - 1;
            ReverseOk(SwapRemove(list, t),
                      if t == last then fourKeys - {target} else (fourKeys - {target})[list[last] := t])
  {
  }

  lemma ReversePushed(list: seq<Quad>, fourKeys: map<Quad, nat>, q: Quad)
    requires ReverseOk(list, fourKeys) && q !in fourKeys
    ensures ReverseOk(list + [q], fourKeys[q := |list|])
  {
  }

  lemma ReverseNoDup(list: seq<Quad>, fourKeys: map<Quad, nat>)
    requires ReverseOk(list, fourKeys)
    ensures NoDup(list)
    ensures forall q :: q in fourKeys <==> q in list
  {
  }

  lemma KeysPushed(list: seq<Quad>, q: Quad)
    ensures |list| !in GraphKeys(list) && |list| !in PredKeys(list)
    ensures |list| !in SubjectKeys(list) && |list| !in ObjectKeys(list)
    ensures GraphKeys(list + [q]) == GraphKeys(list)[|list| := q.graph]
    ensures PredKeys(list + [q]) == PredKeys(list)[|list| := q.pred]
    ensures SubjectKeys(list + [q]) == SubjectKeys(list)[|list| := (q.subject, q.pred)]
    ensures ObjectKeys(list + [q]) == ObjectKeys(list)[|list| := (q.obj, q.pred)]
  {
  }

  /** The list after swap-removing `target` from its recorded position, if it has one. */
  ghost function ListWithout(list: seq<Quad>, fourKeys: map<Quad, nat>, target: Quad): seq<Quad> {
    if target in fourKeys && fourKeys[target] < |list| then SwapRemove(list, fourKeys[target]) else list
  }

  lemma KeptFlags(kept: seq<Quad>, flags: set<Quad>, keptFlags: set<Quad>)
    requires keptFlags == set q | q in kept && q in flags
    ensures keptFlags == flags * Elements(kept) && keptFlags <= Elements(kept)
  {
  }

  lemma AllFlagged(flags: set<Quad>, stored: set<Quad>)
    requires flags <= stored
    ensures flags * stored == flags
  {
  }

  /** A copy of a table: the list, the indexes and the flags. */
  datatype SavedTable = SavedTable(
    list: seq<Quad>, fourKeys: map<Quad, nat>, graphs: FlatIndex, predicates: FlatIndex,
    subjects: NestedIndex, objects: NestedIndex, intensional: set<Quad>)

  /** The copy of a valid table. */
  ghost predicate TableSaved(saved: SavedTable) {
    && ReverseOk(saved.list, saved.fourKeys) && saved.intensional <= Elements(saved.list)
    && FlatOk(saved.graphs, GraphKeys(saved.list)) && FlatOk(saved.predicates, PredKeys(saved.list))
    && NestedOk(saved.subjects, SubjectKeys(saved.list)) && NestedOk(saved.objects, ObjectKeys(saved.list))
  }

  class QuadTable {
    var quadList: seq<Quad>
    var quadCount: nat
    /** Full-quad dedup index, and each quad's own position. */
    var fourKeysIndex: map<Quad, nat>
    var tripleIdIndex: FlatIndex
    var predicateIndex: FlatIndex
    var subjectPredicateIndex: NestedIndex
    var objectPredicateIndex: NestedIndex
    /** Derived quads; stored quads not in this set are extensional. */
    var intensionalQuads: set<Quad>

    ghost predicate Valid()
      reads this
    {
      && quadCount == |quadList|
      && ReverseOk(quadList, fourKeysIndex)
      && IndexesOk()
      && intensionalQuads <= Elements(quadList)
    }

    /** The four secondary indexes are those of `list`. */
    ghost predicate IndexesOf(list: seq<Quad>)
      reads `tripleIdIndex, `predicateIndex, `subjectPredicateIndex, `objectPredicateIndex
    {
      && FlatOk(tripleIdIndex, GraphKeys(list))
      && FlatOk(predicateIndex, PredKeys(list))
      && NestedOk(subjectPredicateIndex, SubjectKeys(list))
      && NestedOk(objectPredicateIndex, ObjectKeys(list))
    }

    ghost predicate IndexesOk()
      reads `quadList, `tripleIdIndex, `predicateIndex, `subjectPredicateIndex, `objectPredicateIndex
    {
      IndexesOf(quadList)
    }

    /** The stored quads, as a set. */
    ghost function Stored(): set<Quad>
      reads this
    {
      Elements(quadList)
    }

    /** The asserted facts. */
    ghost function Extensional(): set<Quad>
      reads this
    {
      Stored() - intensionalQuads
    }

    constructor ()
      ensures Valid() && quadList == [] && intensionalQuads == {}
    {
      quadList, quadCount := [], 0;
      fourKeysIndex, tripleIdIndex, predicateIndex := map[], map[], map[];
      subjectPredicateIndex, objectPredicateIndex := map[], map[];
      intensionalQuads := {};
    }

    /** Append `quad` unless it is present; its flag does not change either way. */
    method AddQuad(quad: Quad)
      requires Valid()
      modifies this
      ensures Valid() && intensionalQuads == old(intensionalQuads)
      ensures quadList == if quad in old(quadList) then old(quadList) else old(quadList) + [quad]
    {
      ReverseNoDup(quadList, fourKeysIndex);
      if quad !in fourKeysIndex {
        var currentIndex := quadCount;
        AddToIndexes(quad, currentIndex);
        ReversePushed(quadList, fourKeysIndex, quad);
        fourKeysIndex := fourKeysIndex[quad := currentIndex];
        quadList := quadList + [quad];
        quadCount := quadCount + 1;
      }
    }

    /** Enter position `i` under the keys of `quad` in the four secondary indexes. */
    method AddToIndexes(quad: Quad, i: nat)
      requires IndexesOk() && i == |quadList|
      modifies `tripleIdIndex, `predicateIndex, `subjectPredicateIndex, `objectPredicateIndex
      ensures IndexesOf(quadList + [quad])
    {
      hide FlatOk, NestedOk, GraphKeys, PredKeys, SubjectKeys, ObjectKeys, Pushed, PushedNested;
      KeysPushed(quadList, quad);
      PushedNestedOk(subjectPredicateIndex, SubjectKeys(quadList), quad.subject, quad.pred, i);
      PushedNestedOk(objectPredicateIndex, ObjectKeys(quadList), quad.obj, quad.pred, i);
      PushedOk(predicateIndex, PredKeys(quadList), quad.pred, i);
      PushedOk(tripleIdIndex, GraphKeys(quadList), quad.graph, i);
      subjectPredicateIndex := PushedNested(subjectPredicateIndex, quad.subject, quad.pred, i);
      objectPredicateIndex := PushedNested(objectPredicateIndex, quad.obj, quad.pred, i);
      predicateIndex := Pushed(predicateIndex, quad.pred, i);
      tripleIdIndex := Pushed(tripleIdIndex, quad.graph, i);
    }

    predicate Contains(q: Quad)
      requires Valid()
      reads this
      ensures Contains(q) <==> q in quadList
    {
      ReverseNoDup(quadList, fourKeysIndex);
      q in fourKeysIndex
    }

    predicate IsExtensional(q: Quad)
      requires Valid()
      reads this
      ensures IsExtensional(q) <==> q in Extensional()
    {
      Contains(q) && q !in intensionalQuads
    }

    /** Add a derived quad.  An asserted fact stays asserted. */
    method AddIntensionalQuad(quad: Quad)
      requires Valid()
      modifies this
      ensures Valid()
      ensures quadList == if quad in old(quadList) then old(quadList) else old(quadList) + [quad]
      ensures intensionalQuads == if quad in old(Extensional()) then old(intensionalQuads) else old(intensionalQuads) + {quad}
      ensures Extensional() == old(Extensional())
    {
      var alreadyExtensional := IsExtensional(quad);
      AddQuad(quad);
      if !alreadyExtensional {
        intensionalQuads := intensionalQuads + {quad};
      }
    }

    /** Remove one quad: the last quad of the list moves into its place. */
    method RemoveQuad(target: Quad)
      requires Valid()
      modifies this
      ensures Valid()
      ensures quadList == ListWithout(old(quadList), old(fourKeysIndex), target)
      ensures Stored() == old(Stored()) - {target}
      ensures intensionalQuads == old(intensionalQuads) - {target}
    {
      ReverseNoDup(quadList, fourKeysIndex);
      if target !in fourKeysIndex {
        return;
      }
      var t := fourKeysIndex[target];
      ReverseAfter(quadList, fourKeysIndex, target);
      SwapRemoveElements(quadList, t);
      hide ReverseOk, IndexesOf, Elements, NoDup, SwapRemove;
      RemoveFromIndexes(target, t);
      intensionalQuads := intensionalQuads - {target};
      SwapOut(target, t);
    }

    /** Move the last quad into position `t` and drop the last slot. */
    method SwapOut(target: Quad, t: nat)
      requires quadCount == |quadList| && t < quadCount
      modifies `quadList, `quadCount, `fourKeysIndex
      ensures quadList == SwapRemove(old(quadList), t) && quadCount == |quadList|
      ensures var last := old(quadCount) - 1;
              fourKeysIndex == if t == last then old(fourKeysIndex) - {target}
                               else (old(fourKeysIndex) - {target})[old(quadList)[last] := t]
    {
      var last := quadCount - 1;
      fourKeysIndex := fourKeysIndex - {target};
      if t != last {
        var moved := quadList[last];
        quadList := quadList[t := moved];
        fourKeysIndex := fourKeysIndex[moved := t];
      }
      quadList := quadList[..last];
      quadCount := last;
    }

    ghost predicate IndexesWith(gk: map<nat, GraphElementId>, pk: map<nat, GraphElementId>, sk: Pairs, ok: Pairs)
      reads `tripleIdIndex, `predicateIndex, `subjectPredicateIndex, `objectPredicateIndex
    {
      && FlatOk(tripleIdIndex, gk) && FlatOk(predicateIndex, pk)
      && NestedOk(subjectPredicateIndex, sk) && NestedOk(objectPredicateIndex, ok)
    }

    /** Delete the four secondary entries of position `t`, and point those of the last position at it. */
    method RemoveFromIndexes(target: Quad, t: nat)
      requires IndexesOk() && quadCount == |quadList| && t < |quadList| && quadList[t] == target
      modifies `tripleIdIndex, `predicateIndex, `subjectPredicateIndex, `objectPredicateIndex
      ensures IndexesOf(SwapRemove(quadList, t))
    {
      hide FlatOk, NestedOk, GraphKeys, PredKeys, SubjectKeys, ObjectKeys;
      ghost var gk, pk, sk, ok := GraphKeys(quadList), PredKeys(quadList), SubjectKeys(quadList), ObjectKeys(quadList);
      GraphKeysAfter(quadList, t);
      PredKeysAfter(quadList, t);
      SubjectKeysAfter(quadList, t);
      ObjectKeysAfter(quadList, t);
      DropEntries(target, t, gk, pk, sk, ok);
      var last := quadCount - 1;
      if t != last {
        RelocateEntries(quadList[last], last, t, gk - {t}, pk - {t}, sk - {t}, ok - {t});
      }
    }

    method DropEntries(target: Quad, t: nat, ghost gk: map<nat, GraphElementId>, ghost pk: map<nat, GraphElementId>, ghost sk: Pairs, ghost ok: Pairs)
      requires IndexesWith(gk, pk, sk, ok)
      requires t in gk && t in pk && t in sk && t in ok
      requires gk[t] == target.graph && pk[t] == target.pred
      requires sk[t] == (target.subject, target.pred) && ok[t] == (target.obj, target.pred)
      modifies `tripleIdIndex, `predicateIndex, `subjectPredicateIndex, `objectPredicateIndex
      ensures IndexesWith(gk - {t}, pk - {t}, sk - {t}, ok - {t})
    {
      hide FlatOk, NestedOk;
      subjectPredicateIndex := RemoveNestedIndexEntry(subjectPredicateIndex, target.subject, target.pred, t, sk);
      objectPredicateIndex := RemoveNestedIndexEntry(objectPredicateIndex, target.obj, target.pred, t, ok);
      predicateIndex := RemoveFlatIndexEntry(predicateIndex, target.pred, t, pk);
      tripleIdIndex := RemoveFlatIndexEntry(tripleIdIndex, target.graph, t, gk);
    }

    method RelocateEntries(moved: Quad, from: nat, to: nat, ghost gk: map<nat, GraphElementId>, ghost pk: map<nat, GraphElementId>, ghost sk: Pairs, ghost ok: Pairs)
      requires IndexesWith(gk, pk, sk, ok)
      requires from in gk && from in pk && from in sk && from in ok
      requires to !in gk && to !in pk && to !in sk && to !in ok
      requires gk[from] == moved.graph && pk[from] == moved.pred
      requires sk[from] == (moved.subject, moved.pred) && ok[from] == (moved.obj, moved.pred)
      modifies `tripleIdIndex, `predicateIndex, `subjectPredicateIndex, `objectPredicateIndex
      ensures IndexesWith((gk - {from})[to := moved.graph], (pk - {from})[to := moved.pred],
                          (sk - {from})[to := (moved.subject, moved.pred)], (ok - {from})[to := (moved.obj, moved.pred)])
    {
      hide FlatOk, NestedOk;
      subjectPredicateIndex := RelocateNestedIndexEntry(subjectPredicateIndex, moved.subject, moved.pred, from, to, sk);
      objectPredicateIndex := RelocateNestedIndexEntry(objectPredicateIndex, moved.obj, moved.pred, from, to, ok);
      predicateIndex := RelocateFlatIndexEntry(predicateIndex, moved.pred, from, to, pk);
      tripleIdIndex := RelocateFlatIndexEntry(tripleIdIndex, moved.graph, from, to, gk);
    }

    /** Flag a stored quad as derived; an asserted fact stays asserted, so this changes no flag. */
    method MarkIntensional(quad: Quad)
      requires Valid() && quad in quadList
      modifies this
      ensures Valid() && quadList == old(quadList) && intensionalQuads == old(intensionalQuads)
    {
      if !IsExtensional(quad) {
        intensionalQuads := intensionalQuads + {quad};
      }
    }

    /** Start over with the quads of `kept`, all asserted. */
    method Rebuild(kept: seq<Quad>)
      requires NoDup(kept)
      modifies this
      ensures Valid() && quadList == kept && intensionalQuads == {}
    {
      quadList, quadCount := [], 0;
      fourKeysIndex, tripleIdIndex, predicateIndex := map[], map[], map[];
      subjectPredicateIndex, objectPredicateIndex := map[], map[];
      intensionalQuads := {};
      hide FlatOk, NestedOk, ReverseOk, IndexesOf, Elements;
      for k := 0 to |kept|
        invariant Valid() && quadList == kept[..k] && intensionalQuads == {}
      {
        AddQuad(kept[k]);
        assert kept[..k + 1] == kept[..k] + [kept[k]];
      }
      assert kept[..|kept|] == kept;
    }

    function Copy(): (saved: SavedTable)
      requires Valid()
      reads this
      ensures TableSaved(saved)
    {
      SavedTable(quadList, fourKeysIndex, tripleIdIndex, predicateIndex, subjectPredicateIndex, objectPredicateIndex, intensionalQuads)
    }

    /** Put a copy of an earlier state of the table back. */
    method Restore(saved: SavedTable)
      requires TableSaved(saved)
      modifies this
      ensures Valid() && Copy() == saved
    {
      quadList, quadCount, fourKeysIndex := saved.list, |saved.list|, saved.fourKeys;
      tripleIdIndex, predicateIndex := saved.graphs, saved.predicates;
      subjectPredicateIndex, objectPredicateIndex := saved.subjects, saved.objects;
      intensionalQuads := saved.intensional;
    }

    /** Forget everything after the first `len` quads, keeping the flags of those that stay. */
    method TruncateTo(len: nat)
      requires Valid()
      modifies this
      ensures Valid()
      ensures quadList == if len < |old(quadList)| then old(quadList)[..len] else old(quadList)
      ensures intensionalQuads == old(intensionalQuads) * Stored()
    {
      if len >= |quadList| {
        return;
      }
      var kept := quadList[..len];
      ReverseNoDup(quadList, fourKeysIndex);
      var keptIntensional := set q | q in kept && q in intensionalQuads;
      KeptFlags(kept, intensionalQuads, keptIntensional);
      Rebuild(kept);
      intensionalQuads := keptIntensional;
    }

    /** Drop every quad of one graph, keeping the order and the flags of the others. */
    method RemoveGraph(graphId: GraphElementId)
      requires Valid()
      modifies this
      ensures Valid()
      ensures quadList == WithoutGraph(old(quadList), graphId)
      ensures intensionalQuads == old(intensionalQuads) * Stored()
    {
      hide FlatOk, NestedOk, ReverseOk, Elements, NoDup, WithoutGraph;
      if graphId !in tripleIdIndex {
        AbsentGraph(quadList, graphId, tripleIdIndex);
        AllFlagged(intensionalQuads, Stored());
        return;
      }
      ReverseNoDup(quadList, fourKeysIndex);
      WithoutGraphNoDup(quadList, graphId);
      var kept := WithoutGraph(quadList, graphId);
      var keptIntensional := set q | q in kept && q in intensionalQuads;
      KeptFlags(kept, intensionalQuads, keptIntensional);
      Rebuild(kept);
      intensionalQuads := keptIntensional;
    }

    /** The asserted facts, each once. */
    method ExtensionalQuads() returns (r: seq<Quad>)
      requires Valid()
      ensures NoDup(r) && Elements(r) == Extensional()
    {
      ReverseNoDup(quadList, fourKeysIndex);
      r := [];
      for k := 0 to |quadList|
        invariant NoDup(r) && forall q :: q in r <==> q in quadList[..k] && q !in intensionalQuads
      {
        if quadList[k] !in intensionalQuads {
          r := r + [quadList[k]];
        }
        assert quadList[..k + 1] == quadList[..k] + [quadList[k]];
      }
    }

    // ---- Lookups ----

    method GetQuadsWithPredicate(p: GraphElementId) returns (r: seq<Quad>)
      requires Valid()
      ensures Listing(r, quadList, None, None, Some(p), None)
    {
      ReverseNoDup(quadList, fourKeysIndex);
      PredListing(quadList, predicateIndex, p);
      hide FlatOk, NestedOk, Listing, InRange;
      r := At(quadList, Bucket(predicateIndex, p));
    }

    method GetGraph(id: GraphElementId) returns (r: seq<Quad>)
      requires Valid()
      ensures Listing(r, quadList, Some(id), None, None, None)
    {
      ReverseNoDup(quadList, fourKeysIndex);
      GraphListing(quadList, tripleIdIndex, id);
      hide FlatOk, NestedOk, Listing, InRange;
      r := At(quadList, Bucket(tripleIdIndex, id));
    }

    method GetQuadsWithSubjectPredicate(s: GraphElementId, p: GraphElementId) returns (r: seq<Quad>)
      requires Valid()
      ensures Listing(r, quadList, None, Some(s), Some(p), None)
    {
      ReverseNoDup(quadList, fourKeysIndex);
      SubjectPredListing(quadList, subjectPredicateIndex, s, p);
      hide FlatOk, NestedOk, Listing, InRange;
      r := At(quadList, Bucket(InnerIndex(subjectPredicateIndex, s), p));
    }

    method GetQuadsWithObjectPredicate(o: GraphElementId, p: GraphElementId) returns (r: seq<Quad>)
      requires Valid()
      ensures Listing(r, quadList, None, None, Some(p), Some(o))
    {
      ReverseNoDup(quadList, fourKeysIndex);
      ObjectPredListing(quadList, objectPredicateIndex, o, p);
      hide FlatOk, NestedOk, Listing, InRange;
      r := At(quadList, Bucket(InnerIndex(objectPredicateIndex, o), p));
    }

    /** One inner bucket after the other; the buckets of different predicates do not overlap. */
    method GetQuadsWithSubject(s: GraphElementId) returns (r: seq<Quad>)
      requires Valid()
      ensures Listing(r, quadList, None, Some(s), None, None)
    {
      hide FlatOk, NestedOk, ReverseOk, Listing;
      var preds := InnerIndex(subjectPredicateIndex, s).Keys;
      ghost var all := preds;
      r := [];
      while preds != {}
        invariant preds <= all
        invariant PartListing(r, quadList, None, Some(s), None, all - preds)
        decreases |preds|
      {
        var p :| p in preds;
        var part := GetQuadsWithSubjectPredicate(s, p);
        PartGrows(r, part, quadList, None, Some(s), None, all - preds, p);
        r := r + part;
        preds := preds - {p};
        assert all - preds == (all - (preds + {p})) + {p};
      }
      SubjectPartsComplete(quadList, subjectPredicateIndex, s, r, all);
    }

    method GetQuadsWithObject(o: GraphElementId) returns (r: seq<Quad>)
      requires Valid()
      ensures Listing(r, quadList, None, None, None, Some(o))
    {
      hide FlatOk, NestedOk, ReverseOk, Listing;
      var preds := InnerIndex(objectPredicateIndex, o).Keys;
      ghost var all := preds;
      r := [];
      while preds != {}
        invariant preds <= all
        invariant PartListing(r, quadList, None, None, Some(o), all - preds)
        decreases |preds|
      {
        var p :| p in preds;
        var part := GetQuadsWithObjectPredicate(o, p);
        PartGrows(r, part, quadList, None, None, Some(o), all - preds, p);
        r := r + part;
        preds := preds - {p};
        assert all - preds == (all - (preds + {p})) + {p};
      }
      ObjectPartsComplete(quadList, objectPredicateIndex, o, r, all);
    }

    method GetQuadsWithSubjectObject(s: GraphElementId, o: GraphElementId) returns (r: seq<Quad>)
      requires Valid()
      ensures Listing(r, quadList, None, Some(s), None, Some(o))
    {
      r := GetQuadsWithSubject(s);
      r := FilterListing(r, quadList, None, Some(s), None, None, None, Some(o));
    }

    method GetQuadsWithIdSubject(id: GraphElementId, s: GraphElementId) returns (r: seq<Quad>)
      requires Valid()
      ensures Listing(r, quadList, Some(id), Some(s), None, None)
    {
      r := GetQuadsWithSubject(s);
      r := FilterListing(r, quadList, None, Some(s), None, None, Some(id), None);
    }

    method GetQuadsWithIdPredicate(id: GraphElementId, p: GraphElementId) returns (r: seq<Quad>)
      requires Valid()
      ensures Listing(r, quadList, Some(id), None, Some(p), None)
    {
      r := GetQuadsWithPredicate(p);
      r := FilterListing(r, quadList, None, None, Some(p), None, Some(id), None);
    }

    method GetQuadsWithIdObject(id: GraphElementId, o: GraphElementId) returns (r: seq<Quad>)
      requires Valid()
      ensures Listing(r, quadList, Some(id), None, None, Some(o))
    {
      r := GetQuadsWithObject(o);
      r := FilterListing(r, quadList, None, None, None, Some(o), Some(id), None);
    }

    method GetQuadsWithIdSubjectPredicate(id: GraphElementId, s: GraphElementId, p: GraphElementId) returns (r: seq<Quad>)
      requires Valid()
      ensures Listing(r, quadList, Some(id), Some(s), Some(p), None)
    {
      r := GetQuadsWithSubjectPredicate(s, p);
      r := FilterListing(r, quadList, None, Some(s), Some(p), None, Some(id), None);
    }

    method GetQuadsWithIdSubjectObject(id: GraphElementId, s: GraphElementId, o: GraphElementId) returns (r: seq<Quad>)
      requires Valid()
      ensures Listing(r, quadList, Some(id), Some(s), None, Some(o))
    {
      r := GetQuadsWithSubjectObject(s, o);
      r := FilterListing(r, quadList, None, Some(s), None, Some(o), Some(id), None);
    }

    method GetQuadsWithIdObjectPredicate(id: GraphElementId, o: GraphElementId, p: GraphElementId) returns (r: seq<Quad>)
      requires Valid()
      ensures Listing(r, quadList, Some(id), None, Some(p), Some(o))
    {
      r := GetQuadsWithObjectPredicate(o, p);
      r := FilterListing(r, quadList, None, None, Some(p), Some(o), Some(id), None);
    }
  }
}
