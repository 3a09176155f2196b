/**
 * Ground rules and their models.
 *
 * A ground rule (`Clause`) is one instance of one rule: its head quad, the quads its positive atoms
 * became, and every quad that would match one of its NOT atoms.  The meaning of a set of ground
 * rules is given twice: as the stratum-by-stratum perfect model, which is what materialising the
 * strata in order should compute, and as a stable model, which mentions no strata.  The theorem
 * `PerfectIsStable` says the two agree on stratified programs, so the incremental algorithms can be
 * proved against the second and still mean the first.
 */
module Clauses {
  import opened Syntax

  /** `prog` is the stratum of the rule, `rid` its index there.  A contradiction rule has no head. */
  datatype Clause = Clause(prog: nat, rid: nat, head: Option<Quad>, pos: seq<Quad>, neg: set<Quad>)

  type Program = iset<Clause>

  ghost predicate Within(ws: seq<Quad>, s: set<Quad>) {
    forall w | w in ws :: w in s
  }

  /** The body of `c` is satisfied in `s`. */
  ghost predicate Sat(c: Clause, s: set<Quad>) {
    Within(c.pos, s) && c.neg !! s
  }

  /** Derivability by height, from `base`, with NOT atoms judged against the fixed set `ctx`. */
  ghost predicate ProvableIn(p: Program, base: set<Quad>, ctx: set<Quad>, q: Quad, height: nat)
    decreases height
  {
    q in base ||
    (height > 0 && exists c ::
       c in p && c.head == Some(q) && c.neg !! ctx &&
       forall w | w in c.pos :: ProvableIn(p, base, ctx, w, height - 1))
  }

  ghost predicate Provable(p: Program, base: set<Quad>, ctx: set<Quad>, q: Quad) {
    exists height: nat :: ProvableIn(p, base, ctx, q, height)
  }

  /** Everything derivable from `base` when NOT atoms are judged against `ctx`. */
  ghost function Least(p: Program, base: set<Quad>, ctx: set<Quad>): set<Quad> {
    set q | q in AllQuads() && Provable(p, base, ctx, q)
  }

  ghost predicate ClosedUnder(p: Program, ctx: set<Quad>, s: set<Quad>) {
    forall c | c in p && c.head.Some? && c.neg !! ctx && Within(c.pos, s) :: c.head.value in s
  }

  lemma LeastDef(p: Program, base: set<Quad>, ctx: set<Quad>, q: Quad)
    ensures q in Least(p, base, ctx) <==> Provable(p, base, ctx, q)
  {
    EveryQuad(q);
  }

  lemma {:induction false} HeightMonotone(p: Program, base: set<Quad>, ctx: set<Quad>, q: Quad, h: nat, h': nat)
    requires h <= h' && ProvableIn(p, base, ctx, q, h)
    ensures ProvableIn(p, base, ctx, q, h')
    decreases h
  {
    if q !in base {
      var c :| c in p && c.head == Some(q) && c.neg !! ctx &&
               forall w | w in c.pos :: ProvableIn(p, base, ctx, w, h - 1);
      forall w | w in c.pos ensures ProvableIn(p, base, ctx, w, h' - 1) {
        HeightMonotone(p, base, ctx, w, h - 1, h' - 1);
      }
    }
  }

  /** One height serves all of a body. */
  lemma {:induction false} CommonHeight(p: Program, base: set<Quad>, ctx: set<Quad>, ws: seq<Quad>) returns (h: nat)
    requires Within(ws, Least(p, base, ctx))
    ensures forall w | w in ws :: ProvableIn(p, base, ctx, w, h)
  {
    if ws == [] {
      h := 0;
    } else {
      var last := ws[|ws| - 1];
      var rest := ws[..|ws| - 1];
      assert ws == rest + [last];
      var h0 := CommonHeight(p, base, ctx, rest);
      assert last in Least(p, base, ctx);
      var h1: nat :| ProvableIn(p, base, ctx, last, h1);
      h := if h0 < h1 then h1 else h0;
      HeightMonotone(p, base, ctx, last, h1, h);
      forall w | w in rest ensures ProvableIn(p, base, ctx, w, h) {
        HeightMonotone(p, base, ctx, w, h0, h);
      }
    }
  }

  /** `Least` contains its base and is closed. */
  lemma LeastIsModel(p: Program, base: set<Quad>, ctx: set<Quad>)
    ensures base <= Least(p, base, ctx)
    ensures ClosedUnder(p, ctx, Least(p, base, ctx))
  {
    forall q | q in base ensures q in Least(p, base, ctx) {
      assert ProvableIn(p, base, ctx, q, 0);
      LeastDef(p, base, ctx, q);
    }
    forall c | c in p && c.head.Some? && c.neg !! ctx && Within(c.pos, Least(p, base, ctx))
      ensures c.head.value in Least(p, base, ctx)
    {
      var h := CommonHeight(p, base, ctx, c.pos);
      assert ProvableIn(p, base, ctx, c.head.value, h + 1);
      LeastDef(p, base, ctx, c.head.value);
    }
  }

  lemma {:induction false} ProvableInModel(p: Program, base: set<Quad>, ctx: set<Quad>, m: set<Quad>, q: Quad, h: nat)
    requires base <= m && ClosedUnder(p, ctx, m)
    requires ProvableIn(p, base, ctx, q, h)
    ensures q in m
    decreases h
  {
    if q !in base {
      var c :| c in p && c.head == Some(q) && c.neg !! ctx &&
               forall w | w in c.pos :: ProvableIn(p, base, ctx, w, h - 1);
      forall w | w in c.pos ensures w in m {
        ProvableInModel(p, base, ctx, m, w, h - 1);
      }
      assert Within(c.pos, m);
    }
  }

  /** `Least` is the least closed set: the induction principle every later proof uses. */
  lemma LeastIsLeast(p: Program, base: set<Quad>, ctx: set<Quad>, m: set<Quad>)
    requires base <= m && ClosedUnder(p, ctx, m)
    ensures Least(p, base, ctx) <= m
  {
    forall q | q in Least(p, base, ctx) ensures q in m {
      var h: nat :| ProvableIn(p, base, ctx, q, h);
      ProvableInModel(p, base, ctx, m, q, h);
    }
  }

  /** A derived quad is the head of a rule whose body is itself derived. */
  lemma LeastOrigin(p: Program, base: set<Quad>, ctx: set<Quad>, q: Quad)
    requires q in Least(p, base, ctx) && q !in base
    ensures exists c :: c in p && c.head == Some(q) && c.neg !! ctx && Within(c.pos, Least(p, base, ctx))
  {
    var h: nat :| ProvableIn(p, base, ctx, q, h);
    var c :| c in p && c.head == Some(q) && c.neg !! ctx &&
             forall w | w in c.pos :: ProvableIn(p, base, ctx, w, h - 1);
    forall w | w in c.pos ensures w in Least(p, base, ctx) {
      LeastDef(p, base, ctx, w);
    }
    assert Within(c.pos, Least(p, base, ctx));
  }

  /** More rules, a larger base and fewer blockers prove more. */
  lemma LeastMonotone(p: Program, p': Program, base: set<Quad>, base': set<Quad>, ctx: set<Quad>, ctx': set<Quad>)
    requires p <= p' && base <= base' && ctx' <= ctx
    ensures Least(p, base, ctx) <= Least(p', base', ctx')
  {
    LeastIsModel(p', base', ctx');
    LeastIsLeast(p, base, ctx, Least(p', base', ctx'));
  }

  /** No contradiction rule has its whole body satisfied. */
  ghost predicate NoContradiction(p: Program, s: set<Quad>) {
    forall c | c in p && c.head.None? :: !Sat(c, s)
  }

  /** `s` is a stable model of `p` over `base`: what can be proved with NOT judged against `s` is `s`. */
  ghost predicate Stable(p: Program, base: set<Quad>, s: set<Quad>) {
    s == Least(p, base, s)
  }

  // ---- Strata ----

  ghost function StratumOf(p: Program, i: nat): Program {
    iset c | c in p && c.prog == i
  }

  ghost function Below(p: Program, i: nat): Program {
    iset c | c in p && c.prog < i
  }

  /** A producer is never in a later stratum than its consumer, and strictly earlier across a NOT. */
  ghost predicate Stratified(p: Program) {
    forall c, d | c in p && d in p && c.head.Some? ::
      (c.head.value in d.pos ==> c.prog <= d.prog) &&
      (c.head.value in d.neg ==> c.prog < d.prog)
  }

  /** The perfect model of the first `i` strata: each stratum is completed over the one before. */
  ghost function Perfect(p: Program, base: set<Quad>, i: nat): set<Quad> {
    if i == 0 then base
    else
      var m := Perfect(p, base, i - 1);
      Least(StratumOf(p, i - 1), m, m)
  }

  lemma {:induction false} PerfectGrows(p: Program, base: set<Quad>, i: nat, j: nat)
    requires i <= j
    ensures Perfect(p, base, i) <= Perfect(p, base, j)
    decreases j - i
  {
    if i < j {
      PerfectGrows(p, base, i, j - 1);
      LeastIsModel(StratumOf(p, j - 1), Perfect(p, base, j - 1), Perfect(p, base, j - 1));
    }
  }

  /** What a later partial model adds is the head of a rule of one of the strata in between. */
  lemma {:induction false} PerfectAdds(p: Program, base: set<Quad>, i: nat, j: nat, q: Quad)
    requires i <= j && q in Perfect(p, base, j) && q !in Perfect(p, base, i)
    ensures exists c :: c in p && c.head == Some(q) && i <= c.prog < j
    decreases j - i
  {
    var m := Perfect(p, base, j - 1);
    if q in m {
      PerfectAdds(p, base, i, j - 1, q);
    } else {
      LeastOrigin(StratumOf(p, j - 1), m, m, q);
      var c :| c in StratumOf(p, j - 1) && c.head == Some(q);
      assert c in p && i <= c.prog < j;
    }
  }

  /** A quad whose rules all lie below stratum `i` needs only those strata. */
  lemma BelowSuffices(p: Program, base: set<Quad>, ctx: set<Quad>, i: nat, q: Quad)
    requires Stratified(p)
    requires q in Least(p, base, ctx)
    requires forall c | c in p && c.head == Some(q) :: c.prog < i
    ensures q in Least(Below(p, i), base, ctx)
  {
    var all, lower := Least(p, base, ctx), Least(Below(p, i), base, ctx);
    LeastIsModel(Below(p, i), base, ctx);
    LeastIsModel(p, base, ctx);
    var m := set x | x in all && (x in lower || exists c :: c in p && c.head == Some(x) && c.prog >= i);
    forall c | c in p && c.head.Some? && c.neg !! ctx && Within(c.pos, m)
      ensures c.head.value in m
    {
      assert Within(c.pos, all);
      if c.prog < i {
        forall w | w in c.pos ensures w in lower {
          assert w in m;
        }
        assert c in Below(p, i);
      }
    }
    LeastIsLeast(p, base, ctx, m);
  }

  /**
   * One stratum: if the strata below `i` are settled (`m`), and judging their NOT atoms against `m`
   * or against `s` is the same for stratum `i`, then completing stratum `i` over `m` is the same as
   * proving with all strata up to `i`.
   */
  lemma StratumExtends(p: Program, base: set<Quad>, s: set<Quad>, i: nat, m: set<Quad>)
    requires Stratified(p)
    requires m == Least(Below(p, i), base, s)
    requires forall c | c in StratumOf(p, i) :: c.neg !! m <==> c.neg !! s
    ensures Least(StratumOf(p, i), m, m) == Least(Below(p, i + 1), base, s)
  {
    var up, prefix := Least(StratumOf(p, i), m, m), Least(Below(p, i + 1), base, s);
    LeastIsModel(Below(p, i + 1), base, s);
    LeastIsModel(StratumOf(p, i), m, m);
    LeastMonotone(Below(p, i), Below(p, i + 1), base, base, s, s);
    LeastIsLeast(StratumOf(p, i), m, m, prefix);
    LeastIsModel(Below(p, i), base, s);
    // `up` is closed under the lower strata too: their premises are never heads of stratum `i` only
    forall c | c in Below(p, i + 1) && c.head.Some? && c.neg !! s && Within(c.pos, up)
      ensures c.head.value in up
    {
      if c.prog < i {
        forall w | w in c.pos ensures w in m {
          if w !in m {
            LeastOrigin(StratumOf(p, i), m, m, w);
          }
        }
        assert c in Below(p, i) && Within(c.pos, m);
      } else {
        assert c in StratumOf(p, i);
      }
    }
    LeastIsLeast(Below(p, i + 1), base, s, up);
  }

  lemma BelowZero(p: Program, base: set<Quad>, s: set<Quad>)
    ensures Least(Below(p, 0), base, s) == base
  {
    LeastIsModel(Below(p, 0), base, s);
    LeastIsLeast(Below(p, 0), base, s, base);
  }

  /** A stable model is built stratum by stratum. */
  lemma {:induction false} StableToPerfect(p: Program, base: set<Quad>, s: set<Quad>, i: nat)
    requires Stratified(p) && Stable(p, base, s)
    ensures Perfect(p, base, i) == Least(Below(p, i), base, s)
  {
    if i == 0 {
      BelowZero(p, base, s);
    } else {
      StableToPerfect(p, base, s, i - 1);
      var m := Perfect(p, base, i - 1);
      LeastMonotone(Below(p, i - 1), p, base, base, s, s);
      forall c | c in StratumOf(p, i - 1) && c.neg !! m
        ensures c.neg !! s
      {
        forall x | x in c.neg && x in s ensures false {
          assert forall d | d in p && d.head == Some(x) :: d.prog < i - 1;
          BelowSuffices(p, base, s, i - 1, x);
        }
      }
      StratumExtends(p, base, s, i - 1, m);
    }
  }

  /** The perfect model proves itself, one stratum at a time. */
  lemma {:induction false} PerfectToStable(p: Program, base: set<Quad>, n: nat, i: nat)
    requires Stratified(p) && i <= n
    ensures Perfect(p, base, i) == Least(Below(p, i), base, Perfect(p, base, n))
  {
    var s := Perfect(p, base, n);
    if i == 0 {
      BelowZero(p, base, s);
    } else {
      PerfectToStable(p, base, n, i - 1);
      var m := Perfect(p, base, i - 1);
      PerfectGrows(p, base, i - 1, n);
      forall c | c in StratumOf(p, i - 1) && c.neg !! m
        ensures c.neg !! s
      {
        forall x | x in c.neg && x in s ensures false {
          PerfectAdds(p, base, i - 1, n, x);
        }
      }
      StratumExtends(p, base, s, i - 1, m);
    }
  }

  /** On a stratified program the perfect model is the one stable model. */
  lemma PerfectIsStable(p: Program, base: set<Quad>, s: set<Quad>, n: nat)
    requires Stratified(p)
    requires forall c | c in p :: c.prog < n
    ensures Stable(p, base, s) <==> s == Perfect(p, base, n)
  {
    assert Below(p, n) == p;
    if Stable(p, base, s) {
      StableToPerfect(p, base, s, n);
    }
    if s == Perfect(p, base, n) {
      PerfectToStable(p, base, n, n);
    }
  }

  /** So a stratified program has one stable model per base. */
  lemma StableUnique(p: Program, base: set<Quad>, s: set<Quad>, s': set<Quad>, n: nat)
    requires Stratified(p)
    requires forall c | c in p :: c.prog < n
    requires Stable(p, base, s) && Stable(p, base, s')
    ensures s == s'
  {
    PerfectIsStable(p, base, s, n);
    PerfectIsStable(p, base, s', n);
  }

  /** A stable model keeps being one over a smaller base that still proves all of the larger one. */
  lemma Rebase(p: Program, base: set<Quad>, base': set<Quad>, s: set<Quad>)
    requires Stable(p, base, s)
    requires base' <= base <= Least(p, base', s)
    ensures Stable(p, base', s)
  {
    LeastMonotone(p, p, base', base, s, s);
    LeastIsModel(p, base', s);
    LeastIsLeast(p, base, s, Least(p, base', s));
  }
}
