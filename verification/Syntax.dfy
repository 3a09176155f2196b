/** The quads, patterns and rules of the Datalog engine. */
module Syntax {

  datatype Option<+T> = None | Some(value: T)

  /** Interned resource identifiers: unsigned 32-bit numbers. */
  type GraphElementId = x: int | IsId(x)

  predicate IsId(x: int) {
    0 <= x < 0x1_0000_0000
  }

  /** The graph component is the source's `triple_id`. */
  datatype Quad = Quad(graph: GraphElementId, subject: GraphElementId,
                       pred: GraphElementId, obj: GraphElementId)

  datatype Term =
    | Resource(id: GraphElementId)
    | Variable(name: string)

  datatype QuadPattern = QuadPattern(graph: Term, subject: Term, pred: Term, obj: Term)

  datatype RuleHead =
    | NormalHead(pattern: QuadPattern)
    | Contradiction

  datatype RuleAtom =
    | PositivePattern(pattern: QuadPattern)
    | NotPattern(pattern: QuadPattern)
    | NotEqualsAtom(left: Term, right: Term)

  datatype Rule = Rule(head: RuleHead, body: seq<RuleAtom>)

  /** One way a quad was produced: the rule's index in its program, and the quads that
      matched the rule's positive atoms, in body order. */
  datatype Derivation = Derivation(ruleId: nat, bodyWitnesses: seq<Quad>)

  datatype ReasoningError =
    | ContradictionFound(rule: Rule)
    | NotStratifiable(rule: Rule)
    | UnsafeRule(rule: Rule)

  datatype Outcome = Ok | Err(error: ReasoningError)

  ghost function AllIds(): set<GraphElementId> {
    set x: int | 0 <= x < 0x1_0000_0000 && IsId(x) :: x
  }

  /** Identifiers are bounded, so there are finitely many quads: every fixpoint is a finite set. */
  ghost function AllQuads(): set<Quad> {
    set g, s, p, o | g in AllIds() && s in AllIds() && p in AllIds() && o in AllIds() :: Quad(g, s, p, o)
  }

  lemma EveryQuad(q: Quad)
    ensures q in AllQuads()
  {
    assert q.graph in AllIds() && q.subject in AllIds() && q.pred in AllIds() && q.obj in AllIds();
    assert q == Quad(q.graph, q.subject, q.pred, q.obj);
  }

  ghost function Elements<T>(s: seq<T>): set<T> {
    set x | x in s
  }

  ghost predicate NoDup<T>(s: seq<T>) {
    forall i, j :: 0 <= i < j < |s| ==> s[i] != s[j]
  }

  /** A duplicate-free list of quads is no longer than the universe. */
  lemma ListBounded(s: seq<Quad>)
    requires NoDup(s)
    ensures |s| <= |AllQuads()|
  {
    NoDupCardinality(s);
    forall q | q in Elements(s) ensures q in AllQuads() { EveryQuad(q); }
    SubsetCardinality(Elements(s), AllQuads());
  }

  lemma {:induction false} NoDupCardinality<T>(s: seq<T>)
    requires NoDup(s)
    ensures |Elements(s)| == |s|
  {
    if s == [] {
      assert Elements(s) == {};
    } else {
      var rest, last := s[..|s| - 1], s[|s| - 1];
      NoDupCardinality(rest);
      assert s == rest + [last];
      assert last !in rest;
      assert Elements(s) == Elements(rest) + {last};
    }
  }

  lemma {:induction false} SubsetCardinality<T>(a: set<T>, b: set<T>)
    requires a <= b
    ensures |a| <= |b|
  {
    if a != {} {
      var x :| x in a;
      SubsetCardinality(a - {x}, b - {x});
    }
  }
}
