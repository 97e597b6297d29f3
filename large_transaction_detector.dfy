/** `LargeTransactionDetector`: one ring per edge of at least 3000, numbered by
    a counter that is a static field of the class and so keeps counting across
    calls for the lifetime of the process. */
module LargeTransactionDetector {
  import opened Seqs
  import opened Types

  /** `THRESHOLD`. */
  const THRESHOLD: real := 3000.0
  /** The initial value of the static `ringCounter`. */
  const INITIAL_COUNTER: nat := 3000

  /** `edge.amount >= this.THRESHOLD`. */
  predicate IsLarge(e: Edge) {
    e.amount >= THRESHOLD
  }

  /** The edges that yield a ring, in edge order. */
  function LargeEdges(edges: seq<Edge>): seq<Edge> {
    Filter(edges, IsLarge)
  }

  /** The ring for edge `e` numbered `counter`. Graph edges carry no
      transaction id, so `edge.transaction_id || undefined` is always undefined. */
  function RingOf(e: Edge, counter: nat): Ring {
    LargeRing(RingId(LargePrefix, counter), [e.source, e.target], e.amount, e.timestamp, None)
  }

  /** The rings `detect(edges)` returns when the counter stands at `base`. */
  function LargeRings(edges: seq<Edge>, base: nat): seq<Ring> {
    if edges == [] then []
    else
      var prior := LargeRings(edges[..|edges| - 1], base);
      var e := edges[|edges| - 1];
      prior + if IsLarge(e) then [RingOf(e, base + |prior|)] else []
  }

  /** The rings correspond one to one, in order, to the edges of at least 3000:
      ring `i` joins the sender and receiver of the `i`-th such edge, copies its
      amount and timestamp and carries id `base + i`. */
  lemma {:induction false} LargeRingsOk(edges: seq<Edge>, base: nat)
    ensures |LargeRings(edges, base)| == |LargeEdges(edges)|
    ensures forall i | 0 <= i < |LargeEdges(edges)| :: LargeRings(edges, base)[i] == RingOf(LargeEdges(edges)[i], base + i)
  {
    if edges != [] {
      var front := edges[..|edges| - 1];
      var e := edges[|edges| - 1];
      LargeRingsOk(front, base);
      assert edges == front + [e];
      FilterAppend(front, [e], IsLarge);
      assert Filter([e], IsLarge) == Filter([], IsLarge) + if IsLarge(e) then [e] else [];
    }
  }

  /** Every ring is the ring of an edge of at least 3000: edges below the
      threshold yield nothing. */
  lemma {:induction false} OnlyLargeEdges(edges: seq<Edge>, base: nat, r: Ring)
    requires r in LargeRings(edges, base)
    ensures exists e | e in edges :: IsLarge(e) && r == RingOf(e, r.id.counter)
  {
    LargeRingsOk(edges, base);
    var rings := LargeRings(edges, base);
    var i :| 0 <= i < |rings| && rings[i] == r;
    var e := LargeEdges(edges)[i];
    assert e in LargeEdges(edges);
  }

  /** Every member of a large-transaction ring is a node of a valid graph. */
  lemma {:induction false} LargeMembersAreNodes(g: Graph, base: nat)
    requires GraphValid(g)
    ensures MembersAreNodes(g.nodes, LargeRings(g.edges, base))
  {
    var rings := LargeRings(g.edges, base);
    forall i, a | 0 <= i < |rings| && a in rings[i].members
      ensures a in g.nodes
    {
      OnlyLargeEdges(g.edges, base, rings[i]);
    }
  }

  /** The state of the class: the static `ringCounter`. */
  class Detector {
    var ringCounter: nat

    /** Module load: `static ringCounter = 3000`. */
    constructor ()
      ensures ringCounter == INITIAL_COUNTER
    {
      ringCounter := INITIAL_COUNTER;
    }

    /** `LargeTransactionDetector.detect(edges)`: numbers the rings on from the
        counter's value at entry and leaves the counter past the last of them. */
    method Detect(edges: seq<Edge>) returns (rings: seq<Ring>)
      modifies this
      ensures rings == LargeRings(edges, old(ringCounter))
      ensures ringCounter == old(ringCounter) + |rings|
      ensures Numbered(rings, LargePrefix, old(ringCounter))
    {
      rings := [];
      for i := 0 to |edges|
        invariant rings == LargeRings(edges[..i], old(ringCounter))
        invariant ringCounter == old(ringCounter) + |rings|
      {
        var edge := edges[i];
        assert edges[..i + 1][..i] == edges[..i];
        if edge.amount >= THRESHOLD {
          rings := rings + [LargeRing(RingId(LargePrefix, ringCounter), [edge.source, edge.target],
                                      edge.amount, edge.timestamp, None)];
          ringCounter := ringCounter + 1;
        }
      }
      assert edges[..|edges|] == edges;
      LargeRingsOk(edges, old(ringCounter));
    }
  }

  /** Two calls on the same edges: the second call yields as many rings as
      the first, each numbered that many places further on, so with any large
      edge the numbering does not restart at the first call's ids. */
  lemma {:induction false} NumberingCarriesOver(edges: seq<Edge>, base: nat)
    ensures var first := LargeRings(edges, base);
            var second := LargeRings(edges, base + |first|);
            && |second| == |first|
            && forall i | 0 <= i < |first| :: second[i].id == RingId(LargePrefix, first[i].id.counter + |first|)
  {
    LargeRingsOk(edges, base);
    LargeRingsOk(edges, base + |LargeRings(edges, base)|);
  }
}
