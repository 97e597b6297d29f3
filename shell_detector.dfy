/** `ShellDetector.detect`: from every low-activity account, a depth-first
    search along a shared chain through low-activity neighbours; every chain
    of three accounts is a layered-shell ring, reported once per member set. */
module ShellDetector {
  import opened Seqs
  import opened Types

  /** The first shell ring is `RING_L2000`. */
  const RING_BASE: nat := 2000
  /** `findChain` reports a chain once it reaches this depth. */
  const CHAIN_DEPTH: nat := 3
  /** A neighbour may join a chain only with at most this many transactions. */
  const MAX_INTERMEDIATE_ACTIVITY: nat := 3

  /** `totalTx >= 2 && totalTx <= 3`: the accounts a chain may start from. */
  predicate IsSeed(n: AccountNode) {
    2 <= Activity(n) <= 3
  }

  /** `nextNode && nextNode.sentCount + nextNode.receivedCount <= 3`. */
  predicate MayJoin(nodes: map<AccountId, AccountNode>, a: AccountId) {
    a in nodes && Activity(nodes[a]) <= MAX_INTERMEDIATE_ACTIVITY
  }

  // ---------------------------------------------------------------------------
  // Reference definition: the search as a fold over the rings found so far
  // ---------------------------------------------------------------------------

  /** Reaching depth three: the chain is reported unless its member set was. */
  function Report(chain: seq<AccountId>, rings: seq<Ring>): seq<Ring> {
    if Key(chain) in Keys(rings) then rings
    else rings + [ShellRing(RingId(ShellPrefix, RING_BASE + |rings|), chain, |chain|)]
  }

  /** `findChain(chain[|chain| - 1], |chain|)`. */
  function Chain(adj: map<AccountId, seq<AccountId>>, nodes: map<AccountId, AccountNode>,
                 chain: seq<AccountId>, rings: seq<Ring>): seq<Ring>
    requires 1 <= |chain| <= CHAIN_DEPTH
    decreases CHAIN_DEPTH - |chain|, 1
  {
    if |chain| >= CHAIN_DEPTH then Report(chain, rings)
    else Extend(adj, nodes, chain, Neighbors(adj, chain[|chain| - 1]), rings)
  }

  /** The `for (const next of ...)` loop of `findChain`, over the neighbours
      still to visit. */
  function Extend(adj: map<AccountId, seq<AccountId>>, nodes: map<AccountId, AccountNode>,
                  chain: seq<AccountId>, nbrs: seq<AccountId>, rings: seq<Ring>): seq<Ring>
    requires 1 <= |chain| < CHAIN_DEPTH
    decreases CHAIN_DEPTH - |chain|, 0, |nbrs|
  {
    if nbrs == [] then rings
    else
      var next := nbrs[0];
      var after :=
        if next !in chain && MayJoin(nodes, next) then Chain(adj, nodes, chain + [next], rings)
        else rings;
      Extend(adj, nodes, chain, nbrs[1..], after)
  }

  /** The rings after the first `n` accounts of `order`. */
  function Detected(adj: map<AccountId, seq<AccountId>>, nodes: map<AccountId, AccountNode>,
                    order: seq<AccountId>, n: nat): seq<Ring>
    requires n <= |order| && forall a | a in order :: a in nodes
  {
    if n == 0 then []
    else
      var prior := Detected(adj, nodes, order, n - 1);
      if IsSeed(nodes[order[n - 1]]) then Chain(adj, nodes, [order[n - 1]], prior) else prior
  }

  // ---------------------------------------------------------------------------
  // What every reported ring satisfies
  // ---------------------------------------------------------------------------

  /** Distinct accounts, each an adjacency successor of the one before, starting
      at a seed and continuing through accounts that may join. */
  ghost predicate IsChain(adj: map<AccountId, seq<AccountId>>, nodes: map<AccountId, AccountNode>,
                          c: seq<AccountId>) {
    && 1 <= |c|
    && Distinct(c)
    && c[0] in nodes && IsSeed(nodes[c[0]])
    && (forall k | 1 <= k < |c| :: MayJoin(nodes, c[k]))
    && forall k | 0 <= k < |c| - 1 :: c[k + 1] in Neighbors(adj, c[k])
  }

  /** A chain of exactly three accounts whose depth field is three. */
  ghost predicate IsShellRing(adj: map<AccountId, seq<AccountId>>, nodes: map<AccountId, AccountNode>, r: Ring) {
    && r.ShellRing?
    && |r.members| == CHAIN_DEPTH
    && r.depth == CHAIN_DEPTH
    && IsChain(adj, nodes, r.members)
  }

  /** Every ring is a shell chain, ids run `RING_L2000`, `RING_L2001`, ... and
      no two rings have the same member set. */
  ghost predicate RingsOk(adj: map<AccountId, seq<AccountId>>, nodes: map<AccountId, AccountNode>, rings: seq<Ring>) {
    && (forall i | 0 <= i < |rings| :: IsShellRing(adj, nodes, rings[i]))
    && Numbered(rings, ShellPrefix, RING_BASE)
    && DistinctKeys(rings)
  }

  /** Reporting a chain of three keeps the rings well-formed, and at most appends. */
  lemma {:induction false} ReportOk(adj: map<AccountId, seq<AccountId>>, nodes: map<AccountId, AccountNode>,
                                    chain: seq<AccountId>, rings: seq<Ring>)
    requires IsChain(adj, nodes, chain) && |chain| == CHAIN_DEPTH
    requires RingsOk(adj, nodes, rings)
    ensures RingsOk(adj, nodes, Report(chain, rings)) && rings <= Report(chain, rings)
  {
    if Key(chain) !in Keys(rings) {
      var ring := ShellRing(RingId(ShellPrefix, RING_BASE + |rings|), chain, |chain|);
      var r := rings + [ring];
      assert r == Report(chain, rings);
      forall i | 0 <= i < |r|
        ensures IsShellRing(adj, nodes, r[i]) && r[i].id == RingId(ShellPrefix, RING_BASE + i)
      {
        if i < |rings| {
          assert r[i] == rings[i];
        }
      }
      forall i, j | 0 <= i < j < |r|
        ensures Key(r[i].members) != Key(r[j].members)
      {
        assert r[i] == rings[i];
        if j == |rings| {
          assert Key(rings[i].members) in Keys(rings);
        } else {
          assert r[j] == rings[j];
        }
      }
    }
  }

  /** A chain extended by a fresh successor of its last account that may join
      is a chain. */
  lemma {:induction false} ExtendChain(adj: map<AccountId, seq<AccountId>>, nodes: map<AccountId, AccountNode>,
                                       chain: seq<AccountId>, next: AccountId)
    requires IsChain(adj, nodes, chain) && next !in chain && MayJoin(nodes, next)
    requires next in Neighbors(adj, chain[|chain| - 1])
    ensures IsChain(adj, nodes, chain + [next])
  {
    var c := chain + [next];
    forall i, j | 0 <= i < j < |c|
      ensures c[i] != c[j]
    {
      if j == |chain| {
        assert c[i] == chain[i];
      }
    }
    forall k | 1 <= k < |c|
      ensures MayJoin(nodes, c[k])
    {
      if k < |chain| {
        assert c[k] == chain[k];
      }
    }
    forall k | 0 <= k < |c| - 1
      ensures c[k + 1] in Neighbors(adj, c[k])
    {
      if k < |chain| - 1 {
        assert c[k + 1] == chain[k + 1] && c[k] == chain[k];
      }
    }
  }

  /** The search below a chain keeps the rings well-formed and only appends. */
  lemma {:induction false} ChainOk(adj: map<AccountId, seq<AccountId>>, nodes: map<AccountId, AccountNode>,
                                   chain: seq<AccountId>, rings: seq<Ring>)
    requires IsChain(adj, nodes, chain) && |chain| <= CHAIN_DEPTH
    requires RingsOk(adj, nodes, rings)
    ensures RingsOk(adj, nodes, Chain(adj, nodes, chain, rings)) && rings <= Chain(adj, nodes, chain, rings)
    decreases CHAIN_DEPTH - |chain|, 1
  {
    if |chain| >= CHAIN_DEPTH {
      ReportOk(adj, nodes, chain, rings);
    } else {
      ExtendOk(adj, nodes, chain, Neighbors(adj, chain[|chain| - 1]), rings);
    }
  }

  lemma {:induction false} ExtendOk(adj: map<AccountId, seq<AccountId>>, nodes: map<AccountId, AccountNode>,
                                    chain: seq<AccountId>, nbrs: seq<AccountId>, rings: seq<Ring>)
    requires IsChain(adj, nodes, chain) && |chain| < CHAIN_DEPTH
    requires forall x | x in nbrs :: x in Neighbors(adj, chain[|chain| - 1])
    requires RingsOk(adj, nodes, rings)
    ensures RingsOk(adj, nodes, Extend(adj, nodes, chain, nbrs, rings))
    ensures rings <= Extend(adj, nodes, chain, nbrs, rings)
    decreases CHAIN_DEPTH - |chain|, 0, |nbrs|
  {
    if nbrs != [] {
      var next := nbrs[0];
      assert next in nbrs;
      var after :=
        if next !in chain && MayJoin(nodes, next) then Chain(adj, nodes, chain + [next], rings)
        else rings;
      if next !in chain && MayJoin(nodes, next) {
        ExtendChain(adj, nodes, chain, next);
        ChainOk(adj, nodes, chain + [next], rings);
      }
      assert forall x | x in nbrs[1..] :: x in nbrs;
      ExtendOk(adj, nodes, chain, nbrs[1..], after);
    }
  }

  /** Whatever the nodes, the reported rings are well-formed. */
  lemma {:induction false} DetectedOk(adj: map<AccountId, seq<AccountId>>, nodes: map<AccountId, AccountNode>,
                                      order: seq<AccountId>, n: nat)
    requires n <= |order| && forall a | a in order :: a in nodes
    ensures RingsOk(adj, nodes, Detected(adj, nodes, order, n))
  {
    for k := 0 to n
      invariant RingsOk(adj, nodes, Detected(adj, nodes, order, k))
    {
      if IsSeed(nodes[order[k]]) {
        ChainOk(adj, nodes, [order[k]], Detected(adj, nodes, order, k));
      }
    }
  }

  /** The members of shell rings are nodes. */
  lemma {:induction false} ShellMembersAreNodes(g: Graph, rings: seq<Ring>)
    requires forall i | 0 <= i < |rings| :: IsShellRing(g.adj, g.nodes, rings[i])
    ensures MembersAreNodes(g.nodes, rings)
  {
    forall i, a | 0 <= i < |rings| && a in rings[i].members
      ensures a in g.nodes
    {
      var m := rings[i].members;
      var k :| 0 <= k < |m| && m[k] == a;
      if k > 0 {
        assert MayJoin(g.nodes, m[k]);
      }
    }
  }

  // ---------------------------------------------------------------------------
  // The detector: the closure state of `detect` as an object
  // ---------------------------------------------------------------------------

  /** The variables `findChain` closes over: the current seed's `chain`, the
      `detected` key set, `rings` and `ringCounter`. */
  class ShellSearch {
    const adj: map<AccountId, seq<AccountId>>
    const nodes: map<AccountId, AccountNode>
    var chain: seq<AccountId>
    var detected: set<multiset<AccountId>>
    var rings: seq<Ring>
    var ringCounter: nat

    /** `detected` holds the keys of the rings, and `ringCounter` is the number
        of the next ring. */
    ghost predicate Valid()
      reads this
    {
      detected == Keys(rings) && ringCounter == RING_BASE + |rings|
    }

    constructor (adj: map<AccountId, seq<AccountId>>, nodes: map<AccountId, AccountNode>)
      ensures this.adj == adj && this.nodes == nodes && rings == [] && Valid()
    {
      this.adj := adj;
      this.nodes := nodes;
      chain := [];
      detected := {};
      rings := [];
      ringCounter := RING_BASE;
    }

    /** `findChain(current, depth)`: pushes and pops `chain` in pairs, so it
        returns with `chain` as it found it. */
    method FindChain(current: AccountId, depth: nat)
      requires Valid() && 1 <= |chain| <= CHAIN_DEPTH && depth == |chain| && current == chain[|chain| - 1]
      modifies this
      ensures Valid() && chain == old(chain)
      ensures rings == Chain(adj, nodes, old(chain), old(rings))
      decreases CHAIN_DEPTH - |chain|
    {
      if depth >= CHAIN_DEPTH {
        var key := multiset(chain);
        if key !in detected {
          var ring := ShellRing(RingId(ShellPrefix, ringCounter), chain, depth);
          KeysAppend(rings, ring);
          detected := detected + {key};
          rings := rings + [ring];
          ringCounter := ringCounter + 1;
        }
        return;
      }
      var neighbors := Neighbors(adj, current);
      var i := 0;
      while i < |neighbors|
        invariant 0 <= i <= |neighbors|
        invariant Valid() && chain == old(chain)
        invariant Extend(adj, nodes, chain, neighbors[i..], rings) == Extend(adj, nodes, chain, neighbors, old(rings))
      {
        var next := neighbors[i];
        assert neighbors[i..][1..] == neighbors[i + 1..];
        if next !in chain {
          if next in nodes && Activity(nodes[next]) <= MAX_INTERMEDIATE_ACTIVITY {
            chain := chain + [next];
            FindChain(next, depth + 1);
            chain := chain[..|chain| - 1];
          }
        }
        i := i + 1;
      }
    }
  }

  /** `ShellDetector.detect(nodes, adjList)`: a search from every seed in node
      order, with a fresh chain each time and the key set, rings and counter
      local to the call. */
  method Detect(adj: map<AccountId, seq<AccountId>>, nodes: map<AccountId, AccountNode>, order: seq<AccountId>)
    returns (rings: seq<Ring>)
    requires forall a | a in order :: a in nodes
    ensures rings == Detected(adj, nodes, order, |order|)
    ensures RingsOk(adj, nodes, rings)
  {
    var search := new ShellSearch(adj, nodes);
    for n := 0 to |order|
      invariant search.adj == adj && search.nodes == nodes && search.Valid()
      invariant search.rings == Detected(adj, nodes, order, n)
      invariant RingsOk(adj, nodes, search.rings)
    {
      var id := order[n];
      var node := nodes[id];
      var totalTx := node.sentCount + node.receivedCount;
      if totalTx >= 2 && totalTx <= 3 {
        search.chain := [id];
        ChainOk(adj, nodes, [id], search.rings);
        search.FindChain(id, 1);
      }
    }
    rings := search.rings;
  }
}
