/** `CycleDetector.detect`: from every account, a depth-first search along a
    shared path of at most five accounts; whenever the current account has an
    edge back to the start and the path holds at least three accounts, the
    path is a cycle, reported once per member set. */
module CycleDetector {
  import opened Seqs
  import opened Types

  // ---------------------------------------------------------------------------
  // Reference definition: the search as a fold over the rings found so far
  // ---------------------------------------------------------------------------

  /** Reaching the start again: `path` is reported unless its member set was. */
  function Close(path: seq<AccountId>, rings: seq<Ring>): seq<Ring> {
    if Key(path) in Keys(rings) then rings
    else rings + [CycleRing(RingId(CyclePrefix, |rings| + 1), path, |path|)]
  }

  /** `dfs(path[|path| - 1], path)` with the search start `path[0]`. */
  function Search(adj: map<AccountId, seq<AccountId>>, path: seq<AccountId>, rings: seq<Ring>): seq<Ring>
    requires 1 <= |path| <= 6
    decreases 6 - |path|, 1
  {
    if |path| > 5 then rings
    else Explore(adj, path, Neighbors(adj, path[|path| - 1]), rings)
  }

  /** The `for (const next of neighbors)` loop of `dfs`, over the neighbours
      still to visit. */
  function Explore(adj: map<AccountId, seq<AccountId>>, path: seq<AccountId>, nbrs: seq<AccountId>,
                   rings: seq<Ring>): seq<Ring>
    requires 1 <= |path| <= 5
    decreases 6 - |path|, 0, |nbrs|
  {
    if nbrs == [] then rings
    else
      var next := nbrs[0];
      var after :=
        if next == path[0] && |path| >= 3 then Close(path, rings)
        else if next !in path then Search(adj, path + [next], rings)
        else rings;
      Explore(adj, path, nbrs[1..], after)
  }

  /** The rings after the searches from the first `n` starts. */
  function Detected(adj: map<AccountId, seq<AccountId>>, starts: seq<AccountId>, n: nat): seq<Ring>
    requires n <= |starts|
  {
    if n == 0 then [] else Search(adj, [starts[n - 1]], Detected(adj, starts, n - 1))
  }

  // ---------------------------------------------------------------------------
  // What every reported ring satisfies
  // ---------------------------------------------------------------------------

  /** Distinct accounts, each an adjacency successor of the one before. */
  ghost predicate IsPath(adj: map<AccountId, seq<AccountId>>, p: seq<AccountId>) {
    && 1 <= |p|
    && Distinct(p)
    && forall i | 0 <= i < |p| - 1 :: p[i + 1] in Neighbors(adj, p[i])
  }

  /** A simple cycle of three to five accounts whose length field is its size. */
  ghost predicate IsCycle(adj: map<AccountId, seq<AccountId>>, r: Ring) {
    && r.CycleRing?
    && 3 <= |r.members| <= 5
    && r.cycleLength == |r.members|
    && IsPath(adj, r.members)
    && r.members[0] in Neighbors(adj, r.members[|r.members| - 1])
  }

  /** Every ring is a cycle, ids run `RING_001`, `RING_002`, ... and no two
      rings have the same member set. */
  ghost predicate RingsOk(adj: map<AccountId, seq<AccountId>>, rings: seq<Ring>) {
    && (forall i | 0 <= i < |rings| :: IsCycle(adj, rings[i]))
    && Numbered(rings, CyclePrefix, 1)
    && DistinctKeys(rings)
  }

  /** Closing a path of three to five accounts that ends at a predecessor of
      its start keeps the rings well-formed, and at most appends. */
  lemma {:induction false} CloseOk(adj: map<AccountId, seq<AccountId>>, path: seq<AccountId>, rings: seq<Ring>)
    requires IsPath(adj, path) && 3 <= |path| <= 5 && path[0] in Neighbors(adj, path[|path| - 1])
    requires RingsOk(adj, rings)
    ensures RingsOk(adj, Close(path, rings)) && rings <= Close(path, rings)
  {
    if Key(path) !in Keys(rings) {
      var ring := CycleRing(RingId(CyclePrefix, |rings| + 1), path, |path|);
      var r := rings + [ring];
      assert r == Close(path, rings);
      forall i | 0 <= i < |r|
        ensures IsCycle(adj, r[i]) && r[i].id == RingId(CyclePrefix, 1 + i)
      {
        if i < |rings| {
          assert r[i] == rings[i];
        }
      }
      forall i, j | 0 <= i < j < |r|
        ensures Key(r[i].members) != Key(r[j].members)
      {
        assert r[i] == rings[i];
        if j == |rings| {
          assert Key(rings[i].members) in Keys(rings);
        } else {
          assert r[j] == rings[j];
        }
      }
    }
  }

  /** The search below a path keeps the rings well-formed and only appends. */
  lemma {:induction false} SearchOk(adj: map<AccountId, seq<AccountId>>, path: seq<AccountId>, rings: seq<Ring>)
    requires IsPath(adj, path) && |path| <= 6
    requires RingsOk(adj, rings)
    ensures RingsOk(adj, Search(adj, path, rings)) && rings <= Search(adj, path, rings)
    decreases 6 - |path|, 1
  {
    if |path| <= 5 {
      ExploreOk(adj, path, Neighbors(adj, path[|path| - 1]), rings);
    }
  }

  lemma {:induction false} ExploreOk(adj: map<AccountId, seq<AccountId>>, path: seq<AccountId>,
                                     nbrs: seq<AccountId>, rings: seq<Ring>)
    requires IsPath(adj, path) && |path| <= 5
    requires forall x | x in nbrs :: x in Neighbors(adj, path[|path| - 1])
    requires RingsOk(adj, rings)
    ensures RingsOk(adj, Explore(adj, path, nbrs, rings)) && rings <= Explore(adj, path, nbrs, rings)
    decreases 6 - |path|, 0, |nbrs|
  {
    if nbrs != [] {
      var next := nbrs[0];
      assert next in nbrs;
      var after :=
        if next == path[0] && |path| >= 3 then Close(path, rings)
        else if next !in path then Search(adj, path + [next], rings)
        else rings;
      if next == path[0] && |path| >= 3 {
        CloseOk(adj, path, rings);
      } else if next !in path {
        ExtendPath(adj, path, next);
        SearchOk(adj, path + [next], rings);
      }
      assert forall x | x in nbrs[1..] :: x in nbrs;
      ExploreOk(adj, path, nbrs[1..], after);
    }
  }

  /** A path extended by a fresh successor of its last account is a path. */
  lemma {:induction false} ExtendPath(adj: map<AccountId, seq<AccountId>>, path: seq<AccountId>, next: AccountId)
    requires IsPath(adj, path) && next !in path && next in Neighbors(adj, path[|path| - 1])
    ensures IsPath(adj, path + [next])
  {
    var p := path + [next];
    forall i, j | 0 <= i < j < |p|
      ensures p[i] != p[j]
    {
      if j == |path| {
        assert p[i] == path[i];
      }
    }
    forall i | 0 <= i < |p| - 1
      ensures p[i + 1] in Neighbors(adj, p[i])
    {
      if i < |path| - 1 {
        assert p[i + 1] == path[i + 1] && p[i] == path[i];
      }
    }
  }

  /** Whatever the starts, the reported rings are well-formed. */
  lemma {:induction false} DetectedOk(adj: map<AccountId, seq<AccountId>>, starts: seq<AccountId>, n: nat)
    requires n <= |starts|
    ensures RingsOk(adj, Detected(adj, starts, n))
  {
    if n > 0 {
      DetectedOk(adj, starts, n - 1);
      SearchOk(adj, [starts[n - 1]], Detected(adj, starts, n - 1));
    }
  }

  /** A cycle's members are nodes of a valid graph: each is the target of an
      adjacency entry. */
  lemma {:induction false} CycleMembersAreNodes(g: Graph, rings: seq<Ring>)
    requires GraphValid(g)
    requires forall i | 0 <= i < |rings| :: IsCycle(g.adj, rings[i])
    ensures MembersAreNodes(g.nodes, rings)
  {
    forall i, a | 0 <= i < |rings| && a in rings[i].members
      ensures a in g.nodes
    {
      var m := rings[i].members;
      var k :| 0 <= k < |m| && m[k] == a;
      var pred := if k == 0 then m[|m| - 1] else m[k - 1];
      assert a in Neighbors(g.adj, pred);
    }
  }

  // ---------------------------------------------------------------------------
  // The detector: the closure state of `detect` as an object
  // ---------------------------------------------------------------------------

  /** The variables `dfs` closes over: the start of the current search, the
      shared `path` array, `seenKeys`, `rings` and `ringCounter`. */
  class CycleSearch {
    const adj: map<AccountId, seq<AccountId>>
    var start: AccountId
    var path: seq<AccountId>
    var seenKeys: set<multiset<AccountId>>
    var rings: seq<Ring>
    var ringCounter: nat

    /** `seenKeys` holds the keys of the rings, and `ringCounter` is the number
        of the next ring. */
    ghost predicate Valid()
      reads this
    {
      seenKeys == Keys(rings) && ringCounter == |rings| + 1
    }

    constructor (adj: map<AccountId, seq<AccountId>>)
      ensures this.adj == adj && rings == [] && Valid()
    {
      this.adj := adj;
      start := [];
      path := [];
      seenKeys := {};
      rings := [];
      ringCounter := 1;
    }

    /** `dfs(current, path)`: pushes and pops `path` in pairs, so it returns
        with `path` as it found it. */
    method Dfs(current: AccountId)
      requires Valid() && 1 <= |path| <= 6 && path[0] == start && current == path[|path| - 1]
      modifies this
      ensures Valid() && path == old(path) && start == old(start)
      ensures rings == Search(adj, old(path), old(rings))
      decreases 6 - |path|
    {
      if |path| > 5 {
        return;
      }
      var neighbors := Neighbors(adj, current);
      var i := 0;
      while i < |neighbors|
        invariant 0 <= i <= |neighbors|
        invariant Valid() && path == old(path) && start == old(start)
        invariant Explore(adj, path, neighbors[i..], rings) == Explore(adj, path, neighbors, old(rings))
      {
        var next := neighbors[i];
        assert neighbors[i..][1..] == neighbors[i + 1..];
        if next == start && |path| >= 3 {
          var key := multiset(path);
          if key !in seenKeys {
            var ring := CycleRing(RingId(CyclePrefix, ringCounter), path, |path|);
            KeysAppend(rings, ring);
            seenKeys := seenKeys + {key};
            rings := rings + [ring];
            ringCounter := ringCounter + 1;
          }
        } else if next !in path {
          path := path + [next];
          Dfs(next);
          path := path[..|path| - 1];
        }
        i := i + 1;
      }
    }
  }

  /** `CycleDetector.detect(adjList, nodes)`: a search from every node in key
      order, with a fresh path each time and state local to the call. */
  method Detect(adj: map<AccountId, seq<AccountId>>, order: seq<AccountId>) returns (rings: seq<Ring>)
    ensures rings == Detected(adj, order, |order|)
    ensures RingsOk(adj, rings)
  {
    var search := new CycleSearch(adj);
    var i := 0;
    while i < |order|
      invariant 0 <= i <= |order|
      invariant search.adj == adj && search.Valid()
      invariant search.rings == Detected(adj, order, i)
    {
      search.start := order[i];
      search.path := [order[i]];
      search.Dfs(order[i]);
      i := i + 1;
    }
    rings := search.rings;
    DetectedOk(adj, order, |order|);
  }
}
