/** `normalizeResponse` of the upload screen: turns the analysis response into
    the nodes, edges, rings and ring colours the graph view draws. The
    response is untyped JSON; a missing top-level field is `None`, and the
    records inside are those the output stage writes. */
module UploadScreen {
  import opened Seqs
  import opened Types
  import opened ScoringService
  import GraphBuilder
  import AnalysisService

  // ---------------------------------------------------------------------------
  // The response as the normaliser reads it
  // ---------------------------------------------------------------------------

  /** A `graph.edges` entry. The normaliser reads `sender_id` or `from`,
      `receiver_id` or `to`, and `amount`; `source` and `target`, which the
      output stage writes, are there but never read. */
  datatype RawEdge = RawEdge(
    source: Option<AccountId>,
    target: Option<AccountId>,
    senderId: Option<AccountId>,
    from: Option<AccountId>,
    receiverId: Option<AccountId>,
    to: Option<AccountId>,
    amount: Option<real>)

  datatype RawGraph = RawGraph(nodes: Option<seq<NodeReport>>, edges: Option<seq<RawEdge>>)

  datatype Raw = Raw(
    suspiciousAccounts: Option<seq<AccountReport>>,
    fraudRings: Option<seq<RingReport>>,
    summary: Option<Summary>,
    graph: Option<RawGraph>)

  /** `raw.fraud_rings || []`. */
  function RawRings(raw: Raw): seq<RingReport> {
    if raw.fraudRings.Some? then raw.fraudRings.value else []
  }

  /** `raw.suspicious_accounts || []`. */
  function RawAccounts(raw: Raw): seq<AccountReport> {
    if raw.suspiciousAccounts.Some? then raw.suspiciousAccounts.value else []
  }

  /** `raw.graph?.nodes || []`. */
  function RawNodes(raw: Raw): seq<NodeReport> {
    if raw.graph.Some? && raw.graph.value.nodes.Some? then raw.graph.value.nodes.value else []
  }

  /** `raw.graph?.edges`, an absent list read as empty. */
  function RawEdges(raw: Raw): seq<RawEdge> {
    if raw.graph.Some? && raw.graph.value.edges.Some? then raw.graph.value.edges.value else []
  }

  /** The response the output stage writes for report `r`: every field
      present, and each edge with its `source` and `target` only. */
  function RawOf(r: Report): Raw {
    Raw(Some(r.suspiciousAccounts), Some(r.fraudRings), Some(r.summary),
        Some(RawGraph(Some(r.graphNodes), Some(Map(r.graphEdges, EdgeJson)))))
  }

  function EdgeJson(e: EdgeReport): RawEdge {
    RawEdge(Some(e.source), Some(e.target), None, None, None, None, Some(e.amount))
  }

  // ---------------------------------------------------------------------------
  // What the normaliser returns
  // ---------------------------------------------------------------------------

  /** A node enriched with its suspicious-account record; `ring_id: null` is
      `None`. */
  datatype NodeView = NodeView(
    id: AccountId,
    suspicionScore: real,
    patterns: seq<Tag>,
    ringId: Option<RingId>,
    sentCount: nat,
    receivedCount: nat,
    totalSent: real,
    totalReceived: real)

  /** An edge; an endpoint read from an absent field is `None` (`undefined`). */
  datatype EdgeView = EdgeView(from: Option<AccountId>, to: Option<AccountId>, amount: real)

  datatype RingView = RingView(ringId: RingId, pattern: Pattern, members: seq<AccountId>, riskScore: real)

  /** The normalised response; `summary: raw.summary || {}` is `None` for `{}`. */
  datatype Normalized = Normalized(
    nodes: seq<NodeView>,
    edges: seq<EdgeView>,
    rings: seq<RingView>,
    ringColorMap: map<RingId, string>,
    summary: Option<Summary>,
    rawJson: Raw)

  // ---------------------------------------------------------------------------
  // Ring colours
  // ---------------------------------------------------------------------------

  /** `PALETTE`: eight accent colours. */
  const PALETTE: seq<string> := ["#ef4444", "#f97316", "#a855f7", "#3b82f6",
                                 "#10b981", "#eab308", "#ec4899", "#06b6d4"]

  /** The writes of the colour loop: ring `i` gets `PALETTE[i % 8]`. */
  function ColorWrites(rings: seq<RingReport>): seq<(RingId, string)> {
    seq(|rings|, i requires 0 <= i < |rings| => (rings[i].ringId, PALETTE[i % |PALETTE|]))
  }

  /** The `forEach` that fills `ringColorMap`. */
  method BuildColorMap(rings: seq<RingReport>) returns (ringColorMap: map<RingId, string>)
    ensures ringColorMap == Assigned(ColorWrites(rings))
  {
    ringColorMap := map[];
    for i := 0 to |rings|
      invariant ringColorMap == Assigned(ColorWrites(rings)[..i])
    {
      assert ColorWrites(rings)[..i + 1][..i] == ColorWrites(rings)[..i];
      ringColorMap := ringColorMap[rings[i].ringId := PALETTE[i % |PALETTE|]];
    }
    assert ColorWrites(rings)[..|rings|] == ColorWrites(rings);
  }

  /** Every ring id has a colour and nothing else has; a ring whose id does
      not recur later in the list has the colour of its own position, so
      colours repeat with period eight and two positions share a colour
      exactly when they are congruent modulo eight. */
  lemma {:induction false} RingColors(rings: seq<RingReport>)
    ensures forall id :: id in Assigned(ColorWrites(rings)) <==> exists i | 0 <= i < |rings| :: rings[i].ringId == id
    ensures forall i | 0 <= i < |rings| && (forall j | i < j < |rings| :: rings[j].ringId != rings[i].ringId) ::
      Assigned(ColorWrites(rings))[rings[i].ringId] == PALETTE[i % 8]
    ensures forall i, j | 0 <= i < |rings| && 0 <= j < |rings| :: PALETTE[i % 8] == PALETTE[j % 8] <==> i % 8 == j % 8
  {
    var writes := ColorWrites(rings);
    forall id ensures id in Assigned(writes) <==> exists i | 0 <= i < |rings| :: rings[i].ringId == id {
      AssignedKeys(writes, id);
      if exists i | 0 <= i < |writes| :: writes[i].0 == id {
        var i :| 0 <= i < |writes| && writes[i].0 == id;
        assert rings[i].ringId == id;
      }
      if exists i | 0 <= i < |rings| :: rings[i].ringId == id {
        var i :| 0 <= i < |rings| && rings[i].ringId == id;
        assert writes[i].0 == id;
      }
    }
    forall i | 0 <= i < |rings| && (forall j | i < j < |rings| :: rings[j].ringId != rings[i].ringId)
      ensures Assigned(writes)[rings[i].ringId] == PALETTE[i % 8]
    {
      AssignedLast(writes, i);
    }
  }

  // ---------------------------------------------------------------------------
  // Suspicious-account lookup and nodes
  // ---------------------------------------------------------------------------

  /** The writes of the lookup loop: each account under its id. */
  function SuspWrites(accounts: seq<AccountReport>): seq<(AccountId, AccountReport)> {
    seq(|accounts|, i requires 0 <= i < |accounts| => (accounts[i].accountId, accounts[i]))
  }

  /** The `forEach` that fills `suspMap`. */
  method BuildSuspMap(accounts: seq<AccountReport>) returns (suspMap: map<AccountId, AccountReport>)
    ensures suspMap == Assigned(SuspWrites(accounts))
  {
    suspMap := map[];
    for i := 0 to |accounts|
      invariant suspMap == Assigned(SuspWrites(accounts)[..i])
    {
      assert SuspWrites(accounts)[..i + 1][..i] == SuspWrites(accounts)[..i];
      suspMap := suspMap[accounts[i].accountId := accounts[i]];
    }
    assert SuspWrites(accounts)[..|accounts|] == SuspWrites(accounts);
  }

  /** The `graph.nodes` mapping: a node with a record takes its score over
      100, its patterns and its ring id; one without gets 0, `[]` and `null`. */
  function NodeViewOf(n: NodeReport, suspMap: map<AccountId, AccountReport>): NodeView {
    if n.id in suspMap then
      var s := suspMap[n.id];
      NodeView(n.id, s.suspicionScore as real / 100.0, s.detectedPatterns, Some(s.ringId),
               n.sentCount, n.receivedCount, n.totalSent, n.totalReceived)
    else
      NodeView(n.id, 0.0, [], None, n.sentCount, n.receivedCount, n.totalSent, n.totalReceived)
  }

  function NodeViews(nodes: seq<NodeReport>, suspMap: map<AccountId, AccountReport>): seq<NodeView> {
    Map(nodes, n => NodeViewOf(n, suspMap))
  }

  // ---------------------------------------------------------------------------
  // Edges
  // ---------------------------------------------------------------------------

  /** `a || b` on a string that may be absent: an absent or empty string is falsy. */
  function Or(a: Option<AccountId>, b: Option<AccountId>): Option<AccountId> {
    if a.Some? && a.value != "" then a else b
  }

  /** The mapping of a sent edge: `sender_id || from`, `receiver_id || to`,
      `amount || 0`. */
  function EdgeViewOf(e: RawEdge): EdgeView {
    EdgeView(Or(e.senderId, e.from), Or(e.receiverId, e.to), if e.amount.Some? then e.amount.value else 0.0)
  }

  /** A reconstructed edge; the `seen` key `${from}→${to}` is the pair itself. */
  type Pair = (AccountId, AccountId)

  function PairEdge(p: Pair): EdgeView {
    EdgeView(Some(p.0), Some(p.1), 0.0)
  }

  /** The candidate pairs of a cycle ring: each member to the next, the last
      back to the first. */
  function CyclePairs(m: seq<AccountId>): seq<Pair> {
    seq(|m|, i requires 0 <= i < |m| => (m[i], Next(m, i)))
  }

  /** `members[(i + 1) % members.length]`. */
  function Next(m: seq<AccountId>, i: nat): AccountId
    requires i < |m|
  {
    m[(i + 1) % |m|]
  }

  /** Of a fan-in ring: every member after the first to the first (the hub). */
  function FanInPairs(m: seq<AccountId>): seq<Pair> {
    seq(if m == [] then 0 else |m| - 1, k requires 0 <= k < |m| - 1 => (m[k + 1], m[0]))
  }

  /** Of a fan-out ring: the first member to every later one. */
  function FanOutPairs(m: seq<AccountId>): seq<Pair> {
    seq(if m == [] then 0 else |m| - 1, k requires 0 <= k < |m| - 1 => (m[0], m[k + 1]))
  }

  /** Of any other ring: a chain through the members in order. */
  function ChainPairs(m: seq<AccountId>): seq<Pair> {
    seq(if m == [] then 0 else |m| - 1, i requires 0 <= i < |m| - 1 => (m[i], m[i + 1]))
  }

  /** The candidate pairs of one ring, by its pattern. */
  function RingPairs(r: RingReport): seq<Pair> {
    match r.patternType
    case Cycle => CyclePairs(r.memberAccounts)
    case FanIn => FanInPairs(r.memberAccounts)
    case FanOut => FanOutPairs(r.memberAccounts)
    case _ => ChainPairs(r.memberAccounts)
  }

  /** The candidate pairs of all rings, ring after ring. */
  function AllPairs(rings: seq<RingReport>): seq<Pair> {
    FlatMap(rings, RingPairs)
  }

  /** The loop state matches the pairs visited so far: `seen` holds them and
      `edges` lists each once, in order of first visit. */
  ghost predicate Visited(seen: set<Pair>, edges: seq<EdgeView>, pairs: seq<Pair>) {
    (forall p :: p in seen <==> p in pairs) && edges == Map(Dedup(pairs), PairEdge)
  }

  /** `if (!seen.has(key)) { seen.add(key); edges.push(...) }`. */
  method Visit(seen0: set<Pair>, edges0: seq<EdgeView>, ghost pairs: seq<Pair>, p: Pair)
    returns (seen: set<Pair>, edges: seq<EdgeView>)
    requires Visited(seen0, edges0, pairs)
    ensures Visited(seen, edges, pairs + [p])
  {
    seen, edges := seen0, edges0;
    DedupSnoc(pairs, p);
    if p !in seen {
      seen := seen + {p};
      edges := edges + [PairEdge(p)];
      MapSnoc(Dedup(pairs), p, PairEdge);
    }
  }

  /** Visiting one more pair extends the visited prefix by that pair. */
  lemma {:induction false} PrefixSnoc(pairs: seq<Pair>, ps: seq<Pair>, i: nat)
    requires i < |ps|
    ensures pairs + ps[..i + 1] == (pairs + ps[..i]) + [ps[i]]
  {
    assert ps[..i + 1] == ps[..i] + [ps[i]];
  }

  /** The `for` loop over a cycle ring's members. */
  method VisitCycle(seen0: set<Pair>, edges0: seq<EdgeView>, ghost pairs: seq<Pair>, members: seq<AccountId>)
    returns (seen: set<Pair>, edges: seq<EdgeView>)
    requires Visited(seen0, edges0, pairs)
    ensures Visited(seen, edges, pairs + CyclePairs(members))
  {
    seen, edges := seen0, edges0;
    ghost var ps := CyclePairs(members);
    assert pairs + ps[..0] == pairs;
    for i := 0 to |members|
      invariant Visited(seen, edges, pairs + ps[..i])
    {
      var from, to := members[i], members[(i + 1) % |members|];
      assert (from, to) == ps[i];
      PrefixSnoc(pairs, ps, i);
      seen, edges := Visit(seen, edges, pairs + ps[..i], (from, to));
    }
    assert ps[..|members|] == ps;
  }

  /** `members.slice(1).forEach(m => ...)` of a fan-in ring. */
  method VisitFanIn(seen0: set<Pair>, edges0: seq<EdgeView>, ghost pairs: seq<Pair>, members: seq<AccountId>)
    returns (seen: set<Pair>, edges: seq<EdgeView>)
    requires Visited(seen0, edges0, pairs)
    ensures Visited(seen, edges, pairs + FanInPairs(members))
  {
    seen, edges := seen0, edges0;
    if members == [] {
      assert pairs + FanInPairs(members) == pairs;
      return;
    }
    var hub := members[0];
    var rest := members[1..];
    ghost var ps := FanInPairs(members);
    assert pairs + ps[..0] == pairs;
    for k := 0 to |rest|
      invariant Visited(seen, edges, pairs + ps[..k])
    {
      var m := rest[k];
      assert (m, hub) == ps[k];
      PrefixSnoc(pairs, ps, k);
      seen, edges := Visit(seen, edges, pairs + ps[..k], (m, hub));
    }
    assert ps[..|rest|] == ps;
  }

  /** `members.slice(1).forEach(m => ...)` of a fan-out ring. */
  method VisitFanOut(seen0: set<Pair>, edges0: seq<EdgeView>, ghost pairs: seq<Pair>, members: seq<AccountId>)
    returns (seen: set<Pair>, edges: seq<EdgeView>)
    requires Visited(seen0, edges0, pairs)
    ensures Visited(seen, edges, pairs + FanOutPairs(members))
  {
    seen, edges := seen0, edges0;
    if members == [] {
      assert pairs + FanOutPairs(members) == pairs;
      return;
    }
    var hub := members[0];
    var rest := members[1..];
    ghost var ps := FanOutPairs(members);
    assert pairs + ps[..0] == pairs;
    for k := 0 to |rest|
      invariant Visited(seen, edges, pairs + ps[..k])
    {
      var m := rest[k];
      assert (hub, m) == ps[k];
      PrefixSnoc(pairs, ps, k);
      seen, edges := Visit(seen, edges, pairs + ps[..k], (hub, m));
    }
    assert ps[..|rest|] == ps;
  }

  /** The chain loop, `for (let i = 0; i < members.length - 1; i++)`. */
  method VisitChain(seen0: set<Pair>, edges0: seq<EdgeView>, ghost pairs: seq<Pair>, members: seq<AccountId>)
    returns (seen: set<Pair>, edges: seq<EdgeView>)
    requires Visited(seen0, edges0, pairs)
    ensures Visited(seen, edges, pairs + ChainPairs(members))
  {
    seen, edges := seen0, edges0;
    var n := if members == [] then 0 else |members| - 1;
    ghost var ps := ChainPairs(members);
    assert pairs + ps[..0] == pairs;
    for i := 0 to n
      invariant Visited(seen, edges, pairs + ps[..i])
    {
      var p := (members[i], members[i + 1]);
      assert p == ps[i];
      PrefixSnoc(pairs, ps, i);
      seen, edges := Visit(seen, edges, pairs + ps[..i], p);
    }
    assert ps[..n] == ps;
  }

  /** The reconstruction branch: every ring in turn, with one `seen` set
      across all of them. */
  method ReconstructEdges(rings: seq<RingReport>) returns (edges: seq<EdgeView>)
    ensures edges == Map(Dedup(AllPairs(rings)), PairEdge)
  {
    var seen: set<Pair> := {};
    edges := [];
    for k := 0 to |rings|
      invariant Visited(seen, edges, AllPairs(rings[..k]))
    {
      var ring := rings[k];
      var members := ring.memberAccounts;
      ghost var pairs := AllPairs(rings[..k]);
      assert rings[..k + 1][..k] == rings[..k];
      if ring.patternType == Cycle {
        seen, edges := VisitCycle(seen, edges, pairs, members);
      } else if ring.patternType == FanIn {
        seen, edges := VisitFanIn(seen, edges, pairs, members);
      } else if ring.patternType == FanOut {
        seen, edges := VisitFanOut(seen, edges, pairs, members);
      } else {
        seen, edges := VisitChain(seen, edges, pairs, members);
      }
    }
    assert rings[..|rings|] == rings;
  }

  /** The edges: the sent ones mapped when there are any, the reconstructed
      ones otherwise. */
  function EdgeViews(raw: Raw): seq<EdgeView> {
    if |RawEdges(raw)| > 0 then Map(RawEdges(raw), EdgeViewOf)
    else Map(Dedup(AllPairs(RawRings(raw))), PairEdge)
  }

  // ---------------------------------------------------------------------------
  // Rings and the whole normaliser
  // ---------------------------------------------------------------------------

  /** The `fraud_rings` mapping, risk score scaled from 0-100 to 0-1. */
  function RingViewOf(r: RingReport): RingView {
    RingView(r.ringId, r.patternType, r.memberAccounts, r.riskScore / 100.0)
  }

  /** What `normalizeResponse(raw)` returns. */
  function NormalizedOf(raw: Raw): Normalized {
    Normalized(
      NodeViews(RawNodes(raw), Assigned(SuspWrites(RawAccounts(raw)))),
      EdgeViews(raw),
      Map(RawRings(raw), RingViewOf),
      Assigned(ColorWrites(RawRings(raw))),
      raw.summary,
      raw)
  }

  /** `normalizeResponse(raw)`. */
  method NormalizeResponse(raw: Raw) returns (out: Normalized)
    ensures out == NormalizedOf(raw)
  {
    var ringColorMap := BuildColorMap(RawRings(raw));
    var suspMap := BuildSuspMap(RawAccounts(raw));
    var nodes := Map(RawNodes(raw), n => NodeViewOf(n, suspMap));
    var edges: seq<EdgeView>;
    if |RawEdges(raw)| > 0 {
      edges := Map(RawEdges(raw), EdgeViewOf);
    } else {
      edges := ReconstructEdges(RawRings(raw));
    }
    var rings := Map(RawRings(raw), RingViewOf);
    out := Normalized(nodes, edges, rings, ringColorMap, raw.summary, raw);
  }

  // ---------------------------------------------------------------------------
  // What the normalised response satisfies
  // ---------------------------------------------------------------------------

  /** The nodes follow `graph.nodes` one to one and in order. A node whose id
      has no suspicious-account record gets score 0, no patterns and no ring;
      one with a record gets, from the last record with its id, the score over
      100, the patterns and the ring id. */
  lemma {:induction false} NodesJoined(raw: Raw)
    ensures var nodes, accounts, out := RawNodes(raw), RawAccounts(raw), NormalizedOf(raw).nodes;
      && |out| == |nodes|
      && (forall i | 0 <= i < |nodes| ::
            && out[i].id == nodes[i].id
            && out[i].sentCount == nodes[i].sentCount && out[i].receivedCount == nodes[i].receivedCount
            && out[i].totalSent == nodes[i].totalSent && out[i].totalReceived == nodes[i].totalReceived)
      && (forall i | 0 <= i < |nodes| && (forall j | 0 <= j < |accounts| :: accounts[j].accountId != nodes[i].id) ::
            out[i].suspicionScore == 0.0 && out[i].patterns == [] && out[i].ringId == None)
      && (forall i, j | 0 <= i < |nodes| && 0 <= j < |accounts| && accounts[j].accountId == nodes[i].id
                        && (forall k | j < k < |accounts| :: accounts[k].accountId != nodes[i].id) ::
            && out[i].suspicionScore == accounts[j].suspicionScore as real / 100.0
            && out[i].patterns == accounts[j].detectedPatterns
            && out[i].ringId == Some(accounts[j].ringId))
  {
    var nodes, accounts := RawNodes(raw), RawAccounts(raw);
    var writes := SuspWrites(accounts);
    var suspMap := Assigned(writes);
    MapOk(nodes, n => NodeViewOf(n, suspMap));
    forall i | 0 <= i < |nodes| && (forall j | 0 <= j < |accounts| :: accounts[j].accountId != nodes[i].id)
      ensures nodes[i].id !in suspMap
    {
      AssignedKeys(writes, nodes[i].id);
    }
    forall i, j | 0 <= i < |nodes| && 0 <= j < |accounts| && accounts[j].accountId == nodes[i].id
                  && (forall k | j < k < |accounts| :: accounts[k].accountId != nodes[i].id)
      ensures nodes[i].id in suspMap && suspMap[nodes[i].id] == accounts[j]
    {
      AssignedLast(writes, j);
    }
  }

  /** The rings follow `fraud_rings` one to one and in order, with the risk
      score scaled to 0-1; an absent list gives none. */
  lemma {:induction false} RingsMapped(raw: Raw)
    ensures var rings, out := RawRings(raw), NormalizedOf(raw).rings;
      && (raw.fraudRings.None? ==> out == [])
      && |out| == |rings|
      && forall i | 0 <= i < |rings| ::
           out[i] == RingView(rings[i].ringId, rings[i].patternType, rings[i].memberAccounts, rings[i].riskScore / 100.0)
  {
    MapOk(RawRings(raw), RingViewOf);
  }

  /** With a non-empty `graph.edges` the edges follow it one to one: each
      takes `sender_id` when present and non-empty and `from` otherwise,
      likewise `receiver_id` and `to`, and the amount or 0. */
  lemma {:induction false} SentEdgesMapped(raw: Raw)
    requires |RawEdges(raw)| > 0
    ensures var sent, out := RawEdges(raw), NormalizedOf(raw).edges;
      && |out| == |sent|
      && forall i | 0 <= i < |sent| ::
           && out[i].from == (if sent[i].senderId.Some? && sent[i].senderId.value != "" then sent[i].senderId else sent[i].from)
           && out[i].to == (if sent[i].receiverId.Some? && sent[i].receiverId.value != "" then sent[i].receiverId else sent[i].to)
           && out[i].amount == (if sent[i].amount.Some? then sent[i].amount.value else 0.0)
  {
    MapOk(RawEdges(raw), EdgeViewOf);
  }

  /** The pairs a ring yields by its pattern, stated on member positions. */
  ghost predicate Yields(r: RingReport, a: AccountId, b: AccountId) {
    var m := r.memberAccounts;
    match r.patternType
    case Cycle => exists i | 0 <= i < |m| :: a == m[i] && b == Next(m, i)
    case FanIn => exists k | 1 <= k < |m| :: a == m[k] && b == m[0]
    case FanOut => exists k | 1 <= k < |m| :: a == m[0] && b == m[k]
    case _ => exists i | 0 <= i < |m| - 1 :: a == m[i] && b == m[i + 1]
  }

  lemma {:induction false} CycleYields(m: seq<AccountId>, a: AccountId, b: AccountId)
    ensures (a, b) in CyclePairs(m) <==> exists i | 0 <= i < |m| :: a == m[i] && b == Next(m, i)
  {
    if (a, b) in CyclePairs(m) {
      var i :| 0 <= i < |m| && CyclePairs(m)[i] == (a, b);
    }
    if exists i | 0 <= i < |m| :: a == m[i] && b == Next(m, i) {
      var i :| 0 <= i < |m| && a == m[i] && b == Next(m, i);
      assert CyclePairs(m)[i] == (a, b);
    }
  }

  lemma {:induction false} FanInYields(m: seq<AccountId>, a: AccountId, b: AccountId)
    ensures (a, b) in FanInPairs(m) <==> exists k | 1 <= k < |m| :: a == m[k] && b == m[0]
  {
    if (a, b) in FanInPairs(m) {
      var k :| 0 <= k < |FanInPairs(m)| && FanInPairs(m)[k] == (a, b);
      assert a == m[k + 1] && b == m[0];
    }
    if exists k | 1 <= k < |m| :: a == m[k] && b == m[0] {
      var k :| 1 <= k < |m| && a == m[k] && b == m[0];
      assert FanInPairs(m)[k - 1] == (a, b);
    }
  }

  lemma {:induction false} FanOutYields(m: seq<AccountId>, a: AccountId, b: AccountId)
    ensures (a, b) in FanOutPairs(m) <==> exists k | 1 <= k < |m| :: a == m[0] && b == m[k]
  {
    if (a, b) in FanOutPairs(m) {
      var k :| 0 <= k < |FanOutPairs(m)| && FanOutPairs(m)[k] == (a, b);
      assert a == m[0] && b == m[k + 1];
    }
    if exists k | 1 <= k < |m| :: a == m[0] && b == m[k] {
      var k :| 1 <= k < |m| && a == m[0] && b == m[k];
      assert FanOutPairs(m)[k - 1] == (a, b);
    }
  }

  lemma {:induction false} ChainYields(m: seq<AccountId>, a: AccountId, b: AccountId)
    ensures (a, b) in ChainPairs(m) <==> exists i | 0 <= i < |m| - 1 :: a == m[i] && b == m[i + 1]
  {
    if (a, b) in ChainPairs(m) {
      var i :| 0 <= i < |ChainPairs(m)| && ChainPairs(m)[i] == (a, b);
    }
    if exists i | 0 <= i < |m| - 1 :: a == m[i] && b == m[i + 1] {
      var i :| 0 <= i < |m| - 1 && a == m[i] && b == m[i + 1];
      assert ChainPairs(m)[i] == (a, b);
    }
  }

  lemma {:induction false} RingPairsYield(r: RingReport, a: AccountId, b: AccountId)
    ensures (a, b) in RingPairs(r) <==> Yields(r, a, b)
  {
    var m := r.memberAccounts;
    match r.patternType
    case Cycle => CycleYields(m, a, b);
    case FanIn => FanInYields(m, a, b);
    case FanOut => FanOutYields(m, a, b);
    case _ => ChainYields(m, a, b);
  }



  /** Without sent edges, the reconstructed edges carry amount 0, never repeat
      a (from, to) pair, and hold exactly the pairs some ring yields: a cycle
      each member to the next and the last back to the first, a fan-in every
      later member to the first, a fan-out the first to every later member,
      and any other ring, large-transaction rings included, a chain. */
  lemma {:induction false} EdgesReconstructed(raw: Raw)
    requires |RawEdges(raw)| == 0
    ensures var rings, out := RawRings(raw), NormalizedOf(raw).edges;
      && (forall i | 0 <= i < |out| :: out[i].from.Some? && out[i].to.Some? && out[i].amount == 0.0)
      && (forall i, j | 0 <= i < j < |out| :: (out[i].from, out[i].to) != (out[j].from, out[j].to))
      && (forall a, b :: EdgeView(Some(a), Some(b), 0.0) in out <==> exists k | 0 <= k < |rings| :: Yields(rings[k], a, b))
  {
    var rings := RawRings(raw);
    var pairs := Dedup(AllPairs(rings));
    var out := Map(pairs, PairEdge);
    MapOk(pairs, PairEdge);
    forall i, j | 0 <= i < j < |out| ensures (out[i].from, out[i].to) != (out[j].from, out[j].to) {
      assert pairs[i] != pairs[j];
    }
    forall a, b ensures EdgeView(Some(a), Some(b), 0.0) in out <==> exists k | 0 <= k < |rings| :: Yields(rings[k], a, b) {
      MapMember(pairs, PairEdge, EdgeView(Some(a), Some(b), 0.0));
      FlatMapMember(rings, RingPairs, (a, b));
      if exists k | 0 <= k < |rings| :: Yields(rings[k], a, b) {
        var k :| 0 <= k < |rings| && Yields(rings[k], a, b);
        RingPairsYield(rings[k], a, b);
      }
      if exists k | 0 <= k < |rings| :: (a, b) in RingPairs(rings[k]) {
        var k :| 0 <= k < |rings| && (a, b) in RingPairs(rings[k]);
        RingPairsYield(rings[k], a, b);
      }
    }
  }

  /** On the output stage's own response, whose edges carry `source` and
      `target` but neither `sender_id`/`from` nor `receiver_id`/`to`, every
      edge of a non-empty edge list loses both endpoints and keeps only its
      amount. */
  lemma {:induction false} BackendEdgesUnread(r: Report)
    requires |r.graphEdges| > 0
    ensures var out := NormalizedOf(RawOf(r)).edges;
      && |out| == |r.graphEdges|
      && forall i | 0 <= i < |out| :: out[i] == EdgeView(None, None, r.graphEdges[i].amount)
  {
    MapOk(r.graphEdges, EdgeJson);
    MapOk(Map(r.graphEdges, EdgeJson), EdgeViewOf);
  }

  /** Analysis of a non-empty transaction list sends one edge per
      transaction, so the view never reconstructs edges, and every edge it
      draws has neither endpoint. */
  lemma {:induction false} AnalysisEdgesUnread(txs: seq<Transaction>, largeBase: nat, processingTime: real)
    requires txs != []
    ensures AnalysisService.Analysis(txs, largeBase, processingTime).Success?
    ensures var out := NormalizedOf(RawOf(AnalysisService.Analysis(txs, largeBase, processingTime).value)).edges;
      |out| == |txs| && forall i | 0 <= i < |out| :: out[i].from == None && out[i].to == None
  {
    var g := AnalysisService.BuiltGraph(txs);
    AnalysisService.BuiltGraphOk(txs);
    var d := AnalysisService.DetectionsOf(g, largeBase);
    var r := AnalysisService.ReportFor(g.nodes, g.order, g.edges, d, processingTime);
    ReportCounts(g.nodes, g.order, AnalysisService.AllRings(d), d, processingTime, g.edges);
    MapOk(txs, GraphBuilder.EdgeOf);
    BackendEdgesUnread(r);
  }

  /** The other fields: the colours of `RingColors`, `summary` passed through
      or `{}`, and the response itself as `rawJson`. */
  lemma {:induction false} PassedThrough(raw: Raw)
    ensures NormalizedOf(raw).summary == raw.summary
    ensures NormalizedOf(raw).rawJson == raw
    ensures forall id :: id in NormalizedOf(raw).ringColorMap <==> exists i | 0 <= i < |RawRings(raw)| :: RawRings(raw)[i].ringId == id
  {
    RingColors(RawRings(raw));
  }
}
