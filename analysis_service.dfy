/** `AnalysisService.analyze`: rejects an empty transaction list, builds the
    graph, runs the four detectors, concatenates their rings and hands
    everything to the output stage. Parsing and timing are outside the model:
    the transactions arrive parsed and the processing time is a parameter. */
module AnalysisService {
  import opened Seqs
  import opened Types
  import opened ScoringService
  import GraphBuilder
  import CycleDetector
  import SmurfingDetector
  import ShellDetector
  import LargeTransactionDetector

  /** The message of the error thrown for an empty transaction list. */
  const NO_TRANSACTIONS := "CSV contains no valid transactions"

  /** The graph `GraphBuilder.build(transactions)` returns. */
  function BuiltGraph(txs: seq<Transaction>): Graph {
    Graph(GraphBuilder.Accounts(txs, |txs|), GraphBuilder.NodesAfter(txs, |txs|), GraphBuilder.AdjAfter(txs, |txs|),
          Map(txs, GraphBuilder.EdgeOf))
  }

  /** The built graph is valid and its node table holds one node per party. */
  lemma {:induction false} BuiltGraphOk(txs: seq<Transaction>)
    ensures GraphValid(BuiltGraph(txs))
    ensures BuiltGraph(txs).nodes.Keys == GraphBuilder.Parties(txs, |txs|)
  {
    var g := BuiltGraph(txs);
    GraphBuilder.NodesAfterMatch(txs, |txs|);
    GraphBuilder.AdjAfterMatch(txs, |txs|);
    MapOk(txs, GraphBuilder.EdgeOf);
    GraphBuilder.BuiltValid(txs, g);
  }

  /** `build` computes `BuiltGraph`: its contract determines the graph. */
  lemma {:induction false} BuildIsBuiltGraph(txs: seq<Transaction>, g: Graph)
    requires g.order == GraphBuilder.Accounts(txs, |txs|)
    requires GraphBuilder.NodesMatch(txs, |txs|, g.nodes) && GraphBuilder.AdjMatch(txs, |txs|, g.adj)
    requires |g.edges| == |txs| && forall i | 0 <= i < |txs| :: g.edges[i] == GraphBuilder.EdgeOf(txs[i])
    ensures g == BuiltGraph(txs)
  {
    GraphBuilder.NodesDetermined(txs, |txs|, g.nodes);
    GraphBuilder.AdjDetermined(txs, |txs|, g.adj);
    MapOk(txs, GraphBuilder.EdgeOf);
    assert g.edges == Map(txs, GraphBuilder.EdgeOf);
  }

  /** The four detectors' rings on graph `g`, with the large-transaction
      counter standing at `largeBase`. */
  function DetectionsOf(g: Graph, largeBase: nat): Detections
    requires forall a | a in g.order :: a in g.nodes
  {
    Detections(
      CycleDetector.Detected(g.adj, g.order, |g.order|),
      SmurfingDetector.Detected(g.order, g.edges, |g.order|),
      ShellDetector.Detected(g.adj, g.nodes, g.order, |g.order|),
      LargeTransactionDetector.LargeRings(g.edges, largeBase))
  }

  /** `allRings`: cycle, smurfing, shell and large-transaction rings, in that order. */
  function AllRings(d: Detections): seq<Ring> {
    d.cycle + d.smurf + d.shell + d.large
  }

  /** `formatOutput` on a graph's node table, node order and edges, with
      detections `d`. */
  function ReportFor(nodes: map<AccountId, AccountNode>, order: seq<AccountId>, edges: seq<Edge>,
                     d: Detections, processingTime: real): Report
    requires forall a | a in order :: a in nodes
  {
    FormatOutput(nodes, order, AllRings(d), d, processingTime, edges)
  }

  /** The report of graph `g` when the large-transaction counter stands at
      `largeBase`. */
  function ReportOf(g: Graph, largeBase: nat, processingTime: real): Report
    requires forall a | a in g.order :: a in g.nodes
  {
    ReportFor(g.nodes, g.order, g.edges, DetectionsOf(g, largeBase), processingTime)
  }

  /** What `analyze` returns, or the error it throws, when the
      large-transaction counter stands at `largeBase`. */
  function Analysis(txs: seq<Transaction>, largeBase: nat, processingTime: real): Result<Report> {
    if txs == [] then Failure(NO_TRANSACTIONS)
    else
      BuiltGraphOk(txs);
      Success(ReportOf(BuiltGraph(txs), largeBase, processingTime))
  }

  /** `AnalysisService.analyze`, given the transactions `CSVParser.parse`
      returned, the process's large-transaction detector and the processing
      time. An empty list leaves the counter alone; otherwise the counter
      moves on by one per transaction of at least 3000. */
  method Analyze(txs: seq<Transaction>, largeDetector: LargeTransactionDetector.Detector, processingTime: real)
    returns (result: Result<Report>)
    modifies largeDetector
    ensures result == Analysis(txs, old(largeDetector.ringCounter), processingTime)
    ensures largeDetector.ringCounter == old(largeDetector.ringCounter)
      + if txs == [] then 0 else |LargeTransactionDetector.LargeEdges(BuiltGraph(txs).edges)|
  {
    if |txs| == 0 {
      return Failure(NO_TRANSACTIONS);
    }
    var g := GraphBuilder.Build(txs);
    BuildIsBuiltGraph(txs, g);
    var cycleRings := CycleDetector.Detect(g.adj, g.order);
    var smurfRings := SmurfingDetector.Detect(g.order, g.edges);
    var shellRings := ShellDetector.Detect(g.adj, g.nodes, g.order);
    var largeRings := largeDetector.Detect(g.edges);
    LargeTransactionDetector.LargeRingsOk(g.edges, old(largeDetector.ringCounter));
    var allRings := cycleRings + smurfRings + shellRings + largeRings;
    var d := Detections(cycleRings, smurfRings, shellRings, largeRings);
    result := Success(FormatOutput(g.nodes, g.order, allRings, d, processingTime, g.edges));
  }

  // ---------------------------------------------------------------------------
  // What the detectors' rings satisfy on a valid graph
  // ---------------------------------------------------------------------------

  /** A ring as its detector reports it: of the detector's prefix, of the
      shape the risk formula ranks between 83 and 95, and never `RING_000`. */
  predicate Reportable(r: Ring, p: Prefix) {
    r.id.prefix == p && r.id != NO_RING && DetectorShaped(r)
  }

  /** What the four detectors guarantee of their rings on a graph with node
      table `nodes`: every member is a node, and each list holds rings of its
      detector's kind. */
  ghost predicate DetectionsOk(nodes: map<AccountId, AccountNode>, d: Detections) {
    && MembersAreNodes(nodes, d.cycle) && MembersAreNodes(nodes, d.smurf)
    && MembersAreNodes(nodes, d.shell) && MembersAreNodes(nodes, d.large)
    && (forall i | 0 <= i < |d.cycle| :: d.cycle[i].CycleRing? && Reportable(d.cycle[i], CyclePrefix))
    && (forall i | 0 <= i < |d.smurf| :: (d.smurf[i].FanInRing? || d.smurf[i].FanOutRing?) && Reportable(d.smurf[i], SmurfPrefix))
    && (forall i | 0 <= i < |d.shell| :: d.shell[i].ShellRing? && Reportable(d.shell[i], ShellPrefix))
    && (forall i | 0 <= i < |d.large| :: d.large[i].LargeRing? && Reportable(d.large[i], LargePrefix))
  }

  /** `CycleDetector.detect` on a valid graph: cycle rings of three to five
      nodes, numbered from `RING_001`. */
  lemma {:induction false} CycleFacts(g: Graph)
    requires GraphValid(g)
    ensures var rs := CycleDetector.Detected(g.adj, g.order, |g.order|);
      && MembersAreNodes(g.nodes, rs)
      && forall i | 0 <= i < |rs| :: rs[i].CycleRing? && Reportable(rs[i], CyclePrefix)
  {
    var rs := CycleDetector.Detected(g.adj, g.order, |g.order|);
    CycleDetector.DetectedOk(g.adj, g.order, |g.order|);
    CycleDetector.CycleMembersAreNodes(g, rs);
    forall i | 0 <= i < |rs| ensures rs[i].CycleRing? && Reportable(rs[i], CyclePrefix) {
      assert CycleDetector.IsCycle(g.adj, rs[i]);
      assert rs[i].id == RingId(CyclePrefix, 1 + i);
    }
  }

  /** `SmurfingDetector.detect` on a valid graph: fan-in and fan-out rings of
      at least four members, numbered from `RING_S1000`. */
  lemma {:induction false} SmurfFacts(g: Graph)
    requires GraphValid(g)
    ensures var rs := SmurfingDetector.Detected(g.order, g.edges, |g.order|);
      && MembersAreNodes(g.nodes, rs)
      && forall i | 0 <= i < |rs| :: (rs[i].FanInRing? || rs[i].FanOutRing?) && Reportable(rs[i], SmurfPrefix)
  {
    SmurfingDetector.DetectedOk(g.order, g.edges, |g.order|);
    SmurfListFacts(g, SmurfingDetector.Detected(g.order, g.edges, |g.order|));
  }

  lemma {:induction false} SmurfListFacts(g: Graph, rs: seq<Ring>)
    requires GraphValid(g) && SmurfingDetector.RingsOk(g.edges, rs)
    ensures MembersAreNodes(g.nodes, rs)
    ensures forall i | 0 <= i < |rs| :: (rs[i].FanInRing? || rs[i].FanOutRing?) && Reportable(rs[i], SmurfPrefix)
  {
    SmurfingDetector.SmurfMembersAreNodes(g, rs);
    SmurfingDetector.RingsShaped(g.edges, rs);
  }

  /** `ShellDetector.detect` on a valid graph: shell chains, numbered from
      `RING_L2000`. */
  lemma {:induction false} ShellFacts(g: Graph)
    requires GraphValid(g)
    ensures var rs := ShellDetector.Detected(g.adj, g.nodes, g.order, |g.order|);
      && MembersAreNodes(g.nodes, rs)
      && forall i | 0 <= i < |rs| :: rs[i].ShellRing? && Reportable(rs[i], ShellPrefix)
  {
    var rs := ShellDetector.Detected(g.adj, g.nodes, g.order, |g.order|);
    ShellDetector.DetectedOk(g.adj, g.nodes, g.order, |g.order|);
    ShellDetector.ShellMembersAreNodes(g, rs);
    forall i | 0 <= i < |rs| ensures rs[i].ShellRing? && Reportable(rs[i], ShellPrefix) {
      assert ShellDetector.IsShellRing(g.adj, g.nodes, rs[i]);
      assert rs[i].id == RingId(ShellPrefix, ShellDetector.RING_BASE + i);
    }
  }

  /** `LargeTransactionDetector.detect` on a valid graph: rings of
      transactions of at least 3000, numbered from the counter. */
  lemma {:induction false} LargeFacts(g: Graph, base: nat)
    requires GraphValid(g)
    ensures var rs := LargeTransactionDetector.LargeRings(g.edges, base);
      && MembersAreNodes(g.nodes, rs)
      && forall i | 0 <= i < |rs| :: rs[i].LargeRing? && Reportable(rs[i], LargePrefix)
  {
    var rs := LargeTransactionDetector.LargeRings(g.edges, base);
    LargeTransactionDetector.LargeMembersAreNodes(g, base);
    LargeTransactionDetector.LargeRingsOk(g.edges, base);
    forall i | 0 <= i < |rs| ensures rs[i].LargeRing? && Reportable(rs[i], LargePrefix) {
      var e := LargeTransactionDetector.LargeEdges(g.edges)[i];
      assert e in LargeTransactionDetector.LargeEdges(g.edges);
    }
  }

  /** The rings of all four detectors on a valid graph meet `DetectionsOk`. */
  lemma {:induction false} DetectionsOfOk(g: Graph, base: nat)
    requires GraphValid(g)
    ensures DetectionsOk(g.nodes, DetectionsOf(g, base))
  {
    CycleFacts(g);
    SmurfFacts(g);
    ShellFacts(g);
    LargeFacts(g, base);
  }

  /** Every ring of the concatenation comes from one of the four lists, so it
      has its members among the nodes, is never `RING_000` and has a detector's
      shape. */
  lemma {:induction false} AllRingsOk(nodes: map<AccountId, AccountNode>, d: Detections)
    requires DetectionsOk(nodes, d)
    ensures MembersAreNodes(nodes, AllRings(d))
    ensures forall r | r in AllRings(d) :: r.id != NO_RING && DetectorShaped(r)
  {
    var all := AllRings(d);
    var c, s, h := |d.cycle|, |d.cycle| + |d.smurf|, |d.cycle| + |d.smurf| + |d.shell|;
    forall i | 0 <= i < |all|
      ensures (forall a | a in all[i].members :: a in nodes) && all[i].id != NO_RING && DetectorShaped(all[i])
    {
      if i < c {
        assert all[i] == d.cycle[i];
      } else if i < s {
        assert all[i] == d.smurf[i - c];
      } else if i < h {
        assert all[i] == d.shell[i - s];
      } else {
        assert all[i] == d.large[i - h];
      }
    }
  }

  // ---------------------------------------------------------------------------
  // What the report satisfies
  // ---------------------------------------------------------------------------

  /** An empty list is rejected with the error and nothing else is. */
  lemma {:induction false} EmptyRejected(txs: seq<Transaction>, largeBase: nat, processingTime: real)
    ensures Analysis(txs, largeBase, processingTime).Failure? <==> txs == []
    ensures txs == [] ==> Analysis(txs, largeBase, processingTime).error == NO_TRANSACTIONS
  {
  }

  /** The summary counts the accounts of the graph and the rings of the four
      detectors together. */
  lemma {:induction false} SummaryCounts(nodes: map<AccountId, AccountNode>, order: seq<AccountId>, edges: seq<Edge>,
                                         d: Detections, processingTime: real)
    requires forall a | a in order :: a in nodes
    ensures var out := ReportFor(nodes, order, edges, d, processingTime);
      && out.summary.totalAccountsAnalyzed == |nodes|
      && out.summary.fraudRingsDetected == |d.cycle| + |d.smurf| + |d.shell| + |d.large|
      && out.summary.suspiciousAccountsFlagged == |out.suspiciousAccounts|
  {
    ReportCounts(nodes, order, AllRings(d), d, processingTime, edges);
  }

  /** On the graph of a transaction list, the accounts counted are the distinct
      senders and receivers. */
  lemma {:induction false} AccountsAnalyzed(txs: seq<Transaction>, largeBase: nat, processingTime: real)
    requires txs != []
    ensures Analysis(txs, largeBase, processingTime).Success?
    ensures Analysis(txs, largeBase, processingTime).value.summary.totalAccountsAnalyzed
      == |GraphBuilder.Parties(txs, |txs|)|
  {
    var g := BuiltGraph(txs);
    BuiltGraphOk(txs);
    SummaryCounts(g.nodes, g.order, g.edges, DetectionsOf(g, largeBase), processingTime);
    assert |g.nodes| == |g.nodes.Keys|;
  }

  /** The rings' records keep the order of the four lists: cycle, smurfing,
      shell, large-transaction. */
  lemma {:induction false} RingKinds(d: Detections)
    requires forall i | 0 <= i < |d.cycle| :: d.cycle[i].CycleRing?
    requires forall i | 0 <= i < |d.smurf| :: d.smurf[i].FanInRing? || d.smurf[i].FanOutRing?
    requires forall i | 0 <= i < |d.shell| :: d.shell[i].ShellRing?
    requires forall i | 0 <= i < |d.large| :: d.large[i].LargeRing?
    ensures var rings := FraudRings(AllRings(d));
            var c, s, h := |d.cycle|, |d.cycle| + |d.smurf|, |d.cycle| + |d.smurf| + |d.shell|;
      && |rings| == h + |d.large|
      && (forall i | 0 <= i < c :: rings[i].patternType == Cycle)
      && (forall i | c <= i < s :: rings[i].patternType == FanIn || rings[i].patternType == FanOut)
      && (forall i | s <= i < h :: rings[i].patternType == LayeredShell)
      && (forall i | h <= i < |rings| :: rings[i].patternType == LargeTransaction)
  {
    var all := AllRings(d);
    MapOk(all, RingReportOf);
    var c, s, h := |d.cycle|, |d.cycle| + |d.smurf|, |d.cycle| + |d.smurf| + |d.shell|;
    forall i | 0 <= i < c ensures all[i].CycleRing? {
      assert all[i] == d.cycle[i];
    }
    forall i | c <= i < s ensures all[i].FanInRing? || all[i].FanOutRing? {
      assert all[i] == d.smurf[i - c];
    }
    forall i | s <= i < h ensures all[i].ShellRing? {
      assert all[i] == d.shell[i - s];
    }
    forall i | h <= i < |all| ensures all[i].LargeRing? {
      assert all[i] == d.large[i - h];
    }
  }

  /** `fraud_rings` lists the cycle rings, then the smurfing rings, then the
      shell rings, then the large-transaction rings. */
  lemma {:induction false} RingsInDetectorOrder(nodes: map<AccountId, AccountNode>, order: seq<AccountId>, edges: seq<Edge>,
                                                d: Detections, processingTime: real)
    requires forall a | a in order :: a in nodes
    requires DetectionsOk(nodes, d)
    ensures var out := ReportFor(nodes, order, edges, d, processingTime);
            var c, s, h := |d.cycle|, |d.cycle| + |d.smurf|, |d.cycle| + |d.smurf| + |d.shell|;
      && |out.fraudRings| == h + |d.large|
      && (forall i | 0 <= i < c :: out.fraudRings[i].patternType == Cycle)
      && (forall i | c <= i < s :: out.fraudRings[i].patternType == FanIn || out.fraudRings[i].patternType == FanOut)
      && (forall i | s <= i < h :: out.fraudRings[i].patternType == LayeredShell)
      && (forall i | h <= i < |out.fraudRings| :: out.fraudRings[i].patternType == LargeTransaction)
  {
    RingKinds(d);
  }

  /** Every member of every ring record is a node. */
  lemma {:induction false} RingMembersAreNodes(nodes: map<AccountId, AccountNode>, d: Detections)
    requires MembersAreNodes(nodes, AllRings(d))
    ensures forall f, a | f in FraudRings(AllRings(d)) && a in f.memberAccounts :: a in nodes
  {
    var all := AllRings(d);
    var rings := FraudRings(all);
    MapOk(all, RingReportOf);
    forall f, a | f in rings && a in f.memberAccounts ensures a in nodes {
      var j :| 0 <= j < |rings| && rings[j] == f;
      assert f == RingReportOf(all[j]);
      assert a in all[j].members;
    }
  }

  /** Every member of every reported ring is a node of the graph, and
      `graph_data.nodes` lists every node, in insertion order. */
  lemma {:induction false} MembersAreGraphNodes(nodes: map<AccountId, AccountNode>, order: seq<AccountId>, edges: seq<Edge>,
                                                d: Detections, processingTime: real)
    requires forall a :: a in nodes <==> a in order
    requires forall a | a in nodes :: nodes[a].id == a
    requires DetectionsOk(nodes, d)
    ensures var out := ReportFor(nodes, order, edges, d, processingTime);
      && (forall f, a | f in out.fraudRings && a in f.memberAccounts :: a in nodes && a in order)
      && |out.graphNodes| == |order|
      && (forall k | 0 <= k < |order| :: out.graphNodes[k].id == order[k])
  {
    AllRingsOk(nodes, d);
    RingMembersAreNodes(nodes, d);
    NodeReportsOk(nodes, order);
  }

  /** On the graph of a transaction list, every member of every reported ring
      sends or receives one of the transactions. */
  lemma {:induction false} MembersAreParties(txs: seq<Transaction>, largeBase: nat, processingTime: real)
    requires txs != []
    ensures Analysis(txs, largeBase, processingTime).Success?
    ensures forall f, a | f in Analysis(txs, largeBase, processingTime).value.fraudRings && a in f.memberAccounts ::
      exists i | 0 <= i < |txs| :: txs[i].sender == a || txs[i].receiver == a
  {
    var g := BuiltGraph(txs);
    BuiltGraphOk(txs);
    var d := DetectionsOf(g, largeBase);
    DetectionsOfOk(g, largeBase);
    MembersAreGraphNodes(g.nodes, g.order, g.edges, d, processingTime);
    forall f, a | f in ReportFor(g.nodes, g.order, g.edges, d, processingTime).fraudRings && a in f.memberAccounts
      ensures exists i | 0 <= i < |txs| :: txs[i].sender == a || txs[i].receiver == a
    {
      GraphBuilder.PartiesExactly(txs, |txs|, a);
    }
  }

  /** Every listed account has a primary ring among the detected rings, so the
      `RING_000` fallback never reaches the report, and every fraud ring's
      risk score lies between 83 and 95. */
  lemma {:induction false} NoFallbackRing(nodes: map<AccountId, AccountNode>, order: seq<AccountId>, edges: seq<Edge>,
                                          d: Detections, processingTime: real)
    requires forall a | a in order :: a in nodes
    requires DetectionsOk(nodes, d)
    ensures var out := ReportFor(nodes, order, edges, d, processingTime);
      && (forall a | a in out.suspiciousAccounts :: a.ringId != NO_RING)
      && (forall f | f in out.fraudRings :: 83.0 <= f.riskScore <= 95.0)
  {
    var all := AllRings(d);
    var accounts, rings := SuspiciousAccounts(nodes, all, d), FraudRings(all);
    AllRingsOk(nodes, d);
    SuspiciousEntries(nodes, all, d);
    forall a | a in accounts ensures a.ringId != NO_RING {
      PrimaryRingOk(all, a.accountId);
    }
    FraudRingsOk(all);
    forall f | f in rings ensures 83.0 <= f.riskScore <= 95.0 {
      var j :| 0 <= j < |rings| && rings[j] == f;
      assert all[j] in all;
      DetectorRiskRange(all[j]);
    }
  }

  /** A second analysis of the same graph, with the counter moved on by the
      first, reruns the cycle, smurfing and shell detectors to the same rings
      and numbers each large-transaction ring as many places further on as
      the first call reported such rings. */
  lemma {:induction false} RepeatedDetections(g: Graph, largeBase: nat)
    requires forall a | a in g.order :: a in g.nodes
    ensures var first := DetectionsOf(g, largeBase);
            var m := |first.large|;
            var second := DetectionsOf(g, largeBase + m);
      && m == |LargeTransactionDetector.LargeEdges(g.edges)|
      && second.cycle == first.cycle && second.smurf == first.smurf && second.shell == first.shell
      && |second.large| == m
      && forall i | 0 <= i < m :: second.large[i].id == RingId(LargePrefix, first.large[i].id.counter + m)
  {
    LargeTransactionDetector.LargeRingsOk(g.edges, largeBase);
    LargeTransactionDetector.NumberingCarriesOver(g.edges, largeBase);
  }

  /** Ring records of two detection results that differ only in the
      numbering of their large-transaction rings. */
  lemma {:induction false} RepeatedRings(first: Detections, second: Detections, m: nat)
    requires second.cycle == first.cycle && second.smurf == first.smurf && second.shell == first.shell
    requires |first.large| == |second.large|
    requires forall i | 0 <= i < |first.large| :: second.large[i].id == RingId(LargePrefix, first.large[i].id.counter + m)
    ensures var r1, r2 := FraudRings(AllRings(first)), FraudRings(AllRings(second));
            var h := |first.cycle| + |first.smurf| + |first.shell|;
      && |r1| == |r2| == h + |first.large|
      && (forall i | 0 <= i < h :: r2[i] == r1[i])
      && (forall i | h <= i < |r1| :: r2[i].ringId == RingId(LargePrefix, r1[i].ringId.counter + m))
  {
    var a1, a2 := AllRings(first), AllRings(second);
    MapOk(a1, RingReportOf);
    MapOk(a2, RingReportOf);
    var h := |first.cycle| + |first.smurf| + |first.shell|;
    forall i | 0 <= i < h ensures a2[i] == a1[i] {
    }
    forall i | h <= i < |a1| ensures a2[i].id == RingId(LargePrefix, a1[i].id.counter + m) {
      assert a1[i] == first.large[i - h] && a2[i] == second.large[i - h];
    }
  }

  /** Reports of two detection results that differ only in the numbering of
      their large-transaction rings: the fraud rings agree up to the large
      ones, whose ids are shifted. */
  lemma {:induction false} RepeatedReport(nodes: map<AccountId, AccountNode>, order: seq<AccountId>, edges: seq<Edge>,
                                          first: Detections, second: Detections, m: nat, t1: real, t2: real)
    requires forall a | a in order :: a in nodes
    requires second.cycle == first.cycle && second.smurf == first.smurf && second.shell == first.shell
    requires |first.large| == |second.large|
    requires forall i | 0 <= i < |first.large| :: second.large[i].id == RingId(LargePrefix, first.large[i].id.counter + m)
    ensures var r1, r2 := ReportFor(nodes, order, edges, first, t1).fraudRings, ReportFor(nodes, order, edges, second, t2).fraudRings;
            var h := |first.cycle| + |first.smurf| + |first.shell|;
      && |r1| == |r2| == h + |first.large|
      && (forall i | 0 <= i < h :: r2[i] == r1[i])
      && (forall i | h <= i < |r1| :: r2[i].ringId == RingId(LargePrefix, r1[i].ringId.counter + m))
  {
    RepeatedRings(first, second, m);
  }

  /** On the graph of a transaction list, no listed account falls back to
      `RING_000` and every fraud ring's risk score lies between 83 and 95. */
  lemma {:induction false} NoFallbackOnTransactions(txs: seq<Transaction>, largeBase: nat, processingTime: real)
    requires txs != []
    ensures Analysis(txs, largeBase, processingTime).Success?
    ensures var out := Analysis(txs, largeBase, processingTime).value;
      && (forall a | a in out.suspiciousAccounts :: a.ringId != NO_RING)
      && (forall f | f in out.fraudRings :: 83.0 <= f.riskScore <= 95.0)
  {
    var g := BuiltGraph(txs);
    BuiltGraphOk(txs);
    DetectionsOfOk(g, largeBase);
    NoFallbackRing(g.nodes, g.order, g.edges, DetectionsOf(g, largeBase), processingTime);
  }
}
