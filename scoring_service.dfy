/** `ScoringService`: the suspicion score and pattern tags of an account, the
    risk score of a ring, the choice of an account's primary ring, and the
    report `formatOutput` assembles from the graph and the detected rings. */
module ScoringService {
  import opened Seqs
  import opened Types

  /** A `detected_patterns` entry: `cycle_length_<n>` (with `undefined` for a
      ring that has no `cycle_length`), a ring's `pattern_type`, or
      `high_velocity`. */
  datatype Tag = CycleLengthTag(length: Option<nat>) | PatternTag(pattern: Pattern) | HighVelocity

  /** The four detectors' ring lists, as `scoreNode` and `formatOutput` take them. */
  datatype Detections = Detections(cycle: seq<Ring>, smurf: seq<Ring>, shell: seq<Ring>, large: seq<Ring>)

  /** `PATTERN_PRIORITY`. */
  function Priority(p: Pattern): nat {
    match p
    case Cycle => 3
    case FanIn => 2
    case FanOut => 2
    case LayeredShell => 1
    case LargeTransaction => 0
  }

  /** `r.cycle_length`, undefined on rings other than cycles. */
  function CycleLengthOf(r: Ring): Option<nat> {
    if r.CycleRing? then Some(r.cycleLength) else None
  }

  /** `rings.filter(r => r.members.includes(id))`. */
  function Containing(rings: seq<Ring>, id: AccountId): seq<Ring> {
    Filter(rings, (r: Ring) => id in r.members)
  }

  /** `rings.some(r => r.members.includes(id))`. */
  predicate InAny(rings: seq<Ring>, id: AccountId) {
    exists i | 0 <= i < |rings| :: id in rings[i].members
  }

  /** `node && node.sentCount + node.receivedCount > 20`. */
  predicate HighVelocityNode(nodes: map<AccountId, AccountNode>, id: AccountId) {
    id in nodes && Activity(nodes[id]) > 20
  }

  // ---------------------------------------------------------------------------
  // `scoreNode`
  // ---------------------------------------------------------------------------

  /** The uncapped sum of the category weights. */
  function Weight(id: AccountId, nodes: map<AccountId, AccountNode>, d: Detections): nat {
    (if InAny(d.cycle, id) then 40 else 0)
    + (if InAny(d.smurf, id) then 30 else 0)
    + (if InAny(d.shell, id) then 20 else 0)
    + (if InAny(d.large, id) then 10 else 0)
    + (if HighVelocityNode(nodes, id) then 10 else 0)
  }

  /** The suspicion score: the weights of the categories the account falls in,
      capped at 100. */
  function NodeScore(id: AccountId, nodes: map<AccountId, AccountNode>, d: Detections): nat {
    if Weight(id, nodes, d) < 100 then Weight(id, nodes, d) else 100
  }

  /** The `cycle_length_<n>` tag of a ring. */
  function CycleTagOf(r: Ring): Tag {
    CycleLengthTag(CycleLengthOf(r))
  }

  /** The `pattern_type` tag of a ring. */
  function PatternTagOf(r: Ring): Tag {
    PatternTag(r.PatternType())
  }

  /** The tags in the order `scoreNode` pushes them, repetitions included. */
  function RawPatterns(id: AccountId, nodes: map<AccountId, AccountNode>, d: Detections): seq<Tag> {
    Map(Containing(d.cycle, id), CycleTagOf)
    + Map(Containing(d.smurf, id), PatternTagOf)
    + (if InAny(d.shell, id) then [PatternTag(LayeredShell)] else [])
    + (if InAny(d.large, id) then [PatternTag(LargeTransaction)] else [])
    + (if HighVelocityNode(nodes, id) then [HighVelocity] else [])
  }

  /** `[...new Set(patterns)]`. */
  function NodePatterns(id: AccountId, nodes: map<AccountId, AccountNode>, d: Detections): seq<Tag> {
    Dedup(RawPatterns(id, nodes, d))
  }

  /** A ring list has a ring containing `id` exactly when filtering it for
      `id` leaves something. */
  lemma {:induction false} ContainingNonEmpty(rings: seq<Ring>, id: AccountId)
    ensures |Containing(rings, id)| > 0 <==> InAny(rings, id)
  {
    var c := Containing(rings, id);
    if InAny(rings, id) {
      var i :| 0 <= i < |rings| && id in rings[i].members;
      assert rings[i] in rings;
      assert rings[i] in c;
    }
    if |c| > 0 {
      assert c[0] in c;
    }
  }

  /** `rings.forEach(r => patterns.push(tag(r)))`. */
  method PushTags(patterns: seq<Tag>, rings: seq<Ring>, tag: Ring -> Tag) returns (ps: seq<Tag>)
    ensures ps == patterns + Map(rings, tag)
  {
    ps := patterns;
    for i := 0 to |rings|
      invariant ps == patterns + Map(rings[..i], tag)
    {
      assert rings[..i + 1][..i] == rings[..i];
      ps := ps + [tag(rings[i])];
    }
    assert rings[..|rings|] == rings;
  }

  /** One category of `scoreNode` that is decided by a list of containing
      rings: when the list is non-empty, add `weight` and push one tag per ring. */
  method AddRings(score: nat, patterns: seq<Tag>, rings: seq<Ring>, weight: nat, tag: Ring -> Tag)
    returns (score': nat, patterns': seq<Tag>)
    ensures score' == score + if |rings| > 0 then weight else 0
    ensures patterns' == patterns + Map(rings, tag)
  {
    score', patterns' := score, patterns;
    if |rings| > 0 {
      score' := score' + weight;
      patterns' := PushTags(patterns', rings, tag);
    } else {
      assert Map(rings, tag) == [];
    }
  }

  /** One category of `scoreNode` that is decided by a condition: when it
      holds, add `weight` and push `tag`. */
  method AddFlag(score: nat, patterns: seq<Tag>, holds: bool, weight: nat, tag: Tag)
    returns (score': nat, patterns': seq<Tag>)
    ensures score' == score + if holds then weight else 0
    ensures patterns' == patterns + if holds then [tag] else []
  {
    score', patterns' := score, patterns;
    if holds {
      score' := score' + weight;
      patterns' := patterns' + [tag];
    }
  }

  /** `scoreNode(nodeId, nodes, cycleRings, smurfRings, shellRings,
      largeTransactionRings)`: adds each category's weight, pushes its tags,
      then caps the score and drops repeated tags. */
  method ScoreNode(nodeId: AccountId, nodes: map<AccountId, AccountNode>, d: Detections)
    returns (score: nat, patterns: seq<Tag>)
    ensures score == NodeScore(nodeId, nodes, d)
    ensures patterns == NodePatterns(nodeId, nodes, d)
  {
    score := 0;
    var ps: seq<Tag> := [];

    var inCycles := Containing(d.cycle, nodeId);
    ContainingNonEmpty(d.cycle, nodeId);
    score, ps := AddRings(score, ps, inCycles, 40, CycleTagOf);
    assert ps == Map(inCycles, CycleTagOf);

    var inSmurf := Containing(d.smurf, nodeId);
    ContainingNonEmpty(d.smurf, nodeId);
    score, ps := AddRings(score, ps, inSmurf, 30, PatternTagOf);

    var inShell := InAny(d.shell, nodeId);
    score, ps := AddFlag(score, ps, inShell, 20, PatternTag(LayeredShell));

    var inLarge := InAny(d.large, nodeId);
    score, ps := AddFlag(score, ps, inLarge, 10, PatternTag(LargeTransaction));

    var busy := HighVelocityNode(nodes, nodeId);
    score, ps := AddFlag(score, ps, busy, 10, HighVelocity);

    assert ps == RawPatterns(nodeId, nodes, d);
    assert score == Weight(nodeId, nodes, d);
    score := if score < 100 then score else 100;
    patterns := Dedup(ps);
  }

  /** The score never exceeds 100, and reaches it exactly for an account in a
      cycle, a smurfing ring and a shell chain that is also in a large
      transaction or has high velocity. */
  lemma {:induction false} ScoreCapped(id: AccountId, nodes: map<AccountId, AccountNode>, d: Detections)
    ensures NodeScore(id, nodes, d) <= 100
    ensures NodeScore(id, nodes, d) == 100 <==>
      InAny(d.cycle, id) && InAny(d.smurf, id) && InAny(d.shell, id) && (InAny(d.large, id) || HighVelocityNode(nodes, id))
  {
  }

  /** Joining more categories never lowers the score. */
  lemma {:induction false} ScoreMonotone(id: AccountId, nodes: map<AccountId, AccountNode>, d: Detections, d': Detections)
    requires InAny(d.cycle, id) ==> InAny(d'.cycle, id)
    requires InAny(d.smurf, id) ==> InAny(d'.smurf, id)
    requires InAny(d.shell, id) ==> InAny(d'.shell, id)
    requires InAny(d.large, id) ==> InAny(d'.large, id)
    ensures NodeScore(id, nodes, d) <= NodeScore(id, nodes, d')
  {
  }

  /** When tag `t` belongs to an account, independently of how `scoreNode`
      collects tags: a `cycle_length_<n>` tag when a cycle ring of that length
      contains it, a pattern tag when a smurfing ring of that pattern contains
      it (and `layered_shell` or `large_transaction` also when a shell or
      large-transaction ring does), and `high_velocity` for more than 20
      transactions. */
  predicate TagApplies(t: Tag, id: AccountId, nodes: map<AccountId, AccountNode>, d: Detections) {
    match t
    case CycleLengthTag(n) => exists r | r in d.cycle :: id in r.members && CycleLengthOf(r) == n
    case PatternTag(p) =>
      || (exists r | r in d.smurf :: id in r.members && r.PatternType() == p)
      || (p == LayeredShell && InAny(d.shell, id))
      || (p == LargeTransaction && InAny(d.large, id))
    case HighVelocity => HighVelocityNode(nodes, id)
  }

  /** The tags are free of repetitions, and a tag is present exactly when it
      applies. */
  lemma {:induction false} PatternsMeaning(id: AccountId, nodes: map<AccountId, AccountNode>, d: Detections, t: Tag)
    ensures Distinct(NodePatterns(id, nodes, d))
    ensures t in NodePatterns(id, nodes, d) <==> TagApplies(t, id, nodes, d)
  {
    var inCycles := Containing(d.cycle, id);
    var inSmurf := Containing(d.smurf, id);
    MapMember(inCycles, CycleTagOf, t);
    MapMember(inSmurf, PatternTagOf, t);
    assert t in RawPatterns(id, nodes, d) <==>
      || t in Map(inCycles, CycleTagOf)
      || t in Map(inSmurf, PatternTagOf)
      || (InAny(d.shell, id) && t == PatternTag(LayeredShell))
      || (InAny(d.large, id) && t == PatternTag(LargeTransaction))
      || (HighVelocityNode(nodes, id) && t == HighVelocity);
  }

  // ---------------------------------------------------------------------------
  // `_computeRiskScore`
  // ---------------------------------------------------------------------------

  /** `base`: 80 plus the bonus of the ring's pattern. `ring.cycle_length || 3`
      reads a length of 0 as 3, and `Math.floor` is the real floor. */
  function RiskBase(r: Ring): int {
    match r
    case CycleRing(_, _, len) =>
      var cl := if len == 0 then 3 else len;
      80 + (if 15 - cl * 2 > 0 then 15 - cl * 2 else 0) + 5
    case FanInRing(_, members, _, _) => 80 + (if |members| < 15 then |members| else 15)
    case FanOutRing(_, members, _) => 80 + (if |members| < 15 then |members| else 15)
    case ShellRing(_, _, _) => 80 + 10
    case LargeRing(_, _, amount, _, _) =>
      var k := (amount / 1000.0).Floor;
      80 + (if k < 10 then k else 10)
  }

  /** `_computeRiskScore(ring)`: `Math.min(base, 99.9)`, where `toFixed(1)`
      changes neither an integer nor 99.9. */
  function RiskScore(r: Ring): real {
    if (RiskBase(r) as real) < 99.9 then RiskBase(r) as real else 99.9
  }

  /** The base of any ring is at most 98, so the 99.9 cap never applies and
      the risk score is an integer. */
  lemma {:induction false} RiskNeverCapped(r: Ring)
    ensures RiskBase(r) <= 98
    ensures RiskScore(r) == RiskBase(r) as real
  {
  }

  /** The shapes the detectors produce: cycles of three to five accounts,
      smurfing rings of at least four members, shell chains, and
      transactions of at least 3000. */
  predicate DetectorShaped(r: Ring) {
    match r
    case CycleRing(_, _, len) => 3 <= len <= 5
    case FanInRing(_, members, _, _) => |members| >= 4
    case FanOutRing(_, members, _) => |members| >= 4
    case ShellRing(_, _, _) => true
    case LargeRing(_, _, amount, _, _) => amount >= 3000.0
  }

  /** For the rings the detectors produce the risk score lies between 83 and 95. */
  lemma {:induction false} DetectorRiskRange(r: Ring)
    requires DetectorShaped(r)
    ensures 83.0 <= RiskScore(r) <= 95.0
  {
    RiskNeverCapped(r);
    if r.LargeRing? {
      var x := r.amount / 1000.0;
      assert x >= 3.0;
      assert x.Floor >= 3 by {
        assert (3 as real) <= x;
      }
    }
  }

  // ---------------------------------------------------------------------------
  // Primary ring
  // ---------------------------------------------------------------------------

  /** `a` sorts before `b` under the comparator of `formatOutput`: a higher
      risk score, or an equal one and a higher pattern priority. */
  predicate Outranks(a: Ring, b: Ring) {
    || RiskScore(a) > RiskScore(b)
    || (RiskScore(a) == RiskScore(b) && Priority(a.PatternType()) > Priority(b.PatternType()))
  }

  /** An integer sort key equivalent to the comparator (see `KeyOrder`). */
  function PrimaryKey(r: Ring): int {
    -(4 * RiskBase(r) + Priority(r.PatternType()))
  }

  /** Ascending keys are exactly the comparator's order. */
  lemma {:induction false} KeyOrder(a: Ring, b: Ring)
    ensures PrimaryKey(a) < PrimaryKey(b) <==> Outranks(a, b)
  {
    RiskNeverCapped(a);
    RiskNeverCapped(b);
  }

  /** `nodeRings.sort(...)[0]`: absent when no ring contains the account. */
  function PrimaryRing(allRings: seq<Ring>, id: AccountId): Option<Ring> {
    var nodeRings := Containing(allRings, id);
    if nodeRings == [] then None else Some(SortBy(nodeRings, PrimaryKey)[0])
  }

  /** `primaryRing?.ring_id || 'RING_000'`. */
  function PrimaryRingId(allRings: seq<Ring>, id: AccountId): RingId {
    var p := PrimaryRing(allRings, id);
    if p.Some? then p.value.id else NO_RING
  }

  /** For an account in some ring, the primary ring is a ring containing it
      that no containing ring outranks, and the earliest such ring: every
      containing ring before it ranks strictly lower. */
  lemma {:induction false} PrimaryRingOk(allRings: seq<Ring>, id: AccountId)
    requires InAny(allRings, id)
    ensures PrimaryRing(allRings, id).Some?
    ensures PrimaryRing(allRings, id).value in allRings && id in PrimaryRing(allRings, id).value.members
    ensures forall r | r in Containing(allRings, id) :: !Outranks(r, PrimaryRing(allRings, id).value)
    ensures exists i | 0 <= i < |Containing(allRings, id)| ::
      && Containing(allRings, id)[i] == PrimaryRing(allRings, id).value
      && forall j | 0 <= j < i :: Outranks(PrimaryRing(allRings, id).value, Containing(allRings, id)[j])
  {
    var c := Containing(allRings, id);
    ContainingNonEmpty(allRings, id);
    var i := SortByHead(c, PrimaryKey);
    var p := c[i];
    assert c[i] in c;
    forall r | r in c ensures !Outranks(r, p) {
      var k :| 0 <= k < |c| && c[k] == r;
      KeyOrder(r, p);
    }
    forall j | 0 <= j < i ensures Outranks(p, c[j]) {
      KeyOrder(p, c[j]);
    }
  }

  /** A cycle of three to five accounts outranks a shell chain. */
  lemma {:induction false} CycleOutranksShell(c: Ring, s: Ring)
    requires c.CycleRing? && 3 <= c.cycleLength <= 5 && s.ShellRing?
    ensures Outranks(c, s)
  {
  }

  // ---------------------------------------------------------------------------
  // `formatOutput`
  // ---------------------------------------------------------------------------

  /** A `suspicious_accounts` entry; `parseFloat(score.toFixed(1))` leaves the
      integer score as it is. */
  datatype AccountReport = AccountReport(accountId: AccountId, suspicionScore: nat, detectedPatterns: seq<Tag>, ringId: RingId)

  /** A `fraud_rings` entry; an absent optional field is `None`. */
  datatype RingReport = RingReport(
    ringId: RingId,
    memberAccounts: seq<AccountId>,
    patternType: Pattern,
    riskScore: real,
    aggregator: Option<AccountId>,
    beneficiaries: Option<seq<AccountId>>,
    amount: Option<real>,
    timestamp: Option<Timestamp>)

  /** `summary`; `processing_time_seconds` is rounded to hundredths. */
  datatype Summary = Summary(
    totalAccountsAnalyzed: nat,
    suspiciousAccountsFlagged: nat,
    fraudRingsDetected: nat,
    processingTimeSeconds: real)

  /** A `graph.nodes` entry; the totals are rounded to hundredths. */
  datatype NodeReport = NodeReport(id: AccountId, sentCount: nat, receivedCount: nat, totalSent: real, totalReceived: real)

  /** A `graph.edges` entry; the amount is rounded to hundredths and
      `transaction_id` is always undefined. */
  datatype EdgeReport = EdgeReport(source: AccountId, target: AccountId, amount: real, timestamp: Timestamp, transactionId: Option<string>)

  datatype Report = Report(
    suspiciousAccounts: seq<AccountReport>,
    fraudRings: seq<RingReport>,
    summary: Summary,
    graphNodes: seq<NodeReport>,
    graphEdges: seq<EdgeReport>)

  /** `allRings.flatMap(r => r.members)`. */
  function MemberList(rings: seq<Ring>): seq<AccountId> {
    if rings == [] then [] else MemberList(rings[..|rings| - 1]) + rings[|rings| - 1].members
  }

  lemma {:induction false} MemberListMember(rings: seq<Ring>, id: AccountId)
    ensures id in MemberList(rings) <==> InAny(rings, id)
  {
    if rings != [] {
      var front := rings[..|rings| - 1];
      MemberListMember(front, id);
      if InAny(front, id) {
        var i :| 0 <= i < |front| && id in front[i].members;
        assert rings[i] == front[i];
      }
      if InAny(rings, id) && id !in rings[|rings| - 1].members {
        var i :| 0 <= i < |rings| && id in rings[i].members;
        assert front[i] == rings[i];
      }
    }
  }

  /** The entry `formatOutput` builds for account `id` before filtering. */
  function AccountOf(id: AccountId, nodes: map<AccountId, AccountNode>, allRings: seq<Ring>, d: Detections): AccountReport {
    AccountReport(id, NodeScore(id, nodes, d), NodePatterns(id, nodes, d), PrimaryRingId(allRings, id))
  }

  /** `[...allAccountIds].map(...)`. */
  function AccountsOf(ids: seq<AccountId>, nodes: map<AccountId, AccountNode>, allRings: seq<Ring>, d: Detections): seq<AccountReport> {
    Map(ids, id => AccountOf(id, nodes, allRings, d))
  }

  /** The filter of `formatOutput`: the patterns are not exactly `[large_transaction]`. */
  predicate Reported(a: AccountReport) {
    !(|a.detectedPatterns| == 1 && a.detectedPatterns[0] == PatternTag(LargeTransaction))
  }

  /** The key of `sort((a, b) => b.suspicion_score - a.suspicion_score)`. */
  function ScoreKey(a: AccountReport): int {
    -(a.suspicionScore as int)
  }

  /** `suspicious_accounts`. */
  function SuspiciousAccounts(nodes: map<AccountId, AccountNode>, allRings: seq<Ring>, d: Detections): seq<AccountReport> {
    SortBy(Filter(AccountsOf(Dedup(MemberList(allRings)), nodes, allRings, d), Reported), ScoreKey)
  }

  /** A `fraud_rings` entry: optional fields are copied only when truthy. An
      aggregator is an id, falsy only when empty; beneficiaries are an array,
      never falsy; an amount is falsy when 0; a timestamp is a non-empty date
      string, never falsy. */
  function RingReportOf(r: Ring): RingReport {
    RingReport(
      r.id, r.members, r.PatternType(), RiskScore(r),
      if r.FanInRing? && r.aggregator != "" then Some(r.aggregator) else None,
      if r.FanInRing? then Some(r.beneficiaries) else None,
      if r.LargeRing? && r.amount != 0.0 then Some(r.amount) else None,
      if r.LargeRing? then Some(r.timestamp) else None)
  }

  function FraudRings(rings: seq<Ring>): seq<RingReport> {
    Map(rings, RingReportOf)
  }

  /** `parseFloat(x.toFixed(2))` on an exact value: `toFixed` rounds the
      magnitude to the nearest hundredth, a tie going up, and puts the sign
      back. The result is a whole number of hundredths, within half a
      hundredth of `x`, a tie lying on the side away from zero. */
  function Hundredths(x: real): (r: real)
    ensures x >= 0.0 ==> x - 0.005 < r <= x + 0.005
    ensures x < 0.0 ==> x - 0.005 <= r < x + 0.005
    ensures (r * 100.0).Floor as real == r * 100.0
  {
    var cents := if x < 0.0 then -CentsUp(-x) else CentsUp(x);
    cents as real / 100.0
  }

  /** The magnitude rounding of `toFixed(2)`, in hundredths, for `y >= 0`. */
  function CentsUp(y: real): (k: int)
    ensures y * 100.0 - 0.5 < k as real <= y * 100.0 + 0.5
  {
    (y * 100.0 + 0.5).Floor
  }

  function Distance(x: real, y: real): real {
    if x <= y then y - x else x - y
  }

  /** No whole number of hundredths lies nearer to `x` than its rounding. */
  lemma {:induction false} HundredthsNearest(x: real, c: int)
    ensures Distance(Hundredths(x), x) <= Distance(c as real / 100.0, x)
  {
    var r := Hundredths(x);
    var k := (r * 100.0).Floor;
    assert r == k as real / 100.0;
    if k != c {
      assert Distance(k as real, c as real) >= 1.0;
    }
  }

  /** A value in whole hundredths is left as it is, so rounding twice is
      rounding once. */
  lemma {:induction false} HundredthsIdempotent(x: real)
    ensures Hundredths(Hundredths(x)) == Hundredths(x)
  {
    var r := Hundredths(x);
    var k := (r * 100.0).Floor;
    assert r == k as real / 100.0;
    var rr := Hundredths(r);
    var kk := (rr * 100.0).Floor;
    assert rr == kk as real / 100.0;
    assert -0.5 <= (kk - k) as real <= 0.5;
  }

  function NodeReportOf(n: AccountNode): NodeReport {
    NodeReport(n.id, n.sentCount, n.receivedCount, Hundredths(n.totalSent), Hundredths(n.totalReceived))
  }

  function NodeReports(nodes: map<AccountId, AccountNode>, order: seq<AccountId>): seq<NodeReport>
    requires forall a | a in order :: a in nodes
  {
    if order == [] then []
    else NodeReports(nodes, order[..|order| - 1]) + [NodeReportOf(nodes[order[|order| - 1]])]
  }

  /** A `graph.edges` entry: `transaction_id` is read from an edge, which never has one. */
  function EdgeReportOf(e: Edge): EdgeReport {
    EdgeReport(e.source, e.target, Hundredths(e.amount), e.timestamp, None)
  }

  function EdgeReports(edges: seq<Edge>): seq<EdgeReport> {
    Map(edges, EdgeReportOf)
  }

  /** `formatOutput(nodes, allRings, cycleRings, smurfRings, shellRings,
      largeTransactionRings, processingTime, edges)`; `order` is the
      insertion order of `nodes`. */
  function FormatOutput(nodes: map<AccountId, AccountNode>, order: seq<AccountId>, allRings: seq<Ring>, d: Detections,
                        processingTime: real, edges: seq<Edge>): Report
    requires forall a | a in order :: a in nodes
  {
    var accounts := SuspiciousAccounts(nodes, allRings, d);
    var rings := FraudRings(allRings);
    Report(accounts, rings, Summary(|nodes|, |accounts|, |rings|, Hundredths(processingTime)),
           NodeReports(nodes, order), EdgeReports(edges))
  }

  // ---------------------------------------------------------------------------
  // What the report satisfies
  // ---------------------------------------------------------------------------

  lemma {:induction false} AccountsOfOk(ids: seq<AccountId>, nodes: map<AccountId, AccountNode>, allRings: seq<Ring>, d: Detections)
    ensures |AccountsOf(ids, nodes, allRings, d)| == |ids|
    ensures forall i | 0 <= i < |ids| :: AccountsOf(ids, nodes, allRings, d)[i].accountId == ids[i]
    ensures forall i | 0 <= i < |ids| :: AccountsOf(ids, nodes, allRings, d)[i] == AccountOf(ids[i], nodes, allRings, d)
  {
    MapOk(ids, id => AccountOf(id, nodes, allRings, d));
  }

  /** Every listed entry is the record of a ring member that passes the filter. */
  lemma {:induction false} SuspiciousEntries(nodes: map<AccountId, AccountNode>, allRings: seq<Ring>, d: Detections)
    ensures forall a | a in SuspiciousAccounts(nodes, allRings, d) ::
      && a == AccountOf(a.accountId, nodes, allRings, d)
      && InAny(allRings, a.accountId)
      && Reported(a)
  {
    var ids := Dedup(MemberList(allRings));
    var all := AccountsOf(ids, nodes, allRings, d);
    var kept := Filter(all, Reported);
    var sorted := SortBy(kept, ScoreKey);
    AccountsOfOk(ids, nodes, allRings, d);
    forall a | a in sorted
      ensures a == AccountOf(a.accountId, nodes, allRings, d) && InAny(allRings, a.accountId) && Reported(a)
    {
      assert a in multiset(sorted);
      assert a in kept;
      var i :| 0 <= i < |all| && all[i] == a;
      assert ids[i] in ids;
      MemberListMember(allRings, a.accountId);
    }
  }

  /** An account is listed exactly when it is a member of some ring and its
      patterns are not exactly `[large_transaction]`. */
  lemma {:induction false} SuspiciousMembership(nodes: map<AccountId, AccountNode>, allRings: seq<Ring>, d: Detections, id: AccountId)
    ensures (exists a | a in SuspiciousAccounts(nodes, allRings, d) :: a.accountId == id) <==>
      InAny(allRings, id) && Reported(AccountOf(id, nodes, allRings, d))
  {
    var ids := Dedup(MemberList(allRings));
    var all := AccountsOf(ids, nodes, allRings, d);
    var kept := Filter(all, Reported);
    var sorted := SortBy(kept, ScoreKey);
    SuspiciousEntries(nodes, allRings, d);
    if InAny(allRings, id) && Reported(AccountOf(id, nodes, allRings, d)) {
      AccountsOfOk(ids, nodes, allRings, d);
      MemberListMember(allRings, id);
      var i :| 0 <= i < |ids| && ids[i] == id;
      assert all[i] in kept;
      assert all[i] in multiset(sorted);
    }
  }

  /** No account is listed twice, and the list is ordered by descending score. */
  lemma {:induction false} SuspiciousOrdered(nodes: map<AccountId, AccountNode>, allRings: seq<Ring>, d: Detections)
    ensures forall i, j | 0 <= i < j < |SuspiciousAccounts(nodes, allRings, d)| ::
      SuspiciousAccounts(nodes, allRings, d)[i].accountId != SuspiciousAccounts(nodes, allRings, d)[j].accountId
    ensures forall i, j | 0 <= i < j < |SuspiciousAccounts(nodes, allRings, d)| ::
      SuspiciousAccounts(nodes, allRings, d)[i].suspicionScore >= SuspiciousAccounts(nodes, allRings, d)[j].suspicionScore
  {
    var ids := Dedup(MemberList(allRings));
    var all := AccountsOf(ids, nodes, allRings, d);
    var kept := Filter(all, Reported);
    var sorted := SortBy(kept, ScoreKey);
    SortBySorted(kept, ScoreKey);
    AccountsOfOk(ids, nodes, allRings, d);
    assert Distinct(all) by {
      forall i, j | 0 <= i < j < |all| ensures all[i] != all[j] {
        assert all[i].accountId == ids[i] && all[j].accountId == ids[j];
      }
    }
    FilterDistinct(all, Reported);
    PermutationDistinct(kept, sorted);
    SuspiciousEntries(nodes, allRings, d);
    forall i, j | 0 <= i < j < |sorted| ensures sorted[i].accountId != sorted[j].accountId {
      assert sorted[i] in sorted && sorted[j] in sorted;
    }
    forall i, j | 0 <= i < j < |sorted| ensures sorted[i].suspicionScore >= sorted[j].suspicionScore {
      assert ScoreKey(sorted[i]) <= ScoreKey(sorted[j]);
    }
  }

  /** `fraud_rings` has one entry per ring, in order, each with the ring's id,
      members, pattern and risk score; `aggregator` only for a fan-in ring with
      a non-empty aggregator, `beneficiaries` for every fan-in ring even when
      empty, `amount` only for a large-transaction ring of non-zero amount,
      `timestamp` for every large-transaction ring, and no `disperser`. */
  lemma {:induction false} FraudRingsOk(rings: seq<Ring>)
    ensures |FraudRings(rings)| == |rings|
    ensures forall i | 0 <= i < |rings| ::
      var f, r := FraudRings(rings)[i], rings[i];
      && f.ringId == r.id && f.memberAccounts == r.members
      && f.patternType == r.PatternType() && f.riskScore == RiskScore(r)
      && (f.aggregator.Some? <==> r.FanInRing? && r.aggregator != "")
      && (f.aggregator.Some? ==> f.aggregator.value == r.aggregator)
      && (f.beneficiaries.Some? <==> r.FanInRing?)
      && (f.beneficiaries.Some? ==> f.beneficiaries.value == r.beneficiaries)
      && (f.amount.Some? <==> r.LargeRing? && r.amount != 0.0)
      && (f.amount.Some? ==> f.amount.value == r.amount)
      && (f.timestamp.Some? <==> r.LargeRing?)
      && (f.timestamp.Some? ==> f.timestamp.value == r.timestamp)
  {
    MapOk(rings, RingReportOf);
  }

  /** The summary counts the accounts of the node map, the listed accounts and
      the rings; the graph lists every node in insertion order and every edge
      in order, without a transaction id. */
  lemma {:induction false} ReportCounts(nodes: map<AccountId, AccountNode>, order: seq<AccountId>, allRings: seq<Ring>,
                                        d: Detections, processingTime: real, edges: seq<Edge>)
    requires forall a | a in order :: a in nodes
    ensures var out := FormatOutput(nodes, order, allRings, d, processingTime, edges);
      && out.summary.totalAccountsAnalyzed == |nodes|
      && out.summary.suspiciousAccountsFlagged == |out.suspiciousAccounts|
      && out.summary.fraudRingsDetected == |allRings|
      && out.summary.processingTimeSeconds == Hundredths(processingTime)
      && |out.graphNodes| == |order|
      && (forall i | 0 <= i < |order| :: out.graphNodes[i] == NodeReportOf(nodes[order[i]]))
      && |out.graphEdges| == |edges|
      && (forall i | 0 <= i < |edges| ::
            out.graphEdges[i] == EdgeReport(edges[i].source, edges[i].target, Hundredths(edges[i].amount), edges[i].timestamp, None))
  {
    FraudRingsOk(allRings);
    NodeReportsOk(nodes, order);
    EdgeReportsOk(edges);
  }

  lemma {:induction false} NodeReportsOk(nodes: map<AccountId, AccountNode>, order: seq<AccountId>)
    requires forall a | a in order :: a in nodes
    ensures |NodeReports(nodes, order)| == |order|
    ensures forall i | 0 <= i < |order| :: NodeReports(nodes, order)[i] == NodeReportOf(nodes[order[i]])
  {
    if order != [] {
      NodeReportsOk(nodes, order[..|order| - 1]);
    }
  }

  lemma {:induction false} EdgeReportsOk(edges: seq<Edge>)
    ensures |EdgeReports(edges)| == |edges|
    ensures forall i | 0 <= i < |edges| ::
      EdgeReports(edges)[i] == EdgeReport(edges[i].source, edges[i].target, Hundredths(edges[i].amount), edges[i].timestamp, None)
  {
    MapOk(edges, EdgeReportOf);
  }
}
