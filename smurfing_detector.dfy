/** `SmurfingDetector`: for every account, its incoming and its outgoing edges
    are cut into greedy 24-hour windows; a window with at least three distinct
    counterparties is a fan-in (many senders into one aggregator) or a fan-out
    (one disperser to many receivers) ring. */
module SmurfingDetector {
  import opened Seqs
  import opened Types

  const FAN_IN_THRESHOLD: nat := 3
  const FAN_OUT_THRESHOLD: nat := 3
  /** `24 * 60 * 60 * 1000`: one day in milliseconds. */
  const TIME_WINDOW_MS: int := 86400000
  /** The first smurfing ring is `RING_S1000`. */
  const RING_BASE: nat := 1000

  /** The sort key of `_groupByTimeWindow`. */
  function Time(e: Edge): int {
    e.timestamp
  }

  /** `edges.filter(e => e.target === id)`. */
  function Incoming(edges: seq<Edge>, id: AccountId): seq<Edge> {
    Filter(edges, (e: Edge) => e.target == id)
  }

  /** `edges.filter(e => e.source === id)`. */
  function Outgoing(edges: seq<Edge>, id: AccountId): seq<Edge> {
    Filter(edges, (e: Edge) => e.source == id)
  }

  /** `es.map(e => e.source)`. */
  function Sources(es: seq<Edge>): seq<AccountId> {
    if es == [] then [] else [es[0].source] + Sources(es[1..])
  }

  /** `es.map(e => e.target)`. */
  function Targets(es: seq<Edge>): seq<AccountId> {
    if es == [] then [] else [es[0].target] + Targets(es[1..])
  }

  /** The groups laid end to end. */
  function Flatten(gs: seq<seq<Edge>>): seq<Edge> {
    if gs == [] then [] else Flatten(gs[..|gs| - 1]) + gs[|gs| - 1]
  }

  // ---------------------------------------------------------------------------
  // `_groupByTimeWindow`
  // ---------------------------------------------------------------------------

  /** The grouping loop over the sorted edges `s` still to visit, with the
      closed `groups` and the open window starting at `start` and holding `cur`. */
  function Grouping(s: seq<Edge>, start: int, cur: seq<Edge>, groups: seq<seq<Edge>>): seq<seq<Edge>>
    decreases |s|
  {
    var closed := if |cur| > 0 then groups + [cur] else groups;
    if s == [] then closed
    else if s[0].timestamp - start <= TIME_WINDOW_MS then Grouping(s[1..], start, cur + [s[0]], groups)
    else Grouping(s[1..], s[0].timestamp, [s[0]], closed)
  }

  /** `_groupByTimeWindow(edges)`. */
  function TimeWindows(edges: seq<Edge>): seq<seq<Edge>> {
    if |edges| == 0 then []
    else
      var sorted := SortBy(edges, Time);
      Grouping(sorted, sorted[0].timestamp, [], [])
  }

  /** A non-empty group whose edges all lie within 24 hours at or after its first edge. */
  ghost predicate WithinWindow(g: seq<Edge>) {
    && g != []
    && forall k | 0 <= k < |g| :: g[0].timestamp <= g[k].timestamp <= g[0].timestamp + TIME_WINDOW_MS
  }

  /** Every group is a window, and each group starts more than 24 hours after
      the start of the group before it. */
  ghost predicate GroupsOk(gs: seq<seq<Edge>>) {
    && (forall k | 0 <= k < |gs| :: WithinWindow(gs[k]))
    && forall j, k | 0 <= j < k < |gs| && k == j + 1 ::
         gs[j] != [] && gs[k] != [] && gs[k][0].timestamp > gs[j][0].timestamp + TIME_WINDOW_MS
  }

  /** The grouping loop lays the closed groups, the open window and what is
      left of the list end to end. */
  lemma {:induction false} GroupingFlatten(s: seq<Edge>, start: int, cur: seq<Edge>, groups: seq<seq<Edge>>)
    ensures Flatten(Grouping(s, start, cur, groups)) == Flatten(groups) + cur + s
    decreases |s|
  {
    if s == [] {
      if |cur| > 0 {
        FlattenSnoc(groups, cur);
      }
    } else if s[0].timestamp - start <= TIME_WINDOW_MS {
      GroupingFlatten(s[1..], start, cur + [s[0]], groups);
      assert cur + [s[0]] + s[1..] == cur + s;
    } else {
      var closed := if |cur| > 0 then groups + [cur] else groups;
      GroupingFlatten(s[1..], s[0].timestamp, [s[0]], closed);
      if |cur| > 0 {
        FlattenSnoc(groups, cur);
      }
      assert Flatten(closed) == Flatten(groups) + cur;
      assert [s[0]] + s[1..] == s;
    }
  }

  lemma {:induction false} FlattenSnoc(gs: seq<seq<Edge>>, g: seq<Edge>)
    ensures Flatten(gs + [g]) == Flatten(gs) + g
  {
    assert (gs + [g])[..|gs|] == gs;
  }

  /** On a sorted list, the grouping loop only closes windows, each more than
      24 hours after the one before. */
  lemma {:induction false} GroupingOk(s: seq<Edge>, start: int, cur: seq<Edge>, groups: seq<seq<Edge>>)
    requires SortedBy(s, Time)
    requires s != [] ==> start <= s[0].timestamp
    requires cur == [] ==> groups == [] && s != [] && s[0].timestamp == start
    requires cur != [] ==> cur[0].timestamp == start
    requires forall k | 0 <= k < |cur| :: start <= cur[k].timestamp <= start + TIME_WINDOW_MS
    requires GroupsOk(groups)
    requires groups != [] ==> groups[|groups| - 1] != [] && groups[|groups| - 1][0].timestamp + TIME_WINDOW_MS < start
    ensures GroupsOk(Grouping(s, start, cur, groups)) && Grouping(s, start, cur, groups) != []
    decreases |s|
  {
    if s == [] {
      SnocGroupsOk(groups, cur);
    } else {
      SortedTail(s);
      if s[0].timestamp - start <= TIME_WINDOW_MS {
        GroupingOk(s[1..], start, cur + [s[0]], groups);
      } else {
        SnocGroupsOk(groups, cur);
        GroupingOk(s[1..], s[0].timestamp, [s[0]], groups + [cur]);
      }
    }
  }

  lemma {:induction false} SortedTail(s: seq<Edge>)
    requires SortedBy(s, Time) && s != []
    ensures SortedBy(s[1..], Time)
    ensures |s| > 1 ==> s[0].timestamp <= s[1].timestamp
  {
    forall i, j | 0 <= i < j < |s[1..]| ensures Time(s[1..][i]) <= Time(s[1..][j]) {
      assert s[1..][i] == s[i + 1] && s[1..][j] == s[j + 1];
    }
    if |s| > 1 {
      assert Time(s[0]) <= Time(s[1]);
    }
  }

  /** Windows followed by a window that starts more than 24 hours after the last. */
  lemma {:induction false} SnocGroupsOk(groups: seq<seq<Edge>>, cur: seq<Edge>)
    requires WithinWindow(cur) && GroupsOk(groups)
    requires groups != [] ==> groups[|groups| - 1] != [] && groups[|groups| - 1][0].timestamp + TIME_WINDOW_MS < cur[0].timestamp
    ensures GroupsOk(groups + [cur])
  {
    var r := groups + [cur];
    forall k | 0 <= k < |r| ensures WithinWindow(r[k]) {
      if k < |groups| {
        assert r[k] == groups[k];
      }
    }
    forall j, k | 0 <= j < k < |r| && k == j + 1
      ensures r[j] != [] && r[k] != [] && r[k][0].timestamp > r[j][0].timestamp + TIME_WINDOW_MS
    {
      assert r[j] == groups[j];
      if k < |groups| {
        assert r[k] == groups[k];
      }
    }
  }

  /** `_groupByTimeWindow` returns `[]` exactly for no edges; otherwise its
      groups are windows that, laid end to end, give the edges sorted by
      timestamp. */
  lemma {:induction false} TimeWindowsOk(edges: seq<Edge>)
    ensures TimeWindows(edges) == [] <==> edges == []
    ensures Flatten(TimeWindows(edges)) == SortBy(edges, Time)
    ensures GroupsOk(TimeWindows(edges))
  {
    if edges != [] {
      var sorted := SortBy(edges, Time);
      SortBySorted(edges, Time);
      GroupingOk(sorted, sorted[0].timestamp, [], []);
      GroupingFlatten(sorted, sorted[0].timestamp, [], []);
    }
  }

  /** `_groupByTimeWindow(edges)`: sorts a copy by timestamp and closes the
      open window at the first edge more than 24 hours after its start. */
  method GroupByTimeWindow(edges: seq<Edge>) returns (groups: seq<seq<Edge>>)
    ensures groups == TimeWindows(edges)
    ensures Flatten(groups) == SortBy(edges, Time) && GroupsOk(groups)
  {
    if |edges| == 0 {
      TimeWindowsOk(edges);
      return [];
    }
    var sorted := SortBy(edges, Time);
    groups := [];
    var windowStart := sorted[0].timestamp;
    var currentGroup: seq<Edge> := [];
    for i := 0 to |sorted|
      invariant Grouping(sorted[i..], windowStart, currentGroup, groups) == TimeWindows(edges)
    {
      var edge := sorted[i];
      var t := edge.timestamp;
      assert sorted[i..][0] == edge && sorted[i..][1..] == sorted[i + 1..];
      if t - windowStart <= TIME_WINDOW_MS {
        currentGroup := currentGroup + [edge];
      } else {
        if |currentGroup| > 0 {
          groups := groups + [currentGroup];
        }
        currentGroup := [edge];
        windowStart := t;
      }
    }
    if |currentGroup| > 0 {
      groups := groups + [currentGroup];
    }
    TimeWindowsOk(edges);
  }

  /** An edge of a window is one of the grouped edges. */
  lemma {:induction false} WindowEdge(es: seq<Edge>, w: seq<Edge>, e: Edge)
    requires w in TimeWindows(es) && e in w
    ensures e in es
  {
    TimeWindowsOk(es);
    FlattenMember(TimeWindows(es), w, e);
    assert e in multiset(SortBy(es, Time));
  }

  lemma {:induction false} FlattenMember(gs: seq<seq<Edge>>, g: seq<Edge>, e: Edge)
    requires g in gs && e in g
    ensures e in Flatten(gs)
    decreases |gs|
  {
    if gs[|gs| - 1] != g {
      assert g in gs[..|gs| - 1];
      FlattenMember(gs[..|gs| - 1], g, e);
    }
  }

  // ---------------------------------------------------------------------------
  // `detect`
  // ---------------------------------------------------------------------------

  /** `[...new Set(outgoingEdges.map(e => e.target))]`: everyone the account
      ever sent to, whatever the window. */
  function Downstream(edges: seq<Edge>, id: AccountId): seq<AccountId> {
    Dedup(Targets(Outgoing(edges, id)))
  }

  /** The fan-in loop over the windows still to visit, numbering each new ring
      after the rings so far. */
  function FanInRings(id: AccountId, windows: seq<seq<Edge>>, downstream: seq<AccountId>, rings: seq<Ring>): seq<Ring>
    decreases |windows|
  {
    if windows == [] then rings
    else
      var senders := Dedup(Sources(windows[0]));
      var after :=
        if |senders| >= FAN_IN_THRESHOLD
        then rings + [FanInRing(RingId(SmurfPrefix, RING_BASE + |rings|), [id] + senders + downstream, id, downstream)]
        else rings;
      FanInRings(id, windows[1..], downstream, after)
  }

  /** The fan-out loop over the windows still to visit. */
  function FanOutRings(id: AccountId, windows: seq<seq<Edge>>, rings: seq<Ring>): seq<Ring>
    decreases |windows|
  {
    if windows == [] then rings
    else
      var receivers := Dedup(Targets(windows[0]));
      var after :=
        if |receivers| >= FAN_OUT_THRESHOLD
        then rings + [FanOutRing(RingId(SmurfPrefix, RING_BASE + |rings|), [id] + receivers, id)]
        else rings;
      FanOutRings(id, windows[1..], after)
  }

  /** One turn of the loop over accounts: fan-in windows first, then fan-out. */
  function AccountRings(edges: seq<Edge>, id: AccountId, rings: seq<Ring>): seq<Ring> {
    var incoming := TimeWindows(Incoming(edges, id));
    var outgoing := TimeWindows(Outgoing(edges, id));
    FanOutRings(id, outgoing, FanInRings(id, incoming, Downstream(edges, id), rings))
  }

  /** The rings after the first `n` accounts. */
  function Detected(order: seq<AccountId>, edges: seq<Edge>, n: nat): seq<Ring>
    requires n <= |order|
  {
    if n == 0 then [] else AccountRings(edges, order[n - 1], Detected(order, edges, n - 1))
  }

  /** A fan-in ring: one of the aggregator's incoming windows has at least
      three distinct senders, the members are the aggregator, those senders
      and the beneficiaries, and the beneficiaries are all the aggregator's
      downstream accounts. A fan-out ring: one of the disperser's outgoing
      windows has at least three distinct receivers, and the members are the
      disperser and those receivers. */
  ghost predicate SmurfRingOk(edges: seq<Edge>, r: Ring) {
    match r
    case FanInRing(_, members, aggregator, beneficiaries) =>
      && beneficiaries == Downstream(edges, aggregator)
      && exists w | w in TimeWindows(Incoming(edges, aggregator)) ::
           |Dedup(Sources(w))| >= FAN_IN_THRESHOLD && members == [aggregator] + Dedup(Sources(w)) + beneficiaries
    case FanOutRing(_, members, disperser) =>
      exists w | w in TimeWindows(Outgoing(edges, disperser)) ::
        |Dedup(Targets(w))| >= FAN_OUT_THRESHOLD && members == [disperser] + Dedup(Targets(w))
    case _ => false
  }

  /** Every ring is a fan-in or fan-out ring as above, and ids run
      `RING_S1000`, `RING_S1001`, ... across both kinds. */
  ghost predicate RingsOk(edges: seq<Edge>, rings: seq<Ring>) {
    && (forall i | 0 <= i < |rings| :: SmurfRingOk(edges, rings[i]))
    && Numbered(rings, SmurfPrefix, RING_BASE)
  }

  /** Appending a ring that is well-formed and numbered next keeps the rings well-formed. */
  lemma {:induction false} AppendOk(edges: seq<Edge>, rings: seq<Ring>, r: Ring)
    requires RingsOk(edges, rings) && SmurfRingOk(edges, r) && r.id == RingId(SmurfPrefix, RING_BASE + |rings|)
    ensures RingsOk(edges, rings + [r])
  {
    var s := rings + [r];
    forall i | 0 <= i < |s| ensures SmurfRingOk(edges, s[i]) && s[i].id == RingId(SmurfPrefix, RING_BASE + i) {
      if i < |rings| {
        assert s[i] == rings[i];
      }
    }
  }

  lemma {:induction false} FanInRingsOk(edges: seq<Edge>, id: AccountId, windows: seq<seq<Edge>>, rings: seq<Ring>)
    requires forall w | w in windows :: w in TimeWindows(Incoming(edges, id))
    requires RingsOk(edges, rings)
    ensures RingsOk(edges, FanInRings(id, windows, Downstream(edges, id), rings))
    ensures rings <= FanInRings(id, windows, Downstream(edges, id), rings)
    decreases |windows|
  {
    if windows != [] {
      var w := windows[0];
      assert w in windows;
      var senders := Dedup(Sources(w));
      var down := Downstream(edges, id);
      var after := rings;
      if |senders| >= FAN_IN_THRESHOLD {
        var r := FanInRing(RingId(SmurfPrefix, RING_BASE + |rings|), [id] + senders + down, id, down);
        assert SmurfRingOk(edges, r);
        AppendOk(edges, rings, r);
        after := rings + [r];
      }
      assert forall v | v in windows[1..] :: v in windows;
      FanInRingsOk(edges, id, windows[1..], after);
    }
  }

  lemma {:induction false} FanOutRingsOk(edges: seq<Edge>, id: AccountId, windows: seq<seq<Edge>>, rings: seq<Ring>)
    requires forall w | w in windows :: w in TimeWindows(Outgoing(edges, id))
    requires RingsOk(edges, rings)
    ensures RingsOk(edges, FanOutRings(id, windows, rings)) && rings <= FanOutRings(id, windows, rings)
    decreases |windows|
  {
    if windows != [] {
      var w := windows[0];
      assert w in windows;
      var receivers := Dedup(Targets(w));
      var after := rings;
      if |receivers| >= FAN_OUT_THRESHOLD {
        var r := FanOutRing(RingId(SmurfPrefix, RING_BASE + |rings|), [id] + receivers, id);
        assert SmurfRingOk(edges, r);
        AppendOk(edges, rings, r);
        after := rings + [r];
      }
      assert forall v | v in windows[1..] :: v in windows;
      FanOutRingsOk(edges, id, windows[1..], after);
    }
  }

  /** One account's turn keeps the rings well-formed. */
  lemma {:induction false} AccountRingsOk(edges: seq<Edge>, id: AccountId, rings: seq<Ring>)
    requires RingsOk(edges, rings)
    ensures RingsOk(edges, AccountRings(edges, id, rings))
  {
    var incoming := TimeWindows(Incoming(edges, id));
    var outgoing := TimeWindows(Outgoing(edges, id));
    FanInRingsOk(edges, id, incoming, rings);
    FanOutRingsOk(edges, id, outgoing, FanInRings(id, incoming, Downstream(edges, id), rings));
  }

  lemma {:induction false} SourceOf(es: seq<Edge>, a: AccountId) returns (e: Edge)
    requires a in Sources(es)
    ensures e in es && e.source == a
    decreases |es|
  {
    if es[0].source == a {
      e := es[0];
    } else {
      e := SourceOf(es[1..], a);
    }
  }

  lemma {:induction false} TargetOf(es: seq<Edge>, a: AccountId) returns (e: Edge)
    requires a in Targets(es)
    ensures e in es && e.target == a
    decreases |es|
  {
    if es[0].target == a {
      e := es[0];
    } else {
      e := TargetOf(es[1..], a);
    }
  }

  /** The members of a fan-in ring are endpoints of edges, hence nodes. */
  lemma {:induction false} FanInMembers(g: Graph, r: Ring)
    requires GraphValid(g) && r.FanInRing? && SmurfRingOk(g.edges, r)
    ensures forall a | a in r.members :: a in g.nodes
  {
    var incoming := Incoming(g.edges, r.aggregator);
    var w: seq<Edge> :| w in TimeWindows(incoming) &&
             |Dedup(Sources(w))| >= FAN_IN_THRESHOLD && r.members == [r.aggregator] + Dedup(Sources(w)) + r.beneficiaries;
    assert w != [];
    WindowEdge(incoming, w, w[0]);
    forall a | a in r.members ensures a in g.nodes {
      if a in Dedup(Sources(w)) {
        var e := SourceOf(w, a);
        WindowEdge(incoming, w, e);
      } else if a in r.beneficiaries {
        var e := TargetOf(Outgoing(g.edges, r.aggregator), a);
      }
    }
  }

  /** The members of a fan-out ring are endpoints of edges, hence nodes. */
  lemma {:induction false} FanOutMembers(g: Graph, r: Ring)
    requires GraphValid(g) && r.FanOutRing? && SmurfRingOk(g.edges, r)
    ensures forall a | a in r.members :: a in g.nodes
  {
    var outgoing := Outgoing(g.edges, r.disperser);
    var w: seq<Edge> :| w in TimeWindows(outgoing) &&
             |Dedup(Targets(w))| >= FAN_OUT_THRESHOLD && r.members == [r.disperser] + Dedup(Targets(w));
    assert w != [];
    WindowEdge(outgoing, w, w[0]);
    forall a | a in r.members ensures a in g.nodes {
      if a in Dedup(Targets(w)) {
        var e := TargetOf(w, a);
        WindowEdge(outgoing, w, e);
      }
    }
  }

  /** Every member of a smurfing ring is an endpoint of some edge, hence a node
      of a valid graph. */
  lemma {:induction false} SmurfMembersAreNodes(g: Graph, rings: seq<Ring>)
    requires GraphValid(g) && RingsOk(g.edges, rings)
    ensures MembersAreNodes(g.nodes, rings)
  {
    forall i | 0 <= i < |rings|
      ensures forall a | a in rings[i].members :: a in g.nodes
    {
      assert SmurfRingOk(g.edges, rings[i]);
      if rings[i].FanInRing? {
        FanInMembers(g, rings[i]);
      } else {
        FanOutMembers(g, rings[i]);
      }
    }
  }

  /** A smurfing ring is a fan-in or fan-out ring of at least four members:
      its hub and at least three counterparties. */
  lemma {:induction false} SmurfRingShaped(edges: seq<Edge>, r: Ring)
    requires SmurfRingOk(edges, r)
    ensures (r.FanInRing? || r.FanOutRing?) && |r.members| >= 1 + FAN_IN_THRESHOLD
  {
    if r.FanInRing? {
      var w: seq<Edge> :| w in TimeWindows(Incoming(edges, r.aggregator))
        && |Dedup(Sources(w))| >= FAN_IN_THRESHOLD && r.members == [r.aggregator] + Dedup(Sources(w)) + r.beneficiaries;
    } else {
      var w: seq<Edge> :| w in TimeWindows(Outgoing(edges, r.disperser))
        && |Dedup(Targets(w))| >= FAN_OUT_THRESHOLD && r.members == [r.disperser] + Dedup(Targets(w));
    }
  }

  /** Every ring of a well-formed list is a fan-in or fan-out ring of at
      least four members, numbered from `RING_S1000`. */
  lemma {:induction false} RingsShaped(edges: seq<Edge>, rings: seq<Ring>)
    requires RingsOk(edges, rings)
    ensures forall i | 0 <= i < |rings| ::
      && (rings[i].FanInRing? || rings[i].FanOutRing?) && |rings[i].members| >= 1 + FAN_IN_THRESHOLD
      && rings[i].id == RingId(SmurfPrefix, RING_BASE + i)
  {
    forall i | 0 <= i < |rings|
      ensures (rings[i].FanInRing? || rings[i].FanOutRing?) && |rings[i].members| >= 1 + FAN_IN_THRESHOLD
    {
      SmurfRingShaped(edges, rings[i]);
    }
  }

  /** The fan-in loop of `detect` for account `id`: a ring for every window
      with enough distinct senders, numbered on from `ringCounter`. */
  method FanInLoop(id: AccountId, fanInGroups: seq<seq<Edge>>, outgoingEdges: seq<Edge>,
                   rings0: seq<Ring>, counter0: nat) returns (rings: seq<Ring>, ringCounter: nat)
    requires counter0 == RING_BASE + |rings0|
    ensures rings == FanInRings(id, fanInGroups, Dedup(Targets(outgoingEdges)), rings0)
    ensures ringCounter == RING_BASE + |rings|
  {
    rings, ringCounter := rings0, counter0;
    for j := 0 to |fanInGroups|
      invariant ringCounter == RING_BASE + |rings|
      invariant FanInRings(id, fanInGroups[j..], Dedup(Targets(outgoingEdges)), rings)
             == FanInRings(id, fanInGroups, Dedup(Targets(outgoingEdges)), rings0)
    {
      var uniqueSenders := Dedup(Sources(fanInGroups[j]));
      if |uniqueSenders| >= FAN_IN_THRESHOLD {
        var downstream := Dedup(Targets(outgoingEdges));
        rings := rings + [FanInRing(RingId(SmurfPrefix, ringCounter), [id] + uniqueSenders + downstream, id, downstream)];
        ringCounter := ringCounter + 1;
      }
      assert fanInGroups[j..][1..] == fanInGroups[j + 1..];
    }
  }

  /** The fan-out loop of `detect` for account `id`. */
  method FanOutLoop(id: AccountId, fanOutGroups: seq<seq<Edge>>, rings0: seq<Ring>, counter0: nat)
    returns (rings: seq<Ring>, ringCounter: nat)
    requires counter0 == RING_BASE + |rings0|
    ensures rings == FanOutRings(id, fanOutGroups, rings0)
    ensures ringCounter == RING_BASE + |rings|
  {
    rings, ringCounter := rings0, counter0;
    for j := 0 to |fanOutGroups|
      invariant ringCounter == RING_BASE + |rings|
      invariant FanOutRings(id, fanOutGroups[j..], rings) == FanOutRings(id, fanOutGroups, rings0)
    {
      var uniqueReceivers := Dedup(Targets(fanOutGroups[j]));
      if |uniqueReceivers| >= FAN_OUT_THRESHOLD {
        rings := rings + [FanOutRing(RingId(SmurfPrefix, ringCounter), [id] + uniqueReceivers, id)];
        ringCounter := ringCounter + 1;
      }
      assert fanOutGroups[j..][1..] == fanOutGroups[j + 1..];
    }
  }

  /** Whatever the accounts, the reported rings are well-formed. */
  lemma {:induction false} DetectedOk(order: seq<AccountId>, edges: seq<Edge>, n: nat)
    requires n <= |order|
    ensures RingsOk(edges, Detected(order, edges, n))
  {
    for k := 0 to n
      invariant RingsOk(edges, Detected(order, edges, k))
    {
      AccountRingsOk(edges, order[k], Detected(order, edges, k));
    }
  }

  /** `SmurfingDetector.detect(nodes, edges)`: the windows of every account in
      node order, with one counter shared by fan-in and fan-out rings and
      local to the call. */
  method Detect(order: seq<AccountId>, edges: seq<Edge>) returns (rings: seq<Ring>)
    ensures rings == Detected(order, edges, |order|)
    ensures RingsOk(edges, rings)
  {
    rings := [];
    var ringCounter := RING_BASE;
    for n := 0 to |order|
      invariant rings == Detected(order, edges, n) && ringCounter == RING_BASE + |rings|
      invariant RingsOk(edges, rings)
    {
      var id := order[n];
      AccountRingsOk(edges, id, rings);
      var incomingEdges := Incoming(edges, id);
      var outgoingEdges := Outgoing(edges, id);
      var fanInGroups := GroupByTimeWindow(incomingEdges);
      rings, ringCounter := FanInLoop(id, fanInGroups, outgoingEdges, rings, ringCounter);
      var fanOutGroups := GroupByTimeWindow(outgoingEdges);
      rings, ringCounter := FanOutLoop(id, fanOutGroups, rings, ringCounter);
    }
  }
}
