/** The engine's shared data model: transactions, the account graph and
    the rings the four detectors report. */
module Types {
  import opened Seqs

  datatype Option<T> = None | Some(value: T)

  datatype Result<T> = Success(value: T) | Failure(error: string)

  /** Account identifiers are arbitrary case-sensitive strings. */
  type AccountId = string

  /** A timestamp as `new Date(timestamp).getTime()` yields it for a parseable
      date: milliseconds since the epoch. */
  type Timestamp = int

  /** A record that the ingestion stage let through. `amount` is `None` when
      `parseFloat` yields NaN. */
  datatype Transaction = Transaction(
    transactionId: string,
    sender: AccountId,
    receiver: AccountId,
    amount: Option<real>,
    timestamp: Timestamp)

  /** One edge per transaction. The builder never copies `transaction_id`. */
  datatype Edge = Edge(source: AccountId, target: AccountId, amount: real, timestamp: Timestamp)

  /** The per-account aggregate the builder keeps in its `nodes` map. */
  datatype AccountNode = AccountNode(
    id: AccountId,
    sentCount: nat,
    receivedCount: nat,
    totalSent: real,
    totalReceived: real,
    timestamps: seq<Timestamp>)

  /** `sentCount + receivedCount`, the activity both the shell detector and the
      velocity rule look at. */
  function Activity(n: AccountNode): nat {
    n.sentCount + n.receivedCount
  }

  /** The builder's three structures. `order` is the insertion order of the
      JavaScript `Map` `nodes`, which every `for ... of nodes` loop follows. */
  datatype Graph = Graph(
    order: seq<AccountId>,
    nodes: map<AccountId, AccountNode>,
    adj: map<AccountId, seq<AccountId>>,
    edges: seq<Edge>)

  /** `adjList.get(a) || []`. */
  function Neighbors(adj: map<AccountId, seq<AccountId>>, a: AccountId): seq<AccountId> {
    if a in adj then adj[a] else []
  }

  /** What the builder guarantees of its output and the detectors rely on. */
  ghost predicate GraphValid(g: Graph) {
    && Distinct(g.order)
    && (forall a :: a in g.nodes <==> a in g.order)
    && (forall a :: a in g.adj <==> a in g.order)
    && (forall a | a in g.nodes :: g.nodes[a].id == a)
    && (forall a, b | a in g.adj && b in g.adj[a] :: b in g.nodes)
    && (forall e | e in g.edges :: e.source in g.nodes && e.target in g.nodes)
  }

  /** The prefixes of the four id sequences: `RING_`, `RING_S`, `RING_L`, `RING_LT`. */
  datatype Prefix = CyclePrefix | SmurfPrefix | ShellPrefix | LargePrefix

  /** A ring id as a prefix and a counter, before `padStart(3, '0')` formatting. */
  datatype RingId = RingId(prefix: Prefix, counter: nat)

  /** `'RING_000'`, which the output stage falls back to for an account in no ring. */
  const NO_RING := RingId(CyclePrefix, 0)

  datatype Pattern = Cycle | FanIn | FanOut | LayeredShell | LargeTransaction

  /** A detected ring with the metadata its detector attaches. */
  datatype Ring =
    | CycleRing(id: RingId, members: seq<AccountId>, cycleLength: nat)
    | FanInRing(id: RingId, members: seq<AccountId>, aggregator: AccountId, beneficiaries: seq<AccountId>)
    | FanOutRing(id: RingId, members: seq<AccountId>, disperser: AccountId)
    | ShellRing(id: RingId, members: seq<AccountId>, depth: nat)
    | LargeRing(id: RingId, members: seq<AccountId>, amount: real, timestamp: Timestamp, transactionId: Option<string>)
  {
    /** The ring's `pattern_type`. */
    function PatternType(): Pattern {
      match this
      case CycleRing(_, _, _) => Cycle
      case FanInRing(_, _, _, _) => FanIn
      case FanOutRing(_, _, _) => FanOut
      case ShellRing(_, _, _) => LayeredShell
      case LargeRing(_, _, _, _, _) => LargeTransaction
    }
  }

  /** The ids of `rings` are `prefix` followed by `base`, `base + 1`, ... in order. */
  ghost predicate Numbered(rings: seq<Ring>, prefix: Prefix, base: nat) {
    forall i | 0 <= i < |rings| :: rings[i].id == RingId(prefix, base + i)
  }

  /** The dedup key `[...members].sort().join(',')`. Two keys are equal exactly
      when the member multisets are, as long as no id contains a comma. */
  function Key(members: seq<AccountId>): multiset<AccountId> {
    multiset(members)
  }

  /** The dedup keys of the rings found so far: a detector's `seenKeys` or `detected` set. */
  function Keys(rings: seq<Ring>): set<multiset<AccountId>> {
    set i | 0 <= i < |rings| :: Key(rings[i].members)
  }

  /** The keys after appending a ring. */
  lemma {:induction false} KeysAppend(rings: seq<Ring>, r: Ring)
    ensures Keys(rings + [r]) == Keys(rings) + {Key(r.members)}
  {
    var s := rings + [r];
    forall k | k in Keys(s)
      ensures k in Keys(rings) + {Key(r.members)}
    {
      var i :| 0 <= i < |s| && Key(s[i].members) == k;
      if i < |rings| {
        assert s[i] == rings[i];
      }
    }
    forall k | k in Keys(rings)
      ensures k in Keys(s)
    {
      var i :| 0 <= i < |rings| && Key(rings[i].members) == k;
      assert s[i] == rings[i];
    }
    assert s[|rings|] == r;
  }

  /** No two rings have the same dedup key. */
  ghost predicate DistinctKeys(rings: seq<Ring>) {
    forall i, j | 0 <= i < j < |rings| :: Key(rings[i].members) != Key(rings[j].members)
  }

  /** Every member of every ring is a node of the graph. */
  ghost predicate MembersAreNodes(nodes: map<AccountId, AccountNode>, rings: seq<Ring>) {
    forall i, a | 0 <= i < |rings| && a in rings[i].members :: a in nodes
  }
}
