/** `GraphBuilder.build`: folds the transaction list into the node table, the
    adjacency list (duplicates kept) and the edge list. */
module GraphBuilder {
  import opened Seqs
  import opened Types

  // ---------------------------------------------------------------------------
  // Reference definitions, one per quantity the builder accumulates. Each is a
  // fold over the first `n` transactions.
  // ---------------------------------------------------------------------------

  /** `parseFloat(amount) || 0`. */
  function Amount(tx: Transaction): real {
    match tx.amount
    case None => 0.0
    case Some(a) => a
  }

  function EdgeOf(tx: Transaction): Edge {
    Edge(tx.sender, tx.receiver, Amount(tx), tx.timestamp)
  }

  /** `s` with `x` appended unless already present. */
  function Note(s: seq<AccountId>, x: AccountId): seq<AccountId> {
    if x in s then s else s + [x]
  }

  /** The accounts of the first `n` transactions in order of first appearance,
      each transaction's sender before its receiver: the key order of the
      `nodes` map. */
  function Accounts(txs: seq<Transaction>, n: nat): seq<AccountId>
    requires n <= |txs|
  {
    if n == 0 then []
    else Note(Note(Accounts(txs, n - 1), txs[n - 1].sender), txs[n - 1].receiver)
  }

  /** The ids that occur as a sender or a receiver in the first `n` transactions. */
  function Parties(txs: seq<Transaction>, n: nat): set<AccountId>
    requires n <= |txs|
  {
    if n == 0 then {}
    else Parties(txs, n - 1) + {txs[n - 1].sender, txs[n - 1].receiver}
  }

  function SentCount(txs: seq<Transaction>, n: nat, a: AccountId): nat
    requires n <= |txs|
  {
    if n == 0 then 0
    else SentCount(txs, n - 1, a) + if txs[n - 1].sender == a then 1 else 0
  }

  function ReceivedCount(txs: seq<Transaction>, n: nat, a: AccountId): nat
    requires n <= |txs|
  {
    if n == 0 then 0
    else ReceivedCount(txs, n - 1, a) + if txs[n - 1].receiver == a then 1 else 0
  }

  function TotalSent(txs: seq<Transaction>, n: nat, a: AccountId): real
    requires n <= |txs|
  {
    if n == 0 then 0.0
    else TotalSent(txs, n - 1, a) + if txs[n - 1].sender == a then Amount(txs[n - 1]) else 0.0
  }

  function TotalReceived(txs: seq<Transaction>, n: nat, a: AccountId): real
    requires n <= |txs|
  {
    if n == 0 then 0.0
    else TotalReceived(txs, n - 1, a) + if txs[n - 1].receiver == a then Amount(txs[n - 1]) else 0.0
  }

  /** The timestamps touching `a`: once as sender, once more as receiver. */
  function Timestamps(txs: seq<Transaction>, n: nat, a: AccountId): seq<Timestamp>
    requires n <= |txs|
  {
    if n == 0 then []
    else
      var tx := txs[n - 1];
      Timestamps(txs, n - 1, a)
        + (if tx.sender == a then [tx.timestamp] else [])
        + (if tx.receiver == a then [tx.timestamp] else [])
  }

  /** The receivers of `a`'s transactions in order, duplicates kept. */
  function Receivers(txs: seq<Transaction>, n: nat, a: AccountId): seq<AccountId>
    requires n <= |txs|
  {
    if n == 0 then []
    else Receivers(txs, n - 1, a) + if txs[n - 1].sender == a then [txs[n - 1].receiver] else []
  }

  function NodeOf(txs: seq<Transaction>, n: nat, a: AccountId): AccountNode
    requires n <= |txs|
  {
    AccountNode(a, SentCount(txs, n, a), ReceivedCount(txs, n, a), TotalSent(txs, n, a),
                TotalReceived(txs, n, a), Timestamps(txs, n, a))
  }

  function EmptyNode(a: AccountId): AccountNode {
    AccountNode(a, 0, 0, 0.0, 0.0, [])
  }

  // ---------------------------------------------------------------------------
  // The builder
  // ---------------------------------------------------------------------------

  /** The inner `forEach` on the node table for one id: a missing id gets a
      fresh node. */
  function WithNode(nodes: map<AccountId, AccountNode>, id: AccountId): map<AccountId, AccountNode>
  {
    if id in nodes then nodes else nodes[id := EmptyNode(id)]
  }

  /** The inner `forEach` on the adjacency list for one id. */
  function WithEntry(adj: map<AccountId, seq<AccountId>>, id: AccountId): map<AccountId, seq<AccountId>>
  {
    if id in adj then adj else adj[id := []]
  }

  /** The sender's update and then the receiver's, which reads the node the
      first wrote when the transaction is a self-transfer. */
  function Bumped(nodes: map<AccountId, AccountNode>, tx: Transaction): map<AccountId, AccountNode>
    requires tx.sender in nodes && tx.receiver in nodes
  {
    var s := nodes[tx.sender];
    var mid := nodes[tx.sender := s.(sentCount := s.sentCount + 1, totalSent := s.totalSent + Amount(tx),
                                     timestamps := s.timestamps + [tx.timestamp])];
    var r := mid[tx.receiver];
    mid[tx.receiver := r.(receivedCount := r.receivedCount + 1, totalReceived := r.totalReceived + Amount(tx),
                          timestamps := r.timestamps + [tx.timestamp])]
  }

  /** `adjList.get(sender_id).push(receiver_id)`. */
  function Pushed(adj: map<AccountId, seq<AccountId>>, tx: Transaction): map<AccountId, seq<AccountId>>
    requires tx.sender in adj
  {
    adj[tx.sender := adj[tx.sender] + [tx.receiver]]
  }

  /** The node table after the first `n` passes of the loop. */
  function NodesAfter(txs: seq<Transaction>, n: nat): map<AccountId, AccountNode>
    requires n <= |txs|
  {
    if n == 0 then map[]
    else
      var tx := txs[n - 1];
      Bumped(WithNode(WithNode(NodesAfter(txs, n - 1), tx.sender), tx.receiver), tx)
  }

  /** The adjacency list after the first `n` passes of the loop. */
  function AdjAfter(txs: seq<Transaction>, n: nat): map<AccountId, seq<AccountId>>
    requires n <= |txs|
  {
    if n == 0 then map[]
    else
      var tx := txs[n - 1];
      Pushed(WithEntry(WithEntry(AdjAfter(txs, n - 1), tx.sender), tx.receiver), tx)
  }

  /** `nodes` is the node table of the first `n` transactions: one node per
      party, holding that party's counters, totals and timestamps. */
  ghost predicate NodesMatch(txs: seq<Transaction>, n: nat, nodes: map<AccountId, AccountNode>)
    requires n <= |txs|
  {
    nodes.Keys == Parties(txs, n) && forall a | a in nodes :: nodes[a] == NodeOf(txs, n, a)
  }

  /** `adj` is the adjacency list of the first `n` transactions: one entry per
      party, listing the receivers of its transactions. */
  ghost predicate AdjMatch(txs: seq<Transaction>, n: nat, adj: map<AccountId, seq<AccountId>>)
    requires n <= |txs|
  {
    adj.Keys == Parties(txs, n) && forall a | a in adj :: adj[a] == Receivers(txs, n, a)
  }

  /** `GraphBuilder.build`. */
  method Build(txs: seq<Transaction>) returns (g: Graph)
    ensures g.order == Accounts(txs, |txs|)
    ensures NodesMatch(txs, |txs|, g.nodes) && AdjMatch(txs, |txs|, g.adj)
    ensures |g.edges| == |txs| && forall i | 0 <= i < |txs| :: g.edges[i] == EdgeOf(txs[i])
    ensures GraphValid(g)
  {
    var nodes: map<AccountId, AccountNode> := map[];
    var adjList: map<AccountId, seq<AccountId>> := map[];
    var order: seq<AccountId> := [];
    var edges: seq<Edge> := [];
    var i := 0;
    while i < |txs|
      invariant 0 <= i <= |txs|
      invariant |edges| == i && forall k | 0 <= k < i :: edges[k] == EdgeOf(txs[k])
      invariant nodes == NodesAfter(txs, i) && adjList == AdjAfter(txs, i)
      invariant order == Accounts(txs, i)
    {
      var tx := txs[i];
      OrderFollowsNodes(txs, i, tx.sender);
      OrderFollowsNodes(txs, i, tx.receiver);
      nodes, adjList, order := Record(nodes, adjList, order, tx);
      edges := edges + [EdgeOf(tx)];
      i := i + 1;
    }
    NodesAfterMatch(txs, |txs|);
    AdjAfterMatch(txs, |txs|);
    g := Graph(order, nodes, adjList, edges);
    BuiltValid(txs, g);
  }

  /** The body of the `forEach` over the transactions, without the edge push. */
  method Record(nodes0: map<AccountId, AccountNode>, adj0: map<AccountId, seq<AccountId>>,
                order0: seq<AccountId>, tx: Transaction)
    returns (nodes: map<AccountId, AccountNode>, adjList: map<AccountId, seq<AccountId>>, order: seq<AccountId>)
    requires tx.sender in nodes0 <==> tx.sender in order0
    requires tx.receiver in nodes0 <==> tx.receiver in order0
    ensures nodes == Bumped(WithNode(WithNode(nodes0, tx.sender), tx.receiver), tx)
    ensures adjList == Pushed(WithEntry(WithEntry(adj0, tx.sender), tx.receiver), tx)
    ensures order == Note(Note(order0, tx.sender), tx.receiver)
  {
    nodes, adjList, order := nodes0, adj0, order0;
    var amt := Amount(tx);
    // [sender_id, receiver_id].forEach(id => ...)
    if tx.sender !in nodes {
      nodes := nodes[tx.sender := EmptyNode(tx.sender)];
      order := order + [tx.sender];
    }
    if tx.sender !in adjList {
      adjList := adjList[tx.sender := []];
    }
    if tx.receiver !in nodes {
      nodes := nodes[tx.receiver := EmptyNode(tx.receiver)];
      order := order + [tx.receiver];
    }
    if tx.receiver !in adjList {
      adjList := adjList[tx.receiver := []];
    }
    var sNode := nodes[tx.sender];
    nodes := nodes[tx.sender := sNode.(sentCount := sNode.sentCount + 1,
                                       totalSent := sNode.totalSent + amt,
                                       timestamps := sNode.timestamps + [tx.timestamp])];
    var rNode := nodes[tx.receiver];
    nodes := nodes[tx.receiver := rNode.(receivedCount := rNode.receivedCount + 1,
                                         totalReceived := rNode.totalReceived + amt,
                                         timestamps := rNode.timestamps + [tx.timestamp])];
    adjList := adjList[tx.sender := adjList[tx.sender] + [tx.receiver]];
  }

  /** One pass of the loop body carries the node table of the first `n`
      transactions to that of the first `n + 1`. */
  lemma {:induction false} NodesStep(txs: seq<Transaction>, n: nat, prior: map<AccountId, AccountNode>)
    requires n < |txs| && NodesMatch(txs, n, prior)
    ensures var tx := txs[n];
      var nodes := WithNode(WithNode(prior, tx.sender), tx.receiver);
      tx.sender in nodes && tx.receiver in nodes && NodesMatch(txs, n + 1, Bumped(nodes, tx))
  {
    var tx := txs[n];
    var nodes := WithNode(WithNode(prior, tx.sender), tx.receiver);
    var post := Bumped(nodes, tx);
    assert post.Keys == Parties(txs, n + 1);
    forall a | a in post
      ensures post[a] == NodeOf(txs, n + 1, a)
    {
      if a !in prior {
        NeverSeen(txs, n, a);
      }
      assert nodes[a] == NodeOf(txs, n, a);
      BumpedNode(nodes, tx, a);
    }
  }

  /** One pass of the loop body carries the adjacency list of the first `n`
      transactions to that of the first `n + 1`. */
  lemma {:induction false} AdjStep(txs: seq<Transaction>, n: nat, prior: map<AccountId, seq<AccountId>>)
    requires n < |txs| && AdjMatch(txs, n, prior)
    ensures var tx := txs[n];
      var adj := WithEntry(WithEntry(prior, tx.sender), tx.receiver);
      tx.sender in adj && AdjMatch(txs, n + 1, Pushed(adj, tx))
  {
    var tx := txs[n];
    var adj := WithEntry(WithEntry(prior, tx.sender), tx.receiver);
    var post := Pushed(adj, tx);
    assert post.Keys == Parties(txs, n + 1);
    forall a | a in post
      ensures post[a] == Receivers(txs, n + 1, a)
    {
      if a !in prior {
        NeverSeen(txs, n, a);
      }
      assert adj[a] == Receivers(txs, n, a);
    }
  }

  /** The node table and the adjacency list built by the loop match their
      reference definitions. */
  lemma {:induction false} NodesAfterMatch(txs: seq<Transaction>, n: nat)
    requires n <= |txs|
    ensures NodesMatch(txs, n, NodesAfter(txs, n))
  {
    for k := 0 to n
      invariant NodesMatch(txs, k, NodesAfter(txs, k))
    {
      NodesStep(txs, k, NodesAfter(txs, k));
    }
  }

  lemma {:induction false} AdjAfterMatch(txs: seq<Transaction>, n: nat)
    requires n <= |txs|
    ensures AdjMatch(txs, n, AdjAfter(txs, n))
  {
    for k := 0 to n
      invariant AdjMatch(txs, k, AdjAfter(txs, k))
    {
      AdjStep(txs, k, AdjAfter(txs, k));
    }
  }

  /** The reference definitions determine the node table and the adjacency
      list: whatever matches them is what the loop builds. */
  lemma {:induction false} NodesDetermined(txs: seq<Transaction>, n: nat, nodes: map<AccountId, AccountNode>)
    requires n <= |txs| && NodesMatch(txs, n, nodes)
    ensures nodes == NodesAfter(txs, n)
  {
    NodesAfterMatch(txs, n);
  }

  lemma {:induction false} AdjDetermined(txs: seq<Transaction>, n: nat, adj: map<AccountId, seq<AccountId>>)
    requires n <= |txs| && AdjMatch(txs, n, adj)
    ensures adj == AdjAfter(txs, n)
  {
    AdjAfterMatch(txs, n);
  }

  /** The key order lists exactly the keys of the node table, so the two
      registration tests agree. */
  lemma {:induction false} OrderFollowsNodes(txs: seq<Transaction>, n: nat, a: AccountId)
    requires n <= |txs|
    ensures a in NodesAfter(txs, n) <==> a in Accounts(txs, n)
  {
    NodesAfterMatch(txs, n);
    PartiesAreAccounts(txs, n);
  }

  /** The effect of the two node updates on one account's node. */
  lemma {:induction false} BumpedNode(nodes: map<AccountId, AccountNode>, tx: Transaction, a: AccountId)
    requires tx.sender in nodes && tx.receiver in nodes && a in nodes
    ensures var n := nodes[a];
      Bumped(nodes, tx)[a] == AccountNode(n.id,
        n.sentCount + (if tx.sender == a then 1 else 0),
        n.receivedCount + (if tx.receiver == a then 1 else 0),
        n.totalSent + (if tx.sender == a then Amount(tx) else 0.0),
        n.totalReceived + (if tx.receiver == a then Amount(tx) else 0.0),
        n.timestamps + (if tx.sender == a then [tx.timestamp] else [])
                     + (if tx.receiver == a then [tx.timestamp] else []))
  {
  }

  // ---------------------------------------------------------------------------
  // Properties of the reference definitions
  // ---------------------------------------------------------------------------

  /** `Note` adds exactly `x`. */
  lemma {:induction false} NoteMembers(s: seq<AccountId>, x: AccountId)
    ensures forall a :: a in Note(s, x) <==> a in s || a == x
  {
  }

  lemma {:induction false} NoteDistinct(s: seq<AccountId>, x: AccountId)
    requires Distinct(s)
    ensures Distinct(Note(s, x))
  {
    if x !in s {
      var r := s + [x];
      forall i, j | 0 <= i < j < |r|
        ensures r[i] != r[j]
      {
        if j == |s| {
          assert r[i] == s[i];
        }
      }
    }
  }

  /** No account is listed twice. */
  lemma {:induction false} AccountsDistinct(txs: seq<Transaction>, n: nat)
    requires n <= |txs|
    ensures Distinct(Accounts(txs, n))
  {
    if n > 0 {
      AccountsDistinct(txs, n - 1);
      var p := Accounts(txs, n - 1);
      NoteDistinct(p, txs[n - 1].sender);
      NoteDistinct(Note(p, txs[n - 1].sender), txs[n - 1].receiver);
    }
  }

  /** The node keys, as a set, are the listed accounts. */
  lemma {:induction false} PartiesAreAccounts(txs: seq<Transaction>, n: nat)
    requires n <= |txs|
    ensures forall a :: a in Parties(txs, n) <==> a in Accounts(txs, n)
  {
    if n > 0 {
      PartiesAreAccounts(txs, n - 1);
      var p := Accounts(txs, n - 1);
      NoteMembers(p, txs[n - 1].sender);
      NoteMembers(Note(p, txs[n - 1].sender), txs[n - 1].receiver);
    }
  }

  /** An id is a party exactly when some transaction has it as sender or receiver. */
  lemma {:induction false} PartiesExactly(txs: seq<Transaction>, n: nat, a: AccountId)
    requires n <= |txs|
    ensures a in Parties(txs, n) <==> exists i :: 0 <= i < n && (txs[i].sender == a || txs[i].receiver == a)
  {
    if n > 0 {
      PartiesExactly(txs, n - 1, a);
    }
  }

  /** An account that no transaction mentions has all counters at zero and no
      receivers. */
  lemma {:induction false} NeverSeen(txs: seq<Transaction>, n: nat, a: AccountId)
    requires n <= |txs|
    requires a !in Parties(txs, n)
    ensures NodeOf(txs, n, a) == EmptyNode(a)
    ensures Receivers(txs, n, a) == []
  {
    if n > 0 {
      NeverSeen(txs, n - 1, a);
    }
  }

  /** Every receiver in an adjacency entry is itself a party. */
  lemma {:induction false} ReceiversAreParties(txs: seq<Transaction>, n: nat, a: AccountId)
    requires n <= |txs|
    ensures forall b | b in Receivers(txs, n, a) :: b in Parties(txs, n)
  {
    if n > 0 {
      ReceiversAreParties(txs, n - 1, a);
    }
  }

  /** The builder's output satisfies `GraphValid`. */
  lemma {:induction false} BuiltValid(txs: seq<Transaction>, g: Graph)
    requires g.order == Accounts(txs, |txs|)
    requires NodesMatch(txs, |txs|, g.nodes) && AdjMatch(txs, |txs|, g.adj)
    requires |g.edges| == |txs| && forall i | 0 <= i < |txs| :: g.edges[i] == EdgeOf(txs[i])
    ensures GraphValid(g)
  {
    var n := |txs|;
    AccountsDistinct(txs, n);
    PartiesAreAccounts(txs, n);
    forall a, b | a in g.adj && b in g.adj[a]
      ensures b in g.nodes
    {
      ReceiversAreParties(txs, n, a);
    }
    forall e | e in g.edges
      ensures e.source in g.nodes && e.target in g.nodes
    {
      var i :| 0 <= i < |g.edges| && g.edges[i] == e;
      PartiesExactly(txs, n, e.source);
      PartiesExactly(txs, n, e.target);
    }
  }

  /** A self-transfer bumps both counters of one node and records its
      timestamp twice. */
  lemma {:induction false} SelfTransfer(txs: seq<Transaction>, n: nat)
    requires n < |txs| && txs[n].sender == txs[n].receiver
    ensures var a, tx := txs[n].sender, txs[n];
      var before, after := NodeOf(txs, n, a), NodeOf(txs, n + 1, a);
      && after.sentCount == before.sentCount + 1
      && after.receivedCount == before.receivedCount + 1
      && after.totalSent == before.totalSent + Amount(tx)
      && after.totalReceived == before.totalReceived + Amount(tx)
      && after.timestamps == before.timestamps + [tx.timestamp, tx.timestamp]
  {
  }

  /** An amount that does not parse adds nothing to either total. */
  lemma {:induction false} UnparsedAmountCountsZero(txs: seq<Transaction>, n: nat, a: AccountId)
    requires n < |txs| && txs[n].amount == None
    ensures TotalSent(txs, n + 1, a) == TotalSent(txs, n, a)
    ensures TotalReceived(txs, n + 1, a) == TotalReceived(txs, n, a)
  {
  }
}

/** Summed over all accounts, the builder's counters and totals add up to the
    transaction count and the parsed amounts. */
module GraphTotals {
  import opened Seqs
  import opened Types
  import opened GraphBuilder

  // ---------------------------------------------------------------------------

  datatype Tally = Tally(sent: int, received: int, totalSent: real, totalReceived: real)

  /** `t` with `node`'s counters and totals added. */
  function AddNode(t: Tally, node: AccountNode): Tally {
    Tally(t.sent + node.sentCount, t.received + node.receivedCount,
          t.totalSent + node.totalSent, t.totalReceived + node.totalReceived)
  }

  /** The node counters after `n` transactions, summed over `accounts`. */
  function SumNodes(txs: seq<Transaction>, n: nat, accounts: seq<AccountId>): Tally
    requires n <= |txs|
  {
    if accounts == [] then Tally(0, 0, 0.0, 0.0)
    else AddNode(SumNodes(txs, n, accounts[..|accounts| - 1]), NodeOf(txs, n, accounts[|accounts| - 1]))
  }

  /** The sum of the parsed amounts of the first `n` transactions. */
  function AmountSum(txs: seq<Transaction>, n: nat): real
    requires n <= |txs|
  {
    if n == 0 then 0.0 else AmountSum(txs, n - 1) + Amount(txs[n - 1])
  }

  /** `t` with what transaction `tx` contributes to the sums over `accounts`. */
  function AddShare(t: Tally, tx: Transaction, accounts: seq<AccountId>): Tally {
    Tally(t.sent + if tx.sender in accounts then 1 else 0,
          t.received + if tx.receiver in accounts then 1 else 0,
          t.totalSent + if tx.sender in accounts then Amount(tx) else 0.0,
          t.totalReceived + if tx.receiver in accounts then Amount(tx) else 0.0)
  }

  /** The shares of the first `n` transactions. */
  function Shares(txs: seq<Transaction>, n: nat, accounts: seq<AccountId>): Tally
    requires n <= |txs|
  {
    if n == 0 then Tally(0, 0, 0.0, 0.0) else AddShare(Shares(txs, n - 1, accounts), txs[n - 1], accounts)
  }

  /** What transaction `n - 1` adds to the sum over distinct accounts. */
  lemma {:induction false} SumNodesStep(txs: seq<Transaction>, n: nat, accounts: seq<AccountId>)
    requires 0 < n <= |txs|
    requires Distinct(accounts)
    ensures SumNodes(txs, n, accounts) == AddShare(SumNodes(txs, n - 1, accounts), txs[n - 1], accounts)
  {
    if accounts != [] {
      var init := accounts[..|accounts| - 1];
      assert accounts == init + [accounts[|accounts| - 1]];
      SumNodesStep(txs, n, init);
    }
  }

  /** Summing the nodes of distinct accounts adds up each transaction's share. */
  lemma {:induction false} SumNodesIsShares(txs: seq<Transaction>, n: nat, accounts: seq<AccountId>)
    requires n <= |txs| && Distinct(accounts)
    ensures SumNodes(txs, n, accounts) == Shares(txs, n, accounts)
  {
    if n == 0 {
      ZeroNodes(txs, n, accounts);
    } else {
      SumNodesStep(txs, n, accounts);
      SumNodesIsShares(txs, n - 1, accounts);
    }
  }

  /** Before any transaction every counter is zero. */
  lemma {:induction false} ZeroNodes(txs: seq<Transaction>, n: nat, accounts: seq<AccountId>)
    requires n == 0
    ensures SumNodes(txs, n, accounts) == Tally(0, 0, 0.0, 0.0)
  {
    if accounts != [] {
      ZeroNodes(txs, n, accounts[..|accounts| - 1]);
    }
  }

  /** When `accounts` holds every party, each transaction's share is whole. */
  lemma {:induction false} WholeShares(txs: seq<Transaction>, n: nat, accounts: seq<AccountId>)
    requires n <= |txs|
    requires forall i | 0 <= i < n :: txs[i].sender in accounts && txs[i].receiver in accounts
    ensures Shares(txs, n, accounts) == Tally(n, n, AmountSum(txs, n), AmountSum(txs, n))
  {
    if n > 0 {
      WholeShares(txs, n - 1, accounts);
    }
  }

  /** The sum of all `sentCount`s and the sum of all `receivedCount`s both equal
      the number of transactions; the sums of the totals both equal the sum of
      the parsed amounts. */
  lemma {:induction false} Conservation(txs: seq<Transaction>)
    ensures var n := |txs|;
      SumNodes(txs, n, Accounts(txs, n)) == Tally(n, n, AmountSum(txs, n), AmountSum(txs, n))
  {
    var n, accounts := |txs|, Accounts(txs, |txs|);
    AccountsDistinct(txs, n);
    PartiesAreAccounts(txs, n);
    forall i | 0 <= i < n
      ensures txs[i].sender in accounts && txs[i].receiver in accounts
    {
      PartiesExactly(txs, n, txs[i].sender);
      PartiesExactly(txs, n, txs[i].receiver);
    }
    SumNodesIsShares(txs, n, accounts);
    WholeShares(txs, n, accounts);
  }
}
