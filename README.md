# FlowTrace fraud engine in Dafny

FlowTrace reads a CSV of money transfers and looks for fraud rings in the
transaction graph. This project models the engine's core and proves its
properties.

- **Graph builder.** It folds the parsed transactions into three structures:
  - a per-account node table of counters, totals and timestamps;
  - an adjacency list that keeps duplicate transfers;
  - an edge list.
- **Four ring detectors:**
  - The cycle detector runs a bounded depth-first search over a shared path. It finds simple cycles of three to five accounts and deduplicates them by member set.
  - The smurfing detector splits each account's incoming and outgoing edges into greedy 24-hour windows. A window with at least three distinct counterparties becomes a fan-in or fan-out ring.
  - The shell-chain detector searches from low-activity seeds through low-activity neighbours. It reports chains of three accounts.
  - The large-transaction detector reports every edge of at least 3000. It numbers its rings with a counter that persists across calls.
- **Scoring and output stage.** It builds the report:
  - an additive suspicion score per account, capped at 100;
  - a risk score per ring;
  - a primary ring per account, chosen by risk score and then by pattern priority;
  - the suspicious-account list, which leaves out accounts flagged only for large transactions;
  - `fraud_rings`, the summary and the graph.
- **Analysis pipeline.** It rejects an empty transaction list. It then runs the builder, the four detectors and the output stage, concatenating the rings in a fixed order: cycle, smurf, shell, large.
- **Frontend response normaliser** (`normalizeResponse`). It turns the backend response into the dashboard's view:
  - it colours rings from an eight-colour palette;
  - it joins suspicious accounts to graph nodes;
  - it maps rings;
  - it takes the edges from `graph.edges` when there are any, and otherwise rebuilds deduplicated edges from each ring's shape.

## How the model is built

Each file is one module.

| file | module | models |
|---|---|---|
| `seqs.dfy` | `Seqs` | generic sequence helpers |
| `types.dfy` | `Types` | shared entities |
| `graph_builder.dfy` | `GraphBuilder`, `GraphTotals` | the graph builder |
| `cycle_detector.dfy` | `CycleDetector` | the cycle detector |
| `smurfing_detector.dfy` | `SmurfingDetector` | the smurfing detector |
| `shell_detector.dfy` | `ShellDetector` | the shell-chain detector |
| `large_transaction_detector.dfy` | `LargeTransactionDetector` | the large-transaction detector |
| `scoring_service.dfy` | `ScoringService` | the output stage |
| `analysis_service.dfy` | `AnalysisService` | the pipeline |
| `upload_screen.dfy` | `UploadScreen` | the frontend normaliser |

`Seqs` holds the generic helpers:
- `new Set` deduplication;
- `map`, `filter` and `flatMap`;
- last-write-wins object assignment;
- a stable sort, which stands for `Array.prototype.sort`.

Where the source changes state step by step, the model does too:
- The graph builder, the smurfing window grouping and the smurfing loops are methods with loops.
- The cycle and shell searches are classes. Their fields are the closure's shared path or chain, the set of seen keys, the ring list and the counter. The recursive search is a method that modifies them.
- The large-transaction detector is a class with the persistent `ringCounter` field.
- `scoreNode` accumulates its score and tags in a method.
- The normaliser's colour map, account lookup and edge reconstruction are loops.

Each such method is proved equal to a reference function. The properties are then proved about those functions, as lemmas. The output stage and the pipeline are functions.

The model represents some source details as follows:
- Ring ids are a prefix and a counter (`RING_`, `RING_S`, `RING_L`, `RING_LT`). `RING_000` is the cycle prefix with counter 0.
- A `[...members].sort().join(',')` dedup key is the multiset of the members. This assumes no account id contains a comma.
- A frontend `${from}→${to}` key is the pair. This assumes no id contains `→`.
- Amounts are reals. An amount that does not parse is `None` and counts as 0.
- Timestamps are integer milliseconds.
- The processing time is a parameter. The report rounds it, the node totals and the edge amounts to hundredths, as `toFixed(2)` does on an exact value.

## Model

Source paths are relative to the repository root.

| member | source | states |
|---|---|---|
| Seqs.Dedup | backend/src/services/scoringService.js:44 | `[...new Set(xs)]` has no repetitions, holds exactly the elements of `xs`, and is no longer than `xs` |
| Seqs.SortBySorted | backend/src/services/scoringService.js:96 | the sort yields a sequence ascending by its key; `SortBy` itself ensures it is a permutation of the input |
| Seqs.SortByStable | backend/src/services/scoringService.js:96 | the sort is stable: the elements with any one key keep their input order |
| Seqs.AssignedKeys | frontend/src/components/uploadscreen.jsx:19-22 | after a series of `obj[k] = v` writes, a key is present exactly when some write used it |
| Seqs.AssignedLast | frontend/src/components/uploadscreen.jsx:25-28 | a key holds the value of the last write to it |
| GraphBuilder.Build | backend/src/utils/graphBuilder.js:2-33 | the account order lists each sender and receiver once, in order of first appearance. Each account's node holds its sent and received counts, the sums of its parsed amounts and its timestamps. Its adjacency entry lists the receivers of its transfers in input order, duplicates kept. There is one edge per transaction, in input order, from sender to receiver. The graph is well formed |
| GraphBuilder.Record | backend/src/utils/graphBuilder.js:8-29 | one pass of the `forEach` body: missing nodes and adjacency entries are created for both ids. The sender's node is then bumped, then the receiver's. The receiver is pushed onto the sender's list, and new ids are noted in order |
| GraphBuilder.NodesAfterMatch | backend/src/utils/graphBuilder.js:7-26 | after the first `n` transfers the node table's keys are exactly the parties. Each node equals the counts, amount sums and timestamps of the transfers the account sent and received |
| GraphBuilder.AdjAfterMatch | backend/src/utils/graphBuilder.js:15-28 | after the first `n` transfers the adjacency keys are exactly the parties. Each entry lists the receivers of that account's transfers in order, duplicates kept |
| GraphBuilder.OrderFollowsNodes | backend/src/utils/graphBuilder.js:11-16 | an id is a key of the node table exactly when it is in the account order, the order `nodes.keys()` iterates in |
| GraphBuilder.BumpedNode | backend/src/utils/graphBuilder.js:18-26 | one transfer changes an account's node only as sender or receiver: +1 on the count, +amount on the total, and its timestamp appended |
| GraphBuilder.AccountsDistinct | backend/src/utils/graphBuilder.js:12-14 | the account order never repeats an id |
| GraphBuilder.PartiesAreAccounts | backend/src/utils/graphBuilder.js:11-16 | the account order holds exactly the parties |
| GraphBuilder.PartiesExactly | backend/src/utils/graphBuilder.js:11-16 | an id is a party exactly when some transfer among the first `n` has it as sender or receiver |
| GraphBuilder.NeverSeen | backend/src/utils/graphBuilder.js:12-15 | an id in no transfer has a zero node and no receivers |
| GraphBuilder.ReceiversAreParties | backend/src/utils/graphBuilder.js:28 | every adjacency target is a party |
| GraphBuilder.BuiltValid | backend/src/utils/graphBuilder.js:2-33 | the structures the fold builds form a well-formed graph. The order has no repeats. The node and adjacency keys are the order's ids. Every node's `id` is its key. Adjacency targets and edge endpoints are nodes |
| GraphBuilder.SelfTransfer | backend/src/utils/graphBuilder.js:18-26 | a transfer from an account to itself raises both of its counts and both of its totals, and appends its timestamp twice |
| GraphBuilder.UnparsedAmountCountsZero | backend/src/utils/graphBuilder.js:9-25 | a transfer whose amount does not parse leaves every account's totals unchanged |
| GraphTotals.Conservation | backend/src/utils/graphBuilder.js:18-26 | summed over all accounts, `sentCount` and `receivedCount` each equal the number of transfers, and `totalSent` and `totalReceived` each equal the sum of the parsed amounts |
| CycleDetector.CycleSearch.constructor | backend/src/services/cycleDetector.js:3-5 | a search starts with no rings, no seen keys and the counter at 1 |
| CycleDetector.CycleSearch.Dfs | backend/src/services/cycleDetector.js:11-36 | `dfs` leaves `path` and the start as it found them, keeps seen keys and counter in step with the rings, and appends exactly the rings of the reference search `Search` |
| CycleDetector.Detect | backend/src/services/cycleDetector.js:2-42 | the result is the reference search from every start in node order. Every ring is a simple cycle of 3 to 5 distinct accounts along adjacency edges, closing back to its first member, with `cycle_length` equal to its size. Ids run `RING_001`, `RING_002`, … with no gaps. No two rings have the same member set |
| CycleDetector.CloseOk | backend/src/services/cycleDetector.js:16-27 | closing a path of 3 to 5 accounts whose last member has an edge to its first keeps the rings well formed, and only appends |
| CycleDetector.SearchOk | backend/src/services/cycleDetector.js:11-36 | the search from any path keeps the rings well formed, and only appends |
| CycleDetector.ExploreOk | backend/src/services/cycleDetector.js:14-35 | the loop over a path end's neighbours keeps the rings well formed, and only appends |
| CycleDetector.ExtendPath | backend/src/services/cycleDetector.js:28-34 | pushing a neighbour that is not on the path yields a simple path |
| CycleDetector.DetectedOk | backend/src/services/cycleDetector.js:7-41 | the reference search over all starts yields well-formed rings |
| CycleDetector.CycleMembersAreNodes | backend/src/services/cycleDetector.js:14-16 | in a well-formed graph every cycle member is a node |
| SmurfingDetector.GroupByTimeWindow | backend/src/services/smurfingDetector.js:56-78 | the groups are the reference windows. Concatenated, they are the edges sorted by timestamp. Each group is non-empty and lies within 24 hours of its first edge. Each later group starts more than 24 hours after the previous group's first edge |
| SmurfingDetector.TimeWindowsOk | backend/src/services/smurfingDetector.js:57-77 | there are no windows exactly when there are no edges. Otherwise the windows concatenate to the sorted edges and are well formed as above |
| SmurfingDetector.WindowEdge | backend/src/services/smurfingDetector.js:60-68 | every edge in a window is one of the grouped edges |
| SmurfingDetector.FanInLoop | backend/src/services/smurfingDetector.js:20-35 | the fan-in loop appends exactly the reference fan-in rings, and the counter stays at 1000 plus the ring count |
| SmurfingDetector.FanOutLoop | backend/src/services/smurfingDetector.js:39-49 | the fan-out loop appends exactly the reference fan-out rings, and the counter stays at 1000 plus the ring count |
| SmurfingDetector.FanInRingsOk | backend/src/services/smurfingDetector.js:20-35 | the fan-in rings of an account's incoming windows keep the rings well formed, and only append |
| SmurfingDetector.FanOutRingsOk | backend/src/services/smurfingDetector.js:39-49 | the fan-out rings of an account's outgoing windows keep the rings well formed, and only append |
| SmurfingDetector.AccountRingsOk | backend/src/services/smurfingDetector.js:14-49 | one account's pass keeps the rings well formed |
| SmurfingDetector.DetectedOk | backend/src/services/smurfingDetector.js:10-53 | the reference detection over all accounts yields well-formed rings |
| SmurfingDetector.Detect | backend/src/services/smurfingDetector.js:10-53 | the result is the reference detection. A fan-in ring comes from an incoming window with at least 3 distinct senders. Its members are the aggregator, then the window's distinct senders, then the distinct targets of all the aggregator's outgoing edges; `beneficiaries` is that last part. A fan-out ring comes from an outgoing window with at least 3 distinct receivers. Its members are the disperser, then those receivers. Ids run `RING_S1000`, `RING_S1001`, … across both kinds |
| SmurfingDetector.FanInMembers | backend/src/services/smurfingDetector.js:21-29 | in a well-formed graph every member of a fan-in ring is a node |
| SmurfingDetector.FanOutMembers | backend/src/services/smurfingDetector.js:40-44 | in a well-formed graph every member of a fan-out ring is a node |
| SmurfingDetector.SmurfMembersAreNodes | backend/src/services/smurfingDetector.js:14-49 | in a well-formed graph every smurfing ring member is a node |
| SmurfingDetector.SmurfRingShaped | backend/src/services/smurfingDetector.js:22-44 | a smurfing ring is fan-in or fan-out and has at least four members |
| SmurfingDetector.RingsShaped | backend/src/services/smurfingDetector.js:12-44 | ring `i` is fan-in or fan-out, has at least four members, and is numbered `RING_S` 1000 + `i` |
| ShellDetector.ShellSearch.constructor | backend/src/services/shellDetector.js:3-6 | a search starts with no rings, no detected keys and the counter at 2000 |
| ShellDetector.ShellSearch.FindChain | backend/src/services/shellDetector.js:13-38 | `findChain` leaves `chain` as it found it, keeps keys and counter in step with the rings, and appends exactly the rings of the reference search `Chain` |
| ShellDetector.Detect | backend/src/services/shellDetector.js:2-44 | the result is the reference search from every account in node order. Every ring has exactly 3 distinct members and `depth` 3. The first member has 2 or 3 transfers. Every later member is a node with at most 3 transfers. Each member is an adjacency successor of the one before. Ids run `RING_L2000`, `RING_L2001`, … with no gaps. No two rings have the same member set |
| ShellDetector.ReportOk | backend/src/services/shellDetector.js:14-26 | reporting a chain of three keeps the rings well formed, and only appends |
| ShellDetector.ExtendChain | backend/src/services/shellDetector.js:29-32 | pushing a low-activity successor that is not on the chain yields a chain |
| ShellDetector.ChainOk | backend/src/services/shellDetector.js:13-38 | the search from any chain keeps the rings well formed, and only appends |
| ShellDetector.ExtendOk | backend/src/services/shellDetector.js:28-37 | the loop over a chain end's successors keeps the rings well formed, and only appends |
| ShellDetector.DetectedOk | backend/src/services/shellDetector.js:8-43 | the reference search over all seeds yields well-formed rings |
| ShellDetector.ShellMembersAreNodes | backend/src/services/shellDetector.js:9-31 | every shell ring member is a node |
| LargeTransactionDetector.Detector.constructor | backend/src/services/Largetransactiondetector.js:5 | the static counter starts at 3000 |
| LargeTransactionDetector.Detector.Detect | backend/src/services/Largetransactiondetector.js:7-23 | the rings are the reference rings numbered from the counter's value on entry. The counter rises by exactly the number of rings. Ids run on from the entry value with no gaps |
| LargeTransactionDetector.LargeRingsOk | backend/src/services/Largetransactiondetector.js:10-19 | there is one ring per edge of at least 3000, in edge order. Ring `i` has members `[source, target]` of the `i`-th such edge, copies its amount and timestamp, has no transaction id, and is numbered base + `i` |
| LargeTransactionDetector.OnlyLargeEdges | backend/src/services/Largetransactiondetector.js:10-11 | every ring comes from an edge of at least 3000 |
| LargeTransactionDetector.LargeMembersAreNodes | backend/src/services/Largetransactiondetector.js:14 | in a well-formed graph both members of every ring are nodes |
| LargeTransactionDetector.NumberingCarriesOver | backend/src/services/Largetransactiondetector.js:5-13 | a second call on the same edges yields as many rings, each numbered higher by the first call's ring count: numbering does not restart at `RING_LT3000` |
| ScoringService.ContainingNonEmpty | backend/src/services/scoringService.js:14-15 | the filtered ring list is non-empty exactly when some ring contains the account |
| ScoringService.PushTags | backend/src/services/scoringService.js:17 | the `forEach` appends one tag per ring, in ring order |
| ScoringService.AddRings | backend/src/services/scoringService.js:14-24 | a ring category adds its weight once when any ring contains the account, and appends one tag per containing ring |
| ScoringService.AddFlag | backend/src/services/scoringService.js:26-40 | a flag category adds its weight and its tag exactly when it holds |
| ScoringService.ScoreNode | backend/src/services/scoringService.js:10-46 | `scoreNode` returns the capped category score and the deduplicated tags of the reference definitions |
| ScoringService.ScoreCapped | backend/src/services/scoringService.js:14-43 | the score never exceeds 100. It is exactly 100 when the account is in a cycle, a smurfing ring and a shell ring, and also in a large-transaction ring or above 20 transfers |
| ScoringService.ScoreMonotone | backend/src/services/scoringService.js:14-43 | adding ring memberships never lowers the score |
| ScoringService.PatternsMeaning | backend/src/services/scoringService.js:17-44 | the tags have no repetitions. A tag is present exactly when it applies: `cycle_length_<n>` for a containing cycle of that length, the direction of a containing smurfing ring, `layered_shell`, `large_transaction`, and `high_velocity` above 20 transfers |
| ScoringService.RiskNeverCapped | backend/src/services/scoringService.js:48-64 | the base is at most 98, so the 99.9 cap never binds and the risk score is the base |
| ScoringService.DetectorRiskRange | backend/src/services/scoringService.js:48-64 | for a 3–5 cycle, a smurfing ring of at least four members, a shell ring or a transfer of at least 3000, the risk score lies between 83 and 95 |
| ScoringService.KeyOrder | backend/src/services/scoringService.js:74-80 | the integer sort key orders rings exactly as the comparator: higher risk first, then higher pattern priority |
| ScoringService.PrimaryRingOk | backend/src/services/scoringService.js:73-80 | for an account in some ring, the primary ring exists and contains it. No containing ring outranks it. It is the first containing ring, in ring order, among those it ties with |
| ScoringService.CycleOutranksShell | backend/src/services/scoringService.js:51-58 | a cycle of 3 to 5 accounts always outranks a shell ring |
| ScoringService.MemberListMember | backend/src/services/scoringService.js:67 | an id is among the flattened members exactly when some ring contains it |
| ScoringService.AccountsOfOk | backend/src/services/scoringService.js:69-88 | one account entry per candidate id, in order, each with that id |
| ScoringService.SuspiciousEntries | backend/src/services/scoringService.js:69-96 | every listed account belongs to some ring, is that account's own entry, and is not flagged only as `large_transaction` |
| ScoringService.SuspiciousMembership | backend/src/services/scoringService.js:67-96 | an account is listed exactly when it belongs to some ring and its tags are not exactly `[large_transaction]` |
| ScoringService.SuspiciousOrdered | backend/src/services/scoringService.js:69-96 | no account is listed twice, and scores do not increase down the list |
| ScoringService.FraudRingsOk | backend/src/services/scoringService.js:98-107 | `fraud_rings` keeps the count and order of the rings, with ids, members, pattern types and risk scores copied. `aggregator` is present only for fan-in rings with a non-empty aggregator. `beneficiaries` is present for every fan-in ring, even an empty list. `amount` is present only for a non-zero large transaction. `timestamp` is present for every large transaction. `disperser` is never copied |
| ScoringService.ReportCounts | backend/src/services/scoringService.js:109-135 | the summary counts the node table, the listed accounts and the rings, and carries the processing time rounded to hundredths. The graph lists one node per account in order. It lists one edge per edge in order, with the amount rounded to hundredths and `transaction_id` undefined |
| ScoringService.NodeReportsOk | backend/src/services/scoringService.js:121-127 | `graph.nodes` holds each node's id and counts and its totals rounded to hundredths, in node order |
| ScoringService.EdgeReportsOk | backend/src/services/scoringService.js:128-134 | `graph.edges` holds each edge's source, target, amount rounded to hundredths and timestamp, in order, with no transaction id |
| ScoringService.Hundredths | backend/src/services/scoringService.js:118 | `parseFloat(x.toFixed(2))`: a whole number of hundredths within half a hundredth of `x`, a tie going away from zero |
| ScoringService.HundredthsNearest | backend/src/services/scoringService.js:125-126 | no whole number of hundredths lies nearer to the value than its rounding |
| ScoringService.HundredthsIdempotent | backend/src/services/scoringService.js:131 | rounding an already rounded value leaves it unchanged |
| AnalysisService.BuiltGraphOk | backend/src/services/analysisService.js:20 | the graph built from the transactions is well formed, and its node keys are exactly the senders and receivers |
| AnalysisService.Analyze | backend/src/services/analysisService.js:10-34 | the pipeline returns the reference analysis. The large-transaction counter advances by the number of edges of at least 3000, and not at all on empty input |
| AnalysisService.AllRingsOk | backend/src/services/analysisService.js:23-27 | every member of every detected ring is a node, no ring has the id `RING_000`, and every ring has a detector's shape |
| AnalysisService.EmptyRejected | backend/src/services/analysisService.js:15-17 | the analysis fails exactly on an empty transaction list, with the error "CSV contains no valid transactions" |
| AnalysisService.SummaryCounts | backend/src/services/analysisService.js:27-33 | `fraud_rings_detected` is the sum of the four detectors' ring counts, and `total_accounts_analyzed` is the node count |
| AnalysisService.AccountsAnalyzed | backend/src/services/analysisService.js:14-33 | on non-empty input the analysis succeeds, and `total_accounts_analyzed` is the number of distinct senders and receivers |
| AnalysisService.RingsInDetectorOrder | backend/src/services/analysisService.js:23-33 | `fraud_rings` lists the cycle rings, then the smurfing rings, then the shell rings, then the large-transaction rings |
| AnalysisService.MembersAreGraphNodes | backend/src/services/analysisService.js:20-33 | every member of every reported ring is a key of the node table and appears in `graph.nodes`, which lists the accounts in node order |
| AnalysisService.MembersAreParties | backend/src/services/analysisService.js:14-33 | every member of every reported ring is the sender or receiver of some input transaction |
| AnalysisService.NoFallbackRing | backend/src/services/analysisService.js:23-33 | given the detectors' guarantees, no listed account gets `RING_000`, and every ring's risk score lies between 83 and 95 |
| AnalysisService.NoFallbackOnTransactions | backend/src/services/analysisService.js:14-33 | for any non-empty input, no listed account gets `RING_000`, and every ring's risk score lies between 83 and 95 |
| AnalysisService.RepeatedDetections | backend/src/services/analysisService.js:23-26 | run again with the counter where the first run left it, the cycle, smurfing and shell rings are identical. There are as many large-transaction rings, with ids shifted by their count |
| AnalysisService.RepeatedReport | backend/src/services/analysisService.js:27-33 | with such detections, `fraud_rings` agrees entry for entry except the large-transaction ids, which are shifted |
| UploadScreen.BuildColorMap | frontend/src/components/uploadscreen.jsx:19-22 | the colour map is the result of writing `PALETTE[i % 8]` under each ring's id, in ring order |
| UploadScreen.RingColors | frontend/src/components/uploadscreen.jsx:15-22 | a ring id has a colour exactly when some ring has it. A ring whose id does not recur later gets `PALETTE[i % 8]`. Two positions get the same palette entry exactly when they agree mod 8 |
| UploadScreen.BuildSuspMap | frontend/src/components/uploadscreen.jsx:25-28 | the lookup is the result of writing each account under its id, in order |
| UploadScreen.NodesJoined | frontend/src/components/uploadscreen.jsx:25-43 | the nodes match `graph.nodes` one to one, in order, with id, counts and totals copied. A node with no account record gets score 0, no patterns and no ring. Otherwise it gets the last matching record's score / 100, its patterns and its ring id |
| UploadScreen.RingsMapped | frontend/src/components/uploadscreen.jsx:91-96 | the rings match `fraud_rings` one to one, with risk score / 100, and are empty when `fraud_rings` is absent |
| UploadScreen.SentEdgesMapped | frontend/src/components/uploadscreen.jsx:50-55 | with sent edges, the edges map one to one onto them: `sender_id` unless absent or empty, else `from`; likewise `receiver_id` and `to`; the amount, else 0 |
| UploadScreen.Visit | frontend/src/components/uploadscreen.jsx:64-65 | after visiting a pair, `seen` holds exactly the pairs visited, and the edges list each visited pair once, in order of first visit |
| UploadScreen.VisitCycle | frontend/src/components/uploadscreen.jsx:61-66 | the cycle loop visits each member's pair with its successor, the last with the first |
| UploadScreen.VisitFanIn | frontend/src/components/uploadscreen.jsx:67-73 | the fan-in loop visits each later member's pair with the first |
| UploadScreen.VisitFanOut | frontend/src/components/uploadscreen.jsx:74-79 | the fan-out loop visits the first member's pair with each later member |
| UploadScreen.VisitChain | frontend/src/components/uploadscreen.jsx:80-85 | the chain loop visits each member's pair with the next |
| UploadScreen.ReconstructEdges | frontend/src/components/uploadscreen.jsx:56-88 | the reconstructed edges are the rings' candidate pairs, ring after ring, each kept at its first occurrence, with amount 0 |
| UploadScreen.CycleYields | frontend/src/components/uploadscreen.jsx:62-63 | a cycle yields exactly the pairs `members[i] → members[(i + 1) % n]`, the closing pair included |
| UploadScreen.FanInYields | frontend/src/components/uploadscreen.jsx:69-72 | a fan-in ring yields exactly `members[k] → members[0]` for every later member, beneficiaries included |
| UploadScreen.FanOutYields | frontend/src/components/uploadscreen.jsx:75-78 | a fan-out ring yields exactly `members[0] → members[k]` for every later member |
| UploadScreen.ChainYields | frontend/src/components/uploadscreen.jsx:82-84 | any other ring yields exactly the chain `members[i] → members[i + 1]` |
| UploadScreen.RingPairsYield | frontend/src/components/uploadscreen.jsx:59-86 | a ring's candidate pairs are exactly those its pattern yields, with large-transaction rings treated as chains |
| UploadScreen.EdgesReconstructed | frontend/src/components/uploadscreen.jsx:56-88 | without sent edges, every edge has both endpoints and amount 0, and no (from, to) pair repeats. An edge `a → b` is present exactly when some ring yields it |
| UploadScreen.NormalizeResponse | frontend/src/components/uploadscreen.jsx:13-106 | the normaliser returns the reference view of the response |
| UploadScreen.BackendEdgesUnread | frontend/src/components/uploadscreen.jsx:50-55 | on a backend report with edges, the normaliser keeps one edge per report edge, with the amount but with both endpoints undefined, since it reads `sender_id`/`from` and `receiver_id`/`to` while the backend writes `source` and `target` |
| UploadScreen.AnalysisEdgesUnread | frontend/src/components/uploadscreen.jsx:50-55 | for any non-empty transaction list, the normalised analysis has one edge per transaction and none has an endpoint |
| UploadScreen.PassedThrough | frontend/src/components/uploadscreen.jsx:98-105 | the summary and the raw response pass through unchanged, and the colour map's keys are the ring ids |

## Left out

These are left out of the model:
- **CSV parsing** (`csvParser.js`) is a wrapper over a library. The pipeline takes the parsed transactions.
- **Not modelled at all:**
  - HTTP routes, the controller, the upload middleware and the error handler;
  - `fetch` and the React state of the upload screen, and every other frontend component;
  - the processing time: `performance.now` is a clock, so the time is a parameter; the non-number branch of `Number(processingTime) || 0` does not arise, because the parameter is a real.
- **Number and date formatting.** These simplifications affect scores, amounts and timestamps:
  - binary floating point: `Hundredths` rounds the exact real, so a value such as 1.005, which a double stores slightly below itself, rounds up here where `toFixed(2)` may round it down. Scores and risk scores are integers, so their `toFixed(1)` leaves them as they are.
  - A JavaScript number that is `NaN` or infinite is not modelled. An amount that does not parse is `None` and counts as 0.
  - `new Date(...)` is not modelled. Timestamps are integer milliseconds, and unparseable dates are excluded.
  - The ring-id string `padStart(3, '0')` is not modelled. Ids are a prefix and a counter.
- **Key strings.** The `join(',')` and `→` keys are modelled as member multisets and pairs. This is faithful only when no account id contains `,` or `→`.
- **Object keys.** The normaliser's plain-object lookups (`suspMap`, `ringColorMap`) are maps. A key that collides with an `Object.prototype` name is not modelled.
- **Pattern types.** `pattern_type` is a typed value. The `startsWith` call on a missing pattern type, which would throw, is not modelled. A fraud ring with no `member_accounts` is not modelled either.
- **Require path case.** `analysisService.js:6` requires `./largeTransactionDetector`, but the file is `Largetransactiondetector.js`. On a case-sensitive file system the module does not load. The model wires the detector in directly.
- **Transaction ids.** Graph edges never carry `transaction_id`, because the builder never copies it. So large-transaction rings and `graph.edges` always report it as undefined. The model has it as `None` throughout.
- **Dropped disperser.** A fan-out ring's `disperser` is dropped by the output stage. `ScoringService.FraudRingsOk` states this.
- **Ring timestamps.** A ring timestamp of `''` would be dropped as falsy. Timestamps are numbers here, so `timestamp` is always copied.
- CycleDetector.Detect: proves soundness only. Every ring is a well-formed, distinct, numbered cycle. It does not prove that every simple cycle of 3 to 5 accounts is found.
- ShellDetector.Detect: proves soundness only. Every ring is a well-formed, distinct, numbered chain. It does not prove that every qualifying chain is found.
- AnalysisService.RepeatedDetections: does not state "calling `analyze` twice" end to end over two whole reports. It states the two runs' detections, and `AnalysisService.RepeatedReport` states their `fraud_rings`.
