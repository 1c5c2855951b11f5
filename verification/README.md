# Valhalla mesh: a model of routing, relaying and registration

Valhalla is a mesh VPN: a control plane keeps nodes, mesh addresses and routes, and relay nodes carry
WireGuard datagrams between clients that cannot reach each other. This project models the parts whose
correctness does not show from any one function, and proves what they promise.

- **Routes** (`HopCost`, `MeshGraph`, `PriorityQueue`, `SearchTrace`, `Walks`, `Dijkstra`, `ClosedForm`,
  `MetricsWindow`, `RouteHistory`, `StaleRoutes`, `RouteService`). Node metrics become hop costs, online
  nodes become a weighted graph, and a lazy-deletion Dijkstra over a binary heap finds routes that are
  cached for a minute. The search is proved correct on every graph with non-negative edges: least cost over
  all walks, an error exactly when there is no walk below the sentinel, no node expanded twice, few pushes.
  On the graphs the control plane builds, the same search is proved to equal a formula: the pair itself, or
  one common neighbour of least cost. That is why the middle node of a path is the relay.
- **The mesh dispatcher** (`Framing`, `MeshToken`, `RoundRobin`, `SessionRegistry`, `Dispatcher`,
  `Forwarding`, `Delivery`, `Losses`, `Spreading`). Frames, tokens, the round-robin cursor and the session
  table (first its meaning, then as slices on shared arrays edited in place) come together in a step machine
  in which handlers of many connections interleave and writes fail part-way. Streams stay in sync, delivery,
  from the bytes that arrive to the frames that leave, neither invents nor duplicates nor reorders, and
  every datagram read has exactly one fate.
- **Wake-ups** (`Broker`). Two-phase publishes into one-slot channels, interleaved with long-poll requests:
  no wake-up is lost, no request wakes itself, and no subscription leaks.
- **Registration and mesh addresses** (`Registration`, `NodeService`, `RegistrationRuns`). What every run of
  registrations, deregistrations, heartbeats and stale sweeps keeps, with any statement free to fail. That
  public keys stay distinct is the unique index's doing and only carried along
  (`Registration.KeysAreDistinct`).
- **The UDP relay's session table** (`SessionTable`). Double-checked locking against a capacity.

Code that edits state in place is modelled by classes, arrays and loops, each proved against a
specification; the results about whole runs are lemmas over those specifications and over step machines that
share them. Clocks, fresh identities and failing I/O are parameters.

## What the proofs found

- **A cached route can be out of date though nothing has changed.** A node without news costs 999 from its
  fifth minute on (`control-plane/db/metrics_repo.go:51-59`), but a route through it is served from the cache
  for up to a minute more. `RouteHistory.AnswersLastIff` says exactly which routes this befalls: those on
  whose own path a node has fallen silent. It takes a node that stays online meanwhile: one whose heartbeats
  go on while their metrics fail to be stored (`control-plane/service/node_service.go:198-202`), or a
  `STALE_NODE_TIMEOUT` longer than its default of 90 seconds (`control-plane/config/config.go:82`).
- **A cached route can be older than its stamp.** A recalculation reads the tables once and stamps each route
  when the loop gets to it (`control-plane/service/route_service.go:131-157`), so a route stamped after a
  change may come from before it, and the cache serves it a minute after the change:
  `StaleRoutes.CachedReadingCanBeOld`. What holds is stated from the instant of the reading.
- **An address can be lost for good.** Deleting a node leaves its `ip_allocations` row with a NULL node
  (`control-plane/db/migrations/001_initial.sql:100-104`) unless the address was released first, and only
  deregistration does that. No later call removes such a row or assigns its address again. See
  `Registration.StepOrphansIff`, `Registration.StepFreesIff`, `Registration.OrphanedForGood`, and the run in
  `RegistrationRuns.AddressCanBeLost`.
- **"At most one row per device" depends on the lookup succeeding.** `RegisterNode` ignores the error of
  `FindByDeviceIDGlobal` (`control-plane/service/node_service.go:68`), so a failed lookup of a device that
  has a row can create a second one. `Registration.StepKeepsDevicesIff` states exactly when the promise of
  `control-plane/service/node_service.go:51-53` is kept; `RegistrationRuns.DeviceCanHaveTwoRows` breaks it.
- **The 20-device cap is not looked at when a device moves account**: `Registration.MigrationKeepsCapIff`,
  and the run in `RegistrationRuns.CapCanBeOverrun`.
- **The cursor's fairness ends at its 64-bit wrap** unless the list length divides 2^64
  (`RoundRobin.FairForeverIff`).
- **A HELLO does not replace existing sessions**, whatever `relay-node/mesh/protocol.go:17-20` says: up to
  16 streams per key live side by side (`relay-node/mesh/dispatcher.go:19-23`). The model follows the code.
- **The routes table never updates a row.** `Upsert` resolves conflicts on a serial primary key it never
  supplies, so each store is a new row; the model's table only grows until rows expire or their nodes go.

## Model

| member | source | states |
|---|---|---|
| HopCost.CostBounds | control-plane/routing/cost.go:33-44 | costs are never negative, and a measured node's never exceeds the total weight |
| HopCost.CostIsMonotone | control-plane/routing/cost.go:29-44 | "lower cost = better route": worsening any metric never lowers the cost, nor does ceasing to report |
| HopCost.WeightsAreShares | control-plane/routing/cost.go:12-17 | each weight is exactly what its own metric adds between its best and worst value, whatever the others are |
| HopCost.CostWrittenOut | control-plane/routing/cost.go:29-54 | a measured cost is the weighted sum of rtt out of 500 ms, bandwidth short of 1000 Mbps, connections out of 10000 and loss, each cut off at 0 and 1; without metrics it is 999 |
| HopCost.DefaultCostWrittenOut | control-plane/routing/cost.go:20-27 | by default those weigh 0.40, 0.25, 0.15 and 0.20 |
| HopCost.DefaultCostRange | control-plane/routing/cost.go:20-54 | with the default weights a measured cost lies in [0, 1], is 0 only for a node ideal in every respect and 1 only for one saturated in all |
| MeshGraph.BuildEdges | control-plane/routing/graph.go:39-63 | the pair loop gives every node, in list order, exactly one edge to each node it may link with |
| MeshGraph.BuildGraph | control-plane/routing/graph.go:28-66 | the graph holds the nodes by ID and those edge lists |
| MeshGraph.ByIdHolds | control-plane/routing/graph.go:35-37 | with unique IDs, the nodes map finds every listed node under its ID and no other |
| MeshGraph.BuiltLinksRows | control-plane/routing/graph.go:21-63 | an edge leads from one row to another exactly if not both are clients and not both are without endpoint; it costs the mean of their two costs, and there is no other |
| MeshGraph.MeshIsWellFormed | control-plane/routing/graph.go:28-66 | a built graph meets what the search needs: non-negative edges, filed under their start, between nodes of the graph |
| MeshGraph.CostsAreNonNegative | control-plane/routing/graph.go:56-58 | with non-negative weights every node of the graph, measured or not, costs at least 0 |
| PriorityQueue.RootIsLeast | control-plane/routing/optimizer.go:105-106 | in a heap ordered by Less no item is cheaper than the root |
| PriorityQueue.SiftedUp | control-plane/routing/optimizer.go:106-111 | swapping an item with its dearer parent leaves a heap but for one link, a level further up |
| PriorityQueue.SiftedDown | control-plane/routing/optimizer.go:106-111 | swapping an item with its cheaper child leaves a heap but for one item, a level further down |
| PriorityQueue.PriorityQueue.Push | control-plane/routing/optimizer.go:113-117 | heap order is kept, exactly the new item is added, and the trace gains that push |
| PriorityQueue.PriorityQueue.Pop | control-plane/routing/optimizer.go:119-127 | takes out one item of least cost, any of several equal ones, keeps heap order over the rest, and the trace gains that pop |
| SearchTrace.FreshIff | control-plane/routing/optimizer.go:47-49 | an entry passes the stale check exactly if no cheaper one was ever pushed for its node |
| SearchTrace.DegreesCountEdges | control-plane/routing/optimizer.go:51 | the out-degrees of distinct nodes add up to the number of directed edges leaving them |
| SearchTrace.PushesAtMostEdges | control-plane/routing/optimizer.go:38-59 | a search pushes at most once more than the graph has directed edges |
| Dijkstra.FreshPop | control-plane/routing/optimizer.go:40-49 | an entry that passes the stale check is for a node never expanded before, and expanding it keeps the invariant |
| Dijkstra.StalePop | control-plane/routing/optimizer.go:47-49 | skipping a stale entry keeps the invariant |
| Dijkstra.ImproveEdge | control-plane/routing/optimizer.go:51-58 | an improving edge never leads to an expanded node, and recording it keeps the invariant even where edges cost nothing |
| Dijkstra.WalkBound | control-plane/routing/optimizer.go:40-59 | between any two turns of the loop, each walk below the sentinel ends at an expanded node no dearer, or some queued entry is no dearer |
| Dijkstra.PoppedIsCheapest | control-plane/routing/optimizer.go:41-45 | leaving at the first entry popped for the destination, before the stale check, leaves the least cost of all walks there |
| Dijkstra.DrainedIsUnreachable | control-plane/routing/optimizer.go:40-63 | an empty queue means no walk below the sentinel reaches the destination |
| Dijkstra.TreeWalkArrives | control-plane/routing/optimizer.go:51-57 | the recorded predecessors form a walk from the source whose edge sum is the tentative cost |
| Dijkstra.TreeWalkRanks | control-plane/routing/optimizer.go:65-72 | that walk repeats no node, because each predecessor was expanded earlier |
| Dijkstra.TreeWalkIsShortcutFree | control-plane/routing/optimizer.go:51-57 | no edge skipping stops of that walk is even as cheap as what it skips, since ties keep the earlier way in |
| Dijkstra.RelaxEdge | control-plane/routing/optimizer.go:51-58 | one edge of the node being expanded is relaxed with at most one push, which lowers the costs pushed for its node; dist, prev, queue and trace stay in step |
| Dijkstra.Relax | control-plane/routing/optimizer.go:51-58 | all edges of the expanded node are relaxed, with at most one push on the queue per edge |
| Dijkstra.Visit | control-plane/routing/optimizer.go:40-59 | one popped entry is skipped exactly if stale, and otherwise expands exactly its node, for the first time |
| Dijkstra.Explore | control-plane/routing/optimizer.go:29-63 | the loop ends, with the destination at its least cost or, exactly at the sentinel, unreachable; by the trace of its queue no node was expanded twice, the costs pushed for a node fell strictly, and there was one push more than edges of expanded nodes at most |
| Dijkstra.Reconstruct | control-plane/routing/optimizer.go:65-72 | the prev chain ends at the source and yields the stops of the recorded walk, in order |
| Dijkstra.ShortestPath | control-plane/routing/optimizer.go:20-93 | each of the three errors occurs exactly in its case; otherwise the route is a cheapest walk without repeats or shortcuts, classified by its length |
| ClosedForm.WalkCostTelescopes | control-plane/routing/graph.go:56-61 | a walk costs half of each end plus the whole of what lies between |
| ClosedForm.NeighboursNest | control-plane/routing/graph.go:44-54 | of two distinct unlinked nodes, one has only neighbours that the other shares |
| ClosedForm.AtMostTwoHops | control-plane/routing/optimizer.go:74-81 | a shortcut-free walk has at most two hops, and two only between unlinked ends |
| ClosedForm.BestRouteIsClosedForm | control-plane/routing/optimizer.go:20-93 | whatever the metrics, node order and heap ties, a best route is the source alone, the linked pair, or the pair with one common neighbour of least cost between |
| ClosedForm.ReachableIffConnected | control-plane/routing/optimizer.go:61-63 | there is a walk below the sentinel exactly if the ends are equal, linked, or share a neighbour |
| ClosedForm.WeightsPrice | control-plane/routing/cost.go:33-44 | with weights totalling at most 999, no node costs more than one without metrics |
| ClosedForm.UnmeasuredRelayIsLastResort | control-plane/routing/cost.go:34-36 | a node without metrics relays only for pairs none of whose common neighbours has any |
| ClosedForm.ClosedFormByRows | control-plane/routing/graph.go:39-63 | the closed form, and whether there is one, said of the node types, endpoints and prices of the rows alone |
| ClosedForm.FindRoute | control-plane/routing/optimizer.go:20-93 | on a built graph the route is the pair itself exactly if not both are clients and one at least has an endpoint, else goes by a cheapest row that both may link with, and is missing exactly if there is none |
| RouteHistory.OnlineRows | control-plane/db/node_repo.go:156-165 | exactly the rows marked online are listed, each once |
| RouteHistory.AnswersAreSound | control-plane/routing/graph.go:44-51 | every route computed has one to three stops from its source to its destination, and is a relay route for any two distinct clients |
| RouteHistory.AnswerByRows | control-plane/service/route_service.go:268-290 | an answer, said of the rows read: each stop costs what its last report of the past five minutes gives in the four-term sum, or 999 if there is none, the relay is a row that both ends may link with, and none such costs less |
| RouteHistory.AnswersAgree | control-plane/db/metrics_repo.go:51-72 | while no table changes, a later answer to a pair is as long as an earlier one and no cheaper, and costs the same exactly if the ends are one node, or both keep their price and are linked or share a neighbour that now costs what the earlier relay did |
| MetricsWindow.LatestIs | control-plane/db/metrics_repo.go:51-72 | a node has metrics exactly if it has reported in the last five minutes, and then those of a latest report |
| MetricsWindow.PricesOnlyRise | control-plane/db/metrics_repo.go:51-72 | with no new report, time leaves a price as it is or raises it from at most 1 to 999, exactly when the last report turns five minutes old |
| RouteHistory.AnswersLastIff | control-plane/routing/optimizer.go:91 | in unchanged tables an answer stays the answer exactly as long as no stop on its path falls silent; others falling silent do not matter |
| StaleRoutes.CachedAnswerCanAge | control-plane/db/route_repo.go:37-45 | a route cached while its relay was reporting is still served two seconds later, when it no longer is an answer though no table has changed |
| StaleRoutes.CachedReadingCanBeOld | control-plane/service/route_service.go:131-157 | a route whose tables were read before its relay went offline, and which was stamped after, is served a minute after that change though it is no answer and all its stops report |
| RouteHistory.ReadAsLast | control-plane/service/route_service.go:131-157 | a row whose nodes and metrics were read after the last change of the tables was the answer in the tables as they are |
| RouteService.RouteService.Upsert | control-plane/db/route_repo.go:21-35 | exactly one row is added if the statement works and the nodes it names are still there, else none; every row ever stored stays one that answered its pair by tables read before it was stamped |
| RouteService.RouteService.AnswerPair | control-plane/service/route_service.go:157 | on a graph of nodes and metrics read some time ago the search answers exactly the pairs connected then, with a route stamped now and fit to be stored |
| RouteService.RouteService.ChangeTables | control-plane/db/migrations/001_initial.sql:53-63 | whatever else changes nodes, metrics and relays, stored routes survive exactly with both their ends, and stay what the tables once read answered |
| RouteService.RouteService.DeleteExpired | control-plane/db/route_repo.go:61-68 | exactly the rows past their expiry go |
| RouteService.RouteService.GetOptimal | control-plane/db/route_repo.go:37-59 | the cheapest unexpired row of the pair, or nothing exactly when there is none |
| RouteService.RouteService.CalculateRoute | control-plane/service/route_service.go:268-290 | with the tables changing between its queries: the route costs half of each end and all of the relay, a node counting by the four terms of its own last report or 999 without one, and no row that both ends may link with counts less than the relay; it fails exactly on failed queries or when by the rows read there is no such route; it is stored exactly if that works, which is no condition for returning it |
| RouteService.RouteService.RecalculatePair | control-plane/service/route_service.go:155-173 | one pair is answered from tables read earlier exactly if it is a client and an exit node connected then, stamped now, and stored exactly if the statement works and its nodes are still there |
| RouteService.RouteService.RecalculateAllRoutes | control-plane/service/route_service.go:130-177 | with the tables changing from pair to pair, every client and exit node connected when read gets a row or a warning, a warning only if storing failed or a node read was gone; every row is the exact answer by the tables as read, and the count returned is the number stored |
| RouteService.RouteService.GetOptimalRoute | control-plane/service/route_service.go:118-127 | the cheapest live cached row if any, else a fresh answer: always one for this pair, stamped less than a minute before, and the answer by nodes and metrics read before the stamp; if those were read since the tables last changed, it is the current answer exactly until a stop on its path falls silent |
| RouteService.RouteService.KeptIsExact | control-plane/service/route_service.go:118-127 | any stored route whose tables were read since they last changed is exact until, and only until, a stop falls silent, and direct only between ends linked now |
| RouteService.RouteService.GetBestAvailable | control-plane/db/metrics_repo.go:292-310 | a relay heard of in the last five minutes with sessions to spare, capacity less active sessions being at least that of any other such, or nothing exactly when there is none |
| RouteService.RouteService.GetById | control-plane/db/node_repo.go:114-130 | the row of that ID, or nothing exactly when there is none |
| RouteService.RouteService.PubkeyOfNode | control-plane/service/route_service.go:105-115 | the caller's key, or empty exactly when it has none to give |
| RouteService.RouteService.GetOptimalRouteResponse | control-plane/service/route_service.go:189-240 | with the tables changing between its queries: relay credentials are present exactly on relay connections, name the roomiest live relay of the moment and are bound to the caller; two distinct clients always get a relay; a missing route falls back to one; a direct route read since the last change joins linked ends; the answer fails only for an unknown destination, no usable relay or a failed query |
| Framing.Stream.ReadFrame | relay-node/mesh/dispatcher.go:300-314 | consumes exactly one frame, or says which of the two errors ends the stream |
| Framing.ReadBack | relay-node/mesh/protocol.go:6-11 | a frame reads back unchanged, whatever follows it, exactly if its payload is under 65535 bytes |
| Framing.FrameLayout | relay-node/mesh/protocol.go:6-11 | two bytes of length, the more significant first and counting what follows, then the type, then the payload |
| Framing.ReadIsCanonical | relay-node/mesh/dispatcher.go:300-314 | bytes that read as a frame are that frame's encoding and no other |
| Framing.OutOfRangeIffZero | relay-node/mesh/dispatcher.go:305-308 | the only length out of range is zero; the upper bound never triggers |
| Framing.CutFrameEndsStream | relay-node/mesh/dispatcher.go:300-314 | a frame cut anywhere reads as the end of the stream, never as another frame |
| Framing.ReadAllOfConcat | relay-node/mesh/dispatcher.go:300-314 | frames written back to back and then cut off parse to exactly those frames |
| Framing.ForwardedFrame | relay-node/mesh/dispatcher.go:159-167 | every readable datagram is forwarded with the same length field, as the sender's key and the identical ciphertext; the 16-bit conversion never truncates |
| MeshToken.BigEndianRoundTrip | control-plane/service/route_service.go:75 | big-endian bytes decode to the number encoded |
| MeshToken.MostSignificantFirst | control-plane/service/route_service.go:75 | the bytes are the digits base 256, most significant first |
| MeshToken.ExpiryRoundTrip | relay-node/mesh/dispatcher.go:206 | any 64-bit signed expiry survives the unsigned wire form |
| MeshToken.AcceptedIffValid | relay-node/mesh/dispatcher.go:193-218 | under a secret a HELLO is accepted exactly if it holds a key, an expiry not yet past and the MAC of the two under that secret |
| MeshToken.IssuedTokenAdmits | control-plane/service/route_service.go:64-84 | what the control plane mints, the relay accepts for that key until exactly seven days later, and not after |
| MeshToken.TokenIsBound | relay-node/mesh/dispatcher.go:193-218 | a token presented with another key passes only if the MACs of the two signed messages coincide |
| MeshToken.BareKeyAdmits | relay-node/mesh/dispatcher.go:171-191 | a bare key is admitted exactly while no secret is set |
| RoundRobin.CursorSteps | relay-node/mesh/dispatcher.go:258 | incrementing one at a time across the wrap is the same as adding |
| RoundRobin.HitsAreFair | relay-node/mesh/dispatcher.go:254-259 | any k consecutive numbers leave each remainder modulo n floor(k/n) or ceiling(k/n) times |
| RoundRobin.PicksAreFair | relay-node/mesh/dispatcher.go:249-259 | while the cursor does not wrap, or n divides 2^64, any k consecutive picks give each of n streams floor(k/n) or ceiling(k/n) datagrams |
| RoundRobin.FairForeverIff | relay-node/mesh/dispatcher.go:46 | the cursor is fair over every run, wraps included, exactly if the list length divides 2^64 |
| Spreading.StreamsShareFairly | relay-node/mesh/dispatcher.go:249-259 | over any stretch of a run in which a destination's n streams stay the same and the cursor moves for it alone, each is chosen for floor(k/n) or ceiling(k/n) of its k datagrams, while the cursor does not wrap or n divides 2^64 |
| SessionRegistry.WithoutIs | relay-node/mesh/dispatcher.go:236-241 | removal takes out the first occurrence only and keeps the order of the rest |
| SessionRegistry.RegisterKeeps | relay-node/mesh/dispatcher.go:220-230 | lists stay of 1 to 16 sessions of their own key in order of joining; below 16 the newcomer joins and none leaves, and at 16 exactly the one that joined before all the others leaves |
| SessionRegistry.UnregisterKeeps | relay-node/mesh/dispatcher.go:232-247 | exactly that session leaves, no empty list stays, and a late call for an evicted session changes nothing |
| SessionRegistry.OneList | relay-node/mesh/dispatcher.go:220-230 | a live session is on the list of its own key and on no other |
| Dispatcher.Append | relay-node/mesh/dispatcher.go:229 | appending, in place or by moving to a larger array, yields the old elements and the new one |
| Dispatcher.RemoveAt | relay-node/mesh/dispatcher.go:238 | shifting the tail down in place removes that one element from the window |
| Dispatcher.AdmitTo | relay-node/mesh/dispatcher.go:223-229 | on the backing array, the newcomer goes to the end of the list, and of 16 the one that joined first slides off and is the one closed |
| Dispatcher.RemoveFrom | relay-node/mesh/dispatcher.go:235-241 | on the backing array, the session's first occurrence goes and the rest keeps its order |
| Dispatcher.AddUp | relay-node/mesh/dispatcher.go:292-296 | the sum of list lengths, in any order of keys, is the number of distinct live sessions |
| Dispatcher.Dispatcher.Register | relay-node/mesh/dispatcher.go:220-230 | on shared backing arrays, the newcomer goes to the end of its key's list; below 16 nothing else changes, and at 16 the session that joined first leaves and its connection alone is closed; no other key's list is disturbed |
| Dispatcher.Dispatcher.Unregister | relay-node/mesh/dispatcher.go:232-247 | on shared backing arrays, the table becomes what the specification says and no other key's list is disturbed |
| Dispatcher.Dispatcher.ActiveSessions | relay-node/mesh/dispatcher.go:288-297 | the number of distinct sessions in the table |
| Dispatcher.Dispatcher.PickTarget | relay-node/mesh/dispatcher.go:253-264 | a stream of the destination, the one the advanced cursor points at; without one, nothing, and the cursor stays |
| Forwarding.StepKeeps | relay-node/mesh/dispatcher.go:105-286 | every step of every handler keeps the whole invariant, and puts nothing on a closed connection |
| Forwarding.RunKeeps | relay-node/mesh/dispatcher.go:105-286 | so the invariant holds in every state of every interleaving |
| Forwarding.StreamsStayInSync | relay-node/mesh/dispatcher.go:266-285 | what is on a connection at any time is whole frames and at most one cut one: a reader gets exactly the frames written |
| Forwarding.DeliveryIsFaithful | relay-node/mesh/dispatcher.go:249-286 | each frame delivered is a datagram a session admitted under the key shown sent to this key; none is delivered twice; those of one source reach one stream in order |
| Delivery.LogIsWhatArrived | relay-node/mesh/dispatcher.go:141-168 | over every run, the datagrams logged for a session are, one for one and in order, the forwardable frames taken from it, which are the first frames in the bytes that arrived |
| Delivery.DeliveryIsEndToEnd | relay-node/mesh/dispatcher.go:105-286 | over every run, each frame readable off a connection is one datagram in the bytes that arrived on another, addressed to the key that this connection's first frame authenticates and passed on under the key that the other's does; different frames are different datagrams, and those of one source keep their order on one connection |
| Forwarding.LogIsWhatWasRead | relay-node/mesh/dispatcher.go:141-168 | a datagram counts as sent only when its own session has just read it |
| Forwarding.KeysAreAuthenticated | relay-node/mesh/dispatcher.go:112-131 | a session's key is the one its HELLO authenticated, and never changes |
| Delivery.KeysComeFromHello | relay-node/mesh/dispatcher.go:112-131 | over every run, a session's key is the one that the first frame taken from it, a HELLO, authenticates |
| Forwarding.NothingAfterClose | relay-node/mesh/dispatcher.go:276-284 | after a failed write, or any close, nothing more is ever put on the connection |
| Forwarding.TableIsExact | relay-node/mesh/dispatcher.go:220-247 | in every reachable state the table is in order and holds exactly the sessions admitted less those evicted or unregistered |
| Forwarding.WaitersAreServed | relay-node/mesh/dispatcher.go:274-275 | no deadlock: a handler waiting for a write mutex can take it, or its holder is writing to that stream and can let go of it in one step |
| Forwarding.EveryDatagramHasOneFate | relay-node/mesh/dispatcher.go:253-286 | each datagram read is in its handler's hand, on exactly one stream, or given up for a recorded reason: exactly one of the three |
| Losses.LossesAreJustified | relay-node/mesh/dispatcher.go:253-284 | over every run, a datagram is given up only because its destination had no stream when its handler looked, or because a write to one of its destination's streams failed, whose connection is closed |
| Broker.Broker.Subscribe | control-plane/events/broker.go:26-33 | adds one empty channel under its account and nothing else |
| Broker.Broker.Unsubscribe | control-plane/events/broker.go:34-43 | takes out that channel, and the account's entry with its last one |
| Broker.Broker.Publish | control-plane/events/broker.go:49-63 | leaves exactly one wake-up in every channel of the account and touches no other |
| Broker.StepKeeps | control-plane/handler/node.go:226-254 | every step of every request keeps the invariant |
| Broker.WakeupsWait | control-plane/events/broker.go:46-48 | after a send attempt, a request that still waits has a wake-up to receive, whatever ran in between |
| Broker.RereadSeesTheNews | control-plane/handler/node.go:244-248 | a request that re-reads after waking sees every write any wake-up sent to it before stood for |
| Broker.WakersAreSiblings | control-plane/handler/node.go:233-235 | no request wakes itself, and none wakes another account |
| Broker.SubscriptionsAreExact | control-plane/events/broker.go:23-25 | in every reachable state the map holds exactly the channels subscribed and not unsubscribed, under their accounts, and no empty entry |
| Broker.SnapshotTakesThePollers | control-plane/events/broker.go:50-56 | a publish is for exactly the requests of its account subscribed at its snapshot |
| Broker.PublishReachesAll | control-plane/events/broker.go:57-62 | each channel of the snapshot is attempted, or still due |
| Broker.PublishWakesPollers | control-plane/events/broker.go:46-63 | no lost wake-up: from when a publish has tried a request of its snapshot, in every later state that request, if it still waits, has a wake-up to receive, wherever the publisher is by then |
| Registration.LiveAddressesAreDistinct | control-plane/db/metrics_repo.go:85-133 | over every run, whatever fails, no two nodes share a mesh address and none has the network or broadcast address |
| Registration.CreationTakesAddress | control-plane/db/metrics_repo.go:85-97 | a new node takes its own address and no other out of supply, even when recording the allocation fails |
| Registration.StepOrphansIff | control-plane/db/migrations/001_initial.sql:100-104 | any call loses an address exactly if it deletes the address's node without releasing it first: by the sweep, as a ghost row, or after a failed release |
| Registration.StepFreesIff | control-plane/db/metrics_repo.go:129-133 | any call gives an address back exactly if it deletes the node that has it and any allocation row was released first, as only deregistration does |
| Registration.OrphanedForGood | control-plane/db/migrations/001_initial.sql:100-104 | an address whose allocation row has lost its node is never given out again |
| Registration.DeregistrationFrees | control-plane/service/node_service.go:169-175 | a deregistration whose statements work makes the node's address available |
| Registration.SweepOrphans | control-plane/db/node_repo.go:220-235 | the stale sweep orphans exactly the recorded addresses of what it deletes |
| Registration.CreationKeepsDevicesIff | control-plane/service/node_service.go:129-154 | creating a row keeps one row per device exactly if the device has none |
| Registration.StepKeepsDevicesIff | control-plane/service/node_service.go:51-53 | any call keeps one row per device, exactly but for a registration whose lookup fails though the device has a row, and whose account, address, key and statements let it create another |
| Registration.OneRowPerDevice | control-plane/service/node_service.go:51-53 | from empty tables, while lookups work, there is never more than one row per device |
| Registration.AccountsStayForLife | control-plane/service/node_service.go:70-77 | with antifraud on, over any stretch of a run in which a row lives, it keeps its account and device |
| Registration.StepKeepsCap | control-plane/service/node_service.go:118-126 | with antifraud on, no call, whatever fails, takes an account past 20 devices |
| Registration.DeviceCapHolds | control-plane/service/node_service.go:46-49 | so the cap holds over every run |
| Registration.MigrationKeepsCapIff | control-plane/service/node_service.go:59-62 | a cross-account move keeps the cap exactly if the receiving account has room, not counting ghost rows the move sweeps from it |
| Registration.ReregistrationKeepsRow | control-plane/db/node_repo.go:65-97 | the device keeps its row, address and device ID under the new account, other devices' rows are untouched, and its ghosts go exactly if the sweep works |
| Registration.RegisteredRow | control-plane/service/node_service.go:81-154 | after a registration that went through, the row answered for has the request's name, public key and account at the address answered; an old row keeps address, device and age and counts as seen now, a new one is the request's device, not yet seen; no other row is written |
| Registration.OutcomeIsDecided | control-plane/service/node_service.go:66-154 | tables and faults alone decide whether a registration goes through, and for which one reason it fails |
| RegistrationRuns.AddressCanBeLost | control-plane/db/node_repo.go:220-235 | a run of two calls from empty tables, one registration and one sweep, that loses an address |
| RegistrationRuns.DeviceCanHaveTwoRows | control-plane/service/node_service.go:68 | a run of two registrations from empty tables that leaves a device with two rows |
| RegistrationRuns.CapCanBeOverrun | control-plane/service/node_service.go:79-89 | without antifraud, a run of registrations from empty tables that leaves an account with 21 devices |
| NodeService.LatestRow | control-plane/db/node_repo.go:42-63 | of the device's rows, one seen no earlier than any other, or if none was seen created no earlier; nothing exactly when there is none |
| NodeService.NodeService.FindAvailable | control-plane/db/metrics_repo.go:85-104 | a host address that neither table mentions, exactly if the query works and there is one |
| NodeService.NodeService.RegisterNode | control-plane/service/node_service.go:66-167 | goes through exactly when the branch its tables and faults put it in does, and then the row answered for holds the request's name, public key and account at the address answered; otherwise nothing changes and the error is the one whose condition holds |
| NodeService.NodeService.DeregisterNode | control-plane/service/node_service.go:169-175 | the address is released, then the node deleted; a failed release does not stop the deletion |
| NodeService.NodeService.DeleteStaleBefore | control-plane/db/node_repo.go:220-235 | a node survives exactly if last seen, or if never seen created, at the cutoff or after; survivors and the addresses on record are unchanged, and the count is how many fewer nodes there are |
| SessionTable.SessionTable.Lookup | relay-node/relay/session.go:38-44 | a hit returns the stored session, refreshed; a miss changes nothing |
| SessionTable.SessionTable.LookupOrCreate | relay-node/relay/session.go:46-67 | a session is given exactly if the key has one or there is room, the key's own if it has one; the caller is told it created it exactly if so; the table then holds it, refreshed, and all others unchanged |
| SessionTable.SessionTable.GetOrCreate | relay-node/relay/session.go:35-68 | run alone, the two looks amount to the second |
| SessionTable.SessionTable.CleanStale | relay-node/relay/session.go:78-91 | a session stays, unchanged, exactly if last seen at the cutoff or after, and the count is how many fewer there are |
| SessionTable.DropStale | relay-node/relay/session.go:82-90 | deleting from the map while ranging over it visits every session once, in any order |
| SessionTable.StepKeeps | relay-node/relay/session.go:35-91 | every locked region keeps the capacity bound, distinct session objects and the balance of creations and removals |
| SessionTable.TableIsBounded | relay-node/relay/session.go:49-57 | over every interleaving the table stays within capacity and no key is created twice without a removal between |
| SessionTable.CallersShare | relay-node/relay/session.go:49-53 | while a key's session is not removed, every look-up and every creation for that key answers with that session, and with "not created" |
| SessionTable.OneCreator | relay-node/relay/session.go:49-67 | between two removals exactly one caller is told it created the session if the key had none before and has one after, and otherwise none |

## Left out

- RouteService: between any two queries of a call the tables may change, but two calls of the service do not interleave query by query; the contract of one pair of a recalculation asks nothing of what ran before it.
- RouteService.RouteService.GetBestAvailable: each query is one instant; the database's clock and the program's are the same.
- MetricsWindow: of reports stored for one node at one instant the model takes the last; the query may take any.
- Floating point: costs are exact reals, so rounding in `Cost` and the REAL column of the routes table are not modelled.
- Sockets, deadlines, listeners and accept loops: connections are byte sequences with a closed flag; partial writes and failures are steps.
- Forwarding: a connection may close at any step, a handler may be rejected at any time before its HELLO is taken, and a write may report failure after all its bytes went out; the program does fewer of these.
- Forwarding: progress in time is not modelled; the freedom from deadlock is about which steps are possible, not when they happen.
- HMAC-SHA256, base64 and JWT: the MAC is an uninterpreted function, and base64 around a token is left out.
- MeshToken.TokenIsBound: says nothing of how hard a MAC collision is to find, which is the MAC's own promise.
- RouteService: credentials of a relay beyond its address, port and the key its token is bound to are copies of fields.
- RouteService: the database refuses to delete a node that a stored route names as its relay; in the model such a deletion may happen, and only storing a route asks for its relay.
- RouteService.RouteService.RecalculateAllRoutes: the program splits clients and exits into two lists before its loops; the model looks at the types inside them and so visits the same pairs in the same order.
- SQL: each statement is one atomic step that works or fails as a whole; transactions, replication and other accounts' traffic inside one registration are not modelled, so the registration results are per atomic call.
- Registration: columns no invariant speaks of (status, operating system, endpoints, order, folders) and the rest of ProcessHeartbeat, which writes them.
- NodeService.NodeService.RegisterNode: the peer list in the response is left out; it changes no table.
- Broker: HTTP parsing and the ownership condition of a heartbeat; a request enters the model at its write. Writes between a request's first reading and its subscription are seen only by its next poll, and nothing is claimed for them.
- Broker: every request of the machine publishes after one write; settings and peer changes that publish from other handlers behave as such requests that do not go on to poll.
- SessionTable.SessionTable.Lookup: the program writes the last-seen time under a read lock; the model makes that write atomic and does not speak of the race.
- SessionTable: byte counters and addresses of a session, which the table does not look at.
- The index field of a heap item, which is written and never read.
- The UDP relay loop, STUN attributes, TCP fallback framing, settings patching, the relay allowlist, configuration, the Remnawave client, SSH setup, connection logs and exit-node commands: glue, or facts evident from one body.
