# PDDM in Dafny

PDDM answers an aggregation query over meters that gossip in rounds: in round t, meter i sends to i + 2^t mod N.
This project models the protocol code, and the queues and scheduler it runs on, and proves what the parts promise
together. Every property is for all inputs, all runs or all interleavings, unless its row says otherwise.

`dafny verify dfyconfig.toml` checks everything.

## The parts

- `Arith`, `Overlay`, `Coverage`: 32-bit modular exponentiation, the gossip functions and their memo tables, and when
  a node's targets cover everyone.
- `PathFinder`: the infection search and the node-disjoint search built on it, as loops proved against "no admissible
  path is earlier".
- `Phases`, `RoundEngine`, `ProtocolStateObject`: the phase machines of the three variants (CT crash-tolerant, HFT for
  high failure rates, BFT Byzantine-tolerant), the round engine as a terminating specification, and the object whose
  methods are proved equal to it.
- `Failures`: one meter under any arrivals, timeouts and unreachable neighbours: progress, what it records, what it takes.
- `AsyncRefinement`: all nodes together, batches delayed arbitrarily, against the synchronous execution.
- `Queries`: what messages left over from an earlier query do to the next one.
- `Routing`, `Forwarding`, `Delivery`: planned paths against the greedy forwarding rule, who handles a message, and when
  a value is recorded.
- `Shuffle`, `Multicasts`, `Protocols`, `Collect`: contributions, echoes and signatures reaching the proxies, the CT and
  BFT objects, and the whole CT protocol up to the utility.
- `Hft`, `Flood`, `Gather`: the flooding object, the exact spread of a flood and its arrival, and the whole protocol up
  to the utility.
- `Crusader`, `CrusaderAgreement`, `CrusaderRun`: the agreement handlers, the object, and runs with faulty meters.
- `Groups`, `TreeAggregation`, `TreeRun`, `Conservation`, `Crashes`: groups, proxies and trees, the aggregation objects,
  the aggregate phase of all meters, the sum that reaches the utility, and what crashed meters cost.
- `SpscQueue`, `SpscCapacity`, `SpscProgress`, `MpmcQueue`, `OptimisticDequeue`: the lock-free queues as interleaved atomic steps.
- `Simulation` (file `EventManager.dfy`): the simulator's scheduler.

An object of the source is a class whose methods are proved equal to a specification on values; the properties are
proved about that specification. Concurrent code and the distributed protocols are state machines whose moves are the
atomic steps, deliveries or events.

## What the code does not promise everywhere

Each of these is a lemma with the exact condition or a concrete input.

- `mod_pow` multiplies in 32 bits: 2^32 mod 65537 comes out as 0. For base 2, `Overlay.ModPowBaseTwo` says exactly
  when it is right; all N up to 65536 are.
- `mod_subtract` yields m instead of 0 when x < y and m divides the difference (`Overlay.ModSubtractCorrect`), which
  the callers' arguments never meet for N >= 2.
- `start_query` leaves `waiting_messages` alone, and a meter discards messages of an earlier query, final or not. A
  leftover at the end of a batch therefore keeps its receiver in the round as long as the sender is alive
  (`Queries.BatchEndsRound`, `Queries.LeftoverStopsReceiver`); `Queries.OneQueryIff` says exactly when a query is spared.
- A contribution whose planned path cannot be travelled within the shuffle phase does not reach its proxy in it, and
  that is the only reason (`Shuffle.CtShuffleDelivers`, `Shuffle.BftShuffleDelivers`). A message that cannot reach its
  last hop within the overlay is left waiting, and only such a message is (`Queries.LeftWaitingIff`).
- Phase 1 of agreement stores the whole signature map of the first message for a value though it checks one signature,
  and phase 2 keeps the accepter's signature unchecked (`Crusader.Phase1StoresUnchecked`,
  `Crusader.MergedEntryNotRelayed`). `Crusader.Phase1KeepsVerified` gives the exact condition for the first; validity
  needs first messages without invalid signatures, which single-signature messages are.
- `start_aggregate_phase` tests the phase before its loop over buffered messages, not in it, so a message buffered
  from a child counted as failed makes the meter send twice (`TreeRun.StartSends`).
- Equal contributions of two meters collapse in the receivers' sets, so the contributor count is N plus the group's
  size exactly when all contributions differ (`Conservation.EndToEnd`).

## Model

| member | source | states |
|---|---|---|
| Overlay.ModPow | src/util/Overlay.cpp:30-39 | the loop computes num^pow mod m for every exponent when num < 65536 and m <= 65536, and in general the value the 32-bit loop specification gives |
| Overlay.ModPowBaseTwo | src/util/Overlay.cpp:30-39 | for base 2, the only base the overlay uses, the result is 2^pow mod m if and only if m <= 65536, the exponent is below 32 or m divides 2^32 (for m = 1: the exponent is positive) |
| Overlay.ModPowWraps | src/util/Overlay.cpp:30-39 | a concrete wrap-around: 2^32 mod 65537 comes out as 0 instead of 1 |
| Overlay.LoopComputesPower | src/util/Overlay.cpp:30-39 | the square-and-multiply loop preserves result * num^pow mod m |
| Overlay.GossipFormulas | src/util/Overlay.h:16-38 | targets and predecessors are i + 2^t and i - 2^t mod N |
| Overlay.GossipInverse | src/util/Overlay.cpp:41-76 | in every round target and predecessor are inverse bijections on [0, N) |
| Overlay.GossipNeverSelf | src/util/Overlay.cpp:41-76 | for odd N >= 3 no node is its own target or predecessor |
| Overlay.ModSubtractCorrect | src/util/Overlay.cpp:54-64 | the safe subtraction is (x - y) mod m exactly when x >= y or the difference is not a multiple of m |
| Overlay.ComputedGossip | src/util/Overlay.cpp:41-76 | what the code computes with mod_pow and mod_subtract agrees with the formulas wherever mod_pow is exact |
| Overlay.GossipMemo.GossipTarget | src/util/Overlay.cpp:41-52 | a memoised call answers the formula, whatever was asked before, and records its own entry only |
| Overlay.GossipMemo.GossipPredecessor | src/util/Overlay.cpp:66-76 | the same for predecessors |
| Coverage.FullCoverage | src/util/Overlay.h:85-92 | a node's targets over N-1 consecutive rounds are every other node exactly once if and only if 2 is a primitive root modulo N |
| PathFinder.FindPath | src/util/PathFinder.cpp:123-156 | the infection search is sound, earliest and complete: the path travels the gossip graph in increasing rounds, avoids the excluded nodes, ends 3 or more rounds after the start, and no admissible path arrives earlier; it throws only if none exists |
| PathFinder.FollowParents | src/util/PathFinder.cpp:139-147 | following parent pointers rebuilds the chain of infections |
| PathFinder.FindAnother | src/util/PathFinder.cpp:94-105 | the found path is the earliest one avoiding the used nodes, and its inner hops become used |
| PathFinder.FindPaths | src/util/PathFinder.cpp:67-76 | every path is the earliest one avoiding all targets and the earlier paths; it throws only where a search has no path |
| PathFinder.PathShape | src/util/PathFinder.cpp:67-105 | returned paths are simple, end at their target, never revisit the source and pass through no other target |
| PathFinder.PathsAreDisjoint | src/util/PathFinder.cpp:67-105 | paths to different targets share no node |
| Phases.PhaseSchedule | src/BftProtocolState.cpp:106-157 | with every round ended once, the phases of all three variants only move forward and change at exactly these rounds |
| Phases.BudgetIsExact | src/UtilityClient.cpp:54-65 | the overlay term of the utility's budget is the round at whose end aggregation starts, for every configuration with more than one meter |
| RoundEngine.EndRound | src/ProtocolState_impl.h:130-187 | the mutual recursion of round end and message handling terminates under any pattern of unreachable nodes, keeps the round and phase invariant and never goes back a round |
| RoundEngine.Dispatch | src/MeterClient.cpp:62-79 | handling, buffering or dropping a message, by its target, query number and round, keeps the round and phase invariant |
| Failures.TimeoutEndsRound | src/ProtocolState_impl.h:111-128 | a timeout ends the round if and only if the predecessor has not answered since the last one; otherwise it pings again |
| Failures.TimeoutsEndOverlay | src/ProtocolState_impl.h:111-128 | a meter whose predecessors no longer answer leaves the overlay after at most LastRound - round + 2 timeouts, whatever else arrives and whoever is down |
| Failures.EndRoundFollows | src/ProtocolState_impl.h:130-187 | ending a round leaves the overlay or leads to a later round, and never into one whose predecessor is known to be down |
| Failures.FailedExactly | src/ProtocolState_impl.h:130-237 | the failed meters are those known before and exactly the targets and predecessors that could not be reached in the rounds entered since |
| Failures.NothingLost | src/MeterClient.cpp:62-79 | after any events each message that arrived has been handled once, is buffered, or has been discarded, and there are no others |
| Failures.TakesOnlyFromPredecessors | src/MeterClient.cpp:62-79 | whatever arrives, a meter handles only messages of the current query sent to it by the gossip rule of their round, none before that round |
| RoundEngine.ScheduleUnderAnyEvents | src/ProtocolState_impl.h:130-187 | after any sequence of messages, timeouts and ping replies a node's phase is the one its round prescribes, and it leaves the overlay exactly at the last round |
| ProtocolStateObject.ProtocolState.SendOverlayMessageBatch | src/ProtocolState_impl.h:190-246 | the batch sent and the messages kept are those of the engine specification |
| ProtocolStateObject.ProtocolState.Partition | src/ProtocolState_impl.h:190-222 | the erase-while-iterating loops select and keep exactly the messages the forwarding rule says, in order |
| ProtocolStateObject.ProtocolState.HandleOverlayMessage | src/ProtocolState_impl.h:249-271 | popping the path, queueing and the variant's handler, then ending the round on a final message |
| ProtocolStateObject.ProtocolState.EndOverlayRound | src/ProtocolState_impl.h:130-187 | the object's whole new state is the specification's EndRound |
| ProtocolStateObject.ProtocolState.SuperEndOverlayRound | src/ProtocolState_impl.h:130-187 | the common part of the round end: new round, batch, ping, messages already received for the round |
| ProtocolStateObject.ProtocolState.TakeForRound | src/ProtocolState_impl.h:160-176 | the buffer is split into the messages for the new round and the others |
| ProtocolStateObject.ProtocolState.ReceiveOverlayMessage | src/MeterClient.cpp:62-79 | the dispatch branches on the object: gossip target, later and earlier queries, then the round |
| ProtocolStateObject.ProtocolState.HandleRoundTimeout | src/ProtocolState_impl.h:111-128 | the ping flag decides between pinging again and ending the round, as the specification of which `Failures` proves progress |
| ProtocolStateObject.ProtocolState.HandlePingResponse | src/ProtocolState_impl.h:280-291 | only the predecessor's reply sets the flag |
| ProtocolStateObject.ProtocolState.StartQuery | src/ProtocolState_impl.h:47-84 | everything about the round is reset, the waiting messages stay, and the query starts by ending round -1 |
| AsyncRefinement.AsynchronousRefinesLockstep | src/ProtocolState_impl.h:130-187 | in every failure-free run, under any delays between batches, no batch is dropped and every node's state equals its state in the synchronous execution, having handled exactly its predecessors' batches in round order |
| AsyncRefinement.NoDeadlock | src/ProtocolState_impl.h:130-187 | until every node has left the overlay some start or delivery is possible |
| AsyncRefinement.SentMatches | src/ProtocolState_impl.h:190-246 | what a node has sent in each round is what it sends in the synchronous execution |
| AsyncRefinement.EndRoundKeeps | src/ProtocolState_impl.h:130-187 | ending a round, with the buffered later rounds handled recursively, keeps a node in step with the synchronous execution |
| AsyncRefinement.DeliverKeeps | src/MeterClient.cpp:62-78 | so does every delivery of the next message of an in-flight batch |
| Routing.BuildOnion | src/messaging/OnionBuilder.cpp:20-36 | the reverse loop builds one layer a hop, innermost last |
| Routing.AbsorbAllForwards | src/ProtocolState_impl.h:249-271 | whatever else comes in a batch, a message handled before its last hop leaves the node waiting to send it on along the rest of its hops |
| Routing.BatchConserves | src/ProtocolState_impl.h:190-246 | a round neither loses nor duplicates a held message: what is sent and what is kept are together what was held |
| Routing.GreedyUnique | src/ProtocolState_impl.h:190-246 | the greedy arrival rounds are determined by the hops alone, so onions and path messages keep the same schedule |
| Routing.RoutingRealisesPlan | src/ProtocolState_impl.h:190-271 | a message launched along planned hops is handled by each of these nodes in this order, at its greedy arrival round, no later than the plan says |
| Routing.FoundPathIsRealised | src/util/PathFinder.cpp:67-156 | a path of find_paths that can be travelled by a round of the overlay is realised to its target by that round |
| Forwarding.HandledAlongWalk | src/ProtocolState_impl.h:190-271 | a message of which there is one copy is handled, in each round, by the next hop of its greedy walk when that is the round's target, and by nobody else |
| Forwarding.ArrivesIff | src/ProtocolState_impl.h:190-222 | the greedy forwarding rule reaches the last hop by a round if and only if the hops can be travelled by then at all |
| Delivery.KeptIff | src/CtProtocolState.cpp:34-59 | a meter accepting up to some round has a value afterwards if and only if the hops of the one message bringing it can be travelled by that round |
| Queries.OneQueryIff | src/ProtocolState_impl.h:48-62 | every message sent in a query is of that query if and only if no message left waiting from an earlier one meets its destination as gossip target before the overlay ends |
| Queries.HftKeepsQuery | src/HftProtocolState.cpp:67-153 | a meter whose floods are all of the query floods and relays nothing else, whatever messages of the query it handles |
| Queries.LeftWaitingIff | src/ProtocolState_impl.h:190-222 | a message of which there is one copy is still waiting when the overlay ends if and only if its hops could not be travelled in time |
| Queries.BatchEndsRound | src/MeterClient.cpp:62-79 | a batch ends its receiver's round if and only if its final message is of the current query |
| Queries.LeftoverStopsReceiver | src/ProtocolState_impl.h:111-128 | after a batch that ends with a message of another query the receiver stays in its round for as long as the sender answers pings |
| Queries.LeftoverDisturbsNext | src/ProtocolState_impl.h:48-62 | a message left waiting by one query that meets its destination again is sent in the next |
| Routing.HeldMessageIsSent | src/ProtocolState_impl.h:190-204 | when 2 is a primitive root modulo N, a waiting message is sent within N-1 rounds |
| Delivery.HandledIsKept | src/CtProtocolState.cpp:61-86 | a value handled at its last hop in an accepting phase is among that node's values from then on |
| Shuffle.CtShuffleDelivers | src/CtProtocolState.cpp:61-73 | in CT a proxy has a contribution at the end of shuffle if and only if the path planned for it can be travelled by then |
| Shuffle.CtReachesProxy | src/CtProtocolState.cpp:75-86 | a proxy has the contribution when the overlay ends if the onion's path can be travelled by then |
| Shuffle.CtEchoReachesProxy | src/CtProtocolState.cpp:98-122 | what is echoed at the end of shuffle along a path that can be travelled by the end of the overlay is held there |
| Shuffle.CtHoldsExactly | src/CtProtocolState.cpp:34-86 | a meter holds what it held at the start and exactly the contributions of this query that have been delivered to it |
| Shuffle.CtSmallSystems | src/ProtocolState_impl.h:72-84 | with the code's parameters every contribution reaches all its proxies in a system of at most 32 meters |
| Collect.CollectExactly | src/CtProtocolState.cpp:34-122 | when the overlay ends a CT meter holds exactly the contributions that name it as a proxy, if the planned paths end in time |
| Collect.CtEndToEnd | src/CtProtocolState.cpp:22-135 | the whole crash-tolerant protocol when nobody fails and the planned paths end in time: for distinct contributions every group's root sends the utility the sum over all meters |
| Collect.SmallSystemsInTime | src/util/PathFinder.cpp:67-76 | with the code's parameters they do in every system of at most 32 meters |
| Shuffle.BftShuffleDelivers | src/BftProtocolState.cpp:74-90 | in BFT a proxy has a signed contribution, from the end of shuffle on, if and only if the path planned for it can be travelled within the shuffle phase |
| Shuffle.BftHoldsExactly | src/BftProtocolState.cpp:49-90 | a meter holds what it held at the start and exactly the contributions of this query with the utility's signature that have been delivered to it during shuffle |
| Shuffle.SignatureReachesProxy | src/CrusaderAgreementState.cpp:93-112 | a signature sent at the end of shuffle along a path that ends within the agreement phase is in the receiver's table when the overlay ends |
| Shuffle.PackageIsAccepted | src/CrusaderAgreementState.cpp:121-156 | when nobody fails, a value with log2n + 1 verified signatures at the end of phase 1 is accepted wherever its package can be taken by the end of the overlay |
| Shuffle.BftContributionAccepted | src/BftProtocolState.cpp:106-157 | when nobody fails and the planned paths end within their phases, every proxy accepts every signed contribution that has log2n + 1 other proxies |
| Shuffle.PlannerLimits | src/util/PathFinder.cpp:67-76 | with the code's parameters the planner's limit fits the CT overlay if and only if there are at most 32 meters, and never fits the BFT shuffle phase |
| Multicasts.EncryptedMulticastToProxies | src/ProtocolState_impl.h:72-84 | one onion for every proxy, along the paths planned for them |
| Multicasts.MulticastValues | src/CtProtocolState.cpp:103-119 | every proxy value is multicast exactly once, along planned paths to the proxies other than this meter |
| Multicasts.MulticastsReach | src/CtProtocolState.cpp:103-119 | for every value and every other proxy of it there is a message among those sent whose path ends at the proxy |
| Multicasts.MulticastsOnly | src/CtProtocolState.cpp:103-119 | every message sent takes one of the values to one of its proxies other than this meter |
| Protocols.CtProtocolState.HandleOverlayMessageImpl | src/CtProtocolState.cpp:34-86 | layers are queued, values of this query collected in both phases |
| Protocols.CtProtocolState.EndOverlayRoundImpl | src/CtProtocolState.cpp:98-135 | the phase change and the echo at the end of shuffle |
| Protocols.BftProtocolState.HandleOverlayMessageImpl | src/BftProtocolState.cpp:49-94 | values are checked and collected in shuffle, passed to agreement in the agreement phase |
| Protocols.BftProtocolState.EndOverlayRoundImpl | src/BftProtocolState.cpp:106-157 | the end of shuffle signs and multicasts every value, the end of phase 1 multicasts a package for every value with enough signatures, the end of phase 2 accepts |
| Hft.HftProtocolState.StartQueryImpl | src/HftProtocolState.cpp:34-60 | the floods are exactly the two-layer onions for the proxies |
| Hft.HftProtocolState.HandleOverlayMessageImpl | src/HftProtocolState.cpp:67-109 | a message for another node joins the floods, one for this node is relayed or, if of this query, collected, by phase |
| Hft.HftProtocolState.SendFloods | src/HftProtocolState.cpp:139-152 | the erase-while-iterating loop sends every flood and keeps exactly those not about to arrive |
| Hft.HftProtocolState.EndOverlayRoundImpl | src/HftProtocolState.cpp:111-153 | the phase change with its exchange of message sets, then the sending of all floods |
| Flood.FloodStep | src/HftProtocolState.cpp:111-153 | within a phase a node floods a message in the next round exactly if it did and its target was not the destination, or its predecessor sent it and it is not the destination |
| Flood.FloodSpread | src/HftProtocolState.cpp:111-153 | until its first delivery a message flooded from src in round s is sent, after k rounds, by exactly the nodes src + 2^s d mod N with d < 2^k |
| Flood.EveryoneReached | src/util/Overlay.cpp:41-52 | for odd N and 2^k >= N these are all nodes |
| Flood.FloodReaches | src/HftProtocolState.cpp:67-86 | for odd N every flood is delivered within ceil(log2 N) rounds despite the early removal, also one addressed to its own source |
| Flood.GatherStarts | src/HftProtocolState.cpp:111-125 | relayed messages are flooded from the round after scatter on |
| Flood.ContributionReachesProxy | src/HftProtocolState.cpp:34-65 | both floods of a contribution fit their phases, whichever relay is drawn, so its proxy holds it when the overlay ends |
| Gather.ValuesExactly | src/HftProtocolState.cpp:67-109 | a meter's proxy values are those it had and exactly the values of this query that it was handed in GATHER addressed to itself |
| Gather.GatherExactly | src/HftProtocolState.cpp:34-153 | when the overlay ends a meter holds exactly the contributions that name it as a proxy |
| Gather.FloodsOnce | src/HftProtocolState.cpp:111-153 | a meter sends no flood twice in a round, and holds no relayed message and no contribution twice |
| Gather.NothingRelayedLater | src/HftProtocolState.cpp:88-125 | messages to relay are collected in SCATTER alone; afterwards there are none |
| Gather.HftEndToEnd | src/HftProtocolState.cpp:34-164 | the whole flooding protocol when nobody fails: for distinct contributions every group's root sends the utility the sum over all meters |
| Crusader.FirstKey | src/CrusaderAgreementState.cpp:93-103 | the begin() entry of a signature map is its least key |
| CrusaderAgreement.CrusaderAgreementState.HandlePhase1Message | src/CrusaderAgreementState.cpp:93-112 | a first verified signature brings the whole map, later ones are inserted without replacing |
| CrusaderAgreement.CrusaderAgreementState.ValidateSignatures | src/CrusaderAgreementState.cpp:126-143 | the erase loop leaves the accepter's own signature unchecked and every valid one, and counts the valid ones besides it |
| CrusaderAgreement.CrusaderAgreementState.HandlePhase2Message | src/CrusaderAgreementState.cpp:121-156 | a package with enough valid signatures is stored or merged |
| CrusaderAgreement.CrusaderAgreementState.FinishPhase1 | src/CrusaderAgreementState.cpp:32-54 | exactly the values with log2n + 1 signatures are signed and multicast along planned paths from the next round on, or find_paths has no path for one of them |
| CrusaderAgreement.CrusaderAgreementState.FinishPhase2 | src/CrusaderAgreementState.cpp:60-71 | exactly the values with log2n + 1 signatures are accepted |
| Crusader.Phase1KeepsVerified | src/CrusaderAgreementState.cpp:93-112 | phase 1 keeps a fully verified table if and only if a first message for a value has no invalid signature; single-signature messages always qualify |
| Crusader.Phase1StoresUnchecked | src/CrusaderAgreementState.cpp:93-112 | a concrete first message whose second, invalid signature is stored and counted |
| Crusader.PackageAdds | src/CrusaderAgreementState.cpp:121-156 | a package adds signers exactly if its accepter signed it and log2n signatures besides the accepter's verify; then these, and the accepter if named |
| Crusader.Relay | src/CrusaderAgreementState.cpp:32-54 | an entry built from phase-1 messages that passes finish_phase_1 is accepted by every node that handles the package, whatever else it handles before and after |
| Crusader.MergedEntryNotRelayed | src/CrusaderAgreementState.cpp:121-156 | a concrete entry, merged in phase 2 first, that passes here and is refused where its package arrives |
| CrusaderRun.Validity | src/BftProtocolState.cpp:74-90 | in every run with at most log2n faulty meters and unforgeable signatures, a value an honest meter accepts was signed by an honest proxy that had checked its query number and owner signature |
| CrusaderRun.BoundIsTight | src/CrusaderAgreementState.cpp:60-71 | with log2n + 1 faulty meters a run accepts a value no honest meter signed |
| Groups.GroupsAreConsecutive | src/util/Overlay.cpp:78-86 | the groups are consecutive, cover [0, N), have at least the standard size, and the last two differ by at most one |
| Groups.GroupsPartition | src/util/Overlay.cpp:133-148 | aggregation_group_for answers g for exactly the IDs of group g |
| Groups.PickProxies | src/util/Overlay.cpp:93-131 | one proxy from every group and never the node itself; an error exactly when the groups would be smaller than 2 |
| Groups.ExcludeIsBijective | src/util/Overlay.cpp:88-91 | the draws of random_int_exclude reach every ID but the excluded one, each once |
| Groups.TreeIsConsistent | src/util/Overlay.cpp:150-196 | parent and children are mutual inverses inside a group, children have larger IDs, and the root is the group's first ID |
| Groups.ReachesRoot | src/util/Overlay.h:59-70 | every node's ancestors end in its group's first ID |
| TreeAggregation.AggregationMessage.AddValue | src/messaging/AggregationMessage.cpp:42-45 | adds to entry 0 and to the contributor count |
| TreeAggregation.AggregationMessage.AddValues | src/messaging/AggregationMessage.cpp:47-52 | adds every entry and the contributor count |
| TreeAggregation.TreeAggregationState.Initialize | src/TreeAggregationState.cpp:22-36 | an empty message that counts one contributor, and one child needed for each existing child not known to have failed |
| Crashes.NeededCounts | src/TreeAggregationState.cpp:22-36 | the number of messages waited for is the number of meters whose parent this is and that are not known to have failed |
| TreeAggregation.TreeAggregationState.HandleMessage | src/TreeAggregationState.cpp:42-49 | a child's message is merged once |
| TreeAggregation.TreeAggregationState.ComputeAndSendAggregate | src/TreeAggregationState.cpp:51-62 | every accepted contribution is added exactly once, in whatever order the set is walked, and the sum goes to the parent |
| TreeAggregation.TreeAggregationState.SendAggregateIfDone | src/CtProtocolState.cpp:88-96 | the aggregate is sent exactly when enough children have reported |
| TreeRun.StartSends | src/ProtocolState_impl.h:87-104 | starting sends exactly once if and only if no child is needed or just the needed messages are buffered; more buffered messages make it send again |
| TreeRun.SendsSubtreeSum | src/TreeAggregationState.cpp:51-62 | in every run, with any delays and buffering and any crashed meters, a meter has sent nothing or exactly the sum over the live part of its subtree |
| TreeRun.EveryMeterSendsOnce | src/ProtocolState_impl.h:87-104 | a run that can go no further has every live meter send exactly one message |
| Crashes.LiveMetersReport | src/TreeAggregationState.cpp:22-62 | its entries and contributor count are the sums over the meters connected to it below through live meters |
| TreeRun.RunsEnd | src/MeterClient.cpp:38-48 | no run has more than two moves a meter |
| Conservation.HeapTotal | src/util/Overlay.cpp:150-196 | in a heap-shaped tree the root's subtree sum is the sum over all nodes |
| Conservation.RootReports | src/TreeAggregationState.cpp:42-62 | every group's root reports the same vector, the sum over the set of contributions, and as contributors their number plus the group's size |
| Conservation.EndToEnd | src/messaging/AggregationMessage.h:111-112 | the contributor count is N plus the group's size if and only if the contributions are pairwise distinct, and then each entry is the sum over all meters |
| Conservation.SetOfDistinct | src/TreeAggregationState.cpp:51-58 | the set of contributions counts every meter exactly when they are pairwise distinct |
| SpscCapacity.ReaderWriterQueue | libraries/moodycamel/readerwriterqueue.h:80-137 | the constructor builds one ring of empty blocks with at least maxSize usable slots |
| SpscQueue.Fifo | libraries/moodycamel/readerwriterqueue.h:245-333 | for every interleaving, dequeued values followed by what the front-to-tail blocks hold are the enqueued ones; a failed call found the queue empty at some instant |
| SpscQueue.OutsideEmpty | libraries/moodycamel/readerwriterqueue.h:56-74 | blocks outside the front-to-tail segment are empty, inside it only the front block may be |
| SpscQueue.AssertionsHold | libraries/moodycamel/readerwriterqueue.h:245-567 | both assertions about the next block hold in every reachable state, also after block insertion |
| SpscQueue.NextBlockEmpty | libraries/moodycamel/readerwriterqueue.h:516-518 | the producer's next block is empty when it is about to be used |
| SpscQueue.NextBlockNonEmpty | libraries/moodycamel/readerwriterqueue.h:300-311 | the consumer's next block holds an element when it moves on |
| SpscQueue.After | libraries/moodycamel/readerwriterqueue.h:473-567 | every step of either thread keeps the ring, segment, shadow-index and contents invariant |
| SpscProgress.RefusesOnlyWhenFull | libraries/moodycamel/readerwriterqueue.h:75-78 | from any place of the call, try_enqueue returns without its element only if at some instant the queue held maxSize elements |
| SpscProgress.EnqueueReturns | libraries/moodycamel/readerwriterqueue.h:473-567 | an enqueuing call returns with its own element appended, or refused in the test for the next block; enqueue is never refused |
| SpscProgress.BlocksGrow | libraries/moodycamel/readerwriterqueue.h:526-560 | blocks are only added and never resized; a new one doubles the largest size until that reaches MAX_BLOCK_SIZE |
| SpscProgress.WaitFree | libraries/moodycamel/readerwriterqueue.h:245-567 | whatever the other thread does in between, a call makes at most 6 accesses to enqueue and 8 to dequeue |
| MpmcQueue.EachPositionOnce | libraries/spdlog/details/mpmc_bounded_q.h:83-134 | for any number of threads each position is written once and read once, the dequeuer of position p gets the value enqueued at p, and at most one buffer of positions is outstanding |
| MpmcQueue.QuietContents | libraries/spdlog/details/mpmc_bounded_q.h:83-134 | once all calls have returned the cells hold the remaining values in order |
| MpmcQueue.FullMeansFull | libraries/spdlog/details/mpmc_bounded_q.h:83-107 | from any place of the call, enqueue returns without its element only if the position one buffer back is not yet released |
| MpmcQueue.EmptyMeansEmpty | libraries/spdlog/details/mpmc_bounded_q.h:109-134 | from any place of the call, dequeue returns without an element only if the next position is not yet published |
| MpmcQueue.EnqueueAlone | libraries/spdlog/details/mpmc_bounded_q.h:83-107 | on a quiet queue that is not full a call run alone publishes its value at the next position in five accesses |
| MpmcQueue.DequeueAlone | libraries/spdlog/details/mpmc_bounded_q.h:109-134 | on a quiet queue that is not empty a call run alone returns the oldest value in five accesses |
| OptimisticDequeue.NeverOverruns | libraries/moodycamel/concurrentqueue.h:1882-1978 | headIndex never passes tailIndex, every index goes to exactly one ticket, and overcommit <= myDequeueCount, however stale the overcommit values |
| OptimisticDequeue.ThroughBounded | libraries/moodycamel/concurrentqueue.h:1918-1936 | the last ticket let through bounds how many were |
| OptimisticDequeue.QuietCounters | libraries/moodycamel/concurrentqueue.h:1972-1976 | once all calls have returned the counters agree with headIndex, so the next test passes exactly if an element is left |
| OptimisticDequeue.DequeueAlone | libraries/moodycamel/concurrentqueue.h:1882-1978 | when no call is in progress, a dequeue run alone takes the element at headIndex if there is one, and otherwise changes no counter |
| OptimisticDequeue.LastElementIsTaken | libraries/moodycamel/concurrentqueue.h:1882-1978 | so it is in every reachable state, down to the last element |
| OptimisticDequeue.RefusedMeansTaken | libraries/moodycamel/concurrentqueue.h:1918-1978 | a ticket refused on a current overcommit value has at least tailIndex tickets before it that are not undone; a call returns only there, at the first test, or with an index |
| Simulation.EventManager.SubmitEvent | src/simulation/EventManager.cpp:70-83 | an event goes to the heap of its kind; one in the past is refused |
| Simulation.EventManager.GarbageCollectTimeouts | src/simulation/EventManager.cpp:85-95 | exactly the cancelled timeouts are removed |
| Simulation.EventManager.TakeNext | src/simulation/EventManager.cpp:32-41 | the earlier top is taken, the ordinary one among equal times |
| Simulation.EventManager.Iterate | src/simulation/EventManager.cpp:25-54 | one turn of the main loop, including the collection test |
| Simulation.SimulationRefines | src/simulation/EventManager.cpp:25-54 | every simulation, with or without collection, is a run of one time-ordered queue of live events in which ordinary events win ties and cancelled events never act |
| Simulation.Realise | src/simulation/EventManager.cpp:25-54 | every run of the single queue is a simulation, with or without collection |
| Simulation.CollectionInvisible | src/simulation/EventManager.cpp:85-95 | whatever a simulation does with collection one does without it, the same actions at the same times, and conversely |
| Simulation.TimeNeverBackwards | src/simulation/EventManager.cpp:46-48 | the "time moved backwards" error is unreachable and action times never decrease |

## Left out

- CrusaderRun.Validity: assumes that a first phase-1 message for a value has no invalid signature (the code's comment says one entry); `Crusader.Phase1StoresUnchecked` shows why.
- AsyncRefinement.AsynchronousRefinesLockstep: messages of one batch arrive in order; batches are delayed arbitrarily. All messages sent are of the query being run, which `Queries.OneQueryIff` ties to what earlier queries left waiting.
- Shuffle.CtShuffleDelivers: nobody else sends the same contribution; `Conservation` treats equal ones. The variant's round end enters the theorems of `Shuffle` through what the contracts in `Protocols` state of it.
- Shuffle.CtEchoReachesProxy: one direction, since several proxies echo the same value.
- ProtocolStateObject.ProtocolState.StartQuery: the new protocol state and the first messages are parameters; `Multicasts.EncryptedMulticastToProxies` and `Hft.HftProtocolState.StartQueryImpl` yield them. The BFT setup exchange with the utility precedes it and is not modelled.
- Overlay.GossipMemo.GossipTarget: rounds and sizes are below 2^31; conversions of negative rounds are not modelled. The engine uses the formulas, not the tables; `Overlay.ComputedGossip` connects them.
- Routing.RoutingRealisesPlan: failure-free rounds; what a meter does under failures is in `Failures`.
- Flood.ContributionReachesProxy: takes any relay; how relays are drawn (src/util/Random.h) is not part of this model. The unordered sets of messages are duplicate-free sequences.
- RoundEngine.ScheduleUnderAnyEvents: a query starts with whatever messages earlier queries left waiting, as in the code, but with an empty buffer of future messages.
- Groups.PickProxies: takes at least two groups, since the code indexes the second-to-last one; random draws are an arbitrary function into the range asked for.
- Protocols.CtProtocolState.EndOverlayRoundImpl: takes each multicast value, here and in the BFT object, to name this meter exactly once, since `remove_copy` into the shorter vector overruns otherwise.
- TreeAggregation.TreeAggregationState.ComputeAndSendAggregate: value vectors have the length of this meter's own, as the code asserts. Sharing of the sent message object with the network is not modelled.
- Conservation.EndToEnd: assumes that each contribution has reached its chosen proxies and no other meter, which `Gather` and `Collect` prove of HFT and CT. For BFT `Shuffle.BftContributionAccepted` and `CrusaderRun.Validity` give the two halves separately.
- TreeRun.EveryMeterSendsOnce: meters crash before they start to aggregate, and each knows which of its own children did; messages to a crashed meter are lost.
- SpscQueue.Fifo: elements are integers; `pop` takes the same steps as `try_dequeue` with the value dropped. `ceilToPow2` is the least power of two, not its shifts.
- MpmcQueue.EachPositionOnce: positions are unbounded and the cell index is the remainder, as for a power-of-two size; the constructor's size check is not modelled.
- OptimisticDequeue.NeverOverruns: only the ticket counters; block lookup, bulk operations and the free list are not modelled.
- Simulation.EventManager.Iterate: one turn of the loop, the action's effects being its argument; the loop itself need not end. The library's order among equal times in one heap is arbitrary. `simulation_time` starts at 0, which the code leaves to `reset`.
- Cryptography: signatures are symbolic terms, encryption is not modelled; the code's own routines are stubs.
- Memory ordering, allocation failure, index wrap-around, exceptions and destructors in the queues; the ReaderWriterQueue move operations and `size_approx`.
- Secondary meter IDs, pings and timeouts as real time, networking, serialization, logging, household simulation, and `UtilityClient` apart from the round budget.
- `int` overflow of rounds, counts and sums; `FixedPoint_t` values are integers.
