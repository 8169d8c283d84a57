# ctsim

A model of CTSim, a slot-timed simulator of consensus over concurrent wireless
transmissions, and proofs about it.  CTSim runs two flooding engines over a
network graph: constructive interference (CI, every node repeats the same
packet) and capture effect (CE, a listener decodes one of several packets and
merges it).  On each it runs two-phase commit, Paxos and totally ordered
multicast, and keeps energy and latency books.

All randomness is an arbitrary choice here: which transmissions are lost, which
neighbour is captured, who recovers from a listen timeout, who votes NO or
throws an abort coin are functions the configuration carries.  A statement for
all configurations is a statement for every seed and every loss rate.

The engines, the node states, the three CI protocols and the run loops are
imperative: classes with fields, loops over arrays and sequences.  Each is
proved equal to a function of its inputs, and the properties are proved about
these functions for all networks, all runs and all rounds.

| module | what it holds |
|---|---|
| `Network`, `Topology` | hop distances, the breadth-first `diameter`, the scale-free builder |
| `Nodes`, `Metrics`, `Ledger` | node meters, snapshots, proposal records and the invariants of the books |
| `CiWave`, `CiFlood` | the CI flood as a function of time, and the slot loop |
| `CeProtocols`, `CeRun`, `CeEngine` | the three CE protocols, the CE round as a function of time, and the slot loop |
| `CeSlots`, `CeVotes` | CE rounds without the engine: who is heard, who floods next, whose word has reached whom and what every payload then says |
| `CeTwoPc`, `CePaxos`, `CeProgress` | agreement, certificates, and progress of CE rounds |
| `CeSimulator`, `CeOutcomes`, `CeEnergy` | sequential CE runs, their books, when proposals are recorded as what, and what they cost |
| `CiPipeline`, `PureFlood` | the shared CI runtime, run length, accounting, sampling, flood coverage |
| `PaxosNode`, `PaxosRun`, `PaxosSafety`, `PaxosRecovery`, `PaxosHolders`, `PaxosCommits`, `PaxosOrder`, `PaxosStops`, `PaxosLossless`, `PaxosPipeline` | the Paxos pipeline: node, rounds, safety, recovery, who knows and who votes, who accepts and asks, the order of logs, when a run stops, exact lossless behaviour, classes |
| `TomRun`, `TomSafety`, `TomProgress`, `TomRecovery`, `TomStops`, `TomPipeline` | the multicast pipeline: rounds, total order, progress and repair, requests and answers, records and when a run stops, classes |
| `TwoPcRun`, `TwoPcSafety`, `TwoPcWindows`, `TwoPcDecisions`, `TwoPcLogs`, `TwoPcRecovery`, `TwoPcStops`, `TwoPcLossless`, `TwoPcConcurrency`, `TwoPcPipeline` | the two-phase-commit pipeline: rounds, safety, voting windows, records, logs under any loss and without, requests and answers, when a run stops, exactly when logs agree, transactions in flight, classes |
| `Energy` | amortised energy, by prefix sums and by nested sums |
| `Bitmaps`, `Rotation`, `Messages`, `Wrappers` | vote bitmaps, the rotation of initiators, payload data, options |

A flood is reliable as long as its repeats are: links are called patient if none between
neighbours loses `flood_repeats` transmissions in a row (`CiPipeline.PatientLinks`; a network
without losses is such a one, `CiPipeline.LosslessIsPatient`).  Whole runs over patient links
are known end to end: `PaxosPipeline.PatientRun`, `TomPipeline.PatientRun` and
`TwoPcPipeline.PatientRun`.

What the system requires is required here too: node ids are indices,
`flood_repeats` and `snapshot_interval` are at least 1, pipelines have at least
two nodes, and `scale_free` with more nodes than `m` is not called with `m = 1`
(its draw list would be empty).

Where comments and code differ the model follows the code:

- `src/protocol/paxos.rs:18` reads as if a node that sees `last_accepted_term = T`
  had everything up to T.  The code advances `last_accepted` past terms whose data
  is missing (`src/protocol/paxos.rs:114-122`), so logs may have holes: exactly the
  terms a node had not been told about when it learned of their acceptance
  (`PaxosHolders.HolesExactly`), never terms whose round it took part in
  (`PaxosHolders.NoHoleForParticipants`).  `PaxosHolders.QuorumWithoutHolders` is a run.
- Votes are merged into every earlier pending term (`src/protocol/paxos.rs:85-95`), so
  a quorum need not be a majority of holders: `PaxosHolders.QuorumWithoutHolders` is a
  run.  `PaxosHolders.QuorumHeldExactly` says exactly when it is, and
  `PaxosHolders.VotersHoldExactly` exactly when all voters are holders.
- `commit_up_to` always starts from term 0 (`src/protocol/paxos.rs:126-135`), so a hole
  filled by a piggyback is appended behind higher terms: logs need not be ascending, nor
  in the same order.  `PaxosOrder.OrderExactly`, `PaxosOrder.AscendingExactly` and
  `PaxosOrder.SameOrderExactly` say exactly when, `PaxosOrder.LogOutOfOrder` is a run.
- Gap detection reports a missing term 0 as "nothing missing"
  (`src/sim/paxos_pipeline.rs:85`), so that term is never recovered:
  `PaxosHolders.TermZeroOnlyOnce`.  A node that missed its round keeps the pipeline going
  until the drain is over: `PaxosStops.StragglerDrains`.
- Lines 4 and 56 of `src/protocol/two_pc_pipeline.rs` speak of slots; the voting window
  is counted in rounds (`src/sim/two_pc_pipeline.rs:131`).
- A lossless Paxos pipeline of P proposals takes P + N/2 rounds only while
  N/2 <= 1002: beyond that the idle-round timeout (`src/sim/paxos_pipeline.rs:298`)
  stops it first, with incomplete logs.  `PaxosLossless.LosslessLength` and
  `PaxosLossless.StopsComplete` state both cases, `PaxosLossless.StopsTooSoon` is a run.
  The two-phase-commit pipeline has the same timeout (`src/sim/two_pc_pipeline.rs:314`):
  `TwoPcLossless.LosslessLength`, `TwoPcPipeline.PatientRun`.
- A two-phase-commit pipeline initiator that aborts its own proposal floods an
  empty bitmap (`src/sim/two_pc_pipeline.rs:153-161`), so in that round it casts no
  vote for earlier transactions either; `TwoPcDecisions.CommitsIfAttended` has this
  in its condition.
- Nodes of a two-phase-commit pipeline may log different verdicts on a transaction, even
  without losses: the votes for a transaction are merged into every earlier one
  (`src/protocol/two_pc_pipeline.rs:91-104`), so the vote of a node that has aborted is
  counted by those that have not heard of it.  `TwoPcLossless.AbortIsCommitted` is a run.
  `TwoPcLossless.LosslessLogs` says what each node logs and `TwoPcLossless.AllAgree`
  exactly when all agree, both in terms of the coins alone.  With losses a node may also
  miss votes: `TwoPcLogs.LogExactly` says what it logs then, `TwoPcLogs.LogsCanDisagree`
  is a run without any abort.
- A CE two-phase-commit outcome of Aborted does not exclude a committed node;
  `CeTwoPc.AbortedDespiteCommit` gives the exact condition and
  `CeTwoPc.AbortedOutcomeCanHideACommit` a run.

## Model

| member | source | states |
|---|---|---|
| Network.Diameter | src/network.rs:27-52 | The queue-based search from every node terminates and returns the largest finite shortest-path distance over all ordered pairs, attained by some pair, for every graph, connected or not |
| Network.Farthest | src/network.rs:31-49 | One breadth-first search returns the eccentricity of its start: the largest finite distance from it |
| Network.VisitHearers | src/network.rs:37-42 | Scanning the neighbours of a popped node keeps the search state: true distances, a queue in distance order, no finished node with an unfilled neighbour |
| Network.EccIsLargestDistance | src/network.rs:44-50 | The eccentricity is the largest distance at which a node exists, and every smaller distance occurs too |
| Topology.ScaleFree | src/network.rs:226-269 | Whatever is drawn: undirected, loop-free, connected for m >= 2, degree sum m(m-1) + 2m(n-m) for n > m, complete graph for n <= m |
| Topology.LinkedGrown | src/network.rs:259-266 | Attaching a node keeps every node listed as often as its degree, adds two to the degree sum per edge, and keeps the placed nodes connected |
| Topology.EnoughToDraw | src/network.rs:247-251 | The draw list always holds another node that is not a target yet, so m distinct targets can be drawn |
| Topology.Core | src/network.rs:233-244 | The initial complete graph of m nodes lists each node m - 1 times, its degree |
| Topology.LinkAll | src/network.rs:257-263 | The linking loop yields the graph with the new node joined to exactly its targets, each target listed once more |
| Nodes.TickAll | src/node.rs:68-74 | Ticking every node raises exactly the meter of its state by one and changes nothing else of the node |
| Nodes.ChargedTotal | src/node.rs:68-74 | One slot raises the network total of each state by the number of nodes in that state |
| Metrics.MetricsCollector.TakeSnapshot | src/metrics.rs:102-123 | Appends one row counting the nodes per state, with the largest progress count |
| Metrics.RowIs | src/metrics.rs:102-123 | The four columns of a row: the numbers of nodes in each state, and a progress that some node reports and none exceeds |
| Metrics.MaxIsLargest | src/metrics.rs:110-115 | The running maximum is attained and is the largest |
| Metrics.MetricsCollector.RecordProposal | src/metrics.rs:126-134 | Appends the record, its latency the saturating difference of end and start |
| Metrics.MetricsCollector.ChargeSlot | src/phy/ci.rs:61-69 | Start of a slot in both engines: every node charged once, every snapshot due by then taken of the same network |
| Metrics.PostedUpToDate | src/metrics.rs:102-123 | Slots ticked in order keep the books up to date: rows numbered by slot, snapshots exactly the rows at multiples of the interval |
| CiWave.WaveInsideBall | src/phy/ci.rs:71-113 | Whatever is lost, a node that has left Listen by slot k is within k hops of the initiator |
| CiWave.WaveExactly | src/phy/ci.rs:71-113 | Under any loss, in every slot: a node listens up to the first slot in which some flooding neighbour gets through to it, floods in the `flood_repeats` slots after that, and then sleeps; the initiator floods first |
| CiWave.WaveCounters | src/phy/ci.rs:103-113 | A flooding node has a live repeat counter, so the unsigned decrement never underflows |
| CiWave.SleepersPaidInFull | src/phy/ci.rs:103-113 | A node asleep has been charged exactly `flood_repeats` flood slots |
| CiWave.RoundBounded | src/phy/ci.rs:59-129 | Whatever is lost and whatever the deadline, a round lasts at most N * flood_repeats slots (by a strictly falling potential) |
| CiWave.LosslessWave | src/phy/ci.rs:60-129 | Without losses a node d hops away listens before slot d, floods in slots d .. d+R-1 and sleeps from then on |
| CiWave.LosslessRound | src/phy/ci.rs:60-147 | A lossless round given ecc + R slots returns after exactly ecc + R, every reachable node asleep, the others listening |
| CiWave.PatientWave | src/phy/ci.rs:59-129 | If no link between neighbours loses `flood_repeats` transmissions in a row, a node d hops away has left Listen by slot d * flood_repeats: the repeats are what makes a flood reliable |
| CiFlood.DefaultRoundSuffices | src/phy/ci.rs:41-46 | The default round length computed from the diameter always gives a lossless wave the slots it needs, from any initiator |
| CiFlood.RoundSlots | src/phy/ci.rs:41-46 | Computes the configured length, or the larger of 3 and (diameter + 2) * flood_repeats with the true diameter |
| CiFlood.RowOfSlot | src/phy/ci.rs:61-69 | Every slot of a flood has the row of the wave states of that slot, counted as sets of nodes, and the progress reported before |
| CiFlood.FloodIdenticalRound | src/phy/ci.rs:29-148 | The slot loop ends in the radio states of the wave after the round length, every node charged once per slot, the rows posted, every sleeper holding the initiator payload; the mid-loop break is dead code |
| CiFlood.Transmit | src/phy/ci.rs:72-93 | A listening node is marked exactly when some flooding neighbour gets through to it, and any_flood says whether anybody floods |
| CiFlood.Advance | src/phy/ci.rs:103-113 | The transition loop takes every radio to its next state of the wave |
| CiFlood.Deliver | src/phy/ci.rs:133-137 | Exactly the sleeping nodes other than the initiator take over the flooded payload |
| CeRun.CaptureSound | src/phy/ce.rs:95-149 | Whatever the shuffle and the losses, a captured source is a flooding neighbour that got through, and a target with such a neighbour captures one |
| CeSlots.CapturesEarliest | src/phy/ce.rs:104-149 | The capture order of a listener is a rearrangement of its flooding neighbours, and it captures exactly the earliest of them in that order whose transmission is not lost |
| CeSlots.ShuffleTop | src/phy/ce.rs:115-118 | Each step of the shuffle settles one more place from the end with what stood at the place drawn for it |
| CeSlots.DrawsMatter | src/phy/ce.rs:115-118 | Different draws give different orders: no order is favoured |
| CeSlots.FloodsExactly | src/phy/ce.rs:80-166 | Until the goal, under any losses and draws, a node floods in slot k + 1 exactly if in slot k it listened without progress for listen_timeout slots and its coin said flood, or came to say something new; never both; otherwise it listens |
| CeSlots.ProgressExactly | src/phy/ce.rs:152-166 | The last progress of a node is the last slot in which it recovered or came to say something new, if any, and else the start of the round |
| CeSlots.GoalFlagExactly | src/phy/ce.rs:140-146 | The goal flag of a node is the one it came with until it comes to say something new, and from then on says whether its payload meets the goal |
| CeSlots.CompletedNode | src/phy/ce.rs:152-162 | A node whose payload allows sleeping floods next, or sleeps if it floods now, whatever it hears |
| CeSlots.RecoveryInforms | src/phy/ce.rs:80-149 | In any round: when an informed node recovers and the losses stop, a listening neighbour that has heard nothing hears something in the next slot; in multicast it then holds the message |
| CeSlots.StalledRoundRecovers | src/phy/ce.rs:80-91 | Every multicast round of two nodes whose first slot alone is lost and in which only the initiator may recover stalls until the timeout in slot 5, and meets its goal in slot 7, Committed |
| CeRun.StepPayload | src/phy/ce.rs:95-149 | In a slot a node keeps its payload, or it was listening and merged the payload of a flooding neighbour that got through |
| CeEngine.ShuffleOrder | src/phy/ce.rs:115-118 | The in-place swap loop yields the shuffle determined by the draws |
| CeEngine.FirstSurvivor | src/phy/ce.rs:120-130 | The scan stops at the first source whose transmission is not lost |
| CeEngine.ServeAll | src/phy/ce.rs:95-149 | The capture loop over all targets plans exactly the receptions and merges of the specified step |
| CeEngine.RunCeRound | src/phy/ce.rs:21-172 | The round loop runs the specified transitions up to goal or deadline, charges the goal slot too, returns the next free slot, and posts one row per slot |
| CeProtocols.NetworkGoalReached | src/protocol/two_pc_ce.rs:246-261 | The counting loop says exactly whether all nodes have committed or all have aborted; for the other protocols whether every node meets its goal |
| CeProtocols.MergeTwoPcPacket | src/protocol/two_pc_ce.rs:145-230 | The in-place merge equals the four-step specification (override, union, own vote, conclusion), NewInfo exactly when one of them changed something; blank packets are redundant |
| CeProtocols.MergePaxosPacket | src/protocol/paxos_ce.rs:69-119 | The in-place merge equals the specified union with own bit; NewInfo exactly when the bitmap changed or a newer term was adopted |
| CeProtocols.MergeTomPacket | src/protocol/tom_ce.rs:67-127 | The in-place merge equals the specified union of bits and adoption of missing data |
| CeTwoPc.ReachableHonest | src/protocol/two_pc_ce.rs:83-230 | In every reachable state a vote bit names a willing node that joined, Commit means everyone said YES, Abort that someone said NO, and an acknowledgement bit names a node already in that final phase |
| CeVotes.VotesExactly | src/protocol/two_pc_ce.rs:83-230 | Any losses, captures, timeouts and votes, in every slot: a payload is blank exactly if no vote has reached the node, Abort exactly if a NO has, Commit exactly if all votes have and all are YES; preparing, its bitmap names exactly the nodes whose votes have reached it; decided, exactly those whose acknowledgements have |
| CeVotes.DecidedExactly | src/protocol/two_pc_ce.rs:232-237 | A node meets its goal exactly when a NO or all votes have reached it |
| CeVotes.StarCommits | src/protocol/two_pc_ce.rs:181-230 | Every round of a star of three willing nodes without losses or timeouts, in any capture order, has its goal in slot 5, all committed, and takes 6 slots: the leaf not captured commits by the united votes of the others |
| CeTwoPc.Agreement | src/protocol/two_pc_ce.rs:145-230 | No reachable state, under any losses, captures and timeouts, has one node committed and another aborted; a commit means all YES, an abort some NO |
| CeTwoPc.DecisionsAreFinal | src/protocol/two_pc_ce.rs:145-230 | A decision taken by a node is never revised in the rest of the round |
| CeTwoPc.FullBitmapMeansGoal | src/protocol/two_pc_ce.rs:239-261 | A payload that allows sleeping implies the network goal |
| CeTwoPc.CommittedOutcome | src/protocol/two_pc_ce.rs:263-286 | Committed is recorded exactly when the goal is met and everyone voted YES, and then every node has committed |
| CeTwoPc.AbortedDespiteCommit | src/protocol/two_pc_ce.rs:281-284 | A state with a committed node is recorded Aborted exactly when the round is cut off before its goal |
| CeTwoPc.AbortedOutcomeCanHideACommit | src/protocol/two_pc_ce.rs:281-284 | A concrete run at the deadline: recorded Aborted although a node has committed |
| CePaxos.CertificateIsTruthful | src/protocol/paxos_ce.rs:37-119 | A node with a certificate has the bits of a majority, each of which really holds the same term and data |
| CeVotes.ShowsExactly | src/protocol/paxos_ce.rs:69-119 | Paxos and multicast, any losses, captures and timeouts: in every slot the bitmap of a node names exactly the nodes whose word has reached it, itself added at each hop, and the payload is blank exactly if none has |
| CeVotes.QuorumExactly | src/protocol/paxos_ce.rs:37-41 | A Paxos node meets its goal exactly when the word of a majority has reached it |
| CeVotes.NewerTermWins | src/protocol/paxos_ce.rs:89-96 | Any two packets of any of the protocols: an older term is redundant, a newer one replaces what is there and is new |
| CePaxos.CertificatesShareAVoter | src/protocol/paxos_ce.rs:37-41 | Any two certificates of a round, at any nodes and slots, share a voter |
| CePaxos.CommittedMeansMajority | src/protocol/paxos_ce.rs:129-149 | Committed exactly when a majority of nodes hold certificates; the goal implies it |
| CeVotes.TomOutcome | src/protocol/tom_ce.rs:129-148 | A multicast round is recorded Committed if and only if the message has reached every node, and TimedOut otherwise; whoever it has reached holds the datum of its term |
| CeVotes.SameTermUnites | src/protocol/tom_ce.rs:100-127 | Any two packets of one term, of multicast or Paxos: every bit that either has is there afterwards, one's own too and no other; missing data are taken over; NewInfo exactly if the packet changed |
| CeProgress.NewInfoMeansGrowth | src/protocol/two_pc_ce.rs:145-230 | In every reachable state of a round of any protocol, merging one payload into another reports NewInfo exactly when the old payload is strictly below the merged one (blank below all; lower phase rank; or same phase with a strict subset of the bits), and otherwise leaves it unchanged |
| CeProgress.NeverForgets | src/phy/ce.rs:95-149 | From any slot of a round to any later one a payload stays or grows strictly in that order: no node ever goes back |
| CeProgress.LessonsBounded | src/phy/ce.rs:138-146 | A node has at most 2N - 1 NewInfo events in a two-phase-commit round and at most N in the others |
| CeProgress.NobodySleeps | src/phy/ce.rs:152-162 | No node of any round of any protocol ever enters Sleep: the goal check returns first |
| CeProgress.GoalTakesEccentricity | src/phy/ce.rs:43-62 | No round meets its goal in fewer than ecc + 1 slots, whatever the losses, nor in a network its initiator cannot reach |
| CeProgress.LosslessTomTakesEccentricity | src/protocol/tom_ce.rs:67-139 | A lossless multicast round takes exactly ecc + 1 slots for every capture order, if ecc <= listen_timeout and ecc < max_round_slots |
| CeSimulator.Simulator.Run | src/sim.rs:59-145 | A whole run: the specified records, end slot and row of every slot (states of its round, progress of the proposals decided before), snapshots the rows at the interval, rows and meters balanced, nobody asleep, N awake node-slots per slot |
| CeSimulator.SameHistory | src/sim.rs:59-145 | The row of every slot of a run is the same whatever the snapshot interval |
| CeSimulator.SampledRun | src/phy/ce.rs:50-53 | Two finished simulators that differ only in the interval, one at interval 1: same records, same slots, same charges per radio state, and the snapshots at interval k are exactly the others at multiples of k, none missing |
| CeSimulator.Simulator.RunProposal | src/sim.rs:89-130 | One proposal: round, outcome of the final payloads, record, progress of all nodes, rows of its slots; the books stay sound |
| CeSimulator.Simulator.RecordRest | src/sim.rs:77-87 | Out of slots: each remaining proposal is recorded TimedOut with an empty window |
| CeOutcomes.RecordIs | src/sim.rs:76-117 | Every proposal of a run has its record, in order: below max_slots the window of its round, which ends with the first slot that meets the goal or with the longest it may take; from max_slots on an empty window and TimedOut |
| CeOutcomes.TwoPcRecorded | src/sim.rs:114-117 | In a run a two-phase-commit proposal with a round is recorded Committed if and only if all vote YES and the votes of all nodes have reached all nodes when its round ends, and Aborted otherwise |
| CeOutcomes.PaxosRecorded | src/sim.rs:114-117 | A Paxos proposal with a round is recorded Committed if and only if the word of a majority has reached each node of a majority, and TimedOut otherwise |
| CeOutcomes.TomRecorded | src/sim.rs:114-117 | A message with a round is recorded Committed if and only if it has reached every node when its round ends, and TimedOut otherwise |
| CeOutcomes.ProgressIs | src/sim.rs:119-130 | The progress reported before a proposal is the number of the last earlier one with an outcome other than TimedOut, or 0 |
| CeOutcomes.HistoryIs | src/phy/ce.rs:43-55 | Every slot of a run has the row of its own slot of the round it belongs to, the states counted as sets of nodes, with the progress reported before that round |
| CeOutcomes.FirstRow | src/sim.rs:89-97 | The first row of a round shows the node whose turn it is flooding and all others listening, and no node has met its goal |
| CeOutcomes.MeterOfNode | src/phy/ce.rs:43-55 | Over any number of slots of a round each meter of a node rises by exactly the slots it has spent in that state |
| CeSimulator.WindowsTile | src/sim.rs:76-117 | The first window starts at slot 0 and every other where the one before ended |
| CeSimulator.RoundKeepsBooks | src/sim.rs:99-112 | A round keeps rows numbered, balanced with the meters column by column, and all nodes awake |
| CeSimulator.CommittedWasUnanimous | src/sim.rs:114-117 | Over a two-phase-commit run, a proposal recorded Committed was wanted by every node |
| CiPipeline.CiCore.FloodIdentical | src/sim/pipeline.rs:66-95 | A flood advances the clock by the round length; who participated is determined by the wave; every participant holds the initiator payload, nobody else changed; every slot gets the row of the wave states and the reported progress; the books stay balanced |
| CiPipeline.EverybodyTakesPart | src/sim/pipeline.rs:93-95 | On a connected network with the default round length every node takes part in every round as long as no link between neighbours loses `flood_repeats` transmissions in a row; without losses in particular |
| CiPipeline.TakersExactly | src/sim/pipeline.rs:92-95 | The participants of a round are its initiator and exactly the nodes reached early enough to finish their repeats before the flood ends |
| CiPipeline.HistoryIs | src/phy/ci.rs:61-69 | Every slot of a run has the row of its own slot of the round it belongs to, who floods, waits and rests counted as sets of nodes, with the progress that the rounds before have led to |
| CiPipeline.RunIsCapped | src/sim/pipeline.rs:132-159 | A run takes at most 1000001 rounds, and one that takes fewer was stopped by its protocol or is out of slots; before that it is neither |
| CiPipeline.FloodKeepsBooks | src/phy/ci.rs:61-69 | A flood keeps rows numbered and sampled, balanced with the meters, and every node charged once per slot |
| CiPipeline.PerSlotBooks | src/sim/pipeline.rs:161-166 | At interval 1: one snapshot per simulated slot, columns equal to the meters, meters equal to snapshots times N |
| CiPipeline.SampledRun | src/phy/ci.rs:66-69 | Two runs of a protocol that differ only in the interval, one at interval 1: same rounds and slots, same charges per radio state, and the snapshots at interval k are exactly the others at multiples of k, none missing |
| PureFlood.Run | src/sim/pure_flood.rs:59-92 | Covered receivers are exactly those the wave of their own flood reached; never more than the opportunities |
| PureFlood.CoverageBounded | src/sim/pure_flood.rs:84-89 | Coverage is at most the opportunities, and meets them all on a connected network in which no link loses `flood_repeats` transmissions in a row |
| Ledger.AnnouncedOneEach | src/sim/paxos_pipeline.rs:120-132 | Announcing commits keeps exactly one record per known proposal; every new record is of a newly announced one, closed now |
| Ledger.AnnouncedRecords | src/sim/paxos_pipeline.rs:120-132 | After an announcement a record is in the books exactly if it was, or if it is that of a newly announced proposal not known before, from its own start to now |
| Ledger.AnnouncedAllOneEach | src/sim/two_pc_pipeline.rs:139-151 | Announcing verdicts keeps exactly one record per decided transaction |
| PaxosPipeline.NodePaxosState.MergeVotesUpTo | src/protocol/paxos.rs:85-95 | In place: every pending proposal up to the term gets the bits ORed in, the others stay |
| PaxosPipeline.NodePaxosState.CheckQuorum | src/protocol/paxos.rs:98-107 | True exactly when the first pending proposal of the term has a majority of set bits |
| PaxosPipeline.NodePaxosState.CommitTerm | src/protocol/paxos.rs:110-123 | In place: the term moves from pending to log if it is there; last_accepted advances even when it is not |
| PaxosPipeline.NodePaxosState.CommitUpTo | src/protocol/paxos.rs:126-135 | The loop leaves the specified state and lists exactly the terms that were not in the log |
| PaxosPipeline.NodePaxosState.DetectGap | src/protocol/paxos.rs:138-148 | Returns the first term after last_accepted missing from both log and pending list |
| PaxosNode.CommitRangeTidy | src/protocol/paxos.rs:126-135 | commit_up_to(u) leaves last_accepted = max(old, u); a term is logged exactly if it was, or was pending and at most u; pending stays unique and disjoint from the log |
| PaxosSafety.MajorityIsRipe | src/sim/paxos_pipeline.rs:114-119 | A majority for term t in the initiator hands needs round t + N/2, since votes come from initiators since t and oneself |
| PaxosSafety.ReachableOk | src/sim/paxos_pipeline.rs:80-282 | Invariant of every run under any loss: node i votes for t are within the initiators of rounds t..now plus i; nothing accepted before its time; pending unique and disjoint from the log; data of a term the one proposed |
| PaxosSafety.NoEarlyCommit | src/sim/paxos_pipeline.rs:114-133 | Under any loss no node has term t committed, nor is it globally committed, before round t + N/2 |
| PaxosSafety.ReachableBooks | src/sim/paxos_pipeline.rs:120-133 | Under any loss the globally committed terms are exactly those some node has accepted, each recorded once, from the preparation of round t to that of a ripe round |
| PaxosSafety.RoundBooks | src/sim/paxos_pipeline.rs:176-189 | Processing a round is never the first to record a commit |
| PaxosSafety.CommittedIsASegment | src/sim/paxos_pipeline.rs:120-133 | The globally committed terms are an initial segment and each has a record |
| PaxosSafety.DataAgree | src/sim/paxos_pipeline.rs:195-206 | Nodes that know a term, logged or pending, hold the same data for it |
| PaxosRecovery.ProposalReaches | src/sim/paxos_pipeline.rs:195-206 | Whoever takes part in round t knows term t afterwards, pending or committed |
| PaxosHolders.KnowsExactly | src/sim/paxos_pipeline.rs:195-252 | Under any loss, after every round a node knows a term, pending or logged, exactly if it took part in the round that proposed it or in one that piggybacked it |
| PaxosHolders.CountsVotesHeard | src/sim/paxos_pipeline.rs:195-252 | Under any loss, the bitmap of every pending proposal is exactly the votes heard: proposer and own vote (own alone after a recovery) and those carried in every later round the node took part in |
| PaxosHolders.CarriesItsInitiator | src/sim/paxos_pipeline.rs:135-152 | The packet of round q carries the vote of its initiator, and while there are new terms no other |
| PaxosCommits.CarriesItsVotes | src/sim/paxos_pipeline.rs:135-152 | Past the last term a packet carries what its initiator has heard for it while it has it pending and concludes nothing as high, and else the vote of the initiator alone |
| PaxosCommits.AcceptsExactly | src/sim/paxos_pipeline.rs:114-189 | Under any loss: a node has accepted a term after a round exactly if it had before, or takes part and the initiator had, or has a majority of votes for a pending term as high |
| PaxosCommits.CommitsExactly | src/sim/paxos_pipeline.rs:114-133 | A term is globally committed after a round exactly if it was, or the initiator of the round has a majority of votes for a pending term as high |
| PaxosCommits.RecordsExactly | src/sim/paxos_pipeline.rs:120-133 | Under any loss the records are exactly one for each term concluded by then, from the preparation of its own round to that of the first round whose initiator concludes it |
| PaxosCommits.SeenExactly | src/sim/paxos_pipeline.rs:191-193 | The highest term a node has seen, if above 0, is the highest of the rounds it took part in |
| PaxosCommits.AsksExactly | src/sim/paxos_pipeline.rs:85-94 | Under any loss an initiator asks for the least term proposed before that it has not accepted and not been told about, if there is one, and for none otherwise; asking for term 0 is asking for none |
| PaxosCommits.SuppliesExactly | src/sim/paxos_pipeline.rs:214-238 | Under any loss round r + 1 piggybacks a term exactly if round r asks for it and some participant of round r had been told about it, and then with the datum proposed |
| PaxosRecovery.PiggybackIsNoQuorum | src/sim/paxos_pipeline.rs:240-252 | A proposal recovered by piggyback enters with the receiver vote alone and has no quorum, which is what the regression test at line 331 is for |
| PaxosRecovery.NackAnswered | src/sim/paxos_pipeline.rs:214-238 | A requested term is piggybacked next exactly if some participant can supply it, and with the data proposed for it |
| PaxosRecovery.CommitLogsWhatIsKnown | src/protocol/paxos.rs:110-135 | Committing up to a term logs a term of the range exactly if it was logged or pending, and accepts it either way |
| PaxosHolders.VotersHold | src/sim/paxos_pipeline.rs:208-211 | If all initiators since round t took part in it, every voter in any bitmap for t knows t |
| PaxosHolders.QuorumHeldExactly | src/sim/paxos_pipeline.rs:114-119 | Under any loss a pending term has a quorum exactly if a majority of votes has been heard, and a majority knows it exactly if a majority took part in its round or in one that piggybacked it; for term 0, or with no recovery, in its round alone. A quorum is enough if all initiators since then took part in it |
| PaxosHolders.VotersHoldExactly | src/sim/paxos_pipeline.rs:208-211 | A node that took part in round t has only voters that know t if and only if all votes carried in the later rounds it took part in are of nodes that know t; while there are new terms: if and only if the initiators of those rounds know t |
| PaxosHolders.HolesExactly | src/protocol/paxos.rs:110-135 | A participant of a round whose packet declares the terms up to u accepted has accepted them all afterwards, and has logged exactly those it had been told about before; the others are holes |
| PaxosHolders.NoHoleForParticipants | src/protocol/paxos.rs:110-135 | Whoever took part in the round of a term never has a hole there |
| PaxosHolders.TermZeroOnlyOnce | src/sim/paxos_pipeline.rs:214-238 | Term 0 is never recovered: a node knows it exactly if it took part in round 0 |
| PaxosHolders.QuorumWithoutHolders | src/sim/paxos_pipeline.rs:208-211 | A run of two nodes with a quorum for term 0 that only its proposer knows, and, a round later, a hole in the log of the other node |
| PaxosOrder.OrderExactly | src/protocol/paxos.rs:110-135 | Under any loss, of two terms in a log the lower one comes first exactly if the node had been told about it by the round in which it logged the higher one |
| PaxosOrder.AscendingExactly | src/protocol/paxos.rs:126-135 | A log is ascending exactly if that holds of every two terms in it |
| PaxosOrder.SameOrderExactly | src/protocol/paxos.rs:126-135 | Two logs hold two common terms in the same order exactly if both nodes, or neither, had been told about the lower one in time |
| PaxosOrder.PresentIsAscending | src/protocol/paxos.rs:126-135 | A node that took part in the round of every term it has logged has an ascending log |
| PaxosOrder.LogOutOfOrder | src/sim/paxos_pipeline.rs:214-252 | A run of three nodes and three terms that differs from a lossless one in round 1 only: two logs hold terms 1 and 2 in different orders |
| PaxosRecovery.RecoveryReaches | src/sim/paxos_pipeline.rs:240-252 | What is piggybacked in a round everybody who takes part in it knows afterwards |
| PaxosStops.StopsExactly | src/sim/paxos_pipeline.rs:254-303 | Under any loss a run asks to stop after r rounds exactly if some round q < r ended with all proposals made and all of them in every log; or with all of them committed and q > P + 5 * diameter; or had q > P + 1000 |
| PaxosStops.StragglerDrains | src/sim/paxos_pipeline.rs:284-297 | Every run of three nodes at diameter 1 and one proposal in which node 2 misses round 0 and nothing else: node 2 never logs the proposal, and the run stops after exactly 8 rounds, by the drain |
| PaxosRun.InformedIsLeast | src/sim/paxos_pipeline.rs:267-271 | The progress reported is the length of some log, and of no shorter one |
| PaxosLossless.LosslessExact | src/sim/paxos_pipeline.rs:80-282 | Without losses the whole state after every round in closed form: logs, pending terms with their exact votes, books |
| PaxosLossless.CommitsOnTime | src/sim/paxos_pipeline.rs:114-133 | Without losses term t is committed everywhere exactly from round t + N/2 on: the bound is met |
| PaxosLossless.IdenticalLogs | src/sim/paxos_pipeline.rs:154-282 | Without losses all nodes hold identical logs after every round: the first terms in order with their data |
| PaxosLossless.LosslessLength | src/sim/paxos_pipeline.rs:273-303 | A lossless run of P >= 1 proposals asks to stop after exactly P + min(N/2, 1002) rounds: the idle-round timeout cuts in for N/2 > 1002 |
| PaxosLossless.StopsComplete | src/sim/paxos_pipeline.rs:273-303 | When it stops every log is complete exactly if N/2 <= 1002 |
| PaxosLossless.StopsTooSoon | src/sim/paxos_pipeline.rs:298-301 | A lossless plan of 2006 nodes and one proposal that asks to stop after 1003 rounds with empty logs |
| PaxosPipeline.PaxosCi.PrepareRound | src/sim/paxos_pipeline.rs:80-152 | The in-place preparation equals the specified one and puts its packet at the initiator |
| PaxosPipeline.PaxosCi.Handle | src/sim/paxos_pipeline.rs:176-252 | One participant: commits, proposal, votes, recovery data and piggyback, equal to the specified processing |
| PaxosPipeline.PaxosCi.ProcessRound | src/sim/paxos_pipeline.rs:154-304 | The processing loop and the stop rules equal the specified ones; progress fields get the least log length |
| PaxosPipeline.PaxosCi.Run | src/sim/pipeline.rs:132-159 | The run loop over the real floods leaves exactly the specified state after the determined number of rounds, the specified row of every slot, books balanced |
| PaxosPipeline.SampledRun | src/sim/pipeline.rs:132-166 | Two whole Paxos runs that differ only in the interval, one at interval 1: same rounds, slots, state, records and charges; the coarser snapshots are the others at multiples of k |
| PaxosPipeline.PatientRun | src/sim/pipeline.rs:132-159 | End to end on a connected network with enough slots in which no link loses `flood_repeats` transmissions in a row: exactly P + min(N/2, 1002) rounds, or the cap on rounds; all logs the same first terms, each recorded from its round to the one half a turn later; complete exactly if the run took P + N/2 rounds |
| TomPipeline.NodeTomState.InsertMessage | src/protocol/tom.rs:63-73 | In place: a new term is stored and raises highest_seen, a known one changes nothing; says which |
| TomPipeline.NodeTomState.TryDeliverInOrder | src/protocol/tom.rs:76-89 | The loop delivers consecutive stored terms until one is missing and counts them |
| TomPipeline.NodeTomState.DetectGap | src/protocol/tom.rs:92-96 | Returns the first term from the next expected to the highest seen missing from the store |
| TomSafety.DeliverOk | src/protocol/tom.rs:76-89 | Delivery keeps the delivered list 0, 1, 2, ... with genuine data, and stops only at a missing term |
| TomSafety.ReachableOk | src/sim/tom_pipeline.rs:70-279 | Invariant of every run under any loss: genuine stores, in-order delivery, each message kept by its publisher, piggyback data belonging to its term |
| TomSafety.TotalOrder | src/sim/tom_pipeline.rs:176-213 | Under any loss each delivered list is (0, msg0), (1, msg1), ..., so any two are prefix-comparable, data and all |
| TomSafety.DeliversAllItCan | src/protocol/tom.rs:76-89 | Between rounds a node has delivered exactly the terms before the first one missing from its store |
| TomSafety.RepairFinds | src/sim/tom_pipeline.rs:96-121 | Whenever some node misses a published message the repair finds it |
| TomSafety.PacketsAreHonest | src/sim/tom_pipeline.rs:84-156 | Every packet carries the message of its term; piggyback data belongs to its term and none is left over; after the last publication every round repairs the earliest missing term |
| TomSafety.OrderCheckPasses | src/sim/tom_pipeline.rs:282-314 | The failure branches of the total-order check are unreachable |
| TomSafety.ReachableBooks | src/sim/tom_pipeline.rs:199-213 | Each message is recorded at most once, from its own round to a later one; recorded are only delivered messages, and all that a node other than the publisher has delivered |
| TomProgress.ParticipantsHold | src/sim/tom_pipeline.rs:184-197 | Whatever a round carries, message or piggyback, its participants hold afterwards, with the genuine data |
| TomProgress.PublicationReaches | src/sim/tom_pipeline.rs:184-186 | Whoever takes part in round t holds message t afterwards |
| TomRecovery.StoresExactly | src/sim/tom_pipeline.rs:184-197 | Under any loss, after every round, a node has stored exactly the messages floated, as published, repaired or piggybacked, in the rounds it took part in |
| TomRecovery.SeenExactly | src/sim/tom_pipeline.rs:184-197 | The highest term a node has seen is the highest one mentioned, with a message or without, in the rounds it took part in |
| TomRecovery.FloatsOwn | src/sim/tom_pipeline.rs:84-126 | Under any loss round r floats message r; after the last one the earliest that some node waits for; and when none does, no message |
| TomRecovery.AsksExactly | src/protocol/tom.rs:92-96 | Under any loss an initiator asks for the least term, from the next it expects to the highest it has seen, that is not in its store, if there is one, and for none otherwise; asking for term 0 is asking for none |
| TomRecovery.AnswersExactly | src/sim/tom_pipeline.rs:215-224 | Under any loss, after a round whose packet asks for a term: if a participant has it then, the term and its message are pending; otherwise what was pending and not floated stays, and the request is noted if nothing is |
| TomRecovery.FloatsPending | src/sim/tom_pipeline.rs:128-156 | A pending term is floated by the next initiator, with its message, exactly if that has it, floats it anyway, or the message is pending too; else it stays pending |
| TomRecovery.AbsenceRepaired | src/sim/tom_pipeline.rs:128-224 | Every run of three nodes and twelve messages in which node 2 misses round 1 and nothing else: its request in round 5 is answered in round 6, after which it has delivered 7 messages, and 1 before |
| TomProgress.RepairAdvances | src/sim/tom_pipeline.rs:93-126 | A repair round moves the earliest undelivered term on if and only if all nodes that still wait for that term take part in it |
| TomProgress.LosslessDelivers | src/sim/tom_pipeline.rs:84-92 | Without losses every node has delivered, after every round, exactly what was published |
| TomStops.LosslessLength | src/sim/tom_pipeline.rs:239-274 | A lossless run of at least one message asks to stop after exactly as many rounds as messages |
| TomStops.StopsExactly | src/sim/tom_pipeline.rs:239-273 | Under any loss a run asks to stop after r rounds exactly if some round q < r ended with all messages published and delivered everywhere; or with all announced and q > 3 * num_msgs + 10 * diameter; or had q > 20 * num_msgs + 500 |
| TomStops.RecordsExactly | src/sim/tom_pipeline.rs:199-213 | Under any loss the records are exactly one for each message delivered in processing by then, from the preparation of its own round to the processing of the first round in which some node delivers it; the publisher delivering its own does not count |
| TomRun.InformedIsLeast | src/sim/tom_pipeline.rs:227-237 | The progress reported is the number of messages some node has delivered, and none has delivered fewer |
| TomPipeline.TomCi.VerifyTotalOrder | src/sim/tom_pipeline.rs:282-314 | The check succeeds exactly when every node has delivered 0, 1, 2, ... |
| TomPipeline.TomCi.PrepareRound | src/sim/tom_pipeline.rs:70-168 | Publish, repair or idle, and piggyback, equal to the specified preparation |
| TomPipeline.TomCi.ProcessRound | src/sim/tom_pipeline.rs:170-274 | The processing loop and the stop rules equal the specified ones; the order check made when stopping succeeds |
| TomPipeline.TomCi.Run | src/sim/pipeline.rs:132-159 | The run loop over the real floods leaves exactly the specified state after the determined number of rounds, and the specified row of every slot |
| TomPipeline.SampledRun | src/sim/pipeline.rs:132-166 | Two whole multicast runs that differ only in the interval: same rounds, slots, state, records and charges; the coarser snapshots are the full ones at multiples of k |
| TomPipeline.PatientRun | src/sim/pipeline.rs:132-159 | End to end on a connected network with enough slots in which no link loses `flood_repeats` transmissions in a row: as many rounds as messages, or the cap on rounds, and every node has delivered in order what was published by then |
| TwoPcPipeline.NodeTwoPcState.CheckUnanimity | src/protocol/two_pc_pipeline.rs:71-80 | True exactly when the first pending entry of the transaction is unflagged with all bits set |
| TwoPcPipeline.NodeTwoPcState.MergeVotesUpTo | src/protocol/two_pc_pipeline.rs:91-104 | In place: votes count for every pending transaction up to the id, the abort flag for it alone |
| TwoPcPipeline.NodeTwoPcState.FinalizeTx | src/protocol/two_pc_pipeline.rs:107-115 | In place: an undecided transaction leaves the pending list and gets its verdict; a decided one changes nothing |
| TwoPcPipeline.NodeTwoPcState.DetectGap | src/protocol/two_pc_pipeline.rs:117-127 | Returns the lowest transaction missing from both log and pending list |
| TwoPcSafety.ReachableOk | src/sim/two_pc_pipeline.rs:89-325 | Invariant of every run, any loss and coins: one verdict per transaction, windows opened in the round of the transaction number, no commit before a full window, and no verdict at all before it unless a participant of its round aborts; abort flags do not outlive their round |
| TwoPcSafety.NoEarlyCommit | src/sim/two_pc_pipeline.rs:130-151 | Whatever is lost and whoever aborts, no log says Committed for t before round t + N |
| TwoPcSafety.NoEarlyVerdict | src/sim/two_pc_pipeline.rs:239-292 | Unless a participant of round t aborts t, no log decides t before round t + N |
| TwoPcSafety.WindowsOpenTogether | src/sim/two_pc_pipeline.rs:200-219 | Between rounds, wherever a transaction is pending its start round is its own number and it is unflagged |
| TwoPcWindows.ReachableExact | src/sim/two_pc_pipeline.rs:200-292 | Any loss, any coins, after every round, every node and transaction: the log has the verdict of the round in which the node decided; undecided, a participant of the transaction round has it pending with exactly the votes it has heard; others do not know it |
| TwoPcWindows.HeardFlags | src/sim/two_pc_pipeline.rs:200-237 | After hearing round r a participant has its transaction flagged exactly if it or the initiator aborts it, and nothing else |
| TwoPcWindows.TakesExactly | src/sim/two_pc_pipeline.rs:200-219 | Whatever a node holds: a transaction new to it is added with the votes of the packet, its own unless its coin aborts, flagged by either abort, its window opened in this round; nothing else changes |
| TwoPcWindows.VotesCast | src/sim/two_pc_pipeline.rs:222-237 | Whatever is pending: the votes of the packet reach every entry up to its transaction and none past it, with the own vote of the node exactly if that transaction is pending there and not aborted |
| TwoPcDecisions.WindowCloses | src/sim/two_pc_pipeline.rs:129-138 | Round t + N belongs to the proposer of t, which still has t pending, unless it is doomed, with exactly the votes it has heard |
| TwoPcDecisions.CarriesItsInitiator | src/sim/two_pc_pipeline.rs:153-175 | A packet carries the vote of its initiator unless that aborts its own proposal, and while there are new transactions no other |
| TwoPcDecisions.CarriesItsVotes | src/sim/two_pc_pipeline.rs:153-175 | Past the last transaction a packet carries what its initiator has heard for it as long as that took part in its round, has not decided it and its window is open, and else the initiator vote alone |
| TwoPcDecisions.DecidesOnTime | src/sim/two_pc_pipeline.rs:129-151 | Any loss, any coins: the records are exactly, in order, an Aborted in the processing of round t if a participant of it aborts t, and else the verdict of the proposer in the preparation of round t + N; each once |
| TwoPcDecisions.CommitsIfAttended | src/sim/two_pc_pipeline.rs:222-237 | t, aborted by no participant of its round, is recorded Committed if and only if its proposer has heard the votes of all nodes; it has if it takes part in all N - 1 rounds between and none of their initiators aborts its own, and only if so when t + N <= num_txs |
| TwoPcDecisions.CalmRecords | src/sim/two_pc_pipeline.rs:89-151 | With abort probability 0 and any loss: t is recorded exactly from round t + N on; Committed exactly if its proposer has heard everybody, which for t + N <= num_txs is that it took part in all rounds between |
| TwoPcLogs.LogExactly | src/sim/two_pc_pipeline.rs:239-292 | Any loss, any coins: a log holds a verdict exactly if the node has decided the transaction, and it is the verdict of that round: own abort, verdict brought, or full count of the votes heard |
| TwoPcLogs.ParticipantDecides | src/sim/two_pc_pipeline.rs:264-292 | A participant of the round of t that does not abort t, whoever else does, and is brought no verdict before, decides it in the first round it takes part in from t + N on, Committed exactly if it has heard all votes, unless the packet of that round brings a verdict |
| TwoPcLogs.CommitsIfPresent | src/sim/two_pc_pipeline.rs:222-292 | A participant of rounds t and t + N that does not abort t, whoever else does, and is brought no verdict by then logs Committed, new transactions until then, exactly if it took part in all rounds between but its own and none of their initiators aborted its proposal |
| TwoPcLogs.VerdictHasASource | src/sim/two_pc_pipeline.rs:239-292 | Every verdict in any log is one that a participant of the transaction round came to by itself |
| TwoPcLogs.CommittedWasHeard | src/sim/two_pc_pipeline.rs:222-292 | Behind every Committed in any log is a participant of the round that did not abort and has heard the votes of all nodes |
| TwoPcRecovery.AsksExactly | src/protocol/two_pc_pipeline.rs:117-127 | Any loss, any coins: an initiator asks for the least transaction proposed before that it has neither logged nor pending, if there is one, and for none otherwise; asking for transaction 0 is asking for none |
| TwoPcRecovery.MissesExactly | src/protocol/two_pc_pipeline.rs:117-127 | It misses exactly the transactions in whose rounds it did not take part and that it has not been brought a verdict on since |
| TwoPcRecovery.AnswersExactly | src/sim/two_pc_pipeline.rs:260-278 | Any loss, any coins: round r + 1 brings verdict o on t exactly if round r asks for t and some participant had decided it so before the round or was brought it in the round, before its windows close, the last such participant giving o |
| TwoPcRecovery.BroughtIsLogged | src/sim/two_pc_pipeline.rs:260-266 | Whoever takes part in a round that brings a verdict, and has neither decided nor a window to close, logs exactly what is brought |
| TwoPcStops.StopsExactly | src/sim/two_pc_pipeline.rs:294-319 | Any loss, any coins: a run asks to stop after r rounds exactly if some round q < r ended with all transactions proposed and all of them in every log, or had q > num_txs + 1000 |
| TwoPcStops.AbsenceRepaired | src/sim/two_pc_pipeline.rs:260-319 | Every run of three nodes and six transactions without aborts in which node 2 misses round 1 and nothing else: round 6 brings node 2 the Committed it missed, and the run stops after exactly 9 rounds |
| TwoPcRun.InformedIsLeast | src/sim/two_pc_pipeline.rs:299-304 | The progress reported is the length of some log, and of no shorter one |
| TwoPcLogs.LogsCanDisagree | src/sim/two_pc_pipeline.rs:264-292 | A run of two nodes and one transaction without aborts in which the proposer, absent for a round, logs Aborted and the other node Committed |
| TwoPcLossless.NothingIsBrought | src/sim/two_pc_pipeline.rs:89-98 | If every node takes part in the round of every transaction, lost rounds afterwards or not, no initiator ever finds a gap and no packet ever brings a verdict |
| TwoPcLossless.LosslessVotes | src/sim/two_pc_pipeline.rs:222-237 | Without losses a node counts for t, after any round, exactly its own vote, that of the proposer and those of all initiators since that did not abort their own proposal; also past the last transaction |
| TwoPcLossless.LosslessLogs | src/sim/two_pc_pipeline.rs:239-292 | Without losses, any coins: a node that aborts t, or whose initiator does, logs Aborted in round t; any other decides in round t + N, Committed exactly if no initiator between but itself aborts its own proposal |
| TwoPcLossless.LosslessLength | src/sim/two_pc_pipeline.rs:306-320 | A lossless run, any coins, asks to stop after exactly as many rounds as all logs need, a full turn past the last transaction that some node does not abort, or after num_txs + 1002 if that comes first |
| TwoPcLossless.ResolvedExactly | src/sim/two_pc_pipeline.rs:294-306 | Without losses all logs are complete after r rounds exactly if r is at least that number |
| TwoPcLossless.AllAgree | src/protocol/two_pc_pipeline.rs:91-104 | Without losses all nodes hold the same verdict on t, once decided, if and only if the coins are such: nobody aborts t and nobody its own proposal in the window; or all abort t; or the only node of the window to abort its own aborts t too; or two nodes of the window abort their own |
| TwoPcLossless.AbortIsCommitted | src/protocol/two_pc_pipeline.rs:91-104 | A lossless run of two nodes and three transactions in which one node aborts and logs Aborted, the records say Aborted, and the proposer logs Committed |
| TwoPcConcurrency.AliveBounded | docs/validation/addition7.md:290-295 | Whatever is lost and whatever coins fall, no slot has more than min(N, num_txs) transactions in flight |
| TwoPcConcurrency.CalmAlive | docs/validation/addition7.md:290-295 | Without aborts a slot of round q has exactly the transactions of the last N rounds in flight: min(N, num_txs) between the ends |
| TwoPcConcurrency.RunConcurrency | docs/validation/addition7.md:290-295 | The bound holds of the records of every simulated run |
| TwoPcPipeline.TwoPcCi.PrepareRound | src/sim/two_pc_pipeline.rs:89-175 | The in-place preparation equals the specified one: proposal, verdicts of closed windows, records, packet |
| TwoPcPipeline.TwoPcCi.Handle | src/sim/two_pc_pipeline.rs:200-292 | One participant: vote or abort, merge, fast aborts, piggyback, closing, equal to the specified processing |
| TwoPcPipeline.TwoPcCi.ProcessRound | src/sim/two_pc_pipeline.rs:177-320 | The processing loop and the stop rules equal the specified ones |
| TwoPcPipeline.TwoPcCi.Run | src/sim/pipeline.rs:132-159 | The run loop over the real floods leaves exactly the specified state after the determined number of rounds, and the specified row of every slot |
| TwoPcPipeline.SampledRun | src/sim/pipeline.rs:132-166 | Two whole two-phase-commit runs that differ only in the interval: same rounds, slots, state, records and charges; the coarser snapshots are the full ones at multiples of k |
| TwoPcPipeline.PatientRun | src/sim/pipeline.rs:132-159 | End to end on a connected network with enough slots in which no link loses `flood_repeats` transmissions in a row, any coins: exactly the rounds the coins need, or the timeout, or the cap on rounds; every log holds exactly the verdicts due by then; all complete exactly if the run was not cut short |
| Energy.LoadAmortized | plots/energy/plot_paper_energy.py:108-132 | The prefix-sum computation gives the specified windowed sum for every committed proposal |
| Energy.ExtractPerProposal | plots/energy/plot_stacked_bar.py:91-118 | The nested-sum computation gives the same list |
| Energy.EnergyOf | plots/energy/plot_paper_energy.py:108-132 | There is one energy for each committed proposal, in the order of the records: the j-th is the windowed cost of the j-th committed one |
| Energy.CostIsDifference | plots/energy/plot_paper_energy.py:117-132 | A windowed sum is a difference of two prefix sums, also for empty windows and windows past the series |
| Energy.EnergiesAddUp | plots/energy/plot_paper_energy.py:108-132 | Whatever the outcomes, the energies add up, slot by slot, to the shares of the committed proposals |
| Energy.NoSlotLost | plots/energy/plot_paper_energy.py:108-132 | When every proposal commits the energies add up to the awake node-slots of exactly the covered slots |
| CeEnergy.OneAlive | src/sim.rs:76-117 | In every slot of a capture-effect run exactly one proposal is alive |
| CeEnergy.RunEnergyIsLatency | src/sim.rs:76-117 | At the end of a run sampled at every slot, a proposal costs, by the snapshots and records left, exactly N times its latency |

## Left out

- The random generator, floating-point probabilities and the vote hash of `src/protocol/two_pc_ce.rs:49-58`: losses, capture draws, timeout coins, votes and abort coins are arbitrary functions; no probability is claimed.
- Packet serialisation: packets are values. Decoding failures cannot occur in the model; a participant holds the initiator's packet.
- Counters that nothing reads back (NACKs, piggybacks, reception attempts and successes, covered nodes, listen timeouts), the ratios computed from them, and all printing and exporting.
- Configuration files, command line, sweeps, plots and statistics other than the two energy computations.
- The other topology builders (`full_mesh` is there only as the complete graph `scale_free` starts from or falls back to); in `scale_free` a draw of a node that is a target already is skipped rather than repeated.
- Machine-integer widths: slots, terms and counters are natural numbers.
- Single-node pipelines, and CE simulators that have run before: `Simulator.Run` is proved from a fresh simulator.
