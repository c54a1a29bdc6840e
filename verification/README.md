# A verified model of the Raft key/value store and its linearizability checker

The system has three parts that lean on each other: Raft peers that agree on a
log, a key/value service that replays that log, and a checker that decides
whether what clients saw could have come from one sequential store.  This
project models all three in Dafny and proves what each is for.

**Raft** (`RaftTypes`, `RaftPeer`, `RaftPeerFacts`, `RaftNode`, `Cluster`,
`Consensus*`, `Refinement`, `Simulation`, `RaftTheorems`, `Provenance`,
`PeerLife`, `LeaderTables`, `PeerRules`, `FastBackup`, `BackupSpeed`,
`Counterexamples`).  `RaftNode.Raft` is the peer as an object with stable
storage; every method is proved equal to a function in `RaftPeer` on the peer as
a value, and `PeerRules` says what each function answers in terms of the whole
log.  `Cluster` runs any number of peers over a network that loses, delays,
duplicates and reorders messages, with crashes and restarts; every region run
under the lock is one step, and every list of steps is a run.  The log is offset
by a sentinel; the stored snapshot is represented by the log prefix it stands
for, so each peer stands for a whole log (`Full`).  `Simulation` shows that
every run follows an abstract Raft over whole logs (`Consensus`), whose
invariants give the guarantees of section 5 of the Raft paper.  Election Safety,
Log Matching, durability and apply order hold of every run.  State Machine
Safety holds of *orderly* runs, which meet two hypotheses: an append request is
built by a peer that still leads (the program checks the role in an earlier
critical section), and a peer that wins an election believes no other to match
beyond its own log (the program never resets `matchIndex`).  `Counterexamples`
gives, for each hypothesis, a run that meets the other and breaks safety.  If
leaders start with a cleared `matchIndex`, `LeaderTables` shows their tables
truthful.  Between two peers left to themselves, backup ends (`FastBackup`), and
within as many exchanges as the follower's log has terms, and five
(`BackupSpeed`).

**Key/value service** (`KvMachine`, `StoreMeaning`, `KvDesk`, `KvServer`,
`KvDelivery`, `KvRuns`, `KvService`, `OvertakenRun`, `ClientHistory`).
`KvMachine` is what a log of commands means, and `StoreMeaning` says it of
places in the log: which write of a key counts, and what each command is told.
`KvDesk` is the service with the requests that wait for it, as a state machine
whose steps come in any order: a request may join, read its channel, displace
another from its slot or clear a slot between any two steps of the applier.
`KvServer.KVServer` is the server object; each of its methods is one such step.
`KvRuns` joins the service to the cluster: one log explains every message any
peer ever hands over, every service follows it through snapshots and restarts as
long as each command reaches it next after what it has reached, and a handler
that passes its term check was answered for its own command, unless a snapshot
overtook it.  `KvService` says the same of the objects.  `ClientHistory` joins
the service to the checker: what clients are then answered is a linearizable
history of the store specification, so the checker accepts it.

**Checker** (`Linearizability`, `Histories`, `TimedOperations`, `LinkedHistory`,
`Bitset`, `Search*`, `Checker`, `Locality`, `Partition`, `CheckHistory`,
`KvModel`, `Visualization`, with `Sorting`, `Collections` and `Options`).
`Checker.CheckSingle` is the backtracking search over a doubly linked list, a
bitset and a hashed cache; it terminates and decides linearizability exactly.
`KvModel.CheckKvOperations` is the whole path from timed operations through
partitioning and sorting to the verdict.

## Model

| member | source | states |
|---|---|---|
| `RaftTheorems.ElectionSafety` | raft/raft.go:633-708 | at any two moments of any run, crashes included, two peers leading in the same term are the same peer |
| `RaftTheorems.LogMatching` | raft/raft.go:329-360 | at any two moments of any run, two logs held by peers or in flight that have the same term at an index agree on everything up to it; nothing is assumed of senders |
| `RaftTheorems.StateMachineSafety` | raft/raft.go:839-865 | in an orderly run no two peers, at any moments, hand different commands to their services at one index |
| `RaftTheorems.CommittedInLaterLeaders` | raft/raft.go:809-827 | in an orderly run what a peer knows committed was committed in a term no later than the peer's, within a log that ends with an entry of that term, and that log is a prefix of the log of every later leader from that term on |
| `RaftTheorems.RequestsCarryLogs` | raft/raft.go:738-749 | every append request in flight is the tail of its sender's whole log, with the matching previous index and term |
| `RaftTheorems.RequestCoversCommit` | raft/raft.go:361-363 | in an orderly run a request's leader commit lies within the entries the request matches |
| `RaftTheorems.CommitIndexMonotone` | raft/raft.go:361-363 | in an orderly run, within one life of a peer, its commit index never falls, and lies between what was applied and the end of its log |
| `RaftTheorems.Durability` | raft/raft.go:108-163 | after any run a crash and restart recovers term, vote, whole log and snapshot, and resumes at the snapshot |
| `RaftTheorems.ApplyOrder` | raft/raft.go:839-865 | within one life the indices sent strictly increase, and a gap ends exactly at an index some earlier message reached |
| `Provenance.EntriesWereStarted` | raft/raft.go:500-523 | at every moment of any run every entry of every peer's log had been started, where it stands, at the leader of its term |
| `Provenance.StartedOnce` | raft/raft.go:500-523 | an entry is started at one moment and at one peer only |
| `RaftPeerFacts.RestartRecovers` | raft/raft.go:574-626 | a peer made from a well-formed peer's storage has the same record and whole log, is well formed, and follows with cleared tables from the snapshot on |
| `RaftPeerFacts.CommitTargetIsHighest` | raft/raft.go:809-827 | the commit scan finds the highest index of the current term a majority is known to hold, never below the commit index |
| `RaftPeerFacts.MergeIsAbsorb` | raft/raft.go:346-359 | merging the rest of one log into another that matches before it keeps the log if it contains the other and replaces it otherwise |
| `RaftPeerFacts.AcceptFacts` | raft/raft.go:342-363 | an accepted request is absorbed whole, and storage, sentinel and stream stay well formed |
| `RaftPeerFacts.BuildAppendCarries` | raft/raft.go:738-749 | the request built is the tail of the sender's whole log |
| `RaftPeerFacts.HoldsEntryMeansPrefix` | raft/raft.go:398-414 | a follower finds the snapshot's last entry in its log exactly when the snapshot's log is a prefix of its own, and then keeps exactly the rest |
| `RaftPeerFacts.InstallFull` | raft/raft.go:398-431 | both branches of installing a snapshot absorb its log like any other |
| `RaftPeerFacts.SnapshotFacts` | raft/raft.go:178-207 | trimming keeps the whole log, term, vote, role, commit and apply indices, and moves the sentinel to the snapshot index |
| `RaftPeerFacts.SendApplyMsgFacts` | raft/raft.go:839-865 | a turn of the apply loop keeps the stream in order and the peer well formed |
| `PeerRules.ElectionRule` | raft/raft.go:633-649 | a peer stands for the next term with its own vote, on record, and asks with the length and last term of its whole log, trimmed or not |
| `PeerRules.VoteRule` | raft/raft.go:257-290 | a vote is granted if and only if the candidate's term is no earlier, the vote is still to be had in it, and the candidate's last term and index are at least those of the voter's whole log; with the term answered and the voter's new term, vote and role |
| `PeerRules.VoteReplyRule` | raft/raft.go:657-684 | a reply to the current election counts if it grants, wins exactly if that makes a majority, and one that does not win is heeded: a higher term makes a follower of that term with no vote, on record, and its log as it was |
| `PeerRules.FinishVoteRule` | raft/raft.go:677-684 | after becomeLeader a higher term is heeded in the same way, and no other changes anything |
| `PeerRules.LeadRule` | raft/raft.go:692-708 | only a candidate of the election's own term starts to lead, and then tries every other peer right past its own whole log |
| `PeerRules.AppendReplyRule` | raft/raft.go:752-803 | a late reply changes nothing and a higher term is heeded; success credits the peer with what was sent and leaves no index uncommitted that a majority is known to hold in this term; failure moves `nextIndex` alone |
| `PeerRules.SnapshotReplyRule` | raft/raft.go:880-896 | a higher term is heeded; a reply to a snapshot of the leader's own term raises its view of that peer and of no other |
| `PeerRules.AppendRule` | raft/raft.go:292-340 | a request is accepted if and only if its term is no earlier and the whole log has the previous term at the previous index, above the snapshot; a refusal leaves the log alone |
| `PeerRules.CommitRule` | raft/raft.go:342-363 | an accepted request brings the commit index up to the leader's, as far as the log then goes |
| `PeerRules.RejectRule` | raft/raft.go:312-340 | a refusal names the follower's end, the place past its snapshot, or the first entry of the run of its own term that reaches the index tried |
| `PeerRules.LastOfTermRule` | raft/raft.go:781-788 | the leader's scan finds its last entry of a term, and nothing exactly if it has none |
| `PeerRules.NextRule` | raft/raft.go:772-794 | told of a term, the leader goes right past its own last entry of it, or to the place named if it has none, or to its snapshot if that place lies before it |
| `PeerRules.InstallRule` | raft/raft.go:366-444 | an earlier term is refused with word of the term; a snapshot that reaches further replaces the peer's own, moves commit and apply indices up to it and is passed on; any other leaves log and indices alone |
| `PeerRules.ApplyRule` | raft/raft.go:842-857 | the next entry of the whole log is sent to the service exactly if it is committed |
| `Simulation.SimNext` | raft/raft.go:257-897 | every step of the cluster keeps the record's invariants, and its safety invariants if the step meets the hypotheses |
| `Cluster.NextWF` | raft/raft.go:108-163 | after every step each peer's storage holds its current record and its sentinel, snapshot and stream agree |
| `Counterexamples.LateSenderBreaksSafety` | raft/raft.go:714-749 | a run in which winners keep within their logs but a request is built after its sender lost the lead, and two peers apply different commands at index 1 |
| `Counterexamples.StaleMatchBreaksSafety` | raft/raft.go:692-708 | a run in which every sender leads but a winner's old `matchIndex` exceeds its log, and two peers apply different commands at index 2 |
| `Counterexamples.OrderlyIsBoth` | raft/raft.go:692-749 | a run is orderly exactly when it meets both hypotheses |
| `FastBackup.BackupEnds` | raft/raft.go:771-799 | undisturbed, a leader and follower reach agreement within `nextIndex + 4` exchanges: the follower holds the leader's whole log and the leader knows it |
| `FastBackup.ExchangeProgress` | raft/raft.go:312-340 | each exchange keeps the pair's conditions and either finishes or lowers the rank: a lower `nextIndex`, the place after the follower's snapshot, or the leader's snapshot |
| `BackupSpeed.BackupIsFast` | raft/raft.go:771-799 | undisturbed, with terms that rise along both logs, agreement takes at most as many exchanges as there are terms in what the follower holds past its snapshot, and five, however many entries those are |
| `BackupSpeed.RunsRise` | raft/raft.go:342-360 | at every moment of every run terms rise along every peer's log |
| `FastBackup.ConflictLowers` | raft/raft.go:776-794 | told of a disagreement the leader tries a lower index, or falls back to its snapshot when the index lies before it |
| `FastBackup.FreshRunsArePaired` | raft/raft.go:725-805 | in every run in which senders lead and leaders start with a cleared `matchIndex`, a leader and any peer of no later term meet the conditions of backup |
| `LeaderTables.TablesAreTruthful` | raft/raft.go:752-803 | in such a run a leader's `nextIndex` never passes the end of its log, its `matchIndex` stays within it, and a peer of no later term holds all the leader believes it to hold |
| `LeaderTables.BackedNext` | raft/raft.go:752-897 | every step keeps each leader's tables backed by what peers acknowledged in its term or by the snapshots they hold, and each reply in flight honest about both |
| `FastBackup.MatchingLogsCanCycle` | raft/raft.go:771-799 | Log Matching between the two logs alone is not enough: two matching logs whose common term starts at different places exchange for ever |
| `RaftNode.Persister.SaveRaftState` | raft/persister.go:39-43 | replaces the record and keeps the snapshot |
| `RaftNode.Persister.SaveStateAndSnapshot` | raft/persister.go:59-64 | replaces record and snapshot together |
| `RaftNode.Raft.constructor` | raft/raft.go:574-626 | the new peer is the one `Make` reads from storage, start-up snapshot message included |
| `RaftNode.Raft.ReadPersist` | raft/raft.go:129-163 | restores the stored record, or leaves a blank peer |
| `RaftNode.Raft.Persist` | raft/raft.go:108-126 | storage holds the current record; nothing else changes |
| `RaftNode.Raft.StartElection` | raft/raft.go:633-649 | the new state and the vote request sent |
| `RaftNode.Raft.RequestVote` | raft/raft.go:257-290 | the whole new state and the reply, vote stored before it is answered |
| `RaftNode.Raft.HandleVoteReply` | raft/raft.go:657-675 | the whole new state, and whether this reply won the election |
| `RaftNode.Raft.FinishVoteReply` | raft/raft.go:677-684 | the whole new state after what follows becomeLeader |
| `RaftNode.Raft.BecomeLeader` | raft/raft.go:692-708 | the whole new state: `nextIndex` is reset by a loop, `matchIndex` is not |
| `RaftNode.Raft.Start` | raft/raft.go:500-523 | the whole new state, and the index and term returned |
| `RaftNode.Raft.MakeAppendEntry` | raft/raft.go:731-749 | builds the specified request, or none when the peer needs a snapshot |
| `RaftNode.Raft.CommitIndexUpdate` | raft/raft.go:809-827 | the scanning loop commits the specified index and changes nothing else |
| `RaftNode.Raft.CountHolders` | raft/raft.go:815-820 | the loop counts the set of peers known to hold an index, the leader included |
| `RaftNode.Raft.HandleAppendReply` | raft/raft.go:752-803 | the whole new state for a late, higher-term, accepted or rejected reply |
| `RaftNode.Raft.HandleSnapshotReply` | raft/raft.go:880-896 | the whole new state |
| `RaftNode.Raft.AppendEntries` | raft/raft.go:292-364 | the whole new state and reply in every branch |
| `RaftNode.Raft.FindConflict` | raft/raft.go:332-338 | the backward loop computes the specified conflict index |
| `RaftNode.Raft.MergeEntries` | raft/raft.go:346-359 | the entry loop computes the specified merge |
| `RaftNode.Raft.InstallSnapshot` | raft/raft.go:366-444 | the whole new state and reply in every branch |
| `RaftNode.Raft.FindEntry` | raft/raft.go:398-405 | the loop finds the position of the snapshot's last entry exactly if the log holds it |
| `RaftNode.Raft.Snapshot` | raft/raft.go:178-207 | the whole new state |
| `RaftNode.Raft.SendApplyMsg` | raft/raft.go:842-857 | the whole new state and the message sent, if any |
| `KvMachine.DuplicateSuppression` | kvraft/server.go:280-293 | a command takes effect exactly when it is its client's first or its number exceeds that of the client's previous entry; otherwise it gets that entry's reply |
| `KvMachine.ExactlyOnce` | kvraft/server.go:280-293 | if no client's numbers fall, a request takes effect at its first occurrence and no other, and every repeat gets the first reply |
| `KvMachine.FallingNumbersRepeat` | kvraft/server.go:284-293 | if they do fall, a request can take effect twice |
| `KvMachine.RecordedReply` | kvraft/server.go:92-98 | a request answered from the record gets the reply to its client's latest entry, which is numbered no lower |
| `KvMachine.StoreIsEffective` | kvraft/server.go:337-392 | the store is what the effective commands alone make it |
| `StoreMeaning.KeyPresent` | kvraft/server.go:372-392 | before any place in a log, a key is in the store if and only if some effective put or append of it has no effective delete of it after |
| `StoreMeaning.KeyValue` | kvraft/server.go:372-392 | and its value is that of the last effective put since the last delete followed by the effective appends since, or those appends alone |
| `StoreMeaning.StoreMeans` | kvraft/server.go:337-392 | both of the store a whole log leads to, for every key |
| `StoreMeaning.ReplyMeans` | kvraft/server.go:337-392 | an effective get is told OK with that value, or that there is no key; puts, appends and deletes are told OK, and any other kind nothing |
| `StoreMeaning.DeletedIsGone` | kvraft/server.go:380-383 | a get after a delete with no write in between is told that there is no key |
| `KvDesk.RunKept` | kvraft/server.go:62-78 | for every order of deliveries, sends, and requests joining, reading, displacing one another and clearing slots: the service is in the state of what it has heard, and a channel holds nothing but the result of the command heard at its own index, or word of being overtaken |
| `KvDesk.NeverBlocked` | kvraft/server.go:307-311 | for every such order in which command indices rise, the applier never meets a full channel |
| `KvServer.KVServer.constructor` | kvraft/server.go:242-268 | server and peer start from storage: the service holds the state of the stored snapshot's log prefix, with commit index 0, nothing heard and no one waiting |
| `KvServer.KVServer.ApplyToStateMachine` | kvraft/server.go:337-392 | dispatches to four handlers that together execute the command as specified |
| `KvServer.KVServer.RestoreSnapshot` | kvraft/server.go:394-408 | takes a snapshot that decodes and ignores one that does not |
| `KvServer.KVServer.ApplyCommand` | kvraft/server.go:273-305 | is the delivery step of the desk: the specified new state, a reply due to whoever waits, and a snapshot for raft exactly if its state has outgrown the limit |
| `KvServer.KVServer.Notify` | kvraft/server.go:307-311 | is the sending step of the desk: the waiter listed at the index gets the reply in a channel that was empty, so sending never blocks, and no other channel changes |
| `KvServer.KVServer.TurnAway` | kvraft/server.go:320-330 | exactly the waiters not yet answered are told they were overtaken |
| `KvServer.KVServer.ApplySnapshot` | kvraft/server.go:312-333 | is the delivery step of the desk: a snapshot ahead of the commit index is restored and waiters turned away; any other changes nothing |
| `KvServer.KVServer.Applier` | kvraft/server.go:270-335 | whatever requests do before each message and while raft takes a snapshot, the loop takes in exactly the stream, leaves the state it leads to, keeps the channels as `KvDesk.RunKept` says, and hands raft a snapshot exactly after the commands that leave its state outgrown, of the state at that command |
| `KvServer.KVServer.Begin` | kvraft/server.go:92-107 | a repeat, and only a repeat, is answered at once, with the reply to its client's latest command in any log the state comes from, and never reaches raft; otherwise a leader's log ends with the command, at the index and in the term to wait for, and any other peer refuses with its leader hint |
| `KvServer.KVServer.Register` | kvraft/server.go:62-66 | is the joining step of the desk: a fresh channel takes over the slot of the index |
| `KvServer.KVServer.Collect` | kvraft/server.go:68-78 | is the reading step of the desk; what is returned as OK is word of being overtaken or the result of a command heard at the index waited for, in the state it met |
| `KvServer.KVServer.Finish` | kvraft/server.go:111-121 | is the leaving step of the desk: the slot is cleared whoever holds it, and the reply and leader hint are set |
| `KvDelivery.Transparency` | kvraft/server.go:312-318 | whatever continuous stream is delivered after a start from the stored snapshot, the service holds the fold of the log up to the highest index reached, late start-up snapshot included |
| `KvDelivery.InPlaceIsContinuous` | raft/raft.go:436-443 | if installed snapshots are neither overtaken by later commands nor followed by commands they cover, what is delivered is continuous |
| `KvDelivery.ContinuousRises` | kvraft/server.go:270-282 | what is delivered continuously reaches the applier with command indices rising |
| `KvDelivery.DeliveryRises` | raft/raft.go:839-865 | commands delivered in the order they are sent reach the applier with indices rising, wherever snapshots fall |
| `KvDelivery.ReplyIsReplyAt` | kvraft/server.go:282-293 | the reply computed for a delivered command is the one its place in the log calls for |
| `KvDelivery.OvertakenSnapshotIsLost` | raft/raft.go:436-443 | if a command overtakes the snapshot before it, the service ends in a different state |
| `OvertakenRun.OvertakenServiceIsLost` | raft/raft.go:436-443 | an orderly run of three peers without crashes in which a peer sends its service a snapshot and then the next command; told of the command first, the service follows no log of the run |
| `KvRuns.OneLog` | raft/raft.go:839-865 | in an orderly run one log explains every command and snapshot any peer ever hands over, and contains all any peer ever knows committed |
| `KvRuns.LifeSentFrom` | raft/raft.go:605-620 | what a peer sends from a start on is in order, begins with the stored snapshot, and never goes below it |
| `KvRuns.ServicesFollowLog` | kvraft/server.go:259-263 | in an orderly run every service that is delivered each command next after what it has reached, snapshots at any time, holds the state that one log leads to, through restarts |
| `KvRuns.InPlaceDelivered` | raft/raft.go:436-443 | it is enough that commands keep the order they are sent in and installed snapshots come in place |
| `KvRuns.SnapshotMeansPrefix` | kvraft/server.go:295-305 | what the service encodes after a command is the state of the log prefix its peer trims in exchange |
| `KvRuns.OwnCommand` | kvraft/server.go:100-119 | whatever a peer hands over at the index of a started command, while it still leads in the term of the start, is that command |
| `KvRuns.OwnResult` | kvraft/server.go:307-310 | a reply given at that index, whatever order the service was told of things in, read at one moment and checked at a later one of the same life, is the answer to the started command, which is the common log's at that index; under continuous delivery it is the command's result at its place in that log |
| `KvRuns.HandlerResult` | kvraft/server.go:62-121 | for every orderly run, every order of delivery and every order of the steps of applier and handlers: what a handler finds in its channel, if its peer still leads in the term of its start, is word of being overtaken or the answer to its own command in the state that command met, and the command is the common log's at its index; under continuous delivery it is the result at its place in that log |
| `KvRuns.ApplierNeverBlocked` | kvraft/server.go:307-311 | a service told of commands in the order its peer sends them, wherever snapshots fall, never leaves its applier blocked on a waiter |
| `KvService.ServeLife` | kvraft/server.go:242-335 | a server object started from a peer's storage and continuously fed what the peer sends, whatever requests do meanwhile, is in the state of the common log at the highest index delivered |
| `KvService.BeginOwn` | kvraft/server.go:92-107 | a handler that is to wait has its command started in the run at the index and in the term it waits for; one answered at once gets the reply the common log calls for to its client's latest command |
| `KvService.CollectOwn` | kvraft/server.go:62-78 | a handler object that returns OK, not overtaken, returns the answer to its own command, which is the common log's at its index; under continuous delivery, its result at its place in that log |
| `ClientHistory.RealTimeOrder` | kvraft/server.go:100-119 | if a command had been handed over, at any peer, when a handler started its own, and the handler is answered for that, the earlier command comes first in the common log |
| `ClientHistory.HandlerAnswers` | kvraft/server.go:62-121 | under continuous delivery what a handler returns answers the request for its own entry: it was called before the entry was started, told the entry's result, and answered once a peer knew it committed |
| `ClientHistory.RepeatAnswers` | kvraft/server.go:280-293 | a request started again and answered for that is answered for its first start, if no client's numbers fall |
| `ClientHistory.RecallAnswers` | kvraft/server.go:92-98 | so is one answered from the record, if its client has started nothing later |
| `ClientHistory.PendingCompletes` | kvraft/server.go:75-77 | whatever is known committed at the end of a run could be answered then, so requests left pending can be completed |
| `ClientHistory.ServiceIsLinearizable` | kvraft/test_test.go:49-98 | the requests that took effect within any prefix of the common log, so answered, make a history the checker's store specification can explain, if they are gets, puts and appends |
| `ClientHistory.ClientsPassCheck` | kvraft/test_test.go:371-375 | so the checker accepts every such history |
| `Linearizability.RunsArePartial` | porcupine/checker.go:190-213 | picking minimal accepted operations from the start yields exactly the partial linearizations |
| `Linearizability.FullPartialIsLinearization` | porcupine/checker.go:244-252 | partial linearizations of full length are exactly the linearizations |
| `SearchTree.CachedIsClosed` | porcupine/checker.go:200-210 | a configuration found in the cache is closed: nothing is lost by skipping it |
| `SearchTree.Push` | porcupine/checker.go:201-207 | choosing an operation keeps the search invariant |
| `SearchTree.Pop` | porcupine/checker.go:214-241 | backtracking closes the configuration left and keeps the search invariant |
| `SearchTree.Exhausted` | porcupine/checker.go:215-217 | a dead end with an empty stack means there is no linearization and every partial one is matched in the record |
| `SearchCost.CostAdvance` | porcupine/checker.go:208-213 | moving the cursor lowers the bound on remaining steps |
| `SearchCost.CostPush` | porcupine/checker.go:201-207 | choosing an operation lowers it |
| `SearchCost.CostPop` | porcupine/checker.go:235-241 | backtracking lowers it |
| `LinkedHistory.InsertBefore` | porcupine/checker.go:70-81 | the node is linked in at its place, both ways |
| `LinkedHistory.MakeLinkedEntries` | porcupine/checker.go:121-138 | a linked list of the whole history in order, each call partnered with its return |
| `LinkedHistory.Length` | porcupine/checker.go:83-90 | counts the list |
| `LinkedHistory.Lift` | porcupine/checker.go:159-167 | the list without the call and its return is linked, adjacent ones included, and both keep pointers to where they were |
| `LinkedHistory.Unlift` | porcupine/checker.go:169-177 | restores every pointer of the list |
| `LinkedHistory.LiftTop` | porcupine/checker.go:203-207 | lifting keeps a stack of lifted calls restorable |
| `LinkedHistory.UnliftTop` | porcupine/checker.go:235-241 | unlifting the last one restores the list below it |
| `Bitset.NewBitset` | porcupine/bitset.go:10-17 | the empty set, with just enough words |
| `Bitset.Clone` | porcupine/bitset.go:19-23 | a fresh array with the same words |
| `Bitset.Set` | porcupine/bitset.go:29-33 | adds exactly the position to the set the words represent |
| `Bitset.Clear` | porcupine/bitset.go:35-39 | removes exactly the position |
| `Bitset.Get` | porcupine/bitset.go:41-44 | membership in that set |
| `Bitset.ComputePopcnt` | porcupine/bitset.go:46-52 | the size of the set the words represent |
| `Bitset.ComputeHash` | porcupine/bitset.go:54-60 | the exclusive or of the words and the size of the set |
| `Bitset.Equals` | porcupine/bitset.go:62-72 | equality of words, which is equality of the sets |
| `Checker.CacheContains` | porcupine/checker.go:145-152 | one bucket answers for the whole cache: found exactly if an equal state is cached with the same set |
| `Checker.AddToCache` | porcupine/checker.go:201-202 | the cache holds what it held and the new configuration, in the bucket of its hash |
| `Checker.RecordLongest` | porcupine/checker.go:219-234 | exactly the operations on the path without a longer record get the path |
| `Checker.TakeOut` | porcupine/checker.go:203-207 | the live list is what the longer path leaves of the history, in order |
| `Checker.PutBack` | porcupine/checker.go:235-241 | the live list is again what the shorter path leaves |
| `Checker.TryCall` | porcupine/checker.go:194-213 | keeps the search invariant and lowers the bound, whether the call is chosen, refused or cached |
| `Checker.Backtrack` | porcupine/checker.go:218-241 | keeps the search invariant and lowers the bound |
| `Checker.CheckSingle` | porcupine/checker.go:179-253 | terminates; true only if the history is linearizable, and, if never stopped, exactly if it is; on success every record is a full linearization, on failure every record is a partial one through its operation and, if asked for, of maximum length |
| `TimedOperations.MakeEntries` | porcupine/checker.go:48-60 | a permutation of all calls and returns, by time, calls before returns |
| `TimedOperations.EntriesKeepMeaning` | porcupine/checker.go:39-60 | however ties are sorted, the entries are complete and have exactly the linearizations of the timed operations |
| `Locality.StoreIsLocal` | porcupine/model.go:28-33 | for any model and any key function, the whole store is linearizable exactly when every key is |
| `Locality.Merge` | models/kv.go:20-36 | orders of all keys merge into one run of the whole store |
| `Partition.PartitionByKey` | models/kv.go:20-36 | one part per key, keys ascending, each part its operations in order |
| `Partition.PartsDecide` | porcupine/model.go:28-33 | the history is linearizable exactly when each part is |
| `CheckHistory.CheckParallel` | porcupine/checker.go:274-353 | Illegal if and only if an answer that arrives before the timeout tells of a partition that is not linearizable; Unknown if and only if none does and the timeout fires; Ok otherwise, and then every partition is linearizable; the partial linearizations returned are real, and longest for every partition answered in time |
| `CheckHistory.CheckOperations` | porcupine/checker.go:365-373 | the same by keys, for every arrival order; if the timeout does not fire, Ok exactly if the whole history is linearizable and Illegal exactly if it is not, and in any case neither is ever wrong |
| `KvModel.OneKeyRespected` | models/kv.go:42-56 | equality of values respects the single-key specification |
| `KvModel.WholeMapIsStore` | models/kv.go:37-56 | one single-key object per key is the map of all keys |
| `KvModel.CheckKvOperations` | porcupine/porcupine.go:5-8 | true exactly if the whole-map history is linearizable |
| `Visualization.Replay` | porcupine/visualization.go:63-78 | replays without panic exactly if the specification accepts the sequence, with the state after each step |
| `Visualization.ComputePartitionData` | porcupine/visualization.go:54-86 | no panic exactly if every sequence is accepted; largest first, and for each operation an index of a largest one through it |
| `Visualization.CheckedInfoDisplays` | porcupine/visualization.go:62-78 | what the checker returns never panics and shows, for every operation, a longest partial linearization through it |

## Left out

- Wall-clock behaviour: election timers, heartbeats and the 500 ms wait are steps that may happen at any time; liveness is not stated.
- gob encoding and the network library: records and messages are values, and the network is a set of messages.
- HTTP, JSON, process wiring, gateway, worker pools and the controller: input/output, or easy claims only.
- Fields that decide nothing: the election timer, the leader hint kept by a peer, snapshot offset and done flags; CondInstallSnapshot always agrees; Kill only stops loops.
- checkEvents with renumber and convertEntries: no caller in the key/value system; complete entries are covered by `Checker.CheckSingle`.
- Out-of-range log indices: a peer whose `nextIndex` lies beyond its log takes no step where the program would panic.
- `RaftPeerFacts.CommitTargetIsHighest`: the scan stops at the sentinel, where the program would panic; in orderly runs it never gets there, since the commit index is at or above the sentinel.
- `RaftTheorems.StateMachineSafety`: for orderly runs only; both hypotheses are needed, and the one on winners is weaker than a zeroed `matchIndex`.
- `RaftTheorems.RequestCoversCommit`: for orderly runs only, like the commit-index results beside it.
- `BackupSpeed.BackupIsFast`: under the conditions of `FastBackup.BackupEnds`, and terms that rise, which `BackupSpeed.RunsRise` derives.
- `FastBackup.BackupEnds`: nothing else happens to the two peers meanwhile, and the leader's tables are truthful, which `FastBackup.FreshRunsArePaired` derives when leaders start with a cleared `matchIndex`; the logs come from leaders' logs rather than only matching each other, which `FastBackup.MatchingLogsCanCycle` shows to be needed.
- `KvServer.KVServer.Applier`: the snapshots meant for raft are returned, not handed to the peer object, since a peer stands for a snapshot by its log prefix.
- `KvRuns.ServicesFollowLog`: assumes that each command is delivered next after what the service has reached, which the program does not enforce for installed snapshots; `OvertakenRun.OvertakenServiceIsLost` shows it to be needed.
- `KvRuns.HandlerResult`: that the answer is the result at the command's place in the log is stated under continuous delivery, which the program does not enforce; that it answers the handler's own command needs no such condition.  The same holds of `KvRuns.OwnResult` and `KvService.CollectOwn`.
- `ClientHistory.ServiceIsLinearizable`: deletes are outside the checker's specification, and a request still pending has to be completed (`ClientHistory.PendingCompletes`) or left beyond the prefix.
- `KvMachine.ExactlyOnce`: assumes each client's numbers do not fall in the log; concurrent requests of one client may break that.
- `Checker.CheckSingle`: the comparison of states must respect the specification, and histories must be complete.
- `CheckHistory.CheckParallel`: goroutines appear as an order of arrival and a point at which the timeout fires; with no partitions and no timeout the program waits for ever, which is excluded.
- `TimedOperations.MakeEntries`: sorting is insertion sort here; only what any sort promises is used.
- `Visualization.ComputePartitionData`: the bars of the history and the text descriptions are not modelled.
