# Verified model of the Kura metadata service

This project models the parts of the metadata service that its safety rests on, and proves what
they promise for every input, every state and every run:

- **Raft.** `Figure2` is the deterministic specification of one node, `RaftCore` the Core around
  it (log-persistence gating, ordered application, ReadIndex) and `RaftCluster` a cluster of Cores
  over disks and a network that may lose, duplicate and reorder. A disk write and its completion
  are separate steps, and a crash between them keeps the record. Safety is proved through a ledger
  of what was durably promised, voted, led and acknowledged (`RaftLedger`, `RaftLedgerSteps`):
  every step of every node takes the ledger by one of eight transitions, each of which keeps its
  invariant. `RaftInvariant` ties nodes, disks and packets to the ledger; `RaftHandlers` to
  `RaftNodeSteps` and `RaftDisk` show that every step keeps the tie; `RaftSafety`, `RaftCommit`,
  `RaftReads` and `RaftContexts` hold the theorems over runs. `RaftScenarios` and `RaftRounds` build
  runs out of whole protocol rounds; `RaftStaleReads` and `RaftWitnesses` use them to show where two
  of the promises end. `Figure2Meaning` and `RaftCoreMeaning` say what every event and input means in
  terms of the entries, votes, match indexes and reads that the node holds; `RaftReadEnds` and
  `RaftDelivery` draw from them what a client sees over whole lives: no accepted read is lost or
  ended twice, and a command is completed only when it was itself applied. `Compaction` is a layer over the
  specification, `RaftSnapshots` one Core with snapshots (`RaftSnapshotMeaning` says what its inputs
  mean), and `RaftSnapshotSafety` ties the snapshots it may be sent to the cluster. `RaftCoreObject`
  and `Figure2Loops` are the code's own imperative form.
- **The linearizability checker**: the memoised, budgeted search (`LinearSearch`), the histories it
  decides and their minimisation (`LinearHistory`), the text key of its memo (`LinearKey`), what the
  object it checks against is (`LinearObject`), and that it is the store (`LinearStore`).
- **The transactional store**: commands on keys and leases (`StoreModel`, `StoreProofs`) and what
  they mean to a caller (`StoreMeaning`, `StoreTransaction`), whole runs and snapshots
  (`StoreRuns`), watches (`StoreWatch`), what the published events rebuild (`StoreEvents`) and the
  object (`StoreObject`).
- **Durable storage**: the segmented write-ahead log (`WalFormat`, `Wal`, `WalObject`, and in
  `WalCanonical` what recovery can accept), the term/vote cell (`HardStateStore`), and when a disk is
  enough to start from (`RaftRestart`).
- **Snapshot publication and collection** on top of the store (`SnapshotReaders`,
  `SnapshotMeaning`), and key ranges (`KeyOrder`).

An exception in the code is a `Failed`, `Refused` or `None` result here; the objects are classes
whose methods are proved against the functions that the theorems speak about.

## Findings

Two properties that the design asks for do not hold of the code as it is. Each has a run of a
three-node cluster, from empty disks, in which it fails, and the condition under which it holds.

- *Committed entries can disagree after a restart.* `LogEntryApplied` is handled before the check
  for a pending log or hard-state write, so the applied index can be recorded before the entry is
  on disk. `RaftWitnesses.AppliedBeforeDurable` is a run in which a crash then brings the node back
  committed to another entry. What is handed to state machines still agrees in every run
  (`RaftSafety.StateMachineSafety`). The rule is that the applied index is written only when the
  disk already holds the log up to it, which the driver can check before it writes. In every run
  that keeps it, committed entries agree (`RaftCommit.CommittedEntriesAgree`); and wherever a node
  records an applied index, crashes and is accepted again, it comes back committed to what it was
  committed to if and only if the rule was kept (`RaftCommit.RebornAgreesIff`).
- *A restarted leader can answer a read with stale state.* Read contexts start again at 1 after a
  restart; a refusal of an old request carries its context back, the leader repeats it, and an
  answer to that repetition is counted for a later read with the same context.
  `RaftWitnesses.StaleRead` is a run in which a leader that has already been replaced answers a
  read below an index that another node had committed before the read was accepted. Reads are
  linearizable when the leader, in its current term, has sent no request with the context it is
  about to issue (`RaftContexts.FreshContextReadIsLinearizable`), which always holds in a node's
  first life (`RaftContexts.FirstLifeIsNew`). Conversely, whenever old acknowledgements of that
  context are on the network from enough peers, a read is answered by them alone
  (`RaftStaleReads.EarlyMajorityAnswers`); with three nodes a stale answer is possible if and only
  if one such acknowledgement comes from a peer that has since passed the leader's term and somebody
  has committed more than the leader (`RaftStaleReads.ThreeNodesStaleIff`).

A third point concerns installed snapshots: `compact_to` leaves a valid state if and only if the
snapshot agrees with the log at its index or is not below the commit index
(`Compaction.InstallIsValidIff`).

## Model

| member | source | states |
|---|---|---|
| `RaftSafety.ElectionSafety` | src/figure2_spec.cpp:270-381 | in every run, with crashes anywhere, two nodes that lead the same term at any two moments are the same node |
| `RaftSafety.LogsMatch` | src/figure2_spec.cpp:383-500 | if the logs of any two nodes at any two moments have entries with the same index and term, they agree on every earlier index |
| `RaftSafety.LeadersComplete` | src/figure2_spec.cpp:502-524 | what a leader has committed is in the log of every later leader of that or a later term |
| `RaftSafety.StateMachineSafety` | src/raft_election.cpp:1548-1567 | any two entries ever handed to state machines at the same index, by any nodes, are the same entry |
| `RaftSafety.SentIsDurable` | src/raft_election.cpp:1569-1591 | whenever a step sends a message, its node's disk holds exactly the term, vote and log the node then has |
| `RaftSafety.ApplicationsInOrder` | src/raft_election.cpp:1081-1102 | within one life of a node entries reach the state machine in index order, and an index is repeated only while it has not completed |
| `RaftSafety.AppliedIsDecided` | src/raft_election.cpp:1548-1567 | an entry handed to the state machine is the log entry at last_applied + 1, at or below the commit index, and chosen by a majority |
| `RaftSafety.LifeAdvances` | src/figure2_spec.cpp:749-809 | within one life term, commit index and applied index never fall and the committed prefix never changes |
| `RaftSafety.NextKeeps` | src/raft_simulation.cpp:225-383 | every environment step (input, delivery, disk write, completion, crash, restart) keeps the cluster invariant and only grows the ledger |
| `RaftCommit.CommittedEntriesAgree` | src/figure2_spec.cpp:482-524 | in every run that follows the disk rule, two nodes whose commit indexes ever cover an index hold the same entry there |
| `RaftCommit.WriteAppliedPreciseIff` | src/raft_election.cpp:1081-1102 | recording an applied index leaves a disk whose applied prefix is decided if and only if the disk already holds those entries |
| `RaftCommit.RebornAgreesIff` | src/raft_election.cpp:1081-1102 | a node that records an applied index, crashes and is accepted again is committed to the same entries as before, and to the entry it handed out, if and only if its disk already held the log up to that index |
| `RaftCommit.CommittedReachesLeaders` | src/figure2_spec.cpp:502-524 | in every run that follows the disk rule, what any node has committed is in the log of every later leader from some term on, and that term had a leader already |
| `RaftWitnesses.AppliedBeforeDurable` | src/raft_election.cpp:1081-1147 | a run from empty disks in which a node hands out an entry whose log write is in flight and comes back committed to a different entry at that index |
| `RaftReads.AnsweredReadIsLinearizable` | src/raft_election.cpp:1398-1532 | an answered read was accepted earlier in the same life, its index is applied, the leader with the peers that had acknowledged its context already or had not passed its term is a majority, and unless some peer had done the first and not the second, no node had committed beyond its index when it was accepted |
| `RaftReads.ReadIndexCovers` | src/raft_election.cpp:1398-1460 | a majority that has not moved past the leader's term bounds every commit index by the leader's current-term commit |
| `RaftContexts.FreshContextReadIsLinearizable` | src/raft_election.cpp:1398-1532 | an answered read is linearizable whenever its leader, in its term, had sent no request with the read's context before accepting it; a counter that never stood higher is one case |
| `RaftContexts.FirstLifeIsNew` | src/raft_election.cpp:887-1047 | a node that has started once never reissues a context |
| `RaftStaleReads.EarlyMajorityAnswers` | src/raft_election.cpp:1493-1532 | from every reachable state in which old acknowledgements of the next context come from a majority with the leader, accepting a read and delivering them answers it at the leader's commit index |
| `RaftStaleReads.StaleNeedsEarlyAck` | src/raft_election.cpp:1493-1532 | in a cluster of any size a stale answer needs an earlier acknowledgement of its context from a peer that has passed the leader's term, a commit beyond the leader's, and a majority of the leader, the peers that acknowledged before and those that have not passed its term |
| `RaftStaleReads.ThreeNodesStaleIff` | src/raft_election.cpp:1398-1532 | with three nodes, some continuation answers the read stale if and only if a peer that has passed the leader's term acknowledged its context before and somebody had committed more than the leader |
| `RaftWitnesses.StaleRead` | src/figure2_spec.cpp:526-561 | a run from empty disks in which a replaced leader answers a read at index 2 that was accepted after another node had committed index 3 |
| `RaftReadSteps.CoreStepReads` | src/raft_election.cpp:1493-1546 | waiting reads come only from accepted requests, gain only counted acknowledgements, are answered only when confirmed and applied, and are dropped with leadership; that none is lost or ended twice is `RaftReadEnds.ReadsConserved` |
| `RaftReadEnds.ReadsConserved` | src/raft_election.cpp:1398-1546 | for every input and request, the reads that waited or are accepted are those that wait afterwards and those that one effect ends, and only a request never used is accepted |
| `RaftReadEnds.ReadsAddUp` | src/raft_election.cpp:1398-1546 | over any part of one life of a node, what waited or was accepted waits or was ended, and a used request is not accepted again |
| `RaftReadEnds.ReadsEndOnce` | src/raft_election.cpp:1462-1546 | within one life a request is ended at most once, by its answer, its cancellation, its time-out or the loss of leadership; it was accepted before, and waits no longer |
| `RaftReadEnds.NoSecondEnd` | src/raft_election.cpp:1462-1546 | no two effects of one life end the same request |
| `RaftCoreMeaning.EndReadMeans` | src/raft_election.cpp:1462-1491 | a cancel or time-out of a waiting request removes exactly that read, keeps the others in order and says which it was; for any other request nothing happens |
| `RaftCoreMeaning.BeginReadMeans` | src/raft_election.cpp:1398-1460 | a read is refused for the first reason that applies; otherwise it waits at the commit index with the leader's acknowledgement, under a new context that every peer is asked to confirm |
| `RaftCoreMeaning.AcknowledgeMeans` | src/raft_election.cpp:1493-1513 | a success of the leader's term is counted for the read with its context alone, confirms it when more than half of the members have acknowledged, and answers what is ready |
| `RaftCoreMeaning.AnswersMean` | src/raft_election.cpp:1515-1532 | exactly the confirmed reads at or below the applied index are answered, with their index, and exactly the others stay |
| `RaftCoreMeaning.AnswersSplit` | src/raft_election.cpp:1515-1532 | the answers come read by read, in order |
| `RaftCoreMeaning.StillWaitingSplit` | src/raft_election.cpp:1515-1532 | the reads that stay keep their order |
| `RaftCoreMeaning.RejectionsMean` | src/raft_election.cpp:1534-1546 | losing the leadership rejects every waiting read, in order |
| `RaftCoreMeaning.FinishMeans` | src/raft_election.cpp:1081-1102 | only the entry in the slot is completed, under its own id; its client is completed if and only if this leader registered it, then ready reads are answered and the next committed entry is handed out |
| `RaftCoreMeaning.RetryMeans` | src/raft_election.cpp:1103-1131 | a failed application blocks the slot; nothing but a retry is accepted for it, and the retry hands out the same entry under a new id |
| `RaftCoreMeaning.LogDoneMeans` | src/raft_election.cpp:1132-1147 | only the completion of the open log write is accepted, and it frees what waited, in order |
| `RaftCoreMeaning.ScheduleMeans` | src/raft_election.cpp:1548-1567 | the entry after the last applied is handed out if it is committed and none is being applied |
| `RaftCoreMeaning.SpecStepMeans` | src/raft_election.cpp:1317-1396 | an event is refused where the specification fails or ids run out; otherwise released and waiting effects together are the change of role, the reads it ends, the specification's effects one by one, and the hand-out, cut after the log write |
| `RaftDelivery.DeliversExactly` | src/raft_election.cpp:1057-1147 | for every input, a client is completed exactly by the application of an index that this leader registered, an entry is handed out exactly when an id is issued for it, and once no write is open nothing committed waits without being handed out |
| `RaftDelivery.CompletedIsOwn` | src/figure2_spec.cpp:563-605 | in every run, a node that completes a client's index was given that command as leader of the same term in the same life, and the entry whose application completes it is that command's own |
| `RaftDelivery.IdleIsBusy` | src/raft_election.cpp:1548-1567 | in every run, a node without an open write is applying its next committed entry or has applied them all |
| `RaftRestart.RestartIff` | src/raft_election.cpp:887-1047 | in every run, the constructor accepts a node's disk if and only if its log reaches its applied index |
| `RaftLedgerSteps.CastVoteKeepsInv` | src/figure2_spec.cpp:330-365 | a vote for a candidate at least as fresh keeps every ledger invariant, so voters pass on what may be chosen |
| `RaftLedgerSteps.FreshLogHolds` | src/figure2_spec.cpp:739-747 | a log at least as up to date as one holding a prefix that may still be chosen holds that prefix too |
| `RaftLedgerSteps.ElectKeepsInv` | src/figure2_spec.cpp:250-268 | a winner's log contains everything that may still be chosen in an earlier term |
| `RaftLedgerSteps.WriteKeepsInv` | src/figure2_spec.cpp:438-476 | replacing a log by the merge with the current leader's prefix loses nothing acknowledged that may still be chosen |
| `RaftLedgerSteps.RaiseCommitKeepsInv` | src/figure2_spec.cpp:502-524 | a commit index covered by a choice of its own or an earlier term stays covered |
| `RaftLedgerSteps.DecidedAgree` | src/figure2_spec.cpp:502-524 | two logs decided up to an index have the same entry there |
| `RaftHandlers.VoteRequestOk` | src/figure2_spec.cpp:330-365 | answering a RequestVote fits the ledger: a grant waits for a durable vote that the ledger allows; when it grants is `Figure2Meaning.VoteRequestMeans` |
| `RaftElection.StartElectionOk` | src/figure2_spec.cpp:270-296 | standing fits the ledger: no request leaves before the self-vote is durable |
| `RaftElection.VoteResponseOk` | src/figure2_spec.cpp:367-381 | counted votes are durable votes, and winning is a legal election of the term |
| `RaftReplication.AcceptMerges` | src/figure2_spec.cpp:438-476 | the conflict scan and splice leave exactly the merge of the old log with the leader's prefix |
| `RaftReplication.AppendRequestOk` | src/figure2_spec.cpp:383-500 | accepting, refusing or rejecting an append fits the ledger, and the bounded commit reaches only decided entries |
| `RaftReplication.CommittableIsChosen` | src/figure2_spec.cpp:502-524 | a majority counted at an index of the leader's own term means a majority durably holds it |
| `RaftReplication.AppendResponseOk` | src/figure2_spec.cpp:526-561 | recording progress, retrying and raising the commit index fit the ledger; what they record is `Figure2Meaning.SuccessMeans` and `RefusalMeans` |
| `RaftReplication.ClientOk` | src/figure2_spec.cpp:586-605 | appending a command extends the term's log and its sends wait for the log write |
| `RaftGating.Settle` | src/raft_election.cpp:1317-1396 | whatever a handler produced, Core releases messages only when nothing is unwritten and holds the rest behind the right write |
| `RaftDisk.HardWriteOkForCore` | src/raft_hard_state_store.cpp:502-519 | a pending hard-state write is a legal promise, candidacy or vote, and keeps the node's invariant |
| `RaftDisk.LogWriteOkForCore` | src/raft_election.cpp:1132-1147 | a pending log write keeps the node's invariant and loses nothing acknowledged |
| `RaftDisk.RebornOk` | src/raft_election.cpp:887-1047 | if construction accepts the disk, the restarted node satisfies the invariant |
| `RaftNodeSteps.CoreStepOk` | src/raft_election.cpp:1057-1298 | every accepted input keeps the node's invariant, sends only backed messages and applies only the next entry |
| `Figure2Proofs.PostCheckFiresIff` | src/figure2_spec.cpp:749-809 | the check after a step fires exactly on an accepted append whose entries exceed its term, and every completed step leaves a state for which this holds again |
| `Figure2Proofs.StepRises` | src/figure2_spec.cpp:749-809 | term, commit index and applied index never fall in a step, snapshots included |
| `Figure2Proofs.GatingIsLossless` | src/figure2_spec.cpp:188-210 | for every event the effects of the step and of its completions, concatenated, are the handler's effects, and the final state is the handler's |
| `Figure2Proofs.CutsAfterWrites` | src/figure2_spec.cpp:188-210 | each cut falls right after the hard-state write that is waited for |
| `Figure2Proofs.LastIndexIsLastEntry` | src/figure2_spec.cpp:121-127 | base plus length is the index of the last entry, or the snapshot's |
| `Figure2Meaning.VoteRequestMeans` | src/figure2_spec.cpp:330-365 | a RequestVote from a peer is answered once, last, with true if and only if its term is the term after it is seen, the vote held in that term is absent or this candidate's, and its last entry is at least the node's own; a new term and a new vote are written first |
| `Figure2Meaning.VoteResponseMeans` | src/figure2_spec.cpp:367-381 | a granted vote of the candidate's own term is counted, more than half of the members make it the leader of every peer's progress, and any other answer changes nothing or is a later term |
| `Figure2Meaning.AppendRequestMeans` | src/figure2_spec.cpp:383-500 | an append is accepted if and only if the entry before it is held and nothing committed contradicts it; the log is then cut before the first entry not held, and the commit index follows the leader's as far as the request reaches |
| `Figure2Meaning.SuccessMeans` | src/figure2_spec.cpp:526-551 | a success of the leader's term within its log raises the sender's match index to the greater of the two, changes no other progress, and moves the commit index to the greatest entry of the term above it that more than half of the members hold, or leaves it |
| `Figure2Meaning.RefusalMeans` | src/figure2_spec.cpp:552-561 | a refusal steps the sender's next index back by one, not to or below its match index, and repeats the request from there with the refusal's context |
| `Figure2Meaning.OtherResponsesMean` | src/figure2_spec.cpp:526-551 | answers from strangers and beyond the log are errors, a later term is observed, and what is not for this leader's term is ignored |
| `Figure2Meaning.ElectionMeans` | src/figure2_spec.cpp:270-296 | a follower or candidate stands in the next term with its own vote written first and asks every peer in order, with its last entry; a leader and a learner do nothing |
| `Figure2Meaning.HeartbeatMeans` | src/figure2_spec.cpp:212-248 | a leader offers every peer, in order, everything from its next index with the entry before it; nothing else changes |
| `Figure2Meaning.ClientMeans` | src/figure2_spec.cpp:586-605 | a leader appends the command after its last entry in its own term, registers the client, writes before it offers, and commits the greatest index it may |
| `Figure2Meaning.ApplyMeans` | src/figure2_spec.cpp:563-584 | the entry after the last applied is applied if it is committed, and its client completed if it is registered |
| `Figure2Meaning.CompletionMeans` | src/figure2_spec.cpp:749-809 | while a hard-state write is open only its own completion is accepted, and it frees what waited; otherwise no completion is |
| `Figure2Loops.SpliceEntries` | src/figure2_spec.cpp:438-476 | the scan loop refuses exactly a conflict at or below the commit index and otherwise keeps the matching prefix and appends the rest |
| `Figure2Loops.AdvanceLeaderCommit` | src/figure2_spec.cpp:502-524 | the downward search finds the greatest index of the current term held by a majority, if it is above the commit index |
| `Figure2Loops.CountHolders` | src/figure2_spec.cpp:512-518 | the counting loop gives the number of holders including the leader |
| `Figure2Loops.GateOnHardState` | src/figure2_spec.cpp:188-210 | the search for the first hard-state write cuts the effects right after it |
| `Figure2Loops.Validate` | src/figure2_spec.cpp:640-737 | the accumulated violations are none exactly for valid states |
| `Figure2Loops.CheckContiguous` | src/figure2_spec.cpp:431-436 | the loop accepts exactly entries whose indexes follow the previous one without a gap |
| `RaftCoreObject.CoreObject.Step` | src/raft_election.cpp:1057-1298 | the object's fields and effects after any input are those of the function the theorems speak about |
| `RaftCoreObject.CoreObject.CompleteReadyReads` | src/raft_election.cpp:1515-1532 | erasing while walking answers exactly the confirmed and applied reads, in order |
| `RaftCoreObject.CoreObject.AcknowledgeRead` | src/raft_election.cpp:1493-1513 | counting one acknowledgement changes only the read with its context and confirms it at a majority |
| `RaftCoreObject.CoreObject.Translate` | src/raft_election.cpp:1317-1396 | role changes, ids, log gating and scheduling happen as in the model |
| `RaftCoreObject.CoreObject.BeginRead` | src/raft_election.cpp:1398-1460 | a read is refused for the reasons listed or opened with a new context at the commit index |
| `RaftCoreObject.CoreObject.FinishApplication` | src/raft_election.cpp:1081-1102 | a completed application advances by one, completes its client and schedules the next |
| `Compaction.CompactionIsInvisible` | src/raft_election.cpp:1899-1934 | for elections, vote requests and appends at or above the snapshot, compacting before or after gives the same effects, failures and state |
| `Compaction.BelowMarkIsRefused` | src/figure2_spec.cpp:412-429 | a current append below the snapshot is refused without change |
| `Compaction.InstallIsValidIff` | src/raft_election.cpp:1899-1934 | installing a snapshot leaves a valid state if and only if it agrees with the log at its index or is not below the commit index |
| `Compaction.InstalledReads` | src/raft_election.cpp:1899-1934 | after an agreeing snapshot every later index reads as before and every candidate is judged as before; after a disagreeing one the log ends with the snapshot; no index goes back |
| `Compaction.InstallsCompose` | src/raft_election.cpp:1899-1934 | two snapshots in a row leave what the later one alone leaves, if and only if the log does not agree with the later, reach past it and disagree with the earlier |
| `RaftCoreOrder.CoreStepInOrder` | src/raft_election.cpp:1057-1298 | for every Core state, with or without a snapshot, and every accepted input: the committed entries stay, the pending application is the entry after the last applied and committed, and only its completion moves the applied index, by one |
| `RaftSnapshots.SnapStepKeeps` | src/raft_election.cpp:1637-1990 | with snapshots taken, installed, restored and transferred, every step, thrown or not, keeps that order; the applied index moves by a completed application or jumps to a restored snapshot, and committed entries still held never change |
| `RaftSnapshots.AppliedInOrder` | src/raft_election.cpp:1548-1567 | in every life of a Core with snapshots entries are handed out in index order, an index again only while it is not applied and with the same entry, and none at or below an earlier snapshot |
| `RaftSnapshots.HandedIsNext` | src/raft_election.cpp:1548-1567 | an entry handed out is the log entry right after the last applied, at or below the commit index and above the snapshot |
| `RaftSnapshots.RecoverInOrder` | src/raft_election.cpp:965-1047 | a Core that the constructor accepts, with or without a recovered snapshot, satisfies the invariant |
| `RaftSnapshotSafety.TakenSnapshotsAgree` | src/raft_election.cpp:1637-1729 | in every run of the cluster that follows the disk rule, a snapshot of any node's applied state at any moment agrees with what any node has committed at any moment, so it may be installed there |
| `RaftSnapshotSafety.CreatedMarkIs` | src/raft_election.cpp:1697-1716 | the mark that a local snapshot writes is the index and term of the last applied entry |
| `RaftSnapshotMeaning.CreateMeans` | src/raft_election.cpp:1637-1729 | a local snapshot is refused for the first reason that applies; otherwise it ends with the last applied entry as the node holds it and carries the given state and members |
| `RaftSnapshotMeaning.AcceptMeans` | src/raft_election.cpp:1731-1897 | a leader's snapshot is stored if and only if it is one whole piece with the right checksum and members, newer than the durable one and above what is applied; the sender is told success only after that |
| `RaftSnapshotMeaning.ReplaceMeans` | src/raft_election.cpp:1593-1635 | effect by effect, a request to a peer behind the snapshot becomes a transfer of the whole snapshot to it under a new id, and every other effect stays |
| `RaftSnapshotMeaning.ReplyMeans` | src/raft_election.cpp:1992-2041 | only a success of the open transfer counts, and it counts as an acknowledgement of the snapshot's index |
| `RaftSnapshotMeaning.PersistedMeans` | src/raft_election.cpp:1936-1969 | only the open snapshot write is completed; a local snapshot then replaces the log's prefix and is announced, one from a leader is first given to the state machine |
| `RaftSnapshotMeaning.RestoredMeans` | src/raft_election.cpp:1971-1990 | once the state machine holds it, a leader's snapshot replaces the log's prefix, and only then is the leader told |
| `RaftSnapshotMeaning.StartsAgain` | src/raft_election.cpp:887-1047 | from the term, vote, log and snapshot that a node has made durable, whether or not the covered entries have been removed, the constructor rebuilds its state with what it had applied |
| `HardStateStore.EveryWriteIsAccepted` | src/raft_hard_state_store.cpp:502-519 | in every run the store accepts every write a node asks for |
| `HardStateStore.AcceptedIff` | src/raft_hard_state_store.cpp:502-519 | a value is accepted exactly when the term does not fall, a vote of the same term is neither replaced nor cleared, and a vote is for a node in a term above zero |
| `HardStateStore.DiskAdvances` | src/raft_hard_state_store.cpp:502-519 | over every run, through crashes and restarts, the term on a node's disk never falls and a vote recorded in a term never changes in it |
| `HardStateStore.DecodesWhatWasEncoded` | src/raft_hard_state_store.cpp:424-500 | a stored record reads back as what was stored |
| `HardStateStore.EncodesWhatWasDecoded` | src/raft_hard_state_store.cpp:455-500 | decoding accepts only the canonical record: encoding the result gives the same bytes |
| `HardStateStore.DecodeAcceptsIff` | src/raft_hard_state_store.cpp:424-500 | decoding accepts exactly the encodings of storable values, each for one value only, and no accepted record is the beginning of another |
| `HardStateStore.Store.Persist` | src/raft_hard_state_store.cpp:559-611 | with a crash at any write boundary the disk holds the old value or the new one, and the new one once the caller was told; its term never falls, and its vote in a term is never replaced or cleared |
| `LinearSearch.Context.Search` | src/linearizability.cpp:319-379 | the answer is right whatever was remembered; calls and remembered states are bounded by C(n) = 1 + 2n C(n-1), C(0) = 0, for n remaining operations; and the answer is withheld only when a budget is below that and also below two calls at each operation, and one remembered state, for each different place the search may come to |
| `LinearSearch.SomeStepWorks` | src/linearizability.cpp:339-372 | if some legal order exists, some candidate can be omitted or applied, because precedence passes through omitted operations |
| `LinearHistory.SearchDecidesHistory` | src/linearizability.cpp:386-456 | a legal order of the search's operations exists exactly when the history is linearizable |
| `LinearHistory.CheckInternal` | src/linearizability.cpp:386-456 | the verdict is right about the history, validity included, and inconclusive only for a history with too many operations or budgets below the cost of a full search, counted by ways to go on and by different places |
| `LinearObject.PerformMeans` | src/linearizability.cpp:192-300 | each operation leaves the wanted value at its key and every other key alone; a swap succeeds if and only if the key's optional value is the expected one; the revision rises by one, and is the one stored, exactly when a value is stored or removed; the answer tells what was found |
| `LinearObject.MeantIsUnique` | src/linearizability.cpp:192-300 | that leaves no choice of state or answer |
| `LinearObject.AppliesIff` | src/linearizability.cpp:212-300 | an operation applies with an expected result exactly when that result and state are the ones meant |
| `LinearObject.SequentialIff` | src/linearizability.cpp:386-456 | a history whose operations all succeed one after the other is linearizable if and only if the object, started empty, gives its clients' results in that order |
| `LinearStore.PutCorresponds` | src/linearizability.cpp:227-241 | the checked object's put is the store's, seen without versions and leases |
| `LinearStore.EraseCorresponds` | src/linearizability.cpp:242-263 | the checked object's erase is the store's |
| `LinearStore.GetCorresponds` | src/linearizability.cpp:219-226 | the checked object's get is the store's |
| `LinearHistory.Check` | src/linearizability.cpp:494-536 | a counterexample is part of the history, is itself not linearizable, and every single removal leaves nothing, a linearizable history or one beyond the budgets |
| `LinearHistory.Validate` | src/linearizability.cpp:127-190 | the checking loops accept exactly the well-formed histories |
| `LinearHistory.PrecedenceIsStrict` | src/linearizability.cpp:433-447 | interval precedence of a well-formed history is a strict order |
| `LinearKey.TextDeterminesState` | src/linearizability.cpp:302-317 | equal memo texts come from equal remaining sets, revisions and values |
| `StoreRuns.NeverCorrupt` | src/in_memory_metadata_store.cpp:1120-1144 | in every run a key carries a lease exactly when it is in the lease's attached set, and no command meets disagreeing indexes |
| `StoreProofs.RunKeeps` | src/in_memory_metadata_store.cpp:205-704 | every command keeps the store invariant, and the revision rises by one exactly when a batch is published |
| `StoreProofs.TransactionRefines` | src/in_memory_metadata_store.cpp:354-566 | the planned effect equals the executed one, and the final values are those of all writes of the branch at once |
| `StoreProofs.WrittenAtOnceIsUnique` | src/in_memory_metadata_store.cpp:449-543 | the order-free specification of a transaction's writes has one result |
| `StoreProofs.PlanGoodIff` | src/in_memory_metadata_store.cpp:354-447 | a branch is accepted exactly when every operation is well formed and no two conflict, in any order |
| `StoreProofs.PermutedTransaction` | src/in_memory_metadata_store.cpp:449-566 | permuting the operations of an accepted branch leaves it accepted, with the same keys and leases |
| `StoreProofs.CleanupExact` | src/in_memory_metadata_store.cpp:1053-1114 | removing leases deletes exactly the keys that carry them, at one new revision |
| `StoreRuns.FencedForever` | src/in_memory_metadata_store.cpp:334-352 | once a lease generation is dead, no later transaction that carries it succeeds and no keepalive revives it |
| `StoreRuns.RevokedIsDead` | src/in_memory_metadata_store.cpp:663-688 | a revoked generation is dead |
| `StoreRuns.ExpiredIsDead` | src/in_memory_metadata_store.cpp:690-704 | expiry removes every lease whose deadline was reached, and its generation is dead |
| `StoreRuns.TickReachesDeadline` | src/in_memory_metadata_store.cpp:334-352 | a generation whose deadline the applied tick has reached is dead, removed or not |
| `StoreRuns.DeadStays` | src/in_memory_metadata_store.cpp:573-651 | no command revives a dead generation, even when its id is granted again |
| `StoreRuns.RestoreUndoesTake` | src/in_memory_metadata_store.cpp:706-723 | under the same limits the restoring constructor accepts every reachable snapshot and rebuilds the same data |
| `StoreRuns.RestoredAnswersAlike` | src/in_memory_metadata_store.cpp:97-173 | a restored store answers every later sequence of commands like the original |
| `StoreRuns.Restore` | src/in_memory_metadata_store.cpp:97-173 | the restoring loops accept exactly the consistent snapshots and build both maps |
| `StoreRuns.AcceptableIff` | src/in_memory_metadata_store.cpp:97-173 | a snapshot is accepted if and only if it lists nothing twice and its data satisfies the invariant of a running store |
| `StoreWatch.WatchExactness` | src/in_memory_metadata_store.cpp:938-993 | in every run a live watch has handed out and holds, in order and once each, exactly the matching mutations from its start revision; an overflowed one has handed out a prefix |
| `StoreWatch.WatchSeesExactly` | src/in_memory_metadata_store.cpp:938-993 | in every run a live watch has handed out or holds an event at a revision if and only if it was published at that revision, not before the watch's first, and matches its range and filter |
| `StoreWatch.HistoryExactness` | src/in_memory_metadata_store.cpp:979-985 | in every run the history holds exactly the latest revisions, as many as it may, and the compacted revision is the one before them |
| `StoreWatch.EndsOnlyWhenFull` | src/in_memory_metadata_store.cpp:938-993 | a live watch ends exactly when a response is due while its queue is full, and goes only when it is cancelled; an ended one goes when its last response is polled |
| `StoreWatch.PollIsComplete` | src/in_memory_metadata_store.cpp:821-840 | in every run a poll hands out the next due response, and has none only when everything due has been handed out |
| `StoreWatch.CreateIff` | src/in_memory_metadata_store.cpp:730-819 | in every run a watch is created if and only if its id is free, it watches a key or a range in order, there is room, everything from its first revision on is still in the history, and what is due fits its queue |
| `StoreWatch.ProgressIsAnswered` | src/in_memory_metadata_store.cpp:842-863 | a request for progress is answered after what is pending, without events, at the current revision |
| `StoreWatch.ReplayIsComplete` | src/in_memory_metadata_store.cpp:765-815 | replaying the retained history gives everything from an uncompacted start revision |
| `StoreEvents.EventsAreDifferences` | src/in_memory_metadata_store.cpp:449-566 | the events of every command are exactly one truthful event for each key whose value differs before and after it; without events no value changes |
| `StoreEvents.LogRebuildsStore` | src/in_memory_metadata_store.cpp:938-993 | in every run, the batches up to any revision the store has had, replayed from nothing, give its values at that revision |
| `StoreEvents.WatchRebuildsRange` | src/in_memory_metadata_store.cpp:765-840 | in every run, what a live unfiltered watch has handed out and holds, replayed on the watched keys as they were before its first revision, gives the watched keys as they are |
| `StoreObject.MetadataStore.Transaction` | src/in_memory_metadata_store.cpp:278-571 | both passes on copies leave the data, the reply and the published batch of the model, with the meaning of `StoreTransaction.TransactionIsMeant`; a refusal changes nothing |
| `StoreTransaction.TransactionIsMeant` | src/in_memory_metadata_store.cpp:278-566 | succeeded if and only if every comparison holds of the key's own version, creation, modification, lease or bytes, 0 or empty when it is absent, and every ownership is live; the branch is refused by its first operation that cannot stand; otherwise it leaves what was put without what was deleted, and each response holds what its operation stored, removed or found |
| `StoreTransaction.ComparisonsMean` | src/in_memory_metadata_store.cpp:283-332 | comparisons are rejected exactly for an empty key or a wrong operand, and hold together exactly when each holds |
| `StoreObject.MetadataStore.CompareAndSet` | src/in_memory_metadata_store.cpp:248-276 | stored as a put would if and only if the expected modification revision is the key's, 0 when absent; otherwise nothing changes and the caller is shown what is there |
| `StoreMeaning.CompareAndSetIsMeant` | src/in_memory_metadata_store.cpp:248-276 | the compare-and-set of the model means that to a caller in every valid state |
| `StoreObject.MetadataStore.PublishBatch` | src/in_memory_metadata_store.cpp:938-993 | staging, delivery and trimming give the feed of the model |
| `StoreObject.MetadataStore.CreateWatch` | src/in_memory_metadata_store.cpp:730-819 | the replay loop fills the queue with what the history calls for or gives up when it is full |
| `StoreObject.MetadataStore.PollWatch` | src/in_memory_metadata_store.cpp:821-840 | a poll hands out the terminal or the oldest pending response |
| `StoreObject.MetadataStore.ExpireLeases` | src/in_memory_metadata_store.cpp:690-704 | the walk over the leases finds exactly the expired ones, and the walk over their keys removes them at once; live leases and keys without a removed lease stay as they are |
| `StoreMeaning.ExpireIsMeant` | src/in_memory_metadata_store.cpp:690-704 | exactly the due leases go and the live ones stay; exactly the keys that carried one go with it, in key order at one revision |
| `StoreMeaning.ReadsAreMeant` | src/in_memory_metadata_store.cpp:175-185 | reading a key or a lease shows what is there, with the time that remains, and changes nothing |
| `StoreObject.MetadataStore.Put` | src/in_memory_metadata_store.cpp:884-936 | refused exactly for an empty key or an exhausted counter, without change; otherwise the key gets the next version at the next revision, every other key stays, no lease holds the key any more, and one batch is published |
| `StoreMeaning.PutIsMeant` | src/in_memory_metadata_store.cpp:884-936 | the put of the model means that to a caller in every valid state, so the attachment error cannot occur |
| `StoreObject.MetadataStore.Erase` | src/in_memory_metadata_store.cpp:213-246 | an absent key changes nothing; a present one is gone from the values and from every lease at the next revision, and nothing else changes |
| `StoreMeaning.EraseIsMeant` | src/in_memory_metadata_store.cpp:213-246 | the erase of the model means that to a caller in every valid state |
| `StoreObject.MetadataStore.GrantLease` | src/in_memory_metadata_store.cpp:573-622 | a granted id is not live, its token is above every live token, an id chosen by the store is above every live id, and nothing else changes; refusals come in the code's order |
| `StoreMeaning.GrantIsMeant` | src/in_memory_metadata_store.cpp:573-622 | the grant of the model means that to a caller in every valid state |
| `StoreObject.MetadataStore.KeepAlive` | src/in_memory_metadata_store.cpp:624-651 | only the holder of the token of a live lease gets a new deadline, one time-to-live from the tick; in every other case only the clock moves |
| `StoreMeaning.KeepAliveIsMeant` | src/in_memory_metadata_store.cpp:624-651 | the keepalive of the model means that to a caller in every valid state |
| `StoreObject.MetadataStore.RevokeLease` | src/in_memory_metadata_store.cpp:663-688 | with the right token exactly the keys that carry the lease are deleted, at one revision and in key order, and the lease is gone; without it only the clock moves |
| `StoreMeaning.RevokeIsMeant` | src/in_memory_metadata_store.cpp:663-688 | the revocation of the model means that to a caller in every valid state |
| `Wal.CrashRecovery` | src/durable_storage.cpp:1070-1223 | after a crash that cuts the last segment at or beyond its synced length, recovery returns a prefix of the appended entries with every synced one |
| `Wal.TruncationSurvivesCrash` | src/durable_storage.cpp:883-919 | after any number of truncation's removals and any such cut, recovery returns a contiguous run that misses no synced entry above the target |
| `Wal.AppendedLaid` | src/durable_storage.cpp:959-983 | appending in place or rotating keeps the segments contiguous and adds exactly the entry |
| `Wal.AppendedWhere` | src/durable_storage.cpp:959-983 | a record goes into the last segment if and only if its bytes leave it within the limit, and otherwise starts the next one |
| `Wal.TruncationExact` | src/durable_storage.cpp:883-919 | truncation removes a segment, apart from the final one, if and only if all its entries are at or below the target |
| `WalCanonical.RecoveredIsCanonical` | src/durable_storage.cpp:1070-1223 | whatever bytes the files hold, a recovered log consists of canonical headers and records of contiguous segments, and nothing is cut off but one torn record at the end of the last file |
| `WalCanonical.ParsedIsRecord` | src/durable_storage.cpp:1122-1205 | a record that parses is byte for byte the encoding of its entry |
| `WalFormat.ScanOfPrefix` | src/durable_storage.cpp:1120-1205 | scanning a prefix of a segment's records gives exactly the entries whose whole records are in it |
| `WalFormat.ParsesWhole` | src/durable_storage.cpp:592-608 | a whole record parses to its entry, whatever follows it |
| `WalFormat.ParsesTorn` | src/durable_storage.cpp:1122-1166 | a record cut short anywhere is recognised as torn, not as corruption |
| `WalObject.WriteAheadLog.Append` | src/durable_storage.cpp:842-876 | an append adds its entries, and all of them are acknowledged when it synchronizes; it is accepted exactly for a healthy log and entries that follow it within the limits, as long as segment numbers last |
| `WalObject.WriteAheadLog.CrashAndRecover` | src/durable_storage.cpp:1070-1223 | after a crash the log holds a prefix of what was appended with everything acknowledged |
| `WalObject.ScanBytes` | src/durable_storage.cpp:1119-1213 | the offset loop computes the scan of the segment |
| `WalObject.RecoverFiles` | src/durable_storage.cpp:1070-1223 | the loop over the segment files computes the recovery |
| `ByteCodec.AppendLe` | src/durable_storage.cpp:63-71 | the shifting loop appends the little-endian bytes of the value |
| `ByteCodec.ReadLe` | src/durable_storage.cpp:73-88 | the reading loop gives the value of the bytes, and fails exactly past the end |
| `ByteCodec.ReadsBack` | src/durable_storage.cpp:63-88 | reading undoes writing for every value that fits |
| `SnapshotReaders.ReadersStayProtected` | src/kura_client.cpp:392-427 | in every run the current pointer's record and the record of every registered reader's snapshot exist |
| `SnapshotMeaning.PublishMeans` | src/kura_client.cpp:593-659 | the pointer is replaced and its snapshot recorded in one revision if and only if the caller knows the current pointer's revision and is the writer holding the live lease; a stale caller changes nothing |
| `SnapshotMeaning.AcquireMeans` | src/kura_client.cpp:539-591 | the writer's key is claimed if and only if nobody holds it and the claimant owns its lease; a second writer changes nothing |
| `SnapshotMeaning.RegisterMeans` | src/kura_client.cpp:661-714 | a reader is registered under its lease if and only if the snapshot's record is the pointer it means to read |
| `SnapshotMeaning.CollectMeans` | src/kura_client.cpp:392-427 | a snapshot's record is deleted, and nothing else, if and only if it is there, is not current and has no reader |
| `SnapshotReaders.DecodesPointer` | src/kura_client.cpp:75-150 | a stored pointer reads back |
| `SnapshotMeaning.PointerIsCanonical` | src/kura_client.cpp:75-150 | a record that decodes is the encoding of its pointer and of no other |
| `SnapshotReaders.ExactRangeHoldsOne` | src/kura_client.cpp:160-164 | the range from a key to the key with a zero byte appended holds that key alone |
| `SnapshotReaders.ReadersRangeExact` | src/kura_client.cpp:789-805 | the reader range holds exactly the keys with the reader prefix |
| `KeyOrder.PrefixRangeExact` | src/key_range.cpp:11-25 | a key has the prefix if and only if it is in the range from the prefix to its end |
| `KeyOrder.PrefixRangeEnd` | src/key_range.cpp:11-25 | the backward loop computes the end of a prefix |

## Left out

- Timers, randomised timeouts and timer ids: a timeout is an input that may come at any time.
- The rule trace, the catalogue texts, counters of answered and rejected reads, observer callbacks.
- InstallSnapshot in the cluster model: nodes there have uncompacted logs. `Compaction` treats snapshots over one node's specification and `RaftSnapshots` over all runs of one Core, under the hypothesis that a snapshot at or below the commit index agrees with the log; `RaftSnapshotSafety` proves the hypothesis of every snapshot that the nodes of an uncompacted cluster take.
- A Core whose id counter is exhausted in the middle of an input: the model refuses the whole input, the code throws with some fields already changed. The one other exception that leaves a change behind, an InstallSnapshot of a higher term during a hard-state write, is modelled with it: the snapshot is processed when the write completes.
- 64-bit wrap-around where the code itself checks for exhaustion first: the checks are modelled, the wrapped values cannot occur.
- The message codecs of src/raft_election.cpp and the textual replay format of the linearizability checker.
- Remaining operations of the checker are sets of indices instead of bits of a 64-bit word; lease ids in cleanup answers are sets.
- `truncate_through` is modelled on segments and files as values, not as a method of the log object.
- File-system calls, directory sync and rename: a file is bytes with a synced length, replacement is atomic.
- The checksum is any function of the bytes; nothing is claimed about which corruptions it detects.
- Threads, mutexes, keepalive guards and waiting in the client; identifier character checks (the model allows more identifiers than the client does).
- The store's constructor from initial values and its range read outside transactions.
- Liveness.
- The total of explored states over a minimisation; only the count of each search is modelled.
- RaftReads.AnsweredReadIsLinearizable: holds only without an early acknowledgement from a peer that has passed the term, because the code breaks it otherwise (`RaftWitnesses.StaleRead`); for more than three nodes the converse is proved for early acknowledgements from a majority, not for a mixture of early and late ones, and for a leader that has applied what it has committed.
