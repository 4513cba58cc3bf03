# Verification of `es`

A Dafny model of the hard core of `es`, a partitioned event log, with proofs about it. `dafny verify dfyconfig.toml` checks everything.

**Raft** (`Raft*.dfy`). A node is the class `RaftState`, field by field and handler by handler; each method is proved equal to a function on values (`RaftNode`). A cluster (`RaftCluster`) is a map of nodes with their disks and a set of messages ever sent: any message may be delivered at any time, again, or never; a node may stop between events, between any two operations of one event or inside an append, and restart from its disk. One crash is not part of runs, because safety can fail after it: a stop after a received snapshot is saved and before the message's term, and where it is needed the trimming of the log, are durable. `RaftProtocol` is the protocol without compaction, with its inductive invariant; `RaftSim` ties a compacted node to a full history, and `RaftCommit` to `RaftNext` show that every step of the cluster is followed by the protocol. `RaftSafety`, `RaftApply`, `RaftSettled`, `RaftCatchUp`, `RaftElect`, `RaftLeads` and `RaftGiven` state what holds in every run: the safety properties of Figure 3 of Ongaro and Ousterhout, "In Search of an Understandable Consensus Algorithm", with snapshots (its section 7), the order of application, that nothing a majority holds stays uncommitted, the end of catching up with the commit index and the application included, when elections are won, whom hints name and where snapshots come from; `RaftSaved` says exactly when a crash after saving a received snapshot is harmless. `RaftStore` is the store on files against the store in memory, `RaftFiles` that store under every run, `RaftDriver` the order of persisting and sending. `RaftWitness` gives a run with a leader, a committed entry and its delivery at both nodes.

**The segmented log** (`Storage*.dfy`, `Compaction*.dfy`, `Retention.dfy`, `GroupCommit.dfy`). The reference is one sequence of records with increasing offsets. Records, the windowed cursor, the sparse index, segment reads, polls, appends with rolls, recovery from torn files, compaction in two passes, the marked swap of files, retention and group commit are proved against it. Group commit and the file swap are protocols with crashes or other threads between any two of their steps, so they are state machines over those steps.

**Replicated partitions** (`Replica*.dfy`): the command codec, the apply loop, offset assignment, the chunked transfer, and the partitions of a whole cluster in every run (`ReplicaRuns`, on `RaftOrigin`, which says where the entries of a log come from; `ReplicaWitness` gives a run that stores records).

**Consumer groups and producers** (`Coordinator.dfy`, `Coverage.dfy`, `Marriage.dfy`, `Producers.dfy`, `Dataplane.dfy`, `ProduceRuns.dfy`): the sticky assignor, its generations and what it covers; the idempotence window, the produce path, and the requests of many producers at once.

Some properties fail in the code. For each there is a case where it fails and the exact condition under which it holds:

- A crash after a received snapshot is saved can lose the message's term or bring back entries the snapshot replaced: `RaftSaved.SavedExactly`, against `RaftSaved.LostTermAccepts` and `RaftSaved.StaleSuffixSurvives`.
- A poll can pass over records for good when a record is longer than its read window: `StorageReach.PollSeenSplits` and `StorageReach.PollingReaches`, against `StorageReach.LongRecordSkipped`.
- A snapshot transfer can lose such records and still report the end: `ReplicaTransfer.ChunkExact` and `ReplicaTransfer.TransferExact`, against `ReplicaTransfer.LongRecordLost`.
- Recovery can cut off whole records longer than its window: `StorageRecovery.RecoveryKeepsAll`, against `StorageRecovery.LongRecordCutOff`.
- A poll that reads the watermark, and then sees a segment opened past it, can send the consumer past records: `StorageFollow.PollLeavesOutNothing`, against `StorageFollow.OldWatermarkSkips`.
- Under an age and a size limit retention can delete more than it takes: `Retention.NeedlessExactly`, against `Retention.NeedlessVictim`.
- Mixed subscriptions can leave a partition without owner: `Coverage.CoveredExactly`, against `Coverage.MixedTopicsLeaveOut`.
- A retry is rejected once a sequence has left the 128-entry window, which one long request is enough for: `ProduceRuns.RetryIsIdempotent` and `ProduceRuns.RetryAtOnce`, against `ProduceRuns.FirstRequestRetried`.
- A request that stops after writing some of its partitions is written again when it is retried: `ProduceRuns.StopKeepsExactly`, against `ProduceRuns.StoppedRetryRepeats`.

Where code and comment disagree the code is followed: the comment at `crates/es-broker/src/storage/record.rs:8` says the length field excludes the checksum, the encoder counts it in.

Clocks, the application's snapshot data and transfer progress, and partitions of topics are parameters. Checksums are an arbitrary function. Integers are unbounded; the widths of the file formats are stated as predicates (`Storable`, `Encodable`, `Small`).

## Model

| member | source | states |
|---|---|---|
| `RaftSafety.OneLeaderPerTerm` | crates/es-broker/src/raft/state.rs:454-524 | Election safety: any two nodes that lead in one term, at any two moments of any run with lost, repeated and reordered messages, crashes inside events, restarts and snapshots, are the same node. |
| `RaftSafety.LogsMatch` | crates/es-broker/src/raft/state.rs:541-572 | Log matching across compaction: two logs of a run, of any nodes at any moments, that give the same term to an index agree on every entry up to it that both still hold, also when the index is only the boundary of a compacted prefix. |
| `RaftSafety.CommittedEntriesAgree` | crates/es-broker/src/raft/state.rs:573-606 | What two nodes have committed, at any two moments, agrees up to the smaller commit index. |
| `RaftSafety.StateMachinesAgree` | crates/es-broker/src/raft/state.rs:387-405 | State machine safety: entries handed to the application at one index are equal, across nodes, terms, restarts and moments. |
| `RaftSafety.LeaderHoldsApplied` | crates/es-broker/src/raft/state.rs:483-524 | Leader completeness for applied entries: every leader of the same or a later term holds each entry ever applied, or covers it with its snapshot boundary. |
| `RaftSafety.LeaderHoldsCommitted` | crates/es-broker/src/raft/state.rs:760-781 | Leader completeness: whatever a node has committed is within, and equal to, the log of every leader of that node's or a later term. |
| `RaftSafety.AppendNeverRefused` | crates/es-broker/src/raft/log.rs:171-216 | Among these nodes the refusal branch of the append (a conflict at or below the commit index) is unreachable: no message in flight that passes the consistency check, including the shortcut for a previous index inside the snapshot, is refused. |
| `RaftSafety.RestartRebuilds` | crates/es-broker/src/raft/state.rs:154-198 | From the disk of any node in any state of any run, a restart succeeds and rebuilds exactly the term, vote and log held in memory, also between saving a snapshot and compacting. |
| `RaftSafety.TornRestartSucceeds` | crates/es-broker/src/raft/node.rs:535-562 | Whatever a crash inside an event leaves (a prefix of its operations, part of an append, or a received snapshot that is safely saved), the node can be restarted from that disk. |
| `RaftSafety.ApplyOrder` | crates/es-broker/src/raft/state.rs:387-405 | In every reachable state: snapshot base <= last applied <= commit index <= last index. |
| `RaftApply.EventHandsOver` | crates/es-broker/src/raft/state.rs:387-405 | In every run an event never lowers the commit index, and hands over exactly the non-empty entries between the old and the new applied index (from a newly installed snapshot's base on), in order, without a skip, each present in the log. |
| `RaftApply.NothingWaits` | crates/es-broker/src/raft/state.rs:297-344 | Between events no node has a committed entry it has not applied. |
| `RaftCatchUp.CatchesUp` | crates/es-broker/src/raft/state.rs:608-644 | Catch-up terminates and spreads the commit: in a stable term, at most a computed number of request/reply rounds with any one peer, with the snapshot sent whole or probed for and sent in chunks, brings its match index to the leader's last index; the peer then holds the leader's log up to it, and has committed and applied all that the leader has committed. |
| `RaftCatchUp.RoundsEnd` | crates/es-broker/src/raft/state.rs:743-758 | The measure behind it: every round with an unfinished follower raises the match index, or lowers the next index, or moves the snapshot cursor on, or installs the snapshot, so the rounds end with the whole log matched. |
| `RaftCatchUp.CommitRound` | crates/es-broker/src/raft/state.rs:586-606 | With the whole log matched, one more round leaves the follower with nothing uncommitted or unapplied that the leader has committed. |
| `RaftSettled.RunSettled` | crates/es-broker/src/raft/state.rs:760-781 | In every run, between events, the commit rule has nothing more to commit at any leader. |
| `RaftSettled.NothingUncommitted` | crates/es-broker/src/raft/state.rs:760-781 | In every run a leader has committed every index that a majority is known to hold and at which its log has an entry of its term. |
| `RaftSettled.AllCommitted` | crates/es-broker/src/raft/state.rs:760-781 | Once a majority is known to hold all of a leader's log, and its last entry is of its term, all of it is committed. |
| `RaftLeads.NoopCommits` | crates/es-broker/src/raft/state.rs:725-741 | A leader that writes an empty entry when elected has committed its whole log, entries of earlier terms included, once a majority is known to hold it. |
| `RaftLeads.HintsLead` | crates/es-broker/src/raft/state.rs:526-541 | In every run the leader a node is told of, and redirects proposals to, is the only node that ever leads that node's term. |
| `RaftLeads.MessageKnows` | crates/es-broker/src/raft/state.rs:526-541 | After a message from the leader of the term, that leader is the node's hint. |
| `RaftElect.ElectionWon` | crates/es-broker/src/raft/state.rs:454-524 | In every run a non-leader whose log is as new as those of enough others for a majority, and whose next term is new to them and not too far ahead, wins the election it starts: each of them grants its vote when asked, and with the answers the node leads that term. |
| `RaftElect.GrantsExactly` | crates/es-broker/src/raft/state.rs:483-510 | A vote is granted if and only if the message is not ignored, the vote in that term is free or the candidate's already, and the candidate's log ends no earlier than ours; it is then remembered. |
| `RaftElect.MajorityLeads` | crates/es-broker/src/raft/state.rs:512-524 | A candidate given a majority of votes, one by one, leads its term. |
| `RaftElect.HolderAsNew` | crates/es-broker/src/raft/state.rs:483-510 | A log that holds everything another holds is as new, so its node is not denied that vote. |
| `RaftElect.SomeNewest` | crates/es-broker/src/raft/state.rs:483-510 | Among any nodes there is one whose log is as new as all of theirs. |
| `RaftGiven.SnapshotsGiven` | crates/es-broker/src/raft/node.rs:564-643 | In every run of a cluster that sends snapshots whole, every snapshot a node has stored, and every one on the way, was taken at some node from its application's request. |
| `RaftGiven.TakenData` | crates/es-broker/src/raft/state.rs:211-231 | Such a snapshot holds the data given in that request, and ends at the index asked for or at what was applied, with the term of that entry. |
| `RaftGiven.TakesExactly` | crates/es-broker/src/raft/state.rs:211-231 | A snapshot is taken if and only if it would cover something past the base, up to what was asked for and applied, and the compacted log still represents the full history. |
| `RaftLeads.TermMoves` | crates/es-broker/src/raft/state.rs:297-344 | A message from a stranger, of a term too far ahead or of the largest term changes nothing; any other leaves the node in the later of the two terms. |
| `RaftLeads.TimerRestarts` | crates/es-broker/src/raft/state.rs:331-341 | The election timer is restarted by a message if and only if it is not ignored and brings a later term, comes from the leader of the term or is granted a vote. |
| `RaftLeads.ProposesAt` | crates/es-broker/src/raft/state.rs:362-385 | A proposal to a leader becomes the last entry of its history, at the index answered and in its term; to any other node it changes nothing and is answered with the hint. |
| `RaftLeads.BeatsAll` | crates/es-broker/src/raft/state.rs:269-278 | A leader's tick sends one message to every peer, another node's none. |
| `RaftLeads.GoesOn` | crates/es-broker/src/raft/state.rs:608-644 | A follower that is behind or does not follow on is sent the next request at once, one that has everything is sent nothing. |
| `RaftLeads.BacksOff` | crates/es-broker/src/raft/state.rs:634-644 | After a refusal the leader goes back to what the follower says it holds, by at least one index, and not past the first. |
| `RaftLeads.TransferGoesOn` | crates/es-broker/src/raft/state.rs:697-723 | Progress of a transfer is remembered and met with the next part; after the last part the cursor is gone and what is still missing is sent at once; other peers' cursors stay. |
| `RaftCatchUp.FollowerAnswers` | crates/es-broker/src/raft/state.rs:526-606 | A follower of the same term accepts entries exactly when they follow on, and reports its last index otherwise. |
| `RaftCatchUp.LeaderNotes` | crates/es-broker/src/raft/state.rs:608-644 | What a reply does to the leader's match and next index for that peer, and that it changes neither log, term nor role. |
| `RaftCatchUp.InstallRound` | crates/es-broker/src/raft/node.rs:564-643 | A round that ships the snapshot, its probe or its next chunk leaves less to do: the cursor follows the follower's progress until the last chunk, which is acknowledged as installed. |
| `RaftProtocol.ElectKeepsInv` | crates/es-broker/src/raft/state.rs:454-481 | An election keeps the protocol invariant: one leader per term, leader completeness, acknowledgements held, ballots covering what may be committed. |
| `RaftProtocol.WriteComplete` | crates/es-broker/src/raft/state.rs:362-385 | A leader's new entry cannot be committed behind the back of a leader of a later term. |
| `RaftNext.RunSim` | crates/es-broker/src/raft/state.rs:297-344 | Every run of the concrete cluster is matched, state by state, by states of the uncompacted protocol that satisfy its invariant and only extend each other. |
| `RaftNext.NextSim` | crates/es-broker/src/raft/state.rs:291-344 | Every step of the cluster (delivery, timeout, tick, proposal, snapshot, crash, crash in the middle of writing, also after a received snapshot is safely saved) is followed by the protocol. |
| `RaftNext.ProcessOk` | crates/es-broker/src/raft/node.rs:399-562 | One whole event at a node, with persistence and sending, keeps the node tied to the protocol, its disk a mirror of it, and sends only messages the protocol justifies. |
| `RaftTorn.TornOk` | crates/es-broker/src/raft/node.rs:535-543 | A crash in the middle of writing an event, where a run allows it, leaves a disk that is faithful to some protocol state. |
| `RaftDurable.ReactMirrors` | crates/es-broker/src/raft/state.rs:200-246 | Persistence mirror: replaying everything an event recorded on the simple store gives the node's new term, vote and entries. |
| `RaftDurable.AppendAtReplays` | crates/es-broker/src/raft/log.rs:171-216 | Truncating the stored log at the first changed index and appending from there gives the log the append produced in memory. |
| `RaftSaved.SavedExactly` | crates/es-broker/src/raft/node.rs:493-502 | If a node stops after saving a received snapshot, with any number of the event's operations on disk, the restart succeeds, and gives the term, vote and log the node had reached if and only if the message's term is on disk and the log is trimmed, keeps its suffix, or ends within the snapshot. |
| `RaftTorn.TornInstall` | crates/es-broker/src/raft/node.rs:493-502 | In those cases the disk is faithful to a protocol state, so such crashes are steps of runs. |
| `RaftWitness.SomeRunApplies` | crates/es-broker/src/raft/state.rs:260-373 | Runs with leaders and deliveries exist: any non-empty payload that is not a membership change is elected for, replicated, committed and applied by both nodes of some run. |
| `RaftSaved.StaleSuffixSurvives` | crates/es-broker/src/raft/state.rs:162-177 | A disk where the log was not trimmed: an entry the snapshot replaced comes back. |
| `RaftSaved.LostTermAccepts` | crates/es-broker/src/raft/node.rs:493-502 | A crash among five members where the term was not on disk: the node restarts in the old term and accepts an old leader's entry past the snapshot, which it refuses otherwise; it and that leader then give one index the same term and an earlier one different terms. |
| `RaftFiles.EveryEventFits` | crates/es-broker/src/raft/log.rs:566-636 | In every run the operations any event records can be written to the log file, whole and in order, as long as its numbers and payloads fit the format. |
| `RaftFiles.TornFileReloads` | crates/es-broker/src/raft/log.rs:368-394 | In every run a log file cut at any byte inside an append reloads as the disk of a crash that the run allows. |
| `RaftOrigin.EventOrigin` | crates/es-broker/src/raft/state.rs:297-373 | Every entry in a node's log after an event stood in a leader's log before it, is empty, or is the proposal of the event. |
| `RaftOrigin.TornOrigin` | crates/es-broker/src/raft/node.rs:535-543 | So is every entry past the base on a disk that a crash inside an event leaves. |
| `RaftLog.MutableLog.Bounded` | crates/es-broker/src/raft/log.rs:106-132 | The entries from an index on that fit the count and byte limits: a contiguous part of the log, never empty when there is an entry to send. |
| `RaftLog.RepresentsSlice` | crates/es-broker/src/raft/log.rs:89-132 | On a compacted log the bounded slice is a part of the full history starting at the requested index, and non-empty if the history reaches it. |
| `RaftLeads.SliceLongest` | crates/es-broker/src/raft/log.rs:106-132 | The bounded slice is the longest run of entries from the index on that is within both limits, or one entry if the first is too large. |
| `RaftLog.RepresentsCompact` | crates/es-broker/src/raft/log.rs:222-235 | Compacting leaves the log a representation of the same full history. |
| `RaftLog.RepresentsCut` | crates/es-broker/src/raft/log.rs:144-159 | Truncating represents the history cut at that index. |
| `RaftLog.MutableLog.Append` | crates/es-broker/src/raft/log.rs:171-216 | Skips what is held, refuses unchanged to cut at or below the commit index, otherwise cuts at the first conflict, appends the rest under consecutive indices and reports the first changed index. |
| `RaftLog.MutableLog.TruncateFrom` | crates/es-broker/src/raft/log.rs:144-159 | Drops the entries from the index on. |
| `RaftLog.MutableLog.CompactThrough` | crates/es-broker/src/raft/log.rs:222-235 | Drops the entries up to the index and moves the base there, if it is past the base. |
| `RaftLog.MutableLog.InstallSnapshot` | crates/es-broker/src/raft/log.rs:243-253 | Keeps the suffix past the snapshot exactly when the log holds the snapshot's last entry, and reports which. |
| `RaftStateMachine.RaftState.PersistHardState` | crates/es-broker/src/raft/state.rs:238-246 | Records the term and vote, superseding earlier pending ones; log operations keep their order. |
| `RaftStateMachine.RaftState.TakePersistOps` | crates/es-broker/src/raft/state.rs:234-236 | Hands out all recorded operations, once. |
| `RaftStateMachine.RaftState.AppendEntry` | crates/es-broker/src/raft/state.rs:375-385 | The leader's own append: the entry takes the next index and is recorded for persistence. |
| `RaftStateMachine.RaftState.StepDownTo` | crates/es-broker/src/raft/state.rs:433-452 | A newer term clears the vote and all leadership state and is recorded. |
| `RaftStateMachine.RaftState.RecomputeCommitIndex` | crates/es-broker/src/raft/state.rs:760-781 | Sorts what the members hold and commits what a quorum holds, only if it is of the current term; `RaftCommit.CommitsExactly` says what that is. |
| `RaftCommit.CommitsExactly` | crates/es-broker/src/raft/state.rs:760-781 | An index past the commit index becomes committed if and only if at some index from there on the leader has an entry of its term that a majority is known to hold. |
| `RaftCommit.RecomputeCommits` | crates/es-broker/src/raft/state.rs:760-781 | The new commit index, if it moved, is acknowledged by a quorum and was written in the leader's own term. |
| `RaftStateMachine.RaftState.DrainApply` | crates/es-broker/src/raft/state.rs:387-405 | Emits the committed, not yet applied entries in order. |
| `RaftApply.DrainApplies` | crates/es-broker/src/raft/state.rs:387-405 | With all of them present, these are exactly the non-empty payloads between the applied and the commit index. |
| `RaftStateMachine.RaftState.Replicate` | crates/es-broker/src/raft/state.rs:280-287 | A snapshot for a peer whose next index is compacted away, entries otherwise. |
| `RaftStateMachine.RaftState.BuildAppendFor` | crates/es-broker/src/raft/state.rs:743-758 | The AppendEntries for a peer: previous index and term, bounded entries, commit index. |
| `RaftStateMachine.RaftState.OnHeartbeatTick` | crates/es-broker/src/raft/state.rs:269-278 | A leader replicates to every peer; others do nothing. |
| `RaftStateMachine.RaftState.OnElectionTimeout` | crates/es-broker/src/raft/state.rs:260-265 | A non-leader campaigns in the next term, voting for itself, and leads at once if alone. |
| `RaftStateMachine.RaftState.Lead` | crates/es-broker/src/raft/state.rs:725-741 | Claims leadership, resets the peers' progress and appends the no-op entry if configured. |
| `RaftStateMachine.RaftState.OnRequestVote` | crates/es-broker/src/raft/state.rs:483-510 | Grants at most one vote per term, only to a log at least as up to date, and records it. |
| `RaftSteps.VoteStep` | crates/es-broker/src/raft/state.rs:483-510 | A granted vote is a protocol vote: at most one candidate per term and a log at least as long. |
| `RaftStateMachine.RaftState.OnRequestVoteResp` | crates/es-broker/src/raft/state.rs:512-524 | Counts a vote of the current term once and leads at a quorum. |
| `RaftStateMachine.RaftState.TakeEntries` | crates/es-broker/src/raft/state.rs:541-606 | The log part of AppendEntries: consistency check with the snapshot shortcut, append, recorded truncation and append, commit index up to what was received; unchanged on rejection. |
| `RaftCatchUp.FollowerCommits` | crates/es-broker/src/raft/state.rs:573-606 | Entries that follow on raise the commit index to what the leader has committed of them, and everything up to there is applied. |
| `RaftStateMachine.RaftState.OnAppendEntries` | crates/es-broker/src/raft/state.rs:526-606 | Rejects an older term, follows the leader, answers with what is held. |
| `RaftStateMachine.RaftState.OnAppendEntriesResp` | crates/es-broker/src/raft/state.rs:608-644 | Advances or backs off the peer's progress, commits, and goes on sending. |
| `RaftStateMachine.RaftState.OnInstallSnapshot` | crates/es-broker/src/raft/state.rs:646-695 | Answers progress for a part; on the last part installs the base and raises commit and applied indices. |
| `RaftStateMachine.RaftState.OnInstallSnapshotResp` | crates/es-broker/src/raft/state.rs:697-723 | Advances the transfer cursor or records the installed index. |
| `RaftStateMachine.RaftState.Receive` | crates/es-broker/src/raft/state.rs:297-344 | Ignores strangers, implausible term jumps and the largest term, adopts newer terms, dispatches, drains what became committed. |
| `RaftStateMachine.RaftState.TryPropose` | crates/es-broker/src/raft/state.rs:362-373 | Only a leader accepts; the index answered is the entry's. |
| `RaftStateMachine.RaftState.Snapshot` | crates/es-broker/src/raft/state.rs:211-231 | Compacts at or below what is applied and returns the snapshot, or changes nothing. |
| `RaftStateMachine.RaftState.RestoreFrom` | crates/es-broker/src/raft/state.rs:154-198 | Rebuilds a node from a disk, or refuses one whose log leaves a gap after the snapshot. |
| `RaftStateMachine.SortIndices` | crates/es-broker/src/raft/state.rs:760-781 | Sorting the match indices, equal to the specification's sort. |
| `RaftDriver.Driver.Start` | crates/es-broker/src/raft/node.rs:248-377 | A node comes up exactly when its store can be restored, in that state. |
| `RaftDriver.Driver.ApplyAndPersist` | crates/es-broker/src/raft/node.rs:535-562 | All recorded operations are durable before any message is sent or entry handed over. |
| `RaftDriver.Driver.OnMessage` | crates/es-broker/src/raft/node.rs:399-503 | A vote request is dropped while a live leader was heard from within the shortest election timeout; any other message has exactly the effect of the cluster's event, a received snapshot being saved before the log operations. |
| `RaftDriver.Driver.OnTimeout` | crates/es-broker/src/raft/node.rs:248-377 | So has an election timeout. |
| `RaftDriver.Driver.OnTick` | crates/es-broker/src/raft/node.rs:248-377 | So has a heartbeat tick. |
| `RaftDriver.Driver.OnPropose` | crates/es-broker/src/raft/node.rs:248-377 | So has a proposal, answered with its outcome. |
| `RaftDriver.Driver.TakeSnapshotNow` | crates/es-broker/src/raft/node.rs:505-532 | So has a snapshot request: saved first, then compacted; nothing is sent. |
| `RaftDriver.Driver.SendSnapshotTo` | crates/es-broker/src/raft/node.rs:564-643 | The snapshot message, probe or next part for a peer; without a snapshot the peer's next index is moved to the log's start. |
| `RaftStore.ReadsBack` | crates/es-broker/src/raft/log.rs:353-394 | An encoded entry, whatever follows it, is read back. |
| `RaftStore.ReadIsEncoded` | crates/es-broker/src/raft/log.rs:368-394 | Only the encoding of an entry is read as that entry. |
| `RaftStore.DecodeTorn` | crates/es-broker/src/raft/log.rs:368-394 | Whole entries followed by a strict prefix of one more reload as the whole entries. |
| `RaftStore.DecodeCut` | crates/es-broker/src/raft/log.rs:368-394 | A log file cut at any byte reloads as the longest run of whole entries before the cut. |
| `RaftStore.TornAppendReloads` | crates/es-broker/src/raft/log.rs:500-564 | A crash in the middle of appending a batch leaves, after reopening, the log and a first part of the batch, without a gap. |
| `RaftStore.Decode` | crates/es-broker/src/raft/log.rs:368-394 | The decoding loop: entries, their file positions and the length of the valid part. |
| `RaftStore.MemStore.Persist` | crates/es-broker/src/raft/log.rs:683-697 | The in-memory store applies the operations in order. |
| `RaftStore.FileStore.Persist` | crates/es-broker/src/raft/log.rs:566-636 | The file-backed store refines the in-memory one for every sequence of operations, keeping file, positions and length consistent. |
| `RaftStore.FileStore.Append` | crates/es-broker/src/raft/log.rs:566-636 | Appending writes the encodings and their positions. |
| `RaftStore.FileStore.Truncate` | crates/es-broker/src/raft/log.rs:566-636 | Truncating cuts the file at the position of the first dropped entry. |
| `RaftStore.FileStore.ReadAfter` | crates/es-broker/src/raft/log.rs:483-496 | Reading from a position back gives exactly the entries past the index. |
| `RaftStore.FileStore.Compact` | crates/es-broker/src/raft/log.rs:566-636 | Compacting rewrites the file with exactly the entries past the index, or leaves it. |
| `RaftStore.FileStore.Load` | crates/es-broker/src/raft/log.rs:500-564 | Reopening gives the decodable entries if they have no gap, fails otherwise, and cuts off what follows them. |
| `StorageRecord.DecodeBack` | crates/es-broker/src/storage/record.rs:50-82 | A storable record, whatever follows it, decodes to itself and its size. |
| `StorageRecord.DecodeTorn` | crates/es-broker/src/storage/record.rs:138-152 | Every strict prefix of a record is recognised as torn (or as end of file when empty). |
| `StorageRecord.DecodedIsEncoded` | crates/es-broker/src/storage/record.rs:138-213 | Whatever decodes is the encoding of the record it decodes to, checksum included: other bytes are not taken for a record. |
| `StorageRecord.WholeFits` | crates/es-broker/src/storage/record.rs:226-229 | The number of whole records before a byte is the largest that fits. |
| `StorageCursor.RecordCursor.NextRecord` | crates/es-broker/src/storage/segment.rs:109-136 | The windowed reader with its single refill gives what decoding the rest of the file gives, except for the case stated next, and moves by the record's size. |
| `StorageCursor.GivesRecord` | crates/es-broker/src/storage/segment.rs:113-133 | A whole record is given out if and only if its body is at most 256 MiB and it fits the window or its length field is already buffered; otherwise the reader fails. |
| `StorageCursor.ReachedExactly` | crates/es-broker/src/storage/segment.rs:109-136 | The reader gives out the first n records of a file if and only if none of them is missed, each against the bytes buffered when the reader comes to it. |
| `StorageCursor.FailsAtTorn` | crates/es-broker/src/storage/segment.rs:109-136 | At a torn record the reader fails and stays. |
| `StorageIndex.FloorSearch` | crates/es-broker/src/storage/index.rs:43-52 | The binary search gives the last entry at or below the target. |
| `StorageIndex.FloorSkips` | crates/es-broker/src/storage/index.rs:43-52 | Starting at the floor entry skips only records below the target. |
| `StorageIndex.FloorNear` | crates/es-broker/src/storage/segment.rs:349-358 | Looking up any record's offset finds an entry fewer than 4096 bytes before the record. |
| `StorageIndex.SparsePush` | crates/es-broker/src/storage/segment.rs:349-358 | Whether a record gets an index entry depends only on the newest entry: indexing is incremental. |
| `StorageIndex.ThinDense` | crates/es-broker/src/storage/recover.rs:337-346 | Thinning an index with one entry per record gives the sparse index of the records. |
| `StorageIndex.ThinSparse` | crates/es-broker/src/storage/recover.rs:337-346 | Thinning a sparse index changes nothing. |
| `StorageIndex.ThinIndex` | crates/es-broker/src/storage/recover.rs:337-346 | The thinning loop. |
| `StorageSegment.ReadFrom` | crates/es-broker/src/storage/segment.rs:219-280 | The read with index, window and limits gives what a plain scan gives of the records the reader gets to before the first it misses. |
| `StorageSegment.ReadLongest` | crates/es-broker/src/storage/segment.rs:219-280 | The plain scan gives the records from the target on, below the watermark, and as many as the two limits allow; a first record is given whatever its size. |
| `StorageReach.ReadSeenIs` | crates/es-broker/src/storage/segment.rs:219-280 | That is a first part of the plain scan, and the plain scan itself if and only if the reader gets to all records the plain scan gives. |
| `StorageReach.ReadSeenExactly` | crates/es-broker/src/storage/segment.rs:219-280 | So a read is the plain scan if and only if none of the records from where the index sends it to the last one the scan gives is missed. |
| `StorageReach.PollSeenIsPlain` | crates/es-broker/src/partition.rs:399-442 | A poll with the windowed reader gives what a plain one gives if and only if, in the segment that answers, the reader gets to all records the plain read gives. |
| `StorageReach.SeenLimited` | crates/es-broker/src/partition.rs:399-442 | A poll gives no more records or bytes than asked for, one record of any size excepted, and all of them below the watermark. |
| `StorageReach.PollSeenSplits` | crates/es-broker/src/partition.rs:399-442 | It always moves forward, and leaves out no record in range if and only if the reader gets to one in the first segment that has one; otherwise it passes over a record. |
| `StorageReach.FindsExactly` | crates/es-broker/src/storage/segment.rs:219-280 | The reader gets to a record in range of a segment if and only if it misses none from its start up to the first of them. |
| `StorageReach.PollingReaches` | crates/es-broker/src/partition.rs:399-442 | Polling on yields each record below the watermark exactly once and in order if and only if no poll is hindered; a record once passed over is never given. |
| `StorageReach.SmallPolling` | crates/es-broker/src/partition.rs:399-442 | No poll is hindered, and polling on gives the whole range, when no record is longer than the read window. |
| `StorageReach.LongRecordSkipped` | crates/es-broker/src/partition.rs:422-434 | A record of 5 MiB at the start of a segment: a poll for 8 MiB gives nothing and sends the consumer past it and the record after it. |
| `StorageScan.PollSplits` | crates/es-broker/src/partition.rs:399-442 | One poll below the watermark moves forward and splits the records in range into what it gives and what remains. |
| `StorageScan.PollingIsScan` | crates/es-broker/src/partition.rs:399-442 | Polling on from the returned offset ends, and yields each record below the watermark exactly once, in offset order, across segments, gaps and compacted segments. |
| `StorageFollow.PollLeavesOutNothing` | crates/es-broker/src/partition.rs:399-442 | A poll leaves out no record before the offset it returns if and only if, with a record below its watermark, the reader gets to one, and with none, no record lies between the watermark it read first and the newest segment it saw. |
| `StorageFollow.OldWatermarkSkips` | crates/es-broker/src/partition.rs:404-431 | A concrete case where it does not: a segment is rolled after the watermark is read, and an empty poll returns that segment's base, past a record. |
| `StorageFollow.FollowingMissesNothing` | crates/es-broker/src/partition.rs:399-442 | While the partition grows, rolls, is compacted and loses old segments between smooth polls: what a consumer got is in offset order without repetition and includes every record still held up to where it stands. |
| `StorageFollow.PartitionSettled` | crates/es-broker/src/partition.rs:306-320 | A partition between operations has no segment past its end, so a poll that reads both together is such a poll. |
| `StorageFollow.AppendEvolves` | crates/es-broker/src/partition.rs:189-261 | An append adds records only past the end. |
| `StorageFollow.CompactEvolves` | crates/es-broker/src/compaction.rs:138-276 | What compaction leaves of a partition is such a change between polls: records are taken away, none is added. |
| `StorageFollow.DropEvolves` | crates/es-broker/src/partition.rs:515-567 | So is what retention leaves. |
| `StoragePartition.Partition.AppendBatch` | crates/es-broker/src/partition.rs:189-261 | Contents grow by exactly the new records, in order: every record at or past the end and past those before it is stored under its offset with its key, its value and its timestamp or the clock's; one without an offset gets the first free one, so a batch without offsets gets consecutive ones from the end; known offsets are answered and not written; nothing else is added. Segments are started exactly when the next record would not fit, and exceed the limit only by a single record. |
| `StoragePartition.AssignDelivers` | crates/es-broker/src/partition.rs:202-243 | The assignment of offsets against that field-by-field statement. |
| `StoragePartition.PackedAdd` | crates/es-broker/src/partition.rs:215-219 | Adding one record, to the active segment or after a roll, keeps segments within the limit and full. |
| `StoragePartition.Partition.Add` | crates/es-broker/src/partition.rs:208-243 | One record of a batch: rolls first when the segment would overflow, and loses or reorders nothing. |
| `StoragePartition.Partition.Commit` | crates/es-broker/src/partition.rs:264-303 | Writing the batch appends exactly its records to contents and log. |
| `StoragePartition.Partition.Roll` | crates/es-broker/src/partition.rs:306-320 | A new segment opens at the offset; contents are unchanged. |
| `StoragePartition.Partition.ReadRecords` | crates/es-broker/src/partition.rs:399-442 | The read over segments is the poll with the windowed reader, for every partition, target and limit. |
| `StoragePartition.Partition.AdvanceTo` | crates/es-broker/src/partition.rs:374-377 | Moves only the end, and only forward. |
| `StorageRecovery.ScanFull` | crates/es-broker/src/storage/recover.rs:348-411 | A scan rebuilds the index and next offset of exactly the whole records it gets to before a torn tail or the first record missed. |
| `StorageRecovery.ScanCut` | crates/es-broker/src/storage/recover.rs:348-411 | A log cut at any byte recovers exactly the whole records before the cut that the scan gets to; the valid part is their encoding. |
| `StorageRecovery.ScanTrusted` | crates/es-broker/src/storage/recover.rs:267-335 | Given an index of the records, the trusted path agrees with a scan that gets to everything, and gives up if and only if there is no index or the reader misses the first record in the smallest window or one after the last entry. |
| `StorageRecovery.RecoverSealed` | crates/es-broker/src/storage/recover.rs:51-160 | A sealed segment recovers to everything if its index is trusted, and to what the full scan gets to otherwise. |
| `StorageRecovery.RecoverPartition` | crates/es-broker/src/storage/recover.rs:51-160 | A directory whose active log was cut at any byte opens as a chain holding, of each segment, what recovery gets to. |
| `StorageRecovery.OpenPartition` | crates/es-broker/src/storage/recover.rs:51-160 | The partition opened on it is valid and ready to append past every record recovered. |
| `StorageRecovery.RecoveryKeepsAll` | crates/es-broker/src/storage/recover.rs:51-160 | Every sealed record and every whole record of the active segment is kept if and only if none is missed, record by record, of the active segment and of each sealed one whose index is not trusted. |
| `StorageRecovery.SmallRecordsKept` | crates/es-broker/src/storage/recover.rs:51-160 | It does when no record is longer than the recovery window. |
| `StorageRecovery.LongRecordCutOff` | crates/es-broker/src/storage/recover.rs:348-411 | A whole record of 300 KiB, alone in the active segment, is cut off by recovery. |
| `StorageRecovery.DenseIsIndex` | crates/es-broker/src/storage/recover.rs:267-335 | An index with one entry per record passes as an index of the records. |
| `StorageRecovery.SparseIsIndex` | crates/es-broker/src/storage/recover.rs:267-335 | So does the sparse one. |
| `Compaction.KeepsView` | crates/es-broker/src/compaction.rs:155-196 | Keeping the newest record of each key, and dropping expired tombstones, keeps the key-to-latest-value view. |
| `Compaction.CompactionKeepsView` | crates/es-broker/src/compaction.rs:138-276 | The view of the whole partition, active segment included, is unchanged. |
| `Compaction.KeepsKeyless` | crates/es-broker/src/compaction.rs:279-337 | Every record without a key survives, in order. |
| `Compaction.KeepsAgain` | crates/es-broker/src/compaction.rs:155-196 | A second pass at the same cutoff drops nothing. |
| `Compaction.SurvivorsAreNewest` | crates/es-broker/src/compaction.rs:279-337 | Filtering by the map of pass one keeps exactly the newest record of every key. |
| `Compaction.KeptExactly` | crates/es-broker/src/compaction.rs:155-196 | A sealed record survives if and only if it has no key, or is the last of its key and is not a tombstone with a timestamp before the cutoff. |
| `Compaction.CountsAgree` | crates/es-broker/src/compaction.rs:155-196 | The number pass one announces is the number pass two keeps. |
| `Compaction.ReadSegment` | crates/es-broker/src/compaction.rs:113-131 | Every record of a sealed segment is visited, or the read fails, which it does if and only if a record is missed. |
| `Compaction.PassOne` | crates/es-broker/src/compaction.rs:155-196 | Pass one fails if and only if a record is missed; otherwise its map and counts are those of all sealed records, and `Compaction.LatestIs` says what the map knows. |
| `Compaction.LatestIs` | crates/es-broker/src/compaction.rs:155-196 | The map holds, for every key, the offset of its last record and whether that is an expired tombstone. |
| `Compaction.WriteSurvivors` | crates/es-broker/src/compaction.rs:279-337 | Pass two fails in the same case; otherwise it writes exactly the survivors, with the sparse index of what it wrote. |
| `Compaction.CompactSealed` | crates/es-broker/src/compaction.rs:138-276 | The replacement segment holds exactly the kept records; nothing is replaced when nothing would be dropped or a record is missed; the report's counts are right. |
| `Compaction.CompactPartition` | crates/es-broker/src/compaction.rs:138-276 | Each record of the partition is still there if and only if it is not in a sealed segment, or a sealed one cannot be read, or it has no key, or it is the last sealed one of its key and no tombstone from before the cutoff; order, view and keyless records unchanged, end and start unchanged, the partition again a correct chain. |
| `CompactionSwap.CrashAtomic` | crates/es-broker/src/compaction.rs:214-269 | Whatever part of the temporary files is written, whichever of the renames and removals before the directory is synced are durable, and however often recovery is stopped with any of its own done: the next complete recovery finds exactly the files before the compaction if the marker was not durable, exactly those after it otherwise, and nothing temporary. |
| `CompactionSwap.FinishEnds` | crates/es-broker/src/storage/recover.rs:167-202 | Finishing any marked directory gives exactly the compacted files. |
| `CompactionSwap.SweepAll` | crates/es-broker/src/storage/recover.rs:204-219 | Sweeping removes every temporary file and nothing else. |
| `CompactionFiles.CrashKeepsRecords` | crates/es-broker/src/compaction.rs:214-269 | In records: wherever the swap and any number of recoveries stop, with any of their directory operations durable, the directory the next complete recovery finds holds the sealed records as they were, or exactly the kept ones in their place, and the same active segment. |
| `CompactionFiles.OpenAfterCrash` | crates/es-broker/src/storage/recover.rs:51-160 | The partition opened on that directory holds what recovery gets to of the old or of the compacted records. |
| `CompactionFiles.IndexRoundTrip` | crates/es-broker/src/storage/index.rs:69-99 | An index file reads back as the entries written to it. |
| `Retention.PlanVictims` | crates/es-broker/src/retention.rs:158-214 | The victims are the sealed segments that are too old and, under a size limit, the shortest run of oldest ones without which the rest fits. |
| `Retention.MarkBySize` | crates/es-broker/src/retention.rs:158-214 | The size loop: it adds that run to the segments that are too old, whatever is too old further on. |
| `Retention.NeedlessExactly` | crates/es-broker/src/retention.rs:190-208 | More is deleted than it takes if and only if what is left from the last segment on that is marked for its size alone, without those that are too old, is within the limit. |
| `Retention.AllAged` | crates/es-broker/src/retention.rs:190-208 | When all that are marked are too old, nothing is deleted needlessly. |
| `Retention.NeedlessVictim` | crates/es-broker/src/retention.rs:190-208 | A segment is deleted although the one that is too old would have been enough. |
| `Retention.LimitEnforced` | crates/es-broker/src/retention.rs:158-214 | Without the planned victims the segments are within the limit or down to the active one. |
| `Retention.DropSegments` | crates/es-broker/src/partition.rs:515-567 | Leaves exactly the segments, and their records, that are no victims, and always the active one; the start never moves back, the end stays. |
| `Retention.Reap` | crates/es-broker/src/retention.rs:103-214 | Planning and dropping together: the victims are those of the plan, exactly the other segments stay, and the partition is within its size limit or down to its active segment. A sealed segment goes if and only if its newest record is older than the cutoff or it is among the fewest oldest that the size limit takes. |
| `GroupCommit.StepKeepsInv` | crates/es-broker/src/partition.rs:264-353 | Every step of writers, rolls and flushers keeps: every write numbered up to the synced mark is durable, also across segments. |
| `GroupCommit.ReturnedIsDurable` | crates/es-broker/src/partition.rs:246-260 | In every interleaving an append that has returned has all its writes, in whatever segment, on disk. |
| `GroupCommit.SyncedIsDurable` | crates/es-broker/src/partition.rs:328-363 | Every write numbered up to the synced mark is durable and stays so. |
| `GroupCommit.WaiterReturns` | crates/es-broker/src/partition.rs:328-363 | At every moment of every run whoever waits for its writes is at most three steps from returning: the fsync in progress, if any, and its own; no other thread has to move. |
| `GroupCommit.FsyncIsShared` | crates/es-broker/src/partition.rs:319-354 | One fsync of the active file serves every writer that was waiting when it began. |
| `ReplicaCodec.BatchRoundTrip` | crates/es-broker/src/raft_partition.rs:67-171 | A replica decodes exactly the batch the leader proposed, and the span read without decoding gives its offsets. |
| `Replica.ApplyAgain` | crates/es-broker/src/raft_partition.rs:601-659 | Applying an entry again changes nothing. |
| `Replica.ReplayAgrees` | crates/es-broker/src/raft_partition.rs:601-659 | However often a replica goes back and applies entries again, after the whole log it holds exactly the log's content, the same on every replica. |
| `Replica.ClockIrrelevant` | crates/es-broker/src/raft_partition.rs:601-659 | The local clock plays no part in what is stored. |
| `Replica.NextAssignable` | crates/es-broker/src/raft_partition.rs:451-467 | The next offset is past the newest data entry of the log and past the partition's end. |
| `Replica.ProposalRises` | crates/es-broker/src/raft_partition.rs:451-467 | An entry proposed there keeps the log's offset ranges rising, also after entries a former leader left uncommitted. |
| `Replica.ReportsLeaders` | crates/es-broker/src/raft_partition.rs:601-659 | The offsets reported are the leader's, whether the records were new or known. |
| `Replica.RecordsAt` | crates/es-broker/src/raft_partition.rs:601-659 | Record by record, an entry is stored with the timestamp, key and value it carries, under consecutive offsets from its base. |
| `ReplicaRuns.OffsetsRise` | crates/es-broker/src/raft_partition.rs:447-467 | In every run whose leaders propose at the next assignable offset, the data entries of every node's log, committed or not, have rising offsets. |
| `ReplicaRuns.ReplicasAgree` | crates/es-broker/src/raft_partition.rs:601-659 | In every run, with lagging apply loops, entries applied again, received snapshots and restarts with an older partition: of any two replicas at any two moments one holds the first records of the other, and with the same end they hold the same. |
| `ReplicaRuns.AppliedIsHeld` | crates/es-broker/src/raft_partition.rs:601-659 | A replica holds every record of every entry handed to any node up to the last it has applied. |
| `ReplicaRuns.DeliveredRise` | crates/es-broker/src/raft_partition.rs:447-467 | No two entries handed over in a run give out the same offset. |
| `ReplicaRuns.NextTied` | crates/es-broker/src/raft_partition.rs:601-680 | Every step keeps: offsets rise in every leader's log, no entry is compacted away before the node's partition holds it, and each partition is the state after a committed log. |
| `ReplicaWitness.SomeReplicaHolds` | crates/es-broker/src/raft_partition.rs:476-536 | Such runs store records: any batch from offset 0 is proposed, committed and stored in one. |
| `Replica.ApplyLoop.ApplyEntry` | crates/es-broker/src/raft_partition.rs:601-659 | Applies an entry, answers its own proposer with its offsets and proposers whose index passed that they were superseded, and nobody else. |
| `ReplicaTransfer.ReadChunk` | crates/es-broker/src/raft_partition.rs:249-278 | A chunk is what the leader's polls give from the follower's position up to where it reaches; it is the last exactly when that is the snapshot's end. |
| `ReplicaTransfer.ChunkExact` | crates/es-broker/src/raft_partition.rs:249-278 | It holds exactly the leader's records up to where it ends if and only if no poll for it was hindered. |
| `ReplicaTransfer.TransferExact` | crates/es-broker/src/raft_partition.rs:249-305 | A whole transfer carries exactly the leader's records between the follower's end and the snapshot's if and only if no poll of it was hindered. |
| `ReplicaTransfer.SmallTransfer` | crates/es-broker/src/raft_partition.rs:249-305 | None is when no record is longer than 16 KiB. |
| `ReplicaTransfer.LongRecordLost` | crates/es-broker/src/raft_partition.rs:266-278 | A leader with one record of 2 MiB: the first chunk is the last and empty, and the follower's end moves past the record. |
| `ReplicaTransfer.ApplyChunk` | crates/es-broker/src/raft_partition.rs:280-305 | The follower stores what of the chunk is past its end and skips the rest; the last chunk also moves its end to the snapshot's. |
| `ReplicaTransfer.Transfer` | crates/es-broker/src/raft_partition.rs:249-305 | The transfer terminates at the snapshot's end and appends exactly what its chunks carried. |
| `ReplicaTransfer.TransferAgrees` | crates/es-broker/src/raft_partition.rs:249-305 | A follower that held the leader's records up to where it ended then holds them up to the snapshot's end. |
| `Coordinator.PassOne` | crates/es-broker/src/coord.rs:355-437 | Each member keeps of its previous partitions what it still may have, up to the cap. |
| `Coordinator.LeastLoaded` | crates/es-broker/src/coord.rs:355-437 | The subscriber with the fewest partitions, if one is below the cap. |
| `Coordinator.PassTwo` | crates/es-broker/src/coord.rs:355-437 | Every unowned partition is given out, or all its subscribers are at the cap; nobody loses one. |
| `Coordinator.FairShare` | crates/es-broker/src/coord.rs:355-437 | The cap is the least number of partitions that, given to every member, covers all of them. |
| `Coordinator.Recompute` | crates/es-broker/src/coord.rs:355-437 | The new assignment is disjoint, subscribed-only, within ceil(partitions/members), leaves a partition out only if every subscriber is at the cap, and takes a still valid partition away only from a member that keeps as many as the cap allows. |
| `Coverage.CoveredExactly` | crates/es-broker/src/coord.rs:355-437 | A partition is owned in every such assignment if and only if some of its subscribers have, between them, room under the cap for every partition they subscribe to. |
| `Coverage.RoomCovers` | crates/es-broker/src/coord.rs:355-437 | With room, no assignment leaves it out. |
| `Coverage.NoRoomLeavesOut` | crates/es-broker/src/coord.rs:355-437 | Without, one does (by the marriage theorem). |
| `Coverage.LeftOutStays` | crates/es-broker/src/coord.rs:355-437 | And a rebalance with the same members and partitions leaves it out again. |
| `Coverage.CrowdedLeavesOut` | crates/es-broker/src/coord.rs:422-422 | When a set of partitions outnumbers what all its subscribers together may own, every assignment leaves one of them out. |
| `Coverage.SameTopicsCovered` | crates/es-broker/src/coord.rs:355-437 | With equal subscriptions every partition is owned. |
| `Coverage.MixedTopicsLeaveOut` | crates/es-broker/src/coord.rs:422-422 | Three partitions of one topic for one of two members: every assignment leaves one out. |
| `Coordinator.GroupState.Join` | crates/es-broker/src/coord.rs:85-173 | Refused exactly in the stated cases, changing nothing; otherwise the member is in, heard of now, with these topics and the owner it had or the caller, every other member is as it was, and a new generation starts exactly when it is new or its topics changed. |
| `Coordinator.GroupState.Heartbeat` | crates/es-broker/src/coord.rs:177-210 | The answer by membership, owner and generation; an accepted heartbeat is noted as the time the member was last heard of, and nothing else of it or of the others changes; assignment and generation untouched. |
| `Coordinator.GroupState.Leave` | crates/es-broker/src/coord.rs:212-232 | Removes the member and nobody else, and rebalances under a new generation, or is denied unchanged. |
| `Coordinator.GroupState.ExpireStale` | crates/es-broker/src/coord.rs:265-288 | Removes exactly the members not heard from in time, rebalancing if there are any. |
| `Coordinator.AlwaysBalanced` | crates/es-broker/src/coord.rs:85-288 | At every moment of every run of joins, leaves, heartbeats and expiries the assignment is balanced for the partitions the broker had at the last rebalance. |
| `Coordinator.GenerationNamesOne` | crates/es-broker/src/coord.rs:144-166 | One generation never names two assignments. |
| `Coordinator.MemberExactly` | crates/es-broker/src/coord.rs:190-288 | In every run, a member last heard of at some time is in the group if and only if it has not left since and no expiry came more than the timeout after that time. |
| `Coordinator.NeverHeard` | crates/es-broker/src/coord.rs:120-172 | Nobody is in the group without a join that was accepted. |
| `Coordinator.OwnerStays` | crates/es-broker/src/coord.rs:144-166 | A member belongs to the key that joined it for as long as it is in the group. |
| `Producers.CheckIs` | crates/es-broker/src/producers.rs:81-107 | Against what the producer really wrote: the next sequence is accepted, any of the last 128 answered with its offset, later ones are gaps, earlier ones too low. |
| `Producers.NoteRemembers` | crates/es-broker/src/producers.rs:109-123 | Noting an accepted record keeps the window exact. |
| `Producers.ProducerState.CheckSequence` | crates/es-broker/src/producers.rs:81-107 | The check against the slot's window, searching the recent entries. |
| `Producers.ProducerState.Record` | crates/es-broker/src/producers.rs:109-123 | Notes the record in the slot's window, bounded to 128 entries. |
| `Dataplane.DecideFollows` | crates/es-broker/src/dataplane.rs:156-197 | The records a request has accepted for a partition follow on without a gap, from the window or from each other. |
| `Dataplane.AcceptedExactly` | crates/es-broker/src/dataplane.rs:156-197 | A request is accepted if and only if, for every partition, its records are first some known ones and then a run without gaps from the first that may be written. |
| `Dataplane.NumberedExactly` | crates/es-broker/src/dataplane.rs:116-136 | With a producer id a request is taken up if and only if every record has a sequence that is not negative, and no sequence or partition is changed. |
| `Dataplane.RequestKeepsInv` | crates/es-broker/src/dataplane.rs:146-240 | A request keeps every producer's window equal to the end of what it wrote. |
| `ProduceRuns.WrittenAtMostOnce` | crates/es-broker/src/dataplane.rs:146-240 | In every run, with the partitions of requests written in any order and other producers in between, a producer's sequence is written at most once to a partition. |
| `ProduceRuns.SequencesConsecutive` | crates/es-broker/src/dataplane.rs:146-240 | In every run a producer's sequences on a partition are consecutive in offset order. |
| `ProduceRuns.RetryAnswered` | crates/es-broker/src/dataplane.rs:163-175 | In every run a sequence that was written is recognised with its offset while it is among the last 128 of its partition, and is too low after that. |
| `ProduceRuns.RetryIsIdempotent` | crates/es-broker/src/dataplane.rs:146-240 | Whatever happened since a request finished, repeating it has nothing to write, and is answered with the offsets of the first time if and only if all its sequences are still in the windows. |
| `ProduceRuns.RetryAtOnce` | crates/es-broker/src/dataplane.rs:156-197 | A finished request of new records that is repeated at once is answered if and only if no partition got more than 128 of them. |
| `ProduceRuns.FirstRequestRetried` | crates/es-broker/src/dataplane.rs:156-197 | So a first request of n records for one partition is accepted, and repeated at once it is rejected exactly when n is more than 128. |
| `ProduceRuns.NextKeeps` | crates/es-broker/src/dataplane.rs:146-262 | Every step of the requests in flight keeps each window, with what is written and not yet noted, equal to the end of what its producer wrote. |
| `ProduceRuns.StopKeepsExactly` | crates/es-broker/src/dataplane.rs:216-225 | A request that stops half-way leaves the windows true if and only if it has not written anything. |
| `ProduceRuns.StoppedRetryRepeats` | crates/es-broker/src/dataplane.rs:216-225 | If it has, the retry writes the same sequences to the partition once more. |
| `ProduceRuns.AloneIsRequest` | crates/es-broker/src/dataplane.rs:146-262 | The steps of one request with nothing in between do what the broker's method does. |
| `Dataplane.DecideAll` | crates/es-broker/src/dataplane.rs:156-197 | Every record is decided before any is written. |
| `Dataplane.GroupNew` | crates/es-broker/src/dataplane.rs:200-213 | New records are grouped by partition, in request order. |
| `Dataplane.Broker.Produce` | crates/es-broker/src/dataplane.rs:75-262 | A request on its own: rejected, it changes nothing; accepted, it writes exactly its new records, notes them, and answers every record with its offset, at which the log then holds it. |

## Left out

- Raft membership change and configuration entries: the peer set is fixed, proposals are data.
- Timers and randomised deadlines: a timeout may happen at any time, so that elections stop colliding in the end is not stated; `RaftElect.ElectionWon` says when one is won. A vote request dropped because a leader was just heard from is a lost message.
- Term overflow at the largest 64-bit number: terms are natural numbers.
- A crash after a received snapshot is saved, while its term or the trimming it needs is not durable, is not a step of a run; `RaftSaved.SavedExactly` says exactly when it gives the node another state than it had reached, and `RaftSaved.LostTermAccepts` that log matching can then fail.
- The hard-state and snapshot files of the Raft store, their legacy formats and the hygiene of temporary files; a write to them is one durable step.
- Failing writes and fsyncs, poisoned partitions and write rollback in the partition: input and output succeed.
- Assigning offsets and proposing the entry are one step: the log does not change in between.
- A follower does not restart during a chunked transfer: chunks are not checked against its position.
- Timeouts of proposers waiting for their entry.
- Smallest and largest timestamps of segments in scans and batches; retention takes the newest timestamp of each segment as given.
- The check that sealed segments are unchanged before the compaction swap, and readers holding replaced segments.
- The order in which a map lists members and partitions: left open in the assignor; the final sort of each member's list.
- Producer admission, ownership, journal, rotation, expiry and revocation; sequences at the end of the 64-bit range.
- Wire and Raft message codecs, transports, HTTP, authentication, schema registry, group offset store, tiered storage, metrics, configuration and clients: plumbing, or easy members.
- RaftSafety.LogsMatch: in runs without that crash, because it can fail after it.
- RaftSafety.LeaderHoldsCommitted: in the same runs, for the same reason.
- ReplicaRuns.ReplicasAgree: in the same runs, and with peers that never change; a partition that comes back from a crash ends at an entry, and a received snapshot brings the records whole, which `ReplicaTransfer.TransferExact` gives the condition for.
- ReplicaRuns.OffsetsRise: the same.
- RaftStateMachine.RaftState.DrainApply: without the branch for configuration entries, because the peer set is fixed.
- RaftStore.FileStore.Load: the log file only; the hard-state file and the migration of the legacy format are not modelled.
- RaftCatchUp.CatchesUp: every request and reply is delivered, every chunk is applied, and the term is not the largest one, which nodes ignore.
- RaftElect.ElectionWon: the requests and the votes are delivered before the voters move on.
- RaftGiven.SnapshotsGiven: for clusters that send snapshots whole; with a transfer the data comes from the partition, which `ReplicaTransfer` is about.
- ProduceRuns.WrittenAtMostOnce: runs in which a request stops only before it has written anything, because `ProduceRuns.StoppedRetryRepeats` shows that it fails otherwise.
- ProduceRuns.SequencesConsecutive: the same runs.
- ProduceRuns.RetryAnswered: the same runs, and a producer with no request in flight, since a retry waits for the producer's lock.
- ProduceRuns.RetryIsIdempotent: the same.
- Dataplane.Broker.Produce: one request with nothing in between, and appends that succeed; `ProduceRuns` has requests of many producers interleaved by partition, and requests that stop.
- Replica.ApplyLoop.ApplyEntry: without legacy single-record entries, which take a local timestamp.
- Coordinator.GroupState.Join: without group ownership, the checks of names and the limit on groups, which refuse before anything is done.
- GroupCommit.ReturnedIsDurable: for `flush_every_records` = 1, where every acknowledgement promises durability; other thresholds promise less.
- StoragePartition.Partition.AppendBatch: for records the format can hold (body below 4 GiB, key below 2 GiB); longer ones would wrap their length field.
- StoragePartition.Partition.Add: the same.
- StorageRecovery.RecoverPartition: for torn writes, not arbitrary corruption; an index file is its entries, or missing.
- Compaction.CompactPartition: with no append or roll while it runs.
- StorageFollow.FollowingMissesNothing: for smooth polls, which see no segment opened past their watermark and get to the next record; `StorageFollow.PollLeavesOutNothing` is the exact condition for one poll.
- Coordinator.AlwaysBalanced: for the partitions that existed at the last rebalance; topics changed since are seen at the next one.
