# Raft-lite key-value store: a model and its proofs

This project models the consensus core of the replicated key-value store: leader election,
log replication, compaction behind snapshot files, crash recovery, follower reads, and the
backup service that produces the snapshots. The design follows the Raft paper (Ongaro and
Ousterhout, extended version, sections 5.2 to 5.4 and 7); follower reads follow section 6.4
of Ongaro's dissertation.

There are three levels.

- `RaftModel` and `RaftSafety` hold the protocol over full, uncompacted logs, and its inductive
  invariant.
- `NodeSpec` holds one node as the code has it: a window over the log with an offset and a
  placeholder anchor, and what is on disk, with every handler as a function. `Cluster` puts nodes
  on a network that loses, repeats and reorders packets, lets clients write and give up, compacts
  at any time, lets nodes adopt snapshots, and crashes nodes at any point, also between the records
  of a merge, after a new term is persisted, and inside a compaction or a catch-up. `Window`,
  `Refinement`, `NodeSim`, `LeaderSim`, `Simulation` and `Events` prove that each event is a sequence
  of protocol steps. `Safety`, `Leadership`, `Heard`, `Offsets`, `Applying`, `Tickets`, `Pending`, `Answers`,
  `Progress`, `Outcomes`, `ReadIndex` and `LogRepair` state what then holds of every run: what never goes
  wrong, and what must come about once certain messages have been handled. `Runs` builds runs event by
  event; `Electable` uses it to continue any run to an election, and `StaleRead`, `RepairLoop`,
  `Adoptions` and `Uncommitted` for the runs that go wrong.
- `RaftNode`, `LogFile`, `SnapshotDir` and `Backup` hold the objects and loops of the program, each
  method proved against its handler function; `Expansion`, `Compactions`, `CatchUp` and `Recovery` state
  what compaction, snapshots and crashes do to one node.

Hypotheses, each explicit in the model.

- A handler runs under the node's lock and is one step. Sending and handling a reply are separate
  steps. A reply travels with the request it answers.
- A completed rename is durable, an I/O call succeeds or the node crashes, and a write to state.json
  is atomic.
- Peers are distinct, ids and addresses correspond one to one, and integers are unbounded (except
  the length prefix of a record, and the wrap-around when a log without a snapshot starts at index 0).
- A snapshot file handed to a node is a replayed prefix of the committed log with that entry's term
  (`Cluster.FileFits`); `compactLocked` does not compare the terms itself. `Adoptions.EveryFileFits`
  establishes this for the backup service, if what it streams is committed. The code streams up to
  lastLogIndex, not commitIndex, so a file fits exactly if the last entry streamed is committed
  (`Uncommitted.CycleFitsIff`), and there is a run in which it is not (`Uncommitted.UncommittedAdopted`).
- A node, in whatever role, adopts a snapshot only if its log does not reach beyond the file, the file's
  index is at least 2, and some node that has committed that far has no later term
  (`Cluster.MayCatchUp`). The code compares the catalog's index with lastApplied and nothing else. Each
  further condition is needed. A node whose log reaches further can drop an entry that is committed
  because it acknowledged it, and lead without it (`Adoptions.AdoptedThenLeads`). A file of index 1 lets
  the placeholder out (`CatchUp.PlaceholderGetsOut`). A node of an older term than every node that has
  committed that far, say one that was down meanwhile, can have the adopted entry replaced by a request
  of a deposed leader (`Adoptions.AdoptedThenCut`); `CatchUp.AnchorAfter` says exactly which requests do
  that.
- The gob codec gives back the entries that are written, and a record's payload is shorter than 2^32
  bytes (`LogFile.Fits`); a longer one does not read back (`LogFile.RecordReadsIff`). The JSON and
  protobuf codecs give back what they were given. An empty payload decodes as a PUT of the empty key,
  so a placeholder would do that if it were ever applied. A payload that does not decode is skipped by
  a node and stops a backup cycle.

Where the code does less than its comments say, the condition it needs is stated.

- `firstIndexOfTermLocked` is right only for the last term of the log (`LogRepair.TailScanRight`).
  Because of that log repair can go on for ever (`RepairLoop.RepairNeverEnds`), from a state that a
  cluster can get into (`RepairLoop.StuckReachable`).
- `Latest` also accepts a temporary name, so a crash while the snapshot is being written makes the
  next start fail (`SnapshotDir.StartsUnlessTorn`).
- A read index is sure to be fresh only from a leader with no uncommitted entry of an older term
  (`ReadIndex.ReadIndexFresh`); without that it can be stale (`StaleRead.UnsettledLeaderStale`), since a
  new leader appends no entry of its own.
- A leader of two nodes or more commits all that a majority is known to hold (`Progress.LeaderCommitsAll`).
  A node on its own never commits anything, because commitIndex moves only when a reply is handled
  (`Progress.AloneNeverCommits`).
- The backup service takes what it streams for committed; a node that adopts a file of uncommitted
  entries has applied what was never chosen (`Uncommitted.UncommittedAdopted`).
- If the snapshot file is missing, the fallback for a log.dat that starts with an anchor brings the log
  back, but not the map (`Recovery.SnapshotLost`).
- An aborted backup cycle is harmless only if the next one reaches as far (`Backup.FeedAgainIff`).
- A snapshot adopted by a node that has meanwhile applied more leaves the map behind
  (`CatchUp.MapCurrentIff`).
- Compaction never leaves a window at index 1, so it never sends its placeholder to a node that would
  take it (`Compactions.AnchorSkipped`). Catch-up to a file of index 1 is the one way to such a window;
  once that node leads, an empty follower takes the placeholder for an entry
  (`CatchUp.PlaceholderGetsOut`). `CatchUp.CaughtUpSound` says what holds for index 1 and what does not.
- A call that gives up is removed by its index, so one that does so late may remove a newer call filed
  there; `Pending.NoCallForgotten` covers the calls at an index where nobody gives up.

## Model

The methods of `RaftNode.Node` without a row have no loop of their own; each leaves the state its
handler function in `NodeSpec` names.

| member | source | states |
|---|---|---|
| `Safety.StateMachineSafety` | b5-kvstore/internal/raft/replication.go:173-194 | In every run each node's committed entries are a prefix of one chosen log, its map is that log replayed up to lastApplied, and anchor <= lastApplied == commitIndex <= lastLogIndex, so the anchor is never applied |
| `Applying.AppliedInOrder` | b5-kvstore/internal/raft/replication.go:173-194 | Between two restarts or catch-ups the entries a node hands to its state machine are exactly the chosen entries from the lastApplied it started with to the one it has now: each once, in order, without gaps |
| `Applying.HandedReplays` | b5-kvstore/internal/raft/replication.go:173-194 | Every event that does not set the map anew changes it by replaying exactly the entries it hands over |
| `Safety.ReplicasAgree` | b5-kvstore/internal/raft/replication.go:173-194 | For any two nodes at any two moments, the one that applied more has the other's map with the chosen entries in between replayed on top; equal lastApplied means equal maps |
| `Safety.LeaderCompleteness` | b5-kvstore/internal/raft/replication.go:441-459 | What any node has committed by some term is in the log of every leader of a later term, whether that leader is observed before or after the commitment, and of every later leader of the same term |
| `Safety.OneLeaderPerTerm` | b5-kvstore/internal/raft/election.go:75-151 | Election Safety over a whole run: two leaders of one term, at any two moments, are the same node, across crashes and stale vote replies |
| `Safety.LogMatching` | b5-kvstore/internal/raft/replication.go:48-68 | Over any two moments, equal terms at one index mean equal entries up to it, as far as the windows still show them |
| `Safety.LogTermsSorted` | b5-kvstore/internal/raft/replication.go:219-228 | In every run terms never decrease along a log and log[i].Index == logOffset+i+1 |
| `Safety.ChosenWasWritten` | b5-kvstore/internal/raft/replication.go:219-228 | Every committed entry was written by a client, at the node that led its term, with that index and command |
| `Safety.HeldWasWritten` | b5-kvstore/internal/raft/replication.go:126-167 | The same for every real entry any node holds, so a placeholder never enters another log |
| `Safety.CommitNeverOvershoots` | b5-kvstore/internal/raft/replication.go:303-349 | Every request ever sent has leaderCommit <= prevLogIndex + number of entries, also when clamped by compaction or overshooting |
| `Safety.MatchIndexTruthful` | b5-kvstore/internal/raft/replication.go:399-415 | matchIndex[p] = m in a term means p, while in that term, held exactly the leader's first m entries |
| `Progress.AcceptIff` | b5-kvstore/internal/raft/replication.go:21-68 | A request is accepted if and only if it is not of an older term and names an entry the follower's full log has, of that term, or one before its window |
| `Progress.LeaderCommitSent` | b5-kvstore/internal/raft/replication.go:303-349 | Commit travels: after accepting the request a leader builds, a follower has committed as far as the leader had, or to the end of its log |
| `Progress.CommitTravels` | b5-kvstore/internal/raft/replication.go:70-92 | In every run a follower that accepts a request, however late, then holds what the leader held when it built it and has applied all the leader had committed |
| `Progress.Recorded` | b5-kvstore/internal/raft/replication.go:399-415 | A success reply moves the peer's matchIndex and nextIndex up to the end of what was sent, never down, and touches no other peer's |
| `Progress.NotSentAgain` | b5-kvstore/internal/raft/replication.go:303-349 | What a peer has acknowledged is not sent to it again |
| `Progress.LeaderCommitsAll` | b5-kvstore/internal/raft/replication.go:441-459 | In every run of two nodes or more a leader has applied each entry of its own term that a majority, itself included, is known to hold |
| `Progress.AloneNeverCommits` | b5-kvstore/internal/raft/replication.go:399-459 | In every run of one node nothing is ever chosen or applied, so the bound of two nodes is needed |
| `Outcomes.AcknowledgedCommits` | b5-kvstore/internal/raft/replication.go:399-459 | A leader that has handled success replies for an entry of its term from peers that are a majority with it has applied the entry, in whatever order they came |
| `Leadership.MatchIndexMonotone` | b5-kvstore/internal/raft/replication.go:399-415 | As long as a node leads a term no peer's matchIndex falls |
| `Leadership.NeverAgain` | b5-kvstore/internal/raft/node.go:491-530 | A node that led or followed in a term never becomes candidate or, if it lost it, leader in that term again |
| `Heard.TermsSpread` | b5-kvstore/internal/raft/node.go:517-530 | In every run a node that handles a message (a reply to AppendEntries only while it leads the term it asked in) is in the message's term or a later one afterwards, and if the term was new it is a follower with that term on disk |
| `Heard.SentTerm` | b5-kvstore/internal/raft/election.go:13-60 | Whatever a node sends, of its own accord or in answer, carries the term it is in by then |
| `Heard.AppendTerm` | b5-kvstore/internal/raft/replication.go:21-45 | A request of an older term is refused with the node's own term and changes nothing; any other leaves a follower that knows the sender as its leader |
| `Heard.SentByLeader` | b5-kvstore/internal/raft/replication.go:303-349 | Every request on the network was built by the node it names, while that node led the term it names |
| `Heard.KnownLeaderLed` | b5-kvstore/internal/raft/replication.go:36-46 | In every run the leader a node knows told it so, with no crash of the node since, and had led a term not beyond the node's own |
| `Electable.MajorityElects` | b5-kvstore/internal/raft/election.go:75-175 | From every reachable state the run can go on so that a given node leads, if the nodes whose logs are no better than its own are, with it, a majority |
| `Electable.SomeoneElectable` | b5-kvstore/internal/raft/election.go:13-175 | So from every reachable state of every cluster, compacted or not, whatever was voted before, some continuation has a leader |
| `Safety.CommittedAnswerSound` | b5-kvstore/internal/raft/replication.go:258-285 | A ProposeSync call answered without error is about its own entry, and that entry is the committed one at its index from then on |
| `Answers.AnsweredWhenApplied` | b5-kvstore/internal/raft/replication.go:173-194 | A call answered without error was answered at a moment when its node had applied the call's entry, and that entry was the committed one |
| `Safety.PendingOnLeader` | b5-kvstore/internal/raft/replication.go:258-285 | Pending calls exist only on a current leader, each for its own entry of the current term, not yet applied |
| `Tickets.AnsweredOnce` | b5-kvstore/internal/raft/node.go:491-505 | Over a run no ProposeSync call is answered twice or told both outcomes |
| `Pending.NoCallForgotten` | b5-kvstore/internal/raft/replication.go:258-285 | Between any two moments of a run a call pending at an index is still pending there or has been answered, unless the node crashed or a call gave up at that index in between |
| `Pending.EventAccounted` | b5-kvstore/internal/raft/node.go:491-505 | No other event drops a pending call or takes an answer back |
| `Pending.PassedAnswered` | b5-kvstore/internal/raft/replication.go:173-194 | Applying answers every pending call whose entry it passes with success and leaves every other one pending |
| `Pending.WriteFiled` | b5-kvstore/internal/raft/replication.go:258-285 | In every run a ProposeSync call at a leader is filed at the index of the entry it appends, which has the caller's command and the leader's term, under a number no call before it had |
| `Pending.WriteSettled` | b5-kvstore/internal/raft/replication.go:258-285 | So at any later moment the call is pending or answered, unless the node crashed or a call gave up at that index |
| `Outcomes.WriteSucceeds` | b5-kvstore/internal/raft/replication.go:258-285 | From call to answer: once peers that with the leader are a majority have acknowledged the entry, and as long as the node leads the term, the call has been answered with success |
| `Outcomes.FailedMeansDeposed` | b5-kvstore/internal/raft/node.go:491-505 | A call is told that leadership is lost only by a node that does not lead the call's term, then and at any later moment |
| `Tickets.EventOnce` | b5-kvstore/internal/raft/replication.go:173-194 | Every event keeps: ticket numbers are used once, no call is both pending and answered, and none is answered twice |
| `ReadIndex.ReadIndexFresh` | b5-kvstore/internal/raft/readindex.go:32-72 | If no uncommitted entry of the leader's log is of an older term at capture and a quorum then acknowledges a round of its term, the captured index covers everything committed anywhere by then |
| `ReadIndex.ConfirmedIndexFresh` | b5-kvstore/internal/raft/readindex.go:32-116 | So when the loop confirms, on results that are acknowledgements after the capture, a settled leader's captured index covers everything committed anywhere by then |
| `ReadIndex.OwnTermCommitSettles` | b5-kvstore/internal/raft/election.go:157-175 | A leader that has committed an entry of its own term meets that condition |
| `StaleRead.UnsettledLeaderStale` | b5-kvstore/internal/raft/election.go:157-175 | For any three nodes a run in which a new leader without it is confirmed by a quorum and hands out an index below a committed entry |
| `ReadIndex.FollowerReadsAllCommitted` | b5-kvstore/internal/raft/readindex.go:129-177 | A follower that waited for the index answers from a replay containing every entry committed before the capture |
| `ReadIndex.AcknowledgedWriteIsRead` | b5-kvstore/internal/raft/readindex.go:129-177 | So every write acknowledged before the capture is read |
| `ReadIndex.LastWriteIsRead` | b5-kvstore/internal/raft/readindex.go:129-177 | And the key it wrote reads as the last committed command about that key left it, which is that write or a later one |
| `ReadIndex.ConfirmQuorum` | b5-kvstore/internal/raft/readindex.go:80-116 | The counting loop with early exit and a deadline confirms exactly when the leader and the peers that acknowledged are a majority of the cluster |
| `LogRepair.EarlyExitIsFullScan` | b5-kvstore/internal/raft/replication.go:108-118 | On a term-sorted log the early-exit scan finds the last entry of a term, and 0 exactly if there is none |
| `LogRepair.TailScanRight` | b5-kvstore/internal/raft/replication.go:97-103 | The scan from the end finds the first index of a term if and only if it is the log's last term; otherwise it returns one past the end |
| `LogRepair.OneRejection` | b5-kvstore/internal/raft/replication.go:417-432 | Handling a rejection sets nextIndex in 1..prev if and only if the follower is too short, or the logs differ at prev and the conflicting term is in the leader's log or the follower's last |
| `LogRepair.RepairProgress` | b5-kvstore/internal/raft/replication.go:417-432 | The same for every rejection in every run between uncompacted nodes, however late its reply is handled |
| `LogRepair.BackAndForth` | b5-kvstore/internal/raft/replication.go:97-118 | Logs for which the condition fails: a rejection at 2 sets nextIndex to 2, and the one at 1 that follows sets it to 3 |
| `RepairLoop.RepairNeverEnds` | b5-kvstore/internal/raft/replication.go:356-433 | A leader and a follower with such logs exchange requests and replies any number of times, whatever clients write in between: the follower's log stays as it was, and nextIndex alternates between 3 and 2 without ever getting below |
| `RepairLoop.StuckReachable` | b5-kvstore/internal/raft/replication.go:303-349 | A run of three nodes, with elections, writes and crashes, that ends in such a state |
| `Expansion.VoteCommutes` | b5-kvstore/internal/raft/election.go:13-60 | A compacted voter answers and changes as the uncompacted one would |
| `Expansion.ElectionCommutes` | b5-kvstore/internal/raft/election.go:75-151 | A compacted candidate asks with the same last index and term |
| `Expansion.VoteReplyCommutes` | b5-kvstore/internal/raft/election.go:100-175 | A compacted candidate counts votes and takes over as the uncompacted one would |
| `Expansion.DecisionSame` | b5-kvstore/internal/raft/replication.go:48-68 | The accept-or-reject decision equals the uncompacted node's if and only if prev is in the window, is 0, or has the named term |
| `Expansion.RejectionSame` | b5-kvstore/internal/raft/replication.go:48-68 | A rejection names the same term, and the same index unless that lies below the window |
| `Expansion.MergeCommutes` | b5-kvstore/internal/raft/replication.go:126-167 | Merging into the window is merging into the uncompacted log |
| `Expansion.ApplyCommutes` | b5-kvstore/internal/raft/replication.go:173-194 | Applying does the same to map and pending calls |
| `Expansion.AppendCommutes` | b5-kvstore/internal/raft/replication.go:21-92 | The whole follower handler commutes with undoing the compaction, for every request whose entries and checked term are those of a log that has the node's committed prefix; empty requests may overshoot that log |
| `Expansion.WriteCommutes` | b5-kvstore/internal/raft/replication.go:219-285 | A client's write gets the same entry and index |
| `Expansion.ReplyCommutes` | b5-kvstore/internal/raft/replication.go:399-459 | An acknowledgement or a later term does the same to a compacted leader, its bookkeeping and its commit index |
| `Expansion.RejectedCommutes` | b5-kvstore/internal/raft/replication.go:417-432 | So does a rejection, unless it names a term whose last entry is compacted away |
| `Expansion.RequestSame` | b5-kvstore/internal/raft/replication.go:303-349 | The request for a peer is the uncompacted leader's if and only if the peer's nextIndex lies behind the anchor |
| `Expansion.CompactInvisible` | b5-kvstore/internal/raft/compaction.go:40-62 | A compacted window shows the same full log as before, and nothing outside the window changes |
| `Compactions.CompactTwice` | b5-kvstore/internal/raft/compaction.go:40-62 | Compacting to a and then to b > a equals compacting to b |
| `Compactions.ConfirmCovers` | b5-kvstore/internal/raft/snapshottransfer.go:82-110 | After a confirmation the anchor covers the target if and only if it did before, or the target was applied and the file is the target's; otherwise nothing has changed |
| `Compactions.RunIsHighest` | b5-kvstore/internal/raft/snapshottransfer.go:82-110 | Any sequence of confirmations and local compactions equals one compaction to the highest target beyond the anchor that is applied and comes with its file, or nothing if there is none |
| `Compactions.OffsetGrows` | b5-kvstore/internal/raft/snapshotcatchup.go:101-115 | Over any sequence of attempts logOffset never falls and stays below lastApplied |
| `Offsets.OffsetNeverFalls` | b5-kvstore/internal/raft/compaction.go:40-62 | Over every run, through crashes, restarts, compactions and catch-ups, no node's logOffset falls |
| `Compactions.OrderIrrelevant` | b5-kvstore/internal/raft/snapshotcatchup.go:58-117 | With one file per index the order of attempts does not matter |
| `Compactions.AnchorSkipped` | b5-kvstore/internal/raft/replication.go:309-333 | The request a leader with logOffset > 0 builds for a peer at or below its window starts with the anchor, and every follower turns it down or skips the anchor |
| `Compactions.AnchorNotReplicated` | b5-kvstore/internal/raft/replication.go:21-92 | So handling that request leaves whatever the follower had at the anchor's index, and nothing if it had nothing |
| `Compactions.AnchorAtOneReplicated` | b5-kvstore/internal/raft/replication.go:303-349 | With the anchor at index 1 the placeholder is replicated |
| `SnapshotDir.FindLatest` | b5-kvstore/internal/snapshotfile/snapshotfile.go:94-125 | The directory loop returns the file with the highest index, the final name before the temporary one |
| `SnapshotDir.LatestAt` | b5-kvstore/internal/snapshotfile/snapshotfile.go:55-72 | What Latest finds after each write, rename and removal of a compaction |
| `SnapshotDir.StartsUnlessTorn` | b5-kvstore/internal/snapshotfile/snapshotfile.go:94-125 | A start after a crash at any point of a compaction succeeds if and only if the crash did not leave a half-written temporary file |
| `SnapshotDir.TornFirstSnapshot` | b5-kvstore/internal/snapshotfile/snapshotfile.go:94-125 | A concrete directory from which the start fails |
| `SnapshotDir.CompactionCrashAtomic` | b5-kvstore/internal/raft/compaction.go:46-74 | At every other crash point recovery yields the same logical log and a map equal to its replay up to the recovered index |
| `SnapshotDir.DirStays` | b5-kvstore/internal/raft/compaction.go:68-74 | After such a recovery the newest file is again the node's snapshot |
| `Recovery.RestartKeeps` | b5-kvstore/internal/raft/node.go:279-356 | What a crash costs: term, vote, log and offset come back as they were, the indices start at the anchor and the map is the log replayed up to there |
| `Recovery.WholeMerge` | b5-kvstore/internal/raft/replication.go:126-167 | A crash after the last record of a merge leaves the disk of the finished call |
| `Recovery.PartMerge` | b5-kvstore/internal/raft/replication.go:126-167 | A crash after some of the records leaves that of a request with so many entries less |
| `Recovery.MidCompactionRestarts` | b5-kvstore/internal/raft/compaction.go:40-62 | A compaction leaves exactly the window in log.dat, and a crash before that write recovers the same node |
| `Recovery.MidCatchUpRestarts` | b5-kvstore/internal/raft/snapshotcatchup.go:138-150 | A crash between the two writes of a catch-up recovers the same node as the finished one if and only if the old log did not reach beyond the file |
| `Recovery.FirstRecord` | b5-kvstore/internal/raft/node.go:314-324 | Without a snapshot the first record says where log and indices start; a record of index 0 wraps around and makes the log unreachable |
| `Recovery.SnapshotLost` | b5-kvstore/internal/raft/node.go:314-324 | A compacted node whose snapshot file is missing has its log back, and its map is right if and only if the lost entries left nothing in it |
| `LogFile.LogDat.AppendLogEntries` | b5-kvstore/internal/raft/persistence/persistence.go:91-114 | Appends exactly the records of the entries |
| `LogFile.LogDat.ReadAllLogEntries` | b5-kvstore/internal/raft/persistence/persistence.go:121-164 | Returns the records before the first bad one and cuts the file behind them |
| `LogFile.LogDat.TruncateLogFrom` | b5-kvstore/internal/raft/persistence/persistence.go:170-182 | Leaves exactly the records with a smaller index |
| `LogFile.LogDat.RewriteLog` | b5-kvstore/internal/raft/persistence/persistence.go:195-224 | Replaces the contents by the records of the entries |
| `LogFile.PrefixRoundTrip` | b5-kvstore/internal/raft/persistence/persistence.go:226-235 | The 4-byte big-endian length reads back for every payload below 2^32 bytes |
| `LogFile.SomeCodecFits` | b5-kvstore/internal/raft/persistence/persistence.go:226-235 | Every list of fewer than 2^32 entries has a codec that fits it |
| `LogFile.RecordReadsIff` | b5-kvstore/internal/raft/persistence/persistence.go:226-235 | A record whose payload decodes reads back if and only if the payload is shorter than 2^32 bytes |
| `LogFile.WholeFileReads` | b5-kvstore/internal/raft/persistence/persistence.go:121-164 | What was written is what is read, and nothing is cut |
| `LogFile.TornFileReads` | b5-kvstore/internal/raft/persistence/persistence.go:116-164 | For every entry list and every byte cut, exactly the whole records are returned and exactly they are kept |
| `LogFile.WholeRecordsExist` | b5-kvstore/internal/raft/persistence/persistence.go:116-164 | Every byte cut has such a number of whole records |
| `LogFile.TornAppendReads` | b5-kvstore/internal/raft/persistence/persistence.go:91-114 | A crash at any byte of an append keeps what was there and the whole new records |
| `LogFile.TornMerge` | b5-kvstore/internal/raft/replication.go:150-166 | A crash at any byte of the append in a merge leaves, when the file is read again, exactly what the model's crash in a merge leaves after some number of records |
| `LogFile.TornWrite` | b5-kvstore/internal/raft/replication.go:219-228 | A crash at any byte of a client write leaves the entry or nothing of it |
| `LogFile.ReadAgain` | b5-kvstore/internal/raft/persistence/persistence.go:121-164 | On any bytes at all, reading twice finds the same and cuts no further |
| `LogFile.AppendAfterRead` | b5-kvstore/internal/raft/persistence/persistence.go:91-164 | On any bytes at all, what is appended after a read is read back behind what was read |
| `Backup.SnapshotStore.Apply` | b5-kvstore/internal/snapshot/store.go:79-90 | Feeds everything before the first entry that does not decode, and reports whether that was all |
| `Backup.StreamLogRange` | b5-kvstore/internal/raft/snapshottransfer.go:50-66 | Streams the entries of the range that the window has |
| `Backup.RunCycle` | b5-kvstore/internal/snapshot/compaction.go:92-146 | One cycle against a leader: what becomes of the store and, if confirmed, of the leader's log |
| `Backup.CycleStreams` | b5-kvstore/internal/snapshot/compaction.go:92-108 | A leader whose anchor is backed up streams exactly the missing entries |
| `Backup.PlaceholderStreamed` | b5-kvstore/internal/raft/snapshottransfer.go:50-66 | A leader compacted one entry further streams its placeholder |
| `Backup.FeedAgain` | b5-kvstore/internal/snapshot/store.go:79-90 | Feeding again what an aborted cycle already fed, and more, gives the replay of it all |
| `Backup.FeedAgainIff` | b5-kvstore/internal/snapshot/compaction.go:92-146 | That holds for every log if and only if the new cycle reaches at least as far |
| `Backup.CycleIsStep` | b5-kvstore/internal/snapshot/compaction.go:92-146 | A cycle against a leader holding only committed entries is a step of the sequence below; it confirms an exact file, and does so if and only if there is something new, all of it decodes and leadership has not moved |
| `Backup.EveryFileExact` | b5-kvstore/internal/snapshot/store.go:96-117 | Over any sequence of completed, aborted and failed cycles, restarts and writes, each file equals the replay of entries 1..LastIncludedIndex |
| `Adoptions.EveryFileFits` | b5-kvstore/internal/snapshot/store.go:96-117 | If what was fed is committed at some moment of a run, the newest file is one the nodes may be handed then and at any later moment |
| `Uncommitted.CycleFitsIff` | b5-kvstore/internal/snapshot/compaction.go:92-146 | In every run the file of a completed cycle is one the nodes may be handed if and only if the streamed log ends in a committed entry |
| `Uncommitted.CommittedCycleFits` | b5-kvstore/internal/raft/snapshottransfer.go:29-66 | Which is so for a leader that has committed its whole log |
| `Uncommitted.UncommittedAdopted` | b5-kvstore/internal/raft/snapshottransfer.go:29-66 | A run of five nodes in which an undisputed leader is backed up with two uncommitted entries, two others are committed in their place, and a node that passes the program's check has, after adopting the file, applied entries of another term and a map that is not the committed one |
| `CatchUp.CaughtUpSound` | b5-kvstore/internal/raft/snapshotcatchup.go:125-170 | A node behind a file ends up, in memory and on disk, with the file's prefix of the committed log and its replay; its window is one that a compaction could have left if and only if the file's index is not 1 |
| `CatchUp.IndicesRise` | b5-kvstore/internal/raft/snapshotcatchup.go:133-166 | Adopting any file raises commitIndex and lastApplied to cover it and never lowers them; a file of index 0 changes nothing |
| `CatchUp.NothingBehind` | b5-kvstore/internal/raft/snapshotcatchup.go:138-150 | Between the two writes the disk already recovers to the adopted prefix, if and only if the log did not reach beyond the file |
| `CatchUp.BeyondTheFile` | b5-kvstore/internal/raft/snapshotcatchup.go:138-159 | Entries beyond the file are dropped from memory, while a crash before the log rewrite keeps them |
| `CatchUp.MapCurrentIff` | b5-kvstore/internal/raft/snapshotcatchup.go:145-165 | For given lastApplied and file index, the map matches lastApplied for every node and every exact file if and only if the node has not applied beyond the file |
| `CatchUp.PlaceholderGetsOut` | b5-kvstore/internal/raft/snapshotcatchup.go:125-170 | A fresh node that adopts a file of index 1 and then leads has an empty follower take its placeholder for an entry in the second exchange |
| `CatchUp.AnchorAfter` | b5-kvstore/internal/raft/replication.go:126-167 | For every node, file and request: the entry at the file's index after adopting the file and handling the request is the anchor unless the request is of the node's term or a later one and has an entry of another term there, and then it is that entry |
| `Adoptions.AdoptedThenCut` | b5-kvstore/internal/raft/snapshotcatchup.go:58-78 | A run of five nodes after which a node meets every condition on adopting a file but the one on its term, and a request of its deposed leader is under way that then replaces a committed entry within what the node has committed |
| `Adoptions.AdoptedThenLeads` | b5-kvstore/internal/raft/snapshotcatchup.go:58-78 | A run of three nodes after which a node meets every condition but the one on the length of its log: it acknowledged an entry that is committed, and after adopting the file it is elected without it |
| `Events.NoneWaiting` | b5-kvstore/internal/raft/snapshotcatchup.go:125-170 | A leader whose whole log is decided and not yet applied has no pending call, so a file that reaches to the end of its log leaves no call behind lastApplied |
| `RaftNode.Node.FirstIndexOfTermLocked` | b5-kvstore/internal/raft/replication.go:97-103 | The loop computes the tail-run function |
| `RaftNode.Node.LastIndexOfTermLocked` | b5-kvstore/internal/raft/replication.go:108-118 | The loop computes the early-exit scan |
| `RaftNode.Node.FirstNewLocked` | b5-kvstore/internal/raft/replication.go:126-149 | The two loops find the first entry that is missing or differs |
| `RaftNode.Node.ApplyCommittedLocked` | b5-kvstore/internal/raft/replication.go:173-194 | The loop leaves map, lastApplied, pending calls and answers as the apply function does |
| `RaftNode.Node.EntriesFromLocked` | b5-kvstore/internal/raft/replication.go:309-333 | The loop collects exactly the entries from an index to the end of the log |
| `RaftNode.Node.BuildAppendEntriesRequestsLocked` | b5-kvstore/internal/raft/replication.go:303-349 | One request per peer, in order, each the request function's |
| `RaftNode.Node.FindCommitLocked` | b5-kvstore/internal/raft/replication.go:441-459 | The search from the end stops at the highest own-term index a majority holds, or not above the commit index |
| `RaftNode.CountReplicas` | b5-kvstore/internal/raft/replication.go:447-452 | The inner loop counts the leader and every peer holding the index |
| `RaftNode.Node.AbortPendingWaitersLocked` | b5-kvstore/internal/raft/node.go:500-505 | The loop answers every pending call once and clears them |
| `RaftNode.RecoverLog` | b5-kvstore/internal/raft/node.go:301-324 | Log, offset and start index from the entries and snapshot on disk |
| `RaftNode.Node.ConfirmCompaction` | b5-kvstore/internal/raft/snapshottransfer.go:82-110 | Answers without error if and only if the anchor then covers the target, and leaves the state of the confirmation function |
| `Events.EventSim` | b5-kvstore/internal/raft/replication.go:21-459 | Every event of the cluster is a sequence of protocol steps over full logs that keep the inductive invariant |
| `Safety.RunFollows` | b5-kvstore/internal/raft/replication.go:21-459 | Every run of windowed nodes follows a run of the protocol over uncompacted logs |
| `Window.StoredRecovers` | b5-kvstore/internal/raft/node.go:301-324 | NewNode rebuilds from disk the window that was in memory |
| `Window.AppendStored` | b5-kvstore/internal/raft/persistence/persistence.go:91-114 | Appending keeps disk and memory recovering to the same log |
| `Window.TruncateStored` | b5-kvstore/internal/raft/persistence/persistence.go:170-182 | So does truncating |
| `Window.CompactStored` | b5-kvstore/internal/raft/persistence/persistence.go:195-224 | So does compacting |
| `Window.MidCompactionStored` | b5-kvstore/internal/raft/compaction.go:46-58 | Once the snapshot is in place the old log.dat already recovers to the compacted log |
| `Window.MergeShows` | b5-kvstore/internal/raft/replication.go:126-167 | Merging into a window shows the leader's log merged into the full one |
| `Window.MergeKeepsDisk` | b5-kvstore/internal/raft/replication.go:126-167 | After a merge recovery from disk equals memory |
| `NodeSim.ApplyAll` | b5-kvstore/internal/raft/replication.go:173-194 | Applying reaches commitIndex, so the missing-entry exit is never taken, and the map is the committed prefix replayed |
| `NodeSim.ApplyAnswers` | b5-kvstore/internal/raft/replication.go:173-194 | Every call it answers with success is told about its own committed entry, and the calls left are for entries not yet applied |
| `NodeSim.VoteSim` | b5-kvstore/internal/raft/election.go:13-60 | A granted vote is a protocol vote for a candidate at least as up to date |
| `NodeSim.VoteIff` | b5-kvstore/internal/raft/election.go:13-60 | A vote is granted if and only if the request is not of an older term and the protocol allows the vote on full logs: none cast for another in that term, and a candidate at least as up to date |
| `RaftModel.UpToDateOrders` | b5-kvstore/internal/raft/election.go:62-67 | At least as up to date is total and transitive, so of any two nodes one would vote for the other |
| `NodeSim.AppendSim` | b5-kvstore/internal/raft/replication.go:21-92 | An acknowledged request means the follower holds the leader's log up to its end |
| `NodeSim.RequestForOk` | b5-kvstore/internal/raft/replication.go:303-349 | Every request continues the leader's own log and commits no further than it reaches |
| `NodeSim.CommitClamped` | b5-kvstore/internal/raft/replication.go:86-89 | leaderCommit lies within what the follower just verified, so the minimum with its last index commits nothing unverified |
| `LeaderSim.FindCommitFound` | b5-kvstore/internal/raft/replication.go:441-459 | The commit search returns the highest index that may be committed, or the old commit index if there is none |
| `LeaderSim.CountedQuorum` | b5-kvstore/internal/raft/replication.go:441-459 | A majority by matchIndex is a quorum of acknowledgements |
| `LeaderSim.DecideSim` | b5-kvstore/internal/raft/replication.go:441-459 | The commit rule decides in the leader's own term |
| `LeaderSim.RecoverSim` | b5-kvstore/internal/raft/node.go:301-324 | Crash recovery keeps everything the protocol relies on |
| `LeaderSim.MidMergeSim` | b5-kvstore/internal/raft/replication.go:126-167 | So does a crash after any number of records of a merge |
| `LeaderSim.MidCompactionRestorable` | b5-kvstore/internal/raft/compaction.go:46-58 | So does a crash inside a compaction |
| `RaftSafety.CampaignInv` | b5-kvstore/internal/raft/election.go:75-98 | Starting an election keeps the invariant |
| `RaftSafety.GrantInv` | b5-kvstore/internal/raft/election.go:29-60 | So does granting a vote |
| `RaftSafety.UpToDateHolds` | b5-kvstore/internal/raft/election.go:62-67 | A candidate at least as up to date as a voter holds every choosable prefix the voter acknowledged |
| `RaftSafety.WinInv` | b5-kvstore/internal/raft/election.go:157-175 | So does winning |
| `RaftSafety.ProposeInv` | b5-kvstore/internal/raft/replication.go:219-228 | So does a client write |
| `RaftSafety.AdoptInv` | b5-kvstore/internal/raft/replication.go:126-167 | So does taking the leader's entries |
| `RaftSafety.AckInv` | b5-kvstore/internal/raft/replication.go:86-92 | So does acknowledging |
| `RaftSafety.DecideInv` | b5-kvstore/internal/raft/replication.go:441-459 | So does committing by the own-term quorum rule |
| `RaftSafety.InstallInv` | b5-kvstore/internal/raft/snapshotcatchup.go:154-166 | So does replacing the log of a follower or candidate by a decided prefix that reaches as far |
| `RaftSafety.DecidedAfterwards` | b5-kvstore/internal/raft/replication.go:441-459 | What an earlier term's leader decides only later was already in a later leader's log |
| `RaftSafety.NothingDecidedBeyond` | b5-kvstore/internal/raft/readindex.go:32-72 | A leader without uncommitted older entries, and a quorum not past its term, has committed all there is |
| `Quorums.QuorumsMeet` | b5-kvstore/internal/raft/node.go:98-100 | Two quorums of one cluster share a member |
| `KeyValue.ReplayAgain` | b5-kvstore/internal/statemachine/statemachine.go:69-78 | replay(replay(m,s), s+t) = replay(m, s+t) |
| `KeyValue.ReplayConcat` | b5-kvstore/internal/statemachine/statemachine.go:69-78 | Replaying in two parts is replaying the whole |
| `KeyValue.LastWriteWins` | b5-kvstore/internal/statemachine/statemachine.go:69-78 | After a replay a key is as the last command about it left it: absent after a DELETE, otherwise with exactly that command's value |
| `KeyValue.ReplayUnmentioned` | b5-kvstore/internal/statemachine/statemachine.go:69-78 | A key that no command mentions is as before |

## Left out

- ReadIndex.ReadIndexFresh: the converse is given by one run, not for every unsettled leader, because a leader's own state does not tell whether an older entry it holds was committed elsewhere.
- LogRepair.RepairProgress: covers nodes that have not compacted, because a compacted leader clamps nextIndex to its window and a lagging follower then waits for the snapshot service.
- CatchUp.CaughtUpSound: asks for a node that has not committed beyond the file; otherwise `CatchUp.BeyondTheFile` and `CatchUp.MapCurrentIff` state what happens instead.
- Events.EventSim: adopting a snapshot is an event only under the guard `Cluster.MayCatchUp`, of which the code checks one condition; the runs in `Adoptions` show what happens without the others. A node that was down while a later term committed is outside the guard until it hears of that term.
- RaftNode.Node.SnapshotPollOnce: the look at the catalog, the fetch and the second check under the lock are one step, because the guards are the same at both looks.
- RaftNode.Node.CatchUpFromSnapshot: the file, the log rewrite and the map's restore, which the code does before it takes the lock, are one step with the rest; `CatchUp.MapCurrentIff` states when the difference shows.
- Pending.NoCallForgotten: says nothing of an index at which some call gave up, because the code removes by index.
- Safety.ChosenGrows: holds by the way the history variable grows; the content is in `Safety.StateMachineSafety` and `Safety.LeaderCompleteness`.
- Heard.KnownLeaderLed: leaves out the address a failed follower read stores as the known leader, because it comes from another node and may have led a term this node has not heard of.
- Expansion.RejectedCommutes: excludes a rejection that names a term whose last entry is compacted away, because the compacted leader then falls back to the follower's conflict index.
- Election and heartbeat timers, randomised timeouts and contexts are nondeterministic events; nothing is claimed about time. `Electable` says that an election can succeed, not that it will.
- gRPC transports, dialing, discovery, the client proxy, HTTP handlers, the circuit breaker and the load generator are plumbing around the core.
- The byte formats of gob, JSON and protobuf are parameters; only the record framing is concrete.
- state.json is part of the abstract disk; its temporary file is not modelled, because it is never read.
- Reads answered by a leader from its own map are not confirmed by a quorum in the code, and nothing is claimed for them.
- The occupancy thresholds and the in-flight flag of the backup service only decide when a cycle starts; any sequence of cycles is covered.
- `Store.File` after an aborted cycle pairs the fed replica with the older boundary; the result is stated for the file `Commit` writes.
- The map's own object with its lock is modelled by the value it holds.
