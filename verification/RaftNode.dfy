/** The node as the object the program runs: each method leaves the state its handler function names. */
module RaftNode {
  import opened Types
  import opened Quorums
  import opened KeyValue
  import opened NodeSpec

  // ---- Loops over values -----------------------------------------------------------

  /** Counts the leader and every peer known to hold the first index entries. */
  method CountReplicas(matchIndex: map<Id, nat>, index: nat) returns (count: nat)
    ensures count == 1 + |Holders(matchIndex, index)|
  {
    count := 1;
    var todo := matchIndex.Keys;
    ghost var holders := Holders(matchIndex, index);
    while todo != {}
      invariant todo <= matchIndex.Keys
      invariant count == 1 + |holders - todo|
      decreases |todo|
    {
      var p :| p in todo;
      ghost var done := holders - todo;
      todo := todo - {p};
      if matchIndex[p] >= index {
        count := count + 1;
        assert holders - todo == done + {p};
      } else {
        assert holders - todo == done;
      }
    }
    assert holders - todo == holders;
  }

  /** What a new leader assumes of its peers: they may hold everything it has, and are known to hold nothing. */
  method FreshIndices(peers: seq<Id>, last: nat) returns (next: map<Id, nat>, matched: map<Id, nat>)
    ensures next == Each(peers, last + 1) && matched == Each(peers, 0)
  {
    next, matched := map[], map[];
    for i := 0 to |peers|
      invariant next == Each(peers[..i], last + 1) && matched == Each(peers[..i], 0)
    {
      OneMorePeer(peers, i, last + 1);
      OneMorePeer(peers, i, 0);
      next, matched := next[peers[i] := last + 1], matched[peers[i] := 0];
    }
    assert peers[..|peers|] == peers;
  }

  lemma OneMorePeer(peers: seq<Id>, i: nat, index: nat)
    requires i < |peers|
    ensures Each(peers[..i + 1], index) == Each(peers[..i], index)[peers[i] := index]
  {
  }

  /** The records behind a snapshot's index, in order. */
  method SuffixAfter(entries: Log, index: nat) returns (suffix: Log)
    ensures suffix == After(entries, index)
  {
    suffix := [];
    for i := 0 to |entries|
      invariant suffix == After(entries[..i], index)
    {
      assert entries[..i + 1][..i] == entries[..i];
      if entries[i].index > index { suffix := suffix + [entries[i]]; }
    }
    assert entries[..|entries|] == entries;
  }

  /** The log, its offset and the first applied index NewNode starts from. */
  method RecoverLog(d: Disk) returns (log: Log, offset: nat, start: nat)
    ensures (log, offset) == RecoveredLog(d) && start == StartOf(d, offset)
  {
    log, offset, start := d.entries, 0, 0;
    if d.snapshot.Some? && d.snapshot.value.index > 0 {
      var suffix := SuffixAfter(d.entries, d.snapshot.value.index);
      log, offset, start := [AnchorOf(d.snapshot.value)] + suffix, d.snapshot.value.index - 1, d.snapshot.value.index;
    } else if |log| > 0 {
      offset := if log[0].index == 0 then 0xFFFF_FFFF_FFFF_FFFF else log[0].index - 1;
      if offset > 0 { start := (offset + 1) % 0x1_0000_0000_0000_0000; }
    }
  }

  lemma OneFailure(w: map<nat, Ticket>, i: nat)
    requires i in w && forall j | j in w :: w[j].entry.index == j
    ensures Failures(w) == multiset{Answer(w[i], false)} + Failures(w - {i})
  {
    var all := set j | j in w :: Answer(w[j], false);
    var rest := set j | j in w - {i} :: Answer((w - {i})[j], false);
    assert Answer(w[i], false) !in rest;
    forall x
      ensures x in all <==> x == Answer(w[i], false) || x in rest
    {
      if x in all {
        var j :| j in w && x == Answer(w[j], false);
        assert j == i || j in w - {i};
      }
    }
    assert all == {Answer(w[i], false)} + rest;
  }

  /** One step of the apply loop; without an entry only the index moves. */
  predicate Passes(n: NodeState, n': NodeState, more: bool) {
    var entry := EntryAt(n, n.applied + 1);
    more == entry.Some? && n' == if more then ApplyNext(n, entry.value) else n.(applied := n.applied + 1)
  }

  lemma ApplyPassed(n: NodeState, n': NodeState, more: bool)
    requires n.applied < n.commit && Passes(n, n', more)
    ensures if more then ApplyCommitted(n') == ApplyCommitted(n) else n' == ApplyCommitted(n)
  {
    ApplyUnfolds(n);
  }

  class Node {
    const id: Id
    const peers: seq<Id>
    var currentTerm: nat
    var votedFor: Option<Id>
    var log: Log
    var logOffset: nat
    var role: Role
    var commitIndex: nat
    var lastApplied: nat
    var nextIndex: map<Id, nat>
    var matchIndex: map<Id, nat>
    var currentLeader: Option<Id>
    var votes: nat
    var waiters: map<nat, Ticket>
    var answers: multiset<Answer>
    var issued: nat
    var store: Store
    var disk: Disk

    function State(): NodeState
      reads this
    {
      NodeState(id, peers, currentTerm, votedFor, log, logOffset, role, commitIndex, lastApplied, nextIndex, matchIndex,
                currentLeader, votes, waiters, answers, issued, store, disk)
    }

    /** Blocked calls are filed under the index of their entry. */
    predicate Valid()
      reads this
    {
      forall i | i in waiters :: waiters[i].entry.index == i
    }

    /** A node on an empty data directory. */
    constructor (id: Id, peers: seq<Id>)
      ensures Valid() && State() == NewNode(id, peers)
    {
      this.id, this.peers := id, peers;
      currentTerm, votedFor, log, logOffset, role, commitIndex, lastApplied := 0, None, [], 0, Follower, 0, 0;
      nextIndex, matchIndex, currentLeader, votes := map[], map[], None, 0;
      waiters, answers, issued, store, disk := map[], multiset{}, 0, map[], Disk(0, None, [], None);
    }

    // ---- Lookups ----------------------------------------------------------------------

    function LastLogIndexLocked(): (r: nat)
      reads this
      ensures r == LastIndex(State())
    {
      logOffset + |log|
    }

    function EntryAtLocked(index: nat): (r: Option<Entry>)
      reads this
      ensures r == EntryAt(State(), index)
    {
      if index <= logOffset || index > logOffset + |log| then None else Some(log[index - logOffset - 1])
    }

    method FirstIndexOfTermLocked(term: nat) returns (index: nat)
      ensures index == FirstIndexOfTerm(State(), term)
    {
      var i := |log|;
      assert log[..i] == log;
      while i > 0 && log[i - 1].term == term
        invariant 0 <= i <= |log|
        invariant TailRun(log[..i], term) == TailRun(log, term)
      {
        assert log[..i][..i - 1] == log[..i - 1];
        i := i - 1;
      }
      return logOffset + i + 1;
    }

    method LastIndexOfTermLocked(term: nat) returns (index: nat)
      ensures index == LastIndexOfTerm(State(), term)
    {
      var i := |log|;
      assert log[..i] == log;
      while i > 0
        invariant 0 <= i <= |log|
        invariant ScanBack(log[..i], term) == ScanBack(log, term)
      {
        if log[i - 1].term == term { return logOffset + i; }
        if log[i - 1].term < term { break; }
        assert log[..i][..i - 1] == log[..i - 1];
        i := i - 1;
      }
      return 0;
    }

    // ---- Roles and terms ----------------------------------------------------------------

    method PersistStateLocked()
      modifies this`disk
      ensures State() == PersistState(old(State()))
    {
      disk := disk.(term := currentTerm, votedFor := votedFor);
    }

    method AbortPendingWaitersLocked()
      requires Valid()
      modifies this`waiters, this`answers
      ensures Valid() && State() == AbortWaiters(old(State()))
    {
      while waiters != map[]
        invariant Valid()
        invariant answers + Failures(waiters) == old(answers) + Failures(old(waiters))
        decreases |waiters|
      {
        var i :| i in waiters;
        FailLocked(i);
      }
    }

    method FailLocked(i: nat)
      requires Valid() && i in waiters
      modifies this`waiters, this`answers
      ensures Valid() && waiters == old(waiters) - {i}
      ensures answers + Failures(waiters) == old(answers) + Failures(old(waiters))
    {
      OneFailure(waiters, i);
      answers := answers + multiset{Answer(waiters[i], false)};
      waiters := waiters - {i};
    }

    method SetRoleLocked(r: Role)
      requires Valid()
      modifies this`waiters, this`answers, this`role
      ensures Valid() && State() == SetRole(old(State()), r)
    {
      if role == Leader && r != Leader { AbortPendingWaitersLocked(); }
      role := r;
    }

    method ObserveTermLocked(term: nat)
      requires Valid()
      modifies this`waiters, this`answers, this`role, this`currentTerm, this`votedFor, this`disk
      ensures Valid() && State() == ObserveTerm(old(State()), term)
    {
      if term <= currentTerm { return; }
      currentTerm, votedFor := term, None;
      SetRoleLocked(Follower);
      PersistStateLocked();
    }

    // ---- Elections ------------------------------------------------------------------------

    method RequestVote(req: VoteRequest) returns (reply: VoteReply)
      requires Valid()
      modifies this
      ensures Valid() && (State(), reply) == HandleVote(old(State()), req)
    {
      if req.term > currentTerm { ObserveTermLocked(req.term); }
      var lastTerm := if log == [] then 0 else log[|log| - 1].term;
      if req.term == currentTerm && (votedFor == None || votedFor == Some(req.candidate))
         && AtLeastAsUpToDate(req.lastTerm, req.lastIndex, lastTerm, LastLogIndexLocked())
      {
        votedFor := Some(req.candidate);
        PersistStateLocked();
        return VoteReply(currentTerm, true);
      }
      return VoteReply(currentTerm, false);
    }

    method StartElectionLocked()
      requires Valid()
      modifies this
      ensures Valid() && State() == StartElection(old(State()))
    {
      if role == Leader { return; }
      SetRoleLocked(Candidate);
      NextTermLocked();
      PersistStateLocked();
    }

    method NextTermLocked()
      modifies this`currentTerm, this`votedFor, this`votes
      ensures State() == old(State()).(term := old(currentTerm) + 1, votedFor := Some(id), votes := 1)
    {
      currentTerm, votedFor, votes := currentTerm + 1, Some(id), 1;
    }

    method BecomeLeaderLocked()
      modifies this`role, this`currentLeader, this`nextIndex, this`matchIndex
      ensures State() == BecomeLeader(old(State()))
    {
      if role != Candidate { return; }
      role, currentLeader := Leader, Some(id);
      ResetPeersLocked();
    }

    method ResetPeersLocked()
      modifies this`nextIndex, this`matchIndex
      ensures State() == old(State()).(nextIndex := Each(peers, LastIndex(State()) + 1), matchIndex := Each(peers, 0))
    {
      nextIndex, matchIndex := FreshIndices(peers, LastLogIndexLocked());
    }

    method VoteReplyArrived(electionTerm: nat, reply: VoteReply)
      requires Valid()
      modifies this
      ensures Valid() && State() == HandleVoteReply(old(State()), electionTerm, reply)
    {
      if reply.term > currentTerm {
        ObserveTermLocked(reply.term);
        return;
      }
      if role != Candidate || currentTerm != electionTerm { return; }
      if reply.granted { votes := votes + 1; }
      if reply.granted && votes >= QuorumSize(|peers| + 1) { BecomeLeaderLocked(); }
    }

    // ---- Following --------------------------------------------------------------------------

    method ApplyCommittedLocked()
      requires Valid()
      modifies this`lastApplied, this`store, this`waiters, this`answers
      ensures Valid() && State() == ApplyCommitted(old(State()))
    {
      ghost var goal := ApplyCommitted(State());
      while lastApplied < commitIndex
        invariant Valid() && ApplyCommitted(State()) == goal
        decreases commitIndex - lastApplied
      {
        ghost var before := State();
        var more := PassEntryLocked();
        ApplyPassed(before, State(), more);
        if !more { return; }
      }
      ApplyDone(State());
    }

    /** One step of that loop; false when there is no entry to pass. */
    method PassEntryLocked() returns (more: bool)
      requires Valid() && lastApplied < commitIndex
      modifies this`lastApplied, this`store, this`waiters, this`answers
      ensures Valid() && lastApplied == old(lastApplied) + 1
      ensures Passes(old(State()), State(), more)
    {
      lastApplied := lastApplied + 1;
      var entry := EntryAtLocked(lastApplied);
      if entry.None? { return false; }
      DeliverLocked(entry.value);
      return true;
    }

    /** Hands the entry just passed to the state machine and wakes the call blocked on it. */
    method DeliverLocked(entry: Entry)
      requires Valid() && lastApplied > 0
      modifies this`store, this`waiters, this`answers
      ensures Valid() && State() == ApplyNext(old(State()).(applied := lastApplied - 1), entry)
    {
      store := Apply(store, entry.command);
      if entry.index in waiters {
        answers := answers + multiset{Answer(waiters[entry.index], true)};
        waiters := waiters - {entry.index};
      }
    }

    /** The first of the entries that is missing or differs, behind those already compacted away. */
    method FirstNewLocked(prevIndex: nat, newEntries: Log) returns (i: nat)
      ensures i == Divergence(State(), prevIndex, newEntries, 0)
    {
      i := 0;
      while i < |newEntries| && prevIndex + 1 + i <= logOffset
        invariant 0 <= i <= |newEntries|
        invariant Divergence(State(), prevIndex, newEntries, i) == Divergence(State(), prevIndex, newEntries, 0)
      {
        i := i + 1;
      }
      ghost var from := i;
      while i < |newEntries|
        invariant from <= i <= |newEntries|
        invariant from < |newEntries| ==> prevIndex + 1 + from > logOffset
        invariant Divergence(State(), prevIndex, newEntries, i) == Divergence(State(), prevIndex, newEntries, 0)
      {
        var existing := EntryAtLocked(prevIndex + 1 + i);
        if existing.None? || existing.value.term != newEntries[i].term { break; }
        i := i + 1;
      }
    }

    method MergeEntriesLocked(prevIndex: nat, newEntries: Log)
      modifies this`log, this`disk
      ensures State() == MergeEntries(old(State()), prevIndex, newEntries)
    {
      var i := FirstNewLocked(prevIndex, newEntries);
      if i >= |newEntries| { return; }
      var existing := EntryAtLocked(prevIndex + 1 + i);
      if existing.Some? {
        disk := disk.(entries := Before(disk.entries, prevIndex + 1 + i));
        log := log[..prevIndex + i - logOffset];
      }
      disk := disk.(entries := disk.entries + newEntries[i..]);
      log := log + newEntries[i..];
    }

    /** The follower's half of one AppendEntries call. */
    method AppendEntries(req: AppendRequest) returns (reply: AppendReply)
      requires Valid()
      modifies this
      ensures Valid() && (State(), reply) == HandleAppend(old(State()), req)
    {
      if req.term > currentTerm { ObserveTermLocked(req.term); }
      if req.term < currentTerm { return AppendReply(currentTerm, false, 0, 0); }
      SetRoleLocked(Follower);
      currentLeader := Some(req.leader);
      reply := AnswerLeaderLocked(req);
    }

    method AnswerLeaderLocked(req: AppendRequest) returns (reply: AppendReply)
      requires Valid()
      modifies this
      ensures Valid() && (State(), reply) == AnswerLeader(old(State()), req)
    {
      if req.prevIndex > logOffset {
        var entry := EntryAtLocked(req.prevIndex);
        if entry.None? { return AppendReply(currentTerm, false, LastLogIndexLocked() + 1, 0); }
        if entry.value.term != req.prevTerm {
          var first := FirstIndexOfTermLocked(entry.value.term);
          return AppendReply(currentTerm, false, first, entry.value.term);
        }
      }
      if |req.entries| > 0 { MergeEntriesLocked(req.prevIndex, req.entries); }
      if req.commit > commitIndex {
        commitIndex := Min(req.commit, LastLogIndexLocked());
        ApplyCommittedLocked();
      }
      return AppendReply(currentTerm, true, 0, 0);
    }

    // ---- Leading ------------------------------------------------------------------------------

    method AppendLocalLocked(command: Command) returns (index: nat)
      modifies this`log, this`disk
      ensures State() == AppendLocal(old(State()), command) && index == LastIndex(State())
    {
      index := LastLogIndexLocked() + 1;
      var entry := Entry(currentTerm, index, command);
      disk := disk.(entries := disk.entries + [entry]);
      log := log + [entry];
    }

    /** The part of ProposeSync before it blocks; index 0 means it was turned down. */
    method ProposeSyncLocked(command: Command) returns (index: nat)
      requires Valid()
      modifies this
      ensures Valid() && State() == ProposeSync(old(State()), command)
      ensures index == if old(role) == Leader then LastIndex(State()) else 0
    {
      if role != Leader { return 0; }
      index := AppendLocalLocked(command);
      waiters := waiters[index := Ticket(issued, Entry(currentTerm, index, command))];
      issued := issued + 1;
    }

    method EntriesFromLocked(next: nat) returns (entries: Log)
      requires next > logOffset
      ensures entries == EntriesFrom(State(), next)
    {
      entries := [];
      var index := next;
      while index <= LastLogIndexLocked()
        invariant next <= index && (next <= LastLogIndexLocked() ==> index <= LastLogIndexLocked() + 1)
        invariant entries == if next <= LastLogIndexLocked() then log[next - 1 - logOffset..index - 1 - logOffset] else []
      {
        var e := EntryAtLocked(index);
        entries := entries + [e.value];
        index := index + 1;
      }
    }

    method BuildRequestLocked(peer: Id) returns (req: AppendRequest)
      ensures req == RequestFor(State(), peer)
    {
      var next := if peer in nextIndex then nextIndex[peer] else 0;
      if next <= logOffset { next := logOffset + 1; }
      var prevTerm := TermAtLocked(next - 1);
      var entries := EntriesFromLocked(next);
      return AppendRequest(currentTerm, id, next - 1, prevTerm, entries, commitIndex);
    }

    method TermAtLocked(index: nat) returns (term: nat)
      ensures term == TermOf(State(), index)
    {
      if index == 0 { return 0; }
      var e := EntryAtLocked(index);
      return if e.Some? then e.value.term else 0;
    }

    /** One request per peer, in order. */
    method BuildAppendEntriesRequestsLocked() returns (reqs: seq<(Id, AppendRequest)>)
      ensures |reqs| == |peers|
      ensures forall k | 0 <= k < |peers| :: reqs[k] == (peers[k], RequestFor(State(), peers[k]))
    {
      reqs := [];
      for k := 0 to |peers|
        invariant |reqs| == k
        invariant forall j | 0 <= j < k :: reqs[j] == (peers[j], RequestFor(State(), peers[j]))
      {
        var req := BuildRequestLocked(peers[k]);
        reqs := reqs + [(peers[k], req)];
      }
    }

    method MaybeAdvanceCommitIndexLocked()
      requires Valid()
      modifies this`commitIndex, this`lastApplied, this`store, this`waiters, this`answers
      ensures Valid() && State() == AdvanceCommit(old(State()))
    {
      var index := FindCommitLocked();
      if index > commitIndex {
        commitIndex := index;
        ApplyCommittedLocked();
      }
    }

    /** The search from the end of the log down; what it returns is above the commit index if there is such an index. */
    method FindCommitLocked() returns (index: nat)
      ensures Max(index, commitIndex) == FindCommit(State(), LastIndex(State()))
    {
      index := LastLogIndexLocked();
      while index > commitIndex
        invariant FindCommit(State(), index) == FindCommit(State(), LastIndex(State()))
      {
        var entry := EntryAtLocked(index);
        if entry.Some? && entry.value.term == currentTerm {
          var count := CountReplicas(matchIndex, index);
          if count >= QuorumSize(|peers| + 1) { return; }
        }
        index := index - 1;
      }
    }

    method HandleAppendEntriesReplyLocked(peer: Id, sentPrev: nat, numEntries: nat, reply: AppendReply)
      requires Valid()
      modifies this
      ensures Valid() && State() == HandleAppendReply(old(State()), peer, sentPrev, numEntries, reply)
    {
      if reply.term > currentTerm {
        ObserveTermLocked(reply.term);
        return;
      }
      if reply.success {
        RecordMatchLocked(peer, sentPrev + numEntries);
        MaybeAdvanceCommitIndexLocked();
        return;
      }
      var next := BackOffLocked(reply);
      nextIndex := nextIndex[peer := next];
    }

    method RecordMatchLocked(peer: Id, newMatch: nat)
      modifies this`matchIndex, this`nextIndex
      ensures State() == RecordMatch(old(State()), peer, newMatch)
    {
      if newMatch > (if peer in matchIndex then matchIndex[peer] else 0) { matchIndex := matchIndex[peer := newMatch]; }
      if newMatch + 1 > (if peer in nextIndex then nextIndex[peer] else 0) { nextIndex := nextIndex[peer := newMatch + 1]; }
    }

    method BackOffLocked(reply: AppendReply) returns (next: nat)
      ensures next == BackOff(State(), reply)
    {
      next := reply.conflictIndex;
      var last := LastIndexOfTermLocked(reply.conflictTerm);
      if reply.conflictTerm != 0 && last > 0 { next := last + 1; }
      if next < 1 { next := 1; }
    }

    /** The leader's half of one AppendEntries call, once the reply is there. */
    method AppendEntriesReplyArrived(peer: Id, req: AppendRequest, reply: AppendReply) returns (acked: bool)
      requires Valid()
      modifies this
      ensures Valid() && State() == FinishAppend(old(State()), peer, req, reply)
      ensures acked <==> old(role) == Leader && old(currentTerm) == req.term && reply.term == req.term && reply.success
    {
      if role != Leader || currentTerm != req.term { return false; }
      HandleAppendEntriesReplyLocked(peer, req.prevIndex, |req.entries|, reply);
      return reply.term == req.term && reply.success;
    }

    // ---- Compaction and restart ---------------------------------------------------------------

    method CompactLocked(file: File) returns (ok: bool)
      modifies this`log, this`logOffset, this`disk
      ensures State() == CompactTo(old(State()), file) && (ok <==> old(EntryAtLocked(file.index)).Some?)
    {
      var entry := EntryAtLocked(file.index);
      if entry.None? { return false; }
      disk := disk.(snapshot := Some(file));
      var kept := [Entry(file.term, file.index, BLANK)] + log[file.index - logOffset..];
      disk := disk.(entries := kept);
      log, logOffset := kept, file.index - 1;
      return true;
    }

    /** False is the error return: not applied yet, a file for another index, or an index outside the log. */
    method ConfirmCompaction(target: nat, file: File) returns (ok: bool)
      modifies this`log, this`logOffset, this`disk
      ensures State() == Confirm(old(State()), target, file)
      ensures ok <==>
        target <= old(logOffset) + 1 || (target <= lastApplied && file.index == target && old(EntryAtLocked(target)).Some?)
      ensures ok <==> target <= logOffset + 1
    {
      if target <= logOffset + 1 { return true; }
      if target > lastApplied || file.index != target { return false; }
      ok := CompactLocked(file);
    }

    method CatchUpFromSnapshot(file: File)
      modifies this`log, this`logOffset, this`commitIndex, this`lastApplied, this`store, this`disk
      ensures State() == CaughtUp(old(State()), file)
    {
      if file.index == 0 { return; }
      InstallLocked(file);
      RaiseIndicesLocked(file.index);
    }

    /** The file and an anchor on disk, and the same in memory. */
    method InstallLocked(file: File)
      requires file.index > 0
      modifies this`log, this`logOffset, this`store, this`disk
      ensures State() == old(State()).(log := [AnchorOf(file)], offset := file.index - 1, store := file.state,
                                       disk := old(disk).(entries := [AnchorOf(file)], snapshot := Some(file)))
    {
      disk := disk.(entries := [AnchorOf(file)], snapshot := Some(file));
      store, log, logOffset := file.state, [AnchorOf(file)], file.index - 1;
    }

    method RaiseIndicesLocked(index: nat)
      modifies this`commitIndex, this`lastApplied
      ensures commitIndex == Max(old(commitIndex), index) && lastApplied == Max(old(lastApplied), index)
    {
      if index > commitIndex { commitIndex := index; }
      if index > lastApplied { lastApplied := index; }
    }

    /** One round of the poll loop: the index the catalog reports, and the file it then hands out. */
    method SnapshotPollOnce(target: nat, file: File)
      modifies this`log, this`logOffset, this`commitIndex, this`lastApplied, this`store, this`disk
      ensures State() == if target > old(lastApplied) then CaughtUp(old(State()), file) else Confirm(old(State()), target, file)
    {
      if target > lastApplied {
        CatchUpFromSnapshot(file);
        return;
      }
      if target > logOffset + 1 && file.index == target {
        var compacted := CompactLocked(file);
      }
    }

    /** The process dies and NewNode runs on what is on disk. */
    method Restart()
      modifies this
      ensures Valid() && State() == Recover(old(State()))
    {
      var recovered, offset, start := RecoverLog(disk);
      ResetLocked(recovered, offset, start);
    }

    method ResetLocked(recovered: Log, offset: nat, start: nat)
      modifies this
      ensures Valid() && State() == RestartAt(old(State()), recovered, offset, start)
    {
      ForgetLocked();
      AdoptLocked(recovered, offset);
      commitIndex, lastApplied := start, start;
      store := if disk.snapshot.Some? then disk.snapshot.value.state else map[];
    }

    method AdoptLocked(recovered: Log, offset: nat)
      modifies this`currentTerm, this`votedFor, this`log, this`logOffset
      ensures State() == old(State()).(term := disk.term, votedFor := disk.votedFor, log := recovered, offset := offset)
    {
      currentTerm, votedFor, log, logOffset := disk.term, disk.votedFor, recovered, offset;
    }

    method ForgetLocked()
      modifies this`role, this`nextIndex, this`matchIndex, this`currentLeader, this`votes, this`waiters
      ensures Valid()
      ensures State() == old(State()).(role := Follower, nextIndex := map[], matchIndex := map[], leader := None, votes := 0, waiters := map[])
    {
      ForgetPeersLocked();
      role, currentLeader, votes := Follower, None, 0;
    }

    method ForgetPeersLocked()
      modifies this`nextIndex, this`matchIndex, this`waiters
      ensures Valid() && State() == old(State()).(nextIndex := map[], matchIndex := map[], waiters := map[])
    {
      nextIndex, matchIndex, waiters := map[], map[], map[];
    }
  }
}
