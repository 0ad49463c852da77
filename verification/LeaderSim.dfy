/** The leader's reply handling, compaction and crash recovery as protocol steps. */
module LeaderSim {
  import opened Types
  import opened Quorums
  import opened NodeSpec
  import opened Window
  import opened RaftModel
  import opened RaftSafety
  import opened Refinement
  import opened NodeSim
  import C = Cluster

  // ---- Counting acknowledgements -----------------------------------------------------

  /** Recording a match the peer acknowledged keeps matchIndex truthful. */
  lemma RecordTruthful(a: Model, s: NodeState, peer: Id, k: nat)
    requires Truthful(a, s) && s.role == Leader && peer in s.peers && AckOf(a, peer, s.term) >= k
    ensures Truthful(a, RecordMatch(s, peer, k))
  {
  }

  /** The search from the end stops at the highest index that may be committed, if there is one. */
  lemma {:induction false} FindCommitFound(s: NodeState, index: nat)
    ensures var i := FindCommit(s, index);
      && (i == s.commit || (s.commit < i <= index && CanCommit(s, i)))
      && forall j: nat | i < j <= index :: !CanCommit(s, j)
  {
    if index > s.commit && !CanCommit(s, index) { FindCommitFound(s, index - 1); }
  }

  /** A majority by matchIndex, the leader included, is a quorum of acknowledgements. */
  lemma CountedQuorum(a: Model, all: set<Id>, n: Id, s: NodeState, i: nat)
    requires Inv(a) && n in a.members && a.members.Keys == all && Local(s, a.members[n]) && s.role == Leader
    requires Truthful(a, s) && C.PeersOf(all, n, s.peers) && CanCommit(s, i)
    ensures IsQuorum(AckSet(a, s.term, i), a.members.Keys)
  {
    LeaderAcked(a, n, s, i);
    var counted := Holders(s.matchIndex, i) + {n};
    assert Holders(s.matchIndex, i) <= all - {n};
    assert |counted| == |Holders(s.matchIndex, i)| + 1;
    SubsetSize(counted, all);
    QuorumGrows(counted, AckSet(a, s.term, i), all);
  }

  /** A leader has acknowledged its own log. */
  lemma LeaderAcked(a: Model, n: Id, s: NodeState, i: nat)
    requires Inv(a) && n in a.members && Local(s, a.members[n]) && s.role == Leader && EntryAt(s, i).Some?
    ensures AckOf(a, n, s.term) >= i
  {
    assert MemberOk(a, n);
    ShowsEntry(s, a.members[n].log, i);
  }

  lemma CanDecideHere(a: Model, all: set<Id>, n: Id, s: NodeState, i: nat)
    requires Inv(a) && n in a.members && a.members.Keys == all && Local(s, a.members[n]) && s.role == Leader
    requires Truthful(a, s) && C.PeersOf(all, n, s.peers) && s.commit < i && CanCommit(s, i)
    ensures CanDecide(a, n, i)
  {
    assert MemberOk(a, n);
    ShowsEntry(s, a.members[n].log, i);
    CountedQuorum(a, all, n, s, i);
  }

  /** The leader's commit rule decides, in its own term, what a quorum acknowledged. */
  lemma DecideSim(a: Model, n: Id, s: NodeState, i: nat) returns (a': Model)
    requires Inv(a) && CanDecide(a, n, i) && Local(s, a.members[n]) && Truthful(a, s)
    ensures a' == Decide(a, n, i) && Inv(a') && Grows(a, a')
    ensures var s' := ApplyCommitted(s.(commit := i));
      Local(s', a'.members[n]) && Truthful(a', s') && NewAnswersOk(s, s', a'.members[n].log) && s'.commit == i
  {
    a' := Decide(a, n, i);
    DecideInv(a, n, i);
    MemberIndexed(a, n);
    assert MemberOk(a, n);
    CommitMoves(s, a.members[n].log, i);
  }

  // ---- Compaction --------------------------------------------------------------------------

  /** Compacting changes the window and the disk, not the log they stand for. */
  lemma CompactLocal(s: NodeState, m: Member, f: File)
    requires Local(s, m) && Indexed(m.log, 0) && FileOk(f, m.log) && s.offset + 1 < f.index <= s.applied
    ensures Local(CompactTo(s, f), m)
  {
    ShowsEntry(s, m.log, f.index);
    CompactShows(s, f, m.log);
    CompactDiskOk(s, m.log, f);
    CompactFrame(s, f);
  }

  lemma CompactDiskOk(s: NodeState, full: Log, f: File)
    requires Shows(s, full) && DiskOk(s) && Indexed(full, 0) && s.offset + 1 < f.index <= |full|
    ensures DiskOk(CompactTo(s, f))
  {
    ShowsEntry(s, full, f.index);
    ShowsIndexed(s, full);
    CompactStored(s.log, s.offset, f);
  }

  lemma CompactFrame(s: NodeState, f: File)
    ensures var s' := CompactTo(s, f);
      s' == s.(log := s'.log, offset := s'.offset, disk := s.disk.(entries := s'.disk.entries, snapshot := s'.disk.snapshot))
  {
  }

  // ---- Recovery -------------------------------------------------------------------------------

  /** A disk from which NewNode rebuilds the member's log. */
  predicate Restorable(d: Disk, m: Member) {
    && d.term == m.term && d.votedFor == (if m.term in m.votes then Some(m.votes[m.term]) else None)
    && match d.snapshot
       case None => Stored(d.entries, None, m.log, 0)
       case Some(f) =>
         FileOk(f, m.log) && 2 <= f.index <= m.commit && Stored(d.entries, Some(f), View(m.log, f.index - 1), f.index - 1)
  }

  lemma LocalRestorable(s: NodeState, m: Member)
    requires Local(s, m)
    ensures Restorable(s.disk, m)
  {
    ShownRestorable(s, m);
  }

  lemma EndorsedPrefix(a: Model, p: Log, q: Log, t: nat)
    requires Endorsed(a, q, t) && p <= q
    ensures Endorsed(a, p, t)
  {
    if q != [] {
      var u: nat :| u <= t && EndorsedBy(a, q, u);
      assert EndorsedBy(a, p, u);
    }
  }

  lemma ViewIndexed(full: Log, o: nat)
    requires Indexed(full, 0) && o < |full|
    ensures Indexed(View(full, o), o)
  {
  }

  /** What NewNode builds, on the member's full log. */
  lemma RecoveredLocal(s: NodeState, m: Member)
    requires Restorable(s.disk, m) && Indexed(m.log, 0) && m.commit <= |m.log|
    ensures var s' := Recover(s); Local(s', m.(role := Follower, commit := s'.commit)) && s'.commit <= m.commit
  {
    var d := s.disk;
    match d.snapshot {
      case None =>
        StoredRecovers(d, m.log, 0);
        assert m.log[..0] == [];
      case Some(f) =>
        ViewIndexed(m.log, f.index - 1);
        StoredRecovers(d, View(m.log, f.index - 1), f.index - 1);
    }
  }

  lemma RecoverSim(a: Model, n: Id, s: NodeState) returns (a': Model)
    requires Inv(a) && n in a.members && Restorable(s.disk, a.members[n])
    ensures Steps(a, a', n) && a'.reigns == a.reigns && Local(Recover(s), a'.members[n])
  {
    assert a.members[n].commit <= |a.members[n].log| by { assert MemberOk(a, n); }
    MemberIndexed(a, n);
    RecoveredLocal(s, a.members[n]);
    a' := CommitBack(a, n, Recover(s).commit);
  }

  /** A restarted member is a follower that has to learn again how far its log is committed. */
  lemma CommitBack(a: Model, n: Id, i: nat) returns (a': Model)
    requires Inv(a) && n in a.members && i <= a.members[n].commit
    ensures Steps(a, a', n) && a'.reigns == a.reigns && a'.members[n] == a.members[n].(role := Follower, commit := i)
  {
    var m := a.members[n];
    var a1 := StepDown(a, n);
    StepDownInv(a, n);
    assert MemberOk(a, n);
    assert m.log[..i] <= m.log[..m.commit];
    EndorsedPrefix(a, m.log[..i], m.log[..m.commit], m.term);
    SetCommitHere(a, a1, n, i);
    a' := SetCommit(a1, n, i);
    SetCommitInv(a1, n, i);
    StepsTransitive(a, a1, a', n);
  }

  lemma SetCommitHere(a: Model, a1: Model, n: Id, i: nat)
    requires n in a.members && Inv(a1) && Grows(a, a1) && a1 == StepDown(a, n) && i <= |a.members[n].log|
    requires Endorsed(a, a.members[n].log[..i], a.members[n].term)
    ensures CanSetCommit(a1, n, i)
  {
    forall u | u in a1.reigns
      ensures a1.reigns[u].decided <= |a1.reigns[u].log|
    {
      assert ReignOk(a1, u);
    }
    EndorsedStays(a, a1, a.members[n].log[..i], a.members[n].term, a.members[n].term);
  }

  /** A crash after the snapshot file is in place and before log.dat is rewritten. */
  lemma MidCompactionRestorable(s: NodeState, m: Member, target: nat, f: File)
    requires Local(s, m) && Indexed(m.log, 0) && FileOk(f, m.log)
    ensures Restorable(DiskMidCompaction(s, target, f).disk, m)
  {
    LocalRestorable(s, m);
    MidCompactionDisk(s, target, f);
    if MayCompact(s, target, f) { NewFileRestorable(s, m, f); }
  }

  lemma MidCompactionDisk(s: NodeState, target: nat, f: File)
    ensures var d := DiskMidCompaction(s, target, f).disk;
      d == s.disk || (MayCompact(s, target, f) && d == s.disk.(snapshot := Some(f)))
  {
  }

  lemma NewFileRestorable(s: NodeState, m: Member, f: File)
    requires Local(s, m) && Indexed(m.log, 0) && FileOk(f, m.log) && s.offset + 1 < f.index <= s.applied
    ensures Restorable(s.disk.(snapshot := Some(f)), m)
  {
    NewFileStored(s, m.log, f);
  }

  lemma NewFileStored(s: NodeState, full: Log, f: File)
    requires Shows(s, full) && DiskOk(s) && Indexed(full, 0) && FileOk(f, full) && s.offset + 1 < f.index
    ensures Stored(s.disk.entries, Some(f), View(full, f.index - 1), f.index - 1)
  {
    ShowsEntry(s, full, f.index);
    ShowsIndexed(s, full);
    CompactKeeps(s, f, full);
    MidCompactionStored(s.disk.entries, s.disk.snapshot, s.log, s.offset, f);
  }

  // ---- A crash while merging -------------------------------------------------------------------

  lemma AdoptPart(a: Model, n: Id, x: nat, j: nat) returns (a': Model)
    requires Inv(a) && n in a.members && a.members[n].role == Follower && a.members[n].term in a.reigns
    requires var full, r := a.members[n].log, a.reigns[a.members[n].term].log;
      x <= j <= |r| && x <= |full| && full[..x] == r[..x] && !SameTermAt(full, r, x)
    ensures var full, r := a.members[n].log, a.reigns[a.members[n].term].log;
      && Steps(a, a', n) && a'.reigns == a.reigns && a'.members[n] == a.members[n].(log := r[..j])
      && a.members[n].commit <= x && r[..j][..a.members[n].commit] == full[..a.members[n].commit]
  {
    var full, r := a.members[n].log, a.reigns[a.members[n].term].log;
    CommittedShared(a, n, a.members[n].commit);
    assert r[..a.members[n].commit] <= full;
    a' := Adopt(a, n, j);
    AdoptInv(a, n, j);
    assert r[..j][..a.members[n].commit] == r[..a.members[n].commit];
  }

  lemma PartialTail(full: Log, r: Log, shared: nat, prev: nat, entries: Log, d: nat, e: nat)
    requires Continues(full, r, shared, prev, entries) && Indexed(r, 0) && d <= e <= |entries| && shared <= prev + d <= |full|
    requires full[..prev + d] == r[..prev + d]
    ensures full[..prev + d] + entries[d..e] == r[..prev + e] && Indexed(entries[d..e], prev + d)
  {
    forall k | prev + d <= k < prev + e
      ensures entries[d..e][k - prev - d] == r[k]
    {
      assert entries[k - prev] == r[prev + (k - prev)];
    }
    assert r[..prev + e] == r[..prev + d] + r[prev + d..prev + e];
    assert entries[d..e] == r[prev + d..prev + e];
  }

  /** The log agrees with the leader's up to x and differs there; with the tail it is the leader's up to j. */
  predicate CutAt(s: NodeState, full: Log, r: Log, x: nat, tail: Log, j: nat) {
    && Compacted(s) <= x <= |full| && x <= j <= |r| && full[..x] == r[..x] && !SameTermAt(full, r, x)
    && full[..x] + tail == r[..j] && Indexed(tail, x)
  }

  lemma {:induction false} PartialMerge(s: NodeState, full: Log, r: Log, shared: nat, prev: nat, entries: Log, d: nat, e: nat)
    requires Shows(s, full) && Matching(full, r) && Indexed(r, 0)
    requires Compacted(s) <= shared && Continues(full, r, shared, prev, entries)
    requires d == Divergence(s, prev, entries, 0) < |entries| && d <= e <= |entries|
    ensures CutAt(s, full, r, prev + d, entries[d..e], prev + e)
  {
    CutIsFirstDifference(s, full, r, shared, prev, entries, d);
    PartialTail(full, r, shared, prev, entries, d, e);
  }

  lemma CutRestorable(s: NodeState, m: Member, x: nat, tail: Log, full': Log)
    requires Local(s, m) && Indexed(m.log, 0) && Indexed(tail, x) && Compacted(s) <= x <= |m.log|
    requires full' == m.log[..x] + tail && m.commit <= x
    ensures Restorable(AppendToLog(TruncateFrom(s, x + 1), tail).disk, m.(log := full'))
  {
    var s' := AppendToLog(TruncateFrom(s, x + 1), tail);
    CutShows(s, m.log, x, tail);
    CutKeepsDisk(s, m.log, x, tail);
    CutFrame(s, x, tail);
    assert full'[..m.commit] == m.log[..m.commit];
    AppliedAfterMerge(s, s', m.log, full');
    ShownRestorable(s', m.(log := full'));
  }

  lemma CutFrame(s: NodeState, x: nat, tail: Log)
    ensures var s' := AppendToLog(TruncateFrom(s, x + 1), tail);
      s' == s.(log := s'.log, disk := s.disk.(entries := s'.disk.entries))
  {
  }

  lemma ShownRestorable(s: NodeState, m: Member)
    requires Shows(s, m.log) && DiskOk(s) && AppliedOk(s, m.log) && s.commit == m.commit && s.term == m.term
    requires s.votedFor == (if m.term in m.votes then Some(m.votes[m.term]) else None)
    ensures Restorable(s.disk, m)
  {
  }

  /** The entries behind the first difference, up to e. */
  predicate CutOf(s: NodeState, prev: nat, entries: Log, d: nat, e: nat, x: nat, tail: Log, j: nat) {
    && d == Divergence(s, prev, entries, 0) < |entries| && d <= e <= |entries|
    && x == prev + d && tail == entries[d..e] && j == prev + e
  }

  lemma MergePartIs(s: NodeState, req: AppendRequest, records: nat, d: nat, e: nat, x: nat, tail: Log, j: nat)
    requires CutOf(s, req.prevIndex, req.entries, d, e, x, tail, j) && e == Min(d + records, |req.entries|)
    ensures MergePart(s, req, records) == AppendToLog(TruncateFrom(s, x + 1), tail)
  {
  }

  /** Where a merge of a passing request cuts the log, and which of its records are written before a crash. */
  lemma MergeCut(a: Model, n: Id, s: NodeState, req: AppendRequest, records: nat) returns (x: nat, tail: Log, j: nat)
    requires Inv(a) && n in a.members && Shows(s, a.members[n].log) && req.term in a.reigns
    requires Continues(a.members[n].log, a.reigns[req.term].log, Max(req.prevIndex, Compacted(s)), req.prevIndex, req.entries)
    requires Divergence(s, req.prevIndex, req.entries, 0) < |req.entries|
    ensures CutAt(s, a.members[n].log, a.reigns[req.term].log, x, tail, j)
    ensures MergePart(s, req, records) == AppendToLog(TruncateFrom(s, x + 1), tail)
  {
    var d := Divergence(s, req.prevIndex, req.entries, 0);
    var e := Min(d + records, |req.entries|);
    x, tail, j := req.prevIndex + d, req.entries[d..e], req.prevIndex + e;
    MergePartIs(s, req, records, d, e, x, tail, j);
    MergePlace(a, n, s, req.term, Max(req.prevIndex, Compacted(s)), req.prevIndex, req.entries, d, e, x, tail, j);
  }

  lemma MergePlace(a: Model, n: Id, s: NodeState, t: nat, shared: nat, prev: nat, entries: Log, d: nat, e: nat,
                   x: nat, tail: Log, j: nat)
    requires Inv(a) && n in a.members && Shows(s, a.members[n].log) && t in a.reigns && Compacted(s) <= shared
    requires Continues(a.members[n].log, a.reigns[t].log, shared, prev, entries) && CutOf(s, prev, entries, d, e, x, tail, j)
    ensures CutAt(s, a.members[n].log, a.reigns[t].log, x, tail, j)
  {
    LogPair(a, n, t);
    PartialMerge(s, a.members[n].log, a.reigns[t].log, shared, prev, entries, d, e);
  }

  /** The disk a crash in the middle of a merge leaves: cut at the first difference, with some of the new records. */
  lemma MergePartSim(a: Model, n: Id, s: NodeState, req: AppendRequest, records: nat) returns (a': Model)
    requires Inv(a) && n in a.members && Local(s, a.members[n]) && RequestOk(a, req)
    requires s.term == req.term && s.role == Follower && Conflict(s, req).None?
    requires Divergence(s, req.prevIndex, req.entries, 0) < |req.entries|
    ensures Steps(a, a', n) && Restorable(MergePart(s, req, records).disk, a'.members[n])
    ensures a'.members[n].acks == a.members[n].acks && a'.reigns == a.reigns
  {
    NoConflictShares(a, n, s, req);
    var x, tail, j := MergeCut(a, n, s, req, records);
    a' := CutSim(a, n, s, x, tail, j);
  }

  lemma CutSim(a: Model, n: Id, s: NodeState, x: nat, tail: Log, j: nat) returns (a': Model)
    requires Inv(a) && n in a.members && Local(s, a.members[n]) && s.role == Follower && s.term in a.reigns
    requires CutAt(s, a.members[n].log, a.reigns[s.term].log, x, tail, j)
    ensures Steps(a, a', n) && a'.reigns == a.reigns && a'.members[n].acks == a.members[n].acks
    ensures Restorable(AppendToLog(TruncateFrom(s, x + 1), tail).disk, a'.members[n])
  {
    a' := AdoptPart(a, n, x, j);
    MemberIndexed(a, n);
    CutRestorable(s, a.members[n], x, tail, a.reigns[s.term].log[..j]);
  }

  lemma MidMergeSim(a: Model, n: Id, s: NodeState, req: AppendRequest, records: nat) returns (a': Model)
    requires Inv(a) && n in a.members && Local(s, a.members[n]) && RequestOk(a, req)
    ensures Steps(a, a', n) && Restorable(DiskMidMerge(s, req, records).disk, a'.members[n])
    ensures OnlyFailures(s, DiskMidMerge(s, req, records)) && a'.members[n].acks == a.members[n].acks && a'.reigns == a.reigns
  {
    if req.term < s.term {
      NoSteps(a, n);
      a' := a;
      LocalRestorable(s, a.members[n]);
    } else {
      var a2 := HeedSim(a, n, s, req.term, req.leader);
      var s2 := FollowLeader(ObserveTerm(s, req.term), req.leader);
      RequestHere(a, a2, req);
      a' := FollowerMidMerge(a2, n, s2, req, records);
      StepsTransitive(a, a2, a', n);
      MergePartCalls(s2, req, records);
    }
  }

  lemma FollowerMidMerge(a: Model, n: Id, s: NodeState, req: AppendRequest, records: nat) returns (a': Model)
    requires Inv(a) && n in a.members && Local(s, a.members[n]) && RequestOk(a, req)
    requires s.term == req.term && s.role == Follower
    ensures Steps(a, a', n) && a'.members[n].acks == a.members[n].acks && a'.reigns == a.reigns
    ensures Restorable((if Conflict(s, req).Some? then s else MergePart(s, req, records)).disk, a'.members[n])
  {
    if Conflict(s, req).None? && Divergence(s, req.prevIndex, req.entries, 0) < |req.entries| {
      a' := MergePartSim(a, n, s, req, records);
    } else {
      a' := a;
      LocalRestorable(s, a.members[n]);
    }
  }

  lemma MergePartCalls(s: NodeState, req: AppendRequest, records: nat)
    ensures MergePart(s, req, records).answers == s.answers
  {
  }
}
