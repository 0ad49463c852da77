/**
  The compacted node does what the uncompacted one would: undoing the compaction before or
  after a handler runs makes no difference, for every request that agrees with what is committed.
 */
module Expansion {
  import opened Types
  import opened NodeSpec
  import opened Window
  import opened Refinement
  import opened NodeSim
  import opened LeaderSim

  /** The same node, had it never compacted. */
  function Expand(n: NodeState, full: Log): NodeState {
    n.(log := full, offset := 0, disk := n.disk.(entries := full, snapshot := None))
  }

  // ---- Elections --------------------------------------------------------------------

  lemma ObserveCommutes(n: NodeState, full: Log, t: nat)
    ensures ObserveTerm(Expand(n, full), t) == Expand(ObserveTerm(n, t), full)
  {
  }

  /** Votes are the same, and so is what remains of the voter. */
  lemma VoteCommutes(n: NodeState, full: Log, req: VoteRequest)
    requires Shows(n, full)
    ensures HandleVote(Expand(n, full), req) == (Expand(HandleVote(n, req).0, full), HandleVote(n, req).1)
  {
    ObserveCommutes(n, full, req.term);
    ObserveKeepsWindow(n, req.term);
    GrantCommutes(ObserveTerm(n, req.term), full, req);
  }

  lemma GrantCommutes(n: NodeState, full: Log, req: VoteRequest)
    requires Shows(n, full)
    ensures Grants(Expand(n, full), req) <==> Grants(n, req)
    ensures PersistState(Expand(n, full).(votedFor := Some(req.candidate))) == Expand(PersistState(n.(votedFor := Some(req.candidate))), full)
  {
    ShowsEntry(n, full, 0);
    ShowsLastTerm(n, full);
    ShowsLastTerm(Expand(n, full), full);
  }

  lemma ObserveKeepsWindow(n: NodeState, t: nat)
    ensures var n1 := ObserveTerm(n, t);
      n1 == n.(term := n1.term, votedFor := n1.votedFor, role := n1.role, waiters := n1.waiters, answers := n1.answers,
               disk := n.disk.(term := n1.disk.term, votedFor := n1.disk.votedFor))
  {
  }

  /** A candidate asks for votes with the same request. */
  lemma ElectionCommutes(n: NodeState, full: Log)
    requires Shows(n, full)
    ensures StartElection(Expand(n, full)) == Expand(StartElection(n), full)
    ensures VoteRequestOf(Expand(n, full)) == VoteRequestOf(n)
  {
    StandCommutes(n, full);
    ShowsEntry(n, full, 0);
    ShowsLastTerm(n, full);
    ShowsLastTerm(Expand(n, full), full);
  }

  lemma StandCommutes(n: NodeState, full: Log)
    ensures StartElection(Expand(n, full)) == Expand(StartElection(n), full)
  {
  }

  // ---- Compaction and recovery ----------------------------------------------------------

  /** Compacting is invisible: the window shows the same full log as before, and nothing outside the window changes. */
  lemma CompactInvisible(n: NodeState, full: Log, f: File)
    requires Shows(n, full) && FileOk(f, full) && n.offset + 1 < f.index
    ensures Shows(CompactTo(n, f), full) && Expand(CompactTo(n, f), full) == Expand(n, full)
  {
    CompactShows(n, f, full);
  }

  // ---- Appending ----------------------------------------------------------------------------

  lemma {:induction false} ViewTailRun(full: Log, o: nat, t: nat)
    requires o < |full|
    ensures o + TailRun(View(full, o), t) == Max(TailRun(full, t), o)
    decreases |full|
  {
    var v, front := View(full, o), full[..|full| - 1];
    assert v[|v| - 1].term == full[|full| - 1].term;
    if full[|full| - 1].term == t {
      if o == |full| - 1 {
        assert v[..|v| - 1] == [];
        TailRunBound(front, t);
      } else {
        assert v[..|v| - 1] == View(front, o);
        ViewTailRun(front, o, t);
      }
    }
  }

  lemma {:induction false} TailRunBound(l: Log, t: nat)
    ensures TailRun(l, t) <= |l|
  {
    if l != [] { TailRunBound(l[..|l| - 1], t); }
  }

  /** Whether the request names an entry both nodes check, or one the compacted node rightly takes for granted. */
  predicate Checkable(n: NodeState, full: Log, req: AppendRequest) {
    req.prevIndex > n.offset || req.prevIndex == 0 || TermAt(full, req.prevIndex) == req.prevTerm
  }

  /** The accept-or-reject decision is the same exactly for such requests. */
  lemma DecisionSame(n: NodeState, full: Log, req: AppendRequest)
    requires Shows(n, full)
    ensures (Conflict(n, req).None? <==> Conflict(Expand(n, full), req).None?) <==> Checkable(n, full, req)
  {
    ShowsEntry(n, full, req.prevIndex);
    ShowsEntry(Expand(n, full), full, req.prevIndex);
  }

  /** A rejection names the same term, and the same index unless that lies below the window. */
  lemma RejectionSame(n: NodeState, full: Log, req: AppendRequest)
    requires Shows(n, full) && Checkable(n, full, req) && Conflict(n, req).Some?
    ensures var r, r' := Conflict(n, req).value, Conflict(Expand(n, full), req);
      r'.Some? && r == r'.value.(conflictIndex := Max(r'.value.conflictIndex, n.offset + 1))
  {
    DecisionSame(n, full, req);
    ShowsEntry(n, full, req.prevIndex);
    ShowsEntry(Expand(n, full), full, req.prevIndex);
    if EntryAt(n, req.prevIndex).Some? {
      var t := EntryAt(n, req.prevIndex).value.term;
      if Anchored(n) { ViewTailRun(full, n.offset, t); }
    }
  }

  /** Merging gives the same log, and touches nothing else. */
  lemma MergeCommutes(n: NodeState, full: Log, r: Log, shared: nat, prev: nat, entries: Log)
    requires Shows(n, full) && Matching(full, r) && Indexed(full, 0)
    requires Compacted(n) <= shared && Continues(full, r, shared, prev, entries)
    ensures var full' := Merged(full, r, prev + |entries|);
      && MergeEntries(Expand(n, full), prev, entries) == Expand(MergeEntries(n, prev, entries), full')
      && Shows(MergeEntries(n, prev, entries), full')
  {
    var m := Expand(n, full);
    MergeShows(n, full, r, shared, prev, entries);
    MergeShows(m, full, r, shared, prev, entries);
    MergeFrame(n, prev, entries);
    PlainMergeDisk(m, full, r, shared, prev, entries);
  }

  lemma PlainMergeDisk(m: NodeState, full: Log, r: Log, shared: nat, prev: nat, entries: Log)
    requires !Anchored(m) && m.disk.entries == full && Shows(m, full) && Matching(full, r) && Indexed(full, 0)
    requires Continues(full, r, shared, prev, entries)
    ensures var m' := MergeEntries(m, prev, entries); m' == m.(log := m'.log, disk := m.disk.(entries := m'.log))
  {
    MergeIs(m, prev, entries);
    var d := CutPoint(m, full, r, shared, prev, entries);
    if d < |entries| { PlainCut(m, full, prev + d, entries[d..]); }
  }

  lemma PlainCut(m: NodeState, full: Log, x: nat, tail: Log)
    requires m.offset == 0 && m.log == m.disk.entries == full && Indexed(full, 0) && x <= |full|
    ensures AppendToLog(TruncateFrom(m, x + 1), tail) == m.(log := full[..x] + tail, disk := m.disk.(entries := full[..x] + tail))
  {
    BeforeIndexed(full, 0, x + 1);
    if x == |full| { assert full[..x] == full; }
  }

  /** Two nodes that show the same log and have the same calls blocked. */
  predicate Alike(n: NodeState, m: NodeState, full: Log) {
    && Shows(n, full) && AppliedOk(n, full) && Shows(m, full) && AppliedOk(m, full)
    && m.applied == n.applied && m.commit == n.commit && m.waiters == n.waiters && m.answers == n.answers
  }

  lemma NextCalls(n: NodeState, m: NodeState, e: Entry)
    requires m.waiters == n.waiters && m.answers == n.answers
    ensures ApplyNext(m, e).waiters == ApplyNext(n, e).waiters && ApplyNext(m, e).answers == ApplyNext(n, e).answers
  {
  }

  lemma NextAlike(n: NodeState, m: NodeState, full: Log)
    requires Alike(n, m, full) && n.applied < n.commit
    ensures Alike(ApplyNext(n, full[n.applied]), ApplyNext(m, full[n.applied]), full)
  {
    ApplyStep(n, full);
    ApplyStep(m, full);
    NextData(n, full[n.applied]);
    NextData(m, full[n.applied]);
    NextCalls(n, m, full[n.applied]);
  }

  lemma {:induction false} CallsAlike(n: NodeState, m: NodeState, full: Log)
    requires Alike(n, m, full)
    ensures ApplyCommitted(n).waiters == ApplyCommitted(m).waiters && ApplyCommitted(n).answers == ApplyCommitted(m).answers
    decreases n.commit - n.applied
  {
    if n.applied < n.commit {
      ApplyOne(n, full);
      ApplyOne(m, full);
      NextAlike(n, m, full);
      NextData(n, full[n.applied]);
      CallsAlike(ApplyNext(n, full[n.applied]), ApplyNext(m, full[n.applied]), full);
    }
  }

  /** Applying does the same to the map and to the blocked calls. */
  lemma {:induction false} ApplyCommutes(n: NodeState, full: Log)
    requires Shows(n, full) && AppliedOk(n, full)
    ensures ApplyCommitted(Expand(n, full)) == Expand(ApplyCommitted(n), full)
  {
    CallsAlike(n, Expand(n, full), full);
    ApplyAll(n, full);
    ApplyAll(Expand(n, full), full);
  }

  lemma LearnCommutes(n: NodeState, full: Log, i: nat)
    requires Shows(n, full) && AppliedOk(n, full)
    ensures LearnCommit(Expand(n, full), i) == Expand(LearnCommit(n, i), full)
  {
    LearnIs(n, full, i);
    LearnIs(Expand(n, full), full, i);
    if i > n.commit { ApplyCommutes(n.(commit := Min(i, |full|)), full); }
  }

  /** A request whose entries continue a log r that has everything the node committed. */
  predicate Agrees(n: NodeState, full: Log, r: Log, req: AppendRequest) {
    && n.commit <= |full| && n.commit <= |r| && full[..n.commit] == r[..n.commit]
    && (req.entries != [] ==> req.prevIndex + |req.entries| <= |r|) && TermAt(r, req.prevIndex) == req.prevTerm
    && (forall j {:trigger req.entries[j]} | 0 <= j < |req.entries| :: req.entries[j] == r[req.prevIndex + j])
  }

  /** The same answer, except that a rejection cannot point below the window. */
  predicate SameReply(n: NodeState, reply: AppendReply, plain: AppendReply) {
    reply == plain || (!reply.success && reply == plain.(conflictIndex := Max(plain.conflictIndex, n.offset + 1)))
  }

  /** The consistency check and what follows it. */
  lemma AnswerCommutes(n: NodeState, full: Log, r: Log, req: AppendRequest)
    requires Shows(n, full) && AppliedOk(n, full) && Indexed(full, 0) && Matching(full, r) && Positive(full) && Agrees(n, full, r, req)
    ensures var (n', reply), (m', reply') := AnswerLeader(n, req), AnswerLeader(Expand(n, full), req);
      m' == Expand(n', m'.log) && Shows(n', m'.log) && SameReply(n, reply, reply')
  {
    AgreesChecks(n, full, r, req);
    DecisionSame(n, full, req);
    if Conflict(n, req).Some? {
      RejectionSame(n, full, req);
    } else {
      AcceptCommutes(n, full, r, req);
    }
  }

  lemma AcceptCommutes(n: NodeState, full: Log, r: Log, req: AppendRequest)
    requires Shows(n, full) && AppliedOk(n, full) && Indexed(full, 0) && Matching(full, r) && Positive(full) && Agrees(n, full, r, req)
    requires Conflict(n, req).None?
    ensures req.prevIndex + |req.entries| <= |r|
    ensures var n', full' := LearnCommit(MergeEntries(n, req.prevIndex, req.entries), req.commit), Merged(full, r, req.prevIndex + |req.entries|);
      && LearnCommit(MergeEntries(Expand(n, full), req.prevIndex, req.entries), req.commit) == Expand(n', full')
      && Shows(n', full')
  {
    AcceptedWithin(n, full, r, req);
    var full' := MergedBoth(n, full, r, req);
    LearnBoth(MergeEntries(n, req.prevIndex, req.entries), MergeEntries(Expand(n, full), req.prevIndex, req.entries), full', req.commit);
  }

  lemma MergedBoth(n: NodeState, full: Log, r: Log, req: AppendRequest) returns (full': Log)
    requires Shows(n, full) && AppliedOk(n, full) && Indexed(full, 0) && Matching(full, r) && Positive(full) && Agrees(n, full, r, req)
    requires Conflict(n, req).None? && req.prevIndex + |req.entries| <= |r|
    ensures full' == Merged(full, r, req.prevIndex + |req.entries|)
    ensures var n' := MergeEntries(n, req.prevIndex, req.entries);
      && Shows(n', full') && AppliedOk(n', full') && MergeEntries(Expand(n, full), req.prevIndex, req.entries) == Expand(n', full')
  {
    full' := Merged(full, r, req.prevIndex + |req.entries|);
    AgreesContinued(n, full, r, req);
    ContinuedMerge(n, full, r, req.prevIndex, req.entries);
    MergedApplied(n, full, r, req);
  }

  lemma AgreesContinued(n: NodeState, full: Log, r: Log, req: AppendRequest)
    requires Shows(n, full) && AppliedOk(n, full) && Matching(full, r) && Positive(full) && Agrees(n, full, r, req)
    requires Conflict(n, req).None?
    ensures Continued(n, full, r, req.prevIndex, req.entries)
  {
    var shared := AgreesShares(n, full, r, req);
  }

  ghost predicate Continued(n: NodeState, full: Log, r: Log, prev: nat, entries: Log) {
    exists shared: nat :: Compacted(n) <= shared && Continues(full, r, shared, prev, entries)
  }

  lemma ContinuedMerge(n: NodeState, full: Log, r: Log, prev: nat, entries: Log)
    requires Shows(n, full) && Matching(full, r) && Indexed(full, 0) && Continued(n, full, r, prev, entries)
    ensures var n', full' := MergeEntries(n, prev, entries), Merged(full, r, prev + |entries|);
      MergeEntries(Expand(n, full), prev, entries) == Expand(n', full') && Shows(n', full')
  {
    var shared: nat :| Compacted(n) <= shared && Continues(full, r, shared, prev, entries);
    MergeCommutes(n, full, r, shared, prev, entries);
  }

  lemma LearnBoth(n: NodeState, m: NodeState, full: Log, i: nat)
    requires Shows(n, full) && AppliedOk(n, full) && m == Expand(n, full)
    ensures LearnCommit(m, i) == Expand(LearnCommit(n, i), full) && Shows(LearnCommit(n, i), full)
  {
    LearnCommutes(n, full, i);
    LearnKeepsWindow(n, full, i);
  }

  predicate Positive(l: Log) {
    forall k | 0 <= k < |l| :: l[k].term > 0
  }

  lemma AgreesChecks(n: NodeState, full: Log, r: Log, req: AppendRequest)
    requires Shows(n, full) && AppliedOk(n, full) && Agrees(n, full, r, req)
    ensures Checkable(n, full, req)
  {
    if 0 < req.prevIndex <= n.offset { SharedTerm(full, r, n.commit, req.prevIndex - 1); }
  }

  /** A request that overshoots r is empty, and is turned down. */
  lemma AcceptedWithin(n: NodeState, full: Log, r: Log, req: AppendRequest)
    requires Shows(n, full) && AppliedOk(n, full) && Positive(full) && Agrees(n, full, r, req) && Conflict(n, req).None?
    ensures req.prevIndex + |req.entries| <= |r|
  {
    ShowsEntry(n, full, req.prevIndex);
  }

  lemma AgreesShares(n: NodeState, full: Log, r: Log, req: AppendRequest) returns (shared: nat)
    requires Shows(n, full) && AppliedOk(n, full) && Matching(full, r) && Positive(full) && Agrees(n, full, r, req)
    requires Conflict(n, req).None?
    ensures Compacted(n) <= shared && Continues(full, r, shared, req.prevIndex, req.entries)
  {
    shared := Max(req.prevIndex, Compacted(n));
    AcceptedWithin(n, full, r, req);
    ShowsEntry(n, full, req.prevIndex);
    assert full[..Compacted(n)] == full[..n.commit][..Compacted(n)] == r[..n.commit][..Compacted(n)] == r[..Compacted(n)];
    if req.prevIndex > Compacted(n) { assert SameTermAt(full, r, req.prevIndex - 1); }
  }

  lemma MergedApplied(n: NodeState, full: Log, r: Log, req: AppendRequest)
    requires Shows(n, full) && AppliedOk(n, full) && Agrees(n, full, r, req) && req.prevIndex + |req.entries| <= |r|
    ensures AppliedOk(MergeEntries(n, req.prevIndex, req.entries), Merged(full, r, req.prevIndex + |req.entries|))
  {
    var k := req.prevIndex + |req.entries|;
    MergeFrame(n, req.prevIndex, req.entries);
    MergedKeeps(full, r, n.commit, k);
    AppliedAfterMerge(n, MergeEntries(n, req.prevIndex, req.entries), full, Merged(full, r, k));
  }

  lemma MergedKeeps(full: Log, r: Log, c: nat, k: nat)
    requires c <= |full| && c <= |r| && full[..c] == r[..c] && k <= |r|
    ensures c <= |Merged(full, r, k)| && Merged(full, r, k)[..c] == full[..c]
  {
    if k < c {
      assert r[..k] == r[..c][..k] == full[..c][..k] == full[..k];
    } else {
      assert r[..k][..c] == r[..c];
    }
  }

  lemma LearnKeepsWindow(n: NodeState, full: Log, i: nat)
    requires Shows(n, full) && AppliedOk(n, full)
    ensures Shows(LearnCommit(n, i), full)
  {
    ShowsEntry(n, full, 0);
    if i > n.commit { ApplyAll(n.(commit := Min(i, |full|)), full); }
  }

  /** The follower's half of an AppendEntries call commutes with undoing the compaction. */
  lemma AppendCommutes(n: NodeState, full: Log, r: Log, req: AppendRequest)
    requires Shows(n, full) && AppliedOk(n, full) && Indexed(full, 0) && Matching(full, r) && Positive(full) && Agrees(n, full, r, req)
    ensures var (n', reply), (m', reply') := HandleAppend(n, req), HandleAppend(Expand(n, full), req);
      m' == Expand(n', m'.log) && Shows(n', m'.log) && SameReply(n, reply, reply')
  {
    var n1 := ObserveTerm(n, req.term);
    ObserveCommutes(n, full, req.term);
    ObserveKeepsWindow(n, req.term);
    if req.term >= n1.term {
      var n2 := FollowLeader(n1, req.leader);
      FollowCommutes(n1, full, req.leader);
      FollowKeepsWindow(n1, req.leader);
      AnswerCommutes(n2, full, r, req);
    }
  }

  lemma FollowCommutes(n: NodeState, full: Log, leader: Id)
    ensures FollowLeader(Expand(n, full), leader) == Expand(FollowLeader(n, leader), full)
  {
  }

  lemma FollowKeepsWindow(n: NodeState, leader: Id)
    ensures var n1 := FollowLeader(n, leader);
      n1 == n.(role := n1.role, waiters := n1.waiters, answers := n1.answers, leader := n1.leader)
  {
  }

  // ---- Leading ------------------------------------------------------------------------------

  /** A compacted candidate counts votes and takes over as the uncompacted one would. */
  lemma VoteReplyCommutes(n: NodeState, full: Log, t: nat, reply: VoteReply)
    requires Shows(n, full)
    ensures HandleVoteReply(Expand(n, full), t, reply) == Expand(HandleVoteReply(n, t, reply), full)
  {
    ShowsEntry(n, full, 0);
    if reply.term > n.term {
      ObserveCommutes(n, full, reply.term);
    } else {
      ElectedCommutes(n.(votes := n.votes + 1), full);
    }
  }

  lemma ElectedCommutes(n: NodeState, full: Log)
    requires LastIndex(n) == |full|
    ensures BecomeLeader(Expand(n, full)) == Expand(BecomeLeader(n), full)
  {
  }

  /** A client's write gets the same index and entry. */
  lemma WriteCommutes(n: NodeState, full: Log, x: Command)
    requires Shows(n, full)
    ensures var full' := if n.role == Leader then full + [Entry(n.term, |full| + 1, x)] else full;
      ProposeSync(Expand(n, full), x) == Expand(ProposeSync(n, x), full') && Shows(ProposeSync(n, x), full')
  {
    ShowsEntry(n, full, 0);
    SyncCommutes(n, full, x);
    if n.role == Leader { AppendedShows(n, full, Entry(n.term, |full| + 1, x)); }
  }

  lemma SyncCommutes(n: NodeState, full: Log, x: Command)
    requires LastIndex(n) == |full|
    ensures var full' := if n.role == Leader then full + [Entry(n.term, |full| + 1, x)] else full;
      ProposeSync(Expand(n, full), x) == Expand(ProposeSync(n, x), full')
  {
  }

  lemma AppendedShows(n: NodeState, full: Log, e: Entry)
    requires Shows(n, full)
    ensures Shows(AppendToLog(n, [e]), full + [e])
  {
    if Anchored(n) { assert View(full + [e], n.offset) == View(full, n.offset) + [e]; }
  }

  lemma CanCommitSame(n: NodeState, full: Log, index: nat)
    requires Shows(n, full) && n.offset < index
    ensures CanCommit(Expand(n, full), index) <==> CanCommit(n, index)
  {
    ShowsEntry(n, full, index);
    ShowsEntry(Expand(n, full), full, index);
  }

  lemma {:induction false} FindCommitSame(n: NodeState, full: Log, index: nat)
    requires Shows(n, full) && n.offset <= n.commit
    ensures FindCommit(Expand(n, full), index) == FindCommit(n, index)
    decreases index
  {
    if index > n.commit {
      CanCommitSame(n, full, index);
      FindCommitSame(n, full, index - 1);
    }
  }

  lemma {:induction false} AdvanceCommutes(n: NodeState, full: Log)
    requires Shows(n, full) && AppliedOk(n, full)
    ensures AdvanceCommit(Expand(n, full)) == Expand(AdvanceCommit(n), full)
  {
    var i := FoundSame(n, full);
    AdvanceIs(n, i);
    AdvanceIs(Expand(n, full), i);
    if i > n.commit { CommitCommutes(n, full, i); }
  }

  lemma {:induction false} FoundSame(n: NodeState, full: Log) returns (i: nat)
    requires Shows(n, full) && n.offset <= n.commit
    ensures i == FindCommit(n, LastIndex(n)) == FindCommit(Expand(n, full), LastIndex(Expand(n, full)))
    ensures i > n.commit ==> i <= |full|
  {
    ShowsEntry(n, full, 0);
    i := FindCommit(n, |full|);
    FindCommitSame(n, full, |full|);
    FindCommitFound(n, |full|);
  }

  lemma {:induction false} CommitCommutes(n: NodeState, full: Log, i: nat)
    requires Shows(n, full) && AppliedOk(n, full) && n.commit <= i <= |full|
    ensures ApplyCommitted(Expand(n, full).(commit := i)) == Expand(ApplyCommitted(n.(commit := i)), full)
  {
    var m := n.(commit := i);
    assert Expand(n, full).(commit := i) == Expand(m, full);
    ApplyCommutes(m, full);
  }

  lemma {:induction false} AdvanceIs(n: NodeState, i: nat)
    requires i == FindCommit(n, LastIndex(n))
    ensures AdvanceCommit(n) == if i > n.commit then ApplyCommitted(n.(commit := i)) else n
  {
  }

  /** An acknowledgement, or a reply of a later term, does the same to the leader and its commit index. */
  lemma {:induction false} ReplyCommutes(n: NodeState, full: Log, peer: Id, req: AppendRequest, reply: AppendReply)
    requires Shows(n, full) && AppliedOk(n, full) && (reply.success || reply.term > n.term)
    ensures FinishAppend(Expand(n, full), peer, req, reply) == Expand(FinishAppend(n, peer, req, reply), full)
  {
    var k := req.prevIndex + |req.entries|;
    ObserveCommutes(n, full, reply.term);
    ReplyIs(n, peer, req, reply, k);
    ReplyIs(Expand(n, full), peer, req, reply, k);
    RecordCommutes(n, full, peer, k);
    AdvanceCommutes(RecordMatch(n, peer, k), full);
  }

  lemma {:induction false} ReplyIs(n: NodeState, peer: Id, req: AppendRequest, reply: AppendReply, k: nat)
    requires (reply.success || reply.term > n.term) && k == req.prevIndex + |req.entries|
    ensures FinishAppend(n, peer, req, reply) ==
      if n.role != Leader || n.term != req.term then n
      else if reply.term > n.term then ObserveTerm(n, reply.term)
      else AdvanceCommit(RecordMatch(n, peer, k))
  {
  }

  lemma RecordCommutes(n: NodeState, full: Log, peer: Id, k: nat)
    requires Shows(n, full) && AppliedOk(n, full)
    ensures RecordMatch(Expand(n, full), peer, k) == Expand(RecordMatch(n, peer, k), full)
    ensures Shows(RecordMatch(n, peer, k), full) && AppliedOk(RecordMatch(n, peer, k), full)
  {
  }

  /** What the leader sends to a peer is the same exactly if the peer's next index lies behind the anchor. */
  lemma RequestSame(n: NodeState, full: Log, peer: Id)
    requires Shows(n, full) && Positive(full) && Anchored(n) && peer in n.nextIndex && n.nextIndex[peer] > 0
    ensures RequestFor(n, peer) == RequestFor(Expand(n, full), peer) <==> n.nextIndex[peer] > n.offset + 1
  {
    var next := n.nextIndex[peer];
    ShowsEntry(n, full, 0);
    ShowsEntry(n, full, n.offset);
    ShowsEntry(n, full, next - 1);
    ShowsEntry(Expand(n, full), full, next - 1);
    if next > n.offset + 1 { assert EntriesFrom(n, next) == EntriesFrom(Expand(n, full), next); }
  }

  /** Looking for a term from the end finds the same, unless the last entry of the term is compacted away. */
  lemma {:induction false} ViewScanBack(full: Log, o: nat, t: nat)
    requires o < |full|
    ensures var k := ScanBack(full, t); ScanBack(View(full, o), t) == if k > o then k - o else 0
    decreases |full|
  {
    var v, front := View(full, o), full[..|full| - 1];
    assert v[|v| - 1].term == full[|full| - 1].term;
    if full[|full| - 1].term > t {
      ScanBound(front, t);
      if o == |full| - 1 {
        assert v[..|v| - 1] == [];
      } else {
        assert v[..|v| - 1] == View(front, o);
        ViewScanBack(front, o, t);
      }
    }
  }

  lemma {:induction false} ScanBound(l: Log, t: nat)
    ensures ScanBack(l, t) <= |l|
  {
    if l != [] { ScanBound(l[..|l| - 1], t); }
  }

  /** So a rejection moves nextIndex to the same place, unless it names a term whose last entry is compacted away. */
  lemma RejectedCommutes(n: NodeState, full: Log, peer: Id, req: AppendRequest, reply: AppendReply)
    requires Shows(n, full) && !reply.success && reply.term <= n.term
    requires reply.conflictTerm == 0 || ScanBack(full, reply.conflictTerm) == 0 || ScanBack(full, reply.conflictTerm) > n.offset
    ensures FinishAppend(Expand(n, full), peer, req, reply) == Expand(FinishAppend(n, peer, req, reply), full)
  {
    if Anchored(n) { ViewScanBack(full, n.offset, reply.conflictTerm); }
    assert BackOff(Expand(n, full), reply) == BackOff(n, reply);
  }
}
