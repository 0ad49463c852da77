/** Each handler of one node as protocol steps on the member it stands for. */
module NodeSim {
  import opened Types
  import opened KeyValue
  import opened NodeSpec
  import opened Window
  import opened RaftModel
  import opened RaftSafety
  import opened Refinement

  /** New acknowledgements are of the term the member ends up in. */
  ghost predicate FreshAcks(m: Member, m': Member) {
    forall t :: Acked(m, t) < Acked(m', t) ==> t == m'.term
  }

  /** Protocol steps of member n alone, none of which decides anything. */
  ghost predicate Steps(a: Model, a': Model, n: Id) {
    && Inv(a') && Grows(a, a') && n in a.members && FreshAcks(a.members[n], a'.members[n])
    && (forall o {:trigger a'.members[o]} | o in a.members && o != n :: a'.members[o] == a.members[o])
    && (forall t {:trigger a'.reigns[t]} | t in a'.reigns ::
          a'.reigns[t].decided == if t in a.reigns then a.reigns[t].decided else 0)
  }

  /** Calls answered on the way were about their own entries. */
  ghost predicate NewAnswersOk(s: NodeState, s': NodeState, full: Log) {
    forall x | x in s'.answers && x !in s.answers && x.committed ::
      0 < x.ticket.entry.index <= s'.commit <= |full| && full[x.ticket.entry.index - 1] == x.ticket.entry
  }

  /** Calls answered on the way were all told that leadership was lost. */
  ghost predicate OnlyFailures(s: NodeState, s': NodeState) {
    forall x | x in s'.answers && x !in s.answers :: !x.committed
  }

  lemma FailuresFirst(s: NodeState, s1: NodeState, s2: NodeState, full: Log)
    requires OnlyFailures(s, s1) && NewAnswersOk(s1, s2, full)
    ensures NewAnswersOk(s, s2, full)
  {
  }

  lemma StepsTransitive(a: Model, b: Model, c: Model, n: Id)
    requires Steps(a, b, n) && Steps(b, c, n)
    requires a.members[n].acks == b.members[n].acks || b.members[n].term == c.members[n].term
    ensures Steps(a, c, n)
  {
    GrowsTransitive(a, b, c);
    assert forall t | t in c.reigns :: c.reigns[t].decided == if t in b.reigns then b.reigns[t].decided else 0;
    assert forall t | t in b.reigns :: b.reigns[t].decided == if t in a.reigns then a.reigns[t].decided else 0;
  }

  lemma NoSteps(a: Model, n: Id)
    requires Inv(a) && n in a.members
    ensures Steps(a, a, n)
  {
  }

  lemma MemberIndexed(a: Model, n: Id)
    requires Inv(a) && n in a.members
    ensures Indexed(a.members[n].log, 0)
  {
    assert MemberOk(a, n);
    LogIndexed(a, a.members[n].log);
  }

  // ---- Terms and roles ---------------------------------------------------------------

  /** The parts of a node that say what its log holds and how much of it is applied. */
  predicate SameData(s: NodeState, s': NodeState) {
    && s'.log == s.log && s'.offset == s.offset && s'.commit == s.commit && s'.applied == s.applied && s'.store == s.store
    && s'.disk.entries == s.disk.entries && s'.disk.snapshot == s.disk.snapshot
  }

  lemma SameDataOk(s: NodeState, s': NodeState, full: Log)
    requires Shows(s, full) && AppliedOk(s, full) && DiskOk(s) && SameData(s, s')
    requires s'.disk.term == s'.term && s'.disk.votedFor == s'.votedFor
    ensures Shows(s', full) && AppliedOk(s', full) && DiskOk(s')
  {
  }

  lemma NoWaiters(s: NodeState, full: Log)
    requires s.waiters == map[]
    ensures WaitersOk(s, full)
  {
  }

  lemma AbortShape(s: NodeState, full: Log)
    requires WaitersOk(s, full)
    ensures SetRole(s, Follower) == s.(role := Follower, waiters := map[], answers := SetRole(s, Follower).answers)
    ensures OnlyFailures(s, SetRole(s, Follower))
  {
  }

  lemma StepDownLocal(s: NodeState, m: Member)
    requires Local(s, m)
    ensures Local(SetRole(s, Follower), m.(role := Follower)) && OnlyFailures(s, SetRole(s, Follower))
  {
    var s' := SetRole(s, Follower);
    AbortShape(s, m.log);
    SameDataOk(s, s', m.log);
    NoWaiters(s', m.log);
  }

  lemma ObserveLocal(s: NodeState, m: Member, t: nat)
    requires Local(s, m) && s.term < t && t !in m.votes
    ensures Local(ObserveTerm(s, t), m.(term := t, role := Follower)) && OnlyFailures(s, ObserveTerm(s, t))
  {
    var s' := ObserveTerm(s, t);
    ObserveShape(s, m.log, t);
    SameDataOk(s, s', m.log);
    NoWaiters(s', m.log);
  }

  lemma ObserveShape(s: NodeState, full: Log, t: nat)
    requires WaitersOk(s, full) && s.term < t
    ensures var s' := ObserveTerm(s, t);
      && s' == s.(term := t, votedFor := None, role := Follower, waiters := map[], answers := s'.answers,
                  disk := s.disk.(term := t, votedFor := None))
      && OnlyFailures(s, s')
  {
    AbortShape(s, full);
  }

  lemma GrantLocal(s: NodeState, m: Member, c: Id)
    requires Local(s, m)
    ensures Local(PersistState(s.(votedFor := Some(c))), m.(votes := m.votes[m.term := c]))
  {
    SameDataOk(s, PersistState(s.(votedFor := Some(c))), m.log);
  }

  lemma ObserveSim(a: Model, n: Id, s: NodeState, t: nat) returns (a': Model)
    requires Inv(a) && n in a.members && Local(s, a.members[n])
    ensures Steps(a, a', n) && Local(ObserveTerm(s, t), a'.members[n]) && OnlyFailures(s, ObserveTerm(s, t))
    ensures a' == if t > s.term then Observe(a, n, t) else a
  {
    a' := a;
    if t > s.term {
      assert MemberOk(a, n);
      ObserveLocal(s, a.members[n], t);
      a' := Observe(a, n, t);
      ObserveInv(a, n, t);
    }
  }

  lemma FollowSim(a: Model, n: Id, s: NodeState, leader: Id) returns (a': Model)
    requires Inv(a) && n in a.members && Local(s, a.members[n])
    ensures Steps(a, a', n) && Local(FollowLeader(s, leader), a'.members[n]) && OnlyFailures(s, FollowLeader(s, leader))
    ensures a' == StepDown(a, n)
  {
    StepDownLocal(s, a.members[n]);
    a' := StepDown(a, n);
    StepDownInv(a, n);
  }

  lemma ElectionSim(a: Model, n: Id, s: NodeState) returns (a': Model)
    requires Inv(a) && n in a.members && Local(s, a.members[n]) && s.role != Leader && s.id == n
    ensures Steps(a, a', n) && Local(StartElection(s), a'.members[n])
    ensures a' == Campaign(a, n)
  {
    a' := Campaign(a, n);
    CampaignInv(a, n);
  }

  lemma VoteSim(a: Model, n: Id, s: NodeState, ask: VoteRequest) returns (a': Model)
    requires Inv(a) && n in a.members && Local(s, a.members[n])
    requires ask.candidate in a.members && ask.term in a.members[ask.candidate].bids
    requires ask.lastIndex == |a.members[ask.candidate].bids[ask.term]|
    requires ask.lastTerm == LastTerm(a.members[ask.candidate].bids[ask.term])
    ensures Steps(a, a', n) && a'.reigns == a.reigns && Local(HandleVote(s, ask).0, a'.members[n])
    ensures OnlyFailures(s, HandleVote(s, ask).0)
    ensures HandleVote(s, ask).1.granted ==>
      HandleVote(s, ask).1.term == ask.term && n in VotesFor(a', ask.term, ask.candidate)
  {
    a' := ObserveSim(a, n, s, ask.term);
    var s1, a1 := ObserveTerm(s, ask.term), a';
    if Grants(s1, ask) {
      a' := GrantSim(a1, n, s1, ask);
      StepsTransitive(a, a1, a', n);
    }
  }

  lemma GrantSim(a: Model, n: Id, s: NodeState, ask: VoteRequest) returns (a': Model)
    requires Inv(a) && n in a.members && Local(s, a.members[n]) && Grants(s, ask)
    requires ask.candidate in a.members && ask.term in a.members[ask.candidate].bids
    requires ask.lastIndex == |a.members[ask.candidate].bids[ask.term]|
    requires ask.lastTerm == LastTerm(a.members[ask.candidate].bids[ask.term])
    ensures Steps(a, a', n) && a'.reigns == a.reigns && a'.members[n].acks == a.members[n].acks
    ensures Local(PersistState(s.(votedFor := Some(ask.candidate))), a'.members[n])
    ensures n in VotesFor(a', ask.term, ask.candidate)
  {
    GrantIff(a, n, s, ask);
    GrantLocal(s, a.members[n], ask.candidate);
    a' := Grant(a, n, ask.candidate);
    GrantInv(a, n, ask.candidate);
  }

  /** A vote is granted exactly if the protocol, once the voter has heard of the term, allows it; a refusal says why by its term. */
  lemma VoteIff(a: Model, n: Id, s: NodeState, ask: VoteRequest)
    requires Inv(a) && n in a.members && Local(s, a.members[n])
    requires ask.candidate in a.members && ask.term in a.members[ask.candidate].bids
    requires ask.lastIndex == |a.members[ask.candidate].bids[ask.term]|
    requires ask.lastTerm == LastTerm(a.members[ask.candidate].bids[ask.term])
    ensures HandleVote(s, ask).1.term == Max(s.term, ask.term)
    ensures HandleVote(s, ask).1.granted <==>
      ask.term >= s.term && CanGrant(if ask.term > s.term then Observe(a, n, ask.term) else a, n, ask.candidate)
  {
    var a1 := ObserveSim(a, n, s, ask.term);
    VoteReplyIs(s, ask);
    if ask.term >= s.term { GrantIff(a1, n, ObserveTerm(s, ask.term), ask); }
  }

  lemma VoteReplyIs(s: NodeState, ask: VoteRequest)
    ensures var s1 := ObserveTerm(s, ask.term);
      s1.term == Max(s.term, ask.term) && HandleVote(s, ask).1 == VoteReply(s1.term, Grants(s1, ask))
    ensures ask.term < s.term ==> !Grants(ObserveTerm(s, ask.term), ask)
  {
  }

  /** The voter's check on its window is the protocol's check on its full log, in both directions. */
  lemma GrantIff(a: Model, n: Id, s: NodeState, ask: VoteRequest)
    requires n in a.members && Local(s, a.members[n]) && ask.term == s.term
    requires ask.candidate in a.members && ask.term in a.members[ask.candidate].bids
    requires ask.lastIndex == |a.members[ask.candidate].bids[ask.term]|
    requires ask.lastTerm == LastTerm(a.members[ask.candidate].bids[ask.term])
    ensures Grants(s, ask) <==> CanGrant(a, n, ask.candidate)
  {
    ShowsEntry(s, a.members[n].log, 0);
    ShowsLastTerm(s, a.members[n].log);
  }

  lemma WinSim(a: Model, n: Id, s: NodeState) returns (a': Model)
    requires Inv(a) && CanWin(a, n) && Local(s, a.members[n])
    ensures Steps(a, a', n) && a' == Win(a, n) && Local(BecomeLeader(s), a'.members[n]) && Truthful(a', BecomeLeader(s))
  {
    a' := Win(a, n);
    WinInv(a, n);
  }

  // ---- Applying -----------------------------------------------------------------------

  /** The entry after the last applied one is at hand, and is never the anchor. */
  lemma ApplyStep(s: NodeState, full: Log)
    requires Shows(s, full) && AppliedOk(s, full) && s.applied < s.commit
    ensures EntryAt(s, s.applied + 1) == Some(full[s.applied])
    ensures Shows(ApplyNext(s, full[s.applied]), full) && AppliedOk(ApplyNext(s, full[s.applied]), full)
  {
    var e := full[s.applied];
    ShowsEntry(s, full, s.applied + 1);
    assert full[..s.applied + 1] == full[..s.applied] + [e];
    ReplayOne(map[], full[..s.applied], e);
    NextData(s, e);
  }

  lemma {:induction false} ApplyOne(s: NodeState, full: Log)
    requires Shows(s, full) && AppliedOk(s, full) && s.applied < s.commit
    ensures ApplyCommitted(s) == ApplyCommitted(ApplyNext(s, full[s.applied]))
  {
    ShowsEntry(s, full, s.applied + 1);
    ApplyOn(s, full[s.applied]);
  }

  lemma NextData(s: NodeState, e: Entry)
    ensures var s' := ApplyNext(s, e);
      s' == s.(applied := s.applied + 1, store := Apply(s.store, e.command), waiters := s'.waiters, answers := s'.answers)
  {
  }

  /** Applying touches only the map, the applied index and the blocked calls. */
  lemma {:induction false} ApplyKeeps(s: NodeState)
    ensures var s' := ApplyCommitted(s);
      s' == s.(applied := s'.applied, store := s'.store, waiters := s'.waiters, answers := s'.answers)
    decreases s.commit - s.applied
  {
    if s.applied < s.commit {
      ApplyUnfolds(s);
      if EntryAt(s, s.applied + 1).Some? {
        var e := EntryAt(s, s.applied + 1).value;
        NextData(s, e);
        ApplyKeeps(ApplyNext(s, e));
      }
    }
  }

  /** Applying walks to the commit index without a gap: the map is the replay of the committed prefix. */
  lemma {:induction false} ApplyAll(s: NodeState, full: Log)
    requires Shows(s, full) && AppliedOk(s, full)
    ensures var s' := ApplyCommitted(s);
      s' == s.(applied := s.commit, store := Replay(map[], full[..s.commit]), waiters := s'.waiters, answers := s'.answers)
    decreases s.commit - s.applied
  {
    ApplyKeeps(s);
    AppliesAll(s, full);
  }

  lemma {:induction false} AppliesAll(s: NodeState, full: Log)
    requires Shows(s, full) && AppliedOk(s, full)
    ensures ApplyCommitted(s).applied == s.commit && ApplyCommitted(s).store == Replay(map[], full[..s.commit])
    decreases s.commit - s.applied
  {
    if s.applied < s.commit {
      ApplyStep(s, full);
      ApplyOne(s, full);
      NextData(s, full[s.applied]);
      AppliesAll(ApplyNext(s, full[s.applied]), full);
    }
  }

  lemma WaitersStep(s: NodeState, full: Log)
    requires WaitersOk(s, full) && s.applied < s.commit <= |full| && full[s.applied].index == s.applied + 1
    ensures WaitersOk(ApplyNext(s, full[s.applied]), full)
    ensures NewAnswersOk(s, ApplyNext(s, full[s.applied]), full)
  {
  }

  lemma NewAnswersCompose(s: NodeState, s1: NodeState, s2: NodeState, full: Log)
    requires NewAnswersOk(s, s1, full) && NewAnswersOk(s1, s2, full) && s1.commit <= s2.commit <= |full|
    ensures NewAnswersOk(s, s2, full)
  {
  }

  lemma IndexAt(l: Log, k: nat)
    requires Indexed(l, 0) && k < |l|
    ensures l[k].index == k + 1
  {
  }

  /** Every call applying answers is told about its own entry, and the calls left are still behind lastApplied. */
  lemma {:induction false} ApplyAnswers(s: NodeState, full: Log)
    requires Shows(s, full) && AppliedOk(s, full) && WaitersOk(s, full) && Indexed(full, 0)
    ensures WaitersOk(ApplyCommitted(s), full) && NewAnswersOk(s, ApplyCommitted(s), full)
    decreases s.commit - s.applied
  {
    if s.applied < s.commit {
      IndexAt(full, s.applied);
      var s1 := ApplyNext(s, full[s.applied]);
      ApplyStep(s, full);
      WaitersStep(s, full);
      ApplyOne(s, full);
      ApplyAnswers(s1, full);
      ApplyAll(s1, full);
      NewAnswersCompose(s, s1, ApplyCommitted(s1), full);
    }
  }

  // ---- Accepting a leader's entries ------------------------------------------------------

  lemma LogsMatch(a: Model, l: Log, r: Log)
    requires LogOk(a, l) && LogOk(a, r)
    ensures Matching(l, r)
  {
    forall k | SameTermAt(l, r, k)
      ensures l[..k + 1] == r[..k + 1]
    {
      SameTermSamePrefix(a, l, r, k);
    }
  }

  lemma TermPositive(a: Model, l: Log, k: nat)
    requires Inv(a) && LogOk(a, l) && k < |l|
    ensures l[k].term >= 1
  {
    assert EntryOk(a, l, k) && ReignOk(a, l[k].term);
  }

  /** A committed prefix is in the log of the current term's leader. */
  lemma CommittedShared(a: Model, n: Id, k: nat)
    requires Inv(a) && n in a.members && a.members[n].term in a.reigns && k <= a.members[n].commit
    ensures k <= |a.members[n].log| && k <= |a.reigns[a.members[n].term].log|
    ensures a.members[n].log[..k] == a.reigns[a.members[n].term].log[..k]
  {
    var m := a.members[n];
    assert MemberOk(a, n);
    EndorsedHeld(a, m.log[..m.commit], m.term);
    assert m.log[..k] == m.log[..m.commit][..k];
  }

  /** Passing the consistency check, or skipping it below the anchor, means sharing the leader's log so far. */
  lemma NoConflictShares(a: Model, n: Id, s: NodeState, req: AppendRequest)
    requires Inv(a) && n in a.members && Local(s, a.members[n]) && RequestOk(a, req)
    requires s.term == req.term && Conflict(s, req).None?
    ensures Continues(a.members[n].log, a.reigns[req.term].log, Max(req.prevIndex, Compacted(s)), req.prevIndex, req.entries)
  {
    var full, r := a.members[n].log, a.reigns[req.term].log;
    PrefixShared(a, n, s, req);
    assert req.entries != [] ==> req.prevIndex + |req.entries| <= |r|;
    assert forall j | 0 <= j < |req.entries| :: req.entries[j].term == r[req.prevIndex + j].term;
  }

  lemma PrefixShared(a: Model, n: Id, s: NodeState, req: AppendRequest)
    requires Inv(a) && n in a.members && Local(s, a.members[n]) && req.term in a.reigns
    requires req.prevTerm != 0 ==> 0 < req.prevIndex <= |a.reigns[req.term].log| && a.reigns[req.term].log[req.prevIndex - 1].term == req.prevTerm
    requires s.term == req.term && Conflict(s, req).None?
    ensures var full, r, k := a.members[n].log, a.reigns[req.term].log, Max(req.prevIndex, Compacted(s));
      k <= |full| && k <= |r| && full[..k] == r[..k] && (req.prevIndex > s.offset ==> req.prevTerm != 0)
  {
    CommittedShared(a, n, Compacted(s));
    if req.prevIndex > s.offset { CheckedPrefix(a, n, s, req); }
  }

  lemma CheckedPrefix(a: Model, n: Id, s: NodeState, req: AppendRequest)
    requires Inv(a) && n in a.members && Shows(s, a.members[n].log) && req.term in a.reigns
    requires req.prevTerm != 0 ==> 0 < req.prevIndex <= |a.reigns[req.term].log| && a.reigns[req.term].log[req.prevIndex - 1].term == req.prevTerm
    requires req.prevIndex > s.offset && Conflict(s, req).None?
    ensures var full, r, k := a.members[n].log, a.reigns[req.term].log, req.prevIndex;
      req.prevTerm != 0 && k <= |full| && k <= |r| && full[..k] == r[..k]
  {
    var full, r := a.members[n].log, a.reigns[req.term].log;
    assert MemberOk(a, n) && ReignOk(a, req.term);
    CheckedTerm(s, full, req);
    TermPositive(a, full, req.prevIndex - 1);
    SameTermSamePrefix(a, full, r, req.prevIndex - 1);
  }

  lemma CheckedTerm(s: NodeState, full: Log, req: AppendRequest)
    requires Shows(s, full) && Conflict(s, req).None? && req.prevIndex > s.offset
    ensures req.prevIndex <= |full| && full[req.prevIndex - 1].term == req.prevTerm
  {
    ShowsEntry(s, full, req.prevIndex);
  }

  /** The committed part of the log is not touched by a merge. */
  lemma AppliedAfterMerge(s: NodeState, s': NodeState, full: Log, full': Log)
    requires AppliedOk(s, full) && s.commit <= |full'| && full'[..s.commit] == full[..s.commit]
    requires s' == s.(log := s'.log, disk := s.disk.(entries := s'.disk.entries))
    requires Anchored(s) ==> s.disk.snapshot.value.index <= s.commit
    ensures AppliedOk(s', full')
  {
    assert full'[..s.applied] == full'[..s.commit][..s.applied] == full[..s.applied];
    if Anchored(s) {
      var i := s.disk.snapshot.value.index;
      assert full'[..i] == full'[..s.commit][..i] == full[..i];
      assert full'[i - 1] == full'[..i][i - 1] == full[..i][i - 1];
    }
  }

  lemma AdoptSim(a: Model, n: Id, k: nat) returns (a': Model)
    requires Inv(a) && n in a.members && a.members[n].role == Follower && a.members[n].term in a.reigns
    requires k <= |a.reigns[a.members[n].term].log|
    ensures var full, r := a.members[n].log, a.reigns[a.members[n].term].log;
      && Steps(a, a', n) && a'.reigns == a.reigns
      && a'.members[n] == a.members[n].(log := Merged(full, r, k))
      && a.members[n].commit <= |full| && a.members[n].commit <= |Merged(full, r, k)|
      && Merged(full, r, k)[..a.members[n].commit] == full[..a.members[n].commit]
  {
    var full, r := a.members[n].log, a.reigns[a.members[n].term].log;
    assert MemberOk(a, n);
    if r[..k] <= full {
      a' := a;
      assert a.members[n] == a.members[n].(log := full);
    } else {
      a' := Adopt(a, n, k);
      AdoptInv(a, n, k);
      CommittedShared(a, n, a.members[n].commit);
      assert r[..k][..a.members[n].commit] == r[..a.members[n].commit];
    }
  }

  lemma AckSim(a: Model, n: Id, k: nat) returns (a': Model)
    requires Inv(a) && CanAck(a, n, k)
    ensures Steps(a, a', n) && a'.reigns == a.reigns && AckOf(a', n, a.members[n].term) >= k
    ensures a'.members[n] == a.members[n].(acks := a'.members[n].acks)
  {
    a' := Ack(a, n, k);
    AckInv(a, n, k);
  }

  lemma MergeFrame(s: NodeState, prev: nat, entries: Log)
    ensures var s' := MergeEntries(s, prev, entries); s' == s.(log := s'.log, disk := s.disk.(entries := s'.disk.entries))
  {
  }

  lemma MergeSim(a: Model, n: Id, s: NodeState, req: AppendRequest) returns (a': Model)
    requires Inv(a) && n in a.members && Local(s, a.members[n]) && RequestOk(a, req)
    requires s.term == req.term && s.role == Follower && Conflict(s, req).None?
    ensures Steps(a, a', n) && a'.reigns == a.reigns
    ensures Local(MergeEntries(s, req.prevIndex, req.entries), a'.members[n])
    ensures CanAck(a', n, req.prevIndex + |req.entries|)
    ensures AckOf(a', n, req.term) >= req.prevIndex + |req.entries|
  {
    NoConflictShares(a, n, s, req);
    var a1 := MergeAdopts(a, n, s, req);
    a' := AckSim(a1, n, req.prevIndex + |req.entries|);
    AckedLocal(MergeEntries(s, req.prevIndex, req.entries), a1.members[n], a'.members[n]);
    StepsTransitive(a, a1, a', n);
  }

  lemma AckedLocal(s: NodeState, m: Member, m': Member)
    requires Local(s, m) && m' == m.(acks := m'.acks)
    ensures Local(s, m')
  {
  }

  lemma MergeAdopts(a: Model, n: Id, s: NodeState, req: AppendRequest) returns (a': Model)
    requires Inv(a) && n in a.members && Local(s, a.members[n]) && s.role == Follower && s.term == req.term && req.term in a.reigns
    requires Continues(a.members[n].log, a.reigns[req.term].log, Max(req.prevIndex, Compacted(s)), req.prevIndex, req.entries)
    ensures Steps(a, a', n) && a'.reigns == a.reigns && a'.members[n] == a.members[n].(log := a'.members[n].log)
    ensures Local(MergeEntries(s, req.prevIndex, req.entries), a'.members[n])
    ensures CanAck(a', n, req.prevIndex + |req.entries|)
  {
    LogPair(a, n, req.term);
    a' := AdoptSim(a, n, req.prevIndex + |req.entries|);
    MergedMember(s, a.members[n], a.reigns[req.term].log, req, a'.members[n]);
  }

  lemma MergedMember(s: NodeState, m: Member, r: Log, req: AppendRequest, m': Member)
    requires Local(s, m) && s.role == Follower && Indexed(m.log, 0) && Indexed(r, 0) && Matching(m.log, r)
    requires Continues(m.log, r, Max(req.prevIndex, Compacted(s)), req.prevIndex, req.entries)
    requires m' == m.(log := Merged(m.log, r, req.prevIndex + |req.entries|))
    requires m.commit <= |m.log| && m.commit <= |m'.log| && m'.log[..m.commit] == m.log[..m.commit]
    ensures Local(MergeEntries(s, req.prevIndex, req.entries), m')
  {
    MergedBoth(s, m.log, r, Max(req.prevIndex, Compacted(s)), req.prevIndex, req.entries);
    MergeFrame(s, req.prevIndex, req.entries);
    MergedLocal(s, MergeEntries(s, req.prevIndex, req.entries), m, m'.log);
  }

  lemma MergedLocal(s: NodeState, s': NodeState, m: Member, full': Log)
    requires Local(s, m) && s.role == Follower && s' == s.(log := s'.log, disk := s.disk.(entries := s'.disk.entries))
    requires Shows(s', full') && DiskOk(s') && m.commit <= |full'| && full'[..m.commit] == m.log[..m.commit]
    ensures Local(s', m.(log := full'))
  {
    AppliedAfterMerge(s, s', m.log, full');
  }

  /** A member's log against a leader's: matching, and both indexed. */
  lemma LogPair(a: Model, n: Id, t: nat)
    requires Inv(a) && n in a.members && t in a.reigns
    ensures var full, r := a.members[n].log, a.reigns[t].log; Matching(full, r) && Indexed(full, 0) && Indexed(r, 0)
  {
    assert MemberOk(a, n) && ReignOk(a, t);
    LogsMatch(a, a.members[n].log, a.reigns[t].log);
    LogIndexed(a, a.members[n].log);
    LogIndexed(a, a.reigns[t].log);
  }

  lemma MergedBoth(s: NodeState, full: Log, r: Log, shared: nat, prev: nat, entries: Log)
    requires Shows(s, full) && DiskOk(s) && Indexed(full, 0) && Indexed(r, 0) && Matching(full, r)
    requires Compacted(s) <= shared && Continues(full, r, shared, prev, entries)
    ensures var s' := MergeEntries(s, prev, entries); Shows(s', Merged(full, r, prev + |entries|)) && DiskOk(s')
  {
    MergeKeepsDisk(s, full, r, shared, prev, entries);
    MergeShows(s, full, r, shared, prev, entries);
  }

  lemma LogIndexed(a: Model, l: Log)
    requires LogOk(a, l)
    ensures Indexed(l, 0)
  {
    forall i | 0 <= i < |l|
      ensures l[i].index == i + 1
    {
      assert EntryOk(a, l, i);
    }
  }

  /** Learning a commit index the leader vouches for. */
  lemma LearnSim(a: Model, n: Id, s: NodeState, leaderCommit: nat) returns (a': Model)
    requires Inv(a) && n in a.members && Local(s, a.members[n]) && s.role == Follower
    requires leaderCommit <= |a.members[n].log| && Endorsed(a, a.members[n].log[..leaderCommit], s.term)
    ensures Steps(a, a', n) && a'.reigns == a.reigns && Local(LearnCommit(s, leaderCommit), a'.members[n])
    ensures a'.members[n].acks == a.members[n].acks && a'.members[n].term == a.members[n].term
    ensures NewAnswersOk(s, LearnCommit(s, leaderCommit), a'.members[n].log)
  {
    if leaderCommit > s.commit {
      a' := CommitUp(a, n, s, leaderCommit);
      LearnTo(s, a.members[n].log, leaderCommit);
    } else {
      a' := a;
      NoSteps(a, n);
      LearnNone(s, leaderCommit);
    }
  }

  lemma {:induction false} LearnTo(s: NodeState, full: Log, i: nat)
    requires Shows(s, full) && s.commit < i <= |full|
    ensures LearnCommit(s, i) == ApplyCommitted(s.(commit := i))
  {
    ShowsEntry(s, full, 0);
  }

  lemma LearnNone(s: NodeState, i: nat)
    requires i <= s.commit
    ensures LearnCommit(s, i) == s
  {
  }

  lemma CommitUp(a: Model, n: Id, s: NodeState, i: nat) returns (a': Model)
    requires Inv(a) && n in a.members && Local(s, a.members[n]) && s.role == Follower && s.commit < i
    requires i <= |a.members[n].log| && Endorsed(a, a.members[n].log[..i], s.term)
    ensures Steps(a, a', n) && a'.reigns == a.reigns && a'.members[n] == a.members[n].(commit := i)
    ensures var s' := ApplyCommitted(s.(commit := i)); Local(s', a'.members[n]) && NewAnswersOk(s, s', a'.members[n].log)
  {
    a' := SetCommit(a, n, i);
    SetCommitInv(a, n, i);
    MemberIndexed(a, n);
    CommitLocal(s, a.members[n], i);
  }

  lemma {:induction false} LearnIs(s: NodeState, full: Log, i: nat)
    requires Shows(s, full)
    ensures LearnCommit(s, i) == if i > s.commit then ApplyCommitted(s.(commit := Min(i, |full|))) else s
  {
    ShowsEntry(s, full, 0);
  }

  lemma CommitLocal(s: NodeState, m: Member, i: nat)
    requires Local(s, m) && Indexed(m.log, 0) && s.commit <= i <= |m.log|
    ensures var s' := ApplyCommitted(s.(commit := i)); Local(s', m.(commit := i)) && NewAnswersOk(s, s', m.log)
  {
    CommitMoves(s, m.log, i);
  }

  /** Moving the commit index up and applying keeps everything a node promises about its log. */
  lemma CommitMoves(s: NodeState, full: Log, i: nat)
    requires Shows(s, full) && DiskOk(s) && AppliedOk(s, full) && WaitersOk(s, full) && Indexed(full, 0)
    requires s.commit <= i <= |full|
    ensures var s1 := s.(commit := i); var s' := ApplyCommitted(s1);
      && Shows(s', full) && DiskOk(s') && AppliedOk(s', full) && WaitersOk(s', full) && NewAnswersOk(s1, s', full)
      && s' == s.(commit := i, applied := i, store := s'.store, waiters := s'.waiters, answers := s'.answers)
  {
    var s1 := s.(commit := i);
    ApplyAll(s1, full);
    ApplyAnswers(s1, full);
  }

  /** A follower in the request's term checks it, and merges and commits if it passes. */
  lemma AnswerSim(a: Model, n: Id, s: NodeState, req: AppendRequest) returns (a': Model)
    requires Inv(a) && n in a.members && Local(s, a.members[n]) && RequestOk(a, req)
    requires s.term == req.term && s.role == Follower
    ensures Steps(a, a', n) && a'.reigns == a.reigns && Local(AnswerLeader(s, req).0, a'.members[n])
    ensures NewAnswersOk(s, AnswerLeader(s, req).0, a'.members[n].log)
    ensures AnswerLeader(s, req).1.success ==>
      AnswerLeader(s, req).1.term == req.term && AckOf(a', n, req.term) >= req.prevIndex + |req.entries|
  {
    a' := a;
    if Conflict(s, req).None? {
      var a1 := MergeSim(a, n, s, req);
      var s1 := MergeEntries(s, req.prevIndex, req.entries);
      MergeFrame(s, req.prevIndex, req.entries);
      CommitClamped(a, a1, n, req);
      a' := LearnSim(a1, n, s1, req.commit);
      StepsTransitive(a, a1, a', n);
    }
  }

  /** A node that hears from the leader of its term or a later one follows it. */
  lemma HeedSim(a: Model, n: Id, s: NodeState, t: nat, leader: Id) returns (a': Model)
    requires Inv(a) && n in a.members && Local(s, a.members[n]) && s.term <= t
    ensures var s' := FollowLeader(ObserveTerm(s, t), leader);
      Steps(a, a', n) && Local(s', a'.members[n]) && OnlyFailures(s, s') && s'.term == t && s'.role == Follower
    ensures a'.reigns == a.reigns && a'.members[n].acks == a.members[n].acks
  {
    var a1 := ObserveSim(a, n, s, t);
    a' := FollowSim(a1, n, ObserveTerm(s, t), leader);
    StepsTransitive(a, a1, a', n);
  }

  /** The follower's half of one AppendEntries call. */
  lemma AppendSim(a: Model, n: Id, s: NodeState, req: AppendRequest) returns (a': Model)
    requires Inv(a) && n in a.members && Local(s, a.members[n]) && RequestOk(a, req)
    ensures Steps(a, a', n) && a'.reigns == a.reigns && Local(HandleAppend(s, req).0, a'.members[n])
    ensures NewAnswersOk(s, HandleAppend(s, req).0, a'.members[n].log)
    ensures HandleAppend(s, req).1.success ==>
      HandleAppend(s, req).1.term == req.term && AckOf(a', n, req.term) >= req.prevIndex + |req.entries|
  {
    if req.term < s.term {
      a' := a;
    } else {
      var a2 := HeedSim(a, n, s, req.term, req.leader);
      var s2 := FollowLeader(ObserveTerm(s, req.term), req.leader);
      RequestHere(a, a2, req);
      a' := AnswerSim(a2, n, s2, req);
      StepsTransitive(a, a2, a', n);
      FailuresFirst(s, s2, AnswerLeader(s2, req).0, a'.members[n].log);
    }
  }

  lemma RequestHere(a: Model, a': Model, req: AppendRequest)
    requires Grows(a, a') && Inv(a') && a'.reigns == a.reigns && RequestOk(a, req)
    ensures RequestOk(a', req)
  {
    forall u | u in a'.reigns
      ensures a'.reigns[u].decided <= |a'.reigns[u].log|
    {
      assert ReignOk(a', u);
    }
    EndorsedStays(a, a', a.reigns[req.term].log[..req.commit], req.term, req.term);
  }

  /** The request's commit index lies within the part just verified against the leader. */
  lemma CommitClamped(a: Model, a': Model, n: Id, req: AppendRequest)
    requires Grows(a, a') && Inv(a') && a'.reigns == a.reigns && RequestOk(a, req)
    requires CanAck(a', n, req.prevIndex + |req.entries|) && a'.members[n].term == req.term
    ensures req.commit <= |a'.members[n].log| && Endorsed(a', a'.members[n].log[..req.commit], req.term)
  {
    var r, k := a'.reigns[req.term].log, req.prevIndex + |req.entries|;
    RequestHere(a, a', req);
    assert a'.members[n].log[..req.commit] == r[..k][..req.commit] == r[..req.commit];
  }

  // ---- The leader's side ------------------------------------------------------------------

  /** Entry j of a request is the full log's, except that a command-less anchor may head it, unverified. */
  predicate EntrySent(full: Log, req: AppendRequest, j: nat) {
    j < |req.entries| ==>
      && req.prevIndex + j < |full|
      && req.entries[j].term == full[req.prevIndex + j].term && req.entries[j].index == req.prevIndex + j + 1
      && (req.entries[j] == full[req.prevIndex + j] || (j == 0 && req.prevIndex > 0 && req.prevTerm == 0))
  }

  /** Every request a leader builds continues its own log, and never commits beyond what it sends or names. */
  lemma RequestForOk(a: Model, n: Id, s: NodeState, peer: Id)
    requires Inv(a) && n in a.members && Local(s, a.members[n]) && s.role == Leader
    ensures RequestOk(a, RequestFor(s, peer))
  {
    var full, req := a.members[n].log, RequestFor(s, peer);
    assert MemberOk(a, n);
    LogIndexed(a, full);
    RequestBounds(s, full, peer);
    forall j: nat
      ensures EntrySent(full, req, j)
    {
      if j < |req.entries| { SentEntry(s, full, peer, j); }
    }
    SentRequestOk(a, full, req);
  }

  lemma SentRequestOk(a: Model, full: Log, req: AppendRequest)
    requires req.term in a.reigns && a.reigns[req.term].log == full
    requires forall j: nat {:trigger EntrySent(full, req, j)} :: EntrySent(full, req, j)
    requires req.entries != [] ==> req.prevIndex + |req.entries| == |full|
    requires req.prevTerm != 0 ==> 0 < req.prevIndex <= |full| && full[req.prevIndex - 1].term == req.prevTerm
    requires req.commit <= req.prevIndex + |req.entries| && req.commit <= |full| && Endorsed(a, full[..req.commit], req.term)
    ensures RequestOk(a, req)
  {
    forall j | 0 <= j < |req.entries|
      ensures req.entries[j].term == full[req.prevIndex + j].term && req.entries[j].index == req.prevIndex + j + 1
      ensures req.entries[j] == full[req.prevIndex + j] || (j == 0 && req.prevIndex > 0 && req.prevTerm == 0)
    {
      assert EntrySent(full, req, j);
    }
  }

  lemma RequestBounds(s: NodeState, full: Log, peer: Id)
    requires Shows(s, full)
    ensures var req := RequestFor(s, peer);
      && (req.entries != [] ==> req.prevIndex + |req.entries| == |full|)
      && (req.entries == [] ==> req.prevIndex >= |full|)
      && (req.prevTerm != 0 ==> 0 < req.prevIndex <= |full| && full[req.prevIndex - 1].term == req.prevTerm)
  {
    ShowsEntry(s, full, RequestFor(s, peer).prevIndex);
  }

  lemma SentEntry(s: NodeState, full: Log, peer: Id, j: nat)
    requires Shows(s, full) && Indexed(full, 0) && j < |RequestFor(s, peer).entries|
    ensures EntrySent(full, RequestFor(s, peer), j)
  {
    var k := RequestFor(s, peer).prevIndex + j;
    RequestEntry(s, peer, j);
    WindowEntry(s, full, k + 1);
    if EntryAt(s, k + 1) != Some(full[k]) { AnchorOnly(s, full, k + 1); }
  }

  lemma RequestEntry(s: NodeState, peer: Id, j: nat)
    requires j < |RequestFor(s, peer).entries|
    ensures EntryAt(s, RequestFor(s, peer).prevIndex + j + 1) == Some(RequestFor(s, peer).entries[j])
  {
  }

  lemma WindowEntry(s: NodeState, full: Log, index: nat)
    requires Shows(s, full) && Indexed(full, 0) && EntryAt(s, index).Some?
    ensures index <= |full| && EntryAt(s, index).value.index == index && EntryAt(s, index).value.term == full[index - 1].term
  {
    ShowsEntry(s, full, index);
    ShowsIndexed(s, full);
  }

  /** The only entry of the window that differs from the full log's is the anchor. */
  lemma AnchorOnly(s: NodeState, full: Log, index: nat)
    requires Shows(s, full) && 0 < index <= |full| && EntryAt(s, index).Some? && EntryAt(s, index) != Some(full[index - 1])
    ensures index == s.offset + 1 && s.offset > 0
  {
    ShowsEntry(s, full, index);
  }

  lemma ProposeSim(a: Model, n: Id, s: NodeState, x: Command) returns (a': Model)
    requires Inv(a) && n in a.members && Local(s, a.members[n]) && s.role == Leader
    ensures Steps(a, a', n) && Local(AppendLocal(s, x), a'.members[n])
    ensures var e := Entry(s.term, LastIndex(s) + 1, x); CanPropose(a, n, e) && a' == Propose(a, n, e)
  {
    var e := Entry(s.term, LastIndex(s) + 1, x);
    ProposeAllowed(a, n, s, e);
    a' := Propose(a, n, e);
    ProposeInv(a, n, e);
    ProposeSteps(a, n, e);
    ProposedLocal(a, n, s, e);
  }

  lemma ProposeAllowed(a: Model, n: Id, s: NodeState, e: Entry)
    requires Inv(a) && n in a.members && Local(s, a.members[n]) && s.role == Leader
    requires e.term == s.term && e.index == LastIndex(s) + 1
    ensures CanPropose(a, n, e) && LogOk(a, a.members[n].log)
  {
    assert MemberOk(a, n);
    ShowsEntry(s, a.members[n].log, 0);
  }

  lemma ProposedLocal(a: Model, n: Id, s: NodeState, e: Entry)
    requires CanPropose(a, n, e) && Local(s, a.members[n]) && LogOk(a, a.members[n].log)
    ensures Local(AppendToLog(s, [e]), Propose(a, n, e).members[n])
  {
    var m := a.members[n];
    LogIndexed(a, m.log);
    AppendedLocal(s, m, e);
    SameRecord(AppendToLog(s, [e]), m.(log := m.log + [e]), Propose(a, n, e).members[n]);
  }

  /** What a member acknowledged and campaigned with is not part of its node's state. */
  lemma SameRecord(s: NodeState, m: Member, m': Member)
    requires Local(s, m) && m' == m.(acks := m'.acks, bids := m'.bids)
    ensures Local(s, m')
  {
  }

  lemma ProposeSteps(a: Model, n: Id, e: Entry)
    requires Inv(a) && CanPropose(a, n, e) && Inv(Propose(a, n, e)) && Grows(a, Propose(a, n, e))
    ensures Steps(a, Propose(a, n, e), n)
  {
  }

  lemma AppendedLocal(s: NodeState, m: Member, e: Entry)
    requires Local(s, m) && Indexed(m.log, 0) && e.index == |m.log| + 1
    ensures Local(AppendToLog(s, [e]), m.(log := m.log + [e]))
  {
    var s', full' := AppendToLog(s, [e]), m.log + [e];
    AppendShows(s, m.log, [e]);
    ShowsEntry(s, m.log, 0);
    AppendStored(s.disk.entries, s.disk.snapshot, s.log, s.offset, [e]);
    assert full'[..s.commit] == m.log[..s.commit];
    AppliedAfterMerge(s, s', m.log, full');
    LongerWaiters(s, s', m.log, full');
  }

  lemma LongerWaiters(s: NodeState, s': NodeState, full: Log, full': Log)
    requires WaitersOk(s, full) && full <= full'
    requires s'.waiters == s.waiters && s'.role == s.role && s'.applied == s.applied && s'.term == s.term
    ensures WaitersOk(s', full')
  {
  }
}
