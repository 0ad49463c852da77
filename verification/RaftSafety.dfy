/** Every step of the protocol keeps the invariant. */
module RaftSafety {
  import opened Types
  import opened Quorums
  import opened RaftModel

  // ---- Facts that survive growth -----------------------------------------------

  lemma LogOkStays(s: Model, s': Model, l: Log)
    requires Grows(s, s') && LogOk(s, l)
    ensures LogOk(s', l)
  {
    forall k | 0 <= k < |l|
      ensures EntryOk(s', l, k)
    {
      assert EntryOk(s, l, k);
      assert ReignGrows(s.reigns[l[k].term], s'.reigns[l[k].term]);
    }
  }

  lemma EndorsedStays(s: Model, s': Model, p: Log, t: nat, t': nat)
    requires Grows(s, s') && Endorsed(s, p, t) && t <= t'
    requires forall u | u in s'.reigns :: s'.reigns[u].decided <= |s'.reigns[u].log|
    ensures Endorsed(s', p, t')
  {
    if p != [] {
      var u: nat :| u <= t && EndorsedBy(s, p, u);
      var r, r' := s.reigns[u], s'.reigns[u];
      assert ReignGrows(r, r');
      assert r.log[..r.decided] <= r'.log[..r'.decided];
      assert EndorsedBy(s', p, u);
    }
  }

  /** What a quorum can still acknowledge only shrinks. */
  lemma ChoosableShrinks(s: Model, s': Model, t: nat, i: nat)
    requires Grows(s, s') && Choosable(s', t, i)
    ensures Choosable(s, t, i)
  {
    forall n | n in Able(s', t, i)
      ensures n in Able(s, t, i)
    {
      assert MemberGrows(s.members[n], s'.members[n]);
    }
    QuorumGrows(Able(s', t, i), Able(s, t, i), s.members.Keys);
  }

  /** What a leader decided was choosable. */
  lemma DecidedChoosable(s: Model, t: nat)
    requires Inv(s) && t in s.reigns && s.reigns[t].decided > 0
    ensures OwnTerm(s, t, s.reigns[t].decided) && Choosable(s, t, s.reigns[t].decided)
  {
    assert ReignOk(s, t);
    var i := s.reigns[t].decided;
    QuorumGrows(AckSet(s, t, i), Able(s, t, i), s.members.Keys);
  }

  // ---- The frame of a step: only member n and reigns led by n change --------------

  ghost predicate Frame(s: Model, s': Model, n: Id) {
    && Grows(s, s') && n in s.members
    && (forall m | m in s.members && m != n :: s'.members[m] == s.members[m])
    && (forall t | t in s'.reigns && !(t in s.reigns && s'.reigns[t] == s.reigns[t]) :: s'.reigns[t].leader == n)
    && (forall t | t in s'.reigns :: s'.reigns[t].decided <= |s'.reigns[t].log|)
  }

  lemma OtherMemberOk(s: Model, s': Model, n: Id, o: Id)
    requires Inv(s) && Frame(s, s', n) && o in s.members && o != n
    ensures MemberOk(s', o)
  {
    var m := s.members[o];
    assert MemberOk(s, o);
    LogOkStays(s, s', m.log);
    HistoryStays(s, s', m);
    EndorsedStays(s, s', m.log[..m.commit], m.term, m.term);
    BidStays(s, s', m, m);
    if m.term in s.reigns { assert ReignGrows(s.reigns[m.term], s'.reigns[m.term]); }
  }

  lemma BidStays(s: Model, s': Model, m: Member, m': Member)
    requires Grows(s, s') && m'.log == m.log && m'.term == m.term
    requires forall u | u in s'.reigns :: s'.reigns[u].decided <= |s'.reigns[u].log|
    ensures forall bid {:trigger BidKept(s', m', bid)} | BidKept(s, m, bid) :: BidKept(s', m', bid)
  {
    if Endorsed(s, m.log, m.term) { EndorsedStays(s, s', m.log, m.term, m.term); }
  }

  lemma HistoryStays(s: Model, s': Model, m: Member)
    requires Grows(s, s') && VotesOk(s, m) && AcksOk(s, m) && BidsOk(s, m)
    ensures VotesOk(s', m) && AcksOk(s', m) && BidsOk(s', m)
  {
    forall t | t in m.votes
      ensures t in s'.members[m.votes[t]].bids
    {
      assert MemberGrows(s.members[m.votes[t]], s'.members[m.votes[t]]);
    }
    forall t | t in m.acks
      ensures t in s'.reigns && m.acks[t] <= |s'.reigns[t].log|
    {
      assert ReignGrows(s.reigns[t], s'.reigns[t]);
    }
    forall t | t in m.bids
      ensures LogOk(s', m.bids[t])
    {
      LogOkStays(s, s', m.bids[t]);
    }
  }

  lemma VotesForGrow(s: Model, s': Model, t: nat, c: Id)
    requires Grows(s, s') && IsQuorum(VotesFor(s, t, c), s.members.Keys)
    ensures IsQuorum(VotesFor(s', t, c), s'.members.Keys)
  {
    forall n | n in VotesFor(s, t, c)
      ensures n in VotesFor(s', t, c)
    {
      assert MemberGrows(s.members[n], s'.members[n]);
    }
    QuorumGrows(VotesFor(s, t, c), VotesFor(s', t, c), s.members.Keys);
  }

  lemma AckSetGrows(s: Model, s': Model, t: nat, i: nat)
    requires Grows(s, s') && IsQuorum(AckSet(s, t, i), s.members.Keys)
    ensures IsQuorum(AckSet(s', t, i), s'.members.Keys)
  {
    forall n | n in AckSet(s, t, i)
      ensures n in AckSet(s', t, i)
    {
      assert MemberGrows(s.members[n], s'.members[n]);
    }
    QuorumGrows(AckSet(s, t, i), AckSet(s', t, i), s.members.Keys);
  }

  lemma SameReignOk(s: Model, s': Model, t: nat)
    requires Inv(s) && Grows(s, s') && t in s.reigns && s'.reigns[t] == s.reigns[t]
    ensures ReignOk(s', t)
  {
    var r := s.reigns[t];
    assert ReignOk(s, t);
    LogOkStays(s, s', r.log);
    VotesForGrow(s, s', t, r.leader);
    assert MemberGrows(s.members[r.leader], s'.members[r.leader]);
    if r.decided > 0 { AckSetGrows(s, s', t, r.decided); }
  }

  predicate SameReign(s: Model, s': Model, u: nat) {
    u in s.reigns && u in s'.reigns && s'.reigns[u] == s.reigns[u]
  }

  lemma MembersOkAfter(s: Model, s': Model, n: Id)
    requires Inv(s) && Frame(s, s', n) && MemberOk(s', n)
    ensures forall o {:trigger MemberOk(s', o)} | o in s'.members :: MemberOk(s', o)
  {
    forall o | o in s'.members
      ensures MemberOk(s', o)
    {
      if o != n { OtherMemberOk(s, s', n, o); }
    }
  }

  lemma ReignsOkAfter(s: Model, s': Model)
    requires Inv(s) && Grows(s, s')
    requires forall u {:trigger ReignOk(s', u)} | u in s'.reigns && !SameReign(s, s', u) :: ReignOk(s', u)
    ensures forall u {:trigger ReignOk(s', u)} | u in s'.reigns :: ReignOk(s', u)
  {
    forall u | u in s'.reigns
      ensures ReignOk(s', u)
    {
      if SameReign(s, s', u) { SameReignOk(s, s', u); }
    }
  }

  /** A member the step did not touch keeps what it acknowledged. */
  lemma OtherMemberKeeps(s: Model, s': Model, n: Id, o: Id, t: nat, i: nat)
    requires Inv(s) && Frame(s, s', n) && o in s.members && o != n
    requires OwnTerm(s, t, i) && Choosable(s', t, i)
    ensures KeptByMember(s', o, t, i)
  {
    ChoosableShrinks(s, s', t, i);
    assert SafeAt(s, t, i);
    assert KeptByMember(s, o, t, i);
    assert ReignGrows(s.reigns[t], s'.reigns[t]);
  }

  lemma SameReignKeeps(s: Model, s': Model, u: nat, t: nat, i: nat)
    requires Inv(s) && Grows(s, s') && SameReign(s, s', u) && OwnTerm(s, t, i) && Choosable(s', t, i)
    ensures KeptByReign(s', u, t, i)
  {
    ChoosableShrinks(s, s', t, i);
    assert SafeAt(s, t, i);
    assert KeptByReign(s, u, t, i);
    assert ReignGrows(s.reigns[t], s'.reigns[t]);
  }

  /** A vote cast before the step still points at a safe bid: acknowledgements in past terms are frozen. */
  lemma OldVoteKeeps(s: Model, s': Model, o: Id, u: nat, t: nat, i: nat)
    requires Inv(s) && Grows(s, s') && o in s.members && u in s.members[o].votes
    requires OwnTerm(s, t, i) && Choosable(s', t, i)
    ensures KeptByVote(s', o, u, t, i)
  {
    ChoosableShrinks(s, s', t, i);
    assert SafeAt(s, t, i);
    assert KeptByVote(s, o, u, t, i);
    VoteStays(s, s', o, u, t);
    assert ReignGrows(s.reigns[t], s'.reigns[t]);
  }

  lemma VoteStays(s: Model, s': Model, o: Id, u: nat, t: nat)
    requires Inv(s) && Grows(s, s') && o in s.members && u in s.members[o].votes
    ensures BidFor(s', o, u) == BidFor(s, o, u) && (t < u ==> AckOf(s', o, t) == AckOf(s, o, t))
  {
    assert MemberOk(s, o) && MemberGrows(s.members[o], s'.members[o]);
    var c := s.members[o].votes[u];
    assert MemberGrows(s.members[c], s'.members[c]);
  }

  /** What a step on member n must show about one choosable prefix. */
  predicate Due(s: Model, s': Model, n: Id, t: nat, i: nat) {
    if OwnTerm(s, t, i) then
      && KeptByMember(s', n, t, i)
      && (forall u {:trigger KeptByVote(s', n, u, t, i)} |
            n in s'.members && n in s.members && u in s'.members[n].votes && u !in s.members[n].votes :: KeptByVote(s', n, u, t, i))
      && (forall u {:trigger KeptByReign(s', u, t, i)} | u in s'.reigns && !SameReign(s, s', u) :: KeptByReign(s', u, t, i))
    else
      SafeAt(s', t, i)
  }

  lemma DueSuffices(s: Model, s': Model, n: Id, t: nat, i: nat)
    requires Inv(s) && Frame(s, s', n) && OwnTerm(s, t, i) && Choosable(s', t, i) && Due(s, s', n, t, i)
    ensures SafeAt(s', t, i)
  {
    forall o | o in s'.members
      ensures KeptByMember(s', o, t, i)
    {
      if o != n { OtherMemberKeeps(s, s', n, o, t, i); }
    }
    forall o, u | o in s'.members && u in s'.members[o].votes
      ensures KeptByVote(s', o, u, t, i)
    {
      if u in s.members[o].votes { OldVoteKeeps(s, s', o, u, t, i); }
    }
    forall u | u in s'.reigns
      ensures KeptByReign(s', u, t, i)
    {
      if SameReign(s, s', u) { SameReignKeeps(s, s', u, t, i); }
    }
  }

  /** A step keeps the invariant once its own member, its own reign and its dues are settled. */
  lemma StepInv(s: Model, s': Model, n: Id)
    requires Inv(s) && Frame(s, s', n) && MemberOk(s', n)
    requires forall u {:trigger ReignOk(s', u)} | u in s'.reigns && !SameReign(s, s', u) :: ReignOk(s', u)
    requires forall t: nat, i: nat {:trigger Due(s, s', n, t, i)} | OwnTerm(s', t, i) && Choosable(s', t, i) :: Due(s, s', n, t, i)
    ensures Inv(s')
  {
    MembersOkAfter(s, s', n);
    ReignsOkAfter(s, s');
    forall t: nat, i: nat | OwnTerm(s', t, i) && Choosable(s', t, i)
      ensures SafeAt(s', t, i)
    {
      assert Due(s, s', n, t, i);
      if OwnTerm(s, t, i) { DueSuffices(s, s', n, t, i); }
    }
  }

  // ---- Steps that change one member and no reign ------------------------------------------

  /** The frame of a quiet step, and what the untouched parts of the member keep. */
  lemma QuietFrame(s: Model, s': Model, n: Id)
    requires Inv(s) && n in s.members && n in s'.members && s' == s.(members := s.members[n := s'.members[n]])
    requires MemberGrows(s.members[n], s'.members[n])
    ensures Frame(s, s', n)
    ensures forall u | u in s'.reigns :: SameReign(s, s', u)
  {
    forall t | t in s.reigns
      ensures s.reigns[t].decided <= |s.reigns[t].log|
    {
      assert ReignOk(s, t);
    }
  }

  /** A member whose log, acknowledgements and votes are untouched owes nothing. */
  lemma NothingDue(s: Model, s': Model, n: Id)
    requires Inv(s) && Frame(s, s', n) && s'.reigns == s.reigns
    requires s'.members[n].log == s.members[n].log && s'.members[n].acks == s.members[n].acks
    requires s'.members[n].votes == s.members[n].votes
    ensures forall t: nat, i: nat {:trigger Due(s, s', n, t, i)} | OwnTerm(s', t, i) && Choosable(s', t, i) :: Due(s, s', n, t, i)
  {
    forall t: nat, i: nat | OwnTerm(s', t, i) && Choosable(s', t, i)
      ensures Due(s, s', n, t, i)
    {
      ChoosableShrinks(s, s', t, i);
      assert SafeAt(s, t, i);
      assert KeptByMember(s, n, t, i);
    }
  }

  /** A member keeps its log, history and commitment when only its term, role or commit index moves on. */
  lemma SameLogMemberOk(s: Model, s': Model, n: Id)
    requires Inv(s) && Frame(s, s', n)
    requires s'.members[n].log == s.members[n].log
    requires VotesOk(s', s'.members[n]) && AcksOk(s', s'.members[n]) && BidsOk(s', s'.members[n])
    requires HoldsOwnAck(s', s'.members[n])
    requires RoleOk(s', n, s'.members[n]) && s'.members[n].commit <= |s.members[n].log|
    requires Endorsed(s, s.members[n].log[..s'.members[n].commit], s'.members[n].term)
    ensures MemberOk(s', n)
  {
    var m, m' := s.members[n], s'.members[n];
    assert MemberOk(s, n) && MemberGrows(m, m');
    LogOkStays(s, s', m.log);
    EndorsedStays(s, s', m.log[..m'.commit], m'.term, m'.term);
  }

  lemma EndorsedLater(s: Model, n: Id, t: nat)
    requires Inv(s) && n in s.members && s.members[n].term <= t
    ensures CommitOk(s, s.members[n].(term := t))
  {
    assert MemberOk(s, n);
  }

  lemma CampaignDue(s: Model, n: Id, t: nat, i: nat)
    requires Inv(s) && CanCampaign(s, n) && Frame(s, Campaign(s, n), n)
    requires OwnTerm(Campaign(s, n), t, i) && Choosable(Campaign(s, n), t, i)
    ensures Due(s, Campaign(s, n), n, t, i)
  {
    var s' := Campaign(s, n);
    ChoosableShrinks(s, s', t, i);
    assert SafeAt(s, t, i);
    assert KeptByMember(s, n, t, i);
  }

  lemma CampaignMemberOk(s: Model, n: Id)
    requires Inv(s) && CanCampaign(s, n) && Frame(s, Campaign(s, n), n)
    ensures MemberOk(Campaign(s, n), n)
  {
    var s' := Campaign(s, n);
    var m, m' := s.members[n], s'.members[n];
    assert MemberOk(s, n);
    LogOkStays(s, s', m.log);
    HistoryStays(s, s', m);
    EndorsedLater(s, n, m'.term);
    if m'.term in s.reigns { assert ReignOk(s, m'.term); }
    SameLogMemberOk(s, s', n);
  }

  lemma CampaignInv(s: Model, n: Id)
    requires Inv(s) && CanCampaign(s, n)
    ensures Inv(Campaign(s, n)) && Grows(s, Campaign(s, n))
  {
    var s' := Campaign(s, n);
    assert MemberOk(s, n);
    QuietFrame(s, s', n);
    CampaignMemberOk(s, n);
    forall t: nat, i: nat | OwnTerm(s', t, i) && Choosable(s', t, i)
      ensures Due(s, s', n, t, i)
    {
      CampaignDue(s, n, t, i);
    }
    StepInv(s, s', n);
  }

  lemma ObserveInv(s: Model, n: Id, t: nat)
    requires Inv(s) && CanObserve(s, n, t)
    ensures Inv(Observe(s, n, t)) && Grows(s, Observe(s, n, t))
  {
    var s' := Observe(s, n, t);
    assert MemberOk(s, n);
    QuietFrame(s, s', n);
    HistoryStays(s, s', s.members[n]);
    EndorsedLater(s, n, t);
    SameLogMemberOk(s, s', n);
    NothingDue(s, s', n);
    StepInv(s, s', n);
  }

  lemma StepDownInv(s: Model, n: Id)
    requires Inv(s) && CanStepDown(s, n)
    ensures Inv(StepDown(s, n)) && Grows(s, StepDown(s, n))
  {
    var s' := StepDown(s, n);
    assert MemberOk(s, n);
    QuietFrame(s, s', n);
    HistoryStays(s, s', s.members[n]);
    SameLogMemberOk(s, s', n);
    NothingDue(s, s', n);
    StepInv(s, s', n);
  }

  lemma SetCommitInv(s: Model, n: Id, i: nat)
    requires Inv(s) && CanSetCommit(s, n, i)
    ensures Inv(SetCommit(s, n, i)) && Grows(s, SetCommit(s, n, i))
  {
    var s' := SetCommit(s, n, i);
    assert MemberOk(s, n);
    QuietFrame(s, s', n);
    HistoryStays(s, s', s.members[n]);
    BidStays(s, s', s.members[n], s'.members[n]);
    SameLogMemberOk(s, s', n);
    NothingDue(s, s', n);
    StepInv(s, s', n);
  }

  lemma AckDue(s: Model, n: Id, k: nat, t: nat, i: nat)
    requires Inv(s) && CanAck(s, n, k) && Frame(s, Ack(s, n, k), n)
    requires OwnTerm(Ack(s, n, k), t, i) && Choosable(Ack(s, n, k), t, i)
    ensures Due(s, Ack(s, n, k), n, t, i)
  {
    var s', m := Ack(s, n, k), s.members[n];
    ChoosableShrinks(s, s', t, i);
    assert SafeAt(s, t, i);
    assert KeptByMember(s, n, t, i);
    assert i <= k ==> s.reigns[m.term].log[..i] <= s.reigns[m.term].log[..k];
  }

  lemma AckInv(s: Model, n: Id, k: nat)
    requires Inv(s) && CanAck(s, n, k)
    ensures Inv(Ack(s, n, k)) && Grows(s, Ack(s, n, k))
  {
    var s' := Ack(s, n, k);
    AckMemberOk(s, n, k);
    forall t: nat, i: nat | OwnTerm(s', t, i) && Choosable(s', t, i)
      ensures Due(s, s', n, t, i)
    {
      AckDue(s, n, k, t, i);
    }
    StepInv(s, s', n);
  }

  lemma AckMemberOk(s: Model, n: Id, k: nat)
    requires Inv(s) && CanAck(s, n, k)
    ensures Frame(s, Ack(s, n, k), n) && MemberOk(Ack(s, n, k), n)
    ensures forall u | u in Ack(s, n, k).reigns :: SameReign(s, Ack(s, n, k), u)
  {
    var s' := Ack(s, n, k);
    assert MemberOk(s, n);
    QuietFrame(s, s', n);
    HistoryStays(s, s', s.members[n]);
    BidStays(s, s', s.members[n], s'.members[n]);
    SameLogMemberOk(s, s', n);
  }

  // ---- Consequences of the invariant used by the remaining steps ---------------------

  /** Two logs with the same term at the same index agree up to it. */
  lemma SameTermSamePrefix(s: Model, a: Log, b: Log, k: nat)
    requires LogOk(s, a) && LogOk(s, b) && k < |a| && k < |b| && a[k].term == b[k].term
    ensures a[..k + 1] == b[..k + 1]
  {
    assert EntryOk(s, a, k) && EntryOk(s, b, k);
  }

  /** Terms never decrease along a log. */
  lemma TermsSorted(s: Model, l: Log, j: nat, k: nat)
    requires Inv(s) && LogOk(s, l) && j <= k < |l|
    ensures l[j].term <= l[k].term
  {
    assert EntryOk(s, l, k);
    var t := l[k].term;
    assert ReignOk(s, t);
    assert l[j] == l[..k + 1][j] == s.reigns[t].log[j];
  }

  /** What any leader of a term up to t decided is in term t's leader log. */
  lemma EndorsedHeld(s: Model, p: Log, t: nat)
    requires Inv(s) && t in s.reigns && Endorsed(s, p, t)
    ensures p <= s.reigns[t].log
  {
    if p != [] {
      var u: nat :| u <= t && EndorsedBy(s, p, u);
      if u < t {
        DecidedChoosable(s, u);
        assert SafeAt(s, u, s.reigns[u].decided);
        assert KeptByReign(s, t, u, s.reigns[u].decided);
      }
    }
  }

  /** A leader of a later term already held, when it was observed, what an earlier term's leader decides only afterwards. */
  lemma DecidedAfterwards(a: Model, b: Model, u: nat, w: nat)
    requires Inv(a) && Inv(b) && Grows(a, b) && u in b.reigns && w in a.reigns && u < w && b.reigns[u].decided > 0
    ensures b.reigns[u].decided <= |b.reigns[u].log| && b.reigns[u].log[..b.reigns[u].decided] <= a.reigns[w].log
  {
    var d := b.reigns[u].decided;
    assert ReignOk(a, w) && ReignOk(b, u);
    var v := QuorumsMeet(VotesFor(a, w, a.reigns[w].leader), AckSet(b, u, d), a.members.Keys);
    AckedBefore(a, b, u, w, v, d);
    DecidedChoosable(b, u);
    ChoosableShrinks(a, b, u, d);
    assert SafeAt(a, u, d);
    assert KeptByReign(a, w, u, d);
  }

  /** A voter of a later term acknowledged before it voted, so the acknowledged prefix was there already. */
  lemma AckedBefore(a: Model, b: Model, u: nat, w: nat, v: Id, d: nat)
    requires Inv(a) && Inv(b) && Grows(a, b) && v in a.members && w in a.members[v].votes && u < w
    requires OwnTerm(b, u, d) && Acked(b.members[v], u) >= d
    ensures OwnTerm(a, u, d) && a.reigns[u].log[..d] == b.reigns[u].log[..d]
  {
    assert MemberOk(a, v) && MemberGrows(a.members[v], b.members[v]);
    assert ReignGrows(a.reigns[u], b.reigns[u]);
  }

  lemma EndorsedAfterwards(a: Model, b: Model, p: Log, t: nat, w: nat)
    requires Inv(a) && Inv(b) && Grows(a, b) && Endorsed(b, p, t) && w in a.reigns && t < w
    ensures p <= a.reigns[w].log
  {
    if p != [] {
      var u: nat :| u <= t && EndorsedBy(b, p, u);
      DecidedAfterwards(a, b, u, w);
    }
  }

  /** A candidate at least as up to date as a voter holds every choosable prefix the voter holds. */
  lemma UpToDateHolds(s: Model, bid: Log, log: Log, t: nat, i: nat)
    requires Inv(s) && LogOk(s, bid) && LogOk(s, log) && UpToDate(bid, log)
    requires OwnTerm(s, t, i) && Choosable(s, t, i) && Holds(s, t, i, log)
    ensures Holds(s, t, i, bid)
  {
    var p := s.reigns[t].log[..i];
    assert log[i - 1] == p[i - 1];
    TermsSorted(s, log, i - 1, |log| - 1);
    var w := LastTerm(bid);
    if w == LastTerm(log) {
      assert EntryOk(s, bid, |bid| - 1) && EntryOk(s, log, |log| - 1);
      assert bid[..|bid|] == bid && log[..|log|] == log;
    } else {
      assert EntryOk(s, bid, |bid| - 1) && bid[..|bid|] == bid;
      assert SafeAt(s, t, i);
      assert KeptByReign(s, w, t, i);
      assert ReignOk(s, w) && s.reigns[w].log[i - 1] == p[i - 1];
      if |bid| < i {
        TermsSorted(s, s.reigns[w].log, |bid| - 1, i - 1);
        assert false;
      }
    }
  }

  // ---- Adopting the leader's entries, granting a vote ---------------------------------

  lemma AdoptInv(s: Model, n: Id, j: nat)
    requires Inv(s) && CanAdopt(s, n, j)
    ensures Inv(Adopt(s, n, j)) && Grows(s, Adopt(s, n, j))
    ensures s.members[n].commit <= j
  {
    var s' := Adopt(s, n, j);
    assert MemberOk(s, n);
    QuietFrame(s, s', n);
    AdoptMemberOk(s, n, j);
    forall t: nat, i: nat | OwnTerm(s', t, i) && Choosable(s', t, i)
      ensures Due(s, s', n, t, i)
    {
      if Acked(s.members[n], t) >= i { AdoptKeeps(s, s', n, j, t, i); }
    }
    StepInv(s, s', n);
  }

  lemma AdoptMemberOk(s: Model, n: Id, j: nat)
    requires Inv(s) && CanAdopt(s, n, j) && Frame(s, Adopt(s, n, j), n)
    ensures MemberOk(Adopt(s, n, j), n) && s.members[n].commit <= j
  {
    var s' := Adopt(s, n, j);
    var m, m' := s.members[n], s'.members[n];
    var l := s.reigns[m.term].log;
    assert MemberOk(s, n) && ReignOk(s, m.term);
    PrefixOk(s, l, j, m.term);
    LogOkStays(s, s', m'.log);
    HistoryStays(s, s', m);
    EndorsedHeld(s, m.log[..m.commit], m.term);
    assert l[..m.commit] == m.log[..m.commit] <= m.log;
    assert m'.log[..m.commit] == m.log[..m.commit];
    EndorsedStays(s, s', m.log[..m.commit], m.term, m.term);
  }

  lemma PrefixOk(s: Model, l: Log, j: nat, t: nat)
    requires LogOk(s, l) && AtMost(l, t) && j <= |l|
    ensures LogOk(s, l[..j]) && AtMost(l[..j], t)
  {
    forall k | 0 <= k < j
      ensures EntryOk(s, l[..j], k)
    {
      assert EntryOk(s, l, k);
      assert l[..j][..k + 1] == l[..k + 1];
    }
  }

  /** Adopting never cuts into a choosable prefix: the old log and the leader's share it. */
  lemma AdoptKeeps(s: Model, s': Model, n: Id, j: nat, t: nat, i: nat)
    requires Inv(s) && CanAdopt(s, n, j) && s' == Adopt(s, n, j) && Grows(s, s')
    requires OwnTerm(s, t, i) && Choosable(s', t, i) && Acked(s.members[n], t) >= i
    ensures Holds(s', t, i, s'.members[n].log)
  {
    var m := s.members[n];
    var l := s.reigns[m.term].log;
    ChoosableShrinks(s, s', t, i);
    assert SafeAt(s, t, i);
    assert KeptByMember(s, n, t, i) && KeptByReign(s, m.term, t, i) && MemberOk(s, n);
    var p := s.reigns[t].log[..i];
    assert l[..i] == p;
    assert l[..i] <= l[..j];
  }

  lemma InstallInv(s: Model, n: Id, p: Log)
    requires Inv(s) && CanInstall(s, n, p)
    ensures Inv(Install(s, n, p)) && Grows(s, Install(s, n, p))
  {
    var s' := Install(s, n, p);
    QuietFrame(s, s', n);
    InstallMemberOk(s, n, p);
    forall t: nat, i: nat | OwnTerm(s', t, i) && Choosable(s', t, i)
      ensures Due(s, s', n, t, i)
    {
      if Acked(s.members[n], t) >= i { InstallKeeps(s, n, p, t, i); }
    }
    StepInv(s, s', n);
  }

  /** A decided prefix holds every choosable prefix that is no longer. */
  lemma DecidedHolds(s: Model, p: Log, w: nat, t: nat, i: nat)
    requires Inv(s) && Endorsed(s, p, w) && OwnTerm(s, t, i) && Choosable(s, t, i) && i <= |p|
    ensures s.reigns[t].log[..i] <= p
  {
    var u: nat :| u <= w && EndorsedBy(s, p, u);
    if u < t {
      assert Endorsed(s, p, t);
      EndorsedHeld(s, p, t);
    } else if u > t {
      assert SafeAt(s, t, i);
      assert KeptByReign(s, u, t, i);
    }
  }

  lemma InstallKeeps(s: Model, n: Id, p: Log, t: nat, i: nat)
    requires Inv(s) && CanInstall(s, n, p) && Grows(s, Install(s, n, p))
    requires OwnTerm(s, t, i) && Choosable(Install(s, n, p), t, i) && Acked(s.members[n], t) >= i
    ensures Holds(Install(s, n, p), t, i, p)
  {
    ChoosableShrinks(s, Install(s, n, p), t, i);
    assert SafeAt(s, t, i);
    assert KeptByMember(s, n, t, i);
    DecidedHolds(s, p, s.members[n].term, t, i);
  }

  lemma InstallMemberOk(s: Model, n: Id, p: Log)
    requires Inv(s) && CanInstall(s, n, p) && Frame(s, Install(s, n, p), n)
    ensures MemberOk(Install(s, n, p), n)
  {
    var s', m := Install(s, n, p), s.members[n];
    assert MemberOk(s, n);
    EndorsedOk(s, p, m.term);
    LogOkStays(s, s', p);
    HistoryStays(s, s', m);
    InstallOwnAck(s, n, p);
    InstallCommitted(s, n, p);
    EndorsedStays(s, s', m.log[..m.commit], m.term, m.term);
    EndorsedStays(s, s', p, m.term, m.term);
  }

  lemma EndorsedOk(s: Model, p: Log, t: nat)
    requires Inv(s) && Endorsed(s, p, t)
    ensures LogOk(s, p) && AtMost(p, t)
  {
    if p != [] {
      var u: nat :| u <= t && EndorsedBy(s, p, u);
      assert ReignOk(s, u);
      PrefixOk(s, s.reigns[u].log, |p|, t);
      assert p == s.reigns[u].log[..|p|];
    }
  }

  lemma InstallOwnAck(s: Model, n: Id, p: Log)
    requires Inv(s) && CanInstall(s, n, p)
    ensures HoldsOwnAck(Install(s, n, p), Install(s, n, p).members[n])
  {
    var m := s.members[n];
    assert MemberOk(s, n);
    if m.term in m.acks { EndorsedHeld(s, p, m.term); }
  }

  lemma InstallCommitted(s: Model, n: Id, p: Log)
    requires Inv(s) && CanInstall(s, n, p)
    ensures s.members[n].commit <= |s.members[n].log| && p[..s.members[n].commit] == s.members[n].log[..s.members[n].commit]
  {
    var m := s.members[n];
    assert MemberOk(s, n);
    EndorsedAgree(s, m.log[..m.commit], m.term, p, m.term);
  }

  lemma GrantDue(s: Model, n: Id, c: Id, t: nat, i: nat)
    requires Inv(s) && CanGrant(s, n, c) && Frame(s, Grant(s, n, c), n)
    requires OwnTerm(Grant(s, n, c), t, i) && Choosable(Grant(s, n, c), t, i)
    ensures Due(s, Grant(s, n, c), n, t, i)
  {
    var s', m := Grant(s, n, c), s.members[n];
    ChoosableShrinks(s, s', t, i);
    assert SafeAt(s, t, i);
    assert KeptByMember(s, n, t, i);
    if Acked(m, t) >= i { GrantHolds(s, n, c, t, i); }
  }

  lemma GrantHolds(s: Model, n: Id, c: Id, t: nat, i: nat)
    requires Inv(s) && CanGrant(s, n, c) && OwnTerm(s, t, i) && Choosable(s, t, i)
    requires Acked(s.members[n], t) >= i && Holds(s, t, i, s.members[n].log)
    ensures Holds(s, t, i, s.members[c].bids[s.members[n].term])
  {
    assert MemberOk(s, n) && MemberOk(s, c);
    UpToDateHolds(s, s.members[c].bids[s.members[n].term], s.members[n].log, t, i);
  }

  lemma GrantInv(s: Model, n: Id, c: Id)
    requires Inv(s) && CanGrant(s, n, c)
    ensures Inv(Grant(s, n, c)) && Grows(s, Grant(s, n, c))
  {
    var s' := Grant(s, n, c);
    var m := s.members[n];
    assert MemberOk(s, n);
    QuietFrame(s, s', n);
    GrantMemberOk(s, n, c);
    forall t: nat, i: nat | OwnTerm(s', t, i) && Choosable(s', t, i)
      ensures Due(s, s', n, t, i)
    {
      GrantDue(s, n, c, t, i);
    }
    StepInv(s, s', n);
  }

  lemma GrantMemberOk(s: Model, n: Id, c: Id)
    requires Inv(s) && CanGrant(s, n, c) && Frame(s, Grant(s, n, c), n)
    ensures MemberOk(Grant(s, n, c), n)
  {
    var s' := Grant(s, n, c);
    assert MemberOk(s, n) && MemberOk(s, c);
    HistoryStays(s, s', s.members[n]);
    BidStays(s, s', s.members[n], s'.members[n]);
    assert MemberGrows(s.members[c], s'.members[c]);
    SameLogMemberOk(s, s', n);
  }

  // ---- Steps that change a reign -----------------------------------------------------

  /** At most one node gathers a quorum of votes in a term. */
  lemma OneWinner(s: Model, t: nat, a: Id, b: Id)
    requires IsQuorum(VotesFor(s, t, a), s.members.Keys) && IsQuorum(VotesFor(s, t, b), s.members.Keys)
    ensures a == b
  {
    var v := QuorumsMeet(VotesFor(s, t, a), VotesFor(s, t, b), s.members.Keys);
  }

  lemma WinDue(s: Model, n: Id, t: nat, i: nat)
    requires Inv(s) && CanWin(s, n) && Frame(s, Win(s, n), n) && s.members[n].term !in s.reigns
    requires OwnTerm(Win(s, n), t, i) && Choosable(Win(s, n), t, i)
    ensures Due(s, Win(s, n), n, t, i)
  {
    WinOlder(s, n, t, i);
    ChoosableShrinks(s, Win(s, n), t, i);
    assert SafeAt(s, t, i);
    assert KeptByMember(s, n, t, i);
    if t < s.members[n].term { WinnerHolds(s, n, t, i); }
  }

  /** A new leader has no entry of its own term yet. */
  lemma WinOlder(s: Model, n: Id, t: nat, i: nat)
    requires Inv(s) && CanWin(s, n) && s.members[n].term !in s.reigns && OwnTerm(Win(s, n), t, i)
    ensures t != s.members[n].term && OwnTerm(s, t, i) && LeaderLog(Win(s, n), t) == LeaderLog(s, t)
  {
    CandidateOlder(s, n);
  }

  /** The log of a candidate whose term nobody has won is of older terms. */
  lemma CandidateOlder(s: Model, n: Id)
    requires Inv(s) && n in s.members && s.members[n].role == Candidate && s.members[n].term !in s.reigns
    ensures forall k | 0 <= k < |s.members[n].log| :: s.members[n].log[k].term < s.members[n].term
  {
    var m := s.members[n];
    assert MemberOk(s, n);
    if m.log != m.bids[m.term] && m.log != [] {
      var u: nat :| u <= m.term && EndorsedBy(s, m.log, u);
      EndorsedOk(s, m.log, u);
    }
  }

  lemma WinInv(s: Model, n: Id)
    requires Inv(s) && CanWin(s, n)
    ensures Inv(Win(s, n)) && Grows(s, Win(s, n))
    ensures s.members[n].term !in s.reigns
  {
    var s' := Win(s, n);
    NewTerm(s, n);
    WinFrame(s, n);
    WinMemberOk(s, n);
    NewReignOk(s, n);
    WinDues(s, n);
    StepInv(s, s', n);
  }

  lemma WinDues(s: Model, n: Id)
    requires Inv(s) && CanWin(s, n) && Frame(s, Win(s, n), n) && s.members[n].term !in s.reigns
    ensures var s' := Win(s, n);
      forall t: nat, i: nat {:trigger Due(s, s', n, t, i)} | OwnTerm(s', t, i) && Choosable(s', t, i) :: Due(s, s', n, t, i)
  {
    forall t: nat, i: nat | OwnTerm(Win(s, n), t, i) && Choosable(Win(s, n), t, i)
      ensures Due(s, Win(s, n), n, t, i)
    {
      WinDue(s, n, t, i);
    }
  }

  lemma NewTerm(s: Model, n: Id)
    requires Inv(s) && CanWin(s, n)
    ensures s.members[n].term !in s.reigns
  {
    var r := s.members[n].term;
    assert MemberOk(s, n);
    if r in s.reigns {
      assert ReignOk(s, r);
      OneWinner(s, r, n, s.reigns[r].leader);
      assert false;
    }
  }

  lemma WinFrame(s: Model, n: Id)
    requires Inv(s) && CanWin(s, n) && s.members[n].term !in s.reigns
    ensures Frame(s, Win(s, n), n)
  {
    WinnerGrows(s, n);
    WinDecided(s, n);
  }

  lemma WinnerGrows(s: Model, n: Id)
    requires Inv(s) && CanWin(s, n) && s.members[n].term !in s.reigns
    ensures MemberGrows(s.members[n], Win(s, n).members[n])
  {
    assert MemberOk(s, n);
  }

  lemma WinDecided(s: Model, n: Id)
    requires Inv(s) && CanWin(s, n)
    ensures forall t | t in Win(s, n).reigns :: Win(s, n).reigns[t].decided <= |Win(s, n).reigns[t].log|
  {
    forall t | t in Win(s, n).reigns
      ensures Win(s, n).reigns[t].decided <= |Win(s, n).reigns[t].log|
    {
      if t != s.members[n].term { assert ReignOk(s, t); }
    }
  }

  lemma WinMemberOk(s: Model, n: Id)
    requires Inv(s) && CanWin(s, n) && Frame(s, Win(s, n), n)
    ensures MemberOk(Win(s, n), n)
  {
    assert MemberOk(s, n);
    HistoryStays(s, Win(s, n), s.members[n]);
    SameLogMemberOk(s, Win(s, n), n);
  }

  lemma NewReignOk(s: Model, n: Id)
    requires Inv(s) && CanWin(s, n) && Frame(s, Win(s, n), n)
    ensures ReignOk(Win(s, n), s.members[n].term)
  {
    assert MemberOk(s, n);
    LogOkStays(s, Win(s, n), s.members[n].log);
    VotesForGrow(s, Win(s, n), s.members[n].term, n);
  }

  /** Every choosable prefix of an earlier term is in the log of a node with a quorum of votes. */
  lemma WinnerHolds(s: Model, n: Id, t: nat, i: nat)
    requires Inv(s) && CanWin(s, n) && t < s.members[n].term && OwnTerm(s, t, i) && Choosable(s, t, i)
    ensures Holds(s, t, i, s.members[n].log)
  {
    var m := s.members[n];
    BidHolds(s, n, t, i);
    assert BidKept(s, m, m.bids[m.term]) by { assert MemberOk(s, n); }
    if m.log != m.bids[m.term] { DecidedHolds(s, m.log, m.term, t, i); }
  }

  lemma BidHolds(s: Model, n: Id, t: nat, i: nat)
    requires Inv(s) && CanWin(s, n) && t < s.members[n].term && OwnTerm(s, t, i) && Choosable(s, t, i)
    ensures s.members[n].term in s.members[n].bids && Holds(s, t, i, s.members[n].bids[s.members[n].term])
  {
    var r := s.members[n].term;
    var v := QuorumsMeet(VotesFor(s, r, n), Able(s, t, i), s.members.Keys);
    assert MemberOk(s, v) && MemberOk(s, n);
    assert SafeAt(s, t, i);
    assert KeptByVote(s, v, r, t, i);
  }

  lemma ProposeInv(s: Model, n: Id, e: Entry)
    requires Inv(s) && CanPropose(s, n, e)
    ensures Inv(Propose(s, n, e)) && Grows(s, Propose(s, n, e))
  {
    var s' := Propose(s, n, e);
    ProposeFrame(s, n, e);
    ProposeMemberOk(s, n, e);
    ProposeReignOk(s, n, e);
    forall t: nat, i: nat | OwnTerm(s', t, i) && Choosable(s', t, i)
      ensures Due(s, s', n, t, i)
    {
      ProposeDue(s, n, e, t, i);
    }
    StepInv(s, s', n);
  }

  lemma ProposeDue(s: Model, n: Id, e: Entry, t: nat, i: nat)
    requires Inv(s) && CanPropose(s, n, e) && Frame(s, Propose(s, n, e), n)
    requires OwnTerm(Propose(s, n, e), t, i) && Choosable(Propose(s, n, e), t, i)
    ensures Due(s, Propose(s, n, e), n, t, i)
  {
    if OwnTerm(s, t, i) {
      ProposeKeeps(s, n, e, t, i);
    } else {
      assert MemberOk(s, n);
      NewEntrySafe(s, n, e);
    }
  }

  lemma ProposeKeeps(s: Model, n: Id, e: Entry, t: nat, i: nat)
    requires Inv(s) && CanPropose(s, n, e) && Frame(s, Propose(s, n, e), n)
    requires OwnTerm(s, t, i) && Choosable(Propose(s, n, e), t, i)
    ensures Due(s, Propose(s, n, e), n, t, i)
  {
    var s', r := Propose(s, n, e), s.members[n].term;
    ChoosableShrinks(s, s', t, i);
    assert SafeAt(s, t, i);
    assert KeptByMember(s, n, t, i) && KeptByReign(s, r, t, i);
    ProposeKept(s, n, e, t, i);
  }

  lemma ProposeKept(s: Model, n: Id, e: Entry, t: nat, i: nat)
    requires Inv(s) && CanPropose(s, n, e) && Grows(s, Propose(s, n, e)) && OwnTerm(s, t, i)
    requires KeptByMember(s, n, t, i) && KeptByReign(s, s.members[n].term, t, i)
    ensures KeptByMember(Propose(s, n, e), n, t, i) && KeptByReign(Propose(s, n, e), s.members[n].term, t, i)
  {
    assert MemberOk(s, n);
    SamePrefixAfter(s, Propose(s, n, e), t, i);
  }

  lemma SamePrefixAfter(s: Model, s': Model, t: nat, i: nat)
    requires Grows(s, s') && OwnTerm(s, t, i)
    ensures t in s'.reigns && i <= |s'.reigns[t].log| && s'.reigns[t].log[..i] == s.reigns[t].log[..i]
  {
    assert ReignGrows(s.reigns[t], s'.reigns[t]);
  }

  lemma ProposeFrame(s: Model, n: Id, e: Entry)
    requires Inv(s) && CanPropose(s, n, e)
    ensures Frame(s, Propose(s, n, e), n)
  {
    var s' := Propose(s, n, e);
    assert MemberOk(s, n);
    assert MemberGrows(s.members[n], s'.members[n]);
    forall t | t in s'.reigns
      ensures s'.reigns[t].decided <= |s'.reigns[t].log|
    {
      assert ReignOk(s, t);
    }
  }

  lemma ProposeMemberOk(s: Model, n: Id, e: Entry)
    requires Inv(s) && CanPropose(s, n, e) && Frame(s, Propose(s, n, e), n)
    ensures MemberOk(Propose(s, n, e), n)
  {
    var s', m := Propose(s, n, e), s.members[n];
    assert MemberOk(s, n);
    ExtendedOk(s, s', m.log, e);
    HistoryStays(s, s', m);
    assert s'.members[n].log[..m.commit] == m.log[..m.commit];
    EndorsedStays(s, s', m.log[..m.commit], m.term, m.term);
  }

  lemma LeaderReign(s: Model, n: Id)
    requires Inv(s) && n in s.members && s.members[n].role == Leader
    ensures s.members[n].term in s.reigns
    ensures var r := s.reigns[s.members[n].term]; r.leader == n && r.log == s.members[n].log
  {
    assert MemberOk(s, n);
  }

  lemma ProposeReignOk(s: Model, n: Id, e: Entry)
    requires Inv(s) && CanPropose(s, n, e) && Frame(s, Propose(s, n, e), n)
    ensures ReignOk(Propose(s, n, e), s.members[n].term)
  {
    var s', r := Propose(s, n, e), s.members[n].term;
    LeaderReign(s, n);
    assert ReignOk(s, r);
    ExtendedOk(s, s', s.members[n].log, e);
    VotesForGrow(s, s', r, n);
    if s.reigns[r].decided > 0 { AckSetGrows(s, s', r, s.reigns[r].decided); }
  }

  lemma ExtendedOk(s: Model, s': Model, l: Log, e: Entry)
    requires Grows(s, s') && LogOk(s, l) && e.index == |l| + 1 && e.term in s'.reigns && s'.reigns[e.term].log == l + [e]
    ensures LogOk(s', l + [e])
  {
    LogOkStays(s, s', l);
    var l' := l + [e];
    forall k | 0 <= k < |l'|
      ensures EntryOk(s', l', k)
    {
      if k < |l| {
        assert EntryOk(s', l, k);
        assert l'[..k + 1] == l[..k + 1];
      }
    }
  }

  /** A leader's newest entry: no later term can have been won while it was choosable. */
  lemma NewEntrySafe(s: Model, n: Id, e: Entry)
    requires Inv(s) && CanPropose(s, n, e)
    ensures var s', t, i := Propose(s, n, e), s.members[n].term, |s.members[n].log| + 1;
      Choosable(s', t, i) ==> SafeAt(s', t, i)
  {
    var s', t, i := Propose(s, n, e), s.members[n].term, |s.members[n].log| + 1;
    assert MemberOk(s, n);
    if Choosable(s', t, i) {
      forall o | o in s'.members
        ensures KeptByMember(s', o, t, i)
      {
        assert MemberOk(s, o);
      }
      forall o, u | o in s'.members && u in s'.members[o].votes
        ensures KeptByVote(s', o, u, t, i)
      {
        assert MemberOk(s, o);
      }
      forall u | u in s'.reigns
        ensures KeptByReign(s', u, t, i)
      {
        if t < u {
          WonLater(s, n, e, u);
          assert false;
        }
      }
    }
  }

  /** Once a later term is won, too few members are left to acknowledge a new entry. */
  lemma WonLater(s: Model, n: Id, e: Entry, u: nat)
    requires Inv(s) && CanPropose(s, n, e) && u in s.reigns && s.members[n].term < u
    ensures !Choosable(Propose(s, n, e), s.members[n].term, |s.members[n].log| + 1)
  {
    var s', t, i := Propose(s, n, e), s.members[n].term, |s.members[n].log| + 1;
    assert MemberOk(s, n) && ReignOk(s, u);
    var voters := VotesFor(s, u, s.reigns[u].leader);
    forall v | v in voters
      ensures v !in Able(s', t, i)
    {
      assert MemberOk(s, v);
    }
    if Choosable(s', t, i) {
      var v := QuorumsMeet(voters, Able(s', t, i), s.members.Keys);
      assert false;
    }
  }

  lemma DecideDue(s: Model, n: Id, i: nat, t: nat, k: nat)
    requires Inv(s) && CanDecide(s, n, i) && Frame(s, Decide(s, n, i), n)
    requires OwnTerm(Decide(s, n, i), t, k) && Choosable(Decide(s, n, i), t, k)
    ensures Due(s, Decide(s, n, i), n, t, k)
  {
    var s' := Decide(s, n, i);
    ChoosableShrinks(s, s', t, k);
    assert SafeAt(s, t, k);
    assert KeptByMember(s, n, t, k) && KeptByReign(s, s.members[n].term, t, k);
  }

  lemma DecideInv(s: Model, n: Id, i: nat)
    requires Inv(s) && CanDecide(s, n, i)
    ensures Inv(Decide(s, n, i)) && Grows(s, Decide(s, n, i))
  {
    var s' := Decide(s, n, i);
    DecideFrame(s, n, i);
    DecideMemberOk(s, n, i);
    forall t: nat, k: nat | OwnTerm(s', t, k) && Choosable(s', t, k)
      ensures Due(s, s', n, t, k)
    {
      DecideDue(s, n, i, t, k);
    }
    StepInv(s, s', n);
  }

  lemma DecideMemberOk(s: Model, n: Id, i: nat)
    requires Inv(s) && CanDecide(s, n, i) && Frame(s, Decide(s, n, i), n)
    ensures MemberOk(Decide(s, n, i), n) && ReignOk(Decide(s, n, i), s.members[n].term)
  {
    var s' := Decide(s, n, i);
    var m := s.members[n];
    assert MemberOk(s, n) && ReignOk(s, m.term);
    LogOkStays(s, s', m.log);
    HistoryStays(s, s', m);
    assert EndorsedBy(s', m.log[..i], m.term);
    VotesForGrow(s, s', m.term, n);
    AckSetGrows(s, s', m.term, i);
  }

  lemma DecideFrame(s: Model, n: Id, i: nat)
    requires Inv(s) && CanDecide(s, n, i)
    ensures Frame(s, Decide(s, n, i), n)
  {
    var s' := Decide(s, n, i);
    assert MemberOk(s, n);
    assert MemberGrows(s.members[n], s'.members[n]);
    forall t | t in s'.reigns
      ensures s'.reigns[t].decided <= |s'.reigns[t].log|
    {
      assert ReignOk(s, t);
    }
  }

  lemma InitInv(nodes: set<Id>)
    ensures Inv(Init(nodes))
  {
    var s := Init(nodes);
    forall n | n in s.members
      ensures MemberOk(s, n)
    {
      assert Endorsed(s, s.members[n].log[..0], 0);
    }
  }

  // ---- The safety theorems over one state -----------------------------------------------

  /** Two endorsed prefixes never disagree. */
  lemma EndorsedAgree(s: Model, p: Log, t: nat, q: Log, u: nat)
    requires Inv(s) && Endorsed(s, p, t) && Endorsed(s, q, u)
    ensures p <= q || q <= p
  {
    if p != [] && q != [] {
      var a: nat :| a <= t && EndorsedBy(s, p, a);
      var b: nat :| b <= u && EndorsedBy(s, q, b);
      var w := Max(a, b);
      assert Endorsed(s, p, w) && Endorsed(s, q, w);
      EndorsedHeld(s, p, w);
      EndorsedHeld(s, q, w);
    }
  }

  /** A leader with no uncommitted entry of an older term, and a quorum not past its term, has committed all there is. */
  lemma NothingDecidedBeyond(s: Model, n: Id, q: set<Id>, u: nat)
    requires Inv(s) && n in s.members && s.members[n].role == Leader && u in s.reigns
    requires s.members[n].commit < |s.members[n].log| ==> s.members[n].log[s.members[n].commit].term == s.members[n].term
    requires IsQuorum(q, s.members.Keys) && forall v | v in q :: s.members[v].term <= s.members[n].term
    ensures s.reigns[u].decided <= s.members[n].commit
  {
    var m, d := s.members[n], s.reigns[u].decided;
    assert MemberOk(s, n) && ReignOk(s, u);
    if d > 0 && u < m.term {
      DecidedChoosable(s, u);
      assert SafeAt(s, u, d);
      assert KeptByReign(s, m.term, u, d);
      assert m.log[d - 1] == s.reigns[u].log[..d][d - 1];
      TermsSorted(s, m.log, Min(m.commit, d - 1), d - 1);
    } else if d > 0 && u > m.term {
      forall v | v in AckSet(s, u, d)
        ensures v !in q
      {
        assert MemberOk(s, v);
      }
      var v := QuorumsMeet(AckSet(s, u, d), q, s.members.Keys);
      assert false;
    }
  }
}
