/** One lemma per event: the cluster after it stands for a later state of the protocol. */
module Events {
  import opened Types
  import opened Quorums
  import opened NodeSpec
  import opened Window
  import opened RaftModel
  import opened RaftSafety
  import opened Refinement
  import opened NodeSim
  import opened LeaderSim
  import opened Simulation
  import opened CatchUp
  import C = Cluster

  /** The entry is in some leader's log. */
  ghost predicate Known(a: Model, e: Entry) {
    exists t: nat :: e in LeaderLog(a, t)
  }

  /** Leaders' logs gain no entry but the given ones. */
  ghost predicate Sourced(a: Model, a': Model, added: set<Entry>) {
    forall t: nat, e {:trigger e in LeaderLog(a', t)} | e in LeaderLog(a', t) :: e in added || Known(a, e)
  }

  lemma SameLogsSourced(a: Model, a': Model, added: set<Entry>)
    requires forall t: nat :: LeaderLog(a', t) == LeaderLog(a, t)
    ensures Sourced(a, a', added)
  {
  }

  lemma WinSourced(a: Model, n: Id)
    requires Inv(a) && CanWin(a, n)
    ensures Sourced(a, Win(a, n), {})
  {
    var a', m := Win(a, n), a.members[n];
    forall t: nat, e | e in LeaderLog(a', t)
      ensures Known(a, e)
    {
      if t == m.term {
        assert MemberOk(a, n);
        var k :| 0 <= k < |m.log| && m.log[k] == e;
        assert EntryOk(a, m.log, k);
        assert e == LeaderLog(a, e.term)[k];
      } else {
        assert e in LeaderLog(a, t);
      }
    }
  }

  lemma ProposeSourced(a: Model, n: Id, e: Entry)
    requires Inv(a) && CanPropose(a, n, e)
    ensures Sourced(a, Propose(a, n, e), {e})
  {
    var a', m := Propose(a, n, e), a.members[n];
    assert MemberOk(a, n);
    forall t: nat, x | x in LeaderLog(a', t)
      ensures x == e || Known(a, x)
    {
      if x != e { assert x in LeaderLog(a, t); }
    }
  }

  /** What every event lemma delivers: a later protocol state that the cluster after the event stands for. */
  ghost predicate Simulates(a: Model, c': C.State, a': Model, added: set<Entry>) {
    && Inv(a') && Grows(a, a') && Refines(c', a') && Sourced(a, a', added)
    && forall n {:trigger FreshAcks(a.members[n], a'.members[n])} | n in a.members :: FreshAcks(a.members[n], a'.members[n])
  }

  /** An event whose protocol steps decide nothing and add only the given entries. */
  lemma Quiet(c: C.State, a: Model, a': Model, n: Id, s': NodeState, packets: set<C.Packet>, calls': set<C.Call>,
              added: set<Entry>)
    requires Refines(c, a) && Inv(a) && n in c.nodes && Steps(a, a', n) && Sourced(a, a', added)
    requires Local(s', a'.members[n]) && Truthful(a', s') && CountOk(a', calls', n, s')
    requires s'.id == n && s'.peers == c.nodes[n].peers && NewAnswersOk(c.nodes[n], s', a'.members[n].log)
    requires forall p {:trigger PacketOk(a', p)} | p in packets :: PacketOk(a', p)
    requires forall x | x in calls' && x !in c.calls :: x.candidate == n && x.peer in c.nodes && x.peer != n && x.term <= s'.term
    ensures Simulates(a, C.Put(c, n, s', packets).(calls := calls'), a', added)
  {
    QuietEvent(c, a, a', n, s', packets, calls');
  }

  /** The node turned follower, or otherwise has nothing a candidate or leader must account for. */
  lemma QuietFollower(c: C.State, a: Model, a': Model, n: Id, s': NodeState, packets: set<C.Packet>, calls': set<C.Call>)
    requires Refines(c, a) && Inv(a) && n in c.nodes && Steps(a, a', n) && a'.reigns == a.reigns
    requires Local(s', a'.members[n]) && s'.role == Follower && calls' <= c.calls
    requires s'.id == n && s'.peers == c.nodes[n].peers && NewAnswersOk(c.nodes[n], s', a'.members[n].log)
    requires forall p {:trigger PacketOk(a', p)} | p in packets :: PacketOk(a', p)
    ensures Simulates(a, C.Put(c, n, s', packets).(calls := calls'), a', {})
  {
    SameLogsSourced(a, a', {});
    Quiet(c, a, a', n, s', packets, calls', {});
  }

  /** A node left as it was, or with only parts the protocol does not see changed. */
  lemma Stutter(c: C.State, a: Model, n: Id, s': NodeState, packets: set<C.Packet>, calls': set<C.Call>)
    requires Refines(c, a) && Inv(a) && n in c.nodes && calls' <= c.calls
    requires Local(s', a.members[n]) && Truthful(a, s') && CountOk(a, calls', n, s')
    requires s'.id == n && s'.peers == c.nodes[n].peers && s'.answers == c.nodes[n].answers
    requires forall p {:trigger PacketOk(a, p)} | p in packets :: PacketOk(a, p)
    ensures Simulates(a, C.Put(c, n, s', packets).(calls := calls'), a, {})
  {
    NoSteps(a, n);
    SameLogsSourced(a, a, {});
    Quiet(c, a, a, n, s', packets, calls', {});
  }

  /** Nothing happens at the node, except perhaps that a call is over. */
  lemma Idle(c: C.State, a: Model, n: Id, calls': set<C.Call>)
    requires Refines(c, a) && Inv(a) && n in c.nodes && calls' <= c.calls
    ensures Simulates(a, C.Put(c, n, c.nodes[n], {}).(calls := calls'), a, {})
  {
    assert NodeOk(a, c, n);
    CountStays(a, a, c.calls, calls', n, c.nodes[n]);
    Stutter(c, a, n, c.nodes[n], {}, calls');
  }

  lemma ActIs(c: C.State, e: C.Event)
    requires C.Enabled(c, e)
    ensures var n, s := C.Actor(e), c.nodes[C.Actor(e)];
      C.Act(c, e) == C.Put(c, n, C.NodeAfter(s, e), C.Sent(s, e)).(calls := C.CallsAfter(c, s, e))
  {
  }

  /** A node with only bookkeeping changed that a member's record does not cover. */
  lemma ShellLocal(s: NodeState, s': NodeState, m: Member)
    requires Local(s, m) && SameData(s, s') && s'.disk == s.disk
    requires s'.term == s.term && s'.votedFor == s.votedFor && s'.role == s.role
    requires forall i | i in s'.waiters :: i in s.waiters && s'.waiters[i] == s.waiters[i]
    ensures Local(s', m)
  {
    SameDataOk(s, s', m.log);
  }

  lemma ShellDuties(a: Model, calls: set<C.Call>, n: Id, s: NodeState, s': NodeState)
    requires Truthful(a, s) && CountOk(a, calls, n, s) && s'.role == s.role && s'.term == s.term
    requires s'.peers == s.peers && s'.matchIndex == s.matchIndex && s'.nextIndex == s.nextIndex && s'.votes == s.votes
    ensures Truthful(a, s') && CountOk(a, calls, n, s')
  {
  }

  lemma NodeLocal(c: C.State, a: Model, n: Id)
    requires Refines(c, a) && n in c.nodes
    ensures n in a.members && c.nodes[n].id == n && Local(c.nodes[n], a.members[n])
  {
    assert NodeOk(a, c, n);
  }

  lemma PeerIs(c: C.State, n: Id, p: Id)
    requires n in c.nodes && C.PeersOf(c.nodes.Keys, n, c.nodes[n].peers)
    ensures p in c.nodes[n].peers <==> p in c.nodes && p != n
  {
    var all := set q | q in c.nodes[n].peers;
    assert p in c.nodes[n].peers <==> p in all;
  }

  // ---- Elections ---------------------------------------------------------------------

  lemma TimeoutEvent(c: C.State, a: Model, n: Id) returns (a': Model)
    requires Refines(c, a) && Inv(a) && n in c.nodes
    ensures Simulates(a, C.Act(c, C.Timeout(n)), a', {})
  {
    if c.nodes[n].role == Leader {
      a' := a;
      Idle(c, a, n, c.calls);
    } else {
      a' := CampaignEvent(c, a, n);
      ActIs(c, C.Timeout(n));
    }
  }

  lemma CampaignEvent(c: C.State, a: Model, n: Id) returns (a': Model)
    requires Refines(c, a) && Inv(a) && n in c.nodes && c.nodes[n].role != Leader
    ensures var s := c.nodes[n];
      Simulates(a, C.Put(c, n, StartElection(s), C.Sent(s, C.Timeout(n))).(calls := C.CallsAfter(c, s, C.Timeout(n))), a', {})
  {
    var s := c.nodes[n];
    a' := CampaignSteps(c, a, n);
    CampaignFrame(s);
    QuietCandidate(c, a, a', n, StartElection(s), C.Sent(s, C.Timeout(n)), C.CallsAfter(c, s, C.Timeout(n)));
  }

  lemma CampaignSteps(c: C.State, a: Model, n: Id) returns (a': Model)
    requires Refines(c, a) && Inv(a) && n in c.nodes && c.nodes[n].role != Leader
    ensures var s := c.nodes[n];
      && Steps(a, a', n) && a'.reigns == a.reigns && Local(StartElection(s), a'.members[n])
      && CountOk(a', C.CallsAfter(c, s, C.Timeout(n)), n, StartElection(s))
      && (forall p {:trigger PacketOk(a', p)} | p in C.Sent(s, C.Timeout(n)) :: PacketOk(a', p))
      && (forall x | x in C.CallsAfter(c, s, C.Timeout(n)) && x !in c.calls ::
            x.candidate == n && x.peer in c.nodes && x.peer != n && x.term == s.term + 1)
  {
    assert NodeOk(a, c, n);
    a' := ElectionSim(a, n, c.nodes[n]);
    CampaignPackets(a, a', n, c.nodes[n]);
    CampaignCalls(c, n);
    CampaignCount(c, a, a', n);
  }

  lemma QuietCandidate(c: C.State, a: Model, a': Model, n: Id, s': NodeState, packets: set<C.Packet>, calls': set<C.Call>)
    requires Refines(c, a) && Inv(a) && n in c.nodes && Steps(a, a', n) && a'.reigns == a.reigns
    requires Local(s', a'.members[n]) && CountOk(a', calls', n, s') && s'.role == Candidate && s'.term == c.nodes[n].term + 1
    requires s'.id == c.nodes[n].id && s'.peers == c.nodes[n].peers && s'.answers == c.nodes[n].answers
    requires forall p {:trigger PacketOk(a', p)} | p in packets :: PacketOk(a', p)
    requires forall x | x in calls' && x !in c.calls ::
      x.candidate == n && x.peer in c.nodes && x.peer != n && x.term == c.nodes[n].term + 1
    ensures Simulates(a, C.Put(c, n, s', packets).(calls := calls'), a', {})
  {
    assert c.nodes[n].id == n by { assert NodeOk(a, c, n); }
    SameLogsSourced(a, a', {});
    Quiet(c, a, a', n, s', packets, calls', {});
  }

  lemma CampaignFrame(s: NodeState)
    requires s.role != Leader
    ensures var s' := StartElection(s);
      s'.id == s.id && s'.peers == s.peers && s'.answers == s.answers && s'.term == s.term + 1 && s'.role == Candidate && s'.votes == 1
  {
  }

  lemma CampaignPackets(a: Model, a': Model, n: Id, s: NodeState)
    requires CanCampaign(a, n) && a' == Campaign(a, n) && Local(s, a.members[n]) && s.role != Leader && s.id == n
    ensures forall p {:trigger PacketOk(a', p)} | p in C.Sent(s, C.Timeout(n)) :: PacketOk(a', p)
  {
    ShowsEntry(s, a.members[n].log, 0);
    ShowsLastTerm(s, a.members[n].log);
  }

  lemma CampaignCalls(c: C.State, n: Id)
    requires n in c.nodes && C.PeersOf(c.nodes.Keys, n, c.nodes[n].peers)
    ensures forall x | x in C.CallsAfter(c, c.nodes[n], C.Timeout(n)) && x !in c.calls ::
      x.candidate == n && x.peer in c.nodes && x.peer != n && x.term == c.nodes[n].term + 1
  {
    forall p | p in c.nodes[n].peers
      ensures p in c.nodes && p != n
    {
      PeerIs(c, n, p);
    }
  }

  lemma CampaignCount(c: C.State, a: Model, a': Model, n: Id)
    requires Refines(c, a) && CanCampaign(a, n) && a' == Campaign(a, n) && n in c.nodes && c.nodes[n].term == a.members[n].term
    requires C.PeersOf(c.nodes.Keys, n, c.nodes[n].peers)
    ensures CountOk(a', C.CallsAfter(c, c.nodes[n], C.Timeout(n)), n, StartElection(c.nodes[n]))
  {
    var calls', t := C.CallsAfter(c, c.nodes[n], C.Timeout(n)), c.nodes[n].term + 1;
    var heard := VotesFor(a', t, n) - Unheard(calls', n, t);
    CampaignCalls(c, n);
    assert forall x | x in calls' && x.candidate == n && x.term == t :: x.peer != n;
    assert n in heard;
    SubsetSize({n}, heard);
  }

  /** A candidate that has counted a majority holds a quorum of votes. */
  lemma CountedVotes(c: C.State, a: Model, calls: set<C.Call>, n: Id, s: NodeState)
    requires Inv(a) && n in c.nodes && a.members.Keys == c.nodes.Keys && C.PeersOf(c.nodes.Keys, n, s.peers)
    requires Local(s, a.members[n]) && s.role == Candidate && CountOk(a, calls, n, s) && s.votes >= Majority(s)
    ensures CanWin(a, n)
  {
    var heard := VotesFor(a, s.term, n) - Unheard(calls, n, s.term);
    SubsetSize(heard, VotesFor(a, s.term, n));
  }

  lemma WinEvent(c: C.State, a: Model, n: Id, s: NodeState, calls': set<C.Call>) returns (a': Model)
    requires Refines(c, a) && Inv(a) && n in c.nodes && calls' <= c.calls && s == c.nodes[n].(votes := s.votes)
    requires s.role == Candidate && CountOk(a, calls', n, s) && s.votes >= Majority(s)
    ensures Simulates(a, C.Put(c, n, BecomeLeader(s), {}).(calls := calls'), a', {})
  {
    assert NodeOk(a, c, n);
    CountedVotes(c, a, calls', n, s);
    a' := WinSim(a, n, s);
    WinSourced(a, n);
    Quiet(c, a, a', n, BecomeLeader(s), {}, calls', {});
  }

  lemma WinAloneEvent(c: C.State, a: Model, n: Id) returns (a': Model)
    requires Refines(c, a) && Inv(a) && C.Enabled(c, C.WinAlone(n))
    ensures Simulates(a, C.Act(c, C.WinAlone(n)), a', {})
  {
    assert NodeOk(a, c, n);
    a' := WinEvent(c, a, n, c.nodes[n], c.calls);
  }

  lemma VoteFrame(s: NodeState, ask: VoteRequest)
    ensures var s' := HandleVote(s, ask).0;
      s'.id == s.id && s'.peers == s.peers && SameDuties(s, s')
  {
    if ask.term > s.term { ObserveFrame(s, ask.term); }
  }

  lemma AskVoteEvent(c: C.State, a: Model, p: C.Packet) returns (a': Model)
    requires Refines(c, a) && Inv(a) && C.Enabled(c, C.TakeAskVote(p))
    ensures Simulates(a, C.Act(c, C.TakeAskVote(p)), a', {})
  {
    a' := VoterAnswers(c, a, p);
    ActIs(c, C.TakeAskVote(p));
  }

  lemma VoterAnswers(c: C.State, a: Model, p: C.Packet) returns (a': Model)
    requires Refines(c, a) && Inv(a) && p in c.net && p.AskVote? && p.to in c.nodes
    ensures var (s', vote) := HandleVote(c.nodes[p.to], p.ask);
      Simulates(a, C.Put(c, p.to, s', {C.AnswerVote(p.to, p.from, p.ask, vote)}).(calls := c.calls), a', {})
  {
    var n, s := p.to, c.nodes[p.to];
    assert NodeOk(a, c, n) && PacketOk(a, p);
    a' := VoteSim(a, n, s, p.ask);
    VoteFrame(s, p.ask);
    QuietAnswer(c, a, a', n, HandleVote(s, p.ask).0, C.AnswerVote(p.to, p.from, p.ask, HandleVote(s, p.ask).1));
  }

  predicate SameDuties(s: NodeState, s': NodeState) {
    || s'.role == Follower
    || (s'.role == s.role && s'.term == s.term && s'.votes == s.votes && s'.matchIndex == s.matchIndex && s'.nextIndex == s.nextIndex)
  }

  /** A node answers a request, after which it is a follower, or leads or stands as it did before. */
  lemma QuietAnswer(c: C.State, a: Model, a': Model, n: Id, s': NodeState, answer: C.Packet)
    requires Refines(c, a) && Inv(a) && n in c.nodes && Steps(a, a', n) && a'.reigns == a.reigns
    requires Local(s', a'.members[n]) && SameDuties(c.nodes[n], s') && PacketOk(a', answer)
    requires s'.id == c.nodes[n].id && s'.peers == c.nodes[n].peers && NewAnswersOk(c.nodes[n], s', a'.members[n].log)
    ensures Simulates(a, C.Put(c, n, s', {answer}).(calls := c.calls), a', {})
  {
    assert c.nodes[n].id == n by { assert NodeOk(a, c, n); }
    VoterDuties(c, a, a', n, s');
    SameLogsSourced(a, a', {});
    Quiet(c, a, a', n, s', {answer}, c.calls, {});
  }

  lemma VoterDuties(c: C.State, a: Model, a': Model, n: Id, s': NodeState)
    requires Refines(c, a) && n in c.nodes && Grows(a, a') && SameDuties(c.nodes[n], s') && s'.peers == c.nodes[n].peers
    ensures Truthful(a', s') && CountOk(a', c.calls, n, s')
  {
    assert NodeOk(a, c, n);
    TruthfulStays(a, a', c.nodes[n]);
    CountStays(a, a', c.calls, c.calls, n, c.nodes[n]);
  }

  lemma ObserveFrame(s: NodeState, t: nat)
    ensures var s' := ObserveTerm(s, t); s'.id == s.id && s'.peers == s.peers && (t > s.term ==> s'.role == Follower)
  {
  }

  lemma HigherTermEvent(c: C.State, a: Model, n: Id, t: nat, calls': set<C.Call>) returns (a': Model)
    requires Refines(c, a) && Inv(a) && n in c.nodes && calls' <= c.calls && t > c.nodes[n].term
    ensures Simulates(a, C.Put(c, n, ObserveTerm(c.nodes[n], t), {}).(calls := calls'), a', {})
  {
    assert NodeOk(a, c, n);
    a' := ObserveSim(a, n, c.nodes[n], t);
    ObserveFrame(c.nodes[n], t);
    QuietFollower(c, a, a', n, ObserveTerm(c.nodes[n], t), {}, calls');
  }

  lemma AnswerVoteEvent(c: C.State, a: Model, p: C.Packet) returns (a': Model)
    requires Refines(c, a) && Inv(a) && C.Enabled(c, C.TakeAnswerVote(p))
    ensures Simulates(a, C.Act(c, C.TakeAnswerVote(p)), a', {})
  {
    var n, s := p.to, c.nodes[p.to];
    var calls' := c.calls - {C.Call(p.to, p.ask.term, p.from)};
    if p.vote.term > s.term {
      a' := HigherTermEvent(c, a, n, p.vote.term, calls');
    } else if s.role != Candidate || s.term != p.ask.term || !p.vote.granted {
      a' := a;
      Idle(c, a, n, calls');
    } else {
      a' := VoteHeardEvent(c, a, p);
      VoteHeardActs(c, p);
    }
  }

  lemma VoteHeardEvent(c: C.State, a: Model, p: C.Packet) returns (a': Model)
    requires Refines(c, a) && Inv(a) && C.Enabled(c, C.TakeAnswerVote(p)) && p.vote.granted
    requires var s := c.nodes[p.to]; p.vote.term <= s.term && s.role == Candidate && s.term == p.ask.term
    ensures var s1 := c.nodes[p.to].(votes := c.nodes[p.to].votes + 1);
      Simulates(a, C.Put(c, p.to, if s1.votes >= Majority(s1) then BecomeLeader(s1) else s1, {})
                     .(calls := c.calls - {C.Call(p.to, p.ask.term, p.from)}), a', {})
  {
    var s1 := c.nodes[p.to].(votes := c.nodes[p.to].votes + 1);
    NewVote(c, a, p);
    a' := VoteCountedEvent(c, a, p.to, s1, c.calls - {C.Call(p.to, p.ask.term, p.from)});
  }

  lemma VoteHeardActs(c: C.State, p: C.Packet)
    requires C.Enabled(c, C.TakeAnswerVote(p)) && p.vote.granted
    requires var s := c.nodes[p.to]; p.vote.term <= s.term && s.role == Candidate && s.term == p.ask.term
    ensures var s1 := c.nodes[p.to].(votes := c.nodes[p.to].votes + 1);
      C.Act(c, C.TakeAnswerVote(p)) ==
        C.Put(c, p.to, if s1.votes >= Majority(s1) then BecomeLeader(s1) else s1, {})
          .(calls := c.calls - {C.Call(p.to, p.ask.term, p.from)})
  {
  }

  lemma NewVote(c: C.State, a: Model, p: C.Packet)
    requires Refines(c, a) && C.Enabled(c, C.TakeAnswerVote(p)) && p.vote.granted
    requires var s := c.nodes[p.to]; s.role == Candidate && s.term == p.ask.term
    ensures var s := c.nodes[p.to];
      CountOk(a, c.calls - {C.Call(p.to, p.ask.term, p.from)}, p.to, s.(votes := s.votes + 1))
  {
    assert NodeOk(a, c, p.to) && PacketOk(a, p);
    OneMoreVote(c, a, p);
  }

  lemma VoteCountedEvent(c: C.State, a: Model, n: Id, s: NodeState, calls': set<C.Call>) returns (a': Model)
    requires Refines(c, a) && Inv(a) && n in c.nodes && calls' <= c.calls && s == c.nodes[n].(votes := s.votes)
    requires s.role == Candidate && CountOk(a, calls', n, s)
    ensures Simulates(a, C.Put(c, n, if s.votes >= Majority(s) then BecomeLeader(s) else s, {}).(calls := calls'), a', {})
  {
    if s.votes >= Majority(s) {
      a' := WinEvent(c, a, n, s, calls');
    } else {
      a' := a;
      assert NodeOk(a, c, n);
      ShellLocal(c.nodes[n], s, a.members[n]);
      Stutter(c, a, n, s, {}, calls');
    }
  }

  /** A granted vote that was not heard before adds one to what the candidate may count. */
  lemma OneMoreVote(c: C.State, a: Model, p: C.Packet)
    requires p.AnswerVote? && C.Call(p.to, p.ask.term, p.from) in c.calls && p.to in c.nodes
    requires CountOk(a, c.calls, p.to, c.nodes[p.to]) && c.nodes[p.to].role == Candidate && c.nodes[p.to].term == p.ask.term
    requires p.from in VotesFor(a, p.ask.term, p.to)
    ensures var s := c.nodes[p.to];
      CountOk(a, c.calls - {C.Call(p.to, p.ask.term, p.from)}, p.to, s.(votes := s.votes + 1))
  {
    var s, calls' := c.nodes[p.to], c.calls - {C.Call(p.to, p.ask.term, p.from)};
    var heard := VotesFor(a, s.term, p.to) - Unheard(c.calls, p.to, s.term);
    var heard' := VotesFor(a, s.term, p.to) - Unheard(calls', p.to, s.term);
    assert p.from in Unheard(c.calls, p.to, s.term) by { assert C.Call(p.to, p.ask.term, p.from) in c.calls; }
    assert p.from !in Unheard(calls', p.to, s.term);
    assert heard + {p.from} <= heard';
    SubsetSize(heard + {p.from}, heard');
  }

  // ---- Replication ---------------------------------------------------------------------

  lemma BroadcastEvent(c: C.State, a: Model, n: Id) returns (a': Model)
    requires Refines(c, a) && Inv(a) && n in c.nodes
    ensures Simulates(a, C.Act(c, C.Broadcast(n)), a', {})
  {
    var s := c.nodes[n];
    assert NodeOk(a, c, n);
    a' := a;
    var packets := C.Sent(s, C.Broadcast(n));
    if s.role == Leader {
      forall p | p in packets
        ensures PacketOk(a, p)
      {
        var peer :| peer in s.peers && p == C.Send(n, peer, RequestFor(s, peer));
        PeerIs(c, n, peer);
        RequestForOk(a, n, s, peer);
      }
    }
    Stutter(c, a, n, s, packets, c.calls);
  }

  lemma SendEvent(c: C.State, a: Model, p: C.Packet) returns (a': Model)
    requires Refines(c, a) && Inv(a) && C.Enabled(c, C.TakeSend(p))
    ensures Simulates(a, C.Act(c, C.TakeSend(p)), a', {})
  {
    a' := FollowerAnswers(c, a, p);
    ActIs(c, C.TakeSend(p));
  }

  lemma FollowerAnswers(c: C.State, a: Model, p: C.Packet) returns (a': Model)
    requires Refines(c, a) && Inv(a) && p in c.net && p.Send? && p.to in c.nodes
    ensures var (s', reply) := HandleAppend(c.nodes[p.to], p.req);
      Simulates(a, C.Put(c, p.to, s', {C.Reply(p.to, p.from, p.req, reply)}).(calls := c.calls), a', {})
  {
    var n, s := p.to, c.nodes[p.to];
    assert NodeOk(a, c, n) && PacketOk(a, p);
    a' := AppendSim(a, n, s, p.req);
    AppendRole(s, p.req);
    QuietAnswer(c, a, a', n, HandleAppend(s, p.req).0, C.Reply(p.to, p.from, p.req, HandleAppend(s, p.req).1));
  }

  /** A node answering AppendEntries ends up a follower, unless the request was stale and changed nothing. */
  lemma AppendRole(s: NodeState, req: AppendRequest)
    ensures var s' := HandleAppend(s, req).0;
      && s'.id == s.id && s'.peers == s.peers
      && (s'.role == Follower || s' == s)
  {
    ObserveFrame(s, req.term);
    AnswerFrame(FollowLeader(ObserveTerm(s, req.term), req.leader), req);
  }

  lemma AnswerFrame(s: NodeState, req: AppendRequest)
    ensures var s' := AnswerLeader(s, req).0; s'.id == s.id && s'.peers == s.peers && s'.role == s.role
  {
    var s1 := MergeEntries(s, req.prevIndex, req.entries);
    MergeFrame(s, req.prevIndex, req.entries);
    LearnFrame(s1, req.commit);
  }

  lemma LearnFrame(s: NodeState, leaderCommit: nat)
    ensures var s' := LearnCommit(s, leaderCommit); s'.id == s.id && s'.peers == s.peers && s'.role == s.role
  {
    ApplyKeeps(s.(commit := Min(leaderCommit, LastIndex(s))));
  }

  /** The reply half of an AppendEntries call. */
  lemma ReplyEvent(c: C.State, a: Model, p: C.Packet) returns (a': Model)
    requires Refines(c, a) && Inv(a) && C.Enabled(c, C.TakeReply(p))
    ensures Simulates(a, C.Act(c, C.TakeReply(p)), a', {})
  {
    a' := LeaderHears(c, a, p);
    ActIs(c, C.TakeReply(p));
  }

  lemma LeaderHears(c: C.State, a: Model, p: C.Packet) returns (a': Model)
    requires Refines(c, a) && Inv(a) && p in c.net && p.Reply? && p.to in c.nodes
    ensures Simulates(a, C.Put(c, p.to, FinishAppend(c.nodes[p.to], p.from, p.req, p.reply), {}).(calls := c.calls), a', {})
  {
    var n, s := p.to, c.nodes[p.to];
    if s.role != Leader || s.term != p.req.term {
      a' := a;
      Idle(c, a, n, c.calls);
    } else {
      ReplyFrom(c, a, p);
      a' := CurrentReply(c, a, n, p.from, p.req.prevIndex, |p.req.entries|, p.reply);
    }
  }

  lemma {:induction false} CurrentReply(c: C.State, a: Model, n: Id, peer: Id, prev: nat, count: nat, reply: AppendReply) returns (a': Model)
    requires Refines(c, a) && Inv(a) && n in c.nodes && c.nodes[n].role == Leader && peer in c.nodes[n].peers
    requires reply.success ==> AckOf(a, peer, c.nodes[n].term) >= prev + count
    ensures Simulates(a, C.Put(c, n, HandleAppendReply(c.nodes[n], peer, prev, count, reply), {}).(calls := c.calls), a', {})
  {
    ReplyCases(c.nodes[n], peer, prev, count, reply);
    if reply.term > c.nodes[n].term {
      a' := HigherTermEvent(c, a, n, reply.term, c.calls);
    } else if reply.success {
      a' := AckedEvent(c, a, n, peer, prev + count);
    } else {
      a' := a;
      BackOffEvent(c, a, n, peer, reply);
    }
  }

  lemma {:induction false} ReplyCases(s: NodeState, peer: Id, prev: nat, count: nat, reply: AppendReply)
    ensures reply.term > s.term ==> HandleAppendReply(s, peer, prev, count, reply) == ObserveTerm(s, reply.term)
    ensures reply.term <= s.term && reply.success ==>
      HandleAppendReply(s, peer, prev, count, reply) == AdvanceCommit(RecordMatch(s, peer, prev + count))
    ensures reply.term <= s.term && !reply.success ==>
      HandleAppendReply(s, peer, prev, count, reply) == s.(nextIndex := s.nextIndex[peer := BackOff(s, reply)])
  {
  }

  /** Replies come from peers, and a success stands for an acknowledgement. */
  lemma ReplyFrom(c: C.State, a: Model, p: C.Packet)
    requires Refines(c, a) && p.Reply? && p in c.net && p.to in c.nodes
    ensures p.from in c.nodes[p.to].peers
    ensures p.reply.success ==> AckOf(a, p.from, p.req.term) >= p.req.prevIndex + |p.req.entries|
  {
    assert NodeOk(a, c, p.to) && PacketOk(a, p);
    PeerIs(c, p.to, p.from);
  }

  lemma BackOffEvent(c: C.State, a: Model, n: Id, peer: Id, reply: AppendReply)
    requires Refines(c, a) && Inv(a) && n in c.nodes && c.nodes[n].role == Leader && peer in c.nodes[n].peers
    ensures var s := c.nodes[n];
      Simulates(a, C.Put(c, n, s.(nextIndex := s.nextIndex[peer := BackOff(s, reply)]), {}).(calls := c.calls), a, {})
  {
    var s := c.nodes[n];
    assert NodeOk(a, c, n);
    var s' := s.(nextIndex := s.nextIndex[peer := BackOff(s, reply)]);
    assert s'.nextIndex.Keys == s.nextIndex.Keys + {peer};
    Stutter(c, a, n, s', {}, c.calls);
  }

  lemma AckedEvent(c: C.State, a: Model, n: Id, peer: Id, k: nat) returns (a': Model)
    requires Refines(c, a) && Inv(a) && n in c.nodes && c.nodes[n].role == Leader && peer in c.nodes[n].peers
    requires AckOf(a, peer, c.nodes[n].term) >= k
    ensures Simulates(a, C.Put(c, n, AdvanceCommit(RecordMatch(c.nodes[n], peer, k)), {}).(calls := c.calls), a', {})
  {
    var s := c.nodes[n];
    var s1 := RecordMatch(s, peer, k);
    assert NodeOk(a, c, n);
    RecordTruthful(a, s, peer, k);
    FindCommitFound(s1, LastIndex(s1));
    var i := FindCommit(s1, LastIndex(s1));
    if i > s1.commit {
      CanDecideHere(a, c.nodes.Keys, n, s1, i);
      a' := DecideEvent(c, a, n, s1, i);
    } else {
      a' := a;
      Stutter(c, a, n, s1, {}, c.calls);
    }
  }

  lemma DecideEvent(c: C.State, a: Model, n: Id, s1: NodeState, i: nat) returns (a': Model)
    requires Refines(c, a) && Inv(a) && n in c.nodes && CanDecide(a, n, i)
    requires s1 == c.nodes[n].(matchIndex := s1.matchIndex, nextIndex := s1.nextIndex)
    requires Local(s1, a.members[n]) && Truthful(a, s1)
    ensures Simulates(a, C.Put(c, n, ApplyCommitted(s1.(commit := i)), {}).(calls := c.calls), a', {})
  {
    var s' := ApplyCommitted(s1.(commit := i));
    assert NodeOk(a, c, n);
    a' := DecideSim(a, n, s1, i);
    ApplyKeeps(s1.(commit := i));
    DecidedExtends(c, a, a', n, s', i);
    DecidedNodeOk(c, a, a', n, s');
    DecidedRefines(c, a, a', n, s', i);
  }

  lemma DecidedRefines(c: C.State, a: Model, a': Model, n: Id, s': NodeState, i: nat)
    requires Refines(c, a) && CanDecide(a, n, i) && a' == Decide(a, n, i) && Inv(a') && Grows(a, a') && n in c.nodes
    requires c.nodes[n].term <= s'.term && c.chosen <= C.Extend(c.chosen, s') && ChosenOk(a', C.Extend(c.chosen, s'))
    requires NodeOk(a', C.Put(c, n, s', {}).(calls := c.calls), n)
    ensures Simulates(a, C.Put(c, n, s', {}).(calls := c.calls), a', {})
  {
    SameLogsSourced(a, a', {});
    EventRefines(c, C.Put(c, n, s', {}).(calls := c.calls), a, a', n);
  }

  lemma DecidedNodeOk(c: C.State, a: Model, a': Model, n: Id, s': NodeState)
    requires Refines(c, a) && Inv(a') && n in c.nodes && a'.members.Keys == a.members.Keys
    requires Local(s', a'.members[n]) && Truthful(a', s') && s'.role == Leader && s'.id == n && s'.peers == c.nodes[n].peers
    requires NewAnswersOk(c.nodes[n], s', a'.members[n].log)
    requires var chosen' := C.Extend(c.chosen, s'); c.chosen <= chosen' && ChosenOk(a', chosen')
    ensures NodeOk(a', C.Put(c, n, s', {}).(calls := c.calls), n)
  {
    var c' := C.Put(c, n, s', {}).(calls := c.calls);
    assert NodeOk(a, c, n);
    CommittedChosen(a', n, c'.chosen);
    AnswersStay(c.nodes[n], s', a'.members[n].log, c.chosen, c'.chosen);
    assert c'.nodes.Keys == c.nodes.Keys;
  }

  /** A decision extends the chosen log by the leader's own entries, or is already covered by it. */
  lemma DecidedExtends(c: C.State, a: Model, a': Model, n: Id, s': NodeState, i: nat)
    requires Refines(c, a) && Inv(a) && n in c.nodes && CanDecide(a, n, i) && a' == Decide(a, n, i) && Inv(a') && Grows(a, a')
    requires Local(s', a'.members[n]) && s'.commit == i && Compacted(s') <= a.members[n].commit
    ensures c.chosen <= C.Extend(c.chosen, s') && ChosenOk(a', C.Extend(c.chosen, s'))
  {
    LeaderReign(a, n);
    CommittedChosen(a, n, c.chosen);
    OldChosenEndorsed(a, a', c.chosen);
    DecidedAgree(a, a', n, i, c.chosen);
    if |c.chosen| < i {
      ExtendIs(s', a.members[n].log, c.chosen, i);
    }
    DecidedCovered(a, a', n, i, c.chosen, C.Extend(c.chosen, s'));
  }

  /** The log chosen so far and what is decided now: one is a prefix of the other. */
  lemma DecidedAgree(a: Model, a': Model, n: Id, i: nat, chosen: Log)
    requires Inv(a) && CanDecide(a, n, i) && a' == Decide(a, n, i) && Inv(a') && Grows(a, a')
    requires chosen == [] || exists t: nat :: EndorsedBy(a', chosen, t)
    ensures i <= |a.members[n].log|
    ensures if |chosen| < i then chosen <= a.members[n].log else a.members[n].log[..i] <= chosen
  {
    var full, t := a.members[n].log, a.members[n].term;
    LeaderReign(a, n);
    assert EndorsedBy(a', full[..i], t);
    EndorsedAgree(a', chosen, TopTerm(a', chosen), full[..i], t);
  }

  /** Some term whose leader vouches for the chosen log. */
  ghost function TopTerm(a: Model, chosen: Log): (t: nat)
    requires chosen == [] || exists t: nat :: EndorsedBy(a, chosen, t)
    ensures Endorsed(a, chosen, t)
  {
    if chosen == [] then 0 else var t: nat :| EndorsedBy(a, chosen, t); t
  }

  lemma OldChosenEndorsed(a: Model, a': Model, chosen: Log)
    requires Inv(a') && Grows(a, a') && ChosenOk(a, chosen)
    ensures chosen == [] || exists t: nat :: EndorsedBy(a', chosen, t)
  {
    if chosen != [] {
      var t: nat :| EndorsedBy(a, chosen, t);
      assert Endorsed(a, chosen, t);
      DecidedBounded(a');
      EndorsedStays(a, a', chosen, t, t);
      var u: nat :| u <= t && EndorsedBy(a', chosen, u);
    }
  }

  lemma ExtendIs(s: NodeState, full: Log, chosen: Log, i: nat)
    requires Shows(s, full) && s.commit == i <= |full| && |chosen| < i && chosen <= full && Compacted(s) <= |chosen|
    ensures C.Extend(chosen, s) == full[..i]
  {
    var k := |chosen|;
    ShowsEntry(s, full, 0);
    if Anchored(s) { ViewSlice(full, s.offset, k, i); }
    assert full[..i] == full[..k] + full[k..i];
  }

  lemma ViewSlice(full: Log, o: nat, k: nat, i: nat)
    requires o < k <= i <= |full|
    ensures View(full, o)[k - o..i - o] == full[k..i]
  {
    forall j | 0 <= j < i - k
      ensures View(full, o)[k - o..i - o][j] == full[k..i][j]
    {
    }
  }

  lemma DecidedCovered(a: Model, a': Model, n: Id, i: nat, chosen: Log, chosen': Log)
    requires Inv(a) && CanDecide(a, n, i) && a' == Decide(a, n, i) && ChosenOk(a, chosen) && chosen <= chosen'
    requires i <= |a.reigns[a.members[n].term].log| && a.reigns[a.members[n].term].log[..i] <= chosen'
    requires chosen' == chosen || chosen' == a.reigns[a.members[n].term].log[..i]
    requires chosen == [] || exists t: nat :: EndorsedBy(a', chosen, t)
    ensures ChosenOk(a', chosen')
  {
    var r := a.members[n].term;
    forall t | t in a'.reigns
      ensures a'.reigns[t].decided <= |a'.reigns[t].log| && a'.reigns[t].log[..a'.reigns[t].decided] <= chosen'
    {
      if t != r { assert a'.reigns[t] == a.reigns[t] && a.reigns[t].log[..a.reigns[t].decided] <= chosen; }
    }
    assert EndorsedBy(a', a.reigns[r].log[..i], r);
  }

  // ---- Writes --------------------------------------------------------------------------------

  lemma WriteEvent(c: C.State, a: Model, n: Id, x: Command) returns (a': Model)
    requires Refines(c, a) && Inv(a) && n in c.nodes
    ensures Simulates(a, C.Act(c, C.Write(n, x)), a', C.Introduced(c.nodes[n], C.Write(n, x)))
  {
    if c.nodes[n].role == Leader {
      a' := LeaderWrites(c, a, n, x, false);
    } else {
      a' := a;
      Idle(c, a, n, c.calls);
    }
    WriteActs(c, n, x);
  }

  lemma WriteActs(c: C.State, n: Id, x: Command)
    requires n in c.nodes
    ensures var s := c.nodes[n];
      && C.Act(c, C.Write(n, x)) == C.Put(c, n, if s.role == Leader then AppendLocal(s, x) else s, {}).(calls := c.calls)
      && C.Act(c, C.WriteSync(n, x)) == C.Put(c, n, if s.role == Leader then ProposeSync(s, x) else s, {}).(calls := c.calls)
  {
  }

  lemma WriteSyncEvent(c: C.State, a: Model, n: Id, x: Command) returns (a': Model)
    requires Refines(c, a) && Inv(a) && n in c.nodes
    ensures Simulates(a, C.Act(c, C.WriteSync(n, x)), a', C.Introduced(c.nodes[n], C.WriteSync(n, x)))
  {
    if c.nodes[n].role == Leader {
      a' := LeaderWrites(c, a, n, x, true);
    } else {
      a' := a;
      Idle(c, a, n, c.calls);
    }
    WriteActs(c, n, x);
  }

  /** A client write at the leader, with or without a call waiting for it. */
  function Wrote(s: NodeState, x: Command, sync: bool): NodeState {
    if sync then ProposeSync(s, x) else AppendLocal(s, x)
  }

  lemma LeaderWrites(c: C.State, a: Model, n: Id, x: Command, sync: bool) returns (a': Model)
    requires Refines(c, a) && Inv(a) && n in c.nodes && c.nodes[n].role == Leader
    ensures var s := c.nodes[n];
      Simulates(a, C.Put(c, n, Wrote(s, x, sync), {}).(calls := c.calls), a', {Entry(s.term, LastIndex(s) + 1, x)})
  {
    NodeLocal(c, a, n);
    a' := WriteSteps(a, n, c.nodes[n], x, sync);
    WriteFrame(c.nodes[n], x, sync);
    QuietSame(c, a, a', n, Wrote(c.nodes[n], x, sync), {Entry(c.nodes[n].term, LastIndex(c.nodes[n]) + 1, x)});
  }

  lemma WriteSteps(a: Model, n: Id, s: NodeState, x: Command, sync: bool) returns (a': Model)
    requires Inv(a) && n in a.members && Local(s, a.members[n]) && s.role == Leader
    ensures Steps(a, a', n) && Sourced(a, a', {Entry(s.term, LastIndex(s) + 1, x)}) && Local(Wrote(s, x, sync), a'.members[n])
  {
    a' := ProposeSim(a, n, s, x);
    ProposeSourced(a, n, Entry(s.term, LastIndex(s) + 1, x));
    SyncLocal(s, a.members[n], a'.members[n], x);
  }

  /** A node that says nothing and leads, stands or follows as before. */
  lemma QuietSame(c: C.State, a: Model, a': Model, n: Id, s': NodeState, added: set<Entry>)
    requires Refines(c, a) && Inv(a) && n in c.nodes && Steps(a, a', n) && Sourced(a, a', added)
    requires Local(s', a'.members[n]) && SameDuties(c.nodes[n], s')
    requires s'.id == n && s'.peers == c.nodes[n].peers && s'.answers == c.nodes[n].answers
    ensures Simulates(a, C.Put(c, n, s', {}).(calls := c.calls), a', added)
  {
    VoterDuties(c, a, a', n, s');
    Quiet(c, a, a', n, s', {}, c.calls, added);
  }

  lemma WriteFrame(s: NodeState, x: Command, sync: bool)
    requires s.role == Leader
    ensures var s' := Wrote(s, x, sync);
      s'.id == s.id && s'.peers == s.peers && s'.answers == s.answers && SameDuties(s, s')
  {
  }

  /** A blocked write waits for the very entry it appended. */
  lemma SyncLocal(s: NodeState, m: Member, m': Member, x: Command)
    requires Local(s, m) && s.role == Leader && Local(AppendLocal(s, x), m')
    requires m'.log == m.log + [Entry(s.term, LastIndex(s) + 1, x)]
    ensures Local(ProposeSync(s, x), m')
  {
    ShowsEntry(s, m.log, 0);
  }

  lemma CancelEvent(c: C.State, a: Model, n: Id, i: nat) returns (a': Model)
    requires Refines(c, a) && Inv(a) && n in c.nodes
    ensures Simulates(a, C.Act(c, C.Cancel(n, i)), a', {})
  {
    var s := c.nodes[n];
    assert NodeOk(a, c, n);
    a' := a;
    var s' := s.(waiters := s.waiters - {i});
    ShellLocal(s, s', a.members[n]);
    ShellDuties(a, c.calls, n, s, s');
    ActIs(c, C.Cancel(n, i));
    Stutter(c, a, n, s', {}, c.calls);
  }

  // ---- Compaction and crashes --------------------------------------------------------------------

  lemma FileHere(c: C.State, a: Model, n: Id, f: File)
    requires Refines(c, a) && Inv(a) && n in c.nodes && C.FileFits(c, f) && f.index <= c.nodes[n].commit
    ensures FileOk(f, a.members[n].log)
  {
    var m := a.members[n];
    assert NodeOk(a, c, n);
    CommittedChosen(a, n, c.chosen);
    assert m.log[..f.index] == m.log[..m.commit][..f.index] == c.chosen[..m.commit][..f.index] == c.chosen[..f.index];
    assert m.log[f.index - 1] == m.log[..f.index][f.index - 1];
  }

  lemma CompactEvent(c: C.State, a: Model, n: Id, target: nat, f: File) returns (a': Model)
    requires Refines(c, a) && Inv(a) && C.Enabled(c, C.Compact(n, target, f))
    ensures Simulates(a, C.Act(c, C.Compact(n, target, f)), a', {})
  {
    var s := c.nodes[n];
    assert NodeOk(a, c, n);
    a' := a;
    if MayCompact(s, target, f) {
      FileHere(c, a, n, f);
      MemberIndexed(a, n);
      CompactLocal(s, a.members[n], f);
    }
    Stutter(c, a, n, Confirm(s, target, f), {}, c.calls);
  }

  lemma CrashEvent(c: C.State, a: Model, n: Id) returns (a': Model)
    requires Refines(c, a) && Inv(a) && n in c.nodes
    ensures Simulates(a, C.Act(c, C.Crash(n)), a', {})
  {
    NodeRestorable(c, a, n);
    a' := RestartEvent(c, a, n, c.nodes[n]);
    CrashActs(c, C.Crash(n), c.nodes[n]);
  }

  lemma NodeRestorable(c: C.State, a: Model, n: Id)
    requires Refines(c, a) && n in c.nodes
    ensures n in a.members && Restorable(c.nodes[n].disk, a.members[n]) && c.nodes[n].id == n
  {
    assert NodeOk(a, c, n);
    LocalRestorable(c.nodes[n], a.members[n]);
  }

  lemma CrashActs(c: C.State, e: C.Event, s: NodeState)
    requires C.Enabled(c, e) && C.NodeAfter(c.nodes[C.Actor(e)], e) == Recover(s)
    requires e.Crash? || e.CrashInMerge? || e.CrashInCompaction? || e.CrashInTerm? || e.CrashInCatchUp?
    ensures C.Act(c, e) == C.Put(c, C.Actor(e), Recover(s), {}).(calls := c.calls)
  {
  }

  /** NewNode on a directory that still holds the member's log. */
  lemma RestartEvent(c: C.State, a: Model, n: Id, s: NodeState) returns (a': Model)
    requires Refines(c, a) && Inv(a) && n in c.nodes && Restorable(s.disk, a.members[n])
    requires s.id == n && s.peers == c.nodes[n].peers && s.answers == c.nodes[n].answers
    ensures Simulates(a, C.Put(c, n, Recover(s), {}).(calls := c.calls), a', {})
  {
    NoSteps(a, n);
    a' := RestartAfter(c, a, a, n, s);
  }

  /** The same after steps that acknowledged nothing. */
  lemma RestartAfter(c: C.State, a: Model, a1: Model, n: Id, s: NodeState) returns (a': Model)
    requires Refines(c, a) && Inv(a) && n in c.nodes && Steps(a, a1, n) && a1.reigns == a.reigns
    requires a1.members[n].acks == a.members[n].acks && Restorable(s.disk, a1.members[n])
    requires s.id == n && s.peers == c.nodes[n].peers && OnlyFailures(c.nodes[n], s)
    ensures Simulates(a, C.Put(c, n, Recover(s), {}).(calls := c.calls), a', {})
  {
    a' := RecoverSim(a1, n, s);
    StepsTransitive(a, a1, a', n);
    RecoverFrame(s);
    QuietFollower(c, a, a', n, Recover(s), {}, c.calls);
  }

  lemma RecoverFrame(s: NodeState)
    ensures var s' := Recover(s); s'.id == s.id && s'.peers == s.peers && s'.role == Follower && s'.answers == s.answers
  {
  }

  lemma CrashInCompactionEvent(c: C.State, a: Model, n: Id, target: nat, f: File) returns (a': Model)
    requires Refines(c, a) && Inv(a) && C.Enabled(c, C.CrashInCompaction(n, target, f))
    ensures Simulates(a, C.Act(c, C.CrashInCompaction(n, target, f)), a', {})
  {
    var s := c.nodes[n];
    var s1 := DiskMidCompaction(s, target, f);
    assert NodeOk(a, c, n);
    LocalRestorable(s, a.members[n]);
    if MayCompact(s, target, f) {
      FileHere(c, a, n, f);
      MemberIndexed(a, n);
      MidCompactionRestorable(s, a.members[n], target, f);
    }
    a' := RestartEvent(c, a, n, s1);
    CrashActs(c, C.CrashInCompaction(n, target, f), s1);
  }

  lemma CrashInMergeEvent(c: C.State, a: Model, p: C.Packet, records: nat) returns (a': Model)
    requires Refines(c, a) && Inv(a) && C.Enabled(c, C.CrashInMerge(p, records))
    ensures Simulates(a, C.Act(c, C.CrashInMerge(p, records)), a', {})
  {
    var n, s := p.to, c.nodes[p.to];
    var s1 := DiskMidMerge(s, p.req, records);
    assert NodeOk(a, c, n) && PacketOk(a, p);
    var a1 := MidMergeSim(a, n, s, p.req, records);
    MidMergeFrame(s, p.req, records);
    a' := RestartAfter(c, a, a1, n, s1);
    CrashActs(c, C.CrashInMerge(p, records), s1);
  }

  lemma MidMergeFrame(s: NodeState, req: AppendRequest, records: nat)
    ensures var s' := DiskMidMerge(s, req, records); s'.id == s.id && s'.peers == s.peers
  {
    ObserveFrame(s, req.term);
    var s2 := FollowLeader(ObserveTerm(s, req.term), req.leader);
    MergePartFrame(s2, req, records);
  }

  lemma MergePartFrame(s: NodeState, req: AppendRequest, records: nat)
    ensures var s' := MergePart(s, req, records); s'.id == s.id && s'.peers == s.peers
  {
  }

  /** A crash after a new term is persisted and before anything else is. */
  lemma CrashInTermEvent(c: C.State, a: Model, p: C.Packet) returns (a': Model)
    requires Refines(c, a) && Inv(a) && C.Enabled(c, C.CrashInTerm(p))
    ensures Simulates(a, C.Act(c, C.CrashInTerm(p)), a', {})
  {
    var n, s, s1 := p.to, c.nodes[p.to], ObserveTerm(c.nodes[p.to], C.TermIn(p));
    assert NodeOk(a, c, n);
    var a1 := ObserveSim(a, n, s, C.TermIn(p));
    LocalRestorable(s1, a1.members[n]);
    ObserveFrame(s, C.TermIn(p));
    a' := RestartAfter(c, a, a1, n, s1);
    CrashActs(c, C.CrashInTerm(p), s1);
  }

  // ---- Adopting a snapshot -----------------------------------------------------------------------

  /** The file's prefix is decided as far as the node's term knows. */
  lemma FileEndorsed(c: C.State, a: Model, n: Id, f: File)
    requires Refines(c, a) && Inv(a) && n in c.nodes && C.MayCatchUp(c, n, f)
    ensures Endorsed(a, c.chosen[..f.index], c.nodes[n].term)
  {
    var m :| m in c.nodes && c.nodes[m].commit >= f.index && c.nodes[m].term <= c.nodes[n].term;
    assert NodeOk(a, c, m) && MemberOk(a, m);
    var l := a.members[m].log[..a.members[m].commit];
    CommittedChosen(a, m, c.chosen);
    assert c.chosen[..f.index] == l[..f.index] <= l;
    EndorsedPrefix(a, c.chosen[..f.index], l, a.members[m].term);
    EndorsedUpTo(a, c.chosen[..f.index], a.members[m].term, c.nodes[n].term);
  }

  lemma EndorsedUpTo(a: Model, p: Log, t: nat, t': nat)
    requires Endorsed(a, p, t) && t <= t'
    ensures Endorsed(a, p, t')
  {
  }

  lemma InstallSim(a: Model, n: Id, p: Log) returns (a': Model)
    requires Inv(a) && CanInstall(a, n, p)
    ensures Steps(a, a', n) && a'.reigns == a.reigns && a'.members[n] == a.members[n].(log := p, commit := |p|)
  {
    var a1, t := Install(a, n, p), a.members[n].term;
    InstallInv(a, n, p);
    DecidedBounded(a1);
    EndorsedStays(a, a1, p, t, t);
    assert p[..|p|] == p;
    a' := SetCommit(a1, n, |p|);
    SetCommitInv(a1, n, |p|);
    StepsTransitive(a, a1, a', n);
  }

  /** A leader has all that is decided up to its term, so a file that reaches to the end of its log is its log. */
  lemma LeaderInstallSim(a: Model, n: Id, p: Log) returns (a': Model)
    requires Inv(a) && n in a.members && a.members[n].role == Leader && |a.members[n].log| <= |p| && Endorsed(a, p, a.members[n].term)
    ensures a.members[n].log == p
    ensures Steps(a, a', n) && a'.reigns == a.reigns && a'.members[n] == a.members[n].(log := p, commit := |p|)
  {
    LeaderReign(a, n);
    EndorsedHeld(a, p, a.members[n].term);
    assert a.members[n].log[..|p|] == p;
    assert a.members[n].commit <= |p| by { assert MemberOk(a, n); }
    a' := SetCommit(a, n, |p|);
    SetCommitInv(a, n, |p|);
  }

  /** If that leader is behind the file, it has written nothing in its term, and nobody waits. */
  lemma NoneWaiting(a: Model, n: Id, s: NodeState, p: Log)
    requires Inv(a) && n in a.members && Local(s, a.members[n]) && s.role == Leader
    requires a.members[n].log == p && Endorsed(a, p, s.term) && s.applied < |p|
    ensures s.waiters == map[]
  {
    var u: nat :| u <= s.term && EndorsedBy(a, p, u);
    assert MemberOk(a, n) && ReignOk(a, u);
    assert forall i | i in s.waiters :: a.reigns[u].log[i - 1] == p[i - 1];
    assert u == s.term ==> |p| <= s.commit;
    assert forall i | i in s.waiters :: false;
  }

  lemma CaughtUpLocal(s: NodeState, m: Member, chosen: Log, f: File)
    requires Local(s, m) && s.waiters == map[] && FileOk(f, chosen) && 2 <= f.index && LastIndex(s) <= f.index
    ensures Local(CaughtUp(s, f), m.(log := chosen[..f.index], commit := f.index))
  {
    ShowsEntry(s, m.log, 0);
    CaughtUpSound(s, chosen, f);
  }

  lemma CatchUpSim(c: C.State, a: Model, n: Id, f: File) returns (a': Model)
    requires Refines(c, a) && Inv(a) && n in c.nodes && C.MayCatchUp(c, n, f)
    ensures Steps(a, a', n) && a'.reigns == a.reigns && Local(CaughtUp(c.nodes[n], f), a'.members[n])
    ensures a'.members[n] == a.members[n].(log := c.chosen[..f.index], commit := f.index)
  {
    NodeLocal(c, a, n);
    ShowsEntry(c.nodes[n], a.members[n].log, 0);
    FileEndorsed(c, a, n, f);
    a' := AdoptFile(a, n, c.nodes[n], c.chosen[..f.index]);
    CaughtUpLocal(c.nodes[n], a.members[n], c.chosen, f);
  }

  lemma AdoptFile(a: Model, n: Id, s: NodeState, p: Log) returns (a': Model)
    requires Inv(a) && n in a.members && Local(s, a.members[n]) && |a.members[n].log| <= |p| && Endorsed(a, p, s.term) && s.applied < |p|
    ensures Steps(a, a', n) && a'.reigns == a.reigns && a'.members[n] == a.members[n].(log := p, commit := |p|)
    ensures s.waiters == map[]
  {
    if s.role == Leader {
      a' := LeaderInstallSim(a, n, p);
      NoneWaiting(a, n, s, p);
    } else {
      a' := InstallSim(a, n, p);
    }
  }

  lemma CatchUpEvent(c: C.State, a: Model, n: Id, f: File) returns (a': Model)
    requires Refines(c, a) && Inv(a) && C.Enabled(c, C.CatchUp(n, f))
    ensures Simulates(a, C.Act(c, C.CatchUp(n, f)), a', {})
  {
    NodeLocal(c, a, n);
    a' := CatchUpSim(c, a, n, f);
    SameLogsSourced(a, a', {});
    CatchUpFrame(c.nodes[n], f);
    QuietSame(c, a, a', n, CaughtUp(c.nodes[n], f), {});
    CatchUpActs(c, n, f);
  }

  lemma CatchUpFrame(s: NodeState, f: File)
    ensures var s' := CaughtUp(s, f); s'.id == s.id && s'.peers == s.peers && s'.answers == s.answers && SameDuties(s, s')
  {
  }

  lemma CatchUpActs(c: C.State, n: Id, f: File)
    requires C.Enabled(c, C.CatchUp(n, f))
    ensures C.Act(c, C.CatchUp(n, f)) == C.Put(c, n, CaughtUp(c.nodes[n], f), {}).(calls := c.calls)
  {
  }

  lemma CaughtUpRestorable(s: NodeState, m: Member, chosen: Log, f: File)
    requires Local(s, m) && Indexed(m.log, 0) && FileOk(f, chosen) && 2 <= f.index && LastIndex(s) <= f.index
    ensures Restorable(CaughtUpDisk(s, f), m.(log := chosen[..f.index], commit := f.index))
  {
    var full' := chosen[..f.index];
    ShowsIndexed(s, m.log);
    NothingBehind(s.disk.entries, s.disk.snapshot, s.log, s.offset, f);
    assert full'[..f.index] == full' && View(full', f.index - 1) == [AnchorOf(f)];
  }

  lemma CrashInCatchUpEvent(c: C.State, a: Model, n: Id, f: File) returns (a': Model)
    requires Refines(c, a) && Inv(a) && C.Enabled(c, C.CrashInCatchUp(n, f))
    ensures Simulates(a, C.Act(c, C.CrashInCatchUp(n, f)), a', {})
  {
    var s := c.nodes[n];
    assert NodeOk(a, c, n);
    MemberIndexed(a, n);
    CaughtUpRestorable(s, a.members[n], c.chosen, f);
    var a1 := CatchUpSim(c, a, n, f);
    a' := RestartAfter(c, a, a1, n, s.(disk := CaughtUpDisk(s, f)));
    CrashActs(c, C.CrashInCatchUp(n, f), s.(disk := CaughtUpDisk(s, f)));
  }

  // ---- Every event ---------------------------------------------------------------------------------

  lemma EventSim(c: C.State, a: Model, e: C.Event) returns (a': Model)
    requires Refines(c, a) && Inv(a) && C.Enabled(c, e)
    ensures Simulates(a, C.Act(c, e), a', C.Introduced(c.nodes[C.Actor(e)], e))
  {
    if e.Write? {
      a' := WriteEvent(c, a, e.n, e.command);
    } else if e.WriteSync? {
      a' := WriteSyncEvent(c, a, e.n, e.command);
    } else if e.TakeAskVote? || e.TakeAnswerVote? || e.TakeSend? || e.TakeReply? {
      a' := TakeSim(c, a, e);
    } else if e.Crash? || e.CrashInMerge? || e.CrashInCompaction? || e.CrashInTerm? || e.CrashInCatchUp? {
      a' := CrashSim(c, a, e);
    } else {
      a' := OwnSim(c, a, e);
    }
  }

  lemma TakeSim(c: C.State, a: Model, e: C.Event) returns (a': Model)
    requires Refines(c, a) && Inv(a) && C.Enabled(c, e) && (e.TakeAskVote? || e.TakeAnswerVote? || e.TakeSend? || e.TakeReply?)
    ensures Simulates(a, C.Act(c, e), a', {})
  {
    match e {
      case TakeAskVote(p) => a' := AskVoteEvent(c, a, p);
      case TakeAnswerVote(p) => a' := AnswerVoteEvent(c, a, p);
      case TakeSend(p) => a' := SendEvent(c, a, p);
      case TakeReply(p) => a' := ReplyEvent(c, a, p);
    }
  }

  lemma CrashSim(c: C.State, a: Model, e: C.Event) returns (a': Model)
    requires Refines(c, a) && Inv(a) && C.Enabled(c, e)
    requires e.Crash? || e.CrashInMerge? || e.CrashInCompaction? || e.CrashInTerm? || e.CrashInCatchUp?
    ensures Simulates(a, C.Act(c, e), a', {})
  {
    match e {
      case Crash(n) => a' := CrashEvent(c, a, n);
      case CrashInMerge(p, k) => a' := CrashInMergeEvent(c, a, p, k);
      case CrashInCompaction(n, t, f) => a' := CrashInCompactionEvent(c, a, n, t, f);
      case CrashInTerm(p) => a' := CrashInTermEvent(c, a, p);
      case CrashInCatchUp(n, f) => a' := CrashInCatchUpEvent(c, a, n, f);
    }
  }

  lemma OwnSim(c: C.State, a: Model, e: C.Event) returns (a': Model)
    requires Refines(c, a) && Inv(a) && C.Enabled(c, e)
    requires e.Timeout? || e.WinAlone? || e.Broadcast? || e.Cancel? || e.Compact? || e.CatchUp?
    ensures Simulates(a, C.Act(c, e), a', {})
  {
    match e {
      case Timeout(n) => a' := TimeoutEvent(c, a, n);
      case WinAlone(n) => a' := WinAloneEvent(c, a, n);
      case Broadcast(n) => a' := BroadcastEvent(c, a, n);
      case Cancel(n, i) => a' := CancelEvent(c, a, n, i);
      case Compact(n, t, f) => a' := CompactEvent(c, a, n, t, f);
      case CatchUp(n, f) => a' := CatchUpEvent(c, a, n, f);
    }
  }
}
