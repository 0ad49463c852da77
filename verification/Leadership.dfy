/** What a leader keeps for as long as its term lasts: its role, once lost, is gone, and matchIndex only grows. */
module Leadership {
  import opened Types
  import opened NodeSpec
  import opened NodeSim
  import opened Cluster
  import opened Safety

  /** Within a term nobody turns candidate, only a candidate turns leader, and a leader's matchIndex only grows. */
  predicate Onward(s: NodeState, s': NodeState) {
    && s.term <= s'.term
    && (s.term == s'.term && s.role != Candidate ==> s'.role != Candidate && (s'.role == Leader ==> s.role == Leader))
    && (s.term == s'.term && s.role == s'.role == Leader ==> NoLess(s.matchIndex, s'.matchIndex))
  }

  predicate NoLess(m: map<Id, nat>, m': map<Id, nat>) {
    forall p | p in m :: p in m' && m[p] <= m'[p]
  }

  lemma ObserveOnward(s: NodeState, t: nat)
    ensures Onward(s, ObserveTerm(s, t))
    ensures var s' := ObserveTerm(s, t); s'.disk.term == if t > s.term then s'.term else s.disk.term
  {
  }

  lemma ElectionOnward(s: NodeState)
    ensures Onward(s, StartElection(s))
  {
  }

  lemma VoteOnward(s: NodeState, ask: VoteRequest)
    ensures Onward(s, HandleVote(s, ask).0)
  {
    ObserveOnward(s, ask.term);
  }

  lemma VoteReplyOnward(s: NodeState, t: nat, vote: VoteReply)
    ensures Onward(s, HandleVoteReply(s, t, vote))
  {
  }

  lemma AnswerKeeps(s: NodeState, req: AppendRequest)
    ensures var (s', reply) := AnswerLeader(s, req);
      s'.term == s.term == reply.term && s'.role == s.role && s'.leader == s.leader && s'.disk.term == s.disk.term
  {
    MergeFrame(s, req.prevIndex, req.entries);
    var s1 := MergeEntries(s, req.prevIndex, req.entries);
    ApplyKeeps(s1.(commit := Min(req.commit, LastIndex(s1))));
  }

  /** A node that takes a request of its term is a follower afterwards. */
  lemma AppendOnward(s: NodeState, req: AppendRequest)
    ensures Onward(s, HandleAppend(s, req).0)
  {
    ObserveOnward(s, req.term);
    AnswerKeeps(FollowLeader(ObserveTerm(s, req.term), req.leader), req);
  }

  lemma AdvanceKeeps(s: NodeState)
    ensures var s' := AdvanceCommit(s); s'.term == s.term && s'.role == s.role && s'.matchIndex == s.matchIndex
  {
    ApplyKeeps(s.(commit := FindCommit(s, LastIndex(s))));
  }

  lemma ReplyOnward(s: NodeState, peer: Id, req: AppendRequest, reply: AppendReply)
    ensures Onward(s, FinishAppend(s, peer, req, reply))
  {
    ObserveOnward(s, reply.term);
    AdvanceKeeps(RecordMatch(s, peer, req.prevIndex + |req.entries|));
  }

  lemma RestartOnward(s: NodeState, s1: NodeState)
    requires s.term <= s1.disk.term
    ensures Onward(s, Recover(s1))
  {
  }

  lemma MidMergeTerm(s: NodeState, req: AppendRequest, records: nat)
    requires s.disk.term == s.term
    ensures s.term <= DiskMidMerge(s, req, records).disk.term
  {
    ObserveOnward(s, req.term);
    MergePartTerm(FollowLeader(ObserveTerm(s, req.term), req.leader), req, records);
  }

  lemma MergePartTerm(s: NodeState, req: AppendRequest, records: nat)
    ensures MergePart(s, req, records).disk.term == s.disk.term
  {
  }

  lemma CompactOnward(s: NodeState, target: nat, f: File)
    ensures Onward(s, Confirm(s, target, f))
  {
  }

  lemma AfterSend(s: NodeState, e: Event)
    requires e.TakeSend?
    ensures Onward(s, NodeAfter(s, e))
  {
    if e.p.Send? { AppendOnward(s, e.p.req); }
  }

  lemma AfterReply(s: NodeState, e: Event)
    requires e.TakeReply?
    ensures Onward(s, NodeAfter(s, e))
  {
    if e.p.Reply? { ReplyOnward(s, e.p.from, e.p.req, e.p.reply); }
  }

  lemma AfterVote(s: NodeState, e: Event)
    requires e.TakeAskVote?
    ensures Onward(s, NodeAfter(s, e))
  {
    if e.p.AskVote? { VoteOnward(s, e.p.ask); }
  }

  lemma AfterVoteReply(s: NodeState, e: Event)
    requires e.TakeAnswerVote?
    ensures Onward(s, NodeAfter(s, e))
  {
    if e.p.AnswerVote? { VoteReplyOnward(s, e.p.ask.term, e.p.vote); }
  }

  lemma AfterCrashInMerge(s: NodeState, e: Event)
    requires s.disk.term == s.term && e.CrashInMerge?
    ensures Onward(s, NodeAfter(s, e))
  {
    if e.p.Send? {
      MidMergeTerm(s, e.p.req, e.records);
      RestartOnward(s, DiskMidMerge(s, e.p.req, e.records));
    }
  }

  lemma AfterCrashInTerm(s: NodeState, e: Event)
    requires s.disk.term == s.term && e.CrashInTerm?
    ensures Onward(s, NodeAfter(s, e))
  {
    ObserveOnward(s, TermIn(e.p));
    RestartOnward(s, ObserveTerm(s, TermIn(e.p)));
  }

  lemma AfterOther(s: NodeState, e: Event)
    requires s.disk.term == s.term && !e.TakeSend? && !e.TakeReply? && !e.TakeAskVote? && !e.TakeAnswerVote?
    requires !e.CrashInMerge? && !e.CrashInTerm?
    ensures Onward(s, NodeAfter(s, e))
  {
    match e {
      case Timeout(_) => ElectionOnward(s);
      case Compact(_, t, f) => CompactOnward(s, t, f);
      case Crash(_) => RestartOnward(s, s);
      case CrashInCompaction(_, t, f) => RestartOnward(s, DiskMidCompaction(s, t, f));
      case CrashInCatchUp(_, f) => RestartOnward(s, s.(disk := CaughtUpDisk(s, f)));
      case _ =>
    }
  }

  lemma EventOnward(s: NodeState, e: Event)
    requires s.disk.term == s.term
    ensures Onward(s, NodeAfter(s, e))
  {
    match e {
      case TakeAskVote(_) => AfterVote(s, e);
      case TakeAnswerVote(_) => AfterVoteReply(s, e);
      case TakeSend(_) => AfterSend(s, e);
      case TakeReply(_) => AfterReply(s, e);
      case CrashInMerge(_, _) => AfterCrashInMerge(s, e);
      case CrashInTerm(_) => AfterCrashInTerm(s, e);
      case _ => AfterOther(s, e);
    }
  }

  lemma StepOnward(states: seq<State>, events: seq<Event>, i: nat, n: Id)
    requires IsRun(states, events) && i < |events| && n in states[i].nodes
    ensures n in states[i + 1].nodes && Onward(states[i].nodes[n], states[i + 1].nodes[n])
  {
    var m := LocalAt(states, events, i, n);
    StepOf(states, events, i, n);
    if n == Actor(events[i]) { EventOnward(states[i].nodes[n], events[i]); }
  }

  lemma {:induction false} TermsNeverFall(states: seq<State>, events: seq<Event>, i: nat, j: nat, n: Id)
    requires IsRun(states, events) && i <= j < |states| && n in states[i].nodes
    ensures n in states[j].nodes && states[i].nodes[n].term <= states[j].nodes[n].term
    decreases j
  {
    if i < j {
      TermsNeverFall(states, events, i, j - 1, n);
      StepOnward(states, events, j - 1, n);
    }
  }

  /** A node that led a term and lost it never leads it again, nor stands in it. */
  lemma {:induction false} NeverAgain(states: seq<State>, events: seq<Event>, i: nat, j: nat, n: Id)
    requires IsRun(states, events) && i <= j < |states| && n in states[i].nodes && states[i].nodes[n].role != Candidate
    ensures n in states[j].nodes
    ensures var s, s' := states[i].nodes[n], states[j].nodes[n];
      s.term <= s'.term && (s'.term == s.term ==> s'.role != Candidate && (s'.role == Leader ==> s.role == Leader))
    decreases j
  {
    if i < j {
      NeverAgain(states, events, i, j - 1, n);
      StepOnward(states, events, j - 1, n);
    }
  }

  /** matchIndex is monotone: for as long as a node leads a term, no peer's matchIndex falls. */
  lemma {:induction false} MatchIndexMonotone(states: seq<State>, events: seq<Event>, i: nat, j: nat, n: Id)
    requires IsRun(states, events) && i <= j < |states| && n in states[i].nodes && n in states[j].nodes
    requires states[i].nodes[n].role == states[j].nodes[n].role == Leader && states[i].nodes[n].term == states[j].nodes[n].term
    ensures NoLess(states[i].nodes[n].matchIndex, states[j].nodes[n].matchIndex)
    decreases j
  {
    if i < j {
      NeverAgain(states, events, i, j - 1, n);
      StepOnward(states, events, j - 1, n);
      MatchIndexMonotone(states, events, i, j - 1, n);
    }
  }
}
