/** A call that is told its entry is committed is told so by a node that has applied the entry. */
module Answers {
  import opened Types
  import opened NodeSpec
  import opened Window
  import opened NodeSim
  import opened Tickets
  import opened Cluster
  import opened Safety

  /** New success answers are about entries the node has applied by then. */
  ghost predicate AppliedFirst(s: NodeState, s': NodeState) {
    forall x | x in s'.answers && x !in s.answers && x.committed :: x.ticket.entry.index <= s'.applied
  }

  /** Blocked calls are those of a leader, each under its entry's index, and positions are indices. */
  predicate Orderly(s: NodeState) {
    && (s.waiters != map[] ==> s.role == Leader)
    && (forall i | i in s.waiters :: s.waiters[i].entry.index == i)
    && Indexed(s.log, s.offset)
  }

  lemma RoleFailures(s: NodeState, r: Role)
    ensures OnlyFailures(s, SetRole(s, r))
  {
  }

  lemma ObserveFailures(s: NodeState, t: nat)
    ensures OnlyFailures(s, ObserveTerm(s, t))
  {
    RoleFailures(s.(term := t, votedFor := None), Follower);
  }

  lemma VoteApplied(s: NodeState, ask: VoteRequest)
    ensures AppliedFirst(s, HandleVote(s, ask).0)
  {
    ObserveFailures(s, ask.term);
  }

  lemma VoteReplyApplied(s: NodeState, t: nat, vote: VoteReply)
    ensures AppliedFirst(s, HandleVoteReply(s, t, vote))
  {
    ObserveFailures(s, vote.term);
  }

  lemma {:induction false} ApplySilent(s: NodeState)
    requires s.waiters == map[]
    ensures ApplyCommitted(s).answers == s.answers
    decreases s.commit - s.applied
  {
    if s.applied < s.commit {
      ApplyUnfolds(s);
      if EntryAt(s, s.applied + 1).Some? { ApplySilent(ApplyNext(s, EntryAt(s, s.applied + 1).value)); }
    }
  }

  lemma AnswerSilent(s: NodeState, req: AppendRequest)
    requires s.waiters == map[]
    ensures AnswerLeader(s, req).0.answers == s.answers
  {
    var s1 := MergeEntries(s, req.prevIndex, req.entries);
    MergeCalls(s, req.prevIndex, req.entries);
    ApplySilent(s1.(commit := Min(req.commit, LastIndex(s1))));
  }

  /** A follower has no blocked calls left to answer. */
  lemma FollowEmpty(s: NodeState, t: nat, leader: Id)
    requires s.waiters != map[] ==> s.role == Leader
    ensures var s' := FollowLeader(ObserveTerm(s, t), leader); s'.waiters == map[] && OnlyFailures(s, s')
  {
    var s1 := ObserveTerm(s, t);
    ObserveFailures(s, t);
    assert s1.waiters != map[] ==> s1.role == Leader;
    RoleFailures(s1, Follower);
  }

  lemma AppendApplied(s: NodeState, req: AppendRequest)
    requires s.waiters != map[] ==> s.role == Leader
    ensures AppliedFirst(s, HandleAppend(s, req).0)
  {
    ObserveFailures(s, req.term);
    FollowEmpty(s, req.term, req.leader);
    AnswerSilent(FollowLeader(ObserveTerm(s, req.term), req.leader), req);
  }

  lemma NextOrderly(s: NodeState, e: Entry)
    requires Orderly(s) && e.index == s.applied + 1
    ensures Orderly(ApplyNext(s, e)) && AppliedFirst(s, ApplyNext(s, e))
  {
  }

  lemma AppliedMore(s: NodeState, s1: NodeState, s2: NodeState)
    requires AppliedFirst(s, s1) && AppliedFirst(s1, s2) && s1.applied <= s2.applied
    ensures AppliedFirst(s, s2)
  {
  }

  lemma {:induction false} ApplyGrows(s: NodeState)
    ensures s.applied <= ApplyCommitted(s).applied
    decreases s.commit - s.applied
  {
    if s.applied < s.commit {
      ApplyUnfolds(s);
      if EntryAt(s, s.applied + 1).Some? { ApplyGrows(ApplyNext(s, EntryAt(s, s.applied + 1).value)); }
    }
  }

  lemma {:induction false} ApplyApplied(s: NodeState)
    requires Orderly(s)
    ensures AppliedFirst(s, ApplyCommitted(s))
    decreases s.commit - s.applied
  {
    if s.applied < s.commit {
      ApplyUnfolds(s);
      if EntryAt(s, s.applied + 1).Some? {
        var e := EntryAt(s, s.applied + 1).value;
        NextOrderly(s, e);
        ApplyApplied(ApplyNext(s, e));
        ApplyGrows(ApplyNext(s, e));
        AppliedMore(s, ApplyNext(s, e), ApplyCommitted(ApplyNext(s, e)));
      }
    }
  }

  lemma ReplyApplied(s: NodeState, peer: Id, req: AppendRequest, reply: AppendReply)
    requires Orderly(s)
    ensures AppliedFirst(s, FinishAppend(s, peer, req, reply))
  {
    if reply.term > s.term {
      ObserveFailures(s, reply.term);
    } else {
      RecordApplied(s, peer, req.prevIndex + |req.entries|);
    }
  }

  lemma RecordApplied(s: NodeState, peer: Id, k: nat)
    requires Orderly(s)
    ensures AppliedFirst(s, AdvanceCommit(RecordMatch(s, peer, k)))
  {
    var s1 := RecordMatch(s, peer, k);
    ApplyApplied(s1.(commit := FindCommit(s1, LastIndex(s1))));
  }

  lemma MidMergeFailures(s: NodeState, req: AppendRequest, records: nat)
    requires s.waiters != map[] ==> s.role == Leader
    ensures OnlyFailures(s, DiskMidMerge(s, req, records))
  {
    ObserveFailures(s, req.term);
    FollowEmpty(s, req.term, req.leader);
    MergePartCalls(FollowLeader(ObserveTerm(s, req.term), req.leader), req, records);
  }

  lemma SameApplied(s: NodeState, s': NodeState)
    requires s'.answers == s.answers
    ensures AppliedFirst(s, s')
  {
  }

  lemma RestartApplied(s: NodeState, s1: NodeState)
    requires OnlyFailures(s, s1)
    ensures AppliedFirst(s, Recover(s1))
  {
  }

  lemma AfterVote(s: NodeState, e: Event)
    requires e.TakeAskVote?
    ensures AppliedFirst(s, NodeAfter(s, e))
  {
    if e.p.AskVote? { VoteApplied(s, e.p.ask); }
  }

  lemma AfterVoteReply(s: NodeState, e: Event)
    requires e.TakeAnswerVote?
    ensures AppliedFirst(s, NodeAfter(s, e))
  {
    if e.p.AnswerVote? { VoteReplyApplied(s, e.p.ask.term, e.p.vote); }
  }

  lemma AfterSend(s: NodeState, e: Event)
    requires Orderly(s) && e.TakeSend?
    ensures AppliedFirst(s, NodeAfter(s, e))
  {
    if e.p.Send? { AppendApplied(s, e.p.req); }
  }

  lemma AfterReply(s: NodeState, e: Event)
    requires Orderly(s) && e.TakeReply?
    ensures AppliedFirst(s, NodeAfter(s, e))
  {
    if e.p.Reply? { ReplyApplied(s, e.p.from, e.p.req, e.p.reply); }
  }

  lemma AfterCrashInMerge(s: NodeState, e: Event)
    requires Orderly(s) && e.CrashInMerge?
    ensures AppliedFirst(s, NodeAfter(s, e))
  {
    if e.p.Send? {
      CrashInMergeApplied(s, e.p.req, e.records);
      CrashInMergeIs(s, e);
    }
  }

  lemma CrashInMergeIs(s: NodeState, e: Event)
    requires e.CrashInMerge? && e.p.Send?
    ensures NodeAfter(s, e) == Recover(DiskMidMerge(s, e.p.req, e.records))
  {
  }

  lemma CrashInMergeApplied(s: NodeState, req: AppendRequest, records: nat)
    requires Orderly(s)
    ensures AppliedFirst(s, Recover(DiskMidMerge(s, req, records)))
  {
    MidMergeFailures(s, req, records);
    RestartApplied(s, DiskMidMerge(s, req, records));
  }

  lemma AfterCrashInTerm(s: NodeState, e: Event)
    requires e.CrashInTerm?
    ensures AppliedFirst(s, NodeAfter(s, e))
  {
    ObserveFailures(s, TermIn(e.p));
    RestartApplied(s, ObserveTerm(s, TermIn(e.p)));
  }

  lemma EventApplied(s: NodeState, e: Event)
    requires Orderly(s)
    ensures AppliedFirst(s, NodeAfter(s, e))
  {
    match e {
      case Timeout(_) => RoleFailures(s, Candidate);
      case TakeAskVote(_) => AfterVote(s, e);
      case TakeAnswerVote(_) => AfterVoteReply(s, e);
      case TakeSend(_) => AfterSend(s, e);
      case TakeReply(_) => AfterReply(s, e);
      case CrashInMerge(_, _) => AfterCrashInMerge(s, e);
      case CrashInTerm(_) => AfterCrashInTerm(s, e);
      case _ => SilentEvent(s, e); SameApplied(s, NodeAfter(s, e));
    }
  }

  lemma SilentEvent(s: NodeState, e: Event)
    requires !e.TakeAskVote? && !e.TakeAnswerVote? && !e.TakeSend? && !e.TakeReply? && !e.CrashInMerge? && !e.CrashInTerm? && !e.Timeout?
    ensures NodeAfter(s, e).answers == s.answers
  {
  }

  lemma RunOrderly(states: seq<State>, events: seq<Event>, i: nat, n: Id)
    requires IsRun(states, events) && i < |states| && n in states[i].nodes
    ensures Orderly(states[i].nodes[n])
  {
    var s := states[i].nodes[n];
    forall k | 0 <= k < |s.log|
      ensures s.log[k].index == s.offset + k + 1
    {
      LogTermsSorted(states, events, i, n, k, k);
    }
    forall k: nat | k in s.waiters
      ensures s.role == Leader && s.waiters[k].entry.index == k
    {
      PendingOnLeader(states, events, i, n, k);
    }
  }

  /** The moment a success answer was given: the node had applied the call's entry, which is the chosen one from then on. */
  lemma {:induction false} AnsweredWhenApplied(states: seq<State>, events: seq<Event>, i: nat, n: Id, x: Answer) returns (k: nat)
    requires IsRun(states, events) && i < |states| && n in states[i].nodes && x in states[i].nodes[n].answers && x.committed
    ensures k <= i && n in states[k].nodes && x in states[k].nodes[n].answers
    ensures var s, e := states[k].nodes[n], x.ticket.entry;
      0 < e.index <= s.applied && s.applied <= |states[k].chosen| && states[k].chosen[e.index - 1] == e
    decreases i
  {
    k := i;
    if i > 0 {
      SameNodes(states, events, i);
      SameNodes(states, events, i - 1);
      if x in states[i - 1].nodes[n].answers {
        k := AnsweredWhenApplied(states, events, i - 1, n, x);
      } else {
        NewlyApplied(states, events, i - 1, n, x);
        AppliedIsChosen(states, events, i, n, x);
      }
    }
  }

  lemma AppliedIsChosen(states: seq<State>, events: seq<Event>, i: nat, n: Id, x: Answer)
    requires IsRun(states, events) && i < |states| && n in states[i].nodes && x in states[i].nodes[n].answers && x.committed
    ensures 0 < x.ticket.entry.index && states[i].nodes[n].applied <= |states[i].chosen|
    ensures x.ticket.entry.index <= |states[i].chosen| && states[i].chosen[x.ticket.entry.index - 1] == x.ticket.entry
  {
    CommittedAnswerSound(states, events, i, n, x, i);
    StateMachineSafety(states, events, i, n);
  }

  lemma NewlyApplied(states: seq<State>, events: seq<Event>, i: nat, n: Id, x: Answer)
    requires IsRun(states, events) && i < |events| && n in states[i].nodes && n in states[i + 1].nodes
    requires x in states[i + 1].nodes[n].answers && x !in states[i].nodes[n].answers && x.committed
    ensures x.ticket.entry.index <= states[i + 1].nodes[n].applied
  {
    RunOrderly(states, events, i, n);
    StepOf(states, events, i, n);
    if n == Actor(events[i]) { EventApplied(states[i].nodes[n], events[i]); }
  }
}
