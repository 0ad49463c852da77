/** Blocked ProposeSync calls: each is answered at most once, whatever happens to its node. */
module Tickets {
  import opened Types
  import opened NodeSpec
  import opened Cluster

  predicate SameTicket(a: Ticket, b: Ticket) {
    a.id == b.id
  }

  /** Ticket numbers are used once, and no call is both waiting and answered, or answered twice. */
  ghost predicate Once(waiters: map<nat, Ticket>, answers: multiset<Answer>, issued: nat) {
    && (forall x | x in answers :: x.ticket.id < issued && answers[x] == 1)
    && (forall x, y {:trigger SameTicket(x.ticket, y.ticket)} | x in answers && y in answers :: SameTicket(x.ticket, y.ticket) ==> x == y)
    && (forall i | i in waiters :: waiters[i].id < issued)
    && (forall i, j {:trigger SameTicket(waiters[i], waiters[j])} | i in waiters && j in waiters :: SameTicket(waiters[i], waiters[j]) ==> i == j)
    && (forall i, x {:trigger SameTicket(waiters[i], x.ticket)} | i in waiters && x in answers :: !SameTicket(waiters[i], x.ticket))
  }

  ghost predicate OnceOnly(n: NodeState) {
    Once(n.waiters, n.answers, n.issued)
  }

  /** The part of the state this is about. */
  predicate SameCalls(n: NodeState, n': NodeState) {
    n'.waiters == n.waiters && n'.answers == n.answers && n'.issued == n.issued
  }

  lemma SameOnce(n: NodeState, n': NodeState)
    requires OnceOnly(n) && SameCalls(n, n')
    ensures OnceOnly(n')
  {
  }

  lemma CancelOnce(n: NodeState, i: nat)
    requires OnceOnly(n)
    ensures OnceOnly(n.(waiters := n.waiters - {i}))
  {
  }

  function Failed(n: NodeState): set<Answer> {
    set i | i in n.waiters :: Answer(n.waiters[i], false)
  }

  /** The answers of a lost leadership are new, and no two of them are about one call. */
  lemma FailedOnce(n: NodeState)
    requires OnceOnly(n)
    ensures forall x, y {:trigger SameTicket(x.ticket, y.ticket)} | x in Failed(n) && y in n.answers :: !SameTicket(x.ticket, y.ticket)
    ensures forall x, y {:trigger SameTicket(x.ticket, y.ticket)} | x in Failed(n) && y in Failed(n) :: SameTicket(x.ticket, y.ticket) ==> x == y
  {
    var failed := Failed(n);
    forall x, y | x in failed && y in n.answers
      ensures !SameTicket(x.ticket, y.ticket)
    {
      var i :| i in n.waiters && x == Answer(n.waiters[i], false);
      assert !SameTicket(n.waiters[i], y.ticket);
    }
    forall x, y | x in failed && y in failed && SameTicket(x.ticket, y.ticket)
      ensures x == y
    {
      var i :| i in n.waiters && x == Answer(n.waiters[i], false);
      var j :| j in n.waiters && y == Answer(n.waiters[j], false);
      assert SameTicket(n.waiters[i], n.waiters[j]);
    }
  }

  lemma AbortOnce(n: NodeState)
    requires OnceOnly(n)
    ensures OnceOnly(AbortWaiters(n))
  {
    var failed, n' := Failed(n), AbortWaiters(n);
    FailedOnce(n);
    forall x | x in n'.answers
      ensures x.ticket.id < n.issued && n'.answers[x] == 1
    {
      assert SameTicket(x.ticket, x.ticket);
      assert x in n.answers || x in failed;
    }
    forall x, y | x in n'.answers && y in n'.answers && SameTicket(x.ticket, y.ticket)
      ensures x == y
    {
      assert (x in n.answers || x in failed) && (y in n.answers || y in failed);
      assert SameTicket(y.ticket, x.ticket);
    }
  }

  lemma RoleOnce(n: NodeState, role: Role)
    requires OnceOnly(n)
    ensures OnceOnly(SetRole(n, role))
  {
    AbortOnce(n);
  }

  lemma ObserveOnce(n: NodeState, t: nat)
    requires OnceOnly(n)
    ensures OnceOnly(ObserveTerm(n, t))
  {
    RoleOnce(n.(term := t, votedFor := None), Follower);
  }

  lemma NextOnce(n: NodeState, e: Entry)
    requires OnceOnly(n)
    ensures OnceOnly(ApplyNext(n, e))
  {
    var n' := ApplyNext(n, e);
    if e.index in n.waiters {
      var x := Answer(n.waiters[e.index], true);
      assert forall y :: y in n'.answers <==> y in n.answers || y == x;
      assert x !in n.answers by { assert SameTicket(n.waiters[e.index], x.ticket); }
      forall y | y in n.answers
        ensures !SameTicket(x.ticket, y.ticket) && !SameTicket(y.ticket, x.ticket)
      {
        assert !SameTicket(n.waiters[e.index], y.ticket);
      }
      forall i | i in n'.waiters
        ensures !SameTicket(n'.waiters[i], x.ticket)
      {
        assert SameTicket(n.waiters[i], n.waiters[e.index]) ==> i == e.index;
      }
    }
  }

  lemma {:induction false} ApplyOnce(n: NodeState)
    requires OnceOnly(n)
    ensures OnceOnly(ApplyCommitted(n))
    decreases n.commit - n.applied
  {
    if n.applied < n.commit {
      ApplyUnfolds(n);
      if EntryAt(n, n.applied + 1).Some? {
        var e := EntryAt(n, n.applied + 1).value;
        NextOnce(n, e);
        ApplyOnce(ApplyNext(n, e));
      }
    }
  }

  lemma SyncOnce(n: NodeState, c: Command)
    requires OnceOnly(n)
    ensures OnceOnly(ProposeSync(n, c))
  {
  }

  lemma MergeCalls(n: NodeState, prev: nat, entries: Log)
    ensures SameCalls(n, MergeEntries(n, prev, entries))
  {
  }

  lemma MergePartCalls(n: NodeState, req: AppendRequest, records: nat)
    ensures SameCalls(n, MergePart(n, req, records))
  {
  }

  lemma AnswerOnce(n: NodeState, req: AppendRequest)
    requires OnceOnly(n)
    ensures OnceOnly(AnswerLeader(n, req).0)
  {
    var n1 := MergeEntries(n, req.prevIndex, req.entries);
    MergeCalls(n, req.prevIndex, req.entries);
    ApplyOnce(n1.(commit := Min(req.commit, LastIndex(n1))));
  }

  lemma FollowOnce(n: NodeState, t: nat, leader: Id)
    requires OnceOnly(n)
    ensures OnceOnly(FollowLeader(ObserveTerm(n, t), leader))
  {
    ObserveOnce(n, t);
    RoleOnce(ObserveTerm(n, t), Follower);
    assert SameCalls(SetRole(ObserveTerm(n, t), Follower), FollowLeader(ObserveTerm(n, t), leader));
  }

  lemma AppendOnce(n: NodeState, req: AppendRequest)
    requires OnceOnly(n)
    ensures OnceOnly(HandleAppend(n, req).0)
  {
    ObserveOnce(n, req.term);
    FollowOnce(n, req.term, req.leader);
    AnswerOnce(FollowLeader(ObserveTerm(n, req.term), req.leader), req);
  }

  lemma AdvanceOnce(n: NodeState)
    requires OnceOnly(n)
    ensures OnceOnly(AdvanceCommit(n))
  {
    ApplyOnce(n.(commit := FindCommit(n, LastIndex(n))));
  }

  lemma ReplyOnce(n: NodeState, peer: Id, req: AppendRequest, reply: AppendReply)
    requires OnceOnly(n)
    ensures OnceOnly(FinishAppend(n, peer, req, reply))
  {
    if n.role == Leader && n.term == req.term { HandleReplyOnce(n, peer, req.prevIndex, |req.entries|, reply); }
  }

  lemma HandleReplyOnce(n: NodeState, peer: Id, sentPrev: nat, numEntries: nat, reply: AppendReply)
    requires OnceOnly(n)
    ensures OnceOnly(HandleAppendReply(n, peer, sentPrev, numEntries, reply))
  {
    if reply.term > n.term {
      ObserveOnce(n, reply.term);
    } else if reply.success {
      RecordOnce(n, peer, sentPrev + numEntries);
      AdvanceOnce(RecordMatch(n, peer, sentPrev + numEntries));
    }
  }

  lemma RecordOnce(n: NodeState, peer: Id, k: nat)
    requires OnceOnly(n)
    ensures OnceOnly(RecordMatch(n, peer, k))
  {
    assert SameCalls(n, RecordMatch(n, peer, k));
  }

  lemma VoteOnce(n: NodeState, ask: VoteRequest)
    requires OnceOnly(n)
    ensures OnceOnly(HandleVote(n, ask).0)
  {
    ObserveOnce(n, ask.term);
    assert SameCalls(ObserveTerm(n, ask.term), HandleVote(n, ask).0);
  }

  lemma VoteReplyOnce(n: NodeState, t: nat, vote: VoteReply)
    requires OnceOnly(n)
    ensures OnceOnly(HandleVoteReply(n, t, vote))
  {
    if vote.term > n.term {
      ObserveOnce(n, vote.term);
    } else {
      assert SameCalls(n, HandleVoteReply(n, t, vote));
    }
  }

  lemma ElectionOnce(n: NodeState)
    requires OnceOnly(n)
    ensures OnceOnly(StartElection(n))
  {
    RoleOnce(n, Candidate);
    if n.role != Leader { assert SameCalls(SetRole(n, Candidate), StartElection(n)); }
  }

  lemma MidMergeOnce(n: NodeState, req: AppendRequest, records: nat)
    requires OnceOnly(n)
    ensures OnceOnly(DiskMidMerge(n, req, records))
  {
    ObserveOnce(n, req.term);
    FollowOnce(n, req.term, req.leader);
    MergePartCalls(FollowLeader(ObserveTerm(n, req.term), req.leader), req, records);
  }

  lemma RecoverOnce(n: NodeState)
    requires OnceOnly(n)
    ensures OnceOnly(Recover(n))
  {
  }

  // ---- Each event ------------------------------------------------------------------------------

  lemma CrashInMergeOnce(n: NodeState, req: AppendRequest, records: nat)
    requires OnceOnly(n)
    ensures OnceOnly(Recover(DiskMidMerge(n, req, records)))
  {
    MidMergeOnce(n, req, records);
    RecoverOnce(DiskMidMerge(n, req, records));
  }

  lemma CrashInTermOnce(n: NodeState, t: nat)
    requires OnceOnly(n)
    ensures OnceOnly(Recover(ObserveTerm(n, t)))
  {
    ObserveOnce(n, t);
    RecoverOnce(ObserveTerm(n, t));
  }

  lemma CrashInCompactionOnce(n: NodeState, t: nat, f: File)
    requires OnceOnly(n)
    ensures OnceOnly(Recover(DiskMidCompaction(n, t, f)))
  {
    RecoverOnce(DiskMidCompaction(n, t, f));
  }

  lemma AfterVote(n: NodeState, e: Event)
    requires OnceOnly(n) && e.TakeAskVote?
    ensures OnceOnly(NodeAfter(n, e))
  {
    if e.p.AskVote? { VoteOnce(n, e.p.ask); }
  }

  lemma AfterVoteReply(n: NodeState, e: Event)
    requires OnceOnly(n) && e.TakeAnswerVote?
    ensures OnceOnly(NodeAfter(n, e))
  {
    if e.p.AnswerVote? { VoteReplyOnce(n, e.p.ask.term, e.p.vote); }
  }

  lemma AfterSend(n: NodeState, e: Event)
    requires OnceOnly(n) && e.TakeSend?
    ensures OnceOnly(NodeAfter(n, e))
  {
    if e.p.Send? { AppendOnce(n, e.p.req); }
  }

  lemma AfterReply(n: NodeState, e: Event)
    requires OnceOnly(n) && e.TakeReply?
    ensures OnceOnly(NodeAfter(n, e))
  {
    if e.p.Reply? { ReplyOnce(n, e.p.from, e.p.req, e.p.reply); }
  }

  lemma AfterTimeout(n: NodeState, e: Event)
    requires OnceOnly(n) && e.Timeout?
    ensures OnceOnly(NodeAfter(n, e))
  {
    ElectionOnce(n);
  }

  lemma AfterWriteSync(n: NodeState, e: Event)
    requires OnceOnly(n) && e.WriteSync?
    ensures OnceOnly(NodeAfter(n, e))
  {
    SyncOnce(n, e.command);
  }

  lemma AfterCancel(n: NodeState, e: Event)
    requires OnceOnly(n) && e.Cancel?
    ensures OnceOnly(NodeAfter(n, e))
  {
    CancelOnce(n, e.index);
  }

  lemma AfterCrash(n: NodeState, e: Event)
    requires OnceOnly(n) && e.Crash?
    ensures OnceOnly(NodeAfter(n, e))
  {
    RecoverOnce(n);
  }

  lemma AfterCrashInMerge(n: NodeState, e: Event)
    requires OnceOnly(n) && e.CrashInMerge?
    ensures OnceOnly(NodeAfter(n, e))
  {
    if e.p.Send? { CrashInMergeOnce(n, e.p.req, e.records); }
  }

  lemma AfterCrashInTerm(n: NodeState, e: Event)
    requires OnceOnly(n) && e.CrashInTerm?
    ensures OnceOnly(NodeAfter(n, e))
  {
    CrashInTermOnce(n, TermIn(e.p));
  }

  lemma AfterCrashInCompaction(n: NodeState, e: Event)
    requires OnceOnly(n) && e.CrashInCompaction?
    ensures OnceOnly(NodeAfter(n, e))
  {
    CrashInCompactionOnce(n, e.target, e.file);
  }

  lemma AfterCrashInCatchUp(n: NodeState, e: Event)
    requires OnceOnly(n) && e.CrashInCatchUp?
    ensures OnceOnly(NodeAfter(n, e))
  {
    RecoverOnce(n.(disk := CaughtUpDisk(n, e.file)));
  }

  lemma PlainCalls(n: NodeState, e: Event)
    requires e.WinAlone? || e.Broadcast? || e.Write? || e.Compact? || e.CatchUp?
    ensures SameCalls(n, NodeAfter(n, e))
  {
  }

  /** No event makes a node answer a call twice. */
  lemma EventOnce(n: NodeState, e: Event)
    requires OnceOnly(n)
    ensures OnceOnly(NodeAfter(n, e))
  {
    match e {
      case Timeout(_) => AfterTimeout(n, e);
      case TakeAskVote(_) => AfterVote(n, e);
      case TakeAnswerVote(_) => AfterVoteReply(n, e);
      case TakeSend(_) => AfterSend(n, e);
      case TakeReply(_) => AfterReply(n, e);
      case WriteSync(_, _) => AfterWriteSync(n, e);
      case Cancel(_, _) => AfterCancel(n, e);
      case Crash(_) => AfterCrash(n, e);
      case CrashInMerge(_, _) => AfterCrashInMerge(n, e);
      case CrashInCompaction(_, _, _) => AfterCrashInCompaction(n, e);
      case CrashInTerm(_) => AfterCrashInTerm(n, e);
      case CrashInCatchUp(_, _) => AfterCrashInCatchUp(n, e);
      case _ => PlainCalls(n, e); SameOnce(n, NodeAfter(n, e));
    }
  }

  /** Over a whole run no ProposeSync call is answered twice, and none is told both outcomes. */
  lemma {:induction false} AnsweredOnce(states: seq<State>, events: seq<Event>, i: nat, n: Id)
    requires IsRun(states, events) && i < |states| && n in states[i].nodes
    ensures OnceOnly(states[i].nodes[n])
    decreases i
  {
    if i > 0 {
      SameNodes(states, events, i);
      SameNodes(states, events, i - 1);
      AnsweredOnce(states, events, i - 1, n);
      StepOf(states, events, i - 1, n);
      if n == Actor(events[i - 1]) { EventOnce(states[i - 1].nodes[n], events[i - 1]); }
    }
  }
}
