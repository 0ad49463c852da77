/**
  How a blocked write ends: with success as soon as a majority has acknowledged it to the leader that
  still leads its term, and with a failure only at a node that does not lead that term any more.
 */
module Outcomes {
  import opened Types
  import opened NodeSpec
  import opened NodeSim
  import opened Refinement
  import opened Cluster
  import opened Safety
  import opened Leadership
  import opened Answers
  import opened Pending
  import opened Heard
  import opened Progress

  // ---- Failures ---------------------------------------------------------------------------------

  predicate Waiting(s: NodeState, t: Ticket) {
    exists k :: k in s.waiters && s.waiters[k] == t
  }

  /** New failures are about blocked calls, and leave a follower. */
  ghost predicate FailsOnly(s: NodeState, s': NodeState) {
    forall x | x in s'.answers && !x.committed :: x in s.answers || (s'.role == Follower && Waiting(s, x.ticket))
  }

  lemma FollowFails(s: NodeState)
    ensures FailsOnly(s, SetRole(s, Follower))
  {
    forall x | x in SetRole(s, Follower).answers && x !in s.answers
      ensures Waiting(s, x.ticket)
    {
      assert x in Failures(s.waiters);
    }
  }

  lemma ObserveFails(s: NodeState, t: nat)
    ensures FailsOnly(s, ObserveTerm(s, t))
  {
    FollowFails(s.(term := t, votedFor := None));
    assert forall x | Waiting(s.(term := t, votedFor := None), x) :: Waiting(s, x);
  }

  lemma {:induction false} ApplyNoFailure(s: NodeState, x: Answer)
    requires x in ApplyCommitted(s).answers && !x.committed
    ensures x in s.answers
    decreases s.commit - s.applied
  {
    if s.applied < s.commit {
      ApplyUnfolds(s);
      if EntryAt(s, s.applied + 1).Some? {
        var e := EntryAt(s, s.applied + 1).value;
        NextData(s, e);
        ApplyNoFailure(ApplyNext(s, e), x);
      }
    }
  }

  lemma HeedFails(s: NodeState, t: nat, leader: Id)
    ensures FailsOnly(s, FollowLeader(ObserveTerm(s, t), leader))
  {
    var s1 := ObserveTerm(s, t);
    ObserveFails(s, t);
    FollowFails(s1);
    assert forall x | Waiting(s1, x) :: Waiting(s, x);
  }

  lemma AppendFails(s: NodeState, req: AppendRequest)
    requires s.waiters != map[] ==> s.role == Leader
    ensures FailsOnly(s, HandleAppend(s, req).0)
  {
    ObserveFails(s, req.term);
    HeedFails(s, req.term, req.leader);
    FollowEmpty(s, req.term, req.leader);
    var s2 := FollowLeader(ObserveTerm(s, req.term), req.leader);
    AnswerSilent(s2, req);
    AnswerKeeps(s2, req);
  }

  lemma ReplyFails(s: NodeState, peer: Id, req: AppendRequest, reply: AppendReply)
    ensures FailsOnly(s, FinishAppend(s, peer, req, reply))
  {
    ObserveFails(s, reply.term);
    var s1 := RecordMatch(s, peer, req.prevIndex + |req.entries|);
    var s2 := s1.(commit := FindCommit(s1, LastIndex(s1)));
    forall x | x in ApplyCommitted(s2).answers && !x.committed
      ensures x in s.answers
    {
      ApplyNoFailure(s2, x);
    }
  }

  lemma RestartFails(s: NodeState, s1: NodeState)
    requires FailsOnly(s, s1)
    ensures FailsOnly(s, Recover(s1))
  {
  }

  lemma MidMergeFails(s: NodeState, req: AppendRequest, records: nat)
    ensures FailsOnly(s, DiskMidMerge(s, req, records))
  {
    ObserveFails(s, req.term);
    HeedFails(s, req.term, req.leader);
    PartSilent(FollowLeader(ObserveTerm(s, req.term), req.leader), req, records);
  }

  lemma PartSilent(s: NodeState, req: AppendRequest, records: nat)
    ensures var s' := MergePart(s, req, records); s'.answers == s.answers && s'.role == s.role
  {
  }

  lemma VoteFails(s: NodeState, ask: VoteRequest)
    ensures FailsOnly(s, HandleVote(s, ask).0)
  {
    ObserveFails(s, ask.term);
  }

  lemma VoteReplyFails(s: NodeState, t: nat, vote: VoteReply)
    ensures FailsOnly(s, HandleVoteReply(s, t, vote))
  {
    ObserveFails(s, vote.term);
  }

  lemma EventFails(s: NodeState, e: Event)
    requires s.waiters != map[] ==> s.role == Leader
    ensures FailsOnly(s, NodeAfter(s, e))
  {
    match e {
      case Timeout(_) =>
      case TakeAskVote(p) => if p.AskVote? { VoteFails(s, p.ask); }
      case TakeAnswerVote(p) => if p.AnswerVote? { VoteReplyFails(s, p.ask.term, p.vote); }
      case TakeSend(p) => if p.Send? { AppendFails(s, p.req); }
      case TakeReply(p) => if p.Reply? { ReplyFails(s, p.from, p.req, p.reply); }
      case CrashInMerge(p, k) => if p.Send? { MidMergeFails(s, p.req, k); RestartFails(s, DiskMidMerge(s, p.req, k)); }
      case CrashInTerm(p) => ObserveFails(s, TermIn(p)); RestartFails(s, ObserveTerm(s, TermIn(p)));
      case _ => SilentEvent(s, e);
    }
  }

  /** The node does not lead term t, and never will again. */
  predicate Deposed(s: NodeState, t: nat) {
    t <= s.term && (t == s.term ==> s.role == Follower)
  }

  lemma DeposedStays(s: NodeState, s': NodeState, t: nat)
    requires Deposed(s, t) && Onward(s, s')
    ensures Deposed(s', t)
  {
  }

  /** A call is told that leadership is lost only by a node that, from then on, does not lead the call's term. */
  lemma {:induction false} FailedMeansDeposed(states: seq<State>, events: seq<Event>, i: nat, n: Id, x: Answer)
    requires IsRun(states, events) && i < |states| && n in states[i].nodes && x in states[i].nodes[n].answers && !x.committed
    ensures Deposed(states[i].nodes[n], x.ticket.entry.term)
    decreases i
  {
    SameNodes(states, events, i);
    if i > 0 {
      SameNodes(states, events, i - 1);
      StepOnward(states, events, i - 1, n);
      if x in states[i - 1].nodes[n].answers {
        FailedMeansDeposed(states, events, i - 1, n, x);
        DeposedStays(states[i - 1].nodes[n], states[i].nodes[n], x.ticket.entry.term);
      } else {
        FailedNow(states, events, i - 1, n, x);
      }
    }
  }

  lemma FailedNow(states: seq<State>, events: seq<Event>, i: nat, n: Id, x: Answer)
    requires IsRun(states, events) && i < |events| && n in states[i].nodes && n in states[i + 1].nodes
    requires x in states[i + 1].nodes[n].answers && !x.committed && x !in states[i].nodes[n].answers
    ensures states[i + 1].nodes[n].role == Follower && x.ticket.entry.term == states[i].nodes[n].term
  {
    var s := states[i].nodes[n];
    RunOrderly(states, events, i, n);
    StepOf(states, events, i, n);
    EventFails(s, events[i]);
    var k :| k in s.waiters && s.waiters[k] == x.ticket;
    PendingOnLeader(states, events, i, n, k);
  }

  // ---- Success ------------------------------------------------------------------------------------

  /** Every reply on the network answers a request on the network. */
  lemma {:induction false} ReplyAnswers(states: seq<State>, events: seq<Event>, i: nat, p: Packet)
    requires IsRun(states, events) && i < |states| && p in states[i].net && p.Reply?
    ensures Send(p.to, p.from, p.req) in states[i].net
    decreases i
  {
    if i > 0 {
      assert StepAt(states, events, i - 1);
      if p in states[i - 1].net { ReplyAnswers(states, events, i - 1, p); }
    }
  }

  /** Before moment j, the node has handled a success reply from p for everything up to the index, in the given term. */
  predicate HeardBack(events: seq<Event>, j: nat, n: Id, t: nat, index: nat, p: Id) {
    exists m {:trigger events[m]} :: 0 <= m < j && m < |events| && HearsBack(events[m], n, t, index, p)
  }

  predicate HearsBack(e: Event, n: Id, t: nat, index: nat, p: Id) {
    && e.TakeReply? && e.p.Reply? && e.p.from == p && e.p.to == n
    && e.p.reply.success && e.p.req.term == t && e.p.req.prevIndex + |e.p.req.entries| >= index
  }

  /** Who leads a term, and was sent a reply to a request of that term earlier, was leading it then. */
  lemma LedThen(states: seq<State>, events: seq<Event>, m: nat, j: nat, n: Id, p: Packet)
    requires IsRun(states, events) && m <= j < |states| && n in states[m].nodes && n in states[j].nodes
    requires p in states[m].net && p.Reply? && p.to == n && states[j].nodes[n].role == Leader && states[j].nodes[n].term == p.req.term
    ensures states[m].nodes[n].role == Leader && states[m].nodes[n].term == p.req.term
  {
    ReplyAnswers(states, events, m, p);
    var h := SentByLeader(states, events, m, Send(n, p.from, p.req));
    NeverAgain(states, events, h, m, n);
    TermsNeverFall(states, events, m, j, n);
    NeverAgain(states, events, m, j, n);
  }

  /** A success reply handled in the leader's own term is on record for as long as the term lasts. */
  lemma HeardCounts(states: seq<State>, events: seq<Event>, m: nat, j: nat, n: Id, index: nat, p: Id)
    requires IsRun(states, events) && m < j < |states| && n in states[j].nodes && states[j].nodes[n].role == Leader
    requires HearsBack(events[m], n, states[j].nodes[n].term, index, p) && index > 0
    ensures p in states[j].nodes[n].matchIndex && states[j].nodes[n].matchIndex[p] >= index
  {
    assert StepAt(states, events, m);
    var s, e := states[m].nodes[n], events[m];
    LedThen(states, events, m, j, n, e.p);
    StepOf(states, events, m, n);
    AckInTerm(states, events, m, e.p);
    Recorded(s, p, e.p.req, e.p.reply);
    MatchIndexMonotone(states, events, m + 1, j, n);
  }

  lemma AckInTerm(states: seq<State>, events: seq<Event>, i: nat, p: Packet)
    requires IsRun(states, events) && i < |states| && p in states[i].net && p.Reply? && p.reply.success
    ensures p.reply.term == p.req.term
  {
    var models := RunFollows(states, events);
    assert StandsFor(states, models, i);
    assert PacketOk(models[i], p);
  }

  /**
    A leader that has handled acknowledgements of an entry of its term from peers that, with itself, are a
    majority has applied the entry, in whatever order and however often the replies came in.
   */
  lemma AcknowledgedCommits(states: seq<State>, events: seq<Event>, j: nat, n: Id, index: nat, acked: set<Id>)
    requires IsRun(states, events) && j < |states| && n in states[j].nodes && |states[0].nodes| >= 2
    requires var s := states[j].nodes[n];
      && s.role == Leader && EntryAt(s, index).Some? && EntryAt(s, index).value.term == s.term
      && forall p | p in acked :: HeardBack(events, j, n, s.term, index, p)
    requires 2 * (1 + |acked|) > |states[0].nodes|
    ensures index <= states[j].nodes[n].applied
  {
    var s := states[j].nodes[n];
    var holders := set p | p in s.matchIndex && s.matchIndex[p] >= index;
    forall p | p in acked
      ensures p in holders
    {
      var m {:trigger events[m]} :| 0 <= m < j && m < |events| && HearsBack(events[m], n, s.term, index, p);
      HeardCounts(states, events, m, j, n, index, p);
    }
    NoFewer(acked, holders);
    LeaderCommitsAll(states, events, j, n, index);
  }

  lemma {:induction false} NoFewer(a: set<Id>, b: set<Id>)
    requires a <= b
    ensures |a| <= |b|
  {
    assert b == a + (b - a);
  }

  /**
    From call to answer: a blocked write at a leader, once peers that with it are a majority have acknowledged
    its entry and as long as the node leads the term, has been answered with success.
   */
  lemma WriteSucceeds(states: seq<State>, events: seq<Event>, i: nat, j: nat, n: Id, x: Command, acked: set<Id>)
    requires IsRun(states, events) && i < j < |states| && events[i] == WriteSync(n, x) && |states[0].nodes| >= 2
    requires n in states[i].nodes && states[i].nodes[n].role == Leader && n in states[j].nodes && states[j].nodes[n].role == Leader
    requires states[j].nodes[n].term == states[i].nodes[n].term
    requires forall p | p in acked :: HeardBack(events, j, n, states[i].nodes[n].term, LastIndex(states[i].nodes[n]) + 1, p)
    requires 2 * (1 + |acked|) > |states[0].nodes|
    requires forall m {:trigger events[m]} | i < m < j :: !Drops(events[m], n, LastIndex(states[i].nodes[n]) + 1)
    ensures Answer(CallFor(states[i].nodes[n], x), true) in states[j].nodes[n].answers
  {
    var t, k := CallFor(states[i].nodes[n], x), LastIndex(states[i].nodes[n]) + 1;
    WriteSettled(states, events, i, j, n, x);
    if Filed(states[j].nodes[n], k, t) {
      PendingOnLeader(states, events, j, n, k);
      AcknowledgedCommits(states, events, j, n, k, acked);
    } else if Answer(t, false) in states[j].nodes[n].answers {
      FailedMeansDeposed(states, events, j, n, Answer(t, false));
    }
  }
}
