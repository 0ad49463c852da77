/**
  What nodes learn from each other: every message carries its sender's term, every receiver it is meant
  for takes over a higher one, and the leader a node knows is one that led.
 */
module Heard {
  import opened Types
  import opened NodeSpec
  import opened NodeSim
  import opened Cluster
  import opened Safety
  import opened Leadership
  import opened Pending

  // ---- Terms ---------------------------------------------------------------------------------

  /** Whatever a node sends, of its own accord or in answer, carries the term it is in by then. */
  lemma SentTerm(s: NodeState, e: Event)
    ensures forall q | q in Sent(s, e) :: TermIn(q) == NodeAfter(s, e).term
  {
    match e {
      case TakeAskVote(p) => if p.AskVote? { VoteReplyIs(s, p.ask); VoteTerm(s, p.ask); }
      case TakeSend(p) => if p.Send? { AppendTerm(s, p.req); }
      case _ =>
    }
  }

  /** Reached by a higher term, a node takes it over, on disk too, and follows; a vote it may cast at once. */
  ghost predicate Heeds(s: NodeState, s': NodeState, t: nat) {
    && s'.term == Max(s.term, t)
    && (t > s.term ==> s'.role == Follower && s'.disk.term == t)
  }

  lemma ObserveHeeds(s: NodeState, t: nat)
    ensures Heeds(s, ObserveTerm(s, t), t) && (t > s.term ==> ObserveTerm(s, t).votedFor == ObserveTerm(s, t).disk.votedFor == None)
  {
  }

  lemma VoteTerm(s: NodeState, ask: VoteRequest)
    ensures Heeds(s, HandleVote(s, ask).0, ask.term)
  {
    ObserveHeeds(s, ask.term);
  }

  lemma VoteReplyTerm(s: NodeState, t: nat, vote: VoteReply)
    ensures Heeds(s, HandleVoteReply(s, t, vote), vote.term)
  {
    ObserveHeeds(s, vote.term);
  }

  /** A request of an older term is refused with the node's own and changes nothing; any other makes its sender the leader. */
  lemma AppendTerm(s: NodeState, req: AppendRequest)
    ensures var (s', reply) := HandleAppend(s, req);
      && Heeds(s, s', req.term) && reply.term == s'.term
      && if req.term < s.term then s' == s && !reply.success else s'.role == Follower && s'.leader == Some(req.leader)
  {
    ObserveHeeds(s, req.term);
    AnswerKeeps(FollowLeader(ObserveTerm(s, req.term), req.leader), req);
  }

  lemma {:induction false} ReplyTerm(s: NodeState, peer: Id, req: AppendRequest, reply: AppendReply)
    ensures var s' := FinishAppend(s, peer, req, reply);
      if s.role == Leader && s.term == req.term then Heeds(s, s', reply.term) && s'.leader == s.leader else s' == s
  {
    ObserveHeeds(s, reply.term);
    var s1 := RecordMatch(s, peer, req.prevIndex + |req.entries|);
    ApplyKeeps(s1.(commit := FindCommit(s1, LastIndex(s1))));
  }

  /** A reply to AppendEntries counts only for the leader of the term it was sent in; every other message is heeded by all. */
  predicate Minds(s: NodeState, p: Packet) {
    p.Reply? ==> s.role == Leader && s.term == p.req.term
  }

  /** Over a run: once a node has handled a message meant for it, it is in that message's term or a later one. */
  lemma TermsSpread(states: seq<State>, events: seq<Event>, i: nat, n: Id, p: Packet)
    requires IsRun(states, events) && i < |events| && n in states[i].nodes && Actor(events[i]) == n
    requires events[i] in {TakeAskVote(p), TakeAnswerVote(p), TakeSend(p), TakeReply(p)} && Minds(states[i].nodes[n], p)
    ensures n in states[i + 1].nodes && Heeds(states[i].nodes[n], states[i + 1].nodes[n], TermIn(p))
  {
    var s := states[i].nodes[n];
    assert StepAt(states, events, i);
    StepOf(states, events, i, n);
    match p {
      case AskVote(_, _, ask) => VoteTerm(s, ask);
      case AnswerVote(_, _, ask, vote) => VoteReplyTerm(s, ask.term, vote);
      case Send(_, _, req) => AppendTerm(s, req);
      case Reply(from, _, req, reply) => ReplyTerm(s, from, req, reply);
    }
  }

  // ---- Leaders -------------------------------------------------------------------------------

  /** At moment k the node led the term. */
  predicate Led(states: seq<State>, k: nat, n: Id, t: nat) {
    k < |states| && n in states[k].nodes && states[k].nodes[n].role == Leader && states[k].nodes[n].term == t
  }

  /** Every request on the network was built by the leader it names, in the term it names. */
  lemma {:induction false} SentByLeader(states: seq<State>, events: seq<Event>, i: nat, p: Packet) returns (k: nat)
    requires IsRun(states, events) && i < |states| && p in states[i].net && p.Send?
    ensures k <= i && p.req.leader == p.from && Led(states, k, p.from, p.req.term)
    ensures p.to in states[k].nodes[p.from].peers && p.req == RequestFor(states[k].nodes[p.from], p.to)
    decreases i
  {
    k := i;
    if i > 0 {
      assert StepAt(states, events, i - 1);
      if p in states[i - 1].net {
        k := SentByLeader(states, events, i - 1, p);
      } else {
        k := i - 1;
        JustSent(states[i - 1], events[i - 1], p);
        NamedSo(states, events, i - 1, p.from);
      }
    }
  }

  lemma JustSent(c: State, e: Event, p: Packet)
    requires Enabled(c, e) && p in Act(c, e).net && p !in c.net && p.Send?
    ensures p.from in c.nodes && c.nodes[p.from].role == Leader && p.to in c.nodes[p.from].peers
    ensures p.req == RequestFor(c.nodes[p.from], p.to) && p.req.term == c.nodes[p.from].term && p.req.leader == c.nodes[p.from].id
  {
  }

  /** The event tells the node that q leads: a request of its term or a later one, or its own election. */
  predicate Learns(s: NodeState, e: Event, q: Id) {
    || (e.TakeSend? && e.p.Send? && e.p.req.term >= s.term && e.p.req.leader == q)
    || (s.role != Leader && NodeAfter(s, e).role == Leader && s.id == q)
  }

  /** What an event makes of the known leader. */
  function LeaderThen(s: NodeState, e: Event): Option<Id> {
    if Dies(e) then None
    else if e.TakeSend? && e.p.Send? && e.p.req.term >= s.term then Some(e.p.req.leader)
    else if s.role != Leader && NodeAfter(s, e).role == Leader then Some(s.id)
    else s.leader
  }

  lemma LeaderAfter(s: NodeState, e: Event)
    requires e.CrashInMerge? ==> e.p.Send?
    ensures NodeAfter(s, e).leader == LeaderThen(s, e)
  {
    match e {
      case TakeAskVote(p) => if p.AskVote? { VoteLeader(s, p.ask); }
      case TakeAnswerVote(p) => if p.AnswerVote? { VoteReplyLeader(s, p.ask.term, p.vote); }
      case TakeSend(p) => if p.Send? { AppendTerm(s, p.req); }
      case TakeReply(p) => if p.Reply? { ReplyTerm(s, p.from, p.req, p.reply); }
      case _ => OtherLeader(s, e);
    }
  }

  lemma VoteLeader(s: NodeState, ask: VoteRequest)
    ensures var s' := HandleVote(s, ask).0; s'.leader == s.leader && (s'.role == s.role || s'.role == Follower)
  {
    ObserveLeader(s, ask.term);
  }

  lemma ObserveLeader(s: NodeState, t: nat)
    ensures var s' := ObserveTerm(s, t); s'.leader == s.leader && (s'.role == s.role || s'.role == Follower)
  {
  }

  lemma VoteReplyLeader(s: NodeState, t: nat, vote: VoteReply)
    ensures var s' := HandleVoteReply(s, t, vote);
      s'.leader == if s.role != Leader && s'.role == Leader then Some(s.id) else s.leader
  {
  }

  lemma OtherLeader(s: NodeState, e: Event)
    requires !e.TakeAskVote? && !e.TakeAnswerVote? && !e.TakeSend? && !e.TakeReply? && (e.CrashInMerge? ==> e.p.Send?)
    ensures NodeAfter(s, e).leader == LeaderThen(s, e)
  {
    match e {
      case Crash(_) =>
      case CrashInMerge(_, _) =>
      case CrashInCompaction(_, _, _) =>
      case CrashInTerm(_) =>
      case CrashInCatchUp(_, _) =>
      case Timeout(_) =>
      case WinAlone(_) =>
      case _ =>
    }
  }

  /** At moment k the node was told that q leads, and it has not died between then and moment i. */
  predicate ToldAt(states: seq<State>, events: seq<Event>, k: nat, i: nat, n: Id, q: Id) {
    && k < i < |states| && |states| == |events| + 1
    && Actor(events[k]) == n && n in states[k].nodes && Learns(states[k].nodes[n], events[k], q)
    && forall m {:trigger events[m]} | k < m < i && Actor(events[m]) == n :: !Dies(events[m])
  }

  lemma {:induction false} Told(states: seq<State>, events: seq<Event>, i: nat, n: Id, q: Id) returns (k: nat)
    requires IsRun(states, events) && i < |states| && n in states[i].nodes && states[i].nodes[n].leader == Some(q)
    ensures ToldAt(states, events, k, i, n, q)
    decreases i
  {
    SameNodes(states, events, i);
    if i > 0 {
      SameNodes(states, events, i - 1);
      StepKnows(states, events, i - 1, n, q);
      if Actor(events[i - 1]) == n && Learns(states[i - 1].nodes[n], events[i - 1], q) {
        k := i - 1;
      } else {
        k := Told(states, events, i - 1, n, q);
      }
    }
  }

  /**
    In every run the leader a node knows told it so, by a request or by being itself, with no crash of the
    node since, and led a term that is not beyond the node's own.
   */
  lemma KnownLeaderLed(states: seq<State>, events: seq<Event>, i: nat, n: Id, q: Id) returns (k: nat, h: nat, t: nat)
    requires IsRun(states, events) && i < |states| && n in states[i].nodes && states[i].nodes[n].leader == Some(q)
    ensures ToldAt(states, events, k, i, n, q)
    ensures h <= k + 1 && Led(states, h, q, t) && t <= states[i].nodes[n].term
  {
    k := Told(states, events, i, n, q);
    h, t := LearnsOfLeader(states, events, k, n, q);
    TermsNeverFall(states, events, k + 1, i, n);
  }

  lemma StepKnows(states: seq<State>, events: seq<Event>, i: nat, n: Id, q: Id)
    requires IsRun(states, events) && i < |events| && n in states[i].nodes && n in states[i + 1].nodes
    requires states[i + 1].nodes[n].leader == Some(q)
    ensures if Actor(events[i]) == n then Learns(states[i].nodes[n], events[i], q) || (states[i].nodes[n].leader == Some(q) && !Dies(events[i]))
            else states[i].nodes[n].leader == Some(q)
  {
    StepOf(states, events, i, n);
    assert StepAt(states, events, i);
    if Actor(events[i]) == n { LeaderAfter(states[i].nodes[n], events[i]); }
  }

  lemma LearnsOfLeader(states: seq<State>, events: seq<Event>, k: nat, n: Id, q: Id) returns (h: nat, t: nat)
    requires IsRun(states, events) && k < |events| && Actor(events[k]) == n && n in states[k].nodes && Learns(states[k].nodes[n], events[k], q)
    ensures n in states[k + 1].nodes && h <= k + 1 && Led(states, h, q, t) && t <= states[k + 1].nodes[n].term
  {
    var s, e := states[k].nodes[n], events[k];
    StepOf(states, events, k, n);
    assert StepAt(states, events, k);
    if e.TakeSend? && e.p.Send? && e.p.req.term >= s.term && e.p.req.leader == q {
      AppendTerm(s, e.p.req);
      h := SentByLeader(states, events, k, e.p);
      t := e.p.req.term;
    } else {
      NamedSo(states, events, k, n);
      h, t := k + 1, states[k + 1].nodes[n].term;
    }
  }
}
