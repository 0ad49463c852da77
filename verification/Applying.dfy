/**
  What each node hands to its state machine over a run: between two restarts or catch-ups, exactly the
  committed entries from where it stood to where it stands, each once and in order.
 */
module Applying {
  import opened Types
  import opened KeyValue
  import opened NodeSpec
  import opened Window
  import opened NodeSim
  import opened Cluster
  import opened Safety
  import opened Pending
  import opened Answers
  import opened Offsets

  // ---- One call ----------------------------------------------------------------------------

  /** The entries the apply loop hands to the state machine. */
  function Passed(n: NodeState): Log
    decreases n.commit - n.applied
  {
    if n.applied >= n.commit then []
    else match EntryAt(n, n.applied + 1)
      case None => []
      case Some(e) => [e] + Passed(ApplyNext(n, e))
  }

  lemma {:induction false} PassedReplays(n: NodeState)
    ensures ApplyCommitted(n).store == Replay(n.store, Passed(n))
    decreases n.commit - n.applied
  {
    if n.applied < n.commit && EntryAt(n, n.applied + 1).Some? {
      var e := EntryAt(n, n.applied + 1).value;
      ApplyOn(n, e);
      PassedOn(n, e);
      PassedReplays(ApplyNext(n, e));
      NextData(n, e);
      ReplayCons(n.store, e, Passed(ApplyNext(n, e)));
    } else {
      PassedNone(n);
    }
  }

  lemma {:induction false} PassedOn(n: NodeState, e: Entry)
    requires n.applied < n.commit && EntryAt(n, n.applied + 1) == Some(e)
    ensures Passed(n) == [e] + Passed(ApplyNext(n, e))
  {
  }

  lemma {:induction false} PassedNone(n: NodeState)
    requires n.applied >= n.commit || EntryAt(n, n.applied + 1).None?
    ensures Passed(n) == [] && ApplyCommitted(n).store == n.store
  {
  }

  /** If the window has the entries of a log up to the commit index, these are what is handed over. */
  lemma {:induction false} PassedIs(n: NodeState, l: Log)
    requires n.applied <= n.commit <= |l|
    requires forall k: nat {:trigger EntryAt(n, k)} | n.applied < k <= n.commit :: EntryAt(n, k) == Some(l[k - 1])
    ensures Passed(n) == l[n.applied..n.commit]
    decreases n.commit - n.applied
  {
    if n.applied < n.commit {
      assert EntryAt(n, n.applied + 1) == Some(l[n.applied]);
      var n1 := ApplyNext(n, l[n.applied]);
      NextData(n, l[n.applied]);
      assert forall k: nat :: EntryAt(n1, k) == EntryAt(n, k);
      PassedIs(n1, l);
      assert l[n.applied..n.commit] == [l[n.applied]] + l[n.applied + 1..n.commit];
    }
  }

  function PassedOnLearn(n: NodeState, i: nat): Log {
    if i > n.commit then Passed(n.(commit := Min(i, LastIndex(n)))) else []
  }

  function PassedOnAdvance(n: NodeState): Log {
    var i := FindCommit(n, LastIndex(n));
    if i > n.commit then Passed(n.(commit := i)) else []
  }

  function PassedOnSend(n: NodeState, req: AppendRequest): Log {
    var n1 := ObserveTerm(n, req.term);
    if req.term < n1.term then []
    else
      var n2 := FollowLeader(n1, req.leader);
      if Conflict(n2, req).Some? then [] else PassedOnLearn(MergeEntries(n2, req.prevIndex, req.entries), req.commit)
  }

  function PassedOnReply(n: NodeState, peer: Id, req: AppendRequest, reply: AppendReply): Log {
    if n.role != Leader || n.term != req.term || reply.term > n.term || !reply.success then []
    else PassedOnAdvance(RecordMatch(n, peer, req.prevIndex + |req.entries|))
  }

  /** What an event hands to its node's state machine. */
  function Handed(n: NodeState, e: Event): Log {
    match e
    case TakeSend(p) => if p.Send? then PassedOnSend(n, p.req) else []
    case TakeReply(p) => if p.Reply? then PassedOnReply(n, p.from, p.req, p.reply) else []
    case _ => []
  }

  /** The map is set anew: the node dies or adopts a snapshot. */
  predicate Resets(e: Event) {
    Dies(e) || e.CatchUp?
  }

  // ---- What is handed over is what the map is made of -----------------------------------------

  lemma LearnReplays(n: NodeState, i: nat)
    ensures LearnCommit(n, i).store == Replay(n.store, PassedOnLearn(n, i))
  {
    PassedReplays(n.(commit := Min(i, LastIndex(n))));
  }

  lemma AdvanceReplays(n: NodeState)
    ensures AdvanceCommit(n).store == Replay(n.store, PassedOnAdvance(n))
  {
    PassedReplays(n.(commit := FindCommit(n, LastIndex(n))));
  }

  lemma HeedSame(n: NodeState, t: nat, leader: Id)
    ensures var n1 := ObserveTerm(n, t); n1.applied == n.applied && n1.commit == n.commit && n1.store == n.store
    ensures var n2 := FollowLeader(ObserveTerm(n, t), leader); n2.applied == n.applied && n2.commit == n.commit && n2.store == n.store
  {
  }

  lemma {:induction false} SendReplays(n: NodeState, req: AppendRequest)
    ensures HandleAppend(n, req).0.store == Replay(n.store, PassedOnSend(n, req))
  {
    var n2 := FollowLeader(ObserveTerm(n, req.term), req.leader);
    HeedSame(n, req.term, req.leader);
    MergeFrame(n2, req.prevIndex, req.entries);
    LearnReplays(MergeEntries(n2, req.prevIndex, req.entries), req.commit);
  }

  lemma ReplyReplays(n: NodeState, peer: Id, req: AppendRequest, reply: AppendReply)
    ensures FinishAppend(n, peer, req, reply).store == Replay(n.store, PassedOnReply(n, peer, req, reply))
  {
    if n.role == Leader && n.term == req.term && reply.term <= n.term && reply.success {
      var n1 := RecordMatch(n, peer, req.prevIndex + |req.entries|);
      AcceptedIs(n, peer, req, reply, n1);
      AdvanceReplays(n1);
    } else {
      RefusedIdle(n, peer, req, reply);
    }
  }

  lemma AcceptedIs(n: NodeState, peer: Id, req: AppendRequest, reply: AppendReply, n1: NodeState)
    requires n.role == Leader && n.term == req.term && reply.term <= n.term && reply.success
    requires n1 == RecordMatch(n, peer, req.prevIndex + |req.entries|)
    ensures FinishAppend(n, peer, req, reply) == AdvanceCommit(n1) && PassedOnReply(n, peer, req, reply) == PassedOnAdvance(n1)
    ensures n1.applied == n.applied && n1.store == n.store
  {
  }

  lemma RefusedIdle(n: NodeState, peer: Id, req: AppendRequest, reply: AppendReply)
    requires !(n.role == Leader && n.term == req.term && reply.term <= n.term && reply.success)
    ensures var n' := FinishAppend(n, peer, req, reply); n'.store == n.store && n'.applied == n.applied
  {
  }

  /** No other event touches the map or lastApplied. */
  lemma OtherIdle(n: NodeState, e: Event)
    requires !Resets(e) && !e.TakeSend? && !e.TakeReply?
    ensures NodeAfter(n, e).store == n.store && NodeAfter(n, e).applied == n.applied
  {
    match e {
      case Timeout(_) => ElectionIdle(n);
      case TakeAskVote(p) => if p.AskVote? { VoteIdle(n, p.ask); }
      case TakeAnswerVote(p) => if p.AnswerVote? { VoteReplyIdle(n, p.ask.term, p.vote); }
      case _ => PlainIdle(n, e);
    }
  }

  lemma ElectionIdle(n: NodeState)
    ensures StartElection(n).store == n.store && StartElection(n).applied == n.applied
  {
  }

  lemma VoteIdle(n: NodeState, ask: VoteRequest)
    ensures HandleVote(n, ask).0.store == n.store && HandleVote(n, ask).0.applied == n.applied
  {
    HeedSame(n, ask.term, "");
  }

  lemma VoteReplyIdle(n: NodeState, t: nat, vote: VoteReply)
    ensures HandleVoteReply(n, t, vote).store == n.store && HandleVoteReply(n, t, vote).applied == n.applied
  {
    HeedSame(n, vote.term, "");
  }

  lemma PlainIdle(n: NodeState, e: Event)
    requires e.WinAlone? || e.Broadcast? || e.Write? || e.WriteSync? || e.Cancel? || e.Compact?
    ensures NodeAfter(n, e).store == n.store && NodeAfter(n, e).applied == n.applied
  {
  }

  /** An event that does not set the map anew changes it by replaying what it hands over. */
  lemma HandedReplays(n: NodeState, e: Event)
    requires !Resets(e)
    ensures NodeAfter(n, e).store == Replay(n.store, Handed(n, e))
  {
    match e {
      case TakeSend(p) => if p.Send? { SendReplays(n, p.req); }
      case TakeReply(p) => if p.Reply? { ReplyReplays(n, p.from, p.req, p.reply); }
      case _ => OtherIdle(n, e);
    }
  }

  // ---- What is handed over is the next stretch of the log -----------------------------------------

  /** The node has applied all it has committed, and from an index on its window is that log. */
  predicate Reads(n: NodeState, from: nat, l: Log) {
    && from <= n.applied == n.commit <= |l|
    && forall k: nat {:trigger EntryAt(n, k)} | from < k <= n.commit :: EntryAt(n, k) == Some(l[k - 1])
  }

  lemma {:induction false} ApplyHands(n: NodeState, l: Log)
    requires Reads(ApplyCommitted(n), n.applied, l)
    ensures Passed(n) == l[n.applied..ApplyCommitted(n).applied]
  {
    var n' := ApplyCommitted(n);
    ApplyKeeps(n);
    assert forall k: nat :: EntryAt(n', k) == EntryAt(n, k);
    PassedIs(n, l);
  }

  lemma {:induction false} LearnHands(n: NodeState, i: nat, l: Log)
    requires Reads(LearnCommit(n, i), n.applied, l)
    ensures PassedOnLearn(n, i) == l[n.applied..LearnCommit(n, i).applied]
  {
    if i > n.commit { ApplyHands(n.(commit := Min(i, LastIndex(n))), l); }
  }

  lemma {:induction false} AdvanceHands(n: NodeState, l: Log)
    requires Reads(AdvanceCommit(n), n.applied, l)
    ensures PassedOnAdvance(n) == l[n.applied..AdvanceCommit(n).applied]
  {
    var i := FindCommit(n, LastIndex(n));
    if i > n.commit { ApplyHands(n.(commit := i), l); }
  }

  lemma {:induction false} SendHands(n: NodeState, req: AppendRequest, l: Log)
    requires Reads(HandleAppend(n, req).0, n.applied, l)
    ensures PassedOnSend(n, req) == l[n.applied..HandleAppend(n, req).0.applied]
  {
    var n1 := ObserveTerm(n, req.term);
    var n2 := FollowLeader(n1, req.leader);
    HeedSame(n, req.term, req.leader);
    MergeFrame(n2, req.prevIndex, req.entries);
    if req.term >= n1.term && Conflict(n2, req).None? {
      LearnHands(MergeEntries(n2, req.prevIndex, req.entries), req.commit, l);
    }
  }

  lemma {:induction false} ReplyHands(n: NodeState, peer: Id, req: AppendRequest, reply: AppendReply, l: Log)
    requires Reads(FinishAppend(n, peer, req, reply), n.applied, l)
    ensures PassedOnReply(n, peer, req, reply) == l[n.applied..FinishAppend(n, peer, req, reply).applied]
  {
    if n.role == Leader && n.term == req.term && reply.term <= n.term && reply.success {
      var n1 := RecordMatch(n, peer, req.prevIndex + |req.entries|);
      AcceptedIs(n, peer, req, reply, n1);
      AdvanceHands(n1, l);
    } else {
      RefusedIdle(n, peer, req, reply);
    }
  }

  lemma {:induction false} EventHands(n: NodeState, e: Event, l: Log)
    requires !Resets(e) && Reads(NodeAfter(n, e), n.applied, l)
    ensures Handed(n, e) == l[n.applied..NodeAfter(n, e).applied]
  {
    match e {
      case TakeSend(p) => if p.Send? { SendHands(n, p.req, l); }
      case TakeReply(p) => if p.Reply? { ReplyHands(n, p.from, p.req, p.reply, l); }
      case _ => OtherIdle(n, e);
    }
  }

  // ---- Over a run -------------------------------------------------------------------------------------

  /** What node n was handed between moments i and j. */
  function History(states: seq<State>, events: seq<Event>, i: nat, j: nat, n: Id): Log
    requires i <= j < |states| && j <= |events| && forall k | i <= k < j :: n in states[k].nodes
  {
    if i == j then []
    else History(states, events, i, j - 1, n) +
         if Actor(events[j - 1]) == n then Handed(states[j - 1].nodes[n], events[j - 1]) else []
  }

  lemma StepHands(states: seq<State>, events: seq<Event>, i: nat, n: Id)
    requires IsRun(states, events) && i < |events| && n in states[i].nodes && !(Actor(events[i]) == n && Resets(events[i]))
    ensures n in states[i + 1].nodes
    ensures var s, s', chosen := states[i].nodes[n], states[i + 1].nodes[n], states[i + 1].chosen;
      && s.applied <= s'.applied <= |chosen|
      && (if Actor(events[i]) == n then Handed(s, events[i]) else []) == chosen[s.applied..s'.applied]
  {
    StepOf(states, events, i, n);
    StateMachineSafety(states, events, i + 1, n);
    if Actor(events[i]) == n {
      StepReads(states, events, i, n);
      EventHands(states[i].nodes[n], events[i], states[i + 1].chosen);
    }
  }

  lemma StepReads(states: seq<State>, events: seq<Event>, i: nat, n: Id)
    requires IsRun(states, events) && i < |events| && n in states[i].nodes && Actor(events[i]) == n && !Resets(events[i])
    ensures n in states[i + 1].nodes && Reads(states[i + 1].nodes[n], states[i].nodes[n].applied, states[i + 1].chosen)
  {
    var s, e := states[i].nodes[n], events[i];
    StepOf(states, events, i, n);
    StateMachineSafety(states, events, i, n);
    StateMachineSafety(states, events, i + 1, n);
    if e.TakeSend? || e.TakeReply? { EventForward(s, e); } else { OtherIdle(s, e); }
  }

  /** Messages about entries never move lastApplied back, nor the window. */
  lemma EventForward(n: NodeState, e: Event)
    requires e.TakeSend? || e.TakeReply?
    ensures n.applied <= NodeAfter(n, e).applied && Compacted(NodeAfter(n, e)) == Compacted(n)
  {
    match e {
      case TakeSend(p) => if p.Send? { SendForward(n, p.req); }
      case TakeReply(p) => if p.Reply? { ReplyForward(n, p.from, p.req, p.reply); }
    }
  }

  lemma {:induction false} SendForward(n: NodeState, req: AppendRequest)
    ensures n.applied <= HandleAppend(n, req).0.applied && Compacted(HandleAppend(n, req).0) == Compacted(n)
  {
    AppendSame(n, req);
    var n2 := FollowLeader(ObserveTerm(n, req.term), req.leader);
    HeedSame(n, req.term, req.leader);
    MergeFrame(n2, req.prevIndex, req.entries);
    LearnForward(MergeEntries(n2, req.prevIndex, req.entries), req.commit);
  }

  lemma LearnForward(n: NodeState, i: nat)
    ensures n.applied <= LearnCommit(n, i).applied
  {
    ApplyGrows(n.(commit := Min(i, LastIndex(n))));
  }

  lemma ReplyForward(n: NodeState, peer: Id, req: AppendRequest, reply: AppendReply)
    ensures var n' := FinishAppend(n, peer, req, reply); n.applied <= n'.applied && Compacted(n') == Compacted(n)
  {
    ReplySame(n, peer, req, reply);
    if n.role == Leader && n.term == req.term && reply.term <= n.term && reply.success {
      var n1 := RecordMatch(n, peer, req.prevIndex + |req.entries|);
      AcceptedIs(n, peer, req, reply, n1);
      ApplyGrows(n1.(commit := FindCommit(n1, LastIndex(n1))));
    } else {
      RefusedIdle(n, peer, req, reply);
    }
  }

  /**
    Between two restarts or catch-ups a node hands its state machine exactly the chosen entries behind
    the ones it had applied, each once, in order and without gaps.
   */
  lemma {:induction false} AppliedInOrder(states: seq<State>, events: seq<Event>, i: nat, j: nat, n: Id)
    requires IsRun(states, events) && i <= j < |states| && n in states[i].nodes
    requires forall k {:trigger events[k]} | i <= k < j :: !(Actor(events[k]) == n && Resets(events[k]))
    ensures forall k | i <= k <= j :: n in states[k].nodes
    ensures var from, to := states[i].nodes[n].applied, states[j].nodes[n].applied;
      from <= to <= |states[j].chosen| && History(states, events, i, j, n) == states[j].chosen[from..to]
    decreases j
  {
    StaysThere(states, events, i, j, n);
    if i == j {
      StateMachineSafety(states, events, i, n);
    } else {
      AppliedInOrder(states, events, i, j - 1, n);
      HistoryOn(states, events, i, j, n);
    }
  }

  lemma StaysThere(states: seq<State>, events: seq<Event>, i: nat, j: nat, n: Id)
    requires IsRun(states, events) && i <= j < |states| && n in states[i].nodes
    ensures forall k | i <= k <= j :: n in states[k].nodes
  {
    forall k | i <= k <= j
      ensures n in states[k].nodes
    {
      SameNodes(states, events, i);
      SameNodes(states, events, k);
    }
  }

  lemma {:induction false} HistoryOn(states: seq<State>, events: seq<Event>, i: nat, j: nat, n: Id)
    requires IsRun(states, events) && i < j < |states| && (forall k | i <= k <= j :: n in states[k].nodes)
    requires !(Actor(events[j - 1]) == n && Resets(events[j - 1]))
    requires var from, mid := states[i].nodes[n].applied, states[j - 1].nodes[n].applied;
      from <= mid <= |states[j - 1].chosen| && History(states, events, i, j - 1, n) == states[j - 1].chosen[from..mid]
    ensures var from, to := states[i].nodes[n].applied, states[j].nodes[n].applied;
      from <= to <= |states[j].chosen| && History(states, events, i, j, n) == states[j].chosen[from..to]
  {
    StepHands(states, events, j - 1, n);
    ChosenGrows(states, events, j - 1, j);
    SlicesJoin(states[j - 1].chosen, states[j].chosen, states[i].nodes[n].applied, states[j - 1].nodes[n].applied, states[j].nodes[n].applied);
  }

  lemma SlicesJoin(a: Log, b: Log, from: nat, mid: nat, to: nat)
    requires a <= b && from <= mid <= to <= |b| && mid <= |a|
    ensures a[from..mid] + b[mid..to] == b[from..to]
  {
    assert a[from..mid] == b[from..mid];
  }
}
