/** A node's window only ever moves forward: whatever happens, the offset of its log never falls. */
module Offsets {
  import opened Types
  import opened NodeSpec
  import opened Window
  import opened NodeSim
  import opened Cluster
  import opened Safety

  /** The window starts where the snapshot on disk ends, or at the beginning if there is none. */
  predicate Aligned(s: NodeState) {
    match s.disk.snapshot
    case None => s.offset == 0
    case Some(f) => f.index == s.offset + 1 && s.log != []
  }

  predicate SameWindow(s: NodeState, s': NodeState) {
    s'.offset == s.offset && s'.disk.snapshot == s.disk.snapshot
  }

  lemma ObserveSame(s: NodeState, t: nat)
    ensures SameWindow(s, ObserveTerm(s, t))
  {
  }

  lemma VoteSame(s: NodeState, ask: VoteRequest)
    ensures SameWindow(s, HandleVote(s, ask).0)
  {
    ObserveSame(s, ask.term);
  }

  lemma VoteReplySame(s: NodeState, t: nat, vote: VoteReply)
    ensures SameWindow(s, HandleVoteReply(s, t, vote))
  {
    ObserveSame(s, vote.term);
  }

  lemma FollowSame(s: NodeState, t: nat, leader: Id)
    ensures SameWindow(s, FollowLeader(ObserveTerm(s, t), leader))
  {
    ObserveSame(s, t);
  }

  lemma AnswerSame(s: NodeState, req: AppendRequest)
    ensures SameWindow(s, AnswerLeader(s, req).0)
  {
    var s1 := MergeEntries(s, req.prevIndex, req.entries);
    MergeFrame(s, req.prevIndex, req.entries);
    ApplyKeeps(s1.(commit := Min(req.commit, LastIndex(s1))));
  }

  lemma AppendSame(s: NodeState, req: AppendRequest)
    ensures SameWindow(s, HandleAppend(s, req).0)
  {
    ObserveSame(s, req.term);
    FollowSame(s, req.term, req.leader);
    AnswerSame(FollowLeader(ObserveTerm(s, req.term), req.leader), req);
  }

  lemma ReplySame(s: NodeState, peer: Id, req: AppendRequest, reply: AppendReply)
    ensures SameWindow(s, FinishAppend(s, peer, req, reply))
  {
    ObserveSame(s, reply.term);
    var s1 := RecordMatch(s, peer, req.prevIndex + |req.entries|);
    ApplyKeeps(s1.(commit := FindCommit(s1, LastIndex(s1))));
  }

  /** A restart takes the offset from the snapshot on disk. */
  lemma RestartOffset(s: NodeState, s1: NodeState)
    requires Aligned(s)
    requires s.disk.snapshot.Some? ==> s1.disk.snapshot.Some? && s.offset + 1 <= s1.disk.snapshot.value.index
    ensures s.offset <= Recover(s1).offset
  {
  }

  lemma MidMergeSame(s: NodeState, req: AppendRequest, records: nat)
    ensures DiskMidMerge(s, req, records).disk.snapshot == s.disk.snapshot
  {
    FollowSame(s, req.term, req.leader);
    MergePartSame(FollowLeader(ObserveTerm(s, req.term), req.leader), req, records);
    ObserveSame(s, req.term);
  }

  lemma MergePartSame(s: NodeState, req: AppendRequest, records: nat)
    ensures MergePart(s, req, records).disk.snapshot == s.disk.snapshot
  {
  }

  /** A snapshot is adopted only if it reaches to the end of the log. */
  predicate ReachesEnd(s: NodeState, e: Event) {
    match e
    case CatchUp(_, f) => LastIndex(s) <= f.index
    case CrashInCatchUp(_, f) => LastIndex(s) <= f.index
    case _ => true
  }

  lemma EventOffset(s: NodeState, e: Event)
    requires Aligned(s) && ReachesEnd(s, e)
    ensures s.offset <= NodeAfter(s, e).offset
  {
    match e {
      case TakeAskVote(p) => if p.AskVote? { VoteSame(s, p.ask); }
      case TakeAnswerVote(p) => if p.AnswerVote? { VoteReplySame(s, p.ask.term, p.vote); }
      case TakeSend(p) => if p.Send? { AppendSame(s, p.req); }
      case TakeReply(p) => if p.Reply? { ReplySame(s, p.from, p.req, p.reply); }
      case Crash(_) => RestartOffset(s, s);
      case CrashInMerge(p, k) => if p.Send? { MidMergeSame(s, p.req, k); RestartOffset(s, DiskMidMerge(s, p.req, k)); }
      case CrashInCompaction(_, t, f) => RestartOffset(s, DiskMidCompaction(s, t, f));
      case CrashInTerm(p) => ObserveSame(s, TermIn(p)); RestartOffset(s, ObserveTerm(s, TermIn(p)));
      case CrashInCatchUp(_, f) => RestartOffset(s, s.(disk := CaughtUpDisk(s, f)));
      case _ =>
    }
  }

  lemma ShownAligned(s: NodeState, full: Log)
    requires Shows(s, full)
    ensures Aligned(s)
  {
  }

  /** In every run, through crashes, compactions and catch-ups, logOffset never falls. */
  lemma {:induction false} OffsetNeverFalls(states: seq<State>, events: seq<Event>, i: nat, j: nat, n: Id)
    requires IsRun(states, events) && i <= j < |states| && n in states[i].nodes
    ensures n in states[j].nodes && states[i].nodes[n].offset <= states[j].nodes[n].offset
    decreases j
  {
    if i < j {
      OffsetNeverFalls(states, events, i, j - 1, n);
      StepOffset(states, events, j - 1, n);
    }
  }

  lemma StepOffset(states: seq<State>, events: seq<Event>, i: nat, n: Id)
    requires IsRun(states, events) && i < |events| && n in states[i].nodes
    ensures n in states[i + 1].nodes && states[i].nodes[n].offset <= states[i + 1].nodes[n].offset
  {
    var m := LocalAt(states, events, i, n);
    ShownAligned(states[i].nodes[n], m.log);
    StepOf(states, events, i, n);
    if n == Actor(events[i]) {
      StepReaches(states, events, i);
      EventOffset(states[i].nodes[n], events[i]);
    }
  }

  lemma StepReaches(states: seq<State>, events: seq<Event>, i: nat)
    requires IsRun(states, events) && i < |events|
    ensures Actor(events[i]) in states[i].nodes && ReachesEnd(states[i].nodes[Actor(events[i])], events[i])
  {
    assert StepAt(states, events, i);
  }
}
