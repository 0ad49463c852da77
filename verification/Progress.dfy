/**
  What replication brings about, and not only what it never does: a follower that takes a request holds
  the leader's log and applies what the leader had committed, and a leader commits whatever a majority
  is known to hold of its own term.
 */
module Progress {
  import opened Types
  import opened NodeSpec
  import opened Window
  import opened RaftModel
  import opened Refinement
  import opened NodeSim
  import opened LeaderSim
  import opened Compactions
  import opened Cluster
  import opened Safety
  import opened Pending
  import opened Heard

  // ---- One request ----------------------------------------------------------------------------

  /**
    A request is accepted if and only if it is not of an older term and names an entry the follower has, of
    that term, or one before its window.
   */
  lemma {:induction false} AcceptIff(f: NodeState, full: Log, req: AppendRequest)
    requires Shows(f, full)
    ensures HandleAppend(f, req).1.success <==> f.term <= req.term && Fitting(f, full, req)
  {
    HeedKeepsWindow(f, req);
    AnswerIff(FollowLeader(ObserveTerm(f, req.term), req.leader), full, req);
    AppendTerm(f, req);
  }

  predicate Fitting(f: NodeState, full: Log, req: AppendRequest) {
    req.prevIndex <= f.offset || (req.prevIndex <= |full| && full[req.prevIndex - 1].term == req.prevTerm)
  }

  lemma {:induction false} AnswerIff(f: NodeState, full: Log, req: AppendRequest)
    requires Shows(f, full)
    ensures AnswerLeader(f, req).1.success <==> Fitting(f, full, req)
  {
    ShowsEntry(f, full, req.prevIndex);
  }

  lemma {:induction false} Learned(f: NodeState, commit: nat)
    ensures var f' := LearnCommit(f, commit);
      LastIndex(f') == LastIndex(f) && f'.commit == if commit > f.commit then Min(commit, LastIndex(f)) else f.commit
  {
    ApplyKeeps(f.(commit := Min(commit, LastIndex(f))));
  }

  /** An accepted request moves the commit index to the leader's, as far as the log goes. */
  lemma {:induction false} AcceptCommits(f: NodeState, req: AppendRequest)
    requires HandleAppend(f, req).1.success
    ensures var f' := HandleAppend(f, req).0;
      f'.commit == if req.commit > f.commit then Min(req.commit, LastIndex(f')) else f.commit
  {
    var f1 := FollowLeader(ObserveTerm(f, req.term), req.leader);
    assert f1.commit == f.commit;
    AnswerCommits(f1, req);
  }

  lemma {:induction false} AnswerCommits(f: NodeState, req: AppendRequest)
    requires AnswerLeader(f, req).1.success
    ensures var f' := AnswerLeader(f, req).0;
      f'.commit == if req.commit > f.commit then Min(req.commit, LastIndex(f')) else f.commit
  {
    MergeFrame(f, req.prevIndex, req.entries);
    Learned(MergeEntries(f, req.prevIndex, req.entries), req.commit);
  }

  /** So of the request a leader builds: the follower has committed as far as the leader, or to the end of its log. */
  lemma LeaderCommitSent(s: NodeState, f: NodeState, peer: Id)
    requires HandleAppend(f, RequestFor(s, peer)).1.success
    ensures var f' := HandleAppend(f, RequestFor(s, peer)).0; f'.commit >= Min(s.commit, LastIndex(f'))
  {
    AcceptCommits(f, RequestFor(s, peer));
  }

  /** A request covers the whole log of the leader that built it. */
  lemma RequestCovers(s: NodeState, peer: Id)
    ensures var req := RequestFor(s, peer); req.prevIndex + |req.entries| >= LastIndex(s)
  {
  }

  /**
    Commit travels: a follower that accepts a request, however late, then holds what the leader held when
    it built the request, and has applied all that the leader had committed.
   */
  lemma CommitTravels(states: seq<State>, events: seq<Event>, h: nat, i: nat, n: Id, p: Id)
    requires IsRun(states, events) && h <= i < |events| && n in states[h].nodes && states[h].nodes[n].role == Leader
    requires p in states[i].nodes && events[i] == TakeSend(Send(n, p, RequestFor(states[h].nodes[n], p)))
    requires HandleAppend(states[i].nodes[p], RequestFor(states[h].nodes[n], p)).1.success
    ensures p in states[i + 1].nodes
    ensures var s, f' := states[h].nodes[n], states[i + 1].nodes[p];
      && f'.term == s.term && f'.applied >= s.commit
      && LastIndex(f') >= LastIndex(s) && AgreeUpTo(s, f', LastIndex(s))
  {
    var s, f := states[h].nodes[n], states[i].nodes[p];
    var req := RequestFor(s, p);
    StepOf(states, events, i, p);
    AppendTerm(f, req);
    AcceptCommits(f, req);
    HoldsSent(states, events, h, i, n, p);
    StateMachineSafety(states, events, h, n);
    StateMachineSafety(states, events, i + 1, p);
  }

  lemma HoldsSent(states: seq<State>, events: seq<Event>, h: nat, i: nat, n: Id, p: Id)
    requires IsRun(states, events) && h <= i < |events| && n in states[h].nodes && states[h].nodes[n].role == Leader
    requires p in states[i].nodes && events[i] == TakeSend(Send(n, p, RequestFor(states[h].nodes[n], p)))
    requires HandleAppend(states[i].nodes[p], RequestFor(states[h].nodes[n], p)).1.success
    ensures p in states[i + 1].nodes
    ensures var s, f' := states[h].nodes[n], states[i + 1].nodes[p];
      LastIndex(f') >= LastIndex(s) && AgreeUpTo(s, f', LastIndex(s))
  {
    var s, req := states[h].nodes[n], RequestFor(states[h].nodes[n], p);
    var models := RunFollows(states, events);
    assert StandsFor(states, models, h);
    assert StandsFor(states, models, i + 1);
    GrowsAlong(states, events, models, h, i + 1);
    Acknowledges(states, events, models, i, n, p, req);
    RequestCovers(s, p);
    AckHolds(states[h], models[h], n, states[i + 1], models[i + 1], p);
  }

  lemma Acknowledges(states: seq<State>, events: seq<Event>, models: seq<Model>, i: nat, n: Id, p: Id, req: AppendRequest)
    requires IsRun(states, events) && |models| == |states| && i < |events| && StandsFor(states, models, i + 1)
    requires events[i] == TakeSend(Send(n, p, req)) && p in states[i].nodes && HandleAppend(states[i].nodes[p], req).1.success
    ensures p in states[i + 1].nodes && states[i + 1].nodes[p].term == req.term
    ensures AckOf(models[i + 1], p, req.term) >= req.prevIndex + |req.entries|
  {
    assert StepAt(states, events, i);
    AppendTerm(states[i].nodes[p], req);
    var answer := Reply(p, n, req, HandleAppend(states[i].nodes[p], req).1);
    assert answer in states[i + 1].net;
    assert PacketOk(models[i + 1], answer);
  }

  lemma AckHolds(c: State, a: Model, n: Id, d: State, b: Model, p: Id)
    requires Inv(a) && Refines(c, a) && Inv(b) && Refines(d, b) && Grows(a, b) && n in c.nodes && p in d.nodes
    requires c.nodes[n].role == Leader && d.nodes[p].term == c.nodes[n].term
    requires AckOf(b, p, c.nodes[n].term) >= LastIndex(c.nodes[n])
    ensures LastIndex(d.nodes[p]) >= LastIndex(c.nodes[n]) && AgreeUpTo(c.nodes[n], d.nodes[p], LastIndex(c.nodes[n]))
  {
    assert NodeOk(a, c, n) && NodeOk(b, d, p);
    ShowsEntry(c.nodes[n], a.members[n].log, 0);
    ShowsEntry(d.nodes[p], b.members[p].log, 0);
    AckedLog(a, n, b, p);
    PrefixesAgree(c.nodes[n], a.members[n].log, d.nodes[p], b.members[p].log, |a.members[n].log|);
  }

  lemma AckedLog(a: Model, n: Id, b: Model, p: Id)
    requires Inv(a) && Inv(b) && Grows(a, b) && n in a.members && p in b.members
    requires a.members[n].role == Leader && b.members[p].term == a.members[n].term
    requires AckOf(b, p, b.members[p].term) >= |a.members[n].log|
    ensures a.members[n].log <= b.members[p].log
  {
    assert MemberOk(a, n) && MemberOk(b, p);
    var t, l := a.members[n].term, a.members[n].log;
    assert ReignGrows(a.reigns[t], b.reigns[t]);
    var q, k := b.reigns[t].log, AckOf(b, p, t);
    if l != [] {
      assert l == q[..|l|] == q[..k][..|l|];
    }
  }

  /** A success reply puts the peer's progress at the end of what was sent, if it was not there already, and nobody else's. */
  lemma {:induction false} Recorded(s: NodeState, peer: Id, req: AppendRequest, reply: AppendReply)
    requires s.role == Leader && s.term == req.term && reply.term <= s.term && reply.success
    ensures var s', k := FinishAppend(s, peer, req, reply), req.prevIndex + |req.entries|;
      && s'.role == Leader && s'.term == s.term
      && (k > 0 ==> peer in s'.matchIndex) && peer in s'.nextIndex
      && (peer in s'.matchIndex ==> s'.matchIndex[peer] == if peer in s.matchIndex then Max(s.matchIndex[peer], k) else k)
      && s'.nextIndex[peer] == (if peer in s.nextIndex then Max(s.nextIndex[peer], k + 1) else k + 1)
      && s'.matchIndex - {peer} == s.matchIndex - {peer} && s'.nextIndex - {peer} == s.nextIndex - {peer}
  {
    var s1 := RecordMatch(s, peer, req.prevIndex + |req.entries|);
    ApplyKeeps(s1.(commit := FindCommit(s1, LastIndex(s1))));
  }

  /** What a peer has acknowledged is not sent to it again: the next request starts behind it. */
  lemma NotSentAgain(s: NodeState, peer: Id, req: AppendRequest, reply: AppendReply)
    requires s.role == Leader && s.term == req.term && reply.term <= s.term && reply.success
    ensures RequestFor(FinishAppend(s, peer, req, reply), peer).prevIndex >= req.prevIndex + |req.entries|
  {
    Recorded(s, peer, req, reply);
  }

  // ---- A leader commits all it can ------------------------------------------------------------

  /** Above the commit index there is nothing a leader could commit. */
  ghost predicate AllCommitted(s: NodeState) {
    s.role == Leader ==> forall index: nat {:trigger CanCommit(s, index)} | index > s.commit :: !CanCommit(s, index)
  }

  /** A majority is more than the leader, and no peer is credited with more than the leader has. */
  predicate Counts(s: NodeState) {
    Majority(s) >= 2 && (s.role == Leader ==> forall p | p in s.matchIndex :: s.matchIndex[p] <= LastIndex(s))
  }

  /** What may be committed depends on the term, the window, matchIndex and the peers. */
  predicate SameCount(s: NodeState, s': NodeState) {
    && s'.term == s.term && s'.role == s.role && s'.peers == s.peers && s'.matchIndex == s.matchIndex
    && s'.log == s.log && s'.offset == s.offset && s'.commit == s.commit
  }

  lemma SameCountOk(s: NodeState, s': NodeState)
    requires AllCommitted(s) && SameCount(s, s')
    ensures AllCommitted(s')
  {
    if s'.role == Leader {
      forall index: nat | index > s'.commit
        ensures !CanCommit(s', index)
      {
        assert !CanCommit(s, index);
      }
    }
  }

  lemma {:induction false} AdvanceAll(s: NodeState)
    ensures AllCommitted(AdvanceCommit(s))
  {
    var s' := AdvanceCommit(s);
    FindCommitFound(s, LastIndex(s));
    ApplyKeeps(s.(commit := FindCommit(s, LastIndex(s))));
    forall index: nat | index > s'.commit
      ensures !CanCommit(s', index)
    {
      assert !CanCommit(s, index);
    }
  }

  lemma {:induction false} ReplyAll(s: NodeState, peer: Id, req: AppendRequest, reply: AppendReply)
    requires AllCommitted(s)
    ensures AllCommitted(FinishAppend(s, peer, req, reply))
  {
    ObserveHeeds(s, reply.term);
    AdvanceAll(RecordMatch(s, peer, req.prevIndex + |req.entries|));
    SameCountOk(s, s.(nextIndex := s.nextIndex[peer := BackOff(s, reply)]));
  }

  lemma AppendAll(s: NodeState, e: Entry)
    requires AllCommitted(s) && Counts(s)
    ensures AllCommitted(AppendToLog(s, [e]))
  {
    var s' := AppendToLog(s, [e]);
    if s.role == Leader {
      forall index: nat | index > s'.commit
        ensures !CanCommit(s', index)
      {
        assert !CanCommit(s, index);
        if index > LastIndex(s) { assert Holders(s.matchIndex, index) == {}; }
      }
    }
  }

  lemma CompactAll(s: NodeState, target: nat, f: File)
    requires AllCommitted(s) && s.applied <= s.commit
    ensures AllCommitted(Confirm(s, target, f))
  {
    var s' := Confirm(s, target, f);
    if s.role == Leader {
      forall index: nat | index > s'.commit
        ensures !CanCommit(s', index)
      {
        assert !CanCommit(s, index);
      }
    }
  }

  lemma CaughtUpAll(s: NodeState, f: File)
    requires AllCommitted(s)
    ensures AllCommitted(CaughtUp(s, f))
  {
  }

  lemma ElectedAll(s: NodeState)
    requires AllCommitted(s) && Majority(s) >= 2
    ensures AllCommitted(BecomeLeader(s))
  {
    var s' := BecomeLeader(s);
    if s.role == Candidate {
      forall index: nat | index > s'.commit
        ensures !CanCommit(s', index)
      {
        assert Holders(s'.matchIndex, index) == {};
      }
    }
  }

  lemma VoteReplyAll(s: NodeState, t: nat, vote: VoteReply)
    requires AllCommitted(s) && Majority(s) >= 2
    ensures AllCommitted(HandleVoteReply(s, t, vote))
  {
    ObserveHeeds(s, vote.term);
    SameCountOk(s, s.(votes := s.votes + 1));
    ElectedAll(s.(votes := s.votes + 1));
  }

  lemma VoteAll(s: NodeState, ask: VoteRequest)
    requires AllCommitted(s)
    ensures AllCommitted(HandleVote(s, ask).0)
  {
    ObserveHeeds(s, ask.term);
    if ask.term <= s.term { SameCountOk(s, HandleVote(s, ask).0); }
  }

  lemma AppendTaken(s: NodeState, req: AppendRequest)
    requires AllCommitted(s)
    ensures AllCommitted(HandleAppend(s, req).0)
  {
    AppendTerm(s, req);
  }

  lemma EventAll(s: NodeState, e: Event)
    requires AllCommitted(s) && Counts(s) && s.applied <= s.commit
    ensures AllCommitted(NodeAfter(s, e))
  {
    match e {
      case TakeAskVote(p) => if p.AskVote? { VoteAll(s, p.ask); }
      case TakeAnswerVote(p) => if p.AnswerVote? { VoteReplyAll(s, p.ask.term, p.vote); }
      case WinAlone(_) => ElectedAll(s);
      case TakeSend(p) => if p.Send? { AppendTaken(s, p.req); }
      case TakeReply(p) => if p.Reply? { ReplyAll(s, p.from, p.req, p.reply); }
      case Write(_, x) => AppendAll(s, Entry(s.term, LastIndex(s) + 1, x));
      case WriteSync(_, x) => SyncAll(s, x);
      case Compact(_, t, f) => CompactAll(s, t, f);
      case CatchUp(_, f) => CaughtUpAll(s, f);
      case _ => OtherAll(s, e);
    }
  }

  lemma SyncAll(s: NodeState, x: Command)
    requires AllCommitted(s) && Counts(s)
    ensures AllCommitted(ProposeSync(s, x))
  {
    AppendAll(s, Entry(s.term, LastIndex(s) + 1, x));
    if s.role == Leader { SameCountOk(AppendLocal(s, x), ProposeSync(s, x)); }
  }

  lemma OtherAll(s: NodeState, e: Event)
    requires AllCommitted(s) && (e.Timeout? || e.Broadcast? || e.Cancel? || Dies(e))
    ensures AllCommitted(NodeAfter(s, e))
  {
    if NodeAfter(s, e).role == Leader { SameCountOk(s, NodeAfter(s, e)); }
  }

  lemma CountsAt(states: seq<State>, events: seq<Event>, i: nat, n: Id)
    requires IsRun(states, events) && i < |states| && n in states[i].nodes && |states[i].nodes| >= 2
    ensures Counts(states[i].nodes[n])
  {
    var s := states[i].nodes[n];
    NamedSo(states, events, i, n);
    if s.role == Leader {
      forall p | p in s.matchIndex
        ensures s.matchIndex[p] <= LastIndex(s)
      {
        if s.matchIndex[p] > 0 { var k := MatchIndexTruthful(states, events, i, n, p); }
      }
    }
  }

  lemma {:induction false} AllCommittedAt(states: seq<State>, events: seq<Event>, i: nat, n: Id)
    requires IsRun(states, events) && i < |states| && n in states[i].nodes && |states[0].nodes| >= 2
    ensures AllCommitted(states[i].nodes[n])
    decreases i
  {
    SameNodes(states, events, i);
    if i > 0 {
      SameNodes(states, events, i - 1);
      AllCommittedAt(states, events, i - 1, n);
      StepOf(states, events, i - 1, n);
      assert |states[i - 1].nodes.Keys| == |states[0].nodes.Keys|;
      CountsAt(states, events, i - 1, n);
      StateMachineSafety(states, events, i - 1, n);
      EventAll(states[i - 1].nodes[n], events[i - 1]);
    }
  }

  /**
    In every run of two nodes or more, a leader has applied each entry of its own term that a majority,
    itself included, is known to hold: whoever speaks up last, nothing is left waiting.
   */
  lemma LeaderCommitsAll(states: seq<State>, events: seq<Event>, i: nat, n: Id, index: nat)
    requires IsRun(states, events) && i < |states| && n in states[i].nodes && |states[0].nodes| >= 2
    requires var s := states[i].nodes[n];
      && s.role == Leader && EntryAt(s, index).Some? && EntryAt(s, index).value.term == s.term
      && 2 * (1 + |set p | p in s.matchIndex && s.matchIndex[p] >= index|) > |states[0].nodes|
    ensures index <= states[i].nodes[n].applied
  {
    var s := states[i].nodes[n];
    AllCommittedAt(states, events, i, n);
    NamedSo(states, events, i, n);
    SameNodes(states, events, i);
    assert |states[i].nodes.Keys| == |states[0].nodes.Keys|;
    StateMachineSafety(states, events, i, n);
    assert Holders(s.matchIndex, index) == set p | p in s.matchIndex && s.matchIndex[p] >= index;
    assert index > s.commit ==> !CanCommit(s, index);
  }

  // ---- A node on its own ----------------------------------------------------------------------

  /**
    With one node the same promise fails: the leader's log is a majority's, but the commit index moves only
    when a reply is handled, and nobody replies.  Nothing is ever chosen, applied or reported committed.
   */
  lemma {:induction false} AloneNeverCommits(states: seq<State>, events: seq<Event>, i: nat)
    requires IsRun(states, events) && i < |states| && |states[0].nodes| == 1
    ensures states[i].chosen == [] && states[i].net == {}
    ensures forall n | n in states[i].nodes :: states[i].nodes[n].applied == 0
    decreases i
  {
    if i > 0 {
      AloneNeverCommits(states, events, i - 1);
      AloneNext(states, events, i - 1);
    }
    forall n | n in states[i].nodes
      ensures states[i].nodes[n].applied == 0
    {
      StateMachineSafety(states, events, i, n);
    }
  }

  lemma AloneNext(states: seq<State>, events: seq<Event>, i: nat)
    requires IsRun(states, events) && i < |events| && |states[0].nodes| == 1 && states[i].chosen == [] && states[i].net == {}
    requires forall n | n in states[i].nodes :: states[i].nodes[n].applied == 0
    ensures states[i + 1].chosen == [] && states[i + 1].net == {}
  {
    var n := Actor(events[i]);
    assert StepAt(states, events, i);
    NamedSo(states, events, i, n);
    SameNodes(states, events, i);
    assert |states[i].nodes.Keys| == 1;
    var m := LocalAt(states, events, i, n);
    AloneStep(states[i].nodes[n], m, events[i]);
  }

  lemma AloneStep(s: NodeState, m: Member, e: Event)
    requires s.commit == 0 && s.peers == [] && Local(s, m) && Indexed(m.log, 0)
    requires e.Timeout? || e.WinAlone? || e.Broadcast? || e.Write? || e.WriteSync? || e.Cancel? || e.Crash?
    ensures NodeAfter(s, e).commit == 0 && Sent(s, e) == {}
  {
    if e.Crash? {
      ShowsIndexed(s, m.log);
      StoredRecovers(s.disk, s.log, s.offset);
    }
  }
}
