/** No blocked ProposeSync call is forgotten: it stays filed, or is answered, or its caller gave up, or the node died. */
module Pending {
  import opened Types
  import opened NodeSpec
  import opened Window
  import opened Refinement
  import opened NodeSim
  import opened Tickets
  import opened Cluster
  import opened Safety

  predicate Answered(t: Ticket, answers: multiset<Answer>) {
    Answer(t, true) in answers || Answer(t, false) in answers
  }

  predicate Filed(n: NodeState, i: nat, t: Ticket) {
    i in n.waiters && n.waiters[i] == t
  }

  /** Answers are never taken back, and every call filed before is still filed or answered. */
  ghost predicate Accounted(n: NodeState, n': NodeState) {
    && n.answers <= n'.answers
    && forall i: nat {:trigger i in n.waiters} | i in n.waiters ::
         Filed(n', i, n.waiters[i]) || Answered(n.waiters[i], n'.answers)
  }

  lemma SameAccounted(n: NodeState, n': NodeState)
    requires SameCalls(n, n')
    ensures Accounted(n, n')
  {
  }

  lemma AccountedTransitive(a: NodeState, b: NodeState, c: NodeState)
    requires Accounted(a, b) && Accounted(b, c)
    ensures Accounted(a, c)
  {
    forall i: nat | i in a.waiters
      ensures Filed(c, i, a.waiters[i]) || Answered(a.waiters[i], c.answers)
    {
      if !Answered(a.waiters[i], b.answers) { assert Filed(b, i, a.waiters[i]); }
    }
  }

  lemma AbortAccounted(n: NodeState)
    ensures Accounted(n, AbortWaiters(n))
  {
    forall i: nat | i in n.waiters
      ensures Answer(n.waiters[i], false) in Failures(n.waiters)
    {
      assert Answer(n.waiters[i], false) in (set j | j in n.waiters :: Answer(n.waiters[j], false));
    }
  }

  lemma RoleAccounted(n: NodeState, role: Role)
    ensures Accounted(n, SetRole(n, role))
  {
    AbortAccounted(n);
    if !(n.role == Leader && role != Leader) { SameAccounted(n, SetRole(n, role)); }
  }

  lemma ObserveAccounted(n: NodeState, t: nat)
    ensures Accounted(n, ObserveTerm(n, t))
  {
    if t <= n.term {
      SameAccounted(n, n);
    } else {
      RoleAccounted(n.(term := t, votedFor := None), Follower);
    }
  }

  lemma NextAccounted(n: NodeState, e: Entry)
    ensures Accounted(n, ApplyNext(n, e))
  {
  }

  lemma {:induction false} ApplyAccounted(n: NodeState)
    ensures Accounted(n, ApplyCommitted(n))
    decreases n.commit - n.applied
  {
    if n.applied >= n.commit {
      SameAccounted(n, n);
    } else {
      ApplyUnfolds(n);
      if EntryAt(n, n.applied + 1).None? {
        SameAccounted(n, ApplyCommitted(n));
      } else {
        var n1 := ApplyNext(n, EntryAt(n, n.applied + 1).value);
        NextAccounted(n, EntryAt(n, n.applied + 1).value);
        ApplyAccounted(n1);
        AccountedTransitive(n, n1, ApplyCommitted(n1));
      }
    }
  }

  /** Applying answers every call it passes with success, and leaves the others filed. */
  lemma {:induction false} PassedAnswered(n: NodeState, full: Log, i: nat)
    requires Shows(n, full) && AppliedOk(n, full) && WaitersOk(n, full) && Indexed(full, 0) && i in n.waiters
    ensures if i <= n.commit then Answer(n.waiters[i], true) in ApplyCommitted(n).answers
            else Filed(ApplyCommitted(n), i, n.waiters[i])
    decreases n.commit - n.applied
  {
    if n.applied < n.commit {
      IndexAt(full, n.applied);
      ApplyStep(n, full);
      ApplyOne(n, full);
      WaitersStep(n, full);
      NextAnswers(n, full[n.applied], i);
      if i == n.applied + 1 {
        ApplyAccounted(ApplyNext(n, full[n.applied]));
      } else {
        PassedAnswered(ApplyNext(n, full[n.applied]), full, i);
      }
    }
  }

  lemma NextAnswers(n: NodeState, e: Entry, i: nat)
    requires i in n.waiters
    ensures if i == e.index then Answer(n.waiters[i], true) in ApplyNext(n, e).answers
            else Filed(ApplyNext(n, e), i, n.waiters[i])
    ensures ApplyNext(n, e).applied == n.applied + 1 && ApplyNext(n, e).commit == n.commit
  {
  }

  lemma VoteAccounted(n: NodeState, ask: VoteRequest)
    ensures Accounted(n, HandleVote(n, ask).0)
  {
    var n1 := ObserveTerm(n, ask.term);
    ObserveAccounted(n, ask.term);
    SameAccounted(n1, HandleVote(n, ask).0);
    AccountedTransitive(n, n1, HandleVote(n, ask).0);
  }

  lemma VoteReplyAccounted(n: NodeState, t: nat, vote: VoteReply)
    ensures Accounted(n, HandleVoteReply(n, t, vote))
  {
    if vote.term > n.term {
      ObserveAccounted(n, vote.term);
    } else {
      SameAccounted(n, HandleVoteReply(n, t, vote));
    }
  }

  lemma ElectionAccounted(n: NodeState)
    ensures Accounted(n, StartElection(n))
  {
    SameAccounted(n, StartElection(n));
  }

  lemma AnswerAccounted(n: NodeState, req: AppendRequest)
    ensures Accounted(n, AnswerLeader(n, req).0)
  {
    if Conflict(n, req).Some? {
      SameAccounted(n, n);
    } else {
      var n1 := MergeEntries(n, req.prevIndex, req.entries);
      MergeCalls(n, req.prevIndex, req.entries);
      SameAccounted(n, n1);
      LearnAccounted(n1, req.commit);
      AccountedTransitive(n, n1, LearnCommit(n1, req.commit));
    }
  }

  lemma LearnAccounted(n: NodeState, i: nat)
    ensures Accounted(n, LearnCommit(n, i))
  {
    if i > n.commit {
      ApplyAccounted(n.(commit := Min(i, LastIndex(n))));
    } else {
      SameAccounted(n, n);
    }
  }

  lemma FollowAccounted(n: NodeState, leader: Id)
    ensures Accounted(n, FollowLeader(n, leader))
  {
    var n1 := SetRole(n, Follower);
    RoleAccounted(n, Follower);
    SameAccounted(n1, FollowLeader(n, leader));
    AccountedTransitive(n, n1, FollowLeader(n, leader));
  }

  lemma AppendAccounted(n: NodeState, req: AppendRequest)
    ensures Accounted(n, HandleAppend(n, req).0)
  {
    var n1 := ObserveTerm(n, req.term);
    ObserveAccounted(n, req.term);
    if req.term >= n1.term {
      var n2 := FollowLeader(n1, req.leader);
      FollowAccounted(n1, req.leader);
      AnswerAccounted(n2, req);
      AccountedTransitive(n, n1, n2);
      AccountedTransitive(n, n2, AnswerLeader(n2, req).0);
    }
  }

  lemma AdvanceAccounted(n: NodeState)
    ensures Accounted(n, AdvanceCommit(n))
  {
    var i := FindCommit(n, LastIndex(n));
    if i > n.commit {
      ApplyAccounted(n.(commit := i));
    } else {
      SameAccounted(n, n);
    }
  }

  lemma ReplyAccounted(n: NodeState, peer: Id, req: AppendRequest, reply: AppendReply)
    ensures Accounted(n, FinishAppend(n, peer, req, reply))
  {
    if n.role != Leader || n.term != req.term {
      SameAccounted(n, n);
    } else if reply.term > n.term {
      ObserveAccounted(n, reply.term);
    } else if reply.success {
      var n1 := RecordMatch(n, peer, req.prevIndex + |req.entries|);
      SameAccounted(n, n1);
      AdvanceAccounted(n1);
      AccountedTransitive(n, n1, AdvanceCommit(n1));
    } else {
      SameAccounted(n, FinishAppend(n, peer, req, reply));
    }
  }

  lemma SyncAccounted(n: NodeState, x: Command)
    requires LastIndex(n) + 1 !in n.waiters
    ensures Accounted(n, ProposeSync(n, x))
  {
  }

  /** The node dies. */
  predicate Dies(e: Event) {
    e.Crash? || e.CrashInMerge? || e.CrashInCompaction? || e.CrashInTerm? || e.CrashInCatchUp?
  }

  lemma EventAccounted(n: NodeState, e: Event)
    requires LastIndex(n) + 1 !in n.waiters && !e.Cancel? && !Dies(e)
    ensures Accounted(n, NodeAfter(n, e))
  {
    match e {
      case Timeout(_) => ElectionAccounted(n);
      case TakeAskVote(p) => if p.AskVote? { VoteAccounted(n, p.ask); } else { SameAccounted(n, n); }
      case TakeAnswerVote(p) => if p.AnswerVote? { VoteReplyAccounted(n, p.ask.term, p.vote); } else { SameAccounted(n, n); }
      case TakeSend(p) => if p.Send? { AppendAccounted(n, p.req); } else { SameAccounted(n, n); }
      case TakeReply(p) => if p.Reply? { ReplyAccounted(n, p.from, p.req, p.reply); } else { SameAccounted(n, n); }
      case WriteSync(_, x) => SyncAccounted(n, x);
      case CatchUp(_, f) => SameAccounted(n, CaughtUp(n, f));
      case _ => SameAccounted(n, NodeAfter(n, e));
    }
  }

  /** The event may drop the call filed at index k of node n: the node dies, or a call gives up at that index. */
  predicate Drops(e: Event, n: Id, k: nat) {
    Actor(e) == n && (Dies(e) || (e.Cancel? && e.index == k))
  }

  /** One call, by its index: it stays filed or is answered, and an answer stays. */
  predicate Settles(n: NodeState, k: nat, t: Ticket) {
    Filed(n, k, t) || Answered(t, n.answers)
  }

  lemma StepSettles(states: seq<State>, events: seq<Event>, i: nat, n: Id, k: nat, t: Ticket)
    requires IsRun(states, events) && i < |events| && n in states[i].nodes && !Drops(events[i], n, k)
    requires Settles(states[i].nodes[n], k, t)
    ensures n in states[i + 1].nodes && Settles(states[i + 1].nodes[n], k, t)
  {
    StepOf(states, events, i, n);
    if n == Actor(events[i]) && !events[i].Cancel? {
      NoneBeyond(states, events, i, n);
      EventAccounted(states[i].nodes[n], events[i]);
    }
  }

  lemma NoneBeyond(states: seq<State>, events: seq<Event>, i: nat, n: Id)
    requires IsRun(states, events) && i < |states| && n in states[i].nodes
    ensures LastIndex(states[i].nodes[n]) + 1 !in states[i].nodes[n].waiters
  {
    forall k: nat | k in states[i].nodes[n].waiters
      ensures k <= LastIndex(states[i].nodes[n])
    {
      PendingOnLeader(states, events, i, n, k);
    }
  }

  /**
    In every run a call filed at index k stays filed there or is answered, for as long as the node
    does not die and no call gives up at that index.  The code deletes by index, so a call that
    gives up late may take a newer call's place with it.
   */
  lemma {:induction false} NoCallForgotten(states: seq<State>, events: seq<Event>, i: nat, j: nat, n: Id, k: nat)
    requires IsRun(states, events) && i <= j < |states| && n in states[i].nodes && k in states[i].nodes[n].waiters
    requires forall m {:trigger events[m]} | i <= m < j :: !Drops(events[m], n, k)
    ensures n in states[j].nodes && Settles(states[j].nodes[n], k, states[i].nodes[n].waiters[k])
    decreases j
  {
    if i < j {
      NoCallForgotten(states, events, i, j - 1, n, k);
      StepSettles(states, events, j - 1, n, k, states[i].nodes[n].waiters[k]);
    }
  }

  // ---- From the call to its answer ------------------------------------------------------------------

  /** The call a leader files for a blocked write. */
  function CallFor(n: NodeState, x: Command): Ticket {
    Ticket(n.issued, Entry(n.term, LastIndex(n) + 1, x))
  }

  /** A blocked write at a leader is filed at the index of the entry it appends, which is the caller's. */
  lemma SyncFiled(n: NodeState, x: Command)
    requires n.role == Leader
    ensures var n' := ProposeSync(n, x);
      && LastIndex(n') == LastIndex(n) + 1 && Filed(n', LastIndex(n'), CallFor(n, x))
      && EntryAt(n', LastIndex(n')) == Some(Entry(n.term, LastIndex(n'), x)) && n'.issued == n.issued + 1
  {
  }

  /** In a run the call is filed under a number that no call before it had, pending or answered. */
  lemma WriteFiled(states: seq<State>, events: seq<Event>, i: nat, n: Id, x: Command)
    requires IsRun(states, events) && i < |events| && events[i] == WriteSync(n, x)
    requires n in states[i].nodes && states[i].nodes[n].role == Leader
    ensures n in states[i + 1].nodes
    ensures var s, s' := states[i].nodes[n], states[i + 1].nodes[n]; var t := CallFor(s, x);
      && Filed(s', LastIndex(s'), t) && EntryAt(s', LastIndex(s')) == Some(t.entry)
      && t.entry.command == x && t.entry.term == s.term && t.entry.index == LastIndex(s')
      && (forall k | k in s.waiters :: s.waiters[k].id != t.id) && (forall y | y in s.answers :: y.ticket.id != t.id)
  {
    StepOf(states, events, i, n);
    SyncFiled(states[i].nodes[n], x);
    AnsweredOnce(states, events, i, n);
  }

  /**
    So in every run a blocked write at a leader is, at any later moment, pending or answered, unless
    the node died or a call gave up at that index in between.
   */
  lemma WriteSettled(states: seq<State>, events: seq<Event>, i: nat, j: nat, n: Id, x: Command)
    requires IsRun(states, events) && i < j < |states| && events[i] == WriteSync(n, x)
    requires n in states[i].nodes && states[i].nodes[n].role == Leader
    requires forall m {:trigger events[m]} | i < m < j :: !Drops(events[m], n, LastIndex(states[i].nodes[n]) + 1)
    ensures n in states[j].nodes && Settles(states[j].nodes[n], LastIndex(states[i].nodes[n]) + 1, CallFor(states[i].nodes[n], x))
  {
    WriteFiled(states, events, i, n, x);
    StepOf(states, events, i, n);
    SyncFiled(states[i].nodes[n], x);
    NoCallForgotten(states, events, i + 1, j, n, LastIndex(states[i].nodes[n]) + 1);
  }
}
