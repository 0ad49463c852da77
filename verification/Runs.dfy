/** Building runs step by step: elections, writes, crashes and rounds of replication among any number of nodes. */
module Runs {
  import opened Types
  import opened Quorums
  import opened NodeSpec
  import opened Window
  import opened Cluster

  /** A run that ends in the given state. */
  ghost predicate Ends(states: seq<State>, events: seq<Event>, c: State) {
    IsRun(states, events) && states[|events|] == c
  }

  lemma OneStep(states: seq<State>, events: seq<Event>, c: State, e: Event)
    requires Ends(states, events, c) && Enabled(c, e)
    ensures Ends(states + [Act(c, e)], events + [e], Act(c, e))
  {
    var states', events' := states + [Act(c, e)], events + [e];
    forall i | 0 <= i < |events'|
      ensures StepAt(states', events', i)
    {
      if i < |events| { assert StepAt(states, events, i); }
    }
  }

  /** Nodes that list each other as peers. */
  predicate Formed(c: State) {
    forall n {:trigger Listed(c, n)} | n in c.nodes :: Listed(c, n)
  }

  predicate Listed(c: State, n: Id) {
    n in c.nodes && c.nodes[n].id == n && PeersOf(c.nodes.Keys, n, c.nodes[n].peers)
  }

  /** One more event: the node it happens at changes as its handler says, and keeps its name and peers. */
  lemma Next(states: seq<State>, events: seq<Event>, c: State, e: Event, s': NodeState)
    returns (states': seq<State>, events': seq<Event>, c': State)
    requires Ends(states, events, c) && Formed(c) && Enabled(c, e) && NodeAfter(c.nodes[Actor(e)], e) == s'
    requires s'.id == c.nodes[Actor(e)].id && s'.peers == c.nodes[Actor(e)].peers
    ensures Ends(states', events', c') && Formed(c') && states' == states + [c'] && events' == events + [e]
    ensures c'.nodes == c.nodes[Actor(e) := s'] && c'.nodes.Keys == c.nodes.Keys && |c'.nodes| == |c.nodes|
    ensures c'.net == c.net + Sent(c.nodes[Actor(e)], e) && c'.calls == CallsAfter(c, c.nodes[Actor(e)], e)
  {
    OneStep(states, events, c, e);
    c' := Act(c, e);
    states', events' := states + [c'], events + [e];
    assert c'.nodes.Keys == c.nodes.Keys;
    StillFormed(c, c', Actor(e), s');
  }

  lemma StillFormed(c: State, c': State, n: Id, s': NodeState)
    requires Formed(c) && n in c.nodes && c'.nodes == c.nodes[n := s'] && c'.nodes.Keys == c.nodes.Keys
    requires s'.id == c.nodes[n].id && s'.peers == c.nodes[n].peers
    ensures Formed(c') && |c'.nodes| == |c.nodes|
  {
    assert |c'.nodes| == |c'.nodes.Keys| == |c.nodes.Keys|;
    forall o | o in c'.nodes
      ensures Listed(c', o)
    {
      assert Listed(c, o);
    }
  }

  lemma OtherIsPeer(c: State, n: Id, p: Id)
    requires Formed(c) && n in c.nodes && p in c.nodes && p != n
    ensures p in c.nodes[n].peers && |c.nodes[n].peers| + 1 == |c.nodes| && c.nodes[n].id == n
  {
    assert Listed(c, n);
    assert p in c.nodes.Keys - {n};
    assert |c.nodes| == |c.nodes.Keys|;
  }

  // ---- A node that has not compacted -----------------------------------------------------

  /** Term and log in memory and on disk. */
  predicate Plain(s: NodeState, t: nat, l: Log) {
    && s.term == t && s.log == l && s.offset == 0 && Indexed(l, 0)
    && s.disk == Disk(t, s.votedFor, l, None)
  }

  predicate SameName(s: NodeState, s': NodeState) {
    s'.id == s.id && s'.peers == s.peers
  }

  lemma StandPlain(s: NodeState, t: nat, l: Log)
    requires Plain(s, t, l) && s.role != Leader
    ensures var s' := StartElection(s);
      Plain(s', t + 1, l) && s'.role == Candidate && s'.votes == 1 && SameName(s, s') && s'.commit == s.commit
  {
  }

  lemma RestartPlain(s: NodeState, t: nat, l: Log)
    requires Plain(s, t, l)
    ensures var s' := Recover(s); Plain(s', t, l) && s'.role == Follower && SameName(s, s')
  {
    StoredRecovers(s.disk, l, 0);
  }

  lemma WritePlain(s: NodeState, t: nat, l: Log, x: Command)
    requires Plain(s, t, l)
    ensures var s' := AppendLocal(s, x);
      && Plain(s', t, l + [Entry(t, |l| + 1, x)]) && s'.role == s.role && SameName(s, s')
      && s'.commit == s.commit && s'.nextIndex == s.nextIndex && s'.matchIndex == s.matchIndex
  {
  }

  lemma VotePlain(v: NodeState, t: nat, l: Log, ask: VoteRequest)
    requires Plain(v, t, l) && t < ask.term && AtLeastAsUpToDate(ask.lastTerm, ask.lastIndex, LastTerm(l), |l|)
    ensures var (v', reply) := HandleVote(v, ask);
      && reply == VoteReply(ask.term, true) && Plain(v', ask.term, l) && v'.role == Follower && SameName(v, v')
      && v'.commit == v.commit
  {
    assert LastLogTerm(v) == LastTerm(l);
  }

  /** A new leader with all of its log still to be confirmed by its peers. */
  predicate Leads(s: NodeState, t: nat, l: Log) {
    Plain(s, t, l) && s.role == Leader && s.nextIndex == Each(s.peers, |l| + 1) && s.matchIndex == Each(s.peers, 0)
  }

  lemma HeardPlain(s: NodeState, t: nat, l: Log)
    requires Plain(s, t, l) && s.role == Candidate
    ensures var s' := HandleVoteReply(s, t, VoteReply(t, true));
      && SameName(s, s') && s'.commit == s.commit
      && if s.votes + 1 >= Majority(s) then Leads(s', t, l)
         else Plain(s', t, l) && s'.role == Candidate && s'.votes == s.votes + 1
  {
  }

  // ---- Stages of a run ---------------------------------------------------------------------

  /** All nodes but these two are as they were, and what was sent stays around. */
  predicate Apart(c: State, c': State, x: Id, v: Id) {
    && c'.nodes.Keys == c.nodes.Keys && |c'.nodes| == |c.nodes| && c.net <= c'.net
    && forall n | n in c.nodes && n != x && n != v :: c'.nodes[n] == c.nodes[n]
  }

  /** An election that nobody answers. */
  lemma Stands(states: seq<State>, events: seq<Event>, c: State, x: Id, t: nat, l: Log)
    returns (states': seq<State>, events': seq<Event>, c': State)
    requires Ends(states, events, c) && Formed(c) && x in c.nodes && Plain(c.nodes[x], t, l) && c.nodes[x].role != Leader
    ensures Ends(states', events', c') && Formed(c') && Apart(c, c', x, x) && states <= states'
    ensures Plain(c'.nodes[x], t + 1, l) && c'.nodes[x].role == Candidate && c'.nodes[x].commit == c.nodes[x].commit
  {
    StandPlain(c.nodes[x], t, l);
    states', events', c' := Next(states, events, c, Timeout(x), StartElection(c.nodes[x]));
  }

  lemma Restarts(states: seq<State>, events: seq<Event>, c: State, x: Id, t: nat, l: Log)
    returns (states': seq<State>, events': seq<Event>, c': State)
    requires Ends(states, events, c) && Formed(c) && x in c.nodes && Plain(c.nodes[x], t, l)
    ensures Ends(states', events', c') && Formed(c') && Apart(c, c', x, x) && states <= states'
    ensures Plain(c'.nodes[x], t, l) && c'.nodes[x].role == Follower
  {
    RestartPlain(c.nodes[x], t, l);
    states', events', c' := Next(states, events, c, Crash(x), Recover(c.nodes[x]));
  }

  lemma Writes(states: seq<State>, events: seq<Event>, c: State, x: Id, t: nat, l: Log, command: Command)
    returns (states': seq<State>, events': seq<Event>, c': State)
    requires Ends(states, events, c) && Formed(c) && x in c.nodes && Plain(c.nodes[x], t, l) && c.nodes[x].role == Leader
    ensures Ends(states', events', c') && Formed(c') && Apart(c, c', x, x) && states <= states'
    ensures Plain(c'.nodes[x], t, l + [Entry(t, |l| + 1, command)]) && c'.nodes[x].role == Leader
    ensures c'.nodes[x].nextIndex == c.nodes[x].nextIndex && c'.nodes[x].matchIndex == c.nodes[x].matchIndex
    ensures c'.nodes[x].commit == c.nodes[x].commit && c'.nodes[x].peers == c.nodes[x].peers
  {
    WritePlain(c.nodes[x], t, l, command);
    states', events', c' := Next(states, events, c, Write(x, command), AppendLocal(c.nodes[x], command));
  }

  const X: Command := Put("k", "v")

  /** Several writes of the same command by a leader that has sent nothing yet. */
  lemma {:induction false} WritesMore(states: seq<State>, events: seq<Event>, c: State, x: Id, t: nat, k: nat, command: Command)
    returns (states': seq<State>, events': seq<Event>, c': State, l: Log)
    requires Ends(states, events, c) && Formed(c) && x in c.nodes && Leads(c.nodes[x], t, [])
    ensures Ends(states', events', c') && Formed(c') && Apart(c, c', x, x) && states <= states'
    ensures |l| == k && (forall j | 0 <= j < k :: l[j].term == t && l[j].command == command) && Plain(c'.nodes[x], t, l) && Unsent(c'.nodes[x])
    ensures c'.nodes[x].commit == c.nodes[x].commit
  {
    if k == 0 {
      states', events', c', l := states, events, c, [];
    } else {
      var st, ev, d, m := WritesMore(states, events, c, x, t, k - 1, command);
      states', events', c' := Writes(st, ev, d, x, t, m, command);
      l := m + [Entry(t, k, command)];
    }
  }

  /** A leader that has every peer at the start of its log. */
  predicate Unsent(s: NodeState) {
    s.role == Leader && s.nextIndex == Each(s.peers, 1) && s.matchIndex == Each(s.peers, 0)
  }

  // ---- Elections ------------------------------------------------------------------------------

  /** The candidate x, in term t + 1, has asked v for its vote and still waits for it. */
  predicate Asked(c: State, x: Id, t: nat, l: Log, v: Id) {
    AskVote(x, v, VoteRequest(t + 1, x, |l|, LastTerm(l))) in c.net && Call(x, t + 1, v) in c.calls
  }

  lemma Asks(states: seq<State>, events: seq<Event>, c: State, x: Id, t: nat, l: Log)
    returns (states': seq<State>, events': seq<Event>, c': State)
    requires Ends(states, events, c) && Formed(c) && x in c.nodes && Plain(c.nodes[x], t, l) && c.nodes[x].role != Leader
    ensures Ends(states', events', c') && Formed(c') && Apart(c, c', x, x) && states <= states'
    ensures Plain(c'.nodes[x], t + 1, l) && c'.nodes[x].role == Candidate && c'.nodes[x].votes == 1
    ensures c'.nodes[x].commit == c.nodes[x].commit
    ensures forall v {:trigger Asked(c', x, t, l, v)} | v in c.nodes && v != x :: Asked(c', x, t, l, v)
  {
    assert c.nodes[x].id == x by { assert Listed(c, x); }
    StandPlain(c.nodes[x], t, l);
    assert VoteRequestOf(StartElection(c.nodes[x])) == VoteRequest(t + 1, x, |l|, LastTerm(l));
    states', events', c' := Next(states, events, c, Timeout(x), StartElection(c.nodes[x]));
    forall v | v in c.nodes && v != x
      ensures Asked(c', x, t, l, v)
    {
      OtherIsPeer(c, x, v);
    }
  }

  /** v grants its vote. */
  lemma Votes(states: seq<State>, events: seq<Event>, c: State, x: Id, t: nat, l: Log, v: Id, u: nat, w: Log)
    returns (states': seq<State>, events': seq<Event>, c': State)
    requires Ends(states, events, c) && Formed(c) && x in c.nodes && v in c.nodes && x != v && Plain(c.nodes[v], u, w) && u <= t
    requires AtLeastAsUpToDate(LastTerm(l), |l|, LastTerm(w), |w|) && Asked(c, x, t, l, v)
    ensures Ends(states', events', c') && Formed(c') && Apart(c, c', v, v) && c'.calls == c.calls && states <= states'
    ensures AnswerVote(v, x, VoteRequest(t + 1, x, |l|, LastTerm(l)), VoteReply(t + 1, true)) in c'.net
    ensures Plain(c'.nodes[v], t + 1, w) && c'.nodes[v].role == Follower && c'.nodes[v].commit == c.nodes[v].commit
  {
    var ask := VoteRequest(t + 1, x, |l|, LastTerm(l));
    VotePlain(c.nodes[v], u, w, ask);
    states', events', c' := Next(states, events, c, TakeAskVote(AskVote(x, v, ask)), HandleVote(c.nodes[v], ask).0);
  }

  /** x counts it. */
  lemma Hears(states: seq<State>, events: seq<Event>, c: State, x: Id, t: nat, l: Log, v: Id)
    returns (states': seq<State>, events': seq<Event>, c': State)
    requires Ends(states, events, c) && Formed(c) && x in c.nodes && v in c.nodes && x != v && Call(x, t + 1, v) in c.calls
    requires Plain(c.nodes[x], t + 1, l) && c.nodes[x].role == Candidate
    requires AnswerVote(v, x, VoteRequest(t + 1, x, |l|, LastTerm(l)), VoteReply(t + 1, true)) in c.net
    ensures Ends(states', events', c') && Formed(c') && Apart(c, c', x, x) && states <= states'
    ensures c.calls - {Call(x, t + 1, v)} <= c'.calls && c'.nodes[x].commit == c.nodes[x].commit
    ensures if c.nodes[x].votes + 1 >= QuorumSize(|c.nodes|) then Leads(c'.nodes[x], t + 1, l)
            else Plain(c'.nodes[x], t + 1, l) && c'.nodes[x].role == Candidate && c'.nodes[x].votes == c.nodes[x].votes + 1
  {
    var answer := AnswerVote(v, x, VoteRequest(t + 1, x, |l|, LastTerm(l)), VoteReply(t + 1, true));
    OtherIsPeer(c, x, v);
    HeardPlain(c.nodes[x], t + 1, l);
    states', events', c' :=
      Next(states, events, c, TakeAnswerVote(answer), HandleVoteReply(c.nodes[x], t + 1, VoteReply(t + 1, true)));
  }

  /** x stands, and v grants its vote. */
  lemma Granted(states: seq<State>, events: seq<Event>, c: State, x: Id, t: nat, l: Log, v: Id, u: nat, w: Log)
    returns (states': seq<State>, events': seq<Event>, c': State)
    requires Ends(states, events, c) && Formed(c) && x in c.nodes && v in c.nodes && x != v
    requires Plain(c.nodes[x], t, l) && c.nodes[x].role != Leader && Plain(c.nodes[v], u, w) && u <= t
    requires AtLeastAsUpToDate(LastTerm(l), |l|, LastTerm(w), |w|)
    ensures Ends(states', events', c') && Formed(c') && Apart(c, c', x, v) && states <= states'
    ensures Plain(c'.nodes[x], t + 1, l) && c'.nodes[x].role == Candidate && c'.nodes[x].votes == 1
    ensures c'.nodes[x].commit == c.nodes[x].commit
    ensures forall o {:trigger Asked(c', x, t, l, o)} | o in c.nodes && o != x :: Asked(c', x, t, l, o)
    ensures AnswerVote(v, x, VoteRequest(t + 1, x, |l|, LastTerm(l)), VoteReply(t + 1, true)) in c'.net
    ensures Plain(c'.nodes[v], t + 1, w) && c'.nodes[v].role == Follower && c'.nodes[v].commit == c.nodes[v].commit
  {
    var st, ev, d := Asks(states, events, c, x, t, l);
    assert Asked(d, x, t, l, v);
    states', events', c' := Votes(st, ev, d, x, t, l, v, u, w);
    forall o | o in c.nodes && o != x
      ensures Asked(c', x, t, l, o)
    {
      assert Asked(d, x, t, l, o);
    }
  }

  /** Among three nodes, an election decided by the vote of v. */
  lemma Elects(states: seq<State>, events: seq<Event>, c: State, x: Id, t: nat, l: Log, v: Id, u: nat, w: Log)
    returns (states': seq<State>, events': seq<Event>, c': State)
    requires Ends(states, events, c) && Formed(c) && |c.nodes| == 3 && x in c.nodes && v in c.nodes && x != v
    requires Plain(c.nodes[x], t, l) && c.nodes[x].role != Leader && Plain(c.nodes[v], u, w) && u <= t
    requires AtLeastAsUpToDate(LastTerm(l), |l|, LastTerm(w), |w|)
    ensures Ends(states', events', c') && Formed(c') && Apart(c, c', x, v) && states <= states'
    ensures Leads(c'.nodes[x], t + 1, l) && c'.nodes[x].commit == c.nodes[x].commit
    ensures Plain(c'.nodes[v], t + 1, w) && c'.nodes[v].role == Follower && c'.nodes[v].commit == c.nodes[v].commit
  {
    var st, ev, d := Granted(states, events, c, x, t, l, v, u, w);
    assert Asked(d, x, t, l, v);
    states', events', c' := Hears(st, ev, d, x, t, l, v);
  }

  // ---- Replication to nodes with empty logs ---------------------------------------------------------

  lemma {:induction false} TakePlain(v: NodeState, t: nat, l: Log, leader: Id)
    requires Plain(v, t, []) && l != [] && Indexed(l, 0)
    ensures var (v', reply) := HandleAppend(v, AppendRequest(t, leader, 0, 0, l, 0));
      reply == AppendReply(t, true, 0, 0) && Plain(v', t, l) && v'.role == Follower && SameName(v, v') && v'.commit == v.commit
  {
    TakeIs(v, t, l, leader);
    MergeFirst(FollowLeader(v, leader), l);
  }

  lemma {:induction false} TakeIs(v: NodeState, t: nat, l: Log, leader: Id)
    requires v.term == t
    ensures HandleAppend(v, AppendRequest(t, leader, 0, 0, l, 0)) == (MergeEntries(FollowLeader(v, leader), 0, l), AppendReply(t, true, 0, 0))
  {
  }

  lemma {:induction false} MergeFirst(v: NodeState, l: Log)
    requires v.log == v.disk.entries == [] && v.offset == 0 && l != []
    ensures MergeEntries(v, 0, l) == v.(log := l, disk := v.disk.(entries := l))
  {
    assert Divergence(v, 0, l, 0) == 0 && l[0..] == l && [] + l == l;
  }

  lemma RequestPlain(s: NodeState, t: nat, l: Log, p: Id)
    requires Plain(s, t, l) && Unsent(s) && s.commit == 0 && p in s.peers
    ensures RequestFor(s, p) == AppendRequest(t, s.id, 0, 0, l, 0)
  {
    assert EntriesFrom(s, 1) == l;
  }

  /** The leader x has offered v its whole log. */
  predicate Offered(c: State, x: Id, t: nat, l: Log, v: Id) {
    Send(x, v, AppendRequest(t, x, 0, 0, l, 0)) in c.net
  }

  /** The leader sends each peer the request it has for it. */
  lemma Casts(states: seq<State>, events: seq<Event>, c: State, x: Id)
    returns (states': seq<State>, events': seq<Event>, c': State)
    requires Ends(states, events, c) && Formed(c) && x in c.nodes && c.nodes[x].role == Leader
    ensures Ends(states', events', c') && Formed(c') && c'.nodes == c.nodes && Apart(c, c', x, x)
    ensures states' == states + [c'] && |events'| == |events| + 1
    ensures forall v | v in c.nodes && v != x :: Send(x, v, RequestFor(c.nodes[x], v)) in c'.net
  {
    states', events', c' := Next(states, events, c, Broadcast(x), c.nodes[x]);
    forall v | v in c.nodes && v != x
      ensures Send(x, v, RequestFor(c.nodes[x], v)) in c'.net
    {
      OtherIsPeer(c, x, v);
      RequestSent(c.nodes[x], x, v);
    }
  }

  lemma RequestSent(s: NodeState, n: Id, p: Id)
    requires s.role == Leader && p in s.peers
    ensures Send(n, p, RequestFor(s, p)) in Sent(s, Broadcast(n))
  {
  }

  lemma Offers(states: seq<State>, events: seq<Event>, c: State, x: Id, t: nat, l: Log)
    returns (states': seq<State>, events': seq<Event>, c': State)
    requires Ends(states, events, c) && Formed(c) && x in c.nodes && Plain(c.nodes[x], t, l) && Unsent(c.nodes[x]) && c.nodes[x].commit == 0
    ensures Ends(states', events', c') && Formed(c') && c'.nodes == c.nodes && Apart(c, c', x, x) && states <= states'
    ensures forall v {:trigger Offered(c', x, t, l, v)} | v in c.nodes && v != x :: Offered(c', x, t, l, v)
  {
    states', events', c' := Casts(states, events, c, x);
    forall v | v in c.nodes && v != x
      ensures Offered(c', x, t, l, v)
    {
      OtherIsPeer(c, x, v);
      RequestPlain(c.nodes[x], t, l, v);
    }
  }

  /** v has taken the offer and said so. */
  predicate Acked(c: State, x: Id, t: nat, l: Log, v: Id) {
    Reply(v, x, AppendRequest(t, x, 0, 0, l, 0), AppendReply(t, true, 0, 0)) in c.net
  }

  lemma Takes(states: seq<State>, events: seq<Event>, c: State, x: Id, t: nat, l: Log, v: Id)
    returns (states': seq<State>, events': seq<Event>, c': State)
    requires Ends(states, events, c) && Formed(c) && v in c.nodes && Plain(c.nodes[v], t, []) && l != [] && Indexed(l, 0)
    requires Offered(c, x, t, l, v)
    ensures Ends(states', events', c') && Formed(c') && Apart(c, c', v, v) && Acked(c', x, t, l, v) && states <= states'
    ensures Plain(c'.nodes[v], t, l) && c'.nodes[v].role == Follower && c'.nodes[v].commit == c.nodes[v].commit
  {
    var req := AppendRequest(t, x, 0, 0, l, 0);
    TakePlain(c.nodes[v], t, l, x);
    states', events', c' := Next(states, events, c, TakeSend(Send(x, v, req)), HandleAppend(c.nodes[v], req).0);
  }

  /** matchIndex once the peers in q, and nobody else, have acknowledged the first k entries. */
  function Marked(peers: seq<Id>, q: set<Id>, k: nat): map<Id, nat> {
    map p | p in peers :: if p in q then k else 0
  }

  /** The leader's log, none of it committed, with acknowledgements from q. */
  predicate Waits(s: NodeState, t: nat, l: Log, q: set<Id>) {
    && Plain(s, t, l) && s.role == Leader && s.commit == 0 && l != [] && l[|l| - 1].term == t
    && s.matchIndex == Marked(s.peers, q, |l|)
  }

  lemma {:induction false} NothingToCommit(s: NodeState, index: nat)
    requires forall i: nat | s.commit < i <= index :: !CanCommit(s, i)
    ensures FindCommit(s, index) <= s.commit
  {
    if index > s.commit { NothingToCommit(s, index - 1); }
  }

  lemma {:induction false} ApplyPlain(s: NodeState, t: nat, l: Log)
    requires Plain(s, t, l)
    ensures var s' := ApplyCommitted(s); Plain(s', t, l) && s'.role == s.role && SameName(s, s') && s'.commit == s.commit
    decreases s.commit - s.applied
  {
    if s.applied < s.commit {
      ApplyUnfolds(s);
      if EntryAt(s, s.applied + 1).Some? { ApplyPlain(ApplyNext(s, EntryAt(s, s.applied + 1).value), t, l); }
    }
  }

  lemma MarkedHolders(peers: seq<Id>, q: set<Id>, k: nat, i: nat)
    requires q <= (set p | p in peers) && 0 < i <= k
    ensures Holders(Marked(peers, q, k), i) == q
  {
  }

  lemma {:induction false} AdvancePlain(s: NodeState, t: nat, l: Log, q: set<Id>)
    requires Waits(s, t, l, q) && q <= (set p | p in s.peers)
    ensures var s' := AdvanceCommit(s);
      && SameName(s, s') && if 1 + |q| >= Majority(s) then Plain(s', t, l) && s'.commit == |l| else s' == s
  {
    if 1 + |q| >= Majority(s) {
      MarkedHolders(s.peers, q, |l|, |l|);
      assert CanCommit(s, |l|);
      ApplyPlain(s.(commit := |l|), t, l);
    } else {
      forall i: nat | 0 < i <= |l|
        ensures !CanCommit(s, i)
      {
        MarkedHolders(s.peers, q, |l|, i);
      }
      NothingToCommit(s, |l|);
    }
  }

  lemma RecordPlain(s: NodeState, t: nat, l: Log, q: set<Id>, v: Id)
    requires Waits(s, t, l, q) && v in s.peers && v !in q
    ensures var s' := RecordMatch(s, v, |l|);
      Waits(s', t, l, q + {v}) && SameName(s, s')
  {
    assert Marked(s.peers, q, |l|)[v := |l|] == Marked(s.peers, q + {v}, |l|);
  }

  lemma {:induction false} AckPlain(s: NodeState, t: nat, l: Log, q: set<Id>, v: Id, req: AppendRequest)
    requires Waits(s, t, l, q) && v in s.peers && v !in q && q <= (set p | p in s.peers)
    requires req.term == t && req.prevIndex + |req.entries| == |l|
    ensures var s' := FinishAppend(s, v, req, AppendReply(t, true, 0, 0));
      && SameName(s, s') && if 2 + |q| >= Majority(s) then Plain(s', t, l) && s'.commit == |l| else Waits(s', t, l, q + {v})
  {
    RecordPlain(s, t, l, q, v);
    assert |q + {v}| == |q| + 1;
    AdvancePlain(RecordMatch(s, v, |l|), t, l, q + {v});
  }

  /** The leader hears of it, and commits once it has heard from a majority. */
  lemma Counts(states: seq<State>, events: seq<Event>, c: State, x: Id, t: nat, l: Log, q: set<Id>, v: Id)
    returns (states': seq<State>, events': seq<Event>, c': State)
    requires Ends(states, events, c) && Formed(c) && x in c.nodes && v in c.nodes && x != v && v !in q
    requires Waits(c.nodes[x], t, l, q) && q <= c.nodes.Keys - {x} && Acked(c, x, t, l, v)
    ensures Ends(states', events', c') && Formed(c') && Apart(c, c', x, x) && states <= states'
    ensures if 2 + |q| >= QuorumSize(|c.nodes|) then Plain(c'.nodes[x], t, l) && c'.nodes[x].commit == |l|
            else Waits(c'.nodes[x], t, l, q + {v})
  {
    var req, reply := AppendRequest(t, x, 0, 0, l, 0), AppendReply(t, true, 0, 0);
    OtherIsPeer(c, x, v);
    assert q <= (set p | p in c.nodes[x].peers) by { assert Listed(c, x); }
    AckPlain(c.nodes[x], t, l, q, v, req);
    states', events', c' := Next(states, events, c, TakeReply(Reply(v, x, req, reply)), FinishAppend(c.nodes[x], v, req, reply));
  }

  lemma UnsentWaits(s: NodeState, t: nat, l: Log)
    requires Plain(s, t, l) && Unsent(s) && s.commit == 0 && l != [] && l[|l| - 1].term == t
    ensures Waits(s, t, l, {})
  {
    assert Marked(s.peers, {}, |l|) == Each(s.peers, 0);
  }

  /** Among three nodes: the leader offers its log, v takes it, and the leader commits it. */
  lemma Replicates(states: seq<State>, events: seq<Event>, c: State, x: Id, t: nat, l: Log, v: Id)
    returns (states': seq<State>, events': seq<Event>, c': State)
    requires Ends(states, events, c) && Formed(c) && |c.nodes| == 3 && x in c.nodes && v in c.nodes && x != v
    requires Plain(c.nodes[x], t, l) && Unsent(c.nodes[x]) && c.nodes[x].commit == 0 && l != [] && l[|l| - 1].term == t
    requires Plain(c.nodes[v], t, [])
    ensures Ends(states', events', c') && Formed(c') && Apart(c, c', x, v) && states <= states'
    ensures Plain(c'.nodes[x], t, l) && c'.nodes[x].commit == |l| && Acked(c', x, t, l, v)
    ensures Plain(c'.nodes[v], t, l) && c'.nodes[v].role == Follower && c'.nodes[v].commit == c.nodes[v].commit
  {
    var st, ev, d := Offers(states, events, c, x, t, l);
    assert Offered(d, x, t, l, v);
    var st', ev', d' := Takes(st, ev, d, x, t, l, v);
    UnsentWaits(d'.nodes[x], t, l);
    states', events', c' := Counts(st', ev', d', x, t, l, {}, v);
  }

  // ---- The start -----------------------------------------------------------------------------------

  predicate Fresh(s: NodeState) {
    Plain(s, 0, []) && s.role == Follower && s.commit == 0
  }

  predicate Distinct(ids: seq<Id>) {
    forall i, j | 0 <= i < j < |ids| :: ids[i] != ids[j]
  }

  function Others(ids: seq<Id>, n: Id): seq<Id> {
    if ids == [] then []
    else Others(ids[..|ids| - 1], n) + if ids[|ids| - 1] == n then [] else [ids[|ids| - 1]]
  }

  function Members(ids: seq<Id>): set<Id> {
    set p | p in ids
  }

  lemma MembersConcat(a: seq<Id>, b: seq<Id>)
    ensures Members(a + b) == Members(a) + Members(b)
  {
  }

  lemma FrontDistinct(ids: seq<Id>)
    requires Distinct(ids) && ids != []
    ensures var front, last := ids[..|ids| - 1], ids[|ids| - 1];
      Distinct(front) && last !in Members(front) && Members(ids) == Members(front) + {last}
  {
    var front, last := ids[..|ids| - 1], ids[|ids| - 1];
    assert ids == front + [last];
    MembersConcat(front, [last]);
  }

  lemma {:induction false} MembersSize(ids: seq<Id>)
    requires Distinct(ids)
    ensures |Members(ids)| == |ids|
  {
    if ids != [] {
      FrontDistinct(ids);
      MembersSize(ids[..|ids| - 1]);
    }
  }

  lemma {:induction false} OthersAre(ids: seq<Id>, n: Id)
    requires Distinct(ids)
    ensures Members(Others(ids, n)) == Members(ids) - {n} && |Others(ids, n)| == |ids| - if n in Members(ids) then 1 else 0
  {
    if ids != [] {
      var front, last := ids[..|ids| - 1], ids[|ids| - 1];
      FrontDistinct(ids);
      OthersAre(front, n);
      MembersConcat(Others(front, n), if last == n then [] else [last]);
    }
  }

  /** Fresh nodes with the given names. */
  lemma Starts(ids: seq<Id>) returns (states: seq<State>, events: seq<Event>, c: State)
    requires Distinct(ids)
    ensures Ends(states, events, c) && Formed(c) && c.nodes.Keys == Members(ids) && |c.nodes| == |ids|
    ensures forall n | n in ids :: Fresh(c.nodes[n])
  {
    c := State(map n | n in ids :: NewNode(n, Others(ids, n)), {}, {}, []);
    assert c.nodes.Keys == Members(ids);
    assert |c.nodes| == |c.nodes.Keys|;
    MembersSize(ids);
    forall n | n in c.nodes
      ensures Listed(c, n)
    {
      OthersAre(ids, n);
    }
    assert forall n | n in c.nodes :: Listed(c, n);
    states, events := [c], [];
  }

  lemma StartsThree(x: Id, y: Id, z: Id) returns (states: seq<State>, events: seq<Event>, c: State)
    requires x != y && x != z && y != z
    ensures Ends(states, events, c) && Formed(c) && c.nodes.Keys == {x, y, z} && |c.nodes| == 3
    ensures Fresh(c.nodes[x]) && Fresh(c.nodes[y]) && Fresh(c.nodes[z])
  {
    states, events, c := Starts([x, y, z]);
    assert Members([x, y, z]) == {x, y, z};
  }

  /** The first election among three fresh nodes, decided by the vote of v. */
  lemma FirstElected(states: seq<State>, events: seq<Event>, c: State, x: Id, v: Id)
    returns (states': seq<State>, events': seq<Event>, c': State)
    requires Ends(states, events, c) && Formed(c) && |c.nodes| == 3 && x in c.nodes && v in c.nodes && x != v
    requires Fresh(c.nodes[x]) && Fresh(c.nodes[v])
    ensures Ends(states', events', c') && Formed(c') && Apart(c, c', x, v)
    ensures Leads(c'.nodes[x], 1, []) && c'.nodes[x].commit == 0
    ensures Plain(c'.nodes[v], 1, []) && c'.nodes[v].role == Follower && c'.nodes[v].commit == 0
  {
    states', events', c' := Elects(states, events, c, x, 0, [], v, 0, []);
  }
}
