/**
  Follower reads: the leader captures its commit index, a quorum acknowledges a fresh
  round of heartbeats, and a follower that has applied that far answers from its map.
 */
module ReadIndex {
  import opened Types
  import opened Quorums
  import opened KeyValue
  import opened NodeSpec
  import opened Window
  import opened RaftModel
  import opened RaftSafety
  import opened Refinement
  import opened Simulation
  import opened Events
  import opened Cluster
  import opened Safety

  // ---- Counting the replies of one round -----------------------------------------------

  /** The outcome of one confirmation round, given each peer's result in the order they come in. */
  function Acks(results: seq<bool>): nat {
    if results == [] then 0 else Acks(results[..|results| - 1]) + if results[|results| - 1] then 1 else 0
  }

  lemma {:induction false} AcksSplit(a: seq<bool>, b: seq<bool>)
    ensures Acks(a + b) == Acks(a) + Acks(b)
    decreases |b|
  {
    if b == [] {
      assert a + b == a;
    } else {
      AcksSplit(a, b[..|b| - 1]);
      assert (a + b)[..|a + b| - 1] == a + b[..|b| - 1];
    }
  }

  /**
    The counting loop over the results that came in before the deadline, one per peer, stops early
    exactly when the leader and the peers that acknowledged are a majority.
   */
  method ConfirmQuorum(numPeers: nat, results: seq<bool>) returns (confirmed: bool)
    requires |results| <= numPeers
    ensures confirmed <==> 1 + Acks(results) >= QuorumSize(numPeers + 1)
  {
    if numPeers == 0 { return true; }
    var acked := 1;
    var quorum := QuorumSize(numPeers + 1);
    for i := 0 to |results|
      invariant acked == 1 + Acks(results[..i]) < quorum
    {
      assert results[..i + 1][..i] == results[..i];
      AcksSplit(results[..i + 1], results[i + 1..]);
      assert results == results[..i + 1] + results[i + 1..];
      if results[i] {
        acked := acked + 1;
        if acked >= quorum { return true; }
      }
    }
    assert results[..|results|] == results;
    return false;
  }

  /** The peers whose result was an acknowledgement. */
  function AckedBy(who: seq<Id>, results: seq<bool>): set<Id>
    requires |results| == |who|
  {
    set k | 0 <= k < |who| && results[k] :: who[k]
  }

  /** Distinct peers are counted once each. */
  lemma {:induction false} AckedByCount(who: seq<Id>, results: seq<bool>)
    requires |results| == |who| && forall j, k | 0 <= j < k < |who| :: who[j] != who[k]
    ensures |AckedBy(who, results)| == Acks(results)
  {
    if who != [] {
      var n := |who| - 1;
      var before := AckedBy(who[..n], results[..n]);
      AckedByCount(who[..n], results[..n]);
      AckedByLast(who, results, n);
      assert who[n] !in before;
    }
  }

  lemma AckedByLast(who: seq<Id>, results: seq<bool>, n: nat)
    requires |results| == |who| == n + 1
    ensures AckedBy(who, results) == AckedBy(who[..n], results[..n]) + if results[n] then {who[n]} else {}
  {
    forall p
      ensures p in AckedBy(who, results) <==> p in AckedBy(who[..n], results[..n]) || (results[n] && p == who[n])
    {
      if p in AckedBy(who, results) {
        var k :| 0 <= k < |who| && results[k] && who[k] == p;
        assert k < n ==> results[..n][k] && who[..n][k] == p;
      }
      if p in AckedBy(who[..n], results[..n]) {
        var k :| 0 <= k < n && results[..n][k] && who[..n][k] == p;
        assert results[k] && who[k] == p;
      }
      if results[n] && p == who[n] { assert results[n] && who[n] == p; }
    }
  }

  // ---- Freshness over a run -------------------------------------------------------------

  /** Between moments i and j the peer handled a request of the given term and answered with success. */
  predicate Acknowledged(states: seq<State>, events: seq<Event>, i: nat, j: nat, peer: Id, term: nat) {
    exists k :: i <= k < j && AcknowledgesAt(states, events, k, peer, term)
  }

  predicate AcknowledgesAt(states: seq<State>, events: seq<Event>, k: int, peer: Id, term: nat) {
    && 0 <= k < |events| && k < |states|
    && events[k].TakeSend? && events[k].p.Send? && events[k].p.to == peer && peer in states[k].nodes
    && var reply := HandleAppend(states[k].nodes[peer], events[k].p.req).1;
    reply.success && reply.term == term
  }

  /** A node that answered with success in a term was not past that term before. */
  lemma AckBoundsTerm(s: NodeState, req: AppendRequest)
    requires HandleAppend(s, req).1.success
    ensures s.term <= HandleAppend(s, req).1.term
  {
  }

  lemma TermsOnlyGrow(states: seq<State>, events: seq<Event>, models: seq<Model>, i: nat, j: nat, n: Id)
    requires Follows(states, events, models) && i <= j < |states| && n in states[i].nodes
    ensures n in states[j].nodes && states[i].nodes[n].term <= states[j].nodes[n].term
  {
    GrowsAlong(states, events, models, i, j);
    assert StandsFor(states, models, i) && StandsFor(states, models, j);
    assert NodeOk(models[i], states[i], n) && NodeOk(models[j], states[j], n);
    assert MemberGrows(models[i].members[n], models[j].members[n]);
  }

  /** No uncommitted entry of the leader's log is from an older term. */
  predicate Settled(s: NodeState) {
    s.commit < LastIndex(s) ==> TermOf(s, s.commit + 1) == s.term
  }

  /** A leader whose commit index covers an entry of its own term is settled, in every run. */
  lemma OwnTermCommitSettles(states: seq<State>, events: seq<Event>, i: nat, leader: Id, own: nat)
    requires IsRun(states, events) && i < |states| && leader in states[i].nodes
    requires var s := states[i].nodes[leader]; own <= s.commit && TermOf(s, own) == s.term > 0
    ensures Settled(states[i].nodes[leader])
  {
    var models := RunFollows(states, events);
    assert StandsFor(states, models, i);
    assert NodeOk(models[i], states[i], leader) && MemberOk(models[i], leader);
    SettledHere(models[i], states[i].nodes[leader], models[i].members[leader].log, own);
  }

  lemma SettledHere(a: Model, s: NodeState, full: Log, own: nat)
    requires Inv(a) && LogOk(a, full) && AtMost(full, s.term) && Shows(s, full)
    requires own <= s.commit && TermOf(s, own) == s.term > 0
    ensures Settled(s)
  {
    ShowsEntry(s, full, own);
    ShowsEntry(s, full, s.commit + 1);
    if s.commit < LastIndex(s) { TermsSorted(a, full, own - 1, s.commit); }
  }

  /**
    Freshness: if the leader had no uncommitted entry of an older term when it captured its commit
    index, and a quorum then acknowledged a round in its term, the captured index covers
    everything any node had committed by the time of the capture.
   */
  lemma ReadIndexFresh(states: seq<State>, events: seq<Event>, i: nat, j: nat, leader: Id, acked: set<Id>)
    requires IsRun(states, events) && i <= j < |states| && leader in states[i].nodes
    requires states[i].nodes[leader].role == Leader && Settled(states[i].nodes[leader])
    requires IsQuorum(acked + {leader}, states[i].nodes.Keys)
    requires forall p | p in acked :: Acknowledged(states, events, i, j, p, states[i].nodes[leader].term)
    ensures states[i].nodes[leader].commit == |states[i].chosen|
  {
    var models := RunFollows(states, events);
    assert StandsFor(states, models, i);
    forall v | v in acked + {leader}
      ensures states[i].nodes[v].term <= states[i].nodes[leader].term
    {
      if v != leader { QuorumNotPast(states, events, models, i, j, v, states[i].nodes[leader].term); }
    }
    CommitCoversChosen(states[i], models[i], leader, acked + {leader});
  }

  lemma QuorumNotPast(states: seq<State>, events: seq<Event>, models: seq<Model>, i: nat, j: nat, v: Id, t: nat)
    requires Follows(states, events, models) && i <= j < |states| && v in states[i].nodes
    requires Acknowledged(states, events, i, j, v, t)
    ensures states[i].nodes[v].term <= t
  {
    var k :| i <= k < j && AcknowledgesAt(states, events, k, v, t);
    AckBoundsTerm(states[k].nodes[v], events[k].p.req);
    TermsOnlyGrow(states, events, models, i, k, v);
  }

  lemma CommitCoversChosen(c: State, a: Model, leader: Id, q: set<Id>)
    requires Inv(a) && Refines(c, a) && leader in c.nodes && c.nodes[leader].role == Leader
    requires Settled(c.nodes[leader]) && IsQuorum(q, c.nodes.Keys)
    requires forall v | v in q :: c.nodes[v].term <= c.nodes[leader].term
    ensures c.nodes[leader].commit == |c.chosen|
  {
    var s, full := c.nodes[leader], a.members[leader].log;
    assert NodeOk(a, c, leader);
    SettledLog(s, full);
    forall v | v in q
      ensures a.members[v].term <= a.members[leader].term
    {
      assert NodeOk(a, c, v);
    }
    CommittedChosen(a, leader, c.chosen);
    ChosenWithin(a, leader, q, c.chosen);
  }

  lemma SettledLog(s: NodeState, full: Log)
    requires Settled(s) && Shows(s, full) && Compacted(s) <= s.commit
    ensures s.commit < |full| ==> full[s.commit].term == s.term
  {
    ShowsEntry(s, full, s.commit + 1);
  }

  lemma ChosenWithin(a: Model, n: Id, q: set<Id>, chosen: Log)
    requires Inv(a) && n in a.members && a.members[n].role == Leader && ChosenOk(a, chosen)
    requires a.members[n].commit < |a.members[n].log| ==> a.members[n].log[a.members[n].commit].term == a.members[n].term
    requires IsQuorum(q, a.members.Keys) && forall v | v in q :: a.members[v].term <= a.members[n].term
    ensures |chosen| <= a.members[n].commit
  {
    if chosen != [] {
      var u: nat :| EndorsedBy(a, chosen, u);
      NothingDecidedBeyond(a, n, q, u);
    }
  }

  /**
    What the leader's loop establishes: if each result it counted stands for a peer's acknowledgement
    after the capture and the count confirms, the captured index covers everything committed by then.
   */
  lemma {:induction false} ConfirmedIndexFresh(states: seq<State>, events: seq<Event>, i: nat, j: nat, leader: Id, who: seq<Id>, results: seq<bool>)
    requires IsRun(states, events) && i <= j < |states| && leader in states[i].nodes
    requires states[i].nodes[leader].role == Leader && Settled(states[i].nodes[leader])
    requires |results| == |who| && (forall a, b | 0 <= a < b < |who| :: who[a] != who[b])
    requires forall k | 0 <= k < |who| :: who[k] in states[i].nodes[leader].peers
    requires forall k | 0 <= k < |who| && results[k] :: Acknowledged(states, events, i, j, who[k], states[i].nodes[leader].term)
    requires 1 + Acks(results) >= QuorumSize(|states[i].nodes[leader].peers| + 1)
    ensures states[i].nodes[leader].commit == |states[i].chosen|
  {
    var acked := AckedBy(who, results);
    AckedByCount(who, results);
    PeersAreOthers(states, events, i, leader);
    assert leader !in acked && acked + {leader} <= states[i].nodes.Keys;
    assert |acked + {leader}| == |acked| + 1;
    ReadIndexFresh(states, events, i, j, leader, acked);
  }

  lemma PeersAreOthers(states: seq<State>, events: seq<Event>, i: nat, n: Id)
    requires IsRun(states, events) && i < |states| && n in states[i].nodes
    ensures |states[i].nodes[n].peers| + 1 == |states[i].nodes|
    ensures forall p | p in states[i].nodes[n].peers :: p in states[i].nodes && p != n
  {
    var models := RunFollows(states, events);
    assert StandsFor(states, models, i);
    assert NodeOk(models[i], states[i], n);
    forall p | p in states[i].nodes[n].peers
      ensures p in states[i].nodes && p != n
    {
      PeerIs(states[i], n, p);
    }
  }

  /**
    A follower that waits until it has applied the captured index answers from the replay of a
    chosen prefix that contains every entry committed before the capture.
   */
  lemma FollowerReadsAllCommitted(states: seq<State>, events: seq<Event>, i: nat, j: nat, leader: Id, acked: set<Id>,
                                  k: nat, follower: Id)
    requires IsRun(states, events) && i <= j <= k < |states| && leader in states[i].nodes && follower in states[k].nodes
    requires states[i].nodes[leader].role == Leader && Settled(states[i].nodes[leader])
    requires IsQuorum(acked + {leader}, states[i].nodes.Keys)
    requires forall p | p in acked :: Acknowledged(states, events, i, j, p, states[i].nodes[leader].term)
    requires states[k].nodes[follower].applied >= states[i].nodes[leader].commit
    ensures var s := states[k].nodes[follower];
      && s.applied <= |states[k].chosen| && states[i].chosen <= states[k].chosen[..s.applied]
      && s.store == Replay(map[], states[k].chosen[..s.applied])
  {
    ReadIndexFresh(states, events, i, j, leader, acked);
    StateMachineSafety(states, events, k, follower);
    ChosenGrows(states, events, i, k);
  }

  /** So an acknowledged write is visible to every follower read whose index was captured afterwards. */
  lemma AcknowledgedWriteIsRead(states: seq<State>, events: seq<Event>, w: nat, writer: Id, x: Answer,
                                i: nat, j: nat, leader: Id, acked: set<Id>, k: nat, follower: Id)
    requires IsRun(states, events) && w <= i <= j <= k < |states| && writer in states[w].nodes
    requires x in states[w].nodes[writer].answers && x.committed
    requires leader in states[i].nodes && follower in states[k].nodes
    requires states[i].nodes[leader].role == Leader && Settled(states[i].nodes[leader])
    requires IsQuorum(acked + {leader}, states[i].nodes.Keys)
    requires forall p | p in acked :: Acknowledged(states, events, i, j, p, states[i].nodes[leader].term)
    requires states[k].nodes[follower].applied >= states[i].nodes[leader].commit
    ensures var s, e := states[k].nodes[follower], x.ticket.entry;
      0 < e.index <= s.applied <= |states[k].chosen| && states[k].chosen[e.index - 1] == e
  {
    CommittedAnswerSound(states, events, w, writer, x, i);
    FollowerReadsAllCommitted(states, events, i, j, leader, acked, k, follower);
    CommittedAnswerSound(states, events, w, writer, x, k);
  }

  /** The map has the key as the last applied entry about it left it, at or after the given index. */
  predicate ReadsLast(s: NodeState, chosen: Log, key: string, index: nat, last: nat) {
    && index <= last + 1 <= s.applied <= |chosen|
    && LastMention(chosen[..s.applied], key, last) && LeftBy(s.store, key, chosen[last].command)
  }

  /** And what it reads at the key is that write, or a later chosen one about the same key. */
  lemma LastWriteIsRead(states: seq<State>, events: seq<Event>, w: nat, writer: Id, x: Answer,
                        i: nat, j: nat, leader: Id, acked: set<Id>, k: nat, follower: Id, key: string) returns (last: nat)
    requires IsRun(states, events) && w <= i <= j <= k < |states| && writer in states[w].nodes
    requires x in states[w].nodes[writer].answers && x.committed && KeyOf(x.ticket.entry.command) == Some(key)
    requires leader in states[i].nodes && follower in states[k].nodes
    requires states[i].nodes[leader].role == Leader && Settled(states[i].nodes[leader])
    requires IsQuorum(acked + {leader}, states[i].nodes.Keys)
    requires forall p | p in acked :: Acknowledged(states, events, i, j, p, states[i].nodes[leader].term)
    requires states[k].nodes[follower].applied >= states[i].nodes[leader].commit
    ensures ReadsLast(states[k].nodes[follower], states[k].chosen, key, x.ticket.entry.index, last)
  {
    AcknowledgedWriteIsRead(states, events, w, writer, x, i, j, leader, acked, k, follower);
    MapAt(states, events, k, follower);
    last := LastAbout(states[k].nodes[follower], states[k].chosen, key, x.ticket.entry);
  }

  lemma MapAt(states: seq<State>, events: seq<Event>, i: nat, n: Id)
    requires IsRun(states, events) && i < |states| && n in states[i].nodes
    ensures var s, chosen := states[i].nodes[n], states[i].chosen; s.applied <= |chosen| && s.store == Replay(map[], chosen[..s.applied])
  {
    StateMachineSafety(states, events, i, n);
  }

  lemma LastAbout(s: NodeState, chosen: Log, key: string, e: Entry) returns (last: nat)
    requires 0 < e.index <= s.applied <= |chosen| && chosen[e.index - 1] == e && KeyOf(e.command) == Some(key)
    requires s.store == Replay(map[], chosen[..s.applied])
    ensures ReadsLast(s, chosen, key, e.index, last)
  {
    var l := chosen[..s.applied];
    assert l[e.index - 1] == e;
    last := SomeLastMention(l, key, e.index - 1);
    LastWriteWins(map[], l, key, last);
  }
}
