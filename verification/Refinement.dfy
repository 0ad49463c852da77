/** How a cluster of windowed nodes stands for a state of the protocol over full logs. */
module Refinement {
  import opened Types
  import opened KeyValue
  import opened NodeSpec
  import opened Window
  import opened RaftModel
  import C = Cluster

  /** The map is the replay of what was applied, which is committed and covers the anchor. */
  predicate AppliedOk(s: NodeState, full: Log) {
    && Compacted(s) <= s.applied <= s.commit <= |full|
    && s.store == Replay(map[], full[..s.applied])
    && (Anchored(s) ==> FileOk(s.disk.snapshot.value, full))
  }

  /** A blocked call waits, on a current leader, for its own unapplied entry of the current term. */
  predicate WaitersOk(s: NodeState, full: Log) {
    && (s.waiters != map[] ==> s.role == Leader)
    && forall i | i in s.waiters ::
         s.applied < i <= |full| && s.waiters[i].entry == full[i - 1] && full[i - 1].term == s.term && full[i - 1].index == i
  }

  /** A node's state against the member it stands for. */
  predicate Local(s: NodeState, m: Member) {
    && s.term == m.term && s.role == m.role && s.applied == s.commit == m.commit
    && s.votedFor == (if m.term in m.votes then Some(m.votes[m.term]) else None)
    && Shows(s, m.log) && DiskOk(s) && AppliedOk(s, m.log) && WaitersOk(s, m.log)
  }

  /** A leader's matchIndex never exceeds what the peer acknowledged in this term. */
  predicate Truthful(a: Model, s: NodeState) {
    s.role == Leader ==>
      && s.matchIndex.Keys == (set p | p in s.peers) == s.nextIndex.Keys
      && forall p | p in s.matchIndex :: s.matchIndex[p] <= AckOf(a, p, s.term)
  }

  /** A request continues the log of its term's leader; only a command-less anchor may head it, unverified. */
  ghost predicate RequestOk(a: Model, req: AppendRequest) {
    && req.term in a.reigns
    && var r := a.reigns[req.term].log;
    && (req.entries != [] ==> req.prevIndex + |req.entries| <= |r|)
    && (forall j {:trigger req.entries[j]} | 0 <= j < |req.entries| ::
          req.entries[j].term == r[req.prevIndex + j].term && req.entries[j].index == req.prevIndex + j + 1)
    && (forall j {:trigger req.entries[j]} | 0 <= j < |req.entries| ::
          req.entries[j] == r[req.prevIndex + j] || (j == 0 && req.prevIndex > 0 && req.prevTerm == 0))
    && (req.prevTerm != 0 ==> 0 < req.prevIndex <= |r| && r[req.prevIndex - 1].term == req.prevTerm)
    && req.commit <= req.prevIndex + |req.entries| && req.commit <= |r|
    && Endorsed(a, r[..req.commit], req.term)
  }

  ghost predicate PacketOk(a: Model, p: C.Packet) {
    match p
    case AskVote(from, _, ask) =>
      && ask.candidate == from && from in a.members && ask.term in a.members[from].bids
      && ask.lastIndex == |a.members[from].bids[ask.term]| && ask.lastTerm == LastTerm(a.members[from].bids[ask.term])
    case AnswerVote(from, to, ask, vote) =>
      vote.granted ==> vote.term == ask.term && from in VotesFor(a, ask.term, to)
    case Send(from, to, req) => from != to && from in a.members && RequestOk(a, req)
    case Reply(from, to, req, reply) =>
      && from != to && from in a.members
      && (reply.success ==> reply.term == req.term && AckOf(a, from, req.term) >= req.prevIndex + |req.entries|)
  }

  /** Peers whose vote reply a candidate has not handled yet. */
  function Unheard(calls: set<C.Call>, n: Id, t: nat): set<Id> {
    set x | x in calls && x.candidate == n && x.term == t :: x.peer
  }

  /** A candidate has counted no more votes than it heard. */
  predicate CountOk(a: Model, calls: set<C.Call>, n: Id, s: NodeState) {
    s.role == Candidate ==> s.votes <= |VotesFor(a, s.term, n) - Unheard(calls, n, s.term)|
  }

  /** The chosen log is the longest decided one, and covers all of them. */
  ghost predicate ChosenOk(a: Model, chosen: Log) {
    && (forall t {:trigger EndorsedBy(a, chosen, t)} {:trigger a.reigns[t].decided} | t in a.reigns ::
          a.reigns[t].decided <= |a.reigns[t].log| && a.reigns[t].log[..a.reigns[t].decided] <= chosen)
    && (chosen == [] || exists t: nat :: EndorsedBy(a, chosen, t))
  }

  /** Every committed answer ever given is about a chosen entry. */
  predicate AnswersOk(s: NodeState, chosen: Log) {
    forall x | x in s.answers && x.committed :: 0 < x.ticket.entry.index <= |chosen| && chosen[x.ticket.entry.index - 1] == x.ticket.entry
  }

  ghost predicate NodeOk(a: Model, c: C.State, n: Id)
    requires n in c.nodes
  {
    var s := c.nodes[n];
    && n in a.members && s.id == n && C.PeersOf(c.nodes.Keys, n, s.peers)
    && Local(s, a.members[n]) && Truthful(a, s) && CountOk(a, c.calls, n, s) && AnswersOk(s, c.chosen)
  }

  ghost predicate Refines(c: C.State, a: Model) {
    && a.members.Keys == c.nodes.Keys
    && (forall n {:trigger NodeOk(a, c, n)} | n in c.nodes :: NodeOk(a, c, n))
    && (forall p {:trigger PacketOk(a, p)} | p in c.net :: PacketOk(a, p))
    && (forall x {:trigger x in c.calls} | x in c.calls :: x.candidate in c.nodes && x.peer in c.nodes && x.peer != x.candidate && x.term <= c.nodes[x.candidate].term)
    && ChosenOk(a, c.chosen)
  }
}
