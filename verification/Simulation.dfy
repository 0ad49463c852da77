/** Every event of the cluster is a run of protocol steps on the state it stands for. */
module Simulation {
  import opened Types
  import opened Quorums
  import opened NodeSpec
  import opened RaftModel
  import opened RaftSafety
  import opened Refinement
  import opened NodeSim
  import C = Cluster

  // ---- What survives growth -------------------------------------------------------

  lemma RequestStays(a: Model, a': Model, req: AppendRequest)
    requires Grows(a, a') && RequestOk(a, req)
    requires forall u | u in a'.reigns :: a'.reigns[u].decided <= |a'.reigns[u].log|
    ensures RequestOk(a', req)
  {
    var r, r' := a.reigns[req.term], a'.reigns[req.term];
    assert ReignGrows(r, r');
    EndorsedStays(a, a', r.log[..req.commit], req.term, req.term);
    assert r'.log[..req.commit] == r.log[..req.commit];
  }

  lemma DecidedBounded(a: Model)
    requires Inv(a)
    ensures forall u | u in a.reigns :: a.reigns[u].decided <= |a.reigns[u].log|
  {
    forall u | u in a.reigns
      ensures a.reigns[u].decided <= |a.reigns[u].log|
    {
      assert ReignOk(a, u);
    }
  }

  lemma AckStays(a: Model, a': Model, n: Id, t: nat)
    requires Grows(a, a')
    ensures AckOf(a, n, t) <= AckOf(a', n, t)
  {
    if n in a.members { assert MemberGrows(a.members[n], a'.members[n]); }
  }

  lemma VoteStays(a: Model, a': Model, n: Id, t: nat, c: Id)
    requires Grows(a, a') && n in VotesFor(a, t, c)
    ensures n in VotesFor(a', t, c)
  {
    assert MemberGrows(a.members[n], a'.members[n]);
  }

  lemma PacketStays(a: Model, a': Model, p: C.Packet)
    requires Grows(a, a') && Inv(a') && PacketOk(a, p)
    ensures PacketOk(a', p)
  {
    match p
    case AskVote(from, _, ask) => assert MemberGrows(a.members[from], a'.members[from]);
    case AnswerVote(from, to, ask, vote) => if vote.granted { VoteStays(a, a', from, ask.term, to); }
    case Send(_, _, req) => DecidedBounded(a'); RequestStays(a, a', req);
    case Reply(from, _, req, _) => AckStays(a, a', from, req.term);
  }

  // ---- The frame of a cluster event ---------------------------------------------------

  /** Nobody but n changed, and nobody's pending calls but n's. */
  predicate OnlyNode(c: C.State, c': C.State, a: Model, a': Model, n: Id) {
    && n in c.nodes && c'.nodes.Keys == c.nodes.Keys && a'.members.Keys == a.members.Keys
    && (forall o | o in c.nodes && o != n :: c'.nodes[o] == c.nodes[o])
    && (forall o | o in a.members && o != n :: a'.members[o] == a.members[o])
    && (forall x | x in c'.calls && x.candidate != n :: x in c.calls)
    && c.chosen <= c'.chosen
  }

  lemma TruthfulStays(a: Model, a': Model, s: NodeState)
    requires Grows(a, a') && Truthful(a, s)
    ensures Truthful(a', s)
  {
    forall p | s.role == Leader && p in s.matchIndex
      ensures s.matchIndex[p] <= AckOf(a', p, s.term)
    {
      AckStays(a, a', p, s.term);
    }
  }

  lemma CountStays(a: Model, a': Model, calls: set<C.Call>, calls': set<C.Call>, n: Id, s: NodeState)
    requires Grows(a, a') && CountOk(a, calls, n, s)
    requires forall x | x in calls' && x.candidate == n && x.term == s.term :: x in calls
    ensures CountOk(a', calls', n, s)
  {
    var heard, heard' := VotesFor(a, s.term, n) - Unheard(calls, n, s.term), VotesFor(a', s.term, n) - Unheard(calls', n, s.term);
    forall v | v in heard
      ensures v in heard'
    {
      VoteStays(a, a', v, s.term, n);
    }
    SubsetSize(heard, heard');
  }

  lemma OtherNodeOk(c: C.State, c': C.State, a: Model, a': Model, n: Id, o: Id)
    requires Refines(c, a) && Grows(a, a') && OnlyNode(c, c', a, a', n) && o in c.nodes && o != n
    ensures NodeOk(a', c', o)
  {
    assert NodeOk(a, c, o);
    TruthfulStays(a, a', c.nodes[o]);
    CountStays(a, a', c.calls, c'.calls, o, c.nodes[o]);
  }

  lemma NodesOk(c: C.State, c': C.State, a: Model, a': Model, n: Id)
    requires Refines(c, a) && Grows(a, a') && OnlyNode(c, c', a, a', n) && NodeOk(a', c', n)
    ensures forall o {:trigger NodeOk(a', c', o)} | o in c'.nodes :: NodeOk(a', c', o)
  {
    forall o | o in c'.nodes
      ensures NodeOk(a', c', o)
    {
      if o != n { OtherNodeOk(c, c', a, a', n, o); }
    }
  }

  lemma PacketsOk(c: C.State, c': C.State, a: Model, a': Model)
    requires Refines(c, a) && Inv(a') && Grows(a, a')
    requires forall p {:trigger PacketOk(a', p)} | p in c'.net && p !in c.net :: PacketOk(a', p)
    ensures forall p {:trigger PacketOk(a', p)} | p in c'.net :: PacketOk(a', p)
  {
    forall p | p in c'.net
      ensures PacketOk(a', p)
    {
      if p in c.net {
        assert PacketOk(a, p);
        PacketStays(a, a', p);
      }
    }
  }

  predicate CallOk(c: C.State, x: C.Call) {
    x.candidate in c.nodes && x.peer in c.nodes && x.peer != x.candidate && x.term <= c.nodes[x.candidate].term
  }

  /** What is left to show of an event at node n: its own node, its packets, its calls and the chosen log. */
  lemma EventRefines(c: C.State, c': C.State, a: Model, a': Model, n: Id)
    requires Refines(c, a) && Inv(a') && Grows(a, a') && OnlyNode(c, c', a, a', n)
    requires NodeOk(a', c', n)
    requires forall p {:trigger PacketOk(a', p)} | p in c'.net && p !in c.net :: PacketOk(a', p)
    requires forall x {:trigger CallOk(c', x)} | x in c'.calls && x !in c.calls :: CallOk(c', x)
    requires c.nodes[n].term <= c'.nodes[n].term
    requires ChosenOk(a', c'.chosen)
    ensures Refines(c', a')
  {
    NodesOk(c, c', a, a', n);
    PacketsOk(c, c', a, a');
    forall x | x in c'.calls
      ensures CallOk(c', x)
    {
      if x in c.calls { assert CallOk(c, x); }
    }
  }

  // ---- The chosen log -----------------------------------------------------------------

  lemma ChosenStays(a: Model, a': Model, n: Id, chosen: Log)
    requires Inv(a) && Steps(a, a', n) && ChosenOk(a, chosen)
    ensures ChosenOk(a', chosen)
  {
    forall t | t in a'.reigns
      ensures a'.reigns[t].decided <= |a'.reigns[t].log| && a'.reigns[t].log[..a'.reigns[t].decided] <= chosen
    {
      DecidedStays(a, a', n, chosen, t);
    }
    if chosen != [] {
      var t: nat :| EndorsedBy(a, chosen, t);
      assert Endorsed(a, chosen, t);
      DecidedBounded(a');
      EndorsedStays(a, a', chosen, t, t);
      var u: nat :| u <= t && EndorsedBy(a', chosen, u);
    }
  }

  lemma DecidedStays(a: Model, a': Model, n: Id, chosen: Log, t: nat)
    requires Inv(a) && Steps(a, a', n) && ChosenOk(a, chosen) && t in a'.reigns
    ensures a'.reigns[t].decided <= |a'.reigns[t].log| && a'.reigns[t].log[..a'.reigns[t].decided] <= chosen
  {
    if t in a.reigns {
      assert ReignGrows(a.reigns[t], a'.reigns[t]);
      var i := a.reigns[t].decided;
      assert a'.reigns[t].log[..i] == a.reigns[t].log[..i];
    }
  }

  /** What any node has committed is a prefix of the chosen log. */
  lemma EndorsedChosen(a: Model, p: Log, t: nat, chosen: Log)
    requires Endorsed(a, p, t) && ChosenOk(a, chosen)
    ensures p <= chosen
  {
    if p != [] {
      var u: nat :| u <= t && EndorsedBy(a, p, u);
      assert a.reigns[u].log[..a.reigns[u].decided] <= chosen;
    }
  }

  lemma CommittedChosen(a: Model, n: Id, chosen: Log)
    requires Inv(a) && n in a.members && ChosenOk(a, chosen)
    ensures a.members[n].commit <= |a.members[n].log| && a.members[n].log[..a.members[n].commit] <= chosen
  {
    assert MemberOk(a, n);
    EndorsedChosen(a, a.members[n].log[..a.members[n].commit], a.members[n].term, chosen);
  }

  lemma AnswersStay(s: NodeState, s': NodeState, full: Log, chosen: Log, chosen': Log)
    requires AnswersOk(s, chosen) && chosen <= chosen' && NewAnswersOk(s, s', full)
    requires s'.commit <= |full| && full[..s'.commit] <= chosen'
    ensures AnswersOk(s', chosen')
  {
    forall x | x in s'.answers && x.committed
      ensures 0 < x.ticket.entry.index <= |chosen'| && chosen'[x.ticket.entry.index - 1] == x.ticket.entry
    {
      if x !in s.answers {
        assert chosen'[x.ticket.entry.index - 1] == full[..s'.commit][x.ticket.entry.index - 1];
      }
    }
  }

  /** An event whose protocol steps decide nothing. */
  lemma QuietEvent(c: C.State, a: Model, a': Model, n: Id, s': NodeState, packets: set<C.Packet>, calls': set<C.Call>)
    requires Refines(c, a) && Inv(a) && n in c.nodes && Steps(a, a', n)
    requires Local(s', a'.members[n]) && Truthful(a', s') && CountOk(a', calls', n, s')
    requires s'.id == n && s'.peers == c.nodes[n].peers && NewAnswersOk(c.nodes[n], s', a'.members[n].log)
    requires forall p {:trigger PacketOk(a', p)} | p in packets :: PacketOk(a', p)
    requires forall x | x in calls' && x !in c.calls :: x.candidate == n && x.peer in c.nodes && x.peer != n && x.term <= s'.term
    ensures Refines(C.Put(c, n, s', packets).(calls := calls'), a')
  {
    var c' := C.Put(c, n, s', packets).(calls := calls');
    assert NodeOk(a, c, n);
    ChosenStays(a, a', n, c.chosen);
    CommittedChosen(a', n, c.chosen);
    AnswersStay(c.nodes[n], s', a'.members[n].log, c.chosen, c.chosen);
    assert MemberGrows(a.members[n], a'.members[n]);
    assert c'.chosen == c.chosen && c'.nodes.Keys == c.nodes.Keys;
    assert NodeOk(a', c', n);
    EventRefines(c, c', a, a', n);
  }
}
