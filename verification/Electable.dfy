/**
  Elections can always be won: whatever has happened so far, the run can go on so that any node becomes
  leader to which a majority, itself included, is no more up to date; and there always is such a node.
 */
module Electable {
  import opened Types
  import opened NodeSpec
  import opened Cluster
  import opened Safety
  import opened Runs

  // ---- The best log -----------------------------------------------------------------------

  /** The node would pass v's check of its log. */
  predicate NoWorse(s: NodeState, v: NodeState) {
    AtLeastAsUpToDate(LastLogTerm(s), LastIndex(s), LastLogTerm(v), LastIndex(v))
  }

  /** Among any nodes there is one whose log is no worse than any other's. */
  lemma {:induction false} SomeBest(nodes: map<Id, NodeState>, ids: set<Id>) returns (b: Id)
    requires ids <= nodes.Keys && ids != {}
    ensures b in ids && forall v | v in ids :: NoWorse(nodes[b], nodes[v])
    decreases |ids|
  {
    var x :| x in ids;
    b := x;
    if ids != {x} {
      var y := SomeBest(nodes, ids - {x});
      b := if NoWorse(nodes[x], nodes[y]) then x else y;
    }
  }

  lemma {:induction false} SomeTerm(nodes: map<Id, NodeState>, ids: set<Id>) returns (t: nat)
    requires ids <= nodes.Keys
    ensures forall v | v in ids :: nodes[v].term <= t
    decreases |ids|
  {
    t := 0;
    if ids != {} {
      var x :| x in ids;
      t := SomeTerm(nodes, ids - {x});
      t := Max(t, nodes[x].term);
    }
  }

  // ---- What the handlers do ------------------------------------------------------------------

  predicate SameLog(s: NodeState, s': NodeState) {
    s'.log == s.log && s'.offset == s.offset && SameName(s, s')
  }

  lemma Stood(s: NodeState)
    requires s.role != Leader
    ensures var s' := StartElection(s); SameLog(s, s') && s'.term == s.term + 1 && s'.role == Candidate && s'.votes == 1
  {
  }

  lemma Granted(v: NodeState, s: NodeState)
    requires v.term < s.term && NoWorse(s, v)
    ensures var (v', reply) := HandleVote(v, VoteRequestOf(s)); reply == VoteReply(s.term, true) && SameName(v, v')
  {
  }

  lemma Counted(s: NodeState)
    requires s.role == Candidate
    ensures var s' := HandleVoteReply(s, s.term, VoteReply(s.term, true));
      && SameLog(s, s') && s'.term == s.term
      && if s.votes + 1 >= Majority(s) then s'.role == Leader else s'.role == Candidate && s'.votes == s.votes + 1
  {
  }

  // ---- Asking -------------------------------------------------------------------------------

  /** The candidate's request is on its way to v and the reply to it is awaited. */
  predicate Asks(c: State, b: Id, v: Id) {
    b in c.nodes && AskVote(b, v, VoteRequestOf(c.nodes[b])) in c.net && Call(b, c.nodes[b].term, v) in c.calls
  }

  /** Election timeouts bring a node to any later term, as a candidate that asks everybody. */
  lemma {:induction false} Rises(states: seq<State>, events: seq<Event>, c: State, b: Id, t: nat)
    returns (states': seq<State>, events': seq<Event>, c': State)
    requires Ends(states, events, c) && Formed(c) && b in c.nodes && c.nodes[b].role != Leader && c.nodes[b].term < t
    ensures Ends(states', events', c') && Formed(c') && Apart(c, c', b, b) && states <= states' && events <= events'
    ensures SameLog(c.nodes[b], c'.nodes[b]) && c'.nodes[b].term == t && c'.nodes[b].role == Candidate && c'.nodes[b].votes == 1
    ensures forall v {:trigger Asks(c', b, v)} | v in c.nodes && v != b :: Asks(c', b, v)
    decreases t - c.nodes[b].term
  {
    Stood(c.nodes[b]);
    states', events', c' := Runs.Next(states, events, c, Timeout(b), StartElection(c.nodes[b]));
    if c'.nodes[b].term < t {
      var states1, events1, c1 := Rises(states', events', c', b, t);
      states', events', c' := states1, events1, c1;
    } else {
      forall v | v in c.nodes && v != b
        ensures Asks(c', b, v)
      {
        OtherIsPeer(c, b, v);
        assert Call(b, c.nodes[b].term + 1, v) in CallsAfter(c, c.nodes[b], Timeout(b));
      }
    }
  }

  // ---- Voting ----------------------------------------------------------------------------------

  /** A voter that will grant the candidate's request. */
  predicate Willing(c: State, b: Id, v: Id) {
    && b in c.nodes && v in c.nodes && v != b
    && Asks(c, b, v) && c.nodes[v].term < c.nodes[b].term && NoWorse(c.nodes[b], c.nodes[v])
  }

  /** It votes, and the candidate counts the vote. */
  lemma Votes(states: seq<State>, events: seq<Event>, c: State, b: Id, v: Id)
    returns (states': seq<State>, events': seq<Event>, c': State)
    requires Ends(states, events, c) && Formed(c) && Willing(c, b, v) && c.nodes[b].role == Candidate
    ensures Ends(states', events', c') && Formed(c') && Apart(c, c', b, v) && states <= states' && events <= events'
    ensures c.calls - {Call(b, c.nodes[b].term, v)} <= c'.calls
    ensures var s, s' := c.nodes[b], c'.nodes[b];
      && SameLog(s, s') && s'.term == s.term
      && if s.votes + 1 >= Majority(s) then s'.role == Leader else s'.role == Candidate && s'.votes == s.votes + 1
  {
    var s, ask := c.nodes[b], VoteRequestOf(c.nodes[b]);
    var p, q := AskVote(b, v, ask), AnswerVote(v, b, ask, VoteReply(s.term, true));
    assert Listed(c, b);
    Granted(c.nodes[v], s);
    var states1, events1, c1 := Runs.Next(states, events, c, TakeAskVote(p), HandleVote(c.nodes[v], ask).0);
    Counted(s);
    states', events', c' := Runs.Next(states1, events1, c1, TakeAnswerVote(q), HandleVoteReply(s, s.term, VoteReply(s.term, true)));
  }

  lemma StillWilling(c: State, c': State, b: Id, v: Id, o: Id)
    requires Willing(c, b, o) && o != v && Apart(c, c', b, v) && c.calls - {Call(b, c.nodes[b].term, v)} <= c'.calls
    requires b in c'.nodes && SameLog(c.nodes[b], c'.nodes[b]) && c'.nodes[b].term == c.nodes[b].term
    ensures Willing(c', b, o)
  {
  }

  /** With enough willing voters left the candidate wins. */
  lemma {:induction false} Wins(states: seq<State>, events: seq<Event>, c: State, b: Id, q: set<Id>)
    returns (states': seq<State>, events': seq<Event>, c': State)
    requires Ends(states, events, c) && Formed(c) && b in c.nodes && c.nodes[b].role == Candidate
    requires forall v {:trigger Willing(c, b, v)} | v in q :: Willing(c, b, v)
    requires c.nodes[b].votes + |q| >= Majority(c.nodes[b])
    ensures Ends(states', events', c') && states <= states' && events <= events'
    ensures b in c'.nodes && c'.nodes[b].role == Leader && c'.nodes[b].term == c.nodes[b].term
    decreases |q|
  {
    if c.nodes[b].votes >= Majority(c.nodes[b]) {
      states', events', c' := Runs.Next(states, events, c, WinAlone(b), BecomeLeader(c.nodes[b]));
    } else {
      var v :| v in q;
      assert Willing(c, b, v);
      states', events', c' := Votes(states, events, c, b, v);
      if c'.nodes[b].role != Leader {
        forall o | o in q - {v}
          ensures Willing(c', b, o)
        {
          StillWilling(c, c', b, v, o);
        }
        var states1, events1, c1 := Wins(states', events', c', b, q - {v});
        states', events', c' := states1, events1, c1;
      }
    }
  }

  // ---- From every reachable state ---------------------------------------------------------------

  lemma RunFormed(states: seq<State>, events: seq<Event>)
    requires IsRun(states, events)
    ensures Formed(states[|events|])
  {
    forall n | n in states[|events|].nodes
      ensures Listed(states[|events|], n)
    {
      NamedSo(states, events, |events|, n);
    }
  }

  /** A node is elected by any voters that, with it, are a majority and whose logs are no better than its own. */
  lemma MajorityElects(states: seq<State>, events: seq<Event>, b: Id, voters: set<Id>)
    returns (states': seq<State>, events': seq<Event>)
    requires IsRun(states, events) && b in states[|events|].nodes && voters <= states[|events|].nodes.Keys - {b}
    requires 2 * (1 + |voters|) > |states[|events|].nodes|
    requires forall v | v in voters :: NoWorse(states[|events|].nodes[b], states[|events|].nodes[v])
    ensures IsRun(states', events') && states <= states' && events <= events'
    ensures b in states'[|events'|].nodes && states'[|events'|].nodes[b].role == Leader
  {
    var c := states[|events|];
    RunFormed(states, events);
    if c.nodes[b].role == Leader {
      states', events' := states, events;
    } else {
      var t := SomeTerm(c.nodes, voters + {b});
      var states1, events1, c1 := Rises(states, events, c, b, t + 1);
      forall v | v in voters
        ensures Willing(c1, b, v)
      {
        assert Asks(c1, b, v);
      }
      assert Listed(c1, b);
      assert |c.nodes| == |c.nodes.Keys|;
      var c2;
      states', events', c2 := Wins(states1, events1, c1, b, voters);
    }
  }

  /** From every reachable state of every cluster some continuation of the run has a leader. */
  lemma SomeoneElectable(states: seq<State>, events: seq<Event>)
    returns (states': seq<State>, events': seq<Event>, b: Id)
    requires IsRun(states, events) && states[|events|].nodes.Keys != {}
    ensures IsRun(states', events') && states <= states' && events <= events'
    ensures b in states'[|events'|].nodes && states'[|events'|].nodes[b].role == Leader
  {
    var c := states[|events|];
    b := SomeBest(c.nodes, c.nodes.Keys);
    assert |c.nodes.Keys - {b}| == |c.nodes| - 1;
    states', events' := MajorityElects(states, events, b, c.nodes.Keys - {b});
  }
}
