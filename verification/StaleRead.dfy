/**
  Why a read index needs a settled leader: a run in which a new leader, which has appended
  nothing of its own yet, is confirmed by a quorum and hands out an index below an entry
  that is already committed.
 */
module StaleRead {
  import opened Types
  import opened Quorums
  import opened NodeSpec
  import opened Cluster
  import opened Safety
  import opened ReadIndex
  import opened Runs

  /** x leads term 1 with y's vote and writes one entry. */
  lemma Wrote(x: Id, y: Id, z: Id) returns (states: seq<State>, events: seq<Event>, c: State, l: Log)
    requires x != y && x != z && y != z
    ensures Ends(states, events, c) && Formed(c) && c.nodes.Keys == {x, y, z} && |c.nodes| == 3 && |l| == 1 && l[0].term == 1
    ensures Plain(c.nodes[x], 1, l) && Unsent(c.nodes[x]) && c.nodes[x].commit == 0
    ensures Plain(c.nodes[y], 1, []) && c.nodes[y].commit == 0
  {
    var st, ev, d := StartsThree(x, y, z);
    var st', ev', d' := FirstElected(st, ev, d, x, y);
    states, events, c, l := WritesMore(st', ev', d', x, 1, 1, X);
  }

  /** y takes it, and x commits it. */
  lemma Committed(x: Id, y: Id, z: Id) returns (states: seq<State>, events: seq<Event>, c: State, l: Log)
    requires x != y && x != z && y != z
    ensures Ends(states, events, c) && Formed(c) && c.nodes.Keys == {x, y, z} && |c.nodes| == 3 && |l| == 1 && l[0].term == 1
    ensures Plain(c.nodes[x], 1, l) && c.nodes[x].commit == 1
    ensures Plain(c.nodes[y], 1, l) && c.nodes[y].role == Follower && c.nodes[y].commit == 0
  {
    var st, ev, d;
    st, ev, d, l := Wrote(x, y, z);
    states, events, c := Replicates(st, ev, d, x, 1, l, y);
  }

  /** y is elected with x's vote; the entry was committed at moment k. */
  lemma Succeeded(x: Id, y: Id, z: Id) returns (states: seq<State>, events: seq<Event>, c: State, l: Log, k: nat)
    requires x != y && x != z && y != z
    ensures Ends(states, events, c) && Formed(c) && c.nodes.Keys == {x, y, z} && |c.nodes| == 3 && |l| == 1 && l[0].term == 1
    ensures Leads(c.nodes[y], 2, l) && c.nodes[y].commit == 0
    ensures Plain(c.nodes[x], 2, l) && k < |states| && x in states[k].nodes && states[k].nodes[x].commit == 1
  {
    var st, ev, d;
    st, ev, d, l := Committed(x, y, z);
    states, events, c := Elects(st, ev, d, y, 1, l, x, 1, l);
    k := |ev|;
  }

  lemma HeartbeatAcked(y: NodeState, x: NodeState, l: Log, p: Id)
    requires Leads(y, 2, l) && |l| == 1 && l[0].term == 1 && y.commit == 0 && p in y.peers && Plain(x, 2, l)
    ensures HandleAppend(x, RequestFor(y, p)).1 == AppendReply(2, true, 0, 0)
  {
    assert RequestFor(y, p) == AppendRequest(2, y.id, 1, 1, [], 0);
  }

  /** y's round of heartbeats, acknowledged by x. */
  lemma Confirmed(states: seq<State>, events: seq<Event>, c: State, l: Log, x: Id, y: Id) returns (states': seq<State>, events': seq<Event>)
    requires Ends(states, events, c) && Formed(c) && x in c.nodes && y in c.nodes && x != y
    requires Leads(c.nodes[y], 2, l) && |l| == 1 && l[0].term == 1 && c.nodes[y].commit == 0 && Plain(c.nodes[x], 2, l)
    ensures IsRun(states', events') && |events'| == |events| + 2 && states <= states'
    ensures Acknowledged(states', events', |events|, |events| + 2, x, 2)
  {
    OtherIsPeer(c, y, x);
    HeartbeatAcked(c.nodes[y], c.nodes[x], l, x);
    var s1, e1, c1 := Casts(states, events, c, y);
    var take := TakeSend(Send(y, x, RequestFor(c.nodes[y], x)));
    OneStep(s1, e1, c1, take);
    states', events' := s1 + [Act(c1, take)], e1 + [take];
    assert AcknowledgesAt(states', events', |events| + 1, x, 2);
  }

  /** A leader that is not settled can be confirmed by a quorum and still be behind what is committed. */
  lemma UnsettledLeaderStale(x: Id, y: Id, z: Id) returns (states: seq<State>, events: seq<Event>, i: nat, j: nat)
    requires x != y && x != z && y != z
    ensures IsRun(states, events) && i <= j < |states| && y in states[i].nodes
    ensures states[i].nodes[y].role == Leader && !Settled(states[i].nodes[y])
    ensures IsQuorum({x} + {y}, states[i].nodes.Keys)
    ensures Acknowledged(states, events, i, j, x, states[i].nodes[y].term)
    ensures states[i].nodes[y].commit < |states[i].chosen|
  {
    var st, ev, c, l, k := Succeeded(x, y, z);
    states, events := Confirmed(st, ev, c, l, x, y);
    i, j := |ev|, |ev| + 2;
    StateMachineSafety(states, events, k, x);
    ChosenGrows(states, events, k, i);
    assert |{x, y, z}| == 3;
  }
}
