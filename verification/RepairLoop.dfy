/**
  Log repair that never ends: a reachable pair of logs for which every rejection undoes what the
  one before it did, for as long as the two nodes talk and whatever the clients write meanwhile.
 */
module RepairLoop {
  import opened Types
  import opened NodeSpec
  import opened Window
  import opened Cluster
  import opened LogRepair
  import opened Runs

  /** A leader and a follower, neither compacted, with such logs. */
  predicate Stuck(s: NodeState, f: NodeState, p: Id) {
    && s.role == Leader && !Anchored(s) && s.offset == 0 && s.term >= 4 && (forall k | 0 <= k < |s.log| :: s.log[k].term <= s.term)
    && !Anchored(f) && f.offset == 0 && f.term <= s.term
    && LogRepair.Apart(s.log, f.log)
    && p in s.nextIndex && 2 <= s.nextIndex[p] <= 3
  }

  /** The request names an entry of term 1 where the follower has another term. */
  lemma RequestIs(s: NodeState, f: NodeState, p: Id)
    requires Stuck(s, f, p)
    ensures var req := RequestFor(s, p);
      req.term == s.term && req.prevIndex == s.nextIndex[p] - 1 && req.prevTerm == 1
  {
  }

  lemma TurnedDown(f: NodeState, req: AppendRequest)
    requires !Anchored(f) && f.offset == 0 && f.term <= req.term && 0 < req.prevIndex <= |f.log|
    requires f.log[req.prevIndex - 1].term != req.prevTerm
    ensures var (f', reply) := HandleAppend(f, req);
      && !reply.success && reply.term == req.term
      && f'.log == f.log && f'.offset == 0 && !Anchored(f') && f'.term == req.term
  {
    var f1 := FollowLeader(ObserveTerm(f, req.term), req.leader);
    SameWindow(f, req);
    assert Conflict(f1, req).Some?;
  }

  lemma BacksOff(s: NodeState, p: Id, req: AppendRequest, reply: AppendReply)
    requires s.role == Leader && s.term == req.term == reply.term && !reply.success
    ensures FinishAppend(s, p, req, reply) == s.(nextIndex := s.nextIndex[p := BackOff(s, reply)])
  {
  }

  /** One round leaves both logs as they were and turns nextIndex from 3 to 2, or from 2 to 3. */
  lemma OneRound(s: NodeState, f: NodeState, p: Id)
    requires Stuck(s, f, p)
    ensures var (s', f') := Exchange(s, f, p);
      Stuck(s', f', p) && s'.log == s.log && f'.log == f.log && s'.nextIndex[p] == 5 - s.nextIndex[p]
  {
    var req := RequestFor(s, p);
    RequestIs(s, f, p);
    TurnedDown(f, req);
    var reply := HandleAppend(f, req).1;
    RejectingLog(f, f.log, req);
    BackAndForth(s.log, f.log, req.prevIndex, reply);
    PlainNext(s, s.log, reply);
    BacksOff(s, p, req, reply);
  }

  lemma WriteKeepsStuck(s: NodeState, f: NodeState, p: Id, x: Command)
    requires Stuck(s, f, p)
    ensures Stuck(AppendLocal(s, x), f, p) && AppendLocal(s, x).nextIndex == s.nextIndex && s.log <= AppendLocal(s, x).log
  {
  }

  /** A round before which the leader may take a client write. */
  function Round(s: NodeState, f: NodeState, p: Id, write: Option<Command>): (NodeState, NodeState) {
    Exchange(if write.Some? then AppendLocal(s, write.value) else s, f, p)
  }

  function Rounds(s: NodeState, f: NodeState, p: Id, writes: seq<Option<Command>>): (NodeState, NodeState) {
    if writes == [] then (s, f)
    else
      var (s1, f1) := Rounds(s, f, p, writes[..|writes| - 1]);
      Round(s1, f1, p, writes[|writes| - 1])
  }

  lemma RoundStuck(s: NodeState, f: NodeState, p: Id, write: Option<Command>)
    requires Stuck(s, f, p)
    ensures var (s', f') := Round(s, f, p, write);
      Stuck(s', f', p) && s.log <= s'.log && f'.log == f.log && s'.nextIndex[p] == 5 - s.nextIndex[p]
  {
    if write.Some? {
      WriteKeepsStuck(s, f, p, write.value);
      OneRound(AppendLocal(s, write.value), f, p);
    } else {
      OneRound(s, f, p);
    }
  }

  /** One more round. */
  lemma {:induction false} RoundsStuck(s: NodeState, f: NodeState, p: Id, writes: seq<Option<Command>>, s1: NodeState, f1: NodeState)
    returns (s': NodeState, f': NodeState)
    requires writes != [] && (s1, f1) == Rounds(s, f, p, writes[..|writes| - 1]) && Stuck(s1, f1, p)
    ensures (s', f') == Rounds(s, f, p, writes)
    ensures Stuck(s', f', p) && s1.log <= s'.log && f'.log == f1.log && s'.nextIndex[p] == 5 - s1.nextIndex[p]
  {
    RoundStuck(s1, f1, p, writes[|writes| - 1]);
    s', f' := Rounds(s, f, p, writes).0, Rounds(s, f, p, writes).1;
  }

  function Turns(k: nat): (r: nat)
    ensures r == if k % 2 == 0 then 3 else 2
  {
    if k == 0 then 3 else 5 - Turns(k - 1)
  }

  /** However many rounds, the follower's log stays as it is and nextIndex alternates between 3 and 2. */
  lemma {:induction false} RepairNeverEnds(s: NodeState, f: NodeState, p: Id, writes: seq<Option<Command>>)
    returns (s': NodeState, f': NodeState)
    requires Stuck(s, f, p) && s.nextIndex[p] == 3
    ensures (s', f') == Rounds(s, f, p, writes)
    ensures Stuck(s', f', p) && s.log <= s'.log && f'.log == f.log
    ensures s'.nextIndex[p] == Turns(|writes|)
  {
    if writes == [] {
      s', f' := s, f;
    } else {
      var s1, f1 := RepairNeverEnds(s, f, p, writes[..|writes| - 1]);
      s', f' := RoundsStuck(s, f, p, writes, s1, f1);
    }
  }

  // ---- A run that gets there --------------------------------------------------------------------

  predicate Ones(l: Log) {
    |l| == 2 && l[0].term == l[1].term == 1
  }

  /** a leads term 1 with c's vote and writes two entries that nobody gets. */
  lemma FirstLeader(a: Id, b: Id, c: Id) returns (states: seq<State>, events: seq<Event>, w: State, l: Log)
    requires a != b && a != c && b != c
    ensures Ends(states, events, w) && Formed(w) && w.nodes.Keys == {a, b, c} && |w.nodes| == 3 && Ones(l)
    ensures Plain(w.nodes[a], 1, l) && Fresh(w.nodes[b]) && Plain(w.nodes[c], 1, [])
  {
    var st, ev, d := StartsThree(a, b, c);
    var st', ev', d' := FirstElected(st, ev, d, a, c);
    states, events, w, l := WritesMore(st', ev', d', a, 1, 2, X);
  }

  /** b, at term t, stands again, leads with c's vote and writes one entry that nobody gets. */
  lemma LeadsAndWrites(states: seq<State>, events: seq<Event>, d: State, b: Id, t: nat, l: Log, c: Id)
    returns (states': seq<State>, events': seq<Event>, w: State)
    requires Ends(states, events, d) && Formed(d) && |d.nodes| == 3 && b in d.nodes && c in d.nodes && b != c
    requires Plain(d.nodes[b], t, l) && d.nodes[b].role != Leader && Plain(d.nodes[c], t, [])
    ensures Ends(states', events', w) && Formed(w) && Runs.Apart(d, w, b, c)
    ensures Plain(w.nodes[b], t + 1, l + [Entry(t + 1, |l| + 1, X)]) && Plain(w.nodes[c], t + 1, [])
  {
    var st, ev, d1 := Elects(states, events, d, b, t, l, c, t, []);
    states', events', w := Writes(st, ev, d1, b, t + 1, l, X);
  }

  /** b stands in term 1, and nobody answers. */
  lemma Outbid(a: Id, b: Id, c: Id) returns (states: seq<State>, events: seq<Event>, w: State, l: Log)
    requires a != b && a != c && b != c
    ensures Ends(states, events, w) && Formed(w) && w.nodes.Keys == {a, b, c} && |w.nodes| == 3 && Ones(l)
    ensures Plain(w.nodes[a], 1, l) && Plain(w.nodes[b], 1, []) && w.nodes[b].role == Candidate && Plain(w.nodes[c], 1, [])
  {
    var st, ev, d;
    st, ev, d, l := FirstLeader(a, b, c);
    states, events, w := Stands(st, ev, d, b, 0, []);
  }

  /** Then it leads term 2 with c's vote and writes one entry. */
  lemma SecondLeader(a: Id, b: Id, c: Id) returns (states: seq<State>, events: seq<Event>, w: State, l: Log, m: Log)
    requires a != b && a != c && b != c
    ensures Ends(states, events, w) && Formed(w) && w.nodes.Keys == {a, b, c} && |w.nodes| == 3 && Ones(l) && |m| == 1 && m[0].term == 2
    ensures Plain(w.nodes[a], 1, l) && Plain(w.nodes[b], 2, m) && Plain(w.nodes[c], 2, [])
  {
    var st, ev, d;
    st, ev, d, l := Outbid(a, b, c);
    states, events, w := LeadsAndWrites(st, ev, d, b, 1, [], c);
    m := [] + [Entry(2, 1, X)];
  }

  /** b dies, leads term 3 with c's vote and writes another. */
  lemma ThirdLeader(a: Id, b: Id, c: Id) returns (states: seq<State>, events: seq<Event>, w: State, l: Log, m: Log)
    requires a != b && a != c && b != c
    ensures Ends(states, events, w) && Formed(w) && w.nodes.Keys == {a, b, c} && |w.nodes| == 3 && Ones(l)
    ensures |m| == 2 && m[0].term == 2 && m[1].term == 3
    ensures Plain(w.nodes[a], 1, l) && Plain(w.nodes[b], 3, m) && Plain(w.nodes[c], 3, [])
  {
    var st, ev, d;
    st, ev, d, l, m := SecondLeader(a, b, c);
    st, ev, d := Restarts(st, ev, d, b, 2, m);
    states, events, w := LeadsAndWrites(st, ev, d, b, 2, m, c);
    m := m + [Entry(3, 2, X)];
  }

  /** a dies and stands until term 3. */
  lemma StandsTwice(states: seq<State>, events: seq<Event>, d: State, a: Id, l: Log)
    returns (states': seq<State>, events': seq<Event>, w: State)
    requires Ends(states, events, d) && Formed(d) && a in d.nodes && Plain(d.nodes[a], 1, l)
    ensures Ends(states', events', w) && Formed(w) && Runs.Apart(d, w, a, a) && Plain(w.nodes[a], 3, l) && w.nodes[a].role == Candidate
  {
    var st, ev, d1 := Restarts(states, events, d, a, 1, l);
    st, ev, d1 := Stands(st, ev, d1, a, 1, l);
    states', events', w := Stands(st, ev, d1, a, 2, l);
  }

  /** Then it is elected by c, whose log is empty. */
  lemma FourthLeader(a: Id, b: Id, c: Id) returns (states: seq<State>, events: seq<Event>, w: State, l: Log, m: Log)
    requires a != b && a != c && b != c
    ensures Ends(states, events, w) && Formed(w) && w.nodes.Keys == {a, b, c} && |w.nodes| == 3 && Ones(l)
    ensures |m| == 2 && m[0].term == 2 && m[1].term == 3
    ensures Plain(w.nodes[a], 4, l) && Plain(w.nodes[b], 3, m) && w.nodes[a].role == Leader
    ensures w.nodes[a].nextIndex == Each(w.nodes[a].peers, 3)
  {
    var st, ev, d;
    st, ev, d, l, m := ThirdLeader(a, b, c);
    st, ev, d := StandsTwice(st, ev, d, a, l);
    states, events, w := Elects(st, ev, d, a, 3, l, c, 3, []);
  }

  /** Such logs are reachable: the run ends with a leading term 4 and about to try index 3 with b. */
  lemma StuckReachable(a: Id, b: Id, c: Id) returns (states: seq<State>, events: seq<Event>)
    requires a != b && a != c && b != c
    ensures IsRun(states, events) && a in states[|events|].nodes && b in states[|events|].nodes
    ensures var s, f := states[|events|].nodes[a], states[|events|].nodes[b]; Stuck(s, f, b) && s.nextIndex[b] == 3
  {
    var w, l, m;
    states, events, w, l, m := FourthLeader(a, b, c);
    OtherIsPeer(w, a, b);
  }
}
