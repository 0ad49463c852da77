/**
  What holds of every run of the cluster: any number of nodes, messages lost, repeated
  and reordered, nodes crashing at any point, also in the middle of a merge or a
  compaction, and logs compacted behind snapshot files at any time.
 */
module Safety {
  import opened Types
  import opened KeyValue
  import opened NodeSpec
  import opened Window
  import opened RaftModel
  import opened RaftSafety
  import opened Refinement
  import opened NodeSim
  import opened Simulation
  import opened Events
  import opened Cluster

  // ---- Every run follows a run of the protocol ---------------------------------------

  ghost predicate Follows(states: seq<State>, events: seq<Event>, models: seq<Model>) {
    && |models| == |states| == |events| + 1
    && (forall i {:trigger StandsFor(states, models, i)} | 0 <= i < |states| :: StandsFor(states, models, i))
    && (forall i {:trigger Linked(states, events, models, i)} | 0 <= i < |events| :: Linked(states, events, models, i))
  }

  ghost predicate StandsFor(states: seq<State>, models: seq<Model>, i: int) {
    0 <= i < |states| == |models| && Inv(models[i]) && Refines(states[i], models[i])
  }

  ghost predicate Linked(states: seq<State>, events: seq<Event>, models: seq<Model>, i: int) {
    && 0 <= i < |events| && |models| == |states| == |events| + 1
    && Simulates(models[i], states[i + 1], models[i + 1], Added(states, events, i))
  }

  /** The entries written by clients at step i. */
  function Added(states: seq<State>, events: seq<Event>, i: int): set<Entry> {
    if 0 <= i < |events| && i < |states| && Actor(events[i]) in states[i].nodes
      then Introduced(states[i].nodes[Actor(events[i])], events[i]) else {}
  }

  lemma InitialRefines(c: State)
    requires Initial(c)
    ensures Inv(Init(c.nodes.Keys)) && Refines(c, Init(c.nodes.Keys))
  {
    var a := Init(c.nodes.Keys);
    InitInv(c.nodes.Keys);
    forall n | n in c.nodes
      ensures NodeOk(a, c, n)
    {
    }
  }

  lemma {:induction false} RunFollows(states: seq<State>, events: seq<Event>) returns (models: seq<Model>)
    requires IsRun(states, events)
    ensures Follows(states, events, models) && models[0] == Init(models[0].members.Keys)
    decreases |events|
  {
    var k := |events|;
    if k == 0 {
      InitialRefines(states[0]);
      models := [Init(states[0].nodes.Keys)];
    } else {
      RunPrefix(states, events, k - 1);
      var front := RunFollows(states[..k], events[..k - 1]);
      var a := StepFollows(states, events, front);
      models := front + [a];
      ExtendFollows(states, events, front, a);
    }
  }

  lemma StepFollows(states: seq<State>, events: seq<Event>, front: seq<Model>) returns (a: Model)
    requires IsRun(states, events) && |events| == |front| > 0 && Follows(states[..|front|], events[..|front| - 1], front)
    ensures Simulates(front[|front| - 1], states[|front|], a, Added(states, events, |front| - 1))
  {
    var k := |front|;
    assert StandsFor(states[..k], front, k - 1) && StepAt(states, events, k - 1);
    a := EventSim(states[k - 1], front[k - 1], events[k - 1]);
  }

  lemma RunPrefix(states: seq<State>, events: seq<Event>, k: nat)
    requires IsRun(states, events) && k <= |events|
    ensures IsRun(states[..k + 1], events[..k])
  {
    var front, es := states[..k + 1], events[..k];
    forall i | 0 <= i < k
      ensures StepAt(front, es, i)
    {
      assert StepAt(states, events, i);
    }
  }

  lemma ExtendFollows(states: seq<State>, events: seq<Event>, front: seq<Model>, a: Model)
    requires var k := |front|; |states| == |events| + 1 == k + 1 && k > 0 && Follows(states[..k], events[..k - 1], front)
    requires Simulates(front[|front| - 1], states[|front|], a, Added(states, events, |front| - 1))
    ensures Follows(states, events, front + [a])
  {
    var models, k := front + [a], |front|;
    forall i | 0 <= i < |states|
      ensures StandsFor(states, models, i)
    {
      if i < k { assert StandsFor(states[..k], front, i); }
    }
    forall i | 0 <= i < |events|
      ensures Linked(states, events, models, i)
    {
      if i < k - 1 {
        assert Linked(states[..k], events[..k - 1], front, i);
        assert Added(states[..k], events[..k - 1], i) == Added(states, events, i);
      }
    }
  }

  lemma {:induction false} GrowsAlong(states: seq<State>, events: seq<Event>, models: seq<Model>, i: nat, j: nat)
    requires Follows(states, events, models) && i <= j < |states|
    ensures Grows(models[i], models[j])
    decreases j
  {
    if i < j {
      GrowsAlong(states, events, models, i, j - 1);
      GrowsOnce(states, events, models, j - 1);
      GrowsTransitive(models[i], models[j - 1], models[j]);
    }
  }

  lemma GrowsOnce(states: seq<State>, events: seq<Event>, models: seq<Model>, i: nat)
    requires Follows(states, events, models) && i < |events|
    ensures Grows(models[i], models[i + 1])
  {
    assert Linked(states, events, models, i);
  }

  /** The member of the protocol a node stands for. */
  lemma LocalAt(states: seq<State>, events: seq<Event>, i: nat, n: Id) returns (m: Member)
    requires IsRun(states, events) && i < |states| && n in states[i].nodes
    ensures Local(states[i].nodes[n], m) && Indexed(m.log, 0)
  {
    var models := RunFollows(states, events);
    assert StandsFor(states, models, i);
    assert NodeOk(models[i], states[i], n);
    m := models[i].members[n];
    MemberIndexed(models[i], n);
  }

  /** In a run a node is filed under its name, and its peers are all the others. */
  lemma NamedSo(states: seq<State>, events: seq<Event>, i: nat, n: Id)
    requires IsRun(states, events) && i < |states| && n in states[i].nodes
    ensures states[i].nodes[n].id == n && PeersOf(states[i].nodes.Keys, n, states[i].nodes[n].peers)
  {
    var models := RunFollows(states, events);
    assert StandsFor(states, models, i);
    assert NodeOk(models[i], states[i], n);
  }

  // ---- State Machine Safety ------------------------------------------------------------------

  /** The chosen log is append-only. */
  lemma {:induction false} ChosenGrows(states: seq<State>, events: seq<Event>, i: nat, j: nat)
    requires IsRun(states, events) && i <= j < |states|
    ensures states[i].chosen <= states[j].chosen && states[i].nodes.Keys == states[j].nodes.Keys
    decreases j
  {
    if i < j {
      ChosenGrows(states, events, i, j - 1);
      assert StepAt(states, events, j - 1);
    }
  }

  /**
    State Machine Safety: at every moment of every run each node has committed, and applied in
    order and without gaps, a prefix of the one chosen log, and its map is that prefix replayed.
   */
  lemma StateMachineSafety(states: seq<State>, events: seq<Event>, i: nat, n: Id)
    requires IsRun(states, events) && i < |states| && n in states[i].nodes
    ensures var s, chosen := states[i].nodes[n], states[i].chosen;
      && Compacted(s) <= s.applied == s.commit <= |chosen| && s.commit <= LastIndex(s)
      && s.store == Replay(map[], chosen[..s.applied])
      && forall k: nat | k <= s.commit && Has(s, k) :: EntryAt(s, k) == Some(chosen[k - 1])
  {
    var models := RunFollows(states, events);
    assert StandsFor(states, models, i);
    var c, a, s := states[i], models[i], states[i].nodes[n];
    assert NodeOk(a, c, n);
    CommittedChosen(a, n, c.chosen);
    var full := a.members[n].log;
    assert full[..s.applied] == c.chosen[..s.applied];
    HasChosen(s, full, full[..s.commit], c.chosen);
  }

  /** Two nodes, at any two moments: the one that applied more has the other's map, moved on along the chosen log. */
  lemma ReplicasAgree(states: seq<State>, events: seq<Event>, i: nat, n: Id, j: nat, m: Id)
    requires IsRun(states, events) && i < |states| && j < |states| && n in states[i].nodes && m in states[j].nodes
    requires states[i].nodes[n].applied <= states[j].nodes[m].applied
    ensures var x, y, chosen := states[i].nodes[n], states[j].nodes[m], states[j].chosen;
      && y.applied <= |chosen|
      && y.store == Replay(x.store, chosen[x.applied..y.applied])
      && (x.applied == y.applied ==> x.store == y.store)
  {
    var x, y, chosen := states[i].nodes[n], states[j].nodes[m], states[j].chosen;
    StateMachineSafety(states, events, i, n);
    StateMachineSafety(states, events, j, m);
    if i <= j { ChosenGrows(states, events, i, j); } else { ChosenGrows(states, events, j, i); }
    assert states[i].chosen[..x.applied] == chosen[..x.applied];
    assert chosen[..y.applied] == chosen[..x.applied] + chosen[x.applied..y.applied];
    ReplayConcat(map[], chosen[..x.applied], chosen[x.applied..y.applied]);
  }

  /** Calls are pending only on a leader, each for its own entry, of the current term and not applied yet. */
  lemma PendingOnLeader(states: seq<State>, events: seq<Event>, i: nat, n: Id, index: nat)
    requires IsRun(states, events) && i < |states| && n in states[i].nodes && index in states[i].nodes[n].waiters
    ensures var s := states[i].nodes[n];
      && s.role == Leader && s.applied < index && EntryAt(s, index) == Some(s.waiters[index].entry)
      && s.waiters[index].entry.term == s.term && s.waiters[index].entry.index == index
  {
    var m := LocalAt(states, events, i, n);
    ShowsEntry(states[i].nodes[n], m.log, index);
  }

  /** A write reported as committed is, from then on and for ever, the chosen entry at its index. */
  lemma CommittedAnswerSound(states: seq<State>, events: seq<Event>, i: nat, n: Id, x: Answer, j: nat)
    requires IsRun(states, events) && i <= j < |states| && n in states[i].nodes
    requires x in states[i].nodes[n].answers && x.committed
    ensures var e := x.ticket.entry; 0 < e.index <= |states[j].chosen| && states[j].chosen[e.index - 1] == e
  {
    var models := RunFollows(states, events);
    assert StandsFor(states, models, i);
    assert Refines(states[i], models[i]) && NodeOk(models[i], states[i], n);
    ChosenGrows(states, events, i, j);
  }

  /** Every entry in a leader's log was written by a client, at a leader of its term, at its index. */
  lemma {:induction false} KnownWritten(states: seq<State>, events: seq<Event>, models: seq<Model>, i: nat, e: Entry)
    requires Follows(states, events, models) && models[0] == Init(models[0].members.Keys) && i < |states| && Known(models[i], e)
    ensures exists k: nat :: k < i && e in Added(states, events, k)
    decreases i
  {
    var t: nat :| e in LeaderLog(models[i], t);
    if i > 0 {
      assert Linked(states, events, models, i - 1);
      if e !in Added(states, events, i - 1) {
        assert Known(models[i - 1], e);
        KnownWritten(states, events, models, i - 1, e);
      }
    }
  }

  /**
    Integrity: every chosen entry was written by a client at some earlier moment, at the node that led
    its term, with that very index and command; a compaction placeholder is therefore never among them.
   */
  lemma ChosenWasWritten(states: seq<State>, events: seq<Event>, i: nat, index: nat)
    requires IsRun(states, events) && i < |states| && 0 < index <= |states[i].chosen|
    ensures exists k: nat :: k < i && states[i].chosen[index - 1] in Added(states, events, k)
  {
    var models := RunFollows(states, events);
    assert StandsFor(states, models, i);
    var a, chosen := models[i], states[i].chosen;
    assert Refines(states[i], a);
    var t: nat :| EndorsedBy(a, chosen, t);
    assert chosen[index - 1] == LeaderLog(a, t)[index - 1];
    assert Known(a, chosen[index - 1]);
    KnownWritten(states, events, models, i, chosen[index - 1]);
  }

  /** The same for every entry a node still has, committed or not. */
  lemma HeldWasWritten(states: seq<State>, events: seq<Event>, i: nat, n: Id, index: nat)
    requires IsRun(states, events) && i < |states| && n in states[i].nodes && Has(states[i].nodes[n], index)
    ensures EntryAt(states[i].nodes[n], index).Some?
    ensures exists k: nat :: k < i && EntryAt(states[i].nodes[n], index).value in Added(states, events, k)
  {
    var models := RunFollows(states, events);
    assert StandsFor(states, models, i);
    HeldKnown(states[i], models[i], n, index);
    KnownWritten(states, events, models, i, EntryAt(states[i].nodes[n], index).value);
  }

  lemma HeldKnown(c: State, a: Model, n: Id, index: nat)
    requires Inv(a) && Refines(c, a) && n in c.nodes && Has(c.nodes[n], index)
    ensures EntryAt(c.nodes[n], index).Some? && Known(a, EntryAt(c.nodes[n], index).value)
  {
    assert NodeOk(a, c, n) && MemberOk(a, n);
    var full := a.members[n].log;
    ShowsEntry(c.nodes[n], full, index);
    assert EntryOk(a, full, index - 1);
    assert full[index - 1] == LeaderLog(a, full[index - 1].term)[index - 1];
  }

  // ---- Election Safety, Log Matching, Leader Completeness -----------------------------------------

  /** Election Safety: a term has one leader, over the whole run. */
  lemma OneLeaderPerTerm(states: seq<State>, events: seq<Event>, i: nat, n: Id, j: nat, m: Id)
    requires IsRun(states, events) && i <= j < |states| && n in states[i].nodes && m in states[j].nodes
    requires states[i].nodes[n].role == Leader && states[j].nodes[m].role == Leader
    requires states[i].nodes[n].term == states[j].nodes[m].term
    ensures n == m
  {
    var models := RunFollows(states, events);
    assert StandsFor(states, models, i);
    assert StandsFor(states, models, j);
    var a, b := models[i], models[j];
    assert NodeOk(a, states[i], n) && NodeOk(b, states[j], m);
    assert MemberOk(a, n) && MemberOk(b, m);
    GrowsAlong(states, events, models, i, j);
    var t := states[i].nodes[n].term;
    assert ReignGrows(a.reigns[t], b.reigns[t]);
  }

  /** The node still has the real entry at index k. */
  predicate Has(s: NodeState, k: nat) {
    Compacted(s) < k <= LastIndex(s)
  }

  /** Both nodes agree on every entry they still have, up to the given index. */
  ghost predicate AgreeUpTo(x: NodeState, y: NodeState, index: nat) {
    forall k: nat | k <= index && Has(x, k) && Has(y, k) :: EntryAt(x, k) == EntryAt(y, k)
  }

  lemma PrefixesAgree(x: NodeState, l: Log, y: NodeState, r: Log, index: nat)
    requires Shows(x, l) && Shows(y, r) && index <= |l| && index <= |r| && l[..index] == r[..index]
    ensures AgreeUpTo(x, y, index)
  {
    forall k: nat | k <= index && Has(x, k) && Has(y, k)
      ensures EntryAt(x, k) == EntryAt(y, k)
    {
      ShowsEntry(x, l, k);
      ShowsEntry(y, r, k);
      assert l[..index][k - 1] == r[..index][k - 1];
    }
  }

  /** Log Matching, over any two moments: same term at one index, same entries up to it. */
  lemma LogMatching(states: seq<State>, events: seq<Event>, i: nat, n: Id, j: nat, m: Id, index: nat)
    requires IsRun(states, events) && i <= j < |states| && n in states[i].nodes && m in states[j].nodes
    requires var x, y := states[i].nodes[n], states[j].nodes[m];
      && EntryAt(x, index).Some? && EntryAt(y, index).Some?
      && EntryAt(x, index).value.term == EntryAt(y, index).value.term
    ensures AgreeUpTo(states[i].nodes[n], states[j].nodes[m], index)
  {
    var models := RunFollows(states, events);
    assert StandsFor(states, models, i);
    assert StandsFor(states, models, j);
    GrowsAlong(states, events, models, i, j);
    ModelsMatch(states[i], models[i], n, states[j], models[j], m, index);
  }

  lemma ModelsMatch(c: State, a: Model, n: Id, d: State, b: Model, m: Id, index: nat)
    requires Inv(a) && Refines(c, a) && Inv(b) && Refines(d, b) && Grows(a, b) && n in c.nodes && m in d.nodes
    requires EntryAt(c.nodes[n], index).Some? && EntryAt(d.nodes[m], index).Some?
    requires EntryAt(c.nodes[n], index).value.term == EntryAt(d.nodes[m], index).value.term
    ensures AgreeUpTo(c.nodes[n], d.nodes[m], index)
  {
    assert NodeOk(a, c, n) && NodeOk(b, d, m);
    assert MemberOk(a, n) && MemberOk(b, m);
    LogOkStays(a, b, a.members[n].log);
    LogsAgree(b, c.nodes[n], a.members[n].log, d.nodes[m], b.members[m].log, index);
  }

  lemma LogsAgree(b: Model, x: NodeState, l: Log, y: NodeState, r: Log, index: nat)
    requires LogOk(b, l) && LogOk(b, r) && Shows(x, l) && Shows(y, r)
    requires EntryAt(x, index).Some? && EntryAt(y, index).Some? && EntryAt(x, index).value.term == EntryAt(y, index).value.term
    ensures AgreeUpTo(x, y, index)
  {
    ShowsEntry(x, l, index);
    ShowsEntry(y, r, index);
    SameTermSamePrefix(b, l, r, index - 1);
    PrefixesAgree(x, l, y, r, index);
  }

  /** Terms never decrease along a log, and positions are indices. */
  lemma LogTermsSorted(states: seq<State>, events: seq<Event>, i: nat, n: Id, j: nat, k: nat)
    requires IsRun(states, events) && i < |states| && n in states[i].nodes
    requires j <= k < |states[i].nodes[n].log|
    ensures states[i].nodes[n].log[j].term <= states[i].nodes[n].log[k].term
    ensures states[i].nodes[n].log[j].index == states[i].nodes[n].offset + j + 1
  {
    var models := RunFollows(states, events);
    assert StandsFor(states, models, i);
    WindowSorted(states[i], models[i], n, j, k);
  }

  lemma WindowSorted(c: State, a: Model, n: Id, j: nat, k: nat)
    requires Inv(a) && Refines(c, a) && n in c.nodes && j <= k < |c.nodes[n].log|
    ensures c.nodes[n].log[j].term <= c.nodes[n].log[k].term
    ensures c.nodes[n].log[j].index == c.nodes[n].offset + j + 1
  {
    assert NodeOk(a, c, n) && MemberOk(a, n);
    ShownSorted(a, c.nodes[n], a.members[n].log, j, k);
  }

  lemma ShownSorted(a: Model, s: NodeState, full: Log, j: nat, k: nat)
    requires Inv(a) && LogOk(a, full) && Shows(s, full) && j <= k < |s.log|
    ensures s.log[j].term <= s.log[k].term && s.log[j].index == s.offset + j + 1
  {
    LogIndexed(a, full);
    ShowsPosition(s, full, j);
    ShowsPosition(s, full, k);
    TermsSorted(a, full, s.offset + j, s.offset + k);
  }

  lemma ShowsPosition(s: NodeState, full: Log, j: nat)
    requires Shows(s, full) && Indexed(full, 0) && j < |s.log|
    ensures s.offset + j < |full| && s.log[j].term == full[s.offset + j].term && s.log[j].index == s.offset + j + 1
  {
    ShowsEntry(s, full, s.offset + j + 1);
  }

  /**
    Leader Completeness: what a node has committed by some term is in the log of every leader of a
    later term, observed before or after, and of every later leader of that term.
   */
  lemma LeaderCompleteness(states: seq<State>, events: seq<Event>, i: nat, n: Id, j: nat, leader: Id)
    requires IsRun(states, events) && i < |states| && j < |states| && n in states[i].nodes && leader in states[j].nodes
    requires states[j].nodes[leader].role == Leader && states[i].nodes[n].term <= states[j].nodes[leader].term
    requires states[i].nodes[n].term == states[j].nodes[leader].term ==> i <= j
    ensures var x, y := states[i].nodes[n], states[j].nodes[leader];
      && x.commit <= LastIndex(y) && x.commit <= |states[i].chosen|
      && forall k: nat | k <= x.commit && Has(y, k) :: EntryAt(y, k) == Some(states[i].chosen[k - 1])
  {
    var models := RunFollows(states, events);
    assert StandsFor(states, models, i);
    assert StandsFor(states, models, j);
    assert NodeOk(models[i], states[i], n) && NodeOk(models[j], states[j], leader);
    if i <= j {
      GrowsAlong(states, events, models, i, j);
      CommittedHeldAfter(models[i], n, models[j], leader);
    } else {
      GrowsAlong(states, events, models, j, i);
      CommittedHeldBefore(models[i], n, models[j], leader);
    }
    LeaderHolds(states[i], models[i], n, states[j], models[j], leader);
  }

  lemma CommittedHeldAfter(a: Model, n: Id, b: Model, leader: Id)
    requires Inv(a) && Inv(b) && Grows(a, b) && n in a.members && leader in b.members
    requires b.members[leader].role == Leader && a.members[n].term <= b.members[leader].term
    ensures a.members[n].commit <= |a.members[n].log| && a.members[n].log[..a.members[n].commit] <= b.members[leader].log
  {
    var m, t := a.members[n], b.members[leader].term;
    assert MemberOk(a, n) && MemberOk(b, leader);
    DecidedBounded(b);
    EndorsedStays(a, b, m.log[..m.commit], m.term, t);
    EndorsedHeld(b, m.log[..m.commit], t);
  }

  lemma CommittedHeldBefore(a: Model, n: Id, b: Model, leader: Id)
    requires Inv(a) && Inv(b) && Grows(b, a) && n in a.members && leader in b.members
    requires b.members[leader].role == Leader && a.members[n].term < b.members[leader].term
    ensures a.members[n].commit <= |a.members[n].log| && a.members[n].log[..a.members[n].commit] <= b.members[leader].log
  {
    var m := a.members[n];
    assert MemberOk(a, n) && MemberOk(b, leader);
    EndorsedAfterwards(b, a, m.log[..m.commit], m.term, b.members[leader].term);
  }

  lemma LeaderHolds(c: State, a: Model, n: Id, d: State, b: Model, leader: Id)
    requires Inv(a) && Refines(c, a) && Refines(d, b) && n in c.nodes && leader in d.nodes
    requires a.members[n].commit <= |a.members[n].log| && a.members[n].log[..a.members[n].commit] <= b.members[leader].log
    ensures var x, y := c.nodes[n], d.nodes[leader];
      && x.commit <= LastIndex(y) && x.commit <= |c.chosen|
      && forall k: nat | k <= x.commit && Has(y, k) :: EntryAt(y, k) == Some(c.chosen[k - 1])
  {
    assert NodeOk(a, c, n) && NodeOk(b, d, leader);
    CommittedChosen(a, n, c.chosen);
    HasChosen(d.nodes[leader], b.members[leader].log, a.members[n].log[..a.members[n].commit], c.chosen);
  }

  lemma HasChosen(y: NodeState, full: Log, p: Log, chosen: Log)
    requires Shows(y, full) && p <= full && p <= chosen
    ensures |p| <= LastIndex(y) && forall k: nat | k <= |p| && Has(y, k) :: EntryAt(y, k) == Some(chosen[k - 1])
  {
    ShowsEntry(y, full, 0);
    forall k: nat | k <= |p| && Has(y, k)
      ensures EntryAt(y, k) == Some(chosen[k - 1])
    {
      ShowsEntry(y, full, k);
      assert full[k - 1] == p[k - 1];
    }
  }

  // ---- Replication bookkeeping ---------------------------------------------------------------------

  /** No request ever sent names a commit index beyond what it sends or asks to have verified. */
  lemma CommitNeverOvershoots(states: seq<State>, events: seq<Event>, i: nat, p: Packet)
    requires IsRun(states, events) && i < |states| && p in states[i].net && p.Send?
    ensures p.req.commit <= p.req.prevIndex + |p.req.entries|
  {
    var models := RunFollows(states, events);
    assert StandsFor(states, models, i);
    assert Refines(states[i], models[i]) && PacketOk(models[i], p);
  }

  /** An acknowledgement was given while in its term, by a node that then held what it acknowledged. */
  lemma {:induction false} AckedWhen(states: seq<State>, events: seq<Event>, models: seq<Model>, i: nat, p: Id, t: nat) returns (k: nat)
    requires Follows(states, events, models) && i < |states| && p in models[i].members && AckOf(models[i], p, t) > 0
    requires models[0] == Init(models[0].members.Keys)
    ensures k <= i && p in models[k].members && models[k].members[p].term == t && AckOf(models[k], p, t) == AckOf(models[i], p, t)
    decreases i
  {
    if i > 0 {
      assert Linked(states, events, models, i - 1);
      assert FreshAcks(models[i - 1].members[p], models[i].members[p]);
      assert MemberGrows(models[i - 1].members[p], models[i].members[p]);
      if AckOf(models[i - 1], p, t) < AckOf(models[i], p, t) {
        k := i;
      } else {
        k := AckedWhen(states, events, models, i - 1, p, t);
      }
    }
  }

  /** matchIndex is truthful: the peer, while in the leader's term, held exactly the leader's first m entries. */
  lemma MatchIndexTruthful(states: seq<State>, events: seq<Event>, i: nat, leader: Id, peer: Id) returns (k: nat)
    requires IsRun(states, events) && i < |states| && leader in states[i].nodes && states[i].nodes[leader].role == Leader
    requires peer in states[i].nodes[leader].matchIndex && states[i].nodes[leader].matchIndex[peer] > 0
    ensures k <= i && peer in states[k].nodes
    ensures var x, y, m := states[i].nodes[leader], states[k].nodes[peer], states[i].nodes[leader].matchIndex[peer];
      y.term == x.term && m <= LastIndex(x) && m <= LastIndex(y) && AgreeUpTo(x, y, m)
  {
    var models := RunFollows(states, events);
    assert StandsFor(states, models, i);
    MatchAcked(states[i], models[i], leader, peer);
    k := AckedWhen(states, events, models, i, peer, states[i].nodes[leader].term);
    assert StandsFor(states, models, k);
    GrowsAlong(states, events, models, k, i);
    AckHeld(states[i], models[i], leader, states[k], models[k], peer, states[i].nodes[leader].matchIndex[peer]);
  }

  lemma MatchAcked(c: State, a: Model, leader: Id, peer: Id)
    requires Refines(c, a) && leader in c.nodes && c.nodes[leader].role == Leader && peer in c.nodes[leader].matchIndex
    ensures c.nodes[leader].matchIndex[peer] <= AckOf(a, peer, c.nodes[leader].term)
    ensures c.nodes[leader].matchIndex[peer] > 0 ==> peer in a.members
  {
    assert NodeOk(a, c, leader);
  }

  lemma AckHeld(c: State, a: Model, leader: Id, d: State, b: Model, peer: Id, m: nat)
    requires Inv(a) && Refines(c, a) && Inv(b) && Refines(d, b) && Grows(b, a) && leader in c.nodes && peer in d.nodes
    requires c.nodes[leader].role == Leader && b.members[peer].term == c.nodes[leader].term
    requires 0 < m <= AckOf(b, peer, c.nodes[leader].term)
    ensures d.nodes[peer].term == c.nodes[leader].term
    ensures m <= LastIndex(c.nodes[leader]) && m <= LastIndex(d.nodes[peer]) && AgreeUpTo(c.nodes[leader], d.nodes[peer], m)
  {
    assert NodeOk(a, c, leader) && NodeOk(b, d, peer);
    AckedPrefix(a, leader, b, peer, m);
    ShowsEntry(c.nodes[leader], a.members[leader].log, 0);
    ShowsEntry(d.nodes[peer], b.members[peer].log, 0);
    PrefixesAgree(c.nodes[leader], a.members[leader].log, d.nodes[peer], b.members[peer].log, m);
  }

  lemma AckedPrefix(a: Model, leader: Id, b: Model, peer: Id, m: nat)
    requires Inv(a) && Inv(b) && Grows(b, a) && leader in a.members && peer in b.members
    requires a.members[leader].role == Leader && b.members[peer].term == a.members[leader].term
    requires 0 < m <= AckOf(b, peer, b.members[peer].term)
    ensures var l, r := a.members[leader].log, b.members[peer].log; m <= |l| && m <= |r| && l[..m] == r[..m]
  {
    assert MemberOk(a, leader) && MemberOk(b, peer);
    var t := a.members[leader].term;
    assert ReignGrows(b.reigns[t], a.reigns[t]);
    var q := b.reigns[t].log;
    assert q[..m] == q[..b.members[peer].acks[t]][..m];
  }
}
