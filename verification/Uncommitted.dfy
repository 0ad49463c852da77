/**
  The backup service streams the leader's log to its end, committed or not.  The file a cycle writes is
  one of the committed log exactly if the leader's last entry is committed, and there is a run in which
  it is not, and another node that adopts the file has applied what was never committed.
 */
module Uncommitted {
  import opened Types
  import opened KeyValue
  import opened NodeSpec
  import opened Window
  import opened RaftModel
  import opened RaftSafety
  import opened Refinement
  import opened NodeSim
  import opened Cluster
  import opened Safety
  import opened Runs
  import opened Adoptions
  import B = Backup

  /** The node's last entry is the committed one at its index. */
  predicate EndCommitted(s: NodeState, chosen: Log) {
    0 < LastIndex(s) <= |chosen| && chosen[LastIndex(s) - 1].term == LastLogTerm(s)
  }

  lemma EndIsPrefix(a: Model, full: Log, chosen: Log)
    requires Inv(a) && LogOk(a, full) && ChosenOk(a, chosen) && 0 < |full| <= |chosen| && chosen[|full| - 1].term == LastTerm(full)
    ensures full <= chosen
  {
    var t: nat :| EndorsedBy(a, chosen, t);
    assert ReignOk(a, t);
    SameTermSamePrefix(a, full, a.reigns[t].log, |full| - 1);
    assert full == full[..|full|] == chosen[..|full|];
  }

  /** In every run the file of a completed cycle is one the nodes may be handed if and only if the streamed log ends in a committed entry. */
  lemma CycleFitsIff(states: seq<State>, events: seq<Event>, i: nat, n: Id, w: B.World, f: File)
    requires IsRun(states, events) && i < |states| && n in states[i].nodes
    requires B.Sound(w) && w.log == states[i].chosen
    requires Compacted(states[i].nodes[n]) <= w.replica.index && w.reach <= LastIndex(states[i].nodes[n])
    requires B.Cycle(w.replica, states[i].nodes[n], true).1 == Some(f)
    ensures FileFits(states[i], f) <==> EndCommitted(states[i].nodes[n], states[i].chosen)
  {
    var models := RunFollows(states, events);
    assert StandsFor(states, models, i);
    CycleFits(states[i], models[i], n, w, f);
  }

  lemma CycleFits(c: State, a: Model, n: Id, w: B.World, f: File)
    requires Inv(a) && Refines(c, a) && n in c.nodes && B.Sound(w) && w.log == c.chosen
    requires Compacted(c.nodes[n]) <= w.replica.index && w.reach <= LastIndex(c.nodes[n])
    requires B.Cycle(w.replica, c.nodes[n], true).1 == Some(f)
    ensures FileFits(c, f) <==> EndCommitted(c.nodes[n], c.chosen)
  {
    assert NodeOk(a, c, n) && MemberOk(a, n);
    MemberIndexed(a, n);
    StreamFits(a, c.nodes[n], a.members[n].log, w, f);
  }

  lemma StreamFits(a: Model, s: NodeState, full: Log, w: B.World, f: File)
    requires Inv(a) && ChosenOk(a, w.log) && LogOk(a, full) && Shows(s, full) && Indexed(full, 0) && B.Sound(w)
    requires Compacted(s) <= w.replica.index && w.reach <= LastIndex(s) && B.Cycle(w.replica, s, true).1 == Some(f)
    ensures FileOk(f, w.log) <==> EndCommitted(s, w.log)
  {
    ShowsEntry(s, full, 0);
    FileEnds(w.replica, s, full, f);
    if EndCommitted(s, w.log) {
      EndIsPrefix(a, full, w.log);
      B.CycleIsStep(w, s, full, true);
    }
  }

  /** A completed cycle's file is named after the last entry streamed. */
  lemma FileEnds(r: B.Replica, s: NodeState, full: Log, f: File)
    requires Shows(s, full) && Indexed(full, 0) && Compacted(s) <= r.index <= |full| && B.Cycle(r, s, true).1 == Some(f)
    ensures s.log != [] && f.index == LastIndex(s) == |full| > Compacted(s) && f.term == LastLogTerm(s) == LastTerm(full)
  {
    B.CycleStreams(r, s, full);
    ShowsEntry(s, full, 0);
    ShowsLastTerm(s, full);
  }

  /** A leader that has committed its whole log is backed up soundly. */
  lemma CommittedCycleFits(states: seq<State>, events: seq<Event>, i: nat, n: Id, w: B.World, f: File)
    requires IsRun(states, events) && i < |states| && n in states[i].nodes
    requires B.Sound(w) && w.log == states[i].chosen
    requires Compacted(states[i].nodes[n]) <= w.replica.index && w.reach <= LastIndex(states[i].nodes[n])
    requires B.Cycle(w.replica, states[i].nodes[n], true).1 == Some(f) && states[i].nodes[n].commit == LastIndex(states[i].nodes[n])
    ensures FileFits(states[i], f)
  {
    var s := states[i].nodes[n];
    var m := LocalAt(states, events, i, n);
    FileEnds(w.replica, s, m.log, f);
    StateMachineSafety(states, events, i, n);
    AllCommitted(s, states[i].chosen);
    CycleFitsIff(states, events, i, n, w, f);
  }

  lemma AllCommitted(s: NodeState, chosen: Log)
    requires Compacted(s) < s.commit == LastIndex(s) <= |chosen| && s.log != []
    requires forall k: nat | k <= s.commit && Has(s, k) :: EntryAt(s, k) == Some(chosen[k - 1])
    ensures EndCommitted(s, chosen)
  {
    assert EntryAt(s, LastIndex(s)) == Some(chosen[LastIndex(s) - 1]);
  }

  // ---- A file that does not fit ------------------------------------------------------------------

  const NEW: B.Replica := B.Replica(map[], 0, 0, None)

  /** What the first cycle against a node with two entries of one command writes. */
  lemma FirstCycle(s: NodeState, t: nat, l: Log, k: string, v: string)
    requires Plain(s, t, l) && Twice(l, t, Put(k, v))
    ensures B.Cycle(NEW, s, true).1 == Some(File(map[k := v], 2, t))
  {
    B.CycleStreams(NEW, s, l);
    assert l[0..] == l && l[..2] == l && l[..1] == [l[0]] && l[..1][..0] == [];
    B.ReadableIs(l);
    TwiceReplayed(l, t, k, v);
  }

  lemma TwiceReplayed(l: Log, t: nat, k: string, v: string)
    requires Twice(l, t, Put(k, v))
    ensures Replay(map[], l) == map[k := v]
  {
    var one := l[..1];
    assert one[..0] == [] && Replay(map[], one) == map[k := v];
    assert l[..|l| - 1] == one;
  }

  /**
    A run of five nodes: while a leads and nobody is in a later term, a completed cycle writes its two entries to
    a file; then b is elected without them and commits two others.  A node that has applied nothing, and passes
    the program's check, has applied two entries after adopting the file, of another term than the committed
    ones, and its map is not theirs.
   */
  lemma UncommittedAdopted(a: Id, b: Id, c: Id, d: Id, e: Id)
    returns (states: seq<State>, events: seq<Event>, w: State, h: nat, f: File)
    requires AllDiffer(a, b, c, d, e)
    ensures Ends(states, events, w) && h < |states| && a in states[h].nodes && d in w.nodes
    ensures states[h].nodes[a].role == Leader && (forall n | n in states[h].nodes :: states[h].nodes[n].term <= states[h].nodes[a].term)
    ensures B.Cycle(NEW, states[h].nodes[a], true).1 == Some(f) && w.nodes[d].applied < f.index
    ensures var d' := CaughtUp(w.nodes[d], f);
      && d'.applied == f.index <= |w.chosen| && f.term != w.chosen[f.index - 1].term
      && d'.store != Replay(map[], w.chosen[..f.index])
  {
    var l, m;
    states, events, w, l, m, h := NewLeader(a, b, c, d, e);
    FirstCycle(states[h].nodes[a], 1, l, "k", "v");
    f := File(map["k" := "v"], 2, 1);
    StateMachineSafety(states, events, |events|, d);
    CommittedTwice(states, events, w, b, m);
    assert "v"[0] != "w"[0] && map["k" := "v"]["k"] != map["k" := "w"]["k"];
  }

  lemma CommittedTwice(states: seq<State>, events: seq<Event>, w: State, b: Id, m: Log)
    requires Ends(states, events, w) && b in w.nodes && Plain(w.nodes[b], 2, m) && Twice(m, 2, Y) && w.nodes[b].commit == 2
    ensures |w.chosen| >= 2 && w.chosen[1].term == 2 && Replay(map[], w.chosen[..2]) == map["k" := "w"]
  {
    StateMachineSafety(states, events, |events|, b);
    assert EntryAt(w.nodes[b], 1) == Some(w.chosen[0]) && EntryAt(w.nodes[b], 2) == Some(w.chosen[1]);
    assert w.chosen[..2] == m;
    TwiceReplayed(m, 2, "k", "w");
  }
}
