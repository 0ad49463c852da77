/**
  Adopting a snapshot wholesale.  The log becomes the one placeholder, the map becomes the
  file's; the commit and applied indices only move up.  That is sound for a node whose log and
  whose applied index do not go beyond the file, and the two ways it fails otherwise are stated.
 */
module CatchUp {
  import opened Types
  import opened KeyValue
  import opened NodeSpec
  import opened Window
  import opened Refinement
  import opened NodeSim
  import opened SnapshotDir
  import opened Compactions

  /**
    A node that is behind the file ends up with the file's prefix of the committed log and its replay, in
    memory and on disk.  Its window is that of a compacted node if and only if the file's index is not 1.
   */
  lemma CaughtUpSound(n: NodeState, committed: Log, f: File)
    requires FileOk(f, committed) && n.applied <= n.commit <= f.index
    requires n.disk.term == n.term && n.disk.votedFor == n.votedFor
    ensures var n', full' := CaughtUp(n, f), committed[..f.index];
      && DiskOk(n') && AppliedOk(n', full') && n'.applied == n'.commit == |full'|
      && n'.offset == f.index - 1 && n'.log == View(full', f.index - 1)
      && (Shows(n', full') <==> 2 <= f.index)
  {
    var full' := committed[..f.index];
    assert View(full', f.index - 1) == [AnchorOf(f)];
    assert full'[..f.index] == full';
    AnchorFiltered(f);
  }

  /** Whatever the file, indices only rise and cover it; a file of index 0 is no baseline and changes nothing. */
  lemma IndicesRise(n: NodeState, f: File)
    ensures var n' := CaughtUp(n, f);
      && n'.applied == Max(n.applied, f.index) && n'.commit == Max(n.commit, f.index)
      && (f.index == 0 ==> n' == n) && (f.index > 0 ==> LastIndex(n') == f.index && n'.store == f.state)
  {
  }

  /** Before log.dat is rewritten the disk already recovers to the placeholder, exactly if the log does not go beyond the file. */
  lemma NothingBehind(entries: Log, snapshot: Option<File>, log: Log, offset: nat, f: File)
    requires Stored(entries, snapshot, log, offset) && Indexed(log, offset) && offset < f.index && (snapshot.Some? ==> log != [])
    ensures Stored(entries, Some(f), [AnchorOf(f)], f.index - 1) <==> offset + |log| <= f.index
  {
    match snapshot {
      case None => AfterIndexed(log, 0, f.index);
      case Some(g) =>
        assert After(entries, g.index) == log[1..] && Indexed(log[1..], g.index);
        AfterAfter(entries, g.index, f.index);
        AfterIndexed(log[1..], g.index, f.index);
    }
  }

  lemma AnchorFiltered(f: File)
    ensures After([AnchorOf(f)], f.index) == []
  {
    FilterOne(AnchorOf(f), f.index);
  }

  /** If the log goes beyond the file, what lies beyond is gone from memory, but a crash before the rewrite keeps it. */
  lemma BeyondTheFile(n: NodeState, full: Log, f: File)
    requires Shows(n, full) && DiskOk(n) && Indexed(full, 0) && FileOk(f, full) && n.offset + 1 < f.index
    ensures LastIndex(CaughtUp(n, f)) == f.index
    ensures var r := Recover(n.(disk := CaughtUpDisk(n, f))); Shows(r, full) && LastIndex(r) == |full|
  {
    AfterWrite(n, full, f, false);
    StoredShows(n.(disk := CaughtUpDisk(n, f)), full, View(full, f.index - 1), f.index - 1);
    ShowsEntry(Recover(n.(disk := CaughtUpDisk(n, f))), full, 0);
  }

  /** The map is the node's log replayed as far as the node says it is applied. */
  predicate MapCurrent(n: NodeState, full: Log) {
    n.applied <= |full| && n.store == Replay(map[], full[..n.applied])
  }

  /** A node at the given applied index, a log of its own, and an exact file of the given index. */
  predicate Adopts(n: NodeState, full: Log, f: File, applied: nat, index: nat) {
    Shows(n, full) && AppliedOk(n, full) && n.applied == applied && FileOk(f, full) && f.index == index
  }

  /** Adopting a file keeps the map current, for every node and log, exactly if the node has not applied beyond the file. */
  lemma MapCurrentIff(applied: nat, index: nat)
    requires index > 0
    ensures (forall n, full, f {:trigger Adopts(n, full, f, applied, index)} | Adopts(n, full, f, applied, index) :: MapCurrent(CaughtUp(n, f), full))
            <==> applied <= index
  {
    if applied > index {
      var full := seq(applied, i requires 0 <= i => Entry(1, i + 1, if i == applied - 1 then Put("k", "v") else Delete("x")));
      var f := File(Replay(map[], full[..index]), index, 1);
      var n := NewNode("a", []).(log := full, applied := applied, commit := applied, store := Replay(map[], full[..applied]));
      assert Adopts(n, full, f, applied, index);
      MapBehind(full, index);
      assert full[..applied] == full[..|full|];
    } else {
      forall n, full, f | Adopts(n, full, f, applied, index)
        ensures MapCurrent(CaughtUp(n, f), full)
      {
      }
    }
  }

  lemma MapBehind(full: Log, index: nat)
    requires index < |full| && full[|full| - 1].command == Put("k", "v")
    requires forall i | 0 <= i < |full| - 1 :: full[i].command == Delete("x")
    ensures Replay(map[], full[..index]) != Replay(map[], full[..|full|])
  {
    assert full[..|full|] == full && "k" in Replay(map[], full);
    assert !Mentions(full[..index], "k");
    ReplayUnmentioned(map[], full[..index], "k");
  }

  // ---- A file of index 1 ------------------------------------------------------------------------

  /**
    A node that adopts a file of index 1 has its placeholder at offset 0.  Once it leads, an empty
    follower turns its first request down and takes the placeholder for an entry from the second.
   */
  lemma PlaceholderGetsOut(id: Id, peers: seq<Id>, f: File, peer: Id, others: seq<Id>)
    requires f.index == 1 && peer in peers
    ensures var s := BecomeLeader(StartElection(CaughtUp(NewNode(id, peers), f)));
      var (s1, f1) := Exchange(s, NewNode(peer, others), peer);
      var (s2, f2) := Exchange(s1, f1, peer);
      f1.log == [] && f2.log == [AnchorOf(f)]
  {
    var s := LeaderAtOne(id, peers, f, peer);
    var s1, f1 := RejectedByEmpty(s, NewNode(peer, others), peer);
    AnchorAtOneReplicated(s1, f1, peer);
    TakesPlaceholder(s1, f1, f, peer);
  }

  lemma LeaderAtOne(id: Id, peers: seq<Id>, f: File, peer: Id) returns (s: NodeState)
    requires f.index == 1 && peer in peers
    ensures s == BecomeLeader(StartElection(CaughtUp(NewNode(id, peers), f)))
    ensures s.role == Leader && s.term == 1 && s.log == [AnchorOf(f)] && s.offset == 0 && Anchored(s)
    ensures peer in s.nextIndex && s.nextIndex[peer] == 2
  {
    s := BecomeLeader(StartElection(CaughtUp(NewNode(id, peers), f)));
  }

  lemma RejectedByEmpty(s: NodeState, f: NodeState, peer: Id) returns (s1: NodeState, f1: NodeState)
    requires s.role == Leader && |s.log| == 1 && s.offset == 0 && Anchored(s) && peer in s.nextIndex && s.nextIndex[peer] == 2
    requires f.log == [] && f.offset == 0 && f.term < s.term && f.role == Follower && f.commit == 0
    ensures (s1, f1) == Exchange(s, f, peer)
    ensures f1.log == [] && f1.offset == 0 && f1.term == s1.term == s.term && f1.role == Follower && f1.commit == 0
    ensures s1.role == Leader && s1.log == s.log && s1.offset == 0 && Anchored(s1) && NextFor(s1, peer) == 1 && s1.commit == s.commit
  {
    s1, f1 := Exchange(s, f, peer).0, Exchange(s, f, peer).1;
  }

  lemma TakesPlaceholder(s: NodeState, f: NodeState, file: File, peer: Id)
    requires s.log == [AnchorOf(file)] && s.offset == 0 && NextFor(s, peer) == 1
    requires f.log == [] && f.offset == 0 && f.term == s.term && f.role == Follower
    ensures Exchange(s, f, peer).1.log == [AnchorOf(file)]
  {
    var req := RequestFor(s, peer);
    assert req.entries == [AnchorOf(file)];
    var f1 := FollowLeader(f, req.leader);
    var f2 := MergeEntries(f1, req.prevIndex, req.entries);
    assert f2.log == [AnchorOf(file)];
    ApplyKeeps(f2.(commit := Min(req.commit, LastIndex(f2))));
  }

  // ---- Why the term matters -----------------------------------------------------------------------

  /** The request has an entry at the file's index, of another term than the file's. */
  predicate Cuts(f: File, prev: nat, entries: Log) {
    prev < f.index <= prev + |entries| && entries[f.index - 1 - prev].term != f.term
  }

  /** A node whose window is the anchor alone. */
  predicate AtAnchor(n: NodeState, f: File) {
    f.index > 0 && n.log == [AnchorOf(f)] && n.offset == f.index - 1
  }

  /** Where merging into such a node starts to write: at the anchor if the entry there differs, or behind it. */
  lemma {:induction false} DivergenceAtAnchor(n: NodeState, f: File, prev: nat, entries: Log, i: nat)
    requires AtAnchor(n, f) && prev + i <= f.index && i <= |entries|
    ensures var d := Divergence(n, prev, entries, i);
      if prev + i < f.index && Cuts(f, prev, entries) then prev + 1 + d == f.index else d >= |entries| || prev + d >= f.index
    decreases |entries| - i
  {
    if i < |entries| && prev + i < f.index { DivergenceAtAnchor(n, f, prev, entries, i + 1); }
  }

  lemma {:induction false} MergeAtAnchor(n: NodeState, f: File, prev: nat, entries: Log)
    requires AtAnchor(n, f) && prev <= f.index
    ensures EntryAt(MergeEntries(n, prev, entries), f.index) ==
      Some(if Cuts(f, prev, entries) then entries[f.index - 1 - prev] else AnchorOf(f))
  {
    var d := Divergence(n, prev, entries, 0);
    DivergenceAtAnchor(n, f, prev, entries, 0);
    MergeIs(n, prev, entries);
    if d < |entries| { WrittenAtAnchor(n, f, prev + d, entries[d..]); }
  }

  lemma WrittenAtAnchor(n: NodeState, f: File, x: nat, tail: Log)
    requires AtAnchor(n, f) && f.index <= x + 1 && tail != []
    ensures EntryAt(AppendToLog(TruncateFrom(n, x + 1), tail), f.index) == Some(if x + 1 == f.index then tail[0] else AnchorOf(f))
  {
  }

  lemma {:induction false} AnswerAtAnchor(n: NodeState, f: File, req: AppendRequest)
    requires AtAnchor(n, f)
    ensures EntryAt(AnswerLeader(n, req).0, f.index) ==
      Some(if Cuts(f, req.prevIndex, req.entries) then req.entries[f.index - 1 - req.prevIndex] else AnchorOf(f))
  {
    if Conflict(n, req).None? {
      var n1 := MergeEntries(n, req.prevIndex, req.entries);
      assert req.prevIndex <= f.index;
      MergeAtAnchor(n, f, req.prevIndex, req.entries);
      ApplyKeeps(n1.(commit := Min(req.commit, LastIndex(n1))));
    }
  }

  lemma HeedAtAnchor(n: NodeState, f: File, t: nat, leader: Id)
    requires AtAnchor(n, f)
    ensures AtAnchor(ObserveTerm(n, t), f) && AtAnchor(FollowLeader(ObserveTerm(n, t), leader), f)
  {
  }

  /** The request replaces the entry of a node in term t. */
  predicate Replaces(t: nat, f: File, req: AppendRequest) {
    req.term >= t && Cuts(f, req.prevIndex, req.entries)
  }

  /**
    What an AppendEntries call does to the entry a node has adopted: any leader of the node's term or a
    later one replaces it if and only if the request has an entry of another term there.
   */
  lemma AnchorAfter(n: NodeState, f: File, req: AppendRequest)
    requires f.index > 0
    ensures var n' := HandleAppend(CaughtUp(n, f), req).0;
      && EntryAt(n', f.index) == Some(if Replaces(n.term, f, req) then req.entries[f.index - 1 - req.prevIndex] else AnchorOf(f))
      && (EntryAt(n', f.index) == Some(AnchorOf(f)) <==> !Replaces(n.term, f, req))
  {
    HandleAtAnchor(CaughtUp(n, f), n.term, f, req);
  }

  lemma {:induction false} HandleAtAnchor(n: NodeState, t: nat, f: File, req: AppendRequest)
    requires AtAnchor(n, f) && n.term == t
    ensures var n' := HandleAppend(n, req).0;
      && EntryAt(n', f.index) == Some(if Replaces(t, f, req) then req.entries[f.index - 1 - req.prevIndex] else AnchorOf(f))
      && (EntryAt(n', f.index) == Some(AnchorOf(f)) <==> !Replaces(t, f, req))
  {
    HeedAtAnchor(n, f, req.term, req.leader);
    if req.term >= t {
      AnswerAtAnchor(FollowLeader(ObserveTerm(n, req.term), req.leader), f, req);
    }
  }
}
