/**
  What a crash costs, and what a start makes of each disk a crash can leave: the volatile part is lost and
  nothing else, and a step that was cut off after its decisive write counts as done.
 */
module Recovery {
  import opened Types
  import opened KeyValue
  import opened NodeSpec
  import opened Window
  import opened Refinement
  import opened NodeSim
  import opened Compactions
  import opened CatchUp

  // ---- A crash between steps ------------------------------------------------------------------

  /** Term, vote, log and offset come back as they were; the indices start at the anchor, and the map is the log up to there. */
  lemma RestartKeeps(n: NodeState, full: Log)
    requires Shows(n, full) && DiskOk(n) && Indexed(full, 0) && AppliedOk(n, full)
    ensures Recover(n) == n.(role := Follower, commit := Compacted(n), applied := Compacted(n), leader := None, votes := 0,
                             nextIndex := map[], matchIndex := map[], waiters := map[],
                             store := Replay(map[], full[..Compacted(n)]))
  {
    ShowsIndexed(n, full);
    StoredRecovers(n.disk, n.log, n.offset);
  }

  // ---- A crash inside a merge -------------------------------------------------------------------

  /** Once all records are written the disk is that of the finished call. */
  lemma {:induction false} WholeMerge(n: NodeState, req: AppendRequest, records: nat)
    requires records >= |req.entries|
    ensures DiskMidMerge(n, req, records).disk == HandleAppend(n, req).0.disk
  {
    var n2 := FollowLeader(ObserveTerm(n, req.term), req.leader);
    MergeAll(n2, req, records);
    var n3 := MergeEntries(n2, req.prevIndex, req.entries);
    ApplyKeeps(n3.(commit := Min(req.commit, LastIndex(n3))));
  }

  lemma {:induction false} MergeAll(n: NodeState, req: AppendRequest, records: nat)
    requires records >= |req.entries|
    ensures MergePart(n, req, records) == MergeEntries(n, req.prevIndex, req.entries)
  {
    var d := Divergence(n, req.prevIndex, req.entries, 0);
    if d < |req.entries| { assert req.entries[d..Min(d + records, |req.entries|)] == req.entries[d..]; }
  }

  /** After some of them it is that of a shorter request. */
  lemma {:induction false} PartMerge(n: NodeState, req: AppendRequest, records: nat)
    requires 0 < records && Divergence(n, req.prevIndex, req.entries, 0) + records <= |req.entries|
    ensures var d := Divergence(n, req.prevIndex, req.entries, 0);
      MergePart(n, req, records) == MergeEntries(n, req.prevIndex, req.entries[..d + records])
  {
    var d := Divergence(n, req.prevIndex, req.entries, 0);
    var sent, tail := req.entries[..d + records], req.entries[d..d + records];
    DivergencePrefix(n, req.prevIndex, sent, req.entries, 0);
    MergeIs(n, req.prevIndex, sent);
    assert sent[d..] == tail;
    PartIs(n, req, records, d, tail);
  }

  lemma {:induction false} PartIs(n: NodeState, req: AppendRequest, records: nat, d: nat, tail: Log)
    requires d == Divergence(n, req.prevIndex, req.entries, 0) < |req.entries|
    requires d + records <= |req.entries| && tail == req.entries[d..d + records]
    ensures MergePart(n, req, records) == AppendToLog(TruncateFrom(n, req.prevIndex + d + 1), tail)
  {
  }

  lemma {:induction false} DivergencePrefix(n: NodeState, prev: nat, sent: Log, entries: Log, i: nat)
    requires sent <= entries && i <= Divergence(n, prev, entries, i) < |sent|
    ensures Divergence(n, prev, sent, i) == Divergence(n, prev, entries, i)
    decreases |entries| - i
  {
    DivergenceFrom(n, prev, entries, i + 1);
    if i < Divergence(n, prev, entries, i) { DivergencePrefix(n, prev, sent, entries, i + 1); }
  }

  // ---- A crash between the snapshot file and log.dat -----------------------------------------------

  /** The same node, but for what is left in log.dat. */
  predicate SameBut(n: NodeState, m: NodeState) {
    n == m.(disk := n.disk) && n.disk.term == m.disk.term && n.disk.votedFor == m.disk.votedFor && n.disk.snapshot == m.disk.snapshot
  }

  /** Two disks that differ in log.dat only give the same node exactly if they give the same log. */
  lemma SameLogSameNode(n: NodeState, m: NodeState)
    requires n.id == m.id && n.peers == m.peers && n.answers == m.answers && n.issued == m.issued
    requires n.disk.term == m.disk.term && n.disk.votedFor == m.disk.votedFor && n.disk.snapshot == m.disk.snapshot
    ensures SameBut(Recover(n), Recover(m)) <==> RecoveredLog(n.disk) == RecoveredLog(m.disk)
  {
  }

  /** A compaction leaves exactly the window in log.dat, and a crash before that is written recovers the same node. */
  lemma MidCompactionRestarts(n: NodeState, target: nat, f: File)
    requires Stored(n.disk.entries, n.disk.snapshot, n.log, n.offset) && Indexed(n.log, n.offset)
    requires MayCompact(n, target, f) && target <= LastIndex(n)
    ensures var n' := Confirm(n, target, f);
      n'.disk.entries == n'.log && SameBut(Recover(DiskMidCompaction(n, target, f)), Recover(n'))
  {
    MidCompactionStored(n.disk.entries, n.disk.snapshot, n.log, n.offset, f);
    CompactStored(n.log, n.offset, f);
    SameLogSameNode(DiskMidCompaction(n, target, f), Confirm(n, target, f));
  }

  /**
    Adopting a snapshot leaves the placeholder alone in log.dat.  A crash before that is written recovers the
    same node if and only if the old log did not reach beyond the file.
   */
  lemma MidCatchUpRestarts(n: NodeState, f: File)
    requires Stored(n.disk.entries, n.disk.snapshot, n.log, n.offset) && Indexed(n.log, n.offset)
    requires (n.disk.snapshot.Some? ==> n.log != []) && n.offset < f.index
    ensures CaughtUp(n, f).disk.entries == CaughtUp(n, f).log
    ensures SameBut(Recover(n.(disk := CaughtUpDisk(n, f))), Recover(CaughtUp(n, f))) <==> LastIndex(n) <= f.index
  {
    AnchorFiltered(f);
    NothingBehind(n.disk.entries, n.disk.snapshot, n.log, n.offset, f);
    AdoptedLogs(n.disk.entries, f);
    SameLogSameNode(n.(disk := CaughtUpDisk(n, f)), CaughtUp(n, f));
  }

  lemma AdoptedLogs(entries: Log, f: File)
    requires f.index > 0 && After([AnchorOf(f)], f.index) == []
    ensures After(entries, f.index) == [] <==> [AnchorOf(f)] + After(entries, f.index) == [AnchorOf(f)] + After([AnchorOf(f)], f.index)
  {
    var a, b := [AnchorOf(f)] + After(entries, f.index), [AnchorOf(f)] + After([AnchorOf(f)], f.index);
    assert |a| == 1 + |After(entries, f.index)| && |b| == 1;
  }

  // ---- A missing snapshot ----------------------------------------------------------------------------

  /**
    Without a snapshot, or with one of index 0, the first record in log.dat says where the log starts; one of
    index 0 makes the log unreachable.
   */
  lemma FirstRecord(n: NodeState)
    requires n.disk.snapshot.None? || n.disk.snapshot.value.index == 0
    requires n.disk.entries != [] && n.disk.entries[0].index < 0x1_0000_0000_0000_0000
    ensures var r, i := Recover(n), n.disk.entries[0].index;
      && r.log == n.disk.entries && (r.offset + 1) % 0x1_0000_0000_0000_0000 == i
      && r.commit == r.applied == (if i > 1 then i else 0)
      && (EntryAt(r, i) == Some(n.disk.entries[0]) <==> i > 0)
  {
  }

  /**
    So a compacted node whose snapshot file is gone has its log back, but not the map: that is current only if
    the lost entries left nothing in it.
   */
  lemma SnapshotLost(n: NodeState, full: Log)
    requires Shows(n, full) && Anchored(n) && Indexed(full, 0) && |full| < 0x1_0000_0000_0000_0000 && n.disk.entries == n.log
    ensures var r := Recover(n.(disk := n.disk.(snapshot := None)));
      && r.log == n.log && r.offset == n.offset && r.applied == r.commit == n.offset + 1
      && (MapCurrent(r, full) <==> Replay(map[], full[..n.offset + 1]) == map[])
  {
    ShowsIndexed(n, full);
    FirstRecord(n.(disk := n.disk.(snapshot := None)));
  }
}
