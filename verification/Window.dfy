/** The windowed log and the entries on disk as views of one full, uncompacted log. */
module Window {
  import opened Types
  import opened KeyValue
  import opened NodeSpec

  /** Entries carry their position: l[i] has index base + i + 1. */
  predicate Indexed(l: Log, base: nat) {
    forall i {:trigger l[i]} | 0 <= i < |l| :: l[i].index == base + i + 1
  }

  predicate Anchored(n: NodeState) {
    n.disk.snapshot.Some?
  }

  /** Number of leading entries whose commands the node no longer has. */
  function Compacted(n: NodeState): nat {
    if Anchored(n) then n.offset + 1 else 0
  }

  /** A log compacted after its first o + 1 entries: a placeholder for entry o + 1, then the rest. */
  function View(full: Log, o: nat): Log
    requires o < |full|
  {
    [Entry(full[o].term, o + 1, BLANK)] + full[o + 1..]
  }

  /** The node's window shows the full log. */
  predicate Shows(n: NodeState, full: Log) {
    if Anchored(n) then
      1 <= n.offset < |full| && n.disk.snapshot.value.index == n.offset + 1 && n.log == View(full, n.offset)
    else
      n.offset == 0 && n.log == full
  }

  /** The snapshot file behind an anchor is the full log's prefix, replayed. */
  predicate FileOk(f: File, full: Log) {
    0 < f.index <= |full| && f.term == full[f.index - 1].term && f.state == Replay(map[], full[..f.index])
  }

  /** log.dat and the newest snapshot file hold the window in memory. */
  predicate Stored(entries: Log, snapshot: Option<File>, log: Log, offset: nat) {
    match snapshot
    case None => offset == 0 && log == entries
    case Some(f) => f.index == offset + 1 && log == [AnchorOf(f)] + After(entries, f.index)
  }

  predicate DiskOk(n: NodeState) {
    && n.disk.term == n.term && n.disk.votedFor == n.votedFor
    && Stored(n.disk.entries, n.disk.snapshot, n.log, n.offset)
  }

  /** NewNode on such a disk rebuilds the window in memory. */
  lemma StoredRecovers(d: Disk, log: Log, offset: nat)
    requires Stored(d.entries, d.snapshot, log, offset) && Indexed(log, offset)
    ensures RecoveredLog(d) == (log, offset)
  {
    if d.snapshot.None? && log != [] { assert log[0].index == 1; }
  }

  lemma ShowsEntry(n: NodeState, full: Log, index: nat)
    requires Shows(n, full)
    ensures LastIndex(n) == |full|
    ensures EntryAt(n, index).Some? <==> n.offset < index <= |full|
    ensures EntryAt(n, index).Some? ==> EntryAt(n, index).value.term == full[index - 1].term
    ensures EntryAt(n, index).Some? && index > Compacted(n) ==> EntryAt(n, index).value == full[index - 1]
  {
  }

  lemma ShowsIndexed(n: NodeState, full: Log)
    requires Shows(n, full) && Indexed(full, 0)
    ensures Indexed(n.log, n.offset)
  {
  }

  lemma ShowsLastTerm(n: NodeState, full: Log)
    requires Shows(n, full)
    ensures LastLogTerm(n) == LastTerm(full)
  {
  }

  // ---- Filtering by index --------------------------------------------------------

  lemma {:induction false} AfterConcat(a: Log, b: Log, i: nat)
    ensures After(a + b, i) == After(a, i) + After(b, i)
    decreases |b|
  {
    if b == [] {
      assert a + b == a;
    } else {
      AfterConcat(a, b[..|b| - 1], i);
      assert (a + b)[..|a + b| - 1] == a + b[..|b| - 1];
    }
  }

  lemma {:induction false} AfterIndexed(l: Log, base: nat, i: nat)
    requires Indexed(l, base)
    ensures After(l, i) == if i <= base then l else if i >= base + |l| then [] else l[i - base..]
  {
    if l != [] {
      var front := l[..|l| - 1];
      AfterIndexed(front, base, i);
      assert l == front + [l[|l| - 1]];
    }
  }

  lemma {:induction false} BeforeIndexed(l: Log, base: nat, i: nat)
    requires Indexed(l, base) && base < i
    ensures Before(l, i) == if i > base + |l| then l else l[..i - base - 1]
  {
    if l != [] {
      var front := l[..|l| - 1];
      BeforeIndexed(front, base, i);
      if i - base - 1 < |l| {
        assert l[..i - base - 1] == front[..i - base - 1];
      } else {
        assert l == front + [l[|l| - 1]];
      }
    }
  }

  lemma {:induction false} BeforeConcat(a: Log, b: Log, i: nat)
    ensures Before(a + b, i) == Before(a, i) + Before(b, i)
    decreases |b|
  {
    if b == [] {
      assert a + b == a;
    } else {
      BeforeConcat(a, b[..|b| - 1], i);
      assert (a + b)[..|a + b| - 1] == a + b[..|b| - 1];
    }
  }

  lemma {:induction false} FilterOne(e: Entry, i: nat)
    ensures After([e], i) == if e.index > i then [e] else []
    ensures Before([e], i) == if e.index < i then [e] else []
  {
    assert [e][..0] == [];
  }

  lemma {:induction false} AfterBefore(l: Log, i: nat, j: nat)
    ensures After(Before(l, j), i) == Before(After(l, i), j)
  {
    if l != [] {
      var front, last := l[..|l| - 1], l[|l| - 1];
      AfterBefore(front, i, j);
      FilterOne(last, i);
      FilterOne(last, j);
      AfterConcat(Before(front, j), Before([last], j), i);
      BeforeConcat(After(front, i), After([last], i), j);
    }
  }

  lemma {:induction false} AfterAfter(l: Log, i: nat, j: nat)
    requires i <= j
    ensures After(After(l, i), j) == After(l, j)
  {
    if l != [] {
      var front, last := l[..|l| - 1], l[|l| - 1];
      AfterAfter(front, i, j);
      FilterOne(last, i);
      FilterOne(last, j);
      AfterConcat(After(front, i), After([last], i), j);
    }
  }

  // ---- Every log operation keeps disk and memory in step -----------------------------

  lemma AppendStored(entries: Log, snapshot: Option<File>, log: Log, offset: nat, tail: Log)
    requires Stored(entries, snapshot, log, offset) && Indexed(tail, offset + |log|)
    ensures Stored(entries + tail, snapshot, log + tail, offset)
  {
    if snapshot.Some? {
      var i := snapshot.value.index;
      AppendedAfter(entries, tail, i, offset + |log|);
      assert [AnchorOf(snapshot.value)] + (After(entries, i) + tail) == ([AnchorOf(snapshot.value)] + After(entries, i)) + tail;
    }
  }

  lemma {:induction false} AppendedAfter(entries: Log, tail: Log, i: nat, base: nat)
    requires Indexed(tail, base) && i <= base
    ensures After(entries + tail, i) == After(entries, i) + tail
  {
    AfterConcat(entries, tail, i);
    AfterIndexed(tail, base, i);
  }

  lemma {:induction false} TruncateStored(entries: Log, snapshot: Option<File>, log: Log, offset: nat, index: nat)
    requires Stored(entries, snapshot, log, offset) && Indexed(log, offset)
    requires offset < index <= offset + |log| && (snapshot.Some? ==> offset + 1 < index)
    ensures Stored(Before(entries, index), snapshot, log[..index - offset - 1], offset)
  {
    if snapshot.Some? {
      var i := snapshot.value.index;
      var suffix := After(entries, i);
      AfterBefore(entries, i, index);
      assert suffix == log[1..];
      assert Indexed(suffix, i);
      BeforeIndexed(suffix, i, index);
    } else {
      BeforeIndexed(log, 0, index);
    }
  }

  lemma CompactStored(log: Log, offset: nat, f: File)
    requires Indexed(log, offset) && offset < f.index <= offset + |log|
    ensures var kept := [AnchorOf(f)] + log[f.index - offset..]; Stored(kept, Some(f), kept, f.index - 1)
  {
    var rest := log[f.index - offset..];
    assert Indexed(rest, f.index);
    AnchorDropped(f, rest);
  }

  lemma {:induction false} AnchorDropped(f: File, rest: Log)
    requires Indexed(rest, f.index)
    ensures After([AnchorOf(f)] + rest, f.index) == rest
  {
    AfterConcat([AnchorOf(f)], rest, f.index);
    FilterOne(AnchorOf(f), f.index);
    AfterIndexed(rest, f.index, f.index);
  }

  /** Once the new snapshot file is in place, log.dat already recovers to the compacted log, rewritten or not. */
  lemma MidCompactionStored(entries: Log, snapshot: Option<File>, log: Log, offset: nat, f: File)
    requires Stored(entries, snapshot, log, offset) && Indexed(log, offset) && offset + 1 < f.index <= offset + |log|
    ensures Stored(entries, Some(f), [AnchorOf(f)] + log[f.index - offset..], f.index - 1)
  {
    if snapshot.Some? {
      var i := snapshot.value.index;
      var suffix := After(entries, i);
      assert suffix == log[1..] && Indexed(suffix, i);
      AfterAfter(entries, i, f.index);
      AfterIndexed(suffix, i, f.index);
    } else {
      AfterIndexed(log, 0, f.index);
    }
  }

  /** The compacted window shows the same full log. */
  lemma CompactShows(n: NodeState, f: File, full: Log)
    requires Shows(n, full) && FileOk(f, full) && n.offset + 1 < f.index
    ensures Shows(CompactTo(n, f), full)
  {
    CompactKeeps(n, f, full);
    CompactIs(n, f);
  }

  lemma CompactIs(n: NodeState, f: File)
    requires n.offset + 1 < f.index <= LastIndex(n)
    ensures var n' := CompactTo(n, f);
      n'.log == [AnchorOf(f)] + n.log[f.index - n.offset..] && n'.offset == f.index - 1 && n'.disk.snapshot == Some(f)
  {
  }

  lemma CompactKeeps(n: NodeState, f: File, full: Log)
    requires Shows(n, full) && FileOk(f, full) && n.offset + 1 < f.index
    ensures f.index <= LastIndex(n) && [AnchorOf(f)] + n.log[f.index - n.offset..] == View(full, f.index - 1)
  {
    if Anchored(n) { ViewSuffix(full, n.offset, f.index); }
    KeptView(f, full, n.log[f.index - n.offset..]);
  }

  lemma KeptView(f: File, full: Log, rest: Log)
    requires 0 < f.index <= |full| && f.term == full[f.index - 1].term && rest == full[f.index..]
    ensures [AnchorOf(f)] + rest == View(full, f.index - 1)
  {
  }

  lemma ViewSuffix(full: Log, o: nat, i: nat)
    requires o < i <= |full|
    ensures View(full, o)[i - o..] == full[i..]
  {
  }

  /** Appending to the window is appending to the full log. */
  lemma AppendShows(n: NodeState, full: Log, tail: Log)
    requires Shows(n, full)
    ensures Shows(AppendToLog(n, tail), full + tail)
  {
    if Anchored(n) { assert (full + tail)[n.offset + 1..] == full[n.offset + 1..] + tail; }
  }

  // ---- Merging ----------------------------------------------------------------------------

  predicate SameTermAt(a: Log, b: Log, k: int) {
    0 <= k < |a| && k < |b| && a[k].term == b[k].term
  }

  /** Same term at the same position means same prefix. */
  ghost predicate Matching(a: Log, b: Log) {
    forall k {:trigger SameTermAt(a, b, k)} :: SameTermAt(a, b, k) ==> a[..k + 1] == b[..k + 1]
  }

  /** A request's entries continue leader log r after prev, for a follower that shares r's first entries. */
  predicate Continues(full: Log, r: Log, shared: nat, prev: nat, entries: Log) {
    && prev <= shared <= |full| && shared <= |r| && full[..shared] == r[..shared]
    && prev + |entries| <= |r|
    && (forall j {:trigger entries[j]} | 0 <= j < |entries| :: entries[j].term == r[prev + j].term)
    && (forall j {:trigger entries[j]} | shared - prev <= j < |entries| :: entries[j] == r[prev + j])
  }

  lemma SharedTerm(full: Log, r: Log, shared: nat, x: nat)
    requires shared <= |full| && shared <= |r| && full[..shared] == r[..shared] && x < shared
    ensures full[x] == r[x]
  {
    assert full[..shared][x] == r[..shared][x];
  }

  lemma CompareAt(n: NodeState, full: Log, r: Log, shared: nat, prev: nat, entries: Log, i: nat)
    requires Shows(n, full) && n.offset <= shared && Continues(full, r, shared, prev, entries) && i < |entries|
    ensures prev + i < shared ==> SameTermAt(full, r, prev + i)
    ensures prev + 1 + i > n.offset ==>
      (SameTermAt(full, r, prev + i) <==>
       EntryAt(n, prev + 1 + i).Some? && EntryAt(n, prev + 1 + i).value.term == entries[i].term)
  {
    ShowsEntry(n, full, prev + 1 + i);
    if prev + i < shared { SharedTerm(full, r, shared, prev + i); }
  }

  /** Divergence finds the first entry that differs: everything before it has the leader's terms. */
  lemma {:induction false} DivergenceAt(n: NodeState, full: Log, r: Log, shared: nat, prev: nat, entries: Log, i: nat)
    requires Shows(n, full) && n.offset <= shared && Continues(full, r, shared, prev, entries) && i <= |entries|
    requires i == 0 || prev + i <= shared || SameTermAt(full, r, prev + i - 1)
    ensures var d := Divergence(n, prev, entries, i);
      && i <= d <= |entries|
      && (d == 0 || prev + d <= shared || SameTermAt(full, r, prev + d - 1))
      && (d < |entries| ==> prev + d >= shared && !SameTermAt(full, r, prev + d))
    decreases |entries| - i
  {
    if i < |entries| {
      CompareAt(n, full, r, shared, prev, entries, i);
      if prev + 1 + i <= n.offset || SameTermAt(full, r, prev + i) {
        DivergenceAt(n, full, r, shared, prev, entries, i + 1);
      }
    }
  }

  /** What merging does to the full log: keep it if it already has the leader's entries, else take them. */
  function Merged(full: Log, r: Log, k: nat): Log
    requires k <= |r|
  {
    if r[..k] <= full then full else r[..k]
  }

  lemma FirstDifference(full: Log, r: Log, shared: nat, prev: nat, entries: Log, d: nat)
    requires Matching(full, r) && Continues(full, r, shared, prev, entries) && d <= |entries|
    requires d == 0 || prev + d <= shared || SameTermAt(full, r, prev + d - 1)
    requires d < |entries| ==> prev + d >= shared && !SameTermAt(full, r, prev + d)
    ensures prev + d <= |full| && full[..prev + d] == r[..prev + d]
    ensures d == |entries| ==> Merged(full, r, prev + |entries|) == full
    ensures d < |entries| ==> Merged(full, r, prev + |entries|) == full[..prev + d] + entries[d..]
  {
    var x, k := prev + d, prev + |entries|;
    if x <= shared {
      assert full[..x] == full[..shared][..x] && r[..x] == r[..shared][..x];
    }
    if d < |entries| {
      assert entries[d..] == r[x..k];
      assert r[..k] == r[..x] + r[x..k];
      assert x < |full| ==> r[..k][x] != full[x];
    }
  }

  lemma ViewCut(full: Log, o: nat, x: nat, tail: Log)
    requires o < x <= |full|
    ensures View(full, o)[..x - o] + tail == View(full[..x] + tail, o)
  {
    assert (full[..x] + tail)[o + 1..] == full[o + 1..x] + tail;
    assert View(full, o)[..x - o] == [View(full, o)[0]] + full[o + 1..x];
  }

  lemma {:induction false} CutStored(entries: Log, snapshot: Option<File>, log: Log, offset: nat, x: nat, tail: Log)
    requires Stored(entries, snapshot, log, offset) && Indexed(log, offset) && Indexed(tail, x)
    requires offset <= x <= offset + |log| && (snapshot.Some? ==> offset < x)
    ensures var kept := if x < offset + |log| then Before(entries, x + 1) else entries;
      Stored(kept + tail, snapshot, log[..x - offset] + tail, offset)
  {
    if x < offset + |log| {
      TruncateStored(entries, snapshot, log, offset, x + 1);
      AppendStored(Before(entries, x + 1), snapshot, log[..x - offset], offset, tail);
    } else {
      assert log[..x - offset] == log;
      AppendStored(entries, snapshot, log, offset, tail);
    }
  }

  lemma CutLog(n: NodeState, full: Log, x: nat, tail: Log)
    requires Shows(n, full) && n.offset <= x <= |full|
    ensures LastIndex(n) == |full|
    ensures AppendToLog(TruncateFrom(n, x + 1), tail) ==
      n.(log := n.log[..x - n.offset] + tail,
         disk := n.disk.(entries := (if x < |full| then Before(n.disk.entries, x + 1) else n.disk.entries) + tail))
  {
    ShowsEntry(n, full, x + 1);
    if x == |full| { assert n.log[..x - n.offset] == n.log; }
  }

  lemma CutShows(n: NodeState, full: Log, x: nat, tail: Log)
    requires Shows(n, full) && Compacted(n) <= x <= |full|
    ensures Shows(AppendToLog(TruncateFrom(n, x + 1), tail), full[..x] + tail)
  {
    CutLog(n, full, x, tail);
    if Anchored(n) { ViewCut(full, n.offset, x, tail); }
  }

  lemma CutKeepsDisk(n: NodeState, full: Log, x: nat, tail: Log)
    requires Shows(n, full) && DiskOk(n) && Indexed(full, 0) && Compacted(n) <= x <= |full| && Indexed(tail, x)
    ensures DiskOk(AppendToLog(TruncateFrom(n, x + 1), tail))
  {
    CutLog(n, full, x, tail);
    ShowsIndexed(n, full);
    CutStored(n.disk.entries, n.disk.snapshot, n.log, n.offset, x, tail);
  }

  /** Where a merge cuts the log, if it does. */
  lemma MergePoint(n: NodeState, full: Log, r: Log, shared: nat, prev: nat, entries: Log) returns (d: nat)
    requires Shows(n, full) && Matching(full, r)
    requires n.offset <= shared && Continues(full, r, shared, prev, entries)
    ensures d == Divergence(n, prev, entries, 0) <= |entries| && prev + d <= |full|
    ensures d < |entries| ==> shared <= prev + d && Merged(full, r, prev + |entries|) == full[..prev + d] + entries[d..]
    ensures d == |entries| ==> Merged(full, r, prev + |entries|) == full
  {
    DivergenceAt(n, full, r, shared, prev, entries, 0);
    d := Divergence(n, prev, entries, 0);
    FirstDifference(full, r, shared, prev, entries, d);
  }

  /** Up to the cut the log is the leader's; at the cut it differs. */
  lemma {:induction false} CutIsFirstDifference(n: NodeState, full: Log, r: Log, shared: nat, prev: nat, entries: Log, d: nat)
    requires Shows(n, full) && Matching(full, r)
    requires n.offset <= shared && Continues(full, r, shared, prev, entries)
    requires d == Divergence(n, prev, entries, 0) < |entries|
    ensures shared <= prev + d <= |full| && full[..prev + d] == r[..prev + d] && !SameTermAt(full, r, prev + d)
  {
    DivergenceAt(n, full, r, shared, prev, entries, 0);
    FirstDifference(full, r, shared, prev, entries, d);
  }

  /** Merging a request into the window is merging the leader's log into the full log. */
  lemma MergeShows(n: NodeState, full: Log, r: Log, shared: nat, prev: nat, entries: Log)
    requires Shows(n, full) && Matching(full, r)
    requires Compacted(n) <= shared && Continues(full, r, shared, prev, entries)
    ensures Shows(MergeEntries(n, prev, entries), Merged(full, r, prev + |entries|))
  {
    var d := MergePoint(n, full, r, shared, prev, entries);
    if d < |entries| {
      MergeCutShows(n, full, prev, entries, d, Merged(full, r, prev + |entries|));
    } else {
      MergeIs(n, prev, entries);
    }
  }

  lemma {:induction false} MergeCutShows(n: NodeState, full: Log, prev: nat, entries: Log, d: nat, full': Log)
    requires Shows(n, full) && d == Divergence(n, prev, entries, 0) < |entries| && Compacted(n) <= prev + d <= |full|
    requires full' == full[..prev + d] + entries[d..]
    ensures Shows(MergeEntries(n, prev, entries), full')
  {
    MergeIs(n, prev, entries);
    CutShown(n, full, prev + d, entries[d..], MergeEntries(n, prev, entries), full');
  }

  lemma CutShown(n: NodeState, full: Log, x: nat, tail: Log, n': NodeState, full': Log)
    requires Shows(n, full) && Compacted(n) <= x <= |full|
    requires n' == AppendToLog(TruncateFrom(n, x + 1), tail) && full' == full[..x] + tail
    ensures Shows(n', full')
  {
    CutShows(n, full, x, tail);
  }

  lemma {:induction false} MergeIs(n: NodeState, prev: nat, entries: Log)
    ensures var d := Divergence(n, prev, entries, 0);
      MergeEntries(n, prev, entries) ==
        if d >= |entries| then n else AppendToLog(TruncateFrom(n, prev + d + 1), entries[d..])
  {
  }

  lemma CutPoint(n: NodeState, full: Log, r: Log, shared: nat, prev: nat, entries: Log) returns (d: nat)
    requires Shows(n, full) && Matching(full, r)
    requires n.offset <= shared && Continues(full, r, shared, prev, entries)
    ensures d == Divergence(n, prev, entries, 0) <= |entries| && prev + d <= |full|
    ensures d < |entries| ==> shared <= prev + d
  {
    d := MergePoint(n, full, r, shared, prev, entries);
  }

  lemma TailIndexed(r: Log, prev: nat, entries: Log, d: nat)
    requires Indexed(r, 0) && prev + |entries| <= |r| && d <= |entries|
    requires forall j {:trigger entries[j]} | d <= j < |entries| :: entries[j] == r[prev + j]
    ensures Indexed(entries[d..], prev + d)
  {
  }

  lemma MergeKeepsDisk(n: NodeState, full: Log, r: Log, shared: nat, prev: nat, entries: Log)
    requires Shows(n, full) && DiskOk(n) && Indexed(full, 0) && Indexed(r, 0) && Matching(full, r)
    requires Compacted(n) <= shared && Continues(full, r, shared, prev, entries)
    ensures DiskOk(MergeEntries(n, prev, entries))
  {
    var d := CutPoint(n, full, r, shared, prev, entries);
    if d < |entries| { TailIndexed(r, prev, entries, d); }
    MergeAtKeepsDisk(n, full, prev, entries, d);
  }

  lemma {:induction false} MergeAtKeepsDisk(n: NodeState, full: Log, prev: nat, entries: Log, d: nat)
    requires Shows(n, full) && DiskOk(n) && Indexed(full, 0) && d == Divergence(n, prev, entries, 0)
    requires d < |entries| ==> Compacted(n) <= prev + d <= |full| && Indexed(entries[d..], prev + d)
    ensures DiskOk(MergeEntries(n, prev, entries))
  {
    MergeIs(n, prev, entries);
    if d < |entries| { CutKeepsDisk(n, full, prev + d, entries[d..]); }
  }
}
