/**
  The data directory during compaction.  Snapshot files are found by scanning names for
  a prefix, a number and a suffix, and that scan also accepts a temporary name.  So the
  newest file may be a temporary one that a crash left half-written.
 */
module SnapshotDir {
  import opened Types
  import opened KeyValue
  import opened NodeSpec
  import opened Window

  /** snapshot-<index>.dat, or the same with .tmp behind it. */
  datatype Name = Final(index: nat) | Temp(index: nat)

  datatype Content = Whole(file: File) | Torn

  type Dir = map<Name, Content>

  datatype Found = Missing | Loaded(file: File) | Broken

  /** Highest index; of the two names for one index the final one, which sorts first. */
  predicate Best(dir: Dir, n: Name) {
    && n in dir && (n.Temp? ==> Final(n.index) !in dir)
    && forall m | m in dir :: m.index <= n.index
  }

  lemma {:induction false} SomeBest(dir: Dir) returns (n: Name)
    requires dir != map[]
    ensures Best(dir, n)
    decreases |dir|
  {
    n :| n in dir;
    var rest := dir - {n};
    if rest != map[] {
      var m := SomeBest(rest);
      assert forall x | x in dir :: x == n || x in rest;
      if m.index > n.index || (m.index == n.index && m.Final?) { n := m; }
    }
  }

  /** What Latest returns: the newest file decoded, or its error. */
  ghost function Latest(dir: Dir): Found {
    if n :| Best(dir, n) then Contents(dir[n]) else Missing
  }

  function Contents(c: Content): Found {
    if c.Whole? then Loaded(c.file) else Broken
  }

  lemma LatestIs(dir: Dir, n: Name)
    requires Best(dir, n)
    ensures Latest(dir) == Contents(dir[n])
  {
    assert forall m | Best(dir, m) :: m == n;
  }

  lemma LatestMissing(dir: Dir)
    ensures Latest(dir) == Missing <==> dir == map[]
  {
    if dir != map[] {
      var n := SomeBest(dir);
      LatestIs(dir, n);
    }
  }

  /** A listing of the directory in name order: each final name comes before its temporary one. */
  ghost predicate Lists(listing: seq<Name>, dir: Dir) {
    && (forall n :: n in listing <==> n in dir)
    && forall i, j | 0 <= i < j < |listing| && listing[i].Temp? && listing[j].Final? :: listing[i].index != listing[j].index
  }

  method FindLatest(listing: seq<Name>, dir: Dir) returns (r: Found)
    requires Lists(listing, dir)
    ensures r == Latest(dir)
  {
    var best := None;
    for i := 0 to |listing|
      invariant best.None? <==> i == 0
      invariant best.Some? ==> exists k :: 0 <= k < i && listing[k] == best.value
      invariant best.Some? ==> forall j | 0 <= j < i ::
        listing[j].index <= best.value.index && (listing[j].index == best.value.index && best.value.Temp? ==> listing[j].Temp?)
    {
      if best.None? || listing[i].index > best.value.index { best := Some(listing[i]); }
    }
    if best.None? {
      assert dir == map[] by { assert forall n :: n !in dir; }
      LatestMissing(dir);
      return Missing;
    }
    BestFound(listing, dir, best.value);
    LatestIs(dir, best.value);
    return Contents(dir[best.value]);
  }

  lemma BestFound(listing: seq<Name>, dir: Dir, best: Name)
    requires Lists(listing, dir) && best in listing
    requires forall j | 0 <= j < |listing| ::
      listing[j].index <= best.index && (listing[j].index == best.index && best.Temp? ==> listing[j].Temp?)
    ensures Best(dir, best)
  {
    forall m | m in dir
      ensures m.index <= best.index && (best.Temp? ==> m != Final(best.index))
    {
      assert m in listing;
    }
  }

  // ---- A compaction, step by step --------------------------------------------------------

  /** How far compactLocked got: each step is one write, rename or removal. */
  datatype Point = Untouched | TempTorn | TempWhole | Renamed | OldRemoved | LogRewritten

  function DirAt(dir: Dir, was: Option<File>, f: File, p: Point): Dir {
    match p
    case Untouched => dir
    case TempTorn => dir[Temp(f.index) := Torn]
    case TempWhole => dir[Temp(f.index) := Whole(f)]
    case Renamed => dir[Final(f.index) := Whole(f)]
    case _ => (if was.Some? then dir - {Final(was.value.index)} else dir)[Final(f.index) := Whole(f)]
  }

  function EntriesAt(n: NodeState, f: File, p: Point): Log {
    if p == LogRewritten then CompactTo(n, f).disk.entries else n.disk.entries
  }

  /** The directory's newest file is the node's snapshot. */
  ghost predicate Holds(dir: Dir, snapshot: Option<File>) {
    Latest(dir) == if snapshot.Some? then Loaded(snapshot.value) else Missing
  }

  ghost predicate Named(dir: Dir) {
    forall n | n in dir && dir[n].Whole? :: dir[n].file.index == n.index
  }

  /** The disk NewNode is given after a crash at that point; none if reading the newest snapshot fails. */
  ghost function Startup(n: NodeState, dir: Dir, f: File, p: Point): Option<Disk> {
    match Latest(DirAt(dir, n.disk.snapshot, f, p))
    case Broken => None
    case Missing => Some(n.disk.(entries := EntriesAt(n, f, p), snapshot := None))
    case Loaded(g) => Some(n.disk.(entries := EntriesAt(n, f, p), snapshot := Some(g)))
  }

  lemma AllOlder(dir: Dir, snapshot: Option<File>, i: nat)
    requires Holds(dir, snapshot) && Named(dir) && (snapshot.Some? ==> snapshot.value.index < i)
    ensures forall m | m in dir :: m.index < i
  {
    LatestMissing(dir);
    if dir != map[] {
      var n := SomeBest(dir);
      LatestIs(dir, n);
    }
  }

  /** Up to the first write the old snapshot is the newest; after it the new one, in whatever state it is. */
  lemma LatestAt(dir: Dir, snapshot: Option<File>, f: File, p: Point)
    requires Holds(dir, snapshot) && Named(dir) && (snapshot.Some? ==> snapshot.value.index < f.index)
    ensures Latest(DirAt(dir, snapshot, f, p)) ==
      if p == Untouched then Latest(dir) else if p == TempTorn then Broken else Loaded(f)
  {
    AllOlder(dir, snapshot, f.index);
    if p != Untouched {
      var dir' := DirAt(dir, snapshot, f, p);
      var n := if p == TempTorn || p == TempWhole then Temp(f.index) else Final(f.index);
      assert forall m | m in dir' :: m == n || m in dir;
      assert Best(dir', n);
      LatestIs(dir', n);
    }
  }

  /** The start fails exactly when the crash left the new snapshot half-written under its temporary name. */
  lemma StartsUnlessTorn(n: NodeState, dir: Dir, f: File, p: Point)
    requires Holds(dir, n.disk.snapshot) && Named(dir) && (n.disk.snapshot.Some? ==> n.disk.snapshot.value.index < f.index)
    ensures Startup(n, dir, f, p).Some? <==> p != TempTorn
  {
    LatestAt(dir, n.disk.snapshot, f, p);
  }

  /** So a node that never compacted before cannot start after its first snapshot was cut off. */
  lemma TornFirstSnapshot()
    ensures var n := NewNode("a", []); Startup(n, map[], File(map[], 2, 1), TempTorn) == None
  {
    var n := NewNode("a", []);
    LatestMissing(map[]);
    StartsUnlessTorn(n, map[], File(map[], 2, 1), TempTorn);
  }

  /** What recovery from a disk amounts to: the same full log, and the map replayed up to where it starts. */
  predicate Recovers(n: NodeState, full: Log) {
    var r := Recover(n);
    Shows(r, full) && r.commit == r.applied <= |full| && r.store == Replay(map[], full[..r.applied])
  }

  lemma StoredShows(n: NodeState, full: Log, log: Log, offset: nat)
    requires Stored(n.disk.entries, n.disk.snapshot, log, offset) && Indexed(full, 0)
    requires match n.disk.snapshot
             case None => log == full
             case Some(g) => 2 <= g.index && FileOk(g, full) && offset < |full| && log == View(full, offset)
    ensures Recovers(n, full)
  {
    if n.disk.snapshot.Some? { assert Indexed(log, offset); }
    StoredRecovers(n.disk, log, offset);
    assert full[..0] == [];
  }

  /** Compaction is crash-atomic: wherever it is cut off, a start that succeeds finds the same log and its replay. */
  lemma CompactionCrashAtomic(n: NodeState, full: Log, dir: Dir, f: File, p: Point)
    requires Shows(n, full) && DiskOk(n) && Indexed(full, 0) && (Anchored(n) ==> FileOk(n.disk.snapshot.value, full))
    requires FileOk(f, full) && n.offset + 1 < f.index && Holds(dir, n.disk.snapshot) && Named(dir)
    ensures Startup(n, dir, f, p).Some? <==> p != TempTorn
    ensures Startup(n, dir, f, p).Some? ==> Recovers(n.(disk := Startup(n, dir, f, p).value), full)
  {
    StartsUnlessTorn(n, dir, f, p);
    LatestAt(dir, n.disk.snapshot, f, p);
    if p == Untouched {
      StoredShows(n.(disk := Startup(n, dir, f, p).value), full, n.log, n.offset);
    } else if p != TempTorn {
      RecoversBehind(n, full, f, p == LogRewritten);
    }
  }

  lemma RecoversBehind(n: NodeState, full: Log, f: File, rewritten: bool)
    requires Shows(n, full) && DiskOk(n) && Indexed(full, 0) && FileOk(f, full) && n.offset + 1 < f.index
    ensures var entries := if rewritten then CompactTo(n, f).disk.entries else n.disk.entries;
      Recovers(n.(disk := n.disk.(entries := entries, snapshot := Some(f))), full)
  {
    var entries := if rewritten then CompactTo(n, f).disk.entries else n.disk.entries;
    AfterWrite(n, full, f, rewritten);
    StoredShows(n.(disk := n.disk.(entries := entries, snapshot := Some(f))), full, View(full, f.index - 1), f.index - 1);
  }

  /** Once the new snapshot is the newest, log.dat gives the compacted log, rewritten or not. */
  lemma AfterWrite(n: NodeState, full: Log, f: File, rewritten: bool)
    requires Shows(n, full) && DiskOk(n) && Indexed(full, 0) && FileOk(f, full) && n.offset + 1 < f.index
    ensures Stored(if rewritten then CompactTo(n, f).disk.entries else n.disk.entries, Some(f), View(full, f.index - 1), f.index - 1)
  {
    ShowsIndexed(n, full);
    CompactKeeps(n, f, full);
    if rewritten {
      RewrittenStored(n, f);
    } else {
      MidCompactionStored(n.disk.entries, n.disk.snapshot, n.log, n.offset, f);
    }
  }

  lemma RewrittenStored(n: NodeState, f: File)
    requires Indexed(n.log, n.offset) && n.offset < f.index <= LastIndex(n)
    ensures Stored(CompactTo(n, f).disk.entries, Some(f), [AnchorOf(f)] + n.log[f.index - n.offset..], f.index - 1)
  {
    CompactStored(n.log, n.offset, f);
  }

  /** After a restart behind any of the points the newest file is again the node's snapshot. */
  lemma DirStays(n: NodeState, dir: Dir, f: File, p: Point)
    requires Holds(dir, n.disk.snapshot) && Named(dir) && (n.disk.snapshot.Some? ==> n.disk.snapshot.value.index < f.index)
    requires p != TempTorn
    ensures var dir' := DirAt(dir, n.disk.snapshot, f, p); 
      Named(dir') && Startup(n, dir, f, p).Some? && Holds(dir', Startup(n, dir, f, p).value.snapshot)
  {
    LatestAt(dir, n.disk.snapshot, f, p);
  }
}
