/**
  The backup service: an incremental replica fed from the leader's log in cycles that may be
  cut short, and the snapshot files it hands out.  A cycle that is cut short has already
  changed the replica, and the next one feeds it the same entries again.
 */
module Backup {
  import opened Types
  import opened KeyValue
  import opened NodeSpec
  import opened Window
  import opened RaftNode

  // ---- The store ------------------------------------------------------------------------

  /** The replica, the boundary of the last completed cycle, and the newest file on disk. */
  datatype Replica = Replica(state: Store, index: nat, term: nat, file: Option<File>)

  /** Position of the first entry that does not decode; the end if all do. */
  function Readable(l: Log): nat {
    if l == [] then 0
    else
      var k := Readable(l[..|l| - 1]);
      if k < |l| - 1 || l[|l| - 1].command.Unreadable? then k else |l|
  }

  lemma {:induction false} ReadableIs(l: Log)
    ensures Readable(l) <= |l|
    ensures forall j | 0 <= j < Readable(l) :: !l[j].command.Unreadable?
    ensures Readable(l) < |l| ==> l[Readable(l)].command.Unreadable?
  {
    if l != [] {
      var front := l[..|l| - 1];
      ReadableIs(front);
      assert forall j | 0 <= j < |front| :: l[j] == front[j];
    }
  }

  /** Store.Apply: everything before the first entry that does not decode. */
  function Fed(r: Replica, l: Log): Replica {
    ReadableIs(l);
    r.(state := Replay(r.state, l[..Readable(l)]))
  }

  function Committed(r: Replica, index: nat, term: nat): Replica {
    Replica(r.state, index, term, Some(File(r.state, index, term)))
  }

  /** NewStore on what is on disk. */
  function Reopened(r: Replica): Replica {
    match r.file
    case None => Replica(map[], 0, 0, None)
    case Some(f) => Replica(f.state, f.index, f.term, Some(f))
  }

  class SnapshotStore {
    var state: Store
    var lastIncludedIndex: nat
    var lastIncludedTerm: nat
    var file: Option<File>

    function State(): Replica
      reads this
    {
      Replica(state, lastIncludedIndex, lastIncludedTerm, file)
    }

    constructor (file: Option<File>)
      ensures State() == Reopened(Replica(map[], 0, 0, file))
    {
      this.file, state, lastIncludedIndex, lastIncludedTerm := file, map[], 0, 0;
      if file.Some? {
        state, lastIncludedIndex, lastIncludedTerm := file.value.state, file.value.index, file.value.term;
      }
    }

    /** False is the error return: an entry does not decode, and those before it are applied. */
    method Apply(entries: Log) returns (ok: bool)
      modifies this`state
      ensures State() == Fed(old(State()), entries) && (ok <==> Readable(entries) == |entries|)
    {
      var i := 0;
      while i < |entries|
        invariant 0 <= i <= |entries| && Readable(entries[..i]) == i && state == Replay(old(state), entries[..i])
      {
        assert entries[..i + 1][..i] == entries[..i];
        if entries[i].command.Unreadable? {
          StopsAt(entries, i);
          return false;
        }
        state := KeyValue.Apply(state, entries[i].command);
        i := i + 1;
      }
      assert entries[..i] == entries;
      return true;
    }

    method Commit(index: nat, term: nat) returns (written: File)
      modifies this
      ensures State() == Committed(old(State()), index, term) && file == Some(written)
    {
      written := File(state, index, term);
      file, lastIncludedIndex, lastIncludedTerm := Some(written), index, term;
    }
  }

  lemma {:induction false} StopsAt(l: Log, i: nat)
    requires i < |l| && Readable(l[..i]) == i && l[i].command.Unreadable?
    ensures Readable(l) == i
    decreases |l|
  {
    if i == |l| - 1 {
    } else {
      assert l[..|l| - 1][..i] == l[..i];
      StopsAt(l[..|l| - 1], i);
    }
  }

  // ---- One cycle ----------------------------------------------------------------------------

  /** What StreamLogRange sends: the entries of the range that the window has. */
  function Stream(n: NodeState, from: nat, to: nat): Log
    decreases 1 + to - from
  {
    if from > to then []
    else (if EntryAt(n, from).Some? then [EntryAt(n, from).value] else []) + Stream(n, from + 1, to)
  }

  method StreamLogRange(leader: Node, from: nat, to: nat) returns (entries: Log)
    ensures entries == Stream(leader.State(), from, to)
  {
    entries := [];
    var index := from;
    ghost var n := leader.State();
    assert [] + Stream(n, from, to) == Stream(n, from, to);
    while index <= to
      invariant from <= index && n == leader.State()
      invariant entries + Stream(n, index, to) == Stream(n, from, to)
      decreases 1 + to - index
    {
      StreamOn(n, entries, index, to);
      var e := leader.EntryAtLocked(index);
      if e.Some? { entries := entries + [e.value]; }
      index := index + 1;
    }
    assert entries + [] == entries;
  }

  lemma {:induction false} StreamOn(n: NodeState, sent: Log, index: nat, to: nat)
    requires index <= to
    ensures var e := EntryAt(n, index);
      sent + Stream(n, index, to) == (if e.Some? then sent + [e.value] else sent) + Stream(n, index + 1, to)
  {
    var e, rest := EntryAt(n, index), Stream(n, index + 1, to);
    if e.Some? { assert sent + ([e.value] + rest) == sent + [e.value] + rest; } else { assert [] + rest == rest; }
  }

  /** The first index a cycle asks for. */
  function From(r: Replica, n: NodeState): nat {
    var first := if n.log == [] then 0 else n.offset + 1;
    Max(r.index + 1, first)
  }

  /** What a cycle leaves of the store, and the file it confirms, if it gets that far. */
  function Cycle(r: Replica, n: NodeState, stillLeader: bool): (Replica, Option<File>) {
    CycleOn(r, Stream(n, From(r, n), LastIndex(n)), stillLeader)
  }

  function CycleOn(r: Replica, entries: Log, stillLeader: bool): (Replica, Option<File>) {
    if entries == [] then (r, None)
    else if Readable(entries) < |entries| || !stillLeader then (Fed(r, entries), None)
    else
      var last := entries[|entries| - 1];
      var r' := Committed(Fed(r, entries), last.index, last.term);
      (r', r'.file)
  }

  /** One compaction cycle against a leader; stillLeader is what the second look at the cluster finds. */
  method RunCycle(store: SnapshotStore, leader: Node, stillLeader: bool) returns (confirmed: bool)
    modifies store, leader
    ensures store.State() == Cycle(old(store.State()), old(leader.State()), stillLeader).0
    ensures var f := Cycle(old(store.State()), old(leader.State()), stillLeader).1;
      leader.State() == if f.Some? then Confirm(old(leader.State()), f.value.index, f.value) else old(leader.State())
  {
    var from := store.lastIncludedIndex + 1;
    if |leader.log| > 0 && leader.logOffset + 1 > from { from := leader.logOffset + 1; }
    var to := leader.LastLogIndexLocked();
    if from > to { return false; }
    var entries := StreamLogRange(leader, from, to);
    if |entries| == 0 { return false; }
    confirmed := FinishCycle(store, leader, entries, stillLeader);
  }

  /** The rest of the cycle, once the entries have come in. */
  method FinishCycle(store: SnapshotStore, leader: Node, entries: Log, stillLeader: bool) returns (confirmed: bool)
    requires entries != []
    modifies store, leader
    ensures store.State() == CycleOn(old(store.State()), entries, stillLeader).0
    ensures var f := CycleOn(old(store.State()), entries, stillLeader).1;
      leader.State() == if f.Some? then Confirm(old(leader.State()), f.value.index, f.value) else old(leader.State())
  {
    var ok := store.Apply(entries);
    ReadableIs(entries);
    if !ok || !stillLeader { return false; }
    var last := entries[|entries| - 1];
    var file := store.Commit(last.index, last.term);
    confirmed := leader.ConfirmCompaction(last.index, file);
  }

  // ---- What a leader's window streams ----------------------------------------------------------

  lemma {:induction false} StreamShows(n: NodeState, full: Log, from: nat, to: nat)
    requires Shows(n, full) && Compacted(n) < from <= to + 1 && to <= |full|
    ensures Stream(n, from, to) == full[from - 1..to]
    decreases 1 + to - from
  {
    if from <= to {
      ShowsEntry(n, full, from);
      StreamShows(n, full, from + 1, to);
    }
  }

  /** A leader whose anchor is within what is backed up streams exactly the missing entries. */
  lemma {:induction false} CycleStreams(r: Replica, n: NodeState, full: Log)
    requires Shows(n, full) && Compacted(n) <= r.index <= |full|
    ensures Stream(n, From(r, n), LastIndex(n)) == full[r.index..]
  {
    ShowsEntry(n, full, 0);
    assert From(r, n) == r.index + 1;
    StreamShows(n, full, r.index + 1, |full|);
  }

  /** A leader compacted one entry further would stream its placeholder, which replays as writing the empty key. */
  lemma {:induction false} PlaceholderStreamed(r: Replica, n: NodeState, full: Log)
    requires Shows(n, full) && Anchored(n) && n.offset == r.index
    ensures var entries := Stream(n, From(r, n), LastIndex(n)); entries != [] && entries[0].command == BLANK
  {
    ShowsEntry(n, full, n.offset + 1);
  }

  // ---- Any sequence of cycles ---------------------------------------------------------------------

  /** Everything that can happen to the service: the log grows, a cycle runs, the service restarts. */
  datatype Happening =
    | Grows(tail: Log)
    | Cycles(to: nat, stillLeader: bool)
    | Restarts

  /** The service and the committed log it backs up; reach is how far the replica has been fed. */
  datatype World = World(replica: Replica, log: Log, reach: nat)

  /** One cycle, streaming the entries behind the boundary up to the given index. */
  function FedTo(w: World, to: nat): World
    requires w.replica.index <= to <= |w.log|
  {
    var entries := w.log[w.replica.index..to];
    ReadableIs(entries);
    World(Fed(w.replica, entries), w.log, w.replica.index + Readable(entries))
  }

  /** A leader of the committed log has all that was ever fed. */
  predicate Possible(w: World, h: Happening) {
    h.Cycles? ==> w.replica.index <= w.reach <= h.to <= |w.log|
  }

  function Next(w: World, h: Happening): World
    requires Possible(w, h)
  {
    match h
    case Grows(tail) => w.(log := w.log + tail)
    case Restarts => w.(replica := Reopened(w.replica), reach := Reopened(w.replica).index)
    case Cycles(to, stillLeader) =>
      var w' := FedTo(w, to);
      if to == w.replica.index || w'.reach < to || !stillLeader then w'
      else w'.(replica := Committed(w'.replica, to, w.log[to - 1].term))
  }

  /** The replica is the committed log replayed as far as it was fed, and the file is an exact snapshot. */
  predicate Sound(w: World) {
    && w.replica.index <= w.reach <= |w.log|
    && w.replica.state == Replay(map[], w.log[..w.reach])
    && Readable(w.log[w.replica.index..w.reach]) == w.reach - w.replica.index
    && match w.replica.file
       case None => w.replica.index == 0
       case Some(f) => f.index == w.replica.index && FileOk(f, w.log)
  }

  /** Feeding entries again that an earlier, unfinished cycle already fed is harmless. */
  lemma FeedAgain(log: Log, last: nat, reach: nat, upTo: nat)
    requires last <= reach <= upTo <= |log|
    ensures Replay(Replay(map[], log[..reach]), log[last..upTo]) == Replay(map[], log[..upTo])
  {
    var base, s, t := Replay(map[], log[..last]), log[last..reach], log[reach..upTo];
    assert log[..reach] == log[..last] + s && log[..upTo] == log[..last] + (s + t) && log[last..upTo] == s + t;
    ReplayConcat(map[], log[..last], s);
    ReplayConcat(map[], log[..last], s + t);
    ReplayAgain(base, s, t);
  }

  lemma {:induction false} ReadableLonger(l: Log, k: nat)
    requires k <= |l| && Readable(l[..k]) == k
    ensures k <= Readable(l)
    decreases |l|
  {
    if k == |l| {
      assert l[..k] == l;
    } else {
      assert l[..|l| - 1][..k] == l[..k];
      ReadableLonger(l[..|l| - 1], k);
    }
  }

  lemma {:induction false} ReadablePrefix(l: Log, k: nat)
    requires k <= Readable(l) && k <= |l|
    ensures Readable(l[..k]) == k
    decreases |l|
  {
    ReadableIs(l);
    if k == |l| {
      assert l[..k] == l;
    } else {
      ReadableIs(l[..|l| - 1]);
      assert l[..|l| - 1][..k] == l[..k];
      ReadablePrefix(l[..|l| - 1], k);
    }
  }

  lemma FedSound(w: World, to: nat)
    requires Sound(w) && w.reach <= to <= |w.log|
    ensures Sound(FedTo(w, to)) && w.reach <= FedTo(w, to).reach <= to
  {
    var last := w.replica.index;
    var k := FedPart(w.log, last, w.reach, to);
    FeedAgain(w.log, last, w.reach, last + k);
    assert FedTo(w, to) == World(w.replica.(state := Replay(map[], w.log[..last + k])), w.log, last + k);
  }

  /** How much of a cycle is fed: at least what was fed before, and all of it decodes. */
  lemma FedPart(log: Log, last: nat, reach: nat, to: nat) returns (k: nat)
    requires last <= reach <= to <= |log| && Readable(log[last..reach]) == reach - last
    ensures k == Readable(log[last..to]) && reach <= last + k <= to
    ensures log[last..to][..k] == log[last..last + k] && Readable(log[last..last + k]) == k
  {
    var entries := log[last..to];
    ReadableIs(entries);
    k := Readable(entries);
    assert entries[..reach - last] == log[last..reach];
    ReadableLonger(entries, reach - last);
    assert entries[..k] == log[last..last + k];
    ReadablePrefix(entries, k);
  }

  lemma CommitSound(w: World, to: nat)
    requires Sound(w) && w.reach == to > 0
    ensures Sound(w.(replica := Committed(w.replica, to, w.log[to - 1].term)))
  {
    assert w.log[to..to] == [];
  }

  lemma GrowSound(w: World, tail: Log)
    requires Sound(w)
    ensures Sound(w.(log := w.log + tail))
  {
    var log' := w.log + tail;
    assert log'[..w.reach] == w.log[..w.reach];
    assert log'[w.replica.index..w.reach] == w.log[w.replica.index..w.reach];
    if w.replica.file.Some? { assert log'[..w.replica.index] == w.log[..w.replica.index]; }
  }

  lemma RestartSound(w: World)
    requires Sound(w)
    ensures Sound(Next(w, Restarts))
  {
    var i := Reopened(w.replica).index;
    assert w.log[i..i] == [] && w.log[..0] == [];
  }

  lemma HappeningSound(w: World, h: Happening)
    requires Sound(w) && Possible(w, h)
    ensures Sound(Next(w, h))
  {
    match h {
      case Grows(tail) => GrowSound(w, tail);
      case Restarts => RestartSound(w);
      case Cycles(to, stillLeader) =>
        FedSound(w, to);
        var w' := FedTo(w, to);
        if w'.reach == to && to > w.replica.index { CommitSound(w', to); }
    }
  }

  /** A cycle against a leader that holds only committed entries, and has none of the missing ones compacted, is such a step. */
  lemma CycleIsStep(w: World, n: NodeState, full: Log, stillLeader: bool)
    requires Sound(w) && Shows(n, full) && Indexed(full, 0) && full <= w.log
    requires Compacted(n) <= w.replica.index && w.reach <= |full|
    ensures Possible(w, Cycles(|full|, stillLeader))
    ensures var (r, f) := Cycle(w.replica, n, stillLeader);
      && r == Next(w, Cycles(|full|, stillLeader)).replica && (f.Some? ==> FileOk(f.value, w.log) && f.value.index == |full|)
      && (f.Some? <==> stillLeader && w.replica.index < |full| && AllDecode(w.log[w.replica.index..|full|]))
  {
    CycleValue(w, n, full, stillLeader);
    HappeningSound(w, Cycles(|full|, stillLeader));
  }

  predicate AllDecode(l: Log) {
    forall j | 0 <= j < |l| :: !l[j].command.Unreadable?
  }

  lemma CycleValue(w: World, n: NodeState, full: Log, stillLeader: bool)
    requires Shows(n, full) && Indexed(full, 0) && full <= w.log
    requires Compacted(n) <= w.replica.index <= w.reach <= |full|
    ensures var (r, f) := Cycle(w.replica, n, stillLeader);
      && r == Next(w, Cycles(|full|, stillLeader)).replica
      && (f.Some? ==> f == r.file && r.index == |full|)
      && (f.Some? <==> stillLeader && w.replica.index < |full| && AllDecode(w.log[w.replica.index..|full|]))
  {
    CycleStreams(w.replica, n, full);
    assert full[w.replica.index..] == w.log[w.replica.index..|full|];
    if full != [] { assert full[|full| - 1] == w.log[|full| - 1]; }
    StepValue(w, |full|, stillLeader);
  }

  lemma StepValue(w: World, to: nat, stillLeader: bool)
    requires w.replica.index <= w.reach <= to <= |w.log| && (to > 0 ==> w.log[to - 1].index == to)
    ensures var (r, f) := CycleOn(w.replica, w.log[w.replica.index..to], stillLeader);
      && r == Next(w, Cycles(to, stillLeader)).replica
      && (f.Some? ==> f == r.file && r.index == to)
      && (f.Some? <==> stillLeader && w.replica.index < to && AllDecode(w.log[w.replica.index..to]))
  {
    var entries := w.log[w.replica.index..to];
    ReadableIs(entries);
    if entries != [] { assert entries[|entries| - 1] == w.log[to - 1]; }
  }

  predicate Happens(worlds: seq<World>, hs: seq<Happening>, i: nat) {
    && i < |hs| && |worlds| == |hs| + 1 && Possible(worlds[i], hs[i]) && worlds[i + 1] == Next(worlds[i], hs[i])
  }

  /** Over any sequence of completed, aborted and failed cycles, restarts and writes, every file is an exact snapshot. */
  lemma {:induction false} EveryFileExact(worlds: seq<World>, hs: seq<Happening>, i: nat)
    requires |worlds| == |hs| + 1 && worlds[0] == World(Replica(map[], 0, 0, None), [], 0)
    requires forall j: nat {:trigger Happens(worlds, hs, j)} | j < |hs| :: Happens(worlds, hs, j)
    requires i < |worlds|
    ensures Sound(worlds[i])
    ensures worlds[i].replica.file.Some? ==> FileOk(worlds[i].replica.file.value, worlds[i].log)
    decreases i
  {
    if i > 0 {
      EveryFileExact(worlds, hs, i - 1);
      assert Happens(worlds, hs, i - 1);
      HappeningSound(worlds[i - 1], hs[i - 1]);
    }
  }

  // ---- When feeding again is not harmless ------------------------------------------------------------

  /** Feeding a fed replica up to an index gives that index's map, whatever the log, exactly when nothing beyond was fed. */
  lemma FeedAgainIff(last: nat, reach: nat, upTo: nat)
    requires last <= reach && last <= upTo
    ensures (forall log: Log {:trigger |log|} | reach <= |log| && upTo <= |log| ::
               Replay(Replay(map[], log[..reach]), log[last..upTo]) == Replay(map[], log[..upTo]))
            <==> reach <= upTo
  {
    if reach <= upTo {
      forall log: Log | reach <= |log| && upTo <= |log|
        ensures Replay(Replay(map[], log[..reach]), log[last..upTo]) == Replay(map[], log[..upTo])
      {
        FeedAgain(log, last, reach, upTo);
      }
    } else {
      var log := seq(reach, i requires 0 <= i => Entry(1, i + 1, if i == reach - 1 then Put("k", "v") else Delete("k2")));
      TooFar(log, last, reach, upTo);
      assert |log| == reach;
    }
  }

  lemma TooFar(log: Log, last: nat, reach: nat, upTo: nat)
    requires last <= upTo < reach == |log| && log[reach - 1].command == Put("k", "v")
    requires forall i | 0 <= i < reach - 1 :: log[i].command == Delete("k2")
    ensures Replay(Replay(map[], log[..reach]), log[last..upTo]) != Replay(map[], log[..upTo])
  {
    var m := Replay(map[], log[..reach]);
    assert log[..reach][..reach - 1] == log[..reach - 1];
    assert "k" in m;
    assert !Mentions(log[last..upTo], "k") && !Mentions(log[..upTo], "k");
    ReplayUnmentioned(m, log[last..upTo], "k");
    ReplayUnmentioned(map[], log[..upTo], "k");
  }
}
