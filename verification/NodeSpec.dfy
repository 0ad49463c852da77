/**
  One consensus node as a value, with every handler as a function from the state
  it finds to the state it leaves.  The log is a window: log[i] has index
  offset + i + 1, and once the node has compacted, log[0] is a placeholder anchor
  that carries the term of the entry it stands for but no command.
 */
module NodeSpec {
  import opened Types
  import opened Quorums
  import opened KeyValue

  // ---- Messages -----------------------------------------------------------------

  datatype VoteRequest = VoteRequest(term: nat, candidate: Id, lastIndex: nat, lastTerm: nat)

  datatype VoteReply = VoteReply(term: nat, granted: bool)

  datatype AppendRequest = AppendRequest(
    term: nat, leader: Id, prevIndex: nat, prevTerm: nat, entries: Log, commit: nat)

  datatype AppendReply = AppendReply(term: nat, success: bool, conflictIndex: nat, conflictTerm: nat)

  // ---- State ----------------------------------------------------------------------

  /** A snapshot file: the map after the entries up to and including index. */
  datatype File = File(state: Store, index: nat, term: nat)

  /** What survives a crash: state.json, the entries of log.dat, and the newest snapshot file. */
  datatype Disk = Disk(term: nat, votedFor: Option<Id>, entries: Log, snapshot: Option<File>)

  /** One blocked ProposeSync call: its number and the entry it appended. */
  datatype Ticket = Ticket(id: nat, entry: Entry)

  /** What a ProposeSync call was told: committed, or leadership lost. */
  datatype Answer = Answer(ticket: Ticket, committed: bool)

  datatype NodeState = NodeState(
    id: Id,
    peers: seq<Id>,
    term: nat,
    votedFor: Option<Id>,
    log: Log,
    offset: nat,
    role: Role,
    commit: nat,
    applied: nat,
    nextIndex: map<Id, nat>,
    matchIndex: map<Id, nat>,
    leader: Option<Id>,
    votes: nat,                  // votes counted in the running election
    waiters: map<nat, Ticket>,   // index -> blocked call
    answers: multiset<Answer>,   // every answer ever delivered
    issued: nat,                 // tickets handed out so far
    store: Store,
    disk: Disk)

  // ---- The window -----------------------------------------------------------------

  function LastIndex(n: NodeState): nat {
    n.offset + |n.log|
  }

  function LastLogTerm(n: NodeState): nat {
    if n.log == [] then 0 else n.log[|n.log| - 1].term
  }

  function EntryAt(n: NodeState, index: nat): Option<Entry> {
    if index <= n.offset || index > LastIndex(n) then None else Some(n.log[index - n.offset - 1])
  }

  /** Where the run of the given term at the very end of the log starts; one past the end if there is none. */
  function TailRun(log: Log, term: nat): nat {
    if log != [] && log[|log| - 1].term == term then TailRun(log[..|log| - 1], term) else |log|
  }

  function FirstIndexOfTerm(n: NodeState, term: nat): nat {
    n.offset + TailRun(n.log, term) + 1
  }

  /** Position after the last entry of the given term, scanning back and giving up at a smaller term; 0 if none. */
  function ScanBack(log: Log, term: nat): nat {
    if log == [] then 0
    else if log[|log| - 1].term == term then |log|
    else if log[|log| - 1].term < term then 0
    else ScanBack(log[..|log| - 1], term)
  }

  function LastIndexOfTerm(n: NodeState, term: nat): nat {
    var k := ScanBack(n.log, term);
    if k == 0 then 0 else n.offset + k
  }

  // ---- Durable writes ---------------------------------------------------------------

  function PersistState(n: NodeState): NodeState {
    n.(disk := n.disk.(term := n.term, votedFor := n.votedFor))
  }

  /** The entries TruncateLogFrom keeps. */
  function Before(l: Log, index: nat): Log {
    if l == [] then []
    else Before(l[..|l| - 1], index) + (if l[|l| - 1].index < index then [l[|l| - 1]] else [])
  }

  /** The entries NewNode keeps behind a snapshot. */
  function After(l: Log, index: nat): Log {
    if l == [] then []
    else After(l[..|l| - 1], index) + (if l[|l| - 1].index > index then [l[|l| - 1]] else [])
  }

  // ---- Roles and terms ----------------------------------------------------------------

  function Failures(waiters: map<nat, Ticket>): multiset<Answer> {
    multiset(set i | i in waiters :: Answer(waiters[i], false))
  }

  function AbortWaiters(n: NodeState): NodeState {
    n.(waiters := map[], answers := n.answers + Failures(n.waiters))
  }

  function SetRole(n: NodeState, role: Role): NodeState {
    (if n.role == Leader && role != Leader then AbortWaiters(n) else n).(role := role)
  }

  function ObserveTerm(n: NodeState, term: nat): NodeState {
    if term <= n.term then n
    else PersistState(SetRole(n.(term := term, votedFor := None), Follower))
  }

  // ---- Elections ------------------------------------------------------------------------

  predicate AtLeastAsUpToDate(candTerm: nat, candIndex: nat, voterTerm: nat, voterIndex: nat) {
    if candTerm != voterTerm then candTerm > voterTerm else candIndex >= voterIndex
  }

  predicate Grants(n: NodeState, req: VoteRequest) {
    && req.term == n.term
    && (n.votedFor == None || n.votedFor == Some(req.candidate))
    && AtLeastAsUpToDate(req.lastTerm, req.lastIndex, LastLogTerm(n), LastIndex(n))
  }

  function HandleVote(n: NodeState, req: VoteRequest): (NodeState, VoteReply) {
    var n1 := ObserveTerm(n, req.term);
    if Grants(n1, req) then
      (PersistState(n1.(votedFor := Some(req.candidate))), VoteReply(n1.term, true))
    else
      (n1, VoteReply(n1.term, false))
  }

  function StartElection(n: NodeState): NodeState {
    if n.role == Leader then n
    else PersistState(SetRole(n, Candidate).(term := n.term + 1, votedFor := Some(n.id), votes := 1))
  }

  function VoteRequestOf(n: NodeState): VoteRequest {
    VoteRequest(n.term, n.id, LastIndex(n), LastLogTerm(n))
  }

  function Majority(n: NodeState): nat {
    QuorumSize(|n.peers| + 1)
  }

  function Each(peers: seq<Id>, index: nat): map<Id, nat> {
    map p | p in peers :: index
  }

  function BecomeLeader(n: NodeState): NodeState {
    if n.role != Candidate then n
    else n.(role := Leader, leader := Some(n.id),
            nextIndex := Each(n.peers, LastIndex(n) + 1), matchIndex := Each(n.peers, 0))
  }

  function HandleVoteReply(n: NodeState, electionTerm: nat, reply: VoteReply): NodeState {
    if reply.term > n.term then ObserveTerm(n, reply.term)
    else if n.role != Candidate || n.term != electionTerm || !reply.granted then n
    else
      var n1 := n.(votes := n.votes + 1);
      if n1.votes >= Majority(n) then BecomeLeader(n1) else n1
  }

  // ---- Applying ----------------------------------------------------------------------------

  /** Applies the entry after the last applied one and answers the call waiting for it. */
  function ApplyNext(n: NodeState, e: Entry): NodeState {
    var n1 := n.(applied := n.applied + 1, store := Apply(n.store, e.command));
    if e.index in n.waiters then
      n1.(waiters := n.waiters - {e.index}, answers := n.answers + multiset{Answer(n.waiters[e.index], true)})
    else n1
  }

  function ApplyCommitted(n: NodeState): NodeState
    decreases n.commit - n.applied
  {
    if n.applied >= n.commit then n
    else match EntryAt(n, n.applied + 1)
      case None => n.(applied := n.applied + 1)
      case Some(e) => ApplyCommitted(ApplyNext(n, e))
  }

  lemma ApplyUnfolds(n: NodeState)
    requires n.applied < n.commit
    ensures var e := EntryAt(n, n.applied + 1);
      ApplyCommitted(n) == if e.None? then n.(applied := n.applied + 1) else ApplyCommitted(ApplyNext(n, e.value))
  {
  }

  lemma ApplyDone(n: NodeState)
    requires n.applied >= n.commit
    ensures ApplyCommitted(n) == n
  {
  }

  lemma ApplyOn(n: NodeState, e: Entry)
    requires n.applied < n.commit && EntryAt(n, n.applied + 1) == Some(e)
    ensures ApplyCommitted(n) == ApplyCommitted(ApplyNext(n, e))
  {
    ApplyUnfolds(n);
  }

  // ---- Appending -----------------------------------------------------------------------------

  /** Position in entries, from i on, of the first one this node does not hold. */
  function Divergence(n: NodeState, prevIndex: nat, entries: Log, i: nat): nat
    decreases |entries| - i
  {
    if i >= |entries| then |entries|
    else if prevIndex + 1 + i <= n.offset then Divergence(n, prevIndex, entries, i + 1)
    else match EntryAt(n, prevIndex + 1 + i)
      case None => i
      case Some(e) => if e.term != entries[i].term then i else Divergence(n, prevIndex, entries, i + 1)
  }

  function TruncateFrom(n: NodeState, index: nat): NodeState {
    if EntryAt(n, index).None? then n
    else n.(log := n.log[..index - n.offset - 1], disk := n.disk.(entries := Before(n.disk.entries, index)))
  }

  function AppendToLog(n: NodeState, entries: Log): NodeState {
    n.(log := n.log + entries, disk := n.disk.(entries := n.disk.entries + entries))
  }

  function MergeEntries(n: NodeState, prevIndex: nat, entries: Log): NodeState {
    var d := Divergence(n, prevIndex, entries, 0);
    if d >= |entries| then n else AppendToLog(TruncateFrom(n, prevIndex + 1 + d), entries[d..])
  }

  /** Why a request of the current term is turned down, if it is. */
  function Conflict(n: NodeState, req: AppendRequest): Option<AppendReply> {
    if req.prevIndex <= n.offset then None
    else match EntryAt(n, req.prevIndex)
      case None => Some(AppendReply(n.term, false, LastIndex(n) + 1, 0))
      case Some(e) =>
        if e.term != req.prevTerm then Some(AppendReply(n.term, false, FirstIndexOfTerm(n, e.term), e.term))
        else None
  }

  function LearnCommit(n: NodeState, leaderCommit: nat): NodeState {
    if leaderCommit > n.commit then ApplyCommitted(n.(commit := Min(leaderCommit, LastIndex(n)))) else n
  }

  function FollowLeader(n: NodeState, leader: Id): NodeState {
    SetRole(n, Follower).(leader := Some(leader))
  }

  /** The consistency check and what follows it, for a request of the current term. */
  function AnswerLeader(n: NodeState, req: AppendRequest): (NodeState, AppendReply) {
    match Conflict(n, req)
    case Some(reply) => (n, reply)
    case None =>
      (LearnCommit(MergeEntries(n, req.prevIndex, req.entries), req.commit), AppendReply(n.term, true, 0, 0))
  }

  function HandleAppend(n: NodeState, req: AppendRequest): (NodeState, AppendReply) {
    var n1 := ObserveTerm(n, req.term);
    if req.term < n1.term then (n1, AppendReply(n1.term, false, 0, 0))
    else AnswerLeader(FollowLeader(n1, req.leader), req)
  }

  function AppendLocal(n: NodeState, c: Command): NodeState {
    AppendToLog(n, [Entry(n.term, LastIndex(n) + 1, c)])
  }

  function ProposeSync(n: NodeState, c: Command): NodeState {
    if n.role != Leader then n
    else
      var e := Entry(n.term, LastIndex(n) + 1, c);
      AppendLocal(n, c).(waiters := n.waiters[e.index := Ticket(n.issued, e)], issued := n.issued + 1)
  }

  // ---- Replicating ------------------------------------------------------------------------------

  function NextFor(n: NodeState, peer: Id): nat {
    var next := if peer in n.nextIndex then n.nextIndex[peer] else 0;
    if next <= n.offset then n.offset + 1 else next
  }

  /** The term of the entry at index, 0 if the window does not have it. */
  function TermOf(n: NodeState, index: nat): nat {
    if EntryAt(n, index).Some? then EntryAt(n, index).value.term else 0
  }

  function EntriesFrom(n: NodeState, next: nat): Log {
    if n.offset < next <= LastIndex(n)
      then seq(LastIndex(n) + 1 - next, i requires 0 <= i < LastIndex(n) + 1 - next => n.log[next - 1 - n.offset + i])
      else []
  }

  function RequestFor(n: NodeState, peer: Id): AppendRequest {
    var next := NextFor(n, peer);
    AppendRequest(n.term, n.id, next - 1, TermOf(n, next - 1), EntriesFrom(n, next), n.commit)
  }

  /** Peers known to hold the first index entries. */
  function Holders(matchIndex: map<Id, nat>, index: nat): set<Id> {
    set p | p in matchIndex && matchIndex[p] >= index
  }

  predicate CanCommit(n: NodeState, index: nat) {
    && EntryAt(n, index).Some? && EntryAt(n, index).value.term == n.term
    && 1 + |Holders(n.matchIndex, index)| >= Majority(n)
  }

  /** The highest index up to the given one, above the commit index, that may be committed. */
  function FindCommit(n: NodeState, index: nat): nat {
    if index <= n.commit then n.commit
    else if CanCommit(n, index) then index
    else FindCommit(n, index - 1)
  }

  function AdvanceCommit(n: NodeState): NodeState {
    var index := FindCommit(n, LastIndex(n));
    if index > n.commit then ApplyCommitted(n.(commit := index)) else n
  }

  function RecordMatch(n: NodeState, peer: Id, newMatch: nat): NodeState {
    var m := if peer in n.matchIndex then n.matchIndex[peer] else 0;
    var x := if peer in n.nextIndex then n.nextIndex[peer] else 0;
    n.(matchIndex := if newMatch > m then n.matchIndex[peer := newMatch] else n.matchIndex,
       nextIndex := if newMatch + 1 > x then n.nextIndex[peer := newMatch + 1] else n.nextIndex)
  }

  function BackOff(n: NodeState, reply: AppendReply): nat {
    var last := LastIndexOfTerm(n, reply.conflictTerm);
    var next := if reply.conflictTerm != 0 && last > 0 then last + 1 else reply.conflictIndex;
    if next < 1 then 1 else next
  }

  function HandleAppendReply(n: NodeState, peer: Id, sentPrev: nat, numEntries: nat, reply: AppendReply): NodeState {
    if reply.term > n.term then ObserveTerm(n, reply.term)
    else if reply.success then AdvanceCommit(RecordMatch(n, peer, sentPrev + numEntries))
    else n.(nextIndex := n.nextIndex[peer := BackOff(n, reply)])
  }

  /** The reply half of one AppendEntries call: stale replies are dropped. */
  function FinishAppend(n: NodeState, peer: Id, req: AppendRequest, reply: AppendReply): NodeState {
    if n.role != Leader || n.term != req.term then n
    else HandleAppendReply(n, peer, req.prevIndex, |req.entries|, reply)
  }

  /** What one exchange of a request and its reply makes of leader and follower. */
  function Exchange(s: NodeState, f: NodeState, peer: Id): (NodeState, NodeState) {
    var req := RequestFor(s, peer);
    var (f', reply) := HandleAppend(f, req);
    (FinishAppend(s, peer, req, reply), f')
  }

  // ---- Compaction and recovery --------------------------------------------------------------------

  function AnchorOf(f: File): Entry {
    Entry(f.term, f.index, BLANK)
  }

  function CompactTo(n: NodeState, f: File): NodeState {
    if EntryAt(n, f.index).None? then n
    else
      var kept := [AnchorOf(f)] + n.log[f.index - n.offset..];
      n.(log := kept, offset := f.index - 1, disk := n.disk.(entries := kept, snapshot := Some(f)))
  }

  /** The guards shared by ConfirmCompaction and the poll loop's local compaction. */
  predicate MayCompact(n: NodeState, target: nat, f: File) {
    n.offset + 1 < target <= n.applied && f.index == target
  }

  function Confirm(n: NodeState, target: nat, f: File): NodeState {
    if MayCompact(n, target, f) then CompactTo(n, f) else n
  }

  /** What catchUpFromSnapshot leaves of a node, given the file it fetched. */
  function CaughtUp(n: NodeState, f: File): NodeState {
    if f.index == 0 then n
    else n.(log := [AnchorOf(f)], offset := f.index - 1, commit := Max(n.commit, f.index), applied := Max(n.applied, f.index),
            store := f.state, disk := n.disk.(entries := [AnchorOf(f)], snapshot := Some(f)))
  }

  /** The disk of a crash after the snapshot file is written and before log.dat is. */
  function CaughtUpDisk(n: NodeState, f: File): Disk {
    n.disk.(snapshot := Some(f))
  }

  /** The log and offset NewNode builds from the entries on disk and the newest snapshot. */
  function RecoveredLog(d: Disk): (Log, nat) {
    match d.snapshot
    case Some(f) =>
      if f.index > 0 then ([AnchorOf(f)] + After(d.entries, f.index), f.index - 1) else LogAlone(d.entries)
    case None => LogAlone(d.entries)
  }

  /** Without a snapshot the offset comes from the first record; at index 0 the subtraction wraps around. */
  function LogAlone(entries: Log): (Log, nat) {
    (entries, if entries == [] then 0 else if entries[0].index == 0 then 0xFFFF_FFFF_FFFF_FFFF else entries[0].index - 1)
  }

  /** The commit and applied index NewNode starts from, given the offset it recovered; after that offset it wraps around too. */
  function StartOf(d: Disk, offset: nat): nat {
    if d.snapshot.Some? && d.snapshot.value.index > 0 then offset + 1
    else if offset > 0 then (offset + 1) % 0x1_0000_0000_0000_0000
    else 0
  }

  function RestartAt(n: NodeState, log: Log, offset: nat, start: nat): NodeState {
    n.(term := n.disk.term, votedFor := n.disk.votedFor, log := log, offset := offset,
       role := Follower, commit := start, applied := start,
       nextIndex := map[], matchIndex := map[], leader := None, votes := 0, waiters := map[],
       store := if n.disk.snapshot.Some? then n.disk.snapshot.value.state else map[])
  }

  /** NewNode on the directory a crashed node left behind. */
  function Recover(n: NodeState): NodeState {
    var (log, offset) := RecoveredLog(n.disk);
    RestartAt(n, log, offset, StartOf(n.disk, offset))
  }

  /** The disk once a merge has cut the log and written some of the new records. */
  function MergePart(n: NodeState, req: AppendRequest, records: nat): NodeState {
    var d := Divergence(n, req.prevIndex, req.entries, 0);
    if d >= |req.entries| then n
    else AppendToLog(TruncateFrom(n, req.prevIndex + 1 + d), req.entries[d..Min(d + records, |req.entries|)])
  }

  /** A crash while merging: the new term is on disk, and so is part of the merge if the request passes. */
  function DiskMidMerge(n: NodeState, req: AppendRequest, records: nat): NodeState {
    var n1 := ObserveTerm(n, req.term);
    if req.term < n1.term then n1
    else
      var n2 := FollowLeader(n1, req.leader);
      if Conflict(n2, req).Some? then n2 else MergePart(n2, req, records)
  }

  /** A crash while compacting: the snapshot file is in place, log.dat is not rewritten yet. */
  function DiskMidCompaction(n: NodeState, target: nat, f: File): NodeState {
    if MayCompact(n, target, f) && EntryAt(n, target).Some? then n.(disk := n.disk.(snapshot := Some(f))) else n
  }

  function NewNode(id: Id, peers: seq<Id>): NodeState {
    NodeState(id, peers, 0, None, [], 0, Follower, 0, 0, map[], map[], None, 0, map[], multiset{}, 0, map[],
              Disk(0, None, [], None))
  }
}
