/**
  The cluster: nodes, every packet ever sent, and the events that move it.  A packet
  may be delivered any number of times, in any order, or never; a reply travels with
  the request it answers, as the caller's goroutine has both at hand.
 */
module Cluster {
  import opened Types
  import opened KeyValue
  import opened NodeSpec

  datatype Packet =
    | AskVote(from: Id, to: Id, ask: VoteRequest)
    | AnswerVote(from: Id, to: Id, ask: VoteRequest, vote: VoteReply)
    | Send(from: Id, to: Id, req: AppendRequest)
    | Reply(from: Id, to: Id, req: AppendRequest, reply: AppendReply)

  /** One RequestVote goroutine that has not handled its reply yet. */
  datatype Call = Call(candidate: Id, term: nat, peer: Id)

  datatype State = State(
    nodes: map<Id, NodeState>,
    net: set<Packet>,
    calls: set<Call>,
    chosen: Log)        // history: the longest log any node has had committed

  datatype Event =
    | Timeout(n: Id)
    | WinAlone(n: Id)
    | TakeAskVote(p: Packet)
    | TakeAnswerVote(p: Packet)
    | Broadcast(n: Id)
    | TakeSend(p: Packet)
    | TakeReply(p: Packet)
    | Write(n: Id, command: Command)
    | WriteSync(n: Id, command: Command)
    | Cancel(n: Id, index: nat)
    | Compact(n: Id, target: nat, file: File)
    | Crash(n: Id)
    | CrashInMerge(p: Packet, records: nat)
    | CrashInCompaction(n: Id, target: nat, file: File)
    | CrashInTerm(p: Packet)
    | CatchUp(n: Id, file: File)
    | CrashInCatchUp(n: Id, file: File)

  /** The chosen log grows by the entries of a node that commits further than any before it. */
  function Extend(chosen: Log, s: NodeState): Log {
    if s.offset <= |chosen| < s.commit <= LastIndex(s) then
      chosen + s.log[|chosen| - s.offset..s.commit - s.offset]
    else chosen
  }

  function Put(c: State, n: Id, s: NodeState, packets: set<Packet>): State {
    c.(nodes := c.nodes[n := s], net := c.net + packets, chosen := Extend(c.chosen, s))
  }

  /** A snapshot file of the catalog: some prefix of the chosen log, replayed. */
  predicate FileFits(c: State, f: File) {
    0 < f.index <= |c.chosen| && f.term == c.chosen[f.index - 1].term && f.state == Replay(map[], c.chosen[..f.index])
  }

  /** What the program checks, and that the file is exact and not of index 1. */
  predicate Ahead(c: State, n: Id, f: File)
    requires n in c.nodes
  {
    FileFits(c, f) && 2 <= f.index && c.nodes[n].applied < f.index
  }

  /** A node of no later term has committed as far as the file goes. */
  predicate Vouched(c: State, n: Id, f: File)
    requires n in c.nodes
  {
    exists m | m in c.nodes :: c.nodes[m].commit >= f.index && c.nodes[m].term <= c.nodes[n].term
  }

  /** When a snapshot may be adopted, in any role; the last two conditions are not checked by the program. */
  predicate MayCatchUp(c: State, n: Id, f: File)
    requires n in c.nodes
  {
    Ahead(c, n, f) && LastIndex(c.nodes[n]) <= f.index && Vouched(c, n, f)
  }

  /** The term a packet carries to its receiver. */
  function TermIn(p: Packet): nat {
    match p
    case AskVote(_, _, ask) => ask.term
    case AnswerVote(_, _, _, vote) => vote.term
    case Send(_, _, req) => req.term
    case Reply(_, _, _, reply) => reply.term
  }

  /** The node an event happens at. */
  function Actor(e: Event): Id {
    match e
    case TakeAskVote(p) => p.to
    case TakeAnswerVote(p) => p.to
    case TakeSend(p) => p.to
    case TakeReply(p) => p.to
    case CrashInMerge(p, _) => p.to
    case CrashInTerm(p) => p.to
    case _ => e.n
  }

  predicate Enabled(c: State, e: Event) {
    && Actor(e) in c.nodes
    && match e
       case TakeAskVote(p) => p.AskVote? && p in c.net
       case TakeAnswerVote(p) => p.AnswerVote? && p in c.net && Call(p.to, p.ask.term, p.from) in c.calls
       case TakeSend(p) => p.Send? && p in c.net
       case TakeReply(p) => p.Reply? && p in c.net
       case CrashInMerge(p, _) => p.Send? && p in c.net
       case Compact(_, _, f) => FileFits(c, f)
       case CrashInCompaction(_, _, f) => FileFits(c, f)
       case CrashInTerm(p) => p in c.net
       case CatchUp(n, f) => MayCatchUp(c, n, f)
       case CrashInCatchUp(n, f) => MayCatchUp(c, n, f)
       case WinAlone(n) => c.nodes[n].role == Candidate && c.nodes[n].votes >= Majority(c.nodes[n])
       case _ => true
  }

  /** What the event makes of its node. */
  function NodeAfter(s: NodeState, e: Event): NodeState {
    match e
    case Timeout(_) => StartElection(s)
    case WinAlone(_) => BecomeLeader(s)
    case TakeAskVote(p) => if p.AskVote? then HandleVote(s, p.ask).0 else s
    case TakeAnswerVote(p) => if p.AnswerVote? then HandleVoteReply(s, p.ask.term, p.vote) else s
    case Broadcast(_) => s
    case TakeSend(p) => if p.Send? then HandleAppend(s, p.req).0 else s
    case TakeReply(p) => if p.Reply? then FinishAppend(s, p.from, p.req, p.reply) else s
    case Write(_, x) => if s.role == Leader then AppendLocal(s, x) else s
    case WriteSync(_, x) => ProposeSync(s, x)
    case Cancel(_, i) => s.(waiters := s.waiters - {i})
    case Compact(_, t, f) => Confirm(s, t, f)
    case Crash(_) => Recover(s)
    case CrashInMerge(p, k) => if p.Send? then Recover(DiskMidMerge(s, p.req, k)) else s
    case CrashInCompaction(_, t, f) => Recover(DiskMidCompaction(s, t, f))
    case CrashInTerm(p) => Recover(ObserveTerm(s, TermIn(p)))
    case CatchUp(_, f) => CaughtUp(s, f)
    case CrashInCatchUp(_, f) => Recover(s.(disk := CaughtUpDisk(s, f)))
  }

  /** What the event puts on the network. */
  function Sent(s: NodeState, e: Event): set<Packet> {
    match e
    case Timeout(n) =>
      if s.role == Leader then {}
      else set p | p in s.peers :: AskVote(n, p, VoteRequestOf(StartElection(s)))
    case Broadcast(n) => if s.role == Leader then set p | p in s.peers :: Send(n, p, RequestFor(s, p)) else {}
    case TakeAskVote(p) => if p.AskVote? then {AnswerVote(p.to, p.from, p.ask, HandleVote(s, p.ask).1)} else {}
    case TakeSend(p) => if p.Send? then {Reply(p.to, p.from, p.req, HandleAppend(s, p.req).1)} else {}
    case _ => {}
  }

  /** The entry a client write adds to the leader's log, if any. */
  function Introduced(s: NodeState, e: Event): set<Entry> {
    match e
    case Write(_, x) => if s.role == Leader then {Entry(s.term, LastIndex(s) + 1, x)} else {}
    case WriteSync(_, x) => if s.role == Leader then {Entry(s.term, LastIndex(s) + 1, x)} else {}
    case _ => {}
  }

  function CallsAfter(c: State, s: NodeState, e: Event): set<Call> {
    match e
    case Timeout(n) => if s.role == Leader then c.calls else c.calls + set p | p in s.peers :: Call(n, s.term + 1, p)
    case TakeAnswerVote(p) => if p.AnswerVote? then c.calls - {Call(p.to, p.ask.term, p.from)} else c.calls
    case _ => c.calls
  }

  function Act(c: State, e: Event): State
    requires Enabled(c, e)
  {
    var s := c.nodes[Actor(e)];
    Put(c, Actor(e), NodeAfter(s, e), Sent(s, e)).(calls := CallsAfter(c, s, e))
  }

  /** A fresh cluster: every node lists the others as its peers, each once. */
  predicate Initial(c: State) {
    && (forall n | n in c.nodes :: c.nodes[n] == NewNode(n, c.nodes[n].peers) && PeersOf(c.nodes.Keys, n, c.nodes[n].peers))
    && c.net == {} && c.calls == {} && c.chosen == []
  }

  predicate PeersOf(all: set<Id>, n: Id, peers: seq<Id>) {
    (set p | p in peers) == all - {n} && |peers| + 1 == |all|
  }

  /** A run: each state follows from the one before by an enabled event. */
  predicate IsRun(states: seq<State>, events: seq<Event>) {
    && |states| == |events| + 1 && Initial(states[0])
    && forall i {:trigger StepAt(states, events, i)} | 0 <= i < |events| :: StepAt(states, events, i)
  }

  predicate StepAt(states: seq<State>, events: seq<Event>, i: int) {
    && 0 <= i < |events| && |states| == |events| + 1
    && Enabled(states[i], events[i]) && states[i + 1] == Act(states[i], events[i])
  }

  /** An event changes nobody but the node it happens at. */
  lemma StepOf(states: seq<State>, events: seq<Event>, i: nat, n: Id)
    requires IsRun(states, events) && i < |events| && n in states[i].nodes
    ensures n in states[i + 1].nodes
    ensures states[i + 1].nodes[n] == if n == Actor(events[i]) then NodeAfter(states[i].nodes[n], events[i]) else states[i].nodes[n]
  {
    assert StepAt(states, events, i);
  }

  /** Nodes do not come and go. */
  lemma {:induction false} SameNodes(states: seq<State>, events: seq<Event>, i: nat)
    requires IsRun(states, events) && i < |states|
    ensures states[i].nodes.Keys == states[0].nodes.Keys
  {
    if i > 0 {
      SameNodes(states, events, i - 1);
      assert StepAt(states, events, i - 1);
    }
  }
}
