/**
  Adopting snapshots: the files come from the backup service and fit the run, and two runs lead up to a
  moment at which adopting one goes wrong, one for each condition that the program does not check, the
  node's term and the length of its log.
 */
module Adoptions {
  import opened Types
  import opened KeyValue
  import opened NodeSpec
  import opened Window
  import opened Cluster
  import opened NodeSim
  import opened Safety
  import opened CatchUp
  import opened Runs
  import B = Backup

  /** The file of index i, once a node that has not compacted has committed that far. */
  lemma FileAt(states: seq<State>, events: seq<Event>, c: State, n: Id, t: nat, l: Log, i: nat) returns (f: File)
    requires Ends(states, events, c) && n in c.nodes && Plain(c.nodes[n], t, l) && 0 < i <= c.nodes[n].commit
    ensures FileFits(c, f) && f.index == i <= |l| && c.chosen[i - 1] == l[i - 1] && f.term == l[i - 1].term
  {
    StateMachineSafety(states, events, |events|, n);
    assert EntryAt(c.nodes[n], i) == Some(c.chosen[i - 1]);
    f := File(Replay(map[], c.chosen[..i]), i, c.chosen[i - 1].term);
  }

  /**
    If what the backup service was fed is committed at some moment of a run, its newest file is one the
    cluster's nodes may be handed at that moment and at every later one.
   */
  lemma EveryFileFits(worlds: seq<B.World>, hs: seq<B.Happening>, k: nat, states: seq<State>, events: seq<Event>, i: nat, j: nat)
    requires |worlds| == |hs| + 1 && worlds[0] == B.World(B.Replica(map[], 0, 0, None), [], 0)
    requires forall x: nat {:trigger B.Happens(worlds, hs, x)} | x < |hs| :: B.Happens(worlds, hs, x)
    requires k < |worlds| && worlds[k].replica.file.Some?
    requires IsRun(states, events) && i <= j < |states| && worlds[k].log <= states[i].chosen
    ensures FileFits(states[j], worlds[k].replica.file.value)
  {
    B.EveryFileExact(worlds, hs, k);
    ChosenGrows(states, events, i, j);
    ExactFits(worlds[k].replica.file.value, worlds[k].log, states[j]);
  }

  lemma ExactFits(f: File, log: Log, c: State)
    requires FileOk(f, log) && log <= c.chosen
    ensures FileFits(c, f)
  {
    assert log[..f.index] == c.chosen[..f.index];
  }

  // ---- A deposed leader of the node's term -----------------------------------------------------------

  /** Nobody but these three has changed. */
  predicate ThreeMoved(c: State, c': State, x: Id, y: Id, z: Id) {
    && c'.nodes.Keys == c.nodes.Keys && |c'.nodes| == |c.nodes| && c.net <= c'.net
    && forall n | n in c.nodes && n != x && n != y && n != z :: c'.nodes[n] == c.nodes[n]
  }

  /** Among five nodes with empty logs, an election decided by the votes of y and z. */
  lemma ElectsOfFive(states: seq<State>, events: seq<Event>, c: State, x: Id, t: nat, y: Id, u: nat, z: Id, w: nat)
    returns (states': seq<State>, events': seq<Event>, c': State)
    requires Ends(states, events, c) && Formed(c) && |c.nodes| == 5 && x in c.nodes && y in c.nodes && z in c.nodes
    requires x != y && x != z && y != z && u <= t && w <= t && c.nodes[x].role != Leader
    requires Plain(c.nodes[x], t, []) && Plain(c.nodes[y], u, []) && Plain(c.nodes[z], w, [])
    ensures Ends(states', events', c') && Formed(c') && ThreeMoved(c, c', x, y, z) && states <= states'
    ensures Leads(c'.nodes[x], t + 1, []) && Plain(c'.nodes[y], t + 1, []) && Plain(c'.nodes[z], t + 1, [])
    ensures c'.nodes[x].commit == c.nodes[x].commit && c'.nodes[z].commit == c.nodes[z].commit
  {
    var st, ev, d := Granted(states, events, c, x, t, [], y, u, []);
    assert Asked(d, x, t, [], z) && Asked(d, x, t, [], y);
    var st1, ev1, d1 := Votes(st, ev, d, x, t, [], z, w, []);
    var st2, ev2, d2 := Hears(st1, ev1, d1, x, t, [], y);
    states', events', c' := Hears(st2, ev2, d2, x, t, [], z);
  }

  /** Among five nodes: y and z take the leader's log, and the leader commits it. */
  lemma ReplicatesInFive(states: seq<State>, events: seq<Event>, c: State, x: Id, t: nat, l: Log, y: Id, z: Id)
    returns (states': seq<State>, events': seq<Event>, c': State)
    requires Ends(states, events, c) && Formed(c) && |c.nodes| == 5 && x in c.nodes && y in c.nodes && z in c.nodes
    requires x != y && x != z && y != z
    requires Plain(c.nodes[x], t, l) && Unsent(c.nodes[x]) && c.nodes[x].commit == 0 && l != [] && l[|l| - 1].term == t
    requires Plain(c.nodes[y], t, []) && Plain(c.nodes[z], t, [])
    ensures Ends(states', events', c') && Formed(c') && ThreeMoved(c, c', x, y, z) && states <= states'
    ensures Plain(c'.nodes[x], t, l) && c'.nodes[x].commit == |l| && Plain(c'.nodes[y], t, l) && Plain(c'.nodes[z], t, l)
  {
    var st, ev, d := Runs.Offers(states, events, c, x, t, l);
    assert Offered(d, x, t, l, y) && Offered(d, x, t, l, z);
    var st1, ev1, d1 := Takes(st, ev, d, x, t, l, y);
    var st2, ev2, d2 := Takes(st1, ev1, d1, x, t, l, z);
    UnsentWaits(d2.nodes[x], t, l);
    var st3, ev3, d3 := Counts(st2, ev2, d2, x, t, l, {}, y);
    states', events', c' := Counts(st3, ev3, d3, x, t, l, {y}, z);
  }

  predicate AllDiffer(a: Id, b: Id, c: Id, d: Id, e: Id) {
    a != b && a != c && a != d && a != e && b != c && b != d && b != e && c != d && c != e && d != e
  }

  lemma StartsFive(a: Id, b: Id, c: Id, d: Id, e: Id) returns (states: seq<State>, events: seq<Event>, w: State)
    requires AllDiffer(a, b, c, d, e)
    ensures Ends(states, events, w) && Formed(w) && w.nodes.Keys == {a, b, c, d, e} && |w.nodes| == 5
    ensures Fresh(w.nodes[a]) && Fresh(w.nodes[b]) && Fresh(w.nodes[c]) && Fresh(w.nodes[d]) && Fresh(w.nodes[e])
  {
    FiveAre(a, b, c, d, e);
    states, events, w := Starts([a, b, c, d, e]);
  }

  lemma FiveAre(a: Id, b: Id, c: Id, d: Id, e: Id)
    requires AllDiffer(a, b, c, d, e)
    ensures Distinct([a, b, c, d, e]) && Members([a, b, c, d, e]) == {a, b, c, d, e}
  {
  }

  /** a leads term 1 with the votes of c and d; b and e have not heard of it. */
  lemma OldElected(a: Id, b: Id, c: Id, d: Id, e: Id) returns (states: seq<State>, events: seq<Event>, w: State)
    requires AllDiffer(a, b, c, d, e)
    ensures Ends(states, events, w) && Formed(w) && w.nodes.Keys == {a, b, c, d, e} && |w.nodes| == 5
    ensures Leads(w.nodes[a], 1, []) && w.nodes[a].commit == 0 && Fresh(w.nodes[b]) && Fresh(w.nodes[e])
    ensures Plain(w.nodes[c], 1, []) && Plain(w.nodes[d], 1, []) && w.nodes[d].commit == 0
  {
    var st, ev, w0 := StartsFive(a, b, c, d, e);
    states, events, w := ElectsOfFive(st, ev, w0, a, 0, c, 0, d, 0);
  }

  /** The node leads with this log, and nobody is in a later term. */
  predicate LeadsAlone(c: State, a: Id, t: nat, l: Log) {
    && a in c.nodes && c.nodes[a].role == Leader && Plain(c.nodes[a], t, l)
    && forall n | n in c.nodes :: c.nodes[n].term <= t
  }

  /** Two writes of one command in one term. */
  predicate Twice(l: Log, t: nat, x: Command) {
    |l| == 2 && l[0] == Entry(t, 1, x) && l[1] == Entry(t, 2, x)
  }

  lemma NobodyLater(w: State, a: Id, b: Id, c: Id, d: Id, e: Id, l: Log)
    requires w.nodes.Keys == {a, b, c, d, e} && Plain(w.nodes[a], 1, l) && w.nodes[a].role == Leader
    requires Fresh(w.nodes[b]) && Plain(w.nodes[c], 1, []) && Plain(w.nodes[d], 1, []) && Fresh(w.nodes[e])
    requires |l| == 2 && forall j | 0 <= j < 2 :: l[j].term == 1 && l[j].command == X
    ensures LeadsAlone(w, a, 1, l) && Twice(l, 1, X)
  {
    assert l[0].index == 1 && l[1].index == 2;
  }

  /** It writes two entries and offers them. */
  lemma OldLeader(a: Id, b: Id, c: Id, d: Id, e: Id) returns (states: seq<State>, events: seq<Event>, w: State, l: Log)
    requires AllDiffer(a, b, c, d, e)
    ensures Ends(states, events, w) && Formed(w) && w.nodes.Keys == {a, b, c, d, e} && |w.nodes| == 5
    ensures LeadsAlone(w, a, 1, l) && Twice(l, 1, X)
    ensures Offered(w, a, 1, l, d) && w.nodes[a].commit == 0 && Fresh(w.nodes[b]) && Fresh(w.nodes[e])
    ensures Plain(w.nodes[c], 1, []) && Plain(w.nodes[d], 1, []) && w.nodes[d].commit == 0
  {
    var st, ev, w0 := OldElected(a, b, c, d, e);
    var st1, ev1, w1, l1 := WritesMore(st, ev, w0, a, 1, 2, X);
    l := l1;
    states, events, w := Offers(st1, ev1, w1, a, 1, l);
    assert Offered(w, a, 1, l, d);
    NobodyLater(w, a, b, c, d, e, l);
  }

  /** b leads term 2 with the votes of c and e. */
  lemma NewElected(a: Id, b: Id, c: Id, d: Id, e: Id) returns (states: seq<State>, events: seq<Event>, w: State, l: Log, h: nat)
    requires AllDiffer(a, b, c, d, e)
    ensures h < |states| && LeadsAlone(states[h], a, 1, l) && Twice(l, 1, X)
    ensures Ends(states, events, w) && Formed(w) && w.nodes.Keys == {a, b, c, d, e} && |w.nodes| == 5
    ensures Offered(w, a, 1, l, d) && w.nodes[a].commit == 0
    ensures Leads(w.nodes[b], 2, []) && w.nodes[b].commit == 0 && Plain(w.nodes[c], 2, []) && Plain(w.nodes[e], 2, [])
    ensures Plain(w.nodes[d], 1, []) && w.nodes[d].commit == 0
  {
    var st, ev, w0, l0 := OldLeader(a, b, c, d, e);
    var st1, ev1, w1 := Stands(st, ev, w0, b, 0, []);
    states, events, w := ElectsOfFive(st1, ev1, w1, b, 1, c, 1, e, 0);
    l, h := l0, |ev|;
    assert states[h] == w0;
  }

  const Y: Command := Put("k", "w")

  /** It commits two entries of its own. */
  lemma NewLeader(a: Id, b: Id, c: Id, d: Id, e: Id) returns (states: seq<State>, events: seq<Event>, w: State, l: Log, m: Log, h: nat)
    requires AllDiffer(a, b, c, d, e)
    ensures h < |states| && LeadsAlone(states[h], a, 1, l) && Twice(l, 1, X)
    ensures Ends(states, events, w) && w.nodes.Keys == {a, b, c, d, e}
    ensures Offered(w, a, 1, l, d) && w.nodes[a].commit == 0
    ensures Plain(w.nodes[b], 2, m) && Twice(m, 2, Y) && w.nodes[b].commit == 2
    ensures w.nodes[c].term == 2 && w.nodes[e].term == 2 && Plain(w.nodes[d], 1, []) && w.nodes[d].commit == 0
  {
    var st, ev, w0, l0, h0 := NewElected(a, b, c, d, e);
    var st1, ev1, w1, m1 := WritesMore(st, ev, w0, b, 2, 2, Y);
    l, m, h := l0, m1, h0;
    states, events, w := ReplicatesInFive(st1, ev1, w1, b, 2, m, c, e);
  }

  lemma {:induction false} CommitStays(n: NodeState, req: AppendRequest)
    requires req.commit <= n.commit
    ensures HandleAppend(n, req).0.commit == n.commit
  {
    HeedStays(n, req.term, req.leader);
    AnswerStays(FollowLeader(ObserveTerm(n, req.term), req.leader), req);
  }

  lemma HeedStays(n: NodeState, t: nat, leader: Id)
    ensures ObserveTerm(n, t).commit == n.commit && FollowLeader(ObserveTerm(n, t), leader).commit == n.commit
  {
  }

  lemma {:induction false} AnswerStays(n: NodeState, req: AppendRequest)
    requires req.commit <= n.commit
    ensures AnswerLeader(n, req).0.commit == n.commit
  {
    MergeFrame(n, req.prevIndex, req.entries);
  }

  /**
    A run of five nodes after which d meets every condition but the one on its term, and a request of the
    leader it last followed is still on its way.  Adopting the file and then taking that request leaves
    d, within what it has committed, with an entry of another term than the one everybody else has.
   */
  lemma AdoptedThenCut(a: Id, b: Id, c: Id, d: Id, e: Id)
    returns (states: seq<State>, events: seq<Event>, w: State, f: File, req: AppendRequest)
    requires AllDiffer(a, b, c, d, e)
    ensures Ends(states, events, w) && d in w.nodes && Send(a, d, req) in w.net
    ensures Ahead(w, d, f) && LastIndex(w.nodes[d]) <= f.index && !Vouched(w, d, f)
    ensures var d' := HandleAppend(CaughtUp(w.nodes[d], f), req).0;
      && f.index <= d'.commit && f.index <= |w.chosen|
      && EntryAt(d', f.index).Some? && EntryAt(d', f.index).value.term != w.chosen[f.index - 1].term
  {
    var l, m, h;
    states, events, w, l, m, h := NewLeader(a, b, c, d, e);
    f := FileAt(states, events, w, b, 2, m, 2);
    req := AppendRequest(1, a, 0, 0, l, 0);
    assert w.nodes[d].applied == 0 by { StateMachineSafety(states, events, |events|, d); }
    CutAfter(w.nodes[d], f, req);
  }

  /** What the request of another term makes of the adopted entry. */
  lemma CutAfter(s: NodeState, f: File, req: AppendRequest)
    requires f.index > 0 && req.term >= s.term && req.commit == 0 && Cuts(f, req.prevIndex, req.entries)
    ensures var s' := HandleAppend(CaughtUp(s, f), req).0;
      f.index <= s'.commit && EntryAt(s', f.index).Some? && EntryAt(s', f.index).value.term != f.term
  {
    AnchorAfter(s, f, req);
    CommitStays(CaughtUp(s, f), req);
  }

  // ---- A log longer than the file -----------------------------------------------------------------------

  /** a leads term 1 with b's vote and commits three entries, which b has acknowledged. */
  lemma ThreeCommitted(a: Id, b: Id, c: Id) returns (states: seq<State>, events: seq<Event>, w: State, l: Log)
    requires a != b && a != c && b != c
    ensures Ends(states, events, w) && Formed(w) && w.nodes.Keys == {a, b, c} && |w.nodes| == 3
    ensures |l| == 3 && l[1].term == 1 && Plain(w.nodes[a], 1, l) && w.nodes[a].commit == 3 && Acked(w, a, 1, l, b)
    ensures Plain(w.nodes[b], 1, l) && w.nodes[b].role == Follower && w.nodes[b].commit == 0 && Fresh(w.nodes[c])
  {
    var st, ev, w0 := StartsThree(a, b, c);
    var st1, ev1, w1 := FirstElected(st, ev, w0, a, b);
    var st2, ev2, w2, l2 := WritesMore(st1, ev1, w1, a, 1, 3, X);
    l := l2;
    states, events, w := Replicates(st2, ev2, w2, a, 1, l, b);
  }

  /** b once it has adopted the file, stood for election and heard one vote. */
  function AfterAdopting(s: NodeState, f: File): NodeState {
    var s1 := StartElection(CaughtUp(s, f));
    HandleVoteReply(s1, s1.term, VoteReply(s1.term, true))
  }

  /**
    A run of three nodes after which b meets every condition but the one on the length of its log: it has
    acknowledged an entry beyond the file, and that entry is committed.  Once it has adopted the file, c,
    whose log is empty, votes for it, and it leads without the entry.
   */
  lemma AdoptedThenLeads(a: Id, b: Id, c: Id) returns (states: seq<State>, events: seq<Event>, w: State, l: Log, f: File)
    requires a != b && a != c && b != c
    ensures Ends(states, events, w) && a in w.nodes && b in w.nodes && c in w.nodes
    ensures Ahead(w, b, f) && Vouched(w, b, f) && f.index < LastIndex(w.nodes[b])
    ensures Acked(w, a, w.nodes[a].term, l, b) && f.index < |l| == w.nodes[a].commit
    ensures HandleVote(w.nodes[c], VoteRequestOf(StartElection(CaughtUp(w.nodes[b], f)))).1 == VoteReply(w.nodes[b].term + 1, true)
    ensures var b' := AfterAdopting(w.nodes[b], f);
      b'.role == Leader && b'.term > w.nodes[a].term && LastIndex(b') < w.nodes[a].commit
  {
    states, events, w, l := ThreeCommitted(a, b, c);
    f := FileAt(states, events, w, a, 1, l, 2);
    assert w.nodes[b].applied == 0 by { StateMachineSafety(states, events, |events|, b); }
    OtherIsPeer(w, b, c);
    ShortBid(w.nodes[b], w.nodes[c], f);
  }

  lemma ShortBid(b: NodeState, c: NodeState, f: File)
    requires b.role == Follower && |b.peers| == 2 && f.index > 0 && f.term > 0 && Fresh(c)
    ensures var b1 := StartElection(CaughtUp(b, f));
      && HandleVote(c, VoteRequestOf(b1)).1 == VoteReply(b.term + 1, true)
      && AfterAdopting(b, f).role == Leader && AfterAdopting(b, f).term == b.term + 1 && LastIndex(AfterAdopting(b, f)) == f.index
  {
  }
}
