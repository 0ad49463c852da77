/**
  The protocol over full, uncompacted logs, reduced to the few atomic changes a
  handler can make to one node.  Members remember every vote, every acknowledged
  prefix and every log they campaigned with; a reign is the history of one term's
  leadership: who led, the log it built, and how far it decided commitment.
 */
module RaftModel {
  import opened Types
  import opened Quorums

  datatype Member = Member(
    term: nat,
    role: Role,
    log: Log,
    commit: nat,
    votes: map<nat, Id>,    // term -> candidate voted for
    acks: map<nat, nat>,    // term -> length of that term's leader log acknowledged
    bids: map<nat, Log>)    // term -> own log when campaigning in it

  datatype Reign = Reign(leader: Id, log: Log, decided: nat)

  datatype Model = Model(members: map<Id, Member>, reigns: map<nat, Reign>)

  function Acked(m: Member, t: nat): nat {
    if t in m.acks then m.acks[t] else 0
  }

  function VotesFor(s: Model, t: nat, c: Id): set<Id> {
    set n | n in s.members && t in s.members[n].votes && s.members[n].votes[t] == c
  }

  /** Members that acknowledged the first i entries of term t's leader. */
  function AckSet(s: Model, t: nat, i: nat): set<Id> {
    set n | n in s.members && Acked(s.members[n], t) >= i
  }

  /** Members that acknowledged, or still could acknowledge, those i entries. */
  function Able(s: Model, t: nat, i: nat): set<Id> {
    set n | n in s.members && (s.members[n].term <= t || Acked(s.members[n], t) >= i)
  }

  /** Index i of term t's leader log holds an entry of term t itself. */
  predicate OwnTerm(s: Model, t: nat, i: nat) {
    t in s.reigns && 0 < i <= |s.reigns[t].log| && s.reigns[t].log[i - 1].term == t
  }

  /** A quorum may yet acknowledge the first i entries of term t's leader. */
  predicate Choosable(s: Model, t: nat, i: nat) {
    IsQuorum(Able(s, t, i), s.members.Keys)
  }

  /** p is covered by what some leader of a term up to t decided. */
  ghost predicate Endorsed(s: Model, p: Log, t: nat) {
    p == [] || exists u: nat :: u <= t && EndorsedBy(s, p, u)
  }

  predicate EndorsedBy(s: Model, p: Log, u: nat) {
    && u in s.reigns && s.reigns[u].decided <= |s.reigns[u].log|
    && p <= s.reigns[u].log[..s.reigns[u].decided]
  }

  // ---- The inductive invariant -------------------------------------------------

  /** Entry k carries its index, and everything up to it is what its term's leader had. */
  predicate EntryOk(s: Model, l: Log, k: nat)
    requires k < |l|
  {
    l[k].index == k + 1 && l[k].term in s.reigns && l[..k + 1] <= s.reigns[l[k].term].log
  }

  predicate LogOk(s: Model, l: Log) {
    forall k {:trigger EntryOk(s, l, k)} | 0 <= k < |l| :: EntryOk(s, l, k)
  }

  predicate AtMost(l: Log, t: int) {
    forall k | 0 <= k < |l| :: l[k].term <= t
  }

  predicate VotesOk(s: Model, m: Member) {
    forall t | t in m.votes :: 1 <= t <= m.term && m.votes[t] in s.members && t in s.members[m.votes[t]].bids
  }

  predicate AcksOk(s: Model, m: Member) {
    forall t | t in m.acks :: t <= m.term && t in s.reigns && m.acks[t] <= |s.reigns[t].log|
  }

  /** In its current term a member still holds what it acknowledged. */
  predicate HoldsOwnAck(s: Model, m: Member) {
    m.term in m.acks ==> Holds(s, m.term, m.acks[m.term], m.log)
  }

  predicate BidsOk(s: Model, m: Member) {
    forall t | t in m.bids :: 1 <= t <= m.term && LogOk(s, m.bids[t]) && AtMost(m.bids[t], t - 1)
  }

  /** A candidate has the log it campaigned with, or has replaced it since by a decided one at least as long. */
  ghost predicate BidKept(s: Model, m: Member, bid: Log) {
    m.log == bid || (|bid| <= |m.log| && Endorsed(s, m.log, m.term))
  }

  ghost predicate RoleOk(s: Model, n: Id, m: Member) {
    && (m.role == Leader ==>
          && m.term in s.reigns && s.reigns[m.term].leader == n
          && s.reigns[m.term].log == m.log && s.reigns[m.term].decided <= m.commit
          && Acked(m, m.term) == |m.log|)
    && (m.role == Candidate ==>
          && m.term in m.bids && BidKept(s, m, m.bids[m.term])
          && m.term in m.votes && m.votes[m.term] == n
          && !(m.term in s.reigns && s.reigns[m.term].leader == n))
  }

  ghost predicate CommitOk(s: Model, m: Member) {
    m.commit <= |m.log| && Endorsed(s, m.log[..m.commit], m.term)
  }

  ghost predicate MemberOk(s: Model, n: Id)
    requires n in s.members
  {
    var m := s.members[n];
    && LogOk(s, m.log) && AtMost(m.log, m.term)
    && VotesOk(s, m) && AcksOk(s, m) && BidsOk(s, m) && HoldsOwnAck(s, m)
    && RoleOk(s, n, m) && CommitOk(s, m)
  }

  predicate ReignOk(s: Model, t: nat)
    requires t in s.reigns
  {
    var r := s.reigns[t];
    && 1 <= t && LogOk(s, r.log) && AtMost(r.log, t)
    && r.leader in s.members && t <= s.members[r.leader].term
    && IsQuorum(VotesFor(s, t, r.leader), s.members.Keys)
    && r.decided <= |r.log|
    && (r.decided > 0 ==> OwnTerm(s, t, r.decided) && IsQuorum(AckSet(s, t, r.decided), s.members.Keys))
  }

  function LogOf(s: Model, n: Id): Log {
    if n in s.members then s.members[n].log else []
  }

  function LeaderLog(s: Model, t: nat): Log {
    if t in s.reigns then s.reigns[t].log else []
  }

  /** The log its chosen candidate campaigned with, for a member that voted in term u. */
  function BidFor(s: Model, n: Id, u: nat): Log {
    if n in s.members && u in s.members[n].votes then
      var c := s.members[n].votes[u];
      if c in s.members && u in s.members[c].bids then s.members[c].bids[u] else []
    else []
  }

  function AckOf(s: Model, n: Id, t: nat): nat {
    if n in s.members then Acked(s.members[n], t) else 0
  }

  /** p is the first i entries of term t's leader log. */
  predicate Holds(s: Model, t: nat, i: nat, l: Log) {
    i <= |LeaderLog(s, t)| && LeaderLog(s, t)[..i] <= l
  }

  predicate KeptByMember(s: Model, n: Id, t: nat, i: nat) {
    AckOf(s, n, t) >= i ==> Holds(s, t, i, LogOf(s, n))
  }

  predicate KeptByVote(s: Model, n: Id, u: nat, t: nat, i: nat) {
    t < u && AckOf(s, n, t) >= i ==> Holds(s, t, i, BidFor(s, n, u))
  }

  predicate KeptByReign(s: Model, u: nat, t: nat, i: nat) {
    t < u ==> Holds(s, t, i, LeaderLog(s, u))
  }

  /** A prefix that can still be chosen is held by all who acknowledged it and by every later leader. */
  predicate SafeAt(s: Model, t: nat, i: nat) {
    && (forall n {:trigger KeptByMember(s, n, t, i)} | n in s.members :: KeptByMember(s, n, t, i))
    && (forall n, u {:trigger KeptByVote(s, n, u, t, i)} | n in s.members && u in s.members[n].votes :: KeptByVote(s, n, u, t, i))
    && (forall u {:trigger KeptByReign(s, u, t, i)} | u in s.reigns :: KeptByReign(s, u, t, i))
  }

  ghost predicate Inv(s: Model) {
    && (forall n {:trigger MemberOk(s, n)} | n in s.members :: MemberOk(s, n))
    && (forall t {:trigger ReignOk(s, t)} | t in s.reigns :: ReignOk(s, t))
    && (forall t, i {:trigger SafeAt(s, t, i)} | OwnTerm(s, t, i) && Choosable(s, t, i) :: SafeAt(s, t, i))
  }

  // ---- What every step keeps -----------------------------------------------------

  ghost predicate MemberGrows(m: Member, m': Member) {
    && m.term <= m'.term
    && (forall t | t in m.votes :: t in m'.votes && m'.votes[t] == m.votes[t])
    && (forall t | t in m.bids :: t in m'.bids && m'.bids[t] == m.bids[t])
    && (forall t :: Acked(m, t) <= Acked(m', t))
    && (forall t :: Acked(m, t) < Acked(m', t) ==> m.term <= t)
  }

  predicate ReignGrows(r: Reign, r': Reign) {
    r'.leader == r.leader && r.log <= r'.log && r.decided <= r'.decided
  }

  ghost predicate Grows(s: Model, s': Model) {
    && s'.members.Keys == s.members.Keys
    && (forall n {:trigger MemberGrows(s.members[n], s'.members[n])} | n in s.members :: MemberGrows(s.members[n], s'.members[n]))
    && s.reigns.Keys <= s'.reigns.Keys
    && (forall t {:trigger ReignGrows(s.reigns[t], s'.reigns[t])} | t in s.reigns :: ReignGrows(s.reigns[t], s'.reigns[t]))
  }

  lemma GrowsTransitive(a: Model, b: Model, c: Model)
    requires Grows(a, b) && Grows(b, c)
    ensures Grows(a, c)
  {
    forall n | n in a.members
      ensures MemberGrows(a.members[n], c.members[n])
    {
      assert MemberGrows(a.members[n], b.members[n]) && MemberGrows(b.members[n], c.members[n]);
    }
    forall t | t in a.reigns
      ensures t in c.reigns && ReignGrows(a.reigns[t], c.reigns[t])
    {
      assert t in b.reigns && ReignGrows(a.reigns[t], b.reigns[t]) && ReignGrows(b.reigns[t], c.reigns[t]);
    }
  }

  // ---- Steps -----------------------------------------------------------------------

  predicate CanCampaign(s: Model, n: Id) {
    n in s.members && s.members[n].role != Leader
  }

  function Campaign(s: Model, n: Id): Model
    requires CanCampaign(s, n)
  {
    var m := s.members[n];
    var t := m.term + 1;
    s.(members := s.members[n := m.(term := t, role := Candidate, votes := m.votes[t := n], bids := m.bids[t := m.log])])
  }

  predicate CanObserve(s: Model, n: Id, t: nat) {
    n in s.members && s.members[n].term < t
  }

  function Observe(s: Model, n: Id, t: nat): Model
    requires CanObserve(s, n, t)
  {
    s.(members := s.members[n := s.members[n].(term := t, role := Follower)])
  }

  predicate UpToDate(candidate: Log, voter: Log) {
    if LastTerm(candidate) != LastTerm(voter) then LastTerm(candidate) > LastTerm(voter) else |candidate| >= |voter|
  }

  /** Of any two logs at least one is as up to date as the other, and of three they never go round in a circle. */
  lemma UpToDateOrders(a: Log, b: Log, c: Log)
    ensures UpToDate(a, b) || UpToDate(b, a)
    ensures UpToDate(a, b) && UpToDate(b, c) ==> UpToDate(a, c)
  {
  }

  predicate CanGrant(s: Model, n: Id, c: Id) {
    && n in s.members && c in s.members
    && var m := s.members[n];
    && (m.term in m.votes ==> m.votes[m.term] == c)
    && m.term in s.members[c].bids
    && UpToDate(s.members[c].bids[m.term], m.log)
  }

  function Grant(s: Model, n: Id, c: Id): Model
    requires CanGrant(s, n, c)
  {
    var m := s.members[n];
    s.(members := s.members[n := m.(votes := m.votes[m.term := c])])
  }

  predicate CanWin(s: Model, n: Id) {
    && n in s.members && s.members[n].role == Candidate
    && IsQuorum(VotesFor(s, s.members[n].term, n), s.members.Keys)
  }

  function Win(s: Model, n: Id): Model
    requires CanWin(s, n)
  {
    var m := s.members[n];
    Model(s.members[n := m.(role := Leader, acks := m.acks[m.term := |m.log|])],
          s.reigns[m.term := Reign(n, m.log, 0)])
  }

  predicate CanPropose(s: Model, n: Id, e: Entry) {
    && n in s.members && s.members[n].role == Leader
    && e.term == s.members[n].term && e.index == |s.members[n].log| + 1
    && s.members[n].term in s.reigns
  }

  function Propose(s: Model, n: Id, e: Entry): Model
    requires CanPropose(s, n, e)
  {
    var m := s.members[n];
    var log := m.log + [e];
    Model(s.members[n := m.(log := log, acks := m.acks[m.term := |log|])],
          s.reigns[m.term := s.reigns[m.term].(log := log)])
  }

  /** Replacing the log by the leader's first j entries, never cutting into what the two logs share. */
  ghost predicate CanAdopt(s: Model, n: Id, j: nat) {
    && n in s.members && s.members[n].role != Leader && s.members[n].role != Candidate
    && s.members[n].term in s.reigns
    && var l := s.reigns[s.members[n].term].log;
    && j <= |l|
    && (forall i | 0 <= i <= |l| && l[..i] <= s.members[n].log :: i <= j)
  }

  ghost function Adopt(s: Model, n: Id, j: nat): Model
    requires CanAdopt(s, n, j)
  {
    var m := s.members[n];
    s.(members := s.members[n := m.(log := s.reigns[m.term].log[..j])])
  }

  predicate CanAck(s: Model, n: Id, k: nat) {
    && n in s.members && s.members[n].term in s.reigns
    && k <= |s.reigns[s.members[n].term].log|
    && s.reigns[s.members[n].term].log[..k] <= s.members[n].log
  }

  function Ack(s: Model, n: Id, k: nat): Model
    requires CanAck(s, n, k)
  {
    var m := s.members[n];
    s.(members := s.members[n := m.(acks := m.acks[m.term := Max(Acked(m, m.term), k)])])
  }

  /** The leader counts a quorum holding an entry of its own term. */
  predicate CanDecide(s: Model, n: Id, i: nat) {
    && n in s.members && s.members[n].role == Leader
    && s.members[n].commit < i
    && OwnTerm(s, s.members[n].term, i)
    && IsQuorum(AckSet(s, s.members[n].term, i), s.members.Keys)
  }

  function Decide(s: Model, n: Id, i: nat): Model
    requires CanDecide(s, n, i)
  {
    var m := s.members[n];
    Model(s.members[n := m.(commit := i)],
          s.reigns[m.term := s.reigns[m.term].(decided := i)])
  }

  ghost predicate CanSetCommit(s: Model, n: Id, i: nat) {
    && n in s.members && i <= |s.members[n].log| && (s.members[n].role == Leader ==> s.members[n].commit <= i)
    && Endorsed(s, s.members[n].log[..i], s.members[n].term)
  }

  ghost function SetCommit(s: Model, n: Id, i: nat): Model
    requires CanSetCommit(s, n, i)
  {
    s.(members := s.members[n := s.members[n].(commit := i)])
  }

  /** Replacing the log by a decided prefix at least as long. */
  ghost predicate CanInstall(s: Model, n: Id, p: Log) {
    && n in s.members && s.members[n].role != Leader && |s.members[n].log| <= |p|
    && Endorsed(s, p, s.members[n].term)
  }

  ghost function Install(s: Model, n: Id, p: Log): Model
    requires CanInstall(s, n, p)
  {
    s.(members := s.members[n := s.members[n].(log := p)])
  }

  predicate CanStepDown(s: Model, n: Id) {
    n in s.members
  }

  function StepDown(s: Model, n: Id): Model
    requires CanStepDown(s, n)
  {
    s.(members := s.members[n := s.members[n].(role := Follower)])
  }

  function Init(nodes: set<Id>): Model {
    Model(map n | n in nodes :: Member(0, Follower, [], 0, map[], map[], map[]), map[])
  }
}
