/**
  Fast log repair: how far one rejection moves the leader's nextIndex back.  The leader's
  early-exit scan is as good as a full one; the follower's scan from the end is not, and
  the rejections for which that costs the leader its progress are named exactly.
 */
module LogRepair {
  import opened Types
  import opened NodeSpec
  import opened Window
  import opened RaftModel
  import opened RaftSafety
  import opened Refinement
  import opened NodeSim
  import opened Expansion
  import opened Cluster
  import opened Safety

  predicate TermSorted(l: Log) {
    forall j, k | 0 <= j <= k < |l| :: l[j].term <= l[k].term
  }

  predicate HasTerm(l: Log, t: nat) {
    exists k :: 0 <= k < |l| && l[k].term == t
  }

  /** k is one past the last entry of term t, or 0 if there is none. */
  predicate EndOfTerm(l: Log, t: nat, k: nat) {
    && k <= |l| && (k > 0 ==> l[k - 1].term == t)
    && forall j | k <= j < |l| :: l[j].term != t
  }

  /** k is the position of the first entry of term t. */
  predicate StartOfTerm(l: Log, t: nat, k: nat) {
    k < |l| && l[k].term == t && forall j | 0 <= j < k :: l[j].term != t
  }

  // ---- The two scans ------------------------------------------------------------------

  lemma SortedFront(l: Log)
    requires TermSorted(l) && l != []
    ensures TermSorted(l[..|l| - 1])
  {
  }

  /** Giving up at the first smaller term loses nothing on a term-sorted log. */
  lemma {:induction false} EarlyExitIsFullScan(l: Log, t: nat)
    requires TermSorted(l)
    ensures EndOfTerm(l, t, ScanBack(l, t))
  {
    if l != [] && l[|l| - 1].term > t {
      var front := l[..|l| - 1];
      SortedFront(l);
      EarlyExitIsFullScan(front, t);
      assert forall j | ScanBack(front, t) <= j < |front| :: l[j] == front[j];
    }
  }

  lemma {:induction false} TailRunIs(l: Log, t: nat)
    ensures var k := TailRun(l, t);
      k <= |l| && (forall j | k <= j < |l| :: l[j].term == t) && (k > 0 ==> l[k - 1].term != t)
  {
    if l != [] && l[|l| - 1].term == t {
      var front := l[..|l| - 1];
      TailRunIs(front, t);
      assert forall j | 0 <= j < |front| :: l[j] == front[j];
    }
  }

  /** The scan from the end finds the first entry of a term exactly when it is the last term of the log. */
  lemma {:induction false} TailScanRight(l: Log, t: nat)
    requires TermSorted(l)
    ensures StartOfTerm(l, t, TailRun(l, t)) <==> l != [] && l[|l| - 1].term == t
    ensures l == [] || l[|l| - 1].term != t ==> TailRun(l, t) == |l|
  {
    TailRunIs(l, t);
  }

  // ---- One rejection --------------------------------------------------------------------

  /** Two logs that share a term share everything up to its earlier appearance. */
  ghost predicate SameOrigin(l: Log, w: Log) {
    forall j, k {:trigger l[j].term, w[k].term} | 0 <= k <= j < |l| && k < |w| && l[j].term == w[k].term :: l[k].term == w[k].term
  }

  lemma LogsSameOrigin(a: Model, l: Log, w: Log)
    requires LogOk(a, l) && LogOk(a, w)
    ensures SameOrigin(l, w)
  {
    forall j, k | 0 <= k <= j < |l| && k < |w| && l[j].term == w[k].term
      ensures l[k].term == w[k].term
    {
      assert EntryOk(a, l, j) && EntryOk(a, w, k);
      assert l[k] == l[..j + 1][k] && w[k] == w[..k + 1][k];
    }
  }

  lemma LogTermSorted(a: Model, l: Log)
    requires Inv(a) && LogOk(a, l)
    ensures TermSorted(l)
  {
    forall j, k | 0 <= j <= k < |l|
      ensures l[j].term <= l[k].term
    {
      TermsSorted(a, l, j, k);
    }
  }

  /** A rejection of prev by a log w: too short, or a term other than prevTerm there. */
  predicate Rejected(w: Log, prev: nat, prevTerm: nat, reply: AppendReply) {
    && prev > 0
    && if prev > |w| then reply.conflictIndex == |w| + 1 && reply.conflictTerm == 0
       else w[prev - 1].term != prevTerm && reply.conflictTerm == w[prev - 1].term
            && reply.conflictIndex == TailRun(w, w[prev - 1].term) + 1
  }

  /** The next index to try, from the leader's log. */
  function Next(l: Log, reply: AppendReply): nat {
    var last := ScanBack(l, reply.conflictTerm);
    Max(1, if reply.conflictTerm != 0 && last > 0 then last + 1 else reply.conflictIndex)
  }

  /**
    Handling a rejection moves nextIndex to or below the rejected prev exactly when the follower is
    too short, or the leader's entry at prev is not the follower's and the conflicting term is in
    the leader's log or the last of the follower's.
   */
  lemma OneRejection(l: Log, w: Log, prev: nat, prevTerm: nat, reply: AppendReply)
    requires TermSorted(l) && TermSorted(w) && SameOrigin(l, w) && forall k | 0 <= k < |w| :: w[k].term > 0
    requires Rejected(w, prev, prevTerm, reply)
    ensures 1 <= Next(l, reply)
    ensures Next(l, reply) <= prev <==> prev > |w| || Helpful(l, w, prev, reply.conflictTerm)
  {
    if prev <= |w| {
      var t := w[prev - 1].term;
      EarlyExitIsFullScan(l, t);
      TailRunIs(w, t);
      if HasTerm(l, t) { LeaderHasTerm(l, w, prev, ScanBack(l, t)); }
    }
  }

  predicate Helpful(l: Log, w: Log, prev: nat, t: nat) {
    TermAt(l, prev) != t && (HasTerm(l, t) || LastTerm(w) == t)
  }

  lemma LeaderHasTerm(l: Log, w: Log, prev: nat, last: nat)
    requires SameOrigin(l, w) && 0 < prev <= |w| && EndOfTerm(l, w[prev - 1].term, last) && HasTerm(l, w[prev - 1].term)
    ensures 0 < last && (last < prev || TermAt(l, prev) == w[prev - 1].term)
  {
    if last >= prev { assert l[last - 1].term == w[prev - 1].term; }
  }

  // ---- In every run ------------------------------------------------------------------------

  lemma PlainConflict(s: NodeState, w: Log, req: AppendRequest)
    requires !Anchored(s) && Shows(s, w) && Conflict(s, req).Some?
    ensures Rejected(w, req.prevIndex, req.prevTerm, Conflict(s, req).value)
  {
  }

  lemma RejectingLog(s: NodeState, w: Log, req: AppendRequest)
    requires !Anchored(s) && Shows(s, w) && s.term <= req.term && !HandleAppend(s, req).1.success
    ensures Rejected(w, req.prevIndex, req.prevTerm, HandleAppend(s, req).1)
  {
    var s1 := FollowLeader(ObserveTerm(s, req.term), req.leader);
    SameWindow(s, req);
    PlainConflict(s1, w, req);
  }

  lemma SameWindow(s: NodeState, req: AppendRequest)
    ensures var s1 := FollowLeader(ObserveTerm(s, req.term), req.leader);
      s1.log == s.log && s1.offset == s.offset && s1.disk.snapshot == s.disk.snapshot
  {
    ObserveKeepsWindow(s, req.term);
    FollowKeepsWindow(ObserveTerm(s, req.term), req.leader);
  }

  lemma PlainNext(s: NodeState, l: Log, reply: AppendReply)
    requires !Anchored(s) && Shows(s, l)
    ensures BackOff(s, reply) == Next(l, reply)
  {
  }

  lemma SentPrev(s: NodeState, l: Log, peer: Id)
    requires !Anchored(s) && Shows(s, l)
    ensures var req := RequestFor(s, peer); 0 < req.prevIndex <= |l| ==> l[req.prevIndex - 1].term == req.prevTerm
  {
  }

  /**
    Fast log repair makes progress: a request built at step h, turned down at step i by a follower
    of the leader's term or an older one, and the rejection handled at step j.  If the request did
    not overshoot the leader's log, the leader's own entry at prev is never the follower's.
   */
  lemma RepairProgress(states: seq<State>, events: seq<Event>, h: nat, i: nat, j: nat, n: Id, p: Id)
    requires IsRun(states, events) && h <= i <= j < |states|
    requires n in states[h].nodes && p in states[i].nodes && n in states[j].nodes
    requires var s, f, s' := states[h].nodes[n], states[i].nodes[p], states[j].nodes[n];
      && s.role == s'.role == Leader && s.term == s'.term && !Anchored(s) && !Anchored(f) && !Anchored(s')
      && f.term <= s.term && !HandleAppend(f, RequestFor(s, p)).1.success
    ensures var req, f, s' := RequestFor(states[h].nodes[n], p), states[i].nodes[p], states[j].nodes[n];
      var reply := HandleAppend(f, req).1;
      && 1 <= BackOff(s', reply)
      && (BackOff(s', reply) <= req.prevIndex <==>
            req.prevIndex > LastIndex(f) || Helpful(s'.log, f.log, req.prevIndex, reply.conflictTerm))
      && (req.prevIndex <= Min(LastIndex(states[h].nodes[n]), LastIndex(f)) ==>
            TermAt(s'.log, req.prevIndex) != reply.conflictTerm)
  {
    var models := RunFollows(states, events);
    assert StandsFor(states, models, h);
    assert StandsFor(states, models, i);
    assert StandsFor(states, models, j);
    var s, f, s' := states[h].nodes[n], states[i].nodes[p], states[j].nodes[n];
    assert NodeOk(models[h], states[h], n) && NodeOk(models[i], states[i], p) && NodeOk(models[j], states[j], n);
    GrowsAlong(states, events, models, h, j);
    GrowsAlong(states, events, models, i, j);
    LeaderAppends(models[h], models[j], n);
    assert MemberOk(models[i], p);
    LogOkStays(models[i], models[j], models[i].members[p].log);
    LogsInOrder(models[j], s'.log, f.log);
    RejectionHandled(s, f, s', p);
  }

  lemma RejectionHandled(s: NodeState, f: NodeState, s': NodeState, p: Id)
    requires !Anchored(s) && !Anchored(f) && !Anchored(s') && s.offset == f.offset == s'.offset == 0 && s.log <= s'.log
    requires f.term <= s.term && !HandleAppend(f, RequestFor(s, p)).1.success
    requires TermSorted(s'.log) && TermSorted(f.log) && SameOrigin(s'.log, f.log) && forall k | 0 <= k < |f.log| :: f.log[k].term > 0
    ensures var req := RequestFor(s, p); var reply := HandleAppend(f, req).1;
      && 1 <= BackOff(s', reply)
      && (BackOff(s', reply) <= req.prevIndex <==>
            req.prevIndex > LastIndex(f) || Helpful(s'.log, f.log, req.prevIndex, reply.conflictTerm))
      && (req.prevIndex <= Min(LastIndex(s), LastIndex(f)) ==> TermAt(s'.log, req.prevIndex) != reply.conflictTerm)
  {
    var req := RequestFor(s, p);
    var reply := HandleAppend(f, req).1;
    SentPrev(s, s.log, p);
    RejectingLog(f, f.log, req);
    PlainNext(s', s'.log, reply);
    OneRejection(s'.log, f.log, req.prevIndex, req.prevTerm, reply);
  }

  lemma LeaderAppends(a: Model, b: Model, n: Id)
    requires Inv(a) && Inv(b) && Grows(a, b) && n in a.members
    requires a.members[n].role == b.members[n].role == Leader && a.members[n].term == b.members[n].term
    ensures a.members[n].log <= b.members[n].log && LogOk(b, b.members[n].log)
  {
    assert MemberOk(a, n) && MemberOk(b, n);
    assert ReignGrows(a.reigns[a.members[n].term], b.reigns[a.members[n].term]);
  }

  lemma LogsInOrder(b: Model, l: Log, w: Log)
    requires Inv(b) && LogOk(b, l) && LogOk(b, w)
    ensures TermSorted(l) && TermSorted(w) && SameOrigin(l, w) && forall k | 0 <= k < |w| :: w[k].term > 0
  {
    LogTermSorted(b, l);
    LogTermSorted(b, w);
    LogsSameOrigin(b, l, w);
    forall k | 0 <= k < |w|
      ensures w[k].term > 0
    {
      TermPositive(b, w, k);
    }
  }

  /** Logs for which the condition fails: the leader's first two entries are of term 1, the follower's of terms 2 and 3. */
  predicate Apart(l: Log, w: Log) {
    && TermSorted(l) && |l| >= 2 && l[0].term == l[1].term == 1 && (forall k | 2 <= k < |l| :: l[k].term >= 4)
    && |w| == 2 && w[0].term == 2 && w[1].term == 3
  }

  /** A rejection at 2 sends the leader back to 2, and the one at 1 that follows sends it forward to 3 again. */
  lemma BackAndForth(l: Log, w: Log, prev: nat, reply: AppendReply)
    requires Apart(l, w) && (prev == 1 || prev == 2) && Rejected(w, prev, 1, reply)
    ensures Next(l, reply) == if prev == 2 then 2 else 3
  {
    EarlyExitIsFullScan(l, reply.conflictTerm);
    TailRunIs(w, reply.conflictTerm);
  }
}
