/**
  Repeated compactions: any sequence of ConfirmCompaction calls and local compactions amounts
  to one compaction to the highest target the node could accept.  And the placeholder a
  compaction leaves at the head of the log never gets into another node's log.
 */
module Compactions {
  import opened Types
  import opened NodeSpec
  import opened Window
  import opened NodeSim

  // ---- Compaction composes -----------------------------------------------------------

  /** Compacting to a and then further to b is compacting to b. */
  lemma CompactTwice(n: NodeState, a: File, b: File)
    requires n.offset < a.index < b.index <= LastIndex(n)
    ensures CompactTo(CompactTo(n, a), b) == CompactTo(n, b)
  {
    var n1 := CompactTo(n, a);
    assert n1.log == [AnchorOf(a)] + n.log[a.index - n.offset..] && LastIndex(n1) == LastIndex(n);
    assert n1.log[b.index - n1.offset..] == n.log[b.index - n.offset..];
  }

  /** One attempt: the target named in the call and the snapshot file that comes with it. */
  datatype Attempt = Attempt(target: nat, file: File)

  function Run(n: NodeState, attempts: seq<Attempt>): NodeState {
    if attempts == [] then n
    else Confirm(Run(n, attempts[..|attempts| - 1]), attempts[|attempts| - 1].target, attempts[|attempts| - 1].file)
  }

  /** The node as it is now could compact with this attempt: beyond its anchor, no further than applied, and with its file. */
  predicate Usable(n: NodeState, a: Attempt) {
    n.offset + 1 < a.target <= n.applied && a.file.index == a.target
  }

  /** After a confirmation of anything applied the anchor covers it; of anything else, nothing has changed. */
  lemma ConfirmCovers(n: NodeState, target: nat, f: File)
    requires n.applied <= LastIndex(n)
    ensures var n' := Confirm(n, target, f);
      && (n' != n ==> n' == CompactTo(n, f) && n'.offset + 1 == target == f.index)
      && (target <= n'.offset + 1 <==> target <= n.offset + 1 || (target <= n.applied && f.index == target))
  {
  }

  /** One of the usable attempts has the highest target. */
  predicate Highest(n: NodeState, attempts: seq<Attempt>, k: nat) {
    && k < |attempts| && Usable(n, attempts[k])
    && forall j | 0 <= j < |attempts| && Usable(n, attempts[j]) :: attempts[j].target <= attempts[k].target
  }

  predicate SomeUsable(n: NodeState, attempts: seq<Attempt>) {
    exists j :: 0 <= j < |attempts| && Usable(n, attempts[j])
  }

  /** Whatever the order, the node ends up where the highest usable target alone would have brought it. */
  lemma {:induction false} RunIsHighest(n: NodeState, attempts: seq<Attempt>) returns (k: nat)
    requires n.applied <= LastIndex(n)
    ensures if SomeUsable(n, attempts) then Highest(n, attempts, k) && Run(n, attempts) == CompactTo(n, attempts[k].file)
            else Run(n, attempts) == n
    decreases |attempts|
  {
    k := 0;
    if attempts != [] {
      var front, last := attempts[..|attempts| - 1], attempts[|attempts| - 1];
      assert attempts == front + [last];
      k := RunIsHighest(n, front);
      if SomeUsable(n, front) {
        OneMore(n, front[k].file, last);
        HighestOn(n, front, k, last);
        if Usable(n, last) && last.target > front[k].target { k := |front|; }
      } else {
        ConfirmUsable(n, last);
        NoneBefore(n, front, last);
        if Usable(n, last) { k := |front|; }
      }
    }
  }

  lemma NoneBefore(n: NodeState, front: seq<Attempt>, last: Attempt)
    requires !SomeUsable(n, front)
    ensures if Usable(n, last) then Highest(n, front + [last], |front|) else !SomeUsable(n, front + [last])
  {
    assert forall j | 0 <= j < |front| :: (front + [last])[j] == front[j];
  }

  lemma ConfirmUsable(n: NodeState, a: Attempt)
    ensures Confirm(n, a.target, a.file) == if Usable(n, a) then CompactTo(n, a.file) else n
  {
  }

  lemma HighestOn(n: NodeState, front: seq<Attempt>, k: nat, last: Attempt)
    requires Highest(n, front, k)
    ensures SomeUsable(n, front + [last]) && Highest(n, front + [last], if Usable(n, last) && last.target > front[k].target then |front| else k)
  {
  }

  lemma OneMore(n: NodeState, f: File, a: Attempt)
    requires n.offset + 1 < f.index <= n.applied <= LastIndex(n)
    ensures Confirm(CompactTo(n, f), a.target, a.file) ==
      if Usable(n, a) && a.target > f.index then CompactTo(n, a.file) else CompactTo(n, f)
  {
    CompactShape(n, f);
    if Usable(n, a) && a.target > f.index { CompactTwice(n, f, a.file); }
  }

  lemma CompactShape(n: NodeState, f: File)
    requires n.offset < f.index <= LastIndex(n)
    ensures var n1 := CompactTo(n, f); n1.offset == f.index - 1 && n1.applied == n.applied && LastIndex(n1) == LastIndex(n)
  {
  }

  /** The offset only grows, and stays below what is applied. */
  lemma {:induction false} OffsetGrows(n: NodeState, attempts: seq<Attempt>)
    requires n.applied <= LastIndex(n)
    ensures n.offset <= Run(n, attempts).offset
    ensures Run(n, attempts).offset == n.offset || Run(n, attempts).offset < n.applied
  {
    var k := RunIsHighest(n, attempts);
    if exists j :: 0 <= j < |attempts| && Usable(n, attempts[j]) { CompactShape(n, attempts[k].file); }
  }

  /** With one file per index, the order of the attempts does not matter. */
  lemma {:induction false} OrderIrrelevant(n: NodeState, a: seq<Attempt>, b: seq<Attempt>)
    requires n.applied <= LastIndex(n) && multiset(a) == multiset(b)
    requires forall x, y | x in a && y in a && x.target == y.target :: x.file == y.file
    ensures Run(n, a) == Run(n, b)
  {
    var j := RunIsHighest(n, a);
    var k := RunIsHighest(n, b);
    SameMembers(a, b);
    if exists i :: 0 <= i < |a| && Usable(n, a[i]) {
      var i :| 0 <= i < |a| && Usable(n, a[i]);
      assert a[i] in b;
      assert a[j] in b && b[k] in a;
    } else {
      forall i | 0 <= i < |b|
        ensures !Usable(n, b[i])
      {
        assert b[i] in a;
      }
    }
  }

  lemma SameMembers(a: seq<Attempt>, b: seq<Attempt>)
    requires multiset(a) == multiset(b)
    ensures forall x :: x in a <==> x in b
  {
    assert forall x :: (x in a <==> x in multiset(a)) && (x in b <==> x in multiset(b));
  }

  // ---- The placeholder --------------------------------------------------------------------

  /** The request a compacted leader builds for a peer it clamps to the start of its window. */
  predicate HeadedByAnchor(s: NodeState, req: AppendRequest) {
    && Anchored(s) && s.log != [] && req.prevIndex == s.offset && req.prevTerm == TermOf(s, s.offset)
    && req.entries != [] && req.entries[0] == s.log[0]
  }

  /** Clamping always produces such a request. */
  lemma ClampedRequest(s: NodeState, peer: Id)
    requires Anchored(s) && s.log != [] && NextFor(s, peer) == s.offset + 1
    ensures HeadedByAnchor(s, RequestFor(s, peer))
  {
  }

  /** Terms are positive, and anchors at the same index have the same term. */
  predicate Compatible(s: NodeState, f: NodeState) {
    && (forall k | 0 <= k < |f.log| :: f.log[k].term > 0)
    && (Anchored(f) ==> f.log != [])
    && (!Anchored(f) ==> f.offset == 0)
    && (Anchored(f) && f.offset == s.offset && s.log != [] ==> f.log[0].term == s.log[0].term)
  }

  /** Every follower turns the request a leader builds from there down, or skips its first entry. */
  lemma AnchorSkipped(s: NodeState, f: NodeState, peer: Id)
    requires Anchored(s) && s.log != [] && s.offset > 0 && NextFor(s, peer) == s.offset + 1 && Compatible(s, f)
    ensures var req := RequestFor(s, peer);
      req.entries[..1] == [s.log[0]] && (Conflict(f, req).Some? || Divergence(f, req.prevIndex, req.entries, 0) >= 1)
  {
    ClampedRequest(s, peer);
    HeadSkipped(s, f, RequestFor(s, peer));
  }

  lemma {:induction false} HeadSkipped(s: NodeState, f: NodeState, req: AppendRequest)
    requires HeadedByAnchor(s, req) && s.offset > 0 && Compatible(s, f)
    ensures Conflict(f, req).Some? || Divergence(f, req.prevIndex, req.entries, 0) >= 1
  {
    if Conflict(f, req).None? {
      assert req.prevTerm == 0 && req.prevIndex <= f.offset;
      DivergenceFrom(f, req.prevIndex, req.entries, 1);
      assert Divergence(f, req.prevIndex, req.entries, 0) == Divergence(f, req.prevIndex, req.entries, 1);
    }
  }

  lemma {:induction false} DivergenceFrom(n: NodeState, prev: nat, entries: Log, i: nat)
    requires i <= |entries|
    ensures i <= Divergence(n, prev, entries, i) <= |entries|
    decreases |entries| - i
  {
    if i < |entries| { DivergenceFrom(n, prev, entries, i + 1); }
  }

  /** So whatever the follower holds at the anchor's index it keeps, and nothing if it holds nothing there. */
  lemma AnchorNotReplicated(s: NodeState, f: NodeState, peer: Id)
    requires Anchored(s) && s.log != [] && s.offset > 0 && NextFor(s, peer) == s.offset + 1 && Compatible(s, f)
    ensures EntryAt(HandleAppend(f, RequestFor(s, peer)).0, s.offset + 1) == EntryAt(f, s.offset + 1)
  {
    ClampedRequest(s, peer);
    HandleSkips(s, f, RequestFor(s, peer));
  }

  lemma {:induction false} HandleSkips(s: NodeState, f: NodeState, req: AppendRequest)
    requires HeadedByAnchor(s, req) && s.offset > 0 && Compatible(s, f)
    ensures EntryAt(HandleAppend(f, req).0, s.offset + 1) == EntryAt(f, s.offset + 1)
  {
    HeedKeepsWindow(f, req);
    AnswerSkips(s, FollowLeader(ObserveTerm(f, req.term), req.leader), req);
  }

  lemma HeedKeepsWindow(f: NodeState, req: AppendRequest)
    ensures var f1 := ObserveTerm(f, req.term); f1.log == f.log && f1.offset == f.offset
    ensures var f2 := FollowLeader(ObserveTerm(f, req.term), req.leader);
      f2.log == f.log && f2.offset == f.offset && f2.disk.snapshot == f.disk.snapshot
  {
  }

  lemma {:induction false} AnswerSkips(s: NodeState, f: NodeState, req: AppendRequest)
    requires HeadedByAnchor(s, req) && s.offset > 0 && Compatible(s, f)
    ensures EntryAt(AnswerLeader(f, req).0, s.offset + 1) == EntryAt(f, s.offset + 1)
  {
    if Conflict(f, req).None? {
      MergeSkips(s, f, req);
      var f1 := MergeEntries(f, req.prevIndex, req.entries);
      ApplyKeeps(f1.(commit := Min(req.commit, LastIndex(f1))));
    }
  }

  lemma {:induction false} MergeSkips(s: NodeState, f: NodeState, req: AppendRequest)
    requires HeadedByAnchor(s, req) && s.offset > 0 && Compatible(s, f) && Conflict(f, req).None?
    ensures EntryAt(MergeEntries(f, req.prevIndex, req.entries), s.offset + 1) == EntryAt(f, s.offset + 1)
  {
    HeadSkipped(s, f, req);
    var d := Divergence(f, req.prevIndex, req.entries, 0);
    MergeIs(f, req.prevIndex, req.entries);
    AcceptedBelow(s, f, req);
    if d < |req.entries| { CutAbove(f, s.offset + 1, req.prevIndex + d + 1, req.entries[d..]); }
  }

  lemma AcceptedBelow(s: NodeState, f: NodeState, req: AppendRequest)
    requires HeadedByAnchor(s, req) && s.offset > 0 && Compatible(s, f) && Conflict(f, req).None?
    ensures s.offset <= f.offset && f.log != []
  {
  }

  /** Cutting and appending above an index the window still covers does not touch it. */
  lemma CutAbove(f: NodeState, index: nat, cut: nat, tail: Log)
    requires index < cut && index <= f.offset + 1 && f.log != []
    ensures EntryAt(AppendToLog(TruncateFrom(f, cut), tail), index) == EntryAt(f, index)
  {
  }

  /** With the anchor at index 1 there is nothing to check, and a fresh follower takes the placeholder for an entry. */
  lemma AnchorAtOneReplicated(s: NodeState, f: NodeState, peer: Id)
    requires Anchored(s) && s.offset == 0 && s.log != [] && NextFor(s, peer) == 1 && f.log == [] && f.offset == 0
    ensures var req := RequestFor(s, peer);
      Conflict(f, req).None? && EntryAt(MergeEntries(f, req.prevIndex, req.entries), 1) == Some(s.log[0])
  {
  }
}
