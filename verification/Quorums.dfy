/** Majorities of a cluster and the counting facts the protocol rests on. */
module Quorums {
  import opened Types

  /** floor(n/2) + 1. */
  function QuorumSize(n: nat): nat {
    n / 2 + 1
  }

  predicate IsQuorum(s: set<Id>, all: set<Id>) {
    s <= all && |s| >= QuorumSize(|all|)
  }

  lemma SubsetSize(s: set<Id>, t: set<Id>)
    requires s <= t
    ensures |s| <= |t|
  {
    assert t == s + (t - s);
  }

  /** A superset of a quorum is a quorum. */
  lemma QuorumGrows(s: set<Id>, t: set<Id>, all: set<Id>)
    requires IsQuorum(s, all) && s <= t <= all
    ensures IsQuorum(t, all)
  {
    SubsetSize(s, t);
  }

  /** Two quorums of the same cluster share a member. */
  lemma QuorumsMeet(s: set<Id>, t: set<Id>, all: set<Id>) returns (n: Id)
    requires IsQuorum(s, all) && IsQuorum(t, all)
    ensures n in s && n in t
  {
    if s * t == {} {
      assert |s + t| == |s| + |t|;
      SubsetSize(s + t, all);
      assert false;
    }
    n :| n in s * t;
  }
}
