/** The replicated key-value map and its value after replaying a stretch of log. */
module KeyValue {
  import opened Types

  type Store = map<string, string>

  /** One committed command; a payload that does not decode is skipped. */
  function Apply(m: Store, c: Command): Store {
    match c
    case Put(k, v) => m[k := v]
    case Update(k, v) => m[k := v]
    case Delete(k) => m - {k}
    case Unreadable => m
  }

  /** The map after applying the entries of l, oldest first. */
  function Replay(m: Store, l: Log): Store {
    if l == [] then m else Apply(Replay(m, l[..|l| - 1]), l[|l| - 1].command)
  }

  lemma {:induction false} ReplayOne(m: Store, l: Log, e: Entry)
    ensures Replay(m, l + [e]) == Apply(Replay(m, l), e.command)
  {
    assert (l + [e])[..|l|] == l;
  }

  lemma {:induction false} ReplayConcat(m: Store, a: Log, b: Log)
    ensures Replay(m, a + b) == Replay(Replay(m, a), b)
    decreases |b|
  {
    if b == [] {
      assert a + b == a;
    } else {
      ReplayConcat(m, a, b[..|b| - 1]);
      assert (a + b)[..|a + b| - 1] == a + b[..|b| - 1];
    }
  }

  lemma {:induction false} ReplayCons(m: Store, e: Entry, l: Log)
    ensures Replay(m, [e] + l) == Replay(Apply(m, e.command), l)
  {
    ReplayConcat(m, [e], l);
    ReplayOne(m, [], e);
    assert [] + [e] == [e];
  }

  function KeyOf(c: Command): Option<string> {
    match c
    case Put(k, _) => Some(k)
    case Update(k, _) => Some(k)
    case Delete(k) => Some(k)
    case Unreadable => None
  }

  predicate Mentions(l: Log, k: string) {
    exists i :: 0 <= i < |l| && KeyOf(l[i].command) == Some(k)
  }

  predicate SameAt(m: Store, m': Store, k: string) {
    (k in m <==> k in m') && (k in m ==> m[k] == m'[k])
  }

  /** A key's value after a replay depends on the start only if no entry mentions it. */
  lemma {:induction false} ReplayAt(m: Store, m': Store, l: Log, k: string)
    requires Mentions(l, k) || SameAt(m, m', k)
    ensures SameAt(Replay(m, l), Replay(m', l), k)
    decreases |l|
  {
    if l != [] {
      var front, c := l[..|l| - 1], l[|l| - 1].command;
      if KeyOf(c) != Some(k) {
        if Mentions(l, k) {
          var i :| 0 <= i < |l| && KeyOf(l[i].command) == Some(k);
          assert KeyOf(front[i].command) == Some(k);
        }
        ReplayAt(m, m', front, k);
      }
    }
  }

  lemma MentionsInLonger(p: Log, l: Log, k: string)
    requires p <= l
    ensures Mentions(p, k) ==> Mentions(l, k)
  {
    if Mentions(p, k) {
      var i :| 0 <= i < |p| && KeyOf(p[i].command) == Some(k);
      assert KeyOf(l[i].command) == Some(k);
    }
  }

  lemma {:induction false} ReplayUnmentioned(m: Store, l: Log, k: string)
    requires !Mentions(l, k)
    ensures SameAt(m, Replay(m, l), k)
    decreases |l|
  {
    if l != [] {
      var front, c := l[..|l| - 1], l[|l| - 1].command;
      assert KeyOf(c) != Some(k);
      MentionsInLonger(front, l, k);
      ReplayUnmentioned(m, front, k);
    }
  }

  /** Entry i is the last one about the key. */
  predicate LastMention(l: Log, k: string, i: nat) {
    && i < |l| && KeyOf(l[i].command) == Some(k)
    && forall j | i < j < |l| :: KeyOf(l[j].command) != Some(k)
  }

  lemma {:induction false} SomeLastMention(l: Log, k: string, i: nat) returns (j: nat)
    requires i < |l| && KeyOf(l[i].command) == Some(k)
    ensures i <= j && LastMention(l, k, j)
  {
    j := |l| - 1;
    while KeyOf(l[j].command) != Some(k)
      invariant i <= j < |l| && forall x | j < x < |l| :: KeyOf(l[x].command) != Some(k)
      decreases j
    {
      j := j - 1;
    }
  }

  /** The key is as a command about it leaves it: gone after a delete, and otherwise with the command's value. */
  predicate LeftBy(m: Store, k: string, c: Command) {
    if c.Delete? then k !in m else (c.Put? || c.Update?) && k in m && m[k] == c.value
  }

  /** The last write wins: after a replay a key is as the last entry about it left it. */
  lemma {:induction false} LastWriteWins(m: Store, l: Log, k: string, i: nat)
    requires LastMention(l, k, i)
    ensures LeftBy(Replay(m, l), k, l[i].command)
    decreases |l|
  {
    var front := l[..|l| - 1];
    if i < |l| - 1 {
      assert LastMention(front, k, i);
      LastWriteWins(m, front, k, i);
    }
  }

  /** Replaying entries that the map already reflects, and then more, changes nothing but the "more". */
  lemma {:induction false} ReplayAgain(m: Store, s: Log, t: Log)
    ensures Replay(Replay(m, s), s + t) == Replay(m, s + t)
  {
    var a, b := Replay(Replay(m, s), s + t), Replay(m, s + t);
    forall k: string
      ensures SameAt(a, b, k)
    {
      MentionsInLonger(s, s + t, k);
      if !Mentions(s + t, k) { ReplayUnmentioned(m, s, k); }
      ReplayAt(Replay(m, s), m, s + t, k);
    }
    assert forall k: string {:trigger k in a} {:trigger k in b} :: SameAt(a, b, k);
  }
}
