/**
 Membership of plugins in a manager.

 The manager keeps its plugins in an ordered list that may hold the same
 plugin more than once. Removing a plugin scans that list from the end and
 splices out the first identity match it meets, that is, the LAST occurrence
 of the plugin. `RemoveLast` is the specification of that scan.
 */
module Membership {

  /** `s` with its last occurrence of `x` taken out; `s` itself when `x` does not occur. */
  function RemoveLast<T(==)>(s: seq<T>, x: T): (r: seq<T>)
    ensures |r| == if x in s then |s| - 1 else |s|
    decreases |s|
  {
    if s == [] then []
    else if s[|s| - 1] == x then s[..|s| - 1]
    else
      assert s == s[..|s| - 1] + [s[|s| - 1]];
      RemoveLast(s[..|s| - 1], x) + [s[|s| - 1]]
  }

  /** Removing an element that is not there is a no-op. */
  lemma {:induction false} RemoveLastAbsent<T>(s: seq<T>, x: T)
    requires x !in s
    ensures RemoveLast(s, x) == s
  {
    if s != [] {
      var n := |s| - 1;
      RemoveLastAbsent(s[..n], x);
      assert s[..n] + [s[n]] == s;
    }
  }

  /**
   When `k` is the highest index holding `x`, exactly the element at `k` goes
   and the others keep their order.
   */
  lemma {:induction false} RemoveLastAt<T>(s: seq<T>, x: T, k: nat)
    requires k < |s| && s[k] == x && x !in s[k + 1..]
    ensures RemoveLast(s, x) == s[..k] + s[k + 1..]
    decreases |s|
  {
    var n := |s| - 1;
    if k < n {
      assert s[n] in s[k + 1..];
      var p := s[..n];
      assert p[k + 1..] + [s[n]] == s[k + 1..];
      assert x !in p[k + 1..];
      RemoveLastAt(p, x, k);
      assert p[..k] == s[..k];
    }
  }

  /** A plugin that occurs has a last occurrence. */
  lemma {:induction false} LastOccurrence<T>(s: seq<T>, x: T) returns (k: nat)
    requires x in s
    ensures k < |s| && s[k] == x && x !in s[k + 1..]
    decreases |s|
  {
    var n := |s| - 1;
    if s[n] == x {
      k := n;
    } else {
      assert s == s[..n] + [s[n]];
      assert x in s[..n];
      k := LastOccurrence(s[..n], x);
      assert s[k + 1..] == s[..n][k + 1..] + [s[n]];
    }
  }

  /** At most one element goes, and only a copy of `x`: the multiset loses one `x` if it had one. */
  lemma RemoveLastMultiset<T>(s: seq<T>, x: T)
    ensures multiset(RemoveLast(s, x)) == multiset(s) - multiset{x}
  {
    if x in s {
      var k := LastOccurrence(s, x);
      RemoveLastAt(s, x, k);
      assert s == s[..k] + [x] + s[k + 1..];
    } else {
      RemoveLastAbsent(s, x);
      assert multiset(s)[x] == 0;
    }
  }

  /** Adding a plugin and then removing it restores the list: the append is the last occurrence. */
  lemma RemoveLastAfterAppend<T>(s: seq<T>, x: T)
    ensures RemoveLast(s + [x], x) == s
  {
    assert (s + [x])[..|s|] == s;
  }

  /**
   With duplicates, removal keeps the earlier copies: removing from a list
   that ends in `x` after an earlier `x` still leaves `x` in it.
   */
  lemma RemoveLastKeepsEarlierCopies<T>(s: seq<T>, x: T)
    requires x in s
    ensures x in RemoveLast(s + [x], x)
  {
    RemoveLastAfterAppend(s, x);
  }
}
