/** std::sort, of which callers may know only that it yields some sorted permutation. */
module Sorting {
  ghost predicate SortedBy<T>(s: seq<T>, key: T -> real) {
    forall i, j :: 0 <= i < j < |s| ==> key(s[i]) <= key(s[j])
  }

  /** Sorts by a key; elements with equal keys may come out in any order. */
  method SortBy<T>(s: seq<T>, key: T -> real) returns (sorted: seq<T>)
    ensures multiset(sorted) == multiset(s) && |sorted| == |s|
    ensures SortedBy(sorted, key)
  {
    if s == [] {
      return [];
    }
    var rest := SortBy(s[1..], key);
    var at := InsertionPoint(rest, key, s[0]);
    InsertSorted(rest, key, s[0], at);
    assert s == [s[0]] + s[1..];
    sorted := rest[..at] + [s[0]] + rest[at..];
  }

  method InsertionPoint<T>(s: seq<T>, key: T -> real, x: T) returns (at: nat)
    ensures at <= |s| && (at < |s| ==> key(x) <= key(s[at]))
    ensures forall j :: 0 <= j < at ==> key(s[j]) <= key(x)
  {
    at := 0;
    while at < |s| && key(s[at]) < key(x)
      invariant 0 <= at <= |s|
      invariant forall j :: 0 <= j < at ==> key(s[j]) <= key(x)
    {
      at := at + 1;
    }
  }

  lemma InsertSorted<T>(s: seq<T>, key: T -> real, x: T, at: nat)
    requires SortedBy(s, key) && at <= |s|
    requires forall j :: 0 <= j < at ==> key(s[j]) <= key(x)
    requires at < |s| ==> key(x) <= key(s[at])
    ensures SortedBy(s[..at] + [x] + s[at..], key)
    ensures multiset(s[..at] + [x] + s[at..]) == multiset(s) + multiset{x}
  {
    assert s == s[..at] + s[at..];
  }

  ghost predicate DistinctBy<T, K>(s: seq<T>, key: T -> K) {
    forall i, j :: 0 <= i < j < |s| ==> key(s[i]) != key(s[j])
  }

  lemma TwiceTwice<T>(t: seq<T>, i: nat, j: nat)
    requires i < j < |t| && t[i] == t[j]
    ensures multiset(t)[t[i]] >= 2
  {
    assert t == t[..j] + [t[j]] + t[j + 1..];
    assert t[i] in multiset(t[..j]) by { assert t[..j][i] == t[i]; }
  }

  lemma {:induction false} OnceOnce<T, K>(s: seq<T>, key: T -> K, x: T)
    requires DistinctBy(s, key)
    ensures multiset(s)[x] <= 1
  {
    if s != [] {
      var front := s[..|s| - 1];
      assert s == front + [s[|s| - 1]];
      OnceOnce(front, key, x);
      if x == s[|s| - 1] {
        assert x !in front;
      }
    }
  }

  /** Sorting keeps keys distinct. */
  lemma PermutedDistinct<T, K>(s: seq<T>, t: seq<T>, key: T -> K)
    requires DistinctBy(s, key) && multiset(s) == multiset(t)
    ensures DistinctBy(t, key)
  {
    forall i, j | 0 <= i < j < |t|
      ensures key(t[i]) != key(t[j])
    {
      assert t[i] in multiset(s) && t[j] in multiset(s);
      if t[i] == t[j] {
        TwiceTwice(t, i, j);
        OnceOnce(s, key, t[i]);
      }
    }
  }
}
