/** Facts about sequences, stated once because the solver finds them only when asked. */
module Sequences {
  lemma Assoc<T>(a: seq<T>, b: seq<T>, c: seq<T>)
    ensures a + b + c == a + (b + c)
  {
  }

  lemma TakeOfConcat<T>(a: seq<T>, b: seq<T>, n: nat)
    requires |a| <= n <= |a| + |b|
    ensures (a + b)[..n] == a + b[..n - |a|]
  {
  }

  lemma TakeOfConcatShort<T>(a: seq<T>, b: seq<T>, n: nat)
    requires n <= |a|
    ensures (a + b)[..n] == a[..n]
  {
  }

  lemma DropOfConcat<T>(a: seq<T>, b: seq<T>, n: nat)
    requires n <= |a|
    ensures (a + b)[n..] == a[n..] + b
  {
  }

  lemma SamePrefix<T>(a: seq<T>, b: seq<T>, c: seq<T>, d: seq<T>)
    requires |a| == |c| && a + b == c + d
    ensures a == c && b == d
  {
    assert a == (a + b)[..|a|] && c == (c + d)[..|c|];
    assert b == (a + b)[|a|..] && d == (c + d)[|c|..];
  }

  lemma SliceOfDrop<T>(s: seq<T>, c: nat, a: nat, n: nat)
    requires c + a + n <= |s|
    ensures s[c..][a..a + n] == s[c + a..c + a + n]
  {
  }

  lemma TakeMore<T>(s: seq<T>, a: nat, n: nat)
    requires a + n <= |s|
    ensures s[..a] + s[a..a + n] == s[..a + n]
  {
  }
}
