/** Sorting real samples: there is one sorted arrangement of a sample, whatever order its values
    arrive in, and it is monotone in the values. */
module OrderStatistics {
  import opened Reals

  predicate Ascending(s: seq<real>) {
    forall i, j :: 0 <= i < j < |s| ==> s[i] <= s[j]
  }

  function Insert(x: real, s: seq<real>): seq<real> {
    if s == [] || x <= s[0] then [x] + s else [s[0]] + Insert(x, s[1..])
  }

  /** The values in ascending order. */
  function Ordered(s: seq<real>): (r: seq<real>)
    ensures |r| == |s|
  {
    if s == [] then [] else
      InsertLength(s[0], Ordered(s[1..]));
      Insert(s[0], Ordered(s[1..]))
  }

  lemma {:induction false} InsertLength(x: real, s: seq<real>)
    ensures |Insert(x, s)| == |s| + 1
  {
    if s != [] && !(x <= s[0]) {
      InsertLength(x, s[1..]);
    }
  }

  lemma {:induction false} InsertKeeps(x: real, s: seq<real>)
    ensures multiset(Insert(x, s)) == multiset{x} + multiset(s)
  {
    if s != [] && !(x <= s[0]) {
      InsertKeeps(x, s[1..]);
      assert s == [s[0]] + s[1..];
    }
  }

  lemma {:induction false} InsertAscending(x: real, s: seq<real>)
    requires Ascending(s)
    ensures Ascending(Insert(x, s))
  {
    if s != [] && !(x <= s[0]) {
      var rest := Insert(x, s[1..]);
      InsertAscending(x, s[1..]);
      InsertKeeps(x, s[1..]);
      forall j | 0 <= j < |rest|
        ensures s[0] <= rest[j]
      {
        assert rest[j] in multiset(rest);
        assert rest[j] == x || rest[j] in s[1..];
      }
    }
  }

  lemma {:induction false} OrderedSorts(s: seq<real>)
    ensures Ascending(Ordered(s)) && multiset(Ordered(s)) == multiset(s)
  {
    if s != [] {
      OrderedSorts(s[1..]);
      InsertAscending(s[0], Ordered(s[1..]));
      InsertKeeps(s[0], Ordered(s[1..]));
      assert s == [s[0]] + s[1..];
    }
  }

  lemma LeastFirst(s: seq<real>, t: seq<real>)
    requires Ascending(s) && Ascending(t) && multiset(s) == multiset(t) && s != []
    ensures t != [] && s[0] == t[0]
  {
    assert s[0] in multiset(t);
    assert t[0] in multiset(s);
  }

  /** Any two ascending arrangements of the same values are equal. */
  lemma {:induction false} AscendingUnique(s: seq<real>, t: seq<real>)
    requires Ascending(s) && Ascending(t) && multiset(s) == multiset(t)
    ensures s == t
  {
    if s == [] {
      assert |multiset(t)| == |multiset(s)|;
    } else {
      LeastFirst(s, t);
      assert s == [s[0]] + s[1..] && t == [t[0]] + t[1..];
      assert multiset(s[1..]) == multiset(s) - multiset{s[0]} == multiset(t[1..]);
      AscendingUnique(s[1..], t[1..]);
    }
  }

  /** Ordering forgets the order of arrival. */
  lemma OrderedForgets(s: seq<real>, t: seq<real>)
    requires multiset(s) == multiset(t)
    ensures Ordered(s) == Ordered(t)
  {
    OrderedSorts(s);
    OrderedSorts(t);
    AscendingUnique(Ordered(s), Ordered(t));
  }

  lemma OrderedIs(s: seq<real>, t: seq<real>)
    requires Ascending(t) && multiset(s) == multiset(t)
    ensures Ordered(s) == t
  {
    OrderedSorts(s);
    AscendingUnique(Ordered(s), t);
  }

  // ----- domination

  predicate Below(strict: bool, x: real, y: real) {
    if strict then x < y else x <= y
  }

  /** Value by value, s is below t. */
  predicate Dominated(strict: bool, s: seq<real>, t: seq<real>) {
    |s| == |t| && forall i :: 0 <= i < |s| ==> Below(strict, s[i], t[i])
  }

  lemma InsertFirst(s: seq<real>)
    requires Ascending(s) && s != []
    ensures Insert(s[0], s[1..]) == s
  {
  }

  lemma DominatedTails(strict: bool, s: seq<real>, t: seq<real>)
    requires Dominated(strict, s, t) && s != []
    ensures Below(strict, s[0], t[0]) && Dominated(strict, s[1..], t[1..])
  {
  }

  lemma DominatedCons(strict: bool, x: real, y: real, s: seq<real>, t: seq<real>)
    requires Below(strict, x, y) && Dominated(strict, s, t)
    ensures Dominated(strict, [x] + s, [y] + t)
  {
  }

  lemma {:induction false} InsertMonotone(strict: bool, x: real, y: real, s: seq<real>, t: seq<real>)
    requires Ascending(s) && Ascending(t) && Dominated(strict, s, t) && Below(strict, x, y)
    ensures Dominated(strict, Insert(x, s), Insert(y, t))
    decreases |s|
  {
    if s == [] {
      DominatedCons(strict, x, y, s, t);
    } else {
      assert |s| == |t|;
      hide Dominated;
      DominatedTails(strict, s, t);
      if x <= s[0] && y <= t[0] {
        DominatedCons(strict, x, y, s, t);
      } else if x <= s[0] {
        InsertMonotone(strict, s[0], y, s[1..], t[1..]);
        InsertFirst(s);
        DominatedCons(strict, x, t[0], s, Insert(y, t[1..]));
      } else if y <= t[0] {
        InsertMonotone(strict, x, t[0], s[1..], t[1..]);
        InsertFirst(t);
        DominatedCons(strict, s[0], y, Insert(x, s[1..]), t);
      } else {
        InsertMonotone(strict, x, y, s[1..], t[1..]);
        DominatedCons(strict, s[0], t[0], Insert(x, s[1..]), Insert(y, t[1..]));
      }
    }
  }

  /** Domination of the unsorted samples is domination of every order statistic. */
  lemma {:induction false} OrderedMonotone(strict: bool, s: seq<real>, t: seq<real>)
    requires Dominated(strict, s, t)
    ensures Dominated(strict, Ordered(s), Ordered(t))
  {
    if s != [] {
      DominatedTails(strict, s, t);
      OrderedMonotone(strict, s[1..], t[1..]);
      OrderedSorts(s[1..]);
      OrderedSorts(t[1..]);
      InsertMonotone(strict, s[0], t[0], Ordered(s[1..]), Ordered(t[1..]));
    }
  }

  // ----- scaling

  function Times(k: real, x: real): real {
    k * x
  }

  function Scaled(k: real, s: seq<real>): (r: seq<real>)
    ensures |r| == |s|
    decreases |s|
  {
    if s == [] then [] else [Times(k, s[0])] + Scaled(k, s[1..])
  }

  lemma {:induction false} ScaledAt(k: real, s: seq<real>, i: nat)
    requires i < |s|
    ensures Scaled(k, s)[i] == Times(k, s[i])
  {
    if i > 0 {
      ScaledAt(k, s[1..], i - 1);
    }
  }

  lemma ScaledCons(k: real, x: real, s: seq<real>)
    ensures Scaled(k, [x] + s) == [Times(k, x)] + Scaled(k, s)
  {
    hide Times;
    assert ([x] + s)[1..] == s;
  }

  lemma ScaledOrder(k: real, x: real, y: real)
    requires k > 0.0
    ensures x <= y <==> Times(k, x) <= Times(k, y)
  {
    if x <= y {
      ProductSign(k, y - x);
      ProductOfDifference(k, y, x);
    } else {
      ProductSign(k, x - y);
      ProductOfDifference(k, x, y);
    }
  }

  lemma {:induction false} InsertScaled(k: real, x: real, s: seq<real>)
    requires k > 0.0
    ensures Scaled(k, Insert(x, s)) == Insert(Times(k, x), Scaled(k, s))
    decreases |s|
  {
    hide Times;
    if s == [] {
      ScaledCons(k, x, s);
    } else {
      ScaledOrder(k, x, s[0]);
      if x <= s[0] {
        ScaledCons(k, x, s);
      } else {
        InsertScaled(k, x, s[1..]);
        ScaledCons(k, s[0], Insert(x, s[1..]));
        assert Scaled(k, s)[1..] == Scaled(k, s[1..]);
      }
    }
  }

  lemma {:induction false} OrderedScaled(k: real, s: seq<real>)
    requires k > 0.0
    ensures Ordered(Scaled(k, s)) == Scaled(k, Ordered(s))
    decreases |s|
  {
    hide Times;
    if s != [] {
      OrderedScaled(k, s[1..]);
      InsertScaled(k, s[0], Ordered(s[1..]));
      assert Scaled(k, s)[1..] == Scaled(k, s[1..]);
    }
  }

  lemma {:induction false} ScaledInsertKeeps(k: real, x: real, s: seq<real>)
    ensures multiset(Scaled(k, Insert(x, s))) == multiset(Scaled(k, s)) + multiset{Times(k, x)}
    decreases |s|
  {
    hide Times;
    if s == [] || x <= s[0] {
      ScaledCons(k, x, s);
    } else {
      ScaledInsertKeeps(k, x, s[1..]);
      ScaledCons(k, s[0], Insert(x, s[1..]));
      assert s == [s[0]] + s[1..];
      ScaledCons(k, s[0], s[1..]);
    }
  }

  lemma {:induction false} ScaledOrderedKeeps(k: real, s: seq<real>)
    ensures multiset(Scaled(k, Ordered(s))) == multiset(Scaled(k, s))
    decreases |s|
  {
    hide Times, Insert;
    if s != [] {
      ScaledOrderedKeeps(k, s[1..]);
      ScaledInsertKeeps(k, s[0], Ordered(s[1..]));
      assert s == [s[0]] + s[1..];
      ScaledCons(k, s[0], s[1..]);
    }
  }

  function Backwards(s: seq<real>): (r: seq<real>)
    ensures |r| == |s| && forall i :: 0 <= i < |s| ==> r[i] == s[|s| - 1 - i]
  {
    seq(|s|, i requires 0 <= i < |s| => s[|s| - 1 - i])
  }

  lemma {:induction false} BackwardsKeeps(s: seq<real>)
    ensures multiset(Backwards(s)) == multiset(s)
    decreases |s|
  {
    if s != [] {
      var front, last := s[..|s| - 1], s[|s| - 1];
      BackwardsKeeps(front);
      assert s == front + [last];
      assert Backwards(s) == [last] + Backwards(front);
    }
  }

  lemma ScaledBackwardsAscends(k: real, s: seq<real>)
    requires k <= 0.0 && Ascending(s)
    ensures Ascending(Backwards(Scaled(k, s)))
  {
    var r := Backwards(Scaled(k, s));
    forall i, j | 0 <= i < j < |s|
      ensures r[i] <= r[j]
    {
      var lo, hi := |s| - 1 - j, |s| - 1 - i;
      ScaledAt(k, s, lo);
      ScaledAt(k, s, hi);
      ProductSign(-k, s[hi] - s[lo]);
      ProductOfDifference(-k, s[hi], s[lo]);
    }
  }

  /** A factor that is not positive turns the order around. */
  lemma OrderedScaledBackwards(k: real, s: seq<real>)
    requires k <= 0.0
    ensures Ordered(Scaled(k, s)) == Backwards(Scaled(k, Ordered(s)))
  {
    hide Scaled, Ordered, Backwards;
    OrderedSorts(s);
    OrderedSorts(Scaled(k, s));
    ScaledOrderedKeeps(k, s);
    BackwardsKeeps(Scaled(k, Ordered(s)));
    ScaledBackwardsAscends(k, Ordered(s));
    AscendingUnique(Ordered(Scaled(k, s)), Backwards(Scaled(k, Ordered(s))));
  }
}
