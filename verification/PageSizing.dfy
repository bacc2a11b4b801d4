/** The size check of the PerfSampler constructor (src/perf/perf_sampler.cpp:148) and what it
    is for: a buffer of power-of-two pages has a size that divides 2^64, so that the wrapping
    counters of the ring index it correctly. */
module PageSizing {
  import opened Words

  /** Bitwise and. */
  function BitAnd(x: nat, y: nat): nat
    decreases x
  {
    if x == 0 || y == 0 then 0 else (if x % 2 == 1 && y % 2 == 1 then 1 else 0) + 2 * BitAnd(x / 2, y / 2)
  }

  predicate PowerOfTwo(n: nat) {
    n == 1 || (n > 0 && n % 2 == 0 && PowerOfTwo(n / 2))
  }

  lemma {:induction false} BitAndSelf(x: nat)
    ensures BitAnd(x, x) == x
  {
    if x > 0 {
      BitAndSelf(x / 2);
    }
  }

  /** The bit trick of the constructor recognises exactly the powers of two. */
  lemma {:induction false} BitTrick(n: nat)
    requires n > 0
    ensures BitAnd(n, n - 1) == 0 <==> PowerOfTwo(n)
  {
    if n % 2 == 1 {
      assert (n - 1) / 2 == n / 2;
      BitAndSelf(n / 2);
    } else {
      assert (n - 1) / 2 == n / 2 - 1;
      BitTrick(n / 2);
    }
  }

  lemma Doubled(n: nat)
    requires PowerOfTwo(n)
    ensures PowerOfTwo(2 * n)
  {
    assert (2 * n) / 2 == n && (2 * n) % 2 == 0;
  }

  lemma {:induction false} PowersMultiply(a: nat, b: nat)
    requires PowerOfTwo(a) && PowerOfTwo(b)
    ensures a * b >= 0 && PowerOfTwo(a * b)
    decreases a
  {
    if a > 1 {
      var half := a / 2;
      PowersMultiply(half, b);
      Doubled(half * b);
      TwiceTimes(half, b);
    }
  }

  lemma TwiceTimes(a: nat, b: nat)
    ensures (2 * a) * b == 2 * (a * b)
  {
  }

  lemma {:induction false} PowersDivide(a: nat, b: nat)
    requires PowerOfTwo(a) && PowerOfTwo(b) && a <= b
    ensures b % a == 0
  {
    if a > 1 {
      PowersDivide(a / 2, b / 2);
      var q := (b / 2) / (a / 2);
      assert b / 2 == q * (a / 2);
      assert b == q * a + 0;
      ModAddMultiple(0, q, a);
    }
  }

  lemma CounterRangeIsPower()
    ensures PowerOfTwo(TWO64)
  {
    PowersMultiply(4, 4);
    PowersMultiply(16, 16);
    PowersMultiply(0x100, 0x100);
    PowersMultiply(TWO16, TWO16);
    PowersMultiply(TWO32, TWO32);
  }

  /** A number of pages that passes the check makes a buffer the counters index correctly. */
  lemma CheckedPagesDivideCounter(pageBytes: nat, dataPages: nat)
    requires PowerOfTwo(pageBytes) && dataPages > 0 && BitAnd(dataPages, dataPages - 1) == 0
    requires pageBytes * dataPages < TWO64
    ensures 0 < pageBytes * dataPages && DividesCounter(pageBytes * dataPages)
  {
    BitTrick(dataPages);
    PowersMultiply(pageBytes, dataPages);
    CounterRangeIsPower();
    PowersDivide(pageBytes * dataPages, TWO64);
  }
}
