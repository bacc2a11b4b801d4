/** Summaries of samples (src/analysis/statistics.cpp:14-70), over exact reals. The square root
    is a parameter known only to be the nonnegative root. */
module Statistics {
  import opened Results
  import opened Sorting
  import opened OrderStatistics
  import opened Reals

  datatype Distribution = Distribution(
    count: nat,
    mean: real,
    median: real,
    minimum: real,
    maximum: real,
    standardDeviation: real,
    coefficientOfVariation: real)

  datatype StatisticsError = EmptySample

  ghost predicate IsRoot(root: real -> real) {
    forall x :: x >= 0.0 ==> root(x) >= 0.0 && root(x) * root(x) == x
  }

  function Square(x: real): real {
    x * x
  }

  function Abs(x: real): real {
    if x < 0.0 then -x else x
  }

  function Sum(s: seq<real>): real {
    if s == [] then 0.0 else Sum(s[..|s| - 1]) + s[|s| - 1]
  }

  /** The sum of the squared distances from c. */
  function Spread(s: seq<real>, c: real): real {
    if s == [] then 0.0 else Spread(s[..|s| - 1], c) + Square(s[|s| - 1] - c)
  }

  function Mean(s: seq<real>): real
    requires s != []
  {
    Sum(s) / |s| as real
  }

  /** Of values already in order. */
  function Median(s: seq<real>): real
    requires s != []
  {
    var middle := |s| / 2;
    if |s| % 2 == 0 then (s[middle - 1] + s[middle]) / 2.0 else s[middle]
  }

  /** What a nonempty sample is summarized to. */
  function Describe(values: seq<real>, root: real -> real): Distribution
    requires values != []
  {
    var s := Ordered(values);
    var mean := Mean(s);
    var deviation := root(Spread(s, mean) / |s| as real);
    Distribution(|s|, mean, Median(s), s[0], s[|s| - 1], deviation,
                 if mean == 0.0 then 0.0 else deviation / Abs(mean) * 100.0)
  }

  method Accumulate(values: seq<real>) returns (total: real)
    ensures total == Sum(values)
  {
    total := 0.0;
    for i := 0 to |values|
      invariant total == Sum(values[..i])
    {
      assert values[..i + 1][..i] == values[..i];
      total := total + values[i];
    }
    assert values[..|values|] == values;
  }

  method SquaredDifferences(values: seq<real>, mean: real) returns (total: real)
    ensures total == Spread(values, mean)
  {
    total := 0.0;
    for i := 0 to |values|
      invariant total == Spread(values[..i], mean)
    {
      assert values[..i + 1][..i] == values[..i];
      var difference := values[i] - mean;
      total := total + difference * difference;
    }
    assert values[..|values|] == values;
  }

  method Sort(values: seq<real>) returns (sorted: seq<real>)
    ensures sorted == Ordered(values)
  {
    sorted := SortBy(values, (x: real) => x);
    OrderedIs(values, sorted);
  }

  method Summarize(values: seq<real>, root: real -> real) returns (r: Result<Distribution, StatisticsError>)
    ensures r == if values == [] then Err(EmptySample) else Ok(Describe(values, root))
    ensures r.Ok? && IsRoot(root) ==> Measures(r.value, values)
  {
    hide Sum, Spread, Ordered, IsRoot, Measures;
    if values != [] && IsRoot(root) {
      DescribeMeasures(values, root);
    }
    if values == [] {
      return Err(EmptySample);
    }
    var sorted := Sort(values);
    var total := Accumulate(sorted);
    var mean := total / |sorted| as real;
    var middle := |sorted| / 2;
    var median := if |sorted| % 2 == 0 then (sorted[middle - 1] + sorted[middle]) / 2.0 else sorted[middle];
    var squaredDifference := SquaredDifferences(sorted, mean);
    var deviation := root(squaredDifference / |sorted| as real);
    var variation := if mean == 0.0 then 0.0 else deviation / Abs(mean) * 100.0;
    r := Ok(Distribution(|sorted|, mean, median, sorted[0], sorted[|sorted| - 1], deviation, variation));
  }

  /** The order in which the runs were measured does not matter. */
  lemma DescribeForgetsOrder(s: seq<real>, t: seq<real>, root: real -> real)
    requires s != [] && multiset(s) == multiset(t)
    ensures t != [] && Describe(s, root) == Describe(t, root)
  {
    assert |multiset(s)| == |multiset(t)|;
    OrderedForgets(s, t);
  }

  // ----- sums

  function SumOfSquares(s: seq<real>): real {
    if s == [] then 0.0 else SumOfSquares(s[..|s| - 1]) + Square(s[|s| - 1])
  }

  /** The spread around c, given the sum of squares, the sum and the number of values. */
  function Expanded(squares: real, sum: real, n: real, c: real): real {
    squares - 2.0 * c * sum + n * (c * c)
  }

  lemma {:induction false} SpreadExpands(s: seq<real>, c: real)
    ensures Spread(s, c) == Expanded(SumOfSquares(s), Sum(s), |s| as real, c)
  {
    if s == [] {
      ExpandNothing(c);
    } else {
      hide Expanded, Square;
      var front, x := s[..|s| - 1], s[|s| - 1];
      SpreadExpands(front, c);
      ExpandStep(SumOfSquares(front), Sum(front), |front| as real, x, c);
    }
  }

  lemma ExpandNothing(c: real)
    ensures Expanded(0.0, 0.0, 0.0, c) == 0.0
  {
  }

  lemma ExpandStep(q: real, t: real, n: real, x: real, c: real)
    ensures Expanded(q, t, n, c) + Square(x - c) == Expanded(q + Square(x), t + x, n + 1.0, c)
  {
  }

  /** The mean is where the spread is least, by exactly n times the squared distance. */
  lemma SpreadFromMean(s: seq<real>, c: real)
    requires s != []
    ensures Spread(s, c) == Spread(s, Mean(s)) + |s| as real * Square(c - Mean(s))
  {
    hide Spread, Sum, SumOfSquares, Square;
    SpreadExpands(s, c);
    SpreadExpands(s, Mean(s));
    MeanTimesCount(Sum(s), |s| as real);
    FromMeanStep(SumOfSquares(s), Sum(s), |s| as real, Mean(s), c);
  }

  lemma MeanTimesCount(t: real, n: real)
    requires n > 0.0
    ensures t == n * (t / n)
  {
  }

  lemma FromMeanStep(q: real, t: real, n: real, m: real, c: real)
    requires t == n * m
    ensures q - 2.0 * c * t + n * (c * c) == (q - 2.0 * m * t + n * (m * m)) + n * Square(c - m)
  {
    assert n * Square(c - m) == n * (c * c) - 2.0 * (n * m) * c + n * (m * m);
    assert 2.0 * m * t == 2.0 * (n * (m * m));
    assert 2.0 * c * t == 2.0 * (n * m) * c;
  }

  lemma SquareNonnegative(x: real)
    ensures Square(x) >= 0.0
  {
  }

  /** Values whose squared distance from c is at least q, in positions lo to hi. */
  lemma {:induction false} SpreadAtLeast(s: seq<real>, c: real, q: real, lo: nat, hi: nat)
    requires lo <= hi <= |s| && q >= 0.0
    requires forall i :: lo <= i < hi ==> Square(s[i] - c) >= q
    ensures Spread(s, c) >= (hi - lo) as real * q
  {
    hide Square;
    if s != [] {
      var front, x := s[..|s| - 1], s[|s| - 1];
      SquareNonnegative(x - c);
      if hi < |s| {
        SpreadAtLeast(front, c, q, lo, hi);
      } else if lo < hi {
        SpreadAtLeast(front, c, q, lo, hi - 1);
        assert (hi - lo) as real * q == (hi - 1 - lo) as real * q + q;
      } else {
        SpreadAtLeast(front, c, q, 0, 0);
      }
    }
  }

  /** The sum of squares of n values in [low, high] whose sum is t is at most this: the sum of
      (high - x)(x - low), written out. */
  function SquaresCap(low: real, high: real, t: real, n: real): real {
    (low + high) * t - n * (low * high)
  }

  lemma {:induction false} BetweenBounds(s: seq<real>, low: real, high: real)
    requires forall i :: 0 <= i < |s| ==> low <= s[i] <= high
    ensures SumOfSquares(s) <= SquaresCap(low, high, Sum(s), |s| as real)
  {
    if s != [] {
      hide SquaresCap, Square;
      var front, x := s[..|s| - 1], s[|s| - 1];
      BetweenBounds(front, low, high);
      BetweenStep(SumOfSquares(front), Sum(front), |front| as real, x, low, high);
      assert |front| as real + 1.0 == |s| as real;
    }
  }

  lemma BetweenStep(q: real, t: real, n: real, x: real, low: real, high: real)
    requires q <= SquaresCap(low, high, t, n) && low <= x <= high
    ensures q + Square(x) <= SquaresCap(low, high, t + x, n + 1.0)
  {
    ProductSign(high - x, x - low);
    assert (high - x) * (x - low) == (low + high) * x - low * high - Square(x);
    assert (low + high) * (t + x) == (low + high) * t + (low + high) * x;
  }

  lemma {:induction false} SumBounds(s: seq<real>, low: real, high: real)
    requires forall i :: 0 <= i < |s| ==> low <= s[i] <= high
    ensures |s| as real * low <= Sum(s) <= |s| as real * high
  {
    if s != [] {
      SumBounds(s[..|s| - 1], low, high);
    }
  }

  // ----- what a summary promises

  lemma AscendingBounds(s: seq<real>)
    requires Ascending(s) && s != []
    ensures forall i :: 0 <= i < |s| ==> s[0] <= s[i] <= s[|s| - 1]
  {
  }

  lemma BetweenDivided(t: real, n: real, low: real, high: real)
    requires n > 0.0 && n * low <= t <= n * high
    ensures low <= t / n <= high
  {
  }

  /** Minimum and maximum are values of the sample and bound all of it; the mean and the median
      lie between them. */
  lemma WithinRange(values: seq<real>, root: real -> real)
    requires values != []
    ensures var d := Describe(values, root);
      && d.count == |values|
      && d.minimum in values && d.maximum in values
      && (forall x :: x in values ==> d.minimum <= x <= d.maximum)
      && d.minimum <= d.mean <= d.maximum
      && d.minimum <= d.median <= d.maximum
  {
    hide Ordered, Spread, Sum;
    var s := Ordered(values);
    OrderedSorts(values);
    AscendingBounds(s);
    SumBounds(s, s[0], s[|s| - 1]);
    BetweenDivided(Sum(s), |s| as real, s[0], s[|s| - 1]);
    assert s[0] in multiset(s) && s[|s| - 1] in multiset(s);
    forall x | x in values
      ensures s[0] <= x <= s[|s| - 1]
    {
      assert x in multiset(s);
    }
  }

  /** Half of the values, rounded up, are at most the median, and as many are at least it. */
  lemma MedianSplits(s: seq<real>)
    requires Ascending(s) && s != []
    ensures forall i :: 0 <= i < (|s| + 1) / 2 ==> s[i] <= Median(s)
    ensures forall i :: |s| / 2 <= i < |s| ==> Median(s) <= s[i]
  {
  }

  lemma FarValues(s: seq<real>, m: real, gap: real, lo: nat, hi: nat, right: bool)
    requires lo <= hi <= |s| && gap >= 0.0
    requires right ==> forall i :: lo <= i < hi ==> s[i] <= m - gap
    requires !right ==> forall i :: lo <= i < hi ==> s[i] >= m + gap
    ensures forall i :: lo <= i < hi ==> Square(s[i] - (if right then m + gap else m - gap)) >= 4.0 * Square(gap)
  {
    forall i | lo <= i < hi
      ensures Square(s[i] - (if right then m + gap else m - gap)) >= 4.0 * Square(gap)
    {
      SquareMonotone(2.0 * gap, s[i] - (if right then m + gap else m - gap));
    }
  }

  lemma SquareMonotone(x: real, y: real)
    requires 0.0 <= x && (x <= y || x <= -y)
    ensures Square(x) <= Square(y)
  {
    var z := Abs(y);
    assert Square(z) == Square(y);
    assert z * z - x * x == (z - x) * (z + x);
  }

  lemma MedianNearStep(spread: real, n: real, h: real, g: real)
    requires n > 0.0 && 2.0 * h >= n && spread + n * g >= h * (4.0 * g) && g >= 0.0
    ensures spread / n >= g
  {
    ProductSign(2.0 * h - n, g);
    assert spread >= n * g;
  }

  lemma SquareNegated(x: real, y: real)
    ensures x == y || x == -y ==> Square(x) == Square(y)
  {
  }

  /** Half of the values lie on the other side of the median, as seen from the mean: their squared
      distances from the point mirrored in the mean are four times the gap's. */
  lemma VarianceCoversGap(s: seq<real>)
    requires Ascending(s) && s != []
    ensures Spread(s, Mean(s)) / |s| as real >= Square(Mean(s) - Median(s))
  {
    hide Square, Median, Mean, Spread;
    MedianSplits(s);
    var m, med, n := Mean(s), Median(s), |s|;
    var right := med <= m;
    var gap := if right then m - med else med - m;
    var c := if right then m + gap else m - gap;
    var lo, hi := if right then 0 else n / 2, if right then (n + 1) / 2 else n;
    FarValues(s, m, gap, lo, hi, right);
    SquareNonnegative(gap);
    SquareNegated(m - med, gap);
    SquareNegated(c - m, gap);
    SpreadAtLeast(s, c, 4.0 * Square(gap), lo, hi);
    SpreadFromMean(s, c);
    MedianNearStep(Spread(s, m), n as real, (hi - lo) as real, Square(gap));
  }

  lemma RootBounds(x: real, v: real, r: real)
    requires r >= 0.0 && r * r == v
    ensures Square(x) <= v ==> Abs(x) <= r
    ensures v <= Square(x) ==> r <= Abs(x)
  {
    var y := Abs(x);
    assert y * y == Square(x);
    if y < r {
      SquaresApart(y, r);
    } else if r < y {
      SquaresApart(r, y);
    }
  }

  lemma SquaresApart(x: real, y: real)
    requires 0.0 <= x < y
    ensures x * x < y * y
  {
    assert x * (y - x) >= 0.0;
    assert y * (y - x) > 0.0;
  }

  lemma SpreadNonnegative(s: seq<real>, c: real)
    ensures Spread(s, c) >= 0.0
  {
    SpreadAtLeast(s, c, 0.0, 0, 0);
  }

  lemma VarianceStep(spread: real, q: real, t: real, n: real, m: real, low: real, high: real)
    requires n > 0.0 && t == n * m
    requires spread == q - 2.0 * m * t + n * (m * m) && q <= SquaresCap(low, high, t, n)
    ensures spread / n <= (high - m) * (m - low)
  {
    assert 2.0 * m * t == 2.0 * (n * (m * m));
    assert (low + high) * t == n * ((low + high) * m);
    assert n * ((high - m) * (m - low)) == n * ((low + high) * m) - n * (m * m) - n * (low * high);
    assert spread <= n * ((high - m) * (m - low));
  }

  /** The variance is at most what the range and the mean's place in it allow. */
  lemma VarianceWithinRange(s: seq<real>)
    requires Ascending(s) && s != []
    ensures Spread(s, Mean(s)) / |s| as real <= (s[|s| - 1] - Mean(s)) * (Mean(s) - s[0])
  {
    hide Spread, Sum, SumOfSquares;
    AscendingBounds(s);
    BetweenBounds(s, s[0], s[|s| - 1]);
    SpreadExpands(s, Mean(s));
    MeanTimesCount(Sum(s), |s| as real);
    VarianceStep(Spread(s, Mean(s)), SumOfSquares(s), Sum(s), |s| as real, Mean(s), s[0], s[|s| - 1]);
  }

  lemma HalfRangeStep(low: real, m: real, high: real)
    ensures (high - m) * (m - low) <= Square((high - low) / 2.0)
  {
    var a, b := high - m, m - low;
    SquareNonnegative((a - b) / 2.0);
    assert Square((a + b) / 2.0) - Square((a - b) / 2.0) == a * b;
  }

  /** The deviation of any sample: its square is at most (max - mean)(mean - min), so it is at most
      half the range, and it is at least the distance between mean and median. */
  lemma DeviationBounds(values: seq<real>, root: real -> real)
    requires values != [] && IsRoot(root)
    ensures var d := Describe(values, root);
      && d.standardDeviation >= 0.0
      && Square(d.standardDeviation) <= (d.maximum - d.mean) * (d.mean - d.minimum)
      && d.standardDeviation <= (d.maximum - d.minimum) / 2.0
      && Abs(d.mean - d.median) <= d.standardDeviation
  {
    hide Ordered, Spread, Sum, Median, Mean;
    var s := Ordered(values);
    OrderedSorts(values);
    SpreadNonnegative(s, Mean(s));
    var v := Spread(s, Mean(s)) / |s| as real;
    VarianceWithinRange(s);
    HalfRangeStep(s[0], Mean(s), s[|s| - 1]);
    RootBounds((s[|s| - 1] - s[0]) / 2.0, v, root(v));
    VarianceCoversGap(s);
    RootBounds(Mean(s) - Median(s), v, root(v));
  }

  // ----- the summary, measured on the values as they come

  function TotalOf(values: seq<real>): real {
    if values == [] then 0.0 else values[0] + TotalOf(values[1..])
  }

  function TotalSquares(values: seq<real>): real {
    if values == [] then 0.0 else values[0] * values[0] + TotalSquares(values[1..])
  }

  lemma {:induction false} SumsCons(x: real, s: seq<real>)
    ensures Sum([x] + s) == x + Sum(s) && SumOfSquares([x] + s) == Square(x) + SumOfSquares(s)
  {
    hide Square;
    if s == [] {
      assert ([x] + s)[..0] == [];
    } else {
      assert ([x] + s)[..|s|] == [x] + s[..|s| - 1];
      SumsCons(x, s[..|s| - 1]);
    }
  }

  lemma {:induction false} SumsInsert(x: real, s: seq<real>)
    ensures Sum(Insert(x, s)) == x + Sum(s) && SumOfSquares(Insert(x, s)) == Square(x) + SumOfSquares(s)
  {
    hide Sum, SumOfSquares, Square;
    if s == [] || x <= s[0] {
      SumsCons(x, s);
    } else {
      SumsInsert(x, s[1..]);
      SumsCons(s[0], Insert(x, s[1..]));
      SumsCons(s[0], s[1..]);
      assert s == [s[0]] + s[1..];
    }
  }

  lemma {:induction false} SumsAreTotals(values: seq<real>)
    ensures Sum(Ordered(values)) == TotalOf(values) && SumOfSquares(Ordered(values)) == TotalSquares(values)
  {
    hide Insert;
    if values != [] {
      SumsAreTotals(values[1..]);
      SumsInsert(values[0], Ordered(values[1..]));
    }
  }

  /** What a distribution says of a sample: its size; its mean, which adds up to the values; its deviation,
      whose square and the mean's add up to the squares of the values; its variation, which is the
      deviation in percent of the mean's distance from 0; and, of the values in order, the two ends
      and the middle, or the midpoint of the two middle ones. */
  ghost predicate Measures(d: Distribution, values: seq<real>) {
    var n := |values| as real;
    && d.count == |values| > 0
    && n * d.mean == TotalOf(values)
    && d.standardDeviation >= 0.0
    && n * (d.standardDeviation * d.standardDeviation) + n * (d.mean * d.mean) == TotalSquares(values)
    && Varies(d.coefficientOfVariation, d.standardDeviation, d.mean)
    && Ends(d, values)
  }

  ghost predicate Varies(variation: real, deviation: real, m: real) {
    && (m == 0.0 ==> variation == 0.0)
    && (m > 0.0 ==> variation * m == 100.0 * deviation)
    && (m < 0.0 ==> variation * -m == 100.0 * deviation)
  }

  ghost predicate Ends(d: Distribution, values: seq<real>) {
    forall s :: Ascending(s) && multiset(s) == multiset(values) && |s| > 0 ==>
      && d.minimum == s[0] && d.maximum == s[|s| - 1]
      && d.median + d.median == s[(|s| - 1) / 2] + s[|s| / 2]
  }

  lemma DeviationStep(spread: real, q: real, t: real, n: real, m: real, deviation: real)
    requires n > 0.0 && t == n * m && spread == Expanded(q, t, n, m) && deviation * deviation == spread / n
    ensures n * (deviation * deviation) + n * (m * m) == q
  {
    MeanTimesCount(spread, n);
    assert 2.0 * m * t == 2.0 * (n * (m * m));
  }

  lemma VariationStep(deviation: real, m: real)
    requires m > 0.0
    ensures deviation / m * 100.0 * m == 100.0 * deviation
  {
    MeanTimesCount(deviation, m);
    assert deviation / m * 100.0 * m == 100.0 * (m * (deviation / m));
  }

  lemma TwiceMedian(s: seq<real>)
    requires s != []
    ensures Median(s) + Median(s) == s[(|s| - 1) / 2] + s[|s| / 2]
  {
  }

  lemma RootIs(root: real -> real, x: real)
    requires IsRoot(root) && x >= 0.0
    ensures root(x) >= 0.0 && root(x) * root(x) == x
  {
  }

  lemma EndsOfOrdered(values: seq<real>, d: Distribution)
    requires values != []
    requires var s := Ordered(values);
      d.minimum == s[0] && d.maximum == s[|s| - 1] && d.median == Median(s)
    ensures Ends(d, values)
  {
    hide Median, Ordered;
    TwiceMedian(Ordered(values));
    forall s | Ascending(s) && multiset(s) == multiset(values) && |s| > 0
      ensures s == Ordered(values)
    {
      OrderedIs(values, s);
    }
  }

  lemma DeviationOf(s: seq<real>, root: real -> real)
    requires s != [] && IsRoot(root)
    ensures var n, m, deviation := |s| as real, Mean(s), root(Spread(s, Mean(s)) / |s| as real);
      && n * m == Sum(s) && deviation >= 0.0
      && n * (deviation * deviation) + n * (m * m) == SumOfSquares(s)
  {
    hide Spread, Sum, SumOfSquares, Expanded, IsRoot;
    var n, m := |s| as real, Mean(s);
    MeanTimesCount(Sum(s), n);
    SpreadNonnegative(s, m);
    SpreadExpands(s, m);
    BetweenDivided(Spread(s, m), n, 0.0, Spread(s, m) / n);
    RootIs(root, Spread(s, m) / n);
    DeviationStep(Spread(s, m), SumOfSquares(s), Sum(s), n, m, root(Spread(s, m) / n));
  }

  lemma VariationOf(deviation: real, m: real)
    ensures Varies(if m == 0.0 then 0.0 else deviation / Abs(m) * 100.0, deviation, m)
  {
    if m > 0.0 {
      VariationStep(deviation, m);
    } else if m < 0.0 {
      VariationStep(deviation, -m);
    }
  }

  lemma DescribeMeasures(values: seq<real>, root: real -> real)
    requires values != [] && IsRoot(root)
    ensures Measures(Describe(values, root), values)
  {
    hide Ordered, Spread, Sum, SumOfSquares, Median, Mean, TotalOf, TotalSquares, Ends, Varies, Abs, IsRoot;
    var s, d := Ordered(values), Describe(values, root);
    OrderedSorts(values);
    SumsAreTotals(values);
    DeviationOf(s, root);
    VariationOf(d.standardDeviation, d.mean);
    EndsOfOrdered(values, d);
  }
}
