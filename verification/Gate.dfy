/** What the budget decision promises about the measured runs
    (src/analysis/comparison.cpp:17-22, 99-163, 202-234). */
module Gate {
  import opened Results
  import opened OrderStatistics
  import opened Reals
  import opened Statistics
  import opened Comparison

  // ----- which limits can be evaluated

  lemma {:induction false} NoObjectionFrom(metrics: seq<MetricComparison>, t: Thresholds, listed: seq<Metric>)
    ensures FirstObjection(metrics, t, listed).None? <==> forall m :: m in listed ==> Objection(metrics, t, m).None?
  {
    hide Objection;
    if listed != [] {
      assert listed == [listed[0]] + listed[1..];
      NoObjectionFrom(metrics, t, listed[1..]);
    }
  }

  lemma OnlyBudgetsLimited(t: Thresholds, m: Metric)
    ensures ThresholdFor(t, m).Some? ==> m in BUDGETS
  {
    assert BUDGETS[0] == Runtime && BUDGETS[1] == P99Latency && BUDGETS[2] == Throughput
      && BUDGETS[3] == CpuTimePerOperation && BUDGETS[4] == MaxRss;
  }

  lemma {:induction false} FirstListed(listed: seq<Metric>, b: Summary, c: Summary, m: Metric)
    ensures First(CompareListed(listed, b, c), m)
         == if m in listed && m in b && m in c then Some(Compared(m, b[m], c[m])) else None
  {
    if listed != [] {
      assert listed == [listed[0]] + listed[1..];
      FirstListed(listed[1..], b, c, m);
    }
  }

  // ----- which violations are reported

  /** The positions of the violating comparisons. */
  function Positions(metrics: seq<MetricComparison>, t: Thresholds): seq<nat> {
    if metrics == [] then []
    else
      var front, last := metrics[..|metrics| - 1], metrics[|metrics| - 1];
      Positions(front, t) + (if Violates(t, last) then [|metrics| - 1] else [])
  }

  /** Exactly the violating comparisons are reported, each once, in their order. */
  lemma {:induction false} ViolationsExact(metrics: seq<MetricComparison>, t: Thresholds)
    ensures var at := Positions(metrics, t);
      && (forall k :: 0 <= k < |at| ==> at[k] < |metrics| && Violates(t, metrics[at[k]]))
      && (forall j, k :: 0 <= j < k < |at| ==> at[j] < at[k])
      && (forall i :: 0 <= i < |metrics| && Violates(t, metrics[i]) ==> i in at)
      && |Violations(metrics, t)| == |at|
      && (forall k :: 0 <= k < |at| ==> Violations(metrics, t)[k] == Reported(t, metrics[at[k]]))
  {
    hide Violates, Reported;
    if metrics != [] {
      var front, last := metrics[..|metrics| - 1], metrics[|metrics| - 1];
      ViolationsExact(front, t);
      var before := Positions(front, t);
      assert forall k :: 0 <= k < |before| ==> metrics[before[k]] == front[before[k]];
      if Violates(t, last) {
        assert Positions(metrics, t)[|before|] == |front|;
      }
    }
  }

  function Rank(m: Metric): nat {
    match m
    case Runtime => 0
    case UserCpu => 1
    case SystemCpu => 2
    case MaxRss => 3
    case VoluntarySwitches => 4
    case InvoluntarySwitches => 5
    case Throughput => 6
    case P50Latency => 7
    case P95Latency => 8
    case P99Latency => 9
    case CpuTimePerOperation => 10
    case Cycles => 11
    case Instructions => 12
    case Ipc => 13
    case Branches => 14
    case BranchMisses => 15
    case CacheReferences => 16
    case CacheMisses => 17
  }

  predicate InOrder(listed: seq<Metric>) {
    forall i, j :: 0 <= i < j < |listed| ==> Rank(listed[i]) < Rank(listed[j])
  }

  lemma MetricsInOrder()
    ensures InOrder(METRICS)
  {
    assert forall i :: 0 <= i < |METRICS| ==> Rank(METRICS[i]) == i;
  }

  predicate RanksAscend(r: seq<MetricComparison>) {
    forall i, j :: 0 <= i < j < |r| ==> Rank(r[i].metric) < Rank(r[j].metric)
  }

  predicate EntryOf(e: MetricComparison, listed: seq<Metric>, b: Summary, c: Summary) {
    e.metric in listed && e.metric in b && e.metric in c && e == Compared(e.metric, b[e.metric], c[e.metric])
  }

  predicate EntriesOf(r: seq<MetricComparison>, listed: seq<Metric>, b: Summary, c: Summary) {
    forall i :: 0 <= i < |r| ==> EntryOf(r[i], listed, b, c)
  }

  lemma RankAfterFirst(listed: seq<Metric>, m: Metric)
    requires listed != [] && InOrder(listed) && m in listed[1..]
    ensures Rank(listed[0]) < Rank(m)
  {
    var k :| 0 <= k < |listed[1..]| && listed[1..][k] == m;
    assert listed[k + 1] == m;
  }

  /** No metric is compared twice, and the comparisons keep the order of the list. */
  lemma {:induction false} ComparisonsInOrder(listed: seq<Metric>, b: Summary, c: Summary)
    requires InOrder(listed)
    ensures RanksAscend(CompareListed(listed, b, c))
    ensures EntriesOf(CompareListed(listed, b, c), listed, b, c)
  {
    hide Rank;
    if listed != [] {
      ComparisonsInOrder(listed[1..], b, c);
      var rest := CompareListed(listed[1..], b, c);
      var all := CompareListed(listed, b, c);
      forall i | 0 <= i < |rest|
        ensures EntryOf(rest[i], listed, b, c) && Rank(listed[0]) < Rank(rest[i].metric)
      {
        assert EntryOf(rest[i], listed[1..], b, c);
        RankAfterFirst(listed, rest[i].metric);
      }
      if listed[0] in b && listed[0] in c {
        assert all == [Compared(listed[0], b[listed[0]], c[listed[0]])] + rest;
      } else {
        assert all == rest;
      }
    }
  }

  // ----- the decision, in terms of the runs

  function RunMedian(m: Metric, runs: seq<RunResult>): real
    requires runs != [] && Everywhere(m, runs)
  {
    Median(Ordered(Values(m, runs)))
  }

  /** The directed change of a metric between two lists of runs. */
  function RunChange(m: Metric, b: seq<RunResult>, c: seq<RunResult>): Option<real> {
    if b != [] && c != [] && Everywhere(m, b) && Everywhere(m, c)
    then PercentChange(RunMedian(m, b), RunMedian(m, c)) else None
  }

  lemma ChangeNeedsRuns(m: Metric, b: seq<RunResult>, c: seq<RunResult>)
    ensures RunChange(m, b, c).Some? ==> Everywhere(m, b) && Everywhere(m, c)
  {
  }

  predicate OverBudget(t: Thresholds, m: Metric, b: seq<RunResult>, c: seq<RunResult>) {
    var limit, change := ThresholdFor(t, m), RunChange(m, b, c);
    limit.Some? && change.Some? && (if HigherIsBetter(m) then -change.value else change.value) > limit.value
  }

  lemma ComparedRuns(bs: Summary, cs: Summary, b: seq<RunResult>, c: seq<RunResult>, root: real -> real, m: Metric)
    requires b != [] && c != [] && Summarizes(bs, b, root) && Summarizes(cs, c, root)
    ensures m in bs && m in cs <==> Everywhere(m, b) && Everywhere(m, c)
    ensures m in bs && m in cs ==> Compared(m, bs[m], cs[m]).changePercent == RunChange(m, b, c)
  {
    hide Extract, Ordered, Spread, Sum, Median, Values;
    SummaryHolds(bs, b, root, m);
    SummaryHolds(cs, c, root, m);
  }

  /** The limits can be evaluated exactly if each configured one is nonnegative and its metric is
      in every run of both sides, with a defined change. */
  lemma DecidableExactly(bs: Summary, cs: Summary, b: seq<RunResult>, c: seq<RunResult>, root: real -> real,
                         t: Thresholds)
    requires b != [] && c != [] && Summarizes(bs, b, root) && Summarizes(cs, c, root)
    ensures FirstObjection(CompareMetrics(bs, cs), t, BUDGETS).None? <==>
            forall m: Metric :: ThresholdFor(t, m).Some? ==>
              ThresholdFor(t, m).value >= 0.0 && RunChange(m, b, c).Some?
  {
    hide FirstObjection, Summarizes, First, CompareListed, Compared, RunChange, BUDGETS, METRICS, ThresholdFor;
    var metrics := CompareMetrics(bs, cs);
    NoObjectionFrom(metrics, t, BUDGETS);
    forall m: Metric
      ensures Objection(metrics, t, m).None? <==>
              (ThresholdFor(t, m).Some? ==> ThresholdFor(t, m).value >= 0.0 && RunChange(m, b, c).Some?)
      ensures ThresholdFor(t, m).Some? ==> m in BUDGETS
    {
      OnlyBudgetsLimited(t, m);
      FirstListed(METRICS, bs, cs, m);
      EveryMetricListed(m);
      ComparedRuns(bs, cs, b, c, root, m);
      ChangeNeedsRuns(m, b, c);
    }
  }

  /** The reported violations are exactly the metrics over budget, each once, in the fixed order. */
  lemma ReportedExactly(bs: Summary, cs: Summary, b: seq<RunResult>, c: seq<RunResult>, root: real -> real,
                        t: Thresholds)
    requires b != [] && c != [] && Summarizes(bs, b, root) && Summarizes(cs, c, root)
    ensures var v := Violations(CompareMetrics(bs, cs), t);
      && (forall i, j :: 0 <= i < j < |v| ==> Rank(v[i].metric) < Rank(v[j].metric))
      && (forall m: Metric :: OverBudget(t, m, b, c) <==> exists i :: 0 <= i < |v| && v[i].metric == m)
      && (forall i :: 0 <= i < |v| ==>
            && RunChange(v[i].metric, b, c) == Some(v[i].changePercent)
            && ThresholdFor(t, v[i].metric) == Some(v[i].limitPercent))
  {
    hide Summarizes, First, CompareListed, RunChange, METRICS, ThresholdFor, Violations, Positions, Rank;
    var metrics := CompareMetrics(bs, cs);
    var v, at := Violations(metrics, t), Positions(metrics, t);
    ViolationsExact(metrics, t);
    MetricsInOrder();
    ComparisonsInOrder(METRICS, bs, cs);
    forall i | 0 <= i < |v|
      ensures RunChange(v[i].metric, b, c) == Some(v[i].changePercent)
      ensures ThresholdFor(t, v[i].metric) == Some(v[i].limitPercent)
      ensures OverBudget(t, v[i].metric, b, c)
    {
      assert EntryOf(metrics[at[i]], METRICS, bs, cs);
      ComparedRuns(bs, cs, b, c, root, v[i].metric);
    }
    forall m: Metric | OverBudget(t, m, b, c)
      ensures exists i :: 0 <= i < |v| && v[i].metric == m
    {
      ComparedRuns(bs, cs, b, c, root, m);
      ChangeNeedsRuns(m, b, c);
      EveryMetricListed(m);
      FirstListed(METRICS, bs, cs, m);
      var k := FirstAt(metrics, m);
      var i :| 0 <= i < |at| && at[i] == k;
      assert v[i].metric == m;
    }
  }

  lemma {:induction false} FirstAt(metrics: seq<MetricComparison>, m: Metric) returns (k: nat)
    requires First(metrics, m).Some?
    ensures k < |metrics| && metrics[k] == First(metrics, m).value && metrics[k].metric == m
  {
    if metrics[0].metric == m {
      k := 0;
    } else {
      var j := FirstAt(metrics[1..], m);
      k := j + 1;
    }
  }

  // ----- the decision, in terms of paired measurements

  lemma MedianMonotone(strict: bool, s: seq<real>, t: seq<real>)
    requires s != [] && Dominated(strict, s, t)
    ensures Below(strict, Median(s), Median(t))
  {
  }

  lemma MedianScaled(k: real, s: seq<real>)
    requires s != []
    ensures Median(Scaled(k, s)) == Times(k, Median(s))
  {
    hide Times, Scaled;
    var middle := |s| / 2;
    ScaledAt(k, s, middle);
    if |s| % 2 == 0 {
      ScaledAt(k, s, middle - 1);
      TimesMidpoint(k, s[middle - 1], s[middle]);
    }
  }

  lemma TimesMidpoint(k: real, x: real, y: real)
    ensures (Times(k, x) + Times(k, y)) / 2.0 == Times(k, (x + y) / 2.0)
  {
  }

  /** What a change in percent multiplies by. */
  function Factor(change: real): real {
    1.0 + change / 100.0
  }

  lemma ChangeWithin(baseline: real, candidate: real, change: real)
    requires baseline > 0.0
    ensures candidate <= Times(Factor(change), baseline) <==> PercentChange(baseline, candidate).value <= change
    ensures candidate >= Times(Factor(change), baseline) <==> PercentChange(baseline, candidate).value >= change
  {
    var ratio := (candidate - baseline) / baseline;
    assert ratio * baseline == candidate - baseline;
    assert Times(Factor(change), baseline) == baseline + (change / 100.0) * baseline;
    if ratio <= change / 100.0 {
      ProductSign(change / 100.0 - ratio, baseline);
      ProductOfDifference(baseline, change / 100.0, ratio);
    } else {
      ProductSign(ratio - change / 100.0, baseline);
      ProductOfDifference(baseline, ratio, change / 100.0);
    }
  }

  lemma MedianBackwards(s: seq<real>)
    requires s != []
    ensures Median(Backwards(s)) == Median(s)
  {
  }

  /** Scaling every value scales the median, whatever the sign of the factor. */
  lemma ScaledMedian(k: real, values: seq<real>)
    requires values != []
    ensures Median(Ordered(Scaled(k, values))) == Times(k, Median(Ordered(values)))
  {
    hide Median, Ordered, Scaled, Backwards;
    MedianScaled(k, Ordered(values));
    if k > 0.0 {
      OrderedScaled(k, values);
    } else {
      OrderedScaledBackwards(k, values);
      MedianBackwards(Scaled(k, Ordered(values)));
    }
  }

  lemma MedianNonnegative(values: seq<real>)
    requires values != [] && forall i :: 0 <= i < |values| ==> values[i] >= 0.0
    ensures Median(Ordered(values)) >= 0.0
  {
    OrderedSorts(values);
    var s := Ordered(values);
    forall i | 0 <= i < |s|
      ensures s[i] >= 0.0
    {
      assert s[i] in multiset(values);
    }
  }

  /** How far a metric may go: up by the limit, or down by it if higher is better. */
  function Allowed(m: Metric, limit: real): real {
    Factor(if HigherIsBetter(m) then -limit else limit)
  }

  /** A candidate value that is not worse than its baseline value by more than the limit. */
  predicate WithinLimit(m: Metric, limit: real, baseline: real, candidate: real) {
    if HigherIsBetter(m) then candidate >= Times(Allowed(m, limit), baseline)
    else candidate <= Times(Allowed(m, limit), baseline)
  }

  lemma OverBudgetIs(t: Thresholds, m: Metric, b: seq<RunResult>, c: seq<RunResult>)
    requires b != [] && c != [] && Everywhere(m, b) && Everywhere(m, c)
    requires ThresholdFor(t, m).Some? && ThresholdFor(t, m).value >= 0.0 && RunMedian(m, b) >= 0.0
    ensures OverBudget(t, m, b, c) ==>
              !WithinLimit(m, ThresholdFor(t, m).value, RunMedian(m, b), RunMedian(m, c))
    ensures RunMedian(m, b) > 0.0 && !OverBudget(t, m, b, c) ==>
              WithinLimit(m, ThresholdFor(t, m).value, RunMedian(m, b), RunMedian(m, c))
  {
    hide ThresholdFor, Everywhere, RunMedian, Factor, Times;
    var limit := ThresholdFor(t, m).value;
    if RunMedian(m, b) > 0.0 {
      ChangeWithin(RunMedian(m, b), RunMedian(m, c), if HigherIsBetter(m) then -limit else limit);
    } else {
      TimesZero(Allowed(m, limit));
    }
  }

  lemma TimesZero(k: real)
    ensures Times(k, 0.0) == 0.0
  {
  }

  /** The median of the candidates lies on the same side of the scaled median of the baselines. */
  lemma MediansPaired(strict: bool, k: real, values: seq<real>, paired: seq<real>)
    requires |paired| == |values| > 0
    ensures (forall i :: 0 <= i < |values| ==> Below(strict, paired[i], Times(k, values[i]))) ==>
              Below(strict, Median(Ordered(paired)), Times(k, Median(Ordered(values))))
    ensures (forall i :: 0 <= i < |values| ==> Below(strict, Times(k, values[i]), paired[i])) ==>
              Below(strict, Times(k, Median(Ordered(values))), Median(Ordered(paired)))
  {
    hide Median, Ordered, Scaled, Times, Below;
    forall i | 0 <= i < |values|
      ensures Scaled(k, values)[i] == Times(k, values[i])
    {
      ScaledAt(k, values, i);
    }
    ScaledMedian(k, values);
    if forall i :: 0 <= i < |values| ==> Below(strict, paired[i], Times(k, values[i])) {
      OrderedMonotone(strict, paired, Scaled(k, values));
      MedianMonotone(strict, Ordered(paired), Ordered(Scaled(k, values)));
    }
    if forall i :: 0 <= i < |values| ==> Below(strict, Times(k, values[i]), paired[i]) {
      OrderedMonotone(strict, Scaled(k, values), paired);
      MedianMonotone(strict, Ordered(Scaled(k, values)), Ordered(paired));
    }
  }

  /** If under some pairing of the runs every candidate value is within the limit of its
      nonnegative baseline value, the metric is not over budget: the gate never blames it. */
  lemma NeverBlamed(t: Thresholds, m: Metric, b: seq<RunResult>, c: seq<RunResult>, paired: seq<real>)
    requires b != [] && c != [] && Everywhere(m, b) && Everywhere(m, c)
    requires ThresholdFor(t, m).Some? && ThresholdFor(t, m).value >= 0.0
    requires multiset(paired) == multiset(Values(m, c)) && |paired| == |b|
    requires forall i :: 0 <= i < |b| ==> Values(m, b)[i] >= 0.0
    requires forall i :: 0 <= i < |b| ==> WithinLimit(m, ThresholdFor(t, m).value, Values(m, b)[i], paired[i])
    ensures !OverBudget(t, m, b, c)
  {
    hide Median, Ordered, Times, ThresholdFor, Extract, Everywhere, Values, Allowed, OverBudget;
    MedianNonnegative(Values(m, b));
    OrderedForgets(paired, Values(m, c));
    MediansPaired(false, Allowed(m, ThresholdFor(t, m).value), Values(m, b), paired);
    OverBudgetIs(t, m, b, c);
  }

  /** If under some pairing every candidate value is beyond the limit and the baseline's median is
      positive, the metric is over budget: the gate always blames it. */
  lemma AlwaysBlamed(t: Thresholds, m: Metric, b: seq<RunResult>, c: seq<RunResult>, paired: seq<real>)
    requires b != [] && c != [] && Everywhere(m, b) && Everywhere(m, c)
    requires ThresholdFor(t, m).Some? && ThresholdFor(t, m).value >= 0.0
    requires multiset(paired) == multiset(Values(m, c)) && |paired| == |b|
    requires RunMedian(m, b) > 0.0
    requires forall i :: 0 <= i < |b| ==> !WithinLimit(m, ThresholdFor(t, m).value, Values(m, b)[i], paired[i])
    ensures OverBudget(t, m, b, c)
  {
    hide Median, Ordered, Times, ThresholdFor, Extract, Everywhere, Values, Allowed, OverBudget;
    OrderedForgets(paired, Values(m, c));
    MediansPaired(true, Allowed(m, ThresholdFor(t, m).value), Values(m, b), paired);
    OverBudgetIs(t, m, b, c);
  }
}
