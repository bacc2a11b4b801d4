/** From the runs of two programs to the budget decision: summaries, metric comparisons and
    threshold violations (src/analysis/statistics.cpp:14-40, 72-132 and
    src/analysis/comparison.cpp:17-50, 67-163, 202-234). Metric keys are an enumeration. */
module Comparison {
  import opened Results
  import opened Profiles
  import opened Statistics

  // ----- runs and their metrics

  datatype ProcessMetrics = ProcessMetrics(
    wallTime: int,
    userTime: int,
    systemTime: int,
    maxRssBytes: nat,
    voluntarySwitches: nat,
    involuntarySwitches: nat)

  datatype Counters = Counters(
    available: bool,
    cycles: nat,
    instructions: nat,
    branches: nat,
    branchMisses: nat,
    cacheReferences: nat,
    cacheMisses: nat)

  datatype Application = Application(
    operations: Option<nat>,
    throughput: Option<real>,
    p50: Option<real>,
    p95: Option<real>,
    p99: Option<real>)

  datatype RunResult = RunResult(
    process: ProcessMetrics,
    counters: Counters,
    application: Option<Application>,
    functions: seq<FunctionSample>)

  datatype Metric =
    | Runtime
    | UserCpu
    | SystemCpu
    | MaxRss
    | VoluntarySwitches
    | InvoluntarySwitches
    | Throughput
    | P50Latency
    | P95Latency
    | P99Latency
    | CpuTimePerOperation
    | Cycles
    | Instructions
    | Ipc
    | Branches
    | BranchMisses
    | CacheReferences
    | CacheMisses

  /** In the order in which they are compared. */
  const METRICS: seq<Metric> := [
    Runtime, UserCpu, SystemCpu, MaxRss, VoluntarySwitches, InvoluntarySwitches, Throughput, P50Latency, P95Latency,
    P99Latency, CpuTimePerOperation, Cycles, Instructions, Ipc, Branches, BranchMisses, CacheReferences, CacheMisses]

  /** Metrics that every run has. */
  predicate Required(m: Metric) {
    m in {Runtime, UserCpu, SystemCpu, MaxRss, VoluntarySwitches, InvoluntarySwitches}
  }

  predicate HigherIsBetter(m: Metric) {
    m == Throughput || m == Ipc
  }

  function OptionalCounter(c: Counters, value: nat): Option<real> {
    if c.available then Some(value as real) else None
  }

  function Extract(m: Metric, run: RunResult): Option<real> {
    match m
    case Runtime => Some(run.process.wallTime as real)
    case UserCpu => Some(run.process.userTime as real)
    case SystemCpu => Some(run.process.systemTime as real)
    case MaxRss => Some(run.process.maxRssBytes as real)
    case VoluntarySwitches => Some(run.process.voluntarySwitches as real)
    case InvoluntarySwitches => Some(run.process.involuntarySwitches as real)
    case Throughput => if run.application.None? then None else run.application.value.throughput
    case P50Latency => if run.application.None? then None else run.application.value.p50
    case P95Latency => if run.application.None? then None else run.application.value.p95
    case P99Latency => if run.application.None? then None else run.application.value.p99
    case CpuTimePerOperation =>
      if run.application.None? || run.application.value.operations in {None, Some(0)} then None
      else Some((run.process.userTime + run.process.systemTime) as real / 1000.0
                / run.application.value.operations.value as real)
    case Cycles => OptionalCounter(run.counters, run.counters.cycles)
    case Instructions => OptionalCounter(run.counters, run.counters.instructions)
    case Ipc =>
      if !run.counters.available || run.counters.cycles == 0 then None
      else Some(run.counters.instructions as real / run.counters.cycles as real)
    case Branches => OptionalCounter(run.counters, run.counters.branches)
    case BranchMisses => OptionalCounter(run.counters, run.counters.branchMisses)
    case CacheReferences => OptionalCounter(run.counters, run.counters.cacheReferences)
    case CacheMisses => OptionalCounter(run.counters, run.counters.cacheMisses)
  }

  predicate Everywhere(m: Metric, runs: seq<RunResult>) {
    forall i :: 0 <= i < |runs| ==> Extract(m, runs[i]).Some?
  }

  /** The metric's value in each run. */
  function Values(m: Metric, runs: seq<RunResult>): (values: seq<real>)
    requires Everywhere(m, runs)
    ensures |values| == |runs|
  {
    seq(|runs|, i requires 0 <= i < |runs| => Extract(m, runs[i]).value)
  }

  /** What a metric is summarized to: nothing unless every run has it. */
  function Summarized(m: Metric, runs: seq<RunResult>, root: real -> real): Option<Distribution> {
    if runs != [] && Everywhere(m, runs) then Some(Describe(Values(m, runs), root)) else None
  }

  method Collect(m: Metric, runs: seq<RunResult>, root: real -> real) returns (r: Option<Distribution>)
    ensures r == Summarized(m, runs, root)
  {
    hide Extract, Describe;
    var values: seq<real> := [];
    for i := 0 to |runs|
      invariant Everywhere(m, runs[..i])
      invariant values == Values(m, runs[..i])
    {
      var value := Extract(m, runs[i]);
      if value.None? {
        return None;
      }
      assert runs[..i + 1] == runs[..i] + [runs[i]];
      values := values + [value.value];
    }
    assert runs[..|runs|] == runs;
    if values == [] {
      return None;
    }
    var summary := Summarize(values, root);
    r := Some(summary.value);
  }

  type Summary = map<Metric, Distribution>

  ghost predicate Summarizes(s: Summary, runs: seq<RunResult>, root: real -> real) {
    forall m: Metric :: (if m in s then Some(s[m]) else None) == Summarized(m, runs, root)
  }

  lemma EveryMetricListed(m: Metric)
    ensures m in METRICS
  {
    assert METRICS[0] == Runtime && METRICS[1] == UserCpu && METRICS[2] == SystemCpu && METRICS[3] == MaxRss
      && METRICS[4] == VoluntarySwitches && METRICS[5] == InvoluntarySwitches && METRICS[6] == Throughput
      && METRICS[7] == P50Latency && METRICS[8] == P95Latency && METRICS[9] == P99Latency
      && METRICS[10] == CpuTimePerOperation && METRICS[11] == Cycles && METRICS[12] == Instructions
      && METRICS[13] == Ipc && METRICS[14] == Branches && METRICS[15] == BranchMisses
      && METRICS[16] == CacheReferences && METRICS[17] == CacheMisses;
  }

  datatype AnalysisError = NoRuns | InvalidLimit(metric: Metric) | CannotEvaluate(metric: Metric)

  method SummarizeRuns(runs: seq<RunResult>, root: real -> real) returns (r: Result<Summary, AnalysisError>)
    ensures runs == [] ==> r == Err(NoRuns)
    ensures runs != [] ==> r.Ok? && Summarizes(r.value, runs, root)
  {
    hide METRICS, Summarized;
    if runs == [] {
      return Err(NoRuns);
    }
    var summary: Summary := map[];
    for k := 0 to |METRICS|
      invariant forall m: Metric :: m in summary ==> m in METRICS[..k]
      invariant forall m: Metric :: m in METRICS[..k] ==>
        (if m in summary then Some(summary[m]) else None) == Summarized(m, runs, root)
    {
      var d := Collect(METRICS[k], runs, root);
      assert METRICS[..k + 1] == METRICS[..k] + [METRICS[k]];
      if d.Some? {
        summary := summary[METRICS[k] := d.value];
      }
    }
    forall m: Metric
      ensures m in METRICS[..|METRICS|]
    {
      EveryMetricListed(m);
    }
    r := Ok(summary);
  }

  /** A required metric is always there; any other is there exactly if every run has it. */
  lemma SummaryHolds(s: Summary, runs: seq<RunResult>, root: real -> real, m: Metric)
    requires Summarizes(s, runs, root) && runs != []
    ensures m in s <==> Everywhere(m, runs)
    ensures m in s ==> s[m] == Describe(Values(m, runs), root)
    ensures Required(m) ==> m in s
  {
    hide Describe;
  }

  // ----- comparing two summaries

  function PercentChange(baseline: real, candidate: real): Option<real> {
    if baseline == 0.0 then
      if candidate == 0.0 then Some(0.0) else None
    else Some((candidate - baseline) / baseline * 100.0)
  }

  datatype MetricComparison = MetricComparison(
    metric: Metric,
    baseline: real,
    candidate: real,
    changePercent: Option<real>,
    higherIsBetter: bool)

  function Compared(m: Metric, baseline: Distribution, candidate: Distribution): MetricComparison {
    MetricComparison(m, baseline.median, candidate.median, PercentChange(baseline.median, candidate.median),
                     HigherIsBetter(m))
  }

  /** One entry, in order, for each listed metric that both summaries have. */
  function CompareListed(listed: seq<Metric>, baseline: Summary, candidate: Summary): seq<MetricComparison> {
    if listed == [] then []
    else
      var rest := CompareListed(listed[1..], baseline, candidate);
      if listed[0] in baseline && listed[0] in candidate
      then [Compared(listed[0], baseline[listed[0]], candidate[listed[0]])] + rest
      else rest
  }

  function CompareMetrics(baseline: Summary, candidate: Summary): seq<MetricComparison> {
    CompareListed(METRICS, baseline, candidate)
  }

  // ----- thresholds

  datatype Thresholds = Thresholds(
    runtime: Option<real>,
    p99Latency: Option<real>,
    throughput: Option<real>,
    cpu: Option<real>,
    rss: Option<real>)

  function ThresholdFor(t: Thresholds, m: Metric): Option<real> {
    match m
    case Runtime => t.runtime
    case P99Latency => t.p99Latency
    case Throughput => t.throughput
    case CpuTimePerOperation => t.cpu
    case MaxRss => t.rss
    case _ => None
  }

  /** In the order in which limits are validated. */
  const BUDGETS: seq<Metric> := [Runtime, P99Latency, Throughput, CpuTimePerOperation, MaxRss]

  datatype Violation = Violation(metric: Metric, changePercent: real, limitPercent: real)

  function First(metrics: seq<MetricComparison>, m: Metric): Option<MetricComparison> {
    if metrics == [] then None
    else if metrics[0].metric == m then Some(metrics[0])
    else First(metrics[1..], m)
  }

  /** What is wrong with one configured limit. */
  function Objection(metrics: seq<MetricComparison>, t: Thresholds, m: Metric): Option<AnalysisError> {
    var limit := ThresholdFor(t, m);
    if limit.None? then None
    else if limit.value < 0.0 then Some(InvalidLimit(m))
    else if First(metrics, m).None? || First(metrics, m).value.changePercent.None? then Some(CannotEvaluate(m))
    else None
  }

  function FirstObjection(metrics: seq<MetricComparison>, t: Thresholds, listed: seq<Metric>): Option<AnalysisError> {
    if listed == [] then None
    else
      var here := Objection(metrics, t, listed[0]);
      if here.Some? then here else FirstObjection(metrics, t, listed[1..])
  }

  function Regression(c: MetricComparison): real
    requires c.changePercent.Some?
  {
    if c.higherIsBetter then -c.changePercent.value else c.changePercent.value
  }

  predicate Violates(t: Thresholds, c: MetricComparison) {
    var limit := ThresholdFor(t, c.metric);
    limit.Some? && c.changePercent.Some? && Regression(c) > limit.value
  }

  function Reported(t: Thresholds, c: MetricComparison): Violation
    requires Violates(t, c)
  {
    Violation(c.metric, c.changePercent.value, ThresholdFor(t, c.metric).value)
  }

  function Violations(metrics: seq<MetricComparison>, t: Thresholds): seq<Violation> {
    if metrics == [] then []
    else
      var front, last := metrics[..|metrics| - 1], metrics[|metrics| - 1];
      Violations(front, t) + (if Violates(t, last) then [Reported(t, last)] else [])
  }

  method FindMetric(metrics: seq<MetricComparison>, m: Metric) returns (found: Option<MetricComparison>)
    ensures found == First(metrics, m)
  {
    var k := 0;
    while k < |metrics| && metrics[k].metric != m
      invariant 0 <= k <= |metrics|
      invariant First(metrics, m) == First(metrics[k..], m)
    {
      assert metrics[k..][1..] == metrics[k + 1..];
      k := k + 1;
    }
    found := if k < |metrics| then Some(metrics[k]) else None;
  }

  method CheckLimits(metrics: seq<MetricComparison>, t: Thresholds) returns (error: Option<AnalysisError>)
    ensures error == FirstObjection(metrics, t, BUDGETS)
  {
    hide First;
    for k := 0 to |BUDGETS|
      invariant FirstObjection(metrics, t, BUDGETS) == FirstObjection(metrics, t, BUDGETS[k..])
    {
      var m := BUDGETS[k];
      assert BUDGETS[k..][0] == m && BUDGETS[k..][1..] == BUDGETS[k + 1..];
      var limit := ThresholdFor(t, m);
      if limit.Some? {
        if limit.value < 0.0 {
          return Some(InvalidLimit(m));
        }
        var found := FindMetric(metrics, m);
        if found.None? || found.value.changePercent.None? {
          return Some(CannotEvaluate(m));
        }
      }
    }
    error := None;
  }

  method EvaluateThresholds(metrics: seq<MetricComparison>, t: Thresholds)
      returns (r: Result<seq<Violation>, AnalysisError>)
    ensures r == match FirstObjection(metrics, t, BUDGETS)
                 case Some(error) => Err(error)
                 case None => Ok(Violations(metrics, t))
  {
    hide FirstObjection;
    var error := CheckLimits(metrics, t);
    if error.Some? {
      return Err(error.value);
    }
    var violations: seq<Violation> := [];
    for k := 0 to |metrics|
      invariant violations == Violations(metrics[..k], t)
    {
      var metric := metrics[k];
      assert metrics[..k + 1][..k] == metrics[..k];
      var limit := ThresholdFor(t, metric.metric);
      if limit.Some? && metric.changePercent.Some? {
        var regression := if metric.higherIsBetter then -metric.changePercent.value else metric.changePercent.value;
        if regression > limit.value {
          violations := violations + [Violation(metric.metric, metric.changePercent.value, limit.value)];
        }
      }
    }
    assert metrics[..|metrics|] == metrics;
    r := Ok(violations);
  }
}
