/** Summaries, comparisons and budgets on the measurements themselves: which field of the runs each metric
    is, and which limit guards which field (src/analysis/comparison.cpp:67-84, 99-163, 202-234;
    src/analysis/statistics.cpp:72-132). */
module Budgets {
  import opened Results
  import opened OrderStatistics
  import opened Statistics
  import opened Comparison
  import opened Gate

  /** A measurement of a run, if the run has it. */
  type Field = RunResult -> Option<real>

  predicate Has(field: Field, runs: seq<RunResult>) {
    forall i :: 0 <= i < |runs| ==> field(runs[i]).Some?
  }

  function Reading(field: Field, run: RunResult): real {
    var value := field(run);
    if value.Some? then value.value else 0.0
  }

  function Readings(field: Field, runs: seq<RunResult>): (readings: seq<real>)
    ensures |readings| == |runs|
  {
    seq(|runs|, i requires 0 <= i < |runs| => Reading(field, runs[i]))
  }

  function Middle(field: Field, runs: seq<RunResult>): real
    requires runs != []
  {
    Median(Ordered(Readings(field, runs)))
  }

  predicate IsReported(violations: seq<Violation>, m: Metric) {
    exists i :: 0 <= i < |violations| && violations[i].metric == m
  }

  /** Worse than the baseline value by more than the limit in percent. */
  predicate Beyond(limit: real, lowerIsWorse: bool, baseline: real, candidate: real) {
    if lowerIsWorse then candidate < (1.0 - limit / 100.0) * baseline
    else candidate > (1.0 + limit / 100.0) * baseline
  }

  /** A limit that can be evaluated: not negative, on a field that all runs have, with a defined change. */
  ghost predicate Evaluable(limit: real, field: Field, b: seq<RunResult>, c: seq<RunResult>)
    requires b != [] && c != []
  {
    && limit >= 0.0
    && Has(field, b) && Has(field, c)
    && (Middle(field, b) == 0.0 ==> Middle(field, c) == 0.0)
  }

  /** What a limit on a field means. It is reported exactly if the medians differ by more than the limit in
      the bad direction; so never if under some pairing of the runs no candidate is beyond the
      limit of its baseline, and always if under some pairing all are and the baseline's median is
      positive. What is reported is the limit and the change of the medians. */
  ghost predicate Guards(limit: real, lowerIsWorse: bool, field: Field, m: Metric,
                         b: seq<RunResult>, c: seq<RunResult>, violations: seq<Violation>)
    requires b != [] && c != []
  {
    var before, after := Middle(field, b), Middle(field, c);
    && Evaluable(limit, field, b, c)
    && (IsReported(violations, m) <==>
          && before != 0.0
          && (if lowerIsWorse then -((after - before) / before * 100.0) else (after - before) / before * 100.0) > limit)
    && (forall i :: 0 <= i < |violations| && violations[i].metric == m ==>
          violations[i].limitPercent == limit && violations[i].changePercent * before == 100.0 * (after - before))
    && (forall paired :: multiset(paired) == multiset(c) && |paired| == |b| ==>
          && (NoneBeyond(limit, lowerIsWorse, field, b, paired) ==> !IsReported(violations, m))
          && (before > 0.0 && AllBeyond(limit, lowerIsWorse, field, b, paired) ==> IsReported(violations, m)))
  }

  predicate NoneBeyond(limit: real, lowerIsWorse: bool, field: Field, b: seq<RunResult>, paired: seq<RunResult>)
    requires |paired| == |b|
  {
    forall i :: 0 <= i < |b| ==>
      Reading(field, b[i]) >= 0.0 && !Beyond(limit, lowerIsWorse, Reading(field, b[i]), Reading(field, paired[i]))
  }

  predicate AllBeyond(limit: real, lowerIsWorse: bool, field: Field, b: seq<RunResult>, paired: seq<RunResult>)
    requires |paired| == |b|
  {
    forall i :: 0 <= i < |b| ==> Beyond(limit, lowerIsWorse, Reading(field, b[i]), Reading(field, paired[i]))
  }

  // ----- the fields

  const WALL_TIME: Field := (run: RunResult) => Some(run.process.wallTime as real)

  const MAX_RSS: Field := (run: RunResult) => Some(run.process.maxRssBytes as real)

  const P99: Field := (run: RunResult) => if run.application.Some? then run.application.value.p99 else None

  const THROUGHPUT: Field := (run: RunResult) => if run.application.Some? then run.application.value.throughput else None

  /** Microseconds of processor time per operation, if operations were counted and there were some. */
  const CPU_PER_OPERATION: Field := (run: RunResult) =>
    if run.application.Some? && run.application.value.operations.Some? && run.application.value.operations.value > 0
    then Some((run.process.userTime + run.process.systemTime) as real / 1000.0
              / run.application.value.operations.value as real)
    else None

  const USER_TIME: Field := (run: RunResult) => Some(run.process.userTime as real)

  const SYSTEM_TIME: Field := (run: RunResult) => Some(run.process.systemTime as real)

  const VOLUNTARY: Field := (run: RunResult) => Some(run.process.voluntarySwitches as real)

  const INVOLUNTARY: Field := (run: RunResult) => Some(run.process.involuntarySwitches as real)

  const P50: Field := (run: RunResult) => if run.application.Some? then run.application.value.p50 else None

  const P95: Field := (run: RunResult) => if run.application.Some? then run.application.value.p95 else None

  const CYCLES: Field := (run: RunResult) => if run.counters.available then Some(run.counters.cycles as real) else None

  const INSTRUCTIONS: Field := (run: RunResult) =>
    if run.counters.available then Some(run.counters.instructions as real) else None

  const BRANCHES: Field := (run: RunResult) => if run.counters.available then Some(run.counters.branches as real) else None

  const BRANCH_MISSES: Field := (run: RunResult) =>
    if run.counters.available then Some(run.counters.branchMisses as real) else None

  const CACHE_REFERENCES: Field := (run: RunResult) =>
    if run.counters.available then Some(run.counters.cacheReferences as real) else None

  const CACHE_MISSES: Field := (run: RunResult) =>
    if run.counters.available then Some(run.counters.cacheMisses as real) else None

  const INSTRUCTIONS_PER_CYCLE: Field := (run: RunResult) =>
    if run.counters.available && run.counters.cycles > 0
    then Some(run.counters.instructions as real / run.counters.cycles as real) else None

  // ----- a metric that reads a field

  ghost predicate Reads(m: Metric, field: Field) {
    forall run :: Extract(m, run) == field(run)
  }

  lemma ReadingsAre(m: Metric, field: Field, runs: seq<RunResult>)
    requires Reads(m, field)
    ensures Everywhere(m, runs) <==> Has(field, runs)
    ensures Everywhere(m, runs) ==> Values(m, runs) == Readings(field, runs)
  {
    hide Extract;
  }

  lemma FirstElsewhere(x: seq<RunResult>, y: seq<RunResult>) returns (k: nat)
    requires multiset(x) == multiset(y) && x != []
    ensures k < |y| && y[k] == x[0] && multiset(x[1..]) == multiset(y[..k] + y[k + 1..])
  {
    assert x[0] in multiset(y);
    k :| 0 <= k < |y| && y[k] == x[0];
    assert y == y[..k] + [y[k]] + y[k + 1..];
    assert x == [x[0]] + x[1..];
    assert multiset(y) == multiset(y[..k] + y[k + 1..]) + multiset{y[k]};
    assert multiset(x[1..]) == multiset(x) - multiset{x[0]};
  }

  lemma {:induction false} ReadingsKeep(field: Field, x: seq<RunResult>, y: seq<RunResult>)
    requires multiset(x) == multiset(y)
    ensures multiset(Readings(field, x)) == multiset(Readings(field, y))
    decreases |x|
  {
    hide Readings;
    if x == [] {
      assert |multiset(y)| == 0;
    } else {
      var k := FirstElsewhere(x, y);
      ReadingsKeep(field, x[1..], y[..k] + y[k + 1..]);
      ReadingsCut(field, x, 0);
      ReadingsCut(field, y, k);
      assert x[..0] + x[1..] == x[1..];
    }
  }

  lemma ReadingsCut(field: Field, runs: seq<RunResult>, k: nat)
    requires k < |runs|
    ensures multiset(Readings(field, runs)) ==
            multiset(Readings(field, runs[..k] + runs[k + 1..])) + multiset{Reading(field, runs[k])}
  {
    assert runs == runs[..k] + [runs[k]] + runs[k + 1..];
    ReadingsSplit(field, runs[..k], runs[k], runs[k + 1..]);
  }

  lemma ReadingsSplit(field: Field, x: seq<RunResult>, run: RunResult, y: seq<RunResult>)
    ensures multiset(Readings(field, x + [run] + y)) == multiset(Readings(field, x + y)) + multiset{Reading(field, run)}
  {
    assert Readings(field, x + [run] + y) == Readings(field, x) + [Reading(field, run)] + Readings(field, y);
    assert Readings(field, x + y) == Readings(field, x) + Readings(field, y);
  }

  // ----- what the violations say of a metric

  /** The violations of runs whose limits can all be evaluated. */
  ghost predicate Settles(t: Thresholds, b: seq<RunResult>, c: seq<RunResult>, violations: seq<Violation>) {
    && (forall m: Metric :: ThresholdFor(t, m).Some? ==> ThresholdFor(t, m).value >= 0.0 && RunChange(m, b, c).Some?)
    && (forall m: Metric :: OverBudget(t, m, b, c) <==> IsReported(violations, m))
    && (forall i :: 0 <= i < |violations| ==>
          && RunChange(violations[i].metric, b, c) == Some(violations[i].changePercent)
          && ThresholdFor(t, violations[i].metric) == Some(violations[i].limitPercent))
  }

  lemma MiddleIs(m: Metric, field: Field, runs: seq<RunResult>)
    requires Reads(m, field) && runs != [] && Everywhere(m, runs)
    ensures Middle(field, runs) == RunMedian(m, runs)
  {
    hide Reads, Everywhere, Median, Ordered;
    ReadingsAre(m, field, runs);
  }

  lemma BeyondIs(m: Metric, limit: real, baseline: real, candidate: real)
    ensures Beyond(limit, HigherIsBetter(m), baseline, candidate) <==> !WithinLimit(m, limit, baseline, candidate)
  {
    assert -limit / 100.0 == -(limit / 100.0);
    assert 1.0 + -limit / 100.0 == 1.0 - limit / 100.0;
  }

  lemma ChangeTimes(before: real, after: real)
    requires PercentChange(before, after).Some?
    ensures PercentChange(before, after).value * before == 100.0 * (after - before)
    ensures before == 0.0 ==> after == 0.0 && PercentChange(before, after).value == 0.0
    ensures before != 0.0 ==> PercentChange(before, after).value == (after - before) / before * 100.0
  {
    if before != 0.0 {
      var q := (after - before) / before;
      assert q * before == after - before;
      assert q * 100.0 * before == 100.0 * (q * before);
    }
  }

  lemma GuardsNone(t: Thresholds, m: Metric, field: Field, b: seq<RunResult>, c: seq<RunResult>, paired: seq<RunResult>)
    requires Reads(m, field) && b != [] && c != [] && Everywhere(m, b) && Everywhere(m, c)
    requires ThresholdFor(t, m).Some? && ThresholdFor(t, m).value >= 0.0
    requires multiset(paired) == multiset(c) && |paired| == |b|
    requires NoneBeyond(ThresholdFor(t, m).value, HigherIsBetter(m), field, b, paired)
    ensures !OverBudget(t, m, b, c)
  {
    hide Reads, Extract, Everywhere, Beyond, WithinLimit, OverBudget, ThresholdFor, HigherIsBetter, Readings;
    ReadingsAre(m, field, b);
    ReadingsAre(m, field, c);
    ReadingsKeep(field, paired, c);
    var limit := ThresholdFor(t, m).value;
    forall i | 0 <= i < |b|
      ensures Values(m, b)[i] >= 0.0 && WithinLimit(m, limit, Values(m, b)[i], Readings(field, paired)[i])
    {
      ReadingAt(field, b, i);
      ReadingAt(field, paired, i);
      BeyondIs(m, limit, Readings(field, b)[i], Readings(field, paired)[i]);
    }
    NeverBlamed(t, m, b, c, Readings(field, paired));
  }

  lemma ReadingAt(field: Field, runs: seq<RunResult>, i: nat)
    requires i < |runs|
    ensures Readings(field, runs)[i] == Reading(field, runs[i])
  {
  }

  lemma GuardsAll(t: Thresholds, m: Metric, field: Field, b: seq<RunResult>, c: seq<RunResult>, paired: seq<RunResult>)
    requires Reads(m, field) && b != [] && c != [] && Everywhere(m, b) && Everywhere(m, c)
    requires ThresholdFor(t, m).Some? && ThresholdFor(t, m).value >= 0.0 && RunMedian(m, b) > 0.0
    requires multiset(paired) == multiset(c) && |paired| == |b|
    requires AllBeyond(ThresholdFor(t, m).value, HigherIsBetter(m), field, b, paired)
    ensures OverBudget(t, m, b, c)
  {
    hide Reads, Extract, Everywhere, Beyond, WithinLimit, OverBudget, ThresholdFor, HigherIsBetter, Readings;
    ReadingsAre(m, field, b);
    ReadingsAre(m, field, c);
    ReadingsKeep(field, paired, c);
    var limit := ThresholdFor(t, m).value;
    forall i | 0 <= i < |b|
      ensures !WithinLimit(m, limit, Values(m, b)[i], Readings(field, paired)[i])
    {
      ReadingAt(field, b, i);
      ReadingAt(field, paired, i);
      BeyondIs(m, limit, Readings(field, b)[i], Readings(field, paired)[i]);
    }
    AlwaysBlamed(t, m, b, c, Readings(field, paired));
  }

  lemma OverBudgetSays(t: Thresholds, m: Metric, b: seq<RunResult>, c: seq<RunResult>)
    requires ThresholdFor(t, m).Some? && ThresholdFor(t, m).value >= 0.0 && RunChange(m, b, c).Some?
    ensures b != [] && c != [] && Everywhere(m, b) && Everywhere(m, c)
    ensures var before, after := RunMedian(m, b), RunMedian(m, c);
      && (before == 0.0 ==> after == 0.0)
      && RunChange(m, b, c).value * before == 100.0 * (after - before)
      && (OverBudget(t, m, b, c) <==>
            before != 0.0
            && (if HigherIsBetter(m) then -((after - before) / before * 100.0) else (after - before) / before * 100.0)
               > ThresholdFor(t, m).value)
  {
    hide ThresholdFor, HigherIsBetter, RunMedian, Everywhere, PercentChange;
    ChangeTimes(RunMedian(m, b), RunMedian(m, c));
  }

  lemma GuardsPaired(t: Thresholds, m: Metric, limit: real, lowerIsWorse: bool, field: Field,
                     b: seq<RunResult>, c: seq<RunResult>, violations: seq<Violation>)
    requires b != [] && c != [] && Everywhere(m, b) && Everywhere(m, c) && Reads(m, field)
    requires ThresholdFor(t, m) == Some(limit) && limit >= 0.0 && HigherIsBetter(m) == lowerIsWorse
    requires OverBudget(t, m, b, c) <==> IsReported(violations, m)
    ensures forall paired :: multiset(paired) == multiset(c) && |paired| == |b| ==>
      && (NoneBeyond(limit, lowerIsWorse, field, b, paired) ==> !IsReported(violations, m))
      && (Middle(field, b) > 0.0 && AllBeyond(limit, lowerIsWorse, field, b, paired) ==> IsReported(violations, m))
  {
    hide Reads, Extract, Everywhere, OverBudget, ThresholdFor, HigherIsBetter, Readings, RunMedian, Middle, IsReported, Has,
      NoneBeyond, AllBeyond, RunChange;
    MiddleIs(m, field, b);
    forall paired | multiset(paired) == multiset(c) && |paired| == |b|
      ensures NoneBeyond(limit, lowerIsWorse, field, b, paired) ==> !IsReported(violations, m)
      ensures Middle(field, b) > 0.0 && AllBeyond(limit, lowerIsWorse, field, b, paired) ==> IsReported(violations, m)
    {
      if NoneBeyond(limit, lowerIsWorse, field, b, paired) {
        GuardsNone(t, m, field, b, c, paired);
      }
      if Middle(field, b) > 0.0 && AllBeyond(limit, lowerIsWorse, field, b, paired) {
        GuardsAll(t, m, field, b, c, paired);
      }
    }
  }

  lemma SettlesFor(t: Thresholds, b: seq<RunResult>, c: seq<RunResult>, violations: seq<Violation>, m: Metric)
    requires Settles(t, b, c, violations) && ThresholdFor(t, m).Some?
    ensures ThresholdFor(t, m).value >= 0.0 && RunChange(m, b, c).Some?
    ensures OverBudget(t, m, b, c) <==> IsReported(violations, m)
    ensures forall i :: 0 <= i < |violations| && violations[i].metric == m ==>
      violations[i].limitPercent == ThresholdFor(t, m).value && violations[i].changePercent == RunChange(m, b, c).value
  {
    hide ThresholdFor, RunChange, OverBudget, IsReported;
  }

  /** Whether a configured limit can be evaluated, in terms of its field. */
  lemma EvaluableIs(t: Thresholds, m: Metric, field: Field, b: seq<RunResult>, c: seq<RunResult>)
    requires b != [] && c != [] && Reads(m, field) && ThresholdFor(t, m).Some?
    ensures Evaluable(ThresholdFor(t, m).value, field, b, c) <==>
            ThresholdFor(t, m).value >= 0.0 && RunChange(m, b, c).Some?
  {
    hide Reads, Extract, Everywhere, ThresholdFor, Readings, RunMedian, Middle, Has;
    ReadingsAre(m, field, b);
    ReadingsAre(m, field, c);
    if Everywhere(m, b) && Everywhere(m, c) {
      MiddleIs(m, field, b);
      MiddleIs(m, field, c);
    }
  }

  lemma GuardsHold(t: Thresholds, m: Metric, limit: real, lowerIsWorse: bool, field: Field,
                   b: seq<RunResult>, c: seq<RunResult>, violations: seq<Violation>)
    requires b != [] && c != [] && Settles(t, b, c, violations) && Reads(m, field)
    requires ThresholdFor(t, m) == Some(limit) && HigherIsBetter(m) == lowerIsWorse
    ensures Guards(limit, lowerIsWorse, field, m, b, c, violations)
  {
    hide Settles, Evaluable, Reads, Extract, Everywhere, OverBudget, ThresholdFor, HigherIsBetter, Readings,
      RunMedian, Middle,
      IsReported, Has, NoneBeyond, AllBeyond, RunChange;
    SettlesFor(t, b, c, violations, m);
    EvaluableIs(t, m, field, b, c);
    OverBudgetSays(t, m, b, c);
    MiddleIs(m, field, b);
    MiddleIs(m, field, c);
    GuardsPaired(t, m, limit, lowerIsWorse, field, b, c, violations);
  }

  // ----- the five budgets

  /** Each configured limit guards its own field, and nothing else is reported. */
  ghost predicate BudgetsKept(t: Thresholds, b: seq<RunResult>, c: seq<RunResult>, violations: seq<Violation>)
    requires b != [] && c != []
  {
    && (t.runtime.Some? ==> Guards(t.runtime.value, false, WALL_TIME, Runtime, b, c, violations))
    && (t.rss.Some? ==> Guards(t.rss.value, false, MAX_RSS, MaxRss, b, c, violations))
    && (t.p99Latency.Some? ==> Guards(t.p99Latency.value, false, P99, P99Latency, b, c, violations))
    && (t.throughput.Some? ==> Guards(t.throughput.value, true, THROUGHPUT, Throughput, b, c, violations))
    && (t.cpu.Some? ==> Guards(t.cpu.value, false, CPU_PER_OPERATION, CpuTimePerOperation, b, c, violations))
    && (forall i :: 0 <= i < |violations| ==> Limited(t, violations[i].metric))
  }

  predicate Limited(t: Thresholds, m: Metric) {
    || (m == Runtime && t.runtime.Some?)
    || (m == MaxRss && t.rss.Some?)
    || (m == P99Latency && t.p99Latency.Some?)
    || (m == Throughput && t.throughput.Some?)
    || (m == CpuTimePerOperation && t.cpu.Some?)
  }

  lemma ProcessFieldsRead()
    ensures Reads(Runtime, WALL_TIME)
    ensures Reads(UserCpu, USER_TIME)
    ensures Reads(SystemCpu, SYSTEM_TIME)
    ensures Reads(MaxRss, MAX_RSS)
    ensures Reads(VoluntarySwitches, VOLUNTARY)
    ensures Reads(InvoluntarySwitches, INVOLUNTARY)
  {
  }

  lemma LatencyFieldsRead()
    ensures Reads(Throughput, THROUGHPUT)
    ensures Reads(P50Latency, P50)
    ensures Reads(P95Latency, P95)
    ensures Reads(P99Latency, P99)
  {
  }

  lemma CpuReading(run: RunResult)
    ensures Extract(CpuTimePerOperation, run) == CPU_PER_OPERATION(run)
  {
    if run.application.Some? {
      var operations := run.application.value.operations;
      assert operations in {None, Some(0)} <==> operations.None? || operations.value == 0;
      if operations.Some? && operations.value > 0 {
        assert CPU_PER_OPERATION(run) ==
          Some((run.process.userTime + run.process.systemTime) as real / 1000.0 / operations.value as real);
      }
    }
  }

  lemma CpuFieldReads()
    ensures Reads(CpuTimePerOperation, CPU_PER_OPERATION)
  {
    hide Extract, CPU_PER_OPERATION;
    forall run
      ensures Extract(CpuTimePerOperation, run) == CPU_PER_OPERATION(run)
    {
      CpuReading(run);
    }
  }

  lemma IpcFieldReads()
    ensures Reads(Ipc, INSTRUCTIONS_PER_CYCLE)
  {
  }

  lemma CycleFieldsRead()
    ensures Reads(Cycles, CYCLES)
    ensures Reads(Instructions, INSTRUCTIONS)
  {
  }

  lemma BranchFieldsRead()
    ensures Reads(Branches, BRANCHES)
    ensures Reads(BranchMisses, BRANCH_MISSES)
  {
  }

  lemma CacheFieldsRead()
    ensures Reads(CacheReferences, CACHE_REFERENCES)
    ensures Reads(CacheMisses, CACHE_MISSES)
  {
  }

  lemma FieldsRead()
    ensures Reads(Runtime, WALL_TIME)
    ensures Reads(UserCpu, USER_TIME)
    ensures Reads(SystemCpu, SYSTEM_TIME)
    ensures Reads(MaxRss, MAX_RSS)
    ensures Reads(VoluntarySwitches, VOLUNTARY)
    ensures Reads(InvoluntarySwitches, INVOLUNTARY)
    ensures Reads(Throughput, THROUGHPUT)
    ensures Reads(P50Latency, P50)
    ensures Reads(P95Latency, P95)
    ensures Reads(P99Latency, P99)
    ensures Reads(CpuTimePerOperation, CPU_PER_OPERATION)
    ensures Reads(Cycles, CYCLES)
    ensures Reads(Instructions, INSTRUCTIONS)
    ensures Reads(Ipc, INSTRUCTIONS_PER_CYCLE)
    ensures Reads(Branches, BRANCHES)
    ensures Reads(BranchMisses, BRANCH_MISSES)
    ensures Reads(CacheReferences, CACHE_REFERENCES)
    ensures Reads(CacheMisses, CACHE_MISSES)
  {
    hide Extract, Reads;
    ProcessFieldsRead();
    LatencyFieldsRead();
    CpuFieldReads();
    IpcFieldReads();
    CycleFieldsRead();
    BranchFieldsRead();
    CacheFieldsRead();
  }

  lemma LimitsAre(t: Thresholds)
    ensures ThresholdFor(t, Runtime) == t.runtime && !HigherIsBetter(Runtime)
    ensures ThresholdFor(t, MaxRss) == t.rss && !HigherIsBetter(MaxRss)
    ensures ThresholdFor(t, P99Latency) == t.p99Latency && !HigherIsBetter(P99Latency)
    ensures ThresholdFor(t, Throughput) == t.throughput && HigherIsBetter(Throughput)
    ensures ThresholdFor(t, CpuTimePerOperation) == t.cpu && !HigherIsBetter(CpuTimePerOperation)
  {
  }

  lemma OnlyLimited(t: Thresholds, m: Metric)
    requires ThresholdFor(t, m).Some?
    ensures Limited(t, m)
  {
  }

  /** All configured limits can be evaluated. */
  ghost predicate AllEvaluable(t: Thresholds, b: seq<RunResult>, c: seq<RunResult>)
    requires b != [] && c != []
  {
    && (t.runtime.Some? ==> Evaluable(t.runtime.value, WALL_TIME, b, c))
    && (t.rss.Some? ==> Evaluable(t.rss.value, MAX_RSS, b, c))
    && (t.p99Latency.Some? ==> Evaluable(t.p99Latency.value, P99, b, c))
    && (t.throughput.Some? ==> Evaluable(t.throughput.value, THROUGHPUT, b, c))
    && (t.cpu.Some? ==> Evaluable(t.cpu.value, CPU_PER_OPERATION, b, c))
  }

  /** A limit is evaluated on the field it belongs to. */
  lemma AllEvaluableIs(t: Thresholds, b: seq<RunResult>, c: seq<RunResult>)
    requires b != [] && c != []
    ensures AllEvaluable(t, b, c) <==>
            forall m: Metric :: ThresholdFor(t, m).Some? ==> ThresholdFor(t, m).value >= 0.0 && RunChange(m, b, c).Some?
  {
    hide Evaluable, Reads, WALL_TIME, MAX_RSS, P99, THROUGHPUT, CPU_PER_OPERATION, ThresholdFor, RunChange;
    FieldsRead();
    LimitsAre(t);
    forall m: Metric | ThresholdFor(t, m).Some?
      ensures Limited(t, m)
      ensures forall field :: Reads(m, field) ==>
        (Evaluable(ThresholdFor(t, m).value, field, b, c) <==>
           ThresholdFor(t, m).value >= 0.0 && RunChange(m, b, c).Some?)
    {
      OnlyLimited(t, m);
      forall field | Reads(m, field)
        ensures Evaluable(ThresholdFor(t, m).value, field, b, c) <==>
                ThresholdFor(t, m).value >= 0.0 && RunChange(m, b, c).Some?
      {
        EvaluableIs(t, m, field, b, c);
      }
    }
  }

  /** The decision on any runs keeps the five budgets. */
  lemma SettledKeepsBudgets(t: Thresholds, b: seq<RunResult>, c: seq<RunResult>, violations: seq<Violation>)
    requires b != [] && c != [] && Settles(t, b, c, violations)
    ensures BudgetsKept(t, b, c, violations)
  {
    hide Guards, Reads, Settles, HigherIsBetter, WALL_TIME, MAX_RSS, P99, THROUGHPUT, CPU_PER_OPERATION, ThresholdFor;
    FieldsRead();
    LimitsAre(t);
    if t.runtime.Some? {
      GuardsHold(t, Runtime, t.runtime.value, false, WALL_TIME, b, c, violations);
    }
    if t.rss.Some? {
      GuardsHold(t, MaxRss, t.rss.value, false, MAX_RSS, b, c, violations);
    }
    if t.p99Latency.Some? {
      GuardsHold(t, P99Latency, t.p99Latency.value, false, P99, b, c, violations);
    }
    if t.throughput.Some? {
      GuardsHold(t, Throughput, t.throughput.value, true, THROUGHPUT, b, c, violations);
    }
    if t.cpu.Some? {
      GuardsHold(t, CpuTimePerOperation, t.cpu.value, false, CPU_PER_OPERATION, b, c, violations);
    }
    forall i | 0 <= i < |violations|
      ensures Limited(t, violations[i].metric)
    {
      SettlesAt(t, b, c, violations, i);
      OnlyLimited(t, violations[i].metric);
    }
  }

  lemma SettlesAt(t: Thresholds, b: seq<RunResult>, c: seq<RunResult>, violations: seq<Violation>, i: nat)
    requires Settles(t, b, c, violations) && i < |violations|
    ensures ThresholdFor(t, violations[i].metric).Some?
  {
    hide ThresholdFor, RunChange, OverBudget, IsReported;
  }

  // ----- the first objection

  /** What is wrong with one limit, in terms of its field. */
  ghost function Complaint(limit: Option<real>, field: Field, m: Metric, b: seq<RunResult>, c: seq<RunResult>)
      : Option<AnalysisError>
    requires b != [] && c != []
  {
    if limit.None? then None
    else if limit.value < 0.0 then Some(InvalidLimit(m))
    else if !Evaluable(limit.value, field, b, c) then Some(CannotEvaluate(m))
    else None
  }

  ghost function Or(first: Option<AnalysisError>, second: Option<AnalysisError>): Option<AnalysisError> {
    if first.Some? then first else second
  }

  /** The limits are looked at in this order. */
  ghost function FirstComplaint(t: Thresholds, b: seq<RunResult>, c: seq<RunResult>): Option<AnalysisError>
    requires b != [] && c != []
  {
    Or(Complaint(t.runtime, WALL_TIME, Runtime, b, c),
       Or(Complaint(t.p99Latency, P99, P99Latency, b, c),
          Or(Complaint(t.throughput, THROUGHPUT, Throughput, b, c),
             Or(Complaint(t.cpu, CPU_PER_OPERATION, CpuTimePerOperation, b, c),
                Complaint(t.rss, MAX_RSS, MaxRss, b, c)))))
  }

  lemma ComplaintIs(bs: Summary, cs: Summary, b: seq<RunResult>, c: seq<RunResult>, root: real -> real,
                    t: Thresholds, m: Metric, field: Field)
    requires b != [] && c != [] && Summarizes(bs, b, root) && Summarizes(cs, c, root) && Reads(m, field)
    ensures Objection(CompareMetrics(bs, cs), t, m) == Complaint(ThresholdFor(t, m), field, m, b, c)
  {
    hide Summarizes, First, CompareListed, Compared, RunChange, METRICS, ThresholdFor, Evaluable, Reads;
    FirstListed(METRICS, bs, cs, m);
    EveryMetricListed(m);
    ComparedRuns(bs, cs, b, c, root, m);
    ChangeNeedsRuns(m, b, c);
    if ThresholdFor(t, m).Some? {
      EvaluableIs(t, m, field, b, c);
    }
  }

  lemma ObjectionsInTurn(metrics: seq<MetricComparison>, t: Thresholds, listed: seq<Metric>)
    requires listed != []
    ensures FirstObjection(metrics, t, listed) == Or(Objection(metrics, t, listed[0]), FirstObjection(metrics, t, listed[1..]))
    ensures |listed| == 1 ==> FirstObjection(metrics, t, listed) == Objection(metrics, t, listed[0])
  {
    hide Objection;
  }

  lemma FiveObjections(metrics: seq<MetricComparison>, t: Thresholds)
    ensures FirstObjection(metrics, t, BUDGETS) ==
      Or(Objection(metrics, t, Runtime),
         Or(Objection(metrics, t, P99Latency),
            Or(Objection(metrics, t, Throughput),
               Or(Objection(metrics, t, CpuTimePerOperation), Objection(metrics, t, MaxRss)))))
  {
    hide Objection, FirstObjection, Or;
    ObjectionsInTurn(metrics, t, BUDGETS);
    assert BUDGETS[1..] == [P99Latency, Throughput, CpuTimePerOperation, MaxRss];
    ObjectionsInTurn(metrics, t, BUDGETS[1..]);
    assert BUDGETS[1..][1..] == [Throughput, CpuTimePerOperation, MaxRss];
    ObjectionsInTurn(metrics, t, [Throughput, CpuTimePerOperation, MaxRss]);
    assert [Throughput, CpuTimePerOperation, MaxRss][1..] == [CpuTimePerOperation, MaxRss];
    ObjectionsInTurn(metrics, t, [CpuTimePerOperation, MaxRss]);
    assert [CpuTimePerOperation, MaxRss][1..] == [MaxRss];
    ObjectionsInTurn(metrics, t, [MaxRss]);
  }

  /** The error of a decision that cannot be made. */
  lemma FirstComplaintIs(bs: Summary, cs: Summary, b: seq<RunResult>, c: seq<RunResult>, root: real -> real, t: Thresholds)
    requires b != [] && c != [] && Summarizes(bs, b, root) && Summarizes(cs, c, root)
    ensures FirstObjection(CompareMetrics(bs, cs), t, BUDGETS) == FirstComplaint(t, b, c)
  {
    hide Summarizes, CompareMetrics, Objection, Complaint, FirstObjection, Reads, ThresholdFor, HigherIsBetter, Or,
      WALL_TIME,
      MAX_RSS, P99, THROUGHPUT, CPU_PER_OPERATION;
    FieldsRead();
    LimitsAre(t);
    FiveObjections(CompareMetrics(bs, cs), t);
    ComplaintIs(bs, cs, b, c, root, t, Runtime, WALL_TIME);
    ComplaintIs(bs, cs, b, c, root, t, P99Latency, P99);
    ComplaintIs(bs, cs, b, c, root, t, Throughput, THROUGHPUT);
    ComplaintIs(bs, cs, b, c, root, t, CpuTimePerOperation, CPU_PER_OPERATION);
    ComplaintIs(bs, cs, b, c, root, t, MaxRss, MAX_RSS);
  }

  // ----- the eighteen metrics

  /** The comparison of a metric: there exactly if all runs of both sides have the field, with the medians
      of the field, and the change between them unless it is undefined. */
  ghost predicate Shows(metrics: seq<MetricComparison>, m: Metric, field: Field, higherIsBetter: bool,
                        b: seq<RunResult>, c: seq<RunResult>)
    requires b != [] && c != []
  {
    && ((exists i :: 0 <= i < |metrics| && metrics[i].metric == m) <==> Has(field, b) && Has(field, c))
    && (forall i :: 0 <= i < |metrics| && metrics[i].metric == m ==>
          ComparesMiddles(metrics[i], Middle(field, b), Middle(field, c), higherIsBetter))
  }

  predicate ComparesMiddles(e: MetricComparison, before: real, after: real, higherIsBetter: bool) {
    && e.baseline == before && e.candidate == after && e.higherIsBetter == higherIsBetter
    && (e.changePercent.None? <==> before == 0.0 && after != 0.0)
    && (e.changePercent.Some? ==>
          && e.changePercent.value * before == 100.0 * (after - before)
          && (before == 0.0 ==> e.changePercent.value == 0.0))
  }

  ghost predicate AllShown(metrics: seq<MetricComparison>, b: seq<RunResult>, c: seq<RunResult>)
    requires b != [] && c != []
  {
    && Shows(metrics, Runtime, WALL_TIME, false, b, c)
    && Shows(metrics, UserCpu, USER_TIME, false, b, c)
    && Shows(metrics, SystemCpu, SYSTEM_TIME, false, b, c)
    && Shows(metrics, MaxRss, MAX_RSS, false, b, c)
    && Shows(metrics, VoluntarySwitches, VOLUNTARY, false, b, c)
    && Shows(metrics, InvoluntarySwitches, INVOLUNTARY, false, b, c)
    && Shows(metrics, Throughput, THROUGHPUT, true, b, c)
    && Shows(metrics, P50Latency, P50, false, b, c)
    && Shows(metrics, P95Latency, P95, false, b, c)
    && Shows(metrics, P99Latency, P99, false, b, c)
    && Shows(metrics, CpuTimePerOperation, CPU_PER_OPERATION, false, b, c)
    && Shows(metrics, Cycles, CYCLES, false, b, c)
    && Shows(metrics, Instructions, INSTRUCTIONS, false, b, c)
    && Shows(metrics, Ipc, INSTRUCTIONS_PER_CYCLE, true, b, c)
    && Shows(metrics, Branches, BRANCHES, false, b, c)
    && Shows(metrics, BranchMisses, BRANCH_MISSES, false, b, c)
    && Shows(metrics, CacheReferences, CACHE_REFERENCES, false, b, c)
    && Shows(metrics, CacheMisses, CACHE_MISSES, false, b, c)
  }

  /** The summary of a metric: there exactly if all runs have the field, and then it measures the
      field's readings. */
  ghost predicate Sums(s: Summary, m: Metric, field: Field, runs: seq<RunResult>) {
    (m in s <==> Has(field, runs)) && (m in s ==> Measures(s[m], Readings(field, runs)))
  }

  ghost predicate AllSummed(s: Summary, runs: seq<RunResult>) {
    && Sums(s, Runtime, WALL_TIME, runs)
    && Sums(s, UserCpu, USER_TIME, runs)
    && Sums(s, SystemCpu, SYSTEM_TIME, runs)
    && Sums(s, MaxRss, MAX_RSS, runs)
    && Sums(s, VoluntarySwitches, VOLUNTARY, runs)
    && Sums(s, InvoluntarySwitches, INVOLUNTARY, runs)
    && Sums(s, Throughput, THROUGHPUT, runs)
    && Sums(s, P50Latency, P50, runs)
    && Sums(s, P95Latency, P95, runs)
    && Sums(s, P99Latency, P99, runs)
    && Sums(s, CpuTimePerOperation, CPU_PER_OPERATION, runs)
    && Sums(s, Cycles, CYCLES, runs)
    && Sums(s, Instructions, INSTRUCTIONS, runs)
    && Sums(s, Ipc, INSTRUCTIONS_PER_CYCLE, runs)
    && Sums(s, Branches, BRANCHES, runs)
    && Sums(s, BranchMisses, BRANCH_MISSES, runs)
    && Sums(s, CacheReferences, CACHE_REFERENCES, runs)
    && Sums(s, CacheMisses, CACHE_MISSES, runs)
  }

  lemma SumsHold(s: Summary, m: Metric, field: Field, runs: seq<RunResult>, root: real -> real)
    requires runs != [] && Summarizes(s, runs, root) && IsRoot(root) && Reads(m, field)
    ensures Sums(s, m, field, runs)
  {
    hide Reads, Summarizes, Everywhere, Has, Readings, Measures, IsRoot;
    ReadingsAre(m, field, runs);
    SummaryHolds(s, runs, root, m);
    if m in s {
      DescribeMeasures(Readings(field, runs), root);
    }
  }

  /** Every summary of runs measures the readings of the metric's own field. */
  lemma SummariesMeasure(s: Summary, runs: seq<RunResult>, root: real -> real)
    requires runs != [] && Summarizes(s, runs, root) && IsRoot(root)
    ensures AllSummed(s, runs)
  {
    hide Sums, Reads, Summarizes, IsRoot, WALL_TIME, USER_TIME, SYSTEM_TIME, MAX_RSS, VOLUNTARY, INVOLUNTARY,
      THROUGHPUT, P50, P95, P99, CPU_PER_OPERATION, CYCLES, INSTRUCTIONS, INSTRUCTIONS_PER_CYCLE, BRANCHES,
      BRANCH_MISSES, CACHE_REFERENCES, CACHE_MISSES;
    FieldsRead();
    SumsHold(s, Runtime, WALL_TIME, runs, root);
    SumsHold(s, UserCpu, USER_TIME, runs, root);
    SumsHold(s, SystemCpu, SYSTEM_TIME, runs, root);
    SumsHold(s, MaxRss, MAX_RSS, runs, root);
    SumsHold(s, VoluntarySwitches, VOLUNTARY, runs, root);
    SumsHold(s, InvoluntarySwitches, INVOLUNTARY, runs, root);
    SumsHold(s, Throughput, THROUGHPUT, runs, root);
    SumsHold(s, P50Latency, P50, runs, root);
    SumsHold(s, P95Latency, P95, runs, root);
    SumsHold(s, P99Latency, P99, runs, root);
    SumsHold(s, CpuTimePerOperation, CPU_PER_OPERATION, runs, root);
    SumsHold(s, Cycles, CYCLES, runs, root);
    SumsHold(s, Instructions, INSTRUCTIONS, runs, root);
    SumsHold(s, Ipc, INSTRUCTIONS_PER_CYCLE, runs, root);
    SumsHold(s, Branches, BRANCHES, runs, root);
    SumsHold(s, BranchMisses, BRANCH_MISSES, runs, root);
    SumsHold(s, CacheReferences, CACHE_REFERENCES, runs, root);
    SumsHold(s, CacheMisses, CACHE_MISSES, runs, root);
  }

  lemma ComparedShows(m: Metric, field: Field, b: seq<RunResult>, c: seq<RunResult>, bd: Distribution, cd: Distribution)
    requires b != [] && c != [] && bd.median == Middle(field, b) && cd.median == Middle(field, c)
    ensures ComparesMiddles(Compared(m, bd, cd), Middle(field, b), Middle(field, c), HigherIsBetter(m))
  {
    hide Middle;
    var change := PercentChange(bd.median, cd.median);
    if change.Some? {
      ChangeTimes(bd.median, cd.median);
    }
  }

  lemma MedianIsMiddle(s: Summary, runs: seq<RunResult>, root: real -> real, m: Metric, field: Field)
    requires runs != [] && Summarizes(s, runs, root) && Reads(m, field)
    ensures m in s <==> Has(field, runs)
    ensures m in s ==> s[m].median == Middle(field, runs)
  {
    hide Reads, Summarizes, Everywhere, Has, Ordered, Median, Spread, Sum, Values, Readings;
    ReadingsAre(m, field, runs);
    SummaryHolds(s, runs, root, m);
  }

  lemma ShowsHold(bs: Summary, cs: Summary, b: seq<RunResult>, c: seq<RunResult>, root: real -> real,
                  m: Metric, field: Field)
    requires b != [] && c != [] && Summarizes(bs, b, root) && Summarizes(cs, c, root) && Reads(m, field)
    ensures Shows(CompareMetrics(bs, cs), m, field, HigherIsBetter(m), b, c)
  {
    hide Reads, Summarizes, Has, Middle, METRICS, CompareListed, First, Compared, HigherIsBetter, ComparesMiddles, Rank;
    var metrics := CompareMetrics(bs, cs);
    MedianIsMiddle(bs, b, root, m, field);
    MedianIsMiddle(cs, c, root, m, field);
    MetricsInOrder();
    ComparisonsInOrder(METRICS, bs, cs);
    forall i | 0 <= i < |metrics| && metrics[i].metric == m
      ensures m in bs && m in cs && ComparesMiddles(metrics[i], Middle(field, b), Middle(field, c), HigherIsBetter(m))
    {
      assert EntryOf(metrics[i], METRICS, bs, cs);
      ComparedShows(m, field, b, c, bs[m], cs[m]);
    }
    if m in bs && m in cs {
      EveryMetricListed(m);
      FirstListed(METRICS, bs, cs, m);
      var k := FirstAt(metrics, m);
    }
  }

  lemma OnlyTwoHigher()
    ensures !HigherIsBetter(Runtime)
    ensures !HigherIsBetter(UserCpu)
    ensures !HigherIsBetter(SystemCpu)
    ensures !HigherIsBetter(MaxRss)
    ensures !HigherIsBetter(VoluntarySwitches)
    ensures !HigherIsBetter(InvoluntarySwitches)
    ensures HigherIsBetter(Throughput)
    ensures !HigherIsBetter(P50Latency)
    ensures !HigherIsBetter(P95Latency)
    ensures !HigherIsBetter(P99Latency)
    ensures !HigherIsBetter(CpuTimePerOperation)
    ensures !HigherIsBetter(Cycles)
    ensures !HigherIsBetter(Instructions)
    ensures HigherIsBetter(Ipc)
    ensures !HigherIsBetter(Branches)
    ensures !HigherIsBetter(BranchMisses)
    ensures !HigherIsBetter(CacheReferences)
    ensures !HigherIsBetter(CacheMisses)
  {
  }

  /** Every comparison of two summaries shows the medians of the metric's own field. */
  lemma ComparisonsShow(bs: Summary, cs: Summary, b: seq<RunResult>, c: seq<RunResult>, root: real -> real)
    requires b != [] && c != [] && Summarizes(bs, b, root) && Summarizes(cs, c, root)
    ensures AllShown(CompareMetrics(bs, cs), b, c)
  {
    hide Shows, Reads, Summarizes, HigherIsBetter, CompareMetrics, WALL_TIME, USER_TIME, SYSTEM_TIME, MAX_RSS,
      VOLUNTARY, INVOLUNTARY, THROUGHPUT, P50, P95, P99, CPU_PER_OPERATION, CYCLES, INSTRUCTIONS,
      INSTRUCTIONS_PER_CYCLE, BRANCHES, BRANCH_MISSES, CACHE_REFERENCES, CACHE_MISSES;
    FieldsRead();
    OnlyTwoHigher();
    ShowsHold(bs, cs, b, c, root, Runtime, WALL_TIME);
    ShowsHold(bs, cs, b, c, root, UserCpu, USER_TIME);
    ShowsHold(bs, cs, b, c, root, SystemCpu, SYSTEM_TIME);
    ShowsHold(bs, cs, b, c, root, MaxRss, MAX_RSS);
    ShowsHold(bs, cs, b, c, root, VoluntarySwitches, VOLUNTARY);
    ShowsHold(bs, cs, b, c, root, InvoluntarySwitches, INVOLUNTARY);
    ShowsHold(bs, cs, b, c, root, Throughput, THROUGHPUT);
    ShowsHold(bs, cs, b, c, root, P50Latency, P50);
    ShowsHold(bs, cs, b, c, root, P95Latency, P95);
    ShowsHold(bs, cs, b, c, root, P99Latency, P99);
    ShowsHold(bs, cs, b, c, root, CpuTimePerOperation, CPU_PER_OPERATION);
    ShowsHold(bs, cs, b, c, root, Cycles, CYCLES);
    ShowsHold(bs, cs, b, c, root, Instructions, INSTRUCTIONS);
    ShowsHold(bs, cs, b, c, root, Ipc, INSTRUCTIONS_PER_CYCLE);
    ShowsHold(bs, cs, b, c, root, Branches, BRANCHES);
    ShowsHold(bs, cs, b, c, root, BranchMisses, BRANCH_MISSES);
    ShowsHold(bs, cs, b, c, root, CacheReferences, CACHE_REFERENCES);
    ShowsHold(bs, cs, b, c, root, CacheMisses, CACHE_MISSES);
  }
}
