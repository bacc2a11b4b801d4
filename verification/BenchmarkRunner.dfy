/** Measuring two programs in a shuffled, balanced order and deciding on the budgets
    (src/analysis/benchmark_runner.cpp:28-63, 94-127). A shuffle is any permutation. */
module BenchmarkRunner {
  import opened Results
  import opened ProcessRunner
  import opened Comparison
  import opened ProfileComparison
  import opened Gate
  import opened Budgets

  datatype Variant = Baseline | Candidate

  /** What one execution of a program comes to. */
  datatype Execution = Finished(outcome: Outcome, result: RunResult) | Thrown

  datatype BenchmarkError =
    | RepeatIsZero
    | RunFailed(reason: Reason, exitCode: nat)
    | RunThrew
    | AnalysisFailed(error: AnalysisError)

  const SIGINT := 2

  function RunSuccessful(e: Execution): Result<RunResult, BenchmarkError> {
    if e.Thrown? then Err(RunThrew)
    else if e.outcome.Succeeded() then Ok(e.result)
    else Err(RunFailed(e.outcome.reason,
                       if e.outcome.reason == Interrupted
                       then 128 + (if e.outcome.signal == 0 then SIGINT else e.outcome.signal)
                       else 2))
  }

  // ----- the order

  ghost predicate Permutes(shuffle: seq<Variant> -> seq<Variant>) {
    forall order :: multiset(shuffle(order)) == multiset(order)
  }

  predicate Balanced(order: seq<Variant>, count: nat) {
    |order| == 2 * count && multiset(order)[Baseline] == count && multiset(order)[Candidate] == count
  }

  method BalancedOrder(count: nat, shuffle: seq<Variant> -> seq<Variant>) returns (order: seq<Variant>)
    requires Permutes(shuffle)
    ensures Balanced(order, count)
  {
    order := [];
    for i := 0 to count
      invariant Balanced(order, i)
    {
      order := order + [Baseline] + [Candidate];
    }
    ghost var before := order;
    order := shuffle(order);
    assert |multiset(order)| == |multiset(before)|;
  }

  // ----- the executions

  type Execute = (Variant, nat) -> Execution

  /** Executions number offset and up, in the given order, all succeed. */
  predicate AllSucceed(execute: Execute, order: seq<Variant>, offset: nat) {
    forall i :: 0 <= i < |order| ==> RunSuccessful(execute(order[i], offset + i)).Ok?
  }

  /** The first execution that fails, fails with this error. */
  ghost predicate FailsFirst(execute: Execute, order: seq<Variant>, offset: nat, error: BenchmarkError) {
    exists i :: 0 <= i < |order|
      && AllSucceed(execute, order[..i], offset)
      && RunSuccessful(execute(order[i], offset + i)) == Err(error) && Spoiled(execute(order[i], offset + i), error)
  }

  /** The results of one side's executions, in the order in which they were made. */
  function SideRuns(execute: Execute, order: seq<Variant>, offset: nat, side: Variant): seq<RunResult>
    requires AllSucceed(execute, order, offset)
  {
    if order == [] then []
    else
      var front, last := order[..|order| - 1], order[|order| - 1];
      assert order == front + [last];
      assert forall i :: 0 <= i < |front| ==> front[i] == order[i];
      SideRuns(execute, front, offset, side)
      + (if last == side then [RunSuccessful(execute(last, offset + |front|)).value] else [])
  }

  lemma {:induction false} SideRunsCount(execute: Execute, order: seq<Variant>, offset: nat, side: Variant)
    requires AllSucceed(execute, order, offset)
    ensures |SideRuns(execute, order, offset, side)| == multiset(order)[side]
  {
    if order != [] {
      var front, last := order[..|order| - 1], order[|order| - 1];
      assert order == front + [last];
      assert forall i :: 0 <= i < |front| ==> front[i] == order[i];
      SideRunsCount(execute, front, offset, side);
    }
  }

  /** An execution that counts: the program exited with 0, and this is what was measured. */
  predicate Measured(e: Execution, result: RunResult) {
    e.Finished? && e.outcome.reason == Exited && e.outcome.exitCode == 0 && e.result == result
  }

  /** One that does not, and the error it becomes: an interrupted run exits with 128 and the signal,
      SIGINT if it is unknown, any other with 2. */
  predicate Spoiled(e: Execution, error: BenchmarkError) {
    if e.Thrown? then error == RunThrew
    else
      && !(e.outcome.reason == Exited && e.outcome.exitCode == 0)
      && error.RunFailed? && error.reason == e.outcome.reason
      && error.exitCode == if e.outcome.reason != Interrupted then 2
                           else if e.outcome.signal == 0 then 130 else 128 + e.outcome.signal
  }

  lemma MeasuredOrSpoiled(e: Execution)
    ensures var run := RunSuccessful(e);
      (run.Ok? ==> Measured(e, run.value)) && (run.Err? ==> Spoiled(e, run.error))
  {
  }

  /** The results of a side are those of its own executions, in their order. */
  ghost predicate Places(execute: Execute, order: seq<Variant>, offset: nat, side: Variant, results: seq<RunResult>) {
    && |results| == multiset(order)[side]
    && forall i :: 0 <= i < |order| && order[i] == side ==> PlacedAt(execute, order, offset, side, results, i)
  }

  predicate PlacedAt(execute: Execute, order: seq<Variant>, offset: nat, side: Variant, results: seq<RunResult>, i: nat)
    requires i < |order|
  {
    var k := multiset(order[..i])[side];
    k < |results| && Measured(execute(side, offset + i), results[k])
  }

  lemma PlacedEarlier(execute: Execute, order: seq<Variant>, offset: nat, side: Variant, results: seq<RunResult>, i: nat,
                      last: Variant, more: seq<RunResult>)
    requires i < |order| && PlacedAt(execute, order, offset, side, results, i)
    ensures PlacedAt(execute, order + [last], offset, side, results + more, i)
  {
    hide Measured;
    assert (order + [last])[..i] == order[..i];
  }

  lemma PlacedLast(execute: Execute, order: seq<Variant>, offset: nat, side: Variant, results: seq<RunResult>,
                   result: RunResult)
    requires |results| == multiset(order)[side] && Measured(execute(side, offset + |order|), result)
    ensures PlacedAt(execute, order + [side], offset, side, results + [result], |order|)
  {
    hide Measured;
    assert (order + [side])[..|order|] == order;
  }

  lemma PlacesMore(execute: Execute, order: seq<Variant>, offset: nat, side: Variant, results: seq<RunResult>,
                   last: Variant, result: RunResult)
    requires Places(execute, order, offset, side, results)
    requires last == side ==> Measured(execute(side, offset + |order|), result)
    ensures Places(execute, order + [last], offset, side, results + (if last == side then [result] else []))
  {
    hide Measured, PlacedAt;
    var more := if last == side then [result] else [];
    forall i | 0 <= i < |order + [last]| && (order + [last])[i] == side
      ensures PlacedAt(execute, order + [last], offset, side, results + more, i)
    {
      if i < |order| {
        assert (order + [last])[i] == order[i];
        PlacedEarlier(execute, order, offset, side, results, i, last, more);
      } else {
        PlacedLast(execute, order, offset, side, results, result);
      }
    }
  }

  lemma PlacesNothing(execute: Execute, offset: nat, side: Variant)
    ensures Places(execute, [], offset, side, [])
  {
  }

  lemma {:induction false} SideRunsPlaced(execute: Execute, order: seq<Variant>, offset: nat, side: Variant)
    requires AllSucceed(execute, order, offset)
    ensures Places(execute, order, offset, side, SideRuns(execute, order, offset, side))
  {
    hide RunSuccessful, Measured, Spoiled, Places;
    if order == [] {
      PlacesNothing(execute, offset, side);
    } else {
      var front, last := order[..|order| - 1], order[|order| - 1];
      assert order == front + [last];
      assert forall i :: 0 <= i < |front| ==> front[i] == order[i];
      SideRunsPlaced(execute, front, offset, side);
      MeasuredOrSpoiled(execute(last, offset + |front|));
      PlacesMore(execute, front, offset, side, SideRuns(execute, front, offset, side), last,
                 RunSuccessful(execute(last, offset + |front|)).value);
    }
  }

  method ExecuteAll(execute: Execute, order: seq<Variant>, offset: nat)
      returns (baseline: seq<RunResult>, candidate: seq<RunResult>, error: Option<BenchmarkError>)
    ensures error.None? <==> AllSucceed(execute, order, offset)
    ensures error.Some? ==> FailsFirst(execute, order, offset, error.value)
    ensures error.None? ==> baseline == SideRuns(execute, order, offset, Baseline)
    ensures error.None? ==> candidate == SideRuns(execute, order, offset, Candidate)
  {
    hide RunSuccessful, Measured, Spoiled;
    baseline, candidate, error := [], [], None;
    for i := 0 to |order|
      invariant AllSucceed(execute, order[..i], offset)
      invariant baseline == SideRuns(execute, order[..i], offset, Baseline)
      invariant candidate == SideRuns(execute, order[..i], offset, Candidate)
    {
      var run := RunSuccessful(execute(order[i], offset + i));
      MeasuredOrSpoiled(execute(order[i], offset + i));
      if run.Err? {
        error := Some(run.error);
        return;
      }
      assert order[..i + 1][..i] == order[..i];
      if order[i] == Baseline {
        baseline := baseline + [run.value];
      } else {
        candidate := candidate + [run.value];
      }
    }
    assert order[..|order|] == order;
  }

  // ----- the comparison

  datatype ComparisonResult = ComparisonResult(
    baseline: seq<RunResult>,
    candidate: seq<RunResult>,
    metrics: seq<MetricComparison>,
    profileChanges: seq<ProfileChange>,
    violations: seq<Violation>)

  /** What a comparison that returned normally has established about its runs. */
  ghost predicate Decided(r: ComparisonResult, repeat: nat, t: Thresholds)
    requires r.baseline != [] && r.candidate != []
  {
    && |r.baseline| == repeat
    && |r.candidate| == repeat
    && AllShown(r.metrics, r.baseline, r.candidate)
    && BudgetsKept(t, r.baseline, r.candidate, r.violations)
    && Compares(r.profileChanges, AllFunctions(r.baseline), AllFunctions(r.candidate))
    && ReportsAll(r.profileChanges, r.baseline, r.candidate)
    && (forall m: Metric :: ThresholdFor(t, m).Some? ==>
          ThresholdFor(t, m).value >= 0.0 && RunChange(m, r.baseline, r.candidate).Some?)
    && (forall m: Metric :: OverBudget(t, m, r.baseline, r.candidate) <==>
          exists i :: 0 <= i < |r.violations| && r.violations[i].metric == m)
    && (forall i, j :: 0 <= i < j < |r.violations| ==> Rank(r.violations[i].metric) < Rank(r.violations[j].metric))
    && (forall i :: 0 <= i < |r.violations| ==>
          && RunChange(r.violations[i].metric, r.baseline, r.candidate) == Some(r.violations[i].changePercent)
          && ThresholdFor(t, r.violations[i].metric) == Some(r.violations[i].limitPercent))
  }

  /** Summaries, comparisons and thresholds of the measured runs. */
  method Analyse(baseline: seq<RunResult>, candidate: seq<RunResult>, repeat: nat, t: Thresholds, root: real -> real)
      returns (r: Result<ComparisonResult, AnalysisError>)
    requires |baseline| == repeat && |candidate| == repeat && repeat > 0
    ensures r.Ok? ==> r.value.baseline == baseline && r.value.candidate == candidate && Decided(r.value, repeat, t)
    ensures r.Ok? <==> AllEvaluable(t, baseline, candidate)
    ensures r.Err? ==> FirstComplaint(t, baseline, candidate) == Some(r.error)
  {
    hide Summarizes, FirstObjection, Violations, ThresholdFor, RunChange, Rank, OverBudget, CompareMetrics,
      Compares, ReportsAll, AllShown,
      BudgetsKept, AllEvaluable, FirstComplaint;
    var b := SummarizeRuns(baseline, root);
    var c := SummarizeRuns(candidate, root);
    var metrics := CompareMetrics(b.value, c.value);
    var changes := CompareProfiles(baseline, candidate);
    var violations := EvaluateThresholds(metrics, t);
    DecidableExactly(b.value, c.value, baseline, candidate, root, t);
    ReportedExactly(b.value, c.value, baseline, candidate, root, t);
    ComparisonsShow(b.value, c.value, baseline, candidate, root);
    AllEvaluableIs(t, baseline, candidate);
    FirstComplaintIs(b.value, c.value, baseline, candidate, root, t);
    if violations.Ok? {
      SettledKeepsBudgets(t, baseline, candidate, violations.value);
    }
    match violations
    case Err(error) => r := Err(error);
    case Ok(value) => r := Ok(ComparisonResult(baseline, candidate, metrics, changes, value));
  }

  /** Not all limits can be evaluated, and this is the first objection. */
  ghost predicate Undecidable(t: Thresholds, b: seq<RunResult>, c: seq<RunResult>, error: AnalysisError) {
    b != [] && c != [] && !AllEvaluable(t, b, c) && FirstComplaint(t, b, c) == Some(error)
  }

  /** For any shuffles: warm-up executions first, then the measured ones. The comparison returns
      normally exactly if there is something to measure, every execution succeeds and every
      configured limit can be evaluated, and then each side has exactly repeat runs and the
      violations are exactly the metrics over budget. */
  method RunComparison(execute: Execute, warmup: nat, repeat: nat, t: Thresholds, root: real -> real,
                       shuffleWarmup: seq<Variant> -> seq<Variant>, shuffle: seq<Variant> -> seq<Variant>)
      returns (r: Result<ComparisonResult, BenchmarkError>, ghost warm: seq<Variant>, ghost measured: seq<Variant>)
    requires Permutes(shuffleWarmup) && Permutes(shuffle)
    ensures repeat == 0 ==> r == Err(RepeatIsZero)
    ensures repeat > 0 && r.Ok? ==> Balanced(warm, warmup) && Balanced(measured, repeat)
    ensures r.Ok? ==> repeat > 0 && AllSucceed(execute, warm, 0) && AllSucceed(execute, measured, 2 * warmup)
    ensures r.Ok? ==> r.value.baseline == SideRuns(execute, measured, 2 * warmup, Baseline)
    ensures r.Ok? ==> r.value.candidate == SideRuns(execute, measured, 2 * warmup, Candidate)
    ensures r.Ok? ==> Places(execute, measured, 2 * warmup, Baseline, r.value.baseline)
    ensures r.Ok? ==> Places(execute, measured, 2 * warmup, Candidate, r.value.candidate)
    ensures r.Ok? ==> |r.value.baseline| == repeat && |r.value.candidate| == repeat && Decided(r.value, repeat, t)
    ensures r.Err? && repeat > 0 ==>
      if !AllSucceed(execute, warm, 0) then FailsFirst(execute, warm, 0, r.error)
      else if !AllSucceed(execute, measured, 2 * warmup) then FailsFirst(execute, measured, 2 * warmup, r.error)
      else r.error.AnalysisFailed? && Undecidable(t, SideRuns(execute, measured, 2 * warmup, Baseline),
                                                  SideRuns(execute, measured, 2 * warmup, Candidate), r.error.error)
  {
    hide AllSucceed, FailsFirst, SideRuns, Decided, AllEvaluable, FirstComplaint, Places;
    warm, measured := [], [];
    if repeat == 0 {
      return Err(RepeatIsZero), warm, measured;
    }
    var warmOrder := BalancedOrder(warmup, shuffleWarmup);
    warm := warmOrder;
    var _, _, warmError := ExecuteAll(execute, warmOrder, 0);
    if warmError.Some? {
      return Err(warmError.value), warm, measured;
    }
    var order := BalancedOrder(repeat, shuffle);
    measured := order;
    var baseline, candidate, error := ExecuteAll(execute, order, 2 * warmup);
    if error.Some? {
      return Err(error.value), warm, measured;
    }
    SideRunsCount(execute, order, 2 * warmup, Baseline);
    SideRunsCount(execute, order, 2 * warmup, Candidate);
    SideRunsPlaced(execute, order, 2 * warmup, Baseline);
    SideRunsPlaced(execute, order, 2 * warmup, Candidate);
    var analysis := Analyse(baseline, candidate, repeat, t, root);
    match analysis
    case Err(e) => r := Err(AnalysisFailed(e));
    case Ok(value) => r := Ok(value);
  }
}
