/** Scaling a counter that did not run all the time it was enabled
    (src/perf/perf_counter.cpp:64-79), in exact arithmetic. */
module PerfCounter {
  import opened Words
  import opened Reals
  import opened Results

  datatype CounterError = CounterDidNotRun

  const MAX64: u64 := TWO64 - 1

  function Extrapolated(raw: real, enabled: real, running: real): real
    requires running > 0.0
  {
    raw * enabled / running
  }

  /** Saturates, or drops the fraction after adding a half. */
  function Rounded(x: real): u64
    requires x >= 0.0
  {
    if x >= MAX64 as real then MAX64 else (x + 0.5).Floor
  }

  function ScaleCounter(raw: u64, enabled: u64, running: u64): Result<u64, CounterError> {
    if running == 0 then Err(CounterDidNotRun)
    else if running >= enabled then Ok(raw)
    else
      ExtrapolatedNonnegative(raw as real, enabled as real, running as real);
      Ok(Rounded(Extrapolated(raw as real, enabled as real, running as real)))
  }

  lemma ExtrapolatedNonnegative(raw: real, enabled: real, running: real)
    requires raw >= 0.0 && enabled >= 0.0 && running > 0.0
    ensures Extrapolated(raw, enabled, running) >= 0.0
  {
    ProductSign(raw, enabled);
  }

  // ----- one formula for both branches

  /** The estimate before rounding: the factor is 1 when the counter ran all the time. */
  function Estimate(raw: real, enabled: real, running: real): (r: real)
    requires running > 0.0 && raw >= 0.0 && enabled >= 0.0
    ensures r >= 0.0
  {
    ExtrapolatedNonnegative(raw, if enabled > running then enabled else running, running);
    Extrapolated(raw, if enabled > running then enabled else running, running)
  }

  lemma EstimateCases(raw: real, enabled: real, running: real)
    requires running > 0.0 && raw >= 0.0 && enabled >= 0.0
    ensures Estimate(raw, enabled, running) == if enabled > running then Extrapolated(raw, enabled, running) else raw
  {
    Cancel(raw, running);
  }

  lemma ScaleIsRounded(raw: u64, enabled: u64, running: u64)
    requires running > 0
    ensures ScaleCounter(raw, enabled, running) == Ok(Rounded(Estimate(raw as real, enabled as real, running as real)))
  {
    hide Extrapolated, Rounded, Estimate;
    EstimateCases(raw as real, enabled as real, running as real);
    RoundedWhole(raw);
  }

  lemma Cancel(x: real, y: real)
    requires y > 0.0
    ensures x * y / y == x
  {
  }

  lemma RoundedWhole(n: u64)
    ensures Rounded(n as real) == n
  {
    assert (n as real + 0.5).Floor == n;
  }

  lemma RoundedMonotone(x: real, y: real)
    requires 0.0 <= x <= y
    ensures Rounded(x) <= Rounded(y)
  {
  }

  lemma DivideMonotone(x: real, y: real, z: real)
    requires x <= y && z > 0.0
    ensures x / z <= y / z
  {
    assert y / z - x / z == (y - x) / z;
  }

  lemma TimesMonotone(x: real, y: real, z: real)
    requires x <= y && z >= 0.0
    ensures x * z <= y * z
  {
    ProductSign(y - x, z);
    ProductOfDifference(z, y, x);
  }

  lemma ExtrapolatedMonotone(r0: real, r1: real, f0: real, f1: real, running: real)
    requires 0.0 <= r0 <= r1 && 0.0 <= f0 <= f1 && running > 0.0
    ensures Extrapolated(r0, f0, running) <= Extrapolated(r1, f1, running)
  {
    TimesMonotone(r0, r1, f0);
    TimesMonotone(f0, f1, r1);
    DivideMonotone(r0 * f0, r1 * f1, running);
  }

  lemma EstimateMonotone(r0: real, r1: real, e0: real, e1: real, running: real)
    requires 0.0 <= r0 <= r1 && 0.0 <= e0 <= e1 && running > 0.0
    ensures Estimate(r0, e0, running) <= Estimate(r1, e1, running)
  {
    hide Extrapolated;
    ExtrapolatedMonotone(r0, r1, if e0 > running then e0 else running, if e1 > running then e1 else running, running);
  }

  lemma TimesMonotoneRight(z: real, x: real, y: real)
    requires x <= y && z >= 0.0
    ensures z * x <= z * y
  {
    ProductSign(z, y - x);
    ProductOfDifference(z, y, x);
  }

  lemma Commute(x: real, y: real)
    ensures x * y == y * x
  {
  }

  lemma Regroup(x: real, y: real, z: real)
    ensures (x * y) * z == (y * z) * x
  {
  }

  lemma CrossedTimes(raw: real, f0: real, f1: real, n0: real, n1: real)
    requires raw >= 0.0 && f1 * n0 <= f0 * n1
    ensures (raw * f1) * n0 <= (raw * f0) * n1
  {
    TimesMonotone(f1 * n0, f0 * n1, raw);
    Regroup(raw, f1, n0);
    Regroup(raw, f0, n1);
  }

  lemma QuotientsOrdered(a: real, b: real, c: real, d: real)
    requires b > 0.0 && d > 0.0 && a * d <= c * b
    ensures a / b <= c / d
  {
    var p := a / b;
    WithoutFactor(p * d, c, b, a * d);
    DivideMonotone(p * d, c, d);
    Cancel(p, d);
  }

  lemma ExtrapolatedAntitone(raw: real, f0: real, f1: real, n0: real, n1: real)
    requires raw >= 0.0 && n0 > 0.0 && n1 > 0.0 && f1 * n0 <= f0 * n1
    ensures Extrapolated(raw, f1, n1) <= Extrapolated(raw, f0, n0)
  {
    CrossedTimes(raw, f0, f1, n0, n1);
    QuotientsOrdered(raw * f1, n1, raw * f0, n0);
  }

  lemma EstimateAntitone(raw: real, enabled: real, n0: real, n1: real)
    requires raw >= 0.0 && enabled >= 0.0 && 0.0 < n0 <= n1
    ensures Estimate(raw, enabled, n1) <= Estimate(raw, enabled, n0)
  {
    hide Extrapolated;
    if enabled > n1 {
      TimesMonotoneRight(enabled, n0, n1);
      ExtrapolatedAntitone(raw, enabled, enabled, n0, n1);
    } else if enabled > n0 {
      TimesMonotone(n0, enabled, n1);
      Commute(n1, n0);
      ExtrapolatedAntitone(raw, enabled, n1, n0, n1);
    } else {
      Commute(n1, n0);
      ExtrapolatedAntitone(raw, n0, n1, n0, n1);
    }
  }

  lemma WithoutFactor(x: real, y: real, b: real, product: real)
    requires b > 0.0 && x * b == product && product <= y * b
    ensures x <= y
  {
    if x > y {
      TimesStrict(y, x, b);
      assert false;
    }
  }

  lemma TimesStrict(x: real, y: real, z: real)
    requires x < y && z > 0.0
    ensures x * z < y * z
  {
    ProductSign(y - x, z);
    ProductOfDifference(z, y, x);
  }

  /** Over all inputs that the function accepts, and across the branch that does not scale: more
      raw counts or more enabled time never give less, more running time never gives more. */
  lemma ScaleMonotone(r0: u64, r1: u64, e0: u64, e1: u64, n0: u64, n1: u64)
    requires r0 <= r1 && e0 <= e1 && 0 < n1 <= n0
    ensures ScaleCounter(r0, e0, n0).value <= ScaleCounter(r1, e1, n1).value
  {
    hide Rounded, Estimate;
    ScaleIsRounded(r0, e0, n0);
    ScaleIsRounded(r1, e1, n1);
    EstimateMonotone(r0 as real, r1 as real, e0 as real, e1 as real, n0 as real);
    EstimateAntitone(r1 as real, e1 as real, n1 as real, n0 as real);
    RoundedMonotone(Estimate(r0 as real, e0 as real, n0 as real), Estimate(r1 as real, e1 as real, n1 as real));
  }

  lemma EstimateAtLeastRaw(raw: real, enabled: real, running: real)
    requires raw >= 0.0 && enabled >= 0.0 && running > 0.0
    ensures Estimate(raw, enabled, running) >= raw
  {
    EstimateMonotone(raw, raw, 0.0, enabled, running);
    assert raw * running / running == raw;
  }

  /** The nearest integer, halves up, as long as it fits, and the largest 64-bit value exactly from half a
      unit below it on. */
  predicate RoundsTo(r: int, exact: real) {
    && r <= 0xFFFF_FFFF_FFFF_FFFF
    && (r == 0xFFFF_FFFF_FFFF_FFFF <==> exact >= 0xFFFF_FFFF_FFFF_FFFF as real - 0.5)
    && (exact < 0xFFFF_FFFF_FFFF_FFFF as real ==> exact - 0.5 < r as real <= exact + 0.5)
  }

  lemma RoundedNear(raw: u64, x: real)
    requires raw as real <= x
    ensures raw <= Rounded(x) && RoundsTo(Rounded(x), x)
  {
    assert (raw as real + 0.5).Floor == raw;
  }

  /** r is raw times enabled over running, rounded. */
  predicate RoundsQuotient(r: int, raw: real, enabled: real, running: real)
    requires running > 0.0
  {
    RoundsTo(r, raw * enabled / running)
  }

  lemma EstimateRounds(raw: real, enabled: real, running: real)
    requires 0.0 < running < enabled && raw >= 0.0
    ensures RoundsTo(Rounded(Estimate(raw, enabled, running)), Estimate(raw, enabled, running)) ==>
            RoundsQuotient(Rounded(Estimate(raw, enabled, running)), raw, enabled, running)
  {
    hide Estimate, RoundsTo, Rounded;
    EstimateCases(raw, enabled, running);
  }

  lemma EstimateWhole(raw: real, enabled: real, running: real)
    requires 0.0 < running && 0.0 <= enabled <= running && raw >= 0.0
    ensures Estimate(raw, enabled, running) == raw
  {
    hide Estimate;
    EstimateCases(raw, enabled, running);
  }

  lemma ScaleRejects(raw: u64, enabled: u64, running: u64)
    ensures ScaleCounter(raw, enabled, running).Err? <==> running == 0
  {
    hide Rounded, Extrapolated;
  }

  /** Rejected exactly when the counter did not run. Otherwise the raw count if it ran all the time it was
      enabled, and else at least the raw count: raw times enabled over running, rounded. */
  lemma ScaleBounds(raw: u64, enabled: u64, running: u64)
    ensures ScaleCounter(raw, enabled, running).Err? <==> running == 0
    ensures 0 < running && enabled <= running ==> ScaleCounter(raw, enabled, running) == Ok(raw)
    ensures 0 < running < enabled ==>
      var r := ScaleCounter(raw, enabled, running).value;
      raw <= r && RoundsQuotient(r, raw as real, enabled as real, running as real)
  {
    hide Rounded, Estimate, ScaleCounter, RoundsTo, RoundsQuotient;
    ScaleRejects(raw, enabled, running);
    if running > 0 {
      ScaleIsRounded(raw, enabled, running);
      EstimateAtLeastRaw(raw as real, enabled as real, running as real);
      RoundedNear(raw, Estimate(raw as real, enabled as real, running as real));
      if running < enabled {
        EstimateRounds(raw as real, enabled as real, running as real);
      } else {
        EstimateWhole(raw as real, enabled as real, running as real);
        RoundedWhole(raw);
      }
    }
  }
}
