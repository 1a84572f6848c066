/**
  The decimal helpers shared by the scaling algorithms
  (internal/scaling/scaling.go).
 */
module ScalingCommon {
  import opened Wrappers
  import opened Errors
  import opened Decimal
  import opened Strategy

  /**
    `currentToTargetUtilizationRatio`: the utilisation `usage / requests`,
    divided by the target utilisation, each quotient rounded half-up to eight
    places. Zero requests and a zero target are refused, in that order.
   */
  function CurrentToTargetUtilizationRatio(usage: real, requests: real, targetUtilization: real): (r: Result<real, Error>)
    ensures r == Err(RequestsZero) <==> requests == 0.0
    ensures r == Err(TargetUtilizationZero) <==> requests != 0.0 && targetUtilization == 0.0
    ensures r.Ok? <==> requests != 0.0 && targetUtilization != 0.0
  {
    if requests == 0.0 then Err(RequestsZero)
    else if targetUtilization == 0.0 then Err(TargetUtilizationZero)
    else
      var percentage := HalfUp8(usage, requests);
      Ok(HalfUp8(percentage, targetUtilization))
  }

  /** The ratio for one resource of a state, from the pod's usage, its requests and the target. */
  function UtilizationRatio(s: State, res: Resource): Result<real, Error> {
    CurrentToTargetUtilizationRatio(
      s.podMetrics.resourceUsage.Get(res), s.podMetrics.resources.requests.Get(res), s.targetUtilization.Get(res))
  }

  /** Dividing two values that are at most `e` apart by a positive `t`. */
  lemma DivideBound(x: real, y: real, t: real, e: real)
    requires Abs(x - y) <= e
    requires t > 0.0
    ensures Abs(x / t - y / t) <= e / t
  {
    assert x / t - y / t == (x - y) / t;
    if x - y >= 0.0 {
      assert (x - y) / t <= e / t;
    } else {
      assert (y - x) / t <= e / t;
    }
  }

  /**
    For a positive target the ratio is the exact `usage / requests / target`
    up to the two roundings: half a unit in the eighth place for the second
    quotient, and half a unit divided by the target carried over from the first.
   */
  lemma RatioApproximatesQuotient(usage: real, requests: real, targetUtilization: real)
    requires requests != 0.0 && targetUtilization > 0.0
    ensures CurrentToTargetUtilizationRatio(usage, requests, targetUtilization).Ok?
    ensures
      var e := 0.5 / Unit(8);
      Abs(CurrentToTargetUtilizationRatio(usage, requests, targetUtilization).value - usage / requests / targetUtilization)
        <= e + e / targetUtilization
  {
    var e := 0.5 / Unit(8);
    var p := HalfUp8(usage, requests);
    var r := HalfUp8(p, targetUtilization);
    RoundHalfUpBounds(usage / requests, 8);
    RoundHalfUpBounds(p / targetUtilization, 8);
    assert Abs(p - usage / requests) <= e;
    assert Abs(r - p / targetUtilization) <= e;
    DivideBound(p, usage / requests, targetUtilization, e);
  }

  /** 50 used of 100.0 requested against a target of 0.8 is a ratio of 0.625. */
  lemma RatioBelowTarget()
    ensures CurrentToTargetUtilizationRatio(50.0, 100.0, 0.8) == Ok(0.625)
  {
    HalfUp8Exact(50.0, 100.0, 50_000_000);
    HalfUp8Exact(0.5, 0.8, 62_500_000);
  }

  /** 300 used of 200.0 requested against a target of 0.50 is a ratio of 3. */
  lemma RatioAboveTarget()
    ensures CurrentToTargetUtilizationRatio(300.0, 200.0, 0.5) == Ok(3.0)
  {
    HalfUp8Exact(300.0, 200.0, 150_000_000);
    HalfUp8Exact(1.5, 0.5, 300_000_000);
  }

  /**
    `limitScalingValue` (called `limitValue` by the algorithms): below `min`
    gives `min`, otherwise above `max` gives `max`, otherwise `desired`.
   */
  function LimitValue(desired: real, min: real, max: real): (r: real)
    ensures r == desired || r == min || r == max
    ensures desired < min ==> r == min
    ensures min <= desired && max < desired ==> r == max
    ensures r == desired <==> min <= desired <= max
    ensures min <= max ==> min <= r <= max
  {
    if desired < min then min
    else if desired > max then max
    else desired
  }

  /** Clamping twice is clamping once. */
  lemma LimitValueIdempotent(desired: real, min: real, max: real)
    requires min <= max
    ensures LimitValue(LimitValue(desired, min, max), min, max) == LimitValue(desired, min, max)
  {
  }

  /** The clamp keeps the order of its inputs. */
  lemma LimitValueMonotone(d1: real, d2: real, min: real, max: real)
    requires min <= max && d1 <= d2
    ensures LimitValue(d1, min, max) <= LimitValue(d2, min, max)
  {
  }

  /**
    A clamped replica count converted back to `int32`, as Horizontal and
    Hybrid do with `int32(DecToInt64(limitValue(desired, min, max)))`. The
    truncated value always fits in 32 bits, so the conversion never wraps.
   */
  function ClampedReplicas(desired: real, min: Int32, max: Int32): (n: Int32)
    ensures min <= max ==> min <= n <= max
    ensures n == DecToInt64(LimitValue(desired, min as real, max as real))
    ensures desired == desired.Floor as real ==> n as real == LimitValue(desired, min as real, max as real)
  {
    var limited := LimitValue(desired, min as real, max as real);
    DecToInt64Exact(min);
    DecToInt64Exact(max);
    DecToInt64Exact(desired.Floor);
    var n := DecToInt64(limited);
    assert limited == desired ==> min <= n <= max;
    n
  }

  /**
    `DecToInt64`: the integer part of a decimal, truncated toward zero (the
    Go code goes through a `float64`; see the README).
   */
  function DecToInt64(value: real): (n: int)
    ensures Abs(n as real) <= Abs(value) < Abs(n as real) + 1.0
    ensures value >= 0.0 ==> n >= 0
    ensures value <= 0.0 ==> n <= 0
  {
    RoundToInt(value, Down)
  }

  /** Truncation is exact on integer values, whatever the scale they were written with. */
  lemma DecToInt64Exact(n: int)
    ensures DecToInt64(n as real) == n
  {
    RoundToIntExact(n, Down);
  }

  /** The cases of the source's tests: 0, 10, 1.0, 100, -10, -5.0, -500, 0.33, -0.26, 24.6, -5.34. */
  lemma DecToInt64Examples()
    ensures DecToInt64(0.0) == 0
    ensures DecToInt64(10.0) == 10 && DecToInt64(1.0) == 1 && DecToInt64(100.0) == 100
    ensures DecToInt64(-10.0) == -10 && DecToInt64(-5.0) == -5 && DecToInt64(-500.0) == -500
    ensures DecToInt64(0.33) == 0 && DecToInt64(-0.26) == 0
    ensures DecToInt64(24.6) == 24 && DecToInt64(-5.34) == -5
  {
  }
}
