/**
  The hybrid recommendation (internal/scaling/hybrid.go): move the replica
  count half way toward the horizontal recommendation, then let the vertical
  recommendation size the containers for the load each pod would carry at
  that count.
 */
module HybridScaling {
  import opened Wrappers
  import opened Errors
  import opened Decimal
  import opened Strategy
  import opened ScalingCommon
  import opened HorizontalScaling
  import opened VerticalScaling

  /**
    The current count plus half the distance to the horizontal
    recommendation, the half rounded away from zero to a whole number.
   */
  function HalfwayReplicas(current: Int32, horizontal: real): real {
    current as real + QuoRound(horizontal - current as real, 2.0, 0, Up)
  }

  /**
    Toward a whole-number recommendation the step is a whole number, goes at
    least half way and never overshoots; it is zero exactly when the
    recommendation is the current count.
   */
  lemma HalfwayReplicasBetween(current: Int32, horizontal: real)
    requires horizontal == horizontal.Floor as real
    ensures var d := HalfwayReplicas(current, horizontal);
      && d == d.Floor as real
      && (current as real <= horizontal ==> current as real <= d <= horizontal)
      && (horizontal <= current as real ==> horizontal <= d <= current as real)
      && (d == current as real <==> horizontal == current as real)
      && Abs(horizontal - current as real) / 2.0 <= Abs(d - current as real) < Abs(horizontal - current as real) / 2.0 + 1.0
  {
    var k := horizontal.Floor - current;
    var n := RoundToInt(k as real / 2.0, Up);
    assert HalfwayReplicas(current, horizontal) == (current + n) as real by {
      assert (horizontal - current as real) / 2.0 == k as real / 2.0;
      RoundToZeroPlaces(k as real / 2.0, Up);
    }
    HalfStep(k);
    assert horizontal == current as real + k as real;
  }

  /** Half of a whole number of replicas, rounded away from zero. */
  lemma HalfStep(k: int)
    ensures var n := RoundToInt(k as real / 2.0, Up);
      && (k >= 0 ==> 0 <= n <= k)
      && (k <= 0 ==> k <= n <= 0)
      && (n == 0 <==> k == 0)
      && Abs(k as real) / 2.0 <= Abs(n as real) < Abs(k as real) / 2.0 + 1.0
  {
  }

  /** The replica count `Hybrid` settles on: the half-way count, clamped to the replica bounds. */
  function HybridReplicas(s: State, horizontal: real): real {
    LimitValue(HalfwayReplicas(s.replicas, horizontal), s.constraints.minReplicas as real, s.constraints.maxReplicas as real)
  }

  /**
    The state `Vertical` is asked about: `replicas` pods, each carrying the
    usage of the current pods times `replicasRatio`.
   */
  function HypotheticalState(s: State, replicas: Int32, replicasRatio: real): State {
    s.(replicas := replicas,
       podMetrics := s.podMetrics.(resourceUsage := ResourcesList(
         s.podMetrics.resourceUsage.cpu * replicasRatio,
         s.podMetrics.resourceUsage.memory * replicasRatio)))
  }

  /**
    `Hybrid`. It fails as the horizontal calculation fails, refuses a count
    of zero, and otherwise decides the clamped half-way count (within the
    replica bounds when those are ordered) with the containers the vertical
    recommendation gives for it.
   */
  function Hybrid(s: State, cpuLimitsToRequestsRatio: Option<real>, memoryLimitsToRequestsRatio: Option<real>)
    : (r: Result<ScalingDecision, Error>)
    requires LimitsDefined(s)
    ensures CalculateDesiredReplicas(s).Err? ==> r == Err(CalculateDesiredReplicas(s).error)
    ensures CalculateDesiredReplicas(s).Ok?
            ==> (r == Err(ScaleToZeroReplicas) <==> HybridReplicas(s, CalculateDesiredReplicas(s).value) == 0.0)
    ensures r.Ok? ==> r.value.replicas as real == HybridReplicas(s, CalculateDesiredReplicas(s).value)
    ensures r.Ok? && s.constraints.minReplicas <= s.constraints.maxReplicas
            ==> s.constraints.minReplicas <= r.value.replicas <= s.constraints.maxReplicas
    ensures r.Ok? ==> r.value.containerResources.Keys == s.containerResources.Keys && r.value.description == ""
  {
    var horizontal :- CalculateDesiredReplicas(s);
    DesiredReplicasWhole(s);
    HalfwayReplicasBetween(s.replicas, horizontal);
    var desired := HalfwayReplicas(s.replicas, horizontal);
    var limited := LimitValue(desired, s.constraints.minReplicas as real, s.constraints.maxReplicas as real);
    var replicas := ClampedReplicas(desired, s.constraints.minReplicas, s.constraints.maxReplicas);
    if limited == 0.0 then Err(ScaleToZeroReplicas)
    else
      var replicasRatio := HalfUp8(s.replicas as real, limited);
      VerticalDecision(HypotheticalState(s, replicas, replicasRatio), cpuLimitsToRequestsRatio, memoryLimitsToRequestsRatio)
  }

  /**
    Past the replica checks, `Hybrid` is exactly `Vertical` asked about the
    new count, with each pod's usage scaled by the current count over the new
    one, rounded half-up to eight places.
   */
  lemma HybridIsVerticalAtNewCount(s: State, cpuLimitsToRequestsRatio: Option<real>, memoryLimitsToRequestsRatio: Option<real>)
    requires LimitsDefined(s)
    requires CalculateDesiredReplicas(s).Ok?
    requires HybridReplicas(s, CalculateDesiredReplicas(s).value) != 0.0
    ensures
      var n := HybridReplicas(s, CalculateDesiredReplicas(s).value);
      var replicas := ClampedReplicas(HalfwayReplicas(s.replicas, CalculateDesiredReplicas(s).value),
                                      s.constraints.minReplicas, s.constraints.maxReplicas);
      && replicas as real == n
      && Hybrid(s, cpuLimitsToRequestsRatio, memoryLimitsToRequestsRatio)
         == VerticalDecision(HypotheticalState(s, replicas, HalfUp8(s.replicas as real, n)),
                             cpuLimitsToRequestsRatio, memoryLimitsToRequestsRatio)
  {
    DesiredReplicasWhole(s);
    HalfwayReplicasBetween(s.replicas, CalculateDesiredReplicas(s).value);
  }

  /**
    When the horizontal recommendation is the current count and that count
    is within its bounds, `Hybrid` is plain `Vertical` on the current state.
   */
  lemma HybridAtHorizontalTarget(s: State, cpuLimitsToRequestsRatio: Option<real>, memoryLimitsToRequestsRatio: Option<real>)
    requires LimitsDefined(s)
    requires CalculateDesiredReplicas(s) == Ok(s.replicas as real)
    requires s.constraints.minReplicas <= s.replicas <= s.constraints.maxReplicas
    ensures Hybrid(s, cpuLimitsToRequestsRatio, memoryLimitsToRequestsRatio)
         == VerticalDecision(s, cpuLimitsToRequestsRatio, memoryLimitsToRequestsRatio)
  {
    assert HybridReplicas(s, s.replicas as real) == s.replicas as real by {
      HalfwayReplicasBetween(s.replicas, s.replicas as real);
    }
    HybridIsVerticalAtNewCount(s, cpuLimitsToRequestsRatio, memoryLimitsToRequestsRatio);
    HalfUp8Self(s.replicas as real);
    HypotheticalAtCurrentCount(s);
  }

  /** A non-zero value over itself is one, exactly. */
  lemma HalfUp8Self(x: real)
    requires x != 0.0
    ensures HalfUp8(x, x) == 1.0
  {
    HalfUp8Exact(x, x, 100_000_000);
  }

  /** At the current count and a ratio of one, the hypothetical state is the state itself. */
  lemma HypotheticalAtCurrentCount(s: State)
    ensures HypotheticalState(s, s.replicas, 1.0) == s
  {
  }

  /** One pod whose horizontal recommendation is three goes to two. */
  lemma HybridReplicasOneToTwo(s: State)
    requires s.replicas == 1 && s.constraints.minReplicas == 1 && s.constraints.maxReplicas == 10
    ensures HybridReplicas(s, 3.0) == 2.0
  {
    HalfwayReplicasBetween(1, 3.0);
    RoundToZeroPlaces(1.0, Up);
  }

  /** Nine pods whose horizontal recommendation is three go to six. */
  lemma HybridReplicasNineToSix(s: State)
    requires s.replicas == 9 && s.constraints.minReplicas == 1 && s.constraints.maxReplicas == 10
    ensures HybridReplicas(s, 3.0) == 6.0
  {
    RoundToZeroPlaces(-3.0, Up);
  }

  /**
    When the horizontal calculation succeeds and the new count is not zero,
    `Hybrid` succeeds once both limits-to-requests ratios are given.
   */
  lemma HybridSucceeds(s: State, cpuLimitsToRequestsRatio: real, memoryLimitsToRequestsRatio: real)
    requires LimitsDefined(s)
    requires CalculateDesiredReplicas(s).Ok?
    requires HybridReplicas(s, CalculateDesiredReplicas(s).value) != 0.0
    ensures Hybrid(s, Some(cpuLimitsToRequestsRatio), Some(memoryLimitsToRequestsRatio)).Ok?
  {
    HybridIsVerticalAtNewCount(s, Some(cpuLimitsToRequestsRatio), Some(memoryLimitsToRequestsRatio));
  }

  /**
    The "all up" case: one pod at 150% of its requests against a 50% target
    is recommended three replicas horizontally, and `Hybrid` takes two.
   */
  lemma HybridAllUp(s: State)
    requires s.replicas == 1 && s.constraints.minReplicas == 1 && s.constraints.maxReplicas == 10
    requires s.podMetrics.resourceUsage == ResourcesList(150.0, 150.0)
    requires s.podMetrics.resources == Resources(ResourcesList(100.0, 100.0), ResourcesList(200.0, 200.0))
    requires s.targetUtilization == ResourcesList(0.5, 0.5)
    ensures CalculateDesiredReplicas(s) == Ok(3.0)
    ensures Hybrid(s, Some(2.0), Some(2.0)).Ok? && Hybrid(s, Some(2.0), Some(2.0)).value.replicas == 2
  {
    HalfUp8Exact(150.0, 100.0, 150_000_000);
    HalfUp8Exact(1.5, 0.5, 300_000_000);
    assert UtilizationRatio(s, Cpu) == Ok(3.0) && UtilizationRatio(s, Memory) == Ok(3.0);
    assert ReplicasFor(1, 3.0) == 3.0;
    HybridReplicasOneToTwo(s);
    HybridSucceeds(s, 2.0, 2.0);
  }

  /** 40 of 200 against a 60% target is a third, rounded half-up to eight places. */
  lemma ThirdOfTarget()
    ensures CurrentToTargetUtilizationRatio(40.0, 200.0, 0.6) == Ok(0.33333333)
  {
    HalfUp8Exact(40.0, 200.0, 20_000_000);
    assert Unit(8) == 100_000_000.0;
    assert Scaled(0.2 / 0.6, 8) == 100_000_000.0 / 3.0;
    assert RoundToInt(100_000_000.0 / 3.0, HalfUp) == 33_333_333;
  }

  /**
    The "all down" case: nine pods at 20% of their requests against a 60%
    target are recommended three replicas horizontally (nine times
    0.33333333, rounded up), and `Hybrid` takes six.
   */
  lemma HybridAllDown(s: State)
    requires s.replicas == 9 && s.constraints.minReplicas == 1 && s.constraints.maxReplicas == 10
    requires s.podMetrics.resourceUsage == ResourcesList(40.0, 40.0)
    requires s.podMetrics.resources == Resources(ResourcesList(200.0, 200.0), ResourcesList(400.0, 400.0))
    requires s.targetUtilization == ResourcesList(0.6, 0.6)
    ensures CalculateDesiredReplicas(s) == Ok(3.0)
    ensures Hybrid(s, Some(2.0), Some(2.0)).Ok? && Hybrid(s, Some(2.0), Some(2.0)).value.replicas == 6
  {
    ThirdOfTarget();
    NineAtAThird();
    HybridReplicasNineToSix(s);
    HybridSucceeds(s, 2.0, 2.0);
  }

  /** Nine replicas at a ratio of 0.33333333 need three. */
  lemma NineAtAThird()
    ensures DesiredFromRatios(9, 0.33333333, 0.33333333) == 3.0
  {
    var d := ReplicasFor(9, 0.33333333);
    assert 2.99999997 <= d < 3.99999997;
  }
}
