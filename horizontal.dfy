/** The HPA-style replica recommendation (internal/scaling/horizontal.go). */
module HorizontalScaling {
  import opened Wrappers
  import opened Errors
  import opened Decimal
  import opened Strategy
  import opened ScalingCommon

  /** `v` is the least integer at least `a` and at least `b`. */
  predicate IsCeilingOfMax(v: real, a: real, b: real) {
    && v == v.Floor as real
    && a <= v && b <= v
    && (v - 1.0 < a || v - 1.0 < b)
  }

  /**
    `calculateDesiredReplicas`: for each resource the current replicas times
    the resource's ratio, rounded up to an integer, and the larger of the two.
    Refuses zero replicas, then a failing cpu ratio, then a failing memory one.
   */
  function CalculateDesiredReplicas(s: State): (r: Result<real, Error>)
    ensures s.replicas == 0 ==> r == Err(ReplicasZero)
    ensures s.replicas != 0 && UtilizationRatio(s, Cpu).Err? ==> r == Err(CpuRatio(UtilizationRatio(s, Cpu).error))
    ensures s.replicas != 0 && UtilizationRatio(s, Cpu).Ok? && UtilizationRatio(s, Memory).Err?
            ==> r == Err(MemoryRatio(UtilizationRatio(s, Memory).error))
    ensures r.Ok? <==> s.replicas != 0 && UtilizationRatio(s, Cpu).Ok? && UtilizationRatio(s, Memory).Ok?
  {
    var currentReplicas := s.replicas as real;
    if currentReplicas == 0.0 then Err(ReplicasZero)
    else
      var cpuRatio := UtilizationRatio(s, Cpu);
      if cpuRatio.Err? then Err(CpuRatio(cpuRatio.error))
      else
        var memoryRatio := UtilizationRatio(s, Memory);
        if memoryRatio.Err? then Err(MemoryRatio(memoryRatio.error))
        else
          Ok(DesiredFromRatios(s.replicas, cpuRatio.value, memoryRatio.value))
  }

  /** The larger of the two resources' replica counts. */
  function DesiredFromRatios(replicas: Int32, cpuRatio: real, memoryRatio: real): real {
    var desiredReplicasCpu := ReplicasFor(replicas, cpuRatio);
    var desiredReplicasMemory := ReplicasFor(replicas, memoryRatio);
    if desiredReplicasCpu < desiredReplicasMemory then desiredReplicasMemory else desiredReplicasCpu
  }

  /** The larger count is the least integer covering both products. */
  lemma DesiredFromRatiosIsCeiling(replicas: Int32, cpuRatio: real, memoryRatio: real)
    ensures IsCeilingOfMax(DesiredFromRatios(replicas, cpuRatio, memoryRatio),
                           replicas as real * cpuRatio, replicas as real * memoryRatio)
  {
    var c := ReplicasFor(replicas, cpuRatio);
    var m := ReplicasFor(replicas, memoryRatio);
    assert DesiredFromRatios(replicas, cpuRatio, memoryRatio) == if c < m then m else c;
  }

  /**
    The replicas one resource asks for: the current count times its ratio,
    rounded up to an integer (`Round(·, 0, RoundCeil)`, see RoundToZeroPlaces).
   */
  function ReplicasFor(replicas: Int32, ratio: real): (d: real)
    ensures d == d.Floor as real
    ensures replicas as real * ratio <= d < replicas as real * ratio + 1.0
  {
    RoundToInt(replicas as real * ratio, Ceil) as real
  }

  /** The desired count of a state is the larger count of its two ratios. */
  lemma CalculateDesiredReplicasValue(s: State)
    requires CalculateDesiredReplicas(s).Ok?
    ensures CalculateDesiredReplicas(s).value
         == DesiredFromRatios(s.replicas, UtilizationRatio(s, Cpu).value, UtilizationRatio(s, Memory).value)
  {
  }

  /**
    `Horizontal`: the desired replicas clamped to the constraints; the
    container resources pass through unchanged.
   */
  function Horizontal(s: State): (r: Result<ScalingDecision, Error>)
    ensures r.Err? <==> CalculateDesiredReplicas(s).Err?
    ensures r.Err? ==> r.error == CalculateDesiredReplicas(s).error
    ensures r.Ok? ==> r.value.containerResources == s.containerResources && r.value.description == ""
    ensures r.Ok? ==> r.value.replicas as real
                      == LimitValue(CalculateDesiredReplicas(s).value, s.constraints.minReplicas as real, s.constraints.maxReplicas as real)
    ensures r.Ok? && s.constraints.minReplicas <= s.constraints.maxReplicas
            ==> s.constraints.minReplicas <= r.value.replicas <= s.constraints.maxReplicas
  {
    var desiredReplicas :- CalculateDesiredReplicas(s);
    var replicas := ClampedReplicas(desiredReplicas, s.constraints.minReplicas, s.constraints.maxReplicas);
    Ok(ScalingDecision(replicas, s.containerResources, ""))
  }

  /** The desired count is a whole number. */
  lemma DesiredReplicasWhole(s: State)
    requires CalculateDesiredReplicas(s).Ok?
    ensures CalculateDesiredReplicas(s).value == CalculateDesiredReplicas(s).value.Floor as real
  {
    CalculateDesiredReplicasValue(s);
    DesiredFromRatiosWhole(s.replicas, UtilizationRatio(s, Cpu).value, UtilizationRatio(s, Memory).value);
  }

  lemma DesiredFromRatiosWhole(replicas: Int32, cpuRatio: real, memoryRatio: real)
    ensures DesiredFromRatios(replicas, cpuRatio, memoryRatio) == DesiredFromRatios(replicas, cpuRatio, memoryRatio).Floor as real
  {
  }

  /** A workload exactly at its targets keeps its replica count (when that count is allowed). */
  lemma HorizontalAtTarget(s: State)
    requires s.replicas != 0
    requires UtilizationRatio(s, Cpu) == Ok(1.0) && UtilizationRatio(s, Memory) == Ok(1.0)
    requires s.constraints.minReplicas <= s.replicas <= s.constraints.maxReplicas
    ensures Horizontal(s).Ok? && Horizontal(s).value.replicas == s.replicas
  {
    CalculateDesiredReplicasValue(s);
    DesiredFromRatiosIsCeiling(s.replicas, 1.0, 1.0);
  }

  /**
    Six replicas at 25% cpu and 33% memory against targets of 50% want four:
    the memory ratio 0.66 gives 3.96, rounded up.
   */
  lemma ScaleDownBasedOnMemory(s: State)
    requires s.replicas == 6
    requires s.podMetrics.resourceUsage == ResourcesList(25.0, 33.0)
    requires s.podMetrics.resources.requests == ResourcesList(100.0, 100.0)
    requires s.targetUtilization == ResourcesList(0.5, 0.5)
    ensures CalculateDesiredReplicas(s) == Ok(4.0)
  {
    assert UtilizationRatio(s, Cpu) == Ok(0.5) by {
      QuarterAtHalfTarget();
    }
    assert UtilizationRatio(s, Memory) == Ok(0.66) by {
      ThirtyThreeAtHalfTarget();
    }
    SixReplicasAtRatios();
  }

  lemma QuarterAtHalfTarget()
    ensures CurrentToTargetUtilizationRatio(25.0, 100.0, 0.5) == Ok(0.5)
  {
    HalfUp8Exact(25.0, 100.0, 25_000_000);
    HalfUp8Exact(0.25, 0.5, 50_000_000);
  }

  lemma ThirtyThreeAtHalfTarget()
    ensures CurrentToTargetUtilizationRatio(33.0, 100.0, 0.5) == Ok(0.66)
  {
    HalfUp8Exact(33.0, 100.0, 33_000_000);
    HalfUp8Exact(0.33, 0.5, 66_000_000);
  }

  lemma SixReplicasAtRatios()
    ensures DesiredFromRatios(6, 0.5, 0.66) == 4.0
  {
    assert ReplicasFor(6, 0.5) == 3.0;
    var d := ReplicasFor(6, 0.66);
    assert 3.96 <= d < 4.96;
    assert d.Floor == 4;
  }

  /** Three replicas at twice their target want six, which the maximum of five caps. */
  lemma ScaleUpToMax(s: State)
    requires s.replicas == 3
    requires s.constraints.minReplicas == 1 && s.constraints.maxReplicas == 5
    requires s.podMetrics.resourceUsage == ResourcesList(300.0, 300.0)
    requires s.podMetrics.resources.requests == ResourcesList(300.0, 300.0)
    requires s.targetUtilization == ResourcesList(0.5, 0.5)
    ensures Horizontal(s).Ok? && Horizontal(s).value.replicas == 5
  {
    HalfUp8Exact(300.0, 300.0, 100_000_000);
    HalfUp8Exact(1.0, 0.5, 200_000_000);
    assert UtilizationRatio(s, Cpu) == Ok(2.0);
    assert UtilizationRatio(s, Memory) == Ok(2.0);
  }
}
