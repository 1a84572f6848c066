/**
  The vertical recommendation (internal/scaling/vertical.go): new requests
  and limits for every container, keeping the ratio between limits and
  requests and each container's share of the pod.
 */
module VerticalScaling {
  import opened Wrappers
  import opened Errors
  import opened Decimal
  import opened Strategy
  import opened ScalingCommon

  /**
    The pod-level targets for one resource: the desired requests and limits
    and the rounding mode used for the containers' factors.
   */
  datatype PodPlan = PodPlan(requests: real, limits: real, mode: RoundingMode) {
    function Get(kind: Kind): real {
      match kind
      case Requests => requests
      case Limits => limits
    }
  }

  /**
    The rounding mode for one resource: `Down` when the limits were clamped to
    the maximum (the later assignment wins), otherwise `Ceil` when the requests
    were clamped to the minimum, otherwise half-up.
   */
  function RoundingModeFor(desiredRequests: real, desiredLimits: real, min: real, max: real): RoundingMode {
    if desiredLimits == max then Down
    else if desiredRequests == min then Ceil
    else HalfUp
  }

  /**
    The pod-level part of `Vertical` for one resource, given the pod's
    requests, the utilisation ratio and the bounds: requests scaled by the
    ratio and clamped, limits derived from them by the limits-to-requests
    ratio and clamped again, and the rounding mode those clamps select.
   */
  function PlanFor(podRequests: real, ratio: real, min: real, max: real, limitsToRequestsRatio: real): PodPlan {
    var desiredRequests := LimitValue(podRequests * ratio, min, max);
    var desiredLimits := LimitValue(desiredRequests * limitsToRequestsRatio, min, max);
    PodPlan(desiredRequests, desiredLimits, RoundingModeFor(desiredRequests, desiredLimits, min, max))
  }

  /**
    Both pod-level targets stay within the resource's bounds; requests are the
    scaled requests when those are within bounds, and limits are the requests
    times the limits-to-requests ratio when that is within bounds.
   */
  lemma PlanWithinBounds(podRequests: real, ratio: real, min: real, max: real, limitsToRequestsRatio: real)
    requires min <= max
    ensures
      var p := PlanFor(podRequests, ratio, min, max, limitsToRequestsRatio);
      && min <= p.requests <= max && min <= p.limits <= max
      && (min <= podRequests * ratio <= max ==> p.requests == podRequests * ratio)
      && (min <= p.requests * limitsToRequestsRatio <= max ==> p.limits == p.requests * limitsToRequestsRatio)
  {
  }

  /**
    The mode is `Down` exactly when the limits sit at the maximum, and `Ceil`
    exactly when the requests sit at the minimum and the limits do not sit at
    the maximum.
   */
  lemma PlanMode(podRequests: real, ratio: real, min: real, max: real, limitsToRequestsRatio: real)
    ensures
      var p := PlanFor(podRequests, ratio, min, max, limitsToRequestsRatio);
      && (p.mode == Down <==> p.limits == max)
      && (p.mode == Ceil <==> p.requests == min && p.limits != max)
      && (p.mode == HalfUp <==> p.requests != min && p.limits != max)
  {
  }

  /** The plan for `res` out of the pair. */
  function PlanOf(res: Resource, cpu: PodPlan, memory: PodPlan): PodPlan {
    match res
    case Cpu => cpu
    case Memory => memory
  }

  /**
    The plans for both resources, or the error of the first ratio that cannot
    be computed (cpu before memory).
   */
  function Plans(s: State, cpuLimitsToRequestsRatio: real, memoryLimitsToRequestsRatio: real): (r: Result<(PodPlan, PodPlan), Error>)
    ensures r.Ok? <==> UtilizationRatio(s, Cpu).Ok? && UtilizationRatio(s, Memory).Ok?
    ensures UtilizationRatio(s, Cpu).Err? ==> r == Err(CpuRatio(UtilizationRatio(s, Cpu).error))
    ensures UtilizationRatio(s, Cpu).Ok? && UtilizationRatio(s, Memory).Err? ==> r == Err(MemoryRatio(UtilizationRatio(s, Memory).error))
  {
    var pod, min, max := s.podMetrics.resources.requests, s.constraints.minResources, s.constraints.maxResources;
    var cpuRatio := UtilizationRatio(s, Cpu);
    if cpuRatio.Err? then Err(CpuRatio(cpuRatio.error))
    else
      var cpu := PlanFor(pod.cpu, cpuRatio.value, min.cpu, max.cpu, cpuLimitsToRequestsRatio);
      var memoryRatio := UtilizationRatio(s, Memory);
      if memoryRatio.Err? then Err(MemoryRatio(memoryRatio.error))
      else
        var memory := PlanFor(pod.memory, memoryRatio.value, min.memory, max.memory, memoryLimitsToRequestsRatio);
        Ok((cpu, memory))
  }

  /** Every pod-level request and limit is non-zero, so every factor is defined. */
  predicate PodNonZero(pod: Resources) {
    pod.requests.cpu != 0.0 && pod.requests.memory != 0.0 && pod.limits.cpu != 0.0 && pod.limits.memory != 0.0
  }

  /**
    The four factors the containers' quantities are multiplied by: each
    desired pod quantity over the current one, rounded to eight places in its
    resource's mode.
   */
  function Factors(pod: Resources, cpu: PodPlan, memory: PodPlan): Resources
    requires PodNonZero(pod)
  {
    Resources(
      ResourcesList(QuoRound(cpu.requests, pod.requests.cpu, 8, cpu.mode), QuoRound(memory.requests, pod.requests.memory, 8, memory.mode)),
      ResourcesList(QuoRound(cpu.limits, pod.limits.cpu, 8, cpu.mode), QuoRound(memory.limits, pod.limits.memory, 8, memory.mode)))
  }

  lemma FactorsQuantity(pod: Resources, cpu: PodPlan, memory: PodPlan, kind: Kind, res: Resource)
    requires PodNonZero(pod)
    ensures pod.Quantity(kind, res) != 0.0
    ensures Factors(pod, cpu, memory).Quantity(kind, res)
         == QuoRound(PlanOf(res, cpu, memory).Get(kind), pod.Quantity(kind, res), 8, PlanOf(res, cpu, memory).mode)
  {
    match (kind, res)
    case (Requests, Cpu) =>
    case (Requests, Memory) =>
    case (Limits, Cpu) =>
    case (Limits, Memory) =>
  }

  /** One container with each of its four quantities multiplied by its factor. */
  function Rescale(r: Resources, factors: Resources): Resources {
    Resources(
      ResourcesList(r.requests.cpu * factors.requests.cpu, r.requests.memory * factors.requests.memory),
      ResourcesList(r.limits.cpu * factors.limits.cpu, r.limits.memory * factors.limits.memory))
  }

  /** Each quantity of a rescaled container is the old one times its factor. */
  lemma RescaleQuantity(r: Resources, factors: Resources, kind: Kind, res: Resource)
    ensures Rescale(r, factors).Quantity(kind, res) == r.Quantity(kind, res) * factors.Quantity(kind, res)
  {
    match (kind, res)
    case (Requests, Cpu) =>
    case (Requests, Memory) =>
    case (Limits, Cpu) =>
    case (Limits, Memory) =>
  }

  /** Every container rescaled by the same factors. */
  function RescaleAll(m: ContainerResources, factors: Resources): (m': ContainerResources)
    ensures m'.Keys == m.Keys
  {
    map n | n in m :: Rescale(m[n], factors)
  }

  /** A state with containers must have non-zero pod limits: the source divides by them without a check. */
  predicate LimitsDefined(s: State) {
    s.containerResources != map[] ==> s.podMetrics.resources.limits.cpu != 0.0 && s.podMetrics.resources.limits.memory != 0.0
  }

  /**
    What `Vertical` decides: after the checks, the replicas and the container
    names are kept and every container is rescaled by the common factors.
   */
  function VerticalDecision(s: State, cpuLimitsToRequestsRatio: Option<real>, memoryLimitsToRequestsRatio: Option<real>)
    : (r: Result<ScalingDecision, Error>)
    requires LimitsDefined(s)
    ensures (cpuLimitsToRequestsRatio.None? || memoryLimitsToRequestsRatio.None?) <==> r == Err(NoLimitsToRequestsRatios)
    ensures cpuLimitsToRequestsRatio.Some? && memoryLimitsToRequestsRatio.Some? && s.replicas == 0
            ==> r == Err(PodResourcesReplicasZero)
    ensures cpuLimitsToRequestsRatio.Some? && memoryLimitsToRequestsRatio.Some? && s.replicas != 0
            ==> (r.Ok? <==> Plans(s, cpuLimitsToRequestsRatio.value, memoryLimitsToRequestsRatio.value).Ok?)
    ensures cpuLimitsToRequestsRatio.Some? && memoryLimitsToRequestsRatio.Some? && s.replicas != 0
            && Plans(s, cpuLimitsToRequestsRatio.value, memoryLimitsToRequestsRatio.value).Err?
            ==> r == Err(Plans(s, cpuLimitsToRequestsRatio.value, memoryLimitsToRequestsRatio.value).error)
    ensures r.Ok? ==>
      && r.value.replicas == s.replicas
      && r.value.description == ""
      && r.value.containerResources.Keys == s.containerResources.Keys
    ensures r.Ok? && s.containerResources != map[] ==>
      var plans := Plans(s, cpuLimitsToRequestsRatio.value, memoryLimitsToRequestsRatio.value).value;
      && PodNonZero(s.podMetrics.resources)
      && r.value.containerResources == RescaleAll(s.containerResources, Factors(s.podMetrics.resources, plans.0, plans.1))
  {
    if cpuLimitsToRequestsRatio.None? || memoryLimitsToRequestsRatio.None? then Err(NoLimitsToRequestsRatios)
    else if s.replicas == 0 then Err(PodResourcesReplicasZero)
    else
      var plans :- Plans(s, cpuLimitsToRequestsRatio.value, memoryLimitsToRequestsRatio.value);
      // with no containers the source's loop never divides by the pod limits
      var containers := if s.containerResources == map[] then map[]
                        else RescaleAll(s.containerResources, Factors(s.podMetrics.resources, plans.0, plans.1));
      Ok(ScalingDecision(s.replicas, containers, ""))
  }

  /**
    `Vertical`: the pod-level plans, then one pass over the containers that
    fills a fresh map, as the source's loop does.
   */
  method Vertical(s: State, cpuLimitsToRequestsRatio: Option<real>, memoryLimitsToRequestsRatio: Option<real>)
    returns (r: Result<ScalingDecision, Error>)
    requires LimitsDefined(s)
    ensures r == VerticalDecision(s, cpuLimitsToRequestsRatio, memoryLimitsToRequestsRatio)
  {
    if cpuLimitsToRequestsRatio.None? || memoryLimitsToRequestsRatio.None? {
      return Err(NoLimitsToRequestsRatios);
    }
    if s.replicas == 0 {
      return Err(PodResourcesReplicasZero);
    }
    var plans := Plans(s, cpuLimitsToRequestsRatio.value, memoryLimitsToRequestsRatio.value);
    if plans.Err? {
      return Err(plans.error);
    }
    var cpu, memory := plans.value.0, plans.value.1;
    var pod := s.podMetrics.resources;
    var containerResources: ContainerResources := map[];
    var remaining := s.containerResources.Keys;
    while remaining != {}
      invariant remaining <= s.containerResources.Keys
      invariant containerResources.Keys == s.containerResources.Keys - remaining
      invariant s.containerResources != map[] ==> PodNonZero(pod)
      invariant forall n <- containerResources :: containerResources[n] == Rescale(s.containerResources[n], Factors(pod, cpu, memory))
      decreases |remaining|
    {
      var name :| name in remaining;
      var factors := Factors(pod, cpu, memory);
      containerResources := containerResources[name := Rescale(s.containerResources[name], factors)];
      remaining := remaining - {name};
    }
    if s.containerResources != map[] {
      assert containerResources == RescaleAll(s.containerResources, Factors(pod, cpu, memory));
    }
    return Ok(ScalingDecision(s.replicas, containerResources, ""));
  }
  /** The plan of each resource is `PlanFor` on that resource's pod requests, ratio, bounds and limits-to-requests ratio. */
  lemma PlansFor(s: State, cpuLimitsToRequestsRatio: real, memoryLimitsToRequestsRatio: real, res: Resource)
    requires Plans(s, cpuLimitsToRequestsRatio, memoryLimitsToRequestsRatio).Ok?
    ensures
      var plans := Plans(s, cpuLimitsToRequestsRatio, memoryLimitsToRequestsRatio).value;
      PlanOf(res, plans.0, plans.1)
        == PlanFor(s.podMetrics.resources.requests.Get(res), UtilizationRatio(s, res).value,
                   s.constraints.minResources.Get(res), s.constraints.maxResources.Get(res),
                   if res == Cpu then cpuLimitsToRequestsRatio else memoryLimitsToRequestsRatio)
  {
  }

  lemma RescaleAllAt(m: ContainerResources, factors: Resources, n: string, kind: Kind, res: Resource)
    requires n in m
    ensures RescaleAll(m, factors)[n].Quantity(kind, res) == m[n].Quantity(kind, res) * factors.Quantity(kind, res)
  {
    RescaleQuantity(m[n], factors, kind, res);
    RescaleAllLookup(m, factors, n, kind, res);
  }

  lemma RescaleAllLookup(m: ContainerResources, factors: Resources, n: string, kind: Kind, res: Resource)
    requires n in m
    ensures RescaleAll(m, factors)[n].Quantity(kind, res) == Rescale(m[n], factors).Quantity(kind, res)
  {
    assert RescaleAll(m, factors)[n] == Rescale(m[n], factors);
  }

  /**
    Every rescaled container's quantity is its old quantity times one factor
    common to all containers, so the containers keep their shares of the pod.
   */
  lemma RescaleAllQuantities(m: ContainerResources, factors: Resources, kind: Kind, res: Resource)
    ensures forall n <- m :: RescaleAll(m, factors)[n].Quantity(kind, res) == m[n].Quantity(kind, res) * factors.Quantity(kind, res)
  {
    forall n <- m ensures RescaleAll(m, factors)[n].Quantity(kind, res) == m[n].Quantity(kind, res) * factors.Quantity(kind, res) {
      RescaleAllAt(m, factors, n, kind, res);
    }
  }

  /** The total of the rescaled containers is the old total times the factor. */
  lemma RescaleAllTotal(m: ContainerResources, factors: Resources, kind: Kind, res: Resource)
    ensures Total(RescaleAll(m, factors), kind, res) == Total(m, kind, res) * factors.Quantity(kind, res)
  {
    RescaleAllQuantities(m, factors, kind, res);
    TotalScaled(m, RescaleAll(m, factors), kind, res, factors.Quantity(kind, res));
  }

  /** The pod's requests and limits are the sums over its containers, as the controller assembles them. */
  ghost predicate PodIsSumOfContainers(s: State) {
    forall kind: Kind, res: Resource ::
      s.podMetrics.resources.Quantity(kind, res) == Total(s.containerResources, kind, res)
  }

  /**
    Each factor is the pod-level target divided by the pod quantity, off by at
    most one unit in the eighth place, whatever the rounding mode.
   */
  lemma FactorNearQuotient(pod: Resources, cpu: PodPlan, memory: PodPlan, kind: Kind, res: Resource)
    requires PodNonZero(pod)
    ensures Abs(Factors(pod, cpu, memory).Quantity(kind, res) - PlanOf(res, cpu, memory).Get(kind) / pod.Quantity(kind, res))
         <= 1.0 / Unit(8)
  {
    FactorsQuantity(pod, cpu, memory, kind, res);
    RoundError(PlanOf(res, cpu, memory).Get(kind) / pod.Quantity(kind, res), 8, PlanOf(res, cpu, memory).mode);
  }

  /** A factor rounded toward zero never exceeds the exact quotient of a non-negative target. */
  lemma FactorAtMostQuotient(pod: Resources, cpu: PodPlan, memory: PodPlan, kind: Kind, res: Resource)
    requires PodNonZero(pod)
    requires PlanOf(res, cpu, memory).mode == Down
    requires PlanOf(res, cpu, memory).Get(kind) >= 0.0 && pod.Quantity(kind, res) > 0.0
    ensures Factors(pod, cpu, memory).Quantity(kind, res) <= PlanOf(res, cpu, memory).Get(kind) / pod.Quantity(kind, res)
  {
    FactorsQuantity(pod, cpu, memory, kind, res);
    RoundDownBounds(PlanOf(res, cpu, memory).Get(kind) / pod.Quantity(kind, res), 8);
  }

  /** A factor rounded toward +infinity is never below the exact quotient. */
  lemma FactorAtLeastQuotient(pod: Resources, cpu: PodPlan, memory: PodPlan, kind: Kind, res: Resource)
    requires PodNonZero(pod)
    requires PlanOf(res, cpu, memory).mode == Ceil
    ensures Factors(pod, cpu, memory).Quantity(kind, res) >= PlanOf(res, cpu, memory).Get(kind) / pod.Quantity(kind, res)
  {
    FactorsQuantity(pod, cpu, memory, kind, res);
    RoundCeilBounds(PlanOf(res, cpu, memory).Get(kind) / pod.Quantity(kind, res), 8);
  }

  /**
    Rescaling containers whose quantities add up to a positive `p` by a factor
    within `1/10^8` of `d/p` brings their total within `p/10^8` of `d`.
   */
  lemma ScaledTotalNear(m: ContainerResources, factors: Resources, kind: Kind, res: Resource, p: real, d: real)
    requires p == Total(m, kind, res) && p > 0.0
    requires Abs(factors.Quantity(kind, res) - d / p) <= 1.0 / Unit(8)
    ensures Abs(Total(RescaleAll(m, factors), kind, res) - d) <= p / Unit(8)
  {
    RescaleAllTotal(m, factors, kind, res);
    NearTarget(Total(RescaleAll(m, factors), kind, res), Total(m, kind, res), p, factors.Quantity(kind, res), d, Unit(8));
  }

  /** Rescaling by a factor at most `b/p` keeps a total `p > 0` at most `b`. */
  lemma ScaledTotalBelow(m: ContainerResources, factors: Resources, kind: Kind, res: Resource, p: real, b: real)
    requires p == Total(m, kind, res) && p > 0.0
    requires factors.Quantity(kind, res) <= b / p
    ensures Total(RescaleAll(m, factors), kind, res) <= b
  {
    RescaleAllTotal(m, factors, kind, res);
    Below(Total(RescaleAll(m, factors), kind, res), Total(m, kind, res), p, factors.Quantity(kind, res), b);
  }

  /** Rescaling by a factor at least `b/p` brings a total `p > 0` to at least `b`. */
  lemma ScaledTotalAbove(m: ContainerResources, factors: Resources, kind: Kind, res: Resource, p: real, b: real)
    requires p == Total(m, kind, res) && p > 0.0
    requires factors.Quantity(kind, res) >= b / p
    ensures Total(RescaleAll(m, factors), kind, res) >= b
  {
    RescaleAllTotal(m, factors, kind, res);
    Above(Total(RescaleAll(m, factors), kind, res), Total(m, kind, res), p, factors.Quantity(kind, res), b);
  }

  /** `t = q*f` with `q = p > 0` and `|f - d/p| <= 1/u` gives `|t - d| <= p/u`. */
  lemma NearTarget(t: real, q: real, p: real, f: real, d: real, u: real)
    requires t == q * f && q == p && p > 0.0 && u > 0.0
    requires Abs(f - d / p) <= 1.0 / u
    ensures Abs(t - d) <= p / u
  {
    assert t == p * f;
    assert p * (f - d / p) == t - d;
    assert p * (1.0 / u) == p / u;
    if f - d / p >= 0.0 {
      assert p * (f - d / p) <= p * (1.0 / u);
    } else {
      assert p * (d / p - f) <= p * (1.0 / u);
    }
  }

  /** `t = q*f` with `q = p > 0` and `f <= b/p` gives `t <= b`. */
  lemma Below(t: real, q: real, p: real, f: real, b: real)
    requires t == q * f && q == p && p > 0.0 && f <= b / p
    ensures t <= b
  {
    assert t == p * f;
    assert p * f <= p * (b / p);
  }

  /** `t = q*f` with `q = p > 0` and `f >= b/p` gives `t >= b`. */
  lemma Above(t: real, q: real, p: real, f: real, b: real)
    requires t == q * f && q == p && p > 0.0 && f >= b / p
    ensures t >= b
  {
    assert t == p * f;
    assert p * f >= p * (b / p);
  }

  /**
    With a pod quantity that is the positive sum of its containers, the
    rescaled containers' total is within one unit in the eighth place of the
    factor, times the pod quantity, of the pod-level target, whatever the
    rounding mode.
   */
  lemma RescaledTotalNearTarget(m: ContainerResources, pod: Resources, cpu: PodPlan, memory: PodPlan, kind: Kind, res: Resource)
    requires PodNonZero(pod)
    requires pod.Quantity(kind, res) == Total(m, kind, res) && pod.Quantity(kind, res) > 0.0
    ensures Abs(Total(RescaleAll(m, Factors(pod, cpu, memory)), kind, res) - PlanOf(res, cpu, memory).Get(kind))
         <= pod.Quantity(kind, res) / Unit(8)
  {
    FactorNearQuotient(pod, cpu, memory, kind, res);
    ScaledTotalNear(m, Factors(pod, cpu, memory), kind, res, pod.Quantity(kind, res), PlanOf(res, cpu, memory).Get(kind));
  }

  /**
    When a resource's limits sit at a non-negative maximum (so its mode is
    `Down`), the rescaled containers' limits of that resource, of a pod whose
    limits are the positive sum of its containers', add up to at most the
    maximum: rounding toward zero never overshoots.
   */
  lemma RescaledLimitsWithinMax(m: ContainerResources, pod: Resources, cpu: PodPlan, memory: PodPlan, res: Resource, max: real)
    requires PodNonZero(pod)
    requires pod.Quantity(Limits, res) == Total(m, Limits, res) && pod.Quantity(Limits, res) > 0.0
    requires PlanOf(res, cpu, memory).limits == max && PlanOf(res, cpu, memory).mode == Down && max >= 0.0
    ensures Total(RescaleAll(m, Factors(pod, cpu, memory)), Limits, res) <= max
  {
    FactorAtMostQuotient(pod, cpu, memory, Limits, res);
    ScaledTotalBelow(m, Factors(pod, cpu, memory), Limits, res, pod.Quantity(Limits, res), max);
  }

  /**
    When a resource's requests sit at the minimum and its limits do not sit
    at the maximum (so its mode is `Ceil`), the rescaled containers' requests
    of that resource, of a pod whose requests are the positive sum of its
    containers', add up to at least the minimum: rounding up never undershoots.
   */
  lemma RescaledRequestsAtLeastMin(m: ContainerResources, pod: Resources, cpu: PodPlan, memory: PodPlan, res: Resource, min: real)
    requires PodNonZero(pod)
    requires pod.Quantity(Requests, res) == Total(m, Requests, res) && pod.Quantity(Requests, res) > 0.0
    requires PlanOf(res, cpu, memory).requests == min && PlanOf(res, cpu, memory).mode == Ceil
    ensures Total(RescaleAll(m, Factors(pod, cpu, memory)), Requests, res) >= min
  {
    FactorAtLeastQuotient(pod, cpu, memory, Requests, res);
    ScaledTotalAbove(m, Factors(pod, cpu, memory), Requests, res, pod.Quantity(Requests, res), min);
  }

  /**
    `Vertical` never lets the containers' limits of a resource add up to more
    than its maximum once the pod-level limits were clamped to that maximum,
    provided the pod's limits are the positive sum of its containers'.
   */
  lemma VerticalLimitsWithinMax(s: State, cpuLimitsToRequestsRatio: real, memoryLimitsToRequestsRatio: real, res: Resource)
    requires LimitsDefined(s) && s.containerResources != map[] && s.replicas != 0
    requires s.podMetrics.resources.Quantity(Limits, res) == Total(s.containerResources, Limits, res)
    requires s.podMetrics.resources.Quantity(Limits, res) > 0.0 && s.constraints.maxResources.Get(res) >= 0.0
    requires Plans(s, cpuLimitsToRequestsRatio, memoryLimitsToRequestsRatio).Ok?
    requires PlanOf(res, Plans(s, cpuLimitsToRequestsRatio, memoryLimitsToRequestsRatio).value.0,
                    Plans(s, cpuLimitsToRequestsRatio, memoryLimitsToRequestsRatio).value.1).limits
             == s.constraints.maxResources.Get(res)
    ensures VerticalDecision(s, Some(cpuLimitsToRequestsRatio), Some(memoryLimitsToRequestsRatio)).Ok?
    ensures Total(VerticalDecision(s, Some(cpuLimitsToRequestsRatio), Some(memoryLimitsToRequestsRatio)).value.containerResources, Limits, res)
         <= s.constraints.maxResources.Get(res)
  {
    var plans := Plans(s, cpuLimitsToRequestsRatio, memoryLimitsToRequestsRatio).value;
    PlansFor(s, cpuLimitsToRequestsRatio, memoryLimitsToRequestsRatio, res);
    PlanMode(s.podMetrics.resources.requests.Get(res), UtilizationRatio(s, res).value,
             s.constraints.minResources.Get(res), s.constraints.maxResources.Get(res),
             if res == Cpu then cpuLimitsToRequestsRatio else memoryLimitsToRequestsRatio);
    RescaledLimitsWithinMax(s.containerResources, s.podMetrics.resources, plans.0, plans.1, res, s.constraints.maxResources.Get(res));
  }

  /**
    `Vertical` never lets the containers' requests of a resource add up to
    less than its minimum once the pod-level requests were clamped to that
    minimum and the limits were not clamped to the maximum, provided the pod's
    requests are the positive sum of its containers'.
   */
  lemma VerticalRequestsAtLeastMin(s: State, cpuLimitsToRequestsRatio: real, memoryLimitsToRequestsRatio: real, res: Resource)
    requires LimitsDefined(s) && s.containerResources != map[] && s.replicas != 0
    requires s.podMetrics.resources.Quantity(Requests, res) == Total(s.containerResources, Requests, res)
    requires s.podMetrics.resources.Quantity(Requests, res) > 0.0
    requires Plans(s, cpuLimitsToRequestsRatio, memoryLimitsToRequestsRatio).Ok?
    requires PlanOf(res, Plans(s, cpuLimitsToRequestsRatio, memoryLimitsToRequestsRatio).value.0,
                    Plans(s, cpuLimitsToRequestsRatio, memoryLimitsToRequestsRatio).value.1).requests
             == s.constraints.minResources.Get(res)
    requires PlanOf(res, Plans(s, cpuLimitsToRequestsRatio, memoryLimitsToRequestsRatio).value.0,
                    Plans(s, cpuLimitsToRequestsRatio, memoryLimitsToRequestsRatio).value.1).limits
             != s.constraints.maxResources.Get(res)
    ensures VerticalDecision(s, Some(cpuLimitsToRequestsRatio), Some(memoryLimitsToRequestsRatio)).Ok?
    ensures Total(VerticalDecision(s, Some(cpuLimitsToRequestsRatio), Some(memoryLimitsToRequestsRatio)).value.containerResources, Requests, res)
         >= s.constraints.minResources.Get(res)
  {
    var plans := Plans(s, cpuLimitsToRequestsRatio, memoryLimitsToRequestsRatio).value;
    PlansFor(s, cpuLimitsToRequestsRatio, memoryLimitsToRequestsRatio, res);
    PlanMode(s.podMetrics.resources.requests.Get(res), UtilizationRatio(s, res).value,
             s.constraints.minResources.Get(res), s.constraints.maxResources.Get(res),
             if res == Cpu then cpuLimitsToRequestsRatio else memoryLimitsToRequestsRatio);
    RescaledRequestsAtLeastMin(s.containerResources, s.podMetrics.resources, plans.0, plans.1, res, s.constraints.minResources.Get(res));
  }

  /**
    Whatever the rounding mode, `Vertical` brings the containers' total of
    each quantity to within one part in 10^8 of the current pod quantity of
    the pod-level target, provided the pod quantity is the positive sum of its
    containers'.
   */
  lemma VerticalTotalNearTarget(s: State, cpuLimitsToRequestsRatio: real, memoryLimitsToRequestsRatio: real, kind: Kind, res: Resource)
    requires LimitsDefined(s) && s.containerResources != map[] && s.replicas != 0
    requires s.podMetrics.resources.Quantity(kind, res) == Total(s.containerResources, kind, res)
    requires s.podMetrics.resources.Quantity(kind, res) > 0.0
    requires Plans(s, cpuLimitsToRequestsRatio, memoryLimitsToRequestsRatio).Ok?
    ensures VerticalDecision(s, Some(cpuLimitsToRequestsRatio), Some(memoryLimitsToRequestsRatio)).Ok?
    ensures Abs(Total(VerticalDecision(s, Some(cpuLimitsToRequestsRatio), Some(memoryLimitsToRequestsRatio)).value.containerResources, kind, res)
                - PlanOf(res, Plans(s, cpuLimitsToRequestsRatio, memoryLimitsToRequestsRatio).value.0,
                         Plans(s, cpuLimitsToRequestsRatio, memoryLimitsToRequestsRatio).value.1).Get(kind))
         <= s.podMetrics.resources.Quantity(kind, res) / Unit(8)
  {
    var plans := Plans(s, cpuLimitsToRequestsRatio, memoryLimitsToRequestsRatio).value;
    RescaledTotalNearTarget(s.containerResources, s.podMetrics.resources, plans.0, plans.1, kind, res);
  }
}
