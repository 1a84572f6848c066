/**
  The controller's conversions between the scaler's Kubernetes resources and
  the strategies' state (internal/controller/hybridscaler_controller.go):
  assembling the state from the scaler's status and spec, collecting a pod
  template's container resources, and turning a decision back into
  resource lists.
 */
module Controller {
  import opened Wrappers
  import opened Errors
  import opened Strategy
  import opened VerticalScaling

  /** A Kubernetes resource list: resource name to quantity. */
  type ResourceList = map<string, real>

  const CpuName: string := "cpu"
  const MemoryName: string := "memory"

  /** The cpu quantity of a list; an absent one is zero. */
  function CpuOf(l: ResourceList): real {
    if CpuName in l then l[CpuName] else 0.0
  }

  /** The memory quantity of a list; an absent one is zero. */
  function MemoryOf(l: ResourceList): real {
    if MemoryName in l then l[MemoryName] else 0.0
  }

  /** A container's requests and limits as the scaler's status records them. */
  datatype ContainerResourceLists = ContainerResourceLists(requests: ResourceList, limits: ResourceList)

  /** A container of a pod template. */
  datatype Container = Container(name: string, requests: ResourceList, limits: ResourceList)

  datatype HybridScalerStatus = HybridScalerStatus(
    replicas: Int32,
    containerResources: map<string, ContainerResourceLists>,
    resourceUsage: ResourceList)

  datatype ResourcePolicy = ResourcePolicy(
    minAllowed: ResourceList,
    maxAllowed: ResourceList,
    targetUtilization: map<string, Int32>,
    limitsToRequestsRatioCpu: real,
    limitsToRequestsRatioMemory: real)

  datatype HybridScalerSpec = HybridScalerSpec(
    minReplicas: Option<Int32>,
    maxReplicas: Option<Int32>,
    resourcePolicy: ResourcePolicy)

  /** `ptr.Deref`: the value pointed to, or the default for a nil pointer. */
  function Deref(p: Option<Int32>, default: Int32): (v: Int32)
    ensures p.Some? ==> v == p.value
    ensures p.None? ==> v == default
  {
    match p
    case Some(x) => x
    case None => default
  }

  /** The cpu and memory of a resource list. */
  function ToResourcesList(l: ResourceList): (r: ResourcesList)
    ensures r.cpu == CpuOf(l) && r.memory == MemoryOf(l)
  {
    ResourcesList(CpuOf(l), MemoryOf(l))
  }

  /** One container's lists as the strategies see them. */
  function ToResources(c: ContainerResourceLists): Resources {
    Resources(ToResourcesList(c.requests), ToResourcesList(c.limits))
  }

  /** Every container of the status, converted. */
  function ToContainerResources(m: map<string, ContainerResourceLists>): (r: ContainerResources)
    ensures r.Keys == m.Keys
    ensures forall n <- r :: r[n] == ToResources(m[n])
  {
    map n | n in m :: ToResources(m[n])
  }

  /** A target percentage as a decimal fraction (`inf.NewDec(p, 2)`). */
  function Percent(p: Int32): (f: real)
    ensures f * 100.0 == p as real
  {
    p as real / 100.0
  }

  /**
    `prepareState`: the state's containers are the status's, the pod's
    requests and limits are their sums, usage and constraints come from the
    status and the spec (absent replica bounds are zero), and the target
    percentages become fractions. A missing cpu target, then a missing
    memory target, is an error.
   */
  method PrepareState(status: HybridScalerStatus, spec: HybridScalerSpec) returns (r: Result<State, Error>)
    ensures CpuName !in spec.resourcePolicy.targetUtilization <==> r == Err(MissingCpuTarget)
    ensures CpuName in spec.resourcePolicy.targetUtilization && MemoryName !in spec.resourcePolicy.targetUtilization
            <==> r == Err(MissingMemoryTarget)
    ensures r.Ok? <==> CpuName in spec.resourcePolicy.targetUtilization && MemoryName in spec.resourcePolicy.targetUtilization
    ensures r.Ok? ==>
      var policy := spec.resourcePolicy;
      && r.value.replicas == status.replicas
      && r.value.containerResources == ToContainerResources(status.containerResources)
      && PodIsSumOfContainers(r.value)
      && r.value.podMetrics.resourceUsage == ToResourcesList(status.resourceUsage)
      && r.value.constraints == Constraints(
           Deref(spec.minReplicas, 0), Deref(spec.maxReplicas, 0),
           ToResourcesList(policy.minAllowed), ToResourcesList(policy.maxAllowed),
           policy.limitsToRequestsRatioCpu, policy.limitsToRequestsRatioMemory)
      && r.value.targetUtilization
         == ResourcesList(Percent(policy.targetUtilization[CpuName]), Percent(policy.targetUtilization[MemoryName]))
  {
    var containers, pod := CollectContainers(status.containerResources);
    var usage := ToResourcesList(status.resourceUsage);
    var policy := spec.resourcePolicy;
    var constraints := Constraints(
      Deref(spec.minReplicas, 0), Deref(spec.maxReplicas, 0),
      ToResourcesList(policy.minAllowed), ToResourcesList(policy.maxAllowed),
      policy.limitsToRequestsRatioCpu, policy.limitsToRequestsRatioMemory);

    if CpuName !in policy.targetUtilization {
      return Err(MissingCpuTarget);
    }
    if MemoryName !in policy.targetUtilization {
      return Err(MissingMemoryTarget);
    }
    var target := ResourcesList(Percent(policy.targetUtilization[CpuName]), Percent(policy.targetUtilization[MemoryName]));
    return Ok(State(status.replicas, containers, constraints, PodMetrics(usage, pod), target));
  }

  /**
    The loop of `prepareState`: converts every container of the status and
    adds its requests and limits to the pod's, visiting the names in any order.
   */
  method CollectContainers(m: map<string, ContainerResourceLists>) returns (containers: ContainerResources, pod: Resources)
    ensures containers == ToContainerResources(m)
    ensures Accumulated(pod, containers)
  {
    pod := Resources(ResourcesList(0.0, 0.0), ResourcesList(0.0, 0.0));
    containers := map[];
    EmptyTotals(pod);
    var remaining := m.Keys;
    while remaining != {}
      invariant remaining <= m.Keys
      invariant containers.Keys == m.Keys - remaining
      invariant forall n <- containers :: containers[n] == ToResources(m[n])
      invariant Accumulated(pod, containers)
      decreases |remaining|
    {
      var name :| name in remaining;
      var resources := ToResources(m[name]);
      AccumulateStep(pod, containers, name, resources);
      containers := containers[name := resources];
      pod := Add(pod, resources);
      remaining := remaining - {name};
    }
  }

  /** The pod's requests and limits with a container's added, quantity by quantity. */
  function Add(pod: Resources, r: Resources): (sum: Resources)
    ensures forall kind: Kind, res: Resource :: sum.Quantity(kind, res) == pod.Quantity(kind, res) + r.Quantity(kind, res)
  {
    Resources(
      ResourcesList(pod.requests.cpu + r.requests.cpu, pod.requests.memory + r.requests.memory),
      ResourcesList(pod.limits.cpu + r.limits.cpu, pod.limits.memory + r.limits.memory))
  }

  /** Every pod quantity is the total of the containers' quantities. */
  ghost predicate Accumulated(pod: Resources, containers: ContainerResources) {
    forall kind: Kind, res: Resource :: pod.Quantity(kind, res) == Total(containers, kind, res)
  }

  /** No containers, nothing in total. */
  lemma EmptyTotals(pod: Resources)
    requires pod == Resources(ResourcesList(0.0, 0.0), ResourcesList(0.0, 0.0))
    ensures Accumulated(pod, map[])
  {
    forall kind: Kind, res: Resource ensures Total(map[], kind, res) == 0.0 {
      assert Column(map[], kind, res) == map[];
      assert KeySeq({}) == [];
    }
  }

  /** A listing extended by a new name lists the extended keys. */
  lemma EnumeratesAppend(names: seq<string>, keys: set<string>, name: string, keys': set<string>)
    requires Enumerates(names, keys) && name !in keys && keys' == keys + {name}
    ensures Enumerates(names + [name], keys')
  {
  }

  /** Sums over names whose values agree are equal. */
  lemma {:induction false} SumOverAgree(names: seq<string>, c: map<string, real>, c': map<string, real>)
    requires forall n <- names :: ValueOf(c, n) == ValueOf(c', n)
    ensures SumOver(names, c) == SumOver(names, c')
  {
    if names != [] {
      SumOverAgree(names[1..], c, c');
    }
  }

  /** Inserting a new name adds its value to a column's total. */
  lemma ColumnTotalInsert(c: map<string, real>, name: string, v: real)
    requires name !in c
    ensures ColumnTotal(c[name := v]) == ColumnTotal(c) + v
  {
    var c' := c[name := v];
    var names := KeySeq(c.Keys);
    KeySeqEnumerates(c.Keys);
    EnumeratesAppend(names, c.Keys, name, c'.Keys);
    ColumnTotalAsSum(c', names + [name]);
    SumOverAppend(names, [name], c');
    SumOverAgree(names, c, c');
    assert SumOver([name], c') == v by {
      assert [name][1..] == [];
    }
  }

  /** Inserting a new container adds its quantity to the total. */
  lemma TotalInsert(m: ContainerResources, name: string, r: Resources, kind: Kind, res: Resource)
    requires name !in m
    ensures Total(m[name := r], kind, res) == Total(m, kind, res) + r.Quantity(kind, res)
  {
    assert Column(m[name := r], kind, res) == Column(m, kind, res)[name := r.Quantity(kind, res)];
    ColumnTotalInsert(Column(m, kind, res), name, r.Quantity(kind, res));
  }

  /** Adding one new container to the pod keeps its quantities the totals. */
  lemma AccumulateStep(pod: Resources, containers: ContainerResources, name: string, r: Resources)
    requires Accumulated(pod, containers)
    requires name !in containers
    ensures Accumulated(Add(pod, r), containers[name := r])
  {
    forall kind: Kind, res: Resource
      ensures Add(pod, r).Quantity(kind, res) == Total(containers[name := r], kind, res)
    {
      TotalInsert(containers, name, r, kind, res);
    }
  }

  /** The total over two containers is their sum. */
  lemma TwoContainerTotal(m: ContainerResources, a: string, b: string, kind: Kind, res: Resource)
    requires a != b && m.Keys == {a, b}
    ensures Total(m, kind, res) == m[a].Quantity(kind, res) + m[b].Quantity(kind, res)
  {
    var names := [a, b];
    var c := Column(m, kind, res);
    assert Enumerates(names, c.Keys);
    ColumnTotalAsSum(c, names);
    assert names[1..] == [b] && names[1..][1..] == [];
    assert SumOver([b], c) == c[b];
    assert SumOver(names, c) == c[a] + SumOver([b], c);
  }

  /** The name of every container of a pod template. */
  function Names(containers: seq<Container>): (names: set<string>)
    ensures forall c <- containers :: c.name in names
    ensures forall n <- names :: exists c <- containers :: c.name == n
  {
    set c <- containers :: c.name
  }

  /** The position holds the last container of its name. */
  predicate LastOfName(containers: seq<Container>, i: nat)
    requires i < |containers|
  {
    forall j :: i < j < |containers| ==> containers[j].name != containers[i].name
  }

  /**
    `getContainerResources`: one entry per container name, holding the
    requests and limits of the last container of that name.
   */
  method GetContainerResources(containers: seq<Container>) returns (m: map<string, ContainerResourceLists>)
    ensures m.Keys == Names(containers)
    ensures forall i :: 0 <= i < |containers| && LastOfName(containers, i) ==> m[containers[i].name] == ContainerResourceLists(containers[i].requests, containers[i].limits)
  {
    m := map[];
    for k := 0 to |containers|
      invariant m.Keys == Names(containers[..k])
      invariant forall i :: 0 <= i < k && LastOfName(containers[..k], i) ==> m[containers[i].name] == ContainerResourceLists(containers[i].requests, containers[i].limits)
    {
      var c := containers[k];
      m := m[c.name := ContainerResourceLists(c.requests, c.limits)];
      assert containers[..k + 1] == containers[..k] + [c];
      forall i | 0 <= i < k + 1 && LastOfName(containers[..k + 1], i)
        ensures m[containers[i].name] == ContainerResourceLists(containers[i].requests, containers[i].limits)
      {
        if i < k {
          assert containers[..k + 1][k] == c;
          assert LastOfName(containers[..k], i) by {
            forall j | i < j < k ensures containers[..k][j].name != containers[..k][i].name {
              assert containers[..k + 1][j] == containers[..k][j];
            }
          }
        }
      }
    }
    assert containers[..|containers|] == containers;
  }

  /** The pod template example: two containers with distinct names, each recorded as it is. */
  method GetContainerResourcesExample() returns (m: map<string, ContainerResourceLists>)
    ensures m == map[
      "container1" := ContainerResourceLists(
        map[CpuName := 0.1, MemoryName := 1_048_576_000.0], map[CpuName := 0.2, MemoryName := 2_097_152_000.0]),
      "container2" := ContainerResourceLists(
        map[CpuName := 0.2, MemoryName := 2_097_152_000.0], map[CpuName := 0.3, MemoryName := 3_145_728_000.0])]
  {
    var c1 := Container("container1",
      map[CpuName := 0.1, MemoryName := 1_048_576_000.0], map[CpuName := 0.2, MemoryName := 2_097_152_000.0]);
    var c2 := Container("container2",
      map[CpuName := 0.2, MemoryName := 2_097_152_000.0], map[CpuName := 0.3, MemoryName := 3_145_728_000.0]);
    m := GetContainerResources([c1, c2]);
    assert LastOfName([c1, c2], 0) && LastOfName([c1, c2], 1);
    assert Names([c1, c2]) == {"container1", "container2"};
  }

  /** A resource list holding exactly a cpu and a memory quantity. */
  function ToResourceList(l: ResourcesList): (r: ResourceList)
    ensures r.Keys == {CpuName, MemoryName}
    ensures CpuOf(r) == l.cpu && MemoryOf(r) == l.memory
  {
    map[CpuName := l.cpu, MemoryName := l.memory]
  }

  /** The converted lists of one container. */
  function FromResources(r: Resources): ContainerResourceLists {
    ContainerResourceLists(ToResourceList(r.requests), ToResourceList(r.limits))
  }

  /**
    `interpretResourceScaling`: one entry per container of the decision,
    each a cpu and a memory quantity for requests and for limits.
   */
  method InterpretResourceScaling(decision: ScalingDecision) returns (m: map<string, ContainerResourceLists>)
    ensures m.Keys == decision.containerResources.Keys
    ensures forall n <- m :: m[n] == FromResources(decision.containerResources[n])
  {
    m := map[];
    var remaining := decision.containerResources.Keys;
    while remaining != {}
      invariant remaining <= decision.containerResources.Keys
      invariant m.Keys == decision.containerResources.Keys - remaining
      invariant forall n <- m :: m[n] == FromResources(decision.containerResources[n])
      decreases |remaining|
    {
      var name :| name in remaining;
      var resources := decision.containerResources[name];
      m := m[name := ContainerResourceLists(ToResourceList(resources.requests), ToResourceList(resources.limits))];
      remaining := remaining - {name};
    }
  }

  /** Reading back what `interpretResourceScaling` wrote gives the decision's containers. */
  lemma InterpretRoundTrip(d: ContainerResources, m: map<string, ContainerResourceLists>)
    requires m.Keys == d.Keys
    requires forall n <- m :: m[n] == FromResources(d[n])
    ensures ToContainerResources(m) == d
  {
    var back := ToContainerResources(m);
    forall n <- d ensures back[n] == d[n] {
      assert ToResources(FromResources(d[n])) == d[n];
    }
  }

  /** The status example: 1 + 0.1 = 1.1 cpu requested by the pod, and targets of 50 and 80 percent. */
  lemma PrepareStateExample(s: State)
    requires s.containerResources == map[
      "container1" := Resources(ResourcesList(1.0, 5_000_000_000.0), ResourcesList(2.0, 6_000_000_000.0)),
      "container2" := Resources(ResourcesList(0.1, 250_000_000.0), ResourcesList(1.0, 2_000_000_000.0))]
    requires PodIsSumOfContainers(s)
    ensures s.podMetrics.resources == Resources(ResourcesList(1.1, 5_250_000_000.0), ResourcesList(3.0, 8_000_000_000.0))
    ensures Percent(50) == 0.5 && Percent(80) == 0.8
  {
    var m := s.containerResources;
    TwoContainerTotal(m, "container1", "container2", Requests, Cpu);
    TwoContainerTotal(m, "container1", "container2", Requests, Memory);
    TwoContainerTotal(m, "container1", "container2", Limits, Cpu);
    TwoContainerTotal(m, "container1", "container2", Limits, Memory);
    assert s.podMetrics.resources.Quantity(Requests, Cpu) == Total(m, Requests, Cpu);
    assert s.podMetrics.resources.Quantity(Requests, Memory) == Total(m, Requests, Memory);
    assert s.podMetrics.resources.Quantity(Limits, Cpu) == Total(m, Limits, Cpu);
    assert s.podMetrics.resources.Quantity(Limits, Memory) == Total(m, Limits, Memory);
  }

  /**
    `prepareState` on the status and spec of the controller's test: 3 replicas,
    two containers, usage 100m and 1G, replica bounds 1 and 5, resource bounds
    100m/100M and 4/8G, ratios 2 and 2, targets of 50 and 80 percent.
   */
  method PrepareStateTestCase() returns (r: Result<State, Error>)
    ensures r == Ok(State(
      3,
      map[
        "container1" := Resources(ResourcesList(1.0, 5_000_000_000.0), ResourcesList(2.0, 6_000_000_000.0)),
        "container2" := Resources(ResourcesList(0.1, 250_000_000.0), ResourcesList(1.0, 2_000_000_000.0))],
      Constraints(1, 5, ResourcesList(0.1, 100_000_000.0), ResourcesList(4.0, 8_000_000_000.0), 2.0, 2.0),
      PodMetrics(
        ResourcesList(0.1, 1_000_000_000.0),
        Resources(ResourcesList(1.1, 5_250_000_000.0), ResourcesList(3.0, 8_000_000_000.0))),
      ResourcesList(0.5, 0.8)))
  {
    var c1 := ContainerResourceLists(
      map[CpuName := 1.0, MemoryName := 5_000_000_000.0], map[CpuName := 2.0, MemoryName := 6_000_000_000.0]);
    var c2 := ContainerResourceLists(
      map[CpuName := 0.1, MemoryName := 250_000_000.0], map[CpuName := 1.0, MemoryName := 2_000_000_000.0]);
    var status := HybridScalerStatus(
      3, map["container1" := c1, "container2" := c2], map[CpuName := 0.1, MemoryName := 1_000_000_000.0]);
    var policy := ResourcePolicy(
      map[CpuName := 0.1, MemoryName := 100_000_000.0], map[CpuName := 4.0, MemoryName := 8_000_000_000.0],
      map[CpuName := 50, MemoryName := 80], 2.0, 2.0);
    r := PrepareState(status, HybridScalerSpec(Some(1), Some(5), policy));
    var containers := map[
      "container1" := Resources(ResourcesList(1.0, 5_000_000_000.0), ResourcesList(2.0, 6_000_000_000.0)),
      "container2" := Resources(ResourcesList(0.1, 250_000_000.0), ResourcesList(1.0, 2_000_000_000.0))];
    assert ToContainerResources(status.containerResources) == containers;
    PrepareStateExample(r.value);
  }
}
