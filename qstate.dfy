/**
  The Q-learning view of a workload (internal/reinforcement/q-agent.go):
  the action names, the coarse state a `State` is quantized to, and the
  string name that keys the Q-table.
 */
module QState {
  import opened Wrappers
  import opened Errors
  import opened Decimal
  import opened Strategy
  import opened ScalingCommon

  /** An action is its name, as Go's `type action string`; any string may arrive. */
  type Action = string

  const ActionNone: Action := "NONE"
  const ActionVertical: Action := "VERTICAL"
  // the source spells this one without its second "T"
  const ActionHorizontal: Action := "HORIZONAL"
  const ActionHybrid: Action := "HYBRID"
  const ActionHybridInverse: Action := "HYBRID_INVERSE"

  /** Every action the agent knows, in the order the agent offers them. */
  const AllActions: seq<Action> := [ActionNone, ActionHorizontal, ActionVertical, ActionHybrid, ActionHybridInverse]

  /** The width, in percent, of one bucket of the quantized state. */
  const PercentageQuantum: real := 25.0

  /** The quantized state the Q-table is keyed by, with the values the cost is computed from. */
  datatype QLearningState = QLearningState(
    name: string,
    replicas: Int32,
    cpuRequests: real,
    memoryRequests: real,
    cpuUtilization: real,
    memoryUtilization: real,
    cpuTargetUtilization: real,
    memoryTargetUtilization: real)

  // ---------------------------------------------------------------------
  // Quantization

  /** `quantizePercentage`: `value` cut down to a whole number of quanta, as an integer. */
  function QuantizePercentage(value: real, quantum: real): int
    requires quantum != 0.0
  {
    DecToInt64(QuoRound(value, quantum, 0, Down) * quantum)
  }

  /**
    For a whole positive quantum and a non-negative value the result is the
    largest multiple of the quantum not above the value; nothing caps it.
   */
  lemma QuantizePercentageBounds(value: real, quantum: nat) returns (k: nat)
    requires quantum > 0 && value >= 0.0
    ensures var q := QuantizePercentage(value, quantum as real);
      && q == k * quantum
      && q as real <= value < q as real + quantum as real
  {
    k := QuantizeMultiple(value, quantum);
    FloorTimes(value, quantum as real, k);
  }

  /** The result is the quantum times the whole number of quanta in `value`. */
  lemma QuantizeMultiple(value: real, quantum: nat) returns (k: nat)
    requires quantum > 0 && value >= 0.0
    ensures k as real <= value / quantum as real < k as real + 1.0
    ensures QuantizePercentage(value, quantum as real) == k * quantum
  {
    k := QuotientFloor(value, quantum as real);
    CastProduct(k, quantum);
    DecToInt64Exact(k * quantum);
  }

  /** Rounding a non-negative quotient down to no places is taking its floor. */
  lemma QuotientFloor(value: real, q: real) returns (k: nat)
    requires q > 0.0 && value >= 0.0
    ensures k as real <= value / q < k as real + 1.0
    ensures QuoRound(value, q, 0, Down) == k as real
  {
    var x := value / q;
    assert x >= 0.0;
    k := x.Floor;
    assert RoundToInt(x, Down) == k;
    RoundToZeroPlaces(x, Down);
  }

  /** The product of two whole numbers is the same taken as decimals. */
  lemma CastProduct(k: nat, m: nat)
    ensures k as real * m as real == (k * m) as real
  {
  }

  /** Multiplying `k <= x/q < k+1` through by a positive `q`. */
  lemma FloorTimes(x: real, q: real, k: int)
    requires q > 0.0
    requires k as real <= x / q < k as real + 1.0
    ensures k as real * q <= x < k as real * q + q
  {
    assert x == (x / q) * q;
    MulLess(x / q, k as real + 1.0, q);
    MulAtMost(k as real, x / q, q);
  }

  lemma MulLess(a: real, b: real, q: real)
    requires a < b && q > 0.0
    ensures a * q < b * q
  {
  }

  lemma MulAtMost(a: real, b: real, q: real)
    requires a <= b && q > 0.0
    ensures a * q <= b * q
  {
  }

  /** The examples of the quantization tests, with a quantum of 20; the last shows there is no cap. */
  lemma QuantizePercentageExamples()
    ensures QuantizePercentage(14.0, 20.0) == 0
    ensures QuantizePercentage(29.0, 20.0) == 20
    ensures QuantizePercentage(101.0, 20.0) == 100
    ensures QuantizePercentage(150.0, 25.0) == 150
  {
    var a := QuantizeMultiple(14.0, 20);
    var b := QuantizeMultiple(29.0, 20);
    var c := QuantizeMultiple(101.0, 20);
    var d := QuantizeMultiple(150.0, 25);
  }

  /** A ratio as a bucket of the state: its percentage quantized to 25 points, capped at 100. */
  function Bucket(ratio: real): int {
    var q := QuantizePercentage(ratio * 100.0, PercentageQuantum);
    if q > 100 then 100 else q
  }

  /**
    A non-negative ratio falls into one of five buckets: 100 from a ratio of
    one upward, below that the quarter its percentage lies in.
   */
  lemma BucketBounds(ratio: real)
    requires ratio >= 0.0
    ensures Bucket(ratio) in {0, 25, 50, 75, 100}
    ensures ratio >= 1.0 ==> Bucket(ratio) == 100
    ensures ratio < 1.0 ==> Bucket(ratio) as real <= ratio * 100.0 < Bucket(ratio) as real + 25.0
  {
    var k := QuantizeMultiple(ratio * 100.0, 25);
    FloorTimes(ratio * 100.0, 25.0, k);
    assert QuantizePercentage(ratio * 100.0, PercentageQuantum) == k * 25;
    if k <= 4 {
      assert k == 0 || k == 1 || k == 2 || k == 3 || k == 4;
    }
  }

  // ---------------------------------------------------------------------
  // State names

  /** The character of a decimal digit. */
  function DigitChar(d: nat): char
    requires d < 10
  {
    (48 + d) as char
  }

  /** The value of a decimal digit character, zero for any other character. */
  function DigitValue(c: char): nat {
    if '0' <= c <= '9' then c as int - 48 else 0
  }

  /** The decimal digits of `n`, most significant first, without leading zeros. */
  function Digits(n: nat): (s: string)
    ensures |s| >= 1
    ensures forall c <- s :: '0' <= c <= '9'
    ensures forall i :: 0 <= i < |s| ==> '0' <= s[i] <= '9'
    ensures s[0] == '0' ==> n == 0 && s == "0"
    decreases n
  {
    if n < 10 then [DigitChar(n)] else Digits(n / 10) + [DigitChar(n % 10)]
  }

  /** The number a string of decimal digits denotes. */
  function NatOf(s: string): nat
    decreases |s|
  {
    if s == [] then 0 else 10 * NatOf(s[..|s| - 1]) + DigitValue(s[|s| - 1])
  }

  lemma {:induction false} NatOfDigits(n: nat)
    ensures NatOf(Digits(n)) == n
    decreases n
  {
    if n >= 10 {
      var s := Digits(n);
      assert s[..|s| - 1] == Digits(n / 10);
      NatOfDigits(n / 10);
    }
  }

  /**
    `%d`: a minus sign exactly for a negative number, then the decimal
    digits of its magnitude, with no leading zero unless the number is 0.
   */
  function IntToString(n: int): (s: string)
    ensures |s| >= 1
    ensures s[0] == '-' <==> n < 0
    ensures forall i :: 0 < i < |s| ==> '0' <= s[i] <= '9'
    ensures n >= 0 ==> '0' <= s[0] <= '9'
    ensures n < 0 ==> |s| >= 2 && s[1] != '0'
    ensures n >= 0 ==> (s[0] == '0' <==> n == 0) && (n == 0 ==> s == "0")
  {
    if n < 0 then "-" + Digits(-n) else Digits(n)
  }

  /** Reads back what `IntToString` writes. */
  function IntOf(s: string): int {
    if |s| > 0 && s[0] == '-' then -(NatOf(s[1..]) as int) else NatOf(s)
  }

  lemma IntOfIntToString(n: int)
    ensures IntOf(IntToString(n)) == n
  {
    if n < 0 {
      assert ("-" + Digits(-n))[1..] == Digits(-n);
      NatOfDigits(-n);
    } else {
      assert Digits(n)[0] in Digits(n);
      NatOfDigits(n);
    }
  }

  /** The strings joined with `_` between them. */
  function JoinFields(fields: seq<string>): string
    requires |fields| >= 1
  {
    if |fields| == 1 then fields[0] else fields[0] + "_" + JoinFields(fields[1..])
  }

  /** A string cut at every `_`. */
  function Fields(s: string): (f: seq<string>)
    ensures |f| >= 1
  {
    if s == [] then [""]
    else
      var rest := Fields(s[1..]);
      if s[0] == '_' then [""] + rest else [[s[0]] + rest[0]] + rest[1..]
  }

  lemma {:induction false} FieldsWithoutSeparator(a: string)
    requires '_' !in a
    ensures Fields(a) == [a]
  {
    if a != [] {
      FieldsWithoutSeparator(a[1..]);
      assert [a[0]] + a[1..] == a;
    }
  }

  lemma {:induction false} FieldsAtSeparator(a: string, b: string)
    requires '_' !in a
    ensures Fields(a + "_" + b) == [a] + Fields(b)
  {
    if a == [] {
      assert a + "_" + b == "_" + b;
      assert ("_" + b)[1..] == b;
    } else {
      assert (a + "_" + b)[0] == a[0];
      assert (a + "_" + b)[1..] == a[1..] + "_" + b;
      FieldsAtSeparator(a[1..], b);
      assert [a[0]] + a[1..] == a;
    }
  }

  /** Cutting a join of separator-free strings gives the strings back. */
  lemma {:induction false} FieldsOfJoin(fields: seq<string>)
    requires |fields| >= 1
    requires forall i :: 0 <= i < |fields| ==> '_' !in fields[i]
    ensures Fields(JoinFields(fields)) == fields
  {
    if |fields| == 1 {
      FieldsWithoutSeparator(fields[0]);
    } else {
      FieldsAtSeparator(fields[0], JoinFields(fields[1..]));
      FieldsOfJoin(fields[1..]);
    }
  }

  function Render(values: seq<int>): (fields: seq<string>)
    ensures |fields| == |values|
    ensures forall i :: 0 <= i < |values| ==> fields[i] == IntToString(values[i])
  {
    if values == [] then [] else [IntToString(values[0])] + Render(values[1..])
  }

  /** The state name: the numbers in decimal, separated by `_` (the format `%d_%d_%d_%d_%d`). */
  function StateName(values: seq<int>): string
    requires |values| >= 1
  {
    JoinFields(Render(values))
  }

  /** The numbers a state name is built from. */
  function ParseStateName(name: string): seq<int> {
    var fields := Fields(name);
    seq(|fields|, i requires 0 <= i < |fields| => IntOf(fields[i]))
  }

  /** A state name gives back the numbers it was built from. */
  lemma ParseStateNameRoundTrip(values: seq<int>)
    requires |values| >= 1
    ensures ParseStateName(StateName(values)) == values
  {
    var fields := Render(values);
    forall i | 0 <= i < |fields| ensures '_' !in fields[i] {
      assert fields[i] == IntToString(values[i]);
    }
    FieldsOfJoin(fields);
    forall i | 0 <= i < |values| ensures IntOf(fields[i]) == values[i] {
      IntOfIntToString(values[i]);
    }
  }

  /** Different numbers give different names: the Q-table never merges two states. */
  lemma StateNameInjective(a: seq<int>, b: seq<int>)
    requires |a| >= 1 && |b| >= 1
    requires StateName(a) == StateName(b)
    ensures a == b
  {
    ParseStateNameRoundTrip(a);
    ParseStateNameRoundTrip(b);
  }

  // ---------------------------------------------------------------------
  // convertState

  /** The pod's limits as a share of the maximum allowed. */
  function LimitsShare(s: State, res: Resource): real
    requires s.constraints.maxResources.Get(res) != 0.0
  {
    HalfUp8(s.podMetrics.resources.limits.Get(res), s.constraints.maxResources.Get(res))
  }

  /** The pod's usage as a share of its requests. */
  function UsageShare(s: State, res: Resource): real
    requires s.podMetrics.resources.requests.Get(res) != 0.0
  {
    HalfUp8(s.podMetrics.resourceUsage.Get(res), s.podMetrics.resources.requests.Get(res))
  }

  /** The usage share over the target utilization. */
  function UtilizationToTarget(s: State, res: Resource): real
    requires s.podMetrics.resources.requests.Get(res) != 0.0
    requires s.targetUtilization.Get(res) != 0.0
  {
    HalfUp8(UsageShare(s, res), s.targetUtilization.Get(res))
  }

  /**
    `convertState`. It refuses, in this order, zero cpu requests, zero memory
    requests, zero max cpu, zero max memory, a zero cpu target and a zero
    memory target. Otherwise the name decodes to the replicas and the four
    buckets (cpu limits, memory limits, cpu utilization, memory
    utilization), and the utilization fields hold usage over requests, not
    the ratio to the target.
   */
  function ConvertState(s: State): (r: Result<QLearningState, Error>)
    ensures r == Err(CpuRequestsZero) <==> s.podMetrics.resources.requests.cpu == 0.0
    ensures r == Err(MemoryRequestsZero)
            <==> s.podMetrics.resources.requests.cpu != 0.0 && s.podMetrics.resources.requests.memory == 0.0
    ensures r == Err(MaxCpuZero)
            <==> s.podMetrics.resources.requests.cpu != 0.0 && s.podMetrics.resources.requests.memory != 0.0
                 && s.constraints.maxResources.cpu == 0.0
    ensures r == Err(MaxMemoryZero)
            <==> s.podMetrics.resources.requests.cpu != 0.0 && s.podMetrics.resources.requests.memory != 0.0
                 && s.constraints.maxResources.cpu != 0.0 && s.constraints.maxResources.memory == 0.0
    ensures r == Err(CpuTargetUtilizationZero)
            <==> s.podMetrics.resources.requests.cpu != 0.0 && s.podMetrics.resources.requests.memory != 0.0
                 && s.constraints.maxResources.cpu != 0.0 && s.constraints.maxResources.memory != 0.0
                 && s.targetUtilization.cpu == 0.0
    ensures r.Ok? <==> ConvertibleState(s)
    ensures r.Err? ==> r.error in {CpuRequestsZero, MemoryRequestsZero, MaxCpuZero, MaxMemoryZero,
                                   CpuTargetUtilizationZero, MemoryTargetUtilizationZero}
    ensures r.Ok? ==>
      && r.value.replicas == s.replicas
      && r.value.cpuRequests == s.podMetrics.resources.requests.cpu
      && r.value.memoryRequests == s.podMetrics.resources.requests.memory
      && r.value.cpuUtilization == UsageShare(s, Cpu)
      && r.value.memoryUtilization == UsageShare(s, Memory)
      && r.value.cpuTargetUtilization == s.targetUtilization.cpu
      && r.value.memoryTargetUtilization == s.targetUtilization.memory
    ensures r.Ok? ==>
      r.value.name
      == StateName([s.replicas as int,
                    Bucket(LimitsShare(s, Cpu)), Bucket(LimitsShare(s, Memory)),
                    Bucket(UtilizationToTarget(s, Cpu)), Bucket(UtilizationToTarget(s, Memory))])
    ensures r.Ok? ==>
      ParseStateName(r.value.name)
      == [s.replicas as int,
          Bucket(LimitsShare(s, Cpu)), Bucket(LimitsShare(s, Memory)),
          Bucket(UtilizationToTarget(s, Cpu)), Bucket(UtilizationToTarget(s, Memory))]
  {
    var pod := s.podMetrics.resources;
    if pod.requests.cpu == 0.0 then Err(CpuRequestsZero)
    else if pod.requests.memory == 0.0 then Err(MemoryRequestsZero)
    else if s.constraints.maxResources.cpu == 0.0 then Err(MaxCpuZero)
    else if s.constraints.maxResources.memory == 0.0 then Err(MaxMemoryZero)
    else if s.targetUtilization.cpu == 0.0 then Err(CpuTargetUtilizationZero)
    else if s.targetUtilization.memory == 0.0 then Err(MemoryTargetUtilizationZero)
    else
      var values := [s.replicas as int,
                     Bucket(LimitsShare(s, Cpu)), Bucket(LimitsShare(s, Memory)),
                     Bucket(UtilizationToTarget(s, Cpu)), Bucket(UtilizationToTarget(s, Memory))];
      ParseStateNameRoundTrip(values);
      Ok(QLearningState(
        StateName(values),
        s.replicas,
        pod.requests.cpu,
        pod.requests.memory,
        UsageShare(s, Cpu),
        UsageShare(s, Memory),
        s.targetUtilization.cpu,
        s.targetUtilization.memory))
  }

  /** None of the six divisors of `convertState` is zero. */
  predicate ConvertibleState(s: State) {
    && s.podMetrics.resources.requests.cpu != 0.0
    && s.podMetrics.resources.requests.memory != 0.0
    && s.constraints.maxResources.cpu != 0.0
    && s.constraints.maxResources.memory != 0.0
    && s.targetUtilization.cpu != 0.0
    && s.targetUtilization.memory != 0.0
  }

  /** A non-negative numerator over a positive denominator keeps its sign through the rounding. */
  lemma HalfUp8NonNegative(x: real, y: real)
    requires x >= 0.0 && y > 0.0
    ensures HalfUp8(x, y) >= 0.0
  {
    assert x / y >= 0.0;
    assert Scaled(x / y, 8) >= 0.0;
    assert RoundToInt(Scaled(x / y, 8), HalfUp) >= 0;
  }

  /**
    With non-negative quantities and positive divisors each of the four
    buckets in the name is one of 0, 25, 50, 75 and 100.
   */
  lemma ConvertStateBuckets(s: State)
    requires ConvertibleState(s)
    requires s.podMetrics.resources.requests.cpu > 0.0 && s.podMetrics.resources.requests.memory > 0.0
    requires s.constraints.maxResources.cpu > 0.0 && s.constraints.maxResources.memory > 0.0
    requires s.targetUtilization.cpu > 0.0 && s.targetUtilization.memory > 0.0
    requires s.podMetrics.resources.limits.cpu >= 0.0 && s.podMetrics.resources.limits.memory >= 0.0
    requires s.podMetrics.resourceUsage.cpu >= 0.0 && s.podMetrics.resourceUsage.memory >= 0.0
    ensures ConvertState(s).Ok?
    ensures var values := ParseStateName(ConvertState(s).value.name);
      |values| == 5 && values[0] == s.replicas as int
      && forall i :: 1 <= i < 5 ==> values[i] in {0, 25, 50, 75, 100}
  {
    var pod := s.podMetrics.resources;
    HalfUp8NonNegative(pod.limits.cpu, s.constraints.maxResources.cpu);
    HalfUp8NonNegative(pod.limits.memory, s.constraints.maxResources.memory);
    HalfUp8NonNegative(s.podMetrics.resourceUsage.cpu, pod.requests.cpu);
    HalfUp8NonNegative(s.podMetrics.resourceUsage.memory, pod.requests.memory);
    HalfUp8NonNegative(UsageShare(s, Cpu), s.targetUtilization.cpu);
    HalfUp8NonNegative(UsageShare(s, Memory), s.targetUtilization.memory);
    BucketBounds(LimitsShare(s, Cpu));
    BucketBounds(LimitsShare(s, Memory));
    BucketBounds(UtilizationToTarget(s, Cpu));
    BucketBounds(UtilizationToTarget(s, Memory));
  }

  /** The conversion test: four replicas, cpu at 600 of 100 requested, memory at 180 of 250. */
  lemma ConvertStateExample(s: State)
    requires s.replicas == 4
    requires s.constraints.maxResources == ResourcesList(500.0, 800.0)
    requires s.podMetrics.resourceUsage == ResourcesList(600.0, 180.0)
    requires s.podMetrics.resources == Resources(ResourcesList(100.0, 250.0), ResourcesList(500.0, 700.0))
    requires s.targetUtilization == ResourcesList(0.5, 0.8)
    ensures ConvertState(s) == Ok(QLearningState("4_100_75_100_75", 4, 100.0, 250.0, 6.0, 0.72, 0.5, 0.8))
  {
    ExampleShares(s);
    ExampleBuckets();
    ExampleName();
  }

  lemma ExampleShares(s: State)
    requires s.constraints.maxResources == ResourcesList(500.0, 800.0)
    requires s.podMetrics.resourceUsage == ResourcesList(600.0, 180.0)
    requires s.podMetrics.resources == Resources(ResourcesList(100.0, 250.0), ResourcesList(500.0, 700.0))
    requires s.targetUtilization == ResourcesList(0.5, 0.8)
    ensures LimitsShare(s, Cpu) == 1.0 && LimitsShare(s, Memory) == 0.875
    ensures UsageShare(s, Cpu) == 6.0 && UsageShare(s, Memory) == 0.72
    ensures UtilizationToTarget(s, Cpu) == 12.0 && UtilizationToTarget(s, Memory) == 0.9
  {
    ExampleQuotients();
    ExampleRatios();
  }

  lemma ExampleQuotients()
    ensures HalfUp8(500.0, 500.0) == 1.0 && HalfUp8(700.0, 800.0) == 0.875
    ensures HalfUp8(600.0, 100.0) == 6.0 && HalfUp8(180.0, 250.0) == 0.72
  {
    assert 500.0 / 500.0 == 1.0 && 700.0 / 800.0 == 0.875;
    assert 600.0 / 100.0 == 6.0 && 180.0 / 250.0 == 0.72;
    HalfUp8Exact(500.0, 500.0, 100_000_000);
    HalfUp8Exact(700.0, 800.0, 87_500_000);
    HalfUp8Exact(600.0, 100.0, 600_000_000);
    HalfUp8Exact(180.0, 250.0, 72_000_000);
  }

  lemma ExampleRatios()
    ensures HalfUp8(6.0, 0.5) == 12.0 && HalfUp8(0.72, 0.8) == 0.9
  {
    HalfUp8Exact(6.0, 0.5, 1_200_000_000);
    HalfUp8Exact(0.72, 0.8, 90_000_000);
  }

  /** The bucket of a ratio whose percentage holds `k` whole quanta. */
  lemma BucketIs(ratio: real, k: nat)
    requires k as real <= ratio * 4.0 < k as real + 1.0
    ensures Bucket(ratio) == if k * 25 > 100 then 100 else k * 25
  {
    var j := QuantizeMultiple(ratio * 100.0, 25);
    assert ratio * 100.0 / 25.0 == ratio * 4.0;
    assert j as real <= ratio * 4.0 < j as real + 1.0;
    assert j < k + 1 && k < j + 1;
    assert QuantizePercentage(ratio * 100.0, PercentageQuantum) == k * 25;
  }

  lemma ExampleBuckets()
    ensures Bucket(1.0) == 100 && Bucket(0.875) == 75 && Bucket(12.0) == 100 && Bucket(0.9) == 75
  {
    BucketIs(1.0, 4);
    BucketIs(0.875, 3);
    BucketIs(12.0, 48);
    BucketIs(0.9, 3);
  }

  lemma IntToStringExamples()
    ensures IntToString(100) == "100" && IntToString(75) == "75" && IntToString(4) == "4"
  {
    assert Digits(10) == "10";
  }

  lemma ExampleName()
    ensures StateName([4, 100, 75, 100, 75]) == "4_100_75_100_75"
  {
    ExampleRender();
    ExampleJoin();
  }

  lemma ExampleRender()
    ensures Render([4, 100, 75, 100, 75]) == ["4", "100", "75", "100", "75"]
  {
    IntToStringExamples();
    var v, r := [4, 100, 75, 100, 75], Render([4, 100, 75, 100, 75]);
    assert r[0] == "4" && r[1] == "100" && r[2] == "75" && r[3] == "100" && r[4] == "75";
  }

  lemma ExampleJoin()
    ensures JoinFields(["4", "100", "75", "100", "75"]) == "4_100_75_100_75"
  {
    var f := ["4", "100", "75", "100", "75"];
    assert JoinFields(f[3..]) == "100_75" by { assert f[3..][1..] == ["75"]; }
    assert JoinFields(f[2..]) == "75_100_75" by { assert f[2..][1..] == f[3..]; }
    assert JoinFields(f[1..]) == "100_75_100_75" by { assert f[1..][1..] == f[2..]; }
  }

}
