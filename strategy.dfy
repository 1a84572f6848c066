/**
  The values exchanged between the controller and the scaling strategies:
  the observed state of a scaled workload and the decision a strategy takes.
  Every `*inf.Dec` of the source is a `real`; a nil pointer is not modelled
  (the code dereferences these fields without checking them).
 */
module Strategy {
  import opened Wrappers
  import opened Errors

  /** A Go `int32`. */
  type Int32 = x: int | -0x8000_0000 <= x < 0x8000_0000

  /** The two resources the scaler manages. */
  datatype Resource = Cpu | Memory

  /** Whether a quantity is a request or a limit. */
  datatype Kind = Requests | Limits

  /** A cpu and a memory quantity. */
  datatype ResourcesList = ResourcesList(cpu: real, memory: real) {
    function Get(res: Resource): real {
      match res
      case Cpu => cpu
      case Memory => memory
    }
  }

  /** The requests and limits of one container (or of a whole pod). */
  datatype Resources = Resources(requests: ResourcesList, limits: ResourcesList) {
    function Get(kind: Kind): ResourcesList {
      match kind
      case Requests => requests
      case Limits => limits
    }

    function Quantity(kind: Kind, res: Resource): real {
      Get(kind).Get(res)
    }
  }

  /** Container name to its allocated resources. */
  type ContainerResources = map<string, Resources>

  /** Usage together with the pod's summed requests and limits. */
  datatype PodMetrics = PodMetrics(resourceUsage: ResourcesList, resources: Resources)

  /** The scaling constraints of the scaler's spec. */
  datatype Constraints = Constraints(
    minReplicas: Int32,
    maxReplicas: Int32,
    minResources: ResourcesList,
    maxResources: ResourcesList,
    limitsToRequestsRatioCpu: real,
    limitsToRequestsRatioMemory: real)

  /** The current state as the strategies see it. */
  datatype State = State(
    replicas: Int32,
    containerResources: ContainerResources,
    constraints: Constraints,
    podMetrics: PodMetrics,
    targetUtilization: ResourcesList)

  /** The next desired state; `description` names the action that produced it. */
  datatype ScalingDecision = ScalingDecision(
    replicas: Int32,
    containerResources: ContainerResources,
    description: string)

  /** One quantity of every container, by name. */
  function Column(m: ContainerResources, kind: Kind, res: Resource): (c: map<string, real>)
    ensures c.Keys == m.Keys
  {
    map n | n in m :: m[n].Quantity(kind, res)
  }

  /** The value under a name, zero for a name that is absent. */
  function ValueOf(c: map<string, real>, name: string): real {
    if name in c then c[name] else 0.0
  }

  /** The sum of the values under the names in `names`, in that order. */
  function SumOver(names: seq<string>, c: map<string, real>): real {
    if names == [] then 0.0 else ValueOf(c, names[0]) + SumOver(names[1..], c)
  }

  /** `names` lists every element of `keys` exactly once. */
  ghost predicate Enumerates(names: seq<string>, keys: set<string>) {
    && (forall i, j :: 0 <= i < j < |names| ==> names[i] != names[j])
    && (forall n <- names :: n in keys)
    && (forall n <- keys :: n in names)
  }

  /** Some fixed listing of a set of names (a Go map has no order of its own). */
  ghost function KeySeq(keys: set<string>): seq<string>
    decreases |keys|
  {
    if keys == {} then []
    else
      var k :| k in keys;
      [k] + KeySeq(keys - {k})
  }

  lemma {:induction false} KeySeqEnumerates(keys: set<string>)
    ensures Enumerates(KeySeq(keys), keys)
    decreases |keys|
  {
    if keys != {} {
      var k :| k in keys && KeySeq(keys) == [k] + KeySeq(keys - {k});
      KeySeqEnumerates(keys - {k});
    }
  }

  /** The sum of all values of a column. */
  ghost function ColumnTotal(c: map<string, real>): real {
    SumOver(KeySeq(c.Keys), c)
  }

  /** The sum of one quantity over all containers of `m`. */
  ghost function Total(m: ContainerResources, kind: Kind, res: Resource): real {
    ColumnTotal(Column(m, kind, res))
  }

  /** Splitting a sum at its concatenation point. */
  lemma {:induction false} SumOverAppend(a: seq<string>, b: seq<string>, c: map<string, real>)
    ensures SumOver(a + b, c) == SumOver(a, c) + SumOver(b, c)
  {
    if a != [] {
      assert (a + b)[0] == a[0];
      assert (a + b)[1..] == a[1..] + b;
      SumOverAppend(a[1..], b, c);
    } else {
      assert a + b == b;
    }
  }

  /** Taking one name out of a listing takes its value out of the sum. */
  lemma SumOverRemoveAt(names: seq<string>, i: nat, c: map<string, real>)
    requires i < |names|
    ensures SumOver(names, c) == ValueOf(c, names[i]) + SumOver(names[..i] + names[i + 1..], c)
  {
    assert names == names[..i] + [names[i]] + names[i + 1..];
    SumOverAppend(names[..i] + [names[i]], names[i + 1..], c);
    SumOverAppend(names[..i], [names[i]], c);
    SumOverAppend(names[..i], names[i + 1..], c);
  }

  /** Removing the element at `i` from a listing lists the set without it. */
  lemma EnumeratesRemoveAt(names: seq<string>, i: nat, keys: set<string>)
    requires Enumerates(names, keys) && i < |names|
    ensures Enumerates(names[..i] + names[i + 1..], keys - {names[i]})
  {
    RemoveAtDistinct(names, i);
    RemoveAtWithin(names, i, keys);
    RemoveAtCovers(names, i, keys);
  }

  lemma RemoveAtDistinct(names: seq<string>, i: nat)
    requires i < |names|
    requires forall p, q :: 0 <= p < q < |names| ==> names[p] != names[q]
    ensures var rest := names[..i] + names[i + 1..];
      forall p, q :: 0 <= p < q < |rest| ==> rest[p] != rest[q]
  {
    var rest := names[..i] + names[i + 1..];
    forall p, q | 0 <= p < q < |rest| ensures rest[p] != rest[q] {
      var p' := if p < i then p else p + 1;
      var q' := if q < i then q else q + 1;
      assert rest[p] == names[p'] && rest[q] == names[q'];
    }
  }

  lemma RemoveAtWithin(names: seq<string>, i: nat, keys: set<string>)
    requires i < |names|
    requires forall p, q :: 0 <= p < q < |names| ==> names[p] != names[q]
    requires forall n <- names :: n in keys
    ensures forall n <- names[..i] + names[i + 1..] :: n in keys - {names[i]}
  {
    var k, rest := names[i], names[..i] + names[i + 1..];
    forall n <- rest ensures n in keys - {k} {
      var j :| 0 <= j < |rest| && rest[j] == n;
      var j' := if j < i then j else j + 1;
      assert names[j'] == n;
    }
  }

  lemma RemoveAtCovers(names: seq<string>, i: nat, keys: set<string>)
    requires i < |names|
    requires forall n <- keys :: n in names
    ensures forall n <- keys - {names[i]} :: n in names[..i] + names[i + 1..]
  {
    var k, rest := names[i], names[..i] + names[i + 1..];
    forall n <- keys - {k} ensures n in rest {
      var j :| 0 <= j < |names| && names[j] == n;
      if j < i {
        assert rest[j] == n;
      } else {
        assert rest[j - 1] == n;
      }
    }
  }

  /** A listing is as long as the set it lists. */
  lemma {:induction false} EnumeratesLength(names: seq<string>, keys: set<string>)
    requires Enumerates(names, keys)
    ensures |names| == |keys|
    decreases |names|
  {
    if names == [] {
      assert keys == {};
    } else {
      EnumeratesRemoveAt(names, 0, keys);
      assert names[..0] + names[1..] == names[1..];
      EnumeratesLength(names[1..], keys - {names[0]});
    }
  }

  /** The sum does not depend on the order in which the names are listed. */
  lemma {:induction false} SumOverPermutation(a: seq<string>, b: seq<string>, keys: set<string>, c: map<string, real>)
    requires Enumerates(a, keys) && Enumerates(b, keys)
    ensures SumOver(a, c) == SumOver(b, c)
    decreases |a|
  {
    if a == [] {
      EnumeratesLength(b, keys);
    } else {
      assert a[0] in keys;
      var i :| 0 <= i < |b| && b[i] == a[0];
      SumOverRemoveAt(b, i, c);
      EnumeratesRemoveAt(a, 0, keys);
      EnumeratesRemoveAt(b, i, keys);
      assert a[..0] + a[1..] == a[1..];
      SumOverPermutation(a[1..], b[..i] + b[i + 1..], keys - {a[0]}, c);
    }
  }

  /** Any listing of the names sums to the column's total. */
  lemma ColumnTotalAsSum(c: map<string, real>, names: seq<string>)
    requires Enumerates(names, c.Keys)
    ensures ColumnTotal(c) == SumOver(names, c)
  {
    KeySeqEnumerates(c.Keys);
    SumOverPermutation(KeySeq(c.Keys), names, c.Keys, c);
  }

  /** A sum of non-negative values is non-negative. */
  lemma {:induction false} SumOverNonNegative(names: seq<string>, c: map<string, real>)
    requires forall n <- c :: c[n] >= 0.0
    ensures SumOver(names, c) >= 0.0
  {
    if names != [] {
      SumOverNonNegative(names[1..], c);
    }
  }

  /** Scaling every value by `f` scales the sum by `f`. */
  lemma {:induction false} SumOverScaled(names: seq<string>, c: map<string, real>, c': map<string, real>, f: real)
    requires c.Keys == c'.Keys
    requires forall n <- c :: c'[n] == c[n] * f
    ensures SumOver(names, c') == SumOver(names, c) * f
  {
    if names != [] {
      SumOverScaled(names[1..], c, c', f);
      ScaleSum(f, ValueOf(c, names[0]), SumOver(names[1..], c), SumOver(names, c),
               ValueOf(c', names[0]), SumOver(names[1..], c'));
    }
  }

  /**
    Scaling every container's quantity by one factor scales the sum by it:
    if `m'` has the names of `m` and each quantity multiplied by `f`, its total
    is `f` times the total of `m`.
   */
  lemma TotalScaled(m: ContainerResources, m': ContainerResources, kind: Kind, res: Resource, f: real)
    requires m.Keys == m'.Keys
    requires forall n <- m :: m'[n].Quantity(kind, res) == m[n].Quantity(kind, res) * f
    ensures Total(m', kind, res) == Total(m, kind, res) * f
  {
    var c, c' := Column(m, kind, res), Column(m', kind, res);
    assert c.Keys == c'.Keys;
    SumOverScaled(KeySeq(c.Keys), c, c', f);
  }

  /** A total of non-negative quantities is non-negative. */
  lemma TotalNonNegative(m: ContainerResources, kind: Kind, res: Resource)
    requires forall n <- m :: m[n].Quantity(kind, res) >= 0.0
    ensures Total(m, kind, res) >= 0.0
  {
    SumOverNonNegative(KeySeq(m.Keys), Column(m, kind, res));
  }

  /** Multiplication distributes over a sum, stated on named terms. */
  lemma ScaleSum(f: real, a: real, b: real, t: real, fa: real, fb: real)
    requires t == a + b
    requires fa == a * f
    requires fb == b * f
    ensures fa + fb == t * f
  {
  }

  /**
    `NoOp.MakeDecision`: keeps the replicas and the container resources and
    hands the learning state back untouched; it never fails.
   */
  function NoOpMakeDecision<L>(s: State, learningState: L): (r: Result<(ScalingDecision, L), Error>)
    ensures r.Ok?
    ensures r.value.0.replicas == s.replicas
    ensures r.value.0.containerResources == s.containerResources
    ensures r.value.1 == learningState
  {
    Ok((ScalingDecision(s.replicas, s.containerResources, ""), learningState))
  }
}
