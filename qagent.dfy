/**
  The Q-learning agent (internal/reinforcement/q-agent.go): it quantizes the
  state, picks an action (greedily or at random), turns the action into a
  scaling decision and has the learning state updated.
 */
module QAgent {
  import opened Wrappers
  import opened Errors
  import opened Decimal
  import opened Strategy
  import opened HorizontalScaling
  import opened VerticalScaling
  import opened HybridScaling
  import opened QState
  import opened QLearning

  /** A scaling algorithm that takes the limits-to-requests ratios, as `HybridInverse` does. */
  type Algorithm = (State, Option<real>, Option<real>) -> Result<ScalingDecision, Error>

  /** The Bellman update of the learning state after `action` was chosen in a state. */
  type Updater = (QLearningState, Action, Blob) -> Result<Blob, Error>

  // ---------------------------------------------------------------------
  // getLimitsToRequestsRatio and convertAction

  /**
    `getLimitsToRequestsRatio`: fails on zero cpu requests, then on zero
    memory requests; otherwise each ratio is limits over requests, off by at
    most half a unit in the eighth place.
   */
  function GetLimitsToRequestsRatio(s: State): (r: Result<(real, real), Error>)
    ensures r == Err(CpuRequestsZero) <==> s.podMetrics.resources.requests.cpu == 0.0
    ensures r == Err(MemoryRequestsZero)
            <==> s.podMetrics.resources.requests.cpu != 0.0 && s.podMetrics.resources.requests.memory == 0.0
    ensures r.Ok? <==> s.podMetrics.resources.requests.cpu != 0.0 && s.podMetrics.resources.requests.memory != 0.0
    ensures r.Ok? ==>
      var pod := s.podMetrics.resources;
      && Abs(r.value.0 - pod.limits.cpu / pod.requests.cpu) <= 0.5 / Unit(8)
      && Abs(r.value.1 - pod.limits.memory / pod.requests.memory) <= 0.5 / Unit(8)
  {
    var pod := s.podMetrics.resources;
    if pod.requests.cpu == 0.0 then Err(CpuRequestsZero)
    else if pod.requests.memory == 0.0 then Err(MemoryRequestsZero)
    else
      RoundHalfUpBounds(pod.limits.cpu / pod.requests.cpu, 8);
      RoundHalfUpBounds(pod.limits.memory / pod.requests.memory, 8);
      Ok((HalfUp8(pod.limits.cpu, pod.requests.cpu), HalfUp8(pod.limits.memory, pod.requests.memory)))
  }

  /** A decision with its description set to the action that produced it. */
  function Described(r: Result<ScalingDecision, Error>, action: Action): (r': Result<ScalingDecision, Error>)
    ensures r'.Ok? <==> r.Ok?
    ensures r.Err? ==> r' == r
    ensures r.Ok? ==> r'.value.replicas == r.value.replicas && r'.value.containerResources == r.value.containerResources
    ensures r'.Ok? ==> r'.value.description == action
  {
    if r.Ok? then Ok(r.value.(description := action)) else r
  }

  /** What the switch of `convertAction` runs for one of the four algorithms. */
  function Dispatch(action: Action, s: State, cpu: real, memory: real, hybridInverse: Algorithm): Result<ScalingDecision, Error>
    requires action == ActionVertical || action == ActionHybrid ==> LimitsDefined(s)
  {
    if action == ActionHorizontal then Horizontal(s)
    else if action == ActionVertical then VerticalDecision(s, Some(cpu), Some(memory))
    else if action == ActionHybrid then Hybrid(s, Some(cpu), Some(memory))
    else hybridInverse(s, Some(cpu), Some(memory))
  }

  /**
    `convertAction`, on its evidently intended error path. The ratios are
    computed first, so zero pod requests fail for every action. `NONE`
    keeps the replicas and containers; an unknown action does too, with no
    description. The four algorithms give their result, and a decision
    carries the action's name; an algorithm's error is returned as it is.
   */
  function ConvertAction(action: Action, s: State, hybridInverse: Algorithm): (r: Result<ScalingDecision, Error>)
    requires action == ActionVertical || action == ActionHybrid ==> LimitsDefined(s)
    ensures GetLimitsToRequestsRatio(s).Err? ==> r == Err(GetLimitsToRequestsRatio(s).error)
    ensures GetLimitsToRequestsRatio(s).Ok? && action == ActionNone
            ==> r == Ok(ScalingDecision(s.replicas, s.containerResources, ActionNone))
    ensures GetLimitsToRequestsRatio(s).Ok? && action !in AllActions
            ==> r == Ok(ScalingDecision(s.replicas, s.containerResources, ""))
    ensures r.Ok? && action in AllActions ==> r.value.description == action
    ensures GetLimitsToRequestsRatio(s).Ok? && action == ActionHorizontal
            ==> r == Described(Horizontal(s), action)
    ensures GetLimitsToRequestsRatio(s).Ok? && action == ActionVertical
            ==> var ratios := GetLimitsToRequestsRatio(s).value;
                r == Described(VerticalDecision(s, Some(ratios.0), Some(ratios.1)), action)
    ensures GetLimitsToRequestsRatio(s).Ok? && action == ActionHybrid
            ==> var ratios := GetLimitsToRequestsRatio(s).value;
                r == Described(Hybrid(s, Some(ratios.0), Some(ratios.1)), action)
    ensures GetLimitsToRequestsRatio(s).Ok? && action == ActionHybridInverse
            ==> var ratios := GetLimitsToRequestsRatio(s).value;
                r == Described(hybridInverse(s, Some(ratios.0), Some(ratios.1)), action)
  {
    var ratios :- GetLimitsToRequestsRatio(s);
    if action == ActionNone then Ok(ScalingDecision(s.replicas, s.containerResources, ActionNone))
    else if action !in AllActions then Ok(ScalingDecision(s.replicas, s.containerResources, ""))
    else Described(Dispatch(action, s, ratios.0, ratios.1, hybridInverse), action)
  }

  /** `NONE` decides what `NoOp` decides, apart from the description. */
  lemma ConvertActionNoneIsNoOp<L>(s: State, hybridInverse: Algorithm, learningState: L)
    requires GetLimitsToRequestsRatio(s).Ok?
    ensures ConvertAction(ActionNone, s, hybridInverse).Ok?
    ensures ConvertAction(ActionNone, s, hybridInverse).value.(description := "")
            == NoOpMakeDecision(s, learningState).value.0
  {
  }

  /** `HORIZONAL` keeps the containers and, with ordered bounds, keeps the replicas within them. */
  lemma ConvertActionHorizontalBounds(s: State, hybridInverse: Algorithm)
    requires ConvertAction(ActionHorizontal, s, hybridInverse).Ok?
    requires s.constraints.minReplicas <= s.constraints.maxReplicas
    ensures var d := ConvertAction(ActionHorizontal, s, hybridInverse).value;
      && s.constraints.minReplicas <= d.replicas <= s.constraints.maxReplicas
      && d.containerResources == s.containerResources
      && d.description == ActionHorizontal
  {
    assert Horizontal(s).Ok?;
  }

  /** `VERTICAL` keeps the replica count and the container names. */
  lemma ConvertActionVerticalKeepsShape(s: State, hybridInverse: Algorithm)
    requires LimitsDefined(s)
    requires ConvertAction(ActionVertical, s, hybridInverse).Ok?
    ensures var d := ConvertAction(ActionVertical, s, hybridInverse).value;
      d.replicas == s.replicas && d.containerResources.Keys == s.containerResources.Keys
  {
    var ratios := GetLimitsToRequestsRatio(s).value;
    assert VerticalDecision(s, Some(ratios.0), Some(ratios.1)).Ok?;
  }

  // ---------------------------------------------------------------------
  // convertAction as written

  /** What a call can end in: a result, or a panic on a nil decision. */
  datatype Outcome = Returned(result: Result<ScalingDecision, Error>) | NilDereference

  /**
    `convertAction` as the source writes it: each algorithm returns a nil
    decision together with its error, and the description is then set on
    that nil decision.
   */
  function ConvertActionAsWritten(action: Action, s: State, hybridInverse: Algorithm): (o: Outcome)
    requires action == ActionVertical || action == ActionHybrid ==> LimitsDefined(s)
    ensures o.Returned? ==> o.result == ConvertAction(action, s, hybridInverse)
    ensures o.NilDereference? <==> ConvertAction(action, s, hybridInverse).Err? && GetLimitsToRequestsRatio(s).Ok?
  {
    match GetLimitsToRequestsRatio(s)
    case Err(e) => Returned(Err(e))
    case Ok(ratios) =>
      if action == ActionNone then Returned(Ok(ScalingDecision(s.replicas, s.containerResources, ActionNone)))
      else if action !in AllActions then Returned(Ok(ScalingDecision(s.replicas, s.containerResources, "")))
      else
        var result := Dispatch(action, s, ratios.0, ratios.1, hybridInverse);
        if result.Err? then NilDereference else Returned(Ok(result.value.(description := action)))
  }

  /** A workload with no replicas and non-zero requests crashes the agent on `HORIZONAL`. */
  lemma ConvertActionAsWrittenPanics(s: State, hybridInverse: Algorithm)
    requires s.replicas == 0
    requires s.podMetrics.resources.requests == ResourcesList(1.0, 1.0)
    ensures ConvertActionAsWritten(ActionHorizontal, s, hybridInverse) == NilDereference
    ensures ConvertAction(ActionHorizontal, s, hybridInverse) == Err(ReplicasZero)
  {
  }

  // ---------------------------------------------------------------------
  // Action selection and MakeDecision

  /** `iAmGreedy`: greedy unless the draw from [0, 100) falls below `epsilon` hundredths. */
  function IAmGreedy(epsilon: real, draw: nat): (greedy: bool)
    ensures epsilon <= 0.0 ==> greedy
    ensures epsilon > 1.0 && draw < 100 ==> !greedy
  {
    draw as real >= epsilon * 100.0
  }

  /** `getRandomActionFrom`: the action at the drawn index; there is none to pick from an empty list. */
  function GetRandomActionFrom(actions: seq<Action>, choose: nat -> nat): (r: Result<Action, Error>)
    requires forall n: nat :: n > 0 ==> choose(n) < n
    ensures r.Err? <==> actions == []
    ensures r.Err? ==> r.error == NoActionToChoose
    ensures r.Ok? ==> r.value in actions
  {
    if actions == [] then Err(NoActionToChoose) else Ok(actions[choose(|actions|)])
  }

  /**
    The actions to pick from: the greedy ones when greedy, every possible one
    otherwise. A failure to read the greedy ones is wrapped as
    `GreedyActionsFailed`.
   */
  function Candidates(epsilon: real, possibleActions: seq<Action>, name: string, blob: Blob, draw: nat)
    : (r: Result<seq<Action>, Error>)
    ensures IAmGreedy(epsilon, draw) && GetGreedyActions(possibleActions, name, blob).Ok?
            ==> r == GetGreedyActions(possibleActions, name, blob)
    ensures IAmGreedy(epsilon, draw) && GetGreedyActions(possibleActions, name, blob).Err?
            ==> r == Err(GreedyActionsFailed(GetGreedyActions(possibleActions, name, blob).error))
    ensures !IAmGreedy(epsilon, draw) ==> r == Ok(possibleActions)
    ensures r.Ok? ==> forall a <- r.value :: a in possibleActions
  {
    if IAmGreedy(epsilon, draw) then
      match GetGreedyActions(possibleActions, name, blob)
      case Ok(greedy) => Ok(greedy)
      case Err(e) => Err(GreedyActionsFailed(e))
    else Ok(possibleActions)
  }

  /** `a` may be picked: it is a possible action, and a greedy one when the draw says greedy. */
  predicate Eligible(epsilon: real, possibleActions: seq<Action>, name: string, blob: Blob, draw: nat, a: Action) {
    && a in possibleActions
    && (IAmGreedy(epsilon, draw) ==>
          GetGreedyActions(possibleActions, name, blob).Ok? && a in GetGreedyActions(possibleActions, name, blob).value)
  }

  /**
    The action `MakeDecision` picks for a converted state named `name`:
    always an eligible one, and one whenever there is something to pick from.
   */
  function PickAction(epsilon: real, possibleActions: seq<Action>, name: string, blob: Blob, draw: nat, choose: nat -> nat)
    : (r: Result<Action, Error>)
    requires forall n: nat :: n > 0 ==> choose(n) < n
    ensures r.Ok? ==> Eligible(epsilon, possibleActions, name, blob, draw, r.value)
    ensures !IAmGreedy(epsilon, draw) ==> (r.Ok? <==> possibleActions != [])
    ensures IAmGreedy(epsilon, draw) && Decode(blob).Ok? && !Visited(Decode(blob).value.table, name)
            ==> (r.Ok? <==> possibleActions != [])
    ensures IAmGreedy(epsilon, draw) && Decode(blob).Err? ==> r == Err(GreedyActionsFailed(DecodeFailed))
    ensures r.Err? ==> r.error == NoActionToChoose || r.error == GreedyActionsFailed(DecodeFailed)
  {
    var candidates :- Candidates(epsilon, possibleActions, name, blob, draw);
    GetRandomActionFrom(candidates, choose)
  }

  /**
    One decision. A decision that succeeds is the conversion of an eligible
    action, paired with the learning state updated for that action. Every
    failure on the way is returned as it is: the state's, the pick's, the
    action's and the update's.
   */
  function Decide(
    epsilon: real, possibleActions: seq<Action>, s: State, blob: Blob, draw: nat, choose: nat -> nat,
    update: Updater, hybridInverse: Algorithm)
    : (r: Result<(ScalingDecision, Blob), Error>)
    requires LimitsDefined(s)
    requires forall n: nat :: n > 0 ==> choose(n) < n
    ensures ConvertState(s).Err? ==> r == Err(ConvertState(s).error)
    ensures r.Ok? ==>
      && ConvertState(s).Ok?
      && exists a: Action ::
           && Eligible(epsilon, possibleActions, ConvertState(s).value.name, blob, draw, a)
           && ConvertAction(a, s, hybridInverse).Ok?
           && update(ConvertState(s).value, a, blob).Ok?
           && r.value == (ConvertAction(a, s, hybridInverse).value, update(ConvertState(s).value, a, blob).value)
    ensures ConvertState(s).Ok? && !IAmGreedy(epsilon, draw) && possibleActions == [] ==> r == Err(NoActionToChoose)
    ensures ConvertState(s).Ok? && IAmGreedy(epsilon, draw) && Decode(blob).Err?
            ==> r == Err(GreedyActionsFailed(DecodeFailed))
    ensures ConvertState(s).Ok? ==>
      var q := ConvertState(s).value;
      var pick := PickAction(epsilon, possibleActions, q.name, blob, draw, choose);
      && (pick.Err? ==> r == Err(pick.error))
      && (pick.Ok? ==>
            && (r.Ok? <==> ConvertAction(pick.value, s, hybridInverse).Ok? && update(q, pick.value, blob).Ok?)
            && (ConvertAction(pick.value, s, hybridInverse).Err? ==> r == Err(ConvertAction(pick.value, s, hybridInverse).error))
            && (ConvertAction(pick.value, s, hybridInverse).Ok? && update(q, pick.value, blob).Err?
                ==> r == Err(update(q, pick.value, blob).error)))
  {
    var q :- ConvertState(s);
    var action :- PickAction(epsilon, possibleActions, q.name, blob, draw, choose);
    var decision :- ConvertAction(action, s, hybridInverse);
    var newBlob :- update(q, action, blob);
    Ok((decision, newBlob))
  }

  /** The agent: the cost and learning parameters, the exploration rate and the actions it may take. */
  class Agent {
    const costs: CostParameters
    const alpha: real
    const gamma: real
    const epsilon: real
    const possibleActions: seq<Action>

    /** `NewQAgent`: never explores, and may take every action. */
    constructor (cpuCost: real, memoryCost: real, underprovisioningPenalty: real, alpha: real, gamma: real)
      ensures costs == CostParameters(cpuCost, memoryCost, underprovisioningPenalty)
      ensures this.alpha == alpha && this.gamma == gamma
      ensures epsilon == 0.0 && possibleActions == AllActions
    {
      costs := CostParameters(cpuCost, memoryCost, underprovisioningPenalty);
      this.alpha := alpha;
      this.gamma := gamma;
      epsilon := 0.0;
      possibleActions := AllActions;
    }

    /**
      `MakeDecision`. `draw` and `choose` stand for the random numbers the
      source draws.
     */
    method MakeDecision(s: State, blob: Blob, draw: nat, choose: nat -> nat, update: Updater, hybridInverse: Algorithm)
      returns (r: Result<(ScalingDecision, Blob), Error>)
      requires LimitsDefined(s)
      requires draw < 100
      requires forall n: nat :: n > 0 ==> choose(n) < n
      ensures r == Decide(epsilon, possibleActions, s, blob, draw, choose, update, hybridInverse)
    {
      var q := ConvertState(s);
      if q.Err? {
        return Err(q.error);
      }
      var greedy := IAmGreedy(epsilon, draw);
      var candidates: seq<Action> := possibleActions;
      if greedy {
        var greedyActions := GetGreedyActions(possibleActions, q.value.name, blob);
        if greedyActions.Err? {
          return Err(GreedyActionsFailed(greedyActions.error));
        }
        candidates := greedyActions.value;
      }
      var action := GetRandomActionFrom(candidates, choose);
      if action.Err? {
        return Err(action.error);
      }
      var decision := ConvertAction(action.value, s, hybridInverse);
      if decision.Err? {
        return Err(decision.error);
      }
      var newBlob := update(q.value, action.value, blob);
      if newBlob.Err? {
        return Err(newBlob.error);
      }
      return Ok((decision.value, newBlob.value));
    }
  }

  /**
    A fresh agent (no exploration, no learning state yet) takes the drawn
    one of all five actions in every state that converts.
   */
  lemma FreshAgentDecision(s: State, draw: nat, choose: nat -> nat, update: Updater, hybridInverse: Algorithm)
    requires LimitsDefined(s)
    requires forall n: nat :: n > 0 ==> choose(n) < n
    requires ConvertState(s).Ok?
    ensures
      var a, q := AllActions[choose(5)], ConvertState(s).value;
      var r := Decide(0.0, AllActions, s, Empty, draw, choose, update, hybridInverse);
      && (r.Ok? <==> ConvertAction(a, s, hybridInverse).Ok? && update(q, a, Empty).Ok?)
      && (r.Ok? ==> r.value == (ConvertAction(a, s, hybridInverse).value, update(q, a, Empty).value))
  {
    var name := ConvertState(s).value.name;
    assert GetGreedyActions(AllActions, name, Empty) == Ok(AllActions);
  }
}
