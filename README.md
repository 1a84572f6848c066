# hybrid-scaler decision engine in Dafny

This project models the decision engine of hybrid-scaler. hybrid-scaler is a
Kubernetes controller that scales a workload horizontally (the replica
count), vertically (the containers' cpu and memory requests and limits) or
both. Each reconcile step runs in four stages:

- The controller assembles a `State` from the scaler's status and spec.
- The strategy returns a `ScalingDecision`. The strategy is either the
  no-op strategy or a Q-learning agent.
- The agent quantizes the state into a named bucket and picks one of five
  actions, greedily from its learning state or at random.
- The agent turns that action into a decision with one of the scaling
  algorithms:
  - `Horizontal` works like an HPA: the ceiling of replicas times the
    utilisation ratio, clamped to the replica bounds.
  - `Vertical` sets pod-level targets and rescales every container by
    common factors, so each container keeps its share.
  - `Hybrid` moves the replicas half way toward the horizontal
    recommendation and then runs `Vertical` for the new count.

Decimals (`inf.Dec`) are modelled as `real` with explicit rounding.
`QuoRound(x, y, scale, mode)` is the quotient rounded to `scale` places in
the given mode (module `Decimal`). Replica counts are 32-bit (`Int32`).

Modules:

| module | file |
|---|---|
| `Wrappers` | `Option`, `Result` |
| `Errors` | the error cases |
| `Decimal` | `inf.Dec` |
| `Strategy` | `internal/strategy` |
| `ScalingCommon` | `internal/scaling/scaling.go` |
| `HorizontalScaling` | `internal/scaling/horizontal.go` |
| `VerticalScaling` | `internal/scaling/vertical.go` |
| `HybridScaling` | `internal/scaling/hybrid.go` |
| `QState` | the state conversion in `q-agent.go` |
| `QLearning` | the Q-table helpers that `reinforcement_test.go` specifies |
| `QAgent` | `convertAction` and `MakeDecision` in `q-agent.go` |
| `Controller` | `internal/controller/hybridscaler_controller.go` |

Where the code and its comments or documentation disagree, the model follows the code:

- The comment at q-agent.go:33-34 names the second and third fields of a
  state name as the cpu and memory requests. The code at q-agent.go:162-172
  puts the pod limits there, as a share of the allowed maximum, and so
  does the model.
- `quantizePercentage` does not cap its result. `quantizePercentage(101, 20)`
  is 100 only because 100 is the largest multiple of 20 not above 101.
  The cap at 100 is applied by `convertState` (q-agent.go:153-170).
- The algorithms call `limitValue`, while scaling.go:30-40 defines the
  function as `limitScalingValue`. The model has one `LimitValue`.
- The resource values the `Vertical` and `Hybrid` tests expect do not
  match the code. The tests assume headroom of about 10% that
  vertical.go:35-54 does not add. Examples:
  - "scale both up" (scaling_test.go:392-457) expects memory requests
    of 220; the code computes 100 times a ratio of 2, which is 200.
  - "no scaling" (scaling_test.go:326-391) expects 110; the code gives
    about 100.
  - Hybrid's "all up" (scaling_test.go:89-156) expects 165; the code
    gives 150.
  The model follows the code. For the Hybrid tests it proves only the
  replica counts (`HybridAllUp`, `HybridAllDown`), which do agree with
  the code.

## Model

| member | source | states |
|---|---|---|
| Strategy.NoOpMakeDecision | internal/strategy/noop.go:5-10 | always succeeds; keeps the replicas and containers and hands back the learning state unchanged |
| ScalingCommon.CurrentToTargetUtilizationRatio | internal/scaling/scaling.go:11-27 | fails exactly on zero requests (checked first), then exactly on a zero target; succeeds otherwise |
| ScalingCommon.RatioApproximatesQuotient | internal/scaling/scaling.go:23-24 | with a positive target, the ratio is usage/requests/target to within the two half-unit roundings in the eighth place |
| ScalingCommon.RatioBelowTarget | internal/scaling/scaling_test.go:630-636 | usage 50 of requests 100 at target 0.8 gives 0.625 |
| ScalingCommon.RatioAboveTarget | internal/scaling/scaling_test.go:638-644 | usage 300 of requests 200 at target 0.5 gives 3 |
| ScalingCommon.LimitValue | internal/scaling/scaling.go:30-40 | result is the minimum below it, the maximum above it, the desired value otherwise (unchanged iff within bounds); within [min, max] when min <= max |
| ScalingCommon.LimitValueIdempotent | internal/scaling/scaling.go:30-40 | clamping twice is clamping once |
| ScalingCommon.LimitValueMonotone | internal/scaling/scaling.go:30-40 | clamping preserves order |
| ScalingCommon.ClampedReplicas | internal/scaling/horizontal.go:21-28 | the truncated clamped count lies within ordered bounds and equals the clamp for a whole desired count |
| ScalingCommon.DecToInt64 | internal/scaling/scaling.go:43-49 | truncation toward zero: the magnitude is at most the value's and less than one below it, with the same sign |
| ScalingCommon.DecToInt64Exact | internal/scaling/scaling.go:43-49 | integers are unchanged |
| ScalingCommon.DecToInt64Examples | internal/scaling/scaling_test.go:1067-1136 | the test table: 0, ±integers, 0.33→0, -0.26→0, 24.6→24, -5.34→-5 |
| HorizontalScaling.CalculateDesiredReplicas | internal/scaling/horizontal.go:33-66 | error on zero replicas, then on the cpu ratio, then on the memory ratio (wrapped per resource); succeeds otherwise |
| HorizontalScaling.CalculateDesiredReplicasValue | internal/scaling/horizontal.go:49-63 | the value is the larger of the two per-resource counts |
| HorizontalScaling.ReplicasFor | internal/scaling/horizontal.go:49-50 | the ceiling of replicas times ratio: a whole number at least the product and less than one above it |
| HorizontalScaling.DesiredFromRatiosIsCeiling | internal/scaling/horizontal.go:49-63 | the result is the least integer covering both products |
| HorizontalScaling.DesiredReplicasWhole | internal/scaling/horizontal.go:49-63 | the recommendation is a whole number |
| HorizontalScaling.Horizontal | internal/scaling/horizontal.go:15-31 | fails exactly when the calculation fails, with its error; otherwise keeps the containers and decides the clamped recommendation, within ordered replica bounds |
| HorizontalScaling.HorizontalAtTarget | internal/scaling/scaling_test.go:668-697 | at ratio 1 for both resources and replicas within bounds, the count is unchanged |
| HorizontalScaling.ScaleDownBasedOnMemory | internal/scaling/scaling_test.go:990-1013 | six replicas at 25%/33% usage and target 0.5 go to 4 |
| HorizontalScaling.QuarterAtHalfTarget | internal/scaling/scaling_test.go:990-1013 | usage 25 of requests 100 at target 0.5 gives ratio 0.5 |
| HorizontalScaling.ThirtyThreeAtHalfTarget | internal/scaling/scaling_test.go:990-1013 | usage 33 of requests 100 at target 0.5 gives ratio 0.66 |
| HorizontalScaling.SixReplicasAtRatios | internal/scaling/scaling_test.go:990-1013 | six replicas at ratios 0.5 and 0.66 need 4 |
| HorizontalScaling.ScaleUpToMax | internal/scaling/scaling_test.go:782-811 | three replicas at ratio 2 are capped at the maximum of 5 |
| VerticalScaling.PlanWithinBounds | internal/scaling/vertical.go:35-54 | pod-level requests and limits stay within [min, max]; requests are the scaled requests and limits are requests times the ratio when those are within bounds |
| VerticalScaling.PlanMode | internal/scaling/vertical.go:56-73 | rounding is Down iff the limits hit the maximum, Ceil iff the requests hit the minimum and the limits did not, half-up otherwise |
| VerticalScaling.Plans | internal/scaling/vertical.go:30-54 | fails exactly when a ratio fails, cpu's error first |
| VerticalScaling.FactorsQuantity | internal/scaling/vertical.go:79-86 | each factor is the desired pod quantity over the current one, rounded to eight places in its resource's mode |
| VerticalScaling.FactorNearQuotient | internal/scaling/vertical.go:79-86 | each rounded factor is within one eighth-place unit of the exact quotient |
| VerticalScaling.VerticalDecision | internal/scaling/vertical.go:11-104 | error iff a ratio argument is absent; then error on zero replicas; then the ratio errors; when it succeeds, replicas and container names are kept and every container is rescaled by the common factors |
| VerticalScaling.Vertical | internal/scaling/vertical.go:75-103 | the loop over the containers builds exactly the decision `VerticalDecision` describes |
| VerticalScaling.RescaleAllTotal | internal/scaling/vertical.go:75-98 | rescaling multiplies every column total by its factor |
| VerticalScaling.VerticalTotalNearTarget | internal/scaling/vertical.go:10 | when the pod is the sum of its containers, the new containers' total of each quantity is within one eighth-place unit per pod unit of the pod-level target |
| VerticalScaling.VerticalLimitsWithinMax | internal/scaling/vertical.go:63-65 | when the limits were clamped to the maximum, the rounded-down containers' limits total at most that maximum |
| VerticalScaling.VerticalRequestsAtLeastMin | internal/scaling/vertical.go:59-61 | when the requests were clamped to the minimum and the limits were not clamped to the maximum, the rounded-up requests total at least that minimum |
| HybridScaling.HalfwayReplicasBetween | internal/scaling/hybrid.go:17-21 | the half-way count is whole and lies between the current and recommended counts; it stays put iff they are equal; it moves at least half the distance and less than half plus one |
| HybridScaling.Hybrid | internal/scaling/hybrid.go:11-44 | horizontal errors propagate; fails with ScaleToZeroReplicas iff the clamped half-way count is 0; otherwise decides that count (within ordered bounds) and keeps the container names |
| HybridScaling.HybridIsVerticalAtNewCount | internal/scaling/hybrid.go:26-43 | the decision is `Vertical` on the state at the new count, with usage scaled by current/new |
| HybridScaling.HybridAtHorizontalTarget | internal/scaling/hybrid.go:11-44 | when the horizontal recommendation is the current count, Hybrid is Vertical |
| HybridScaling.HybridSucceeds | internal/scaling/hybrid.go:26-43 | with a successful horizontal calculation, a non-zero new count and both ratios given, Hybrid succeeds |
| HybridScaling.HybridAllUp | internal/scaling/scaling_test.go:89-156 | on the "all up" state the horizontal recommendation is 3 and Hybrid succeeds with 2 replicas |
| HybridScaling.ThirdOfTarget | internal/scaling/scaling_test.go:225-305 | usage 40 of requests 200 at target 0.6 gives ratio 0.33333333 |
| HybridScaling.NineAtAThird | internal/scaling/scaling_test.go:225-305 | nine replicas at ratio 0.33333333 need 3 |
| HybridScaling.HybridAllDown | internal/scaling/scaling_test.go:225-305 | on the "all down" state the horizontal recommendation is 3 and Hybrid succeeds with 6 replicas |
| QState.QuantizePercentageBounds | internal/reinforcement/q-agent.go:244-248 | for a non-negative value, the result is a multiple of the quantum, at most the value and less than one quantum below it |
| QState.QuantizeMultiple | internal/reinforcement/q-agent.go:244-248 | the result is the quantum times the floor of value/quantum |
| QState.QuantizePercentageExamples | internal/reinforcement/reinforcement_test.go:276-309 | 14→0, 29→20, 101→100 with quantum 20; no cap inside quantizePercentage itself |
| QState.BucketBounds | internal/reinforcement/q-agent.go:152-170 | a non-negative ratio maps to one of 0, 25, 50, 75, 100; from ratio 1 upward it is 100; below that it is the quarter its percentage lies in |
| QState.IntToString | internal/reinforcement/q-agent.go:172 | `%d` formatting: a minus sign exactly for negative numbers, then digits only, with no leading zero except for 0 itself |
| QState.IntOfIntToString | internal/reinforcement/q-agent.go:172 | `%d` formatting of an integer reads back to the integer |
| QState.FieldsOfJoin | internal/reinforcement/q-agent.go:172 | splitting `_`-joined fields without `_` gives the fields back |
| QState.ParseStateNameRoundTrip | internal/reinforcement/q-agent.go:172 | a state name parses back to the numbers it was built from |
| QState.StateNameInjective | internal/reinforcement/q-agent.go:172 | different numbers give different state names |
| QState.ConvertState | internal/reinforcement/q-agent.go:106-184 | the six zero checks fail in order with their own errors; the state converts iff none applies; the converted state records replicas, requests, usage shares and targets; its name is exactly the `StateName` of replicas, then the limit buckets, then the utilisation buckets |
| QState.ConvertStateBuckets | internal/reinforcement/q-agent.go:145-172 | with positive divisors and non-negative quantities, the name has five fields, the first the replica count, the others buckets |
| QState.ConvertStateExample | internal/reinforcement/reinforcement_test.go:311-374 | the test's state converts to `4_100_75_100_75` with usage shares 6 and 0.72 |
| QLearning.RowMin | internal/reinforcement/reinforcement_test.go:136-158 | the least value of a non-empty row: it occurs in the row and no value is smaller |
| QLearning.BestActionValueInState | internal/reinforcement/reinforcement_test.go:110-158 | the initial value for an unknown state or one with no actions; otherwise a value of the row that no other value undercuts |
| QLearning.BestActionValueExamples | internal/reinforcement/reinforcement_test.go:110-158 | the test table: unknown state, empty row, cheapest action |
| QLearning.GreedyAmong | internal/reinforcement/reinforcement_test.go:181-219 | keeps exactly the offered actions valued at the best value, in their order |
| QLearning.Decode | internal/reinforcement/reinforcement_test.go:27-70 | an empty learning state decodes to an empty table; a malformed one fails with DecodeFailed |
| QLearning.DecodeEncode | internal/reinforcement/reinforcement_test.go:27-70 | decoding an encoded learning state gives the table back (with the byte format abstracted, this holds by construction) |
| QLearning.GetGreedyActions | internal/reinforcement/reinforcement_test.go:160-219 | fails iff decoding fails; for an unseen state returns every action; otherwise returns exactly the offered actions that are cheapest in the row, in the offered order |
| QLearning.GreedyActionsNonEmpty | internal/reinforcement/reinforcement_test.go:181-219 | when the row only holds offered actions, some action is greedy |
| QLearning.GreedyActionsUnseenExample | internal/reinforcement/reinforcement_test.go:172-180 | an unseen state yields all actions |
| QLearning.GreedyActionsTieExample | internal/reinforcement/reinforcement_test.go:181-219 | the three cheapest tied actions are returned, in order |
| QLearning.InitialRow | internal/reinforcement/reinforcement_test.go:72-108 | the row holds exactly the given actions, each at the initial value |
| QLearning.QTable.InitializeRow | internal/reinforcement/reinforcement_test.go:72-108 | the only change to the table is that the state's row becomes the initial row |
| QLearning.InitialRowAllGreedy | internal/reinforcement/reinforcement_test.go:72-108 | right after initialisation every action is greedy |
| QLearning.InitializeRowExample | internal/reinforcement/reinforcement_test.go:72-108 | `state1` stays empty and `state2` gets every action at the initial value |
| QLearning.EvaluateCost | internal/reinforcement/reinforcement_test.go:221-274 | fails on a zero cpu target, then on a zero memory target, and succeeds otherwise |
| QLearning.EvaluateCostWithinTargets | internal/reinforcement/reinforcement_test.go:248-262 | below both targets the cost is only the resource costs times the replicas |
| QLearning.PenaltyPositive | internal/reinforcement/reinforcement_test.go:234-247 | the penalty is positive above the target with positive requests, cost and penalty |
| QLearning.PenaltyNonNegative | internal/reinforcement/reinforcement_test.go:221-274 | with a positive target and non-negative requests, price and penalty, a penalty is never negative |
| QLearning.EvaluateCostMonotoneInReplicas | internal/reinforcement/reinforcement_test.go:221-274 | with non-negative parameters, more replicas never cost less |
| QLearning.EvaluateCostExamples | internal/reinforcement/reinforcement_test.go:221-274 | the two test costs, 0.423 and 0.303 |
| QAgent.GetLimitsToRequestsRatio | internal/reinforcement/q-agent.go:250-265 | error on zero cpu requests, then on zero memory requests; otherwise each ratio is limits/requests to within half a unit in the eighth place |
| QAgent.ConvertAction | internal/reinforcement/q-agent.go:186-219 | ratio errors come first for every action; NONE keeps replicas and containers and is described "NONE"; an unknown action keeps them undescribed; each algorithm gives its decision, described by the action, or its error |
| QAgent.ConvertActionNoneIsNoOp | internal/reinforcement/q-agent.go:198-199 | NONE decides what the no-op strategy decides, apart from the description |
| QAgent.ConvertActionHorizontalBounds | internal/reinforcement/q-agent.go:201-202 | HORIZONAL keeps the containers and keeps the replicas within ordered bounds |
| QAgent.ConvertActionVerticalKeepsShape | internal/reinforcement/q-agent.go:204-205 | VERTICAL keeps the replicas and the container names |
| QAgent.ConvertActionAsWritten | internal/reinforcement/q-agent.go:186-219 | as written: it panics iff an algorithm fails after the ratios were computed; otherwise it agrees with ConvertAction |
| QAgent.ConvertActionAsWrittenPanics | internal/reinforcement/q-agent.go:201-217 | zero replicas with non-zero requests: as written HORIZONAL dereferences nil; the corrected version returns ReplicasZero |
| QAgent.IAmGreedy | internal/reinforcement/q-agent.go:233-242 | always greedy at epsilon 0; never greedy above epsilon 1 |
| QAgent.GetRandomActionFrom | internal/reinforcement/q-agent.go:221-231 | picks one of the given actions; fails iff there are none |
| QAgent.Candidates | internal/reinforcement/q-agent.go:77-84 | the greedy actions when greedy, all possible actions otherwise; a failure to get the greedy actions is wrapped as GreedyActionsFailed; always a subset of the possible actions |
| QAgent.PickAction | internal/reinforcement/q-agent.go:72-89 | the action is eligible: one of the possible actions, and one of the greedy ones when greedy; exploring it fails iff there is nothing to pick; an unreadable learning state fails with GreedyActionsFailed(DecodeFailed); no other failure occurs |
| QAgent.Decide | internal/reinforcement/q-agent.go:66-104 | a successful decision is the converted decision of some eligible action, paired with the learning state updated for that same action; no actions to explore gives NoActionToChoose; an unreadable learning state when greedy gives GreedyActionsFailed(DecodeFailed); the state's, the pick's, the action's and the update's errors are returned unchanged, and the decision succeeds iff the picked action converts and updates |
| QAgent.Agent.constructor | internal/reinforcement/q-agent.go:53-64 | epsilon 0 and all five actions possible, with the given costs |
| QAgent.Agent.MakeDecision | internal/reinforcement/q-agent.go:66-104 | the method, which returns at the first failure, computes `Decide` on the agent's epsilon and actions |
| QAgent.FreshAgentDecision | internal/reinforcement/q-agent.go:53-104 | a fresh agent with no learning state succeeds iff the drawn one of all five actions converts and updates, and then decides that action |
| Controller.Deref | internal/controller/hybridscaler_controller.go:345-346 | the pointed-to value, or the default for nil |
| Controller.ToContainerResources | internal/controller/hybridscaler_controller.go:302-319 | one entry per container of the status, each holding its cpu and memory requests and limits |
| Controller.Percent | internal/controller/hybridscaler_controller.go:369-372 | the fraction times 100 is the percentage |
| Controller.PrepareState | internal/controller/hybridscaler_controller.go:294-383 | a missing cpu target, then a missing memory target, is an error and nothing else is; otherwise: replicas copied, containers converted, pod quantities the sums of the containers', usage and constraints copied (absent bounds 0), targets p/100 |
| Controller.CollectContainers | internal/controller/hybridscaler_controller.go:300-325 | the loop converts every container and the accumulated pod quantities are the totals over all containers, in whatever order the map is visited |
| Controller.Add | internal/controller/hybridscaler_controller.go:321-324 | each pod quantity grows by the container's |
| Controller.TotalInsert | internal/controller/hybridscaler_controller.go:319-324 | adding a new container adds its quantity to the total |
| Controller.AccumulateStep | internal/controller/hybridscaler_controller.go:319-324 | one loop step keeps the pod quantities equal to the totals over the containers seen so far |
| Controller.PrepareStateExample | internal/controller/controller_test.go:191-205 | 1 + 0.1 cpu requested gives a pod total of 1.1, and so on for each quantity; 50 and 80 percent become 0.5 and 0.8 |
| Controller.PrepareStateTestCase | internal/controller/controller_test.go:84-205 | `PrepareState` on the test's status and spec succeeds with exactly the expected state: 3 replicas, both containers, usage 100m and 1G, constraints 1, 5, 100m/100M, 4/8G, 2 and 2, pod totals 1.1, 5.25G, 3 and 8G, targets 0.5 and 0.8 |
| Controller.GetContainerResources | internal/controller/hybridscaler_controller.go:277-292 | one entry per container name, holding the requests and limits of the last container of that name |
| Controller.Names | internal/controller/hybridscaler_controller.go:280-289 | the names of the listed containers, and only those |
| Controller.GetContainerResourcesExample | internal/controller/controller_test.go:15-82 | two distinct containers are recorded as they are |
| Controller.InterpretResourceScaling | internal/controller/hybridscaler_controller.go:385-404 | exactly the decision's container names, each with cpu and memory requests and limits |
| Controller.InterpretRoundTrip | internal/controller/hybridscaler_controller.go:385-404 | reading the written lists back gives the decision's containers |

## Left out

- Kubernetes and Prometheus I/O, logging, requeueing, and the reconcile loop in the controller's lines 73-275. None of these is decision logic.
- Averaging usage as floats and `float64ToDec`. Floating point is not modelled.
- `MakeDecision`'s randomness. The draw in [0, 100) and the index drawn below a length are parameters.
- `rand.Int`'s own failure is not modelled.
- `getRandomActionFrom` on an empty list: the source panics, and the model returns `NoActionToChoose` instead.
- The Bellman update. q-learning.go's `Update` is an unfinished stub, so the update is a parameter of `MakeDecision`.
- `HybridInverse`: the body of `scaling.HybridInverse`, which q-agent.go:211 calls, is not modelled. It is a parameter of `ConvertAction`, and the only thing proved about that action is that its result is passed through, described `HYBRID_INVERSE`.
- `QLearning.Decode`/`Encode`: the byte format of the learning state. It is abstracted to `Empty | Encoded(table) | Malformed`. Malformed bytes fail with `DecodeFailed`.
- q-learning.go holds only stubs. bestActionValueInState, GetGreedyActions, initializeRow and evaluateCost are modelled from the behaviour their tests in reinforcement_test.go pin down.
- `QLearning.InitializeRowExample`: initialises the row with all five actions of `allActions`. The test at reinforcement_test.go:72-108 passes `allActions` but expects only four, without `HYBRID_INVERSE`.
- `QLearning.BestActionValueInState`: a state whose row is empty counts as unseen, as the test "no entries for any actions in this state yet" expects.
- `QLearning.EvaluateCost`: divisions are exact. The cpu target is checked before the memory target.
- `ScalingCommon.DecToInt64`: does not model the float64 round trip or int64 overflow, because both are lossless for the counts the engine produces.
- Quantity formats and Kubernetes resource names beyond `cpu` and `memory`.
- Nil pointers: an absent `MinReplicas`/`MaxReplicas` is modelled, other nil decimals are not.
- `VerticalScaling.VerticalDecision`: requires non-zero pod limits when there are containers (`LimitsDefined`). The source's `QuoRound` panics on the zero divisor.
- `QAgent.ConvertAction`, `QAgent.Decide`, `QAgent.Agent.MakeDecision` and `QAgent.FreshAgentDecision` inherit that precondition, even for a chosen action (`HORIZONAL` or `NONE`) that needs no pod limits in the source.
- `QState.ConvertStateBuckets`: requires positive divisors and non-negative quantities. With negative ones a bucket can be negative.
- `internal/reinforcement/agent.go` is an earlier agent that q-agent.go replaces; it is not part of this model.
- `main.go` and the API deepcopy and registration code hold no decision logic.

## Findings

| source | as written | input that shows it | evidently intended | confidence | as-written member | corrected member |
|---|---|---|---|---|---|---|
| internal/reinforcement/q-agent.go:201-218 | each algorithm returns a nil decision with its error, and line 217 then sets `decision.Description` on that nil decision | action `HORIZONAL` on a state with 0 replicas and cpu and memory requests of 1: `Horizontal` returns `nil, err`, and setting the description dereferences nil | return the algorithm's error | not executed | QAgent.ConvertActionAsWritten, QAgent.ConvertActionAsWrittenPanics | QAgent.ConvertAction |
