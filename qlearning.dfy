/**
  The Q-table helpers whose behaviour the reinforcement tests fix
  (internal/reinforcement/reinforcement_test.go): the best value of a state,
  the greedy actions, the initialisation of a row, the cost of a state and
  the persisted learning state.
 */
module QLearning {
  import opened Wrappers
  import opened Errors
  import opened Strategy
  import opened QState

  /** The estimated cost of each action in one state; lower is better. */
  type QTableRow = map<Action, real>

  /** State name to its row. */
  type QTableRows = map<string, QTableRow>

  /** The value of a state-action pair nothing has been learned about. */
  const InitialValue: real := 0.0

  // ---------------------------------------------------------------------
  // Best value and greedy actions

  /** Among some of the actions of a row, one has a value none of the others undercuts. */
  lemma {:induction false} MinAmong(row: QTableRow, keys: set<Action>) returns (a: Action)
    requires keys != {} && keys <= row.Keys
    ensures a in keys && forall b <- keys :: row[a] <= row[b]
    decreases keys
  {
    var x :| x in keys;
    var rest := keys - {x};
    if rest == {} {
      assert keys == {x};
      a := x;
    } else {
      var m := MinAmong(row, rest);
      a := if row[x] < row[m] then x else m;
      forall b | b in keys ensures row[a] <= row[b] {
        if b != x {
          assert b in rest;
        }
      }
    }
  }

  /** The least value of a row, as a value rather than an action. */
  lemma RowMinValueExists(row: QTableRow)
    requires row != map[]
    ensures exists m :: m in row.Values && forall v <- row.Values :: m <= v
  {
    var some :| some in row;
    var a := MinAmong(row, row.Keys);
    assert row[a] in row.Values;
    forall v | v in row.Values ensures row[a] <= v {
      var b :| b in row && row[b] == v;
    }
  }

  /** The least value of a non-empty row. */
  function RowMin(row: QTableRow): (m: real)
    requires row != map[]
    ensures m in row.Values
    ensures forall a <- row :: m <= row[a]
  {
    RowMinValueExists(row);
    assert forall a <- row :: row[a] in row.Values;
    var m :| m in row.Values && forall v <- row.Values :: m <= v;
    m
  }

  /** The state has been seen and some action has a recorded value there. */
  predicate Visited(table: QTableRows, name: string) {
    name in table && table[name] != map[]
  }

  /**
    `bestActionValueInState`: the least recorded value of the state, or the
    initial value when the state or its row is empty.
   */
  function BestActionValueInState(name: string, table: QTableRows): (v: real)
    ensures !Visited(table, name) ==> v == InitialValue
    ensures Visited(table, name) ==>
      && (exists a <- table[name] :: table[name][a] == v)
      && (forall a <- table[name] :: v <= table[name][a])
  {
    if !Visited(table, name) then InitialValue
    else
      var m := RowMin(table[name]);
      assert exists a <- table[name] :: table[name][a] == m;
      m
  }

  /** `a` lists some of the elements of `b`, in the order of `b`. */
  predicate SubsequenceOf(a: seq<Action>, b: seq<Action>)
    decreases |b|
  {
    if a == [] then true
    else if b == [] then false
    else if a[0] == b[0] then SubsequenceOf(a[1..], b[1..])
    else SubsequenceOf(a, b[1..])
  }

  /** The actions of `actions`, in their order, whose recorded value is at most `best`. */
  function GreedyAmong(actions: seq<Action>, row: QTableRow, best: real): (g: seq<Action>)
    ensures forall a :: a in g <==> a in actions && a in row && row[a] <= best
    ensures SubsequenceOf(g, actions)
  {
    if actions == [] then []
    else
      var rest := GreedyAmong(actions[1..], row, best);
      assert forall a :: a in actions <==> a == actions[0] || a in actions[1..];
      if actions[0] in row && row[actions[0]] <= best then
        assert ([actions[0]] + rest)[1..] == rest;
        [actions[0]] + rest
      else
        SubsequenceSkip(rest, actions);
        rest
  }

  lemma SubsequenceSkip(a: seq<Action>, b: seq<Action>)
    requires b != [] && SubsequenceOf(a, b[1..])
    ensures SubsequenceOf(a, b)
    decreases |b|, 0
  {
    if a != [] && a[0] == b[0] {
      SubsequenceTail(a, b[1..]);
    }
  }

  lemma {:induction false} SubsequenceTail(a: seq<Action>, b: seq<Action>)
    requires a != [] && SubsequenceOf(a, b)
    ensures SubsequenceOf(a[1..], b)
    decreases |b|, 1
  {
    if a[0] != b[0] {
      SubsequenceTail(a, b[1..]);
      SubsequenceSkip(a[1..], b);
    } else if a[1..] != [] {
      SubsequenceSkip(a[1..], b);
    }
  }

  // ---------------------------------------------------------------------
  // The learning state

  /** What the agent persists between two decisions. */
  datatype LearningState = LearningState(table: QTableRows)

  /**
    The persisted form of a learning state: nothing stored yet, a stored
    state, or bytes that do not decode. The byte format is not part of this
    model.
   */
  datatype Blob = Empty | Encoded(learningState: LearningState) | Malformed

  /** `encodeLearningState`. */
  function Encode(ls: LearningState): (b: Blob)
    ensures b.Encoded?
  {
    Encoded(ls)
  }

  /** `decodeToLearningState`: nothing stored decodes to the empty table; malformed bytes fail. */
  function Decode(b: Blob): (r: Result<LearningState, Error>)
    ensures b.Empty? ==> r == Ok(LearningState(map[]))
    ensures r.Err? <==> b.Malformed?
    ensures r.Err? ==> r.error == DecodeFailed
  {
    match b
    case Empty => Ok(LearningState(map[]))
    case Encoded(ls) => Ok(ls)
    case Malformed => Err(DecodeFailed)
  }

  /** Decoding an encoded learning state gives back the same table. */
  lemma DecodeEncode(ls: LearningState)
    ensures Decode(Encode(ls)) == Ok(ls)
  {
  }

  /**
    `GetGreedyActions`: in a state nothing is recorded for, every action;
    otherwise exactly the actions whose recorded value is the least of the
    row, in the order of `actions`.
   */
  function GetGreedyActions(actions: seq<Action>, name: string, blob: Blob): (r: Result<seq<Action>, Error>)
    ensures Decode(blob).Err? <==> r.Err?
    ensures r.Err? ==> r.error == DecodeFailed
    ensures Decode(blob).Ok? && !Visited(Decode(blob).value.table, name) ==> r == Ok(actions)
    ensures Decode(blob).Ok? && Visited(Decode(blob).value.table, name) ==>
      var row := Decode(blob).value.table[name];
      && (forall a :: a in r.value <==> a in actions && a in row && row[a] == RowMin(row))
      && SubsequenceOf(r.value, actions)
  {
    var ls :- Decode(blob);
    if !Visited(ls.table, name) then Ok(actions)
    else Ok(GreedyAmong(actions, ls.table[name], BestActionValueInState(name, ls.table)))
  }

  /** When the row only knows actions on offer, some action is greedy. */
  lemma GreedyActionsNonEmpty(actions: seq<Action>, name: string, blob: Blob)
    requires Decode(blob).Ok? && Visited(Decode(blob).value.table, name)
    requires forall a <- Decode(blob).value.table[name] :: a in actions
    ensures GetGreedyActions(actions, name, blob).Ok?
    ensures GetGreedyActions(actions, name, blob).value != []
  {
    var row := Decode(blob).value.table[name];
    var m := RowMin(row);
    var a :| a in row && row[a] == m;
    assert a in GetGreedyActions(actions, name, blob).value;
  }

  /** The three cases of the best-value test. */
  lemma BestActionValueExamples()
    ensures BestActionValueInState("state2", map["state1" := map[ActionNone := -1.0]]) == InitialValue
    ensures BestActionValueInState("state1", map["state1" := map[]]) == InitialValue
    ensures BestActionValueInState("state1", map["state1" := map[ActionNone := 1.0, ActionHorizontal := 2.0,
                                                                ActionVertical := 3.0, ActionHybrid := 4.0]]) == 1.0
  {
    var row := map[ActionNone := 1.0, ActionHorizontal := 2.0, ActionVertical := 3.0, ActionHybrid := 4.0];
    var v := BestActionValueInState("state1", map["state1" := row]);
    assert v <= row[ActionNone];
  }

  /** The greedy-actions test, first case: a state never seen offers every action. */
  lemma GreedyActionsUnseenExample()
    ensures GetGreedyActions(AllActions, "state1", Encode(LearningState(map[]))) == Ok(AllActions)
  {
  }

  /** The greedy-actions test, second case: the three actions tied at the least cost, in order. */
  lemma GreedyActionsTieExample()
    ensures GetGreedyActions(AllActions, "state1",
              Encode(LearningState(map["state1" := map[ActionNone := 1.0, ActionHorizontal := 1.0,
                                                       ActionVertical := 2.0, ActionHybrid := 1.0]])))
            == Ok([ActionNone, ActionHorizontal, ActionHybrid])
  {
    var row := map[ActionNone := 1.0, ActionHorizontal := 1.0, ActionVertical := 2.0, ActionHybrid := 1.0];
    var table := map["state1" := row];
    assert BestActionValueInState("state1", table) == 1.0 by {
      assert BestActionValueInState("state1", table) <= row[ActionNone];
    }
    TieFilter(row);
  }

  lemma TieFilter(row: QTableRow)
    requires row == map[ActionNone := 1.0, ActionHorizontal := 1.0, ActionVertical := 2.0, ActionHybrid := 1.0]
    ensures GreedyAmong(AllActions, row, 1.0) == [ActionNone, ActionHorizontal, ActionHybrid]
  {
    TieFilterTail(row);
    assert GreedyAmong([ActionHorizontal, ActionVertical, ActionHybrid, ActionHybridInverse], row, 1.0)
        == [ActionHorizontal, ActionHybrid];
  }

  lemma TieFilterTail(row: QTableRow)
    requires row == map[ActionNone := 1.0, ActionHorizontal := 1.0, ActionVertical := 2.0, ActionHybrid := 1.0]
    ensures GreedyAmong([ActionVertical, ActionHybrid, ActionHybridInverse], row, 1.0) == [ActionHybrid]
  {
    assert ActionHybridInverse !in row;
    assert GreedyAmong([ActionHybridInverse], row, 1.0) == [];
    assert GreedyAmong([ActionHybrid, ActionHybridInverse], row, 1.0) == [ActionHybrid];
  }

  // ---------------------------------------------------------------------
  // initializeRow

  /** A row giving every action the initial value. */
  function InitialRow(actions: seq<Action>): (row: QTableRow)
    ensures forall a :: a in row <==> a in actions
    ensures forall a <- row :: row[a] == InitialValue
  {
    map a | a in actions :: InitialValue
  }

  /** A Q-table; Go maps are references, so `initializeRow` changes the table it is given. */
  class QTable {
    var rows: QTableRows

    constructor (rows: QTableRows)
      ensures this.rows == rows
    {
      this.rows := rows;
    }

    /** `initializeRow`: the row of `name` becomes the initial row; every other row is kept. */
    method InitializeRow(name: string, actions: seq<Action>)
      modifies this
      ensures rows == old(rows)[name := InitialRow(actions)]
    {
      var row: QTableRow := map[];
      for i := 0 to |actions|
        invariant forall a :: a in row <==> a in actions[..i]
        invariant forall a <- row :: row[a] == InitialValue
      {
        assert actions[..i + 1] == actions[..i] + [actions[i]];
        row := row[actions[i] := InitialValue];
      }
      assert actions[..|actions|] == actions;
      assert row == InitialRow(actions);
      rows := rows[name := row];
    }
  }

  /** After `initializeRow` the state is visited and every action offered is greedy there. */
  lemma InitialRowAllGreedy(table: QTableRows, name: string, actions: seq<Action>)
    requires actions != []
    ensures var ls := LearningState(table[name := InitialRow(actions)]);
      && Visited(ls.table, name)
      && BestActionValueInState(name, ls.table) == InitialValue
      && GetGreedyActions(actions, name, Encode(ls)) == Ok(actions)
  {
    var row := InitialRow(actions);
    assert actions[0] in row;
    AllTiedGreedy(actions, row, InitialValue);
  }

  /** When every action is recorded at most at `best`, the greedy filter keeps them all. */
  lemma {:induction false} AllTiedGreedy(actions: seq<Action>, row: QTableRow, best: real)
    requires forall a <- actions :: a in row && row[a] <= best
    ensures GreedyAmong(actions, row, best) == actions
  {
    if actions != [] {
      AllTiedGreedy(actions[1..], row, best);
    }
  }

  /** The row-initialisation test: a second state next to an existing empty one. */
  method InitializeRowExample() returns (rows: QTableRows)
    ensures rows.Keys == {"state1", "state2"} && rows["state1"] == map[]
    ensures rows["state2"].Keys == {ActionNone, ActionHorizontal, ActionVertical, ActionHybrid, ActionHybridInverse}
    ensures forall a <- rows["state2"] :: rows["state2"][a] == InitialValue
  {
    var table := new QTable(map["state1" := map[]]);
    table.InitializeRow("state2", AllActions);
    rows := table.rows;
  }

  // ---------------------------------------------------------------------
  // evaluateCost

  /** The prices the cost is stated in. */
  datatype CostParameters = CostParameters(cpuCost: real, memoryCost: real, underprovisioningPenalty: real)

  /**
    The penalty for one resource: when utilization exceeds its target, the
    requests still missing to meet the target, priced and multiplied by the
    penalty; nothing otherwise.
   */
  function Penalty(requests: real, utilization: real, target: real, cost: real, penalty: real): real
    requires target != 0.0
  {
    if utilization > target then (requests * utilization / target - requests) * cost * penalty else 0.0
  }

  /** The cost of one pod: its priced requests plus the penalties. */
  function PodCost(p: CostParameters, s: QLearningState): real
    requires s.cpuTargetUtilization != 0.0 && s.memoryTargetUtilization != 0.0
  {
    p.cpuCost * s.cpuRequests + p.memoryCost * s.memoryRequests
    + Penalty(s.cpuRequests, s.cpuUtilization, s.cpuTargetUtilization, p.cpuCost, p.underprovisioningPenalty)
    + Penalty(s.memoryRequests, s.memoryUtilization, s.memoryTargetUtilization, p.memoryCost, p.underprovisioningPenalty)
  }

  /** `evaluateCost`: fails on a zero target, cpu first; otherwise the pod cost times the replicas. */
  function EvaluateCost(p: CostParameters, s: QLearningState): (r: Result<real, Error>)
    ensures r == Err(CpuTargetUtilizationZero) <==> s.cpuTargetUtilization == 0.0
    ensures r == Err(MemoryTargetUtilizationZero) <==> s.cpuTargetUtilization != 0.0 && s.memoryTargetUtilization == 0.0
    ensures r.Ok? <==> s.cpuTargetUtilization != 0.0 && s.memoryTargetUtilization != 0.0
  {
    if s.cpuTargetUtilization == 0.0 then Err(CpuTargetUtilizationZero)
    else if s.memoryTargetUtilization == 0.0 then Err(MemoryTargetUtilizationZero)
    else Ok(PodCost(p, s) * s.replicas as real)
  }

  /** At or below both targets the cost is the priced requests times the replicas. */
  lemma EvaluateCostWithinTargets(p: CostParameters, s: QLearningState)
    requires s.cpuTargetUtilization != 0.0 && s.memoryTargetUtilization != 0.0
    requires s.cpuUtilization <= s.cpuTargetUtilization && s.memoryUtilization <= s.memoryTargetUtilization
    ensures EvaluateCost(p, s).Ok?
    ensures EvaluateCost(p, s).value == (p.cpuCost * s.cpuRequests + p.memoryCost * s.memoryRequests) * s.replicas as real
  {
    var base := p.cpuCost * s.cpuRequests + p.memoryCost * s.memoryRequests;
    assert PodCost(p, s) == base;
  }

  /** With positive prices and requests, exceeding a target costs strictly more. */
  lemma PenaltyPositive(requests: real, utilization: real, target: real, cost: real, penalty: real)
    requires target > 0.0 && utilization > target
    requires requests > 0.0 && cost > 0.0 && penalty > 0.0
    ensures Penalty(requests, utilization, target, cost, penalty) > 0.0
  {
    var missing := requests * utilization / target - requests;
    assert utilization / target > 1.0;
    assert requests * utilization / target == requests * (utilization / target);
    MulLess(1.0, utilization / target, requests);
    assert missing > 0.0;
    assert missing * cost > 0.0;
  }

  /** With non-negative prices and requests a penalty is never negative. */
  lemma PenaltyNonNegative(requests: real, utilization: real, target: real, cost: real, penalty: real)
    requires target > 0.0
    requires requests >= 0.0 && cost >= 0.0 && penalty >= 0.0
    ensures Penalty(requests, utilization, target, cost, penalty) >= 0.0
  {
    if utilization > target {
      var missing := requests * utilization / target - requests;
      assert requests * utilization / target == requests * (utilization / target);
      ScaleAtMost(requests, 1.0, utilization / target);
      assert missing >= 0.0;
      assert missing * cost >= 0.0;
    }
  }

  /** For a fixed pod cost that is not negative, more replicas never cost less. */
  lemma EvaluateCostMonotoneInReplicas(p: CostParameters, s: QLearningState, replicas: Int32)
    requires s.cpuTargetUtilization > 0.0 && s.memoryTargetUtilization > 0.0
    requires p.cpuCost >= 0.0 && p.memoryCost >= 0.0 && p.underprovisioningPenalty >= 0.0
    requires s.cpuRequests >= 0.0 && s.memoryRequests >= 0.0
    requires s.replicas <= replicas
    ensures EvaluateCost(p, s).Ok? && EvaluateCost(p, s.(replicas := replicas)).Ok?
    ensures EvaluateCost(p, s).value <= EvaluateCost(p, s.(replicas := replicas)).value
  {
    PodCostNonNegative(p, s);
    assert PodCost(p, s.(replicas := replicas)) == PodCost(p, s);
    ScaleAtMost(PodCost(p, s), s.replicas as real, replicas as real);
  }

  /** With non-negative prices and requests one pod never has a negative cost. */
  lemma PodCostNonNegative(p: CostParameters, s: QLearningState)
    requires s.cpuTargetUtilization > 0.0 && s.memoryTargetUtilization > 0.0
    requires p.cpuCost >= 0.0 && p.memoryCost >= 0.0 && p.underprovisioningPenalty >= 0.0
    requires s.cpuRequests >= 0.0 && s.memoryRequests >= 0.0
    ensures PodCost(p, s) >= 0.0
  {
    PenaltyNonNegative(s.cpuRequests, s.cpuUtilization, s.cpuTargetUtilization, p.cpuCost, p.underprovisioningPenalty);
    PenaltyNonNegative(s.memoryRequests, s.memoryUtilization, s.memoryTargetUtilization, p.memoryCost, p.underprovisioningPenalty);
    ScaleAtMost(p.cpuCost, 0.0, s.cpuRequests);
    ScaleAtMost(p.memoryCost, 0.0, s.memoryRequests);
  }

  lemma ScaleAtMost(c: real, a: real, b: real)
    requires c >= 0.0 && a <= b
    ensures c * a <= c * b
  {
  }

  /** The cost test: cpu above its target adds a penalty (0.423); at the targets there is none (0.303). */
  lemma EvaluateCostExamples(s1: QLearningState, s2: QLearningState)
    requires s1.replicas == 3 && s1.cpuRequests == 0.1 && s1.memoryRequests == 1_000_000.0
    requires s1.cpuUtilization == 0.6 && s1.memoryUtilization == 0.7
    requires s1.cpuTargetUtilization == 0.5 && s1.memoryTargetUtilization == 0.8
    requires s2 == s1.(memoryUtilization := 0.8, cpuTargetUtilization := 0.6)
    ensures EvaluateCost(CostParameters(1.0, 0.000_000_001, 2.0), s1) == Ok(0.423)
    ensures EvaluateCost(CostParameters(1.0, 0.000_000_001, 2.0), s2) == Ok(0.303)
  {
    var p := CostParameters(1.0, 0.000_000_001, 2.0);
    assert Penalty(0.1, 0.6, 0.5, 1.0, 2.0) == 0.04 by {
      assert 0.1 * 0.6 / 0.5 == 0.12;
    }
    assert PodCost(p, s1) == 0.141;
    assert PodCost(p, s2) == 0.101;
  }
}
