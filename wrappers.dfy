/** Failure-compatible wrappers used for the error returns of the scaler. */
module Wrappers {

  /** An optional value: a Go pointer that may be nil. */
  datatype Option<+T> = None | Some(value: T)

  /** Either a value or an error, like Go's `(T, error)` pair. */
  datatype Result<+T, +E> = Ok(value: T) | Err(error: E) {

    predicate IsFailure() {
      Err?
    }

    function PropagateFailure<U>(): Result<U, E>
      requires Err?
    {
      Err(error)
    }

    function Extract(): T
      requires Ok?
    {
      value
    }
  }
}

/** The error conditions the decision engine reports, one constructor per message. */
module Errors {

  datatype Error =
    // currentToTargetUtilizationRatio
    | RequestsZero
    | TargetUtilizationZero
      // wrappers "unable to calculate cpu/memory current to target utilization ratio, %w"
    | CpuRatio(cause: Error)
    | MemoryRatio(cause: Error)
      // calculateDesiredReplicas: "current replicas is zero"
    | ReplicasZero
      // Vertical: "no limits to requests ratios provided"
    | NoLimitsToRequestsRatios
      // Vertical: "unable to calculate new pod resources, current number of replicas is zero"
    | PodResourcesReplicasZero
      // Hybrid: "attempting to scale to zero replicas"
    | ScaleToZeroReplicas
      // convertState and getLimitsToRequestsRatio
    | CpuRequestsZero
    | MemoryRequestsZero
    | MaxCpuZero
    | MaxMemoryZero
    | CpuTargetUtilizationZero
    | MemoryTargetUtilizationZero
      // prepareState
    | MissingCpuTarget
    | MissingMemoryTarget
      // the learning state could not be decoded
    | DecodeFailed
      // there was no action to pick from
    | NoActionToChoose
      // MakeDecision: "cannot get greedy actions, %w"
    | GreedyActionsFailed(cause: Error)
}
