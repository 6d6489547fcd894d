/**
 * packages/orchestrator/src/work-order.ts: the unit of work and what its execution returns.
 * The representation of numbers and of the two structured gates is a parameter, because the
 * queue carries them as raw JSON.
 */
module WorkOrders {
  import opened Basics
  import opened Events
  import opened JsonValues
  import opened Policy
  import opened CostGovernor
  import opened WorkRouter

  datatype ModelMessage = ModelMessage(role: Text, content: Text)

  datatype ModelRequest<+N> = ModelRequest(
    messages: seq<ModelMessage>,
    maxOutputTokens: Option<N>,
    reasoningTier: Option<N>
  )

  datatype WorkOrder<+N, +P, +B> = WorkOrder(
    organizationId: Text,
    taskId: Option<Text>,
    correlationId: Option<Text>,
    actor: Option<Actor>,
    requiredCapabilities: seq<Text>,
    prefersHuman: Option<bool>,
    needsReasoning: Option<bool>,
    reasoningTier: Option<N>,
    needsTools: Option<bool>,
    needsVision: Option<bool>,
    requireLocal: Option<bool>,
    minContextTokens: Option<N>,
    modelRequest: Option<ModelRequest<N>>,
    capabilityInput: Option<Json>,
    policy: Option<P>,
    budget: Option<B>
  )

  /** An order as the queue carries it: raw numbers, and the two gates as raw objects. */
  type QueuedOrder = WorkOrder<Number, Json, Json>

  /** An order as the orchestrator uses it. */
  type Order = WorkOrder<real, PolicyInput, Budget>

  /**
   * The routing hints of a dispatch as they come in: the capabilities are checked to be strings, the
   * rest is whatever the body of the request held, if anything.
   */
  datatype RawHints = RawHints(
    requiredCapabilities: seq<Text>,
    prefersHuman: Option<Json>,
    needsReasoning: Option<Json>,
    reasoningTier: Option<Json>,
    needsTools: Option<Json>,
    needsVision: Option<Json>,
    requireLocal: Option<Json>,
    minContextTokens: Option<Json>,
    modelRequest: Option<Json>
  )

  /** `buildWorkOrder` on hints of the declared types, tied to the task and its tenant. */
  function BuildWorkOrder(id: Text, organizationId: Text, hints: QueuedOrder): QueuedOrder {
    hints.(organizationId := organizationId, taskId := Some(id), correlationId := None, actor := None,
    capabilityInput := None, policy := None, budget := None)
  }

  /** 0.d1...dk, and the power of ten it is taken times. */
  function Fraction(ds: seq<Digit>): real {
    if ds == [] then 0.0 else (ds[0] as real + Fraction(ds[1..])) / 10.0
  }

  function PowerOfTen(n: nat): real {
    if n == 0 then 1.0 else 10.0 * PowerOfTen(n - 1)
  }

  function Shifted(x: real, point: int): real {
    if point >= 0 then x * PowerOfTen(point)
    else
      PowerIsPositive(-point);
      x / PowerOfTen(-point)
  }

  lemma PowerIsPositive(n: nat)
    ensures PowerOfTen(n) > 0.0
  {
  }

  /** The value of a number; what the queue carries is always finite. */
  function NumberValue(n: Number): real {
    match n
    case Finite(negative, ds, point) => if negative then -Shifted(Fraction(ds), point) else Shifted(Fraction(ds), point)
    case _ => 0.0
  }

  /** How the policy engine and the cost governor read the two gate objects. */
  datatype Gates = Gates(policy: Json -> PolicyInput, budget: Json -> Budget)

  function MapOption<T, U>(f: T -> U, v: Option<T>): Option<U> {
    if v.Some? then Some(f(v.value)) else None
  }

  /** A queued order as the orchestrator sees it: the numbers by value, the gates by content. */
  function AsRun(o: QueuedOrder, gates: Gates): Order {
    WorkOrder(
      o.organizationId, o.taskId, o.correlationId, o.actor, o.requiredCapabilities, o.prefersHuman, o.needsReasoning,
      MapOption(NumberValue, o.reasoningTier), o.needsTools, o.needsVision, o.requireLocal,
      MapOption(NumberValue, o.minContextTokens),
      if o.modelRequest.Some? then
        Some(ModelRequest(o.modelRequest.value.messages,
                          MapOption(NumberValue, o.modelRequest.value.maxOutputTokens),
                          MapOption(NumberValue, o.modelRequest.value.reasoningTier)))
      else None,
      o.capabilityInput, MapOption(gates.policy, o.policy), MapOption(gates.budget, o.budget))
  }

  datatype WorkOrderStatus =
    | OrderCompleted
    | AwaitingHuman
    | ApprovalNeeded
    | Denied
    | OrderBlocked
    | BudgetExceeded
    | OrderFailed

  datatype Reason =
    | PolicyReason(denial: Denial)
    | ApprovalRequiredReason
    | RoutingReason(routing: WorkRoutingReason)
    | AdapterError
    | NoCapabilityAdapter
    | MissingModelRequest
    | NoEligibleModel
    | NoAdapter

  datatype WorkOrderResult = WorkOrderResult(
    status: WorkOrderStatus,
    executionClass: Option<ExecutionClass>,
    modelId: Option<Text>,
    capabilityId: Option<Text>,
    text: Option<Text>,
    output: Option<Json>,
    reason: Option<Reason>
  )

  /** A result with nothing but a status. */
  function Bare(status: WorkOrderStatus): WorkOrderResult {
    WorkOrderResult(status, None, None, None, None, None, None)
  }
}
