/** packages/orchestrator/src/orchestrator.ts: one work order, end to end. */
module Orchestrator {
  import opened Basics
  import opened Events
  import opened Policy
  import opened CostGovernor
  import opened ModelRouter
  import opened WorkRouter
  import opened Adapters
  import opened WorkOrders

  /** Everything a run consults besides the Work Router's registry. */
  datatype Deps = Deps(
    modelRegistry: seq<ModelEntry>,
    resolveModelAdapter: Text -> Option<ModelAdapter>,
    resolveCapabilityAdapter: Option<Text -> Option<CapabilityAdapter>>
  )

  function WiredCapability(deps: Deps, id: Text): Option<CapabilityAdapter> {
    match deps.resolveCapabilityAdapter
    case None => None
    case Some(resolve) => resolve(id)
  }

  function WorkInput(order: Order): WorkRoutingInput {
    WorkRoutingInput(order.requiredCapabilities, order.prefersHuman, order.needsReasoning)
  }

  function ModelInput(order: Order): ModelRoutingInput {
    ModelRoutingInput(order.reasoningTier.GetOr(5.0), order.needsTools, order.needsVision,
                      order.requireLocal, order.minContextTokens, {})
  }

  predicate Affordable(order: Order, estimateUsd: real) {
    order.budget.None? || WithinBudget(order.budget.value, estimateUsd)
  }

  function CapabilityRecord(order: Order, c: RegisteredCapability, out: CapabilityOutput): UsageRecord {
    UsageRecord(c.id, CapabilitySupplier, 0, 0,
                if out.usage.Some? then out.usage.value.costUsd else 0.0,
                if out.usage.Some? then out.usage.value.latencyMs else 0.0,
                None, order.taskId)
  }

  function ModelRecord(order: Order, m: ModelEntry, r: ModelResult): UsageRecord {
    UsageRecord(m.id, ModelSupplier(m.provider), r.usage.inputTokens, r.usage.outputTokens,
                r.usage.costUsd, r.usage.latencyMs, r.usage.cachedInputTokens, order.taskId)
  }

  /** The event an order is known by once it has a result. */
  function Terminal(s: WorkOrderStatus): EventType {
    match s
    case OrderCompleted => TaskCompleted
    case OrderFailed => TaskFailed
    case ApprovalNeeded => ApprovalRequested
    case _ => TaskBlocked
  }

  // ------------------------------------------------- the code's two loops, as recursion

  /** One adapter execution: whose adapter it was. */
  datatype Execution = OfCapability(capability: RegisteredCapability) | OfModel(model: ModelEntry)

  /** How a loop over options leaves off, and all the adapter executions of the run so far. */
  datatype Leg =
    | Ended(result: WorkOrderResult, executed: seq<Execution>, records: seq<UsageRecord>)
    | FellThrough(executed: seq<Execution>)

  /** One capability with a wired adapter: a budget check, then an execution. */
  function TryCapability(order: Order, c: RegisteredCapability, adapter: CapabilityAdapter, ran: seq<Execution>): Leg {
    var at := Bare(OrderFailed).(executionClass := Some(c.executionClass), capabilityId := Some(c.id));
    if !Affordable(order, adapter.estimate(|ran|)) then Ended(at.(status := BudgetExceeded), ran, [])
    else
      match adapter.execute(|ran|)
      case Done(out) =>
        Ended(at.(status := OrderCompleted, output := Some(out.output)), ran + [OfCapability(c)], [CapabilityRecord(order, c, out)])
      case Threw(e) =>
        if IsRetryable(e) then FellThrough(ran + [OfCapability(c)]) else Ended(at.(reason := Some(AdapterError)), ran + [OfCapability(c)], [])
  }

  function CapabilityLeg(order: Order, deps: Deps, cs: seq<RegisteredCapability>, ran: seq<Execution>): Leg
    decreases cs
  {
    if cs == [] then FellThrough(ran)
    else
      match WiredCapability(deps, cs[0].id)
      case None => CapabilityLeg(order, deps, cs[1..], ran)
      case Some(adapter) =>
        var leg := TryCapability(order, cs[0], adapter, ran);
        if leg.Ended? then leg else CapabilityLeg(order, deps, cs[1..], leg.executed)
  }

  function TryModel(order: Order, cls: ExecutionClass, m: ModelEntry, adapter: ModelAdapter, ran: seq<Execution>): Leg {
    var failed := Bare(OrderFailed).(executionClass := Some(cls));
    if !Affordable(order, adapter.estimate(|ran|)) then
      Ended(failed.(status := BudgetExceeded, modelId := Some(m.id)), ran, [])
    else
      match adapter.execute(|ran|)
      case Done(r) =>
        Ended(failed.(status := OrderCompleted, modelId := Some(m.id), text := Some(r.text)), ran + [OfModel(m)], [ModelRecord(order, m, r)])
      case Threw(e) =>
        if IsRetryable(e) then FellThrough(ran + [OfModel(m)]) else Ended(failed.(reason := Some(AdapterError)), ran + [OfModel(m)], [])
  }

  function ModelLeg(order: Order, deps: Deps, cls: ExecutionClass, ms: seq<ModelEntry>, start: nat, ran: seq<Execution>): (leg: Leg)
    requires start <= |ran|
    ensures leg.Ended?
    decreases ms
  {
    if ms == [] then ModelsExhausted(cls, start, ran)
    else
      match deps.resolveModelAdapter(ms[0].id)
      case None => ModelLeg(order, deps, cls, ms[1..], start, ran)
      case Some(adapter) =>
        var leg := TryModel(order, cls, ms[0], adapter, ran);
        if leg.Ended? then leg else ModelLeg(order, deps, cls, ms[1..], start, leg.executed)
  }

  function ModelsExhausted(cls: ExecutionClass, start: nat, ran: seq<Execution>): Leg {
    Ended(Bare(OrderFailed).(executionClass := Some(cls), reason := Some(if |ran| == start then NoAdapter else AdapterError)),
          ran, [])
  }

  /** What a run returns, publishes and records. */
  datatype Outcome = Outcome(
    result: WorkOrderResult,
    trace: seq<EventType>,
    executed: seq<Execution>,
    records: seq<UsageRecord>
  )

  function Pairs(n: nat): (r: seq<EventType>)
    ensures |r| == 2 * n
  {
    if n == 0 then [] else Pairs(n - 1) + [WorkerStarted, ToolCalled]
  }

  /** A run that passed the gate: planned, one event pair per execution, one closing event. */
  function Ran(result: WorkOrderResult, executed: seq<Execution>, records: seq<UsageRecord>): Outcome {
    Outcome(result, Begun(|executed|) + [Terminal(result.status)], executed, records)
  }

  function Execute(order: Order, items: seq<RegisteredCapability>, deps: Deps): Outcome {
    var decision := if order.policy.Some? then Evaluate(order.policy.value) else Allow;
    match decision
    case Deny(why) => Outcome(Bare(Denied).(reason := Some(PolicyReason(why))), [TaskBlocked], [], [])
    case RequiresApproval =>
      Outcome(Bare(ApprovalNeeded).(reason := Some(ApprovalRequiredReason)), [ApprovalRequested], [], [])
    case Allow => ExecuteAllowed(order, items, deps)
  }

  function ExecuteAllowed(order: Order, items: seq<RegisteredCapability>, deps: Deps): Outcome {
    var routing := RouteWork(WorkInput(order), items);
    var at := Bare(OrderFailed).(executionClass := Some(routing.executionClass), capabilityId := routing.capabilityId);
    if routing.executionClass == Human then
      Ran(Bare(AwaitingHuman).(executionClass := Some(Human), reason := Some(RoutingReason(routing.reason))), [], [])
    else if IsAi(routing.executionClass) then ExecuteModels(order, deps, routing.executionClass, [])
    else
      match CapabilityLeg(order, deps, CandidateCapabilities(WorkInput(order), items), [])
      case Ended(result, executed, records) => Ran(result, executed, records)
      case FellThrough(ran) =>
        if ran == [] then Ran(at.(status := OrderBlocked, reason := Some(NoCapabilityAdapter)), [], [])
        else if order.needsReasoning != Some(true) then Ran(at.(reason := Some(AdapterError)), ran, [])
        else ExecuteModels(order, deps, CloudAi, ran)
  }

  function ExecuteModels(order: Order, deps: Deps, cls: ExecutionClass, ran: seq<Execution>): Outcome {
    var failed := Bare(OrderFailed).(executionClass := Some(cls));
    if order.modelRequest.None? then Ran(failed.(reason := Some(MissingModelRequest)), ran, [])
    else
      match RouteModel(ModelInput(order), deps.modelRegistry)
      case None => Ran(failed.(reason := Some(NoEligibleModel)), ran, [])
      case Some(d) =>
        var leg := ModelLeg(order, deps, cls, [d.model] + d.fallbacks, |ran|, ran);
        Ran(leg.result, leg.executed, leg.records)
  }

  // ---------------------------------------------------------------- the method itself

  const ORCHESTRATOR: Actor := Actor(OrchestratorActor, Spell("orchestrator"))

  function Stamp<N, P, B>(order: WorkOrder<N, P, B>, kind: EventType): Event {
    Event(kind, order.organizationId, order.taskId, order.actor.GetOr(ORCHESTRATOR), order.correlationId)
  }

  function StampAll<N, P, B>(order: WorkOrder<N, P, B>, kinds: seq<EventType>): (r: seq<Event>)
    ensures |r| == |kinds|
    ensures forall i :: 0 <= i < |r| ==> r[i] == Stamp(order, kinds[i])
  {
    seq(|kinds|, i requires 0 <= i < |kinds| => Stamp(order, kinds[i]))
  }

  /** Events do not depend on how the gates are read. */
  lemma SameStamps(o: QueuedOrder, gates: Gates, kinds: seq<EventType>)
    ensures StampAll(AsRun(o, gates), kinds) == StampAll(o, kinds)
  {
  }

  lemma StampMore(order: Order, a: seq<EventType>, b: seq<EventType>)
    ensures StampAll(order, a + b) == StampAll(order, a) + StampAll(order, b)
  {
  }

  /** The kinds published by a run that was planned and has executed `n` adapters. */
  function Begun(n: nat): seq<EventType> { [TaskPlanned] + Pairs(n) }

  class Run {
    const order: Order
    const deps: Deps
    const bus: BufferingEventBus
    const ledger: UsageLedger

    constructor (order: Order, deps: Deps, bus: BufferingEventBus, ledger: UsageLedger)
      ensures this.order == order && this.deps == deps && this.bus == bus && this.ledger == ledger
    {
      this.order := order;
      this.deps := deps;
      this.bus := bus;
      this.ledger := ledger;
    }

    /** The run so far has published events of these kinds, and nothing else has. */
    ghost predicate Published(before: seq<Event>, kinds: seq<EventType>)
      reads bus
    {
      bus.events == before + StampAll(order, kinds)
    }

    method Emit(kind: EventType, ghost before: seq<Event>, ghost kinds: seq<EventType>)
      requires Published(before, kinds)
      modifies bus
      ensures Published(before, kinds + [kind])
    {
      StampMore(order, kinds, [kind]);
      bus.Publish(Stamp(order, kind));
    }

    method ExecuteWorkOrder(registry: CapabilityRegistry) returns (result: WorkOrderResult)
      modifies bus, ledger
      ensures var o := Execute(order, old(registry.items), deps);
              && result == o.result
              && Published(old(bus.events), o.trace)
              && ledger.records == old(ledger.records) + o.records
    {
      ghost var before := bus.events;
      assert Published(before, []);
      if order.policy.Some? {
        var decision := Evaluate(order.policy.value);
        if decision.Deny? {
          Emit(TaskBlocked, before, []);
          return Bare(Denied).(reason := Some(PolicyReason(decision.reason)));
        }
        if decision.RequiresApproval? {
          Emit(ApprovalRequested, before, []);
          return Bare(ApprovalNeeded).(reason := Some(ApprovalRequiredReason));
        }
      }
      result := ExecuteGated(registry.items, before);
    }

    method ExecuteGated(items: seq<RegisteredCapability>, ghost before: seq<Event>) returns (result: WorkOrderResult)
      requires Published(before, [])
      modifies bus, ledger
      ensures var o := ExecuteAllowed(order, items, deps);
              && result == o.result
              && Published(before, o.trace)
              && ledger.records == old(ledger.records) + o.records
    {
      var routing := RouteWork(WorkInput(order), items);
      Emit(TaskPlanned, before, []);
      assert [] + [TaskPlanned] == Begun(0);
      if routing.executionClass == Human {
        Emit(TaskBlocked, before, Begun(0));
        return Bare(AwaitingHuman).(executionClass := Some(Human), reason := Some(RoutingReason(routing.reason)));
      }

      var executionClass := routing.executionClass;
      var ran: seq<Execution> := [];
      if !IsAi(executionClass) {
        var at := Bare(OrderFailed).(executionClass := Some(executionClass), capabilityId := routing.capabilityId);
        var escalate;
        result, escalate, ran := ExecuteCapability(at, CandidateCapabilities(WorkInput(order), items), before);
        if !escalate {
          return;
        }
        executionClass := CloudAi;
      }
      result := ExecuteAi(executionClass, before, ran);
    }

    /** The capability part: it ends the run, or asks for the models. */
    method ExecuteCapability(at: WorkOrderResult, candidates: seq<RegisteredCapability>, ghost before: seq<Event>)
      returns (result: WorkOrderResult, escalate: bool, ran: seq<Execution>)
      requires Published(before, Begun(0)) && at.status == OrderFailed
      modifies bus, ledger
      ensures var leg := CapabilityLeg(order, deps, candidates, []);
              && ran == leg.executed
              && (escalate <==> leg.FellThrough? && ran != [] && order.needsReasoning == Some(true))
              && (if leg.Ended? then Closed(leg, result, before, old(ledger.records))
                  else
                    && ledger.records == old(ledger.records)
                    && (escalate ==> Published(before, Begun(|ran|)))
                    && (!escalate ==>
                          && result == (if ran == [] then at.(status := OrderBlocked, reason := Some(NoCapabilityAdapter))
                                        else at.(reason := Some(AdapterError)))
                          && Published(before, Begun(|ran|) + [Terminal(result.status)])))
    {
      var decided, attempted;
      decided, result, attempted, ran := TryCapabilities(candidates, before);
      escalate := false;
      if decided {
        return;
      }
      if !attempted {
        Emit(TaskBlocked, before, Begun(0));
        result := at.(status := OrderBlocked, reason := Some(NoCapabilityAdapter));
      } else if order.needsReasoning != Some(true) {
        Emit(TaskFailed, before, Begun(|ran|));
        result := at.(reason := Some(AdapterError));
      } else {
        escalate := true;
      }
    }

    method ExecuteAi(executionClass: ExecutionClass, ghost before: seq<Event>, ran: seq<Execution>) returns (result: WorkOrderResult)
      requires Published(before, Begun(|ran|))
      modifies bus, ledger
      ensures var o := ExecuteModels(order, deps, executionClass, ran);
              && result == o.result
              && Published(before, o.trace)
              && ledger.records == old(ledger.records) + o.records
    {
      if order.modelRequest.None? {
        Emit(TaskFailed, before, Begun(|ran|));
        return Bare(OrderFailed).(executionClass := Some(executionClass), reason := Some(MissingModelRequest));
      }
      var decision := RouteModel(ModelInput(order), deps.modelRegistry);
      if decision.None? {
        Emit(TaskFailed, before, Begun(|ran|));
        return Bare(OrderFailed).(executionClass := Some(executionClass), reason := Some(NoEligibleModel));
      }
      result := TryModels([decision.value.model] + decision.value.fallbacks, executionClass, before, ran);
    }

    /** The loop over capabilities; `ran` lists the executions, whose number is what the oracles go by. */
    method TryCapabilities(candidates: seq<RegisteredCapability>, ghost before: seq<Event>)
      returns (decided: bool, result: WorkOrderResult, attempted: bool, ran: seq<Execution>)
      requires Published(before, Begun(0))
      modifies bus, ledger
      ensures var leg := CapabilityLeg(order, deps, candidates, []);
              && decided == leg.Ended? && ran == leg.executed
              && (decided ==> Closed(leg, result, before, old(ledger.records)))
              && (!decided ==> (attempted <==> ran != []) && Published(before, Begun(|ran|)) && ledger.records == old(ledger.records))
    {
      decided, attempted, ran := false, false, [];
      result := Bare(OrderFailed);
      ghost var leg := CapabilityLeg(order, deps, candidates, []);
      for i := 0 to |candidates|
        invariant !decided
        invariant CapabilityLeg(order, deps, candidates[i..], ran) == leg
        invariant attempted <==> ran != []
        invariant Published(before, Begun(|ran|))
        invariant ledger.records == old(ledger.records)
      {
        assert candidates[i..][1..] == candidates[i + 1..];
        var adapter := WiredCapability(deps, candidates[i].id);
        if adapter.None? {
          continue;
        }
        attempted := true;
        decided, result, ran := RunCapability(candidates[i], adapter.value, before, ran);
        if decided {
          return;
        }
      }
    }

    /** An ended leg: its result is returned, its closing event published, its usage recorded. */
    ghost predicate Closed(leg: Leg, result: WorkOrderResult, before: seq<Event>, records: seq<UsageRecord>)
      reads bus, ledger
    {
      && leg.Ended? && result == leg.result
      && Published(before, Begun(|leg.executed|) + [Terminal(result.status)])
      && ledger.records == records + leg.records
    }

    method StartExecution(ghost before: seq<Event>, ghost n: nat)
      requires Published(before, Begun(n))
      modifies bus
      ensures Published(before, Begun(n + 1))
    {
      Emit(WorkerStarted, before, Begun(n));
      Emit(ToolCalled, before, Begun(n) + [WorkerStarted]);
      assert Begun(n) + [WorkerStarted] + [ToolCalled] == Begun(n + 1);
    }

    method RunCapability(candidate: RegisteredCapability, adapter: CapabilityAdapter, ghost before: seq<Event>, ran: seq<Execution>)
      returns (decided: bool, result: WorkOrderResult, now: seq<Execution>)
      requires Published(before, Begun(|ran|))
      modifies bus, ledger
      ensures var leg := TryCapability(order, candidate, adapter, ran);
              && decided == leg.Ended? && now == leg.executed
              && (decided ==> Closed(leg, result, before, old(ledger.records)))
              && (!decided ==> Published(before, Begun(|now|)) && ledger.records == old(ledger.records))
    {
      result := Bare(OrderFailed).(executionClass := Some(candidate.executionClass), capabilityId := Some(candidate.id));
      if order.budget.Some? && !WithinBudget(order.budget.value, adapter.estimate(|ran|)) {
        Emit(TaskBlocked, before, Begun(|ran|));
        return true, result.(status := BudgetExceeded), ran;
      }
      StartExecution(before, |ran|);
      now := ran + [OfCapability(candidate)];
      var attempt := adapter.execute(|ran|);
      decided := attempt.Done? || !IsRetryable(attempt.errorClass);
      if attempt.Done? {
        ledger.Record(CapabilityRecord(order, candidate, attempt.value));
        result := result.(status := OrderCompleted, output := Some(attempt.value.output));
        Emit(TaskCompleted, before, Begun(|now|));
      } else if decided {
        result := result.(reason := Some(AdapterError));
        Emit(TaskFailed, before, Begun(|now|));
      }
    }

    /** The loop over the model chain, after the executions `earlier`. */
    method TryModels(chain: seq<ModelEntry>, executionClass: ExecutionClass, ghost before: seq<Event>, earlier: seq<Execution>)
      returns (result: WorkOrderResult)
      requires Published(before, Begun(|earlier|))
      modifies bus, ledger
      ensures Closed(ModelLeg(order, deps, executionClass, chain, |earlier|, earlier), result, before, old(ledger.records))
    {
      var ran := earlier;
      ghost var leg := ModelLeg(order, deps, executionClass, chain, |earlier|, earlier);
      for i := 0 to |chain|
        invariant |earlier| <= |ran| && ModelLeg(order, deps, executionClass, chain[i..], |earlier|, ran) == leg
        invariant Published(before, Begun(|ran|))
        invariant ledger.records == old(ledger.records)
      {
        assert chain[i..][1..] == chain[i + 1..];
        var adapter := deps.resolveModelAdapter(chain[i].id);
        if adapter.None? {
          continue;
        }
        var decided;
        decided, result, ran := RunModel(chain[i], executionClass, adapter.value, before, ran);
        if decided {
          return;
        }
      }
      Emit(TaskFailed, before, Begun(|ran|));
      result := Bare(OrderFailed).(executionClass := Some(executionClass),
        reason := Some(if |ran| == |earlier| then NoAdapter else AdapterError));
    }

    method RunModel(entry: ModelEntry, executionClass: ExecutionClass, adapter: ModelAdapter, ghost before: seq<Event>, ran: seq<Execution>)
      returns (decided: bool, result: WorkOrderResult, now: seq<Execution>)
      requires Published(before, Begun(|ran|))
      modifies bus, ledger
      ensures var leg := TryModel(order, executionClass, entry, adapter, ran);
              && decided == leg.Ended? && now == leg.executed
              && (decided ==> Closed(leg, result, before, old(ledger.records)))
              && (!decided ==> Published(before, Begun(|now|)) && ledger.records == old(ledger.records))
    {
      result := Bare(OrderFailed).(executionClass := Some(executionClass));
      if order.budget.Some? && !WithinBudget(order.budget.value, adapter.estimate(|ran|)) {
        Emit(TaskBlocked, before, Begun(|ran|));
        return true, result.(status := BudgetExceeded, modelId := Some(entry.id)), ran;
      }
      StartExecution(before, |ran|);
      now := ran + [OfModel(entry)];
      var attempt := adapter.execute(|ran|);
      decided := attempt.Done? || !IsRetryable(attempt.errorClass);
      if attempt.Done? {
        ledger.Record(ModelRecord(order, entry, attempt.value));
        result := result.(status := OrderCompleted, modelId := Some(entry.id), text := Some(attempt.value.text));
        Emit(TaskCompleted, before, Begun(|now|));
      } else if decided {
        result := result.(reason := Some(AdapterError));
        Emit(TaskFailed, before, Begun(|now|));
      }
    }
  }
}
