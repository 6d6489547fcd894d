/** apps/worker/src/worker.ts: the job handler that ties a payload, a buffer, a run and a commit together. */
module Worker {
  import opened Basics
  import opened JsonValues
  import opened Events
  import opened StableSort
  import opened CostGovernor
  import opened ModelRouter
  import opened WorkRouter
  import opened Adapters
  import opened WorkOrders
  import opened WorkOrderPayload
  import opened Orchestrator
  import opened OrchestratorRuns
  import opened TaskStateMachine
  import opened TaskState
  import opened TaskProtocol

  /** Why a handler throws: the payload cannot be read, or a transition of the row is illegal. */
  datatype HandlerError = Unreadable(payloadError: InvalidWorkOrder) | Illegal(transition: IllegalTransition)

  /** The tables after an order that was read is executed and committed without interruption. */
  function HandleOrder(db: Db, order: QueuedOrder, gates: Gates, items: seq<RegisteredCapability>, deps: Deps)
    : Result<Db, HandlerError>
  {
    var o := Execute(AsRun(order, gates), items, deps);
    var trace := StampAll(order, o.trace);
    match order.taskId
    case None => Success(db.(events := db.events + trace))
    case Some(id) =>
      match Commit(db, CommitInput(id, order.organizationId, o.result.status, trace, order, None))
      case Success(p) => Success(p.0)
      case Failure(e) => Failure(Illegal(e))
  }

  /** The tables after one job was handled without interruption. */
  function Handle(db: Db, payload: Json, gates: Gates, items: seq<RegisteredCapability>, deps: Deps): Result<Db, HandlerError> {
    match Parse(payload)
    case Failure(e) => Failure(Unreadable(e))
    case Success(order) => HandleOrder(db, order, gates, items, deps)
  }

  class WorkerRuntime {
    const store: TaskStateStore
    const ledger: UsageLedger
    const registry: CapabilityRegistry
    const gates: Gates
    const deps: Deps

    constructor (store: TaskStateStore, ledger: UsageLedger, registry: CapabilityRegistry, gates: Gates, deps: Deps)
      ensures this.store == store && this.ledger == ledger && this.registry == registry && this.gates == gates && this.deps == deps
    {
      this.store := store;
      this.ledger := ledger;
      this.registry := registry;
      this.gates := gates;
      this.deps := deps;
    }

    method HandleExecuteWorkOrder(payload: Json) returns (r: Result<Option<CommitOutcome>, HandlerError>)
      modifies store, ledger
      ensures match Handle(old(store.Tables()), payload, gates, old(registry.items), deps)
              case Success(db) => r.Success? && store.Tables() == db
              case Failure(e) => r == Failure(e) && store.Tables() == old(store.Tables())
      ensures match Parse(payload)
              case Success(order) =>
                && r.Success? && (r.value.Some? <==> order.taskId.Some?)
                && ledger.records == old(ledger.records) + Execute(AsRun(order, gates), old(registry.items), deps).records
              case Failure(_) => ledger.records == old(ledger.records)
    {
      match Parse(payload) {
        case Failure(e) => return Failure(Unreadable(e));
        case Success(order) =>
          var outcome := RunAndCommit(order);
          return Success(outcome);
      }
    }

    method RunAndCommit(order: QueuedOrder) returns (outcome: Option<CommitOutcome>)
      modifies store, ledger
      ensures HandleOrder(old(store.Tables()), order, gates, old(registry.items), deps) == Success(store.Tables())
      ensures outcome.Some? <==> order.taskId.Some?
      ensures ledger.records == old(ledger.records) + Execute(AsRun(order, gates), old(registry.items), deps).records
    {
      var status, trace := ExecuteBuffered(order);
      if order.taskId.None? {
        PublishDirectly(trace);
        return None;
      }
      var input := CommitInput(order.taskId.value, order.organizationId, status, trace, order, None);
      CommitIsAtomic(store.Tables(), input);
      var committed := store.CommitTaskOutcome(input);
      return Some(committed.value);
    }

    /** Run the order into a buffer of its own, and drain it. */
    method ExecuteBuffered(order: QueuedOrder) returns (status: WorkOrderStatus, trace: seq<Event>)
      modifies ledger
      ensures var o := Execute(AsRun(order, gates), registry.items, deps);
              && status == o.result.status && trace == StampAll(order, o.trace)
              && ledger.records == old(ledger.records) + o.records
    {
      var buffer := new BufferingEventBus();
      var run := new Run(AsRun(order, gates), deps, buffer, ledger);
      var result := run.ExecuteWorkOrder(registry);
      SameStamps(order, gates, Execute(AsRun(order, gates), registry.items, deps).trace);
      status := result.status;
      trace := buffer.Drain();
    }

    /** An order without a task row: its trace goes straight to the outbox, event by event. */
    method PublishDirectly(trace: seq<Event>)
      modifies store
      ensures store.Tables() == old(store.Tables()).(events := old(store.events) + trace)
    {
      for i := 0 to |trace|
        invariant store.Tables() == old(store.Tables()).(events := old(store.events) + trace[..i])
      {
        assert trace[..i + 1] == trace[..i] + [trace[i]];
        store.events := store.events + [trace[i]];
      }
      assert trace[..|trace|] == trace;
    }
  }

  lemma FlownThenCommitted(s: State, j: nat, order: QueuedOrder, gates: Gates, items: seq<RegisteredCapability>, deps: Deps)
    requires j < |s.jobs| && order.taskId.Some?
    ensures CanCommit(Flown(s, j, order, gates, items, deps), |s.flights|)
    ensures HandleOrder(s.db, order, gates, items, deps)
            == Success(Committed(Flown(s, j, order, gates, items, deps), |s.flights|).db)
  {
    var flown := Flown(s, j, order, gates, items, deps);
    assert flown.flights[|s.flights|].order == order;
    CommitIsAtomic(s.db, InputOf(flown, |s.flights|));
  }

  lemma ExecutionIsAStep(s: State, j: nat, order: QueuedOrder, gates: Gates, items: seq<RegisteredCapability>, deps: Deps)
    requires j < |s.jobs| && s.jobs[j].open && Parse(s.jobs[j].payload) == Success(order)
    ensures Next(s, ExecuteJob(j, gates, items, deps)) == Flown(s, j, order, gates, items, deps)
  {
    var a := ExecuteJob(j, gates, items, deps);
    assert Enabled(s, a);
    assert Step(s, a) == Flown(s, j, order, gates, items, deps);
  }

  lemma CommitIsAStep(s: State, f: nat)
    requires CanCommit(s, f)
    ensures Next(s, CommitFlight(f)) == Committed(s, f)
  {
  }

  /** Handling a readable job without interruption is one execution step and one commit step of the protocol. */
  lemma HandlerRefinesProtocol(s: State, j: nat, order: QueuedOrder, gates: Gates, items: seq<RegisteredCapability>, deps: Deps)
    requires Inv(s) && j < |s.jobs| && s.jobs[j].open && Parse(s.jobs[j].payload) == Success(order)
    ensures var executed := Next(s, ExecuteJob(j, gates, items, deps));
            var committed := Next(executed, CommitFlight(|s.flights|));
            executed.db == s.db && Handle(s.db, s.jobs[j].payload, gates, items, deps) == Success(committed.db)
  {
    assert PayloadFits(s.db, s.jobs[j].key, s.jobs[j].payload);
    ExecutionIsAStep(s, j, order, gates, items, deps);
    FlownThenCommitted(s, j, order, gates, items, deps);
    CommitIsAStep(Flown(s, j, order, gates, items, deps), |s.flights|);
  }

  /**
   * Not only retryable errors are retried: a run that ends because an adapter failed for good is
   * committed as a retry exactly as long as the task has retries left.
   */
  lemma FailureForGoodIsRetried(db: Db, order: QueuedOrder, gates: Gates, items: seq<RegisteredCapability>, deps: Deps)
    requires order.taskId.Some? && order.taskId.value in db.tasks
    requires db.tasks[order.taskId.value].organizationId == order.organizationId
    requires db.tasks[order.taskId.value].task.status == Pending
    requires var run := AsRun(order, gates);
             var cs := Choices(run, items, deps);
             var i := FirstDecisive(run, cs, 0);
             i < |cs| && Judge(run, cs[i], i) == FailsForGood
    ensures var id := order.taskId.value;
            var task := db.tasks[id].task;
            var o := Execute(AsRun(order, gates), items, deps);
            var r := Commit(db, CommitInput(id, order.organizationId, o.result.status, StampAll(order, o.trace), order, None));
            && r.Success? && r.value.1.Applied?
            && (r.value.1.retried <==> task.retryCount < task.maxRetries)
            && id in r.value.0.tasks
            && r.value.0.tasks[id].task.status == (if task.retryCount < task.maxRetries then Pending else Failed)
  {
    RunDecidedByFirstChoice(AsRun(order, gates), items, deps);
    var o := Execute(AsRun(order, gates), items, deps);
    var input := CommitInput(order.taskId.value, order.organizationId, o.result.status, StampAll(order, o.trace), order, None);
    CommitIsAtomic(db, input);
    AppliedRow(db, input);
  }

  // ---------------------------------------------------------------- one order that fails for good

  const ORG: Text := Spell("org")
  const TASK: Text := Spell("task")

  const REASONING_ORDER: QueuedOrder :=
    WorkOrder(ORG, Some(TASK), None, None, [], None, Some(true), None, None, None, None, None,
              Some(ModelRequest([ModelMessage(Spell("user"), Spell("go"))], None, None)), None, None, None)

  function BrokenModel(id: Text): Option<ModelAdapter> {
    Some(ModelAdapter((n: nat) => 0.0, (n: nat) => Threw(DeterministicError)))
  }

  /** One model, wired to an adapter that always throws an error no retry can help. */
  const BROKEN_DEPS: Deps := Deps([COVERING], BrokenModel, None)

  lemma OneModelIsChosen(input: ModelRoutingInput)
    requires input == ModelRoutingInput(5.0, None, None, None, None, {})
    ensures Chain(input, [COVERING]) == [COVERING]
  {
    assert [COVERING][1..] == [];
    assert Filter([COVERING], EligibleFor(input)) == [COVERING];
    assert Filter([COVERING], Covering(5.0)) == [COVERING];
    assert Sort([COVERING], ByCost) == [COVERING];
  }

  lemma OneChoice(gates: Gates)
    ensures Choices(AsRun(REASONING_ORDER, gates), [], BROKEN_DEPS) == [ByModel(COVERING, BrokenModel(COVERING.id).value)]
  {
    var order := AsRun(REASONING_ORDER, gates);
    OneModelIsChosen(ModelInput(order));
    assert [COVERING][1..] == [];
    assert RouteWork(WorkInput(order), []).executionClass == CloudAi;
    assert BROKEN_DEPS.resolveModelAdapter(COVERING.id) == BrokenModel(COVERING.id);
    assert WiredModels(BROKEN_DEPS, []) == [];
    assert WiredModels(BROKEN_DEPS, [COVERING]) == [ByModel(COVERING, BrokenModel(COVERING.id).value)];
    assert Choices(order, [], BROKEN_DEPS) == ModelChoices(order, BROKEN_DEPS);
  }

  lemma BrokenRun(gates: Gates)
    ensures var run := AsRun(REASONING_ORDER, gates);
            var cs, o := Choices(run, [], BROKEN_DEPS), Execute(run, [], BROKEN_DEPS);
            && FirstDecisive(run, cs, 0) == 0 < |cs| && Judge(run, cs[0], 0) == FailsForGood
            && o.executed == [OfModel(COVERING)] && o.result.reason == Some(AdapterError)
  {
    OneChoice(gates);
    RunDecidedByFirstChoice(AsRun(REASONING_ORDER, gates), [], BROKEN_DEPS);
  }

  /** A row as dispatched, and an order whose only model fails for good: the commit retries it. */
  lemma BrokenModelIsRetried(gates: Gates, objectiveId: Text, goal: Text, definitionOfDone: Text)
    ensures var db := Db(map[TASK := Row(ORG, Task(TASK, objectiveId, goal, definitionOfDone, 1, Pending, 0, 3))], [], map[]);
            var o := Execute(AsRun(REASONING_ORDER, gates), [], BROKEN_DEPS);
            var r := Commit(db, CommitInput(TASK, ORG, o.result.status, StampAll(REASONING_ORDER, o.trace), REASONING_ORDER, None));
            && o.executed == [OfModel(COVERING)] && o.result.reason == Some(AdapterError)
            && r.Success? && r.value.1.Applied? && r.value.1.retried
            && TASK in r.value.0.tasks && r.value.0.tasks[TASK].task.status == Pending
  {
    var db := Db(map[TASK := Row(ORG, Task(TASK, objectiveId, goal, definitionOfDone, 1, Pending, 0, 3))], [], map[]);
    BrokenRun(gates);
    FailureForGoodIsRetried(db, REASONING_ORDER, gates, [], BROKEN_DEPS);
  }
}
