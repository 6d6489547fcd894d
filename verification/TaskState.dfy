/**
 * The tables one work order touches, and the two transactions on them: the dispatch
 * (apps/control-plane/src/services/task-dispatcher.ts) and the commit of an outcome
 * (apps/worker/src/task-state.ts).
 */
module TaskState {
  import opened Basics
  import opened Events
  import opened TaskStateMachine
  import opened WorkOrders
  import opened JsonValues
  import opened WorkOrderPayload
  import DispatchPayload

  datatype Row = Row(organizationId: Text, task: Task)

  /**
   * The task table, the event outbox in insertion order, and the payloads of the queued, not running jobs:
   * `add_job` with a key replaces the queued job of that key, or inserts one.
   */
  datatype Db = Db(tasks: map<Text, Row>, events: seq<Event>, queue: map<Text, Json>)

  function AddJob(queue: map<Text, Json>, key: Text, payload: Json): map<Text, Json> {
    queue[key := payload]
  }

  // ---------------------------------------------------------------- dispatch

  datatype DispatchInput = DispatchInput(
    objectiveId: Text,
    goal: Text,
    definitionOfDone: Text,
    requiredAuthority: Option<int>,
    hints: RawHints
  )

  function NewTask(id: Text, input: DispatchInput): Task {
    Task(id, input.objectiveId, input.goal, input.definitionOfDone, input.requiredAuthority.GetOr(1), Pending, 0, 3)
  }

  function Dispatch(db: Db, id: Text, organizationId: Text, actor: Actor, input: DispatchInput): Db {
    Db(
      db.tasks[id := Row(organizationId, NewTask(id, input))],
      db.events + [Event(TaskCreated, organizationId, Some(id), actor, None)],
      AddJob(db.queue, id, DispatchPayload.Payload(id, organizationId, input.hints)))
  }

  // ---------------------------------------------------------------- commit

  function TargetStatusForResult(s: WorkOrderStatus): TaskStatus {
    match s
    case OrderCompleted => Completed
    case OrderFailed => Failed
    case ApprovalNeeded => AwaitingApproval
    case Denied => Blocked
    case OrderBlocked => Blocked
    case BudgetExceeded => Blocked
    case AwaitingHuman => Blocked
  }

  function PathToTarget(target: TaskStatus): seq<TaskStatus> {
    if target == Blocked then [Planned, Blocked] else [Planned, Assigned, Running, target]
  }

  datatype CommitInput = CommitInput(
    taskId: Text,
    organizationId: Text,
    status: WorkOrderStatus,
    events: seq<Event>,
    order: QueuedOrder,
    actor: Option<Actor>
  )

  datatype Refusal = NotFound | AlreadyTerminal | NotPending

  datatype CommitOutcome =
    | Applied(status: TaskStatus, retried: bool)
    | Refused(reason: Refusal)

  /** Step along a path, as long as every step is legal. */
  function Walk(status: TaskStatus, path: seq<TaskStatus>): Result<TaskStatus, IllegalTransition>
    decreases path
  {
    if path == [] then Success(status)
    else if !CanTransition(status, path[0]) then Failure(IllegalTransition(status, path[0]))
    else Walk(path[0], path[1..])
  }

  const WORKER: Actor := Actor(OrchestratorActor, Spell("worker"))

  function RetryEvent(input: CommitInput): Event {
    Event(TaskRetried, input.organizationId, Some(input.taskId), input.actor.GetOr(WORKER), None)
  }

  /** The transaction; a thrown transition error rolls it back. */
  function Commit(db: Db, input: CommitInput): Result<(Db, CommitOutcome), IllegalTransition> {
    if input.taskId !in db.tasks || db.tasks[input.taskId].organizationId != input.organizationId then
      Success((db, Refused(NotFound)))
    else
      var row := db.tasks[input.taskId];
      if IsTerminal(row.task.status) then Success((db, Refused(AlreadyTerminal)))
      else if row.task.status != Pending then Success((db, Refused(NotPending)))
      else
        var target := TargetStatusForResult(input.status);
        match Walk(Pending, PathToTarget(target))
        case Failure(e) => Failure(e)
        case Success(status) =>
          if target == Failed && row.task.retryCount < row.task.maxRetries then
            if !CanTransition(status, Pending) then Failure(IllegalTransition(status, Pending))
            else
              Success((
                Db(
                  db.tasks[input.taskId := row.(task := row.task.(status := Pending, retryCount := row.task.retryCount + 1))],
                  db.events + input.events + [RetryEvent(input)],
                  AddJob(db.queue, input.taskId, JobPayload(input.order))),
                Applied(Pending, true)))
          else
            Success((
              Db(
                db.tasks[input.taskId := row.(task := row.task.(status := status))],
                db.events + input.events,
                db.queue),
              Applied(status, false)))
  }

  class TaskStateStore {
    var tasks: map<Text, Row>
    var events: seq<Event>
    var queue: map<Text, Json>

    constructor ()
      ensures Tables() == Db(map[], [], map[])
    {
      tasks, events, queue := map[], [], map[];
    }

    function Tables(): Db
      reads this
    {
      Db(tasks, events, queue)
    }

    method DispatchTask(id: Text, organizationId: Text, actor: Actor, input: DispatchInput) returns (task: Task)
      requires id !in tasks
      modifies this
      ensures Tables() == Dispatch(old(Tables()), id, organizationId, actor, input)
      ensures task == NewTask(id, input)
    {
      task := NewTask(id, input);
      tasks := tasks[id := Row(organizationId, task)];
      events := events + [Event(TaskCreated, organizationId, Some(id), actor, None)];
      queue := AddJob(queue, id, DispatchPayload.Payload(id, organizationId, input.hints));
    }

    method CommitTaskOutcome(input: CommitInput) returns (r: Result<CommitOutcome, IllegalTransition>)
      modifies this
      ensures match Commit(old(Tables()), input)
              case Success(p) => Tables() == p.0 && r == Success(p.1)
              case Failure(e) => Tables() == old(Tables()) && r == Failure(e)
    {
      if input.taskId !in tasks || tasks[input.taskId].organizationId != input.organizationId {
        return Success(Refused(NotFound));
      }
      var row := tasks[input.taskId];
      if IsTerminal(row.task.status) {
        return Success(Refused(AlreadyTerminal));
      }
      if row.task.status != Pending {
        return Success(Refused(NotPending));
      }
      var traced := events + input.events;

      var target := TargetStatusForResult(input.status);
      var path := PathToTarget(target);
      var status := row.task.status;
      for i := 0 to |path|
        invariant Walk(status, path[i..]) == Walk(Pending, path)
      {
        assert path[i..][1..] == path[i + 1..];
        if !CanTransition(status, path[i]) {
          return Failure(IllegalTransition(status, path[i]));
        }
        status := path[i];
      }

      var retryCount, retried := row.task.retryCount, false;
      if target == Failed && retryCount < row.task.maxRetries {
        if !CanTransition(status, Pending) {
          return Failure(IllegalTransition(status, Pending));
        }
        status := Pending;
        retryCount := retryCount + 1;
        retried := true;
      }

      events := traced;
      tasks := tasks[input.taskId := row.(task := row.task.(status := status, retryCount := retryCount))];
      if retried {
        events := events + [RetryEvent(input)];
        queue := AddJob(queue, input.taskId, JobPayload(input.order));
      }
      return Success(Applied(status, retried));
    }
  }

  // ---------------------------------------------------------------- what a commit does

  /** Fold the domain machine along a path. */
  function TransitionAlong(t: Task, path: seq<TaskStatus>): Result<Task, IllegalTransition>
    decreases path
  {
    if path == [] then Success(t)
    else
      match Transition(t, path[0])
      case Failure(e) => Failure(e)
      case Success(u) => TransitionAlong(u, path[1..])
  }

  /** Where the domain machine takes a pending task: to its target, and back if that is a legal retry. */
  function DomainOutcome(t: Task, s: WorkOrderStatus): Result<Task, IllegalTransition> {
    match TransitionAlong(t, PathToTarget(TargetStatusForResult(s)))
    case Failure(e) => Failure(e)
    case Success(u) =>
      match Transition(u, Pending)
      case Success(v) => Success(v)
      case Failure(_) => Success(u)
  }

  lemma PathIsLegal(t: Task, s: WorkOrderStatus)
    requires t.status == Pending
    ensures var target := TargetStatusForResult(s);
            && Walk(Pending, PathToTarget(target)) == Success(target)
            && TransitionAlong(t, PathToTarget(target)) == Success(t.(status := target))
  {
    var target := TargetStatusForResult(s);
    if target == Blocked {
      var a := t.(status := Planned);
      assert [Planned, Blocked][1..] == [Blocked] && [Blocked][1..] == [];
      assert Transition(t, Planned) == Success(a);
      assert TransitionAlong(a, [Blocked]) == TransitionAlong(a.(status := Blocked), []);
      assert Walk(Planned, [Blocked]) == Walk(Blocked, []);
    } else {
      var a, b, c := t.(status := Planned), t.(status := Assigned), t.(status := Running);
      assert [Planned, Assigned, Running, target][1..] == [Assigned, Running, target];
      assert [Assigned, Running, target][1..] == [Running, target];
      assert [Running, target][1..] == [target] && [target][1..] == [];
      assert CanTransition(Running, target);
      assert Walk(Running, [target]) == Walk(target, []) == Success(target);
      assert Walk(Assigned, [Running, target]) == Success(target);
      assert Walk(Planned, [Assigned, Running, target]) == Success(target);
      assert TransitionAlong(c, [target]) == TransitionAlong(c.(status := target), []);
      assert TransitionAlong(b, [Running, target]) == TransitionAlong(c, [target]);
      assert TransitionAlong(a, [Assigned, Running, target]) == TransitionAlong(b, [Running, target]);
    }
  }

  /**
   * A commit on a pending row is a run of the domain machine: it ends where folding
   * `transition` along the path ends, retrying exactly when `transition` allows the retry.
   */
  lemma CommitFollowsDomain(db: Db, input: CommitInput)
    requires input.taskId in db.tasks && db.tasks[input.taskId].organizationId == input.organizationId
    requires db.tasks[input.taskId].task.status == Pending
    ensures Commit(db, input).Success? && Commit(db, input).value.1.Applied?
    ensures DomainOutcome(db.tasks[input.taskId].task, input.status)
            == Success(Commit(db, input).value.0.tasks[input.taskId].task)
    ensures var out := Commit(db, input).value.1;
            && out.status == Commit(db, input).value.0.tasks[input.taskId].task.status
            && (out.retried <==> out.status == Pending)
  {
    PathIsLegal(db.tasks[input.taskId].task, input.status);
  }

  /**
   * The commit never throws.  It is refused, writing nothing, exactly when its row is missing,
   * of another tenant, or no longer pending; otherwise the trace lands in the log together with
   * the row, a retry adds its event and its job, and no other row is touched.
   */
  lemma CommitIsAtomic(db: Db, input: CommitInput)
    ensures Commit(db, input).Success?
    ensures var (after, out) := Commit(db, input).value;
            var found := input.taskId in db.tasks && db.tasks[input.taskId].organizationId == input.organizationId;
            && (out.Refused? <==> !(found && db.tasks[input.taskId].task.status == Pending))
            && (out.Refused? ==> after == db)
            && (out.Applied? ==>
                  && after.tasks.Keys == db.tasks.Keys
                  && (forall t :: t in db.tasks && t != input.taskId ==> after.tasks[t] == db.tasks[t])
                  && after.tasks[input.taskId].organizationId == input.organizationId
                  && after.events == db.events + input.events + (if out.retried then [RetryEvent(input)] else [])
                  && after.queue == if out.retried then AddJob(db.queue, input.taskId, JobPayload(input.order)) else db.queue)
  {
    if input.taskId in db.tasks && db.tasks[input.taskId].organizationId == input.organizationId {
      var t := db.tasks[input.taskId].task;
      if t.status == Pending {
        PathIsLegal(t, input.status);
      }
    }
  }

  /** The row an applied commit leaves, spelt out. */
  lemma AppliedRow(db: Db, input: CommitInput)
    requires Commit(db, input).Success? && Commit(db, input).value.1.Applied?
    ensures input.taskId in db.tasks && db.tasks[input.taskId].task.status == Pending
    ensures var (after, out) := Commit(db, input).value;
            var task, target := db.tasks[input.taskId].task, TargetStatusForResult(input.status);
            && input.taskId in after.tasks
            && (out.retried <==> target == Failed && task.retryCount < task.maxRetries)
            && after.tasks[input.taskId].task ==
               if out.retried then task.(retryCount := task.retryCount + 1) else task.(status := target)
  {
    PathIsLegal(db.tasks[input.taskId].task, input.status);
  }
}
