/**
 * The durable execution protocol as a step machine: dispatch, queue, workers, commit.  Each
 * database transaction is one step; workers may hold any number of runs of the same job, and
 * may die between any two steps, so every interleaving of stale, duplicate and lost runs is a
 * sequence of these actions.
 */
module TaskProtocol {
  import opened Basics
  import opened StableSort
  import opened Events
  import opened WorkRouter
  import opened JsonValues
  import opened WorkOrders
  import opened WorkOrderPayload
  import opened DispatchPayload
  import opened Orchestrator
  import opened OrchestratorRuns
  import opened TaskStateMachine
  import opened TaskState

  /** A job a worker has taken: it is redelivered until some handler of it returns. */
  datatype Job = Job(key: Text, payload: Json, open: bool, committed: bool)

  datatype FlightStage = Executed | Returning | Over

  /** One execution of a job: the order it read, and the result and private buffer it holds until it commits. */
  datatype Flight = Flight(job: nat, order: QueuedOrder, status: WorkOrderStatus, trace: seq<EventType>, stage: FlightStage)

  /**
   * `spent` is bookkeeping of the model: the keys whose queued job was put back after a handler
   * of it had committed.
   */
  datatype State = State(db: Db, jobs: seq<Job>, flights: seq<Flight>, spent: set<Text>)

  const INIT: State := State(Db(map[], [], map[]), [], [], {})

  datatype Action =
    | DispatchTask(id: Text, organizationId: Text, actor: Actor, input: DispatchInput)
    | TakeJob(key: Text)
    | ReleaseJob(job: nat)
    | ExecuteJob(job: nat, gates: Gates, items: seq<RegisteredCapability>, deps: Deps)
    | CommitFlight(flight: nat)
    | FinishFlight(flight: nat)
    | LoseFlight(flight: nat)
    | RunAdHoc(payload: Json, gates: Gates, items: seq<RegisteredCapability>, deps: Deps)

  /** A handler whose payload cannot be read throws before it executes anything: no step. */
  predicate Enabled(s: State, a: Action) {
    match a
    case DispatchTask(id, _, _, _) => id !in s.db.tasks
    case TakeJob(key) => key in s.db.queue
    case ReleaseJob(j) => j < |s.jobs| && s.jobs[j].open && s.jobs[j].key !in s.db.queue
    case ExecuteJob(j, _, _, _) => j < |s.jobs| && s.jobs[j].open && Parse(s.jobs[j].payload).Success?
    case CommitFlight(f) => CanCommit(s, f)
    case FinishFlight(f) => f < |s.flights| && s.flights[f].stage == Returning && s.flights[f].job < |s.jobs|
    case LoseFlight(f) => f < |s.flights|
    case RunAdHoc(payload, _, _, _) => Parse(payload).Success? && Parse(payload).value.taskId.None?
  }

  predicate CanCommit(s: State, f: nat) {
    && f < |s.flights| && s.flights[f].stage == Executed && s.flights[f].job < |s.jobs|
    && s.flights[f].order.taskId.Some?
  }

  function InputOf(s: State, f: nat): CommitInput
    requires CanCommit(s, f)
  {
    var flight := s.flights[f];
    CommitInput(flight.order.taskId.value, flight.order.organizationId, flight.status,
                StampAll(flight.order, flight.trace), flight.order, None)
  }

  /** The commit put a job of its own in the queue. */
  predicate Requeues(outcome: CommitOutcome) {
    outcome.Applied? && outcome.retried
  }

  /** The commit of a flight; its handler has yet to return, unless the commit threw. */
  function Committed(s: State, f: nat): State
    requires CanCommit(s, f)
  {
    match Commit(s.db, InputOf(s, f))
    case Failure(_) => s.(flights := s.flights[f := s.flights[f].(stage := Over)])
    case Success(p) =>
      var j := s.flights[f].job;
      State(p.0, s.jobs[j := s.jobs[j].(committed := true)], s.flights[f := s.flights[f].(stage := Returning)],
            if Requeues(p.1) then s.spent - {InputOf(s, f).taskId} else s.spent)
  }

  /** The state after a run of a readable job, before its commit. */
  function Flown(s: State, j: nat, order: QueuedOrder, gates: Gates, items: seq<RegisteredCapability>, deps: Deps): State {
    var o := Execute(AsRun(order, gates), items, deps);
    s.(flights := s.flights + [Flight(j, order, o.result.status, o.trace, Executed)])
  }

  function Step(s: State, a: Action): State
    requires Enabled(s, a)
  {
    match a
    case DispatchTask(id, org, actor, input) => s.(db := Dispatch(s.db, id, org, actor, input), spent := s.spent - {id})
    case TakeJob(key) =>
      s.(db := s.db.(queue := s.db.queue - {key}), jobs := s.jobs + [Job(key, s.db.queue[key], true, key in s.spent)],
      spent := s.spent - {key})
    case ReleaseJob(j) =>
      s.(db := s.db.(queue := AddJob(s.db.queue, s.jobs[j].key, s.jobs[j].payload)),
      jobs := s.jobs[j := s.jobs[j].(open := false)],
      spent := if s.jobs[j].committed then s.spent + {s.jobs[j].key} else s.spent - {s.jobs[j].key})
    case ExecuteJob(j, gates, items, deps) =>
      Flown(s, j, Parse(s.jobs[j].payload).value, gates, items, deps)
    case CommitFlight(f) => Committed(s, f)
    case FinishFlight(f) =>
      var j := s.flights[f].job;
      s.(jobs := s.jobs[j := s.jobs[j].(open := false)], flights := s.flights[f := s.flights[f].(stage := Over)])
    case LoseFlight(f) => s.(flights := s.flights[f := s.flights[f].(stage := Over)])
    case RunAdHoc(payload, gates, items, deps) =>
      var order := Parse(payload).value;
      s.(db := s.db.(events := s.db.events + StampAll(order, Execute(AsRun(order, gates), items, deps).trace)))
  }

  /** An action that is not possible does not happen. */
  function Next(s: State, a: Action): State {
    if Enabled(s, a) then Step(s, a) else s
  }

  function Reach(s: State, actions: seq<Action>): State
    decreases actions
  {
    if actions == [] then s else Reach(Next(s, actions[0]), actions[1..])
  }

  // ---------------------------------------------------------------- a task's own log

  function OfTask(t: Text): Event -> bool { (e: Event) => e.taskId == Some(t) }

  function Kinds(events: seq<Event>): (r: seq<EventType>)
    ensures |r| == |events|
    ensures forall i :: 0 <= i < |r| ==> r[i] == events[i].kind
  {
    seq(|events|, i requires 0 <= i < |events| => events[i].kind)
  }

  /** The kinds of a task's events, in commit order. */
  function Log(db: Db, t: Text): seq<EventType> {
    Kinds(Filter(db.events, OfTask(t)))
  }

  /** What a reader of the log alone takes the task to be. */
  datatype View = View(status: Option<TaskStatus>, retries: int)

  function Read(v: View, k: EventType): View {
    match k
    case TaskCreated => v.(status := Some(Pending))
    case TaskRetried => View(Some(Pending), v.retries + 1)
    case TaskCompleted => v.(status := Some(Completed))
    case TaskFailed => v.(status := Some(Failed))
    case TaskBlocked => v.(status := Some(Blocked))
    case ApprovalRequested => v.(status := Some(AwaitingApproval))
    case _ => v
  }

  function Replay(v: View, ks: seq<EventType>): View
    decreases ks
  {
    if ks == [] then v else Replay(Read(v, ks[0]), ks[1..])
  }

  /** A trace the orchestrator can leave behind with this result. */
  ghost predicate LegalTrace(ks: seq<EventType>, s: WorkOrderStatus) {
    if s == Denied then ks == [TaskBlocked]
    else if s == ApprovalNeeded then ks == [ApprovalRequested]
    else exists n: nat :: ks == [TaskPlanned] + Pairs(n) + [Terminal(s)]
  }

  /** created (failed-trace retried)^k */
  ghost predicate Waiting(ks: seq<EventType>, k: int)
    decreases k
  {
    if k <= 0 then k == 0 && ks == [TaskCreated]
    else exists before, trace :: Waiting(before, k - 1) && LegalTrace(trace, OrderFailed) && ks == before + trace + [TaskRetried]
  }

  /** created (failed-trace retried)^k final-trace */
  ghost predicate Settled(ks: seq<EventType>, k: int, status: TaskStatus) {
    exists before, trace, s ::
      Waiting(before, k) && LegalTrace(trace, s) && TargetStatusForResult(s) == status && ks == before + trace
  }

  ghost predicate Life(ks: seq<EventType>, k: int, status: TaskStatus) {
    if status == Pending then Waiting(ks, k) else Settled(ks, k, status)
  }

  lemma {:induction false} ReplayAppend(v: View, a: seq<EventType>, b: seq<EventType>)
    ensures Replay(v, a + b) == Replay(Replay(v, a), b)
    decreases a
  {
    if a == [] {
      assert a + b == b;
    } else {
      assert (a + b)[1..] == a[1..] + b;
      ReplayAppend(Read(v, a[0]), a[1..], b);
    }
  }

  lemma {:induction false} ReplayPairs(v: View, n: nat)
    ensures Replay(v, Pairs(n)) == v
  {
    if n > 0 {
      ReplayPairs(v, n - 1);
      ReplayAppend(v, Pairs(n - 1), [WorkerStarted, ToolCalled]);
      assert [WorkerStarted, ToolCalled][1..] == [ToolCalled] && [ToolCalled][1..] == [];
      assert Replay(v, [ToolCalled]) == v;
    }
  }

  lemma ReplayOne(v: View, k: EventType)
    ensures Replay(v, [k]) == Read(v, k)
  {
    assert [k][1..] == [];
  }

  /** A trace moves a reader to the durable status the commit picks. */
  lemma ReplayTrace(v: View, ks: seq<EventType>, s: WorkOrderStatus)
    requires LegalTrace(ks, s)
    ensures Replay(v, ks) == v.(status := Some(TargetStatusForResult(s)))
  {
    if s == Denied || s == ApprovalNeeded {
      ReplayOne(v, ks[0]);
    } else {
      var n: nat :| ks == [TaskPlanned] + Pairs(n) + [Terminal(s)];
      ReplayAppend(v, [TaskPlanned] + Pairs(n), [Terminal(s)]);
      ReplayAppend(v, [TaskPlanned], Pairs(n));
      ReplayOne(v, TaskPlanned);
      ReplayPairs(v, n);
      ReplayOne(v, Terminal(s));
    }
  }

  const NOTHING: View := View(None, 0)

  lemma {:induction false} ReplayWaiting(ks: seq<EventType>, k: int)
    requires Waiting(ks, k)
    ensures Replay(NOTHING, ks) == View(Some(Pending), k)
    decreases k
  {
    if k == 0 {
      ReplayOne(NOTHING, TaskCreated);
    } else {
      var before, trace :| Waiting(before, k - 1) && LegalTrace(trace, OrderFailed) && ks == before + trace + [TaskRetried];
      ReplayWaiting(before, k - 1);
      ReplayAppend(NOTHING, before + trace, [TaskRetried]);
      ReplayAppend(NOTHING, before, trace);
      ReplayTrace(Replay(NOTHING, before), trace, OrderFailed);
      ReplayOne(Replay(NOTHING, before + trace), TaskRetried);
    }
  }

  lemma ReplayLife(ks: seq<EventType>, k: int, status: TaskStatus)
    requires Life(ks, k, status)
    ensures Replay(NOTHING, ks) == View(Some(status), k)
  {
    if status == Pending {
      ReplayWaiting(ks, k);
    } else {
      var before, trace, s :|
        Waiting(before, k) && LegalTrace(trace, s) && TargetStatusForResult(s) == status && ks == before + trace;
      ReplayWaiting(before, k);
      ReplayAppend(NOTHING, before, trace);
      ReplayTrace(Replay(NOTHING, before), trace, s);
    }
  }

  // ---------------------------------------------------------------- the invariant

  ghost predicate OrderFits(db: Db, key: Text, order: QueuedOrder) {
    && key in db.tasks
    && order.taskId == Some(key)
    && order.organizationId == db.tasks[key].organizationId
  }

  /** A payload, if it can be read, carries an order of the task its job is for. */
  ghost predicate PayloadFits(db: Db, key: Text, payload: Json) {
    key in db.tasks && (Parse(payload).Success? ==> OrderFits(db, key, Parse(payload).value))
  }

  ghost predicate JobsFit(s: State) {
    && (forall key :: key in s.db.queue ==> PayloadFits(s.db, key, s.db.queue[key]))
    && (forall j :: 0 <= j < |s.jobs| ==> PayloadFits(s.db, s.jobs[j].key, s.jobs[j].payload))
  }

  ghost predicate FlightFits(s: State, f: Flight) {
    && f.job < |s.jobs|
    && OrderFits(s.db, s.jobs[f.job].key, f.order)
    && LegalTrace(f.trace, f.status)
  }

  ghost predicate FlightsFit(s: State) {
    forall f :: 0 <= f < |s.flights| ==> FlightFits(s, s.flights[f])
  }

  ghost predicate EventsFit(db: Db) {
    forall e :: e in db.events && e.taskId.Some? ==> e.taskId.value in db.tasks
  }

  /** A job of the task that no handler has committed for: queued, or taken and open. */
  ghost predicate HasJob(s: State, t: Text) {
    || (t in s.db.queue && t !in s.spent)
    || exists j :: 0 <= j < |s.jobs| && s.jobs[j].key == t && s.jobs[j].open && !s.jobs[j].committed
  }

  ghost predicate RowFits(db: Db, t: Text)
    requires t in db.tasks
  {
    var task := db.tasks[t].task;
    && 0 <= task.retryCount <= task.maxRetries == 3
    && (task.status == Failed ==> task.retryCount == task.maxRetries)
    && Life(Log(db, t), task.retryCount, task.status)
  }

  ghost predicate Inv(s: State) {
    && JobsFit(s) && FlightsFit(s) && EventsFit(s.db)
    && forall t :: t in s.db.tasks ==> RowFits(s.db, t) && (s.db.tasks[t].task.status == Pending ==> HasJob(s, t))
  }

  lemma LogMore(db: Db, more: seq<Event>, t: Text, after: Db)
    requires after.events == db.events + more
    ensures Log(after, t) == Log(db, t) + Kinds(Filter(more, OfTask(t)))
  {
    FilterAppend(db.events, more, OfTask(t));
  }

  lemma StampedLog(order: QueuedOrder, kinds: seq<EventType>, t: Text)
    ensures Kinds(Filter(StampAll(order, kinds), OfTask(t))) == if order.taskId == Some(t) then kinds else []
  {
    if order.taskId == Some(t) {
      FilterAll(StampAll(order, kinds), OfTask(t));
    } else {
      FilterNone(StampAll(order, kinds), OfTask(t));
    }
  }

  lemma {:induction false} EmptyLog(db: Db, t: Text)
    requires EventsFit(db) && t !in db.tasks
    ensures Log(db, t) == []
  {
    FilterNone(db.events, OfTask(t));
  }

  lemma OneEvent(e: Event, t: Text)
    ensures Kinds(Filter([e], OfTask(t))) == if e.taskId == Some(t) then [e.kind] else []
  {
    assert [e][1..] == [];
  }

  lemma LegalTraces(order: Order, items: seq<RegisteredCapability>, deps: Deps)
    ensures LegalTrace(Execute(order, items, deps).trace, Execute(order, items, deps).result.status)
  {
    TraceGrammar(order, items, deps);
  }

  // ---------------------------------------------------------------- every step keeps it

  /** Rows keep their tenants, so whatever fitted still fits. */
  lemma StillFit(db: Db, after: Db)
    requires forall t :: t in db.tasks ==> t in after.tasks && after.tasks[t].organizationId == db.tasks[t].organizationId
    ensures forall k, o :: OrderFits(db, k, o) ==> OrderFits(after, k, o)
    ensures forall k, p :: PayloadFits(db, k, p) ==> PayloadFits(after, k, p)
  {
  }

  /** What arrives of an order is for the same task and tenant. */
  lemma PayloadOfOrderFits(db: Db, key: Text, order: QueuedOrder)
    requires OrderFits(db, key, order)
    ensures PayloadFits(db, key, JobPayload(order))
  {
    RoundTrip(order);
  }

  lemma DispatchedPayloadFits(db: Db, id: Text, organizationId: Text, hints: RawHints)
    requires id in db.tasks && db.tasks[id].organizationId == organizationId
    ensures PayloadFits(db, id, Payload(id, organizationId, hints))
  {
    PayloadReads(id, organizationId, hints);
  }

  lemma DispatchFits(s: State, a: Action)
    requires Inv(s) && Enabled(s, a) && a.DispatchTask?
    ensures JobsFit(Step(s, a)) && FlightsFit(Step(s, a))
  {
    var n := Step(s, a);
    StillFit(s.db, n.db);
    DispatchedPayloadFits(n.db, a.id, a.organizationId, a.input.hints);
    forall key | key in n.db.queue ensures PayloadFits(n.db, key, n.db.queue[key]) {
      assert key in s.db.queue ==> PayloadFits(s.db, key, s.db.queue[key]);
    }
    forall j | 0 <= j < |n.jobs| ensures PayloadFits(n.db, n.jobs[j].key, n.jobs[j].payload) {
      assert PayloadFits(s.db, s.jobs[j].key, s.jobs[j].payload);
    }
    forall f | 0 <= f < |n.flights| ensures FlightFits(n, n.flights[f]) {
      assert FlightFits(s, s.flights[f]);
    }
  }

  lemma DispatchKeeps(s: State, a: Action)
    requires Inv(s) && Enabled(s, a) && a.DispatchTask?
    ensures Inv(Step(s, a))
  {
    var n := Step(s, a);
    var e := n.db.events[|s.db.events|];
    assert n.db.events == s.db.events + [e];
    DispatchFits(s, a);
    EmptyLog(s.db, a.id);
    forall t | t in n.db.tasks ensures RowFits(n.db, t) && (n.db.tasks[t].task.status == Pending ==> HasJob(n, t)) {
      LogMore(s.db, [e], t, n.db);
      OneEvent(e, t);
      if t != a.id {
        assert RowFits(s.db, t);
      }
    }
  }

  lemma QueueMoveFits(s: State, a: Action)
    requires JobsFit(s) && FlightsFit(s) && Enabled(s, a) && (a.TakeJob? || a.ReleaseJob?)
    ensures JobsFit(Step(s, a)) && FlightsFit(Step(s, a))
  {
    var n := Step(s, a);
    StillFit(s.db, n.db);
    forall key | key in n.db.queue ensures PayloadFits(n.db, key, n.db.queue[key]) {
      assert key in s.db.queue ==> PayloadFits(s.db, key, s.db.queue[key]);
    }
    forall j | 0 <= j < |n.jobs| ensures PayloadFits(n.db, n.jobs[j].key, n.jobs[j].payload) {
      assert j < |s.jobs| ==> PayloadFits(s.db, s.jobs[j].key, s.jobs[j].payload);
    }
    forall f | 0 <= f < |n.flights| ensures FlightFits(n, n.flights[f]) {
      assert FlightFits(s, s.flights[f]);
    }
  }

  lemma QueueMoveKeeps(s: State, a: Action)
    requires Inv(s) && Enabled(s, a) && (a.TakeJob? || a.ReleaseJob?)
    ensures Inv(Step(s, a))
  {
    var n := Step(s, a);
    QueueMoveFits(s, a);
    forall t | t in n.db.tasks ensures RowFits(n.db, t) && (n.db.tasks[t].task.status == Pending ==> HasJob(n, t)) {
      assert Log(n.db, t) == Log(s.db, t) && RowFits(s.db, t);
      if s.db.tasks[t].task.status == Pending {
        MovedJob(s, a, t);
      }
    }
  }

  lemma MovedJob(s: State, a: Action, t: Text)
    requires Enabled(s, a) && (a.TakeJob? || a.ReleaseJob?) && HasJob(s, t)
    ensures HasJob(Step(s, a), t)
  {
    var n := Step(s, a);
    if t in s.db.queue && t !in s.spent {
      if a.TakeJob? && a.key == t {
        assert n.jobs[|s.jobs|].key == t;
      }
    } else {
      var j :| 0 <= j < |s.jobs| && s.jobs[j].key == t && s.jobs[j].open && !s.jobs[j].committed;
      if !(a.ReleaseJob? && a.job == j) {
        assert n.jobs[j] == s.jobs[j];
      }
    }
  }

  /** Jobs and flights that only changed their marks still fit. */
  lemma MarkedJobsFit(s: State, n: State)
    requires JobsFit(s) && FlightsFit(s) && n.db == s.db
    requires |n.jobs| == |s.jobs| && |n.flights| == |s.flights|
    requires forall j :: 0 <= j < |s.jobs| ==> n.jobs[j].key == s.jobs[j].key && n.jobs[j].payload == s.jobs[j].payload
    requires forall f :: 0 <= f < |s.flights| ==> n.flights[f] == s.flights[f].(stage := n.flights[f].stage)
    ensures JobsFit(n) && FlightsFit(n)
  {
    forall j | 0 <= j < |n.jobs| ensures PayloadFits(n.db, n.jobs[j].key, n.jobs[j].payload) {
      assert PayloadFits(s.db, s.jobs[j].key, s.jobs[j].payload);
    }
    forall f | 0 <= f < |n.flights| ensures FlightFits(n, n.flights[f]) {
      assert FlightFits(s, s.flights[f]);
    }
  }

  lemma ExecutedFits(s: State, a: Action)
    requires JobsFit(s) && FlightsFit(s) && Enabled(s, a) && a.ExecuteJob?
    ensures FlightsFit(Step(s, a))
  {
    var n := Step(s, a);
    LegalTraces(AsRun(Parse(s.jobs[a.job].payload).value, a.gates), a.items, a.deps);
    assert PayloadFits(s.db, s.jobs[a.job].key, s.jobs[a.job].payload);
    forall f | 0 <= f < |n.flights| ensures FlightFits(n, n.flights[f]) {
      assert f < |s.flights| ==> FlightFits(s, s.flights[f]);
    }
  }

  lemma FlightMoveKeeps(s: State, a: Action)
    requires Inv(s) && Enabled(s, a) && (a.ExecuteJob? || a.LoseFlight?)
    ensures Inv(Step(s, a))
  {
    var n := Step(s, a);
    if a.ExecuteJob? {
      ExecutedFits(s, a);
    } else {
      MarkedJobsFit(s, n);
    }
    SameRows(s, n);
  }

  /** Rows, logs and pending jobs are not affected by what happens to flights. */
  lemma SameRows(s: State, n: State)
    requires Inv(s) && n.db == s.db && n.jobs == s.jobs && n.spent == s.spent && JobsFit(n) && FlightsFit(n)
    ensures Inv(n)
  {
    forall t | t in n.db.tasks ensures RowFits(n.db, t) && (n.db.tasks[t].task.status == Pending ==> HasJob(n, t)) {
      assert RowFits(s.db, t);
    }
  }

  /** A handler returns only after its commit, so the job it deletes is nobody's last hope. */
  ghost predicate ReturningCommitted(s: State) {
    forall f :: 0 <= f < |s.flights| && s.flights[f].stage == Returning && s.flights[f].job < |s.jobs| ==>
                  s.jobs[s.flights[f].job].committed
  }

  lemma FinishKeeps(s: State, a: Action)
    requires Inv(s) && ReturningCommitted(s) && Enabled(s, a) && a.FinishFlight?
    ensures Inv(Step(s, a))
  {
    var n := Step(s, a);
    MarkedJobsFit(s, n);
    forall t | t in n.db.tasks ensures RowFits(n.db, t) && (n.db.tasks[t].task.status == Pending ==> HasJob(n, t)) {
      assert RowFits(s.db, t);
      if s.db.tasks[t].task.status == Pending {
        FinishedJob(s, a, t);
      }
    }
  }

  lemma FinishedJob(s: State, a: Action, t: Text)
    requires ReturningCommitted(s) && Enabled(s, a) && a.FinishFlight? && HasJob(s, t)
    ensures HasJob(Step(s, a), t)
  {
    var n := Step(s, a);
    if !(t in s.db.queue && t !in s.spent) {
      var j :| 0 <= j < |s.jobs| && s.jobs[j].key == t && s.jobs[j].open && !s.jobs[j].committed;
      assert n.jobs[j] == s.jobs[j];
    }
  }

  lemma AdHocKeeps(s: State, a: Action)
    requires Inv(s) && Enabled(s, a) && a.RunAdHoc?
    ensures Inv(Step(s, a))
  {
    var n := Step(s, a);
    var order := Parse(a.payload).value;
    var trace := Execute(AsRun(order, a.gates), a.items, a.deps).trace;
    forall t | t in n.db.tasks ensures RowFits(n.db, t) && (n.db.tasks[t].task.status == Pending ==> HasJob(n, t)) {
      LogMore(s.db, StampAll(order, trace), t, n.db);
      StampedLog(order, trace, t);
      assert RowFits(s.db, t);
    }
  }

  /** What an applied commit appends to a task's log. */
  lemma AppliedLog(db: Db, order: QueuedOrder, trace: seq<EventType>, last: seq<Event>, t: Text, after: Db)
    requires order.taskId.Some? && after.events == db.events + StampAll(order, trace) + last
    requires last == [] || (|last| == 1 && last[0].kind == TaskRetried && last[0].taskId == order.taskId)
    ensures Log(after, t) == if order.taskId == Some(t) then Log(db, t) + trace + Kinds(last) else Log(db, t)
  {
    var mid := db.(events := db.events + StampAll(order, trace));
    LogMore(db, StampAll(order, trace), t, mid);
    LogMore(mid, last, t, after);
    StampedLog(order, trace, t);
    LastLog(order, last, t);
    assert Log(db, t) + [] + [] == Log(db, t);
  }

  lemma LastLog(order: QueuedOrder, last: seq<Event>, t: Text)
    requires last == [] || (|last| == 1 && last[0].taskId == order.taskId)
    ensures Kinds(Filter(last, OfTask(t))) == if order.taskId == Some(t) then Kinds(last) else []
  {
    if last != [] {
      assert last == [last[0]];
      OneEvent(last[0], t);
    }
  }

  /** A log goes on as the row does. */
  lemma RetriedLife(ks: seq<EventType>, k: int, trace: seq<EventType>)
    requires Waiting(ks, k) && k >= 0 && LegalTrace(trace, OrderFailed)
    ensures Life(ks + trace + [TaskRetried], k + 1, Pending)
  {
  }

  lemma SettledLife(ks: seq<EventType>, k: int, trace: seq<EventType>, s: WorkOrderStatus)
    requires Waiting(ks, k) && LegalTrace(trace, s)
    ensures Life(ks + trace, k, TargetStatusForResult(s))
  {
    assert Settled(ks + trace, k, TargetStatusForResult(s));
  }

  lemma CommitKeepsRow(s: State, f: nat, t: Text)
    requires Inv(s) && CanCommit(s, f) && t in s.db.tasks
    ensures Commit(s.db, InputOf(s, f)).Success?
    ensures var after := Commit(s.db, InputOf(s, f)).value.0;
            t in after.tasks && RowFits(after, t)
  {
    var input, trace := InputOf(s, f), s.flights[f].trace;
    CommitIsAtomic(s.db, input);
    assert RowFits(s.db, t);
    assert FlightFits(s, s.flights[f]);
    var after, out := Commit(s.db, input).value.0, Commit(s.db, input).value.1;
    if out.Applied? {
      var last := if out.retried then [RetryEvent(input)] else [];
      AppliedLog(s.db, input.order, trace, last, t, after);
      if t == input.taskId {
        AppliedRow(s.db, input);
        AppliedLife(s.db, input, trace, after);
      }
    }
  }

  lemma AppliedLife(db: Db, input: CommitInput, trace: seq<EventType>, after: Db)
    requires Commit(db, input).Success? && Commit(db, input).value.1.Applied? && after == Commit(db, input).value.0
    requires input.taskId in db.tasks && RowFits(db, input.taskId) && LegalTrace(trace, input.status)
    requires var last := if Commit(db, input).value.1.retried then [RetryEvent(input)] else [];
             Log(after, input.taskId) == Log(db, input.taskId) + trace + Kinds(last)
    ensures input.taskId in after.tasks && RowFits(after, input.taskId)
  {
    AppliedRow(db, input);
    var log, k := Log(db, input.taskId), db.tasks[input.taskId].task.retryCount;
    if Commit(db, input).value.1.retried {
      RetriedLife(log, k, trace);
      assert Kinds([RetryEvent(input)]) == [TaskRetried];
    } else {
      SettledLife(log, k, trace, input.status);
      assert log + trace + Kinds([]) == log + trace;
    }
  }

  lemma CommitKeeps(s: State, f: nat)
    requires Inv(s) && CanCommit(s, f)
    ensures Inv(Committed(s, f))
  {
    var n, input := Committed(s, f), InputOf(s, f);
    CommitIsAtomic(s.db, input);
    CommitFits(s, f);
    forall t | t in n.db.tasks ensures RowFits(n.db, t) && (n.db.tasks[t].task.status == Pending ==> HasJob(n, t)) {
      CommitKeepsRow(s, f, t);
      if n.db.tasks[t].task.status == Pending {
        CommitKeepsJob(s, f, t);
      }
    }
  }

  lemma CommitFits(s: State, f: nat)
    requires Inv(s) && CanCommit(s, f)
    ensures JobsFit(Committed(s, f)) && FlightsFit(Committed(s, f)) && EventsFit(Committed(s, f).db)
  {
    CommitKeepsEvents(s, f);
    CommitMarks(s, f);
    CommitKeepsTenants(s, f);
    var n, input := Committed(s, f), InputOf(s, f);
    forall j | 0 <= j < |n.jobs| ensures PayloadFits(n.db, n.jobs[j].key, n.jobs[j].payload) {
      assert PayloadFits(s.db, s.jobs[j].key, s.jobs[j].payload);
    }
    forall i | 0 <= i < |n.flights| ensures FlightFits(n, n.flights[i]) {
      assert FlightFits(s, s.flights[i]);
    }
  }

  /** A commit marks jobs and flights; it renames none and touches no payload. */
  lemma CommitMarks(s: State, f: nat)
    requires CanCommit(s, f)
    ensures |Committed(s, f).jobs| == |s.jobs| && |Committed(s, f).flights| == |s.flights|
    ensures forall j :: 0 <= j < |s.jobs| ==>
                          Committed(s, f).jobs[j].key == s.jobs[j].key && Committed(s, f).jobs[j].payload == s.jobs[j].payload
    ensures forall i :: 0 <= i < |s.flights| ==> Committed(s, f).flights[i] == s.flights[i].(stage := Committed(s, f).flights[i].stage)
  {
  }

  /** A commit keeps every tenant, and what it queues fits. */
  lemma CommitKeepsTenants(s: State, f: nat)
    requires JobsFit(s) && FlightsFit(s) && CanCommit(s, f)
    ensures forall k, o :: OrderFits(s.db, k, o) ==> OrderFits(Committed(s, f).db, k, o)
    ensures forall k, p :: PayloadFits(s.db, k, p) ==> PayloadFits(Committed(s, f).db, k, p)
    ensures forall key :: key in Committed(s, f).db.queue ==> PayloadFits(Committed(s, f).db, key, Committed(s, f).db.queue[key])
  {
    var after, input := Committed(s, f).db, InputOf(s, f);
    CommitIsAtomic(s.db, input);
    assert FlightFits(s, s.flights[f]);
    StillFit(s.db, after);
    PayloadOfOrderFits(after, input.taskId, input.order);
    forall key | key in after.queue ensures PayloadFits(after, key, after.queue[key]) {
      assert key in s.db.queue ==> PayloadFits(s.db, key, s.db.queue[key]);
    }
  }

  lemma CommitKeepsEvents(s: State, f: nat)
    requires Inv(s) && CanCommit(s, f)
    ensures EventsFit(Committed(s, f).db)
  {
    var n, input := Committed(s, f), InputOf(s, f);
    CommitIsAtomic(s.db, input);
    assert FlightFits(s, s.flights[f]);
    forall e | e in n.db.events && e.taskId.Some? ensures e.taskId.value in n.db.tasks {
      if e !in s.db.events && e in input.events {
        assert e.taskId == Some(input.taskId);
      }
    }
  }

  lemma CommitKeepsJob(s: State, f: nat, t: Text)
    requires Inv(s) && CanCommit(s, f)
    requires t in Committed(s, f).db.tasks && Committed(s, f).db.tasks[t].task.status == Pending
    ensures HasJob(Committed(s, f), t)
  {
    CommitIsAtomic(s.db, InputOf(s, f));
    assert FlightFits(s, s.flights[f]);
    if t == InputOf(s, f).taskId {
      CommitFollowsDomain(s.db, InputOf(s, f));
    } else {
      assert HasJob(s, t);
      OtherJobKept(s, f, t);
    }
  }

  lemma OtherJobKept(s: State, f: nat, t: Text)
    requires CanCommit(s, f) && t != InputOf(s, f).taskId && s.jobs[s.flights[f].job].key == InputOf(s, f).taskId
    requires HasJob(s, t)
    ensures HasJob(Committed(s, f), t)
  {
    CommitIsAtomic(s.db, InputOf(s, f));
    if !(t in s.db.queue && t !in s.spent) {
      var j :| 0 <= j < |s.jobs| && s.jobs[j].key == t && s.jobs[j].open && !s.jobs[j].committed;
      assert Committed(s, f).jobs[j] == s.jobs[j];
    }
  }

  lemma StepKeepsReturning(s: State, a: Action)
    requires ReturningCommitted(s) && FlightsFit(s)
    ensures ReturningCommitted(Next(s, a))
  {
  }

  lemma StepKeeps(s: State, a: Action)
    requires Inv(s) && ReturningCommitted(s)
    ensures Inv(Next(s, a)) && ReturningCommitted(Next(s, a))
  {
    StepKeepsReturning(s, a);
    StepKeepsInv(s, a);
  }

  lemma StepKeepsInv(s: State, a: Action)
    requires Inv(s) && ReturningCommitted(s)
    ensures Inv(Next(s, a))
  {
    if Enabled(s, a) {
      if a.DispatchTask? {
        DispatchKeeps(s, a);
      } else if a.TakeJob? || a.ReleaseJob? {
        QueueMoveKeeps(s, a);
      } else if a.CommitFlight? {
        CommitKeeps(s, a.flight);
      } else if a.FinishFlight? {
        FinishKeeps(s, a);
      } else if a.RunAdHoc? {
        AdHocKeeps(s, a);
      } else {
        FlightMoveKeeps(s, a);
      }
    }
  }

  lemma {:induction false} RunKeeps(s: State, actions: seq<Action>)
    requires Inv(s) && ReturningCommitted(s)
    ensures Inv(Reach(s, actions))
    decreases actions
  {
    if actions != [] {
      StepKeeps(s, actions[0]);
      RunKeeps(Next(s, actions[0]), actions[1..]);
    }
  }

  // ---------------------------------------------------------------- what holds in every run

  /** In every reachable state, a task's row is what replaying its own log says it is. */
  lemma RowEqualsReplay(actions: seq<Action>, t: Text)
    requires t in Reach(INIT, actions).db.tasks
    ensures var db := Reach(INIT, actions).db;
            Replay(NOTHING, Log(db, t)) == View(Some(db.tasks[t].task.status), db.tasks[t].task.retryCount)
  {
    RunKeeps(INIT, actions);
    var db := Reach(INIT, actions).db;
    assert RowFits(db, t);
    ReplayLife(Log(db, t), db.tasks[t].task.retryCount, db.tasks[t].task.status);
  }

  /** In every reachable state, a pending task has a job whose handler has not committed. */
  lemma PendingHasJob(actions: seq<Action>, t: Text)
    requires t in Reach(INIT, actions).db.tasks && Reach(INIT, actions).db.tasks[t].task.status == Pending
    ensures HasJob(Reach(INIT, actions), t)
  {
    RunKeeps(INIT, actions);
  }

  /**
   * The log of a task: created, then k failed and retried traces, then at most one final trace;
   * and the final trace is a failed one only when the retries are used up.
   */
  lemma LogShape(actions: seq<Action>, t: Text)
    requires t in Reach(INIT, actions).db.tasks
    ensures var db := Reach(INIT, actions).db;
            var task := db.tasks[t].task;
            && Life(Log(db, t), task.retryCount, task.status)
            && 0 <= task.retryCount <= task.maxRetries
            && (task.status == Failed ==> task.retryCount == task.maxRetries)
  {
    RunKeeps(INIT, actions);
    assert RowFits(Reach(INIT, actions).db, t);
  }

  // ---------------------------------------------------------------- applied commits

  predicate AppliesTo(s: State, a: Action, t: Text) {
    && a.CommitFlight? && CanCommit(s, a.flight)
    && InputOf(s, a.flight).taskId == t
    && Commit(s.db, InputOf(s, a.flight)).Success?
    && Commit(s.db, InputOf(s, a.flight)).value.1.Applied?
  }

  function AppliedCommits(s: State, actions: seq<Action>, t: Text): nat
    decreases actions
  {
    if actions == [] then 0
    else (if AppliesTo(s, actions[0], t) then 1 else 0) + AppliedCommits(Next(s, actions[0]), actions[1..], t)
  }

  /** How many commits a task has had applied, read off its row. */
  function Spent(db: Db, t: Text): int {
    if t !in db.tasks then 0
    else db.tasks[t].task.retryCount + (if db.tasks[t].task.status == Pending then 0 else 1)
  }

  lemma StepSpends(s: State, a: Action, t: Text)
    requires Inv(s)
    ensures Spent(Next(s, a).db, t) == Spent(s.db, t) + (if AppliesTo(s, a, t) then 1 else 0)
  {
    if Enabled(s, a) && a.CommitFlight? {
      CommitSpends(s.db, InputOf(s, a.flight), t);
      assert AppliesTo(s, a, t) <==>
             InputOf(s, a.flight).taskId == t && Commit(s.db, InputOf(s, a.flight)).value.1.Applied?;
    }
  }

  lemma CommitSpends(db: Db, input: CommitInput, t: Text)
    ensures Commit(db, input).Success?
    ensures var (after, out) := Commit(db, input).value;
            Spent(after, t) == Spent(db, t) + (if input.taskId == t && out.Applied? then 1 else 0)
  {
    CommitIsAtomic(db, input);
    if t == input.taskId && Commit(db, input).value.1.Applied? {
      AppliedRow(db, input);
      SettlesElsewhere(input.status);
    }
  }

  lemma SettlesElsewhere(s: WorkOrderStatus)
    ensures TargetStatusForResult(s) != Pending
  {
  }

  lemma {:induction false} RunSpends(s: State, actions: seq<Action>, t: Text)
    requires Inv(s) && ReturningCommitted(s)
    ensures Spent(Reach(s, actions).db, t) == Spent(s.db, t) + AppliedCommits(s, actions, t)
    decreases actions
  {
    if actions != [] {
      StepKeeps(s, actions[0]);
      StepSpends(s, actions[0], t);
      RunSpends(Next(s, actions[0]), actions[1..], t);
    }
  }

  /**
   * However often a task's jobs are redelivered, the commits applied to it are exactly its
   * counted retries plus the one that settled it, so at most its retry budget plus one.
   */
  lemma AppliedCommitsBounded(actions: seq<Action>, t: Text)
    ensures var db := Reach(INIT, actions).db;
            && AppliedCommits(INIT, actions, t) == Spent(db, t)
            && (t in db.tasks ==> AppliedCommits(INIT, actions, t) <= db.tasks[t].task.maxRetries + 1 == 4)
            && (t !in db.tasks ==> AppliedCommits(INIT, actions, t) == 0)
  {
    RunSpends(INIT, actions, t);
    RunKeeps(INIT, actions);
    if t in Reach(INIT, actions).db.tasks {
      assert RowFits(Reach(INIT, actions).db, t);
    }
  }

  /** Commits left to a task. */
  function Budget(db: Db, t: Text): int
    requires t in db.tasks
  {
    var task := db.tasks[t].task;
    if task.status == Pending then task.maxRetries - task.retryCount + 1 else 0
  }

  /** Every applied commit uses up budget, on any row whatever its retry counts. */
  lemma CommitUsesBudget(db: Db, input: CommitInput)
    requires input.taskId in db.tasks && db.tasks[input.taskId].task.retryCount <= db.tasks[input.taskId].task.maxRetries
    ensures Commit(db, input).Success?
    ensures var (after, out) := Commit(db, input).value;
            && input.taskId in after.tasks
            && (out.Applied? ==> 0 <= Budget(after, input.taskId) < Budget(db, input.taskId))
            && (out.Refused? ==> after == db)
  {
    CommitIsAtomic(db, input);
    if Commit(db, input).value.1.Applied? {
      PathIsLegal(db.tasks[input.taskId].task, input.status);
    }
  }

  // ---------------------------------------------------------------- the order of a task

  /** Everything queued, taken or in flight for one task reads as `read`. */
  ghost predicate Carried(s: State, t: Text, read: Read<QueuedOrder>) {
    && (t in s.db.queue ==> Plain(s.db.queue[t]) && Parse(s.db.queue[t]) == read)
    && (forall j :: 0 <= j < |s.jobs| && s.jobs[j].key == t ==> Plain(s.jobs[j].payload) && Parse(s.jobs[j].payload) == read)
    && (forall f :: 0 <= f < |s.flights| && s.flights[f].order.taskId == Some(t) ==> Success(s.flights[f].order) == read)
  }

  /** The order of a flight, enqueued again, reads as everything else of its task. */
  lemma FlightPayloadReads(s: State, f: nat, t: Text, read: Read<QueuedOrder>)
    requires FlightsFit(s) && Carried(s, t, read) && f < |s.flights| && s.flights[f].order.taskId == Some(t)
    ensures Plain(JobPayload(s.flights[f].order)) && Parse(JobPayload(s.flights[f].order)) == read
  {
    assert FlightFits(s, s.flights[f]);
    PayloadIsPlain(s.flights[f].order);
    RequeueKeepsTheOrder(s.jobs[s.flights[f].job].payload);
  }

  lemma MarkedCarries(s: State, n: State, t: Text, read: Read<QueuedOrder>)
    requires Carried(s, t, read) && |n.jobs| == |s.jobs| && |n.flights| == |s.flights|
    requires forall j :: 0 <= j < |s.jobs| ==> n.jobs[j].key == s.jobs[j].key && n.jobs[j].payload == s.jobs[j].payload
    requires forall i :: 0 <= i < |s.flights| ==> n.flights[i] == s.flights[i].(stage := n.flights[i].stage)
    requires t in n.db.queue ==> Plain(n.db.queue[t]) && Parse(n.db.queue[t]) == read
    ensures Carried(n, t, read)
  {
  }

  lemma CommitCarries(s: State, f: nat, t: Text, read: Read<QueuedOrder>)
    requires FlightsFit(s) && Carried(s, t, read) && CanCommit(s, f)
    ensures Carried(Committed(s, f), t, read)
  {
    CommitMarks(s, f);
    CommitIsAtomic(s.db, InputOf(s, f));
    if s.flights[f].order.taskId == Some(t) {
      FlightPayloadReads(s, f, t, read);
    }
    MarkedCarries(s, Committed(s, f), t, read);
  }

  lemma ExecuteCarries(s: State, a: Action, t: Text, read: Read<QueuedOrder>)
    requires JobsFit(s) && Carried(s, t, read) && Enabled(s, a) && a.ExecuteJob?
    ensures Carried(Step(s, a), t, read)
  {
    assert PayloadFits(s.db, s.jobs[a.job].key, s.jobs[a.job].payload);
  }

  lemma QueueMoveCarries(s: State, a: Action, t: Text, read: Read<QueuedOrder>)
    requires Carried(s, t, read) && Enabled(s, a) && (a.TakeJob? || a.ReleaseJob?)
    ensures Carried(Step(s, a), t, read)
  {
  }

  lemma StepCarries(s: State, a: Action, t: Text, read: Read<QueuedOrder>)
    requires Inv(s) && Carried(s, t, read) && t in s.db.tasks
    ensures Carried(Next(s, a), t, read) && t in Next(s, a).db.tasks
  {
    if Enabled(s, a) {
      if a.CommitFlight? {
        CommitCarries(s, a.flight, t, read);
        CommitIsAtomic(s.db, InputOf(s, a.flight));
      } else if a.ExecuteJob? {
        ExecuteCarries(s, a, t, read);
      } else if a.TakeJob? || a.ReleaseJob? {
        QueueMoveCarries(s, a, t, read);
      } else {
        OtherStepCarries(s, a, t, read);
      }
    }
  }

  lemma OtherStepCarries(s: State, a: Action, t: Text, read: Read<QueuedOrder>)
    requires Carried(s, t, read) && t in s.db.tasks && Enabled(s, a)
    requires a.DispatchTask? || a.FinishFlight? || a.LoseFlight? || a.RunAdHoc?
    ensures Carried(Step(s, a), t, read)
  {
  }

  lemma {:induction false} RunCarries(s: State, actions: seq<Action>, t: Text, read: Read<QueuedOrder>)
    requires Inv(s) && ReturningCommitted(s) && Carried(s, t, read) && t in s.db.tasks
    ensures Carried(Reach(s, actions), t, read)
    decreases actions
  {
    if actions != [] {
      StepKeeps(s, actions[0]);
      StepCarries(s, actions[0], t, read);
      RunCarries(Next(s, actions[0]), actions[1..], t, read);
    }
  }

  /** Dispatch leaves the task with one queued payload, which reads as what is delivered of its order. */
  lemma DispatchCarries(s: State, d: Action)
    requires Inv(s) && Enabled(s, d) && d.DispatchTask?
    ensures Carried(Next(s, d), d.id, ReadHints(d.id, d.organizationId, d.input.hints))
    ensures d.id in Next(s, d).db.tasks
  {
    DispatchedPayloadIsPlain(d.id, d.organizationId, d.input.hints);
    PayloadReads(d.id, d.organizationId, d.input.hints);
    forall j | 0 <= j < |s.jobs| ensures s.jobs[j].key != d.id {
      assert PayloadFits(s.db, s.jobs[j].key, s.jobs[j].payload);
    }
    forall f | 0 <= f < |s.flights| ensures s.flights[f].order.taskId != Some(d.id) {
      assert FlightFits(s, s.flights[f]);
    }
  }

  /** The state after a run in which `d` happened, with `before` before it and `after` after it. */
  function RunWith(before: seq<Action>, d: Action, after: seq<Action>): State {
    Reach(Next(Reach(INIT, before), d), after)
  }

  /**
   * Whatever happens before and after a dispatch, every delivery of its task, first attempts and
   * retries alike, reads what the hints spell; and every execution runs that.
   */
  lemma AttemptsShareTheOrder(before: seq<Action>, d: Action, after: seq<Action>)
    requires d.DispatchTask? && Enabled(Reach(INIT, before), d)
    ensures Carried(RunWith(before, d, after), d.id, ReadHints(d.id, d.organizationId, d.input.hints))
  {
    var s := Reach(INIT, before);
    RunKeeps(INIT, before);
    RunReturns(INIT, before);
    DispatchCarries(s, d);
    StepKeeps(s, d);
    RunCarries(Next(s, d), after, d.id, ReadHints(d.id, d.organizationId, d.input.hints));
  }

  lemma {:induction false} RunReturns(s: State, actions: seq<Action>)
    requires Inv(s) && ReturningCommitted(s)
    ensures ReturningCommitted(Reach(s, actions))
    decreases actions
  {
    if actions != [] {
      StepKeeps(s, actions[0]);
      RunReturns(Next(s, actions[0]), actions[1..]);
    }
  }

  /**
   * Every delivery of a dispatched task reads the order its hints spell, and it can be read if and
   * only if the tenant is not empty and every hint is absent or of its type.  Hints of the declared
   * types arrive as the very order built from them if and only if the queue can carry them.
   */
  lemma AttemptsRunTheDispatchedOrder(before: seq<Action>, d: Action, after: seq<Action>, j: nat, hints: QueuedOrder)
    requires d.DispatchTask? && Enabled(Reach(INIT, before), d)
    requires var s := RunWith(before, d, after); j < |s.jobs| && s.jobs[j].key == d.id
    ensures Parse(RunWith(before, d, after).jobs[j].payload) == ReadHints(d.id, d.organizationId, d.input.hints)
    ensures Parse(RunWith(before, d, after).jobs[j].payload).Success? <==> Deliverable(d.organizationId, d.input.hints)
    ensures d.input.hints == RawOf(hints) ==>
              (Parse(RunWith(before, d, after).jobs[j].payload) == Success(BuildWorkOrder(d.id, d.organizationId, hints))
               <==> Dispatchable(d.organizationId, hints))
  {
    AttemptsShareTheOrder(before, d, after);
    ReadIffDeliverable(d.id, d.organizationId, d.input.hints);
    TypedHintsRead(d.id, d.organizationId, hints);
  }

  lemma {:induction false} UnreadableRowStays(s: State, actions: seq<Action>, t: Text, read: Read<QueuedOrder>)
    requires Inv(s) && ReturningCommitted(s) && Carried(s, t, read) && t in s.db.tasks && read.Failure?
    ensures t in Reach(s, actions).db.tasks && Reach(s, actions).db.tasks[t] == s.db.tasks[t]
    decreases actions
  {
    if actions != [] {
      StepKeeps(s, actions[0]);
      StepCarries(s, actions[0], t, read);
      UnreadableStep(s, actions[0], t, read);
      UnreadableRowStays(Next(s, actions[0]), actions[1..], t, read);
    }
  }

  lemma UnreadableStep(s: State, a: Action, t: Text, read: Read<QueuedOrder>)
    requires Carried(s, t, read) && t in s.db.tasks && read.Failure?
    ensures t in Next(s, a).db.tasks && Next(s, a).db.tasks[t] == s.db.tasks[t]
  {
    if Enabled(s, a) && a.CommitFlight? {
      CommitIsAtomic(s.db, InputOf(s, a.flight));
    }
  }

  /** A task whose order cannot be read stays pending for good: its job is there, but no handler gets to commit. */
  lemma UnreadableOrderStaysPending(before: seq<Action>, d: Action, after: seq<Action>)
    requires d.DispatchTask? && Enabled(Reach(INIT, before), d)
    requires !Deliverable(d.organizationId, d.input.hints)
    ensures var s := RunWith(before, d, after);
            && d.id in s.db.tasks && s.db.tasks[d.id].task == NewTask(d.id, d.input)
            && HasJob(s, d.id)
  {
    var s := Reach(INIT, before);
    var read := ReadHints(d.id, d.organizationId, d.input.hints);
    ReadIffDeliverable(d.id, d.organizationId, d.input.hints);
    RunKeeps(INIT, before);
    RunReturns(INIT, before);
    DispatchCarries(s, d);
    StepKeeps(s, d);
    UnreadableRowStays(Next(s, d), after, d.id, read);
    RunKeeps(Next(s, d), after);
  }
}
