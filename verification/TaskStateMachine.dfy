/** packages/core-domain/src/task-state-machine.ts: the durable task lifecycle. */
module TaskStateMachine {
  import opened Basics

  datatype TaskStatus =
    | Pending
    | Planned
    | Assigned
    | Running
    | Blocked
    | AwaitingApproval
    | Checking
    | Completed
    | Failed
    | Cancelled

  const TERMINAL_TASK_STATUSES: seq<TaskStatus> := [Completed, Cancelled]

  predicate IsTerminal(s: TaskStatus) { s in TERMINAL_TASK_STATUSES }

  function AllowedTransitions(from: TaskStatus): seq<TaskStatus> {
    match from
    case Pending => [Planned, Cancelled]
    case Planned => [Assigned, Blocked, Cancelled]
    case Assigned => [Running, Blocked, Cancelled]
    case Running => [Checking, AwaitingApproval, Blocked, Completed, Failed, Cancelled]
    case Blocked => [Assigned, Running, Failed, Cancelled]
    case AwaitingApproval => [Running, Failed, Cancelled]
    case Checking => [Completed, Running, Failed]
    case Completed => []
    case Failed => [Pending, Cancelled]
    case Cancelled => []
  }

  predicate CanTransition(from: TaskStatus, to: TaskStatus) {
    to in AllowedTransitions(from)
  }

  datatype Task = Task(
    id: Text,
    objectiveId: Text,
    goal: Text,
    definitionOfDone: Text,
    requiredAuthority: int,
    status: TaskStatus,
    retryCount: int,
    maxRetries: int
  )

  datatype IllegalTransition = IllegalTransition(from: TaskStatus, to: TaskStatus)

  function Transition(t: Task, to: TaskStatus): Result<Task, IllegalTransition> {
    if !CanTransition(t.status, to) then Failure(IllegalTransition(t.status, to))
    else
      var isRetry := t.status == Failed && to == Pending;
      if isRetry && t.retryCount >= t.maxRetries then Failure(IllegalTransition(t.status, to))
      else
        Success(t.(status := to, retryCount := if isRetry then t.retryCount + 1 else t.retryCount))
  }

  // ---------------------------------------------------------------- whole runs

  /** A caller that ignores a thrown transition goes on with the task it had. */
  function Attempt(t: Task, to: TaskStatus): Task {
    match Transition(t, to)
    case Success(u) => u
    case Failure(_) => t
  }

  function Run(t: Task, attempts: seq<TaskStatus>): Task
    decreases attempts
  {
    if attempts == [] then t else Run(Attempt(t, attempts[0]), attempts[1..])
  }

  /** How often a run enters `pending` again. */
  function Reentries(t: Task, attempts: seq<TaskStatus>): nat
    decreases attempts
  {
    if attempts == [] then 0
    else
      (if attempts[0] == Pending && Transition(t, Pending).Success? then 1 else 0)
      + Reentries(Attempt(t, attempts[0]), attempts[1..])
  }

  /**
   * However a task is driven, it goes back to `pending` once per counted retry and at most
   * as often as its budget allows; nothing but its status and that count ever changes.
   */
  lemma {:induction false} ReentriesBounded(t: Task, attempts: seq<TaskStatus>)
    ensures Reentries(t, attempts) == Run(t, attempts).retryCount - t.retryCount
    ensures Reentries(t, attempts) <= Max(0, t.maxRetries - t.retryCount)
    ensures Run(t, attempts) == t.(status := Run(t, attempts).status, retryCount := Run(t, attempts).retryCount)
    decreases attempts
  {
    if attempts != [] {
      ReentriesBounded(Attempt(t, attempts[0]), attempts[1..]);
    }
  }

  /** No run ever leaves `completed` or `cancelled`. */
  lemma {:induction false} TerminalForever(t: Task, attempts: seq<TaskStatus>)
    requires IsTerminal(t.status)
    ensures Run(t, attempts) == t
    decreases attempts
  {
    if attempts != [] {
      TerminalForever(Attempt(t, attempts[0]), attempts[1..]);
    }
  }

  predicate Leaves(t: Task, attempts: seq<TaskStatus>) {
    Run(t, attempts).status != t.status
  }

  /** Those two are exactly the statuses that no run ever leaves. */
  lemma TerminalIffStuck(t: Task)
    ensures IsTerminal(t.status) <==> !exists attempts :: Leaves(t, attempts)
  {
    if IsTerminal(t.status) {
      forall attempts ensures !Leaves(t, attempts) {
        TerminalForever(t, attempts);
      }
    } else {
      var s := if t.status == Checking then Completed else Cancelled;
      assert CanTransition(t.status, s);
      var u := Attempt(t, s);
      assert [s][1..] == [] && Run(u, []) == u;
      assert Run(t, [s]) == u && u.status == s != t.status;
      assert Leaves(t, [s]);
    }
  }
}
