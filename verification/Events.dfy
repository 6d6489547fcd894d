/** The event envelope (packages/core-domain/src/event.ts) and the worker's private buffer. */
module Events {
  import opened Basics

  datatype EventType =
    | ObjectiveCreated
    | TaskCreated
    | TaskPlanned
    | TaskAssigned
    | WorkerStarted
    | ToolCalled
    | ArtifactCreated
    | ApprovalRequested
    | ApprovalDecided
    | TaskBlocked
    | TaskRetried
    | TaskCompleted
    | TaskFailed
    | MemoryUpdated
    | NodeHealthChanged
    | SystemAlert

  datatype ActorType = HumanActor | OrchestratorActor | AdapterActor | CheckerActor

  datatype Actor = Actor(kind: ActorType, id: Text)

  /** An event without the random id and the clock reading `createEvent` adds. */
  datatype Event = Event(
    kind: EventType,
    organizationId: Text,
    taskId: Option<Text>,
    actor: Actor,
    correlationId: Option<Text>
  )

  /** Write-only bus that collects one run's trace; publishing cannot fail. */
  class BufferingEventBus {
    var events: seq<Event>

    constructor ()
      ensures events == []
    {
      events := [];
    }

    method Publish(event: Event)
      modifies this
      ensures events == old(events) + [event]
    {
      events := events + [event];
    }

    method Drain() returns (drained: seq<Event>)
      modifies this
      ensures drained == old(events) && events == []
    {
      drained := events;
      events := [];
    }
  }
}
