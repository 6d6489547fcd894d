# Verification model of the DONNA control plane

This project models the parts of the DONNA repository in which a mistake would be silent, and proves what
their comments and design notes promise. Every module names the source file it follows.

**Durable execution.** `TaskState` has the two transactions on a task (dispatch, commit of an outcome) as
methods over the tables; `Worker` has the job handler that ties a private buffer, an orchestrator run and a
commit together; `TaskProtocol` is the step machine they add up to: any number of tasks, jobs that carry JSON
payloads and are delivered any number of times, any number of runs of the same job in flight at once, and a crash
possible between any two transactions. Its theorems hold in every state any sequence of steps can reach.

**The orchestrator.** `Orchestrator` has the two loops of `executeWorkOrder` with their flags, early exits,
events and ledger entries as methods, proved against recursive specifications; `OrchestratorRuns` shows that
both loops together come to one walk down a flat list of options, and derives the trace grammar, the ledger
law and the privacy law from it. `WorkRouter`, `ModelRouter` and `CapabilityCatalogs` are the routing it
relies on; adapters are oracles that may answer differently at every execution.

**Approval scopes.** `JsonValues` and `LeafText` spell out what `JSON.stringify` prints for strings and numbers
(sections 25.5.2 and 6.1.6.1.20 of ECMA-262); `ApprovalScope` shows that the canonical text of a scope is
unambiguous up to the order of object keys.

**Payloads, outbox, packets, identities, constitutions, summaries.** `JsonText` prints whole values and shows that the
text leaves a parser no choice; `WorkOrderPayload` follows an order through the queue and back, and `DispatchPayload`
the unchecked hints of a dispatch to every attempt; `Outbox` covers one dispatcher and many; `ContextPacket` shows
that the greedy packet is an optimum; `Provisioning` and `ProvisioningRuns` show that the tenancy tables, seen through
the resolver, are a map from subject to seat; `BusinessConstitution` ties the constitution tables to the history of
proposals and approvals; `CostGovernor` shows that summaries conserve their input. `StableSort` is
`Array.prototype.sort`: a stable sort has one answer only, so computing it by insertion loses nothing.

## Where the code and its comments part

The model follows the code.

- A commit retries every failed result that has budget left, not only retryable error classes
  (`apps/worker/src/task-state.ts:161`): `TaskState.AppliedRow` says exactly which, and
  `Worker.FailureForGoodIsRetried` that a failure judged not retryable is among them; `Worker.BrokenModelIsRetried`
  is one such order.
- `candidateClasses` does not always end at a human; `WorkRouter.ClassListEndsAtHuman` says exactly when it does, and
  `WorkRouter.ClassListEndsAtCloudAi` shows an order for which it does not.
- The fallbacks of `routeModel` are the rest of the pool it chose from, not of all eligible models;
  `ModelRouter.ChainUsesAllEligible` says exactly when the two agree, and `ModelRouter.StrongerModelIsNoFallback`
  shows a registry for which they do not.
- The packet builder does not always drop lowest priority first: it can drop a large item of high priority and keep a
  small one of low priority (`ContextPacket.HighPriorityDropped`). `ContextPacket.LowestPriorityDroppedFirst` says
  exactly when it does, by priorities, and `ContextPacket.LowestRankDroppedFirst` by the ranking that breaks their
  ties; what it always keeps is the lexicographically greatest choice that fits (`ContextPacket.PacketIsLexGreatest`).
- Scopes that differ only where JSON text cannot show it (null against a number that is not finite) are taken for
  equal (`ApprovalScope.NotFiniteLooksNull`); `ApprovalScope.ScopesEqualExactly` gives the exact condition, for
  every value.
- Deleting a user keeps its row, and with it its address: re-adding the same person to the same organization under
  the same address is refused (`ProvisioningRuns.DeletedUserCannotReturn`). A person with access in one
  organization cannot be moved to another by a membership event (`ProvisioningRuns.MemberStaysInTenant`).
- The route hands the routing hints of a request on as they are (`apps/control-plane/src/server.ts:228-240`). A model
  request without messages (`DispatchPayload.EmptyRequestIsNeverRead`), a null where a number is expected or a string
  where a flag is (`DispatchPayload.MistypedHintsAreNeverRead`) is accepted by the dispatcher and rejected by the worker
  every time, so the task stays pending for good (`TaskProtocol.UnreadableOrderStaysPending`).
  `DispatchPayload.DispatchReachesEveryAttempt` gives the exact condition.
- Enqueueing drops `actor` and `capabilityInput` from an order (`WorkOrderPayload.ArrivesUnchanged`).

## Model

| member | source | states |
|---|---|---|
| `TaskProtocol.RowEqualsReplay` | apps/worker/src/task-state.ts:104-110 | in every reachable state of the protocol, a row's status and retry count are what replaying the task's own log gives, so the row and its events never disagree |
| `TaskProtocol.PendingHasJob` | apps/worker/src/task-state.ts:189-196 | in every reachable state a pending task has a job, queued or taken, that no handler has committed for, also when jobs are put back after a commit: no crash or retry strands it |
| `TaskProtocol.LogShape` | apps/worker/src/task-state.ts:144-188 | the log of a task is created, then k failed traces each followed by a retry, then at most one final trace, with k the retry count and within the retry budget; a task settled as failed has used the budget up |
| `TaskProtocol.AppliedCommitsBounded` | apps/worker/src/task-state.ts:136-142 | over any run with any redeliveries, the commits applied to a task are its counted retries plus the one that settled it, at most its retry budget plus one |
| `TaskProtocol.CommitUsesBudget` | apps/worker/src/task-state.ts:159-188 | an applied commit strictly lowers the commits a task has left, whatever its retry budget; a refused one writes nothing |
| `TaskProtocol.AttemptsShareTheOrder` | apps/worker/src/task-state.ts:189-196 | whatever happens before and after a dispatch, every payload queued or taken for its task reads the same, order or complaint, and every run in flight runs the order it reads: what the hints of the dispatch spell |
| `TaskProtocol.AttemptsRunTheDispatchedOrder` | apps/control-plane/src/services/task-dispatcher.ts:94-113 | every delivery of a dispatched task, first attempts and retries alike, reads what the hints spell, and can be read if and only if the tenant is not empty and every hint is absent or of its type; hints of the declared types arrive as exactly the order built from them if and only if the queue can carry them |
| `TaskProtocol.UnreadableOrderStaysPending` | apps/worker/src/work-order-payload.ts:35-76 | a task dispatched for an empty tenant or with a hint no worker can read stays as dispatched, pending, in every later state, with a job nobody commits for |
| `Worker.WorkerRuntime.HandleExecuteWorkOrder` | apps/worker/src/worker.ts:99-137 | a payload that cannot be read throws and changes nothing; otherwise the order is executed into a private buffer, trace and row are committed together (or, without a task, the trace alone is published), and the ledger gains what the run recorded |
| `Worker.HandlerRefinesProtocol` | apps/worker/src/worker.ts:99-137 | handling a readable job without interruption is one execution step and one commit step of the protocol |
| `Worker.FailureForGoodIsRetried` | apps/worker/src/task-state.ts:159-167 | a run ended by an adapter failure that the orchestrator judged not retryable is committed as a retry exactly as long as retries are left |
| `Worker.BrokenModelIsRetried` | apps/worker/src/task-state.ts:159-167 | a concrete order whose one model throws an error that no retry helps, committed as a retry all the same |
| `TaskProtocol.StepKeeps` | apps/worker/src/task-state.ts:104-110 | every step, whatever runs are stale or duplicate, keeps rows, logs, queue and taken jobs consistent |
| `TaskProtocol.CommitKeepsRow` | apps/worker/src/task-state.ts:115-200 | committing any run in flight, stale or not, leaves every row consistent with its log |
| `TaskProtocol.CommitKeepsJob` | apps/worker/src/task-state.ts:189-196 | a commit that leaves a row pending leaves a job behind in the same transaction |
| `TaskState.TaskStateStore.DispatchTask` | apps/control-plane/src/services/task-dispatcher.ts:91-120 | dispatch inserts row, created event and job together |
| `TaskState.TaskStateStore.CommitTaskOutcome` | apps/worker/src/task-state.ts:115-200 | the commit walks the path to the target, or throws and leaves the tables as they were |
| `TaskState.CommitFollowsDomain` | apps/worker/src/task-state.ts:150-167 | the row a commit leaves is where folding the domain transition along the path ends, retried exactly when the domain machine allows the retry |
| `TaskState.PathIsLegal` | apps/worker/src/task-state.ts:53-58 | every path to a target is legal step by step, so the illegal-transition errors cannot occur |
| `TaskState.CommitIsAtomic` | apps/worker/src/task-state.ts:133-200 | a commit never throws; it is refused and writes nothing exactly when the row is missing, of another tenant or not pending; otherwise trace, retry event and job land with the row, and no other row changes |
| `TaskState.AppliedRow` | apps/worker/src/task-state.ts:150-181 | which row an applied commit leaves: retried exactly when the result failed and budget is left |
| `TaskStateMachine.ReentriesBounded` | packages/core-domain/src/task-state-machine.ts:55-70 | over any sequence of attempted transitions, pending is entered again once per counted retry and at most as often as the budget allows |
| `TaskStateMachine.TerminalForever` | packages/core-domain/src/task-state-machine.ts:12-26 | no sequence of transitions leaves completed or cancelled |
| `TaskStateMachine.TerminalIffStuck` | packages/core-domain/src/task-state-machine.ts:12-26 | completed and cancelled are exactly the statuses that no sequence of transitions ever leaves |
| `Orchestrator.Run.ExecuteWorkOrder` | packages/orchestrator/src/orchestrator.ts:29-266 | the method publishes, records and returns exactly what the specification of a run says |
| `Orchestrator.Run.TryCapabilities` | packages/orchestrator/src/orchestrator.ts:99-153 | the loop over capabilities, with its attempted flag and early exits, follows the recursive specification |
| `Orchestrator.Run.TryModels` | packages/orchestrator/src/orchestrator.ts:210-265 | the loop over the model chain follows the recursive specification |
| `OrchestratorRuns.RunDecidedByFirstChoice` | packages/orchestrator/src/orchestrator.ts:88-265 | a run goes down the wired capabilities and then, if escalation is allowed, the wired models: the first option that is over budget, succeeds or fails for good decides status, what is passed on, and the ledger; without one, every option was executed, nothing is recorded, and the reason says what was missing |
| `OrchestratorRuns.ExecutedChoices` | packages/orchestrator/src/orchestrator.ts:105-152 | the adapters executed are the first options of the list, in order and without a gap, each within budget, and all but the last failed retryably |
| `OrchestratorRuns.ParkedRuns` | packages/orchestrator/src/orchestrator.ts:49-76 | exactly when an order ends denied, waiting for approval, waiting for a human, or blocked for want of an adapter |
| `OrchestratorRuns.TraceGrammar` | packages/orchestrator/src/orchestrator.ts:49-266 | every trace is one refusal, one approval request, or a plan, one event pair per adapter execution, and one closing event that belongs to the result |
| `OrchestratorRuns.LedgerIffCompleted` | packages/orchestrator/src/orchestrator.ts:120-140 | the ledger gains one record, of this task and naming the adapter returned, exactly when the order completes |
| `OrchestratorRuns.ModelsRunAsAi` | packages/orchestrator/src/orchestrator.ts:176-258 | a model is reported under the AI class that was routed, or as cloud AI after an escalation from a capability |
| `OrchestratorRuns.RequireLocalStaysLocal` | packages/orchestrator/src/orchestrator.ts:191-200 | a run of an order that must stay local executes no model but local ones of the registry |
| `OrchestratorRuns.NeverBlockedByWiring` | packages/orchestrator/src/orchestrator.ts:155-165 | wired from one catalog, an order is never blocked for want of an adapter, whatever is registered later |
| `WorkRouter.MatchIsFirstCandidate` | packages/work-router/src/router.ts:54-108 | routing matches a capability exactly when there are candidates, and it is the first of them; the candidates are all healthy providers, simplest class first |
| `WorkRouter.CandidatesAreStable` | packages/work-router/src/router.ts:102-108 | the candidates are a stable sort of the healthy providers by class preference |
| `WorkRouter.CandidateClasses` | packages/work-router/src/router.ts:115-131 | the loop with its deduplicating push computes the class list |
| `WorkRouter.ClassListEndsAtHuman` | packages/work-router/src/router.ts:110-131 | the class list names each class once and always a human; it ends at the human exactly when no later class follows one already named |
| `WorkRouter.ClassListEndsAtCloudAi` | packages/work-router/src/router.ts:124-129 | a concrete order, preferring a human and allowing reasoning, whose list ends at cloud AI |
| `ModelRouter.ChainSound` | packages/model-router/src/router.ts:50-72 | routing fails exactly when nothing eligible reaches the tier; otherwise the chain is the stable cost-sorted permutation of its pool |
| `ModelRouter.ChainIsRankedPool` | packages/model-router/src/router.ts:54-71 | primary and fallbacks together are the pool ranked by cost |
| `ModelRouter.ChainUsesAllEligible` | packages/model-router/src/router.ts:44-72 | primary and fallbacks are all eligible models exactly when all of them cover the tier, or none does and all reach it |
| `ModelRouter.StrongerModelIsNoFallback` | packages/model-router/src/router.ts:58-71 | a concrete eligible model above the tier that is no fallback for the one that covers it |
| `ModelRouter.ExcludingProviders` | packages/model-router/src/router.ts:29-37 | excluding providers up front equals striking them from the chain, exactly when a covering model survives, none was there, or nothing survives |
| `ModelRouter.LocalChain` | packages/model-router/src/router.ts:33 | a chain routed with requireLocal holds local models only |
| `CapabilityCatalogs.CapabilityCatalog.ToWorkRegistry` | packages/orchestrator/src/capability-catalog.ts:60-71 | the registry taken from a catalog lists its entries in insertion order |
| `CapabilityCatalogs.CandidatesResolve` | packages/orchestrator/src/capability-catalog.ts:19-31 | every candidate drawn from a snapshot still resolves after any later registrations |
| `CapabilityCatalogs.SnapshotDescribes` | packages/orchestrator/src/capability-catalog.ts:35-71 | the registry lists each registered id once, with the class, capabilities and health of its last registration, and the id resolves to the adapter of that registration; an id never registered is neither listed nor resolved |
| `ApprovalScope.Unambiguous` | packages/policy/src/approval.ts:16-26 | the canonical text of a plain value determines the value up to key order, and where it ends inside a longer text |
| `ApprovalScope.ScopesEqualIsStructural` | packages/policy/src/approval.ts:28-31 | on plain values two scopes are equal exactly when they have the same structure up to key order at every depth |
| `ApprovalScope.ScopesEqualExactly` | packages/policy/src/approval.ts:28-31 | on all values two scopes are equal exactly when they have the same structure once undefined, non-finite and negative-zero values are normalized |
| `ApprovalScope.NotFiniteLooksNull` | packages/policy/src/approval.ts:17-19 | a concrete pair of different scopes the code takes for equal |
| `ApprovalScope.OneApprovalOneScope` | packages/policy/src/approval.ts:34-50 | for all scopes: one accepted by an approval shares it with exactly the scopes JSON text cannot tell from it, while it is unexpired; a change is material exactly when the text can tell |
| `ApprovalScope.SameStructureIsEquivalence` | packages/policy/src/approval.ts:4-6 | equality up to key order is reflexive, symmetric and transitive on plain values |
| `LeafText.NumberEnds` | packages/policy/src/approval.ts:18 | numbers are not prefix-free, but the character after one fixes where it ends and which number it is |
| `LeafText.QuoteUnique` | packages/policy/src/approval.ts:18 | a quoted string is read back in one way only, whatever follows it |
| `LeafText.NumberTextInjective` | packages/policy/src/approval.ts:18 | distinct numbers print distinctly |
| `StableSort.StableSortIsUnique` | packages/policy/src/approval.ts:24 | being a sorted, tie-preserving permutation pins a stable sort down completely |
| `WorkOrderPayload.RoundTrip` | apps/worker/src/work-order-payload.ts:85-131 | an order arrives exactly when its tenant is not empty, its numbers are finite, its request has a message and its gates are objects; and what arrives is the order with its values as JSON carries them |
| `WorkOrderPayload.ArrivesUnchanged` | apps/worker/src/work-order-payload.ts:85-131 | an order arrives unchanged exactly when it is portable, which forbids actor and capability input |
| `WorkOrderPayload.ParseSettles` | apps/worker/src/work-order-payload.ts:85-131 | parsing is a retraction: the order of any accepted payload is accepted again when re-enqueued, and is a fixed point from then on |
| `WorkOrderPayload.RetriesRunTheSameOrder` | apps/worker/src/task-state.ts:189-196 | however often a job is read and its order enqueued again, every attempt reads the order of the first |
| `DispatchPayload.DispatchReachesEveryAttempt` | apps/control-plane/src/server.ts:228-240 | whatever JSON the hints of a dispatch hold, every attempt reads what they spell, down to the complaint; it is an order exactly when the tenant is not empty and every hint is absent or of its type |
| `DispatchPayload.DispatchedOrderReachesEveryAttempt` | apps/control-plane/src/db/mappers.ts:132-150 | hints of the declared types reach every attempt as the order built from them exactly when the tenant is not empty, the numbers are JSON numbers and the model request has a message |
| `DispatchPayload.MistypedHintsAreNeverRead` | apps/control-plane/src/server.ts:234-239 | concrete dispatches, of a null token minimum and of a flag spelled as a string, that are enqueued and that no attempt can read |
| `DispatchPayload.EmptyRequestIsNeverRead` | apps/worker/src/work-order-payload.ts:56-61 | a concrete dispatch, of a model request without messages, that is enqueued and that no attempt can read |
| `WorkOrderPayload.ParsedIsReadable` | apps/worker/src/work-order-payload.ts:85-131 | an accepted payload yields an order the queue can carry, unchanged if the payload is JSON |
| `JsonText.StringifyUnique` | apps/worker/src/task-state.ts:192-196 | the text JSON.stringify prints for a plain value determines the value, key order included, and where it ends in a longer text |
| `JsonText.WireIsWhatTheTextSays` | apps/worker/src/task-state.ts:192-196 | of all plain values exactly the modelled outcome of the trip prints as the serialized value does, so a parser that inverts printing has no other choice |
| `JsonText.WireIsIdentity` | apps/worker/src/task-state.ts:192-196 | the trip changes nothing exactly when the value is plain JSON |
| `Outbox.OutboxDispatcher.DispatchBatch` | packages/events/src/outbox.ts:36-47 | a batch delivers the fetched events up to the first failed publish, marks all of them or none, and returns their number |
| `Outbox.InMemoryOutboxStore.MarkPublished` | packages/events/src/outbox.ts:67-70 | marking adds exactly the given ids |
| `Outbox.BatchIsARun` | packages/events/src/outbox.ts:36-47 | a batch in one go is one way of interleaving its fetch, publishes and mark |
| `Outbox.BatchAdvances` | packages/events/src/outbox.ts:36-47 | a batch moves the published prefix on by what it delivers, and the number of waiting events drops by as much |
| `Outbox.DrainsInOrder` | packages/events/src/outbox.ts:36-47 | n waiting events leave in exactly n / limit calls, rounded up, each delivered once, in enqueue order, and not in fewer calls |
| `Outbox.PublishedIsDeliveredPrefix` | packages/events/src/outbox.ts:24-28 | however dispatchers interleave and fail, what is published is a prefix of the queue and was delivered, and the rest can still be fetched, oldest first |
| `Outbox.NothingIsLost` | packages/events/src/outbox.ts:6-16 | queue and published set only grow |
| `ContextPacket.BuildContextPacket` | packages/context/src/packet.ts:39-62 | the loop computes the greedy choice over the priority ranking |
| `ContextPacket.PacketIsLexGreatest` | packages/context/src/packet.ts:34-56 | of all choices within the budget the packet holds the one that keeps the highest-ranked item on which they differ |
| `ContextPacket.PacketConserves` | packages/context/src/packet.ts:45-61 | held and dropped items partition the input, the total is exact and within budget |
| `ContextPacket.DroppedOverflows` | packages/context/src/packet.ts:49-54 | nothing dropped would still fit |
| `ContextPacket.LowestPriorityDroppedFirst` | packages/context/src/packet.ts:29-56 | nothing dropped has a higher priority than something held exactly when everything fits, or nothing of lower priority than the first item that does not fit would fit beside what is kept of the others |
| `ContextPacket.LowestRankDroppedFirst` | packages/context/src/packet.ts:29-56 | nothing kept ranks below anything dropped, ties of priority in input order, exactly when no item past the fitting prefix fits beside it; then the packet is that prefix of the ranking |
| `ContextPacket.HighPriorityDropped` | packages/context/src/packet.ts:29-30 | a concrete pair of which the item of higher priority is dropped and the lower one kept |
| `ContextPacket.PacketOrder` | packages/context/src/packet.ts:57-59 | the packet is ordered by tier, then priority, then input order |
| `Provisioning.ProvisioningService.HandleEvent` | apps/control-plane/src/webhooks/provisioning.ts:32-57 | each event runs its transaction; a violated constraint rolls it back |
| `Provisioning.ProvisioningService.SyncInTransaction` | apps/control-plane/src/webhooks/provisioning.ts:60-66 | organization, user and membership are written together or not at all |
| `Provisioning.ProvisioningService.SelectAndWrite` | apps/control-plane/src/webhooks/provisioning.ts:167-190 | the org-level row is updated if it is there, inserted otherwise |
| `ProvisioningRuns.EventRefines` | apps/control-plane/src/webhooks/provisioning.ts:32-57 | every event keeps at most one org-level row per user and is, for every subject, one step of the map from subject to seat |
| `ProvisioningRuns.RunRefines` | apps/control-plane/src/webhooks/provisioning.ts:14-20 | over any sequence of events the resolver answers what the map says |
| `ProvisioningRuns.ResolveIsSeat` | apps/control-plane/src/auth/principal-resolver.ts:27-72 | the resolver reads the seat: the org-level role first, else a team role, else no access |
| `ProvisioningRuns.SyncOutcome` | apps/control-plane/src/webhooks/provisioning.ts:59-66 | a sync succeeds exactly when slug and address are free and the user is not tied to another organization; then exactly the three rows are in place |
| `ProvisioningRuns.SyncGrants` | apps/control-plane/src/webhooks/provisioning.ts:59-66 | an accepted sync gives its subject exactly its organization and role until the next event about it |
| `ProvisioningRuns.RefusedSyncWritesNothing` | apps/control-plane/src/webhooks/provisioning.ts:61 | a sync that is not acceptable writes nothing at all |
| `ProvisioningRuns.MemberStaysInTenant` | packages/db/src/schema/tenancy.ts:96-100 | a person with access in one organization is never moved to another by a membership event |
| `ProvisioningRuns.OthersUnaffected` | apps/control-plane/src/webhooks/provisioning.ts:32-57 | events about others and about organizations change nothing for a subject |
| `ProvisioningRuns.DeletionHolds` | apps/control-plane/src/webhooks/provisioning.ts:102-108 | a deleted user has no access until a sync of it is accepted again |
| `ProvisioningRuns.DeletedUserCannotReturn` | packages/db/src/schema/tenancy.ts:41 | re-adding a deleted user under the same address to the same organization is refused |
| `ProvisioningRuns.RemovalEndsAccess` | apps/control-plane/src/webhooks/provisioning.ts:87-100 | removing a membership ends access exactly when the user is in no team there |
| `ProvisioningRuns.ProfileRefines` | apps/control-plane/src/webhooks/provisioning.ts:68-77 | a profile update is refused exactly when a colleague has the address, and changes no seat |
| `ProvisioningRuns.RepeatingChangesNothing` | apps/control-plane/src/webhooks/provisioning.ts:32-57 | a second delivery of any event changes nothing more |
| `BusinessConstitution.ConstitutionService.ProposeConstitution` | apps/control-plane/src/services/drizzle-business-constitution-service.ts:28-77 | a proposal inserts the next version and its rules in one transaction |
| `BusinessConstitution.ConstitutionService.ApproveConstitution` | apps/control-plane/src/services/drizzle-business-constitution-service.ts:80-139 | an approval supersedes the approved row and approves the candidate in one transaction |
| `BusinessConstitution.EveryRun` | apps/control-plane/src/services/drizzle-business-constitution-service.ts:28-165 | over any serial run versions rise, at most one row per organization is approved, and the active one is the last human-approved, names who approved it, and has the rules it was proposed with |
| `BusinessConstitution.StepTells` | apps/control-plane/src/services/drizzle-business-constitution-service.ts:28-139 | every transaction keeps the tables equal to what the history of proposals and approvals says |
| `BusinessConstitution.ActiveIsLastApproved` | apps/control-plane/src/services/drizzle-business-constitution-service.ts:141-165 | the active constitution is the one a human approved last; its row names that human, and its rules are exactly those it was proposed with |
| `BusinessConstitution.VersionsAreConsecutive` | apps/control-plane/src/services/drizzle-business-constitution-service.ts:35-40 | the versions of an organization are exactly 1 to n, each once |
| `BusinessConstitution.AtMostOneApproved` | apps/control-plane/src/services/drizzle-business-constitution-service.ts:102-110 | at most one constitution of an organization is approved |
| `BusinessConstitution.ProposeOutcome` | apps/control-plane/src/services/drizzle-business-constitution-service.ts:35-45 | a proposal is accepted exactly when its proposer belongs to the organization |
| `BusinessConstitution.ApproveOutcome` | apps/control-plane/src/services/drizzle-business-constitution-service.ts:86-100 | an approval counts exactly when a human of the organization approves an open draft of it, and returns its rules |
| `BusinessConstitution.RowsAge` | apps/control-plane/src/services/drizzle-business-constitution-service.ts:86-123 | statuses move only from proposed to approved to superseded, and only a human approval makes a row approved |
| `BusinessConstitution.TenantsAreIsolated` | apps/control-plane/src/services/drizzle-business-constitution-service.ts:28-139 | a step of one tenant leaves the rows and the active constitution of every other alone |
| `CostGovernor.SummarizeByModel` | packages/cost-governor/src/ledger.ts:56-78 | each model gets the means over its own evaluations, and every model with evaluations gets one |
| `CostGovernor.SummariesConserve` | packages/cost-governor/src/ledger.ts:66-77 | counts and count-weighted means add up to the ungrouped totals; rates lie between 0 and 1 |
| `CostGovernor.AverageQualityInRange` | packages/cost-governor/src/ledger.ts:40-41 | scores between 0 and 1 average to a score between 0 and 1 |

## Left out

- Random ids and clocks: event ids and timestamps, `objectiveId` and correlation ids that `createEvent` adds to events, row timestamps; a fresh id is an id not used before.
- graphile-worker beyond its contract: leases, attempt limits and cron; `add_job` with a key replaces the queued job of that key or inserts one, and a taken job is delivered until a handler of it returns. No liveness is claimed beyond that.
- Exactly-once side effects: a redelivered job may run an adapter again before its commit is refused; applied commits are bounded, executions are not.
- A bus that fails inside the orchestrator's `try`: the worker hands it the buffer, which cannot fail.
- Adapter methods that throw outside the modelled path (`estimate`, `reportUsage`, `classifyError`), and adapter contexts.
- The Postgres outbox store: it sorts by creation time only, so order is proved for the in-memory store.
- Concurrent constitution and provisioning transactions: they take no locks and are modelled as serial steps.
- The order in which Postgres returns unordered rows: rows are read in insertion order, which matters only for the role of a user whose memberships are all in teams.
- Tables other code writes: teams, projects and the rows of other tables that refer to a user appear as given rows whose constraints must go on holding.
- Floating-point rounding: costs, budgets and scores are reals, and a printed number is given by its shortest decimal digits.
- Sparse arrays, dates, `toJSON` and prototype properties in JSON values; integer-like keys are assumed to stand first, as JavaScript keeps them.
- Overrides of the policy engine (`roleCeilings`, `killSwitches`) and the shape checks inside policy and budget objects: orders run with the default settings, and how the engine and the governor read the two objects is a parameter.
- 32-bit limits of integer columns (`version`, `threshold_minor`, `retry_count`).
- `UsageLedger.totalUsd`, `BusinessGraph`, objectives, HTTP routes beyond the hints a dispatch hands on, token and webhook verification, the adapters themselves and the web application.
