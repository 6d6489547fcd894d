/** What every run of the orchestrator keeps. */
module OrchestratorRuns {
  import opened Basics
  import opened Events
  import opened Policy
  import opened CostGovernor
  import opened ModelRouter
  import opened WorkRouter
  import opened Adapters
  import opened WorkOrders
  import opened Orchestrator
  import opened CapabilityCatalogs

  // ------------------------------------------------ an order's options, as one flat list

  /** Something an order may be executed by: a wired capability or a wired model. */
  datatype Choice =
    | ByCapability(capability: RegisteredCapability, capabilityAdapter: CapabilityAdapter)
    | ByModel(model: ModelEntry, modelAdapter: ModelAdapter)

  function WiredCapabilities(deps: Deps, cs: seq<RegisteredCapability>): seq<Choice>
    decreases cs
  {
    if cs == [] then []
    else
      var a := WiredCapability(deps, cs[0].id);
      (if a.Some? then [ByCapability(cs[0], a.value)] else []) + WiredCapabilities(deps, cs[1..])
  }

  function WiredModels(deps: Deps, ms: seq<ModelEntry>): seq<Choice>
    decreases ms
  {
    if ms == [] then []
    else
      var a := deps.resolveModelAdapter(ms[0].id);
      (if a.Some? then [ByModel(ms[0], a.value)] else []) + WiredModels(deps, ms[1..])
  }

  function ModelChoices(order: Order, deps: Deps): seq<Choice> {
    if order.modelRequest.None? then [] else WiredModels(deps, Chain(ModelInput(order), deps.modelRegistry))
  }

  function Allowed(order: Order): bool {
    order.policy.None? || Evaluate(order.policy.value).Allow?
  }

  /**
   * Every option of an order, in the order they may be tried: wired capabilities, then,
   * only for an AI class or an allowed escalation, the wired models.
   */
  function Choices(order: Order, items: seq<RegisteredCapability>, deps: Deps): seq<Choice> {
    var cls := RouteWork(WorkInput(order), items).executionClass;
    var cs := WiredCapabilities(deps, CandidateCapabilities(WorkInput(order), items));
    if !Allowed(order) || cls == Human then []
    else if IsAi(cls) then ModelChoices(order, deps)
    else if cs != [] && order.needsReasoning == Some(true) then cs + ModelChoices(order, deps)
    else cs
  }

  function ExecutionOf(c: Choice): Execution {
    match c
    case ByCapability(capability, _) => OfCapability(capability)
    case ByModel(model, _) => OfModel(model)
  }

  function Executions(cs: seq<Choice>): (r: seq<Execution>)
    ensures |r| == |cs| && forall i :: 0 <= i < |cs| ==> r[i] == ExecutionOf(cs[i])
  {
    seq(|cs|, i requires 0 <= i < |cs| => ExecutionOf(cs[i]))
  }

  function Estimate(c: Choice, n: nat): real {
    match c
    case ByCapability(_, a) => a.estimate(n)
    case ByModel(_, a) => a.estimate(n)
  }

  /** What executing the option as the n-th execution of the run comes to. */
  datatype Verdict = TooExpensive | Succeeds | FailsForGood | FailsRetryably

  function Judge(order: Order, c: Choice, n: nat): Verdict {
    if !Affordable(order, Estimate(c, n)) then TooExpensive
    else
      match c
      case ByCapability(_, a) =>
        (match a.execute(n)
         case Done(_) => Succeeds
         case Threw(e) => if IsRetryable(e) then FailsRetryably else FailsForGood)
      case ByModel(_, a) =>
        (match a.execute(n)
         case Done(_) => Succeeds
         case Threw(e) => if IsRetryable(e) then FailsRetryably else FailsForGood)
  }

  /** The first option that does not just fail retryably; the i-th is tried as execution n + i. */
  function FirstDecisive(order: Order, cs: seq<Choice>, n: nat): (i: nat)
    ensures i <= |cs|
    decreases cs
  {
    if cs == [] || Judge(order, cs[0], n) != FailsRetryably then 0
    else 1 + FirstDecisive(order, cs[1..], n + 1)
  }

  lemma {:induction false} FirstDecisiveIsFirst(order: Order, cs: seq<Choice>, n: nat, j: nat)
    requires j <= FirstDecisive(order, cs, n) && j < |cs|
    ensures Judge(order, cs[j], n + j) == FailsRetryably <==> j < FirstDecisive(order, cs, n)
    decreases cs
  {
    if j > 0 {
      FirstDecisiveIsFirst(order, cs[1..], n + 1, j - 1);
    }
  }

  function RecordOf(order: Order, c: Choice, n: nat): seq<UsageRecord> {
    match c
    case ByCapability(cap, a) => (match a.execute(n) case Done(v) => [CapabilityRecord(order, cap, v)] case Threw(_) => [])
    case ByModel(m, a) => (match a.execute(n) case Done(v) => [ModelRecord(order, m, v)] case Threw(_) => [])
  }

  /** The result names this option. */
  predicate Names(r: WorkOrderResult, c: Choice) {
    match c
    case ByCapability(cap, _) => r.capabilityId == Some(cap.id) && r.modelId.None? && r.executionClass == Some(cap.executionClass)
    case ByModel(m, _) => r.modelId == Some(m.id) && r.capabilityId.None?
  }

  /** The result passes on what the adapter returned. */
  predicate PassesOn(r: WorkOrderResult, c: Choice, n: nat) {
    match c
    case ByCapability(_, a) =>
      a.execute(n).Done? && r.output == Some(a.execute(n).value.output) && r.text.None? && r.reason.None?
    case ByModel(_, a) =>
      a.execute(n).Done? && r.text == Some(a.execute(n).value.text) && r.output.None? && r.reason.None?
  }

  /** How a run that has executed `ran` ends when `c`, tried next, is decisive. */
  ghost predicate DecidedBy(order: Order, c: Choice, ran: seq<Execution>, result: WorkOrderResult, executed: seq<Execution>,
                            records: seq<UsageRecord>)
  {
    var n := |ran|;
    match Judge(order, c, n)
    case TooExpensive => result.status == BudgetExceeded && Names(result, c) && executed == ran && records == []
    case Succeeds =>
      && result.status == OrderCompleted && Names(result, c) && PassesOn(result, c, n)
      && executed == ran + [ExecutionOf(c)] && records == RecordOf(order, c, n)
    case FailsForGood =>
      && result.status == OrderFailed && result.reason == Some(AdapterError) && (c.ByCapability? ==> Names(result, c))
      && executed == ran + [ExecutionOf(c)] && records == []
    case FailsRetryably => false
  }

  /** `o` is how a run that has executed `ran` goes on, with `cs` left to try and `end` to report after them. */
  ghost predicate Decides(order: Order, cs: seq<Choice>, ran: seq<Execution>, end: Reason, o: Outcome)
    decreases cs
  {
    if cs == [] then
      && o.executed == ran && o.records == [] && o.result.reason == Some(end)
      && o.result.status != OrderCompleted && o.result.status != BudgetExceeded
    else if Judge(order, cs[0], |ran|) == FailsRetryably then Decides(order, cs[1..], ran + [ExecutionOf(cs[0])], end, o)
    else DecidedBy(order, cs[0], ran, o.result, o.executed, o.records)
  }

  lemma {:induction false} DecidesAtFirst(order: Order, cs: seq<Choice>, ran: seq<Execution>, end: Reason, o: Outcome)
    requires Decides(order, cs, ran, end, o)
    ensures var i := FirstDecisive(order, cs, |ran|);
            if i < |cs| then DecidedBy(order, cs[i], ran + Executions(cs[..i]), o.result, o.executed, o.records)
            else
              && o.executed == ran + Executions(cs) && o.records == [] && o.result.reason == Some(end)
              && o.result.status != OrderCompleted && o.result.status != BudgetExceeded
    decreases cs
  {
    if cs == [] || Judge(order, cs[0], |ran|) != FailsRetryably {
      assert ran + Executions(cs[..0]) == ran;
      assert cs == [] ==> ran + Executions(cs) == ran;
    } else {
      var now := ran + [ExecutionOf(cs[0])];
      DecidesAtFirst(order, cs[1..], now, end, o);
      var i := FirstDecisive(order, cs[1..], |now|);
      ExecutionsPastFirst(cs, ran, i);
      ExecutionsPastFirst(cs, ran, |cs| - 1);
      assert cs[1..][..|cs| - 1] == cs[1..] && cs[..|cs|] == cs;
    }
  }

  lemma ExecutionsPastFirst(cs: seq<Choice>, ran: seq<Execution>, i: nat)
    requires i < |cs|
    ensures ran + [ExecutionOf(cs[0])] + Executions(cs[1..][..i]) == ran + Executions(cs[..1 + i])
    ensures i < |cs[1..]| ==> cs[1..][i] == cs[1 + i]
  {
  }

  ghost predicate EndsAs(leg: Leg, o: Outcome) {
    leg.Ended? && o.result == leg.result && o.executed == leg.executed && o.records == leg.records
  }

  lemma TryCapabilityJudged(order: Order, c: RegisteredCapability, a: CapabilityAdapter, ran: seq<Execution>, o: Outcome)
    ensures var leg, choice := TryCapability(order, c, a, ran), ByCapability(c, a);
            if Judge(order, choice, |ran|) == FailsRetryably then leg == FellThrough(ran + [ExecutionOf(choice)])
            else leg.Ended? && (EndsAs(leg, o) ==> DecidedBy(order, choice, ran, o.result, o.executed, o.records))
  {
  }

  lemma TryModelJudged(order: Order, cls: ExecutionClass, m: ModelEntry, a: ModelAdapter, ran: seq<Execution>, o: Outcome)
    ensures var leg, choice := TryModel(order, cls, m, a, ran), ByModel(m, a);
            if Judge(order, choice, |ran|) == FailsRetryably then leg == FellThrough(ran + [ExecutionOf(choice)])
            else leg.Ended? && (EndsAs(leg, o) ==> DecidedBy(order, choice, ran, o.result, o.executed, o.records))
  {
  }

  /** The capability loop, with whatever may follow it. */
  lemma {:induction false} CapabilityLegDecides(order: Order, deps: Deps, cs: seq<RegisteredCapability>, more: seq<Choice>,
                                                ran: seq<Execution>, end: Reason, o: Outcome)
    requires var leg := CapabilityLeg(order, deps, cs, ran);
             if leg.Ended? then EndsAs(leg, o) else Decides(order, more, leg.executed, end, o)
    ensures Decides(order, WiredCapabilities(deps, cs) + more, ran, end, o)
    decreases cs
  {
    var ws := WiredCapabilities(deps, cs);
    if cs == [] {
      assert ws + more == more;
    } else {
      var a := WiredCapability(deps, cs[0].id);
      var rest := WiredCapabilities(deps, cs[1..]);
      if a.None? {
        CapabilityLegDecides(order, deps, cs[1..], more, ran, end, o);
        assert ws == rest;
      } else {
        TryCapabilityJudged(order, cs[0], a.value, ran, o);
        assert (ws + more)[0] == ByCapability(cs[0], a.value) && (ws + more)[1..] == rest + more;
        if Judge(order, ByCapability(cs[0], a.value), |ran|) == FailsRetryably {
          CapabilityLegDecides(order, deps, cs[1..], more, ran + [OfCapability(cs[0])], end, o);
        }
      }
    }
  }

  lemma {:induction false} CapabilityLegCounts(order: Order, deps: Deps, cs: seq<RegisteredCapability>, ran: seq<Execution>)
    ensures var leg := CapabilityLeg(order, deps, cs, ran);
            if leg.Ended? then leg.result.status in {OrderCompleted, BudgetExceeded, OrderFailed}
            else |leg.executed| == |ran| + |WiredCapabilities(deps, cs)|
    decreases cs
  {
    if cs != [] {
      var a := WiredCapability(deps, cs[0].id);
      CapabilityLegCounts(order, deps, cs[1..], ran);
      CapabilityLegCounts(order, deps, cs[1..], ran + [OfCapability(cs[0])]);
    }
  }

  lemma {:induction false} ModelLegDecides(order: Order, deps: Deps, cls: ExecutionClass, ms: seq<ModelEntry>, start: nat,
                                           ran: seq<Execution>, o: Outcome)
    requires start <= |ran| && EndsAs(ModelLeg(order, deps, cls, ms, start, ran), o)
    ensures Decides(order, WiredModels(deps, ms), ran,
                    if |ran| == start && WiredModels(deps, ms) == [] then NoAdapter else AdapterError, o)
    ensures o.result.status in {OrderCompleted, BudgetExceeded, OrderFailed}
    decreases ms
  {
    if ms != [] {
      var a := deps.resolveModelAdapter(ms[0].id);
      var ws, rest := WiredModels(deps, ms), WiredModels(deps, ms[1..]);
      if a.None? {
        ModelLegDecides(order, deps, cls, ms[1..], start, ran, o);
        assert ws == rest;
      } else {
        TryModelJudged(order, cls, ms[0], a.value, ran, o);
        assert ws[0] == ByModel(ms[0], a.value) && ws[1..] == rest;
        if Judge(order, ByModel(ms[0], a.value), |ran|) == FailsRetryably {
          ModelLegDecides(order, deps, cls, ms[1..], start, ran + [OfModel(ms[0])], o);
        }
      }
    }
  }

  /** Why the models, all tried in vain, leave an order failed. */
  function ModelsEnd(order: Order, deps: Deps): Reason {
    if order.modelRequest.None? then MissingModelRequest
    else if Chain(ModelInput(order), deps.modelRegistry) == [] then NoEligibleModel
    else if ModelChoices(order, deps) == [] then NoAdapter
    else AdapterError
  }

  lemma ModelsDecide(order: Order, deps: Deps, cls: ExecutionClass, ran: seq<Execution>)
    ensures var o := ExecuteModels(order, deps, cls, ran);
            && Decides(order, ModelChoices(order, deps), ran, ModelsEnd(order, deps), o)
            && o.result.status in {OrderCompleted, BudgetExceeded, OrderFailed}
            && o == Ran(o.result, o.executed, o.records)
  {
    var o := ExecuteModels(order, deps, cls, ran);
    ChainSoundly(order, deps);
    if order.modelRequest.Some? && RouteModel(ModelInput(order), deps.modelRegistry).Some? {
      ModelLegDecides(order, deps, cls, Chain(ModelInput(order), deps.modelRegistry), |ran|, ran, o);
    }
  }

  lemma ChainSoundly(order: Order, deps: Deps)
    ensures RouteModel(ModelInput(order), deps.modelRegistry).None? <==> Chain(ModelInput(order), deps.modelRegistry) == []
  {
  }

  /** What an allowed order reports when no option decides it. */
  function EndReason(order: Order, items: seq<RegisteredCapability>, deps: Deps): Reason {
    var routing := RouteWork(WorkInput(order), items);
    if routing.executionClass == Human then RoutingReason(routing.reason)
    else if IsAi(routing.executionClass) then ModelsEnd(order, deps)
    else if WiredCapabilities(deps, CandidateCapabilities(WorkInput(order), items)) == [] then NoCapabilityAdapter
    else if order.needsReasoning != Some(true) then AdapterError
    else ModelsEnd(order, deps)
  }

  lemma AllowedRunDecides(order: Order, items: seq<RegisteredCapability>, deps: Deps)
    requires Allowed(order)
    ensures Decides(order, Choices(order, items, deps), [], EndReason(order, items, deps), ExecuteAllowed(order, items, deps))
  {
    var cls := RouteWork(WorkInput(order), items).executionClass;
    if IsAi(cls) {
      ModelsDecide(order, deps, cls, []);
    } else if cls != Human {
      AfterCapabilities(order, items, deps, cls);
      var cs := CandidateCapabilities(WorkInput(order), items);
      var more := Escalation(order, deps, WiredCapabilities(deps, cs));
      CapabilityLegDecides(order, deps, cs, more, [], EndReason(order, items, deps), ExecuteAllowed(order, items, deps));
      assert Choices(order, items, deps) == WiredCapabilities(deps, cs) + more;
    }
  }

  /** The options left when the wired capabilities all failed retryably. */
  function Escalation(order: Order, deps: Deps, ws: seq<Choice>): seq<Choice> {
    if ws != [] && order.needsReasoning == Some(true) then ModelChoices(order, deps) else []
  }

  lemma AfterCapabilities(order: Order, items: seq<RegisteredCapability>, deps: Deps, cls: ExecutionClass)
    requires cls == RouteWork(WorkInput(order), items).executionClass && cls != Human && !IsAi(cls)
    ensures var cs, o := CandidateCapabilities(WorkInput(order), items), ExecuteAllowed(order, items, deps);
            var leg := CapabilityLeg(order, deps, cs, []);
            if leg.Ended? then EndsAs(leg, o)
            else Decides(order, Escalation(order, deps, WiredCapabilities(deps, cs)), leg.executed, EndReason(order, items, deps), o)
  {
    var cs := CandidateCapabilities(WorkInput(order), items);
    CapabilityLegCounts(order, deps, cs, []);
    if CapabilityLeg(order, deps, cs, []).FellThrough? && order.needsReasoning == Some(true) {
      ModelsDecide(order, deps, CloudAi, CapabilityLeg(order, deps, cs, []).executed);
    }
  }

  /**
   * The two loops, their flags and their early exits come to this: go down the flat list of
   * options; each one before the first decisive option was executed, within budget, and
   * failed retryably; the decisive one fixes the status, what is passed on, the usage recorded
   * and the option named; with none, every option was executed, nothing is recorded, and the
   * reason says what was missing.
   */
  lemma RunDecidedByFirstChoice(order: Order, items: seq<RegisteredCapability>, deps: Deps)
    ensures var cs, o := Choices(order, items, deps), Execute(order, items, deps);
            var i := FirstDecisive(order, cs, 0);
            if i < |cs| then DecidedBy(order, cs[i], Executions(cs[..i]), o.result, o.executed, o.records)
            else
              && o.executed == Executions(cs) && o.records == []
              && o.result.status != OrderCompleted && o.result.status != BudgetExceeded
              && (Allowed(order) ==> o.result.reason == Some(EndReason(order, items, deps)))
  {
    if Allowed(order) {
      AllowedRunDecides(order, items, deps);
      DecidesAtFirst(order, Choices(order, items, deps), [], EndReason(order, items, deps), Execute(order, items, deps));
      NothingBefore(Choices(order, items, deps));
    }
  }

  lemma NothingBefore(cs: seq<Choice>)
    ensures [] + Executions(cs) == Executions(cs)
    ensures forall i :: 0 <= i <= |cs| ==> [] + Executions(cs[..i]) == Executions(cs[..i])
  {
  }

  /**
   * What was executed is a prefix of the options, in order and without a gap; each of them was
   * within budget, and all but the last failed retryably.
   */
  lemma ExecutedChoices(order: Order, items: seq<RegisteredCapability>, deps: Deps)
    ensures var cs, executed := Choices(order, items, deps), Execute(order, items, deps).executed;
            && |executed| <= |cs|
            && executed == Executions(cs[..|executed|])
            && (forall j :: 0 <= j < |executed| ==> Affordable(order, Estimate(cs[j], j)))
            && (forall j :: 0 <= j < |executed| - 1 ==> Judge(order, cs[j], j) == FailsRetryably)
  {
    RunDecidedByFirstChoice(order, items, deps);
    var cs, o := Choices(order, items, deps), Execute(order, items, deps);
    ExecutedIsPrefix(order, cs, o);
    forall j | 0 <= j < |o.executed|
      ensures Affordable(order, Estimate(cs[j], j))
      ensures j < |o.executed| - 1 ==> Judge(order, cs[j], j) == FailsRetryably
    {
      ExecutedBefore(order, cs, o, j);
    }
  }

  ghost predicate EndsWell(order: Order, cs: seq<Choice>, o: Outcome) {
    var i := FirstDecisive(order, cs, 0);
    if i < |cs| then DecidedBy(order, cs[i], Executions(cs[..i]), o.result, o.executed, o.records) else o.executed == Executions(cs)
  }

  lemma ExecutedIsPrefix(order: Order, cs: seq<Choice>, o: Outcome)
    requires EndsWell(order, cs, o)
    ensures |o.executed| <= |cs| && o.executed == Executions(cs[..|o.executed|])
  {
    var i := FirstDecisive(order, cs, 0);
    if i < |cs| {
      assert Executions(cs[..i]) + [ExecutionOf(cs[i])] == Executions(cs[..i + 1]);
    } else {
      assert cs[..|cs|] == cs;
    }
  }

  lemma ExecutedBefore(order: Order, cs: seq<Choice>, o: Outcome, j: nat)
    requires EndsWell(order, cs, o) && j < |o.executed| <= |cs|
    ensures Affordable(order, Estimate(cs[j], j))
    ensures j + 1 < |o.executed| ==> Judge(order, cs[j], j) == FailsRetryably
  {
    FirstDecisiveIsFirst(order, cs, 0, j);
    JudgedAffordable(order, cs[j], j);
  }

  lemma JudgedAffordable(order: Order, c: Choice, n: nat)
    ensures Judge(order, c, n) == TooExpensive <==> !Affordable(order, Estimate(c, n))
  {
  }

  /** The statuses an order has before any option is tried, and exactly when. */
  lemma ParkedRuns(order: Order, items: seq<RegisteredCapability>, deps: Deps)
    ensures var s := Execute(order, items, deps).result.status;
            var cls := RouteWork(WorkInput(order), items).executionClass;
            && (s == Denied <==> order.policy.Some? && Evaluate(order.policy.value).Deny?)
            && (s == ApprovalNeeded <==> order.policy.Some? && Evaluate(order.policy.value).RequiresApproval?)
            && (s == AwaitingHuman <==> Allowed(order) && cls == Human)
            && (s == OrderBlocked <==> Allowed(order) && cls != Human && !IsAi(cls) && Choices(order, items, deps) == [])
  {
    if Allowed(order) {
      AllowedStatus(order, items, deps, RouteWork(WorkInput(order), items).executionClass);
      NoChoices(order, items, deps, RouteWork(WorkInput(order), items).executionClass);
    }
  }

  lemma AllowedStatus(order: Order, items: seq<RegisteredCapability>, deps: Deps, cls: ExecutionClass)
    requires cls == RouteWork(WorkInput(order), items).executionClass
    ensures var s := ExecuteAllowed(order, items, deps).result.status;
            var ws := WiredCapabilities(deps, CandidateCapabilities(WorkInput(order), items));
            && s != Denied && s != ApprovalNeeded
            && (s == AwaitingHuman <==> cls == Human)
            && (s == OrderBlocked <==> cls != Human && !IsAi(cls) && ws == [])
  {
    if IsAi(cls) {
      ModelsDecide(order, deps, cls, []);
    } else if cls != Human {
      var cs := CandidateCapabilities(WorkInput(order), items);
      LegStatus(order, deps, cs);
      ModelsDecide(order, deps, CloudAi, CapabilityLeg(order, deps, cs, []).executed);
    }
  }

  lemma LegStatus(order: Order, deps: Deps, cs: seq<RegisteredCapability>)
    ensures var leg := CapabilityLeg(order, deps, cs, []);
            && (leg.Ended? ==> leg.result.status in {OrderCompleted, BudgetExceeded, OrderFailed})
            && (leg == FellThrough([]) <==> WiredCapabilities(deps, cs) == [])
  {
    CapabilityLegCounts(order, deps, cs, []);
    if WiredCapabilities(deps, cs) == [] {
      EmptyLeg(order, deps, cs, []);
    }
  }

  lemma NoChoices(order: Order, items: seq<RegisteredCapability>, deps: Deps, cls: ExecutionClass)
    requires Allowed(order) && cls == RouteWork(WorkInput(order), items).executionClass
    ensures cls != Human && !IsAi(cls) ==>
              (Choices(order, items, deps) == [] <==> WiredCapabilities(deps, CandidateCapabilities(WorkInput(order), items)) == [])
  {
  }

  lemma {:induction false} EmptyLeg(order: Order, deps: Deps, cs: seq<RegisteredCapability>, ran: seq<Execution>)
    requires WiredCapabilities(deps, cs) == []
    ensures CapabilityLeg(order, deps, cs, ran) == FellThrough(ran)
    decreases cs
  {
    if cs != [] {
      EmptyLeg(order, deps, cs[1..], ran);
    }
  }

  // ---------------------------------------------------------------- traces

  /**
   * The language of traces: a single refusal or approval request, or a plan, one pair of
   * events for each adapter execution, and one closing event; and the closing event is the
   * one that belongs to the result.
   */
  lemma TraceGrammar(order: Order, items: seq<RegisteredCapability>, deps: Deps)
    ensures var o := Execute(order, items, deps);
            && (if o.result.status == Denied then o.trace == [TaskBlocked]
                else if o.result.status == ApprovalNeeded then o.trace == [ApprovalRequested]
                else o.trace == [TaskPlanned] + Pairs(|o.executed|) + [Terminal(o.result.status)])
            && (o.result.status in {Denied, ApprovalNeeded} ==> o.executed == [])
            && o.trace != [] && o.trace[|o.trace| - 1] == Terminal(o.result.status)
  {
    if Allowed(order) {
      RoutedRan(order, items, deps, RouteWork(WorkInput(order), items).executionClass);
      ParkedRuns(order, items, deps);
    }
  }

  lemma RoutedRan(order: Order, items: seq<RegisteredCapability>, deps: Deps, cls: ExecutionClass)
    requires cls == RouteWork(WorkInput(order), items).executionClass
    ensures var o := ExecuteAllowed(order, items, deps);
            o == Ran(o.result, o.executed, o.records)
  {
    if IsAi(cls) {
      ModelsRan(order, deps, cls, []);
    } else if cls != Human {
      ModelsRan(order, deps, CloudAi, CapabilityLeg(order, deps, CandidateCapabilities(WorkInput(order), items), []).executed);
    }
  }

  lemma ModelsRan(order: Order, deps: Deps, cls: ExecutionClass, ran: seq<Execution>)
    ensures var o := ExecuteModels(order, deps, cls, ran);
            o == Ran(o.result, o.executed, o.records)
  {
  }

  /** One record, of this order, naming the adapter the result names; or none. */
  ghost predicate RecordedRight(order: Order, result: WorkOrderResult, records: seq<UsageRecord>) {
    if result.status != OrderCompleted then records == []
    else
      && |records| == 1 && records[0].taskId == order.taskId
      && (if records[0].supplier.ModelSupplier? then result.modelId == Some(records[0].modelId)
          else result.capabilityId == Some(records[0].modelId))
  }

  lemma DecidedRecords(order: Order, c: Choice, ran: seq<Execution>, result: WorkOrderResult, executed: seq<Execution>, records: seq<UsageRecord>)
    requires DecidedBy(order, c, ran, result, executed, records)
    ensures RecordedRight(order, result, records)
  {
  }

  /** The ledger gains one record, naming the adapter returned, exactly when the order completes. */
  lemma LedgerIffCompleted(order: Order, items: seq<RegisteredCapability>, deps: Deps)
    ensures var o := Execute(order, items, deps);
            RecordedRight(order, o.result, o.records)
  {
    RunDecidedByFirstChoice(order, items, deps);
    var cs, o := Choices(order, items, deps), Execute(order, items, deps);
    var i := FirstDecisive(order, cs, 0);
    if i < |cs| {
      DecidedRecords(order, cs[i], Executions(cs[..i]), o.result, o.executed, o.records);
    }
  }

  // ---------------------------------------------------------------- privacy

  lemma {:induction false} WiredModelsFromChain(deps: Deps, ms: seq<ModelEntry>, c: Choice)
    requires c in WiredModels(deps, ms)
    ensures c.ByModel? && c.model in ms
    decreases ms
  {
    if c in WiredModels(deps, ms[1..]) {
      WiredModelsFromChain(deps, ms[1..], c);
    }
  }

  lemma {:induction false} WiredCapabilitiesOnly(deps: Deps, cs: seq<RegisteredCapability>, c: Choice)
    requires c in WiredCapabilities(deps, cs)
    ensures c.ByCapability? && c.capability in cs
    decreases cs
  {
    if c in WiredCapabilities(deps, cs[1..]) {
      WiredCapabilitiesOnly(deps, cs[1..], c);
    }
  }

  /** An order that must stay local never has a model elsewhere among its options. */
  lemma LocalChoices(order: Order, items: seq<RegisteredCapability>, deps: Deps, c: Choice)
    requires order.requireLocal == Some(true)
    requires c in Choices(order, items, deps) && c.ByModel?
    ensures c.model.privacy == Local && c.model in deps.modelRegistry
  {
    var cs := CandidateCapabilities(WorkInput(order), items);
    if c in WiredCapabilities(deps, cs) {
      WiredCapabilitiesOnly(deps, cs, c);
    }
    WiredModelsFromChain(deps, Chain(ModelInput(order), deps.modelRegistry), c);
    LocalChain(ModelInput(order), deps.modelRegistry, c.model);
    ChainSound(ModelInput(order), deps.modelRegistry, c.model);
  }

  /** A run of an order that must stay local never executes a model elsewhere. */
  lemma RequireLocalStaysLocal(order: Order, items: seq<RegisteredCapability>, deps: Deps, e: Execution)
    requires order.requireLocal == Some(true)
    requires e in Execute(order, items, deps).executed && e.OfModel?
    ensures e.model.privacy == Local && e.model in deps.modelRegistry
  {
    ExecutedChoices(order, items, deps);
    var cs, executed := Choices(order, items, deps), Execute(order, items, deps).executed;
    var j :| 0 <= j < |executed| && executed[j] == e;
    assert e == ExecutionOf(cs[j]) && cs[j] in cs;
    LocalChoices(order, items, deps, cs[j]);
  }

  // ---------------------------------------------------------------- the catalog wiring

  /** The dependencies the worker wires from a catalog whose entries have grown since. */
  ghost predicate WiredFrom(deps: Deps, m: Entries) {
    && deps.resolveCapabilityAdapter.Some?
    && forall id :: deps.resolveCapabilityAdapter.value(id) == Resolve(m, id)
  }

  /**
   * Wired from one catalog, an order is never parked for want of an adapter, whatever is
   * registered after the routing registry was taken.
   */
  lemma NeverBlockedByWiring(order: Order, m: Entries, later: seq<Registration>, deps: Deps)
    requires ValidEntries(m) && WiredFrom(deps, SetAll(m, later))
    ensures Execute(order, Snapshot(m), deps).result.status != OrderBlocked
  {
    var input, items := WorkInput(order), Snapshot(m);
    var cls := RouteWork(input, items).executionClass;
    var cs := CandidateCapabilities(input, items);
    MatchIsFirstCandidate(input, items);
    if Allowed(order) && cls != Human && !IsAi(cls) {
      CandidatesResolve(m, later, input, cs[0]);
      assert WiredCapability(deps, cs[0].id).Some?;
      assert WiredCapabilities(deps, cs) != [];
    }
    ParkedRuns(order, items, deps);
  }

  // ---------------------------------------------------------------- execution classes

  lemma {:induction false} ModelLegClass(order: Order, deps: Deps, cls: ExecutionClass, ms: seq<ModelEntry>, start: nat,
                                         ran: seq<Execution>)
    requires start <= |ran|
    ensures ModelLeg(order, deps, cls, ms, start, ran).result.executionClass == Some(cls)
    decreases ms
  {
    if ms != [] {
      ModelLegClass(order, deps, cls, ms[1..], start, ran);
      ModelLegClass(order, deps, cls, ms[1..], start, ran + [OfModel(ms[0])]);
    }
  }

  lemma {:induction false} CapabilityLegNamesNoModel(order: Order, deps: Deps, cs: seq<RegisteredCapability>, ran: seq<Execution>)
    ensures var leg := CapabilityLeg(order, deps, cs, ran);
            leg.Ended? ==> leg.result.modelId.None?
    decreases cs
  {
    if cs != [] {
      CapabilityLegNamesNoModel(order, deps, cs[1..], ran);
      CapabilityLegNamesNoModel(order, deps, cs[1..], ran + [OfCapability(cs[0])]);
    }
  }

  lemma ModelsKeepClass(order: Order, deps: Deps, cls: ExecutionClass, ran: seq<Execution>)
    ensures ExecuteModels(order, deps, cls, ran).result.executionClass == Some(cls)
  {
    if order.modelRequest.Some? && RouteModel(ModelInput(order), deps.modelRegistry).Some? {
      ModelLegClass(order, deps, cls, Chain(ModelInput(order), deps.modelRegistry), |ran|, ran);
    }
  }

  /** A model is reported under the AI class that was routed, or as cloud AI after an escalation. */
  lemma ModelsRunAsAi(order: Order, items: seq<RegisteredCapability>, deps: Deps)
    ensures var cls := RouteWork(WorkInput(order), items).executionClass;
            var r := Execute(order, items, deps).result;
            r.modelId.Some? ==> r.executionClass == Some(if IsAi(cls) then cls else CloudAi)
  {
    if Allowed(order) {
      var cls, cs := RouteWork(WorkInput(order), items).executionClass, CandidateCapabilities(WorkInput(order), items);
      if IsAi(cls) {
        ModelsKeepClass(order, deps, cls, []);
      } else if cls != Human {
        CapabilityLegNamesNoModel(order, deps, cs, []);
        ModelsKeepClass(order, deps, CloudAi, CapabilityLeg(order, deps, cs, []).executed);
      }
    }
  }
}
