/**
 * apps/worker/src/work-order-payload.ts: reading a job payload back into a work order, and the
 * trip an order makes through the queue each time it is enqueued.
 */
module WorkOrderPayload {
  import opened Basics
  import opened JsonValues
  import opened JsonText
  import opened Events
  import opened WorkOrders

  datatype InvalidWorkOrder =
    | PayloadNotAnObject
    | NotANonEmptyString(key: Text)
    | NotAString(key: Text)
    | NotABoolean(key: Text)
    | NotAFiniteNumber(key: Text)
    | NotAStringArray(key: Text)
    | NotAnObject(key: Text)
    | NoMessages
    | BadMessage(index: nat)

  const ORGANIZATION_ID: Text := Spell("organizationId")
  const REQUIRED_CAPABILITIES: Text := Spell("requiredCapabilities")
  const TASK_ID: Text := Spell("taskId")
  const CORRELATION_ID: Text := Spell("correlationId")
  const PREFERS_HUMAN: Text := Spell("prefersHuman")
  const NEEDS_REASONING: Text := Spell("needsReasoning")
  const REASONING_TIER: Text := Spell("reasoningTier")
  const NEEDS_TOOLS: Text := Spell("needsTools")
  const NEEDS_VISION: Text := Spell("needsVision")
  const REQUIRE_LOCAL: Text := Spell("requireLocal")
  const MIN_CONTEXT_TOKENS: Text := Spell("minContextTokens")
  const MODEL_REQUEST: Text := Spell("modelRequest")
  const POLICY: Text := Spell("policy")
  const BUDGET: Text := Spell("budget")
  const ACTOR: Text := Spell("actor")
  const CAPABILITY_INPUT: Text := Spell("capabilityInput")
  const MESSAGES: Text := Spell("messages")
  const MAX_OUTPUT_TOKENS: Text := Spell("maxOutputTokens")
  const ROLE: Text := Spell("role")
  const CONTENT: Text := Spell("content")
  const TYPE: Text := Spell("type")
  const ID: Text := Spell("id")

  // ---------------------------------------------------------------- field readers

  type Read<T> = Result<T, InvalidWorkOrder>

  function RequireString(ms: seq<Member>, key: Text): Read<Text> {
    match Get(ms, key)
    case Str(s) => if s == [] then Failure(NotANonEmptyString(key)) else Success(s)
    case _ => Failure(NotANonEmptyString(key))
  }

  function OptionalString(ms: seq<Member>, key: Text): Read<Option<Text>> {
    match Get(ms, key)
    case Undefined => Success(None)
    case Str(s) => Success(Some(s))
    case _ => Failure(NotAString(key))
  }

  function OptionalBoolean(ms: seq<Member>, key: Text): Read<Option<bool>> {
    ReadBoolean(Get(ms, key), key)
  }

  function ReadBoolean(value: Json, key: Text): Read<Option<bool>> {
    match value
    case Undefined => Success(None)
    case Bool(b) => Success(Some(b))
    case _ => Failure(NotABoolean(key))
  }

  function OptionalNumber(ms: seq<Member>, key: Text): Read<Option<Number>> {
    ReadNumber(Get(ms, key), key)
  }

  function ReadNumber(value: Json, key: Text): Read<Option<Number>> {
    match value
    case Undefined => Success(None)
    case Num(n) => if n.NotFinite? then Failure(NotAFiniteNumber(key)) else Success(Some(n))
    case _ => Failure(NotAFiniteNumber(key))
  }

  predicate AllStrings(items: seq<Json>) {
    forall i :: 0 <= i < |items| ==> items[i].Str?
  }

  function StringArray(ms: seq<Member>, key: Text): Read<seq<Text>> {
    match Get(ms, key)
    case Undefined => Success([])
    case Arr(items) =>
      if AllStrings(items) then Success(seq(|items|, i requires 0 <= i < |items| && items[i].Str? => items[i].s))
      else Failure(NotAStringArray(key))
    case _ => Failure(NotAStringArray(key))
  }

  function ParseMessage(m: Json, index: nat): Read<ModelMessage> {
    if m.Obj? && Get(m.members, ROLE).Str? && Get(m.members, CONTENT).Str? then
      Success(ModelMessage(Get(m.members, ROLE).s, Get(m.members, CONTENT).s))
    else Failure(BadMessage(index))
  }

  function ParseMessages(items: seq<Json>, index: nat): Read<seq<ModelMessage>> {
    if items == [] then Success([])
    else
      var first :- ParseMessage(items[0], index);
      var rest :- ParseMessages(items[1..], index + 1);
      Success([first] + rest)
  }

  function ParseModelRequest(value: Json): Read<ModelRequest<Number>> {
    if !value.Obj? then Failure(NotAnObject(MODEL_REQUEST))
    else
      var messages := Get(value.members, MESSAGES);
      if !messages.Arr? || messages.items == [] then Failure(NoMessages)
      else
        var parsed :- ParseMessages(messages.items, 0);
        var maxOutputTokens :- OptionalNumber(value.members, MAX_OUTPUT_TOKENS);
        var reasoningTier :- OptionalNumber(value.members, REASONING_TIER);
        Success(ModelRequest(parsed, maxOutputTokens, reasoningTier))
  }

  function OptionalModelRequest(ms: seq<Member>): Read<Option<ModelRequest<Number>>> {
    ReadModelRequest(Get(ms, MODEL_REQUEST))
  }

  function ReadModelRequest(value: Json): Read<Option<ModelRequest<Number>>> {
    if value.Undefined? then Success(None)
    else
      var request :- ParseModelRequest(value);
      Success(Some(request))
  }

  /** A structured gate: any object passes. */
  function OptionalObject(ms: seq<Member>, key: Text): Read<Option<Json>> {
    match Get(ms, key)
    case Undefined => Success(None)
    case Obj(gate) => Success(Some(Obj(gate)))
    case _ => Failure(NotAnObject(key))
  }

  /** `parseWorkOrder`: members it does not name, among them `actor` and `capabilityInput`, are dropped. */
  function Parse(payload: Json): Read<QueuedOrder> {
    if !payload.Obj? then Failure(PayloadNotAnObject)
    else
      var ms := payload.members;
      var organizationId :- RequireString(ms, ORGANIZATION_ID);
      var requiredCapabilities :- StringArray(ms, REQUIRED_CAPABILITIES);
      var taskId :- OptionalString(ms, TASK_ID);
      var correlationId :- OptionalString(ms, CORRELATION_ID);
      var prefersHuman :- OptionalBoolean(ms, PREFERS_HUMAN);
      var needsReasoning :- OptionalBoolean(ms, NEEDS_REASONING);
      var reasoningTier :- OptionalNumber(ms, REASONING_TIER);
      var needsTools :- OptionalBoolean(ms, NEEDS_TOOLS);
      var needsVision :- OptionalBoolean(ms, NEEDS_VISION);
      var requireLocal :- OptionalBoolean(ms, REQUIRE_LOCAL);
      var minContextTokens :- OptionalNumber(ms, MIN_CONTEXT_TOKENS);
      var modelRequest :- OptionalModelRequest(ms);
      var policy :- OptionalObject(ms, POLICY);
      var budget :- OptionalObject(ms, BUDGET);
      Success(WorkOrder(organizationId, taskId, correlationId, None, requiredCapabilities, prefersHuman,
                        needsReasoning, reasoningTier, needsTools, needsVision, requireLocal, minContextTokens,
                        modelRequest, None, policy, budget))
  }

  // ---------------------------------------------------------------- the order as an object

  /** A member that is there only when it has a value. */
  datatype Field = Field(key: Text, value: Option<Json>)

  function FieldKeys(fs: seq<Field>): (ks: seq<Text>)
    ensures |ks| == |fs| && forall i :: 0 <= i < |fs| ==> ks[i] == fs[i].key
  {
    seq(|fs|, i requires 0 <= i < |fs| => fs[i].key)
  }

  function Present(fs: seq<Field>): seq<Member> {
    if fs == [] then []
    else (if fs[0].value.Some? then [Member(fs[0].key, fs[0].value.value)] else []) + Present(fs[1..])
  }

  function TextField(v: Option<Text>): Option<Json> {
    if v.Some? then Some(Str(v.value)) else None
  }

  function FlagField(v: Option<bool>): Option<Json> {
    if v.Some? then Some(Bool(v.value)) else None
  }

  function NumberField(v: Option<Number>): Option<Json> {
    if v.Some? then Some(Num(v.value)) else None
  }

  function MessageJson(m: ModelMessage): Json {
    Obj(Present([Field(ROLE, Some(Str(m.role))), Field(CONTENT, Some(Str(m.content)))]))
  }

  function MessagesJson(messages: seq<ModelMessage>): (items: seq<Json>)
    ensures |items| == |messages|
  {
    if messages == [] then [] else [MessageJson(messages[0])] + MessagesJson(messages[1..])
  }

  function RequestFields(r: ModelRequest<Number>): seq<Field> {
    [Field(MESSAGES, Some(Arr(MessagesJson(r.messages)))),
     Field(MAX_OUTPUT_TOKENS, NumberField(r.maxOutputTokens)),
     Field(REASONING_TIER, NumberField(r.reasoningTier))]
  }

  function RequestField(r: Option<ModelRequest<Number>>): Option<Json> {
    if r.Some? then Some(Obj(Present(RequestFields(r.value)))) else None
  }

  function ActorTypeText(t: ActorType): Text {
    match t
    case HumanActor => Spell("human")
    case OrchestratorActor => Spell("orchestrator")
    case AdapterActor => Spell("adapter")
    case CheckerActor => Spell("checker")
  }

  function ActorField(a: Option<Actor>): Option<Json> {
    if a.Some? then
      Some(Obj(Present([Field(TYPE, Some(Str(ActorTypeText(a.value.kind)))), Field(ID, Some(Str(a.value.id)))])))
    else None
  }

  function TextsJson(ts: seq<Text>): (items: seq<Json>)
    ensures |items| == |ts| && forall i :: 0 <= i < |ts| ==> items[i] == Str(ts[i])
  {
    seq(|ts|, i requires 0 <= i < |ts| => Str(ts[i]))
  }

  function Fields(o: QueuedOrder): seq<Field> {
    [Field(ORGANIZATION_ID, Some(Str(o.organizationId))),
     Field(REQUIRED_CAPABILITIES, Some(Arr(TextsJson(o.requiredCapabilities)))),
     Field(TASK_ID, TextField(o.taskId)),
     Field(CORRELATION_ID, TextField(o.correlationId)),
     Field(PREFERS_HUMAN, FlagField(o.prefersHuman)),
     Field(NEEDS_REASONING, FlagField(o.needsReasoning)),
     Field(REASONING_TIER, NumberField(o.reasoningTier)),
     Field(NEEDS_TOOLS, FlagField(o.needsTools)),
     Field(NEEDS_VISION, FlagField(o.needsVision)),
     Field(REQUIRE_LOCAL, FlagField(o.requireLocal)),
     Field(MIN_CONTEXT_TOKENS, NumberField(o.minContextTokens)),
     Field(MODEL_REQUEST, RequestField(o.modelRequest)),
     Field(POLICY, o.policy),
     Field(BUDGET, o.budget),
     Field(ACTOR, ActorField(o.actor)),
     Field(CAPABILITY_INPUT, o.capabilityInput)]
  }

  function OrderJson(o: QueuedOrder): Json {
    Obj(Present(Fields(o)))
  }

  // ---------------------------------------------------------------- through the queue

  /** The payload of the job that carries an order. */
  function JobPayload(o: QueuedOrder): Json {
    Wire(OrderJson(o))
  }

  /** An order as the worker that takes its job reads it. */
  function Delivered(o: QueuedOrder): Read<QueuedOrder> {
    Parse(JobPayload(o))
  }

  // ---------------------------------------------------------------- fields on the wire

  /** A field of the order, read on the other side. */
  lemma {:induction false} WiredField(fs: seq<Field>, i: nat)
    requires Distinct(FieldKeys(fs)) && i < |fs|
    ensures Get(WireMembers(Present(fs)), fs[i].key) == Wire(fs[i].value.GetOr(Undefined))
  {
    WireOfPresent(fs);
    RestDistinct(fs);
    if i == 0 {
      MissingKey(fs[1..], fs[0].key);
      GetHead(WiredHead(fs[0]), WireMembers(Present(fs[1..])), fs[0].key);
    } else {
      WiredField(fs[1..], i - 1);
      assert FieldKeys(fs)[0] != FieldKeys(fs)[i];
      GetSkips(WiredHead(fs[0]), WireMembers(Present(fs[1..])), fs[i].key);
    }
  }

  /** What one field contributes to the object on the wire. */
  function WiredHead(f: Field): (ms: seq<Member>)
    ensures |ms| <= 1 && forall m :: m in ms ==> m.key == f.key
  {
    if f.value.Some? && !f.value.value.Undefined? then [Member(f.key, Wire(f.value.value))] else []
  }

  lemma WireOfPresent(fs: seq<Field>)
    requires fs != []
    ensures WireMembers(Present(fs)) ==
            WiredHead(fs[0]) + WireMembers(Present(fs[1..]))
  {
    if fs[0].value.Some? {
      assert Present(fs)[1..] == Present(fs[1..]);
    } else {
      assert Present(fs) == Present(fs[1..]);
    }
  }

  lemma RestDistinct(fs: seq<Field>)
    requires fs != [] && Distinct(FieldKeys(fs))
    ensures Distinct(FieldKeys(fs[1..])) && fs[0].key !in FieldKeys(fs[1..])
  {
    assert FieldKeys(fs[1..]) == FieldKeys(fs)[1..];
    assert forall j :: 0 <= j < |fs| - 1 ==> FieldKeys(fs[1..])[j] == FieldKeys(fs)[j + 1];
  }

  lemma {:induction false} MissingKey(fs: seq<Field>, key: Text)
    requires key !in FieldKeys(fs)
    ensures key !in Keys(WireMembers(Present(fs)))
  {
    if fs != [] {
      assert FieldKeys(fs)[0] == fs[0].key;
      assert FieldKeys(fs[1..]) == FieldKeys(fs)[1..];
      MissingKey(fs[1..], key);
      WireOfPresent(fs);
    }
  }

  lemma GetSkips(head: seq<Member>, ms: seq<Member>, key: Text)
    requires |head| <= 1 && forall m :: m in head ==> m.key != key
    ensures Get(head + ms, key) == Get(ms, key)
  {
    if head == [] {
      assert head + ms == ms;
    } else {
      assert head == [head[0]];
      GetPastHead(head[0], ms, key);
    }
  }

  lemma GetPastHead(m: Member, ms: seq<Member>, key: Text)
    requires m.key != key
    ensures Get([m] + ms, key) == Get(ms, key)
  {
    var all := [m] + ms;
    assert all[1..] == ms;
    KeysPastHead(m, ms);
    if key in Keys(ms) {
      assert IndexOf(all, key) == 1 + IndexOf(ms, key);
    }
  }

  lemma KeysPastHead(m: Member, ms: seq<Member>)
    ensures Keys([m] + ms) == [m.key] + Keys(ms)
  {
  }

  lemma GetHead(head: seq<Member>, ms: seq<Member>, key: Text)
    requires |head| <= 1 && forall m :: m in head ==> m.key == key
    requires key !in Keys(ms)
    ensures Get(head + ms, key) == if head == [] then Undefined else head[0].value
  {
    if head == [] {
      assert head + ms == ms;
    } else {
      assert head == [head[0]];
      KeysPastHead(head[0], ms);
      assert Keys(head + ms)[0] == key;
    }
  }

  // ---------------------------------------------------------------- one trip of an order

  predicate IsFinite(n: Option<Number>) {
    n.Some? ==> !n.value.NotFinite?
  }

  predicate ReadableRequest(r: ModelRequest<Number>) {
    r.messages != [] && IsFinite(r.maxOutputTokens) && IsFinite(r.reasoningTier)
  }

  predicate ReadableGate(g: Option<Json>) {
    g.Some? ==> g.value.Undefined? || g.value.Obj?
  }

  /** Orders the worker can read back. */
  predicate Readable(o: QueuedOrder) {
    && o.organizationId != []
    && IsFinite(o.reasoningTier)
    && IsFinite(o.minContextTokens)
    && (o.modelRequest.Some? ==> ReadableRequest(o.modelRequest.value))
    && ReadableGate(o.policy)
    && ReadableGate(o.budget)
  }

  function SettledNumber(n: Option<Number>): Option<Number> {
    if n == Some(NegativeZero) then Some(Zero) else n
  }

  function SettledGate(g: Option<Json>): Option<Json> {
    if g.None? || g.value.Undefined? then None else Some(Wire(g.value))
  }

  function SettledRequest(r: ModelRequest<Number>): ModelRequest<Number> {
    ModelRequest(r.messages, SettledNumber(r.maxOutputTokens), SettledNumber(r.reasoningTier))
  }

  /** What is left of an order after one trip. */
  function Settled(o: QueuedOrder): QueuedOrder {
    o.(reasoningTier := SettledNumber(o.reasoningTier),
    minContextTokens := SettledNumber(o.minContextTokens),
    modelRequest := if o.modelRequest.Some? then Some(SettledRequest(o.modelRequest.value)) else None,
    policy := SettledGate(o.policy),
    budget := SettledGate(o.budget),
    actor := None,
    capabilityInput := None)
  }

  lemma PayloadKeysDistinct()
    ensures Distinct([ORGANIZATION_ID, REQUIRED_CAPABILITIES, TASK_ID, CORRELATION_ID, PREFERS_HUMAN, NEEDS_REASONING,
                      REASONING_TIER, NEEDS_TOOLS, NEEDS_VISION, REQUIRE_LOCAL, MIN_CONTEXT_TOKENS, MODEL_REQUEST,
                      POLICY, BUDGET, ACTOR, CAPABILITY_INPUT])
  {
    var ks := [ORGANIZATION_ID, REQUIRED_CAPABILITIES, TASK_ID, CORRELATION_ID, PREFERS_HUMAN, NEEDS_REASONING,
               REASONING_TIER, NEEDS_TOOLS, NEEDS_VISION, REQUIRE_LOCAL, MIN_CONTEXT_TOKENS, MODEL_REQUEST,
               POLICY, BUDGET, ACTOR, CAPABILITY_INPUT];
    // No two of these names share both their length and their first letter.
    var marks := [(14, 'o'), (20, 'r'), (6, 't'), (13, 'c'), (12, 'p'), (14, 'n'), (13, 'r'), (10, 'n'), (11, 'n'),
                  (12, 'r'), (16, 'm'), (12, 'm'), (6, 'p'), (6, 'b'), (5, 'a'), (15, 'c')];
    forall i | 0 <= i < |ks|
      ensures |ks[i]| == marks[i].0 && ks[i][0] == marks[i].1 as int
    {
    }
  }

  lemma {:induction false} TextsSurvive(ts: seq<Text>)
    ensures WireItems(TextsJson(ts)) == TextsJson(ts)
  {
    WireItemsIdentity(TextsJson(ts));
  }

  lemma NumberSurvives(ms: seq<Member>, key: Text, n: Option<Number>)
    requires Get(ms, key) == Wire(NumberField(n).GetOr(Undefined))
    ensures OptionalNumber(ms, key) == if IsFinite(n) then Success(SettledNumber(n)) else Failure(NotAFiniteNumber(key))
  {
  }

  lemma GateSurvives(ms: seq<Member>, key: Text, g: Option<Json>)
    requires Get(ms, key) == Wire(g.GetOr(Undefined))
    ensures OptionalObject(ms, key) == if ReadableGate(g) then Success(SettledGate(g)) else Failure(NotAnObject(key))
  {
  }

  lemma MessageSurvives(m: ModelMessage, index: nat)
    ensures ParseMessage(Wire(MessageJson(m)), index) == Success(m)
  {
    var fs := [Field(ROLE, Some(Str(m.role))), Field(CONTENT, Some(Str(m.content)))];
    assert |ROLE| != |CONTENT|;
    assert Distinct(FieldKeys(fs));
    WiredField(fs, 0);
    WiredField(fs, 1);
  }

  lemma {:induction false} MessagesSurvive(messages: seq<ModelMessage>, index: nat)
    ensures ParseMessages(WireItems(MessagesJson(messages)), index) == Success(messages)
  {
    if messages != [] {
      MessageSurvives(messages[0], index);
      MessagesSurvive(messages[1..], index + 1);
      WireFirst(MessageJson(messages[0]), MessagesJson(messages[1..]));
      ParseFirst(Wire(MessageJson(messages[0])), WireItems(MessagesJson(messages[1..])), index, messages[0], messages[1..]);
      assert messages == [messages[0]] + messages[1..];
    }
  }

  lemma WireFirst(x: Json, rest: seq<Json>)
    requires !x.Undefined?
    ensures WireItems([x] + rest) == [Wire(x)] + WireItems(rest)
  {
    assert ([x] + rest)[1..] == rest;
  }

  lemma ParseFirst(x: Json, rest: seq<Json>, index: nat, m: ModelMessage, ms: seq<ModelMessage>)
    requires ParseMessage(x, index) == Success(m) && ParseMessages(rest, index + 1) == Success(ms)
    ensures ParseMessages([x] + rest, index) == Success([m] + ms)
  {
    assert ([x] + rest)[1..] == rest;
  }

  lemma RequestKeysDistinct(r: ModelRequest<Number>)
    ensures Distinct(FieldKeys(RequestFields(r)))
  {
    assert |MESSAGES| == 8 && |MAX_OUTPUT_TOKENS| == 15 && |REASONING_TIER| == 13;
  }

  lemma RequestNumbersSurvive(r: ModelRequest<Number>)
    ensures var ms := WireMembers(Present(RequestFields(r)));
            && OptionalNumber(ms, MAX_OUTPUT_TOKENS) ==
               (if IsFinite(r.maxOutputTokens) then Success(SettledNumber(r.maxOutputTokens)) else Failure(NotAFiniteNumber(MAX_OUTPUT_TOKENS)))
            && OptionalNumber(ms, REASONING_TIER) ==
               (if IsFinite(r.reasoningTier) then Success(SettledNumber(r.reasoningTier)) else Failure(NotAFiniteNumber(REASONING_TIER)))
  {
    var fs := RequestFields(r);
    RequestKeysDistinct(r);
    WiredField(fs, 1);
    WiredField(fs, 2);
    NumberSurvives(WireMembers(Present(fs)), MAX_OUTPUT_TOKENS, r.maxOutputTokens);
    NumberSurvives(WireMembers(Present(fs)), REASONING_TIER, r.reasoningTier);
  }

  lemma RequestMessagesSurvive(r: ModelRequest<Number>)
    ensures Get(WireMembers(Present(RequestFields(r))), MESSAGES) == Arr(WireItems(MessagesJson(r.messages)))
  {
    RequestKeysDistinct(r);
    WiredField(RequestFields(r), 0);
  }

  lemma RequestSurvives(r: ModelRequest<Number>)
    ensures ParseModelRequest(Wire(Obj(Present(RequestFields(r))))).Success? <==> ReadableRequest(r)
    ensures ReadableRequest(r) ==> ParseModelRequest(Wire(Obj(Present(RequestFields(r))))) == Success(SettledRequest(r))
  {
    var ms := WireMembers(Present(RequestFields(r)));
    assert Wire(Obj(Present(RequestFields(r)))) == Obj(ms);
    RequestMessagesSurvive(r);
    MessagesSurvive(r.messages, 0);
    RequestNumbersSurvive(r);
    RequestReads(ms, WireItems(MessagesJson(r.messages)), r.messages);
  }

  lemma RequestReads(ms: seq<Member>, items: seq<Json>, messages: seq<ModelMessage>)
    requires Get(ms, MESSAGES) == Arr(items) && ParseMessages(items, 0) == Success(messages)
    ensures var (limit, tier) := (OptionalNumber(ms, MAX_OUTPUT_TOKENS), OptionalNumber(ms, REASONING_TIER));
            var read := ParseModelRequest(Obj(ms));
            && (read.Success? <==> items != [] && limit.Success? && tier.Success?)
            && (read.Success? ==> read.value == ModelRequest(messages, limit.value, tier.value))
  {
  }

  lemma OrderKeysDistinct(o: QueuedOrder)
    ensures Distinct(FieldKeys(Fields(o)))
  {
    PayloadKeysDistinct();
    assert FieldKeys(Fields(o)) ==
           [ORGANIZATION_ID, REQUIRED_CAPABILITIES, TASK_ID, CORRELATION_ID, PREFERS_HUMAN, NEEDS_REASONING,
            REASONING_TIER, NEEDS_TOOLS, NEEDS_VISION, REQUIRE_LOCAL, MIN_CONTEXT_TOKENS, MODEL_REQUEST,
            POLICY, BUDGET, ACTOR, CAPABILITY_INPUT];
  }

  lemma FieldArrives(o: QueuedOrder, key: Text, value: Option<Json>, i: nat)
    requires i < |Fields(o)| && Fields(o)[i] == Field(key, value)
    ensures Get(WireMembers(Present(Fields(o))), key) == Wire(value.GetOr(Undefined))
  {
    OrderKeysDistinct(o);
    WiredField(Fields(o), i);
  }

  lemma TextsArrive(o: QueuedOrder)
    ensures OptionalString(WireMembers(Present(Fields(o))), TASK_ID) == Success(o.taskId)
    ensures OptionalString(WireMembers(Present(Fields(o))), CORRELATION_ID) == Success(o.correlationId)
  {
    FieldArrives(o, TASK_ID, TextField(o.taskId), 2);
    FieldArrives(o, CORRELATION_ID, TextField(o.correlationId), 3);
  }

  lemma RequiredArrive(o: QueuedOrder)
    ensures RequireString(WireMembers(Present(Fields(o))), ORGANIZATION_ID) ==
            if o.organizationId == [] then Failure(NotANonEmptyString(ORGANIZATION_ID)) else Success(o.organizationId)
    ensures StringArray(WireMembers(Present(Fields(o))), REQUIRED_CAPABILITIES) == Success(o.requiredCapabilities)
  {
    FieldArrives(o, ORGANIZATION_ID, Some(Str(o.organizationId)), 0);
    FieldArrives(o, REQUIRED_CAPABILITIES, Some(Arr(TextsJson(o.requiredCapabilities))), 1);
    TextsSurvive(o.requiredCapabilities);
    var read := StringArray(WireMembers(Present(Fields(o))), REQUIRED_CAPABILITIES);
    assert read.Success? && read.value == o.requiredCapabilities;
  }

  lemma FlagsArrive(o: QueuedOrder)
    ensures OptionalBoolean(WireMembers(Present(Fields(o))), PREFERS_HUMAN) == Success(o.prefersHuman)
    ensures OptionalBoolean(WireMembers(Present(Fields(o))), NEEDS_REASONING) == Success(o.needsReasoning)
    ensures OptionalBoolean(WireMembers(Present(Fields(o))), REQUIRE_LOCAL) == Success(o.requireLocal)
  {
    FlagArrives(o, PREFERS_HUMAN, o.prefersHuman, 4);
    FlagArrives(o, NEEDS_REASONING, o.needsReasoning, 5);
    FlagArrives(o, REQUIRE_LOCAL, o.requireLocal, 9);
  }

  lemma ModelFlagsArrive(o: QueuedOrder)
    ensures OptionalBoolean(WireMembers(Present(Fields(o))), NEEDS_TOOLS) == Success(o.needsTools)
    ensures OptionalBoolean(WireMembers(Present(Fields(o))), NEEDS_VISION) == Success(o.needsVision)
  {
    FlagArrives(o, NEEDS_TOOLS, o.needsTools, 7);
    FlagArrives(o, NEEDS_VISION, o.needsVision, 8);
  }

  lemma FlagArrives(o: QueuedOrder, key: Text, flag: Option<bool>, i: nat)
    requires i < |Fields(o)| && Fields(o)[i] == Field(key, FlagField(flag))
    ensures OptionalBoolean(WireMembers(Present(Fields(o))), key) == Success(flag)
  {
    FieldArrives(o, key, FlagField(flag), i);
  }

  lemma NumbersArrive(o: QueuedOrder)
    ensures OptionalNumber(WireMembers(Present(Fields(o))), REASONING_TIER) ==
            if IsFinite(o.reasoningTier) then Success(SettledNumber(o.reasoningTier)) else Failure(NotAFiniteNumber(REASONING_TIER))
    ensures OptionalNumber(WireMembers(Present(Fields(o))), MIN_CONTEXT_TOKENS) ==
            if IsFinite(o.minContextTokens) then Success(SettledNumber(o.minContextTokens))
            else Failure(NotAFiniteNumber(MIN_CONTEXT_TOKENS))
  {
    FieldArrives(o, REASONING_TIER, NumberField(o.reasoningTier), 6);
    FieldArrives(o, MIN_CONTEXT_TOKENS, NumberField(o.minContextTokens), 10);
    NumberSurvives(WireMembers(Present(Fields(o))), REASONING_TIER, o.reasoningTier);
    NumberSurvives(WireMembers(Present(Fields(o))), MIN_CONTEXT_TOKENS, o.minContextTokens);
  }

  lemma GatesArrive(o: QueuedOrder)
    ensures OptionalObject(WireMembers(Present(Fields(o))), POLICY) ==
            if ReadableGate(o.policy) then Success(SettledGate(o.policy)) else Failure(NotAnObject(POLICY))
    ensures OptionalObject(WireMembers(Present(Fields(o))), BUDGET) ==
            if ReadableGate(o.budget) then Success(SettledGate(o.budget)) else Failure(NotAnObject(BUDGET))
  {
    FieldArrives(o, POLICY, o.policy, 12);
    FieldArrives(o, BUDGET, o.budget, 13);
    GateSurvives(WireMembers(Present(Fields(o))), POLICY, o.policy);
    GateSurvives(WireMembers(Present(Fields(o))), BUDGET, o.budget);
  }

  lemma RequestArrives(o: QueuedOrder)
    ensures var read := OptionalModelRequest(WireMembers(Present(Fields(o))));
            && (read.Success? <==> o.modelRequest.Some? ==> ReadableRequest(o.modelRequest.value))
            && (read.Success? ==> read.value == Settled(o).modelRequest)
  {
    FieldArrives(o, MODEL_REQUEST, RequestField(o.modelRequest), 11);
    if o.modelRequest.Some? {
      RequestSurvives(o.modelRequest.value);
    }
  }

  /** An accepted payload passed every reader. */
  lemma ParseReads(p: Json)
    requires Parse(p).Success?
    ensures p.Obj?
    ensures var o := Parse(p).value;
            && RequireString(p.members, ORGANIZATION_ID) == Success(o.organizationId)
            && OptionalNumber(p.members, REASONING_TIER) == Success(o.reasoningTier)
            && OptionalNumber(p.members, MIN_CONTEXT_TOKENS) == Success(o.minContextTokens)
            && OptionalModelRequest(p.members) == Success(o.modelRequest)
            && OptionalObject(p.members, POLICY) == Success(o.policy)
            && OptionalObject(p.members, BUDGET) == Success(o.budget)
            && o.actor.None? && o.capabilityInput.None?
  {
  }

  /** Readers that all succeed make up the order. */
  lemma ParseYields(ms: seq<Member>, o: QueuedOrder)
    requires RequireString(ms, ORGANIZATION_ID) == Success(o.organizationId)
    requires StringArray(ms, REQUIRED_CAPABILITIES) == Success(o.requiredCapabilities)
    requires OptionalString(ms, TASK_ID) == Success(o.taskId)
    requires OptionalString(ms, CORRELATION_ID) == Success(o.correlationId)
    requires OptionalBoolean(ms, PREFERS_HUMAN) == Success(o.prefersHuman)
    requires OptionalBoolean(ms, NEEDS_REASONING) == Success(o.needsReasoning)
    requires OptionalNumber(ms, REASONING_TIER) == Success(o.reasoningTier)
    requires OptionalBoolean(ms, NEEDS_TOOLS) == Success(o.needsTools)
    requires OptionalBoolean(ms, NEEDS_VISION) == Success(o.needsVision)
    requires OptionalBoolean(ms, REQUIRE_LOCAL) == Success(o.requireLocal)
    requires OptionalNumber(ms, MIN_CONTEXT_TOKENS) == Success(o.minContextTokens)
    requires OptionalModelRequest(ms) == Success(o.modelRequest)
    requires OptionalObject(ms, POLICY) == Success(o.policy)
    requires OptionalObject(ms, BUDGET) == Success(o.budget)
    requires o.actor.None? && o.capabilityInput.None?
    ensures Parse(Obj(ms)) == Success(o)
  {
  }

  /** What the readers make of the members of an order that was carried. */
  ghost predicate Arrived(ms: seq<Member>, o: QueuedOrder) {
    && RequireString(ms, ORGANIZATION_ID)
       == (if o.organizationId == [] then Failure(NotANonEmptyString(ORGANIZATION_ID)) else Success(o.organizationId))
    && StringArray(ms, REQUIRED_CAPABILITIES) == Success(o.requiredCapabilities)
    && OptionalString(ms, TASK_ID) == Success(o.taskId)
    && OptionalString(ms, CORRELATION_ID) == Success(o.correlationId)
    && OptionalBoolean(ms, PREFERS_HUMAN) == Success(o.prefersHuman)
    && OptionalBoolean(ms, NEEDS_REASONING) == Success(o.needsReasoning)
    && OptionalNumber(ms, REASONING_TIER)
       == (if IsFinite(o.reasoningTier) then Success(SettledNumber(o.reasoningTier)) else Failure(NotAFiniteNumber(REASONING_TIER)))
    && OptionalBoolean(ms, NEEDS_TOOLS) == Success(o.needsTools)
    && OptionalBoolean(ms, NEEDS_VISION) == Success(o.needsVision)
    && OptionalBoolean(ms, REQUIRE_LOCAL) == Success(o.requireLocal)
    && OptionalNumber(ms, MIN_CONTEXT_TOKENS)
       == (if IsFinite(o.minContextTokens) then Success(SettledNumber(o.minContextTokens))
           else Failure(NotAFiniteNumber(MIN_CONTEXT_TOKENS)))
    && (OptionalModelRequest(ms).Success? <==> o.modelRequest.Some? ==> ReadableRequest(o.modelRequest.value))
    && (OptionalModelRequest(ms).Success? ==> OptionalModelRequest(ms).value == Settled(o).modelRequest)
    && OptionalObject(ms, POLICY) == (if ReadableGate(o.policy) then Success(SettledGate(o.policy)) else Failure(NotAnObject(POLICY)))
    && OptionalObject(ms, BUDGET) == (if ReadableGate(o.budget) then Success(SettledGate(o.budget)) else Failure(NotAnObject(BUDGET)))
  }

  lemma AllArrive(o: QueuedOrder)
    ensures Arrived(WireMembers(Present(Fields(o))), o)
  {
    RequiredArrive(o);
    TextsArrive(o);
    FlagsArrive(o);
    ModelFlagsArrive(o);
    NumbersArrive(o);
    RequestArrives(o);
    GatesArrive(o);
  }

  lemma ReadableParses(ms: seq<Member>, o: QueuedOrder)
    requires Arrived(ms, o) && Readable(o)
    ensures Parse(Obj(ms)) == Success(Settled(o))
  {
    ParseYields(ms, Settled(o));
  }

  lemma ParsedWasReadable(ms: seq<Member>, o: QueuedOrder)
    requires Arrived(ms, o) && Parse(Obj(ms)).Success?
    ensures Readable(o)
  {
    ParseReads(Obj(ms));
  }

  /** An order arrives exactly when it is readable, and then it arrives settled. */
  lemma RoundTrip(o: QueuedOrder)
    ensures Delivered(o).Success? <==> Readable(o)
    ensures Readable(o) ==> Delivered(o) == Success(Settled(o))
  {
    var ms := WireMembers(Present(Fields(o)));
    AllArrive(o);
    assert Wire(OrderJson(o)) == Obj(ms);
    if Readable(o) {
      ReadableParses(ms, o);
    }
    if Parse(Obj(ms)).Success? {
      ParsedWasReadable(ms, o);
    }
  }

  // ---------------------------------------------------------------- any number of trips

  predicate PlainNumber(n: Option<Number>) {
    n.Some? ==> Plain(Num(n.value))
  }

  predicate PlainGate(g: Option<Json>) {
    g.Some? ==> g.value.Obj? && Plain(g.value)
  }

  /** Orders the queue carries unchanged. */
  predicate Portable(o: QueuedOrder) {
    && o.organizationId != []
    && o.actor.None?
    && o.capabilityInput.None?
    && PlainNumber(o.reasoningTier)
    && PlainNumber(o.minContextTokens)
    && (o.modelRequest.Some? ==>
          && o.modelRequest.value.messages != []
          && PlainNumber(o.modelRequest.value.maxOutputTokens)
          && PlainNumber(o.modelRequest.value.reasoningTier))
    && PlainGate(o.policy)
    && PlainGate(o.budget)
  }

  lemma GateUnchanged(g: Option<Json>)
    ensures ReadableGate(g) && SettledGate(g) == g <==> PlainGate(g)
  {
    if g.Some? {
      WireIsIdentity(g.value);
    }
  }

  /** The worker runs the very order that was enqueued exactly when that order is portable. */
  lemma ArrivesUnchanged(o: QueuedOrder)
    ensures Delivered(o) == Success(o) <==> Portable(o)
  {
    RoundTrip(o);
    GateUnchanged(o.policy);
    GateUnchanged(o.budget);
  }

  lemma NumberReadIsFinite(ms: seq<Member>, key: Text, n: Option<Number>)
    requires OptionalNumber(ms, key) == Success(n)
    ensures IsFinite(n)
    ensures Plain(Obj(ms)) ==> PlainNumber(n)
  {
  }

  lemma GateReadIsObject(ms: seq<Member>, key: Text, g: Option<Json>)
    requires OptionalObject(ms, key) == Success(g)
    ensures g.Some? ==> g.value.Obj?
    ensures Plain(Obj(ms)) ==> PlainGate(g)
  {
  }

  lemma RequestReadIsReadable(value: Json)
    requires ParseModelRequest(value).Success?
    ensures ReadableRequest(ParseModelRequest(value).value)
    ensures var r := ParseModelRequest(value).value;
            Plain(value) ==> PlainNumber(r.maxOutputTokens) && PlainNumber(r.reasoningTier)
  {
    var r := ParseModelRequest(value).value;
    MessagesAreAsMany(Get(value.members, MESSAGES).items, 0);
    NumberReadIsFinite(value.members, MAX_OUTPUT_TOKENS, r.maxOutputTokens);
    NumberReadIsFinite(value.members, REASONING_TIER, r.reasoningTier);
  }

  /** Parsing yields readable orders only; a payload that is JSON yields a portable one. */
  lemma ParsedIsReadable(p: Json)
    requires Parse(p).Success?
    ensures Readable(Parse(p).value) && Parse(p).value.actor.None? && Parse(p).value.capabilityInput.None?
    ensures Plain(p) ==> Portable(Parse(p).value)
  {
    var o := Parse(p).value;
    ParseReads(p);
    NumberReadIsFinite(p.members, REASONING_TIER, o.reasoningTier);
    NumberReadIsFinite(p.members, MIN_CONTEXT_TOKENS, o.minContextTokens);
    GateReadIsObject(p.members, POLICY, o.policy);
    GateReadIsObject(p.members, BUDGET, o.budget);
    if o.modelRequest.Some? {
      RequestReadIsReadable(Get(p.members, MODEL_REQUEST));
    }
  }

  lemma {:induction false} MessagesAreAsMany(items: seq<Json>, index: nat)
    requires ParseMessages(items, index).Success?
    ensures |ParseMessages(items, index).value| == |items|
  {
    if items != [] {
      MessagesAreAsMany(items[1..], index + 1);
    }
  }

  /**
   * Parsing is a retraction.  Whatever payload was accepted, enqueueing its order again is
   * accepted too, and the order that arrives is a fixed point: it arrives unchanged ever after.
   */
  lemma ParseSettles(p: Json)
    requires Parse(p).Success?
    ensures Delivered(Parse(p).value) == Success(Settled(Parse(p).value))
    ensures Portable(Settled(Parse(p).value))
    ensures Delivered(Settled(Parse(p).value)) == Success(Settled(Parse(p).value))
  {
    var o := Parse(p).value;
    ParsedIsReadable(p);
    RoundTrip(o);
    GateSettles(o.policy);
    GateSettles(o.budget);
    ArrivesUnchanged(Settled(o));
  }

  lemma GateSettles(g: Option<Json>)
    requires ReadableGate(g)
    ensures PlainGate(SettledGate(g))
  {
    if g.Some? && g.value.Obj? {
      WireIsPlain(g.value);
    }
  }

  /** The payload of a job after a worker read it and enqueued its order again. */
  function Requeue(p: Json): Json {
    match Parse(p)
    case Success(o) => JobPayload(o)
    case Failure(_) => p
  }

  function Requeued(p: Json, n: nat): Json
    decreases n
  {
    if n == 0 then p else Requeued(Requeue(p), n - 1)
  }

  lemma RequeueKeepsTheOrder(p: Json)
    requires Plain(p)
    ensures Plain(Requeue(p)) && Parse(Requeue(p)) == Parse(p)
  {
    if Parse(p).Success? {
      ParsedIsReadable(p);
      ArrivesUnchanged(Parse(p).value);
      WireIsPlain(OrderJson(Parse(p).value));
    }
  }

  /** Every retry of a job runs the order its first attempt ran. */
  lemma {:induction false} RetriesRunTheSameOrder(p: Json, n: nat)
    requires Plain(p)
    ensures Parse(Requeued(p, n)) == Parse(p)
    decreases n
  {
    if n > 0 {
      RequeueKeepsTheOrder(p);
      RetriesRunTheSameOrder(Requeue(p), n - 1);
    }
  }

  lemma PayloadIsPlain(o: QueuedOrder)
    ensures Plain(JobPayload(o))
  {
    WireIsPlain(OrderJson(o));
  }
}
