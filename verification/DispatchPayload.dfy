/**
 * apps/control-plane/src/db/mappers.ts: the order a dispatch builds from its routing hints, as the
 * job payload it becomes, and what a worker makes of that payload.
 */
module DispatchPayload {
  import opened Basics
  import opened JsonValues
  import opened JsonText
  import opened WorkOrders
  import opened WorkOrderPayload

  /** The members `buildWorkOrder` sets; correlation id and gates are never among them. */
  function HintFields(id: Text, organizationId: Text, h: RawHints): seq<Field> {
    [Field(ORGANIZATION_ID, Some(Str(organizationId))),
     Field(TASK_ID, Some(Str(id))),
     Field(REQUIRED_CAPABILITIES, Some(Arr(TextsJson(h.requiredCapabilities)))),
     Field(PREFERS_HUMAN, h.prefersHuman),
     Field(NEEDS_REASONING, h.needsReasoning),
     Field(REASONING_TIER, h.reasoningTier),
     Field(NEEDS_TOOLS, h.needsTools),
     Field(NEEDS_VISION, h.needsVision),
     Field(REQUIRE_LOCAL, h.requireLocal),
     Field(MIN_CONTEXT_TOKENS, h.minContextTokens),
     Field(MODEL_REQUEST, h.modelRequest),
     Field(CORRELATION_ID, None),
     Field(POLICY, None),
     Field(BUDGET, None)]
  }

  /** The payload of the job a dispatch enqueues. */
  function Payload(id: Text, organizationId: Text, h: RawHints): Json {
    Wire(Obj(Present(HintFields(id, organizationId, h))))
  }

  lemma DispatchedPayloadIsPlain(id: Text, organizationId: Text, h: RawHints)
    ensures Plain(Payload(id, organizationId, h))
  {
    WireIsPlain(Obj(Present(HintFields(id, organizationId, h))));
  }

  // ---------------------------------------------------------------- what a worker reads

  /** The hints on the other side of the queue, where an absent one reads as undefined. */
  datatype Carried = Carried(
    prefersHuman: Json,
    needsReasoning: Json,
    reasoningTier: Json,
    needsTools: Json,
    needsVision: Json,
    requireLocal: Json,
    minContextTokens: Json,
    modelRequest: Json
  )

  function Carry(hint: Option<Json>): Json {
    Wire(hint.GetOr(Undefined))
  }

  function CarryAll(h: RawHints): Carried {
    Carried(Carry(h.prefersHuman), Carry(h.needsReasoning), Carry(h.reasoningTier), Carry(h.needsTools), Carry(h.needsVision),
            Carry(h.requireLocal), Carry(h.minContextTokens), Carry(h.modelRequest))
  }

  function ReadCarried(id: Text, organizationId: Text, requiredCapabilities: seq<Text>, c: Carried): Read<QueuedOrder> {
    if organizationId == [] then Failure(NotANonEmptyString(ORGANIZATION_ID))
    else
      var prefersHuman :- ReadBoolean(c.prefersHuman, PREFERS_HUMAN);
      var needsReasoning :- ReadBoolean(c.needsReasoning, NEEDS_REASONING);
      var reasoningTier :- ReadNumber(c.reasoningTier, REASONING_TIER);
      var needsTools :- ReadBoolean(c.needsTools, NEEDS_TOOLS);
      var needsVision :- ReadBoolean(c.needsVision, NEEDS_VISION);
      var requireLocal :- ReadBoolean(c.requireLocal, REQUIRE_LOCAL);
      var minContextTokens :- ReadNumber(c.minContextTokens, MIN_CONTEXT_TOKENS);
      var modelRequest :- ReadModelRequest(c.modelRequest);
      Success(WorkOrder(organizationId, Some(id), None, None, requiredCapabilities, prefersHuman, needsReasoning,
                        reasoningTier, needsTools, needsVision, requireLocal, minContextTokens, modelRequest,
                        None, None, None))
  }

  /** The order the hints spell, or the first complaint a worker has about them. */
  function ReadHints(id: Text, organizationId: Text, h: RawHints): Read<QueuedOrder> {
    ReadCarried(id, organizationId, h.requiredCapabilities, CarryAll(h))
  }

  lemma HintKeysDistinct(id: Text, organizationId: Text, h: RawHints)
    ensures Distinct(FieldKeys(HintFields(id, organizationId, h)))
  {
    var ks := [ORGANIZATION_ID, TASK_ID, REQUIRED_CAPABILITIES, PREFERS_HUMAN, NEEDS_REASONING, REASONING_TIER, NEEDS_TOOLS,
               NEEDS_VISION, REQUIRE_LOCAL, MIN_CONTEXT_TOKENS, MODEL_REQUEST, CORRELATION_ID, POLICY, BUDGET];
    // No two of these names share both their length and their first letter.
    var marks := [(14, 'o'), (6, 't'), (20, 'r'), (12, 'p'), (14, 'n'), (13, 'r'), (10, 'n'), (11, 'n'), (12, 'r'), (16, 'm'),
                  (12, 'm'), (13, 'c'), (6, 'p'), (6, 'b')];
    forall i | 0 <= i < |ks|
      ensures |ks[i]| == marks[i].0 && ks[i][0] == marks[i].1 as int
    {
    }
    assert FieldKeys(HintFields(id, organizationId, h)) == ks;
  }

  /** Every field is found under its key, as it is on the other side of the queue. */
  ghost predicate Delivered(ms: seq<Member>, fs: seq<Field>) {
    forall i :: 0 <= i < |fs| ==> Get(ms, fs[i].key) == Carry(fs[i].value)
  }

  lemma HintsAreDelivered(id: Text, organizationId: Text, h: RawHints)
    ensures Delivered(WireMembers(Present(HintFields(id, organizationId, h))), HintFields(id, organizationId, h))
  {
    HintKeysDistinct(id, organizationId, h);
    FieldsAreDelivered(HintFields(id, organizationId, h));
  }

  lemma FieldsAreDelivered(fs: seq<Field>)
    requires Distinct(FieldKeys(fs))
    ensures Delivered(WireMembers(Present(fs)), fs)
  {
    forall i | 0 <= i < |fs|
      ensures Get(WireMembers(Present(fs)), fs[i].key) == Carry(fs[i].value)
    {
      WiredField(fs, i);
    }
  }

  /** The members of the payload, seen through the property accessor. */
  ghost predicate Spells(ms: seq<Member>, id: Text, organizationId: Text, requiredCapabilities: seq<Text>, c: Carried) {
    SpellsTask(ms, id, organizationId, requiredCapabilities) && SpellsFlags(ms, c) && SpellsOthers(ms, c)
  }

  ghost predicate SpellsTask(ms: seq<Member>, id: Text, organizationId: Text, requiredCapabilities: seq<Text>) {
    && Get(ms, ORGANIZATION_ID) == Str(organizationId)
    && Get(ms, TASK_ID) == Str(id)
    && Get(ms, REQUIRED_CAPABILITIES) == Arr(TextsJson(requiredCapabilities))
  }

  ghost predicate SpellsFlags(ms: seq<Member>, c: Carried) {
    && Get(ms, PREFERS_HUMAN) == c.prefersHuman
    && Get(ms, NEEDS_REASONING) == c.needsReasoning
    && Get(ms, NEEDS_TOOLS) == c.needsTools
    && Get(ms, NEEDS_VISION) == c.needsVision
    && Get(ms, REQUIRE_LOCAL) == c.requireLocal
  }

  ghost predicate SpellsOthers(ms: seq<Member>, c: Carried) {
    && Get(ms, REASONING_TIER) == c.reasoningTier
    && Get(ms, MIN_CONTEXT_TOKENS) == c.minContextTokens
    && Get(ms, MODEL_REQUEST) == c.modelRequest
    && Get(ms, CORRELATION_ID) == Undefined && Get(ms, POLICY) == Undefined && Get(ms, BUDGET) == Undefined
  }

  lemma TaskArrives(ms: seq<Member>, id: Text, organizationId: Text, h: RawHints)
    requires Delivered(ms, HintFields(id, organizationId, h))
    ensures SpellsTask(ms, id, organizationId, h.requiredCapabilities)
  {
    var fs := HintFields(id, organizationId, h);
    assert fs[0].key == ORGANIZATION_ID && fs[1].key == TASK_ID && fs[2].key == REQUIRED_CAPABILITIES;
    TextsSurvive(h.requiredCapabilities);
  }

  lemma FlagsArrive(ms: seq<Member>, id: Text, organizationId: Text, h: RawHints)
    requires Delivered(ms, HintFields(id, organizationId, h))
    ensures SpellsFlags(ms, CarryAll(h))
  {
    var fs := HintFields(id, organizationId, h);
    assert fs[3].key == PREFERS_HUMAN && fs[4].key == NEEDS_REASONING && fs[6].key == NEEDS_TOOLS;
    assert fs[7].key == NEEDS_VISION && fs[8].key == REQUIRE_LOCAL;
  }

  lemma OthersArrive(ms: seq<Member>, id: Text, organizationId: Text, h: RawHints)
    requires Delivered(ms, HintFields(id, organizationId, h))
    ensures SpellsOthers(ms, CarryAll(h))
  {
    var fs := HintFields(id, organizationId, h);
    assert fs[5].key == REASONING_TIER && fs[9].key == MIN_CONTEXT_TOKENS && fs[10].key == MODEL_REQUEST;
    assert fs[11].key == CORRELATION_ID && fs[12].key == POLICY && fs[13].key == BUDGET;
  }

  lemma CapabilitiesRead(ms: seq<Member>, ts: seq<Text>)
    requires Get(ms, REQUIRED_CAPABILITIES) == Arr(TextsJson(ts))
    ensures StringArray(ms, REQUIRED_CAPABILITIES) == Success(ts)
  {
    var read := StringArray(ms, REQUIRED_CAPABILITIES);
    assert read.Success? && read.value == ts;
  }

  /** What each reader makes of the members. */
  ghost predicate ReadsAs(ms: seq<Member>, id: Text, organizationId: Text, requiredCapabilities: seq<Text>, c: Carried) {
    && RequireString(ms, ORGANIZATION_ID)
       == (if organizationId == [] then Failure(NotANonEmptyString(ORGANIZATION_ID)) else Success(organizationId))
    && StringArray(ms, REQUIRED_CAPABILITIES) == Success(requiredCapabilities)
    && OptionalString(ms, TASK_ID) == Success(Some(id))
    && OptionalString(ms, CORRELATION_ID) == Success(None)
    && OptionalBoolean(ms, PREFERS_HUMAN) == ReadBoolean(c.prefersHuman, PREFERS_HUMAN)
    && OptionalBoolean(ms, NEEDS_REASONING) == ReadBoolean(c.needsReasoning, NEEDS_REASONING)
    && OptionalNumber(ms, REASONING_TIER) == ReadNumber(c.reasoningTier, REASONING_TIER)
    && OptionalBoolean(ms, NEEDS_TOOLS) == ReadBoolean(c.needsTools, NEEDS_TOOLS)
    && OptionalBoolean(ms, NEEDS_VISION) == ReadBoolean(c.needsVision, NEEDS_VISION)
    && OptionalBoolean(ms, REQUIRE_LOCAL) == ReadBoolean(c.requireLocal, REQUIRE_LOCAL)
    && OptionalNumber(ms, MIN_CONTEXT_TOKENS) == ReadNumber(c.minContextTokens, MIN_CONTEXT_TOKENS)
    && OptionalModelRequest(ms) == ReadModelRequest(c.modelRequest)
    && OptionalObject(ms, POLICY) == Success(None) && OptionalObject(ms, BUDGET) == Success(None)
  }

  lemma SpelledReads(ms: seq<Member>, id: Text, organizationId: Text, requiredCapabilities: seq<Text>, c: Carried)
    requires Spells(ms, id, organizationId, requiredCapabilities, c)
    ensures ReadsAs(ms, id, organizationId, requiredCapabilities, c)
  {
    CapabilitiesRead(ms, requiredCapabilities);
  }

  lemma SpelledIsRead(payload: Json, id: Text, organizationId: Text, requiredCapabilities: seq<Text>, c: Carried)
    requires payload.Obj? && ReadsAs(payload.members, id, organizationId, requiredCapabilities, c)
    ensures Parse(payload) == ReadCarried(id, organizationId, requiredCapabilities, c)
  {
  }

  lemma PayloadIsDelivered(id: Text, organizationId: Text, h: RawHints, payload: Json)
    requires payload == Payload(id, organizationId, h)
    ensures payload.Obj? && Delivered(payload.members, HintFields(id, organizationId, h))
  {
    HintsAreDelivered(id, organizationId, h);
  }

  lemma PayloadSpells(id: Text, organizationId: Text, h: RawHints, ms: seq<Member>)
    requires Delivered(ms, HintFields(id, organizationId, h))
    ensures Spells(ms, id, organizationId, h.requiredCapabilities, CarryAll(h))
  {
    TaskArrives(ms, id, organizationId, h);
    FlagsArrive(ms, id, organizationId, h);
    OthersArrive(ms, id, organizationId, h);
  }

  /** What a worker reads of a dispatched payload is what the hints spell, down to the complaint. */
  lemma PayloadReads(id: Text, organizationId: Text, h: RawHints)
    ensures Parse(Payload(id, organizationId, h)) == ReadHints(id, organizationId, h)
  {
    var payload := Payload(id, organizationId, h);
    PayloadIsDelivered(id, organizationId, h, payload);
    PayloadSpells(id, organizationId, h, payload.members);
    SpelledReads(payload.members, id, organizationId, h.requiredCapabilities, CarryAll(h));
    SpelledIsRead(payload, id, organizationId, h.requiredCapabilities, CarryAll(h));
  }

  // ---------------------------------------------------------------- which hints are delivered

  predicate Absent(hint: Option<Json>) {
    hint.None? || hint.value.Undefined?
  }

  predicate FlagHint(hint: Option<Json>) {
    Absent(hint) || hint.value.Bool?
  }

  predicate NumberHint(hint: Option<Json>) {
    Absent(hint) || (hint.value.Num? && !hint.value.n.NotFinite?)
  }

  predicate RequestHint(hint: Option<Json>) {
    Absent(hint) || ParseModelRequest(Wire(hint.value)).Success?
  }

  /** Every hint is absent or of its type. */
  predicate Deliverable(organizationId: Text, h: RawHints) {
    && organizationId != []
    && FlagHint(h.prefersHuman) && FlagHint(h.needsReasoning) && FlagHint(h.needsTools) && FlagHint(h.needsVision)
    && FlagHint(h.requireLocal)
    && NumberHint(h.reasoningTier) && NumberHint(h.minContextTokens)
    && RequestHint(h.modelRequest)
  }

  lemma FlagCarried(hint: Option<Json>, key: Text)
    ensures ReadBoolean(Carry(hint), key).Success? <==> FlagHint(hint)
  {
  }

  lemma NumberCarried(hint: Option<Json>, key: Text)
    ensures ReadNumber(Carry(hint), key).Success? <==> NumberHint(hint)
  {
  }

  lemma RequestCarried(hint: Option<Json>)
    ensures ReadModelRequest(Carry(hint)).Success? <==> RequestHint(hint)
  {
    if !Absent(hint) {
      WireIsPlain(hint.value);
    }
  }

  lemma ReadIffDeliverable(id: Text, organizationId: Text, h: RawHints)
    ensures ReadHints(id, organizationId, h).Success? <==> Deliverable(organizationId, h)
  {
    FlagCarried(h.prefersHuman, PREFERS_HUMAN);
    FlagCarried(h.needsReasoning, NEEDS_REASONING);
    FlagCarried(h.needsTools, NEEDS_TOOLS);
    FlagCarried(h.needsVision, NEEDS_VISION);
    FlagCarried(h.requireLocal, REQUIRE_LOCAL);
    NumberCarried(h.reasoningTier, REASONING_TIER);
    NumberCarried(h.minContextTokens, MIN_CONTEXT_TOKENS);
    RequestCarried(h.modelRequest);
  }

  /**
   * Every attempt of a dispatched task reads the order its hints spell; and it can be read exactly
   * when the tenant is not empty and every hint is absent or of its type.
   */
  lemma DispatchReachesEveryAttempt(id: Text, organizationId: Text, h: RawHints, n: nat)
    ensures Parse(Requeued(Payload(id, organizationId, h), n)) == ReadHints(id, organizationId, h)
    ensures Parse(Requeued(Payload(id, organizationId, h), n)).Success? <==> Deliverable(organizationId, h)
  {
    DispatchedPayloadIsPlain(id, organizationId, h);
    RetriesRunTheSameOrder(Payload(id, organizationId, h), n);
    PayloadReads(id, organizationId, h);
    ReadIffDeliverable(id, organizationId, h);
  }

  // ---------------------------------------------------------------- hints of the declared types

  /** Hints of the declared types, as they come in. */
  function RawOf(hints: QueuedOrder): RawHints {
    RawHints(hints.requiredCapabilities, FlagField(hints.prefersHuman), FlagField(hints.needsReasoning),
             NumberField(hints.reasoningTier), FlagField(hints.needsTools), FlagField(hints.needsVision),
             FlagField(hints.requireLocal), NumberField(hints.minContextTokens), RequestField(hints.modelRequest))
  }

  /** The hints of a dispatch that the queue can carry. */
  predicate Dispatchable(organizationId: Text, hints: QueuedOrder) {
    && organizationId != []
    && PlainNumber(hints.reasoningTier)
    && PlainNumber(hints.minContextTokens)
    && (hints.modelRequest.Some? ==>
          && hints.modelRequest.value.messages != []
          && PlainNumber(hints.modelRequest.value.maxOutputTokens)
          && PlainNumber(hints.modelRequest.value.reasoningTier))
  }

  lemma TypedNumberCarried(n: Option<Number>, key: Text)
    ensures ReadNumber(Carry(NumberField(n)), key) == Success(n) <==> PlainNumber(n)
  {
  }

  lemma TypedRequestCarried(r: Option<ModelRequest<Number>>)
    ensures ReadModelRequest(Carry(RequestField(r))) == Success(r) <==>
            (r.Some? ==> r.value.messages != [] && PlainNumber(r.value.maxOutputTokens) && PlainNumber(r.value.reasoningTier))
  {
    if r.Some? {
      RequestSurvives(r.value);
    }
  }

  lemma TypedHintsRead(id: Text, organizationId: Text, hints: QueuedOrder)
    ensures ReadHints(id, organizationId, RawOf(hints)) == Success(BuildWorkOrder(id, organizationId, hints))
            <==> Dispatchable(organizationId, hints)
  {
    TypedNumberCarried(hints.reasoningTier, REASONING_TIER);
    TypedNumberCarried(hints.minContextTokens, MIN_CONTEXT_TOKENS);
    TypedRequestCarried(hints.modelRequest);
  }

  /** Hints of the declared types reach every attempt unchanged exactly when the queue can carry them. */
  lemma DispatchedOrderReachesEveryAttempt(id: Text, organizationId: Text, hints: QueuedOrder, n: nat)
    ensures Parse(Requeued(Payload(id, organizationId, RawOf(hints)), n)) == Success(BuildWorkOrder(id, organizationId, hints))
            <==> Dispatchable(organizationId, hints)
  {
    DispatchReachesEveryAttempt(id, organizationId, RawOf(hints), n);
    TypedHintsRead(id, organizationId, hints);
  }

  // ---------------------------------------------------------------- dispatches nobody can read

  const NO_HINTS: RawHints := RawHints([], None, None, None, None, None, None, None, None)

  const EMPTY_REQUEST: Json := Obj([Member(MESSAGES, Arr([]))])

  /** A model request without messages is accepted and enqueued, and no attempt can read the order. */
  lemma EmptyRequestIsNeverRead(n: nat)
    ensures Parse(Requeued(Payload(Spell("task"), Spell("org"), NO_HINTS.(modelRequest := Some(EMPTY_REQUEST))), n))
            == Failure(NoMessages)
  {
    var h := NO_HINTS.(modelRequest := Some(EMPTY_REQUEST));
    DispatchReachesEveryAttempt(Spell("task"), Spell("org"), h, n);
    assert EMPTY_REQUEST.members[1..] == [];
    assert WireItems([]) == [];
    assert WireMembers(EMPTY_REQUEST.members) == EMPTY_REQUEST.members;
    assert Keys(EMPTY_REQUEST.members)[0] == MESSAGES;
    assert Get(EMPTY_REQUEST.members, MESSAGES) == Arr([]);
  }

  lemma NullTokensAreMistyped()
    ensures ReadHints(Spell("task"), Spell("org"), NO_HINTS.(minContextTokens := Some(Null)))
            == Failure(NotAFiniteNumber(MIN_CONTEXT_TOKENS))
  {
  }

  lemma TextFlagIsMistyped()
    ensures ReadHints(Spell("task"), Spell("org"), NO_HINTS.(requireLocal := Some(Str(Spell("true")))))
            == Failure(NotABoolean(REQUIRE_LOCAL))
  {
  }

  /** Nor can any attempt read an order with a null where a number is expected, or a string where a flag is. */
  lemma MistypedHintsAreNeverRead(n: nat)
    ensures Parse(Requeued(Payload(Spell("task"), Spell("org"), NO_HINTS.(minContextTokens := Some(Null))), n))
            == Failure(NotAFiniteNumber(MIN_CONTEXT_TOKENS))
    ensures Parse(Requeued(Payload(Spell("task"), Spell("org"), NO_HINTS.(requireLocal := Some(Str(Spell("true"))))), n))
            == Failure(NotABoolean(REQUIRE_LOCAL))
  {
    NullTokensAreMistyped();
    TextFlagIsMistyped();
    DispatchReachesEveryAttempt(Spell("task"), Spell("org"), NO_HINTS.(minContextTokens := Some(Null)), n);
    DispatchReachesEveryAttempt(Spell("task"), Spell("org"), NO_HINTS.(requireLocal := Some(Str(Spell("true")))), n);
  }
}
