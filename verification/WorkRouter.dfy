/**
 * packages/work-router/src: the capability registry and the choice of execution class
 * that comes before any model is chosen.
 */
module WorkRouter {
  import opened Basics
  import opened StableSort

  datatype ExecutionClass = Deterministic | Automation | Human | Browser | CodingAgent | LocalAi | CloudAi

  predicate IsAi(c: ExecutionClass) { c == LocalAi || c == CloudAi }

  const CLASS_PREFERENCE: seq<ExecutionClass> :=
    [Deterministic, Automation, Human, Browser, CodingAgent, LocalAi, CloudAi]

  function Preference(c: ExecutionClass): (i: nat)
    ensures i < |CLASS_PREFERENCE| && CLASS_PREFERENCE[i] == c
  {
    match c
    case Deterministic => 0
    case Automation => 1
    case Human => 2
    case Browser => 3
    case CodingAgent => 4
    case LocalAi => 5
    case CloudAi => 6
  }

  datatype HealthStatus = Healthy | Degraded | Offline

  datatype RegisteredCapability = RegisteredCapability(
    id: Text,
    executionClass: ExecutionClass,
    capabilities: seq<Text>,
    health: HealthStatus
  )

  predicate HealthyProvider(c: RegisteredCapability, required: seq<Text>) {
    c.health == Healthy && forall r :: r in required ==> r in c.capabilities
  }

  function HealthyProvidingAmong(items: seq<RegisteredCapability>, required: seq<Text>): seq<RegisteredCapability> {
    Filter(items, c => HealthyProvider(c, required))
  }

  class CapabilityRegistry {
    var items: seq<RegisteredCapability>

    constructor ()
      ensures items == []
    {
      items := [];
    }

    method Register(capability: RegisteredCapability)
      modifies this
      ensures items == old(items) + [capability]
    {
      items := items + [capability];
    }

    function HealthyProviding(required: seq<Text>): seq<RegisteredCapability>
      reads this
    {
      HealthyProvidingAmong(items, required)
    }
  }

  datatype WorkRoutingInput = WorkRoutingInput(
    requiredCapabilities: seq<Text>,
    prefersHuman: Option<bool>,
    needsReasoning: Option<bool>
  )

  datatype WorkRoutingReason = HumanRequired | CapabilityMatched | AiReasoningRequired | NoCapabilityFallbackHuman

  datatype WorkRoutingDecision = WorkRoutingDecision(
    executionClass: ExecutionClass,
    capabilityId: Option<Text>,
    reason: WorkRoutingReason
  )

  predicate ByPreference(a: RegisteredCapability, b: RegisteredCapability) {
    Preference(a.executionClass) <= Preference(b.executionClass)
  }

  function RouteWork(input: WorkRoutingInput, items: seq<RegisteredCapability>): WorkRoutingDecision {
    if input.prefersHuman == Some(true) then WorkRoutingDecision(Human, None, HumanRequired)
    else
      var candidates := HealthyProvidingAmong(items, input.requiredCapabilities);
      if candidates != [] then
        var chosen := Sort(candidates, ByPreference)[0];
        WorkRoutingDecision(chosen.executionClass, Some(chosen.id), CapabilityMatched)
      else if input.needsReasoning == Some(true) then WorkRoutingDecision(CloudAi, None, AiReasoningRequired)
      else WorkRoutingDecision(Human, None, NoCapabilityFallbackHuman)
  }

  function CandidateCapabilities(input: WorkRoutingInput, items: seq<RegisteredCapability>): seq<RegisteredCapability> {
    if input.prefersHuman == Some(true) then []
    else Sort(HealthyProvidingAmong(items, input.requiredCapabilities), ByPreference)
  }

  lemma PreferenceOrder()
    ensures TotalPreorder(ByPreference)
  {
  }

  /**
   * Routing and fallback never disagree: a capability is matched exactly when there are
   * candidates, it is the first of them, and no healthy provider has a simpler class.
   */
  lemma MatchIsFirstCandidate(input: WorkRoutingInput, items: seq<RegisteredCapability>)
    ensures var d, cs := RouteWork(input, items), CandidateCapabilities(input, items);
            && (d.reason == CapabilityMatched <==> cs != [])
            && (cs != [] ==> d.capabilityId == Some(cs[0].id) && d.executionClass == cs[0].executionClass)
            && (cs == [] ==>
                  && d.capabilityId == None
                  && d.executionClass ==
                     (if input.prefersHuman != Some(true) && input.needsReasoning == Some(true) then CloudAi else Human))
            && Sorted(cs, ByPreference)
            && forall c :: c in cs <==> input.prefersHuman != Some(true) && c in items && HealthyProvider(c, input.requiredCapabilities)
  {
    PreferenceOrder();
    SortSorted(HealthyProvidingAmong(items, input.requiredCapabilities), ByPreference);
  }

  /** Candidates of one class stand in registration order, each as often as it was registered. */
  lemma CandidatesAreStable(input: WorkRoutingInput, items: seq<RegisteredCapability>)
    requires input.prefersHuman != Some(true)
    ensures IsStableSortOf(CandidateCapabilities(input, items), HealthyProvidingAmong(items, input.requiredCapabilities), ByPreference)
  {
    PreferenceOrder();
    StableSortIsUnique(HealthyProvidingAmong(items, input.requiredCapabilities), CandidateCapabilities(input, items), ByPreference);
  }

  // ---------------------------------------------------------------- candidate classes

  function Push(ordered: seq<ExecutionClass>, c: ExecutionClass): seq<ExecutionClass> {
    if c in ordered then ordered else ordered + [c]
  }

  function PushAll(ordered: seq<ExecutionClass>, cs: seq<RegisteredCapability>): seq<ExecutionClass>
    decreases cs
  {
    if cs == [] then ordered else PushAll(Push(ordered, cs[0].executionClass), cs[1..])
  }

  function ClassList(input: WorkRoutingInput, items: seq<RegisteredCapability>): seq<ExecutionClass> {
    var start := if input.prefersHuman == Some(true) then [Human] else [];
    var matched := PushAll(start, Sort(HealthyProvidingAmong(items, input.requiredCapabilities), ByPreference));
    Push(if input.needsReasoning == Some(true) then Push(matched, CloudAi) else matched, Human)
  }

  method CandidateClasses(input: WorkRoutingInput, registry: CapabilityRegistry) returns (ordered: seq<ExecutionClass>)
    ensures ordered == ClassList(input, registry.items)
  {
    ordered := [];
    if input.prefersHuman == Some(true) {
      ordered := Push(ordered, Human);
    }
    var cs := Sort(registry.HealthyProviding(input.requiredCapabilities), ByPreference);
    ghost var start := ordered;
    assert start == if input.prefersHuman == Some(true) then [Human] else [];
    for i := 0 to |cs|
      invariant PushAll(start, cs) == PushAll(ordered, cs[i..])
    {
      assert cs[i..][1..] == cs[i + 1..];
      ordered := Push(ordered, cs[i].executionClass);
    }
    assert cs[|cs|..] == [];
    if input.needsReasoning == Some(true) {
      ordered := Push(ordered, CloudAi);
    }
    ordered := Push(ordered, Human);
  }

  ghost predicate NoRepeats(s: seq<ExecutionClass>) {
    forall i, j :: 0 <= i < j < |s| ==> s[i] != s[j]
  }

  /** Pushing a sorted list: which classes there are, and that the new ones come in order. */
  lemma {:induction false} PushAllShape(ordered: seq<ExecutionClass>, cs: seq<RegisteredCapability>)
    requires NoRepeats(ordered)
    ensures var r := PushAll(ordered, cs);
            && ordered <= r && NoRepeats(r)
            && (forall c :: c in r <==> c in ordered || exists x :: x in cs && x.executionClass == c)
    decreases cs
  {
    if cs != [] {
      PushAllShape(Push(ordered, cs[0].executionClass), cs[1..]);
      var r := PushAll(ordered, cs);
      forall c ensures c in r <==> c in ordered || exists x :: x in cs && x.executionClass == c {
        if c in ordered || exists x :: x in cs && x.executionClass == c {
          if c !in ordered {
            var x :| x in cs && x.executionClass == c;
            assert x == cs[0] || x in cs[1..];
          }
        }
      }
    }
  }

  lemma {:induction false} PushAllSorted(ordered: seq<ExecutionClass>, cs: seq<RegisteredCapability>)
    requires NoRepeats(ordered) && Sorted(cs, ByPreference)
    ensures var r := PushAll(ordered, cs);
            forall i, j :: |ordered| <= i < j < |r| ==> Preference(r[i]) < Preference(r[j])
    ensures var r := PushAll(ordered, cs);
            cs != [] ==> forall i :: |ordered| <= i < |r| ==> Preference(r[i]) >= Preference(cs[0].executionClass)
    decreases cs
  {
    if cs != [] {
      var next := Push(ordered, cs[0].executionClass);
      PushAllSorted(next, cs[1..]);
      PushAllShape(next, cs[1..]);
      var r := PushAll(ordered, cs);
      assert cs[1..] == [] ==> r == next;
      assert next <= r;
      forall i, j | |ordered| <= i < j < |r| ensures Preference(r[i]) < Preference(r[j]) {
        if i < |next| {
          assert r[i] == cs[0].executionClass && r[i] != r[j];
          assert cs[1..] != [] ==> Preference(r[j]) >= Preference(cs[1..][0].executionClass);
          assert CLASS_PREFERENCE[Preference(r[i])] == r[i] && CLASS_PREFERENCE[Preference(r[j])] == r[j];
        }
      }
      forall i | |ordered| <= i < |r| ensures Preference(r[i]) >= Preference(cs[0].executionClass) {
        if i >= |next| {
          assert cs[1..] != [];
          assert Preference(cs[1..][0].executionClass) >= Preference(cs[0].executionClass);
        }
      }
    }
  }

  ghost predicate SomeCandidate(items: seq<RegisteredCapability>, required: seq<Text>, p: ExecutionClass -> bool) {
    exists c :: c in items && HealthyProvider(c, required) && p(c.executionClass)
  }

  function IsHuman(): ExecutionClass -> bool { c => c == Human }

  /** The classes that come after a human, when `first` says the order asked for one. */
  function AfterHuman(first: bool): ExecutionClass -> bool {
    c => c != Human && (first || Preference(c) > Preference(Human))
  }

  /**
   * The list names each usable class once.  It does not always end at a human: it does
   * unless the human is already named before a class that comes later.
   */
  lemma ClassListEndsAtHuman(input: WorkRoutingInput, items: seq<RegisteredCapability>)
    ensures var r := ClassList(input, items);
            var first := input.prefersHuman == Some(true);
            var required := input.requiredCapabilities;
            && NoRepeats(r) && Human in r
            && (r[|r| - 1] == Human <==>
                !((first || SomeCandidate(items, required, IsHuman()))
                  && (input.needsReasoning == Some(true) || SomeCandidate(items, required, AfterHuman(first)))))
  {
    var start := if input.prefersHuman == Some(true) then [Human] else [];
    var cs := Sort(HealthyProvidingAmong(items, input.requiredCapabilities), ByPreference);
    PreferenceOrder();
    SortSorted(HealthyProvidingAmong(items, input.requiredCapabilities), ByPreference);
    Matched(start, cs, items, input.requiredCapabilities);
    Tail(PushAll(start, cs), input.needsReasoning == Some(true));
  }

  /** An order that prefers a human and allows reasoning names the human first and ends at cloud AI. */
  lemma ClassListEndsAtCloudAi(required: seq<Text>)
    ensures ClassList(WorkRoutingInput(required, Some(true), Some(true)), []) == [Human, CloudAi]
  {
    assert HealthyProvidingAmong([], required) == [];
    assert PushAll([Human], Sort([], ByPreference)) == [Human];
    assert Push([Human], CloudAi) == [Human, CloudAi];
  }

  lemma Matched(start: seq<ExecutionClass>, cs: seq<RegisteredCapability>, items: seq<RegisteredCapability>,
                required: seq<Text>)
    requires start == [] || start == [Human]
    requires Sorted(cs, ByPreference) && forall c :: c in cs <==> c in items && HealthyProvider(c, required)
    ensures var m := PushAll(start, cs);
            && NoRepeats(m)
            && (Human in m <==> start == [Human] || SomeCandidate(items, required, IsHuman()))
            && (Human in m ==>
                  && (m[|m| - 1] != Human <==> SomeCandidate(items, required, AfterHuman(start == [Human])))
                  && (CloudAi in m ==> m[|m| - 1] != Human))
  {
    PushAllShape(start, cs);
    MatchedHuman(start, cs, items, required);
    if Human in PushAll(start, cs) {
      MatchedLate(start, cs, items, required);
    }
  }

  lemma MatchedHuman(start: seq<ExecutionClass>, cs: seq<RegisteredCapability>, items: seq<RegisteredCapability>,
                     required: seq<Text>)
    requires start == [] || start == [Human]
    requires forall c :: c in cs <==> c in items && HealthyProvider(c, required)
    ensures Human in PushAll(start, cs) <==> start == [Human] || SomeCandidate(items, required, IsHuman())
  {
    Named(start, cs, items, required, IsHuman());
    assert IsHuman()(Human);
  }

  lemma MatchedLate(start: seq<ExecutionClass>, cs: seq<RegisteredCapability>, items: seq<RegisteredCapability>,
                    required: seq<Text>)
    requires start == [] || start == [Human]
    requires Sorted(cs, ByPreference) && forall c :: c in cs <==> c in items && HealthyProvider(c, required)
    requires Human in PushAll(start, cs)
    ensures var m := PushAll(start, cs);
            && (m[|m| - 1] != Human <==> SomeCandidate(items, required, AfterHuman(start == [Human])))
            && (CloudAi in m ==> m[|m| - 1] != Human)
  {
    var m, late := PushAll(start, cs), AfterHuman(start == [Human]);
    PushAllShape(start, cs);
    PushAllSorted(start, cs);
    Named(start, cs, items, required, late);
    LateClassIsLast(m, start);
    CloudIsLate(start == [Human]);
    assert !late(Human);
  }

  lemma Tail(matched: seq<ExecutionClass>, reasoning: bool)
    requires NoRepeats(matched)
    ensures var r := Push(if reasoning then Push(matched, CloudAi) else matched, Human);
            && NoRepeats(r) && Human in r
            && (Human !in matched ==> r[|r| - 1] == Human)
            && (Human in matched ==>
                  (r[|r| - 1] == Human <==> matched[|matched| - 1] == Human && !(reasoning && CloudAi !in matched)))
  {
    var next := if reasoning then Push(matched, CloudAi) else matched;
    assert Human in next <==> Human in matched;
    if Human in matched {
      assert matched <= next;
    }
  }

  lemma Named(start: seq<ExecutionClass>, cs: seq<RegisteredCapability>, items: seq<RegisteredCapability>,
              required: seq<Text>, p: ExecutionClass -> bool)
    requires NoRepeats(start)
    requires forall c :: c in cs <==> c in items && HealthyProvider(c, required)
    ensures (exists c :: c in PushAll(start, cs) && p(c)) <==>
            (exists c :: c in start && p(c)) || SomeCandidate(items, required, p)
  {
    PushAllShape(start, cs);
    var r := PushAll(start, cs);
    if c :| c in start && p(c) {
      assert c in r;
    }
    if x :| x in items && HealthyProvider(x, required) && p(x.executionClass) {
      assert x in cs && x.executionClass in r;
    }
    if c :| c in r && p(c) && c !in start {
      var x :| x in cs && x.executionClass == c;
      assert HealthyProvider(x, required);
    }
  }

  lemma CloudIsLate(first: bool)
    ensures AfterHuman(first)(CloudAi)
  {
  }

  lemma LateClassIsLast(matched: seq<ExecutionClass>, start: seq<ExecutionClass>)
    requires start == [] || start == [Human]
    requires start <= matched && NoRepeats(matched) && Human in matched
    requires forall i, j :: |start| <= i < j < |matched| ==> Preference(matched[i]) < Preference(matched[j])
    ensures matched[|matched| - 1] != Human <==> exists c :: c in matched && AfterHuman(start == [Human])(c)
  {
    var late := AfterHuman(start == [Human]);
    var h :| 0 <= h < |matched| && matched[h] == Human;
    var last := |matched| - 1;
    if c :| c in matched && late(c) {
      var i :| 0 <= i < |matched| && matched[i] == c;
      assert start == [] ==> i > h;
    }
    if matched[last] != Human {
      assert h < last;
      assert late(matched[last]);
    }
  }
}
