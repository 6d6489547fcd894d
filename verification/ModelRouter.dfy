/** packages/model-router/src/router.ts: which models to try, in which order. */
module ModelRouter {
  import opened Basics
  import opened StableSort

  datatype ModelProvider = Anthropic | OpenAi | LocalNode

  datatype ModelPrivacy = Cloud | Local

  datatype ModelEntry = ModelEntry(
    id: Text,
    provider: ModelProvider,
    contextTokens: real,
    inputCostPer1M: real,
    outputCostPer1M: real,
    tools: bool,
    vision: bool,
    tierLow: real,
    tierHigh: real,
    privacy: ModelPrivacy,
    available: bool
  )

  datatype ModelRoutingInput = ModelRoutingInput(
    reasoningTier: real,
    needsTools: Option<bool>,
    needsVision: Option<bool>,
    requireLocal: Option<bool>,
    minContextTokens: Option<real>,
    excludeProviders: set<ModelProvider>
  )

  datatype ModelRoutingDecision = ModelRoutingDecision(model: ModelEntry, fallbacks: seq<ModelEntry>, exact: bool)

  predicate IsEligible(m: ModelEntry, input: ModelRoutingInput) {
    && m.available
    && (input.needsTools == Some(true) ==> m.tools)
    && (input.needsVision == Some(true) ==> m.vision)
    && (input.requireLocal == Some(true) ==> m.privacy == Local)
    && m.contextTokens >= input.minContextTokens.GetOr(0.0)
    && m.provider !in input.excludeProviders
  }

  predicate CoversTier(m: ModelEntry, tier: real) { m.tierLow <= tier <= m.tierHigh }

  predicate CapableOfTier(m: ModelEntry, tier: real) { m.tierHigh >= tier }

  predicate ByCost(a: ModelEntry, b: ModelEntry) {
    a.outputCostPer1M < b.outputCostPer1M
    || (a.outputCostPer1M == b.outputCostPer1M && a.inputCostPer1M <= b.inputCostPer1M)
  }

  function EligibleFor(input: ModelRoutingInput): ModelEntry -> bool { m => IsEligible(m, input) }

  function Covering(tier: real): ModelEntry -> bool { m => CoversTier(m, tier) }

  function Capable(tier: real): ModelEntry -> bool { m => CapableOfTier(m, tier) }

  function RouteModel(input: ModelRoutingInput, registry: seq<ModelEntry>): Option<ModelRoutingDecision> {
    var eligible := Filter(registry, EligibleFor(input));
    if eligible == [] then None
    else
      var coversTier := Filter(eligible, Covering(input.reasoningTier));
      var capableOfTier := Filter(eligible, Capable(input.reasoningTier));
      var pool := if coversTier != [] then coversTier else capableOfTier;
      if pool == [] then None
      else
        var ranked := Sort(pool, ByCost);
        Some(ModelRoutingDecision(ranked[0], ranked[1..], coversTier != []))
  }

  /** The models an orchestrator tries, in order. */
  function Chain(input: ModelRoutingInput, registry: seq<ModelEntry>): seq<ModelEntry> {
    match RouteModel(input, registry)
    case None => []
    case Some(d) => [d.model] + d.fallbacks
  }

  predicate Fits(m: ModelEntry, input: ModelRoutingInput) {
    IsEligible(m, input) && CoversTier(m, input.reasoningTier)
  }

  predicate Able(m: ModelEntry, input: ModelRoutingInput) {
    IsEligible(m, input) && CapableOfTier(m, input.reasoningTier)
  }

  predicate SomeFits(input: ModelRoutingInput, registry: seq<ModelEntry>) {
    exists m :: m in registry && Fits(m, input)
  }

  /** The models a chain may use: those covering the tier if there are any, else those above it. */
  function Usable(input: ModelRoutingInput, registry: seq<ModelEntry>): ModelEntry -> bool {
    if SomeFits(input, registry) then m => Fits(m, input) else m => Able(m, input)
  }

  lemma CostOrder()
    ensures TotalPreorder(ByCost)
  {
  }

  lemma PoolIsUsable(input: ModelRoutingInput, registry: seq<ModelEntry>)
    ensures var eligible := Filter(registry, EligibleFor(input));
            var covers := Filter(eligible, Covering(input.reasoningTier));
            && (covers != [] <==> SomeFits(input, registry))
            && (if covers != [] then covers else Filter(eligible, Capable(input.reasoningTier)))
               == Filter(registry, Usable(input, registry))
  {
    var e, c, k := EligibleFor(input), Covering(input.reasoningTier), Capable(input.reasoningTier);
    var covers := Filter(Filter(registry, e), c);
    if covers != [] {
      assert covers[0] in registry && Fits(covers[0], input);
    }
    if m :| m in registry && Fits(m, input) {
      assert m in covers;
    }
    FilterTwice(registry, e, c);
    FilterTwice(registry, e, k);
    if covers != [] {
      FilterCongruence(registry, Usable(input, registry), Both(e, c));
    } else {
      FilterCongruence(registry, Usable(input, registry), Both(e, k));
    }
  }

  /** The chain is its pool, ranked by cost; it is empty exactly when routing fails. */
  lemma ChainIsRankedPool(input: ModelRoutingInput, registry: seq<ModelEntry>)
    ensures Chain(input, registry) == Sort(Filter(registry, Usable(input, registry)), ByCost)
    ensures RouteModel(input, registry).None? <==> Chain(input, registry) == []
  {
    PoolIsUsable(input, registry);
    var ranked := Sort(Filter(registry, Usable(input, registry)), ByCost);
    assert ranked != [] ==> ranked == [ranked[0]] + ranked[1..];
  }

  /**
   * Routing fails exactly when nothing eligible reaches the tier.  Otherwise the chain lists
   * each usable model as often as the registry does, cheapest first, ties in registry order.
   */
  lemma ChainSound(input: ModelRoutingInput, registry: seq<ModelEntry>, x: ModelEntry)
    ensures RouteModel(input, registry).None? <==> forall m :: m in registry ==> !Able(m, input)
    ensures Sorted(Chain(input, registry), ByCost)
    ensures x in Chain(input, registry) <==>
            x in registry && (if SomeFits(input, registry) then Fits(x, input) else Able(x, input))
    ensures multiset(Chain(input, registry)) == multiset(Filter(registry, Usable(input, registry)))
    ensures Filter(Chain(input, registry), Ties(ByCost, x)) ==
            Filter(Filter(registry, Usable(input, registry)), Ties(ByCost, x))
  {
    ChainIsRankedPool(input, registry);
    CostOrder();
    var pool := Filter(registry, Usable(input, registry));
    SortSorted(pool, ByCost);
    SortStable(pool, ByCost, x);
    if pool == [] {
      assert forall m :: m in registry ==> !Usable(input, registry)(m);
    } else {
      assert pool[0] in registry && Able(pool[0], input);
    }
  }

  function Excluding(input: ModelRoutingInput, down: set<ModelProvider>): ModelRoutingInput {
    input.(excludeProviders := input.excludeProviders + down)
  }

  function Up(down: set<ModelProvider>): ModelEntry -> bool { (m: ModelEntry) => m.provider !in down }

  /**
   * Excluding providers up front is the same as striking them from the chain, exactly when
   * a tier-covering model survives, or none was there to begin with, or nothing survives.
   */
  lemma ExcludingProviders(input: ModelRoutingInput, down: set<ModelProvider>, registry: seq<ModelEntry>)
    ensures Chain(Excluding(input, down), registry) == Filter(Chain(input, registry), Up(down))
            <==> SomeFits(Excluding(input, down), registry)
                 || !SomeFits(input, registry)
                 || RouteModel(Excluding(input, down), registry).None?
  {
    var after := Excluding(input, down);
    StruckChain(input, down, registry);
    ChainIsRankedPool(after, registry);
    if SomeFits(after, registry) || !SomeFits(input, registry) {
      SameUsable(input, down, registry);
    } else {
      StruckOut(input, down, registry);
    }
  }

  lemma StruckChain(input: ModelRoutingInput, down: set<ModelProvider>, registry: seq<ModelEntry>)
    ensures Filter(Chain(input, registry), Up(down)) ==
            Sort(Filter(registry, Both(Usable(input, registry), Up(down))), ByCost)
  {
    ChainIsRankedPool(input, registry);
    CostOrder();
    SortFilterCommute(Filter(registry, Usable(input, registry)), ByCost, Up(down));
    FilterTwice(registry, Usable(input, registry), Up(down));
  }

  lemma SameUsable(input: ModelRoutingInput, down: set<ModelProvider>, registry: seq<ModelEntry>)
    requires SomeFits(Excluding(input, down), registry) || !SomeFits(input, registry)
    ensures Filter(registry, Usable(Excluding(input, down), registry)) ==
            Filter(registry, Both(Usable(input, registry), Up(down)))
  {
    var after := Excluding(input, down);
    assert forall m :: Fits(m, after) <==> Fits(m, input) && Up(down)(m);
    assert forall m :: Able(m, after) <==> Able(m, input) && Up(down)(m);
    assert SomeFits(after, registry) <==> SomeFits(input, registry);
    FilterCongruence(registry, Usable(after, registry), Both(Usable(input, registry), Up(down)));
  }

  lemma StruckOut(input: ModelRoutingInput, down: set<ModelProvider>, registry: seq<ModelEntry>)
    requires SomeFits(input, registry) && !SomeFits(Excluding(input, down), registry)
    ensures Filter(registry, Both(Usable(input, registry), Up(down))) == []
  {
    var after := Excluding(input, down);
    forall x | x in registry ensures !Both(Usable(input, registry), Up(down))(x) {
      assert !Fits(x, after);
    }
    FilterNone(registry, Both(Usable(input, registry), Up(down)));
  }

  /** A chain routed with `requireLocal` holds local models only. */
  lemma LocalChain(input: ModelRoutingInput, registry: seq<ModelEntry>, m: ModelEntry)
    requires input.requireLocal == Some(true) && m in Chain(input, registry)
    ensures m.privacy == Local
  {
    ChainSound(input, registry, m);
  }

  // ---------------------------------------------------------------- fallbacks

  /**
   * The chain uses every eligible model exactly when all of them cover the tier, or none does
   * and all of them reach it.
   */
  lemma ChainUsesAllEligible(input: ModelRoutingInput, registry: seq<ModelEntry>)
    ensures (forall m :: m in registry && IsEligible(m, input) ==> m in Chain(input, registry)) <==>
            (forall m :: m in registry && IsEligible(m, input) ==> CoversTier(m, input.reasoningTier))
            || (forall m :: m in registry && IsEligible(m, input) ==>
                              CapableOfTier(m, input.reasoningTier) && !CoversTier(m, input.reasoningTier))
  {
    forall m | m in registry
      ensures m in Chain(input, registry) <==> if SomeFits(input, registry) then Fits(m, input) else Able(m, input)
    {
      ChainSound(input, registry, m);
    }
  }

  const COVERING: ModelEntry := ModelEntry(Spell("covering"), Anthropic, 1000.0, 1.0, 1.0, true, true, 1.0, 5.0, Cloud, true)
  const STRONGER: ModelEntry := ModelEntry(Spell("stronger"), OpenAi, 1000.0, 2.0, 2.0, true, true, 6.0, 9.0, Cloud, true)

  /** An eligible model above the tier is no fallback for one that covers it. */
  lemma StrongerModelIsNoFallback()
    ensures var input := ModelRoutingInput(5.0, None, None, None, None, {});
            && IsEligible(STRONGER, input) && CapableOfTier(STRONGER, 5.0)
            && RouteModel(input, [COVERING, STRONGER]) == Some(ModelRoutingDecision(COVERING, [], true))
  {
    var input := ModelRoutingInput(5.0, None, None, None, None, {});
    var registry := [COVERING, STRONGER];
    assert registry[1..] == [STRONGER] && [STRONGER][1..] == [];
    assert Filter([STRONGER], EligibleFor(input)) == [STRONGER];
    assert Filter(registry, EligibleFor(input)) == registry;
    assert Filter([STRONGER], Covering(5.0)) == [];
    assert Filter(registry, Covering(5.0)) == [COVERING];
    assert [COVERING][1..] == [];
    assert Sort([COVERING], ByCost) == [COVERING];
  }
}
