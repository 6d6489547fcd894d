/** packages/orchestrator/src/capability-catalog.ts: one source for routing and execution. */
module CapabilityCatalogs {
  import opened Basics
  import opened Adapters
  import opened WorkRouter

  datatype CatalogEntry = CatalogEntry(
    adapter: CapabilityAdapter,
    executionClass: ExecutionClass,
    capabilities: seq<Text>,
    health: HealthStatus
  )

  datatype Registration = Registration(
    adapter: CapabilityAdapter,
    executionClass: ExecutionClass,
    capabilities: Option<seq<Text>>,
    health: Option<HealthStatus>
  )

  /** A JavaScript Map: its entries, and the order its keys were first set in. */
  datatype Entries = Entries(order: seq<Text>, at: map<Text, CatalogEntry>)

  ghost predicate ValidEntries(m: Entries) {
    && (forall id :: id in m.order <==> id in m.at)
    && (forall i, j :: 0 <= i < j < |m.order| ==> m.order[i] != m.order[j])
  }

  function EntryOf(r: Registration): CatalogEntry {
    CatalogEntry(r.adapter, r.executionClass, r.capabilities.GetOr(r.adapter.capabilities), r.health.GetOr(Healthy))
  }

  function Set(m: Entries, r: Registration): Entries {
    Entries(if r.adapter.id in m.at then m.order else m.order + [r.adapter.id], m.at[r.adapter.id := EntryOf(r)])
  }

  function SetAll(m: Entries, rs: seq<Registration>): Entries
    decreases rs
  {
    if rs == [] then m else SetAll(Set(m, rs[0]), rs[1..])
  }

  function Resolve(m: Entries, id: Text): Option<CapabilityAdapter> {
    if id in m.at then Some(m.at[id].adapter) else None
  }

  function Registered(id: Text, e: CatalogEntry): RegisteredCapability {
    RegisteredCapability(id, e.executionClass, e.capabilities, e.health)
  }

  function Snapshot(m: Entries): (r: seq<RegisteredCapability>)
    requires ValidEntries(m)
    ensures |r| == |m.order|
    ensures forall i :: 0 <= i < |r| ==> r[i] == Registered(m.order[i], m.at[m.order[i]])
  {
    seq(|m.order|, i requires 0 <= i < |m.order| => Registered(m.order[i], m.at[m.order[i]]))
  }

  class CapabilityCatalog {
    var entries: Entries

    ghost predicate Valid()
      reads this
    {
      ValidEntries(entries)
    }

    constructor ()
      ensures Valid() && entries == Entries([], map[])
    {
      entries := Entries([], map[]);
    }

    method Register(r: Registration)
      requires Valid()
      modifies this
      ensures Valid() && entries == Set(old(entries), r)
    {
      entries := Set(entries, r);
    }

    method ToWorkRegistry() returns (registry: CapabilityRegistry)
      requires Valid()
      ensures fresh(registry) && registry.items == Snapshot(entries)
    {
      registry := new CapabilityRegistry();
      for i := 0 to |entries.order|
        invariant fresh(registry) && registry.items == Snapshot(entries)[..i]
        invariant entries == old(entries)
      {
        var id := entries.order[i];
        registry.Register(Registered(id, entries.at[id]));
      }
    }
  }

  lemma {:induction false} RegistrationsKeep(m: Entries, rs: seq<Registration>, id: Text)
    requires ValidEntries(m) && id in m.at
    ensures ValidEntries(SetAll(m, rs)) && id in SetAll(m, rs).at
    decreases rs
  {
    if rs != [] {
      RegistrationsKeep(Set(m, rs[0]), rs[1..], id);
    }
  }

  /**
   * Routing and execution cannot drift: every candidate drawn from a registry snapshot
   * still resolves to an adapter, whatever was registered since.
   */
  lemma CandidatesResolve(m: Entries, later: seq<Registration>, input: WorkRoutingInput, c: RegisteredCapability)
    requires ValidEntries(m) && c in CandidateCapabilities(input, Snapshot(m))
    ensures Resolve(SetAll(m, later), c.id).Some?
  {
    MatchIsFirstCandidate(input, Snapshot(m));
    var i :| 0 <= i < |Snapshot(m)| && Snapshot(m)[i] == c;
    assert m.order[i] in m.at;
    RegistrationsKeep(m, later, c.id);
  }

  /** The registration of an id that counts: its last one. */
  function LastOf(rs: seq<Registration>, id: Text): (r: Option<Registration>)
    ensures r.Some? ==> r.value in rs && r.value.adapter.id == id
    ensures r.None? <==> forall x :: x in rs ==> x.adapter.id != id
    decreases rs
  {
    if rs == [] then None
    else
      match LastOf(rs[1..], id)
      case Some(r) => Some(r)
      case None => if rs[0].adapter.id == id then Some(rs[0]) else None
  }

  lemma {:induction false} LastRegistrationWins(m: Entries, rs: seq<Registration>, id: Text)
    requires ValidEntries(m)
    ensures var n := SetAll(m, rs);
            && ValidEntries(n)
            && (LastOf(rs, id).Some? ==> id in n.at && n.at[id] == EntryOf(LastOf(rs, id).value))
            && (LastOf(rs, id).None? ==> (id in n.at <==> id in m.at) && (id in m.at ==> n.at[id] == m.at[id]))
    decreases rs
  {
    if rs != [] {
      LastRegistrationWins(Set(m, rs[0]), rs[1..], id);
    }
  }

  /** What the catalog routes and what it resolves, for one id, after these registrations. */
  ghost predicate RoutesAndResolves(m: Entries, rs: seq<Registration>, id: Text)
    requires ValidEntries(m)
  {
    match LastOf(rs, id)
    case None => Resolve(m, id).None? && forall c :: c in Snapshot(m) ==> c.id != id
    case Some(r) =>
      && Resolve(m, id) == Some(r.adapter)
      && Registered(id, EntryOf(r)) in Snapshot(m)
      && (forall i, j :: 0 <= i < |Snapshot(m)| && 0 <= j < |Snapshot(m)| && Snapshot(m)[i].id == id == Snapshot(m)[j].id ==> i == j)
  }

  /**
   * The snapshot lists every registered id once, with the class, capabilities and health of its
   * last registration, and the id resolves to the adapter of that very registration.
   */
  lemma SnapshotDescribes(rs: seq<Registration>, id: Text)
    ensures ValidEntries(SetAll(Entries([], map[]), rs))
    ensures RoutesAndResolves(SetAll(Entries([], map[]), rs), rs, id)
  {
    LastRegistrationWins(Entries([], map[]), rs, id);
    var m := SetAll(Entries([], map[]), rs);
    if id in m.at {
      var i :| 0 <= i < |m.order| && m.order[i] == id;
      assert Snapshot(m)[i] == Registered(id, m.at[id]);
    }
  }
}
